/** What the dispatcher guarantees, proved about its specification `Dispatcher.Run` (and so,
    through `Api.PbiDatasetApi.ExecuteOperation`'s postcondition, about the client): the name
    lookup, the workspace scoping of every URL, the parameter checks, the per-table loops and
    the postdataset protocol. */
module DispatcherProperties {
  import opened Wrappers
  import opened Text
  import opened Payload
  import opened Transport
  import opened Dispatcher

  /** The name lookup, if the call makes one, gets a listing. */
  predicate LookupSucceeds(server: Server, c: Call)
  {
    c.datasetName.None? || LookupKeys(server, GroupPrefix(c.groupId), c.datasetName.value).Some?
  }

  /** The session after the name lookup of `c`. */
  function AfterLookup(server: Server, s: Session, c: Call): Session
  {
    Lookup(server, s, GroupPrefix(c.groupId), c.datasetName).0
  }

  /** Every request lies under the base URL followed by the scope `g`. */
  predicate AllScoped(requests: seq<Request>, g: string)
  {
    forall i :: 0 <= i < |requests| ==> HasPrefix(requests[i].url, BaseUrl + g)
  }

  /** A request to an endpoint that starts with the scope lies under the base URL and the scope. */
  lemma RequestUnderScope(m: Method, g: string, path: string, body: Option<string>)
    requires HasPrefix(path, g)
    ensures HasPrefix(MakeRequest(m, path, body).url, BaseUrl + g)
  {
    var url := MakeRequest(m, path, body).url;
    assert url == BaseUrl + path;
    assert url[..|BaseUrl + g|] == BaseUrl + path[..|g|];
  }

  /** Every endpoint starts with its scope. */
  lemma PathsUnderScope(g: string, key: string, table: string)
    ensures HasPrefix(DatasetsPath(g), g) && HasPrefix(DatasetPath(g, key), g)
    ensures HasPrefix(TablesPath(g, key), g) && HasPrefix(TablePath(g, key, table), g)
    ensures HasPrefix(RowsPath(g, key, table), g)
  {
    assert DatasetsPath(g)[..|g|] == g;
    assert DatasetPath(g, key)[..|g|] == g;
    assert TablesPath(g, key)[..|g|] == g;
    assert TablePath(g, key, table)[..|g|] == g;
    assert RowsPath(g, key, table)[..|g|] == g;
  }

  /** The listing request lies under its scope. */
  lemma ListRequestScoped(g: string)
    ensures AllScoped([ListRequest(g)], g)
  {
    PathsUnderScope(g, "", "");
    RequestUnderScope(Get, g, DatasetsPath(g), None);
  }

  /** Scoped request lists stay scoped when concatenated. */
  lemma ScopedConcat(a: seq<Request>, b: seq<Request>, g: string)
    requires AllScoped(a, g) && AllScoped(b, g)
    ensures AllScoped(a + b, g)
  {
    forall i | 0 <= i < |a + b|
      ensures HasPrefix((a + b)[i].url, BaseUrl + g)
    {
      if i >= |a| {
        assert (a + b)[i] == b[i - |a|];
      }
    }
  }

  /** A name lookup that fails sends only the listing, leaves `datasetKeys` empty and stops
      the call with the missing-key error, whatever the operation. */
  lemma LookupFailureStops(server: Server, s: Session, c: Call)
    requires c.datasetName.Some?
    requires LookupKeys(server, GroupPrefix(c.groupId), c.datasetName.value).None?
    ensures Run(server, s, c) ==
      (Session(s.log + [ListRequest(GroupPrefix(c.groupId))], [], s.datasetKey), Failure(MissingKey("value")))
  {
  }

  /** getdatasetbyname sends the lookup listing and a second listing, and returns the listed
      datasets with the name, in listing order; `datasetKeys` holds their keys. */
  lemma GetByNameEffect(server: Server, s: Session, c: Call)
    requires ToLower(c.operation) == "getdatasetbyname" && c.datasetName.Some?
    ensures var g := GroupPrefix(c.groupId);
      var list := ListRequest(g);
      var name := c.datasetName.value;
      Run(server, s, c) ==
        match server(list).value
        case None => (Session(s.log + [list], [], s.datasetKey), Failure(MissingKey("value")))
        case Some(listing) =>
          (Session(s.log + [list, list], Ids(Named(listing, name)), s.datasetKey),
           Success(Matches(Named(listing, name))))
  {
    var list := ListRequest(GroupPrefix(c.groupId));
    assert s.log + [list] + [list] == s.log + [list, list];
  }

  /** deletedatasetbyname sends the lookup listing and then one DELETE per key found, in
      listing order; it returns the not-found sentinel when there is none and otherwise the
      response to the last DELETE. */
  lemma DeleteByNameEffect(server: Server, s: Session, c: Call)
    requires ToLower(c.operation) == "deletedatasetbyname" && c.datasetName.Some?
    ensures var g := GroupPrefix(c.groupId);
      var list := ListRequest(g);
      var name := c.datasetName.value;
      Run(server, s, c) ==
        match LookupKeys(server, g, name)
        case None => (Session(s.log + [list], [], s.datasetKey), Failure(MissingKey("value")))
        case Some(keys) =>
          (Session(s.log + [list] + DeleteDatasetRequests(g, keys), keys, s.datasetKey),
           Success(if keys == [] then NotFound(NotFoundMessage(name))
                   else Raw(server(MakeRequest(Delete, DatasetPath(g, keys[|keys| - 1]), None)))))
  {
  }

  /** With no dataset of that name, deletedatasetbyname sends no DELETE and returns the sentinel. */
  lemma DeleteByNameNotFound(server: Server, s: Session, c: Call)
    requires ToLower(c.operation) == "deletedatasetbyname" && c.datasetName.Some?
    requires LookupKeys(server, GroupPrefix(c.groupId), c.datasetName.value) == Some([])
    ensures Run(server, s, c).0.log == s.log + [ListRequest(GroupPrefix(c.groupId))]
    ensures Run(server, s, c).1 == Success(NotFound(NotFoundMessage(c.datasetName.value)))
  {
    DeleteByNameEffect(server, s, c);
  }

  /** With a successful lookup, postdataset continues on the session the lookup leaves. */
  lemma PostDatasetAfterLookup(server: Server, s: Session, c: Call)
    requires ToLower(c.operation) == "postdataset" && c.datasetName.Some?
    requires LookupSucceeds(server, c)
    ensures var g := GroupPrefix(c.groupId);
      Run(server, s, c) == PostDataset(server,
        Session(s.log + [ListRequest(g)], LookupKeys(server, g, c.datasetName.value).value, s.datasetKey), g, c)
  {
    var g := GroupPrefix(c.groupId);
    var s1 := Session(s.log + [ListRequest(g)], LookupKeys(server, g, c.datasetName.value).value, s.datasetKey);
    assert Lookup(server, s, g, c.datasetName) == (s1, None);
  }

  /** What postdataset's two calls of the dispatcher return after a successful lookup: the
      datasets with the name and, when re-creating, the session after deleting them. */
  lemma PostDatasetCalls(server: Server, s1: Session, groupId: Option<string>, name: string)
    requires LookupKeys(server, GroupPrefix(groupId), name).Some?
    ensures var g := GroupPrefix(groupId);
      var list := ListRequest(g);
      var listing := server(list).value.value;
      var keys := LookupKeys(server, g, name).value;
      var s2 := Session(s1.log + [list, list], keys, s1.datasetKey);
      |Named(listing, name)| == |keys| &&
      Run(server, s1, ByName("getdatasetbyname", groupId, name)) == (s2, Success(Matches(Named(listing, name)))) &&
      Run(server, s2, ByName("deletedatasetbyname", groupId, name)).0 ==
        Session(s2.log + [list] + DeleteDatasetRequests(g, keys), keys, s1.datasetKey) &&
      Run(server, s2, ByName("deletedatasetbyname", groupId, name)).1.Success?
  {
    var g := GroupPrefix(groupId);
    var list := ListRequest(g);
    var keys := LookupKeys(server, g, name).value;
    GetByNameCall(server, s1, groupId, name);
    DeleteByNameCall(server, Session(s1.log + [list, list], keys, s1.datasetKey), groupId, name);
  }

  /** postdataset's getdatasetbyname call: two listings and the datasets with the name. */
  lemma GetByNameCall(server: Server, s1: Session, groupId: Option<string>, name: string)
    requires LookupKeys(server, GroupPrefix(groupId), name).Some?
    ensures var g := GroupPrefix(groupId);
      var list := ListRequest(g);
      var listing := server(list).value.value;
      var keys := LookupKeys(server, g, name).value;
      |Named(listing, name)| == |keys| &&
      Run(server, s1, ByName("getdatasetbyname", groupId, name)) ==
        (Session(s1.log + [list, list], keys, s1.datasetKey), Success(Matches(Named(listing, name))))
  {
    assert ToLower("getdatasetbyname") == "getdatasetbyname";
    GetByNameEffect(server, s1, ByName("getdatasetbyname", groupId, name));
  }

  /** postdataset's deletedatasetbyname call: one listing, then one DELETE per key. */
  lemma DeleteByNameCall(server: Server, s2: Session, groupId: Option<string>, name: string)
    requires LookupKeys(server, GroupPrefix(groupId), name).Some?
    requires s2.datasetKeys == LookupKeys(server, GroupPrefix(groupId), name).value
    ensures var g := GroupPrefix(groupId);
      var keys := LookupKeys(server, g, name).value;
      Run(server, s2, ByName("deletedatasetbyname", groupId, name)).0 ==
        Session(s2.log + [ListRequest(g)] + DeleteDatasetRequests(g, keys), keys, s2.datasetKey) &&
      Run(server, s2, ByName("deletedatasetbyname", groupId, name)).1.Success?
  {
    assert ToLower("deletedatasetbyname") == "deletedatasetbyname";
    DeleteByNameEffect(server, s2, ByName("deletedatasetbyname", groupId, name));
  }

  /** postdataset without re-creation on any session once its parameters are given: a taken
      name fails after getdatasetbyname, a free one goes on to the creation step. */
  lemma PostDatasetKeepBody(server: Server, s1: Session, c: Call)
    requires c.datasetName.Some? && c.tableNames.Some? && c.dataFrames.Some? && !c.reCreateIfExists
    requires LookupKeys(server, GroupPrefix(c.groupId), c.datasetName.value).Some?
    ensures var g := GroupPrefix(c.groupId);
      var list := ListRequest(g);
      var name := c.datasetName.value;
      var keys := LookupKeys(server, g, name).value;
      var s2 := Session(s1.log + [list, list], keys, s1.datasetKey);
      PostDataset(server, s1, g, c) ==
        if keys != [] then (s2, Failure(DatasetExists(name)))
        else CreateDataset(server, s2, g, name, Zip(c.tableNames.value, c.dataFrames.value))
  {
    PostDatasetCalls(server, s1, c.groupId, c.datasetName.value);
  }

  /** postdataset with re-creation on any session once its parameters are given: it goes on to
      the creation step after getdatasetbyname and deletedatasetbyname. */
  lemma PostDatasetRecreateBody(server: Server, s1: Session, c: Call)
    requires c.datasetName.Some? && c.tableNames.Some? && c.dataFrames.Some? && c.reCreateIfExists
    requires LookupKeys(server, GroupPrefix(c.groupId), c.datasetName.value).Some?
    ensures var g := GroupPrefix(c.groupId);
      var list := ListRequest(g);
      var name := c.datasetName.value;
      var keys := LookupKeys(server, g, name).value;
      var s3 := Session(s1.log + [list, list] + [list] + DeleteDatasetRequests(g, keys), keys, s1.datasetKey);
      PostDataset(server, s1, g, c) == CreateDataset(server, s3, g, name, Zip(c.tableNames.value, c.dataFrames.value))
  {
    PostDatasetCalls(server, s1, c.groupId, c.datasetName.value);
  }

  /** postdataset after its own lookup, getdatasetbyname and (when re-creating)
      deletedatasetbyname. */
  lemma PostDatasetUnfolds(server: Server, s: Session, c: Call)
    requires ToLower(c.operation) == "postdataset"
    requires c.datasetName.Some? && c.tableNames.Some? && c.dataFrames.Some?
    requires LookupSucceeds(server, c)
    ensures var g := GroupPrefix(c.groupId);
      var list := ListRequest(g);
      var name := c.datasetName.value;
      var keys := LookupKeys(server, g, name).value;
      var deletes := if c.reCreateIfExists then [list] + DeleteDatasetRequests(g, keys) else [];
      Run(server, s, c) ==
        if !c.reCreateIfExists && keys != [] then
          (Session(s.log + [list, list, list], keys, s.datasetKey), Failure(DatasetExists(name)))
        else
          CreateDataset(server, Session(s.log + [list, list, list] + deletes, keys, s.datasetKey), g, name,
                        Zip(c.tableNames.value, c.dataFrames.value))
  {
    var g := GroupPrefix(c.groupId);
    var list := ListRequest(g);
    var keys := LookupKeys(server, g, c.datasetName.value).value;
    var s1 := Session(s.log + [list], keys, s.datasetKey);
    PostDatasetAfterLookup(server, s, c);
    assert s1.log + [list, list] == s.log + [list, list, list];
    if c.reCreateIfExists {
      PostDatasetRecreateBody(server, s1, c);
      var deletes := [list] + DeleteDatasetRequests(g, keys);
      assert s1.log + [list, list] + [list] + DeleteDatasetRequests(g, keys) == s.log + [list, list, list] + deletes;
    } else {
      PostDatasetKeepBody(server, s1, c);
      assert s.log + [list, list, list] + [] == s.log + [list, list, list];
    }
  }

  /** The outcome of postdataset written out without recursion: three listings (its own lookup,
      then getdatasetbyname's lookup and listing), a fourth listing and one DELETE per namesake
      when re-creating, then the one POST of the creation body; a taken name without re-creation
      stops after the listings. `datasetKeys` holds the namesakes' keys and `datasetKey` becomes
      the created key. */
  function PostDatasetOutcome(server: Server, s: Session, c: Call): (Session, Result<Outcome, Error>)
    requires c.datasetName.Some? && c.tableNames.Some? && c.dataFrames.Some?
    requires LookupSucceeds(server, c)
  {
    var g := GroupPrefix(c.groupId);
    var list := ListRequest(g);
    var name := c.datasetName.value;
    var keys := LookupKeys(server, g, name).value;
    var post := PostDatasetRequest(g, name, Zip(c.tableNames.value, c.dataFrames.value));
    var deletes := if c.reCreateIfExists then [list] + DeleteDatasetRequests(g, keys) else [];
    if !c.reCreateIfExists && keys != [] then
      (Session(s.log + [list, list, list], keys, s.datasetKey), Failure(DatasetExists(name)))
    else
      var log' := s.log + [list, list, list] + deletes + [post];
      match server(post).id
      case None => (Session(log', keys, s.datasetKey), Failure(MissingKey("id")))
      case Some(id) => (Session(log', keys, [id]), Success(Raw(server(post))))
  }

  /** postdataset, recursion and all, has the outcome written out above. */
  lemma PostDatasetEffect(server: Server, s: Session, c: Call)
    requires ToLower(c.operation) == "postdataset"
    requires c.datasetName.Some? && c.tableNames.Some? && c.dataFrames.Some?
    requires LookupSucceeds(server, c)
    ensures Run(server, s, c) == PostDatasetOutcome(server, s, c)
  {
    PostDatasetUnfolds(server, s, c);
  }

  /** Without re-creation, a taken name makes postdataset fail with no POST sent. */
  lemma PostDatasetConflictSendsNoPost(server: Server, s: Session, c: Call)
    requires ToLower(c.operation) == "postdataset"
    requires c.datasetName.Some? && c.tableNames.Some? && c.dataFrames.Some?
    requires !c.reCreateIfExists
    requires LookupKeys(server, GroupPrefix(c.groupId), c.datasetName.value).Some?
    requires LookupKeys(server, GroupPrefix(c.groupId), c.datasetName.value).value != []
    ensures Run(server, s, c).1 == Failure(DatasetExists(c.datasetName.value))
    ensures forall i :: |s.log| <= i < |Run(server, s, c).0.log| ==> Run(server, s, c).0.log[i].verb != Post
  {
    PostDatasetEffect(server, s, c);
    var log' := Run(server, s, c).0.log;
    var list := ListRequest(GroupPrefix(c.groupId));
    forall i | |s.log| <= i < |log'|
      ensures log'[i].verb != Post
    {
      assert log'[i] == list;
    }
  }

  /** With re-creation, the POST to the datasets endpoint is the last request postdataset sends
      and the only POST, so every DELETE of a namesake comes before it. */
  lemma PostDatasetDeletesBeforePost(server: Server, s: Session, c: Call)
    requires ToLower(c.operation) == "postdataset"
    requires c.datasetName.Some? && c.tableNames.Some? && c.dataFrames.Some?
    requires c.reCreateIfExists
    requires LookupSucceeds(server, c)
    ensures var log' := Run(server, s, c).0.log;
      var g := GroupPrefix(c.groupId);
      |log'| > |s.log| &&
      log'[|log'| - 1] == PostDatasetRequest(g, c.datasetName.value, Zip(c.tableNames.value, c.dataFrames.value)) &&
      log'[|log'| - 1].url == BaseUrl + DatasetsPath(g) &&
      forall i :: |s.log| <= i < |log'| - 1 ==> log'[i].verb != Post
  {
    PostDatasetEffect(server, s, c);
    OutcomeDeletesBeforePost(server, s, c);
  }

  /** The re-creating outcome ends with its POST, after listings and DELETEs only. */
  lemma OutcomeDeletesBeforePost(server: Server, s: Session, c: Call)
    requires c.datasetName.Some? && c.tableNames.Some? && c.dataFrames.Some?
    requires c.reCreateIfExists
    requires LookupSucceeds(server, c)
    ensures var log' := PostDatasetOutcome(server, s, c).0.log;
      var g := GroupPrefix(c.groupId);
      |log'| > |s.log| &&
      log'[|log'| - 1] == PostDatasetRequest(g, c.datasetName.value, Zip(c.tableNames.value, c.dataFrames.value)) &&
      log'[|log'| - 1].url == BaseUrl + DatasetsPath(g) &&
      forall i :: |s.log| <= i < |log'| - 1 ==> log'[i].verb != Post
  {
    var g := GroupPrefix(c.groupId);
    var list := ListRequest(g);
    var keys := LookupKeys(server, g, c.datasetName.value).value;
    var deletes := DeleteDatasetRequests(g, keys);
    var post := PostDatasetRequest(g, c.datasetName.value, Zip(c.tableNames.value, c.dataFrames.value));
    var log' := PostDatasetOutcome(server, s, c).0.log;
    assert log' == s.log + [list, list, list] + ([list] + deletes) + [post];
    forall i | 0 <= i < |deletes| ensures deletes[i].verb != Post {
      assert deletes[i] == MakeRequest(Delete, DatasetPath(g, keys[i]), None);
    }
    PostComesLast(s.log, list, deletes, post);
  }

  /** In listings, then DELETEs, then one POST, the POST is last and the only POST. */
  lemma PostComesLast(log: seq<Request>, list: Request, deletes: seq<Request>, post: Request)
    requires list.verb == Get
    requires forall i :: 0 <= i < |deletes| ==> deletes[i].verb != Post
    ensures var log' := log + [list, list, list] + ([list] + deletes) + [post];
      |log'| > |log| && log'[|log'| - 1] == post &&
      forall i :: |log| <= i < |log'| - 1 ==> log'[i].verb != Post
  {
    var log' := log + [list, list, list] + ([list] + deletes) + [post];
    var n := |log|;
    forall i | n <= i < |log'| - 1
      ensures log'[i].verb != Post
    {
      if i < n + 4 {
        assert log'[i] == list;
      } else {
        assert log'[i] == deletes[i - n - 4];
      }
    }
  }

  /** A first creation under a free name: three listings, the POST, and the new key. */
  lemma PostDatasetFreshName(server: Server, s: Session, c: Call)
    requires ToLower(c.operation) == "postdataset"
    requires c.datasetName.Some? && c.tableNames.Some? && c.dataFrames.Some?
    requires !c.reCreateIfExists
    requires LookupKeys(server, GroupPrefix(c.groupId), c.datasetName.value) == Some([])
    requires server(PostDatasetRequest(GroupPrefix(c.groupId), c.datasetName.value,
                                       Zip(c.tableNames.value, c.dataFrames.value))).id.Some?
    ensures var g := GroupPrefix(c.groupId);
      var list := ListRequest(g);
      var post := PostDatasetRequest(g, c.datasetName.value, Zip(c.tableNames.value, c.dataFrames.value));
      Run(server, s, c) == (Session(s.log + [list, list, list, post], [], [server(post).id.value]),
                            Success(Raw(server(post))))
  {
    PostDatasetEffect(server, s, c);
    OutcomeFreshName(server, s, c);
  }

  /** The outcome of a first creation under a free name. */
  lemma OutcomeFreshName(server: Server, s: Session, c: Call)
    requires c.datasetName.Some? && c.tableNames.Some? && c.dataFrames.Some?
    requires !c.reCreateIfExists
    requires LookupKeys(server, GroupPrefix(c.groupId), c.datasetName.value) == Some([])
    requires server(PostDatasetRequest(GroupPrefix(c.groupId), c.datasetName.value,
                                       Zip(c.tableNames.value, c.dataFrames.value))).id.Some?
    ensures var g := GroupPrefix(c.groupId);
      var list := ListRequest(g);
      var post := PostDatasetRequest(g, c.datasetName.value, Zip(c.tableNames.value, c.dataFrames.value));
      PostDatasetOutcome(server, s, c) == (Session(s.log + [list, list, list, post], [], [server(post).id.value]),
                                           Success(Raw(server(post))))
  {
    var g := GroupPrefix(c.groupId);
    var list := ListRequest(g);
    var post := PostDatasetRequest(g, c.datasetName.value, Zip(c.tableNames.value, c.dataFrames.value));
    assert s.log + [list, list, list] + [] + [post] == s.log + [list, list, list, post];
  }

  /** The request lists of the loops lie under their scope. */
  lemma RequestListsScoped(g: string, key: string, keys: seq<string>, tableNames: seq<string>,
                           tables: seq<(string, DataFrame)>)
    ensures AllScoped(DeleteDatasetRequests(g, keys), g)
    ensures AllScoped(DeleteRowsRequests(g, key, tableNames), g)
    ensures AllScoped(PostRowsRequests(g, key, tables), g)
    ensures AllScoped(PutTableRequests(g, key, tables), g)
  {
    forall i | 0 <= i < |keys| ensures HasPrefix(DeleteDatasetRequests(g, keys)[i].url, BaseUrl + g) {
      PathsUnderScope(g, keys[i], "");
      RequestUnderScope(Delete, g, DatasetPath(g, keys[i]), None);
    }
    forall i | 0 <= i < |tableNames| ensures HasPrefix(DeleteRowsRequests(g, key, tableNames)[i].url, BaseUrl + g) {
      PathsUnderScope(g, key, tableNames[i]);
      RequestUnderScope(Delete, g, RowsPath(g, key, tableNames[i]), None);
    }
    forall i | 0 <= i < |tables| ensures HasPrefix(PostRowsRequests(g, key, tables)[i].url, BaseUrl + g) {
      PathsUnderScope(g, key, tables[i].0);
      RequestUnderScope(Post, g, RowsPath(g, key, tables[i].0), Some(RowsBody(RowsJson(tables[i].1.rows))));
    }
    forall i | 0 <= i < |tables| ensures HasPrefix(PutTableRequests(g, key, tables)[i].url, BaseUrl + g) {
      PathsUnderScope(g, key, tables[i].0);
      RequestUnderScope(Put, g, TablePath(g, key, tables[i].0),
                        Some(TableBody(tables[i].0, ColumnsJson(tables[i].1.schema))));
    }
  }

  /** `s'` extends the log of `s` by requests under the scope `g` and keeps its `datasetKeys`. */
  predicate Grows(s: Session, s': Session, g: string)
  {
    s.log <= s'.log && AllScoped(s'.log[|s.log|..], g) && s'.datasetKeys == s.datasetKeys
  }

  /** Appending scoped requests to the log is growth. */
  lemma AppendGrows(s: Session, sent: seq<Request>, g: string)
    requires AllScoped(sent, g)
    ensures Grows(s, s.(log := s.log + sent), g)
  {
    assert (s.log + sent)[|s.log|..] == sent;
  }

  /** The operations that send at most one request append it under their scope and leave
      `datasetKey` alone. */
  lemma SingleRequestBranchesGrow(server: Server, s: Session, g: string, c: Call)
    ensures Grows(s, DeleteDatasetById(server, s, g, c).0, g) && DeleteDatasetById(server, s, g, c).0.datasetKey == s.datasetKey
    ensures Grows(s, GetDatasetById(server, s, g, c).0, g) && GetDatasetById(server, s, g, c).0.datasetKey == s.datasetKey
    ensures Grows(s, GetDatasetByName(server, s, g, c).0, g) && GetDatasetByName(server, s, g, c).0.datasetKey == s.datasetKey
    ensures Grows(s, GetDatasets(server, s, g).0, g) && GetDatasets(server, s, g).0.datasetKey == s.datasetKey
    ensures Grows(s, GetTables(server, s, g, c).0, g) && GetTables(server, s, g, c).0.datasetKey == s.datasetKey
  {
    var key := if c.datasetKey.Some? then c.datasetKey.value else "";
    PathsUnderScope(g, key, "");
    RequestUnderScope(Get, g, DatasetsPath(g), None);
    RequestUnderScope(Get, g, DatasetPath(g, key), None);
    RequestUnderScope(Delete, g, DatasetPath(g, key), None);
    RequestUnderScope(Get, g, TablesPath(g, key), None);
    AppendGrows(s, [], g);
    AppendGrows(s, [MakeRequest(Get, DatasetsPath(g), None)], g);
    AppendGrows(s, [MakeRequest(Get, DatasetPath(g, key), None)], g);
    AppendGrows(s, [MakeRequest(Delete, DatasetPath(g, key), None)], g);
    AppendGrows(s, [MakeRequest(Get, TablesPath(g, key), None)], g);
    assert s.(log := s.log + []) == s;
  }

  /** The operations that loop append one scoped request per key or table and leave
      `datasetKey` alone. */
  lemma LoopBranchesGrow(server: Server, s: Session, g: string, c: Call)
    ensures Grows(s, DeleteDatasetByName(server, s, g, c).0, g) && DeleteDatasetByName(server, s, g, c).0.datasetKey == s.datasetKey
    ensures Grows(s, DeleteRows(server, s, g, c).0, g) && DeleteRows(server, s, g, c).0.datasetKey == s.datasetKey
    ensures Grows(s, PostRows(server, s, g, c).0, g) && PostRows(server, s, g, c).0.datasetKey == s.datasetKey
    ensures Grows(s, PutTable(server, s, g, c).0, g) && PutTable(server, s, g, c).0.datasetKey == s.datasetKey
  {
    var key := if c.datasetKey.Some? then c.datasetKey.value else "";
    var names := if c.tableNames.Some? then c.tableNames.value else [];
    var tables := if c.tableNames.Some? && c.dataFrames.Some? then Zip(c.tableNames.value, c.dataFrames.value) else [];
    RequestListsScoped(g, key, s.datasetKeys, names, tables);
    AppendGrows(s, [], g);
    AppendGrows(s, DeleteDatasetRequests(g, s.datasetKeys), g);
    AppendGrows(s, DeleteRowsRequests(g, key, names), g);
    AppendGrows(s, PostRowsRequests(g, key, tables), g);
    AppendGrows(s, PutTableRequests(g, key, tables), g);
    assert s.(log := s.log + []) == s;
  }

  /** The requests postdataset sends after its own lookup lie under its scope. */
  lemma PostDatasetRequestsScoped(g: string, name: string, keys: seq<string>, tables: seq<(string, DataFrame)>,
                                  reCreate: bool)
    ensures var list := ListRequest(g);
      var deletes := if reCreate then [list] + DeleteDatasetRequests(g, keys) else [];
      AllScoped([list, list], g) && AllScoped([list, list] + deletes + [PostDatasetRequest(g, name, tables)], g)
  {
    var list := ListRequest(g);
    var post := PostDatasetRequest(g, name, tables);
    var deletes := if reCreate then [list] + DeleteDatasetRequests(g, keys) else [];
    RequestListsScoped(g, "", keys, [], []);
    ListRequestScoped(g);
    ScopedConcat([list], [list], g);
    assert [list] + [list] == [list, list];
    assert AllScoped([post], g) by {
      PathsUnderScope(g, "", "");
      RequestUnderScope(Post, g, DatasetsPath(g), Some(DatasetBody(name, tables)));
    }
    ScopedConcat([list], DeleteDatasetRequests(g, keys), g);
    assert AllScoped([], g);
    ScopedConcat([list, list], deletes, g);
    ScopedConcat([list, list] + deletes, [post], g);
  }

  /** A session whose log is that of `s` followed by scoped requests, with the same keys, has
      grown from `s`. */
  lemma GrowsBy(s: Session, s': Session, sent: seq<Request>, g: string)
    requires s'.log == s.log + sent && s'.datasetKeys == s.datasetKeys
    requires AllScoped(sent, g)
    ensures Grows(s, s', g)
  {
    assert s'.log[|s.log|..] == sent;
  }

  /** Moving the first listing of postdataset to the lookup's side of the log. */
  lemma RegroupLog(log: seq<Request>, list: Request, deletes: seq<Request>, post: Request)
    ensures log + [list, list, list] + deletes + [post] == (log + [list]) + ([list, list] + deletes + [post])
  {
    assert log + [list, list, list] == (log + [list]) + [list, list];
  }

  /** The session postdataset leaves when the name is taken has grown from the one its lookup
      leaves. */
  lemma PostDatasetConflictGrowth(s: Session, s': Session, g: string, keys: seq<string>)
    requires s'.datasetKeys == keys
    requires s'.log == s.log + [ListRequest(g), ListRequest(g), ListRequest(g)]
    ensures Grows(Session(s.log + [ListRequest(g)], keys, s.datasetKey), s', g)
  {
    var list := ListRequest(g);
    PostDatasetRequestsScoped(g, "", [], [], false);
    assert s'.log == (s.log + [list]) + [list, list];
    GrowsBy(Session(s.log + [list], keys, s.datasetKey), s', [list, list], g);
  }

  /** The session postdataset leaves when it creates the dataset has grown from the one its
      lookup leaves. */
  lemma PostDatasetCreateGrowth(s: Session, s': Session, g: string, name: string, keys: seq<string>,
                                tables: seq<(string, DataFrame)>, deletes: seq<Request>, reCreate: bool)
    requires deletes == if reCreate then [ListRequest(g)] + DeleteDatasetRequests(g, keys) else []
    requires s'.datasetKeys == keys
    requires s'.log == s.log + [ListRequest(g), ListRequest(g), ListRequest(g)] + deletes + [PostDatasetRequest(g, name, tables)]
    ensures Grows(Session(s.log + [ListRequest(g)], keys, s.datasetKey), s', g)
  {
    var list := ListRequest(g);
    var sent := [list, list] + deletes + [PostDatasetRequest(g, name, tables)];
    PostDatasetRequestsScoped(g, name, keys, tables, reCreate);
    RegroupLog(s.log, list, deletes, PostDatasetRequest(g, name, tables));
    GrowsBy(Session(s.log + [list], keys, s.datasetKey), s', sent, g);
  }

  /** The outcome of postdataset has grown from the session its lookup leaves. */
  lemma OutcomeGrows(server: Server, s: Session, c: Call)
    requires c.datasetName.Some? && c.tableNames.Some? && c.dataFrames.Some?
    requires LookupSucceeds(server, c)
    ensures Grows(AfterLookup(server, s, c), PostDatasetOutcome(server, s, c).0, GroupPrefix(c.groupId))
  {
    var g := GroupPrefix(c.groupId);
    var keys := LookupKeys(server, g, c.datasetName.value).value;
    var s' := PostDatasetOutcome(server, s, c).0;
    assert AfterLookup(server, s, c) == Session(s.log + [ListRequest(g)], keys, s.datasetKey);
    if !c.reCreateIfExists && keys != [] {
      PostDatasetConflictGrowth(s, s', g, keys);
    } else {
      var list := ListRequest(g);
      PostDatasetCreateGrowth(s, s', g, c.datasetName.value, keys,
                              Zip(c.tableNames.value, c.dataFrames.value),
                              if c.reCreateIfExists then [list] + DeleteDatasetRequests(g, keys) else [],
                              c.reCreateIfExists);
    }
  }

  /** The operations other than postdataset grow the session the lookup leaves and keep its
      `datasetKey`. */
  lemma OtherOperationsGrow(server: Server, s: Session, c: Call)
    requires LookupSucceeds(server, c)
    requires ToLower(c.operation) != "postdataset"
    ensures Grows(AfterLookup(server, s, c), Run(server, s, c).0, GroupPrefix(c.groupId))
    ensures Run(server, s, c).0.datasetKey == s.datasetKey
  {
    var op := ToLower(c.operation);
    if op in SingleRequestOperations {
      SingleRequestOperationsGrow(server, s, c);
    } else {
      LoopOperationsGrow(server, s, c);
    }
  }

  /** The operations that send at most one request of their own. */
  const SingleRequestOperations: set<string> :=
    {"deletedatasetbyid", "getdatasetbyid", "getdatasetbyname", "getdatasets", "gettables"}

  /** The operations that send at most one request of their own grow the session the lookup
      leaves and keep its `datasetKey`. */
  lemma SingleRequestOperationsGrow(server: Server, s: Session, c: Call)
    requires LookupSucceeds(server, c)
    requires ToLower(c.operation) in SingleRequestOperations
    ensures Grows(AfterLookup(server, s, c), Run(server, s, c).0, GroupPrefix(c.groupId))
    ensures Run(server, s, c).0.datasetKey == s.datasetKey
  {
    var g := GroupPrefix(c.groupId);
    var s1 := AfterLookup(server, s, c);
    assert Lookup(server, s, g, c.datasetName) == (s1, None);
    assert s1.datasetKey == s.datasetKey;
    SingleRequestBranchesGrow(server, s1, g, c);
  }

  /** The looping operations, and the unrecognised ones, grow the session the lookup leaves and
      keep its `datasetKey`. */
  lemma LoopOperationsGrow(server: Server, s: Session, c: Call)
    requires LookupSucceeds(server, c)
    requires ToLower(c.operation) != "postdataset" && ToLower(c.operation) !in SingleRequestOperations
    ensures Grows(AfterLookup(server, s, c), Run(server, s, c).0, GroupPrefix(c.groupId))
    ensures Run(server, s, c).0.datasetKey == s.datasetKey
  {
    var g := GroupPrefix(c.groupId);
    var s1 := AfterLookup(server, s, c);
    assert Lookup(server, s, g, c.datasetName) == (s1, None);
    assert s1.datasetKey == s.datasetKey;
    LoopBranchesGrow(server, s1, g, c);
    AppendGrows(s1, [], g);
    assert s1.(log := s1.log + []) == s1;
  }

  /** After a successful lookup, every operation grows the session the lookup leaves, and only
      postdataset sets `datasetKey`. */
  lemma RunGrows(server: Server, s: Session, c: Call)
    requires LookupSucceeds(server, c)
    ensures Grows(AfterLookup(server, s, c), Run(server, s, c).0, GroupPrefix(c.groupId))
    ensures ToLower(c.operation) != "postdataset" ==> Run(server, s, c).0.datasetKey == s.datasetKey
  {
    if ToLower(c.operation) != "postdataset" {
      OtherOperationsGrow(server, s, c);
    } else if c.datasetName.Some? && c.tableNames.Some? && c.dataFrames.Some? {
      PostDatasetEffect(server, s, c);
      OutcomeGrows(server, s, c);
    } else {
      var s1 := AfterLookup(server, s, c);
      AppendGrows(s1, [], GroupPrefix(c.groupId));
      assert s1.(log := s1.log + []) == s1;
    }
  }

  /** The log only grows: a call appends its lookup listing (when a name is given) first and then
      its own requests, all under the base URL and the call's workspace prefix ("" or
      "groups/<id>/"). */
  lemma LogExtends(server: Server, s: Session, c: Call)
    ensures var log' := Run(server, s, c).0.log;
      s.log + LookupRequests(c) <= log' &&
      AllScoped(log'[|s.log|..], GroupPrefix(c.groupId))
  {
    var g := GroupPrefix(c.groupId);
    var log' := Run(server, s, c).0.log;
    ListRequestScoped(g);
    if LookupSucceeds(server, c) {
      RunGrows(server, s, c);
      var s1 := AfterLookup(server, s, c);
      assert s1.log == s.log + LookupRequests(c);
      var sent := log'[|s1.log|..];
      assert log' == s1.log + sent;
      ScopedConcat(LookupRequests(c), sent, g);
      assert log'[|s.log|..] == LookupRequests(c) + sent;
    } else {
      assert log' == s.log + [ListRequest(g)];
      assert log'[|s.log|..] == [ListRequest(g)];
    }
  }

  /** Whenever a dataset name is given, the first request of the call is the listing of the
      datasets in its scope, whatever the operation. */
  lemma LookupComesFirst(server: Server, s: Session, c: Call)
    requires c.datasetName.Some?
    ensures |Run(server, s, c).0.log| > |s.log|
    ensures Run(server, s, c).0.log[|s.log|] == MakeRequest(Get, GroupPrefix(c.groupId) + "datasets", None)
  {
    LogExtends(server, s, c);
    var log' := Run(server, s, c).0.log;
    assert (s.log + LookupRequests(c))[|s.log|] == log'[|s.log|];
  }

  /** After any call `datasetKeys` holds the keys of exactly the listed datasets with the given
      name, in listing order (none when the listing fails); without a name it is left as it was. */
  lemma DatasetKeysFromLookup(server: Server, s: Session, c: Call)
    ensures Run(server, s, c).0.datasetKeys ==
      match c.datasetName
      case None => s.datasetKeys
      case Some(name) =>
        match LookupKeys(server, GroupPrefix(c.groupId), name)
        case None => []
        case Some(keys) => keys
  {
    if LookupSucceeds(server, c) {
      RunGrows(server, s, c);
    }
  }

  /** A recognised operation fails with the missing-parameter error exactly when one of its
      required parameters is absent, and then sends nothing after the lookup and changes nothing
      else. */
  lemma MissingParametersExactly(server: Server, s: Session, c: Call)
    requires ToLower(c.operation) in RequiredParameters
    requires LookupSucceeds(server, c)
    ensures Run(server, s, c).1 == Failure(MissingParameters(ToLower(c.operation))) <==>
            !RequiredGiven(ToLower(c.operation), c)
    ensures !RequiredGiven(ToLower(c.operation), c) ==>
            Run(server, s, c).0 == AfterLookup(server, s, c)
  {
    var op := ToLower(c.operation);
    if op == "postdataset" && RequiredGiven(op, c) {
      assert Given(c, DatasetNameParam) && Given(c, TableNamesParam) && Given(c, DataFramesParam);
      PostDatasetEffect(server, s, c);
    }
  }

  /** An unrecognised operation returns no result and sends nothing after the lookup. */
  lemma UnknownOperationIsNoOp(server: Server, s: Session, c: Call)
    requires ToLower(c.operation) !in RequiredParameters
    requires LookupSucceeds(server, c)
    ensures Run(server, s, c) == (AfterLookup(server, s, c), Success(NoResult))
    ensures Run(server, s, c).0.log == s.log + LookupRequests(c)
  {
  }

  /** deleterows sends one DELETE of the rows per table name, in order, and returns one response
      per table name, each the response to that table's DELETE. */
  lemma DeleteRowsOnePerTable(server: Server, s: Session, c: Call)
    requires ToLower(c.operation) == "deleterows" && c.datasetKey.Some? && c.tableNames.Some?
    requires LookupSucceeds(server, c)
    ensures var g := GroupPrefix(c.groupId);
      var (s', r) := Run(server, s, c);
      var tableNames := c.tableNames.value;
      s'.log == AfterLookup(server, s, c).log + DeleteRowsRequests(g, c.datasetKey.value, tableNames) &&
      r.Success? && r.value.Responses? && |r.value.responses| == |tableNames| &&
      forall i :: 0 <= i < |tableNames| ==>
        r.value.responses[i] == server(MakeRequest(Delete, RowsPath(g, c.datasetKey.value, tableNames[i]), None))
  {
  }

  /** After a successful lookup, postrows is its loop on the session the lookup leaves. */
  lemma RunPostRows(server: Server, s: Session, c: Call)
    requires ToLower(c.operation) == "postrows" && LookupSucceeds(server, c)
    ensures Run(server, s, c) == PostRows(server, AfterLookup(server, s, c), GroupPrefix(c.groupId), c)
  {
  }

  /** After a successful lookup, puttable is its loop on the session the lookup leaves. */
  lemma RunPutTable(server: Server, s: Session, c: Call)
    requires ToLower(c.operation) == "puttable" && LookupSucceeds(server, c)
    ensures Run(server, s, c) == PutTable(server, AfterLookup(server, s, c), GroupPrefix(c.groupId), c)
  {
  }

  /** postrows sends one POST of the rows per (table name, DataFrame) pair and returns as many
      responses as the shorter of the two lists has entries. */
  lemma PostRowsPerPair(server: Server, s: Session, c: Call)
    requires ToLower(c.operation) == "postrows"
    requires c.datasetKey.Some? && c.tableNames.Some? && c.dataFrames.Some?
    requires LookupSucceeds(server, c)
    ensures var g := GroupPrefix(c.groupId);
      var (s', r) := Run(server, s, c);
      var names, frames := c.tableNames.value, c.dataFrames.value;
      var n := if |names| <= |frames| then |names| else |frames|;
      r.Success? && r.value.Responses? && |r.value.responses| == n &&
      |s'.log| == |AfterLookup(server, s, c).log| + n &&
      forall i :: 0 <= i < n ==>
        var request := MakeRequest(Post, RowsPath(g, c.datasetKey.value, names[i]), Some(RowsBody(RowsJson(frames[i].rows))));
        s'.log[|AfterLookup(server, s, c).log| + i] == request && r.value.responses[i] == server(request)
  {
    RunPostRows(server, s, c);
    PostRowsLoop(server, AfterLookup(server, s, c), GroupPrefix(c.groupId), c);
  }

  /** The postrows branch on any session: one POST per pair, one response each. */
  lemma PostRowsLoop(server: Server, s1: Session, g: string, c: Call)
    requires c.datasetKey.Some? && c.tableNames.Some? && c.dataFrames.Some?
    ensures var (s', r) := PostRows(server, s1, g, c);
      var names, frames := c.tableNames.value, c.dataFrames.value;
      var n := if |names| <= |frames| then |names| else |frames|;
      r.Success? && r.value.Responses? && |r.value.responses| == n &&
      |s'.log| == |s1.log| + n &&
      forall i :: 0 <= i < n ==>
        var request := MakeRequest(Post, RowsPath(g, c.datasetKey.value, names[i]), Some(RowsBody(RowsJson(frames[i].rows))));
        s'.log[|s1.log| + i] == request && r.value.responses[i] == server(request)
  {
    var key, names, frames := c.datasetKey.value, c.tableNames.value, c.dataFrames.value;
    var tables := Zip(names, frames);
    var requests := PostRowsRequests(g, key, tables);
    var log' := s1.log + requests;
    assert PostRows(server, s1, g, c) == (s1.(log := log'), Success(Responses(Answers(server, requests))));
    forall i | 0 <= i < |tables|
      ensures log'[|s1.log| + i] == MakeRequest(Post, RowsPath(g, key, names[i]), Some(RowsBody(RowsJson(frames[i].rows)))) && Answers(server, requests)[i] == server(log'[|s1.log| + i])
    {
      assert tables[i] == (names[i], frames[i]);
      assert log'[|s1.log| + i] == requests[i] == PostRowsRequest(g, key, tables[i]);
    }
  }

  /** puttable sends one PUT of the column list per (table name, DataFrame) pair and returns as
      many responses as the shorter of the two lists has entries. */
  lemma PutTablePerPair(server: Server, s: Session, c: Call)
    requires ToLower(c.operation) == "puttable"
    requires c.datasetKey.Some? && c.tableNames.Some? && c.dataFrames.Some?
    requires LookupSucceeds(server, c)
    ensures var g := GroupPrefix(c.groupId);
      var (s', r) := Run(server, s, c);
      var names, frames := c.tableNames.value, c.dataFrames.value;
      var n := if |names| <= |frames| then |names| else |frames|;
      r.Success? && r.value.Responses? && |r.value.responses| == n &&
      |s'.log| == |AfterLookup(server, s, c).log| + n &&
      forall i :: 0 <= i < n ==>
        var request := PutTableRequest(g, c.datasetKey.value, (names[i], frames[i]));
        s'.log[|AfterLookup(server, s, c).log| + i] == request && r.value.responses[i] == server(request)
  {
    RunPutTable(server, s, c);
    PutTableLoop(server, AfterLookup(server, s, c), GroupPrefix(c.groupId), c);
  }

  /** The puttable branch on any session: one PUT per pair, one response each. */
  lemma PutTableLoop(server: Server, s1: Session, g: string, c: Call)
    requires c.datasetKey.Some? && c.tableNames.Some? && c.dataFrames.Some?
    ensures var (s', r) := PutTable(server, s1, g, c);
      var names, frames := c.tableNames.value, c.dataFrames.value;
      var n := if |names| <= |frames| then |names| else |frames|;
      r.Success? && r.value.Responses? && |r.value.responses| == n &&
      |s'.log| == |s1.log| + n &&
      forall i :: 0 <= i < n ==>
        var request := PutTableRequest(g, c.datasetKey.value, (names[i], frames[i]));
        s'.log[|s1.log| + i] == request && r.value.responses[i] == server(request)
  {
    var key, names, frames := c.datasetKey.value, c.tableNames.value, c.dataFrames.value;
    var tables := Zip(names, frames);
    var requests := PutTableRequests(g, key, tables);
    var log' := s1.log + requests;
    assert PutTable(server, s1, g, c) == (s1.(log := log'), Success(Responses(Answers(server, requests))));
    forall i | 0 <= i < |tables|
      ensures log'[|s1.log| + i] == PutTableRequest(g, key, (names[i], frames[i]))
      ensures Answers(server, requests)[i] == server(log'[|s1.log| + i])
    {
      assert tables[i] == (names[i], frames[i]);
    }
  }
}
