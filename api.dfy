/** The client object (notebooks/pbiDatasetAPI.py, class pbiDatasetAPI): the fields the
    dispatcher updates, the transport, and the dispatcher itself with its loops. Each method is
    proved to compute exactly what its function in module Dispatcher or Transport specifies. */
module Api {
  import opened Wrappers
  import opened Text
  import opened Payload
  import opened Transport
  import opened Dispatcher

  class PbiDatasetApi {
    /** The service the client talks to. */
    const server: Server
    /** Every request sent, in order. */
    var log: seq<Request>
    /** The keys of the datasets found by the last name lookup. */
    var datasetKeys: seq<string>
    /** The key of the last dataset created, as a one-element list. */
    var datasetKey: seq<string>

    /** A client that has sent nothing yet. */
    constructor (server: Server)
      ensures this.server == server
      ensures State() == Session([], [], [])
    {
      this.server := server;
      log, datasetKeys, datasetKey := [], [], [];
    }

    /** The client's state as the dispatcher's specification sees it. */
    function State(): Session
      reads this
    {
      Session(log, datasetKeys, datasetKey)
    }

    /** executePBIRequest: refuse any method but get, post, put and delete (in any case),
        otherwise send one request to the base URL plus the endpoint; DELETE sends no body. */
    method ExecuteRequest(endpoint: string, body: Option<string>, methodName: string)
      returns (response: Result<Response, Error>)
      modifies this`log
      ensures (log, response) == Send(server, old(log), endpoint, body, methodName)
    {
      var m := ToLower(methodName);
      if m !in {"get", "post", "put", "delete"} {
        return Failure(InvalidMethod(m));
      }
      var apiEndpoint := BaseUrl + endpoint;
      var request: Request;
      if m == "get" {
        if body == None {
          request := Request(Get, apiEndpoint, None);
        } else {
          request := Request(Get, apiEndpoint, body);
        }
      } else if m == "post" {
        if body == None {
          request := Request(Post, apiEndpoint, None);
        } else {
          request := Request(Post, apiEndpoint, body);
        }
      } else if m == "put" {
        request := Request(Put, apiEndpoint, body);
      } else {
        request := Request(Delete, apiEndpoint, None);
      }
      log := log + [request];
      response := Success(server(request));
    }

    /** The name lookup: empty `datasetKeys`, list the datasets, and append the key of each one
        with the name. */
    method LookUpName(groupPrefix: string, datasetName: string) returns (failed: Option<Error>)
      modifies this`log, this`datasetKeys
      ensures (State(), failed) == Lookup(server, old(State()), groupPrefix, Some(datasetName))
    {
      DispatcherMethodNames();
      ghost var before := State();
      datasetKeys := [];
      var operationUrl := groupPrefix + "datasets";
      var allKeys := ExecuteRequest(operationUrl, None, "get");
      ghost var request := ListRequest(groupPrefix);
      ghost var listed := before.log + [request];
      assert log == listed && allKeys == Success(server(request));
      var listing := allKeys.value.value;
      if listing.None? {
        assert State() == Session(listed, [], before.datasetKey);
        return Some(MissingKey("value"));
      }
      var matches := Named(listing.value, datasetName);
      AppendKeys(matches);
      assert State() == Session(listed, Ids(matches), before.datasetKey);
      failed := None;
    }

    /** Append the key of each dataset to `datasetKeys`, in order. */
    method AppendKeys(matches: seq<Dataset>)
      modifies this`datasetKeys
      ensures datasetKeys == old(datasetKeys) + Ids(matches)
    {
      for i := 0 to |matches|
        invariant datasetKeys == old(datasetKeys) + Ids(matches[..i])
      {
        datasetKeys := datasetKeys + [matches[i].id];
        assert Ids(matches[..i + 1]) == Ids(matches[..i]) + [matches[i].id];
      }
      assert matches[..|matches|] == matches;
    }

    /** deletedatasetbyname: the sentinel, then one DELETE per key found, each response
        replacing the last. */
    method ExecuteDeleteDatasetByName(groupPrefix: string, c: Call) returns (result: Result<Outcome, Error>)
      modifies this`log
      ensures (State(), result) == DeleteDatasetByName(server, old(State()), groupPrefix, c)
    {
      if c.datasetName.None? {
        return Failure(MissingParameters("deletedatasetbyname"));
      }
      ghost var requests := DeleteDatasetRequests(groupPrefix, datasetKeys);
      var requestResult := NotFound(NotFoundMessage(c.datasetName.value));
      for i := 0 to |datasetKeys|
        invariant log == old(log) + requests[..i]
        invariant requestResult == if i == 0 then NotFound(NotFoundMessage(c.datasetName.value))
                                   else Raw(server(requests[i - 1]))
      {
        var operationUrl := groupPrefix + "datasets/" + datasetKeys[i];
        var sent := ExecuteRequest(operationUrl, None, "delete");
        requestResult := Raw(sent.value);
        assert requests[..i + 1] == requests[..i] + [requests[i]];
      }
      assert requests[..|datasetKeys|] == requests;
      result := Success(requestResult);
    }

    /** deleterows: one DELETE of the rows per table name, collecting the responses. */
    method ExecuteDeleteRows(groupPrefix: string, c: Call) returns (result: Result<Outcome, Error>)
      modifies this`log
      ensures (State(), result) == DeleteRows(server, old(State()), groupPrefix, c)
    {
      if c.datasetKey.None? || c.tableNames.None? {
        return Failure(MissingParameters("deleterows"));
      }
      var datasetKey, tableNames := c.datasetKey.value, c.tableNames.value;
      ghost var requests := DeleteRowsRequests(groupPrefix, datasetKey, tableNames);
      var requestResult: seq<Response> := [];
      for i := 0 to |tableNames|
        invariant log == old(log) + requests[..i]
        invariant requestResult == Answers(server, requests[..i])
      {
        var operationUrl := groupPrefix + "datasets/" + datasetKey + "/tables/" + tableNames[i] + "/rows";
        var sent := ExecuteRequest(operationUrl, None, "delete");
        requestResult := requestResult + [sent.value];
        assert requests[..i + 1] == requests[..i] + [requests[i]];
      }
      assert requests[..|tableNames|] == requests;
      result := Success(Responses(requestResult));
    }

    /** postrows: for each (table name, DataFrame) pair, POST its rows, collecting the responses. */
    method ExecutePostRows(groupPrefix: string, c: Call) returns (result: Result<Outcome, Error>)
      modifies this`log
      ensures (State(), result) == PostRows(server, old(State()), groupPrefix, c)
    {
      if c.datasetKey.None? || c.tableNames.None? || c.dataFrames.None? {
        return Failure(MissingParameters("postrows"));
      }
      var datasetKey := c.datasetKey.value;
      var tables := Zip(c.tableNames.value, c.dataFrames.value);
      ghost var requests := PostRowsRequests(groupPrefix, datasetKey, tables);
      var requestResult: seq<Response> := [];
      for i := 0 to |tables|
        invariant log == old(log) + requests[..i]
        invariant requestResult == Answers(server, requests[..i])
      {
        var (tableName, dataFrame) := tables[i];
        var operationUrl := groupPrefix + "datasets/" + datasetKey + "/tables/" + tableName + "/rows";
        var rows := TableRows(dataFrame.rows);
        var body := RowsBody(rows);
        var sent := ExecuteRequest(operationUrl, Some(body), "post");
        requestResult := requestResult + [sent.value];
        assert requests[..i + 1] == requests[..i] + [requests[i]];
      }
      assert requests[..|tables|] == requests;
      result := Success(Responses(requestResult));
    }

    /** puttable: for each (table name, DataFrame) pair, PUT its column list, collecting the
        responses. */
    method ExecutePutTable(groupPrefix: string, c: Call) returns (result: Result<Outcome, Error>)
      modifies this`log
      ensures (State(), result) == PutTable(server, old(State()), groupPrefix, c)
    {
      if c.datasetKey.None? || c.tableNames.None? || c.dataFrames.None? {
        return Failure(MissingParameters("puttable"));
      }
      var datasetKey := c.datasetKey.value;
      var tables := Zip(c.tableNames.value, c.dataFrames.value);
      ghost var requests := PutTableRequests(groupPrefix, datasetKey, tables);
      var requestResult: seq<Response> := [];
      for i := 0 to |tables|
        invariant log == old(log) + requests[..i]
        invariant requestResult == Answers(server, requests[..i])
      {
        var (tableName, dataFrame) := tables[i];
        var operationUrl := groupPrefix + "datasets/" + datasetKey + "/tables/" + tableName;
        var columns := TableColumns(dataFrame.schema);
        var body := TableBody(tableName, columns);
        DispatcherMethodNames();
        var sent := ExecuteRequest(operationUrl, Some(body), "put");
        requestResult := requestResult + [sent.value];
        assert requests[..i + 1] == requests[..i] + [requests[i]];
      }
      assert requests[..|tables|] == requests;
      result := Success(Responses(requestResult));
    }

    /** postdataset: getdatasetbyname through the dispatcher; refuse a taken name unless
        re-creating, in which case deletedatasetbyname goes through the dispatcher too; then POST
        the creation body and keep the new key in `datasetKey`. */
    method ExecutePostDataset(groupPrefix: string, c: Call) returns (result: Result<Outcome, Error>)
      modifies this
      ensures (State(), result) == PostDataset(server, old(State()), groupPrefix, c)
      decreases 1, 0
    {
      if c.datasetName.None? || c.tableNames.None? || c.dataFrames.None? {
        return Failure(MissingParameters("postdataset"));
      }
      var datasetName := c.datasetName.value;
      var datasets := ExecuteOperation(ByName("getdatasetbyname", c.groupId, datasetName));
      if datasets.Failure? {
        return datasets;
      }
      if !c.reCreateIfExists {
        if |datasets.value.datasets| != 0 {
          return Failure(DatasetExists(datasetName));
        }
      } else {
        var deleted := ExecuteOperation(ByName("deletedatasetbyname", c.groupId, datasetName));
        if deleted.Failure? {
          return deleted;
        }
      }
      result := ExecuteCreateDataset(groupPrefix, datasetName, Zip(c.tableNames.value, c.dataFrames.value));
    }

    /** The creation step of postdataset: build the body, then POST it and keep the new key. */
    method ExecuteCreateDataset(groupPrefix: string, datasetName: string, tables: seq<(string, DataFrame)>)
      returns (result: Result<Outcome, Error>)
      modifies this`log, this`datasetKey
      ensures (State(), result) == CreateDataset(server, old(State()), groupPrefix, datasetName, tables)
    {
      var body := BuildDatasetBody(datasetName, tables);
      result := ExecuteSendCreation(groupPrefix, body);
    }

    /** POST the creation body and keep the key of the response in `datasetKey`. */
    method ExecuteSendCreation(groupPrefix: string, body: string) returns (result: Result<Outcome, Error>)
      modifies this`log, this`datasetKey
      ensures (State(), result) == SendCreation(server, old(State()), groupPrefix, body)
    {
      DispatcherMethodNames();
      ghost var before := State();
      var operationUrl := groupPrefix + "datasets";
      var sent := ExecuteRequest(operationUrl, Some(body), "post");
      ghost var request := MakeRequest(Post, operationUrl, Some(body));
      ghost var log' := before.log + [request];
      assert log == log' && sent == Success(server(request));
      var response := sent.value;
      if response.id.None? {
        assert State() == before.(log := log');
        return Failure(MissingKey("id"));
      }
      datasetKey := [response.id.value];
      assert State() == Session(log', before.datasetKeys, [response.id.value]);
      result := Success(Raw(response));
    }

    /** executePBIOperation: the operation name is read in lower case; a given dataset name is
        looked up first, whatever the operation; an unrecognised operation returns no result. */
    method ExecuteOperation(c: Call) returns (result: Result<Outcome, Error>)
      modifies this
      ensures (State(), result) == Run(server, old(State()), c)
      decreases Rank(c.operation), 1
    {
      var operation := ToLower(c.operation);
      var groupPrefix := GroupPrefix(c.groupId);
      if c.datasetName.Some? {
        var failed := LookUpName(groupPrefix, c.datasetName.value);
        if failed.Some? {
          return Failure(failed.value);
        }
      }
      if operation == "deletedatasetbyid" {
        if c.datasetKey.None? {
          return Failure(MissingParameters(operation));
        }
        var sent := ExecuteRequest(groupPrefix + "datasets/" + c.datasetKey.value, None, "delete");
        result := Success(Raw(sent.value));
      } else if operation == "deletedatasetbyname" {
        result := ExecuteDeleteDatasetByName(groupPrefix, c);
      } else if operation == "getdatasetbyid" {
        if c.datasetKey.None? {
          return Failure(MissingParameters(operation));
        }
        var sent := ExecuteRequest(groupPrefix + "datasets/" + c.datasetKey.value, None, "get");
        result := Success(Raw(sent.value));
      } else if operation == "getdatasetbyname" {
        if c.datasetName.None? {
          return Failure(MissingParameters(operation));
        }
        var sent := ExecuteRequest(groupPrefix + "datasets", None, "get");
        var listing := sent.value.value;
        if listing.None? {
          return Failure(MissingKey("value"));
        }
        result := Success(Matches(Named(listing.value, c.datasetName.value)));
      } else if operation == "getdatasets" {
        var sent := ExecuteRequest(groupPrefix + "datasets", None, "get");
        result := Success(Raw(sent.value));
      } else if operation == "deleterows" {
        result := ExecuteDeleteRows(groupPrefix, c);
      } else if operation == "gettables" {
        if c.datasetKey.None? {
          return Failure(MissingParameters(operation));
        }
        var sent := ExecuteRequest(groupPrefix + "datasets/" + c.datasetKey.value + "/tables", None, "get");
        result := Success(Raw(sent.value));
      } else if operation == "postdataset" {
        result := ExecutePostDataset(groupPrefix, c);
      } else if operation == "postrows" {
        result := ExecutePostRows(groupPrefix, c);
      } else if operation == "puttable" {
        result := ExecutePutTable(groupPrefix, c);
      } else {
        result := Success(NoResult);
      }
    }
  }
}
