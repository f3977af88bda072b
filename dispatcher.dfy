/** The operation dispatcher (notebooks/pbiDatasetAPI.py, executePBIOperation) as a function of
    the service, the client's session state before the call and the call's arguments. `Run`
    gives the session state afterwards and the value returned or the error raised; the class
    in module Api implements it with loops and fields, and module DispatcherProperties proves
    what the dispatcher guarantees. */
module Dispatcher {
  import opened Wrappers
  import opened Text
  import opened Payload
  import opened Transport

  /** The arguments of one call; `None` is an argument that was not given. */
  datatype Call = Call(
    operation: string,
    groupId: Option<string>,
    datasetKey: Option<string>,
    datasetName: Option<string>,
    tableNames: Option<seq<string>>,
    dataFrames: Option<seq<DataFrame>>,
    reCreateIfExists: bool)

  /** What an operation returns. */
  datatype Outcome =
    | Raw(response: Response)               // the response of a single request
    | Responses(responses: seq<Response>)   // one response per table, in order
    | Matches(datasets: seq<Dataset>)       // the listed datasets with the requested name
    | NotFound(message: string)             // deletedatasetbyname found nothing to delete
    | NoResult                              // an unrecognised operation

  /** The client's state: every request sent so far, and the fields `datasetKeys` (the keys
      found by the last name lookup) and `datasetKey` (the key of the last dataset created). */
  datatype Session = Session(log: seq<Request>, datasetKeys: seq<string>, datasetKey: seq<string>)

  /** The parameters an operation may require. */
  datatype Parameter = DatasetKeyParam | DatasetNameParam | TableNamesParam | DataFramesParam

  /** The recognised operations, each with the parameters it requires. */
  const RequiredParameters: map<string, set<Parameter>> := map[
    "deletedatasetbyid" := {DatasetKeyParam},
    "deletedatasetbyname" := {DatasetNameParam},
    "getdatasetbyid" := {DatasetKeyParam},
    "getdatasetbyname" := {DatasetNameParam},
    "getdatasets" := {},
    "deleterows" := {DatasetKeyParam, TableNamesParam},
    "gettables" := {DatasetKeyParam},
    "postdataset" := {DatasetNameParam, TableNamesParam, DataFramesParam},
    "postrows" := {DatasetKeyParam, TableNamesParam, DataFramesParam},
    "puttable" := {DatasetKeyParam, TableNamesParam, DataFramesParam}
  ]

  /** The call has a value for the parameter. */
  predicate Given(c: Call, p: Parameter)
  {
    match p
    case DatasetKeyParam => c.datasetKey.Some?
    case DatasetNameParam => c.datasetName.Some?
    case TableNamesParam => c.tableNames.Some?
    case DataFramesParam => c.dataFrames.Some?
  }

  /** Every parameter the recognised operation `op` requires is given. */
  predicate RequiredGiven(op: string, c: Call)
    requires op in RequiredParameters
  {
    forall p :: p in RequiredParameters[op] ==> Given(c, p)
  }

  /** The path segment that scopes every endpoint to a workspace, if one is given. */
  function GroupPrefix(groupId: Option<string>): string
  {
    match groupId
    case None => ""
    case Some(id) => "groups/" + id + "/"
  }

  /** The endpoints, relative to the base URL, under the scope `g`. */
  function DatasetsPath(g: string): string { g + "datasets" }
  function DatasetPath(g: string, key: string): string { g + "datasets/" + key }
  function TablesPath(g: string, key: string): string { g + "datasets/" + key + "/tables" }
  function TablePath(g: string, key: string, table: string): string { g + "datasets/" + key + "/tables/" + table }
  function RowsPath(g: string, key: string, table: string): string { g + "datasets/" + key + "/tables/" + table + "/rows" }

  /** The listing request every name lookup sends. */
  function ListRequest(g: string): Request
  {
    MakeRequest(Get, DatasetsPath(g), None)
  }

  /** `[obj for obj in listing if obj["name"] == name]`. */
  function Named(listing: seq<Dataset>, name: string): seq<Dataset>
  {
    if listing == [] then []
    else (if listing[0].name == name then [listing[0]] else []) + Named(listing[1..], name)
  }

  /** The keys of the datasets, in order. */
  function Ids(datasets: seq<Dataset>): (r: seq<string>)
    ensures |r| == |datasets|
    ensures forall i :: 0 <= i < |datasets| ==> r[i] == datasets[i].id
  {
    seq(|datasets|, i requires 0 <= i < |datasets| => datasets[i].id)
  }

  /** What a name lookup finds: the keys of the listed datasets with that name, or `None` when
      the listing response has no `value`. */
  function LookupKeys(server: Server, g: string, name: string): Option<seq<string>>
  {
    match server(ListRequest(g)).value
    case None => None
    case Some(listing) => Some(Ids(Named(listing, name)))
  }

  /** The requests the name lookup sends: one listing when a name is given. */
  function LookupRequests(c: Call): seq<Request>
  {
    if c.datasetName.Some? then [ListRequest(GroupPrefix(c.groupId))] else []
  }

  /** The name lookup every call starts with when a dataset name is given. `datasetKeys` is
      emptied before the listing is requested, so it stays empty when the listing fails. */
  function Lookup(server: Server, s: Session, g: string, name: Option<string>): (Session, Option<Error>)
  {
    match name
    case None => (s, None)
    case Some(n) =>
      var (log', response) := Issue(server, s.log, Get, DatasetsPath(g), None);
      match response.value
      case None => (Session(log', [], s.datasetKey), Some(MissingKey("value")))
      case Some(listing) => (Session(log', Ids(Named(listing, n)), s.datasetKey), None)
  }

  /** The server's responses to the requests, in order. */
  function Answers(server: Server, requests: seq<Request>): (r: seq<Response>)
    ensures |r| == |requests|
    ensures forall i :: 0 <= i < |requests| ==> r[i] == server(requests[i])
  {
    seq(|requests|, i requires 0 <= i < |requests| => server(requests[i]))
  }

  /** One DELETE of a dataset per key, in order. */
  function DeleteDatasetRequests(g: string, keys: seq<string>): (r: seq<Request>)
    ensures |r| == |keys|
    ensures forall i :: 0 <= i < |keys| ==> r[i] == MakeRequest(Delete, DatasetPath(g, keys[i]), None)
  {
    seq(|keys|, i requires 0 <= i < |keys| => MakeRequest(Delete, DatasetPath(g, keys[i]), None))
  }

  /** One DELETE of all rows per table, in order. */
  function DeleteRowsRequests(g: string, key: string, tableNames: seq<string>): (r: seq<Request>)
    ensures |r| == |tableNames|
    ensures forall i :: 0 <= i < |tableNames| ==> r[i] == MakeRequest(Delete, RowsPath(g, key, tableNames[i]), None)
  {
    seq(|tableNames|, i requires 0 <= i < |tableNames| => MakeRequest(Delete, RowsPath(g, key, tableNames[i]), None))
  }

  /** The row insertion of one table. */
  function PostRowsRequest(g: string, key: string, table: (string, DataFrame)): Request
  {
    MakeRequest(Post, RowsPath(g, key, table.0), Some(RowsBody(RowsJson(table.1.rows))))
  }

  /** One row insertion per (table name, DataFrame) pair, in order. */
  function PostRowsRequests(g: string, key: string, tables: seq<(string, DataFrame)>): (r: seq<Request>)
    ensures |r| == |tables|
    ensures forall i :: 0 <= i < |tables| ==> r[i] == PostRowsRequest(g, key, tables[i])
  {
    seq(|tables|, i requires 0 <= i < |tables| => PostRowsRequest(g, key, tables[i]))
  }

  /** The schema replacement of one table. */
  function PutTableRequest(g: string, key: string, table: (string, DataFrame)): Request
  {
    MakeRequest(Put, TablePath(g, key, table.0), Some(TableBody(table.0, ColumnsJson(table.1.schema))))
  }

  /** One schema replacement per (table name, DataFrame) pair, in order. */
  function PutTableRequests(g: string, key: string, tables: seq<(string, DataFrame)>): (r: seq<Request>)
    ensures |r| == |tables|
    ensures forall i :: 0 <= i < |tables| ==> r[i] == PutTableRequest(g, key, tables[i])
  {
    seq(|tables|, i requires 0 <= i < |tables| => PutTableRequest(g, key, tables[i]))
  }

  /** The creation request of postdataset. */
  function PostDatasetRequest(g: string, datasetName: string, tables: seq<(string, DataFrame)>): Request
  {
    MakeRequest(Post, DatasetsPath(g), Some(DatasetBody(datasetName, tables)))
  }

  /** The sentinel deletedatasetbyname returns when no dataset has the name. */
  function NotFoundMessage(datasetName: string): string
  {
    "Dataset '" + datasetName + "' not found. No operation performed."
  }

  /** The call postdataset makes of the dispatcher itself for a by-name operation. */
  function ByName(operation: string, groupId: Option<string>, datasetName: string): Call
  {
    Call(operation, groupId, None, Some(datasetName), None, None, false)
  }

  /** Only postdataset calls the dispatcher again, and only for other operations. */
  function Rank(operation: string): nat
  {
    if ToLower(operation) == "postdataset" then 1 else 0
  }

  /** executePBIOperation: lower-case the operation, build the scope, run the name lookup when
      a name is given, then dispatch; an unrecognised operation returns `None`. */
  function Run(server: Server, s: Session, c: Call): (r: (Session, Result<Outcome, Error>))
    ensures ToLower(c.operation) == "getdatasetbyname" && r.1.Success? ==> r.1.value.Matches?
    decreases Rank(c.operation), 1
  {
    var op := ToLower(c.operation);
    var g := GroupPrefix(c.groupId);
    var (s1, failed) := Lookup(server, s, g, c.datasetName);
    if failed.Some? then (s1, Failure(failed.value))
    else if op == "deletedatasetbyid" then DeleteDatasetById(server, s1, g, c)
    else if op == "deletedatasetbyname" then DeleteDatasetByName(server, s1, g, c)
    else if op == "getdatasetbyid" then GetDatasetById(server, s1, g, c)
    else if op == "getdatasetbyname" then GetDatasetByName(server, s1, g, c)
    else if op == "getdatasets" then GetDatasets(server, s1, g)
    else if op == "deleterows" then DeleteRows(server, s1, g, c)
    else if op == "gettables" then GetTables(server, s1, g, c)
    else if op == "postdataset" then PostDataset(server, s1, g, c)
    else if op == "postrows" then PostRows(server, s1, g, c)
    else if op == "puttable" then PutTable(server, s1, g, c)
    else (s1, Success(NoResult))
  }

  /** deletedatasetbyid: one DELETE of the dataset. */
  function DeleteDatasetById(server: Server, s: Session, g: string, c: Call): (Session, Result<Outcome, Error>)
  {
    if c.datasetKey.None? then (s, Failure(MissingParameters("deletedatasetbyid")))
    else
      var (log', response) := Issue(server, s.log, Delete, DatasetPath(g, c.datasetKey.value), None);
      (s.(log := log'), Success(Raw(response)))
  }

  /** deletedatasetbyname: one DELETE per key the lookup found; the sentinel when there is none,
      otherwise the response of the last DELETE. */
  function DeleteDatasetByName(server: Server, s: Session, g: string, c: Call): (Session, Result<Outcome, Error>)
  {
    if c.datasetName.None? then (s, Failure(MissingParameters("deletedatasetbyname")))
    else
      var requests := DeleteDatasetRequests(g, s.datasetKeys);
      var s' := s.(log := s.log + requests);
      if requests == [] then (s', Success(NotFound(NotFoundMessage(c.datasetName.value))))
      else (s', Success(Raw(server(requests[|requests| - 1]))))
  }

  /** getdatasetbyid: one GET of the dataset. */
  function GetDatasetById(server: Server, s: Session, g: string, c: Call): (Session, Result<Outcome, Error>)
  {
    if c.datasetKey.None? then (s, Failure(MissingParameters("getdatasetbyid")))
    else
      var (log', response) := Issue(server, s.log, Get, DatasetPath(g, c.datasetKey.value), None);
      (s.(log := log'), Success(Raw(response)))
  }

  /** getdatasetbyname: one GET of the listing, filtered by name. */
  function GetDatasetByName(server: Server, s: Session, g: string, c: Call): (r: (Session, Result<Outcome, Error>))
    ensures r.1.Success? ==> r.1.value.Matches?
  {
    if c.datasetName.None? then (s, Failure(MissingParameters("getdatasetbyname")))
    else
      var (log', response) := Issue(server, s.log, Get, DatasetsPath(g), None);
      match response.value
      case None => (s.(log := log'), Failure(MissingKey("value")))
      case Some(listing) => (s.(log := log'), Success(Matches(Named(listing, c.datasetName.value))))
  }

  /** getdatasets: one GET of the listing. */
  function GetDatasets(server: Server, s: Session, g: string): (Session, Result<Outcome, Error>)
  {
    var (log', response) := Issue(server, s.log, Get, DatasetsPath(g), None);
    (s.(log := log'), Success(Raw(response)))
  }

  /** deleterows: one DELETE of the rows per table name, one response each. */
  function DeleteRows(server: Server, s: Session, g: string, c: Call): (Session, Result<Outcome, Error>)
  {
    if c.datasetKey.None? || c.tableNames.None? then (s, Failure(MissingParameters("deleterows")))
    else
      var requests := DeleteRowsRequests(g, c.datasetKey.value, c.tableNames.value);
      (s.(log := s.log + requests), Success(Responses(Answers(server, requests))))
  }

  /** gettables: one GET of the table list. */
  function GetTables(server: Server, s: Session, g: string, c: Call): (Session, Result<Outcome, Error>)
  {
    if c.datasetKey.None? then (s, Failure(MissingParameters("gettables")))
    else
      var (log', response) := Issue(server, s.log, Get, TablesPath(g, c.datasetKey.value), None);
      (s.(log := log'), Success(Raw(response)))
  }

  /** postdataset: look the name up through getdatasetbyname; refuse when it is taken and
      re-creation is off, delete the namesakes through deletedatasetbyname when it is on; then
      POST the creation body and keep the new key. */
  function PostDataset(server: Server, s: Session, g: string, c: Call): (Session, Result<Outcome, Error>)
    decreases 1, 0
  {
    if c.datasetName.None? || c.tableNames.None? || c.dataFrames.None? then
      (s, Failure(MissingParameters("postdataset")))
    else
      var name := c.datasetName.value;
      assert ToLower("getdatasetbyname") == "getdatasetbyname";
      var (s2, found) := Run(server, s, ByName("getdatasetbyname", c.groupId, name));
      if found.Failure? then (s2, found)
      else if !c.reCreateIfExists && |found.value.datasets| != 0 then (s2, Failure(DatasetExists(name)))
      else
        var (s3, deleted) :=
          if c.reCreateIfExists then Run(server, s2, ByName("deletedatasetbyname", c.groupId, name))
          else (s2, Success(NoResult));
        if deleted.Failure? then (s3, deleted)
        else CreateDataset(server, s3, g, name, Zip(c.tableNames.value, c.dataFrames.value))
  }

  /** The last step of postdataset: POST the creation body and keep the key of the response. */
  function CreateDataset(server: Server, s: Session, g: string, datasetName: string, tables: seq<(string, DataFrame)>)
    : (Session, Result<Outcome, Error>)
  {
    SendCreation(server, s, g, DatasetBody(datasetName, tables))
  }

  /** POST a creation body to the datasets endpoint and keep the key of the response. */
  function SendCreation(server: Server, s: Session, g: string, body: string): (Session, Result<Outcome, Error>)
  {
    var (log', response) := Issue(server, s.log, Post, DatasetsPath(g), Some(body));
    match response.id
    case None => (s.(log := log'), Failure(MissingKey("id")))
    case Some(id) => (Session(log', s.datasetKeys, [id]), Success(Raw(response)))
  }

  /** postrows: one row insertion per (table name, DataFrame) pair, one response each. */
  function PostRows(server: Server, s: Session, g: string, c: Call): (Session, Result<Outcome, Error>)
  {
    if c.datasetKey.None? || c.tableNames.None? || c.dataFrames.None? then
      (s, Failure(MissingParameters("postrows")))
    else
      var requests := PostRowsRequests(g, c.datasetKey.value, Zip(c.tableNames.value, c.dataFrames.value));
      (s.(log := s.log + requests), Success(Responses(Answers(server, requests))))
  }

  /** puttable: one schema replacement per (table name, DataFrame) pair, one response each. */
  function PutTable(server: Server, s: Session, g: string, c: Call): (Session, Result<Outcome, Error>)
  {
    if c.datasetKey.None? || c.tableNames.None? || c.dataFrames.None? then
      (s, Failure(MissingParameters("puttable")))
    else
      var requests := PutTableRequests(g, c.datasetKey.value, Zip(c.tableNames.value, c.dataFrames.value));
      (s.(log := s.log + requests), Success(Responses(Answers(server, requests))))
  }
}
