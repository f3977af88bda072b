# pbiDatasetAPI in Dafny

This project models the Power BI push-dataset client in `notebooks/pbiDatasetAPI.py` (class
`pbiDatasetAPI`). It covers five parts of the client:

- the Spark-to-Entity-Data-Model type mapper;
- the JSON fragment builders for column lists, row lists and creation bodies;
- the REST transport that checks the HTTP method and prefixes the base URL;
- the operation dispatcher `executePBIOperation`;
- the two fields, `datasetKeys` and `datasetKey`, that the dispatcher updates.

The remote service is a parameter: a function from the request sent to the response received.
Every request the client sends is appended to a log, so properties about "what is sent, in
which order, to which URL" are properties of that log.

Modules:

- `Wrappers`: `Option` and `Result`.
- `Text`:
  - ASCII lower-casing;
  - Python's `s[:k]`, `s[k:]` and `s[:-k]`;
  - the "append a separator after each item, then cut the last three characters" idiom, related to a plain `Join`.
- `DataTypes`: `getPBIDataType` as `PbiDataType`. The source's tests are held as an ordered chain of rules, and the first rule a name passes gives its answer. Lemmas prove the chain equal to the source's `if`/`elif` chain and to a table-based reference definition.
- `Payload`:
  - `getPBITableColumns` and `getPBITableRows` as loop methods proved equal to `Join`-based functions;
  - the postrows, puttable and postdataset bodies;
  - the postdataset body as a loop method.
- `Transport`: `executePBIRequest` as the function `Send`.
- `Dispatcher`: `executePBIOperation` as the function `Run`, one function per operation. postdataset calls `Run` recursively for getdatasetbyname and deletedatasetbyname, as the source calls itself.
- `DispatcherProperties`: what `Run` guarantees. This covers:
  - the name lookup;
  - URL scoping;
  - the parameter checks;
  - the per-table loops;
  - the postdataset protocol.
- `Api`: class `PbiDatasetApi`, with fields `log`, `datasetKeys` and `datasetKey`.
  - Its methods follow the source's control flow and loops.
  - Each one is proved to leave exactly the state, and return exactly the result, of its specification function.
  - So every lemma in `DispatcherProperties` holds for `ExecuteOperation`.

Failures: a Python `assert`, or a `KeyError` on a response, raises an exception. The model returns a `Failure` instead:

- `InvalidMethod`;
- `MissingParameters`;
- `DatasetExists`;
- `MissingKey("value")` or `MissingKey("id")`.

The log and fields keep whatever was changed before the raise, as in Python.

## Model

| member | source | states |
|---|---|---|
| Text.LowerIsLower | notebooks/pbiDatasetAPI.py:73 | lower-casing leaves no upper-case letter and is idempotent |
| Text.DropLast | notebooks/pbiDatasetAPI.py:112 | `s[:-k]` keeps all but the last k characters, and gives "" when the string is shorter than k |
| Text.Take | notebooks/pbiDatasetAPI.py:86 | `s[:7]` is a prefix of s, of length min(\|s\|, 7) |
| Text.Drop | notebooks/pbiDatasetAPI.py:87 | `s[:7] + s[7:]` is s |
| Text.TerminatedIsJoinPlusSep | notebooks/pbiDatasetAPI.py:105-111 | the text accumulated by appending each item followed by the separator is the joined items plus one trailing separator |
| Text.TrimmedIsJoin | notebooks/pbiDatasetAPI.py:112 | cutting the last three characters off the accumulated text gives the items joined by the separator, and "" for no items |
| Text.TrimmedAfterOpening | notebooks/pbiDatasetAPI.py:221-235 | after an opening text, the cut leaves opening + joined items; with no items it cuts into the opening |
| Text.JoinLength | notebooks/pbiDatasetAPI.py:105-112 | joining keeps every character of every item and adds exactly one separator per gap |
| Text.JoinEnds | notebooks/pbiDatasetAPI.py:105-112 | the joined text begins with the first item and ends with the last one, so the trim removes only the trailing separator |
| DataTypes.EarlyTests | notebooks/pbiDatasetAPI.py:74-87 | the first seven rules of the chain answer as the byte, short, int, long, float, double and decimal tests do, in that order |
| DataTypes.LateTests | notebooks/pbiDatasetAPI.py:88-98 | the remaining rules answer as the string, binary, boolean, timestamp and date tests do, and a name passing none gives None |
| DataTypes.ChainAsWritten | notebooks/pbiDatasetAPI.py:71-98 | the mapper is the source's `if`/`elif` chain, test for test and in order, on the lower-cased name |
| DataTypes.MappedNames | notebooks/pbiDatasetAPI.py:74-97 | every mapped name is one of the ten Entity Data Model names or starts with "Decimal" |
| DataTypes.DecimalTests | notebooks/pbiDatasetAPI.py:74-87 | a name starting with "decimal" passes none of the exact tests before the decimal test, so it maps to "Decimal" plus its suffix |
| DataTypes.ListedTests | notebooks/pbiDatasetAPI.py:74-98 | the exact-name tests agree with the reference table: a listed name maps to its entry, any other name gives None |
| DataTypes.MatchesTable | notebooks/pbiDatasetAPI.py:71-98 | the mapper equals the reference table: a decimal name keeps its suffix, a listed name maps to its entry, any other name gives None |
| DataTypes.NoneExactlyWhenUnlisted | notebooks/pbiDatasetAPI.py:98 | None exactly when the lower-cased name is neither listed nor a decimal name (both directions) |
| DataTypes.CaseInsensitive | notebooks/pbiDatasetAPI.py:73 | the result depends only on the lower-cased name |
| DataTypes.SameLowerSameType | notebooks/pbiDatasetAPI.py:73 | names with the same lower case map to the same type |
| DataTypes.IntegerExamples | notebooks/pbiDatasetAPI.py:78-79 | "Integer" and "int" map to Int32 |
| DataTypes.DateTimeExamples | notebooks/pbiDatasetAPI.py:94-97 | "TIMESTAMP" and "date" map to DateTime |
| DataTypes.DecimalExample | notebooks/pbiDatasetAPI.py:86-87 | "DECIMAL(10,2)" maps to "Decimal(10,2)", keeping precision and scale |
| DataTypes.ComplexTypeExample | notebooks/pbiDatasetAPI.py:98 | a complex type name such as "array<int>" is not mapped |
| Payload.ColumnFragments | notebooks/pbiDatasetAPI.py:105-111 | one column descriptor per schema field, in schema order |
| Payload.ColumnsStep | notebooks/pbiDatasetAPI.py:105-111 | one more field extends the accumulated text by its descriptor and the separator |
| Payload.ColumnsDone | notebooks/pbiDatasetAPI.py:112 | trimming the text accumulated over the whole schema gives the joined column list |
| Payload.TableColumns | notebooks/pbiDatasetAPI.py:101-113 | the loop returns the descriptors joined by ",\r\n", and "" for an empty schema |
| Payload.TableRows | notebooks/pbiDatasetAPI.py:116-123 | the loop returns the serialised rows joined by ",\r\n", and "" when there are no rows |
| Payload.Zip | notebooks/pbiDatasetAPI.py:227 | `zip` pairs the i-th name with the i-th frame, up to the shorter list |
| Payload.TableBlocks | notebooks/pbiDatasetAPI.py:227-234 | one table description per pair, holding that table's name and column list |
| Payload.BlocksStep | notebooks/pbiDatasetAPI.py:227-234 | one more table extends the accumulated body by its description and the separator |
| Payload.BlocksDone | notebooks/pbiDatasetAPI.py:235-239 | trimming and closing the accumulated body gives header + joined descriptions + footer |
| Payload.BuildDatasetBody | notebooks/pbiDatasetAPI.py:219-239 | the creation body is the header, the descriptions joined by ",\r\n", and the footer; with no tables, the header minus three characters plus the footer |
| Transport.MethodNamesRoundTrip | notebooks/pbiDatasetAPI.py:51-52 | each method's name parses back to that method, and a name parses to a method exactly when its lower case is that method's name |
| Transport.DispatcherMethodNames | notebooks/pbiDatasetAPI.py:147 | "get", "post", "put" and "delete" are all accepted |
| Transport.AcceptedMethods | notebooks/pbiDatasetAPI.py:51-52 | a method name is accepted exactly when its lower case is one of get, post, put, delete; case does not matter |
| Transport.InvalidMethodSendsNothing | notebooks/pbiDatasetAPI.py:52 | an invalid method fails with the lower-cased name and sends nothing |
| Transport.ValidMethodSendsOne | notebooks/pbiDatasetAPI.py:53-68 | a valid method sends exactly one request, to the base URL plus the endpoint, with no body for DELETE and the given body otherwise, and returns its response |
| Transport.UrlUnderBase | notebooks/pbiDatasetAPI.py:53 | every URL sent starts with https://api.powerbi.com/v1.0/myorg/ |
| Dispatcher.Ids | notebooks/pbiDatasetAPI.py:150-151 | the keys of the datasets, one per dataset, in order |
| Dispatcher.Answers | notebooks/pbiDatasetAPI.py:196-198 | the server's response to each request, one per request, in order |
| Dispatcher.DeleteDatasetRequests | notebooks/pbiDatasetAPI.py:165-167 | one DELETE of `<prefix>datasets/<key>` per key, in order |
| Dispatcher.DeleteRowsRequests | notebooks/pbiDatasetAPI.py:196-198 | one DELETE of `<prefix>datasets/<key>/tables/<table>/rows` per table name, in order |
| Dispatcher.PostRowsRequests | notebooks/pbiDatasetAPI.py:250-260 | one POST of a table's rows per pair, in order |
| Dispatcher.PutTableRequests | notebooks/pbiDatasetAPI.py:269-278 | one PUT of a table's column list per pair, in order |
| Dispatcher.GetDatasetByName | notebooks/pbiDatasetAPI.py:177-183 | a successful getdatasetbyname returns a list of datasets |
| Dispatcher.Run | notebooks/pbiDatasetAPI.py:126-284 | the dispatcher; its own contract says only that a successful getdatasetbyname returns a dataset list, and the lemmas below state the rest |
| DispatcherProperties.LookupFailureStops | notebooks/pbiDatasetAPI.py:144-148 | a listing without `value` stops every operation after the one listing, with datasetKeys left empty |
| DispatcherProperties.GetByNameEffect | notebooks/pbiDatasetAPI.py:177-183 | getdatasetbyname sends two listings and returns exactly the listed datasets with the name, in order |
| DispatcherProperties.DeleteByNameEffect | notebooks/pbiDatasetAPI.py:161-167 | deletedatasetbyname sends one DELETE per dataset with the name, in order; it returns the not-found sentinel when there is none and otherwise the last DELETE's response |
| DispatcherProperties.DeleteByNameNotFound | notebooks/pbiDatasetAPI.py:164 | with no dataset of that name, only the listing is sent and the sentinel "Dataset '<name>' not found. No operation performed." is returned |
| DispatcherProperties.PostDatasetAfterLookup | notebooks/pbiDatasetAPI.py:144-151 | postdataset continues on the session its own lookup leaves |
| DispatcherProperties.PostDatasetCalls | notebooks/pbiDatasetAPI.py:213-218 | what the inner getdatasetbyname and deletedatasetbyname calls send and return |
| DispatcherProperties.GetByNameCall | notebooks/pbiDatasetAPI.py:213 | the inner getdatasetbyname sends two listings, sets datasetKeys to the namesakes' keys and returns one dataset per key |
| DispatcherProperties.DeleteByNameCall | notebooks/pbiDatasetAPI.py:216-218 | the inner deletedatasetbyname sends one listing and one DELETE per namesake, in order, and succeeds |
| DispatcherProperties.PostDatasetKeepBody | notebooks/pbiDatasetAPI.py:213-215 | without re-creation, a taken name fails with the dataset-exists error after getdatasetbyname; a free name goes on to the creation step |
| DispatcherProperties.PostDatasetRecreateBody | notebooks/pbiDatasetAPI.py:213-219 | with re-creation, the creation step starts after getdatasetbyname and deletedatasetbyname, on the log they leave |
| DispatcherProperties.PostDatasetUnfolds | notebooks/pbiDatasetAPI.py:208-241 | postdataset is its lookups, an optional deletion, and the creation step |
| DispatcherProperties.PostDatasetEffect | notebooks/pbiDatasetAPI.py:208-241 | postdataset, recursion included, equals a closed form (`PostDatasetOutcome`): three listings, plus a listing and one DELETE per namesake when re-creating, then the POST of the creation body. A taken name without re-creation stops after the listings. datasetKey becomes [new id], or the call fails on a missing id |
| DispatcherProperties.PostDatasetConflictSendsNoPost | notebooks/pbiDatasetAPI.py:214-215 | without re-creation, a taken name fails and sends no POST |
| DispatcherProperties.PostDatasetDeletesBeforePost | notebooks/pbiDatasetAPI.py:216-240 | with re-creation, the creation POST to `<prefix>datasets` is the last request and the only POST, so every DELETE comes before it |
| DispatcherProperties.OutcomeDeletesBeforePost | notebooks/pbiDatasetAPI.py:216-240 | the same ordering, stated on the closed form of postdataset |
| DispatcherProperties.PostComesLast | notebooks/pbiDatasetAPI.py:216-240 | a log of listings, then DELETEs, then one POST has that POST last and no other POST |
| DispatcherProperties.PostDatasetFreshName | notebooks/pbiDatasetAPI.py:208-241 | a free name: three listings and the POST, with datasetKey set to the new id |
| DispatcherProperties.OutcomeFreshName | notebooks/pbiDatasetAPI.py:208-241 | the same, stated on the closed form of postdataset |
| DispatcherProperties.RequestListsScoped | notebooks/pbiDatasetAPI.py:165-278 | every request of the per-key and per-table loops lies under the base URL and the workspace prefix |
| DispatcherProperties.SingleRequestBranchesGrow | notebooks/pbiDatasetAPI.py:153-205 | the one-request operations append their request under the prefix and leave datasetKeys and datasetKey alone |
| DispatcherProperties.LoopBranchesGrow | notebooks/pbiDatasetAPI.py:161-278 | the looping operations append only scoped requests and leave datasetKeys and datasetKey alone |
| DispatcherProperties.PostDatasetRequestsScoped | notebooks/pbiDatasetAPI.py:213-240 | every request postdataset sends after its lookup is scoped |
| DispatcherProperties.PostDatasetConflictGrowth | notebooks/pbiDatasetAPI.py:213-215 | the session a taken name leaves has grown from the one the lookup leaves |
| DispatcherProperties.PostDatasetCreateGrowth | notebooks/pbiDatasetAPI.py:216-241 | the session a creation leaves has grown from the one the lookup leaves |
| DispatcherProperties.OutcomeGrows | notebooks/pbiDatasetAPI.py:208-241 | postdataset's closed form has grown from the session its lookup leaves |
| DispatcherProperties.SingleRequestOperationsGrow | notebooks/pbiDatasetAPI.py:153-205 | deletedatasetbyid, getdatasetbyid, getdatasetbyname, getdatasets and gettables grow the session the lookup leaves and keep datasetKey |
| DispatcherProperties.LoopOperationsGrow | notebooks/pbiDatasetAPI.py:161-281 | deletedatasetbyname, deleterows, postrows, puttable and unknown operations grow the session the lookup leaves and keep datasetKey |
| DispatcherProperties.OtherOperationsGrow | notebooks/pbiDatasetAPI.py:153-281 | every operation but postdataset grows the session the lookup leaves and keeps datasetKey |
| DispatcherProperties.RunGrows | notebooks/pbiDatasetAPI.py:153-284 | after a successful lookup, every operation only appends scoped requests, keeps datasetKeys, and only postdataset sets datasetKey |
| DispatcherProperties.LogExtends | notebooks/pbiDatasetAPI.py:139-151 | the log only grows: the lookup listing comes first, and every new URL starts with the base URL followed by "" or "groups/<id>/" |
| DispatcherProperties.LookupComesFirst | notebooks/pbiDatasetAPI.py:144-147 | when a dataset name is given, the first request is GET `<prefix>datasets`, whatever the operation |
| DispatcherProperties.DatasetKeysFromLookup | notebooks/pbiDatasetAPI.py:144-151 | afterwards datasetKeys holds the keys of exactly the listed datasets with the name, in order; it is [] when the listing fails and unchanged when no name is given |
| DispatcherProperties.MissingParametersExactly | notebooks/pbiDatasetAPI.py:155-267 | a known operation fails with the missing-parameter error exactly when a required parameter is absent (both directions), and then changes nothing after the lookup |
| DispatcherProperties.UnknownOperationIsNoOp | notebooks/pbiDatasetAPI.py:280-281 | an unknown operation returns no result and sends nothing but the lookup |
| DispatcherProperties.DeleteRowsOnePerTable | notebooks/pbiDatasetAPI.py:191-198 | deleterows sends one DELETE per table name, in order, and returns one response per table name |
| DispatcherProperties.RunPostRows | notebooks/pbiDatasetAPI.py:244-260 | after a successful lookup, postrows is its loop on the session the lookup leaves |
| DispatcherProperties.PostRowsLoop | notebooks/pbiDatasetAPI.py:250-260 | the postrows loop sends, for the i-th pair, a POST of the i-th frame's rows to that table's rows URL, and answers with the i-th response |
| DispatcherProperties.PostRowsPerPair | notebooks/pbiDatasetAPI.py:244-260 | postrows sends, for each of the first min(\|names\|, \|frames\|) pairs, a POST of that frame's rows, and returns the responses in order |
| DispatcherProperties.RunPutTable | notebooks/pbiDatasetAPI.py:263-278 | after a successful lookup, puttable is its loop on the session the lookup leaves |
| DispatcherProperties.PutTableLoop | notebooks/pbiDatasetAPI.py:269-278 | the puttable loop sends, for the i-th pair, the PUT that replaces that table's schema, and answers with the i-th response |
| DispatcherProperties.PutTablePerPair | notebooks/pbiDatasetAPI.py:263-278 | puttable sends, for each of the first min(\|names\|, \|frames\|) pairs, the PUT (`PutTableRequest`) of the table's name and column list to `<prefix>datasets/<key>/tables/<table>`, and returns the responses in order |
| Api.PbiDatasetApi.constructor | notebooks/pbiDatasetAPI.py:11-16 | a new client has sent nothing and holds no keys |
| Api.PbiDatasetApi.ExecuteRequest | notebooks/pbiDatasetAPI.py:49-68 | the transport method leaves the log, and returns the result, that `Transport.Send` specifies |
| Api.PbiDatasetApi.LookUpName | notebooks/pbiDatasetAPI.py:144-151 | the lookup loop empties datasetKeys, then appends the key of each dataset with the name, as `Dispatcher.Lookup` specifies |
| Api.PbiDatasetApi.AppendKeys | notebooks/pbiDatasetAPI.py:150-151 | the loop appends the key of each dataset to datasetKeys, in order |
| Api.PbiDatasetApi.ExecuteDeleteDatasetByName | notebooks/pbiDatasetAPI.py:161-167 | the delete loop sends one DELETE per key and returns the sentinel or the last response, as specified |
| Api.PbiDatasetApi.ExecuteDeleteRows | notebooks/pbiDatasetAPI.py:191-198 | the deleterows loop's log and responses are those of `Dispatcher.DeleteRows` |
| Api.PbiDatasetApi.ExecutePostRows | notebooks/pbiDatasetAPI.py:244-260 | the postrows loop's log and responses are those of `Dispatcher.PostRows` |
| Api.PbiDatasetApi.ExecutePutTable | notebooks/pbiDatasetAPI.py:263-278 | the puttable loop's log and responses are those of `Dispatcher.PutTable` |
| Api.PbiDatasetApi.ExecutePostDataset | notebooks/pbiDatasetAPI.py:208-241 | postdataset calls the dispatcher recursively and leaves exactly the state of `Dispatcher.PostDataset` |
| Api.PbiDatasetApi.ExecuteCreateDataset | notebooks/pbiDatasetAPI.py:219-241 | builds the creation body and hands it to the POST step, leaving the state `Dispatcher.CreateDataset` specifies |
| Api.PbiDatasetApi.ExecuteSendCreation | notebooks/pbiDatasetAPI.py:240-241 | POSTs the body to `<prefix>datasets` and sets datasetKey to [new id], or fails on a missing id, as `Dispatcher.SendCreation` specifies |
| Api.PbiDatasetApi.ExecuteOperation | notebooks/pbiDatasetAPI.py:126-284 | executePBIOperation leaves exactly the state, and returns exactly the result, of `Dispatcher.Run`, so every `DispatcherProperties` lemma holds for the client |

## Left out

- Authentication: `getToken`, `getHeaders` and the username, password and application id are left out. They are an OAuth call and a clock read. The authorization header is the same on every request, so it is not part of a request.
- The network: the service is a pure function of the request. Responses are reduced to the two keys the client reads, `value` and `id`, and status codes are not modelled.
- Run: the service has no state, so a DELETE does not change later listings. That a created dataset can be retrieved afterwards depends on the service and is not stated.
- `json.loads` of the bodies: a body is sent as the string the client builds, so a body that is not valid JSON is not detected. One example is a name containing a quote.
- Spark: `dataFrame.schema.jsonValue()` and `to_json(struct(...)).collect()` are left out. A DataFrame is given as its schema fields (names and type names) and its rows already serialised to JSON.
- DataTypes.PbiDataType: lower-casing is ASCII only, not Unicode. Complex Spark types appear in the schema JSON as objects rather than strings, where `.lower()` would raise; they are not modelled.
- Dispatcher.Run: a `tableNames` given as a bare string, which Python iterates character by character, is not modelled. Table names are a list.
- `print` of "Invalid operation provided" is left out; the unknown operation still returns no result.
- The fields `datasetKeys` and `datasetKey` exist from construction as empty lists. In Python they are created on first assignment, and nothing reads them before that.
- `notebooks/demo.py` is a usage script and is not part of this model.
