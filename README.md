# process-io-api: the per-user variable store

process-io-api stores named JSON variables for process tasks. Each variable
belongs to one user. It can be tagged with a process definition id and a
process instance id. A variable is identified by its user id and its key.

This project models four layers of that store and proves properties about
them:

- **The controller** (`Controller.Controller`).
  - Keys that start with `calculate_` are answered by a calculator. Every
    other key goes to the database.
  - Writes are stamped with the configured clock and with the caller's user id.
  - A bulk request runs all of its writes first, then all of its reads. It
    stops at the first error.
- **The storage contract** (`Store`). Both database adapters follow it:
  - at most one record per (user id, key);
  - a not-found sentinel instead of an error;
  - writes are upserts;
  - deletes are idempotent;
  - list and count share one filter;
  - the cascading deletes ignore the user.
- **The two adapters.**
  - `Postgres.PgVariables` is a table keyed by (user_id, variable_key). It
    also builds the SQL text of its list query, fragment by fragment.
  - `Mongo.MongoVariables` is an ordered collection of documents with a unique
    (user id, key) index. Its field filters and its list loop are modelled. Its
    collection is shown to be the same table as the storage contract
    (`Mongo.TableOf`).
- **The query options and the HTTP handlers.**
  - `Model.Encode` produces the URL parameters of a set of list options.
  - The handlers for `/variables`, `/values`, `/process-definitions` and
    `/process-instances` are functions, except the list handler
    `ApiVariables.List`, which is a method that fills the options field by
    field as the source does. Each handler takes a request: a parsed
    token or none, the path parameters, the URL query, and a decoded body or a
    decode failure. It returns an outcome: a status, at most one controller
    call, and a body.

Things outside the store are parameters. They are grouped in
`Controller.Env`:

- the two clocks;
- the calculator;
- which database calls fail, and with what error;
- the order and page in which a backend answers a listing.

For Postgres, the database server that runs the SQL text is the `run`
parameter of `Postgres.PgVariables.ListVariables`.

## Model

| member | source | states |
|---|---|---|
| Model.VariablesQueryOptions.GetSort | pkg/model/model.go:62-67 | the sort is never empty: it is the given sort, or "key.asc" exactly when none is given |
| Model.EncodedParams | pkg/model/model.go:69-90 | limit and offset are parameters iff positive; sort, key_regex, process_instance_id and process_definition_id iff non-empty; each carries exactly one value, the field's (decimal for the integers); no other parameter |
| Model.Encode | pkg/model/model.go:69-90 | filling the map field by field yields exactly EncodedParams; the zero options encode to no parameters |
| Store.Lookup | pkg/database/postgres/variables.go:59-89 | the stored record of (user, key), or the sentinel with that key and user, null value, no ids, time 0 |
| Store.Upsert | pkg/database/postgres/variables.go:91-116 | the record is filed under its (user, key), whether that key was new or not; every other record is unchanged |
| Store.Remove | pkg/database/postgres/variables.go:118-127 | exactly the record (user, key) is gone, present or not; the others are unchanged |
| Store.RemoveDefinition | pkg/database/postgres/variables.go:198-204 | a record survives iff its definition id differs, for every user; survivors are unchanged |
| Store.RemoveInstance | pkg/database/postgres/variables.go:206-212 | a record survives iff its instance id differs, for every user; survivors are unchanged |
| Store.MatchesQuery | pkg/database/mongo/variables.go:128-134 | the list filter never passes another user's record; a query without ids passes every record of the user |
| Store.CountMatching | pkg/database/mongo/variables.go:150-161 | the count of records passing the list filter never exceeds the table's size |
| Store.LookupAfterUpsert | pkg/database/postgres/variables.go:91-98 | after a write, a read of the written (user, key) returns the written record, and every other read is as before |
| Store.UpsertTwice | pkg/database/postgres/variables.go:94-98 | writing the same (user, key) twice is the second write alone, with one record |
| Store.UsersAreIsolated | pkg/database/postgres/variables.go:27-35 | a write by one user changes no read of another user |
| Store.RemoveIdempotent | pkg/database/postgres/variables.go:118-127 | deleting twice is deleting once, and a deleted key reads as the sentinel |
| Store.CountAfterRemoveDefinition | pkg/database/mongo/variables.go:150-169 | after a definition cascade, a count filtered by that definition is 0 |
| Postgres.Filters | pkg/database/postgres/variables.go:136-143 | one filter per non-empty id, definition before instance, each with a non-empty value |
| Postgres.ConditionParts | pkg/database/postgres/variables.go:136-143 | filter i is the condition on its column bound to placeholder $(i+2) |
| Postgres.FilterArgs | pkg/database/postgres/variables.go:136-143 | the filter arguments are the filter values, in the same order |
| Postgres.SplitSort | pkg/database/postgres/variables.go:145-156 | ".asc" gives ascending iff present and is stripped; ".desc" gives descending and is stripped; any other sort is the whole field with no direction |
| Postgres.OrderParts | pkg/database/postgres/variables.go:145-165 | no ORDER BY iff the sort is empty; else "ORDER BY" and the column ("key" becomes variable_key), then the direction when one is given |
| Postgres.OrderBy | pkg/database/postgres/variables.go:145-165 | the step-by-step ORDER BY fragments equal OrderParts |
| Postgres.ListQuery | pkg/database/postgres/variables.go:129-172 | the query starts with the select and "WHERE user_id = $1" bound to the user; one argument per filter, plus limit and offset as the last two only for a positive limit |
| Postgres.ListQueryShape | pkg/database/postgres/variables.go:129-170 | layout of the list query: select, "WHERE user_id = $1" bound to the user, filter i bound to $(i+2) and argument i+1, the ORDER BY fragments, and with a positive limit a last "Limit $n OFFSET $n+1" bound to the last two arguments, limit then offset |
| Postgres.BuildListQuery | pkg/database/postgres/variables.go:129-172 | the query text and arguments built step by step are those of ListQuery with the given connective; with the source's empty connective this is the query as written |
| Postgres.ListQueryIgnoresKeyRegex | pkg/database/postgres/variables.go:129-172 | the key pattern has no effect on the query or its arguments |
| Postgres.OffsetNeedsLimit | pkg/database/postgres/variables.go:167-170 | without a positive limit there is no paging argument and the offset has no effect |
| Postgres.WrittenWhereJuxtaposes | pkg/database/postgres/variables.go:135-172 | as written, the WHERE clause is "WHERE " followed by the conditions joined by single spaces |
| Postgres.CorrectedWhereIsConjunction | pkg/database/postgres/variables.go:135-172 | with "AND " before each filter, the WHERE clause is "WHERE " followed by the conditions joined by " AND " |
| Postgres.MissingAndCounterexample | pkg/database/postgres/variables.go:135-172 | for user "u1" and definition "d1" the written clause is "WHERE user_id = $1 process_definition_id = $2"; the corrected one has " AND " between the conditions |
| Postgres.Scan | pkg/database/postgres/variables.go:178-195 | a successful read has one record per row; a failed read carries the error of one of the rows |
| Postgres.ScanSucceeds | pkg/database/postgres/variables.go:178-195 | reading rows succeeds iff every row does, and then yields each row's record in row order |
| Postgres.ScanFailsAtFirstError | pkg/database/postgres/variables.go:178-195 | reading fails with the error of the first failing row |
| Postgres.ScanFailureExtends | pkg/database/postgres/variables.go:178-195 | a failure in a prefix of the rows is the failure of all of them |
| Postgres.CollectRows | pkg/database/postgres/variables.go:178-195 | the rows loop returns no records and the first row error, or all records in order; no rows leave the result nil |
| Postgres.PgVariables.GetVariable | pkg/database/postgres/variables.go:59-89 | returns the stored row of (user, key), or for a missing row the sentinel and no error |
| Postgres.PgVariables.SetVariable | pkg/database/postgres/variables.go:91-116 | the new table is the upsert of the record |
| Postgres.PgVariables.DeleteVariable | pkg/database/postgres/variables.go:118-127 | the new table is the old one without (user, key) |
| Postgres.PgVariables.ListVariables | pkg/database/postgres/variables.go:129-196 | runs the list query, with AND between the WHERE conditions; a query error or a row error gives no records and that error; otherwise the scanned records, nil for no rows |
| Postgres.PgVariables.DeleteVariablesOfProcessDefinition | pkg/database/postgres/variables.go:198-204 | the new table is the definition cascade of the old one |
| Postgres.PgVariables.DeleteVariablesOfProcessInstance | pkg/database/postgres/variables.go:206-212 | the new table is the instance cascade of the old one |
| Mongo.KeyFilter | pkg/database/mongo/variables.go:63 | a document matches iff its (user id, key) is the given pair |
| Mongo.DefinitionFilter | pkg/database/mongo/variables.go:165-167 | a document matches iff its definition id is the given one, whatever its user |
| Mongo.InstanceFilter | pkg/database/mongo/variables.go:173-175 | a document matches iff its instance id is the given one, whatever its user |
| Mongo.QueryFilter | pkg/database/mongo/variables.go:128-134 | the filter always holds the user id, never the key, and holds the definition or instance id iff that query field is non-empty |
| Mongo.QueryFilterMatches | pkg/database/mongo/variables.go:128-134 | a document passes the list filter iff it passes the storage contract's list filter |
| Mongo.Select | pkg/database/mongo/variables.go:136-140 | the documents a filter matches, all and only those, in collection order |
| Mongo.Reject | pkg/database/mongo/variables.go:119-122 | the documents a filter does not match, all and only those, in collection order |
| Mongo.SelectAppend | pkg/database/mongo/variables.go:136-147 | selecting from a concatenation is selecting from each part, the parts kept in order: the cursor keeps collection order |
| Mongo.SelectOne | pkg/database/mongo/variables.go:136-147 | a single document is selected iff the filter matches it |
| Mongo.RejectAppend | pkg/database/mongo/variables.go:119-122 | rejecting from a concatenation is rejecting from each part, the parts kept in order: DeleteMany keeps the others in order |
| Mongo.RejectOne | pkg/database/mongo/variables.go:119-122 | a single document stays iff the filter does not match it |
| Mongo.FindFirst | pkg/database/mongo/variables.go:63-64 | the first matching document, or None iff no document matches |
| Mongo.TableOfContents | pkg/database/mongo/variables.go:33 | with the unique index, the collection's table files every document under its own (user id, key) and holds nothing else |
| Mongo.RejectUnique | pkg/database/mongo/variables.go:119-122 | deleting documents keeps (user id, key) unique |
| Mongo.DeleteMatching | pkg/database/mongo/variables.go:119-122 | DeleteMany over the table: a record survives iff the filter does not match it, unchanged |
| Mongo.TableOfReject | pkg/database/mongo/variables.go:119-122 | deleting the matching documents deletes the matching records of the table |
| Mongo.RemoveByKeyFilter | pkg/database/mongo/variables.go:117-124 | DeleteMany on the user id and key is the storage contract's delete |
| Mongo.RemoveByDefinitionFilter | pkg/database/mongo/variables.go:163-169 | DeleteMany on the definition id is the storage contract's definition cascade |
| Mongo.RemoveByInstanceFilter | pkg/database/mongo/variables.go:171-177 | DeleteMany on the instance id is the storage contract's instance cascade |
| Mongo.SelectKey | pkg/database/mongo/variables.go:33 | the documents of one user id and key are exactly the one stored |
| Mongo.ReplaceInTable | pkg/database/mongo/variables.go:103-110 | replacing the matching document keeps keys unique and upserts that record of the table |
| Mongo.AppendToTable | pkg/database/mongo/variables.go:103-110 | inserting when nothing matches keeps keys unique and adds that record to the table |
| Mongo.CountSelect | pkg/database/mongo/variables.go:150-161 | the number of documents passing the list filter is the storage contract's count |
| Mongo.WithoutUser | pkg/database/mongo/variables.go:144-146 | the listing holds each document's record without its user id, in the same order |
| Mongo.ListedAreMatching | pkg/database/mongo/variables.go:126-147 | a record is listed iff it is stored and passes the storage contract's list filter |
| Mongo.MongoVariables.GetVariable | pkg/database/mongo/variables.go:61-99 | returns the stored document of (user, key), or the sentinel and no error |
| Mongo.MongoVariables.SetVariable | pkg/database/mongo/variables.go:101-115 | the table is the upsert of the record, and exactly one document, the argument, has its user id and key; the matching document is replaced in place, or the record is appended when none matches |
| Mongo.MongoVariables.DeleteVariable | pkg/database/mongo/variables.go:117-124 | the table is the old one without (user, key); the remaining documents keep their order |
| Mongo.MongoVariables.ListVariables | pkg/database/mongo/variables.go:126-148 | the documents passing the list filter, in collection order, without user ids; nil when none match |
| Mongo.MongoVariables.CountVariables | pkg/database/mongo/variables.go:150-161 | the number of stored records passing the list filter; sort, paging and the key pattern play no part |
| Mongo.MongoVariables.DeleteVariablesOfProcessDefinition | pkg/database/mongo/variables.go:163-169 | the table is the definition cascade of the old one; the remaining documents keep their order |
| Mongo.MongoVariables.DeleteVariablesOfProcessInstance | pkg/database/mongo/variables.go:171-177 | the table is the instance cascade of the old one; the remaining documents keep their order |
| Controller.Stamp | pkg/controller/controller.go:83-91 | the stored record is the caller's variable, owned by the caller, stamped with the configured clock |
| Controller.GetSpec | pkg/controller/controller.go:60-81 | a computed key gives the calculator's value with the key and the wall-clock time, or its error unchanged; any other key gives the store's record without its user, or the sentinel, or the database error |
| Controller.SetStep | pkg/controller/controller.go:83-91 | a successful write upserts the stamped variable; a failed write leaves the store as it was and returns the error |
| Controller.CalculatedKeysIgnoreStore | pkg/controller/controller.go:61-72 | a computed key is answered the same whatever the store, its faults or the caller |
| Controller.GetAfterSet | pkg/controller/controller.go:60-91 | after a successful write of a stored key, a read returns the written variable with the configured time |
| Controller.ApplySets | pkg/controller/controller.go:98-103 | the set loop never removes a record and never changes another user's; a failure is the error of one of the sets |
| Controller.ApplySetsFrame | pkg/controller/controller.go:98-103 | a record of another user, or of a key the request does not set, is present after the set loop iff it was before, and unchanged |
| Controller.ApplySetsStopsAtFailure | pkg/controller/controller.go:98-103 | the sets before the first failing one stay applied; that set and the rest are not, and its error is returned |
| Controller.ApplySetsLastWins | pkg/controller/controller.go:98-103 | when every set succeeds, the last set of a key is what the store holds |
| Controller.BulkGetSeesSet | pkg/controller/controller.go:97-113 | a read in a bulk request sees the last write of its key in the same request |
| Controller.CollectGets | pkg/controller/controller.go:104-112 | the read loop has at most one entry per key and is nil rather than empty; a failure is the error of one of the reads |
| Controller.CollectGetsEntries | pkg/controller/controller.go:104-112 | the read loop succeeds iff every read does, and then has one entry per key, in order, each what a single Get returns |
| Controller.CollectGetsStopsAtFailure | pkg/controller/controller.go:104-110 | the read loop reports the first failing read's error and keeps the entries read before it |
| Controller.Controller.List | pkg/controller/controller.go:48-54 | the backend's listing, with nil turned into empty; the database error, if any; every listed entry is a stored record of the caller passing the list filter |
| Controller.Controller.Count | pkg/controller/controller.go:56-58 | the number of records passing the list filter, or the database error |
| Controller.Controller.Get | pkg/controller/controller.go:60-81 | the answer is GetSpec's, and the store is unchanged |
| Controller.Controller.Set | pkg/controller/controller.go:83-91 | the new store and the error are SetStep's |
| Controller.Controller.Delete | pkg/controller/controller.go:93-95 | a successful delete is the storage contract's delete; a failed one changes nothing |
| Controller.Controller.Bulk | pkg/controller/controller.go:97-113 | the store ends as the set loop leaves it; a failed set returns nil and its error without reading; otherwise the read loop's entries and error |
| Controller.Controller.GetAll | pkg/controller/controller.go:104-112 | the read loop's entries and error, as CollectGets defines them |
| Controller.Controller.DeleteProcessDefinition | pkg/controller/controller.go:115-117 | a successful call is the definition cascade; a failed one changes nothing |
| Controller.Controller.DeleteProcessInstance | pkg/controller/controller.go:119-121 | a successful call is the instance cascade; a failed one changes nothing |
| Http.ByName | pkg/api/variables.go:150 | a path parameter's value, or "" when the route has none |
| Http.AfterWrite | pkg/api/variables.go:201-207 | a controller error gives 500; success gives 204 with no body |
| Http.AfterRead | pkg/api/variables.go:84-93 | a controller error gives 500 with no body; success gives 200 with the answer as the body |
| ApiVariables.IntParam | pkg/api/variables.go:59-74 | an absent or empty parameter is 0; any other must parse as an integer |
| ApiVariables.ListOptionsOf | pkg/api/variables.go:58-82 | None iff limit or offset is given but not an integer; else the options with the parsed limit and offset, the sort or "key.asc", and the two ids and key pattern copied |
| ApiVariables.CountOptionsOf | pkg/api/variables.go:115-121 | only the ids and the key pattern are copied; limit, offset and sort stay zero |
| ApiVariables.List | pkg/api/variables.go:50-94 | 401 without a token; 400 without a controller call for a bad limit or offset; else one list call with the parsed options, then 200 or 500 |
| ApiVariables.Count | pkg/api/variables.go:107-131 | 401 without a token; else one count call with the count options, then 200 or 500 |
| ApiVariables.Get | pkg/api/variables.go:143-165 | 401 without a token; 400 for "" or "/"; else one leading "/" is removed and the key read, then 200 or 500 |
| ApiVariables.Set | pkg/api/variables.go:178-209 | 401; 400 for an empty key, an undecodable body, or a body key that differs from the path key; otherwise the body is written under the caller's id, then 204 or 500 |
| ApiVariables.Delete | pkg/api/variables.go:220-239 | 401; 400 for an empty key; else the caller's key is deleted, then 204 or 500 |
| ApiVariables.ListOptionsOfEncoded | pkg/api/variables.go:58-82 | parsing the encoded parameters of some options gives them back, except that the sort is defaulted and a limit or offset that is not positive becomes 0 |
| ApiVariables.ListAndCountShareFilters | pkg/api/variables.go:80-82 | list and count read the same ids and key pattern from the query |
| ApiValues.Get | pkg/api/values.go:47-68 | 401; 400 for "" or "/"; else one leading "/" is removed and the key read; the body is only the variable's value |
| ApiValues.Set | pkg/api/values.go:81-113 | 401; 400 for an empty key or an undecodable body, with nothing stored; else the value is written under the key with empty ids, then 204 or 500 |
| ApiValues.Delete | pkg/api/values.go:124-143 | 401; 400 for an empty key; else the caller's key is deleted, then 204 or 500 |
| ApiValues.PutThenGet | pkg/api/values.go:54-106 | a value put under a stored key, read back through the controller as "/key", is the value put |
| ApiProcessDefinitions.SetWithInstance | pkg/api/process_definitions.go:47-89 | 401; 400 for an empty key, instance id or definition id, or an undecodable body, all before any call; else the value is written with both path ids, then 204 or 500 |
| ApiProcessDefinitions.Set | pkg/api/process_definitions.go:103-139 | as SetWithInstance without the instance: the value is written with the definition id and an empty instance id |
| ApiProcessDefinitions.AdminDelete | pkg/api/process_definitions.go:152-174 | 401 without a token, then 403 for a non-admin, then 400 for an empty id, else the delete call, then 204 or 500 |
| ApiProcessDefinitions.DeleteDefinition | pkg/api/process_definitions.go:150-176 | the cascade is called iff an admin gives a non-empty definition id, exactly once with that id; otherwise 401, 403 or 400 |
| ApiProcessDefinitions.DeleteInstance | pkg/api/process_definitions.go:187-213 | the cascade is called iff an admin gives a non-empty instance id, exactly once with that id; otherwise 401, 403 or 400 |
| ApiProcessDefinitions.InstanceDeleteRemovesValue | pkg/api/process_definitions.go:54-211 | a value put under an instance is gone for its owner after an admin deletes that instance |
| Decimal.Itoa | pkg/model/model.go:72-75 | the decimal form: digits only for a non-negative number, a minus sign then digits for a negative one; "0" exactly for zero |
| Decimal.Atoi | pkg/api/variables.go:59-74 | strconv.Atoi: the empty string fails; a digit string, or one sign followed by digits, parses to its value (negated after "-") iff that fits in 64 bits; a parsed string is digits with at most one leading sign |
| Decimal.AtoiItoa | pkg/model/model.go:72-75 | parsing the decimal form of any 64-bit integer gives it back |

## Left out

- The calculator behind computed keys is not part of this model. It is the `calculate` function of `Controller.Env`, which may fail. The prefix `calculate_` is the constant the prefix check uses.
- The clocks `time.Now()` and `configuration.TimeNow()` are the `wallClock` and `configuredClock` inputs. Each is one value per call.
- Controller.Controller.Bulk: one clock reading serves every set and every computed get of the request. In the source, each set reads `configuration.TimeNow()` again (pkg/controller/controller.go:84-88 via :99), and each computed get reads `time.Now()` again (:60-72 via :106). So in the model two sets of one request always carry the same timestamp.
- Postgres.PgVariables.SetVariable: does not model the column limits of the table (pkg/database/postgres/variables.go:27-35). These are `user_id` VARCHAR(50), `variable_key` VARCHAR(255), both ids VARCHAR(64), and `unix_timestamp_in_s` a 32-bit INT. PostgreSQL refuses a longer string or a larger timestamp with an error, so such a write fails in the source. The adapter and `Store.Upsert` assume every record fits. At the controller, such a failure is only one case of the `fault` input.
- Database transport errors, timeouts and JSON (un)marshalling of values are not modelled inside the adapters. At the controller, a failing database call is the `fault` input of `Controller.Env`. Postgres query and row errors are the `run` parameter and the scanned rows.
- Mongo.MongoVariables.GetVariable: does not model a failing `Decode` (pkg/database/mongo/variables.go:83-98). In the source, a `Decode` error other than no-documents is swallowed: GetVariable returns the partly decoded record and no error. The no-documents branch after `Decode` cannot be reached, because `FindOne`'s `Err()` check at :66 returns the sentinel first. The model holds decoded documents only, so every found document is returned whole.
- Executing the SQL text: `Postgres.PgVariables.ListVariables` takes the server as the `run` parameter. Which rows it answers, in which order and page, is not derived from the query.
- The `keyRegex` option: neither adapter applies it. `Postgres.ListQueryIgnoresKeyRegex` and `Store.MatchesQuery` record this.
- Mongo sort and paging: `createFindOptions` is not part of this model. `Mongo.MongoVariables.ListVariables` returns every match in collection order. `Controller.Env.listing` stands for the backend's ordered, paged answer. `Controller.ListsFromStore` constrains it only to list stored records that pass the list filter; which of them, and in which order, is left open.
- Postgres has no CountVariables in the adapter; only the document adapter's count is modelled.
- `url.Values.Encode`, the string form of the parameters: `Model.Encode` stops at the parameter map.
- GetLimit and GetOffset return the fields unchanged, since Go's int is 64 bits here, so the model reads the fields directly.
- The delete handlers pass the user id and the id to a controller method that takes only the id (pkg/api/process_definitions.go:169, 206 against pkg/controller/controller.go:115-121). The model passes the id only, since the controller ignores the user.
- HTTP transport, header writing, JSON encoding of responses, route registration, bulk and swagger handlers, the client, token parsing and exchange, metrics, connection setup and index creation, and concurrency between requests are not modelled.

## Findings

| source | as written | input that shows it | evidently intended | confidence | as-written member | corrected member |
|---|---|---|---|---|---|---|
| pkg/database/postgres/variables.go:135-172 | filter conditions are appended as separate fragments and joined with single spaces, so nothing connects them to "WHERE user_id = $1" | options with process definition id "d1" for user "u1": the clause is "WHERE user_id = $1 process_definition_id = $2", which is not valid SQL | each filter condition preceded by "AND ", making the clause a conjunction | high; not executed | Postgres.MissingAndCounterexample | Postgres.CorrectedWhereIsConjunction |

`Postgres.ListQuery` and `Postgres.BuildListQuery` take the connective as a
parameter, so that both forms come from one definition. With the source's empty
connective they give the query as written, and `Postgres.WrittenWhereJuxtaposes`
states its WHERE clause in general. `Postgres.PgVariables.ListVariables` builds
the corrected query, with "AND ".
