# RabbitMQ → BigQuery pipeline, modelled in Dafny

This project models the core of `main.py`. That program drains a RabbitMQ
queue, picks a destination table for each JSON message, flattens the message
into a row, buffers rows per table, and writes them to BigQuery in batches.
The model covers four parts:

- **Routing** (`get_table_from_message`, module `Router`). The table name is
  taken from the first of `EntityType`, `Table` and `TableName` whose value is
  present and truthy. It is then cleaned: every non-alphanumeric character
  becomes `_`, and the result is lower-cased. With no such field the table is
  `default_table`.
- **Flattening** (`transform_message`, module `Transformer`). Routing fields
  are dropped. Scalars are copied. A nested object is flattened one level into
  `outer_inner` columns. Anything deeper, and any array, becomes its
  `json.dumps` text. `processing_timestamp` is stamped last. The output is
  built by a fold of assignments over the input fields, so a later
  assignment to the same column overwrites an earlier one.
- **Loading** (`write_to_bigquery`, module `Loader`). This is a decision tree
  over what the warehouse answers:
  - is the client present;
  - does the table exist;
  - does the schema-detecting load job raise;
  - what does the streaming insert return or raise.
- **Driving** (the loop of `process_rabbitmq_messages`, module `Driver`).
  - The fetch loop runs at most `max_messages` times and stops at the first
    empty fetch.
  - A message that is processed is buffered under its table. When that
    buffer reaches 100 rows it is written and emptied. The message is then
    acked.
  - A message that raises is recorded as an error and nacked with requeue.
  - The final loop writes every non-empty buffer, in insertion order.
  - The result counts the rows written and the tables touched, and lists the
    errors.

JSON values (module `Json`) are a datatype with Python's truthiness, `str()`
and `json.dumps` renderings. The driver is a method with the source's local
variables:
- `message_buffer` is a map plus the insertion order of its keys;
- the three fields of `results`;
- a log of the acks, nacks and writes it performs.

The method is proved equal to the reference function `Driver.Process`:
`Run` over the fetched messages, then `Drain`. The whole-run properties are
lemmas about `Process`.

The batch size is a parameter `threshold`. `Driver.ProcessRabbitmqMessages`
fixes it at the source's 100 (`Driver.BatchSize`).

External inputs are parameters:
- the queue is a sequence of `Delivery` values (tag, decoded payload or
  decode error, clock reading), read as what `basic_get` returns in turn,
  redeliveries included: a message nacked with `requeue=True`
  (main.py:211-214) can come back as a later delivery;
- BigQuery is a `Warehouse` (whether the client was initialised, and the
  answers for the k-th write);
- `time.time()` is the delivery's `clock`.

Points of the code's behaviour the model keeps:
- The code writes a full buffer *before* acking the message that filled it
  (main.py:192-202).
- Routing skips any falsy value (`0`, `False`, `[]`, `{}`, `None`, `""`),
  not only empty ones (main.py:33).
- Any exception raised while processing a message is nacked, not only a
  decode failure (main.py:204-214). For example, a payload that decodes to
  something other than an object makes `get_table_from_message` (main.py:33)
  or `transform_message` (main.py:47) raise.
- `messages_processed` counts rows handed to the loader, whether or not the
  write succeeded (main.py:198, 224).

## Model

| member | source | states |
|---|---|---|
| Json.Lookup | main.py:33 | `field in message` fails exactly when no field has that key; otherwise the value is one bound to the key |
| Json.Serialize | main.py:60-63 | `json.dumps` output (ensure_ascii) is printable ASCII |
| Json.PyStr | main.py:35 | `str()` of a string is the string itself |
| Router.ReplaceNonAlnum | main.py:35 | same length; each alphanumeric character is kept and every other character becomes `_` |
| Router.Lower | main.py:35 | same length; each character is lower-cased |
| Router.Normalize | main.py:35 | the cleaned name has the input's length; each character is the lower-cased alphanumeric or `_`; for ASCII text (the model's `isalnum`), every character is in `[a-z0-9_]` |
| Router.NormalizeIdempotent | main.py:35 | cleaning a cleaned name changes nothing |
| Router.RouteFrom | main.py:32-39 | the candidate loop always returns a non-empty name, in `[a-z0-9_]` for ASCII text |
| Router.Route | main.py:29-39 | the routed table is never empty, and for ASCII text it is in `[a-z0-9_]` |
| Router.RouteFromFirst | main.py:32-36 | the result is the cleaned `str()` of the first candidate whose value is present and truthy |
| Router.RouteFromDefault | main.py:32-39 | when no candidate is present with a truthy value, the result is `default_table` |
| Router.RouteChoice | main.py:32-39 | EntityType wins over Table, and Table over TableName; a falsy or missing field is skipped; with none, `default_table` |
| Router.RouteOrderExample | main.py:32-36 | `{"EntityType": "Order", ...}` routes to `order` |
| Router.RouteFalsyExample | main.py:33-39 | `""`, `0` and `null` in all three fields route to `default_table` |
| Router.RouteCleanExample | main.py:35 | `"A b-C"` routes to `a_b_c` |
| Transformer.Cell | main.py:57-60 | a nested value is stored as itself when scalar, otherwise as its JSON text; either way as a scalar |
| Transformer.NestedWrites | main.py:56-60 | one assignment per nested field |
| Transformer.FieldWrites | main.py:47-63 | reference definition: the assignments one top-level field makes: none for a routing field, the value itself for a scalar, one per nested field for an object, the json.dumps text otherwise (an array) |
| Transformer.Transform | main.py:41-68 | reference definition of `transform_message`: the message's column assignments applied in order to an empty row, then `processing_timestamp` set to the clock |
| Transformer.TransformMessage | main.py:41-68 | the loops build exactly `Transform(message, now)`: the fold of the assignments, then the timestamp |
| Transformer.FlattenInto | main.py:56-60 | the nested loop performs exactly the object's `outer_inner` assignments, in order, on top of the earlier ones |
| Transformer.ApplyKeys | main.py:47-63 | a column exists exactly when some assignment wrote it |
| Transformer.ApplyLastValue | main.py:47-63 | a column holds the value of the last assignment to it |
| Transformer.ApplyLastWriteWins | main.py:47-63 | a column exists exactly when some assignment wrote it, and it holds the last such assignment's value |
| Transformer.WritesShape | main.py:47-63 | no assignment writes a routing field or a container |
| Transformer.NestedWritesShape | main.py:56-60 | the i-th nested field is written as `outer_inner` with its cell value, never under a routing-field name |
| Transformer.TransformShape | main.py:47-66 | the row has no routing field and no container value, and always holds `processing_timestamp` set to the supplied clock |
| Transformer.TransformColumns | main.py:44-66 | the row's columns are the timestamp plus the written keys; each other column holds its last assignment's value |
| Transformer.FlattenExample | main.py:54-66 | `{"Data": {"x": 1, "y": "a"}}` becomes exactly `Data_x = 1`, `Data_y = "a"` and the timestamp |
| Transformer.NestedContainerSerialized | main.py:59-60 | for a message whose one field is a one-field object holding a container, the `outer_inner` column holds the container's `json.dumps` text (in general a later assignment to the same column replaces it, see CollisionExample) |
| Transformer.TimestampWins | main.py:66 | an input `processing_timestamp` field is overwritten by the clock |
| Transformer.CollisionExample | main.py:53-58 | a top-level `a_b` and a flattened `a`/`b` share a column, and the later assignment wins |
| Loader.InsertErrors | main.py:115-116 | one `"Error: ..."` entry per insert error, in order |
| Loader.WriteToBigQuery | main.py:70-125 | empty rows are a no-op, even without a client; a missing client gives exactly `["BigQuery client not initialized"]`; the load path is taken iff the table is missing, and streaming iff it exists; a successful load reports nothing; one `"Error: ..."` per insert error; any exception gives exactly one error |
| Loader.WriteSucceeds | main.py:70-125 | a write reports no error iff the rows are empty, or the path it took raised nothing and returned no row errors |
| Loader.MissingTableLoadsOnly | main.py:92-111 | for a missing table, the outcome does not depend on what the streaming insert would do |
| Driver.Classify | main.py:175-183 | reference definition: a delivery is processed when its payload decoded to a JSON object, giving its table and row; otherwise processing raises |
| Driver.ClassifyCases | main.py:175-214 | processed exactly when the payload decoded to an object (else the `except` path runs), and then the table is a non-empty name over `[a-z0-9_]` |
| Driver.Step | main.py:175-214 | reference definition: one iteration on a fetched delivery is Advance with Classify's table and row, or with its processing error |
| Driver.Advance | main.py:185-214 | reference definition of one loop iteration: nack and error, or buffer the row, write a full buffer, then ack |
| Driver.Run | main.py:163-214 | reference definition of the fetch loop: one iteration per fetched delivery, from empty buffers |
| Driver.Process | main.py:159-224 | reference definition of the whole run: the fetch loop over the fetched prefix, then the final loop over the buffer's tables |
| Driver.Drain | main.py:216-224 | the final loop leaves the buffers and their order as they were |
| Driver.FlushRemaining | main.py:217-224 | writing a table's leftovers leaves the buffers and their order as they were |
| Driver.FetchCount | main.py:163-173 | at most `max_messages` fetches, none when it is not positive; fewer only when the queue runs dry |
| Driver.ExpectedResponses | main.py:202-214 | one expected ack or nack per delivery |
| Driver.ProcessMessages | main.py:159-224 | the fetch loop and the final loop return `Process`'s result and event log |
| Driver.FetchMessages | main.py:160-214 | the fetch loop ends in the state `Run` gives for the fetched messages |
| Driver.BufferRow | main.py:185-202 | buffering a processed message, writing a full buffer and acking is `Advance` with that table and row |
| Driver.FlushBuffers | main.py:216-224 | the final loop ends in the state `Drain` gives |
| Driver.ProcessRabbitmqMessages | main.py:159-224 | the same, with the source's batch size of 100 |
| Driver.StepFailure | main.py:204-214 | a message that raises is nacked with requeue, appends exactly one error, and changes no buffer, counter or table set |
| Driver.AdvanceProcessed | main.py:185-202 | a buffer reaching the threshold is written with exactly its rows in arrival order, before the ack, and then emptied; it counts those rows and adds the table. Below the threshold the row is only buffered and acked. Other tables' buffers never change |
| Driver.StepBuffersRow | main.py:175-202 | a message that decodes to an object adds its transformed row to its routed table's rows, written or still buffered, adds nothing to any other table, and is acked |
| Driver.AdvanceResponses | main.py:202-214 | every iteration sends exactly one response: an ack when the message was processed, a nack with its error otherwise |
| Driver.AdvanceBound | main.py:186-199 | one iteration keeps every buffer below the threshold |
| Driver.AdvanceOrder | main.py:186-188 | the buffer's keys stay listed once each; a table seen for the first time is appended at the end, and otherwise the order is unchanged |
| Driver.AdvanceTables | main.py:197-199 | a table counts as updated only once it has a buffer, and an emptied buffer belongs to an updated table |
| Driver.AdvanceConservation | main.py:186-199 | the rows written plus the rows buffered for each table grow by exactly the message's row |
| Driver.BookkeptResponse | main.py:202-214 | an ack, or a nack with its error recorded, keeps the error list equal to the log's errors and adds exactly that response |
| Driver.BookkeptWrite | main.py:192-202 | a write that got the next warehouse answer, followed by its ack, keeps the error list, write counter and answer order consistent with the log and adds exactly the ack |
| Driver.AdvanceBookkeeping | main.py:192-214 | one iteration sends exactly one ack or nack; the error list stays the nacks' errors plus the writes' reports; each write got the next warehouse answer and held between 1 and `threshold` rows |
| Driver.AdvanceCount | main.py:189-199 | processed plus buffered rows grow by one exactly when the message was processed |
| Driver.RunInvariant | main.py:163-214 | after every fetch-loop iteration: the bounds, key order, conservation, acks, bookkeeping and counts above hold, relative to the deliveries fetched so far |
| Driver.RunBufferBound | main.py:186-199 | after every iteration each buffer holds fewer than `threshold` rows |
| Driver.RunOrder | main.py:186-188 | the buffer's keys are exactly the tables the processed messages were routed to, each listed once |
| Driver.ArrivalOrder | main.py:186-188 | reference definition: the routed tables in the order their first processed message arrived |
| Driver.RunArrivalOrder | main.py:186-188 | the fetch loop lists the buffer's tables in first-arrival order, the order the final loop then writes them in |
| Driver.ArrivalOrderTables | main.py:186-188 | the arrival order lists every routed table exactly once |
| Driver.FlushRemainingLog | main.py:217-221 | writing a table's leftovers sends no ack or nack and keeps the error list, write counter and answer order consistent with the log |
| Driver.FlushRemainingRows | main.py:217-224 | writing leftovers adds exactly those rows to that table's writes and no other table's, counts them, and marks the table only when there were leftovers |
| Driver.DrainLog | main.py:216-221 | the final loop sends no ack or nack, and keeps the error list, write counter, warehouse answers and write sizes consistent with the log |
| Driver.DrainRows | main.py:216-221 | after the final loop's first n tables, each of those tables has additionally received its leftovers, and no other table anything |
| Driver.DrainCounts | main.py:216-224 | the final loop counts every leftover row and marks each table that had leftovers |
| Driver.ExpectedResponsesIndex | main.py:163-214 | the i-th expected response is the i-th delivery's |
| Driver.ProcessFacts | main.py:159-224 | the whole-run facts below, together |
| Driver.DrainedLog | main.py:163-221 | after the loop and the final flush, the bookkeeping holds and the responses are those the deliveries call for, in order |
| Driver.DrainedRows | main.py:186-221 | after the loop and the final flush, each table has received exactly the rows routed to it |
| Driver.DrainedCounts | main.py:197-224 | after the loop and the final flush, the counters match the processed messages and their tables |
| Driver.ProcessResponses | main.py:163-214 | every fetched message gets exactly one response, in fetch order: an ack if processed, otherwise a nack with its error |
| Driver.ProcessWrites | main.py:186-224 | after the final loop, each table received exactly the rows routed to it, in arrival order; every write held 1 to `threshold` rows and reported what the loader reports; the errors are the nacks' and writes' errors, in order |
| Driver.ProcessCounts | main.py:197-224 | `messages_processed` is the number of processed messages, and `tables_updated` is the set of their tables, whatever the loader reported |
| Driver.ThreeProcessed | main.py:186-189 | three processed deliveries: count, tables and per-table rows |
| Driver.ThreeTables | main.py:186-189 | three processed deliveries count three and touch exactly their three tables |
| Driver.ThreeRows | main.py:186-189 | each table's routed rows are the rows of those of the three deliveries routed to it, in order |
| Driver.ThreeAcked | main.py:202 | three processed deliveries are acked in order |
| Router.RouteTableExample | main.py:32-36 | `{"Table": "Refund", "id": 3}` routes to `refund` |
| Driver.ScenarioDeliveries | main.py:177-183 | the three messages of the worked run route to `order`, `order` and `refund` |
| Driver.ScenarioProcess | main.py:159-224 | batch size 2, two messages for table `a` then one for table `b`: the log is exactly ack 1, one write of both `a` rows (first warehouse answer), ack 2, ack 3, then the final loop's write of the `b` row (second answer); 3 processed, tables `{a, b}`, errors of the two writes in order |
| Driver.ScenarioExample | main.py:159-224 | batch size 2, with two `Order` messages and one `Refund`: the log is exactly ack 1, one write of both `order` rows, ack 2, ack 3, and the final loop's write of the `refund` row; `messages_processed = 3`, `tables_updated = {order, refund}`, and the errors are the two writes' errors |
| Driver.ScenarioViews | main.py:159-224 | in the same run the responses are ack 1, 2, 3, `order` receives both of its rows in order and `refund` its one row |

## Left out

- Floating-point numbers are not modelled. JSON numbers are integers, and `time.time()` is an integer clock reading per delivery.
- Router.IsAlnum: `str.isalnum` and `str.lower` are restricted to ASCII. Non-ASCII letters and digits become `_`, and case mapping that changes length is not modelled.
- Router.Normalize: the `[a-z0-9_]` alphabet of its result, and so of Router.RouteFrom and Router.Route, follows from the ASCII restriction. The program keeps non-ASCII letters: `{"EntityType": "Café"}` routes to `café`, where the model gives `caf_`.
- Lone surrogates are not modelled: a Dafny `char` cannot hold one, while `json.loads` produces one from the text `"\ud800"`. The program would clean such a character to `_` when routing (main.py:35) and write it as `\ud800` in `json.dumps` (main.py:60, 63); the model has no such payloads.
- Json.PyRepr: `repr` of a string escapes only backslash, the chosen quote, `\n`, `\r` and `\t`. Python's `\x..`/`\u..` escapes of other non-printable characters are not modelled.
- Driver.ProcessingError: the traceback appended to a processing error (main.py:206) is not modelled. For a payload that decodes to something other than an object, the TypeError/AttributeError text is replaced by the fixed text "message is not a JSON object".
- Loader.WriteFailure: the traceback appended to a write error is not modelled.
- `json.loads` is not modelled. Each delivery carries its decoded value or the decode error's text. Objects are taken to have distinct keys, as `json.loads` produces (it keeps the last value of a repeated key). An `Obj` value with a repeated key is not excluded: on one, `Json.Lookup` (and so routing) sees the first binding while `Transformer.Transform` keeps the last, so the model does not match the program for such values.
- RabbitMQ connection setup, SSL and credentials (main.py:137-157) and `connection.close()` (main.py:227) are network I/O.
- The connection-failure catch-all (main.py:230-233) is not modelled. Neither is `basic_ack`/`basic_nack` raising: acks and nacks are log events that always succeed.
- The BigQuery client (`get_table`, `load_table_from_file`, `job.result`, `insert_rows_json`) and its module-level initialisation (main.py:21-27) are foreign calls. They are the `Warehouse` oracle.
- The dataset-qualified table reference and the newline-delimited JSON built for the load job (main.py:81, 94-101) are not modelled, because only the oracle consumes them.
- Printing, `duration_seconds` and `messages_per_second` are not modelled. Neither is the HTTP entrypoint with its environment configuration (main.py:12-19, 239 onward).
- `tables_updated` is a set. The conversion to a list (main.py:236) is not modelled, because its order is unspecified.
- A row is a map, so its column insertion order is not kept.
