/** The pipeline driver: the fetch / buffer / flush / acknowledge loop of
    `process_rabbitmq_messages`, over an abstract queue and warehouse. */
module Driver {
  import opened Json
  import Router
  import opened Transformer
  import opened Loader

  /** The flush threshold written in the source. */
  const BatchSize: nat := 100

  /** A payload after `json.loads(body.decode('utf-8'))`: a value, or the
      text of the decoding exception. */
  datatype Body = Decoded(value: Json) | Undecodable(reason: string)

  /** A fetched message: its delivery tag, its decoded payload, and the clock
      reading taken when it is transformed. */
  datatype Delivery = Delivery(tag: nat, body: Body, clock: int)

  /** What the driver does to the outside world, in order. */
  datatype Event =
    | Ack(tag: nat)                                            // basic_ack
    | Nack(tag: nat, error: string)                            // basic_nack with requeue, and the error recorded
    | Load(table: string, rows: seq<Row>, report: LoadReport)  // write_to_bigquery and what it returned

  /** The warehouse as the driver meets it: whether the client was
      initialised, and the answers for the k-th write. */
  datatype Warehouse = Warehouse(clientPresent: bool, answer: nat -> Answer)

  /** The driver's variables: `message_buffer` (its keys in insertion order
      and its lists), the three fields of `results`, the event log, and the
      number of writes so far (which indexes the warehouse's answers). */
  datatype State = State(
    order: seq<string>,
    buffer: map<string, seq<Row>>,
    processed: nat,
    tablesUpdated: set<string>,
    errors: seq<string>,
    log: seq<Event>,
    calls: nat)

  /** The returned `results`, without the wall-clock fields. */
  datatype ProcessingResult = ProcessingResult(messagesProcessed: nat, tablesUpdated: set<string>, errors: seq<string>)

  const Start: State := State([], map[], 0, {}, [], [], 0)

  function Summary(s: State): ProcessingResult {
    ProcessingResult(s.processed, s.tablesUpdated, s.errors)
  }

  /** The table and row a delivery contributes, or None when processing it
      raises: the payload did not decode, or it is not a JSON object (then
      `get_table_from_message` or `transform_message` raises). */
  function Classify(d: Delivery): Option<(string, Row)> {
    match d.body
    case Decoded(Obj(fields)) => Some((Router.Route(fields), Transform(fields, d.clock)))
    case _ => None
  }

  /** A delivery is processed exactly when its payload decoded to a JSON
      object, and then its table is a non-empty name over `[a-z0-9_]`. */
  lemma ClassifyCases(d: Delivery)
    ensures Classify(d).Some? <==> d.body.Decoded? && d.body.value.Obj?
    ensures Classify(d).Some? ==> Router.IsTableName(Classify(d).value.0) && Classify(d).value.0 != []
  {
  }

  function ProcessingError(d: Delivery): string {
    "Error processing message: " +
      match d.body
      case Undecodable(reason) => reason
      case Decoded(_) => "message is not a JSON object"
  }

  function Buffered(s: State, t: string): seq<Row> {
    if t in s.buffer then s.buffer[t] else []
  }

  /** One iteration of the fetch loop, given what processing the message
      gave: its table and row, or None when it raised with `error`. */
  function Advance(s: State, tag: nat, c: Option<(string, Row)>, error: string, threshold: nat, wh: Warehouse): State {
    match c
    case None =>
      s.(errors := s.errors + [error], log := s.log + [Nack(tag, error)])
    case Some((t, row)) =>
      var order := if t in s.buffer then s.order else s.order + [t];
      var rows := Buffered(s, t) + [row];
      if |rows| >= threshold then
        var report := WriteToBigQuery(t, rows, wh.clientPresent, wh.answer(s.calls));
        State(order, s.buffer[t := []], s.processed + |rows|, s.tablesUpdated + {t},
              s.errors + report.errors, s.log + [Load(t, rows, report), Ack(tag)], s.calls + 1)
      else
        s.(order := order, buffer := s.buffer[t := rows], log := s.log + [Ack(tag)])
  }

  /** One iteration of the fetch loop for a fetched delivery. */
  function Step(s: State, d: Delivery, threshold: nat, wh: Warehouse): State {
    Advance(s, d.tag, Classify(d), ProcessingError(d), threshold, wh)
  }

  /** The fetch loop over the deliveries `ds`, from the initial state. */
  function Run(ds: seq<Delivery>, threshold: nat, wh: Warehouse): State {
    if ds == [] then Start
    else Step(Run(ds[..|ds| - 1], threshold, wh), ds[|ds| - 1], threshold, wh)
  }

  /** The final loop's body for table `t`: write what is left, if anything. */
  function FlushRemaining(s: State, t: string, wh: Warehouse): (r: State)
    ensures r.order == s.order && r.buffer == s.buffer
  {
    var rows := Buffered(s, t);
    if rows == [] then s
    else
      var report := WriteToBigQuery(t, rows, wh.clientPresent, wh.answer(s.calls));
      s.(processed := s.processed + |rows|, tablesUpdated := s.tablesUpdated + {t},
         errors := s.errors + report.errors, log := s.log + [Load(t, rows, report)], calls := s.calls + 1)
  }

  /** The final loop after its first `n` tables, in insertion order. It
      leaves the buffers themselves as they were. */
  function Drain(s: State, n: nat, wh: Warehouse): (r: State)
    requires n <= |s.order|
    ensures r.order == s.order && r.buffer == s.buffer
  {
    if n == 0 then s else FlushRemaining(Drain(s, n - 1, wh), s.order[n - 1], wh)
  }

  /** How many messages the loop fetches: at most `maxMessages`, and it
      stops at the first empty fetch. */
  function FetchCount(queue: seq<Delivery>, maxMessages: int): (n: nat)
    ensures n <= |queue|
    ensures maxMessages <= 0 ==> n == 0
    ensures maxMessages > 0 ==> n <= maxMessages && (n == |queue| || n == maxMessages)
  {
    if maxMessages <= 0 then 0
    else if maxMessages < |queue| then maxMessages
    else |queue|
  }

  /** `process_rabbitmq_messages(max_messages)` over the queue `queue`. */
  function Process(queue: seq<Delivery>, maxMessages: int, threshold: nat, wh: Warehouse): State {
    var s := Run(queue[..FetchCount(queue, maxMessages)], threshold, wh);
    Drain(s, |s.order|, wh)
  }

  // ---------------------------------------------------------------------
  // The driver as the source writes it
  // ---------------------------------------------------------------------

  lemma RunSnoc(queue: seq<Delivery>, i: nat, threshold: nat, wh: Warehouse)
    requires i < |queue|
    ensures Run(queue[..i + 1], threshold, wh) == Step(Run(queue[..i], threshold, wh), queue[i], threshold, wh)
  {
    assert queue[..i + 1][..i] == queue[..i];
  }

  /** The fetch loop and the final loop, with `threshold` for the batch size. */
  method ProcessMessages(queue: seq<Delivery>, maxMessages: int, threshold: nat, wh: Warehouse)
    returns (result: ProcessingResult, log: seq<Event>)
    ensures result == Summary(Process(queue, maxMessages, threshold, wh))
    ensures log == Process(queue, maxMessages, threshold, wh).log
  {
    var order, messageBuffer, processed, tablesUpdated, errors, calls;
    order, messageBuffer, processed, tablesUpdated, errors, log, calls := FetchMessages(queue, maxMessages, threshold, wh);
    RunOrder(queue[..FetchCount(queue, maxMessages)], threshold, wh);
    processed, tablesUpdated, errors, log, calls :=
      FlushBuffers(order, messageBuffer, processed, tablesUpdated, errors, log, calls, wh);
    result := ProcessingResult(processed, tablesUpdated, errors);
  }

  /** The fetch loop: at most `maxMessages` fetches, stopping when the queue
      is empty; each message is buffered and acked, or nacked with its error. */
  method FetchMessages(queue: seq<Delivery>, maxMessages: int, threshold: nat, wh: Warehouse)
    returns (order: seq<string>, messageBuffer: map<string, seq<Row>>, processed: nat, tablesUpdated: set<string>,
             errors: seq<string>, log: seq<Event>, calls: nat)
    ensures State(order, messageBuffer, processed, tablesUpdated, errors, log, calls)
         == Run(queue[..FetchCount(queue, maxMessages)], threshold, wh)
  {
    messageBuffer := map[];
    order := [];
    processed := 0;
    tablesUpdated := {};
    errors := [];
    calls := 0;
    log := [];

    var i := 0;
    while i < maxMessages
      invariant 0 <= i <= |queue|
      invariant i <= maxMessages || i == 0
      invariant State(order, messageBuffer, processed, tablesUpdated, errors, log, calls) == Run(queue[..i], threshold, wh)
    {
      if i >= |queue| {
        break;  // basic_get found the queue empty
      }
      var d := queue[i];
      RunSnoc(queue, i, threshold, wh);
      ghost var before := State(order, messageBuffer, processed, tablesUpdated, errors, log, calls);
      if d.body.Decoded? && d.body.value.Obj? {
        var message := d.body.value.fields;
        var table := Router.Route(message);
        var transformed := TransformMessage(message, d.clock);
        StepProcessed(before, d, threshold, wh);
        order, messageBuffer, processed, tablesUpdated, errors, log, calls :=
          BufferRow(order, messageBuffer, processed, tablesUpdated, errors, log, calls, d.tag, table, transformed, threshold, wh);
      } else {
        var error := ProcessingError(d);
        errors := errors + [error];
        log := log + [Nack(d.tag, error)];
        assert Classify(d) == None;
      }
      i := i + 1;
    }
    assert i == FetchCount(queue, maxMessages);
  }

  /** The body of the fetch loop for a message that was processed: buffer
      its row, write the buffer once it reaches the threshold, then ack. */
  method BufferRow(order0: seq<string>, messageBuffer0: map<string, seq<Row>>, processed0: nat,
                   tablesUpdated0: set<string>, errors0: seq<string>, log0: seq<Event>, calls0: nat,
                   tag: nat, table: string, transformed: Row, threshold: nat, wh: Warehouse)
    returns (order: seq<string>, messageBuffer: map<string, seq<Row>>, processed: nat, tablesUpdated: set<string>,
             errors: seq<string>, log: seq<Event>, calls: nat)
    ensures State(order, messageBuffer, processed, tablesUpdated, errors, log, calls)
         == Advance(State(order0, messageBuffer0, processed0, tablesUpdated0, errors0, log0, calls0),
                    tag, Some((table, transformed)), "", threshold, wh)
  {
    order, messageBuffer, processed, tablesUpdated, errors, log, calls :=
      order0, messageBuffer0, processed0, tablesUpdated0, errors0, log0, calls0;
    if table !in messageBuffer {
      messageBuffer := messageBuffer[table := []];
      order := order + [table];
    }
    messageBuffer := messageBuffer[table := messageBuffer[table] + [transformed]];
    if |messageBuffer[table]| >= threshold {
      var report := WriteToBigQuery(table, messageBuffer[table], wh.clientPresent, wh.answer(calls));
      calls := calls + 1;
      log := log + [Load(table, messageBuffer[table], report)];
      errors := errors + report.errors;
      tablesUpdated := tablesUpdated + {table};
      processed := processed + |messageBuffer[table]|;
      messageBuffer := messageBuffer[table := []];
    }
    log := log + [Ack(tag)];
  }

  /** The final loop: write what is left in each buffer, in insertion order. */
  method FlushBuffers(order: seq<string>, messageBuffer: map<string, seq<Row>>, processed0: nat,
                      tablesUpdated0: set<string>, errors0: seq<string>, log0: seq<Event>, calls0: nat, wh: Warehouse)
    returns (processed: nat, tablesUpdated: set<string>, errors: seq<string>, log: seq<Event>, calls: nat)
    requires forall t :: t in order ==> t in messageBuffer
    ensures var s := State(order, messageBuffer, processed0, tablesUpdated0, errors0, log0, calls0);
            State(order, messageBuffer, processed, tablesUpdated, errors, log, calls) == Drain(s, |order|, wh)
  {
    ghost var fetched := State(order, messageBuffer, processed0, tablesUpdated0, errors0, log0, calls0);
    processed, tablesUpdated, errors, log, calls := processed0, tablesUpdated0, errors0, log0, calls0;
    var k := 0;
    while k < |order|
      invariant 0 <= k <= |order|
      invariant State(order, messageBuffer, processed, tablesUpdated, errors, log, calls) == Drain(fetched, k, wh)
    {
      var table := order[k];
      var rows := messageBuffer[table];
      if rows != [] {
        var report := WriteToBigQuery(table, rows, wh.clientPresent, wh.answer(calls));
        calls := calls + 1;
        log := log + [Load(table, rows, report)];
        errors := errors + report.errors;
        tablesUpdated := tablesUpdated + {table};
        processed := processed + |rows|;
      }
      k := k + 1;
    }
  }

  /** `process_rabbitmq_messages` with the batch size of the source. */
  method ProcessRabbitmqMessages(queue: seq<Delivery>, maxMessages: int, wh: Warehouse)
    returns (result: ProcessingResult, log: seq<Event>)
    ensures result == Summary(Process(queue, maxMessages, BatchSize, wh))
    ensures log == Process(queue, maxMessages, BatchSize, wh).log
  {
    result, log := ProcessMessages(queue, maxMessages, BatchSize, wh);
  }

  // ---------------------------------------------------------------------
  // Views of a run
  // ---------------------------------------------------------------------

  predicate Distinct(s: seq<string>) {
    forall i, j :: 0 <= i < j < |s| ==> s[i] != s[j]
  }

  /** The response a delivery should get: an ack when it was processed, a
      nack carrying its error otherwise. */
  function Response(d: Delivery): Event {
    if Classify(d).Some? then Ack(d.tag) else Nack(d.tag, ProcessingError(d))
  }

  /** The acks and nacks of a log, in order. */
  function Responses(log: seq<Event>): seq<Event> {
    if log == [] then []
    else Responses(log[..|log| - 1]) + (if log[|log| - 1].Load? then [] else [log[|log| - 1]])
  }

  /** The writes of a log, in order. */
  function Loads(log: seq<Event>): seq<Event> {
    if log == [] then []
    else Loads(log[..|log| - 1]) + (if log[|log| - 1].Load? then [log[|log| - 1]] else [])
  }

  /** All rows written to table `t`, in the order written. */
  function LoadedRows(log: seq<Event>, t: string): seq<Row> {
    if log == [] then []
    else
      var e := log[|log| - 1];
      LoadedRows(log[..|log| - 1], t) + (if e.Load? && e.table == t then e.rows else [])
  }

  /** The errors a log accounts for: one per nack, and each write's report. */
  function ErrorsOf(log: seq<Event>): seq<string> {
    if log == [] then []
    else
      var e := log[|log| - 1];
      ErrorsOf(log[..|log| - 1]) + match e
        case Ack(_) => []
        case Nack(_, error) => [error]
        case Load(_, _, report) => report.errors
  }

  /** The rows of the processed deliveries among `ds` routed to `t`, in arrival order. */
  function RoutedRows(ds: seq<Delivery>, t: string): seq<Row> {
    if ds == [] then []
    else
      var c := Classify(ds[|ds| - 1]);
      RoutedRows(ds[..|ds| - 1], t) + (if c.Some? && c.value.0 == t then [c.value.1] else [])
  }

  /** The tables the processed deliveries among `ds` are routed to. */
  function RoutedTables(ds: seq<Delivery>): set<string> {
    if ds == [] then {}
    else
      var c := Classify(ds[|ds| - 1]);
      RoutedTables(ds[..|ds| - 1]) + (if c.Some? then {c.value.0} else {})
  }

  /** The tables the processed deliveries among `ds` are routed to, each
      listed once, in the order of the first delivery routed to it. */
  function ArrivalOrder(ds: seq<Delivery>): seq<string> {
    if ds == [] then []
    else
      var init, c := ArrivalOrder(ds[..|ds| - 1]), Classify(ds[|ds| - 1]);
      if c.Some? && c.value.0 !in init then init + [c.value.0] else init
  }

  /** How many deliveries among `ds` were processed. */
  function Successes(ds: seq<Delivery>): nat {
    if ds == [] then 0
    else Successes(ds[..|ds| - 1]) + (if Classify(ds[|ds| - 1]).Some? then 1 else 0)
  }

  /** How many rows the buffers of the tables in `order` hold. */
  function BufferedCount(order: seq<string>, s: State): nat {
    if order == [] then 0
    else BufferedCount(order[..|order| - 1], s) + |Buffered(s, order[|order| - 1])|
  }

  /** Every write in the log got the k-th answer of the warehouse and
      reported what `write_to_bigquery` reports for it. */
  predicate LoadsAgree(log: seq<Event>, wh: Warehouse) {
    var loads := Loads(log);
    forall k :: 0 <= k < |loads| ==>
      loads[k].Load? &&
      loads[k].report == WriteToBigQuery(loads[k].table, loads[k].rows, wh.clientPresent, wh.answer(k))
  }


  /** Every buffer holds fewer rows than the threshold. */
  predicate Bounded(s: State, threshold: nat) {
    forall t :: t in s.buffer ==> |s.buffer[t]| < threshold
  }

  /** The buffer's keys are recorded once each in `order`. */
  predicate WellOrdered(s: State) {
    Distinct(s.order) && (forall t :: t in s.buffer ==> t in s.order) && (forall t :: t in s.order ==> t in s.buffer)
  }

  /** A table is reported as updated only once it has a buffer, and a
      buffer that was emptied belongs to a table reported as updated. */
  predicate TablesTracked(s: State) {
    (forall t :: t in s.tablesUpdated ==> t in s.buffer) &&
    (forall t :: t in s.buffer && s.buffer[t] == [] ==> t in s.tablesUpdated)
  }

  /** Every write carried between one row and `threshold` rows. */
  predicate LoadSizes(log: seq<Event>, threshold: nat) {
    forall e :: e in Loads(log) ==> e.Load? && 0 < |e.rows| <= threshold
  }

  /** The error list and the write counter agree with the log. */
  predicate Bookkept(s: State, threshold: nat, wh: Warehouse) {
    s.errors == ErrorsOf(s.log) && s.calls == |Loads(s.log)| &&
    LoadsAgree(s.log, wh) && LoadSizes(s.log, threshold)
  }

  /** The acks and nacks the deliveries `ds` should get, in order. */
  function ExpectedResponses(ds: seq<Delivery>): (r: seq<Event>)
    ensures |r| == |ds|
  {
    if ds == [] then [] else ExpectedResponses(ds[..|ds| - 1]) + [Response(ds[|ds| - 1])]
  }

  // ---------------------------------------------------------------------
  // Properties of one iteration
  // ---------------------------------------------------------------------

  /** The views of a log that grows by one event. */
  lemma LogSnoc(log: seq<Event>, e: Event)
    ensures Responses(log + [e]) == Responses(log) + (if e.Load? then [] else [e])
    ensures Loads(log + [e]) == Loads(log) + (if e.Load? then [e] else [])
    ensures forall t :: LoadedRows(log + [e], t) == LoadedRows(log, t) + (if e.Load? && e.table == t then e.rows else [])
    ensures ErrorsOf(log + [e]) == ErrorsOf(log) + match e
              case Ack(_) => []
              case Nack(_, error) => [error]
              case Load(_, _, report) => report.errors
  {
    assert (log + [e])[..|log|] == log;
  }

  /** The views of a log that grows by a write and then an ack. */
  lemma LogSnoc2(log: seq<Event>, load: Event, ack: Event)
    requires load.Load? && ack.Ack?
    ensures Responses(log + [load, ack]) == Responses(log) + [ack]
    ensures Loads(log + [load, ack]) == Loads(log) + [load]
    ensures forall t :: LoadedRows(log + [load, ack], t) == LoadedRows(log, t) + (if load.table == t then load.rows else [])
    ensures ErrorsOf(log + [load, ack]) == ErrorsOf(log) + load.report.errors
  {
    LogSnoc(log, load);
    LogSnoc(log + [load], ack);
    assert log + [load] + [ack] == log + [load, ack];
  }


  /** A delivery that cannot be processed is nacked, records exactly one
      error, and leaves the buffers and counters as they were. */
  lemma StepFailure(s: State, d: Delivery, threshold: nat, wh: Warehouse)
    requires Classify(d).None?
    ensures var s' := Step(s, d, threshold, wh);
            s'.order == s.order && s'.buffer == s.buffer && s'.processed == s.processed &&
            s'.tablesUpdated == s.tablesUpdated && s'.calls == s.calls &&
            s'.errors == s.errors + [ProcessingError(d)] && s'.log == s.log + [Nack(d.tag, ProcessingError(d))]
  {
  }

  /** A processed message that fills its table's buffer to the threshold
      causes a write of exactly those rows, in arrival order, before its ack,
      and that buffer is emptied; below the threshold the row is only
      buffered and acked. Other tables' buffers are untouched either way. */
  lemma AdvanceProcessed(s: State, tag: nat, t: string, row: Row, error: string, threshold: nat, wh: Warehouse)
    requires threshold > 0 && Bounded(s, threshold)
    ensures var s' := Advance(s, tag, Some((t, row)), error, threshold, wh);
            var rows := Buffered(s, t) + [row];
            (|rows| == threshold ==>
               s'.buffer == s.buffer[t := []] &&
               s'.log == s.log + [Load(t, rows, WriteToBigQuery(t, rows, wh.clientPresent, wh.answer(s.calls))), Ack(tag)] &&
               s'.processed == s.processed + threshold && s'.tablesUpdated == s.tablesUpdated + {t}) &&
            (|rows| < threshold ==>
               s'.buffer == s.buffer[t := rows] && s'.log == s.log + [Ack(tag)] &&
               s'.processed == s.processed && s'.tablesUpdated == s.tablesUpdated && s'.errors == s.errors) &&
            (forall u :: u != t ==> Buffered(s', u) == Buffered(s, u))
  {
    assert |Buffered(s, t)| < threshold;
  }

  /** `Step` on a processed message is `Advance` with its table and row:
      `Step` unfolded once, kept so that callers need not unfold `Classify`. */
  lemma StepProcessed(s: State, d: Delivery, threshold: nat, wh: Warehouse)
    requires d.body.Decoded? && d.body.value.Obj?
    ensures Step(s, d, threshold, wh)
         == Advance(s, d.tag, Some((Router.Route(d.body.value.fields), Transform(d.body.value.fields, d.clock))), ProcessingError(d), threshold, wh)
  {
  }

  /** A message that decodes to an object adds its transformed row to the
      rows of its routed table, written or still buffered, and to no other
      table's; and it is acked. */
  lemma StepBuffersRow(s: State, d: Delivery, threshold: nat, wh: Warehouse)
    requires d.body.Decoded? && d.body.value.Obj?
    ensures var s' := Step(s, d, threshold, wh);
            var t, row := Router.Route(d.body.value.fields), Transform(d.body.value.fields, d.clock);
            (forall u :: LoadedRows(s'.log, u) + Buffered(s', u)
                      == LoadedRows(s.log, u) + Buffered(s, u) + (if u == t then [row] else [])) &&
            Responses(s'.log) == Responses(s.log) + [Ack(d.tag)]
  {
    var c := Some((Router.Route(d.body.value.fields), Transform(d.body.value.fields, d.clock)));
    StepProcessed(s, d, threshold, wh);
    AdvanceConservation(s, d.tag, c, ProcessingError(d), threshold, wh, u => LoadedRows(s.log, u) + Buffered(s, u));
    AdvanceResponses(s, d.tag, c, ProcessingError(d), threshold, wh);
  }

  /** Every iteration sends exactly one response: an ack when the message
      was processed, a nack carrying its error otherwise. */
  lemma AdvanceResponses(s: State, tag: nat, c: Option<(string, Row)>, error: string, threshold: nat, wh: Warehouse)
    ensures Responses(Advance(s, tag, c, error, threshold, wh).log)
         == Responses(s.log) + [if c.Some? then Ack(tag) else Nack(tag, error)]
  {
    match c
    case None =>
      LogSnoc(s.log, Nack(tag, error));
    case Some((t, row)) =>
      var rows := Buffered(s, t) + [row];
      if |rows| >= threshold {
        LogSnoc2(s.log, Load(t, rows, WriteToBigQuery(t, rows, wh.clientPresent, wh.answer(s.calls))), Ack(tag));
      } else {
        LogSnoc(s.log, Ack(tag));
      }
  }

  lemma AdvanceBound(s: State, tag: nat, c: Option<(string, Row)>, error: string, threshold: nat, wh: Warehouse)
    requires threshold > 0 && Bounded(s, threshold)
    ensures Bounded(Advance(s, tag, c, error, threshold, wh), threshold)
  {
    if c.Some? {
      AdvanceProcessed(s, tag, c.value.0, c.value.1, error, threshold, wh);
    }
  }

  lemma AdvanceOrder(s: State, tag: nat, c: Option<(string, Row)>, error: string, threshold: nat, wh: Warehouse)
    requires WellOrdered(s)
    ensures var s' := Advance(s, tag, c, error, threshold, wh);
            WellOrdered(s') && (forall t :: t in s'.order <==> t in s.order || (c.Some? && c.value.0 == t))
    ensures Advance(s, tag, c, error, threshold, wh).order ==
            if c.Some? && c.value.0 !in s.buffer then s.order + [c.value.0] else s.order
  {
    AdvanceKeys(s, tag, c, error, threshold, wh);
  }

  /** The first half of AdvanceOrder alone, for the invariant proofs: the
      exact order clause makes those proofs far slower. */
  lemma AdvanceKeys(s: State, tag: nat, c: Option<(string, Row)>, error: string, threshold: nat, wh: Warehouse)
    requires WellOrdered(s)
    ensures var s' := Advance(s, tag, c, error, threshold, wh);
            WellOrdered(s') && (forall t :: t in s'.order <==> t in s.order || (c.Some? && c.value.0 == t))
  {
    if c.Some? {
      var t := c.value.0;
      var s' := Advance(s, tag, c, error, threshold, wh);
      if t !in s.buffer {
        assert s'.order == s.order + [t];
      }
    }
  }

  lemma AdvanceTables(s: State, tag: nat, c: Option<(string, Row)>, error: string, threshold: nat, wh: Warehouse)
    requires TablesTracked(s)
    ensures TablesTracked(Advance(s, tag, c, error, threshold, wh))
  {
  }

  /** Rows are conserved when one table's buffer gains a row and the log
      gains an event that is not a write. */
  lemma ConserveBuffered(s: State, s': State, t: string, row: Row, e: Event, routed: string -> seq<Row>)
    requires forall u :: LoadedRows(s.log, u) + Buffered(s, u) == routed(u)
    requires s'.buffer == s.buffer[t := Buffered(s, t) + [row]] && s'.log == s.log + [e] && !e.Load?
    ensures forall u :: LoadedRows(s'.log, u) + Buffered(s', u) == routed(u) + (if t == u then [row] else [])
  {
    LogSnoc(s.log, e);
    forall u ensures LoadedRows(s'.log, u) + Buffered(s', u) == routed(u) + (if t == u then [row] else []) {
      if u != t {
        assert Buffered(s', u) == Buffered(s, u);
      }
    }
  }

  /** Rows are conserved when a table's buffer, with one more row, moves into
      a write. */
  lemma ConserveFlushed(s: State, s': State, t: string, row: Row, load: Event, ack: Event, routed: string -> seq<Row>)
    requires forall u :: LoadedRows(s.log, u) + Buffered(s, u) == routed(u)
    requires load.Load? && load.table == t && load.rows == Buffered(s, t) + [row] && ack.Ack?
    requires s'.buffer == s.buffer[t := []] && s'.log == s.log + [load, ack]
    ensures forall u :: LoadedRows(s'.log, u) + Buffered(s', u) == routed(u) + (if t == u then [row] else [])
  {
    LogSnoc2(s.log, load, ack);
    forall u ensures LoadedRows(s'.log, u) + Buffered(s', u) == routed(u) + (if t == u then [row] else []) {
      if u != t {
        assert Buffered(s', u) == Buffered(s, u);
        assert LoadedRows(s'.log, u) == LoadedRows(s.log, u);
      } else {
        var before, buffered := LoadedRows(s.log, t), Buffered(s, t);
        assert Buffered(s', t) == [];
        assert LoadedRows(s'.log, t) == before + (buffered + [row]);
        assert before + (buffered + [row]) + [] == (before + buffered) + [row];
      }
    }
  }

  /** One iteration moves the message's row, if any, into its table's
      buffer or, together with that buffer, into a write. */
  lemma AdvanceConservation(s: State, tag: nat, c: Option<(string, Row)>, error: string, threshold: nat, wh: Warehouse,
                            routed: string -> seq<Row>)
    requires forall t :: LoadedRows(s.log, t) + Buffered(s, t) == routed(t)
    ensures var s' := Advance(s, tag, c, error, threshold, wh);
            forall t :: LoadedRows(s'.log, t) + Buffered(s', t)
                     == routed(t) + (if c.Some? && c.value.0 == t then [c.value.1] else [])
  {
    var s' := Advance(s, tag, c, error, threshold, wh);
    if c.None? {
      LogSnoc(s.log, Nack(tag, error));
    } else {
      var t, row := c.value.0, c.value.1;
      var rows := Buffered(s, t) + [row];
      if |rows| >= threshold {
        var report := WriteToBigQuery(t, rows, wh.clientPresent, wh.answer(s.calls));
        ConserveFlushed(s, s', t, row, Load(t, rows, report), Ack(tag), routed);
      } else {
        ConserveBuffered(s, s', t, row, Ack(tag), routed);
      }
    }
  }

  /** One iteration answers the message with one ack or nack, and keeps the
      errors, the write counter and the writes in line with the log. */
  lemma AdvanceBookkeeping(s: State, tag: nat, c: Option<(string, Row)>, error: string, threshold: nat, wh: Warehouse)
    requires threshold > 0 && Bounded(s, threshold) && Bookkept(s, threshold, wh)
    ensures var s' := Advance(s, tag, c, error, threshold, wh);
            Bookkept(s', threshold, wh) &&
            Responses(s'.log) == Responses(s.log) + [if c.Some? then Ack(tag) else Nack(tag, error)]
  {
    var s' := Advance(s, tag, c, error, threshold, wh);
    match c
    case None =>
      BookkeptResponse(s, s', Nack(tag, error), threshold, wh);
    case Some((t, row)) =>
      var rows := Buffered(s, t) + [row];
      if |rows| >= threshold {
        var report := WriteToBigQuery(t, rows, wh.clientPresent, wh.answer(s.calls));
        assert |Buffered(s, t)| < threshold;
        BookkeptWrite(s, s', Load(t, rows, report), Ack(tag), threshold, wh);
      } else {
        BookkeptResponse(s, s', Ack(tag), threshold, wh);
      }
  }

  /** An ack or a nack appended to the log keeps the books. */
  lemma BookkeptResponse(s: State, s': State, e: Event, threshold: nat, wh: Warehouse)
    requires Bookkept(s, threshold, wh) && !e.Load?
    requires s'.log == s.log + [e] && s'.calls == s.calls
    requires s'.errors == s.errors + (if e.Nack? then [e.error] else [])
    ensures Bookkept(s', threshold, wh) && Responses(s'.log) == Responses(s.log) + [e]
  {
    LogSnoc(s.log, e);
  }

  /** A write with its ack appended to the log keeps the books when the
      write got the next answer of the warehouse and carried at most
      `threshold` rows. */
  lemma BookkeptWrite(s: State, s': State, load: Event, ack: Event, threshold: nat, wh: Warehouse)
    requires Bookkept(s, threshold, wh) && load.Load? && ack.Ack? && 0 < |load.rows| <= threshold
    requires load.report == WriteToBigQuery(load.table, load.rows, wh.clientPresent, wh.answer(s.calls))
    requires s'.log == s.log + [load, ack] && s'.calls == s.calls + 1
    requires s'.errors == s.errors + load.report.errors
    ensures Bookkept(s', threshold, wh) && Responses(s'.log) == Responses(s.log) + [ack]
  {
    LogSnoc2(s.log, load, ack);
    var loads := Loads(s.log);
    assert Loads(s'.log) == loads + [load];
    forall k | 0 <= k < |loads| + 1
      ensures (loads + [load])[k].Load? &&
              (loads + [load])[k].report == WriteToBigQuery((loads + [load])[k].table, (loads + [load])[k].rows, wh.clientPresent, wh.answer(k))
    {
      if k < |loads| {
        assert (loads + [load])[k] == loads[k];
      }
    }
  }

  /** Changing one table's buffer changes the buffered total by the
      difference, when that table is listed once, and not at all when it is
      not listed. */
  lemma {:induction false} BufferedCountFrame(order: seq<string>, s: State, s': State, t: string)
    requires forall u :: u != t ==> Buffered(s', u) == Buffered(s, u)
    ensures t !in order ==> BufferedCount(order, s') == BufferedCount(order, s)
    ensures t in order && Distinct(order) ==>
              BufferedCount(order, s') + |Buffered(s, t)| == BufferedCount(order, s) + |Buffered(s', t)|
  {
    if order != [] {
      var init := order[..|order| - 1];
      BufferedCountFrame(init, s, s', t);
      if t in order && Distinct(order) && order[|order| - 1] != t {
        assert t in init by {
          var i :| 0 <= i < |order| && order[i] == t;
          assert init[i] == t;
        }
      }
      if order[|order| - 1] == t && Distinct(order) {
        assert t !in init by {
          forall i | 0 <= i < |init| ensures init[i] != t {
            assert init[i] == order[i];
          }
        }
      }
    }
  }

  /** Putting `rows` in table `t`'s buffer, and counting `written` rows as
      processed, changes the processed-or-buffered total by the size
      difference. */
  lemma BufferUpdateCount(s: State, s': State, t: string, rows: seq<Row>, written: nat)
    requires WellOrdered(s)
    requires s'.buffer == s.buffer[t := rows]
    requires s'.order == if t in s.buffer then s.order else s.order + [t]
    requires s'.processed == s.processed + written
    ensures s'.processed + BufferedCount(s'.order, s') + |Buffered(s, t)|
         == s.processed + BufferedCount(s.order, s) + |rows| + written
  {
    assert Buffered(s', t) == rows;
    assert forall u :: u != t ==> Buffered(s', u) == Buffered(s, u) by {
      forall u | u != t ensures Buffered(s', u) == Buffered(s, u) {
      }
    }
    assert t in s.buffer <==> t in s.order;
    if t in s.buffer {
      BufferedCountFrame(s.order, s, s', t);
    } else {
      AppendedCount(s.order, s, s', t);
    }
  }

  /** The total over an order that gains the new table `t`. */
  lemma AppendedCount(order: seq<string>, s: State, s': State, t: string)
    requires t !in order && s'.order == order + [t]
    requires forall u :: u != t ==> Buffered(s', u) == Buffered(s, u)
    ensures BufferedCount(s'.order, s') == BufferedCount(order, s) + |Buffered(s', t)|
  {
    BufferedCountFrame(order, s, s', t);
    assert s'.order[..|order|] == order;
  }

  /** One iteration adds one to the rows that are processed or buffered
      exactly when the message was processed. */
  lemma AdvanceCount(s: State, tag: nat, c: Option<(string, Row)>, error: string, threshold: nat, wh: Warehouse)
    requires WellOrdered(s)
    ensures var s' := Advance(s, tag, c, error, threshold, wh);
            s'.processed + BufferedCount(s'.order, s') == s.processed + BufferedCount(s.order, s) + (if c.Some? then 1 else 0)
  {
    if c.Some? {
      var t := c.value.0;
      var rows := Buffered(s, t) + [c.value.1];
      var s' := Advance(s, tag, c, error, threshold, wh);
      assert |rows| == |Buffered(s, t)| + 1;
      if |rows| >= threshold {
        BufferUpdateCount(s, s', t, [], |rows|);
        assert s'.processed + BufferedCount(s'.order, s') == s.processed + BufferedCount(s.order, s) + 1;
      } else {
        BufferUpdateCount(s, s', t, rows, 0);
        assert s'.processed + BufferedCount(s'.order, s') == s.processed + BufferedCount(s.order, s) + 1;
      }
    } else {
      SameBuffersCount(s.order, s, Advance(s, tag, c, error, threshold, wh));
    }
  }

  lemma {:induction false} SameBuffersCount(order: seq<string>, s: State, s': State)
    requires s'.buffer == s.buffer
    ensures BufferedCount(order, s') == BufferedCount(order, s)
  {
    if order != [] {
      SameBuffersCount(order[..|order| - 1], s, s');
    }
  }

  // ---------------------------------------------------------------------
  // The fetch loop
  // ---------------------------------------------------------------------

  /** The views of a delivery sequence that grows by one delivery. */
  lemma DeliveriesLast(ds: seq<Delivery>)
    requires ds != []
    ensures var init, c := ds[..|ds| - 1], Classify(ds[|ds| - 1]);
            (forall t :: RoutedRows(ds, t) == RoutedRows(init, t) + (if c.Some? && c.value.0 == t then [c.value.1] else [])) &&
            RoutedTables(ds) == RoutedTables(init) + (if c.Some? then {c.value.0} else {}) &&
            Successes(ds) == Successes(init) + (if c.Some? then 1 else 0) &&
            ExpectedResponses(ds) == ExpectedResponses(init) + [Response(ds[|ds| - 1])]
  {
  }

  /** What holds after every iteration of the fetch loop: each buffer is
      below the threshold; the buffered tables are exactly the routed ones;
      rows are conserved per table, in arrival order; every fetched message
      got its one ack or nack; every processed message is counted or still
      buffered; and the errors and writes agree with the log. */
  lemma {:induction false} RunInvariant(ds: seq<Delivery>, threshold: nat, wh: Warehouse)
    requires threshold > 0
    ensures var s := Run(ds, threshold, wh);
            Bounded(s, threshold) && WellOrdered(s) && TablesTracked(s) && Bookkept(s, threshold, wh) &&
            (forall t :: t in s.order <==> t in RoutedTables(ds)) &&
            (forall t :: LoadedRows(s.log, t) + Buffered(s, t) == RoutedRows(ds, t)) &&
            Responses(s.log) == ExpectedResponses(ds) &&
            s.processed + BufferedCount(s.order, s) == Successes(ds)
  {
    if ds == [] {
      assert Loads([]) == [];
    } else {
      var init, d := ds[..|ds| - 1], ds[|ds| - 1];
      RunInvariant(init, threshold, wh);
      DeliveriesLast(ds);
      var s0 := Run(init, threshold, wh);
      var c := Classify(d);
      assert Run(ds, threshold, wh) == Advance(s0, d.tag, c, ProcessingError(d), threshold, wh);
      AdvanceBound(s0, d.tag, c, ProcessingError(d), threshold, wh);
      AdvanceKeys(s0, d.tag, c, ProcessingError(d), threshold, wh);
      AdvanceTables(s0, d.tag, c, ProcessingError(d), threshold, wh);
      AdvanceConservation(s0, d.tag, c, ProcessingError(d), threshold, wh, t => RoutedRows(init, t));
      AdvanceBookkeeping(s0, d.tag, c, ProcessingError(d), threshold, wh);
      AdvanceCount(s0, d.tag, c, ProcessingError(d), threshold, wh);
    }
  }

  /** After each iteration every buffer holds fewer rows than the threshold. */
  lemma RunBufferBound(ds: seq<Delivery>, threshold: nat, wh: Warehouse)
    requires threshold > 0
    ensures forall t :: t in Run(ds, threshold, wh).buffer ==> |Run(ds, threshold, wh).buffer[t]| < threshold
  {
    RunInvariant(ds, threshold, wh);
  }

  /** The buffer's keys are the routed tables, each listed once. */
  lemma {:induction false} RunOrder(ds: seq<Delivery>, threshold: nat, wh: Warehouse)
    ensures var s := Run(ds, threshold, wh);
            WellOrdered(s) && forall t :: t in s.order <==> t in RoutedTables(ds)
  {
    if ds != [] {
      var init, d := ds[..|ds| - 1], ds[|ds| - 1];
      RunOrder(init, threshold, wh);
      DeliveriesLast(ds);
      AdvanceKeys(Run(init, threshold, wh), d.tag, Classify(d), ProcessingError(d), threshold, wh);
    }
  }

  /** The fetch loop lists the tables in the order their first processed
      message arrived, which is the order the final loop writes them in. */
  lemma {:induction false} RunArrivalOrder(ds: seq<Delivery>, threshold: nat, wh: Warehouse)
    ensures Run(ds, threshold, wh).order == ArrivalOrder(ds)
  {
    if ds != [] {
      var init, d := ds[..|ds| - 1], ds[|ds| - 1];
      RunArrivalOrder(init, threshold, wh);
      RunOrder(init, threshold, wh);
      AdvanceOrder(Run(init, threshold, wh), d.tag, Classify(d), ProcessingError(d), threshold, wh);
    }
  }

  /** The arrival order lists every routed table exactly once. */
  lemma {:induction false} ArrivalOrderTables(ds: seq<Delivery>)
    ensures Distinct(ArrivalOrder(ds))
    ensures forall t :: t in ArrivalOrder(ds) <==> t in RoutedTables(ds)
  {
    if ds != [] {
      ArrivalOrderTables(ds[..|ds| - 1]);
      DeliveriesLast(ds);
    }
  }

  // ---------------------------------------------------------------------
  // The final loop
  // ---------------------------------------------------------------------

  /** Writing what is left of one table's buffer sends no ack or nack and
      keeps the errors, the write counter and the writes in line with the log. */
  lemma FlushRemainingLog(s: State, t: string, threshold: nat, wh: Warehouse)
    requires |Buffered(s, t)| < threshold && Bookkept(s, threshold, wh)
    ensures var r := FlushRemaining(s, t, wh);
            Bookkept(r, threshold, wh) && Responses(r.log) == Responses(s.log)
  {
    var rows := Buffered(s, t);
    if rows != [] {
      var load := Load(t, rows, WriteToBigQuery(t, rows, wh.clientPresent, wh.answer(s.calls)));
      LogSnoc(s.log, load);
    }
  }

  /** Writing what is left of one table's buffer writes exactly those rows,
      when there are any, counts them as processed and marks the table. */
  lemma FlushRemainingRows(s: State, t: string, wh: Warehouse)
    ensures var r := FlushRemaining(s, t, wh);
            (forall u :: LoadedRows(r.log, u) == LoadedRows(s.log, u) + (if u == t then Buffered(s, t) else [])) &&
            r.processed == s.processed + |Buffered(s, t)| &&
            r.tablesUpdated == s.tablesUpdated + (if Buffered(s, t) != [] then {t} else {})
  {
    var rows := Buffered(s, t);
    if rows != [] {
      var load := Load(t, rows, WriteToBigQuery(t, rows, wh.clientPresent, wh.answer(s.calls)));
      LogSnoc(s.log, load);
    }
  }

  /** The `n`-th table of a distinct order is not among the first `n - 1`. */
  lemma PrefixLast(order: seq<string>, n: nat)
    requires 0 < n <= |order| && Distinct(order)
    ensures order[n - 1] !in order[..n - 1]
    ensures forall u :: u in order[..n] <==> u in order[..n - 1] || u == order[n - 1]
  {
    var prefix := order[..n];
    assert prefix == order[..n - 1] + [order[n - 1]];
    forall i | 0 <= i < n - 1 ensures order[i] != order[n - 1] {
    }
  }

  /** The final loop sends no ack or nack, and keeps the errors, the write
      counter and the writes in line with the log. */
  lemma {:induction false} DrainLog(s: State, n: nat, threshold: nat, wh: Warehouse)
    requires threshold > 0 && n <= |s.order| && Bounded(s, threshold) && Bookkept(s, threshold, wh)
    ensures var r := Drain(s, n, wh);
            Bookkept(r, threshold, wh) && Responses(r.log) == Responses(s.log)
  {
    if n > 0 {
      DrainLog(s, n - 1, threshold, wh);
      var p := Drain(s, n - 1, wh);
      var t := s.order[n - 1];
      assert Buffered(p, t) == Buffered(s, t) && |Buffered(s, t)| < threshold;
      FlushRemainingLog(p, t, threshold, wh);
    }
  }

  /** The final loop after its first `n` tables has written what was left
      of each of their buffers, and nothing else. */
  lemma {:induction false} DrainRows(s: State, n: nat, wh: Warehouse)
    requires n <= |s.order| && Distinct(s.order)
    ensures var r := Drain(s, n, wh);
            forall t :: LoadedRows(r.log, t) == LoadedRows(s.log, t) + (if t in s.order[..n] then Buffered(s, t) else [])
  {
    if n > 0 {
      DrainRows(s, n - 1, wh);
      var p := Drain(s, n - 1, wh);
      var t := s.order[n - 1];
      assert Buffered(p, t) == Buffered(s, t);
      FlushRemainingRows(p, t, wh);
      PrefixLast(s.order, n);
      var r := Drain(s, n, wh);
      RowsAccumulate(u => LoadedRows(s.log, u), u => LoadedRows(p.log, u), u => LoadedRows(r.log, u),
                     s.order, n, u => Buffered(s, u));
    }
  }

  /** One more table's leftovers written after the first `n - 1` tables'. */
  lemma RowsAccumulate(rows0: string -> seq<Row>, rows1: string -> seq<Row>, rows2: string -> seq<Row>,
                       order: seq<string>, n: nat, left: string -> seq<Row>)
    requires 0 < n <= |order| && order[n - 1] !in order[..n - 1]
    requires forall u :: u in order[..n] <==> u in order[..n - 1] || u == order[n - 1]
    requires forall u :: rows1(u) == rows0(u) + (if u in order[..n - 1] then left(u) else [])
    requires forall u :: rows2(u) == rows1(u) + (if u == order[n - 1] then left(u) else [])
    ensures forall u :: rows2(u) == rows0(u) + (if u in order[..n] then left(u) else [])
  {
    forall u ensures rows2(u) == rows0(u) + (if u in order[..n] then left(u) else []) {
      if u == order[n - 1] {
        assert rows2(u) == rows0(u) + [] + left(u);
      } else {
        assert rows2(u) == rows0(u) + (if u in order[..n - 1] then left(u) else []) + [];
      }
    }
  }

  /** The final loop after its first `n` tables counts their remaining rows
      as processed, and those with rows left as updated. */
  lemma {:induction false} DrainCounts(s: State, n: nat, wh: Warehouse)
    requires n <= |s.order| && Distinct(s.order)
    ensures var r := Drain(s, n, wh);
            r.processed == s.processed + BufferedCount(s.order[..n], s) &&
            (forall t :: t in r.tablesUpdated <==> t in s.tablesUpdated || (t in s.order[..n] && Buffered(s, t) != []))
  {
    if n > 0 {
      DrainCounts(s, n - 1, wh);
      var p := Drain(s, n - 1, wh);
      var t := s.order[n - 1];
      assert Buffered(p, t) == Buffered(s, t);
      PrefixLast(s.order, n);
      assert s.order[..n][..n - 1] == s.order[..n - 1];
    }
  }

  /** The acks and nacks expected for `ds`, one per delivery, in order. */
  lemma {:induction false} ExpectedResponsesIndex(ds: seq<Delivery>)
    ensures forall i :: 0 <= i < |ds| ==> ExpectedResponses(ds)[i] == Response(ds[i])
  {
    if ds != [] {
      ExpectedResponsesIndex(ds[..|ds| - 1]);
    }
  }

  /** Everything known about a whole run, drained: DrainedLog, DrainedRows
      and DrainedCounts together, restated for `Process`. ProcessResponses,
      ProcessWrites and ProcessCounts each draw their part from it. */
  lemma ProcessFacts(queue: seq<Delivery>, maxMessages: int, threshold: nat, wh: Warehouse)
    requires threshold > 0
    ensures var fetched := queue[..FetchCount(queue, maxMessages)];
            var r := Process(queue, maxMessages, threshold, wh);
            Bookkept(r, threshold, wh) &&
            Responses(r.log) == ExpectedResponses(fetched) &&
            (forall t :: LoadedRows(r.log, t) == RoutedRows(fetched, t)) &&
            r.processed == Successes(fetched) &&
            (forall t :: t in r.tablesUpdated <==> t in RoutedTables(fetched))
  {
    var fetched := queue[..FetchCount(queue, maxMessages)];
    DrainedLog(fetched, threshold, wh);
    DrainedRows(fetched, threshold, wh);
    DrainedCounts(fetched, threshold, wh);
  }

  /** The final drain keeps the bookkeeping and adds no response. */
  lemma DrainedLog(fetched: seq<Delivery>, threshold: nat, wh: Warehouse)
    requires threshold > 0
    ensures var s := Run(fetched, threshold, wh);
            var r := Drain(s, |s.order|, wh);
            Bookkept(r, threshold, wh) && Responses(r.log) == ExpectedResponses(fetched)
  {
    var s := Run(fetched, threshold, wh);
    RunInvariant(fetched, threshold, wh);
    assert s.order[..|s.order|] == s.order;
    DrainLog(s, |s.order|, threshold, wh);
  }

  /** After the final drain, every routed row has been written to its table. */
  lemma DrainedRows(fetched: seq<Delivery>, threshold: nat, wh: Warehouse)
    requires threshold > 0
    ensures var s := Run(fetched, threshold, wh);
            var r := Drain(s, |s.order|, wh);
            forall t :: LoadedRows(r.log, t) == RoutedRows(fetched, t)
  {
    var s := Run(fetched, threshold, wh);
    RunInvariant(fetched, threshold, wh);
    assert s.order[..|s.order|] == s.order;
    DrainRows(s, |s.order|, wh);
    forall t | t !in s.order ensures Buffered(s, t) == [] {
    }
  }

  /** After the final drain, the counters match the routed messages. */
  lemma DrainedCounts(fetched: seq<Delivery>, threshold: nat, wh: Warehouse)
    requires threshold > 0
    ensures var s := Run(fetched, threshold, wh);
            var r := Drain(s, |s.order|, wh);
            r.processed == Successes(fetched) && forall t :: t in r.tablesUpdated <==> t in RoutedTables(fetched)
  {
    var s := Run(fetched, threshold, wh);
    RunInvariant(fetched, threshold, wh);
    assert s.order[..|s.order|] == s.order;
    DrainCounts(s, |s.order|, wh);
  }

  /** Every fetched message gets exactly one response, in fetch order: an
      ack when it was processed, a nack carrying its error otherwise. The
      loop fetches at most `maxMessages` messages and stops when the queue
      runs dry. */
  lemma ProcessResponses(queue: seq<Delivery>, maxMessages: int, threshold: nat, wh: Warehouse)
    requires threshold > 0
    ensures var n := FetchCount(queue, maxMessages);
            var responses := Responses(Process(queue, maxMessages, threshold, wh).log);
            |responses| == n && forall i :: 0 <= i < n ==> responses[i] == Response(queue[i])
  {
    var n := FetchCount(queue, maxMessages);
    ProcessFacts(queue, maxMessages, threshold, wh);
    ExpectedResponsesIndex(queue[..n]);
  }

  /** Once the final loop is done, every processed message's row has been
      written to its table, in arrival order, and nothing else was written;
      every write held between one row and `threshold` rows and reported
      what the loader reports; the error list is the nacks' errors and the
      writes' reports, in order. */
  lemma ProcessWrites(queue: seq<Delivery>, maxMessages: int, threshold: nat, wh: Warehouse)
    requires threshold > 0
    ensures var fetched := queue[..FetchCount(queue, maxMessages)];
            var r := Process(queue, maxMessages, threshold, wh);
            (forall t :: LoadedRows(r.log, t) == RoutedRows(fetched, t)) &&
            (forall e :: e in Loads(r.log) ==> e.Load? && 0 < |e.rows| <= threshold) &&
            LoadsAgree(r.log, wh) && r.errors == ErrorsOf(r.log)
  {
    ProcessFacts(queue, maxMessages, threshold, wh);
  }

  /** The result counts every processed message and names every table a
      processed message was routed to, whatever the loader reported. */
  lemma ProcessCounts(queue: seq<Delivery>, maxMessages: int, threshold: nat, wh: Warehouse)
    requires threshold > 0
    ensures var fetched := queue[..FetchCount(queue, maxMessages)];
            var result := Summary(Process(queue, maxMessages, threshold, wh));
            result.messagesProcessed == Successes(fetched) && result.tablesUpdated == RoutedTables(fetched)
  {
    ProcessFacts(queue, maxMessages, threshold, wh);
  }

  // ---------------------------------------------------------------------
  // A worked run
  // ---------------------------------------------------------------------

  /** The views of three processed deliveries. */
  lemma ThreeProcessed(ds: seq<Delivery>, t1: string, t2: string, t3: string, r1: Row, r2: Row, r3: Row)
    requires |ds| == 3
    requires Classify(ds[0]) == Some((t1, r1)) && Classify(ds[1]) == Some((t2, r2)) && Classify(ds[2]) == Some((t3, r3))
    ensures Successes(ds) == 3 && RoutedTables(ds) == {t1, t2, t3}
    ensures forall t :: RoutedRows(ds, t) == (if t == t1 then [r1] else []) + (if t == t2 then [r2] else []) + (if t == t3 then [r3] else [])
  {
    ThreeTables(ds, t1, t2, t3, r1, r2, r3);
    forall t ensures RoutedRows(ds, t) == (if t == t1 then [r1] else []) + (if t == t2 then [r2] else []) + (if t == t3 then [r3] else []) {
      ThreeRows(ds, t1, t2, t3, r1, r2, r3, t);
    }
  }

  lemma ThreeTables(ds: seq<Delivery>, t1: string, t2: string, t3: string, r1: Row, r2: Row, r3: Row)
    requires |ds| == 3
    requires Classify(ds[0]) == Some((t1, r1)) && Classify(ds[1]) == Some((t2, r2)) && Classify(ds[2]) == Some((t3, r3))
    ensures Successes(ds) == 3 && RoutedTables(ds) == {t1, t2, t3}
  {
    ThreeCount(ds, t1, t2, t3, r1, r2, r3);
    ThreeSet(ds, t1, t2, t3, r1, r2, r3);
  }

  lemma ThreeCount(ds: seq<Delivery>, t1: string, t2: string, t3: string, r1: Row, r2: Row, r3: Row)
    requires |ds| == 3
    requires Classify(ds[0]) == Some((t1, r1)) && Classify(ds[1]) == Some((t2, r2)) && Classify(ds[2]) == Some((t3, r3))
    ensures Successes(ds) == 3
  {
    var d1, d2 := ds[..1], ds[..2];
    assert Successes(d1) == 1 by {
      assert d1[..0] == [] && d1[0] == ds[0];
      ProcessedLast(d1, t1, r1);
    }
    assert Successes(d2) == 2 by {
      assert d2[..1] == d1 && d2[1] == ds[1];
      ProcessedLast(d2, t2, r2);
    }
    assert ds[..2] == d2;
    ProcessedLast(ds, t3, r3);
  }

  lemma ThreeSet(ds: seq<Delivery>, t1: string, t2: string, t3: string, r1: Row, r2: Row, r3: Row)
    requires |ds| == 3
    requires Classify(ds[0]) == Some((t1, r1)) && Classify(ds[1]) == Some((t2, r2)) && Classify(ds[2]) == Some((t3, r3))
    ensures RoutedTables(ds) == {t1, t2, t3}
  {
    var d1, d2 := ds[..1], ds[..2];
    assert RoutedTables(d1) == {t1} by {
      assert d1[..0] == [] && d1[0] == ds[0];
      ProcessedLast(d1, t1, r1);
    }
    assert RoutedTables(d2) == {t1, t2} by {
      assert d2[..1] == d1 && d2[1] == ds[1];
      ProcessedLast(d2, t2, r2);
    }
    assert ds[..2] == d2;
    ProcessedLast(ds, t3, r3);
  }

  lemma ThreeRows(ds: seq<Delivery>, t1: string, t2: string, t3: string, r1: Row, r2: Row, r3: Row, t: string)
    requires |ds| == 3
    requires Classify(ds[0]) == Some((t1, r1)) && Classify(ds[1]) == Some((t2, r2)) && Classify(ds[2]) == Some((t3, r3))
    ensures RoutedRows(ds, t) == (if t == t1 then [r1] else []) + (if t == t2 then [r2] else []) + (if t == t3 then [r3] else [])
  {
    var d1, d2 := ds[..1], ds[..2];
    assert d1[..0] == [] && d1[0] == ds[0];
    assert d2[..1] == d1 && d2[1] == ds[1];
    assert ds[..2] == d2;
    RoutedLast(d1, t1, r1, t);
    RoutedLast(d2, t2, r2, t);
    RoutedLast(ds, t3, r3, t);
    assert RoutedRows(d1, t) == (if t == t1 then [r1] else []);
  }

  /** One more processed delivery adds one success and its table. */
  lemma ProcessedLast(ds: seq<Delivery>, t: string, r: Row)
    requires ds != [] && Classify(ds[|ds| - 1]) == Some((t, r))
    ensures Successes(ds) == Successes(ds[..|ds| - 1]) + 1
    ensures RoutedTables(ds) == RoutedTables(ds[..|ds| - 1]) + {t}
  {
    DeliveriesLast(ds);
  }

  /** One more processed delivery adds its row to its table's rows only. */
  lemma RoutedLast(ds: seq<Delivery>, t: string, r: Row, u: string)
    requires ds != [] && Classify(ds[|ds| - 1]) == Some((t, r))
    ensures RoutedRows(ds, u) == RoutedRows(ds[..|ds| - 1], u) + (if u == t then [r] else [])
  {
    DeliveriesLast(ds);
  }

  /** Three fetched messages that are all processed are all acked, in order. */
  lemma ThreeAcked(queue: seq<Delivery>, maxMessages: int, threshold: nat, wh: Warehouse)
    requires threshold > 0 && |queue| == 3 && FetchCount(queue, maxMessages) == 3
    requires Classify(queue[0]).Some? && Classify(queue[1]).Some? && Classify(queue[2]).Some?
    ensures Responses(Process(queue, maxMessages, threshold, wh).log) == [Ack(queue[0].tag), Ack(queue[1].tag), Ack(queue[2].tag)]
  {
    ProcessResponses(queue, maxMessages, threshold, wh);
  }

  /** What processing makes of each message of the worked run. */
  lemma ScenarioDeliveries(c1: int, c2: int, c3: int)
    ensures var f1 := [("EntityType", Str("Order")), ("id", Int(1))];
            Classify(Delivery(1, Decoded(Obj(f1)), c1)) == Some(("order", Transform(f1, c1)))
    ensures var f2 := [("EntityType", Str("Order")), ("id", Int(2))];
            Classify(Delivery(2, Decoded(Obj(f2)), c2)) == Some(("order", Transform(f2, c2)))
    ensures var f3 := [("Table", Str("Refund")), ("id", Int(3))];
            Classify(Delivery(3, Decoded(Obj(f3)), c3)) == Some(("refund", Transform(f3, c3)))
  {
    assert Classify(Delivery(1, Decoded(Obj([("EntityType", Str("Order")), ("id", Int(1))])), c1))
        == Some(("order", Transform([("EntityType", Str("Order")), ("id", Int(1))], c1))) by {
      Router.RouteOrderExample([("id", Int(1))]);
      assert [("EntityType", Str("Order"))] + [("id", Int(1))] == [("EntityType", Str("Order")), ("id", Int(1))];
    }
    assert Classify(Delivery(2, Decoded(Obj([("EntityType", Str("Order")), ("id", Int(2))])), c2))
        == Some(("order", Transform([("EntityType", Str("Order")), ("id", Int(2))], c2))) by {
      Router.RouteOrderExample([("id", Int(2))]);
      assert [("EntityType", Str("Order"))] + [("id", Int(2))] == [("EntityType", Str("Order")), ("id", Int(2))];
    }
    Router.RouteTableExample();
  }

  /** With a batch size of 2, the first row for a table is only buffered and acked. */
  lemma ScenarioFirst(tag: nat, a: string, r1: Row, error: string, wh: Warehouse)
    ensures Advance(Start, tag, Some((a, r1)), error, 2, wh)
         == State([a], map[a := [r1]], 0, {}, [], [Ack(tag)], 0)
  {
    assert a !in Start.buffer && Buffered(Start, a) == [];
    assert [] + [a] == [a] && [] + [r1] == [r1] && [] + [Ack(tag)] == [Ack(tag)];
  }

  /** The second row for that table fills its buffer: both rows are written
      in one write that gets the warehouse's first answer, then the message is acked. */
  lemma ScenarioSecond(tag: nat, a: string, r1: Row, r2: Row, error: string, log: seq<Event>, wh: Warehouse)
    ensures var report := WriteToBigQuery(a, [r1, r2], wh.clientPresent, wh.answer(0));
            Advance(State([a], map[a := [r1]], 0, {}, [], log, 0), tag, Some((a, r2)), error, 2, wh) ==
            State([a], map[a := []], 2, {a}, report.errors, log + [Load(a, [r1, r2], report), Ack(tag)], 1)
  {
    var s := State([a], map[a := [r1]], 0, {}, [], log, 0);
    assert a in s.buffer && Buffered(s, a) + [r2] == [r1, r2];
    assert map[a := [r1]][a := []] == map[a := []];
  }

  /** A first row for another table is buffered behind the first table and acked. */
  lemma ScenarioThird(tag: nat, a: string, b: string, r3: Row, error: string, errors: seq<string>, log: seq<Event>, wh: Warehouse)
    requires a != b
    ensures Advance(State([a], map[a := []], 2, {a}, errors, log, 1), tag, Some((b, r3)), error, 2, wh)
         == State([a, b], map[a := [], b := [r3]], 2, {a}, errors, log + [Ack(tag)], 1)
  {
    var s := State([a], map[a := []], 2, {a}, errors, log, 1);
    assert b !in s.buffer && Buffered(s, b) + [r3] == [r3];
    assert [a] + [b] == [a, b];
  }

  /** The final loop finds the first table's buffer empty and writes the
      second table's row with the warehouse's second answer. */
  lemma ScenarioDrain(a: string, b: string, r3: Row, errors: seq<string>, log: seq<Event>, wh: Warehouse)
    requires a != b
    ensures var s := State([a, b], map[a := [], b := [r3]], 2, {a}, errors, log, 1);
            var report := WriteToBigQuery(b, [r3], wh.clientPresent, wh.answer(1));
            Drain(s, 2, wh) ==
            State([a, b], map[a := [], b := [r3]], 3, {a, b}, errors + report.errors, log + [Load(b, [r3], report)], 2)
  {
    var s := State([a, b], map[a := [], b := [r3]], 2, {a}, errors, log, 1);
    assert Drain(s, 1, wh) == s by {
      assert Drain(s, 0, wh) == s && Buffered(s, a) == [];
    }
    assert Buffered(s, b) == [r3];
  }

  /** The fetch loop over the first two deliveries, both for table `a`. */
  lemma ScenarioRunTwo(ds: seq<Delivery>, a: string, r1: Row, r2: Row, wh: Warehouse)
    requires |ds| >= 2
    requires Classify(ds[0]) == Some((a, r1)) && Classify(ds[1]) == Some((a, r2))
    ensures var first := WriteToBigQuery(a, [r1, r2], wh.clientPresent, wh.answer(0));
            Run(ds[..2], 2, wh) ==
            State([a], map[a := []], 2, {a}, first.errors, [Ack(ds[0].tag), Load(a, [r1, r2], first), Ack(ds[1].tag)], 1)
  {
    var first := WriteToBigQuery(a, [r1, r2], wh.clientPresent, wh.answer(0));
    assert ds[..0] == [];
    RunSnoc(ds, 0, 2, wh);
    ScenarioFirst(ds[0].tag, a, r1, ProcessingError(ds[0]), wh);
    RunSnoc(ds, 1, 2, wh);
    ScenarioSecond(ds[1].tag, a, r1, r2, ProcessingError(ds[1]), [Ack(ds[0].tag)], wh);
    assert [Ack(ds[0].tag)] + [Load(a, [r1, r2], first), Ack(ds[1].tag)]
        == [Ack(ds[0].tag), Load(a, [r1, r2], first), Ack(ds[1].tag)];
  }

  /** The fetch loop over all three deliveries, the third for table `b`. */
  lemma ScenarioRunThree(ds: seq<Delivery>, a: string, b: string, r1: Row, r2: Row, r3: Row, wh: Warehouse)
    requires |ds| == 3 && a != b
    requires Classify(ds[0]) == Some((a, r1)) && Classify(ds[1]) == Some((a, r2)) && Classify(ds[2]) == Some((b, r3))
    ensures var first := WriteToBigQuery(a, [r1, r2], wh.clientPresent, wh.answer(0));
            var log2 := [Ack(ds[0].tag), Load(a, [r1, r2], first), Ack(ds[1].tag)];
            Run(ds, 2, wh) == State([a, b], map[a := [], b := [r3]], 2, {a}, first.errors, log2 + [Ack(ds[2].tag)], 1)
  {
    var first := WriteToBigQuery(a, [r1, r2], wh.clientPresent, wh.answer(0));
    var log2 := [Ack(ds[0].tag), Load(a, [r1, r2], first), Ack(ds[1].tag)];
    ScenarioRunTwo(ds, a, r1, r2, wh);
    RunSnoc(ds, 2, 2, wh);
    assert ds[..3] == ds;
    ScenarioThird(ds[2].tag, a, b, r3, ProcessingError(ds[2]), first.errors, log2, wh);
  }

  /** Three processed deliveries, the first two for table `a` and the third
      for table `b`, with a batch size of 2: the exact sequence of writes and
      acks, and the returned counts. */
  lemma ScenarioProcess(ds: seq<Delivery>, a: string, b: string, r1: Row, r2: Row, r3: Row, wh: Warehouse)
    requires |ds| == 3 && a != b
    requires Classify(ds[0]) == Some((a, r1)) && Classify(ds[1]) == Some((a, r2)) && Classify(ds[2]) == Some((b, r3))
    ensures var first := WriteToBigQuery(a, [r1, r2], wh.clientPresent, wh.answer(0));
            var second := WriteToBigQuery(b, [r3], wh.clientPresent, wh.answer(1));
            var r := Process(ds, |ds|, 2, wh);
            r.log == [Ack(ds[0].tag), Load(a, [r1, r2], first), Ack(ds[1].tag), Ack(ds[2].tag), Load(b, [r3], second)] &&
            Summary(r) == ProcessingResult(3, {a, b}, first.errors + second.errors)
  {
    var first := WriteToBigQuery(a, [r1, r2], wh.clientPresent, wh.answer(0));
    var log3 := [Ack(ds[0].tag), Load(a, [r1, r2], first), Ack(ds[1].tag)] + [Ack(ds[2].tag)];
    var s3 := State([a, b], map[a := [], b := [r3]], 2, {a}, first.errors, log3, 1);
    assert Process(ds, |ds|, 2, wh) == Drain(s3, 2, wh) by {
      ScenarioRunThree(ds, a, b, r1, r2, r3, wh);
      assert FetchCount(ds, |ds|) == 3 && ds[..3] == ds;
    }
    var second := WriteToBigQuery(b, [r3], wh.clientPresent, wh.answer(1));
    var r := Drain(s3, 2, wh);
    assert r == State([a, b], map[a := [], b := [r3]], 3, {a, b}, first.errors + second.errors, log3 + [Load(b, [r3], second)], 2) by {
      ScenarioDrain(a, b, r3, first.errors, log3, wh);
    }
    assert log3 + [Load(b, [r3], second)]
        == [Ack(ds[0].tag), Load(a, [r1, r2], first), Ack(ds[1].tag), Ack(ds[2].tag), Load(b, [r3], second)];
  }

  /** Two `Order` messages and one `Refund` message with a batch size of 2:
      the second `Order` message fills the `order` buffer, so both rows are
      written in one write before it is acked; the `Refund` row waits in its
      buffer and is written by the final loop. All three messages are acked,
      and the result counts three messages over the two tables. */
  lemma ScenarioExample(wh: Warehouse, c1: int, c2: int, c3: int)
    ensures var f1 := [("EntityType", Str("Order")), ("id", Int(1))];
            var f2 := [("EntityType", Str("Order")), ("id", Int(2))];
            var f3 := [("Table", Str("Refund")), ("id", Int(3))];
            var queue := [Delivery(1, Decoded(Obj(f1)), c1), Delivery(2, Decoded(Obj(f2)), c2), Delivery(3, Decoded(Obj(f3)), c3)];
            var orders := [Transform(f1, c1), Transform(f2, c2)];
            var refunds := [Transform(f3, c3)];
            var first := WriteToBigQuery("order", orders, wh.clientPresent, wh.answer(0));
            var second := WriteToBigQuery("refund", refunds, wh.clientPresent, wh.answer(1));
            var r := Process(queue, 10000, 2, wh);
            r.log == [Ack(1), Load("order", orders, first), Ack(2), Ack(3), Load("refund", refunds, second)] &&
            Summary(r) == ProcessingResult(3, {"order", "refund"}, first.errors + second.errors)
  {
    var f1 := [("EntityType", Str("Order")), ("id", Int(1))];
    var f2 := [("EntityType", Str("Order")), ("id", Int(2))];
    var f3 := [("Table", Str("Refund")), ("id", Int(3))];
    var queue := [Delivery(1, Decoded(Obj(f1)), c1), Delivery(2, Decoded(Obj(f2)), c2), Delivery(3, Decoded(Obj(f3)), c3)];
    ScenarioDeliveries(c1, c2, c3);
    assert FetchCount(queue, 10000) == FetchCount(queue, |queue|);
    ScenarioProcess(queue, "order", "refund", Transform(f1, c1), Transform(f2, c2), Transform(f3, c3), wh);
  }

  /** The same run seen through the log's views: the acks in order, and
      each table's rows in arrival order. */
  lemma ScenarioViews(wh: Warehouse, c1: int, c2: int, c3: int)
    ensures var f1 := [("EntityType", Str("Order")), ("id", Int(1))];
            var f2 := [("EntityType", Str("Order")), ("id", Int(2))];
            var f3 := [("Table", Str("Refund")), ("id", Int(3))];
            var queue := [Delivery(1, Decoded(Obj(f1)), c1), Delivery(2, Decoded(Obj(f2)), c2), Delivery(3, Decoded(Obj(f3)), c3)];
            var r := Process(queue, 10000, 2, wh);
            Responses(r.log) == [Ack(1), Ack(2), Ack(3)] &&
            LoadedRows(r.log, "order") == [Transform(f1, c1), Transform(f2, c2)] &&
            LoadedRows(r.log, "refund") == [Transform(f3, c3)]
  {
    var f1 := [("EntityType", Str("Order")), ("id", Int(1))];
    var f2 := [("EntityType", Str("Order")), ("id", Int(2))];
    var f3 := [("Table", Str("Refund")), ("id", Int(3))];
    var queue := [Delivery(1, Decoded(Obj(f1)), c1), Delivery(2, Decoded(Obj(f2)), c2), Delivery(3, Decoded(Obj(f3)), c3)];
    ScenarioDeliveries(c1, c2, c3);
    assert FetchCount(queue, 10000) == 3 && queue[..3] == queue;
    ThreeProcessed(queue, "order", "order", "refund", Transform(f1, c1), Transform(f2, c2), Transform(f3, c3));
    var r := Process(queue, 10000, 2, wh);
    ThreeAcked(queue, 10000, 2, wh);
    assert LoadedRows(r.log, "order") == [Transform(f1, c1), Transform(f2, c2)] by {
      ProcessWrites(queue, 10000, 2, wh);
    }
    assert LoadedRows(r.log, "refund") == [Transform(f3, c3)] by {
      ProcessWrites(queue, 10000, 2, wh);
    }
  }
}
