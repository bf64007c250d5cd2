/**
 * chalicelib/services.py: the data fetcher. One fetch makes between 1 and 20 calls to
 * the users API; each call's batch is counted and stored, and each failure is logged
 * and dead-lettered. The model takes the fetcher, its table and its dead-letter queue to
 * share one event logger, and the queue to be present.
 */
module Services {
  import opened Wrappers
  import opened PyValue
  import opened Logging
  import opened Tables
  import opened Events
  import opened Dlq
  import opened Fetching
  import Persistence
  import Config

  /** What calling the logger object itself raises. */
  const NOT_CALLABLE: Exc := OtherError("TypeError", "'EventLogger' object is not callable")

  /** `_reset_fetch_status()`, with the clock reading `timestamp`. */
  function ResetStatus(timestamp: int): FetchStatus {
    FetchStatus(0, 0, [], timestamp, JFloat(0.0))
  }

  /** The error event of a non-200 response. */
  function Non200Event(code: int, text: string): (v: Value)
    ensures Serializable(v)
  {
    JDict([("message", JStr(ReceivedText(code))), ("response_code", JInt(code)), ("response_content", JStr(text))])
  }

  /** The error event of a 200 response that carries the size sentinel. */
  function SentinelEvent(code: int, text: string): (v: Value)
    ensures Serializable(v)
  {
    JDict([("host", JStr(Config.USERS_ENDPOINT)), ("message", JStr(UNEXPECTED_TEXT)),
           ("response", JInt(code)), ("response_content", JStr(text))])
  }

  /** The error event of an exception raised inside `_get_data`'s try block. */
  function RuntimeEvent(e: Exc, size: int): (v: Value)
    ensures Serializable(v)
  {
    var params := JDict([("size", JInt(size))]);
    assert Serializable(params) by { assert params.entries[0].1 == JInt(size); }
    JDict([("message", JStr("An unexpected Runtime error occurred.")), ("error", JStr(e.text)),
           ("params", params), ("host", JStr(Config.USERS_ENDPOINT))])
  }

  /**
   * A failure branch of `_get_data`: the API call, the event appended to the errors when
   * `entry`, the event on the error stream, and `dlq.send(message=ev)` on a queue whose
   * URL is `url`.
   */
  function Report(url: Option<string>, ev: Value, entry: bool, reply: Option<Exc>): Delta {
    var (sqs, logs) := SendEffect(url, ev, None, reply);
    Delta(0, 0, if entry then [ev] else [], Sent(ErrorChannel, Msg(Dumped(ev))) + logs, sqs, [])
  }

  /** A report records the entry when asked, logs the event and dead-letters it, and writes no row. */
  lemma ReportApply(w: World, url: Option<string>, ev: Value, entry: bool, reply: Option<Exc>)
    ensures var sent := SendEffect(url, ev, None, reply);
            Apply(w, Report(url, ev, entry, reply))
            == World(w.status.(errors := w.status.errors + (if entry then [ev] else [])),
                     w.logs + (Sent(ErrorChannel, Msg(Dumped(ev))) + sent.1), w.sqs + sent.0, w.writes)
  {
    assert w.writes + [] == w.writes;
  }

  /** What `_get_data` does once the call is counted, and the batch it returns ([] on every failure). */
  function Handled(url: Option<string>, k: CallKind, size: int, reply: Option<Exc>): (r: (Delta, Value))
    requires k.Ok? ==> Sized(k.data)
    ensures Sized(r.1)
  {
    match k
    case Ok(data) => (Delta(0, 0, [], Sent(InfoChannel, Msg(FetchedUsers(Len(data)))), [], []), data)
    case Non200(code, text) => (Report(url, Non200Event(code, text), true, reply), JList([]))
    case Sentinel(code, text) => (Report(url, SentinelEvent(code, text), true, reply), JList([]))
    case Failed(e) => (Report(url, RuntimeEvent(e, size), false, reply), JList([]))
  }

  /** `_get_data(USERS_ENDPOINT)`: count the call, then handle the reply. */
  function GetDataEffect(url: Option<string>, c: CallInput): (r: (Delta, Value))
    ensures Sized(r.1)
  {
    var (handled, data) := Handled(url, Classify(c.reply), c.size, c.dlqReply);
    (handled.(apiCalls := 1), data)
  }

  /** Iteration `i` of `n` of the fetch loop: announce, get, count, store. */
  function StepEffect(url: Option<string>, table: Option<string>, i: int, n: int, c: CallInput): Delta {
    var (got, data) := GetDataEffect(url, c);
    var added := AddEffect(Config.USERS_TABLE, table, data, c.write);
    Combine(Sent(InfoChannel, Msg(Performing(i + 1, n))), got, Len(data), Sent(added.channel, added.event), added.writes)
  }

  /** A step in terms of the call's effect and batch and the store's effect. */
  lemma {:induction false} StepParts(url: Option<string>, table: Option<string>, i: int, n: int, c: CallInput,
                                     got: Delta, data: Value, stored: Added)
    requires (got, data) == GetDataEffect(url, c) && stored == AddEffect(Config.USERS_TABLE, table, data, c.write)
    ensures StepEffect(url, table, i, n, c) ==
              Combine(Sent(InfoChannel, Msg(Performing(i + 1, n))), got, Len(data), Sent(stored.channel, stored.event),
                      stored.writes)
  {
  }

  /** The effects of the iterations of the fetch loop over `calls`, in order. */
  function IterationEffects(calls: seq<CallInput>, url: Option<string>, table: Option<string>): (r: seq<Delta>)
    ensures |r| == |calls|
  {
    seq(|calls|, i requires 0 <= i < |calls| => StepEffect(url, table, i, |calls|, calls[i]))
  }

  /**
   * `fetch()`: reset the status (clock reading `timestamp`), run the loop, then finish.
   */
  function FetchEffect(calls: seq<CallInput>, url: Option<string>, table: Option<string>,
                       timestamp: int, elapsed: real, before: World): (World, Result<FetchStatus, Exc>)
  {
    Finish(Run(before.(status := ResetStatus(timestamp)), IterationEffects(calls, url, table), |calls|), elapsed)
  }

  /**
   * The end of `fetch()`: record the elapsed seconds, log the status and return it;
   * `json.dumps` of the status raising would make `fetch` raise.
   */
  function Finish(w: World, elapsed: real): (World, Result<FetchStatus, Exc>) {
    var st := w.status.(duration := JFloat(elapsed));
    if Serializable(StatusValue(st))
    then (w.(status := st, logs := w.logs + Sent(StatusChannel, Msg(Dumped(StatusValue(st))))), Success(st))
    else (w.(status := st), Failure(TYPE_ERROR))
  }

  // ---------------------------------------------------------------------------
  // The independent accounts of a fetch

  /** The errors entry a call adds: one for a non-200 reply or the sentinel, none otherwise. */
  function Entry(k: CallKind): seq<Value> {
    match k
    case Non200(code, text) => [Non200Event(code, text)]
    case Sentinel(code, text) => [SentinelEvent(code, text)]
    case _ => []
  }

  /** The message a call sends to the dead-letter queue: one for every failure. */
  function Letter(k: CallKind, size: int): seq<Value> {
    match k
    case Ok(_) => []
    case Non200(code, text) => [Non200Event(code, text)]
    case Sentinel(code, text) => [SentinelEvent(code, text)]
    case Failed(e) => [RuntimeEvent(e, size)]
  }

  /** The errors entries of the first `k` calls. */
  function ErrorEntries(calls: seq<CallInput>, k: nat): seq<Value>
    requires k <= |calls|
  {
    Joined(Entries(calls), k)
  }

  /** The errors entry of each call. */
  function Entries(calls: seq<CallInput>): (r: seq<seq<Value>>)
    ensures |r| == |calls|
  {
    seq(|calls|, i requires 0 <= i < |calls| => Entry(Classify(calls[i].reply)))
  }

  /** The dead letters of the first `k` calls. */
  function DeadLetters(calls: seq<CallInput>, k: nat): seq<Value>
    requires k <= |calls|
  {
    Joined(Letters(calls), k)
  }

  /** The dead letter of each call. */
  function Letters(calls: seq<CallInput>): (r: seq<seq<Value>>)
    ensures |r| == |calls|
  {
    seq(|calls|, i requires 0 <= i < |calls| => Letter(Classify(calls[i].reply), calls[i].size))
  }

  /** The send requests that reach a queue at `url`, one per message, in order. */
  function SendAll(url: string, messages: seq<Value>): (r: seq<SqsRequest>)
    ensures |r| == |messages|
  {
    if messages == [] then []
    else SendAll(url, messages[..|messages| - 1]) + [SendMessage(url, Dumped(messages[|messages| - 1]), JDict([]))]
  }

  /** The send requests of the messages, when the queue has a URL; none when it has not. */
  function Sends(url: Option<string>, messages: seq<Value>): seq<SqsRequest> {
    if url.Some? then SendAll(url.value, messages) else []
  }

  /** Sending two runs of messages sends the one after the other. */
  lemma {:induction false} SendAllAppend(url: string, a: seq<Value>, b: seq<Value>)
    ensures SendAll(url, a + b) == SendAll(url, a) + SendAll(url, b)
    decreases |b|
  {
    if b != [] {
      var init := b[..|b| - 1];
      assert (a + b)[..|a + b| - 1] == a + init;
      SendAllAppend(url, a, init);
    } else {
      assert a + b == a;
    }
  }

  /** Only non-200 replies and the sentinel add errors entries, one each. */
  lemma {:induction false} EntriesCount(calls: seq<CallInput>, k: nat)
    requires k <= |calls|
    ensures |ErrorEntries(calls, k)| == CountKind(calls, k, IsNon200) + CountKind(calls, k, IsSentinel)
  {
    var runs := Entries(calls);
    forall i | 0 <= i < |calls|
      ensures |runs[i]| == (if IsNon200(Classify(calls[i].reply)) || IsSentinel(Classify(calls[i].reply)) then 1 else 0)
    {
      assert runs[i] == Entry(Classify(calls[i].reply));
    }
    EntryRunsCount(calls, runs, k);
  }

  /** Every failure is dead-lettered, and nothing else is. */
  lemma {:induction false} LettersCount(calls: seq<CallInput>, k: nat)
    requires k <= |calls|
    ensures |DeadLetters(calls, k)| == CountKind(calls, k, IsFailure)
  {
    if k > 0 {
      LettersCount(calls, k - 1);
    }
  }

  /** The errors entries are JSON data. */
  lemma {:induction false} EntriesSerializable(calls: seq<CallInput>, k: nat)
    requires k <= |calls|
    ensures forall i :: 0 <= i < |ErrorEntries(calls, k)| ==> Serializable(ErrorEntries(calls, k)[i])
  {
    var runs := Entries(calls);
    forall i, j | 0 <= i < |runs| && 0 <= j < |runs[i]| ensures Serializable(runs[i][j]) {
      assert runs[i] == Entry(Classify(calls[i].reply));
    }
    JoinedElements(runs, k, Serializable);
  }

  /** The status stream under the log group. */
  function StatusEvents(logs: seq<LogsRequest>): seq<InputLogEvent> {
    StreamContents(logs, Config.LOG_GROUP, Config.STATUS_LOG_STREAM)
  }

  /** An info or error event does not reach the status stream. */
  lemma {:induction false} SentNoStatus(c: Channel, e: LogEvent)
    requires c != StatusChannel
    ensures StatusEvents(Sent(c, e)) == []
  {
    StreamContentsAppend([], Sent(c, e), Config.LOG_GROUP, Config.STATUS_LOG_STREAM);
    PutLeavesOtherStreams(Config.LOG_GROUP, StreamOf(c), e, Config.STATUS_LOG_STREAM);
  }

  /** A failure branch: one call, its entry when asked, its dead letter, and no status event. */
  lemma {:induction false} ReportFacts(url: Option<string>, ev: Value, entry: bool, reply: Option<Exc>)
    requires Serializable(ev)
    ensures var e := Report(url, ev, entry, reply);
            e.apiCalls == 0 && e.users == 0 && e.errors == (if entry then [ev] else []) &&
            e.sqs == Sends(url, [ev]) && StatusEvents(e.logs) == [] && e.writes == [] &&
            |e.logs| == 2 && e.logs[0] == PutLogEvents(Config.LOG_GROUP, Config.ERROR_LOG_STREAM, [Stamped(Msg(Dumped(ev)))]) &&
            (e.logs[1..] == InfoLog(SentToDlq(Config.QUEUE_NAME, ev)) <==> url.Some? && reply.None?)
  {
    ReportLogs(url, ev, entry, reply);
    ReportQuiet(url, ev, entry, reply);
    if url.Some? {
      assert [ev][..0] == [];
    }
  }

  /** Neither the failure's event nor the dead-letter outcome reaches the status stream. */
  lemma {:induction false} ReportQuiet(url: Option<string>, ev: Value, entry: bool, reply: Option<Exc>)
    ensures StatusEvents(Report(url, ev, entry, reply).logs) == []
  {
    var logs := SendEffect(url, ev, None, reply).1;
    assert Report(url, ev, entry, reply).logs == Sent(ErrorChannel, Msg(Dumped(ev))) + logs;
    SentNoStatus(ErrorChannel, Msg(Dumped(ev)));
    StreamContentsAppend(Sent(ErrorChannel, Msg(Dumped(ev))), logs, Config.LOG_GROUP, Config.STATUS_LOG_STREAM);
    StreamContentsAppend([], logs, Config.LOG_GROUP, Config.STATUS_LOG_STREAM);
    assert logs[..|logs| - 1] == [];
  }

  /** A failure branch logs two events: the failure's event on the error stream, then the dead-letter outcome. */
  lemma ReportLogs(url: Option<string>, ev: Value, entry: bool, reply: Option<Exc>)
    ensures var e := Report(url, ev, entry, reply);
            |e.logs| == 2 && e.logs[0] == PutLogEvents(Config.LOG_GROUP, Config.ERROR_LOG_STREAM, [Stamped(Msg(Dumped(ev)))]) &&
            (e.logs[1..] == InfoLog(SentToDlq(Config.QUEUE_NAME, ev)) <==> url.Some? && Serializable(ev) && reply.None?)
  {
    var logs := SendEffect(url, ev, None, reply).1;
    var e := Report(url, ev, entry, reply);
    assert e.logs == Sent(ErrorChannel, Msg(Dumped(ev))) + logs;
    assert e.logs[1..] == logs;
  }

  /** `_get_data`: one call, the entry and the dead letter of a failure, and no status event. */
  lemma {:induction false} GetDataFacts(url: Option<string>, c: CallInput)
    ensures var (e, data) := GetDataEffect(url, c);
            e.apiCalls == 1 && e.users == 0 && e.errors == Entry(Classify(c.reply)) && data == Batch(c.reply) &&
            e.sqs == Sends(url, Letter(Classify(c.reply), c.size)) && StatusEvents(e.logs) == [] && e.writes == []
  {
    HandledCounts(url, Classify(c.reply), c.size, c.dlqReply);
    HandledQuiet(url, Classify(c.reply), c.size, c.dlqReply);
  }

  /** The handling of a reply counts nothing, adds its entry, and dead-letters a failure. */
  lemma {:induction false} HandledCounts(url: Option<string>, k: CallKind, size: int, reply: Option<Exc>)
    requires k.Ok? ==> Sized(k.data)
    ensures var (e, data) := Handled(url, k, size, reply);
            e.apiCalls == 0 && e.users == 0 && e.errors == Entry(k) && data == (if k.Ok? then k.data else JList([])) &&
            e.sqs == Sends(url, Letter(k, size)) && e.writes == []
  {
    if !k.Ok? {
      var ev := FailureEvent(k, size);
      var entry := k.Non200? || k.Sentinel?;
      assert Handled(url, k, size, reply) == (Report(url, ev, entry, reply), JList([]));
      assert Letter(k, size) == [ev];
      assert Entry(k) == if entry then [ev] else [];
      ReportFacts(url, ev, entry, reply);
    }
  }

  /** The handling of a reply sends nothing to the status stream. */
  lemma {:induction false} HandledQuiet(url: Option<string>, k: CallKind, size: int, reply: Option<Exc>)
    requires k.Ok? ==> Sized(k.data)
    ensures StatusEvents(Handled(url, k, size, reply).0.logs) == []
  {
    if k.Ok? {
      SentNoStatus(InfoChannel, Msg(FetchedUsers(Len(k.data))));
    } else {
      var ev := FailureEvent(k, size);
      var entry := k.Non200? || k.Sentinel?;
      assert Handled(url, k, size, reply) == (Report(url, ev, entry, reply), JList([]));
      ReportFacts(url, ev, entry, reply);
    }
  }

  /** The event a failing reply is reported with. */
  function FailureEvent(k: CallKind, size: int): (v: Value)
    requires !k.Ok?
    ensures Serializable(v)
  {
    match k
    case Non200(code, text) => Non200Event(code, text)
    case Sentinel(code, text) => SentinelEvent(code, text)
    case Failed(e) => RuntimeEvent(e, size)
  }

  /** An effect that sends nothing to the status stream. */
  predicate Quiet(e: Delta) {
    StatusEvents(e.logs) == []
  }

  /**
   * One iteration adds exactly its call's share to the accounts: one API call, its
   * users, its entry, its dead letter, and no status event.
   */
  lemma {:induction false} StepFacts(calls: seq<CallInput>, i: nat, url: Option<string>, table: Option<string>)
    requires i < |calls|
    ensures var e := StepEffect(url, table, i, |calls|, calls[i]);
            var k := Classify(calls[i].reply);
            e.apiCalls == 1 && e.users == UsersOf(calls[i].reply) && e.errors == Entry(k) &&
            e.sqs == Sends(url, Letter(k, calls[i].size)) && Quiet(e) &&
            e.writes == Saved(table, calls[i]).writes && |e.logs| > 0 &&
            e.logs[|e.logs| - 1] ==
              PutLogEvents(Config.LOG_GROUP, StreamOf(Saved(table, calls[i]).channel), [Stamped(Saved(table, calls[i]).event)])
  {
    var c := calls[i];
    var (got, data) := GetDataEffect(url, c);
    GetDataFacts(url, c);
    var added := AddEffect(Config.USERS_TABLE, table, data, c.write);
    AddEffectCases(Config.USERS_TABLE, table, data, c.write);
    var announce := Sent(InfoChannel, Msg(Performing(i + 1, |calls|)));
    var store := Sent(added.channel, added.event);
    SentNoStatus(InfoChannel, Msg(Performing(i + 1, |calls|)));
    SentNoStatus(added.channel, added.event);
    StreamContentsAppend(announce, got.logs, Config.LOG_GROUP, Config.STATUS_LOG_STREAM);
    StreamContentsAppend(announce + got.logs, store, Config.LOG_GROUP, Config.STATUS_LOG_STREAM);
  }

  /** Every iteration of the loop over `calls` adds exactly its call's share. */
  lemma {:induction false} IterationsAccounted(calls: seq<CallInput>, url: Option<string>, table: Option<string>)
    ensures var effects := IterationEffects(calls, url, table);
            (forall i :: 0 <= i < |effects| ==> effects[i].apiCalls == 1) &&
            (forall i :: 0 <= i < |calls| ==> effects[i].users == UsersOf(calls[i].reply)) &&
            (forall i :: 0 <= i < |calls| ==> effects[i].errors == Entries(calls)[i]) &&
            (forall i :: 0 <= i < |calls| ==> effects[i].sqs == Sends(url, Letters(calls)[i])) &&
            (forall i :: 0 <= i < |effects| ==> Quiet(effects[i])) &&
            (forall i :: 0 <= i < |calls| ==> effects[i].writes == Writes(calls, table)[i])
  {
    var effects := IterationEffects(calls, url, table);
    forall i | 0 <= i < |calls|
      ensures effects[i].apiCalls == 1 && effects[i].users == UsersOf(calls[i].reply)
      ensures effects[i].errors == Entries(calls)[i]
      ensures effects[i].sqs == Sends(url, Letters(calls)[i]) && Quiet(effects[i])
      ensures effects[i].writes == Writes(calls, table)[i]
    {
      StepFacts(calls, i, url, table);
    }
  }

  /** Iterations that dead-letter their calls' failures leave one send per failure on the queue, in order. */
  lemma {:induction false} RunLetters(calls: seq<CallInput>, url: Option<string>, effects: seq<Delta>, start: World)
    requires |effects| == |calls|
    requires forall i :: 0 <= i < |calls| ==> effects[i].sqs == Sends(url, Letters(calls)[i])
    ensures Run(start, effects, |effects|).sqs == start.sqs + Sends(url, DeadLetters(calls, |calls|))
  {
    RunTotal(start, effects, |effects|);
    LettersAccount(Letters(calls), url, effects, |calls|);
  }

  /** Iterations without status events leave the status stream as it was. */
  lemma {:induction false} RunQuiet(effects: seq<Delta>, start: World)
    requires forall i :: 0 <= i < |effects| ==> Quiet(effects[i])
    ensures StatusEvents(Run(start, effects, |effects|).logs) == StatusEvents(start.logs)
  {
    RunTotal(start, effects, |effects|);
    StreamAccount(effects, |effects|);
    StreamContentsAppend(start.logs, Total(effects, |effects|).logs, Config.LOG_GROUP, Config.STATUS_LOG_STREAM);
  }

  /** Effects that each send their run of letters send all the runs, in order. */
  lemma {:induction false} LettersAccount(letters: seq<seq<Value>>, url: Option<string>, effects: seq<Delta>, k: nat)
    requires |effects| == |letters| && k <= |letters|
    requires forall i :: 0 <= i < |letters| ==> effects[i].sqs == Sends(url, letters[i])
    ensures Total(effects, k).sqs == Sends(url, Joined(letters, k))
  {
    if k > 0 {
      LettersAccount(letters, url, effects, k - 1);
      assert effects[k - 1].sqs == Sends(url, letters[k - 1]);
      if url.Some? {
        SendAllAppend(url.value, Joined(letters, k - 1), letters[k - 1]);
      }
    }
  }

  /** The loop sends nothing to the status stream. */
  lemma {:induction false} StreamAccount(effects: seq<Delta>, k: nat)
    requires k <= |effects|
    requires forall i :: 0 <= i < |effects| ==> Quiet(effects[i])
    ensures StatusEvents(Total(effects, k).logs) == []
  {
    if k > 0 {
      StreamAccount(effects, k - 1);
      assert Quiet(effects[k - 1]);
      StreamContentsAppend(Total(effects, k - 1).logs, effects[k - 1].logs, Config.LOG_GROUP,
                           Config.STATUS_LOG_STREAM);
    }
  }

  /** The end of a fetch returns the status with its duration when the errors encode. */
  lemma {:induction false} FinishStatus(w: World, elapsed: real)
    requires forall i :: 0 <= i < |w.status.errors| ==> Serializable(w.status.errors[i])
    ensures var (w', r) := Finish(w, elapsed);
            r == Success(w'.status) && w'.status == w.status.(duration := JFloat(elapsed)) && w'.sqs == w.sqs &&
            w'.writes == w.writes
  {
    StatusSerializable(w.status.(duration := JFloat(elapsed)));
  }

  /** The end of a fetch logs the status last on the status stream, where a peek reads it back. */
  lemma {:induction false} FinishStream(w: World, elapsed: real)
    requires forall i :: 0 <= i < |w.status.errors| ==> Serializable(w.status.errors[i])
    ensures var (w', r) := Finish(w, elapsed);
            StatusEvents(w'.logs) == StatusEvents(w.logs) + [Stamped(Msg(Dumped(StatusValue(w'.status))))] &&
            PeekStatus(NewestReply(StatusEvents(w'.logs))) == Success(Some(StatusValue(w'.status)))
  {
    var st := w.status.(duration := JFloat(elapsed));
    StatusSerializable(st);
    assert Finish(w, elapsed).0 == w.(status := st, logs := w.logs + Sent(StatusChannel, Msg(Dumped(StatusValue(st)))));
    StatusAppend(w.logs, StatusValue(st));
  }

  /** A status event on any log is the newest event of the status stream, and a peek decodes it. */
  lemma {:induction false} StatusAppend(logs: seq<LogsRequest>, v: Value)
    requires Serializable(v)
    ensures StatusEvents(logs + Sent(StatusChannel, Msg(Dumped(v)))) == StatusEvents(logs) + [Stamped(Msg(Dumped(v)))]
    ensures PeekStatus(NewestReply(StatusEvents(logs + Sent(StatusChannel, Msg(Dumped(v)))))) == Success(Some(v))
  {
    var e := Msg(Dumped(v));
    var rq := Sent(StatusChannel, e);
    StreamContentsAppend(logs, rq, Config.LOG_GROUP, Config.STATUS_LOG_STREAM);
    assert rq[..|rq| - 1] == [];
    PutMakesNewest(logs, Config.LOG_GROUP, Config.STATUS_LOG_STREAM, e, Config.STATUS_LOG_STREAM);
  }

  /**
   * The loop of a fetch, from the reset status: the calls, their users and their entries
   * counted, their failures dead-lettered and their batches stored, in call order, and
   * nothing on the status stream.
   */
  lemma {:induction false} LoopFacts(calls: seq<CallInput>, url: Option<string>, table: Option<string>,
                                     timestamp: int, before: World)
    ensures var w := Run(before.(status := ResetStatus(timestamp)), IterationEffects(calls, url, table), |calls|);
            var n := |calls|;
            w.status == FetchStatus(SumUsers(calls, n), n, ErrorEntries(calls, n), timestamp, JFloat(0.0)) &&
            w.sqs == before.sqs + Sends(url, DeadLetters(calls, n)) &&
            w.writes == before.writes + Joined(Writes(calls, table), n) &&
            StatusEvents(w.logs) == StatusEvents(before.logs)
  {
    LoopStatus(calls, url, table, timestamp, before);
    LoopTraffic(calls, url, table, timestamp, before);
  }

  /** The status the loop leaves: the calls, the users of the good batches and the entries, in call order. */
  lemma {:induction false} LoopStatus(calls: seq<CallInput>, url: Option<string>, table: Option<string>,
                                      timestamp: int, before: World)
    ensures var w := Run(before.(status := ResetStatus(timestamp)), IterationEffects(calls, url, table), |calls|);
            var n := |calls|;
            w.status == FetchStatus(SumUsers(calls, n), n, ErrorEntries(calls, n), timestamp, JFloat(0.0))
  {
    IterationsAccounted(calls, url, table);
    ResetRunStatus(calls, Entries(calls), IterationEffects(calls, url, table), before, ResetStatus(timestamp));
  }

  /** What the loop sends: the dead letters to the queue and the batches to the table, in call order, and nothing to Status. */
  lemma {:induction false} LoopTraffic(calls: seq<CallInput>, url: Option<string>, table: Option<string>,
                                       timestamp: int, before: World)
    ensures var w := Run(before.(status := ResetStatus(timestamp)), IterationEffects(calls, url, table), |calls|);
            var n := |calls|;
            w.sqs == before.sqs + Sends(url, DeadLetters(calls, n)) &&
            w.writes == before.writes + Joined(Writes(calls, table), n) &&
            StatusEvents(w.logs) == StatusEvents(before.logs)
  {
    var start := before.(status := ResetStatus(timestamp));
    var effects := IterationEffects(calls, url, table);
    IterationsAccounted(calls, url, table);
    RunLetters(calls, url, effects, start);
    RunWrites(calls, table, effects, start);
    RunQuiet(effects, start);
  }

  /**
   * What a fetch promises: it never raises, it makes exactly one API call per iteration,
   * counts exactly the users of the successful batches, keeps one errors entry per non-200
   * or sentinel reply, dead-letters every failure, discards the previous status, writes
   * one status event last, stores every batch in the users table in call order, and a status peek then reads the returned status back.
   */
  lemma {:induction false} FetchFacts(calls: seq<CallInput>, url: Option<string>, table: Option<string>,
                                      timestamp: int, elapsed: real, before: World)
    ensures var (w, r) := FetchEffect(calls, url, table, timestamp, elapsed, before);
            var n := |calls|;
            r == Success(w.status) &&
            w.status == FetchStatus(SumUsers(calls, n), n, ErrorEntries(calls, n), timestamp, JFloat(elapsed)) &&
            |w.status.errors| == CountKind(calls, n, IsNon200) + CountKind(calls, n, IsSentinel) &&
            w.sqs == before.sqs + Sends(url, DeadLetters(calls, n)) &&
            |w.sqs| == |before.sqs| + (if url.Some? then CountKind(calls, n, IsFailure) else 0) &&
            w.writes == before.writes + Joined(Writes(calls, table), n) &&
            StatusEvents(w.logs) == StatusEvents(before.logs) + [Stamped(Msg(Dumped(StatusValue(w.status))))] &&
            PeekStatus(NewestReply(StatusEvents(w.logs))) == Success(Some(StatusValue(w.status)))
  {
    var lw := Run(before.(status := ResetStatus(timestamp)), IterationEffects(calls, url, table), |calls|);
    LoopFacts(calls, url, table, timestamp, before);
    EntriesCount(calls, |calls|);
    LettersCount(calls, |calls|);
    EntriesSerializable(calls, |calls|);
    FinishStatus(lw, elapsed);
    FinishStream(lw, elapsed);
  }

  // ---------------------------------------------------------------------------
  // Construction

  /** The event the constructor's except block builds for an error `e`. */
  function FatalEvent(e: Exc): LogEvent {
    Msg(Dumped(JDict([("message", JStr("[FATAL] Could not create Data Fetcher")), ("error_message", JStr(e.text))])))
  }

  /** The error construction meets, if any: that of `exists`, or that of `create_table` when it ran. */
  function InitError(load: Option<Exc>, create: Option<Exc>, wait: Option<Exc>): Option<Exc> {
    var ex := ExistsEffect(Current, Config.USERS_TABLE, load).result;
    if ex.Failure? then Some(ex.error)
    else if ex.value then None
    else
      var cr := CreateEffect(Config.USERS_TABLE, create, wait).result;
      if cr.Failure? then Some(cr.error) else None
  }

  /** What the table operations of construction log: exists', then create_table's when it ran. */
  function InitTableLogs(load: Option<Exc>, create: Option<Exc>, wait: Option<Exc>): seq<LogsRequest> {
    var ex := ExistsEffect(Current, Config.USERS_TABLE, load);
    ErrorLogged(ex.errorEvent) +
      (if ex.result == Success(false) then ErrorLogged(CreateEffect(Config.USERS_TABLE, create, wait).errorEvent) else [])
  }

  /**
   * `__init__` as written: the except block calls the logger object itself, which raises
   * TypeError, so the fatal event is never logged and the cause is not re-raised.
   */
  function InitEffect(load: Option<Exc>, create: Option<Exc>, wait: Option<Exc>): (r: (Outcome<Exc>, seq<LogsRequest>))
    ensures r.1 == InitTableLogs(load, create, wait)
  {
    var failure := InitError(load, create, wait);
    (if failure.Some? then Fail(NOT_CALLABLE) else Pass, InitTableLogs(load, create, wait))
  }

  /** `__init__` as evidently intended: log the fatal event on the error stream and re-raise the cause. */
  function IntendedInitEffect(load: Option<Exc>, create: Option<Exc>, wait: Option<Exc>)
    : (r: (Outcome<Exc>, seq<LogsRequest>))
    ensures InitError(load, create, wait).None? ==> r == (Pass, InitTableLogs(load, create, wait))
    ensures InitError(load, create, wait).Some? ==>
              r.0 == Fail(InitError(load, create, wait).value) &&
              r.1 == InitTableLogs(load, create, wait) + Sent(ErrorChannel, FatalEvent(InitError(load, create, wait).value))
  {
    var failure := InitError(load, create, wait);
    if failure.Some? then (Fail(failure.value), InitTableLogs(load, create, wait) + Sent(ErrorChannel, FatalEvent(failure.value)))
    else (Pass, InitTableLogs(load, create, wait))
  }

  /** The intended construction logs exactly one fatal event more, and only when construction fails. */
  lemma {:induction false} IntendedInitLogsCause(load: Option<Exc>, create: Option<Exc>, wait: Option<Exc>)
    ensures var (o, logs) := IntendedInitEffect(load, create, wait);
            (o.Fail? <==> InitError(load, create, wait).Some?) &&
            (o.Fail? ==> |logs| == |InitTableLogs(load, create, wait)| + 1 &&
                         logs[|logs| - 1] == PutLogEvents(Config.LOG_GROUP, Config.ERROR_LOG_STREAM,
                                                          [Stamped(FatalEvent(o.error))]))
  {
  }

  /** A table that cannot be checked for another reason than absence: the cause is lost, nothing fatal is logged. */
  lemma {:induction false} InitLosesCause()
    ensures var denied := ClientError("AccessDeniedException", "denied", "AccessDeniedException: denied");
            InitError(Some(denied), None, None) == Some(denied) &&
            InitEffect(Some(denied), None, None).0 == Fail(NOT_CALLABLE) &&
            IntendedInitEffect(Some(denied), None, None).0 == Fail(denied) &&
            |InitEffect(Some(denied), None, None).1| + 1 == |IntendedInitEffect(Some(denied), None, None).1|
  {
    var denied := ClientError("AccessDeniedException", "denied", "AccessDeniedException: denied");
    assert "AccessDeniedException" != RESOURCE_NOT_FOUND;
  }

  class DataFetcher {
    /** `current_fetch_status`. */
    var status: FetchStatus
    const logger: EventLogger
    const users: Persistence.UsersTable
    const dlq: DeadLetterQueue

    /** The three collaborators log through the one logger. */
    predicate Wired() {
      users.logger == logger && dlq.logger == logger
    }

    /**
     * The assignments of `__init__`: a fresh status (clock reading `timestamp`) and the
     * collaborators, before the table check that `Init` performs.
     */
    constructor (logger: EventLogger, users: Persistence.UsersTable, dlq: DeadLetterQueue, timestamp: int)
      requires users.logger == logger && dlq.logger == logger
      ensures Wired() && this.logger == logger && this.users == users && this.dlq == dlq
      ensures status == ResetStatus(timestamp)
    {
      status := ResetStatus(timestamp);
      this.logger := logger;
      this.users := users;
      this.dlq := dlq;
    }

    /**
     * The table check of `__init__`: create the table when `exists()` is false. A
     * failure is logged as the fatal event and re-raised, as the except block intends;
     * `InitEffect` is the except block as written.
     */
    method Init(load: Option<Exc>, create: Option<Exc>, wait: Option<Exc>) returns (r: Outcome<Exc>)
      requires Wired()
      modifies users`table, users`requests, logger`requests
      ensures users.table == Some(Config.USERS_TABLE)
      ensures var eff := IntendedInitEffect(load, create, wait);
              r == eff.0 && logger.requests == old(logger.requests) + eff.1
      ensures users.requests == old(users.requests) +
                (if ExistsEffect(Current, Config.USERS_TABLE, load).result == Success(false)
                 then [CreateRequest(Config.USERS_TABLE)] else [])
    {
      r := Pass;
      var found := users.Exists(load);
      if found.Failure? {
        r := Fail(found.error);
      } else if !found.value {
        var created := users.CreateTable(create, wait);
        if created.Failure? {
          r := Fail(created.error);
        }
      }
      if r.Fail? {
        var logged := logger.Error(FatalEvent(r.error));
      }
    }

    /**
     * `fetch()`, given each iteration's inputs, the clock reading of the reset and the
     * elapsed seconds: the loop, then one status event; the status is returned.
     */
    method Fetch(calls: seq<CallInput>, timestamp: int, elapsed: real) returns (r: Result<FetchStatus, Exc>)
      requires Wired()
      requires Config.MIN_CALLS_PER_FETCH <= |calls| <= Config.MAX_CALLS_PER_FETCH && ValidSizes(calls)
      modifies this`status, logger`requests, dlq`requests, users`requests
      ensures var (w, res) := FetchEffect(calls, dlq.queueUrl, users.table, timestamp, elapsed,
                                          World(old(status), old(logger.requests), old(dlq.requests), old(users.requests)));
              World(status, logger.requests, dlq.requests, users.requests) == w && r == res
    {
      status := ResetStatus(timestamp);
      RunLoop(calls);
      r := Conclude(elapsed);
    }

    /** The loop of `fetch()`: one iteration per call. */
    method RunLoop(calls: seq<CallInput>)
      requires Wired()
      modifies this`status, logger`requests, dlq`requests, users`requests
      ensures World(status, logger.requests, dlq.requests, users.requests)
              == Run(World(old(status), old(logger.requests), old(dlq.requests), old(users.requests)),
                     IterationEffects(calls, dlq.queueUrl, users.table), |calls|)
    {
      ghost var start := World(status, logger.requests, dlq.requests, users.requests);
      ghost var effects := IterationEffects(calls, dlq.queueUrl, users.table);
      var n := |calls|;
      for i := 0 to n
        invariant World(status, logger.requests, dlq.requests, users.requests) == Run(start, effects, i)
      {
        Iteration(i, n, calls[i]);
      }
    }

    /** Iteration `i` of `n`: announce the call, get the batch, count it, store it. */
    method Iteration(i: int, n: int, c: CallInput)
      requires Wired()
      modifies this`status, logger`requests, dlq`requests, users`requests
      ensures World(status, logger.requests, dlq.requests, users.requests)
              == Apply(World(old(status), old(logger.requests), old(dlq.requests), old(users.requests)),
                       StepEffect(dlq.queueUrl, users.table, i, n, c))
    {
      ghost var before := World(status, logger.requests, dlq.requests, users.requests);
      ghost var announce := Sent(InfoChannel, Msg(Performing(i + 1, n)));
      var logged := logger.Info(Msg(Performing(i + 1, n)));
      var data := GetData(c);
      ghost var got := GetDataEffect(dlq.queueUrl, c).0;
      status := status.(users := status.users + Len(data));
      ghost var stored := AddEffect(Config.USERS_TABLE, users.table, data, c.write);
      users.AddElements(data, c.write);
      StepParts(dlq.queueUrl, users.table, i, n, c, got, data, stored);
      CombineApply(before, announce, got, Len(data), Sent(stored.channel, stored.event), stored.writes);
      assert logger.requests == before.logs + announce + got.logs + Sent(stored.channel, stored.event);
    }

    /** The end of `fetch()`: the duration, then the status event. */
    method Conclude(elapsed: real) returns (r: Result<FetchStatus, Exc>)
      modifies this`status, logger`requests
      ensures (World(status, logger.requests, dlq.requests, users.requests), r)
              == Finish(World(old(status), old(logger.requests), dlq.requests, users.requests), elapsed)
    {
      status := status.(duration := JFloat(elapsed));
      if Serializable(StatusValue(status)) {
        var logged := logger.Status(Msg(Dumped(StatusValue(status))));
        r := Success(status);
      } else {
        r := Failure(TYPE_ERROR);
      }
    }

    /** `_get_data(USERS_ENDPOINT)` for one iteration's inputs. */
    method GetData(c: CallInput) returns (data: Value)
      requires Wired()
      modifies this`status, logger`requests, dlq`requests
      ensures World(status, logger.requests, dlq.requests, users.requests)
              == Apply(World(old(status), old(logger.requests), old(dlq.requests), users.requests),
                       GetDataEffect(dlq.queueUrl, c).0)
      ensures data == GetDataEffect(dlq.queueUrl, c).1
    {
      ghost var before := World(status, logger.requests, dlq.requests, users.requests);
      status := status.(apiCalls := status.apiCalls + 1);
      var kind := Classify(c.reply);
      data := Handle(kind, c.size, c.dlqReply);
      CountedApply(before, Handled(dlq.queueUrl, kind, c.size, c.dlqReply).0);
    }

    /** The branches of `_get_data` after the call: log the batch, or report the failure. */
    method Handle(kind: CallKind, size: int, reply: Option<Exc>) returns (data: Value)
      requires Wired() && (kind.Ok? ==> Sized(kind.data))
      modifies this`status, logger`requests, dlq`requests
      ensures World(status, logger.requests, dlq.requests, users.requests)
              == Apply(World(old(status), old(logger.requests), old(dlq.requests), users.requests),
                       Handled(dlq.queueUrl, kind, size, reply).0)
      ensures data == Handled(dlq.queueUrl, kind, size, reply).1
    {
      match kind {
        case Ok(d) =>
          var logged := logger.Info(Msg(FetchedUsers(Len(d))));
          data := d;
        case Non200(code, text) =>
          ReportFailure(Non200Event(code, text), true, reply);
          data := JList([]);
        case Sentinel(code, text) =>
          ReportFailure(SentinelEvent(code, text), true, reply);
          data := JList([]);
        case Failed(e) =>
          ReportFailure(RuntimeEvent(e, size), false, reply);
          data := JList([]);
      }
    }

    /** The common tail of `_get_data`'s failure branches: record, log and dead-letter the event. */
    method ReportFailure(ev: Value, entry: bool, dlqReply: Option<Exc>)
      requires Wired()
      modifies this`status, logger`requests, dlq`requests
      ensures World(status, logger.requests, dlq.requests, users.requests)
              == Apply(World(old(status), old(logger.requests), old(dlq.requests), users.requests),
                       Report(dlq.queueUrl, ev, entry, dlqReply))
    {
      ghost var before := World(status, logger.requests, dlq.requests, users.requests);
      if entry {
        status := status.(errors := status.errors + [ev]);
      }
      Alert(ev, dlqReply);
      ReportApply(before, dlq.queueUrl, ev, entry, dlqReply);
    }

    /** `event_logger.error` of the dumped event, then `dlq.send(message=ev)`. */
    method Alert(ev: Value, dlqReply: Option<Exc>)
      requires Wired()
      modifies logger`requests, dlq`requests
      ensures var sent := SendEffect(dlq.queueUrl, ev, None, dlqReply);
              logger.requests == old(logger.requests) + (Sent(ErrorChannel, Msg(Dumped(ev))) + sent.1) &&
              dlq.requests == old(dlq.requests) + sent.0
    {
      ghost var logs := logger.requests;
      var logged := logger.Error(Msg(Dumped(ev)));
      dlq.Send(ev, None, dlqReply);
      assert logger.requests == logs + Sent(ErrorChannel, Msg(Dumped(ev))) + SendEffect(dlq.queueUrl, ev, None, dlqReply).1;
    }

    /** `status()`: the peek of the logger, given what the status stream returns. */
    method Status(reply: Result<seq<Text>, Exc>) returns (r: Result<Option<Value>, Exc>)
      ensures r == PeekStatus(reply)
    {
      r := logger.PeekStatus(reply);
    }

    /** `get()`: the table's elements, or [] when `get_elements` raises. */
    method Get(replies: seq<ScanReply>) returns (r: seq<Value>)
      requires Wired()
      requires users.table.Some? ==> Stop(replies) < |replies|
      modifies logger`requests
      ensures var eff := GetEffect(Current, Config.USERS_TABLE, users.table, replies);
              r == (if eff.result.Success? then eff.result.value else []) &&
              logger.requests == old(logger.requests) + ErrorLogged(eff.errorEvent)
    {
      var scans;
      var got;
      got, scans := users.GetElements(replies);
      r := if got.Success? then got.value else [];
    }
  }
}
