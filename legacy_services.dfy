/**
 * services.py: the earlier data fetcher. It has no dead-letter queue, resets the
 * duration to the integer 0, and its error events carry the HTTP response object under
 * "response". That key makes the logger reject the event, and the object makes
 * `json.dumps` of the status raise. The root-level configuration is not part of this
 * model, so the number of calls and the page sizes are not constrained.
 */
module LegacyServices {
  import opened Wrappers
  import opened PyValue
  import opened Logging
  import opened Tables
  import opened LegacyLogs
  import opened Fetching
  import LegacyData
  import Config

  /** `_reset_fetch_status()`, with the clock reading `timestamp`. */
  function ResetStatus(timestamp: int): FetchStatus {
    FetchStatus(0, 0, [], timestamp, JInt(0))
  }

  /** The `requests.Response` object the error events hold. */
  const RESPONSE: Value := Opaque("Response")

  /** The errors entry of a non-200 response. */
  function Non200Entry(code: int): (v: Value)
    ensures !Serializable(v)
  {
    var v := JDict([("message", JStr(ReceivedText(code))), ("response", RESPONSE)]);
    assert v.entries[1].1 == RESPONSE;
    v
  }

  /** The errors entry of a 200 response that carries the size sentinel. */
  function SentinelEntry(): (v: Value)
    ensures !Serializable(v)
  {
    var v := JDict([("message", JStr(UNEXPECTED_TEXT)), ("response", RESPONSE)]);
    assert v.entries[1].1 == RESPONSE;
    v
  }

  /** The same dict handed to `error`: a message and the extra key "response". */
  function EntryEvent(text: string): LogEvent {
    LogEvent(Plain(text), None, ["response"])
  }

  /** The event of `_get_data`'s except block. */
  function RuntimeLog(e: Exc): LogEvent {
    Msg(RuntimeFailure(e))
  }

  /**
   * A failure branch inside the try block: append `entry` to the errors, then log it;
   * when that raises, the except block logs the runtime event instead.
   */
  function Recorded(names: LogNames, entry: Value, text: string): Delta {
    var tried := PutOutcome(names.group, names.error, EntryEvent(text));
    Delta(0, 0, [entry],
          Sent(names, ErrorChannel, EntryEvent(text)) +
            (if tried.Fail? then Sent(names, ErrorChannel, RuntimeLog(tried.error)) else []),
          [], [])
  }

  /** What `_get_data` does once the call is counted, and the batch it returns ([] on every failure). */
  function Handled(names: LogNames, k: CallKind): (r: (Delta, Value))
    requires k.Ok? ==> Sized(k.data)
    ensures Sized(r.1)
  {
    match k
    case Ok(data) => (Delta(0, 0, [], Sent(names, InfoChannel, Msg(FetchedUsers(Len(data)))), [], []), data)
    case Non200(code, _) => (Recorded(names, Non200Entry(code), ReceivedText(code)), JList([]))
    case Sentinel(_, _) => (Recorded(names, SentinelEntry(), UNEXPECTED_TEXT), JList([]))
    case Failed(e) => (Delta(0, 0, [], Sent(names, ErrorChannel, RuntimeLog(e)), [], []), JList([]))
  }

  /** `_get_data(USERS_ENDPOINT)`: count the call, then handle the reply. */
  function GetDataEffect(names: LogNames, c: CallInput): (r: (Delta, Value))
    ensures Sized(r.1)
  {
    var (handled, data) := Handled(names, Classify(c.reply));
    (handled.(apiCalls := 1), data)
  }

  /** Iteration `i` of `n` of the fetch loop: announce, get, count, store. */
  function StepEffect(names: LogNames, table: Option<string>, i: int, n: int, c: CallInput): Delta {
    var (got, data) := GetDataEffect(names, c);
    var added := AddEffect(Config.USERS_TABLE, table, data, c.write);
    Combine(Sent(names, InfoChannel, Msg(Performing(i + 1, n))), got, Len(data),
            Sent(names, added.channel, added.event), added.writes)
  }

  /** A step in terms of the call's effect and batch and the store's effect. */
  lemma {:induction false} StepParts(names: LogNames, table: Option<string>, i: int, n: int, c: CallInput,
                                     got: Delta, data: Value, stored: Added)
    requires (got, data) == GetDataEffect(names, c) && stored == AddEffect(Config.USERS_TABLE, table, data, c.write)
    ensures StepEffect(names, table, i, n, c) ==
              Combine(Sent(names, InfoChannel, Msg(Performing(i + 1, n))), got, Len(data),
                      Sent(names, stored.channel, stored.event), stored.writes)
  {
  }

  /** The effects of the iterations of the fetch loop over `calls`, in order. */
  function IterationEffects(names: LogNames, calls: seq<CallInput>, table: Option<string>): (r: seq<Delta>)
    ensures |r| == |calls|
  {
    seq(|calls|, i requires 0 <= i < |calls| => StepEffect(names, table, i, |calls|, calls[i]))
  }

  /** `fetch()`: reset the status (clock reading `timestamp`), run the loop, then finish. */
  function FetchEffect(names: LogNames, calls: seq<CallInput>, table: Option<string>,
                       timestamp: int, elapsed: real, before: World): (World, Result<FetchStatus, Exc>)
  {
    Finish(names, Run(before.(status := ResetStatus(timestamp)), IterationEffects(names, calls, table), |calls|), elapsed)
  }

  /**
   * The end of `fetch()`: record the elapsed seconds, log the status and return it;
   * `json.dumps` of the status raising makes `fetch` raise.
   */
  function Finish(names: LogNames, w: World, elapsed: real): (World, Result<FetchStatus, Exc>) {
    var st := w.status.(duration := JFloat(elapsed));
    if Serializable(StatusValue(st))
    then (w.(status := st, logs := w.logs + Sent(names, StatusChannel, Msg(Dumped(StatusValue(st))))), Success(st))
    else (w.(status := st), Failure(TYPE_ERROR))
  }

  // ---------------------------------------------------------------------------
  // What a fetch accounts for

  /** The errors entries a call appends: one for a non-200 response or the sentinel, none otherwise. */
  function Entry(k: CallKind): seq<Value> {
    match k
    case Non200(code, _) => [Non200Entry(code)]
    case Sentinel(_, _) => [SentinelEntry()]
    case _ => []
  }

  /** The errors entries of the first `k` calls. */
  function ErrorEntries(calls: seq<CallInput>, k: nat): seq<Value>
    requires k <= |calls|
  {
    Joined(Entries(calls), k)
  }

  /** The errors entry of each call. */
  function Entries(calls: seq<CallInput>): (r: seq<seq<Value>>)
    ensures |r| == |calls|
  {
    seq(|calls|, i requires 0 <= i < |calls| => Entry(Classify(calls[i].reply)))
  }

  /** The errors count the non-200 responses and the sentinels, one entry each. */
  lemma {:induction false} EntriesCount(calls: seq<CallInput>, k: nat)
    requires k <= |calls|
    ensures |ErrorEntries(calls, k)| == CountKind(calls, k, IsNon200) + CountKind(calls, k, IsSentinel)
  {
    var runs := Entries(calls);
    forall i | 0 <= i < |calls|
      ensures |runs[i]| == (if IsNon200(Classify(calls[i].reply)) || IsSentinel(Classify(calls[i].reply)) then 1 else 0)
    {
      assert runs[i] == Entry(Classify(calls[i].reply));
    }
    EntryRunsCount(calls, runs, k);
  }

  /** No errors entry encodes: each holds the response object. */
  lemma {:induction false} EntriesUnserializable(calls: seq<CallInput>, k: nat)
    requires k <= |calls|
    ensures forall i :: 0 <= i < |ErrorEntries(calls, k)| ==> !Serializable(ErrorEntries(calls, k)[i])
  {
    var runs := Entries(calls);
    forall i, j | 0 <= i < |runs| && 0 <= j < |runs[i]| ensures !Serializable(runs[i][j]) {
      assert runs[i] == Entry(Classify(calls[i].reply));
    }
    JoinedElements(runs, k, v => !Serializable(v));
  }

  /** The events of the fetches stream. */
  function StatusEvents(names: LogNames, logs: seq<LogsRequest>): seq<InputLogEvent> {
    StreamContents(logs, names.group, names.fetches)
  }

  /** An event on another channel adds nothing to the fetches stream. */
  lemma {:induction false} SentNoStatus(names: LogNames, c: Channel, e: LogEvent)
    requires Distinct(names) && c != StatusChannel
    ensures StatusEvents(names, Sent(names, c, e)) == []
  {
    ChannelsApart(names, [], c, StatusChannel, e);
    assert [] + Sent(names, c, e) == Sent(names, c, e);
  }

  /**
   * A failure branch counts nothing, appends its entry and sends nothing but the
   * runtime event: the entry's own event is rejected for its "response" key.
   */
  lemma {:induction false} RecordedFacts(names: LogNames, entry: Value, text: string)
    requires Distinct(names)
    ensures var e := Recorded(names, entry, text);
            e.apiCalls == 0 && e.users == 0 && e.errors == [entry] && e.sqs == [] && e.writes == [] &&
            e.logs == Sent(names, ErrorChannel, RuntimeLog(PARAM_VALIDATION_ERROR)) &&
            StatusEvents(names, e.logs) == []
  {
    assert !Acceptable(EntryEvent(text));
    SentNoStatus(names, ErrorChannel, RuntimeLog(PARAM_VALIDATION_ERROR));
  }

  /** One call to `_get_data`: one API call, its users, its entry, no queue, nothing on the fetches stream. */
  lemma {:induction false} GetDataFacts(names: LogNames, c: CallInput)
    requires Distinct(names)
    ensures var (e, data) := GetDataEffect(names, c);
            e.apiCalls == 1 && e.users == 0 && e.errors == Entry(Classify(c.reply)) && data == Batch(c.reply) &&
            e.sqs == [] && StatusEvents(names, e.logs) == [] && e.writes == []
  {
    HandledCounts(names, Classify(c.reply));
    HandledQuiet(names, Classify(c.reply));
  }

  /** The reply's handling counts nothing, appends the call's entry and writes to neither queue nor table. */
  lemma {:induction false} HandledCounts(names: LogNames, k: CallKind)
    requires k.Ok? ==> Sized(k.data)
    ensures var (e, data) := Handled(names, k);
            e.apiCalls == 0 && e.users == 0 && e.errors == Entry(k) && data == (if k.Ok? then k.data else JList([])) &&
            e.sqs == [] && e.writes == []
  {
  }

  /** The reply's handling sends nothing to the fetches stream. */
  lemma {:induction false} HandledQuiet(names: LogNames, k: CallKind)
    requires Distinct(names) && (k.Ok? ==> Sized(k.data))
    ensures StatusEvents(names, Handled(names, k).0.logs) == []
  {
    match k
    case Ok(d) =>
      SentNoStatus(names, InfoChannel, Msg(FetchedUsers(Len(d))));
    case Non200(code, _) =>
      RecordedFacts(names, Non200Entry(code), ReceivedText(code));
    case Sentinel(_, _) =>
      RecordedFacts(names, SentinelEntry(), UNEXPECTED_TEXT);
    case Failed(e) =>
      SentNoStatus(names, ErrorChannel, RuntimeLog(e));
  }

  /** An effect that sends nothing to the fetches stream. */
  predicate Quiet(names: LogNames, e: Delta) {
    StatusEvents(names, e.logs) == []
  }

  /**
   * Every iteration accounts for its call: one API call, its users, its entry, no
   * queue message, nothing on the fetches stream, and the store of its batch, whose
   * outcome is the iteration's last log request.
   */
  lemma {:induction false} StepFacts(names: LogNames, calls: seq<CallInput>, i: nat, table: Option<string>)
    requires Distinct(names) && i < |calls|
    ensures var e := StepEffect(names, table, i, |calls|, calls[i]);
            e.apiCalls == 1 && e.users == UsersOf(calls[i].reply) && e.errors == Entry(Classify(calls[i].reply)) &&
            e.sqs == [] && Quiet(names, e) &&
            e.writes == Saved(table, calls[i]).writes && |e.logs| > 0 &&
            e.logs[|e.logs| - 1] ==
              PutLogEvents(names.group, StreamOf(names, Saved(table, calls[i]).channel), [Stamped(Saved(table, calls[i]).event)])
  {
    var c := calls[i];
    var (got, data) := GetDataEffect(names, c);
    GetDataFacts(names, c);
    var added := AddEffect(Config.USERS_TABLE, table, data, c.write);
    AddEffectCases(Config.USERS_TABLE, table, data, c.write);
    var announce := Sent(names, InfoChannel, Msg(Performing(i + 1, |calls|)));
    var store := Sent(names, added.channel, added.event);
    SentNoStatus(names, InfoChannel, Msg(Performing(i + 1, |calls|)));
    SentNoStatus(names, added.channel, added.event);
    StreamContentsAppend(announce, got.logs, names.group, names.fetches);
    StreamContentsAppend(announce + got.logs, store, names.group, names.fetches);
  }

  /** Every iteration of the loop over `calls` accounts for its call, and stores its batch. */
  lemma {:induction false} IterationsAccounted(names: LogNames, calls: seq<CallInput>, table: Option<string>)
    requires Distinct(names)
    ensures var effects := IterationEffects(names, calls, table);
            (forall i :: 0 <= i < |effects| ==> effects[i].apiCalls == 1) &&
            (forall i :: 0 <= i < |calls| ==> effects[i].users == UsersOf(calls[i].reply)) &&
            (forall i :: 0 <= i < |calls| ==> effects[i].errors == Entries(calls)[i]) &&
            (forall i :: 0 <= i < |effects| ==> effects[i].sqs == []) &&
            (forall i :: 0 <= i < |effects| ==> Quiet(names, effects[i])) &&
            (forall i :: 0 <= i < |calls| ==> effects[i].writes == Writes(calls, table)[i])
  {
    var effects := IterationEffects(names, calls, table);
    forall i | 0 <= i < |calls|
      ensures effects[i].apiCalls == 1 && effects[i].users == UsersOf(calls[i].reply)
      ensures effects[i].errors == Entries(calls)[i] && effects[i].sqs == [] && Quiet(names, effects[i])
      ensures effects[i].writes == Writes(calls, table)[i]
    {
      StepFacts(names, calls, i, table);
    }
  }

  /** The loop sends nothing to a queue. */
  lemma {:induction false} QueueAccount(effects: seq<Delta>, k: nat)
    requires k <= |effects|
    requires forall i :: 0 <= i < |effects| ==> effects[i].sqs == []
    ensures Total(effects, k).sqs == []
  {
    if k > 0 {
      QueueAccount(effects, k - 1);
      assert effects[k - 1].sqs == [];
    }
  }

  /** The loop sends nothing to the fetches stream. */
  lemma {:induction false} StreamAccount(names: LogNames, effects: seq<Delta>, k: nat)
    requires k <= |effects|
    requires forall i :: 0 <= i < |effects| ==> Quiet(names, effects[i])
    ensures StatusEvents(names, Total(effects, k).logs) == []
  {
    if k > 0 {
      StreamAccount(names, effects, k - 1);
      assert Quiet(names, effects[k - 1]);
      StreamContentsAppend(Total(effects, k - 1).logs, effects[k - 1].logs, names.group, names.fetches);
    }
  }

  /**
   * The end of a fetch succeeds exactly when the errors are empty, since no entry
   * encodes; it then logs the status on the fetches stream, where `status()` reads it.
   */
  lemma {:induction false} FinishFacts(names: LogNames, w: World, elapsed: real)
    requires forall i :: 0 <= i < |w.status.errors| ==> !Serializable(w.status.errors[i])
    ensures var (w', r) := Finish(names, w, elapsed);
            w'.status == w.status.(duration := JFloat(elapsed)) && w'.sqs == w.sqs && w'.writes == w.writes &&
            (r.Success? <==> w.status.errors == []) &&
            (r.Success? ==> r.value == w'.status &&
                            StatusEvents(names, w'.logs)
                            == StatusEvents(names, w.logs) + [Stamped(Msg(Dumped(StatusValue(w'.status))))] &&
                            PeekStatus(NewestReply(StatusEvents(names, w'.logs))) == Success(Some(StatusValue(w'.status)))) &&
            (r.Failure? ==> r.error == TYPE_ERROR && w'.logs == w.logs)
  {
    var st := w.status.(duration := JFloat(elapsed));
    StatusSerializable(st);
    if st.errors != [] {
      assert !Serializable(st.errors[0]);
    } else {
      var e := Msg(Dumped(StatusValue(st)));
      var rq := Sent(names, StatusChannel, e);
      StreamContentsAppend(w.logs, rq, names.group, names.fetches);
      assert rq[..|rq| - 1] == [];
      StatusReadBack(names, w.logs, StatusValue(st));
    }
  }

  /** The loop of a fetch, from the reset status: what `FetchFacts` and `FetchOutcome` build on. */
  lemma {:induction false} LoopFacts(names: LogNames, calls: seq<CallInput>, table: Option<string>,
                                     timestamp: int, before: World)
    requires Distinct(names)
    ensures var w := Run(before.(status := ResetStatus(timestamp)), IterationEffects(names, calls, table), |calls|);
            var n := |calls|;
            w.status == FetchStatus(SumUsers(calls, n), n, ErrorEntries(calls, n), timestamp, JInt(0)) &&
            w.sqs == before.sqs && StatusEvents(names, w.logs) == StatusEvents(names, before.logs) &&
            w.writes == before.writes + Joined(Writes(calls, table), n)
  {
    var start := before.(status := ResetStatus(timestamp));
    var effects := IterationEffects(names, calls, table);
    IterationsAccounted(names, calls, table);
    ResetRunStatus(calls, Entries(calls), effects, before, ResetStatus(timestamp));
    RunQuiet(names, effects, start);
    RunWrites(calls, table, effects, start);
  }

  /** Iterations that send nothing to a queue or the fetches stream leave both as they were. */
  lemma {:induction false} RunQuiet(names: LogNames, effects: seq<Delta>, start: World)
    requires forall i :: 0 <= i < |effects| ==> effects[i].sqs == []
    requires forall i :: 0 <= i < |effects| ==> Quiet(names, effects[i])
    ensures var w := Run(start, effects, |effects|);
            w.sqs == start.sqs && StatusEvents(names, w.logs) == StatusEvents(names, start.logs)
  {
    RunTotal(start, effects, |effects|);
    QueueAccount(effects, |effects|);
    StreamAccount(names, effects, |effects|);
    StreamContentsAppend(start.logs, Total(effects, |effects|).logs, names.group, names.fetches);
    assert start.sqs + [] == start.sqs;
  }

  /**
   * A whole fetch: every call counted, the users of the good batches summed, one entry
   * per non-200 response or sentinel, nothing dead-lettered, every batch stored in call
   * order; it returns normally exactly
   * when no such entry was appended.
   */
  lemma {:induction false} FetchFacts(names: LogNames, calls: seq<CallInput>, table: Option<string>,
                                      timestamp: int, elapsed: real, before: World)
    requires Distinct(names)
    ensures var (w, r) := FetchEffect(names, calls, table, timestamp, elapsed, before);
            var n := |calls|;
            w.status == FetchStatus(SumUsers(calls, n), n, ErrorEntries(calls, n), timestamp, JFloat(elapsed)) &&
            |w.status.errors| == CountKind(calls, n, IsNon200) + CountKind(calls, n, IsSentinel) &&
            w.sqs == before.sqs && w.writes == before.writes + Joined(Writes(calls, table), n) &&
            (r.Success? <==> CountKind(calls, n, IsNon200) + CountKind(calls, n, IsSentinel) == 0)
  {
    LoopFacts(names, calls, table, timestamp, before);
    EntriesCount(calls, |calls|);
    EntriesUnserializable(calls, |calls|);
    FinishFacts(names, Run(before.(status := ResetStatus(timestamp)), IterationEffects(names, calls, table), |calls|),
                elapsed);
  }

  /**
   * How a fetch ends: it returns its status and logs it on the fetches stream, where
   * `status()` reads it back, or it raises TypeError without logging a status.
   */
  lemma {:induction false} FetchOutcome(names: LogNames, calls: seq<CallInput>, table: Option<string>,
                                        timestamp: int, elapsed: real, before: World)
    requires Distinct(names)
    ensures var (w, r) := FetchEffect(names, calls, table, timestamp, elapsed, before);
            (r.Success? ==> r.value == w.status &&
                            StatusEvents(names, w.logs)
                            == StatusEvents(names, before.logs) + [Stamped(Msg(Dumped(StatusValue(w.status))))] &&
                            PeekStatus(NewestReply(StatusEvents(names, w.logs))) == Success(Some(StatusValue(w.status)))) &&
            (r.Failure? ==> r.error == TYPE_ERROR && StatusEvents(names, w.logs) == StatusEvents(names, before.logs))
  {
    LoopFacts(names, calls, table, timestamp, before);
    EntriesCount(calls, |calls|);
    EntriesUnserializable(calls, |calls|);
    FinishFacts(names, Run(before.(status := ResetStatus(timestamp)), IterationEffects(names, calls, table), |calls|),
                elapsed);
  }

  /** A fetch of one call that gets a 500 raises TypeError and logs no status. */
  lemma {:induction false} ServerErrorBreaksFetch(names: LogNames, table: Option<string>, timestamp: int,
                                                  elapsed: real, before: World)
    requires Distinct(names)
    ensures var calls := [CallInput(1, Response(500, "", Failure(TYPE_ERROR)), None, None)];
            var (w, r) := FetchEffect(names, calls, table, timestamp, elapsed, before);
            r == Failure(TYPE_ERROR) && StatusEvents(names, w.logs) == StatusEvents(names, before.logs)
  {
    var calls := [CallInput(1, Response(500, "", Failure(TYPE_ERROR)), None, None)];
    FetchFacts(names, calls, table, timestamp, elapsed, before);
    FetchOutcome(names, calls, table, timestamp, elapsed, before);
    assert CountKind(calls, 0, IsNon200) == 0;
    assert CountKind(calls, 1, IsNon200) == 1;
  }

  // ---------------------------------------------------------------------------
  // Construction

  /**
   * The error construction meets, if any: that of `exists`, or that of `create_table`
   * when it ran. Both except clauses of `__init__` re-raise, and other errors escape
   * on their own, so this is what `__init__` raises.
   */
  function InitError(load: Option<Exc>, create: Option<Exc>, wait: Option<Exc>): (r: Option<Exc>)
    ensures r.None? <==> load.None? ||
                         (load.value.ClientError? && load.value.code == RESOURCE_NOT_FOUND && create.None? && wait.None?)
    ensures load.Some? && !load.value.ClientError? ==> r == load
    ensures load.Some? && load.value.ClientError? && load.value.code != RESOURCE_NOT_FOUND ==>
              r == Some(PARAM_VALIDATION_ERROR)
  {
    var ex := ExistsEffect(Earlier, Config.USERS_TABLE, load).result;
    if ex.Failure? then Some(ex.error)
    else if ex.value then None
    else
      var cr := CreateEffect(Config.USERS_TABLE, create, wait).result;
      if cr.Failure? then Some(cr.error) else None
  }

  /** What the table operations of construction log: exists', then create_table's when it ran. */
  function InitTableLogs(names: LogNames, load: Option<Exc>, create: Option<Exc>, wait: Option<Exc>): seq<LogsRequest> {
    var ex := ExistsEffect(Earlier, Config.USERS_TABLE, load);
    ErrorLogged(names, ex.errorEvent) +
      (if ex.result == Success(false) then ErrorLogged(names, CreateEffect(Config.USERS_TABLE, create, wait).errorEvent)
       else [])
  }

  class DataFetcher {
    /** `current_fetch_status`. */
    var status: FetchStatus
    const logger: EventLogger
    const users: LegacyData.UsersTable

    /** The table logs through the fetcher's logger. */
    predicate Wired() {
      users.logger == logger
    }

    /**
     * The assignments of `__init__`: a fresh status (clock reading `timestamp`), the
     * logger, and a users table built on it, before the table check that `Init` performs.
     */
    constructor (logger: EventLogger, timestamp: int)
      ensures Wired() && this.logger == logger && fresh(users)
      ensures users.table == None && users.requests == []
      ensures status == ResetStatus(timestamp)
    {
      status := ResetStatus(timestamp);
      this.logger := logger;
      users := new LegacyData.UsersTable(logger);
    }

    /** The table check of `__init__`: create the table when `exists()` is false; a failure escapes. */
    method Init(load: Option<Exc>, create: Option<Exc>, wait: Option<Exc>) returns (r: Outcome<Exc>)
      requires Wired()
      modifies users`table, users`requests, logger`requests
      ensures users.table == Some(Config.USERS_TABLE)
      ensures r == (var e := InitError(load, create, wait); if e.Some? then Fail(e.value) else Pass)
      ensures logger.requests == old(logger.requests) + InitTableLogs(logger.names, load, create, wait)
      ensures users.requests == old(users.requests) +
                (if ExistsEffect(Earlier, Config.USERS_TABLE, load).result == Success(false)
                 then [CreateRequest(Config.USERS_TABLE)] else [])
    {
      r := Pass;
      var found := users.Exists(load);
      if found.Failure? {
        r := Fail(found.error);
      } else if !found.value {
        var created := users.CreateTable(create, wait);
        if created.Failure? {
          r := Fail(created.error);
        }
      }
    }

    /**
     * `fetch()`, given each iteration's inputs, the clock reading of the reset and the
     * elapsed seconds: the loop, then one status event; the status is returned.
     */
    method Fetch(calls: seq<CallInput>, timestamp: int, elapsed: real) returns (r: Result<FetchStatus, Exc>)
      requires Wired()
      modifies this`status, logger`requests, users`requests
      ensures var (w, res) := FetchEffect(logger.names, calls, users.table, timestamp, elapsed,
                                          World(old(status), old(logger.requests), [], old(users.requests)));
              World(status, logger.requests, [], users.requests) == w && r == res
    {
      status := ResetStatus(timestamp);
      RunLoop(calls);
      r := Conclude(elapsed);
    }

    /** The loop of `fetch()`: one iteration per call. */
    method RunLoop(calls: seq<CallInput>)
      requires Wired()
      modifies this`status, logger`requests, users`requests
      ensures World(status, logger.requests, [], users.requests)
              == Run(World(old(status), old(logger.requests), [], old(users.requests)),
                     IterationEffects(logger.names, calls, users.table), |calls|)
    {
      ghost var start := World(status, logger.requests, [], users.requests);
      ghost var effects := IterationEffects(logger.names, calls, users.table);
      var n := |calls|;
      for i := 0 to n
        invariant World(status, logger.requests, [], users.requests) == Run(start, effects, i)
      {
        Iteration(i, n, calls[i]);
        assert effects[i].sqs == [];
      }
    }

    /** Iteration `i` of `n`: announce the call, get the batch, count it, store it. */
    method Iteration(i: int, n: int, c: CallInput)
      requires Wired()
      modifies this`status, logger`requests, users`requests
      ensures World(status, logger.requests, [], users.requests)
              == Apply(World(old(status), old(logger.requests), [], old(users.requests)),
                       StepEffect(logger.names, users.table, i, n, c))
    {
      ghost var before := World(status, logger.requests, [], users.requests);
      ghost var announce := Sent(logger.names, InfoChannel, Msg(Performing(i + 1, n)));
      var logged := logger.Info(Msg(Performing(i + 1, n)));
      var data := GetData(c);
      ghost var got := GetDataEffect(logger.names, c).0;
      status := status.(users := status.users + Len(data));
      ghost var stored := AddEffect(Config.USERS_TABLE, users.table, data, c.write);
      users.AddElements(data, c.write);
      StepParts(logger.names, users.table, i, n, c, got, data, stored);
      CombineApply(before, announce, got, Len(data), Sent(logger.names, stored.channel, stored.event), stored.writes);
      assert logger.requests == before.logs + announce + got.logs + Sent(logger.names, stored.channel, stored.event);
    }

    /** The end of `fetch()`: the duration, then the status event. */
    method Conclude(elapsed: real) returns (r: Result<FetchStatus, Exc>)
      modifies this`status, logger`requests
      ensures (World(status, logger.requests, [], users.requests), r)
              == Finish(logger.names, World(old(status), old(logger.requests), [], users.requests), elapsed)
    {
      status := status.(duration := JFloat(elapsed));
      if Serializable(StatusValue(status)) {
        var logged := logger.Status(Msg(Dumped(StatusValue(status))));
        r := Success(status);
      } else {
        r := Failure(TYPE_ERROR);
      }
    }

    /** `_get_data(USERS_ENDPOINT)` for one iteration's inputs. */
    method GetData(c: CallInput) returns (data: Value)
      modifies this`status, logger`requests
      ensures World(status, logger.requests, [], users.requests)
              == Apply(World(old(status), old(logger.requests), [], users.requests), GetDataEffect(logger.names, c).0)
      ensures data == GetDataEffect(logger.names, c).1
    {
      ghost var before := World(status, logger.requests, [], users.requests);
      status := status.(apiCalls := status.apiCalls + 1);
      var kind := Classify(c.reply);
      data := Handle(kind);
      CountedApply(before, Handled(logger.names, kind).0);
    }

    /** The branches of `_get_data` after the call: log the batch, or record the failure. */
    method Handle(kind: CallKind) returns (data: Value)
      requires kind.Ok? ==> Sized(kind.data)
      modifies this`status, logger`requests
      ensures World(status, logger.requests, [], users.requests)
              == Apply(World(old(status), old(logger.requests), [], users.requests), Handled(logger.names, kind).0)
      ensures data == Handled(logger.names, kind).1
    {
      match kind {
        case Ok(d) =>
          var logged := logger.Info(Msg(FetchedUsers(Len(d))));
          data := d;
        case Non200(code, _) =>
          Record(Non200Entry(code), ReceivedText(code));
          data := JList([]);
        case Sentinel(_, _) =>
          Record(SentinelEntry(), UNEXPECTED_TEXT);
          data := JList([]);
        case Failed(e) =>
          var logged := logger.Error(RuntimeLog(e));
          data := JList([]);
      }
    }

    /**
     * A failure branch of `_get_data`'s try block: append the entry, log it, and, when
     * logging raises, log the runtime event of the except block.
     */
    method Record(entry: Value, text: string)
      modifies this`status, logger`requests
      ensures World(status, logger.requests, [], users.requests)
              == Apply(World(old(status), old(logger.requests), [], users.requests), Recorded(logger.names, entry, text))
    {
      status := status.(errors := status.errors + [entry]);
      var logged := logger.Error(EntryEvent(text));
      if logged.Fail? {
        var recovered := logger.Error(RuntimeLog(logged.error));
      }
    }

    /** `status()`: the peek of the logger, given what the fetches stream returns. */
    method Status(reply: Result<seq<Text>, Exc>) returns (r: Result<Option<Value>, Exc>)
      ensures r == PeekStatus(reply)
    {
      r := logger.PeekStatus(reply);
    }

    /** `get()`: the table's elements, or [] when `get_elements` raises anything. */
    method Get(replies: seq<ScanReply>) returns (r: seq<Value>)
      requires Wired()
      requires users.table.Some? ==> Stop(replies) < |replies|
      modifies logger`requests
      ensures var eff := GetEffect(Earlier, Config.USERS_TABLE, users.table, replies);
              r == (if eff.result.Success? then eff.result.value else []) &&
              logger.requests == old(logger.requests) + ErrorLogged(logger.names, eff.errorEvent)
    {
      var scans;
      var got;
      got, scans := users.GetElements(replies);
      r := if got.Success? then got.value else [];
    }
  }
}
