/**
 * What both revisions of the event logger (chalicelib/events.py and logs.py) share:
 * the events handed to `info`/`error`/`status`, the requests the logger sends to
 * the log service, and the specifications of provisioning, timestamp injection and
 * the status peek. The log service itself is foreign: this module records what is
 * sent to it and takes what it answers as input.
 */
module Logging {
  import opened Wrappers
  import opened PyValue

  /**
   * A log message. `Dumped(v)` is the string `json.dumps(v)`; the other constructors
   * are the f-strings of the components, with their arguments.
   */
  datatype Text =
    | Dumped(payload: Value)
    | Plain(s: string)
    | Performing(call: int, total: int)          // "Performing call {i + 1}/{number_of_calls}"
    | FetchedUsers(count: int)                   // "Fetched {len(data)} users successfully."
    | SavedInto(count: int, table: string)       // "Saved {len(elements)} into {table_name}"
    | SaveFailed(table: string, error: Exc)      // "Couldn't save data into table ..."
    | CreateTableFailed(table: string, error: Exc)
    | QueueNotFound(queue: string)               // "Couldn't find queue {queue_name}. Creating..."
    | QueueCreated(queue: string, url: string)
    | QueueCreateFailed(queue: string, error: Exc)
    | SentToDlq(queue: string, message: Value)
    | DlqSendFailed(queue: string, error: Exc)
    | RuntimeFailure(error: Exc)                 // "An unexpected Runtime error occurred. Exception: {e}"

  /**
   * An event dict as a caller passes it: its "message", its "timestamp" when the caller
   * set one, and the names of any further keys.
   */
  datatype LogEvent = LogEvent(message: Text, timestamp: Option<int>, extraKeys: seq<string>)

  /** The event `{"message": t}`. */
  function Msg(t: Text): LogEvent {
    LogEvent(t, None, [])
  }

  /** The three channels of a logger: `info`, `error` and `status`. */
  datatype Channel = InfoChannel | ErrorChannel | StatusChannel

  /** The timestamp an event is sent with: the caller's, or the logger's clock reading. */
  datatype Stamp = Given(ms: int) | Clock

  /** One entry of the `logEvents` parameter of `put_log_events`. */
  datatype InputLogEvent = InputLogEvent(message: Text, stamp: Stamp)

  /** The requests that change the log service. */
  datatype LogsRequest =
    | CreateLogGroup(group: string, tags: seq<(string, string)>)
    | PutRetentionPolicy(group: string, days: int)
    | CreateLogStream(group: string, stream: string)
    | PutLogEvents(group: string, stream: string, events: seq<InputLogEvent>)

  /** `_log_events`'s rule: keep a timestamp that is there, add one that is not. */
  function Stamped(e: LogEvent): (r: InputLogEvent)
    ensures r.message == e.message
    ensures e.timestamp.Some? ==> r.stamp == Given(e.timestamp.value)
    ensures e.timestamp.None? ==> r.stamp == Clock
  {
    InputLogEvent(e.message, if e.timestamp.Some? then Given(e.timestamp.value) else Clock)
  }

  function StampAll(es: seq<LogEvent>): (r: seq<InputLogEvent>)
    ensures |r| == |es|
    ensures forall i :: 0 <= i < |es| ==> r[i] == Stamped(es[i])
  {
    seq(|es|, i requires 0 <= i < |es| => Stamped(es[i]))
  }

  /**
   * The keys `put_log_events` accepts in a log event are "message" and "timestamp";
   * the client rejects any other key before sending anything.
   */
  predicate Acceptable(e: LogEvent) {
    e.extraKeys == []
  }

  /** What `_log_events(stream, events)` sends, or the error it raises. */
  function PutEffect(group: string, stream: string, events: seq<LogEvent>): (r: Result<LogsRequest, Exc>)
    ensures r.Success? <==> forall i :: 0 <= i < |events| ==> Acceptable(events[i])
    ensures r.Success? ==> r.value == PutLogEvents(group, stream, StampAll(events))
  {
    if forall i :: 0 <= i < |events| ==> Acceptable(events[i])
    then Success(PutLogEvents(group, stream, StampAll(events)))
    else Failure(PARAM_VALIDATION_ERROR)
  }

  /** The requests of a single-event write, `_log_event(stream, event)`. */
  function PutRequests(group: string, stream: string, e: LogEvent): (rq: seq<LogsRequest>)
    ensures Acceptable(e) ==> rq == [PutLogEvents(group, stream, [Stamped(e)])]
    ensures !Acceptable(e) ==> rq == []
  {
    var r := PutEffect(group, stream, [e]);
    assert [e][0] == e;
    assert (forall i :: 0 <= i < |[e]| ==> Acceptable([e][i])) <==> Acceptable(e) by {
      if Acceptable(e) {
        forall i | 0 <= i < |[e]| ensures Acceptable([e][i]) { assert i == 0; }
      }
    }
    assert StampAll([e]) == [Stamped(e)];
    if r.Success? then [r.value] else []
  }

  function PutOutcome(group: string, stream: string, e: LogEvent): (o: Outcome<Exc>)
    ensures o.Pass? <==> Acceptable(e)
    ensures o.Fail? ==> o.error == PARAM_VALIDATION_ERROR
  {
    var r := PutEffect(group, stream, [e]);
    assert [e][0] == e;
    assert (forall i :: 0 <= i < |[e]| ==> Acceptable([e][i])) <==> Acceptable(e) by {
      if Acceptable(e) {
        forall i | 0 <= i < |[e]| ensures Acceptable([e][i]) { assert i == 0; }
      }
    }
    if r.Success? then Pass else Fail(r.error)
  }

  // ---------------------------------------------------------------------------
  // Provisioning

  /** The tags `_create_log_group` gives the group it creates. */
  function GroupTags(days: int): seq<(string, string)> {
    [("Frequency", "30 seconds"), ("Environment", "Development"),
     ("RetentionPeriod", IntToString(days)), ("Type", "Backend")]
  }

  /**
   * `_create_log_group`'s search: whether some listed group is named exactly `group`.
   * The listing is by prefix, so a name that merely starts with `group` is no match.
   */
  method FindExactName(names: seq<string>, group: string) returns (found: bool)
    ensures found <==> group in names
  {
    found := false;
    var i := 0;
    while i < |names|
      invariant 0 <= i <= |names|
      invariant group !in names[..i]
    {
      if group == names[i] {
        found := true;
        break;
      }
      i := i + 1;
    }
  }

  /** The replies of the log service to `_create_log_group`'s calls. */
  datatype GroupReplies = GroupReplies(
    describe: Result<seq<string>, Exc>,   // names of the groups describe_log_groups lists
    create: Option<Exc>,                  // the error create_log_group raises, if any
    retention: Option<Exc>)               // the error put_retention_policy raises, if any

  /** What `_create_log_group` sends, and how it ends. */
  function GroupEffect(group: string, days: int, replies: GroupReplies): (seq<LogsRequest>, Outcome<Exc>) {
    match replies.describe
    case Failure(e) => ([], Fail(e))
    case Success(names) =>
      if group in names then ([], Pass)
      else if replies.create.Some? then ([CreateLogGroup(group, GroupTags(days))], Fail(replies.create.value))
      else
        var rq := [CreateLogGroup(group, GroupTags(days)), PutRetentionPolicy(group, days)];
        if replies.retention.Some? then (rq, Fail(replies.retention.value)) else (rq, Pass)
  }

  /** The group and its retention policy are created exactly when no listed name is `group`. */
  lemma GroupCreatedIffAbsent(group: string, days: int, names: seq<string>, replies: GroupReplies)
    requires replies.describe == Success(names) && replies.create.None? && replies.retention.None?
    ensures GroupEffect(group, days, replies).1 == Pass
    ensures group in names ==> GroupEffect(group, days, replies).0 == []
    ensures group !in names ==> GroupEffect(group, days, replies).0
                                == [CreateLogGroup(group, GroupTags(days)), PutRetentionPolicy(group, days)]
  {
  }

  /**
   * What `_create_log_streams` sends, and how it ends, having gone through `wanted` in
   * order: a stream absent from `existing` is created; a create that fails (one named in
   * `failures`) raises and ends the loop.
   */
  function StreamsEffect(group: string, wanted: seq<string>, existing: seq<string>, failures: map<string, Exc>)
    : (seq<LogsRequest>, Outcome<Exc>)
    decreases |wanted|
  {
    if wanted == [] then ([], Pass)
    else
      var prev := StreamsEffect(group, wanted[..|wanted| - 1], existing, failures);
      var s := wanted[|wanted| - 1];
      if prev.1.Fail? || s in existing then prev
      else (prev.0 + [CreateLogStream(group, s)], if s in failures then Fail(failures[s]) else Pass)
  }

  /** Once a create has failed, the rest of the stream list sends nothing more. */
  lemma StreamsFailureSticks(group: string, wanted: seq<string>, k: nat, existing: seq<string>,
                             failures: map<string, Exc>)
    requires k <= |wanted|
    requires StreamsEffect(group, wanted[..k], existing, failures).1.Fail?
    ensures StreamsEffect(group, wanted, existing, failures) == StreamsEffect(group, wanted[..k], existing, failures)
    decreases |wanted| - k
  {
    if k < |wanted| {
      assert wanted[..k + 1][..k] == wanted[..k];
      StreamsFailureSticks(group, wanted, k + 1, existing, failures);
    } else {
      assert wanted[..k] == wanted;
    }
  }

  /** The streams of `wanted` that are not in `existing`, in order. */
  function Missing(wanted: seq<string>, existing: seq<string>): (r: seq<string>)
    ensures forall s :: s in r <==> s in wanted && s !in existing
    decreases |wanted|
  {
    if wanted == [] then []
    else
      var prev := Missing(wanted[..|wanted| - 1], existing);
      assert wanted == wanted[..|wanted| - 1] + [wanted[|wanted| - 1]];
      if wanted[|wanted| - 1] in existing then prev else prev + [wanted[|wanted| - 1]]
  }

  function CreateAll(group: string, streams: seq<string>): (r: seq<LogsRequest>)
    ensures |r| == |streams|
    ensures forall i :: 0 <= i < |streams| ==> r[i] == CreateLogStream(group, streams[i])
  {
    seq(|streams|, i requires 0 <= i < |streams| => CreateLogStream(group, streams[i]))
  }

  /** Creating one request per stream keeps how often each stream occurs. */
  lemma {:induction false} CreateAllOccurrences(group: string, streams: seq<string>, s: string)
    ensures Occurrences(CreateAll(group, streams), CreateLogStream(group, s)) == Occurrences(streams, s)
    decreases |streams|
  {
    if streams != [] {
      var init := streams[..|streams| - 1];
      CreateAllOccurrences(group, init, s);
      assert CreateAll(group, streams)[..|streams| - 1] == CreateAll(group, init);
    }
  }

  /** When no create fails, `_create_log_streams` creates exactly the missing streams, in order. */
  lemma {:induction false} StreamsCreatesMissing(group: string, wanted: seq<string>, existing: seq<string>,
                                                 failures: map<string, Exc>)
    requires forall s :: s in wanted ==> s !in failures
    ensures StreamsEffect(group, wanted, existing, failures) == (CreateAll(group, Missing(wanted, existing)), Pass)
    decreases |wanted|
  {
    if wanted != [] {
      var init := wanted[..|wanted| - 1];
      assert forall s :: s in init ==> s in wanted;
      StreamsCreatesMissing(group, init, existing, failures);
      var prev := Missing(init, existing);
      var last := wanted[|wanted| - 1];
      if last !in existing {
        assert CreateAll(group, prev + [last]) == CreateAll(group, prev) + [CreateLogStream(group, last)];
      }
    }
  }

  /** How often `s` occurs in `xs`. */
  function Occurrences<T(==)>(xs: seq<T>, s: T): (n: nat)
    ensures n > 0 <==> s in xs
    decreases |xs|
  {
    if xs == [] then 0
    else
      assert xs == xs[..|xs| - 1] + [xs[|xs| - 1]];
      Occurrences(xs[..|xs| - 1], s) + (if xs[|xs| - 1] == s then 1 else 0)
  }

  /** A stream that `wanted` names once is created once when absent, and not at all when present. */
  lemma {:induction false} MissingOnce(wanted: seq<string>, existing: seq<string>, s: string)
    requires Occurrences(wanted, s) == 1
    ensures Occurrences(Missing(wanted, existing), s) == if s in existing then 0 else 1
    decreases |wanted|
  {
    var init := wanted[..|wanted| - 1];
    var last := wanted[|wanted| - 1];
    var prev := Missing(init, existing);
    if last == s {
      assert Occurrences(init, s) == 0;
      assert Occurrences(prev, s) == 0;
      if s !in existing {
        assert (prev + [last])[..|prev|] == prev;
      }
    } else {
      MissingOnce(init, existing, s);
      if last !in existing {
        assert (prev + [last])[..|prev|] == prev;
      }
    }
  }

  /** The replies of the log service to `_create_log_streams`'s calls. */
  datatype StreamReplies = StreamReplies(
    describe: Result<seq<string>, Exc>,   // names of the streams describe_log_streams lists
    failures: map<string, Exc>)           // the streams whose create_log_stream raises, and how

  /**
   * What the constructor's provisioning sends and how it ends: the group, then the
   * streams; the first failure ends it and is re-raised.
   */
  function ProvisionEffect(group: string, days: int, wanted: seq<string>, g: GroupReplies, s: StreamReplies)
    : (r: (seq<LogsRequest>, Outcome<Exc>))
    ensures g.describe.Failure? ==> r == ([], Fail(g.describe.error))
    ensures GroupEffect(group, days, g).1.Pass? && s.describe.Failure? ==> r.1 == Fail(s.describe.error)
  {
    var (grq, go) := GroupEffect(group, days, g);
    if go.Fail? then (grq, go)
    else match s.describe
      case Failure(e) => (grq, Fail(e))
      case Success(existing) =>
        var (srq, so) := StreamsEffect(group, wanted, existing, s.failures);
        (grq + srq, so)
  }

  /**
   * Provisioning end to end, when nothing fails: the group and its retention policy when
   * the group is absent, then one create for each missing stream, in order.
   */
  lemma ProvisionCreatesMissing(group: string, days: int, wanted: seq<string>, names: seq<string>,
                                existing: seq<string>, g: GroupReplies, s: StreamReplies)
    requires g.describe == Success(names) && g.create.None? && g.retention.None?
    requires s.describe == Success(existing) && forall t :: t in wanted ==> t !in s.failures
    ensures ProvisionEffect(group, days, wanted, g, s)
            == ((if group in names then [] else [CreateLogGroup(group, GroupTags(days)), PutRetentionPolicy(group, days)])
                + CreateAll(group, Missing(wanted, existing)), Pass)
  {
    GroupCreatedIffAbsent(group, days, names, g);
    StreamsCreatesMissing(group, wanted, existing, s.failures);
  }

  // ---------------------------------------------------------------------------
  // The status peek

  /**
   * `json.loads` of a message: it gives back what `json.dumps` wrote; the model takes
   * every other message to be text that is not a JSON document.
   */
  function Loads(t: Text): (r: Result<Value, Exc>)
    ensures t.Dumped? <==> r.Success?
    ensures t.Dumped? ==> r.value == t.payload
  {
    if t.Dumped? then Success(t.payload) else Failure(OtherError("JSONDecodeError", "Expecting value"))
  }

  /**
   * `peek_status`: given what `get_log_events(limit=1)` on the status stream returns
   * (the messages of its events, or the error it raises), the decoded first message,
   * or None when there is no event.
   */
  function PeekStatus(reply: Result<seq<Text>, Exc>): (r: Result<Option<Value>, Exc>)
    ensures reply == Success([]) ==> r == Success(None)
    ensures reply.Failure? ==> r == Failure(reply.error)
    ensures reply.Success? && |reply.value| > 0 ==>
              (r.Success? <==> reply.value[0].Dumped?) &&
              (r.Success? ==> r.value == Some(reply.value[0].payload))
  {
    match reply
    case Failure(e) => Failure(e)
    case Success(events) =>
      if |events| > 0 then
        match Loads(events[0])
        case Success(v) => Success(Some(v))
        case Failure(e) => Failure(e)
      else Success(None)
  }

  /** The events written to `stream` of `group`, in the order the requests were sent. */
  function StreamContents(requests: seq<LogsRequest>, group: string, stream: string): seq<InputLogEvent>
    decreases |requests|
  {
    if requests == [] then []
    else
      var last := requests[|requests| - 1];
      StreamContents(requests[..|requests| - 1], group, stream)
        + (if last.PutLogEvents? && last.group == group && last.stream == stream then last.events else [])
  }

  /** The events of a stream over two stretches of requests are those of each, in order. */
  lemma {:induction false} StreamContentsAppend(a: seq<LogsRequest>, b: seq<LogsRequest>, group: string, stream: string)
    ensures StreamContents(a + b, group, stream) == StreamContents(a, group, stream) + StreamContents(b, group, stream)
    decreases |b|
  {
    if b == [] {
      assert a + b == a;
    } else {
      var init := b[..|b| - 1];
      StreamContentsAppend(a, init, group, stream);
      assert (a + b)[..|a + b| - 1] == a + init;
    }
  }

  /** A single-event write to one stream leaves every other stream as it was. */
  lemma PutLeavesOtherStreams(group: string, stream: string, e: LogEvent, other: string)
    requires other != stream
    ensures StreamContents(PutRequests(group, stream, e), group, other) == []
  {
    var rq := PutRequests(group, stream, e);
    if rq != [] {
      assert rq[..|rq| - 1] == [];
    }
  }

  /** What `get_log_events(limit=1)` returns for a stream holding `events`: its newest event. */
  function NewestReply(events: seq<InputLogEvent>): (r: Result<seq<Text>, Exc>)
    ensures r.Success? && |r.value| <= 1
  {
    if events == [] then Success([]) else Success([events[|events| - 1].message])
  }

  /** Writing one event to a stream makes it the stream's newest; the other streams keep theirs. */
  lemma PutMakesNewest(requests: seq<LogsRequest>, group: string, stream: string, e: LogEvent, other: string)
    requires Acceptable(e)
    ensures NewestReply(StreamContents(requests + PutRequests(group, stream, e), group, stream))
            == Success([e.message])
    ensures other != stream ==>
              StreamContents(requests + PutRequests(group, stream, e), group, other)
              == StreamContents(requests, group, other)
  {
    var rq := requests + PutRequests(group, stream, e);
    assert rq[..|rq| - 1] == requests;
  }
}
