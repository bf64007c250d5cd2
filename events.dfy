/**
 * chalicelib/events.py: the event logger. The CloudWatch Logs client is foreign; the
 * logger's state is the sequence of requests it has sent that change the service, and
 * every reply of the service is an input of the method that receives it.
 */
module Events {
  import opened Wrappers
  import opened PyValue
  import opened Logging
  import Config

  /** The streams `_create_log_streams` provisions, in its order. */
  const STREAMS: seq<string> := [Config.STATUS_LOG_STREAM, Config.INFO_LOG_STREAM, Config.ERROR_LOG_STREAM]

  /** The stream each channel writes to. */
  function StreamOf(c: Channel): string {
    match c
    case InfoChannel => Config.INFO_LOG_STREAM
    case ErrorChannel => Config.ERROR_LOG_STREAM
    case StatusChannel => Config.STATUS_LOG_STREAM
  }

  /** The requests a single event on channel `c` sends. */
  function Sent(c: Channel, e: LogEvent): seq<LogsRequest> {
    PutRequests(Config.LOG_GROUP, StreamOf(c), e)
  }

  /** The requests of an error event that may not be there. */
  function ErrorLogged(e: Option<LogEvent>): seq<LogsRequest> {
    if e.Some? then Sent(ErrorChannel, e.value) else []
  }

  /** The three channels write to three different streams, each provisioned once. */
  lemma StreamsDistinct()
    ensures Config.INFO_LOG_STREAM != Config.ERROR_LOG_STREAM
    ensures Config.INFO_LOG_STREAM != Config.STATUS_LOG_STREAM
    ensures Config.ERROR_LOG_STREAM != Config.STATUS_LOG_STREAM
    ensures forall s :: s in STREAMS ==> Occurrences(STREAMS, s) == 1
  {
    var two := [Config.STATUS_LOG_STREAM, Config.INFO_LOG_STREAM];
    var one := [Config.STATUS_LOG_STREAM];
    assert STREAMS[..2] == two && two[..1] == one && one[..0] == [];
    forall s | s in STREAMS ensures Occurrences(STREAMS, s) == 1 {
      assert Occurrences(one, s) == (if s == Config.STATUS_LOG_STREAM then 1 else 0);
      assert Occurrences(two, s) == Occurrences(one, s) + (if s == Config.INFO_LOG_STREAM then 1 else 0);
    }
  }

  /** Absent streams are created once each, present ones never, when no create fails. */
  lemma ProvisioningCreatesExactlyMissing(existing: seq<string>, failures: map<string, Exc>, s: string)
    requires forall t :: t in STREAMS ==> t !in failures
    requires s in STREAMS
    ensures StreamsEffect(Config.LOG_GROUP, STREAMS, existing, failures).1 == Pass
    ensures Occurrences(StreamsEffect(Config.LOG_GROUP, STREAMS, existing, failures).0,
                        CreateLogStream(Config.LOG_GROUP, s))
            == if s in existing then 0 else 1
  {
    StreamsCreatesMissing(Config.LOG_GROUP, STREAMS, existing, failures);
    StreamsDistinct();
    MissingOnce(STREAMS, existing, s);
    CreateAllOccurrences(Config.LOG_GROUP, Missing(STREAMS, existing), s);
  }

  class EventLogger {
    /** The requests sent to the log service, oldest first. */
    var requests: seq<LogsRequest>

    /** `EventLogger(client)` before provisioning: the client is bound, nothing is sent. */
    constructor ()
      ensures requests == []
    {
      requests := [];
    }

    /**
     * The provisioning of `__init__` (chalicelib/events.py:11-19): the group, then the
     * streams. A failure is re-raised, so the caller never receives the logger.
     */
    method Provision(g: GroupReplies, s: StreamReplies) returns (r: Outcome<Exc>)
      modifies this`requests
      ensures var eff := ProvisionEffect(Config.LOG_GROUP, Config.RETENTION_PERIOD_IN_DAYS, STREAMS, g, s);
              requests == old(requests) + eff.0 && r == eff.1
    {
      r := CreateGroup(g);
      if r.Fail? {
        return;
      }
      match s.describe
      case Failure(e) =>
        r := Fail(e);
      case Success(existing) =>
        r := CreateStreams(existing, s.failures);
    }

    /** `_create_log_group`. */
    method CreateGroup(g: GroupReplies) returns (r: Outcome<Exc>)
      modifies this`requests
      ensures var eff := GroupEffect(Config.LOG_GROUP, Config.RETENTION_PERIOD_IN_DAYS, g);
              requests == old(requests) + eff.0 && r == eff.1
    {
      match g.describe
      case Failure(e) =>
        r := Fail(e);
      case Success(names) =>
        var found := FindExactName(names, Config.LOG_GROUP);
        r := Pass;
        if !found {
          requests := requests + [CreateLogGroup(Config.LOG_GROUP, GroupTags(Config.RETENTION_PERIOD_IN_DAYS))];
          if g.create.Some? {
            r := Fail(g.create.value);
            return;
          }
          requests := requests + [PutRetentionPolicy(Config.LOG_GROUP, Config.RETENTION_PERIOD_IN_DAYS)];
          if g.retention.Some? {
            r := Fail(g.retention.value);
          }
        }
    }

    /** `_create_log_streams`, given the names describe_log_streams listed. */
    method CreateStreams(existing: seq<string>, failures: map<string, Exc>) returns (r: Outcome<Exc>)
      modifies this`requests
      ensures var eff := StreamsEffect(Config.LOG_GROUP, STREAMS, existing, failures);
              requests == old(requests) + eff.0 && r == eff.1
    {
      var i := 0;
      ghost var sent: seq<LogsRequest> := [];
      assert STREAMS[..0] == [];
      while i < |STREAMS|
        invariant 0 <= i <= |STREAMS|
        invariant requests == old(requests) + sent
        invariant StreamsEffect(Config.LOG_GROUP, STREAMS[..i], existing, failures) == (sent, Pass)
      {
        var stream := STREAMS[i];
        assert STREAMS[..i + 1][..i] == STREAMS[..i];
        if stream !in existing {
          requests := requests + [CreateLogStream(Config.LOG_GROUP, stream)];
          sent := sent + [CreateLogStream(Config.LOG_GROUP, stream)];
          if stream in failures {
            r := Fail(failures[stream]);
            StreamsFailureSticks(Config.LOG_GROUP, STREAMS, i + 1, existing, failures);
            return;
          }
        }
        i := i + 1;
      }
      assert STREAMS[..i] == STREAMS;
      r := Pass;
    }

    /** `info`: the event goes to the Info stream. */
    method Info(event: LogEvent) returns (r: Outcome<Exc>)
      modifies this`requests
      ensures requests == old(requests) + PutRequests(Config.LOG_GROUP, Config.INFO_LOG_STREAM, event)
      ensures r == PutOutcome(Config.LOG_GROUP, Config.INFO_LOG_STREAM, event)
    {
      r := LogOne(Config.INFO_LOG_STREAM, event);
    }

    /** `error`: the event goes to the Error stream. */
    method Error(event: LogEvent) returns (r: Outcome<Exc>)
      modifies this`requests
      ensures requests == old(requests) + PutRequests(Config.LOG_GROUP, Config.ERROR_LOG_STREAM, event)
      ensures r == PutOutcome(Config.LOG_GROUP, Config.ERROR_LOG_STREAM, event)
    {
      r := LogOne(Config.ERROR_LOG_STREAM, event);
    }

    /** `status`: the event goes to the Status stream. */
    method Status(event: LogEvent) returns (r: Outcome<Exc>)
      modifies this`requests
      ensures requests == old(requests) + PutRequests(Config.LOG_GROUP, Config.STATUS_LOG_STREAM, event)
      ensures r == PutOutcome(Config.LOG_GROUP, Config.STATUS_LOG_STREAM, event)
    {
      r := LogOne(Config.STATUS_LOG_STREAM, event);
    }

    /** `_log_event`: a one-event `_log_events`. */
    method LogOne(stream: string, event: LogEvent) returns (r: Outcome<Exc>)
      modifies this`requests
      ensures requests == old(requests) + PutRequests(Config.LOG_GROUP, stream, event)
      ensures r == PutOutcome(Config.LOG_GROUP, stream, event)
    {
      r := LogEvents(stream, [event]);
      assert [event][0] == event;
    }

    /** `_log_events`: stamp the events that have no timestamp, then send them in one put. */
    method LogEvents(stream: string, events: seq<LogEvent>) returns (r: Outcome<Exc>)
      modifies this`requests
      ensures var eff := PutEffect(Config.LOG_GROUP, stream, events);
              if eff.Success? then requests == old(requests) + [eff.value] && r == Pass
              else requests == old(requests) && r == Fail(eff.error)
    {
      var stamped: seq<InputLogEvent> := [];
      for i := 0 to |events|
        invariant stamped == StampAll(events[..i])
      {
        var e := events[i];
        if e.timestamp.None? {
          stamped := stamped + [InputLogEvent(e.message, Clock)];
        } else {
          stamped := stamped + [InputLogEvent(e.message, Given(e.timestamp.value))];
        }
      }
      assert events[..|events|] == events;
      if exists i :: 0 <= i < |events| && !Acceptable(events[i]) {
        r := Fail(PARAM_VALIDATION_ERROR);
      } else {
        requests := requests + [PutLogEvents(Config.LOG_GROUP, stream, stamped)];
        r := Pass;
      }
    }

    /** `peek_status`, given what `get_log_events(limit=1)` on the Status stream returns. */
    method PeekStatus(reply: Result<seq<Text>, Exc>) returns (r: Result<Option<Value>, Exc>)
      ensures r == Logging.PeekStatus(reply)
    {
      r := Logging.PeekStatus(reply);
    }
  }
}
