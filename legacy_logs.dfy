/**
 * logs.py: the earlier event logger. It builds its CloudWatch Logs client itself and
 * takes its names from the root-level configuration, which is not part of this model:
 * the names are a parameter of the constructor. Its `status` channel writes to the
 * fetches stream. As for the current logger, the logger's state is the sequence of
 * requests it has sent, and every reply of the service is an input.
 */
module LegacyLogs {
  import opened Wrappers
  import opened PyValue
  import opened Logging

  /** LOG_GROUP_NAME, the three stream names and RETENTION_PERIOD_IN_DAYS. */
  datatype LogNames = LogNames(group: string, fetches: string, info: string, error: string, retentionDays: int)

  /** The configuration names three different streams. */
  predicate Distinct(names: LogNames) {
    names.fetches != names.info && names.fetches != names.error && names.info != names.error
  }

  /** The streams `_create_log_streams` provisions, in its order. */
  function Streams(names: LogNames): seq<string> {
    [names.fetches, names.info, names.error]
  }

  /** The stream each channel writes to: `status` goes to the fetches stream. */
  function StreamOf(names: LogNames, c: Channel): string {
    match c
    case InfoChannel => names.info
    case ErrorChannel => names.error
    case StatusChannel => names.fetches
  }

  /** The requests a single event on channel `c` sends. */
  function Sent(names: LogNames, c: Channel, e: LogEvent): seq<LogsRequest> {
    PutRequests(names.group, StreamOf(names, c), e)
  }

  /** The requests of an error event that may not be there. */
  function ErrorLogged(names: LogNames, e: Option<LogEvent>): seq<LogsRequest> {
    if e.Some? then Sent(names, ErrorChannel, e.value) else []
  }

  /** With distinct names, every provisioned stream is listed once. */
  lemma {:induction false} StreamsListedOnce(names: LogNames)
    requires Distinct(names)
    ensures forall s :: s in Streams(names) ==> Occurrences(Streams(names), s) == 1
  {
    var all := Streams(names);
    var two := [names.fetches, names.info];
    var one := [names.fetches];
    assert all[..2] == two && two[..1] == one && one[..0] == [];
    forall s | s in all ensures Occurrences(all, s) == 1 {
      assert Occurrences(one, s) == (if s == names.fetches then 1 else 0);
      assert Occurrences(two, s) == Occurrences(one, s) + (if s == names.info then 1 else 0);
    }
  }

  /** Channels write to different streams: an event on one leaves the others' streams as they were. */
  lemma {:induction false} ChannelsApart(names: LogNames, requests: seq<LogsRequest>, c: Channel, d: Channel, e: LogEvent)
    requires Distinct(names) && c != d
    ensures StreamContents(requests + Sent(names, c, e), names.group, StreamOf(names, d))
            == StreamContents(requests, names.group, StreamOf(names, d))
  {
    assert StreamOf(names, c) != StreamOf(names, d);
    StreamContentsAppend(requests, Sent(names, c, e), names.group, StreamOf(names, d));
    PutLeavesOtherStreams(names.group, StreamOf(names, c), e, StreamOf(names, d));
  }

  /** A status event becomes the newest event of the fetches stream, which `peek_status` reads back. */
  lemma {:induction false} StatusReadBack(names: LogNames, requests: seq<LogsRequest>, v: Value)
    ensures PeekStatus(NewestReply(StreamContents(requests + Sent(names, StatusChannel, Msg(Dumped(v))),
                                                  names.group, names.fetches)))
            == Success(Some(v))
  {
    PutMakesNewest(requests, names.group, names.fetches, Msg(Dumped(v)), names.fetches);
  }

  /** Absent streams are created once each, present ones never, when no create fails. */
  lemma {:induction false} ProvisioningCreatesExactlyMissing(names: LogNames, existing: seq<string>,
                                                             failures: map<string, Exc>, s: string)
    requires Distinct(names)
    requires forall t :: t in Streams(names) ==> t !in failures
    requires s in Streams(names)
    ensures StreamsEffect(names.group, Streams(names), existing, failures).1 == Pass
    ensures Occurrences(StreamsEffect(names.group, Streams(names), existing, failures).0,
                        CreateLogStream(names.group, s))
            == if s in existing then 0 else 1
  {
    StreamsCreatesMissing(names.group, Streams(names), existing, failures);
    StreamsListedOnce(names);
    MissingOnce(Streams(names), existing, s);
    CreateAllOccurrences(names.group, Missing(Streams(names), existing), s);
  }

  class EventLogger {
    /** The configuration the logger reads its names from. */
    const names: LogNames
    /** The requests sent to the log service, oldest first. */
    var requests: seq<LogsRequest>

    /** `EventLogger()` before provisioning: the client is built, nothing is sent. */
    constructor (names: LogNames)
      ensures this.names == names && requests == []
    {
      this.names := names;
      requests := [];
    }

    /** The provisioning of `__init__`: the group, then the streams; a failure is re-raised. */
    method Provision(g: GroupReplies, s: StreamReplies) returns (r: Outcome<Exc>)
      modifies this`requests
      ensures var eff := ProvisionEffect(names.group, names.retentionDays, Streams(names), g, s);
              requests == old(requests) + eff.0 && r == eff.1
    {
      r := CreateGroup(g);
      if r.Fail? {
        return;
      }
      match s.describe
      case Failure(e) =>
        r := Fail(e);
      case Success(existing) =>
        r := CreateStreams(existing, s.failures);
    }

    /** `_create_log_group`. */
    method CreateGroup(g: GroupReplies) returns (r: Outcome<Exc>)
      modifies this`requests
      ensures var eff := GroupEffect(names.group, names.retentionDays, g);
              requests == old(requests) + eff.0 && r == eff.1
    {
      match g.describe
      case Failure(e) =>
        r := Fail(e);
      case Success(listed) =>
        var found := FindExactName(listed, names.group);
        r := Pass;
        if !found {
          requests := requests + [CreateLogGroup(names.group, GroupTags(names.retentionDays))];
          if g.create.Some? {
            r := Fail(g.create.value);
            return;
          }
          requests := requests + [PutRetentionPolicy(names.group, names.retentionDays)];
          if g.retention.Some? {
            r := Fail(g.retention.value);
          }
        }
    }

    /** `_create_log_streams`, given the names describe_log_streams listed. */
    method CreateStreams(existing: seq<string>, failures: map<string, Exc>) returns (r: Outcome<Exc>)
      modifies this`requests
      ensures var eff := StreamsEffect(names.group, Streams(names), existing, failures);
              requests == old(requests) + eff.0 && r == eff.1
    {
      var wanted := Streams(names);
      var i := 0;
      ghost var sent: seq<LogsRequest> := [];
      assert wanted[..0] == [];
      while i < |wanted|
        invariant 0 <= i <= |wanted|
        invariant requests == old(requests) + sent
        invariant StreamsEffect(names.group, wanted[..i], existing, failures) == (sent, Pass)
      {
        var stream := wanted[i];
        assert wanted[..i + 1][..i] == wanted[..i];
        if stream !in existing {
          requests := requests + [CreateLogStream(names.group, stream)];
          sent := sent + [CreateLogStream(names.group, stream)];
          if stream in failures {
            r := Fail(failures[stream]);
            StreamsFailureSticks(names.group, wanted, i + 1, existing, failures);
            return;
          }
        }
        i := i + 1;
      }
      assert wanted[..i] == wanted;
      r := Pass;
    }

    /** `info`: the event goes to the info stream. */
    method Info(event: LogEvent) returns (r: Outcome<Exc>)
      modifies this`requests
      ensures requests == old(requests) + Sent(names, InfoChannel, event)
      ensures r == PutOutcome(names.group, names.info, event)
    {
      r := LogOne(names.info, event);
    }

    /** `error`: the event goes to the error stream. */
    method Error(event: LogEvent) returns (r: Outcome<Exc>)
      modifies this`requests
      ensures requests == old(requests) + Sent(names, ErrorChannel, event)
      ensures r == PutOutcome(names.group, names.error, event)
    {
      r := LogOne(names.error, event);
    }

    /** `status`: the event goes to the fetches stream. */
    method Status(event: LogEvent) returns (r: Outcome<Exc>)
      modifies this`requests
      ensures requests == old(requests) + Sent(names, StatusChannel, event)
      ensures r == PutOutcome(names.group, names.fetches, event)
    {
      r := LogOne(names.fetches, event);
    }

    /** `_log_event`: a one-event `_log_events`. */
    method LogOne(stream: string, event: LogEvent) returns (r: Outcome<Exc>)
      modifies this`requests
      ensures requests == old(requests) + PutRequests(names.group, stream, event)
      ensures r == PutOutcome(names.group, stream, event)
    {
      r := LogEvents(stream, [event]);
      assert [event][0] == event;
    }

    /** `_log_events`: stamp the events that have no timestamp, then send them in one put. */
    method LogEvents(stream: string, events: seq<LogEvent>) returns (r: Outcome<Exc>)
      modifies this`requests
      ensures var eff := PutEffect(names.group, stream, events);
              if eff.Success? then requests == old(requests) + [eff.value] && r == Pass
              else requests == old(requests) && r == Fail(eff.error)
    {
      var stamped: seq<InputLogEvent> := [];
      for i := 0 to |events|
        invariant stamped == StampAll(events[..i])
      {
        var e := events[i];
        if e.timestamp.None? {
          stamped := stamped + [InputLogEvent(e.message, Clock)];
        } else {
          stamped := stamped + [InputLogEvent(e.message, Given(e.timestamp.value))];
        }
      }
      assert events[..|events|] == events;
      if exists i :: 0 <= i < |events| && !Acceptable(events[i]) {
        r := Fail(PARAM_VALIDATION_ERROR);
      } else {
        requests := requests + [PutLogEvents(names.group, stream, stamped)];
        r := Pass;
      }
    }

    /** `peek_status`, given what `get_log_events(limit=1)` on the fetches stream returns. */
    method PeekStatus(reply: Result<seq<Text>, Exc>) returns (r: Result<Option<Value>, Exc>)
      ensures r == Logging.PeekStatus(reply)
    {
      r := Logging.PeekStatus(reply);
    }
  }
}
