/**
 * What both revisions of the data fetcher (chalicelib/services.py and services.py)
 * share: the fetch status record, what one call to the users API can return, and how
 * `_get_data` sorts a reply into a batch of users or one of three failures. The HTTP
 * API, its rate limiter and the random draws are foreign: each call's reply and the
 * drawn sizes are inputs.
 */
module Fetching {
  import opened Wrappers
  import opened PyValue
  import opened Logging
  import opened Tables
  import opened Dlq
  import Config

  /** `current_fetch_status`. `duration` is 0.0 (a float) in one revision and 0 in the other. */
  datatype FetchStatus = FetchStatus(users: int, apiCalls: int, errors: seq<Value>, timestamp: int, duration: Value)

  /** The status as the dict `json.dumps` encodes. */
  function StatusValue(st: FetchStatus): Value {
    JDict([("users", JInt(st.users)), ("api_calls", JInt(st.apiCalls)), ("errors", JList(st.errors)),
           ("timestamp", JInt(st.timestamp)), ("duration", st.duration)])
  }

  /** The status dict encodes exactly when its errors and its duration do. */
  lemma StatusSerializable(st: FetchStatus)
    ensures Serializable(StatusValue(st)) <==>
              Serializable(st.duration) && forall i :: 0 <= i < |st.errors| ==> Serializable(st.errors[i])
  {
    var v := StatusValue(st);
    assert v.entries[2].1 == JList(st.errors);
    assert v.entries[4].1 == st.duration;
  }

  /**
   * What the rate-limited GET gives: the error it raises, or a response with its
   * status code, its text and what `response.json()` gives.
   */
  datatype HttpReply =
    | Raised(error: Exc)
    | Response(statusCode: int, text: string, body: Result<Value, Exc>)

  /**
   * The inputs of one iteration of the fetch loop: the drawn page size, the reply of
   * the API, the error of the dead-letter send (None when it succeeds) and the error
   * of the table's batch write (None when it succeeds).
   */
  datatype CallInput = CallInput(size: int, reply: HttpReply, dlqReply: Option<Exc>, write: Option<Exc>)

  /** The drawn sizes are those `random.randint(*USERS_PER_API_CALL)` can give. */
  predicate ValidSizes(calls: seq<CallInput>) {
    forall i :: 0 <= i < |calls| ==>
      Config.MIN_USERS_PER_API_CALL <= calls[i].size <= Config.MAX_USERS_PER_API_CALL
  }

  /** How `_get_data` sees a reply. */
  datatype CallKind =
    | Ok(data: Value)                    // a 200 whose body is the batch
    | Non200(code: int, text: string)    // a status code other than 200
    | Sentinel(code: int, text: string)  // a 200 whose body's "message" is the size sentinel
    | Failed(error: Exc)                 // an exception inside the try block

  /**
   * `_get_data`'s tests, in order: the status code, `response.json()`, then
   * `"message" in data and data["message"] == SIZE_SENTINEL` with Python's `in` and
   * `[]` (a TypeError there is an exception like any other).
   */
  function Classify(reply: HttpReply): (k: CallKind)
    ensures k.Ok? ==> Sized(k.data)
  {
    match reply
    case Raised(e) => Failed(e)
    case Response(code, text, body) =>
      if code != 200 then Non200(code, text)
      else match body
        case Failure(e) => Failed(e)
        case Success(data) =>
          match Contains(data, "message")
          case Failure(e) => Failed(e)
          case Success(has) =>
            if !has then Ok(data)
            else match GetItem(data, "message")
              case Failure(e) => Failed(e)
              case Success(m) => if m == JStr(Config.SIZE_SENTINEL) then Sentinel(code, text) else Ok(data)
  }

  /** The four kinds, in terms of the reply itself. */
  lemma ClassifyCases(reply: HttpReply)
    ensures reply.Raised? ==> Classify(reply) == Failed(reply.error)
    ensures reply.Response? && reply.statusCode != 200 ==> Classify(reply) == Non200(reply.statusCode, reply.text)
    ensures Classify(reply).Sentinel? <==>
              reply.Response? && reply.statusCode == 200 && reply.body.Success? &&
              reply.body.value.JDict? && HasKey(reply.body.value.entries, "message") &&
              Lookup(reply.body.value.entries, "message") == JStr(Config.SIZE_SENTINEL)
    ensures Classify(reply).Sentinel? ==> Classify(reply) == Sentinel(200, reply.text)
    ensures Classify(reply).Ok? <==>
              reply.Response? && reply.statusCode == 200 && reply.body.Success? &&
              ((reply.body.value.JDict? &&
                  (!HasKey(reply.body.value.entries, "message") ||
                   Lookup(reply.body.value.entries, "message") != JStr(Config.SIZE_SENTINEL))) ||
               (reply.body.value.JList? && JStr("message") !in reply.body.value.items) ||
               (reply.body.value.JStr? && !IsSubstring("message", reply.body.value.s)))
    ensures Classify(reply).Ok? ==> Classify(reply).data == reply.body.value
  {
  }

  /** The users a call contributes: the batch's `len`, or 0 for every failure. */
  function UsersOf(reply: HttpReply): nat {
    var k := Classify(reply);
    if k.Ok? then Len(k.data) else 0
  }

  /** The batch `_get_data` returns, and the iteration hands to `add_elements`: a good reply's body, `[]` otherwise. */
  function Batch(reply: HttpReply): (v: Value)
    ensures Sized(v) && Len(v) == UsersOf(reply)
    ensures Classify(reply).Ok? ==> v == Classify(reply).data
  {
    var k := Classify(reply);
    if k.Ok? then k.data else JList([])
  }

  /** The users of the first `k` calls. */
  function SumUsers(calls: seq<CallInput>, k: nat): nat
    requires k <= |calls|
  {
    if k == 0 then 0 else SumUsers(calls, k - 1) + UsersOf(calls[k - 1].reply)
  }

  /** How many of the first `k` calls fall into a kind. */
  function CountKind(calls: seq<CallInput>, k: nat, p: CallKind -> bool): (n: nat)
    requires k <= |calls|
  {
    if k == 0 then 0 else CountKind(calls, k - 1, p) + (if p(Classify(calls[k - 1].reply)) then 1 else 0)
  }

  predicate IsOk(k: CallKind) { k.Ok? }
  predicate IsNon200(k: CallKind) { k.Non200? }
  predicate IsSentinel(k: CallKind) { k.Sentinel? }
  predicate IsRaised(k: CallKind) { k.Failed? }
  predicate IsFailure(k: CallKind) { !k.Ok? }

  /**
   * Every call is of exactly one kind: the good batches and the failures make up all
   * `k` calls, and the failures are the non-200 replies, the sentinels and the raises.
   */
  lemma {:induction false} KindsAccount(calls: seq<CallInput>, k: nat)
    requires k <= |calls|
    ensures CountKind(calls, k, IsOk) + CountKind(calls, k, IsFailure) == k
    ensures CountKind(calls, k, IsFailure)
            == CountKind(calls, k, IsNon200) + CountKind(calls, k, IsSentinel) + CountKind(calls, k, IsRaised)
  {
    if k > 0 {
      KindsAccount(calls, k - 1);
    }
  }

  /** "Received {code} code, but expected 200". */
  function ReceivedText(code: int): string {
    "Received " + IntToString(code) + " code, but expected 200"
  }

  const UNEXPECTED_TEXT: string := "An unexpected error occurred when fetching users."

  // ---------------------------------------------------------------------------
  // What a fetch does to the services it writes to

  /** The state of the services the fetcher writes to: its status, the log, the queue and the table. */
  datatype World = World(status: FetchStatus, logs: seq<LogsRequest>, sqs: seq<SqsRequest>, writes: seq<DynamoRequest>)

  /**
   * What a part of a fetch adds to the world: the API calls and users it counts, the
   * errors entries it appends, and the requests it sends to the log, the queue and the
   * table, oldest first.
   */
  datatype Delta = Delta(apiCalls: nat, users: nat, errors: seq<Value>, logs: seq<LogsRequest>,
                           sqs: seq<SqsRequest>, writes: seq<DynamoRequest>)

  /** The world after an effect. */
  function Apply(w: World, e: Delta): World {
    World(w.status.(apiCalls := w.status.apiCalls + e.apiCalls, users := w.status.users + e.users,
                    errors := w.status.errors + e.errors),
          w.logs + e.logs, w.sqs + e.sqs, w.writes + e.writes)
  }

  /** The world after the first `k` effects. */
  function Run(start: World, effects: seq<Delta>, k: nat): World
    requires k <= |effects|
  {
    if k == 0 then start else Apply(Run(start, effects, k - 1), effects[k - 1])
  }

  /** Two effects, the one after the other. */
  function Plus(a: Delta, b: Delta): Delta {
    Delta(a.apiCalls + b.apiCalls, a.users + b.users, a.errors + b.errors, a.logs + b.logs, a.sqs + b.sqs,
          a.writes + b.writes)
  }

  /** Applying two effects in turn is applying the two together. */
  lemma ApplyPlus(w: World, a: Delta, b: Delta)
    ensures Apply(Apply(w, a), b) == Apply(w, Plus(a, b))
  {
    assert w.status.errors + a.errors + b.errors == w.status.errors + (a.errors + b.errors);
    assert w.logs + a.logs + b.logs == w.logs + (a.logs + b.logs);
    assert w.sqs + a.sqs + b.sqs == w.sqs + (a.sqs + b.sqs);
    assert w.writes + a.writes + b.writes == w.writes + (a.writes + b.writes);
  }

  /** The first `k` effects taken together. */
  function Total(effects: seq<Delta>, k: nat): Delta
    requires k <= |effects|
  {
    if k == 0 then Delta(0, 0, [], [], [], []) else Plus(Total(effects, k - 1), effects[k - 1])
  }

  /** Running the first `k` effects applies their total. */
  lemma {:induction false} RunTotal(start: World, effects: seq<Delta>, k: nat)
    requires k <= |effects|
    ensures Run(start, effects, k) == Apply(start, Total(effects, k))
  {
    if k == 0 {
      assert start.status.errors + [] == start.status.errors;
      assert start.logs + [] == start.logs && start.sqs + [] == start.sqs && start.writes + [] == start.writes;
    } else {
      RunTotal(start, effects, k - 1);
      ApplyPlus(start, Total(effects, k - 1), effects[k - 1]);
    }
  }

  /** The first `k` runs of values, one after the other. */
  function Joined<T>(runs: seq<seq<T>>, k: nat): seq<T>
    requires k <= |runs|
  {
    if k == 0 then [] else Joined(runs, k - 1) + runs[k - 1]
  }

  /** Effects that each append their run of errors entries append all the runs, in order. */
  lemma {:induction false} JoinedAccount(runs: seq<seq<Value>>, effects: seq<Delta>, k: nat)
    requires |effects| == |runs| && k <= |runs|
    requires forall i :: 0 <= i < |runs| ==> effects[i].errors == runs[i]
    ensures Total(effects, k).errors == Joined(runs, k)
  {
    if k > 0 {
      JoinedAccount(runs, effects, k - 1);
      assert effects[k - 1].errors == runs[k - 1];
    }
  }

  /** What the `add_elements(data)` of a call's iteration sends to the table and logs. */
  function Saved(table: Option<string>, c: CallInput): Added {
    AddEffect(Config.USERS_TABLE, table, Batch(c.reply), c.write)
  }

  /** The table writes of each call's `add_elements`, one run per call. */
  function Writes(calls: seq<CallInput>, table: Option<string>): (r: seq<seq<DynamoRequest>>)
    ensures |r| == |calls|
    ensures forall i :: 0 <= i < |calls| ==> r[i] == Saved(table, calls[i]).writes
  {
    seq(|calls|, i requires 0 <= i < |calls| => Saved(table, calls[i]).writes)
  }

  /** Effects that each send their run of table writes send all the runs, in order. */
  lemma {:induction false} WritesAccount(runs: seq<seq<DynamoRequest>>, effects: seq<Delta>, k: nat)
    requires |effects| == |runs| && k <= |runs|
    requires forall i :: 0 <= i < |runs| ==> effects[i].writes == runs[i]
    ensures Total(effects, k).writes == Joined(runs, k)
  {
    if k > 0 {
      WritesAccount(runs, effects, k - 1);
      assert effects[k - 1].writes == runs[k - 1];
    }
  }

  /** Iterations that each store their call's batch leave the table with every call's writes, in call order. */
  lemma {:induction false} RunWrites(calls: seq<CallInput>, table: Option<string>, effects: seq<Delta>, start: World)
    requires |effects| == |calls|
    requires forall i :: 0 <= i < |calls| ==> effects[i].writes == Writes(calls, table)[i]
    ensures Run(start, effects, |effects|).writes == start.writes + Joined(Writes(calls, table), |calls|)
  {
    RunTotal(start, effects, |effects|);
    WritesAccount(Writes(calls, table), effects, |calls|);
  }

  /**
   * Iterations that account for their calls (one API call each, its users, its run of
   * errors entries) leave the status counting the calls, their users and the runs in order.
   */
  lemma {:induction false} RunStatus(calls: seq<CallInput>, runs: seq<seq<Value>>, effects: seq<Delta>, start: World)
    requires |effects| == |calls| && |runs| == |calls|
    requires forall i :: 0 <= i < |effects| ==> effects[i].apiCalls == 1
    requires forall i :: 0 <= i < |calls| ==> effects[i].users == UsersOf(calls[i].reply)
    requires forall i :: 0 <= i < |calls| ==> effects[i].errors == runs[i]
    ensures Run(start, effects, |effects|).status
            == start.status.(apiCalls := start.status.apiCalls + |calls|,
                             users := start.status.users + SumUsers(calls, |calls|),
                             errors := start.status.errors + Joined(runs, |calls|))
  {
    RunTotal(start, effects, |effects|);
    CallsAccount(effects, |effects|);
    UsersAccount(calls, effects, |calls|);
    JoinedAccount(runs, effects, |calls|);
  }

  /**
   * From a reset status (nothing counted, no errors), iterations that account for their
   * calls leave exactly the calls, the users of the good batches and the runs of entries.
   */
  lemma {:induction false} ResetRunStatus(calls: seq<CallInput>, runs: seq<seq<Value>>, effects: seq<Delta>,
                                          before: World, reset: FetchStatus)
    requires |effects| == |calls| && |runs| == |calls|
    requires reset.apiCalls == 0 && reset.users == 0 && reset.errors == []
    requires forall i :: 0 <= i < |effects| ==> effects[i].apiCalls == 1
    requires forall i :: 0 <= i < |calls| ==> effects[i].users == UsersOf(calls[i].reply)
    requires forall i :: 0 <= i < |calls| ==> effects[i].errors == runs[i]
    ensures Run(before.(status := reset), effects, |calls|).status
            == FetchStatus(SumUsers(calls, |calls|), |calls|, Joined(runs, |calls|), reset.timestamp, reset.duration)
  {
    RunStatus(calls, runs, effects, before.(status := reset));
    assert [] + Joined(runs, |calls|) == Joined(runs, |calls|);
  }

  /** Runs of one entry per non-200 reply or sentinel and none otherwise join to as many entries as there are such calls. */
  lemma {:induction false} EntryRunsCount(calls: seq<CallInput>, runs: seq<seq<Value>>, k: nat)
    requires |runs| == |calls| && k <= |calls|
    requires forall i :: 0 <= i < |calls| ==>
               |runs[i]| == (if IsNon200(Classify(calls[i].reply)) || IsSentinel(Classify(calls[i].reply)) then 1 else 0)
    ensures |Joined(runs, k)| == CountKind(calls, k, IsNon200) + CountKind(calls, k, IsSentinel)
  {
    if k > 0 {
      EntryRunsCount(calls, runs, k - 1);
      var kind := Classify(calls[k - 1].reply);
      assert |runs[k - 1]| == (if IsNon200(kind) then 1 else 0) + (if IsSentinel(kind) then 1 else 0);
    }
  }

  /** A property every run's elements have, the joined runs' elements have. */
  lemma {:induction false} JoinedElements(runs: seq<seq<Value>>, k: nat, p: Value -> bool)
    requires k <= |runs|
    requires forall i, j :: 0 <= i < |runs| && 0 <= j < |runs[i]| ==> p(runs[i][j])
    ensures forall j :: 0 <= j < |Joined(runs, k)| ==> p(Joined(runs, k)[j])
  {
    if k > 0 {
      JoinedElements(runs, k - 1, p);
      var a, b := Joined(runs, k - 1), runs[k - 1];
      forall j | 0 <= j < |a + b| ensures p((a + b)[j]) {
        if j >= |a| {
          assert (a + b)[j] == b[j - |a|];
        }
      }
    }
  }

  /** Effects that make one call each make `k` calls in all. */
  lemma {:induction false} CallsAccount(effects: seq<Delta>, k: nat)
    requires k <= |effects|
    requires forall i :: 0 <= i < |effects| ==> effects[i].apiCalls == 1
    ensures Total(effects, k).apiCalls == k
  {
    if k > 0 {
      CallsAccount(effects, k - 1);
    }
  }

  /** Effects that count their call's users count the users of the first `k` calls. */
  lemma {:induction false} UsersAccount(calls: seq<CallInput>, effects: seq<Delta>, k: nat)
    requires |effects| == |calls| && k <= |calls|
    requires forall i :: 0 <= i < |calls| ==> effects[i].users == UsersOf(calls[i].reply)
    ensures Total(effects, k).users == SumUsers(calls, k)
  {
    if k > 0 {
      UsersAccount(calls, effects, k - 1);
      assert effects[k - 1].users == UsersOf(calls[k - 1].reply);
    }
  }

  /** An iteration's effect from its parts: the announcement, the call, the batch's users, and the store's log and writes. */
  function Combine(announce: seq<LogsRequest>, got: Delta, users: nat, store: seq<LogsRequest>,
                   writes: seq<DynamoRequest>): Delta {
    Delta(got.apiCalls, got.users + users, got.errors, announce + got.logs + store, got.sqs, writes)
  }

  /** The world after an iteration, field by field. */
  lemma CombineApply(w: World, announce: seq<LogsRequest>, got: Delta, users: nat, store: seq<LogsRequest>,
                     writes: seq<DynamoRequest>)
    ensures Apply(w, Combine(announce, got, users, store, writes)) ==
              World(w.status.(apiCalls := w.status.apiCalls + got.apiCalls, users := w.status.users + got.users + users,
                              errors := w.status.errors + got.errors),
                    w.logs + announce + got.logs + store, w.sqs + got.sqs, w.writes + writes)
  {
    assert w.logs + (announce + got.logs + store) == w.logs + announce + got.logs + store;
  }

  /** Counting a call first and then applying an effect that counts none is applying it with the call counted. */
  lemma CountedApply(w: World, e: Delta)
    requires e.apiCalls == 0
    ensures Apply(w.(status := w.status.(apiCalls := w.status.apiCalls + 1)), e) == Apply(w, e.(apiCalls := 1))
  {
  }
}
