/**
 The retry loop and circuit breaker of the Auth0 connector (backend/app/connectors.py, lines 57 and
 80-121). An operation is one call of `_request`; a provider call is one HTTP request it sends.
 */
module Breaker {
  import opened Base

  const OPEN_FOR := 30 * SECOND

  /** The lifetime in a grant: missing, a number, or something that does not convert to a number. */
  datatype ExpiresIn = Absent | Seconds(n: int) | Unreadable

  /** What a response body decodes to, as far as the connector looks into it. */
  datatype Body =
    | TokenGrant(accessToken: Option<string>, expiresIn: ExpiresIn)
    | UserList(userIds: seq<Option<string>>)
    | OtherBody

  datatype Reply = NetworkError | Response(status: int, body: Body)

  /** One HTTP request: the moment it is sent and what comes back. */
  datatype Attempt = Attempt(at: int, reply: Reply)

  /**
   The environment of one operation: the clock when it begins, the replies its (up to three)
   requests would get, and the clock when it has ended.
   */
  datatype Operation = Operation(now: int, attempts: seq<Attempt>, end: int) {
    predicate WellTimed() {
      |attempts| == 3 && now <= attempts[0].at <= attempts[1].at <= attempts[2].at <= end
    }
  }

  datatype Outcome =
    | CircuitOpen
    | Network
    | UpstreamRetryable(status: int)
    | UpstreamRejected(status: int)
    | Accepted(body: Body)
  {
    /** All three requests failed in a way worth retrying. */
    predicate Exhausted() {
      Network? || UpstreamRetryable?
    }
  }

  datatype Circuit = Circuit(failures: nat, openUntil: int)

  const CLOSED := Circuit(0, 0)

  predicate Retryable(status: int) {
    status in {429, 500, 502, 503, 504}
  }

  /** A reply that ends the retry loop. */
  predicate Conclusive(reply: Reply) {
    reply.Response? && !Retryable(reply.status)
  }

  /** How many requests the loop sends. */
  function Sent(attempts: seq<Attempt>): (n: nat)
    requires |attempts| == 3
    ensures 1 <= n <= 3
    ensures forall k :: 0 <= k < n - 1 ==> !Conclusive(attempts[k].reply)
    ensures n < 3 ==> Conclusive(attempts[n - 1].reply)
  {
    if Conclusive(attempts[0].reply) then 1 else if Conclusive(attempts[1].reply) then 2 else 3
  }

  function Judge(reply: Reply): Outcome {
    match reply
    case NetworkError => Network
    case Response(status, body) =>
      if Retryable(status) then UpstreamRetryable(status)
      else if status >= 400 then UpstreamRejected(status)
      else Accepted(body)
  }

  function RecordFailure(c: Circuit, at: int): Circuit {
    Circuit(c.failures + 1, if c.failures + 1 >= 2 then at + OPEN_FOR else c.openUntil)
  }

  function OutcomeOf(c: Circuit, op: Operation): Outcome
    requires op.WellTimed()
  {
    if op.now < c.openUntil then CircuitOpen else Judge(op.attempts[Sent(op.attempts) - 1].reply)
  }

  function After(c: Circuit, op: Operation): Circuit
    requires op.WellTimed()
  {
    var outcome := OutcomeOf(c, op);
    if outcome.Exhausted() then RecordFailure(c, op.end)
    else if outcome.Accepted? then c.(failures := 0)
    else c
  }

  /** The provider calls of one operation. */
  function Calls(c: Circuit, op: Operation): seq<Attempt>
    requires op.WellTimed()
  {
    if op.now < c.openUntil then [] else op.attempts[..Sent(op.attempts)]
  }

  // ---- Runs of operations ---------------------------------------------------------------------

  /** One operation after the other. */
  ghost predicate Timed(ops: seq<Operation>) {
    && (forall i :: 0 <= i < |ops| ==> ops[i].WellTimed())
    && (forall i, j :: 0 <= i < j < |ops| ==> ops[i].end <= ops[j].now)
  }

  function Final(ops: seq<Operation>): Circuit
    requires forall i :: 0 <= i < |ops| ==> ops[i].WellTimed()
  {
    if ops == [] then CLOSED else After(Final(ops[..|ops| - 1]), ops[|ops| - 1])
  }

  function Outcomes(ops: seq<Operation>): (r: seq<Outcome>)
    requires forall i :: 0 <= i < |ops| ==> ops[i].WellTimed()
    ensures |r| == |ops|
  {
    if ops == [] then []
    else
      var n := |ops| - 1;
      Outcomes(ops[..n]) + [OutcomeOf(Final(ops[..n]), ops[n])]
  }

  function AllCalls(ops: seq<Operation>): seq<Attempt>
    requires forall i :: 0 <= i < |ops| ==> ops[i].WellTimed()
  {
    if ops == [] then []
    else
      var n := |ops| - 1;
      AllCalls(ops[..n]) + Calls(Final(ops[..n]), ops[n])
  }

  /** When the exhausted operations ended. */
  function FailureTimes(ops: seq<Operation>): seq<int>
    requires forall i :: 0 <= i < |ops| ==> ops[i].WellTimed()
  {
    if ops == [] then []
    else
      var n := |ops| - 1;
      FailureTimes(ops[..n]) + if OutcomeOf(Final(ops[..n]), ops[n]).Exhausted() then [ops[n].end] else []
  }

  // ---- What an operation does -----------------------------------------------------------------

  /** An exhausted operation has sent exactly three requests, an operation on an open circuit none. */
  lemma CallsOfOperation(c: Circuit, op: Operation)
    requires op.WellTimed()
    ensures |Calls(c, op)| <= 3
    ensures OutcomeOf(c, op).Exhausted() ==> |Calls(c, op)| == 3
    ensures OutcomeOf(c, op).CircuitOpen? <==> |Calls(c, op)| == 0
    ensures forall a :: a in Calls(c, op) ==> c.openUntil <= op.now <= a.at <= op.end
    ensures !OutcomeOf(c, op).CircuitOpen? ==> Judge(Calls(c, op)[|Calls(c, op)| - 1].reply) == OutcomeOf(c, op)
  {
  }

  /** Worth another try: no answer, or one of five statuses. */
  predicate Transient(reply: Reply) {
    reply.NetworkError? || reply.status in {429, 500, 502, 503, 504}
  }

  /** What is sent, and what comes of it, told from the replies. */
  lemma OperationMeaning(c: Circuit, op: Operation)
    requires op.WellTimed()
    ensures var n, outcome := |Calls(c, op)|, OutcomeOf(c, op);
            && n <= 3 && (n == 0 <==> op.now < c.openUntil) && Calls(c, op) == op.attempts[..n]
            && (n > 0 ==> (n >= 2 <==> Transient(op.attempts[0].reply)))
            && (n >= 2 ==> (n == 3 <==> Transient(op.attempts[1].reply)))
            && (outcome.CircuitOpen? <==> n == 0)
            && (outcome.Exhausted() <==> n == 3 && Transient(op.attempts[2].reply))
            && (forall body :: outcome == Accepted(body) <==>
                  n > 0 && op.attempts[n - 1].reply.Response? && op.attempts[n - 1].reply.status < 400
                  && op.attempts[n - 1].reply.body == body)
            && (outcome.UpstreamRejected? <==>
                  n > 0 && !Transient(op.attempts[n - 1].reply) && op.attempts[n - 1].reply.status >= 400)
  {
  }

  /** The exhausted operations after the last accepted one. */
  function SinceSuccess(outcomes: seq<Outcome>): nat {
    if outcomes == [] then 0
    else
      var last := outcomes[|outcomes| - 1];
      if last.Accepted? then 0
      else SinceSuccess(outcomes[..|outcomes| - 1]) + if last.Exhausted() then 1 else 0
  }

  /** The failure counter is the number of exhausted operations since the last success. */
  lemma {:induction false} CounterMeaning(ops: seq<Operation>)
    requires forall i :: 0 <= i < |ops| ==> ops[i].WellTimed()
    ensures Final(ops).failures == SinceSuccess(Outcomes(ops))
  {
    if ops == [] {
    } else {
      var n := |ops| - 1;
      CounterMeaning(ops[..n]);
      assert Outcomes(ops)[..n] == Outcomes(ops[..n]);
    }
  }

  // ---- When an operation is refused -----------------------------------------------------------

  /** Operation `k` was exhausted, and it was not the first one since the last success. */
  predicate Trips(ops: seq<Operation>, k: nat)
    requires k < |ops| && forall i :: 0 <= i < |ops| ==> ops[i].WellTimed()
  {
    Outcomes(ops)[k].Exhausted() && SinceSuccess(Outcomes(ops)[..k + 1]) >= 2
  }

  lemma OutcomesBefore(ops: seq<Operation>, k: nat)
    requires k < |ops| - 1 && forall i :: 0 <= i < |ops| ==> ops[i].WellTimed()
    ensures Trips(ops, k) <==> Trips(ops[..|ops| - 1], k)
  {
    var front := ops[..|ops| - 1];
    assert Outcomes(ops) == Outcomes(front) + [Outcomes(ops)[|ops| - 1]];
    assert Outcomes(ops)[..k + 1] == Outcomes(front)[..k + 1];
  }

  lemma LastTrips(ops: seq<Operation>)
    requires ops != [] && forall i :: 0 <= i < |ops| ==> ops[i].WellTimed()
    ensures var n := |ops| - 1;
            Trips(ops, n) <==> OutcomeOf(Final(ops[..n]), ops[n]).Exhausted() && Final(ops[..n]).failures + 1 >= 2
  {
    var n := |ops| - 1;
    assert Outcomes(ops)[..n + 1] == Outcomes(ops);
    assert Outcomes(ops)[..n] == Outcomes(ops[..n]);
    CounterMeaning(ops[..n]);
  }

  /**
   After any run an operation is refused at a time exactly if, less than thirty seconds before, an
   operation was exhausted that was not the first since the last success.
   */
  lemma {:induction false} RefusedIff(ops: seq<Operation>, time: int)
    requires Timed(ops) && 0 <= time
    ensures time < Final(ops).openUntil
            <==> exists k :: 0 <= k < |ops| && Trips(ops, k) && time < ops[k].end + 30 * 1_000_000
  {
    if ops == [] {
    } else {
      var n := |ops| - 1;
      RefusedIff(ops[..n], time);
      LastTrips(ops);
      forall k | 0 <= k < n ensures Trips(ops, k) <==> Trips(ops[..n], k) {
        OutcomesBefore(ops, k);
      }
      if Trips(ops, n) {
        forall k | 0 <= k < n ensures ops[k].end <= ops[n].end {
          assert ops[k].end <= ops[n].now;
        }
      }
    }
  }

  // ---- The bound over time --------------------------------------------------------------------

  ghost predicate NoSuccess(ops: seq<Operation>)
    requires forall i :: 0 <= i < |ops| ==> ops[i].WellTimed()
  {
    forall i :: 0 <= i < |ops| ==> !Outcomes(ops)[i].Accepted?
  }

  /** The circuit of a run without success, told from its failures alone. */
  lemma {:induction false} OpenAfterFailures(ops: seq<Operation>)
    requires Timed(ops) && NoSuccess(ops)
    ensures var f, c := FailureTimes(ops), Final(ops);
            && c.failures == |f|
            && (|f| >= 2 ==> c.openUntil == f[|f| - 1] + OPEN_FOR)
  {
    if ops == [] {
    } else {
      var n := |ops| - 1;
      NoSuccessBefore(ops);
      OpenAfterFailures(ops[..n]);
    }
  }

  lemma NoSuccessBefore(ops: seq<Operation>)
    requires ops != [] && Timed(ops) && NoSuccess(ops)
    ensures var n := |ops| - 1;
            && Timed(ops[..n]) && NoSuccess(ops[..n]) && ops[n].WellTimed()
            && !OutcomeOf(Final(ops[..n]), ops[n]).Accepted?
  {
    var n := |ops| - 1;
    forall i | 0 <= i < n ensures !Outcomes(ops[..n])[i].Accepted? {
      assert Outcomes(ops)[i] == Outcomes(ops[..n])[i];
    }
    assert !Outcomes(ops)[n].Accepted?;
  }

  /**
   Until a success, exhausted operations from the second on end at least thirty seconds apart,
   rejected operations in between or not.
   */
  lemma {:induction false} FailuresAreSpaced(ops: seq<Operation>, k: nat)
    requires Timed(ops) && NoSuccess(ops) && 1 <= k < |FailureTimes(ops)|
    ensures FailureTimes(ops)[k] >= FailureTimes(ops)[1] + (k - 1) * (30 * 1_000_000)
    decreases |ops|, k
  {
    var n := |ops| - 1;
    NoSuccessBefore(ops);
    OpenAfterFailures(ops[..n]);
    var f := FailureTimes(ops[..n]);
    if k < |f| {
      FailuresAreSpaced(ops[..n], k);
    } else if k >= 2 {
      FailuresAreSpaced(ops[..n], k - 1);
    }
  }

  function CallsBy(calls: seq<Attempt>, time: int): (n: nat)
    ensures n <= |calls|
  {
    if calls == [] then 0
    else CallsBy(calls[..|calls| - 1], time) + if calls[|calls| - 1].at <= time then 1 else 0
  }

  lemma {:induction false} CallsByAppend(a: seq<Attempt>, b: seq<Attempt>, time: int)
    ensures CallsBy(a + b, time) == CallsBy(a, time) + CallsBy(b, time)
  {
    if b == [] {
      assert a + b == a;
    } else {
      assert (a + b)[..|a + b| - 1] == a + b[..|b| - 1];
      CallsByAppend(a, b[..|b| - 1], time);
    }
  }

  lemma {:induction false} NoCallsBy(calls: seq<Attempt>, time: int)
    requires forall a :: a in calls ==> time < a.at
    ensures CallsBy(calls, time) == 0
  {
    if calls == [] {
    } else {
      NoCallsBy(calls[..|calls| - 1], time);
    }
  }

  /** Every operation so far was exhausted or found the circuit open. */
  ghost predicate OnlyFailures(ops: seq<Operation>)
    requires forall i :: 0 <= i < |ops| ==> ops[i].WellTimed()
  {
    forall i :: 0 <= i < |ops| ==> Outcomes(ops)[i].Exhausted() || Outcomes(ops)[i].CircuitOpen?
  }

  lemma OnlyFailuresBefore(ops: seq<Operation>)
    requires ops != [] && Timed(ops) && OnlyFailures(ops)
    ensures var n := |ops| - 1;
            && Timed(ops[..n]) && OnlyFailures(ops[..n]) && ops[n].WellTimed() && NoSuccess(ops[..n])
            && (var o := OutcomeOf(Final(ops[..n]), ops[n]); o.Exhausted() || o.CircuitOpen?)
  {
    var n := |ops| - 1;
    forall i | 0 <= i < n
      ensures Outcomes(ops[..n])[i].Exhausted() || Outcomes(ops[..n])[i].CircuitOpen?
    {
      assert Outcomes(ops)[i] == Outcomes(ops[..n])[i];
    }
    assert Outcomes(ops)[n].Exhausted() || Outcomes(ops)[n].CircuitOpen?;
  }

  /** In such a run every failure stands for exactly three provider calls. */
  lemma {:induction false} ThreeCallsPerFailure(ops: seq<Operation>)
    requires Timed(ops) && OnlyFailures(ops)
    ensures |AllCalls(ops)| == 3 * |FailureTimes(ops)|
  {
    if ops == [] {
    } else {
      var n := |ops| - 1;
      OnlyFailuresBefore(ops);
      ThreeCallsPerFailure(ops[..n]);
      CallsOfOperation(Final(ops[..n]), ops[n]);
    }
  }

  /**
   The promise of the breaker: while the provider keeps failing, at most
   3 * (2 + floor((T - t2) / 30 s)) calls are sent by time T, where t2 is when the second operation
   failed; before a second failure there are at most six.
   */
  lemma {:induction false} CallBound(ops: seq<Operation>, time: int)
    requires Timed(ops) && OnlyFailures(ops)
    ensures var f, n := FailureTimes(ops), CallsBy(AllCalls(ops), time);
            && (|f| < 2 || time < f[1] ==> n <= 6)
            && (|f| >= 2 && f[1] <= time ==> n <= 3 * (2 + (time - f[1]) / (30 * 1_000_000)))
  {
    ThreeCallsPerFailure(ops);
    if |FailureTimes(ops)| > 2 {
      var n := |ops| - 1;
      OnlyFailuresBefore(ops);
      CallBound(ops[..n], time);
      ThreeCallsPerFailure(ops[..n]);
      CallsByAppend(AllCalls(ops[..n]), Calls(Final(ops[..n]), ops[n]), time);
      LastCallsAreLate(ops, time);
    }
  }

  /** The calls of an exhausted operation after the second wait for the circuit to close. */
  lemma LastCallsAreLate(ops: seq<Operation>, time: int)
    requires ops != [] && Timed(ops) && OnlyFailures(ops) && |FailureTimes(ops)| > 2
    ensures var n := |ops| - 1;
            var f, c := FailureTimes(ops), Final(ops[..n]);
            || CallsBy(Calls(c, ops[n]), time) == 0
            || (f[1] <= time && |f| <= 2 + (time - f[1]) / OPEN_FOR)
  {
    var n := |ops| - 1;
    OnlyFailuresBefore(ops);
    var f, c := FailureTimes(ops[..n]), Final(ops[..n]);
    CallsOfOperation(c, ops[n]);
    if !OutcomeOf(c, ops[n]).CircuitOpen? {
      OpenAfterFailures(ops[..n]);
      FailuresAreSpaced(ops[..n], |f| - 1);
      if time < ops[n].now {
        NoCallsBy(Calls(c, ops[n]), time);
      } else {
        FloorAtLeast(f[1], f[|f| - 1], |f| - 2, time);
      }
    }
  }

  lemma FloorAtLeast(second: int, last: int, k: nat, time: int)
    requires last >= second + k * OPEN_FOR && time >= last + OPEN_FOR
    ensures time >= second && (time - second) / OPEN_FOR >= k + 1
  {
  }
}
