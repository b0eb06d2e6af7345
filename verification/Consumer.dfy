/**
 The worker loop (backend/app/worker.py, lines 26-83) as it updates the job table, the stream, the
 pending list and the dead-letter stream, when no crash and no failing call interrupts it. Every
 effect is one step of the queue's step machine.
 */
module Consumer {
  import opened Base
  import opened Queue

  /** The row a delivery leaves behind, given whether the telemetry was processed. */
  function Settled(max: nat, job: Job, ok: bool): Job {
    var begun := job.(attempts := job.attempts + 1);
    begun.(status := if ok then Completed else FailureStatus(max, begun))
  }

  predicate Retried(max: nat, job: Job, ok: bool) {
    !ok && job.attempts + 1 < max
  }

  predicate GivenUp(max: nat, job: Job, ok: bool) {
    !ok && job.attempts + 1 >= max
  }

  /** The jobs of the first `k` messages that go back on the stream, in order. */
  function Retries(max: nat, jobs: map<JobId, Job>, messages: seq<Entry>, outcomes: seq<bool>, k: nat): seq<JobId>
    requires k <= |messages| && k <= |outcomes| && forall e :: e in messages ==> e.job in jobs
  {
    if k == 0 then []
    else
      Retries(max, jobs, messages, outcomes, k - 1)
      + if Retried(max, jobs[messages[k - 1].job], outcomes[k - 1]) then [messages[k - 1].job] else []
  }

  /** The jobs of the first `k` messages that end on the dead-letter stream, in order. */
  function Burials(max: nat, jobs: map<JobId, Job>, messages: seq<Entry>, outcomes: seq<bool>, k: nat): seq<JobId>
    requires k <= |messages| && k <= |outcomes| && forall e :: e in messages ==> e.job in jobs
  {
    if k == 0 then []
    else
      Burials(max, jobs, messages, outcomes, k - 1)
      + if GivenUp(max, jobs[messages[k - 1].job], outcomes[k - 1]) then [messages[k - 1].job] else []
  }

  lemma OneStep(max: nat, s: State, step: Step, t: State)
    requires Enabled(s, step) && t == Apply(max, s, step)
    ensures IsRun(max, s, [step], t)
  {
  }

  /** A run without crashes and failing calls. */
  ghost predicate CleanRun(max: nat, s: State, steps: seq<Step>, t: State) {
    IsRun(max, s, steps, t) && forall i :: 0 <= i < |steps| ==> steps[i].Faultless()
  }

  lemma CleanRunAppend(max: nat, s: State, a: seq<Step>, t: State, b: seq<Step>, u: State)
    requires CleanRun(max, s, a, t) && CleanRun(max, t, b, u)
    ensures CleanRun(max, s, a + b, u)
  {
    RunOfAppend(Next(max), s, a, t, b, u);
  }

  /** The acknowledgement that ends a message in this phase. */
  ghost function AckStep(phase: Phase): Step {
    if phase.Done? then AckDone(0) else if phase.Requeued? then AckRequeued(0) else AckBuried(0)
  }

  /** No two messages in a worker's hands belong to the same job. */
  lemma DistinctJobs(max: nat, s: State, i: nat)
    requires Inv(max, s) && i < |s.workers|
    ensures var batch := s.workers[i].batch;
            && (forall e :: e in batch ==> e.job in s.jobs)
            && DistinctlyJobbed(batch)
  {
    var batch := s.workers[i].batch;
    forall a | 0 <= a < |batch| ensures batch[a].job in s.jobs {
      var j := batch[a].job;
      assert batch == batch[..a] + [batch[a]] + batch[a + 1..];
      InEntriesAppend(batch[..a] + [batch[a]], batch[a + 1..], j);
      InEntriesSnoc(batch[..a], batch[a], j);
      WorkerChange(s, s, i, j);
      assert InvAt(max, s, j);
    }
    forall a, b | 0 <= a < b < |batch| ensures batch[a].job != batch[b].job {
      var j := batch[a].job;
      var front := batch[..b];
      assert batch == front + [batch[b]] + batch[b + 1..];
      InEntriesAppend(front + [batch[b]], batch[b + 1..], j);
      InEntriesSnoc(front, batch[b], j);
      assert front == front[..a] + [front[a]] + front[a + 1..];
      InEntriesAppend(front[..a] + [front[a]], front[a + 1..], j);
      InEntriesSnoc(front[..a], front[a], j);
      WorkerChange(s, s, i, j);
      assert InvAt(max, s, j);
    }
  }

  /** The job table after the first `k` messages have been settled, in order. */
  function SettledJobs(max: nat, jobs: map<JobId, Job>, messages: seq<Entry>, outcomes: seq<bool>, k: nat)
    : (r: map<JobId, Job>)
    requires k <= |messages| && k <= |outcomes| && forall e :: e in messages ==> e.job in jobs
    ensures r.Keys == jobs.Keys
  {
    if k == 0 then jobs
    else
      var j := messages[k - 1].job;
      SettledJobs(max, jobs, messages, outcomes, k - 1)[j := Settled(max, jobs[j], outcomes[k - 1])]
  }

  predicate DistinctlyJobbed(messages: seq<Entry>) {
    forall a, b :: 0 <= a < b < |messages| ==> messages[a].job != messages[b].job
  }

  /** Settling touches no row but those of the settled messages, and each of those once. */
  lemma {:induction false} SettledRows(max: nat, jobs: map<JobId, Job>, messages: seq<Entry>, outcomes: seq<bool>,
                                       k: nat, j: JobId)
    requires k <= |messages| && k <= |outcomes| && forall e :: e in messages ==> e.job in jobs
    requires DistinctlyJobbed(messages) && j in jobs
    ensures (forall n :: 0 <= n < k ==> messages[n].job != j)
            ==> SettledJobs(max, jobs, messages, outcomes, k)[j] == jobs[j]
    ensures forall n :: 0 <= n < k && messages[n].job == j ==>
              SettledJobs(max, jobs, messages, outcomes, k)[j] == Settled(max, jobs[j], outcomes[n])
  {
    if k > 0 {
      SettledRows(max, jobs, messages, outcomes, k - 1, j);
    }
  }

  /** How the state looks when `n` messages of a batch read from `start` have been handled. */
  ghost predicate Handled(max: nat, start: State, s: State, messages: seq<Entry>, outcomes: seq<bool>, n: nat)
    requires n <= |messages| <= |outcomes| && forall e :: e in messages ==> e.job in start.jobs
  {
    && s.workers == [Worker(messages[n..], Idle)]
    && s.pending == start.pending + multiset(messages[n..])
    && s.jobs == SettledJobs(max, start.jobs, messages, outcomes, n)
    && Jobs(s.stream) == Jobs(start.stream) + Retries(max, start.jobs, messages, outcomes, n)
    && s.dlq == start.dlq + Burials(max, start.jobs, messages, outcomes, n)
  }

  lemma AppendToSum<T>(whole: seq<T>, left: seq<T>, right: seq<T>, more: seq<T>)
    requires whole == left + right
    ensures whole + more == left + (right + more)
  {
  }

  lemma DrawOne<T>(whole: multiset<T>, left: multiset<T>, x: T, right: seq<T>)
    requires whole == left + multiset([x] + right)
    ensures whole - multiset{x} == left + multiset(right)
  {
  }

  lemma HandledNext(max: nat, start: State, s: State, t: State, messages: seq<Entry>, outcomes: seq<bool>, n: nat)
    requires n < |messages| <= |outcomes| && forall e :: e in messages ==> e.job in start.jobs
    requires DistinctlyJobbed(messages) && Handled(max, start, s, messages, outcomes, n)
    requires t.workers == [Worker(messages[n + 1..], Idle)] && t.pending == s.pending - multiset{messages[n]}
    requires var j := messages[n].job;
             && messages[n] in messages && j in s.jobs
             && t.jobs == s.jobs[j := Settled(max, s.jobs[j], outcomes[n])]
             && Jobs(t.stream) == Jobs(s.stream) + (if Retried(max, start.jobs[j], outcomes[n]) then [j] else [])
             && t.dlq == s.dlq + (if GivenUp(max, start.jobs[j], outcomes[n]) then [j] else [])
    ensures Handled(max, start, t, messages, outcomes, n + 1)
  {
    SettledRows(max, start.jobs, messages, outcomes, n, messages[n].job);
    var j := messages[n].job;
    assert messages[n..] == [messages[n]] + messages[n + 1..];
    DrawOne(s.pending, start.pending, messages[n], messages[n + 1..]);
    AppendToSum(Jobs(s.stream), Jobs(start.stream), Retries(max, start.jobs, messages, outcomes, n),
                if Retried(max, start.jobs[j], outcomes[n]) then [j] else []);
    AppendToSum(s.dlq, start.dlq, Burials(max, start.jobs, messages, outcomes, n),
                if GivenUp(max, start.jobs[j], outcomes[n]) then [j] else []);
  }

  /** One idle worker, no submission in progress, and no message lost to a crash. */
  predicate Resting(s: State) {
    s == State(s.jobs, multiset{}, s.stream, s.pending, s.dlq, [Worker([], Idle)], multiset{}, multiset{}, s.nextEntry)
  }

  class IngestionWorker {
    const max: nat
    var jobs: map<JobId, Job>
    var stream: seq<Entry>
    var pending: multiset<Entry>
    var dlq: seq<JobId>
    var nextEntry: nat
    ghost var hands: Worker

    ghost function Snapshot(): State
      reads this
    {
      State(jobs, multiset{}, stream, pending, dlq, [hands], multiset{}, multiset{}, nextEntry)
    }

    ghost predicate Valid()
      reads this
    {
      1 <= max && Inv(max, Snapshot())
    }

    /** Attaches to existing tables and lists: one idle worker, nothing in flight. */
    constructor (max: nat, s: State)
      requires 1 <= max && Inv(max, s) && Resting(s)
      ensures Valid() && this.max == max && Snapshot() == s
    {
      this.max := max;
      jobs, stream, pending, dlq, nextEntry := s.jobs, s.stream, s.pending, s.dlq, s.nextEntry;
      hands := Worker([], Idle);
    }

    // ---- One method per durable effect ------------------------------------------------------

    /** Reads up to ten undelivered messages for the group. */
    method ReadBatch() returns (messages: seq<Entry>)
      requires Valid() && hands == Worker([], Idle) && stream != []
      modifies this`stream, this`pending, this`hands
      ensures Valid() && IsRun(max, old(Snapshot()), [Read(0)], Snapshot())
      ensures hands == Worker(messages, Idle) && messages == old(stream)[..Min(10, |old(stream)|)]
      ensures stream == old(stream)[Min(10, |old(stream)|)..] && pending == old(pending) + multiset(messages)
      ensures jobs == old(jobs) && DistinctlyJobbed(messages) && forall e :: e in messages ==> e.job in jobs
    {
      var n := Min(10, |stream|);
      messages := stream[..n];
      ReadKeepsInv(max, Snapshot(), 0);
      stream, pending := stream[n..], pending + multiset(messages);
      hands := Worker(messages, Idle);
      assert [hands] == [old(hands)][0 := hands];
      OneStep(max, old(Snapshot()), Read(0), Snapshot());
      DistinctJobs(max, Snapshot(), 0);
    }

    /** Marks the job as processing, counts the attempt and commits. */
    method TakeUp(e: Entry)
      requires Valid() && hands.phase == Idle && hands.batch != [] && e == hands.batch[0] && e.job in jobs
      modifies this`jobs, this`hands
      ensures Valid() && IsRun(max, old(Snapshot()), [Begin(0)], Snapshot())
      ensures hands == Worker(old(hands).batch[1..], Begun(e))
      ensures jobs == old(jobs)[e.job := old(jobs)[e.job]
                                .(status := Processing, attempts := old(jobs)[e.job].attempts + 1)]
    {
      BeginKeepsInv(max, Snapshot(), 0);
      var job := jobs[e.job];
      jobs := jobs[e.job := job.(status := Processing, attempts := job.attempts + 1)];
      hands := Worker(hands.batch[1..], Begun(e));
      assert [hands] == [old(hands)][0 := hands];
      OneStep(max, old(Snapshot()), Begin(0), Snapshot());
    }

    /** Marks the job as completed and commits. */
    method Complete(e: Entry)
      requires Valid() && hands.phase == Begun(e) && e.job in jobs
      modifies this`jobs, this`hands
      ensures Valid() && IsRun(max, old(Snapshot()), [Succeed(0)], Snapshot())
      ensures hands == Worker(old(hands).batch, Done(e))
      ensures jobs == old(jobs)[e.job := old(jobs)[e.job].(status := Completed)]
    {
      SucceedKeepsInv(max, Snapshot(), 0);
      jobs := jobs[e.job := jobs[e.job].(status := Completed)];
      hands := hands.(phase := Done(e));
      assert [hands] == [old(hands)][0 := hands];
      OneStep(max, old(Snapshot()), Succeed(0), Snapshot());
    }

    /** The exception handler's commit of RETRYING or DEAD_LETTER. */
    method MarkFailed(e: Entry)
      requires Valid() && hands.phase == Begun(e) && e.job in jobs
      modifies this`jobs, this`hands
      ensures Valid() && IsRun(max, old(Snapshot()), [Fail(0)], Snapshot())
      ensures hands == Worker(old(hands).batch, FailurePhase(max, old(jobs)[e.job], e))
      ensures jobs == old(jobs)[e.job := old(jobs)[e.job].(status := FailureStatus(max, old(jobs)[e.job]))]
    {
      HandleKeepsInv(max, Snapshot(), 0, e, hands.batch);
      var job := jobs[e.job];
      jobs := jobs[e.job := job.(status := if job.attempts >= max then DeadLetter else Retrying)];
      hands := hands.(phase := if job.attempts >= max then Dead(e) else Failed(e));
      assert [hands] == [old(hands)][0 := hands];
      OneStep(max, old(Snapshot()), Fail(0), Snapshot());
    }

    /** Puts the payload on the stream again. */
    method PutBack(e: Entry)
      requires Valid() && hands.phase == Failed(e)
      modifies this`stream, this`nextEntry, this`hands
      ensures Valid() && IsRun(max, old(Snapshot()), [Requeue(0)], Snapshot())
      ensures hands == Worker(old(hands).batch, Requeued(e)) && stream == old(stream) + [Entry(old(nextEntry), e.job)]
    {
      RequeueKeepsInv(max, Snapshot(), 0);
      stream, nextEntry := stream + [Entry(nextEntry, e.job)], nextEntry + 1;
      hands := hands.(phase := Requeued(e));
      assert [hands] == [old(hands)][0 := hands];
      OneStep(max, old(Snapshot()), Requeue(0), Snapshot());
    }

    /** Adds the message to the dead letters. */
    method GiveUp(e: Entry)
      requires Valid() && hands.phase == Dead(e)
      modifies this`dlq, this`hands
      ensures Valid() && IsRun(max, old(Snapshot()), [Bury(0)], Snapshot())
      ensures hands == Worker(old(hands).batch, Buried(e)) && dlq == old(dlq) + [e.job]
    {
      BuryKeepsInv(max, Snapshot(), 0);
      dlq := dlq + [e.job];
      hands := hands.(phase := Buried(e));
      assert [hands] == [old(hands)][0 := hands];
      OneStep(max, old(Snapshot()), Bury(0), Snapshot());
    }

    /** Acknowledges the message for the group. */
    method Acknowledge(e: Entry)
      requires Valid() && (hands.phase == Done(e) || hands.phase == Requeued(e) || hands.phase == Buried(e))
      modifies this`pending, this`hands
      ensures Valid() && IsRun(max, old(Snapshot()), [AckStep(old(hands).phase)], Snapshot())
      ensures hands == Worker(old(hands).batch, Idle) && pending == old(pending) - multiset{e}
    {
      AckKeepsInv(max, Snapshot(), 0);
      pending := pending - multiset{e};
      hands := hands.(phase := Idle);
      assert [hands] == [old(hands)][0 := hands];
      OneStep(max, old(Snapshot()), AckStep(old(hands).phase), Snapshot());
    }

    // ---- The loop body ----------------------------------------------------------------------

    /** Handles one message from PROCESSING to its acknowledgement. */
    method HandleMessage(e: Entry, ok: bool) returns (ghost trace: seq<Step>)
      requires Valid() && hands.phase == Idle && hands.batch != [] && e == hands.batch[0] && e.job in jobs
      modifies this`jobs, this`stream, this`pending, this`dlq, this`nextEntry, this`hands
      ensures Valid() && CleanRun(max, old(Snapshot()), trace, Snapshot())
      ensures hands == Worker(old(hands).batch[1..], Idle)
      ensures jobs == old(jobs)[e.job := Settled(max, old(jobs)[e.job], ok)]
      ensures pending == old(pending) - multiset{e}
      ensures Jobs(stream) == Jobs(old(stream)) + if Retried(max, old(jobs)[e.job], ok) then [e.job] else []
      ensures dlq == old(dlq) + if GivenUp(max, old(jobs)[e.job], ok) then [e.job] else []
    {
      ghost var s0 := Snapshot();
      TakeUp(e);
      ghost var s1 := Snapshot();
      ghost var rest;
      if ok {
        rest := Finish(e);
      } else {
        rest := Abandon(e);
      }
      trace := [Begin(0)] + rest;
      CleanRunAppend(max, s0, [Begin(0)], s1, rest, Snapshot());
    }

    method Finish(e: Entry) returns (ghost trace: seq<Step>)
      requires Valid() && hands.phase == Begun(e) && e.job in jobs
      modifies this`jobs, this`pending, this`hands
      ensures Valid() && CleanRun(max, old(Snapshot()), trace, Snapshot())
      ensures hands == Worker(old(hands).batch, Idle) && pending == old(pending) - multiset{e}
      ensures jobs == old(jobs)[e.job := old(jobs)[e.job].(status := Completed)]
    {
      ghost var s0 := Snapshot();
      Complete(e);
      ghost var s1 := Snapshot();
      Acknowledge(e);
      trace := [Succeed(0)] + [AckDone(0)];
      CleanRunAppend(max, s0, [Succeed(0)], s1, [AckDone(0)], Snapshot());
    }

    /** The exception handler. */
    method Abandon(e: Entry) returns (ghost trace: seq<Step>)
      requires Valid() && hands.phase == Begun(e) && e.job in jobs
      modifies this`jobs, this`stream, this`pending, this`dlq, this`nextEntry, this`hands
      ensures Valid() && CleanRun(max, old(Snapshot()), trace, Snapshot())
      ensures hands == Worker(old(hands).batch, Idle) && pending == old(pending) - multiset{e}
      ensures jobs == old(jobs)[e.job := old(jobs)[e.job].(status := FailureStatus(max, old(jobs)[e.job]))]
      ensures Jobs(stream) == Jobs(old(stream)) + if old(jobs)[e.job].attempts >= max then [] else [e.job]
      ensures dlq == old(dlq) + if old(jobs)[e.job].attempts >= max then [e.job] else []
    {
      ghost var s0 := Snapshot();
      MarkFailed(e);
      ghost var s1 := Snapshot();
      ghost var rest := Dispose(e);
      trace := [Fail(0)] + rest;
      CleanRunAppend(max, s0, [Fail(0)], s1, rest, Snapshot());
    }

    /** After a failure: back on the stream or over to the dead letters, then acknowledge. */
    method Dispose(e: Entry) returns (ghost trace: seq<Step>)
      requires Valid() && e.job in jobs
      requires hands.phase == if jobs[e.job].status == DeadLetter then Dead(e) else Failed(e)
      modifies this`stream, this`pending, this`dlq, this`nextEntry, this`hands
      ensures Valid() && CleanRun(max, old(Snapshot()), trace, Snapshot())
      ensures hands == Worker(old(hands).batch, Idle) && pending == old(pending) - multiset{e}
      ensures Jobs(stream) == Jobs(old(stream)) + if old(hands).phase.Failed? then [e.job] else []
      ensures dlq == old(dlq) + if old(hands).phase.Dead? then [e.job] else []
    {
      ghost var s0 := Snapshot();
      ghost var first;
      if jobs[e.job].status == DeadLetter {
        GiveUp(e);
        first := Bury(0);
      } else {
        PutBack(e);
        first := Requeue(0);
      }
      ghost var s1 := Snapshot();
      ghost var last := AckStep(hands.phase);
      Acknowledge(e);
      trace := [first] + [last];
      CleanRunAppend(max, s0, [first], s1, [last], Snapshot());
    }

    // ---- The whole call ---------------------------------------------------------------------

    /** One turn of the loop over the batch. */
    method HandleNext(ghost start: State, messages: seq<Entry>, n: nat, outcomes: seq<bool>)
      returns (ghost trace: seq<Step>)
      requires Valid() && n < |messages| <= |outcomes| && DistinctlyJobbed(messages)
      requires forall e :: e in messages ==> e.job in start.jobs
      requires Handled(max, start, Snapshot(), messages, outcomes, n)
      modifies this`jobs, this`stream, this`pending, this`dlq, this`nextEntry, this`hands
      ensures Valid() && Handled(max, start, Snapshot(), messages, outcomes, n + 1)
      ensures CleanRun(max, old(Snapshot()), trace, Snapshot())
    {
      ghost var s := Snapshot();
      SettledRows(max, start.jobs, messages, outcomes, n, messages[n].job);
      trace := HandleMessage(messages[n], outcomes[n]);
      HandledNext(max, start, s, Snapshot(), messages, outcomes, n);
    }

    /** The loop over one batch. */
    method HandleBatch(messages: seq<Entry>, outcomes: seq<bool>) returns (ghost trace: seq<Step>)
      requires Valid() && hands == Worker(messages, Idle) && |messages| <= |outcomes|
      requires multiset(messages) <= pending
      requires DistinctlyJobbed(messages) && forall e :: e in messages ==> e.job in jobs
      modifies this`jobs, this`stream, this`pending, this`dlq, this`nextEntry, this`hands
      ensures Valid() && CleanRun(max, old(Snapshot()), trace, Snapshot())
      ensures Handled(max, old(Snapshot()).(pending := old(pending) - multiset(messages)), Snapshot(),
                      messages, outcomes, |messages|)
    {
      trace := [];
      ghost var s0 := Snapshot();
      ghost var start := s0.(pending := pending - multiset(messages));
      assert messages[0..] == messages;
      for n := 0 to |messages|
        invariant Valid() && CleanRun(max, s0, trace, Snapshot())
        invariant Handled(max, start, Snapshot(), messages, outcomes, n)
      {
        ghost var s := Snapshot();
        ghost var piece := HandleNext(start, messages, n, outcomes);
        CleanRunAppend(max, s0, trace, s, piece, Snapshot());
        trace := trace + piece;
      }
    }

    /**
     One call: reads up to ten messages and handles each in turn; `outcomes` says which of them
     the pipeline processes. Afterwards nothing is left in the worker's hands or newly pending.
     */
    method RunOnce(outcomes: seq<bool>) returns (handled: nat, ghost trace: seq<Step>)
      requires Valid() && hands == Worker([], Idle) && Min(10, |stream|) <= |outcomes|
      modifies this
      ensures Valid() && hands == Worker([], Idle)
      ensures handled == Min(10, |old(stream)|) && pending == old(pending)
      ensures CleanRun(max, old(Snapshot()), trace, Snapshot())
      ensures forall e :: e in old(stream)[..handled] ==> e.job in old(jobs)
      ensures jobs == SettledJobs(max, old(jobs), old(stream)[..handled], outcomes, handled)
      ensures Jobs(stream) == Jobs(old(stream)[handled..])
                              + Retries(max, old(jobs), old(stream)[..handled], outcomes, handled)
      ensures dlq == old(dlq) + Burials(max, old(jobs), old(stream)[..handled], outcomes, handled)
    {
      if stream == [] {
        handled, trace := 0, [];
        return;
      }
      ghost var s0 := Snapshot();
      var messages := ReadBatch();
      handled := |messages|;
      ghost var s1 := Snapshot();
      assert pending - multiset(messages) == old(pending);
      ghost var rest := HandleBatch(messages, outcomes);
      trace := [Read(0)] + rest;
      CleanRunAppend(max, s0, [Read(0)], s1, rest, Snapshot());
    }
  }
}
