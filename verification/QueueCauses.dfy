/**
 Why a job has the status it has, told from the steps of the run
 (backend/app/platform_api.py, lines 205-229, and backend/app/worker.py, lines 26-83).
 */
module QueueCauses {
  import opened Base
  import opened Queue
  import opened QueueLaws

  /** What a step means for a job. */
  datatype Cause = Submitted | Refused | Started | Finished | Broken

  function CauseOf(s: State, step: Step, j: JobId): Option<Cause>
    requires Enabled(s, step)
  {
    match step
    case Submit(k, _, _) => if k == j then Some(Submitted) else None
    case EnqueueFails(k) => if k == j then Some(Refused) else None
    case Begin(i) => if s.workers[i].batch[0].job == j then Some(Started) else None
    case BeginFails(i) => if s.workers[i].batch[0].job == j then Some(Broken) else None
    case Succeed(i) => if s.workers[i].phase.entry.job == j then Some(Finished) else None
    case Fail(i) => if s.workers[i].phase.entry.job == j then Some(Broken) else None
    case AckRaises(i, _) => if s.workers[i].phase.entry.job == j then Some(Broken) else None
    case _ => None
  }

  /** How often the job has met the cause in the run. */
  ghost function Times(max: nat, s: State, steps: seq<Step>, j: JobId, cause: Cause): nat
    decreases |steps|
  {
    if steps == [] || !Enabled(s, steps[0]) then 0
    else
      One(CauseOf(s, steps[0], j) == Some(cause)) + Times(max, Apply(max, s, steps[0]), steps[1..], j, cause)
  }

  /** The last cause the job has met in the run. */
  ghost function LastCause(max: nat, s: State, steps: seq<Step>, j: JobId): Option<Cause>
    decreases |steps|
  {
    if steps == [] || !Enabled(s, steps[0]) then None
    else
      match LastCause(max, Apply(max, s, steps[0]), steps[1..], j)
      case Some(c) => Some(c)
      case None => CauseOf(s, steps[0], j)
  }

  // ---- One step ----------------------------------------------------------------------------------

  /** The row of a job after a step, by the cause. */
  ghost predicate RowAfter(max: nat, before: map<JobId, Job>, after: map<JobId, Job>, j: JobId, cause: Option<Cause>) {
    match cause
    case None => (j in after <==> j in before) && (j in before ==> after[j] == before[j])
    case Some(Submitted) => j !in before && j in after && after[j].status == Queued && after[j].attempts == 0
    case Some(Refused) => j in before && j in after && after[j] == before[j].(status := QueueUnavailable)
    case Some(Started) =>
      j in before && j in after && after[j] == before[j].(status := Processing, attempts := before[j].attempts + 1)
    case Some(Finished) => j in before && j in after && after[j] == before[j].(status := Completed)
    case Some(Broken) =>
      && j in before && j in after
      && after[j] == before[j].(status := if before[j].attempts >= max then DeadLetter else Retrying)
  }

  lemma BeginRow(max: nat, s: State, i: nat, j: JobId)
    requires Enabled(s, Begin(i))
    ensures RowAfter(max, s.jobs, Apply(max, s, Begin(i)).jobs, j, CauseOf(s, Begin(i), j))
  {
  }

  lemma SucceedRow(max: nat, s: State, i: nat, j: JobId)
    requires Enabled(s, Succeed(i))
    ensures RowAfter(max, s.jobs, Apply(max, s, Succeed(i)).jobs, j, CauseOf(s, Succeed(i), j))
  {
  }

  lemma HandleRow(max: nat, s: State, i: nat, e: Entry, batch: seq<Entry>, j: JobId)
    requires i < |s.workers| && e.job in s.jobs
    ensures RowAfter(max, s.jobs, Handle(max, s, i, e, batch).jobs, j, if e.job == j then Some(Broken) else None)
  {
    HandleWrites(max, s, i, e, batch);
  }

  lemma WorkerRow(max: nat, s: State, step: Step, j: JobId)
    requires Enabled(s, step) && step.ByWorker()
    ensures RowAfter(max, s.jobs, Apply(max, s, step).jobs, j, CauseOf(s, step, j))
  {
    match step {
      case Begin(i) => BeginRow(max, s, i, j);
      case BeginFails(i) => HandleRow(max, s, i, s.workers[i].batch[0], s.workers[i].batch[1..], j);
      case Succeed(i) => SucceedRow(max, s, i, j);
      case Fail(i) => HandleRow(max, s, i, s.workers[i].phase.entry, s.workers[i].batch, j);
      case AckRaises(i, _) => HandleRow(max, s, i, s.workers[i].phase.entry, s.workers[i].batch, j);
      case _ => OthersWriteNothing(max, s, step);
    }
  }

  lemma StepRow(max: nat, s: State, step: Step, j: JobId)
    requires Enabled(s, step)
    ensures RowAfter(max, s.jobs, Apply(max, s, step).jobs, j, CauseOf(s, step, j))
  {
    if step.ByWorker() {
      WorkerRow(max, s, step, j);
    }
  }

  // ---- Runs --------------------------------------------------------------------------------------

  /** The status each cause leaves. */
  function StatusAfter(max: nat, cause: Cause, attempts: nat): Status {
    match cause
    case Submitted => Queued
    case Refused => QueueUnavailable
    case Started => Processing
    case Finished => Completed
    case Broken => if attempts >= max then DeadLetter else Retrying
  }

  function Attempts(jobs: map<JobId, Job>, j: JobId): nat {
    if j in jobs then jobs[j].attempts else 0
  }

  /** The row at the end of a run, by what has happened to the job in it. */
  ghost predicate RowByRun(max: nat, s: State, steps: seq<Step>, t: State, j: JobId) {
    && Attempts(t.jobs, j) == Attempts(s.jobs, j) + Times(max, s, steps, j, Started)
    && (j in t.jobs <==> j in s.jobs || LastCause(max, s, steps, j).Some?)
    && (j in t.jobs ==>
          match LastCause(max, s, steps, j)
          case None => j in s.jobs && t.jobs[j] == s.jobs[j]
          case Some(cause) => t.jobs[j].status == StatusAfter(max, cause, t.jobs[j].attempts))
  }

  lemma {:induction false} RunRow(max: nat, s: State, steps: seq<Step>, t: State, j: JobId)
    requires IsRun(max, s, steps, t)
    ensures RowByRun(max, s, steps, t, j)
    decreases |steps|
  {
    if steps == [] {
    } else {
      StepRow(max, s, steps[0], j);
      RunRow(max, Apply(max, s, steps[0]), steps[1..], t, j);
    }
  }

  /**
   From the start, a job's status is that of the last thing that happened to it, and its attempts are the
   deliveries that were begun.
   */
  lemma StatusByRun(max: nat, start: State, steps: seq<Step>, t: State, j: JobId)
    requires Initial(start) && IsRun(max, start, steps, t)
    ensures j in t.jobs <==> LastCause(max, start, steps, j).Some?
    ensures j in t.jobs ==>
              && t.jobs[j].attempts == Times(max, start, steps, j, Started)
              && t.jobs[j].status == StatusAfter(max, LastCause(max, start, steps, j).value, t.jobs[j].attempts)
  {
    RunRow(max, start, steps, t, j);
  }

  // ---- What has to have happened -------------------------------------------------------------------

  lemma {:induction false} LastHappened(max: nat, s: State, steps: seq<Step>, j: JobId)
    ensures LastCause(max, s, steps, j).Some? ==> Times(max, s, steps, j, LastCause(max, s, steps, j).value) > 0
    decreases |steps|
  {
    if steps == [] || !Enabled(s, steps[0]) {
    } else {
      LastHappened(max, Apply(max, s, steps[0]), steps[1..], j);
    }
  }

  /** Who is being processed or completed has been tried; who is dead has no attempt left. */
  ghost predicate Tried(max: nat, jobs: map<JobId, Job>) {
    forall j :: j in jobs ==>
      && (jobs[j].status in {Processing, Completed} ==> jobs[j].attempts >= 1)
      && (jobs[j].status == DeadLetter ==> jobs[j].attempts >= max)
  }

  lemma StepKeepsTried(max: nat, s: State, step: Step)
    requires Inv(max, s) && Tried(max, s.jobs) && Enabled(s, step)
    ensures Tried(max, Apply(max, s, step).jobs)
  {
    var t := Apply(max, s, step);
    forall j | j in t.jobs
      ensures t.jobs[j].status in {Processing, Completed} ==> t.jobs[j].attempts >= 1
      ensures t.jobs[j].status == DeadLetter ==> t.jobs[j].attempts >= max
    {
      StepRow(max, s, step, j);
      if step.Succeed? {
        HeldJob(max, s, step.worker);
      }
    }
  }

  lemma {:induction false} RunKeepsTried(max: nat, s: State, steps: seq<Step>, t: State)
    requires 1 <= max && Inv(max, s) && Tried(max, s.jobs) && IsRun(max, s, steps, t)
    ensures Tried(max, t.jobs)
    decreases |steps|
  {
    if steps == [] {
    } else {
      StepKeepsInv(max, s, steps[0]);
      StepKeepsTried(max, s, steps[0]);
      RunKeepsTried(max, Apply(max, s, steps[0]), steps[1..], t);
    }
  }

  /** A job not yet on the stream, or refused, has not been tried. */
  ghost predicate Untried(s: State) {
    forall j :: UntriedJob(s, j)
  }

  predicate UntriedJob(s: State, j: JobId) {
    && (s.submitting[j] > 0 ==> j in s.jobs && s.jobs[j].attempts == 0)
    && (j in s.jobs && s.jobs[j].status == QueueUnavailable ==> s.jobs[j].attempts == 0)
  }

  lemma StepKeepsUntried(max: nat, s: State, step: Step)
    requires Inv(max, s) && Untried(s) && Enabled(s, step)
    ensures Untried(Apply(max, s, step))
  {
    forall j ensures UntriedJob(Apply(max, s, step), j) {
      assert UntriedJob(s, j);
      StepRow(max, s, step, j);
      SubmittingStep(max, s, step, j);
      RefusedStep(max, s, step, j);
      if CauseOf(s, step, j) == Some(Started) {
        NotSubmitting(max, s, step.worker, j);
        HeldJob(max, s, step.worker);
      }
      RowUntried(max, s, Apply(max, s, step), step, j);
    }
  }

  lemma RowUntried(max: nat, s: State, t: State, step: Step, j: JobId)
    requires Enabled(s, step) && UntriedJob(s, j) && RowAfter(max, s.jobs, t.jobs, j, CauseOf(s, step, j))
    requires t.submitting[j] > 0 ==> s.submitting[j] > 0 || (step.Submit? && step.job == j)
    requires CauseOf(s, step, j) == Some(Started) ==>
               s.submitting[j] == 0 && s.jobs[j].status in {Queued, Retrying}
    requires step == EnqueueFails(j) ==> s.submitting[j] > 0
    requires (j in t.jobs && t.jobs[j].status == QueueUnavailable)
        <==> (j in s.jobs && s.jobs[j].status == QueueUnavailable) || step == EnqueueFails(j)
    ensures UntriedJob(t, j)
  {
  }

  lemma SubmittingStep(max: nat, s: State, step: Step, j: JobId)
    requires Enabled(s, step)
    ensures Apply(max, s, step).submitting[j] > 0 ==> s.submitting[j] > 0 || (step.Submit? && step.job == j)
  {
  }

  lemma NotSubmitting(max: nat, s: State, i: nat, j: JobId)
    requires Inv(max, s) && Enabled(s, Begin(i)) && s.workers[i].batch[0].job == j
    ensures s.submitting[j] == 0
  {
    assert InvAt(max, s, j);
    InEntriesHead(s.workers[i].batch, j);
    TotalUpdate(s.workers, Waits, i, s.workers[i], j);
  }

  lemma {:induction false} RunKeepsUntried(max: nat, s: State, steps: seq<Step>, t: State)
    requires 1 <= max && Inv(max, s) && Untried(s) && IsRun(max, s, steps, t)
    ensures Untried(t)
    decreases |steps|
  {
    if steps == [] {
    } else {
      StepKeepsInv(max, s, steps[0]);
      StepKeepsUntried(max, s, steps[0]);
      RunKeepsUntried(max, Apply(max, s, steps[0]), steps[1..], t);
    }
  }

  /** A refused job stays refused, and only a refused enqueue makes one. */
  lemma RefusedStep(max: nat, s: State, step: Step, j: JobId)
    requires Inv(max, s) && Enabled(s, step)
    ensures var t := Apply(max, s, step);
            (j in t.jobs && t.jobs[j].status == QueueUnavailable)
            <==> (j in s.jobs && s.jobs[j].status == QueueUnavailable) || step == EnqueueFails(j)
  {
    StepRow(max, s, step, j);
    if j in s.jobs && s.jobs[j].status == QueueUnavailable {
      TerminalStatusChangesIff(max, s, step, j);
    }
  }

  lemma {:induction false} RefusedRun(max: nat, s: State, steps: seq<Step>, t: State, j: JobId)
    requires 1 <= max && Inv(max, s) && IsRun(max, s, steps, t)
    ensures (j in t.jobs && t.jobs[j].status == QueueUnavailable)
       <==> (j in s.jobs && s.jobs[j].status == QueueUnavailable) || EnqueueFails(j) in steps
    decreases |steps|
  {
    if steps == [] {
    } else {
      StepKeepsInv(max, s, steps[0]);
      RefusedStep(max, s, steps[0], j);
      RefusedRun(max, Apply(max, s, steps[0]), steps[1..], t, j);
      assert steps == [steps[0]] + steps[1..];
    }
  }

  /** A row that was not there before was submitted in the run, by the tenant and under the key it still has. */
  lemma {:induction false} SubmittedRun(max: nat, s: State, steps: seq<Step>, t: State, j: JobId)
    requires IsRun(max, s, steps, t) && j in t.jobs
    ensures if j in s.jobs then t.jobs[j].tenant == s.jobs[j].tenant && t.jobs[j].key == s.jobs[j].key
            else Submit(j, t.jobs[j].tenant, t.jobs[j].key) in steps
    decreases |steps|
  {
    if steps == [] {
    } else {
      SubmittedStep(max, s, steps[0], j);
      SubmittedRun(max, Apply(max, s, steps[0]), steps[1..], t, j);
      assert steps == [steps[0]] + steps[1..];
    }
  }

  lemma SubmittedStep(max: nat, s: State, step: Step, j: JobId)
    requires Enabled(s, step)
    ensures var t := Apply(max, s, step);
            if j in s.jobs then j in t.jobs && t.jobs[j].tenant == s.jobs[j].tenant && t.jobs[j].key == s.jobs[j].key
            else j in t.jobs ==> step == Submit(j, t.jobs[j].tenant, t.jobs[j].key)
  {
    OneRowWritten(max, s, step);
  }

  /**
   Whatever crashes and fails: every job was submitted by its tenant under its key. It is QUEUE_UNAVAILABLE
   exactly if its own enqueue failed, and then it was never delivered; a COMPLETED one has been delivered and
   its processing has succeeded, as the last thing that happened to it; a DEAD_LETTER one has been delivered
   as often as allowed, and the last thing was a failure.
   */
  lemma EndsHaveCauses(max: nat, start: State, steps: seq<Step>, t: State, j: JobId)
    requires 1 <= max && Initial(start) && IsRun(max, start, steps, t) && j in t.jobs
    ensures Submit(j, t.jobs[j].tenant, t.jobs[j].key) in steps
    ensures t.jobs[j].status == QueueUnavailable <==> EnqueueFails(j) in steps
    ensures t.jobs[j].status == QueueUnavailable ==> Times(max, start, steps, j, Started) == 0
    ensures t.jobs[j].status == Completed <==> LastCause(max, start, steps, j) == Some(Finished)
    ensures t.jobs[j].status == Completed ==>
              Times(max, start, steps, j, Finished) >= 1 && Times(max, start, steps, j, Started) >= 1
    ensures t.jobs[j].status == DeadLetter ==>
              && LastCause(max, start, steps, j) == Some(Broken)
              && Times(max, start, steps, j, Broken) >= 1 && Times(max, start, steps, j, Started) == max
  {
    InitialInv(max, start);
    StatusByRun(max, start, steps, t, j);
    LastHappened(max, start, steps, j);
    RunKeepsTried(max, start, steps, t);
    RunKeepsUntried(max, start, steps, t);
    RefusedRun(max, start, steps, t, j);
    SubmittedRun(max, start, steps, t, j);
    RunKeepsInv(max, start, steps, t);
    assert InvAt(max, t, j) && UntriedJob(t, j);
  }

  // ---- Runs without faults ---------------------------------------------------------------------------

  /** A delivery that was begun has failed, has succeeded, or is under way. */
  ghost predicate Accounted(max: nat, s: State, steps: seq<Step>, t: State, j: JobId) {
    Times(max, s, steps, j, Started) + One(j in s.jobs && s.jobs[j].status == Processing)
    == Times(max, s, steps, j, Broken) + Times(max, s, steps, j, Finished)
       + One(j in t.jobs && t.jobs[j].status == Processing)
  }

  /** The status a cause meets when nothing fails but processing. */
  lemma CleanCause(max: nat, s: State, step: Step, j: JobId)
    requires Inv(max, s) && Enabled(s, step) && CleanStep(step)
    ensures var c := CauseOf(s, step, j);
            && (c == Some(Started) ==> j in s.jobs && s.jobs[j].status in {Queued, Retrying})
            && (c == Some(Finished) || c == Some(Broken) ==> j in s.jobs && s.jobs[j].status == Processing)
            && (c == Some(Refused) ==> j in s.jobs && s.jobs[j].status in {Queued, Retrying})
  {
    if step.ByWorker() {
      HeldJob(max, s, step.worker);
    } else if step.EnqueueFails? {
      assert ViewOf(s, step.job).waiting > 0;
      assert InvAt(max, s, step.job);
    }
  }

  lemma {:induction false} CleanRunAccounts(max: nat, s: State, steps: seq<Step>, t: State, j: JobId)
    requires 1 <= max && Inv(max, s) && Clean(steps) && IsRun(max, s, steps, t)
    ensures Accounted(max, s, steps, t, j)
    ensures Times(max, s, steps, j, Finished) + One(j in s.jobs && s.jobs[j].status == Completed)
            == One(j in t.jobs && t.jobs[j].status == Completed)
    decreases |steps|
  {
    if steps == [] {
    } else {
      assert Clean(steps[1..]);
      StepRow(max, s, steps[0], j);
      CleanCause(max, s, steps[0], j);
      StepKeepsInv(max, s, steps[0]);
      CleanRunAccounts(max, Apply(max, s, steps[0]), steps[1..], t, j);
      if j in s.jobs && s.jobs[j].status == Completed {
        TerminalStatusChangesIff(max, s, steps[0], j);
      }
    }
  }

  /** How a job has ended once a queue without faults has drained. */
  ghost predicate Ended(max: nat, start: State, steps: seq<Step>, t: State, j: JobId)
    requires j in t.jobs
  {
    var begun, broken, finished :=
      Times(max, start, steps, j, Started), Times(max, start, steps, j, Broken), Times(max, start, steps, j, Finished);
    match t.jobs[j].status
    case QueueUnavailable => EnqueueFails(j) in steps && begun == broken == finished == 0
    case Completed => EnqueueFails(j) !in steps && finished == 1 && begun == broken + 1 <= max
    case DeadLetter => EnqueueFails(j) !in steps && finished == 0 && begun == broken == max
    case _ => false
  }

  lemma HowEnded(max: nat, start: State, steps: seq<Step>, t: State, j: JobId)
    requires 1 <= max && Initial(start) && Clean(steps) && IsRun(max, start, steps, t)
    requires j in t.jobs && Terminal(t.jobs[j].status)
    ensures Ended(max, start, steps, t, j)
  {
    InitialInv(max, start);
    EndsHaveCauses(max, start, steps, t, j);
    CleanRunAccounts(max, start, steps, t, j);
    StatusByRun(max, start, steps, t, j);
    RunKeepsInv(max, start, steps, t);
    assert InvAt(max, t, j);
  }

  /**
   After any run without faults in which every accepted job was put on the stream and the workers
   have nothing left to do: the jobs whose enqueue failed were refused and never delivered; every other
   one is COMPLETED, its last delivery being the only one to succeed, or DEAD_LETTER after `max`
   deliveries that all failed. The stream and the pending list are empty, and the dead-letter stream
   holds each DEAD_LETTER job exactly once.
   */
  lemma DrainedQueue(max: nat, start: State, steps: seq<Step>, t: State)
    requires 1 <= max && Initial(start) && Clean(steps) && IsRun(max, start, steps, t)
    requires t.submitting == multiset{} && Stuck(t) && t.workers != []
    ensures forall j :: j in t.jobs ==> Ended(max, start, steps, t, j)
    ensures t.stream == [] && t.pending == multiset{}
    ensures forall j :: multiset(t.dlq)[j] == One(j in t.jobs && t.jobs[j].status == DeadLetter)
    ensures Begins(steps) <= max * |t.jobs|
  {
    InitialInv(max, start);
    RunKeepsInv(max, start, steps, t);
    StuckIsEmpty(max, t);
    InitialNoLeftovers(start);
    CleanRunNoLeftovers(max, start, steps, t);
    CleanBudget(max, start, steps, t);
    RunCountsJobs(max, start, steps, t);
    forall j ensures j in t.jobs ==> Ended(max, start, steps, t, j)
             ensures multiset(t.dlq)[j] == One(j in t.jobs && t.jobs[j].status == DeadLetter)
    {
      assert InvAt(max, t, j);
      QuietJob(max, t, j);
      if j in t.jobs {
        HowEnded(max, start, steps, t, j);
      }
    }
    forall e: Entry ensures t.pending[e] == 0 {
      IdleTotals(t.workers, Holds, e);
    }
  }

  // ---- The order of delivery ---------------------------------------------------------------------------

  /** The stream is in the order of its ids, and whatever has been delivered is older than what has not. */
  ghost predicate InOrder(s: State) {
    && (forall a, b :: 0 <= a < b < |s.stream| ==> s.stream[a].id < s.stream[b].id)
    && (forall a :: 0 <= a < |s.stream| ==> s.stream[a].id < s.nextEntry)
    && (forall e :: e in s.pending ==> e.id < s.nextEntry)
    && (forall e, a :: e in s.pending && 0 <= a < |s.stream| ==> e.id < s.stream[a].id)
  }

  lemma AddedInOrder(s: State, t: State, e: Entry)
    requires InOrder(s) && e.id == s.nextEntry
    requires t.stream == s.stream + [e] && t.nextEntry == s.nextEntry + 1 && t.pending == s.pending
    ensures InOrder(t)
  {
  }

  lemma LessInOrder(s: State, t: State)
    requires InOrder(s) && t.stream == s.stream && t.nextEntry == s.nextEntry && t.pending <= s.pending
    ensures InOrder(t)
  {
    forall e | e in t.pending ensures e in s.pending {
      assert 0 < t.pending[e] <= s.pending[e];
    }
  }

  lemma CutInOrder(s: State, t: State, n: nat)
    requires InOrder(s) && n <= |s.stream| && t.nextEntry == s.nextEntry
    requires t.stream == s.stream[n..] && t.pending == s.pending + multiset(s.stream[..n])
    ensures InOrder(t)
  {
    forall e | e in t.pending
      ensures e in s.pending || exists a :: 0 <= a < n && s.stream[a] == e
    {
      if e !in s.pending {
        assert e in s.stream[..n];
      }
    }
  }

  lemma ReadInOrder(max: nat, s: State, i: nat)
    requires InOrder(s) && Enabled(s, Read(i))
    ensures InOrder(Apply(max, s, Read(i)))
  {
    CutInOrder(s, Apply(max, s, Read(i)), Min(10, |s.stream|));
  }

  lemma RequeueInOrder(max: nat, s: State, i: nat)
    requires InOrder(s) && Enabled(s, Requeue(i))
    ensures InOrder(Apply(max, s, Requeue(i)))
  {
    AddedInOrder(s, Apply(max, s, Requeue(i)), Entry(s.nextEntry, s.workers[i].phase.entry.job));
  }

  lemma StepInOrder(max: nat, s: State, step: Step)
    requires InOrder(s) && Enabled(s, step)
    ensures InOrder(Apply(max, s, step))
  {
    match step {
      case Enqueue(job) => AddedInOrder(s, Apply(max, s, step), Entry(s.nextEntry, job));
      case Read(i) => ReadInOrder(max, s, i);
      case Requeue(i) => RequeueInOrder(max, s, i);
      case Submit(_, _, _) => LessInOrder(s, Apply(max, s, step));
      case EnqueueFails(_) => LessInOrder(s, Apply(max, s, step));
      case SubmitCrash(_) => LessInOrder(s, Apply(max, s, step));
      case _ => OthersInOrder(max, s, step);
    }
  }

  lemma OthersInOrder(max: nat, s: State, step: Step)
    requires InOrder(s) && Enabled(s, step) && step.ByWorker() && !step.Read? && !step.Requeue?
    ensures InOrder(Apply(max, s, step))
  {
    LessInOrder(s, Apply(max, s, step));
  }

  lemma {:induction false} RunInOrder(max: nat, s: State, steps: seq<Step>, t: State)
    requires InOrder(s) && IsRun(max, s, steps, t)
    ensures InOrder(t)
    decreases |steps|
  {
    if steps == [] {
    } else {
      StepInOrder(max, s, steps[0]);
      RunInOrder(max, Apply(max, s, steps[0]), steps[1..], t);
    }
  }

  /** A worker is given the ten oldest messages, or all if there are fewer, and they become pending. */
  ghost predicate TakesOldest(s: State, t: State, i: nat)
    requires i < |s.workers|
  {
    && |t.workers| == |s.workers|
    && var taken := t.workers[i].batch;
       && |taken| == (if |s.stream| < 10 then |s.stream| else 10)
       && s.stream == taken + t.stream && t.pending == s.pending + multiset(taken)
       && (forall e, f :: e in taken && f in t.stream ==> e.id < f.id)
  }

  /** In every reachable state the messages are delivered in the order in which they were put on the stream. */
  lemma OldestFirst(max: nat, start: State, steps: seq<Step>, s: State, i: nat)
    requires Initial(start) && IsRun(max, start, steps, s) && Enabled(s, Read(i))
    ensures TakesOldest(s, Apply(max, s, Read(i)), i)
  {
    RunInOrder(max, start, steps, s);
    var n := if |s.stream| < 10 then |s.stream| else 10;
    assert s.stream == s.stream[..n] + s.stream[n..];
  }

  // ---- The pending list ----------------------------------------------------------------------------------

  /** The step acknowledges the message its worker has in hand. */
  predicate Acknowledges(s: State, step: Step, e: Entry)
    requires Enabled(s, step)
  {
    && (step.AckDone? || step.AckRequeued? || step.AckBuried? || (step.AckRaises? && step.applied))
    && s.workers[step.worker].phase.entry == e
  }

  lemma HandlePending(max: nat, s: State, i: nat, e: Entry, batch: seq<Entry>)
    requires i < |s.workers| && e.job in s.jobs
    ensures Handle(max, s, i, e, batch).pending == s.pending
  {
  }

  lemma ReadPending(max: nat, s: State, i: nat, e: Entry)
    requires Enabled(s, Read(i))
    ensures var t := Apply(max, s, Read(i));
            t.pending[e] + multiset(t.stream)[e] == s.pending[e] + multiset(s.stream)[e]
  {
    var t := Apply(max, s, Read(i));
    var n := |s.stream| - |t.stream|;
    assert s.stream == s.stream[..n] + s.stream[n..];
  }

  lemma AckPending(max: nat, s: State, step: Step)
    requires Enabled(s, step) && (step.AckDone? || step.AckRequeued? || step.AckBuried?)
    ensures Apply(max, s, step).pending == s.pending - multiset{s.workers[step.worker].phase.entry}
  {
  }

  lemma OthersPending(max: nat, s: State, step: Step)
    requires Enabled(s, step) && (step.Begin? || step.Succeed? || step.Requeue? || step.Bury? || step.Crash?)
    ensures Apply(max, s, step).pending == s.pending
  {
  }

  lemma WorkerPending(max: nat, s: State, step: Step)
    requires Enabled(s, step) && step.ByWorker() && !step.Read?
    ensures Apply(max, s, step).pending
            == if step.AckDone? || step.AckRequeued? || step.AckBuried? || (step.AckRaises? && step.applied)
               then s.pending - multiset{s.workers[step.worker].phase.entry} else s.pending
  {
    match step {
      case BeginFails(i) => HandlePending(max, s, i, s.workers[i].batch[0], s.workers[i].batch[1..]);
      case Fail(i) => HandlePending(max, s, i, s.workers[i].phase.entry, s.workers[i].batch);
      case AckRaises(i, _) => HandlePending(max, s, i, s.workers[i].phase.entry, s.workers[i].batch);
      case AckDone(_) => AckPending(max, s, step);
      case AckRequeued(_) => AckPending(max, s, step);
      case AckBuried(_) => AckPending(max, s, step);
      case _ => OthersPending(max, s, step);
    }
  }

  /**
   A delivered message stays pending, whatever crashes and fails, until the worker that holds it acknowledges
   it; and it becomes pending only by being delivered.
   */
  lemma PendingIs(max: nat, s: State, step: Step, e: Entry)
    requires Enabled(s, step)
    ensures var t := Apply(max, s, step);
            if step.Read? then
              t.pending[e] + multiset(t.stream)[e] == s.pending[e] + multiset(s.stream)[e]
            else
              t.pending[e] == if Acknowledges(s, step, e) && s.pending[e] > 0 then s.pending[e] - 1 else s.pending[e]
  {
    if step.Read? {
      ReadPending(max, s, step.worker, e);
    } else if step.ByWorker() {
      WorkerPending(max, s, step);
    }
  }
}
