/** Safety of the ingestion queue over all runs, and how a queue without faults drains. */
module QueueLaws {
  import opened Base
  import opened Queue

  // ---- Safety under crashes and failures ------------------------------------------------------

  /**
   In every reachable state - any number of workers, crashes and failed calls anywhere - a job has
   at most one undelivered message, at most one worker is processing it, nobody processes it while
   a message for it is undelivered, and a finished job has no live message that could restart it.
   */
  lemma QueueSafety(max: nat, start: State, steps: seq<Step>, s: State, j: JobId)
    requires 1 <= max && Initial(start) && IsRun(max, start, steps, s)
    ensures s.submitting[j] + InEntries(s.stream, j) + Total(s.workers, Waits, j) + Total(s.workers, Runs, j) <= 1
    ensures j in s.jobs && !Live(s.jobs[j]) ==>
              InEntries(s.stream, j) == Total(s.workers, Waits, j) == Total(s.workers, Runs, j) == 0
    ensures multiset(s.dlq)[j] <= One(j in s.jobs && s.jobs[j].status == DeadLetter)
    ensures j in s.jobs ==> s.jobs[j].attempts <= max
  {
    InitialInv(max, start);
    RunKeepsInv(max, start, steps, s);
    assert InvAt(max, s, j);
  }

  /** The job whose row a step writes, if it writes one. */
  function Written(s: State, step: Step): Option<JobId>
    requires Enabled(s, step)
  {
    match step
    case Submit(j, _, _) => Some(j)
    case EnqueueFails(j) => Some(j)
    case Begin(i) => Some(s.workers[i].batch[0].job)
    case BeginFails(i) => Some(s.workers[i].batch[0].job)
    case Succeed(i) => Some(s.workers[i].phase.entry.job)
    case Fail(i) => Some(s.workers[i].phase.entry.job)
    case AckRaises(i, _) => Some(s.workers[i].phase.entry.job)
    case _ => None
  }

  /** A step writes at most that one row; the row keeps its tenant and key unless it is new. */
  lemma OneRowWritten(max: nat, s: State, step: Step)
    requires Enabled(s, step)
    ensures var jobs := Apply(max, s, step).jobs;
            match Written(s, step)
            case None => jobs == s.jobs
            case Some(j) =>
              && j in jobs && jobs == s.jobs[j := jobs[j]] && (step.Submit? <==> j !in s.jobs)
              && (j in s.jobs ==> jobs[j].tenant == s.jobs[j].tenant && jobs[j].key == s.jobs[j].key)
  {
    match step {
      case Submit(_, _, _) =>
      case Enqueue(_) =>
      case EnqueueFails(_) =>
      case SubmitCrash(_) =>
      case _ => WorkerWritesOneRow(max, s, step);
    }
  }

  lemma WorkerWritesOneRow(max: nat, s: State, step: Step)
    requires Enabled(s, step) && step.ByWorker()
    ensures var jobs := Apply(max, s, step).jobs;
            match Written(s, step)
            case None => jobs == s.jobs
            case Some(j) =>
              && j in s.jobs && j in jobs && jobs == s.jobs[j := jobs[j]]
              && jobs[j].tenant == s.jobs[j].tenant && jobs[j].key == s.jobs[j].key
  {
    match step {
      case Begin(_) =>
      case BeginFails(i) => HandleWrites(max, s, i, s.workers[i].batch[0], s.workers[i].batch[1..]);
      case Succeed(_) =>
      case Fail(i) => HandleWrites(max, s, i, s.workers[i].phase.entry, s.workers[i].batch);
      case AckRaises(i, _) => HandleWrites(max, s, i, s.workers[i].phase.entry, s.workers[i].batch);
      case _ => OthersWriteNothing(max, s, step);
    }
  }

  lemma HandleWrites(max: nat, s: State, i: nat, e: Entry, batch: seq<Entry>)
    requires i < |s.workers| && e.job in s.jobs
    ensures Handle(max, s, i, e, batch).jobs
         == s.jobs[e.job := s.jobs[e.job].(status := FailureStatus(max, s.jobs[e.job]))]
  {
  }

  lemma OthersWriteNothing(max: nat, s: State, step: Step)
    requires Enabled(s, step) && step.ByWorker() && Written(s, step) == None
    ensures Apply(max, s, step).jobs == s.jobs
  {
    match step {
      case Read(_) =>
      case Requeue(_) =>
      case Bury(_) =>
      case Crash(_) =>
      case _ => AckWritesNothing(max, s, step);
    }
  }

  lemma AckWritesNothing(max: nat, s: State, step: Step)
    requires Enabled(s, step) && (step.AckDone? || step.AckRequeued? || step.AckBuried?)
    ensures Apply(max, s, step).jobs == s.jobs
  {
  }

  predicate Terminal(status: Status) {
    status in {Completed, DeadLetter, QueueUnavailable}
  }

  /** The one call whose failure undoes a committed status: XACK raising after the COMPLETED commit. */
  predicate UndoesCompletion(s: State, step: Step, j: JobId)
    requires Enabled(s, step)
  {
    step.AckRaises? && s.workers[step.worker].phase.entry.job == j
  }

  /**
   Among the steps of the machine, a committed terminal status changes in exactly one way: the
   acknowledgement of the completion itself raises, and the exception handler overwrites COMPLETED.
   No later delivery ever does.
   */
  lemma TerminalStatusChangesIff(max: nat, s: State, step: Step, j: JobId)
    requires Inv(max, s) && Enabled(s, step)
    requires j in s.jobs && Terminal(s.jobs[j].status)
    ensures Apply(max, s, step).jobs[j] != s.jobs[j] <==> UndoesCompletion(s, step, j)
    ensures UndoesCompletion(s, step, j) ==>
              s.jobs[j].status == Completed
              && Apply(max, s, step).jobs[j].status == FailureStatus(max, s.jobs[j])
  {
    assert InvAt(max, s, j);
    OneRowWritten(max, s, step);
    if step.ByWorker() && Written(s, step) == Some(j) {
      HeldJob(max, s, step.worker);
      assert step.AckRaises?;
      HandleWrites(max, s, step.worker, s.workers[step.worker].phase.entry, s.workers[step.worker].batch);
    } else if step.EnqueueFails? {
      assert ViewOf(s, step.job).waiting > 0;
      assert InvAt(max, s, step.job);
    }
  }

  /** The overwrite does happen: this is the step after any completion. */
  lemma CompletionCanBeUndone(max: nat, s: State, i: nat)
    requires 1 <= max && Inv(max, s) && Enabled(s, Succeed(i))
    ensures var done := Apply(max, s, Succeed(i));
            var j := s.workers[i].phase.entry.job;
            && done.jobs[j].status == Completed
            && Enabled(done, AckRaises(i, true))
            && Apply(max, done, AckRaises(i, true)).jobs[j].status in {Retrying, DeadLetter}
  {
  }

  // ---- Idempotency keys -----------------------------------------------------------------------

  ghost predicate KeysUnique(jobs: map<JobId, Job>) {
    forall j, k :: j in jobs && k in jobs && jobs[j].tenant == jobs[k].tenant && jobs[j].key == jobs[k].key
      ==> j == k
  }

  /** No step but a submission adds a job, and no step changes a job's tenant or key. */
  lemma JobsKept(max: nat, s: State, step: Step)
    requires Enabled(s, step)
    ensures var jobs := Apply(max, s, step).jobs;
            && jobs.Keys == s.jobs.Keys + (if step.Submit? then {step.job} else {})
            && forall j :: j in s.jobs ==> jobs[j].tenant == s.jobs[j].tenant && jobs[j].key == s.jobs[j].key
  {
    OneRowWritten(max, s, step);
    if Written(s, step).Some? {
      RowKept(s.jobs, Apply(max, s, step).jobs, Written(s, step).value);
    }
  }

  lemma RowKept(before: map<JobId, Job>, after: map<JobId, Job>, j: JobId)
    requires j in after && after == before[j := after[j]]
    requires j in before ==> after[j].tenant == before[j].tenant && after[j].key == before[j].key
    ensures after.Keys == before.Keys + {j}
    ensures forall i :: i in before ==> after[i].tenant == before[i].tenant && after[i].key == before[i].key
  {
  }

  /** Whatever is submitted and retried, a tenant's idempotency key names at most one job. */
  lemma {:induction false} OneJobPerKey(max: nat, s: State, steps: seq<Step>, t: State)
    requires KeysUnique(s.jobs) && IsRun(max, s, steps, t)
    ensures KeysUnique(t.jobs)
    decreases |steps|
  {
    if steps == [] {
    } else {
      JobsKept(max, s, steps[0]);
      OneJobPerKey(max, Apply(max, s, steps[0]), steps[1..], t);
    }
  }

  // ---- The remaining delivery budget ----------------------------------------------------------

  function Left(max: nat, job: Job): nat {
    if Live(job) && job.attempts < max then max - job.attempts else 0
  }

  ghost function Budget(max: nat, jobs: map<JobId, Job>): nat {
    if jobs == map[] then 0
    else
      var j :| j in jobs;
      Left(max, jobs[j]) + Budget(max, jobs - {j})
  }

  lemma {:induction false} BudgetRemove(max: nat, jobs: map<JobId, Job>, j: JobId)
    requires j in jobs
    ensures Budget(max, jobs) == Left(max, jobs[j]) + Budget(max, jobs - {j})
    decreases |jobs|
  {
    var k :| k in jobs && Budget(max, jobs) == Left(max, jobs[k]) + Budget(max, jobs - {k});
    if k != j {
      BudgetRemove(max, jobs - {k}, j);
      BudgetRemove(max, jobs - {j}, k);
      assert jobs - {k} - {j} == jobs - {j} - {k};
    }
  }

  lemma BudgetUpdate(max: nat, jobs: map<JobId, Job>, j: JobId, job: Job)
    ensures Budget(max, jobs[j := job])
         == Budget(max, jobs) - (if j in jobs then Left(max, jobs[j]) else 0) + Left(max, job)
    ensures j in jobs ==> Left(max, jobs[j]) <= Budget(max, jobs)
  {
    BudgetRemove(max, jobs[j := job], j);
    assert jobs[j := job] - {j} == jobs - {j};
    if j in jobs {
      BudgetRemove(max, jobs, j);
    } else {
      assert jobs - {j} == jobs;
    }
  }

  /** What a fault-free worker step does to the budget: each delivery uses up one attempt. */
  lemma WorkerStepBudget(max: nat, s: State, step: Step)
    requires Inv(max, s) && Enabled(s, step) && step.Faultless()
    ensures Budget(max, Apply(max, s, step).jobs) + One(step.Begin?) <= Budget(max, s.jobs)
  {
    var w := s.workers[step.worker];
    HeldJob(max, s, step.worker);
    if step.Begin? {
      var j := w.batch[0].job;
      assert InvAt(max, s, j);
      BudgetUpdate(max, s.jobs, j, Apply(max, s, step).jobs[j]);
    } else if step.Succeed? || step.Fail? {
      var j := w.phase.entry.job;
      BudgetUpdate(max, s.jobs, j, Apply(max, s, step).jobs[j]);
    }
  }

  lemma ApiStepBudget(max: nat, s: State, step: Step)
    requires Enabled(s, step) && !step.ByWorker()
    ensures Budget(max, Apply(max, s, step).jobs) <= Budget(max, s.jobs) + (if step.Submit? then max else 0)
  {
    if step.Submit? {
      BudgetUpdate(max, s.jobs, step.job, Apply(max, s, step).jobs[step.job]);
    } else if step.EnqueueFails? {
      BudgetUpdate(max, s.jobs, step.job, Apply(max, s, step).jobs[step.job]);
    }
  }

  function Begins(steps: seq<Step>): nat {
    if steps == [] then 0 else One(steps[0].Begin?) + Begins(steps[1..])
  }

  function Submits(steps: seq<Step>): nat {
    if steps == [] then 0 else One(steps[0].Submit?) + Submits(steps[1..])
  }

  /** Submissions and worker steps, without crashes or failed calls of the worker or the API. */
  predicate Clean(steps: seq<Step>) {
    forall i :: 0 <= i < |steps| ==> CleanStep(steps[i])
  }

  predicate CleanStep(step: Step) {
    step.Faultless() || step.Submit? || step.Enqueue? || step.EnqueueFails?
  }

  lemma CleanStepBudget(max: nat, s: State, step: Step)
    requires Inv(max, s) && Enabled(s, step) && CleanStep(step)
    ensures Budget(max, Apply(max, s, step).jobs) + One(step.Begin?)
         <= Budget(max, s.jobs) + (if step.Submit? then max else 0)
  {
    if step.ByWorker() {
      WorkerStepBudget(max, s, step);
    } else {
      ApiStepBudget(max, s, step);
    }
  }

  /** Each delivery of a run is paid for by an attempt of some submitted job. */
  lemma {:induction false} CleanBudget(max: nat, s: State, steps: seq<Step>, t: State)
    requires 1 <= max && Inv(max, s) && Clean(steps) && IsRun(max, s, steps, t)
    ensures Begins(steps) + Budget(max, t.jobs) <= Budget(max, s.jobs) + max * Submits(steps)
    decreases |steps|
  {
    if steps == [] {
    } else {
      StepKeepsInv(max, s, steps[0]);
      CleanStepBudget(max, s, steps[0]);
      assert Clean(steps[1..]);
      CleanBudget(max, Apply(max, s, steps[0]), steps[1..], t);
      Distribute(max, One(steps[0].Submit?), Submits(steps[1..]));
    }
  }

  lemma {:induction false} RunCountsJobs(max: nat, s: State, steps: seq<Step>, t: State)
    requires IsRun(max, s, steps, t)
    ensures |t.jobs| == |s.jobs| + Submits(steps)
    decreases |steps|
  {
    if steps == [] {
    } else {
      CountJobs(max, s, steps[0]);
      RunCountsJobs(max, Apply(max, s, steps[0]), steps[1..], t);
    }
  }

  lemma Distribute(a: nat, b: nat, c: nat)
    ensures a * (b + c) == a * b + a * c
  {
  }

  lemma CountJobs(max: nat, s: State, step: Step)
    requires Enabled(s, step)
    ensures |Apply(max, s, step).jobs| == |s.jobs| + One(step.Submit?)
  {
  }

  // ---- Draining -------------------------------------------------------------------------------

  function Weight(w: Worker, unit: ()): nat {
    match w.phase
    case Idle => 0
    case Begun(_) => 4
    case Failed(_) => 3
    case Dead(_) => 2
    case _ => 1
  }

  /** Work left to do; it bounds how many worker steps can still follow. */
  ghost function Measure(max: nat, s: State): nat {
    8 * Budget(max, s.jobs) + |s.stream| + Total(s.workers, Weight, ())
  }

  lemma FaultlessProgress(max: nat, s: State, step: Step)
    requires Inv(max, s) && Enabled(s, step) && step.Faultless()
    ensures Measure(max, Apply(max, s, step)) < Measure(max, s)
  {
    WorkerStepBudget(max, s, step);
    PhaseProgress(max, s, step);
  }

  /** Apart from deliveries, which the budget pays for, every step lightens stream and workers. */
  lemma PhaseProgress(max: nat, s: State, step: Step)
    requires Enabled(s, step) && step.Faultless()
    ensures var t := Apply(max, s, step);
            |t.stream| + Total(t.workers, Weight, ()) < |s.stream| + Total(s.workers, Weight, ()) + 8 * One(step.Begin?)
  {
    var t := Apply(max, s, step);
    TotalUpdate(s.workers, Weight, step.worker, t.workers[step.worker], ());
    WeightDrops(max, s, step);
  }

  /** Only worker `i` changed, and it and the stream together weigh less than before plus `credit`. */
  ghost predicate Lightened(s: State, t: State, i: nat, credit: nat) {
    && i < |s.workers| == |t.workers| && t.workers == s.workers[i := t.workers[i]]
    && |t.stream| + Weight(t.workers[i], ()) < |s.stream| + Weight(s.workers[i], ()) + credit
  }

  lemma WeightDrops(max: nat, s: State, step: Step)
    requires Enabled(s, step) && step.Faultless()
    ensures Lightened(s, Apply(max, s, step), step.worker, 8 * One(step.Begin?))
  {
    match step {
      case Read(i) => ReadDrops(max, s, i);
      case Begin(i) => BeginDrops(max, s, i);
      case Fail(i) => FailDrops(max, s, i);
      case Requeue(i) => RequeueDrops(max, s, i);
      case _ => OthersDrop(max, s, step);
    }
  }

  lemma ReadDrops(max: nat, s: State, i: nat)
    requires Enabled(s, Read(i))
    ensures Lightened(s, Apply(max, s, Read(i)), i, 0)
  {
  }

  lemma BeginDrops(max: nat, s: State, i: nat)
    requires Enabled(s, Begin(i))
    ensures Lightened(s, Apply(max, s, Begin(i)), i, 8)
  {
  }

  lemma FailDrops(max: nat, s: State, i: nat)
    requires Enabled(s, Fail(i))
    ensures Lightened(s, Apply(max, s, Fail(i)), i, 0)
  {
  }

  lemma RequeueDrops(max: nat, s: State, i: nat)
    requires Enabled(s, Requeue(i))
    ensures Lightened(s, Apply(max, s, Requeue(i)), i, 0)
  {
  }

  lemma OthersDrop(max: nat, s: State, step: Step)
    requires Enabled(s, step)
    requires step.Succeed? || step.AckDone? || step.AckRequeued? || step.Bury? || step.AckBuried?
    ensures Lightened(s, Apply(max, s, step), step.worker, 0)
  {
  }

  /** Without faults the workers cannot go on for ever. */
  lemma {:induction false} DrainTerminates(max: nat, s: State, steps: seq<Step>, t: State)
    requires 1 <= max && Inv(max, s) && IsRun(max, s, steps, t)
    requires forall i :: 0 <= i < |steps| ==> steps[i].Faultless()
    ensures |steps| + Measure(max, t) <= Measure(max, s)
    decreases |steps|
  {
    if steps == [] {
    } else {
      StepKeepsInv(max, s, steps[0]);
      FaultlessProgress(max, s, steps[0]);
      DrainTerminates(max, Apply(max, s, steps[0]), steps[1..], t);
    }
  }

  ghost predicate Stuck(s: State) {
    forall step: Step :: step.Faultless() ==> !Enabled(s, step)
  }

  /** The workers stop only when nothing is undelivered and nobody holds a message. */
  lemma StuckIsEmpty(max: nat, s: State)
    requires Inv(max, s) && Stuck(s) && s.workers != []
    ensures s.stream == [] && forall i :: 0 <= i < |s.workers| ==> s.workers[i] == Worker([], Idle)
  {
    forall i | 0 <= i < |s.workers| ensures s.workers[i] == Worker([], Idle) {
      HeldJob(max, s, i);
      assert !Enabled(s, Begin(i)) && !Enabled(s, Succeed(i)) && !Enabled(s, AckDone(i));
      assert !Enabled(s, Requeue(i)) && !Enabled(s, AckRequeued(i));
      assert !Enabled(s, Bury(i)) && !Enabled(s, AckBuried(i));
    }
    assert !Enabled(s, Read(0));
  }

  function Holds(w: Worker, e: Entry): nat {
    multiset(w.batch)[e] + One(w.phase != Idle && w.phase.entry == e)
  }

  /** The pending list holds exactly the messages the workers hold; no crash has left others. */
  ghost predicate NoLeftovers(s: State) {
    && (forall e: Entry :: s.pending[e] == Total(s.workers, Holds, e))
    && s.lost == multiset{} && s.unburied == multiset{}
  }

  lemma CleanStepNoLeftovers(max: nat, s: State, step: Step)
    requires Enabled(s, step) && NoLeftovers(s)
    requires CleanStep(step)
    ensures NoLeftovers(Apply(max, s, step))
  {
    var t := Apply(max, s, step);
    if step.Faultless() {
      forall e: Entry ensures t.pending[e] == Total(t.workers, Holds, e) {
        WorkerStepPending(max, s, step, e);
      }
    }
  }

  lemma WorkerStepPending(max: nat, s: State, step: Step, e: Entry)
    requires Enabled(s, step) && step.Faultless()
    requires s.pending[e] == Total(s.workers, Holds, e)
    ensures Apply(max, s, step).pending[e] == Total(Apply(max, s, step).workers, Holds, e)
  {
    var t := Apply(max, s, step);
    TotalUpdate(s.workers, Holds, step.worker, s.workers[step.worker], e);
    HoldsChange(max, s, step, e);
    TotalUpdate(s.workers, Holds, step.worker, t.workers[step.worker], e);
  }

  /** The pending list and worker `i`'s hands gain and lose the same messages. */
  ghost predicate SameShift(s: State, t: State, i: nat, e: Entry)
    requires i < |s.workers|
  {
    && |t.workers| == |s.workers| && t.workers == s.workers[i := t.workers[i]]
    && t.pending[e] + Holds(s.workers[i], e) == s.pending[e] + Holds(t.workers[i], e)
  }

  lemma HoldsChange(max: nat, s: State, step: Step, e: Entry)
    requires Enabled(s, step) && step.Faultless()
    requires s.pending[e] >= Holds(s.workers[step.worker], e)
    ensures SameShift(s, Apply(max, s, step), step.worker, e)
  {
    match step {
      case Begin(i) => BeginHolds(max, s, i, e);
      case Read(i) => ReadHolds(max, s, i, e);
      case Fail(i) => HandleHolds(max, s, i, e);
      case Succeed(i) => SucceedHolds(max, s, i, e);
      case Requeue(i) => RequeueHolds(max, s, i, e);
      case Bury(i) => BuryHolds(max, s, i, e);
      case AckDone(i) => AckHolds(s, i, e);
      case AckRequeued(i) => AckHolds(s, i, e);
      case AckBuried(i) => AckHolds(s, i, e);
    }
  }

  lemma AckHolds(s: State, i: nat, e: Entry)
    requires i < |s.workers| && s.workers[i].phase != Idle
    requires s.pending[e] >= Holds(s.workers[i], e)
    ensures SameShift(s, Ack(s, i), i, e)
  {
  }

  lemma BeginHolds(max: nat, s: State, i: nat, e: Entry)
    requires Enabled(s, Begin(i))
    ensures SameShift(s, Apply(max, s, Begin(i)), i, e)
  {
    var w := s.workers[i];
    assert w.batch == [w.batch[0]] + w.batch[1..];
  }

  lemma ReadHolds(max: nat, s: State, i: nat, e: Entry)
    requires Enabled(s, Read(i))
    ensures SameShift(s, Apply(max, s, Read(i)), i, e)
  {
  }

  lemma HandleHolds(max: nat, s: State, i: nat, e: Entry)
    requires Enabled(s, Fail(i))
    ensures SameShift(s, Apply(max, s, Fail(i)), i, e)
  {
  }

  lemma SucceedHolds(max: nat, s: State, i: nat, e: Entry)
    requires Enabled(s, Succeed(i))
    ensures SameShift(s, Apply(max, s, Succeed(i)), i, e)
  {
  }

  lemma RequeueHolds(max: nat, s: State, i: nat, e: Entry)
    requires Enabled(s, Requeue(i))
    ensures SameShift(s, Apply(max, s, Requeue(i)), i, e)
  {
  }

  lemma BuryHolds(max: nat, s: State, i: nat, e: Entry)
    requires Enabled(s, Bury(i))
    ensures SameShift(s, Apply(max, s, Bury(i)), i, e)
  {
  }

  lemma {:induction false} CleanRunNoLeftovers(max: nat, s: State, steps: seq<Step>, t: State)
    requires NoLeftovers(s) && Clean(steps) && IsRun(max, s, steps, t)
    ensures NoLeftovers(t)
    decreases |steps|
  {
    if steps == [] {
    } else {
      CleanStepNoLeftovers(max, s, steps[0]);
      CleanRunNoLeftovers(max, Apply(max, s, steps[0]), steps[1..], t);
    }
  }

  lemma QuietJob(max: nat, t: State, j: JobId)
    requires InvAt(max, t, j) && t.submitting == multiset{} && t.stream == []
    requires t.lost == multiset{} && t.unburied == multiset{}
    requires forall i :: 0 <= i < |t.workers| ==> t.workers[i] == Worker([], Idle)
    ensures j in t.jobs ==> Terminal(t.jobs[j].status)
    ensures multiset(t.dlq)[j] == One(j in t.jobs && t.jobs[j].status == DeadLetter)
  {
    IdleTotals(t.workers, Waits, j);
    IdleTotals(t.workers, Runs, j);
    IdleTotals(t.workers, Buries, j);
  }

  lemma InitialNoLeftovers(s: State)
    requires Initial(s)
    ensures NoLeftovers(s)
  {
    forall e: Entry ensures s.pending[e] == Total(s.workers, Holds, e) {
      IdleTotals(s.workers, Holds, e);
    }
  }

  // ---- Messages lost to a crash -------------------------------------------------------------------

  /** The only message of a job is lost exactly by a crash of the process that holds it. */
  lemma LostIff(max: nat, s: State, step: Step, j: JobId)
    requires Enabled(s, step)
    ensures Apply(max, s, step).lost[j] >= s.lost[j]
    ensures Apply(max, s, step).lost[j] > s.lost[j]
       <==> || step == SubmitCrash(j)
            || (step.Crash? && Waits(s.workers[step.worker], j) + Runs(s.workers[step.worker], j) > 0)
  {
    match step {
      case Crash(i) => InEntriesCount(s.workers[i].batch, j);
      case Submit(_, _, _) =>
      case Enqueue(_) =>
      case EnqueueFails(_) =>
      case SubmitCrash(_) =>
      case _ => OthersLoseNothing(max, s, step);
    }
  }

  lemma OthersLoseNothing(max: nat, s: State, step: Step)
    requires Enabled(s, step) && step.ByWorker() && !step.Crash?
    ensures Apply(max, s, step).lost == s.lost && Apply(max, s, step).unburied == s.unburied
  {
  }

  lemma NobodyHolds(max: nat, s: State, i: nat, j: JobId)
    requires Inv(max, s) && i < |s.workers| && s.lost[j] > 0
    ensures var w := s.workers[i];
            && (w.batch != [] ==> w.batch[0].job != j) && (w.phase.Begun? ==> w.phase.entry.job != j)
  {
    assert InvAt(max, s, j);
    WorkerChange(s, s, i, j);
    if s.workers[i].batch != [] {
      InEntriesHead(s.workers[i].batch, j);
    }
  }

  /** No step writes the row of a job whose message is lost. */
  lemma LostStep(max: nat, s: State, step: Step, j: JobId)
    requires Inv(max, s) && Enabled(s, step) && s.lost[j] > 0
    ensures j in s.jobs && Live(s.jobs[j])
    ensures Apply(max, s, step).lost[j] > 0
    ensures j in Apply(max, s, step).jobs && Apply(max, s, step).jobs[j] == s.jobs[j]
  {
    assert InvAt(max, s, j);
    LostIff(max, s, step, j);
    OneRowWritten(max, s, step);
    assert step.EnqueueFails? ==> ViewOf(s, step.job).waiting > 0;
    if step.ByWorker() {
      HeldJob(max, s, step.worker);
      NobodyHolds(max, s, step.worker, j);
    }
  }

  /** A lost message is lost for ever: the job stays live, and as it is, in every continuation. */
  lemma {:induction false} LostForEver(max: nat, s: State, steps: seq<Step>, t: State, j: JobId)
    requires 1 <= max && Inv(max, s) && IsRun(max, s, steps, t) && s.lost[j] > 0
    ensures j in s.jobs && Live(s.jobs[j]) && t.lost[j] > 0 && j in t.jobs && t.jobs[j] == s.jobs[j]
    decreases |steps|
  {
    if steps == [] {
      assert InvAt(max, s, j);
    } else {
      LostStep(max, s, steps[0], j);
      StepKeepsInv(max, s, steps[0]);
      LostForEver(max, Apply(max, s, steps[0]), steps[1..], t, j);
    }
  }

  lemma {:induction false} CleanRunLosesNothing(max: nat, s: State, steps: seq<Step>, t: State)
    requires Clean(steps) && IsRun(max, s, steps, t)
    ensures t.lost == s.lost && t.unburied == s.unburied
    decreases |steps|
  {
    if steps == [] {
    } else {
      if steps[0].ByWorker() {
        OthersLoseNothing(max, s, steps[0]);
      }
      CleanRunLosesNothing(max, Apply(max, s, steps[0]), steps[1..], t);
    }
  }

  /**
   Whatever crashes and failures have led to a state: when the workers then drain the queue without
   faults, a job has ended exactly if its message had not been lost, and a dead-lettered one is on the
   dead-letter stream exactly if its record had not been lost.
   */
  lemma DrainedAfterFaultsIff(max: nat, s: State, steps: seq<Step>, t: State, j: JobId)
    requires 1 <= max && Inv(max, s) && Clean(steps) && IsRun(max, s, steps, t)
    requires t.submitting == multiset{} && Stuck(t) && t.workers != [] && j in t.jobs
    ensures t.stream == []
    ensures Terminal(t.jobs[j].status) <==> s.lost[j] == 0
    ensures t.jobs[j].status == DeadLetter ==> (j in t.dlq <==> s.unburied[j] == 0)
  {
    RunKeepsInv(max, s, steps, t);
    StuckIsEmpty(max, t);
    CleanRunLosesNothing(max, s, steps, t);
    assert InvAt(max, t, j);
    IdleTotals(t.workers, Waits, j);
    IdleTotals(t.workers, Runs, j);
    IdleTotals(t.workers, Buries, j);
    assert j in t.dlq <==> multiset(t.dlq)[j] > 0;
  }

  /**
   Attempts bound deliveries only while the PROCESSING commit succeeds. When it raises, the handler
   retries without counting an attempt, and the same four steps can follow for ever.
   */
  lemma FailedBeginCountsNothing(max: nat, s: State, i: nat) returns (t: State)
    requires Inv(max, s) && Enabled(s, Read(i)) && |s.stream| == 1 && s.stream[0].job in s.jobs
    ensures var j := s.stream[0].job;
            && IsRun(max, s, [Read(i), BeginFails(i), Requeue(i), AckRequeued(i)], t)
            && t.jobs == s.jobs[j := s.jobs[j].(status := Retrying)]
            && t.stream == [Entry(s.nextEntry, j)] && Enabled(t, Read(i))
  {
    var e := s.stream[0];
    AttemptsLeft(max, s);
    assert s.stream[..1] == [e] && s.stream[1..] == [];
    var a := Apply(max, s, Read(i));
    RunOfOne(Next(max), s, Read(i), a);
    t := SkippedMessage(max, a, i, e);
    RunOfAppend(Next(max), s, [Read(i)], a, [BeginFails(i), Requeue(i), AckRequeued(i)], t);
    assert [Read(i)] + [BeginFails(i), Requeue(i), AckRequeued(i)]
        == [Read(i), BeginFails(i), Requeue(i), AckRequeued(i)];
  }

  lemma AttemptsLeft(max: nat, s: State)
    requires Inv(max, s) && s.stream != [] && s.stream[0].job in s.jobs
    ensures s.jobs[s.stream[0].job].attempts < max
  {
    var j := s.stream[0].job;
    InEntriesHead(s.stream, j);
    assert InvAt(max, s, j);
  }

  /** The round trip of a message whose PROCESSING commit raises. */
  lemma SkippedMessage(max: nat, a: State, i: nat, e: Entry) returns (t: State)
    requires i < |a.workers| && a.workers[i] == Worker([e], Idle) && a.stream == []
    requires e.job in a.jobs && a.jobs[e.job].attempts < max
    ensures IsRun(max, a, [BeginFails(i), Requeue(i), AckRequeued(i)], t)
    ensures t.jobs == a.jobs[e.job := a.jobs[e.job].(status := Retrying)]
    ensures t.stream == [Entry(a.nextEntry, e.job)] && Enabled(t, Read(i))
  {
    var b := SkippedBegin(max, a, i, e);
    var c := Apply(max, b, Requeue(i));
    t := Apply(max, c, AckRequeued(i));
    ThreeSteps(max, a, BeginFails(i), b, Requeue(i), c, AckRequeued(i), t);
  }

  lemma SkippedBegin(max: nat, a: State, i: nat, e: Entry) returns (b: State)
    requires i < |a.workers| && a.workers[i] == Worker([e], Idle)
    requires e.job in a.jobs && a.jobs[e.job].attempts < max
    ensures Enabled(a, BeginFails(i)) && b == Apply(max, a, BeginFails(i))
    ensures b == a.(jobs := a.jobs[e.job := a.jobs[e.job].(status := Retrying)],
                    workers := a.workers[i := Worker([], Failed(e))])
  {
    assert [e][1..] == [];
    b := Apply(max, a, BeginFails(i));
  }

  lemma ThreeSteps(max: nat, a: State, q: Step, b: State, r: Step, c: State, u: Step, d: State)
    requires Enabled(a, q) && b == Apply(max, a, q)
    requires Enabled(b, r) && c == Apply(max, b, r)
    requires Enabled(c, u) && d == Apply(max, c, u)
    ensures IsRun(max, a, [q, r, u], d)
  {
    assert [q, r, u] == [q] + [r] + [u];
    RunOfOne(Next(max), a, q, b);
    RunOfOne(Next(max), b, r, c);
    RunOfOne(Next(max), c, u, d);
    RunOfAppend(Next(max), a, [q], b, [r], c);
    RunOfAppend(Next(max), a, [q] + [r], c, [u], d);
  }
}
