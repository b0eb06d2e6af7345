/**
 The ingestion queue as a step machine (backend/app/platform_api.py, lines 185-238, and
 backend/app/worker.py, lines 26-83). A step is one durable effect - a committed row, an XADD, an
 XREADGROUP or an XACK - so that a crash may fall between any two of them. Any number of workers
 consume the group.
 */
module Queue {
  import opened Base

  type JobId = nat

  datatype Status = Queued | Processing | Retrying | Completed | DeadLetter | QueueUnavailable

  datatype Job = Job(tenant: string, key: string, status: Status, attempts: nat)

  datatype Entry = Entry(id: nat, job: JobId)

  /** Where a worker stands with the message in its hands. */
  datatype Phase =
    | Idle
    | Begun(entry: Entry)     // PROCESSING committed
    | Done(entry: Entry)      // COMPLETED committed, not acknowledged
    | Failed(entry: Entry)    // RETRYING committed, not put back on the stream
    | Requeued(entry: Entry)  // put back on the stream, not acknowledged
    | Dead(entry: Entry)      // DEAD_LETTER committed, not on the dead-letter stream
    | Buried(entry: Entry)    // on the dead-letter stream, not acknowledged

  /** `batch` holds the messages read but not looked at yet. */
  datatype Worker = Worker(batch: seq<Entry>, phase: Phase)

  /**
   `submitting`: jobs committed by the API whose XADD has not happened yet. `stream`: undelivered
   messages. `pending`: delivered and unacknowledged ones. `lost` and `unburied` remember the jobs
   that a crash left without a message, or without their dead-letter message.
   */
  datatype State = State(
    jobs: map<JobId, Job>,
    submitting: multiset<JobId>,
    stream: seq<Entry>,
    pending: multiset<Entry>,
    dlq: seq<JobId>,
    workers: seq<Worker>,
    lost: multiset<JobId>,
    unburied: multiset<JobId>,
    nextEntry: nat)

  datatype Step =
    | Submit(job: JobId, tenant: string, key: string)
    | Enqueue(job: JobId)
    | EnqueueFails(job: JobId)
    | SubmitCrash(job: JobId)
    | Read(worker: nat)
    | Begin(worker: nat)
    | BeginFails(worker: nat)
    | Succeed(worker: nat)
    | Fail(worker: nat)
    | AckDone(worker: nat)
    | AckRaises(worker: nat, applied: bool)
    | Requeue(worker: nat)
    | AckRequeued(worker: nat)
    | Bury(worker: nat)
    | AckBuried(worker: nat)
    | Crash(worker: nat)
  {
    /** Steps of a worker that meets no crash, no database failure and no Redis failure. */
    predicate Faultless() {
      Read? || Begin? || Succeed? || Fail? || AckDone? || Requeue? || AckRequeued? || Bury? || AckBuried?
    }

    predicate ByWorker() {
      Faultless() || BeginFails? || AckRaises? || Crash?
    }
  }

  predicate Live(job: Job) {
    job.status in {Queued, Processing, Retrying}
  }

  function Jobs(entries: seq<Entry>): seq<JobId> {
    seq(|entries|, i requires 0 <= i < |entries| => entries[i].job)
  }

  /** No job of the tenant has the idempotency key. */
  predicate KeyFree(jobs: map<JobId, Job>, tenant: string, key: string) {
    forall j :: j in jobs ==> jobs[j].tenant != tenant || jobs[j].key != key
  }

  predicate Enabled(s: State, step: Step) {
    match step
    case Submit(job, tenant, key) => job !in s.jobs && KeyFree(s.jobs, tenant, key)
    case Enqueue(job) => job in s.submitting
    case EnqueueFails(job) => job in s.submitting && job in s.jobs
    case SubmitCrash(job) => job in s.submitting
    case _ => step.worker < |s.workers| && WorkerEnabled(s, s.workers[step.worker], step)
  }

  predicate WorkerEnabled(s: State, w: Worker, step: Step)
    requires step.ByWorker()
  {
    match step
    case Read(_) => w.phase == Idle && w.batch == [] && s.stream != []
    case Begin(_) => w.phase == Idle && w.batch != [] && w.batch[0].job in s.jobs
    case BeginFails(_) => w.phase == Idle && w.batch != [] && w.batch[0].job in s.jobs
    case Succeed(_) => w.phase.Begun? && w.phase.entry.job in s.jobs
    case Fail(_) => w.phase.Begun? && w.phase.entry.job in s.jobs
    case AckDone(_) => w.phase.Done?
    case AckRaises(_, _) => w.phase.Done? && w.phase.entry.job in s.jobs
    case Requeue(_) => w.phase.Failed?
    case AckRequeued(_) => w.phase.Requeued?
    case Bury(_) => w.phase.Dead?
    case AckBuried(_) => w.phase.Buried?
    case Crash(_) => true
  }

  /** The outcome the exception handler commits for a job with this many attempts. */
  function FailureStatus(max: nat, job: Job): Status {
    if job.attempts >= max then DeadLetter else Retrying
  }

  /** The worker after its exception handler has committed. */
  function FailurePhase(max: nat, job: Job, e: Entry): Phase {
    if job.attempts >= max then Dead(e) else Failed(e)
  }

  function Update(s: State, i: nat, w: Worker): State
    requires i < |s.workers|
  {
    s.(workers := s.workers[i := w])
  }

  function SetStatus(s: State, job: JobId, status: Status): State
    requires job in s.jobs
  {
    s.(jobs := s.jobs[job := s.jobs[job].(status := status)])
  }

  /** The exception handler: commit RETRYING or DEAD_LETTER for the message in hand. */
  function Handle(max: nat, s: State, i: nat, e: Entry, batch: seq<Entry>): State
    requires i < |s.workers| && e.job in s.jobs
  {
    Update(SetStatus(s, e.job, FailureStatus(max, s.jobs[e.job])), i,
           Worker(batch, FailurePhase(max, s.jobs[e.job], e)))
  }

  function Ack(s: State, i: nat): State
    requires i < |s.workers| && s.workers[i].phase != Idle
  {
    Update(s, i, s.workers[i].(phase := Idle)).(pending := s.pending - multiset{s.workers[i].phase.entry})
  }

  function InHand(has: bool, w: Worker): multiset<JobId>
    requires has ==> w.phase != Idle
  {
    if has then multiset{w.phase.entry.job} else multiset{}
  }

  function Apply(max: nat, s: State, step: Step): State
    requires Enabled(s, step)
  {
    match step
    case Submit(job, tenant, key) =>
      s.(jobs := s.jobs[job := Job(tenant, key, Queued, 0)], submitting := s.submitting + multiset{job})
    case Enqueue(job) =>
      s.(submitting := s.submitting - multiset{job},
         stream := s.stream + [Entry(s.nextEntry, job)], nextEntry := s.nextEntry + 1)
    case EnqueueFails(job) =>
      SetStatus(s, job, QueueUnavailable).(submitting := s.submitting - multiset{job})
    case SubmitCrash(job) =>
      s.(submitting := s.submitting - multiset{job}, lost := s.lost + multiset{job})
    case _ => ApplyWorker(max, s, step.worker, step)
  }

  function ApplyWorker(max: nat, s: State, i: nat, step: Step): State
    requires step.ByWorker() && i < |s.workers| && WorkerEnabled(s, s.workers[i], step)
  {
    var w := s.workers[i];
    match step
    case Read(_) =>
      var n := Min(10, |s.stream|);
      Update(s, i, Worker(s.stream[..n], Idle))
        .(stream := s.stream[n..], pending := s.pending + multiset(s.stream[..n]))
    case Begin(_) =>
      var e := w.batch[0];
      var job := s.jobs[e.job];
      Update(s, i, Worker(w.batch[1..], Begun(e)))
        .(jobs := s.jobs[e.job := job.(status := Processing, attempts := job.attempts + 1)])
    case BeginFails(_) => Handle(max, s, i, w.batch[0], w.batch[1..])
    case Succeed(_) =>
      Update(SetStatus(s, w.phase.entry.job, Completed), i, w.(phase := Done(w.phase.entry)))
    case Fail(_) => Handle(max, s, i, w.phase.entry, w.batch)
    case AckDone(_) => Ack(s, i)
    case AckRaises(_, applied) =>
      var after := Handle(max, s, i, w.phase.entry, w.batch);
      if applied then after.(pending := s.pending - multiset{w.phase.entry}) else after
    case Requeue(_) =>
      Update(s, i, w.(phase := Requeued(w.phase.entry)))
        .(stream := s.stream + [Entry(s.nextEntry, w.phase.entry.job)], nextEntry := s.nextEntry + 1)
    case AckRequeued(_) => Ack(s, i)
    case Bury(_) =>
      Update(s, i, w.(phase := Buried(w.phase.entry))).(dlq := s.dlq + [w.phase.entry.job])
    case AckBuried(_) => Ack(s, i)
    case Crash(_) =>
      Update(s, i, Worker([], Idle))
        .(lost := s.lost + multiset(Jobs(w.batch)) + InHand(w.phase.Begun? || w.phase.Failed?, w),
          unburied := s.unburied + InHand(w.phase.Dead?, w))
  }

  // ---- Runs -----------------------------------------------------------------------------------

  function Next(max: nat): (State, Step) -> Option<State> {
    (s: State, step: Step) => if Enabled(s, step) then Some(Apply(max, s, step)) else None
  }

  predicate IsRun(max: nat, s: State, steps: seq<Step>, t: State) {
    RunOf(Next(max), s, steps, t)
  }

  /** Nothing submitted, every worker idle. */
  ghost predicate Initial(s: State) {
    && s.jobs == map[] && s.submitting == multiset{} && s.stream == [] && s.pending == multiset{}
    && s.dlq == [] && s.lost == multiset{} && s.unburied == multiset{}
    && forall i :: 0 <= i < |s.workers| ==> s.workers[i] == Worker([], Idle)
  }

  // ---- Counting messages ----------------------------------------------------------------------

  function One(b: bool): nat {
    if b then 1 else 0
  }

  function InEntries(entries: seq<Entry>, j: JobId): nat {
    if entries == [] then 0 else One(entries[0].job == j) + InEntries(entries[1..], j)
  }

  /** The job's live messages that the worker has not begun, or has yet to put back. */
  function Waits(w: Worker, j: JobId): nat {
    InEntries(w.batch, j) + One(w.phase.Failed? && w.phase.entry.job == j)
  }

  /** Whether the worker is processing the job's live message. */
  function Runs(w: Worker, j: JobId): nat {
    One(w.phase.Begun? && w.phase.entry.job == j)
  }

  /** Whether the worker still has to write the job's dead-letter message. */
  function Buries(w: Worker, j: JobId): nat {
    One(w.phase.Dead? && w.phase.entry.job == j)
  }

  /** Whether the worker still has to acknowledge the job's completion. */
  function Finishes(w: Worker, j: JobId): nat {
    One(w.phase.Done? && w.phase.entry.job == j)
  }

  /** A count summed over all workers. */
  function Total<K>(workers: seq<Worker>, part: (Worker, K) -> nat, k: K): nat {
    if workers == [] then 0 else part(workers[0], k) + Total(workers[1..], part, k)
  }

  /** For one job: how many live messages wait, run or are lost, and how many records it has. */
  datatype View = View(waiting: nat, running: nat, lost: nat, graves: nat, finishing: nat)

  function ViewOf(s: State, j: JobId): View {
    View(s.submitting[j] + InEntries(s.stream, j) + Total(s.workers, Waits, j),
         Total(s.workers, Runs, j),
         s.lost[j],
         multiset(s.dlq)[j] + Total(s.workers, Buries, j) + s.unburied[j],
         Total(s.workers, Finishes, j))
  }

  /**
   Conservation. A live job has exactly one live message - waiting, running or lost - and any other
   job has none; a dead-lettered job has exactly one dead-letter record and any other job has none;
   only a completed job has a completion left to acknowledge, and at most one.
   */
  predicate Conserved(jobs: map<JobId, Job>, v: View, j: JobId) {
    && v.waiting + v.running + v.lost == One(j in jobs && Live(jobs[j]))
    && v.graves == One(j in jobs && jobs[j].status == DeadLetter)
    && v.finishing <= One(j in jobs && jobs[j].status == Completed)
  }

  /** A waiting job has attempts left, a running one is PROCESSING, and none exceeds the maximum. */
  predicate Bounded(max: nat, jobs: map<JobId, Job>, v: View, j: JobId) {
    && (v.waiting > 0 ==> j in jobs && jobs[j].status in {Queued, Retrying})
    && (v.running > 0 ==> j in jobs && jobs[j].status == Processing)
    && (j in jobs ==> jobs[j].attempts <= max)
    && (j in jobs && jobs[j].status in {Queued, Retrying} ==> jobs[j].attempts < max)
  }

  ghost predicate InvAt(max: nat, s: State, j: JobId) {
    Conserved(s.jobs, ViewOf(s, j), j) && Bounded(max, s.jobs, ViewOf(s, j), j)
  }

  ghost predicate Inv(max: nat, s: State) {
    forall j :: InvAt(max, s, j)
  }

  lemma {:induction false} InEntriesAppend(a: seq<Entry>, b: seq<Entry>, j: JobId)
    ensures InEntries(a + b, j) == InEntries(a, j) + InEntries(b, j)
  {
    if a == [] {
      assert a + b == b;
    } else {
      assert (a + b)[1..] == a[1..] + b;
      InEntriesAppend(a[1..], b, j);
    }
  }

  lemma {:induction false} InEntriesCount(entries: seq<Entry>, j: JobId)
    ensures multiset(Jobs(entries))[j] == InEntries(entries, j)
  {
    if entries != [] {
      InEntriesCount(entries[1..], j);
      assert Jobs(entries) == [entries[0].job] + Jobs(entries[1..]);
    } else {
      assert Jobs(entries) == [];
    }
  }

  lemma {:induction false} TotalUpdate<K>(workers: seq<Worker>, part: (Worker, K) -> nat, i: nat, w: Worker, k: K)
    requires i < |workers|
    ensures Total(workers[i := w], part, k) == Total(workers, part, k) - part(workers[i], k) + part(w, k)
    ensures part(workers[i], k) <= Total(workers, part, k)
  {
    if i > 0 {
      TotalUpdate(workers[1..], part, i - 1, w, k);
      assert workers[i := w][1..] == workers[1..][i - 1 := w];
      assert workers[i := w][0] == workers[0];
    } else {
      assert workers[i := w][1..] == workers[1..];
    }
  }

  // ---- What each step moves -------------------------------------------------------------------

  /** The view after worker `i` changed, by what it held before and holds now. */
  lemma WorkerChange(s: State, t: State, i: nat, j: JobId)
    requires i < |s.workers| == |t.workers| && t.workers == s.workers[i := t.workers[i]]
    requires t.submitting == s.submitting
    ensures var v, u, a, b := ViewOf(s, j), ViewOf(t, j), s.workers[i], t.workers[i];
            && u.waiting == v.waiting - InEntries(s.stream, j) + InEntries(t.stream, j) - Waits(a, j) + Waits(b, j)
            && u.running == v.running - Runs(a, j) + Runs(b, j)
            && u.lost == v.lost - s.lost[j] + t.lost[j]
            && u.graves == v.graves - multiset(s.dlq)[j] + multiset(t.dlq)[j] - Buries(a, j) + Buries(b, j)
                           - s.unburied[j] + t.unburied[j]
            && u.finishing == v.finishing - Finishes(a, j) + Finishes(b, j)
            && v.waiting >= Waits(a, j) && v.running >= Runs(a, j) && v.finishing >= Finishes(a, j)
  {
    TotalUpdate(s.workers, Waits, i, t.workers[i], j);
    TotalUpdate(s.workers, Runs, i, t.workers[i], j);
    TotalUpdate(s.workers, Buries, i, t.workers[i], j);
    TotalUpdate(s.workers, Finishes, i, t.workers[i], j);
  }

  lemma InEntriesHead(entries: seq<Entry>, j: JobId)
    requires entries != []
    ensures InEntries(entries, j) == One(entries[0].job == j) + InEntries(entries[1..], j)
  {
  }

  lemma InEntriesSnoc(entries: seq<Entry>, e: Entry, j: JobId)
    ensures InEntries(entries + [e], j) == InEntries(entries, j) + One(e.job == j)
  {
    InEntriesAppend(entries, [e], j);
    assert InEntries([e], j) == One(e.job == j) + InEntries([], j);
  }

  lemma EnqueueView(max: nat, s: State, job: JobId, j: JobId)
    requires Enabled(s, Enqueue(job))
    ensures ViewOf(Apply(max, s, Enqueue(job)), j) == ViewOf(s, j)
  {
    InEntriesSnoc(s.stream, Entry(s.nextEntry, job), j);
  }

  lemma ReadView(max: nat, s: State, i: nat, j: JobId)
    requires Enabled(s, Read(i))
    ensures ViewOf(Apply(max, s, Read(i)), j) == ViewOf(s, j)
  {
    var n := Min(10, |s.stream|);
    assert s.stream == s.stream[..n] + s.stream[n..];
    InEntriesAppend(s.stream[..n], s.stream[n..], j);
    WorkerChange(s, Apply(max, s, Read(i)), i, j);
  }

  lemma RequeueView(max: nat, s: State, i: nat, j: JobId)
    requires Enabled(s, Requeue(i))
    ensures ViewOf(Apply(max, s, Requeue(i)), j) == ViewOf(s, j)
  {
    InEntriesSnoc(s.stream, Entry(s.nextEntry, s.workers[i].phase.entry.job), j);
    WorkerChange(s, Apply(max, s, Requeue(i)), i, j);
  }

  lemma BuryView(max: nat, s: State, i: nat, j: JobId)
    requires Enabled(s, Bury(i))
    ensures ViewOf(Apply(max, s, Bury(i)), j) == ViewOf(s, j)
  {
    WorkerChange(s, Apply(max, s, Bury(i)), i, j);
  }

  /** Acknowledging takes nothing from the view but a completion. */
  lemma AckView(s: State, i: nat, j: JobId)
    requires i < |s.workers|
    requires s.workers[i].phase.Done? || s.workers[i].phase.Requeued? || s.workers[i].phase.Buried?
    ensures var v, k := ViewOf(s, j), Finishes(s.workers[i], j);
            v.finishing >= k && ViewOf(Ack(s, i), j) == v.(finishing := v.finishing - k)
  {
    WorkerChange(s, Ack(s, i), i, j);
  }

  lemma BeginView(max: nat, s: State, i: nat, j: JobId)
    requires Enabled(s, Begin(i))
    ensures var v, k := ViewOf(s, j), One(s.workers[i].batch[0].job == j);
            v.waiting >= k
            && ViewOf(Apply(max, s, Begin(i)), j) == v.(waiting := v.waiting - k, running := v.running + k)
  {
    InEntriesHead(s.workers[i].batch, j);
    WorkerChange(s, Apply(max, s, Begin(i)), i, j);
  }

  lemma SucceedView(max: nat, s: State, i: nat, j: JobId)
    requires Enabled(s, Succeed(i))
    ensures var v, k := ViewOf(s, j), Runs(s.workers[i], j);
            v.running >= k
            && ViewOf(Apply(max, s, Succeed(i)), j) == v.(running := v.running - k, finishing := v.finishing + k)
  {
    WorkerChange(s, Apply(max, s, Succeed(i)), i, j);
  }

  /** The exception handler turns whatever the worker held of the message into a retry or a grave. */
  lemma HandleView(max: nat, s: State, i: nat, e: Entry, batch: seq<Entry>, j: JobId)
    requires i < |s.workers| && e.job in s.jobs
    requires s.workers[i].phase != Idle ==> s.workers[i].phase.Begun? || s.workers[i].phase.Done?
    ensures var v, t, w, k := ViewOf(s, j), ViewOf(Handle(max, s, i, e, batch), j), s.workers[i], One(e.job == j);
            var dead := s.jobs[e.job].attempts >= max;
            && v.waiting >= Waits(w, j) && v.running >= Runs(w, j) && v.finishing >= Finishes(w, j)
            && t.waiting == v.waiting - Waits(w, j) + InEntries(batch, j) + (if dead then 0 else k)
            && t.running == v.running - Runs(w, j) && t.lost == v.lost
            && t.graves == v.graves + (if dead then k else 0)
            && t.finishing == v.finishing - Finishes(w, j)
  {
    WorkerChange(s, Handle(max, s, i, e, batch), i, j);
  }

  lemma CrashView(max: nat, s: State, i: nat, j: JobId)
    requires Enabled(s, Crash(i))
    ensures var v, t, w := ViewOf(s, j), ViewOf(Apply(max, s, Crash(i)), j), s.workers[i];
            && v.waiting >= Waits(w, j) && v.running >= Runs(w, j) && v.finishing >= Finishes(w, j)
            && t == v.(waiting := v.waiting - Waits(w, j), running := v.running - Runs(w, j),
                       lost := v.lost + Waits(w, j) + Runs(w, j), finishing := v.finishing - Finishes(w, j))
  {
    InEntriesCount(s.workers[i].batch, j);
    WorkerChange(s, Apply(max, s, Crash(i)), i, j);
  }

  // ---- Every step keeps the invariant -----------------------------------------------------------

  /** The job of the message a worker has begun or still waits with is as the worker expects it. */
  lemma HeldJob(max: nat, s: State, i: nat)
    requires Inv(max, s) && i < |s.workers|
    ensures var w := s.workers[i];
            && (w.batch != [] ==> w.batch[0].job in s.jobs && s.jobs[w.batch[0].job].status in {Queued, Retrying})
            && (w.phase.Begun? ==> w.phase.entry.job in s.jobs && s.jobs[w.phase.entry.job].status == Processing)
            && (w.phase.Done? ==> w.phase.entry.job in s.jobs && s.jobs[w.phase.entry.job].status == Completed)
  {
    var w := s.workers[i];
    if w.batch != [] {
      var j := w.batch[0].job;
      InEntriesHead(w.batch, j);
      WorkerChange(s, s, i, j);
      assert InvAt(max, s, j);
    }
    if w.phase.Begun? || w.phase.Done? {
      var j := w.phase.entry.job;
      WorkerChange(s, s, i, j);
      assert InvAt(max, s, j);
    }
  }

  lemma ApiStepKeepsInv(max: nat, s: State, step: Step)
    requires 1 <= max && Inv(max, s) && Enabled(s, step) && !step.ByWorker()
    ensures Inv(max, Apply(max, s, step))
  {
    var t := Apply(max, s, step);
    forall j ensures InvAt(max, t, j) {
      assert InvAt(max, s, j);
      if step.Enqueue? {
        EnqueueView(max, s, step.job, j);
      }
    }
  }

  lemma ReadKeepsInv(max: nat, s: State, i: nat)
    requires Inv(max, s) && Enabled(s, Read(i))
    ensures Inv(max, Apply(max, s, Read(i)))
  {
    forall j ensures InvAt(max, Apply(max, s, Read(i)), j) {
      assert InvAt(max, s, j);
      ReadView(max, s, i, j);
    }
  }

  lemma RequeueKeepsInv(max: nat, s: State, i: nat)
    requires Inv(max, s) && Enabled(s, Requeue(i))
    ensures Inv(max, Apply(max, s, Requeue(i)))
  {
    forall j ensures InvAt(max, Apply(max, s, Requeue(i)), j) {
      assert InvAt(max, s, j);
      RequeueView(max, s, i, j);
    }
  }

  lemma BuryKeepsInv(max: nat, s: State, i: nat)
    requires Inv(max, s) && Enabled(s, Bury(i))
    ensures Inv(max, Apply(max, s, Bury(i)))
  {
    forall j ensures InvAt(max, Apply(max, s, Bury(i)), j) {
      assert InvAt(max, s, j);
      BuryView(max, s, i, j);
    }
  }

  lemma AckKeepsInv(max: nat, s: State, i: nat)
    requires Inv(max, s) && i < |s.workers|
    requires s.workers[i].phase.Done? || s.workers[i].phase.Requeued? || s.workers[i].phase.Buried?
    ensures Inv(max, Ack(s, i))
  {
    forall j ensures InvAt(max, Ack(s, i), j) {
      assert InvAt(max, s, j);
      AckView(s, i, j);
    }
  }

  lemma BeginKeepsInv(max: nat, s: State, i: nat)
    requires Inv(max, s) && Enabled(s, Begin(i))
    ensures Inv(max, Apply(max, s, Begin(i)))
  {
    HeldJob(max, s, i);
    forall j ensures InvAt(max, Apply(max, s, Begin(i)), j) {
      assert InvAt(max, s, j);
      BeginView(max, s, i, j);
    }
  }

  lemma SucceedKeepsInv(max: nat, s: State, i: nat)
    requires Inv(max, s) && Enabled(s, Succeed(i))
    ensures Inv(max, Apply(max, s, Succeed(i)))
  {
    HeldJob(max, s, i);
    forall j ensures InvAt(max, Apply(max, s, Succeed(i)), j) {
      assert InvAt(max, s, j);
      SucceedView(max, s, i, j);
    }
  }

  /** The exception handler, whichever call raised. */
  lemma HandleKeepsInv(max: nat, s: State, i: nat, e: Entry, batch: seq<Entry>)
    requires Inv(max, s) && i < |s.workers| && e.job in s.jobs
    requires var w := s.workers[i];
             || (w.phase == Idle && w.batch != [] && e == w.batch[0] && batch == w.batch[1..])
             || ((w.phase.Begun? || w.phase.Done?) && e == w.phase.entry && batch == w.batch)
    ensures Inv(max, Handle(max, s, i, e, batch))
  {
    var w := s.workers[i];
    HeldJob(max, s, i);
    forall j ensures InvAt(max, Handle(max, s, i, e, batch), j) {
      assert InvAt(max, s, j);
      HandleView(max, s, i, e, batch, j);
      if w.phase == Idle {
        InEntriesHead(w.batch, j);
      }
    }
  }

  lemma CrashKeepsInv(max: nat, s: State, i: nat)
    requires Inv(max, s) && Enabled(s, Crash(i))
    ensures Inv(max, Apply(max, s, Crash(i)))
  {
    forall j ensures InvAt(max, Apply(max, s, Crash(i)), j) {
      assert InvAt(max, s, j);
      CrashView(max, s, i, j);
    }
  }

  /** Conservation and the attempt bound survive every step, faulty ones included. */
  lemma StepKeepsInv(max: nat, s: State, step: Step)
    requires 1 <= max && Inv(max, s) && Enabled(s, step)
    ensures Inv(max, Apply(max, s, step))
  {
    match step {
      case Submit(_, _, _) => ApiStepKeepsInv(max, s, step);
      case Enqueue(_) => ApiStepKeepsInv(max, s, step);
      case EnqueueFails(_) => ApiStepKeepsInv(max, s, step);
      case SubmitCrash(_) => ApiStepKeepsInv(max, s, step);
      case Read(i) => ReadKeepsInv(max, s, i);
      case Requeue(i) => RequeueKeepsInv(max, s, i);
      case Bury(i) => BuryKeepsInv(max, s, i);
      case Begin(i) => BeginKeepsInv(max, s, i);
      case Succeed(i) => SucceedKeepsInv(max, s, i);
      case BeginFails(i) => HandleKeepsInv(max, s, i, s.workers[i].batch[0], s.workers[i].batch[1..]);
      case Fail(i) => HandleKeepsInv(max, s, i, s.workers[i].phase.entry, s.workers[i].batch);
      case AckRaises(i, applied) => AckRaisesKeepsInv(max, s, i, applied);
      case AckDone(i) => AckKeepsInv(max, s, i);
      case AckRequeued(i) => AckKeepsInv(max, s, i);
      case AckBuried(i) => AckKeepsInv(max, s, i);
      case Crash(i) => CrashKeepsInv(max, s, i);
    }
  }

  lemma AckRaisesKeepsInv(max: nat, s: State, i: nat, applied: bool)
    requires Inv(max, s) && Enabled(s, AckRaises(i, applied))
    ensures Inv(max, Apply(max, s, AckRaises(i, applied)))
  {
    var e, batch := s.workers[i].phase.entry, s.workers[i].batch;
    HandleKeepsInv(max, s, i, e, batch);
    var h, t := Handle(max, s, i, e, batch), Apply(max, s, AckRaises(i, applied));
    forall j ensures InvAt(max, t, j) {
      assert InvAt(max, h, j);
      assert ViewOf(t, j) == ViewOf(h, j);
    }
  }

  lemma {:induction false} IdleTotals<K>(workers: seq<Worker>, part: (Worker, K) -> nat, k: K)
    requires part(Worker([], Idle), k) == 0
    requires forall i :: 0 <= i < |workers| ==> workers[i] == Worker([], Idle)
    ensures Total(workers, part, k) == 0
  {
    if workers == [] {
    } else {
      IdleTotals(workers[1..], part, k);
    }
  }

  lemma InitialInv(max: nat, s: State)
    requires Initial(s)
    ensures Inv(max, s)
  {
    forall j ensures InvAt(max, s, j) {
      IdleTotals(s.workers, Waits, j);
      IdleTotals(s.workers, Runs, j);
      IdleTotals(s.workers, Buries, j);
      IdleTotals(s.workers, Finishes, j);
    }
  }

  lemma {:induction false} RunKeepsInv(max: nat, s: State, steps: seq<Step>, t: State)
    requires 1 <= max && Inv(max, s) && IsRun(max, s, steps, t)
    ensures Inv(max, t)
    decreases |steps|
  {
    if steps == [] {
    } else {
      StepKeepsInv(max, s, steps[0]);
      RunKeepsInv(max, Apply(max, s, steps[0]), steps[1..], t);
    }
  }
}
