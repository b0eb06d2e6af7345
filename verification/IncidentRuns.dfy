/** How one incident moves through any run: evidence, risk, classification, actions and status. */
module IncidentRuns {
  import opened Base
  import opened Config
  import opened Correlation
  import opened Playbook
  import opened Risk
  import opened Incidents
  import opened IncidentLaws
  import opened Absorption
  import opened Sessions
  import opened Transactions
  import opened Response
  import opened Workflow
  import opened WorkflowLaws

  /** Executed actions stay as they are, action by action. */
  ghost predicate KeepsExecuted(a: seq<Recommendation>, b: seq<Recommendation>) {
    && |a| == |b|
    && forall n :: 0 <= n < |a| ==> b[n].action == a[n].action && (a[n].status == Executed ==> b[n] == a[n])
  }

  /**
   Evidence and risk grow, the type only becomes more specific, the status does not return to NEW,
   the time of triage is set once, and executed actions are lost at most when the type changes.
   */
  ghost predicate Advances(i: Incident, j: Incident) {
    && j.id == i.id && j.tenant == i.tenant
    && Elements(i.eventIds) <= Elements(j.eventIds) && i.risk <= j.risk && Rank(i.kind) <= Rank(j.kind)
    && (j.status == New ==> i.status == New)
    && (i.triagedAt.Some? ==> j.triagedAt == i.triagedAt)
    && (j.kind == i.kind ==> KeepsExecuted(i.actions, j.actions))
  }

  lemma AdvancesTransitive(i: Incident, j: Incident, k: Incident)
    requires Advances(i, j) && Advances(j, k)
    ensures Advances(i, k)
  {
  }

  ghost predicate StepOf(cfg: Settings, h: Hashes, d: Desk, step: Step, k: nat) {
    0 < cfg.maxIncidentSpanMinutes && DeskInv(cfg, h, d) && Enabled(d, step) && k < |d.cases.incidents|
  }

  /** What one step does to incident `k`, by the kind of step. */
  ghost predicate Effect(d: Desk, step: Step, i: Incident, j: Incident) {
    match step
    case Batch(_, _, _, _) => Touched(i, j)
    case Respond(req, now) =>
      || j == i
      || exists n: nat :: n < |i.actions| && i.actions[n].status == Pending && Named(req.action)(i.actions[n])
                          && j == Responded(d.cases, i, n, req.analyst, now + req.delay)
    case Move(_, _, target, now) =>
      j == i || (target != Contained && (target == i.status || Allowed(i.status, target)) && j == Moved(i, target, now))
    case _ => j == i
  }

  lemma BatchStepEffect(cfg: Settings, h: Hashes, d: Desk, step: Step, k: nat)
    requires StepOf(cfg, h, d, step, k) && step.Batch?
    ensures var e := Apply(cfg, h, d, step);
            k < |e.cases.incidents| && Effect(d, step, d.cases.incidents[k], e.cases.incidents[k])
  {
    var c := Ingested(d.cases, step.rows, step.records);
    IngestKeepsCases(h, d.cases, step.rows, step.records);
    if CorrelateBatch(cfg, h, c, step.groups, step.newIds).Some? {
      BatchEffect(cfg, h, c, step.groups, step.newIds);
    }
  }

  /** The witness of a response is the incident in question, or another one. */
  lemma OneResponseEffect(d: Desk, e: Cases, step: Step, k: nat)
    requires step.Respond? && OneResponse(d.cases, e, step.req, step.now) && k < |d.cases.incidents|
    ensures k < |e.incidents| && Effect(d, step, d.cases.incidents[k], e.incidents[k])
  {
  }

  lemma RespondEffect(cfg: Settings, h: Hashes, d: Desk, step: Step, k: nat)
    requires StepOf(cfg, h, d, step, k) && step.Respond?
    ensures var e := Apply(cfg, h, d, step);
            k < |e.cases.incidents| && Effect(d, step, d.cases.incidents[k], e.cases.incidents[k])
  {
    var e := Apply(cfg, h, d, step).cases;
    ExecuteChangesOneIncident(cfg, d.(clock := step.now), step.req, step.now);
    OneResponseEffect(d, e, step, k);
  }

  lemma MoveEffect(cfg: Settings, h: Hashes, d: Desk, step: Step, k: nat)
    requires StepOf(cfg, h, d, step, k) && step.Move?
    ensures var e := Apply(cfg, h, d, step);
            k < |e.cases.incidents| && Effect(d, step, d.cases.incidents[k], e.cases.incidents[k])
  {
  }

  lemma ApprovalEffect(cfg: Settings, h: Hashes, d: Desk, step: Step, k: nat)
    requires StepOf(cfg, h, d, step, k) && (step.Ask? || step.Decide?)
    ensures Apply(cfg, h, d, step).cases == d.cases
  {
  }

  lemma StepEffect(cfg: Settings, h: Hashes, d: Desk, step: Step, k: nat)
    requires StepOf(cfg, h, d, step, k)
    ensures var e := Apply(cfg, h, d, step);
            k < |e.cases.incidents| && Effect(d, step, d.cases.incidents[k], e.cases.incidents[k])
  {
    match step {
      case Batch(_, _, _, _) => BatchStepEffect(cfg, h, d, step, k);
      case Respond(_, _) => RespondEffect(cfg, h, d, step, k);
      case Move(_, _, _, _) => MoveEffect(cfg, h, d, step, k);
      case Ask(_, _) => ApprovalEffect(cfg, h, d, step, k);
      case Decide(_, _, _, _) => ApprovalEffect(cfg, h, d, step, k);
    }
  }

  lemma EffectAdvances(d: Desk, step: Step, i: Incident, j: Incident)
    requires Effect(d, step, i, j)
    ensures Advances(i, j)
  {
  }

  /** The risk score changes only when correlation enriches the open incident, and then it rises. */
  lemma RiskChangesOnlyByEnrichment(cfg: Settings, h: Hashes, d: Desk, step: Step, k: nat)
    requires StepOf(cfg, h, d, step, k)
    ensures var e := Apply(cfg, h, d, step);
            && k < |e.cases.incidents|
            && (e.cases.incidents[k].risk != d.cases.incidents[k].risk ==>
                  && step.Batch? && Open(d.cases.incidents[k])
                  && e.cases.incidents[k].risk > d.cases.incidents[k].risk)
  {
    StepEffect(cfg, h, d, step, k);
    EffectOnRisk(d, step, d.cases.incidents[k], Apply(cfg, h, d, step).cases.incidents[k]);
  }

  lemma EffectOnRisk(d: Desk, step: Step, i: Incident, j: Incident)
    requires Effect(d, step, i, j)
    ensures j.risk != i.risk ==> step.Batch? && Open(i) && j.risk > i.risk
  {
  }

  // ---- Status --------------------------------------------------------------------------------------------

  /**
   CONTAINED is entered only by an execution after which every objective required by the playbook of
   the current flags is covered by executed actions.
   */
  lemma ContainedOnlyByResponse(cfg: Settings, h: Hashes, d: Desk, step: Step, k: nat)
    requires StepOf(cfg, h, d, step, k)
    requires k < |Apply(cfg, h, d, step).cases.incidents|
    requires d.cases.incidents[k].status != Contained
    requires Apply(cfg, h, d, step).cases.incidents[k].status == Contained
    ensures var playbook := SelectPlaybook(CurrentFlags(d.cases, d.cases.incidents[k]));
            && step.Respond? && playbook.Some?
            && playbook.value.required <= Covered(Apply(cfg, h, d, step).cases.incidents[k].actions)
  {
    var i, j := d.cases.incidents[k], Apply(cfg, h, d, step).cases.incidents[k];
    StepEffect(cfg, h, d, step, k);
    if step.Respond? {
      ContainedIff(CurrentFlags(d.cases, i), j.actions);
    }
  }

  /** An incident that is no longer open keeps its evidence, risk, type and fingerprint for ever. */
  predicate Settled(i: Incident, j: Incident) {
    SameEvidence(i, j) && !Open(j)
  }

  /** Of a closed incident a step changes at most the status: to RESOLVED by hand, to CONTAINED by a response. */
  ghost predicate ClosedChange(step: Step, i: Incident, j: Incident) {
    && Settled(i, j)
    && (j.status != i.status ==> (step.Move? && j.status == Resolved) || (step.Respond? && j.status == Contained))
  }

  lemma EffectOnClosed(d: Desk, step: Step, i: Incident, j: Incident)
    requires Effect(d, step, i, j) && !Open(i)
    ensures ClosedChange(step, i, j)
  {
  }

  lemma ClosedStepSettled(cfg: Settings, h: Hashes, d: Desk, step: Step, k: nat)
    requires StepOf(cfg, h, d, step, k) && !Open(d.cases.incidents[k])
    ensures var e := Apply(cfg, h, d, step);
            k < |e.cases.incidents| && ClosedChange(step, d.cases.incidents[k], e.cases.incidents[k])
  {
    StepEffect(cfg, h, d, step, k);
    EffectOnClosed(d, step, d.cases.incidents[k], Apply(cfg, h, d, step).cases.incidents[k]);
  }

  /** Closing is final: no later step reopens the incident or lets correlation touch it again. */
  lemma {:induction false} ClosedForEver(cfg: Settings, h: Hashes, d: Desk, steps: seq<Step>, e: Desk, k: nat)
    requires 0 < cfg.maxIncidentSpanMinutes && DeskInv(cfg, h, d) && IsRun(cfg, h, d, steps, e)
    requires k < |d.cases.incidents| && !Open(d.cases.incidents[k])
    ensures k < |e.cases.incidents| && Settled(d.cases.incidents[k], e.cases.incidents[k])
    decreases |steps|
  {
    if steps == [] {
    } else {
      ClosedStepSettled(cfg, h, d, steps[0], k);
      StepKeepsInv(cfg, h, d, steps[0]);
      ClosedForEver(cfg, h, Apply(cfg, h, d, steps[0]), steps[1..], e, k);
    }
  }

  /** Fingerprints held by closed incidents stay held by closed incidents. */
  lemma HeldForEver(cfg: Settings, h: Hashes, d: Desk, steps: seq<Step>, e: Desk, tenant: string, fp: string)
    requires 0 < cfg.maxIncidentSpanMinutes && DeskInv(cfg, h, d) && IsRun(cfg, h, d, steps, e)
    requires HeldByClosed(d.cases.incidents, tenant, fp)
    ensures HeldByClosed(e.cases.incidents, tenant, fp)
  {
    var k :| 0 <= k < |d.cases.incidents| && d.cases.incidents[k].tenant == tenant
             && d.cases.incidents[k].fingerprint == fp && !Open(d.cases.incidents[k]);
    ClosedForEver(cfg, h, d, steps, e, k);
  }

  /** The batch starts with this group; it wants `wanted`, and no open incident matches it. */
  ghost predicate StartsUnmatched(cfg: Settings, h: Hashes, d: Desk, step: Step, group: seq<Event>, wanted: string) {
    && 0 < cfg.maxIncidentSpanMinutes && step.Batch? && Enabled(d, step) && step.groups != [] && step.groups[0] == group
    && var c := Ingested(d.cases, step.rows, step.records);
       && Qualifies(c, group) && Wanted(cfg, h, c, group) == wanted
       && Unmatched(c.incidents, group[0].tenant, wanted, Elements(EventIds(group)))
  }

  /**
   The abort repeats: once closed incidents hold both fingerprints of a group, every later batch that
   starts with it aborts, as long as it asks for that fingerprint and no open incident matches it.
   */
  lemma AbortRepeats(cfg: Settings, h: Hashes, d: Desk, steps: seq<Step>, e: Desk, step: Step, group: seq<Event>,
                     wanted: string)
    requires 0 < cfg.maxIncidentSpanMinutes && DeskInv(cfg, h, d) && IsRun(cfg, h, d, steps, e) && group != []
    requires HeldByClosed(d.cases.incidents, group[0].tenant, wanted)
    requires HeldByClosed(d.cases.incidents, group[0].tenant, h.rehash(group[0].tenant, wanted, EventIds(group)))
    requires StartsUnmatched(cfg, h, e, step, group, wanted)
    ensures Apply(cfg, h, e, step) == e
  {
    HeldForEver(cfg, h, d, steps, e, group[0].tenant, wanted);
    HeldForEver(cfg, h, d, steps, e, group[0].tenant, h.rehash(group[0].tenant, wanted, EventIds(group)));
    BothHeldAborts(cfg, h, Ingested(e.cases, step.rows, step.records), step.groups, step.newIds);
  }

  // ---- Runs ----------------------------------------------------------------------------------------------

  lemma StepAdvances(cfg: Settings, h: Hashes, d: Desk, step: Step, k: nat)
    requires StepOf(cfg, h, d, step, k)
    ensures var e := Apply(cfg, h, d, step);
            && DeskInv(cfg, h, e)
            && k < |e.cases.incidents| && Advances(d.cases.incidents[k], e.cases.incidents[k])
  {
    StepEffect(cfg, h, d, step, k);
    EffectAdvances(d, step, d.cases.incidents[k], Apply(cfg, h, d, step).cases.incidents[k]);
    StepKeepsInv(cfg, h, d, step);
  }

  /** Over any run an incident only advances. */
  lemma {:induction false} RunAdvances(cfg: Settings, h: Hashes, d: Desk, steps: seq<Step>, e: Desk, k: nat)
    requires 0 < cfg.maxIncidentSpanMinutes && DeskInv(cfg, h, d) && IsRun(cfg, h, d, steps, e)
    requires k < |d.cases.incidents|
    ensures k < |e.cases.incidents| && Advances(d.cases.incidents[k], e.cases.incidents[k])
    decreases |steps|
  {
    if steps == [] {
    } else {
      var u := Apply(cfg, h, d, steps[0]);
      StepAdvances(cfg, h, d, steps[0], k);
      RunAdvances(cfg, h, u, steps[1..], e, k);
      AdvancesTransitive(d.cases.incidents[k], u.cases.incidents[k], e.cases.incidents[k]);
    }
  }

  /** At how many groups of a batch incident `k` changes its type. */
  function KindChanges(cfg: Settings, h: Hashes, s: Session, groups: seq<seq<Event>>, newIds: nat -> string,
                       k: nat): nat
    requires 0 < cfg.maxIncidentSpanMinutes && s.Aligned()
    requires forall n :: 0 <= n < |groups| ==> groups[n] != []
  {
    if groups == [] then 0
    else
      var n := |groups| - 1;
      KindChanges(cfg, h, s, groups[..n], newIds, k)
      + match AbsorbAll(cfg, h, s, groups[..n], newIds)
        case None => 0
        case Some(t) => Turned(t.cases, AfterGroup(t, Absorb(cfg, h, t, groups[n], newIds(n))), k)
  }

  function Turned(c: Cases, after: Option<Session>, k: nat): nat {
    match after
    case None => 0
    case Some(t) =>
      if k < |c.incidents| && k < |t.cases.incidents| && c.incidents[k].kind != t.cases.incidents[k].kind then 1 else 0
  }

  /** How often a step changes the type of incident `k`; an aborted batch changes nothing. */
  ghost function ChangesIn(cfg: Settings, h: Hashes, d: Desk, step: Step, k: nat): nat
    requires StepOf(cfg, h, d, step, k)
  {
    match step
    case Batch(rows, records, groups, newIds) =>
      var c := Ingested(d.cases, rows, records);
      if CorrelateBatch(cfg, h, c, groups, newIds) == None then 0 else KindChanges(cfg, h, Begin(c), groups, newIds, k)
    case _ =>
      var e := Apply(cfg, h, d, step);
      if k < |e.cases.incidents| && e.cases.incidents[k].kind != d.cases.incidents[k].kind then 1 else 0
  }

  ghost function Reclassifications(cfg: Settings, h: Hashes, d: Desk, steps: seq<Step>, k: nat): nat
    decreases |steps|
  {
    if steps == [] || !StepOf(cfg, h, d, steps[0], k) then 0
    else ChangesIn(cfg, h, d, steps[0], k) + Reclassifications(cfg, h, Apply(cfg, h, d, steps[0]), steps[1..], k)
  }

  lemma RankTouched(c: Cases, d: Cases, k: nat)
    requires k < |c.incidents| && k < |d.incidents| && Touched(c.incidents[k], d.incidents[k])
    ensures (if c.incidents[k].kind != d.incidents[k].kind then 1 else 0)
            <= Rank(d.incidents[k].kind) - Rank(c.incidents[k].kind)
  {
  }

  lemma {:induction false} GroupsRank(cfg: Settings, h: Hashes, s: Session, groups: seq<seq<Event>>,
                                      newIds: nat -> string, k: nat)
    requires 0 < cfg.maxIncidentSpanMinutes && SessionInv(h, s) && Ready(s.cases, groups, newIds)
    requires k < |s.cases.incidents| && AbsorbAll(cfg, h, s, groups, newIds).Some?
    ensures var u := AbsorbAll(cfg, h, s, groups, newIds).value;
            k < |u.cases.incidents|
            && KindChanges(cfg, h, s, groups, newIds, k)
               <= Rank(u.cases.incidents[k].kind) - Rank(s.cases.incidents[k].kind)
    decreases |groups|
  {
    if groups == [] {
    } else {
      var n := |groups| - 1;
      var t := LastGroupReady(cfg, h, s, groups, newIds);
      GroupsRank(cfg, h, s, groups[..n], newIds, k);
      AbsorbKeepsSession(cfg, h, t, groups[n], newIds(n));
      RankTouched(t.cases, AbsorbAll(cfg, h, s, groups, newIds).value.cases, k);
    }
  }

  lemma RankAdvances(i: Incident, j: Incident)
    requires Advances(i, j)
    ensures (if i.kind != j.kind then 1 else 0) <= Rank(j.kind) - Rank(i.kind)
  {
  }

  /** Between two states the type of incident `k` becomes more specific by at least as many ranks as counted. */
  ghost predicate Within(d: Desk, e: Desk, k: nat, changes: nat) {
    && k < |d.cases.incidents| && k < |e.cases.incidents|
    && changes <= Rank(e.cases.incidents[k].kind) - Rank(d.cases.incidents[k].kind) <= 3
  }

  lemma StepRank(cfg: Settings, h: Hashes, d: Desk, step: Step, k: nat)
    requires StepOf(cfg, h, d, step, k)
    ensures var e := Apply(cfg, h, d, step);
            DeskInv(cfg, h, e) && Within(d, e, k, ChangesIn(cfg, h, d, step, k))
  {
    StepAdvances(cfg, h, d, step, k);
    RankAdvances(d.cases.incidents[k], Apply(cfg, h, d, step).cases.incidents[k]);
    if step.Batch? {
      BatchRank(cfg, h, d, step, k);
    }
  }

  lemma BatchRank(cfg: Settings, h: Hashes, d: Desk, step: Step, k: nat)
    requires StepOf(cfg, h, d, step, k) && step.Batch?
    ensures var e := Apply(cfg, h, d, step);
            && k < |e.cases.incidents|
            && ChangesIn(cfg, h, d, step, k) <= Rank(e.cases.incidents[k].kind) - Rank(d.cases.incidents[k].kind)
  {
    var c := Ingested(d.cases, step.rows, step.records);
    if CorrelateBatch(cfg, h, c, step.groups, step.newIds).Some? {
      IngestKeepsCases(h, d.cases, step.rows, step.records);
      BeginInv(h, c);
      GroupsRank(cfg, h, Begin(c), step.groups, step.newIds, k);
    }
  }

  lemma FirstStep(cfg: Settings, h: Hashes, d: Desk, steps: seq<Step>, e: Desk, k: nat)
    requires 0 < cfg.maxIncidentSpanMinutes && DeskInv(cfg, h, d) && IsRun(cfg, h, d, steps, e) && steps != []
    requires k < |d.cases.incidents|
    ensures StepOf(cfg, h, d, steps[0], k) && IsRun(cfg, h, Apply(cfg, h, d, steps[0]), steps[1..], e)
    ensures Reclassifications(cfg, h, d, steps, k)
            == ChangesIn(cfg, h, d, steps[0], k) + Reclassifications(cfg, h, Apply(cfg, h, d, steps[0]), steps[1..], k)
  {
  }

  lemma WithinAdds(d: Desk, u: Desk, e: Desk, k: nat, m: nat, n: nat)
    requires Within(d, u, k, m) && Within(u, e, k, n)
    ensures Within(d, e, k, m + n)
  {
  }

  /**
   An incident is reclassified at most three times, and each time to a more specific type, even if
   several groups of one batch reclassify it.
   */
  lemma {:induction false} AtMostThreeReclassifications(cfg: Settings, h: Hashes, d: Desk, steps: seq<Step>, e: Desk,
                                                        k: nat)
    requires 0 < cfg.maxIncidentSpanMinutes && DeskInv(cfg, h, d) && IsRun(cfg, h, d, steps, e)
    requires k < |d.cases.incidents|
    ensures Within(d, e, k, Reclassifications(cfg, h, d, steps, k))
    decreases |steps|
  {
    if steps == [] {
      assert Reclassifications(cfg, h, d, steps, k) == 0;
    } else {
      var u := Apply(cfg, h, d, steps[0]);
      FirstStep(cfg, h, d, steps, e, k);
      StepRank(cfg, h, d, steps[0], k);
      AtMostThreeReclassifications(cfg, h, u, steps[1..], e, k);
      WithinAdds(d, u, e, k, ChangesIn(cfg, h, d, steps[0], k), Reclassifications(cfg, h, u, steps[1..], k));
    }
  }

  /** The derived columns of every incident in every reachable state. */
  lemma ReachableIncident(cfg: Settings, h: Hashes, steps: seq<Step>, d: Desk, k: nat)
    requires 0 < cfg.maxIncidentSpanMinutes && Reachable(cfg, h, steps, d) && k < |d.cases.incidents|
    ensures var i := d.cases.incidents[k]; Derived(i) && Recommended(i) && Known(d.cases.rows, i) && Lagging(d.cases, i)
  {
    ReachableInv(cfg, h, steps, d);
    assert IncidentInv(d.cases, d.cases.incidents[k]);
  }
}
