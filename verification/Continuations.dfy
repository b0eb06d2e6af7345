/**
 What can still happen: exactly which pending actions of high impact some continuation of the run
 executes, and a run that takes an incident from RESOLVED to CONTAINED.
 */
module Continuations {
  import opened Base
  import opened Config
  import opened Correlation
  import opened Detection
  import opened Playbook
  import opened Risk
  import opened Incidents
  import opened IncidentLaws
  import opened Absorption
  import opened Sessions
  import opened Transactions
  import opened Response
  import opened Workflow
  import opened WorkflowLaws

  // ---- Finding the action --------------------------------------------------------------------------

  lemma LowerDiffers(a: string, b: string)
    requires |a| != |b| || (a != "" && LowerChar(a[0]) != LowerChar(b[0]))
    ensures Lower(a) != Lower(b)
  {
    if |a| == |b| {
      assert Lower(a)[0] != Lower(b)[0];
    }
  }

  ghost predicate DistinctNames(actions: seq<Recommendation>) {
    forall i, j :: 0 <= i < j < |actions| ==> Lower(actions[i].action) != Lower(actions[j].action)
  }

  /** The actions of a playbook differ even in lower case. */
  lemma TemplateNames(kind: Kind)
    ensures DistinctNames(Template(kind))
  {
    var t := Template(kind);
    forall i, j | 0 <= i < j < |t| ensures Lower(t[i].action) != Lower(t[j].action) {
      LowerDiffers(t[i].action, t[j].action);
    }
  }

  lemma FirstIs<T>(s: seq<T>, k: nat, p: T -> bool)
    requires k < |s| && p(s[k]) && forall j :: 0 <= j < k ==> !p(s[j])
    ensures First(s, p) == Some(k)
  {
  }

  lemma FindsIncident(h: Hashes, c: Cases, k: nat)
    requires CasesInv(h, c) && k < |c.incidents|
    ensures First(c.incidents, WithId(c.incidents[k].tenant, c.incidents[k].id)) == Some(k)
  {
    FirstIs(c.incidents, k, WithId(c.incidents[k].tenant, c.incidents[k].id));
  }

  lemma FindsAction(h: Hashes, c: Cases, k: nat, n: nat)
    requires CasesInv(h, c) && k < |c.incidents| && n < |c.incidents[k].actions|
    ensures First(c.incidents[k].actions, Named(c.incidents[k].actions[n].action)) == Some(n)
  {
    var i := c.incidents[k];
    assert IncidentInv(c, i);
    TemplateNames(i.kind);
    FirstIs(i.actions, n, Named(i.actions[n].action));
  }

  function RequestFor(d: Desk, k: nat, n: nat, analyst: string): Request
    requires k < |d.cases.incidents| && n < |d.cases.incidents[k].actions|
  {
    var slot := SlotOf(d, k, n);
    Request(slot.tenant, slot.incident, slot.action, analyst, true, 0)
  }

  lemma RequestIsAuthorise(cfg: Settings, h: Hashes, d: Desk, k: nat, n: nat, analyst: string)
    requires CasesInv(h, d.cases) && k < |d.cases.incidents| && n < |d.cases.incidents[k].actions|
    requires d.cases.incidents[k].actions[n].status == Pending
    ensures var req := RequestFor(d, k, n, analyst);
            Execute(cfg, d, req, d.clock) == Authorise(cfg, d, k, n, req, d.clock)
  {
    FindsIncident(h, d.cases, k);
    FindsAction(h, d.cases, k, n);
  }

  // ---- Runs of one and more steps -----------------------------------------------------------------------

  lemma RunOfStep(cfg: Settings, h: Hashes, d: Desk, step: Step)
    requires 0 < cfg.maxIncidentSpanMinutes && Enabled(d, step)
    ensures IsRun(cfg, h, d, [step], Apply(cfg, h, d, step))
  {
  }

  lemma RunThen(cfg: Settings, h: Hashes, d: Desk, a: seq<Step>, u: Desk, b: seq<Step>, e: Desk)
    requires 0 < cfg.maxIncidentSpanMinutes && IsRun(cfg, h, d, a, u) && IsRun(cfg, h, u, b, e)
    ensures IsRun(cfg, h, d, a + b, e)
  {
    RunOfAppend(Next(cfg, h), d, a, u, b, e);
  }

  // ---- Executing with an approval ---------------------------------------------------------------------

  /** Action `n` of incident `k` is pending, of high impact, and still recommended. */
  ghost predicate Waiting(cfg: Settings, h: Hashes, d: Desk, k: nat, n: nat) {
    && 0 < cfg.maxIncidentSpanMinutes && 0 <= cfg.approvalTtlMinutes && cfg.authRequired && DeskInv(cfg, h, d)
    && k < |d.cases.incidents| && n < |d.cases.incidents[k].actions|
    && d.cases.incidents[k].actions[n].status == Pending && d.cases.incidents[k].actions[n].points >= HIGH_IMPACT
  }

  /** An approval of the slot is decided and not stale. */
  ghost predicate Granted(cfg: Settings, d: Desk, slot: Slot, m: nat) {
    && m < |d.approvals| && d.approvals[m].slot == slot && d.approvals[m].standing == Approved
    && !Stale(cfg, d.approvals[m], d.clock)
  }

  /** The run from `d` to `e` executes the slot. */
  ghost predicate Executes(cfg: Settings, h: Hashes, d: Desk, steps: seq<Step>, e: Desk, slot: Slot)
    requires 0 < cfg.maxIncidentSpanMinutes
  {
    IsRun(cfg, h, d, steps, e) && Executions(e.audit, slot) > Executions(d.audit, slot)
  }

  lemma GrantedExecutes(cfg: Settings, h: Hashes, d: Desk, k: nat, n: nat, m: nat) returns (steps: seq<Step>, e: Desk)
    requires Waiting(cfg, h, d, k, n) && Granted(cfg, d, SlotOf(d, k, n), m)
    requires !Held(d.approvals, SlotOf(d, k, n), Consumed)
    ensures Executes(cfg, h, d, steps, e, SlotOf(d, k, n))
  {
    var slot, req := SlotOf(d, k, n), RequestFor(d, k, n, "");
    RequestIsAuthorise(cfg, h, d, k, n, "");
    OnlyApproved(d.approvals, m);
    ActionsAreClean(h, d.cases, k, n);
    RecordedIff(d.executions, slot);
    ExecutionsSnoc(d.audit, AuditRow(slot, d.clock, d.clock, Some(m)), slot);
    var step := Respond(req, d.clock);
    RunOfStep(cfg, h, d, step);
    steps, e := [step], Apply(cfg, h, d, step);
    assert d.(clock := d.clock) == d;
    assert e == Perform(d, k, n, Some(m), req, d.clock).0;
  }

  /** A step that prepares the execution: tables of incidents and executions are as before. */
  ghost predicate Prepares(cfg: Settings, h: Hashes, d: Desk, step: Step, e: Desk, k: nat, n: nat) {
    && Waiting(cfg, h, d, k, n) && Waiting(cfg, h, e, k, n) && Enabled(d, step) && e == Apply(cfg, h, d, step)
    && e.cases == d.cases && e.audit == d.audit
    && !Held(e.approvals, SlotOf(d, k, n), Consumed)
  }

  lemma PreparedExecutes(cfg: Settings, h: Hashes, d: Desk, step: Step, u: Desk, k: nat, n: nat, steps: seq<Step>,
                         e: Desk)
    requires Prepares(cfg, h, d, step, u, k, n) && Executes(cfg, h, u, steps, e, SlotOf(u, k, n))
    ensures Executes(cfg, h, d, [step] + steps, e, SlotOf(d, k, n))
  {
    RunOfStep(cfg, h, d, step);
    RunThen(cfg, h, d, [step], u, steps, e);
  }

  lemma NotHeldAfter(approvals: seq<Approval>, m: nat, a: Approval, slot: Slot, standing: Standing)
    requires m < |approvals| && a.slot == approvals[m].slot && a.standing != standing
    requires !Held(approvals, slot, standing)
           || (OnePerStanding(approvals) && approvals[m].slot == slot && approvals[m].standing == standing)
    ensures !Held(approvals[m := a], slot, standing)
  {
  }

  lemma DecideApplies(cfg: Settings, h: Hashes, d: Desk, m: nat, user: string)
    requires 0 < cfg.maxIncidentSpanMinutes && m < |d.approvals| && d.approvals[m].standing == Requested
    requires user != d.approvals[m].requestedBy && !Held(d.approvals, d.approvals[m].slot, Approved)
    ensures var a := d.approvals[m].(standing := Approved, approvedBy := Some(user), decidedAt := Some(d.clock));
            Apply(cfg, h, d, Decide(m, d.approvals[m].slot.tenant, user, d.clock))
            == d.(approvals := d.approvals[m := a])
  {
  }

  /** Changing an approval of the slot, if it does not become used, prepares the execution. */
  lemma RestandPrepares(cfg: Settings, h: Hashes, d: Desk, step: Step, k: nat, n: nat, m: nat, a: Approval)
    requires Waiting(cfg, h, d, k, n) && Enabled(d, step) && m < |d.approvals|
    requires Apply(cfg, h, d, step) == d.(approvals := d.approvals[m := a])
    requires a.slot == d.approvals[m].slot && a.standing != Consumed
    requires !Held(d.approvals, SlotOf(d, k, n), Consumed)
    ensures Prepares(cfg, h, d, step, d.(approvals := d.approvals[m := a]), k, n)
  {
    NotHeldAfter(d.approvals, m, a, SlotOf(d, k, n), Consumed);
    StepKeepsInv(cfg, h, d, step);
  }

  lemma JustGranted(cfg: Settings, d: Desk, m: nat, user: string)
    requires m < |d.approvals| && 0 <= cfg.approvalTtlMinutes
    ensures var a := d.approvals[m].(standing := Approved, approvedBy := Some(user), decidedAt := Some(d.clock));
            Granted(cfg, d.(approvals := d.approvals[m := a]), a.slot, m)
  {
  }

  /** A pending request is granted by a second person. */
  lemma RequestedExecutes(cfg: Settings, h: Hashes, d: Desk, k: nat, n: nat, m: nat) returns (steps: seq<Step>, e: Desk)
    requires Waiting(cfg, h, d, k, n)
    requires m < |d.approvals| && d.approvals[m].slot == SlotOf(d, k, n) && d.approvals[m].standing == Requested
    requires !Held(d.approvals, SlotOf(d, k, n), Approved) && !Held(d.approvals, SlotOf(d, k, n), Consumed)
    ensures Executes(cfg, h, d, steps, e, SlotOf(d, k, n))
  {
    var user := d.approvals[m].requestedBy + "+";
    assert |user| == |d.approvals[m].requestedBy| + 1;
    var a := d.approvals[m].(standing := Approved, approvedBy := Some(user), decidedAt := Some(d.clock));
    var step, u := Decide(m, SlotOf(d, k, n).tenant, user, d.clock), d.(approvals := d.approvals[m := a]);
    DecideApplies(cfg, h, d, m, user);
    RestandPrepares(cfg, h, d, step, k, n, m, a);
    JustGranted(cfg, d, m, user);
    steps, e := GrantedExecutes(cfg, h, u, k, n, m);
    PreparedExecutes(cfg, h, d, step, u, k, n, steps, e);
    steps := [step] + steps;
  }

  /** Without an approval standing, one is asked for, unless a request is pending, and granted. */
  lemma UnapprovedExecutes(cfg: Settings, h: Hashes, d: Desk, k: nat, n: nat) returns (steps: seq<Step>, e: Desk)
    requires Waiting(cfg, h, d, k, n)
    requires !Held(d.approvals, SlotOf(d, k, n), Approved) && !Held(d.approvals, SlotOf(d, k, n), Consumed)
    ensures Executes(cfg, h, d, steps, e, SlotOf(d, k, n))
  {
    var slot := SlotOf(d, k, n);
    HeldIff(d.approvals, slot, Requested);
    if Held(d.approvals, slot, Requested) {
      var m: nat :| m < |d.approvals| && d.approvals[m].slot == slot && d.approvals[m].standing == Requested;
      steps, e := RequestedExecutes(cfg, h, d, k, n, m);
    } else {
      var step := Ask(slot, "");
      var u := Apply(cfg, h, d, step);
      FindsIncident(h, d.cases, k);
      assert u == d.(approvals := d.approvals + [Approval(slot, "", None, Requested, None)]);
      AskHolds(d.approvals, Approval(slot, "", None, Requested, None), slot);
      StepKeepsInv(cfg, h, d, step);
      steps, e := RequestedExecutes(cfg, h, u, k, n, |d.approvals|);
      PreparedExecutes(cfg, h, d, step, u, k, n, steps, e);
      steps := [step] + steps;
    }
  }

  lemma AskHolds(approvals: seq<Approval>, a: Approval, slot: Slot)
    requires a.standing == Requested
    ensures Held(approvals + [a], slot, Approved) == Held(approvals, slot, Approved)
    ensures Held(approvals + [a], slot, Consumed) == Held(approvals, slot, Consumed)
  {
  }

  /** A stale approval is first marked expired by a refused attempt. */
  lemma StaleExecutes(cfg: Settings, h: Hashes, d: Desk, k: nat, n: nat, m: nat) returns (steps: seq<Step>, e: Desk)
    requires Waiting(cfg, h, d, k, n)
    requires m < |d.approvals| && d.approvals[m].slot == SlotOf(d, k, n) && d.approvals[m].standing == Approved
    requires Stale(cfg, d.approvals[m], d.clock)
    requires !Held(d.approvals, SlotOf(d, k, n), Expired) && !Held(d.approvals, SlotOf(d, k, n), Consumed)
    ensures Executes(cfg, h, d, steps, e, SlotOf(d, k, n))
  {
    var slot := SlotOf(d, k, n);
    var step := Respond(RequestFor(d, k, n, ""), d.clock);
    var u, a := Apply(cfg, h, d, step), d.approvals[m].(standing := Expired);
    RequestIsAuthorise(cfg, h, d, k, n, "");
    OnlyApproved(d.approvals, m);
    assert d.(clock := d.clock) == d;
    assert u == d.(approvals := d.approvals[m := a]);
    NotHeldAfter(d.approvals, m, a, slot, Approved);
    RestandPrepares(cfg, h, d, step, k, n, m, a);
    steps, e := UnapprovedExecutes(cfg, h, u, k, n);
    PreparedExecutes(cfg, h, d, step, u, k, n, steps, e);
    steps := [step] + steps;
  }

  // ---- Which slots are lost ------------------------------------------------------------------------------

  /** The slot has a used approval already, or one that can be neither used nor marked expired. */
  ghost predicate Blocked(cfg: Settings, d: Desk, slot: Slot) {
    Held(d.approvals, slot, Consumed) || exists m :: Stuck(cfg, d, slot, m)
  }

  lemma UnblockedExecutes(cfg: Settings, h: Hashes, d: Desk, k: nat, n: nat) returns (steps: seq<Step>, e: Desk)
    requires Waiting(cfg, h, d, k, n) && !Blocked(cfg, d, SlotOf(d, k, n))
    ensures Executes(cfg, h, d, steps, e, SlotOf(d, k, n))
  {
    var slot := SlotOf(d, k, n);
    HeldIff(d.approvals, slot, Approved);
    if Held(d.approvals, slot, Approved) {
      var m: nat :| m < |d.approvals| && d.approvals[m].slot == slot && d.approvals[m].standing == Approved;
      assert !Stuck(cfg, d, slot, m);
      if Stale(cfg, d.approvals[m], d.clock) {
        steps, e := StaleExecutes(cfg, h, d, k, n, m);
      } else {
        steps, e := GrantedExecutes(cfg, h, d, k, n, m);
      }
    } else {
      steps, e := UnapprovedExecutes(cfg, h, d, k, n);
    }
  }

  lemma BlockedNeverExecutes(cfg: Settings, h: Hashes, d: Desk, steps: seq<Step>, e: Desk, slot: Slot)
    requires 0 < cfg.maxIncidentSpanMinutes && DeskInv(cfg, h, d) && HighImpact(cfg, slot.action)
    requires Blocked(cfg, d, slot)
    ensures !Executes(cfg, h, d, steps, e, slot)
  {
    if IsRun(cfg, h, d, steps, e) {
      if Held(d.approvals, slot, Consumed) {
        UsedBlocksForever(cfg, h, d, steps, e, slot);
      } else {
        var m :| Stuck(cfg, d, slot, m);
        SecondExpiryBlocksForever(cfg, h, d, steps, e, slot, m);
      }
    }
  }

  /**
   A recommended high-impact action that is pending can still be executed, by whatever requests,
   decisions and attempts, exactly when its slot is not blocked.
   */
  lemma ExecutableIff(cfg: Settings, h: Hashes, d: Desk, k: nat, n: nat)
    requires Waiting(cfg, h, d, k, n)
    ensures (exists steps, e :: Executes(cfg, h, d, steps, e, SlotOf(d, k, n))) <==> !Blocked(cfg, d, SlotOf(d, k, n))
  {
    ActionsAreClean(h, d.cases, k, n);
    if Blocked(cfg, d, SlotOf(d, k, n)) {
      forall steps, e ensures !Executes(cfg, h, d, steps, e, SlotOf(d, k, n)) {
        BlockedNeverExecutes(cfg, h, d, steps, e, SlotOf(d, k, n));
      }
    } else {
      var steps, e := UnblockedExecutes(cfg, h, d, k, n);
    }
  }

  // ---- From RESOLVED to CONTAINED ---------------------------------------------------------------------------

  /** The request names action `n` of incident `k`, and is accepted. */
  ghost predicate AcceptedFor(cfg: Settings, d: Desk, req: Request, now: int, k: nat, n: nat) {
    && k < |d.cases.incidents| && First(d.cases.incidents, WithId(req.tenant, req.incident)) == Some(k)
    && n < |d.cases.incidents[k].actions| && First(d.cases.incidents[k].actions, Named(req.action)) == Some(n)
    && Execute(cfg, d, req, now).1 == Accepted
  }

  lemma PerformedCommits(d: Desk, k: nat, n: nat, approval: Option<nat>, req: Request, now: int)
    requires k < |d.cases.incidents| && n < |d.cases.incidents[k].actions|
    requires approval.Some? ==> approval.value < |d.approvals|
    requires Perform(d, k, n, approval, req, now).1 == Accepted
    ensures Perform(d, k, n, approval, req, now).0.cases == RespondedCases(d.cases, k, n, req, now)
    ensures RespondedCases(d.cases, k, n, req, now).incidents[k]
            == Responded(d.cases, d.cases.incidents[k], n, req.analyst, now + req.delay)
  {
  }

  /** An accepted execution had a pending action, and writes the response. */
  lemma AcceptedCommits(cfg: Settings, d: Desk, req: Request, now: int, k: nat, n: nat)
    requires AcceptedFor(cfg, d, req, now, k, n)
    ensures d.cases.incidents[k].actions[n].status == Pending
    ensures var e := Execute(cfg, d, req, now).0;
            && k < |e.cases.incidents|
            && e.cases.incidents[k] == Responded(d.cases, d.cases.incidents[k], n, req.analyst, now + req.delay)
  {
    if !ApprovalNeeded(cfg, d.cases.incidents[k].actions[n]) {
      PerformedCommits(d, k, n, None, req, now);
    } else {
      PerformedCommits(d, k, n, First(d.approvals, InStanding(SlotOf(d, k, n), Approved)), req, now);
    }
  }

  /** An executed action completes the containment of an incident. */
  predicate Completes(c: Cases, i: Incident, n: nat)
    requires n < |i.actions|
  {
    var playbook := SelectPlaybook(CurrentFlags(c, i));
    playbook.Some? && playbook.value.required <= Covered(i.actions) + i.actions[n].objectives
  }

  lemma RespondedStatus(c: Cases, i: Incident, n: nat, analyst: string, now: int)
    requires n < |i.actions| && i.actions[n].status == Pending
    ensures Responded(c, i, n, analyst, now).status
            == if Completes(c, i, n) then Contained else if i.status == New then Investigating else i.status
  {
    var done := i.actions[n].(status := Executed, executedAt := Some(now), analyst := Some(analyst));
    ExecutingOne(i.actions, n, done);
    ContainedIff(CurrentFlags(c, i), i.actions[n := done]);
  }

  predicate StatusBecomes(c: Cases, k: nat, status: Status) {
    k < |c.incidents| && c.incidents[k].status == status
  }

  lemma ResolvedResponded(c: Cases, e: Cases, k: nat, n: nat, analyst: string, now: int)
    requires k < |c.incidents| && k < |e.incidents| && n < |c.incidents[k].actions|
    requires c.incidents[k].status == Resolved && c.incidents[k].actions[n].status == Pending
    requires e.incidents[k] == Responded(c, c.incidents[k], n, analyst, now)
    ensures StatusBecomes(e, k, if Completes(c, c.incidents[k], n) then Contained else Resolved)
  {
    RespondedStatus(c, c.incidents[k], n, analyst, now);
  }

  /**
   RESOLVED is not final: an accepted execution makes the incident CONTAINED exactly when the executed
   actions and this one cover the objectives required by the playbook of the current flags.
   */
  lemma ResolvedBecomesContainedIff(cfg: Settings, d: Desk, req: Request, now: int, k: nat, n: nat)
    requires AcceptedFor(cfg, d, req, now, k, n) && d.cases.incidents[k].status == Resolved
    ensures StatusBecomes(Execute(cfg, d, req, now).0.cases, k,
                          if Completes(d.cases, d.cases.incidents[k], n) then Contained else Resolved)
  {
    AcceptedCommits(cfg, d, req, now, k, n);
    ResolvedResponded(d.cases, Execute(cfg, d, req, now).0.cases, k, n, req.analyst, now + req.delay);
  }

  /** No execution of the slot is recorded. */
  predicate Unrecorded(executions: seq<Execution>, slot: Slot) {
    forall e :: e in executions ==> e.slot != slot
  }

  /** A pending action that needs no approval and has no execution yet. */
  ghost predicate Free(cfg: Settings, h: Hashes, d: Desk, k: nat, n: nat) {
    && 0 < cfg.maxIncidentSpanMinutes && !cfg.authRequired && DeskInv(cfg, h, d)
    && k < |d.cases.incidents| && n < |d.cases.incidents[k].actions|
    && d.cases.incidents[k].actions[n].status == Pending && Unrecorded(d.executions, SlotOf(d, k, n))
  }

  lemma FreeExecutes(cfg: Settings, h: Hashes, d: Desk, k: nat, n: nat)
    requires Free(cfg, h, d, k, n)
    ensures var slot, req := SlotOf(d, k, n), RequestFor(d, k, n, "");
            var e := Apply(cfg, h, d, Respond(req, d.clock));
            && DeskInv(cfg, h, e) && e.clock == d.clock && e.cases == RespondedCases(d.cases, k, n, req, d.clock)
            && e.executions == d.executions + [Execution(slot, Key(slot))]
  {
    var slot, req := SlotOf(d, k, n), RequestFor(d, k, n, "");
    ActionsAreClean(h, d.cases, k, n);
    RecordedIff(d.executions, slot);
    RequestIsAuthorise(cfg, h, d, k, n, "");
    assert d.(clock := d.clock) == d;
    StepKeepsInv(cfg, h, d, Respond(req, d.clock));
  }

  lemma MoveResolves(cfg: Settings, h: Hashes, d: Desk, k: nat)
    requires 0 < cfg.maxIncidentSpanMinutes && DeskInv(cfg, h, d) && k < |d.cases.incidents|
    requires d.cases.incidents[k].status == Investigating
    ensures var i := d.cases.incidents[k];
            var e := Apply(cfg, h, d, Move(i.tenant, i.id, Resolved, d.clock));
            && DeskInv(cfg, h, e) && e.clock == d.clock && e.executions == d.executions
            && e.cases == d.cases.(incidents := d.cases.incidents[k := i.(status := Resolved)])
  {
    var i := d.cases.incidents[k];
    FindsIncident(h, d.cases, k);
    assert d.(clock := d.clock) == d;
    StepKeepsInv(cfg, h, d, Move(i.tenant, i.id, Resolved, d.clock));
  }

  /** A new endpoint incident, scored from its current findings, of which nothing has been executed. */
  ghost predicate NewEndpoint(cfg: Settings, h: Hashes, d: Desk, k: nat) {
    && 0 < cfg.maxIncidentSpanMinutes && !cfg.authRequired && DeskInv(cfg, h, d) && k < |d.cases.incidents|
    && var i := d.cases.incidents[k];
       && i.status == New && i.kind == Kind.Endpoint && i.actions == Template(i.kind)
       && InferType(CurrentFlags(d.cases, i)) == Kind.Endpoint
       && forall e :: e in d.executions ==> e.slot.incident != i.id
  }

  /** What the two actions of the endpoint playbook complete. */
  lemma EndpointCompletes(c: Cases, i: Incident)
    requires InferType(CurrentFlags(c, i)) == Kind.Endpoint && SameShape(i.actions, Template(Kind.Endpoint))
    ensures !("stop_malicious_execution" in Covered(i.actions)) ==> !Completes(c, i, 0)
    ensures "isolate_host" in Covered(i.actions) ==> Completes(c, i, 1)
  {
  }

  /** The host is isolated, and the process still runs. */
  ghost predicate Isolated(cfg: Settings, h: Hashes, d: Desk, k: nat) {
    && DeskInv(cfg, h, d) && k < |d.cases.incidents|
    && var i := d.cases.incidents[k];
       && SameShape(i.actions, Template(Kind.Endpoint)) && InferType(CurrentFlags(d.cases, i)) == Kind.Endpoint
       && i.actions[1].status == Pending && "isolate_host" in Covered(i.actions)
       && Unrecorded(d.executions, SlotOf(d, k, 1))
  }

  lemma IsolationDone(done: Recommendation)
    requires var blank := Template(Kind.Endpoint)[0];
             done == blank.(status := Executed, executedAt := done.executedAt, analyst := done.analyst)
    ensures var actions := Template(Kind.Endpoint)[0 := done];
            && SameShape(actions, Template(Kind.Endpoint)) && actions[1].status == Pending
            && actions[1].action == "Kill suspicious process" && "isolate_host" in Covered(actions)
  {
    ExecutingOne(Template(Kind.Endpoint), 0, done);
  }

  /** The action list after isolating, and the flags, which an execution does not change. */
  lemma IsolatedIncident(c: Cases, i: Incident, analyst: string, now: int)
    requires i.status == New && i.actions == Template(Kind.Endpoint) && InferType(CurrentFlags(c, i)) == Kind.Endpoint
    ensures var j := Responded(c, i, 0, analyst, now);
            && j.status == Investigating && CurrentFlags(c, j) == CurrentFlags(c, i)
            && SameShape(j.actions, Template(Kind.Endpoint)) && j.actions[1].status == Pending
            && j.actions[1].action == "Kill suspicious process" && "isolate_host" in Covered(j.actions)
  {
    EndpointCompletes(c, i);
    TemplateIsPending(Kind.Endpoint);
    RespondedStatus(c, i, 0, analyst, now);
    IsolationDone(i.actions[0].(status := Executed, executedAt := Some(now), analyst := Some(analyst)));
  }

  lemma StillUnrecorded(executions: seq<Execution>, e: Execution, slot: Slot)
    requires Unrecorded(executions, slot) && e.slot != slot
    ensures Unrecorded(executions + [e], slot)
  {
  }

  lemma IsolateFirst(cfg: Settings, h: Hashes, d: Desk, k: nat) returns (a: Desk, step: Step)
    requires NewEndpoint(cfg, h, d, k)
    ensures Enabled(d, step) && a == Apply(cfg, h, d, step) && Isolated(cfg, h, a, k)
    ensures a.cases.incidents[k].status == Investigating
  {
    var req := RequestFor(d, k, 0, "");
    FreeExecutes(cfg, h, d, k, 0);
    IsolatedIncident(d.cases, d.cases.incidents[k], "", d.clock);
    step := Respond(req, d.clock);
    a := Apply(cfg, h, d, step);
    StillUnrecorded(d.executions, Execution(SlotOf(d, k, 0), Key(SlotOf(d, k, 0))), SlotOf(a, k, 1));
  }

  lemma KillLast(cfg: Settings, h: Hashes, b: Desk, k: nat) returns (step: Step)
    requires 0 < cfg.maxIncidentSpanMinutes && !cfg.authRequired && Isolated(cfg, h, b, k)
    ensures Enabled(b, step)
    ensures var e := Apply(cfg, h, b, step); k < |e.cases.incidents| && e.cases.incidents[k].status == Contained
  {
    FreeExecutes(cfg, h, b, k, 1);
    EndpointCompletes(b.cases, b.cases.incidents[k]);
    RespondedStatus(b.cases, b.cases.incidents[k], 1, "", b.clock);
    step := Respond(RequestFor(b, k, 1, ""), b.clock);
  }

  lemma ResolveNext(cfg: Settings, h: Hashes, a: Desk, k: nat) returns (b: Desk, step: Step)
    requires 0 < cfg.maxIncidentSpanMinutes && Isolated(cfg, h, a, k) && a.cases.incidents[k].status == Investigating
    ensures Enabled(a, step) && b == Apply(cfg, h, a, step) && Isolated(cfg, h, b, k)
    ensures b.cases.incidents[k].status == Resolved
  {
    var i := a.cases.incidents[k];
    MoveResolves(cfg, h, a, k);
    step := Move(i.tenant, i.id, Resolved, a.clock);
    b := Apply(cfg, h, a, step);
    assert CurrentFlags(b.cases, b.cases.incidents[k]) == CurrentFlags(a.cases, i);
  }

  lemma TwoSteps(cfg: Settings, h: Hashes, d: Desk, first: Step, second: Step)
    requires 0 < cfg.maxIncidentSpanMinutes && Enabled(d, first) && Enabled(Apply(cfg, h, d, first), second)
    ensures IsRun(cfg, h, d, [first, second], Apply(cfg, h, Apply(cfg, h, d, first), second))
  {
  }

  /**
   The incident is investigated by isolating its host, resolved by an analyst, and then contained by the
   execution that kills the process.
   */
  lemma ResolvedThenContained(cfg: Settings, h: Hashes, d: Desk, k: nat)
    returns (toResolved: seq<Step>, b: Desk, last: Step, e: Desk)
    requires NewEndpoint(cfg, h, d, k)
    ensures IsRun(cfg, h, d, toResolved, b) && IsRun(cfg, h, b, [last], e)
    ensures k < |b.cases.incidents| && b.cases.incidents[k].status == Resolved
    ensures k < |e.cases.incidents| && e.cases.incidents[k].status == Contained
  {
    var a, first := IsolateFirst(cfg, h, d, k);
    var second;
    b, second := ResolveNext(cfg, h, a, k);
    last := KillLast(cfg, h, b, k);
    e := Apply(cfg, h, b, last);
    TwoSteps(cfg, h, d, first, second);
    RunOfStep(cfg, h, b, last);
    toResolved := [first, second];
  }

  // ---- The step of a first batch --------------------------------------------------------------------------------

  /** Where there is no incident yet, a qualifying group creates one. */
  lemma FirstIncident(cfg: Settings, h: Hashes, c: Cases, group: seq<Event>, newId: string)
    requires 0 < cfg.maxIncidentSpanMinutes && c.incidents == [] && UniqueIds(c.rows) && GroupOf(c.rows, group)
    requires Qualifies(c, group)
    ensures var r, found := Absorb(cfg, h, Begin(c), group, newId), GroupFindings(c.records, EventIds(group));
            && r.Stored? && |r.session.cases.incidents| == 1 && CreatedIn(c, r.session.cases, group, newId)
            && r.session.cases.incidents[0].kind == InferType(Flags(found))
            && r.session.cases.incidents[0].fingerprint == Wanted(cfg, h, c, group)
  {
    var found, wanted := GroupFindings(c.records, EventIds(group)), Wanted(cfg, h, c, group);
    assert Begin(c).Table() == [];
    assert Absorb(cfg, h, Begin(c), group, newId) == Create(h, Begin(c), group, found, wanted, newId);
    CreateEffect(h, Begin(c), group, wanted, newId);
  }

  /** Whatever batch it comes from, an incident created as an endpoint incident is as required above. */
  lemma CreatedIsNew(cfg: Settings, h: Hashes, d: Desk, c: Cases, group: seq<Event>, newId: string)
    requires 0 < cfg.maxIncidentSpanMinutes && !cfg.authRequired && DeskInv(cfg, h, d) && d.executions == []
    requires group != [] && CreatedIn(c, d.cases, group, newId)
    requires d.cases.incidents[|c.incidents|].kind == Kind.Endpoint
    ensures NewEndpoint(cfg, h, d, |c.incidents|)
  {
  }

  /** The step of a batch with one group that is committed. */
  lemma OneGroupStep(cfg: Settings, h: Hashes, d: Desk, step: Step, group: seq<Event>)
    requires 0 < cfg.maxIncidentSpanMinutes && step.Batch? && Enabled(d, step) && step.groups == [group] && group != []
    requires var r := Absorb(cfg, h, Begin(Ingested(d.cases, step.rows, step.records)), group, step.newIds(0));
             r.Stored? && DistinctFingerprints(r.session.cases.incidents)
    ensures Apply(cfg, h, d, step)
            == d.(cases := Absorb(cfg, h, Begin(Ingested(d.cases, step.rows, step.records)), group,
                                  step.newIds(0)).session.cases)
  {
    OneGroupCommits(cfg, h, Ingested(d.cases, step.rows, step.records), group, step.newIds);
  }

  lemma FirstStepReaches(cfg: Settings, h: Hashes, step: Step)
    requires 0 < cfg.maxIncidentSpanMinutes && Enabled(NOTHING, step)
    ensures Reachable(cfg, h, [step], Apply(cfg, h, NOTHING, step)) && DeskInv(cfg, h, Apply(cfg, h, NOTHING, step))
  {
    RunOfStep(cfg, h, NOTHING, step);
    NothingInv(cfg, h);
    StepKeepsInv(cfg, h, NOTHING, step);
  }
}
