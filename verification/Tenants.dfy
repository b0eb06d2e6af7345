/**
 Tenants are apart: whatever the others do, a tenant's incidents, approvals, executions and audit rows
 stay as they are, and every decision on an approval is one of its own tenant
 (backend/app/platform_api.py, lines 93-95, 102-105 and 137-139, backend/app/repositories/incidents.py,
 and backend/app/services/response_actions.py, lines 39-40, 93-102 and 117-123).
 */
module Tenants {
  import opened Base
  import opened Config
  import opened Detection
  import opened Playbook
  import opened Risk
  import opened Incidents
  import opened IncidentLaws
  import opened Absorption
  import opened Transactions
  import opened Response
  import opened Workflow
  import opened WorkflowLaws

  // ---- One step ----------------------------------------------------------------------------------------

  /** The step is not one of the tenant: its caller is of another one, or no group of the batch holds its events. */
  ghost predicate Elsewhere(step: Step, tenant: string) {
    match step
    case Batch(_, _, groups, _) =>
      forall n :: 0 <= n < |groups| ==> forall e :: e in groups[n] ==> e.tenant != tenant
    case Ask(slot, _) => slot.tenant != tenant
    case Decide(_, caller, _, _) => caller != tenant
    case Respond(req, _) => req.tenant != tenant
    case Move(caller, _, _, _) => caller != tenant
  }

  /** The tenant's incidents are the same ones, in the same places. */
  ghost predicate SameIncidents(a: seq<Incident>, b: seq<Incident>, tenant: string) {
    && |a| <= |b|
    && (forall k :: 0 <= k < |a| ==> a[k].tenant == b[k].tenant && (a[k].tenant == tenant ==> a[k] == b[k]))
    && (forall k :: |a| <= k < |b| ==> b[k].tenant != tenant)
  }

  ghost predicate SameApprovals(a: seq<Approval>, b: seq<Approval>, tenant: string) {
    && |a| <= |b|
    && (forall k :: 0 <= k < |a| ==> a[k].slot == b[k].slot && (a[k].slot.tenant == tenant ==> a[k] == b[k]))
    && (forall k :: |a| <= k < |b| ==> b[k].slot.tenant != tenant)
  }

  /** Rows were added at most for other tenants. */
  ghost predicate NoExecution(a: seq<Execution>, b: seq<Execution>, tenant: string) {
    a <= b && forall k :: |a| <= k < |b| ==> b[k].slot.tenant != tenant
  }

  ghost predicate NoAudit(a: seq<AuditRow>, b: seq<AuditRow>, tenant: string) {
    a <= b && forall k :: |a| <= k < |b| ==> b[k].slot.tenant != tenant
  }

  ghost predicate Untouched(d: Desk, e: Desk, tenant: string) {
    && SameIncidents(d.cases.incidents, e.cases.incidents, tenant)
    && SameApprovals(d.approvals, e.approvals, tenant)
    && NoExecution(d.executions, e.executions, tenant) && NoAudit(d.audit, e.audit, tenant)
  }

  lemma UntouchedThen(d: Desk, u: Desk, e: Desk, tenant: string)
    requires Untouched(d, u, tenant) && Untouched(u, e, tenant)
    ensures Untouched(d, e, tenant)
  {
  }

  lemma CommitElsewhere(d: Desk, k: nat, n: nat, approval: Option<nat>, req: Request, now: int, tenant: string)
    requires k < |d.cases.incidents| && n < |d.cases.incidents[k].actions|
    requires d.cases.incidents[k].tenant != tenant
    requires approval.Some? ==> approval.value < |d.approvals| && d.approvals[approval.value].slot.tenant != tenant
    ensures Untouched(d, Commit(d, k, n, approval, req, now), tenant)
  {
    RespondedRow(d.cases, k, n, req, now);
  }

  lemma PerformElsewhere(d: Desk, k: nat, n: nat, approval: Option<nat>, req: Request, now: int, tenant: string)
    requires k < |d.cases.incidents| && n < |d.cases.incidents[k].actions|
    requires d.cases.incidents[k].tenant != tenant
    requires approval.Some? ==> approval.value < |d.approvals| && d.approvals[approval.value].slot.tenant != tenant
    ensures Untouched(d, Perform(d, k, n, approval, req, now).0, tenant)
  {
    var slot := SlotOf(d, k, n);
    var called := d.(calls := d.calls + [ConnectorCall(Key(slot), req.connectorWorks)],
                     executions := d.executions + [Execution(slot, Key(slot))]);
    assert Untouched(d, called, tenant);
    CommitElsewhere(d, k, n, approval, req, now, tenant);
    CommitElsewhere(called, k, n, approval, req, now, tenant);
    UntouchedThen(d, called, Commit(called, k, n, approval, req, now), tenant);
  }

  lemma AuthoriseElsewhere(cfg: Settings, d: Desk, k: nat, n: nat, req: Request, now: int, tenant: string)
    requires k < |d.cases.incidents| && n < |d.cases.incidents[k].actions|
    requires d.cases.incidents[k].tenant != tenant
    ensures Untouched(d, Authorise(cfg, d, k, n, req, now).0, tenant)
  {
    var slot := SlotOf(d, k, n);
    PerformElsewhere(d, k, n, None, req, now, tenant);
    var found := First(d.approvals, InStanding(slot, Approved));
    if found.Some? {
      assert InStanding(slot, Approved)(d.approvals[found.value]);
      PerformElsewhere(d, k, n, found, req, now, tenant);
      assert Untouched(d, SetStanding(d, found.value, Expired), tenant);
    }
  }

  lemma RespondElsewhere(cfg: Settings, d: Desk, req: Request, now: int, tenant: string)
    requires req.tenant != tenant
    ensures Untouched(d, Execute(cfg, d, req, now).0, tenant)
  {
    var found := First(d.cases.incidents, WithId(req.tenant, req.incident));
    if found.Some? {
      assert WithId(req.tenant, req.incident)(d.cases.incidents[found.value]);
      var which := First(d.cases.incidents[found.value].actions, Named(req.action));
      if which.Some? {
        AuthoriseElsewhere(cfg, d, found.value, which.value, req, now, tenant);
      }
    }
  }

  lemma MoveElsewhere(d: Desk, caller: string, id: string, target: Status, now: int, tenant: string)
    requires caller != tenant
    ensures Untouched(d, UpdateIncident(d, caller, id, target, now).0, tenant)
  {
  }

  lemma DecideElsewhere(d: Desk, m: nat, caller: string, user: string, now: int, tenant: string)
    requires caller != tenant
    ensures Untouched(d, Approve(d, m, caller, user, now).0, tenant)
  {
  }

  // ---- Batches -------------------------------------------------------------------------------------------

  lemma EnrichElsewhere(cfg: Settings, h: Hashes, s: Session, k: nat, group: seq<Event>, tenant: string)
    requires 0 < cfg.maxIncidentSpanMinutes && s.Aligned() && k < |s.disk| && s.cases.incidents[k].tenant != tenant
    requires Enrich(cfg, h, s, k, group).Stored?
    ensures SameIncidents(s.cases.incidents, Enrich(cfg, h, s, k, group).session.cases.incidents, tenant)
  {
  }

  lemma CreateElsewhere(h: Hashes, s: Session, group: seq<Event>, found: seq<Finding>, wanted: string, newId: string,
                        tenant: string)
    requires s.Aligned() && group != [] && group[0].tenant != tenant
    requires Create(h, s, group, found, wanted, newId).Stored?
    ensures SameIncidents(s.cases.incidents, Create(h, s, group, found, wanted, newId).session.cases.incidents, tenant)
  {
  }

  lemma GroupElsewhere(cfg: Settings, h: Hashes, s: Session, group: seq<Event>, newId: string, tenant: string)
    requires 0 < cfg.maxIncidentSpanMinutes && s.Aligned() && group != [] && group[0].tenant != tenant
    requires Absorb(cfg, h, s, group, newId).Stored?
    ensures SameIncidents(s.cases.incidents, Absorb(cfg, h, s, group, newId).session.cases.incidents, tenant)
  {
    var found := GroupFindings(s.cases.records, EventIds(group));
    var wanted := Fingerprint(cfg, h, group[0].tenant, Flags(found), group);
    FoundIsOpen(s, group[0].tenant, wanted, Correlation.Elements(EventIds(group)));
    match FindExisting(s.Table(), group[0].tenant, wanted, Correlation.Elements(EventIds(group))) {
      case Some(k) => EnrichElsewhere(cfg, h, s, k, group, tenant);
      case None => CreateElsewhere(h, s, group, found, wanted, newId, tenant);
    }
  }

  lemma SameThen(a: seq<Incident>, b: seq<Incident>, c: seq<Incident>, tenant: string)
    requires SameIncidents(a, b, tenant) && SameIncidents(b, c, tenant)
    ensures SameIncidents(a, c, tenant)
  {
  }

  lemma {:induction false} GroupsElsewhere(cfg: Settings, h: Hashes, s: Session, groups: seq<seq<Event>>,
                                           newIds: nat -> string, tenant: string)
    requires 0 < cfg.maxIncidentSpanMinutes && s.Aligned()
    requires forall n :: 0 <= n < |groups| ==> groups[n] != [] && groups[n][0].tenant != tenant
    requires AbsorbAll(cfg, h, s, groups, newIds).Some?
    ensures SameIncidents(s.cases.incidents, AbsorbAll(cfg, h, s, groups, newIds).value.cases.incidents, tenant)
    decreases |groups|
  {
    if groups == [] {
    } else {
      var n := |groups| - 1;
      var t := AbsorbAll(cfg, h, s, groups[..n], newIds).value;
      var u := AbsorbAll(cfg, h, s, groups, newIds).value;
      GroupsElsewhere(cfg, h, s, groups[..n], newIds, tenant);
      if Absorb(cfg, h, t, groups[n], newIds(n)).Stored? {
        GroupElsewhere(cfg, h, t, groups[n], newIds(n), tenant);
      }
      SameThen(s.cases.incidents, t.cases.incidents, u.cases.incidents, tenant);
    }
  }

  lemma BatchElsewhere(cfg: Settings, h: Hashes, d: Desk, step: Step, tenant: string)
    requires 0 < cfg.maxIncidentSpanMinutes && Enabled(d, step) && step.Batch? && Elsewhere(step, tenant)
    ensures Untouched(d, Apply(cfg, h, d, step), tenant)
  {
    var c := Ingested(d.cases, step.rows, step.records);
    forall n | 0 <= n < |step.groups| ensures step.groups[n] != [] && step.groups[n][0].tenant != tenant {
      assert step.groups[n][0] in step.groups[n];
    }
    if CorrelateBatch(cfg, h, c, step.groups, step.newIds).Some? {
      GroupsElsewhere(cfg, h, Begin(c), step.groups, step.newIds, tenant);
    }
  }

  lemma StepElsewhere(cfg: Settings, h: Hashes, d: Desk, step: Step, tenant: string)
    requires 0 < cfg.maxIncidentSpanMinutes && Enabled(d, step) && Elsewhere(step, tenant)
    ensures Untouched(d, Apply(cfg, h, d, step), tenant)
  {
    match step {
      case Batch(_, _, _, _) => BatchElsewhere(cfg, h, d, step, tenant);
      case Ask(_, _) =>
      case Decide(m, caller, user, now) => DecideElsewhere(d.(clock := now), m, caller, user, now, tenant);
      case Respond(req, now) => RespondElsewhere(cfg, d.(clock := now), req, now, tenant);
      case Move(caller, id, target, now) => MoveElsewhere(d.(clock := now), caller, id, target, now, tenant);
    }
  }

  /** A run without a step of the tenant leaves its incidents, approvals, executions and audit rows alone. */
  lemma {:induction false} TenantsApart(cfg: Settings, h: Hashes, d: Desk, steps: seq<Step>, e: Desk, tenant: string)
    requires 0 < cfg.maxIncidentSpanMinutes && IsRun(cfg, h, d, steps, e)
    requires forall n :: 0 <= n < |steps| ==> Elsewhere(steps[n], tenant)
    ensures Untouched(d, e, tenant)
    decreases |steps|
  {
    if steps == [] {
    } else {
      var u := Apply(cfg, h, d, steps[0]);
      StepElsewhere(cfg, h, d, steps[0], tenant);
      TenantsApart(cfg, h, u, steps[1..], e, tenant);
      UntouchedThen(d, u, e, tenant);
    }
  }

  // ---- Who has asked and who has decided -----------------------------------------------------------------

  /** The step is the request of the approval. */
  predicate Asks(step: Step, a: Approval) {
    step.Ask? && step.slot == a.slot && step.user == a.requestedBy
  }

  /** The step is the decision on approval `m`, by somebody else of the same tenant. */
  predicate Decides(step: Step, m: nat, a: Approval) {
    && step.Decide? && step.approval == m && step.tenant == a.slot.tenant && step.user != a.requestedBy
    && a.approvedBy == Some(step.user) && a.decidedAt == Some(step.now)
  }

  /** What a step does to a row of the approval table. */
  ghost predicate RowStep(step: Step, m: nat, a: Approval, b: Approval) {
    && b.slot == a.slot && b.requestedBy == a.requestedBy
    && (a.standing != Requested ==>
          b.standing != Requested && b.approvedBy == a.approvedBy && b.decidedAt == a.decidedAt)
    && (a.standing == Requested && b.standing != Requested ==> Decides(step, m, b))
  }

  ghost predicate ApprovalsStep(step: Step, a: seq<Approval>, b: seq<Approval>) {
    && |a| <= |b|
    && (forall m: nat :: m < |a| ==> RowStep(step, m, a[m], b[m]))
    && (forall m: nat :: |a| <= m < |b| ==> b[m].standing == Requested && Asks(step, b[m]))
  }

  lemma NoChange(step: Step, a: seq<Approval>)
    ensures ApprovalsStep(step, a, a)
  {
  }

  lemma RestandStep(step: Step, a: seq<Approval>, m: nat, standing: Standing)
    requires m < |a| && a[m].standing == Approved && standing != Requested
    ensures ApprovalsStep(step, a, a[m := a[m].(standing := standing)])
  {
  }

  lemma PerformStep(step: Step, d: Desk, k: nat, n: nat, approval: Option<nat>, req: Request, now: int)
    requires k < |d.cases.incidents| && n < |d.cases.incidents[k].actions|
    requires approval.Some? ==> approval.value < |d.approvals| && d.approvals[approval.value].standing == Approved
    ensures ApprovalsStep(step, d.approvals, Perform(d, k, n, approval, req, now).0.approvals)
  {
    NoChange(step, d.approvals);
    if approval.Some? {
      RestandStep(step, d.approvals, approval.value, Consumed);
      PerformApprovals(d, k, n, approval, req, now);
    }
  }

  lemma PerformApprovals(d: Desk, k: nat, n: nat, approval: Option<nat>, req: Request, now: int)
    requires k < |d.cases.incidents| && n < |d.cases.incidents[k].actions|
    requires approval.Some? && approval.value < |d.approvals|
    ensures var a, b := d.approvals, Perform(d, k, n, approval, req, now).0.approvals;
            b == a || b == a[approval.value := a[approval.value].(standing := Consumed)]
  {
  }

  lemma AuthoriseStep(step: Step, cfg: Settings, d: Desk, k: nat, n: nat, req: Request, now: int)
    requires k < |d.cases.incidents| && n < |d.cases.incidents[k].actions|
    ensures ApprovalsStep(step, d.approvals, Authorise(cfg, d, k, n, req, now).0.approvals)
  {
    var slot := SlotOf(d, k, n);
    NoChange(step, d.approvals);
    PerformStep(step, d, k, n, None, req, now);
    var found := First(d.approvals, InStanding(slot, Approved));
    if found.Some? {
      assert InStanding(slot, Approved)(d.approvals[found.value]);
      PerformStep(step, d, k, n, found, req, now);
      RestandStep(step, d.approvals, found.value, Expired);
    }
  }

  lemma RespondStep(step: Step, cfg: Settings, d: Desk, req: Request, now: int)
    ensures ApprovalsStep(step, d.approvals, Execute(cfg, d, req, now).0.approvals)
  {
    NoChange(step, d.approvals);
    var found := First(d.cases.incidents, WithId(req.tenant, req.incident));
    if found.Some? {
      var which := First(d.cases.incidents[found.value].actions, Named(req.action));
      if which.Some? {
        AuthoriseStep(step, cfg, d, found.value, which.value, req, now);
      }
    }
  }

  lemma DecideStep(d: Desk, m: nat, tenant: string, user: string, now: int)
    ensures ApprovalsStep(Decide(m, tenant, user, now), d.approvals, Approve(d, m, tenant, user, now).0.approvals)
  {
  }

  lemma AskStep(d: Desk, slot: Slot, user: string)
    ensures ApprovalsStep(Ask(slot, user), d.approvals, RequestApproval(d, slot, user).0.approvals)
  {
  }

  lemma StepOnApprovals(cfg: Settings, h: Hashes, d: Desk, step: Step)
    requires 0 < cfg.maxIncidentSpanMinutes && Enabled(d, step)
    ensures ApprovalsStep(step, d.approvals, Apply(cfg, h, d, step).approvals)
  {
    match step {
      case Ask(slot, user) => AskStep(d, slot, user);
      case Decide(m, tenant, user, now) => DecideStep(d.(clock := now), m, tenant, user, now);
      case Respond(req, now) => RespondStep(step, cfg, d.(clock := now), req, now);
      case Move(_, _, _, _) => NoChange(step, d.approvals);
      case Batch(_, _, _, _) => NoChange(step, d.approvals);
    }
  }

  /** A decision on row `m` is among the steps. */
  ghost predicate DecidedIn(steps: seq<Step>, m: nat, a: Approval) {
    exists n :: 0 <= n < |steps| && Decides(steps[n], m, a)
  }

  /** A row that waits, or is not there yet, at the start and is decided at the end has a decision in between. */
  lemma {:induction false} RunDecides(cfg: Settings, h: Hashes, d: Desk, steps: seq<Step>, e: Desk, m: nat)
    requires 0 < cfg.maxIncidentSpanMinutes && IsRun(cfg, h, d, steps, e) && m < |d.approvals|
    ensures m < |e.approvals| && e.approvals[m].slot == d.approvals[m].slot
            && e.approvals[m].requestedBy == d.approvals[m].requestedBy
    ensures d.approvals[m].standing != Requested ==>
              e.approvals[m].standing != Requested && e.approvals[m].approvedBy == d.approvals[m].approvedBy
              && e.approvals[m].decidedAt == d.approvals[m].decidedAt
    ensures d.approvals[m].standing == Requested && e.approvals[m].standing != Requested ==>
              DecidedIn(steps, m, e.approvals[m])
    decreases |steps|
  {
    if steps == [] {
    } else {
      var u := Apply(cfg, h, d, steps[0]);
      StepOnApprovals(cfg, h, d, steps[0]);
      assert RowStep(steps[0], m, d.approvals[m], u.approvals[m]);
      RunDecides(cfg, h, u, steps[1..], e, m);
      Later(steps, m, e.approvals[m]);
    }
  }

  lemma Later(steps: seq<Step>, m: nat, a: Approval)
    requires steps != []
    ensures DecidedIn(steps[1..], m, a) || Decides(steps[0], m, a) ==> DecidedIn(steps, m, a)
  {
    if n :| 0 <= n < |steps[1..]| && Decides(steps[1..][n], m, a) {
      assert Decides(steps[n + 1], m, a);
    }
  }

  /** The row was asked for by its requester, and a decided one was decided afterwards. */
  ghost predicate Founded(steps: seq<Step>, m: nat, a: Approval) {
    exists n :: 0 <= n < |steps| && Asks(steps[n], a)
                && (a.standing != Requested ==> DecidedIn(steps[n + 1..], m, a))
  }

  lemma {:induction false} RunFounds(cfg: Settings, h: Hashes, d: Desk, steps: seq<Step>, e: Desk, m: nat)
    requires 0 < cfg.maxIncidentSpanMinutes && IsRun(cfg, h, d, steps, e) && |d.approvals| <= m < |e.approvals|
    ensures Founded(steps, m, e.approvals[m])
    decreases |steps|
  {
    if steps == [] {
      assert false;
    } else {
      var u := Apply(cfg, h, d, steps[0]);
      StepOnApprovals(cfg, h, d, steps[0]);
      if m < |u.approvals| {
        RunDecides(cfg, h, u, steps[1..], e, m);
        assert Asks(steps[0], e.approvals[m]);
      } else {
        RunFounds(cfg, h, u, steps[1..], e, m);
        var n :| 0 <= n < |steps[1..]| && Asks(steps[1..][n], e.approvals[m])
                 && (e.approvals[m].standing != Requested ==> DecidedIn(steps[1..][n + 1..], m, e.approvals[m]));
        assert steps[1..][n + 1..] == steps[n + 2..];
        assert Asks(steps[n + 1], e.approvals[m]);
      }
    }
  }

  /**
   Every approval of a reachable state was asked for in the run; one that no longer waits was decided later in
   the run, by a second user, who is of the tenant of the approval.
   */
  lemma OwnTenantDecides(cfg: Settings, h: Hashes, steps: seq<Step>, d: Desk, m: nat)
    requires 0 < cfg.maxIncidentSpanMinutes && Reachable(cfg, h, steps, d) && m < |d.approvals|
    ensures Founded(steps, m, d.approvals[m])
  {
    RunFounds(cfg, h, NOTHING, steps, d, m);
  }
}
