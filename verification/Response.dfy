/**
 Approvals, response execution and incident status changes: the request handlers of
 backend/app/platform_api.py (lines 86-161), backend/app/services/response_actions.py (lines 35-159)
 and backend/app/main.py (lines 363-400). Each handler is one serialisable transaction, rolled back
 when it violates a unique constraint (backend/app/models.py, lines 141-148 and 199-201).
 */
module Response {
  import opened Base
  import opened Config
  import opened Playbook
  import opened Risk
  import opened Incidents
  import Correlation

  /** What an approval authorises and an execution is recorded for. */
  datatype Slot = Slot(tenant: string, incident: string, action: string)

  datatype Standing = Requested | Approved | Consumed | Expired

  /** An approval is identified by its position in the table. */
  datatype Approval = Approval(
    slot: Slot,
    requestedBy: string,
    approvedBy: Option<string>,
    standing: Standing,
    decidedAt: Option<int>)

  datatype Execution = Execution(slot: Slot, key: string)

  /**
   The audit row of a committed execution: when its approval was checked, when it was executed (after
   the connector had answered), and the approval it used up.
   */
  datatype AuditRow = AuditRow(slot: Slot, checked: int, at: int, approval: Option<nat>)

  datatype ConnectorCall = ConnectorCall(key: string, succeeded: bool)

  /** The tables, the calls that have reached the connector, and the time of the last request. */
  datatype Desk = Desk(
    cases: Cases,
    approvals: seq<Approval>,
    executions: seq<Execution>,
    audit: seq<AuditRow>,
    calls: seq<ConnectorCall>,
    clock: int)

  /** Tenant, incident and action, separated by colons. */
  function Key(slot: Slot): string {
    slot.tenant + ":" + slot.incident + ":" + slot.action
  }

  // ---- Lookups ------------------------------------------------------------------------------------

  function WithId(tenant: string, id: string): Incident -> bool {
    (i: Incident) => i.tenant == tenant && i.id == id
  }

  function Named(action: string): Recommendation -> bool {
    (a: Recommendation) => Lower(a.action) == Lower(action)
  }

  function InStanding(slot: Slot, standing: Standing): Approval -> bool {
    (a: Approval) => a.slot == slot && a.standing == standing
  }

  function Recorded(slot: Slot): Execution -> bool {
    (e: Execution) => e.slot.tenant == slot.tenant && e.key == Key(slot)
  }

  /** Some row already has this tenant, incident, action and status. */
  predicate Held(approvals: seq<Approval>, slot: Slot, standing: Standing) {
    First(approvals, InStanding(slot, standing)).Some?
  }

  predicate KeyTaken(executions: seq<Execution>, key: string) {
    exists e :: e in executions && e.key == key
  }

  // ---- Approvals ----------------------------------------------------------------------------------

  datatype Answer =
    | NotFound
    | Refused               // 400 or 409
    | NeedsApproval
    | ApprovalExpired
    | ConnectorFailed       // 502
    | ConstraintViolated    // rolled back
    | Accepted

  function RequestApproval(d: Desk, slot: Slot, user: string): (Desk, Answer) {
    if First(d.cases.incidents, WithId(slot.tenant, slot.incident)) == None then (d, NotFound)
    else if Held(d.approvals, slot, Requested) then (d, Accepted)
    else (d.(approvals := d.approvals + [Approval(slot, user, None, Requested, None)]), Accepted)
  }

  function SetStanding(d: Desk, m: nat, standing: Standing): Desk
    requires m < |d.approvals|
  {
    d.(approvals := d.approvals[m := d.approvals[m].(standing := standing)])
  }

  function Approve(d: Desk, m: nat, tenant: string, user: string, now: int): (Desk, Answer) {
    if m >= |d.approvals| || d.approvals[m].slot.tenant != tenant then (d, NotFound)
    else
      var a := d.approvals[m];
      if a.requestedBy == user || a.standing != Requested then (d, Refused)
      else if Held(d.approvals, a.slot, Approved) then (d, ConstraintViolated)
      else
        (d.(approvals := d.approvals[m := a.(standing := Approved, approvedBy := Some(user), decidedAt := Some(now))]),
         Accepted)
  }

  // ---- Execution ----------------------------------------------------------------------------------

  /** `delay` is the time from the approval check to the answer of the connector. */
  datatype Request = Request(
    tenant: string,
    incident: string,
    action: string,
    analyst: string,
    connectorWorks: bool,
    delay: nat)

  predicate Stale(cfg: Settings, a: Approval, now: int) {
    a.decidedAt == None || a.decidedAt.value < now - cfg.approvalTtlMinutes * MINUTE
  }

  predicate ApprovalNeeded(cfg: Settings, a: Recommendation) {
    a.points >= HIGH_IMPACT && cfg.authRequired
  }

  /** The distinct flags of the stored findings about the events. */
  function CurrentFlags(c: Cases, i: Incident): set<string> {
    Flags(FindingsAbout(c.records, Correlation.Elements(i.eventIds)))
  }

  /** The incident after its action `n` has been executed. */
  function Responded(c: Cases, i: Incident, n: nat, analyst: string, now: int): Incident
    requires n < |i.actions|
  {
    var actions := i.actions[n := i.actions[n].(status := Executed, executedAt := Some(now), analyst := Some(analyst))];
    i.(actions := actions, residual := Residual(i.risk, actions),
       status := if ObjectivesMet(ContainmentProgress(CurrentFlags(c, i), actions)) then Contained
                 else if i.status == New then Investigating
                 else i.status)
  }

  /** The incident and history tables after that. */
  function RespondedCases(c: Cases, k: nat, n: nat, req: Request, now: int): Cases
    requires k < |c.incidents| && n < |c.incidents[k].actions|
  {
    var j := Responded(c, c.incidents[k], n, req.analyst, now + req.delay);
    c.(incidents := c.incidents[k := j],
       history := c.history + [HistoryRow(j.id, j.risk, j.residual, ActionExecuted(req.action))])
  }

  /** The commit that ends `execute`: incident, history, audit and the used-up approval. */
  function Commit(d: Desk, k: nat, n: nat, approval: Option<nat>, req: Request, now: int): Desk
    requires k < |d.cases.incidents| && n < |d.cases.incidents[k].actions|
    requires approval.Some? ==> approval.value < |d.approvals|
  {
    var i := d.cases.incidents[k];
    var e := if approval.Some? then SetStanding(d, approval.value, Consumed) else d;
    e.(cases := RespondedCases(d.cases, k, n, req, now),
       audit := d.audit + [AuditRow(Slot(i.tenant, i.id, i.actions[n].action), now, now + req.delay, approval)])
  }

  /** From the connector on: call it unless the key has been executed before, then commit. */
  function Perform(d: Desk, k: nat, n: nat, approval: Option<nat>, req: Request, now: int): (Desk, Answer)
    requires k < |d.cases.incidents| && n < |d.cases.incidents[k].actions|
    requires approval.Some? ==> approval.value < |d.approvals|
  {
    var i := d.cases.incidents[k];
    var slot := Slot(i.tenant, i.id, i.actions[n].action);
    if First(d.executions, Recorded(slot)).Some? then
      if approval.Some? && Held(d.approvals, slot, Consumed) then (d, ConstraintViolated)
      else (Commit(d, k, n, approval, req, now), Accepted)
    else
      var called := d.(calls := d.calls + [ConnectorCall(Key(slot), req.connectorWorks)]);
      if !req.connectorWorks then (called, ConnectorFailed)
      else if KeyTaken(d.executions, Key(slot)) || (approval.Some? && Held(d.approvals, slot, Consumed)) then
        (called, ConstraintViolated)
      else
        (Commit(called.(executions := d.executions + [Execution(slot, Key(slot))]), k, n, approval, req, now), Accepted)
  }

  /** `_require_approval`, then the rest. */
  function Authorise(cfg: Settings, d: Desk, k: nat, n: nat, req: Request, now: int): (Desk, Answer)
    requires k < |d.cases.incidents| && n < |d.cases.incidents[k].actions|
  {
    var i := d.cases.incidents[k];
    var slot := Slot(i.tenant, i.id, i.actions[n].action);
    if !ApprovalNeeded(cfg, i.actions[n]) then Perform(d, k, n, None, req, now)
    else
      match First(d.approvals, InStanding(slot, Approved))
      case None => (d, NeedsApproval)
      case Some(m) =>
        if Stale(cfg, d.approvals[m], now) then
          if Held(d.approvals, slot, Expired) then (d, ConstraintViolated)
          else (SetStanding(d, m, Expired), ApprovalExpired)
        else Perform(d, k, n, Some(m), req, now)
  }

  function Execute(cfg: Settings, d: Desk, req: Request, now: int): (Desk, Answer) {
    match First(d.cases.incidents, WithId(req.tenant, req.incident))
    case None => (d, NotFound)
    case Some(k) =>
      match First(d.cases.incidents[k].actions, Named(req.action))
      case None => (d, Refused)
      case Some(n) =>
        if d.cases.incidents[k].actions[n].status == Executed then (d, Refused)
        else Authorise(cfg, d, k, n, req, now)
  }

  // ---- Status changes -----------------------------------------------------------------------------

  predicate Allowed(from: Status, to: Status) {
    || (from == New && to == Investigating)
    || (from == Investigating && to == Resolved)
    || (from == Contained && to == Resolved)
  }

  function Moved(i: Incident, target: Status, now: int): Incident {
    var j := i.(status := target);
    if target == Investigating then
      j.(assignedTo := Some("analyst@demo"), triagedAt := if i.triagedAt.Some? then i.triagedAt else Some(now))
    else j
  }

  function UpdateIncident(d: Desk, tenant: string, id: string, target: Status, now: int): (Desk, Answer) {
    match First(d.cases.incidents, WithId(tenant, id))
    case None => (d, NotFound)
    case Some(k) =>
      var i := d.cases.incidents[k];
      if target == Contained || (target != i.status && !Allowed(i.status, target)) then (d, Refused)
      else (d.(cases := d.cases.(incidents := d.cases.incidents[k := Moved(i, target, now)])), Accepted)
  }
}
