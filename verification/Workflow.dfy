/**
 Incidents and responses as one step machine: batches of telemetry, approval requests, decisions,
 executions and status changes in any order. A batch is one transaction: its rows, its findings and
 what correlating its groups does to the incidents, or nothing at all.
 */
module Workflow {
  import opened Base
  import opened Config
  import opened Correlation
  import opened Detection
  import opened Playbook
  import opened Risk
  import opened Incidents
  import opened IncidentLaws
  import opened Absorption
  import opened Sessions
  import opened Transactions
  import opened Response

  type Event = Correlation.Event

  datatype Step =
    | Batch(rows: seq<Event>, records: seq<Finding>, groups: seq<seq<Event>>, newIds: nat -> string)
    | Ask(slot: Slot, user: string)
    | Decide(approval: nat, tenant: string, user: string, now: int)
    | Respond(req: Request, now: int)
    | Move(tenant: string, incident: string, target: Status, now: int)

  /** Rows bring new ids; the groups consist of stored rows; generated incident ids are new. */
  ghost predicate Enabled(d: Desk, step: Step) {
    match step
    case Batch(rows, records, groups, newIds) =>
      UniqueIds(d.cases.rows + rows) && Ready(Ingested(d.cases, rows, records), groups, newIds)
    case Ask(_, _) => true
    case Decide(_, _, _, now) => d.clock <= now
    case Respond(_, now) => d.clock <= now
    case Move(_, _, _, now) => d.clock <= now
  }

  /** The tables after a batch: an aborted one leaves them as they were. */
  function Processed(cfg: Settings, h: Hashes, c: Cases, rows: seq<Event>, records: seq<Finding>,
                     groups: seq<seq<Event>>, newIds: nat -> string): Cases
    requires 0 < cfg.maxIncidentSpanMinutes && forall n :: 0 <= n < |groups| ==> groups[n] != []
  {
    match CorrelateBatch(cfg, h, Ingested(c, rows, records), groups, newIds)
    case None => c
    case Some(e) => e
  }

  ghost function Apply(cfg: Settings, h: Hashes, d: Desk, step: Step): Desk
    requires 0 < cfg.maxIncidentSpanMinutes && Enabled(d, step)
  {
    match step
    case Batch(rows, records, groups, newIds) =>
      d.(cases := Processed(cfg, h, d.cases, rows, records, groups, newIds))
    case Ask(slot, user) => RequestApproval(d, slot, user).0
    case Decide(m, tenant, user, now) => Approve(d.(clock := now), m, tenant, user, now).0
    case Respond(req, now) => Execute(cfg, d.(clock := now), req, now).0
    case Move(tenant, id, target, now) => UpdateIncident(d.(clock := now), tenant, id, target, now).0
  }

  ghost function Next(cfg: Settings, h: Hashes): (Desk, Step) -> Option<Desk>
    requires 0 < cfg.maxIncidentSpanMinutes
  {
    (d: Desk, step: Step) => if Enabled(d, step) then Some(Apply(cfg, h, d, step)) else None
  }

  ghost predicate IsRun(cfg: Settings, h: Hashes, d: Desk, steps: seq<Step>, e: Desk)
    requires 0 < cfg.maxIncidentSpanMinutes
  {
    RunOf(Next(cfg, h), d, steps, e)
  }

  const NOTHING := Desk(Cases([], [], [], []), [], [], [], [], 0)

  // ---- The invariants -----------------------------------------------------------------------------

  /** The unique constraint on tenant, incident, action and status. */
  ghost predicate OnePerStanding(approvals: seq<Approval>) {
    forall a, b :: 0 <= a < b < |approvals| ==>
      approvals[a].slot != approvals[b].slot || approvals[a].standing != approvals[b].standing
  }

  /** A decision names a second person and a time. */
  predicate TwoPerson(a: Approval, clock: int) {
    a.standing != Requested ==>
      && a.approvedBy.Some? && a.approvedBy.value != a.requestedBy
      && a.decidedAt.Some? && a.decidedAt.value <= clock
  }

  predicate Performed(executions: seq<Execution>, slot: Slot) {
    exists e :: e in executions && e == Execution(slot, Key(slot))
  }

  ghost predicate ExecutionsOk(executions: seq<Execution>) {
    && (forall n :: 0 <= n < |executions| ==>
          executions[n].key == Key(executions[n].slot)
          && ColonFree(executions[n].slot.incident) && ColonFree(executions[n].slot.action))
    && (forall m, n :: 0 <= m < n < |executions| ==> executions[m].key != executions[n].key)
  }

  /** A used approval has its execution row. */
  ghost predicate ApprovalOk(d: Desk, a: Approval) {
    TwoPerson(a, d.clock) && (a.standing == Consumed ==> Performed(d.executions, a.slot))
  }

  predicate HighImpact(cfg: Settings, action: string) {
    cfg.authRequired && Reduction(action) >= HIGH_IMPACT
  }

  /** A committed execution of high impact has used an approval that was decided in time. */
  ghost predicate AuditOk(cfg: Settings, approvals: seq<Approval>, row: AuditRow) {
    match row.approval
    case None => !HighImpact(cfg, row.slot.action)
    case Some(m) =>
      && m < |approvals| && approvals[m].slot == row.slot && approvals[m].standing == Consumed
      && approvals[m].decidedAt.Some?
      && row.checked - cfg.approvalTtlMinutes * MINUTE <= approvals[m].decidedAt.value <= row.checked <= row.at
  }

  ghost predicate SingleUse(audit: seq<AuditRow>) {
    forall m, n :: 0 <= m < n < |audit| && audit[m].approval.Some? ==> audit[m].approval != audit[n].approval
  }

  function Successes(calls: seq<ConnectorCall>, key: string): nat {
    if calls == [] then 0
    else
      var last := calls[|calls| - 1];
      Successes(calls[..|calls| - 1], key) + if last.key == key && last.succeeded then 1 else 0
  }

  /** A key has exactly one successful connector call once it is recorded, and none before. */
  ghost predicate CallsOk(d: Desk, key: string) {
    Successes(d.calls, key) == if KeyTaken(d.executions, key) then 1 else 0
  }

  ghost predicate ResponseInv(cfg: Settings, d: Desk) {
    && OnePerStanding(d.approvals) && ExecutionsOk(d.executions) && SingleUse(d.audit)
    && (forall m :: 0 <= m < |d.approvals| ==> ApprovalOk(d, d.approvals[m]))
    && (forall n :: 0 <= n < |d.audit| ==> AuditOk(cfg, d.approvals, d.audit[n]))
    && forall key :: CallsOk(d, key)
  }

  ghost predicate DeskInv(cfg: Settings, h: Hashes, d: Desk) {
    CasesInv(h, d.cases) && ResponseInv(cfg, d)
  }

  // ---- Idempotency keys ---------------------------------------------------------------------------

  lemma ColonAt(x: string, y: string)
    requires ColonFree(y)
    ensures (x + ":" + y)[|x|] == ':' && forall k :: |x| < k < |x + ":" + y| ==> (x + ":" + y)[k] != ':'
  {
  }

  /** The last separator of a string can be found again. */
  lemma LastColon(x: string, y: string, u: string, v: string)
    requires ColonFree(y) && ColonFree(v) && x + ":" + y == u + ":" + v
    ensures x == u && y == v
  {
    var s, t := x + ":" + y, u + ":" + v;
    ColonAt(x, y);
    ColonAt(u, v);
    assert |x| == |u|;
    assert x == s[..|x|] && u == t[..|u|];
    assert y == s[|x| + 1..] && v == t[|u| + 1..];
  }

  /** A key determines tenant, incident and action, although tenants may contain the separator. */
  lemma KeyInjective(a: Slot, b: Slot)
    requires ColonFree(a.incident) && ColonFree(a.action) && ColonFree(b.incident) && ColonFree(b.action)
    requires Key(a) == Key(b)
    ensures a == b
  {
    LastColon(a.tenant + ":" + a.incident, a.action, b.tenant + ":" + b.incident, b.action);
    LastColon(a.tenant, a.incident, b.tenant, b.incident);
  }

  predicate CleanSlot(slot: Slot) {
    ColonFree(slot.incident) && ColonFree(slot.action)
  }

  /** The lookup by tenant and key, the unique key and the slot are one and the same question. */
  lemma RecordedIff(executions: seq<Execution>, slot: Slot)
    requires ExecutionsOk(executions) && CleanSlot(slot)
    ensures First(executions, Response.Recorded(slot)).Some? <==> Performed(executions, slot)
    ensures KeyTaken(executions, Key(slot)) <==> Performed(executions, slot)
  {
    var found := First(executions, Response.Recorded(slot));
    if KeyTaken(executions, Key(slot)) {
      var e :| e in executions && e.key == Key(slot);
      var n :| 0 <= n < |executions| && executions[n] == e;
      KeyInjective(e.slot, slot);
      assert Response.Recorded(slot)(executions[n]);
    }
    if found.Some? {
      assert Response.Recorded(slot)(executions[found.value]);
      assert executions[found.value] in executions;
    }
  }

  // ---- Steps on the approval table --------------------------------------------------------------------

  lemma HeldIff(approvals: seq<Approval>, slot: Slot, standing: Standing)
    ensures Held(approvals, slot, standing)
            <==> exists m :: 0 <= m < |approvals| && approvals[m].slot == slot && approvals[m].standing == standing
  {
  }

  lemma RestandKeepsUnique(approvals: seq<Approval>, m: nat, a: Approval)
    requires OnePerStanding(approvals) && m < |approvals|
    requires a.slot == approvals[m].slot && !Held(approvals, a.slot, a.standing)
    ensures OnePerStanding(approvals[m := a])
  {
  }

  lemma AskKeepsUnique(approvals: seq<Approval>, a: Approval)
    requires OnePerStanding(approvals) && !Held(approvals, a.slot, a.standing)
    ensures OnePerStanding(approvals + [a])
  {
  }

  lemma AskKeepsInv(cfg: Settings, d: Desk, slot: Slot, user: string)
    requires ResponseInv(cfg, d)
    ensures ResponseInv(cfg, RequestApproval(d, slot, user).0)
  {
    var e := RequestApproval(d, slot, user).0;
    if e != d {
      AskKeepsUnique(d.approvals, Approval(slot, user, None, Requested, None));
      forall n | 0 <= n < |e.audit| ensures AuditOk(cfg, e.approvals, e.audit[n]) {
        assert AuditOk(cfg, d.approvals, d.audit[n]);
      }
      CallsKept(d, e);
      forall m | 0 <= m < |e.approvals| ensures ApprovalOk(e, e.approvals[m]) {
        if m < |d.approvals| {
          assert ApprovalOk(d, d.approvals[m]);
        }
      }
    }
  }

  lemma CallsKept(d: Desk, e: Desk)
    requires e.calls == d.calls && e.executions == d.executions && forall key :: CallsOk(d, key)
    ensures forall key :: CallsOk(e, key)
  {
    forall key ensures CallsOk(e, key) {
      assert CallsOk(d, key);
    }
  }

  lemma ClockKeepsInv(cfg: Settings, d: Desk, now: int)
    requires ResponseInv(cfg, d) && d.clock <= now
    ensures ResponseInv(cfg, d.(clock := now))
  {
    var e := d.(clock := now);
    CallsKept(d, e);
    forall m | 0 <= m < |e.approvals| ensures ApprovalOk(e, e.approvals[m]) {
      assert ApprovalOk(d, d.approvals[m]);
    }
  }

  /** Changing one approval that no execution has used yet. */
  lemma RestandKeepsInv(cfg: Settings, d: Desk, m: nat, a: Approval)
    requires ResponseInv(cfg, d) && m < |d.approvals| && d.approvals[m].standing != Consumed
    requires a.slot == d.approvals[m].slot && !Held(d.approvals, a.slot, a.standing)
    requires ApprovalOk(d, a)
    ensures ResponseInv(cfg, d.(approvals := d.approvals[m := a]))
  {
    var e := d.(approvals := d.approvals[m := a]);
    RestandKeepsUnique(d.approvals, m, a);
    CallsKept(d, e);
    forall n | 0 <= n < |e.audit| ensures AuditOk(cfg, e.approvals, e.audit[n]) {
      assert AuditOk(cfg, d.approvals, d.audit[n]);
    }
    forall k | 0 <= k < |e.approvals| ensures ApprovalOk(e, e.approvals[k]) {
      assert ApprovalOk(d, d.approvals[k]);
    }
  }

  lemma DecideKeepsInv(cfg: Settings, d: Desk, m: nat, tenant: string, user: string, now: int)
    requires ResponseInv(cfg, d) && d.clock == now
    ensures ResponseInv(cfg, Approve(d, m, tenant, user, now).0)
  {
    if Approve(d, m, tenant, user, now).1 == Accepted {
      var a := d.approvals[m];
      RestandKeepsInv(cfg, d, m, a.(standing := Approved, approvedBy := Some(user), decidedAt := Some(now)));
    }
  }

  // ---- Connector calls -------------------------------------------------------------------------------

  lemma SuccessesSnoc(calls: seq<ConnectorCall>, call: ConnectorCall, key: string)
    ensures Successes(calls + [call], key)
            == Successes(calls, key) + if call.key == key && call.succeeded then 1 else 0
  {
  }

  /** A call that fails changes no count. */
  lemma FailedCallKeepsInv(cfg: Settings, d: Desk, key: string)
    requires ResponseInv(cfg, d)
    ensures ResponseInv(cfg, d.(calls := d.calls + [ConnectorCall(key, false)]))
  {
    var e := d.(calls := d.calls + [ConnectorCall(key, false)]);
    forall k ensures CallsOk(e, k) {
      assert CallsOk(d, k);
      SuccessesSnoc(d.calls, ConnectorCall(key, false), k);
    }
    forall m | 0 <= m < |e.approvals| ensures ApprovalOk(e, e.approvals[m]) {
      assert ApprovalOk(d, d.approvals[m]);
    }
  }

  /** A successful first call and its row. */
  lemma RecordedCallKeepsInv(cfg: Settings, d: Desk, slot: Slot)
    requires ResponseInv(cfg, d) && CleanSlot(slot) && !KeyTaken(d.executions, Key(slot))
    ensures ResponseInv(cfg, d.(calls := d.calls + [ConnectorCall(Key(slot), true)],
                                executions := d.executions + [Execution(slot, Key(slot))]))
  {
    var e := d.(calls := d.calls + [ConnectorCall(Key(slot), true)],
                executions := d.executions + [Execution(slot, Key(slot))]);
    forall k ensures CallsOk(e, k) {
      assert CallsOk(d, k);
      SuccessesSnoc(d.calls, ConnectorCall(Key(slot), true), k);
      TakenSnoc(d.executions, Execution(slot, Key(slot)), k);
    }
    forall n | 0 <= n < |d.executions| ensures d.executions[n].key != Key(slot) {
      assert d.executions[n] in d.executions;
    }
    forall m | 0 <= m < |e.approvals| ensures ApprovalOk(e, e.approvals[m]) {
      assert ApprovalOk(d, d.approvals[m]);
      PerformedSnoc(d.executions, Execution(slot, Key(slot)), e.approvals[m].slot);
    }
  }

  lemma TakenSnoc(executions: seq<Execution>, e: Execution, key: string)
    ensures KeyTaken(executions + [e], key) <==> KeyTaken(executions, key) || e.key == key
  {
  }

  lemma PerformedSnoc(executions: seq<Execution>, e: Execution, slot: Slot)
    ensures Performed(executions, slot) || e == Execution(slot, Key(slot)) ==> Performed(executions + [e], slot)
  {
    assert e in executions + [e];
    assert forall x :: x in executions ==> x in executions + [e];
  }

  // ---- The commit of an execution ----------------------------------------------------------------------

  /** Using up an approval and writing the audit row. */
  lemma CommitKeepsInv(cfg: Settings, d: Desk, e: Desk, row: AuditRow)
    requires ResponseInv(cfg, d)
    requires e == d.(cases := e.cases, audit := d.audit + [row],
                     approvals := match row.approval
                                  case None => d.approvals
                                  case Some(m) =>
                                    if m < |d.approvals| then d.approvals[m := d.approvals[m].(standing := Consumed)]
                                    else d.approvals)
    requires d.clock <= row.checked <= row.at
    requires row.approval == None ==> !HighImpact(cfg, row.slot.action)
    requires row.approval.Some? ==>
               var m := row.approval.value;
               && m < |d.approvals| && d.approvals[m].slot == row.slot && d.approvals[m].standing == Approved
               && !Stale(cfg, d.approvals[m], row.checked) && !Held(d.approvals, row.slot, Consumed)
               && Performed(d.executions, row.slot)
    ensures ResponseInv(cfg, e)
  {
    var f := d.(approvals := e.approvals);
    if row.approval.Some? {
      var m := row.approval.value;
      assert ApprovalOk(d, d.approvals[m]);
      RestandKeepsInv(cfg, d, m, d.approvals[m].(standing := Consumed));
    }
    assert ResponseInv(cfg, f);
    CallsKept(f, e);
    forall k | 0 <= k < |e.approvals| ensures ApprovalOk(e, e.approvals[k]) {
      assert ApprovalOk(f, f.approvals[k]);
    }
    assert AuditOk(cfg, e.approvals, row);
    forall n | 0 <= n < |e.audit| ensures AuditOk(cfg, e.approvals, e.audit[n]) {
      if n < |d.audit| {
        assert AuditOk(cfg, f.approvals, d.audit[n]);
      }
    }
    NewUse(cfg, d, row);
  }

  /** No earlier execution has used the approval: it was not consumed. */
  lemma NewUse(cfg: Settings, d: Desk, row: AuditRow)
    requires ResponseInv(cfg, d)
    requires row.approval.Some? ==>
               row.approval.value < |d.approvals| && d.approvals[row.approval.value].standing != Consumed
    ensures SingleUse(d.audit + [row])
  {
  }

  // ---- Execution, branch by branch ---------------------------------------------------------------------

  function SlotOf(d: Desk, k: nat, n: nat): Slot
    requires k < |d.cases.incidents| && n < |d.cases.incidents[k].actions|
  {
    Slot(d.cases.incidents[k].tenant, d.cases.incidents[k].id, d.cases.incidents[k].actions[n].action)
  }

  /** What `_require_approval` hands on: nothing needed, or a decided and still valid approval. */
  ghost predicate Authorised(cfg: Settings, d: Desk, slot: Slot, approval: Option<nat>, now: int) {
    match approval
    case None => !HighImpact(cfg, slot.action)
    case Some(m) =>
      && m < |d.approvals| && d.approvals[m].slot == slot && d.approvals[m].standing == Approved
      && !Stale(cfg, d.approvals[m], now)
  }

  lemma ActionsAreClean(h: Hashes, c: Cases, k: nat, n: nat)
    requires CasesInv(h, c) && k < |c.incidents| && n < |c.incidents[k].actions|
    ensures ColonFree(c.incidents[k].id) && ColonFree(c.incidents[k].actions[n].action)
    ensures c.incidents[k].actions[n].points == Reduction(c.incidents[k].actions[n].action)
  {
    assert IncidentInv(c, c.incidents[k]);
    TemplateActions(c.incidents[k].kind);
  }

  lemma PerformKeepsInv(cfg: Settings, h: Hashes, d: Desk, k: nat, n: nat, approval: Option<nat>, req: Request,
                        now: int)
    requires CasesInv(h, d.cases) && ResponseInv(cfg, d)
    requires k < |d.cases.incidents| && n < |d.cases.incidents[k].actions|
    requires Authorised(cfg, d, SlotOf(d, k, n), approval, now) && d.clock <= now
    ensures ResponseInv(cfg, Perform(d, k, n, approval, req, now).0)
  {
    var slot := SlotOf(d, k, n);
    ActionsAreClean(h, d.cases, k, n);
    RecordedIff(d.executions, slot);
    var done := First(d.executions, Response.Recorded(slot));
    if done.Some? {
      if Perform(d, k, n, approval, req, now).1 == Accepted {
        RepeatKeepsInv(cfg, d, k, n, approval, req, now);
      }
    } else if req.connectorWorks {
      NotConsumedBefore(cfg, d, slot);
      FirstPerformKeepsInv(cfg, d, k, n, approval, req, now);
    } else {
      FailedCallKeepsInv(cfg, d, Key(slot));
    }
  }

  /** A recorded slot is executed again without another call. */
  lemma RepeatKeepsInv(cfg: Settings, d: Desk, k: nat, n: nat, approval: Option<nat>, req: Request, now: int)
    requires ResponseInv(cfg, d) && k < |d.cases.incidents| && n < |d.cases.incidents[k].actions|
    requires Authorised(cfg, d, SlotOf(d, k, n), approval, now) && d.clock <= now
    requires Performed(d.executions, SlotOf(d, k, n))
    requires approval.Some? ==> !Held(d.approvals, SlotOf(d, k, n), Consumed)
    ensures ResponseInv(cfg, Commit(d, k, n, approval, req, now))
  {
    CommitKeepsInv(cfg, d, Commit(d, k, n, approval, req, now),
                   AuditRow(SlotOf(d, k, n), now, now + req.delay, approval));
  }

  /** Without an execution row there is no used approval either. */
  lemma NotConsumedBefore(cfg: Settings, d: Desk, slot: Slot)
    requires ResponseInv(cfg, d) && !Performed(d.executions, slot)
    ensures !Held(d.approvals, slot, Consumed)
  {
  }

  lemma FirstPerformKeepsInv(cfg: Settings, d: Desk, k: nat, n: nat, approval: Option<nat>, req: Request, now: int)
    requires ResponseInv(cfg, d) && k < |d.cases.incidents| && n < |d.cases.incidents[k].actions|
    requires Authorised(cfg, d, SlotOf(d, k, n), approval, now) && CleanSlot(SlotOf(d, k, n)) && d.clock <= now
    requires !KeyTaken(d.executions, Key(SlotOf(d, k, n))) && !Held(d.approvals, SlotOf(d, k, n), Consumed)
    ensures var slot := SlotOf(d, k, n);
            var called := d.(calls := d.calls + [ConnectorCall(Key(slot), true)],
                             executions := d.executions + [Execution(slot, Key(slot))]);
            ResponseInv(cfg, Commit(called, k, n, approval, req, now))
  {
    var slot := SlotOf(d, k, n);
    var called := d.(calls := d.calls + [ConnectorCall(Key(slot), true)],
                     executions := d.executions + [Execution(slot, Key(slot))]);
    RecordedCallKeepsInv(cfg, d, slot);
    PerformedSnoc(d.executions, Execution(slot, Key(slot)), slot);
    CommitKeepsInv(cfg, called, Commit(called, k, n, approval, req, now),
                   AuditRow(slot, now, now + req.delay, approval));
  }

  lemma AuthoriseKeepsInv(cfg: Settings, h: Hashes, d: Desk, k: nat, n: nat, req: Request, now: int)
    requires CasesInv(h, d.cases) && ResponseInv(cfg, d)
    requires k < |d.cases.incidents| && n < |d.cases.incidents[k].actions| && d.clock <= now
    ensures ResponseInv(cfg, Authorise(cfg, d, k, n, req, now).0)
  {
    var slot := SlotOf(d, k, n);
    ActionsAreClean(h, d.cases, k, n);
    if !ApprovalNeeded(cfg, d.cases.incidents[k].actions[n]) {
      PerformKeepsInv(cfg, h, d, k, n, None, req, now);
    } else {
      var found := First(d.approvals, InStanding(slot, Approved));
      if found.Some? {
        assert InStanding(slot, Approved)(d.approvals[found.value]);
        assert ApprovalOk(d, d.approvals[found.value]);
        if !Stale(cfg, d.approvals[found.value], now) {
          PerformKeepsInv(cfg, h, d, k, n, found, req, now);
        } else if !Held(d.approvals, slot, Expired) {
          RestandKeepsInv(cfg, d, found.value, d.approvals[found.value].(standing := Expired));
        }
      }
    }
  }

  lemma ExecuteKeepsInv(cfg: Settings, h: Hashes, d: Desk, req: Request, now: int)
    requires CasesInv(h, d.cases) && ResponseInv(cfg, d) && d.clock <= now
    ensures ResponseInv(cfg, Execute(cfg, d, req, now).0)
  {
    var k := First(d.cases.incidents, WithId(req.tenant, req.incident));
    if k.Some? {
      var n := First(d.cases.incidents[k.value].actions, Named(req.action));
      if n.Some? && d.cases.incidents[k.value].actions[n.value].status != Executed {
        AuthoriseKeepsInv(cfg, h, d, k.value, n.value, req, now);
      }
    }
  }

  // ---- The incident table ------------------------------------------------------------------------------

  /** A change that leaves the evidence of an incident and its score alone. */
  predicate SameEvidence(i: Incident, j: Incident) {
    && j.id == i.id && j.tenant == i.tenant && j.fingerprint == i.fingerprint && j.kind == i.kind
    && j.breakdown == i.breakdown && j.risk == i.risk && j.severity == i.severity && j.eventIds == i.eventIds
  }

  lemma ReplaceKeepsInv(h: Hashes, c: Cases, d: Cases, k: nat, j: Incident)
    requires CasesInv(h, c) && k < |c.incidents| && d == c.(incidents := c.incidents[k := j], history := d.history)
    requires SameEvidence(c.incidents[k], j) && Derived(j) && Recommended(j)
    ensures CasesInv(h, d)
  {
    forall n | 0 <= n < |d.incidents| ensures IncidentInv(d, d.incidents[n]) {
      assert IncidentInv(c, c.incidents[n]);
      if n != k {
        IncidentInvKept(c, d, c.incidents[n]);
      } else {
        assert CurrentFindings(d, j) == CurrentFindings(c, c.incidents[k]);
        assert CurrentEvents(d, j) == CurrentEvents(c, c.incidents[k]);
      }
    }
  }

  lemma RespondedIsDerived(c: Cases, i: Incident, n: nat, analyst: string, now: int)
    requires Derived(i) && Recommended(i) && n < |i.actions|
    ensures var j := Responded(c, i, n, analyst, now); SameEvidence(i, j) && Derived(j) && Recommended(j)
  {
  }

  /** The incidents after `execute`: as before, or one of them with one more executed action. */
  ghost predicate OneResponse(c: Cases, d: Cases, req: Request, now: int) {
    || d == c
    || exists k: nat, n: nat ::
         && k < |c.incidents| && n < |c.incidents[k].actions| && c.incidents[k].actions[n].status == Pending
         && WithId(req.tenant, req.incident)(c.incidents[k]) && Named(req.action)(c.incidents[k].actions[n])
         && d == RespondedCases(c, k, n, req, now)
  }

  lemma ExecuteChangesOneIncident(cfg: Settings, d: Desk, req: Request, now: int)
    ensures OneResponse(d.cases, Execute(cfg, d, req, now).0.cases, req, now)
  {
    var e := Execute(cfg, d, req, now).0;
    var found := First(d.cases.incidents, WithId(req.tenant, req.incident));
    if found.Some? {
      var k := found.value;
      var which := First(d.cases.incidents[k].actions, Named(req.action));
      if which.Some? && d.cases.incidents[k].actions[which.value].status != Executed {
        AuthoriseChangesOne(cfg, d, k, which.value, req, now);
      }
    }
  }

  lemma AuthoriseChangesOne(cfg: Settings, d: Desk, k: nat, n: nat, req: Request, now: int)
    requires k < |d.cases.incidents| && n < |d.cases.incidents[k].actions|
    ensures var c, e := d.cases, Authorise(cfg, d, k, n, req, now).0.cases;
            e == c || e == RespondedCases(c, k, n, req, now)
  {
  }

  /** The incident and the action an execution has changed, if it has changed anything. */
  lemma ResponseWitness(c: Cases, e: Cases, req: Request, now: int) returns (k: nat, n: nat)
    requires OneResponse(c, e, req, now) && e != c
    ensures k < |c.incidents| && n < |c.incidents[k].actions| && e == RespondedCases(c, k, n, req, now)
  {
    k, n :| k < |c.incidents| && n < |c.incidents[k].actions| && c.incidents[k].actions[n].status == Pending
            && WithId(req.tenant, req.incident)(c.incidents[k]) && Named(req.action)(c.incidents[k].actions[n])
            && e == RespondedCases(c, k, n, req, now);
  }

  lemma RespondedAt(c: Cases, k: nat, n: nat, req: Request, now: int)
    requires k < |c.incidents| && n < |c.incidents[k].actions|
    requires Derived(c.incidents[k]) && Recommended(c.incidents[k])
    ensures var d := RespondedCases(c, k, n, req, now);
            && |d.incidents| == |c.incidents|
            && d == c.(incidents := c.incidents[k := d.incidents[k]], history := d.history)
            && SameEvidence(c.incidents[k], d.incidents[k]) && Derived(d.incidents[k]) && Recommended(d.incidents[k])
  {
    RespondedIsDerived(c, c.incidents[k], n, req.analyst, now + req.delay);
    RespondedRow(c, k, n, req, now);
  }

  lemma RespondedRow(c: Cases, k: nat, n: nat, req: Request, now: int)
    requires k < |c.incidents| && n < |c.incidents[k].actions|
    ensures var d := RespondedCases(c, k, n, req, now);
            && |d.incidents| == |c.incidents|
            && d.incidents[k] == Responded(c, c.incidents[k], n, req.analyst, now + req.delay)
            && d == c.(incidents := c.incidents[k := d.incidents[k]], history := d.history)
  {
  }

  lemma ResponseKeepsCases(h: Hashes, c: Cases, k: nat, n: nat, req: Request, now: int)
    requires CasesInv(h, c) && k < |c.incidents| && n < |c.incidents[k].actions|
    ensures CasesInv(h, RespondedCases(c, k, n, req, now))
  {
    assert IncidentInv(c, c.incidents[k]);
    RespondedAt(c, k, n, req, now);
    var d := RespondedCases(c, k, n, req, now);
    ReplaceKeepsInv(h, c, d, k, d.incidents[k]);
  }

  lemma RespondKeepsCases(cfg: Settings, h: Hashes, d: Desk, req: Request, now: int)
    requires CasesInv(h, d.cases)
    ensures CasesInv(h, Execute(cfg, d, req, now).0.cases)
  {
    var c, e := d.cases, Execute(cfg, d, req, now).0.cases;
    ExecuteChangesOneIncident(cfg, d, req, now);
    if e != c {
      var k, n := ResponseWitness(c, e, req, now);
      ResponseKeepsCases(h, c, k, n, req, now);
    }
  }

  lemma MoveKeepsCases(h: Hashes, d: Desk, tenant: string, id: string, target: Status, now: int)
    requires CasesInv(h, d.cases)
    ensures CasesInv(h, UpdateIncident(d, tenant, id, target, now).0.cases)
  {
    var c, e := d.cases, UpdateIncident(d, tenant, id, target, now).0.cases;
    var found := First(c.incidents, WithId(tenant, id));
    if e != c {
      assert IncidentInv(c, c.incidents[found.value]);
      ReplaceKeepsInv(h, c, e, found.value, Moved(c.incidents[found.value], target, now));
    }
  }

  lemma BatchKeepsCases(cfg: Settings, h: Hashes, c: Cases, rows: seq<Event>, records: seq<Finding>,
                        groups: seq<seq<Event>>, newIds: nat -> string)
    requires 0 < cfg.maxIncidentSpanMinutes && CasesInv(h, c) && UniqueIds(c.rows + rows)
    requires Ready(Ingested(c, rows, records), groups, newIds)
    ensures CasesInv(h, Processed(cfg, h, c, rows, records, groups, newIds))
  {
    var d := Ingested(c, rows, records);
    IngestKeepsCases(h, c, rows, records);
    if CorrelateBatch(cfg, h, d, groups, newIds).Some? {
      BatchEffect(cfg, h, d, groups, newIds);
    }
  }

  // ---- Runs ----------------------------------------------------------------------------------------------

  /** Every step of every handler keeps the invariants of incidents and responses. */
  lemma StepKeepsInv(cfg: Settings, h: Hashes, d: Desk, step: Step)
    requires 0 < cfg.maxIncidentSpanMinutes && DeskInv(cfg, h, d) && Enabled(d, step)
    ensures DeskInv(cfg, h, Apply(cfg, h, d, step))
  {
    match step {
      case Batch(rows, records, groups, newIds) =>
        BatchKeepsCases(cfg, h, d.cases, rows, records, groups, newIds);
        OtherCases(cfg, d, Apply(cfg, h, d, step));
      case Ask(slot, user) => AskKeepsInv(cfg, d, slot, user);
      case Decide(m, tenant, user, now) =>
        ClockKeepsInv(cfg, d, now);
        DecideKeepsInv(cfg, d.(clock := now), m, tenant, user, now);
      case Respond(req, now) =>
        ClockKeepsInv(cfg, d, now);
        ExecuteKeepsInv(cfg, h, d.(clock := now), req, now);
        RespondKeepsCases(cfg, h, d.(clock := now), req, now);
      case Move(tenant, id, target, now) =>
        ClockKeepsInv(cfg, d, now);
        MoveKeepsCases(h, d.(clock := now), tenant, id, target, now);
        OtherCases(cfg, d.(clock := now), Apply(cfg, h, d, step));
    }
  }

  /** Approvals, executions and audit do not read the incident tables. */
  lemma OtherCases(cfg: Settings, d: Desk, e: Desk)
    requires ResponseInv(cfg, d) && e == d.(cases := e.cases)
    ensures ResponseInv(cfg, e)
  {
    CallsKept(d, e);
    forall m | 0 <= m < |e.approvals| ensures ApprovalOk(e, e.approvals[m]) {
      assert ApprovalOk(d, d.approvals[m]);
    }
  }

  lemma {:induction false} RunKeepsInv(cfg: Settings, h: Hashes, d: Desk, steps: seq<Step>, e: Desk)
    requires 0 < cfg.maxIncidentSpanMinutes && DeskInv(cfg, h, d) && IsRun(cfg, h, d, steps, e)
    ensures DeskInv(cfg, h, e)
    decreases |steps|
  {
    if steps == [] {
    } else {
      StepKeepsInv(cfg, h, d, steps[0]);
      RunKeepsInv(cfg, h, Apply(cfg, h, d, steps[0]), steps[1..], e);
    }
  }

  lemma NothingInv(cfg: Settings, h: Hashes)
    ensures DeskInv(cfg, h, NOTHING)
  {
  }
}
