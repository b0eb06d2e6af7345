/**
 What the handlers answer and write, told from the tables they meet
 (backend/app/platform_api.py, lines 86-161, backend/app/services/response_actions.py, lines 35-159,
 and backend/app/main.py, lines 357-397).
 */
module Answers {
  import opened Base
  import opened Config
  import opened Detection
  import opened Playbook
  import opened Risk
  import opened Incidents
  import opened IncidentLaws
  import opened Transactions
  import opened Response
  import opened Workflow
  import opened WorkflowLaws
  import opened Continuations

  // ---- Approvals -----------------------------------------------------------------------------------

  /** Row `m` is an approval of the slot in that standing. */
  predicate At(approvals: seq<Approval>, m: nat, slot: Slot, standing: Standing) {
    m < |approvals| && approvals[m].slot == slot && approvals[m].standing == standing
  }

  predicate Has(approvals: seq<Approval>, slot: Slot, standing: Standing) {
    exists m :: 0 <= m < |approvals| && At(approvals, m, slot, standing)
  }

  lemma HasIff(approvals: seq<Approval>, slot: Slot, standing: Standing)
    ensures Has(approvals, slot, standing) <==> Held(approvals, slot, standing)
  {
    HeldIff(approvals, slot, standing);
    if m :| 0 <= m < |approvals| && approvals[m].slot == slot && approvals[m].standing == standing {
      assert At(approvals, m, slot, standing);
    }
    if m :| 0 <= m < |approvals| && At(approvals, m, slot, standing) {
      assert approvals[m].slot == slot && approvals[m].standing == standing;
    }
  }

  predicate HasAt(incidents: seq<Incident>, k: nat, tenant: string, id: string) {
    k < |incidents| && incidents[k].tenant == tenant && incidents[k].id == id
  }

  /** The tenant has the incident. */
  predicate Knows(incidents: seq<Incident>, tenant: string, id: string) {
    exists k :: 0 <= k < |incidents| && HasAt(incidents, k, tenant, id)
  }

  lemma KnowsIff(incidents: seq<Incident>, tenant: string, id: string)
    ensures Knows(incidents, tenant, id) <==> First(incidents, WithId(tenant, id)).Some?
  {
    var found := First(incidents, WithId(tenant, id));
    if found.Some? {
      assert HasAt(incidents, found.value, tenant, id);
    }
    if k :| 0 <= k < |incidents| && HasAt(incidents, k, tenant, id) {
      assert WithId(tenant, id)(incidents[k]);
    }
  }

  /** A request reuses the one that waits, and is refused for an incident the tenant does not have. */
  lemma RequestAnswers(d: Desk, slot: Slot, user: string)
    ensures var (e, answer) := RequestApproval(d, slot, user);
            && answer == (if Knows(d.cases.incidents, slot.tenant, slot.incident) then Accepted else NotFound)
            && e == d.(approvals := e.approvals)
            && e.approvals == d.approvals
                  + if answer == Accepted && !Has(d.approvals, slot, Requested)
                    then [Approval(slot, user, None, Requested, None)] else []
  {
    KnowsIff(d.cases.incidents, slot.tenant, slot.incident);
    HasIff(d.approvals, slot, Requested);
    assert d.approvals + [] == d.approvals;
  }

  /**
   Only an approval of the caller's tenant can be approved: by somebody other than the requester, while it
   waits, and while the slot has no other that stands. Everything else leaves the tables as they were.
   */
  lemma ApproveAnswers(d: Desk, m: nat, tenant: string, user: string, now: int)
    ensures var (e, answer) := Approve(d, m, tenant, user, now);
            && (answer == NotFound <==> m >= |d.approvals| || d.approvals[m].slot.tenant != tenant)
            && (answer != NotFound ==>
                  var a := d.approvals[m];
                  && (answer == Refused <==> a.requestedBy == user || a.standing != Requested)
                  && (answer == ConstraintViolated <==>
                        a.requestedBy != user && a.standing == Requested && Has(d.approvals, a.slot, Approved))
                  && (answer == Accepted <==>
                        a.requestedBy != user && a.standing == Requested && !Has(d.approvals, a.slot, Approved)))
            && e == d.(approvals := e.approvals)
            && (answer != Accepted ==> e == d)
            && (answer == Accepted ==>
                  e.approvals == d.approvals[m := Approval(d.approvals[m].slot, d.approvals[m].requestedBy, Some(user),
                                                           Approved, Some(now))])
  {
    if m < |d.approvals| {
      HasIff(d.approvals, d.approvals[m].slot, Approved);
    }
  }

  // ---- Status changes --------------------------------------------------------------------------------

  /** CONTAINED cannot be set by hand; a status may be set again or moved forward along three edges. */
  predicate MayMove(from: Status, to: Status) {
    && to != Contained
    && (|| to == from || (from == New && to == Investigating)
        || (from == Investigating && to == Resolved) || (from == Contained && to == Resolved))
  }

  /** The answer and the tables after a change of incident `k` to `target`. */
  ghost predicate UpdateDone(d: Desk, e: Desk, answer: Answer, k: nat, target: Status, now: int)
    requires k < |d.cases.incidents|
  {
    var i, started := d.cases.incidents[k], target == Investigating;
    && answer == (if MayMove(i.status, target) then Accepted else Refused)
    && e == if answer == Refused then d
            else
              d.(cases := d.cases.(incidents := d.cases.incidents[k :=
                   i.(status := target,
                      assignedTo := if started then Some("analyst@demo") else i.assignedTo,
                      triagedAt := if started && i.triagedAt == None then Some(now) else i.triagedAt)]))
  }

  lemma UpdateOne(h: Hashes, d: Desk, k: nat, target: Status, now: int)
    requires CasesInv(h, d.cases) && k < |d.cases.incidents|
    ensures var i := d.cases.incidents[k];
            var (e, answer) := UpdateIncident(d, i.tenant, i.id, target, now);
            UpdateDone(d, e, answer, k, target, now)
  {
    FindsIncident(h, d.cases, k);
  }

  /** Only an incident of the caller's tenant changes, as far as its status allows. */
  lemma UpdateAnswers(h: Hashes, d: Desk, tenant: string, id: string, target: Status, now: int)
    requires CasesInv(h, d.cases)
    ensures var (e, answer) := UpdateIncident(d, tenant, id, target, now);
            && (!Knows(d.cases.incidents, tenant, id) ==> answer == NotFound && e == d)
            && (forall k: nat :: HasAt(d.cases.incidents, k, tenant, id) ==> UpdateDone(d, e, answer, k, target, now))
  {
    KnowsIff(d.cases.incidents, tenant, id);
    forall k: nat | HasAt(d.cases.incidents, k, tenant, id)
      ensures var (e, answer) := UpdateIncident(d, tenant, id, target, now);
              UpdateDone(d, e, answer, k, target, now)
    {
      UpdateOne(h, d, k, target, now);
    }
  }

  // ---- Executions ------------------------------------------------------------------------------------

  /** The request names action `n` of incident `k`. */
  ghost predicate Names(d: Desk, req: Request, k: nat, n: nat) {
    && HasAt(d.cases.incidents, k, req.tenant, req.incident) && n < |d.cases.incidents[k].actions|
    && Lower(d.cases.incidents[k].actions[n].action) == Lower(req.action)
  }

  /** And the action waits. */
  ghost predicate Waits(d: Desk, req: Request, k: nat, n: nat) {
    Names(d, req, k, n) && d.cases.incidents[k].actions[n].status == Pending
  }

  lemma {:induction false} FirstSame<T>(s: seq<T>, p: T -> bool, q: T -> bool)
    requires forall x :: x in s ==> p(x) == q(x)
    ensures First(s, p) == First(s, q)
  {
    if s == [] {
    } else {
      var n := |s| - 1;
      assert s == s[..n] + [s[n]];
      FirstSame(s[..n], p, q);
    }
  }

  lemma FindsNamed(h: Hashes, d: Desk, req: Request, k: nat, n: nat)
    requires CasesInv(h, d.cases) && Names(d, req, k, n)
    ensures First(d.cases.incidents, WithId(req.tenant, req.incident)) == Some(k)
    ensures First(d.cases.incidents[k].actions, Named(req.action)) == Some(n)
  {
    FindsIncident(h, d.cases, k);
    FindsAction(h, d.cases, k, n);
    FirstSame(d.cases.incidents[k].actions, Named(d.cases.incidents[k].actions[n].action), Named(req.action));
  }

  /** What the request names decides what happens. */
  lemma ExecuteIs(cfg: Settings, h: Hashes, d: Desk, req: Request, now: int, k: nat, n: nat)
    requires CasesInv(h, d.cases) && Names(d, req, k, n)
    ensures Execute(cfg, d, req, now)
            == if d.cases.incidents[k].actions[n].status == Executed then (d, Refused)
               else Authorise(cfg, d, k, n, req, now)
  {
    FindsNamed(h, d, req, k, n);
  }

  lemma ExecuteNothing(cfg: Settings, d: Desk, req: Request, now: int)
    requires forall k: nat, n: nat :: !Names(d, req, k, n)
    ensures Execute(cfg, d, req, now)
            == (d, if Knows(d.cases.incidents, req.tenant, req.incident) then Refused else NotFound)
  {
    var found := First(d.cases.incidents, WithId(req.tenant, req.incident));
    KnowsIff(d.cases.incidents, req.tenant, req.incident);
    if found.Some? {
      var which := First(d.cases.incidents[found.value].actions, Named(req.action));
      assert which.Some? ==> Names(d, req, found.value, which.value);
    }
  }

  lemma AuthoriseAnswers(cfg: Settings, d: Desk, k: nat, n: nat, req: Request, now: int)
    requires k < |d.cases.incidents| && n < |d.cases.incidents[k].actions|
    ensures Authorise(cfg, d, k, n, req, now).1 != NotFound && Authorise(cfg, d, k, n, req, now).1 != Refused
  {
  }

  lemma NamesOne(h: Hashes, d: Desk, req: Request, k: nat, n: nat, l: nat, m: nat)
    requires CasesInv(h, d.cases) && Names(d, req, k, n) && Names(d, req, l, m)
    ensures l == k && m == n
  {
    FindsNamed(h, d, req, k, n);
    FindsNamed(h, d, req, l, m);
  }

  lemma NamedAnswers(cfg: Settings, h: Hashes, d: Desk, req: Request, now: int, k: nat, n: nat)
    requires CasesInv(h, d.cases) && Names(d, req, k, n)
    ensures Execute(cfg, d, req, now).1 != NotFound
    ensures Execute(cfg, d, req, now).1 == Refused <==> d.cases.incidents[k].actions[n].status == Executed
    ensures Execute(cfg, d, req, now).1 == Refused ==> Execute(cfg, d, req, now).0 == d
  {
    ExecuteIs(cfg, h, d, req, now, k, n);
    AuthoriseAnswers(cfg, d, k, n, req, now);
  }

  lemma WaitsIff(h: Hashes, d: Desk, req: Request, k: nat, n: nat)
    requires CasesInv(h, d.cases) && Names(d, req, k, n)
    ensures (exists l: nat, m: nat :: Waits(d, req, l, m)) <==> d.cases.incidents[k].actions[n].status == Pending
  {
    if d.cases.incidents[k].actions[n].status == Pending {
      assert Waits(d, req, k, n);
    }
    if l: nat, m: nat :| Waits(d, req, l, m) {
      NamesOne(h, d, req, k, n, l, m);
    }
  }

  /** Without such an incident, or such an action, or with one executed already, nothing happens. */
  lemma ExecuteRefuses(cfg: Settings, h: Hashes, d: Desk, req: Request, now: int)
    requires CasesInv(h, d.cases)
    ensures var (e, answer) := Execute(cfg, d, req, now);
            && (answer == NotFound <==> !Knows(d.cases.incidents, req.tenant, req.incident))
            && (answer == Refused <==>
                  Knows(d.cases.incidents, req.tenant, req.incident) && !exists k: nat, n: nat :: Waits(d, req, k, n))
            && (answer == NotFound || answer == Refused ==> e == d)
  {
    if k: nat, n: nat :| Names(d, req, k, n) {
      NamedAnswers(cfg, h, d, req, now, k, n);
      WaitsIff(h, d, req, k, n);
    } else {
      ExecuteNothing(cfg, d, req, now);
    }
  }

  predicate HighAction(cfg: Settings, a: Recommendation) {
    a.points >= 12 && cfg.authRequired
  }

  /** The decision on approval `m` is older than the time to live. */
  predicate Lapsed(cfg: Settings, approvals: seq<Approval>, m: nat, now: int)
    requires m < |approvals|
  {
    approvals[m].decidedAt.Some? ==> approvals[m].decidedAt.value < now - cfg.approvalTtlMinutes * 60 * 1_000_000
  }

  /** The slot's standing approval is in force. */
  ghost predicate InForce(cfg: Settings, approvals: seq<Approval>, m: nat, slot: Slot, now: int) {
    At(approvals, m, slot, Approved) && !Lapsed(cfg, approvals, m, now)
  }

  ghost predicate OutOfForce(cfg: Settings, approvals: seq<Approval>, m: nat, slot: Slot, now: int) {
    At(approvals, m, slot, Approved) && Lapsed(cfg, approvals, m, now)
  }

  /** The slot has been executed before. */
  predicate Done(executions: seq<Execution>, slot: Slot) {
    exists x :: x in executions && x.slot == slot
  }

  lemma DoneIff(executions: seq<Execution>, slot: Slot)
    requires ExecutionsOk(executions) && CleanSlot(slot)
    ensures Done(executions, slot) <==> Performed(executions, slot)
  {
    if x :| x in executions && x.slot == slot {
      var n :| 0 <= n < |executions| && executions[n] == x;
    }
  }

  /** The idempotency key. */
  function Label(slot: Slot): string {
    slot.tenant + ":" + slot.incident + ":" + slot.action
  }

  /** A failed call is remembered; an abort leaves nothing. */
  predicate Rejected(d: Desk, slot: Slot, e: Desk, answer: Answer) {
    && (answer == ConnectorFailed ==> e == d.(calls := d.calls + [ConnectorCall(Label(slot), false)]))
    && (answer == ConstraintViolated ==> e == d)
  }

  lemma PerformAnswers(cfg: Settings, h: Hashes, d: Desk, k: nat, n: nat, approval: Option<nat>, req: Request, now: int)
    requires CasesInv(h, d.cases) && ResponseInv(cfg, d)
    requires k < |d.cases.incidents| && n < |d.cases.incidents[k].actions|
    requires approval.Some? ==> approval.value < |d.approvals|
    ensures Perform(d, k, n, approval, req, now).1
            == (if approval.Some? && Has(d.approvals, SlotOf(d, k, n), Consumed) then ConstraintViolated
                else if Done(d.executions, SlotOf(d, k, n)) || req.connectorWorks then Accepted
                else ConnectorFailed)    ensures Rejected(d, SlotOf(d, k, n), Perform(d, k, n, approval, req, now).0,
                     Perform(d, k, n, approval, req, now).1)
  {
    var slot := SlotOf(d, k, n);
    ActionsAreClean(h, d.cases, k, n);
    DoneIff(d.executions, slot);
    RecordedIff(d.executions, slot);
    HasIff(d.approvals, slot, Consumed);
    if !Performed(d.executions, slot) {
      NotConsumedBefore(cfg, d, slot);
    }
  }

  /** An action of low impact, or without authentication, needs no approval. */
  lemma LowAnswers(cfg: Settings, h: Hashes, d: Desk, req: Request, now: int, k: nat, n: nat)
    requires CasesInv(h, d.cases) && ResponseInv(cfg, d) && Waits(d, req, k, n)
    requires !HighAction(cfg, d.cases.incidents[k].actions[n])
    ensures Execute(cfg, d, req, now) == Perform(d, k, n, None, req, now)
    ensures Execute(cfg, d, req, now).1
            == (if Done(d.executions, SlotOf(d, k, n)) || req.connectorWorks then Accepted else ConnectorFailed)
    ensures Rejected(d, SlotOf(d, k, n), Execute(cfg, d, req, now).0, Execute(cfg, d, req, now).1)
  {
    ExecuteIs(cfg, h, d, req, now, k, n);
    PerformAnswers(cfg, h, d, k, n, None, req, now);
  }

  /** One of high impact needs an approval of its slot that stands. */
  lemma NobodyApproved(cfg: Settings, h: Hashes, d: Desk, req: Request, now: int, k: nat, n: nat)
    requires CasesInv(h, d.cases) && ResponseInv(cfg, d) && Waits(d, req, k, n)
    requires HighAction(cfg, d.cases.incidents[k].actions[n]) && !Has(d.approvals, SlotOf(d, k, n), Approved)
    ensures Execute(cfg, d, req, now) == (d, NeedsApproval)
  {
    ExecuteIs(cfg, h, d, req, now, k, n);
    HasIff(d.approvals, SlotOf(d, k, n), Approved);
  }

  lemma FindsApproved(approvals: seq<Approval>, m: nat, slot: Slot)
    requires OnePerStanding(approvals) && At(approvals, m, slot, Approved)
    ensures First(approvals, InStanding(slot, Approved)) == Some(m)
  {
    OnlyApproved(approvals, m);
  }

  lemma AuthoriseStanding(cfg: Settings, d: Desk, k: nat, n: nat, req: Request, now: int, m: nat)
    requires OnePerStanding(d.approvals) && k < |d.cases.incidents| && n < |d.cases.incidents[k].actions|
    requires HighAction(cfg, d.cases.incidents[k].actions[n]) && At(d.approvals, m, SlotOf(d, k, n), Approved)
    ensures Authorise(cfg, d, k, n, req, now)
            == if !Lapsed(cfg, d.approvals, m, now) then Perform(d, k, n, Some(m), req, now)
               else if Held(d.approvals, SlotOf(d, k, n), Expired) then (d, ConstraintViolated)
               else (SetStanding(d, m, Expired), ApprovalExpired)
  {
    FindsApproved(d.approvals, m, SlotOf(d, k, n));
    assert cfg.approvalTtlMinutes * MINUTE == cfg.approvalTtlMinutes * 60 * 1_000_000;
  }

  /** One that has lapsed is marked, unless the slot has an expired one already. */
  lemma LapsedAnswers(cfg: Settings, h: Hashes, d: Desk, req: Request, now: int, k: nat, n: nat, m: nat)
    requires CasesInv(h, d.cases) && ResponseInv(cfg, d) && Waits(d, req, k, n)
    requires HighAction(cfg, d.cases.incidents[k].actions[n])
    requires OutOfForce(cfg, d.approvals, m, SlotOf(d, k, n), now)
    ensures Execute(cfg, d, req, now)
            == if Has(d.approvals, SlotOf(d, k, n), Expired) then (d, ConstraintViolated)
               else (d.(approvals := d.approvals[m := d.approvals[m].(standing := Expired)]), ApprovalExpired)
  {
    ExecuteIs(cfg, h, d, req, now, k, n);
    AuthoriseStanding(cfg, d, k, n, req, now, m);
    HasIff(d.approvals, SlotOf(d, k, n), Expired);
  }

  /** One in force lets the action through, unless an approval of the slot has been used before. */
  lemma InForceAnswers(cfg: Settings, h: Hashes, d: Desk, req: Request, now: int, k: nat, n: nat, m: nat)
    requires CasesInv(h, d.cases) && ResponseInv(cfg, d) && Waits(d, req, k, n)
    requires HighAction(cfg, d.cases.incidents[k].actions[n])
    requires InForce(cfg, d.approvals, m, SlotOf(d, k, n), now)
    ensures Execute(cfg, d, req, now) == Perform(d, k, n, Some(m), req, now)
    ensures Execute(cfg, d, req, now).1
            == (if Has(d.approvals, SlotOf(d, k, n), Consumed) then ConstraintViolated
                else if Done(d.executions, SlotOf(d, k, n)) || req.connectorWorks then Accepted
                else ConnectorFailed)
    ensures Rejected(d, SlotOf(d, k, n), Execute(cfg, d, req, now).0, Execute(cfg, d, req, now).1)
  {
    ExecuteIs(cfg, h, d, req, now, k, n);
    AuthoriseStanding(cfg, d, k, n, req, now, m);
    PerformAnswers(cfg, h, d, k, n, Some(m), req, now);
  }
}
