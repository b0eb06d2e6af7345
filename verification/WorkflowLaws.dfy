/** What holds in every reachable state and over every run of incidents and responses. */
module WorkflowLaws {
  import opened Base
  import opened Config
  import opened Correlation
  import opened Playbook
  import opened Risk
  import opened Incidents
  import opened IncidentLaws
  import opened Absorption
  import opened Transactions
  import opened Response
  import opened Workflow

  ghost predicate Reachable(cfg: Settings, h: Hashes, steps: seq<Step>, d: Desk)
    requires 0 < cfg.maxIncidentSpanMinutes
  {
    IsRun(cfg, h, NOTHING, steps, d)
  }

  lemma ReachableInv(cfg: Settings, h: Hashes, steps: seq<Step>, d: Desk)
    requires 0 < cfg.maxIncidentSpanMinutes && Reachable(cfg, h, steps, d)
    ensures DeskInv(cfg, h, d)
  {
    NothingInv(cfg, h);
    RunKeepsInv(cfg, h, NOTHING, steps, d);
  }

  // ---- Two-person approval ------------------------------------------------------------------------------

  /**
   With authentication required, every committed execution of high impact has used up one approval
   of its own slot, granted by somebody other than the requester. The time to live is kept when the
   approval is checked; the connector call that follows may outlast it.
   */
  lemma TwoPersonRule(cfg: Settings, h: Hashes, steps: seq<Step>, d: Desk, n: nat)
    requires 0 < cfg.maxIncidentSpanMinutes && Reachable(cfg, h, steps, d)
    requires n < |d.audit| && HighImpact(cfg, d.audit[n].slot.action)
    ensures var row := d.audit[n];
            && row.approval.Some? && row.approval.value < |d.approvals|
            && var a := d.approvals[row.approval.value];
               && a.slot == row.slot && a.standing == Consumed
               && a.approvedBy.Some? && a.approvedBy.value != a.requestedBy
               && a.decidedAt.Some?
               && row.checked - cfg.approvalTtlMinutes * MINUTE <= a.decidedAt.value <= row.checked <= row.at
  {
    ReachableInv(cfg, h, steps, d);
    assert AuditOk(cfg, d.approvals, d.audit[n]);
    assert ApprovalOk(d, d.approvals[d.audit[n].approval.value]);
  }

  /** No approval serves two executions, and no slot of high impact is executed twice. */
  lemma ExecutedOnce(cfg: Settings, h: Hashes, steps: seq<Step>, d: Desk, m: nat, n: nat)
    requires 0 < cfg.maxIncidentSpanMinutes && Reachable(cfg, h, steps, d)
    requires m < n < |d.audit| && HighImpact(cfg, d.audit[m].slot.action)
    ensures d.audit[m].approval != d.audit[n].approval
    ensures d.audit[m].slot != d.audit[n].slot
  {
    ReachableInv(cfg, h, steps, d);
    assert AuditOk(cfg, d.approvals, d.audit[m]);
    assert AuditOk(cfg, d.approvals, d.audit[n]);
    if d.audit[n].approval.Some? {
      var a, b := d.audit[m].approval.value, d.audit[n].approval.value;
      assert d.approvals[a].slot != d.approvals[b].slot;
    }
  }

  // ---- Connector idempotency ------------------------------------------------------------------------------

  /** Over a whole run a key sees one successful connector call if it is recorded, else none. */
  lemma OneSuccessfulCall(cfg: Settings, h: Hashes, steps: seq<Step>, d: Desk, key: string)
    requires 0 < cfg.maxIncidentSpanMinutes && Reachable(cfg, h, steps, d)
    ensures Successes(d.calls, key) == if KeyTaken(d.executions, key) then 1 else 0
  {
    ReachableInv(cfg, h, steps, d);
    assert CallsOk(d, key);
  }

  /** How little an execution that is not accepted leaves behind. */
  ghost predicate Undone(d: Desk, e: Desk, answer: Answer) {
    match answer
    case Accepted => true
    case ApprovalExpired => exists m: nat :: m < |d.approvals| && e == SetStanding(d, m, Expired)
    case ConnectorFailed => exists key :: e == d.(calls := d.calls + [ConnectorCall(key, false)])
    case _ => e == d
  }

  /**
   A connector error changes nothing but the record of the call, and the abort on a used approval
   never follows a call that succeeded: it leaves no trace at all.
   */
  lemma FailuresLeaveNoTrace(cfg: Settings, h: Hashes, d: Desk, req: Request, now: int)
    requires CasesInv(h, d.cases) && ResponseInv(cfg, d)
    ensures Undone(d, Execute(cfg, d, req, now).0, Execute(cfg, d, req, now).1)
  {
    var found := First(d.cases.incidents, WithId(req.tenant, req.incident));
    if found.Some? {
      var k := found.value;
      var which := First(d.cases.incidents[k].actions, Named(req.action));
      if which.Some? && d.cases.incidents[k].actions[which.value].status != Executed {
        AuthoriseUndone(cfg, h, d, k, which.value, req, now);
      }
    }
  }

  lemma AuthoriseUndone(cfg: Settings, h: Hashes, d: Desk, k: nat, n: nat, req: Request, now: int)
    requires CasesInv(h, d.cases) && ResponseInv(cfg, d)
    requires k < |d.cases.incidents| && n < |d.cases.incidents[k].actions|
    ensures var r := Authorise(cfg, d, k, n, req, now); Undone(d, r.0, r.1)
  {
    if !ApprovalNeeded(cfg, d.cases.incidents[k].actions[n]) {
      PerformUndone(cfg, h, d, k, n, None, req, now);
    } else {
      var found := First(d.approvals, InStanding(SlotOf(d, k, n), Approved));
      if found.Some? {
        if !Stale(cfg, d.approvals[found.value], now) {
          PerformUndone(cfg, h, d, k, n, found, req, now);
        }
      }
    }
  }

  lemma PerformUndone(cfg: Settings, h: Hashes, d: Desk, k: nat, n: nat, approval: Option<nat>, req: Request, now: int)
    requires CasesInv(h, d.cases) && ResponseInv(cfg, d)
    requires k < |d.cases.incidents| && n < |d.cases.incidents[k].actions|
    requires approval.Some? ==> approval.value < |d.approvals|
    ensures var r := Perform(d, k, n, approval, req, now); Undone(d, r.0, r.1)
  {
    var slot := SlotOf(d, k, n);
    ActionsAreClean(h, d.cases, k, n);
    RecordedIff(d.executions, slot);
    if !Performed(d.executions, slot) {
      NotConsumedBefore(cfg, d, slot);
    }
  }

  // ---- The approval that can neither be used nor replaced ---------------------------------------------------

  /** An approved row is past its time to live while another row of the slot has already expired. */
  ghost predicate Stuck(cfg: Settings, d: Desk, slot: Slot, m: nat) {
    && m < |d.approvals| && d.approvals[m].slot == slot && d.approvals[m].standing == Approved
    && Stale(cfg, d.approvals[m], d.clock) && Held(d.approvals, slot, Expired)
  }

  function Executions(audit: seq<AuditRow>, slot: Slot): nat {
    if audit == [] then 0
    else Executions(audit[..|audit| - 1], slot) + if audit[|audit| - 1].slot == slot then 1 else 0
  }

  lemma ExecutionsSnoc(audit: seq<AuditRow>, row: AuditRow, slot: Slot)
    ensures Executions(audit + [row], slot) == Executions(audit, slot) + if row.slot == slot then 1 else 0
  {
  }

  lemma OnlyApproved(approvals: seq<Approval>, m: nat)
    requires OnePerStanding(approvals) && m < |approvals|
    ensures First(approvals, InStanding(approvals[m].slot, approvals[m].standing)) == Some(m)
  {
  }

  lemma HeldSurvives(approvals: seq<Approval>, k: nat, a: Approval, slot: Slot, standing: Standing)
    requires k < |approvals| && approvals[k].standing != standing && Held(approvals, slot, standing)
    ensures Held(approvals[k := a], slot, standing)
  {
    HeldIff(approvals, slot, standing);
    HeldIff(approvals[k := a], slot, standing);
    var n :| 0 <= n < |approvals| && approvals[n].slot == slot && approvals[n].standing == standing;
    assert approvals[k := a][n] == approvals[n];
  }

  /** A step keeps the slot stuck and does not execute it. */
  ghost predicate StillStuck(cfg: Settings, d: Desk, e: Desk, slot: Slot, m: nat) {
    Stuck(cfg, e, slot, m) && Executions(e.audit, slot) == Executions(d.audit, slot)
  }

  lemma PerformElsewhere(cfg: Settings, d: Desk, k: nat, n: nat, approval: Option<nat>, req: Request, now: int,
                         slot: Slot, m: nat)
    requires Stuck(cfg, d, slot, m) && k < |d.cases.incidents| && n < |d.cases.incidents[k].actions|
    requires SlotOf(d, k, n) != slot
    requires approval.Some? ==>
               approval.value < |d.approvals| && d.approvals[approval.value].slot == SlotOf(d, k, n)
               && d.approvals[approval.value].standing == Approved
    ensures StillStuck(cfg, d, Perform(d, k, n, approval, req, now).0, slot, m)
  {
    ExecutionsSnoc(d.audit, AuditRow(SlotOf(d, k, n), now, now + req.delay, approval), slot);
    if approval.Some? {
      var a := approval.value;
      HeldSurvives(d.approvals, a, d.approvals[a].(standing := Consumed), slot, Expired);
    }
  }

  /** An attempt on the stuck slot runs into the stale approval and the constraint. */
  lemma AuthoriseItself(cfg: Settings, h: Hashes, d: Desk, k: nat, n: nat, req: Request, slot: Slot, m: nat)
    requires CasesInv(h, d.cases) && ResponseInv(cfg, d) && Stuck(cfg, d, slot, m) && HighImpact(cfg, slot.action)
    requires k < |d.cases.incidents| && n < |d.cases.incidents[k].actions| && SlotOf(d, k, n) == slot
    ensures Authorise(cfg, d, k, n, req, d.clock).0 == d
  {
    ActionsAreClean(h, d.cases, k, n);
    OnlyApproved(d.approvals, m);
  }

  lemma AuthoriseAnother(cfg: Settings, d: Desk, k: nat, n: nat, req: Request, slot: Slot, m: nat)
    requires Stuck(cfg, d, slot, m)
    requires k < |d.cases.incidents| && n < |d.cases.incidents[k].actions| && SlotOf(d, k, n) != slot
    ensures StillStuck(cfg, d, Authorise(cfg, d, k, n, req, d.clock).0, slot, m)
  {
    var found := First(d.approvals, InStanding(SlotOf(d, k, n), Approved));
    if !ApprovalNeeded(cfg, d.cases.incidents[k].actions[n]) {
      PerformElsewhere(cfg, d, k, n, None, req, d.clock, slot, m);
    } else if found.Some? {
      assert InStanding(SlotOf(d, k, n), Approved)(d.approvals[found.value]);
      PerformElsewhere(cfg, d, k, n, found, req, d.clock, slot, m);
      HeldSurvives(d.approvals, found.value, d.approvals[found.value].(standing := Expired), slot, Expired);
    }
  }

  lemma AuthoriseStuck(cfg: Settings, h: Hashes, d: Desk, k: nat, n: nat, req: Request, slot: Slot, m: nat)
    requires CasesInv(h, d.cases) && ResponseInv(cfg, d) && Stuck(cfg, d, slot, m) && HighImpact(cfg, slot.action)
    requires k < |d.cases.incidents| && n < |d.cases.incidents[k].actions|
    ensures StillStuck(cfg, d, Authorise(cfg, d, k, n, req, d.clock).0, slot, m)
  {
    if SlotOf(d, k, n) == slot {
      AuthoriseItself(cfg, h, d, k, n, req, slot, m);
    } else {
      AuthoriseAnother(cfg, d, k, n, req, slot, m);
    }
  }

  lemma StepStuck(cfg: Settings, h: Hashes, d: Desk, step: Step, slot: Slot, m: nat)
    requires 0 < cfg.maxIncidentSpanMinutes && DeskInv(cfg, h, d) && Enabled(d, step)
    requires Stuck(cfg, d, slot, m) && HighImpact(cfg, slot.action)
    ensures StillStuck(cfg, d, Apply(cfg, h, d, step), slot, m)
  {
    match step {
      case Ask(s, user) => AskStuck(cfg, d, s, user, slot, m);
      case Decide(k, tenant, user, now) => DecideStuck(cfg, d.(clock := now), k, tenant, user, slot, m);
      case Respond(req, now) =>
        ClockKeepsInv(cfg, d, now);
        RespondStuck(cfg, h, d.(clock := now), req, slot, m);
      case Move(tenant, id, target, now) =>
        assert Stuck(cfg, d.(clock := now), slot, m);
      case Batch(_, _, _, _) =>
    }
  }

  lemma AskStuck(cfg: Settings, d: Desk, s: Slot, user: string, slot: Slot, m: nat)
    requires Stuck(cfg, d, slot, m)
    ensures StillStuck(cfg, d, RequestApproval(d, s, user).0, slot, m)
  {
  }

  lemma DecideStuck(cfg: Settings, d: Desk, k: nat, tenant: string, user: string, slot: Slot, m: nat)
    requires Stuck(cfg, d, slot, m)
    ensures StillStuck(cfg, d, Approve(d, k, tenant, user, d.clock).0, slot, m)
  {
    if Approve(d, k, tenant, user, d.clock).1 == Accepted {
      HeldSurvives(d.approvals, k,
                   d.approvals[k].(standing := Approved, approvedBy := Some(user), decidedAt := Some(d.clock)), slot,
                   Expired);
    }
  }

  lemma RespondStuck(cfg: Settings, h: Hashes, d: Desk, req: Request, slot: Slot, m: nat)
    requires CasesInv(h, d.cases) && ResponseInv(cfg, d) && Stuck(cfg, d, slot, m) && HighImpact(cfg, slot.action)
    ensures StillStuck(cfg, d, Execute(cfg, d, req, d.clock).0, slot, m)
  {
    var found := First(d.cases.incidents, WithId(req.tenant, req.incident));
    if found.Some? {
      var k := found.value;
      var which := First(d.cases.incidents[k].actions, Named(req.action));
      if which.Some? && d.cases.incidents[k].actions[which.value].status != Executed {
        AuthoriseStuck(cfg, h, d, k, which.value, req, slot, m);
      }
    }
  }

  /**
   The second expiry of a slot violates the unique constraint, so its stale approval stays APPROVED:
   from then on, whatever is requested, approved or attempted, the slot is never executed again.
   */
  lemma {:induction false} SecondExpiryBlocksForever(cfg: Settings, h: Hashes, d: Desk, steps: seq<Step>, e: Desk,
                                                     slot: Slot, m: nat)
    requires 0 < cfg.maxIncidentSpanMinutes && DeskInv(cfg, h, d) && IsRun(cfg, h, d, steps, e)
    requires Stuck(cfg, d, slot, m) && HighImpact(cfg, slot.action)
    ensures StillStuck(cfg, d, e, slot, m)
    decreases |steps|
  {
    if steps == [] {
    } else {
      StepStuck(cfg, h, d, steps[0], slot, m);
      StepKeepsInv(cfg, h, d, steps[0]);
      SecondExpiryBlocksForever(cfg, h, Apply(cfg, h, d, steps[0]), steps[1..], e, slot, m);
    }
  }

  // ---- The approval that has been used ------------------------------------------------------------------------

  /** A step keeps the slot's approval used and does not execute the slot. */
  ghost predicate StillUsed(d: Desk, e: Desk, slot: Slot) {
    Held(e.approvals, slot, Consumed) && Executions(e.audit, slot) == Executions(d.audit, slot)
  }

  lemma PerformUsed(cfg: Settings, d: Desk, k: nat, n: nat, approval: Option<nat>, req: Request, now: int, slot: Slot)
    requires k < |d.cases.incidents| && n < |d.cases.incidents[k].actions|
    requires Held(d.approvals, slot, Consumed) && HighImpact(cfg, slot.action)
    requires Authorised(cfg, d, SlotOf(d, k, n), approval, now)
    ensures StillUsed(d, Perform(d, k, n, approval, req, now).0, slot)
  {
    ExecutionsSnoc(d.audit, AuditRow(SlotOf(d, k, n), now, now + req.delay, approval), slot);
    if approval.Some? {
      var a := approval.value;
      HeldSurvives(d.approvals, a, d.approvals[a].(standing := Consumed), slot, Consumed);
    }
  }

  lemma AuthoriseUsed(cfg: Settings, h: Hashes, d: Desk, k: nat, n: nat, req: Request, now: int, slot: Slot)
    requires CasesInv(h, d.cases) && Held(d.approvals, slot, Consumed) && HighImpact(cfg, slot.action)
    requires k < |d.cases.incidents| && n < |d.cases.incidents[k].actions|
    ensures StillUsed(d, Authorise(cfg, d, k, n, req, now).0, slot)
  {
    ActionsAreClean(h, d.cases, k, n);
    if !ApprovalNeeded(cfg, d.cases.incidents[k].actions[n]) {
      PerformUsed(cfg, d, k, n, None, req, now, slot);
    } else {
      var found := First(d.approvals, InStanding(SlotOf(d, k, n), Approved));
      if found.Some? {
        var m := found.value;
        assert InStanding(SlotOf(d, k, n), Approved)(d.approvals[m]);
        if Stale(cfg, d.approvals[m], now) {
          HeldSurvives(d.approvals, m, d.approvals[m].(standing := Expired), slot, Consumed);
        } else {
          PerformUsed(cfg, d, k, n, found, req, now, slot);
        }
      }
    }
  }

  lemma RespondUsed(cfg: Settings, h: Hashes, d: Desk, req: Request, now: int, slot: Slot)
    requires CasesInv(h, d.cases) && Held(d.approvals, slot, Consumed) && HighImpact(cfg, slot.action)
    ensures StillUsed(d, Execute(cfg, d, req, now).0, slot)
  {
    var found := First(d.cases.incidents, WithId(req.tenant, req.incident));
    if found.Some? {
      var k := found.value;
      var which := First(d.cases.incidents[k].actions, Named(req.action));
      if which.Some? && d.cases.incidents[k].actions[which.value].status != Executed {
        AuthoriseUsed(cfg, h, d, k, which.value, req, now, slot);
      }
    }
  }

  lemma DecideUsed(d: Desk, m: nat, tenant: string, user: string, now: int, slot: Slot)
    requires Held(d.approvals, slot, Consumed)
    ensures StillUsed(d, Approve(d, m, tenant, user, now).0, slot)
  {
    if Approve(d, m, tenant, user, now).1 == Accepted {
      HeldSurvives(d.approvals, m,
                   d.approvals[m].(standing := Approved, approvedBy := Some(user), decidedAt := Some(now)), slot,
                   Consumed);
    }
  }

  lemma StepUsed(cfg: Settings, h: Hashes, d: Desk, step: Step, slot: Slot)
    requires 0 < cfg.maxIncidentSpanMinutes && DeskInv(cfg, h, d) && Enabled(d, step)
    requires Held(d.approvals, slot, Consumed) && HighImpact(cfg, slot.action)
    ensures StillUsed(d, Apply(cfg, h, d, step), slot)
  {
    match step {
      case Ask(s, user) =>
      case Decide(m, tenant, user, now) => DecideUsed(d.(clock := now), m, tenant, user, now, slot);
      case Respond(req, now) => RespondUsed(cfg, h, d.(clock := now), req, now, slot);
      case Move(tenant, id, target, now) =>
      case Batch(_, _, _, _) =>
    }
  }

  /**
   A slot whose approval has been used is never executed again, although a change of type may make its
   action pending anew: a second used approval would violate the unique constraint.
   */
  lemma {:induction false} UsedBlocksForever(cfg: Settings, h: Hashes, d: Desk, steps: seq<Step>, e: Desk, slot: Slot)
    requires 0 < cfg.maxIncidentSpanMinutes && DeskInv(cfg, h, d) && IsRun(cfg, h, d, steps, e)
    requires Held(d.approvals, slot, Consumed) && HighImpact(cfg, slot.action)
    ensures StillUsed(d, e, slot)
    decreases |steps|
  {
    if steps == [] {
    } else {
      StepUsed(cfg, h, d, steps[0], slot);
      StepKeepsInv(cfg, h, d, steps[0]);
      UsedBlocksForever(cfg, h, Apply(cfg, h, d, steps[0]), steps[1..], e, slot);
    }
  }

  /** After one expiry, an approval asked for and granted anew gets stuck as soon as it lapses as well. */
  lemma LapsingAgainGetsStuck(cfg: Settings, d: Desk, slot: Slot, requester: string, approver: string, now: int,
                              later: int)
    requires Held(d.approvals, slot, Expired) && !Held(d.approvals, slot, Requested)
            && !Held(d.approvals, slot, Approved)
    requires First(d.cases.incidents, WithId(slot.tenant, slot.incident)).Some? && requester != approver
    requires now + cfg.approvalTtlMinutes * MINUTE < later
    ensures var asked := RequestApproval(d, slot, requester).0;
            var granted := Approve(asked, |d.approvals|, slot.tenant, approver, now).0;
            Stuck(cfg, granted.(clock := later), slot, |d.approvals|)
  {
  }
}
