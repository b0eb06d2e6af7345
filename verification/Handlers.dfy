/**
 The handlers as they update the tables in place, each one a transaction that is rolled back when a
 unique constraint is violated. The state after every handler is the one Response specifies, and the
 invariants of Workflow hold from one request to the next.
 */
module Handlers {
  import opened Base
  import opened Config
  import opened Correlation
  import opened Detection
  import opened Playbook
  import opened Incidents
  import opened IncidentLaws
  import opened Absorption
  import opened Response
  import opened Workflow

  class ResponseDesk {
    const cfg: Settings
    ghost const h: Hashes
    var rows: seq<Correlation.Event>
    var records: seq<Finding>
    var incidents: seq<Incident>
    var history: seq<HistoryRow>
    var approvals: seq<Approval>
    var executions: seq<Execution>
    var audit: seq<AuditRow>
    var calls: seq<ConnectorCall>
    var clock: int

    function Snapshot(): Desk
      reads this
    {
      Desk(Cases(rows, records, incidents, history), approvals, executions, audit, calls, clock)
    }

    ghost predicate Valid()
      reads this
    {
      DeskInv(cfg, h, Snapshot())
    }

    /** Opens existing tables. */
    constructor (cfg: Settings, ghost h: Hashes, d: Desk)
      requires DeskInv(cfg, h, d)
      ensures Valid() && Snapshot() == d && this.cfg == cfg && this.h == h
    {
      this.cfg, this.h := cfg, h;
      rows, records, incidents, history := d.cases.rows, d.cases.records, d.cases.incidents, d.cases.history;
      approvals, executions, audit, calls, clock := d.approvals, d.executions, d.audit, d.calls, d.clock;
    }

    // ---- Approvals --------------------------------------------------------------------------------

    method RequestApproval(slot: Slot, user: string) returns (answer: Answer)
      requires Valid()
      modifies this`approvals
      ensures Valid() && (Snapshot(), answer) == Response.RequestApproval(old(Snapshot()), slot, user)
    {
      AskKeepsInv(cfg, Snapshot(), slot, user);
      if First(incidents, WithId(slot.tenant, slot.incident)) == None {
        return NotFound;
      }
      if !Held(approvals, slot, Requested) {
        approvals := approvals + [Approval(slot, user, None, Requested, None)];
      }
      answer := Response.Accepted;
    }

    method Approve(m: nat, tenant: string, user: string, now: int) returns (answer: Answer)
      requires Valid() && clock <= now
      modifies this`approvals, this`clock
      ensures Valid() && (Snapshot(), answer) == Response.Approve(old(Snapshot()).(clock := now), m, tenant, user, now)
    {
      ClockKeepsInv(cfg, Snapshot(), now);
      clock := now;
      DecideKeepsInv(cfg, Snapshot(), m, tenant, user, now);
      if m >= |approvals| || approvals[m].slot.tenant != tenant {
        return NotFound;
      }
      var item := approvals[m];
      if item.requestedBy == user {
        return Refused;
      }
      if item.standing != Requested {
        return Refused;
      }
      if Held(approvals, item.slot, Approved) {
        return ConstraintViolated;
      }
      approvals := approvals[m := item.(standing := Approved, approvedBy := Some(user), decidedAt := Some(now))];
      answer := Response.Accepted;
    }

    // ---- Execution --------------------------------------------------------------------------------

    /** `execute`, one explicit transaction. */
    method Execute(req: Request, now: int) returns (answer: Answer)
      requires Valid() && clock <= now
      modifies this
      ensures Valid() && (Snapshot(), answer) == Response.Execute(cfg, old(Snapshot()).(clock := now), req, now)
    {
      ClockKeepsInv(cfg, Snapshot(), now);
      clock := now;
      ExecuteKeepsInv(cfg, h, Snapshot(), req, now);
      RespondKeepsCases(cfg, h, Snapshot(), req, now);
      answer := Run(req, now);
    }

    method Run(req: Request, now: int) returns (answer: Answer)
      modifies this
      ensures (Snapshot(), answer) == Response.Execute(cfg, old(Snapshot()), req, now)
    {
      var found := First(incidents, WithId(req.tenant, req.incident));
      if found == None {
        return NotFound;
      }
      var k := found.value;
      var which := First(incidents[k].actions, Named(req.action));
      if which == None {
        return Refused;
      }
      if incidents[k].actions[which.value].status == Executed {
        return Refused;
      }
      answer := Authorise(k, which.value, req, now);
    }

    method Authorise(k: nat, n: nat, req: Request, now: int) returns (answer: Answer)
      requires k < |incidents| && n < |incidents[k].actions|
      modifies this
      ensures (Snapshot(), answer) == Response.Authorise(cfg, old(Snapshot()), k, n, req, now)
    {
      var slot := Slot(incidents[k].tenant, incidents[k].id, incidents[k].actions[n].action);
      var refusal, approval := RequireApproval(slot, incidents[k].actions[n], now);
      if refusal.Some? {
        return refusal.value;
      }
      answer := Perform(k, n, approval, req, now);
    }

    /** `_require_approval`: an expired authorisation is marked and committed before the refusal. */
    method RequireApproval(slot: Slot, selected: Recommendation, now: int)
      returns (refusal: Option<Answer>, approval: Option<nat>)
      modifies this`approvals
      ensures refusal == None ==> approvals == old(approvals)
      ensures refusal == None ==>
              approval == if ApprovalNeeded(cfg, selected) then First(approvals, InStanding(slot, Approved)) else None
      ensures refusal == None && approval.Some? ==> !Stale(cfg, approvals[approval.value], now)
      ensures refusal == None && ApprovalNeeded(cfg, selected) ==> approval.Some?
      ensures refusal.Some? ==> ApprovalNeeded(cfg, selected)
      ensures refusal.Some? ==>
                match First(old(approvals), InStanding(slot, Approved))
                case None => refusal.value == NeedsApproval && approvals == old(approvals)
                case Some(m) =>
                  && Stale(cfg, old(approvals)[m], now)
                  && if Held(old(approvals), slot, Expired) then
                       refusal.value == ConstraintViolated && approvals == old(approvals)
                     else
                       refusal.value == ApprovalExpired
                       && approvals == old(approvals)[m := old(approvals)[m].(standing := Expired)]
    {
      if selected.points < HIGH_IMPACT || !cfg.authRequired {
        return None, None;
      }
      approval := First(approvals, InStanding(slot, Approved));
      if approval == None {
        return Some(NeedsApproval), None;
      }
      if Stale(cfg, approvals[approval.value], now) {
        if Held(approvals, slot, Expired) {
          return Some(ConstraintViolated), None;
        }
        approvals := approvals[approval.value := approvals[approval.value].(standing := Expired)];
        return Some(ApprovalExpired), None;
      }
      refusal := None;
    }

    /** The connector call, unless the key is recorded, and the commit. */
    method Perform(k: nat, n: nat, approval: Option<nat>, req: Request, now: int) returns (answer: Answer)
      requires k < |incidents| && n < |incidents[k].actions| && (approval.Some? ==> approval.value < |approvals|)
      modifies this
      ensures (Snapshot(), answer) == Response.Perform(old(Snapshot()), k, n, approval, req, now)
    {
      var slot := Slot(incidents[k].tenant, incidents[k].id, incidents[k].actions[n].action);
      var saved, duplicate := executions, false;
      if First(executions, Response.Recorded(slot)) == None {
        calls := calls + [ConnectorCall(Key(slot), req.connectorWorks)];
        if !req.connectorWorks {
          return ConnectorFailed;
        }
        duplicate := KeyTaken(executions, Key(slot));
        executions := executions + [Execution(slot, Key(slot))];
      }
      if duplicate || (approval.Some? && Held(approvals, slot, Consumed)) {
        executions := saved;
        return ConstraintViolated;
      }
      WriteResponse(k, n, approval, req, now);
      answer := Response.Accepted;
    }

    /** The incident, its history, the audit row and the used-up approval. */
    method WriteResponse(k: nat, n: nat, approval: Option<nat>, req: Request, now: int)
      requires k < |incidents| && n < |incidents[k].actions| && (approval.Some? ==> approval.value < |approvals|)
      modifies this`incidents, this`history, this`approvals, this`audit
      ensures Snapshot() == Commit(old(Snapshot()), k, n, approval, req, now)
    {
      var slot := Slot(incidents[k].tenant, incidents[k].id, incidents[k].actions[n].action);
      WriteIncident(k, n, req, now);
      audit := audit + [AuditRow(slot, now, now + req.delay, approval)];
      if approval.Some? {
        approvals := approvals[approval.value := approvals[approval.value].(standing := Consumed)];
      }
    }

    method WriteIncident(k: nat, n: nat, req: Request, now: int)
      requires k < |incidents| && n < |incidents[k].actions|
      modifies this`incidents, this`history
      ensures Snapshot().cases == RespondedCases(old(Snapshot()).cases, k, n, req, now)
    {
      var j := MarkExecuted(incidents[k], n, req.analyst, now + req.delay);
      incidents := incidents[k := j];
      history := history + [HistoryRow(j.id, j.risk, j.residual, ActionExecuted(req.action))];
    }

    /** The incident with action `n` executed: residual and status follow. */
    method MarkExecuted(i: Incident, n: nat, analyst: string, at: int) returns (j: Incident)
      requires n < |i.actions|
      ensures j == Responded(Snapshot().cases, i, n, analyst, at)
    {
      var actions := i.actions[n := i.actions[n].(status := Executed, executedAt := Some(at),
                                                  analyst := Some(analyst))];
      j := i.(actions := actions, residual := Residual(i.risk, actions));
      var progress := ContainmentProgress(CurrentFlags(Cases(rows, records, incidents, history), i), actions);
      if progress.required != 0 && progress.completed == progress.required {
        j := j.(status := Contained);
      } else if i.status == New {
        j := j.(status := Investigating);
      }
    }

    // ---- Status changes -----------------------------------------------------------------------------

    method UpdateIncident(tenant: string, id: string, target: Status, now: int) returns (answer: Answer)
      requires Valid() && clock <= now
      modifies this`incidents, this`clock
      ensures Valid()
      ensures (Snapshot(), answer) == Response.UpdateIncident(old(Snapshot()).(clock := now), tenant, id, target, now)
    {
      ClockKeepsInv(cfg, Snapshot(), now);
      clock := now;
      ghost var before := Snapshot();
      MoveKeepsCases(h, before, tenant, id, target, now);
      answer := Change(tenant, id, target, now);
      OtherCases(cfg, before, Snapshot());
    }

    method Change(tenant: string, id: string, target: Status, now: int) returns (answer: Answer)
      modifies this`incidents
      ensures (Snapshot(), answer) == Response.UpdateIncident(old(Snapshot()), tenant, id, target, now)
    {
      var found := First(incidents, WithId(tenant, id));
      if found == None {
        return NotFound;
      }
      if target == Contained {
        return Refused;
      }
      var i := incidents[found.value];
      if target != i.status && !Allowed(i.status, target) {
        return Refused;
      }
      i := i.(status := target);
      if target == Investigating {
        i := i.(assignedTo := Some("analyst@demo"));
        if i.triagedAt == None {
          i := i.(triagedAt := Some(now));
        }
      }
      incidents := incidents[found.value := i];
      answer := Response.Accepted;
    }
  }
}
