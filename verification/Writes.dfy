/** What an accepted execution writes, column by column, and what residual risk means over runs. */
module Writes {
  import opened Base
  import opened Config
  import opened Detection
  import opened Playbook
  import opened Risk
  import opened Incidents
  import opened IncidentLaws
  import opened Absorption
  import opened Transactions
  import opened Response
  import opened Workflow
  import opened WorkflowLaws
  import opened IncidentRuns
  import opened Answers

  /** The flags of the stored findings about the incident's events. */
  function Tags(records: seq<Finding>, i: Incident): set<string> {
    set f | f in records && f.eventId in i.eventIds :: f.flag
  }

  lemma AboutMembers(records: seq<Finding>, ids: set<string>, f: Finding)
    ensures f in FindingsAbout(records, ids) <==> f in records && f.eventId in ids
  {
    FindingsAboutCount(records, ids, f);
    assert f in FindingsAbout(records, ids) <==> multiset(FindingsAbout(records, ids))[f] > 0;
    assert f in records <==> multiset(records)[f] > 0;
  }

  lemma TagsAre(c: Cases, i: Incident)
    ensures CurrentFlags(c, i) == Tags(c.records, i)
  {
    var a, b := CurrentFlags(c, i), Tags(c.records, i);
    var ids := Correlation.Elements(i.eventIds);
    forall flag | flag in a ensures flag in b {
      var f :| f in FindingsAbout(c.records, ids) && f.flag == flag;
      AboutMembers(c.records, ids, f);
    }
    forall flag | flag in b ensures flag in a {
      var f :| f in c.records && f.eventId in i.eventIds && f.flag == flag;
      AboutMembers(c.records, ids, f);
    }
    assert a == b;
  }

  // ---- The incident ------------------------------------------------------------------------------------

  /**
   Action `n` is executed and its points come off, down to 0; the incident is contained once the executed
   actions provide what the playbook of the current flags requires, and else at least under investigation.
   */
  ghost predicate Acted(records: seq<Finding>, i: Incident, j: Incident, n: nat, analyst: string, at: int) {
    && n < |i.actions|
    && j == i.(actions := j.actions, residual := j.residual, status := j.status)
    && j.actions == i.actions[n := i.actions[n].(status := Executed, executedAt := Some(at), analyst := Some(analyst))]
    && j.residual == Max(0, i.residual - i.actions[n].points)
    && j.status == (if Mitigated(Tags(records, i), j.actions) then Contained
                    else if i.status == New then Investigating else i.status)
  }

  // ---- The tables ----------------------------------------------------------------------------------------

  /** Incident `k` and one row more of history; the other incidents, events and findings stay. */
  ghost predicate CasesWritten(c: Cases, e: Cases, req: Request, now: int, k: nat, n: nat) {
    && k < |c.incidents| == |e.incidents| && e.rows == c.rows && e.records == c.records
    && (forall l :: 0 <= l < |c.incidents| && l != k ==> e.incidents[l] == c.incidents[l])
    && Acted(c.records, c.incidents[k], e.incidents[k], n, req.analyst, now + req.delay)
    && e.history
       == c.history + [HistoryRow(c.incidents[k].id, c.incidents[k].risk, e.incidents[k].residual,
                                  ActionExecuted(req.action))]
  }

  /** The approval is used up; a slot that was not executed before has been called and is recorded. */
  ghost predicate Written(d: Desk, e: Desk, req: Request, now: int, k: nat, n: nat, approval: Option<nat>) {
    && CasesWritten(d.cases, e.cases, req, now, k, n)
    && (approval.Some? ==> approval.value < |d.approvals|)
    && e.clock == d.clock
    && e.audit == d.audit + [AuditRow(SlotOf(d, k, n), now, now + req.delay, approval)]
    && e.approvals == (match approval
                       case None => d.approvals
                       case Some(m) => d.approvals[m := d.approvals[m].(standing := Consumed)])
    && e.executions == d.executions + (if Done(d.executions, SlotOf(d, k, n)) then []
                                       else [Execution(SlotOf(d, k, n), Label(SlotOf(d, k, n)))])
    && e.calls == d.calls + (if Done(d.executions, SlotOf(d, k, n)) then []
                             else [ConnectorCall(Label(SlotOf(d, k, n)), true)])
  }

  lemma Sound(h: Hashes, c: Cases, k: nat)
    requires CasesInv(h, c) && k < |c.incidents|
    ensures Derived(c.incidents[k]) && Recommended(c.incidents[k])
  {
    assert IncidentInv(c, c.incidents[k]);
  }

  lemma RowWritten(c: Cases, k: nat, n: nat, req: Request, now: int)
    requires k < |c.incidents| && Derived(c.incidents[k]) && Recommended(c.incidents[k])
    requires n < |c.incidents[k].actions| && c.incidents[k].actions[n].status == Pending
    ensures CasesWritten(c, RespondedCases(c, k, n, req, now), req, now, k, n)
  {
    var i := c.incidents[k];
    var done := i.actions[n].(status := Executed, executedAt := Some(now + req.delay), analyst := Some(req.analyst));
    ResidualFalls(i.risk, i.kind, i.actions, n, done);
    MitigatedIff(CurrentFlags(c, i), i.actions[n := done]);
    TagsAre(c, i);
  }

  lemma CasesAreWritten(h: Hashes, c: Cases, k: nat, n: nat, req: Request, now: int)
    requires CasesInv(h, c) && k < |c.incidents| && n < |c.incidents[k].actions|
    requires c.incidents[k].actions[n].status == Pending
    ensures CasesWritten(c, RespondedCases(c, k, n, req, now), req, now, k, n)
  {
    Sound(h, c, k);
    RowWritten(c, k, n, req, now);
  }

  lemma CommitWrites(d: Desk, f: Desk, k: nat, n: nat, approval: Option<nat>, req: Request, now: int)
    requires k < |d.cases.incidents| && n < |d.cases.incidents[k].actions|
    requires approval.Some? ==> approval.value < |d.approvals|
    requires CasesWritten(d.cases, RespondedCases(d.cases, k, n, req, now), req, now, k, n)
    requires f == d.(executions := f.executions, calls := f.calls)
    requires f.executions == d.executions + (if Done(d.executions, SlotOf(d, k, n)) then []
                                             else [Execution(SlotOf(d, k, n), Label(SlotOf(d, k, n)))])
    requires f.calls == d.calls + (if Done(d.executions, SlotOf(d, k, n)) then []
                                   else [ConnectorCall(Label(SlotOf(d, k, n)), true)])
    ensures Written(d, Commit(f, k, n, approval, req, now), req, now, k, n, approval)
  {
  }

  lemma PerformWrites(cfg: Settings, h: Hashes, d: Desk, k: nat, n: nat, approval: Option<nat>, req: Request, now: int)
    requires CasesInv(h, d.cases) && ResponseInv(cfg, d)
    requires k < |d.cases.incidents| && n < |d.cases.incidents[k].actions|
    requires d.cases.incidents[k].actions[n].status == Pending
    requires approval.Some? ==> approval.value < |d.approvals|
    requires Perform(d, k, n, approval, req, now).1 == Accepted
    ensures Written(d, Perform(d, k, n, approval, req, now).0, req, now, k, n, approval)
  {
    var slot := SlotOf(d, k, n);
    ActionsAreClean(h, d.cases, k, n);
    DoneIff(d.executions, slot);
    RecordedIff(d.executions, slot);
    CasesAreWritten(h, d.cases, k, n, req, now);
    if Done(d.executions, slot) {
      assert d.executions + [] == d.executions && d.calls + [] == d.calls;
      CommitWrites(d, d, k, n, approval, req, now);
    } else {
      CommitWrites(d, d.(calls := d.calls + [ConnectorCall(Key(slot), true)],
                         executions := d.executions + [Execution(slot, Key(slot))]), k, n, approval, req, now);
    }
  }

  /** What allows action `n` of incident `k`: nothing, if its impact is low, or an approval in force. */
  ghost predicate Entitled(cfg: Settings, d: Desk, k: nat, n: nat, approval: Option<nat>, now: int)
    requires k < |d.cases.incidents| && n < |d.cases.incidents[k].actions|
  {
    var action := d.cases.incidents[k].actions[n];
    match approval
    case None => !HighAction(cfg, action)
    case Some(m) => HighAction(cfg, action) && InForce(cfg, d.approvals, m, SlotOf(d, k, n), now)
  }

  lemma AcceptedEntitled(cfg: Settings, h: Hashes, d: Desk, req: Request, now: int, k: nat, n: nat)
    returns (approval: Option<nat>)
    requires CasesInv(h, d.cases) && ResponseInv(cfg, d) && Waits(d, req, k, n)
    requires Execute(cfg, d, req, now).1 == Accepted
    ensures Entitled(cfg, d, k, n, approval, now)
    ensures Execute(cfg, d, req, now) == Perform(d, k, n, approval, req, now)
  {
    var slot := SlotOf(d, k, n);
    if !HighAction(cfg, d.cases.incidents[k].actions[n]) {
      LowAnswers(cfg, h, d, req, now, k, n);
      approval := None;
    } else if !Has(d.approvals, slot, Approved) {
      NobodyApproved(cfg, h, d, req, now, k, n);
      approval := None;
    } else {
      var m: nat :| m < |d.approvals| && At(d.approvals, m, slot, Approved);
      approval := Some(m);
      if Lapsed(cfg, d.approvals, m, now) {
        LapsedAnswers(cfg, h, d, req, now, k, n, m);
      } else {
        InForceAnswers(cfg, h, d, req, now, k, n, m);
      }
    }
  }

  /**
   An accepted execution executes a waiting action that the request names in any case of letters. It is of
   low impact, or an approval of its own slot is in force and used up.
   */
  lemma AcceptedWrites(cfg: Settings, h: Hashes, d: Desk, req: Request, now: int)
    returns (k: nat, n: nat, approval: Option<nat>)
    requires CasesInv(h, d.cases) && ResponseInv(cfg, d) && Execute(cfg, d, req, now).1 == Accepted
    ensures Waits(d, req, k, n) && Entitled(cfg, d, k, n, approval, now)
    ensures Written(d, Execute(cfg, d, req, now).0, req, now, k, n, approval)
  {
    ExecuteRefuses(cfg, h, d, req, now);
    k, n :| Waits(d, req, k, n);
    approval := AcceptedEntitled(cfg, h, d, req, now, k, n);
    PerformWrites(cfg, h, d, k, n, approval, req, now);
  }

  // ---- Residual risk over runs -----------------------------------------------------------------------------

  predicate AllPending(actions: seq<Recommendation>) {
    forall n :: 0 <= n < |actions| ==> actions[n].status == Pending
  }

  /** The risk less the points of the executed actions, down to 0: all of it while nothing has been executed. */
  predicate Left(i: Incident) {
    i.residual == Max(0, i.risk - Taken(i.actions)) && (AllPending(i.actions) ==> i.residual == i.risk)
  }

  lemma ResidualOf(i: Incident)
    requires Derived(i) && Recommended(i)
    ensures Left(i)
  {
    ResidualIs(i.risk, i.kind, i.actions);
    if AllPending(i.actions) {
      NothingTaken(i.actions);
    }
  }

  lemma CasesLeft(h: Hashes, c: Cases)
    requires CasesInv(h, c)
    ensures forall k :: 0 <= k < |c.incidents| ==> Left(c.incidents[k])
  {
    forall k | 0 <= k < |c.incidents| ensures Left(c.incidents[k]) {
      Sound(h, c, k);
      ResidualOf(c.incidents[k]);
    }
  }

  /** The residual risk of every incident in every reachable state. */
  lemma ReachableResidual(cfg: Settings, h: Hashes, steps: seq<Step>, d: Desk)
    requires 0 < cfg.maxIncidentSpanMinutes && Reachable(cfg, h, steps, d)
    ensures forall k :: 0 <= k < |d.cases.incidents| ==> Left(d.cases.incidents[k])
  {
    ReachableInv(cfg, h, steps, d);
    CasesLeft(h, d.cases);
  }

  lemma {:induction false} NothingTaken(actions: seq<Recommendation>)
    requires AllPending(actions)
    ensures Taken(actions) == 0
  {
    if actions == [] {
    } else {
      NothingTaken(actions[1..]);
    }
  }

  /** After an enrichment: the points of the actions executed before come off, unless the type has changed. */
  predicate LeftAfter(i: Incident, j: Incident) {
    j.residual == if j.kind == i.kind then Max(0, j.risk - Taken(i.actions)) else j.risk
  }

  lemma TouchedLeft(i: Incident, j: Incident)
    requires Touched(i, j) && Left(i) && Left(j)
    ensures LeftAfter(i, j)
  {
    assert AllPending(Template(j.kind));
  }

  /** Whatever a batch does to an incident, its residual risk is LeftAfter that. */
  lemma EnrichedResidual(cfg: Settings, h: Hashes, d: Desk, step: Step, k: nat)
    requires StepOf(cfg, h, d, step, k) && step.Batch?
    ensures var e := Apply(cfg, h, d, step);
            k < |e.cases.incidents| && LeftAfter(d.cases.incidents[k], e.cases.incidents[k])
  {
    var e := Apply(cfg, h, d, step);
    BatchStepEffect(cfg, h, d, step, k);
    StepKeepsInv(cfg, h, d, step);
    CasesLeft(h, d.cases);
    CasesLeft(h, e.cases);
    TouchedLeft(d.cases.incidents[k], e.cases.incidents[k]);
  }
}
