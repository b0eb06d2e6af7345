/** The risk history accounts for the current risk and residual of every incident. */
module History {
  import opened Base
  import opened Config
  import opened Incidents
  import IncidentLaws
  import opened Absorption
  import opened Sessions
  import opened Transactions
  import opened Response
  import opened Workflow
  import opened WorkflowLaws

  function LastRow(history: seq<HistoryRow>, id: string): Option<HistoryRow> {
    if history == [] then None
    else
      var last := history[|history| - 1];
      if last.incident == id then Some(last) else LastRow(history[..|history| - 1], id)
  }

  predicate Shows(history: seq<HistoryRow>, i: Incident) {
    match LastRow(history, i.id)
    case None => false
    case Some(row) => row.risk == i.risk && row.residual == i.residual
  }

  ghost predicate Accounted(c: Cases) {
    forall k :: 0 <= k < |c.incidents| ==> Shows(c.history, c.incidents[k])
  }

  /** Incident `k` changed and a row about it was written. */
  lemma RowWritten(c: Cases, d: Cases, k: nat, reason: Reason)
    requires Accounted(c) && IncidentKeys(c.incidents) && k < |c.incidents| == |d.incidents|
    requires d.incidents == c.incidents[k := d.incidents[k]] && d.incidents[k].id == c.incidents[k].id
    requires var j := d.incidents[k]; d.history == c.history + [HistoryRow(j.id, j.risk, j.residual, reason)]
    ensures Accounted(d)
  {
  }

  /** Incidents changed in nothing the history shows. */
  lemma NoRowNeeded(c: Cases, d: Cases)
    requires Accounted(c) && |c.incidents| == |d.incidents| && d.history == c.history
    requires forall n :: 0 <= n < |c.incidents| ==>
               d.incidents[n].id == c.incidents[n].id && d.incidents[n].risk == c.incidents[n].risk
               && d.incidents[n].residual == c.incidents[n].residual
    ensures Accounted(d)
  {
  }

  lemma EnrichedAccounted(c: Cases, d: Cases, k: nat)
    requires Accounted(c) && IncidentKeys(c.incidents) && EnrichedAt(c, d, k)
    ensures Accounted(d)
  {
    if Differs(c.incidents[k], d.incidents[k]) {
      RowWritten(c, d, k, IncidentEnriched);
    } else {
      assert d.history == c.history;
      NoRowNeeded(c, d);
    }
  }

  lemma CreatedAccounted(c: Cases, d: Cases, group: seq<Incidents.Event>, newId: string)
    requires Accounted(c) && FreshId(c, newId) && group != [] && CreatedIn(c, d, group, newId)
    ensures Accounted(d)
  {
  }

  lemma GroupAccounted(cfg: Settings, h: Hashes, s: Session, group: seq<Incidents.Event>, newId: string)
    requires 0 < cfg.maxIncidentSpanMinutes && SessionInv(h, s) && Accounted(s.cases)
    requires IncidentLaws.GroupOf(s.cases.rows, group) && FreshId(s.cases, newId)
    requires AfterGroup(s, Absorb(cfg, h, s, group, newId)).Some?
    ensures Accounted(AfterGroup(s, Absorb(cfg, h, s, group, newId)).value.cases)
  {
    var r := Absorb(cfg, h, s, group, newId);
    if r.Stored? {
      AbsorbEffect(cfg, h, s, group, newId);
      if r.at < |s.cases.incidents| {
        EnrichedAccounted(s.cases, r.session.cases, r.at);
      } else {
        CreatedAccounted(s.cases, r.session.cases, group, newId);
      }
    }
  }

  lemma {:induction false} GroupsAccounted(cfg: Settings, h: Hashes, s: Session, groups: seq<seq<Incidents.Event>>,
                                           newIds: nat -> string)
    requires 0 < cfg.maxIncidentSpanMinutes && SessionInv(h, s) && Ready(s.cases, groups, newIds) && Accounted(s.cases)
    requires AbsorbAll(cfg, h, s, groups, newIds).Some?
    ensures Accounted(AbsorbAll(cfg, h, s, groups, newIds).value.cases)
    decreases |groups|
  {
    if groups == [] {
    } else {
      var n := |groups| - 1;
      var t := LastGroupReady(cfg, h, s, groups, newIds);
      GroupsAccounted(cfg, h, s, groups[..n], newIds);
      GroupAccounted(cfg, h, t, groups[n], newIds(n));
    }
  }

  lemma BatchAccounted(cfg: Settings, h: Hashes, d: Desk, step: Step)
    requires 0 < cfg.maxIncidentSpanMinutes && DeskInv(cfg, h, d) && Enabled(d, step) && Accounted(d.cases)
    requires step.Batch?
    ensures Accounted(Apply(cfg, h, d, step).cases)
  {
    var c := Ingested(d.cases, step.rows, step.records);
    NoRowNeeded(d.cases, c);
    IngestKeepsCases(h, d.cases, step.rows, step.records);
    if CorrelateBatch(cfg, h, c, step.groups, step.newIds).Some? {
      BeginInv(h, c);
      GroupsAccounted(cfg, h, Begin(c), step.groups, step.newIds);
    }
  }

  lemma RespondAccounted(cfg: Settings, h: Hashes, d: Desk, req: Request, now: int)
    requires CasesInv(h, d.cases) && Accounted(d.cases)
    ensures Accounted(Execute(cfg, d, req, now).0.cases)
  {
    var c, e := d.cases, Execute(cfg, d, req, now).0.cases;
    ExecuteChangesOneIncident(cfg, d, req, now);
    if e != c {
      var k, n := ResponseWitness(c, e, req, now);
      RowWritten(c, RespondedCases(c, k, n, req, now), k, ActionExecuted(req.action));
    }
  }

  lemma MoveAccounted(d: Desk, tenant: string, id: string, target: Status, now: int)
    requires Accounted(d.cases)
    ensures Accounted(UpdateIncident(d, tenant, id, target, now).0.cases)
  {
  }

  lemma StepAccounted(cfg: Settings, h: Hashes, d: Desk, step: Step)
    requires 0 < cfg.maxIncidentSpanMinutes && DeskInv(cfg, h, d) && Enabled(d, step) && Accounted(d.cases)
    ensures Accounted(Apply(cfg, h, d, step).cases)
  {
    match step {
      case Batch(_, _, _, _) => BatchAccounted(cfg, h, d, step);
      case Respond(req, now) => RespondAccounted(cfg, h, d.(clock := now), req, now);
      case Move(tenant, id, target, now) => MoveAccounted(d.(clock := now), tenant, id, target, now);
      case Ask(_, _) =>
      case Decide(_, _, _, _) =>
    }
  }

  lemma {:induction false} RunAccounted(cfg: Settings, h: Hashes, d: Desk, steps: seq<Step>, e: Desk)
    requires 0 < cfg.maxIncidentSpanMinutes && DeskInv(cfg, h, d) && IsRun(cfg, h, d, steps, e) && Accounted(d.cases)
    ensures Accounted(e.cases)
    decreases |steps|
  {
    if steps == [] {
    } else {
      StepAccounted(cfg, h, d, steps[0]);
      StepKeepsInv(cfg, h, d, steps[0]);
      RunAccounted(cfg, h, Apply(cfg, h, d, steps[0]), steps[1..], e);
    }
  }

  /**
   In every reachable state the last history row of an incident shows its current risk and residual,
   although unchanged enrichments and status changes write no row.
   */
  lemma HistoryShowsCurrentRisk(cfg: Settings, h: Hashes, steps: seq<Step>, d: Desk, k: nat)
    requires 0 < cfg.maxIncidentSpanMinutes && Reachable(cfg, h, steps, d) && k < |d.cases.incidents|
    ensures var i := d.cases.incidents[k];
            var row := LastRow(d.cases.history, i.id);
            row.Some? && row.value.risk == i.risk && row.value.residual == i.residual
  {
    NothingInv(cfg, h);
    RunAccounted(cfg, h, NOTHING, steps, d);
    assert Shows(d.cases.history, d.cases.incidents[k]);
  }
}
