/**
 What an incident says about its evidence: in every reachable state it lists stored events of its tenant,
 each once and in time order, and names the user and the host met most often among them
 (backend/app/services/correlation_engine.py, lines 252-262, 330-351 and 358-400).
 */
module Evidence {
  import opened Base
  import opened Config
  import opened Correlation
  import opened Detection
  import opened Playbook
  import opened Risk
  import opened Incidents
  import opened IncidentLaws
  import opened Absorption
  import opened Sessions
  import opened Transactions
  import opened Matching
  import opened Response
  import opened Workflow
  import opened WorkflowLaws

  type Event = Correlation.Event

  ghost predicate TimeSorted(events: seq<Event>) {
    forall i, j :: 0 <= i < j < |events| ==> events[i].timestamp <= events[j].timestamp
  }

  /** The incident's columns are those of the events `all`. */
  ghost predicate Told(rows: seq<Event>, i: Incident, all: seq<Event>) {
    && (forall e :: e in all ==> e in rows && e.tenant == i.tenant)
    && i.eventIds == EventIds(all) && DistinctIds(i.eventIds) && TimeSorted(all)
    && Commonest(i.user, UserColumn(all)) && Commonest(i.host, HostColumn(all))
  }

  ghost predicate Tells(rows: seq<Event>, i: Incident) {
    exists all :: Told(rows, i, all)
  }

  ghost predicate AllTell(c: Cases) {
    forall k :: 0 <= k < |c.incidents| ==> Tells(c.rows, c.incidents[k])
  }

  // ---- A new incident ----------------------------------------------------------------------------------

  lemma OpenedTells(rows: seq<Event>, id: string, fp: string, group: seq<Event>, found: seq<Finding>)
    requires GroupOf(rows, group) && TimeSorted(group)
    ensures Tells(rows, Opened(id, group[0].tenant, fp, group, found))
  {
    GroupIds(group);
    UsersCommonest(group);
    assert Told(rows, Opened(id, group[0].tenant, fp, group, found), group);
  }

  // ---- An enriched incident ----------------------------------------------------------------------------

  lemma {:induction false} AmongCount(rows: seq<Event>, tenant: string, ids: set<string>, e: Event)
    ensures multiset(EventsAmong(rows, tenant, ids))[e] <= multiset(rows)[e]
  {
    if rows == [] {
    } else {
      var n := |rows| - 1;
      assert rows == rows[..n] + [rows[n]];
      AmongCount(rows[..n], tenant, ids, e);
    }
  }

  lemma {:induction false} OnceInRows(rows: seq<Event>, e: Event)
    requires UniqueIds(rows)
    ensures multiset(rows)[e] <= 1
  {
    if rows == [] {
    } else {
      var n := |rows| - 1;
      assert rows == rows[..n] + [rows[n]];
      OnceInRows(rows[..n], e);
      if rows[n] == e {
        assert e !in rows[..n];
      }
    }
  }

  lemma MergedOnce(rows: seq<Event>, i: Incident, group: seq<Event>, e: Event)
    requires UniqueIds(rows) && GroupOf(rows, group)
    ensures multiset(Merged(rows, i, group))[e] <= 1
  {
    var rest := Elements(i.eventIds) - Elements(EventIds(group));
    GroupIds(group);
    OnceInRows(group, e);
    OnceInRows(rows, e);
    AmongCount(rows, i.tenant, rest, e);
    EventsAmongMembers(rows, i.tenant, rest, e);
    if e in group {
      assert e.id in EventIds(group);
      assert e !in EventsAmong(rows, i.tenant, rest);
    }
  }

  lemma MergedDistinct(rows: seq<Event>, i: Incident, group: seq<Event>)
    requires UniqueIds(rows) && GroupOf(rows, group) && group[0].tenant == i.tenant && Known(rows, i)
    ensures DistinctIds(EventIds(Merged(rows, i, group)))
    ensures forall e :: e in Merged(rows, i, group) ==> e in rows && e.tenant == i.tenant
  {
    var all := Merged(rows, i, group);
    MergedMembers(rows, i, group);
    forall e | e in all ensures e in rows && e.tenant == i.tenant {
      EventsAmongMembers(rows, i.tenant, Elements(i.eventIds) + Elements(EventIds(group)), e);
    }
    forall x, y | 0 <= x < y < |all| ensures all[x].id != all[y].id {
      MergedOnce(rows, i, group, all[x]);
      SameRow(rows, all[x], all[y]);
      TwiceCounts(all, x, y);
    }
  }

  lemma TwiceCounts<T>(s: seq<T>, x: nat, y: nat)
    requires x < y < |s|
    ensures s[x] == s[y] ==> multiset(s)[s[x]] >= 2
  {
    assert s == s[..x] + [s[x]] + s[x + 1..y] + [s[y]] + s[y + 1..];
  }

  lemma MergedSorted(rows: seq<Event>, i: Incident, group: seq<Event>)
    ensures TimeSorted(Merged(rows, i, group))
  {
    SortByIsSorted(group + EventsAmong(rows, i.tenant, Elements(i.eventIds) - Elements(EventIds(group))), When);
    var all := Merged(rows, i, group);
    forall x, y | 0 <= x < y < |all| ensures all[x].timestamp <= all[y].timestamp {
      assert When(all[x]) <= When(all[y]);
    }
  }

  lemma RescoredTells(c: Cases, i: Incident, group: seq<Event>, fp: string)
    requires UniqueIds(c.rows) && GroupOf(c.rows, group) && group[0].tenant == i.tenant && Known(c.rows, i)
    ensures Tells(c.rows, Rescored(c, i, group).(fingerprint := fp))
  {
    var all := Merged(c.rows, i, group);
    MergedDistinct(c.rows, i, group);
    MergedSorted(c.rows, i, group);
    UsersCommonest(all);
    assert Told(c.rows, Rescored(c, i, group).(fingerprint := fp), all);
  }

  // ---- One group ---------------------------------------------------------------------------------------

  lemma EnrichTells(cfg: Settings, h: Hashes, s: Session, k: nat, group: seq<Event>)
    requires 0 < cfg.maxIncidentSpanMinutes && s.Aligned() && k < |s.disk| && Enrich(cfg, h, s, k, group).Stored?
    requires AllTell(s.cases) && UniqueIds(s.cases.rows) && GroupOf(s.cases.rows, group)
    requires group[0].tenant == s.cases.incidents[k].tenant && Known(s.cases.rows, s.cases.incidents[k])
    ensures AllTell(Enrich(cfg, h, s, k, group).session.cases)
  {
    var c, d := s.cases, Enrich(cfg, h, s, k, group).session.cases;
    EnrichRescores(cfg, h, s, k, group);
    RescoredTells(c, c.incidents[k], group, d.incidents[k].fingerprint);
    forall n | 0 <= n < |d.incidents| ensures Tells(d.rows, d.incidents[n]) {
      if n != k {
        assert d.incidents[n] == c.incidents[n];
      }
    }
  }

  lemma CreateTells(h: Hashes, s: Session, group: seq<Event>, found: seq<Finding>, wanted: string, newId: string)
    requires s.Aligned() && AllTell(s.cases) && GroupOf(s.cases.rows, group) && TimeSorted(group)
    requires Create(h, s, group, found, wanted, newId).Stored?
    ensures AllTell(Create(h, s, group, found, wanted, newId).session.cases)
  {
    var c, d := s.cases, Create(h, s, group, found, wanted, newId).session.cases;
    var i := d.incidents[|c.incidents|];
    assert i == Opened(newId, group[0].tenant, i.fingerprint, group, found);
    OpenedTells(c.rows, newId, i.fingerprint, group, found);
    forall n | 0 <= n < |d.incidents| ensures Tells(d.rows, d.incidents[n]) {
      if n < |c.incidents| {
        assert d.incidents[n] == c.incidents[n];
      }
    }
  }

  lemma AbsorbTells(cfg: Settings, h: Hashes, s: Session, group: seq<Event>, newId: string)
    requires 0 < cfg.maxIncidentSpanMinutes && s.Aligned() && EvidenceInv(s.cases) && AllTell(s.cases)
    requires GroupOf(s.cases.rows, group) && TimeSorted(group)
    requires AfterGroup(s, Absorb(cfg, h, s, group, newId)).Some?
    ensures AllTell(AfterGroup(s, Absorb(cfg, h, s, group, newId)).value.cases)
  {
    if Absorb(cfg, h, s, group, newId).Stored? {
      var found := GroupFindings(s.cases.records, EventIds(group));
      var wanted := Fingerprint(cfg, h, group[0].tenant, Flags(found), group);
      FoundIsOpen(s, group[0].tenant, wanted, Elements(EventIds(group)));
      match FindExisting(s.Table(), group[0].tenant, wanted, Elements(EventIds(group))) {
        case Some(k) =>
          assert IncidentInv(s.cases, s.cases.incidents[k]);
          EnrichTells(cfg, h, s, k, group);
        case None => CreateTells(h, s, group, found, wanted, newId);
      }
    }
  }

  lemma {:induction false} GroupsTell(cfg: Settings, h: Hashes, s: Session, groups: seq<seq<Event>>,
                                      newIds: nat -> string)
    requires 0 < cfg.maxIncidentSpanMinutes && SessionInv(h, s) && Ready(s.cases, groups, newIds) && AllTell(s.cases)
    requires forall n :: 0 <= n < |groups| ==> TimeSorted(groups[n])
    requires AbsorbAll(cfg, h, s, groups, newIds).Some?
    ensures AllTell(AbsorbAll(cfg, h, s, groups, newIds).value.cases)
    decreases |groups|
  {
    if groups == [] {
    } else {
      var n := |groups| - 1;
      var t := LastGroupReady(cfg, h, s, groups, newIds);
      GroupsTell(cfg, h, s, groups[..n], newIds);
      AbsorbTells(cfg, h, t, groups[n], newIds(n));
    }
  }

  // ---- Steps and runs ------------------------------------------------------------------------------------

  /** Nothing but new rows, and changes to other columns. */
  lemma KeptTells(c: Cases, d: Cases)
    requires AllTell(c) && |d.incidents| == |c.incidents| && forall e :: e in c.rows ==> e in d.rows
    requires forall k :: 0 <= k < |c.incidents| ==>
               && d.incidents[k].tenant == c.incidents[k].tenant && d.incidents[k].eventIds == c.incidents[k].eventIds
               && d.incidents[k].user == c.incidents[k].user && d.incidents[k].host == c.incidents[k].host
    ensures AllTell(d)
  {
    forall k | 0 <= k < |d.incidents| ensures Tells(d.rows, d.incidents[k]) {
      assert Tells(c.rows, c.incidents[k]);
      var all :| Told(c.rows, c.incidents[k], all);
      assert Told(d.rows, d.incidents[k], all);
    }
  }

  /** The groups of a batch are in time order, as the search emits them. */
  ghost predicate InTimeOrder(step: Step) {
    step.Batch? ==> forall n :: 0 <= n < |step.groups| ==> TimeSorted(step.groups[n])
  }

  lemma BatchTells(cfg: Settings, h: Hashes, d: Desk, step: Step)
    requires 0 < cfg.maxIncidentSpanMinutes && CasesInv(h, d.cases) && AllTell(d.cases)
    requires step.Batch? && Enabled(d, step) && InTimeOrder(step)
    ensures AllTell(Apply(cfg, h, d, step).cases)
  {
    var c := Ingested(d.cases, step.rows, step.records);
    KeptTells(d.cases, c);
    IngestKeepsCases(h, d.cases, step.rows, step.records);
    if CorrelateBatch(cfg, h, c, step.groups, step.newIds).Some? {
      BeginInv(h, c);
      GroupsTell(cfg, h, Begin(c), step.groups, step.newIds);
    }
  }

  lemma RespondTells(cfg: Settings, d: Desk, req: Request, now: int)
    requires AllTell(d.cases)
    ensures AllTell(Execute(cfg, d, req, now).0.cases)
  {
    var c, e := d.cases, Execute(cfg, d, req, now).0.cases;
    ExecuteChangesOneIncident(cfg, d, req, now);
    if e != c {
      var k, n := ResponseWitness(c, e, req, now);
      RespondedRow(c, k, n, req, now);
      KeptTells(c, e);
    }
  }

  lemma MoveTells(d: Desk, tenant: string, id: string, target: Status, now: int)
    requires AllTell(d.cases)
    ensures AllTell(UpdateIncident(d, tenant, id, target, now).0.cases)
  {
    KeptTells(d.cases, UpdateIncident(d, tenant, id, target, now).0.cases);
  }

  lemma StepTells(cfg: Settings, h: Hashes, d: Desk, step: Step)
    requires 0 < cfg.maxIncidentSpanMinutes && CasesInv(h, d.cases) && AllTell(d.cases)
    requires Enabled(d, step) && InTimeOrder(step)
    ensures AllTell(Apply(cfg, h, d, step).cases)
  {
    match step {
      case Batch(_, _, _, _) => BatchTells(cfg, h, d, step);
      case Ask(_, _) =>
      case Decide(_, _, _, _) =>
      case Respond(req, now) => RespondTells(cfg, d.(clock := now), req, now);
      case Move(tenant, id, target, now) => MoveTells(d.(clock := now), tenant, id, target, now);
    }
  }

  lemma {:induction false} RunTells(cfg: Settings, h: Hashes, d: Desk, steps: seq<Step>, e: Desk)
    requires 0 < cfg.maxIncidentSpanMinutes && DeskInv(cfg, h, d) && AllTell(d.cases) && IsRun(cfg, h, d, steps, e)
    requires forall n :: 0 <= n < |steps| ==> InTimeOrder(steps[n])
    ensures AllTell(e.cases)
    decreases |steps|
  {
    if steps == [] {
    } else {
      StepTells(cfg, h, d, steps[0]);
      StepKeepsInv(cfg, h, d, steps[0]);
      RunTells(cfg, h, Apply(cfg, h, d, steps[0]), steps[1..], e);
    }
  }

  /** In every reachable state every incident tells its evidence. */
  lemma ReachableTells(cfg: Settings, h: Hashes, steps: seq<Step>, d: Desk)
    requires 0 < cfg.maxIncidentSpanMinutes && Reachable(cfg, h, steps, d)
    requires forall n :: 0 <= n < |steps| ==> InTimeOrder(steps[n])
    ensures AllTell(d.cases)
  {
    NothingInv(cfg, h);
    RunTells(cfg, h, NOTHING, steps, d);
  }

  // ---- The fingerprint a group leaves ---------------------------------------------------------------------

  /** Another row of the tenant holds the fingerprint. */
  ghost predicate HeldElsewhere(s: Session, k: nat, tenant: string, fp: string)
    requires s.Aligned()
  {
    exists n :: 0 <= n < |s.disk| && n != k && s.cases.incidents[n].tenant == tenant && s.disk[n] == fp
  }

  lemma TakenIff(incidents: seq<Incident>, tenant: string, fp: string)
    ensures TakenInTenant(incidents, tenant, fp)
       <==> exists n :: 0 <= n < |incidents| && incidents[n].tenant == tenant && incidents[n].fingerprint == fp
  {
    if n :| 0 <= n < |incidents| && incidents[n].tenant == tenant && incidents[n].fingerprint == fp {
      assert incidents[n] in incidents;
    }
  }

  lemma OthersTakenIff(s: Session, k: nat, tenant: string, fp: string)
    requires s.Aligned() && k < |s.disk|
    ensures TakenInTenant(Incidents.Others(s.Table(), k), tenant, fp) <==> HeldElsewhere(s, k, tenant, fp)
  {
    var rest := Incidents.Others(s.Table(), k);
    TakenIff(rest, tenant, fp);
    if n :| 0 <= n < |rest| && rest[n].tenant == tenant && rest[n].fingerprint == fp {
      var m := if n < k then n else n + 1;
      assert rest[n] == s.Table()[m];
    }
    if n :| 0 <= n < |s.disk| && n != k && s.cases.incidents[n].tenant == tenant && s.disk[n] == fp {
      var m := if n < k then n else n - 1;
      assert rest[m] == s.Table()[n];
    }
  }

  lemma TableTakenIff(s: Session, tenant: string, fp: string)
    requires s.Aligned()
    ensures TakenInTenant(s.Table(), tenant, fp) <==> HeldElsewhere(s, |s.disk|, tenant, fp)
  {
    var rows := s.Table();
    TakenIff(rows, tenant, fp);
    if n :| 0 <= n < |rows| && rows[n].tenant == tenant && rows[n].fingerprint == fp {
      assert s.cases.incidents[n].tenant == tenant && s.disk[n] == fp;
    }
    if n :| 0 <= n < |s.disk| && n != |s.disk| && s.cases.incidents[n].tenant == tenant && s.disk[n] == fp {
      assert rows[n].tenant == tenant && rows[n].fingerprint == fp;
    }
  }

  /**
   A new incident takes the fingerprint the group asks for, or, if a row of its tenant has it, the other digest.
   Nobody has been assigned to it or triaged it.
   */
  lemma CreatedFingerprint(h: Hashes, s: Session, group: seq<Event>, found: seq<Finding>, wanted: string, newId: string)
    requires s.Aligned() && group != [] && Create(h, s, group, found, wanted, newId).Stored?
    ensures var r := Create(h, s, group, found, wanted, newId);
            && r.at == |s.disk| < |r.session.cases.incidents|
            && var j := r.session.cases.incidents[r.at];
               && j.id == newId && j.tenant == group[0].tenant && j.kind == InferType(Flags(found))
               && j.status == New && j.assignedTo == None && j.triagedAt == None
               && j.fingerprint == if HeldElsewhere(s, |s.disk|, group[0].tenant, wanted)
                                   then h.rehash(group[0].tenant, wanted, EventIds(group)) else wanted
  {
    TableTakenIff(s, group[0].tenant, wanted);
  }

  /**
   An enriched one takes the fingerprint of its new evidence - type, principal and start - unless another row of
   its tenant has it; then it keeps its own. Status, assignment and triage stay.
   */
  lemma EnrichedFingerprint(cfg: Settings, h: Hashes, s: Session, k: nat, group: seq<Event>)
    requires 0 < cfg.maxIncidentSpanMinutes && s.Aligned() && k < |s.disk| && Enrich(cfg, h, s, k, group).Stored?
    ensures var i, j := s.cases.incidents[k], Enrich(cfg, h, s, k, group).session.cases.incidents[k];
            var all := Merged(s.cases.rows, i, group);
            && all != [] && j.eventIds == EventIds(all) && Principal(all).Some?
            && j.id == i.id && j.tenant == i.tenant && j.status == i.status
            && j.assignedTo == i.assignedTo && j.triagedAt == i.triagedAt
            && var wanted := h.fingerprint(i.tenant, j.kind, Principal(all).value,
                                           Incidents.Bucket(cfg, all[0].timestamp));
               j.fingerprint == if HeldElsewhere(s, k, i.tenant, wanted) then i.fingerprint else wanted
  {
    var i, all := s.cases.incidents[k], Merged(s.cases.rows, s.cases.incidents[k], group);
    var found := FindingsAbout(s.cases.records, Elements(EventIds(all)));
    OthersTakenIff(s, k, i.tenant, Fingerprint(cfg, h, i.tenant, Flags(found), all));
  }

  // ---- The history row of an enrichment -------------------------------------------------------------------

  /** Score, residual risk or type has changed, or there is an event that was not there before. */
  ghost predicate Noteworthy(i: Incident, j: Incident) {
    || j.risk != i.risk || j.residual != i.residual || j.kind != i.kind
    || exists id :: id in j.eventIds && id !in i.eventIds
  }

  lemma EnrichmentIff(i: Incident, j: Incident)
    requires Elements(i.eventIds) <= Elements(j.eventIds)
    ensures Enrichment(i, j)
            == if Noteworthy(i, j) then [HistoryRow(j.id, j.risk, j.residual, IncidentEnriched)] else []
  {
    var a, b := Elements(i.eventIds), Elements(j.eventIds);
    if id :| id in j.eventIds && id !in i.eventIds {
      assert id in b && id !in a;
    } else {
      assert forall id :: id in b ==> id in j.eventIds && id in a;
      assert a == b;
    }
  }

  /** An enrichment is recorded exactly if it is noteworthy. */
  lemma EnrichedHistory(cfg: Settings, h: Hashes, s: Session, k: nat, group: seq<Event>)
    requires 0 < cfg.maxIncidentSpanMinutes && s.Aligned() && EvidenceInv(s.cases) && GroupOf(s.cases.rows, group)
    requires k < |s.disk| && s.cases.incidents[k].tenant == group[0].tenant && Open(s.cases.incidents[k])
    requires Enrich(cfg, h, s, k, group).Stored?
    ensures var c, d := s.cases, Enrich(cfg, h, s, k, group).session.cases;
            && |d.incidents| == |c.incidents|
            && d.history == c.history
                 + if Noteworthy(c.incidents[k], d.incidents[k])
                   then [HistoryRow(d.incidents[k].id, d.incidents[k].risk, d.incidents[k].residual, IncidentEnriched)]
                   else []
  {
    EnrichEffect(cfg, h, s, k, group);
    EnrichmentIff(s.cases.incidents[k], Enrich(cfg, h, s, k, group).session.cases.incidents[k]);
  }
}
