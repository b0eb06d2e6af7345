/**
 A whole batch of telemetry (backend/app/services/pipeline.py, lines 119-228) seen from the incident
 tables: what the pipeline stores and what correlation makes of it is one Batch step of the incident
 machine, in the transaction that commits or rolls back both.
 */
module Batches {
  import opened Base
  import opened Config
  import Correlation
  import Groups
  import opened Detection
  import opened Rules
  import Pipeline
  import Ingestion
  import Columns
  import opened Incidents
  import opened IncidentLaws
  import opened Transactions
  import opened Response
  import opened Workflow
  import Correlator
  import Evidence

  function Normalized(rows: seq<RawEvent>, tenant: string): seq<Correlation.Event> {
    seq(|rows|, i requires 0 <= i < |rows| => Pipeline.Normalize(rows[i], tenant))
  }

  // ---- The tables of all tenants and those of one ---------------------------------------------------

  function TenantRow(tenant: string): Correlation.Event -> bool {
    (e: Correlation.Event) => e.tenant == tenant
  }

  function FindingOn(rows: seq<RawEvent>): Finding -> bool {
    (f: Finding) => Pipeline.HasId(rows, f.eventId)
  }

  /** The rows and findings of the tenant are those its pipeline has stored. */
  ghost predicate Mirrors(c: Cases, st: Pipeline.State, tenant: string) {
    && Filter(c.rows, TenantRow(tenant)) == Normalized(st.rows, tenant)
    && Filter(c.records, FindingOn(st.rows)) == st.records
  }

  /** Every finding in the table is about a row of the table. */
  ghost predicate FindingsKnown(c: Cases) {
    forall f :: f in c.records ==> HasRowId(c.rows, f.eventId)
  }

  predicate HasRowId(rows: seq<Correlation.Event>, id: string) {
    exists e :: e in rows && e.id == id
  }

  /** No other tenant has an event with an id of the batch. */
  ghost predicate NotForeign(c: Cases, batch: seq<RawEvent>, tenant: string) {
    forall e :: e in c.rows && e.tenant != tenant ==> !Pipeline.HasId(batch, e.id)
  }

  lemma NormalizedAppend(rows: seq<RawEvent>, more: seq<RawEvent>, tenant: string)
    ensures Normalized(rows + more, tenant) == Normalized(rows, tenant) + Normalized(more, tenant)
  {
  }

  lemma NormalizedMembers(rows: seq<RawEvent>, tenant: string)
    ensures forall e :: e in Normalized(rows, tenant) ==> e.tenant == tenant && Pipeline.HasId(rows, e.id)
    ensures forall id :: Pipeline.HasId(rows, id) ==> HasRowId(Normalized(rows, tenant), id)
  {
    var all := Normalized(rows, tenant);
    forall e | e in all ensures e.tenant == tenant && Pipeline.HasId(rows, e.id) {
      var k :| 0 <= k < |all| && all[k] == e;
      assert rows[k] in rows;
    }
    forall id | Pipeline.HasId(rows, id) ensures HasRowId(all, id) {
      var r :| r in rows && r.id == id;
      var k :| 0 <= k < |rows| && rows[k] == r;
      assert all[k] in all;
    }
  }

  /** An id the pipeline takes for new is in no row of the event table. */
  lemma NewIdsUnknown(c: Cases, st: Pipeline.State, batch: seq<RawEvent>, tenant: string)
    requires Mirrors(c, st, tenant) && NotForeign(c, batch, tenant)
    ensures forall e, r :: e in c.rows && r in Pipeline.NewRows(st.rows, batch) ==> e.id != r.id
  {
  }

  lemma RowsStayUnique(c: Cases, st: Pipeline.State, batch: seq<RawEvent>, tenant: string)
    requires Correlation.UniqueIds(c.rows) && Mirrors(c, st, tenant) && NotForeign(c, batch, tenant)
    requires !Pipeline.RepeatsNewId(st.rows, batch)
    ensures Correlation.UniqueIds(c.rows + Normalized(Pipeline.NewRows(st.rows, batch), tenant))
  {
    var more := Pipeline.NewRows(st.rows, batch);
    var all := c.rows + Normalized(more, tenant);
    Pipeline.FlushFailsIff(st.rows, batch);
    NewIdsUnknown(c, st, batch, tenant);
    forall i, j | 0 <= i < j < |all| ensures all[i].id != all[j].id {
      if i < |c.rows| <= j {
        assert c.rows[i] in c.rows && more[j - |c.rows|] in more;
      }
    }
  }

  // ---- What a batch adds ------------------------------------------------------------------------------

  /** The findings one batch adds to the table. */
  ghost function AddedFindings(st: Pipeline.State, after: Pipeline.State): seq<Finding>
    requires st.records <= after.records
  {
    after.records[|st.records|..]
  }

  lemma BatchAppends(cfg: Settings, baseline: Baseline, mentions: Pipeline.Mentions, st: Pipeline.State,
                     batch: seq<RawEvent>)
    requires 1 <= cfg.mfaFatigueThreshold && Ingestion.Consistent(st) && Ingestion.UniqueKeys(st.records)
    requires !Pipeline.RepeatsNewId(st.rows, batch)
    ensures var after := Pipeline.ProcessTelemetry(cfg, baseline, mentions, st, batch);
            && after.rows == st.rows + Pipeline.NewRows(st.rows, batch) && st.records <= after.records
            && Ingestion.Consistent(after) && Ingestion.UniqueKeys(after.records)
  {
    Ingestion.ProcessKeepsConsistent(cfg, baseline, mentions, st, batch);
    if batch == [] {
      assert st.rows + [] == st.rows;
    } else {
      var rows := Pipeline.AddRows(st.rows, batch);
      Ingestion.RecordAppends(st.records, Detected(cfg, baseline, Pipeline.Slice(cfg, mentions, rows, batch)));
    }
  }

  /** The tenant's part of the tables grows by just what its pipeline has added. */
  lemma RowsMirrored(c: Cases, rows: seq<RawEvent>, more: seq<RawEvent>, tenant: string)
    requires Filter(c.rows, TenantRow(tenant)) == Normalized(rows, tenant)
    ensures Filter(c.rows + Normalized(more, tenant), TenantRow(tenant)) == Normalized(rows + more, tenant)
  {
    FilterAppend(c.rows, Normalized(more, tenant), TenantRow(tenant));
    NormalizedMembers(more, tenant);
    FilterAll(Normalized(more, tenant), TenantRow(tenant));
    NormalizedAppend(rows, more, tenant);
  }

  lemma FindingsMirrored(c: Cases, rows: seq<RawEvent>, more: seq<RawEvent>, records: seq<Finding>,
                         found: seq<Finding>)
    requires FindingsKnown(c) && Filter(c.records, FindingOn(rows)) == records
    requires forall e, r :: e in c.rows && r in more ==> e.id != r.id
    requires forall f :: f in found ==> Pipeline.HasId(rows + more, f.eventId)
    ensures Filter(c.records + found, FindingOn(rows + more)) == records + found
  {
    Pipeline.RowsAdded(rows, more);
    forall f | f in c.records ensures FindingOn(rows)(f) == FindingOn(rows + more)(f) {
      assert HasRowId(c.rows, f.eventId);
    }
    FilterSame(c.records, FindingOn(rows), FindingOn(rows + more));
    FilterAppend(c.records, found, FindingOn(rows + more));
    FilterAll(found, FindingOn(rows + more));
  }

  lemma FindingsStayKnown(c: Cases, more: seq<Correlation.Event>, found: seq<Finding>)
    requires FindingsKnown(c) && forall f :: f in found ==> HasRowId(c.rows + more, f.eventId)
    ensures FindingsKnown(Ingested(c, more, found))
  {
  }

  /** The rows of the tenant's pipeline are in the event table. */
  lemma StoredInTable(c: Cases, st: Pipeline.State, tenant: string, more: seq<RawEvent>, id: string)
    requires Mirrors(c, st, tenant) && Pipeline.HasId(st.rows + more, id)
    ensures HasRowId(c.rows + Normalized(more, tenant), id)
  {
    var all := c.rows + Normalized(more, tenant);
    RowsMirrored(c, st.rows, more, tenant);
    NormalizedMembers(st.rows + more, tenant);
    var e :| e in Normalized(st.rows + more, tenant) && e.id == id;
    assert e in Filter(all, TenantRow(tenant));
  }

  /** The tables of all tenants after a tenant's pipeline has added rows and findings. */
  lemma GrownMirrors(c: Cases, st: Pipeline.State, after: Pipeline.State, batch: seq<RawEvent>, tenant: string)
    requires FindingsKnown(c) && Mirrors(c, st, tenant) && NotForeign(c, batch, tenant)
    requires after.rows == st.rows + Pipeline.NewRows(st.rows, batch) && st.records <= after.records
    requires Ingestion.About(after.records, after.rows)
    ensures var d := Ingested(c, Normalized(Pipeline.NewRows(st.rows, batch), tenant), AddedFindings(st, after));
            FindingsKnown(d) && Mirrors(d, after, tenant)
  {
    var more, found := Pipeline.NewRows(st.rows, batch), AddedFindings(st, after);
    assert after.records == st.records + found;
    RowsMirrored(c, st.rows, more, tenant);
    NewIdsUnknown(c, st, batch, tenant);
    FindingsMirrored(c, st.rows, more, st.records, found);
    forall f | f in found ensures HasRowId(c.rows + Normalized(more, tenant), f.eventId) {
      StoredInTable(c, st, tenant, more, f.eventId);
    }
    FindingsStayKnown(c, Normalized(more, tenant), found);
  }

  /** What one batch of the tenant adds to the tables of all tenants. */
  lemma IngestedMirrors(cfg: Settings, baseline: Baseline, mentions: Pipeline.Mentions, tenant: string,
                        st: Pipeline.State, c: Cases, batch: seq<RawEvent>)
    requires 1 <= cfg.mfaFatigueThreshold && Ingestion.Consistent(st) && Ingestion.UniqueKeys(st.records)
    requires Correlation.UniqueIds(c.rows) && FindingsKnown(c) && Mirrors(c, st, tenant)
    requires NotForeign(c, batch, tenant) && !Pipeline.RepeatsNewId(st.rows, batch)
    ensures var after := Pipeline.ProcessTelemetry(cfg, baseline, mentions, st, batch);
            && st.records <= after.records
            && var more := Normalized(Pipeline.NewRows(st.rows, batch), tenant);
               var d := Ingested(c, more, AddedFindings(st, after));
               Correlation.UniqueIds(d.rows) && FindingsKnown(d) && Mirrors(d, after, tenant)
  {
    BatchAppends(cfg, baseline, mentions, st, batch);
    RowsStayUnique(c, st, batch, tenant);
    GrownMirrors(c, st, Pipeline.ProcessTelemetry(cfg, baseline, mentions, st, batch), batch, tenant);
  }

  /** What a tenant's pipeline has stored is in the event table. */
  lemma StoredRow(c: Cases, st: Pipeline.State, tenant: string, id: string) returns (e: Correlation.Event)
    requires Mirrors(c, st, tenant) && Pipeline.HasId(st.rows, id)
    ensures e in c.rows && e.tenant == tenant && e.id == id
  {
    NormalizedMembers(st.rows, tenant);
    e :| e in Normalized(st.rows, tenant) && e.id == id;
    assert e in Filter(c.rows, TenantRow(tenant));
  }

  /** No two tenants have an event of the same id. */
  lemma SameIdSameTenant(c: Cases, st: Pipeline.State, tenant: string, su: Pipeline.State, other: string, id: string)
    requires Correlation.UniqueIds(c.rows) && Mirrors(c, st, tenant) && Mirrors(c, su, other)
    requires Pipeline.HasId(st.rows, id) && Pipeline.HasId(su.rows, id)
    ensures tenant == other
  {
    var x := StoredRow(c, st, tenant, id);
    var y := StoredRow(c, su, other, id);
    SameRow(c.rows, x, y);
  }

  /** An event of another tenant has neither a stored nor a new id of this one. */
  lemma OtherIds(c: Cases, st: Pipeline.State, tenant: string, su: Pipeline.State, other: string,
                 batch: seq<RawEvent>, id: string)
    requires Correlation.UniqueIds(c.rows) && Mirrors(c, st, tenant) && Mirrors(c, su, other)
    requires NotForeign(c, batch, tenant) && Pipeline.HasId(su.rows, id)
    ensures !Pipeline.HasId(Pipeline.NewRows(st.rows, batch), id)
    ensures Pipeline.HasId(st.rows, id) ==> tenant == other
  {
    var e := StoredRow(c, su, other, id);
    NewIdsUnknown(c, st, batch, tenant);
    if Pipeline.HasId(st.rows, id) {
      SameIdSameTenant(c, st, tenant, su, other, id);
    }
  }

  /** The tables of every other tenant are as before. */
  lemma OtherTenantsKept(c: Cases, st: Pipeline.State, tenant: string, su: Pipeline.State, other: string,
                         batch: seq<RawEvent>, found: seq<Finding>)
    requires Correlation.UniqueIds(c.rows) && Mirrors(c, st, tenant) && Mirrors(c, su, other) && other != tenant
    requires NotForeign(c, batch, tenant)
    requires var more := Pipeline.NewRows(st.rows, batch);
             forall f :: f in found ==> Pipeline.HasId(st.rows + more, f.eventId)
    ensures Mirrors(Ingested(c, Normalized(Pipeline.NewRows(st.rows, batch), tenant), found), su, other)
  {
    var more := Pipeline.NewRows(st.rows, batch);
    NormalizedMembers(more, tenant);
    FilterAppend(c.rows, Normalized(more, tenant), TenantRow(other));
    FilterNone(Normalized(more, tenant), TenantRow(other));
    Pipeline.RowsAdded(st.rows, more);
    forall id | Pipeline.HasId(su.rows, id) ensures !Pipeline.HasId(st.rows + more, id) {
      OtherIds(c, st, tenant, su, other, batch, id);
    }
    FilterAppend(c.records, found, FindingOn(su.rows));
    FilterNone(found, FindingOn(su.rows));
  }

  // ---- What is correlated ---------------------------------------------------------------------------------

  /** Flagged events from one correlation window before the batch to one after it. */
  predicate NearBatch(cfg: Settings, batch: seq<RawEvent>, row: RawEvent) {
    && (exists e :: e in batch && row.timestamp >= e.timestamp - cfg.correlationWindowMinutes * MINUTE)
    && (exists e :: e in batch && row.timestamp <= e.timestamp + cfg.correlationWindowMinutes * MINUTE)
  }

  function Candidate(cfg: Settings, st: Pipeline.State, batch: seq<RawEvent>): RawEvent -> bool {
    (row: RawEvent) => NearBatch(cfg, batch, row) && row.id in st.notes && st.notes[row.id].risk > 0
  }

  /** The events of the tenant that are correlated once the batch has been stored. */
  function Candidates(cfg: Settings, st: Pipeline.State, batch: seq<RawEvent>, tenant: string): seq<Correlation.Event> {
    Normalized(Filter(st.rows, Candidate(cfg, st, batch)), tenant)
  }

  /** The row is stored, at most the correlation window from the span of the batch, and some finding about it scores. */
  ghost predicate Suspect(cfg: Settings, st: Pipeline.State, batch: seq<RawEvent>, row: RawEvent) {
    && row in st.rows
    && (exists e :: e in batch && row.timestamp >= e.timestamp - cfg.correlationWindowMinutes * 60 * 1_000_000)
    && (exists e :: e in batch && row.timestamp <= e.timestamp + cfg.correlationWindowMinutes * 60 * 1_000_000)
    && (exists f :: f in st.records && f.eventId == row.id && f.risk > 0)
  }

  lemma SuspectIff(cfg: Settings, st: Pipeline.State, batch: seq<RawEvent>, row: RawEvent)
    requires Ingestion.Consistent(st)
    ensures row in st.rows && Candidate(cfg, st, batch)(row) <==> Suspect(cfg, st, batch, row)
  {
    assert cfg.correlationWindowMinutes * MINUTE == cfg.correlationWindowMinutes * 60 * 1_000_000;
    if row in st.rows {
      assert Pipeline.HasId(st.rows, row.id);
      Columns.ScoresIff(st, row.id);
    }
  }

  /** Exactly these events of the tenant are correlated. */
  lemma CandidatesIff(cfg: Settings, st: Pipeline.State, batch: seq<RawEvent>, tenant: string, e: Correlation.Event)
    requires Ingestion.Consistent(st)
    ensures e in Candidates(cfg, st, batch, tenant)
       <==> exists row :: Suspect(cfg, st, batch, row) && e == Pipeline.Normalize(row, tenant)
  {
    var kept := Filter(st.rows, Candidate(cfg, st, batch));
    var all := Candidates(cfg, st, batch, tenant);
    if e in all {
      var k :| 0 <= k < |all| && all[k] == e;
      assert kept[k] in kept;
      SuspectIff(cfg, st, batch, kept[k]);
    }
    if row :| Suspect(cfg, st, batch, row) && e == Pipeline.Normalize(row, tenant) {
      SuspectIff(cfg, st, batch, row);
      assert row in kept;
      var k :| 0 <= k < |kept| && kept[k] == row;
      assert all[k] == e;
    }
  }

  lemma CandidatesUnique(c: Cases, cfg: Settings, st: Pipeline.State, batch: seq<RawEvent>, tenant: string)
    requires Correlation.UniqueIds(c.rows) && Mirrors(c, st, tenant)
    ensures Correlation.UniqueIds(Candidates(cfg, st, batch, tenant))
  {
    var all := Candidates(cfg, st, batch, tenant);
    forall i, j | 0 <= i < j < |all| ensures all[i].id != all[j].id {
      var x, y := FilterPositions(st.rows, Candidate(cfg, st, batch), i, j);
      var u, v := FilterPositions(c.rows, TenantRow(tenant), x, y);
    }
  }

  lemma CandidatesStored(c: Cases, cfg: Settings, st: Pipeline.State, batch: seq<RawEvent>, tenant: string)
    requires Mirrors(c, st, tenant)
    ensures forall e :: e in Candidates(cfg, st, batch, tenant) ==> e in c.rows && e.tenant == tenant
  {
    var kept := Filter(st.rows, Candidate(cfg, st, batch));
    var all := Candidates(cfg, st, batch, tenant);
    forall e | e in all ensures e in c.rows && e.tenant == tenant {
      var k :| 0 <= k < |all| && all[k] == e;
      assert kept[k] in kept;
      var n :| 0 <= n < |st.rows| && st.rows[n] == kept[k];
      assert Normalized(st.rows, tenant)[n] == e;
      assert e in Filter(c.rows, TenantRow(tenant));
    }
  }

  /** The groups found among them are groups of stored events. */
  lemma CandidateGroups(c: Cases, cfg: Settings, st: Pipeline.State, batch: seq<RawEvent>, tenant: string,
                        groups: seq<seq<Correlation.Event>>)
    requires Correlation.UniqueIds(c.rows) && Mirrors(c, st, tenant)
    requires Groups.Emitted(cfg, Candidates(cfg, st, batch, tenant), groups)
    ensures Transactions.Groups(c.rows, groups)
  {
    CandidatesUnique(c, cfg, st, batch, tenant);
    CandidatesStored(c, cfg, st, batch, tenant);
    Correlator.EmittedGroups(cfg, Candidates(cfg, st, batch, tenant), c.rows, groups);
  }

  // ---- A batch as a step --------------------------------------------------------------------------------

  ghost function StepOfBatch(cfg: Settings, baseline: Baseline, mentions: Pipeline.Mentions, tenant: string,
                             st: Pipeline.State, batch: seq<RawEvent>, groups: seq<seq<Correlation.Event>>,
                             newIds: nat -> string): Step
    requires 1 <= cfg.mfaFatigueThreshold
    requires st.records <= Pipeline.ProcessTelemetry(cfg, baseline, mentions, st, batch).records
  {
    Batch(Normalized(Pipeline.NewRows(st.rows, batch), tenant),
          AddedFindings(st, Pipeline.ProcessTelemetry(cfg, baseline, mentions, st, batch)), groups, newIds)
  }

  /** The step stores what the pipeline has added, or leaves everything as it was. */
  ghost predicate AllOrNothing(cfg: Settings, h: Hashes, d: Desk, step: Step, after: Pipeline.State, tenant: string)
    requires 0 < cfg.maxIncidentSpanMinutes && step.Batch? && Enabled(d, step)
  {
    match CorrelateBatch(cfg, h, Ingested(d.cases, step.rows, step.records), step.groups, step.newIds)
    case None => Apply(cfg, h, d, step) == d
    case Some(c) => Apply(cfg, h, d, step) == d.(cases := c) && Mirrors(c, after, tenant) && FindingsKnown(c)
  }

  /** Correlation touches neither the event nor the finding table. */
  lemma CommittedTables(cfg: Settings, h: Hashes, d: Desk, step: Step, after: Pipeline.State, tenant: string)
    requires 0 < cfg.maxIncidentSpanMinutes && DeskInv(cfg, h, d) && step.Batch? && Enabled(d, step)
    requires var c := Ingested(d.cases, step.rows, step.records); Mirrors(c, after, tenant) && FindingsKnown(c)
    ensures AllOrNothing(cfg, h, d, step, after, tenant)
  {
    var c := Ingested(d.cases, step.rows, step.records);
    IngestKeepsCases(h, d.cases, step.rows, step.records);
    if CorrelateBatch(cfg, h, c, step.groups, step.newIds).Some? {
      BatchEffect(cfg, h, c, step.groups, step.newIds);
    }
  }

  /**
   A batch of a tenant, with the groups the search emits for its candidates, is one enabled step: if it
   commits, the tenant's rows and findings are those of the pipeline's new state; if it aborts, nothing
   has changed.
   */
  lemma BatchIsStep(cfg: Settings, h: Hashes, baseline: Baseline, mentions: Pipeline.Mentions, tenant: string,
                    st: Pipeline.State, d: Desk, batch: seq<RawEvent>, groups: seq<seq<Correlation.Event>>,
                    newIds: nat -> string) returns (step: Step)
    requires 1 <= cfg.mfaFatigueThreshold && 0 < cfg.maxIncidentSpanMinutes && DeskInv(cfg, h, d)
    requires Ingestion.Consistent(st) && Ingestion.UniqueKeys(st.records)
    requires FindingsKnown(d.cases) && Mirrors(d.cases, st, tenant)
    requires NotForeign(d.cases, batch, tenant) && !Pipeline.RepeatsNewId(st.rows, batch)
    requires FreshIds(d.cases, newIds, |groups|)
    requires var after := Pipeline.ProcessTelemetry(cfg, baseline, mentions, st, batch);
             Groups.Emitted(cfg, Candidates(cfg, after, batch, tenant), groups)
    ensures st.records <= Pipeline.ProcessTelemetry(cfg, baseline, mentions, st, batch).records
    ensures step == StepOfBatch(cfg, baseline, mentions, tenant, st, batch, groups, newIds) && Enabled(d, step)
    ensures AllOrNothing(cfg, h, d, step, Pipeline.ProcessTelemetry(cfg, baseline, mentions, st, batch), tenant)
  {
    IngestedMirrors(cfg, baseline, mentions, tenant, st, d.cases, batch);
    step := StepOfBatch(cfg, baseline, mentions, tenant, st, batch, groups, newIds);
    var after := Pipeline.ProcessTelemetry(cfg, baseline, mentions, st, batch);
    CandidateGroups(Ingested(d.cases, step.rows, step.records), cfg, after, batch, tenant, groups);
    StepIsReady(d, step);
    CommittedTables(cfg, h, d, step, after, tenant);
  }

  /** The emitted groups are in time order. */
  lemma EmittedInTimeOrder(cfg: Settings, events: seq<Correlation.Event>, groups: seq<seq<Correlation.Event>>)
    requires Groups.Emitted(cfg, events, groups)
    ensures forall n :: 0 <= n < |groups| ==> Evidence.TimeSorted(groups[n])
  {
    forall n | 0 <= n < |groups| ensures Evidence.TimeSorted(groups[n]) {
      var key := (e: Correlation.Event) => e.timestamp;
      assert groups[n] in groups;
      forall i, j | 0 <= i < j < |groups[n]| ensures groups[n][i].timestamp <= groups[n][j].timestamp {
        assert key(groups[n][i]) <= key(groups[n][j]);
      }
    }
  }

  lemma StepIsReady(d: Desk, step: Step)
    requires step.Batch? && Correlation.UniqueIds(d.cases.rows + step.rows)
    requires FreshIds(d.cases, step.newIds, |step.groups|) && Transactions.Groups(d.cases.rows + step.rows, step.groups)
    ensures Enabled(d, step)
  {
  }

  // ---- A group the buckets lose ---------------------------------------------------------------------------

  /** Two connections of unknown users and hosts: the source of the first is the destination of the second. */
  predicate RelayedThrough(x: RawEvent, y: RawEvent) {
    && x.Network? && y.Network? && x.networkUser == y.networkUser == None && x.networkHost == y.networkHost == None
    && x.sourceIp == y.destinationIp && x.sourceIp != y.sourceIp && x.destinationIp != y.destinationIp
  }

  /** As stored events they are a group by all pairs at the default settings, and none by the code. */
  lemma RelayIsLost(x: RawEvent, y: RawEvent, tenant: string)
    requires RelayedThrough(x, y) && 0 <= y.timestamp - x.timestamp <= 900 * SECOND
    ensures var a, b := Pipeline.Normalize(x, tenant), Pipeline.Normalize(y, tenant);
            && {a, b} in Groups.GroupSets(DEFAULTS, {a, b}, Correlation.FullEdge(DEFAULTS))
            && Groups.GroupSets(DEFAULTS, {a, b}, Correlation.PrunedEdge(DEFAULTS)) == {}
  {
    var a, b := Pipeline.Normalize(x, tenant), Pipeline.Normalize(y, tenant);
    Correlation.AnchoredMeaning(a, b);
    Correlation.PruningGap(DEFAULTS, a, b);
    Groups.PruningLosesAGroup(a, b);
  }
}
