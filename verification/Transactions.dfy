/**
 What one committed batch of groups does to the incident table, and the batches that abort
 (backend/app/services/correlation_engine.py, lines 208-400, and backend/app/services/pipeline.py, line 228).
 */
module Transactions {
  import opened Base
  import opened Config
  import opened Correlation
  import opened Detection
  import opened Playbook
  import opened Risk
  import opened Incidents
  import opened IncidentLaws
  import opened Absorption
  import opened Sessions

  type Event = Correlation.Event

  // ---- Incident ids ---------------------------------------------------------------------------------

  /** Incident ids are unique and free of the separator of idempotency keys. */
  ghost predicate IncidentKeys(incidents: seq<Incident>) {
    && (forall k :: 0 <= k < |incidents| ==> ColonFree(incidents[k].id))
    && (forall j, k :: 0 <= j < k < |incidents| ==> incidents[j].id != incidents[k].id)
  }

  ghost predicate FreshId(c: Cases, id: string) {
    ColonFree(id) && forall k :: 0 <= k < |c.incidents| ==> c.incidents[k].id != id
  }

  /** Generated incident ids: without the separator, unused, and never repeated within the call. */
  ghost predicate FreshIds(c: Cases, newIds: nat -> string, n: nat) {
    && (forall k :: 0 <= k < n ==> FreshId(c, newIds(k)))
    && (forall j, k :: 0 <= j < k < n ==> newIds(j) != newIds(k))
  }

  ghost predicate IdFrom(c: Cases, id: string, newIds: nat -> string, n: nat) {
    || (exists j :: 0 <= j < |c.incidents| && c.incidents[j].id == id)
    || (exists j :: 0 <= j < n && newIds(j) == id)
  }

  /** Only ids handed out so far have been added. */
  ghost predicate IdsFrom(c: Cases, d: Cases, newIds: nat -> string, n: nat) {
    forall k :: 0 <= k < |d.incidents| ==> IdFrom(c, d.incidents[k].id, newIds, n)
  }

  lemma NoIdsAdded(c: Cases, newIds: nat -> string)
    ensures IdsFrom(c, c, newIds, 0)
  {
  }

  lemma NextIdFresh(c: Cases, d: Cases, newIds: nat -> string, n: nat)
    requires FreshIds(c, newIds, n + 1) && IdsFrom(c, d, newIds, n)
    ensures FreshId(d, newIds(n))
  {
  }

  lemma NextIdsFrom(c: Cases, d: Cases, e: Cases, newIds: nat -> string, n: nat)
    requires IdsFrom(c, d, newIds, n) && GroupDone(d, e, newIds(n))
    ensures IdsFrom(c, e, newIds, n + 1)
  {
  }

  lemma NewIdKeepsKeys(c: Cases, d: Cases, newId: string)
    requires IncidentKeys(c.incidents) && FreshId(c, newId) && GroupDone(c, d, newId)
    ensures IncidentKeys(d.incidents)
  {
  }

  // ---- What a batch keeps ------------------------------------------------------------------------------

  /** What holds between two groups of a batch. */
  ghost predicate SessionInv(h: Hashes, s: Session) {
    && s.Aligned() && EvidenceInv(s.cases) && Hashed(h, s.cases) && HashedTable(h, s)
    && IncidentKeys(s.cases.incidents)
  }

  /** What holds between two batches. */
  ghost predicate CasesInv(h: Hashes, c: Cases) {
    Inv(c) && Hashed(h, c) && IncidentKeys(c.incidents)
  }

  lemma BeginInv(h: Hashes, c: Cases)
    requires CasesInv(h, c)
    ensures SessionInv(h, Begin(c)) && PendingApart(Begin(c))
  {
  }

  /** New telemetry, before it is correlated, keeps every incident's invariant. */
  lemma IngestKeepsCases(h: Hashes, c: Cases, rows: seq<Event>, records: seq<Finding>)
    requires CasesInv(h, c) && UniqueIds(c.rows + rows)
    ensures CasesInv(h, Ingested(c, rows, records))
  {
    var d := Ingested(c, rows, records);
    forall n | 0 <= n < |d.incidents| ensures IncidentInv(d, d.incidents[n]) {
      IngestKeepsIncident(c, c.incidents[n], rows, records);
    }
  }

  /** The tables after the rows and findings of a batch have been added. */
  function Ingested(c: Cases, rows: seq<Event>, records: seq<Finding>): Cases {
    c.(rows := c.rows + rows, records := c.records + records)
  }

  lemma EnrichKeepsHashed(cfg: Settings, h: Hashes, s: Session, k: nat, group: seq<Event>)
    requires 0 < cfg.maxIncidentSpanMinutes && s.Aligned() && k < |s.disk| && Hashed(h, s.cases) && HashedTable(h, s)
    requires Enrich(cfg, h, s, k, group).Stored?
    ensures var t := Enrich(cfg, h, s, k, group).session; Hashed(h, t.cases) && HashedTable(h, t)
  {
    var i := s.cases.incidents[k];
    var all := Merged(s.cases.rows, i, group);
    var found := FindingsAbout(s.cases.records, Elements(EventIds(all)));
    assert HashOf(h, i.tenant, Fingerprint(cfg, h, i.tenant, Flags(found), all));
  }

  lemma CreateKeepsHashed(h: Hashes, s: Session, group: seq<Event>, found: seq<Finding>, wanted: string, newId: string)
    requires s.Aligned() && group != [] && Hashed(h, s.cases) && HashOf(h, group[0].tenant, wanted)
    requires Create(h, s, group, found, wanted, newId).Stored?
    ensures var t := Create(h, s, group, found, wanted, newId).session; Hashed(h, t.cases) && HashedTable(h, t)
  {
  }

  lemma AbsorbKeepsHashed(cfg: Settings, h: Hashes, s: Session, group: seq<Event>, newId: string)
    requires 0 < cfg.maxIncidentSpanMinutes && s.Aligned() && group != [] && Hashed(h, s.cases) && HashedTable(h, s)
    requires Absorb(cfg, h, s, group, newId).Stored?
    ensures var t := Absorb(cfg, h, s, group, newId).session; Hashed(h, t.cases) && HashedTable(h, t)
  {
    var found := GroupFindings(s.cases.records, EventIds(group));
    var tenant, ids := group[0].tenant, Elements(EventIds(group));
    var wanted := Fingerprint(cfg, h, tenant, Flags(found), group);
    FoundIsOpen(s, tenant, wanted, ids);
    match FindExisting(s.Table(), tenant, wanted, ids) {
      case Some(k) => EnrichKeepsHashed(cfg, h, s, k, group);
      case None => CreateKeepsHashed(h, s, group, found, wanted, newId);
    }
  }

  lemma AbsorbKeepsSession(cfg: Settings, h: Hashes, s: Session, group: seq<Event>, newId: string)
    requires 0 < cfg.maxIncidentSpanMinutes && SessionInv(h, s) && GroupOf(s.cases.rows, group)
    requires FreshId(s.cases, newId) && AfterGroup(s, Absorb(cfg, h, s, group, newId)).Some?
    ensures var t := AfterGroup(s, Absorb(cfg, h, s, group, newId)).value;
            SessionInv(h, t) && GroupDone(s.cases, t.cases, newId)
  {
    if Absorb(cfg, h, s, group, newId).Stored? {
      AbsorbKeepsEvidence(cfg, h, s, group, newId);
      AbsorbKeepsHashed(cfg, h, s, group, newId);
      NewIdKeepsKeys(s.cases, Absorb(cfg, h, s, group, newId).session.cases, newId);
    }
  }

  /** What a batch can have done to the tables: old incidents as they were or grown, new ones in status NEW. */
  ghost predicate BatchDone(c: Cases, d: Cases) {
    && d == c.(incidents := d.incidents, history := d.history)
    && |c.incidents| <= |d.incidents|
    && (forall k :: 0 <= k < |c.incidents| ==> Touched(c.incidents[k], d.incidents[k]))
    && (forall k :: |c.incidents| <= k < |d.incidents| ==> d.incidents[k].status == New)
  }

  lemma NextGroupDone(c: Cases, d: Cases, e: Cases, newId: string)
    requires BatchDone(c, d) && GroupDone(d, e, newId)
    ensures BatchDone(c, e)
  {
  }

  ghost predicate Groups(rows: seq<Event>, groups: seq<seq<Event>>) {
    forall n :: 0 <= n < |groups| ==> groups[n] != [] && GroupOf(rows, groups[n])
  }

  /** A batch may be correlated: its groups are groups of stored events, and the ids it generates are new. */
  ghost predicate Ready(c: Cases, groups: seq<seq<Event>>, newIds: nat -> string) {
    Groups(c.rows, groups) && FreshIds(c, newIds, |groups|)
  }

  /** The session the last group of a batch meets. */
  function BeforeLast(cfg: Settings, h: Hashes, s: Session, groups: seq<seq<Event>>, newIds: nat -> string)
    : (t: Session)
    requires 0 < cfg.maxIncidentSpanMinutes && s.Aligned() && groups != []
    requires forall n :: 0 <= n < |groups| ==> groups[n] != []
    requires AbsorbAll(cfg, h, s, groups, newIds).Some?
    ensures t.Aligned() && AbsorbAll(cfg, h, s, groups[..|groups| - 1], newIds) == Some(t)
  {
    AbsorbAll(cfg, h, s, groups[..|groups| - 1], newIds).value
  }

  /** All groups of a batch so far: what they keep, and what they have done. */
  lemma {:induction false} GroupsEffect(cfg: Settings, h: Hashes, s: Session, groups: seq<seq<Event>>,
                                        newIds: nat -> string)
    requires 0 < cfg.maxIncidentSpanMinutes && SessionInv(h, s) && Ready(s.cases, groups, newIds)
    requires AbsorbAll(cfg, h, s, groups, newIds).Some?
    ensures var t := AbsorbAll(cfg, h, s, groups, newIds).value;
            SessionInv(h, t) && BatchDone(s.cases, t.cases) && IdsFrom(s.cases, t.cases, newIds, |groups|)
    decreases |groups|, 1
  {
    if groups == [] {
      NoIdsAdded(s.cases, newIds);
    } else {
      var n := |groups| - 1;
      var t := LastGroupReady(cfg, h, s, groups, newIds);
      var u := AbsorbAll(cfg, h, s, groups, newIds).value;
      AbsorbKeepsSession(cfg, h, t, groups[n], newIds(n));
      NextGroupDone(s.cases, t.cases, u.cases, newIds(n));
      NextIdsFrom(s.cases, t.cases, u.cases, newIds, n);
    }
  }

  /** The last group of a batch meets the invariant and gets a fresh id. */
  lemma LastGroupReady(cfg: Settings, h: Hashes, s: Session, groups: seq<seq<Event>>, newIds: nat -> string)
    returns (t: Session)
    requires 0 < cfg.maxIncidentSpanMinutes && SessionInv(h, s) && Ready(s.cases, groups, newIds) && groups != []
    requires AbsorbAll(cfg, h, s, groups, newIds).Some?
    ensures t == BeforeLast(cfg, h, s, groups, newIds) && SessionInv(h, t)
    ensures BatchDone(s.cases, t.cases) && IdsFrom(s.cases, t.cases, newIds, |groups| - 1)
    ensures GroupOf(t.cases.rows, groups[|groups| - 1]) && FreshId(t.cases, newIds(|groups| - 1))
    decreases |groups|, 0
  {
    t := BeforeLast(cfg, h, s, groups, newIds);
    GroupsEffect(cfg, h, s, groups[..|groups| - 1], newIds);
    NextIdFresh(s.cases, t.cases, newIds, |groups| - 1);
  }

  /** A committed batch keeps the invariants of the incident table and lets its incidents only grow. */
  lemma BatchEffect(cfg: Settings, h: Hashes, c: Cases, groups: seq<seq<Event>>, newIds: nat -> string)
    requires 0 < cfg.maxIncidentSpanMinutes && CasesInv(h, c) && Ready(c, groups, newIds)
    requires CorrelateBatch(cfg, h, c, groups, newIds).Some?
    ensures var d := CorrelateBatch(cfg, h, c, groups, newIds).value; CasesInv(h, d) && BatchDone(c, d)
  {
    BeginInv(h, c);
    GroupsEffect(cfg, h, Begin(c), groups, newIds);
  }

  // ---- Every flush of a batch ----------------------------------------------------------------------------

  ghost predicate OfTenant(groups: seq<seq<Event>>, tenant: string) {
    forall n :: 0 <= n < |groups| ==> groups[n] != [] && groups[n][0].tenant == tenant
  }

  /** No tenants but those of `a` and the given one. */
  ghost predicate NoOtherTenant(a: seq<Incident>, b: seq<Incident>, tenant: string) {
    forall k :: 0 <= k < |b| ==> b[k].tenant == tenant || (k < |a| && a[k].tenant == b[k].tenant)
  }

  lemma SeparatedGrows(h: Hashes, a: seq<Incident>, b: seq<Incident>, tenant: string)
    requires SeparatedFrom(h, a, tenant) && NoOtherTenant(a, b, tenant)
    ensures SeparatedFrom(h, b, tenant)
  {
  }

  lemma EnrichedTenants(c: Cases, d: Cases, k: nat, tenant: string)
    requires EnrichedAt(c, d, k)
    ensures NoOtherTenant(c.incidents, d.incidents, tenant)
  {
  }

  lemma CreatedTenants(c: Cases, d: Cases, group: seq<Event>, newId: string)
    requires group != [] && CreatedIn(c, d, group, newId)
    ensures NoOtherTenant(c.incidents, d.incidents, group[0].tenant)
  {
  }

  lemma AbsorbKeepsSeparated(cfg: Settings, h: Hashes, s: Session, group: seq<Event>, newId: string)
    requires 0 < cfg.maxIncidentSpanMinutes && SessionInv(h, s) && GroupOf(s.cases.rows, group)
    requires SeparatedFrom(h, s.cases.incidents, group[0].tenant) && Absorb(cfg, h, s, group, newId).Stored?
    ensures SeparatedFrom(h, Absorb(cfg, h, s, group, newId).session.cases.incidents, group[0].tenant)
  {
    var r := Absorb(cfg, h, s, group, newId);
    AbsorbEffect(cfg, h, s, group, newId);
    if r.at < |s.cases.incidents| {
      EnrichedTenants(s.cases, r.session.cases, r.at, group[0].tenant);
    } else {
      CreatedTenants(s.cases, r.session.cases, group, newId);
    }
    SeparatedGrows(h, s.cases.incidents, r.session.cases.incidents, group[0].tenant);
  }

  /**
   Between the groups of a tenant's batch no pending fingerprint is another row's. So every flush
   succeeds exactly when the fingerprints in memory differ, in whatever order it writes the rows.
   */
  lemma {:induction false} BatchKeepsApart(cfg: Settings, h: Hashes, c: Cases, groups: seq<seq<Event>>,
                                           newIds: nat -> string, tenant: string)
    requires 0 < cfg.maxIncidentSpanMinutes && CasesInv(h, c) && Ready(c, groups, newIds)
    requires OfTenant(groups, tenant) && SeparatedFrom(h, c.incidents, tenant)
    requires AbsorbAll(cfg, h, Begin(c), groups, newIds).Some?
    ensures var s := AbsorbAll(cfg, h, Begin(c), groups, newIds).value;
            PendingApart(s) && SeparatedFrom(h, s.cases.incidents, tenant)
    decreases |groups|
  {
    BeginInv(h, c);
    if groups != [] {
      var n := |groups| - 1;
      BatchKeepsApart(cfg, h, c, groups[..n], newIds, tenant);
      var t := LastGroupReady(cfg, h, Begin(c), groups, newIds);
      if Absorb(cfg, h, t, groups[n], newIds(n)).Stored? {
        AbsorbKeepsApart(cfg, h, t, groups[n], newIds(n));
        AbsorbKeepsSeparated(cfg, h, t, groups[n], newIds(n));
      }
    }
  }

  // ---- Batches that abort -----------------------------------------------------------------------------------

  /** Once a group has aborted the batch, the remaining ones do not matter. */
  lemma {:induction false} AbsorbAllFails(cfg: Settings, h: Hashes, s: Session, groups: seq<seq<Event>>, n: nat,
                                          newIds: nat -> string)
    requires 0 < cfg.maxIncidentSpanMinutes && s.Aligned()
    requires n <= |groups| && forall k :: 0 <= k < |groups| ==> groups[k] != []
    requires AbsorbAll(cfg, h, s, groups[..n], newIds) == None
    ensures AbsorbAll(cfg, h, s, groups, newIds) == None
  {
    if n < |groups| {
      var front := groups[..|groups| - 1];
      assert front[..n] == groups[..n];
      AbsorbAllFails(cfg, h, s, front, n, newIds);
    } else {
      assert groups[..n] == groups;
    }
  }

  lemma OneGroup(cfg: Settings, h: Hashes, s: Session, group: seq<Event>, newIds: nat -> string)
    requires 0 < cfg.maxIncidentSpanMinutes && s.Aligned() && group != []
    ensures AbsorbAll(cfg, h, s, [group], newIds) == AfterGroup(s, Absorb(cfg, h, s, group, newIds(0)))
  {
  }

  lemma OneGroupCommits(cfg: Settings, h: Hashes, c: Cases, group: seq<Event>, newIds: nat -> string)
    requires 0 < cfg.maxIncidentSpanMinutes && group != [] && Absorb(cfg, h, Begin(c), group, newIds(0)).Stored?
    requires DistinctFingerprints(Absorb(cfg, h, Begin(c), group, newIds(0)).session.cases.incidents)
    ensures CorrelateBatch(cfg, h, c, [group], newIds)
            == Some(Absorb(cfg, h, Begin(c), group, newIds(0)).session.cases)
  {
    OneGroup(cfg, h, Begin(c), group, newIds);
  }

  lemma FirstGroupAborts(cfg: Settings, h: Hashes, c: Cases, groups: seq<seq<Event>>, newIds: nat -> string)
    requires 0 < cfg.maxIncidentSpanMinutes && groups != [] && forall k :: 0 <= k < |groups| ==> groups[k] != []
    requires Absorb(cfg, h, Begin(c), groups[0], newIds(0)) == FingerprintClash
    ensures CorrelateBatch(cfg, h, c, groups, newIds) == None
  {
    OneGroup(cfg, h, Begin(c), groups[0], newIds);
    assert groups[..1] == [groups[0]];
    AbsorbAllFails(cfg, h, Begin(c), groups, 1, newIds);
  }

  lemma TwoGroups(cfg: Settings, h: Hashes, s: Session, one: seq<Event>, two: seq<Event>, newIds: nat -> string)
    requires 0 < cfg.maxIncidentSpanMinutes && s.Aligned() && one != [] && two != []
    ensures AbsorbAll(cfg, h, s, [one, two], newIds)
            == match AfterGroup(s, Absorb(cfg, h, s, one, newIds(0)))
               case None => None
               case Some(t) => AfterGroup(t, Absorb(cfg, h, t, two, newIds(1)))
  {
    assert [one, two][..1] == [one];
    OneGroup(cfg, h, s, one, newIds);
  }

  lemma SecondGroupAborts(cfg: Settings, h: Hashes, c: Cases, one: seq<Event>, two: seq<Event>, newIds: nat -> string)
    requires 0 < cfg.maxIncidentSpanMinutes && one != [] && two != []
    requires Absorb(cfg, h, Begin(c), one, newIds(0)).Stored?
    requires Absorb(cfg, h, Absorb(cfg, h, Begin(c), one, newIds(0)).session, two, newIds(1)) == FingerprintClash
    ensures CorrelateBatch(cfg, h, c, [one, two], newIds) == None
  {
    TwoGroups(cfg, h, Begin(c), one, two, newIds);
  }

  /** The fingerprint the search for an open incident starts with. */
  function Wanted(cfg: Settings, h: Hashes, c: Cases, group: seq<Event>): string
    requires 0 < cfg.maxIncidentSpanMinutes && group != [] && Principal(group).Some?
  {
    Fingerprint(cfg, h, group[0].tenant, Flags(GroupFindings(c.records, EventIds(group))), group)
  }

  predicate Qualifies(c: Cases, group: seq<Event>) {
    group != [] && Principal(group).Some? && |Flags(GroupFindings(c.records, EventIds(group)))| >= 2
  }

  /**
   Incident `k`, enriched by `one`, has taken a fingerprint no row of the tenant has, and `two` asks for
   it without sharing evidence with an open incident.
   */
  ghost predicate SameFingerprint(cfg: Settings, h: Hashes, c: Cases, k: nat, one: seq<Event>, two: seq<Event>,
                                  newIds: nat -> string) {
    && 0 < cfg.maxIncidentSpanMinutes && one != [] && Qualifies(c, two) && one[0].tenant == two[0].tenant
    && k < |c.incidents|
    && var r, tenant, wanted := Absorb(cfg, h, Begin(c), one, newIds(0)), two[0].tenant, Wanted(cfg, h, c, two);
       && r.Stored? && r.at == k && k < |r.session.disk| && r.session.cases.incidents[k].fingerprint == wanted
       && !TakenInTenant(c.incidents, tenant, wanted)
       && First(r.session.cases.incidents, OpenSharing(tenant, Elements(EventIds(two)))) == None
  }

  /** An enrichment writes nothing: the lookups of the next group filter on the old fingerprints. */
  lemma TableUnwritten(cfg: Settings, h: Hashes, c: Cases, k: nat, group: seq<Event>)
    requires 0 < cfg.maxIncidentSpanMinutes && k < |c.incidents| && Enrich(cfg, h, Begin(c), k, group).Stored?
    ensures var s := Enrich(cfg, h, Begin(c), k, group).session;
            && |s.disk| == |s.cases.incidents| == |c.incidents| && s.cases.records == c.records
            && forall j :: 0 <= j < |s.disk| ==>
                 s.disk[j] == c.incidents[j].fingerprint && s.cases.incidents[j].tenant == c.incidents[j].tenant
  {
  }

  /** Nothing to find: the fingerprint is not in the table, and no open incident shares the evidence. */
  lemma NothingFound(s: Session, tenant: string, fp: string, ids: set<string>)
    requires s.Aligned() && First(s.cases.incidents, OpenSharing(tenant, ids)) == None
    requires forall j :: 0 <= j < |s.disk| && s.cases.incidents[j].tenant == tenant ==> s.disk[j] != fp
    ensures FindExisting(s.Table(), tenant, fp, ids) == None && !TakenInTenant(s.Table(), tenant, fp)
  {
  }

  lemma CreateHeldClashes(h: Hashes, s: Session, group: seq<Event>, found: seq<Finding>, wanted: string, newId: string,
                          k: nat)
    requires s.Aligned() && group != [] && k < |s.disk| && !TakenInTenant(s.Table(), group[0].tenant, wanted)
    requires s.cases.incidents[k].fingerprint == wanted
    ensures Create(h, s, group, found, wanted, newId) == FingerprintClash
  {
    var i := Opened(newId, group[0].tenant, wanted, group, found);
    DistinctSnoc(s.cases.incidents, i);
    assert s.cases.incidents[k] in s.cases.incidents;
  }

  /**
   The lookup does not see the fingerprint the same batch has just given to another incident, so a
   second one is created with it, and the batch aborts.
   */
  lemma PendingFingerprintClash(cfg: Settings, h: Hashes, c: Cases, k: nat, one: seq<Event>, two: seq<Event>,
                                newIds: nat -> string)
    requires SameFingerprint(cfg, h, c, k, one, two, newIds)
    ensures CorrelateBatch(cfg, h, c, [one, two], newIds) == None
  {
    var r, tenant, wanted := Absorb(cfg, h, Begin(c), one, newIds(0)), two[0].tenant, Wanted(cfg, h, c, two);
    var s, ids := r.session, Elements(EventIds(two));
    AbsorbedAt(cfg, h, Begin(c), one, newIds(0));
    TableUnwritten(cfg, h, c, k, one);
    forall j | 0 <= j < |s.disk| && s.cases.incidents[j].tenant == tenant ensures s.disk[j] != wanted {
      assert c.incidents[j] in c.incidents;
    }
    NothingFound(s, tenant, wanted, ids);
    CreateHeldClashes(h, s, two, GroupFindings(c.records, EventIds(two)), wanted, newIds(1), k);
    SecondGroupAborts(cfg, h, c, one, two, newIds);
  }

  /** A stored result within the table is an enrichment. */
  lemma AbsorbedAt(cfg: Settings, h: Hashes, s: Session, group: seq<Event>, newId: string)
    requires 0 < cfg.maxIncidentSpanMinutes && s.Aligned() && group != []
    requires Absorb(cfg, h, s, group, newId).Stored? && Absorb(cfg, h, s, group, newId).at < |s.disk|
    ensures var k := Absorb(cfg, h, s, group, newId).at;
            && Absorb(cfg, h, s, group, newId) == Enrich(cfg, h, s, k, group)
            && s.cases.incidents[k].tenant == group[0].tenant && Open(s.cases.incidents[k])
  {
    var found := GroupFindings(s.cases.records, EventIds(group));
    FoundIsOpen(s, group[0].tenant, Fingerprint(cfg, h, group[0].tenant, Flags(found), group),
            Elements(EventIds(group)));
  }

  /** The open incident that holds the wanted fingerprint is found first. */
  lemma HolderFound(incidents: seq<Incident>, k: nat, ids: set<string>)
    requires DistinctFingerprints(incidents) && k < |incidents| && Open(incidents[k])
    ensures FindExisting(incidents, incidents[k].tenant, incidents[k].fingerprint, ids) == Some(k)
  {
  }

  /** With nothing pending before it, an enrichment is committed. */
  lemma FirstEnrichmentCommits(cfg: Settings, h: Hashes, c: Cases, k: nat, group: seq<Event>)
    requires 0 < cfg.maxIncidentSpanMinutes && CasesInv(h, c) && k < |c.incidents|
    requires SeparatedFrom(h, c.incidents, c.incidents[k].tenant) && Enrich(cfg, h, Begin(c), k, group).Stored?
    ensures DistinctFingerprints(Enrich(cfg, h, Begin(c), k, group).session.cases.incidents)
  {
    EnrichClashesIff(cfg, h, Begin(c), k, group);
  }

  lemma EnrichedKeys(c: Cases, d: Cases, k: nat)
    requires IncidentKeys(c.incidents) && EnrichedAt(c, d, k)
    ensures IncidentKeys(d.incidents)
  {
  }

  /** The batch of the one group is committed as `d`, an enrichment of incident `k`. */
  ghost predicate CommitsEnriched(cfg: Settings, h: Hashes, c: Cases, group: seq<Event>, newIds: nat -> string,
                                  k: nat, d: Cases) {
    && 0 < cfg.maxIncidentSpanMinutes && group != [] && CorrelateBatch(cfg, h, c, [group], newIds) == Some(d)
    && EnrichedAt(c, d, k)
    && Elements(d.incidents[k].eventIds) == Elements(c.incidents[k].eventIds) + Elements(EventIds(group))
  }

  lemma EnrichmentKeepsCases(cfg: Settings, h: Hashes, c: Cases, k: nat, group: seq<Event>)
    requires 0 < cfg.maxIncidentSpanMinutes && CasesInv(h, c) && GroupOf(c.rows, group) && k < |c.incidents|
    requires c.incidents[k].tenant == group[0].tenant && Open(c.incidents[k])
    requires SeparatedFrom(h, c.incidents, group[0].tenant) && Enrich(cfg, h, Begin(c), k, group).Stored?
    ensures var d := Enrich(cfg, h, Begin(c), k, group).session.cases;
            && EnrichedAt(c, d, k) && CasesInv(h, d)
            && Elements(d.incidents[k].eventIds) == Elements(c.incidents[k].eventIds) + Elements(EventIds(group))
  {
    var d := Enrich(cfg, h, Begin(c), k, group).session.cases;
    FirstEnrichmentCommits(cfg, h, c, k, group);
    BeginInv(h, c);
    EnrichKeepsHashed(cfg, h, Begin(c), k, group);
    EnrichEffect(cfg, h, Begin(c), k, group);
    EnrichedDone(c, d, k, "");
    EnrichedKeys(c, d, k);
  }

  /** A batch of one group that enriches an incident is committed. */
  lemma EnrichingBatchCommits(cfg: Settings, h: Hashes, c: Cases, group: seq<Event>, newIds: nat -> string)
    requires 0 < cfg.maxIncidentSpanMinutes && CasesInv(h, c) && GroupOf(c.rows, group)
    requires SeparatedFrom(h, c.incidents, group[0].tenant)
    requires var r := Absorb(cfg, h, Begin(c), group, newIds(0)); r.Stored? && r.at < |c.incidents|
    ensures var r := Absorb(cfg, h, Begin(c), group, newIds(0));
            CasesInv(h, r.session.cases) && CommitsEnriched(cfg, h, c, group, newIds, r.at, r.session.cases)
  {
    var r := Absorb(cfg, h, Begin(c), group, newIds(0));
    AbsorbedAt(cfg, h, Begin(c), group, newIds(0));
    EnrichmentKeepsCases(cfg, h, c, r.at, group);
    OneGroupCommits(cfg, h, c, group, newIds);
  }

  /** A group that wants the fingerprint of an open incident enriches that one. */
  lemma HolderEnriched(cfg: Settings, h: Hashes, c: Cases, k: nat, group: seq<Event>, newIds: nat -> string)
    returns (d: Cases)
    requires 0 < cfg.maxIncidentSpanMinutes && CasesInv(h, c) && Qualifies(c, group) && GroupOf(c.rows, group)
    requires k < |c.incidents| && Open(c.incidents[k]) && c.incidents[k].tenant == group[0].tenant
    requires c.incidents[k].fingerprint == Wanted(cfg, h, c, group) && SeparatedFrom(h, c.incidents, group[0].tenant)
    ensures CommitsEnriched(cfg, h, c, group, newIds, k, d)
  {
    HolderFound(c.incidents, k, Elements(EventIds(group)));
    PrincipalNoneIff(group);
    EnrichHasPrincipal(cfg, h, Begin(c), k, group);
    EnrichingBatchCommits(cfg, h, c, group, newIds);
    d := Absorb(cfg, h, Begin(c), group, newIds(0)).session.cases;
  }

  lemma EnrichedHolder(cfg: Settings, h: Hashes, c: Cases, d: Cases, k: nat, group: seq<Event>)
    requires 0 < cfg.maxIncidentSpanMinutes && EnrichedAt(c, d, k) && Qualifies(c, group)
    requires c.incidents[k].tenant == group[0].tenant && SeparatedFrom(h, c.incidents, group[0].tenant)
    ensures Qualifies(d, group) && Wanted(cfg, h, d, group) == Wanted(cfg, h, c, group)
    ensures Open(d.incidents[k]) && d.incidents[k].tenant == group[0].tenant
    ensures SeparatedFrom(h, d.incidents, group[0].tenant)
  {
  }

  /** Delivered as two batches, the same two groups both enrich the incident. */
  lemma SplitBatchCommits(cfg: Settings, h: Hashes, c: Cases, k: nat, one: seq<Event>, two: seq<Event>,
                          newIds: nat -> string) returns (d: Cases, e: Cases)
    requires SameFingerprint(cfg, h, c, k, one, two, newIds) && CasesInv(h, c)
    requires GroupOf(c.rows, one) && GroupOf(c.rows, two) && SeparatedFrom(h, c.incidents, two[0].tenant)
    ensures CommitsEnriched(cfg, h, c, one, newIds, k, d) && CommitsEnriched(cfg, h, d, two, newIds, k, e)
  {
    EnrichingBatchCommits(cfg, h, c, one, newIds);
    d := Absorb(cfg, h, Begin(c), one, newIds(0)).session.cases;
    AbsorbedAt(cfg, h, Begin(c), one, newIds(0));
    EnrichedHolder(cfg, h, c, d, k, two);
    e := HolderEnriched(cfg, h, d, k, two, newIds);
  }

  // ---- A group whose incidents were closed -------------------------------------------------------------------

  function Closed(c: Cases, k: nat): Cases
    requires k < |c.incidents|
  {
    c.(incidents := c.incidents[k := c.incidents[k].(status := Resolved)])
  }

  /** Some incident of the tenant that is no longer open holds the fingerprint. */
  predicate HeldByClosed(incidents: seq<Incident>, tenant: string, fp: string) {
    exists k :: 0 <= k < |incidents| && incidents[k].tenant == tenant && incidents[k].fingerprint == fp
            && !Open(incidents[k])
  }

  /** No open incident has the fingerprint or any of the evidence. */
  predicate Unmatched(incidents: seq<Incident>, tenant: string, fp: string, ids: set<string>) {
    FindExisting(incidents, tenant, fp, ids) == None
  }

  /**
   A batch that starts with a group aborts if no open incident matches it and closed ones hold both
   the fingerprint it wants and the rehashed one.
   */
  lemma BothHeldAborts(cfg: Settings, h: Hashes, c: Cases, groups: seq<seq<Event>>, newIds: nat -> string)
    requires 0 < cfg.maxIncidentSpanMinutes && forall n :: 0 <= n < |groups| ==> groups[n] != []
    requires groups != [] && Qualifies(c, groups[0])
    requires var group, tenant, wanted := groups[0], groups[0][0].tenant, Wanted(cfg, h, c, groups[0]);
             && Unmatched(c.incidents, tenant, wanted, Elements(EventIds(group)))
             && HeldByClosed(c.incidents, tenant, wanted)
             && HeldByClosed(c.incidents, tenant, h.rehash(tenant, wanted, EventIds(group)))
    ensures CorrelateBatch(cfg, h, c, groups, newIds) == None
  {
    var group, tenant, wanted := groups[0], groups[0][0].tenant, Wanted(cfg, h, c, groups[0]);
    var rehashed := h.rehash(tenant, wanted, EventIds(group));
    var k :| 0 <= k < |c.incidents| && c.incidents[k].tenant == tenant && c.incidents[k].fingerprint == rehashed
             && !Open(c.incidents[k]);
    HeldIsTaken(c.incidents, tenant, wanted);
    RehashHeldClashes(h, Begin(c), group, GroupFindings(c.records, EventIds(group)), wanted, newIds(0), k);
    FirstGroupAborts(cfg, h, c, groups, newIds);
  }

  lemma HeldIsTaken(incidents: seq<Incident>, tenant: string, fp: string)
    requires HeldByClosed(incidents, tenant, fp)
    ensures TakenInTenant(incidents, tenant, fp)
  {
  }

  lemma RehashHeldClashes(h: Hashes, s: Session, group: seq<Event>, found: seq<Finding>, wanted: string, newId: string,
                          k: nat)
    requires s.Aligned() && group != [] && k < |s.disk| && TakenInTenant(s.Table(), group[0].tenant, wanted)
    requires s.cases.incidents[k].fingerprint == h.rehash(group[0].tenant, wanted, EventIds(group))
    ensures Create(h, s, group, found, wanted, newId) == FingerprintClash
  {
    var i := Opened(newId, group[0].tenant, s.cases.incidents[k].fingerprint, group, found);
    DistinctSnoc(s.cases.incidents, i);
    assert s.cases.incidents[k] in s.cases.incidents;
  }

  /** Creating an incident and resolving it again leaves the search for an open one as it was. */
  lemma ClosedIsNotFound(incidents: seq<Incident>, i: Incident, tenant: string, fp: string, ids: set<string>)
    requires !Open(i)
    ensures FindExisting(incidents + [i], tenant, fp, ids) == FindExisting(incidents, tenant, fp, ids)
  {
  }

  /** The batch of one group that no open incident matches creates an incident with this fingerprint, or aborts. */
  lemma CreatingBatch(cfg: Settings, h: Hashes, c: Cases, group: seq<Event>, newIds: nat -> string)
    requires 0 < cfg.maxIncidentSpanMinutes && Qualifies(c, group)
    requires Unmatched(c.incidents, group[0].tenant, Wanted(cfg, h, c, group), Elements(EventIds(group)))
    ensures CorrelateBatch(cfg, h, c, [group], newIds).Some? ==>
              var d, wanted := CorrelateBatch(cfg, h, c, [group], newIds).value, Wanted(cfg, h, c, group);
              && |d.incidents| == |c.incidents| + 1 && d.records == c.records && d.rows == c.rows
              && var i := d.incidents[|c.incidents|];
                 && d.incidents == c.incidents + [i] && i.tenant == group[0].tenant
                 && i.fingerprint == Assigned(h, Begin(c), group, wanted)
  {
    OneGroup(cfg, h, Begin(c), group, newIds);
  }

  /** `d` has one more incident than `c`: of the tenant, with the fingerprint, and closed. */
  ghost predicate ClosedRound(c: Cases, d: Cases, tenant: string, fp: string) {
    && d.records == c.records
    && exists i :: d.incidents == c.incidents + [i] && i.tenant == tenant && i.fingerprint == fp && !Open(i)
  }

  /** One round: the batch creates an incident for the group, and the incident is resolved. */
  function Round(cfg: Settings, h: Hashes, c: Cases, group: seq<Event>, newIds: nat -> string): Option<Cases>
    requires 0 < cfg.maxIncidentSpanMinutes && group != []
  {
    match CorrelateBatch(cfg, h, c, [group], newIds)
    case None => None
    case Some(d) => if |d.incidents| == |c.incidents| + 1 then Some(Closed(d, |c.incidents|)) else None
  }

  lemma CreateAndClose(cfg: Settings, h: Hashes, c: Cases, group: seq<Event>, newIds: nat -> string)
    requires 0 < cfg.maxIncidentSpanMinutes && Qualifies(c, group)
    requires Unmatched(c.incidents, group[0].tenant, Wanted(cfg, h, c, group), Elements(EventIds(group)))
    requires Round(cfg, h, c, group, newIds).Some?
    ensures ClosedRound(c, Round(cfg, h, c, group, newIds).value, group[0].tenant,
                        Assigned(h, Begin(c), group, Wanted(cfg, h, c, group)))
  {
    CreatingBatch(cfg, h, c, group, newIds);
    var once := CorrelateBatch(cfg, h, c, [group], newIds).value;
    var i := once.incidents[|c.incidents|].(status := Resolved);
    assert Closed(once, |c.incidents|).incidents == c.incidents + [i];
  }

  /** After a round there is still nothing to find, and the fingerprints held by closed incidents are held still. */
  lemma RoundKeeps(c: Cases, d: Cases, tenant: string, fp: string, wanted: string, ids: set<string>)
    requires ClosedRound(c, d, tenant, fp) && Unmatched(c.incidents, tenant, wanted, ids)
    ensures Unmatched(d.incidents, tenant, wanted, ids) && HeldByClosed(d.incidents, tenant, fp)
    ensures forall other :: HeldByClosed(c.incidents, tenant, other) ==> HeldByClosed(d.incidents, tenant, other)
  {
    var i :| d.incidents == c.incidents + [i] && i.tenant == tenant && i.fingerprint == fp && !Open(i);
    ClosedIsNotFound(c.incidents, i, tenant, wanted, ids);
    assert d.incidents[|c.incidents|] == i;
    forall other | HeldByClosed(c.incidents, tenant, other) ensures HeldByClosed(d.incidents, tenant, other) {
      var k :| 0 <= k < |c.incidents| && c.incidents[k].tenant == tenant && c.incidents[k].fingerprint == other
               && !Open(c.incidents[k]);
      assert d.incidents[k] == c.incidents[k];
    }
  }

  /** Where no open incident matches, a fingerprint that is taken is held by a closed one. */
  lemma TakenIsHeld(c: Cases, tenant: string, fp: string, ids: set<string>)
    requires Unmatched(c.incidents, tenant, fp, ids) && TakenInTenant(c.incidents, tenant, fp)
    ensures HeldByClosed(c.incidents, tenant, fp)
  {
  }

  /** After two rounds closed incidents hold both the fingerprint and its rehash. */
  lemma TwoRounds(h: Hashes, c: Cases, d: Cases, e: Cases, group: seq<Event>, wanted: string)
    requires group != []
    requires ClosedRound(c, d, group[0].tenant, Assigned(h, Begin(c), group, wanted))
    requires ClosedRound(d, e, group[0].tenant, Assigned(h, Begin(d), group, wanted))
    requires Unmatched(c.incidents, group[0].tenant, wanted, Elements(EventIds(group)))
    ensures var tenant, ids := group[0].tenant, EventIds(group);
            && Unmatched(e.incidents, tenant, wanted, Elements(ids)) && HeldByClosed(e.incidents, tenant, wanted)
            && HeldByClosed(e.incidents, tenant, h.rehash(tenant, wanted, ids))
  {
    var tenant, ids := group[0].tenant, Elements(EventIds(group));
    RoundKeeps(c, d, tenant, Assigned(h, Begin(c), group, wanted), wanted, ids);
    RoundKeeps(d, e, tenant, Assigned(h, Begin(d), group, wanted), wanted, ids);
    if TakenInTenant(c.incidents, tenant, wanted) {
      TakenIsHeld(c, tenant, wanted, ids);
    } else {
      HeldIsTaken(d.incidents, tenant, wanted);
    }
  }

  /** A group that was made an incident, resolved, made an incident again and resolved again aborts. */
  lemma ThirdIncidentAborts(cfg: Settings, h: Hashes, c: Cases, group: seq<Event>, first: nat -> string,
                            second: nat -> string, third: nat -> string)
    requires 0 < cfg.maxIncidentSpanMinutes && Qualifies(c, group)
    requires Unmatched(c.incidents, group[0].tenant, Wanted(cfg, h, c, group), Elements(EventIds(group)))
    ensures var once := Round(cfg, h, c, group, first);
            once.Some? && Round(cfg, h, once.value, group, second).Some? ==>
              CorrelateBatch(cfg, h, Round(cfg, h, once.value, group, second).value, [group], third) == None
  {
    var once := Round(cfg, h, c, group, first);
    if once.Some? {
      CreateAndClose(cfg, h, c, group, first);
      if Round(cfg, h, once.value, group, second).Some? {
        SecondRound(cfg, h, c, once.value, group, second, third);
      }
    }
  }

  lemma OneHeldAborts(cfg: Settings, h: Hashes, c: Cases, group: seq<Event>, wanted: string, newIds: nat -> string)
    requires 0 < cfg.maxIncidentSpanMinutes && Qualifies(c, group) && Wanted(cfg, h, c, group) == wanted
    requires Unmatched(c.incidents, group[0].tenant, wanted, Elements(EventIds(group)))
    requires HeldByClosed(c.incidents, group[0].tenant, wanted)
    requires HeldByClosed(c.incidents, group[0].tenant, h.rehash(group[0].tenant, wanted, EventIds(group)))
    ensures CorrelateBatch(cfg, h, c, [group], newIds) == None
  {
    BothHeldAborts(cfg, h, c, [group], newIds);
  }

  lemma SecondRound(cfg: Settings, h: Hashes, c: Cases, d: Cases, group: seq<Event>, second: nat -> string,
                    third: nat -> string)
    requires 0 < cfg.maxIncidentSpanMinutes && Qualifies(c, group)
    requires Unmatched(c.incidents, group[0].tenant, Wanted(cfg, h, c, group), Elements(EventIds(group)))
    requires ClosedRound(c, d, group[0].tenant, Assigned(h, Begin(c), group, Wanted(cfg, h, c, group)))
    requires Round(cfg, h, d, group, second).Some?
    ensures CorrelateBatch(cfg, h, Round(cfg, h, d, group, second).value, [group], third) == None
  {
    var tenant, wanted, ids := group[0].tenant, Wanted(cfg, h, c, group), Elements(EventIds(group));
    RoundKeeps(c, d, tenant, Assigned(h, Begin(c), group, wanted), wanted, ids);
    CreateAndClose(cfg, h, d, group, second);
    var e := Round(cfg, h, d, group, second).value;
    TwoRounds(h, c, d, e, group, wanted);
    OneHeldAborts(cfg, h, e, group, wanted, third);
  }

  /** A round fails exactly when the fingerprint the new incident gets is taken. */
  lemma RoundIff(cfg: Settings, h: Hashes, c: Cases, group: seq<Event>, newIds: nat -> string)
    requires 0 < cfg.maxIncidentSpanMinutes && Qualifies(c, group) && Hashed(h, c) && DistinctFingerprints(c.incidents)
    requires SeparatedFrom(h, c.incidents, group[0].tenant)
    requires Unmatched(c.incidents, group[0].tenant, Wanted(cfg, h, c, group), Elements(EventIds(group)))
    ensures Round(cfg, h, c, group, newIds).Some?
            <==> !TakenInTenant(c.incidents, group[0].tenant, Assigned(h, Begin(c), group, Wanted(cfg, h, c, group)))
  {
    var found, wanted := GroupFindings(c.records, EventIds(group)), Wanted(cfg, h, c, group);
    CreateClashesIff(h, Begin(c), group, found, wanted, newIds(0));
    OneGroup(cfg, h, Begin(c), group, newIds);
  }

  /** The tables after a first round meet the conditions of a second. */
  lemma ReadyForAnother(h: Hashes, c: Cases, d: Cases, tenant: string, fp: string)
    requires ClosedRound(c, d, tenant, fp) && Hashed(h, c) && DistinctFingerprints(c.incidents)
    requires SeparatedFrom(h, c.incidents, tenant) && HashOf(h, tenant, fp) && !TakenInTenant(c.incidents, tenant, fp)
    ensures Hashed(h, d) && DistinctFingerprints(d.incidents) && SeparatedFrom(h, d.incidents, tenant)
    ensures forall other :: TakenInTenant(d.incidents, tenant, other)
                            <==> TakenInTenant(c.incidents, tenant, other) || other == fp
  {
    var i :| d.incidents == c.incidents + [i] && i.tenant == tenant && i.fingerprint == fp && !Open(i);
    HashedMembers(h, c);
    HeldInTenant(h, c.incidents, tenant, fp);
    DistinctSnoc(c.incidents, i);
    assert i in d.incidents;
  }

  /**
   The two rounds before it do happen exactly when neither the fingerprint nor its rehash is taken and
   the two differ.
   */
  lemma TwoRoundsIff(cfg: Settings, h: Hashes, c: Cases, group: seq<Event>, first: nat -> string,
                     second: nat -> string)
    requires 0 < cfg.maxIncidentSpanMinutes && Qualifies(c, group) && Hashed(h, c) && DistinctFingerprints(c.incidents)
    requires SeparatedFrom(h, c.incidents, group[0].tenant)
    requires Unmatched(c.incidents, group[0].tenant, Wanted(cfg, h, c, group), Elements(EventIds(group)))
    ensures var once, tenant, wanted := Round(cfg, h, c, group, first), group[0].tenant, Wanted(cfg, h, c, group);
            var rehashed := h.rehash(tenant, wanted, EventIds(group));
            once.Some? && Round(cfg, h, once.value, group, second).Some?
            <==> !TakenInTenant(c.incidents, tenant, wanted) && !TakenInTenant(c.incidents, tenant, rehashed)
                 && wanted != rehashed
  {
    var once, tenant, wanted := Round(cfg, h, c, group, first), group[0].tenant, Wanted(cfg, h, c, group);
    var rehashed := h.rehash(tenant, wanted, EventIds(group));
    RoundIff(cfg, h, c, group, first);
    if once.Some? {
      var fp := Assigned(h, Begin(c), group, wanted);
      assert HashOf(h, tenant, wanted) && HashOf(h, tenant, rehashed);
      CreateAndClose(cfg, h, c, group, first);
      RoundKeeps(c, once.value, tenant, fp, wanted, Elements(EventIds(group)));
      ReadyForAnother(h, c, once.value, tenant, fp);
      RoundIff(cfg, h, once.value, group, second);
    }
  }

  /** So there are tables on which all of this happens. */
  lemma ThirdIncidentHappens(cfg: Settings, h: Hashes, c: Cases, group: seq<Event>, first: nat -> string,
                             second: nat -> string, third: nat -> string) returns (once: Cases, again: Cases)
    requires 0 < cfg.maxIncidentSpanMinutes && Qualifies(c, group) && c.incidents == []
    requires var wanted := Wanted(cfg, h, c, group); wanted != h.rehash(group[0].tenant, wanted, EventIds(group))
    ensures Round(cfg, h, c, group, first) == Some(once) && Round(cfg, h, once, group, second) == Some(again)
    ensures CorrelateBatch(cfg, h, again, [group], third) == None
  {
    TwoRoundsIff(cfg, h, c, group, first, second);
    ThirdIncidentAborts(cfg, h, c, group, first, second, third);
    once := Round(cfg, h, c, group, first).value;
    again := Round(cfg, h, once, group, second).value;
  }
}
