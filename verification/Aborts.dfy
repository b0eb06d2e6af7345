/**
 Which batches of one or two groups of a tenant abort, told from the tables before the batch.
 */
module Aborts {
  import opened Base
  import opened Config
  import opened Correlation
  import opened Detection
  import opened Playbook
  import opened Risk
  import opened Incidents
  import opened IncidentLaws
  import opened Absorption
  import opened Sessions
  import opened Transactions

  type Event = Correlation.Event

  /** Tables a batch of the tenant can start from, as far as fingerprints go. */
  ghost predicate Tidy(h: Hashes, c: Cases, tenant: string) {
    DistinctFingerprints(c.incidents) && Hashed(h, c) && SeparatedFrom(h, c.incidents, tenant)
  }

  /** The groups raise an exception, or the commit does. */
  ghost predicate Fails(r: Option<Session>) {
    r == None || !DistinctFingerprints(r.value.cases.incidents)
  }

  // ---- One group -----------------------------------------------------------------------------------

  /** Too weak for an incident. */
  predicate Weak(c: Cases, group: seq<Event>) {
    |Flags(GroupFindings(c.records, EventIds(group)))| < 2
  }

  /** Strong enough, and either anonymous or matched by no open incident with both fingerprints taken. */
  ghost predicate OneAborts(cfg: Settings, h: Hashes, c: Cases, group: seq<Event>)
    requires 0 < cfg.maxIncidentSpanMinutes && group != []
  {
    && !Weak(c, group)
    && (|| Principal(group) == None
        || var tenant, ids, wanted := group[0].tenant, EventIds(group), Wanted(cfg, h, c, group);
           && Unmatched(c.incidents, tenant, wanted, Elements(ids)) && TakenInTenant(c.incidents, tenant, wanted)
           && TakenInTenant(c.incidents, tenant, h.rehash(tenant, wanted, ids)))
  }

  /** With nothing pending, an enrichment can be committed. */
  lemma EnrichmentHolds(cfg: Settings, h: Hashes, c: Cases, k: nat, group: seq<Event>)
    requires 0 < cfg.maxIncidentSpanMinutes && group != [] && Principal(group).Some? && k < |c.incidents|
    requires Tidy(h, c, c.incidents[k].tenant)
    ensures Asked(cfg, h, Begin(c), k, group).Some? && Enrich(cfg, h, Begin(c), k, group).Stored?
    ensures DistinctFingerprints(Enrich(cfg, h, Begin(c), k, group).session.cases.incidents)
  {
    PrincipalNoneIff(group);
    MergedHasPrincipal(c.rows, c.incidents[k], group);
    EnrichClashesIff(cfg, h, Begin(c), k, group);
  }

  /** A group that a row matches enriches that incident. */
  lemma MatchEnriches(cfg: Settings, h: Hashes, s: Session, group: seq<Event>, newId: string, k: nat)
    requires 0 < cfg.maxIncidentSpanMinutes && s.Aligned() && Qualifies(s.cases, group)
    requires FindExisting(s.Table(), group[0].tenant, Wanted(cfg, h, s.cases, group), Elements(EventIds(group)))
             == Some(k)
    ensures k < |s.disk| && s.cases.incidents[k].tenant == group[0].tenant
    ensures Absorb(cfg, h, s, group, newId) == Enrich(cfg, h, s, k, group)
  {
    FoundIsOpen(s, group[0].tenant, Wanted(cfg, h, s.cases, group), Elements(EventIds(group)));
  }

  /** One that no row matches creates one. */
  lemma NoMatchCreates(cfg: Settings, h: Hashes, s: Session, group: seq<Event>, newId: string)
    requires 0 < cfg.maxIncidentSpanMinutes && s.Aligned() && Qualifies(s.cases, group)
    requires Unmatched(s.Table(), group[0].tenant, Wanted(cfg, h, s.cases, group), Elements(EventIds(group)))
    ensures Absorb(cfg, h, s, group, newId)
            == Create(h, s, group, GroupFindings(s.cases.records, EventIds(group)), Wanted(cfg, h, s.cases, group),
                      newId)
  {
  }

  lemma EnrichmentNeverFails(cfg: Settings, h: Hashes, c: Cases, k: nat, group: seq<Event>)
    requires 0 < cfg.maxIncidentSpanMinutes && group != [] && Principal(group).Some? && k < |c.incidents|
    requires Tidy(h, c, c.incidents[k].tenant)
    ensures !Fails(AfterGroup(Begin(c), Enrich(cfg, h, Begin(c), k, group)))
  {
    EnrichmentHolds(cfg, h, c, k, group);
  }

  lemma MatchedNeverFails(cfg: Settings, h: Hashes, c: Cases, group: seq<Event>, newId: string, k: nat)
    requires 0 < cfg.maxIncidentSpanMinutes && Qualifies(c, group) && Tidy(h, c, group[0].tenant)
    requires FindExisting(c.incidents, group[0].tenant, Wanted(cfg, h, c, group), Elements(EventIds(group))) == Some(k)
    ensures !Fails(AfterGroup(Begin(c), Absorb(cfg, h, Begin(c), group, newId)))
  {
    MatchEnriches(cfg, h, Begin(c), group, newId, k);
    EnrichmentNeverFails(cfg, h, c, k, group);
  }

  /** A creation is flushed at once, so the commit cannot fail after it. */
  lemma CreatedCommits(h: Hashes, s: Session, group: seq<Event>, found: seq<Finding>, wanted: string, newId: string)
    requires s.Aligned() && group != []
    ensures var r := AfterGroup(s, Create(h, s, group, found, wanted, newId));
            (r == None <==> Create(h, s, group, found, wanted, newId) == FingerprintClash) && (Fails(r) <==> r == None)
  {
  }

  lemma UnmatchedFailsIff(cfg: Settings, h: Hashes, c: Cases, group: seq<Event>, newId: string)
    requires 0 < cfg.maxIncidentSpanMinutes && Qualifies(c, group) && Tidy(h, c, group[0].tenant)
    requires Unmatched(c.incidents, group[0].tenant, Wanted(cfg, h, c, group), Elements(EventIds(group)))
    ensures var r := AfterGroup(Begin(c), Absorb(cfg, h, Begin(c), group, newId));
            && (r == None <==> TakenInTenant(c.incidents, group[0].tenant,
                                             Assigned(h, Begin(c), group, Wanted(cfg, h, c, group))))
            && (Fails(r) <==> r == None)
  {
    var found, wanted := GroupFindings(c.records, EventIds(group)), Wanted(cfg, h, c, group);
    NoMatchCreates(cfg, h, Begin(c), group, newId);
    CreateClashesIff(h, Begin(c), group, found, wanted, newId);
    CreatedCommits(h, Begin(c), group, found, wanted, newId);
  }

  /** On tables with nothing pending a group fails by an exception, never at the commit. */
  lemma AbsorbFailsIff(cfg: Settings, h: Hashes, c: Cases, group: seq<Event>, newId: string)
    requires 0 < cfg.maxIncidentSpanMinutes && group != [] && Tidy(h, c, group[0].tenant)
    ensures var r := AfterGroup(Begin(c), Absorb(cfg, h, Begin(c), group, newId));
            (r == None <==> OneAborts(cfg, h, c, group)) && (Fails(r) <==> r == None)
  {
    if Qualifies(c, group) {
      match FindExisting(c.incidents, group[0].tenant, Wanted(cfg, h, c, group), Elements(EventIds(group))) {
        case Some(k) => MatchedNeverFails(cfg, h, c, group, newId, k);
        case None => UnmatchedFailsIff(cfg, h, c, group, newId);
      }
    }
  }

  /** The exact condition for a batch of one group. */
  lemma OneGroupAbortsIff(cfg: Settings, h: Hashes, c: Cases, group: seq<Event>, newIds: nat -> string)
    requires 0 < cfg.maxIncidentSpanMinutes && group != [] && Tidy(h, c, group[0].tenant)
    ensures CorrelateBatch(cfg, h, c, [group], newIds) == None <==> OneAborts(cfg, h, c, group)
  {
    OneGroup(cfg, h, Begin(c), group, newIds);
    AbsorbFailsIff(cfg, h, c, group, newIds(0));
  }

  // ---- A second group after a created incident -------------------------------------------------------

  /** The first group got an incident with fingerprint `fp`. */
  ghost predicate AbortsAfterNew(cfg: Settings, h: Hashes, c: Cases, one: seq<Event>, fp: string, two: seq<Event>)
    requires 0 < cfg.maxIncidentSpanMinutes && two != []
  {
    && !Weak(c, two)
    && (|| Principal(two) == None
        || var tenant, ids, wanted := two[0].tenant, EventIds(two), Wanted(cfg, h, c, two);
           var rehashed := h.rehash(tenant, wanted, ids);
           && Unmatched(c.incidents, tenant, wanted, Elements(ids)) && wanted != fp
           && Elements(EventIds(one)) !! Elements(ids) && TakenInTenant(c.incidents, tenant, wanted)
           && (TakenInTenant(c.incidents, tenant, rehashed) || rehashed == fp))
  }

  /** The tables have one more incident, a new one. */
  ghost predicate OneMore(c: Cases, d: Cases, tenant: string, ids: seq<string>, fp: string) {
    && d.records == c.records && |d.incidents| == |c.incidents| + 1
    && var i := d.incidents[|c.incidents|];
       && d.incidents == c.incidents + [i] && i.tenant == tenant && i.fingerprint == fp && i.eventIds == ids && Open(i)
  }

  lemma SnocFound(incidents: seq<Incident>, i: Incident, tenant: string, fp: string, ids: set<string>)
    requires i.tenant == tenant && Open(i)
    ensures Unmatched(incidents + [i], tenant, fp, ids)
            <==> Unmatched(incidents, tenant, fp, ids) && i.fingerprint != fp && Elements(i.eventIds) !! ids
  {
  }

  lemma SnocTaken(incidents: seq<Incident>, i: Incident, tenant: string, fp: string)
    requires i.tenant == tenant
    ensures TakenInTenant(incidents + [i], tenant, fp) <==> TakenInTenant(incidents, tenant, fp) || i.fingerprint == fp
  {
    assert i in incidents + [i];
  }

  lemma OneMoreAborts(cfg: Settings, h: Hashes, c: Cases, d: Cases, one: seq<Event>, fp: string, two: seq<Event>)
    requires 0 < cfg.maxIncidentSpanMinutes && two != [] && OneMore(c, d, two[0].tenant, EventIds(one), fp)
    ensures OneAborts(cfg, h, d, two) <==> AbortsAfterNew(cfg, h, c, one, fp, two)
  {
    if !Weak(c, two) && Principal(two).Some? {
      var i, tenant, wanted := d.incidents[|c.incidents|], two[0].tenant, Wanted(cfg, h, c, two);
      SnocFound(c.incidents, i, tenant, wanted, Elements(EventIds(two)));
      SnocTaken(c.incidents, i, tenant, wanted);
      SnocTaken(c.incidents, i, tenant, h.rehash(tenant, wanted, EventIds(two)));
    }
  }

  lemma NewOneTidy(h: Hashes, c: Cases, d: Cases, tenant: string, ids: seq<string>, fp: string)
    requires Tidy(h, c, tenant) && OneMore(c, d, tenant, ids, fp) && HashOf(h, tenant, fp)
    requires !TakenInTenant(c.incidents, tenant, fp)
    ensures Tidy(h, d, tenant)
  {
    HashedMembers(h, c);
    HeldInTenant(h, c.incidents, tenant, fp);
    DistinctSnoc(c.incidents, d.incidents[|c.incidents|]);
  }

  lemma CreatedSession(cfg: Settings, h: Hashes, c: Cases, group: seq<Event>, newId: string) returns (d: Cases)
    requires 0 < cfg.maxIncidentSpanMinutes && Qualifies(c, group) && Tidy(h, c, group[0].tenant)
    requires Unmatched(c.incidents, group[0].tenant, Wanted(cfg, h, c, group), Elements(EventIds(group)))
    requires !OneAborts(cfg, h, c, group)
    ensures AfterGroup(Begin(c), Absorb(cfg, h, Begin(c), group, newId)) == Some(Begin(d))
    ensures var tenant, fp := group[0].tenant, Assigned(h, Begin(c), group, Wanted(cfg, h, c, group));
            OneMore(c, d, tenant, EventIds(group), fp) && Tidy(h, d, tenant)
  {
    var tenant, wanted := group[0].tenant, Wanted(cfg, h, c, group);
    var found, fp := GroupFindings(c.records, EventIds(group)), Assigned(h, Begin(c), group, wanted);
    CreateClashesIff(h, Begin(c), group, found, wanted, newId);
    d := Create(h, Begin(c), group, found, wanted, newId).session.cases;
    assert HashOf(h, tenant, wanted) && HashOf(h, tenant, h.rehash(tenant, wanted, EventIds(group)));
    NewOneTidy(h, c, d, tenant, EventIds(group), fp);
  }

  // ---- A second group after an enriched incident ------------------------------------------------------

  /** The incident table as the lookups of the second group see it: the old fingerprint, the new evidence. */
  function Seen(c: Cases, k: nat, one: seq<Event>): seq<Incident>
    requires k < |c.incidents|
  {
    c.incidents[k := Rescored(c, c.incidents[k], one).(fingerprint := c.incidents[k].fingerprint)]
  }

  /** Incident `k`, enriched by the first group, has `fp` pending. */
  ghost predicate AbortsAfterMore(cfg: Settings, h: Hashes, c: Cases, k: nat, one: seq<Event>, fp: string,
                                  two: seq<Event>)
    requires 0 < cfg.maxIncidentSpanMinutes && two != [] && k < |c.incidents|
  {
    && !Weak(c, two)
    && (|| Principal(two) == None
        || var tenant, wanted := two[0].tenant, Wanted(cfg, h, c, two);
           match FindExisting(Seen(c, k, one), tenant, wanted, Elements(EventIds(two)))
           case Some(n) =>
             n != k && n < |c.incidents| && Asked(cfg, h, Begin(c), n, two) == Some(fp)
             && !TakenInTenant(Incidents.Others(c.incidents, n), tenant, fp)
           case None =>
             var asked := Assigned(h, Begin(c), two, wanted);
             asked == fp || TakenInTenant(Incidents.Others(c.incidents, k), tenant, asked))
  }

  /** The session after an enrichment of incident `k`. */
  ghost predicate Pending(h: Hashes, c: Cases, s: Session, k: nat, one: seq<Event>, fp: string, tenant: string) {
    && k < |c.incidents| == |s.cases.incidents| && c.incidents[k].tenant == tenant
    && s.cases.records == c.records && s.cases.rows == c.rows && s.disk == Fingerprints(c.incidents)
    && s.cases.incidents == c.incidents[k := Rescored(c, c.incidents[k], one).(fingerprint := fp)]
    && Tidy(h, s.cases, tenant)
  }

  lemma TakenAt(incidents: seq<Incident>, tenant: string, fp: string)
    ensures TakenInTenant(incidents, tenant, fp)
            <==> exists m :: 0 <= m < |incidents| && incidents[m].tenant == tenant && incidents[m].fingerprint == fp
  {
  }

  /** Two tables with the same tenants and fingerprints, row by row. */
  ghost predicate SamePrints(some: seq<Incident>, others: seq<Incident>) {
    && |some| == |others|
    && forall m :: 0 <= m < |some| ==>
         some[m].tenant == others[m].tenant && some[m].fingerprint == others[m].fingerprint
  }

  lemma SamePrintsTaken(some: seq<Incident>, others: seq<Incident>, tenant: string, fp: string)
    requires SamePrints(some, others)
    ensures TakenInTenant(some, tenant, fp) <==> TakenInTenant(others, tenant, fp)
  {
    TakenAt(some, tenant, fp);
    TakenAt(others, tenant, fp);
  }

  lemma SamePrintsRest(some: seq<Incident>, others: seq<Incident>, n: nat)
    requires SamePrints(some, others) && n < |some|
    ensures SamePrints(Incidents.Others(some, n), Incidents.Others(others, n))
  {
  }

  /** What the other rows hold: all rows but one. */
  lemma OthersTakenIff(incidents: seq<Incident>, n: nat, tenant: string, fp: string)
    requires n < |incidents|
    ensures TakenInTenant(Incidents.Others(incidents, n), tenant, fp)
            <==> exists m :: 0 <= m < |incidents| && m != n && incidents[m].tenant == tenant
                             && incidents[m].fingerprint == fp
  {
    var others := Incidents.Others(incidents, n);
    if TakenInTenant(others, tenant, fp) {
      var m :| 0 <= m < |others| && others[m].tenant == tenant && others[m].fingerprint == fp;
      assert incidents[if m < n then m else m + 1] == others[m];
    }
    if m :| 0 <= m < |incidents| && m != n && incidents[m].tenant == tenant && incidents[m].fingerprint == fp {
      OthersHas(incidents, n, m);
    }
  }

  lemma SeenIsTable(h: Hashes, c: Cases, s: Session, k: nat, one: seq<Event>, fp: string, tenant: string)
    requires Pending(h, c, s, k, one, fp, tenant)
    ensures s.Aligned() && s.Table() == Seen(c, k, one) && SamePrints(s.Table(), c.incidents)
  {
    var table := Seen(c, k, one);
    forall n | 0 <= n < |s.disk| ensures s.Table()[n] == table[n] {
    }
  }

  /** A second enrichment clashes exactly when it asks for the pending fingerprint, unseen in the table. */
  lemma MoreFailsIff(cfg: Settings, h: Hashes, c: Cases, s: Session, k: nat, one: seq<Event>, fp: string, n: nat,
                     two: seq<Event>, tenant: string)
    requires 0 < cfg.maxIncidentSpanMinutes && two != [] && Principal(two).Some?
    requires Pending(h, c, s, k, one, fp, tenant) && s.Aligned() && SamePrints(s.Table(), c.incidents)
    requires n < |s.disk| && s.cases.incidents[n].tenant == tenant
    ensures Enrich(cfg, h, s, n, two).Stored?
    ensures !DistinctFingerprints(Enrich(cfg, h, s, n, two).session.cases.incidents)
            <==> n != k && Asked(cfg, h, Begin(c), n, two) == Some(fp)
                 && !TakenInTenant(Incidents.Others(c.incidents, n), tenant, fp)
  {
    PrincipalNoneIff(two);
    MergedHasPrincipal(s.cases.rows, s.cases.incidents[n], two);
    EnrichClashesIff(cfg, h, s, n, two);
    var wanted := Asked(cfg, h, s, n, two).value;
    OthersOfPending(h, c, s, k, one, fp, n, tenant, wanted);
  }

  /** Memory differs from the table in row `k` only. */
  ghost predicate ButOne(mine: seq<Incident>, rows: seq<Incident>, k: nat, tenant: string, fp: string) {
    && k < |mine| == |rows| && mine[k].tenant == rows[k].tenant == tenant && mine[k].fingerprint == fp
    && forall m :: 0 <= m < |mine| && m != k ==>
         mine[m].tenant == rows[m].tenant && mine[m].fingerprint == rows[m].fingerprint
  }

  lemma ButOneTaken(mine: seq<Incident>, rows: seq<Incident>, k: nat, n: nat, tenant: string, fp: string,
                    wanted: string)
    requires ButOne(mine, rows, k, tenant, fp) && n < |rows|
    ensures !TakenInTenant(Incidents.Others(rows, n), tenant, wanted)
            && TakenInTenant(Incidents.Others(mine, n), tenant, wanted)
            <==> n != k && wanted == fp && !TakenInTenant(Incidents.Others(rows, n), tenant, wanted)
  {
    OthersTakenIff(mine, n, tenant, wanted);
    OthersTakenIff(rows, n, tenant, wanted);
  }

  lemma OthersOfPending(h: Hashes, c: Cases, s: Session, k: nat, one: seq<Event>, fp: string, n: nat, tenant: string,
                        wanted: string)
    requires Pending(h, c, s, k, one, fp, tenant) && s.Aligned() && SamePrints(s.Table(), c.incidents) && n < |s.disk|
    ensures !TakenInTenant(Incidents.Others(s.Table(), n), tenant, wanted)
            && TakenInTenant(Incidents.Others(s.cases.incidents, n), tenant, wanted)
            <==> n != k && wanted == fp && !TakenInTenant(Incidents.Others(c.incidents, n), tenant, wanted)
  {
    SamePrintsRest(s.Table(), c.incidents, n);
    SamePrintsTaken(Incidents.Others(s.Table(), n), Incidents.Others(c.incidents, n), tenant, wanted);
    ButOneTaken(s.cases.incidents, c.incidents, k, n, tenant, fp, wanted);
  }

  /** A creation clashes exactly when its fingerprint is the pending one or another row's. */
  lemma NewFailsIff(h: Hashes, c: Cases, s: Session, k: nat, one: seq<Event>, fp: string, two: seq<Event>,
                    found: seq<Finding>, wanted: string, newId: string)
    requires two != [] && Pending(h, c, s, k, one, fp, two[0].tenant) && s.Aligned()
    requires SamePrints(s.Table(), c.incidents)
    requires HashOf(h, two[0].tenant, wanted)
    ensures var asked := Assigned(h, Begin(c), two, wanted);
            Create(h, s, two, found, wanted, newId) == FingerprintClash
            <==> asked == fp || TakenInTenant(Incidents.Others(c.incidents, k), two[0].tenant, asked)
  {
    var tenant := two[0].tenant;
    SamePrintsTaken(s.Table(), c.incidents, tenant, wanted);
    PendingTaken(h, c, s, k, one, fp, tenant, Assigned(h, Begin(c), two, wanted));
    CreateClashesIff(h, s, two, found, wanted, newId);
  }

  lemma PendingTaken(h: Hashes, c: Cases, s: Session, k: nat, one: seq<Event>, fp: string, tenant: string,
                     asked: string)
    requires Pending(h, c, s, k, one, fp, tenant)
    ensures TakenInTenant(s.cases.incidents, tenant, asked)
            <==> asked == fp || TakenInTenant(Incidents.Others(c.incidents, k), tenant, asked)
  {
    var mine := s.cases.incidents;
    OthersTakenIff(c.incidents, k, tenant, asked);
    assert mine[k] in mine;
    forall m | 0 <= m < |mine| ensures mine[m] in mine && mine[m].tenant == c.incidents[m].tenant {
    }
  }

  lemma MatchedAgainFailsIff(cfg: Settings, h: Hashes, c: Cases, s: Session, k: nat, one: seq<Event>, fp: string,
                             two: seq<Event>, newId: string, n: nat)
    requires 0 < cfg.maxIncidentSpanMinutes && Qualifies(c, two) && Pending(h, c, s, k, one, fp, two[0].tenant)
    requires s.Aligned() && s.Table() == Seen(c, k, one) && SamePrints(s.Table(), c.incidents)
    requires FindExisting(Seen(c, k, one), two[0].tenant, Wanted(cfg, h, c, two), Elements(EventIds(two))) == Some(n)
    ensures n < |c.incidents|
    ensures Fails(AfterGroup(s, Absorb(cfg, h, s, two, newId)))
            <==> n != k && Asked(cfg, h, Begin(c), n, two) == Some(fp)
                 && !TakenInTenant(Incidents.Others(c.incidents, n), two[0].tenant, fp)
  {
    MatchEnriches(cfg, h, s, two, newId, n);
    MoreFailsIff(cfg, h, c, s, k, one, fp, n, two, two[0].tenant);
  }

  lemma NewAgainFailsIff(cfg: Settings, h: Hashes, c: Cases, s: Session, k: nat, one: seq<Event>, fp: string,
                         two: seq<Event>, newId: string)
    requires 0 < cfg.maxIncidentSpanMinutes && Qualifies(c, two) && Pending(h, c, s, k, one, fp, two[0].tenant)
    requires s.Aligned() && s.Table() == Seen(c, k, one) && SamePrints(s.Table(), c.incidents)
    requires Unmatched(Seen(c, k, one), two[0].tenant, Wanted(cfg, h, c, two), Elements(EventIds(two)))
    ensures var asked := Assigned(h, Begin(c), two, Wanted(cfg, h, c, two));
            Fails(AfterGroup(s, Absorb(cfg, h, s, two, newId)))
            <==> asked == fp || TakenInTenant(Incidents.Others(c.incidents, k), two[0].tenant, asked)
  {
    var found := GroupFindings(c.records, EventIds(two));
    NoMatchCreates(cfg, h, s, two, newId);
    NewFailsIff(h, c, s, k, one, fp, two, found, Wanted(cfg, h, c, two), newId);
    CreatedCommits(h, s, two, found, Wanted(cfg, h, c, two), newId);
  }

  lemma TooWeakOrAnonymous(cfg: Settings, h: Hashes, s: Session, group: seq<Event>, newId: string)
    requires 0 < cfg.maxIncidentSpanMinutes && s.Aligned() && group != [] && !Qualifies(s.cases, group)
    requires DistinctFingerprints(s.cases.incidents)
    ensures Fails(AfterGroup(s, Absorb(cfg, h, s, group, newId))) <==> !Weak(s.cases, group)
  {
  }

  /** What the second group does in such a session. */
  lemma PendingFailsIff(cfg: Settings, h: Hashes, c: Cases, s: Session, k: nat, one: seq<Event>, fp: string,
                        two: seq<Event>, newId: string)
    requires 0 < cfg.maxIncidentSpanMinutes && two != [] && Pending(h, c, s, k, one, fp, two[0].tenant) && s.Aligned()
    ensures Fails(AfterGroup(s, Absorb(cfg, h, s, two, newId))) <==> AbortsAfterMore(cfg, h, c, k, one, fp, two)
  {
    if Qualifies(c, two) {
      SeenIsTable(h, c, s, k, one, fp, two[0].tenant);
      match FindExisting(Seen(c, k, one), two[0].tenant, Wanted(cfg, h, c, two), Elements(EventIds(two))) {
        case Some(n) => MatchedAgainFailsIff(cfg, h, c, s, k, one, fp, two, newId, n);
        case None => NewAgainFailsIff(cfg, h, c, s, k, one, fp, two, newId);
      }
    } else {
      TooWeakOrAnonymous(cfg, h, s, two, newId);
    }
  }

  /** The fingerprint an enrichment of incident `k` leaves pending. */
  function PendingPrint(cfg: Settings, h: Hashes, c: Cases, k: nat, group: seq<Event>): string
    requires 0 < cfg.maxIncidentSpanMinutes && k < |c.incidents|
  {
    match Asked(cfg, h, Begin(c), k, group)
    case None => c.incidents[k].fingerprint
    case Some(wanted) => Kept(Begin(c), k, wanted)
  }

  lemma EnrichedSession(cfg: Settings, h: Hashes, c: Cases, k: nat, one: seq<Event>)
    requires 0 < cfg.maxIncidentSpanMinutes && one != [] && Principal(one).Some? && k < |c.incidents|
    requires c.incidents[k].tenant == one[0].tenant && Tidy(h, c, one[0].tenant)
    ensures var r := Enrich(cfg, h, Begin(c), k, one);
            r.Stored? && Pending(h, c, r.session, k, one, PendingPrint(cfg, h, c, k, one), one[0].tenant)
  {
    EnrichmentHolds(cfg, h, c, k, one);
    EnrichRescores(cfg, h, Begin(c), k, one);
    EnrichKeepsHashed(cfg, h, Begin(c), k, one);
    var s := Enrich(cfg, h, Begin(c), k, one).session;
    assert NoOtherTenant(c.incidents, s.cases.incidents, one[0].tenant);
    SeparatedGrows(h, c.incidents, s.cases.incidents, one[0].tenant);
  }

  // ---- Two groups ----------------------------------------------------------------------------------------

  /** The first group aborts, or the second does on what the first has left. */
  ghost predicate TwoAbort(cfg: Settings, h: Hashes, c: Cases, one: seq<Event>, two: seq<Event>)
    requires 0 < cfg.maxIncidentSpanMinutes && one != [] && two != []
  {
    if OneAborts(cfg, h, c, one) then true
    else if Weak(c, one) then OneAborts(cfg, h, c, two)
    else
      match FindExisting(c.incidents, one[0].tenant, Wanted(cfg, h, c, one), Elements(EventIds(one)))
      case None => AbortsAfterNew(cfg, h, c, one, Assigned(h, Begin(c), one, Wanted(cfg, h, c, one)), two)
      case Some(k) => k < |c.incidents| && AbortsAfterMore(cfg, h, c, k, one, PendingPrint(cfg, h, c, k, one), two)
  }

  lemma AfterNewFailsIff(cfg: Settings, h: Hashes, c: Cases, one: seq<Event>, two: seq<Event>, newIds: nat -> string)
    requires 0 < cfg.maxIncidentSpanMinutes && two != [] && Qualifies(c, one) && one[0].tenant == two[0].tenant
    requires Tidy(h, c, one[0].tenant) && !OneAborts(cfg, h, c, one)
    requires Unmatched(c.incidents, one[0].tenant, Wanted(cfg, h, c, one), Elements(EventIds(one)))
    ensures Fails(AbsorbAll(cfg, h, Begin(c), [one, two], newIds))
            <==> AbortsAfterNew(cfg, h, c, one, Assigned(h, Begin(c), one, Wanted(cfg, h, c, one)), two)
  {
    TwoGroups(cfg, h, Begin(c), one, two, newIds);
    var d := CreatedSession(cfg, h, c, one, newIds(0));
    AbsorbFailsIff(cfg, h, d, two, newIds(1));
    OneMoreAborts(cfg, h, c, d, one, Assigned(h, Begin(c), one, Wanted(cfg, h, c, one)), two);
  }

  lemma AfterMoreFailsIff(cfg: Settings, h: Hashes, c: Cases, k: nat, one: seq<Event>, two: seq<Event>,
                          newIds: nat -> string)
    requires 0 < cfg.maxIncidentSpanMinutes && two != [] && Qualifies(c, one) && one[0].tenant == two[0].tenant
    requires Tidy(h, c, one[0].tenant)
    requires FindExisting(c.incidents, one[0].tenant, Wanted(cfg, h, c, one), Elements(EventIds(one))) == Some(k)
    ensures k < |c.incidents|
    ensures Fails(AbsorbAll(cfg, h, Begin(c), [one, two], newIds))
            <==> AbortsAfterMore(cfg, h, c, k, one, PendingPrint(cfg, h, c, k, one), two)
  {
    TwoGroups(cfg, h, Begin(c), one, two, newIds);
    MatchEnriches(cfg, h, Begin(c), one, newIds(0), k);
    EnrichedSession(cfg, h, c, k, one);
    PendingFailsIff(cfg, h, c, Enrich(cfg, h, Begin(c), k, one).session, k, one, PendingPrint(cfg, h, c, k, one), two,
                    newIds(1));
  }

  lemma AfterWeakFailsIff(cfg: Settings, h: Hashes, c: Cases, one: seq<Event>, two: seq<Event>, newIds: nat -> string)
    requires 0 < cfg.maxIncidentSpanMinutes && one != [] && two != [] && Weak(c, one) && Tidy(h, c, two[0].tenant)
    ensures Fails(AbsorbAll(cfg, h, Begin(c), [one, two], newIds)) <==> OneAborts(cfg, h, c, two)
  {
    TwoGroups(cfg, h, Begin(c), one, two, newIds);
    AbsorbFailsIff(cfg, h, c, two, newIds(1));
  }

  lemma FirstFails(cfg: Settings, h: Hashes, c: Cases, one: seq<Event>, two: seq<Event>, newIds: nat -> string)
    requires 0 < cfg.maxIncidentSpanMinutes && one != [] && two != [] && Tidy(h, c, one[0].tenant)
    requires OneAborts(cfg, h, c, one)
    ensures AbsorbAll(cfg, h, Begin(c), [one, two], newIds) == None
  {
    TwoGroups(cfg, h, Begin(c), one, two, newIds);
    AbsorbFailsIff(cfg, h, c, one, newIds(0));
  }

  /** The exact condition for a batch of two groups of one tenant, over the tables before it. */
  lemma TwoGroupsAbortIff(cfg: Settings, h: Hashes, c: Cases, one: seq<Event>, two: seq<Event>, newIds: nat -> string)
    requires 0 < cfg.maxIncidentSpanMinutes && one != [] && two != [] && one[0].tenant == two[0].tenant
    requires Tidy(h, c, one[0].tenant)
    ensures CorrelateBatch(cfg, h, c, [one, two], newIds) == None <==> TwoAbort(cfg, h, c, one, two)
  {
    if OneAborts(cfg, h, c, one) {
      FirstFails(cfg, h, c, one, two, newIds);
    } else if Weak(c, one) {
      AfterWeakFailsIff(cfg, h, c, one, two, newIds);
    } else {
      match FindExisting(c.incidents, one[0].tenant, Wanted(cfg, h, c, one), Elements(EventIds(one))) {
        case None => AfterNewFailsIff(cfg, h, c, one, two, newIds);
        case Some(k) => AfterMoreFailsIff(cfg, h, c, k, one, two, newIds);
      }
    }
  }
}
