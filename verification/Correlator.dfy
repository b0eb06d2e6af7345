/**
 `create_or_update_incidents` as it walks the connected groups and updates the incident table in
 place, inside one transaction (backend/app/services/correlation_engine.py, lines 208-400).
 */
module Correlator {
  import opened Base
  import opened Config
  import opened Correlation
  import opened Groups
  import opened Detection
  import opened Playbook
  import opened Risk
  import opened Incidents
  import opened IncidentLaws
  import opened Absorption
  import opened Sessions
  import opened Transactions

  class IncidentStore {
    const cfg: Settings
    const h: Hashes
    var rows: seq<Incidents.Event>
    var records: seq<Finding>
    var incidents: seq<Incident>
    var history: seq<HistoryRow>
    /** The fingerprint column as flushed; `incidents` holds the objects in memory. */
    var disk: seq<string>

    ghost function Snapshot(): Cases
      reads this
    {
      Cases(rows, records, incidents, history)
    }

    ghost function Current(): Session
      reads this
    {
      Session(Snapshot(), disk)
    }

    /** Between two calls nothing is pending. */
    ghost predicate Valid()
      reads this
    {
      0 < cfg.maxIncidentSpanMinutes && CasesInv(h, Snapshot()) && Current() == Begin(Snapshot())
    }

    /** Opens existing tables. */
    constructor (cfg: Settings, h: Hashes, c: Cases)
      requires 0 < cfg.maxIncidentSpanMinutes && CasesInv(h, c)
      ensures Valid() && Snapshot() == c
      ensures this.cfg == cfg && this.h == h
    {
      this.cfg, this.h := cfg, h;
      rows, records, incidents, history := c.rows, c.records, c.incidents, c.history;
      disk := Fingerprints(c.incidents);
    }

    /**
     The open incident with the fingerprint in the table, or else the first open one whose evidence, as
     it is in memory, meets the group's.
     */
    method Locate(tenant: string, fp: string, ids: set<string>) returns (at: Option<nat>)
      requires Current().Aligned()
      ensures at == FindExisting(Current().Table(), tenant, fp, ids)
      ensures at.Some? ==> at.value < |incidents| && incidents[at.value].tenant == tenant && Open(incidents[at.value])
    {
      FoundIsOpen(Current(), tenant, fp, ids);
      at := LocateFingerprint(tenant, fp);
      if at == None {
        at := LocateSharing(tenant, ids);
      }
    }

    /** The query filters on the column of the table. */
    method LocateFingerprint(tenant: string, fp: string) returns (at: Option<nat>)
      requires Current().Aligned()
      ensures at == First(Current().Table(), OpenWith(tenant, fp))
    {
      ghost var table := Current().Table();
      for k := 0 to |disk|
        invariant First(table[..k], OpenWith(tenant, fp)) == None
      {
        assert table[..k + 1][..k] == table[..k];
        if incidents[k].tenant == tenant && Open(incidents[k]) && disk[k] == fp {
          FirstAt(table, k, OpenWith(tenant, fp));
          return Some(k);
        }
      }
      assert table[..|disk|] == table;
      at := None;
    }

    /** The loop compares the evidence of the objects. */
    method LocateSharing(tenant: string, ids: set<string>) returns (at: Option<nat>)
      requires Current().Aligned()
      ensures at == First(Current().Table(), OpenSharing(tenant, ids))
    {
      ghost var table := Current().Table();
      for k := 0 to |disk|
        invariant First(table[..k], OpenSharing(tenant, ids)) == None
      {
        assert table[..k + 1][..k] == table[..k];
        if incidents[k].tenant == tenant && Open(incidents[k]) && !(Elements(incidents[k].eventIds) !! ids) {
          FirstAt(table, k, OpenSharing(tenant, ids));
          return Some(k);
        }
      }
      assert table[..|disk|] == table;
      at := None;
    }

    /** Whether a row of the tenant other than `except` has the fingerprint. */
    method InTable(tenant: string, fp: string, except: Option<nat>) returns (taken: bool)
      requires Current().Aligned() && (except.Some? ==> except.value < |disk|)
      ensures taken == match except
                       case None => TakenInTenant(Current().Table(), tenant, fp)
                       case Some(k) => TakenInTenant(Others(Current().Table(), k), tenant, fp)
    {
      ghost var table := Current().Table();
      taken := false;
      for k := 0 to |disk|
        invariant taken <==>
                  exists j :: 0 <= j < k && Some(j) != except && table[j].tenant == tenant && table[j].fingerprint == fp
      {
        if Some(k) != except && incidents[k].tenant == tenant && disk[k] == fp {
          taken := true;
          assert table[k].tenant == tenant && table[k].fingerprint == fp;
        }
      }
      TakenByPosition(table, except, tenant, fp);
    }

    /** Updates the object of incident `k` from the group; the table follows with the next flush. */
    method EnrichIncident(k: nat, group: seq<Incidents.Event>)
      requires 0 < cfg.maxIncidentSpanMinutes && Current().Aligned() && k < |incidents|
      requires group != [] && !Anonymous(group)
      modifies this`incidents, this`history
      ensures Enrich(cfg, h, old(Current()), k, group) == Stored(Current(), k)
    {
      ghost var before := Current();
      var i := incidents[k];
      var all := Merged(rows, i, group);
      MergedHasPrincipal(rows, i, group);
      var found := FindingsAbout(records, Elements(EventIds(all)));
      var j := Rescore(i, all, found);
      var fp := Fingerprint(cfg, h, i.tenant, Flags(found), all);
      var taken := InTable(i.tenant, fp, Some(k));
      if taken {
        fp := i.fingerprint;
      }
      j := j.(fingerprint := fp);
      incidents := incidents[k := j];
      if Differs(i, j) {
        history := history + [HistoryRow(j.id, j.risk, j.residual, IncidentEnriched)];
      }
      assert history == before.cases.history + Enrichment(i, j);
    }

    /** The recomputed columns of an incident. */
    method Rescore(i: Incident, all: seq<Incidents.Event>, found: seq<Finding>) returns (j: Incident)
      ensures j == Recomputed(i, all, found)
    {
      var risk, breakdown := CalculateRisk(found, all);
      var kind := InferType(Flags(found));
      var actions := Carry(if i.kind == kind then i.actions else [], Recommend(Flags(found)));
      j := i.(kind := kind, breakdown := breakdown, risk := risk, residual := Residual(risk, actions),
              severity := SeverityOf(risk), eventIds := EventIds(all), actions := actions,
              user := MostCommon(Users(all)), host := MostCommon(Hosts(all)));
    }

    /** Adds an incident and flushes; a violated constraint leaves the rest to the caller's rollback. */
    method CreateIncident(group: seq<Incidents.Event>, found: seq<Finding>, wanted: string, newId: string)
      returns (ok: bool)
      requires Current().Aligned() && group != []
      modifies this`incidents, this`history, this`disk
      ensures match Create(h, old(Current()), group, found, wanted, newId)
              case Stored(s, _) => ok && Current() == s
              case _ => !ok && Current() == old(Current())
    {
      var tenant, fp := group[0].tenant, wanted;
      var taken := InTable(tenant, fp, None);
      if taken {
        fp := h.rehash(tenant, fp, EventIds(group));
      }
      var risk, breakdown := CalculateRisk(found, group);
      var i := Opened(newId, tenant, fp, group, found).(breakdown := breakdown, risk := risk, residual := risk);
      if !DistinctFingerprints(incidents + [i]) {
        return false;
      }
      incidents := incidents + [i];
      disk := Fingerprints(incidents);
      history := history + [HistoryRow(newId, risk, risk, IncidentCreated)];
      ok := true;
    }

    /** One turn of the loop; after an exception the caller rolls the tables back. */
    method AbsorbGroup(group: seq<Incidents.Event>, newId: string) returns (ok: bool)
      requires 0 < cfg.maxIncidentSpanMinutes && Current().Aligned() && group != []
      modifies this`incidents, this`history, this`disk
      ensures match AfterGroup(old(Current()), Absorb(cfg, h, old(Current()), group, newId))
              case None => !ok && Current() == old(Current())
              case Some(s) => ok && Current() == s
    {
      var found := GroupFindings(records, EventIds(group));
      if |Flags(found)| < 2 {
        return true;
      }
      PrincipalNoneIff(group);
      if Principal(group) == None {
        return false;
      }
      AbsorbsQualified(cfg, h, Current(), group, newId);
      ok := EnrichOrCreate(group, found, newId);
    }

    method EnrichOrCreate(group: seq<Incidents.Event>, found: seq<Finding>, newId: string) returns (ok: bool)
      requires 0 < cfg.maxIncidentSpanMinutes && Current().Aligned() && group != [] && !Anonymous(group)
      requires Principal(group).Some?
      modifies this`incidents, this`history, this`disk
      ensures match EnrichedOrCreated(cfg, h, old(Current()), group, found, newId)
              case Stored(s, _) => ok && Current() == s
              case _ => !ok && Current() == old(Current())
    {
      var wanted := Fingerprint(cfg, h, group[0].tenant, Flags(found), group);
      var existing := Locate(group[0].tenant, wanted, Elements(EventIds(group)));
      if existing.Some? {
        EnrichIncident(existing.value, group);
        ok := true;
      } else {
        ok := CreateIncident(group, found, wanted, newId);
      }
    }

    /** The whole call and the commit: every connected group in order, or nothing at all. */
    method CreateOrUpdate(candidates: seq<Incidents.Event>, newIds: nat -> string)
      returns (ok: bool, ghost groups: seq<seq<Incidents.Event>>)
      requires Valid() && UniqueIds(candidates)
      requires forall e :: e in candidates ==> e in rows && e.tenant == candidates[0].tenant
      requires forall n :: FreshIds(Snapshot(), newIds, n)
      modifies this`incidents, this`history, this`disk
      ensures Valid()
      ensures Emitted(cfg, candidates, groups)
      ensures Transactions.Groups(rows, groups)
      ensures ok ==> BatchDone(old(Snapshot()), Snapshot())
      ensures match CorrelateBatch(cfg, h, old(Snapshot()), groups, newIds)
              case None => !ok && Snapshot() == old(Snapshot())
              case Some(c) => ok && Snapshot() == c
    {
      var found := ConnectedGroups(cfg, candidates);
      groups := found;
      EmittedGroups(cfg, candidates, rows, groups);
      ok := AbsorbGroups(found, newIds);
    }

    /** The loop over the groups and the commit, rolled back as a whole if something fails. */
    method AbsorbGroups(groups: seq<seq<Incidents.Event>>, newIds: nat -> string) returns (ok: bool)
      requires Valid() && Ready(Snapshot(), groups, newIds)
      modifies this`incidents, this`history, this`disk
      ensures Valid() && (ok ==> BatchDone(old(Snapshot()), Snapshot()))
      ensures match CorrelateBatch(cfg, h, old(Snapshot()), groups, newIds)
              case None => !ok && Snapshot() == old(Snapshot())
              case Some(c) => ok && Snapshot() == c
    {
      var saved, savedHistory, savedDisk := incidents, history, disk;
      ghost var before := Snapshot();
      NoGroupYet(cfg, h, before, groups, newIds);
      ok := true;
      for n := 0 to |groups|
        invariant rows == before.rows && records == before.records
        invariant Reached(cfg, h, before, groups, newIds, n, Current())
      {
        ghost var s := Current();
        ok := AbsorbGroup(groups[n], newIds(n));
        if !ok {
          GroupAborts(cfg, h, before, groups, newIds, n, s);
          incidents, history, disk := saved, savedHistory, savedDisk;
          return;
        }
        NextGroup(cfg, h, before, groups, newIds, n, s);
      }
      assert groups[..|groups|] == groups;
      ok := DistinctFingerprints(incidents);
      if ok {
        disk := Fingerprints(incidents);
      } else {
        incidents, history, disk := saved, savedHistory, savedDisk;
      }
    }
  }

  /** What happens to a group with two flags and a principal. */
  function EnrichedOrCreated(cfg: Settings, h: Hashes, s: Session, group: seq<Incidents.Event>, found: seq<Finding>,
                             newId: string): Absorbed
    requires 0 < cfg.maxIncidentSpanMinutes && s.Aligned() && group != [] && Principal(group).Some?
  {
    var wanted := Fingerprint(cfg, h, group[0].tenant, Flags(found), group);
    match FindExisting(s.Table(), group[0].tenant, wanted, Elements(EventIds(group)))
    case Some(k) => Enrich(cfg, h, s, k, group)
    case None => Create(h, s, group, found, wanted, newId)
  }

  lemma AbsorbsQualified(cfg: Settings, h: Hashes, s: Session, group: seq<Incidents.Event>, newId: string)
    requires 0 < cfg.maxIncidentSpanMinutes && s.Aligned()
    requires Transactions.Qualifies(s.cases, group) && !Anonymous(group)
    ensures var r := EnrichedOrCreated(cfg, h, s, group, GroupFindings(s.cases.records, EventIds(group)), newId);
            Absorb(cfg, h, s, group, newId) == r && (r.Stored? || r.FingerprintClash?)
  {
    var found := GroupFindings(s.cases.records, EventIds(group));
    var tenant, ids := group[0].tenant, Elements(EventIds(group));
    var wanted := Fingerprint(cfg, h, tenant, Flags(found), group);
    FoundIsOpen(s, tenant, wanted, ids);
    match FindExisting(s.Table(), tenant, wanted, ids) {
      case Some(k) => EnrichHasPrincipal(cfg, h, s, k, group);
      case None =>
    }
  }

  /** The session `n` groups of a batch lead to. */
  ghost predicate Reached(cfg: Settings, h: Hashes, c: Cases, groups: seq<seq<Incidents.Event>>, newIds: nat -> string,
                          n: nat, s: Session) {
    && 0 < cfg.maxIncidentSpanMinutes && n <= |groups| && Ready(c, groups, newIds)
    && SessionInv(h, s) && BatchDone(c, s.cases) && IdsFrom(c, s.cases, newIds, n)
    && AbsorbAll(cfg, h, Begin(c), groups[..n], newIds) == Some(s)
  }

  lemma NoGroupYet(cfg: Settings, h: Hashes, c: Cases, groups: seq<seq<Incidents.Event>>, newIds: nat -> string)
    requires 0 < cfg.maxIncidentSpanMinutes && CasesInv(h, c) && Ready(c, groups, newIds)
    ensures Reached(cfg, h, c, groups, newIds, 0, Begin(c))
  {
  }

  lemma NextGroup(cfg: Settings, h: Hashes, c: Cases, groups: seq<seq<Incidents.Event>>, newIds: nat -> string, n: nat,
                  s: Session)
    requires n < |groups| && Reached(cfg, h, c, groups, newIds, n, s)
    requires AfterGroup(s, Absorb(cfg, h, s, groups[n], newIds(n))).Some?
    ensures Reached(cfg, h, c, groups, newIds, n + 1, AfterGroup(s, Absorb(cfg, h, s, groups[n], newIds(n))).value)
  {
    var t := AfterGroup(s, Absorb(cfg, h, s, groups[n], newIds(n))).value;
    NextIdFresh(c, s.cases, newIds, n);
    AbsorbKeepsSession(cfg, h, s, groups[n], newIds(n));
    NextGroupDone(c, s.cases, t.cases, newIds(n));
    NextIdsFrom(c, s.cases, t.cases, newIds, n);
    AbsorbAllSnoc(cfg, h, Begin(c), groups, n, newIds, s);
  }

  lemma GroupAborts(cfg: Settings, h: Hashes, c: Cases, groups: seq<seq<Incidents.Event>>, newIds: nat -> string,
                    n: nat, s: Session)
    requires n < |groups| && Reached(cfg, h, c, groups, newIds, n, s)
    requires AfterGroup(s, Absorb(cfg, h, s, groups[n], newIds(n))) == None
    ensures CorrelateBatch(cfg, h, c, groups, newIds) == None
  {
    AbsorbAllSnoc(cfg, h, Begin(c), groups, n, newIds, s);
    AbsorbAllFails(cfg, h, Begin(c), groups, n + 1, newIds);
  }

  lemma TakenByPosition(table: seq<Incident>, except: Option<nat>, tenant: string, fp: string)
    requires except.Some? ==> except.value < |table|
    ensures (exists j: nat ::
               j < |table| && Some(j) != except && table[j].tenant == tenant && table[j].fingerprint == fp)
            <==> match except
                 case None => TakenInTenant(table, tenant, fp)
                 case Some(k) => TakenInTenant(Others(table, k), tenant, fp)
  {
  }

  lemma {:induction false} FirstAt<T>(s: seq<T>, k: nat, p: T -> bool)
    requires k < |s| && First(s[..k], p) == None && p(s[k])
    ensures First(s, p) == Some(k)
  {
  }

  /** What the graph search emits are groups of stored events of one tenant. */
  lemma EmittedGroups(cfg: Settings, candidates: seq<Incidents.Event>, rows: seq<Incidents.Event>,
                      groups: seq<seq<Incidents.Event>>)
    requires UniqueIds(candidates) && forall e :: e in candidates ==> e in rows && e.tenant == candidates[0].tenant
    requires Emitted(cfg, candidates, groups)
    ensures forall n :: 0 <= n < |groups| ==> GroupOf(rows, groups[n])
  {
    forall n | 0 <= n < |groups| ensures GroupOf(rows, groups[n]) {
      var g := groups[n];
      assert g in groups;
      assert Elements(g) in GroupFamily(groups);
      MembersOfClass(cfg, candidates, Elements(g));
      forall e | e in g ensures e in candidates && e in rows && e.tenant == g[0].tenant {
        assert e in Elements(g) && g[0] in Elements(g);
      }
      ArrangedOnce(candidates, g);
    }
  }

  lemma MembersOfClass(cfg: Settings, candidates: seq<Incidents.Event>, c: set<Incidents.Event>)
    requires c in GroupSets(cfg, Elements(candidates), PrunedEdge(cfg))
    ensures forall e :: e in c ==> e in candidates
  {
  }

  lemma ArrangedOnce(candidates: seq<Incidents.Event>, g: seq<Incidents.Event>)
    requires UniqueIds(candidates) && Arrangement(g, Elements(g))
    requires forall e :: e in g ==> e in candidates
    ensures UniqueIds(g)
  {
    forall i, j | 0 <= i < j < |g| ensures g[i].id != g[j].id {
      SameRow(candidates, g[i], g[j]);
      CountedTwice(g, i, j);
      assert multiset(Elements(g))[g[i]] <= 1;
    }
  }

  lemma AbsorbAllSnoc(cfg: Settings, h: Hashes, before: Session, groups: seq<seq<Incidents.Event>>, n: nat,
                      newIds: nat -> string, s: Session)
    requires 0 < cfg.maxIncidentSpanMinutes && before.Aligned() && s.Aligned()
    requires n < |groups| && forall k :: 0 <= k < |groups| ==> groups[k] != []
    requires AbsorbAll(cfg, h, before, groups[..n], newIds) == Some(s)
    ensures AbsorbAll(cfg, h, before, groups[..n + 1], newIds)
            == AfterGroup(s, Absorb(cfg, h, s, groups[n], newIds(n)))
  {
    assert groups[..n + 1][..n] == groups[..n];
  }
}
