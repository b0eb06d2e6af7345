/**
 Fingerprints over a batch. The session flushes when it creates an incident and when it commits, so a
 fingerprint changed by enrichment stays invisible to the lookups of later groups. This file says when
 the unique constraint is violated, and what a committed batch keeps.
 */
module Sessions {
  import opened Base
  import opened Config
  import opened Correlation
  import opened Detection
  import opened Playbook
  import opened Risk
  import opened Incidents
  import opened IncidentLaws
  import opened Absorption

  // ---- Hashes -------------------------------------------------------------------------------------

  /** `fp` is a hash of the tenant's. */
  ghost predicate HashOf(h: Hashes, tenant: string, fp: string) {
    || (exists kind, principal, bucket :: fp == h.fingerprint(tenant, kind, principal, bucket))
    || (exists taken, ids :: fp == h.rehash(tenant, taken, ids))
  }

  /** The tenant shares no hash value with another tenant that has an incident. */
  ghost predicate SeparatedFrom(h: Hashes, incidents: seq<Incident>, tenant: string) {
    forall i, fp :: i in incidents && HashOf(h, i.tenant, fp) && HashOf(h, tenant, fp) ==> i.tenant == tenant
  }

  ghost predicate Hashed(h: Hashes, c: Cases) {
    forall k :: 0 <= k < |c.incidents| ==> HashOf(h, c.incidents[k].tenant, c.incidents[k].fingerprint)
  }

  predicate PipeFree(s: string) {
    '|' !in s
  }

  function KindName(kind: Kind): string {
    match kind
    case Suspicious => "Suspicious Activity"
    case Exfiltration => "Potential Data Exfiltration"
    case Endpoint => "Endpoint Compromise"
    case Credential => "Credential Compromise"
  }

  function Joined(ids: seq<string>): string {
    if ids == [] then ""
    else if |ids| == 1 then ids[0]
    else ids[0] + "|" + Joined(ids[1..])
  }

  /** The two hashed texts; `sha` is the truncated digest and `decimal` the rendering of a number. */
  function HashesOf(sha: string -> string, decimal: int -> string): Hashes {
    Hashes((tenant: string, kind: Kind, principal: string, bucket: int) =>
             sha(tenant + "|" + (KindName(kind) + "|" + principal + "|" + decimal(bucket))),
           (tenant: string, taken: string, ids: seq<string>) => sha(tenant + "|" + (taken + "|" + Joined(ids))))
  }

  lemma FirstPipe(x: string, y: string, u: string, v: string)
    requires PipeFree(x) && PipeFree(u) && x + "|" + y == u + "|" + v
    ensures x == u
  {
    var s, t := x + "|" + y, u + "|" + v;
    assert s[|x|] == '|' && t[|u|] == '|';
    assert forall k :: 0 <= k < |x| ==> s[k] == x[k] && x[k] != '|';
    assert forall k :: 0 <= k < |u| ==> t[k] == u[k] && u[k] != '|';
    assert x == s[..|x|] && u == t[..|u|];
  }

  lemma HashText(sha: string -> string, decimal: int -> string, tenant: string, fp: string) returns (text: string)
    requires HashOf(HashesOf(sha, decimal), tenant, fp)
    ensures fp == sha(tenant + "|" + text)
  {
    var h := HashesOf(sha, decimal);
    if kind, principal, bucket :| fp == h.fingerprint(tenant, kind, principal, bucket) {
      text := KindName(kind) + "|" + principal + "|" + decimal(bucket);
    } else {
      var taken, ids :| fp == h.rehash(tenant, taken, ids);
      text := taken + "|" + Joined(ids);
    }
  }

  /** If the digest does not collide, tenants whose names lack the separator share no hash value. */
  lemma PipeFreeTenantsSeparated(sha: string -> string, decimal: int -> string, incidents: seq<Incident>,
                                 tenant: string)
    requires forall a, b :: sha(a) == sha(b) ==> a == b
    requires PipeFree(tenant) && forall i :: i in incidents ==> PipeFree(i.tenant)
    ensures SeparatedFrom(HashesOf(sha, decimal), incidents, tenant)
  {
    var h := HashesOf(sha, decimal);
    forall i, fp | i in incidents && HashOf(h, i.tenant, fp) && HashOf(h, tenant, fp) ensures i.tenant == tenant {
      var a := HashText(sha, decimal, i.tenant, fp);
      var b := HashText(sha, decimal, tenant, fp);
      FirstPipe(i.tenant, a, tenant, b);
    }
  }

  // ---- What a flush writes ------------------------------------------------------------------------

  /** Fingerprints in the table differ, and no pending one is another row's. */
  ghost predicate PendingApart(s: Session) {
    && s.Aligned()
    && (forall j, k :: 0 <= j < k < |s.disk| ==> s.disk[j] != s.disk[k])
    && (forall j, k :: 0 <= j < |s.disk| && 0 <= k < |s.disk| && j != k ==>
            s.cases.incidents[j].fingerprint != s.disk[k])
  }

  /** The column after the rows in `written` have been updated. */
  function Column(s: Session, written: set<nat>): (r: seq<string>)
    requires s.Aligned()
    ensures |r| == |s.disk|
  {
    seq(|s.disk|, i requires 0 <= i < |s.disk| => if i in written then s.cases.incidents[i].fingerprint else s.disk[i])
  }

  /**
   Whatever order a flush updates the rows in, the constraint holds after a part of it exactly when
   the fingerprints written so far differ. So a flush succeeds exactly when all those in memory do.
   */
  lemma FlushOrderIrrelevant(s: Session, written: set<nat>)
    requires PendingApart(s)
    ensures (forall j, k :: 0 <= j < k < |s.disk| ==> Column(s, written)[j] != Column(s, written)[k])
            <==> (forall j, k :: 0 <= j < k < |s.disk| && j in written && k in written ==>
                    s.cases.incidents[j].fingerprint != s.cases.incidents[k].fingerprint)
  {
    var column := Column(s, written);
    forall j, k | 0 <= j < k < |s.disk|
      ensures column[j] != column[k] <==>
              (j in written && k in written ==> s.cases.incidents[j].fingerprint != s.cases.incidents[k].fingerprint)
    {
    }
  }

  /** The table holds hashes of each row's own tenant as well. */
  ghost predicate HashedTable(h: Hashes, s: Session)
    requires s.Aligned()
  {
    forall k :: 0 <= k < |s.disk| ==> HashOf(h, s.cases.incidents[k].tenant, s.disk[k])
  }

  lemma EnrichKeepsApart(cfg: Settings, h: Hashes, s: Session, k: nat, group: seq<Incidents.Event>)
    requires 0 < cfg.maxIncidentSpanMinutes && PendingApart(s) && k < |s.disk|
    requires HashedTable(h, s) && SeparatedFrom(h, s.cases.incidents, s.cases.incidents[k].tenant)
    requires Enrich(cfg, h, s, k, group).Stored?
    ensures PendingApart(Enrich(cfg, h, s, k, group).session)
  {
    var i := s.cases.incidents[k];
    var all := Merged(s.cases.rows, i, group);
    var found := FindingsAbout(s.cases.records, Elements(EventIds(all)));
    var wanted := Fingerprint(cfg, h, i.tenant, Flags(found), all);
    assert HashOf(h, i.tenant, wanted);
    forall j | 0 <= j < |s.disk| && j != k ensures Kept(s, k, wanted) != s.disk[j] {
      assert s.cases.incidents[j] in s.cases.incidents;
      OthersHas(s.Table(), k, j);
    }
  }

  lemma OthersHas(incidents: seq<Incident>, k: nat, j: nat)
    requires k < |incidents| && j < |incidents|
    ensures j != k ==> incidents[j] in Others(incidents, k)
  {
    if j < k {
      assert Others(incidents, k)[j] == incidents[j];
    } else if j > k {
      assert Others(incidents, k)[j - 1] == incidents[j];
    }
  }

  /** Correlating a group keeps the pending fingerprints off other rows. */
  lemma AbsorbKeepsApart(cfg: Settings, h: Hashes, s: Session, group: seq<Incidents.Event>, newId: string)
    requires 0 < cfg.maxIncidentSpanMinutes && PendingApart(s) && group != [] && HashedTable(h, s)
    requires SeparatedFrom(h, s.cases.incidents, group[0].tenant)
    requires Absorb(cfg, h, s, group, newId).Stored?
    ensures PendingApart(Absorb(cfg, h, s, group, newId).session)
  {
    var found := GroupFindings(s.cases.records, EventIds(group));
    var tenant, ids := group[0].tenant, Elements(EventIds(group));
    var wanted := Fingerprint(cfg, h, tenant, Flags(found), group);
    FoundIsOpen(s, tenant, wanted, ids);
    match FindExisting(s.Table(), tenant, wanted, ids) {
      case Some(k) => EnrichKeepsApart(cfg, h, s, k, group);
      case None =>
    }
  }

  // ---- When the constraint is violated ----------------------------------------------------------------

  lemma DistinctSnoc(incidents: seq<Incident>, i: Incident)
    ensures DistinctFingerprints(incidents + [i])
            <==> DistinctFingerprints(incidents) && forall j :: j in incidents ==> j.fingerprint != i.fingerprint
  {
    var all := incidents + [i];
    if DistinctFingerprints(all) {
      forall j, k | 0 <= j < k < |incidents| ensures incidents[j].fingerprint != incidents[k].fingerprint {
        assert all[j] == incidents[j] && all[k] == incidents[k];
      }
      forall j | j in incidents ensures j.fingerprint != i.fingerprint {
        var n :| 0 <= n < |incidents| && incidents[n] == j;
        assert all[n] == j && all[|incidents|] == i;
      }
    }
  }

  lemma DistinctReplaced(incidents: seq<Incident>, k: nat, i: Incident)
    requires DistinctFingerprints(incidents) && k < |incidents|
    ensures DistinctFingerprints(incidents[k := i])
            <==> forall j :: j in Others(incidents, k) ==> j.fingerprint != i.fingerprint
  {
    var all := incidents[k := i];
    if DistinctFingerprints(all) {
      forall j | j in Others(incidents, k) ensures j.fingerprint != i.fingerprint {
        var n :| 0 <= n < |Others(incidents, k)| && Others(incidents, k)[n] == j;
        var m := if n < k then n else n + 1;
        assert all[m] == j && all[k] == i && m != k;
      }
    }
    if forall j :: j in Others(incidents, k) ==> j.fingerprint != i.fingerprint {
      forall j | 0 <= j < |incidents| && j != k ensures incidents[j].fingerprint != i.fingerprint {
        OthersHas(incidents, k, j);
      }
    }
  }

  /** A tenant's hash is held by an incident exactly when it is held by one of the tenant's. */
  lemma HeldInTenant(h: Hashes, incidents: seq<Incident>, tenant: string, fp: string)
    requires HashOf(h, tenant, fp) && SeparatedFrom(h, incidents, tenant)
    requires forall i :: i in incidents ==> HashOf(h, i.tenant, i.fingerprint)
    ensures (forall i :: i in incidents ==> i.fingerprint != fp) <==> !TakenInTenant(incidents, tenant, fp)
  {
  }

  lemma HashedMembers(h: Hashes, c: Cases)
    requires Hashed(h, c)
    ensures forall i :: i in c.incidents ==> HashOf(h, i.tenant, i.fingerprint)
  {
  }

  /** The fingerprint a new incident gets. */
  function Assigned(h: Hashes, s: Session, group: seq<Incidents.Event>, wanted: string): string
    requires s.Aligned() && group != []
  {
    var tenant := group[0].tenant;
    if TakenInTenant(s.Table(), tenant, wanted) then h.rehash(tenant, wanted, EventIds(group)) else wanted
  }

  /**
   A group violates the constraint exactly when no open row matches it, so that it is created and
   flushed, and either two pending fingerprints are equal already or the one it gets is held in memory:
   its own, changed by an earlier enrichment of the batch, or the rehashed one.
   */
  lemma ClashIff(cfg: Settings, h: Hashes, s: Session, group: seq<Incidents.Event>, newId: string)
    requires 0 < cfg.maxIncidentSpanMinutes && s.Aligned() && Hashed(h, s.cases) && group != []
    requires SeparatedFrom(h, s.cases.incidents, group[0].tenant) && Principal(group).Some?
    requires |Flags(GroupFindings(s.cases.records, EventIds(group)))| >= 2
    ensures var tenant, ids := group[0].tenant, EventIds(group);
            var wanted := Fingerprint(cfg, h, tenant, Flags(GroupFindings(s.cases.records, ids)), group);
            Absorb(cfg, h, s, group, newId) == FingerprintClash
            <==> && FindExisting(s.Table(), tenant, wanted, Elements(ids)) == None
                 && (!DistinctFingerprints(s.cases.incidents)
                     || TakenInTenant(s.cases.incidents, tenant, Assigned(h, s, group, wanted)))
  {
    var tenant, ids := group[0].tenant, EventIds(group);
    var found := GroupFindings(s.cases.records, ids);
    var wanted := Fingerprint(cfg, h, tenant, Flags(found), group);
    FoundIsOpen(s, tenant, wanted, Elements(ids));
    PrincipalNoneIff(group);
    match FindExisting(s.Table(), tenant, wanted, Elements(ids)) {
      case Some(k) => EnrichHasPrincipal(cfg, h, s, k, group);
      case None => CreateClashesIff(h, s, group, found, wanted, newId);
    }
  }

  lemma CreateClashesIff(h: Hashes, s: Session, group: seq<Incidents.Event>, found: seq<Finding>, wanted: string,
                         newId: string)
    requires s.Aligned() && Hashed(h, s.cases) && group != [] && HashOf(h, group[0].tenant, wanted)
    requires SeparatedFrom(h, s.cases.incidents, group[0].tenant)
    ensures Create(h, s, group, found, wanted, newId) == FingerprintClash
            <==> !DistinctFingerprints(s.cases.incidents)
                 || TakenInTenant(s.cases.incidents, group[0].tenant, Assigned(h, s, group, wanted))
  {
    var tenant, fp := group[0].tenant, Assigned(h, s, group, wanted);
    assert HashOf(h, tenant, h.rehash(tenant, wanted, EventIds(group)));
    HashedMembers(h, s.cases);
    HeldInTenant(h, s.cases.incidents, tenant, fp);
    DistinctSnoc(s.cases.incidents, Opened(newId, tenant, fp, group, found));
  }

  /** The first group of a batch clashes exactly when its fingerprint and its rehash are both taken. */
  lemma FirstGroupClashIff(cfg: Settings, h: Hashes, c: Cases, group: seq<Incidents.Event>, newId: string)
    requires 0 < cfg.maxIncidentSpanMinutes && Inv(c) && Hashed(h, c) && group != []
    requires SeparatedFrom(h, c.incidents, group[0].tenant) && Principal(group).Some?
    requires |Flags(GroupFindings(c.records, EventIds(group)))| >= 2
    ensures var tenant, ids := group[0].tenant, EventIds(group);
            var wanted := Fingerprint(cfg, h, tenant, Flags(GroupFindings(c.records, ids)), group);
            Absorb(cfg, h, Begin(c), group, newId) == FingerprintClash
            <==> FindExisting(c.incidents, tenant, wanted, Elements(ids)) == None
                 && TakenInTenant(c.incidents, tenant, wanted)
                 && TakenInTenant(c.incidents, tenant, h.rehash(tenant, wanted, ids))
  {
    ClashIff(cfg, h, Begin(c), group, newId);
  }

  /** The fingerprint an enriched incident asks for. */
  function Asked(cfg: Settings, h: Hashes, s: Session, k: nat, group: seq<Incidents.Event>): Option<string>
    requires 0 < cfg.maxIncidentSpanMinutes && s.Aligned() && k < |s.disk|
  {
    var i := s.cases.incidents[k];
    var all := Merged(s.cases.rows, i, group);
    if all == [] || Principal(all) == None then None
    else Some(Fingerprint(cfg, h, i.tenant, Flags(FindingsAbout(s.cases.records, Elements(EventIds(all)))), all))
  }

  /**
   An enrichment leaves two equal fingerprints pending, to fail at the next flush, exactly when the
   one it asks for is in no other row of the tenant but in the memory of another incident.
   */
  lemma EnrichClashesIff(cfg: Settings, h: Hashes, s: Session, k: nat, group: seq<Incidents.Event>)
    requires 0 < cfg.maxIncidentSpanMinutes && s.Aligned() && k < |s.disk| && Hashed(h, s.cases)
    requires DistinctFingerprints(s.cases.incidents)
    requires SeparatedFrom(h, s.cases.incidents, s.cases.incidents[k].tenant) && Asked(cfg, h, s, k, group).Some?
    ensures var tenant, wanted := s.cases.incidents[k].tenant, Asked(cfg, h, s, k, group).value;
            && Enrich(cfg, h, s, k, group).Stored?
            && (!DistinctFingerprints(Enrich(cfg, h, s, k, group).session.cases.incidents)
                <==> !TakenInTenant(Others(s.Table(), k), tenant, wanted)
                     && TakenInTenant(Others(s.cases.incidents, k), tenant, wanted))
  {
    var i, wanted := s.cases.incidents[k], Asked(cfg, h, s, k, group).value;
    var j := Enrich(cfg, h, s, k, group).session.cases.incidents[k];
    HashedMembers(h, s.cases);
    assert HashOf(h, i.tenant, wanted);
    assert forall o :: o in Others(s.cases.incidents, k) ==> o in s.cases.incidents;
    HeldInTenant(h, Others(s.cases.incidents, k), i.tenant, wanted);
    DistinctReplaced(s.cases.incidents, k, j);
    DistinctReplaced(s.cases.incidents, k, i);
    assert s.cases.incidents[k := i] == s.cases.incidents;
  }
}
