/**
 Which incident a group goes to: who it is named after, what its fingerprint stands for, and which open
 incident it matches (backend/app/services/correlation_engine.py, lines 151-155 and 216-250).
 */
module Matching {
  import opened Base
  import opened Config
  import opened Correlation
  import opened Detection
  import opened Playbook
  import opened Risk
  import opened Incidents
  import opened IncidentLaws
  import opened Absorption
  import opened Transactions

  type Event = Correlation.Event

  // ---- The most common value ---------------------------------------------------------------------------

  /** How many entries of the column are that value. */
  function Named(column: seq<Option<string>>, v: string): nat {
    if column == [] then 0 else (if column[0] == Some(v) then 1 else 0) + Named(column[1..], v)
  }

  /** A value met most often, or none if no entry holds one. */
  ghost predicate Commonest(r: Option<string>, column: seq<Option<string>>) {
    match r
    case None => forall v :: v in column ==> v == None || v == Some("")
    case Some(p) => p != "" && Some(p) in column && forall v :: v != "" ==> Named(column, v) <= Named(column, p)
  }

  function UserColumn(events: seq<Event>): seq<Option<string>> {
    seq(|events|, i requires 0 <= i < |events| => events[i].user)
  }

  function HostColumn(events: seq<Event>): seq<Option<string>> {
    seq(|events|, i requires 0 <= i < |events| => events[i].host)
  }

  lemma {:induction false} NamedSnoc(column: seq<Option<string>>, x: Option<string>, v: string)
    ensures Named(column + [x], v) == Named(column, v) + if x == Some(v) then 1 else 0
  {
    if column == [] {
      assert [x][1..] == [];
    } else {
      assert (column + [x])[1..] == column[1..] + [x];
      NamedSnoc(column[1..], x, v);
    }
  }

  lemma {:induction false} PresentNamed(column: seq<Option<string>>, v: string)
    requires v != ""
    ensures Occurrences(Present(column), v) == Named(column, v)
  {
    if column == [] {
    } else {
      var n := |column| - 1;
      assert column == column[..n] + [column[n]];
      PresentNamed(column[..n], v);
      NamedSnoc(column[..n], column[n], v);
    }
  }

  lemma {:induction false} PresentMembers(column: seq<Option<string>>, v: string)
    ensures v in Present(column) <==> v != "" && Some(v) in column
  {
    if column == [] {
    } else {
      var n := |column| - 1;
      assert column == column[..n] + [column[n]];
      PresentMembers(column[..n], v);
    }
  }

  lemma MostCommonIs(column: seq<Option<string>>)
    ensures Commonest(MostCommon(Present(column)), column)
  {
    var values := Present(column);
    if values == [] {
      forall v | v in column ensures v == None || v == Some("") {
        if v.Some? {
          PresentMembers(column, v.value);
        }
      }
    } else {
      var k := LeaderIsMode(values, |values|);
      PresentMembers(column, values[k]);
      forall v | v != "" ensures Named(column, v) <= Named(column, values[k]) {
        PresentNamed(column, v);
        PresentNamed(column, values[k]);
        if v in values {
          var j :| 0 <= j < |values| && values[j] == v;
        }
      }
    }
  }

  lemma UsersCommonest(events: seq<Event>)
    ensures Commonest(MostCommon(Users(events)), UserColumn(events))
    ensures Commonest(MostCommon(Hosts(events)), HostColumn(events))
  {
    MostCommonIs(UserColumn(events));
    MostCommonIs(HostColumn(events));
    assert seq(|events|, i requires 0 <= i < |events| => events[i].user) == UserColumn(events);
    assert seq(|events|, i requires 0 <= i < |events| => events[i].host) == HostColumn(events);
  }

  /** A group is named after its most common user; after its most common host, if no event has a user. */
  lemma PrincipalIs(events: seq<Event>)
    ensures if exists e :: e in events && e.user.Some? && e.user.value != "" then
              Principal(events).Some? && Commonest(Principal(events), UserColumn(events))
            else
              Commonest(Principal(events), HostColumn(events))
  {
    UsersCommonest(events);
    var column := UserColumn(events);
    assert seq(|events|, i requires 0 <= i < |events| => events[i].user) == column;
    PresentEmptyIff(column);
    assert forall n :: 0 <= n < |column| ==> column[n] == events[n].user && events[n] in events;
    if e :| e in events && e.user.Some? && e.user.value != "" {
      var n :| 0 <= n < |events| && events[n] == e;
      assert Truthy(column[n]);
    }
  }

  // ---- Fingerprints ----------------------------------------------------------------------------------------

  /** The time is in the `b`-th stretch of the given length. */
  predicate InStretch(length: int, b: int, t: int) {
    b * length <= t < b * length + length
  }

  lemma OneMore(length: int, b: int)
    ensures (b + 1) * length == b * length + length
  {
  }

  lemma {:induction false} Multiples(length: int, a: int, b: int)
    requires 0 < length
    ensures a < b ==> a * length + length <= b * length
    decreases b - a
  {
    if a < b {
      OneMore(length, b - 1);
      Multiples(length, a, b - 1);
    }
  }

  lemma OneStretch(length: int, a: int, b: int, t: int)
    requires 0 < length && InStretch(length, a, t) && InStretch(length, b, t)
    ensures a == b
  {
    Multiples(length, a, b);
    Multiples(length, b, a);
  }

  lemma BucketStretch(cfg: Settings, t: int)
    requires 0 < cfg.maxIncidentSpanMinutes
    ensures InStretch(cfg.maxIncidentSpanMinutes * 60 * 1_000_000, Incidents.Bucket(cfg, t), t)
  {
    var length := cfg.maxIncidentSpanMinutes * MINUTE;
    assert length == cfg.maxIncidentSpanMinutes * 60 * 1_000_000;
    assert t == (t / length) * length + t % length;
  }

  /** Two times share a bucket exactly if they are in the same stretch of the incident span. */
  lemma BucketIff(cfg: Settings, s: int, t: int)
    requires 0 < cfg.maxIncidentSpanMinutes
    ensures Incidents.Bucket(cfg, s) == Incidents.Bucket(cfg, t) <==>
            exists b :: InStretch(cfg.maxIncidentSpanMinutes * 60 * 1_000_000, b, s)
                        && InStretch(cfg.maxIncidentSpanMinutes * 60 * 1_000_000, b, t)
  {
    var length := cfg.maxIncidentSpanMinutes * 60 * 1_000_000;
    BucketStretch(cfg, s);
    BucketStretch(cfg, t);
    if b :| InStretch(length, b, s) && InStretch(length, b, t) {
      OneStretch(length, b, Incidents.Bucket(cfg, s), s);
      OneStretch(length, b, Incidents.Bucket(cfg, t), t);
    }
  }

  /** Different texts have different digests. */
  ghost predicate Collisionless(h: Hashes) {
    forall a, b, c, d, e, f, g, i :: h.fingerprint(a, b, c, d) == h.fingerprint(e, f, g, i) ==>
      a == e && b == f && c == g && d == i
  }

  /** Groups ask for the same fingerprint exactly if tenant, type, principal and stretch of their starts agree. */
  lemma FingerprintIff(cfg: Settings, h: Hashes, c: Cases, one: seq<Event>, two: seq<Event>)
    requires 0 < cfg.maxIncidentSpanMinutes && Collisionless(h) && one != [] && two != []
    requires Principal(one).Some? && Principal(two).Some?
    ensures Wanted(cfg, h, c, one) == Wanted(cfg, h, c, two) <==>
            && one[0].tenant == two[0].tenant && Principal(one) == Principal(two)
            && InferType(Flags(GroupFindings(c.records, EventIds(one))))
               == InferType(Flags(GroupFindings(c.records, EventIds(two))))
            && exists b :: InStretch(cfg.maxIncidentSpanMinutes * 60 * 1_000_000, b, one[0].timestamp)
                           && InStretch(cfg.maxIncidentSpanMinutes * 60 * 1_000_000, b, two[0].timestamp)
  {
    BucketIff(cfg, one[0].timestamp, two[0].timestamp);
  }

  // ---- The open incident a group goes to --------------------------------------------------------------------

  predicate OpenOf(s: Session, k: nat, tenant: string)
    requires s.Aligned()
  {
    && k < |s.disk| && s.cases.incidents[k].tenant == tenant
    && (s.cases.incidents[k].status == New || s.cases.incidents[k].status == Investigating)
  }

  /** An open incident of the tenant whose row holds the fingerprint. */
  predicate HasPrint(s: Session, k: nat, tenant: string, fp: string)
    requires s.Aligned()
  {
    OpenOf(s, k, tenant) && s.disk[k] == fp
  }

  /** An open incident of the tenant with one of the events. */
  ghost predicate HasEvent(s: Session, k: nat, tenant: string, group: seq<Event>)
    requires s.Aligned()
  {
    OpenOf(s, k, tenant) && exists e :: e in group && e.id in s.cases.incidents[k].eventIds
  }

  /** The first with the fingerprint; if there is none, the first with an event of the group. */
  ghost predicate GoesTo(s: Session, k: nat, tenant: string, fp: string, group: seq<Event>)
    requires s.Aligned()
  {
    || (HasPrint(s, k, tenant, fp) && forall j: nat :: j < k ==> !HasPrint(s, j, tenant, fp))
    || ((forall j: nat :: !HasPrint(s, j, tenant, fp))
        && HasEvent(s, k, tenant, group) && forall j: nat :: j < k ==> !HasEvent(s, j, tenant, group))
  }

  lemma SharingIff(s: Session, k: nat, tenant: string, group: seq<Event>)
    requires s.Aligned() && k < |s.disk|
    ensures OpenSharing(tenant, Elements(EventIds(group)))(s.Table()[k]) <==> HasEvent(s, k, tenant, group)
  {
    var ids := s.cases.incidents[k].eventIds;
    if id :| id in Elements(ids) && id in Elements(EventIds(group)) {
      var n :| 0 <= n < |group| && EventIds(group)[n] == id;
      assert group[n] in group;
    }
    if e :| e in group && e.id in ids {
      var n :| 0 <= n < |group| && group[n] == e;
      assert EventIds(group)[n] == e.id;
      assert e.id in Elements(ids) && e.id in Elements(EventIds(group));
    }
  }

  lemma PrintIff(s: Session, k: nat, tenant: string, fp: string)
    requires s.Aligned() && k < |s.disk|
    ensures OpenWith(tenant, fp)(s.Table()[k]) <==> HasPrint(s, k, tenant, fp)
  {
  }

  lemma MatchIff(s: Session, tenant: string, fp: string, group: seq<Event>)
    requires s.Aligned()
    ensures match FindExisting(s.Table(), tenant, fp, Elements(EventIds(group)))
            case Some(k) => GoesTo(s, k, tenant, fp, group)
            case None => forall k: nat :: !HasPrint(s, k, tenant, fp) && !HasEvent(s, k, tenant, group)
  {
    var ids := Elements(EventIds(group));
    forall k: nat | k < |s.disk|
      ensures OpenWith(tenant, fp)(s.Table()[k]) <==> HasPrint(s, k, tenant, fp)
      ensures OpenSharing(tenant, ids)(s.Table()[k]) <==> HasEvent(s, k, tenant, group)
    {
      PrintIff(s, k, tenant, fp);
      SharingIff(s, k, tenant, group);
    }
  }

  /** Two findings about events of the group carry different flags. */
  ghost predicate TwoSignals(records: seq<Finding>, group: seq<Event>) {
    exists f, g :: f in records && g in records && f.flag != g.flag
                   && f.eventId in EventIds(group) && g.eventId in EventIds(group)
  }

  lemma {:induction false} GroupFindingsMembers(records: seq<Finding>, ids: seq<string>, f: Finding)
    ensures f in GroupFindings(records, ids) <==> f in records && f.eventId in ids
  {
    if ids == [] {
    } else {
      var n := |ids| - 1;
      assert ids == ids[..n] + [ids[n]];
      GroupFindingsMembers(records, ids[..n], f);
      FindingsAboutCount(records, {ids[n]}, f);
      assert f in FindingsAbout(records, {ids[n]}) <==> multiset(FindingsAbout(records, {ids[n]}))[f] > 0;
      assert f in records <==> multiset(records)[f] > 0;
    }
  }

  lemma TwoMembers<T>(s: set<T>)
    ensures |s| >= 2 <==> exists x, y :: x in s && y in s && x != y
  {
    if |s| >= 2 {
      var x :| x in s;
      assert |s - {x}| >= 1;
      var y :| y in s - {x};
    }
    if x, y :| x in s && y in s && x != y {
      assert {x, y} <= s;
      SubsetSize({x, y}, s);
    }
  }

  lemma TwoSignalsIff(records: seq<Finding>, group: seq<Event>)
    ensures |Flags(GroupFindings(records, EventIds(group)))| >= 2 <==> TwoSignals(records, group)
  {
    var found := GroupFindings(records, EventIds(group));
    TwoMembers(Flags(found));
    forall f ensures f in found <==> f in records && f.eventId in EventIds(group) {
      GroupFindingsMembers(records, EventIds(group), f);
    }
    if x, y :| x in Flags(found) && y in Flags(found) && x != y {
      var f :| f in found && f.flag == x;
      var g :| g in found && g.flag == y;
      assert f.flag != g.flag;
    }
    if f, g :| f in found && g in found && f.flag != g.flag {
      assert f.flag in Flags(found) && g.flag in Flags(found);
    }
  }

  /**
   A group with fewer than two signals is skipped. One of an anonymous group raises an exception. Any other
   enriches the open incident it goes to, or, where there is none, becomes a new one, unless its fingerprint
   clashes.
   */
  lemma AbsorbIs(cfg: Settings, h: Hashes, s: Session, group: seq<Event>, newId: string)
    requires 0 < cfg.maxIncidentSpanMinutes && s.Aligned() && group != []
    ensures var r := Absorb(cfg, h, s, group, newId);
            && (r == TooWeak <==> !TwoSignals(s.cases.records, group))
            && (r == NoPrincipal <==> TwoSignals(s.cases.records, group) && Anonymous(group))
            && (TwoSignals(s.cases.records, group) && !Anonymous(group) ==>
                  && Principal(group).Some?
                  && Settles(s, r, group, Wanted(cfg, h, s.cases, group)))
  {
    TwoSignalsIff(s.cases.records, group);
    PrincipalNoneIff(group);
    IndexErrorIff(cfg, h, s, group, newId);
    if TwoSignals(s.cases.records, group) && !Anonymous(group) {
      var wanted := Wanted(cfg, h, s.cases, group);
      MatchIff(s, group[0].tenant, wanted, group);
      var found := FindExisting(s.Table(), group[0].tenant, wanted, Elements(EventIds(group)));
      if found.Some? {
        EnrichHasPrincipal(cfg, h, s, found.value, group);
      }
    }
  }

  ghost predicate Settles(s: Session, r: Absorbed, group: seq<Event>, wanted: string)
    requires s.Aligned() && group != []
  {
    if exists k: nat :: HasPrint(s, k, group[0].tenant, wanted) || HasEvent(s, k, group[0].tenant, group)
    then r.Stored? && GoesTo(s, r.at, group[0].tenant, wanted, group)
    else r == FingerprintClash || (r.Stored? && r.at == |s.disk|)
  }
}
