/**
 The risk score of an incident and its parts (backend/app/services/risk_engine.py, lines 1-50).
 */
module Risk {
  import opened Base
  import opened Correlation
  import opened Detection

  const BEHAVIORAL_FLAGS := {"IMPOSSIBLE_TRAVEL", "MFA_FATIGUE", "NEW_DEVICE", "UNUSUAL_ADMIN_ACTION", "UNUSUAL_EGRESS"}
  const THREAT_FLAG := "KNOWN_MALICIOUS_IP"

  datatype Severity = Low | Medium | High | Critical

  function SeverityOf(score: int): Severity {
    if score >= 75 then Critical else if score >= 50 then High else if score >= 25 then Medium else Low
  }

  datatype Breakdown = Breakdown(detection: int, impact: int, behaviour: int, threat: int) {
    function Total(): int {
      detection + impact + behaviour + threat
    }
  }

  // ---- Asset impact -----------------------------------------------------------------------------

  /** Evidence worth the full impact score. */
  predicate TouchesCritical(e: Correlation.Event) {
    || e.data.sensitiveResource
    || e.data.eventType == Some("CREDENTIAL_STORE_ACCESS")
    || (e.data.resource.Some? && NamesCritical(Lower(e.data.resource.value)))
  }

  predicate NamesCritical(resource: string) {
    || Contains(resource, "securityadmin")
    || Contains(resource, "finance-sensitive")
    || Contains(resource, "sensitive-analytics")
  }

  predicate AnyCritical(events: seq<Correlation.Event>) {
    exists e :: e in events && TouchesCritical(e)
  }

  predicate AnyPrivileged(events: seq<Correlation.Event>) {
    exists e :: e in events && e.data.privileged
  }

  /** 20 for critical evidence, else 15 for a privileged action, else nothing. */
  function Impact(events: seq<Correlation.Event>): int {
    if AnyCritical(events) then 20 else if AnyPrivileged(events) then 15 else 0
  }

  method AssetImpact(events: seq<Correlation.Event>) returns (score: int)
    ensures score == Impact(events)
  {
    score := 0;
    for n := 0 to |events|
      invariant score == Impact(events[..n])
    {
      var data := events[n].data;
      ImpactSnoc(events[..n], events[n]);
      assert events[..n + 1] == events[..n] + [events[n]];
      if data.sensitiveResource {
        score := Max(score, 20);
      }
      if data.privileged {
        score := Max(score, 15);
      }
      if data.eventType == Some("CREDENTIAL_STORE_ACCESS") {
        score := Max(score, 20);
      }
      if data.resource.Some? && NamesCritical(Lower(data.resource.value)) {
        score := Max(score, 20);
      }
    }
    assert events[..|events|] == events;
  }

  lemma ImpactSnoc(events: seq<Correlation.Event>, e: Correlation.Event)
    ensures Impact(events + [e])
            == Max(Impact(events), if TouchesCritical(e) then 20 else if e.data.privileged then 15 else 0)
  {
  }

  // ---- The score --------------------------------------------------------------------------------

  /** At most 12 points of a finding count, and only positive ones. */
  function Counted(f: Finding): nat {
    if f.risk > 0 then Min(f.risk, 12) else 0
  }

  function DetectionPoints(findings: seq<Finding>): nat {
    if findings == [] then 0
    else DetectionPoints(findings[..|findings| - 1]) + Counted(findings[|findings| - 1])
  }

  function Flags(findings: seq<Finding>): set<string> {
    set f | f in findings :: f.flag
  }

  /** The values the parts can take. */
  predicate Capped(b: Breakdown) {
    0 <= b.detection <= 40 && b.impact in {0, 15, 20} && b.behaviour in {0, 7, 14, 20} && b.threat in {0, 20}
  }

  function BreakdownOf(findings: seq<Finding>, events: seq<Correlation.Event>): (r: Breakdown)
    ensures 0 <= r.Total() <= 100 && Capped(r)
  {
    Breakdown(Min(40, DetectionPoints(findings)),
              Min(20, Impact(events)),
              Min(20, 7 * |Flags(findings) * BEHAVIORAL_FLAGS|),
              if THREAT_FLAG in Flags(findings) then 20 else 0)
  }

  function RiskOf(findings: seq<Finding>, events: seq<Correlation.Event>): int {
    BreakdownOf(findings, events).Total()
  }

  method CalculateRisk(findings: seq<Finding>, events: seq<Correlation.Event>) returns (risk: int, parts: Breakdown)
    ensures risk == parts.Total() && parts == BreakdownOf(findings, events)
  {
    var points := 0;
    for n := 0 to |findings|
      invariant points == DetectionPoints(findings[..n])
    {
      assert findings[..n + 1][..n] == findings[..n];
      if findings[n].risk > 0 {
        points := points + Min(findings[n].risk, 12);
      }
    }
    assert findings[..|findings|] == findings;
    var flags := set f | f in findings :: f.flag;
    var impact := AssetImpact(events);
    parts := Breakdown(Min(40, points), Min(20, impact), Min(20, 7 * |flags * BEHAVIORAL_FLAGS|),
                       if THREAT_FLAG in flags then 20 else 0);
    var total := parts.Total();
    if total > 100 {
      // The adjustment of lines 47-49 never happens: the caps add up to 100.
      assert false;
    }
    risk := total;
  }

  // ---- The score only depends on what is found, and grows with it --------------------------------

  lemma {:induction false} PointsRemove(findings: seq<Finding>, k: nat)
    requires k < |findings|
    ensures DetectionPoints(findings) == DetectionPoints(findings[..k] + findings[k + 1..]) + Counted(findings[k])
  {
    var n := |findings| - 1;
    if k < n {
      PointsRemove(findings[..n], k);
      RemoveBeforeLast(findings, k);
      PointsSnoc(findings[..n][..k] + findings[..n][k + 1..], findings[n]);
    } else {
      assert findings[..k] + findings[k + 1..] == findings[..n];
    }
  }

  lemma RemoveBeforeLast<T>(s: seq<T>, k: nat)
    requires k < |s| - 1
    ensures s[..k] + s[k + 1..] == s[..|s| - 1][..k] + s[..|s| - 1][k + 1..] + [s[|s| - 1]]
  {
  }

  lemma PointsSnoc(findings: seq<Finding>, f: Finding)
    ensures DetectionPoints(findings + [f]) == DetectionPoints(findings) + Counted(f)
  {
  }

  /** Fewer findings, in whatever order, never score more detection points. */
  lemma {:induction false} PointsMonotone(some: seq<Finding>, more: seq<Finding>)
    requires multiset(some) <= multiset(more)
    ensures DetectionPoints(some) <= DetectionPoints(more)
    decreases |some|
  {
    if some == [] {
    } else {
      var n := |some| - 1;
      var f := some[n];
      assert some == some[..n] + [f];
      assert f in multiset(some);
      assert f in more;
      var k :| 0 <= k < |more| && more[k] == f;
      assert more == more[..k] + [f] + more[k + 1..];
      CancelOne(some[..n], more[..k], f, more[k + 1..]);
      PointsMonotone(some[..n], more[..k] + more[k + 1..]);
      PointsRemove(more, k);
    }
  }

  lemma CancelOne<T>(a: seq<T>, x: seq<T>, f: T, y: seq<T>)
    requires multiset(a + [f]) <= multiset(x + [f] + y)
    ensures multiset(a) <= multiset(x + y)
  {
    assert multiset(a + [f]) == multiset(a) + multiset{f};
    assert multiset(x + [f] + y) == multiset(x + y) + multiset{f};
    assert multiset(a) == multiset(a + [f]) - multiset{f};
    assert multiset(x + y) == multiset(x + [f] + y) - multiset{f};
  }

  lemma FlagsMonotone(some: seq<Finding>, more: seq<Finding>)
    requires multiset(some) <= multiset(more)
    ensures Flags(some) <= Flags(more)
  {
    forall f | f in some ensures f in more {
      assert f in multiset(some);
    }
  }

  lemma ImpactMonotone(some: seq<Correlation.Event>, more: seq<Correlation.Event>)
    requires forall e :: e in some ==> e in more
    ensures Impact(some) <= Impact(more)
  {
  }

  lemma SubsetSize<T>(a: set<T>, b: set<T>)
    requires a <= b
    ensures |a| <= |b|
  {
    assert |b - a| == |b| - |a|;
  }

  predicate NoPartAbove(a: Breakdown, b: Breakdown) {
    a.detection <= b.detection && a.impact <= b.impact && a.behaviour <= b.behaviour && a.threat <= b.threat
  }

  /** More findings about more events lower no part of the risk. */
  lemma PartsMonotone(f: seq<Finding>, events: seq<Correlation.Event>, more: seq<Finding>,
                      moreEvents: seq<Correlation.Event>)
    requires multiset(f) <= multiset(more)
    requires forall e :: e in events ==> e in moreEvents
    ensures var a, b := BreakdownOf(f, events), BreakdownOf(more, moreEvents);
            NoPartAbove(a, b)
  {
    PointsMonotone(f, more);
    FlagsMonotone(f, more);
    ImpactMonotone(events, moreEvents);
    SubsetSize(Flags(f) * BEHAVIORAL_FLAGS, Flags(more) * BEHAVIORAL_FLAGS);
  }

  /** More findings about more events never lower the risk. */
  lemma RiskMonotone(f: seq<Finding>, events: seq<Correlation.Event>, more: seq<Finding>,
                     moreEvents: seq<Correlation.Event>)
    requires multiset(f) <= multiset(more)
    requires forall e :: e in events ==> e in moreEvents
    ensures RiskOf(f, events) <= RiskOf(more, moreEvents)
  {
    PartsMonotone(f, events, more, moreEvents);
  }

  /** The order of findings and events does not matter, to the score or to any part of it. */
  lemma BreakdownPermuted(f: seq<Finding>, events: seq<Correlation.Event>, g: seq<Finding>,
                          others: seq<Correlation.Event>)
    requires multiset(f) == multiset(g)
    requires forall e :: e in events <==> e in others
    ensures BreakdownOf(f, events) == BreakdownOf(g, others) && Flags(f) == Flags(g)
  {
    PointsMonotone(f, g);
    PointsMonotone(g, f);
    FlagsMonotone(f, g);
    FlagsMonotone(g, f);
    ImpactMonotone(events, others);
    ImpactMonotone(others, events);
    assert Flags(f) * BEHAVIORAL_FLAGS == Flags(g) * BEHAVIORAL_FLAGS;
  }

  // ---- The parts, told outright ------------------------------------------------------------------------

  /** The points of the findings, none below 0 or above 12. */
  function CappedPoints(findings: seq<Finding>): int {
    if findings == [] then 0
    else
      var risk := findings[0].risk;
      (if risk < 0 then 0 else if risk > 12 then 12 else risk) + CappedPoints(findings[1..])
  }

  lemma {:induction false} CappedPointsSnoc(findings: seq<Finding>, f: Finding)
    ensures CappedPoints(findings + [f]) == CappedPoints(findings) + CappedPoints([f])
  {
    if findings == [] {
      assert findings + [f] == [f];
    } else {
      assert (findings + [f])[1..] == findings[1..] + [f];
      CappedPointsSnoc(findings[1..], f);
    }
  }

  lemma {:induction false} DetectionPointsAre(findings: seq<Finding>)
    ensures DetectionPoints(findings) == CappedPoints(findings)
  {
    if findings == [] {
    } else {
      var n := |findings| - 1;
      assert findings == findings[..n] + [findings[n]];
      DetectionPointsAre(findings[..n]);
      CappedPointsSnoc(findings[..n], findings[n]);
      assert [findings[n]][1..] == [];
    }
  }

  /** 1 if some finding carries the flag, else 0. */
  function Carries(findings: seq<Finding>, flag: string): nat {
    if exists f :: f in findings && f.flag == flag then 1 else 0
  }

  function Presence<T(==)>(s: set<T>, x: T): nat {
    if x in s then 1 else 0
  }

  lemma CountOne<T>(s: set<T>, x: T, rest: set<T>)
    requires x !in rest
    ensures |s * ({x} + rest)| == Presence(s, x) + |s * rest|
  {
    if x in s {
      assert s * ({x} + rest) == s * rest + {x};
    } else {
      assert s * ({x} + rest) == s * rest;
    }
  }

  lemma CountTwo<T>(s: set<T>, a: T, b: T)
    requires a != b
    ensures |s * {a, b}| == Presence(s, a) + Presence(s, b)
  {
    assert {a, b} == {a} + {b} && {b} == {b} + {};
    CountOne(s, a, {b});
    CountOne(s, b, {});
    assert s * {} == {};
  }

  lemma CountFive<T>(s: set<T>, a: T, b: T, c: T, d: T, e: T)
    requires a != b && a !in {c, d, e} && b !in {c, d, e} && c != d && c != e && d != e
    ensures |s * {a, b, c, d, e}| == Presence(s, a) + Presence(s, b) + Presence(s, c) + Presence(s, d) + Presence(s, e)
  {
    assert {a, b, c, d, e} == {a} + {b, c, d, e};
    CountOne(s, a, {b, c, d, e});
    assert {b, c, d, e} == {b} + {c, d, e};
    CountOne(s, b, {c, d, e});
    assert {c, d, e} == {c} + {d, e};
    CountOne(s, c, {d, e});
    CountTwo(s, d, e);
  }

  lemma CarriesIs(findings: seq<Finding>, flag: string)
    ensures Presence(Flags(findings), flag) == Carries(findings, flag)
  {
  }

  lemma BehaviourCount(findings: seq<Finding>)
    ensures |Flags(findings) * BEHAVIORAL_FLAGS|
            == Carries(findings, "IMPOSSIBLE_TRAVEL") + Carries(findings, "MFA_FATIGUE")
               + Carries(findings, "NEW_DEVICE") + Carries(findings, "UNUSUAL_ADMIN_ACTION")
               + Carries(findings, "UNUSUAL_EGRESS")
  {
    CountFive(Flags(findings), "IMPOSSIBLE_TRAVEL", "MFA_FATIGUE", "NEW_DEVICE", "UNUSUAL_ADMIN_ACTION",
              "UNUSUAL_EGRESS");
    CarriesIs(findings, "IMPOSSIBLE_TRAVEL");
    CarriesIs(findings, "MFA_FATIGUE");
    CarriesIs(findings, "NEW_DEVICE");
    CarriesIs(findings, "UNUSUAL_ADMIN_ACTION");
    CarriesIs(findings, "UNUSUAL_EGRESS");
  }

  /** A sensitive resource, the credential store, or a resource with one of three names in it. */
  ghost predicate Valuable(e: Correlation.Event) {
    || e.data.sensitiveResource || e.data.eventType == Some("CREDENTIAL_STORE_ACCESS")
    || (e.data.resource.Some?
        && exists name :: name in ["securityadmin", "finance-sensitive", "sensitive-analytics"]
                          && Contains(Lower(e.data.resource.value), name))
  }

  lemma ValuableIff(e: Correlation.Event)
    ensures TouchesCritical(e) <==> Valuable(e)
  {
    var names := ["securityadmin", "finance-sensitive", "sensitive-analytics"];
    assert names[0] in names && names[1] in names && names[2] in names;
  }

  /** The points, the evidence and the flags that make up each part. */
  lemma RiskIs(findings: seq<Finding>, events: seq<Correlation.Event>)
    ensures var b := BreakdownOf(findings, events);
            && b.detection == (if CappedPoints(findings) > 40 then 40 else CappedPoints(findings))
            && b.impact == (if exists e :: e in events && Valuable(e) then 20
                            else if exists e :: e in events && e.data.privileged then 15 else 0)
            && b.behaviour
               == Min(20, 7 * (Carries(findings, "IMPOSSIBLE_TRAVEL") + Carries(findings, "MFA_FATIGUE")
                               + Carries(findings, "NEW_DEVICE") + Carries(findings, "UNUSUAL_ADMIN_ACTION")
                               + Carries(findings, "UNUSUAL_EGRESS")))
            && b.threat == 20 * Carries(findings, "KNOWN_MALICIOUS_IP")
            && RiskOf(findings, events) == b.detection + b.impact + b.behaviour + b.threat
  {
    DetectionPointsAre(findings);
    BehaviourCount(findings);
    forall e ensures TouchesCritical(e) <==> Valuable(e) {
      ValuableIff(e);
    }
  }

  lemma SeverityIs(score: int)
    ensures SeverityOf(score) == Critical <==> 75 <= score
    ensures SeverityOf(score) == High <==> 50 <= score < 75
    ensures SeverityOf(score) == Medium <==> 25 <= score < 50
    ensures SeverityOf(score) == Low <==> score < 25
  {
  }
}
