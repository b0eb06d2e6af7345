/**
 What links two events and what makes a group, told attribute by attribute and pair by pair
 (backend/app/services/correlation_engine.py, lines 22-44 and 98-104).
 */
module Scores {
  import opened Base
  import opened Config
  import opened Correlation
  import Groups

  // ---- Two events ----------------------------------------------------------------------------------

  predicate Apart(a: Event, b: Event, span: int) {
    a.timestamp - b.timestamp > span || b.timestamp - a.timestamp > span
  }

  predicate Same(x: Option<string>, y: Option<string>) {
    x.Some? && x.value != "" && y == x
  }

  /** An address of one event is an address of the other. */
  predicate Meet(a: Event, b: Event) {
    || (a.sourceIp.Some? && (a.sourceIp == b.sourceIp || a.sourceIp == b.data.destinationIp))
    || (a.data.destinationIp.Some?
        && (a.data.destinationIp == b.sourceIp || a.data.destinationIp == b.data.destinationIp))
  }

  function Points(b: bool, points: int): int {
    if b then points else 0
  }

  lemma MeetIff(a: Event, b: Event)
    ensures AddressesOverlap(a, b) <==> Meet(a, b)
  {
    if v :| v in Addresses(a) * Addresses(b) {
      assert Some(v) == a.sourceIp || Some(v) == a.data.destinationIp;
    }
    if Meet(a, b) {
      var v := if a.sourceIp.Some? && (a.sourceIp == b.sourceIp || a.sourceIp == b.data.destinationIp)
               then a.sourceIp.value else a.data.destinationIp.value;
      assert v in Addresses(a) * Addresses(b);
    }
  }

  /** The worth of each attribute two events have in common, and of being close in time. */
  lemma ScoreIs(cfg: Settings, a: Event, b: Event)
    ensures ConnectionScore(cfg, a, b)
            == if Apart(a, b, cfg.correlationWindowMinutes * 60 * 1_000_000) then 0
               else
                 Points(Same(a.user, b.user), 4) + Points(Same(a.host, b.host), 4)
                 + Points(Same(a.data.deviceId, b.data.deviceId), 3) + Points(Same(a.sourceIp, b.sourceIp), 3)
                 + Points(Meet(a, b), 2) + if Apart(a, b, 15 * 60 * 1_000_000) then 1 else 3
  {
    MeetIff(a, b);
    assert cfg.correlationWindowMinutes * MINUTE == cfg.correlationWindowMinutes * 60 * 1_000_000;
  }

  /**
   At the default minimum score of 5 two different events in the window are linked exactly by a common user,
   host or source address; by a common device if they are also close in time or meet on an address; or by a
   common destination if they are close in time.
   */
  lemma LinkedIff(cfg: Settings, a: Event, b: Event)
    requires cfg.correlationMinScore == 5
    ensures PrunedEdge(cfg)(a, b) <==>
            && a != b && !Apart(a, b, cfg.correlationWindowMinutes * 60 * 1_000_000)
            && (|| Same(a.user, b.user) || Same(a.host, b.host) || Same(a.sourceIp, b.sourceIp)
                || (Same(a.data.deviceId, b.data.deviceId) && (!Apart(a, b, 15 * 60 * 1_000_000) || Meet(a, b)))
                || (Same(a.data.destinationIp, b.data.destinationIp) && !Apart(a, b, 15 * 60 * 1_000_000)))
  {
    ScoreIs(cfg, a, b);
    AnchoredMeaning(a, b);
  }

  // ---- A group ---------------------------------------------------------------------------------------

  /** The scores of `e` with all of `s`, added up. */
  function Against(cfg: Settings, e: Event, s: seq<Event>): int {
    if s == [] then 0 else Against(cfg, e, s[..|s| - 1]) + ConnectionScore(cfg, s[|s| - 1], e)
  }

  /** The scores of all pairs, added up: each event with those before it. */
  function Pairs(cfg: Settings, s: seq<Event>): int {
    if s == [] then 0 else Pairs(cfg, s[..|s| - 1]) + Against(cfg, s[|s| - 1], s[..|s| - 1])
  }

  lemma {:induction false} AgainstIs(cfg: Settings, e: Event, s: seq<Event>)
    ensures Against(cfg, e, s) == Groups.RowTotal(cfg, e, s)
  {
    if s == [] {
    } else {
      var n := |s| - 1;
      AgainstIs(cfg, e, s[..n]);
      Groups.RowTotalMove(cfg, e, s[..n], s[n], []);
      assert s[..n] + [s[n]] + [] == s && s[..n] + [] == s[..n];
      ConnectionScoreSymmetric(cfg, e, s[n]);
    }
  }

  lemma {:induction false} PairsAre(cfg: Settings, s: seq<Event>)
    ensures Pairs(cfg, s) == Groups.PairTotal(cfg, s)
  {
    if s == [] {
    } else {
      var n := |s| - 1;
      PairsAre(cfg, s[..n]);
      AgainstIs(cfg, s[n], s[..n]);
      Groups.PairTotalMove(cfg, s[..n], s[n], []);
      assert s[..n] + [s[n]] + [] == s && s[..n] + [] == s[..n];
    }
  }

  /** How many pairs `n` things form: each with those before it. */
  function Couples(n: nat): nat {
    if n == 0 then 0 else Couples(n - 1) + n - 1
  }

  lemma {:induction false} CouplesPositive(n: nat)
    requires n >= 2
    ensures Couples(n) > 0
  {
    if n > 2 {
      CouplesPositive(n - 1);
    }
  }

  lemma {:induction false} PairCount(cfg: Settings, s: seq<Event>)
    ensures |Groups.PairScores(cfg, s)| == Couples(|s|)
  {
    if s == [] {
    } else {
      Groups.RowScoresLength(cfg, s[0], s[1..]);
      PairCount(cfg, s[1..]);
    }
  }

  /** The cohesion of several events is the mean score of all their pairs. */
  lemma CohesionIs(cfg: Settings, s: seq<Event>)
    requires |s| >= 2
    ensures Couples(|s|) > 0 && Groups.GroupCohesion(cfg, s) == Pairs(cfg, s) as real / Couples(|s|) as real
  {
    PairsAre(cfg, s);
    PairCount(cfg, s);
    CouplesPositive(|s|);
  }

  lemma AtLeast(total: int, count: nat, least: real)
    requires count > 0
    ensures total as real / count as real >= least <==> total as real >= least * count as real
  {
    var mean, d := total as real / count as real, count as real;
    assert mean * d == total as real;
    if mean >= least {
      Scale(least, mean, d);
    } else {
      ScaleStrict(mean, least, d);
    }
  }

  /** The pairs score at least the minimum cohesion on average. */
  predicate Cohesive(cfg: Settings, s: seq<Event>) {
    Pairs(cfg, s) as real >= cfg.minGroupCohesion * Couples(|s|) as real
  }

  lemma CohesiveIff(cfg: Settings, s: seq<Event>)
    requires |s| >= 2
    ensures Groups.GroupCohesion(cfg, s) >= cfg.minGroupCohesion <==> Cohesive(cfg, s)
  {
    CohesionIs(cfg, s);
    AtLeast(Pairs(cfg, s), Couples(|s|), cfg.minGroupCohesion);
  }

  lemma Scale(x: real, y: real, d: real)
    requires x <= y && d > 0.0
    ensures x * d <= y * d
  {
  }

  lemma ScaleStrict(x: real, y: real, d: real)
    requires x < y && d > 0.0
    ensures x * d < y * d
  {
  }

  /** No two events of the set are further apart. */
  ghost predicate Spans(c: set<Event>, span: int) {
    forall a, b :: a in c && b in c ==> a.timestamp - b.timestamp <= span
  }

  lemma SpanOfSorted(t: seq<Event>, c: set<Event>, span: int)
    requires Groups.Arrangement(t, c) && t != []
    ensures Spans(c, span) <==> t[|t| - 1].timestamp - t[0].timestamp <= span
  {
    var key := (e: Event) => e.timestamp;
    forall e | e in c ensures e in t {
      assert multiset(c)[e] == 1;
      assert e in multiset(t);
    }
    forall e | e in t ensures e in c {
      assert e in multiset(t);
    }
    if t[|t| - 1].timestamp - t[0].timestamp <= span {
      forall a, b | a in c && b in c ensures a.timestamp - b.timestamp <= span {
        var i :| 0 <= i < |t| && t[i] == a;
        var j :| 0 <= j < |t| && t[j] == b;
        assert key(t[i]) <= key(t[|t| - 1]) && key(t[0]) <= key(t[j]);
      }
    }
  }

  lemma Arrange(s: seq<Event>, c: set<Event>) returns (t: seq<Event>)
    requires multiset(s) == multiset(c)
    ensures Groups.Arrangement(t, c) && multiset(t) == multiset(s) && |t| == |s|
  {
    var key := (e: Event) => e.timestamp;
    t := SortBy(s, key);
    SortByIsSorted(s, key);
    assert |t| == |multiset(t)| == |multiset(s)| == |s|;
    forall i, j | 0 <= i < j < |t| ensures t[i].timestamp <= t[j].timestamp {
      assert key(t[i]) <= key(t[j]);
    }
  }

  /** The gates on an arrangement. */
  lemma GateIs(cfg: Settings, c: set<Event>, t: seq<Event>)
    requires Groups.Arrangement(t, c) && |t| >= 2
    ensures Groups.Gate(cfg, t) <==>
            && Spans(c, cfg.maxIncidentSpanMinutes * 60 * 1_000_000)
            && Groups.GroupCohesion(cfg, t) >= cfg.minGroupCohesion
  {
    SpanOfSorted(t, c, cfg.maxIncidentSpanMinutes * 60 * 1_000_000);
    assert cfg.maxIncidentSpanMinutes * MINUTE == cfg.maxIncidentSpanMinutes * 60 * 1_000_000;
  }

  /**
   A set of events passes the gates exactly if it has at least two, none further apart than the span, and is
   cohesive. `s` lists the set in any order.
   */
  lemma QualifiesIff(cfg: Settings, c: set<Event>, s: seq<Event>)
    requires multiset(s) == multiset(c)
    ensures Groups.Qualifies(cfg, c) <==>
            |s| >= 2 && Spans(c, cfg.maxIncidentSpanMinutes * 60 * 1_000_000) && Cohesive(cfg, s)
  {
    var t := Arrange(s, c);
    Groups.GateOfArrangement(cfg, t, c);
    if |s| >= 2 {
      GateIs(cfg, c, t);
      Groups.CohesionPermuted(cfg, s, t);
      CohesiveIff(cfg, s);
    }
  }
}
