/**
 MFA fatigue (backend/app/services/detection_engine.py, lines 126-151): a run of denied prompts
 inside a short window.
 */
module Fatigue {
  import opened Base
  import opened Detection

  /** The denied prompts in time order. */
  function Denials(events: seq<RawEvent>): seq<RawEvent> {
    Filter(SortBy(events, TimeOf), IsDenial)
  }

  // ---- What is to be found --------------------------------------------------------------------

  /** `picked` are the positions of `threshold` prompts that all lie within the window. */
  ghost predicate IsBurst(threshold: nat, window: int, denied: seq<RawEvent>, picked: set<int>) {
    && |picked| == threshold
    && (forall x :: x in picked ==> 0 <= x < |denied|)
    && (forall x, y :: x in picked && y in picked ==> denied[y].timestamp - denied[x].timestamp <= window)
  }

  predicate FitsAt(threshold: nat, window: int, denied: seq<RawEvent>, index: int)
    requires 1 <= threshold <= index + 1 <= |denied|
  {
    denied[index].timestamp - denied[index - threshold + 1].timestamp <= window
  }

  /** The first position, from `from` on, at which `threshold` consecutive prompts fit. */
  function FirstBurst(threshold: nat, window: int, denied: seq<RawEvent>, from: int): Option<int>
    requires 1 <= threshold <= from + 1
    decreases |denied| - from
  {
    if from >= |denied| then None
    else if FitsAt(threshold, window, denied, from) then Some(from)
    else FirstBurst(threshold, window, denied, from + 1)
  }

  /** One finding per prompt of the group: 7 points for the last, 6 for the others. */
  function BurstFindings(group: seq<RawEvent>): seq<Finding> {
    var ids := seq(|group|, i requires 0 <= i < |group| => group[i].id);
    seq(|group|, i requires 0 <= i < |group| =>
      Finding(group[i].id, FATIGUE_RULE, "1.1", FATIGUE_FLAG, if i == |group| - 1 then 7 else 6, ids))
  }

  function UserFindings(threshold: nat, window: int, denied: seq<RawEvent>): seq<Finding>
    requires 1 <= threshold
  {
    match FirstBurst(threshold, window, denied, threshold - 1)
    case None => []
    case Some(index) =>
      FirstBurstRange(threshold, window, denied, threshold - 1);
      BurstFindings(denied[index - threshold + 1..index + 1])
  }

  lemma {:induction false} FirstBurstRange(threshold: nat, window: int, denied: seq<RawEvent>, from: int)
    requires 1 <= threshold <= from + 1
    ensures var b := FirstBurst(threshold, window, denied, from);
            && (b.Some? ==> from <= b.value < |denied| && FitsAt(threshold, window, denied, b.value))
            && (forall i :: from <= i < (if b.Some? then b.value else |denied|) ==>
                  !FitsAt(threshold, window, denied, i))
    decreases |denied| - from
  {
    if from < |denied| && !FitsAt(threshold, window, denied, from) {
      FirstBurstRange(threshold, window, denied, from + 1);
    }
  }

  // ---- Completeness -------------------------------------------------------------------------

  lemma Member<T>(s: set<T>) returns (x: T)
    requires s != {}
    ensures x in s
  {
    x :| x in s;
  }

  lemma {:induction false} SetInRange(s: set<int>, lo: int, hi: int)
    requires lo <= hi + 1 && forall x :: x in s ==> lo <= x <= hi
    ensures |s| <= hi - lo + 1
    decreases hi - lo + 1
  {
    if lo <= hi {
      assert forall x :: x in s - {hi} ==> lo <= x <= hi - 1;
      SetInRange(s - {hi}, lo, hi - 1);
      assert s <= s - {hi} + {hi};
    } else {
      if s != {} {
        var x := Member(s);
        assert false;
      }
    }
  }

  lemma {:induction false} HasMaximum(s: set<int>) returns (m: int)
    requires s != {}
    ensures m in s && forall x :: x in s ==> x <= m
    decreases |s|
  {
    var x := Member(s);
    m := x;
    if s != {x} {
      assert s == (s - {x}) + {x};
      var n := HasMaximum(s - {x});
      m := if n > x then n else x;
    }
  }

  lemma {:induction false} HasMinimum(s: set<int>) returns (m: int)
    requires s != {}
    ensures m in s && forall x :: x in s ==> m <= x
    decreases |s|
  {
    var x := Member(s);
    m := x;
    if s != {x} {
      assert s == (s - {x}) + {x};
      var n := HasMinimum(s - {x});
      m := if n < x then n else x;
    }
  }

  /**
   Looking only at consecutive prompts misses nothing: if any `threshold` prompts of the user fit
   in the window, a burst is found, and it ends no later than theirs.
   */
  lemma BurstNotMissed(threshold: nat, window: int, denied: seq<RawEvent>, picked: set<int>)
    requires 1 <= threshold && Sorted(denied, TimeOf)
    requires IsBurst(threshold, window, denied, picked)
    ensures FirstBurst(threshold, window, denied, threshold - 1).Some?
    ensures exists e :: e in picked && FirstBurst(threshold, window, denied, threshold - 1).value <= e
  {
    var hi := HasMaximum(picked);
    var lo := HasMinimum(picked);
    SetInRange(picked, lo, hi);
    var start := hi - threshold + 1;
    assert lo <= start;
    assert TimeOf(denied[lo]) <= TimeOf(denied[start]);
    assert FitsAt(threshold, window, denied, hi);
    FirstBurstRange(threshold, window, denied, threshold - 1);
  }

  function Positions(from: int, count: nat): set<int> {
    if count == 0 then {} else Positions(from, count - 1) + {from + count - 1}
  }

  lemma {:induction false} PositionsAre(from: int, count: nat)
    ensures forall i :: i in Positions(from, count) <==> from <= i < from + count
    ensures |Positions(from, count)| == count
  {
    if count > 0 {
      PositionsAre(from, count - 1);
    }
  }

  /** A user is flagged exactly when some `threshold` of their denied prompts fit in the window. */
  lemma FatigueIff(threshold: nat, window: int, denied: seq<RawEvent>)
    requires 1 <= threshold && Sorted(denied, TimeOf)
    ensures UserFindings(threshold, window, denied) != []
       <==> exists picked :: IsBurst(threshold, window, denied, picked)
  {
    var b := FirstBurst(threshold, window, denied, threshold - 1);
    FirstBurstRange(threshold, window, denied, threshold - 1);
    if b.Some? {
      var start := b.value - threshold + 1;
      PositionsAre(start, threshold);
      var picked := Positions(start, threshold);
      forall x, y | x in picked && y in picked ensures denied[y].timestamp - denied[x].timestamp <= window {
        assert TimeOf(denied[start]) <= TimeOf(denied[x]) && TimeOf(denied[y]) <= TimeOf(denied[b.value]);
      }
      assert IsBurst(threshold, window, denied, picked);
      assert |UserFindings(threshold, window, denied)| == threshold;
    }
    if picked :| IsBurst(threshold, window, denied, picked) {
      BurstNotMissed(threshold, window, denied, picked);
    }
  }

  function TotalRisk(findings: seq<Finding>): int {
    if findings == [] then 0 else TotalRisk(findings[..|findings| - 1]) + findings[|findings| - 1].risk
  }

  lemma {:induction false} SixEach(findings: seq<Finding>, n: nat)
    requires n <= |findings| && forall i :: 0 <= i < n ==> findings[i].risk == 6
    ensures TotalRisk(findings[..n]) == 6 * n
  {
    if n > 0 {
      SixEach(findings, n - 1);
      assert findings[..n][..n - 1] == findings[..n - 1];
    }
  }

  /** A flagged user has exactly `threshold` findings, worth 6 * threshold + 1 points together. */
  lemma FatiguePoints(threshold: nat, window: int, denied: seq<RawEvent>)
    requires 1 <= threshold && UserFindings(threshold, window, denied) != []
    ensures |UserFindings(threshold, window, denied)| == threshold
    ensures TotalRisk(UserFindings(threshold, window, denied)) == 6 * threshold + 1
  {
    FirstBurstRange(threshold, window, denied, threshold - 1);
    var f := UserFindings(threshold, window, denied);
    SixEach(f, threshold - 1);
    assert f[..threshold] == f && f[..threshold - 1] == f[..|f| - 1];
  }

  // ---- The detector -------------------------------------------------------------------------

  /** The users in the order of their first denied prompt: the iteration order of the dict. */
  function UserOrder(denials: seq<RawEvent>): seq<string>
    requires forall e :: e in denials ==> e.Authentication?
  {
    if denials == [] then []
    else
      var n := |denials| - 1;
      assert denials[n] in denials;
      var earlier := UserOrder(denials[..n]);
      if denials[n].user in earlier then earlier else earlier + [denials[n].user]
  }

  function AllFindings(threshold: nat, window: int, denials: seq<RawEvent>, users: seq<string>): seq<Finding>
    requires 1 <= threshold
  {
    if users == [] then []
    else
      var n := |users| - 1;
      AllFindings(threshold, window, denials, users[..n])
      + UserFindings(threshold, window, ByUser(denials, users[n]))
  }

  /** Groups the denied prompts by user, then scans each user's prompts for the first burst. */
  method DetectMfaFatigue(threshold: nat, window: int, events: seq<RawEvent>) returns (results: seq<Finding>)
    requires 1 <= threshold
    ensures forall e :: e in Denials(events) ==> e.Authentication?
    ensures results == AllFindings(threshold, window, Denials(events), UserOrder(Denials(events)))
  {
    var denials := Denials(events);
    var users, byUser := GroupByUser(denials);
    results := [];
    for n := 0 to |users|
      invariant results == AllFindings(threshold, window, denials, users[..n])
    {
      var found := ScanUser(threshold, window, byUser[users[n]]);
      results := results + found;
      assert users[..n + 1][..n] == users[..n];
    }
    assert users[..|users|] == users;
  }

  lemma ByUserSnoc(denials: seq<RawEvent>, n: nat)
    requires n < |denials| && denials[n].Authentication?
    ensures forall u :: ByUser(denials[..n + 1], u)
                        == ByUser(denials[..n], u) + if denials[n].user == u then [denials[n]] else []
  {
    assert denials[..n + 1] == denials[..n] + [denials[n]];
    forall u
      ensures ByUser(denials[..n + 1], u) == ByUser(denials[..n], u) + if denials[n].user == u then [denials[n]] else []
    {
      FilterSnoc(denials[..n], denials[n], OfUser(u));
    }
  }

  method GroupByUser(denials: seq<RawEvent>) returns (users: seq<string>, byUser: map<string, seq<RawEvent>>)
    requires forall e :: e in denials ==> e.Authentication?
    ensures users == UserOrder(denials)
    ensures forall u :: u in users ==> u in byUser && byUser[u] == ByUser(denials, u)
  {
    users, byUser := [], map[];
    for n := 0 to |denials|
      invariant users == UserOrder(denials[..n])
      invariant forall u :: u in byUser <==> u in users
      invariant forall u :: u !in users ==> ByUser(denials[..n], u) == []
      invariant forall u :: u in users ==> u in byUser && byUser[u] == ByUser(denials[..n], u)
    {
      var event := denials[n];
      assert event in denials;
      ByUserSnoc(denials, n);
      assert denials[..n + 1][..n] == denials[..n];
      if event.user !in users {
        users := users + [event.user];
        byUser := byUser[event.user := []];
      }
      byUser := byUser[event.user := byUser[event.user] + [event]];
    }
    assert denials[..|denials|] == denials;
  }

  /** Tries every possible last prompt in turn and stops at the first group that fits. */
  method ScanUser(threshold: nat, window: int, denied: seq<RawEvent>) returns (results: seq<Finding>)
    requires 1 <= threshold
    ensures results == UserFindings(threshold, window, denied)
  {
    results := [];
    var index := threshold - 1;
    while index < |denied|
      invariant threshold - 1 <= index
      invariant FirstBurst(threshold, window, denied, threshold - 1)
             == FirstBurst(threshold, window, denied, index)
    {
      var group := denied[index - threshold + 1..index + 1];
      if group[|group| - 1].timestamp - group[0].timestamp <= window {
        results := BurstFindings(group);
        return;
      }
      index := index + 1;
    }
  }
}
