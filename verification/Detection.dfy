/**
 Detection rules over one ordered slice of telemetry
 (backend/app/services/detection_engine.py).
 */
module Detection {
  import opened Base
  import opened Config

  /** The four validated telemetry schemas, with the fields that detection and correlation read. */
  datatype RawEvent =
    | Authentication(id: string, timestamp: int, user: string, sourceIp: string, country: string,
                     deviceId: string, success: bool, mfaDenied: bool)
    | Endpoint(id: string, timestamp: int, hostname: string, user: string, processName: string,
               commandLine: string, eventType: string, contacted: Option<string>)
    | Network(id: string, timestamp: int, sourceIp: string, destinationIp: string, bytesSent: nat,
              networkUser: Option<string>, networkHost: Option<string>)
    | Cloud(id: string, timestamp: int, user: string, sourceIp: string, action: string,
            resource: string, privileged: bool, sensitiveResource: bool, cloudDevice: Option<string>)

  /** `evidence` holds the ids of the finding's metadata (paired login, prompt group, ...). */
  datatype Finding = Finding(eventId: string, rule: string, version: string, flag: string,
                             risk: int, evidence: seq<string>)

  const TRAVEL_RULE := "AUTH-001"
  const TRAVEL_VERSION := "1.1"
  const TRAVEL_FLAG := "IMPOSSIBLE_TRAVEL"
  const FATIGUE_RULE := "AUTH-002"
  const FATIGUE_FLAG := "MFA_FATIGUE"

  function TimeOf(e: RawEvent): int {
    e.timestamp
  }

  predicate IsLogin(e: RawEvent) {
    e.Authentication? && e.success
  }

  predicate IsDenial(e: RawEvent) {
    e.Authentication? && e.mfaDenied
  }

  /** The successful logins in time order. */
  function Logins(events: seq<RawEvent>): seq<RawEvent> {
    SortBy(Filter(events, IsLogin), TimeOf)
  }

  // ---- Impossible travel: the naive specification -------------------------------------------

  /** `previous` makes `current` impossible travel: same user, other country, at most `window` before. */
  predicate Conflict(window: int, previous: RawEvent, current: RawEvent) {
    && previous.Authentication? && current.Authentication?
    && previous.user == current.user
    && previous.country != current.country
    && 0 <= current.timestamp - previous.timestamp <= window
  }

  /** The latest login of `prior` that conflicts with `current`, looking at every one of them. */
  function LatestConflict(window: int, prior: seq<RawEvent>, current: RawEvent): Option<RawEvent> {
    if prior == [] then None
    else
      var n := |prior| - 1;
      if Conflict(window, prior[n], current) then Some(prior[n])
      else LatestConflict(window, prior[..n], current)
  }

  /** `LatestConflict` finds a conflict whenever there is one, and no later one exists. */
  lemma {:induction false} LatestConflictMeaning(window: int, prior: seq<RawEvent>, current: RawEvent)
    ensures LatestConflict(window, prior, current).Some?
       <==> exists j :: 0 <= j < |prior| && Conflict(window, prior[j], current)
    ensures forall p :: LatestConflict(window, prior, current) == Some(p) ==>
              exists j :: 0 <= j < |prior| && prior[j] == p && Conflict(window, p, current)
                       && forall k :: j < k < |prior| ==> !Conflict(window, prior[k], current)
  {
    if prior == [] {
    } else {
      var n := |prior| - 1;
      if !Conflict(window, prior[n], current) {
        LatestConflictMeaning(window, prior[..n], current);
        if LatestConflict(window, prior, current).Some? {
          var p := LatestConflict(window, prior[..n], current).value;
          var j :| 0 <= j < n && prior[..n][j] == p && Conflict(window, p, current)
                && forall k :: j < k < n ==> !Conflict(window, prior[..n][k], current);
          forall k | j < k < |prior| ensures !Conflict(window, prior[k], current) {
            if k < n { assert prior[..n][k] == prior[k]; }
          }
        }
        if j :| 0 <= j < |prior| && Conflict(window, prior[j], current) {
          assert prior[..n][j] == prior[j];
        }
      }
    }
  }

  /** The pair of findings for one login: nothing, or 0 points for the partner and 30 for itself. */
  function TravelPair(window: int, prior: seq<RawEvent>, current: RawEvent): seq<Finding> {
    match LatestConflict(window, prior, current)
    case None => []
    case Some(previous) =>
      [ Finding(previous.id, TRAVEL_RULE, TRAVEL_VERSION, TRAVEL_FLAG, 0, [current.id]),
        Finding(current.id, TRAVEL_RULE, TRAVEL_VERSION, TRAVEL_FLAG, 30, [previous.id]) ]
  }

  /** What the detector should report on time-ordered logins, comparing each with all before it. */
  function TravelFindings(window: int, logins: seq<RawEvent>): seq<Finding> {
    if logins == [] then []
    else
      var n := |logins| - 1;
      TravelFindings(window, logins[..n]) + TravelPair(window, logins[..n], logins[n])
  }

  // ---- Impossible travel: the evicting window -----------------------------------------------

  function OfUser(user: string): RawEvent -> bool {
    (e: RawEvent) => e.Authentication? && e.user == user
  }

  function ByUser(logins: seq<RawEvent>, user: string): seq<RawEvent> {
    Filter(logins, OfUser(user))
  }

  function RecentOf(recent: map<string, seq<RawEvent>>, user: string): seq<RawEvent> {
    if user in recent then recent[user] else []
  }

  /** Logins of `user` that were evicted: all of them too old for any login from `now` on. */
  ghost predicate Evicted(window: int, evicted: seq<RawEvent>, now: int) {
    forall e :: e in evicted ==> now - e.timestamp > window
  }

  /** A window holds the user's logins so far, except for an evicted prefix. */
  ghost predicate WindowOf(window: int, seen: seq<RawEvent>, user: string, kept: seq<RawEvent>, now: int) {
    exists evicted :: ByUser(seen, user) == evicted + kept && Evicted(window, evicted, now)
  }

  /**
   Detects impossible travel with one bounded list per user. Dropping old logins from the front
   never changes the outcome: the findings are those of the all-pairs specification, in order.
   */
  method DetectImpossibleTravel(window: int, events: seq<RawEvent>) returns (results: seq<Finding>)
    ensures results == TravelFindings(window, Logins(events))
  {
    LoginsAreLogins(events);
    results := CheckLogins(window, Logins(events));
  }

  /** The loop over the time-ordered logins. */
  method CheckLogins(window: int, auth: seq<RawEvent>) returns (results: seq<Finding>)
    requires Sorted(auth, TimeOf) && forall k :: 0 <= k < |auth| ==> auth[k].Authentication?
    ensures results == TravelFindings(window, auth)
  {
    results := [];
    var recent: map<string, seq<RawEvent>> := map[];
    NoWindowYet(window, auth);
    for n := 0 to |auth|
      invariant results == TravelFindings(window, auth[..n])
      invariant Windows(window, auth, n, recent)
    {
      var pair;
      pair, recent := CheckLogin(window, auth, n, recent);
      TravelFindingsSnoc(window, auth[..n], auth[n]);
      assert auth[..n + 1] == auth[..n] + [auth[n]];
      results := results + pair;
    }
    assert auth[..|auth|] == auth;
  }

  /** One turn of the loop: evict, search backwards, remember the login. */
  method CheckLogin(window: int, auth: seq<RawEvent>, n: nat, recent: map<string, seq<RawEvent>>)
    returns (pair: seq<Finding>, updated: map<string, seq<RawEvent>>)
    requires n < |auth| && auth[n].Authentication? && Sorted(auth, TimeOf)
    requires Windows(window, auth, n, recent)
    ensures pair == TravelPair(window, auth[..n], auth[n])
    ensures Windows(window, auth, n + 1, updated)
  {
    var current := auth[n];
    var candidates := Evict(window, auth, n, current, RecentOf(recent, current.user));
    WindowDecides(window, auth[..n], current, candidates);
    var partner := SearchBack(window, candidates, current);
    pair := [];
    if partner.Some? {
      pair := [
        Finding(partner.value.id, TRAVEL_RULE, TRAVEL_VERSION, TRAVEL_FLAG, 0, [current.id]),
        Finding(current.id, TRAVEL_RULE, TRAVEL_VERSION, TRAVEL_FLAG, 30, [partner.value.id])];
    }
    updated := recent[current.user := candidates + [current]];
    forall u: string, k | n + 1 <= k < |auth|
      ensures WindowOf(window, auth[..n + 1], u, RecentOf(updated, u), TimeOf(auth[k]))
    {
      WindowGrows(window, auth, n, candidates, recent, u, k);
    }
  }

  /** Before login `n`, each user's list will do for every login still to come. */
  ghost predicate Windows(window: int, auth: seq<RawEvent>, n: nat, recent: map<string, seq<RawEvent>>)
    requires n <= |auth|
  {
    forall u: string, k :: n <= k < |auth| ==>
      WindowOf(window, auth[..n], u, RecentOf(recent, u), TimeOf(auth[k]))
  }

  lemma LoginsAreLogins(events: seq<RawEvent>)
    ensures Sorted(Logins(events), TimeOf)
    ensures forall k :: 0 <= k < |Logins(events)| ==> IsLogin(Logins(events)[k])
    ensures forall e :: e in Logins(events) <==> e in events && IsLogin(e)
  {
    SortByIsSorted(Filter(events, IsLogin), TimeOf);
    SortByMembers(Filter(events, IsLogin), TimeOf);
    forall k | 0 <= k < |Logins(events)| ensures IsLogin(Logins(events)[k]) {
      assert Logins(events)[k] in Logins(events);
    }
  }

  lemma NoWindowYet(window: int, auth: seq<RawEvent>)
    ensures Windows(window, auth, 0, map[])
  {
    forall u: string, k | 0 <= k < |auth| ensures WindowOf(window, auth[..0], u, [], auth[k].timestamp) {
      assert ByUser(auth[..0], u) == [] + [];
      assert Evicted(window, [], auth[k].timestamp);
    }
  }

  lemma TravelFindingsSnoc(window: int, logins: seq<RawEvent>, current: RawEvent)
    ensures TravelFindings(window, logins + [current])
         == TravelFindings(window, logins) + TravelPair(window, logins, current)
  {
  }

  /** Drops the oldest candidates as long as they are more than the window before the current login. */
  method Evict(window: int, ghost auth: seq<RawEvent>, ghost n: nat, current: RawEvent, kept: seq<RawEvent>)
    returns (candidates: seq<RawEvent>)
    requires n < |auth| && auth[n] == current && current.Authentication?
    requires WindowOf(window, auth[..n], current.user, kept, current.timestamp)
    ensures WindowOf(window, auth[..n], current.user, candidates, current.timestamp)
  {
    candidates := kept;
    while candidates != [] && current.timestamp - candidates[0].timestamp > window
      invariant WindowOf(window, auth[..n], current.user, candidates, current.timestamp)
    {
      EvictOne(window, auth[..n], current.user, candidates, current.timestamp);
      candidates := candidates[1..];
    }
  }

  lemma EvictOne(window: int, seen: seq<RawEvent>, user: string, kept: seq<RawEvent>, now: int)
    requires WindowOf(window, seen, user, kept, now)
    requires kept != [] && now - kept[0].timestamp > window
    ensures WindowOf(window, seen, user, kept[1..], now)
  {
    var evicted :| ByUser(seen, user) == evicted + kept && Evicted(window, evicted, now);
    assert evicted + kept == (evicted + [kept[0]]) + kept[1..];
    assert Evicted(window, evicted + [kept[0]], now);
  }

  /** Looks at the candidates from the latest to the oldest and stops at the first hit. */
  method SearchBack(window: int, candidates: seq<RawEvent>, current: RawEvent)
    returns (partner: Option<RawEvent>)
    requires current.Authentication?
    requires forall e :: e in candidates ==> e.Authentication? && e.user == current.user
    ensures partner == LatestConflict(window, candidates, current)
  {
    var k := |candidates|;
    assert candidates[..k] == candidates;
    while k > 0
      invariant 0 <= k <= |candidates|
      invariant LatestConflict(window, candidates, current) == LatestConflict(window, candidates[..k], current)
    {
      k := k - 1;
      assert candidates[..k + 1][..k] == candidates[..k];
      assert candidates[k] in candidates;
      if current.country != candidates[k].country
        && 0 <= current.timestamp - candidates[k].timestamp <= window
      {
        return Some(candidates[k]);
      }
    }
    return None;
  }

  /** Neither other users' logins nor evicted ones can be the partner. */
  lemma WindowDecides(window: int, seen: seq<RawEvent>, current: RawEvent, kept: seq<RawEvent>)
    requires current.Authentication?
    requires WindowOf(window, seen, current.user, kept, current.timestamp)
    ensures LatestConflict(window, kept, current) == LatestConflict(window, seen, current)
    ensures forall e :: e in kept ==> e.Authentication? && e.user == current.user
  {
    var evicted :| ByUser(seen, current.user) == evicted + kept
                && Evicted(window, evicted, current.timestamp);
    OtherUsersIrrelevant(window, seen, current);
    EvictedIrrelevant(window, evicted, kept, current);
    forall e | e in kept ensures e.Authentication? && e.user == current.user {
      assert e in evicted + kept;
    }
  }

  lemma {:induction false} OtherUsersIrrelevant(window: int, seen: seq<RawEvent>, current: RawEvent)
    requires current.Authentication?
    ensures LatestConflict(window, seen, current) == LatestConflict(window, ByUser(seen, current.user), current)
  {
    if seen == [] {
    } else {
      var n := |seen| - 1;
      OtherUsersIrrelevant(window, seen[..n], current);
      assert seen == seen[..n] + [seen[n]];
      FilterSnoc(seen[..n], seen[n], OfUser(current.user));
      var f := ByUser(seen[..n], current.user);
      assert (f + [seen[n]])[..|f|] == f;
    }
  }

  lemma {:induction false} EvictedIrrelevant(window: int, evicted: seq<RawEvent>, kept: seq<RawEvent>,
                                             current: RawEvent)
    requires Evicted(window, evicted, current.timestamp)
    ensures LatestConflict(window, evicted + kept, current) == LatestConflict(window, kept, current)
  {
    if kept == [] {
      assert evicted + kept == evicted;
      LatestConflictMeaning(window, evicted, current);
    } else {
      var n := |kept| - 1;
      assert (evicted + kept)[..|evicted| + n] == evicted + kept[..n];
      EvictedIrrelevant(window, evicted, kept[..n], current);
    }
  }

  /** After the step, a user's window is still right for every later login. */
  lemma WindowGrows(window: int, auth: seq<RawEvent>, n: nat, candidates: seq<RawEvent>,
                    recent: map<string, seq<RawEvent>>, u: string, k: nat)
    requires n < k < |auth| && auth[n].Authentication? && Sorted(auth, TimeOf)
    requires WindowOf(window, auth[..n], auth[n].user, candidates, auth[n].timestamp)
    requires Windows(window, auth, n, recent)
    ensures WindowOf(window, auth[..n + 1], u,
                     RecentOf(recent[auth[n].user := candidates + [auth[n]]], u), TimeOf(auth[k]))
  {
    assert auth[..n + 1] == auth[..n] + [auth[n]];
    assert TimeOf(auth[n]) <= TimeOf(auth[k]);
    if u == auth[n].user {
      OwnWindowGrows(window, auth[..n], auth[n], candidates, auth[k].timestamp);
    } else {
      assert WindowOf(window, auth[..n], u, RecentOf(recent, u), TimeOf(auth[k]));
      OtherWindowKept(window, auth[..n], auth[n], u, RecentOf(recent, u), auth[k].timestamp);
    }
  }

  lemma OtherWindowKept(window: int, seen: seq<RawEvent>, current: RawEvent, u: string,
                        kept: seq<RawEvent>, later: int)
    requires !OfUser(u)(current) && WindowOf(window, seen, u, kept, later)
    ensures WindowOf(window, seen + [current], u, kept, later)
  {
  }

  lemma OwnWindowGrows(window: int, seen: seq<RawEvent>, current: RawEvent, kept: seq<RawEvent>, later: int)
    requires current.Authentication? && current.timestamp <= later
    requires WindowOf(window, seen, current.user, kept, current.timestamp)
    ensures WindowOf(window, seen + [current], current.user, kept + [current], later)
  {
    var evicted :| ByUser(seen, current.user) == evicted + kept
                && Evicted(window, evicted, current.timestamp);
    FilterSnoc(seen, current, OfUser(current.user));
    assert ByUser(seen + [current], current.user) == evicted + (kept + [current]);
    assert Evicted(window, evicted, later);
  }
}
