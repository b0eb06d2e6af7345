/**
 What a detection run reports, told from the events alone
 (backend/app/services/detection_engine.py, lines 80-333), and what a batch stores of it
 (backend/app/services/pipeline.py, lines 140-173).
 */
module Reports {
  import opened Base
  import opened Config
  import opened Detection
  import opened Fatigue
  import opened Rules
  import Pipeline
  import Ingestion
  import Incremental

  /** Some finding about the event carries the flag. */
  ghost predicate Reported(findings: seq<Finding>, id: string, flag: string) {
    exists f :: f in findings && f.eventId == id && f.flag == flag
  }

  /** And is worth that many points. */
  ghost predicate Scored(findings: seq<Finding>, id: string, flag: string, points: int) {
    exists f :: f in findings && f.eventId == id && f.flag == flag && f.risk == points
  }

  // ---- The parts of a run --------------------------------------------------------------------------

  function FatigueResults(cfg: Settings, events: seq<RawEvent>): seq<Finding>
    requires 1 <= cfg.mfaFatigueThreshold
  {
    DenialsAreAuthentications(events);
    AllFindings(cfg.mfaFatigueThreshold, cfg.mfaFatigueWindowMinutes * MINUTE,
                Denials(events), UserOrder(Denials(events)))
  }

  function TravelResults(cfg: Settings, events: seq<RawEvent>): seq<Finding> {
    TravelFindings(cfg.impossibleTravelWindowMinutes * MINUTE, Logins(events))
  }

  /** Findings of the detectors that look at one event. */
  function SingleResults(cfg: Settings, baseline: Baseline, events: seq<RawEvent>): seq<Finding> {
    NewDevices(baseline, SortBy(events, TimeOf)) + AllEventRules(cfg, events)
  }

  /** What the escalation rule is given. */
  function Before(cfg: Settings, baseline: Baseline, events: seq<RawEvent>): seq<Finding>
    requires 1 <= cfg.mfaFatigueThreshold
  {
    TravelResults(cfg, events) + OtherFindings(cfg, baseline, events)
  }

  function Escalations(cfg: Settings, baseline: Baseline, events: seq<RawEvent>): seq<Finding>
    requires 1 <= cfg.mfaFatigueThreshold
  {
    PrivilegeFindings(cfg.privilegedActionWindowMinutes * MINUTE, Before(cfg, baseline, events), events, events)
  }

  lemma BeforeParts(cfg: Settings, baseline: Baseline, events: seq<RawEvent>, f: Finding)
    requires 1 <= cfg.mfaFatigueThreshold
    ensures f in Before(cfg, baseline, events)
            <==> || f in TravelResults(cfg, events) || f in FatigueResults(cfg, events)
                 || f in SingleResults(cfg, baseline, events)
  {
  }

  lemma RunParts(cfg: Settings, baseline: Baseline, events: seq<RawEvent>, f: Finding)
    requires 1 <= cfg.mfaFatigueThreshold
    ensures f in Detected(cfg, baseline, events)
            <==> f in Before(cfg, baseline, events) || f in Escalations(cfg, baseline, events)
  {
  }

  lemma {:induction false} TravelFlags(window: int, logins: seq<RawEvent>)
    ensures forall f :: f in TravelFindings(window, logins) ==> f.flag == "IMPOSSIBLE_TRAVEL"
  {
    if logins == [] {
    } else {
      TravelFlags(window, logins[..|logins| - 1]);
    }
  }

  lemma {:induction false} FatigueFlags(threshold: nat, window: int, denials: seq<RawEvent>, users: seq<string>)
    requires 1 <= threshold
    ensures forall f :: f in AllFindings(threshold, window, denials, users) ==> f.flag == "MFA_FATIGUE"
  {
    if users == [] {
    } else {
      FatigueFlags(threshold, window, denials, users[..|users| - 1]);
    }
  }

  lemma {:induction false} PrivilegeFlags(window: int, findings: seq<Finding>, events: seq<RawEvent>,
                                          clouds: seq<RawEvent>)
    ensures forall f :: f in PrivilegeFindings(window, findings, events, clouds) ==> f.flag == "PRIVILEGE_ESCALATION"
  {
    if clouds == [] {
    } else {
      PrivilegeFlags(window, findings, events, clouds[..|clouds| - 1]);
    }
  }

  // ---- Rules on single events ------------------------------------------------------------------------

  /** What an event shows by itself: the flag, and what it is worth. */
  predicate Shows(cfg: Settings, baseline: Baseline, e: RawEvent, flag: string, points: int) {
    match e
    case Authentication(_, _, user, _, _, deviceId, _, _) =>
      flag == "NEW_DEVICE" && points == 12 && !(user in baseline && deviceId in baseline[user])
    case Endpoint(_, _, _, _, processName, commandLine, eventType, _) =>
      || (&& flag == "SUSPICIOUS_POWERSHELL" && points == 30 && Contains(Lower(processName), "powershell")
          && (|| Contains(Lower(commandLine), "-encodedcommand") || Contains(Lower(commandLine), "iex")
              || Contains(Lower(commandLine), "downloadstring")))
      || (flag == "CREDENTIAL_ACCESS" && points == 30 && Upper(eventType) == "CREDENTIAL_STORE_ACCESS")
      || (flag == "PERSISTENCE" && points == 25 && Upper(eventType) == "RUN_KEY_MODIFICATION")
    case Network(_, _, _, destinationIp, bytesSent, _, _) =>
      || (flag == "KNOWN_MALICIOUS_IP" && points == 35
          && destinationIp in {"203.0.113.50", "198.51.100.77", "192.0.2.91"})
      || (flag == "UNUSUAL_EGRESS" && points == 25 && bytesSent >= cfg.unusualEgressBytes)
      || (flag == "DATA_EXFILTRATION" && points == 30 && bytesSent >= 2 * cfg.unusualEgressBytes)
    case Cloud(_, _, _, _, action, _, privileged, sensitiveResource, _) =>
      || (flag == "UNUSUAL_ADMIN_ACTION" && points == 20 && privileged)
      || (flag == "SENSITIVE_RESOURCE_ACCESS" && points == 20 && sensitiveResource)
      || (flag == "MASS_DOWNLOAD" && points == 20 && sensitiveResource
          && Lower(action) in {"downloadobject", "getobject", "download", "export"})
  }

  lemma EventRuleShows(cfg: Settings, baseline: Baseline, e: RawEvent, flag: string, points: int)
    requires !e.Authentication?
    ensures (exists f :: f in EventRules(cfg, e) && f.flag == flag && f.risk == points)
            <==> Shows(cfg, baseline, e, flag, points)
  {
    match e {
      case Endpoint(_, _, _, _, _, _, _, _) => EndpointShows(cfg, baseline, e, flag, points);
      case Network(_, _, _, _, _, _, _) => NetworkShows(cfg, baseline, e, flag, points);
      case Cloud(_, _, _, _, _, _, _, _, _) => CloudShows(cfg, baseline, e, flag, points);
    }
  }

  lemma EndpointShows(cfg: Settings, baseline: Baseline, e: RawEvent, flag: string, points: int)
    requires e.Endpoint?
    ensures (exists f :: f in EventRules(cfg, e) && f.flag == flag && f.risk == points)
            <==> Shows(cfg, baseline, e, flag, points)
  {
    var rules := EventRules(cfg, e);
    if SuspiciousPowerShell(e) {
      assert Simple(e, "ENDP-001", "1.0", "SUSPICIOUS_POWERSHELL", 30) in rules;
    }
    if Upper(e.eventType) == "CREDENTIAL_STORE_ACCESS" {
      assert Simple(e, "ENDP-002", "1.0", "CREDENTIAL_ACCESS", 30) in rules;
    }
    if Upper(e.eventType) == "RUN_KEY_MODIFICATION" {
      assert Simple(e, "ENDP-003", "1.0", "PERSISTENCE", 25) in rules;
    }
  }

  lemma NetworkShows(cfg: Settings, baseline: Baseline, e: RawEvent, flag: string, points: int)
    requires e.Network?
    ensures (exists f :: f in EventRules(cfg, e) && f.flag == flag && f.risk == points)
            <==> Shows(cfg, baseline, e, flag, points)
  {
    var rules := EventRules(cfg, e);
    if e.destinationIp in MALICIOUS_IPS {
      assert Simple(e, "NET-001", "1.0", "KNOWN_MALICIOUS_IP", 35) in rules;
    }
    if e.bytesSent >= cfg.unusualEgressBytes {
      assert Simple(e, "NET-002", "1.0", "UNUSUAL_EGRESS", 25) in rules;
    }
    if e.bytesSent >= cfg.unusualEgressBytes * 2 {
      assert Simple(e, "NET-003", "1.1", "DATA_EXFILTRATION", 30) in rules;
    }
  }

  lemma CloudShows(cfg: Settings, baseline: Baseline, e: RawEvent, flag: string, points: int)
    requires e.Cloud?
    ensures (exists f :: f in EventRules(cfg, e) && f.flag == flag && f.risk == points)
            <==> Shows(cfg, baseline, e, flag, points)
  {
    var rules := EventRules(cfg, e);
    if e.privileged {
      assert Simple(e, "CLOUD-001", "1.0", "UNUSUAL_ADMIN_ACTION", 20) in rules;
    }
    if e.sensitiveResource {
      assert Simple(e, "CLOUD-002", "1.0", "SENSITIVE_RESOURCE_ACCESS", 20) in rules;
      if Lower(e.action) in DOWNLOADS {
        assert Simple(e, "CLOUD-003", "1.0", "MASS_DOWNLOAD", 20) in rules;
      }
    }
  }

  lemma {:induction false} NewDevicesIff(baseline: Baseline, events: seq<RawEvent>, f: Finding)
    ensures f in NewDevices(baseline, events)
            <==> exists e :: e in events && UntrustedDevice(baseline, e)
                             && f == Simple(e, "AUTH-003", "1.1", "NEW_DEVICE", 12)
  {
    if events == [] {
    } else {
      var n := |events| - 1;
      NewDevicesIff(baseline, events[..n], f);
      assert events == events[..n] + [events[n]];
    }
  }

  /** Findings of single events are about the event that shows them. */
  lemma SingleResultsIff(cfg: Settings, baseline: Baseline, events: seq<RawEvent>, e: RawEvent, flag: string,
                         points: int)
    requires Pipeline.UniqueIds(events) && e in events
    ensures Scored(SingleResults(cfg, baseline, events), e.id, flag, points) <==> Shows(cfg, baseline, e, flag, points)
  {
    var all, sorted := SingleResults(cfg, baseline, events), SortBy(events, TimeOf);
    SortByMembers(events, TimeOf);
    if Scored(all, e.id, flag, points) {
      var f :| f in all && f.eventId == e.id && f.flag == flag && f.risk == points;
      SingleResultShows(cfg, baseline, events, e, f);
    }
    if Shows(cfg, baseline, e, flag, points) {
      if e.Authentication? {
        var f := Simple(e, "AUTH-003", "1.1", "NEW_DEVICE", 12);
        NewDevicesIff(baseline, sorted, f);
        assert f in all;
      } else {
        EventRuleShows(cfg, baseline, e, flag, points);
        var f :| f in EventRules(cfg, e) && f.flag == flag && f.risk == points;
        EventRulesCollected(cfg, events, f);
        EventRuleFinding(cfg, e, f);
        assert f in all;
      }
    }
  }

  lemma SingleResultShows(cfg: Settings, baseline: Baseline, events: seq<RawEvent>, e: RawEvent, f: Finding)
    requires Pipeline.UniqueIds(events) && e in events && f in SingleResults(cfg, baseline, events) && f.eventId == e.id
    ensures Shows(cfg, baseline, e, f.flag, f.risk)
  {
    var sorted := SortBy(events, TimeOf);
    SortByMembers(events, TimeOf);
    if f in NewDevices(baseline, sorted) {
      NewDevicesIff(baseline, sorted, f);
      var o :| o in sorted && UntrustedDevice(baseline, o) && f == Simple(o, "AUTH-003", "1.1", "NEW_DEVICE", 12);
      Incremental.SameId(events, o, e);
    } else {
      EventRulesCollected(cfg, events, f);
      var o :| o in events && f in EventRules(cfg, o);
      EventRuleFinding(cfg, o, f);
      Incremental.SameId(events, o, e);
      EventRuleShows(cfg, baseline, e, f.flag, f.risk);
    }
  }

  /** Flags of rules that look at several events. */
  const RELATIONAL := {"IMPOSSIBLE_TRAVEL", "MFA_FATIGUE", "PRIVILEGE_ESCALATION"}

  lemma RelationalFlags(cfg: Settings, baseline: Baseline, events: seq<RawEvent>)
    requires 1 <= cfg.mfaFatigueThreshold
    ensures forall f :: f in TravelResults(cfg, events) ==> f.flag == "IMPOSSIBLE_TRAVEL"
    ensures forall f :: f in FatigueResults(cfg, events) ==> f.flag == "MFA_FATIGUE"
    ensures forall f :: f in Escalations(cfg, baseline, events) ==> f.flag == "PRIVILEGE_ESCALATION"
  {
    DenialsAreAuthentications(events);
    TravelFlags(cfg.impossibleTravelWindowMinutes * MINUTE, Logins(events));
    FatigueFlags(cfg.mfaFatigueThreshold, cfg.mfaFatigueWindowMinutes * MINUTE, Denials(events),
                 UserOrder(Denials(events)));
    PrivilegeFlags(cfg.privilegedActionWindowMinutes * MINUTE, Before(cfg, baseline, events), events, events);
  }

  lemma {:induction false} NewDeviceFlags(baseline: Baseline, events: seq<RawEvent>)
    ensures forall f :: f in NewDevices(baseline, events) ==> f.flag == "NEW_DEVICE"
  {
    if events == [] {
    } else {
      NewDeviceFlags(baseline, events[..|events| - 1]);
    }
  }

  lemma SingleFlags(cfg: Settings, baseline: Baseline, events: seq<RawEvent>)
    ensures forall f :: f in SingleResults(cfg, baseline, events) ==> f.flag !in RELATIONAL
  {
    NewDeviceFlags(baseline, SortBy(events, TimeOf));
    forall f | f in AllEventRules(cfg, events) ensures f.flag !in RELATIONAL {
      EventRulesCollected(cfg, events, f);
      var e :| e in events && f in EventRules(cfg, e);
      EventRuleFlag(cfg, e, f);
    }
  }

  lemma EventRuleFlag(cfg: Settings, e: RawEvent, f: Finding)
    requires f in EventRules(cfg, e)
    ensures f.flag !in RELATIONAL
  {
  }

  /** The findings of a run with one of those flags come from that rule, all others from single events. */
  lemma WhoseFlag(cfg: Settings, baseline: Baseline, events: seq<RawEvent>, f: Finding)
    requires 1 <= cfg.mfaFatigueThreshold
    ensures f in Detected(cfg, baseline, events) <==>
            if f.flag == "IMPOSSIBLE_TRAVEL" then f in TravelResults(cfg, events)
            else if f.flag == "MFA_FATIGUE" then f in FatigueResults(cfg, events)
            else if f.flag == "PRIVILEGE_ESCALATION" then f in Escalations(cfg, baseline, events)
            else f in SingleResults(cfg, baseline, events)
  {
    RunParts(cfg, baseline, events, f);
    BeforeParts(cfg, baseline, events, f);
    RelationalFlags(cfg, baseline, events);
    SingleFlags(cfg, baseline, events);
  }

  /** A run reports a flag of a single event exactly if the event shows it, with the points it is worth. */
  lemma SingleReportedIff(cfg: Settings, baseline: Baseline, events: seq<RawEvent>, e: RawEvent, flag: string,
                          points: int)
    requires 1 <= cfg.mfaFatigueThreshold && Pipeline.UniqueIds(events) && e in events && flag !in RELATIONAL
    ensures Scored(Detected(cfg, baseline, events), e.id, flag, points) <==> Shows(cfg, baseline, e, flag, points)
  {
    SingleResultsIff(cfg, baseline, events, e, flag, points);
    forall f: Finding | f.flag == flag
      ensures f in Detected(cfg, baseline, events) <==> f in SingleResults(cfg, baseline, events)
    {
      WhoseFlag(cfg, baseline, events, f);
    }
  }

  // ---- Impossible travel -----------------------------------------------------------------------------

  /** Position `i` comes before position `j` in time; ties keep the order of the list. */
  predicate Earlier(events: seq<RawEvent>, i: nat, j: nat)
    requires i < |events| && j < |events|
  {
    events[i].timestamp < events[j].timestamp || (events[i].timestamp == events[j].timestamp && i < j)
  }

  /** The login at `j` follows one of the same user, from another country, at `i`, within the window. */
  predicate Travelled(cfg: Settings, events: seq<RawEvent>, i: nat, j: nat)
    requires i < |events| && j < |events|
  {
    var a, b := events[i], events[j];
    && a.Authentication? && a.success && b.Authentication? && b.success
    && a.user == b.user && a.country != b.country && Earlier(events, i, j)
    && b.timestamp - a.timestamp <= cfg.impossibleTravelWindowMinutes * 60 * 1_000_000
  }

  lemma TiesKept(logins: seq<RawEvent>, now: int, same: RawEvent -> bool)
    requires forall e :: same(e) <==> e.timestamp == now
    ensures Filter(SortBy(logins, TimeOf), same) == Filter(logins, same)
  {
    SortByCommutesWithFilter(logins, TimeOf, same);
    SortBySorted(Filter(logins, same), TimeOf);
  }

  lemma SamePosition(events: seq<RawEvent>, m: nat, i: nat)
    requires Pipeline.UniqueIds(events) && m < |events| && i < |events| && events[m] == events[i]
    ensures m == i
  {
  }

  lemma TieOrder(events: seq<RawEvent>, p: nat, q: nat, i: nat, j: nat)
    requires Pipeline.UniqueIds(events) && p < q < |Logins(events)| && i < |events| && j < |events|
    requires Logins(events)[p] == events[i] && Logins(events)[q] == events[j]
    requires events[i].timestamp == events[j].timestamp
    ensures i < j
  {
    var now := events[i].timestamp;
    var same := (e: RawEvent) => e.timestamp == now;
    var logins, sorted := Filter(events, IsLogin), Logins(events);
    TiesKept(logins, now, same);
    var x, y := FilterKeeps(sorted, same, p, q);
    var u, v := FilterPositions(logins, same, x, y);
    var m, n := FilterPositions(events, IsLogin, u, v);
    SamePosition(events, m, i);
    SamePosition(events, n, j);
  }

  /** The order of the sorted logins is the order in time. */
  lemma LoginOrder(events: seq<RawEvent>, p: nat, q: nat, i: nat, j: nat)
    requires Pipeline.UniqueIds(events) && p < |Logins(events)| && q < |Logins(events)|
    requires i < |events| && j < |events|
    requires Logins(events)[p] == events[i] && Logins(events)[q] == events[j]
    ensures p < q <==> Earlier(events, i, j)
  {
    var logins := Logins(events);
    SortByIsSorted(Filter(events, IsLogin), TimeOf);
    SortedAt(logins, TimeOf, p, q);
    SortedAt(logins, TimeOf, q, p);
    if events[i].timestamp == events[j].timestamp {
      if p < q {
        TieOrder(events, p, q, i, j);
      } else if q < p {
        TieOrder(events, q, p, j, i);
      }
    }
  }

  lemma LoginAt(events: seq<RawEvent>, p: nat) returns (i: nat)
    requires p < |Logins(events)|
    ensures i < |events| && events[i] == Logins(events)[p] && IsLogin(events[i])
  {
    SortByMembers(Filter(events, IsLogin), TimeOf);
    assert Logins(events)[p] in Logins(events);
    i :| 0 <= i < |events| && events[i] == Logins(events)[p];
  }

  lemma LoginPosition(events: seq<RawEvent>, i: nat) returns (p: nat)
    requires i < |events| && IsLogin(events[i])
    ensures p < |Logins(events)| && Logins(events)[p] == events[i]
  {
    SortByMembers(Filter(events, IsLogin), TimeOf);
    assert events[i] in events;
    p :| 0 <= p < |Logins(events)| && Logins(events)[p] == events[i];
  }

  /** Every finding belongs to the pair of some login. */
  lemma {:induction false} TravelCollected(window: int, logins: seq<RawEvent>, f: Finding)
    ensures f in TravelFindings(window, logins)
            <==> exists q :: 0 <= q < |logins| && InPair(window, logins, q, f)
  {
    if logins == [] {
    } else {
      var n := |logins| - 1;
      var front := logins[..n];
      TravelCollected(window, front, f);
      assert TravelFindings(window, logins) == TravelFindings(window, front) + TravelPair(window, front, logins[n]);
      if f in TravelFindings(window, front) {
        var q :| 0 <= q < n && InPair(window, front, q, f);
        InPairOf(window, logins, n, q, f);
      } else if f in TravelPair(window, front, logins[n]) {
        assert InPair(window, logins, n, f);
      } else {
        forall q: nat | q < n ensures !InPair(window, logins, q, f) {
          InPairOf(window, logins, n, q, f);
        }
      }
    }
  }

  /** The finding is one of the pair for the login at `q`. */
  ghost predicate InPair(window: int, logins: seq<RawEvent>, q: nat, f: Finding)
    requires q < |logins|
  {
    f in TravelPair(window, logins[..q], logins[q])
  }

  lemma InPairOf(window: int, logins: seq<RawEvent>, n: nat, q: nat, f: Finding)
    requires q < n <= |logins|
    ensures InPair(window, logins[..n], q, f) <==> InPair(window, logins, q, f)
  {
    assert logins[..n][..q] == logins[..q];
  }

  /** The latest conflicting login before position `q`. */
  ghost predicate Partner(window: int, logins: seq<RawEvent>, p: nat, q: nat) {
    && p < q < |logins| && Conflict(window, logins[p], logins[q])
    && forall k :: p < k < q ==> !Conflict(window, logins[k], logins[q])
  }

  lemma PartnerIs(window: int, logins: seq<RawEvent>, q: nat, previous: RawEvent)
    requires q < |logins|
    ensures LatestConflict(window, logins[..q], logins[q]) == Some(previous)
            <==> exists p: nat :: Partner(window, logins, p, q) && logins[p] == previous
  {
    LatestConflictMeaning(window, logins[..q], logins[q]);
    if LatestConflict(window, logins[..q], logins[q]) == Some(previous) {
      var p :| 0 <= p < q && logins[..q][p] == previous && Conflict(window, previous, logins[q])
               && forall k :: p < k < q ==> !Conflict(window, logins[..q][k], logins[q]);
      forall k | p < k < q ensures !Conflict(window, logins[k], logins[q]) {
        assert logins[..q][k] == logins[k];
      }
      assert Partner(window, logins, p, q);
    }
    if p: nat :| Partner(window, logins, p, q) && logins[p] == previous {
      OnlyPartner(window, logins, p, q);
    }
  }

  lemma OnlyPartner(window: int, logins: seq<RawEvent>, p: nat, q: nat)
    requires Partner(window, logins, p, q)
    ensures LatestConflict(window, logins[..q], logins[q]) == Some(logins[p])
  {
    LatestConflictMeaning(window, logins[..q], logins[q]);
    assert logins[..q][p] == logins[p];
    var found := LatestConflict(window, logins[..q], logins[q]).value;
    var j :| 0 <= j < q && logins[..q][j] == found && Conflict(window, found, logins[q])
             && forall k :: j < k < q ==> !Conflict(window, logins[..q][k], logins[q]);
    assert logins[..q][j] == logins[j];
  }

  /** The two findings of each login with a partner, and no others. */
  lemma TravelScored(window: int, logins: seq<RawEvent>, id: string, points: int)
    ensures Scored(TravelFindings(window, logins), id, "IMPOSSIBLE_TRAVEL", points)
            <==> exists p: nat, q: nat :: Partner(window, logins, p, q)
                                && ((points == 30 && logins[q].id == id) || (points == 0 && logins[p].id == id))
  {
    var all := TravelFindings(window, logins);
    if Scored(all, id, "IMPOSSIBLE_TRAVEL", points) {
      var f :| f in all && f.eventId == id && f.flag == "IMPOSSIBLE_TRAVEL" && f.risk == points;
      TravelCollected(window, logins, f);
      var q :| 0 <= q < |logins| && InPair(window, logins, q, f);
      var previous := LatestConflict(window, logins[..q], logins[q]).value;
      PartnerIs(window, logins, q, previous);
    }
    if p: nat, q: nat :| Partner(window, logins, p, q)
                         && ((points == 30 && logins[q].id == id) || (points == 0 && logins[p].id == id)) {
      OnlyPartner(window, logins, p, q);
      var pair := TravelPair(window, logins[..q], logins[q]);
      var f := if points == 30 then pair[1] else pair[0];
      assert f in pair;
      assert InPair(window, logins, q, f);
      TravelCollected(window, logins, f);
    }
  }

  lemma ConflictIsTravel(cfg: Settings, events: seq<RawEvent>, p: nat, q: nat, i: nat, j: nat)
    requires Pipeline.UniqueIds(events) && p < |Logins(events)| && q < |Logins(events)|
    requires i < |events| && j < |events|
    requires Logins(events)[p] == events[i] && Logins(events)[q] == events[j]
    ensures p < q && Conflict(cfg.impossibleTravelWindowMinutes * MINUTE, Logins(events)[p], Logins(events)[q])
            <==> Travelled(cfg, events, i, j)
  {
    LoginOrder(events, p, q, i, j);
    LoginsAreLogins(events);
    assert Logins(events)[p] in Logins(events) && Logins(events)[q] in Logins(events);
  }

  /** `i` is the latest login from which one has travelled to `j`. */
  ghost predicate LatestTravel(cfg: Settings, events: seq<RawEvent>, i: nat, j: nat) {
    && i < |events| && j < |events| && Travelled(cfg, events, i, j)
    && forall k: nat :: k < |events| && Travelled(cfg, events, k, j) ==> k == i || Earlier(events, k, i)
  }

  lemma PartnerIsLatest(cfg: Settings, events: seq<RawEvent>, p: nat, q: nat, i: nat, j: nat)
    requires Pipeline.UniqueIds(events) && p < |Logins(events)| && q < |Logins(events)|
    requires i < |events| && j < |events|
    requires Logins(events)[p] == events[i] && Logins(events)[q] == events[j]
    ensures Partner(cfg.impossibleTravelWindowMinutes * MINUTE, Logins(events), p, q)
            <==> LatestTravel(cfg, events, i, j)
  {
    var w, logins := cfg.impossibleTravelWindowMinutes * MINUTE, Logins(events);
    ConflictIsTravel(cfg, events, p, q, i, j);
    if Partner(w, logins, p, q) {
      forall k: nat | k < |events| && Travelled(cfg, events, k, j) ensures k == i || Earlier(events, k, i) {
        var m := LoginPosition(events, k);
        ConflictIsTravel(cfg, events, m, q, k, j);
        LoginOrder(events, m, p, k, i);
        if m == p {
          SamePosition(events, k, i);
        }
      }
    }
    if LatestTravel(cfg, events, i, j) {
      forall m: nat | p < m < q ensures !Conflict(w, logins[m], logins[q]) {
        var k := LoginAt(events, m);
        ConflictIsTravel(cfg, events, m, q, k, j);
        LoginOrder(events, p, m, i, k);
        LoginOrder(events, m, p, k, i);
      }
    }
  }

  /**
   A run gives 30 points for impossible travel to exactly the logins that follow one from another
   country within the window, and 0 points to the latest login each of them follows.
   */
  lemma TravelReportedIff(cfg: Settings, baseline: Baseline, events: seq<RawEvent>, id: string, points: int)
    requires 1 <= cfg.mfaFatigueThreshold && Pipeline.UniqueIds(events)
    ensures Scored(Detected(cfg, baseline, events), id, "IMPOSSIBLE_TRAVEL", points)
            <==> exists i: nat, j: nat :: LatestTravel(cfg, events, i, j)
                   && ((points == 30 && events[j].id == id) || (points == 0 && events[i].id == id))
  {
    var w, logins := cfg.impossibleTravelWindowMinutes * MINUTE, Logins(events);
    forall f: Finding | f.flag == "IMPOSSIBLE_TRAVEL"
      ensures f in Detected(cfg, baseline, events) <==> f in TravelResults(cfg, events)
    {
      WhoseFlag(cfg, baseline, events, f);
    }
    TravelScored(w, logins, id, points);
    if p: nat, q: nat :| Partner(w, logins, p, q)
                         && ((points == 30 && logins[q].id == id) || (points == 0 && logins[p].id == id)) {
      var i := LoginAt(events, p);
      var j := LoginAt(events, q);
      PartnerIsLatest(cfg, events, p, q, i, j);
    }
    if i: nat, j: nat :| LatestTravel(cfg, events, i, j)
                         && ((points == 30 && events[j].id == id) || (points == 0 && events[i].id == id)) {
      var p := LoginPosition(events, i);
      var q := LoginPosition(events, j);
      PartnerIsLatest(cfg, events, p, q, i, j);
    }
  }

  // ---- MFA fatigue -----------------------------------------------------------------------------------

  /** Denied prompts of the user, any two of them within the window. */
  ghost predicate Prompts(s: set<RawEvent>, events: seq<RawEvent>, user: string, window: int) {
    && (forall e :: e in s ==> e in events && e.Authentication? && e.mfaDenied && e.user == user)
    && forall e, f :: e in s && f in s ==> f.timestamp - e.timestamp <= window
  }

  /** As many of them as the threshold says. */
  ghost predicate PromptsFit(events: seq<RawEvent>, user: string, threshold: int, window: int) {
    exists s :: |s| == threshold && Prompts(s, events, user, window)
  }

  lemma LastIsNew(events: seq<RawEvent>)
    requires Pipeline.UniqueIds(events) && events != []
    ensures Pipeline.UniqueIds(events[..|events| - 1]) && events[|events| - 1] !in events[..|events| - 1]
    ensures forall e :: e in events <==> e in events[..|events| - 1] || e == events[|events| - 1]
  {
    var n := |events| - 1;
    assert events == events[..n] + [events[n]];
    forall k | 0 <= k < n ensures events[..n][k] != events[n] {
      assert events[k].id != events[n].id;
    }
  }

  lemma {:induction false} PositionCount(events: seq<RawEvent>, s: set<RawEvent>) returns (picked: set<int>)
    requires Pipeline.UniqueIds(events) && forall e :: e in s ==> e in events
    ensures |picked| == |s|
    ensures forall x :: x in picked <==> 0 <= x < |events| && events[x] in s
  {
    if events == [] {
      picked := {};
      assert s == {};
    } else {
      var n := |events| - 1;
      LastIsNew(events);
      var front := PositionCount(events[..n], s - {events[n]});
      picked := if events[n] in s then front + {n} else front;
      forall x ensures x in picked <==> 0 <= x <= n && events[x] in s {
        FrontPositions(events, s, front, x);
      }
    }
  }

  lemma FrontPositions(events: seq<RawEvent>, s: set<RawEvent>, front: set<int>, x: int)
    requires events != [] && events[|events| - 1] !in events[..|events| - 1]
    requires forall y :: y in front
                         <==> 0 <= y < |events| - 1 && events[..|events| - 1][y] in s - {events[|events| - 1]}
    ensures x in front <==> 0 <= x < |events| - 1 && events[x] in s
  {
    var n := |events| - 1;
    if 0 <= x < n {
      assert events[..n][x] in events[..n] && events[..n][x] == events[x];
    }
  }

  lemma PickedEvents(events: seq<RawEvent>, picked: set<int>) returns (s: set<RawEvent>)
    requires Pipeline.UniqueIds(events) && forall x :: x in picked ==> 0 <= x < |events|
    ensures |s| == |picked| && forall x :: 0 <= x < |events| ==> (events[x] in s <==> x in picked)
    ensures forall e :: e in s ==> e in events
  {
    s := set x | x in picked :: events[x];
    forall x | 0 <= x < |events| && events[x] in s ensures x in picked {
      var y :| y in picked && events[y] == events[x];
      SamePosition(events, x, y);
    }
    forall x | x in picked ensures events[x] in s {
    }
    var again := PositionCount(events, s);
    forall x ensures x in again <==> x in picked {
      assert x in picked ==> events[x] in s;
    }
    assert again == picked;
  }

  lemma FilterSorted(s: seq<RawEvent>, keep: RawEvent -> bool)
    requires Sorted(s, TimeOf)
    ensures Sorted(Filter(s, keep), TimeOf)
  {
    var f := Filter(s, keep);
    forall i, j | 0 <= i < j < |f| ensures TimeOf(f[i]) <= TimeOf(f[j]) {
      var x, y := FilterPositions(s, keep, i, j);
    }
  }

  /** The user's denied prompts in time order. */
  function DeniedOf(events: seq<RawEvent>, user: string): seq<RawEvent> {
    ByUser(Denials(events), user)
  }

  lemma DeniedOfIs(events: seq<RawEvent>, user: string)
    requires Pipeline.UniqueIds(events)
    ensures Sorted(DeniedOf(events, user), TimeOf) && Pipeline.UniqueIds(DeniedOf(events, user))
    ensures forall e :: e in DeniedOf(events, user)
                        <==> e in events && e.Authentication? && e.mfaDenied && e.user == user
  {
    var sorted := SortBy(events, TimeOf);
    SortByIsSorted(events, TimeOf);
    SortByMembers(events, TimeOf);
    FilterSorted(sorted, IsDenial);
    FilterSorted(Denials(events), OfUser(user));
    Incremental.UniquePermuted(events, sorted);
    Incremental.UniqueFilter(sorted, IsDenial);
    Incremental.UniqueFilter(Denials(events), OfUser(user));
  }

  /** A user's prompts are flagged exactly if enough of them fit in the window. */
  lemma PromptsFitIff(threshold: nat, window: int, events: seq<RawEvent>, user: string)
    requires 1 <= threshold && Pipeline.UniqueIds(events)
    ensures UserFindings(threshold, window, DeniedOf(events, user)) != []
            <==> PromptsFit(events, user, threshold, window)
  {
    var denied := DeniedOf(events, user);
    DeniedOfIs(events, user);
    FatigueIff(threshold, window, denied);
    if picked :| IsBurst(threshold, window, denied, picked) {
      var s := PickedEvents(denied, picked);
      BurstIsPrompts(threshold, window, events, user, picked, s);
    }
    if s :| |s| == threshold && Prompts(s, events, user, window) {
      var picked := PositionCount(denied, s);
      assert IsBurst(threshold, window, denied, picked);
    }
  }

  lemma BurstIsPrompts(threshold: nat, window: int, events: seq<RawEvent>, user: string, picked: set<int>,
                       s: set<RawEvent>)
    requires Pipeline.UniqueIds(events) && IsBurst(threshold, window, DeniedOf(events, user), picked)
    requires forall e :: e in s ==> e in DeniedOf(events, user)
    requires forall x :: 0 <= x < |DeniedOf(events, user)| ==> (DeniedOf(events, user)[x] in s <==> x in picked)
    ensures Prompts(s, events, user, window)
  {
    var denied := DeniedOf(events, user);
    DeniedOfIs(events, user);
    forall e, f | e in s && f in s ensures f.timestamp - e.timestamp <= window {
      var x :| 0 <= x < |denied| && denied[x] == e;
      var y :| 0 <= y < |denied| && denied[y] == f;
    }
  }

  predicate OnUser(events: seq<RawEvent>, user: string, f: Finding) {
    exists e :: e in events && e.Authentication? && e.user == user && e.id == f.eventId
  }

  function FatigueOn(events: seq<RawEvent>, user: string): Finding -> bool {
    (f: Finding) => f.flag == "MFA_FATIGUE" && OnUser(events, user, f)
  }

  lemma UserFindingsOn(threshold: nat, window: int, events: seq<RawEvent>, u: string, user: string)
    requires 1 <= threshold && Pipeline.UniqueIds(events)
    ensures Filter(UserFindings(threshold, window, DeniedOf(events, u)), FatigueOn(events, user))
            == if u == user then UserFindings(threshold, window, DeniedOf(events, u)) else []
  {
    var found := UserFindings(threshold, window, DeniedOf(events, u));
    forall f | f in found ensures FatigueOn(events, user)(f) <==> u == user {
      UserFindingIsOn(threshold, window, events, u, f);
      if FatigueOn(events, user)(f) {
        var e :| e in events && e.Authentication? && e.user == user && e.id == f.eventId;
        var o :| o in events && o.Authentication? && o.user == u && o.id == f.eventId;
        Incremental.SameId(events, e, o);
      }
    }
    if u == user {
      FilterAll(found, FatigueOn(events, user));
    } else {
      FilterNone(found, FatigueOn(events, user));
    }
  }

  lemma BurstFindingMember(group: seq<RawEvent>, f: Finding) returns (e: RawEvent)
    requires f in BurstFindings(group)
    ensures f.flag == "MFA_FATIGUE" && e in group && e.id == f.eventId
  {
    var i :| 0 <= i < |group| && BurstFindings(group)[i] == f;
    e := group[i];
  }

  lemma UserFindingMember(threshold: nat, window: int, denied: seq<RawEvent>, f: Finding) returns (e: RawEvent)
    requires 1 <= threshold && f in UserFindings(threshold, window, denied)
    ensures f.flag == "MFA_FATIGUE" && e in denied && e.id == f.eventId
  {
    FirstBurstRange(threshold, window, denied, threshold - 1);
    var index := FirstBurst(threshold, window, denied, threshold - 1).value;
    e := BurstFindingMember(denied[index - threshold + 1..index + 1], f);
  }

  lemma UserFindingIsOn(threshold: nat, window: int, events: seq<RawEvent>, u: string, f: Finding)
    requires 1 <= threshold && Pipeline.UniqueIds(events)
    requires f in UserFindings(threshold, window, DeniedOf(events, u))
    ensures f.flag == "MFA_FATIGUE" && OnUser(events, u, f)
  {
    DeniedOfIs(events, u);
    var e := UserFindingMember(threshold, window, DeniedOf(events, u), f);
  }

  predicate NoRepeats(users: seq<string>) {
    forall i, j :: 0 <= i < j < |users| ==> users[i] != users[j]
  }

  lemma {:induction false} UserOrderIs(denials: seq<RawEvent>)
    requires forall e :: e in denials ==> e.Authentication?
    ensures NoRepeats(UserOrder(denials))
    ensures forall u :: u in UserOrder(denials) <==> exists e :: e in denials && e.user == u
  {
    if denials == [] {
    } else {
      var n := |denials| - 1;
      assert denials == denials[..n] + [denials[n]];
      assert forall e :: e in denials[..n] ==> e in denials;
      UserOrderIs(denials[..n]);
      assert denials[n] in denials;
    }
  }

  lemma {:induction false} AllFindingsOn(threshold: nat, window: int, events: seq<RawEvent>, users: seq<string>,
                                         user: string)
    requires 1 <= threshold && Pipeline.UniqueIds(events) && NoRepeats(users)
    ensures Filter(AllFindings(threshold, window, Denials(events), users), FatigueOn(events, user))
            == if user in users then UserFindings(threshold, window, DeniedOf(events, user)) else []
  {
    if users == [] {
    } else {
      var n := |users| - 1;
      assert users == users[..n] + [users[n]];
      AllFindingsOn(threshold, window, events, users[..n], user);
      UserFindingsOn(threshold, window, events, users[n], user);
      FilterAppend(AllFindings(threshold, window, Denials(events), users[..n]),
                   UserFindings(threshold, window, DeniedOf(events, users[n])), FatigueOn(events, user));
      assert user in users[..n] ==> user != users[n];
    }
  }

  lemma RunIs(cfg: Settings, baseline: Baseline, events: seq<RawEvent>)
    requires 1 <= cfg.mfaFatigueThreshold
    ensures Detected(cfg, baseline, events)
         == TravelResults(cfg, events) + (FatigueResults(cfg, events) + SingleResults(cfg, baseline, events))
            + Escalations(cfg, baseline, events)
  {
    OtherIs(cfg, baseline, events);
  }

  lemma OtherIs(cfg: Settings, baseline: Baseline, events: seq<RawEvent>)
    requires 1 <= cfg.mfaFatigueThreshold
    ensures OtherFindings(cfg, baseline, events) == FatigueResults(cfg, events) + SingleResults(cfg, baseline, events)
  {
    Reassociate(FatigueResults(cfg, events), NewDevices(baseline, SortBy(events, TimeOf)), AllEventRules(cfg, events));
  }

  lemma OnlySecond(a: seq<Finding>, b: seq<Finding>, c: seq<Finding>, d: seq<Finding>, keep: Finding -> bool)
    requires forall f :: f in a || f in c || f in d ==> !keep(f)
    ensures Filter(a + (b + c) + d, keep) == Filter(b, keep)
  {
    FourParts(a, b, c, d, keep);
    FilterNone(a, keep);
    FilterNone(c, keep);
    FilterNone(d, keep);
    assert [] + (Filter(b, keep) + []) + [] == Filter(b, keep);
  }

  lemma FatigueOnlyThere(cfg: Settings, baseline: Baseline, events: seq<RawEvent>, user: string)
    requires 1 <= cfg.mfaFatigueThreshold
    ensures Filter(Detected(cfg, baseline, events), FatigueOn(events, user))
            == Filter(FatigueResults(cfg, events), FatigueOn(events, user))
  {
    var travel, single := TravelResults(cfg, events), SingleResults(cfg, baseline, events);
    var escalations := Escalations(cfg, baseline, events);
    RelationalFlags(cfg, baseline, events);
    SingleFlags(cfg, baseline, events);
    forall f | f in travel || f in single || f in escalations ensures !FatigueOn(events, user)(f) {
    }
    OnlySecond(travel, FatigueResults(cfg, events), single, escalations, FatigueOn(events, user));
    RunIs(cfg, baseline, events);
  }

  lemma FourParts(a: seq<Finding>, b: seq<Finding>, c: seq<Finding>, d: seq<Finding>, keep: Finding -> bool)
    ensures Filter(a + (b + c) + d, keep) == Filter(a, keep) + (Filter(b, keep) + Filter(c, keep)) + Filter(d, keep)
  {
    FilterAppend(a + (b + c), d, keep);
    FilterAppend(a, b + c, keep);
    FilterAppend(b, c, keep);
  }

  /**
   A run reports MFA fatigue about a user exactly if as many denied prompts of the user as the
   threshold says lie in the window; then there are that many findings, worth 6 each and one more.
   */
  lemma FatigueReportedIff(cfg: Settings, baseline: Baseline, events: seq<RawEvent>, user: string)
    requires 1 <= cfg.mfaFatigueThreshold && Pipeline.UniqueIds(events)
    ensures var found := Filter(Detected(cfg, baseline, events), FatigueOn(events, user));
            if PromptsFit(events, user, cfg.mfaFatigueThreshold, cfg.mfaFatigueWindowMinutes * 60 * 1_000_000)
            then |found| == cfg.mfaFatigueThreshold && TotalRisk(found) == 6 * cfg.mfaFatigueThreshold + 1
            else found == []
  {
    assert cfg.mfaFatigueWindowMinutes * MINUTE == cfg.mfaFatigueWindowMinutes * 60 * 1_000_000;
    FatigueFound(cfg, baseline, events, user);
    FatigueCount(cfg.mfaFatigueThreshold, cfg.mfaFatigueWindowMinutes * MINUTE, events, user);
  }

  lemma FatigueFound(cfg: Settings, baseline: Baseline, events: seq<RawEvent>, user: string)
    requires 1 <= cfg.mfaFatigueThreshold && Pipeline.UniqueIds(events)
    ensures Filter(Detected(cfg, baseline, events), FatigueOn(events, user))
         == UserFindings(cfg.mfaFatigueThreshold, cfg.mfaFatigueWindowMinutes * MINUTE, DeniedOf(events, user))
  {
    FatigueOnlyThere(cfg, baseline, events, user);
    FatigueResultsOn(cfg, events, user);
  }

  lemma FatigueCount(threshold: nat, window: int, events: seq<RawEvent>, user: string)
    requires 1 <= threshold && Pipeline.UniqueIds(events)
    ensures var found := UserFindings(threshold, window, DeniedOf(events, user));
            if PromptsFit(events, user, threshold, window)
            then |found| == threshold && TotalRisk(found) == 6 * threshold + 1
            else found == []
  {
    PromptsFitIff(threshold, window, events, user);
    if UserFindings(threshold, window, DeniedOf(events, user)) != [] {
      FatiguePoints(threshold, window, DeniedOf(events, user));
    }
  }

  lemma FatigueResultsOn(cfg: Settings, events: seq<RawEvent>, user: string)
    requires 1 <= cfg.mfaFatigueThreshold && Pipeline.UniqueIds(events)
    ensures Filter(FatigueResults(cfg, events), FatigueOn(events, user))
         == UserFindings(cfg.mfaFatigueThreshold, cfg.mfaFatigueWindowMinutes * MINUTE, DeniedOf(events, user))
  {
    var k, w := cfg.mfaFatigueThreshold, cfg.mfaFatigueWindowMinutes * MINUTE;
    DenialsAreAuthentications(events);
    UserOrderIs(Denials(events));
    AllFindingsOn(k, w, events, UserOrder(Denials(events)), user);
    if user !in UserOrder(Denials(events)) {
      NobodyDenied(k, w, events, user);
    }
  }

  lemma NobodyDenied(threshold: nat, window: int, events: seq<RawEvent>, user: string)
    requires 1 <= threshold && forall e :: e in Denials(events) ==> e.Authentication?
    requires user !in UserOrder(Denials(events))
    ensures UserFindings(threshold, window, DeniedOf(events, user)) == []
  {
    UserOrderIs(Denials(events));
    FilterNone(Denials(events), OfUser(user));
  }

  // ---- Escalation ------------------------------------------------------------------------------------

  lemma {:induction false} EscalationsIff(window: int, findings: seq<Finding>, events: seq<RawEvent>,
                                          clouds: seq<RawEvent>, f: Finding)
    ensures f in PrivilegeFindings(window, findings, events, clouds)
            <==> exists c :: c in clouds && Escalates(window, findings, events, c)
                                         && f == Finding(c.id, "CLOUD-004", "1.1", "PRIVILEGE_ESCALATION", 30,
                                             IdsOf(PriorLogins(window, findings, events, c)))
  {
    if clouds == [] {
    } else {
      var n := |clouds| - 1;
      assert clouds == clouds[..n] + [clouds[n]];
      EscalationsIff(window, findings, events, clouds[..n], f);
    }
  }

  predicate Escalates(window: int, findings: seq<Finding>, events: seq<RawEvent>, c: RawEvent) {
    c.Cloud? && c.privileged && PriorLogins(window, findings, events, c) != []
  }

  /** A successful login of the action's user, flagged in the run, at most the window before the action. */
  ghost predicate Suspect(cfg: Settings, findings: seq<Finding>, login: RawEvent, action: RawEvent) {
    && login.Authentication? && login.success && action.Cloud? && login.user == action.user
    && login.timestamp <= action.timestamp <= login.timestamp + cfg.privilegedActionWindowMinutes * 60 * 1_000_000
    && (Reported(findings, login.id, "IMPOSSIBLE_TRAVEL") || Reported(findings, login.id, "NEW_DEVICE"))
  }

  lemma EarlierFlag(cfg: Settings, baseline: Baseline, events: seq<RawEvent>, id: string, flag: string)
    requires 1 <= cfg.mfaFatigueThreshold && flag != "PRIVILEGE_ESCALATION"
    ensures Reported(Detected(cfg, baseline, events), id, flag) <==> Reported(Before(cfg, baseline, events), id, flag)
  {
    RelationalFlags(cfg, baseline, events);
    forall f: Finding | f.flag == flag
      ensures f in Detected(cfg, baseline, events) <==> f in Before(cfg, baseline, events)
    {
      RunParts(cfg, baseline, events, f);
    }
  }

  lemma AnomalousIff(findings: seq<Finding>, id: string)
    ensures Anomalous(findings, id)
            <==> Reported(findings, id, "IMPOSSIBLE_TRAVEL") || Reported(findings, id, "NEW_DEVICE")
  {
  }

  lemma SuspectIff(cfg: Settings, baseline: Baseline, events: seq<RawEvent>, login: RawEvent, action: RawEvent)
    requires 1 <= cfg.mfaFatigueThreshold
    ensures Precedes(cfg.privilegedActionWindowMinutes * MINUTE, Before(cfg, baseline, events), login, action)
            <==> Suspect(cfg, Detected(cfg, baseline, events), login, action)
  {
    EarlierFlag(cfg, baseline, events, login.id, "IMPOSSIBLE_TRAVEL");
    EarlierFlag(cfg, baseline, events, login.id, "NEW_DEVICE");
    PrecedesIff(cfg.privilegedActionWindowMinutes * MINUTE, Before(cfg, baseline, events), login, action);
    assert cfg.privilegedActionWindowMinutes * MINUTE == cfg.privilegedActionWindowMinutes * 60 * 1_000_000;
  }

  lemma PrecedesIff(window: int, findings: seq<Finding>, login: RawEvent, action: RawEvent)
    ensures Precedes(window, findings, login, action)
            <==> && login.Authentication? && login.success && action.Cloud? && login.user == action.user
                 && login.timestamp <= action.timestamp <= login.timestamp + window
                 && (|| Reported(findings, login.id, "IMPOSSIBLE_TRAVEL") || Reported(findings, login.id, "NEW_DEVICE"))
  {
    AnomalousIff(findings, login.id);
  }

  lemma EscalatesIff(cfg: Settings, baseline: Baseline, events: seq<RawEvent>, c: RawEvent)
    requires 1 <= cfg.mfaFatigueThreshold
    ensures Escalates(cfg.privilegedActionWindowMinutes * MINUTE, Before(cfg, baseline, events), events, c)
            <==> c.Cloud? && c.privileged
                 && exists a :: a in events && Suspect(cfg, Detected(cfg, baseline, events), a, c)
  {
    var w, before := cfg.privilegedActionWindowMinutes * MINUTE, Before(cfg, baseline, events);
    var prior := PriorLogins(w, before, events, c);
    forall a ensures Precedes(w, before, a, c) <==> Suspect(cfg, Detected(cfg, baseline, events), a, c) {
      SuspectIff(cfg, baseline, events, a, c);
    }
    assert prior != [] ==> prior[0] in prior;
  }

  /**
   A run reports a privilege escalation about exactly the privileged cloud actions that follow, within
   the window, a successful login of their user with a new device or impossible travel.
   */
  lemma EscalationReportedIff(cfg: Settings, baseline: Baseline, events: seq<RawEvent>, c: RawEvent, points: int)
    requires 1 <= cfg.mfaFatigueThreshold && Pipeline.UniqueIds(events) && c in events
    ensures Scored(Detected(cfg, baseline, events), c.id, "PRIVILEGE_ESCALATION", points)
            <==> points == 30 && c.Cloud? && c.privileged
                 && exists a :: a in events && Suspect(cfg, Detected(cfg, baseline, events), a, c)
  {
    var all, found := Detected(cfg, baseline, events), Escalations(cfg, baseline, events);
    var w, before := cfg.privilegedActionWindowMinutes * MINUTE, Before(cfg, baseline, events);
    EscalatesIff(cfg, baseline, events, c);
    if Scored(all, c.id, "PRIVILEGE_ESCALATION", points) {
      var f :| f in all && f.eventId == c.id && f.flag == "PRIVILEGE_ESCALATION" && f.risk == points;
      WhoseFlag(cfg, baseline, events, f);
      EscalationsIff(w, before, events, events, f);
      var o :| o in events && Escalates(w, before, events, o)
               && f == Finding(o.id, "CLOUD-004", "1.1", "PRIVILEGE_ESCALATION", 30,
                               IdsOf(PriorLogins(w, before, events, o)));
      Incremental.SameId(events, o, c);
    }
    if Escalates(w, before, events, c) && points == 30 {
      var f := Finding(c.id, "CLOUD-004", "1.1", "PRIVILEGE_ESCALATION", 30, IdsOf(PriorLogins(w, before, events, c)));
      EscalationsIff(w, before, events, events, f);
      WhoseFlag(cfg, baseline, events, f);
    }
  }

  // ---- What a batch stores of it -------------------------------------------------------------------------

  /** The events a batch of new events is judged on. */
  function Judged(cfg: Settings, mentions: Pipeline.Mentions, st: Pipeline.State, batch: seq<RawEvent>): seq<RawEvent> {
    Pipeline.Slice(cfg, mentions, st.rows + batch, batch)
  }

  lemma JudgedUnique(cfg: Settings, mentions: Pipeline.Mentions, st: Pipeline.State, batch: seq<RawEvent>)
    requires Pipeline.UniqueIds(st.rows + batch) && 0 <= cfg.impossibleTravelWindowMinutes
    ensures Pipeline.UniqueIds(Judged(cfg, mentions, st, batch))
    ensures forall e :: e in Judged(cfg, mentions, st, batch) ==> e in st.rows + batch
    ensures forall e :: e in batch ==> e in Judged(cfg, mentions, st, batch)
  {
    var rows := st.rows + batch;
    var kept := Filter(rows, Incremental.Selected(cfg, mentions, batch));
    Incremental.BatchIsContext(cfg, mentions, st.rows, batch);
    Incremental.SliceMembers(cfg, mentions, st.rows, batch);
    Incremental.UniqueFilter(rows, Incremental.Selected(cfg, mentions, batch));
    var context := SortBy(kept, TimeOf);
    Incremental.UniquePermuted(kept, context);
    Incremental.UniquePermuted(context, SortBy(context, TimeOf));
    forall e | e in batch ensures e in Judged(cfg, mentions, st, batch) {
      Incremental.BatchInContext(cfg, mentions, batch, e);
    }
  }

  /** After a batch of new events an event has the flags it had and those this run reports. */
  lemma StoredFlagIff(cfg: Settings, baseline: Baseline, mentions: Pipeline.Mentions, st: Pipeline.State,
                      batch: seq<RawEvent>, id: string, flag: string)
    requires 1 <= cfg.mfaFatigueThreshold && batch != [] && Pipeline.UniqueIds(st.rows + batch)
    ensures flag in Pipeline.FlagsOf(Pipeline.ProcessTelemetry(cfg, baseline, mentions, st, batch).records, id)
            <==> || flag in Pipeline.FlagsOf(st.records, id)
                 || Reported(Detected(cfg, baseline, Judged(cfg, mentions, st, batch)), id, flag)
  {
    Incremental.AddRowsFresh(st.rows, batch);
    Ingestion.RecordFlags(st.records, Detected(cfg, baseline, Judged(cfg, mentions, st, batch)), id);
  }

  /** Some event of the user has been flagged for MFA fatigue. */
  ghost predicate UserFlagged(st: Pipeline.State, user: string) {
    exists e :: e in st.rows && e.Authentication? && e.user == user
                && "MFA_FATIGUE" in Pipeline.FlagsOf(st.records, e.id)
  }

  lemma FatigueOnUserIff(cfg: Settings, baseline: Baseline, events: seq<RawEvent>, user: string)
    requires 1 <= cfg.mfaFatigueThreshold && Pipeline.UniqueIds(events)
    ensures PromptsFit(events, user, cfg.mfaFatigueThreshold, cfg.mfaFatigueWindowMinutes * 60 * 1_000_000)
            <==> exists e :: e in events && e.Authentication? && e.user == user
                             && Reported(Detected(cfg, baseline, events), e.id, "MFA_FATIGUE")
  {
    var all := Detected(cfg, baseline, events);
    var found := Filter(all, FatigueOn(events, user));
    FatigueReportedIff(cfg, baseline, events, user);
    if found != [] {
      assert found[0] in found;
      var e :| e in events && e.Authentication? && e.user == user && e.id == found[0].eventId;
    }
    if e :| e in events && e.Authentication? && e.user == user && Reported(all, e.id, "MFA_FATIGUE") {
      var f :| f in all && f.eventId == e.id && f.flag == "MFA_FATIGUE";
      assert FatigueOn(events, user)(f);
      assert f in found;
    }
  }

  /** A batch leaves a user flagged exactly if it was flagged before or enough prompts of the slice fit the window. */
  lemma FatigueStoredIff(cfg: Settings, baseline: Baseline, mentions: Pipeline.Mentions, st: Pipeline.State,
                         batch: seq<RawEvent>, user: string)
    requires 1 <= cfg.mfaFatigueThreshold && batch != [] && Pipeline.UniqueIds(st.rows + batch)
    requires 0 <= cfg.impossibleTravelWindowMinutes && Ingestion.About(st.records, st.rows)
    ensures UserFlagged(Pipeline.ProcessTelemetry(cfg, baseline, mentions, st, batch), user)
            <==> || UserFlagged(st, user)
                 || PromptsFit(Judged(cfg, mentions, st, batch), user, cfg.mfaFatigueThreshold,
                               cfg.mfaFatigueWindowMinutes * 60 * 1_000_000)
  {
    var after, slice := Pipeline.ProcessTelemetry(cfg, baseline, mentions, st, batch), Judged(cfg, mentions, st, batch);
    Incremental.AddRowsFresh(st.rows, batch);
    JudgedUnique(cfg, mentions, st, batch);
    FatigueOnUserIff(cfg, baseline, slice, user);
    forall id ensures "MFA_FATIGUE" in Pipeline.FlagsOf(after.records, id)
                      <==> || "MFA_FATIGUE" in Pipeline.FlagsOf(st.records, id)
                           || Reported(Detected(cfg, baseline, slice), id, "MFA_FATIGUE")
    {
      StoredFlagIff(cfg, baseline, mentions, st, batch, id, "MFA_FATIGUE");
    }
    if e :| e in after.rows && e.Authentication? && e.user == user
            && "MFA_FATIGUE" in Pipeline.FlagsOf(after.records, e.id) {
      FlaggedRow(cfg, baseline, mentions, st, batch, e, "MFA_FATIGUE");
    }
  }

  /** A flagged row was stored before, or is in the slice. */
  lemma FlaggedRow(cfg: Settings, baseline: Baseline, mentions: Pipeline.Mentions, st: Pipeline.State,
                   batch: seq<RawEvent>, e: RawEvent, flag: string)
    requires 1 <= cfg.mfaFatigueThreshold && Pipeline.UniqueIds(st.rows + batch) && e in st.rows + batch
    requires 0 <= cfg.impossibleTravelWindowMinutes && Ingestion.About(st.records, st.rows)
    ensures flag in Pipeline.FlagsOf(st.records, e.id) ==> e in st.rows
    ensures Reported(Detected(cfg, baseline, Judged(cfg, mentions, st, batch)), e.id, flag) ==>
              e in Judged(cfg, mentions, st, batch)
  {
    var slice := Judged(cfg, mentions, st, batch);
    JudgedUnique(cfg, mentions, st, batch);
    Ingestion.DetectedAbout(cfg, baseline, slice);
    if flag in Pipeline.FlagsOf(st.records, e.id) {
      var o :| o in st.rows && o.id == e.id;
      Incremental.SameId(st.rows + batch, o, e);
    }
    if Reported(Detected(cfg, baseline, slice), e.id, flag) {
      var o :| o in slice && o.id == e.id;
      Incremental.SameId(st.rows + batch, o, e);
    }
  }

  /** A batch leaves a privilege escalation on an event of its slice exactly if it had one, or the slice shows one. */
  lemma EscalationStoredIff(cfg: Settings, baseline: Baseline, mentions: Pipeline.Mentions, st: Pipeline.State,
                            batch: seq<RawEvent>, c: RawEvent)
    requires 1 <= cfg.mfaFatigueThreshold && batch != [] && Pipeline.UniqueIds(st.rows + batch)
    requires 0 <= cfg.impossibleTravelWindowMinutes && c in Judged(cfg, mentions, st, batch)
    ensures var slice := Judged(cfg, mentions, st, batch);
            var records := Pipeline.ProcessTelemetry(cfg, baseline, mentions, st, batch).records;
            "PRIVILEGE_ESCALATION" in Pipeline.FlagsOf(records, c.id)
            <==> || "PRIVILEGE_ESCALATION" in Pipeline.FlagsOf(st.records, c.id)
                 || (c.Cloud? && c.privileged
                     && exists a :: a in slice && Suspect(cfg, Detected(cfg, baseline, slice), a, c))
  {
    var slice := Judged(cfg, mentions, st, batch);
    JudgedUnique(cfg, mentions, st, batch);
    StoredFlagIff(cfg, baseline, mentions, st, batch, c.id, "PRIVILEGE_ESCALATION");
    EscalationReportedIff(cfg, baseline, slice, c, 30);
    forall f: Finding | f in Detected(cfg, baseline, slice) && f.flag == "PRIVILEGE_ESCALATION" ensures f.risk == 30 {
      EscalationPoints(cfg, baseline, slice, f);
    }
  }

  lemma EscalationPoints(cfg: Settings, baseline: Baseline, events: seq<RawEvent>, f: Finding)
    requires 1 <= cfg.mfaFatigueThreshold && f in Detected(cfg, baseline, events) && f.flag == "PRIVILEGE_ESCALATION"
    ensures f.risk == 30
  {
    WhoseFlag(cfg, baseline, events, f);
    EscalationsIff(cfg.privilegedActionWindowMinutes * MINUTE, Before(cfg, baseline, events), events, events, f);
  }

  // ---- Over a whole run ---------------------------------------------------------------------------------

  /** Every stored event carries exactly the single-event flags it shows. */
  ghost predicate ExactFlags(cfg: Settings, baseline: Baseline, st: Pipeline.State) {
    forall e, flag :: e in st.rows && flag !in RELATIONAL ==>
      (flag in Pipeline.FlagsOf(st.records, e.id) <==> exists points :: Shows(cfg, baseline, e, flag, points))
  }

  lemma ReportedSingleIff(cfg: Settings, baseline: Baseline, events: seq<RawEvent>, e: RawEvent, flag: string)
    requires 1 <= cfg.mfaFatigueThreshold && Pipeline.UniqueIds(events) && e in events && flag !in RELATIONAL
    ensures Reported(Detected(cfg, baseline, events), e.id, flag)
            <==> exists points :: Shows(cfg, baseline, e, flag, points)
  {
    var all := Detected(cfg, baseline, events);
    if Reported(all, e.id, flag) {
      var f :| f in all && f.eventId == e.id && f.flag == flag;
      SingleReportedIff(cfg, baseline, events, e, flag, f.risk);
    }
    if points :| Shows(cfg, baseline, e, flag, points) {
      SingleReportedIff(cfg, baseline, events, e, flag, points);
    }
  }

  lemma BatchKeepsExact(cfg: Settings, baseline: Baseline, mentions: Pipeline.Mentions, st: Pipeline.State,
                        batch: seq<RawEvent>)
    requires 1 <= cfg.mfaFatigueThreshold && Pipeline.UniqueIds(st.rows + batch)
    requires 0 <= cfg.impossibleTravelWindowMinutes && Ingestion.About(st.records, st.rows)
    requires ExactFlags(cfg, baseline, st)
    ensures ExactFlags(cfg, baseline, Pipeline.ProcessTelemetry(cfg, baseline, mentions, st, batch))
  {
    if batch != [] {
      var after := Pipeline.ProcessTelemetry(cfg, baseline, mentions, st, batch);
      Incremental.AddRowsFresh(st.rows, batch);
      forall e, flag | e in after.rows && flag !in RELATIONAL
        ensures flag in Pipeline.FlagsOf(after.records, e.id)
                <==> exists points :: Shows(cfg, baseline, e, flag, points)
      {
        FlagStaysExact(cfg, baseline, mentions, st, batch, e, flag);
      }
    }
  }

  lemma FlagStaysExact(cfg: Settings, baseline: Baseline, mentions: Pipeline.Mentions, st: Pipeline.State,
                       batch: seq<RawEvent>, e: RawEvent, flag: string)
    requires 1 <= cfg.mfaFatigueThreshold && batch != [] && Pipeline.UniqueIds(st.rows + batch)
    requires 0 <= cfg.impossibleTravelWindowMinutes && Ingestion.About(st.records, st.rows)
    requires ExactFlags(cfg, baseline, st) && e in st.rows + batch && flag !in RELATIONAL
    ensures flag in Pipeline.FlagsOf(Pipeline.ProcessTelemetry(cfg, baseline, mentions, st, batch).records, e.id)
            <==> exists points :: Shows(cfg, baseline, e, flag, points)
  {
    var slice := Judged(cfg, mentions, st, batch);
    JudgedUnique(cfg, mentions, st, batch);
    StoredFlagIff(cfg, baseline, mentions, st, batch, e.id, flag);
    FlaggedRow(cfg, baseline, mentions, st, batch, e, flag);
    if e in slice {
      ReportedSingleIff(cfg, baseline, slice, e, flag);
    }
  }

  /** After any batches of events with distinct ids, in any order of delivery. */
  lemma {:induction false} RunsKeepExact(cfg: Settings, baseline: Baseline, mentions: Pipeline.Mentions,
                                         batches: seq<seq<RawEvent>>)
    requires 1 <= cfg.mfaFatigueThreshold && 0 <= cfg.impossibleTravelWindowMinutes
    requires Pipeline.UniqueIds(Incremental.Flatten(batches))
    ensures var st := Incremental.ProcessAll(cfg, baseline, mentions, batches);
            && st.rows == Incremental.Flatten(batches) && Ingestion.Consistent(st) && ExactFlags(cfg, baseline, st)
  {
    if batches == [] {
    } else {
      var n := |batches| - 1;
      var st := Incremental.ProcessAll(cfg, baseline, mentions, batches[..n]);
      Incremental.UniqueTake(Incremental.Flatten(batches[..n]), batches[n]);
      RunsKeepExact(cfg, baseline, mentions, batches[..n]);
      Ingestion.ProcessKeepsConsistent(cfg, baseline, mentions, st, batches[n]);
      BatchKeepsExact(cfg, baseline, mentions, st, batches[n]);
      Incremental.AddRowsFresh(st.rows, batches[n]);
    }
  }

  lemma PromptsInSlice(cfg: Settings, mentions: Pipeline.Mentions, earlier: seq<RawEvent>, batch: seq<RawEvent>,
                       s: set<RawEvent>, user: string, last: RawEvent)
    requires Pipeline.UniqueIds(earlier + batch) && 0 <= cfg.impossibleTravelWindowMinutes
    requires forall x, y :: x in earlier && y in batch ==> x.timestamp < y.timestamp
    requires Prompts(s, earlier + batch, user, cfg.mfaFatigueWindowMinutes * MINUTE) && last in s && last in batch
    ensures Prompts(s, Pipeline.Slice(cfg, mentions, earlier + batch, batch), user,
                    cfg.mfaFatigueWindowMinutes * MINUTE)
  {
    Incremental.SliceMembers(cfg, mentions, earlier, batch);
    forall e | e in s ensures e in Pipeline.Slice(cfg, mentions, earlier + batch, batch) {
      PromptInContext(cfg, mentions, earlier, batch, e, last);
    }
  }

  lemma PromptInContext(cfg: Settings, mentions: Pipeline.Mentions, earlier: seq<RawEvent>, batch: seq<RawEvent>,
                        e: RawEvent, last: RawEvent)
    requires e in earlier + batch && last in batch && forall x :: x in earlier ==> x.timestamp < last.timestamp
    requires e.Authentication? && last.Authentication? && e.user == last.user
    requires last.timestamp - e.timestamp <= cfg.mfaFatigueWindowMinutes * MINUTE
    ensures Pipeline.InContext(cfg, mentions, batch, e)
  {
    assert Pipeline.Matches(mentions, last, e);
    assert e.timestamp >= last.timestamp - Pipeline.Lookback(cfg);
    if e in batch {
      assert e.timestamp <= e.timestamp;
    } else {
      assert e.timestamp <= last.timestamp;
    }
  }

  lemma PromptsSplit(cfg: Settings, mentions: Pipeline.Mentions, earlier: seq<RawEvent>, batch: seq<RawEvent>,
                     user: string, threshold: nat)
    requires Pipeline.UniqueIds(earlier + batch) && 0 <= cfg.impossibleTravelWindowMinutes
    requires forall x, y :: x in earlier && y in batch ==> x.timestamp < y.timestamp
    ensures var window := cfg.mfaFatigueWindowMinutes * MINUTE;
            PromptsFit(earlier + batch, user, threshold, window)
            <==> || PromptsFit(earlier, user, threshold, window)
                 || PromptsFit(Pipeline.Slice(cfg, mentions, earlier + batch, batch), user, threshold, window)
  {
    var window, slice := cfg.mfaFatigueWindowMinutes * MINUTE, Pipeline.Slice(cfg, mentions, earlier + batch, batch);
    Incremental.SliceMembers(cfg, mentions, earlier, batch);
    if s :| |s| == threshold && Prompts(s, earlier + batch, user, window) {
      if last :| last in s && last in batch {
        PromptsInSlice(cfg, mentions, earlier, batch, s, user, last);
      } else {
        assert Prompts(s, earlier, user, window);
      }
    }
    if s :| |s| == threshold && Prompts(s, earlier, user, window) {
      assert Prompts(s, earlier + batch, user, window);
    }
    if s :| |s| == threshold && Prompts(s, slice, user, window) {
      assert Prompts(s, earlier + batch, user, window);
    }
  }

  lemma FatigueNextBatch(cfg: Settings, baseline: Baseline, mentions: Pipeline.Mentions, st: Pipeline.State,
                         batch: seq<RawEvent>, user: string)
    requires 1 <= cfg.mfaFatigueThreshold && 0 <= cfg.impossibleTravelWindowMinutes
    requires Pipeline.UniqueIds(st.rows + batch) && Ingestion.About(st.records, st.rows)
    requires forall x, y :: x in st.rows && y in batch ==> x.timestamp < y.timestamp
    requires UserFlagged(st, user) <==> PromptsFit(st.rows, user, cfg.mfaFatigueThreshold,
                                                   cfg.mfaFatigueWindowMinutes * 60 * 1_000_000)
    ensures UserFlagged(Pipeline.ProcessTelemetry(cfg, baseline, mentions, st, batch), user)
            <==> PromptsFit(st.rows + batch, user, cfg.mfaFatigueThreshold,
                            cfg.mfaFatigueWindowMinutes * 60 * 1_000_000)
  {
    assert cfg.mfaFatigueWindowMinutes * MINUTE == cfg.mfaFatigueWindowMinutes * 60 * 1_000_000;
    if batch == [] {
      assert st.rows + batch == st.rows;
    } else {
      FatigueStoredIff(cfg, baseline, mentions, st, batch, user);
      PromptsSplit(cfg, mentions, st.rows, batch, user, cfg.mfaFatigueThreshold);
    }
  }

  /**
   However a history is split into batches delivered in time order, a user ends up flagged for MFA
   fatigue exactly if enough of the user's denied prompts in the whole history fit in the window.
   */
  lemma {:induction false} FatigueRunIff(cfg: Settings, baseline: Baseline, mentions: Pipeline.Mentions,
                                         batches: seq<seq<RawEvent>>, user: string)
    requires 1 <= cfg.mfaFatigueThreshold && 0 <= cfg.impossibleTravelWindowMinutes && Incremental.InOrder(batches)
    ensures UserFlagged(Incremental.ProcessAll(cfg, baseline, mentions, batches), user)
            <==> PromptsFit(Incremental.Flatten(batches), user, cfg.mfaFatigueThreshold,
                            cfg.mfaFatigueWindowMinutes * 60 * 1_000_000)
  {
    if batches == [] {
      NoPrompts(user, cfg.mfaFatigueThreshold, cfg.mfaFatigueWindowMinutes * 60 * 1_000_000);
    } else {
      var n := |batches| - 1;
      var st := BeforeLast(cfg, baseline, mentions, batches);
      FatigueRunIff(cfg, baseline, mentions, batches[..n], user);
      FatigueNextBatch(cfg, baseline, mentions, st, batches[n], user);
    }
  }

  /** The state the last batch of an in-order delivery meets. */
  lemma BeforeLast(cfg: Settings, baseline: Baseline, mentions: Pipeline.Mentions, batches: seq<seq<RawEvent>>)
    returns (st: Pipeline.State)
    requires 1 <= cfg.mfaFatigueThreshold && 0 <= cfg.impossibleTravelWindowMinutes
    requires batches != [] && Incremental.InOrder(batches)
    ensures var n := |batches| - 1;
            && st == Incremental.ProcessAll(cfg, baseline, mentions, batches[..n])
            && Incremental.ProcessAll(cfg, baseline, mentions, batches)
               == Pipeline.ProcessTelemetry(cfg, baseline, mentions, st, batches[n])
            && Incremental.InOrder(batches[..n]) && st.rows == Incremental.Flatten(batches[..n])
            && Incremental.Flatten(batches) == st.rows + batches[n] && Pipeline.UniqueIds(st.rows + batches[n])
            && Ingestion.About(st.records, st.rows)
            && forall x, y :: x in st.rows && y in batches[n] ==> x.timestamp < y.timestamp
  {
    var n := |batches| - 1;
    Incremental.RunAgrees(cfg, baseline, mentions, batches[..n]);
    st := Incremental.ProcessAll(cfg, baseline, mentions, batches[..n]);
    forall x, y | x in st.rows && y in batches[n] ensures x.timestamp < y.timestamp {
      assert TimeOf(x) < TimeOf(y);
    }
  }

  lemma NoPrompts(user: string, threshold: nat, window: int)
    requires 1 <= threshold
    ensures !PromptsFit([], user, threshold, window)
  {
    if s :| |s| == threshold && Prompts(s, [], user, window) {
      var e := Member(s);
    }
  }

  lemma FlaggedIsTravel(cfg: Settings, events: seq<RawEvent>, id: string)
    requires Pipeline.UniqueIds(events)
    ensures Incremental.Flagged(cfg.impossibleTravelWindowMinutes * MINUTE, Logins(events), id)
            <==> exists i: nat, j: nat ::
                   i < |events| && j < |events| && Travelled(cfg, events, i, j) && events[j].id == id
  {
    var w, logins := cfg.impossibleTravelWindowMinutes * MINUTE, Logins(events);
    if p, q :| 0 <= p < q < |logins| && logins[q].id == id && Conflict(w, logins[p], logins[q]) {
      var i := LoginAt(events, p);
      var j := LoginAt(events, q);
      ConflictIsTravel(cfg, events, p, q, i, j);
    }
    if i: nat, j: nat :| i < |events| && j < |events| && Travelled(cfg, events, i, j) && events[j].id == id {
      var p := LoginPosition(events, i);
      var q := LoginPosition(events, j);
      ConflictIsTravel(cfg, events, p, q, i, j);
    }
  }

  /** And a login ends up with 30 points for impossible travel exactly if one has travelled to it in that history. */
  lemma TravelRunIff(cfg: Settings, baseline: Baseline, mentions: Pipeline.Mentions, batches: seq<seq<RawEvent>>,
                     id: string)
    requires 1 <= cfg.mfaFatigueThreshold && 0 <= cfg.impossibleTravelWindowMinutes && Incremental.InOrder(batches)
    ensures var history := Incremental.Flatten(batches);
            Incremental.LaterLogin(Incremental.ProcessAll(cfg, baseline, mentions, batches).records, id)
            <==> exists i: nat, j: nat ::
                   i < |history| && j < |history| && Travelled(cfg, history, i, j) && history[j].id == id
  {
    var st := Incremental.ProcessAll(cfg, baseline, mentions, batches);
    Incremental.RunAgrees(cfg, baseline, mentions, batches);
    Incremental.UniqueFirst(st.records, id);
    FlaggedIsTravel(cfg, Incremental.Flatten(batches), id);
  }
}
