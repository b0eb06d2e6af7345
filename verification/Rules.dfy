/**
 The remaining detectors and the whole detection run
 (backend/app/services/detection_engine.py, lines 154-333).
 */
module Rules {
  import opened Base
  import opened Config
  import opened Detection
  import opened Fatigue

  type Baseline = map<string, set<string>>

  const MALICIOUS_IPS := {"203.0.113.50", "198.51.100.77", "192.0.2.91"}
  const DOWNLOADS := {"downloadobject", "getobject", "download", "export"}

  function Simple(event: RawEvent, rule: string, version: string, flag: string, risk: int): Finding {
    Finding(event.id, rule, version, flag, risk, [])
  }

  // ---- New devices --------------------------------------------------------------------------

  predicate UntrustedDevice(baseline: Baseline, event: RawEvent) {
    event.Authentication?
    && event.deviceId !in (if event.user in baseline then baseline[event.user] else {})
  }

  function NewDevices(baseline: Baseline, events: seq<RawEvent>): seq<Finding> {
    if events == [] then []
    else
      var n := |events| - 1;
      NewDevices(baseline, events[..n])
      + if UntrustedDevice(baseline, events[n])
        then [Simple(events[n], "AUTH-003", "1.1", "NEW_DEVICE", 12)] else []
  }

  lemma NewDevicesNext(baseline: Baseline, events: seq<RawEvent>, n: nat)
    requires n < |events|
    ensures NewDevices(baseline, events[..n + 1])
            == NewDevices(baseline, events[..n])
               + if UntrustedDevice(baseline, events[n])
                 then [Simple(events[n], "AUTH-003", "1.1", "NEW_DEVICE", 12)] else []
  {
    assert events[..n + 1][..n] == events[..n];
  }

  method DetectNewDevices(baseline: Baseline, events: seq<RawEvent>) returns (results: seq<Finding>)
    ensures results == NewDevices(baseline, SortBy(events, TimeOf))
  {
    var sorted := SortBy(events, TimeOf);
    results := [];
    for n := 0 to |sorted|
      invariant results == NewDevices(baseline, sorted[..n])
    {
      NewDevicesNext(baseline, sorted, n);
      if UntrustedDevice(baseline, sorted[n]) {
        results := results + [Simple(sorted[n], "AUTH-003", "1.1", "NEW_DEVICE", 12)];
      }
    }
    assert sorted[..|sorted|] == sorted;
  }

  // ---- Rules on a single event --------------------------------------------------------------

  predicate SuspiciousPowerShell(e: RawEvent) {
    && e.Endpoint?
    && Contains(Lower(e.processName), "powershell")
    && (|| Contains(Lower(e.commandLine), "-encodedcommand")
        || Contains(Lower(e.commandLine), "iex")
        || Contains(Lower(e.commandLine), "downloadstring"))
  }

  function EventRules(cfg: Settings, e: RawEvent): seq<Finding> {
    (if SuspiciousPowerShell(e) then [Simple(e, "ENDP-001", "1.0", "SUSPICIOUS_POWERSHELL", 30)] else [])
    + (if e.Endpoint? && Upper(e.eventType) == "CREDENTIAL_STORE_ACCESS"
       then [Simple(e, "ENDP-002", "1.0", "CREDENTIAL_ACCESS", 30)] else [])
    + (if e.Endpoint? && Upper(e.eventType) == "RUN_KEY_MODIFICATION"
       then [Simple(e, "ENDP-003", "1.0", "PERSISTENCE", 25)] else [])
    + (if e.Network? && e.destinationIp in MALICIOUS_IPS
       then [Simple(e, "NET-001", "1.0", "KNOWN_MALICIOUS_IP", 35)] else [])
    + (if e.Network? && e.bytesSent >= cfg.unusualEgressBytes
       then [Simple(e, "NET-002", "1.0", "UNUSUAL_EGRESS", 25)] else [])
    + (if e.Network? && e.bytesSent >= cfg.unusualEgressBytes * 2
       then [Simple(e, "NET-003", "1.1", "DATA_EXFILTRATION", 30)] else [])
    + (if e.Cloud? && e.privileged then [Simple(e, "CLOUD-001", "1.0", "UNUSUAL_ADMIN_ACTION", 20)] else [])
    + (if e.Cloud? && e.sensitiveResource
       then [Simple(e, "CLOUD-002", "1.0", "SENSITIVE_RESOURCE_ACCESS", 20)] else [])
    + (if e.Cloud? && e.sensitiveResource && Lower(e.action) in DOWNLOADS
       then [Simple(e, "CLOUD-003", "1.0", "MASS_DOWNLOAD", 20)] else [])
  }

  function AllEventRules(cfg: Settings, events: seq<RawEvent>): seq<Finding> {
    if events == [] then []
    else
      var n := |events| - 1;
      AllEventRules(cfg, events[..n]) + EventRules(cfg, events[n])
  }

  // ---- Privileged action after a suspicious login -----------------------------------------------

  predicate Anomalous(findings: seq<Finding>, id: string) {
    exists f :: f in findings && f.eventId == id && f.flag in {TRAVEL_FLAG, "NEW_DEVICE"}
  }

  /** `auth` is a suspicious successful login that may have led to the privileged `cloud` action. */
  predicate Precedes(window: int, findings: seq<Finding>, auth: RawEvent, cloud: RawEvent) {
    && IsLogin(auth) && Anomalous(findings, auth.id)
    && cloud.Cloud? && auth.user == cloud.user
    && 0 <= cloud.timestamp - auth.timestamp <= window
  }

  function PriorLogins(window: int, findings: seq<Finding>, events: seq<RawEvent>, cloud: RawEvent): seq<RawEvent> {
    Filter(events, auth => Precedes(window, findings, auth, cloud))
  }

  function IdsOf(events: seq<RawEvent>): seq<string> {
    seq(|events|, i requires 0 <= i < |events| => events[i].id)
  }

  function PrivilegeFindings(window: int, findings: seq<Finding>, events: seq<RawEvent>,
                             clouds: seq<RawEvent>): seq<Finding> {
    if clouds == [] then []
    else
      var n := |clouds| - 1;
      var prior := PriorLogins(window, findings, events, clouds[n]);
      PrivilegeFindings(window, findings, events, clouds[..n])
      + if clouds[n].Cloud? && clouds[n].privileged && prior != []
        then [Finding(clouds[n].id, "CLOUD-004", "1.1", "PRIVILEGE_ESCALATION", 30, IdsOf(prior))] else []
  }

  method DetectTemporalPrivilege(window: int, events: seq<RawEvent>, findings: seq<Finding>)
    returns (results: seq<Finding>)
    ensures results == PrivilegeFindings(window, findings, events, events)
  {
    results := [];
    for n := 0 to |events|
      invariant results == PrivilegeFindings(window, findings, events, events[..n])
    {
      assert events[..n + 1][..n] == events[..n];
      if events[n].Cloud? && events[n].privileged {
        var prior := PriorLogins(window, findings, events, events[n]);
        if prior != [] {
          results := results
            + [Finding(events[n].id, "CLOUD-004", "1.1", "PRIVILEGE_ESCALATION", 30, IdsOf(prior))];
        }
      }
    }
    assert events[..|events|] == events;
  }

  // ---- The whole run ------------------------------------------------------------------------

  /** Everything but impossible travel that does not look at earlier findings. */
  function OtherFindings(cfg: Settings, baseline: Baseline, events: seq<RawEvent>): seq<Finding>
    requires 1 <= cfg.mfaFatigueThreshold
  {
    DenialsAreAuthentications(events);
    AllFindings(cfg.mfaFatigueThreshold, cfg.mfaFatigueWindowMinutes * MINUTE,
                Denials(events), UserOrder(Denials(events)))
    + NewDevices(baseline, SortBy(events, TimeOf))
    + AllEventRules(cfg, events)
  }

  lemma DenialsAreAuthentications(events: seq<RawEvent>)
    ensures forall e :: e in Denials(events) ==> e.Authentication?
  {
  }

  /** The findings of one detection run, in the order they are reported. */
  function Detected(cfg: Settings, baseline: Baseline, events: seq<RawEvent>): seq<Finding>
    requires 1 <= cfg.mfaFatigueThreshold
  {
    var found := TravelFindings(cfg.impossibleTravelWindowMinutes * MINUTE, Logins(events))
                 + OtherFindings(cfg, baseline, events);
    found + PrivilegeFindings(cfg.privilegedActionWindowMinutes * MINUTE, found, events, events)
  }

  method RunDetection(cfg: Settings, baseline: Baseline, events: seq<RawEvent>) returns (results: seq<Finding>)
    requires 1 <= cfg.mfaFatigueThreshold
    ensures results == Detected(cfg, baseline, events)
  {
    var travel := DetectImpossibleTravel(cfg.impossibleTravelWindowMinutes * MINUTE, events);
    var others := RunOtherDetectors(cfg, baseline, events);
    results := travel + others;
    var escalations := DetectTemporalPrivilege(cfg.privilegedActionWindowMinutes * MINUTE, events, results);
    results := results + escalations;
  }

  method RunOtherDetectors(cfg: Settings, baseline: Baseline, events: seq<RawEvent>) returns (results: seq<Finding>)
    requires 1 <= cfg.mfaFatigueThreshold
    ensures results == OtherFindings(cfg, baseline, events)
  {
    var fatigue := DetectMfaFatigue(cfg.mfaFatigueThreshold, cfg.mfaFatigueWindowMinutes * MINUTE, events);
    var devices := DetectNewDevices(baseline, events);
    var local := ApplyEventRules(cfg, events);
    results := fatigue + devices + local;
  }

  method ApplyEventRules(cfg: Settings, events: seq<RawEvent>) returns (results: seq<Finding>)
    ensures results == AllEventRules(cfg, events)
  {
    results := [];
    for n := 0 to |events|
      invariant results == AllEventRules(cfg, events[..n])
    {
      assert events[..n + 1][..n] == events[..n];
      results := results + EventRules(cfg, events[n]);
    }
    assert events[..|events|] == events;
  }

  // ---- What later stages rely on --------------------------------------------------------------

  /** Findings about known events, with positive points, from a rule other than impossible travel. */
  ghost predicate Others(findings: seq<Finding>, events: seq<RawEvent>) {
    forall f :: f in findings ==>
      f.rule != TRAVEL_RULE && f.risk > 0 && exists e :: e in events && e.id == f.eventId
  }

  lemma {:induction false} NewDevicesAreOthers(baseline: Baseline, events: seq<RawEvent>)
    ensures Others(NewDevices(baseline, events), events)
  {
    if events == [] {
    } else {
      var n := |events| - 1;
      NewDevicesAreOthers(baseline, events[..n]);
      assert events[n] in events;
      assert forall e :: e in events[..n] ==> e in events;
    }
  }

  lemma EventRuleFinding(cfg: Settings, e: RawEvent, f: Finding)
    requires f in EventRules(cfg, e)
    ensures f.rule != TRAVEL_RULE && f.risk > 0 && f.eventId == e.id
  {
  }

  lemma {:induction false} EventRulesAreOthers(cfg: Settings, events: seq<RawEvent>)
    ensures Others(AllEventRules(cfg, events), events)
  {
    if events == [] {
    } else {
      var n := |events| - 1;
      EventRulesAreOthers(cfg, events[..n]);
      OthersWiden(AllEventRules(cfg, events[..n]), events[..n], events);
      forall f | f in AllEventRules(cfg, events)
        ensures f.rule != TRAVEL_RULE && f.risk > 0 && exists e :: e in events && e.id == f.eventId
      {
        if f !in AllEventRules(cfg, events[..n]) {
          EventRuleFinding(cfg, events[n], f);
          assert events[n] in events;
        }
      }
    }
  }

  lemma {:induction false} PrivilegeFindingsAreOthers(window: int, findings: seq<Finding>, events: seq<RawEvent>,
                                                      clouds: seq<RawEvent>)
    ensures Others(PrivilegeFindings(window, findings, events, clouds), clouds)
  {
    if clouds == [] {
    } else {
      var n := |clouds| - 1;
      PrivilegeFindingsAreOthers(window, findings, events, clouds[..n]);
      assert clouds[n] in clouds;
      assert forall e :: e in clouds[..n] ==> e in clouds;
    }
  }

  lemma BurstFindingsAreOthers(group: seq<RawEvent>)
    ensures Others(BurstFindings(group), group)
  {
    forall f | f in BurstFindings(group)
      ensures f.rule != TRAVEL_RULE && f.risk > 0 && exists e :: e in group && e.id == f.eventId
    {
      var i :| 0 <= i < |group| && BurstFindings(group)[i] == f;
      assert group[i] in group;
    }
  }

  lemma UserFindingsAreOthers(threshold: nat, window: int, denied: seq<RawEvent>)
    requires 1 <= threshold
    ensures Others(UserFindings(threshold, window, denied), denied)
  {
    FirstBurstRange(threshold, window, denied, threshold - 1);
    var b := FirstBurst(threshold, window, denied, threshold - 1);
    if b.Some? {
      var group := denied[b.value - threshold + 1..b.value + 1];
      BurstFindingsAreOthers(group);
      OthersWiden(BurstFindings(group), group, denied);
    }
  }

  lemma {:induction false} FatigueFindingsAreOthers(threshold: nat, window: int, denials: seq<RawEvent>,
                                                    users: seq<string>)
    requires 1 <= threshold
    ensures Others(AllFindings(threshold, window, denials, users), denials)
  {
    if users == [] {
    } else {
      var n := |users| - 1;
      FatigueFindingsAreOthers(threshold, window, denials, users[..n]);
      UserFindingsAreOthers(threshold, window, ByUser(denials, users[n]));
    }
  }

  lemma OthersWiden(findings: seq<Finding>, some: seq<RawEvent>, events: seq<RawEvent>)
    requires Others(findings, some) && forall e :: e in some ==> e in events
    ensures Others(findings, events)
  {
  }

  /** Only the travel detector reports under its rule id; every finding is about a given event. */
  lemma RestAreOthers(cfg: Settings, baseline: Baseline, events: seq<RawEvent>) returns (rest: seq<Finding>)
    requires 1 <= cfg.mfaFatigueThreshold
    ensures Detected(cfg, baseline, events)
         == TravelFindings(cfg.impossibleTravelWindowMinutes * MINUTE, Logins(events)) + rest
    ensures Others(rest, events)
  {
    var travel := TravelFindings(cfg.impossibleTravelWindowMinutes * MINUTE, Logins(events));
    var other := OtherFindings(cfg, baseline, events);
    var w := cfg.privilegedActionWindowMinutes * MINUTE;
    var privilege := PrivilegeFindings(w, travel + other, events, events);
    PrivilegeFindingsAreOthers(w, travel + other, events, events);
    OtherFindingsAreOthers(cfg, baseline, events);
    rest := other + privilege;
    OthersTogether(other, privilege, events);
    Reassociate(travel, other, privilege);
  }

  lemma OthersTogether(some: seq<Finding>, more: seq<Finding>, events: seq<RawEvent>)
    requires Others(some, events) && Others(more, events)
    ensures Others(some + more, events)
  {
  }

  lemma Reassociate<T>(a: seq<T>, b: seq<T>, c: seq<T>)
    ensures a + b + c == a + (b + c)
  {
  }

  lemma OtherFindingsAreOthers(cfg: Settings, baseline: Baseline, events: seq<RawEvent>)
    requires 1 <= cfg.mfaFatigueThreshold
    ensures Others(OtherFindings(cfg, baseline, events), events)
  {
    var sorted := SortBy(events, TimeOf);
    SortByMembers(events, TimeOf);
    DenialsAreAuthentications(events);
    var k, w := cfg.mfaFatigueThreshold, cfg.mfaFatigueWindowMinutes * MINUTE;
    FatigueFindingsAreOthers(k, w, Denials(events), UserOrder(Denials(events)));
    OthersWiden(AllFindings(k, w, Denials(events), UserOrder(Denials(events))), Denials(events), events);
    NewDevicesAreOthers(baseline, sorted);
    OthersWiden(NewDevices(baseline, sorted), sorted, events);
    EventRulesAreOthers(cfg, events);
  }

  // ---- What certain events are bound to report ---------------------------------------------------

  /** Every other rule than impossible travel scores. */
  lemma OtherRulesScore(cfg: Settings, baseline: Baseline, events: seq<RawEvent>, f: Finding)
    requires 1 <= cfg.mfaFatigueThreshold && f in Detected(cfg, baseline, events) && f.rule != TRAVEL_RULE
    ensures f.risk > 0
  {
    var rest := RestAreOthers(cfg, baseline, events);
    TravelRuleOnly(cfg.impossibleTravelWindowMinutes * MINUTE, Logins(events));
  }

  lemma {:induction false} TravelRuleOnly(window: int, logins: seq<RawEvent>)
    ensures forall f :: f in TravelFindings(window, logins) ==> f.rule == TRAVEL_RULE
  {
    if logins == [] {
    } else {
      TravelRuleOnly(window, logins[..|logins| - 1]);
    }
  }

  lemma {:induction false} EventRulesCollected(cfg: Settings, events: seq<RawEvent>, f: Finding)
    ensures f in AllEventRules(cfg, events) <==> exists e :: e in events && f in EventRules(cfg, e)
  {
    if events == [] {
    } else {
      var n := |events| - 1;
      EventRulesCollected(cfg, events[..n], f);
      assert events == events[..n] + [events[n]];
    }
  }

  lemma {:induction false} NewDevicesCollected(baseline: Baseline, events: seq<RawEvent>, e: RawEvent)
    requires e in events && UntrustedDevice(baseline, e)
    ensures Simple(e, "AUTH-003", "1.1", "NEW_DEVICE", 12) in NewDevices(baseline, events)
  {
    var n := |events| - 1;
    assert events == events[..n] + [events[n]];
    if e in events[..n] {
      NewDevicesCollected(baseline, events[..n], e);
    }
  }

  lemma NewDeviceReported(cfg: Settings, baseline: Baseline, events: seq<RawEvent>, e: RawEvent)
    requires 1 <= cfg.mfaFatigueThreshold && e in events && UntrustedDevice(baseline, e)
    ensures Simple(e, "AUTH-003", "1.1", "NEW_DEVICE", 12) in Detected(cfg, baseline, events)
  {
    SortByMembers(events, TimeOf);
    NewDevicesCollected(baseline, SortBy(events, TimeOf), e);
  }

  /** Telemetry of hosts and of the network, which no rule on several events looks at. */
  predicate Local(e: RawEvent) {
    e.Endpoint? || e.Network?
  }

  lemma {:induction false} LocalNoDevices(baseline: Baseline, events: seq<RawEvent>)
    requires forall e :: e in events ==> Local(e)
    ensures NewDevices(baseline, events) == []
  {
    if events == [] {
    } else {
      var n := |events| - 1;
      assert events == events[..n] + [events[n]] && events[n] in events;
      LocalNoDevices(baseline, events[..n]);
    }
  }

  lemma {:induction false} LocalNoPrivilege(window: int, findings: seq<Finding>, events: seq<RawEvent>,
                                            clouds: seq<RawEvent>)
    requires forall e :: e in clouds ==> Local(e)
    ensures PrivilegeFindings(window, findings, events, clouds) == []
  {
    if clouds == [] {
    } else {
      var n := |clouds| - 1;
      assert clouds == clouds[..n] + [clouds[n]] && clouds[n] in clouds;
      LocalNoPrivilege(window, findings, events, clouds[..n]);
    }
  }

  lemma LocalNoLogins(cfg: Settings, events: seq<RawEvent>)
    requires forall e :: e in events ==> Local(e)
    ensures Logins(events) == [] && Denials(events) == []
  {
    SortByMembers(events, TimeOf);
    FilterNone(events, IsLogin);
    FilterNone(SortBy(events, TimeOf), IsDenial);
  }

  lemma LocalOthers(cfg: Settings, baseline: Baseline, events: seq<RawEvent>)
    requires 1 <= cfg.mfaFatigueThreshold && forall e :: e in events ==> Local(e)
    ensures OtherFindings(cfg, baseline, events) == AllEventRules(cfg, events)
  {
    SortByMembers(events, TimeOf);
    LocalNoLogins(cfg, events);
    LocalNoDevices(baseline, SortBy(events, TimeOf));
  }

  /** On such telemetry alone, a run reports what the rules on single events report. */
  lemma LocalDetected(cfg: Settings, baseline: Baseline, events: seq<RawEvent>)
    requires 1 <= cfg.mfaFatigueThreshold && forall e :: e in events ==> Local(e)
    ensures Detected(cfg, baseline, events) == AllEventRules(cfg, events)
  {
    var found := TravelFindings(cfg.impossibleTravelWindowMinutes * MINUTE, Logins(events))
                 + OtherFindings(cfg, baseline, events);
    LocalNoLogins(cfg, events);
    LocalOthers(cfg, baseline, events);
    LocalNoPrivilege(cfg.privilegedActionWindowMinutes * MINUTE, found, events, events);
    assert [] + AllEventRules(cfg, events) + [] == AllEventRules(cfg, events);
  }
}
