/**
 What a finding cites: its rule, the version of the rule, its points and the events it rests on
 (backend/app/services/detection_engine.py, lines 20-78, 99-121, 139-149, 154-284 and 306-319).
 */
module Citations {
  import opened Base
  import opened Config
  import opened Detection
  import opened Fatigue
  import opened Rules
  import opened Reports
  import Pipeline
  import Incremental

  // ---- Impossible travel -------------------------------------------------------------------------------

  /** The two findings about a login and the latest one that has travelled to it cite each other. */
  ghost predicate CitesTravel(cfg: Settings, events: seq<RawEvent>, i: nat, j: nat, f: Finding) {
    && LatestTravel(cfg, events, i, j)
    && (|| f == Finding(events[i].id, "AUTH-001", "1.1", "IMPOSSIBLE_TRAVEL", 0, [events[j].id])
        || f == Finding(events[j].id, "AUTH-001", "1.1", "IMPOSSIBLE_TRAVEL", 30, [events[i].id]))
  }

  lemma PairCites(window: int, logins: seq<RawEvent>, p: nat, q: nat, f: Finding)
    requires Partner(window, logins, p, q)
    ensures InPair(window, logins, q, f)
            <==> || f == Finding(logins[p].id, "AUTH-001", "1.1", "IMPOSSIBLE_TRAVEL", 0, [logins[q].id])
                 || f == Finding(logins[q].id, "AUTH-001", "1.1", "IMPOSSIBLE_TRAVEL", 30, [logins[p].id])
  {
    OnlyPartner(window, logins, p, q);
    var pair := TravelPair(window, logins[..q], logins[q]);
    assert pair[0] in pair && pair[1] in pair;
  }

  /** Exactly those findings of impossible travel are reported. */
  lemma TravelIff(cfg: Settings, baseline: Baseline, events: seq<RawEvent>, f: Finding)
    requires 1 <= cfg.mfaFatigueThreshold && Pipeline.UniqueIds(events) && f.flag == "IMPOSSIBLE_TRAVEL"
    ensures f in Detected(cfg, baseline, events) <==> exists i: nat, j: nat :: CitesTravel(cfg, events, i, j, f)
  {
    var w, logins := cfg.impossibleTravelWindowMinutes * MINUTE, Logins(events);
    WhoseFlag(cfg, baseline, events, f);
    TravelCollected(w, logins, f);
    if q: nat :| q < |logins| && InPair(w, logins, q, f) {
      var previous := LatestConflict(w, logins[..q], logins[q]).value;
      PartnerIs(w, logins, q, previous);
      var p: nat :| Partner(w, logins, p, q) && logins[p] == previous;
      PairCites(w, logins, p, q, f);
      var i := LoginAt(events, p);
      var j := LoginAt(events, q);
      PartnerIsLatest(cfg, events, p, q, i, j);
      assert CitesTravel(cfg, events, i, j, f);
    }
    if i: nat, j: nat :| CitesTravel(cfg, events, i, j, f) {
      var p := LoginPosition(events, i);
      var q := LoginPosition(events, j);
      PartnerIsLatest(cfg, events, p, q, i, j);
      PairCites(w, logins, p, q, f);
    }
  }

  // ---- MFA fatigue ---------------------------------------------------------------------------------------

  /** The finding cites as many prompts as the threshold says, all within the window, its own among them. */
  ghost predicate CitesPrompts(cfg: Settings, events: seq<RawEvent>, user: string, s: set<RawEvent>, f: Finding) {
    && |s| == cfg.mfaFatigueThreshold && Prompts(s, events, user, cfg.mfaFatigueWindowMinutes * 60 * 1_000_000)
    && f.rule == "AUTH-002" && f.version == "1.1" && f.eventId in f.evidence && |f.evidence| == |s|
    && (forall id :: id in f.evidence <==> exists e :: e in s && e.id == id)
    && f.risk == (if f.eventId == f.evidence[|f.evidence| - 1] then 7 else 6)
  }

  lemma {:induction false} SomeUser(threshold: nat, window: int, denials: seq<RawEvent>, users: seq<string>, f: Finding)
    returns (user: string)
    requires 1 <= threshold && f in AllFindings(threshold, window, denials, users)
    ensures f in UserFindings(threshold, window, ByUser(denials, user))
  {
    var n := |users| - 1;
    if f in AllFindings(threshold, window, denials, users[..n]) {
      user := SomeUser(threshold, window, denials, users[..n], f);
    } else {
      user := users[n];
    }
  }

  lemma {:induction false} Distinct(group: seq<RawEvent>) returns (s: set<RawEvent>)
    requires Pipeline.UniqueIds(group)
    ensures |s| == |group| && forall e :: e in s <==> e in group
  {
    if group == [] {
      s := {};
    } else {
      var n := |group| - 1;
      LastIsNew(group);
      var front := Distinct(group[..n]);
      s := front + {group[n]};
    }
  }

  lemma BurstCites(group: seq<RawEvent>, f: Finding, k: nat)
    requires Pipeline.UniqueIds(group) && k < |group| && BurstFindings(group)[k] == f
    ensures f.rule == "AUTH-002" && f.version == "1.1" && f.eventId in f.evidence && |f.evidence| == |group|
    ensures forall id :: id in f.evidence <==> exists e :: e in group && e.id == id
    ensures f.risk == (if f.eventId == f.evidence[|f.evidence| - 1] then 7 else 6)
  {
    assert f.evidence[k] == f.eventId;
    forall id ensures id in f.evidence <==> exists e :: e in group && e.id == id {
      if id in f.evidence {
        var x :| 0 <= x < |group| && f.evidence[x] == id;
        assert group[x] in group;
      }
      if e :| e in group && e.id == id {
        var x :| 0 <= x < |group| && group[x] == e;
        assert f.evidence[x] == id;
      }
    }
  }

  lemma RunFits(threshold: nat, window: int, denied: seq<RawEvent>, index: int)
    requires Sorted(denied, TimeOf) && 1 <= threshold <= index + 1 <= |denied|
    requires FitsAt(threshold, window, denied, index)
    ensures var group := denied[index - threshold + 1..index + 1];
            forall e, f :: e in group && f in group ==> f.timestamp - e.timestamp <= window
  {
    var lo := index - threshold + 1;
    var group := denied[lo..index + 1];
    forall e, f | e in group && f in group ensures f.timestamp - e.timestamp <= window {
      var x :| 0 <= x < |group| && group[x] == e;
      var y :| 0 <= y < |group| && group[y] == f;
      SortedAt(denied, TimeOf, lo, lo + x);
      SortedAt(denied, TimeOf, lo + y, index);
    }
  }

  lemma SliceUnique(events: seq<RawEvent>, lo: nat, hi: nat)
    requires Pipeline.UniqueIds(events) && lo <= hi <= |events|
    ensures Pipeline.UniqueIds(events[lo..hi])
  {
  }

  lemma GroupCites(cfg: Settings, events: seq<RawEvent>, user: string, group: seq<RawEvent>, f: Finding, k: nat)
    returns (s: set<RawEvent>)
    requires Pipeline.UniqueIds(group) && |group| == cfg.mfaFatigueThreshold
    requires k < |group| && BurstFindings(group)[k] == f
    requires forall e :: e in group ==> e in events && e.Authentication? && e.mfaDenied && e.user == user
    requires forall e, o :: e in group && o in group ==>
               o.timestamp - e.timestamp <= cfg.mfaFatigueWindowMinutes * 60 * 1_000_000
    ensures CitesPrompts(cfg, events, user, s, f)
  {
    s := Distinct(group);
    BurstCites(group, f, k);
    forall id ensures id in f.evidence <==> exists e :: e in s && e.id == id {
      assert id in f.evidence <==> exists e :: e in group && e.id == id;
    }
  }

  /** The prompts whose burst has led to the finding. */
  ghost predicate BurstAt(threshold: nat, window: int, denied: seq<RawEvent>, group: seq<RawEvent>) {
    && |group| == threshold && Pipeline.UniqueIds(group) && (forall e :: e in group ==> e in denied)
    && forall e, o :: e in group && o in group ==> o.timestamp - e.timestamp <= window
  }

  lemma BurstIndex(threshold: nat, window: int, denied: seq<RawEvent>) returns (index: int)
    requires 1 <= threshold && UserFindings(threshold, window, denied) != []
    ensures threshold <= index + 1 <= |denied| && FitsAt(threshold, window, denied, index)
    ensures UserFindings(threshold, window, denied) == BurstFindings(denied[index - threshold + 1..index + 1])
  {
    FirstBurstRange(threshold, window, denied, threshold - 1);
    index := FirstBurst(threshold, window, denied, threshold - 1).value;
  }

  lemma BurstOf(threshold: nat, window: int, denied: seq<RawEvent>) returns (group: seq<RawEvent>)
    requires 1 <= threshold && Sorted(denied, TimeOf) && Pipeline.UniqueIds(denied)
    requires UserFindings(threshold, window, denied) != []
    ensures BurstAt(threshold, window, denied, group) && UserFindings(threshold, window, denied) == BurstFindings(group)
  {
    var index := BurstIndex(threshold, window, denied);
    group := denied[index - threshold + 1..index + 1];
    RunFits(threshold, window, denied, index);
    SliceUnique(denied, index - threshold + 1, index + 1);
  }

  lemma PositionOf<T>(s: seq<T>, x: T) returns (k: nat)
    requires x in s
    ensures k < |s| && s[k] == x
  {
    k :| k < |s| && s[k] == x;
  }

  lemma MinutesAre(minutes: int)
    ensures minutes * MINUTE == minutes * 60 * 1_000_000
  {
  }

  lemma UserCites(cfg: Settings, events: seq<RawEvent>, user: string, f: Finding) returns (s: set<RawEvent>)
    requires 1 <= cfg.mfaFatigueThreshold && Pipeline.UniqueIds(events)
    requires f in UserFindings(cfg.mfaFatigueThreshold, cfg.mfaFatigueWindowMinutes * MINUTE, DeniedOf(events, user))
    ensures CitesPrompts(cfg, events, user, s, f)
  {
    MinutesAre(cfg.mfaFatigueWindowMinutes);
    DeniedOfIs(events, user);
    var group := BurstOf(cfg.mfaFatigueThreshold, cfg.mfaFatigueWindowMinutes * MINUTE, DeniedOf(events, user));
    var k := PositionOf(BurstFindings(group), f);
    s := GroupCites(cfg, events, user, group, f, k);
  }

  /** A finding of MFA fatigue cites prompts that do exhaust the user; the last of them gives it 7 points, not 6. */
  lemma PromptsCited(cfg: Settings, baseline: Baseline, events: seq<RawEvent>, f: Finding)
    returns (user: string, s: set<RawEvent>)
    requires 1 <= cfg.mfaFatigueThreshold && Pipeline.UniqueIds(events)
    requires f in Detected(cfg, baseline, events) && f.flag == "MFA_FATIGUE"
    ensures CitesPrompts(cfg, events, user, s, f)
  {
    WhoseFlag(cfg, baseline, events, f);
    DenialsAreAuthentications(events);
    user := SomeUser(cfg.mfaFatigueThreshold, cfg.mfaFatigueWindowMinutes * MINUTE, Denials(events),
                     UserOrder(Denials(events)), f);
    s := UserCites(cfg, events, user, f);
  }

  // ---- Privilege escalation ------------------------------------------------------------------------------

  /** The finding cites all logins that may have led to the action. */
  ghost predicate CitesLogins(cfg: Settings, events: seq<RawEvent>, found: seq<Finding>, c: RawEvent, f: Finding) {
    && c in events && c.Cloud? && c.privileged && f.eventId == c.id
    && f.rule == "CLOUD-004" && f.version == "1.1" && f.risk == 30
    && (forall id :: id in f.evidence <==> exists a :: a in events && Suspect(cfg, found, a, c) && a.id == id)
  }

  lemma IdsMembers(events: seq<RawEvent>, id: string)
    ensures id in IdsOf(events) <==> exists e :: e in events && e.id == id
  {
    if id in IdsOf(events) {
      var n :| 0 <= n < |events| && IdsOf(events)[n] == id;
      assert events[n] in events;
    }
    if e :| e in events && e.id == id {
      var n :| 0 <= n < |events| && events[n] == e;
      assert IdsOf(events)[n] == id;
    }
  }

  lemma LoginsCited(cfg: Settings, baseline: Baseline, events: seq<RawEvent>, f: Finding) returns (c: RawEvent)
    requires 1 <= cfg.mfaFatigueThreshold
    requires f in Detected(cfg, baseline, events) && f.flag == "PRIVILEGE_ESCALATION"
    ensures CitesLogins(cfg, events, Detected(cfg, baseline, events), c, f)
  {
    var w, before := cfg.privilegedActionWindowMinutes * MINUTE, Before(cfg, baseline, events);
    WhoseFlag(cfg, baseline, events, f);
    EscalationsIff(w, before, events, events, f);
    c :| c in events && Escalates(w, before, events, c)
         && f == Finding(c.id, "CLOUD-004", "1.1", "PRIVILEGE_ESCALATION", 30,
                         IdsOf(PriorLogins(w, before, events, c)));
    forall id
      ensures id in f.evidence <==> exists a :: a in events && Suspect(cfg, Detected(cfg, baseline, events), a, c)
                                                && a.id == id
    {
      IdsMembers(PriorLogins(w, before, events, c), id);
      forall a ensures Precedes(w, before, a, c) <==> Suspect(cfg, Detected(cfg, baseline, events), a, c) {
        SuspectIff(cfg, baseline, events, a, c);
      }
    }
  }

  // ---- Single events ---------------------------------------------------------------------------------------

  /** The rule behind each flag of a single event, and its version. */
  predicate RuleOf(flag: string, rule: string, version: string) {
    || (flag == "NEW_DEVICE" && rule == "AUTH-003" && version == "1.1")
    || (flag == "SUSPICIOUS_POWERSHELL" && rule == "ENDP-001" && version == "1.0")
    || (flag == "CREDENTIAL_ACCESS" && rule == "ENDP-002" && version == "1.0")
    || (flag == "PERSISTENCE" && rule == "ENDP-003" && version == "1.0")
    || (flag == "KNOWN_MALICIOUS_IP" && rule == "NET-001" && version == "1.0")
    || (flag == "UNUSUAL_EGRESS" && rule == "NET-002" && version == "1.0")
    || (flag == "DATA_EXFILTRATION" && rule == "NET-003" && version == "1.1")
    || (flag == "UNUSUAL_ADMIN_ACTION" && rule == "CLOUD-001" && version == "1.0")
    || (flag == "SENSITIVE_RESOURCE_ACCESS" && rule == "CLOUD-002" && version == "1.0")
    || (flag == "MASS_DOWNLOAD" && rule == "CLOUD-003" && version == "1.0")
  }

  lemma EventRuleCites(cfg: Settings, e: RawEvent, f: Finding)
    requires f in EventRules(cfg, e)
    ensures RuleOf(f.flag, f.rule, f.version) && f.evidence == []
  {
  }

  /** Every other finding cites nothing but its own event. */
  lemma NothingCited(cfg: Settings, baseline: Baseline, events: seq<RawEvent>, f: Finding)
    requires 1 <= cfg.mfaFatigueThreshold && f in Detected(cfg, baseline, events) && f.flag !in RELATIONAL
    ensures RuleOf(f.flag, f.rule, f.version) && f.evidence == []
  {
    WhoseFlag(cfg, baseline, events, f);
    if f in NewDevices(baseline, SortBy(events, TimeOf)) {
      NewDevicesIff(baseline, SortBy(events, TimeOf), f);
    } else {
      EventRulesCollected(cfg, events, f);
      var e :| e in events && f in EventRules(cfg, e);
      EventRuleCites(cfg, e, f);
    }
  }
}
