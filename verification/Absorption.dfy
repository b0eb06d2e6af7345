/**
 The effect of correlating one group: which incident it reaches, what it leaves alone, and what it
 does to evidence, score and history.
 */
module Absorption {
  import opened Base
  import opened Config
  import opened Correlation
  import opened Detection
  import opened Playbook
  import opened Risk
  import opened Incidents
  import opened IncidentLaws

  // ---- Principals ---------------------------------------------------------------------------------

  /** The leader occurs, is met before any equally frequent value, and nothing is more frequent. */
  lemma {:induction false} LeaderIsMode(values: seq<string>, n: nat) returns (k: nat)
    requires 1 <= n <= |values|
    ensures k < n && values[k] == Leader(values, n)
    ensures forall j :: 0 <= j < n ==> Occurrences(values, values[j]) <= Occurrences(values, values[k])
    ensures forall j :: 0 <= j < k ==> Occurrences(values, values[j]) < Occurrences(values, values[k])
  {
    k := 0;
    if n > 1 {
      k := LeaderIsMode(values, n - 1);
      if Occurrences(values, values[n - 1]) > Occurrences(values, values[k]) {
        k := n - 1;
      }
    }
  }

  lemma {:induction false} PresentEmptyIff(values: seq<Option<string>>)
    ensures Present(values) == [] <==> forall n :: 0 <= n < |values| ==> !Truthy(values[n])
  {
    if values == [] {
    } else {
      PresentEmptyIff(values[..|values| - 1]);
      assert values[|values| - 1] == values[|values| - 1];
    }
  }

  predicate Anonymous(events: seq<Incidents.Event>) {
    forall e :: e in events ==> !Truthy(e.user) && !Truthy(e.host)
  }

  /** There is no principal exactly when no event names a user or a host. */
  lemma PrincipalNoneIff(events: seq<Incidents.Event>)
    ensures Principal(events) == None <==> Anonymous(events)
  {
    var users := seq(|events|, i requires 0 <= i < |events| => events[i].user);
    var hosts := seq(|events|, i requires 0 <= i < |events| => events[i].host);
    PresentEmptyIff(users);
    PresentEmptyIff(hosts);
    if Anonymous(events) {
      assert forall n :: 0 <= n < |users| ==> users[n] == events[n].user && events[n] in events;
      assert forall n :: 0 <= n < |hosts| ==> hosts[n] == events[n].host && events[n] in events;
    }
    if Principal(events) == None {
      forall e | e in events ensures !Truthy(e.user) && !Truthy(e.host) {
        var n :| 0 <= n < |events| && events[n] == e;
        assert !Truthy(users[n]) && !Truthy(hosts[n]);
      }
    }
  }

  /** The crash of line 222: two signals, but nobody and nothing to name the fingerprint after. */
  lemma IndexErrorIff(cfg: Settings, h: Hashes, s: Session, group: seq<Incidents.Event>, newId: string)
    requires 0 < cfg.maxIncidentSpanMinutes && s.Aligned() && group != []
    ensures Absorb(cfg, h, s, group, newId) == NoPrincipal
            <==> |Flags(GroupFindings(s.cases.records, EventIds(group)))| >= 2 && Anonymous(group)
  {
    PrincipalNoneIff(group);
    if !Anonymous(group) {
      forall k: nat | k < |s.disk| ensures Enrich(cfg, h, s, k, group) != NoPrincipal {
        EnrichHasPrincipal(cfg, h, s, k, group);
      }
    }
  }

  lemma EnrichHasPrincipal(cfg: Settings, h: Hashes, s: Session, k: nat, group: seq<Incidents.Event>)
    requires 0 < cfg.maxIncidentSpanMinutes && s.Aligned() && k < |s.disk| && group != [] && !Anonymous(group)
    ensures Enrich(cfg, h, s, k, group).Stored? && Enrich(cfg, h, s, k, group).at == k
  {
    MergedHasPrincipal(s.cases.rows, s.cases.incidents[k], group);
  }

  /** Merging keeps the group's users and hosts, so the second lookup of line 282 always succeeds. */
  lemma MergedHasPrincipal(rows: seq<Incidents.Event>, i: Incident, group: seq<Incidents.Event>)
    requires group != [] && !Anonymous(group)
    ensures Merged(rows, i, group) != [] && Principal(Merged(rows, i, group)).Some?
  {
    var all := Merged(rows, i, group);
    var e :| e in group && (Truthy(e.user) || Truthy(e.host));
    assert e in multiset(all);
    assert e in all;
    PrincipalNoneIff(all);
  }

  // ---- The effect of a group ------------------------------------------------------------------------

  /** Incident `k` was enriched; every other incident, and every table but history, is as before. */
  ghost predicate EnrichedAt(c: Cases, d: Cases, k: nat) {
    && k < |c.incidents| == |d.incidents| && d == c.(incidents := d.incidents, history := d.history)
    && d.incidents == c.incidents[k := d.incidents[k]]
    && Open(c.incidents[k]) && Grown(c.incidents[k], d.incidents[k])
    && UpToDate(d, d.incidents[k]) && IncidentInv(d, d.incidents[k])
    && d.history == c.history + Enrichment(c.incidents[k], d.incidents[k])
  }

  /** An incident was added, in status NEW, for evidence no open incident of its tenant holds. */
  ghost predicate CreatedIn(c: Cases, d: Cases, group: seq<Incidents.Event>, newId: string)
    requires group != []
  {
    && |d.incidents| == |c.incidents| + 1
    && var i := d.incidents[|c.incidents|];
       && d == c.(incidents := c.incidents + [i],
                  history := c.history + [HistoryRow(newId, i.risk, i.residual, IncidentCreated)])
       && i.id == newId && i.tenant == group[0].tenant && i.status == New && i.eventIds == EventIds(group)
       && i.actions == Template(i.kind) && i.residual == i.risk
       && UpToDate(d, i) && IncidentInv(d, i)
       && forall k :: 0 <= k < |c.incidents| && c.incidents[k].tenant == i.tenant && Open(c.incidents[k])
                      ==> Elements(c.incidents[k].eventIds) !! Elements(i.eventIds)
  }

  /** The object an enrichment leaves, up to its fingerprint. */
  function Rescored(c: Cases, i: Incident, group: seq<Incidents.Event>): Incident {
    var all := Merged(c.rows, i, group);
    Recomputed(i, all, FindingsAbout(c.records, Elements(EventIds(all))))
  }

  lemma EnrichRescores(cfg: Settings, h: Hashes, s: Session, k: nat, group: seq<Incidents.Event>)
    requires 0 < cfg.maxIncidentSpanMinutes && s.Aligned() && k < |s.disk| && Enrich(cfg, h, s, k, group).Stored?
    ensures var c, d := s.cases, Enrich(cfg, h, s, k, group).session.cases;
            && k < |c.incidents| == |d.incidents|
            && d == c.(incidents := c.incidents[k := d.incidents[k]],
                       history := c.history + Enrichment(c.incidents[k], d.incidents[k]))
            && d.incidents[k] == Rescored(c, c.incidents[k], group).(fingerprint := d.incidents[k].fingerprint)
  {
  }

  lemma RescoredIsGood(c: Cases, d: Cases, i: Incident, group: seq<Incidents.Event>, fp: string)
    requires EvidenceInv(c) && GroupOf(c.rows, group) && group[0].tenant == i.tenant && IncidentInv(c, i)
    requires d == c.(incidents := d.incidents, history := d.history)
    ensures var j := Rescored(c, i, group).(fingerprint := fp);
            && Grown(i, j) && UpToDate(d, j) && IncidentInv(d, j)
            && Elements(j.eventIds) == Elements(i.eventIds) + Elements(EventIds(group))
  {
    var all := Merged(c.rows, i, group);
    RecomputedIsUpToDate(c, i, group);
    RecomputedIsDerived(i, all, FindingsAbout(c.records, Elements(EventIds(all))));
    RecomputedGrows(c, i, group);
    NewFingerprint(c, d, Rescored(c, i, group), fp);
  }

  lemma EnrichEffect(cfg: Settings, h: Hashes, s: Session, k: nat, group: seq<Incidents.Event>)
    requires 0 < cfg.maxIncidentSpanMinutes && s.Aligned() && EvidenceInv(s.cases) && GroupOf(s.cases.rows, group)
    requires k < |s.disk| && s.cases.incidents[k].tenant == group[0].tenant && Open(s.cases.incidents[k])
    requires Enrich(cfg, h, s, k, group).Stored?
    ensures var c, d := s.cases, Enrich(cfg, h, s, k, group).session.cases;
            EnrichedAt(c, d, k)
            && Elements(d.incidents[k].eventIds) == Elements(c.incidents[k].eventIds) + Elements(EventIds(group))
  {
    var d := Enrich(cfg, h, s, k, group).session.cases;
    EnrichRescores(cfg, h, s, k, group);
    assert IncidentInv(s.cases, s.cases.incidents[k]);
    RescoredIsGood(s.cases, d, s.cases.incidents[k], group, d.incidents[k].fingerprint);
  }

  /** The fingerprint plays no part in the invariant of an incident. */
  lemma NewFingerprint(c: Cases, d: Cases, i: Incident, fp: string)
    requires d == c.(incidents := d.incidents, history := d.history)
    requires UpToDate(c, i) && Derived(i) && Recommended(i) && Known(c.rows, i)
    ensures UpToDate(d, i.(fingerprint := fp)) && IncidentInv(d, i.(fingerprint := fp))
  {
  }

  lemma CreateEffect(h: Hashes, s: Session, group: seq<Incidents.Event>, wanted: string, newId: string)
    requires s.Aligned() && UniqueIds(s.cases.rows) && GroupOf(s.cases.rows, group)
    requires First(s.Table(), OpenSharing(group[0].tenant, Elements(EventIds(group)))) == None
    requires Create(h, s, group, GroupFindings(s.cases.records, EventIds(group)), wanted, newId).Stored?
    ensures var r := Create(h, s, group, GroupFindings(s.cases.records, EventIds(group)), wanted, newId);
            r.at == |s.disk| && CreatedIn(s.cases, r.session.cases, group, newId)
  {
    var found := GroupFindings(s.cases.records, EventIds(group));
    var d := Create(h, s, group, found, wanted, newId).session.cases;
    var i := d.incidents[|s.disk|];
    assert i == Opened(newId, group[0].tenant, i.fingerprint, group, found);
    OpenedInv(s.cases, d, newId, i.fingerprint, group);
    NoneShares(s, group[0].tenant, Elements(EventIds(group)));
  }

  lemma OpenedInv(c: Cases, d: Cases, newId: string, fp: string, group: seq<Incidents.Event>)
    requires UniqueIds(c.rows) && GroupOf(c.rows, group)
    requires d == c.(incidents := d.incidents, history := d.history)
    ensures var i := Opened(newId, group[0].tenant, fp, group, GroupFindings(c.records, EventIds(group)));
            UpToDate(d, i) && IncidentInv(d, i) && i.actions == Template(i.kind)
  {
    var found := GroupFindings(c.records, EventIds(group));
    OpenedIsUpToDate(c, newId, fp, group);
    OpenedIsDerived(newId, group[0].tenant, fp, group, found);
    RecommendationsFollowType(Flags(found));
    NewFingerprint(c, d, Opened(newId, group[0].tenant, fp, group, found), fp);
  }

  lemma NoneShares(s: Session, tenant: string, ids: set<string>)
    requires s.Aligned() && First(s.Table(), OpenSharing(tenant, ids)) == None
    ensures forall k :: 0 <= k < |s.disk| && s.cases.incidents[k].tenant == tenant && Open(s.cases.incidents[k])
                        ==> Elements(s.cases.incidents[k].eventIds) !! ids
  {
    forall k | 0 <= k < |s.disk| && s.cases.incidents[k].tenant == tenant && Open(s.cases.incidents[k])
      ensures Elements(s.cases.incidents[k].eventIds) !! ids
    {
      assert !OpenSharing(tenant, ids)(s.Table()[k]);
    }
  }

  lemma FoundIsOpen(s: Session, tenant: string, fp: string, ids: set<string>)
    requires s.Aligned()
    ensures var r := FindExisting(s.Table(), tenant, fp, ids);
            r.Some? ==>
              r.value < |s.disk| && s.cases.incidents[r.value].tenant == tenant && Open(s.cases.incidents[r.value])
  {
  }

  /** Every outcome of correlating a group. */
  lemma AbsorbEffect(cfg: Settings, h: Hashes, s: Session, group: seq<Incidents.Event>, newId: string)
    requires 0 < cfg.maxIncidentSpanMinutes && s.Aligned() && EvidenceInv(s.cases) && GroupOf(s.cases.rows, group)
    requires Absorb(cfg, h, s, group, newId).Stored?
    ensures var c, r := s.cases, Absorb(cfg, h, s, group, newId);
            var d := r.session.cases;
            if r.at < |c.incidents| then
              EnrichedAt(c, d, r.at)
              && Elements(d.incidents[r.at].eventIds) == Elements(c.incidents[r.at].eventIds)
                      + Elements(EventIds(group))
            else
              r.at == |c.incidents| && CreatedIn(c, d, group, newId)
  {
    var found := GroupFindings(s.cases.records, EventIds(group));
    var tenant := group[0].tenant;
    var wanted := Fingerprint(cfg, h, tenant, Flags(found), group);
    FoundIsOpen(s, tenant, wanted, Elements(EventIds(group)));
    match FindExisting(s.Table(), tenant, wanted, Elements(EventIds(group))) {
      case Some(k) => EnrichEffect(cfg, h, s, k, group);
      case None => CreateEffect(h, s, group, wanted, newId);
    }
  }

  /** An incident's invariant reads only the event and finding tables. */
  lemma IncidentInvKept(c: Cases, d: Cases, i: Incident)
    requires IncidentInv(c, i) && d.rows == c.rows && d.records == c.records
    ensures IncidentInv(d, i)
  {
  }

  /** What a group does to one incident: nothing, or it enriches an open one. */
  ghost predicate Touched(i: Incident, j: Incident) {
    j == i || (Open(i) && Grown(i, j))
  }

  /** The tables after a group: at most one incident more, the others as they were or grown. */
  ghost predicate GroupDone(c: Cases, d: Cases, newId: string) {
    && d == c.(incidents := d.incidents, history := d.history)
    && |c.incidents| <= |d.incidents| <= |c.incidents| + 1
    && (forall k :: 0 <= k < |c.incidents| ==> Touched(c.incidents[k], d.incidents[k]))
    && (|d.incidents| > |c.incidents| ==>
          d.incidents[|c.incidents|].id == newId && d.incidents[|c.incidents|].status == New)
  }

  lemma EnrichedDone(c: Cases, d: Cases, k: nat, newId: string)
    requires EvidenceInv(c) && EnrichedAt(c, d, k)
    ensures EvidenceInv(d) && GroupDone(c, d, newId)
  {
    forall j | 0 <= j < |d.incidents| ensures IncidentInv(d, d.incidents[j]) {
      if j != k {
        assert d.incidents[j] == c.incidents[j];
        IncidentInvKept(c, d, c.incidents[j]);
      }
    }
  }

  lemma CreatedDone(c: Cases, d: Cases, group: seq<Incidents.Event>, newId: string)
    requires group != [] && EvidenceInv(c) && CreatedIn(c, d, group, newId)
    ensures EvidenceInv(d) && GroupDone(c, d, newId)
  {
  }

  /** Correlating a group keeps the derived state of every incident. */
  lemma AbsorbKeepsEvidence(cfg: Settings, h: Hashes, s: Session, group: seq<Incidents.Event>, newId: string)
    requires 0 < cfg.maxIncidentSpanMinutes && s.Aligned() && EvidenceInv(s.cases) && GroupOf(s.cases.rows, group)
    requires Absorb(cfg, h, s, group, newId).Stored?
    ensures var d := Absorb(cfg, h, s, group, newId).session.cases; EvidenceInv(d) && GroupDone(s.cases, d, newId)
  {
    AbsorbEffect(cfg, h, s, group, newId);
    var r := Absorb(cfg, h, s, group, newId);
    if r.at < |s.disk| {
      EnrichedDone(s.cases, r.session.cases, r.at, newId);
    } else {
      CreatedDone(s.cases, r.session.cases, group, newId);
    }
  }

  // ---- Enriching again ------------------------------------------------------------------------------------

  /**
   Enriching an incident with events it already has writes a history row exactly when the findings
   about those events have moved its risk or its type since it was last scored.
   */
  lemma ReenrichWritesHistoryIff(cfg: Settings, h: Hashes, s: Session, k: nat, group: seq<Incidents.Event>)
    requires 0 < cfg.maxIncidentSpanMinutes && s.Aligned() && EvidenceInv(s.cases) && GroupOf(s.cases.rows, group)
    requires k < |s.disk| && s.cases.incidents[k].tenant == group[0].tenant && Open(s.cases.incidents[k])
    requires Elements(EventIds(group)) <= Elements(s.cases.incidents[k].eventIds)
    requires Enrich(cfg, h, s, k, group).Stored?
    ensures var c, i, d := s.cases, s.cases.incidents[k], Enrich(cfg, h, s, k, group).session.cases;
            d.history == c.history
            <==> i.risk == RiskOf(CurrentFindings(c, i), CurrentEvents(c, i))
                 && i.kind == InferType(Flags(CurrentFindings(c, i)))
  {
    var c, i, d := s.cases, s.cases.incidents[k], Enrich(cfg, h, s, k, group).session.cases;
    assert IncidentInv(c, i);
    EnrichEffect(cfg, h, s, k, group);
    var j := d.incidents[k];
    assert Elements(j.eventIds) == Elements(i.eventIds);
    assert CurrentFindings(d, j) == CurrentFindings(c, i) && CurrentEvents(d, j) == CurrentEvents(c, i);
  }

  // ---- The risk score is not immutable --------------------------------------------------------------------

  /** The evidence an incident has after taking in a group. */
  function FindingsWith(c: Cases, i: Incident, group: seq<Incidents.Event>): seq<Finding> {
    FindingsAbout(c.records, Elements(i.eventIds) + Elements(EventIds(group)))
  }

  function EventsWith(c: Cases, i: Incident, group: seq<Incidents.Event>): seq<Incidents.Event> {
    EventsAmong(c.rows, i.tenant, Elements(i.eventIds) + Elements(EventIds(group)))
  }

  /** Detection points: the stored part is at its cap, or nothing that counts has been added. */
  predicate DetectionKept(b: Breakdown, found: seq<Finding>) {
    b.detection == 40 || DetectionPoints(found) == b.detection
  }

  /** Impact: nothing critical that was not there before, and nothing privileged where there was no impact. */
  predicate ImpactKept(b: Breakdown, events: seq<Incidents.Event>) {
    || b.impact == 20
    || (!AnyCritical(events) && (b.impact == 15 || !AnyPrivileged(events)))
  }

  /** Behaviour: three flags count already, or no further one has appeared. */
  predicate BehaviourKept(b: Breakdown, found: seq<Finding>) {
    b.behaviour == 20 || 7 * |Flags(found) * BEHAVIORAL_FLAGS| == b.behaviour
  }

  /** Threat intelligence: it has spoken before, or it does not speak now. */
  predicate ThreatKept(b: Breakdown, found: seq<Finding>) {
    b.threat == 20 || THREAT_FLAG !in Flags(found)
  }

  /**
   Enrichment keeps the risk score exactly when the combined evidence moves no part of it: detection
   points are capped or unchanged, the impact class is unchanged, no further behavioural flag counts
   and threat intelligence does not speak for the first time. Otherwise the score rises.
   */
  lemma EnrichKeepsRiskIff(cfg: Settings, h: Hashes, s: Session, k: nat, group: seq<Incidents.Event>)
    requires 0 < cfg.maxIncidentSpanMinutes && s.Aligned() && EvidenceInv(s.cases) && GroupOf(s.cases.rows, group)
    requires k < |s.disk| && s.cases.incidents[k].tenant == group[0].tenant && Open(s.cases.incidents[k])
    requires Enrich(cfg, h, s, k, group).Stored?
    ensures var c, i, j := s.cases, s.cases.incidents[k], Enrich(cfg, h, s, k, group).session.cases.incidents[k];
            var found, events := FindingsWith(c, i, group), EventsWith(c, i, group);
            && (j.risk == i.risk
                <==> && DetectionKept(i.breakdown, found) && ImpactKept(i.breakdown, events)
                     && BehaviourKept(i.breakdown, found) && ThreatKept(i.breakdown, found))
            && j.risk >= i.risk
  {
    EnrichScores(cfg, h, s, k, group);
    var c, i := s.cases, s.cases.incidents[k];
    PartsKept(i.breakdown, FindingsWith(c, i, group), EventsWith(c, i, group));
  }

  /** The new score is that of the combined evidence, and no part of it is below the stored one. */
  lemma EnrichScores(cfg: Settings, h: Hashes, s: Session, k: nat, group: seq<Incidents.Event>)
    requires 0 < cfg.maxIncidentSpanMinutes && s.Aligned() && EvidenceInv(s.cases) && GroupOf(s.cases.rows, group)
    requires k < |s.disk| && s.cases.incidents[k].tenant == group[0].tenant && Open(s.cases.incidents[k])
    requires Enrich(cfg, h, s, k, group).Stored?
    ensures var c, i, j := s.cases, s.cases.incidents[k], Enrich(cfg, h, s, k, group).session.cases.incidents[k];
            && j.breakdown == BreakdownOf(FindingsWith(c, i, group), EventsWith(c, i, group))
            && j.risk == j.breakdown.Total() && i.risk == i.breakdown.Total()
            && NoPartAbove(i.breakdown, j.breakdown) && Capped(i.breakdown)
  {
    EnrichEffect(cfg, h, s, k, group);
    var c, d := s.cases, Enrich(cfg, h, s, k, group).session.cases;
    assert IncidentInv(c, c.incidents[k]);
    assert UpToDate(c, d.incidents[k]);
    MoreEvidenceOutranks(c, c.incidents[k], d.incidents[k]);
  }

  lemma PartsKept(b: Breakdown, found: seq<Finding>, events: seq<Incidents.Event>)
    requires Capped(b) && NoPartAbove(b, BreakdownOf(found, events))
    ensures BreakdownOf(found, events).Total() == b.Total()
            <==> && DetectionKept(b, found) && ImpactKept(b, events)
                 && BehaviourKept(b, found) && ThreatKept(b, found)
  {
    var n := BreakdownOf(found, events);
    assert n.Total() == b.Total() <==> n == b;
    assert n.detection == b.detection <==> DetectionKept(b, found);
    assert n.impact == b.impact <==> ImpactKept(b, events);
    assert n.behaviour == b.behaviour <==> BehaviourKept(b, found);
    assert n.threat == b.threat <==> ThreatKept(b, found);
  }

  /** A group whose event brings the first threat-intelligence finding raises the score by at least 20. */
  lemma NewThreatRaisesRisk(cfg: Settings, h: Hashes, s: Session, k: nat, group: seq<Incidents.Event>, f: Finding)
    requires 0 < cfg.maxIncidentSpanMinutes && s.Aligned() && EvidenceInv(s.cases) && GroupOf(s.cases.rows, group)
    requires k < |s.disk| && s.cases.incidents[k].tenant == group[0].tenant && Open(s.cases.incidents[k])
    requires Enrich(cfg, h, s, k, group).Stored?
    requires s.cases.incidents[k].breakdown.threat == 0
    requires f in s.cases.records && f.eventId in EventIds(group) && f.flag == THREAT_FLAG
    ensures Enrich(cfg, h, s, k, group).session.cases.incidents[k].risk >= s.cases.incidents[k].risk + 20
  {
    EnrichScores(cfg, h, s, k, group);
    var c, i := s.cases, s.cases.incidents[k];
    ThreatFound(c.records, Elements(i.eventIds) + Elements(EventIds(group)), f);
    assert BreakdownOf(FindingsWith(c, i, group), EventsWith(c, i, group)).threat == 20;
  }

  lemma ThreatFound(records: seq<Finding>, ids: set<string>, f: Finding)
    requires f in records && f.eventId in ids && f.flag == THREAT_FLAG
    ensures THREAT_FLAG in Flags(FindingsAbout(records, ids))
  {
  }
}
