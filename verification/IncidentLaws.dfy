/**
 What creating and enriching keep: every derived column agrees with the evidence, an incident's
 evidence, risk and classification only grow.
 */
module IncidentLaws {
  import opened Base
  import opened Config
  import opened Correlation
  import opened Detection
  import opened Playbook
  import opened Risk
  import opened Incidents

  // ---- Evidence as multisets ---------------------------------------------------------------------

  lemma {:induction false} EventsAmongMembers(rows: seq<Incidents.Event>, tenant: string, ids: set<string>,
                                              e: Incidents.Event)
    ensures e in EventsAmong(rows, tenant, ids) <==> e in rows && e.tenant == tenant && e.id in ids
  {
    if rows == [] {
    } else {
      var n := |rows| - 1;
      assert rows == rows[..n] + [rows[n]];
      EventsAmongMembers(rows[..n], tenant, ids, e);
    }
  }

  lemma {:induction false} FindingsAboutCount(records: seq<Finding>, ids: set<string>, f: Finding)
    ensures multiset(FindingsAbout(records, ids))[f] == if f.eventId in ids then multiset(records)[f] else 0
  {
    if records == [] {
    } else {
      var n := |records| - 1;
      assert records == records[..n] + [records[n]];
      FindingsAboutCount(records[..n], ids, f);
    }
  }

  predicate DistinctIds(ids: seq<string>) {
    forall i, j :: 0 <= i < j < |ids| ==> ids[i] != ids[j]
  }

  lemma {:induction false} GroupFindingsCount(records: seq<Finding>, ids: seq<string>, f: Finding)
    requires DistinctIds(ids)
    ensures multiset(GroupFindings(records, ids))[f] == if f.eventId in ids then multiset(records)[f] else 0
  {
    if ids == [] {
    } else {
      var n := |ids| - 1;
      assert ids == ids[..n] + [ids[n]];
      GroupFindingsCount(records, ids[..n], f);
      FindingsAboutCount(records, {ids[n]}, f);
    }
  }

  /** Collecting findings event by event or in one query yields the same findings. */
  lemma GroupFindingsAreAll(records: seq<Finding>, ids: seq<string>)
    requires DistinctIds(ids)
    ensures multiset(GroupFindings(records, ids)) == multiset(FindingsAbout(records, Elements(ids)))
  {
    forall f: Finding
      ensures multiset(GroupFindings(records, ids))[f] == multiset(FindingsAbout(records, Elements(ids)))[f]
    {
      GroupFindingsCount(records, ids, f);
      FindingsAboutCount(records, Elements(ids), f);
    }
  }

  lemma FindingsGrow(records: seq<Finding>, ids: set<string>, more: seq<Finding>, moreIds: set<string>)
    requires ids <= moreIds
    ensures multiset(FindingsAbout(records, ids)) <= multiset(FindingsAbout(records + more, moreIds))
  {
    forall f: Finding
      ensures multiset(FindingsAbout(records, ids))[f] <= multiset(FindingsAbout(records + more, moreIds))[f]
    {
      FindingsAboutCount(records, ids, f);
      FindingsAboutCount(records + more, moreIds, f);
      assert multiset(records + more) == multiset(records) + multiset(more);
    }
  }

  lemma EventsGrow(rows: seq<Incidents.Event>, tenant: string, ids: set<string>, more: seq<Incidents.Event>,
                   moreIds: set<string>)
    requires ids <= moreIds
    ensures forall e :: e in EventsAmong(rows, tenant, ids) ==> e in EventsAmong(rows + more, tenant, moreIds)
  {
    forall e | e in EventsAmong(rows, tenant, ids) ensures e in EventsAmong(rows + more, tenant, moreIds) {
      EventsAmongMembers(rows, tenant, ids, e);
      EventsAmongMembers(rows + more, tenant, moreIds, e);
    }
  }

  // ---- An incident and the evidence behind it ------------------------------------------------------

  function CurrentFindings(c: Cases, i: Incident): seq<Finding> {
    FindingsAbout(c.records, Elements(i.eventIds))
  }

  function CurrentEvents(c: Cases, i: Incident): seq<Incidents.Event> {
    EventsAmong(c.rows, i.tenant, Elements(i.eventIds))
  }

  /** Breakdown and type are those of the stored findings about the incident's events. */
  predicate UpToDate(c: Cases, i: Incident) {
    && i.breakdown == BreakdownOf(CurrentFindings(c, i), CurrentEvents(c, i))
    && i.kind == InferType(Flags(CurrentFindings(c, i)))
  }

  /** Evidence found since the last correlation can only raise the parts of the risk and specify the type. */
  predicate Lagging(c: Cases, i: Incident) {
    && NoPartAbove(i.breakdown, BreakdownOf(CurrentFindings(c, i), CurrentEvents(c, i)))
    && Rank(i.kind) <= Rank(InferType(Flags(CurrentFindings(c, i))))
  }

  /** The columns of an incident agree with each other. */
  predicate Derived(i: Incident) {
    && Capped(i.breakdown) && i.breakdown.Total() == i.risk && 0 <= i.residual <= i.risk <= 100
    && i.severity == SeverityOf(i.risk)
    && i.residual == Residual(i.risk, i.actions)
  }

  ghost predicate Recommended(i: Incident) {
    SameShape(i.actions, Template(i.kind))
  }

  predicate HasRow(rows: seq<Incidents.Event>, tenant: string, id: string) {
    exists e :: e in rows && e.tenant == tenant && e.id == id
  }

  predicate Known(rows: seq<Incidents.Event>, i: Incident) {
    forall id :: id in i.eventIds ==> HasRow(rows, i.tenant, id)
  }

  ghost predicate IncidentInv(c: Cases, i: Incident) {
    Derived(i) && Recommended(i) && Known(c.rows, i) && Lagging(c, i)
  }

  /** What holds in the middle of a batch as well. */
  ghost predicate EvidenceInv(c: Cases) {
    UniqueIds(c.rows) && forall k :: 0 <= k < |c.incidents| ==> IncidentInv(c, c.incidents[k])
  }

  ghost predicate Inv(c: Cases) {
    EvidenceInv(c) && DistinctFingerprints(c.incidents)
  }

  /** A group as the correlation graph hands it over: events of one tenant, each once. */
  ghost predicate GroupOf(rows: seq<Incidents.Event>, group: seq<Incidents.Event>) {
    && group != [] && UniqueIds(group)
    && forall e :: e in group ==> e in rows && e.tenant == group[0].tenant
  }

  /** Adding rows and findings keeps an incident's invariant. */
  lemma IngestKeepsIncident(c: Cases, i: Incident, rows: seq<Incidents.Event>, records: seq<Finding>)
    requires IncidentInv(c, i)
    ensures IncidentInv(c.(rows := c.rows + rows, records := c.records + records), i)
  {
    var d := c.(rows := c.rows + rows, records := c.records + records);
    var ids := Elements(i.eventIds);
    FindingsGrow(c.records, ids, records, ids);
    EventsGrow(c.rows, i.tenant, ids, rows, ids);
    PartsMonotone(CurrentFindings(c, i), CurrentEvents(c, i), CurrentFindings(d, i), CurrentEvents(d, i));
    FlagsMonotone(CurrentFindings(c, i), CurrentFindings(d, i));
    MoreFlagsRankHigher(Flags(CurrentFindings(c, i)), Flags(CurrentFindings(d, i)));
    forall id | id in i.eventIds ensures HasRow(d.rows, i.tenant, id) {
      var e :| e in c.rows && e.tenant == i.tenant && e.id == id;
      assert e in d.rows;
    }
  }

  // ---- A new incident -----------------------------------------------------------------------------

  lemma GroupIds(group: seq<Incidents.Event>)
    requires UniqueIds(group)
    ensures DistinctIds(EventIds(group))
    ensures forall id :: id in EventIds(group) <==> exists e :: e in group && e.id == id
  {
    forall id ensures id in EventIds(group) <==> exists e :: e in group && e.id == id {
      if id in EventIds(group) {
        var n :| 0 <= n < |group| && EventIds(group)[n] == id;
        assert group[n] in group;
      }
      if e :| e in group && e.id == id {
        var n :| 0 <= n < |group| && group[n] == e;
        assert EventIds(group)[n] == id;
      }
    }
  }

  /** The rows with the ids of a group are the group. */
  lemma GroupIsItsRows(rows: seq<Incidents.Event>, group: seq<Incidents.Event>)
    requires UniqueIds(rows) && GroupOf(rows, group)
    ensures forall e :: e in EventsAmong(rows, group[0].tenant, Elements(EventIds(group))) <==> e in group
  {
    GroupIds(group);
    forall e ensures e in EventsAmong(rows, group[0].tenant, Elements(EventIds(group))) <==> e in group {
      EventsAmongMembers(rows, group[0].tenant, Elements(EventIds(group)), e);
      if e in rows && e.id in EventIds(group) {
        var g :| g in group && g.id == e.id;
        SameRow(rows, e, g);
      }
    }
  }

  lemma SameRow(rows: seq<Incidents.Event>, a: Incidents.Event, b: Incidents.Event)
    requires UniqueIds(rows) && a in rows && b in rows
    ensures a.id == b.id ==> a == b
  {
  }

  lemma OpenedIsDerived(id: string, tenant: string, fp: string, group: seq<Incidents.Event>, found: seq<Finding>)
    ensures var i := Opened(id, tenant, fp, group, found); Derived(i) && Recommended(i)
  {
    RecommendationsFollowType(Flags(found));
    TemplateIsPending(InferType(Flags(found)));
  }

  lemma OpenedIsUpToDate(c: Cases, id: string, fp: string, group: seq<Incidents.Event>)
    requires UniqueIds(c.rows) && GroupOf(c.rows, group)
    ensures var i := Opened(id, group[0].tenant, fp, group, GroupFindings(c.records, EventIds(group)));
            UpToDate(c, i) && Known(c.rows, i)
  {
    var i := Opened(id, group[0].tenant, fp, group, GroupFindings(c.records, EventIds(group)));
    GroupIds(group);
    GroupFindingsAreAll(c.records, EventIds(group));
    GroupIsItsRows(c.rows, group);
    BreakdownPermuted(GroupFindings(c.records, EventIds(group)), group, CurrentFindings(c, i), CurrentEvents(c, i));
    forall id | id in i.eventIds ensures HasRow(c.rows, i.tenant, id) {
      var e :| e in group && e.id == id;
      assert e in c.rows;
    }
  }

  // ---- An enriched incident -----------------------------------------------------------------------

  lemma MergedMembers(rows: seq<Incidents.Event>, i: Incident, group: seq<Incidents.Event>)
    requires UniqueIds(rows) && GroupOf(rows, group) && group[0].tenant == i.tenant && Known(rows, i)
    ensures var all := Merged(rows, i, group);
            && (forall e :: e in all <==>
                  e in EventsAmong(rows, i.tenant, Elements(i.eventIds) + Elements(EventIds(group))))
            && Elements(EventIds(all)) == Elements(i.eventIds) + Elements(EventIds(group))
  {
    var all, ids := Merged(rows, i, group), Elements(EventIds(group));
    var rest := EventsAmong(rows, i.tenant, Elements(i.eventIds) - ids);
    forall e ensures e in all <==> e in EventsAmong(rows, i.tenant, Elements(i.eventIds) + ids) {
      MergedMember(rows, i, group, e);
    }
    forall id ensures id in Elements(EventIds(all)) <==> id in Elements(i.eventIds) + ids {
      MergedId(rows, i, group, id);
    }
  }

  lemma MergedMember(rows: seq<Incidents.Event>, i: Incident, group: seq<Incidents.Event>, e: Incidents.Event)
    requires UniqueIds(rows) && GroupOf(rows, group) && group[0].tenant == i.tenant
    ensures e in Merged(rows, i, group)
            <==> e in EventsAmong(rows, i.tenant, Elements(i.eventIds) + Elements(EventIds(group)))
  {
    var ids := Elements(EventIds(group));
    var rest := EventsAmong(rows, i.tenant, Elements(i.eventIds) - ids);
    assert e in Merged(rows, i, group) <==> e in multiset(Merged(rows, i, group));
    assert e in multiset(group + rest) <==> e in group || e in rest;
    GroupIsItsRows(rows, group);
    EventsAmongMembers(rows, i.tenant, ids, e);
    EventsAmongMembers(rows, i.tenant, Elements(i.eventIds) - ids, e);
    EventsAmongMembers(rows, i.tenant, Elements(i.eventIds) + ids, e);
  }

  lemma IdsMembers(events: seq<Incidents.Event>, id: string)
    ensures id in EventIds(events) <==> exists e :: e in events && e.id == id
  {
    if id in EventIds(events) {
      var n :| 0 <= n < |events| && EventIds(events)[n] == id;
      assert events[n] in events;
    }
    if e :| e in events && e.id == id {
      var n :| 0 <= n < |events| && events[n] == e;
      assert EventIds(events)[n] == id;
    }
  }

  lemma MergedId(rows: seq<Incidents.Event>, i: Incident, group: seq<Incidents.Event>, id: string)
    requires UniqueIds(rows) && GroupOf(rows, group) && group[0].tenant == i.tenant && Known(rows, i)
    ensures id in EventIds(Merged(rows, i, group)) <==> id in Elements(i.eventIds) + Elements(EventIds(group))
  {
    var all, both := Merged(rows, i, group), Elements(i.eventIds) + Elements(EventIds(group));
    IdsMembers(all, id);
    IdsMembers(group, id);
    if e :| e in all && e.id == id {
      MergedMember(rows, i, group, e);
      EventsAmongMembers(rows, i.tenant, both, e);
    }
    if id in both {
      assert HasRow(rows, i.tenant, id);
      var e :| e in rows && e.tenant == i.tenant && e.id == id;
      EventsAmongMembers(rows, i.tenant, both, e);
      MergedMember(rows, i, group, e);
    }
  }

  /** The columns recomputed on enrichment. */
  lemma RecomputedIsDerived(i: Incident, all: seq<Incidents.Event>, found: seq<Finding>)
    requires Recommended(i)
    ensures var j := Recomputed(i, all, found);
            && Derived(j) && Recommended(j)
            && (j.kind == i.kind ==> j.actions == i.actions)
            && (j.kind != i.kind ==> j.actions == Template(j.kind))
  {
    var kind := InferType(Flags(found));
    RecommendationsFollowType(Flags(found));
    if i.kind == kind {
      CarryRestores(i.actions, kind);
    } else {
      CarryNothing(Recommend(Flags(found)));
    }
  }

  lemma RecomputedIsUpToDate(c: Cases, i: Incident, group: seq<Incidents.Event>)
    requires UniqueIds(c.rows) && GroupOf(c.rows, group) && group[0].tenant == i.tenant && Known(c.rows, i)
    ensures var all := Merged(c.rows, i, group);
            var j := Recomputed(i, all, FindingsAbout(c.records, Elements(EventIds(all))));
            && UpToDate(c, j) && Known(c.rows, j)
            && Elements(j.eventIds) == Elements(i.eventIds) + Elements(EventIds(group))
  {
    var all := Merged(c.rows, i, group);
    var found := FindingsAbout(c.records, Elements(EventIds(all)));
    var j := Recomputed(i, all, found);
    MergedMembers(c.rows, i, group);
    BreakdownPermuted(found, all, CurrentFindings(c, j), CurrentEvents(c, j));
    forall id | id in j.eventIds ensures HasRow(c.rows, j.tenant, id) {
      IdsMembers(all, id);
      var e :| e in all && e.id == id;
      EventsAmongMembers(c.rows, i.tenant, Elements(i.eventIds) + Elements(EventIds(group)), e);
    }
  }

  /** What enrichment does to one incident: evidence, risk and specificity can only grow. */
  ghost predicate Grown(i: Incident, j: Incident) {
    && j.id == i.id && j.tenant == i.tenant && j.status == i.status && j.triagedAt == i.triagedAt
    && Elements(i.eventIds) <= Elements(j.eventIds)
    && i.risk <= j.risk && Rank(i.kind) <= Rank(j.kind)
    && (i.kind == j.kind ==> j.actions == i.actions)
    && (i.kind != j.kind ==> j.actions == Template(j.kind))
  }

  /** With more evidence, nothing that was scored earlier is above what is scored now. */
  lemma MoreEvidenceOutranks(c: Cases, i: Incident, j: Incident)
    requires Lagging(c, i) && UpToDate(c, j) && i.tenant == j.tenant && Elements(i.eventIds) <= Elements(j.eventIds)
    ensures NoPartAbove(i.breakdown, j.breakdown) && Rank(i.kind) <= Rank(j.kind)
  {
    var ids, more := Elements(i.eventIds), Elements(j.eventIds);
    assert c.rows + [] == c.rows && c.records + [] == c.records;
    FindingsGrow(c.records, ids, [], more);
    EventsGrow(c.rows, i.tenant, ids, [], more);
    PartsMonotone(CurrentFindings(c, i), CurrentEvents(c, i), CurrentFindings(c, j), CurrentEvents(c, j));
    FlagsMonotone(CurrentFindings(c, i), CurrentFindings(c, j));
    MoreFlagsRankHigher(Flags(CurrentFindings(c, i)), Flags(CurrentFindings(c, j)));
  }

  lemma RecomputedGrows(c: Cases, i: Incident, group: seq<Incidents.Event>)
    requires UniqueIds(c.rows) && GroupOf(c.rows, group) && group[0].tenant == i.tenant && IncidentInv(c, i)
    ensures var all := Merged(c.rows, i, group);
            Grown(i, Recomputed(i, all, FindingsAbout(c.records, Elements(EventIds(all)))))
  {
    var all := Merged(c.rows, i, group);
    var found := FindingsAbout(c.records, Elements(EventIds(all)));
    RecomputedIsUpToDate(c, i, group);
    RecomputedIsDerived(i, all, found);
    MoreEvidenceOutranks(c, i, Recomputed(i, all, found));
  }
}
