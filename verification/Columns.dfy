/**
 The columns of stored events and the rows a batch is looked at with, told field by field
 (backend/app/services/pipeline.py, lines 29-63 and 82-117, and lines 140-173).
 */
module Columns {
  import opened Base
  import opened Config
  import opened Detection
  import opened Rules
  import opened Pipeline
  import opened Ingestion
  import opened Incremental
  import C = Correlation

  // ---- Risk and flags of an event ------------------------------------------------------------------

  /** The points of the findings about the event. */
  function PointsAbout(records: seq<Finding>, id: string): int {
    if records == [] then 0
    else (if records[0].eventId == id then records[0].risk else 0) + PointsAbout(records[1..], id)
  }

  lemma {:induction false} PointsAboutSnoc(records: seq<Finding>, f: Finding, id: string)
    ensures PointsAbout(records + [f], id) == PointsAbout(records, id) + if f.eventId == id then f.risk else 0
  {
    if records == [] {
      assert [f][1..] == [];
    } else {
      assert (records + [f])[1..] == records[1..] + [f];
      PointsAboutSnoc(records[1..], f, id);
    }
  }

  lemma {:induction false} PointsAre(records: seq<Finding>, id: string)
    ensures PointsOf(records, id) == PointsAbout(records, id)
  {
    if records == [] {
    } else {
      var n := |records| - 1;
      assert records == records[..n] + [records[n]];
      PointsAre(records[..n], id);
      PointsAboutSnoc(records[..n], records[n], id);
    }
  }

  /** Every event shows the flags of its findings and their points, up to 100. */
  ghost predicate Shown(st: State) {
    && (forall id :: id in st.notes <==> exists e :: e in st.rows && e.id == id)
    && (forall id, flag :: id in st.notes ==>
          (flag in st.notes[id].flags <==> exists f :: f in st.records && f.eventId == id && f.flag == flag))
    && (forall id :: id in st.notes ==>
          var points := PointsAbout(st.records, id);
          st.notes[id].risk == if points > 100 then 100 else points)
  }

  lemma ConsistentShows(st: State)
    requires Consistent(st)
    ensures Shown(st)
  {
    forall id | id in st.notes
      ensures var points := PointsAbout(st.records, id);
              st.notes[id].risk == if points > 100 then 100 else points
    {
      PointsAre(st.records, id);
    }
    forall id ensures id in st.notes <==> exists e :: e in st.rows && e.id == id {
      assert id in st.notes <==> HasId(st.rows, id);
    }
  }

  /** After any batches, repeated and overlapping ones included. */
  lemma {:induction false} EventsShowFindings(cfg: Settings, baseline: Baseline, mentions: Mentions,
                                              batches: seq<seq<RawEvent>>)
    requires 1 <= cfg.mfaFatigueThreshold
    ensures var st := ProcessAll(cfg, baseline, mentions, batches); Consistent(st) && Shown(st)
    decreases |batches|
  {
    if batches == [] {
      ConsistentShows(EMPTY);
    } else {
      var n := |batches| - 1;
      EventsShowFindings(cfg, baseline, mentions, batches[..n]);
      ProcessKeepsConsistent(cfg, baseline, mentions, ProcessAll(cfg, baseline, mentions, batches[..n]), batches[n]);
      ConsistentShows(ProcessAll(cfg, baseline, mentions, batches));
    }
  }

  lemma {:induction false} NoPoints(records: seq<Finding>, id: string)
    requires forall f :: f in records && f.eventId == id ==> f.risk <= 0
    ensures PointsOf(records, id) <= 0
  {
    if records == [] {
    } else {
      NoPoints(records[..|records| - 1], id);
    }
  }

  /** An event scores exactly if some finding about it does. */
  lemma ScoresIff(st: State, id: string)
    requires Consistent(st) && id in st.notes
    ensures st.notes[id].risk > 0 <==> exists f :: f in st.records && f.eventId == id && f.risk > 0
  {
    if f :| f in st.records && f.eventId == id && f.risk > 0 {
      PointsPositive(st.records, f);
    } else {
      NoPoints(st.records, id);
    }
  }

  // ---- Normalised rows -------------------------------------------------------------------------------

  /** The row stored for each kind of telemetry. */
  lemma NormalizedAs(e: RawEvent, tenant: string)
    ensures match e
            case Authentication(id, time, user, ip, _, device, _, _) =>
              Normalize(e, tenant) == C.Event(id, tenant, time, "Identity", Some(user), Some(device), Some(ip),
                                              C.Payload(Some(device), None, false, false, None, None))
            case Endpoint(id, time, host, user, _, _, what, contacted) =>
              Normalize(e, tenant) == C.Event(id, tenant, time, "Endpoint", Some(user), Some(host), None,
                                              C.Payload(None, contacted, false, false, Some(what), None))
            case Network(id, time, ip, destination, _, user, host) =>
              Normalize(e, tenant) == C.Event(id, tenant, time, "Network", user, host, Some(ip),
                                              C.Payload(None, Some(destination), false, false, None, None))
            case Cloud(id, time, user, ip, _, resource, privileged, sensitive, device) =>
              Normalize(e, tenant) == C.Event(id, tenant, time, "Cloud", Some(user), device, Some(ip),
                                              C.Payload(device, None, sensitive, privileged, None, Some(resource)))
  {
  }

  // ---- Historical context ----------------------------------------------------------------------------

  /** The longest of the four windows, in minutes. */
  ghost predicate Longest(cfg: Settings, minutes: int) {
    && minutes in {cfg.correlationWindowMinutes, cfg.impossibleTravelWindowMinutes, cfg.privilegedActionWindowMinutes,
                   cfg.mfaFatigueWindowMinutes}
    && cfg.correlationWindowMinutes <= minutes && cfg.impossibleTravelWindowMinutes <= minutes
    && cfg.privilegedActionWindowMinutes <= minutes && cfg.mfaFatigueWindowMinutes <= minutes
  }

  /** The two events share a user, a source address, or the host column of one is a name in the other. */
  predicate Shares(e: C.Event, row: C.Event) {
    || (e.user.Some? && row.user == e.user)
    || (e.sourceIp.Some? && row.sourceIp == e.sourceIp)
    || (e.host.Some? && row.host == e.host)
  }

  lemma MatchIff(mentions: Mentions, e: RawEvent, row: RawEvent, tenant: string)
    ensures Matches(mentions, e, row) <==>
            || Shares(Normalize(e, tenant), Normalize(row, tenant))
            || (Normalize(e, tenant).data.destinationIp.Some?
                && mentions(row, Normalize(e, tenant).data.destinationIp.value))
  {
  }

  /**
   A stored event is looked at with a batch exactly if it is at most the longest window older than the
   oldest event of the batch, not newer than the newest, and shares something with one of them.
   */
  lemma ContextIff(cfg: Settings, mentions: Mentions, rows: seq<RawEvent>, batch: seq<RawEvent>, row: RawEvent,
                   minutes: int, tenant: string)
    requires Longest(cfg, minutes)
    ensures row in HistoricalContext(cfg, mentions, rows, batch) <==>
            && row in rows
            && (exists e :: e in batch && row.timestamp >= e.timestamp - minutes * 60 * 1_000_000)
            && (exists e :: e in batch && row.timestamp <= e.timestamp)
            && (exists e :: e in batch
                  && (|| Shares(Normalize(e, tenant), Normalize(row, tenant))
                      || (Normalize(e, tenant).data.destinationIp.Some?
                          && mentions(row, Normalize(e, tenant).data.destinationIp.value))))
  {
    SortByMembers(Filter(rows, r => InContext(cfg, mentions, batch, r)), TimeOf);
    assert Lookback(cfg) == minutes * 60 * 1_000_000;
    forall e ensures Matches(mentions, e, row) <==>
                     || Shares(Normalize(e, tenant), Normalize(row, tenant))
                     || (Normalize(e, tenant).data.destinationIp.Some?
                         && mentions(row, Normalize(e, tenant).data.destinationIp.value))
    {
      MatchIff(mentions, e, row, tenant);
    }
  }
}
