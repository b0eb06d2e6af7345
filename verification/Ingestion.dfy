/**
 Laws of ingestion: derived columns stay in step with the finding table, repeating a batch changes
 nothing, and stored findings are never revised.
 */
module Ingestion {
  import opened Base
  import opened Config
  import opened Detection
  import opened Rules
  import opened Pipeline

  // ---- Findings are about stored events -------------------------------------------------------

  ghost predicate About(findings: seq<Finding>, events: seq<RawEvent>) {
    forall f :: f in findings ==> f.risk >= 0 && HasId(events, f.eventId)
  }

  lemma {:induction false} TravelAbout(window: int, logins: seq<RawEvent>)
    ensures About(TravelFindings(window, logins), logins)
  {
    if logins == [] {
    } else {
      var n := |logins| - 1;
      TravelAbout(window, logins[..n]);
      LatestConflictMeaning(window, logins[..n], logins[n]);
      assert forall e :: e in logins[..n] ==> e in logins;
      assert logins[n] in logins;
    }
  }

  lemma DetectedAbout(cfg: Settings, baseline: Baseline, events: seq<RawEvent>)
    requires 1 <= cfg.mfaFatigueThreshold
    ensures About(Detected(cfg, baseline, events), events)
  {
    var rest := RestAreOthers(cfg, baseline, events);
    LoginsAreLogins(events);
    TravelAbout(cfg.impossibleTravelWindowMinutes * MINUTE, Logins(events));
  }

  lemma {:induction false} PlaceMembers(values: seq<RawEvent>, e: RawEvent)
    ensures forall x :: x in Place(values, e) ==> x in values || x == e
  {
    if values != [] && values[0].id != e.id {
      PlaceMembers(values[1..], e);
    }
  }

  lemma {:induction false} TypedMembers(context: seq<RawEvent>, batch: seq<RawEvent>)
    ensures forall x :: x in Typed(context, batch) ==> x in context || x in batch
  {
    if batch == [] {
    } else {
      var n := |batch| - 1;
      TypedMembers(context, batch[..n]);
      PlaceMembers(Typed(context, batch[..n]), batch[n]);
    }
  }

  lemma AddRowsHasIds(rows: seq<RawEvent>, batch: seq<RawEvent>)
    ensures forall id :: HasId(AddRows(rows, batch), id) <==> HasId(rows, id) || HasId(batch, id)
  {
  }

  lemma SliceKnown(cfg: Settings, mentions: Mentions, rows: seq<RawEvent>, batch: seq<RawEvent>)
    requires forall id :: HasId(batch, id) ==> HasId(rows, id)
    ensures forall id :: HasId(Slice(cfg, mentions, rows, batch), id) ==> HasId(rows, id)
  {
    var context := HistoricalContext(cfg, mentions, rows, batch);
    SortByMembers(Filter(rows, row => InContext(cfg, mentions, batch, row)), TimeOf);
    TypedMembers(context, batch);
    SortByMembers(Typed(context, batch), TimeOf);
    forall id | HasId(Slice(cfg, mentions, rows, batch), id) ensures HasId(rows, id) {
      var e :| e in Slice(cfg, mentions, rows, batch) && e.id == id;
      if e in batch {
        assert HasId(batch, id);
      }
    }
  }

  // ---- Derived columns ------------------------------------------------------------------------

  /**
   Every event's flags are the distinct flags of its records and its risk is their capped sum;
   every record belongs to a stored event.
   */
  ghost predicate Consistent(st: State) {
    && WellFormed(st)
    && About(st.records, st.rows)
    && (forall id :: id in st.notes ==> st.notes[id] == Derive(st.records, id))
  }

  lemma {:induction false} RecordMembers(records: seq<Finding>, findings: seq<Finding>)
    ensures forall r :: r in Record(records, findings) ==> r in records || r in findings
  {
    if findings == [] {
    } else {
      RecordMembers(records, findings[..|findings| - 1]);
    }
  }

  /** Events without a finding in this run keep their derived columns. */
  lemma {:induction false} RecordUnaffected(records: seq<Finding>, findings: seq<Finding>, id: string)
    requires !Affected(findings, id)
    ensures Derive(Record(records, findings), id) == Derive(records, id)
  {
    if findings == [] {
    } else {
      var n := |findings| - 1;
      NotAffectedBefore(findings, id);
      RecordUnaffected(records, findings[..n], id);
      OtherRecord(Record(records, findings[..n]), findings[n], id);
    }
  }

  lemma NotAffectedBefore(findings: seq<Finding>, id: string)
    requires findings != [] && !Affected(findings, id)
    ensures var n := |findings| - 1; !Affected(findings[..n], id) && findings[n].eventId != id
  {
  }

  lemma OtherRecord(records: seq<Finding>, f: Finding, id: string)
    requires f.eventId != id
    ensures Derive(records + [f], id) == Derive(records, id)
  {
  }

  lemma {:induction false} NoRecords(records: seq<Finding>, id: string)
    requires forall r :: r in records ==> r.eventId != id
    ensures Derive(records, id) == Annotation({}, 0)
  {
    if records == [] {
    } else {
      var n := |records| - 1;
      assert forall r :: r in records[..n] ==> r in records;
      NoRecords(records[..n], id);
      assert records[n] in records;
      assert FlagsOf(records, id) == {};
    }
  }

  /** Whatever is ingested, derived columns and records agree in every reachable state. */
  lemma ProcessKeepsConsistent(cfg: Settings, baseline: Baseline, mentions: Mentions, st: State, batch: seq<RawEvent>)
    requires 1 <= cfg.mfaFatigueThreshold && Consistent(st)
    ensures Consistent(ProcessTelemetry(cfg, baseline, mentions, st, batch))
  {
    if batch != [] && !RepeatsNewId(st.rows, batch) {
      var rows := AddRows(st.rows, batch);
      var slice := Slice(cfg, mentions, rows, batch);
      var findings := Detected(cfg, baseline, slice);
      AddRowsHasIds(st.rows, batch);
      SliceKnown(cfg, mentions, rows, batch);
      DetectedAbout(cfg, baseline, slice);
      CommitKeepsConsistent(st, rows, findings);
    }
  }

  lemma CommitKeepsConsistent(st: State, rows: seq<RawEvent>, findings: seq<Finding>)
    requires Consistent(st) && forall id :: HasId(st.rows, id) ==> HasId(rows, id)
    requires About(findings, rows)
    ensures var records := Record(st.records, findings);
            Consistent(State(rows, records, Annotate(st.notes, rows, records, findings)))
  {
    var records := Record(st.records, findings);
    RecordMembers(st.records, findings);
    var notes := Annotate(st.notes, rows, records, findings);
    forall id ensures id in notes <==> HasId(rows, id) {
      if HasId(rows, id) { var e :| e in rows && e.id == id; }
    }
    forall id | id in notes ensures notes[id] == Derive(records, id) {
      if !Affected(findings, id) {
        RecordUnaffected(st.records, findings, id);
        if id !in st.notes {
          NoRecords(st.records, id);
        }
      }
    }
  }

  // ---- Idempotence ----------------------------------------------------------------------------

  lemma AddRowsAgain(rows: seq<RawEvent>, batch: seq<RawEvent>)
    requires forall id :: HasId(batch, id) ==> HasId(rows, id)
    ensures AddRows(rows, batch) == rows && !RepeatsNewId(rows, batch)
  {
    forall e | e in batch ensures HasId(rows, e.id) {
      assert HasId(batch, e.id);
    }
    FilterNone(batch, Unstored(rows));
  }

  lemma {:induction false} RecordHasKeys(records: seq<Finding>, findings: seq<Finding>)
    ensures forall f :: f in findings ==> Recorded(Record(records, findings), KeyOf(f))
    ensures forall k :: Recorded(records, k) ==> Recorded(Record(records, findings), k)
  {
    if findings == [] {
    } else {
      var n := |findings| - 1;
      RecordHasKeys(records, findings[..n]);
      var earlier := Record(records, findings[..n]);
      forall k | Recorded(earlier, k) || k == KeyOf(findings[n])
        ensures Recorded(Record(records, findings), k)
      {
        if Recorded(earlier, k) {
          var r :| r in earlier && KeyOf(r) == k;
          assert r in Record(records, findings);
        } else {
          assert findings[n] in Record(records, findings);
        }
      }
      assert findings == findings[..n] + [findings[n]];
    }
  }

  lemma {:induction false} RecordAgain(records: seq<Finding>, findings: seq<Finding>)
    requires forall f :: f in findings ==> Recorded(records, KeyOf(f))
    ensures Record(records, findings) == records
  {
    if findings == [] {
    } else {
      var n := |findings| - 1;
      assert forall f :: f in findings[..n] ==> f in findings;
      RecordAgain(records, findings[..n]);
      assert findings[n] in findings;
    }
  }

  /** Redelivering a batch, even a refused one, adds no event, adds no record and changes no annotation. */
  lemma ReprocessingChangesNothing(cfg: Settings, baseline: Baseline, mentions: Mentions, st: State,
                                   batch: seq<RawEvent>)
    requires 1 <= cfg.mfaFatigueThreshold
    ensures var once := ProcessTelemetry(cfg, baseline, mentions, st, batch);
            ProcessTelemetry(cfg, baseline, mentions, once, batch) == once
  {
    if batch != [] && !RepeatsNewId(st.rows, batch) {
      var rows := AddRows(st.rows, batch);
      var findings := Detected(cfg, baseline, Slice(cfg, mentions, rows, batch));
      var records := Record(st.records, findings);
      AddRowsHasIds(st.rows, batch);
      AddRowsAgain(rows, batch);
      RecordHasKeys(st.records, findings);
      RecordAgain(records, findings);
      AnnotateAgain(st.notes, rows, records, findings);
    }
  }

  lemma AnnotateAgain(notes: map<string, Annotation>, rows: seq<RawEvent>, records: seq<Finding>,
                      findings: seq<Finding>)
    ensures var once := Annotate(notes, rows, records, findings);
            Annotate(once, rows, records, findings) == once
  {
  }

  // ---- First write wins -----------------------------------------------------------------------

  ghost predicate UniqueKeys(records: seq<Finding>) {
    forall i, j :: 0 <= i < j < |records| ==> KeyOf(records[i]) != KeyOf(records[j])
  }

  /** The table only grows, each stored finding stays as first written, and no key occurs twice. */
  lemma {:induction false} RecordAppends(records: seq<Finding>, findings: seq<Finding>)
    requires UniqueKeys(records)
    ensures records <= Record(records, findings)
    ensures UniqueKeys(Record(records, findings))
  {
    if findings == [] {
    } else {
      var n := |findings| - 1;
      RecordAppends(records, findings[..n]);
      var earlier := Record(records, findings[..n]);
      if !Recorded(earlier, KeyOf(findings[n])) {
        forall i | 0 <= i < |earlier| ensures KeyOf(earlier[i]) != KeyOf(findings[n]) {
          assert earlier[i] in earlier;
        }
      }
    }
  }

  // ---- Flags and points of an event -----------------------------------------------------------

  /** Whether stored now or before: the flags of an event's records are those of its findings. */
  lemma RecordFlags(records: seq<Finding>, findings: seq<Finding>, id: string)
    ensures FlagsOf(Record(records, findings), id) == FlagsOf(records, id) + FlagsOf(findings, id)
  {
    RecordMembers(records, findings);
    RecordHasKeys(records, findings);
    var all := Record(records, findings);
    forall flag | flag in FlagsOf(records, id) + FlagsOf(findings, id) ensures flag in FlagsOf(all, id) {
      if flag in FlagsOf(records, id) {
        var f :| f in records && f.eventId == id && f.flag == flag;
        assert Recorded(records, KeyOf(f));
        var r :| r in all && KeyOf(r) == KeyOf(f);
      } else {
        var f :| f in findings && f.eventId == id && f.flag == flag;
        var r :| r in all && KeyOf(r) == KeyOf(f);
      }
    }
  }

  lemma {:induction false} PointsPositive(records: seq<Finding>, r: Finding)
    requires r in records && r.risk > 0 && forall f :: f in records ==> f.risk >= 0
    ensures PointsOf(records, r.eventId) > 0
  {
    var n := |records| - 1;
    assert records == records[..n] + [records[n]];
    PointsNonNegative(records[..n], r.eventId);
    if r in records[..n] {
      PointsPositive(records[..n], r);
    }
  }

  lemma {:induction false} PointsNonNegative(records: seq<Finding>, id: string)
    requires forall f :: f in records ==> f.risk >= 0
    ensures PointsOf(records, id) >= 0
  {
    if records == [] {
    } else {
      var n := |records| - 1;
      assert records == records[..n] + [records[n]];
      PointsNonNegative(records[..n], id);
    }
  }

  /** Every record but one of impossible travel scores. */
  ghost predicate Scoring(records: seq<Finding>) {
    forall r :: r in records && r.rule != TRAVEL_RULE ==> r.risk > 0
  }

  lemma ProcessKeepsScoring(cfg: Settings, baseline: Baseline, mentions: Mentions, st: State, batch: seq<RawEvent>)
    requires 1 <= cfg.mfaFatigueThreshold && Scoring(st.records)
    ensures Scoring(ProcessTelemetry(cfg, baseline, mentions, st, batch).records)
  {
    if batch != [] && !RepeatsNewId(st.rows, batch) {
      var slice := Slice(cfg, mentions, AddRows(st.rows, batch), batch);
      var findings := Detected(cfg, baseline, slice);
      RecordMembers(st.records, findings);
      forall r | r in findings && r.rule != TRAVEL_RULE ensures r.risk > 0 {
        OtherRulesScore(cfg, baseline, slice, r);
      }
    }
  }

  /** An event with a record of another rule than impossible travel has points in its row. */
  lemma ScoredRow(st: State, r: Finding)
    requires Consistent(st) && Scoring(st.records) && r in st.records && r.rule != TRAVEL_RULE
    ensures r.eventId in st.notes && st.notes[r.eventId].risk > 0
  {
    PointsPositive(st.records, r);
  }
}
