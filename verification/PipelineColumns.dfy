/**
 * The columns the sweep's query reads, and how the workers' transactions write them: the row of the
 * gate protocol is a view of the report table and the audit log.
 */
module PipelineColumns {
  import opened Common
  import opened Reports
  import G = PendingStepGate
  import R = Reconciliation
  import D = DuplicateDispatch
  import RowSteps
  import BuildingSeverity
  import DS = DuplicateScorer

  predicate AiTerminal(s: PhotoStatus) {
    s.Accepted? || s.InsufficientQuality? || s.AiProcessingFailed?
  }

  function RowView(db: Db, id: ReportId): G.Row
    requires id in db.reports
  {
    var r := db.reports[id];
    G.Row(r.status.Pending?, r.matchConfidence.Some?, r.photo.Some?, AiTerminal(r.photoStatus), DedupDone(db, id))
  }

  /** A GIS transaction that commits is the protocol's finished GIS step; one that hits an integrity
      error writes nothing. */
  lemma GisCommitFinishesStage(db: Db, id: ReportId, m: GisMatch)
    requires id in db.reports
    ensures BuildingMatched(db, id, m).Ok? ==>
      var db' := BuildingMatched(db, id, m).value;
      id in db'.reports && RowView(db', id) == G.Written(RowView(db, id), G.Gis)
    ensures BuildingMatched(db, id, m).Err? <==> m.Matched? && m.building !in db.buildings
    ensures BuildingMatched(db, id, m).Err? ==> BuildingMatched(db, id, m).error.Integrity?
  {
  }

  /** What a match leaves on the row: the building with its confidence, or confidence zero and the building
      of an earlier match; the scorer's other columns stay. */
  lemma GisMatchOnRow(db: Db, id: ReportId, m: GisMatch)
    requires id in db.reports && BuildingMatched(db, id, m).Ok?
    ensures id in BuildingMatched(db, id, m).value.reports
    ensures var before, after := db.reports[id], BuildingMatched(db, id, m).value.reports[id];
      && after == before.(building := after.building, matchConfidence := after.matchConfidence)
      && after.building == (if m.Matched? then Some(m.building) else before.building)
      && after.matchConfidence == Some(if m.Matched? then m.confidence else 0.0)
  {
  }

  // ------------------------------------------------------------------
  // A submission
  // ------------------------------------------------------------------

  /** Only existing reports have been scored. */
  ghost predicate ScoredExist(db: Db) {
    forall id :: DedupDone(db, id) ==> id in db.reports
  }

  lemma {:induction false} MergedAllKeepsScoredExist(db: Db, primary: ReportId, dups: seq<ReportId>)
    requires ScoredExist(db)
    ensures MergedAll(db, primary, dups).Ok? ==> ScoredExist(MergedAll(db, primary, dups).value)
    decreases |dups|
  {
    if dups != [] && dups[0] in db.reports {
      var once := MergedOne(db, primary, dups[0]);
      AppendKeepsScoredExist(db, once,
                             AuditRow(ManualMerge, dups[0], Some(db.reports[dups[0]].status), Some(Duplicate)));
      MergedAllKeepsScoredExist(once, primary, dups[1..]);
    }
  }

  lemma AppendKeepsScoredExist(before: Db, after: Db, row: AuditRow)
    requires ScoredExist(before) && before.reports.Keys <= after.reports.Keys && after.audit == before.audit + [row]
    requires row.operation.DuplicateScored? || row.operation.MergeQueued? ==> row.record in after.reports
    ensures ScoredExist(after)
  {
    forall id | DedupDone(after, id)
      ensures id in after.reports
    {
      if row.record != id || !(row.operation.DuplicateScored? || row.operation.MergeQueued?) {
        var k :| 0 <= k < |after.audit| && after.audit[k].record == id
                 && (after.audit[k].operation.DuplicateScored? || after.audit[k].operation.MergeQueued?);
        assert before.audit[k] == after.audit[k];
        assert DedupDone(before, id);
      }
    }
  }

  lemma StepKeepsScoredExist(w: World, e: Event)
    requires ScoredExist(w.db) && Possible(w, e)
    ensures ScoredExist(Step(w, e).db)
  {
    var after := Step(w, e).db;
    if e.Merge? {
      MergedAllKeepsScoredExist(w.db, e.primary, e.dups);
    } else if after.audit != w.db.audit {
      assert after.audit == w.db.audit + [after.audit[|w.db.audit|]];
      AppendKeepsScoredExist(w.db, after, after.audit[|w.db.audit|]);
    }
  }

  lemma {:induction false} RunKeepsScoredExist(w: World, es: seq<Event>, w': World)
    requires ScoredExist(w.db) && Reaches(w, es, w')
    ensures ScoredExist(w'.db)
    decreases |es|
  {
    if es != [] {
      StepKeepsScoredExist(w, es[0]);
      RunKeepsScoredExist(Step(w, es[0]), es[1..], w');
    }
  }

  /** In every reachable state a submission that succeeds starts the protocol on a fresh row: pending, with
      no stage done and an AI stage exactly when there is a photo. */
  lemma SubmissionStartsPipeline(w: World, es: seq<Event>, w': World, id: ReportId, s: Submission)
    requires Initial(w) && Reaches(w, es, w')
    ensures Created(w'.db, id, s).Ok? <==> id !in w'.db.reports
    ensures Created(w'.db, id, s).Err? ==> Created(w'.db, id, s).error.Integrity?
    ensures Created(w'.db, id, s).Ok? ==>
      var after := Created(w'.db, id, s).value;
      id in after.reports && RowView(after, id) == G.Row(true, false, s.photo.Some?, false, false)
  {
    RunKeepsScoredExist(w, es, w');
    if Created(w'.db, id, s).Ok? {
      OtherAuditRow(w'.db, Created(w'.db, id, s).value, AuditRow(Create, id, None, Some(Pending)), id);
    }
  }

  /** What the workers, the scorer and the analysts will read of a new report is what was submitted: its
      place, categories, damage, photo and answer, unmatched and unhashed; critical exactly when urgent. */
  lemma SubmissionOnRow(db: Db, id: ReportId, s: Submission)
    requires Created(db, id, s).Ok?
    ensures id in Created(db, id, s).value.reports
    ensures var r := Created(db, id, s).value.reports[id];
      && FactsOf(r) == DS.Facts(None, s.lat, s.lng, None, s.crisis, s.infrastructure)
      && SnapshotOf(r) == AiSnapshot(s.medical, None)
      && r.damage == s.damage && r.photo == s.photo && r.createdAt == s.createdAt && r.trustTier == s.trustTier
      && (r.priority.Critical? <==> s.medical == Some(Urgent)) && (!r.priority.Critical? ==> r.priority.Normal?)
      && (r.photoStatus.Processing? <==> s.photo.Some?) && (!r.photoStatus.Processing? ==> r.photoStatus.PhotoPending?)
      && r.possible.None? && r.duplicateOf.None? && r.duplicateScore.None? && r.requestedAt.None?
  {
  }

  /** Every outcome of the AI step, permanent failure included, is terminal for the sweep. */
  lemma AiCommitFinishesStage(db: Db, id: ReportId, snap: AiSnapshot, outcome: AiOutcome)
    requires id in db.reports
    ensures id in AiWritten(db, id, snap, outcome).reports
    ensures RowView(AiWritten(db, id, snap, outcome), id) == G.Written(RowView(db, id), G.Ai)
  {
  }

  /** A scoring transaction is the protocol's `Score` step: it leaves the "dedup ran" mark on a pending
      report, and takes it out of `pending` exactly when it queues a merge. */
  lemma ScoringIsScoreStep(db: Db, id: ReportId, cs: seq<ReportId>, dist: DS.Distance, p: G.Pipe)
    returns (merge: bool)
    requires id in db.reports && CandidateList(db.reports, id, cs)
    requires p.row == RowView(db, id) && p.scores > 0
    ensures id in ReportScored(db, id, cs, dist).reports
    ensures G.Next(p, G.Score(merge)).row == RowView(ReportScored(db, id, cs, dist), id)
  {
    var db' := ReportScored(db, id, cs, dist);
    merge := db.reports[id].status.Pending? && !db'.reports[id].status.Pending?;
    if db.reports[id].status.Pending? {
      assert db'.audit[|db.audit|].record == id;
    }
  }

  // ------------------------------------------------------------------
  // What the life cycle does to those columns between sweeps
  // ------------------------------------------------------------------

  lemma OtherAuditRow(before: Db, after: Db, row: AuditRow, id: ReportId)
    requires after.audit == before.audit + [row] && !row.operation.DuplicateScored? && !row.operation.MergeQueued?
    ensures DedupDone(after, id) <==> DedupDone(before, id)
  {
    if DedupDone(before, id) {
      var k :| 0 <= k < |before.audit| && before.audit[k].record == id
               && (before.audit[k].operation.DuplicateScored? || before.audit[k].operation.MergeQueued?);
      assert after.audit[k] == before.audit[k];
    }
  }

  /** Adding a photo, on the row: a photo whose AI step is open, in the state a submitted one has; the hash
      of an earlier photo stays until the step writes. Only the owner can, and only to an existing report. */
  lemma PhotoIsChange(db: Db, id: ReportId, isOwner: bool, key: PhotoKey, p: G.Pipe)
    requires PhotoAttached(db, id, isOwner, key).Ok? && id in db.reports && p.row == RowView(db, id)
    ensures var after := PhotoAttached(db, id, isOwner, key).value;
      && id in after.reports && RowView(after, id) == R.PipeAfter(p, R.ChangePhoto(0, true, false)).row
      && after.reports[id] == db.reports[id].(photo := Some(key), photoStatus := after.reports[id].photoStatus)
      && after.reports[id].photoStatus.Processing?
  {
    OtherAuditRow(db, PhotoAttached(db, id, isOwner, key).value, AuditRow(PhotoAdded, id, None, None), id);
  }

  lemma PhotoFailsIff(db: Db, id: ReportId, isOwner: bool, key: PhotoKey)
    ensures PhotoAttached(db, id, isOwner, key) == Err(NotFound) <==> id !in db.reports
    ensures PhotoAttached(db, id, isOwner, key) == Err(NotOwner) <==> id in db.reports && !isOwner
    ensures PhotoAttached(db, id, isOwner, key).Ok? <==> id in db.reports && isOwner
  {
  }

  /** Storing a hash touches the hash alone, and a hash that could not be computed replaces none. */
  lemma HashOnRow(db: Db, id: ReportId, phash: Option<string>)
    requires id in db.reports
    ensures id in HashStored(db, id, phash).reports
    ensures HashStored(db, id, phash).reports[id]
         == db.reports[id].(phash := if phash.Some? then phash else db.reports[id].phash)
  {
  }

  /** An analyst's decision, on the row: no longer pending. */
  lemma TransitionIsDecide(db: Db, id: ReportId, target: Status, reason: Option<string>, p: G.Pipe)
    requires Transitioned(db, id, target, reason).Ok? && id in db.reports && p.row == RowView(db, id)
    ensures var after := Transitioned(db, id, target, reason).value;
      id in after.reports && RowView(after, id) == R.PipeAfter(p, R.Decide(0)).row
  {
    OtherAuditRow(db, Transitioned(db, id, target, reason).value,
                  AuditRow(StatusChange, id, Some(db.reports[id].status), Some(target)), id);
  }

  /** One duplicate of a manual merge, on every row: the duplicate is no longer pending, the primary may
      gain a photo, nothing else changes. */
  lemma MergeIsDecideAndChange(db: Db, primary: ReportId, dup: ReportId, id: ReportId, p: G.Pipe)
    requires dup in db.reports && id in db.reports && p.row == RowView(db, id)
    ensures var after := MergedOne(db, primary, dup);
      && id in after.reports
      && RowView(after, id) ==
         if id == dup then R.PipeAfter(p, R.Decide(0)).row
         else if id == primary && db.reports[dup].photo.Some?
         then R.PipeAfter(p, R.ChangePhoto(0, true, p.row.aiDone)).row
         else p.row
  {
    OtherAuditRow(db, MergedOne(db, primary, dup),
                  AuditRow(ManualMerge, dup, Some(db.reports[dup].status), Some(Duplicate)), id);
  }

  // ------------------------------------------------------------------
  // The sweep never loops on a scored report
  // ------------------------------------------------------------------

  lemma {:induction false} MergedAllAppends(db: Db, primary: ReportId, dups: seq<ReportId>)
    ensures MergedAll(db, primary, dups).Ok? ==> db.audit <= MergedAll(db, primary, dups).value.audit
    decreases |dups|
  {
    if dups != [] && dups[0] in db.reports {
      MergedAllAppends(MergedOne(db, primary, dups[0]), primary, dups[1..]);
    }
  }

  /** The audit log is append-only. */
  lemma AuditOnlyGrows(w: World, e: Event)
    requires Possible(w, e)
    ensures w.db.audit <= Step(w, e).db.audit
  {
    if e.Merge? {
      MergedAllAppends(w.db, e.primary, e.dups);
    }
  }

  /** A report held for merge review has been scored, and the log says so. */
  ghost predicate HeldAreScored(db: Db) {
    forall id :: id in db.reports && db.reports[id].status.PendingMergeReview? ==> DedupDone(db, id)
  }

  /** Only scoring puts a report on hold. */
  lemma HoldComesFromScore(w: World, e: Event, id: ReportId)
    requires Possible(w, e) && id in Step(w, e).db.reports
    requires Step(w, e).db.reports[id].status.PendingMergeReview?
    requires id in w.db.reports ==> !w.db.reports[id].status.PendingMergeReview?
    ensures e.Score? && e.id == id && id in w.db.reports && w.db.reports[id].status.Pending?
  {
    if RowSteps.Quiet(e) {
      RowSteps.QuietStep(w, e);
    } else if e.Merge? {
      if Merged(w.db, e.primary, e.dups).Ok? {
        BuildingSeverity.MergedAllColumns(w.db, e.primary, e.dups, id);
      }
    } else if e.Confirm? {
      RowSteps.ConfirmedStatus(w.db, e.id);
    } else if e.RejectPending? {
      RowSteps.RejectedStatus(w.db, e.id);
    } else if e.Transition? {
      RowSteps.TransitionedStatus(w.db, e.id, e.target, e.reason);
    } else if e.Score? {
      RowSteps.ScoredStatus(w.db, e.id, e.candidates, e.dist);
      assert id != e.id ==> RowSteps.SameLifecycle(w.db.reports[id], Step(w, e).db.reports[id]);
    }
  }

  lemma StepHeldScored(w: World, e: Event)
    requires HeldAreScored(w.db) && Possible(w, e)
    ensures HeldAreScored(Step(w, e).db)
  {
    AuditOnlyGrows(w, e);
    var db' := Step(w, e).db;
    forall id | id in db'.reports && db'.reports[id].status.PendingMergeReview?
      ensures DedupDone(db', id)
    {
      if id in w.db.reports && w.db.reports[id].status.PendingMergeReview? {
      } else {
        HoldComesFromScore(w, e, id);
        assert db'.audit[|w.db.audit|].record == id;
      }
    }
  }

  lemma {:induction false} RunHeldScored(w: World, es: seq<Event>, w': World)
    requires HeldAreScored(w.db) && Reaches(w, es, w')
    ensures HeldAreScored(w'.db)
    ensures w.db.audit <= w'.db.audit
    decreases |es|
  {
    if es != [] {
      StepHeldScored(w, es[0]);
      AuditOnlyGrows(w, es[0]);
      RunHeldScored(Step(w, es[0]), es[1..], w');
    }
  }

  /** Rejecting a merge, on the row, in a reachable state: the scored report is pending again. */
  lemma RejectIsReopen(w: World, es: seq<Event>, w': World, id: ReportId, p: G.Pipe)
    requires Initial(w) && Reaches(w, es, w') && id in w'.db.reports
    requires MergeRejected(w'.db, id).Ok? && p.row == RowView(w'.db, id)
    ensures p.row.scored
    ensures var after := MergeRejected(w'.db, id).value;
      id in after.reports && RowView(after, id) == R.PipeAfter(p, R.Reopen(0)).row
  {
    RunHeldScored(w, es, w');
    OtherAuditRow(w'.db, MergeRejected(w'.db, id).value,
                  AuditRow(RejectMerge, id, Some(PendingMergeReview), Some(Pending)), id);
  }

  /** Main result: once a report has been scored or held, no sweep dispatches its scoring directly again,
      also after its merge was rejected; it is selected again if and only if it is pending inside the
      age window and its GIS or AI columns are missing. */
  lemma ScoredReportIsNotRescored(w: World, es: seq<Event>, w': World, more: seq<Event>, w'': World, id: ReportId,
                                  e: R.Entry, now: int, grace: nat)
    requires Initial(w) && Reaches(w, es, w') && Reaches(w', more, w'')
    requires id in w'.db.reports && id in w''.db.reports
    requires w'.db.reports[id].status.PendingMergeReview? || DedupDone(w'.db, id)
    requires e.id == id && e.pipe.row == RowView(w''.db, id)
    ensures !R.NeedsDedup(RowView(w''.db, id))
    ensures D.ScoreJob(id) !in D.RowMessages(R.RowOf(e))
    ensures R.Stuck(e, now, grace)
       <==> w''.db.reports[id].status.Pending? && now - 72 * 60 < e.created < now - grace
            && (w''.db.reports[id].matchConfidence.None?
                || (w''.db.reports[id].photo.Some? && !AiTerminal(w''.db.reports[id].photoStatus)))
  {
    RunHeldScored(w, es, w');
    RunHeldScored(w', more, w'');
  }
}
