/**
 * The operations of the reporting service, statement by statement, over the three tables. Each is one
 * event of a run from the empty database, so every whole-run result holds of the tables at all times.
 */
module DatabaseService {
  import opened Common
  import opened Reports
  import opened BuildingSeverity
  import AuditTrail
  import DuplicateLinks
  import PipelineColumns
  import ReporterConversation
  import ReviewPriority
  import StatusRules
  import DS = DuplicateScorer

  /** The run so far and the state it has reached. */
  datatype History = History(events: seq<Event>, world: World)

  ghost function Then(h: History, e: Event): History
    requires Possible(h.world, e)
  {
    History(h.events + [e], Step(h.world, e))
  }

  function ErrorOf(r: Result<Db, Error>): Result<(), Error> {
    if r.Ok? then Ok(()) else Err(r.error)
  }

  /** What the proximity query gives: its rows, or an exception and the bounding-box rows instead. */
  datatype GeoRows = Within(rows: seq<ReportId>) | Fallback(rows: seq<ReportId>)

  ghost predicate QueryRows(reports: map<ReportId, Report>, id: ReportId, rows: seq<ReportId>) {
    && (forall i :: 0 <= i < |rows| ==> IsCandidate(reports, id, rows[i]))
    && (forall i, j :: 0 <= i < j < |rows| ==> rows[i] != rows[j])
  }

  /** The rows of the same-building query, which runs only for a matched report. */
  function BuildingRows(reports: map<ReportId, Report>, id: ReportId, rows: seq<ReportId>): seq<ReportId>
    requires id in reports
  {
    if reports[id].building.Some? then rows else []
  }

  /** What SQL promises of the two candidate queries. */
  ghost predicate QueriesAnswer(reports: map<ReportId, Report>, id: ReportId, building: seq<ReportId>, geo: GeoRows)
    requires id in reports
  {
    var first := BuildingRows(reports, id, building);
    && QueryRows(reports, id, building) && |building| <= MAX_CANDIDATES
    && QueryRows(reports, id, geo.rows) && |geo.rows| <= MAX_CANDIDATES - |first|
    && (geo.Within? ==> forall c :: c in geo.rows ==> c !in first)
  }

  lemma SeveritiesHaveAHead(reports: map<ReportId, Report>, rows: set<ReportId>) returns (id: ReportId)
    requires rows <= reports.Keys && rows != {}
    ensures HeadsOrder(reports, rows, id)
    decreases rows
  {
    id :| id in rows;
    var some, others := id, rows - {id};
    assert forall other :: other in rows ==> other == some || other in others;
    if others != {} {
      var best := SeveritiesHaveAHead(reports, others);
      if SeverityRank(reports[best].damage) >= SeverityRank(reports[id].damage) {
        id := best;
      }
    }
  }

  lemma JoinedRows(reports: map<ReportId, Report>, id: ReportId, first: seq<ReportId>, more: seq<ReportId>)
    requires QueryRows(reports, id, first) && QueryRows(reports, id, more)
    requires forall c :: c in more ==> c !in first
    ensures QueryRows(reports, id, first + more)
  {
    var rows := first + more;
    forall i, j | 0 <= i < j < |rows|
      ensures rows[i] != rows[j]
    {
      if i < |first| <= j {
        assert rows[j] in more && rows[i] in first;
      }
    }
  }

  class Database {
    var reports: map<ReportId, Report>
    var buildings: map<BuildingId, Severity>
    var audit: seq<AuditRow>
    ghost const start: World
    ghost var history: History

    function Snapshot(): Db
      reads this
    {
      Db(reports, buildings, audit)
    }

    /** The history is a run from an empty database, whatever events it is made of. */
    ghost predicate Recorded()
      reads this
    {
      Initial(start) && Reaches(start, history.events, history.world)
    }

    /** The tables are the state that the history reaches. */
    ghost predicate Valid()
      reads this
    {
      Recorded() && history.world.db == Snapshot()
    }

    constructor (footprints: set<BuildingId>)
      ensures Valid() && history.events == []
      ensures Snapshot() == Db(map[], map b | b in footprints :: NoDamage, [])
    {
      var undamaged := map b | b in footprints :: NoDamage;
      reports, buildings, audit := map[], undamaged, [];
      start := World(Db(map[], undamaged, []), map[], map[]);
      history := History([], World(Db(map[], undamaged, []), map[], map[]));
    }

    /** Main result: at any time, whatever was called in whatever order, the audit log replays to the live
        status, held and linked reports are as they should be, urgent reports are critical, and, unless
        one of the calls was of the kinds named, severities, links and replies are in order too. */
    lemma Guarantees(id: ReportId)
      requires Valid()
      ensures AuditTrail.Replay(AuditTrail.StatusRows(audit, id)) == Ok(AuditTrail.StatusOf(reports, id))
      ensures id in reports && reports[id].status.PendingMergeReview? ==>
                && reports[id].possible.Some? && reports[id].possible.value in reports
                && reports[id].duplicateScore.Some? && reports[id].duplicateScore.value >= 0.9
                && DedupDone(Snapshot(), id)
      ensures id in reports && reports[id].duplicateOf.Some? ==> reports[id].status.Duplicate?
      ensures id in reports && reports[id].medical == Some(Urgent) ==> reports[id].priority.Critical?
      ensures Undisturbed(start, history.events) ==> Agrees(Snapshot())
      ensures DuplicateLinks.NoneClosesCycle(start, history.events) ==>
                DuplicateLinks.Forest(DuplicateLinks.LinksOf(reports))
      ensures ReviewPriority.NoneBuried(start, history.events) ==> ReviewPriority.RepliesAreHigh(reports)
    {
      var es, w := history.events, history.world;
      AuditTrail.AuditReplaysToLiveState(start, es, w, id);
      PipelineColumns.RunHeldScored(start, es, w);
      if id in reports {
        StatusRules.ReachableRowsAreGood(start, es, w, id);
        if reports[id].medical == Some(Urgent) {
          ReviewPriority.UrgentStaysCritical(start, es, w, id);
        }
      }
      if Undisturbed(start, es) {
        RunAgrees(start, es, w);
      }
      if DuplicateLinks.NoneClosesCycle(start, es) {
        assert DuplicateLinks.RankedBy(DuplicateLinks.LinksOf(start.db.reports), map[]);
        DuplicateLinks.ForestUnlessClosed(start, es, w);
      }
      if ReviewPriority.NoneBuried(start, es) {
        ReviewPriority.RepliesStayHighUnlessBuried(start, es, w);
      }
    }

    /** Closes a transaction: the tables now hold what the event leads to. */
    ghost method Record(e: Event)
      requires Recorded() && Possible(history.world, e) && Snapshot() == Step(history.world, e).db
      modifies this`history
      ensures Valid() && history == Then(old(history), e)
    {
      ReachesSnoc(start, history.events, history.world, e);
      history := Then(history, e);
    }

    method WriteAudit(operation: Operation, record: ReportId, before: Option<Status>, after: Option<Status>)
      modifies this`audit
      ensures audit == old(audit) + [AuditRow(operation, record, before, after)]
    {
      audit := audit + [AuditRow(operation, record, before, after)];
    }

    method CreateReport(id: ReportId, s: Submission) returns (r: Result<(), Error>)
      requires Valid()
      modifies this
      ensures Valid() && history == Then(old(history), Submit(id, s))
      ensures r == ErrorOf(Created(old(Snapshot()), id, s))
    {
      if id in reports {
        r := Err(Integrity);
      } else {
        reports := reports[id := NewReport(s)];
        WriteAudit(Create, id, None, Some(Pending));
        r := Ok(());
      }
      Record(Submit(id, s));
    }

    /** A photo that fails moderation leaves an audit row and nothing else. */
    method RefusePhoto(record: ReportId)
      requires Valid()
      modifies this
      ensures Valid() && history == Then(old(history), Event.RefusePhoto(record))
    {
      WriteAudit(ModerationRejection, record, None, None);
      Record(Event.RefusePhoto(record));
    }

    method AddPhotoToReport(id: ReportId, isOwner: bool, key: PhotoKey) returns (r: Result<(), Error>)
      requires Valid()
      modifies this
      ensures Valid() && history == Then(old(history), AttachPhoto(id, isOwner, key))
      ensures r == ErrorOf(PhotoAttached(old(Snapshot()), id, isOwner, key))
    {
      if id !in reports {
        r := Err(NotFound);
      } else if !isOwner {
        r := Err(NotOwner);
      } else {
        reports := reports[id := reports[id].(photo := Some(key), photoStatus := Processing)];
        WriteAudit(PhotoAdded, id, None, None);
        r := Ok(());
      }
      Record(AttachPhoto(id, isOwner, key));
    }

    /** Analyst side: loads the building, then folds over its non-rejected reports. */
    method RecomputeBuildingSeverity(b: BuildingId)
      modifies this`buildings
      ensures buildings == if b in old(buildings) then old(buildings)[b := Worst(reports, b)] else old(buildings)
    {
      if b !in buildings {
        return;
      }
      var worst := RecomputeInPython(reports, b);
      buildings := buildings[b := worst];
    }

    /** GIS side: one UPDATE whose subquery takes the first row of a descending order. */
    method UpdateBuildingSeverity(b: BuildingId)
      modifies this`buildings
      ensures buildings == if b in old(buildings) then old(buildings)[b := Worst(reports, b)] else old(buildings)
    {
      if b in buildings {
        var rows := CountingIds(reports, b);
        if rows == {} {
          SqlAgreesWithPython(reports, b, None);
          buildings := buildings[b := NoDamage];
        } else {
          ghost var head := SeveritiesHaveAHead(reports, rows);
          var first :| first in rows && HeadsOrder(reports, rows, first);
          SqlAgreesWithPython(reports, b, Some(first));
          buildings := buildings[b := reports[first].damage];
        }
      }
    }

    method MatchBuilding(id: ReportId, m: GisMatch) returns (r: Result<(), Error>)
      requires Valid()
      modifies this
      ensures Valid() && history == Then(old(history), Event.MatchBuilding(id, m))
      ensures r == ErrorOf(BuildingMatched(old(Snapshot()), id, m))
    {
      r := Ok(());
      if id in reports {
        match m {
          case Matched(b, confidence) =>
            if b !in buildings {
              r := Err(Integrity);
            } else {
              reports := reports[id := reports[id].(building := Some(b), matchConfidence := Some(confidence))];
              UpdateBuildingSeverity(b);
            }
          case Unmatched =>
            reports := reports[id := reports[id].(matchConfidence := Some(0.0))];
        }
      }
      Record(Event.MatchBuilding(id, m));
    }

    /** First half of the AI step; the vision call happens between this and `WriteAiResult`. */
    method ReadForAi(id: ReportId, ghost task: nat) returns (snap: Option<AiSnapshot>)
      requires Valid()
      modifies this`history
      ensures Valid() && (snap.Some? <==> id in reports)
      ensures snap.Some? ==>
                && history == Then(old(history), AiRead(task, id))
                && history.world.reading[task] == Reading(id, snap.value)
      ensures snap.None? ==> history == old(history)
    {
      if id !in reports {
        return None;
      }
      snap := Some(AiSnapshot(reports[id].medical, reports[id].respondedAt));
      Record(AiRead(task, id));
    }

    /** The hash is stored, if it could be computed, before the vision call. */
    method StoreHash(id: ReportId, phash: Option<string>)
      requires Valid()
      modifies this
      ensures Valid() && history == Then(old(history), AiHash(id, phash))
    {
      if id in reports && phash.Some? {
        reports := reports[id := reports[id].(phash := phash)];
      }
      Record(AiHash(id, phash));
    }

    /** The write of the step that read `snap`, however long ago. */
    method WriteAiResult(id: ReportId, snap: AiSnapshot, outcome: AiOutcome, ghost task: nat)
      requires Valid() && task in history.world.reading && history.world.reading[task] == Reading(id, snap)
      modifies this
      ensures Valid() && history == Then(old(history), AiWrite(task, outcome))
      ensures id in old(reports) ==>
                && id in reports
                && (reports[id].priority.Critical? <==> ReviewPriority.NeedsAnalystNow(snap, outcome))
                && (reports[id].priority.High? <==> !ReviewPriority.NeedsAnalystNow(snap, outcome)
                                                    && ReviewPriority.NeedsAnalystSoon(snap, outcome))
    {
      if id in reports {
        ReviewPriority.WrittenPriorityIff(Snapshot(), id, snap, outcome);
      }
      if id in reports {
        var priority, phash := Critical, reports[id].phash;
        match outcome {
          case Unusable(quality) =>
            priority := ComputeReviewPriority(None, Some(quality), false);
            priority := ApplyPriorityFloor(priority, snap.medical, snap.respondedAt);
          case Analysed(quality, confidence, divergence, hash) =>
            phash := hash;
            priority := ComputeReviewPriority(Some(confidence), Some(quality), divergence);
            priority := ApplyPriorityFloor(priority, snap.medical, snap.respondedAt);
          case RetriesExhausted =>
        }
        reports := reports[id := reports[id].(photoStatus := AiPhotoStatus(outcome), priority := priority,
                                              phash := phash)];
      }
      Record(AiWrite(task, outcome));
    }

    /** Same-building rows first, then proximity rows up to the cap, without repeats. */
    method LoadCandidates(id: ReportId, building: seq<ReportId>, geo: GeoRows) returns (rows: seq<ReportId>)
      requires id in reports && QueriesAnswer(reports, id, building, geo)
      ensures CandidateList(reports, id, rows) && |rows| <= 500
      ensures forall c :: c in rows <==>
                || (reports[id].building.Some? && c in building)
                || ((reports[id].building.Some? ==> |building| < 500)
                    && reports[id].lat.Some? && reports[id].lng.Some? && c in geo.rows)
    {
      rows := [];
      if reports[id].building.Some? {
        rows := building;
      }
      ghost var first := rows;
      if |rows| < MAX_CANDIDATES && reports[id].lat.Some? && reports[id].lng.Some? {
        match geo
        case Within(more) =>
          JoinedRows(reports, id, rows, more);
          rows := rows + more;
        case Fallback(more) =>
          var existing := set c | c in rows;
          for n := 0 to |more|
            invariant |rows| <= |first| + n
            invariant QueryRows(reports, id, rows)
            invariant forall c :: c in rows <==> c in first || c in more[..n]
          {
            assert more[..n + 1] == more[..n] + [more[n]];
            if more[n] !in existing {
              assert more[n] !in more[..n];
              JoinedRows(reports, id, rows, [more[n]]);
              rows := rows + [more[n]];
            }
          }
          assert more[..|more|] == more;
      }
    }

    /** `_score_report_impl`, as one transaction. */
    method ScoreReport(id: ReportId, building: seq<ReportId>, geo: GeoRows, dist: DS.Distance)
      returns (candidates: seq<ReportId>)
      requires Valid()
      requires id in reports ==> QueriesAnswer(reports, id, building, geo)
      modifies this
      ensures CandidateList(old(reports), id, candidates)
      ensures Valid() && history == Then(old(history), Score(id, candidates, dist))
    {
      candidates := [];
      if id in reports && reports[id].status.Pending? {
        candidates := LoadCandidates(id, building, geo);
        ApplyVerdict(id, candidates, dist);
      }
      Record(Score(id, candidates, dist));
    }

    /** Scoring and the write its action asks for. */
    method ApplyVerdict(id: ReportId, candidates: seq<ReportId>, dist: DS.Distance)
      requires id in reports && reports[id].status.Pending? && CandidateList(reports, id, candidates)
      modifies this`reports, this`audit
      ensures Snapshot() == ReportScored(old(Snapshot()), id, candidates, dist)
    {
      var r := reports[id];
      var facts := Candidates(reports, candidates);
      if candidates == [] {
        WriteAudit(DuplicateScored, id, None, None);
        assert reports[id := r] == reports;
        return;
      }
      var result := DS.Score(FactsOf(r), facts, dist);
      assert (result.action, result.bestScore, result.best) == VerdictFor(reports, id, candidates, dist);
      if result.action.AutoMerge? && result.best.Some? {
        reports := reports[id := r.(status := PendingMergeReview,
                                    possible := Some(result.best.value.candidate.id),
                                    duplicateScore := Some(result.bestScore))];
        WriteAudit(MergeQueued, id, Some(Pending), Some(PendingMergeReview));
      } else if result.action.AnalystFlag? && result.best.Some? {
        reports := reports[id := r.(possible := Some(result.best.value.candidate.id),
                                    duplicateScore := Some(result.bestScore))];
        WriteAudit(DuplicateScored, id, None, None);
      } else {
        assert reports[id := r] == reports;
        WriteAudit(DuplicateScored, id, None, None);
      }
    }

    method TransitionReportStatus(id: ReportId, target: Status, reason: Option<string>)
      returns (r: Result<(), Error>)
      requires Valid()
      modifies this
      ensures Valid() && history == Then(old(history), Transition(id, target, reason))
      ensures r == ErrorOf(Transitioned(old(Snapshot()), id, target, reason))
      ensures r.Ok? <==> StatusRules.WellFormed(target, reason) && id in old(reports)
                         && StatusRules.MayDecide(old(reports)[id].status, target)
    {
      StatusRules.TransitionSucceedsIff(Snapshot(), id, target, reason);
      if target !in {Verified, Rejected, Duplicate} {
        r := Err(InvalidValue);
      } else if target.Rejected? && (reason.None? || reason.value !in REJECTION_REASON_CODES) {
        r := Err(InvalidValue);
      } else if id !in reports {
        r := Err(NotFound);
      } else if reports[id].status !in AllowedSources(target) {
        r := Err(InvalidValue);
      } else {
        ApplyTransition(id, target);
        r := Ok(());
      }
      Record(Transition(id, target, reason));
    }

    /** Status, trust tier, building severity and audit row of an allowed transition. */
    method ApplyTransition(id: ReportId, target: Status)
      requires id in reports
      modifies this`reports, this`buildings, this`audit
      ensures var r := old(reports)[id];
              reports == old(reports)[id := r.(status := target, trustTier := TierAfter(r.trustTier, target))]
      ensures buildings == (
                var b := old(reports)[id].building;
                if b.Some? && b.value in old(buildings) then old(buildings)[b.value := Worst(reports, b.value)]
                else old(buildings))
      ensures audit == old(audit) + [AuditRow(StatusChange, id, Some(old(reports)[id].status), Some(target))]
    {
      var report := reports[id];
      var before := report.status;
      report := report.(status := target);
      if target.Verified? {
        report := report.(trustTier := Min(report.trustTier + 1, 2));
      } else if target.Rejected? {
        report := report.(trustTier := Max(report.trustTier - 1, 0));
      }
      reports := reports[id := report];
      if report.building.Some? {
        RecomputeBuildingSeverity(report.building.value);
      }
      WriteAudit(StatusChange, id, Some(before), Some(target));
    }

    /** The loop works on the session's view of the rows; the route commits only if it completes. */
    method MergeReports(primary: ReportId, dups: seq<ReportId>) returns (r: Result<nat, Error>)
      requires Valid()
      modifies this
      ensures Valid() && history == Then(old(history), Merge(primary, dups))
      ensures r == if Merged(old(Snapshot()), primary, dups).Ok? then Ok(|dups|) else Err(NotFound)
    {
      r := Err(NotFound);
      if primary in reports {
        r := MergeLoop(primary, dups);
      }
      Record(Merge(primary, dups));
    }

    method MergeLoop(primary: ReportId, dups: seq<ReportId>) returns (r: Result<nat, Error>)
      requires primary in reports
      modifies this`reports, this`audit
      ensures r == if MergedAll(old(Snapshot()), primary, dups).Ok? then Ok(|dups|) else Err(NotFound)
      ensures Snapshot() == if r.Ok? then MergedAll(old(Snapshot()), primary, dups).value else old(Snapshot())
    {
      var session: map<ReportId, Report>, rows := reports, audit;
      var n := 0;
      while n < |dups|
        invariant 0 <= n <= |dups|
        invariant primary in session && Snapshot() == old(Snapshot())
        invariant MergedAll(Db(session, buildings, rows), primary, dups[n..])
               == MergedAll(old(Snapshot()), primary, dups)
      {
        var dup := dups[n];
        if dup !in session {
          return Err(NotFound);
        }
        ghost var before := Db(session, buildings, rows);
        var wasStatus, photo := session[dup].status, session[dup].photo;
        session := session[dup := session[dup].(status := Duplicate, duplicateOf := Some(primary))];
        if photo.Some? && session[primary].photo.None? {
          session := session[primary := session[primary].(photo := photo)];
        }
        rows := rows + [AuditRow(ManualMerge, dup, Some(wasStatus), Some(Duplicate))];
        assert Db(session, buildings, rows) == MergedOne(before, primary, dup);
        assert dups[n..][1..] == dups[n + 1..];
        n := n + 1;
      }
      reports, audit := session, rows;
      r := Ok(|dups|);
    }

    /** Succeeds exactly on held reports: the check for a missing primary never fires. */
    method ConfirmPendingMerge(id: ReportId) returns (r: Result<(), Error>)
      requires Valid()
      modifies this
      ensures Valid() && history == Then(old(history), Confirm(id))
      ensures r == ErrorOf(MergeConfirmed(old(Snapshot()), id))
      ensures r.Ok? <==> id in old(reports) && old(reports)[id].status.PendingMergeReview?
    {
      StatusRules.ConfirmNeverLacksPrimary(start, history.events, history.world, id);
      if id !in reports {
        r := Err(NotFound);
      } else if !reports[id].status.PendingMergeReview? || reports[id].possible.None? {
        r := Err(InvalidValue);
      } else {
        var report := reports[id];
        var primary := report.possible.value;
        reports := reports[id := report.(status := Duplicate, duplicateOf := Some(primary), possible := None)];
        if report.photo.Some? {
          if primary in reports && reports[primary].photo.None? {
            reports := reports[primary := reports[primary].(photo := report.photo)];
          }
        }
        WriteAudit(ConfirmMerge, id, Some(PendingMergeReview), Some(Duplicate));
        r := Ok(());
      }
      Record(Confirm(id));
    }

    method RejectPendingMerge(id: ReportId) returns (r: Result<(), Error>)
      requires Valid()
      modifies this
      ensures Valid() && history == Then(old(history), RejectPending(id))
      ensures r == ErrorOf(MergeRejected(old(Snapshot()), id))
    {
      if id !in reports {
        r := Err(NotFound);
      } else if !reports[id].status.PendingMergeReview? {
        r := Err(InvalidValue);
      } else {
        reports := reports[id := reports[id].(status := Pending, possible := None, duplicateScore := None)];
        WriteAudit(RejectMerge, id, Some(PendingMergeReview), Some(Pending));
        r := Ok(());
      }
      Record(RejectPending(id));
    }

    method RequestMoreInfo(id: ReportId, emptyMessage: bool, now: Time) returns (r: Result<(), Error>)
      requires Valid()
      modifies this
      ensures Valid() && history == Then(old(history), AskReporter(id, emptyMessage, now))
      ensures r == ErrorOf(InfoRequest(old(Snapshot()), id, emptyMessage, now))
      ensures r.Ok? ==> ReporterConversation.Waits(reports, id)
    {
      if emptyMessage {
        r := Err(InvalidValue);
      } else if id !in reports {
        r := Err(NotFound);
      } else if reports[id].status !in {Pending, PendingMergeReview} {
        r := Err(InvalidValue);
      } else {
        reports := reports[id := reports[id].(requestedAt := Some(now), respondedAt := None)];
        WriteAudit(InfoRequested, id, None, None);
        r := Ok(());
      }
      Record(AskReporter(id, emptyMessage, now));
    }

    method AddReporterFollowup(id: ReportId, isOwner: bool, emptyText: bool, now: Time) returns (r: Result<(), Error>)
      requires Valid()
      modifies this
      ensures Valid() && history == Then(old(history), Reply(id, isOwner, emptyText, now))
      ensures r == ErrorOf(FollowupAdded(old(Snapshot()), id, isOwner, emptyText, now))
      ensures r.Ok? <==> isOwner && !emptyText && ReporterConversation.Waits(old(reports), id)
      ensures r.Ok? ==> !ReporterConversation.Waits(reports, id)
    {
      if id !in reports {
        r := Err(NotFound);
      } else if !isOwner {
        r := Err(NotOwner);
      } else if reports[id].requestedAt.None? || reports[id].respondedAt.Some? {
        r := Err(NoOpenRequest);
      } else if emptyText {
        r := Err(InvalidValue);
      } else {
        var report := reports[id].(respondedAt := Some(now));
        if PriorityRank(report.priority) < PriorityRank(High) {
          report := report.(priority := High);
        }
        reports := reports[id := report];
        WriteAudit(ReporterFollowup, id, None, None);
        r := Ok(());
      }
      Record(Reply(id, isOwner, emptyText, now));
    }
  }
}
