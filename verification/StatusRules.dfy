/** What holds of every report's status, merge columns and trust tier in every reachable state. */
module StatusRules {
  import opened Common
  import opened Reports
  import opened RowSteps
  import DS = DuplicateScorer

  /** The status changes any operation can make. */
  predicate StatusEdge(a: Status, b: Status) {
    || a == b
    || b.Duplicate?
    || (a.Pending? && (b.Verified? || b.Rejected? || b.PendingMergeReview?))
    || (a.PendingMergeReview? && b.Pending?)
    || (a.Verified? && b.Rejected?)
    || (a.Rejected? && b.Verified?)
  }

  predicate Decided(s: Status) {
    s.Verified? || s.Rejected? || s.Duplicate?
  }

  /** Where verify and reject can take the tier of a report that started at `t0`. */
  predicate TierRule(s: Status, t: int, t0: int) {
    0 <= t0 <= 2 ==>
      match s
      case Pending => t == t0
      case PendingMergeReview => t == t0
      case Verified => 1 <= t <= 2 && t0 <= t <= t0 + 1
      case Rejected => 0 <= t <= 1 && t0 - 1 <= t <= t0
      case Duplicate => 0 <= t <= 2 && t0 - 1 <= t <= t0 + 1
  }

  predicate GoodRow(ids: set<ReportId>, id: ReportId, r: Report, t0: int) {
    && (r.status.PendingMergeReview? ==>
          r.possible.Some? && r.duplicateScore.Some? && r.duplicateScore.value >= 0.9)
    && (r.possible.Some? ==> r.possible.value != id && r.possible.value in ids)
    && (r.duplicateOf.Some? ==> r.status.Duplicate? && r.duplicateOf.value in ids)
    && TierRule(r.status, r.trustTier, t0)
  }

  ghost predicate GoodRows(reports: map<ReportId, Report>, start: map<ReportId, int>) {
    && reports.Keys == start.Keys
    && forall id :: id in reports ==> GoodRow(reports.Keys, id, reports[id], start[id])
  }

  ghost predicate Good(w: World) {
    GoodRows(w.db.reports, w.startTier)
  }

  lemma MergedOneGood(db: Db, start: map<ReportId, int>, primary: ReportId, dup: ReportId)
    requires GoodRows(db.reports, start) && dup in db.reports && primary in db.reports
    ensures GoodRows(MergedOne(db, primary, dup).reports, start)
    ensures MergedOne(db, primary, dup).reports.Keys == db.reports.Keys
  {
    var r := db.reports[dup];
    assert GoodRow(db.reports.Keys, dup, r, start[dup]);
  }

  lemma {:induction false} MergedAllGood(db: Db, start: map<ReportId, int>, primary: ReportId, dups: seq<ReportId>)
    requires GoodRows(db.reports, start) && primary in db.reports
    ensures MergedAll(db, primary, dups).Ok? ==> GoodRows(MergedAll(db, primary, dups).value.reports, start)
    decreases |dups|
  {
    if dups != [] && dups[0] in db.reports {
      MergedOneGood(db, start, primary, dups[0]);
      MergedAllGood(MergedOne(db, primary, dups[0]), start, primary, dups[1..]);
    }
  }

  /** A queued report scored at least 0.9 against some other candidate: this comes from the scorer. */
  lemma VerdictPicksCandidate(reports: map<ReportId, Report>, id: ReportId, cs: seq<ReportId>, dist: DS.Distance)
    requires id in reports && CandidateList(reports, id, cs)
    ensures var v := VerdictFor(reports, id, cs, dist);
      && (v.2.Some? ==> IsCandidate(reports, id, v.2.value.candidate.id))
      && (v.0.AutoMerge? ==> v.2.Some? && v.1 >= 0.9)
      && (v.0.AnalystFlag? ==> v.2.Some? && v.1 >= 0.6)
  {
  }

  lemma ScoredGood(w: World, id: ReportId, cs: seq<ReportId>, dist: DS.Distance)
    requires Good(w) && CandidateList(w.db.reports, id, cs)
    ensures GoodRows(ReportScored(w.db, id, cs, dist).reports, w.startTier)
  {
    var db' := ReportScored(w.db, id, cs, dist);
    if db'.reports != w.db.reports {
      VerdictPicksCandidate(w.db.reports, id, cs, dist);
      assert GoodRow(w.db.reports.Keys, id, w.db.reports[id], w.startTier[id]);
    }
  }

  lemma TransitionedGood(w: World, id: ReportId, target: Status, reason: Option<string>)
    requires Good(w)
    ensures Transitioned(w.db, id, target, reason).Ok? ==>
              GoodRows(Transitioned(w.db, id, target, reason).value.reports, w.startTier)
  {
  }

  lemma QuietStepGood(w: World, e: Event)
    requires Good(w) && Possible(w, e) && Quiet(e)
    ensures Good(Step(w, e))
  {
    QuietStep(w, e);
    var reports' := Step(w, e).db.reports;
    forall id | id in reports'
      ensures GoodRow(reports'.Keys, id, reports'[id], w.startTier[id])
    {
      assert GoodRow(w.db.reports.Keys, id, w.db.reports[id], w.startTier[id]);
      assert SameLifecycle(w.db.reports[id], reports'[id]);
    }
  }

  lemma SubmitGood(w: World, id: ReportId, s: Submission)
    requires Good(w)
    ensures Good(Step(w, Submit(id, s)))
  {
  }

  lemma ResolvedGood(w: World, id: ReportId, r: Result<Db, Error>)
    requires Good(w) && (r == MergeConfirmed(w.db, id) || r == MergeRejected(w.db, id))
    ensures r.Ok? ==> GoodRows(r.value.reports, w.startTier)
  {
    if r.Ok? {
      var row := w.db.reports[id];
      assert GoodRow(w.db.reports.Keys, id, row, w.startTier[id]);
    }
  }

  lemma StepGood(w: World, e: Event)
    requires Good(w) && Possible(w, e)
    ensures Good(Step(w, e))
  {
    match e
    case Submit(id, s) => SubmitGood(w, id, s);
    case Score(id, cs, dist) => ScoredGood(w, id, cs, dist);
    case Transition(id, target, reason) => TransitionedGood(w, id, target, reason);
    case Merge(primary, dups) => if primary in w.db.reports { MergedAllGood(w.db, w.startTier, primary, dups); }
    case Confirm(id) => ResolvedGood(w, id, MergeConfirmed(w.db, id));
    case RejectPending(id) => ResolvedGood(w, id, MergeRejected(w.db, id));
    case _ => QuietStepGood(w, e);
  }

  lemma {:induction false} RunGood(w: World, es: seq<Event>, w': World)
    requires Good(w) && Reaches(w, es, w')
    ensures Good(w')
    decreases |es|
  {
    if es != [] {
      StepGood(w, es[0]);
      RunGood(Step(w, es[0]), es[1..], w');
    }
  }

  /** Main result: in every reachable state a report held for merge review names another existing
      report with a score of at least 0.9, a merge link implies `duplicate`, and the trust tier is
      within one of where it started. */
  lemma ReachableRowsAreGood(w: World, es: seq<Event>, w': World, id: ReportId)
    requires Initial(w) && Reaches(w, es, w') && id in w'.db.reports
    ensures id in w'.startTier
    ensures var r, t0 := w'.db.reports[id], w'.startTier[id];
      && (r.status.PendingMergeReview? ==>
            && r.possible.Some? && r.possible.value != id && r.possible.value in w'.db.reports
            && r.duplicateScore.Some? && r.duplicateScore.value >= 0.9)
      && (r.duplicateOf.Some? ==> r.status.Duplicate? && r.duplicateOf.value in w'.db.reports)
      && (0 <= t0 <= 2 ==> t0 - 1 <= r.trustTier <= t0 + 1 && 0 <= r.trustTier <= 2)
  {
    RunGood(w, es, w');
    assert GoodRow(w'.db.reports.Keys, id, w'.db.reports[id], w'.startTier[id]);
  }

  /** So confirming never meets the "no possible_duplicate_of_id" error. */
  lemma ConfirmNeverLacksPrimary(w: World, es: seq<Event>, w': World, id: ReportId)
    requires Initial(w) && Reaches(w, es, w')
    ensures MergeConfirmed(w'.db, id).Ok?
       <==> id in w'.db.reports && w'.db.reports[id].status.PendingMergeReview?
  {
    if id in w'.db.reports {
      ReachableRowsAreGood(w, es, w', id);
    }
  }

  // ------------------------------------------------------------------
  // Status changes
  // ------------------------------------------------------------------

  lemma {:induction false} MergedAllEdges(db: Db, primary: ReportId, dups: seq<ReportId>, id: ReportId)
    requires id in db.reports
    ensures MergedAll(db, primary, dups).Ok? ==>
              && id in MergedAll(db, primary, dups).value.reports
              && var s := MergedAll(db, primary, dups).value.reports[id].status;
                 s == if id in dups then Duplicate else db.reports[id].status
    decreases |dups|
  {
    if dups != [] && dups[0] in db.reports {
      MergedAllEdges(MergedOne(db, primary, dups[0]), primary, dups[1..], id);
      assert id in dups <==> id == dups[0] || id in dups[1..];
    }
  }

  lemma StepEdge(w: World, e: Event, id: ReportId)
    requires Good(w) && Possible(w, e) && id in w.db.reports
    ensures id in Step(w, e).db.reports
    ensures StatusEdge(w.db.reports[id].status, Step(w, e).db.reports[id].status)
  {
    if Quiet(e) {
      QuietStep(w, e);
      assert SameLifecycle(w.db.reports[id], Step(w, e).db.reports[id]);
    } else if e.Merge? {
      MergedAllEdges(w.db, e.primary, e.dups, id);
    }
  }

  /** Main result: over any run `duplicate` is terminal and a decided report never goes back to
      pending or to merge review. */
  lemma {:induction false} DecidedStaysDecided(w: World, es: seq<Event>, w': World, id: ReportId)
    requires Good(w) && Reaches(w, es, w') && id in w.db.reports
    ensures id in w'.db.reports
    ensures Decided(w.db.reports[id].status) ==> Decided(w'.db.reports[id].status)
    ensures w.db.reports[id].status.Duplicate? ==> w'.db.reports[id].status.Duplicate?
    decreases |es|
  {
    if es != [] {
      StepGood(w, es[0]);
      StepEdge(w, es[0], id);
      DecidedStaysDecided(Step(w, es[0]), es[1..], w', id);
    }
  }

  // ------------------------------------------------------------------
  // Which transitions an analyst can make
  // ------------------------------------------------------------------

  /** A decision on a pending report, or the reversal of one; nothing else. */
  predicate MayDecide(from: Status, to: Status) {
    || (from.Pending? && to.Verified?)
    || (from.Pending? && to.Rejected?)
    || (from.Pending? && to.Duplicate?)
    || (from.Rejected? && to.Verified?)
    || (from.Verified? && to.Rejected?)
  }

  /** A rejection gives one of five reasons. */
  predicate WellFormed(to: Status, reason: Option<string>) {
    && (to.Verified? || to.Rejected? || to.Duplicate?)
    && (to.Rejected? ==>
          reason == Some("inaccurate") || reason == Some("duplicate") || reason == Some("poor_quality")
          || reason == Some("out_of_scope") || reason == Some("other"))
  }

  /** Main result: a transition succeeds exactly for these pairs, and each failure has its error: a report
      held for merge review is never decided this way, nor is a duplicate, nor one that has the target. */
  lemma TransitionSucceedsIff(db: Db, id: ReportId, to: Status, reason: Option<string>)
    ensures var r := Transitioned(db, id, to, reason);
      && (r.Ok? <==> WellFormed(to, reason) && id in db.reports && MayDecide(db.reports[id].status, to))
      && (r == Err(NotFound) <==> WellFormed(to, reason) && id !in db.reports)
      && (r.Err? ==> r.error.NotFound? || r.error.InvalidValue?)
  {
  }

  /** Whatever an analyst transitions, held reports and duplicates stay as they are, and so does every
      report but one, which keeps all but status and tier. */
  lemma TransitionSparesHeldAndDuplicates(w: World, e: Event, id: ReportId)
    requires e.Transition? && id in w.db.reports
    ensures id in Step(w, e).db.reports
    ensures var before, after := w.db.reports[id], Step(w, e).db.reports[id];
      && (before.status.PendingMergeReview? || before.status.Duplicate? || id != e.id ==> after == before)
      && after == before.(status := after.status, trustTier := after.trustTier)
  {
  }

  /** A verification moves the reporter's tier up by one and a rejection down by one, between 0 and 2; marking
      a duplicate leaves it. */
  lemma DecisionMovesTier(db: Db, id: ReportId, to: Status, reason: Option<string>)
    requires Transitioned(db, id, to, reason).Ok?
    ensures id in db.reports && id in Transitioned(db, id, to, reason).value.reports
    ensures var before, after := db.reports[id].trustTier, Transitioned(db, id, to, reason).value.reports[id].trustTier;
      && (to.Verified? && before < 2 ==> after == before + 1)
      && (to.Rejected? && before > 0 ==> after == before - 1)
      && (to.Verified? && before >= 2 ==> after == 2)
      && (to.Rejected? && before <= 0 ==> after == 0)
      && (to.Duplicate? ==> after == before)
  {
  }

  // ------------------------------------------------------------------
  // Trust tier
  // ------------------------------------------------------------------

  /** A sequence of verify (true) and reject (false) decisions, each allowed after the last. */
  predicate Alternates(ds: seq<bool>) {
    forall i :: 0 <= i < |ds| - 1 ==> ds[i] != ds[i + 1]
  }

  function TierAfterAll(t: int, ds: seq<bool>): int {
    if ds == [] then t
    else TierAfter(TierAfterAll(t, ds[..|ds| - 1]), if ds[|ds| - 1] then Verified else Rejected)
  }

  lemma {:induction false} AlternatingTier(t: int, ds: seq<bool>)
    requires 0 <= t <= 2 && Alternates(ds)
    ensures ds != [] && ds[|ds| - 1] ==> 1 <= TierAfterAll(t, ds) <= 2 && t <= TierAfterAll(t, ds) <= t + 1
    ensures ds != [] && !ds[|ds| - 1] ==> 0 <= TierAfterAll(t, ds) <= 1 && t - 1 <= TierAfterAll(t, ds) <= t
    decreases |ds|
  {
    if ds != [] {
      var n := |ds| - 1;
      AlternatingTier(t, ds[..n]);
      if n > 0 {
        assert ds[n - 1] != ds[n - 1 + 1];
        assert ds[..n][n - 1] == ds[n - 1];
      }
    }
  }

  /** The tier stays within one of its start, however long verify and reject alternate, exactly for
      reports that start between 0 and 2. */
  lemma TierStaysWithinOneIff(t: int)
    ensures (forall ds :: Alternates(ds) ==> t - 1 <= TierAfterAll(t, ds) <= t + 1) <==> 0 <= t <= 2
  {
    if 0 <= t <= 2 {
      forall ds | Alternates(ds)
        ensures t - 1 <= TierAfterAll(t, ds) <= t + 1
      {
        AlternatingTier(t, ds);
      }
    } else {
      var up, down: seq<bool> := [false, true], [true, false];
      assert up[..1] == [false] && down[..1] == [true] && up[..1][..0] == [] && down[..1][..0] == [];
      assert Alternates(up) && Alternates(down);
      assert TierAfterAll(t, [false]) == Max(t - 1, 0) && TierAfterAll(t, [true]) == Min(t + 1, 2);
      assert TierAfterAll(t, up) == Min(Max(t - 1, 0) + 1, 2);
      assert TierAfterAll(t, down) == Max(Min(t + 1, 2) - 1, 0);
    }
  }

  // ------------------------------------------------------------------
  // Re-scoring
  // ------------------------------------------------------------------

  /** Scoring a report a second time against the same candidates changes nothing on the reports. */
  lemma RescoringIsIdempotent(db: Db, id: ReportId, cs: seq<ReportId>, dist: DS.Distance)
    requires CandidateList(db.reports, id, cs)
    ensures forall i :: 0 <= i < |cs| ==> cs[i] in ReportScored(db, id, cs, dist).reports
    ensures ReportScored(ReportScored(db, id, cs, dist), id, cs, dist).reports
         == ReportScored(db, id, cs, dist).reports
  {
    var once := ReportScored(db, id, cs, dist);
    if id in db.reports && db.reports[id].status.Pending? && once.reports[id].status.Pending? {
      assert FactsOf(once.reports[id]) == FactsOf(db.reports[id]);
      assert forall i :: 0 <= i < |cs| ==> cs[i] != id && once.reports[cs[i]] == db.reports[cs[i]];
      assert Candidates(once.reports, cs) == Candidates(db.reports, cs);
    }
  }

  /** A report that an analyst has acted on is not touched by a late `score_report`. */
  lemma ScoringRespectsDecisions(db: Db, id: ReportId, cs: seq<ReportId>, dist: DS.Distance)
    requires CandidateList(db.reports, id, cs)
    ensures id in db.reports && !db.reports[id].status.Pending? ==> ReportScored(db, id, cs, dist) == db
    ensures id in db.reports && db.reports[id].status.Pending? ==> DedupDone(ReportScored(db, id, cs, dist), id)
    ensures forall other :: other in db.reports && other != id ==>
              other in ReportScored(db, id, cs, dist).reports
              && ReportScored(db, id, cs, dist).reports[other] == db.reports[other]
  {
    var db' := ReportScored(db, id, cs, dist);
    if id in db.reports && db.reports[id].status.Pending? {
      assert db'.audit[|db.audit|].record == id;
    }
  }
}
