/**
 * The merge-review workflow from end to end: what scoring writes, and how confirming or rejecting a queued
 * merge relates to it and to a manual merge.
 */
module MergeReview {
  import opened Common
  import opened Reports
  import DS = DuplicateScorer

  /** Two reports of which neither is a duplicate are candidates for each other, exactly when they were made
      within three days. */
  lemma CandidatesAreMutual(reports: map<ReportId, Report>, id: ReportId, other: ReportId)
    requires id in reports && other in reports && id != other
    requires !reports[id].status.Duplicate? && !reports[other].status.Duplicate?
    ensures IsCandidate(reports, id, other)
       <==> -259200 <= reports[other].createdAt - reports[id].createdAt <= 259200
    ensures IsCandidate(reports, id, other) <==> IsCandidate(reports, other, id)
  {
  }

  /** A candidate list holds at most 500 reports, each once, all other than the scored one, none a duplicate
      and none made more than three days before or after it; every such list may come. */
  lemma CandidateListMeaning(reports: map<ReportId, Report>, id: ReportId, cs: seq<ReportId>)
    requires id in reports && forall i :: 0 <= i < |cs| ==> cs[i] in reports
    ensures CandidateList(reports, id, cs)
       <==> && |cs| <= 500
            && (forall i, j :: 0 <= i < j < |cs| ==> cs[i] != cs[j])
            && forall i :: 0 <= i < |cs| ==>
                 && cs[i] != id && !reports[cs[i]].status.Duplicate?
                 && -259200 <= reports[cs[i]].createdAt - reports[id].createdAt <= 259200
  {
  }

  /** The columns the score of two reports rests on: building, coordinates, photo hash and the two
      categories, each against its counterpart. */
  lemma ScorerReadsColumns(r: Report, s: Report, dist: DS.Distance)
    ensures var x, y := FactsOf(r), FactsOf(s);
      && (DS.Known(x, y) <==> r.building.Some? && s.building.Some?)
      && (x.building == y.building <==> r.building == s.building)
      && (DS.Placed(x, y) <==> r.lat.Some? && r.lng.Some? && s.lat.Some? && s.lng.Some?)
      && (DS.Placed(x, y) ==>
            DS.Apart(x, y, dist) == dist(r.lat.value, r.lng.value, s.lat.value, s.lng.value))
      && x.phash == r.phash && y.phash == s.phash
      && DS.Matches(x, y)
         == (if r.crisis == s.crisis then 1 else 0) + (if r.infrastructure == s.infrastructure then 1 else 0)
  {
  }

  /** Scoring a pending report against some candidates: the row names the earliest of the best ones, with
      its score, if that is at least 0.6, and is queued for merge review exactly when it is at least 0.9
      and both sides have building and coordinates. Nothing else of the row changes. */
  lemma ScoringWrites(db: Db, id: ReportId, cs: seq<ReportId>, dist: DS.Distance) returns (k: nat)
    requires id in db.reports && db.reports[id].status.Pending?
    requires CandidateList(db.reports, id, cs) && cs != [] && DS.NonNegative(dist)
    ensures k < |cs| && DS.EarliestBest(FactsOf(db.reports[id]), Candidates(db.reports, cs), dist, k)
    ensures id in ReportScored(db, id, cs, dist).reports
    ensures var r, row := db.reports[id], ReportScored(db, id, cs, dist).reports[id];
            var best := CandidateOf(db.reports, cs[k]);
            var score := DS.PairScore(FactsOf(r), best, dist);
            var located := DS.Known(FactsOf(r), best.facts) && DS.Placed(FactsOf(r), best.facts);
      && (score < 0.6 ==> row == r)
      && (score >= 0.6 ==>
            row == r.(possible := Some(cs[k]), duplicateScore := Some(score),
                      status := if score >= 0.9 && located then PendingMergeReview else Pending))
  {
    k := DS.VerdictMeaning(FactsOf(db.reports[id]), Candidates(db.reports, cs), dist);
  }

  /** Without candidates the row stays as it is. */
  lemma NoCandidatesNoChange(db: Db, id: ReportId, dist: DS.Distance)
    ensures ReportScored(db, id, [], dist).reports == db.reports
  {
    if id in db.reports && db.reports[id].status.Pending? {
      assert db.reports[id := db.reports[id]] == db.reports;
    }
  }

  /** Main result: rejecting a queued merge undoes the scoring that queued it, up to an earlier flag of the
      report, which is dropped. */
  lemma RejectUndoesHold(db: Db, id: ReportId, cs: seq<ReportId>, dist: DS.Distance)
    requires id in db.reports && db.reports[id].status.Pending? && CandidateList(db.reports, id, cs)
    requires id in ReportScored(db, id, cs, dist).reports
    requires ReportScored(db, id, cs, dist).reports[id].status.PendingMergeReview?
    ensures var held := ReportScored(db, id, cs, dist);
      && MergeRejected(held, id).Ok?
      && MergeRejected(held, id).value.reports
         == db.reports[id := db.reports[id].(possible := None, duplicateScore := None)]
      && MergeRejected(held, id).value.buildings == db.buildings
  {
  }

  /** Main result: confirming a queued merge leaves the tables as merging the report by hand into the
      primary it names would, except that it names no possible primary any more. */
  lemma ConfirmIsMerge(db: Db, id: ReportId)
    requires MergeConfirmed(db, id).Ok?
    ensures id in db.reports && db.reports[id].possible.Some?
    ensures var primary := db.reports[id].possible.value;
            var merged := MergedOne(db, primary, id);
      && id in merged.reports
      && MergeConfirmed(db, id).value.reports == merged.reports[id := merged.reports[id].(possible := None)]
      && MergeConfirmed(db, id).value.buildings == db.buildings
  {
  }

  /** One merged duplicate: linked, with everything else kept; only the primary may change besides, and of
      it only a missing photo. */
  lemma MergedRow(db: Db, primary: ReportId, dup: ReportId, id: ReportId)
    requires dup in db.reports && id in db.reports && primary != dup
    ensures id in MergedOne(db, primary, dup).reports
    ensures var row := MergedOne(db, primary, dup).reports[id];
      row == if id == dup then db.reports[id].(status := Duplicate, duplicateOf := Some(primary))
             else if id == primary && db.reports[id].photo.None?
             then db.reports[id].(photo := db.reports[dup].photo)
             else db.reports[id]
    ensures MergedOne(db, primary, dup).buildings == db.buildings
  {
  }

  /** When confirming and rejecting fail, and with which error. */
  lemma ResolveFailsIff(db: Db, id: ReportId)
    ensures MergeRejected(db, id).Ok? <==> id in db.reports && db.reports[id].status.PendingMergeReview?
    ensures MergeConfirmed(db, id).Ok?
       <==> id in db.reports && db.reports[id].status.PendingMergeReview? && db.reports[id].possible.Some?
    ensures MergeRejected(db, id) == Err(NotFound) <==> id !in db.reports
    ensures MergeConfirmed(db, id) == Err(NotFound) <==> id !in db.reports
    ensures MergeRejected(db, id).Err? ==> MergeRejected(db, id).error in {NotFound, InvalidValue}
    ensures MergeConfirmed(db, id).Err? ==> MergeConfirmed(db, id).error in {NotFound, InvalidValue}
  {
  }

  lemma {:induction false} MergedAllSucceedsIff(db: Db, primary: ReportId, dups: seq<ReportId>)
    ensures MergedAll(db, primary, dups).Ok? <==> forall d :: d in dups ==> d in db.reports
    ensures MergedAll(db, primary, dups).Err? ==> MergedAll(db, primary, dups).error.NotFound?
    decreases |dups|
  {
    if dups != [] {
      assert forall d :: d in dups <==> d == dups[0] || d in dups[1..];
      if dups[0] in db.reports {
        var once := MergedOne(db, primary, dups[0]);
        assert once.reports.Keys == db.reports.Keys;
        MergedAllSucceedsIff(once, primary, dups[1..]);
      }
    }
  }

  /** A manual merge succeeds exactly when the primary and every duplicate exist, whatever their status. */
  lemma MergeSucceedsIff(db: Db, primary: ReportId, dups: seq<ReportId>)
    ensures Merged(db, primary, dups).Ok? <==> primary in db.reports && forall d :: d in dups ==> d in db.reports
    ensures Merged(db, primary, dups).Err? ==> Merged(db, primary, dups).error.NotFound?
  {
    MergedAllSucceedsIff(db, primary, dups);
  }
}
