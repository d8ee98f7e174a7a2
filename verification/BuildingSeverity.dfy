/**
 * The severity stored on a building is the worst severity among its non-rejected reports: when
 * that survives an operation, and when it does not.
 */
module BuildingSeverity {
  import opened Common
  import opened Reports
  import opened RowSteps

  /** Every stored severity agrees with recomputation, and matched buildings exist. */
  ghost predicate Agrees(db: Db) {
    && (forall b :: b in db.buildings ==> db.buildings[b] == Worst(db.reports, b))
    && (forall id :: id in db.reports && db.reports[id].building.Some? ==>
          db.reports[id].building.value in db.buildings)
  }

  /** Declarative reading of `Worst`. */
  lemma WorstMeaning(reports: map<ReportId, Report>, b: BuildingId)
    ensures forall id :: id in reports && CountsTowards(reports, b, id) ==>
              SeverityRank(reports[id].damage) <= SeverityRank(Worst(reports, b))
    ensures Worst(reports, b).NoDamage?
       <==> !exists id :: id in reports && CountsTowards(reports, b, id)
    ensures !Worst(reports, b).NoDamage? ==> SomeCounting(reports, b, Worst(reports, b))
  {
  }

  lemma WorstIs(reports: map<ReportId, Report>, b: BuildingId, s: Severity)
    requires s.NoDamage? || SomeCounting(reports, b, s)
    requires forall id :: id in reports && CountsTowards(reports, b, id) ==>
               SeverityRank(reports[id].damage) <= SeverityRank(s)
    ensures Worst(reports, b) == s
  {
  }

  /** The same reports count, with the same severities. */
  ghost predicate SameCounting(rs: map<ReportId, Report>, ts: map<ReportId, Report>, b: BuildingId) {
    && (forall id :: CountsTowards(rs, b, id) <==> CountsTowards(ts, b, id))
    && (forall id :: CountsTowards(rs, b, id) && CountsTowards(ts, b, id) ==> rs[id].damage == ts[id].damage)
  }

  lemma SameCountingSameWorst(rs: map<ReportId, Report>, ts: map<ReportId, Report>, b: BuildingId)
    requires SameCounting(rs, ts, b)
    ensures Worst(rs, b) == Worst(ts, b)
  {
  }

  /** Row changes that no building notices. */
  ghost predicate SameSeverityColumns(r: Report, s: Report) {
    r.building == s.building && r.damage == s.damage && (r.status.Rejected? <==> s.status.Rejected?)
  }

  lemma UnnoticedKeeps(db: Db, db': Db)
    requires Agrees(db) && db'.buildings == db.buildings && db'.reports.Keys == db.reports.Keys
    requires forall id :: id in db.reports ==> SameSeverityColumns(db.reports[id], db'.reports[id])
    ensures Agrees(db')
  {
    forall b | b in db'.buildings
      ensures db'.buildings[b] == Worst(db'.reports, b)
    {
      assert SameCounting(db.reports, db'.reports, b);
      SameCountingSameWorst(db.reports, db'.reports, b);
    }
    forall id | id in db'.reports && db'.reports[id].building.Some?
      ensures db'.reports[id].building.value in db'.buildings
    {
      assert SameSeverityColumns(db.reports[id], db'.reports[id]);
    }
  }

  // ------------------------------------------------------------------
  // The two recomputations
  // ------------------------------------------------------------------

  function CountingIds(reports: map<ReportId, Report>, b: BuildingId): set<ReportId> {
    set id | id in reports && CountsTowards(reports, b, id)
  }

  /** `_recompute_building_severity`: `max(..., key=..., default="none")` over the query's rows, in
      whatever order they come. */
  method RecomputeInPython(reports: map<ReportId, Report>, b: BuildingId) returns (worst: Severity)
    ensures worst == Worst(reports, b)
  {
    worst := NoDamage;
    var rows := CountingIds(reports, b);
    while rows != {}
      invariant rows <= CountingIds(reports, b)
      invariant worst.NoDamage? || SomeCounting(reports, b, worst)
      invariant forall id :: id in CountingIds(reports, b) && id !in rows ==>
                  SeverityRank(reports[id].damage) <= SeverityRank(worst)
      decreases rows
    {
      var id :| id in rows;
      if SeverityRank(reports[id].damage) > SeverityRank(worst) {
        worst := reports[id].damage;
      }
      rows := rows - {id};
    }
    forall id | id in reports && CountsTowards(reports, b, id)
      ensures SeverityRank(reports[id].damage) <= SeverityRank(worst)
    {
      assert id in CountingIds(reports, b);
    }
    WorstIs(reports, b, worst);
  }

  /** First row of the descending order: some row that no other row exceeds. */
  predicate HeadsOrder(reports: map<ReportId, Report>, rows: set<ReportId>, id: ReportId) {
    && rows <= reports.Keys
    && id in rows
    && forall other :: other in rows ==> SeverityRank(reports[other].damage) <= SeverityRank(reports[id].damage)
  }

  /** `GISService.update_building_severity`: ORDER BY CASE ... DESC LIMIT 1, COALESCE 'none'. Whichever
      of the equally severe rows the database returns, the stored value is the same. */
  lemma SqlAgreesWithPython(reports: map<ReportId, Report>, b: BuildingId, first: Option<ReportId>)
    requires first.Some? ==> HeadsOrder(reports, CountingIds(reports, b), first.value)
    requires first.None? ==> CountingIds(reports, b) == {}
    ensures Worst(reports, b) == if first.Some? then reports[first.value].damage else NoDamage
  {
    forall id | id in reports && CountsTowards(reports, b, id)
      ensures id in CountingIds(reports, b)
    {
    }
    if first.Some? {
      assert CountsTowards(reports, b, first.value);
      WorstIs(reports, b, reports[first.value].damage);
    } else {
      WorstIs(reports, b, NoDamage);
    }
  }

  // ------------------------------------------------------------------
  // GIS matches
  // ------------------------------------------------------------------

  /** The match moves a counting report off a building whose stored severity rested on it. */
  ghost predicate MatchStrands(db: Db, id: ReportId, m: GisMatch) {
    && id in db.reports && m.Matched? && m.building in db.buildings
    && db.reports[id].building.Some? && db.reports[id].building.value != m.building
    && !db.reports[id].status.Rejected?
    && !exists other :: other in db.reports && other != id
         && CountsTowards(db.reports, db.reports[id].building.value, other)
         && (db.reports[id].building.value in db.buildings ==>
               db.reports[other].damage == db.buildings[db.reports[id].building.value])
  }

  lemma MatchedElsewhere(db: Db, id: ReportId, m: GisMatch, b: BuildingId)
    requires Agrees(db) && id in db.reports && m.Matched? && m.building in db.buildings
    requires b in db.buildings && b != m.building && db.reports[id].building != Some(b)
    ensures Worst(BuildingMatched(db, id, m).value.reports, b) == db.buildings[b]
  {
    assert SameCounting(db.reports, BuildingMatched(db, id, m).value.reports, b);
    SameCountingSameWorst(db.reports, BuildingMatched(db, id, m).value.reports, b);
  }

  /** Some other counting report of the old building still has its stored severity. */
  lemma MatchedAwayCovered(db: Db, id: ReportId, m: GisMatch, a: BuildingId, other: ReportId)
    requires Agrees(db) && id in db.reports && m.Matched? && m.building in db.buildings && a in db.buildings
    requires db.reports[id].building == Some(a) && a != m.building
    requires other in db.reports && other != id && CountsTowards(db.reports, a, other)
    requires db.reports[other].damage == db.buildings[a]
    ensures Worst(BuildingMatched(db, id, m).value.reports, a) == db.buildings[a]
  {
    var ts := BuildingMatched(db, id, m).value.reports;
    WorstMeaning(db.reports, a);
    forall k | k in ts && CountsTowards(ts, a, k)
      ensures SeverityRank(ts[k].damage) <= SeverityRank(db.buildings[a])
    {
    }
    assert other in ts && CountsTowards(ts, a, other) && ts[other].damage == db.buildings[a];
    WorstIs(ts, a, db.buildings[a]);
  }

  lemma MatchedAwayStranded(db: Db, id: ReportId, m: GisMatch, a: BuildingId)
    requires Agrees(db) && MatchStrands(db, id, m) && db.reports[id].building == Some(a)
    ensures Worst(BuildingMatched(db, id, m).value.reports, a) != db.buildings[a]
  {
  }

  lemma MatchedAway(db: Db, id: ReportId, m: GisMatch, a: BuildingId)
    requires Agrees(db) && id in db.reports && m.Matched? && m.building in db.buildings
    requires db.reports[id].building == Some(a) && a != m.building
    ensures a in db.buildings
    ensures Worst(BuildingMatched(db, id, m).value.reports, a) == db.buildings[a] <==> !MatchStrands(db, id, m)
  {
    if db.reports[id].status.Rejected? {
      assert SameCounting(db.reports, BuildingMatched(db, id, m).value.reports, a);
      SameCountingSameWorst(db.reports, BuildingMatched(db, id, m).value.reports, a);
    } else if MatchStrands(db, id, m) {
      MatchedAwayStranded(db, id, m, a);
    } else {
      var other :| other in db.reports && other != id && CountsTowards(db.reports, a, other)
        && db.reports[other].damage == db.buildings[a];
      MatchedAwayCovered(db, id, m, a, other);
    }
  }

  /** A GIS match keeps every building's severity exact unless it re-matches a report to another
      building and strands the old one. */
  lemma MatchKeepsIff(db: Db, id: ReportId, m: GisMatch)
    requires Agrees(db)
    ensures BuildingMatched(db, id, m).Ok? ==>
              (Agrees(BuildingMatched(db, id, m).value) <==> !MatchStrands(db, id, m))
  {
    var r := BuildingMatched(db, id, m);
    if r.Ok? && id in db.reports {
      if m.Unmatched? {
        UnnoticedKeeps(db, r.value);
      } else {
        var previous := db.reports[id].building;
        if previous.Some? && previous.value != m.building {
          MatchedAway(db, id, m, previous.value);
        }
        forall b | b in db.buildings && b != m.building && previous != Some(b)
          ensures Worst(r.value.reports, b) == db.buildings[b]
        {
          MatchedElsewhere(db, id, m, b);
        }
      }
    }
  }

  // ------------------------------------------------------------------
  // Manual merges
  // ------------------------------------------------------------------

  /** The merge revives a rejected report that is worse than its building's stored severity. */
  ghost predicate MergeRevives(db: Db, dups: seq<ReportId>) {
    exists dup :: dup in dups && dup in db.reports && db.reports[dup].status.Rejected?
      && db.reports[dup].building.Some?
      && db.reports[dup].building.value in db.buildings
      && SeverityRank(db.reports[dup].damage) > SeverityRank(db.buildings[db.reports[dup].building.value])
  }

  lemma {:induction false} MergedAllColumns(db: Db, primary: ReportId, dups: seq<ReportId>, id: ReportId)
    requires MergedAll(db, primary, dups).Ok?
    ensures MergedAll(db, primary, dups).value.buildings == db.buildings
    ensures id in MergedAll(db, primary, dups).value.reports <==> id in db.reports
    ensures id in db.reports ==>
      var r, s := db.reports[id], MergedAll(db, primary, dups).value.reports[id];
      && s.building == r.building && s.damage == r.damage
      && s.status == if id in dups then Duplicate else r.status
    ensures id in dups ==> id in db.reports
    decreases |dups|
  {
    if dups != [] {
      MergedAllColumns(MergedOne(db, primary, dups[0]), primary, dups[1..], id);
      assert id in dups <==> id == dups[0] || id in dups[1..];
    }
  }

  lemma MergedCounting(db: Db, primary: ReportId, dups: seq<ReportId>, b: BuildingId, id: ReportId)
    requires MergedAll(db, primary, dups).Ok?
    ensures var ts := MergedAll(db, primary, dups).value.reports;
      && (CountsTowards(ts, b, id) <==>
           id in db.reports && db.reports[id].building == Some(b) && (id in dups || !db.reports[id].status.Rejected?))
      && (CountsTowards(ts, b, id) ==> ts[id].damage == db.reports[id].damage)
  {
    MergedAllColumns(db, primary, dups, id);
  }

  lemma MergedWorst(db: Db, primary: ReportId, dups: seq<ReportId>, b: BuildingId)
    requires Agrees(db) && MergedAll(db, primary, dups).Ok? && b in db.buildings
    requires !MergeRevives(db, dups)
    ensures Worst(MergedAll(db, primary, dups).value.reports, b) == db.buildings[b]
  {
    var rs, ts := db.reports, MergedAll(db, primary, dups).value.reports;
    WorstMeaning(rs, b);
    forall id | id in ts && CountsTowards(ts, b, id)
      ensures SeverityRank(ts[id].damage) <= SeverityRank(db.buildings[b])
    {
      MergedCounting(db, primary, dups, b, id);
      if rs[id].status.Rejected? {
        assert id in dups && rs[id].building.value == b;
      } else {
        assert CountsTowards(rs, b, id);
      }
    }
    if !db.buildings[b].NoDamage? {
      var id :| id in rs && CountsTowards(rs, b, id) && rs[id].damage == db.buildings[b];
      MergedCounting(db, primary, dups, b, id);
      assert id in ts && CountsTowards(ts, b, id) && ts[id].damage == db.buildings[b];
    }
    WorstIs(ts, b, db.buildings[b]);
  }

  /** A manual merge, which does not recompute, keeps every building's severity exact unless it
      revives a rejected report worse than what is stored. */
  lemma MergeKeepsIff(db: Db, primary: ReportId, dups: seq<ReportId>)
    requires Agrees(db)
    ensures Merged(db, primary, dups).Ok? ==>
              (Agrees(Merged(db, primary, dups).value) <==> !MergeRevives(db, dups))
  {
    if Merged(db, primary, dups).Ok? {
      var db' := Merged(db, primary, dups).value;
      forall id
        ensures db'.buildings == db.buildings
        ensures id in db'.reports ==> id in db.reports && db'.reports[id].building == db.reports[id].building
      {
        MergedAllColumns(db, primary, dups, id);
      }
      if MergeRevives(db, dups) {
        var dup :| dup in dups && dup in db.reports && db.reports[dup].status.Rejected?
          && db.reports[dup].building.Some? && db.reports[dup].building.value in db.buildings
          && SeverityRank(db.reports[dup].damage) > SeverityRank(db.buildings[db.reports[dup].building.value]);
        var b := db.reports[dup].building.value;
        MergedCounting(db, primary, dups, b, dup);
        WorstMeaning(db'.reports, b);
        assert db'.buildings[b] != Worst(db'.reports, b);
      } else {
        forall b | b in db'.buildings
          ensures db'.buildings[b] == Worst(db'.reports, b)
        {
          MergedWorst(db, primary, dups, b);
        }
      }
    }
  }

  // ------------------------------------------------------------------
  // Every other operation, and whole runs
  // ------------------------------------------------------------------

  lemma TransitionedAgrees(db: Db, id: ReportId, target: Status, reason: Option<string>)
    requires Agrees(db)
    ensures Transitioned(db, id, target, reason).Ok? ==> Agrees(Transitioned(db, id, target, reason).value)
  {
    var r := Transitioned(db, id, target, reason);
    if r.Ok? {
      forall b | b in db.buildings && db.reports[id].building != Some(b)
        ensures Worst(r.value.reports, b) == db.buildings[b]
      {
        assert SameCounting(db.reports, r.value.reports, b);
        SameCountingSameWorst(db.reports, r.value.reports, b);
      }
    }
  }

  lemma CreatedAgrees(db: Db, id: ReportId, s: Submission)
    requires Agrees(db)
    ensures Created(db, id, s).Ok? ==> Agrees(Created(db, id, s).value)
  {
    var r := Created(db, id, s);
    if r.Ok? {
      forall b | b in db.buildings
        ensures Worst(r.value.reports, b) == db.buildings[b]
      {
        assert SameCounting(db.reports, r.value.reports, b);
        SameCountingSameWorst(db.reports, r.value.reports, b);
      }
    }
  }

  /** The event is one of the two kinds that can leave a stored severity behind. */
  ghost predicate Disturbs(w: World, e: Event) {
    || (e.MatchBuilding? && MatchStrands(w.db, e.id, e.gis))
    || (e.Merge? && Merged(w.db, e.primary, e.dups).Ok? && MergeRevives(w.db, e.dups))
  }

  lemma StatusOnlyKeeps(db: Db, db': Db, id: ReportId)
    requires Agrees(db) && db'.buildings == db.buildings && OnlyStatusOf(db.reports, db'.reports, id)
    requires id in db.reports ==> !db.reports[id].status.Rejected? && !db'.reports[id].status.Rejected?
    ensures Agrees(db')
  {
    forall k | k in db.reports
      ensures SameSeverityColumns(db.reports[k], db'.reports[k])
    {
      assert SameFacts(db.reports[k], db'.reports[k]);
    }
    UnnoticedKeeps(db, db');
  }

  lemma ScoredAgrees(db: Db, id: ReportId, cs: seq<ReportId>, dist: DS.Distance)
    requires Agrees(db) && CandidateList(db.reports, id, cs)
    ensures Agrees(ReportScored(db, id, cs, dist))
  {
    if id in db.reports && db.reports[id].status.Pending? {
      ScoredStatus(db, id, cs, dist);
      StatusOnlyKeeps(db, ReportScored(db, id, cs, dist), id);
    }
  }

  lemma ResolvedAgrees(db: Db, id: ReportId)
    requires Agrees(db)
    ensures MergeConfirmed(db, id).Ok? ==> Agrees(MergeConfirmed(db, id).value)
    ensures MergeRejected(db, id).Ok? ==> Agrees(MergeRejected(db, id).value)
  {
    ConfirmedStatus(db, id);
    RejectedStatus(db, id);
    if MergeConfirmed(db, id).Ok? {
      StatusOnlyKeeps(db, MergeConfirmed(db, id).value, id);
    }
    if MergeRejected(db, id).Ok? {
      StatusOnlyKeeps(db, MergeRejected(db, id).value, id);
    }
  }

  lemma QuietAgrees(w: World, e: Event)
    requires Agrees(w.db) && Possible(w, e) && Quiet(e) && !e.MatchBuilding?
    ensures Agrees(Step(w, e).db)
  {
    QuietStep(w, e);
    forall id | id in w.db.reports
      ensures SameSeverityColumns(w.db.reports[id], Step(w, e).db.reports[id])
    {
      assert SameLifecycle(w.db.reports[id], Step(w, e).db.reports[id]);
    }
    UnnoticedKeeps(w.db, Step(w, e).db);
  }

  /** Main result, per step: an exact severity table stays exact if and only if the event is not one
      of those two. */
  lemma SeverityStepIff(w: World, e: Event)
    requires Agrees(w.db) && Possible(w, e)
    ensures Agrees(Step(w, e).db) <==> !Disturbs(w, e)
  {
    match e
    case Submit(id, s) => CreatedAgrees(w.db, id, s);
    case MatchBuilding(id, m) => MatchKeepsIff(w.db, id, m);
    case Merge(primary, dups) => MergeKeepsIff(w.db, primary, dups);
    case Transition(id, target, reason) => TransitionedAgrees(w.db, id, target, reason);
    case Score(id, cs, dist) => ScoredAgrees(w.db, id, cs, dist);
    case Confirm(id) => ResolvedAgrees(w.db, id);
    case RejectPending(id) => ResolvedAgrees(w.db, id);
    case _ => QuietAgrees(w, e);
  }

  /** No event of the run disturbs the state it meets. */
  ghost predicate Undisturbed(w: World, es: seq<Event>)
    decreases |es|
  {
    es == [] || (Possible(w, es[0]) && !Disturbs(w, es[0]) && Undisturbed(Step(w, es[0]), es[1..]))
  }

  lemma {:induction false} RunAgrees(w: World, es: seq<Event>, w': World)
    requires Agrees(w.db) && Reaches(w, es, w') && Undisturbed(w, es)
    ensures Agrees(w'.db)
    decreases |es|
  {
    if es != [] {
      SeverityStepIff(w, es[0]);
      RunAgrees(Step(w, es[0]), es[1..], w');
    }
  }

  /** Main result, over runs: from an empty table, across GIS matches, transitions, scoring, merges,
      confirmations and rejections, every stored severity equals recomputation. */
  lemma SeverityAlwaysExact(w: World, es: seq<Event>, w': World, b: BuildingId)
    requires Initial(w) && Reaches(w, es, w') && Undisturbed(w, es) && b in w'.db.buildings
    ensures w'.db.buildings[b] == Worst(w'.db.reports, b)
  {
    assert Agrees(w.db);
    RunAgrees(w, es, w');
  }

  /** A caller's way to stay clear of both: match each report to one building, merge no rejected one. */
  lemma CarefulCallersDoNotDisturb(w: World, e: Event)
    requires e.MatchBuilding? && e.gis.Matched? && e.id in w.db.reports ==>
               w.db.reports[e.id].building in {None, Some(e.gis.building)}
    requires e.Merge? ==> forall dup :: dup in e.dups && dup in w.db.reports ==> !w.db.reports[dup].status.Rejected?
    ensures !Disturbs(w, e)
  {
  }

  function Example(status: Status): Report {
    NewReport(Submission(Destroyed, None, None, "flood", "residential", None, None, 0, 0))
      .(status := status, building := Some(1))
  }

  /** One destroyed report matched from building 1 to building 2 leaves 1 marked destroyed. */
  lemma RematchLeavesStaleSeverity() returns (db: Db)
    ensures Agrees(db) && BuildingMatched(db, 7, Matched(2, 1.0)).Ok?
    ensures !Agrees(BuildingMatched(db, 7, Matched(2, 1.0)).value)
  {
    db := Db(map[7 := Example(Pending)], map[1 := Destroyed, 2 := NoDamage], []);
    assert CountsTowards(db.reports, 1, 7);
    assert SomeCounting(db.reports, 1, Destroyed);
    MatchKeepsIff(db, 7, Matched(2, 1.0));
  }

  /** Merging a rejected destroyed report makes it count again, and nothing recomputes. */
  lemma MergingRejectedLeavesStaleSeverity() returns (db: Db)
    ensures Agrees(db) && Merged(db, 8, [7]).Ok? && !Agrees(Merged(db, 8, [7]).value)
  {
    db := Db(map[7 := Example(Rejected), 8 := Example(Pending).(building := None)], map[1 := NoDamage], []);
    assert forall id :: id in db.reports ==> !CountsTowards(db.reports, 1, id);
    MergeKeepsIff(db, 8, [7]);
    assert 7 in [7] && db.reports[7].building.value == 1;
    assert MergedAll(db, 8, [7]) == MergedAll(MergedOne(db, 8, 7), 8, [7][1..]);
  }
}
