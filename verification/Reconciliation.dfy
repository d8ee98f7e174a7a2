/**
 * The reconciliation sweep: which reports it selects, what a re-driven report still misses when it comes
 * to rest, and for which reports repeated sweeps make progress: those whose steps write their columns.
 * Reports whose steps end without writing stay selected, and can keep younger ones out.
 */
module Reconciliation {
  import opened Common
  import opened PendingStepGate
  import opened DuplicateDispatch

  const MAX_AGE: nat := 72 * 60 // minutes

  /** One report as the sweep's query sees it; a table lists reports in the order the query takes them. */
  datatype Entry = Entry(id: ReportId, created: int, pipe: Pipe)

  predicate NeedsGis(row: Row) { !row.gisDone }

  predicate NeedsAi(row: Row) { row.hasPhoto && !row.aiDone }

  predicate NeedsDedup(row: Row) { !row.scored }

  predicate MissingStage(row: Row) {
    NeedsGis(row) || NeedsAi(row) || NeedsDedup(row)
  }

  predicate Stuck(e: Entry, now: int, grace: nat) {
    && e.pipe.row.pending
    && e.created < now - grace
    && e.created > now - MAX_AGE
    && MissingStage(e.pipe.row)
  }

  function RowOf(e: Entry): StuckRow {
    StuckRow(e.id, NeedsGis(e.pipe.row), NeedsAi(e.pipe.row), NeedsDedup(e.pipe.row))
  }

  function StuckWeight(now: int, grace: nat): Entry -> nat {
    (e: Entry) => if Stuck(e, now, grace) then 1 else 0
  }

  function StuckCount(t: seq<Entry>, now: int, grace: nat): nat {
    Total(t, StuckWeight(now, grace))
  }

  /** Row `i` is among the first `limit` stuck ones. */
  predicate Selected(t: seq<Entry>, now: int, grace: nat, limit: nat, i: nat)
    requires i < |t|
  {
    Stuck(t[i], now, grace) && StuckCount(t[..i], now, grace) < limit
  }

  /** `_STUCK_QUERY`: filter, in creation order, with LIMIT. */
  function StuckQuery(t: seq<Entry>, now: int, grace: nat, limit: nat): seq<StuckRow> {
    if t == [] || limit == 0 then []
    else if Stuck(t[0], now, grace) then [RowOf(t[0])] + StuckQuery(t[1..], now, grace, limit - 1)
    else StuckQuery(t[1..], now, grace, limit)
  }

  ghost predicate DistinctIds(t: seq<Entry>) {
    forall i, j :: 0 <= i < j < |t| ==> t[i].id != t[j].id
  }

  /** The query returns exactly the selected rows, each with exactly its missing stages. */
  lemma {:induction false} QuerySelectsExactly(t: seq<Entry>, now: int, grace: nat, limit: nat, i: nat)
    requires DistinctIds(t) && i < |t|
    ensures Selected(t, now, grace, limit, i) <==> RowOf(t[i]) in StuckQuery(t, now, grace, limit)
    ensures (exists r :: r in StuckQuery(t, now, grace, limit) && r.id == t[i].id)
        ==> Selected(t, now, grace, limit, i)
    decreases |t|
  {
    QueryIdsFromTable(t[1..], now, grace, limit);
    if limit > 0 {
      QueryIdsFromTable(t[1..], now, grace, limit - 1);
    }
    if i == 0 {
      assert t[..0] == [];
      assert forall j :: 0 <= j < |t[1..]| ==> t[1..][j].id != t[0].id;
    } else {
      assert t[..i][1..] == t[1..][..i - 1];
      assert t[..i][0] == t[0];
      var rest := if limit > 0 && Stuck(t[0], now, grace) then limit - 1 else limit;
      QuerySelectsExactly(t[1..], now, grace, rest, i - 1);
      assert t[1..][i - 1] == t[i];
    }
  }

  /** The rows come in table order: the row of a selected report stands after one row for each stuck report
      ahead of it. */
  lemma {:induction false} QueryFollowsTable(t: seq<Entry>, now: int, grace: nat, limit: nat, i: nat)
    requires i < |t| && Selected(t, now, grace, limit, i)
    ensures StuckCount(t[..i], now, grace) < |StuckQuery(t, now, grace, limit)|
    ensures StuckQuery(t, now, grace, limit)[StuckCount(t[..i], now, grace)] == RowOf(t[i])
    decreases |t|
  {
    if i == 0 {
      assert t[..0] == [];
    } else {
      assert t[..i][1..] == t[1..][..i - 1] && t[..i][0] == t[0] && t[1..][i - 1] == t[i];
      QueryFollowsTable(t[1..], now, grace, if Stuck(t[0], now, grace) then limit - 1 else limit, i - 1);
    }
  }

  lemma {:induction false} QueryIdsFromTable(t: seq<Entry>, now: int, grace: nat, limit: nat)
    ensures forall r :: r in StuckQuery(t, now, grace, limit) ==> exists j :: 0 <= j < |t| && t[j].id == r.id
    ensures |StuckQuery(t, now, grace, limit)| <= limit
    decreases |t|
  {
    if t != [] && limit > 0 {
      var rest := if Stuck(t[0], now, grace) then limit - 1 else limit;
      QueryIdsFromTable(t[1..], now, grace, rest);
      forall r | r in StuckQuery(t, now, grace, limit)
        ensures exists j :: 0 <= j < |t| && t[j].id == r.id
      {
        if r in StuckQuery(t[1..], now, grace, rest) {
          var j :| 0 <= j < |t[1..]| && t[1..][j].id == r.id;
          assert t[j + 1].id == r.id;
        } else {
          assert t[0].id == r.id;
        }
      }
    }
  }

  lemma {:induction false} QueryRowsDistinct(t: seq<Entry>, now: int, grace: nat, limit: nat)
    requires DistinctIds(t)
    ensures DistinctRows(StuckQuery(t, now, grace, limit))
    decreases |t|
  {
    if t != [] && limit > 0 {
      var rest := if Stuck(t[0], now, grace) then limit - 1 else limit;
      QueryRowsDistinct(t[1..], now, grace, rest);
      QueryIdsFromTable(t[1..], now, grace, rest);
      assert forall r :: r in StuckQuery(t[1..], now, grace, rest) ==> r.id != t[0].id;
    }
  }

  /** The table after a fault-free sweep: each selected report is re-driven, the rest untouched. */
  function SweptTable(t: seq<Entry>, now: int, grace: nat, limit: nat): (u: seq<Entry>)
    ensures |u| == |t|
  {
    seq(|t|, i requires 0 <= i < |t| =>
      if Selected(t, now, grace, limit, i) then t[i].(pipe := Redriven(t[i].pipe, RowOf(t[i]))) else t[i])
  }

  /** The sweep over the query's rows leaves the shared state of that table. */
  lemma SweepShowsTable(b: Broker, t: seq<Entry>, now: int, grace: nat, limit: nat, i: nat)
    requires DistinctIds(t) && i < |t| && Shows(b, t[i].id, t[i].pipe)
    ensures Shows(Swept(b, StuckQuery(t, now, grace, limit), []), t[i].id,
                  SweptTable(t, now, grace, limit)[i].pipe)
  {
    var rows := StuckQuery(t, now, grace, limit);
    QueryRowsDistinct(t, now, grace, limit);
    QuerySelectsExactly(t, now, grace, limit, i);
    if Selected(t, now, grace, limit, i) {
      var k :| 0 <= k < |rows| && rows[k] == RowOf(t[i]);
      SweepRedrivesTheSelected(b, rows, k, t[i].pipe);
    } else {
      SweepLeavesOthersAlone(b, rows, [], t[i].id, t[i].pipe);
    }
  }

  // ------------------------------------------------------------------
  // A re-driven report heals
  // ------------------------------------------------------------------

  predicate Unfinished(phase: Phase) {
    phase.Unpublished? || phase.Queued? || phase.Running?
  }

  function GisWork(j: Job): nat { if j.stage.Gis? && Unfinished(j.phase) then 1 else 0 }

  function AiWork(j: Job): nat { if j.stage.Ai? && Unfinished(j.phase) then 1 else 0 }

  /** Scoring is on its way: a message is waiting, or a marker will send one. */
  ghost predicate ScoreComing(p: Pipe) {
    p.row.pending && NeedsDedup(p.row) ==> p.scores > 0 || (GateBounded(p) && (Unmarked(p) > 0 || Owing(p) > 0))
  }

  /** Everything missing is on its way. */
  ghost predicate Healing(p: Pipe) {
    && (NeedsGis(p.row) ==> Total(p.jobs, GisWork) > 0)
    && (NeedsAi(p.row) ==> Total(p.jobs, AiWork) > 0)
    && ScoreComing(p)
  }

  /** A step that ends here wrote its columns. An integrity error and exhausted retries of the GIS worker
      end it without. */
  predicate Writes(p: Pipe, a: Action) {
    a.Finish? && a.i < |p.jobs| ==> a.wrote == (p.jobs[a.i].stage.Gis? || p.row.hasPhoto)
  }

  /** Nothing is lost; crashes, redelivery, expiry, flush and re-seeding are all allowed. */
  predicate Lossless(p: Pipe, a: Action) {
    Enabled(p, a) && Reliable(a)
  }

  /** Nothing is lost and a finished step wrote its columns. */
  predicate Benign(p: Pipe, a: Action) {
    Lossless(p, a) && Writes(p, a)
  }

  /** No pipeline step un-does a stage or brings a decided report back. */
  predicate RowProgress(r: Row, s: Row) {
    && (s.pending ==> r.pending)
    && (r.gisDone ==> s.gisDone)
    && (r.aiDone ==> s.aiDone)
    && (r.scored ==> s.scored)
    && r.hasPhoto == s.hasPhoto
  }

  /** The sweep's row names every stage that is missing now. */
  predicate Covers(row: StuckRow, r: Row) {
    && (NeedsGis(r) ==> row.needsGis)
    && (NeedsAi(r) ==> row.needsAi)
    && (row.needsGis || row.needsAi || row.needsDedup)
  }

  lemma RedrivingWork(row: StuckRow)
    ensures Total(Redriving(row), GisWork) == if row.needsGis then 1 else 0
    ensures Total(Redriving(row), AiWork) == if row.needsAi then 1 else 0
    ensures Total(Redriving(row), UnmarkedWeight) == |MissingStages(row)|
  {
    RedrivingCounts(row);
    TotalSmall(Job(Gis, Queued(0)), Job(Ai, Queued(0)), GisWork);
    TotalSmall(Job(Gis, Queued(0)), Job(Ai, Queued(0)), AiWork);
    TotalSmall(Job(Gis, Queued(0)), Job(Ai, Queued(0)), UnmarkedWeight);
    TotalSmall(Job(Ai, Queued(0)), Job(Ai, Queued(0)), GisWork);
    TotalSmall(Job(Ai, Queued(0)), Job(Ai, Queued(0)), AiWork);
    TotalSmall(Job(Ai, Queued(0)), Job(Ai, Queued(0)), UnmarkedWeight);
  }

  lemma RedrivenWork(p: Pipe, row: StuckRow)
    ensures var q := Redriven(p, row);
      && Total(q.jobs, GisWork) == Total(p.jobs, GisWork) + (if row.needsGis then 1 else 0)
      && Total(q.jobs, AiWork) == Total(p.jobs, AiWork) + (if row.needsAi then 1 else 0)
      && Unmarked(q) == Unmarked(p) + |MissingStages(row)|
  {
    RedrivingWork(row);
    TotalConcat(p.jobs, Redriving(row), GisWork);
    TotalConcat(p.jobs, Redriving(row), AiWork);
    TotalConcat(p.jobs, Redriving(row), UnmarkedWeight);
  }

  /** Whatever state a report is in, re-driving what its row names puts everything missing on its way. */
  lemma RedrivenHeals(p: Pipe, row: StuckRow)
    requires Covers(row, p.row)
    ensures Healing(Redriven(p, row))
  {
    RedrivenWork(p, row);
  }

  function Work(stage: Stage): Job -> nat {
    if stage.Gis? then GisWork else AiWork
  }

  predicate Needs(row: Row, stage: Stage) {
    if stage.Gis? then NeedsGis(row) else NeedsAi(row)
  }

  /** Work on a missing stage does not disappear before the stage is written. */
  lemma WorkAfterStep(p: Pipe, a: Action, stage: Stage)
    requires Benign(p, a) && Total(p.jobs, Work(stage)) > 0
    ensures Needs(Next(p, a).row, stage) ==> Total(Next(p, a).jobs, Work(stage)) > 0
  {
    if a.Seed? {
      TotalConcat(p.jobs, Fresh(a.stages), Work(stage));
    } else if a.Duplicate? {
      TotalConcat(p.jobs, [Job(p.jobs[a.i].stage, Queued(a.k))], Work(stage));
    } else if PhaseAfter(p, a).Some? {
      StepTotal(p, a, Work(stage));
    }
  }

  lemma ScoreKeepsComing(p: Pipe, a: Action)
    requires ScoreComing(p) && Lossless(p, a)
    ensures ScoreComing(Next(p, a))
  {
    StepCounts(p, a);
  }

  lemma HealingStep(p: Pipe, a: Action)
    requires Healing(p) && Benign(p, a)
    ensures Healing(Next(p, a))
  {
    if Total(p.jobs, GisWork) > 0 {
      WorkAfterStep(p, a, Gis);
    }
    if Total(p.jobs, AiWork) > 0 {
      WorkAfterStep(p, a, Ai);
    }
    ScoreKeepsComing(p, a);
  }

  /** A healing report that has come to rest is missing nothing. */
  lemma HealedAtRest(p: Pipe)
    requires Healing(p) && Quiescent(p)
    ensures !(p.row.pending && MissingStage(p.row))
  {
    QuiescentCounts(p);
    TotalZero(p.jobs, GisWork);
    TotalZero(p.jobs, AiWork);
  }

  /** The action commits the columns of the stage. */
  predicate Commits(p: Pipe, a: Action, stage: Stage) {
    (a.Finish? || a.Retry?) && a.wrote && a.i < |p.jobs| && p.jobs[a.i].stage == stage
  }

  /** Some action of the run does. */
  ghost predicate EverCommits(p: Pipe, acts: seq<Action>, stage: Stage)
    decreases |acts|
  {
    acts != [] && Enabled(p, acts[0])
    && (Commits(p, acts[0], stage) || EverCommits(Next(p, acts[0]), acts[1..], stage))
  }

  lemma CommitsNeeds(p: Pipe, a: Action, stage: Stage)
    requires Enabled(p, a)
    ensures Needs(Next(p, a).row, stage) <==> Needs(p.row, stage) && !Commits(p, a, stage)
  {
  }

  lemma {:induction false} LosslessRun(p: Pipe, acts: seq<Action>, q: Pipe, stage: Stage)
    requires ScoreComing(p) && AllReliable(acts) && Reaches(p, acts, q)
    ensures ScoreComing(q)
    ensures Needs(q.row, stage) <==> Needs(p.row, stage) && !EverCommits(p, acts, stage)
    decreases |acts|
  {
    if acts != [] {
      assert Reliable(acts[0]);
      ScoreKeepsComing(p, acts[0]);
      CommitsNeeds(p, acts[0], stage);
      forall k | 0 <= k < |acts[1..]|
        ensures Reliable(acts[1..][k])
      {
        assert acts[1..][k] == acts[k + 1];
      }
      LosslessRun(Next(p, acts[0]), acts[1..], q, stage);
    }
  }

  /** Main result: a re-driven report that comes to rest after any lossless run, and is still pending, has
      been scored and misses exactly the stages that it missed before and no step wrote. */
  lemma MissingAtRestIff(e: Entry, acts: seq<Action>, q: Pipe)
    requires MissingStage(e.pipe.row) && AllReliable(acts)
    requires Reaches(Redriven(e.pipe, RowOf(e)), acts, q) && Quiescent(q)
    ensures q.row.pending ==> !NeedsDedup(q.row)
    ensures forall stage ::
              Needs(q.row, stage)
              <==> Needs(e.pipe.row, stage) && !EverCommits(Redriven(e.pipe, RowOf(e)), acts, stage)
  {
    var p := Redriven(e.pipe, RowOf(e));
    RedrivenHeals(e.pipe, RowOf(e));
    LosslessRun(p, acts, q, Gis);
    LosslessRun(p, acts, q, Ai);
    QuiescentCounts(q);
  }

  lemma FailedGisReachesMarker(p: Pipe) returns (q: Pipe)
    requires p.jobs == [Job(Gis, Queued(0))]
    ensures Reaches(p, [Start(0), Finish(0, false)], q)
    ensures q == p.(jobs := [Job(Gis, Marking)])
  {
    RunTwo(p, Start(0), Finish(0, false));
    q := Next(Next(p, Start(0)), Finish(0, false));
    assert q.jobs == [Job(Gis, Marking)];
  }

  lemma SoleMarkerIsScored(p: Pipe) returns (acts: seq<Action>, q: Pipe)
    requires p.jobs == [Job(Gis, Marking)] && p.gate == Some(1) && p.scores == 0 && p.row.pending
    ensures Reaches(p, acts, q) && AllReliable(acts) && Quiescent(q)
    ensures q.row == p.row.(scored := true)
  {
    RunSend(p, 0);
    var sent := Pipe(None, Done(p, 0), 1, p.row, p.log + [MarkDone] + [ScoreSent]);
    acts := [Mark(0), Delete(0), Send(0)];
    Extend(p, acts, sent, Score(false));
    acts, q := acts + [Score(false)], Next(sent, Score(false));
  }

  /** A GIS step that ends without writing leaves the report as stuck as it was: after its re-drive and
      this run it is at rest, scored, and missing GIS. */
  lemma FailedGisStaysMissing(e: Entry) returns (acts: seq<Action>, q: Pipe)
    requires e.pipe.jobs == [] && e.pipe.scores == 0 && e.pipe.row.pending
    requires NeedsGis(e.pipe.row) && !NeedsAi(e.pipe.row)
    ensures Reaches(Redriven(e.pipe, RowOf(e)), acts, q) && AllReliable(acts) && Quiescent(q)
    ensures q.row == e.pipe.row.(scored := true) && NeedsGis(q.row)
  {
    var p := Redriven(e.pipe, RowOf(e));
    var p1 := FailedGisReachesMarker(p);
    acts, q := SoleMarkerIsScored(p1);
    JoinReliableRuns(p, [Start(0), Finish(0, false)], p1, acts, q);
    acts := [Start(0), Finish(0, false)] + acts;
  }

  /** A fault-free drain exists and is finite: from any state the workers can run to rest. */
  lemma FaultFreeDrain(p: Pipe) returns (acts: seq<Action>, q: Pipe)
    ensures Reaches(p, acts, q) && Quiescent(q)
    ensures forall k :: 0 <= k < |acts| ==> FaultFree(acts[k])
    ensures Healing(p) ==> Healing(q)
    decreases Measure(p)
  {
    if Quiescent(p) {
      return [], p;
    }
    var a;
    if p.scores > 0 {
      a := Score(false);
    } else {
      var i :| 0 <= i < |p.jobs| && !p.jobs[i].phase.Finished?;
      a := NextAction(p, i);
    }
    EveryStepMakesProgress(p, a);
    if Healing(p) {
      HealingStep(p, a);
    }
    var rest;
    rest, q := FaultFreeDrain(Next(p, a));
    acts := [a] + rest;
    assert acts[1..] == rest;
  }

  // ------------------------------------------------------------------
  // The whole table
  // ------------------------------------------------------------------

  /** What happens to the table from one sweep's query to the next: pipeline steps, new submissions, the
      sweep's rows one by one, photos that come, go or are taken over, analysts' decisions and merges,
      and rejected merges, which make a held report pending again. */
  datatype Activity =
    | Work(i: nat, action: Action)
    | Redrive(i: nat, row: StuckRow)
    | ChangePhoto(i: nat, hasPhoto: bool, aiDone: bool)
    | Decide(i: nat)
    | Reopen(i: nat)
    | Arrive(entry: Entry)

  /** New submissions are the newest; held reports have been scored. */
  predicate Can(t: seq<Entry>, a: Activity) {
    match a
    case Work(i, action) => i < |t| && Lossless(t[i].pipe, action)
    case Redrive(i, row) => i < |t| && row.id == t[i].id
    case ChangePhoto(i, _, _) => i < |t|
    case Decide(i) => i < |t|
    case Reopen(i) => i < |t| && t[i].pipe.row.scored
    case Arrive(e) => forall k :: 0 <= k < |t| ==> t[k].created <= e.created && t[k].id != e.id
  }

  function PipeAfter(p: Pipe, a: Activity): Pipe
    requires a.Work? ==> Enabled(p, a.action)
  {
    match a
    case Work(_, action) => Next(p, action)
    case Redrive(_, row) => Redriven(p, row)
    case ChangePhoto(_, hasPhoto, aiDone) => p.(row := p.row.(hasPhoto := hasPhoto, aiDone := aiDone))
    case Decide(_) => p.(row := p.row.(pending := false))
    case Reopen(_) => p.(row := p.row.(pending := true))
    case Arrive(_) => p
  }

  function After(t: seq<Entry>, a: Activity): seq<Entry>
    requires Can(t, a)
  {
    if a.Arrive? then t + [a.entry] else t[a.i := t[a.i].(pipe := PipeAfter(t[a.i].pipe, a))]
  }

  ghost predicate Runs(t: seq<Entry>, steps: seq<Activity>, u: seq<Entry>)
    decreases |steps|
  {
    if steps == [] then t == u else Can(t, steps[0]) && Runs(After(t, steps[0]), steps[1..], u)
  }

  function Redrives(steps: seq<Activity>): seq<StuckRow> {
    if steps == [] then []
    else (if steps[0].Redrive? then [steps[0].row] else []) + Redrives(steps[1..])
  }

  /** One sweep and everything until the next: the query reads `t` at `now`, and its rows are re-driven
      in order, each at some later moment. */
  ghost predicate SweepRun(t: seq<Entry>, now: int, grace: nat, limit: nat, steps: seq<Activity>, u: seq<Entry>) {
    Runs(t, steps, u) && Redrives(steps) == StuckQuery(t, now, grace, limit)
  }

  /** Re-driving a row is one iteration of the sweep's loop on the shared state, at whatever moment. */
  lemma RedriveIsReconcileRow(b: Broker, t: seq<Entry>, a: Activity, k: nat)
    requires a.Redrive? && Can(t, a) && DistinctIds(t) && k < |t| && Shows(b, t[k].id, t[k].pipe)
    ensures Shows(RowSwept(b, a.row, Fine), t[k].id, After(t, a)[k].pipe)
  {
    if k == a.i {
      RowSweptShows(b, a.row, t[k].pipe);
    } else {
      RowSweptLeavesOthersAlone(b, a.row, Fine, t[k].id, t[k].pipe);
    }
  }

  /** The order of `ORDER BY created_at ASC`. */
  ghost predicate Sorted(t: seq<Entry>) {
    forall i, j :: 0 <= i < j < |t| ==> t[i].created <= t[j].created
  }

  lemma StepKeepsTable(t: seq<Entry>, a: Activity)
    requires Can(t, a)
    ensures |t| <= |After(t, a)|
    ensures forall k :: 0 <= k < |t| ==> After(t, a)[k].id == t[k].id && After(t, a)[k].created == t[k].created
    ensures DistinctIds(t) ==> DistinctIds(After(t, a))
    ensures Sorted(t) ==> Sorted(After(t, a))
  {
  }

  /** Reports stay at their place; the table stays in creation order and its identifiers distinct. */
  lemma {:induction false} RunKeepsTable(t: seq<Entry>, steps: seq<Activity>, u: seq<Entry>)
    requires Runs(t, steps, u)
    ensures |t| <= |u|
    ensures forall k :: 0 <= k < |t| ==> u[k].id == t[k].id && u[k].created == t[k].created
    ensures DistinctIds(t) ==> DistinctIds(u)
    ensures Sorted(t) ==> Sorted(u)
    decreases |steps|
  {
    if steps != [] {
      StepKeepsTable(t, steps[0]);
      RunKeepsTable(After(t, steps[0]), steps[1..], u);
    }
  }

  // ------------------------------------------------------------------
  // Repeated sweeps clear the reports whose steps write
  // ------------------------------------------------------------------

  /** The activity is not about one of the first `m` reports, or it neither changes its photo nor reopens
      it, and a step of it that ends has written. */
  predicate Settles(t: seq<Entry>, a: Activity, m: nat)
    requires Can(t, a)
  {
    a.Arrive? || a.i >= m || (!a.ChangePhoto? && !a.Reopen? && (a.Work? ==> Writes(t[a.i].pipe, a.action)))
  }

  ghost predicate AllSettle(t: seq<Entry>, steps: seq<Activity>, m: nat)
    decreases |steps|
  {
    steps == []
    || (Can(t, steps[0]) && Settles(t, steps[0], m) && AllSettle(After(t, steps[0]), steps[1..], m))
  }

  ghost predicate Kept(p: Pipe, q: Pipe) {
    RowProgress(p.row, q.row) && (Healing(p) ==> Healing(q))
  }

  lemma RedriveKeepsHealing(p: Pipe, row: StuckRow)
    requires Healing(p)
    ensures Healing(Redriven(p, row))
  {
    RedrivenWork(p, row);
    RedrivenOwing(p, row);
  }

  lemma RedrivenOwing(p: Pipe, row: StuckRow)
    ensures Owing(Redriven(p, row)) == Owing(p)
  {
    RedrivingCounts(row);
    TotalZero(Redriving(row), OwingWeight);
    TotalConcat(p.jobs, Redriving(row), OwingWeight);
  }

  lemma ActionProgress(p: Pipe, action: Action)
    requires Enabled(p, action)
    ensures RowProgress(p.row, Next(p, action).row)
  {
  }

  lemma WorkKeeps(p: Pipe, action: Action)
    requires Benign(p, action)
    ensures Kept(p, Next(p, action))
  {
    ActionProgress(p, action);
    if Healing(p) {
      HealingStep(p, action);
    }
  }

  lemma PipeKeeps(p: Pipe, a: Activity)
    requires (a.Work? && Benign(p, a.action)) || a.Redrive? || a.Decide?
    ensures Kept(p, PipeAfter(p, a))
  {
    if a.Work? {
      WorkKeeps(p, a.action);
    } else if a.Redrive? && Healing(p) {
      RedriveKeepsHealing(p, a.row);
    }
  }

  lemma StepKeeps(t: seq<Entry>, a: Activity, m: nat, k: nat)
    requires Can(t, a) && Settles(t, a, m) && k < m <= |t|
    ensures Kept(t[k].pipe, After(t, a)[k].pipe)
  {
    if !a.Arrive? && a.i == k {
      PipeKeeps(t[k].pipe, a);
    }
  }

  lemma {:induction false} RunKeeps(t: seq<Entry>, steps: seq<Activity>, u: seq<Entry>, m: nat, k: nat)
    requires Runs(t, steps, u) && AllSettle(t, steps, m) && k < m <= |t|
    ensures k < |u| && Kept(t[k].pipe, u[k].pipe)
    decreases |steps|
  {
    if steps != [] {
      StepKeeps(t, steps[0], m, k);
      StepKeepsTable(t, steps[0]);
      RunKeeps(After(t, steps[0]), steps[1..], u, m, k);
    }
  }

  /** A report whose row is re-driven in the run is healing from then on. */
  lemma {:induction false} RunHeals(t: seq<Entry>, steps: seq<Activity>, u: seq<Entry>, m: nat, k: nat, row: StuckRow)
    requires Runs(t, steps, u) && AllSettle(t, steps, m) && k < m <= |t| && DistinctIds(t)
    requires row in Redrives(steps) && row.id == t[k].id && Covers(row, t[k].pipe.row)
    ensures k < |u| && Healing(u[k].pipe)
    decreases |steps|
  {
    var a, v := steps[0], After(t, steps[0]);
    StepKeepsTable(t, a);
    StepKeeps(t, a, m, k);
    if a.Redrive? && a.row == row {
      assert a.i == k;
      RedrivenHeals(t[k].pipe, row);
      RunKeeps(v, steps[1..], u, m, k);
    } else {
      RunHeals(v, steps[1..], u, m, k, row);
    }
  }

  ghost predicate AllAtRest(t: seq<Entry>) {
    forall k :: 0 <= k < |t| ==> Quiescent(t[k].pipe)
  }

  ghost predicate PastGrace(t: seq<Entry>, now: int, grace: nat) {
    forall k :: 0 <= k < |t| ==> t[k].created < now - grace
  }

  /** In creation order, whoever is older than a report past its grace period is past it too. */
  lemma SortedPrefixIsPastGrace(t: seq<Entry>, i: nat, now: int, grace: nat)
    requires Sorted(t) && i < |t| && t[i].created < now - grace
    ensures PastGrace(t[..i + 1], now, grace)
  {
  }

  /** A report past its grace period, after one sweep and any lossless run that writes its columns and
      brings it to rest: if it was selected it is missing no stage, and if it is stuck it was stuck and
      not selected. */
  lemma SweepClearsSelected(t: seq<Entry>, now: int, grace: nat, limit: nat,
                            steps: seq<Activity>, u: seq<Entry>, later: int, m: nat, k: nat)
    requires DistinctIds(t) && k < m <= |t| && t[k].created < now - grace && later >= now
    requires SweepRun(t, now, grace, limit, steps, u) && AllSettle(t, steps, m)
    requires k < |u| && Quiescent(u[k].pipe)
    ensures u[k].created == t[k].created
    ensures Selected(t, now, grace, limit, k) ==> !(u[k].pipe.row.pending && MissingStage(u[k].pipe.row))
    ensures Stuck(u[k], later, grace) ==> Stuck(t[k], now, grace) && !Selected(t, now, grace, limit, k)
  {
    RunKeepsTable(t, steps, u);
    RunKeeps(t, steps, u, m, k);
    if Selected(t, now, grace, limit, k) {
      QuerySelectsExactly(t, now, grace, limit, k);
      RunHeals(t, steps, u, m, k, RowOf(t[k]));
      HealedAtRest(u[k].pipe);
    }
  }

  lemma {:induction false} CountLeft(t: seq<Entry>, u: seq<Entry>, now: int, later: int, grace: nat, limit: nat)
    requires |t| == |u|
    requires forall k :: 0 <= k < |t| && Stuck(u[k], later, grace) ==>
               Stuck(t[k], now, grace) && !Selected(t, now, grace, limit, k)
    ensures StuckCount(u, later, grace) <= Left(StuckCount(t, now, grace), limit)
    decreases |t|
  {
    if t != [] {
      var n := |t| - 1;
      forall k | 0 <= k < n && Stuck(u[..n][k], later, grace)
        ensures Stuck(t[..n][k], now, grace) && !Selected(t[..n], now, grace, limit, k)
      {
        assert t[..n][..k] == t[..k];
        assert u[..n][k] == u[k];
      }
      CountLeft(t[..n], u[..n], now, later, grace, limit);
      assert t == t[..n] + [t[n]] && u == u[..n] + [u[n]];
      TotalConcat(t[..n], [t[n]], StuckWeight(now, grace));
      TotalConcat(u[..n], [u[n]], StuckWeight(later, grace));
    }
  }

  function Left(count: nat, cleared: nat): nat {
    if count <= cleared then 0 else count - cleared
  }

  /** One round: a sweep at `now` and a lossless run that brings the first `m` reports to rest with their
      columns written. Anything may happen to younger reports. */
  ghost predicate Round(t: seq<Entry>, now: int, grace: nat, limit: nat, u: seq<Entry>, m: nat) {
    && m <= |u| && AllAtRest(u[..m])
    && exists steps :: SweepRun(t, now, grace, limit, steps, u) && AllSettle(t, steps, m)
  }

  ghost predicate Later(nows: seq<int>) {
    forall k :: 0 <= k < |nows| - 1 ==> nows[k] <= nows[k + 1]
  }

  ghost predicate Rounds(ts: seq<seq<Entry>>, nows: seq<int>, grace: nat, limit: nat, m: nat) {
    && |ts| == |nows| > 0 && Later(nows)
    && m <= |ts[0]| && DistinctIds(ts[0])
    && forall k :: 0 <= k < |ts| - 1 ==> Round(ts[k], nows[k], grace, limit, ts[k + 1], m)
  }

  lemma PrefixSelected(t: seq<Entry>, now: int, grace: nat, limit: nat, m: nat, k: nat)
    requires k < m <= |t|
    ensures Selected(t[..m], now, grace, limit, k) == Selected(t, now, grace, limit, k)
  {
    assert t[..m][..k] == t[..k];
  }

  lemma StuckMeansLeftOver(t: seq<Entry>, now: int, later: int, grace: nat, limit: nat,
                           steps: seq<Activity>, u: seq<Entry>, m: nat, k: nat)
    requires DistinctIds(t) && k < m <= |t| && t[k].created < now - grace && later >= now
    requires SweepRun(t, now, grace, limit, steps, u) && AllSettle(t, steps, m)
    requires k < |u| && Quiescent(u[k].pipe)
    ensures Stuck(u[k], later, grace) ==> Stuck(t[k], now, grace) && !Selected(t[..m], now, grace, limit, k)
  {
    SweepClearsSelected(t, now, grace, limit, steps, u, later, m, k);
    PrefixSelected(t, now, grace, limit, m, k);
  }

  lemma RoundLeavesOver(t: seq<Entry>, now: int, later: int, grace: nat, limit: nat,
                        steps: seq<Activity>, u: seq<Entry>, m: nat)
    requires DistinctIds(t) && m <= |t| && PastGrace(t[..m], now, grace) && later >= now
    requires SweepRun(t, now, grace, limit, steps, u) && AllSettle(t, steps, m)
    requires m <= |u| && AllAtRest(u[..m])
    ensures StuckCount(u[..m], later, grace) <= Left(StuckCount(t[..m], now, grace), limit)
  {
    forall k | 0 <= k < m && Stuck(u[..m][k], later, grace)
      ensures Stuck(t[..m][k], now, grace) && !Selected(t[..m], now, grace, limit, k)
    {
      assert t[..m][k] == t[k] && u[..m][k] == u[k];
      StuckMeansLeftOver(t, now, later, grace, limit, steps, u, m, k);
    }
    CountLeft(t[..m], u[..m], now, later, grace, limit);
  }

  lemma RoundReduces(t: seq<Entry>, now: int, later: int, grace: nat, limit: nat, u: seq<Entry>, m: nat)
    requires DistinctIds(t) && m <= |t| && PastGrace(t[..m], now, grace) && later >= now
    requires Round(t, now, grace, limit, u, m)
    ensures DistinctIds(u) && PastGrace(u[..m], later, grace)
    ensures StuckCount(u[..m], later, grace) <= Left(StuckCount(t[..m], now, grace), limit)
  {
    var steps :| SweepRun(t, now, grace, limit, steps, u) && AllSettle(t, steps, m);
    RoundLeavesOver(t, now, later, grace, limit, steps, u, m);
    RunKeepsTable(t, steps, u);
    forall k | 0 <= k < m
      ensures u[..m][k].created < later - grace
    {
      assert t[..m][k].created < now - grace;
    }
  }

  lemma LeftAfterOneMore(first: nat, before: nat, after: nat, k: nat, limit: nat)
    requires k > 0 && before <= Left(first, (k - 1) * limit) && after <= Left(before, limit)
    ensures after <= Left(first, k * limit)
  {
    assert k * limit == (k - 1) * limit + limit;
  }

  /** Main result: of the first `m` reports, `n` stuck ones are cleared after `k` sweeps as soon as
      `k * limit >= n`, provided their own steps write, whatever state their gates, jobs and messages
      were left in, whatever happens to younger reports and however many arrive meanwhile. */
  lemma {:induction false} SweepsConverge(ts: seq<seq<Entry>>, nows: seq<int>, grace: nat, limit: nat, k: nat, m: nat)
    requires Rounds(ts, nows, grace, limit, m) && PastGrace(ts[0][..m], nows[0], grace) && k < |ts|
    ensures m <= |ts[k]| && DistinctIds(ts[k]) && PastGrace(ts[k][..m], nows[k], grace)
    ensures StuckCount(ts[k][..m], nows[k], grace) <= Left(StuckCount(ts[0][..m], nows[0], grace), k * limit)
  {
    if k > 0 {
      var t, u := ts[k - 1], ts[k];
      SweepsConverge(ts, nows, grace, limit, k - 1, m);
      NextRound(ts, nows, grace, limit, k, m);
      RoundReduces(t, nows[k - 1], nows[k], grace, limit, u, m);
      LeftAfterOneMore(StuckCount(ts[0][..m], nows[0], grace), StuckCount(t[..m], nows[k - 1], grace),
                       StuckCount(u[..m], nows[k], grace), k, limit);
    }
  }

  lemma NextRound(ts: seq<seq<Entry>>, nows: seq<int>, grace: nat, limit: nat, k: nat, m: nat)
    requires Rounds(ts, nows, grace, limit, m) && 0 < k < |ts|
    ensures Round(ts[k - 1], nows[k - 1], grace, limit, ts[k], m) && nows[k - 1] <= nows[k]
  {
    assert ts[k - 1 + 1] == ts[k];
  }

  lemma NoneStuck(t: seq<Entry>, now: int, grace: nat, i: nat)
    requires StuckCount(t, now, grace) == 0 && i < |t|
    ensures !Stuck(t[i], now, grace)
  {
    TotalZero(t, StuckWeight(now, grace));
    assert StuckWeight(now, grace)(t[i]) == 0;
  }

  /** Main result: younger reports never starve an older one. In creation order, a report past its
      grace period with `n` stuck reports up to and including it is no longer stuck after `k` sweeps as
      soon as `k * limit >= n`, when the steps of those reports write, whatever arrives after it. */
  lemma OlderReportsAreNotStarved(ts: seq<seq<Entry>>, nows: seq<int>, grace: nat, limit: nat, k: nat, i: nat)
    requires Rounds(ts, nows, grace, limit, i + 1) && k < |ts|
    requires Sorted(ts[0]) && ts[0][i].created < nows[0] - grace
    requires k * limit >= StuckCount(ts[0][..i + 1], nows[0], grace)
    ensures i < |ts[k]| && !Stuck(ts[k][i], nows[k], grace)
  {
    SortedPrefixIsPastGrace(ts[0], i, nows[0], grace);
    SweepsConverge(ts, nows, grace, limit, k, i + 1);
    NoneStuck(ts[k][..i + 1], nows[k], grace, i);
  }

  // ------------------------------------------------------------------
  // Older reports whose steps never write keep younger ones out
  // ------------------------------------------------------------------

  /** Consecutive sweeps, with any lossless run between one and the next, of which `Fails` holds. */
  ghost predicate FailingRounds(ts: seq<seq<Entry>>, nows: seq<int>, grace: nat, limit: nat, m: nat) {
    && |ts| == |nows| > 0 && Later(nows)
    && m <= |ts[0]|
    && forall k :: 0 <= k < |ts| - 1 ==>
         exists steps :: SweepRun(ts[k], nows[k], grace, limit, steps, ts[k + 1]) && AllFail(steps, m)
  }

  /** No step of the first `m` reports writes, and none of them is held, decided or changes its photo. */
  predicate Fails(a: Activity, m: nat) {
    a.Arrive? || a.i >= m
    || (!a.ChangePhoto? && !a.Decide?
        && (a.Work? ==> !a.action.Score? || !a.action.merge)
        && (a.Work? && (a.action.Finish? || a.action.Retry?) ==> !a.action.wrote))
  }

  ghost predicate AllFail(steps: seq<Activity>, m: nat) {
    forall k :: 0 <= k < |steps| ==> Fails(steps[k], m)
  }

  /** Pending with a stage of its own missing. */
  predicate Unwritten(row: Row) {
    row.pending && (NeedsGis(row) || NeedsAi(row))
  }

  /** Unwritten, and inside the sweep's age window from `now` until `later`. */
  function BlockingWeight(now: int, later: int, grace: nat): Entry -> nat {
    (e: Entry) =>
      if Unwritten(e.pipe.row) && e.created < now - grace && e.created > later - MAX_AGE then 1 else 0
  }

  lemma FailingStep(t: seq<Entry>, a: Activity, m: nat, i: nat)
    requires Can(t, a) && Fails(a, m) && i < m <= |t|
    ensures Unwritten(t[i].pipe.row) ==> Unwritten(After(t, a)[i].pipe.row)
  {
  }

  lemma {:induction false} FailingRun(t: seq<Entry>, steps: seq<Activity>, u: seq<Entry>, m: nat, i: nat)
    requires Runs(t, steps, u) && AllFail(steps, m) && i < m <= |t|
    ensures i < |u| && (Unwritten(t[i].pipe.row) ==> Unwritten(u[i].pipe.row)) && u[i].created == t[i].created
    decreases |steps|
  {
    if steps != [] {
      assert Fails(steps[0], m);
      FailingStep(t, steps[0], m, i);
      StepKeepsTable(t, steps[0]);
      assert forall k :: 0 <= k < |steps[1..]| ==> steps[1..][k] == steps[k + 1];
      FailingRun(After(t, steps[0]), steps[1..], u, m, i);
    }
  }

  lemma {:induction false} FailingTables(ts: seq<seq<Entry>>, nows: seq<int>, grace: nat, limit: nat, m: nat,
                                         k: nat, i: nat)
    requires FailingRounds(ts, nows, grace, limit, m) && k < |ts| && i < m
    ensures m <= |ts[k]| && nows[0] <= nows[k] && ts[k][i].created == ts[0][i].created
    ensures Unwritten(ts[0][i].pipe.row) ==> Unwritten(ts[k][i].pipe.row)
  {
    if k > 0 {
      FailingTables(ts, nows, grace, limit, m, k - 1, i);
      assert nows[k - 1] <= nows[k - 1 + 1];
      var steps :| SweepRun(ts[k - 1], nows[k - 1], grace, limit, steps, ts[k - 1 + 1]) && AllFail(steps, m);
      FailingRun(ts[k - 1], steps, ts[k], m, i);
      RunKeepsTable(ts[k - 1], steps, ts[k]);
    }
  }

  lemma {:induction false} CountBlocking(t: seq<Entry>, u: seq<Entry>, now: int, later: int, grace: nat)
    requires |t| <= |u| && now <= later
    requires forall i :: 0 <= i < |t| ==> u[i].created == t[i].created
    requires forall i :: 0 <= i < |t| && Unwritten(t[i].pipe.row) ==> Unwritten(u[i].pipe.row)
    ensures Total(t, BlockingWeight(now, later, grace)) <= StuckCount(u, later, grace)
    decreases |t|
  {
    if t != [] {
      CountBlocking(t[1..], u[1..], now, later, grace);
    }
  }

  /** Main result: while `limit` of the first `m` reports are stuck inside the age window and their steps
      end without writing, no sweep selects a report after them, whatever that report misses. */
  lemma FailingReportsStarveYounger(ts: seq<seq<Entry>>, nows: seq<int>, grace: nat, limit: nat, m: nat,
                                    k: nat, j: nat)
    requires FailingRounds(ts, nows, grace, limit, m) && k < |ts| && m <= j < |ts[k]|
    requires Total(ts[0][..m], BlockingWeight(nows[0], nows[k], grace)) >= limit
    ensures !Selected(ts[k], nows[k], grace, limit, j)
  {
    if m > 0 {
      forall i | 0 <= i < m
        ensures ts[k][i].created == ts[0][i].created
        ensures Unwritten(ts[0][i].pipe.row) ==> Unwritten(ts[k][i].pipe.row)
        ensures nows[0] <= nows[k]
      {
        FailingTables(ts, nows, grace, limit, m, k, i);
      }
      CountBlocking(ts[0][..m], ts[k][..j], nows[0], nows[k], grace);
    }
  }

  lemma RoundKeepsTable(t: seq<Entry>, now: int, grace: nat, limit: nat, u: seq<Entry>, m: nat)
    requires Round(t, now, grace, limit, u, m)
    ensures |t| <= |u| && (Sorted(t) ==> Sorted(u))
  {
    var steps :| SweepRun(t, now, grace, limit, steps, u) && AllSettle(t, steps, m);
    RunKeepsTable(t, steps, u);
  }

  /** The tables stay in creation order, so the same holds of a report that becomes stuck later. */
  lemma {:induction false} TablesStaySorted(ts: seq<seq<Entry>>, nows: seq<int>, grace: nat, limit: nat, m: nat, k: nat)
    requires Rounds(ts, nows, grace, limit, m) && Sorted(ts[0]) && k < |ts|
    ensures Sorted(ts[k]) && |ts[0]| <= |ts[k]|
  {
    if k > 0 {
      TablesStaySorted(ts, nows, grace, limit, m, k - 1);
      NextRound(ts, nows, grace, limit, k, m);
      RoundKeepsTable(ts[k - 1], nows[k - 1], grace, limit, ts[k], m);
    }
  }
}
