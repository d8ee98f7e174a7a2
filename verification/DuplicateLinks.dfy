/**
 * The graph of `duplicate_of_id` links: when merges keep it a forest, and that following links then
 * always ends.
 */
module DuplicateLinks {
  import opened Common
  import opened Reports
  import opened RowSteps
  import StatusRules
  import DS = DuplicateScorer

  type Links = map<ReportId, ReportId>

  function LinksOf(reports: map<ReportId, Report>): Links {
    map id | id in reports && reports[id].duplicateOf.Some? :: reports[id].duplicateOf.value
  }

  /** A rank that drops along every link. */
  ghost predicate RankedBy(links: Links, rank: map<ReportId, nat>) {
    forall id :: id in links ==> id in rank && links[id] in rank && rank[links[id]] < rank[id]
  }

  ghost predicate Forest(links: Links) {
    exists rank :: RankedBy(links, rank)
  }

  /** The report reached from `id` after `n` links, if there are that many. */
  function Hops(links: Links, id: ReportId, n: nat): Option<ReportId>
    decreases n
  {
    if n == 0 then Some(id) else if id in links then Hops(links, links[id], n - 1) else None
  }

  ghost predicate LeadsTo(links: Links, id: ReportId, target: ReportId) {
    exists n: nat :: Hops(links, id, n) == Some(target)
  }

  /** Following the links from `id` to the report that has none. */
  ghost function Root(links: Links, rank: map<ReportId, nat>, id: ReportId): (root: ReportId)
    requires RankedBy(links, rank)
    ensures root !in links
    decreases if id in rank then rank[id] else 0
  {
    if id in links then Root(links, rank, links[id]) else id
  }

  lemma {:induction false} RootIsReached(links: Links, rank: map<ReportId, nat>, id: ReportId) returns (n: nat)
    requires RankedBy(links, rank)
    ensures Hops(links, id, n) == Some(Root(links, rank, id))
    ensures n <= if id in rank then rank[id] else 0
    decreases if id in rank then rank[id] else 0
  {
    n := 0;
    if id in links {
      var m := RootIsReached(links, rank, links[id]);
      n := m + 1;
    }
  }

  lemma {:induction false} HopsDescend(links: Links, rank: map<ReportId, nat>, id: ReportId, n: nat)
    requires RankedBy(links, rank) && n > 0 && Hops(links, id, n).Some?
    ensures id in rank && Hops(links, id, n).value in rank
    ensures rank[Hops(links, id, n).value] < rank[id]
    decreases n
  {
    if n > 1 {
      HopsDescend(links, rank, links[id], n - 1);
    }
  }

  /** A forest has no cycles. */
  lemma NoCycles(links: Links, id: ReportId, n: nat)
    requires Forest(links) && n > 0
    ensures Hops(links, id, n) != Some(id)
  {
    var rank :| RankedBy(links, rank);
    if Hops(links, id, n) == Some(id) {
      HopsDescend(links, rank, id, n);
    }
  }

  /** In a forest every chain of links ends at a report without one. */
  lemma EveryChainEnds(links: Links, id: ReportId) returns (root: ReportId, n: nat)
    requires Forest(links)
    ensures Hops(links, id, n) == Some(root) && root !in links
  {
    var rank :| RankedBy(links, rank);
    root := Root(links, rank, id);
    n := RootIsReached(links, rank, id);
  }

  // ------------------------------------------------------------------
  // Adding one link
  // ------------------------------------------------------------------

  /** A chain that arrives at `r` does so before it would use `r`'s own link. */
  lemma {:induction false} HopsWithoutUpdate(links: Links, r: ReportId, p: ReportId, id: ReportId, n: nat)
    returns (m: nat)
    requires Hops(links, id, n) == Some(r)
    ensures Hops(links[r := p], id, m) == Some(r)
    decreases n
  {
    m := 0;
    if id != r {
      m := HopsWithoutUpdate(links, r, p, links[id], n - 1);
      m := m + 1;
    }
  }

  /** The rank that survives linking `r` to `p`: everything that leads to `r` is lifted above `p`. */
  ghost function Lifted(links: Links, rank: map<ReportId, nat>, r: ReportId, p: ReportId): map<ReportId, nat> {
    var base := if p in rank then rank[p] + 1 else 1;
    map id | id in rank.Keys + {r, p} ::
      (if id in rank then rank[id] else 0) + (if LeadsTo(links, id, r) then base else 0)
  }

  lemma LeadsOn(links: Links, id: ReportId, r: ReportId)
    requires id in links && id != r
    ensures LeadsTo(links, id, r) <==> LeadsTo(links, links[id], r)
  {
    if LeadsTo(links, id, r) {
      var n: nat :| Hops(links, id, n) == Some(r);
      assert Hops(links, links[id], n - 1) == Some(r);
    }
    if LeadsTo(links, links[id], r) {
      var n: nat :| Hops(links, links[id], n) == Some(r);
      assert Hops(links, id, n + 1) == Some(r);
    }
  }

  lemma LiftedRanks(links: Links, rank: map<ReportId, nat>, r: ReportId, p: ReportId)
    requires RankedBy(links, rank) && !LeadsTo(links, p, r)
    ensures RankedBy(links[r := p], Lifted(links, rank, r, p))
  {
    var up, links' := Lifted(links, rank, r, p), links[r := p];
    assert Hops(links, r, 0) == Some(r);
    forall id | id in links'
      ensures id in up && links'[id] in up && up[links'[id]] < up[id]
    {
      if id != r {
        LeadsOn(links, id, r);
      }
    }
  }

  /** Main result, per link: merging `r` into `p` keeps the forest if and only if following links
      from `p` does not arrive at `r` (in particular `p` is not `r`). */
  lemma LinkKeepsForestIff(links: Links, r: ReportId, p: ReportId)
    requires Forest(links)
    ensures Forest(links[r := p]) <==> !LeadsTo(links, p, r)
  {
    if LeadsTo(links, p, r) {
      var n: nat :| Hops(links, p, n) == Some(r);
      var m := HopsWithoutUpdate(links, r, p, p, n);
      assert Hops(links[r := p], r, m + 1) == Some(r);
      if Forest(links[r := p]) {
        NoCycles(links[r := p], r, m + 1);
      }
    } else {
      var rank :| RankedBy(links, rank);
      LiftedRanks(links, rank, r, p);
    }
  }

  // ------------------------------------------------------------------
  // Runs
  // ------------------------------------------------------------------

  lemma MergedOneLinks(db: Db, primary: ReportId, dup: ReportId)
    requires dup in db.reports
    ensures LinksOf(MergedOne(db, primary, dup).reports) == LinksOf(db.reports)[dup := primary]
  {
  }

  // ------------------------------------------------------------------
  // The operations that add links: exact conditions
  // ------------------------------------------------------------------

  ghost predicate OnCycle(links: Links, p: ReportId) {
    exists n: nat :: n > 0 && Hops(links, p, n) == Some(p)
  }

  /** Chains that avoid `r` do not notice a new link of `r`. */
  lemma {:induction false} HopsAvoiding(links: Links, r: ReportId, q: ReportId, id: ReportId, n: nat)
    requires !LeadsTo(links, id, r)
    ensures Hops(links[r := q], id, n) == Hops(links, id, n)
    decreases n
  {
    assert Hops(links, id, 0) == Some(id);
    if n > 0 && id in links {
      LeadsOn(links, id, r);
      HopsAvoiding(links, r, q, links[id], n - 1);
    }
  }

  lemma AvoidingKeepsReach(links: Links, r: ReportId, q: ReportId, p: ReportId, target: ReportId)
    requires !LeadsTo(links, p, r)
    ensures LeadsTo(links[r := q], p, target) <==> LeadsTo(links, p, target)
  {
    if LeadsTo(links, p, target) {
      var n: nat :| Hops(links, p, n) == Some(target);
      HopsAvoiding(links, r, q, p, n);
      assert Hops(links[r := q], p, n) == Some(target);
    }
    if LeadsTo(links[r := q], p, target) {
      var n: nat :| Hops(links[r := q], p, n) == Some(target);
      HopsAvoiding(links, r, q, p, n);
      assert Hops(links, p, n) == Some(target);
    }
  }

  lemma {:induction false} OneMoreHop(links: Links, id: ReportId, n: nat, r: ReportId)
    requires Hops(links, id, n) == Some(r) && r in links
    ensures Hops(links, id, n + 1) == Some(links[r])
    decreases n
  {
    if n == 0 {
      assert Hops(links, links[id], 0) == Some(links[id]);
    } else {
      OneMoreHop(links, links[id], n - 1, r);
    }
  }

  lemma ReachedLinkClosesCycle(links: Links, r: ReportId, p: ReportId)
    requires LeadsTo(links, p, r)
    ensures OnCycle(links[r := p], p)
  {
    var n: nat :| Hops(links, p, n) == Some(r);
    var m := HopsWithoutUpdate(links, r, p, p, n);
    OneMoreHop(links[r := p], p, m, r);
  }

  /** A cycle through the primary survives every further link to the primary. */
  lemma CycleStays(links: Links, r: ReportId, p: ReportId)
    requires OnCycle(links, p)
    ensures OnCycle(links[r := p], p)
  {
    if LeadsTo(links, p, r) {
      ReachedLinkClosesCycle(links, r, p);
    } else {
      var n: nat :| n > 0 && Hops(links, p, n) == Some(p);
      HopsAvoiding(links, r, p, p, n);
    }
  }

  lemma CycleIsNoForest(links: Links, p: ReportId)
    requires OnCycle(links, p)
    ensures !Forest(links)
  {
    if Forest(links) {
      var n: nat :| n > 0 && Hops(links, p, n) == Some(p);
      NoCycles(links, p, n);
    }
  }

  function LinkedAll(links: Links, primary: ReportId, dups: seq<ReportId>): Links
    decreases |dups|
  {
    if dups == [] then links else LinkedAll(links[dups[0] := primary], primary, dups[1..])
  }

  lemma {:induction false} CycleStaysForAll(links: Links, primary: ReportId, dups: seq<ReportId>)
    requires OnCycle(links, primary)
    ensures OnCycle(LinkedAll(links, primary, dups), primary)
    decreases |dups|
  {
    if dups != [] {
      CycleStays(links, dups[0], primary);
      CycleStaysForAll(links[dups[0] := primary], primary, dups[1..]);
    }
  }

  /** The primary leads to none of the reports merged into it. */
  ghost predicate ReachesNone(links: Links, primary: ReportId, dups: seq<ReportId>) {
    forall dup :: dup in dups ==> !LeadsTo(links, primary, dup)
  }

  lemma {:induction false} LinkedAllForestIff(links: Links, primary: ReportId, dups: seq<ReportId>)
    requires Forest(links)
    ensures Forest(LinkedAll(links, primary, dups)) <==> ReachesNone(links, primary, dups)
    decreases |dups|
  {
    if dups != [] {
      var first, rest := dups[0], dups[1..];
      if LeadsTo(links, primary, first) {
        ReachedLinkClosesCycle(links, first, primary);
        CycleStaysForAll(links[first := primary], primary, rest);
        CycleIsNoForest(LinkedAll(links, primary, dups), primary);
      } else {
        LinkKeepsForestIff(links, first, primary);
        LinkedAllForestIff(links[first := primary], primary, rest);
        forall dup | dup in rest
          ensures LeadsTo(links[first := primary], primary, dup) <==> LeadsTo(links, primary, dup)
        {
          AvoidingKeepsReach(links, first, primary, primary, dup);
        }
        assert forall dup :: dup in dups <==> dup == first || dup in rest;
      }
    }
  }

  lemma {:induction false} MergedAllLinks(db: Db, primary: ReportId, dups: seq<ReportId>)
    requires MergedAll(db, primary, dups).Ok?
    ensures LinksOf(MergedAll(db, primary, dups).value.reports) == LinkedAll(LinksOf(db.reports), primary, dups)
    decreases |dups|
  {
    if dups != [] {
      MergedOneLinks(db, primary, dups[0]);
      MergedAllLinks(MergedOne(db, primary, dups[0]), primary, dups[1..]);
    }
  }

  /** Main result: a manual merge keeps the forest if and only if following links from the primary
      arrives at none of the reports merged into it. */
  lemma MergeKeepsForestIff(db: Db, primary: ReportId, dups: seq<ReportId>)
    requires Forest(LinksOf(db.reports)) && Merged(db, primary, dups).Ok?
    ensures Forest(LinksOf(Merged(db, primary, dups).value.reports))
       <==> ReachesNone(LinksOf(db.reports), primary, dups)
  {
    MergedAllLinks(db, primary, dups);
    LinkedAllForestIff(LinksOf(db.reports), primary, dups);
  }

  lemma ConfirmedLinks(db: Db, id: ReportId)
    requires MergeConfirmed(db, id).Ok?
    ensures LinksOf(MergeConfirmed(db, id).value.reports) == LinksOf(db.reports)[id := db.reports[id].possible.value]
  {
    var row := db.reports[id];
    var linked := db.reports[id := row.(status := Duplicate, duplicateOf := row.possible, possible := None)];
    assert LinksOf(linked) == LinksOf(db.reports)[id := row.possible.value];
  }

  /** Main result: a confirmation keeps the forest if and only if following links from the possible
      primary does not arrive at the confirmed report. */
  lemma ConfirmKeepsForestIff(db: Db, id: ReportId)
    requires Forest(LinksOf(db.reports)) && MergeConfirmed(db, id).Ok?
    ensures Forest(LinksOf(MergeConfirmed(db, id).value.reports))
       <==> !LeadsTo(LinksOf(db.reports), db.reports[id].possible.value, id)
  {
    ConfirmedLinks(db, id);
    LinkKeepsForestIff(LinksOf(db.reports), id, db.reports[id].possible.value);
  }

  /** The event is a merge or confirmation into a report that leads back to what it links. */
  ghost predicate ClosesCycle(w: World, e: Event) {
    var links := LinksOf(w.db.reports);
    || (e.Merge? && Merged(w.db, e.primary, e.dups).Ok? && !ReachesNone(links, e.primary, e.dups))
    || (e.Confirm? && MergeConfirmed(w.db, e.id).Ok? && LeadsTo(links, w.db.reports[e.id].possible.value, e.id))
  }

  lemma QuietLinks(rs: map<ReportId, Report>, ts: map<ReportId, Report>)
    requires QuietTables(rs, ts)
    ensures LinksOf(ts) == LinksOf(rs)
  {
    forall id | id in ts
      ensures ts[id].duplicateOf == rs[id].duplicateOf
    {
      assert SameLifecycle(rs[id], ts[id]);
    }
  }

  lemma StatusOnlyLinks(rs: map<ReportId, Report>, ts: map<ReportId, Report>, id: ReportId)
    requires OnlyStatusOf(rs, ts, id)
    requires id in rs ==> ts[id].duplicateOf == rs[id].duplicateOf
    ensures LinksOf(ts) == LinksOf(rs)
  {
    forall k | k in ts
      ensures ts[k].duplicateOf == rs[k].duplicateOf
    {
      assert k != id ==> SameLifecycle(rs[k], ts[k]);
    }
  }

  lemma ReviewKeepsLinks(w: World, e: Event)
    requires Possible(w, e) && (e.Score? || e.Transition? || e.RejectPending?)
    ensures LinksOf(Step(w, e).db.reports) == LinksOf(w.db.reports)
  {
    match e
    case Score(id, cs, dist) =>
      ScoredStatus(w.db, id, cs, dist);
      StatusOnlyLinks(w.db.reports, Step(w, e).db.reports, id);
    case Transition(id, target, reason) =>
      if Transitioned(w.db, id, target, reason).Ok? {
        TransitionedStatus(w.db, id, target, reason);
        StatusOnlyLinks(w.db.reports, Step(w, e).db.reports, id);
      }
    case RejectPending(id) =>
      if MergeRejected(w.db, id).Ok? {
        RejectedStatus(w.db, id);
        StatusOnlyLinks(w.db.reports, Step(w, e).db.reports, id);
      }
  }

  lemma OtherStepsKeepLinks(w: World, e: Event)
    requires Possible(w, e) && !e.Merge? && !e.Confirm?
    ensures LinksOf(Step(w, e).db.reports) == LinksOf(w.db.reports)
  {
    if Quiet(e) {
      QuietStep(w, e);
      QuietLinks(w.db.reports, Step(w, e).db.reports);
    } else if e.Submit? {
    } else {
      ReviewKeepsLinks(w, e);
    }
  }

  /** Main result, per event: the links stay a forest if and only if the event is not one of those. */
  lemma ForestStepIff(w: World, e: Event)
    requires Forest(LinksOf(w.db.reports)) && Possible(w, e)
    ensures Forest(LinksOf(Step(w, e).db.reports)) <==> !ClosesCycle(w, e)
  {
    if e.Merge? {
      if Merged(w.db, e.primary, e.dups).Ok? {
        MergeKeepsForestIff(w.db, e.primary, e.dups);
      }
    } else if e.Confirm? {
      if MergeConfirmed(w.db, e.id).Ok? {
        ConfirmKeepsForestIff(w.db, e.id);
      }
    } else {
      OtherStepsKeepLinks(w, e);
    }
  }

  /** What the code asks of no one: the primary of a merge is another report and not a duplicate. */
  predicate MergeIsProper(db: Db, primary: ReportId, dups: seq<ReportId>) {
    primary !in dups && (primary in db.reports ==> !db.reports[primary].status.Duplicate?)
  }

  predicate ConfirmIsProper(db: Db, id: ReportId) {
    id in db.reports && db.reports[id].possible.Some? ==>
      var primary := db.reports[id].possible.value;
      primary != id && (primary in db.reports ==> !db.reports[primary].status.Duplicate?)
  }

  predicate Proper(w: World, e: Event) {
    match e
    case Merge(primary, dups) => MergeIsProper(w.db, primary, dups)
    case Confirm(id) => ConfirmIsProper(w.db, id)
    case _ => true
  }

  /** Only duplicates carry a link. */
  ghost predicate LinkedAreDuplicates(reports: map<ReportId, Report>) {
    forall id :: id in reports && reports[id].duplicateOf.Some? ==> reports[id].status.Duplicate?
  }

  lemma UnlinkedLeadsNowhere(links: Links, p: ReportId, r: ReportId)
    requires p !in links && p != r
    ensures !LeadsTo(links, p, r)
  {
  }

  /** The obligation is enough: a primary that is another report and no duplicate has no link to follow. */
  lemma ProperClosesNoCycle(w: World, e: Event)
    requires LinkedAreDuplicates(w.db.reports) && Proper(w, e)
    ensures !ClosesCycle(w, e)
  {
    var links := LinksOf(w.db.reports);
    if e.Merge? && Merged(w.db, e.primary, e.dups).Ok? {
      forall dup | dup in e.dups
        ensures !LeadsTo(links, e.primary, dup)
      {
        UnlinkedLeadsNowhere(links, e.primary, dup);
      }
    }
    if e.Confirm? && MergeConfirmed(w.db, e.id).Ok? && w.db.reports[e.id].possible.value !in links {
      UnlinkedLeadsNowhere(links, w.db.reports[e.id].possible.value, e.id);
    }
  }

  lemma GoodLinksAreDuplicates(w: World)
    requires StatusRules.Good(w)
    ensures LinkedAreDuplicates(w.db.reports)
  {
    forall id | id in w.db.reports && w.db.reports[id].duplicateOf.Some?
      ensures w.db.reports[id].status.Duplicate?
    {
      assert StatusRules.GoodRow(w.db.reports.Keys, id, w.db.reports[id], w.startTier[id]);
    }
  }

  ghost predicate NoneClosesCycle(w: World, es: seq<Event>)
    decreases |es|
  {
    es == [] || (Possible(w, es[0]) && !ClosesCycle(w, es[0]) && NoneClosesCycle(Step(w, es[0]), es[1..]))
  }

  ghost predicate AllProper(w: World, es: seq<Event>)
    decreases |es|
  {
    es == [] || (Possible(w, es[0]) && Proper(w, es[0]) && AllProper(Step(w, es[0]), es[1..]))
  }

  lemma {:induction false} ProperRunClosesNoCycle(w: World, es: seq<Event>)
    requires StatusRules.Good(w) && AllProper(w, es)
    ensures NoneClosesCycle(w, es)
    decreases |es|
  {
    if es != [] {
      GoodLinksAreDuplicates(w);
      ProperClosesNoCycle(w, es[0]);
      StatusRules.StepGood(w, es[0]);
      ProperRunClosesNoCycle(Step(w, es[0]), es[1..]);
    }
  }

  /** Over any run in which no merge or confirmation closes a cycle the links stay a forest. */
  lemma {:induction false} ForestUnlessClosed(w: World, es: seq<Event>, w': World)
    requires Forest(LinksOf(w.db.reports)) && Reaches(w, es, w') && NoneClosesCycle(w, es)
    ensures Forest(LinksOf(w'.db.reports))
    decreases |es|
  {
    if es != [] {
      ForestStepIff(w, es[0]);
      ForestUnlessClosed(Step(w, es[0]), es[1..], w');
    }
  }

  /** Main result, over runs: when every merge and confirmation names a primary that is another
      report and not currently a duplicate, there is never a cycle, and the chain from any report
      ends at one with no link. */
  lemma LinksFormAForest(w: World, es: seq<Event>, w': World, id: ReportId, n: nat)
    returns (root: ReportId, length: nat)
    requires Initial(w) && Reaches(w, es, w') && AllProper(w, es)
    ensures n > 0 ==> Hops(LinksOf(w'.db.reports), id, n) != Some(id)
    ensures Hops(LinksOf(w'.db.reports), id, length) == Some(root) && root !in LinksOf(w'.db.reports)
  {
    ProperRunClosesNoCycle(w, es);
    assert RankedBy(LinksOf(w.db.reports), map[]);
    ForestUnlessClosed(w, es, w');
    if n > 0 {
      NoCycles(LinksOf(w'.db.reports), id, n);
    }
    root, length := EveryChainEnds(LinksOf(w'.db.reports), id);
  }

  /** Without the obligation the code builds cycles: a report merged into itself. */
  lemma SelfMergeMakesACycle(db: Db, id: ReportId)
    requires id in db.reports
    ensures Merged(db, id, [id]).Ok?
    ensures Hops(LinksOf(Merged(db, id, [id]).value.reports), id, 1) == Some(id)
    ensures !Forest(LinksOf(Merged(db, id, [id]).value.reports))
  {
    assert MergedAll(db, id, [id]) == MergedAll(MergedOne(db, id, id), id, [id][1..]);
    MergedOneLinks(db, id, id);
    var links := LinksOf(Merged(db, id, [id]).value.reports);
    assert links[id] == id;
    assert Hops(links, id, 1) == Hops(links, id, 0);
    if Forest(links) {
      NoCycles(links, id, 1);
    }
  }

  /** Two reports held for review against each other, both confirmed, point at each other. */
  lemma MutualConfirmMakesACycle(db: Db, a: ReportId, b: ReportId)
    requires a in db.reports && b in db.reports && a != b
    requires db.reports[a].status.PendingMergeReview? && db.reports[a].possible == Some(b)
    requires db.reports[b].status.PendingMergeReview? && db.reports[b].possible == Some(a)
    ensures MergeConfirmed(db, a).Ok? && MergeConfirmed(MergeConfirmed(db, a).value, b).Ok?
    ensures Hops(LinksOf(MergeConfirmed(MergeConfirmed(db, a).value, b).value.reports), a, 2) == Some(a)
  {
  }

  // ------------------------------------------------------------------
  // Reaching two reports held against each other
  // ------------------------------------------------------------------

  function SamePlace(a: real, b: real, c: real, d: real): real { 0.0 }

  const TWIN := Submission(Minimal, Some(0.0), Some(0.0), "flood", "residential", None, None, 0, 0)

  const MATCHED := NewReport(TWIN).(building := Some(5), matchConfidence := Some(1.0))

  function HeldAgainst(other: ReportId): Report {
    MATCHED.(status := PendingMergeReview, possible := Some(other), duplicateScore := Some(1.0))
  }

  lemma TwinsScoreOne(x: DS.Facts)
    requires x.building.Some? && x.lat.Some? && x.lng.Some? && x.phash.None?
    ensures DS.Round6(DS.Composite(x, x, SamePlace)) == 1.0
  {
    DS.SumsOfSignals(x, x, SamePlace);
    assert DS.Composite(x, x, SamePlace) == 0.8 / 0.8;
  }

  lemma TwinVerdict(reports: map<ReportId, Report>, id: ReportId, other: ReportId)
    requires id in reports && other in reports && FactsOf(reports[id]) == FactsOf(reports[other]) == FactsOf(MATCHED)
    ensures var v := VerdictFor(reports, id, [other], SamePlace);
      v.0.AutoMerge? && v.1 == 1.0 && v.2.Some? && v.2.value.candidate.id == other
  {
    TwinsScoreOne(FactsOf(MATCHED));
    var s := DS.Scored(FactsOf(reports[id]), Candidates(reports, [other]), SamePlace);
    assert |s| == 1 && s[0].candidate == CandidateOf(reports, other) && s[0].composite == 1.0;
  }

  lemma TwinScored(db: Db, id: ReportId, other: ReportId)
    requires id in db.reports && other in db.reports && id != other
    requires db.reports[id] == MATCHED && FactsOf(db.reports[other]) == FactsOf(MATCHED)
    ensures ReportScored(db, id, [other], SamePlace).reports == db.reports[id := HeldAgainst(other)]
  {
    TwinVerdict(db.reports, id, other);
  }

  lemma TwinMatched(w: World, id: ReportId)
    requires 5 in w.db.buildings && id in w.db.reports && w.db.reports[id] == NewReport(TWIN)
    ensures var db := Step(w, MatchBuilding(id, Matched(5, 1.0))).db;
      db.reports == w.db.reports[id := MATCHED] && 5 in db.buildings
  {
  }

  const TWINS_MATCHED: seq<Event> :=
    [] + [Submit(1, TWIN)] + [Submit(2, TWIN)]
    + [MatchBuilding(1, Matched(5, 1.0))] + [MatchBuilding(2, Matched(5, 1.0))]

  const TWINS_HELD: seq<Event> := TWINS_MATCHED + [Score(1, [2], SamePlace)] + [Score(2, [1], SamePlace)]

  lemma TwinsMatched(w: World) returns (w': World)
    requires w == World(Db(map[], map[5 := NoDamage], []), map[], map[])
    ensures Reaches(w, TWINS_MATCHED, w') && w'.db.reports == map[1 := MATCHED, 2 := MATCHED]
  {
    var e1, e2 := Submit(1, TWIN), Submit(2, TWIN);
    var e3, e4 := MatchBuilding(1, Matched(5, 1.0)), MatchBuilding(2, Matched(5, 1.0));
    var w1 := Step(w, e1);
    var w2 := Step(w1, e2);
    var w3 := Step(w2, e3);
    TwinMatched(w2, 1);
    TwinMatched(w3, 2);
    w' := Step(w3, e4);
    ReachesSnoc(w, [], w, e1);
    ReachesSnoc(w, [] + [e1], w1, e2);
    ReachesSnoc(w, [] + [e1] + [e2], w2, e3);
    ReachesSnoc(w, [] + [e1] + [e2] + [e3], w3, e4);
  }

  lemma TwinsHeld(w: World) returns (w': World)
    requires w == World(Db(map[], map[5 := NoDamage], []), map[], map[])
    ensures Reaches(w, TWINS_HELD, w') && w'.db.reports == map[1 := HeldAgainst(2), 2 := HeldAgainst(1)]
  {
    var w1 := TwinsMatched(w);
    TwinScored(w1.db, 1, 2);
    var w2 := Step(w1, Score(1, [2], SamePlace));
    TwinScored(w2.db, 2, 1);
    w' := Step(w2, Score(2, [1], SamePlace));
    ReachesSnoc(w, TWINS_MATCHED, w1, Score(1, [2], SamePlace));
    ReachesSnoc(w, TWINS_MATCHED + [Score(1, [2], SamePlace)], w2, Score(2, [1], SamePlace));
  }

  /** A whole run that closes a cycle: two alike reports are submitted, matched, scored against each
      other, and both confirmed. */
  lemma MutualConfirmIsReached() returns (w: World, w': World)
    ensures Initial(w) && Reaches(w, TWINS_HELD + [Confirm(1)] + [Confirm(2)], w')
    ensures Hops(LinksOf(w'.db.reports), 1, 2) == Some(1) && !Forest(LinksOf(w'.db.reports))
  {
    w := World(Db(map[], map[5 := NoDamage], []), map[], map[]);
    var held := TwinsHeld(w);
    MutualConfirmMakesACycle(held.db, 1, 2);
    var once := Step(held, Confirm(1));
    ReachesSnoc(w, TWINS_HELD, held, Confirm(1));
    ReachesSnoc(w, TWINS_HELD + [Confirm(1)], once, Confirm(2));
    w' := Step(once, Confirm(2));
    if Forest(LinksOf(w'.db.reports)) {
      NoCycles(LinksOf(w'.db.reports), 1, 2);
    }
  }
}
