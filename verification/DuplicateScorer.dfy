/**
 * The duplicate scorer: a weighted mean of the signals both reports have data for, six-digit
 * rounding, and the thresholds that queue a merge review or flag a report. Arithmetic is exact
 * over the rationals; distance is a parameter, standing for the haversine formula.
 */
module DuplicateScorer {
  import opened Common
  import opened PerceptualHash

  const THRESHOLD_AUTO_MERGE := 0.9
  const THRESHOLD_ANALYST_FLAG := 0.6
  const GPS_DECAY_MAX := 50.0
  const W_BUILDING := 0.4
  const W_GPS := 0.3
  const W_IMAGE := 0.2
  const W_CATEGORY := 0.1

  /** The columns of a report that the scorer reads. */
  datatype Facts = Facts(
    building: Option<BuildingId>, lat: Option<real>, lng: Option<real>,
    phash: Option<string>, crisis: string, infrastructure: string)

  datatype Candidate = Candidate(id: ReportId, facts: Facts)

  type Distance = (real, real, real, real) -> real

  ghost predicate NonNegative(dist: Distance) {
    forall a, b, c, d :: dist(a, b, c, d) >= 0.0
  }

  ghost predicate SymmetricDistance(dist: Distance) {
    forall a, b, c, d :: dist(a, b, c, d) == dist(c, d, a, b)
  }

  lemma NonNegativeAt(dist: Distance, a: real, b: real, c: real, d: real)
    requires NonNegative(dist)
    ensures dist(a, b, c, d) >= 0.0
  {
  }

  lemma SymmetricAt(dist: Distance, a: real, b: real, c: real, d: real)
    requires SymmetricDistance(dist)
    ensures dist(a, b, c, d) == dist(c, d, a, b)
  {
  }

  function BuildingSignal(x: Facts, y: Facts): real {
    if x.building.Some? && y.building.Some? && x.building == y.building then 1.0 else 0.0
  }

  predicate HasBuilding(x: Facts, y: Facts) {
    x.building.Some? && y.building.Some?
  }

  predicate HasGps(x: Facts, y: Facts) {
    x.lat.Some? && x.lng.Some? && y.lat.Some? && y.lng.Some?
  }

  predicate HasImage(x: Facts, y: Facts) {
    !NoHash(x.phash) && !NoHash(y.phash)
  }

  function Apart(x: Facts, y: Facts, dist: Distance): real
    requires HasGps(x, y)
  {
    dist(x.lat.value, x.lng.value, y.lat.value, y.lng.value)
  }

  function GpsSignal(x: Facts, y: Facts, dist: Distance): real {
    if !HasGps(x, y) then 0.0
    else
      var decayed := 1.0 - Apart(x, y, dist) / GPS_DECAY_MAX;
      if decayed > 0.0 then decayed else 0.0
  }

  function CategorySignal(x: Facts, y: Facts): real {
    (if x.crisis == y.crisis then 0.5 else 0.0) + (if x.infrastructure == y.infrastructure then 0.5 else 0.0)
  }

  // ------------------------------------------------------------------
  // Weighted mean of the available signals
  // ------------------------------------------------------------------

  datatype Signal = Signal(weight: real, score: real, available: bool)

  function Part(s: Signal): real {
    if s.available then s.weight else 0.0
  }

  function Contribution(s: Signal): real {
    if s.available then s.weight * s.score else 0.0
  }

  function TotalWeight(s: seq<Signal>): real {
    if s == [] then 0.0 else Part(s[0]) + TotalWeight(s[1..])
  }

  function WeightedScore(s: seq<Signal>): real {
    if s == [] then 0.0 else Contribution(s[0]) + WeightedScore(s[1..])
  }

  function Mean(s: seq<Signal>): real
    requires TotalWeight(s) != 0.0
  {
    WeightedScore(s) / TotalWeight(s)
  }

  predicate InRange(s: seq<Signal>) {
    forall i :: 0 <= i < |s| ==> s[i].weight >= 0.0 && 0.0 <= s[i].score <= 1.0
  }

  lemma ContributionBounds(s: Signal)
    requires s.weight >= 0.0 && 0.0 <= s.score <= 1.0
    ensures 0.0 <= Contribution(s) <= Part(s)
  {
  }

  lemma {:induction false} WeightedScoreBounds(s: seq<Signal>)
    requires InRange(s)
    ensures 0.0 <= WeightedScore(s) <= TotalWeight(s)
  {
    if s != [] {
      assert forall i :: 0 <= i < |s[1..]| ==> s[1..][i] == s[i + 1];
      WeightedScoreBounds(s[1..]);
      ContributionBounds(s[0]);
    }
  }

  lemma {:induction false} SignalConcat(s: seq<Signal>, t: seq<Signal>)
    ensures TotalWeight(s + t) == TotalWeight(s) + TotalWeight(t)
    ensures WeightedScore(s + t) == WeightedScore(s) + WeightedScore(t)
  {
    if s == [] {
      assert s + t == t;
    } else {
      assert (s + t)[1..] == s[1..] + t;
      SignalConcat(s[1..], t);
    }
  }

  lemma Around(before: seq<Signal>, s: Signal, after: seq<Signal>)
    ensures TotalWeight(before + [s] + after) == TotalWeight(before) + TotalWeight(after) + Part(s)
    ensures WeightedScore(before + [s] + after) == WeightedScore(before) + WeightedScore(after) + Contribution(s)
  {
    SignalConcat(before + [s], after);
    SignalConcat(before, [s]);
  }

  /** `to` lies between `from` and `target`. */
  predicate Towards(from: real, target: real, to: real) {
    (target >= from ==> from <= to <= target) && (target <= from ==> target <= to <= from)
  }

  lemma PullTowards(sum: real, weight: real, w: real, x: real)
    requires weight > 0.0 && w > 0.0
    ensures Towards(sum / weight, x, (sum + w * x) / (weight + w))
  {
    var m, m' := sum / weight, (sum + w * x) / (weight + w);
    assert sum == m * weight;
    assert sum + w * x == m' * (weight + w);
    assert (m' - m) * (weight + w) == w * (x - m);
    assert (x - m') * (weight + w) == weight * (x - m);
    if x >= m {
      SignOfFactor(m' - m, weight + w, w, x - m);
      SignOfFactor(x - m', weight + w, weight, x - m);
    } else {
      SignOfFactor(m - m', weight + w, w, m - x);
      SignOfFactor(m' - x, weight + w, weight, m - x);
    }
  }

  lemma MeanPulled(off: seq<Signal>, on: seq<Signal>, w: real, x: real)
    requires TotalWeight(off) > 0.0 && w > 0.0
    requires TotalWeight(on) == TotalWeight(off) + w && WeightedScore(on) == WeightedScore(off) + w * x
    ensures Towards(Mean(off), x, Mean(on))
  {
    PullTowards(WeightedScore(off), TotalWeight(off), w, x);
  }

  function Available(s: Signal, yes: bool): Signal {
    s.(available := yes)
  }

  lemma PartWhenAvailable(s: Signal)
    ensures Part(Available(s, false)) == 0.0 && Contribution(Available(s, false)) == 0.0
    ensures Part(Available(s, true)) == s.weight && Contribution(Available(s, true)) == s.weight * s.score
  {
  }

  /** Two lists of signals that differ in one element. */
  lemma Exchanged(before: seq<Signal>, x: Signal, y: Signal, after: seq<Signal>)
    ensures TotalWeight(before + [y] + after) - Part(y) == TotalWeight(before + [x] + after) - Part(x)
    ensures WeightedScore(before + [y] + after) - Contribution(y)
         == WeightedScore(before + [x] + after) - Contribution(x)
  {
    Around(before, x, after);
    Around(before, y, after);
  }

  /** A signal that one side lacks is neutral: making it available moves the mean towards it and
      never past it. */
  lemma AddingASignalPullsTheMean(before: seq<Signal>, s: Signal, after: seq<Signal>)
    requires s.weight > 0.0 && TotalWeight(before + [Available(s, false)] + after) > 0.0
    ensures TotalWeight(before + [Available(s, true)] + after) > 0.0
    ensures Towards(Mean(before + [Available(s, false)] + after), s.score,
                    Mean(before + [Available(s, true)] + after))
  {
    var off, on := before + [Available(s, false)] + after, before + [Available(s, true)] + after;
    Exchanged(before, Available(s, false), Available(s, true), after);
    PartWhenAvailable(s);
    MeanPulled(off, on, s.weight, s.score);
  }

  lemma SignOfFactor(d: real, t: real, w: real, e: real)
    requires t > 0.0 && w > 0.0 && e >= 0.0 && d * t == w * e
    ensures d >= 0.0
  {
  }

  // ------------------------------------------------------------------
  // Score of a pair
  // ------------------------------------------------------------------

  function Signals(x: Facts, y: Facts, dist: Distance): seq<Signal> {
    [Signal(W_BUILDING, BuildingSignal(x, y), HasBuilding(x, y)),
     Signal(W_GPS, GpsSignal(x, y, dist), HasGps(x, y)),
     Signal(W_IMAGE, ImageSignal(x.phash, y.phash), HasImage(x, y)),
     Signal(W_CATEGORY, CategorySignal(x, y), true)]
  }

  lemma SumsOfSignals(x: Facts, y: Facts, dist: Distance)
    ensures var b, g, i, c := BuildingSignal(x, y), GpsSignal(x, y, dist), ImageSignal(x.phash, y.phash),
                              CategorySignal(x, y);
      && TotalWeight(Signals(x, y, dist))
         == (if HasBuilding(x, y) then 0.4 else 0.0) + (if HasGps(x, y) then 0.3 else 0.0)
          + (if HasImage(x, y) then 0.2 else 0.0) + 0.1
      && WeightedScore(Signals(x, y, dist))
         == (if HasBuilding(x, y) then 0.4 * b else 0.0) + (if HasGps(x, y) then 0.3 * g else 0.0)
          + (if HasImage(x, y) then 0.2 * i else 0.0) + 0.1 * c
  {
    var s := Signals(x, y, dist);
    var s3, s2 := [s[3]], [s[2], s[3]];
    var s1 := [s[1], s[2], s[3]];
    assert s[1..] == s1 && s1[1..] == s2 && s2[1..] == s3;
    assert TotalWeight(s3) == Part(s[3]) && WeightedScore(s3) == Contribution(s[3]);
    assert TotalWeight(s2) == Part(s[2]) + TotalWeight(s3);
    assert WeightedScore(s2) == Contribution(s[2]) + WeightedScore(s3);
    assert TotalWeight(s1) == Part(s[1]) + TotalWeight(s2);
    assert WeightedScore(s1) == Contribution(s[1]) + WeightedScore(s2);
  }

  function Composite(x: Facts, y: Facts, dist: Distance): real {
    SumsOfSignals(x, y, dist);
    if !HasBuilding(x, y) && !HasGps(x, y) then 0.0 else Mean(Signals(x, y, dist))
  }

  lemma SignalsInRange(x: Facts, y: Facts, dist: Distance)
    requires NonNegative(dist)
    ensures InRange(Signals(x, y, dist))
  {
    ImageSignalRange(x.phash, y.phash);
    if HasGps(x, y) {
      NonNegativeAt(dist, x.lat.value, x.lng.value, y.lat.value, y.lng.value);
    }
  }

  lemma RatioInRange(part: real, whole: real)
    requires 0.0 <= part <= whole && whole > 0.0
    ensures 0.0 <= part / whole <= 1.0
  {
  }

  lemma SomeWeight(x: Facts, y: Facts, dist: Distance)
    ensures TotalWeight(Signals(x, y, dist)) > 0.0
  {
    SumsOfSignals(x, y, dist);
  }

  lemma CompositeInRange(x: Facts, y: Facts, dist: Distance)
    requires NonNegative(dist)
    ensures 0.0 <= Composite(x, y, dist) <= 1.0
  {
    var s := Signals(x, y, dist);
    SignalsInRange(x, y, dist);
    WeightedScoreBounds(s);
    SomeWeight(x, y, dist);
    RatioInRange(WeightedScore(s), TotalWeight(s));
  }

  /** Scoring two reports in either order gives the same value when their hashes, if both present,
      have one length. */
  lemma CompositeSymmetric(x: Facts, y: Facts, dist: Distance)
    requires SymmetricDistance(dist)
    requires HasImage(x, y) ==> |x.phash.value| == |y.phash.value|
    ensures Composite(x, y, dist) == Composite(y, x, dist)
  {
    ImageSignalSymmetric(x.phash, y.phash);
    if HasGps(x, y) {
      SymmetricAt(dist, x.lat.value, x.lng.value, y.lat.value, y.lng.value);
    }
    assert Signals(x, y, dist) == Signals(y, x, dist);
  }

  predicate Known(x: Facts, y: Facts) {
    x.building.Some? && y.building.Some?
  }

  predicate Placed(x: Facts, y: Facts) {
    x.lat.Some? && x.lng.Some? && y.lat.Some? && y.lng.Some?
  }

  predicate Pictured(x: Facts, y: Facts) {
    x.phash.Some? && x.phash.value != "" && y.phash.Some? && y.phash.value != ""
  }

  /** How many of crisis type and infrastructure type agree. */
  function Matches(x: Facts, y: Facts): nat {
    if x.crisis == y.crisis && x.infrastructure == y.infrastructure then 2
    else if x.crisis == y.crisis || x.infrastructure == y.infrastructure then 1
    else 0
  }

  /** The points of a pair out of `Whole`: four tenths for the building, three for the distance, two for the
      photo, and half a tenth for each category, of what both reports have data for. */
  function Points(x: Facts, y: Facts, dist: Distance): real {
    (if Known(x, y) && x.building == y.building then 0.4 else 0.0)
    + (if Placed(x, y) && dist(x.lat.value, x.lng.value, y.lat.value, y.lng.value) < 50.0
       then 0.3 - 0.006 * dist(x.lat.value, x.lng.value, y.lat.value, y.lng.value) else 0.0)
    + (if Pictured(x, y) then 0.2 * ImageSignal(x.phash, y.phash) else 0.0)
    + 0.05 * Matches(x, y) as real
  }

  function Whole(x: Facts, y: Facts): real {
    0.1 + (if Known(x, y) then 0.4 else 0.0) + (if Placed(x, y) then 0.3 else 0.0)
    + (if Pictured(x, y) then 0.2 else 0.0)
  }

  lemma GpsPoints(x: Facts, y: Facts, dist: Distance)
    requires HasGps(x, y)
    ensures 0.3 * GpsSignal(x, y, dist)
         == if Apart(x, y, dist) < 50.0 then 0.3 - 0.006 * Apart(x, y, dist) else 0.0
  {
    assert Apart(x, y, dist) / GPS_DECAY_MAX == 0.02 * Apart(x, y, dist);
  }

  /** Main result: the score of a pair in closed form; without building and coordinates on both sides it is
      zero, so that categories and photo alone never make a duplicate. */
  lemma CompositeIsPoints(x: Facts, y: Facts, dist: Distance)
    ensures Whole(x, y) > 0.0
    ensures Composite(x, y, dist) == if Known(x, y) || Placed(x, y) then Points(x, y, dist) / Whole(x, y) else 0.0
  {
    SumsOfSignals(x, y, dist);
    if HasGps(x, y) {
      GpsPoints(x, y, dist);
    }
    assert 0.1 * CategorySignal(x, y) == 0.05 * Matches(x, y) as real;
  }

  lemma SharesDiffer(a: real, b: real, whole: real)
    requires whole > 0.0
    ensures a / whole - b / whole == (a - b) / whole
  {
  }

  /** Either category alone counts as much as the other, and half of what both count. */
  lemma OneCategoryIsHalf(x: Facts, y: Facts, dist: Distance, crisis: string, infrastructure: string)
    requires x.crisis != crisis && x.infrastructure != infrastructure && (Known(x, y) || Placed(x, y))
    ensures var both := Composite(x, y.(crisis := x.crisis, infrastructure := x.infrastructure), dist);
            var first := Composite(x, y.(crisis := x.crisis, infrastructure := infrastructure), dist);
            var second := Composite(x, y.(crisis := crisis, infrastructure := x.infrastructure), dist);
            var none := Composite(x, y.(crisis := crisis, infrastructure := infrastructure), dist);
      first == second && both - first == 0.05 / Whole(x, y) && first - none == 0.05 / Whole(x, y)
  {
    var both := y.(crisis := x.crisis, infrastructure := x.infrastructure);
    var first := y.(crisis := x.crisis, infrastructure := infrastructure);
    var second := y.(crisis := crisis, infrastructure := x.infrastructure);
    var none := y.(crisis := crisis, infrastructure := infrastructure);
    CompositeIsPoints(x, both, dist);
    CompositeIsPoints(x, first, dist);
    CompositeIsPoints(x, second, dist);
    CompositeIsPoints(x, none, dist);
    SharesDiffer(Points(x, both, dist), Points(x, first, dist), Whole(x, y));
    SharesDiffer(Points(x, first, dist), Points(x, none, dist), Whole(x, y));
  }

  // ------------------------------------------------------------------
  // Rounding to six digits, half to even
  // ------------------------------------------------------------------

  function Round6(x: real): real {
    var scaled := x * 1000000.0;
    var low := scaled.Floor;
    var rest := scaled - low as real;
    var rounded := if rest < 0.5 || (rest == 0.5 && low % 2 == 0) then low else low + 1;
    rounded as real / 1000000.0
  }

  lemma RoundingError(x: real)
    ensures x - 0.0000005 <= Round6(x) <= x + 0.0000005
  {
  }

  /** A tie goes to the even neighbour, and a score of six digits stays as it is. */
  lemma RoundHalfToEven(x: real, n: int)
    ensures x * 1000000.0 == n as real + 0.5 ==>
              Round6(x) == (if n % 2 == 0 then n else n + 1) as real / 1000000.0
    ensures x * 1000000.0 == n as real ==> Round6(x) == x
  {
  }

  lemma RoundMonotone(x: real, y: real)
    requires x <= y
    ensures Round6(x) <= Round6(y)
  {
    assert (x * 1000000.0).Floor <= (y * 1000000.0).Floor;
  }

  // ------------------------------------------------------------------
  // Scoring a list of candidates
  // ------------------------------------------------------------------

  datatype ScoredCandidate = ScoredCandidate(candidate: Candidate, composite: real)

  datatype Action = AutoMerge | AnalystFlag | Independent

  datatype DuplicateResult = DuplicateResult(
    action: Action, bestScore: real, best: Option<ScoredCandidate>, all: seq<ScoredCandidate>)

  function PairScore(incoming: Facts, c: Candidate, dist: Distance): real {
    Round6(Composite(incoming, c.facts, dist))
  }

  function Scored(incoming: Facts, candidates: seq<Candidate>, dist: Distance): (s: seq<ScoredCandidate>)
    ensures |s| == |candidates|
  {
    seq(|candidates|, i requires 0 <= i < |candidates| =>
      ScoredCandidate(candidates[i], PairScore(incoming, candidates[i], dist)))
  }

  /** Puts `x` in front of the first entry whose score is not higher. */
  function Insert(x: ScoredCandidate, s: seq<ScoredCandidate>): seq<ScoredCandidate> {
    if s == [] || x.composite >= s[0].composite then [x] + s else [s[0]] + Insert(x, s[1..])
  }

  /** The stable descending sort of the score list. */
  function Sorted(s: seq<ScoredCandidate>): (r: seq<ScoredCandidate>)
    ensures |r| == |s|
  {
    if s == [] then [] else InsertSize(s[0], Sorted(s[1..])); Insert(s[0], Sorted(s[1..]))
  }

  lemma {:induction false} InsertSize(x: ScoredCandidate, s: seq<ScoredCandidate>)
    ensures |Insert(x, s)| == |s| + 1
    ensures multiset(Insert(x, s)) == multiset(s) + multiset{x}
  {
    if s != [] && x.composite < s[0].composite {
      InsertSize(x, s[1..]);
      assert s == [s[0]] + s[1..];
    }
  }

  predicate Descending(s: seq<ScoredCandidate>) {
    forall i, j :: 0 <= i < j < |s| ==> s[i].composite >= s[j].composite
  }

  lemma {:induction false} InsertDescending(x: ScoredCandidate, s: seq<ScoredCandidate>)
    requires Descending(s)
    ensures Descending(Insert(x, s))
    ensures Insert(x, s)[0] == if s == [] || x.composite >= s[0].composite then x else s[0]
  {
    if s != [] && x.composite < s[0].composite {
      InsertDescending(x, s[1..]);
      var r := Insert(x, s[1..]);
      assert forall k :: 0 <= k < |r| ==> r[0].composite >= r[k].composite;
      assert |s| > 1 ==> s[1..][0] == s[1];
    }
  }

  /** Position of the earliest highest score. */
  function BestIndex(s: seq<ScoredCandidate>): (k: nat)
    requires s != []
    ensures k < |s|
    ensures forall i :: 0 <= i < |s| ==> s[i].composite <= s[k].composite
    ensures forall i :: 0 <= i < k ==> s[i].composite < s[k].composite
  {
    if |s| == 1 then 0
    else
      var k := BestIndex(s[1..]);
      if s[0].composite >= s[1..][k].composite then 0 else k + 1
  }

  lemma {:induction false} SortedPermutes(s: seq<ScoredCandidate>)
    ensures multiset(Sorted(s)) == multiset(s)
  {
    if s != [] {
      SortedPermutes(s[1..]);
      InsertSize(s[0], Sorted(s[1..]));
      assert s == [s[0]] + s[1..];
    }
  }

  lemma {:induction false} SortedDescends(s: seq<ScoredCandidate>)
    ensures Descending(Sorted(s))
    ensures |Sorted(s)| == |s| && (s != [] ==> Sorted(s)[0] == s[BestIndex(s)])
  {
    if s != [] {
      SortedDescends(s[1..]);
      InsertSize(s[0], Sorted(s[1..]));
      InsertDescending(s[0], Sorted(s[1..]));
    }
  }

  /** The sort is a permutation in descending order, headed by the earliest best candidate. */
  lemma SortedIsSorted(s: seq<ScoredCandidate>)
    ensures multiset(Sorted(s)) == multiset(s)
    ensures Descending(Sorted(s))
    ensures s != [] ==> Sorted(s) != [] && Sorted(s)[0] == s[BestIndex(s)]
  {
    SortedPermutes(s);
    SortedDescends(s);
  }

  function Decide(incoming: Facts, best: ScoredCandidate): Action {
    var strong := HasBuilding(incoming, best.candidate.facts) && HasGps(incoming, best.candidate.facts);
    if best.composite >= THRESHOLD_AUTO_MERGE && strong then AutoMerge
    else if best.composite >= THRESHOLD_ANALYST_FLAG then AnalystFlag
    else Independent
  }

  /** What scoring decides, without the sorted list. */
  function Verdict(incoming: Facts, candidates: seq<Candidate>, dist: Distance)
    : (Action, real, Option<ScoredCandidate>)
  {
    if candidates == [] then (Independent, 0.0, None)
    else
      var s := Scored(incoming, candidates, dist);
      var best := s[BestIndex(s)];
      var action := Decide(incoming, best);
      (action, best.composite, if action.Independent? then None else Some(best))
  }

  method Score(incoming: Facts, candidates: seq<Candidate>, dist: Distance) returns (r: DuplicateResult)
    ensures (r.action, r.bestScore, r.best) == Verdict(incoming, candidates, dist)
    ensures multiset(r.all) == multiset(Scored(incoming, candidates, dist)) && Descending(r.all)
    ensures r.all != [] ==> r.bestScore == r.all[0].composite
  {
    if candidates == [] {
      assert Scored(incoming, candidates, dist) == [];
      return DuplicateResult(Independent, 0.0, None, []);
    }
    var scored: seq<ScoredCandidate> := [];
    for n := 0 to |candidates|
      invariant scored == Scored(incoming, candidates, dist)[..n]
    {
      var composite := Composite(incoming, candidates[n].facts, dist);
      scored := scored + [ScoredCandidate(candidates[n], Round6(composite))];
    }
    assert scored == Scored(incoming, candidates, dist);
    SortedIsSorted(scored);
    scored := Sorted(scored);
    var best := scored[0];
    var action := Decide(incoming, best);
    r := DuplicateResult(action, best.composite, if action.Independent? then None else Some(best), scored);
  }

  lemma ScoredAt(incoming: Facts, candidates: seq<Candidate>, dist: Distance, i: nat)
    requires i < |candidates|
    ensures Scored(incoming, candidates, dist)[i]
         == ScoredCandidate(candidates[i], PairScore(incoming, candidates[i], dist))
  {
  }

  lemma PairScoreInRange(incoming: Facts, c: Candidate, dist: Distance)
    requires NonNegative(dist)
    ensures 0.0 <= PairScore(incoming, c, dist) <= 1.0
  {
    CompositeInRange(incoming, c.facts, dist);
    RoundMonotone(0.0, Composite(incoming, c.facts, dist));
    RoundMonotone(Composite(incoming, c.facts, dist), 1.0);
  }

  lemma DecideMeaning(incoming: Facts, best: ScoredCandidate)
    ensures Decide(incoming, best).Independent? <==> best.composite < 0.6
    ensures Decide(incoming, best).AutoMerge?
       <==> best.composite >= 0.9 && Known(incoming, best.candidate.facts) && Placed(incoming, best.candidate.facts)
  {
  }

  /** No candidate scores more than the `k`-th, and none before it as much. */
  predicate EarliestBest(incoming: Facts, candidates: seq<Candidate>, dist: Distance, k: nat) {
    && k < |candidates|
    && (forall i :: 0 <= i < |candidates| ==>
          PairScore(incoming, candidates[i], dist) <= PairScore(incoming, candidates[k], dist))
    && (forall i :: 0 <= i < k ==>
          PairScore(incoming, candidates[i], dist) < PairScore(incoming, candidates[k], dist))
  }

  lemma BestIsEarliest(incoming: Facts, candidates: seq<Candidate>, dist: Distance)
    requires candidates != []
    ensures EarliestBest(incoming, candidates, dist, BestIndex(Scored(incoming, candidates, dist)))
  {
    var s := Scored(incoming, candidates, dist);
    forall i | 0 <= i < |candidates|
      ensures s[i].composite == PairScore(incoming, candidates[i], dist)
    {
      ScoredAt(incoming, candidates, dist, i);
    }
  }

  /** Main result: the verdict rests on the earliest of the highest-scoring candidates, scores stay
      in [0, 1], and the thresholds separate the three actions; a merge review also needs building and
      coordinates on both sides. */
  lemma VerdictMeaning(incoming: Facts, candidates: seq<Candidate>, dist: Distance) returns (k: nat)
    requires NonNegative(dist) && candidates != []
    ensures EarliestBest(incoming, candidates, dist, k)
    ensures var (action, score, best) := Verdict(incoming, candidates, dist);
      && 0.0 <= score <= 1.0
      && score == PairScore(incoming, candidates[k], dist)
      && (action.Independent? <==> score < 0.6)
      && (action.AutoMerge? <==>
            score >= 0.9 && Known(incoming, candidates[k].facts) && Placed(incoming, candidates[k].facts))
      && best == if action.Independent? then None else Some(ScoredCandidate(candidates[k], score))
  {
    var s := Scored(incoming, candidates, dist);
    k := BestIndex(s);
    BestIsEarliest(incoming, candidates, dist);
    PairScoreInRange(incoming, candidates[k], dist);
    ScoredAt(incoming, candidates, dist, k);
    DecideMeaning(incoming, s[k]);
  }

  /** A report without candidates is independent, with score zero. */
  lemma NoCandidates(x: Facts, dist: Distance)
    ensures Verdict(x, [], dist).0.Independent? && Verdict(x, [], dist).1 == 0.0 && Verdict(x, [], dist).2.None?
  {
  }

  lemma PairVerdict(x: Facts, c: Candidate, dist: Distance)
    ensures Verdict(x, [c], dist).1 == PairScore(x, c, dist)
    ensures Verdict(x, [c], dist).0 == Decide(x, ScoredCandidate(c, PairScore(x, c, dist)))
  {
    assert Scored(x, [c], dist) == [ScoredCandidate(c, PairScore(x, c, dist))];
  }

  /** A pair at one point on one building, without a pair of photo hashes: agreement in one category of the
      two is enough for a merge review, in neither is not. */
  lemma CategoriesDecide(x: Facts, c: Candidate, dist: Distance)
    requires Known(x, c.facts) && x.building == c.facts.building && !Pictured(x, c.facts)
    requires Placed(x, c.facts) && dist(x.lat.value, x.lng.value, c.facts.lat.value, c.facts.lng.value) == 0.0
    ensures Verdict(x, [c], dist).1
         == if Matches(x, c.facts) == 2 then 1.0 else if Matches(x, c.facts) == 1 then 0.9375 else 0.875
    ensures Verdict(x, [c], dist).0.AutoMerge? <==> Matches(x, c.facts) >= 1
    ensures Verdict(x, [c], dist).0.AnalystFlag? <==> Matches(x, c.facts) == 0
  {
    CompositeIsPoints(x, c.facts, dist);
    PairVerdict(x, c, dist);
    DecideMeaning(x, ScoredCandidate(c, PairScore(x, c, dist)));
    SixDigits();
  }

  lemma SixDigits()
    ensures Round6(1.0) == 1.0 && Round6(0.9375) == 0.9375 && Round6(0.875) == 0.875
  {
  }

  // ------------------------------------------------------------------
  // What a merge review guarantees about the pair
  // ------------------------------------------------------------------

  /** The distance up to which a pair in agreement on all else meets the merge threshold. */
  function MergeDistance(images: bool): real {
    if images then 50.0 / 3.0 else 40.0 / 3.0
  }

  /** Half a unit of the sixth digit of the score, as a distance: divided by the GPS share of the total
      weight and multiplied by the 50 m of the decay. */
  function Slack(images: bool): real {
    if images then 1.0 / 12000.0 else 1.0 / 15000.0
  }

  lemma MergeNeedsGps(x: Facts, y: Facts, dist: Distance)
    requires NonNegative(dist) && HasBuilding(x, y) && HasGps(x, y)
    requires Composite(x, y, dist) >= 0.9 - 0.0000005
    ensures x.building == y.building
    ensures 50.0 * (1.0 - GpsSignal(x, y, dist)) <= MergeDistance(HasImage(x, y)) + Slack(HasImage(x, y))
  {
    SumsOfSignals(x, y, dist);
    SignalsInRange(x, y, dist);
    var s := Signals(x, y, dist);
    var b, g, i, c := s[0].score, s[1].score, s[2].score, s[3].score;
    assert b <= 1.0 && g <= 1.0 && i <= 1.0 && c <= 1.0;
    var t, m := TotalWeight(s), Composite(x, y, dist);
    assert m * t == WeightedScore(s);
    if HasImage(x, y) {
      assert t == 1.0;
      assert m == 0.4 * b + 0.3 * g + 0.2 * i + 0.1 * c;
    } else {
      assert t == 0.8;
      assert 0.8 * m == 0.4 * b + 0.3 * g + 0.1 * c;
    }
  }

  /** Main result: a report queued for merge review shares its building with the chosen primary and
      lies within 50/3 m of it, or 40/3 m when there is no pair of photo hashes. */
  lemma MergeReviewIsClose(incoming: Facts, candidates: seq<Candidate>, dist: Distance)
    requires NonNegative(dist)
    requires Verdict(incoming, candidates, dist).0.AutoMerge?
    ensures Verdict(incoming, candidates, dist).2.Some?
    ensures var primary := Verdict(incoming, candidates, dist).2.value.candidate.facts;
      && incoming.building.Some? && incoming.building == primary.building
      && HasGps(incoming, primary)
      && Apart(incoming, primary, dist)
         <= MergeDistance(HasImage(incoming, primary)) + Slack(HasImage(incoming, primary))
  {
    var s := Scored(incoming, candidates, dist);
    var best := s[BestIndex(s)];
    var primary := best.candidate.facts;
    assert best.composite == Round6(Composite(incoming, primary, dist));
    RoundingError(Composite(incoming, primary, dist));
    MergeNeedsGps(incoming, primary, dist);
    assert Apart(incoming, primary, dist) == 50.0 * (1.0 - (1.0 - Apart(incoming, primary, dist) / 50.0));
  }

  /** Both bounds are sharp: with everything else in agreement the merge threshold is met exactly
      up to that distance. */
  lemma MergeDistanceIsSharp(x: Facts, y: Facts, dist: Distance)
    requires NonNegative(dist) && HasBuilding(x, y) && HasGps(x, y)
    requires x.building == y.building && CategorySignal(x, y) == 1.0
    requires HasImage(x, y) ==> ImageSignal(x.phash, y.phash) == 1.0
    ensures Composite(x, y, dist) >= 0.9
       <==> Apart(x, y, dist) <= MergeDistance(HasImage(x, y))
  {
    SumsOfSignals(x, y, dist);
    var g, d := GpsSignal(x, y, dist), Apart(x, y, dist);
    var s := Signals(x, y, dist);
    assert Composite(x, y, dist) * TotalWeight(s) == WeightedScore(s);
    assert d / GPS_DECAY_MAX == d * 0.02;
    if HasImage(x, y) {
      assert TotalWeight(s) == 1.0 && WeightedScore(s) == 0.7 + 0.3 * g;
    } else {
      assert TotalWeight(s) == 0.8 && WeightedScore(s) == 0.5 + 0.3 * g;
    }
  }
}
