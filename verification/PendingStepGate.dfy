/**
 * The pending-step gate of one report: a Redis counter seeded when the GIS and AI
 * jobs are queued, decremented by each worker at its terminal outcome, deleted by
 * the worker that finds it spent, which then sends `score_report`.
 *
 * Every Redis command and every message is its own atomic step, so a run is any
 * interleaving of the workers, of re-seeding, and of the faults listed in `Action`.
 */
module PendingStepGate {
  import opened Common

  datatype Stage = Gis | Ai

  const MAX_RETRIES: nat := 3

  type Attempt = k: nat | k <= MAX_RETRIES

  /** Where one scheduled step stands. `Marking` is the point at which the worker has
      reached a terminal outcome and is about to execute DECR. */
  datatype Phase =
    | Unpublished
    | Queued(retries: Attempt)
    | Running(attempt: Attempt)
    | Marking
    | Decided(remaining: int)
    | Deleted
    | Finished

  datatype Job = Job(stage: Stage, phase: Phase)

  /** What the pipeline has written to the report row. */
  datatype Row = Row(pending: bool, gisDone: bool, hasPhoto: bool, aiDone: bool, scored: bool)

  /** History kept for specification: nothing in the pipeline reads it. */
  datatype Event = MarkDone | ScoreSent | Scored | MarkLost | SendLost

  datatype Pipe = Pipe(gate: Option<int>, jobs: seq<Job>, scores: nat, row: Row, log: seq<Event>)

  datatype Action =
    // the seeding route or sweep
    | Seed(stages: seq<Stage>)
    | Publish(i: nat)
    | Redispatch
    // a worker; an attempt may commit its columns and still raise afterwards
    | Start(i: nat)
    | Retry(i: nat, wrote: bool)
    | Finish(i: nat, wrote: bool)
    | Mark(i: nat)
    | Return(i: nat)
    | Delete(i: nat)
    | Send(i: nat)
    // the scorer consumes one message; `merge` says it queued the report for merge review
    | Score(merge: bool)
    // environment: TTL expiry or flush, redelivery after a crash, double delivery
    | Expire
    | Redeliver(i: nat, k: Attempt)
    | Duplicate(i: nat, k: Attempt)
    // losses: a swallowed Redis or broker error, a scoring that fails for good
    | LosePublish(i: nat)
    | LoseMark(i: nat)
    | LoseDelete(i: nat)
    | LoseSend(i: nat)
    | LoseScore

  predicate Enabled(p: Pipe, a: Action) {
    match a
    case Seed(stages) => stages != []
    case Publish(i) => i < |p.jobs| && p.jobs[i].phase.Unpublished?
    case Redispatch => true
    case Start(i) => i < |p.jobs| && p.jobs[i].phase.Queued?
    case Retry(i, _) => i < |p.jobs| && p.jobs[i].phase.Running? && p.jobs[i].phase.attempt < MAX_RETRIES
    case Finish(i, _) => i < |p.jobs| && p.jobs[i].phase.Running?
    case Mark(i) => i < |p.jobs| && p.jobs[i].phase.Marking?
    case Return(i) => i < |p.jobs| && p.jobs[i].phase.Decided? && p.jobs[i].phase.remaining > 0
    case Delete(i) => i < |p.jobs| && p.jobs[i].phase.Decided? && p.jobs[i].phase.remaining <= 0
    case Send(i) => i < |p.jobs| && p.jobs[i].phase.Deleted?
    case Score(_) => p.scores > 0
    case Expire => true
    case Redeliver(i, _) => i < |p.jobs| && !p.jobs[i].phase.Unpublished?
    case Duplicate(i, _) => i < |p.jobs| && !p.jobs[i].phase.Unpublished?
    case LosePublish(i) => i < |p.jobs| && p.jobs[i].phase.Unpublished?
    case LoseMark(i) => i < |p.jobs| && p.jobs[i].phase.Marking?
    case LoseDelete(i) => i < |p.jobs| && p.jobs[i].phase.Decided? && p.jobs[i].phase.remaining <= 0
    case LoseSend(i) => i < |p.jobs| && p.jobs[i].phase.Deleted?
    case LoseScore => p.scores > 0
  }

  function Move(p: Pipe, i: nat, phase: Phase): Pipe
    requires i < |p.jobs|
  {
    p.(jobs := p.jobs[i := p.jobs[i].(phase := phase)])
  }

  function Log(p: Pipe, e: Event): Pipe {
    p.(log := p.log + [e])
  }

  function Fresh(stages: seq<Stage>): (jobs: seq<Job>)
    ensures |jobs| == |stages|
  {
    seq(|stages|, i requires 0 <= i < |stages| => Job(stages[i], Unpublished))
  }

  function Written(row: Row, stage: Stage): Row {
    if stage.Gis? then row.(gisDone := true) else row.(aiDone := true)
  }

  /** Redis DECR: a missing key counts as zero. */
  function Decr(gate: Option<int>): int {
    if gate.Some? then gate.value - 1 else -1
  }

  function Next(p: Pipe, a: Action): Pipe
    requires Enabled(p, a)
  {
    match a
    case Seed(stages) => p.(gate := Some(|stages|), jobs := p.jobs + Fresh(stages))
    case Publish(i) => Move(p, i, Queued(0))
    case Redispatch => p.(scores := p.scores + 1)
    case Start(i) => Move(p, i, Running(p.jobs[i].phase.retries))
    case Retry(i, wrote) =>
      Move(if wrote then p.(row := Written(p.row, p.jobs[i].stage)) else p, i, Queued(p.jobs[i].phase.attempt + 1))
    case Finish(i, wrote) =>
      Move(if wrote then p.(row := Written(p.row, p.jobs[i].stage)) else p, i, Marking)
    case Mark(i) =>
      Log(Move(p, i, Decided(Decr(p.gate))).(gate := Some(Decr(p.gate))), MarkDone)
    case Return(i) => Move(p, i, Finished)
    case Delete(i) => Move(p, i, Deleted).(gate := None)
    case Send(i) => Log(Move(p, i, Finished).(scores := p.scores + 1), ScoreSent)
    case Score(merge) =>
      var row := if p.row.pending then p.row.(scored := true, pending := !merge) else p.row;
      Log(p.(scores := p.scores - 1, row := row), Scored)
    case Expire => p.(gate := None)
    case Redeliver(i, k) => Move(p, i, Queued(k))
    case Duplicate(i, k) => p.(jobs := p.jobs + [Job(p.jobs[i].stage, Queued(k))])
    case LosePublish(i) => Log(Move(p, i, Finished), MarkLost)
    case LoseMark(i) => Log(Move(p, i, Finished), MarkLost)
    case LoseDelete(i) => Log(Move(p, i, Finished), SendLost)
    case LoseSend(i) => Log(Move(p, i, Finished), SendLost)
    case LoseScore => p.(scores := p.scores - 1)
  }

  /** `q` is reached from `p` by executing `acts` in order. */
  ghost predicate Reaches(p: Pipe, acts: seq<Action>, q: Pipe)
    decreases |acts|
  {
    if acts == [] then p == q
    else Enabled(p, acts[0]) && Reaches(Next(p, acts[0]), acts[1..], q)
  }

  predicate Reliable(a: Action) {
    !(a.LosePublish? || a.LoseMark? || a.LoseDelete? || a.LoseSend? || a.LoseScore?)
  }

  ghost predicate AllReliable(acts: seq<Action>) {
    forall k :: 0 <= k < |acts| ==> Reliable(acts[k])
  }

  /** Neither crash, double delivery, expiry, flush nor re-seeding; losses are still possible. */
  predicate Undisturbed(a: Action) {
    !(a.Seed? || a.Redispatch? || a.Expire? || a.Redeliver? || a.Duplicate?)
  }

  ghost predicate AllUndisturbed(acts: seq<Action>) {
    forall k :: 0 <= k < |acts| ==> Undisturbed(acts[k])
  }

  predicate FaultFree(a: Action) {
    Reliable(a) && Undisturbed(a)
  }

  // ------------------------------------------------------------------
  // Counting
  // ------------------------------------------------------------------

  /** A scheduled step whose marker has not executed. */
  function UnmarkedWeight(j: Job): nat {
    if j.phase.Unpublished? || j.phase.Queued? || j.phase.Running? || j.phase.Marking? then 1 else 0
  }

  /** A worker that has found the gate spent and not yet sent `score_report`. */
  function OwingWeight(j: Job): nat {
    if j.phase.Deleted? || (j.phase.Decided? && j.phase.remaining <= 0) then 1 else 0
  }

  function Unmarked(p: Pipe): nat { Total(p.jobs, UnmarkedWeight) }

  function Owing(p: Pipe): nat { Total(p.jobs, OwingWeight) }

  function IsSend(e: Event): nat { if e.ScoreSent? then 1 else 0 }

  function IsMarkLost(e: Event): nat { if e.MarkLost? then 1 else 0 }

  function IsSendLost(e: Event): nat { if e.SendLost? then 1 else 0 }

  function Sends(p: Pipe): nat { Total(p.log, IsSend) }

  function LostMarks(p: Pipe): nat { Total(p.log, IsMarkLost) }

  function LostSends(p: Pipe): nat { Total(p.log, IsSendLost) }

  ghost predicate Quiescent(p: Pipe) {
    p.scores == 0 && forall i :: 0 <= i < |p.jobs| ==> p.jobs[i].phase.Finished?
  }

  lemma MoveCounts(p: Pipe, i: nat, phase: Phase, w: Job -> nat)
    requires i < |p.jobs|
    ensures Total(Move(p, i, phase).jobs, w) + w(p.jobs[i])
         == Total(p.jobs, w) + w(p.jobs[i].(phase := phase))
    ensures w(p.jobs[i]) <= Total(p.jobs, w)
  {
    TotalUpdate(p.jobs, i, p.jobs[i].(phase := phase), w);
  }

  lemma {:induction false} FreshCounts(stages: seq<Stage>)
    ensures Total(Fresh(stages), UnmarkedWeight) == |stages|
    ensures Total(Fresh(stages), OwingWeight) == 0
  {
    if stages != [] {
      assert Fresh(stages)[1..] == Fresh(stages[1..]);
      FreshCounts(stages[1..]);
    }
  }

  lemma LogCounts(log: seq<Event>, e: Event)
    ensures Total(log + [e], IsSend) == Total(log, IsSend) + IsSend(e)
    ensures Total(log + [e], IsMarkLost) == Total(log, IsMarkLost) + IsMarkLost(e)
    ensures Total(log + [e], IsSendLost) == Total(log, IsSendLost) + IsSendLost(e)
  {
    TotalConcat(log, [e], IsSend);
    TotalConcat(log, [e], IsMarkLost);
    TotalConcat(log, [e], IsSendLost);
  }

  /** How one action changes the number of unmarked steps. */
  predicate UnmarkedRecounted(p: Pipe, a: Action, q: Pipe) {
    match a
    case Seed(stages) => Unmarked(q) == Unmarked(p) + |stages|
    case Mark(_) => Unmarked(q) == Unmarked(p) - 1
    case LosePublish(_) => Unmarked(q) == Unmarked(p) - 1
    case LoseMark(_) => Unmarked(q) == Unmarked(p) - 1
    case Redeliver(_, _) => Unmarked(q) >= Unmarked(p) && Unmarked(q) >= 1
    case Duplicate(_, _) => Unmarked(q) == Unmarked(p) + 1
    case _ => Unmarked(q) == Unmarked(p)
  }

  /** How it changes the number of workers that owe a dispatch. */
  predicate OwingRecounted(p: Pipe, a: Action, q: Pipe) {
    match a
    case Mark(_) => Owing(q) == Owing(p) + (if Decr(p.gate) <= 0 then 1 else 0)
    case Send(_) => Owing(q) == Owing(p) - 1
    case LoseDelete(_) => Owing(q) == Owing(p) - 1
    case LoseSend(_) => Owing(q) == Owing(p) - 1
    case Redeliver(_, _) => true
    case _ => Owing(q) == Owing(p)
  }

  /** The phase an action moves its job to. */
  function PhaseAfter(p: Pipe, a: Action): (r: Option<(nat, Phase)>)
    requires Enabled(p, a)
  {
    match a
    case Publish(i) => Some((i, Queued(0)))
    case Start(i) => Some((i, Running(p.jobs[i].phase.retries)))
    case Retry(i, _) => Some((i, Queued(p.jobs[i].phase.attempt + 1)))
    case Finish(i, _) => Some((i, Marking))
    case Mark(i) => Some((i, Decided(Decr(p.gate))))
    case Return(i) => Some((i, Finished))
    case Delete(i) => Some((i, Deleted))
    case Send(i) => Some((i, Finished))
    case Redeliver(i, k) => Some((i, Queued(k)))
    case LosePublish(i) => Some((i, Finished))
    case LoseMark(i) => Some((i, Finished))
    case LoseDelete(i) => Some((i, Finished))
    case LoseSend(i) => Some((i, Finished))
    case _ => None
  }

  lemma MovesJob(p: Pipe, a: Action)
    requires Enabled(p, a) && PhaseAfter(p, a).Some?
    ensures var (i, phase) := PhaseAfter(p, a).value;
      i < |p.jobs| && Next(p, a).jobs == Move(p, i, phase).jobs
  {
  }

  lemma StepTotal(p: Pipe, a: Action, w: Job -> nat)
    requires Enabled(p, a) && PhaseAfter(p, a).Some?
    ensures var (i, phase) := PhaseAfter(p, a).value;
      && i < |p.jobs|
      && Total(Next(p, a).jobs, w) + w(p.jobs[i]) == Total(p.jobs, w) + w(p.jobs[i].(phase := phase))
      && w(p.jobs[i]) <= Total(p.jobs, w) && w(p.jobs[i].(phase := phase)) <= Total(Next(p, a).jobs, w)
  {
    MovesJob(p, a);
    var (i, phase) := PhaseAfter(p, a).value;
    MoveCounts(p, i, phase, w);
  }

  lemma AddsJobs(p: Pipe, a: Action)
    requires Enabled(p, a) && (a.Seed? || a.Duplicate?)
    ensures UnmarkedRecounted(p, a, Next(p, a)) && OwingRecounted(p, a, Next(p, a))
  {
    match a
    case Seed(stages) =>
      FreshCounts(stages);
      TotalConcat(p.jobs, Fresh(stages), UnmarkedWeight);
      TotalConcat(p.jobs, Fresh(stages), OwingWeight);
    case Duplicate(i, k) =>
      var j := Job(p.jobs[i].stage, Queued(k));
      TotalConcat(p.jobs, [j], UnmarkedWeight);
      TotalConcat(p.jobs, [j], OwingWeight);
      assert Total([j], UnmarkedWeight) == 1 && Total([j], OwingWeight) == 0;
  }

  lemma StepCounts(p: Pipe, a: Action)
    requires Enabled(p, a)
    ensures UnmarkedRecounted(p, a, Next(p, a)) && OwingRecounted(p, a, Next(p, a))
  {
    if a.Seed? || a.Duplicate? {
      AddsJobs(p, a);
    } else if PhaseAfter(p, a).Some? {
      StepTotal(p, a, UnmarkedWeight);
      StepTotal(p, a, OwingWeight);
    }
  }

  /** What an action adds to the history. */
  function Noted(a: Action): seq<Event> {
    match a
    case Mark(_) => [MarkDone]
    case Send(_) => [ScoreSent]
    case Score(_) => [Scored]
    case LosePublish(_) => [MarkLost]
    case LoseMark(_) => [MarkLost]
    case LoseDelete(_) => [SendLost]
    case LoseSend(_) => [SendLost]
    case _ => []
  }

  lemma StepNotes(p: Pipe, a: Action)
    requires Enabled(p, a)
    ensures Next(p, a).log == p.log + Noted(a)
  {
  }

  lemma StepLog(p: Pipe, a: Action)
    requires Enabled(p, a)
    ensures Sends(Next(p, a)) == Sends(p) + (if a.Send? then 1 else 0)
    ensures LostMarks(Next(p, a)) == LostMarks(p) + (if a.LosePublish? || a.LoseMark? then 1 else 0)
    ensures LostSends(Next(p, a)) == LostSends(p) + (if a.LoseDelete? || a.LoseSend? then 1 else 0)
  {
    StepNotes(p, a);
    if Noted(a) == [] {
      assert p.log + [] == p.log;
    } else {
      assert Noted(a) == [Noted(a)[0]];
      LogCounts(p.log, Noted(a)[0]);
    }
  }

  // ------------------------------------------------------------------
  // Safety under every interleaving without losses
  // ------------------------------------------------------------------

  /** A present gate never exceeds the number of scheduled steps not yet marked. */
  ghost predicate GateBounded(p: Pipe) {
    p.gate.Some? ==> p.gate.value <= Unmarked(p)
  }

  /** Every marker executed so far is followed by a `score_report` message. */
  predicate SentSinceLastMark(log: seq<Event>) {
    |log| == 0
    || log[|log| - 1].ScoreSent?
    || (!log[|log| - 1].MarkDone? && SentSinceLastMark(log[..|log| - 1]))
  }

  /** Every marker executed so far is followed by a completed scoring. */
  predicate ScoredSinceLastMark(log: seq<Event>) {
    |log| == 0
    || log[|log| - 1].Scored?
    || (!log[|log| - 1].MarkDone? && ScoredSinceLastMark(log[..|log| - 1]))
  }

  ghost predicate SafeInv(p: Pipe) {
    && GateBounded(p)
    && (Unmarked(p) == 0 && !SentSinceLastMark(p.log) ==> Owing(p) > 0)
    && (p.scores == 0 && SentSinceLastMark(p.log) ==> ScoredSinceLastMark(p.log))
  }

  function Idle(row: Row): Pipe {
    Pipe(None, [], 0, row, [])
  }

  lemma LogAppend(log: seq<Event>, e: Event)
    ensures SentSinceLastMark(log + [e])
       <==> e.ScoreSent? || (!e.MarkDone? && SentSinceLastMark(log))
    ensures ScoredSinceLastMark(log + [e])
       <==> e.Scored? || (!e.MarkDone? && ScoredSinceLastMark(log))
  {
  }

  lemma SafeStep(p: Pipe, a: Action)
    requires SafeInv(p) && Enabled(p, a) && Reliable(a)
    ensures SafeInv(Next(p, a))
  {
    StepCounts(p, a);
    match a
    case Mark(i) => LogAppend(p.log, MarkDone);
    case Send(i) => LogAppend(p.log, ScoreSent);
    case Score(_) => LogAppend(p.log, Scored);
    case _ =>
  }

  lemma {:induction false} SafeRun(p: Pipe, acts: seq<Action>, q: Pipe)
    requires SafeInv(p) && AllReliable(acts) && Reaches(p, acts, q)
    ensures SafeInv(q)
    decreases |acts|
  {
    if acts != [] {
      assert Reliable(acts[0]);
      SafeStep(p, acts[0]);
      forall k | 0 <= k < |acts[1..]|
        ensures Reliable(acts[1..][k])
      {
        assert acts[1..][k] == acts[k + 1];
      }
      SafeRun(Next(p, acts[0]), acts[1..], q);
    }
  }

  /** Main result: whatever the interleaving of DECR, DELETE, expiry, flush, redelivery
      and re-seeding, the gate stays within the outstanding steps. */
  lemma GateNeverExceedsOutstanding(row: Row, acts: seq<Action>, q: Pipe)
    requires AllReliable(acts) && Reaches(Idle(row), acts, q)
    ensures q.gate.Some? ==> q.gate.value <= Unmarked(q)
  {
    SafeRun(Idle(row), acts, q);
  }

  /** So the marker of the last outstanding step always finds the gate spent. */
  lemma LastMarkerDispatches(row: Row, acts: seq<Action>, q: Pipe, i: nat)
    requires AllReliable(acts) && Reaches(Idle(row), acts, q)
    requires Enabled(q, Mark(i)) && Unmarked(q) == 1
    ensures Enabled(Next(q, Mark(i)), Delete(i))
    ensures !Enabled(Next(q, Mark(i)), Return(i))
  {
    SafeRun(Idle(row), acts, q);
  }

  lemma QuiescentCounts(p: Pipe)
    requires forall i :: 0 <= i < |p.jobs| ==> p.jobs[i].phase.Finished?
    ensures Unmarked(p) == 0 && Owing(p) == 0
  {
    TotalZero(p.jobs, UnmarkedWeight);
    TotalZero(p.jobs, OwingWeight);
  }

  /** Main result: when the workers and the scorer have stopped, a `score_report` was sent, and a scoring
      completed, after the last marker: scoring has seen every terminal step. */
  lemma QuiescentRunIsScored(row: Row, acts: seq<Action>, q: Pipe)
    requires AllReliable(acts) && Reaches(Idle(row), acts, q) && Quiescent(q)
    ensures SentSinceLastMark(q.log) && ScoredSinceLastMark(q.log)
  {
    SafeRun(Idle(row), acts, q);
    QuiescentCounts(q);
  }

  /** What the two predicates say, by position in the log. */
  lemma {:induction false} SinceLastMarkMeaning(log: seq<Event>, i: nat)
    requires i < |log| && log[i].MarkDone?
    ensures SentSinceLastMark(log) ==> exists j :: i < j < |log| && log[j].ScoreSent?
    ensures ScoredSinceLastMark(log) ==> exists j :: i < j < |log| && log[j].Scored?
    decreases |log|
  {
    var last := |log| - 1;
    if i < last {
      SinceLastMarkMeaning(log[..last], i);
      if j :| i < j < |log[..last]| && log[..last][j].ScoreSent? {
        assert log[j].ScoreSent?;
      }
      if j :| i < j < |log[..last]| && log[..last][j].Scored? {
        assert log[j].Scored?;
      }
    }
  }

  // ------------------------------------------------------------------
  // Runs without crash, expiry, flush or re-seeding
  // ------------------------------------------------------------------

  ghost predicate CleanInv(p: Pipe) {
    var open := Unmarked(p) + LostMarks(p);
    if open > 0
    then p.gate == Some(open) && Owing(p) == 0 && Sends(p) == 0 && LostSends(p) == 0
    else Owing(p) + Sends(p) + LostSends(p) == 1
  }

  lemma CleanStep(p: Pipe, a: Action)
    requires CleanInv(p) && Enabled(p, a) && Undisturbed(a)
    ensures CleanInv(Next(p, a))
  {
    StepCounts(p, a);
    StepLog(p, a);
    if a.Delete? {
      TotalUpdate(p.jobs, a.i, p.jobs[a.i], OwingWeight);
    }
  }

  lemma {:induction false} CleanRun(p: Pipe, acts: seq<Action>, q: Pipe)
    requires CleanInv(p) && AllUndisturbed(acts) && Reaches(p, acts, q)
    ensures CleanInv(q)
    decreases |acts|
  {
    if acts != [] {
      assert Undisturbed(acts[0]);
      CleanStep(p, acts[0]);
      forall k | 0 <= k < |acts[1..]|
        ensures Undisturbed(acts[1..][k])
      {
        assert acts[1..][k] == acts[k + 1];
      }
      CleanRun(Next(p, acts[0]), acts[1..], q);
    }
  }

  lemma SeededIsClean(row: Row, stages: seq<Stage>)
    requires stages != []
    ensures CleanInv(Next(Idle(row), Seed(stages)))
    ensures Unmarked(Next(Idle(row), Seed(stages))) == |stages|
  {
    StepCounts(Idle(row), Seed(stages));
  }

  /** Main result: after one seeding, at most one `score_report` is ever sent, never before
      every scheduled step has reached its marker, whatever the finishing order and however
      many transient retries each step took. */
  lemma AtMostOnceAndNotEarly(row: Row, stages: seq<Stage>, acts: seq<Action>, q: Pipe)
    requires stages != [] && AllUndisturbed(acts)
    requires Reaches(Next(Idle(row), Seed(stages)), acts, q)
    ensures Sends(q) <= 1
    ensures Sends(q) == 1 ==> Unmarked(q) == 0 && LostMarks(q) == 0
  {
    SeededIsClean(row, stages);
    CleanRun(Next(Idle(row), Seed(stages)), acts, q);
  }

  /** Once the workers have stopped, scoring was dispatched exactly once if and only if no
      marker, job or dispatch was lost; otherwise not at all. */
  lemma ExactlyOnceIffNothingLost(row: Row, stages: seq<Stage>, acts: seq<Action>, q: Pipe)
    requires stages != [] && AllUndisturbed(acts) && Quiescent(q)
    requires Reaches(Next(Idle(row), Seed(stages)), acts, q)
    ensures Sends(q) == (if LostMarks(q) == 0 && LostSends(q) == 0 then 1 else 0)
  {
    SeededIsClean(row, stages);
    CleanRun(Next(Idle(row), Seed(stages)), acts, q);
    QuiescentCounts(q);
  }

  // ------------------------------------------------------------------
  // How many dispatches follow an expiry or a reseed
  // ------------------------------------------------------------------

  /** How many markers it takes until one finds the gate spent. */
  function Level(gate: Option<int>): nat {
    if gate.Some? && gate.value > 1 then gate.value else 1
  }

  /** How many of the outstanding markers will find the gate spent. */
  function Due(p: Pipe): nat {
    if Unmarked(p) < Level(p.gate) then 0 else Unmarked(p) - Level(p.gate) + 1
  }

  /** No worker stands between a spent DECR and its DELETE while the gate is above 1: that DELETE would
      remove a gate seeded for other steps. */
  ghost predicate NoStaleDelete(p: Pipe) {
    Level(p.gate) > 1 ==> forall i :: 0 <= i < |p.jobs| ==> !Enabled(p, Delete(i))
  }

  /** Undisturbed, and neither a job nor a marker is lost. */
  predicate Marks(a: Action) {
    Undisturbed(a) && !a.LosePublish? && !a.LoseMark?
  }

  ghost predicate AllMark(acts: seq<Action>) {
    forall k :: 0 <= k < |acts| ==> Marks(acts[k])
  }

  /** Dispatches made, lost or owed so far. */
  function Dispatches(p: Pipe): nat { Sends(p) + LostSends(p) + Owing(p) }

  lemma StepDispatches(p: Pipe, a: Action)
    requires Enabled(p, a) && Marks(a)
    ensures Dispatches(Next(p, a)) == Dispatches(p) + (if a.Mark? && Decr(p.gate) <= 0 then 1 else 0)
  {
    StepCounts(p, a);
    StepLog(p, a);
  }

  /** A step never lowers the dispatches made and due, nor raises those made and possible; without a
      stale DELETE the first sum stays what it is. */
  lemma DueStep(p: Pipe, a: Action)
    requires Enabled(p, a) && Marks(a)
    ensures var q := Next(p, a);
      && Dispatches(p) + Due(p) <= Dispatches(q) + Due(q)
      && Dispatches(q) + Unmarked(q) <= Dispatches(p) + Unmarked(p)
    ensures NoStaleDelete(p) ==> Dispatches(Next(p, a)) + Due(Next(p, a)) == Dispatches(p) + Due(p)
  {
    StepDispatches(p, a);
    StepCounts(p, a);
  }

  lemma NoStaleDeleteStep(p: Pipe, a: Action)
    requires NoStaleDelete(p) && Enabled(p, a) && Marks(a)
    ensures NoStaleDelete(Next(p, a))
  {
  }

  lemma {:induction false} DueRun(p: Pipe, acts: seq<Action>, q: Pipe)
    requires AllMark(acts) && Reaches(p, acts, q)
    ensures Dispatches(p) + Due(p) <= Dispatches(q) + Due(q)
    ensures Dispatches(q) + Unmarked(q) <= Dispatches(p) + Unmarked(p)
    ensures NoStaleDelete(p) ==> Dispatches(q) + Due(q) == Dispatches(p) + Due(p)
    decreases |acts|
  {
    if acts != [] {
      assert Marks(acts[0]);
      DueStep(p, acts[0]);
      if NoStaleDelete(p) {
        NoStaleDeleteStep(p, acts[0]);
      }
      forall k | 0 <= k < |acts[1..]|
        ensures Marks(acts[1..][k])
      {
        assert acts[1..][k] == acts[k + 1];
      }
      DueRun(Next(p, acts[0]), acts[1..], q);
    }
  }

  /** Main result: from any state, a run to rest that loses no marker makes or loses exactly the
      dispatches owed and due; with a stale DELETE about, at least those, and never more than one for
      each worker that owes one or has yet to mark. */
  lemma DispatchesToRest(p: Pipe, acts: seq<Action>, q: Pipe)
    requires AllMark(acts) && Reaches(p, acts, q) && Quiescent(q)
    ensures NoStaleDelete(p) ==> Sends(q) + LostSends(q) == Sends(p) + LostSends(p) + Owing(p) + Due(p)
    ensures Sends(p) + LostSends(p) + Owing(p) + Due(p) <= Sends(q) + LostSends(q)
    ensures Sends(q) + LostSends(q) <= Sends(p) + LostSends(p) + Owing(p) + Unmarked(p)
  {
    DueRun(p, acts, q);
    QuiescentCounts(q);
  }

  ghost predicate AllFaultFree(acts: seq<Action>) {
    forall k :: 0 <= k < |acts| ==> FaultFree(acts[k])
  }

  lemma {:induction false} FaultFreeLosesNothing(p: Pipe, acts: seq<Action>, q: Pipe)
    requires AllFaultFree(acts) && Reaches(p, acts, q)
    ensures LostSends(q) == LostSends(p) && LostMarks(q) == LostMarks(p)
    decreases |acts|
  {
    if acts != [] {
      var a := acts[0];
      assert FaultFree(a);
      StepLog(p, a);
      forall k | 0 <= k < |acts[1..]|
        ensures FaultFree(acts[1..][k])
      {
        assert acts[1..][k] == acts[k + 1];
      }
      FaultFreeLosesNothing(Next(p, a), acts[1..], q);
    }
  }

  /** The same for a run without faults: its dispatches are all sent. */
  lemma SendsToRest(p: Pipe, acts: seq<Action>, q: Pipe)
    requires AllFaultFree(acts) && Reaches(p, acts, q) && Quiescent(q)
    ensures NoStaleDelete(p) ==> Sends(q) == Sends(p) + Owing(p) + Due(p)
    ensures Sends(p) + Owing(p) + Due(p) <= Sends(q) <= Sends(p) + Owing(p) + Unmarked(p)
  {
    assert forall k :: 0 <= k < |acts| ==> FaultFree(acts[k]) ==> Marks(acts[k]);
    DispatchesToRest(p, acts, q);
    FaultFreeLosesNothing(p, acts, q);
  }

  /** A lost gate makes every outstanding step dispatch, besides the workers that owe a dispatch already. */
  lemma ExpiryDispatches(p: Pipe, acts: seq<Action>, q: Pipe)
    requires AllFaultFree(acts) && Reaches(Next(p, Expire), acts, q) && Quiescent(q)
    ensures Sends(q) == Sends(p) + Owing(p) + Unmarked(p)
  {
    StepCounts(p, Expire);
    SendsToRest(Next(p, Expire), acts, q);
  }

  /** Main result: a report seeded once whose gate is then lost is dispatched once for each step that was
      still outstanding, so exactly once if and only if at most one was. */
  lemma ExactlyOnceDespiteExpiryIff(row: Row, stages: seq<Stage>, acts: seq<Action>, p: Pipe,
                                    more: seq<Action>, q: Pipe)
    requires stages != [] && AllFaultFree(acts) && Reaches(Next(Idle(row), Seed(stages)), acts, p)
    requires AllFaultFree(more) && Reaches(Next(p, Expire), more, q) && Quiescent(q)
    ensures Sends(q) == if Unmarked(p) == 0 then 1 else Unmarked(p)
    ensures Sends(q) == 1 <==> Unmarked(p) <= 1
  {
    assert forall k :: 0 <= k < |acts| ==> FaultFree(acts[k]) ==> Undisturbed(acts[k]);
    SeededIsClean(row, stages);
    CleanRun(Next(Idle(row), Seed(stages)), acts, p);
    FaultFreeLosesNothing(Next(Idle(row), Seed(stages)), acts, p);
    ExpiryDispatches(p, more, q);
  }

  /** Main result: a reseed adds one dispatch to those owed and to the steps still outstanding, however
      many steps it seeds for; if it meets a stale DELETE, at least that and at most one per step. It
      gives exactly one more if and only if every earlier step has marked and nothing is owed. */
  lemma ReseedDispatches(p: Pipe, stages: seq<Stage>, acts: seq<Action>, q: Pipe)
    requires stages != [] && AllFaultFree(acts) && Reaches(Next(p, Seed(stages)), acts, q) && Quiescent(q)
    ensures NoStaleDelete(Next(p, Seed(stages))) ==> Sends(q) == Sends(p) + Owing(p) + Unmarked(p) + 1
    ensures Sends(p) + Owing(p) + Unmarked(p) + 1 <= Sends(q) <= Sends(p) + Owing(p) + Unmarked(p) + |stages|
    ensures Sends(q) == Sends(p) + 1 <==> Owing(p) == 0 && Unmarked(p) == 0
  {
    var s := Next(p, Seed(stages));
    StepCounts(p, Seed(stages));
    SendsToRest(s, acts, q);
    TotalZero(s.jobs, OwingWeight);
  }

  /** A reseed to a single step, as the photo route makes it, meets no stale DELETE. */
  lemma SingleReseedDispatches(p: Pipe, stage: Stage, acts: seq<Action>, q: Pipe)
    requires AllFaultFree(acts) && Reaches(Next(p, Seed([stage])), acts, q) && Quiescent(q)
    ensures Sends(q) == Sends(p) + Owing(p) + Unmarked(p) + 1
  {
    ReseedDispatches(p, [stage], acts, q);
  }

  // ------------------------------------------------------------------
  // Termination and progress
  // ------------------------------------------------------------------

  function Effort(j: Job): nat {
    match j.phase
    case Unpublished => 14
    case Queued(k) => 13 - 2 * k
    case Running(k) => 12 - 2 * k
    case Marking => 5
    case Decided(_) => 4
    case Deleted => 3
    case Finished => 0
  }

  function Measure(p: Pipe): nat { Total(p.jobs, Effort) + p.scores }

  /** Every step of the workers and the scorer brings the report closer to rest. */
  lemma EveryStepMakesProgress(p: Pipe, a: Action)
    requires Enabled(p, a) && Undisturbed(a)
    ensures Measure(Next(p, a)) < Measure(p)
  {
    if PhaseAfter(p, a).Some? {
      StepTotal(p, a, Effort);
    }
  }

  /** No undisturbed run is longer than the measure of its first state. */
  lemma {:induction false} RunsAreBounded(p: Pipe, acts: seq<Action>, q: Pipe)
    requires AllUndisturbed(acts) && Reaches(p, acts, q)
    ensures |acts| + Measure(q) <= Measure(p)
    decreases |acts|
  {
    if acts != [] {
      assert Undisturbed(acts[0]);
      EveryStepMakesProgress(p, acts[0]);
      forall k | 0 <= k < |acts[1..]|
        ensures Undisturbed(acts[1..][k])
      {
        assert acts[1..][k] == acts[k + 1];
      }
      RunsAreBounded(Next(p, acts[0]), acts[1..], q);
    }
  }

  /** The step a job, or the scorer, takes next when nothing goes wrong. */
  function NextAction(p: Pipe, i: nat): (a: Action)
    requires i < |p.jobs| && !p.jobs[i].phase.Finished?
    ensures Enabled(p, a) && FaultFree(a)
    ensures a.Finish? ==> a.wrote == (p.jobs[a.i].stage.Gis? || p.row.hasPhoto)
  {
    match p.jobs[i].phase
    case Unpublished => Publish(i)
    case Queued(_) => Start(i)
    case Running(_) => Finish(i, p.jobs[i].stage.Gis? || p.row.hasPhoto)
    case Marking => Mark(i)
    case Decided(r) => if r <= 0 then Delete(i) else Return(i)
    case Deleted => Send(i)
  }

  /** The protocol never blocks: a report at rest is exactly one where no fault-free step is
      possible. */
  lemma StuckOnlyAtRest(p: Pipe)
    ensures Quiescent(p) <==> !exists a :: Enabled(p, a) && FaultFree(a)
  {
    if p.scores > 0 {
      assert Enabled(p, Score(false)) && FaultFree(Score(false));
    } else if i :| 0 <= i < |p.jobs| && !p.jobs[i].phase.Finished? {
      var a := NextAction(p, i);
      assert Enabled(p, a) && FaultFree(a);
    }
  }

  // ------------------------------------------------------------------
  // What losses and expiry do: concrete runs
  // ------------------------------------------------------------------

  lemma {:induction false} Extend(p: Pipe, acts: seq<Action>, q: Pipe, a: Action)
    requires Reaches(p, acts, q) && Enabled(q, a)
    ensures Reaches(p, acts + [a], Next(q, a))
    decreases |acts|
  {
    if acts == [] {
      assert Reaches(Next(p, a), [], Next(q, a));
    } else {
      Extend(Next(p, acts[0]), acts[1..], q, a);
      assert (acts + [a])[1..] == acts[1..] + [a];
    }
  }

  /** One swallowed Redis error at a marker strands the report: the worker stops, the gate
      stays seeded, and nothing was sent. */
  lemma LostMarkerStrandsReport(row: Row) returns (acts: seq<Action>, q: Pipe)
    ensures Reaches(Next(Idle(row), Seed([Gis])), acts, q)
    ensures AllUndisturbed(acts) && Quiescent(q) && Sends(q) == 0 && q.gate == Some(1)
  {
    var p := Next(Idle(row), Seed([Gis]));
    assert p.jobs == [Job(Gis, Unpublished)];
    acts, q := [], p;
    Extend(p, acts, q, Publish(0));
    acts, q := acts + [Publish(0)], Next(q, Publish(0));
    Extend(p, acts, q, Start(0));
    acts, q := acts + [Start(0)], Next(q, Start(0));
    Extend(p, acts, q, Finish(0, true));
    acts, q := acts + [Finish(0, true)], Next(q, Finish(0, true));
    Extend(p, acts, q, LoseMark(0));
    acts, q := acts + [LoseMark(0)], Next(q, LoseMark(0));
    LogCounts([], MarkLost);
    assert q.log == [] + [MarkLost];
  }

  /** Expiry before two markers makes both dispatch, the first of them early. */
  lemma ExpiryDispatchesTwice(p: Pipe, i: nat, k: nat) returns (q: Pipe)
    requires i < |p.jobs| && k < |p.jobs| && i != k
    requires p.jobs[i].phase.Marking? && p.jobs[k].phase.Marking?
    ensures Reaches(p, [Expire, Mark(i), Delete(i), Send(i), Mark(k), Delete(k), Send(k)], q)
    ensures Sends(q) == Sends(p) + 2 && q.scores == p.scores + 2
    ensures q.jobs == p.jobs[i := p.jobs[i].(phase := Finished)][k := p.jobs[k].(phase := Finished)]
  {
    var p1 := Next(p, Expire);
    var p2 := DispatchBy(p1, i);
    q := DispatchBy(p2, k);
    JoinRuns(p1, [Mark(i), Delete(i), Send(i)], p2, [Mark(k), Delete(k), Send(k)], q);
    assert [Mark(i), Delete(i), Send(i)] + [Mark(k), Delete(k), Send(k)]
        == [Expire, Mark(i), Delete(i), Send(i), Mark(k), Delete(k), Send(k)][1..];
  }

  /** A marker that finds no gate dispatches. */
  lemma DispatchBy(p: Pipe, i: nat) returns (q: Pipe)
    requires i < |p.jobs| && p.jobs[i].phase.Marking? && p.gate.None?
    ensures Reaches(p, [Mark(i), Delete(i), Send(i)], q)
    ensures q.gate.None? && q.jobs == p.jobs[i := p.jobs[i].(phase := Finished)]
    ensures Sends(q) == Sends(p) + 1 && q.scores == p.scores + 1
  {
    Extend(p, [], p, Mark(i));
    var p1 := Next(p, Mark(i));
    assert [] + [Mark(i)] == [Mark(i)];
    Extend(p, [Mark(i)], p1, Delete(i));
    var p2 := Next(p1, Delete(i));
    assert [Mark(i)] + [Delete(i)] == [Mark(i), Delete(i)];
    Extend(p, [Mark(i), Delete(i)], p2, Send(i));
    q := Next(p2, Send(i));
    assert [Mark(i), Delete(i)] + [Send(i)] == [Mark(i), Delete(i), Send(i)];
    LogCounts(p.log, MarkDone);
    LogCounts(p.log + [MarkDone], ScoreSent);
  }

  /** A job that is published, started and finished at its first attempt. */
  lemma BringToMarker(p: Pipe, i: nat) returns (q: Pipe)
    requires i < |p.jobs| && p.jobs[i].phase.Unpublished?
    ensures Reaches(p, [Publish(i), Start(i), Finish(i, true)], q)
    ensures q.jobs == p.jobs[i := p.jobs[i].(phase := Marking)]
    ensures q.gate == p.gate && q.scores == p.scores && q.log == p.log
  {
    Extend(p, [], p, Publish(i));
    var p1 := Next(p, Publish(i));
    assert [] + [Publish(i)] == [Publish(i)];
    Extend(p, [Publish(i)], p1, Start(i));
    var p2 := Next(p1, Start(i));
    assert [Publish(i)] + [Start(i)] == [Publish(i), Start(i)];
    Extend(p, [Publish(i), Start(i)], p2, Finish(i, true));
    q := Next(p2, Finish(i, true));
    assert [Publish(i), Start(i)] + [Finish(i, true)] == [Publish(i), Start(i), Finish(i, true)];
  }

  lemma ScoreBoth(p: Pipe) returns (q: Pipe)
    requires p.scores == 2
    ensures Reaches(p, [Score(false), Score(false)], q)
    ensures q.scores == 0 && q.jobs == p.jobs && Sends(q) == Sends(p)
  {
    Extend(p, [], p, Score(false));
    var p1 := Next(p, Score(false));
    assert [] + [Score(false)] == [Score(false)];
    Extend(p, [Score(false)], p1, Score(false));
    q := Next(p1, Score(false));
    assert [Score(false)] + [Score(false)] == [Score(false), Score(false)];
    LogCounts(p.log, Scored);
    LogCounts(p1.log, Scored);
  }

  lemma JoinReliableRuns(p: Pipe, acts: seq<Action>, q: Pipe, more: seq<Action>, r: Pipe)
    requires Reaches(p, acts, q) && Reaches(q, more, r) && AllReliable(acts) && AllReliable(more)
    ensures Reaches(p, acts + more, r) && AllReliable(acts + more)
  {
    JoinRuns(p, acts, q, more, r);
  }

  lemma BothAtTheirMarkers(row: Row) returns (acts: seq<Action>, q: Pipe)
    ensures Reaches(Next(Idle(row), Seed([Gis, Ai])), acts, q) && AllReliable(acts)
    ensures q.jobs == [Job(Gis, Marking), Job(Ai, Marking)] && q.scores == 0 && q.log == []
  {
    var p := Next(Idle(row), Seed([Gis, Ai]));
    assert p.jobs == [Job(Gis, Unpublished), Job(Ai, Unpublished)];
    var p1 := BringToMarker(p, 0);
    q := BringToMarker(p1, 1);
    JoinReliableRuns(p, [Publish(0), Start(0), Finish(0, true)], p1, [Publish(1), Start(1), Finish(1, true)], q);
    acts := [Publish(0), Start(0), Finish(0, true)] + [Publish(1), Start(1), Finish(1, true)];
  }

  lemma BothMarkAndScore(p: Pipe) returns (acts: seq<Action>, q: Pipe)
    requires p.jobs == [Job(Gis, Marking), Job(Ai, Marking)] && p.scores == 0 && p.log == []
    ensures Reaches(p, acts, q) && AllReliable(acts) && Quiescent(q) && Sends(q) == 2
  {
    acts := [Expire, Mark(0), Delete(0), Send(0), Mark(1), Delete(1), Send(1)];
    var p1 := ExpiryDispatchesTwice(p, 0, 1);
    q := ScoreBoth(p1);
    JoinReliableRuns(p, acts, p1, [Score(false), Score(false)], q);
    acts := acts + [Score(false), Score(false)];
  }

  /** Such a state is reached: one seeding of two steps, and an expiry before their markers. */
  lemma DoubleDispatchIsReached(row: Row) returns (acts: seq<Action>, q: Pipe)
    ensures Reaches(Next(Idle(row), Seed([Gis, Ai])), acts, q)
    ensures AllReliable(acts) && Quiescent(q) && Sends(q) == 2
  {
    var start, p := BothAtTheirMarkers(row);
    var more;
    more, q := BothMarkAndScore(p);
    JoinReliableRuns(Next(Idle(row), Seed([Gis, Ai])), start, p, more, q);
    acts := start + more;
  }

  lemma {:induction false} JoinRuns(p: Pipe, acts: seq<Action>, q: Pipe, more: seq<Action>, r: Pipe)
    requires Reaches(p, acts, q) && Reaches(q, more, r)
    ensures Reaches(p, acts + more, r)
    decreases |acts|
  {
    if acts == [] {
      assert [] + more == more;
    } else {
      JoinRuns(Next(p, acts[0]), acts[1..], q, more, r);
      assert (acts + more)[1..] == acts[1..] + more;
    }
  }
}
