/**
 * The analyst queue priority: an urgent report stays critical even when the AI worker reads the row
 * long before it writes it; a reply survives every write whose read came after it.
 */
module ReviewPriority {
  import opened Common
  import opened Reports
  import opened RowSteps

  ghost predicate UrgentIsCritical(reports: map<ReportId, Report>) {
    forall id :: id in reports && reports[id].medical == Some(Urgent) ==> reports[id].priority.Critical?
  }

  /** A snapshot's medical answer is still the row's: that column is never written again. */
  ghost predicate SnapshotsAgree(w: World) {
    forall t :: t in w.reading ==>
      w.reading[t].id in w.db.reports && w.db.reports[w.reading[t].id].medical == w.reading[t].snap.medical
  }

  ghost predicate UrgentInv(w: World) {
    UrgentIsCritical(w.db.reports) && SnapshotsAgree(w)
  }

  /** A reply the analyst has not yet superseded. */
  predicate OpenReply(r: Report) {
    r.respondedAt.Some?
  }

  ghost predicate RepliesAreHigh(reports: map<ReportId, Report>) {
    forall id :: id in reports && OpenReply(reports[id]) ==> PriorityRank(reports[id].priority) >= PriorityRank(High)
  }

  /** The floor is applied to the snapshot, whatever the vision result. */
  lemma FloorHolds(snap: AiSnapshot, outcome: AiOutcome)
    ensures snap.medical == Some(Urgent) ==> AiPriority(snap, outcome).Critical?
    ensures snap.respondedAt.Some? ==> PriorityRank(AiPriority(snap, outcome)) >= PriorityRank(High)
  {
  }

  /** The floor never lowers what the AI metrics ask for, and adds no more than the answers do. */
  lemma FloorIsLeast(p: Priority, medical: Option<MedicalHelp>, respondedAt: Option<Time>)
    ensures PriorityRank(ApplyPriorityFloor(p, medical, respondedAt)) >= PriorityRank(p)
    ensures medical != Some(Urgent) && respondedAt.None? ==> ApplyPriorityFloor(p, medical, respondedAt) == p
    ensures medical != Some(Urgent) && respondedAt.Some? && PriorityRank(p) >= 2 ==>
              ApplyPriorityFloor(p, medical, respondedAt) == p
  {
  }

  /** Tables that agree on the queue priority and on what it is computed from. */
  ghost predicate SamePriorities(rs: map<ReportId, Report>, ts: map<ReportId, Report>) {
    && rs.Keys == ts.Keys
    && forall id :: id in rs ==>
         && ts[id].medical == rs[id].medical && ts[id].priority == rs[id].priority
         && ts[id].requestedAt == rs[id].requestedAt && ts[id].respondedAt == rs[id].respondedAt
  }

  lemma StatusKeepsPriorities(rs: map<ReportId, Report>, ts: map<ReportId, Report>, id: ReportId)
    requires OnlyStatusOf(rs, ts, id)
    ensures SamePriorities(rs, ts)
  {
  }

  lemma {:induction false} MergedAllPriorities(db: Db, primary: ReportId, dups: seq<ReportId>)
    ensures MergedAll(db, primary, dups).Ok? ==> SamePriorities(db.reports, MergedAll(db, primary, dups).value.reports)
    decreases |dups|
  {
    if dups != [] && dups[0] in db.reports {
      StatusKeepsPriorities(db.reports, MergedOne(db, primary, dups[0]).reports, dups[0]);
      MergedAllPriorities(MergedOne(db, primary, dups[0]), primary, dups[1..]);
    }
  }

  predicate Reviews(e: Event) {
    e.Score? || e.Transition? || e.Merge? || e.Confirm? || e.RejectPending?
  }

  lemma ReviewKeepsPriorities(w: World, e: Event)
    requires Possible(w, e) && Reviews(e)
    ensures SamePriorities(w.db.reports, Step(w, e).db.reports) && Step(w, e).reading == w.reading
  {
    match e
    case Score(id, cs, dist) =>
      ScoredStatus(w.db, id, cs, dist);
      StatusKeepsPriorities(w.db.reports, Step(w, e).db.reports, id);
    case Transition(id, target, reason) =>
      if Transitioned(w.db, id, target, reason).Ok? {
        TransitionedStatus(w.db, id, target, reason);
        StatusKeepsPriorities(w.db.reports, Step(w, e).db.reports, id);
      }
    case Merge(primary, dups) => MergedAllPriorities(w.db, primary, dups);
    case Confirm(id) =>
      if MergeConfirmed(w.db, id).Ok? {
        ConfirmedStatus(w.db, id);
        StatusKeepsPriorities(w.db.reports, Step(w, e).db.reports, id);
      }
    case RejectPending(id) =>
      if MergeRejected(w.db, id).Ok? {
        RejectedStatus(w.db, id);
        StatusKeepsPriorities(w.db.reports, Step(w, e).db.reports, id);
      }
  }

  /** Events that write neither the priority nor the reply columns. */
  lemma PlainStep(w: World, e: Event)
    requires Possible(w, e)
    requires e.RefusePhoto? || e.AttachPhoto? || e.MatchBuilding? || e.AiHash? || e.ClearKey?
    ensures SamePriorities(w.db.reports, Step(w, e).db.reports) && Step(w, e).reading == w.reading
  {
    match e
    case RefusePhoto(_) =>
    case AttachPhoto(id, isOwner, key) => PlainAttach(w.db, id, isOwner, key);
    case MatchBuilding(id, m) => PlainMatch(w.db, id, m);
    case AiHash(id, phash) => PlainHash(w.db, id, phash);
    case ClearKey(_) =>
  }

  lemma PlainAttach(db: Db, id: ReportId, isOwner: bool, key: PhotoKey)
    ensures PhotoAttached(db, id, isOwner, key).Ok? ==>
              SamePriorities(db.reports, PhotoAttached(db, id, isOwner, key).value.reports)
  {
  }

  lemma PlainMatch(db: Db, id: ReportId, m: GisMatch)
    ensures BuildingMatched(db, id, m).Ok? ==> SamePriorities(db.reports, BuildingMatched(db, id, m).value.reports)
  {
  }

  lemma PlainHash(db: Db, id: ReportId, phash: Option<string>)
    ensures SamePriorities(db.reports, HashStored(db, id, phash).reports)
  {
  }

  lemma AiStepUrgent(w: World, e: Event)
    requires UrgentInv(w) && Possible(w, e) && (e.AiRead? || e.AiWrite?)
    ensures UrgentInv(Step(w, e))
  {
    if e.AiWrite? {
      FloorHolds(w.reading[e.task].snap, e.outcome);
    }
  }

  lemma StepUrgent(w: World, e: Event)
    requires UrgentInv(w) && Possible(w, e)
    ensures UrgentInv(Step(w, e))
  {
    if Reviews(e) {
      ReviewKeepsPriorities(w, e);
    } else if e.AiRead? || e.AiWrite? {
      AiStepUrgent(w, e);
    } else if !e.Submit? && !e.AskReporter? && !e.Reply? {
      PlainStep(w, e);
    }
  }

  lemma {:induction false} RunUrgent(w: World, es: seq<Event>, w': World)
    requires UrgentInv(w) && Reaches(w, es, w')
    ensures UrgentInv(w')
    decreases |es|
  {
    if es != [] {
      StepUrgent(w, es[0]);
      RunUrgent(Step(w, es[0]), es[1..], w');
    }
  }

  /** Main result: a report flagged urgent is `critical` in every reachable state, wherever other
      steps fall between the AI worker's read and its write. */
  lemma UrgentStaysCritical(w: World, es: seq<Event>, w': World, id: ReportId)
    requires Initial(w) && Reaches(w, es, w') && id in w'.db.reports
    requires w'.db.reports[id].medical == Some(Urgent)
    ensures w'.db.reports[id].priority.Critical?
  {
    RunUrgent(w, es, w');
  }

  // ------------------------------------------------------------------
  // Replies
  // ------------------------------------------------------------------

  /** The AI metrics alone ask for less than `high`. */
  predicate AsksBelowHigh(outcome: AiOutcome) {
    match outcome
    case Unusable(quality) => quality >= AI_QUALITY_CRITICAL_THRESHOLD
    case Analysed(quality, confidence, divergence, _) =>
      quality >= AI_QUALITY_CRITICAL_THRESHOLD && confidence >= AI_CONFIDENCE_HIGH_PRIORITY_THRESHOLD && !divergence
    case RetriesExhausted => false
  }

  /** The AI metrics or the urgent answer ask for an analyst at once. */
  predicate NeedsAnalystNow(snap: AiSnapshot, outcome: AiOutcome) {
    snap.medical == Some(Urgent)
    || match outcome
       case Unusable(quality) => quality < 0.3
       case Analysed(quality, confidence, _, _) => quality < 0.3 || confidence < 0.6
       case RetriesExhausted => true
  }

  /** A reply has come in, the AI disagrees with the reporter, or it is not sure. */
  predicate NeedsAnalystSoon(snap: AiSnapshot, outcome: AiOutcome) {
    snap.respondedAt.Some? || (outcome.Analysed? && (outcome.divergence || outcome.confidence < 0.8))
  }

  /** Main result: which of the four priorities an AI write leaves on the row, for every outcome and every
      snapshot; nothing else of the row but photo status and hash changes, and the hash only when the image
      was analysed. */
  lemma WrittenPriorityIff(db: Db, id: ReportId, snap: AiSnapshot, outcome: AiOutcome)
    requires id in db.reports
    ensures id in AiWritten(db, id, snap, outcome).reports
    ensures var before, after := db.reports[id], AiWritten(db, id, snap, outcome).reports[id];
      && (after.priority.Critical? <==> NeedsAnalystNow(snap, outcome))
      && (after.priority.High? <==> !NeedsAnalystNow(snap, outcome) && NeedsAnalystSoon(snap, outcome))
      && (after.priority.Normal? <==>
            !NeedsAnalystNow(snap, outcome) && !NeedsAnalystSoon(snap, outcome) && outcome.Unusable?)
      && (after.priority.Low? <==>
            !NeedsAnalystNow(snap, outcome) && !NeedsAnalystSoon(snap, outcome) && outcome.Analysed?)
      && after == before.(priority := after.priority, photoStatus := after.photoStatus, phash := after.phash)
      && (after.phash == if outcome.Analysed? then outcome.phash else before.phash)
      && (after.photoStatus.Accepted? <==> outcome.Analysed?)
      && (after.photoStatus.InsufficientQuality? <==> outcome.Unusable?)
  {
  }

  /** The write meets a reply that its read did not see, no urgent answer, and metrics that ask for less
      than `high`. */
  predicate BuriesReply(w: World, e: Event) {
    e.AiWrite? && e.task in w.reading && w.reading[e.task].id in w.db.reports
    && w.db.reports[w.reading[e.task].id].respondedAt.Some?
    && w.reading[e.task].snap.respondedAt.None?
    && w.reading[e.task].snap.medical != Some(Urgent)
    && AsksBelowHigh(e.outcome)
  }

  /** What the written priority is below `high` for. */
  lemma BelowHighIff(snap: AiSnapshot, outcome: AiOutcome)
    ensures PriorityRank(AiPriority(snap, outcome)) < PriorityRank(High)
       <==> snap.respondedAt.None? && snap.medical != Some(Urgent) && AsksBelowHigh(outcome)
  {
  }

  /** Main result, per step: replies stay at least `high` if and only if no write buries one. */
  lemma ReplyStepIff(w: World, e: Event)
    requires RepliesAreHigh(w.db.reports) && Possible(w, e)
    ensures RepliesAreHigh(Step(w, e).db.reports) <==> !BuriesReply(w, e)
  {
    if Reviews(e) {
      ReviewKeepsPriorities(w, e);
    } else if e.AiWrite? {
      AiWriteReplies(w, e);
    } else if !e.Submit? && !e.AiRead? && !e.AskReporter? && !e.Reply? {
      PlainStep(w, e);
    }
  }

  lemma AiWriteReplies(w: World, e: Event)
    requires RepliesAreHigh(w.db.reports) && Possible(w, e) && e.AiWrite?
    ensures RepliesAreHigh(Step(w, e).db.reports) <==> !BuriesReply(w, e)
  {
    var id := w.reading[e.task].id;
    var ts := Step(w, e).db.reports;
    BelowHighIff(w.reading[e.task].snap, e.outcome);
    if id in w.db.reports {
      assert ts[id].respondedAt == w.db.reports[id].respondedAt;
      assert ts[id].priority == AiPriority(w.reading[e.task].snap, e.outcome);
    }
  }

  /** No write of the run buries a reply. */
  ghost predicate NoneBuried(w: World, es: seq<Event>)
    decreases |es|
  {
    es == [] || (Possible(w, es[0]) && !BuriesReply(w, es[0]) && NoneBuried(Step(w, es[0]), es[1..]))
  }

  /** Main result, over runs: from any state in which open replies are at least `high`, they stay so as
      long as no write buries one. */
  lemma {:induction false} RepliesStayHighUnlessBuried(w: World, es: seq<Event>, w': World)
    requires RepliesAreHigh(w.db.reports) && Reaches(w, es, w') && NoneBuried(w, es)
    ensures RepliesAreHigh(w'.db.reports)
    decreases |es|
  {
    if es != [] {
      ReplyStepIff(w, es[0]);
      RepliesStayHighUnlessBuried(Step(w, es[0]), es[1..], w');
    }
  }

  // ------------------------------------------------------------------
  // Replies between a read and its write
  // ------------------------------------------------------------------

  /** Of the events about `task` the first is its write, not another read. */
  predicate WritesNext(es: seq<Event>, task: nat) {
    es != [] &&
    if es[0].AiWrite? && es[0].task == task then true
    else if es[0].AiRead? && es[0].task == task then false
    else WritesNext(es[1..], task)
  }

  /** `e` is a reply to the report that `task` has read. */
  predicate AnswersDuring(w: World, e: Event, task: nat) {
    e.Reply? && task in w.reading && w.reading[task].id == e.id
  }

  /** No reply to a report falls between the read and the write of an AI step on it. Everything else
      may: the step's own hash, other steps, replies to other reports. */
  ghost predicate NoReplyDuringAi(w: World, es: seq<Event>)
    decreases |es|
  {
    es == [] ||
    (&& Possible(w, es[0])
     && (forall task: nat :: AnswersDuring(w, es[0], task) ==> !WritesNext(es[1..], task))
     && NoReplyDuringAi(Step(w, es[0]), es[1..]))
  }

  /** Every snapshot that will be written has seen its report's reply. */
  ghost predicate SnapshotsSee(w: World, es: seq<Event>) {
    forall task :: task in w.reading && WritesNext(es, task) ==> SeesReply(w, task)
  }

  predicate SeesReply(w: World, task: nat) {
    task in w.reading &&
    (w.reading[task].id in w.db.reports && w.db.reports[w.reading[task].id].respondedAt.Some? ==>
       w.reading[task].snap.respondedAt.Some?)
  }

  /** A snapshot stays until its task reads again or writes, and nothing but a reply opens one. */
  lemma SnapshotKept(w: World, e: Event, task: nat)
    requires Possible(w, e) && task in Step(w, e).reading && !(e.AiRead? && e.task == task)
    ensures task in w.reading && Step(w, e).reading[task] == w.reading[task]
    ensures !(e.AiWrite? && e.task == task)
    ensures SeesReply(w, task) && !AnswersDuring(w, e, task) ==> SeesReply(Step(w, e), task)
  {
    if Reviews(e) {
      ReviewKeepsPriorities(w, e);
    } else if e.RefusePhoto? || e.AttachPhoto? || e.MatchBuilding? || e.AiHash? || e.ClearKey? {
      PlainStep(w, e);
    }
  }

  lemma StepSees(w: World, es: seq<Event>)
    requires es != [] && Possible(w, es[0]) && SnapshotsSee(w, es)
    requires forall task: nat :: AnswersDuring(w, es[0], task) ==> !WritesNext(es[1..], task)
    ensures SnapshotsSee(Step(w, es[0]), es[1..])
  {
    var e, w' := es[0], Step(w, es[0]);
    forall task | task in w'.reading && WritesNext(es[1..], task)
      ensures SeesReply(w', task)
    {
      if !(e.AiRead? && e.task == task) {
        SnapshotKept(w, e, task);
      }
    }
  }

  lemma {:induction false} QuietAiBuriesNothing(w: World, es: seq<Event>)
    requires NoReplyDuringAi(w, es) && SnapshotsSee(w, es)
    ensures NoneBuried(w, es)
    decreases |es|
  {
    if es != [] {
      StepSees(w, es);
      if es[0].AiWrite? {
        assert WritesNext(es, es[0].task);
        assert SeesReply(w, es[0].task);
      }
      QuietAiBuriesNothing(Step(w, es[0]), es[1..]);
    }
  }

  /** Main result: when no reply to a report falls between the read and the write of an AI step on it, a
      report with an open reply is at least `high` in every reachable state. */
  lemma RepliesStayHigh(w: World, es: seq<Event>, w': World, id: ReportId)
    requires Initial(w) && Reaches(w, es, w') && NoReplyDuringAi(w, es)
    requires id in w'.db.reports && OpenReply(w'.db.reports[id])
    ensures PriorityRank(w'.db.reports[id].priority) >= PriorityRank(High)
  {
    QuietAiBuriesNothing(w, es);
    RepliesStayHighUnlessBuried(w, es, w');
  }

  /** When it is split, a reply arriving in between is sent to the bottom of the queue. */
  lemma SplitWriteBuriesReply(db: Db, id: ReportId, now: Time)
    requires id in db.reports && db.reports[id].medical != Some(Urgent)
    requires db.reports[id].requestedAt.Some? && db.reports[id].respondedAt.None?
    ensures FollowupAdded(db, id, true, false, now).Ok?
    ensures var late := AiWritten(FollowupAdded(db, id, true, false, now).value, id, SnapshotOf(db.reports[id]),
                                  Analysed(0.9, 0.9, false, None));
      late.reports[id].priority.Low? && OpenReply(late.reports[id])
  {
  }
}
