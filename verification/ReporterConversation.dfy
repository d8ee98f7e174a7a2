/**
 * Questions and answers between analysts and the reporter of a report: a request opens a round, the
 * owner's reply closes it, and the next request opens the next.
 */
module ReporterConversation {
  import opened Common
  import opened Reports
  import ReviewPriority

  /** Requests succeed exactly on reports that still wait for a decision. */
  lemma RequestSucceedsIff(db: Db, id: ReportId, emptyMessage: bool, now: Time)
    ensures var r := InfoRequest(db, id, emptyMessage, now);
      && (r.Ok? <==> !emptyMessage && id in db.reports
                     && (db.reports[id].status.Pending? || db.reports[id].status.PendingMergeReview?))
      && (r == Err(NotFound) <==> !emptyMessage && id !in db.reports)
      && (r.Err? ==> r.error.NotFound? || r.error.InvalidValue?)
  {
  }

  /** Someone waits for the reporter's answer. */
  predicate Waits(reports: map<ReportId, Report>, id: ReportId) {
    id in reports && reports[id].requestedAt.Some? && reports[id].respondedAt.None?
  }

  /** Each failing reply has its error; with an open question the owner's text is accepted. */
  lemma ReplyFailsWith(db: Db, id: ReportId, isOwner: bool, emptyText: bool, now: Time)
    ensures var r := FollowupAdded(db, id, isOwner, emptyText, now);
      && (r == Err(NotFound) <==> id !in db.reports)
      && (r == Err(NotOwner) <==> id in db.reports && !isOwner)
      && (r == Err(NoOpenRequest) <==> id in db.reports && isOwner && !Waits(db.reports, id))
      && (r == Err(InvalidValue) <==> isOwner && Waits(db.reports, id) && emptyText)
      && (r.Ok? <==> isOwner && Waits(db.reports, id) && !emptyText)
  {
  }

  /** A successful request is answered once: the owner's reply succeeds, a second one finds no open
      request, and after the next request a reply succeeds again. */
  lemma OneAnswerPerRequest(db: Db, id: ReportId, asked: Time, answered: Time, again: Time, later: Time)
    requires InfoRequest(db, id, false, asked).Ok?
    ensures var db1 := InfoRequest(db, id, false, asked).value;
      && FollowupAdded(db1, id, true, false, answered).Ok?
      && var db2 := FollowupAdded(db1, id, true, false, answered).value;
         && FollowupAdded(db2, id, true, false, again) == Err(NoOpenRequest)
         && InfoRequest(db2, id, false, again).Ok?
         && FollowupAdded(InfoRequest(db2, id, false, again).value, id, true, false, later).Ok?
  {
  }

  /** What the two operations leave alone: every other report, and on the report itself everything but the
      two times and, after a reply, a priority below `high`. */
  lemma ConversationFrame(db: Db, id: ReportId, emptyMessage: bool, isOwner: bool, emptyText: bool, now: Time)
    ensures InfoRequest(db, id, emptyMessage, now).Ok? ==>
              var after := InfoRequest(db, id, emptyMessage, now).value;
              && after.reports == db.reports[id := db.reports[id].(requestedAt := Some(now), respondedAt := None)]
              && after.buildings == db.buildings
    ensures FollowupAdded(db, id, isOwner, emptyText, now).Ok? ==>
              var after := FollowupAdded(db, id, isOwner, emptyText, now).value;
              && id in after.reports && after.buildings == db.buildings
              && after.reports == db.reports[id := after.reports[id]]
              && after.reports[id] == db.reports[id].(respondedAt := Some(now), priority := after.reports[id].priority)
              && (after.reports[id].priority.Critical? <==> db.reports[id].priority.Critical?)
              && (after.reports[id].priority.High? <==> !db.reports[id].priority.Critical?)
  {
  }

  // ------------------------------------------------------------------
  // Over runs
  // ------------------------------------------------------------------

  /** The event is a request on `id` that succeeds. */
  predicate Asks(w: World, e: Event, id: ReportId) {
    && e.AskReporter? && e.id == id && !e.emptyMessage && id in w.db.reports
    && (w.db.reports[id].status.Pending? || w.db.reports[id].status.PendingMergeReview?)
  }

  /** The event is a reply to `id` by its owner, with text. */
  predicate Answers(e: Event, id: ReportId) {
    e.Reply? && e.id == id && e.isOwner && !e.emptyText
  }

  /** Of the run's successful requests and the answers to `id` the last was a request; `open` says how it
      stood before. */
  ghost predicate LastWasRequest(w: World, es: seq<Event>, id: ReportId, open: bool)
    decreases |es|
  {
    if es == [] then open
    else
      Possible(w, es[0])
      && LastWasRequest(Step(w, es[0]), es[1..], id,
                        if Asks(w, es[0], id) then true else if Answers(es[0], id) then false else open)
  }

  lemma StepWaits(w: World, e: Event, id: ReportId)
    requires Possible(w, e)
    ensures Waits(Step(w, e).db.reports, id)
       <==> if Asks(w, e, id) then true else if Answers(e, id) then false else Waits(w.db.reports, id)
  {
    if ReviewPriority.Reviews(e) {
      ReviewPriority.ReviewKeepsPriorities(w, e);
    } else if !e.Submit? && !e.AiRead? && !e.AiWrite? && !e.AskReporter? && !e.Reply? {
      ReviewPriority.PlainStep(w, e);
    }
  }

  lemma {:induction false} RunWaits(w: World, es: seq<Event>, w': World, id: ReportId)
    requires Reaches(w, es, w')
    ensures Waits(w'.db.reports, id) <==> LastWasRequest(w, es, id, Waits(w.db.reports, id))
    decreases |es|
  {
    if es != [] {
      StepWaits(w, es[0], id);
      RunWaits(Step(w, es[0]), es[1..], w', id);
    }
  }

  /** Main result: in every reachable state, whatever came in between, the owner's reply is accepted
      exactly when of the successful requests and the answers so far the last was a request. */
  lemma ReplyAcceptedIff(w: World, es: seq<Event>, w': World, id: ReportId, now: Time)
    requires Initial(w) && Reaches(w, es, w')
    ensures FollowupAdded(w'.db, id, true, false, now).Ok? <==> LastWasRequest(w, es, id, false)
  {
    RunWaits(w, es, w', id);
  }
}
