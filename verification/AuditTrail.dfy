/** The audit log is a faithful history: replaying a report's status rows gives its live status. */
module AuditTrail {
  import opened Common
  import opened Reports
  import DS = DuplicateScorer

  datatype StatusRow = StatusRow(before: Option<Status>, after: Status)

  /** The rows of `id` that carry a status, oldest first. */
  function StatusRows(audit: seq<AuditRow>, id: ReportId): seq<StatusRow> {
    if audit == [] then []
    else
      var row := audit[|audit| - 1];
      StatusRows(audit[..|audit| - 1], id)
      + (if row.record == id && row.after.Some? then [StatusRow(row.before, row.after.value)] else [])
  }

  /** Replays the rows from "no such report"; fails at a row whose before-status is not the status
      reached so far. */
  function Replay(rows: seq<StatusRow>): Result<Option<Status>, ()> {
    if rows == [] then Ok(None)
    else
      var row := rows[|rows| - 1];
      if Replay(rows[..|rows| - 1]) == Ok(row.before) then Ok(Some(row.after)) else Err(())
  }

  function StatusOf(reports: map<ReportId, Report>, id: ReportId): Option<Status> {
    if id in reports then Some(reports[id].status) else None
  }

  ghost predicate FaithfulFor(db: Db, id: ReportId) {
    var rows := StatusRows(db.audit, id);
    && Replay(rows) == Ok(StatusOf(db.reports, id))
    && (rows != [] ==> rows[0] == StatusRow(None, Pending))
  }

  ghost predicate Faithful(db: Db) {
    forall id :: FaithfulFor(db, id)
  }

  /** The new reports differ in status exactly as the appended row says. */
  ghost predicate Recorded(db: Db, row: AuditRow, reports: map<ReportId, Report>) {
    && (forall id :: StatusOf(reports, id)
          == if id == row.record && row.after.Some? then row.after else StatusOf(db.reports, id))
    && (row.after.Some? ==> row.before == StatusOf(db.reports, row.record))
    && (row.after.Some? && row.before.None? ==> row.after == Some(Pending))
  }

  lemma RecordedKeeps(db: Db, row: AuditRow, db': Db)
    requires Faithful(db) && Recorded(db, row, db'.reports) && db'.audit == db.audit + [row]
    ensures Faithful(db')
  {
    forall id
      ensures FaithfulFor(db', id)
    {
      assert FaithfulFor(db, id);
      if row.record == id && row.after.Some? {
      } else {
        assert StatusRows(db.audit, id) + [] == StatusRows(db.audit, id);
      }
    }
  }

  lemma SilentKeeps(db: Db, db': Db)
    requires Faithful(db) && db'.audit == db.audit
    requires forall id :: StatusOf(db'.reports, id) == StatusOf(db.reports, id)
    ensures Faithful(db')
  {
    forall id
      ensures FaithfulFor(db', id)
    {
      assert FaithfulFor(db, id);
    }
  }

  lemma {:induction false} MergedAllFaithful(db: Db, primary: ReportId, dups: seq<ReportId>)
    requires Faithful(db)
    ensures MergedAll(db, primary, dups).Ok? ==> Faithful(MergedAll(db, primary, dups).value)
    decreases |dups|
  {
    if dups != [] && dups[0] in db.reports {
      var row := AuditRow(ManualMerge, dups[0], Some(db.reports[dups[0]].status), Some(Duplicate));
      RecordedKeeps(db, row, MergedOne(db, primary, dups[0]));
      MergedAllFaithful(MergedOne(db, primary, dups[0]), primary, dups[1..]);
    }
  }

  lemma ScoredFaithful(db: Db, id: ReportId, cs: seq<ReportId>, dist: DS.Distance)
    requires Faithful(db) && CandidateList(db.reports, id, cs)
    ensures Faithful(ReportScored(db, id, cs, dist))
  {
    var db' := ReportScored(db, id, cs, dist);
    if db' != db {
      RecordedKeeps(db, db'.audit[|db.audit|], db');
    }
  }

  /** An operation that fails, or appends one row that records its status change. */
  ghost predicate RecordsItself(db: Db, r: Result<Db, Error>) {
    r.Ok? ==>
      && |r.value.audit| == |db.audit| + 1
      && r.value.audit[..|db.audit|] == db.audit
      && Recorded(db, r.value.audit[|db.audit|], r.value.reports)
  }

  lemma RecordsItselfFaithful(db: Db, r: Result<Db, Error>)
    requires Faithful(db) && RecordsItself(db, r)
    ensures r.Ok? ==> Faithful(r.value)
  {
    if r.Ok? {
      assert r.value.audit == db.audit + [r.value.audit[|db.audit|]];
      RecordedKeeps(db, r.value.audit[|db.audit|], r.value);
    }
  }

  lemma ReporterStepFaithful(w: World, e: Event)
    requires Faithful(w.db) && Possible(w, e)
    requires e.Submit? || e.RefusePhoto? || e.AttachPhoto? || e.Reply?
    ensures Faithful(Step(w, e).db)
  {
    match e
    case Submit(id, s) => RecordsItselfFaithful(w.db, Created(w.db, id, s));
    case RefusePhoto(record) => RecordsItselfFaithful(w.db, Ok(ModerationRefused(w.db, record)));
    case AttachPhoto(id, isOwner, key) => RecordsItselfFaithful(w.db, PhotoAttached(w.db, id, isOwner, key));
    case Reply(id, isOwner, emptyText, now) =>
      RecordsItselfFaithful(w.db, FollowupAdded(w.db, id, isOwner, emptyText, now));
  }

  lemma AnalystStepFaithful(w: World, e: Event)
    requires Faithful(w.db) && Possible(w, e)
    requires e.Transition? || e.Merge? || e.Confirm? || e.RejectPending? || e.AskReporter?
    ensures Faithful(Step(w, e).db)
  {
    match e
    case Transition(id, target, reason) => RecordsItselfFaithful(w.db, Transitioned(w.db, id, target, reason));
    case Merge(primary, dups) => MergedAllFaithful(w.db, primary, dups);
    case Confirm(id) => RecordsItselfFaithful(w.db, MergeConfirmed(w.db, id));
    case RejectPending(id) => RecordsItselfFaithful(w.db, MergeRejected(w.db, id));
    case AskReporter(id, emptyMessage, now) =>
      RecordsItselfFaithful(w.db, InfoRequest(w.db, id, emptyMessage, now));
  }

  lemma StepFaithful(w: World, e: Event)
    requires Faithful(w.db) && Possible(w, e)
    ensures Faithful(Step(w, e).db)
  {
    match e
    case Score(id, cs, dist) => ScoredFaithful(w.db, id, cs, dist);
    case MatchBuilding(_, _) => SilentKeeps(w.db, Step(w, e).db);
    case AiRead(_, _) =>
    case AiHash(_, _) => SilentKeeps(w.db, Step(w, e).db);
    case AiWrite(_, _) => SilentKeeps(w.db, Step(w, e).db);
    case ClearKey(_) => SilentKeeps(w.db, Step(w, e).db);
    case Submit(_, _) => ReporterStepFaithful(w, e);
    case RefusePhoto(_) => ReporterStepFaithful(w, e);
    case AttachPhoto(_, _, _) => ReporterStepFaithful(w, e);
    case Reply(_, _, _, _) => ReporterStepFaithful(w, e);
    case _ => AnalystStepFaithful(w, e);
  }

  lemma {:induction false} RunFaithful(w: World, es: seq<Event>, w': World)
    requires Faithful(w.db) && Reaches(w, es, w')
    ensures Faithful(w'.db)
    decreases |es|
  {
    if es != [] {
      StepFaithful(w, es[0]);
      RunFaithful(Step(w, es[0]), es[1..], w');
    }
  }

  /** Main result: in every reachable state the status rows of each report start at `pending` and
      replay, without a gap, to the report's current status. */
  lemma AuditReplaysToLiveState(w: World, es: seq<Event>, w': World, id: ReportId)
    requires Initial(w) && Reaches(w, es, w')
    ensures Replay(StatusRows(w'.db.audit, id)) == Ok(StatusOf(w'.db.reports, id))
    ensures id in w'.db.reports ==>
              StatusRows(w'.db.audit, id) != [] && StatusRows(w'.db.audit, id)[0] == StatusRow(None, Pending)
  {
    assert Faithful(w.db);
    RunFaithful(w, es, w');
    assert FaithfulFor(w'.db, id);
  }

  /** What a successful replay says row by row. */
  lemma {:induction false} ReplayIsAChain(rows: seq<StatusRow>, i: nat)
    requires Replay(rows).Ok? && i < |rows|
    ensures rows[i].before == if i == 0 then None else Some(rows[i - 1].after)
    ensures Replay(rows) == Ok(Some(rows[|rows| - 1].after))
    decreases |rows|
  {
    var n := |rows| - 1;
    if i < n {
      ReplayIsAChain(rows[..n], i);
    } else if n > 0 {
      ReplayIsAChain(rows[..n], n - 1);
    }
  }

  // ------------------------------------------------------------------
  // Every operation signs the log
  // ------------------------------------------------------------------

  /** Rows of one operation about one report. */
  function IsEntry(op: Operation, id: ReportId): AuditRow -> nat {
    (row: AuditRow) => if row.operation == op && row.record == id then 1 else 0
  }

  function Entries(audit: seq<AuditRow>, op: Operation, id: ReportId): nat {
    Total(audit, IsEntry(op, id))
  }

  /** How often the event performs the operation on the report: operations that fail, and the workers' own
      writes, perform none. */
  ghost function Performs(w: World, e: Event, op: Operation, id: ReportId): nat
    requires Possible(w, e)
  {
    match e
    case Submit(i, s) => if op.Create? && i == id && Created(w.db, i, s).Ok? then 1 else 0
    case RefusePhoto(i) => if op.ModerationRejection? && i == id then 1 else 0
    case AttachPhoto(i, isOwner, key) =>
      if op.PhotoAdded? && i == id && PhotoAttached(w.db, i, isOwner, key).Ok? then 1 else 0
    case Score(i, cs, dist) =>
      if i != id || i !in w.db.reports || !w.db.reports[i].status.Pending? then 0
      else if op == (if Queued(w.db, i, cs, dist) then MergeQueued else DuplicateScored) then 1 else 0
    case Transition(i, to, reason) =>
      if op.StatusChange? && i == id && Transitioned(w.db, i, to, reason).Ok? then 1 else 0
    case Merge(primary, dups) =>
      if op.ManualMerge? && Merged(w.db, primary, dups).Ok? then multiset(dups)[id] else 0
    case Confirm(i) => if op.ConfirmMerge? && i == id && MergeConfirmed(w.db, i).Ok? then 1 else 0
    case RejectPending(i) => if op.RejectMerge? && i == id && MergeRejected(w.db, i).Ok? then 1 else 0
    case AskReporter(i, empty, now) =>
      if op.InfoRequested? && i == id && InfoRequest(w.db, i, empty, now).Ok? then 1 else 0
    case Reply(i, isOwner, empty, now) =>
      if op.ReporterFollowup? && i == id && FollowupAdded(w.db, i, isOwner, empty, now).Ok? then 1 else 0
    case _ => 0
  }

  /** Scoring held the report for merge review. */
  predicate Queued(db: Db, id: ReportId, cs: seq<ReportId>, dist: DS.Distance)
    requires forall i :: 0 <= i < |cs| ==> cs[i] in db.reports
  {
    var scored := ReportScored(db, id, cs, dist);
    id in scored.reports && scored.reports[id].status.PendingMergeReview?
  }

  lemma OneEntry(before: Db, after: Db, row: AuditRow, op: Operation, id: ReportId)
    requires after.audit == before.audit + [row]
    ensures Entries(after.audit, op, id)
         == Entries(before.audit, op, id) + if row.operation == op && row.record == id then 1 else 0
  {
    TotalConcat(before.audit, [row], IsEntry(op, id));
    TotalSmall(row, row, IsEntry(op, id));
  }

  lemma {:induction false} MergedAllEntries(db: Db, primary: ReportId, dups: seq<ReportId>, op: Operation, id: ReportId)
    ensures MergedAll(db, primary, dups).Ok? ==>
              Entries(MergedAll(db, primary, dups).value.audit, op, id)
              == Entries(db.audit, op, id) + if op.ManualMerge? then multiset(dups)[id] else 0
    decreases |dups|
  {
    if dups != [] && dups[0] in db.reports {
      var once := MergedOne(db, primary, dups[0]);
      OneEntry(db, once, once.audit[|db.audit|], op, id);
      MergedAllEntries(once, primary, dups[1..], op, id);
      assert dups == [dups[0]] + dups[1..];
    }
  }

  lemma ReporterStepEntries(w: World, e: Event, op: Operation, id: ReportId)
    requires e.Submit? || e.RefusePhoto? || e.AttachPhoto? || e.Reply?
    ensures Entries(Step(w, e).db.audit, op, id) == Entries(w.db.audit, op, id) + Performs(w, e, op, id)
  {
    var after := Step(w, e).db;
    if after.audit != w.db.audit {
      OneEntry(w.db, after, after.audit[|w.db.audit|], op, id);
    }
  }

  lemma AnalystStepEntries(w: World, e: Event, op: Operation, id: ReportId)
    requires e.Transition? || e.Confirm? || e.RejectPending? || e.AskReporter?
    ensures Entries(Step(w, e).db.audit, op, id) == Entries(w.db.audit, op, id) + Performs(w, e, op, id)
  {
    var after := Step(w, e).db;
    if after.audit != w.db.audit {
      OneEntry(w.db, after, after.audit[|w.db.audit|], op, id);
    }
  }

  lemma StepEntries(w: World, e: Event, op: Operation, id: ReportId)
    requires Possible(w, e)
    ensures Entries(Step(w, e).db.audit, op, id) == Entries(w.db.audit, op, id) + Performs(w, e, op, id)
  {
    var after := Step(w, e).db;
    if e.Merge? {
      MergedAllEntries(w.db, e.primary, e.dups, op, id);
    } else if e.Score? {
      if after.audit != w.db.audit {
        OneEntry(w.db, after, after.audit[|w.db.audit|], op, id);
      }
    } else if e.Transition? || e.Confirm? || e.RejectPending? || e.AskReporter? {
      AnalystStepEntries(w, e, op, id);
    } else if e.Submit? || e.RefusePhoto? || e.AttachPhoto? || e.Reply? {
      ReporterStepEntries(w, e, op, id);
    }
  }

  /** How often the run performs it. */
  ghost function Performed(w: World, es: seq<Event>, op: Operation, id: ReportId): nat
    decreases |es|
  {
    if es == [] || !Possible(w, es[0]) then 0
    else Performs(w, es[0], op, id) + Performed(Step(w, es[0]), es[1..], op, id)
  }

  /** Main result: over any run the log gains, for every operation and every report, exactly as many rows as
      the operation was performed on it: none is lost, doubled, or signed as another operation. */
  lemma {:induction false} AuditCountsOperations(w: World, es: seq<Event>, w': World, op: Operation, id: ReportId)
    requires Reaches(w, es, w')
    ensures Entries(w'.db.audit, op, id) == Entries(w.db.audit, op, id) + Performed(w, es, op, id)
    decreases |es|
  {
    if es != [] {
      StepEntries(w, es[0], op, id);
      AuditCountsOperations(Step(w, es[0]), es[1..], w', op, id);
    }
  }
}
