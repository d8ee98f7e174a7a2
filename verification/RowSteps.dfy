/** Which columns each event may change: the frame lemmas the invariants are built on. */
module RowSteps {
  import opened Common
  import opened Reports
  import DS = DuplicateScorer

  /** Events that leave every report's status and merge columns alone. */
  predicate Quiet(e: Event) {
    e.RefusePhoto? || e.AttachPhoto? || e.MatchBuilding? || e.AiRead? || e.AiHash? || e.AiWrite?
    || e.AskReporter? || e.Reply? || e.ClearKey?
  }

  predicate SameLifecycle(r: Report, s: Report) {
    && r.status == s.status && r.trustTier == s.trustTier && r.damage == s.damage
    && r.possible == s.possible && r.duplicateOf == s.duplicateOf && r.duplicateScore == s.duplicateScore
    && r.medical == s.medical && r.createdAt == s.createdAt
  }

  ghost predicate QuietTables(rs: map<ReportId, Report>, ts: map<ReportId, Report>) {
    && rs.Keys == ts.Keys
    && forall id :: id in rs ==> SameLifecycle(rs[id], ts[id])
  }

  ghost predicate SameBuildings(rs: map<ReportId, Report>, ts: map<ReportId, Report>) {
    && rs.Keys == ts.Keys
    && forall id :: id in rs ==> rs[id].building == ts[id].building
  }

  lemma AttachedQuiet(db: Db, id: ReportId, isOwner: bool, key: PhotoKey)
    ensures PhotoAttached(db, id, isOwner, key).Ok? ==>
      var db' := PhotoAttached(db, id, isOwner, key).value;
      QuietTables(db.reports, db'.reports) && SameBuildings(db.reports, db'.reports) && db'.buildings == db.buildings
  {
  }

  lemma MatchedQuiet(db: Db, id: ReportId, m: GisMatch)
    ensures BuildingMatched(db, id, m).Ok? ==> QuietTables(db.reports, BuildingMatched(db, id, m).value.reports)
  {
  }

  lemma HashedQuiet(db: Db, id: ReportId, phash: Option<string>)
    ensures var db' := HashStored(db, id, phash);
      QuietTables(db.reports, db'.reports) && SameBuildings(db.reports, db'.reports) && db'.buildings == db.buildings
  {
  }

  lemma AiQuiet(db: Db, id: ReportId, snap: AiSnapshot, outcome: AiOutcome)
    ensures var db' := AiWritten(db, id, snap, outcome);
      QuietTables(db.reports, db'.reports) && SameBuildings(db.reports, db'.reports) && db'.buildings == db.buildings
  {
  }

  lemma AskedQuiet(db: Db, id: ReportId, emptyMessage: bool, now: Time)
    ensures InfoRequest(db, id, emptyMessage, now).Ok? ==>
      var db' := InfoRequest(db, id, emptyMessage, now).value;
      QuietTables(db.reports, db'.reports) && SameBuildings(db.reports, db'.reports) && db'.buildings == db.buildings
  {
  }

  lemma RepliedQuiet(db: Db, id: ReportId, isOwner: bool, emptyText: bool, now: Time)
    ensures FollowupAdded(db, id, isOwner, emptyText, now).Ok? ==>
      var db' := FollowupAdded(db, id, isOwner, emptyText, now).value;
      QuietTables(db.reports, db'.reports) && SameBuildings(db.reports, db'.reports) && db'.buildings == db.buildings
  {
  }

  lemma ClearedQuiet(db: Db, key: PhotoKey)
    ensures var db' := KeyCleared(db, key);
      QuietTables(db.reports, db'.reports) && SameBuildings(db.reports, db'.reports) && db'.buildings == db.buildings
  {
  }

  lemma QuietStep(w: World, e: Event)
    requires Possible(w, e) && Quiet(e)
    ensures Step(w, e).startTier == w.startTier
    ensures QuietTables(w.db.reports, Step(w, e).db.reports)
    ensures !e.MatchBuilding? ==>
              SameBuildings(w.db.reports, Step(w, e).db.reports) && Step(w, e).db.buildings == w.db.buildings
  {
    match e
    case AttachPhoto(id, isOwner, key) => AttachedQuiet(w.db, id, isOwner, key);
    case MatchBuilding(id, m) => MatchedQuiet(w.db, id, m);
    case AiHash(id, phash) => HashedQuiet(w.db, id, phash);
    case AiWrite(task, outcome) => AiQuiet(w.db, w.reading[task].id, w.reading[task].snap, outcome);
    case AskReporter(id, emptyMessage, now) => AskedQuiet(w.db, id, emptyMessage, now);
    case Reply(id, isOwner, emptyText, now) => RepliedQuiet(w.db, id, isOwner, emptyText, now);
    case ClearKey(key) => ClearedQuiet(w.db, key);
    case RefusePhoto(_) =>
    case AiRead(_, _) =>
  }

  // ------------------------------------------------------------------
  // Events that act on the status of one report
  // ------------------------------------------------------------------

  /** Columns that only submission and the workers write. */
  predicate SameFacts(r: Report, s: Report) {
    && r.damage == s.damage && r.building == s.building && r.medical == s.medical
    && r.priority == s.priority && r.createdAt == s.createdAt
    && r.requestedAt == s.requestedAt && r.respondedAt == s.respondedAt
  }

  /** Row `id` changes in its status columns only, and other rows in their photo at most. */
  ghost predicate OnlyStatusOf(rs: map<ReportId, Report>, ts: map<ReportId, Report>, id: ReportId) {
    && rs.Keys == ts.Keys
    && (forall k :: k in rs ==> SameFacts(rs[k], ts[k]))
    && (forall k :: k in rs && k != id ==> SameLifecycle(rs[k], ts[k]))
  }

  lemma ScoredStatus(db: Db, id: ReportId, cs: seq<ReportId>, dist: DS.Distance)
    requires CandidateList(db.reports, id, cs)
    ensures var db' := ReportScored(db, id, cs, dist);
      && db'.buildings == db.buildings
      && OnlyStatusOf(db.reports, db'.reports, id)
      && (id in db.reports ==> ScoredFrom(db.reports[id], db'.reports[id]))
  {
    if id in db.reports {
      var v := VerdictFor(db.reports, id, cs, dist);
    }
  }

  predicate ScoredFrom(r: Report, s: Report) {
    s.duplicateOf == r.duplicateOf
    && (s.status == r.status || (r.status.Pending? && s.status.PendingMergeReview?))
  }

  lemma TransitionedStatus(db: Db, id: ReportId, target: Status, reason: Option<string>)
    ensures Transitioned(db, id, target, reason).Ok? ==>
      var db' := Transitioned(db, id, target, reason).value;
      && id in db.reports
      && db.reports[id].status in AllowedSources(target)
      && OnlyStatusOf(db.reports, db'.reports, id)
      && db'.reports[id].status == target
      && db'.reports[id].duplicateOf == db.reports[id].duplicateOf
  {
  }

  lemma ConfirmedStatus(db: Db, id: ReportId)
    ensures MergeConfirmed(db, id).Ok? ==>
      var db' := MergeConfirmed(db, id).value;
      && db'.buildings == db.buildings
      && id in db.reports && db.reports[id].status.PendingMergeReview?
      && OnlyStatusOf(db.reports, db'.reports, id)
      && db'.reports[id].status.Duplicate?
      && db'.reports[id].duplicateOf == db.reports[id].possible
  {
  }

  lemma RejectedStatus(db: Db, id: ReportId)
    ensures MergeRejected(db, id).Ok? ==>
      var db' := MergeRejected(db, id).value;
      && db'.buildings == db.buildings
      && id in db.reports && db.reports[id].status.PendingMergeReview?
      && OnlyStatusOf(db.reports, db'.reports, id)
      && db'.reports[id].status.Pending?
      && db'.reports[id].duplicateOf == db.reports[id].duplicateOf
  {
  }
}
