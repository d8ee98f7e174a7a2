/**
 * The report table, the building table and the audit log, and every operation that writes them.
 *
 * Each operation is one database transaction, given as a function of the committed state; the
 * `Database` class executes the same operations statement by statement. An operation that raises
 * is rolled back and leaves the state as it was.
 */
module Reports {
  import opened Common
  import DS = DuplicateScorer

  datatype Status = Pending | Verified | Rejected | Duplicate | PendingMergeReview

  datatype Severity = NoDamage | Minimal | Partial | Destroyed

  /** A report's own severity is never `none`. */
  type ReportSeverity = s: Severity | !s.NoDamage? witness Minimal

  datatype PhotoStatus =
    PhotoPending | Processing | Accepted | PhotoRejected | InsufficientQuality | AiProcessingFailed

  datatype Priority = Low | Normal | High | Critical

  datatype MedicalHelp = Urgent | NotUrgent | NoHelp

  type PhotoKey = nat

  type Time = int

  datatype Report = Report(
    status: Status, trustTier: int,
    damage: ReportSeverity, building: Option<BuildingId>, matchConfidence: Option<real>,
    lat: Option<real>, lng: Option<real>, crisis: string, infrastructure: string,
    photo: Option<PhotoKey>, photoStatus: PhotoStatus, phash: Option<string>,
    possible: Option<ReportId>, duplicateOf: Option<ReportId>, duplicateScore: Option<real>,
    priority: Priority, medical: Option<MedicalHelp>,
    requestedAt: Option<Time>, respondedAt: Option<Time>, createdAt: Time)

  datatype Operation =
    | Create | ModerationRejection | PhotoAdded | DuplicateScored | MergeQueued | StatusChange
    | ManualMerge | ConfirmMerge | RejectMerge | InfoRequested | ReporterFollowup

  /** The status carried by the before and after state of an audit row, if any. */
  datatype AuditRow = AuditRow(operation: Operation, record: ReportId, before: Option<Status>, after: Option<Status>)

  datatype Db = Db(
    reports: map<ReportId, Report>, buildings: map<BuildingId, Severity>, audit: seq<AuditRow>)

  datatype Error = NotFound | InvalidValue | NotOwner | NoOpenRequest | Integrity

  // ------------------------------------------------------------------
  // Severity
  // ------------------------------------------------------------------

  function SeverityRank(s: Severity): nat {
    match s case NoDamage => 0 case Minimal => 1 case Partial => 2 case Destroyed => 3
  }

  /** Report `id` counts towards building `b`. */
  predicate CountsTowards(reports: map<ReportId, Report>, b: BuildingId, id: ReportId) {
    id in reports && reports[id].building == Some(b) && !reports[id].status.Rejected?
  }

  predicate SomeCounting(reports: map<ReportId, Report>, b: BuildingId, s: Severity) {
    exists id :: id in reports && CountsTowards(reports, b, id) && reports[id].damage == s
  }

  /** The worst severity among the building's non-rejected reports. */
  function Worst(reports: map<ReportId, Report>, b: BuildingId): Severity {
    if SomeCounting(reports, b, Destroyed) then Destroyed
    else if SomeCounting(reports, b, Partial) then Partial
    else if SomeCounting(reports, b, Minimal) then Minimal
    else NoDamage
  }

  // ------------------------------------------------------------------
  // Submission
  // ------------------------------------------------------------------

  datatype Submission = Submission(
    damage: ReportSeverity, lat: Option<real>, lng: Option<real>, crisis: string, infrastructure: string,
    medical: Option<MedicalHelp>, photo: Option<PhotoKey>, trustTier: int, createdAt: Time)

  function NewReport(s: Submission): Report {
    Report(Pending, s.trustTier, s.damage, None, None, s.lat, s.lng, s.crisis, s.infrastructure,
           s.photo, if s.photo.Some? then Processing else PhotoPending, None, None, None, None,
           if s.medical == Some(Urgent) then Critical else Normal, s.medical, None, None, s.createdAt)
  }

  function Created(db: Db, id: ReportId, s: Submission): Result<Db, Error> {
    if id in db.reports then Err(Integrity)
    else Ok(db.(reports := db.reports[id := NewReport(s)],
                audit := db.audit + [AuditRow(Create, id, None, Some(Pending))]))
  }

  /** The audit row of a refused photo carries no status; at creation its record id is a fresh one, at a
      later upload it is the report's. */
  function ModerationRefused(db: Db, record: ReportId): Db {
    db.(audit := db.audit + [AuditRow(ModerationRejection, record, None, None)])
  }

  function PhotoAttached(db: Db, id: ReportId, isOwner: bool, key: PhotoKey): Result<Db, Error> {
    if id !in db.reports then Err(NotFound)
    else if !isOwner then Err(NotOwner)
    else Ok(db.(reports := db.reports[id := db.reports[id].(photo := Some(key), photoStatus := Processing)],
                audit := db.audit + [AuditRow(PhotoAdded, id, None, None)]))
  }

  // ------------------------------------------------------------------
  // GIS worker
  // ------------------------------------------------------------------

  datatype GisMatch = Matched(building: BuildingId, confidence: real) | Unmatched

  /** A match to a building that does not exist is an integrity error; the row stays as it was. */
  function BuildingMatched(db: Db, id: ReportId, m: GisMatch): Result<Db, Error> {
    if id !in db.reports then Ok(db)
    else match m
      case Matched(b, confidence) =>
        if b !in db.buildings then Err(Integrity)
        else
          var reports := db.reports[id := db.reports[id].(building := Some(b), matchConfidence := Some(confidence))];
          Ok(db.(reports := reports, buildings := db.buildings[b := Worst(reports, b)]))
      case Unmatched =>
        Ok(db.(reports := db.reports[id := db.reports[id].(matchConfidence := Some(0.0))]))
  }

  // ------------------------------------------------------------------
  // AI worker
  // ------------------------------------------------------------------

  function PriorityRank(p: Priority): nat {
    match p case Low => 0 case Normal => 1 case High => 2 case Critical => 3
  }

  const AI_CONFIDENCE_CRITICAL_THRESHOLD := 0.6
  const AI_CONFIDENCE_HIGH_PRIORITY_THRESHOLD := 0.8
  const AI_QUALITY_CRITICAL_THRESHOLD := 0.3

  function ComputeReviewPriority(confidence: Option<real>, quality: Option<real>, divergence: bool): Priority {
    if quality.Some? && quality.value < AI_QUALITY_CRITICAL_THRESHOLD then Critical
    else if confidence.Some? && confidence.value < AI_CONFIDENCE_CRITICAL_THRESHOLD then Critical
    else if divergence then High
    else if confidence.Some? && confidence.value < AI_CONFIDENCE_HIGH_PRIORITY_THRESHOLD then High
    else if confidence.Some? then Low
    else Normal
  }

  function ApplyPriorityFloor(p: Priority, medical: Option<MedicalHelp>, respondedAt: Option<Time>): Priority {
    var floor := if medical == Some(Urgent) then Critical else if respondedAt.Some? then High else Low;
    if PriorityRank(p) < PriorityRank(floor) then floor else p
  }

  /** What the AI worker read from the row before calling the vision provider. */
  datatype AiSnapshot = AiSnapshot(medical: Option<MedicalHelp>, respondedAt: Option<Time>)

  datatype AiOutcome =
    | Unusable(quality: real)
    | Analysed(quality: real, confidence: real, divergence: bool, phash: Option<string>)
    | RetriesExhausted

  function SnapshotOf(r: Report): AiSnapshot {
    AiSnapshot(r.medical, r.respondedAt)
  }

  function AiPriority(snap: AiSnapshot, outcome: AiOutcome): Priority {
    match outcome
    case Unusable(quality) =>
      ApplyPriorityFloor(ComputeReviewPriority(None, Some(quality), false), snap.medical, snap.respondedAt)
    case Analysed(quality, confidence, divergence, _) =>
      ApplyPriorityFloor(ComputeReviewPriority(Some(confidence), Some(quality), divergence),
                         snap.medical, snap.respondedAt)
    case RetriesExhausted => Critical
  }

  function AiPhotoStatus(outcome: AiOutcome): PhotoStatus {
    match outcome
    case Unusable(_) => InsufficientQuality
    case Analysed(_, _, _, _) => Accepted
    case RetriesExhausted => AiProcessingFailed
  }

  function AiWritten(db: Db, id: ReportId, snap: AiSnapshot, outcome: AiOutcome): Db {
    if id !in db.reports then db
    else db.(reports := db.reports[id := db.reports[id].(
               photoStatus := AiPhotoStatus(outcome), priority := AiPriority(snap, outcome),
               phash := if outcome.Analysed? then outcome.phash else db.reports[id].phash)])
  }

  function HashStored(db: Db, id: ReportId, phash: Option<string>): Db {
    if id !in db.reports || phash.None? then db
    else db.(reports := db.reports[id := db.reports[id].(phash := phash)])
  }

  // ------------------------------------------------------------------
  // Duplicate scoring
  // ------------------------------------------------------------------

  const MAX_CANDIDATES: nat := 500
  const DUPLICATE_TIME_WINDOW: int := 72 * 3600

  function FactsOf(r: Report): DS.Facts {
    DS.Facts(r.building, r.lat, r.lng, r.phash, r.crisis, r.infrastructure)
  }

  function CandidateOf(reports: map<ReportId, Report>, id: ReportId): DS.Candidate
    requires id in reports
  {
    DS.Candidate(id, FactsOf(reports[id]))
  }

  /** The filters that every candidate query applies. */
  predicate IsCandidate(reports: map<ReportId, Report>, id: ReportId, c: ReportId) {
    && id in reports
    && c in reports
    && c != id
    && !reports[c].status.Duplicate?
    && -DUPLICATE_TIME_WINDOW <= reports[c].createdAt - reports[id].createdAt <= DUPLICATE_TIME_WINDOW
  }

  /** A list that `_load_candidates` may return. */
  ghost predicate CandidateList(reports: map<ReportId, Report>, id: ReportId, cs: seq<ReportId>) {
    && |cs| <= MAX_CANDIDATES
    && (forall i :: 0 <= i < |cs| ==> IsCandidate(reports, id, cs[i]))
    && (forall i, j :: 0 <= i < j < |cs| ==> cs[i] != cs[j])
  }

  function Candidates(reports: map<ReportId, Report>, cs: seq<ReportId>): (r: seq<DS.Candidate>)
    requires forall i :: 0 <= i < |cs| ==> cs[i] in reports
    ensures |r| == |cs|
  {
    seq(|cs|, i requires 0 <= i < |cs| => CandidateOf(reports, cs[i]))
  }

  type Verdict = (DS.Action, real, Option<DS.ScoredCandidate>)

  /** The row after the action the scorer recommends. */
  function ScoredRow(r: Report, v: Verdict): Report {
    if v.0.AutoMerge? && v.2.Some? then
      r.(status := PendingMergeReview, possible := Some(v.2.value.candidate.id), duplicateScore := Some(v.1))
    else if v.0.AnalystFlag? && v.2.Some? then
      r.(possible := Some(v.2.value.candidate.id), duplicateScore := Some(v.1))
    else r
  }

  /** The before-status of a queued merge is the constant `pending`. */
  function ScoredAudit(id: ReportId, v: Verdict): AuditRow {
    if v.0.AutoMerge? && v.2.Some? then AuditRow(MergeQueued, id, Some(Pending), Some(PendingMergeReview))
    else AuditRow(DuplicateScored, id, None, None)
  }

  function VerdictFor(reports: map<ReportId, Report>, id: ReportId, cs: seq<ReportId>, dist: DS.Distance): Verdict
    requires id in reports && forall i :: 0 <= i < |cs| ==> cs[i] in reports
  {
    DS.Verdict(FactsOf(reports[id]), Candidates(reports, cs), dist)
  }

  /** `_score_report_impl` as one atomic transaction. */
  function ReportScored(db: Db, id: ReportId, cs: seq<ReportId>, dist: DS.Distance): Db
    requires forall i :: 0 <= i < |cs| ==> cs[i] in db.reports
  {
    if id !in db.reports || !db.reports[id].status.Pending? then db
    else
      var v := VerdictFor(db.reports, id, cs, dist);
      db.(reports := db.reports[id := ScoredRow(db.reports[id], v)], audit := db.audit + [ScoredAudit(id, v)])
  }

  /** The sweep's "dedup ran" test. */
  predicate DedupDone(db: Db, id: ReportId) {
    exists k :: 0 <= k < |db.audit| && db.audit[k].record == id
      && (db.audit[k].operation.DuplicateScored? || db.audit[k].operation.MergeQueued?)
  }

  // ------------------------------------------------------------------
  // Analyst operations
  // ------------------------------------------------------------------

  const REJECTION_REASON_CODES := {"inaccurate", "duplicate", "poor_quality", "out_of_scope", "other"}

  /** `_VALID_STATUS_TRANSITIONS`: the statuses a target may be reached from. */
  function AllowedSources(target: Status): set<Status> {
    match target
    case Verified => {Pending, Rejected}
    case Rejected => {Pending, Verified}
    case Duplicate => {Pending}
    case _ => {}
  }

  function Min(a: int, b: int): int { if a < b then a else b }

  function Max(a: int, b: int): int { if a > b then a else b }

  function TierAfter(tier: int, target: Status): int {
    if target.Verified? then Min(tier + 1, 2)
    else if target.Rejected? then Max(tier - 1, 0)
    else tier
  }

  function Transitioned(db: Db, id: ReportId, target: Status, reason: Option<string>): Result<Db, Error> {
    if target !in {Verified, Rejected, Duplicate} then Err(InvalidValue)
    else if target.Rejected? && (reason.None? || reason.value !in REJECTION_REASON_CODES) then Err(InvalidValue)
    else if id !in db.reports then Err(NotFound)
    else if db.reports[id].status !in AllowedSources(target) then Err(InvalidValue)
    else
      var r := db.reports[id];
      var reports := db.reports[id := r.(status := target, trustTier := TierAfter(r.trustTier, target))];
      var buildings :=
        if r.building.Some? && r.building.value in db.buildings
        then db.buildings[r.building.value := Worst(reports, r.building.value)]
        else db.buildings;
      Ok(Db(reports, buildings, db.audit + [AuditRow(StatusChange, id, Some(r.status), Some(target))]))
  }

  /** The primary takes the duplicate's photo if it has none. */
  function PhotoInherited(reports: map<ReportId, Report>, primary: ReportId, photo: Option<PhotoKey>)
    : map<ReportId, Report>
  {
    if photo.Some? && primary in reports && reports[primary].photo.None?
    then reports[primary := reports[primary].(photo := photo)]
    else reports
  }

  /** One turn of the merge loop. */
  function MergedOne(db: Db, primary: ReportId, dup: ReportId): Db
    requires dup in db.reports
  {
    var r := db.reports[dup];
    var linked := db.reports[dup := r.(status := Duplicate, duplicateOf := Some(primary))];
    db.(reports := PhotoInherited(linked, primary, r.photo),
        audit := db.audit + [AuditRow(ManualMerge, dup, Some(r.status), Some(Duplicate))])
  }

  function MergedAll(db: Db, primary: ReportId, dups: seq<ReportId>): Result<Db, Error>
    decreases |dups|
  {
    if dups == [] then Ok(db)
    else if dups[0] !in db.reports then Err(NotFound)
    else MergedAll(MergedOne(db, primary, dups[0]), primary, dups[1..])
  }

  function Merged(db: Db, primary: ReportId, dups: seq<ReportId>): Result<Db, Error> {
    if primary !in db.reports then Err(NotFound) else MergedAll(db, primary, dups)
  }

  function MergeConfirmed(db: Db, id: ReportId): Result<Db, Error> {
    if id !in db.reports then Err(NotFound)
    else if !db.reports[id].status.PendingMergeReview? then Err(InvalidValue)
    else if db.reports[id].possible.None? then Err(InvalidValue)
    else
      var r := db.reports[id];
      var primary := r.possible.value;
      var linked := db.reports[id := r.(status := Duplicate, duplicateOf := Some(primary), possible := None)];
      Ok(db.(reports := PhotoInherited(linked, primary, r.photo),
             audit := db.audit + [AuditRow(ConfirmMerge, id, Some(PendingMergeReview), Some(Duplicate))]))
  }

  function MergeRejected(db: Db, id: ReportId): Result<Db, Error> {
    if id !in db.reports then Err(NotFound)
    else if !db.reports[id].status.PendingMergeReview? then Err(InvalidValue)
    else
      var r := db.reports[id].(status := Pending, possible := None, duplicateScore := None);
      Ok(db.(reports := db.reports[id := r],
             audit := db.audit + [AuditRow(RejectMerge, id, Some(PendingMergeReview), Some(Pending))]))
  }

  /** `emptyMessage`: the sanitised text is empty. */
  function InfoRequest(db: Db, id: ReportId, emptyMessage: bool, now: Time): Result<Db, Error> {
    if emptyMessage then Err(InvalidValue)
    else if id !in db.reports then Err(NotFound)
    else if db.reports[id].status !in {Pending, PendingMergeReview} then Err(InvalidValue)
    else
      var r := db.reports[id].(requestedAt := Some(now), respondedAt := None);
      Ok(db.(reports := db.reports[id := r],
             audit := db.audit + [AuditRow(InfoRequested, id, None, None)]))
  }

  function FollowupAdded(db: Db, id: ReportId, isOwner: bool, emptyText: bool, now: Time): Result<Db, Error> {
    if id !in db.reports then Err(NotFound)
    else if !isOwner then Err(NotOwner)
    else if db.reports[id].requestedAt.None? || db.reports[id].respondedAt.Some? then Err(NoOpenRequest)
    else if emptyText then Err(InvalidValue)
    else
      var r := db.reports[id];
      var priority := if PriorityRank(r.priority) < PriorityRank(High) then High else r.priority;
      Ok(db.(reports := db.reports[id := r.(respondedAt := Some(now), priority := priority)],
             audit := db.audit + [AuditRow(ReporterFollowup, id, None, None)]))
  }

  // ------------------------------------------------------------------
  // Photo retention
  // ------------------------------------------------------------------

  /** `UPDATE report SET photo_url = NULL WHERE photo_url = :key`. */
  function KeyCleared(db: Db, key: PhotoKey): Db {
    db.(reports := map id | id in db.reports ::
          if db.reports[id].photo == Some(key) then db.reports[id].(photo := None) else db.reports[id])
  }

  // ------------------------------------------------------------------
  // Runs
  // ------------------------------------------------------------------

  /** AI work between its read and its write, by task. */
  datatype Reading = Reading(id: ReportId, snap: AiSnapshot)

  /** Committed database, AI tasks in flight, and the trust tier each report started with. */
  datatype World = World(db: Db, reading: map<nat, Reading>, startTier: map<ReportId, int>)

  datatype Event =
    | Submit(id: ReportId, submission: Submission)
    | RefusePhoto(record: ReportId)
    | AttachPhoto(id: ReportId, isOwner: bool, key: PhotoKey)
    | MatchBuilding(id: ReportId, gis: GisMatch)
    | AiRead(task: nat, id: ReportId)
    | AiHash(id: ReportId, phash: Option<string>)
    | AiWrite(task: nat, outcome: AiOutcome)
    | Score(id: ReportId, candidates: seq<ReportId>, dist: DS.Distance)
    | Transition(id: ReportId, target: Status, reason: Option<string>)
    | Merge(primary: ReportId, dups: seq<ReportId>)
    | Confirm(id: ReportId)
    | RejectPending(id: ReportId)
    | AskReporter(id: ReportId, emptyMessage: bool, now: Time)
    | Reply(id: ReportId, isOwner: bool, emptyText: bool, now: Time)
    | ClearKey(key: PhotoKey)

  function Commit(w: World, r: Result<Db, Error>): World {
    if r.Ok? then w.(db := r.value) else w
  }

  /** What an event may be, given the state it meets: a list of candidates comes from the queries. */
  ghost predicate Possible(w: World, e: Event) {
    match e
    case Score(id, cs, _) => CandidateList(w.db.reports, id, cs)
    case AiRead(_, id) => id in w.db.reports
    case AiWrite(task, _) => task in w.reading
    case _ => true
  }

  ghost function Step(w: World, e: Event): World
    requires Possible(w, e)
  {
    match e
    case Submit(id, s) =>
      var r := Created(w.db, id, s);
      if r.Ok? then w.(db := r.value, startTier := w.startTier[id := s.trustTier]) else w
    case RefusePhoto(record) => w.(db := ModerationRefused(w.db, record))
    case AttachPhoto(id, isOwner, key) => Commit(w, PhotoAttached(w.db, id, isOwner, key))
    case MatchBuilding(id, m) => Commit(w, BuildingMatched(w.db, id, m))
    case AiRead(task, id) => w.(reading := w.reading[task := Reading(id, SnapshotOf(w.db.reports[id]))])
    case AiHash(id, phash) => w.(db := HashStored(w.db, id, phash))
    case AiWrite(task, outcome) =>
      var t := w.reading[task];
      w.(db := AiWritten(w.db, t.id, t.snap, outcome), reading := w.reading - {task})
    case Score(id, cs, dist) => w.(db := ReportScored(w.db, id, cs, dist))
    case Transition(id, target, reason) => Commit(w, Transitioned(w.db, id, target, reason))
    case Merge(primary, dups) => Commit(w, Merged(w.db, primary, dups))
    case Confirm(id) => Commit(w, MergeConfirmed(w.db, id))
    case RejectPending(id) => Commit(w, MergeRejected(w.db, id))
    case AskReporter(id, emptyMessage, now) => Commit(w, InfoRequest(w.db, id, emptyMessage, now))
    case Reply(id, isOwner, emptyText, now) => Commit(w, FollowupAdded(w.db, id, isOwner, emptyText, now))
    case ClearKey(key) => w.(db := KeyCleared(w.db, key))
  }

  /** `w'` is reached from `w` by the events `es`, in any order that makes each possible. */
  ghost predicate Reaches(w: World, es: seq<Event>, w': World)
    decreases |es|
  {
    if es == [] then w == w'
    else Possible(w, es[0]) && Reaches(Step(w, es[0]), es[1..], w')
  }

  lemma {:induction false} ReachesSnoc(w: World, es: seq<Event>, w1: World, e: Event)
    requires Reaches(w, es, w1) && Possible(w1, e)
    ensures Reaches(w, es + [e], Step(w1, e))
    decreases |es|
  {
    if es == [] {
      assert Reaches(Step(w1, e), [], Step(w1, e));
    } else {
      ReachesSnoc(Step(w, es[0]), es[1..], w1, e);
      assert (es + [e])[1..] == es[1..] + [e];
    }
  }

  /** An empty report table over an undamaged building table. */
  predicate Initial(w: World) {
    && w.db.reports == map[]
    && w.db.audit == []
    && w.reading == map[]
    && w.startTier == map[]
    && forall b :: b in w.db.buildings ==> w.db.buildings[b] == NoDamage
  }
}
