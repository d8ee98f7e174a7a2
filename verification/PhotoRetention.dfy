/**
 * The photo retention sweep: keys whose newest referencing report is older than the cutoff are
 * deleted from storage and then cleared from every report that points at them.
 */
module PhotoRetention {
  import opened Common
  import opened Reports

  predicate Refers(db: Db, id: ReportId, key: PhotoKey) {
    id in db.reports && db.reports[id].photo == Some(key)
  }

  predicate Referenced(db: Db, key: PhotoKey) {
    exists id :: id in db.reports && Refers(db, id, key)
  }

  /** GROUP BY photo_url HAVING MAX(created_at) < cutoff. */
  predicate Expired(db: Db, key: PhotoKey, cutoff: Time) {
    && Referenced(db, key)
    && forall id :: id in db.reports && Refers(db, id, key) ==> db.reports[id].createdAt < cutoff
  }

  function ExpiredKeys(db: Db, cutoff: Time): set<PhotoKey> {
    set id | id in db.reports && db.reports[id].photo.Some? && Expired(db, db.reports[id].photo.value, cutoff)
      :: db.reports[id].photo.value
  }

  lemma ExpiredKeysMeaning(db: Db, cutoff: Time, key: PhotoKey)
    ensures key in ExpiredKeys(db, cutoff) <==> Expired(db, key, cutoff)
  {
  }

  function UseTimes(db: Db, key: PhotoKey): set<Time> {
    set id | id in db.reports && Refers(db, id, key) :: db.reports[id].createdAt
  }

  /** MAX(created_at) of the key's group; a key without reports has no group. */
  function LastUse(db: Db, key: PhotoKey): Time {
    var times := UseTimes(db, key);
    if times == {} then 0 else Greatest(times)
  }

  lemma ExpiredByLastUse(db: Db, key: PhotoKey, cutoff: Time)
    ensures Expired(db, key, cutoff) <==> Referenced(db, key) && LastUse(db, key) < cutoff
  {
    var times := UseTimes(db, key);
    if Referenced(db, key) {
      var id :| id in db.reports && Refers(db, id, key);
      assert db.reports[id].createdAt in times;
      assert LastUse(db, key) in times;
      forall id | id in db.reports && Refers(db, id, key)
        ensures db.reports[id].createdAt <= LastUse(db, key)
      {
        assert db.reports[id].createdAt in times;
      }
    }
  }

  /** ORDER BY MAX(created_at) ASC: listed keys among each other, and against the expired ones left out. */
  ghost predicate OldestFirst(db: Db, cutoff: Time, keys: seq<PhotoKey>) {
    && (forall i, j :: 0 <= i < j < |keys| ==> LastUse(db, keys[i]) <= LastUse(db, keys[j]))
    && (forall i, key :: 0 <= i < |keys| && Expired(db, key, cutoff) && key !in keys ==>
          LastUse(db, keys[i]) <= LastUse(db, key))
  }

  /** A result of `_EXPIRED_KEYS_QUERY`: distinct expired keys, all of them unless the limit cuts in, the
      longest unused first. */
  ghost predicate QueryResult(db: Db, cutoff: Time, limit: nat, keys: seq<PhotoKey>) {
    && |keys| <= limit
    && (forall i, j :: 0 <= i < j < |keys| ==> keys[i] != keys[j])
    && (forall i :: 0 <= i < |keys| ==> Expired(db, keys[i], cutoff))
    && (|keys| < limit ==> forall key :: Expired(db, key, cutoff) ==> key in keys)
    && OldestFirst(db, cutoff, keys)
  }

  /** Of some keys one has gone unused the longest. */
  lemma {:induction false} HasOldest(db: Db, keys: set<PhotoKey>) returns (key: PhotoKey)
    requires keys != {}
    ensures key in keys && forall k :: k in keys ==> LastUse(db, key) <= LastUse(db, k)
    decreases keys
  {
    key :| key in keys;
    if keys != {key} {
      var other := HasOldest(db, keys - {key});
      key := if LastUse(db, key) <= LastUse(db, other) then key else other;
    }
  }

  /** The expired keys are split into a list, oldest first, and newer ones still to be taken. */
  ghost predicate Listed(db: Db, cutoff: Time, keys: seq<PhotoKey>, rest: set<PhotoKey>) {
    && (forall i, j :: 0 <= i < j < |keys| ==> keys[i] != keys[j] && LastUse(db, keys[i]) <= LastUse(db, keys[j]))
    && (forall k :: k in ExpiredKeys(db, cutoff) <==> k in keys || k in rest)
    && (forall k :: k in rest ==> k !in keys)
    && (forall i, k :: 0 <= i < |keys| && k in rest ==> LastUse(db, keys[i]) <= LastUse(db, k))
  }

  lemma ListOldest(db: Db, cutoff: Time, keys: seq<PhotoKey>, rest: set<PhotoKey>, key: PhotoKey)
    requires Listed(db, cutoff, keys, rest)
    requires key in rest && forall k :: k in rest ==> LastUse(db, key) <= LastUse(db, k)
    ensures Listed(db, cutoff, keys + [key], rest - {key})
  {
  }

  lemma ListedIsResult(db: Db, cutoff: Time, limit: nat, keys: seq<PhotoKey>, rest: set<PhotoKey>)
    requires Listed(db, cutoff, keys, rest) && |keys| <= limit && (rest != {} ==> |keys| == limit)
    ensures QueryResult(db, cutoff, limit, keys)
  {
    forall k
      ensures k in ExpiredKeys(db, cutoff) <==> Expired(db, k, cutoff)
    {
      ExpiredKeysMeaning(db, cutoff, k);
    }
    assert forall i :: 0 <= i < |keys| ==> keys[i] in ExpiredKeys(db, cutoff);
  }

  /** Every photo a report points at is in storage, or is one that a sweep is just removing. */
  ghost predicate LiveExcept(db: Db, objects: set<PhotoKey>, removing: set<PhotoKey>) {
    forall id :: id in db.reports && db.reports[id].photo.Some? ==>
      db.reports[id].photo.value in objects + removing
  }

  ghost predicate Live(db: Db, objects: set<PhotoKey>) {
    LiveExcept(db, objects, {})
  }

  lemma ClearedExpiry(db: Db, key: PhotoKey, cutoff: Time, k: PhotoKey)
    ensures Expired(KeyCleared(db, key), k, cutoff) <==> k != key && Expired(db, k, cutoff)
  {
    var db' := KeyCleared(db, key);
    if k != key {
      assert forall id :: Refers(db', id, k) <==> Refers(db, id, k);
      assert Referenced(db', k) <==> Referenced(db, k) by {
        if Referenced(db, k) {
          var id :| id in db.reports && Refers(db, id, k);
          assert Refers(db', id, k);
        }
        if Referenced(db', k) {
          var id :| id in db'.reports && Refers(db', id, k);
          assert Refers(db, id, k);
        }
      }
    }
  }

  // ------------------------------------------------------------------
  // The sweep
  // ------------------------------------------------------------------

  const DAY: int := 24 * 3600

  datatype PurgeSummary = PurgeSummary(expired: nat, deleted: nat, failed: nat)

  function KeySet(keys: seq<PhotoKey>): set<PhotoKey> {
    set k | k in keys
  }

  /** Which keys of the list the storage service manages to delete. */
  function Deleted(keys: seq<PhotoKey>, fails: set<PhotoKey>): set<PhotoKey> {
    KeySet(keys) - fails
  }

  function FailureWeight(fails: set<PhotoKey>): PhotoKey -> nat {
    (key: PhotoKey) => if key in fails then 1 else 0
  }

  /** How many of the keys storage fails to delete. */
  function Failures(keys: seq<PhotoKey>, fails: set<PhotoKey>): nat {
    Total(keys, FailureWeight(fails))
  }

  /** The table after the loop has handled `keys`. */
  function Purged(db: Db, keys: seq<PhotoKey>, fails: set<PhotoKey>): Db
    decreases |keys|
  {
    if keys == [] then db
    else
      var n := |keys| - 1;
      var before := Purged(db, keys[..n], fails);
      if keys[n] in fails then before else KeyCleared(before, keys[n])
  }

  class PhotoStore {
    var reports: map<ReportId, Report>
    var objects: set<PhotoKey>

    constructor (reports: map<ReportId, Report>, objects: set<PhotoKey>)
      ensures this.reports == reports && this.objects == objects
    {
      this.reports, this.objects := reports, objects;
    }

    function Table(): Db
      reads this
    {
      Db(reports, map[], [])
    }

    /** Deleting a missing key succeeds; a storage error raises and removes nothing. */
    method DeleteImage(key: PhotoKey, fails: bool) returns (ok: bool)
      modifies this`objects
      ensures ok == !fails
      ensures objects == if fails then old(objects) else old(objects) - {key}
    {
      ok := !fails;
      if ok {
        objects := objects - {key};
      }
    }

    method ClearKey(key: PhotoKey)
      modifies this`reports
      ensures Table() == KeyCleared(old(Table()), key)
    {
      reports := KeyCleared(Table(), key).reports;
    }

    /** `_EXPIRED_KEYS_QUERY`. */
    method QueryExpired(cutoff: Time, limit: nat) returns (keys: seq<PhotoKey>)
      ensures QueryResult(Table(), cutoff, limit, keys)
    {
      keys := [];
      var rest := ExpiredKeys(Table(), cutoff);
      while rest != {} && |keys| < limit
        invariant |keys| <= limit && Listed(Table(), cutoff, keys, rest)
        decreases rest
      {
        ghost var oldest := HasOldest(Table(), rest);
        var key :| key in rest && forall k :: k in rest ==> LastUse(Table(), key) <= LastUse(Table(), k);
        ListOldest(Table(), cutoff, keys, rest, key);
        keys := keys + [key];
        rest := rest - {key};
      }
      ListedIsResult(Table(), cutoff, limit, keys, rest);
    }

    /** The loop over the query's keys; `fails` are the keys whose deletion raises. */
    method PurgeKeys(keys: seq<PhotoKey>, fails: set<PhotoKey>, start: PurgeSummary) returns (summary: PurgeSummary)
      requires start == PurgeSummary(|keys|, 0, 0)
      modifies this
      ensures Table() == Purged(old(Table()), keys, fails) && objects == old(objects) - Deleted(keys, fails)
      ensures summary.expired == |keys| && summary.failed == Failures(keys, fails)
      ensures summary.deleted == |keys| - Failures(keys, fails)
    {
      summary := start;
      for n := 0 to |keys|
        invariant Table() == Purged(old(Table()), keys[..n], fails)
        invariant objects == old(objects) - Deleted(keys[..n], fails)
        invariant summary.expired == |keys|
        invariant summary.failed == Failures(keys[..n], fails) && summary.deleted == n - Failures(keys[..n], fails)
      {
        assert keys[..n + 1] == keys[..n] + [keys[n]];
        TotalConcat(keys[..n], [keys[n]], FailureWeight(fails));
        assert keys[..n + 1][..n] == keys[..n];
        assert KeySet(keys[..n + 1]) == KeySet(keys[..n]) + {keys[n]};
        var ok := DeleteImage(keys[n], keys[n] in fails);
        if ok {
          ClearKey(keys[n]);
          summary := summary.(deleted := summary.deleted + 1);
        } else {
          summary := summary.(failed := summary.failed + 1);
        }
      }
      assert keys[..|keys|] == keys;
    }

    /** `_purge_impl`. */
    method Purge(days: int, limit: nat, now: Time, dryRun: bool, fails: set<PhotoKey>)
      returns (summary: PurgeSummary, keys: seq<PhotoKey>)
      modifies this
      ensures days > 0 ==> QueryResult(old(Table()), now - days * 86400, limit, keys)
      ensures days <= 0 || dryRun ==>
                Table() == old(Table()) && objects == old(objects) && summary.deleted == summary.failed == 0
      ensures days > 0 && !dryRun ==>
                Table() == Purged(old(Table()), keys, fails) && objects == old(objects) - Deleted(keys, fails)
                && summary.failed == Failures(keys, fails) && summary.deleted == |keys| - Failures(keys, fails)
      ensures summary.expired == if days <= 0 then 0 else |keys|
      ensures forall id :: id in old(reports) && old(reports[id]).photo.Some?
                           && old(reports[id]).createdAt >= now - days * 86400
                           && old(reports[id]).photo.value in old(objects) ==>
                old(reports[id]).photo.value in objects
    {
      summary, keys := PurgeSummary(0, 0, 0), [];
      if days <= 0 {
        return;
      }
      keys := QueryExpired(now - days * DAY, limit);
      summary := summary.(expired := |keys|);
      if keys == [] || dryRun {
        assert Deleted([], fails) == {};
        return;
      }
      summary := PurgeKeys(keys, fails, summary);
    }
  }

  function RowAfter(r: Report, deleted: set<PhotoKey>): Report {
    if r.photo.Some? && r.photo.value in deleted then r.(photo := None) else r
  }

  /** The loop clears exactly the references to deleted keys; a failed delete changes nothing. */
  lemma {:induction false} PurgedMeaning(db: Db, keys: seq<PhotoKey>, fails: set<PhotoKey>, id: ReportId)
    ensures id in Purged(db, keys, fails).reports <==> id in db.reports
    ensures id in db.reports ==> Purged(db, keys, fails).reports[id] == RowAfter(db.reports[id], Deleted(keys, fails))
    decreases |keys|
  {
    if keys != [] {
      var n := |keys| - 1;
      PurgedMeaning(db, keys[..n], fails, id);
      assert KeySet(keys) == KeySet(keys[..n]) + {keys[n]};
    }
  }

  /** Main result: after every iteration each remaining reference points at an existing object, although
      a merge may have left one key on several reports. */
  lemma PurgeKeepsReferencesLive(db: Db, objects: set<PhotoKey>, keys: seq<PhotoKey>, fails: set<PhotoKey>, n: nat)
    requires Live(db, objects) && n <= |keys|
    ensures Live(Purged(db, keys[..n], fails), objects - Deleted(keys[..n], fails))
  {
    var db' := Purged(db, keys[..n], fails);
    forall id | id in db'.reports && db'.reports[id].photo.Some?
      ensures db'.reports[id].photo.value in objects - Deleted(keys[..n], fails) + {}
    {
      PurgedMeaning(db, keys[..n], fails, id);
    }
  }

  // ------------------------------------------------------------------
  // Sweeping until nothing is expired
  // ------------------------------------------------------------------

  lemma PurgedExpiry(db: Db, keys: seq<PhotoKey>, cutoff: Time, k: PhotoKey)
    ensures Expired(Purged(db, keys, {}), k, cutoff) <==> k !in keys && Expired(db, k, cutoff)
    decreases |keys|
  {
    if keys != [] {
      var n := |keys| - 1;
      PurgedExpiry(db, keys[..n], cutoff, k);
      ClearedExpiry(Purged(db, keys[..n], {}), keys[n], cutoff, k);
      assert keys == keys[..n] + [keys[n]];
    }
  }

  /** A sweep whose deletions all succeed. */
  ghost predicate FullSweep(db: Db, db': Db, cutoff: Time, limit: nat) {
    exists keys :: QueryResult(db, cutoff, limit, keys) && db' == Purged(db, keys, {})
  }

  /** Consecutive failure-free sweeps with one cutoff. */
  ghost predicate Sweeps(dbs: seq<Db>, cutoff: Time, limit: nat) {
    && |dbs| > 0
    && forall i :: 0 < i < |dbs| ==> FullSweep(dbs[i - 1], dbs[i], cutoff, limit)
  }

  lemma PurgedKeys(db: Db, keys: seq<PhotoKey>, cutoff: Time)
    ensures ExpiredKeys(Purged(db, keys, {}), cutoff) == ExpiredKeys(db, cutoff) - KeySet(keys)
  {
    forall k
      ensures k in ExpiredKeys(Purged(db, keys, {}), cutoff) <==> k in ExpiredKeys(db, cutoff) - KeySet(keys)
    {
      ExpiredKeysMeaning(Purged(db, keys, {}), cutoff, k);
      ExpiredKeysMeaning(db, cutoff, k);
      PurgedExpiry(db, keys, cutoff, k);
    }
  }

  lemma QueryIsWithinExpired(db: Db, cutoff: Time, limit: nat, keys: seq<PhotoKey>)
    requires QueryResult(db, cutoff, limit, keys)
    ensures KeySet(keys) <= ExpiredKeys(db, cutoff) && |KeySet(keys)| == |keys|
    ensures |keys| < limit ==> KeySet(keys) == ExpiredKeys(db, cutoff)
  {
    DistinctSize(keys);
    forall k
      ensures k in KeySet(keys) ==> k in ExpiredKeys(db, cutoff)
      ensures |keys| < limit && k in ExpiredKeys(db, cutoff) ==> k in KeySet(keys)
    {
      ExpiredKeysMeaning(db, cutoff, k);
    }
  }

  lemma SweepShrinks(db: Db, cutoff: Time, limit: nat, keys: seq<PhotoKey>)
    requires QueryResult(db, cutoff, limit, keys)
    ensures |ExpiredKeys(Purged(db, keys, {}), cutoff)| == SizeAfter(|ExpiredKeys(db, cutoff)|, limit)
  {
    PurgedKeys(db, keys, cutoff);
    QueryIsWithinExpired(db, cutoff, limit, keys);
  }

  lemma {:induction false} DistinctSize(keys: seq<PhotoKey>)
    requires forall i, j :: 0 <= i < j < |keys| ==> keys[i] != keys[j]
    ensures |KeySet(keys)| == |keys|
    decreases |keys|
  {
    if keys == [] {
      assert KeySet(keys) == {};
    } else {
      var n := |keys| - 1;
      DistinctSize(keys[..n]);
      assert keys[n] !in KeySet(keys[..n]);
      assert KeySet(keys) == KeySet(keys[..n]) + {keys[n]};
    }
  }

  function SizeAfter(size: nat, cleared: nat): nat {
    if size <= cleared then 0 else size - cleared
  }

  lemma OneSweep(db: Db, db': Db, cutoff: Time, limit: nat)
    requires FullSweep(db, db', cutoff, limit)
    ensures |ExpiredKeys(db', cutoff)| == SizeAfter(|ExpiredKeys(db, cutoff)|, limit)
  {
    var keys :| QueryResult(db, cutoff, limit, keys) && db' == Purged(db, keys, {});
    SweepShrinks(db, cutoff, limit, keys);
  }

  lemma SizesCompose(size: nat, k: nat, limit: nat)
    ensures SizeAfter(SizeAfter(size, k * limit), limit) == SizeAfter(size, (k + 1) * limit)
  {
  }

  /** Main result: repeated failure-free sweeps empty the expired set, `limit` keys at a time. */
  lemma {:induction false} SweepsEmptyTheExpiredSet(dbs: seq<Db>, cutoff: Time, limit: nat, k: nat)
    requires Sweeps(dbs, cutoff, limit) && k < |dbs|
    ensures |ExpiredKeys(dbs[k], cutoff)| == SizeAfter(|ExpiredKeys(dbs[0], cutoff)|, k * limit)
  {
    if k > 0 {
      SweepsEmptyTheExpiredSet(dbs, cutoff, limit, k - 1);
      OneSweep(dbs[k - 1], dbs[k], cutoff, limit);
      SizesCompose(|ExpiredKeys(dbs[0], cutoff)|, k - 1, limit);
    }
  }

  // ------------------------------------------------------------------
  // Interleaving with uploads and merges
  // ------------------------------------------------------------------

  /** `used` are the keys ever stored. */
  datatype StoreState = StoreState(db: Db, objects: set<PhotoKey>, removing: set<PhotoKey>, used: set<PhotoKey>)

  /** Storage and table steps, each atomic on its own: a submission, an upload and its row, a merge, a
      confirmation, the two halves of the sweep, and any other change to a row, such as a scoring that
      holds it or a decision, which keeps its photo and creation time. Upload keys are fresh. */
  datatype StoreEvent =
    | NewRow(id: ReportId, submission: Submission)
    | Upload(id: ReportId, key: PhotoKey)
    | MergeInto(primary: ReportId, dup: ReportId)
    | ConfirmInto(id: ReportId)
    | Touch(id: ReportId, row: Report)
    | DeleteObject(key: PhotoKey)
    | ClearRows(key: PhotoKey)

  predicate Allowed(s: StoreState, e: StoreEvent) {
    match e
    case NewRow(id, sub) => id !in s.db.reports && (sub.photo.Some? ==> sub.photo.value !in s.used)
    case Upload(id, key) => id in s.db.reports && key !in s.used
    case MergeInto(primary, dup) => dup in s.db.reports
    case ConfirmInto(_) => true
    case Touch(id, row) =>
      id in s.db.reports && row.photo == s.db.reports[id].photo && row.createdAt == s.db.reports[id].createdAt
    case DeleteObject(_) => true
    case ClearRows(key) => key in s.removing
  }

  function Stored(s: StoreState, db: Db, keys: set<PhotoKey>): StoreState {
    s.(db := db, objects := s.objects + keys, used := s.used + keys)
  }

  function After(s: StoreState, e: StoreEvent): StoreState
    requires Allowed(s, e)
  {
    match e
    case NewRow(id, sub) =>
      Stored(s, Created(s.db, id, sub).value, if sub.photo.Some? then {sub.photo.value} else {})
    case Upload(id, key) => Stored(s, PhotoAttached(s.db, id, true, key).value, {key})
    case MergeInto(primary, dup) => s.(db := MergedOne(s.db, primary, dup))
    case ConfirmInto(id) => if MergeConfirmed(s.db, id).Ok? then s.(db := MergeConfirmed(s.db, id).value) else s
    case Touch(id, row) => s.(db := s.db.(reports := s.db.reports[id := row]))
    case DeleteObject(key) => s.(objects := s.objects - {key}, removing := s.removing + {key})
    case ClearRows(key) => s.(db := KeyCleared(s.db, key), removing := s.removing - {key})
  }

  /** A merge that copies a key while the sweep is removing it leaves no dangling reference behind:
      clearing the key clears the copy too. */
  lemma StoreStepLive(s: StoreState, e: StoreEvent)
    requires LiveExcept(s.db, s.objects, s.removing) && Allowed(s, e)
    ensures LiveExcept(After(s, e).db, After(s, e).objects, After(s, e).removing)
  {
  }

  ghost predicate StoreReaches(s: StoreState, es: seq<StoreEvent>, t: StoreState)
    decreases |es|
  {
    if es == [] then s == t else Allowed(s, es[0]) && StoreReaches(After(s, es[0]), es[1..], t)
  }

  /** Main result: whatever interleaves with the sweep, whenever no key is between its deletion and its
      clearing every reference points at an existing object. */
  lemma {:induction false} NoDanglingReferences(s: StoreState, es: seq<StoreEvent>, t: StoreState)
    requires LiveExcept(s.db, s.objects, s.removing) && StoreReaches(s, es, t)
    ensures LiveExcept(t.db, t.objects, t.removing)
    ensures t.removing == {} ==> Live(t.db, t.objects)
    decreases |es|
  {
    if es != [] {
      StoreStepLive(s, es[0]);
      NoDanglingReferences(After(s, es[0]), es[1..], t);
    }
  }

  // ------------------------------------------------------------------
  // Listed keys that a merge hands to a newer report
  // ------------------------------------------------------------------

  /** The event is a merge or confirmation that makes report `id`, which has no photo, inherit `key`. */
  predicate Hands(s: StoreState, e: StoreEvent, key: PhotoKey, id: ReportId) {
    match e
    case MergeInto(primary, dup) =>
      id == primary && WithoutPhoto(s.db, id) && Refers(s.db, dup, key)
    case ConfirmInto(held) =>
      held in s.db.reports && s.db.reports[held].status.PendingMergeReview?
      && s.db.reports[held].possible == Some(id) && WithoutPhoto(s.db, id) && Refers(s.db, held, key)
    case _ => false
  }

  predicate WithoutPhoto(db: Db, id: ReportId) {
    id in db.reports && db.reports[id].photo.None?
  }

  /** The event replaces or clears the reference of `id` to `key`. */
  predicate Takes(e: StoreEvent, key: PhotoKey, id: ReportId) {
    (e.Upload? && e.id == id) || e == ClearRows(key)
  }

  ghost predicate NeverTaken(es: seq<StoreEvent>, key: PhotoKey, id: ReportId) {
    forall i :: 0 <= i < |es| ==> !Takes(es[i], key, id)
  }

  /** Some event of the run hands `key` to `id`, and none after it takes it away. */
  ghost predicate HandedOver(s: StoreState, es: seq<StoreEvent>, key: PhotoKey, id: ReportId)
    decreases |es|
  {
    es != [] && Allowed(s, es[0])
    && ((Hands(s, es[0], key, id) && NeverTaken(es[1..], key, id)) || HandedOver(After(s, es[0]), es[1..], key, id))
  }

  lemma StepRefers(s: StoreState, e: StoreEvent, key: PhotoKey, id: ReportId)
    requires Allowed(s, e) && key in s.used
    ensures Refers(After(s, e).db, id, key) <==> (Refers(s.db, id, key) && !Takes(e, key, id)) || Hands(s, e, key, id)
    ensures key in After(s, e).used
    ensures id in s.db.reports ==>
              id in After(s, e).db.reports && After(s, e).db.reports[id].createdAt == s.db.reports[id].createdAt
  {
  }

  lemma TakenOrNot(e: StoreEvent, es: seq<StoreEvent>, key: PhotoKey, id: ReportId)
    ensures NeverTaken([e] + es, key, id) <==> !Takes(e, key, id) && NeverTaken(es, key, id)
  {
    assert ([e] + es)[0] == e;
    assert forall i :: 0 <= i < |es| ==> ([e] + es)[i + 1] == es[i];
  }

  lemma {:induction false} RefersAfterRun(s: StoreState, es: seq<StoreEvent>, t: StoreState, key: PhotoKey,
                                          id: ReportId)
    requires StoreReaches(s, es, t) && key in s.used
    ensures Refers(t.db, id, key)
       <==> (Refers(s.db, id, key) && NeverTaken(es, key, id)) || HandedOver(s, es, key, id)
    ensures id in s.db.reports ==> id in t.db.reports && t.db.reports[id].createdAt == s.db.reports[id].createdAt
    decreases |es|
  {
    if es != [] {
      StepRefers(s, es[0], key, id);
      RefersAfterRun(After(s, es[0]), es[1..], t, key, id);
      assert es == [es[0]] + es[1..];
      TakenOrNot(es[0], es[1..], key, id);
    }
  }

  /** A report at or after the cutoff points at the key. */
  predicate ReliedOn(db: Db, key: PhotoKey, cutoff: Time) {
    exists id :: id in db.reports && Refers(db, id, key) && db.reports[id].createdAt >= cutoff
  }

  /** Main result: a key that the query lists is relied on by a report at or after the cutoff, at any
      later moment and so when its object is deleted, if and only if a merge or confirmation since the
      query handed it to such a report, which has not been given another photo. */
  lemma ListedKeyIsReliedOnIff(s: StoreState, es: seq<StoreEvent>, t: StoreState, cutoff: Time, limit: nat,
                               keys: seq<PhotoKey>, key: PhotoKey)
    requires QueryResult(s.db, cutoff, limit, keys) && key in keys && key in s.used && StoreReaches(s, es, t)
    ensures ReliedOn(t.db, key, cutoff)
       <==> exists id :: id in t.db.reports && t.db.reports[id].createdAt >= cutoff && HandedOver(s, es, key, id)
  {
    assert Expired(s.db, key, cutoff);
    forall id | id in t.db.reports && t.db.reports[id].createdAt >= cutoff
      ensures Refers(t.db, id, key) <==> HandedOver(s, es, key, id)
    {
      RefersAfterRun(s, es, t, key, id);
      assert !Refers(s.db, id, key);
    }
  }

  function Pictured(photo: Option<PhotoKey>, createdAt: Time): Report {
    NewReport(Submission(Minimal, None, None, "flood", "residential", None, photo, 0, createdAt))
  }

  /** An old report merged, after the query, into a new one without a photo: the sweep deletes the photo
      the new report relies on. */
  lemma MergedPhotoIsDeleted() returns (s: StoreState, t: StoreState)
    ensures QueryResult(s.db, 100, 10, [7]) && Live(s.db, s.objects)
    ensures StoreReaches(s, [MergeInto(2, 1), DeleteObject(7)], t)
    ensures ReliedOn(t.db, 7, 100) && 7 !in t.objects
  {
    s := StoreState(Db(map[1 := Pictured(Some(7), 0), 2 := Pictured(None, 200)], map[], []), {7}, {}, {7});
    var merged := After(s, MergeInto(2, 1));
    t := After(merged, DeleteObject(7));
    assert Refers(s.db, 1, 7);
    assert [MergeInto(2, 1), DeleteObject(7)][1..] == [DeleteObject(7)];
    assert StoreReaches(merged, [DeleteObject(7)], t);
    assert Refers(t.db, 2, 7);
  }
}
