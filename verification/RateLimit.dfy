/**
 * The Redis fixed-window limiter: INCR, then EXPIRE by whoever saw 1, with any number of callers in
 * between and callers that stop before their EXPIRE.
 */
module RateLimit {
  import opened Common

  type Time = int

  /** A window length as Redis takes it: EXPIRE with a non-positive length would delete the key. */
  type Length = w: int | 0 < w witness 1

  datatype Bucket = Missing | Counter(count: nat, expiry: Option<Time>)

  /** One INCR: when, in which window, when that window began, and the value returned. */
  datatype Call = Call(time: Time, window: nat, start: Time, count: nat)

  /** `pending` callers are between INCR and EXPIRE; `windows` have begun, the last of them at `began`. */
  datatype Limiter = Limiter(now: Time, bucket: Bucket, pending: nat, windows: nat, began: Time, log: seq<Call>)

  datatype Step = Wait(elapsed: nat) | Incr | Expire | Stop

  /** What a command finds under the key: a counter past its expiry is gone. */
  function Seen(bucket: Bucket, now: Time): Bucket {
    if bucket.Counter? && bucket.expiry.Some? && now >= bucket.expiry.value then Missing else bucket
  }

  function Incremented(bucket: Bucket): Bucket {
    match bucket
    case Missing => Counter(1, None)
    case Counter(count, expiry) => Counter(count + 1, expiry)
  }

  predicate Enabled(s: Limiter, step: Step) {
    match step
    case Wait(_) => true
    case Incr => true
    case Expire => s.pending > 0
    case Stop => s.pending > 0
  }

  function After(s: Limiter, length: Length, step: Step): Limiter
    requires Enabled(s, step)
  {
    match step
    case Wait(elapsed) => s.(now := s.now + elapsed)
    case Incr =>
      var seen := Seen(s.bucket, s.now);
      var bucket := Incremented(seen);
      var begins := seen.Missing?;
      var windows := if begins then s.windows + 1 else s.windows;
      var began := if begins then s.now else s.began;
      Limiter(s.now, bucket, if bucket.count == 1 then s.pending + 1 else s.pending, windows, began,
              s.log + [Call(s.now, windows, began, bucket.count)])
    case Expire =>
      var seen := Seen(s.bucket, s.now);
      s.(pending := s.pending - 1,
         bucket := if seen.Missing? then Missing else Counter(seen.count, Some(s.now + length)))
    case Stop => s.(pending := s.pending - 1)
  }

  ghost predicate Reaches(s: Limiter, length: Length, steps: seq<Step>, t: Limiter)
    decreases |steps|
  {
    if steps == [] then s == t
    else Enabled(s, steps[0]) && Reaches(After(s, length, steps[0]), length, steps[1..], t)
  }

  function Fresh(now: Time): Limiter {
    Limiter(now, Missing, 0, 0, now, [])
  }

  /** The call is let through. */
  predicate Accepted(call: Call, limit: nat) {
    call.count <= limit
  }

  // ------------------------------------------------------------------
  // Counting calls
  // ------------------------------------------------------------------

  function Tally(log: seq<Call>, p: Call -> bool): nat
    decreases |log|
  {
    if log == [] then 0
    else Tally(log[..|log| - 1], p) + (if p(log[|log| - 1]) then 1 else 0)
  }

  /** Calls of window `w`. */
  function OfWindow(w: nat): Call -> bool {
    (c: Call) => c.window == w
  }

  /** Calls of window `w` that are let through. */
  function AcceptedOf(w: nat, limit: nat): Call -> bool {
    (c: Call) => c.window == w && Accepted(c, limit)
  }

  /** Calls let through between two instants, both included. */
  function AcceptedBetween(lo: Time, hi: Time, limit: nat): Call -> bool {
    (c: Call) => lo <= c.time <= hi && Accepted(c, limit)
  }

  lemma TallyAppend(log: seq<Call>, c: Call, p: Call -> bool)
    ensures Tally(log + [c], p) == Tally(log, p) + if p(c) then 1 else 0
  {
    assert (log + [c])[..|log|] == log;
  }

  lemma {:induction false} TallySplits(log: seq<Call>, p: Call -> bool, q: Call -> bool, r: Call -> bool)
    requires forall i :: 0 <= i < |log| && p(log[i]) ==> q(log[i]) || r(log[i])
    ensures Tally(log, p) <= Tally(log, q) + Tally(log, r)
    decreases |log|
  {
    if log != [] {
      TallySplits(log[..|log| - 1], p, q, r);
    }
  }

  // ------------------------------------------------------------------
  // The invariant
  // ------------------------------------------------------------------

  /** Two calls, `a` made first: a window is over before the next begins, a full length after it
      began itself. */
  predicate InOrder(a: Call, b: Call, length: Length) {
    && a.time <= b.time
    && a.window <= b.window
    && (a.window == b.window ==> a.start == b.start)
    && (a.window < b.window ==> a.time < b.start && a.start + length <= b.start)
  }

  ghost predicate LogInOrder(log: seq<Call>, length: Length) {
    && (forall i :: 0 <= i < |log| ==> log[i].start <= log[i].time)
    && (forall i, j :: 0 <= i < j < |log| ==> InOrder(log[i], log[j], length))
  }

  /** Every call saw its rank among the calls of its window. */
  ghost predicate Ranked(log: seq<Call>)
    decreases |log|
  {
    log == [] ||
    (var n := |log| - 1;
     Ranked(log[..n]) && log[n].count == Tally(log[..n], OfWindow(log[n].window)) + 1)
  }

  /** The key holds what the newest call saw; only the caller that began the window can still owe it
      an EXPIRE, and as long as it does the window cannot end. */
  ghost predicate Current(s: Limiter, length: Length) {
    if s.log == [] then s.bucket.Missing? && s.pending == 0 && s.windows == 0
    else
      var last := s.log[|s.log| - 1];
      && last.window == s.windows && last.start == s.began && last.time <= s.now
      && s.bucket.Counter? && s.bucket.count == last.count
      && (s.bucket.expiry.Some? ==>
            s.pending == 0 && last.time < s.bucket.expiry.value
            && s.began + length <= s.bucket.expiry.value <= s.now + length)
      && s.pending <= 1
  }

  ghost predicate Invariant(s: Limiter, length: Length) {
    Current(s, length) && LogInOrder(s.log, length) && Ranked(s.log)
  }

  lemma AppendInOrder(log: seq<Call>, c: Call, length: Length)
    requires LogInOrder(log, length) && c.start <= c.time
    requires log != [] ==> InOrder(log[|log| - 1], c, length)
    requires log != [] && log[|log| - 1].window == c.window ==> log[|log| - 1].start == c.start
    ensures LogInOrder(log + [c], length)
  {
  }

  lemma AppendRanked(log: seq<Call>, c: Call)
    requires Ranked(log) && c.count == Tally(log, OfWindow(c.window)) + 1
    ensures Ranked(log + [c])
  {
  }

  lemma NoCallYet(log: seq<Call>, w: nat, length: Length)
    requires LogInOrder(log, length) && (log != [] ==> log[|log| - 1].window < w)
    ensures Tally(log, OfWindow(w)) == 0
  {
  }

  lemma LastRank(log: seq<Call>)
    requires Ranked(log) && log != []
    ensures Tally(log, OfWindow(log[|log| - 1].window)) == log[|log| - 1].count >= 1
  {
  }

  lemma IncrKeepsCurrent(s: Limiter, length: Length)
    requires Current(s, length) && (s.log != [] ==> s.log[|s.log| - 1].count >= 1)
    ensures Current(After(s, length, Incr), length)
  {
    var t := After(s, length, Incr);
    assert t.log[|t.log| - 1] == Call(t.now, t.windows, t.began, t.bucket.count);
  }

  lemma IncrKeepsOrder(s: Limiter, length: Length)
    requires Current(s, length) && LogInOrder(s.log, length)
    ensures LogInOrder(After(s, length, Incr).log, length)
  {
    var t := After(s, length, Incr);
    var c := Call(t.now, t.windows, t.began, t.bucket.count);
    if s.log != [] {
      var last := s.log[|s.log| - 1];
      assert last.start <= last.time;
      assert InOrder(last, c, length);
    }
    AppendInOrder(s.log, c, length);
  }

  lemma IncrKeepsRanks(s: Limiter, length: Length)
    requires Current(s, length) && LogInOrder(s.log, length) && Ranked(s.log)
    ensures Ranked(After(s, length, Incr).log)
  {
    var t := After(s, length, Incr);
    if Seen(s.bucket, s.now).Missing? {
      NoCallYet(s.log, s.windows + 1, length);
    } else {
      LastRank(s.log);
    }
    AppendRanked(s.log, Call(t.now, t.windows, t.began, t.bucket.count));
  }

  lemma IncrKeepsInvariant(s: Limiter, length: Length)
    requires Invariant(s, length)
    ensures Invariant(After(s, length, Incr), length)
  {
    if s.log != [] {
      LastRank(s.log);
    }
    IncrKeepsCurrent(s, length);
    IncrKeepsOrder(s, length);
    IncrKeepsRanks(s, length);
  }

  lemma StepKeepsInvariant(s: Limiter, length: Length, step: Step)
    requires Invariant(s, length) && Enabled(s, step)
    ensures Invariant(After(s, length, step), length)
  {
    if step.Incr? {
      IncrKeepsInvariant(s, length);
    }
  }

  lemma {:induction false} RunKeepsInvariant(s: Limiter, length: Length, steps: seq<Step>, t: Limiter)
    requires Invariant(s, length) && Reaches(s, length, steps, t)
    ensures Invariant(t, length)
    decreases |steps|
  {
    if steps != [] {
      StepKeepsInvariant(s, length, steps[0]);
      RunKeepsInvariant(After(s, length, steps[0]), length, steps[1..], t);
    }
  }

  // ------------------------------------------------------------------
  // At most `limit` per window
  // ------------------------------------------------------------------

  lemma {:induction false} RankedAccepts(log: seq<Call>, w: nat, limit: nat)
    requires Ranked(log)
    ensures Tally(log, AcceptedOf(w, limit))
         == if Tally(log, OfWindow(w)) <= limit then Tally(log, OfWindow(w)) else limit
    decreases |log|
  {
    if log != [] {
      RankedAccepts(log[..|log| - 1], w, limit);
    }
  }

  /** Main result: however callers interleave and wherever they stop, each window lets through its
      first `limit` calls and no other. */
  lemma WindowLetsThroughItsFirst(now: Time, length: Length, steps: seq<Step>, t: Limiter, w: nat, limit: nat)
    requires Reaches(Fresh(now), length, steps, t)
    ensures Tally(t.log, AcceptedOf(w, limit))
         == if Tally(t.log, OfWindow(w)) <= limit then Tally(t.log, OfWindow(w)) else limit
  {
    RunKeepsInvariant(Fresh(now), length, steps, t);
    RankedAccepts(t.log, w, limit);
  }

  // ------------------------------------------------------------------
  // At most 2 * limit in any interval of one window length
  // ------------------------------------------------------------------

  predicate Inside(c: Call, lo: Time, length: Length) {
    lo <= c.time <= lo + length
  }

  /** Calls of three windows do not fit into one window length: the middle window alone is that long. */
  lemma OnlyTwoWindows(log: seq<Call>, length: Length, lo: Time, i: nat, j: nat, k: nat)
    requires LogInOrder(log, length) && i < |log| && j < |log| && k < |log|
    requires log[i].window < log[j].window
    requires Inside(log[i], lo, length) && Inside(log[j], lo, length) && Inside(log[k], lo, length)
    ensures log[k].window == log[i].window || log[k].window == log[j].window
  {
  }

  ghost predicate Touches(log: seq<Call>, length: Length, lo: Time, v: nat, w: nat) {
    forall k :: 0 <= k < |log| && Inside(log[k], lo, length) ==> log[k].window == v || log[k].window == w
  }

  lemma IntervalTouchesTwoWindows(log: seq<Call>, length: Length, lo: Time) returns (v: nat, w: nat)
    requires LogInOrder(log, length)
    ensures Touches(log, length, lo, v, w)
  {
    if i: nat, j: nat :| i < |log| && j < |log| && Inside(log[i], lo, length) && Inside(log[j], lo, length)
                         && log[i].window < log[j].window {
      v, w := log[i].window, log[j].window;
      forall k | 0 <= k < |log| && Inside(log[k], lo, length)
        ensures log[k].window == v || log[k].window == w
      {
        OnlyTwoWindows(log, length, lo, i, j, k);
      }
    } else if i: nat :| i < |log| && Inside(log[i], lo, length) {
      v, w := log[i].window, log[i].window;
    } else {
      v, w := 0, 0;
    }
  }

  /** Main result: at most 2 * limit calls are let through in any interval of one window length. */
  lemma AtMostTwiceTheLimit(now: Time, length: Length, steps: seq<Step>, t: Limiter, lo: Time, limit: nat)
    requires Reaches(Fresh(now), length, steps, t)
    ensures Tally(t.log, AcceptedBetween(lo, lo + length, limit)) <= 2 * limit
  {
    RunKeepsInvariant(Fresh(now), length, steps, t);
    var v, w := IntervalTouchesTwoWindows(t.log, length, lo);
    forall i | 0 <= i < |t.log| && AcceptedBetween(lo, lo + length, limit)(t.log[i])
      ensures AcceptedOf(v, limit)(t.log[i]) || AcceptedOf(w, limit)(t.log[i])
    {
      assert Inside(t.log[i], lo, length);
    }
    TallySplits(t.log, AcceptedBetween(lo, lo + length, limit), AcceptedOf(v, limit), AcceptedOf(w, limit));
    RankedAccepts(t.log, v, limit);
    RankedAccepts(t.log, w, limit);
  }

  // ------------------------------------------------------------------
  // The bound is met, for every limit
  // ------------------------------------------------------------------

  lemma {:induction false} ReachesSnoc(s: Limiter, length: Length, steps: seq<Step>, t: Limiter, step: Step)
    requires Reaches(s, length, steps, t) && Enabled(t, step)
    ensures Reaches(s, length, steps + [step], After(t, length, step))
    decreases |steps|
  {
    if steps == [] {
      assert Reaches(After(t, length, step), length, [], After(t, length, step));
    } else {
      ReachesSnoc(After(s, length, steps[0]), length, steps[1..], t, step);
      assert (steps + [step])[1..] == steps[1..] + [step];
    }
  }

  /** The state right after a caller has begun a window and set its expiry. */
  predicate JustOpened(s: Limiter, length: Length) {
    s.bucket == Counter(1, Some(s.now + length))
  }

  /** `k` calls were let through between the two instants. */
  ghost predicate LetThrough(s: Limiter, lo: Time, hi: Time, limit: nat, k: nat) {
    Tally(s.log, AcceptedBetween(lo, hi, limit)) == k
  }

  /** One call on a bucket that is missing or past its expiry, followed by its EXPIRE. */
  lemma OpeningCall(s0: Limiter, length: Length, steps: seq<Step>, s: Limiter, lo: Time, hi: Time, limit: nat, k: nat)
    returns (more: seq<Step>, t: Limiter)
    requires Reaches(s0, length, steps, s) && Seen(s.bucket, s.now).Missing?
    requires limit > 0 && lo <= s.now <= hi && LetThrough(s, lo, hi, limit, k)
    ensures Reaches(s0, length, more, t) && JustOpened(t, length) && t.now == s.now
    ensures LetThrough(t, lo, hi, limit, k + 1)
  {
    var a := After(s, length, Incr);
    ReachesSnoc(s0, length, steps, s, Incr);
    ReachesSnoc(s0, length, steps + [Incr], a, Expire);
    more, t := steps + [Incr] + [Expire], After(a, length, Expire);
    TallyAppend(s.log, t.log[|s.log|], AcceptedBetween(lo, hi, limit));
  }

  lemma OneMoreCall(s: Limiter, length: Length, lo: Time, hi: Time, limit: nat, k: nat)
    requires s.bucket.Counter? && s.bucket.expiry == Some(s.now + length) && s.bucket.count < limit
    requires lo <= s.now <= hi && LetThrough(s, lo, hi, limit, k)
    ensures var t := After(s, length, Incr);
      && t.now == s.now && t.bucket == Counter(s.bucket.count + 1, Some(s.now + length))
      && LetThrough(t, lo, hi, limit, k + 1)
  {
    var c := Call(s.now, s.windows, s.began, s.bucket.count + 1);
    assert After(s, length, Incr).log == s.log + [c];
    TallyAppend(s.log, c, AcceptedBetween(lo, hi, limit));
  }

  /** Calls at one instant up to the limit. */
  lemma {:induction false} Burst(s0: Limiter, length: Length, steps: seq<Step>, s: Limiter, lo: Time, hi: Time,
                                 limit: nat, k: nat, n: nat)
    returns (more: seq<Step>, t: Limiter)
    requires Reaches(s0, length, steps, s) && JustOpened(s, length)
    requires n < limit && lo <= s.now <= hi && LetThrough(s, lo, hi, limit, k)
    ensures Reaches(s0, length, more, t) && t.now == s.now
    ensures t.bucket == Counter(n + 1, Some(s.now + length)) && LetThrough(t, lo, hi, limit, k + n)
  {
    if n == 0 {
      more, t := steps, s;
    } else {
      var some, u := Burst(s0, length, steps, s, lo, hi, limit, k, n - 1);
      OneMoreCall(u, length, lo, hi, limit, k + n - 1);
      ReachesSnoc(s0, length, some, u, Incr);
      more, t := some + [Incr], After(u, length, Incr);
    }
  }

  /** Main result: the bound is sharp for every limit: a full window at one instant, and another one
      window length later. */
  lemma TwiceTheLimitIsReached(now: Time, length: Length, limit: nat) returns (steps: seq<Step>, t: Limiter)
    requires limit > 0
    ensures Reaches(Fresh(now), length, steps, t)
    ensures Tally(t.log, AcceptedBetween(now, now + length, limit)) == 2 * limit
  {
    var s, hi := Fresh(now), now + length;
    var steps1, t1 := OpeningCall(s, length, [], s, now, hi, limit, 0);
    var steps2, t2 := Burst(s, length, steps1, t1, now, hi, limit, 1, limit - 1);
    ReachesSnoc(s, length, steps2, t2, Wait(length));
    var later := After(t2, length, Wait(length));
    var steps3, t3 := OpeningCall(s, length, steps2 + [Wait(length)], later, now, hi, limit, limit);
    steps, t := Burst(s, length, steps3, t3, now, hi, limit, limit + 1, limit - 1);
  }

  /** A bucket whose caller has set the expiry lets calls through again one window length later, at the
      latest: the next call begins a new window. */
  lemma BucketReopens(now: Time, length: Length, steps: seq<Step>, s: Limiter, wait: nat, limit: nat)
    requires Reaches(Fresh(now), length, steps, s) && s.pending == 0 && !Stranded(s)
    requires wait >= length && limit > 0
    ensures var t := After(After(s, length, Wait(wait)), length, Incr);
      && t.windows == s.windows + 1
      && |t.log| == |s.log| + 1 && t.log[|s.log|].count == 1 && Accepted(t.log[|s.log|], limit)
  {
    RunKeepsInvariant(Fresh(now), length, steps, s);
    if s.log != [] {
      LastRank(s.log);
    }
  }

  // ------------------------------------------------------------------
  // A caller that stops between INCR and EXPIRE
  // ------------------------------------------------------------------

  /** A counter that nobody will ever give an expiry. */
  predicate Stranded(s: Limiter) {
    s.bucket.Counter? && s.bucket.count >= 1 && s.bucket.expiry.None? && s.pending == 0
  }

  /** `t` extends `s` by calls of the same window only. */
  ghost predicate SameWindowSince(s: Limiter, t: Limiter) {
    && Stranded(s) && Stranded(t)
    && t.windows == s.windows && s.bucket.count <= t.bucket.count
    && |s.log| <= |t.log| && t.log[..|s.log|] == s.log
    && forall i :: |s.log| <= i < |t.log| ==>
         t.log[i].window == s.windows && s.bucket.count < t.log[i].count
  }

  /** From then on the window never ends: whatever happens, the calls still let through are those up
      to the limit of that one window. */
  lemma {:induction false} StrandedForGood(s: Limiter, u: Limiter, length: Length, steps: seq<Step>, t: Limiter)
    requires SameWindowSince(s, u) && Reaches(u, length, steps, t)
    ensures SameWindowSince(s, t)
    decreases |steps|
  {
    if steps != [] {
      var v := After(u, length, steps[0]);
      assert v.log[..|u.log|][..|s.log|] == v.log[..|s.log|];
      StrandedForGood(s, v, length, steps[1..], t);
    }
  }

  ghost predicate NobodyStops(steps: seq<Step>) {
    forall i :: 0 <= i < |steps| ==> !steps[i].Stop?
  }

  lemma {:induction false} OnlyStopsStrand(s: Limiter, length: Length, steps: seq<Step>, t: Limiter)
    requires Invariant(s, length) && !Stranded(s) && Reaches(s, length, steps, t) && NobodyStops(steps)
    ensures !Stranded(t)
    decreases |steps|
  {
    if steps != [] {
      StepKeepsInvariant(s, length, steps[0]);
      OnlyStopsStrand(After(s, length, steps[0]), length, steps[1..], t);
    }
  }

  /** Main result: the counter is given its expiry in every run in which no caller stops between its
      two commands, and once one has, a bucket at its limit never lets a call through again. */
  lemma StoppedCallerClosesTheBucket(now: Time, length: Length, steps: seq<Step>, s: Limiter,
                                     more: seq<Step>, t: Limiter, limit: nat)
    requires Reaches(Fresh(now), length, steps, s) && Reaches(s, length, more, t)
    ensures NobodyStops(steps) ==> !Stranded(s)
    ensures Stranded(s) && limit <= s.bucket.count ==>
              forall i :: |s.log| <= i < |t.log| ==> !Accepted(t.log[i], limit)
  {
    if NobodyStops(steps) {
      OnlyStopsStrand(Fresh(now), length, steps, s);
    }
    if Stranded(s) {
      StrandedForGood(s, s, length, more, t);
    }
  }

  // ------------------------------------------------------------------
  // The limiter as it is called
  // ------------------------------------------------------------------

  /** One bucket key on the server, with the history of the calls made against it. */
  class RateLimiter {
    const length: Length
    var now: Time
    var bucket: Bucket
    ghost var pending: nat
    ghost var windows: nat
    ghost var began: Time
    ghost var log: seq<Call>

    constructor (now: Time, length: Length)
      ensures View() == Fresh(now) && this.length == length
    {
      this.length, this.now, bucket := length, now, Missing;
      pending, windows, began, log := 0, 0, now, [];
    }

    ghost function View(): Limiter
      reads this
    {
      Limiter(now, bucket, pending, windows, began, log)
    }

    method SendIncr() returns (count: nat)
      modifies this
      ensures View() == After(old(View()), length, Incr)
      ensures log == old(log) + [log[|old(log)|]] && log[|old(log)|].count == count
    {
      ghost var t := After(View(), length, Incr);
      bucket := Incremented(Seen(bucket, now));
      count := bucket.count;
      pending, windows, began, log := t.pending, t.windows, t.began, t.log;
    }

    method SendExpire()
      requires pending > 0
      modifies this
      ensures View() == After(old(View()), length, Expire)
    {
      var seen := Seen(bucket, now);
      bucket := if seen.Missing? then Missing else Counter(seen.count, Some(now + length));
      pending := pending - 1;
    }

    /** `check_rate_limit` and `_check_rate_limit`; `stops` is a caller that dies after its INCR. The
        call is let through exactly when the count it saw is within the limit, and leaves a key
        without expiry exactly when it began the window and stopped. */
    method CheckRateLimit(limit: nat, stops: bool) returns (ok: Option<bool>)
      requires Invariant(View(), length)
      modifies this
      ensures Invariant(View(), length) && now == old(now)
      ensures |log| == |old(log)| + 1 && log[..|old(log)|] == old(log)
      ensures ok == if stops then None else Some(Accepted(log[|old(log)|], limit))
      ensures !old(Stranded(View())) ==>
                (Stranded(View()) <==> stops && log[|old(log)|].count == 1)
    {
      var count := SendIncr();
      IncrKeepsInvariant(old(View()), length);
      if stops {
        if count == 1 {
          pending := pending - 1;
        }
        return None;
      }
      if count == 1 {
        SendExpire();
        StepKeepsInvariant(After(old(View()), length, Incr), length, Expire);
      }
      ok := Some(count <= limit);
    }
  }
}
