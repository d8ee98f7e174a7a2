/**
 * The numeric pass of the free-text scrubber: candidates `\+?\d[\d\s().\-]{5,}\d`, found leftmost
 * and greedily, are replaced when they hold at least seven digits. ASCII text.
 */
module NumericRedaction {
  import opened Common

  const REDACTED := "[redacted-number]"

  predicate Digit(c: char) {
    '0' <= c <= '9'
  }

  /** Characters of the class `[\d\s().\-]`. */
  predicate InClass(c: char) {
    Digit(c) || ('\t' <= c <= '\r') || (28 as char <= c <= ' ') || c == '(' || c == ')' || c == '.' || c == '-'
  }

  predicate AllClass(s: string) {
    forall i :: 0 <= i < |s| ==> InClass(s[i])
  }

  function Digits(s: string): nat {
    if s == "" then 0 else (if Digit(s[0]) then 1 else 0) + Digits(s[1..])
  }

  // ------------------------------------------------------------------
  // The pattern
  // ------------------------------------------------------------------

  /** The pattern matches the first `n` characters, `d` of them being the optional plus sign. */
  predicate MatchesFrom(s: string, d: nat, n: nat) {
    && (d == 0 || (d == 1 && s != "" && s[0] == '+'))
    && d + 7 <= n <= |s|
    && Digit(s[d]) && Digit(s[n - 1])
    && AllClass(s[d + 1..n - 1])
  }

  predicate Matches(s: string, n: nat) {
    MatchesFrom(s, 0, n) || MatchesFrom(s, 1, n)
  }

  /** One past the last digit of the class characters that `s` begins with; 0 when there is none. */
  function DigitsEnd(s: string): (n: nat)
    ensures n <= |s|
    ensures n > 0 ==> Digit(s[n - 1])
  {
    if s == "" || !InClass(s[0]) then 0
    else
      var rest := DigitsEnd(s[1..]);
      if rest > 0 then rest + 1 else if Digit(s[0]) then 1 else 0
  }

  /** Length of the greedy match at the start of `s`. */
  function Match(s: string): (n: Option<nat>)
    ensures n.Some? ==> 7 <= n.value <= |s|
  {
    var d := if s != "" && s[0] == '+' then 1 else 0;
    if d < |s| && Digit(s[d]) && DigitsEnd(s[d..]) >= 7 then Some(d + DigitsEnd(s[d..])) else None
  }

  lemma {:induction false} DigitsEndIsLast(s: string, n: nat)
    requires 0 < n <= |s| && AllClass(s[..n]) && Digit(s[n - 1])
    ensures n <= DigitsEnd(s)
  {
    if n > 1 {
      assert s[..n][0] == s[0] && s[1..][..n - 1] == s[..n][1..];
      DigitsEndIsLast(s[1..], n - 1);
    } else {
      assert s[..n][0] == s[0];
    }
  }

  lemma {:induction false} DigitsEndInClass(s: string)
    ensures AllClass(s[..DigitsEnd(s)])
  {
    if s != "" && InClass(s[0]) {
      DigitsEndInClass(s[1..]);
      if DigitsEnd(s[1..]) > 0 {
        assert s[..DigitsEnd(s)] == [s[0]] + s[1..][..DigitsEnd(s[1..])];
      }
    }
  }

  lemma FoundMatches(s: string, d: nat)
    requires d == 0 || (d == 1 && s != "" && s[0] == '+')
    requires d < |s| && Digit(s[d]) && DigitsEnd(s[d..]) >= 7
    ensures MatchesFrom(s, d, d + DigitsEnd(s[d..]))
  {
    var t, n := s[d..], d + DigitsEnd(s[d..]);
    DigitsEndInClass(t);
    var middle := s[d + 1..n - 1];
    forall i | 0 <= i < |middle|
      ensures InClass(middle[i])
    {
      assert t[..n - d][i + 1] == middle[i];
    }
  }

  lemma MatchIsFound(s: string, d: nat, n: nat)
    requires MatchesFrom(s, d, n)
    ensures n - d <= DigitsEnd(s[d..])
  {
    var t := s[d..];
    var token := t[..n - d];
    forall i | 0 <= i < |token|
      ensures InClass(token[i])
    {
      assert 0 < i < n - d - 1 ==> t[i] == s[d + 1..n - 1][i - 1];
    }
    DigitsEndIsLast(t, n - d);
  }

  /** Main result: the scanner finds a match exactly when the pattern has one, and the longest. */
  lemma MatchIsLongest(s: string, n: nat)
    ensures Match(s) == Some(n) ==> Matches(s, n)
    ensures Matches(s, n) ==> Match(s).Some? && n <= Match(s).value
  {
    var d := if s != "" && s[0] == '+' then 1 else 0;
    if Match(s) == Some(n) {
      FoundMatches(s, d);
    }
    if Matches(s, n) {
      MatchIsFound(s, d, n);
    }
  }

  // ------------------------------------------------------------------
  // The substitution
  // ------------------------------------------------------------------

  /** `_redact_numeric`. */
  function RedactNumeric(token: string): string {
    if Digits(token) >= 7 then REDACTED else token
  }

  /** The pattern's `sub`: leftmost matches, each replaced, scanning on after it. */
  function Scrub(s: string): string
    decreases |s|
  {
    if s == "" then ""
    else if Match(s).Some? then RedactNumeric(s[..Match(s).value]) + Scrub(s[Match(s).value..])
    else [s[0]] + Scrub(s[1..])
  }

  lemma ScrubMatched(s: string)
    requires s != "" && Match(s).Some?
    ensures Scrub(s) == RedactNumeric(s[..Match(s).value]) + Scrub(s[Match(s).value..])
  {
  }

  /** `scrub_free_text` restricted to its last pass: nothing and the empty text are returned as they are. */
  function ScrubFreeText(value: Option<string>): Option<string> {
    if value.None? || value.value == "" then value else Some(Scrub(value.value))
  }

  // ------------------------------------------------------------------
  // Runs
  // ------------------------------------------------------------------

  /** Digits among the class characters that `s` begins with. */
  function Lead(s: string): nat {
    if s == "" || !InClass(s[0]) then 0 else (if Digit(s[0]) then 1 else 0) + Lead(s[1..])
  }

  /** No run of digits and separators holds seven digits. */
  ghost predicate Clean(s: string) {
    forall i, j :: 0 <= i <= j <= |s| && AllClass(s[i..j]) ==> Digits(s[i..j]) < 7
  }

  /** The same, one position at a time. */
  predicate CleanFrom(s: string) {
    s == "" || (Lead(s) < 7 && CleanFrom(s[1..]))
  }

  lemma {:induction false} LeadCounts(s: string, n: nat)
    requires n <= |s| && AllClass(s[..n])
    ensures Digits(s[..n]) + Lead(s[n..]) == Lead(s)
  {
    if n > 0 {
      assert s[..n][0] == s[0] && s[..n][1..] == s[1..][..n - 1] && s[1..][n - 1..] == s[n..];
      LeadCounts(s[1..], n - 1);
    } else {
      assert s[0..] == s;
    }
  }

  /** The run at the start of `s`. */
  function RunLength(s: string): (n: nat)
    ensures n <= |s|
  {
    if s == "" || !InClass(s[0]) then 0 else 1 + RunLength(s[1..])
  }

  lemma {:induction false} LeadIsTheRunsDigits(s: string)
    ensures AllClass(s[..RunLength(s)]) && Digits(s[..RunLength(s)]) == Lead(s)
  {
    if s != "" && InClass(s[0]) {
      LeadIsTheRunsDigits(s[1..]);
      var n := RunLength(s);
      assert s[..n] == [s[0]] + s[1..][..n - 1];
      assert s[..n][1..] == s[1..][..n - 1];
    }
  }

  lemma {:induction false} CleanFromAt(s: string, i: nat)
    requires CleanFrom(s) && i < |s|
    ensures Lead(s[i..]) < 7
  {
    if i > 0 {
      assert s[1..][i - 1..] == s[i..];
      CleanFromAt(s[1..], i - 1);
    } else {
      assert s[0..] == s;
    }
  }

  lemma CleanFromImpliesClean(s: string)
    requires CleanFrom(s)
    ensures Clean(s)
  {
    forall i, j | 0 <= i <= j <= |s| && AllClass(s[i..j])
      ensures Digits(s[i..j]) < 7
    {
      if i < |s| {
        CleanFromAt(s, i);
        assert s[i..][..j - i] == s[i..j];
        LeadCounts(s[i..], j - i);
      }
    }
  }

  lemma {:induction false} CleanImpliesCleanFrom(s: string)
    requires Clean(s)
    ensures CleanFrom(s)
  {
    if s != "" {
      LeadIsTheRunsDigits(s);
      assert s[0..RunLength(s)] == s[..RunLength(s)];
      CleanTail(s);
      CleanImpliesCleanFrom(s[1..]);
    }
  }

  lemma CleanTail(s: string)
    requires Clean(s) && s != ""
    ensures Clean(s[1..])
  {
    forall i, j | 0 <= i <= j <= |s[1..]| && AllClass(s[1..][i..j])
      ensures Digits(s[1..][i..j]) < 7
    {
      assert s[1..][i..j] == s[i + 1..j + 1];
    }
  }

  // ------------------------------------------------------------------
  // The output is clean
  // ------------------------------------------------------------------

  lemma {:induction false} NoDigitsAfterEnd(s: string)
    ensures Lead(s[DigitsEnd(s)..]) == 0
    ensures DigitsEnd(s) == 0 ==> Lead(s) == 0
    ensures Lead(s) <= DigitsEnd(s)
  {
    if s != "" && InClass(s[0]) {
      NoDigitsAfterEnd(s[1..]);
      var rest := DigitsEnd(s[1..]);
      if rest > 0 {
        assert s[1..][rest..] == s[rest + 1..];
      } else {
        assert s[1..][0..] == s[1..] && s[0..] == s;
      }
    } else {
      assert s[0..] == s;
    }
  }

  /** A greedy token takes all the digits of its run. */
  lemma TokenTakesTheRun(t: string)
    requires DigitsEnd(t) > 0
    ensures Lead(t[DigitsEnd(t)..]) == 0
    ensures AllClass(t[..DigitsEnd(t)]) && Lead(t) == Digits(t[..DigitsEnd(t)])
  {
    NoDigitsAfterEnd(t);
    DigitsEndInClass(t);
    LeadCounts(t, DigitsEnd(t));
  }

  lemma PlusMatchTakesTheRun(s: string)
    requires Match(s).Some? && s[0] == '+'
    ensures Lead(s[Match(s).value..]) == 0
    ensures AllClass(s[1..Match(s).value]) && Lead(s[1..]) == Digits(s[1..Match(s).value])
    ensures Digits(s[..Match(s).value]) == Digits(s[1..Match(s).value])
  {
    var t, n := s[1..], Match(s).value;
    assert n == 1 + DigitsEnd(t);
    TokenTakesTheRun(t);
    assert t[n - 1..] == s[n..];
    assert t[..n - 1] == s[1..n];
    assert s[..n][1..] == s[1..n];
  }

  lemma PlainMatch(s: string)
    requires Match(s).Some? && s[0] != '+'
    ensures Match(s).value == DigitsEnd(s)
  {
    assert s[0..] == s;
  }

  /** What a match takes of the run it is in: all its digits, and the plus sign in front if there is one. */
  lemma MatchTakesTheRun(s: string)
    requires Match(s).Some?
    ensures Lead(s[Match(s).value..]) == 0
    ensures s[0] != '+' ==> AllClass(s[..Match(s).value]) && Lead(s) == Digits(s[..Match(s).value])
  {
    if s[0] == '+' {
      PlusMatchTakesTheRun(s);
    } else {
      PlainMatch(s);
      TokenTakesTheRun(s);
    }
  }

  /** Scrubbing never lengthens the run a text begins with. */
  lemma {:induction false} ScrubLead(s: string)
    ensures Lead(Scrub(s)) <= Lead(s)
    decreases |s|
  {
    if s != "" {
      if Match(s).Some? {
        var n := Match(s).value;
        MatchTakesTheRun(s);
        ScrubLead(s[n..]);
        if Digits(s[..n]) < 7 && s[0] != '+' {
          Prepend(s[..n], Scrub(s[n..]));
        }
      } else {
        ScrubLead(s[1..]);
        assert Scrub(s)[1..] == Scrub(s[1..]);
      }
    }
  }

  /** The run of `u + v` when `u` is all one run. */
  lemma Prepend(u: string, v: string)
    requires AllClass(u)
    ensures Lead(u + v) == Digits(u) + Lead(v)
  {
    assert (u + v)[..|u|] == u && (u + v)[|u|..] == v;
    LeadCounts(u + v, |u|);
  }

  lemma {:induction false} PrependClean(u: string, v: string)
    requires CleanFrom(v) && AllClass(u) && Digits(u) + Lead(v) < 7
    ensures CleanFrom(u + v)
  {
    if u == "" {
      assert u + v == v;
    } else {
      Prepend(u, v);
      assert (u + v)[1..] == u[1..] + v;
      PrependClean(u[1..], v);
    }
  }

  lemma RedactedIsInert(v: string)
    requires CleanFrom(v)
    ensures CleanFrom(REDACTED + v)
  {
    PrependOther("number]", v);
    PrependOther("[redacted", "-" + ("number]" + v));
    assert REDACTED + v == "[redacted" + ("-" + ("number]" + v));
  }

  lemma {:induction false} PrependOther(u: string, v: string)
    requires CleanFrom(v) && forall i :: 0 <= i < |u| ==> !InClass(u[i])
    ensures CleanFrom(u + v)
  {
    if u == "" {
      assert u + v == v;
    } else {
      assert (u + v)[1..] == u[1..] + v;
      PrependOther(u[1..], v);
    }
  }

  lemma {:induction false} ScrubIsCleanFrom(s: string)
    ensures CleanFrom(Scrub(s))
    decreases |s|
  {
    if s != "" {
      if Match(s).Some? {
        var n := Match(s).value;
        ScrubIsCleanFrom(s[n..]);
        if Digits(s[..n]) >= 7 {
          RedactedIsInert(Scrub(s[n..]));
        } else {
          TokenKeptIsClean(s);
        }
      } else {
        ScrubIsCleanFrom(s[1..]);
        CharacterKeptIsClean(s);
      }
    }
  }

  lemma TokenKeptIsClean(s: string)
    requires Match(s).Some? && Digits(s[..Match(s).value]) < 7 && CleanFrom(Scrub(s[Match(s).value..]))
    ensures CleanFrom(s[..Match(s).value] + Scrub(s[Match(s).value..]))
  {
    var n := Match(s).value;
    MatchTakesTheRun(s);
    ScrubLead(s[n..]);
    if s[0] == '+' {
      PlusMatchTakesTheRun(s);
      PlusTokenIsClean(s[..n], Scrub(s[n..]));
    } else {
      PrependClean(s[..n], Scrub(s[n..]));
    }
  }

  lemma PlusTokenIsClean(token: string, v: string)
    requires token != "" && token[0] == '+' && AllClass(token[1..]) && Digits(token) + Lead(v) < 7 && CleanFrom(v)
    ensures CleanFrom(token + v)
  {
    assert Digits(token) == Digits(token[1..]);
    PrependClean(token[1..], v);
    PlusInFront(token, v);
  }

  lemma PlusInFront(token: string, v: string)
    requires token != "" && token[0] == '+' && CleanFrom(token[1..] + v)
    ensures CleanFrom(token + v)
  {
    assert (token + v)[0] == '+' && (token + v)[1..] == token[1..] + v;
  }

  lemma CharacterKeptIsClean(s: string)
    requires s != "" && Match(s).None? && CleanFrom(Scrub(s[1..]))
    ensures CleanFrom([s[0]] + Scrub(s[1..]))
  {
    var v := Scrub(s[1..]);
    assert ([s[0]] + v)[1..] == v;
    ScrubLead(s[1..]);
    assert s[0..] == s;
    NoDigitsAfterEnd(s);
    assert v == "" || Lead(v) < 7;
  }

  /** Main result: in the scrubbed text no run of digits and separators holds seven digits. */
  lemma ScrubbedIsClean(s: string)
    ensures Clean(Scrub(s))
  {
    ScrubIsCleanFrom(s);
    CleanFromImpliesClean(Scrub(s));
  }

  // ------------------------------------------------------------------
  // Clean text is left alone
  // ------------------------------------------------------------------

  lemma CleanTokenIsKept(s: string)
    requires CleanFrom(s) && Match(s).Some?
    ensures RedactNumeric(s[..Match(s).value]) == s[..Match(s).value]
  {
    MatchTakesTheRun(s);
    if s[0] == '+' {
      PlusMatchTakesTheRun(s);
    }
  }

  lemma ScrubKeepsToken(s: string, n: nat)
    requires CleanFrom(s) && Match(s) == Some(n) && Scrub(s[n..]) == s[n..]
    ensures Scrub(s) == s
  {
    CleanTokenIsKept(s);
    ScrubMatched(s);
    Halves(s, n);
  }

  lemma Halves(s: string, n: nat)
    requires n <= |s|
    ensures s[..n] + s[n..] == s
  {
  }

  lemma {:induction false} ScrubKeepsClean(s: string)
    requires CleanFrom(s)
    ensures Scrub(s) == s
    decreases |s|
  {
    if s != "" {
      if Match(s).Some? {
        CleanFromSuffix(s, Match(s).value);
        ScrubKeepsClean(s[Match(s).value..]);
        ScrubKeepsToken(s, Match(s).value);
      } else {
        ScrubKeepsClean(s[1..]);
        assert [s[0]] + s[1..] == s;
      }
    }
  }

  lemma {:induction false} CleanFromSuffix(s: string, n: nat)
    requires CleanFrom(s) && n <= |s|
    ensures CleanFrom(s[n..])
  {
    if n > 0 {
      assert s[1..][n - 1..] == s[n..];
      CleanFromSuffix(s[1..], n - 1);
    } else {
      assert s[0..] == s;
    }
  }

  /** Main result: the pass changes a text exactly when some run in it holds seven digits. */
  lemma ScrubChangesOnlyLongRuns(s: string)
    ensures Scrub(s) == s <==> Clean(s)
  {
    ScrubbedIsClean(s);
    if Clean(s) {
      CleanImpliesCleanFrom(s);
      ScrubKeepsClean(s);
    }
  }

  /** Main result: the pass is idempotent. */
  lemma ScrubIsIdempotent(value: Option<string>)
    ensures ScrubFreeText(ScrubFreeText(value)) == ScrubFreeText(value)
  {
    if value.Some? && value.value != "" {
      ScrubbedIsClean(value.value);
      ScrubChangesOnlyLongRuns(Scrub(value.value));
    }
  }

  // ------------------------------------------------------------------
  // Runs are redacted independently
  // ------------------------------------------------------------------

  lemma {:induction false} DigitsEndStops(u: string, c: char, v: string)
    requires !InClass(c)
    ensures DigitsEnd(u + [c] + v) == DigitsEnd(u)
  {
    if u != "" {
      assert (u + [c] + v)[1..] == u[1..] + [c] + v;
      DigitsEndStops(u[1..], c, v);
    }
  }

  lemma MatchStops(u: string, c: char, v: string)
    requires !InClass(c) && c != '+' && u != ""
    ensures Match(u + [c] + v) == Match(u)
  {
    var t := u + [c] + v;
    if u[0] == '+' {
      assert t[1..] == u[1..] + [c] + v;
      DigitsEndStops(u[1..], c, v);
    } else {
      assert t[0..] == t && u[0..] == u;
      DigitsEndStops(u, c, v);
    }
  }

  lemma Regroup(a: string, b: string, c: string, d: string)
    ensures a + (b + c + d) == (a + b) + c + d
  {
  }

  /** Main result: around a character that is neither a separator, a digit nor a plus sign, the two
      sides are scrubbed as if they stood alone. */
  lemma {:induction false} ScrubSplits(u: string, c: char, v: string)
    requires !InClass(c) && c != '+'
    ensures Scrub(u + [c] + v) == Scrub(u) + [c] + Scrub(v)
    decreases |u|, 1
  {
    var t := u + [c] + v;
    if u == "" {
      assert t[1..] == v && t[0] == c && Match(t).None?;
    } else {
      MatchStops(u, c, v);
      if Match(u).Some? {
        SplitAfterMatch(u, c, v);
      } else {
        SplitAfterCharacter(u, c, v);
      }
    }
  }

  lemma {:induction false} SplitAfterMatch(u: string, c: char, v: string)
    requires !InClass(c) && c != '+' && u != "" && Match(u).Some? && Match(u + [c] + v) == Match(u)
    ensures Scrub(u + [c] + v) == Scrub(u) + [c] + Scrub(v)
    decreases |u|, 0
  {
    var t, n := u + [c] + v, Match(u).value;
    ScrubMatched(t);
    ScrubMatched(u);
    assert t[..n] == u[..n] && t[n..] == u[n..] + [c] + v;
    ScrubSplits(u[n..], c, v);
    Regroup(RedactNumeric(u[..n]), Scrub(u[n..]), [c], Scrub(v));
  }

  lemma {:induction false} SplitAfterCharacter(u: string, c: char, v: string)
    requires !InClass(c) && c != '+' && u != "" && Match(u).None? && Match(u + [c] + v) == Match(u)
    ensures Scrub(u + [c] + v) == Scrub(u) + [c] + Scrub(v)
    decreases |u|, 0
  {
    var t := u + [c] + v;
    assert t[1..] == u[1..] + [c] + v;
    ScrubSplits(u[1..], c, v);
    Regroup([u[0]], Scrub(u[1..]), [c], Scrub(v));
  }

  lemma {:induction false} RunLead(w: string)
    requires AllClass(w)
    ensures Lead(w) == Digits(w)
  {
    if w != "" {
      RunLead(w[1..]);
    }
  }

  lemma DigitFreeIsKept(w: string)
    requires AllClass(w) && Lead(w) == 0
    ensures Digits(w) == 0 && Scrub(w) == w
  {
  }

  /** Everything from the first to the last digit of the run `w` is replaced, and nothing else. */
  predicate RedactedBetween(w: string, a: nat, b: nat) {
    && a < b <= |w| && Digit(w[a]) && Digit(w[b - 1])
    && Digits(w[..a]) == 0 && Digits(w[b..]) == 0
    && Scrub(w) == w[..a] + "[redacted-number]" + w[b..]
  }

  lemma RunMatchesToItsLastDigit(w: string)
    requires AllClass(w) && Digits(w) >= 7 && Digit(w[0])
    ensures Match(w) == Some(DigitsEnd(w)) && Digits(w[..DigitsEnd(w)]) >= 7
    ensures Scrub(w[DigitsEnd(w)..]) == w[DigitsEnd(w)..] && Digits(w[DigitsEnd(w)..]) == 0
  {
    RunEnd(w);
    MatchFromDigit(w);
    RestOfRun(w, DigitsEnd(w));
    DigitFreeIsKept(w[DigitsEnd(w)..]);
  }

  lemma RunEnd(w: string)
    requires AllClass(w) && Digits(w) >= 7
    ensures DigitsEnd(w) >= 7 && Digits(w[..DigitsEnd(w)]) == Digits(w)
    ensures Lead(w[DigitsEnd(w)..]) == 0
  {
    RunLead(w);
    NoDigitsAfterEnd(w);
    TokenTakesTheRun(w);
  }

  lemma MatchFromDigit(w: string)
    requires w != "" && Digit(w[0]) && DigitsEnd(w) >= 7
    ensures Match(w) == Some(DigitsEnd(w))
  {
    assert w[0..] == w;
  }

  lemma RestOfRun(w: string, n: nat)
    requires AllClass(w) && n <= |w|
    ensures AllClass(w[n..])
  {
  }

  lemma RunFromDigit(w: string)
    requires AllClass(w) && Digits(w) >= 7 && Digit(w[0])
    ensures RedactedBetween(w, 0, DigitsEnd(w))
  {
    RunMatchesToItsLastDigit(w);
    ScrubMatched(w);
    assert w[..0] + REDACTED == REDACTED;
  }

  lemma RunFromSeparator(w: string, a: nat, b: nat)
    requires AllClass(w) && w != "" && !Digit(w[0]) && RedactedBetween(w[1..], a, b)
    ensures RedactedBetween(w, a + 1, b + 1)
  {
    assert w[..a + 1][1..] == w[1..][..a] && w[b + 1..] == w[1..][b..];
    assert w[..a + 1] == [w[0]] + w[1..][..a];
    Regroup([w[0]], w[1..][..a], REDACTED, w[b + 1..]);
  }

  /** Main result: a run with seven digits or more keeps its outer separators and has everything from
      its first to its last digit replaced. */
  lemma {:induction false} LongRunIsRedacted(w: string) returns (a: nat, b: nat)
    requires AllClass(w) && Digits(w) >= 7
    ensures RedactedBetween(w, a, b)
    decreases |w|
  {
    if Digit(w[0]) {
      RunFromDigit(w);
      a, b := 0, DigitsEnd(w);
    } else {
      a, b := LongRunIsRedacted(w[1..]);
      RunFromSeparator(w, a, b);
      a, b := a + 1, b + 1;
    }
  }

  lemma PlusMatch(s: string)
    requires s != "" && s[0] == '+' && s[1..] != "" && Digit(s[1]) && DigitsEnd(s[1..]) >= 7
    ensures Match(s) == Some(1 + DigitsEnd(s[1..]))
  {
  }

  /** A plus sign in front of such a run goes with it. */
  lemma PlusIsRedacted(s: string)
    requires s != "" && s[0] == '+' && AllClass(s[1..]) && Digits(s[1..]) >= 7 && Digit(s[1])
    ensures Scrub(s) == "[redacted-number]" + s[1 + DigitsEnd(s[1..])..]
  {
    var w, n := s[1..], 1 + DigitsEnd(s[1..]);
    RunMatchesToItsLastDigit(w);
    PlusMatch(s);
    PlusMatchTakesTheRun(s);
    assert s[1..n] == w[..n - 1] && s[n..] == w[n - 1..];
    ScrubMatched(s);
  }

  /** The ASCII characters a run may consist of: digits, white space, dots, hyphens and parentheses. */
  lemma RunCharacters(c: char)
    requires c as int < 128
    ensures InClass(c)
       <==> '0' <= c <= '9' || c == ' ' || c == '.' || c == '-' || c == '(' || c == ')'
            || 9 <= c as int <= 13 || 28 <= c as int <= 31
  {
  }

  /** Free text leaves the scrubber clean, or not at all. */
  lemma FreeTextLeavesClean(value: Option<string>)
    ensures ScrubFreeText(value).Some? <==> value.Some?
    ensures value.Some? ==> Clean(ScrubFreeText(value).value)
    ensures value.Some? && Clean(value.value) ==> ScrubFreeText(value) == value
  {
    if value.Some? {
      ScrubbedIsClean(value.value);
      ScrubChangesOnlyLongRuns(value.value);
    }
  }
}
