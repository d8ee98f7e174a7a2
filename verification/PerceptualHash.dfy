/** Hamming distance between perceptual hashes, and the image signal built on it. */
module PerceptualHash {
  import opened Common

  const PHASH_PERFECT: nat := 10
  const PHASH_ZERO: nat := 30

  function DigitValue(c: char): Option<nat> {
    if '0' <= c <= '9' then Some(c as nat - '0' as nat)
    else if 'a' <= c <= 'f' then Some(c as nat - 'a' as nat + 10)
    else if 'A' <= c <= 'F' then Some(c as nat - 'A' as nat + 10)
    else None
  }

  /** Sixteen digits, the last six in either case; no other character is one. */
  lemma DigitValueMeaning(c: char, k: nat)
    ensures k < 10 ==> (DigitValue(c) == Some(k) <==> c as int == '0' as int + k)
    ensures 10 <= k < 16 ==>
              (DigitValue(c) == Some(k) <==> c as int == 'a' as int + k - 10 || c as int == 'A' as int + k - 10)
    ensures k >= 16 ==> DigitValue(c) != Some(k)
  {
  }

  predicate IsHex(s: string) {
    s != "" && forall i :: 0 <= i < |s| ==> DigitValue(s[i]).Some?
  }

  /** Base-16 value of the first digits; the empty prefix is zero. */
  function ParseHex(s: string): nat
    requires forall i :: 0 <= i < |s| ==> DigitValue(s[i]).Some?
  {
    if s == "" then 0 else 16 * ParseHex(s[..|s| - 1]) + DigitValue(s[|s| - 1]).value
  }

  /** Exclusive or of the binary expansions. */
  function Xor(a: nat, b: nat): nat
    decreases a + b
  {
    if a == 0 && b == 0 then 0 else 2 * Xor(a / 2, b / 2) + (a + b) % 2
  }

  /** Number of one bits. */
  function PopCount(n: nat): nat {
    if n == 0 then 0 else PopCount(n / 2) + n % 2
  }

  /** Hashes of different lengths are treated as far apart; a hash that is not hexadecimal is a
      ValueError. */
  function HammingDistance(a: string, b: string): Result<nat, ()> {
    if |a| != |b| then Ok(4 * |a|)
    else if IsHex(a) && IsHex(b) then Ok(PopCount(Xor(ParseHex(a), ParseHex(b))))
    else Err(())
  }

  /** Independent definition: the differing bits of each digit, added up. */
  function DigitDistance(a: string, b: string): nat
    requires |a| == |b|
    requires forall i :: 0 <= i < |a| ==> DigitValue(a[i]).Some? && DigitValue(b[i]).Some?
  {
    if a == "" then 0
    else
      var n := |a| - 1;
      DigitDistance(a[..n], b[..n]) + PopCount(Xor(DigitValue(a[n]).value, DigitValue(b[n]).value))
  }

  function Differ(i: nat, j: nat): nat {
    if i == j then 0 else 1
  }

  lemma LowBit(a: nat, x: nat, i: nat)
    requires i < 2 && a == 2 * x + i
    ensures a / 2 == x && a % 2 == i
  {
  }

  lemma BitSum(a: nat, b: nat)
    ensures (a + b) % 2 == Differ(a % 2, b % 2)
  {
    LowBit(a, a / 2, a % 2);
    LowBit(b, b / 2, b % 2);
    var carry := if a % 2 == 1 && b % 2 == 1 then 1 else 0;
    LowBit(a + b, a / 2 + b / 2 + carry, Differ(a % 2, b % 2));
  }

  lemma XorHalves(a: nat, b: nat)
    ensures Xor(a, b) == 2 * Xor(a / 2, b / 2) + (a + b) % 2
  {
    assert Xor(0, 0) == 0;
  }

  lemma XorBit(a: nat, b: nat, x: nat, y: nat, i: nat, j: nat)
    requires i < 2 && j < 2 && a == 2 * x + i && b == 2 * y + j
    ensures Xor(a, b) == 2 * Xor(x, y) + Differ(i, j)
  {
    LowBit(a, x, i);
    LowBit(b, y, j);
    XorHalves(a, b);
    BitSum(a, b);
  }

  /** Value of the exclusive or of two four-bit digits given by their bits. */
  function XorBits(d: (nat, nat, nat, nat), e: (nat, nat, nat, nat)): nat {
    8 * Differ(d.0, e.0) + 4 * Differ(d.1, e.1) + 2 * Differ(d.2, e.2) + Differ(d.3, e.3)
  }

  predicate AreBits(d: (nat, nat, nat, nat)) {
    d.0 < 2 && d.1 < 2 && d.2 < 2 && d.3 < 2
  }

  function FromBits(d: (nat, nat, nat, nat)): nat {
    8 * d.0 + 4 * d.1 + 2 * d.2 + d.3
  }

  function Bits(d: nat): (b: (nat, nat, nat, nat))
    requires d < 16
    ensures AreBits(b) && FromBits(b) == d
  {
    (d / 8, d / 4 % 2, d / 2 % 2, d % 2)
  }

  lemma XorTwoBits(a: nat, b: nat, x: nat, y: nat, i: nat, j: nat, k: nat, l: nat)
    requires i < 2 && j < 2 && k < 2 && l < 2
    requires a == 4 * x + 2 * i + k && b == 4 * y + 2 * j + l
    ensures Xor(a, b) == 4 * Xor(x, y) + 2 * Differ(i, j) + Differ(k, l)
  {
    var u, v := 2 * x + i, 2 * y + j;
    XorBit(u, v, x, y, i, j);
    XorBit(a, b, u, v, k, l);
  }

  lemma XorFourBits(a: nat, b: nat, x: nat, y: nat, d: (nat, nat, nat, nat), e: (nat, nat, nat, nat))
    requires AreBits(d) && AreBits(e) && a == 16 * x + FromBits(d) && b == 16 * y + FromBits(e)
    ensures Xor(a, b) == 16 * Xor(x, y) + XorBits(d, e)
  {
    var u, v := 4 * x + 2 * d.0 + d.1, 4 * y + 2 * e.0 + e.1;
    XorTwoBits(u, v, x, y, d.0, e.0, d.1, e.1);
    XorTwoBits(a, b, u, v, d.2, e.2, d.3, e.3);
  }

  lemma XorDigit(a: nat, b: nat, x: nat, y: nat, d: nat, e: nat)
    requires d < 16 && e < 16 && a == 16 * x + d && b == 16 * y + e
    ensures Xor(a, b) == 16 * Xor(x, y) + Xor(d, e)
    ensures Xor(d, e) < 16
  {
    XorFourBits(a, b, x, y, Bits(d), Bits(e));
    XorFourBits(d, e, 0, 0, Bits(d), Bits(e));
  }

  lemma PopBit(n: nat, x: nat, i: nat)
    requires i < 2 && n == 2 * x + i
    ensures PopCount(n) == PopCount(x) + i
  {
  }

  lemma PopTwoBits(n: nat, x: nat, i: nat, j: nat)
    requires i < 2 && j < 2 && n == 4 * x + 2 * i + j
    ensures PopCount(n) == PopCount(x) + i + j
  {
    PopBit(2 * x + i, x, i);
    PopBit(n, 2 * x + i, j);
  }

  lemma PopFourBits(n: nat, x: nat, d: (nat, nat, nat, nat))
    requires AreBits(d) && n == 16 * x + FromBits(d)
    ensures PopCount(n) == PopCount(x) + d.0 + d.1 + d.2 + d.3
  {
    var u := 4 * x + 2 * d.0 + d.1;
    PopTwoBits(u, x, d.0, d.1);
    PopTwoBits(n, u, d.2, d.3);
  }

  lemma PopDigit(n: nat, x: nat, d: nat)
    requires d < 16 && n == 16 * x + d
    ensures PopCount(n) == PopCount(x) + PopCount(d)
    ensures PopCount(d) <= 4
  {
    PopFourBits(n, x, Bits(d));
    PopFourBits(d, 0, Bits(d));
  }

  /** The integer XOR of two hashes of any equal length counts the same bits as going digit by
      digit. */
  lemma {:induction false} HammingIsDigitwise(a: string, b: string)
    requires |a| == |b| && forall i :: 0 <= i < |a| ==> DigitValue(a[i]).Some? && DigitValue(b[i]).Some?
    ensures PopCount(Xor(ParseHex(a), ParseHex(b))) == DigitDistance(a, b)
    decreases |a|
  {
    if a != "" {
      var n := |a| - 1;
      HammingIsDigitwise(a[..n], b[..n]);
      var d, e := DigitValue(a[n]).value, DigitValue(b[n]).value;
      var x, y := ParseHex(a[..n]), ParseHex(b[..n]);
      XorDigit(ParseHex(a), ParseHex(b), x, y, d, e);
      PopDigit(Xor(ParseHex(a), ParseHex(b)), Xor(x, y), Xor(d, e));
    }
  }

  lemma {:induction false} XorSymmetric(a: nat, b: nat)
    ensures Xor(a, b) == Xor(b, a)
    decreases a + b
  {
    if a + b > 0 {
      XorSymmetric(a / 2, b / 2);
    }
  }

  lemma {:induction false} XorZero(a: nat, b: nat)
    ensures Xor(a, b) == 0 <==> a == b
    decreases a + b
  {
    if a + b > 0 {
      XorZero(a / 2, b / 2);
    }
  }

  lemma {:induction false} PopZero(n: nat)
    ensures PopCount(n) == 0 <==> n == 0
  {
    if n > 0 {
      PopZero(n / 2);
    }
  }

  lemma {:induction false} XorTriangle(a: nat, b: nat, c: nat)
    ensures PopCount(Xor(a, c)) <= PopCount(Xor(a, b)) + PopCount(Xor(b, c))
    decreases a + b + c
  {
    if a + b + c > 0 {
      XorTriangle(a / 2, b / 2, c / 2);
      PopXorHalf(a, c, a / 2, c / 2, a % 2, c % 2);
      PopXorHalf(a, b, a / 2, b / 2, a % 2, b % 2);
      PopXorHalf(b, c, b / 2, c / 2, b % 2, c % 2);
    }
  }

  lemma PopXorHalf(a: nat, b: nat, x: nat, y: nat, i: nat, j: nat)
    requires i < 2 && j < 2 && a == 2 * x + i && b == 2 * y + j
    ensures PopCount(Xor(a, b)) == PopCount(Xor(x, y)) + Differ(i, j)
  {
    XorBit(a, b, x, y, i, j);
    PopBit(Xor(a, b), Xor(x, y), Differ(i, j));
  }

  lemma LastDigit(x: nat, y: nat, d: nat, e: nat)
    requires d < 16 && e < 16
    ensures 16 * x + d == 16 * y + e <==> x == y && d == e
  {
  }

  lemma {:induction false} ParseInjective(a: string, b: string)
    requires |a| == |b| && forall i :: 0 <= i < |a| ==> DigitValue(a[i]).Some? && DigitValue(b[i]).Some?
    ensures ParseHex(a) == ParseHex(b) <==> forall i :: 0 <= i < |a| ==> DigitValue(a[i]) == DigitValue(b[i])
    decreases |a|
  {
    if a != "" {
      var n := |a| - 1;
      ParseInjective(a[..n], b[..n]);
      LastDigit(ParseHex(a[..n]), ParseHex(b[..n]), DigitValue(a[n]).value, DigitValue(b[n]).value);
      assert forall i :: 0 <= i < n ==> a[..n][i] == a[i] && b[..n][i] == b[i];
    }
  }

  /** On hexadecimal hashes of one length the distance is a metric; distance zero means the same
      digits, up to letter case. */
  lemma HammingIsMetric(a: string, b: string, c: string)
    requires IsHex(a) && IsHex(b) && IsHex(c) && |a| == |b| == |c|
    ensures HammingDistance(a, b) == HammingDistance(b, a)
    ensures HammingDistance(a, b) == Ok(0) <==> forall i :: 0 <= i < |a| ==> DigitValue(a[i]) == DigitValue(b[i])
    ensures HammingDistance(a, c).value <= HammingDistance(a, b).value + HammingDistance(b, c).value
  {
    XorSymmetric(ParseHex(a), ParseHex(b));
    PopZero(Xor(ParseHex(a), ParseHex(b)));
    XorZero(ParseHex(a), ParseHex(b));
    ParseInjective(a, b);
    XorTriangle(ParseHex(a), ParseHex(b), ParseHex(c));
  }

  /** The distance is symmetric exactly when the lengths agree: the fallback for different lengths
      depends on which hash comes first. */
  lemma SymmetricIffSameLength(a: string, b: string)
    ensures HammingDistance(a, b) == HammingDistance(b, a) <==> |a| == |b|
  {
    if IsHex(a) && IsHex(b) {
      XorSymmetric(ParseHex(a), ParseHex(b));
    }
  }

  lemma {:induction false} DigitDistanceBound(a: string, b: string)
    requires |a| == |b| && forall i :: 0 <= i < |a| ==> DigitValue(a[i]).Some? && DigitValue(b[i]).Some?
    ensures DigitDistance(a, b) <= 4 * |a|
    decreases |a|
  {
    if a != "" {
      var n := |a| - 1;
      DigitDistanceBound(a[..n], b[..n]);
      var d, e := DigitValue(a[n]).value, DigitValue(b[n]).value;
      XorDigit(d, e, 0, 0, d, e);
      PopDigit(Xor(d, e), 0, Xor(d, e));
    }
  }

  /** The value used for different lengths is the largest that equal-length hashes can reach. */
  lemma MismatchIsMaximum(a: string, b: string)
    requires IsHex(a) && IsHex(b) && |a| == |b|
    ensures HammingDistance(a, b).value <= 4 * |a|
    ensures forall longer: string :: |longer| != |a| ==> HammingDistance(a, longer) == Ok(4 * |a|)
  {
    HammingIsDigitwise(a, b);
    DigitDistanceBound(a, b);
  }

  // ------------------------------------------------------------------
  // Image signal
  // ------------------------------------------------------------------

  function DistanceSignal(distance: nat): real {
    if distance < PHASH_PERFECT then 1.0
    else if distance >= PHASH_ZERO then 0.0
    else 1.0 - (distance - PHASH_PERFECT) as real / (PHASH_ZERO - PHASH_PERFECT) as real
  }

  /** A hash that is absent or empty. */
  predicate NoHash(h: Option<string>) {
    h.None? || h.value == ""
  }

  function ImageSignal(a: Option<string>, b: Option<string>): real {
    if NoHash(a) || NoHash(b) then 0.0
    else match HammingDistance(a.value, b.value)
      case Ok(distance) => DistanceSignal(distance)
      case Err(_) => 0.0
  }

  /** The signal is in [0, 1] and never rises with the distance. */
  lemma DistanceSignalShape(d: nat, e: nat)
    requires d <= e
    ensures 0.0 <= DistanceSignal(e) <= DistanceSignal(d) <= 1.0
    ensures DistanceSignal(d) == 1.0 <==> d <= 10
    ensures DistanceSignal(d) == 0.0 <==> d >= 30
    ensures 10 <= d < 30 ==> DistanceSignal(d) - DistanceSignal(d + 1) == 1.0 / 20.0
  {
  }

  /** Two hashes of one length count by the bits in which their digits differ; a pair that is absent, empty
      or malformed counts nothing. */
  lemma ImageSignalMeaning(a: Option<string>, b: Option<string>)
    ensures a.Some? && b.Some? && |a.value| == |b.value| && IsHex(a.value) && IsHex(b.value) ==>
              ImageSignal(a, b) == DistanceSignal(DigitDistance(a.value, b.value))
    ensures a.None? || b.None? || a.value == "" || b.value == "" ==> ImageSignal(a, b) == 0.0
    ensures a.Some? && b.Some? && |a.value| == |b.value| && !(IsHex(a.value) && IsHex(b.value)) ==>
              ImageSignal(a, b) == 0.0
  {
    if a.Some? && b.Some? && |a.value| == |b.value| && IsHex(a.value) && IsHex(b.value) {
      HammingIsDigitwise(a.value, b.value);
    }
  }

  lemma ImageSignalSymmetric(a: Option<string>, b: Option<string>)
    requires NoHash(a) || NoHash(b) || |a.value| == |b.value|
    ensures ImageSignal(a, b) == ImageSignal(b, a)
  {
    if a.Some? && b.Some? && |a.value| == |b.value| {
      SymmetricIffSameLength(a.value, b.value);
    }
  }

  lemma ImageSignalRange(a: Option<string>, b: Option<string>)
    ensures 0.0 <= ImageSignal(a, b) <= 1.0
  {
  }
}
