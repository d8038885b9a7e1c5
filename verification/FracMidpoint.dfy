/** midpoint: a fraction strictly between two fractions (pkg/fracdex/fracdex.go). */
module FracMidpoint {
  import opened Outcomes
  import opened ByteOrder
  import opened FracIntegers

  predicate TrailingZero(s: Str) {
    s != [] && s[|s| - 1] == ZERO
  }

  /** The first digit of a fraction, or the zero that pads an exhausted one. */
  function Head(a: Str): Byte {
    if a == [] then ZERO else a[0]
  }

  function Drop(a: Str, n: nat): Str {
    if n < |a| then a[n..] else []
  }

  /** How far b agrees with a padded by zeros. */
  function PaddedPrefix(a: Str, b: Str): (n: nat)
    ensures n <= |b|
    decreases |b|
  {
    if b == [] || Head(a) != b[0] then 0 else 1 + PaddedPrefix(Drop(a, 1), b[1..])
  }

  /** Terminates on every pair of byte strings, well formed or not: each call shortens b, or keeps an empty b
      and shortens a. */
  function Midpoint(a: Str, b: Str): (r: Result<Str, KeyError>)
    decreases |b|, |a|
  {
    if b != [] && !Less(a, b) then Err(OutOfOrder)
    else if TrailingZero(a) || TrailingZero(b) then Err(InvalidKey)
    else
      var n := PaddedPrefix(a, b);
      if n > 0 then
        var rest :- Midpoint(Drop(a, n), b[n..]);
        Ok(b[..n] + rest)
      else
        var digitA := if a == [] then 0 else DigitIndex(a[0]);
        var digitB := if b == [] then RADIX else DigitIndex(b[0]);
        if digitA < 0 || digitB < 0 then Err(InvalidKey)
        else if digitB - digitA > 1 then Ok([Digit((digitA + digitB + 1) / 2)])
        else if |b| > 1 then Ok(b[..1])
        else
          var rest :- Midpoint(Drop(a, 1), []);
          Ok([Digit(digitA)] + rest)
  }

  /** The prefix-scan loop. */
  method ScanPrefix(a: Str, b: Str) returns (n: nat)
    ensures n == PaddedPrefix(a, b)
  {
    n := 0;
    while n < |b|
      invariant 0 <= n <= |b|
      invariant n + PaddedPrefix(Drop(a, n), b[n..]) == PaddedPrefix(a, b)
    {
      var ca := if n < |a| then a[n] else ZERO;
      if ca != b[n] {
        break;
      }
      assert Drop(Drop(a, n), 1) == Drop(a, n + 1) && b[n..][1..] == b[n + 1..];
      n := n + 1;
    }
  }

  method ComputeMidpoint(a: Str, b: Str) returns (r: Result<Str, KeyError>)
    ensures r == Midpoint(a, b)
    decreases |b|, |a|
  {
    if b != [] && !Less(a, b) {
      return Err(OutOfOrder);
    }
    if TrailingZero(a) || TrailingZero(b) {
      return Err(InvalidKey);
    }
    if b != [] {
      var n := ScanPrefix(a, b);
      if n > 0 {
        var restA := if n < |a| then a[n..] else [];
        r := ComputeMidpoint(restA, b[n..]);
        return if r.Ok? then Ok(b[..n] + r.value) else r;
      }
    }
    var digitA, digitB := 0, RADIX;
    if a != [] {
      digitA := DigitIndex(a[0]);
      if digitA < 0 {
        return Err(InvalidKey);
      }
    }
    if b != [] {
      digitB := DigitIndex(b[0]);
      if digitB < 0 {
        return Err(InvalidKey);
      }
    }
    if digitB - digitA > 1 {
      return Ok([Digit((digitA + digitB + 1) / 2)]);
    }
    if |b| > 1 {
      return Ok(b[..1]);
    }
    r := ComputeMidpoint(if |a| > 1 then a[1..] else [], []);
    return if r.Ok? then Ok([Digit(digitA)] + r.value) else r;
  }

  function Longer(a: Str, b: Str): nat {
    if |a| < |b| then |b| else |a|
  }

  /** m is a canonical fraction strictly between a and b, where an empty b stands for 1. */
  predicate Between(a: Str, m: Str, b: Str) {
    && m != [] && AllDigits(m) && !TrailingZero(m)
    && Less(a, m)
    && (b != [] ==> Less(m, b))
  }

  lemma {:induction false} PaddedPrefixAgrees(a: Str, b: Str)
    ensures var n := PaddedPrefix(a, b);
      && (forall i :: 0 <= i < n ==> b[i] == if i < |a| then a[i] else ZERO)
      && (n < |b| ==> b[n] != if n < |a| then a[n] else ZERO)
    decreases |b|
  {
    if b != [] && Head(a) == b[0] {
      PaddedPrefixAgrees(Drop(a, 1), b[1..]);
      var n := PaddedPrefix(a, b);
      forall i | 0 <= i < n ensures b[i] == if i < |a| then a[i] else ZERO {
        if i > 0 {
          assert b[i] == b[1..][i - 1];
        }
      }
    }
  }

  lemma FullAgreement(a: Str, b: Str)
    requires PaddedPrefix(a, b) == |b|
    ensures TrailingZero(b) || !Less(a, b)
  {
    PaddedPrefixAgrees(a, b);
    if |b| <= |a| {
      assert a == b + a[|b|..];
      if a == b {
        LessIrreflexive(a);
      } else {
        PrefixIsLess(b, a[|b|..]);
        LessAsymmetric(b, a);
      }
    }
  }

  lemma PaddedSplit(a: Str, b: Str, n: nat)
    requires n == PaddedPrefix(a, b)
    ensures b == b[..n] + b[n..]
    ensures n <= |a| ==> a == b[..n] + Drop(a, n)
    ensures n > |a| ==> Drop(a, n) == [] && b[..n] == a + b[|a|..n]
  {
    PaddedPrefixAgrees(a, b);
    assert b == b[..n] + b[n..];
    if n <= |a| {
      assert b[..n] == a[..n];
      assert a == a[..n] + a[n..];
    } else {
      assert b[..|a|] == a;
      assert b[..n] == b[..|a|] + b[|a|..n];
    }
  }

  /** Stripping the padded common prefix leaves the same problem on shorter fractions. */
  lemma PrefixStrips(a: Str, b: Str, n: nat)
    requires n == PaddedPrefix(a, b)
    requires Less(a, b) && !TrailingZero(a) && !TrailingZero(b)
    ensures n < |b| && Less(Drop(a, n), b[n..]) && !TrailingZero(Drop(a, n))
  {
    PaddedSplit(a, b, n);
    if n == |b| {
      FullAgreement(a, b);
    }
    if n <= |a| {
      LessAfterPrefix(b[..n], Drop(a, n), b[n..]);
    }
  }

  lemma BehindPrefix(p: Str, x: Str, m: Str, y: Str)
    requires AllDigits(p) && y != [] && Between(x, m, y)
    ensures Between(p + x, p + m, p + y)
  {
    LessAfterPrefix(p, x, m);
    LessAfterPrefix(p, m, y);
  }

  lemma PrefixOfPrefixIsLess(a: Str, q: Str, m: Str)
    requires m != []
    ensures Less(a, a + q + m)
  {
    PrefixIsLess(a, q + m);
    assert a + (q + m) == a + q + m;
  }

  /** What lies between the stripped fractions lies, behind the prefix, between the originals. */
  lemma PrefixRestores(a: Str, m: Str, b: Str, n: nat)
    requires n == PaddedPrefix(a, b) < |b| && AllDigits(b) && Between(Drop(a, n), m, b[n..])
    ensures Between(a, b[..n] + m, b)
  {
    PaddedSplit(a, b, n);
    BehindPrefix(b[..n], Drop(a, n), m, b[n..]);
    if n > |a| {
      PrefixOfPrefixIsLess(a, b[|a|..n], m);
    }
  }

  /** midpoint succeeds exactly on canonical fractions in order, and then its result is a canonical fraction
      strictly between them and at most one digit longer than the longer bound. */
  lemma {:induction false} MidpointBetween(a: Str, b: Str)
    requires AllDigits(a) && AllDigits(b)
    ensures Midpoint(a, b).Ok? <==> !TrailingZero(a) && !TrailingZero(b) && (b != [] ==> Less(a, b))
    ensures Midpoint(a, b).Ok? ==>
      Between(a, Midpoint(a, b).value, b) && |Midpoint(a, b).value| <= Longer(a, b) + 1
    decreases |b|, |a|
  {
    if (b == [] || Less(a, b)) && !TrailingZero(a) && !TrailingZero(b) {
      var n := PaddedPrefix(a, b);
      if n > 0 {
        PrefixStrips(a, b, n);
        MidpointBetween(Drop(a, n), b[n..]);
        PrefixRestores(a, Midpoint(Drop(a, n), b[n..]).value, b, n);
      } else {
        LeadingDigitsApart(a, b);
        if |b| == 1 || (b == [] && a != []) {
          MidpointBetween(Drop(a, 1), []);
        }
        FirstDigitDecides(a, b);
      }
    }
  }

  lemma LeadingDigitsApart(a: Str, b: Str)
    requires AllDigits(a) && AllDigits(b) && PaddedPrefix(a, b) == 0
    requires b != [] ==> Less(a, b)
    ensures b != [] ==> DigitIndex(Head(a)) < DigitIndex(b[0])
  {
  }

  lemma FirstDigitDecides(a: Str, b: Str)
    requires AllDigits(a) && AllDigits(b) && !TrailingZero(a) && !TrailingZero(b)
    requires b != [] ==> Less(a, b)
    requires PaddedPrefix(a, b) == 0
    requires b != [] ==> DigitIndex(Head(a)) < DigitIndex(b[0])
    requires |b| == 1 || (b == [] && a != []) ==> var deeper := Midpoint(Drop(a, 1), []);
      deeper.Ok? && Between(Drop(a, 1), deeper.value, []) && |deeper.value| <= |Drop(a, 1)| + 1
    ensures Midpoint(a, b).Ok? && Between(a, Midpoint(a, b).value, b)
    ensures |Midpoint(a, b).value| <= Longer(a, b) + 1
  {
    var digitA := if a == [] then 0 else DigitIndex(a[0]);
    var digitB := if b == [] then RADIX else DigitIndex(b[0]);
    if digitB - digitA > 1 {
      DigitsApart(a, b, digitA, digitB);
      MiddleDigit(a, Digit((digitA + digitB + 1) / 2), b);
    } else if |b| > 1 {
      DigitsAdjacent(a, b, digitA, digitB);
      LeadingDigitOf(a, b);
    } else {
      DigitsGoDeeper(a, b, digitA, digitB);
      BelowLeading(a, Digit(digitA), Midpoint(Drop(a, 1), []).value, b);
    }
  }

  // ----- what midpoint does once the leading digits differ -----

  lemma DigitsApart(a: Str, b: Str, digitA: int, digitB: int)
    requires AllDigits(a) && AllDigits(b) && !TrailingZero(a) && !TrailingZero(b)
    requires b != [] ==> Less(a, b)
    requires PaddedPrefix(a, b) == 0
    requires digitA == if a == [] then 0 else DigitIndex(a[0])
    requires digitB == if b == [] then RADIX else DigitIndex(b[0])
    requires 0 <= digitA && digitB - digitA > 1
    ensures Midpoint(a, b) == Ok([Digit((digitA + digitB + 1) / 2)])
  {
  }

  lemma DigitsAdjacent(a: Str, b: Str, digitA: int, digitB: int)
    requires AllDigits(a) && AllDigits(b) && !TrailingZero(a) && !TrailingZero(b)
    requires b != [] ==> Less(a, b)
    requires PaddedPrefix(a, b) == 0
    requires digitA == if a == [] then 0 else DigitIndex(a[0])
    requires digitB == if b == [] then RADIX else DigitIndex(b[0])
    requires 0 <= digitA && digitB - digitA == 1 && |b| > 1
    ensures Midpoint(a, b) == Ok(b[..1])
  {
  }

  lemma DigitsGoDeeper(a: Str, b: Str, digitA: int, digitB: int)
    requires AllDigits(a) && AllDigits(b) && !TrailingZero(a) && !TrailingZero(b)
    requires b != [] ==> Less(a, b)
    requires PaddedPrefix(a, b) == 0
    requires digitA == if a == [] then 0 else DigitIndex(a[0])
    requires digitB == if b == [] then RADIX else DigitIndex(b[0])
    requires 0 <= digitA && digitB - digitA == 1 && |b| <= 1 && Midpoint(Drop(a, 1), []).Ok?
    ensures Midpoint(a, b) == Ok([Digit(digitA)] + Midpoint(Drop(a, 1), []).value)
  {
  }

  /** A digit strictly between the leading digits. */
  lemma MiddleDigit(a: Str, d: Byte, b: Str)
    requires AllDigits(a) && AllDigits(b) && DigitIndex(Head(a)) < DigitIndex(d)
    requires b != [] ==> DigitIndex(d) < DigitIndex(b[0])
    ensures Between(a, [d], b)
  {
  }

  /** The leading digit of a longer b. */
  lemma LeadingDigitOf(a: Str, b: Str)
    requires AllDigits(a) && AllDigits(b) && |b| > 1 && DigitIndex(Head(a)) < DigitIndex(b[0])
    ensures Between(a, b[..1], b)
  {
  }

  /** Keeping the leading digit and going one level deeper. */
  lemma BelowLeading(a: Str, d: Byte, rest: Str, b: Str)
    requires 0 <= DigitIndex(d) && AllDigits(a) && AllDigits(b)
    requires d == Head(a) && Between(Drop(a, 1), rest, [])
    requires b != [] ==> DigitIndex(d) < DigitIndex(b[0])
    ensures Between(a, [d] + rest, b)
  {
  }
}
