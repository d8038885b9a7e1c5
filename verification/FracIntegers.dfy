/** The base-62 alphabet and the integer part of an order key (pkg/fracdex/fracdex.go).

    An integer part is a header letter followed by as many digits as the letter declares. The module
    shows that these strings, in plain byte order, are the integers of one interval: `Ordinal` is an
    order isomorphism onto the numbers from Bottom() to Top(), and the carry and
    borrow loops add and subtract one. */
module FracIntegers {
  import opened Outcomes
  import opened ByteOrder

  datatype KeyError = InvalidKey | OutOfOrder | Exhausted | NegativeCount

  const UPPER_A: Byte := 65
  const UPPER_Z: Byte := 90
  const LOWER_A: Byte := 97
  const LOWER_Z: Byte := 122
  const ZERO: Byte := 48
  const LAST: Byte := 122
  const RADIX := 62

  /** The value of a digit byte, -1 for any other byte. */
  function DigitIndex(c: Byte): (d: int)
    ensures -1 <= d < RADIX
  {
    if 48 <= c <= 57 then c - 48
    else if 65 <= c <= 90 then c - 65 + 10
    else if 97 <= c <= 122 then c - 97 + 36
    else -1
  }

  /** Digits[d]. */
  function Digit(d: int): (c: Byte)
    requires 0 <= d < RADIX
    ensures DigitIndex(c) == d
  {
    if d < 10 then 48 + d else if d < 36 then 55 + d else 61 + d
  }

  predicate AllDigits(s: Str) {
    forall i :: 0 <= i < |s| ==> 0 <= DigitIndex(s[i])
  }

  /** ASCII order of the digit bytes is the order of their values. */
  lemma DigitOrder(c: Byte, d: Byte)
    requires 0 <= DigitIndex(c) && 0 <= DigitIndex(d)
    ensures c < d <==> DigitIndex(c) < DigitIndex(d)
  {
  }

  /** integerLength: the length a header letter declares, itself included. */
  function IntegerLength(head: Byte): (r: Result<nat, KeyError>)
    ensures r.Ok? ==> 2 <= r.value <= 27
  {
    if LOWER_A <= head <= LOWER_Z then Ok(head - LOWER_A + 2)
    else if UPPER_A <= head <= UPPER_Z then Ok(UPPER_Z - head + 2)
    else Err(InvalidKey)
  }

  function IntegerPart(key: Str): (r: Result<Str, KeyError>)
    ensures r.Ok? ==> 2 <= |r.value| <= |key| && r.value == key[..|r.value|]
  {
    if key == [] then Err(InvalidKey)
    else
      var n :- IntegerLength(key[0]);
      if n > |key| then Err(InvalidKey) else Ok(key[..n])
  }

  /** validateInteger accepts i. */
  predicate IsInteger(i: Str) {
    && i != []
    && IntegerLength(i[0]) == Ok(|i|)
    && AllDigits(i[1..])
  }

  /** strings.Repeat of one byte. */
  function Repeat(c: Byte, n: nat): (s: Str)
    ensures |s| == n && forall i :: 0 <= i < n ==> s[i] == c
  {
    seq(n, _ => c)
  }

  /** smallestInteger, "A" and 26 zeros: reserved, never a key. */
  const SMALLEST: Str := [UPPER_A] + Repeat(ZERO, 26)

  /** "z" and 26 times the last digit. */
  const LARGEST: Str := [LOWER_Z] + Repeat(LAST, 26)

  // ----- the numbers the integer parts stand for -----

  function Pow62(n: nat): (p: nat)
    ensures p >= 1
  {
    if n == 0 then 1 else RADIX * Pow62(n - 1)
  }

  /** 62 + 62^2 + ... + 62^k: how many integer parts have at most k digits, on either side of zero. */
  function Span(k: nat): (n: int)
    ensures n >= 0
  {
    if k == 0 then 0 else Span(k - 1) + Pow62(k)
  }

  /** A digit string read as a base-62 numeral. */
  function Numeral(s: Str): (v: nat)
    requires AllDigits(s)
  {
    if s == [] then 0 else RADIX * Numeral(s[..|s| - 1]) + DigitIndex(s[|s| - 1])
  }

  lemma {:induction false} NumeralBound(s: Str)
    requires AllDigits(s)
    ensures Numeral(s) < Pow62(|s|)
  {
    if s != [] {
      NumeralBound(s[..|s| - 1]);
    }
  }

  function Ordinal(i: Str): int
    requires IsInteger(i)
  {
    if i[0] >= LOWER_A then Span(i[0] - LOWER_A) + Numeral(i[1..])
    else Numeral(i[1..]) - Span(UPPER_Z - i[0] + 1)
  }

  // ----- incrementInteger and decrementInteger -----

  /** The carry loop: the digits after adding one, and whether the carry ran off the front. */
  function AddOne(s: Str): (r: (Str, bool))
    requires AllDigits(s)
    ensures |r.0| == |s|
  {
    if s == [] then ([], true)
    else
      var d := DigitIndex(s[|s| - 1]) + 1;
      var front := s[..|s| - 1];
      if d == RADIX then
        var (rest, carry) := AddOne(front);
        (rest + [ZERO], carry)
      else (front + [Digit(d)], false)
  }

  /** The borrow loop. */
  function SubOne(s: Str): (r: (Str, bool))
    requires AllDigits(s)
    ensures |r.0| == |s|
  {
    if s == [] then ([], true)
    else
      var d := DigitIndex(s[|s| - 1]) - 1;
      var front := s[..|s| - 1];
      if d < 0 then
        var (rest, borrow) := SubOne(front);
        (rest + [LAST], borrow)
      else (front + [Digit(d)], false)
  }

  function Increment(x: Str): Result<Str, KeyError> {
    if !IsInteger(x) then Err(InvalidKey)
    else
      var head := x[0];
      var (digs, carry) := AddOne(x[1..]);
      if !carry then Ok([head] + digs)
      else if head == UPPER_Z then Ok([LOWER_A, ZERO])
      else if head == LOWER_Z then Err(Exhausted)
      else if head + 1 > LOWER_A then Ok([head + 1] + (digs + [ZERO]))
      else Ok([head + 1] + digs[..|digs| - 1])
  }

  function Decrement(x: Str): Result<Str, KeyError> {
    if !IsInteger(x) then Err(InvalidKey)
    else
      var head := x[0];
      var (digs, borrow) := SubOne(x[1..]);
      if !borrow then Ok([head] + digs)
      else if head == LOWER_A then Ok([UPPER_Z, LAST])
      else if head == UPPER_A then Err(Exhausted)
      else if head - 1 < UPPER_Z then Ok([head - 1] + (digs + [LAST]))
      else Ok([head - 1] + digs[..|digs| - 1])
  }

  /** AddOne changes the last digit that is not LAST, at k, and turns every digit after it into ZERO. */
  lemma {:induction false} AddOneAt(s: Str, k: int, r: Str)
    requires AllDigits(s) && |r| == |s| && -1 <= k < |s|
    requires forall j :: k < j < |s| ==> s[j] == LAST && r[j] == ZERO
    requires forall j :: 0 <= j < k ==> r[j] == s[j]
    requires k >= 0 ==> s[k] != LAST && r[k] == Digit(DigitIndex(s[k]) + 1)
    ensures AddOne(s) == (r, k == -1)
  {
    if s != [] {
      var n := |s| - 1;
      if k == n {
        assert r == s[..n] + [r[n]];
      } else {
        AddOneAt(s[..n], k, r[..n]);
        assert r == r[..n] + [ZERO];
      }
    }
  }

  /** The loop of incrementInteger, in place on the digit buffer. */
  method PropagateCarry(digs: array<Byte>) returns (carry: bool)
    requires AllDigits(digs[..])
    modifies digs
    ensures digs[..] == AddOne(old(digs[..])).0 && carry == AddOne(old(digs[..])).1
  {
    carry := true;
    var i := digs.Length - 1;
    while carry && i >= 0
      invariant -1 <= i < digs.Length
      invariant forall j :: 0 <= j <= i ==> digs[j] == old(digs[j])
      invariant carry ==> forall j :: i < j < digs.Length ==> old(digs[j]) == LAST && digs[j] == ZERO
      invariant !carry ==> i + 1 < digs.Length && old(digs[i + 1]) != LAST
      invariant !carry ==> digs[i + 1] == Digit(DigitIndex(old(digs[i + 1])) + 1)
      invariant !carry ==> forall j :: i + 1 < j < digs.Length ==> old(digs[j]) == LAST && digs[j] == ZERO
    {
      assert 0 <= DigitIndex(old(digs[..])[i]);
      var d := DigitIndex(digs[i]) + 1;
      if d == RADIX {
        digs[i] := ZERO;
      } else {
        digs[i] := Digit(d);
        carry := false;
      }
      i := i - 1;
    }
    AddOneAt(old(digs[..]), if carry then -1 else i + 1, digs[..]);
  }

  method IncrementInteger(x: Str) returns (r: Result<Str, KeyError>)
    ensures r == Increment(x)
  {
    if !IsInteger(x) {
      return Err(InvalidKey);
    }
    var head, orig := x[0], x[1..];
    var buf := new Byte[|orig|](i requires 0 <= i < |orig| => orig[i]);
    assert buf[..] == orig;
    var carry := PropagateCarry(buf);
    var digs := buf[..];
    if !carry {
      return Ok([head] + digs);
    }
    if head == UPPER_Z {
      return Ok([LOWER_A, ZERO]);
    }
    if head == LOWER_Z {
      return Err(Exhausted);
    }
    var h := head + 1;
    if h > LOWER_A {
      digs := digs + [ZERO];
    } else {
      digs := digs[..|digs| - 1];
    }
    return Ok([h] + digs);
  }

  /** SubOne changes the last digit that is not ZERO, at k, and turns every digit after it into LAST. */
  lemma {:induction false} SubOneAt(s: Str, k: int, r: Str)
    requires AllDigits(s) && |r| == |s| && -1 <= k < |s|
    requires forall j :: k < j < |s| ==> s[j] == ZERO && r[j] == LAST
    requires forall j :: 0 <= j < k ==> r[j] == s[j]
    requires k >= 0 ==> s[k] != ZERO && r[k] == Digit(DigitIndex(s[k]) - 1)
    ensures SubOne(s) == (r, k == -1)
  {
    if s != [] {
      var n := |s| - 1;
      if k == n {
        assert r == s[..n] + [r[n]];
      } else {
        SubOneAt(s[..n], k, r[..n]);
        assert r == r[..n] + [LAST];
      }
    }
  }

  /** The loop of decrementInteger, in place on the digit buffer. */
  method PropagateBorrow(digs: array<Byte>) returns (borrow: bool)
    requires AllDigits(digs[..])
    modifies digs
    ensures digs[..] == SubOne(old(digs[..])).0 && borrow == SubOne(old(digs[..])).1
  {
    borrow := true;
    var i := digs.Length - 1;
    while borrow && i >= 0
      invariant -1 <= i < digs.Length
      invariant forall j :: 0 <= j <= i ==> digs[j] == old(digs[j])
      invariant borrow ==> forall j :: i < j < digs.Length ==> old(digs[j]) == ZERO && digs[j] == LAST
      invariant !borrow ==> i + 1 < digs.Length && old(digs[i + 1]) != ZERO
      invariant !borrow ==> digs[i + 1] == Digit(DigitIndex(old(digs[i + 1])) - 1)
      invariant !borrow ==> forall j :: i + 1 < j < digs.Length ==> old(digs[j]) == ZERO && digs[j] == LAST
    {
      assert 0 <= DigitIndex(old(digs[..])[i]);
      var d := DigitIndex(digs[i]) - 1;
      if d < 0 {
        digs[i] := LAST;
      } else {
        digs[i] := Digit(d);
        borrow := false;
      }
      i := i - 1;
    }
    SubOneAt(old(digs[..]), if borrow then -1 else i + 1, digs[..]);
  }

  method DecrementInteger(x: Str) returns (r: Result<Str, KeyError>)
    ensures r == Decrement(x)
  {
    if !IsInteger(x) {
      return Err(InvalidKey);
    }
    var head, orig := x[0], x[1..];
    var buf := new Byte[|orig|](i requires 0 <= i < |orig| => orig[i]);
    assert buf[..] == orig;
    var borrow := PropagateBorrow(buf);
    var digs := buf[..];
    if !borrow {
      return Ok([head] + digs);
    }
    if head == LOWER_A {
      return Ok([UPPER_Z, LAST]);
    }
    if head == UPPER_A {
      return Err(Exhausted);
    }
    var h := head - 1;
    if h < UPPER_Z {
      digs := digs + [LAST];
    } else {
      digs := digs[..|digs| - 1];
    }
    return Ok([h] + digs);
  }

  // ----- the loops do arithmetic -----

  lemma NumeralSnoc(s: Str, c: Byte)
    requires AllDigits(s) && 0 <= DigitIndex(c)
    ensures AllDigits(s + [c]) && Numeral(s + [c]) == RADIX * Numeral(s) + DigitIndex(c)
  {
  }

  lemma {:induction false} AddOneAdds(s: Str)
    requires AllDigits(s)
    ensures AllDigits(AddOne(s).0)
    ensures !AddOne(s).1 ==> Numeral(AddOne(s).0) == Numeral(s) + 1
    ensures AddOne(s).1 ==> Numeral(AddOne(s).0) == 0 && Numeral(s) == Pow62(|s|) - 1
  {
    if s != [] {
      var front, d := s[..|s| - 1], DigitIndex(s[|s| - 1]) + 1;
      if d == RADIX {
        AddOneAdds(front);
        NumeralSnoc(AddOne(front).0, ZERO);
      } else {
        NumeralSnoc(front, Digit(d));
      }
    }
  }

  lemma {:induction false} SubOneSubtracts(s: Str)
    requires AllDigits(s)
    ensures AllDigits(SubOne(s).0)
    ensures !SubOne(s).1 ==> Numeral(SubOne(s).0) == Numeral(s) - 1
    ensures SubOne(s).1 ==> Numeral(SubOne(s).0) == Pow62(|s|) - 1 && Numeral(s) == 0
  {
    if s != [] {
      var front, d := s[..|s| - 1], DigitIndex(s[|s| - 1]) - 1;
      if d < 0 {
        SubOneSubtracts(front);
        NumeralSnoc(SubOne(front).0, LAST);
      } else {
        NumeralSnoc(front, Digit(d));
      }
    }
  }

  predicate Repeats(s: Str, c: Byte) {
    forall i :: 0 <= i < |s| ==> s[i] == c
  }

  /** The carry runs off the front exactly of "zz...z", leaving "00...0"; the borrow the other way round. */
  lemma {:induction false} CarryRunsOff(s: Str)
    requires AllDigits(s)
    ensures AddOne(s).1 <==> Repeats(s, LAST)
    ensures AddOne(s).1 ==> Repeats(AddOne(s).0, ZERO)
    ensures SubOne(s).1 <==> Repeats(s, ZERO)
    ensures SubOne(s).1 ==> Repeats(SubOne(s).0, LAST)
  {
    if s != [] {
      var n := |s| - 1;
      CarryRunsOff(s[..n]);
      assert Repeats(s, LAST) <==> Repeats(s[..n], LAST) && s[n] == LAST;
      assert Repeats(s, ZERO) <==> Repeats(s[..n], ZERO) && s[n] == ZERO;
    }
  }

  lemma {:induction false} RepeatedNumeral(s: Str)
    ensures Repeats(s, ZERO) ==> AllDigits(s) && Numeral(s) == 0
    ensures Repeats(s, LAST) ==> AllDigits(s) && Numeral(s) == Pow62(|s|) - 1
  {
    if s != [] {
      RepeatedNumeral(s[..|s| - 1]);
    }
  }

  lemma ExtremesByDigits(x: Str)
    requires IsInteger(x)
    ensures x == LARGEST <==> x[0] == LOWER_Z && Repeats(x[1..], LAST)
    ensures x == SMALLEST <==> x[0] == UPPER_A && Repeats(x[1..], ZERO)
  {
  }

  /** An integer part taken apart into its header and its numeral. */
  lemma OrdinalOf(head: Byte, digs: Str)
    requires IntegerLength(head) == Ok(|digs| + 1) && AllDigits(digs)
    ensures IsInteger([head] + digs)
    ensures head >= LOWER_A ==> Ordinal([head] + digs) == Span(|digs| - 1) + Numeral(digs)
    ensures head < LOWER_A ==> Ordinal([head] + digs) == Numeral(digs) - Span(|digs|)
  {
  }

  /** The last integer part of one header and the first of the next are neighbours. */
  lemma HeaderBoundary(h: Byte, s: Str, t: Str)
    requires IntegerLength(h) == Ok(|s| + 1) && Repeats(s, LAST)
    requires Repeats(t, ZERO)
    requires h != LOWER_Z
    requires |t| == if h >= LOWER_A then |s| + 1 else if h == UPPER_Z then 1 else |s| - 1
    ensures var next := if h == UPPER_Z then LOWER_A else h + 1;
      && IsInteger([h] + s) && IsInteger([next] + t)
      && Ordinal([next] + t) == Ordinal([h] + s) + 1
  {
    var n := |s|;
    RepeatedNumeral(s);
    RepeatedNumeral(t);
    OrdinalOf(h, s);
    OrdinalOf(if h == UPPER_Z then LOWER_A else h + 1, t);
    assert Span(n) == Span(n - 1) + Pow62(n);
  }

  lemma SameHeaderStep(h: Byte, s: Str, t: Str)
    requires IntegerLength(h) == Ok(|s| + 1) && |t| == |s| && AllDigits(s) && AllDigits(t)
    ensures IsInteger([h] + t) && Ordinal([h] + t) - Ordinal([h] + s) == Numeral(t) - Numeral(s)
  {
  }

  lemma IncrementStep(head: Byte, digs: Str)
    requires IsInteger([head] + digs) && Increment([head] + digs).Ok?
    ensures var x, r := [head] + digs, Increment([head] + digs).value;
      IsInteger(r) && |r| <= |x| + 1 && Ordinal(r) == Ordinal(x) + 1
  {
    assert ([head] + digs)[1..] == digs;
    var (out, carry) := AddOne(digs);
    if carry {
      CarryRunsOff(digs);
      var t := if head == UPPER_Z then [ZERO] else if head >= LOWER_A then out + [ZERO] else out[..|out| - 1];
      assert [LOWER_A] + [ZERO] == [LOWER_A, ZERO];
      HeaderBoundary(head, digs, t);
    } else {
      AddOneAdds(digs);
      SameHeaderStep(head, digs, out);
    }
  }

  lemma DecrementStep(head: Byte, digs: Str)
    requires IsInteger([head] + digs) && Decrement([head] + digs).Ok?
    ensures var x, r := [head] + digs, Decrement([head] + digs).value;
      IsInteger(r) && |r| <= |x| + 1 && Ordinal(r) == Ordinal(x) - 1
  {
    assert ([head] + digs)[1..] == digs;
    var (out, borrow) := SubOne(digs);
    if borrow {
      CarryRunsOff(digs);
      var h := if head == LOWER_A then UPPER_Z else head - 1;
      var s := if head == LOWER_A then [LAST] else if h < UPPER_Z then out + [LAST] else out[..|out| - 1];
      assert [UPPER_Z] + [LAST] == [UPPER_Z, LAST];
      HeaderBoundary(h, s, digs);
    } else {
      SubOneSubtracts(digs);
      SameHeaderStep(head, digs, out);
    }
  }

  /** incrementInteger is the successor, and is exhausted exactly at the top of the interval. */
  lemma IncrementIsSuccessor(x: Str)
    requires IsInteger(x)
    ensures var r := Increment(x);
      && (r.Err? <==> x == LARGEST)
      && (r.Err? ==> r.error == Exhausted)
      && (r.Ok? ==> IsInteger(r.value) && Ordinal(r.value) == Ordinal(x) + 1 && |r.value| <= |x| + 1)
  {
    CarryRunsOff(x[1..]);
    ExtremesByDigits(x);
    if Increment(x).Ok? {
      assert x == [x[0]] + x[1..];
      IncrementStep(x[0], x[1..]);
    }
  }

  /** decrementInteger is the predecessor, and is exhausted exactly at the bottom. */
  lemma DecrementIsPredecessor(x: Str)
    requires IsInteger(x)
    ensures var r := Decrement(x);
      && (r.Err? <==> x == SMALLEST)
      && (r.Err? ==> r.error == Exhausted)
      && (r.Ok? ==> IsInteger(r.value) && Ordinal(r.value) == Ordinal(x) - 1 && |r.value| <= |x| + 1)
  {
    CarryRunsOff(x[1..]);
    ExtremesByDigits(x);
    if Decrement(x).Ok? {
      assert x == [x[0]] + x[1..];
      DecrementStep(x[0], x[1..]);
    }
  }

  // ----- byte order on integer parts is the order of the numbers -----

  lemma {:induction false} SpanMonotone(j: nat, k: nat)
    requires j <= k
    ensures Span(j) <= Span(k)
    ensures j < k ==> Span(j) + Pow62(j + 1) <= Span(k)
    decreases k
  {
    if j < k {
      SpanMonotone(j, k - 1);
    }
  }

  lemma OrdinalRange(x: Str)
    requires IsInteger(x)
    ensures x[0] >= LOWER_A ==> 0 <= Span(x[0] - LOWER_A) <= Ordinal(x) < Span(x[0] - LOWER_A + 1)
    ensures x[0] < LOWER_A ==> -Span(UPPER_Z - x[0] + 1) <= Ordinal(x) < -Span(UPPER_Z - x[0]) <= 0
  {
    NumeralBound(x[1..]);
  }

  lemma {:induction false} LessSnoc(s: Str, c: Byte, t: Str, d: Byte)
    requires |s| == |t|
    ensures Less(s + [c], t + [d]) <==> Less(s, t) || (s == t && c < d)
    decreases |s|
  {
    if s == [] {
      assert s + [c] == [c] && t + [d] == [d];
    } else {
      assert (s + [c])[1..] == s[1..] + [c] && (t + [d])[1..] == t[1..] + [d];
      assert s == [s[0]] + s[1..] && t == [t[0]] + t[1..];
      LessSnoc(s[1..], c, t[1..], d);
    }
  }

  lemma NumeralUnfold(s: Str, front: Str, last: Byte)
    requires s == front + [last] && AllDigits(s)
    ensures AllDigits(front) && 0 <= DigitIndex(last) && Numeral(s) == RADIX * Numeral(front) + DigitIndex(last)
  {
    assert front == s[..|s| - 1] && last == s[|s| - 1];
  }

  lemma {:induction false} NumeralOrder(s: Str, t: Str)
    requires AllDigits(s) && AllDigits(t) && |s| == |t|
    ensures Less(s, t) <==> Numeral(s) < Numeral(t)
    ensures Numeral(s) == Numeral(t) ==> s == t
  {
    if s != [] {
      var n := |s| - 1;
      var front, c, front', d := s[..n], s[n], t[..n], t[n];
      assert s == front + [c] && t == front' + [d];
      NumeralUnfold(s, front, c);
      NumeralUnfold(t, front', d);
      NumeralOrder(front, front');
      LessSnoc(front, c, front', d);
      DigitOrder(c, d);
    }
  }

  /** The isomorphism: byte order on integer parts is the order of their ordinals. */
  lemma OrdinalOrder(x: Str, y: Str)
    requires IsInteger(x) && IsInteger(y)
    ensures Less(x, y) <==> Ordinal(x) < Ordinal(y)
    ensures Ordinal(x) == Ordinal(y) ==> x == y
  {
    OrdinalRange(x);
    OrdinalRange(y);
    if x[0] == y[0] {
      NumeralOrder(x[1..], y[1..]);
      assert x == [x[0]] + x[1..] && y == [y[0]] + y[1..];
    } else if x[0] < y[0] {
      HeadersApart(x, y);
    } else {
      HeadersApart(y, x);
    }
  }

  lemma HeadersApart(x: Str, y: Str)
    requires IsInteger(x) && IsInteger(y) && x[0] < y[0]
    ensures Less(x, y) && !Less(y, x) && Ordinal(x) < Ordinal(y)
  {
    OrdinalRange(x);
    OrdinalRange(y);
    if x[0] >= LOWER_A {
      SpanMonotone(x[0] - LOWER_A + 1, y[0] - LOWER_A);
    } else if y[0] < LOWER_A {
      SpanMonotone(UPPER_Z - y[0] + 1, UPPER_Z - x[0]);
    }
  }

  lemma SameHeader(x: Str, y: Str)
    requires IsInteger(x) && IsInteger(y) && x[0] == y[0]
    ensures |x| == |y| && Ordinal(x) - Ordinal(y) == Numeral(x[1..]) - Numeral(y[1..])
  {
  }

  lemma {:induction false} NumeralExtremes(s: Str, t: Str)
    requires |s| == |t| && AllDigits(s) && AllDigits(t)
    ensures Repeats(s, ZERO) ==> Numeral(s) <= Numeral(t)
    ensures Repeats(s, LAST) ==> Numeral(t) <= Numeral(s)
  {
    if s != [] {
      NumeralExtremes(s[..|s| - 1], t[..|t| - 1]);
    }
  }

  /** The ends of the interval. */
  lemma ExtremesBracket(x: Str)
    requires IsInteger(x)
    ensures IsInteger(SMALLEST) && IsInteger(LARGEST)
    ensures Ordinal(SMALLEST) <= Ordinal(x) <= Ordinal(LARGEST)
  {
    assert Repeats(SMALLEST[1..], ZERO) && Repeats(LARGEST[1..], LAST);
    assert IsInteger(SMALLEST) && IsInteger(LARGEST);
    if x[0] == UPPER_A {
      SameHeader(SMALLEST, x);
      NumeralExtremes(SMALLEST[1..], x[1..]);
    } else {
      HeadersApart(SMALLEST, x);
    }
    if x[0] == LOWER_Z {
      SameHeader(x, LARGEST);
      NumeralExtremes(LARGEST[1..], x[1..]);
    } else {
      HeadersApart(x, LARGEST);
    }
  }

  function Bottom(): (v: int)
    ensures IsInteger(SMALLEST) && v == Ordinal(SMALLEST)
  {
    ExtremesBracket([LOWER_A, ZERO]);
    Ordinal(SMALLEST)
  }

  function Top(): (v: int)
    ensures IsInteger(LARGEST) && v == Ordinal(LARGEST)
  {
    ExtremesBracket([LOWER_A, ZERO]);
    Ordinal(LARGEST)
  }

  /** ... and it is onto: every number between the two ends has an integer part. */
  lemma {:induction false} OrdinalOnto(v: int) returns (x: Str)
    requires Bottom() <= v <= Top()
    ensures IsInteger(x) && Ordinal(x) == v
    decreases v - Bottom()
  {
    if v == Bottom() {
      x := SMALLEST;
    } else {
      var p := OrdinalOnto(v - 1);
      x := Successor(p);
    }
  }

  lemma Successor(p: Str) returns (x: Str)
    requires IsInteger(p) && p != LARGEST
    ensures IsInteger(x) && Ordinal(x) == Ordinal(p) + 1
  {
    IncrementIsSuccessor(p);
    x := Increment(p).value;
  }

  /** Where neither fails, the two loops undo each other. */
  lemma IncrementDecrementInverse(x: Str, y: Str)
    requires IsInteger(x) && IsInteger(y)
    ensures Increment(x) == Ok(y) <==> Decrement(y) == Ok(x)
  {
    IncrementIsSuccessor(x);
    DecrementIsPredecessor(y);
    if Increment(x).Ok? && Decrement(y).Ok? {
      OrdinalOrder(Increment(x).value, y);
      OrdinalOrder(Decrement(y).value, x);
    }
    ExtremesBracket(x);
    ExtremesBracket(y);
  }

  /** No integer part is a proper prefix of another, so a key's integer part is its only one. */
  lemma IntegersPrefixFree(x: Str, y: Str)
    requires IsInteger(x) && IsInteger(y) && x <= y
    ensures x == y
  {
  }
}
