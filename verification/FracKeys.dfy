/** KeyBetween: plain byte order on order keys is dense (pkg/fracdex/fracdex.go). */
module FracKeys {
  import opened Outcomes
  import opened ByteOrder
  import opened FracIntegers
  import opened FracMidpoint

  const FIRST: Str := [LOWER_A, ZERO]

  /** "A", 25 zeros and "1": the only key whose lower neighbour would be the reserved SMALLEST. */
  const LOWEST_INTEGER_KEY: Str := [UPPER_A] + Repeat(ZERO, 25) + [ZERO + 1]

  /** validateOrderKey accepts key. */
  predicate IsKey(key: Str) {
    && key != SMALLEST
    && IntegerPart(key).Ok?
    && IsInteger(IntegerPart(key).value)
    && !TrailingZero(key[|IntegerPart(key).value|..])
    && AllDigits(key[|IntegerPart(key).value|..])
  }

  function Integer(key: Str): (i: Str)
    requires IsKey(key)
    ensures IsInteger(i) && i == IntegerPart(key).value && i <= key
  {
    IntegerPart(key).value
  }

  function Fraction(key: Str): (f: Str)
    requires IsKey(key)
    ensures AllDigits(f) && !TrailingZero(f) && key == Integer(key) + f
  {
    key[|Integer(key)|..]
  }

  function KeyBetween(a: Str, b: Str): Result<Str, KeyError> {
    if a != [] && !IsKey(a) then Err(InvalidKey)
    else if b != [] && !IsKey(b) then Err(InvalidKey)
    else if a != [] && b != [] && !Less(a, b) then Err(OutOfOrder)
    else if a == [] && b == [] then Ok(FIRST)
    else if a == [] then KeyBelow(b)
    else if b == [] then KeyAbove(a)
    else KeyInGap(a, b)
  }

  function KeyBelow(b: Str): Result<Str, KeyError>
    requires IsKey(b)
  {
    if Integer(b) == SMALLEST then WithInteger(SMALLEST, Midpoint([], Fraction(b)))
    else if Less(Integer(b), b) then Ok(Integer(b))
    else Decrement(Integer(b))
  }

  function KeyAbove(a: Str): Result<Str, KeyError>
    requires IsKey(a)
  {
    if Increment(Integer(a)) == Err(Exhausted) then WithInteger(Integer(a), Midpoint(Fraction(a), []))
    else Increment(Integer(a))
  }

  function KeyInGap(a: Str, b: Str): Result<Str, KeyError>
    requires IsKey(a) && IsKey(b)
  {
    if Integer(a) == Integer(b) then WithInteger(Integer(a), Midpoint(Fraction(a), Fraction(b)))
    else if Increment(Integer(a)).Err? then Increment(Integer(a))
    else if Less(Increment(Integer(a)).value, b) then Increment(Integer(a))
    else WithInteger(Integer(a), Midpoint(Fraction(a), []))
  }

  function WithInteger(i: Str, fraction: Result<Str, KeyError>): Result<Str, KeyError> {
    if fraction.Ok? then Ok(i + fraction.value) else fraction
  }

  predicate ValidBounds(a: Str, b: Str) {
    && (a == [] || IsKey(a))
    && (b == [] || IsKey(b))
    && (a != [] && b != [] ==> Less(a, b))
  }

  predicate Inside(a: Str, k: Str, b: Str) {
    && (a != [] ==> Less(a, k))
    && (b != [] ==> Less(k, b))
  }

  // ----- keys as integer part and fraction -----

  /** An integer part and a canonical fraction make a key, unless they make SMALLEST. */
  lemma KeyFromParts(i: Str, f: Str)
    requires IsInteger(i) && AllDigits(f) && !TrailingZero(f)
    requires i != SMALLEST || f != []
    ensures IsKey(i + f) && Integer(i + f) == i && Fraction(i + f) == f
  {
  }

  /** Keys are ordered by their integer parts first. */
  lemma SmallerIntegerFirst(i: Str, f: Str, j: Str, g: Str)
    requires IsInteger(i) && IsInteger(j) && Less(i, j)
    ensures Less(i + f, j + g)
  {
    if i <= j {
      IntegersPrefixFree(i, j);
      LessIrreflexive(i);
    }
    LessKeptByExtension(i, j, f, g);
  }

  /** ... and by their fractions second. */
  lemma KeyOrder(a: Str, b: Str)
    requires IsKey(a) && IsKey(b) && Less(a, b)
    ensures Less(Integer(a), Integer(b)) || (Integer(a) == Integer(b) && Less(Fraction(a), Fraction(b)))
  {
    LessTotal(Integer(a), Integer(b));
    if Less(Integer(b), Integer(a)) {
      SmallerIntegerFirst(Integer(b), Fraction(b), Integer(a), Fraction(a));
      LessAsymmetric(a, b);
    } else if Integer(a) == Integer(b) {
      LessAfterPrefix(Integer(a), Fraction(a), Fraction(b));
    }
  }

  lemma LowestIntegerKey()
    ensures IsInteger(SMALLEST) && Increment(SMALLEST) == Ok(LOWEST_INTEGER_KEY)
    ensures IsInteger(LOWEST_INTEGER_KEY) && LOWEST_INTEGER_KEY != SMALLEST
    ensures Ordinal(LOWEST_INTEGER_KEY) == Ordinal(SMALLEST) + 1
  {
    ExtremesBracket([LOWER_A, ZERO]);
    IncrementIsSuccessor(SMALLEST);
    var zeros := SMALLEST[1..];
    AddOneAt(zeros, 25, zeros[..25] + [ZERO + 1]);
    assert LOWEST_INTEGER_KEY == [UPPER_A] + (zeros[..25] + [ZERO + 1]);
    assert LOWEST_INTEGER_KEY[26] != SMALLEST[26];
  }

  // ----- the four cases -----

  /** Only LOWEST_INTEGER_KEY has SMALLEST for its predecessor. */
  lemma PredecessorOfKey(b: Str)
    requires IsInteger(b) && b != SMALLEST
    ensures Decrement(b).Ok?
    ensures var k := Decrement(b).value;
      IsInteger(k) && Less(k, b) && |k| <= |b| + 1 && Ordinal(k) == Ordinal(b) - 1
      && (k == SMALLEST <==> b == LOWEST_INTEGER_KEY)
  {
    DecrementIsPredecessor(b);
    var k := Decrement(b).value;
    OrdinalOrder(k, b);
    LowestIntegerKey();
    if k == SMALLEST {
      OrdinalOrder(b, LOWEST_INTEGER_KEY);
    }
    if b == LOWEST_INTEGER_KEY {
      OrdinalOrder(k, SMALLEST);
    }
  }

  lemma BelowKey(b: Str)
    requires IsKey(b)
    ensures KeyBetween([], b).Ok?
    ensures var k := KeyBetween([], b).value;
      Less(k, b) && |k| <= |b| + 1
      && (k == SMALLEST <==> b == LOWEST_INTEGER_KEY)
      && (k != SMALLEST ==> IsKey(k))
  {
    var ib, fb := Integer(b), Fraction(b);
    LowestIntegerKey();
    if ib == SMALLEST {
      MidpointBetween([], fb);
      var m := Midpoint([], fb).value;
      KeyFromParts(ib, m);
      LessAfterPrefix(ib, m, fb);
      IntegersNotKeysOf(LOWEST_INTEGER_KEY, b);
    } else if fb != [] {
      PrefixIsLess(ib, fb);
      KeyFromParts(ib, []);
      assert ib + [] == ib;
      IntegersNotKeysOf(LOWEST_INTEGER_KEY, b);
    } else {
      assert b == ib;
      LessIrreflexive(b);
      PredecessorOfKey(b);
      var k := Decrement(b).value;
      if k != SMALLEST {
        KeyFromParts(k, []);
        assert k + [] == k;
      }
    }
  }

  /** A key that is an integer part has no fraction. */
  lemma IntegersNotKeysOf(i: Str, b: Str)
    requires IsInteger(i) && IsKey(b)
    ensures i == b ==> Integer(b) == i && Fraction(b) == []
  {
  }

  lemma AboveKey(a: Str)
    requires IsKey(a)
    ensures KeyBetween(a, []).Ok?
    ensures var k := KeyBetween(a, []).value; Less(a, k) && |k| <= |a| + 1 && IsKey(k)
  {
    var ia, fa := Integer(a), Fraction(a);
    IncrementIsSuccessor(ia);
    if Increment(ia).Err? {
      MidpointBetween(fa, []);
      var m := Midpoint(fa, []).value;
      KeyFromParts(ia, m);
      LessAfterPrefix(ia, fa, m);
    } else {
      NextIntegerAbove(a);
    }
  }

  lemma NextIntegerAbove(a: Str)
    requires IsKey(a) && Increment(Integer(a)).Ok?
    ensures var i := Increment(Integer(a)).value; IsInteger(i) && Less(a, i) && IsKey(i) && Integer(i) == i
  {
    var ia := Integer(a);
    IncrementIsSuccessor(ia);
    var i := Increment(ia).value;
    OrdinalOrder(ia, i);
    ExtremesBracket(ia);
    SmallerIntegerFirst(ia, Fraction(a), i, []);
    KeyFromParts(i, []);
    assert i + [] == i;
  }

  lemma BetweenKeys(a: Str, b: Str)
    requires IsKey(a) && IsKey(b) && Less(a, b)
    ensures KeyBetween(a, b).Ok?
    ensures var k := KeyBetween(a, b).value;
      Less(a, k) && Less(k, b) && |k| <= Longer(a, b) + 1 && IsKey(k)
  {
    var ia, fa, ib, fb := Integer(a), Fraction(a), Integer(b), Fraction(b);
    KeyOrder(a, b);
    if ia == ib {
      LessIrreflexive(ia);
      MidpointBetween(fa, fb);
      var m := Midpoint(fa, fb).value;
      KeyFromParts(ia, m);
      LessAfterPrefix(ia, fa, m);
      LessAfterPrefix(ia, m, fb);
    } else {
      OrdinalOrder(ia, ib);
      ExtremesBracket(ib);
      IncrementIsSuccessor(ia);
      NextIntegerAbove(a);
      if !Less(Increment(ia).value, b) {
        MidpointBetween(fa, []);
        var m := Midpoint(fa, []).value;
        KeyFromParts(ia, m);
        LessAfterPrefix(ia, fa, m);
        SmallerIntegerFirst(ia, m, ib, fb);
      }
    }
  }

  /** Density and closure. KeyBetween succeeds exactly on bounds that are keys (or absent) and in order. Its result
      then lies strictly between them, is at most one byte longer than the longer bound, and is itself a key in
      every case but one: below LOWEST_INTEGER_KEY with no lower bound it is the reserved SMALLEST. */
  lemma KeyBetweenIsDense(a: Str, b: Str)
    ensures KeyBetween(a, b).Ok? <==> ValidBounds(a, b)
    ensures ValidBounds(a, b) ==>
      var k := KeyBetween(a, b).value;
      && Inside(a, k, b)
      && (IsKey(k) <==> !(a == [] && b == LOWEST_INTEGER_KEY))
      && (!IsKey(k) ==> k == SMALLEST)
      && (if a == [] && b == [] then k == FIRST else |k| <= Longer(a, b) + 1)
  {
    if ValidBounds(a, b) {
      if a == [] && b == [] {
        ExtremesBracket(FIRST);
        KeyFromParts(FIRST, []);
        assert FIRST + [] == FIRST;
      } else if a == [] {
        BelowKey(b);
      } else if b == [] {
        AboveKey(a);
      } else {
        BetweenKeys(a, b);
      }
    }
  }

  /** ... and the error tells which demand the bounds miss. */
  lemma KeyBetweenErrors(a: Str, b: Str)
    requires KeyBetween(a, b).Err?
    ensures KeyBetween(a, b).error == InvalidKey <==> !((a == [] || IsKey(a)) && (b == [] || IsKey(b)))
    ensures KeyBetween(a, b).error == OutOfOrder <==>
      (a == [] || IsKey(a)) && (b == [] || IsKey(b)) && a != [] && b != [] && !Less(a, b)
  {
    KeyBetweenIsDense(a, b);
  }

  /** The exceptional input, and what it costs: nothing can be put below the result. */
  lemma SentinelIsADeadEnd()
    ensures IsKey(LOWEST_INTEGER_KEY)
    ensures KeyBetween([], LOWEST_INTEGER_KEY) == Ok(SMALLEST)
    ensures KeyBetween([], SMALLEST) == Err(InvalidKey)
  {
    LowestIntegerKey();
    KeyFromParts(LOWEST_INTEGER_KEY, []);
    assert LOWEST_INTEGER_KEY + [] == LOWEST_INTEGER_KEY;
    BelowKey(LOWEST_INTEGER_KEY);
  }
}
