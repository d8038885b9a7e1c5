/** Which key KeyBetween picks (pkg/fracdex/fracdex.go): an integer part wherever one lies between the bounds, the nearest to
    the bound it extends, and otherwise the halfway fraction. So appended keys are consecutive integers, and stay short. */
module FracExact {
  import opened Outcomes
  import opened ByteOrder
  import opened FracIntegers
  import opened FracMidpoint
  import opened FracKeys
  import opened FracBulk

  // ----- integer parts around a key -----

  lemma WholeKey(i: Str)
    requires IsInteger(i) && i != SMALLEST
    ensures IsKey(i) && Integer(i) == i && Fraction(i) == []
  {
    KeyFromParts(i, []);
    assert i + [] == i;
  }

  /** An integer part lies above a key exactly when its number is greater, and below it exactly when its number is at most
      the key's, the key itself excepted. */
  lemma WholeAgainstKey(i: Str, a: Str)
    requires IsInteger(i) && IsKey(a)
    ensures Less(a, i) <==> Ordinal(Integer(a)) < Ordinal(i)
    ensures Less(i, a) <==> Ordinal(i) < Ordinal(Integer(a)) || (i == Integer(a) && Fraction(a) != [])
  {
    var ia, fa := Integer(a), Fraction(a);
    OrdinalOrder(ia, i);
    OrdinalOrder(i, ia);
    assert i + [] == i;
    if Less(ia, i) {
      SmallerIntegerFirst(ia, fa, i, []);
      LessAsymmetric(a, i);
    } else if Less(i, ia) {
      SmallerIntegerFirst(i, [], ia, fa);
      LessAsymmetric(i, a);
    } else {
      LessTotal(i, ia);
      LessAfterPrefix(i, fa, []);
      LessAfterPrefix(i, [], fa);
    }
  }

  /** k is the lowest integer part above a. */
  ghost predicate LowestAbove(k: Str, a: Str) {
    IsInteger(k) && Less(a, k) && forall i :: IsInteger(i) && Less(a, i) ==> LessEq(k, i)
  }

  /** k is the highest integer part below b. */
  ghost predicate HighestBelow(k: Str, b: Str) {
    IsInteger(k) && Less(k, b) && forall i :: IsInteger(i) && Less(i, b) ==> LessEq(i, k)
  }

  lemma NextIsLowest(a: Str, k: Str)
    requires IsKey(a) && IsInteger(k) && Ordinal(k) == Ordinal(Integer(a)) + 1
    ensures LowestAbove(k, a)
  {
    WholeAgainstKey(k, a);
    forall i | IsInteger(i) && Less(a, i) ensures LessEq(k, i) {
      WholeAgainstKey(i, a);
      OrdinalOrder(k, i);
    }
  }

  lemma IsHighest(b: Str, k: Str)
    requires IsKey(b) && IsInteger(k)
    requires Ordinal(k) == if Fraction(b) == [] then Ordinal(Integer(b)) - 1 else Ordinal(Integer(b))
    ensures HighestBelow(k, b)
  {
    OrdinalOrder(k, Integer(b));
    WholeAgainstKey(k, b);
    forall i | IsInteger(i) && Less(i, b) ensures LessEq(i, k) {
      WholeAgainstKey(i, b);
      OrdinalOrder(i, k);
    }
  }

  // ----- the open bounds -----

  /** Appending to a key gives the next integer part: it has no fraction, its number is one more, and it is the lowest integer
      part above the key. Only above the largest integer part does the fraction grow instead. */
  lemma AppendExactly(a: Str)
    requires IsKey(a)
    ensures KeyBetween(a, []).Ok?
    ensures var k := KeyBetween(a, []).value;
      if Integer(a) == LARGEST then
        IsKey(k) && Integer(k) == LARGEST && Midpoint(Fraction(a), []) == Ok(Fraction(k))
      else
        && IsKey(k) && Integer(k) == k && Fraction(k) == [] && Ordinal(k) == Ordinal(Integer(a)) + 1
        && LowestAbove(k, a)
  {
    AboveKey(a);
    IncrementIsSuccessor(Integer(a));
    if Integer(a) == LARGEST {
      MidpointBetween(Fraction(a), []);
      KeyFromParts(LARGEST, Midpoint(Fraction(a), []).value);
    } else {
      var k := Increment(Integer(a)).value;
      ExtremesBracket(Integer(a));
      WholeKey(k);
      NextIsLowest(a, k);
    }
  }

  /** Putting a key in front of another gives the highest integer part below it: its own when it has a fraction, the one
      before otherwise. Only within the smallest integer part does the fraction shrink instead. */
  lemma PrependExactly(b: Str)
    requires IsKey(b)
    ensures KeyBetween([], b).Ok?
    ensures var k := KeyBetween([], b).value;
      if Integer(b) == SMALLEST then
        IsKey(k) && Integer(k) == SMALLEST && Midpoint([], Fraction(b)) == Ok(Fraction(k))
      else
        && IsInteger(k) && HighestBelow(k, b)
        && Ordinal(k) == if Fraction(b) == [] then Ordinal(Integer(b)) - 1 else Ordinal(Integer(b))
  {
    BelowKey(b);
    var ib, fb := Integer(b), Fraction(b);
    if ib == SMALLEST {
      MidpointBetween([], fb);
      KeyFromParts(SMALLEST, Midpoint([], fb).value);
    } else if fb != [] {
      PrefixIsLess(ib, fb);
      IsHighest(b, ib);
    } else {
      assert b == ib;
      LessIrreflexive(b);
      DecrementIsPredecessor(ib);
      IsHighest(b, Decrement(ib).value);
    }
  }

  // ----- a gap -----

  /** Some integer part lies strictly between two keys. */
  predicate WholeBetween(a: Str, b: Str)
    requires IsKey(a) && IsKey(b)
  {
    Ordinal(Integer(b)) - Ordinal(Integer(a)) >= 2 || (Ordinal(Integer(b)) - Ordinal(Integer(a)) == 1 && Fraction(b) != [])
  }

  lemma WholeBetweenIs(a: Str, b: Str, i: Str)
    requires IsKey(a) && IsKey(b) && IsInteger(i) && Less(a, i) && Less(i, b)
    ensures WholeBetween(a, b)
  {
    WholeAgainstKey(i, a);
    WholeAgainstKey(i, b);
  }

  /** Between two keys the result is the lowest integer part above the lower one when that lies in the gap, which is when any
      does. Otherwise it keeps the lower one's integer part, and its fraction is the midpoint of the two fractions, or of
      the lower one's and none when the upper key is the next integer part. */
  lemma GapExactly(a: Str, b: Str)
    requires IsKey(a) && IsKey(b) && Less(a, b)
    ensures KeyBetween(a, b).Ok?
    ensures var k := KeyBetween(a, b).value;
      && IsKey(k)
      && (if WholeBetween(a, b) then
            Integer(k) == k && Fraction(k) == [] && LowestAbove(k, a) && Ordinal(k) == Ordinal(Integer(a)) + 1
          else
            && Integer(k) == Integer(a)
            && Midpoint(Fraction(a), if Integer(a) == Integer(b) then Fraction(b) else []) == Ok(Fraction(k)))
  {
    BetweenKeys(a, b);
    KeyOrder(a, b);
    OrdinalOrder(Integer(a), Integer(b));
    if Integer(a) == Integer(b) {
      LessIrreflexive(Integer(a));
      MidpointBetween(Fraction(a), Fraction(b));
      KeyFromParts(Integer(a), Midpoint(Fraction(a), Fraction(b)).value);
    } else {
      GapApart(a, b);
    }
  }

  lemma GapApart(a: Str, b: Str)
    requires IsKey(a) && IsKey(b) && Less(a, b) && Integer(a) != Integer(b) && Ordinal(Integer(a)) < Ordinal(Integer(b))
    requires KeyBetween(a, b).Ok?
    ensures var k := KeyBetween(a, b).value;
      && IsKey(k)
      && (if WholeBetween(a, b) then
            Integer(k) == k && Fraction(k) == [] && LowestAbove(k, a) && Ordinal(k) == Ordinal(Integer(a)) + 1
          else Integer(k) == Integer(a) && Midpoint(Fraction(a), []) == Ok(Fraction(k)))
  {
    IncrementIsSuccessor(Integer(a));
    ExtremesBracket(Integer(b));
    var next := Increment(Integer(a)).value;
    WholeAgainstKey(next, b);
    OrdinalOrder(next, Integer(b));
    assert Less(next, b) <==> WholeBetween(a, b);
    if WholeBetween(a, b) {
      NextIntegerAbove(a);
      WholeKey(next);
      NextIsLowest(a, next);
    } else {
      MidpointBetween(Fraction(a), []);
      KeyFromParts(Integer(a), Midpoint(Fraction(a), []).value);
    }
  }

  // ----- appending over and over -----

  lemma FirstIsZero()
    ensures IsKey(FIRST) && Integer(FIRST) == FIRST && Fraction(FIRST) == [] && Ordinal(FIRST) == 0
  {
    ExtremesBracket(FIRST);
    assert FIRST[0] != SMALLEST[0];
    WholeKey(FIRST);
    assert FIRST[1..] == [ZERO] && [ZERO][..0] == [];
    assert Numeral([ZERO]) == 0;
  }

  type Step = Str -> Result<Str, KeyError>

  /** A step taken n times, up to its first error. */
  function Again(step: Step, first: Result<Str, KeyError>, n: nat): Result<Str, KeyError> {
    if n == 0 then first
    else
      var k := Again(step, first, n - 1);
      if k.Ok? then step(k.value) else k
  }

  /** The key after n appends to the first key of an empty list. */
  function Appended(n: nat): Result<Str, KeyError> {
    Again(Above(KeyBetween), KeyBetween([], []), n)
  }

  /** A key that is an integer part and nothing more. */
  predicate Whole(k: Str, number: int) {
    IsKey(k) && Integer(k) == k && Fraction(k) == [] && Ordinal(Integer(k)) == number
  }

  lemma WholeAbove(a: Str)
    requires IsKey(a) && Ordinal(Integer(a)) < Top()
    ensures Above(KeyBetween)(a).Ok? && Whole(Above(KeyBetween)(a).value, Ordinal(Integer(a)) + 1)
  {
    OrdinalOrder(Integer(a), LARGEST);
    AppendExactly(a);
  }

  /** step takes a whole number to the next, below top. */
  ghost predicate Counts(step: Step, top: int) {
    forall k: Str, n: nat :: Whole(k, n) && n < top ==> step(k).Ok? && Whole(step(k).value, n + 1)
  }

  lemma AppendingCounts()
    ensures Counts(Above(KeyBetween), Top())
  {
    forall k: Str, n: nat | Whole(k, n) && n < Top()
      ensures Above(KeyBetween)(k).Ok? && Whole(Above(KeyBetween)(k).value, n + 1)
    {
      WholeAbove(k);
    }
  }

  lemma FirstIsWhole()
    ensures KeyBetween([], []) == Ok(FIRST) && Whole(FIRST, 0)
  {
    FirstIsZero();
  }

  lemma {:induction false} AgainCounts(step: Step, first: Result<Str, KeyError>, top: int, n: nat)
    requires Counts(step, top) && first.Ok? && Whole(first.value, 0) && n <= top
    ensures Again(step, first, n).Ok? && Whole(Again(step, first, n).value, n)
  {
    if n > 0 {
      AgainCounts(step, first, top, n - 1);
    }
  }

  /** The n-th append has number n, as long as there are integer parts left. */
  lemma AppendsCount(n: nat)
    requires n <= Top()
    ensures Appended(n).Ok? && Whole(Appended(n).value, n)
  {
    AppendingCounts();
    FirstIsWhole();
    AgainCounts(Above(KeyBetween), Ok(FIRST), Top(), n);
  }

  lemma {:induction false} SpanAtLeast(k: nat)
    ensures Span(k) >= if k == 0 then 0 else Pow62(k)
  {
    if k > 0 {
      SpanAtLeast(k - 1);
    }
  }

  /** One header byte, and as many digits as it takes to count to a number. */
  predicate LongEnoughFor(k: Str, number: nat) {
    |k| >= 2 && Span(|k| - 2) <= number < Span(|k| - 1)
  }

  lemma NumberGivesLength(k: Str, n: nat)
    requires Whole(k, n)
    ensures LongEnoughFor(k, n)
  {
    OrdinalRange(k);
    assert k[0] >= LOWER_A;
  }

  /** An appended key is one byte for the header and as many digits as it takes to count that far ... */
  lemma AppendsStayShort(n: nat)
    requires n <= Top()
    ensures Appended(n).Ok? && LongEnoughFor(Appended(n).value, n)
  {
    AppendsCount(n);
    NumberGivesLength(Appended(n).value, n);
  }

  /** ... so its length is logarithmic in the number of appends. */
  lemma AppendsAreLogarithmic(n: nat)
    requires n <= Top() && Appended(n).Ok? && |Appended(n).value| > 2
    ensures Pow62(|Appended(n).value| - 2) <= n
  {
    AppendsStayShort(n);
    SpanAtLeast(|Appended(n).value| - 2);
  }

  lemma {:induction false} SpanGrows(j: nat, k: nat)
    requires j <= k
    ensures Span(j) <= Span(k)
  {
    SpanMonotone(j, k);
  }

  /** The first 242 234 appends take four bytes at most. */
  lemma ManyAppendsFitFourBytes(n: nat)
    requires n < 242_234
    ensures n <= Top() && Appended(n).Ok? && |Appended(n).value| <= 4
  {
    FourDigits();
    AppendsStayShort(n);
    if |Appended(n).value| > 4 {
      SpanGrows(3, |Appended(n).value| - 2);
    }
  }

  lemma FourDigits()
    ensures Span(3) == 242_234 && Top() >= Span(3)
  {
    ThreeSpan();
    TopIsFar(3);
  }

  lemma ThreeSpan()
    ensures Span(3) == 62 + 62 * 62 + 62 * 62 * 62
  {
    assert Pow62(1) == 62 && Pow62(2) == 3844 && Pow62(3) == 238_328;
    assert Span(1) == 62 && Span(2) == 3906;
  }

  lemma TopIsFar(digits: nat)
    requires digits <= LARGEST[0] as int - LOWER_A as int
    ensures Top() >= Span(digits)
  {
    OrdinalRange(LARGEST);
    SpanGrows(digits, LARGEST[0] as int - LOWER_A as int);
  }

  // ----- many keys above one -----

  /** Bulk keys above a key are the integer parts after it, one after another, as long as there are any. */
  lemma {:induction false} UpChainCounts(a: Str, n: nat, i: nat)
    requires IsKey(a) && i < n && Ordinal(Integer(a)) + n <= Top()
    ensures UpChain(a, n).Ok? && |UpChain(a, n).value| == n
    ensures Whole(UpChain(a, n).value[i], Ordinal(Integer(a)) + i + 1)
    decreases n
  {
    UpChainAscends(a, n);
    WholeAbove(a);
    var c := Above(KeyBetween)(a).value;
    if n > 1 {
      UpChainAscends(c, n - 1);
      if i > 0 {
        UpChainCounts(c, n - 1, i - 1);
      }
    }
  }

  lemma FromNothing(n: nat)
    requires n > 0
    ensures UpChain([], n) == Prepend([FIRST], UpChain(FIRST, n - 1))
  {
    FirstIsWhole();
    assert Above(KeyBetween)([]) == Ok(FIRST);
  }

  /** The i-th of n keys into an empty list has number i. */
  lemma EmptyListCounts(n: nat, i: nat)
    requires i < n <= Top()
    ensures UpChain([], n).Ok? && |UpChain([], n).value| == n && Whole(UpChain([], n).value[i], i)
  {
    FromNothing(n);
    FirstIsWhole();
    UpChainAscends([], n);
    if n > 1 {
      UpChainAscends(FIRST, n - 1);
      if i > 0 {
        UpChainCounts(FIRST, n - 1, i - 1);
      }
    }
  }

  lemma OneKeyIsAChain(a: Str)
    ensures NKeys(a, [], 1) == UpChain(a, 1)
  {
    assert Above(KeyBetween)(a) == KeyBetween(a, []);
    if KeyBetween(a, []).Ok? {
      assert [KeyBetween(a, []).value] + [] == [KeyBetween(a, []).value];
    }
  }

  /** Many keys above one, or into an empty list, are consecutive integer parts. */
  lemma BulkAppendsCount(a: Str, n: nat, i: nat)
    requires (a == [] || IsKey(a)) && i < n
    requires n + (if a == [] then 0 else Ordinal(Integer(a))) <= Top()
    ensures NKeys(a, [], n).Ok? && |NKeys(a, [], n).value| == n
    ensures Whole(NKeys(a, [], n).value[i], if a == [] then i else Ordinal(Integer(a)) + i + 1)
  {
    if n == 1 {
      OneKeyIsAChain(a);
    }
    if a == [] {
      EmptyListCounts(n, i);
    } else {
      UpChainCounts(a, n, i);
    }
  }

  /** Between two keys the one in the middle is the key between them, and the keys on either side fill what it leaves. */
  lemma BisectionMiddle(a: Str, b: Str, n: nat)
    requires IsKey(a) && IsKey(b) && Less(a, b) && n > 0
    ensures KeyBetween(a, b).Ok? && NKeys(a, b, n).Ok? && |NKeys(a, b, n).value| == n
    ensures var ks, c := NKeys(a, b, n).value, KeyBetween(a, b).value;
      ks[n / 2] == c && NKeys(a, c, n / 2) == Ok(ks[..n / 2]) && NKeys(c, b, n - n / 2 - 1) == Ok(ks[n / 2 + 1..])
  {
    KeyBetweenIsDense(a, b);
    BisectionFillsTheGap(a, b, n);
    BisectionFillsTheGap(a, KeyBetween(a, b).value, n / 2);
    BisectionFillsTheGap(KeyBetween(a, b).value, b, n - n / 2 - 1);
    SplitInTheMiddle(KeyBetween, a, b, n);
  }

  lemma SplitInTheMiddle(make: KeyMaker, a: Str, b: Str, n: nat)
    requires a != [] && b != [] && n > 0 && make(a, b).Ok?
    requires var c := make(a, b).value;
      var left, right := NKeysBy(make, a, c, n / 2), NKeysBy(make, c, b, n - n / 2 - 1);
      left.Ok? && |left.value| == n / 2 && right.Ok? && |right.value| == n - n / 2 - 1
    ensures NKeysBy(make, a, b, n).Ok?
    ensures var ks, c := NKeysBy(make, a, b, n).value, make(a, b).value;
      && |ks| == n && ks[n / 2] == c
      && NKeysBy(make, a, c, n / 2) == Ok(ks[..n / 2]) && NKeysBy(make, c, b, n - n / 2 - 1) == Ok(ks[n / 2 + 1..])
  {
    var c := make(a, b).value;
    if n > 1 {
      var left, right := NKeysBy(make, a, c, n / 2).value, NKeysBy(make, c, b, n - n / 2 - 1).value;
      var ks := left + [c] + right;
      assert NKeysBy(make, a, b, n) == Ok(ks);
      assert ks[..n / 2] == left && ks[n / 2 + 1..] == right;
    } else {
      assert n == 1 && NKeysBy(make, a, b, n) == Ok([c]);
      var none: seq<Str> := [];
      assert [c][..0] == none && [c][1..] == none;
    }
  }

  /** A negative count is an error of its own; otherwise bounds that give no key give none in bulk, for the same reason. */
  lemma BulkErrors(a: Str, b: Str, n: int)
    ensures n < 0 ==> NKeys(a, b, n) == Err(NegativeCount)
    ensures n > 0 && KeyBetween(a, b).Err? ==> NKeys(a, b, n) == Err(KeyBetween(a, b).error)
  {
    BulkErrorsOf(KeyBetween, a, b, n);
  }

  lemma BulkErrorsOf(make: KeyMaker, a: Str, b: Str, n: int)
    ensures n < 0 ==> NKeysBy(make, a, b, n) == Err(NegativeCount)
    ensures n > 0 && make(a, b).Err? ==> NKeysBy(make, a, b, n) == Err(make(a, b).error)
  {
    if n > 1 && b == [] {
      assert Above(make)(a) == make(a, b);
    } else if n > 1 && a == [] {
      assert Below(make)(b) == make(a, b);
    }
  }

  // ----- which fraction midpoint picks -----

  /** What midpoint accepts: canonical fractions in order, an empty upper one standing for 1. */
  predicate Ordered(a: Str, b: Str) {
    AllDigits(a) && AllDigits(b) && !TrailingZero(a) && !TrailingZero(b) && (b != [] ==> Less(a, b))
  }

  /** The common part is kept, and the rest is the midpoint of the rest. */
  lemma BehindCommonPart(a: Str, b: Str)
    requires Ordered(a, b)
    ensures var n := PaddedPrefix(a, b);
      && Midpoint(a, b).Ok? && Midpoint(Drop(a, n), b[n..]).Ok?
      && Midpoint(a, b).value == b[..n] + Midpoint(Drop(a, n), b[n..]).value
  {
    MidpointBetween(a, b);
    if PaddedPrefix(a, b) == 0 {
      assert Drop(a, 0) == a && b[0..] == b;
    }
  }

  lemma RestOrdered(a: Str, b: Str)
    requires Ordered(a, b) && b != [] && Head(a) == b[0]
    ensures Ordered(Drop(a, 1), b[1..]) && b[1..] != []
  {
    if a != [] {
      assert Drop(a, 1) == a[1..] && Less(a[1..], b[1..]);
    }
  }

  lemma OneLonger(a: Str, b: Str, n: nat)
    requires b != [] && Head(a) == b[0] && n == PaddedPrefix(Drop(a, 1), b[1..])
    ensures PaddedPrefix(a, b) == n + 1
    ensures Drop(Drop(a, 1), n) == Drop(a, n + 1) && b[1..][n..] == b[n + 1..] && b[..n + 1] == [b[0]] + b[1..][..n]
  {
    if n + 1 < |a| {
      assert a[1..][n..] == a[n + 1..];
    }
  }

  lemma PutBehind(p: Str, q: Str, m: Str, c: Byte, whole: Str, rest: Str)
    requires p == [c] + q && whole == p + m && rest == q + m
    ensures whole == [c] + rest
  {
  }

  /** A digit both bounds share is the result's first digit, and the rest is the midpoint of the rest. */
  lemma SharedDigit(a: Str, b: Str)
    requires Ordered(a, b) && b != [] && Head(a) == b[0]
    ensures Ordered(Drop(a, 1), b[1..]) && b[1..] != []
    ensures Midpoint(a, b).Ok? && Midpoint(Drop(a, 1), b[1..]).Ok?
    ensures Midpoint(a, b).value == [b[0]] + Midpoint(Drop(a, 1), b[1..]).value
  {
    var n := PaddedPrefix(Drop(a, 1), b[1..]);
    RestOrdered(a, b);
    OneLonger(a, b, n);
    BehindCommonPart(a, b);
    BehindCommonPart(Drop(a, 1), b[1..]);
    PutBehind(b[..n + 1], b[1..][..n], Midpoint(Drop(a, n + 1), b[n + 1..]).value, b[0],
              Midpoint(a, b).value, Midpoint(Drop(a, 1), b[1..]).value);
  }

  /** Where there is no digit in between and nothing follows the upper one, the result keeps the lower one's digit. */
  lemma LowerDigit(a: Str, b: Str)
    requires Ordered(a, b) && |b| <= 1 && PaddedPrefix(a, b) == 0
    requires (if b == [] then RADIX else DigitIndex(b[0])) - DigitIndex(Head(a)) == 1
    ensures Ordered(Drop(a, 1), []) && Midpoint(a, b).Ok? && Midpoint(Drop(a, 1), []).Ok?
    ensures Midpoint(a, b).value == [Head(a)] + Midpoint(Drop(a, 1), []).value
  {
    MidpointBetween(Drop(a, 1), []);
    DigitsGoDeeper(a, b, DigitIndex(Head(a)), if b == [] then RADIX else DigitIndex(b[0]));
    assert Digit(DigitIndex(Head(a))) == Head(a);
  }

  /** A fraction above another that begins with its first digit goes on above the rest of it. */
  lemma GoesOnAbove(a: Str, m: Str)
    requires AllDigits(m) && !TrailingZero(m) && Less(a, m) && m[0] == Head(a)
    ensures Between(Drop(a, 1), m[1..], [])
  {
  }

  /** Between neighbouring digits there is only the lower one to begin with. */
  lemma BeginsLow(a: Str, m: Str, b: Str)
    requires Ordered(a, b) && Between(a, m, b) && |b| <= 1
    requires (if b == [] then RADIX else DigitIndex(b[0])) - DigitIndex(Head(a)) == 1
    ensures m[0] == Head(a)
  {
    assert b != [] ==> !Less(m[1..], b[1..]);
    assert 0 <= DigitIndex(m[0]);
    if a != [] {
      assert a[0] <= m[0] && 0 <= DigitIndex(a[0]);
    }
    assert DigitIndex(Head(a)) <= DigitIndex(m[0]);
    assert DigitIndex(m[0]) < if b == [] then RADIX else DigitIndex(b[0]);
    assert Digit(DigitIndex(Head(a))) == Head(a) && Digit(DigitIndex(m[0])) == m[0];
  }

  /** No canonical fraction between the bounds is shorter than the midpoint. */
  lemma {:induction false} MidpointIsShortest(a: Str, b: Str, m: Str)
    requires Ordered(a, b) && Between(a, m, b)
    ensures Midpoint(a, b).Ok? && |Midpoint(a, b).value| <= |m|
    decreases |b|, |a|
  {
    MidpointBetween(a, b);
    var low, high := DigitIndex(Head(a)), if b == [] then RADIX else DigitIndex(b[0]);
    if b != [] && Head(a) == b[0] {
      SharedDigit(a, b);
      GoesOnAbove(a, m);
      MidpointIsShortest(Drop(a, 1), b[1..], m[1..]);
    } else if high - low > 1 {
      DigitsApart(a, b, low, high);
    } else {
      LeadingDigitsApart(a, b);
      if |b| > 1 {
        DigitsAdjacent(a, b, low, high);
      } else {
        LowerDigit(a, b);
        BeginsLow(a, m, b);
        GoesOnAbove(a, m);
        MidpointIsShortest(Drop(a, 1), [], m[1..]);
      }
    }
  }

  function DigitAt(a: Str, i: nat): int {
    if i < |a| then DigitIndex(a[i]) else 0
  }

  /** What the digit at i must stay below for a fraction to stay below b. */
  function CeilingAt(m: Str, b: Str, i: nat): int
    requires i <= |m|
  {
    if i < |b| && m[..i] == b[..i] then DigitIndex(b[i]) else RADIX
  }

  /** m follows a, padded by zeros, up to its last digit, and that is halfway between a's digit and the ceiling there, rounded
      up: the ceiling itself only when the two are neighbours. */
  predicate EndsHalfway(a: Str, m: Str, b: Str) {
    && m != []
    && (forall i :: 0 <= i < |m| - 1 ==> m[i] == if i < |a| then a[i] else ZERO)
    && var low, high := DigitAt(a, |m| - 1), CeilingAt(m, b, |m| - 1);
       low < high && DigitIndex(m[|m| - 1]) == (low + high + 1) / 2
  }

  lemma EndsHalfwayBehind(a: Str, c: Byte, m: Str, b: Str)
    requires c == Head(a) && EndsHalfway(Drop(a, 1), m, if b == [] then [] else b[1..])
    requires b != [] && b[0] != c ==> |b| == 1
    ensures EndsHalfway(a, [c] + m, b)
  {
    var k := |m| - 1;
    assert DigitAt(a, k + 1) == DigitAt(Drop(a, 1), k);
    if b != [] && b[0] == c && k + 1 < |b| {
      assert ([c] + m)[..k + 1] == [c] + m[..k];
      assert b[..k + 1] == [c] + b[1..][..k];
      assert b[..k + 1][1..] == b[1..][..k] && ([c] + m)[..k + 1][1..] == m[..k];
    }
  }

  lemma OneDigitHalfway(a: Str, b: Str, d: Byte)
    requires AllDigits(a) && AllDigits(b)
    requires var low, high := DigitIndex(Head(a)), if b == [] then RADIX else DigitIndex(b[0]);
      low < high && DigitIndex(d) == (low + high + 1) / 2
    ensures EndsHalfway(a, [d], b)
  {
    if b != [] {
      assert [d][..0] == b[..0];
    }
  }

  /** Every digit midpoint chooses halves what there is to choose from. */
  lemma {:induction false} MidpointHalves(a: Str, b: Str)
    requires Ordered(a, b)
    ensures Midpoint(a, b).Ok? && EndsHalfway(a, Midpoint(a, b).value, b)
    decreases |b|, |a|
  {
    MidpointBetween(a, b);
    var low, high := DigitIndex(Head(a)), if b == [] then RADIX else DigitIndex(b[0]);
    if b != [] && Head(a) == b[0] {
      SharedDigit(a, b);
      MidpointHalves(Drop(a, 1), b[1..]);
      EndsHalfwayBehind(a, b[0], Midpoint(Drop(a, 1), b[1..]).value, b);
    } else if high - low > 1 {
      DigitsApart(a, b, low, high);
      OneDigitHalfway(a, b, Digit((low + high + 1) / 2));
    } else {
      LeadingDigitsApart(a, b);
      if |b| > 1 {
        DigitsAdjacent(a, b, low, high);
        OneDigitHalfway(a, b, b[0]);
      } else {
        LowerDigit(a, b);
        MidpointHalves(Drop(a, 1), []);
        EndsHalfwayBehind(a, Head(a), Midpoint(Drop(a, 1), []).value, b);
      }
    }
  }
}
