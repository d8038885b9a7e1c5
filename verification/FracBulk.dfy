/** NKeysBetween: many keys at once, by bisection or by chaining (pkg/fracdex/fracdex.go). */
module FracBulk {
  import opened Outcomes
  import opened ByteOrder
  import opened FracIntegers
  import opened FracMidpoint
  import opened FracKeys

  type Keys = Result<seq<Str>, KeyError>

  function Prepend(done: seq<Str>, more: Keys): Keys {
    if more.Ok? then Ok(done + more.value) else more
  }

  /** n keys, each got from the one before it by the same step. */
  function Chain(step: Str -> Result<Str, KeyError>, from: Str, n: nat): Keys
    decreases n
  {
    if n == 0 then Ok([])
    else if step(from).Err? then Err(step(from).error)
    else Prepend([step(from).value], Chain(step, step(from).value, n - 1))
  }

  /** Whatever makes one key from two bounds: the bulk algorithm does not look inside it. */
  type KeyMaker = (Str, Str) -> Result<Str, KeyError>

  function Above(make: KeyMaker): Str -> Result<Str, KeyError> {
    c => make(c, [])
  }

  function Below(make: KeyMaker): Str -> Result<Str, KeyError> {
    c => make([], c)
  }

  function Reversed(s: seq<Str>): (r: seq<Str>)
    ensures |r| == |s| && forall i :: 0 <= i < |s| ==> r[i] == s[|s| - 1 - i]
  {
    seq(|s|, i requires 0 <= i < |s| => s[|s| - 1 - i])
  }

  function Around(left: Keys, c: Str, right: Keys): Keys {
    if left.Err? then left
    else if right.Err? then right
    else Ok(left.value + [c] + right.value)
  }

  function NKeysBy(make: KeyMaker, a: Str, b: Str, n: int): Keys
    decreases n
  {
    if n < 0 then Err(NegativeCount)
    else if n == 0 then Ok([])
    else if n > 1 && b == [] then Chain(Above(make), a, n)
    else if n > 1 && a == [] then
      if Chain(Below(make), b, n).Ok? then Ok(Reversed(Chain(Below(make), b, n).value)) else Chain(Below(make), b, n)
    else if make(a, b).Err? then Err(make(a, b).error)
    else if n == 1 then Ok([make(a, b).value])
    else Around(NKeysBy(make, a, make(a, b).value, n / 2), make(a, b).value,
                NKeysBy(make, make(a, b).value, b, n - n / 2 - 1))
  }

  function NKeys(a: Str, b: Str, n: int): Keys {
    NKeysBy(KeyBetween, a, b, n)
  }

  /** Each key above the one before it, with no upper bound. */
  function UpChain(a: Str, n: nat): Keys {
    Chain(Above(KeyBetween), a, n)
  }

  /** Each key below the one before it, with no lower bound. */
  function DownChain(b: Str, n: nat): Keys {
    Chain(Below(KeyBetween), b, n)
  }

  method ReverseInPlace(out: array<Str>)
    modifies out
    ensures out[..] == Reversed(old(out[..]))
  {
    var i, j := 0, out.Length - 1;
    while i < j
      invariant 0 <= i <= out.Length && i + j == out.Length - 1 && i <= j + 2
      invariant forall k :: 0 <= k < i || j < k < out.Length ==> out[k] == old(out[out.Length - 1 - k])
      invariant forall k :: i <= k <= j ==> out[k] == old(out[k])
    {
      out[i], out[j] := out[j], out[i];
      i, j := i + 1, j - 1;
    }
  }

  /** A Go slice of keys, reversed where it lies. */
  method ReverseSlice(out: seq<Str>) returns (r: seq<Str>)
    ensures r == Reversed(out)
  {
    var buf := new Str[|out|](i requires 0 <= i < |out| => out[i]);
    assert buf[..] == out;
    ReverseInPlace(buf);
    r := buf[..];
  }

  method NKeysBetween(a: Str, b: Str, n: int) returns (r: Keys)
    ensures r == NKeys(a, b, n)
  {
    r := ManyKeys(KeyBetween, a, b, n);
  }

  method ManyKeys(make: KeyMaker, a: Str, b: Str, n: int) returns (r: Keys)
    ensures r == NKeysBy(make, a, b, n)
    decreases n
  {
    if n < 0 {
      return Err(NegativeCount);
    }
    if n == 0 {
      return Ok([]);
    }
    var first := make(a, b);
    if first.Err? {
      return Err(first.error);
    }
    var c := first.value;
    if n == 1 {
      return Ok([c]);
    }
    if b == [] {
      r := BuildChain(Above(make), c, n);
      return;
    }
    if a == [] {
      r := BuildChain(Below(make), c, n);
      if r.Ok? {
        var ascending := ReverseSlice(r.value);
        r := Ok(ascending);
      }
      return;
    }
    var mid := n / 2;
    var left := ManyKeys(make, a, c, mid);
    if left.Err? {
      return left;
    }
    var right := ManyKeys(make, c, b, n - mid - 1);
    if right.Err? {
      return right;
    }
    return Ok(left.value + [c] + right.value);
  }

  /** The appending loop, from the first key on. */
  method BuildChain(step: Str -> Result<Str, KeyError>, first: Str, n: int) returns (r: Keys)
    requires n >= 1
    ensures r == Prepend([first], Chain(step, first, n - 1))
  {
    var c, out := first, [first];
    for i := 0 to n - 1
      invariant Prepend([first], Chain(step, first, n - 1)) == Prepend(out, Chain(step, c, n - 1 - i))
    {
      var next := step(c);
      ChainStep(step, out, c, n - 1 - i);
      if next.Err? {
        return Err(next.error);
      }
      c := next.value;
      out := out + [c];
    }
    assert out + [] == out;
    return Ok(out);
  }

  lemma PrependTwice(done: seq<Str>, c: Str, more: Keys)
    ensures Prepend(done, Prepend([c], more)) == Prepend(done + [c], more)
  {
    if more.Ok? {
      assert done + ([c] + more.value) == done + [c] + more.value;
    }
  }

  lemma ChainStep(step: Str -> Result<Str, KeyError>, out: seq<Str>, c: Str, n: nat)
    requires n > 0
    ensures Prepend(out, Chain(step, c, n)) ==
      if step(c).Err? then Err(step(c).error) else Prepend(out + [step(c).value], Chain(step, step(c).value, n - 1))
  {
    if step(c).Ok? {
      PrependTwice(out, step(c).value, Chain(step, step(c).value, n - 1));
    }
  }

  // ----- what the keys are -----

  predicate Ascending(ks: seq<Str>) {
    forall i, j :: 0 <= i < j < |ks| ==> Less(ks[i], ks[j])
  }

  predicate AllInside(a: Str, ks: seq<Str>, b: Str) {
    forall i :: 0 <= i < |ks| ==> Inside(a, ks[i], b)
  }

  predicate AllKeys(ks: seq<Str>) {
    forall i :: 0 <= i < |ks| ==> IsKey(ks[i])
  }

  function FloorLog2(n: nat): nat
    requires n >= 1
  {
    if n == 1 then 0 else 1 + FloorLog2(n / 2)
  }

  lemma {:induction false} FloorLog2Monotone(m: nat, n: nat)
    requires 1 <= m <= n
    ensures FloorLog2(m) <= FloorLog2(n)
  {
    if m > 1 {
      FloorLog2Monotone(m / 2, n / 2);
    }
  }

  predicate AllWithin(ks: seq<Str>, size: nat) {
    forall i :: 0 <= i < |ks| ==> |ks[i]| <= size
  }

  predicate FillsGap(a: Str, r: Keys, b: Str, n: nat) {
    && r.Ok? && |r.value| == n
    && Ascending(r.value) && AllInside(a, r.value, b) && AllKeys(r.value)
    && (n > 0 ==> AllWithin(r.value, Longer(a, b) + 1 + FloorLog2(n)))
  }

  lemma HalvesFill(a: Str, left: Keys, c: Str, right: Keys, b: Str, n: nat)
    requires a != [] && b != [] && n > 1
    requires IsKey(c) && Less(a, c) && Less(c, b) && |c| <= Longer(a, b) + 1
    requires FillsGap(a, left, c, n / 2) && FillsGap(c, right, b, n - n / 2 - 1)
    ensures FillsGap(a, Around(left, c, right), b, n)
  {
    JoinAround(a, left.value, c, right.value, b);
    var size := Longer(a, b) + 1 + FloorLog2(n);
    assert FloorLog2(n) == 1 + FloorLog2(n / 2);
    WithinMore(left.value, Longer(a, c) + 1 + FloorLog2(n / 2), size);
    if n > 2 {
      FloorLog2Monotone(n - n / 2 - 1, n / 2);
      WithinMore(right.value, Longer(c, b) + 1 + FloorLog2(n - n / 2 - 1), size);
    }
    AroundWithin(left.value, c, right.value, size);
  }

  lemma WithinMore(ks: seq<Str>, small: nat, large: nat)
    requires AllWithin(ks, small) && small <= large
    ensures AllWithin(ks, large)
  {
  }

  lemma AroundWithin(left: seq<Str>, c: Str, right: seq<Str>, size: nat)
    requires AllKeys(left) && IsKey(c) && AllKeys(right)
    requires AllWithin(left, size) && |c| <= size && AllWithin(right, size)
    ensures AllKeys(left + [c] + right) && AllWithin(left + [c] + right, size)
  {
  }

  /** Between two keys, NKeysBetween never fails: n strictly ascending keys inside the gap, each at most
      1 + floor(log2 n) bytes longer than the longer bound. */
  lemma {:induction false} BisectionFillsTheGap(a: Str, b: Str, n: nat)
    requires IsKey(a) && IsKey(b) && Less(a, b)
    ensures FillsGap(a, NKeys(a, b, n), b, n)
    decreases n
  {
    KeyBetweenIsDense(a, b);
    if n > 1 {
      var c := KeyBetween(a, b).value;
      BisectionFillsTheGap(a, c, n / 2);
      BisectionFillsTheGap(c, b, n - n / 2 - 1);
      HalvesFill(a, NKeys(a, c, n / 2), c, NKeys(c, b, n - n / 2 - 1), b, n);
    }
  }

  lemma JoinAround(a: Str, left: seq<Str>, c: Str, right: seq<Str>, b: Str)
    requires Ascending(left) && AllInside(a, left, c) && Ascending(right) && AllInside(c, right, b)
    requires c != [] && Inside(a, c, b)
    ensures Ascending(left + [c] + right) && AllInside(a, left + [c] + right, b)
  {
    var ks := left + [c] + right;
    forall i | 0 <= i < |ks| ensures Inside(a, ks[i], b) {
      if i < |left| && b != [] {
        LessTransitive(left[i], c, b);
      } else if i > |left| && a != [] {
        LessTransitive(a, c, ks[i]);
      }
    }
    forall i, j | 0 <= i < j < |ks| ensures Less(ks[i], ks[j]) {
      if i < |left| < j {
        LessTransitive(ks[i], c, ks[j]);
      }
    }
  }

  /** With no upper bound the chain never fails either. */
  lemma {:induction false} UpChainAscends(a: Str, n: nat)
    requires a == [] || IsKey(a)
    ensures UpChain(a, n).Ok?
    ensures var ks := UpChain(a, n).value; |ks| == n && Ascending(ks) && AllInside(a, ks, []) && AllKeys(ks)
    decreases n
  {
    if n > 0 {
      KeyBetweenIsDense(a, []);
      var c := KeyBetween(a, []).value;
      UpChainAscends(c, n - 1);
      var rest := UpChain(c, n - 1).value;
      ConsAbove(a, c, rest);
    }
  }

  lemma ConsAbove(a: Str, c: Str, rest: seq<Str>)
    requires Inside(a, c, []) && IsKey(c) && Ascending(rest) && AllInside(c, rest, []) && AllKeys(rest)
    ensures Ascending([c] + rest) && AllInside(a, [c] + rest, []) && AllKeys([c] + rest)
  {
    var ks := [c] + rest;
    forall i | 0 <= i < |ks| ensures Inside(a, ks[i], []) {
      if i > 0 && a != [] {
        LessTransitive(a, c, ks[i]);
      }
    }
  }

  predicate Descending(ks: seq<Str>) {
    forall i, j :: 0 <= i < j < |ks| ==> Less(ks[j], ks[i])
  }

  /** The integer part is already the smallest: going lower only lengthens the fraction. */
  predicate AtFloor(b: Str)
    requires IsKey(b)
  {
    Integer(b) == SMALLEST
  }

  /** How many results a descending chain can produce, the reserved SMALLEST included. */
  function Depth(b: Str): int
    requires IsKey(b)
  {
    Ordinal(Integer(b)) - Bottom() + if Fraction(b) == [] then 0 else 1
  }

  /** One step down a chain uses up one unit of depth. */
  lemma StepDown(b: Str)
    requires IsKey(b)
    ensures ValidBounds([], b) && KeyBetween([], b).Ok?
    ensures AtFloor(b) ==> IsKey(KeyBetween([], b).value) && AtFloor(KeyBetween([], b).value)
    ensures !AtFloor(b) ==> Depth(b) >= 1 && (Depth(b) == 1 <==> !IsKey(KeyBetween([], b).value))
    ensures !AtFloor(b) && Depth(b) > 1 ==>
      !AtFloor(KeyBetween([], b).value) && Depth(KeyBetween([], b).value) == Depth(b) - 1
  {
    KeyBetweenIsDense([], b);
    var ib, fb := Integer(b), Fraction(b);
    ExtremesBracket(ib);
    LowestIntegerKey();
    if ib == SMALLEST {
      MidpointBetween([], fb);
      KeyFromParts(SMALLEST, Midpoint([], fb).value);
      IntegersNotKeysOf(LOWEST_INTEGER_KEY, b);
    } else {
      if Ordinal(ib) == Bottom() {
        OrdinalOrder(ib, SMALLEST);
      }
      if fb != [] {
        PrefixIsLess(ib, fb);
        KeyFromParts(ib, []);
        assert ib + [] == ib;
        IntegersNotKeysOf(LOWEST_INTEGER_KEY, b);
      } else {
        assert b == ib;
        LessIrreflexive(b);
        PredecessorOfKey(b);
        var k := Decrement(b).value;
        if k != SMALLEST {
          KeyFromParts(k, []);
          assert k + [] == k;
          OrdinalOrder(k, SMALLEST);
          IntegersNotKeysOf(k, k);
        }
      }
    }
  }

  predicate DescendsFrom(b: Str, ks: seq<Str>, n: nat) {
    |ks| == n && Descending(ks) && AllInside([], ks, b)
  }

  lemma DownChainOrder(b: Str, n: nat)
    requires b != [] && DownChain(b, n).Ok?
    ensures DescendsFrom(b, DownChain(b, n).value, n)
    decreases n
  {
    if n > 0 {
      KeyBetweenIsDense([], b);
      var c := KeyBetween([], b).value;
      DownChainOrder(c, n - 1);
      ConsBelow(c, DownChain(c, n - 1).value, b);
    }
  }

  /** Whether n steps down from b can all be taken, and whether they also stay above the reserved SMALLEST. */
  predicate Fits(b: Str, n: nat)
    requires IsKey(b)
  {
    AtFloor(b) || n <= Depth(b)
  }

  predicate FitsAbove(b: Str, n: nat)
    requires IsKey(b)
  {
    AtFloor(b) || n < Depth(b) || n == 0
  }

  lemma FitsNone(b: Str)
    requires IsKey(b)
    ensures Fits(b, 0)
  {
    ExtremesBracket(Integer(b));
  }

  lemma FitsStep(b: Str, n: nat)
    requires IsKey(b) && n > 0
    ensures KeyBetween([], b).Ok?
    ensures var c := KeyBetween([], b).value;
      && (Fits(b, n) <==> n == 1 || (IsKey(c) && Fits(c, n - 1)))
      && (FitsAbove(b, n) <==> IsKey(c) && FitsAbove(c, n - 1))
      && (!IsKey(c) ==> c == SMALLEST)
  {
    StepDown(b);
    KeyBetweenIsDense([], b);
  }

  /** With no lower bound the chain succeeds exactly while the integer parts last ... */
  lemma {:induction false} DownChainSucceeds(b: Str, n: nat)
    requires IsKey(b)
    ensures DownChain(b, n).Ok? <==> Fits(b, n)
    decreases n
  {
    if n == 0 {
      DownChainOfNone(b);
    } else {
      var c := KeyBelowIsFirst(b);
      if IsKey(c) {
        DownChainSucceeds(c, n - 1);
        DownChainOnKey(b, c, n);
      } else {
        DownChainOnSentinel(b, c, n);
      }
    }
  }

  lemma KeyBelowIsFirst(b: Str) returns (c: Str)
    requires IsKey(b)
    ensures KeyBetween([], b) == Ok(c) && c != []
  {
    StepDown(b);
    KeyBetweenIsDense([], b);
    c := KeyBetween([], b).value;
  }

  lemma DownChainOfNone(b: Str)
    requires IsKey(b)
    ensures DownChain(b, 0).Ok? && Fits(b, 0)
  {
    FitsNone(b);
  }

  lemma DownChainStep(b: Str, c: Str, n: nat)
    requires n > 0 && KeyBetween([], b) == Ok(c)
    ensures DownChain(b, n).Ok? <==> DownChain(c, n - 1).Ok?
  {
  }

  /** One step onto a key leaves the question with that key. */
  lemma DownChainOnKey(b: Str, c: Str, n: nat)
    requires IsKey(b) && n > 0 && KeyBetween([], b) == Ok(c) && IsKey(c)
    requires DownChain(c, n - 1).Ok? <==> Fits(c, n - 1)
    ensures DownChain(b, n).Ok? <==> Fits(b, n)
  {
    DownChainStep(b, c, n);
    FitsStep(b, n);
    FitsNone(c);
  }

  /** One step onto the reserved value is the last. */
  lemma DownChainOnSentinel(b: Str, c: Str, n: nat)
    requires IsKey(b) && n > 0 && KeyBetween([], b) == Ok(c) && c != [] && !IsKey(c)
    ensures DownChain(b, n).Ok? <==> Fits(b, n)
  {
    FitsOneStep(b, c, n);
    NothingBelow(c, n - 1);
    DownChainStep(b, c, n);
  }

  lemma FitsOneStep(b: Str, c: Str, n: nat)
    requires IsKey(b) && n > 0 && KeyBetween([], b) == Ok(c) && !IsKey(c)
    ensures Fits(b, n) <==> n == 1
  {
    FitsStep(b, n);
  }

  /** Below what is neither a key nor absent a chain has no first step. */
  lemma NothingBelow(c: Str, n: nat)
    requires c != [] && !IsKey(c)
    ensures DownChain(c, n).Ok? <==> n == 0
  {
    assert Below(KeyBetween)(c) == KeyBetween([], c);
  }

  /** ... and all its results are keys exactly when it stops one step earlier. */
  lemma {:induction false} DownChainKeys(b: Str, n: nat)
    requires IsKey(b) && DownChain(b, n).Ok?
    ensures AllKeys(DownChain(b, n).value) <==> FitsAbove(b, n)
    decreases n
  {
    if n > 0 {
      var c := KeyBelowIsFirst(b);
      assert FitsAbove(b, n) <==> IsKey(c) && FitsAbove(c, n - 1) by {
        FitsStep(b, n);
      }
      var rest := DownChainCons(b, c, n);
      if IsKey(c) {
        DownChainKeys(c, n - 1);
      }
      ConsKeys(c, rest);
    }
  }

  lemma DownChainCons(b: Str, c: Str, n: nat) returns (rest: seq<Str>)
    requires n > 0 && KeyBetween([], b) == Ok(c) && DownChain(b, n).Ok?
    ensures DownChain(c, n - 1) == Ok(rest) && DownChain(b, n).value == [c] + rest
  {
    rest := DownChain(c, n - 1).value;
  }

  lemma ConsKeys(c: Str, rest: seq<Str>)
    ensures AllKeys([c] + rest) <==> IsKey(c) && AllKeys(rest)
  {
    var ks := [c] + rest;
    if AllKeys(ks) {
      assert ks[0] == c;
      assert forall i :: 0 <= i < |rest| ==> rest[i] == ks[i + 1];
    }
  }

  lemma ConsBelow(c: Str, rest: seq<Str>, b: Str)
    requires b != [] && Less(c, b) && c != [] && Descending(rest) && AllInside([], rest, c)
    ensures Descending([c] + rest) && AllInside([], [c] + rest, b)
  {
    var ks := [c] + rest;
    forall i | 0 <= i < |ks| ensures Inside([], ks[i], b) {
      if i > 0 {
        LessTransitive(ks[i], c, b);
      }
    }
  }

  lemma ReversalAscends(ks: seq<Str>, a: Str, b: Str)
    requires Descending(ks) && AllInside(a, ks, b)
    ensures Ascending(Reversed(ks)) && AllInside(a, Reversed(ks), b)
    ensures AllKeys(Reversed(ks)) <==> AllKeys(ks)
  {
    var r := Reversed(ks);
    if AllKeys(r) {
      forall i | 0 <= i < |ks| ensures IsKey(ks[i]) {
        assert r[|ks| - 1 - i] == ks[i];
      }
    }
  }

  /** Whether a downward request still fits above the reserved SMALLEST. */
  predicate Reachable(a: Str, b: Str, n: int)
    requires ValidBounds(a, b)
  {
    a == [] && b != [] && !AtFloor(b) ==> n <= Depth(b)
  }

  /** NKeysBetween for every pair of bounds and every count: when it succeeds, and what it then returns. */
  lemma NKeysExactly(a: Str, b: Str, n: int)
    ensures NKeys(a, b, n).Ok? <==> n == 0 || (n > 0 && ValidBounds(a, b) && Reachable(a, b, n))
    ensures NKeys(a, b, n).Ok? ==>
      var ks := NKeys(a, b, n).value;
      |ks| == n && Ascending(ks) && AllInside(a, ks, b)
      && (AllKeys(ks) <==> n == 0 || !(a == [] && b != [] && !AtFloor(b) && n == Depth(b)))
  {
    if n > 0 {
      KeyBetweenIsDense(a, b);
      if ValidBounds(a, b) {
        if a != [] && b != [] {
          BisectionFillsTheGap(a, b, n);
        } else if b == [] {
          UpChainAscends(a, n);
          UpChainAscends(a, 1);
        } else {
          StepDown(b);
          DownChainSucceeds(b, n);
          if DownChain(b, n).Ok? {
            DownChainOrder(b, n);
            DownChainKeys(b, n);
            ReversalAscends(DownChain(b, n).value, a, b);
          }
        }
      }
    }
  }
}
