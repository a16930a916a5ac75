/** The demo seed's monotonic ULID: ten Crockford characters of clock, sixteen of randomness,
    the randomness incremented in place when the clock has not advanced. */
module Ulid {
  import opened Sequences
  import opened Arithmetic

  const CROCKFORD := "0123456789ABCDEFGHJKMNPQRSTVWXYZ"

  type Digit = d: int | 0 <= d < 32

  function Pow32(n: nat): (p: nat)
    ensures p > 0
  {
    if n == 0 then 1 else Pow32(n - 1) * 32
  }

  /** The number a digit string stands for, most significant digit first. */
  function Value(ds: seq<Digit>): nat {
    if ds == [] then 0 else Value(ds[..|ds| - 1]) * 32 + ds[|ds| - 1]
  }

  function Render(ds: seq<Digit>): (text: string)
    ensures |text| == |ds|
    ensures forall i :: 0 <= i < |ds| ==> text[i] == CROCKFORD[ds[i]]
  {
    seq(|ds|, i requires 0 <= i < |ds| => CROCKFORD[ds[i]])
  }

  /** The last `n` base-32 digits of `t`. */
  function DigitsOf(t: nat, n: nat): (ds: seq<Digit>)
    ensures |ds| == n
  {
    if n == 0 then [] else DigitsOf(t / 32, n - 1) + [t % 32]
  }

  /** Plus one, dropping the carry out of the first digit. */
  function Increment(ds: seq<Digit>): (r: seq<Digit>)
    ensures |r| == |ds|
  {
    if ds == [] then []
    else if ds[|ds| - 1] == 31 then Increment(ds[..|ds| - 1]) + [0]
    else ds[..|ds| - 1] + [ds[|ds| - 1] + 1]
  }

  ghost predicate AllMax(ds: seq<Digit>) { forall i :: 0 <= i < |ds| ==> ds[i] == 31 }

  // ---- the generator -----------------------------------------------------

  datatype State = State(lastMs: int, random: seq<Digit>)

  const FRESH := State(-1, [])

  /** One call: a clock reading, and the sixteen digits it would draw. */
  function Next(s: State, now: nat, draw: seq<Digit>): State {
    if now <= s.lastMs then State(s.lastMs, Increment(s.random)) else State(now, draw)
  }

  function Text(s: State): string
    requires s.lastMs >= 0
  {
    Render(DigitsOf(s.lastMs, 10)) + Render(s.random)
  }

  class Generator {
    var lastMs: int
    var random: array<Digit>

    ghost function Now(): State reads this, random { State(lastMs, random[..]) }

    ghost predicate Valid() reads this, random { lastMs >= -1 && (lastMs >= 0 ==> random.Length == 16) }

    constructor ()
      ensures Valid() && fresh(random) && Now() == FRESH
    {
      lastMs := -1;
      random := new Digit[0];
    }

    method Ulid(now: nat, draw: seq<Digit>) returns (id: string)
      requires Valid() && |draw| == 16
      modifies this, random
      ensures Valid() && (random == old(random) || fresh(random))
      ensures Now() == Next(old(Now()), now, draw)
      ensures lastMs >= 0 && id == Text(Now())
    {
      var ms := now;
      if ms <= lastMs {
        ms := lastMs;
        Bump(random);
      } else {
        random := new Digit[16](i requires 0 <= i < 16 => draw[i]);
        assert random[..] == draw;
      }
      lastMs := ms;
      var time := TimePart(ms);
      id := time + Render(random[..]);
    }
  }

  /** The carry loop, on the digits themselves. */
  method Bump(digits: array<Digit>)
    modifies digits
    ensures digits[..] == Increment(old(digits[..]))
  {
    ghost var start := digits[..];
    var i := digits.Length - 1;
    while i >= 0 && digits[i] == 31
      invariant -1 <= i < digits.Length
      invariant digits[..] == start[..i + 1] + Zeros(digits.Length - 1 - i)
      invariant forall k :: i < k < |start| ==> start[k] == 31
    {
      digits[i] := 0;
      i := i - 1;
    }
    IncrementCarries(start, i + 1);
    if i >= 0 {
      assert Increment(start[..i + 1]) == start[..i + 1][i := start[i] + 1];
      digits[i] := digits[i] + 1;
    }
  }

  function Zeros(n: nat): seq<Digit> { seq(n, _ => 0) }

  lemma {:induction false} IncrementCarries(ds: seq<Digit>, k: nat)
    requires k <= |ds| && forall i :: k <= i < |ds| ==> ds[i] == 31
    ensures Increment(ds) == Increment(ds[..k]) + Zeros(|ds| - k)
  {
    if k == |ds| {
      assert ds[..k] == ds;
    } else {
      IncrementCarries(ds[..|ds| - 1], k);
      assert ds[..|ds| - 1][..k] == ds[..k];
    }
  }

  /** The loop that writes the clock, least significant character first. */
  method TimePart(ms: nat) returns (time: string)
    ensures time == Render(DigitsOf(ms, 10))
  {
    time := "";
    var t := ms;
    ghost var digits: seq<Digit> := [];
    for i := 0 to 10
      invariant |digits| == i && time == Render(digits)
      invariant DigitsOf(ms, 10) == DigitsOf(t, 10 - i) + digits
    {
      assert DigitsOf(t, 10 - i) == DigitsOf(t / 32, 9 - i) + [t % 32];
      Associate(DigitsOf(t / 32, 9 - i), [t % 32], digits);
      digits := [t % 32] + digits;
      time := [CROCKFORD[t % 32]] + time;
      t := t / 32;
    }
  }

  // ---- numbers and characters --------------------------------------------

  lemma {:induction false} ValueInRange(ds: seq<Digit>)
    ensures Value(ds) < Pow32(|ds|)
  {
    if ds != [] { ValueInRange(ds[..|ds| - 1]); }
  }

  lemma {:induction false} ValueOfMax(ds: seq<Digit>)
    ensures AllMax(ds) <==> Value(ds) == Pow32(|ds|) - 1
  {
    if ds != [] {
      ValueOfMax(ds[..|ds| - 1]);
      ValueInRange(ds[..|ds| - 1]);
    }
  }

  /** The increment adds one, except that all-31 wraps to zero. */
  lemma {:induction false} IncrementAddsOne(ds: seq<Digit>)
    ensures Value(Increment(ds)) == if AllMax(ds) then 0 else Value(ds) + 1
  {
    if ds != [] {
      var front, last := ds[..|ds| - 1], ds[|ds| - 1];
      assert AllMax(ds) <==> AllMax(front) && last == 31;
      if last == 31 {
        IncrementAddsOne(front);
        assert Increment(ds)[..|ds| - 1] == Increment(front);
      } else {
        assert Increment(ds)[..|ds| - 1] == front;
      }
    }
  }

  lemma {:induction false} DigitsStandForClock(t: nat, n: nat)
    ensures Value(DigitsOf(t, n)) == t % Pow32(n)
  {
    if n > 0 {
      DigitsStandForClock(t / 32, n - 1);
      assert DigitsOf(t, n)[..n - 1] == DigitsOf(t / 32, n - 1);
      SplitModulus(t, Pow32(n - 1));
    }
  }

  lemma {:induction false} SplitModulus(t: nat, m: nat)
    requires m > 0
    ensures t % (m * 32) == (t / 32 % m) * 32 + t % 32
  {
    var q, r := t / 32 / m, t / 32 % m;
    var rest := r * 32 + t % 32;
    assert t == q * (m * 32) + rest by {
      assert t / 32 == q * m + r;
      assert (q * m) * 32 == q * (m * 32);
    }
    assert 0 <= rest < m * 32;
    DivModIs(t, m * 32, q, rest);
  }

  lemma {:induction false} AlphabetRises(i: nat, j: nat)
    requires i < j < 32
    ensures CROCKFORD[i] < CROCKFORD[j]
  {
    if i + 1 < j { AlphabetRises(i, j - 1); }
  }

  /** Equal-length texts compare like the numbers they stand for. */
  lemma {:induction false} SmallerIsEarlier(a: seq<Digit>, b: seq<Digit>) returns (k: nat)
    requires |a| == |b| && Value(a) < Value(b)
    ensures k < |a| && a[..k] == b[..k] && a[k] < b[k]
  {
    var n := |a| - 1;
    if Value(a[..n]) < Value(b[..n]) {
      k := SmallerIsEarlier(a[..n], b[..n]);
      assert a[..n][..k] == a[..k] && b[..n][..k] == b[..k];
    } else {
      ValueIsInjective(a[..n], b[..n]);
      k := n;
    }
  }

  lemma {:induction false} ValueIsInjective(a: seq<Digit>, b: seq<Digit>)
    requires |a| == |b| && Value(a) == Value(b)
    ensures a == b
  {
    if a != [] {
      var n := |a| - 1;
      ValueIsInjective(a[..n], b[..n]);
      assert a == a[..n] + [a[n]] && b == b[..n] + [b[n]];
    }
  }

  lemma {:induction false} RenderOrder(a: seq<Digit>, b: seq<Digit>)
    requires |a| == |b|
    ensures LexLess(Render(a), Render(b)) <==> Value(a) < Value(b)
  {
    if Value(a) < Value(b) {
      RenderRises(a, b);
    } else if Value(b) < Value(a) {
      RenderRises(b, a);
      LexTrichotomy(Render(a), Render(b));
    } else {
      ValueIsInjective(a, b);
      LexTrichotomy(Render(a), Render(a));
    }
  }

  lemma {:induction false} RenderRises(a: seq<Digit>, b: seq<Digit>)
    requires |a| == |b| && Value(a) < Value(b)
    ensures LexLess(Render(a), Render(b))
  {
    var k := SmallerIsEarlier(a, b);
    assert Render(a)[..k] == Render(b)[..k] by {
      forall i | 0 <= i < k ensures Render(a)[i] == Render(b)[i] { assert a[..k][i] == b[..k][i]; }
    }
    AlphabetRises(a[k], b[k]);
    LexFromDifference(Render(a), Render(b), k);
  }

  lemma {:induction false} Regrouped(x: nat, y: nat)
    ensures (x * y) * 32 == x * (32 * y)
  {
  }

  lemma {:induction false} ValueAppend(a: seq<Digit>, b: seq<Digit>)
    ensures Value(a + b) == Value(a) * Pow32(|b|) + Value(b)
  {
    if b == [] {
      assert a + b == a;
    } else {
      var front, last := b[..|b| - 1], b[|b| - 1];
      assert (a + b)[..|a + b| - 1] == a + front;
      ValueAppend(a, front);
      Regrouped(Value(a), Pow32(|front|));
    }
  }

  /** The 130-bit number an id stands for. */
  ghost function Key(s: State): nat
    requires s.lastMs >= 0
  {
    (s.lastMs % Pow32(10)) * Pow32(|s.random|) + Value(s.random)
  }

  ghost predicate Reachable(s: State) { s.lastMs >= 0 && |s.random| == 16 }

  lemma {:induction false} IdsCompareByKey(s: State, t: State)
    requires Reachable(s) && Reachable(t)
    ensures LexLess(Text(s), Text(t)) <==> Key(s) < Key(t)
  {
    var a, b := DigitsOf(s.lastMs, 10) + s.random, DigitsOf(t.lastMs, 10) + t.random;
    assert Text(s) == Render(a) && Text(t) == Render(b);
    DigitsStandForClock(s.lastMs, 10);
    DigitsStandForClock(t.lastMs, 10);
    ValueAppend(DigitsOf(s.lastMs, 10), s.random);
    ValueAppend(DigitsOf(t.lastMs, 10), t.random);
    RenderOrder(a, b);
  }

  // ---- monotonicity ------------------------------------------------------

  /** The one case the increment cannot carry out of: the clock has not advanced and every
      random digit is at its maximum. */
  ghost predicate Overflows(s: State, now: nat) { now <= s.lastMs && AllMax(s.random) }

  const CLOCK_LIMIT := Pow32(10)

  lemma {:induction false} BiggerClockWins(m: nat, n: nat, a: nat, b: nat, p: nat)
    requires m < n && a < p
    ensures m * p + a < n * p + b
  {
    if n > m + 1 { BiggerClockWins(m, n - 1, a, b, p); }
    assert n * p == (n - 1) * p + p;
  }

  lemma {:induction false} KeyOf(s: State)
    requires Reachable(s) && s.lastMs < CLOCK_LIMIT
    ensures Key(s) == s.lastMs * Pow32(16) + Value(s.random)
  {
    DivModIs(s.lastMs, CLOCK_LIMIT, 0, s.lastMs);
  }

  lemma {:induction false} NextKey(s: State, now: nat, draw: seq<Digit>)
    requires Reachable(s) && |draw| == 16 && s.lastMs < CLOCK_LIMIT && now < CLOCK_LIMIT
    ensures Reachable(Next(s, now, draw))
    ensures Key(s) < Key(Next(s, now, draw)) <==> !Overflows(s, now)
  {
    KeyOf(s);
    KeyOf(Next(s, now, draw));
    if now <= s.lastMs {
      IncrementAddsOne(s.random);
    } else {
      ValueInRange(s.random);
      BiggerClockWins(s.lastMs, now, Value(s.random), Value(draw), Pow32(16));
    }
  }

  /** Every call's id sorts strictly after the one before, except exactly when the random part
      overflows: then it sorts before. */
  lemma {:induction false} NextIdIsLater(s: State, now: nat, draw: seq<Digit>)
    requires Reachable(s) && |draw| == 16 && s.lastMs < CLOCK_LIMIT && now < CLOCK_LIMIT
    ensures Reachable(Next(s, now, draw))
    ensures LexLess(Text(s), Text(Next(s, now, draw))) <==> !Overflows(s, now)
  {
    NextKey(s, now, draw);
    IdsCompareByKey(s, Next(s, now, draw));
  }

  datatype Call = Call(now: nat, draw: seq<Digit>)

  ghost predicate Usual(calls: seq<Call>) {
    forall i :: 0 <= i < |calls| ==> |calls[i].draw| == 16 && calls[i].now < CLOCK_LIMIT
  }

  /** The generator after a run of calls. */
  function After(calls: seq<Call>): State {
    if calls == [] then FRESH
    else Next(After(calls[..|calls| - 1]), calls[|calls| - 1].now, calls[|calls| - 1].draw)
  }

  function LargestClock(calls: seq<Call>): int {
    if calls == [] then -1 else Max(LargestClock(calls[..|calls| - 1]), calls[|calls| - 1].now)
  }

  /** Clock steps back are absorbed: the clock part is always the largest reading so far. */
  lemma {:induction false} ClockPartIsLargest(calls: seq<Call>)
    requires Usual(calls)
    ensures After(calls).lastMs == LargestClock(calls) < CLOCK_LIMIT
    ensures calls != [] ==> Reachable(After(calls))
  {
    if calls != [] {
      ClockPartIsLargest(calls[..|calls| - 1]);
      if |calls| == 1 { assert calls[..0] == []; }
    }
  }

  /** The id the `k`-th call returned. */
  function IdOf(calls: seq<Call>, k: nat): string
    requires k < |calls| && After(calls[..k + 1]).lastMs >= 0
  {
    Text(After(calls[..k + 1]))
  }

  ghost predicate NeverOverflows(calls: seq<Call>) {
    forall k :: 0 < k < |calls| ==> !Overflows(After(calls[..k]), calls[k].now)
  }

  lemma {:induction false} IdsExist(calls: seq<Call>, k: nat)
    requires Usual(calls) && k < |calls|
    ensures Reachable(After(calls[..k + 1])) && After(calls[..k + 1]).lastMs < CLOCK_LIMIT
  {
    ClockPartIsLargest(calls[..k + 1]);
  }

  lemma {:induction false} NeighboursRise(calls: seq<Call>, k: nat)
    requires Usual(calls) && 0 < k < |calls|
    ensures Reachable(After(calls[..k])) && Reachable(After(calls[..k + 1]))
    ensures LexLess(Text(After(calls[..k])), Text(After(calls[..k + 1]))) <==>
            !Overflows(After(calls[..k]), calls[k].now)
  {
    IdsExist(calls, k - 1);
    IdsExist(calls, k);
    assert calls[..k + 1][..k] == calls[..k];
    NextIdIsLater(After(calls[..k]), calls[k].now, calls[k].draw);
  }

  /** Over any run of calls, whatever the clock does, later ids sort strictly later: no id
      ever repeats, provided the random part never overflows. */
  lemma {:induction false} IdsRise(calls: seq<Call>, i: nat, j: nat)
    requires Usual(calls) && NeverOverflows(calls) && i < j < |calls|
    ensures Reachable(After(calls[..i + 1])) && Reachable(After(calls[..j + 1]))
    ensures LexLess(IdOf(calls, i), IdOf(calls, j)) && IdOf(calls, i) != IdOf(calls, j)
    decreases j
  {
    IdsExist(calls, i);
    NeighboursRise(calls, j);
    if i < j - 1 {
      IdsRise(calls, i, j - 1);
      LexTransitive(IdOf(calls, i), IdOf(calls, j - 1), IdOf(calls, j));
    }
    LexTrichotomy(IdOf(calls, i), IdOf(calls, i));
  }

  /** The proviso is needed: the first overflow of a run goes back. */
  lemma {:induction false} OverflowGoesBack(calls: seq<Call>, k: nat)
    requires Usual(calls) && 0 < k < |calls| && Overflows(After(calls[..k]), calls[k].now)
    ensures Reachable(After(calls[..k])) && Reachable(After(calls[..k + 1]))
    ensures LexLess(IdOf(calls, k), IdOf(calls, k - 1))
  {
    NeighboursRise(calls, k);
    var s, t := After(calls[..k]), After(calls[..k + 1]);
    assert calls[..k + 1][..k] == calls[..k];
    IncrementAddsOne(s.random);
    ValueOfMax(s.random);
    assert Pow32(16) > 1 by { assert Pow32(16) == Pow32(15) * 32; }
    IdsCompareByKey(t, s);
  }

  /** And a run can overflow: two calls within one millisecond whose draw was all 31s. */
  lemma {:induction false} SecondCallOverflows()
    ensures var calls := [Call(0, seq(16, _ => 31)), Call(0, seq(16, _ => 31))];
            Usual(calls) && Overflows(After(calls[..1]), calls[1].now)
  {
    var top := Call(0, seq(16, _ => 31));
    assert [top, top][..1] == [top] && [top][..0] == [];
    assert After([top]) == State(0, top.draw);
    assert CLOCK_LIMIT > 0;
  }

  // ---- reading an id back ------------------------------------------------

  function DigitOf(c: char, from: nat): nat
    requires from <= 32
    decreases 32 - from
  {
    if from == 32 || CROCKFORD[from] == c then from else DigitOf(c, from + 1)
  }

  function Decode(text: string): nat {
    if text == [] then 0 else Decode(text[..|text| - 1]) * 32 + DigitOf(text[|text| - 1], 0)
  }

  lemma {:induction false} DigitReadsBack(d: Digit, from: nat)
    requires from <= d
    ensures DigitOf(CROCKFORD[d], from) == d
    decreases d - from
  {
    if from < d {
      AlphabetRises(from, d);
      DigitReadsBack(d, from + 1);
    }
  }

  lemma {:induction false} RenderReadsBack(ds: seq<Digit>)
    ensures Decode(Render(ds)) == Value(ds)
  {
    if ds != [] {
      var n := |ds| - 1;
      RenderReadsBack(ds[..n]);
      DigitReadsBack(ds[n], 0);
      assert Render(ds)[..n] == Render(ds[..n]);
    }
  }

  /** A digit or a capital letter other than I, L, O and U. */
  predicate IsCrockford(c: char) {
    '0' <= c <= '9' || ('A' <= c <= 'Z' && c != 'I' && c != 'L' && c != 'O' && c != 'U')
  }

  /** The alphabet is all of them, in order: 32 characters, each greater than the one before. */
  lemma {:induction false} AlphabetIsCrockfords()
    ensures |CROCKFORD| == 32 && forall c :: c in CROCKFORD ==> IsCrockford(c)
    ensures forall i :: 0 <= i < 31 ==> CROCKFORD[i] < CROCKFORD[i + 1]
  {
    forall c | c in CROCKFORD ensures IsCrockford(c) {
      var i :| 0 <= i < 32 && CROCKFORD[i] == c;
      LettersAndDigits(i);
    }
    forall i | 0 <= i < 31 ensures CROCKFORD[i] < CROCKFORD[i + 1] { AlphabetRises(i, i + 1); }
  }

  lemma {:induction false} LettersAndDigits(i: nat)
    requires i < 32
    ensures IsCrockford(CROCKFORD[i])
  {
  }

  /** Each id is 26 Crockford characters, and its first ten read back as the largest clock
      reading so far. */
  lemma {:induction false} IdShape(calls: seq<Call>)
    requires Usual(calls) && calls != []
    ensures After(calls).lastMs >= 0
    ensures var id := Text(After(calls));
            && |id| == 26
            && (forall i :: 0 <= i < 26 ==> id[i] in CROCKFORD && IsCrockford(id[i]))
            && Decode(id[..10]) == LargestClock(calls)
  {
    ClockPartIsLargest(calls);
    ShapeOf(After(calls));
  }

  lemma {:induction false} ShapeOf(s: State)
    requires Reachable(s) && s.lastMs < CLOCK_LIMIT
    ensures |Text(s)| == 26 && forall i :: 0 <= i < 26 ==> Text(s)[i] in CROCKFORD && IsCrockford(Text(s)[i])
    ensures Decode(Text(s)[..10]) == s.lastMs
  {
    var clock := DigitsOf(s.lastMs, 10);
    AlphabetIsCrockfords();
    assert Text(s)[..10] == Render(clock);
    RenderReadsBack(clock);
    DigitsStandForClock(s.lastMs, 10);
    DivModIs(s.lastMs, CLOCK_LIMIT, 0, s.lastMs);
  }
}
