/** Sequence vocabulary shared by the models: options, filters, sums, first-appearance
    lists, stable sorting and the code-unit order on strings.

    Recursion peels the LAST element, so that a loop which has consumed `s[..i]` meets
    the definition one element at a time. */
module Sequences {

  datatype Option<+T> = None | Some(value: T)

  function Max(a: int, b: int): int { if a >= b then a else b }

  function Min(a: int, b: int): int { if a <= b then a else b }

  ghost predicate NoDuplicates<T>(s: seq<T>) {
    forall i, j :: 0 <= i < j < |s| ==> s[i] != s[j]
  }

  lemma {:induction false} AppendDistinct<T>(a: seq<T>, b: seq<T>)
    requires NoDuplicates(a) && NoDuplicates(b) && forall x :: x in a ==> x !in b
    ensures NoDuplicates(a + b)
  {
    forall i, j | 0 <= i < j < |a + b| ensures (a + b)[i] != (a + b)[j] {
      assert i < |a| ==> a[i] in a;
      assert |a| <= j ==> b[j - |a|] in b;
    }
  }

  ghost function ToSet<T>(s: seq<T>): set<T> { set x | x in s }

  lemma {:induction false} DistinctCardinality<T>(s: seq<T>)
    requires NoDuplicates(s)
    ensures |ToSet(s)| == |s|
  {
    if s != [] {
      var front, last := s[..|s| - 1], s[|s| - 1];
      DistinctCardinality(front);
      assert s == front + [last];
      assert ToSet(s) == ToSet(front) + {last};
      assert last !in ToSet(front);
    }
  }

  lemma {:induction false} OnceEach<T>(s: seq<T>)
    requires NoDuplicates(s)
    ensures forall x :: multiset(s)[x] <= 1
  {
    if s != [] {
      var front, last := s[..|s| - 1], s[|s| - 1];
      OnceEach(front);
      assert s == front + [last];
      assert last !in front;
    }
  }

  lemma {:induction false} CountedTwice<T>(s: seq<T>, i: nat, j: nat)
    requires i < j < |s| && s[i] == s[j]
    ensures multiset(s)[s[i]] >= 2
  {
    var rest := s[..i] + s[i + 1..];
    assert s == s[..i] + [s[i]] + s[i + 1..];
    BagAround(s[..i], s[i], s[i + 1..]);
    assert rest[j - 1] == s[j];
    assert s[j] in multiset(rest);
  }

  /** The elements of `s` in order of first appearance (a JavaScript Set, or the keys of a Map). */
  function Distinct<T(==,!new)>(s: seq<T>): (r: seq<T>)
    ensures NoDuplicates(r)
    ensures forall x :: x in r <==> x in s
  {
    if s == [] then []
    else
      assert s == s[..|s| - 1] + [s[|s| - 1]];
      var front := Distinct(s[..|s| - 1]);
      if s[|s| - 1] in front then front else front + [s[|s| - 1]]
  }

  lemma {:induction false} DistinctSnoc<T(!new)>(s: seq<T>, x: T)
    ensures Distinct(s + [x]) == if x in Distinct(s) then Distinct(s) else Distinct(s) + [x]
  {
    assert (s + [x])[..|s|] == s;
  }

  function Map<T, U>(s: seq<T>, f: T -> U): (r: seq<U>)
    ensures |r| == |s|
    ensures forall i :: 0 <= i < |s| ==> r[i] == f(s[i])
  {
    seq(|s|, i requires 0 <= i < |s| => f(s[i]))
  }

  function Filter<T(!new)>(s: seq<T>, p: T -> bool): (r: seq<T>)
    ensures forall x :: x in r <==> x in s && p(x)
  {
    if s == [] then []
    else
      assert s == s[..|s| - 1] + [s[|s| - 1]];
      Filter(s[..|s| - 1], p) + (if p(s[|s| - 1]) then [s[|s| - 1]] else [])
  }

  lemma {:induction false} FilterSnoc<T(!new)>(s: seq<T>, x: T, p: T -> bool)
    ensures Filter(s + [x], p) == Filter(s, p) + (if p(x) then [x] else [])
  {
    assert (s + [x])[..|s|] == s;
  }

  lemma {:induction false} FilterAppend<T(!new)>(a: seq<T>, b: seq<T>, p: T -> bool)
    ensures Filter(a + b, p) == Filter(a, p) + Filter(b, p)
  {
    if b == [] {
      assert a + b == a;
    } else {
      var front, last := b[..|b| - 1], b[|b| - 1];
      assert a + b == (a + front) + [last];
      FilterSnoc(a + front, last, p);
      FilterAppend(a, front, p);
    }
  }

  function SumBy<T>(s: seq<T>, f: T -> int): int {
    if s == [] then 0 else SumBy(s[..|s| - 1], f) + f(s[|s| - 1])
  }

  lemma {:induction false} SumBySnoc<T>(s: seq<T>, x: T, f: T -> int)
    ensures SumBy(s + [x], f) == SumBy(s, f) + f(x)
  {
    assert (s + [x])[..|s|] == s;
  }

  lemma {:induction false} SumByAppend<T>(a: seq<T>, b: seq<T>, f: T -> int)
    ensures SumBy(a + b, f) == SumBy(a, f) + SumBy(b, f)
  {
    if b == [] {
      assert a + b == a;
    } else {
      assert a + b == (a + b[..|b| - 1]) + [b[|b| - 1]];
      SumBySnoc(a + b[..|b| - 1], b[|b| - 1], f);
      SumByAppend(a, b[..|b| - 1], f);
    }
  }

  lemma {:induction false} SumByUpdate<T>(s: seq<T>, i: nat, x: T, f: T -> int)
    requires i < |s|
    ensures SumBy(s[i := x], f) == SumBy(s, f) - f(s[i]) + f(x)
  {
    assert s == s[..i] + [s[i]] + s[i + 1..];
    assert s[i := x] == s[..i] + [x] + s[i + 1..];
    SumByAppend(s[..i] + [s[i]], s[i + 1..], f);
    SumByAppend(s[..i] + [x], s[i + 1..], f);
    SumBySnoc(s[..i], s[i], f);
    SumBySnoc(s[..i], x, f);
  }

  /** Two weights that agree on the elements give the same sum. */
  lemma {:induction false} SumByAgree<T>(s: seq<T>, f: T -> int, g: T -> int)
    requires forall x :: x in s ==> f(x) == g(x)
    ensures SumBy(s, f) == SumBy(s, g)
  {
    if s != [] { SumByAgree(s[..|s| - 1], f, g); }
  }

  /** Summing a filtered sequence is summing a weight that is zero outside the filter. */
  lemma {:induction false} SumByFilter<T(!new)>(s: seq<T>, p: T -> bool, f: T -> int, g: T -> int)
    requires forall x :: g(x) == if p(x) then f(x) else 0
    ensures SumBy(Filter(s, p), f) == SumBy(s, g)
  {
    if s != [] {
      var front, last := s[..|s| - 1], s[|s| - 1];
      SumByFilter(front, p, f, g);
      if p(last) { SumBySnoc(Filter(front, p), last, f); }
      else { assert Filter(s, p) == Filter(front, p); }
    }
  }

  lemma {:induction false} SumByZero<T>(s: seq<T>, f: T -> int)
    requires forall x :: x in s ==> f(x) == 0
    ensures SumBy(s, f) == 0
  {
    if s != [] { SumByZero(s[..|s| - 1], f); }
  }

  lemma {:induction false} CancelOne<T>(m: multiset<T>, n: multiset<T>, x: T)
    requires m + multiset{x} == n + multiset{x}
    ensures m == n
  {
    assert m == (m + multiset{x}) - multiset{x};
    assert n == (n + multiset{x}) - multiset{x};
  }

  /** A sum does not depend on the order of the elements. */
  lemma {:induction false} SumByPermutation<T>(a: seq<T>, b: seq<T>, f: T -> int)
    requires multiset(a) == multiset(b)
    ensures SumBy(a, f) == SumBy(b, f)
  {
    assert |multiset(a)| == |multiset(b)|;
    if a != [] {
      var front, last := a[..|a| - 1], a[|a| - 1];
      assert a == front + [last];
      assert last in multiset(b);
      var k :| 0 <= k < |b| && b[k] == last;
      var rest := b[..k] + b[k + 1..];
      assert b == b[..k] + [last] + b[k + 1..];
      assert multiset(a) == multiset(front) + multiset{last};
      assert multiset(b) == multiset(rest) + multiset{last};
      CancelOne(multiset(front), multiset(rest), last);
      SumByPermutation(front, rest, f);
      SumByAppend(b[..k], b[k + 1..], f);
      SumByAppend(b[..k] + [last], b[k + 1..], f);
      SumBySnoc(b[..k], last, f);
    }
  }

  /** What each element yields, one after the other. */
  function FlatMap<T, U>(s: seq<T>, f: T -> seq<U>): seq<U> {
    if s == [] then [] else FlatMap(s[..|s| - 1], f) + f(s[|s| - 1])
  }

  lemma {:induction false} FlatMapSnoc<T, U>(s: seq<T>, x: T, f: T -> seq<U>)
    ensures FlatMap(s + [x], f) == FlatMap(s, f) + f(x)
  {
    assert (s + [x])[..|s|] == s;
  }

  lemma {:induction false} FlatMapAppend<T, U>(a: seq<T>, b: seq<T>, f: T -> seq<U>)
    ensures FlatMap(a + b, f) == FlatMap(a, f) + FlatMap(b, f)
  {
    if b == [] {
      assert a + b == a;
    } else {
      var front, last := b[..|b| - 1], b[|b| - 1];
      FrontAndLast(b);
      FlatMapAppend(a, front, f);
      FlatMapSnoc(a + front, last, f);
      assert a + b == (a + front) + [last];
      Associate(FlatMap(a, f), FlatMap(front, f), f(last));
    }
  }

  lemma {:induction false} FlatMapTake<T, U>(s: seq<T>, i: nat, f: T -> seq<U>)
    requires i < |s|
    ensures FlatMap(s[..i + 1], f) == FlatMap(s[..i], f) + f(s[i])
  {
    assert s[..i + 1] == s[..i] + [s[i]];
    FlatMapSnoc(s[..i], s[i], f);
  }

  lemma {:induction false} FrontAndLast<T>(s: seq<T>)
    requires s != []
    ensures s == s[..|s| - 1] + [s[|s| - 1]]
  {
  }

  lemma {:induction false} TakeOneMore<T>(s: seq<T>, i: nat)
    requires i < |s|
    ensures s[..i + 1] == s[..i] + [s[i]]
  {
  }

  lemma {:induction false} Associate<T>(a: seq<T>, b: seq<T>, c: seq<T>)
    ensures (a + b) + c == a + (b + c)
  {
  }

  lemma {:induction false} FlatMapEmpty<T, U>(s: seq<T>, f: T -> seq<U>)
    ensures FlatMap(s, f) == [] <==> forall x :: x in s ==> f(x) == []
  {
    if s != [] {
      FlatMapEmpty(s[..|s| - 1], f);
      assert s == s[..|s| - 1] + [s[|s| - 1]];
    }
  }

  lemma {:induction false} FlatMapMember<T, U>(s: seq<T>, f: T -> seq<U>, u: U)
    ensures u in FlatMap(s, f) <==> exists x :: x in s && u in f(x)
  {
    if s != [] {
      var front, last := s[..|s| - 1], s[|s| - 1];
      FlatMapMember(front, f, u);
      assert s == front + [last];
      assert last in s;
    }
  }

  lemma {:induction false} FlatMapHead<T, U>(s: seq<T>, f: T -> seq<U>)
    requires s != []
    ensures FlatMap(s, f) == f(s[0]) + FlatMap(s[1..], f)
    decreases |s|
  {
    if |s| == 1 {
      assert s[..0] == [] && s[1..] == [];
    } else {
      var middle, last := s[1..|s| - 1], s[|s| - 1];
      FlatMapHead(s[..|s| - 1], f);
      assert s[..|s| - 1][1..] == middle && s[..|s| - 1][0] == s[0];
      assert s[1..] == middle + [last];
      FlatMapSnoc(middle, last, f);
      Associate(f(s[0]), FlatMap(middle, f), f(last));
    }
  }

  lemma {:induction false} FlatMapAgree<T, U>(s: seq<T>, f: T -> seq<U>, g: T -> seq<U>)
    requires forall x :: x in s ==> f(x) == g(x)
    ensures FlatMap(s, f) == FlatMap(s, g)
  {
    if s != [] { FlatMapAgree(s[..|s| - 1], f, g); }
  }

  lemma {:induction false} FlatMapPairwise<S, T, U>(a: seq<S>, b: seq<T>, f: S -> seq<U>, g: T -> seq<U>)
    requires |a| == |b| && forall i :: 0 <= i < |a| ==> f(a[i]) == g(b[i])
    ensures FlatMap(a, f) == FlatMap(b, g)
  {
    if a != [] { FlatMapPairwise(a[..|a| - 1], b[..|b| - 1], f, g); }
  }

  lemma {:induction false} FlatMapAround<T, U>(x: seq<T>, v: T, y: seq<T>, f: T -> seq<U>)
    ensures multiset(FlatMap(x + [v] + y, f)) == multiset(FlatMap(x + y, f)) + multiset(f(v))
    decreases |y|
  {
    if y == [] {
      FlatMapSnoc(x, v, f);
      assert x + [v] + y == x + [v] && x + y == x;
    } else {
      var front, last := y[..|y| - 1], y[|y| - 1];
      FlatMapAround(x, v, front, f);
      FlatMapSnoc(x + [v] + front, last, f);
      FlatMapSnoc(x + front, last, f);
      FrontAndLast(y);
      assert x + [v] + y == (x + [v] + front) + [last] && x + y == (x + front) + [last];
    }
  }

  /** What the elements yield together does not depend on their order. */
  lemma {:induction false} FlatMapPermutes<T, U>(a: seq<T>, b: seq<T>, f: T -> seq<U>)
    requires multiset(a) == multiset(b)
    ensures multiset(FlatMap(a, f)) == multiset(FlatMap(b, f))
  {
    SameBagSameMembers(a, b);
    if a != [] {
      var front, last := a[..|a| - 1], a[|a| - 1];
      FrontAndLast(a);
      assert last in a;
      var k :| 0 <= k < |b| && b[k] == last;
      var x, y := b[..k], b[k + 1..];
      assert b == x + [last] + y;
      BagAround(x, last, y);
      CancelOne(multiset(front), multiset(x + y), last);
      FlatMapPermutes(front, x + y, f);
      FlatMapAround(x, last, y, f);
    }
  }

  // ---- finite sets of integers -------------------------------------------

  ghost function Least(s: set<int>): (m: int)
    requires s != {}
    ensures m in s
    ensures forall i :: i in s ==> m <= i
  {
    assert (forall i :: i !in s) ==> s == {};
    var x :| x in s;
    if s == {x} then x
    else
      assert s - {x} != {} by { assert s == (s - {x}) + {x}; }
      var m := Least(s - {x});
      assert forall i :: i in s ==> i == x || i in s - {x};
      if x <= m then x else m
  }

  /** A set inside an interval of `n` integers has at most `n` elements. */
  lemma {:induction false} Interval(s: set<int>, lo: int, n: nat)
    requires forall i :: i in s ==> lo <= i < lo + n
    ensures |s| <= n
  {
    if n == 0 {
      assert (forall i :: i !in s) ==> s == {};
    } else {
      var t := s - {lo + n - 1};
      Interval(t, lo, n - 1);
      assert s <= t + {lo + n - 1};
      assert |t| >= |s| - 1;
    }
  }

  /** The positions whose element passes `q`. */
  ghost function Positions<T>(s: seq<T>, q: T -> bool): set<int> { set i | 0 <= i < |s| && q(s[i]) }

  lemma {:induction false} PositionsSnoc<T>(s: seq<T>, x: T, q: T -> bool)
    ensures |Positions(s + [x], q)| == |Positions(s, q)| + (if q(x) then 1 else 0)
  {
    if q(x) {
      assert Positions(s + [x], q) == Positions(s, q) + {|s|};
    } else {
      assert Positions(s + [x], q) == Positions(s, q);
    }
  }

  // ---- sorting -----------------------------------------------------------

  ghost predicate TotalPreorder<T(!new)>(le: (T, T) -> bool) {
    && (forall x, y :: le(x, y) || le(y, x))
    && (forall x, y, z :: le(x, y) && le(y, z) ==> le(x, z))
  }

  ghost predicate Ordered<T>(s: seq<T>, le: (T, T) -> bool) {
    forall i, j :: 0 <= i < j < |s| ==> le(s[i], s[j])
  }

  function Insert<T>(x: T, s: seq<T>, le: (T, T) -> bool): seq<T> {
    if s == [] then [x]
    else if le(s[|s| - 1], x) then s + [x]
    else Insert(x, s[..|s| - 1], le) + [s[|s| - 1]]
  }

  /** The stable sort `Array.prototype.sort` performs for a lawful comparator. */
  function Sort<T>(s: seq<T>, le: (T, T) -> bool): seq<T> {
    if s == [] then [] else Insert(s[|s| - 1], Sort(s[..|s| - 1], le), le)
  }

  lemma {:induction false} InsertPermutes<T>(x: T, s: seq<T>, le: (T, T) -> bool)
    ensures multiset(Insert(x, s, le)) == multiset(s + [x])
  {
    if s != [] && !le(s[|s| - 1], x) {
      InsertPermutes(x, s[..|s| - 1], le);
      assert s == s[..|s| - 1] + [s[|s| - 1]];
    }
  }

  lemma {:induction false} SortBag<T>(s: seq<T>, le: (T, T) -> bool)
    ensures multiset(Sort(s, le)) == multiset(s)
  {
    if s != [] {
      var front, last := s[..|s| - 1], s[|s| - 1];
      SortBag(front, le);
      InsertPermutes(last, Sort(front, le), le);
      SameBagSnoc(Sort(front, le), front, last);
      FrontAndLast(s);
    }
  }

  lemma {:induction false} SameBagSnoc<T>(a: seq<T>, b: seq<T>, x: T)
    requires multiset(a) == multiset(b)
    ensures multiset(a + [x]) == multiset(b + [x])
  {
  }

  lemma {:induction false} BagAround<T>(x: seq<T>, v: T, y: seq<T>)
    ensures multiset(x + [v] + y) == multiset(x + y) + multiset{v}
  {
  }

  lemma {:induction false} SameBagSameMembers<T>(a: seq<T>, b: seq<T>)
    requires multiset(a) == multiset(b)
    ensures |a| == |b| && forall x :: x in a <==> x in b
  {
    assert |multiset(a)| == |multiset(b)|;
    forall x ensures x in a <==> x in b { assert x in multiset(a) <==> x in multiset(b); }
  }

  lemma {:induction false} SameMembersSameBag<T(!new)>(a: seq<T>, b: seq<T>)
    requires NoDuplicates(a) && NoDuplicates(b) && forall x :: x in a <==> x in b
    ensures multiset(a) == multiset(b)
  {
    if a == [] {
      assert ToSet(b) == {};
      DistinctCardinality(b);
    } else {
      var front, last := a[..|a| - 1], a[|a| - 1];
      assert a == front + [last] && last in a;
      var k :| 0 <= k < |b| && b[k] == last;
      var x, y := b[..k], b[k + 1..];
      assert b == x + [last] + y;
      assert last !in x + y && NoDuplicates(x + y);
      assert forall v :: v in x + y <==> v in b && v != last;
      SameMembersSameBag(front, x + y);
      BagAround(x, last, y);
    }
  }

  lemma {:induction false} SortPermutes<T>(s: seq<T>, le: (T, T) -> bool)
    ensures multiset(Sort(s, le)) == multiset(s)
    ensures |Sort(s, le)| == |s|
    ensures forall x :: x in Sort(s, le) <==> x in s
  {
    SortBag(s, le);
    SameBagSameMembers(Sort(s, le), s);
  }

  lemma {:induction false} InsertMembers<T>(x: T, s: seq<T>, le: (T, T) -> bool)
    ensures forall y :: y in Insert(x, s, le) ==> y == x || y in s
  {
    InsertPermutes(x, s, le);
    forall y | y in Insert(x, s, le) ensures y == x || y in s { assert y in multiset(s + [x]); }
  }

  lemma {:induction false} InsertOrders<T(!new)>(x: T, s: seq<T>, le: (T, T) -> bool)
    requires TotalPreorder(le) && Ordered(s, le)
    ensures Ordered(Insert(x, s, le), le)
  {
    if s != [] && !le(s[|s| - 1], x) {
      var front, last := s[..|s| - 1], s[|s| - 1];
      InsertOrders(x, front, le);
      InsertMembers(x, front, le);
      assert forall y :: y in front ==> le(y, last);
    }
  }

  lemma {:induction false} SortOrders<T(!new)>(s: seq<T>, le: (T, T) -> bool)
    requires TotalPreorder(le)
    ensures Ordered(Sort(s, le), le)
  {
    if s != [] {
      SortOrders(s[..|s| - 1], le);
      InsertOrders(s[|s| - 1], Sort(s[..|s| - 1], le), le);
    }
  }

  lemma {:induction false} OrderedSameLast<T(!new)>(a: seq<T>, b: seq<T>, le: (T, T) -> bool)
    requires a != [] && b != [] && multiset(a) == multiset(b)
    requires Ordered(a, le) && Ordered(b, le)
    requires forall x, y :: x in a && y in a && le(x, y) && le(y, x) ==> x == y
    ensures a[|a| - 1] == b[|b| - 1]
  {
    var x, y := a[|a| - 1], b[|b| - 1];
    assert x in multiset(b) && y in multiset(a);
    var i :| 0 <= i < |b| && b[i] == x;
    var j :| 0 <= j < |a| && a[j] == y;
  }

  lemma {:induction false} FrontIsOrdered<T>(s: seq<T>, le: (T, T) -> bool)
    requires s != [] && Ordered(s, le)
    ensures Ordered(s[..|s| - 1], le) && forall x :: x in s[..|s| - 1] ==> x in s
  {
  }

  /** Two ordered arrangements of the same elements are equal when distinct elements never tie. */
  lemma {:induction false} OrderedIsUnique<T(!new)>(a: seq<T>, b: seq<T>, le: (T, T) -> bool)
    requires multiset(a) == multiset(b)
    requires Ordered(a, le) && Ordered(b, le)
    requires forall x, y :: x in a && y in a && le(x, y) && le(y, x) ==> x == y
    ensures a == b
  {
    assert |multiset(a)| == |multiset(b)|;
    if a != [] {
      OrderedSameLast(a, b, le);
      var a', b', x := a[..|a| - 1], b[..|b| - 1], a[|a| - 1];
      FrontAndLast(a);
      FrontAndLast(b);
      CancelOne(multiset(a'), multiset(b'), x);
      FrontIsOrdered(a, le);
      FrontIsOrdered(b, le);
      OrderedIsUnique(a', b', le);
    }
  }

  // ---- grouping ----------------------------------------------------------

  /** The test "this row carries key `k`". */
  function WithKey<R, K(==)>(key: R -> K, k: K): R -> bool { r => key(r) == k }

  /** What `f` yields for each key's group of rows, all groups together. */
  ghost function Gather<R(!new), K, V>(keys: seq<K>, rows: seq<R>, key: R -> K, f: seq<R> -> multiset<V>): multiset<V> {
    if keys == [] then multiset{}
    else Gather(keys[..|keys| - 1], rows, key, f) + f(Filter(rows, WithKey(key, keys[|keys| - 1])))
  }

  lemma {:induction false} AddToBoth<V>(a: multiset<V>, b: multiset<V>, c: multiset<V>, d: multiset<V>, e: multiset<V>)
    requires a + c == b + d
    ensures (a + e) + c == (b + e) + d
  {
    assert (a + e) + c == (a + c) + e;
    assert (b + e) + d == (b + d) + e;
  }

  lemma {:induction false} Regroup<V>(a: multiset<V>, b: multiset<V>, c: multiset<V>)
    ensures (a + b) + c == (a + c) + b
  {
  }

  /** One more row touches its own group and no other. */
  lemma {:induction false} GatherSnoc<R(!new), K, V>(
    keys: seq<K>, rows: seq<R>, r: R, key: R -> K, f: seq<R> -> multiset<V>)
    requires NoDuplicates(keys)
    ensures key(r) !in keys ==> Gather(keys, rows + [r], key, f) == Gather(keys, rows, key, f)
    ensures key(r) in keys ==>
              var group := Filter(rows, WithKey(key, key(r)));
              Gather(keys, rows + [r], key, f) + f(group) == Gather(keys, rows, key, f) + f(group + [r])
  {
    if keys != [] {
      var front, last := keys[..|keys| - 1], keys[|keys| - 1];
      var before, after := Filter(rows, WithKey(key, last)), Filter(rows + [r], WithKey(key, last));
      GatherSnoc(front, rows, r, key, f);
      assert after == before + (if key(r) == last then [r] else []) by { FilterSnoc(rows, r, WithKey(key, last)); }
      assert keys == front + [last];
      assert Gather(keys, rows, key, f) == Gather(front, rows, key, f) + f(before);
      assert Gather(keys, rows + [r], key, f) == Gather(front, rows + [r], key, f) + f(after);
      if key(r) == last {
        assert last !in front;
        Regroup(Gather(front, rows, key, f), f(after), f(before));
      } else if key(r) in front {
        var group := Filter(rows, WithKey(key, key(r)));
        assert after == before;
        AddToBoth(Gather(front, rows + [r], key, f), Gather(front, rows, key, f), f(group), f(group + [r]), f(before));
      } else {
        assert after == before;
      }
    }
  }

  /** `f` adds up row by row, each row contributing `one`. */
  ghost predicate Additive<R(!new), V(!new)>(f: seq<R> -> multiset<V>, one: R -> multiset<V>) {
    f([]) == multiset{} && forall rows: seq<R>, r: R :: f(rows + [r]) == f(rows) + one(r)
  }

  lemma {:induction false} GatherNothing<R(!new), K, V(!new)>(keys: seq<K>, key: R -> K, f: seq<R> -> multiset<V>)
    requires f([]) == multiset{}
    ensures Gather(keys, [], key, f) == multiset{}
  {
    if keys != [] { GatherNothing(keys[..|keys| - 1], key, f); }
  }

  function BagOf<T, U>(f: T -> seq<U>): seq<T> -> multiset<U> { (s: seq<T>) => multiset(FlatMap(s, f)) }

  function OneOf<T, U>(f: T -> seq<U>): T -> multiset<U> { (x: T) => multiset(f(x)) }

  lemma {:induction false} FlatMapIsAdditive<T(!new), U(!new)>(f: T -> seq<U>)
    ensures Additive(BagOf(f), OneOf(f))
  {
    forall rows: seq<T>, r: T ensures BagOf(f)(rows + [r]) == BagOf(f)(rows) + OneOf(f)(r) {
      FlatMapSnoc(rows, r, f);
    }
  }

  lemma {:induction false} CancelBag<V>(a: multiset<V>, b: multiset<V>, c: multiset<V>, d: multiset<V>)
    requires a + c == b + (c + d)
    ensures a == b + d
  {
    assert a == (a + c) - c;
    assert b + d == (b + (c + d)) - c;
  }

  /** Grouping by key partitions the rows: group by group, each contributes exactly once. */
  lemma {:induction false} GroupsPartition<R(!new), K, V(!new)>(
    keys: seq<K>, rows: seq<R>, key: R -> K, f: seq<R> -> multiset<V>, one: R -> multiset<V>)
    requires Additive(f, one) && NoDuplicates(keys) && forall r :: r in rows ==> key(r) in keys
    ensures Gather(keys, rows, key, f) == f(rows)
  {
    if rows == [] {
      GatherNothing(keys, key, f);
    } else {
      var front, r := rows[..|rows| - 1], rows[|rows| - 1];
      var group := Filter(front, WithKey(key, key(r)));
      assert rows == front + [r];
      GroupsPartition(keys, front, key, f, one);
      GatherSnoc(keys, front, r, key, f);
      assert f(group + [r]) == f(group) + one(r);
      CancelBag(Gather(keys, rows, key, f), Gather(keys, front, key, f), f(group), one(r));
    }
  }

  lemma {:induction false} GatherPrefix<R(!new), K, V>(
    keys: seq<K>, k: nat, rows: seq<R>, key: R -> K, f: seq<R> -> multiset<V>)
    requires k < |keys|
    ensures Gather(keys[..k + 1], rows, key, f)
         == Gather(keys[..k], rows, key, f) + f(Filter(rows, WithKey(key, keys[k])))
  {
    assert keys[..k + 1][..k] == keys[..k];
  }

  // ---- strings -----------------------------------------------------------

  /** JavaScript's `<` on strings: the first differing code unit decides, a prefix comes first. */
  predicate LexLess(a: string, b: string) {
    b != [] && (a == [] || a[0] < b[0] || (a[0] == b[0] && LexLess(a[1..], b[1..])))
  }

  predicate LexLe(a: string, b: string) { !LexLess(b, a) }

  lemma {:induction false} LexTrichotomy(a: string, b: string)
    ensures a != b ==> LexLess(a, b) || LexLess(b, a)
    ensures !(LexLess(a, b) && LexLess(b, a))
  {
    if a != [] && b != [] {
      LexTrichotomy(a[1..], b[1..]);
      assert a == [a[0]] + a[1..] && b == [b[0]] + b[1..];
    }
  }

  lemma {:induction false} LexTransitive(a: string, b: string, c: string)
    requires LexLess(a, b) && LexLess(b, c)
    ensures LexLess(a, c)
  {
    if a != [] && a[0] == b[0] == c[0] { LexTransitive(a[1..], b[1..], c[1..]); }
  }

  lemma {:induction false} LexIsTotalOrder()
    ensures TotalPreorder(LexLe)
  {
    forall x: string, y: string ensures LexLe(x, y) || LexLe(y, x) { LexTrichotomy(x, y); }
    forall x: string, y: string, z: string | LexLe(x, y) && LexLe(y, z) ensures LexLe(x, z) {
      LexTrichotomy(x, y);
      LexTrichotomy(y, z);
      if LexLess(z, x) {
        if x == y || y == z { LexTrichotomy(x, x); } else { LexTransitive(y, z, x); }
      }
    }
  }

  /** The first differing position decides. */
  lemma {:induction false} LexFromDifference(a: string, b: string, k: nat)
    requires k < |a| && k < |b| && a[..k] == b[..k] && a[k] < b[k]
    ensures LexLess(a, b)
  {
    if k > 0 {
      assert a[0] == a[..k][0] == b[..k][0] == b[0];
      assert a[1..][..k - 1] == a[..k][1..] == b[..k][1..] == b[1..][..k - 1];
      LexFromDifference(a[1..], b[1..], k - 1);
    }
  }
}
