/** The listing of bins that already mix goods the segregation rules keep apart: group a
    tenant's occupants by bin, ask the goods predicate of every pair, exit by what was found. */
module Segregation {
  import opened Sequences
  import opened GoodsRules

  /** One SKU in one bin. A SKU code is unique within a client only, so two rows of a bin may
      share it. */
  datatype Row = Row(warehouseCode: string, binId: string, binCode: string, skuCode: string, profile: Profile)

  datatype Tenant = Tenant(id: string, rows: seq<Row>)

  /** An entry of the listing: what is pushed, and printed as one line. */
  datatype MixedPair = MixedPair(
    tenantId: string, warehouseCode: string, binId: string, binCode: string,
    rule: Rule, skuA: string, skuB: string, detail: string)

  /** The rule that parts two profiles, and the facts it goes by. */
  datatype Finding = Finding(rule: Rule, facts: Facts)

  /** The question asked of each pair: what parts them, if anything. */
  type Test = (Profile, Profile) -> Option<Finding>

  function Detail(a: Row, b: Row, facts: Facts): string {
    "Bin \"" + a.binCode + "\" holds SKUs \"" + a.skuCode + "\" (" + facts.a + ") and \""
    + b.skuCode + "\" (" + facts.b + "), which " + facts.pairVerdict + "."
  }

  function EntryOf(tenantId: string, a: Row, b: Row, f: Finding): MixedPair {
    MixedPair(tenantId, a.warehouseCode, a.binId, a.binCode, f.rule, a.skuCode, b.skuCode, Detail(a, b, f.facts))
  }

  function BinOf(r: Row): string { r.binId }

  /** Where a row is, as far as the listing tells. */
  function SlotOf(r: Row): (string, string) { (r.binId, r.skuCode) }

  /** The entry for one pair, oriented as given, or nothing. */
  function PairOf(test: Test, tenantId: string, a: Row, b: Row): seq<MixedPair> {
    match test(a.profile, b.profile)
    case None => []
    case Some(f) => [EntryOf(tenantId, a, b, f)]
  }

  function PairWith(test: Test, tenantId: string, a: Row): Row -> seq<MixedPair> {
    (b: Row) => PairOf(test, tenantId, a, b)
  }

  function PairInto(test: Test, tenantId: string, b: Row): Row -> seq<MixedPair> {
    (a: Row) => PairOf(test, tenantId, a, b)
  }

  // ---- the listing -------------------------------------------------------

  /** The rows of one bin, in row order. */
  function Occupants(rows: seq<Row>, binId: string): seq<Row> { Filter(rows, WithKey(BinOf, binId)) }

  /** The triangular loops: each occupant with every later one. */
  function Triangle(test: Test, tenantId: string, occupants: seq<Row>): seq<MixedPair> {
    if occupants == [] then []
    else FlatMap(occupants[1..], PairWith(test, tenantId, occupants[0])) + Triangle(test, tenantId, occupants[1..])
  }

  function BinPart(test: Test, tenantId: string, rows: seq<Row>): string -> seq<MixedPair> {
    (binId: string) => Triangle(test, tenantId, Occupants(rows, binId))
  }

  /** One tenant's entries, bin by bin in order of first appearance. */
  function Listing(test: Test, tenantId: string, rows: seq<Row>): seq<MixedPair> {
    FlatMap(Distinct(Map(rows, BinOf)), BinPart(test, tenantId, rows))
  }

  function TenantPart(test: Test): Tenant -> seq<MixedPair> { (t: Tenant) => Listing(test, t.id, t.rows) }

  lemma {:induction false} OneMoreRow(rows: seq<Row>, i: nat)
    requires i < |rows|
    ensures var keys, row := Distinct(Map(rows[..i], BinOf)), rows[i];
            Distinct(Map(rows[..i + 1], BinOf)) == if row.binId in keys then keys else keys + [row.binId]
  {
    assert Map(rows[..i + 1], BinOf) == Map(rows[..i], BinOf) + [rows[i].binId];
    DistinctSnoc(Map(rows[..i], BinOf), rows[i].binId);
  }

  lemma {:induction false} OneMoreOccupant(rows: seq<Row>, i: nat, k: string)
    requires i < |rows|
    ensures Occupants(rows[..i + 1], k) == Occupants(rows[..i], k) + (if rows[i].binId == k then [rows[i]] else [])
  {
    assert rows[..i + 1] == rows[..i] + [rows[i]];
    FilterSnoc(rows[..i], rows[i], WithKey(BinOf, k));
  }

  ghost predicate Grouped(byBin: map<string, seq<Row>>, rows: seq<Row>) {
    forall k :: (if k in byBin then byBin[k] else []) == Occupants(rows, k)
  }

  lemma {:induction false} GroupedStep(
    byBin: map<string, seq<Row>>, byBin': map<string, seq<Row>>, rows: seq<Row>, i: nat)
    requires i < |rows| && Grouped(byBin, rows[..i])
    requires byBin' == byBin[rows[i].binId := (if rows[i].binId in byBin then byBin[rows[i].binId] else []) + [rows[i]]]
    ensures Grouped(byBin', rows[..i + 1])
  {
    forall k ensures (if k in byBin' then byBin'[k] else []) == Occupants(rows[..i + 1], k) {
      OneMoreOccupant(rows, i, k);
    }
  }

  /** The Map fill: the keys in insertion order, and each bin's rows. */
  method GroupByBin(rows: seq<Row>) returns (keys: seq<string>, byBin: map<string, seq<Row>>)
    ensures keys == Distinct(Map(rows, BinOf))
    ensures forall k :: k in byBin <==> k in keys
    ensures forall k :: k in byBin ==> byBin[k] == Occupants(rows, k)
  {
    keys, byBin := [], map[];
    for i := 0 to |rows|
      invariant keys == Distinct(Map(rows[..i], BinOf))
      invariant forall k :: k in byBin <==> k in keys
      invariant Grouped(byBin, rows[..i])
    {
      var row := rows[i];
      ghost var was := byBin;
      OneMoreRow(rows, i);
      var before := if row.binId in byBin then byBin[row.binId] else [];
      if row.binId !in byBin { keys := keys + [row.binId]; }
      byBin := byBin[row.binId := before + [row]];
      GroupedStep(was, byBin, rows, i);
    }
    assert rows[..|rows|] == rows;
  }

  /** The outer loop over one bin's occupants. */
  method ListBin(test: Test, tenantId: string, occupants: seq<Row>) returns (found: seq<MixedPair>)
    ensures found == Triangle(test, tenantId, occupants)
  {
    found := [];
    assert occupants[0..] == occupants;
    for i := 0 to |occupants|
      invariant found + Triangle(test, tenantId, occupants[i..]) == Triangle(test, tenantId, occupants)
    {
      assert occupants[i..][1..] == occupants[i + 1..];
      var part := ListWith(test, tenantId, occupants, i);
      Associate(found, part, Triangle(test, tenantId, occupants[i + 1..]));
      found := found + part;
    }
  }

  /** The inner loop: occupant `i` with each later one. */
  method ListWith(test: Test, tenantId: string, occupants: seq<Row>, i: nat) returns (found: seq<MixedPair>)
    requires i < |occupants|
    ensures found == FlatMap(occupants[i + 1..], PairWith(test, tenantId, occupants[i]))
  {
    found := [];
    var a := occupants[i];
    ghost var later := occupants[i + 1..];
    for j := i + 1 to |occupants|
      invariant found == FlatMap(later[..j - i - 1], PairWith(test, tenantId, a))
    {
      var b := occupants[j];
      FlatMapTake(later, j - i - 1, PairWith(test, tenantId, a));
      var conflict := test(a.profile, b.profile);
      if conflict.Some? {
        var facts := conflict.value.facts;
        var detail := Detail(a, b, facts);
        var rule := conflict.value.rule;
        var pair := MixedPair(tenantId, a.warehouseCode, a.binId, a.binCode, rule, a.skuCode, b.skuCode, detail);
        found := found + [pair];
      }
    }
    assert later[..|later|] == later;
  }

  method ListTenant(test: Test, tenantId: string, rows: seq<Row>) returns (found: seq<MixedPair>)
    ensures found == Listing(test, tenantId, rows)
  {
    var keys, byBin := GroupByBin(rows);
    found := [];
    for i := 0 to |keys|
      invariant found == FlatMap(keys[..i], BinPart(test, tenantId, rows))
    {
      assert keys[i] in keys;
      var part := ListBin(test, tenantId, byBin[keys[i]]);
      FlatMapTake(keys, i, BinPart(test, tenantId, rows));
      found := found + part;
    }
    assert keys[..|keys|] == keys;
  }

  // ---- the plain definition ----------------------------------------------

  /** Rows `i` and `j` share a bin and may not. */
  ghost predicate Mixed(test: Test, rows: seq<Row>, i: int, j: int) {
    && 0 <= i < j < |rows| && rows[i].binId == rows[j].binId
    && test(rows[i].profile, rows[j].profile).Some?
  }

  ghost predicate Tidy(test: Test, rows: seq<Row>) { forall i, j :: !Mixed(test, rows, i, j) }

  /** The entries a new last row adds. */
  function Column(test: Test, tenantId: string, front: seq<Row>, last: Row): seq<MixedPair> {
    FlatMap(Occupants(front, last.binId), PairInto(test, tenantId, last))
  }

  /** Every pair, with no grouping: each row against the earlier rows of its bin. */
  function AllPairs(test: Test, tenantId: string, rows: seq<Row>): seq<MixedPair> {
    if rows == [] then []
    else
      var front, last := rows[..|rows| - 1], rows[|rows| - 1];
      AllPairs(test, tenantId, front) + Column(test, tenantId, front, last)
  }

  // ---- the listing is all the pairs ---------------------------------------

  /** A new last occupant adds its column to the triangle. */
  lemma {:induction false} TriangleSnoc(test: Test, tenantId: string, occupants: seq<Row>, x: Row)
    ensures multiset(Triangle(test, tenantId, occupants + [x]))
         == multiset(Triangle(test, tenantId, occupants)) + multiset(FlatMap(occupants, PairInto(test, tenantId, x)))
    decreases |occupants|
  {
    if occupants != [] {
      var h, tl := occupants[0], occupants[1..];
      assert (occupants + [x])[0] == h && (occupants + [x])[1..] == tl + [x];
      TriangleSnoc(test, tenantId, tl, x);
      FlatMapSnoc(tl, x, PairWith(test, tenantId, h));
      FlatMapHead(occupants, PairInto(test, tenantId, x));
    } else {
      assert (occupants + [x])[1..] == [];
    }
  }

  function TriangleBag(test: Test, tenantId: string): seq<Row> -> multiset<MixedPair> {
    (occupants: seq<Row>) => multiset(Triangle(test, tenantId, occupants))
  }

  /** Grouping loses no pair, and adds none. */
  lemma {:induction false} GroupsHoldAllPairs(test: Test, tenantId: string, keys: seq<string>, rows: seq<Row>)
    requires NoDuplicates(keys) && forall r :: r in rows ==> r.binId in keys
    ensures Gather(keys, rows, BinOf, TriangleBag(test, tenantId)) == multiset(AllPairs(test, tenantId, rows))
  {
    var f := TriangleBag(test, tenantId);
    if rows == [] {
      GatherNothing(keys, BinOf, f);
    } else {
      var front, last := rows[..|rows| - 1], rows[|rows| - 1];
      var group := Occupants(front, last.binId);
      assert rows == front + [last] && last in rows;
      GroupsHoldAllPairs(test, tenantId, keys, front);
      GatherSnoc(keys, front, last, BinOf, f);
      TriangleSnoc(test, tenantId, group, last);
      CancelBag(Gather(keys, rows, BinOf, f), Gather(keys, front, BinOf, f), f(group),
                multiset(FlatMap(group, PairInto(test, tenantId, last))));
    }
  }

  lemma {:induction false} PartsAreGathered(test: Test, tenantId: string, keys: seq<string>, rows: seq<Row>)
    ensures multiset(FlatMap(keys, BinPart(test, tenantId, rows)))
         == Gather(keys, rows, BinOf, TriangleBag(test, tenantId))
  {
    if keys != [] { PartsAreGathered(test, tenantId, keys[..|keys| - 1], rows); }
  }

  /** The grouped listing is a rearrangement of the pairs taken with no grouping at all. */
  lemma {:induction false} ListingIsAllPairs(test: Test, tenantId: string, rows: seq<Row>)
    ensures multiset(Listing(test, tenantId, rows)) == multiset(AllPairs(test, tenantId, rows))
  {
    var keys := Distinct(Map(rows, BinOf));
    forall r | r in rows ensures r.binId in keys {
      var i :| 0 <= i < |rows| && rows[i] == r;
      assert Map(rows, BinOf)[i] == r.binId;
    }
    GroupsHoldAllPairs(test, tenantId, keys, rows);
    PartsAreGathered(test, tenantId, keys, rows);
  }

  function RuleFor(test: Test, a: Profile, b: Profile): Option<Rule> {
    match test(a, b) case None => None case Some(f) => Some(f.rule)
  }

  /** The same rule in either order; the facts follow the order. */
  ghost predicate Symmetric(test: Test) { forall a, b :: RuleFor(test, a, b) == RuleFor(test, b, a) }

  // ---- exactly the conflicting pairs ---------------------------------------

  /** Entry `p` is what rows `i` and `j` of one bin give. */
  ghost predicate From(test: Test, tenantId: string, rows: seq<Row>, p: MixedPair, i: int, j: int) {
    && Mixed(test, rows, i, j) && PairOf(test, tenantId, rows[i], rows[j]) == [p]
  }

  lemma {:induction false} AllPairsOnly(test: Test, tenantId: string, rows: seq<Row>, p: MixedPair)
    returns (i: nat, j: nat)
    requires p in AllPairs(test, tenantId, rows)
    ensures From(test, tenantId, rows, p, i, j)
  {
    var front, last := rows[..|rows| - 1], rows[|rows| - 1];
    if p in AllPairs(test, tenantId, front) {
      i, j := AllPairsOnly(test, tenantId, front, p);
    } else {
      var group := Occupants(front, last.binId);
      FlatMapMember(group, PairInto(test, tenantId, last), p);
      var a :| a in group && p in PairInto(test, tenantId, last)(a);
      assert WithKey(BinOf, last.binId)(a);
      assert BinOf(a) == last.binId;
      var k :| 0 <= k < |front| && front[k] == a;
      i, j := k, |front|;
      assert rows[i] == a && rows[j] == last && Mixed(test, rows, i, j);
    }
  }

  lemma {:induction false} AllPairsEach(test: Test, tenantId: string, rows: seq<Row>, p: MixedPair, i: nat, j: nat)
    requires From(test, tenantId, rows, p, i, j)
    ensures p in AllPairs(test, tenantId, rows)
  {
    var front, last := rows[..|rows| - 1], rows[|rows| - 1];
    if j < |front| {
      AllPairsEach(test, tenantId, front, p, i, j);
    } else {
      assert rows[i] == front[i] && front[i] in front;
      assert rows[j] == last && BinOf(front[i]) == last.binId;
      assert WithKey(BinOf, last.binId)(front[i]);
      assert rows[i] in Occupants(front, last.binId);
      assert p in PairInto(test, tenantId, last)(rows[i]);
      FlatMapMember(Occupants(front, last.binId), PairInto(test, tenantId, last), p);
    }
  }

  /** The listing holds an entry for every conflicting pair of one bin, and nothing else. */
  lemma {:induction false} ListingMembers(test: Test, tenantId: string, rows: seq<Row>, p: MixedPair)
    ensures p in Listing(test, tenantId, rows) <==> exists i, j :: From(test, tenantId, rows, p, i, j)
  {
    ListingIsAllPairs(test, tenantId, rows);
    SameBagSameMembers(Listing(test, tenantId, rows), AllPairs(test, tenantId, rows));
    if p in AllPairs(test, tenantId, rows) {
      var i, j := AllPairsOnly(test, tenantId, rows, p);
    }
    forall i, j | From(test, tenantId, rows, p, i, j) ensures p in AllPairs(test, tenantId, rows) {
      AllPairsEach(test, tenantId, rows, p, i, j);
    }
  }

  /** `p` says of `a` and `b`, in that order, what `f` found. */
  ghost predicate Says(p: MixedPair, tenantId: string, a: Row, b: Row, f: Finding) {
    && p.tenantId == tenantId && p.warehouseCode == a.warehouseCode && p.binId == a.binId && p.binCode == a.binCode
    && p.rule == f.rule && p.skuA == a.skuCode && p.skuB == b.skuCode && p.detail == Detail(a, b, f.facts)
  }

  ghost predicate Stated(test: Test, tenantId: string, rows: seq<Row>, p: MixedPair, i: int, j: int) {
    && 0 <= i < j < |rows| && rows[i].binId == rows[j].binId
    && var found := test(rows[i].profile, rows[j].profile);
       found.Some? && Says(p, tenantId, rows[i], rows[j], found.value)
  }

  /** Field by field: an entry is listed if and only if two rows of one bin conflict and it names
      their tenant, warehouse and bin, the rule and its facts, the earlier row's SKU as `skuA` and
      the later row's as `skuB`. */
  lemma {:induction false} EntriesSayTheirRows(test: Test, tenantId: string, rows: seq<Row>, p: MixedPair)
    ensures p in Listing(test, tenantId, rows) <==> exists i, j :: Stated(test, tenantId, rows, p, i, j)
  {
    ListingMembers(test, tenantId, rows, p);
    forall i, j ensures From(test, tenantId, rows, p, i, j) <==> Stated(test, tenantId, rows, p, i, j) {
      if 0 <= i < j < |rows| { EntrySays(test, tenantId, rows[i], rows[j], p); }
    }
  }

  lemma {:induction false} EntrySays(test: Test, tenantId: string, a: Row, b: Row, p: MixedPair)
    ensures PairOf(test, tenantId, a, b) == [p] <==>
            var found := test(a.profile, b.profile); found.Some? && Says(p, tenantId, a, b, found.value)
  {
  }

  lemma {:induction false} EmptyMeansTidy(test: Test, tenantId: string, rows: seq<Row>)
    ensures Listing(test, tenantId, rows) == [] <==> Tidy(test, rows)
  {
    var found := Listing(test, tenantId, rows);
    if found != [] {
      ListingMembers(test, tenantId, rows, found[0]);
    }
    forall i, j | Mixed(test, rows, i, j) ensures found != [] {
      var p := PairOf(test, tenantId, rows[i], rows[j])[0];
      assert From(test, tenantId, rows, p, i, j);
      ListingMembers(test, tenantId, rows, p);
    }
  }

  lemma {:induction false} NothingFoundMeansTidy(test: Test, tenants: seq<Tenant>)
    ensures FlatMap(tenants, TenantPart(test)) == [] <==> forall t :: t in tenants ==> Tidy(test, t.rows)
  {
    FlatMapEmpty(tenants, TenantPart(test));
    forall t: Tenant ensures TenantPart(test)(t) == [] <==> Tidy(test, t.rows) { EmptyMeansTidy(test, t.id, t.rows); }
  }

  // ---- one entry per pair ---------------------------------------------------

  /** The row pairs an entry stands for. */
  ghost function Sources(test: Test, tenantId: string, rows: seq<Row>, p: MixedPair): set<(int, int)> {
    set i, j | 0 <= i < |rows| && 0 <= j < |rows| && From(test, tenantId, rows, p, i, j) :: (i, j)
  }

  function Gives(test: Test, tenantId: string, b: Row, p: MixedPair): Row -> bool {
    (a: Row) => a.binId == b.binId && PairOf(test, tenantId, a, b) == [p]
  }

  ghost function ColumnSources(test: Test, tenantId: string, front: seq<Row>, last: Row, p: MixedPair): set<int> {
    Positions(front, Gives(test, tenantId, last, p))
  }

  lemma {:induction false} ColumnCount(test: Test, tenantId: string, rows: seq<Row>, last: Row, p: MixedPair)
    ensures multiset(Column(test, tenantId, rows, last))[p] == |ColumnSources(test, tenantId, rows, last, p)|
  {
    if rows != [] {
      var n := |rows| - 1;
      var front, x := rows[..n], rows[n];
      assert rows == front + [x];
      ColumnCount(test, tenantId, front, last, p);
      PositionsSnoc(front, x, Gives(test, tenantId, last, p));
      ColumnLonger(test, tenantId, front, x, last, p);
    }
  }

  lemma {:induction false} ColumnLonger(test: Test, tenantId: string, front: seq<Row>, x: Row, last: Row, p: MixedPair)
    ensures multiset(Column(test, tenantId, front + [x], last))[p] == multiset(Column(test, tenantId, front, last))[p]
              + (if x.binId == last.binId && PairOf(test, tenantId, x, last) == [p] then 1 else 0)
  {
    FilterSnoc(front, x, WithKey(BinOf, last.binId));
    assert BinOf(x) == x.binId;
    FlatMapSnoc(Occupants(front, last.binId), x, PairInto(test, tenantId, last));
    assert Occupants(front, last.binId) + [] == Occupants(front, last.binId);
  }

  lemma {:induction false} Tagged(s: set<int>, n: int)
    ensures |set i | i in s :: (i, n)| == |s|
  {
    if s == {} {
      assert (set i | i in s :: (i, n)) == {};
    } else {
      var m := Least(s);
      Tagged(s - {m}, n);
      assert (set i | i in s :: (i, n)) == (set i | i in s - {m} :: (i, n)) + {(m, n)};
    }
  }

  lemma {:induction false} AllPairsCount(test: Test, tenantId: string, rows: seq<Row>, p: MixedPair)
    ensures multiset(AllPairs(test, tenantId, rows))[p] == |Sources(test, tenantId, rows, p)|
  {
    if rows == [] {
      assert Sources(test, tenantId, rows, p) == {};
    } else {
      var n := |rows| - 1;
      var front, last := rows[..n], rows[n];
      AllPairsCount(test, tenantId, front, p);
      ColumnCount(test, tenantId, front, last, p);
      SourcesGrow(test, tenantId, rows, p);
    }
  }

  lemma {:induction false} SourcesGrow(test: Test, tenantId: string, rows: seq<Row>, p: MixedPair)
    requires rows != []
    ensures var n := |rows| - 1;
            |Sources(test, tenantId, rows, p)| == |Sources(test, tenantId, rows[..n], p)|
              + |ColumnSources(test, tenantId, rows[..n], rows[n], p)|
  {
    var n := |rows| - 1;
    var older, column := Sources(test, tenantId, rows[..n], p), ColumnSources(test, tenantId, rows[..n], rows[n], p);
    var tagged := set i | i in column :: (i, n);
    Tagged(column, n);
    forall x: (int, int) ensures x in Sources(test, tenantId, rows, p) <==> x in older || x in tagged {
      SourcesMembers(test, tenantId, rows, p, x.0, x.1);
      SourcesMembers(test, tenantId, rows[..n], p, x.0, x.1);
      FromLast(test, tenantId, rows, p, x.0, x.1);
    }
    DisjointUnion(Sources(test, tenantId, rows, p), older, tagged);
  }

  lemma {:induction false} DisjointUnion<T(!new)>(s: set<T>, a: set<T>, b: set<T>)
    requires a !! b && forall x :: x in s <==> x in a || x in b
    ensures |s| == |a| + |b|
  {
    assert s == a + b;
  }

  lemma {:induction false} FromLast(test: Test, tenantId: string, rows: seq<Row>, p: MixedPair, i: int, j: int)
    requires rows != []
    ensures var n := |rows| - 1;
            From(test, tenantId, rows, p, i, j) <==>
              if j == n then i in ColumnSources(test, tenantId, rows[..n], rows[n], p)
              else From(test, tenantId, rows[..n], p, i, j)
  {
  }

  /** Exactly one entry per conflicting pair: however many row pairs an entry stands for, so
      many times it is listed. */
  lemma {:induction false} OneEntryPerPair(test: Test, tenantId: string, rows: seq<Row>, p: MixedPair)
    ensures multiset(Listing(test, tenantId, rows))[p] == |Sources(test, tenantId, rows, p)|
  {
    ListingIsAllPairs(test, tenantId, rows);
    AllPairsCount(test, tenantId, rows, p);
  }

  /** Two different conflicting pairs the listing cannot tell apart: same bin, same codes, same
      rule, and the same sentence about their facts. */
  ghost predicate Alike(test: Test, rows: seq<Row>, i: int, j: int, k: int, l: int) {
    && Mixed(test, rows, i, j) && Mixed(test, rows, k, l) && (i, j) != (k, l)
    && PairOf(test, "", rows[i], rows[j]) == PairOf(test, "", rows[k], rows[l])
  }

  lemma {:induction false} AtMostOne<T>(s: set<T>, x: T, y: T)
    requires |s| <= 1 && x in s && y in s
    ensures x == y
  {
    assert x != y ==> |s - {x}| > 0 by { assert x != y ==> y in s - {x}; }
  }

  lemma {:induction false} SourcesMembers(test: Test, tenantId: string, rows: seq<Row>, p: MixedPair, i: int, j: int)
    ensures (i, j) in Sources(test, tenantId, rows, p) <==> From(test, tenantId, rows, p, i, j)
  {
  }

  lemma {:induction false} AlikeRepeats(test: Test, tenantId: string, rows: seq<Row>, i: int, j: int, k: int, l: int)
    requires Alike(test, rows, i, j, k, l)
    ensures !NoDuplicates(Listing(test, tenantId, rows))
  {
    var p := PairOf(test, tenantId, rows[i], rows[j])[0];
    var s := Sources(test, tenantId, rows, p);
    OneEntryPerPair(test, tenantId, rows, p);
    SourcesMembers(test, tenantId, rows, p, i, j);
    SourcesMembers(test, tenantId, rows, p, k, l);
    if |s| <= 1 { AtMostOne(s, (i, j), (k, l)); }
    if NoDuplicates(Listing(test, tenantId, rows)) { OnceEach(Listing(test, tenantId, rows)); }
  }

  lemma {:induction false} RepeatIsAlike(test: Test, tenantId: string, rows: seq<Row>, m: nat, n: nat)
    returns (x: (int, int), y: (int, int))
    requires m < n < |Listing(test, tenantId, rows)|
    requires Listing(test, tenantId, rows)[m] == Listing(test, tenantId, rows)[n]
    ensures Alike(test, rows, x.0, x.1, y.0, y.1)
  {
    var p := Listing(test, tenantId, rows)[m];
    var s := Sources(test, tenantId, rows, p);
    CountedTwice(Listing(test, tenantId, rows), m, n);
    OneEntryPerPair(test, tenantId, rows, p);
    x, y := TwoOf(s);
    SourcesMembers(test, tenantId, rows, p, x.0, x.1);
    SourcesMembers(test, tenantId, rows, p, y.0, y.1);
  }

  lemma {:induction false} TwoOf<T>(s: set<T>) returns (x: T, y: T)
    requires |s| >= 2
    ensures x in s && y in s && x != y
  {
    x :| x in s;
    assert |s - {x}| > 0;
    y :| y in s - {x};
  }

  /** A line repeats if and only if two different conflicting pairs of a bin share their codes,
      their rule and the sentence of their facts, as the SKUs of two clients can. */
  lemma {:induction false} RepeatsOnlyWhenAlike(test: Test, tenantId: string, rows: seq<Row>)
    ensures NoDuplicates(Listing(test, tenantId, rows)) <==> forall i, j, k, l :: !Alike(test, rows, i, j, k, l)
  {
    var found := Listing(test, tenantId, rows);
    forall i, j, k, l | Alike(test, rows, i, j, k, l) ensures !NoDuplicates(found) {
      AlikeRepeats(test, tenantId, rows, i, j, k, l);
    }
    if m, n :| 0 <= m < n < |found| && found[m] == found[n] {
      var x, y := RepeatIsAlike(test, tenantId, rows, m, n);
    }
  }

  /** And they can: two clients' SKUs of one code and one profile, beside a third SKU that both
      conflict with, give the same line twice. */
  lemma {:induction false} SharedCodeRepeats(test: Test, tenantId: string, a: Row, b: Row)
    requires a.binId == b.binId && test(a.profile, b.profile).Some?
    ensures !NoDuplicates(Listing(test, tenantId, [a, a, b]))
  {
    assert Alike(test, [a, a, b], 0, 2, 1, 2);
    RepeatsOnlyWhenAlike(test, tenantId, [a, a, b]);
  }

  /** With the goods rules: two clients' butter of one code beside a chemical of DG class 9. */
  lemma {:induction false} TwoClientsRepeatALine(tenantId: string, butter: Row, chemical: Row)
    requires butter == Row("W", "bin", "A-1", "S1", Profile(None, None, [], [], Some("dairy"), []))
    requires chemical == Row("W", "bin", "A-1", "S2", Profile(None, Some("9"), [], [], None, []))
    ensures !NoDuplicates(Listing(GOODS, tenantId, [butter, butter, chemical]))
  {
    DairyMeetsChemical(butter.profile, chemical.profile);
    assert GOODS(butter.profile, chemical.profile).Some?;
    SharedCodeRepeats(GOODS, tenantId, butter, chemical);
  }

  lemma {:induction false} DairyMeetsChemical(food: Profile, chemical: Profile)
    requires food == Profile(None, None, [], [], Some("dairy"), [])
    requires chemical == Profile(None, Some("9"), [], [], None, [])
    ensures GoodsConflict(food, chemical) == Some(FoodChemical(A))
  {
    assert HazardSet(food) == [] && HazardSet(chemical) == [];
    assert FirstPair([], [], []) == None;
    assert Fires(ExplosiveDgRule, food, chemical) == None;
    assert NON_HAZARD_RULES[0] == ExplosiveDgRule && NON_HAZARD_RULES[1..][0] == FoodChemicalRule;
    assert FirstRule(NON_HAZARD_RULES[1..], food, chemical, []) == Some(FoodChemical(A));
  }

  function WithFacts(code: string, facts: string): string { "\"" + code + "\" (" + facts + ")" }

  /** The line states each SKU's facts right after its own code, the earlier SKU first. */
  lemma {:induction false} DetailReads(a: Row, b: Row, facts: Facts)
    ensures exists opening, closing: string ::
              Detail(a, b, facts)
              == opening + WithFacts(a.skuCode, facts.a) + " and " + WithFacts(b.skuCode, facts.b) + closing
  {
    var opening, closing := "Bin \"" + a.binCode + "\" holds SKUs ", ", which " + facts.pairVerdict + ".";
    DetailPieces(a.binCode, a.skuCode, b.skuCode, facts);
  }

  lemma {:induction false} DetailPieces(bin: string, codeA: string, codeB: string, facts: Facts)
    ensures "Bin \"" + bin + "\" holds SKUs \"" + codeA + "\" (" + facts.a + ") and \""
            + codeB + "\" (" + facts.b + "), which " + facts.pairVerdict + "."
         == "Bin \"" + bin + "\" holds SKUs " + WithFacts(codeA, facts.a) + " and "
            + WithFacts(codeB, facts.b) + (", which " + facts.pairVerdict + ".")
  {
  }

  // ---- no pair twice --------------------------------------------------------

  /** No bin holds two SKUs of one code. */
  ghost predicate OneRowEach(rows: seq<Row>) {
    forall i, j :: 0 <= i < j < |rows| ==> SlotOf(rows[i]) != SlotOf(rows[j])
  }

  /** `p` names the two SKUs, in either order. */
  predicate Names(p: MixedPair, binId: string, x: string, y: string) {
    p.binId == binId && ((p.skuA == x && p.skuB == y) || (p.skuA == y && p.skuB == x))
  }

  lemma {:induction false} AlikeSharesSlots(test: Test, rows: seq<Row>, i: int, j: int, k: int, l: int)
    requires Alike(test, rows, i, j, k, l)
    ensures 0 <= i < |rows| && 0 <= j < |rows| && 0 <= k < |rows| && 0 <= l < |rows|
    ensures SlotOf(rows[i]) == SlotOf(rows[k]) && SlotOf(rows[j]) == SlotOf(rows[l])
  {
  }

  lemma {:induction false} NeverAlike(test: Test, rows: seq<Row>, i: int, j: int, k: int, l: int)
    requires OneRowEach(rows)
    ensures !Alike(test, rows, i, j, k, l)
  {
    assert forall x, y :: 0 <= x < |rows| && 0 <= y < |rows| && SlotOf(rows[x]) == SlotOf(rows[y]) ==> x == y;
    if Alike(test, rows, i, j, k, l) { AlikeSharesSlots(test, rows, i, j, k, l); }
  }

  /** With codes distinct in each bin, no two SKUs are listed together twice, in either order. */
  lemma {:induction false} NoPairTwice(test: Test, tenantId: string, rows: seq<Row>)
    requires OneRowEach(rows)
    ensures NoDuplicates(Listing(test, tenantId, rows))
    ensures forall p, q ::
              p in Listing(test, tenantId, rows) && q in Listing(test, tenantId, rows)
              && Names(q, p.binId, p.skuA, p.skuB) ==>
                p == q
  {
    forall i, j, k, l ensures !Alike(test, rows, i, j, k, l) { NeverAlike(test, rows, i, j, k, l); }
    RepeatsOnlyWhenAlike(test, tenantId, rows);
    var found := Listing(test, tenantId, rows);
    forall p, q | p in found && q in found && Names(q, p.binId, p.skuA, p.skuB) ensures p == q {
      OneOrder(test, tenantId, rows, p, q);
    }
  }

  lemma {:induction false} OneOrder(test: Test, tenantId: string, rows: seq<Row>, p: MixedPair, q: MixedPair)
    requires OneRowEach(rows)
    requires p in Listing(test, tenantId, rows) && q in Listing(test, tenantId, rows)
    requires Names(q, p.binId, p.skuA, p.skuB)
    ensures p == q
  {
    ListingMembers(test, tenantId, rows, p);
    ListingMembers(test, tenantId, rows, q);
    var i, j :| From(test, tenantId, rows, p, i, j);
    var k, l :| From(test, tenantId, rows, q, k, l);
    assert forall x, y :: 0 <= x < |rows| && 0 <= y < |rows| && SlotOf(rows[x]) == SlotOf(rows[y]) ==> x == y;
    assert SlotOf(rows[i]) == (p.binId, p.skuA) && SlotOf(rows[j]) == (p.binId, p.skuB);
    assert SlotOf(rows[k]) == (q.binId, q.skuA) && SlotOf(rows[l]) == (q.binId, q.skuB);
  }

  lemma {:induction false} NamedInRowOrder(test: Test, tenantId: string, rows: seq<Row>, p: MixedPair, lo: nat, hi: nat)
    requires OneRowEach(rows) && lo < hi < |rows| && rows[lo].binId == rows[hi].binId
    requires p in Listing(test, tenantId, rows) && Names(p, rows[lo].binId, rows[lo].skuCode, rows[hi].skuCode)
    ensures From(test, tenantId, rows, p, lo, hi)
  {
    ListingMembers(test, tenantId, rows, p);
    var i, j :| From(test, tenantId, rows, p, i, j);
    assert forall x, y :: 0 <= x < |rows| && 0 <= y < |rows| && SlotOf(rows[x]) == SlotOf(rows[y]) ==> x == y;
    assert SlotOf(rows[i]) == (p.binId, p.skuA) && SlotOf(rows[j]) == (p.binId, p.skuB);
    assert SlotOf(rows[lo]) == (p.binId, rows[lo].skuCode) && SlotOf(rows[hi]) == (p.binId, rows[hi].skuCode);
  }

  /** The listing is exact on unordered pairs: two occupants of a bin are named together, by
      the rule that parts them, if and only if their goods conflict. The row order decides only
      which of the two is `skuA`. */
  lemma {:induction false} ListedWhenInConflict(test: Test, tenantId: string, rows: seq<Row>, i: nat, j: nat)
    requires Symmetric(test) && OneRowEach(rows)
    requires i < |rows| && j < |rows| && i != j && rows[i].binId == rows[j].binId
    ensures test(rows[i].profile, rows[j].profile).Some? <==>
            exists p :: p in Listing(test, tenantId, rows) && Names(p, rows[i].binId, rows[i].skuCode, rows[j].skuCode)
    ensures forall p ::
              p in Listing(test, tenantId, rows) && Names(p, rows[i].binId, rows[i].skuCode, rows[j].skuCode) ==>
              test(rows[i].profile, rows[j].profile).Some?
              && p.rule == test(rows[i].profile, rows[j].profile).value.rule
  {
    EitherWay(test, rows[i].profile, rows[j].profile);
    if i < j { ListedInRowOrder(test, tenantId, rows, i, j); } else { ListedInRowOrder(test, tenantId, rows, j, i); }
    forall p: MixedPair
      ensures Names(p, rows[i].binId, rows[i].skuCode, rows[j].skuCode) <==>
              Names(p, rows[i].binId, rows[j].skuCode, rows[i].skuCode) {}
  }

  lemma {:induction false} EitherWay(test: Test, a: Profile, b: Profile)
    requires Symmetric(test)
    ensures test(a, b).Some? <==> test(b, a).Some?
    ensures test(a, b).Some? ==> test(a, b).value.rule == test(b, a).value.rule
  {
    assert RuleFor(test, a, b) == RuleFor(test, b, a);
  }

  lemma {:induction false} ListedInRowOrder(test: Test, tenantId: string, rows: seq<Row>, lo: nat, hi: nat)
    requires OneRowEach(rows) && lo < hi < |rows| && rows[lo].binId == rows[hi].binId
    ensures test(rows[lo].profile, rows[hi].profile).Some? <==>
            exists p ::
              p in Listing(test, tenantId, rows) && Names(p, rows[lo].binId, rows[lo].skuCode, rows[hi].skuCode)
    ensures forall p ::
              p in Listing(test, tenantId, rows) && Names(p, rows[lo].binId, rows[lo].skuCode, rows[hi].skuCode) ==>
              test(rows[lo].profile, rows[hi].profile).Some?
              && p.rule == test(rows[lo].profile, rows[hi].profile).value.rule
  {
    var found := Listing(test, tenantId, rows);
    if test(rows[lo].profile, rows[hi].profile).Some? {
      var p := PairOf(test, tenantId, rows[lo], rows[hi])[0];
      assert From(test, tenantId, rows, p, lo, hi);
      ListingMembers(test, tenantId, rows, p);
      assert p in found && Names(p, rows[lo].binId, rows[lo].skuCode, rows[hi].skuCode);
    }
    forall p | p in found && Names(p, rows[lo].binId, rows[lo].skuCode, rows[hi].skuCode)
      ensures From(test, tenantId, rows, p, lo, hi)
    {
      NamedInRowOrder(test, tenantId, rows, p, lo, hi);
    }
  }

  // ---- the query's filter ---------------------------------------------------

  /** Rows without a profile conflict with nothing. */
  ghost predicate SkipsEmpty(test: Test) {
    forall a, b :: IsEmptyProfile(a) || IsEmptyProfile(b) ==> test(a, b) == None
  }

  function HasProfile(): Row -> bool { (r: Row) => !IsEmptyProfile(r.profile) }

  lemma {:induction false} ColumnPrefilter(test: Test, tenantId: string, group: seq<Row>, last: Row)
    requires SkipsEmpty(test)
    ensures FlatMap(Filter(group, HasProfile()), PairInto(test, tenantId, last))
         == FlatMap(group, PairInto(test, tenantId, last))
    ensures IsEmptyProfile(last.profile) ==> FlatMap(group, PairInto(test, tenantId, last)) == []
  {
    if group != [] {
      var front, x := group[..|group| - 1], group[|group| - 1];
      ColumnPrefilter(test, tenantId, front, last);
      if HasProfile()(x) { FlatMapSnoc(Filter(front, HasProfile()), x, PairInto(test, tenantId, last)); }
      else { assert Filter(group, HasProfile()) == Filter(front, HasProfile()); }
    }
  }

  lemma {:induction false} FiltersCommute(rows: seq<Row>, p: Row -> bool, q: Row -> bool)
    ensures Filter(Filter(rows, p), q) == Filter(Filter(rows, q), p)
  {
    if rows != [] {
      var front, last := rows[..|rows| - 1], rows[|rows| - 1];
      FiltersCommute(front, p, q);
      if p(last) { FilterSnoc(Filter(front, p), last, q); } else { assert Filter(rows, p) == Filter(front, p); }
      if q(last) { FilterSnoc(Filter(front, q), last, p); } else { assert Filter(rows, q) == Filter(front, q); }
    }
  }

  lemma {:induction false} PairsPrefilter(test: Test, tenantId: string, rows: seq<Row>)
    requires SkipsEmpty(test)
    ensures AllPairs(test, tenantId, Filter(rows, HasProfile())) == AllPairs(test, tenantId, rows)
  {
    if rows != [] {
      var front, last := rows[..|rows| - 1], rows[|rows| - 1];
      var kept := Filter(front, HasProfile());
      PairsPrefilter(test, tenantId, front);
      ColumnPrefilter(test, tenantId, Occupants(front, last.binId), last);
      FiltersCommute(front, HasProfile(), WithKey(BinOf, last.binId));
      if HasProfile()(last) {
        assert Filter(rows, HasProfile()) == kept + [last];
        assert (kept + [last])[..|kept|] == kept;
      } else {
        assert Filter(rows, HasProfile()) == kept;
      }
    }
  }

  /** Dropping rows without a profile in the query loses no conflict: the filtered and the
      unfiltered rows give the same entries. */
  lemma {:induction false} PrefilterLosesNothing(test: Test, tenantId: string, rows: seq<Row>)
    requires SkipsEmpty(test)
    ensures multiset(Listing(test, tenantId, Filter(rows, HasProfile()))) == multiset(Listing(test, tenantId, rows))
  {
    PairsPrefilter(test, tenantId, rows);
    ListingIsAllPairs(test, tenantId, rows);
    ListingIsAllPairs(test, tenantId, Filter(rows, HasProfile()));
  }

  // ---- the command, with the goods rules ------------------------------------

  /** `goodsConflict` as the test, with `conflictFacts` of what it found. */
  const GOODS: Test := (a: Profile, b: Profile) =>
    match GoodsConflict(a, b)
    case None => None
    case Some(conflict) => Some(Finding(RuleOf(conflict), ConflictFacts(conflict, a, b)))

  /** The whole command: nothing to check is exit 2, never an all-clear. */
  method Run(tenants: seq<Tenant>) returns (found: seq<MixedPair>, code: int)
    ensures found == FlatMap(tenants, TenantPart(GOODS))
    ensures code == 2 <==> tenants == []
    ensures code == 0 <==> tenants != [] && forall t :: t in tenants ==> Tidy(GOODS, t.rows)
    ensures code == 1 <==> exists t :: t in tenants && !Tidy(GOODS, t.rows)
    ensures code == 0 <==> tenants != [] && forall t :: t in tenants ==> Separated(t.rows)
    ensures code == 1 <==> exists t :: t in tenants && !Separated(t.rows)
  {
    found := [];
    if tenants == [] { return found, 2; }
    for i := 0 to |tenants|
      invariant found == FlatMap(tenants[..i], TenantPart(GOODS))
    {
      var part := ListTenant(GOODS, tenants[i].id, tenants[i].rows);
      FlatMapTake(tenants, i, TenantPart(GOODS));
      found := found + part;
    }
    assert tenants[..|tenants|] == tenants;
    code := if found == [] then 0 else 1;
    NothingFoundMeansTidy(GOODS, tenants);
    forall t: Tenant ensures Tidy(GOODS, t.rows) <==> Separated(t.rows) { TidyIsSeparated(t.rows); }
  }

  /** No two rows of a bin break a rule of the book. */
  ghost predicate Separated(rows: seq<Row>) {
    forall i, j :: 0 <= i < j < |rows| && rows[i].binId == rows[j].binId ==>
      ByTheBook(rows[i].profile, rows[j].profile) == None
  }

  lemma {:induction false} TidyIsSeparated(rows: seq<Row>)
    ensures Tidy(GOODS, rows) <==> Separated(rows)
  {
    forall i, j | 0 <= i < j < |rows|
      ensures GOODS(rows[i].profile, rows[j].profile).Some? <==> ByTheBook(rows[i].profile, rows[j].profile) != None
    {
      GoodsByTheBook(rows[i].profile, rows[j].profile);
    }
    forall i, j | Mixed(GOODS, rows, i, j) ensures !Separated(rows) {
      assert ByTheBook(rows[i].profile, rows[j].profile) != None;
    }
    if !Separated(rows) {
      var i, j :| 0 <= i < j < |rows| && rows[i].binId == rows[j].binId
                  && ByTheBook(rows[i].profile, rows[j].profile) != None;
      assert Mixed(GOODS, rows, i, j);
    }
  }

  /** The test the command uses reports by the book. */
  lemma {:induction false} GoodsByTheBook(a: Profile, b: Profile)
    ensures RuleFor(GOODS, a, b) == ByTheBook(a, b)
    ensures GOODS(a, b).Some? <==> ByTheBook(a, b) != None
  {
    ConflictIsByTheBook(a, b);
  }

  lemma {:induction false} GoodsTestIsLawful()
    ensures Symmetric(GOODS) && SkipsEmpty(GOODS)
  {
    forall a: Profile, b: Profile ensures RuleFor(GOODS, a, b) == RuleFor(GOODS, b, a) { ConflictIsSymmetric(a, b); }
  }

  lemma {:induction false} EntriesNameTheirTenant(test: Test, t: Tenant)
    ensures forall p :: p in Listing(test, t.id, t.rows) ==> p.tenantId == t.id
  {
    forall p | p in Listing(test, t.id, t.rows) ensures p.tenantId == t.id { ListingMembers(test, t.id, t.rows, p); }
  }

  /** Tenants have distinct ids, and no bin holds two SKUs of one code. */
  ghost predicate WellKeyed(tenants: seq<Tenant>) {
    && (forall i, j :: 0 <= i < j < |tenants| ==> tenants[i].id != tenants[j].id)
    && (forall t :: t in tenants ==> OneRowEach(t.rows))
  }

  /** The report holds, for each tenant, that tenant's own listing and nothing else. */
  lemma {:induction false} ReportSplitsByTenant(test: Test, tenants: seq<Tenant>, t: Tenant, p: MixedPair)
    requires WellKeyed(tenants) && t in tenants && p.tenantId == t.id
    ensures p in FlatMap(tenants, TenantPart(test)) <==> p in Listing(test, t.id, t.rows)
  {
    FlatMapMember(tenants, TenantPart(test), p);
    assert p in Listing(test, t.id, t.rows) ==> p in TenantPart(test)(t);
    if u :| u in tenants && p in TenantPart(test)(u) {
      EntriesNameTheirTenant(test, u);
    }
  }

  /** The report is exact: two occupants of a bin are reported together, in one order or the
      other, if and only if `goodsConflict` parts them. */
  lemma {:induction false} ReportIsExact(tenants: seq<Tenant>, t: Tenant, i: nat, j: nat)
    requires WellKeyed(tenants) && t in tenants
    requires i < |t.rows| && j < |t.rows| && i != j && t.rows[i].binId == t.rows[j].binId
    ensures GoodsConflict(t.rows[i].profile, t.rows[j].profile).Some? <==>
            exists p :: p in FlatMap(tenants, TenantPart(GOODS)) && p.tenantId == t.id
                     && Names(p, t.rows[i].binId, t.rows[i].skuCode, t.rows[j].skuCode)
  {
    GoodsTestIsLawful();
    assert GOODS(t.rows[i].profile, t.rows[j].profile).Some? <==>
            GoodsConflict(t.rows[i].profile, t.rows[j].profile).Some?;
    ReportedWhenInConflict(GOODS, tenants, t, i, j);
  }

  lemma {:induction false} ReportedWhenInConflict(test: Test, tenants: seq<Tenant>, t: Tenant, i: nat, j: nat)
    requires Symmetric(test) && WellKeyed(tenants) && t in tenants
    requires i < |t.rows| && j < |t.rows| && i != j && t.rows[i].binId == t.rows[j].binId
    ensures test(t.rows[i].profile, t.rows[j].profile).Some? <==>
            exists p :: p in FlatMap(tenants, TenantPart(test)) && p.tenantId == t.id
                     && Names(p, t.rows[i].binId, t.rows[i].skuCode, t.rows[j].skuCode)
  {
    ListedWhenInConflict(test, t.id, t.rows, i, j);
    EntriesNameTheirTenant(test, t);
    forall p: MixedPair | p.tenantId == t.id
      ensures p in FlatMap(tenants, TenantPart(test)) <==> p in Listing(test, t.id, t.rows)
    {
      ReportSplitsByTenant(test, tenants, t, p);
    }
  }

  /** No pair is reported twice. */
  lemma {:induction false} ReportHasNoRepeats(test: Test, tenants: seq<Tenant>)
    requires WellKeyed(tenants)
    ensures NoDuplicates(FlatMap(tenants, TenantPart(test)))
  {
    if tenants != [] {
      var front, last := tenants[..|tenants| - 1], tenants[|tenants| - 1];
      assert tenants == front + [last] && last in tenants;
      ReportHasNoRepeats(test, front);
      NoPairTwice(test, last.id, last.rows);
      EntriesNameTheirTenant(test, last);
      forall p | p in FlatMap(front, TenantPart(test)) ensures p !in Listing(test, last.id, last.rows) {
        FlatMapMember(front, TenantPart(test), p);
        var u :| u in front && p in TenantPart(test)(u);
        EntriesNameTheirTenant(test, u);
      }
      AppendDistinct(FlatMap(front, TenantPart(test)), Listing(test, last.id, last.rows));
    }
  }
}
