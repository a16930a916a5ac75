/** `listBatches`: a SKU's batches joined with their on-hand rows, in FEFO order. Quantities in
    milli-units; an expiry is the instant its ISO date parses to. */
module BatchList {
  import opened Sequences

  /** A batch as the catalogue gives it. `facts` stands for the fields passed on unread. */
  datatype Batch = Batch(id: string, code: string, expiry: Option<int>, facts: string)

  datatype OnHandRow = OnHandRow(batchId: string, quantity: int)

  datatype Item = Item(batch: Batch, quantity: int)

  // ---- the comparator ----------------------------------------------------

  function CompareCodes(a: string, b: string): int {
    if LexLess(a, b) then -1 else if LexLess(b, a) then 1 else 0
  }

  /** Expiry ascending, no expiry last, the code breaking ties; branch by branch. */
  function Compare(a: Item, b: Item): int {
    var x, y := a.batch.expiry, b.batch.expiry;
    if x.None? && y.Some? then 1
    else if y.None? && x.Some? then -1
    else if x.Some? && y.Some? && x.value - y.value != 0 then x.value - y.value
    else CompareCodes(a.batch.code, b.batch.code)
  }

  predicate InOrder(a: Item, b: Item) { Compare(a, b) <= 0 }

  /** What FEFO means, said without the comparator. */
  ghost predicate ExpiresFirst(a: Item, b: Item) {
    match (a.batch.expiry, b.batch.expiry)
    case (Some(x), Some(y)) => x < y || (x == y && LexLess(a.batch.code, b.batch.code))
    case (Some(_), None) => true
    case (None, Some(_)) => false
    case (None, None) => LexLess(a.batch.code, b.batch.code)
  }

  lemma {:induction false} CompareIsFefo(a: Item, b: Item)
    ensures Compare(a, b) < 0 <==> ExpiresFirst(a, b)
    ensures Compare(a, b) > 0 <==> ExpiresFirst(b, a)
    ensures Compare(a, b) == 0 <==> a.batch.expiry == b.batch.expiry && a.batch.code == b.batch.code
  {
    LexTrichotomy(a.batch.code, b.batch.code);
    LexTrichotomy(a.batch.code, a.batch.code);
  }

  /** A strict weak order: irreflexive and transitive, with ties transitive too. */
  lemma {:induction false} FefoIsStrictWeakOrder(a: Item, b: Item, c: Item)
    ensures !ExpiresFirst(a, a)
    ensures ExpiresFirst(a, b) && ExpiresFirst(b, c) ==> ExpiresFirst(a, c)
    ensures Compare(a, b) == 0 && Compare(b, c) == 0 ==> Compare(a, c) == 0
  {
    LexTrichotomy(a.batch.code, a.batch.code);
    CompareIsFefo(a, b);
    CompareIsFefo(b, c);
    CompareIsFefo(a, c);
    if LexLess(a.batch.code, b.batch.code) && LexLess(b.batch.code, c.batch.code) {
      LexTransitive(a.batch.code, b.batch.code, c.batch.code);
    }
  }

  lemma {:induction false} InOrderIsTransitive(a: Item, b: Item, c: Item)
    requires InOrder(a, b) && InOrder(b, c)
    ensures InOrder(a, c)
  {
    CompareIsFefo(a, b);
    CompareIsFefo(b, c);
    CompareIsFefo(a, c);
    FefoIsStrictWeakOrder(a, b, c);
  }

  lemma {:induction false} ComparatorIsLawful()
    ensures TotalPreorder(InOrder)
  {
    forall a: Item, b: Item ensures InOrder(a, b) || InOrder(b, a) {
      CompareIsFefo(a, b);
      CompareIsFefo(b, a);
    }
    forall a: Item, b: Item, c: Item | InOrder(a, b) && InOrder(b, c) ensures InOrder(a, c) {
      InOrderIsTransitive(a, b, c);
    }
  }

  // ---- the join ----------------------------------------------------------

  function QuantityIn(id: string): OnHandRow -> int { (r: OnHandRow) => if r.batchId == id then r.quantity else 0 }

  /** The sum of a batch's on-hand rows: zero when it has none. */
  function OnHandOf(rows: seq<OnHandRow>, id: string): int { SumBy(rows, QuantityIn(id)) }

  function Joined(rows: seq<OnHandRow>): Batch -> Item { (b: Batch) => Item(b, OnHandOf(rows, b.id)) }

  /** The accumulation loop: one map entry for each batch with a row. */
  method Accumulate(rows: seq<OnHandRow>) returns (quantityByBatch: map<string, int>)
    ensures forall id :: (if id in quantityByBatch then quantityByBatch[id] else 0) == OnHandOf(rows, id)
  {
    quantityByBatch := map[];
    for i := 0 to |rows|
      invariant forall id :: (if id in quantityByBatch then quantityByBatch[id] else 0) == OnHandOf(rows[..i], id)
    {
      var row := rows[i];
      assert rows[..i + 1] == rows[..i] + [row];
      forall id ensures OnHandOf(rows[..i + 1], id) == OnHandOf(rows[..i], id) + QuantityIn(id)(row) {
        SumBySnoc(rows[..i], row, QuantityIn(id));
      }
      var before := if row.batchId in quantityByBatch then quantityByBatch[row.batchId] else 0;
      quantityByBatch := quantityByBatch[row.batchId := before + row.quantity];
    }
    assert rows[..|rows|] == rows;
  }

  /** The list: each batch once, with its whole on-hand, no item before one that expires first. */
  method ListBatches(batches: seq<Batch>, rows: seq<OnHandRow>) returns (items: seq<Item>)
    ensures multiset(items) == multiset(Map(batches, Joined(rows)))
    ensures Ordered(items, InOrder)
    ensures items == Listed(batches, rows)
  {
    var quantityByBatch := Accumulate(rows);
    var joined: seq<Item> := [];
    for i := 0 to |batches|
      invariant joined == Map(batches[..i], Joined(rows))
    {
      var b := batches[i];
      var quantity := if b.id in quantityByBatch then quantityByBatch[b.id] else 0;
      joined := joined + [Item(b, quantity)];
    }
    assert batches[..|batches|] == batches;
    ComparatorIsLawful();
    SortOrders(joined, InOrder);
    SortPermutes(joined, InOrder);
    items := Sort(joined, InOrder);
  }

  function Listed(batches: seq<Batch>, rows: seq<OnHandRow>): seq<Item> { Sort(Map(batches, Joined(rows)), InOrder) }

  /** No item stands before one that should be drawn first. */
  lemma {:induction false} ListIsFefo(batches: seq<Batch>, rows: seq<OnHandRow>, i: nat, j: nat)
    requires i < j < |Listed(batches, rows)|
    ensures !ExpiresFirst(Listed(batches, rows)[j], Listed(batches, rows)[i])
  {
    ComparatorIsLawful();
    SortOrders(Map(batches, Joined(rows)), InOrder);
    var items := Listed(batches, rows);
    assert InOrder(items[i], items[j]);
    CompareIsFefo(items[i], items[j]);
  }

  function OfBatch(id: string): OnHandRow -> bool { (r: OnHandRow) => r.batchId == id }

  function RowQuantity(): OnHandRow -> int { (r: OnHandRow) => r.quantity }

  /** Each item carries one of the batches, with the sum of that batch's rows and of no others. */
  lemma {:induction false} ItemsCarryTheirOnHand(batches: seq<Batch>, rows: seq<OnHandRow>, item: Item)
    ensures item in Listed(batches, rows) <==>
            item.batch in batches && item.quantity == SumBy(Filter(rows, OfBatch(item.batch.id)), RowQuantity())
  {
    var id := item.batch.id;
    SortPermutes(Map(batches, Joined(rows)), InOrder);
    SumByFilter(rows, OfBatch(id), RowQuantity(), QuantityIn(id));
    if item in Map(batches, Joined(rows)) {
      var i :| 0 <= i < |batches| && Map(batches, Joined(rows))[i] == item;
      assert batches[i] == item.batch;
    }
    if item.batch in batches && item.quantity == OnHandOf(rows, id) {
      var i :| 0 <= i < |batches| && batches[i] == item.batch;
      assert Map(batches, Joined(rows))[i] == item;
    }
  }

  // ---- conservation ------------------------------------------------------

  function ItemQuantity(item: Item): int { item.quantity }

  function OnHandFor(rows: seq<OnHandRow>): Batch -> int { (b: Batch) => OnHandOf(rows, b.id) }

  function QuantityIfListed(ids: set<string>): OnHandRow -> int {
    (r: OnHandRow) => if r.batchId in ids then r.quantity else 0
  }

  function BatchId(b: Batch): string { b.id }

  lemma {:induction false} JoinedSum(batches: seq<Batch>, rows: seq<OnHandRow>)
    ensures SumBy(Map(batches, Joined(rows)), ItemQuantity) == SumBy(batches, OnHandFor(rows))
  {
    if batches != [] {
      var front := batches[..|batches| - 1];
      JoinedSum(front, rows);
      assert Map(batches, Joined(rows))[..|batches| - 1] == Map(front, Joined(rows));
    }
  }

  lemma {:induction false} OneRowCounts(batches: seq<Batch>, rows: seq<OnHandRow>, row: OnHandRow)
    requires NoDuplicates(Map(batches, BatchId))
    ensures SumBy(batches, OnHandFor(rows + [row])) == SumBy(batches, OnHandFor(rows))
              + (if row.batchId in Map(batches, BatchId) then row.quantity else 0)
  {
    if batches != [] {
      var front, last := batches[..|batches| - 1], batches[|batches| - 1];
      assert Map(batches, BatchId) == Map(front, BatchId) + [last.id];
      assert last.id !in Map(front, BatchId) by {
        forall i | 0 <= i < |front| ensures Map(front, BatchId)[i] != last.id {
          assert Map(batches, BatchId)[i] != Map(batches, BatchId)[|front|];
        }
      }
      forall i, j | 0 <= i < j < |front| ensures Map(front, BatchId)[i] != Map(front, BatchId)[j] {
        assert Map(batches, BatchId)[i] != Map(batches, BatchId)[j];
      }
      OneRowCounts(front, rows, row);
      SumBySnoc(rows, row, QuantityIn(last.id));
    }
  }

  lemma {:induction false} ListedRowsSum(batches: seq<Batch>, rows: seq<OnHandRow>)
    requires NoDuplicates(Map(batches, BatchId))
    ensures SumBy(batches, OnHandFor(rows)) == SumBy(rows, QuantityIfListed(ToSet(Map(batches, BatchId))))
  {
    if rows == [] {
      SumByZero(batches, OnHandFor([]));
    } else {
      var front, last := rows[..|rows| - 1], rows[|rows| - 1];
      assert rows == front + [last];
      ListedRowsSum(batches, front);
      OneRowCounts(batches, front, last);
    }
  }

  /** The list's quantities add up to all the on-hand rows of the listed batches: none is
      lost, and none counted twice. */
  lemma {:induction false} ListConservesStock(batches: seq<Batch>, rows: seq<OnHandRow>)
    requires NoDuplicates(Map(batches, BatchId))
    ensures SumBy(Listed(batches, rows), ItemQuantity) == SumBy(rows, QuantityIfListed(ToSet(Map(batches, BatchId))))
  {
    SortPermutes(Map(batches, Joined(rows)), InOrder);
    SumByPermutation(Listed(batches, rows), Map(batches, Joined(rows)), ItemQuantity);
    JoinedSum(batches, rows);
    ListedRowsSum(batches, rows);
  }

  // ---- the list does not depend on the order the facades answer in --------

  lemma {:induction false} JoinIgnoresRowOrder(batches: seq<Batch>, rows: seq<OnHandRow>, rows': seq<OnHandRow>)
    requires multiset(rows) == multiset(rows')
    ensures Map(batches, Joined(rows)) == Map(batches, Joined(rows'))
  {
    forall i | 0 <= i < |batches| ensures Joined(rows)(batches[i]) == Joined(rows')(batches[i]) {
      SumByPermutation(rows, rows', QuantityIn(batches[i].id));
    }
  }

  lemma {:induction false} MapAround(x: seq<Batch>, v: Batch, y: seq<Batch>, f: Batch -> Item)
    ensures multiset(Map(x + [v] + y, f)) == multiset(Map(x + y, f)) + multiset{f(v)}
  {
    assert Map(x + [v] + y, f) == Map(x, f) + [f(v)] + Map(y, f);
    assert Map(x + y, f) == Map(x, f) + Map(y, f);
  }

  lemma {:induction false} MapPermutes(a: seq<Batch>, b: seq<Batch>, f: Batch -> Item)
    requires multiset(a) == multiset(b)
    ensures multiset(Map(a, f)) == multiset(Map(b, f))
  {
    SameBagSameMembers(a, b);
    if a != [] {
      var front, last := a[..|a| - 1], a[|a| - 1];
      assert a == front + [last] + [] && front + [] == front;
      assert last in a;
      var k :| 0 <= k < |b| && b[k] == last;
      var x, y := b[..k], b[k + 1..];
      assert b == x + [last] + y;
      BagAround(front, last, []);
      BagAround(x, last, y);
      CancelOne(multiset(front), multiset(x + y), last);
      MapPermutes(front, x + y, f);
      MapAround(front, last, [], f);
      MapAround(x, last, y, f);
    }
  }

  /** With one code per batch the list is determined by its contents: any order of the
      batches and of the rows gives the same list. The code really breaks the ties. */
  lemma {:induction false} ListIsOrderFree(
    batches: seq<Batch>, batches': seq<Batch>, rows: seq<OnHandRow>, rows': seq<OnHandRow>)
    requires multiset(batches) == multiset(batches') && multiset(rows) == multiset(rows')
    requires forall a, b :: a in batches && b in batches && a.code == b.code ==> a == b
    ensures Listed(batches, rows) == Listed(batches', rows')
  {
    JoinIgnoresRowOrder(batches', rows, rows');
    MapPermutes(batches, batches', Joined(rows));
    var joined, joined' := Map(batches, Joined(rows)), Map(batches', Joined(rows));
    ComparatorIsLawful();
    SortOrders(joined, InOrder);
    SortOrders(joined', InOrder);
    SortPermutes(joined, InOrder);
    SortPermutes(joined', InOrder);
    forall x, y | x in Sort(joined, InOrder) && y in Sort(joined, InOrder) && InOrder(x, y) && InOrder(y, x)
      ensures x == y
    {
      CompareIsFefo(x, y);
      CompareIsFefo(y, x);
      var i :| 0 <= i < |joined| && joined[i] == x;
      var j :| 0 <= j < |joined| && joined[j] == y;
      assert batches[i] in batches && batches[j] in batches;
    }
    OrderedIsUnique(Sort(joined, InOrder), Sort(joined', InOrder), InOrder);
  }
}
