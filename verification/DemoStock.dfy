/** The demo seed's stateful helpers: the first-fit bin allocator, the serial pool that
    picklists consume, and the per-SKU scan totals. Quantities are in milli-units. */
module DemoStock {
  import opened Sequences

  // ---- bins --------------------------------------------------------------

  datatype Kind = Chilled | Client | Ordinary

  /** The bin codes of the warehouse, each list in walk order. */
  datatype Warehouse = Warehouse(ambient: seq<string>, chilled: seq<string>)

  predicate IsZoneD(bin: string) { "D-" <= bin }

  predicate NotZoneD(bin: string) { !IsZoneD(bin) }

  function KindOf(code: string): Kind {
    if code == "PANEER-200G" || code == "CHEESE-WHEEL" then Chilled
    else if "GLOW-" <= code then Client
    else Ordinary
  }

  function Pool(wh: Warehouse, kind: Kind): seq<string> {
    match kind
    case Chilled => wh.chilled
    case Client => Filter(wh.ambient, IsZoneD)
    case Ordinary => Filter(wh.ambient, NotZoneD)
  }

  ghost function Bins(wh: Warehouse, kind: Kind): set<string> { ToSet(Pool(wh, kind)) }

  predicate IsFirstFree(b: string, pool: seq<string>, used: set<string>) {
    exists i :: 0 <= i < |pool| && pool[i] == b && b !in used && forall j :: 0 <= j < i ==> pool[j] in used
  }

  /** `pool.find((b) => !usedBins.has(b))`. */
  function FirstFree(pool: seq<string>, used: set<string>): (r: Option<string>)
    ensures r.None? <==> forall b :: b in pool ==> b in used
    ensures r.Some? ==> IsFirstFree(r.value, pool, used)
  {
    if pool == [] then None
    else if pool[0] !in used then Some(pool[0])
    else
      var r := FirstFree(pool[1..], used);
      assert pool == [pool[0]] + pool[1..];
      assert r.Some? ==> IsFirstFree(r.value, pool, used) by {
        if r.Some? {
          var i :| 0 <= i < |pool[1..]| && pool[1..][i] == r.value && forall j :: 0 <= j < i ==> pool[1..][j] in used;
          forall j | 0 <= j < i + 1 ensures pool[j] in used { if j > 0 { assert pool[1..][j - 1] in used; } }
          assert pool[i + 1] == r.value;
        }
      }
      r
  }

  /** Which bins a SKU may live in: the two dairy SKUs in chilled bins, client goods in zone D,
      everything else in ambient bins outside it. */
  predicate Suits(wh: Warehouse, code: string, bin: string) {
    if code == "PANEER-200G" || code == "CHEESE-WHEEL" then bin in wh.chilled
    else if |code| >= 5 && code[..5] == "GLOW-" then bin in wh.ambient && |bin| >= 2 && bin[..2] == "D-"
    else bin in wh.ambient && !(|bin| >= 2 && bin[..2] == "D-")
  }

  /** The bins looked through for a SKU, in walk order. */
  function Aisle(wh: Warehouse, code: string): seq<string> {
    if code in ["PANEER-200G", "CHEESE-WHEEL"] then wh.chilled else wh.ambient
  }

  /** `bin` is the first bin on the walk that suits the SKU and is free. */
  ghost predicate FirstToSuit(wh: Warehouse, code: string, used: set<string>, bin: string) {
    exists i :: 0 <= i < |Aisle(wh, code)| && Aisle(wh, code)[i] == bin
                && Suits(wh, code, bin) && bin !in used
                && forall j :: 0 <= j < i && Suits(wh, code, Aisle(wh, code)[j]) ==> Aisle(wh, code)[j] in used
  }

  lemma {:induction false} PoolSuits(wh: Warehouse, code: string, bin: string)
    ensures bin in Pool(wh, KindOf(code)) <==> Suits(wh, code, bin)
    ensures Suits(wh, code, bin) ==> bin in Aisle(wh, code)
  {
  }

  lemma {:induction false} FilteredFirst(aisle: seq<string>, p: string -> bool, used: set<string>, bin: string)
    requires IsFirstFree(bin, Filter(aisle, p), used)
    ensures exists i :: 0 <= i < |aisle| && aisle[i] == bin &&
              forall j :: 0 <= j < i && p(aisle[j]) ==> aisle[j] in used
  {
    var front, last := aisle[..|aisle| - 1], aisle[|aisle| - 1];
    FrontAndLast(aisle);
    var before := Filter(front, p);
    var k :| 0 <= k < |Filter(aisle, p)| && Filter(aisle, p)[k] == bin && bin !in used
             && forall j :: 0 <= j < k ==> Filter(aisle, p)[j] in used;
    if k < |before| {
      assert forall j :: 0 <= j <= k ==> before[j] == Filter(aisle, p)[j];
      FilteredFirst(front, p, used, bin);
      var i :| 0 <= i < |front| && front[i] == bin && forall j :: 0 <= j < i && p(front[j]) ==> front[j] in used;
      assert aisle[i] == bin && forall j :: 0 <= j < i ==> aisle[j] == front[j];
    } else {
      forall j | 0 <= j < |front| && p(aisle[j]) ensures aisle[j] in used {
        assert aisle[j] == front[j] && front[j] in front;
        assert aisle[j] in before;
        var m :| 0 <= m < |before| && before[m] == aisle[j];
        assert Filter(aisle, p)[m] == before[m];
      }
      assert aisle[|front|] == bin;
    }
  }

  lemma {:induction false} FirstInAmbient(
    wh: Warehouse, code: string, p: string -> bool, used: set<string>, bin: string)
    requires KindOf(code) != Chilled && IsFirstFree(bin, Filter(wh.ambient, p), used)
    requires forall b :: b in wh.ambient ==> (p(b) <==> Suits(wh, code, b))
    ensures FirstToSuit(wh, code, used, bin)
  {
    FilteredFirst(wh.ambient, p, used, bin);
    var aisle := Aisle(wh, code);
    assert aisle == wh.ambient && bin in Filter(wh.ambient, p);
    var i :| 0 <= i < |aisle| && aisle[i] == bin && forall j :: 0 <= j < i && p(aisle[j]) ==> aisle[j] in used;
    forall j | 0 <= j < i && Suits(wh, code, aisle[j]) ensures aisle[j] in used { assert aisle[j] in wh.ambient; }
  }

  /** A new home is the first bin on the walk that suits the SKU and is free; and a SKU is refused
      only when every bin that suits it is used. */
  lemma {:induction false} ChosenBin(wh: Warehouse, s: Placing, code: string)
    requires code !in s.homeBin
    ensures var r := Assigned(wh, s, code).1;
            match r
            case Some(bin) => FirstToSuit(wh, code, s.usedBins, bin)
            case None => forall bin :: Suits(wh, code, bin) ==> bin in s.usedBins
  {
    var pool, r := Pool(wh, KindOf(code)), FirstFree(Pool(wh, KindOf(code)), s.usedBins);
    forall bin ensures bin in pool <==> Suits(wh, code, bin) { PoolSuits(wh, code, bin); }
    if r.Some? {
      match KindOf(code)
      case Chilled =>
        assert Aisle(wh, code) == wh.chilled;
        var i :| 0 <= i < |wh.chilled| && wh.chilled[i] == r.value && r.value !in s.usedBins
                 && forall j :: 0 <= j < i ==> wh.chilled[j] in s.usedBins;
        assert Aisle(wh, code)[i] == r.value;
      case Client => FirstInAmbient(wh, code, IsZoneD, s.usedBins, r.value);
      case Ordinary => FirstInAmbient(wh, code, NotZoneD, s.usedBins, r.value);
    }
  }

  datatype Placing = Placing(homeBin: map<string, string>, usedBins: set<string>)

  const EMPTY := Placing(map[], {})

  function Assigned(wh: Warehouse, s: Placing, code: string): (Placing, Option<string>) {
    if code in s.homeBin then (s, Some(s.homeBin[code]))
    else match FirstFree(Pool(wh, KindOf(code)), s.usedBins)
      case None => (s, None)
      case Some(free) => (Placing(s.homeBin[code := free], s.usedBins + {free}), Some(free))
  }

  /** The used bins are the home bins, no two SKUs share one, and each suits its SKU. */
  ghost predicate Tidy(wh: Warehouse, s: Placing) {
    && s.usedBins == s.homeBin.Values
    && (forall a, b :: a in s.homeBin && b in s.homeBin && a != b ==> s.homeBin[a] != s.homeBin[b])
    && (forall a :: a in s.homeBin ==> s.homeBin[a] in Bins(wh, KindOf(a)))
  }

  class BinAllocator {
    const wh: Warehouse
    var homeBin: map<string, string>
    var usedBins: set<string>

    ghost function Now(): Placing reads this { Placing(homeBin, usedBins) }

    constructor (warehouse: Warehouse)
      ensures wh == warehouse && Now() == EMPTY && Tidy(wh, Now())
    {
      wh := warehouse;
      homeBin, usedBins := map[], {};
    }

    /** `assignBin`; None is the thrown "a free bin for ..." error. */
    method AssignBin(code: string) returns (r: Option<string>)
      requires Tidy(wh, Now())
      modifies this
      ensures Tidy(wh, Now())
      ensures (Now(), r) == Assigned(wh, old(Now()), code)
      ensures forall a :: a in old(homeBin) ==> a in homeBin && homeBin[a] == old(homeBin)[a]
      ensures r.Some? ==> code in homeBin && homeBin[code] == r.value && Suits(wh, code, r.value)
      ensures code !in old(homeBin) && r.Some? ==> FirstToSuit(wh, code, old(usedBins), r.value)
      ensures r.None? ==> forall bin :: Suits(wh, code, bin) ==> bin in usedBins
    {
      AssignedStaysTidy(wh, Now(), code);
      HomesSuit(wh, Now(), code);
      if code !in homeBin { ChosenBin(wh, Now(), code); }
      if code in homeBin { return Some(homeBin[code]); }
      var free := FirstFree(Pool(wh, KindOf(code)), usedBins);
      if free.Some? {
        usedBins := usedBins + {free.value};
        homeBin := homeBin[code := free.value];
      }
      r := free;
    }
  }

  lemma {:induction false} AssignedStaysTidy(wh: Warehouse, s: Placing, code: string)
    requires Tidy(wh, s)
    ensures Tidy(wh, Assigned(wh, s, code).0)
  {
    var t := Assigned(wh, s, code).0;
    if t != s {
      var free := t.homeBin[code];
      assert forall a :: a in s.homeBin ==> s.homeBin[a] in s.homeBin.Values;
      forall b ensures b in t.homeBin.Values <==> b in s.homeBin.Values || b == free {
        if b in s.homeBin.Values {
          var a :| a in s.homeBin && s.homeBin[a] == b;
          assert t.homeBin[a] == b;
        }
        if b == free { assert t.homeBin[code] == b; }
      }
    }
  }

  /** The allocator after a list of calls, failed ones included. */
  function After(wh: Warehouse, codes: seq<string>): Placing {
    if codes == [] then EMPTY else Assigned(wh, After(wh, codes[..|codes| - 1]), codes[|codes| - 1]).0
  }

  predicate Succeeds(wh: Warehouse, codes: seq<string>, k: nat)
    requires k < |codes|
  {
    Assigned(wh, After(wh, codes[..k]), codes[k]).1.Some?
  }

  lemma {:induction false} StaysTidy(wh: Warehouse, codes: seq<string>)
    ensures Tidy(wh, After(wh, codes))
    ensures After(wh, codes).homeBin.Keys <= ToSet(codes)
  {
    if codes != [] {
      StaysTidy(wh, codes[..|codes| - 1]);
      AssignedStaysTidy(wh, After(wh, codes[..|codes| - 1]), codes[|codes| - 1]);
      assert codes == codes[..|codes| - 1] + [codes[|codes| - 1]];
    }
  }

  /** In a tidy allocator every home suits its SKU. */
  lemma {:induction false} HomesSuit(wh: Warehouse, s: Placing, code: string)
    requires Tidy(wh, s)
    ensures code in s.homeBin ==> Suits(wh, code, s.homeBin[code])
  {
    if code in s.homeBin { PoolSuits(wh, code, s.homeBin[code]); }
  }

  /** Over any run every home suits its SKU. */
  lemma {:induction false} HomesAlwaysSuit(wh: Warehouse, codes: seq<string>, code: string)
    requires code in After(wh, codes).homeBin
    ensures Suits(wh, code, After(wh, codes).homeBin[code])
  {
    StaysTidy(wh, codes);
    HomesSuit(wh, After(wh, codes), code);
  }

  /** Once given, a home bin never changes. */
  lemma {:induction false} HomesAreForever(wh: Warehouse, codes: seq<string>, k: nat, code: string)
    requires k <= |codes| && code in After(wh, codes[..k]).homeBin
    ensures code in After(wh, codes).homeBin && After(wh, codes).homeBin[code] == After(wh, codes[..k]).homeBin[code]
  {
    if k == |codes| {
      assert codes[..k] == codes;
    } else {
      var front := codes[..|codes| - 1];
      assert front[..k] == codes[..k];
      HomesAreForever(wh, front, k, code);
    }
  }

  // ---- when the bins suffice ---------------------------------------------

  ghost function Wanted(codes: seq<string>, kind: Kind): set<string> { set c | c in codes && KindOf(c) == kind }

  ghost function Housed(s: Placing, kind: Kind): set<string> { set c | c in s.homeBin && KindOf(c) == kind }

  /** No bin is in two pools: every bin code of the warehouse is in one of its two lists. */
  ghost predicate DisjointPools(wh: Warehouse) {
    forall b :: !(b in wh.ambient && b in wh.chilled)
  }

  lemma {:induction false} InjectiveImage(m: map<string, string>, keys: set<string>)
    requires keys <= m.Keys
    requires forall a, b :: a in keys && b in keys && a != b ==> m[a] != m[b]
    ensures |set a | a in keys :: m[a]| == |keys|
  {
    var image := set a | a in keys :: m[a];
    if keys == {} {
      assert image == {};
    } else {
      assert (forall a :: a !in keys) ==> keys == {};
      var x :| x in keys;
      var rest := keys - {x};
      InjectiveImage(m, rest);
      assert image == (set a | a in rest :: m[a]) + {m[x]};
    }
  }

  /** The bins of one kind in use are as many as the SKUs of that kind housed. */
  lemma {:induction false} HousedCount(wh: Warehouse, s: Placing, kind: Kind)
    requires Tidy(wh, s) && DisjointPools(wh)
    ensures |Housed(s, kind)| == |s.usedBins * Bins(wh, kind)|
  {
    InjectiveImage(s.homeBin, Housed(s, kind));
    var image := set a | a in Housed(s, kind) :: s.homeBin[a];
    forall b ensures b in image <==> b in s.usedBins * Bins(wh, kind) {
      if b in s.usedBins * Bins(wh, kind) {
        var a :| a in s.homeBin && s.homeBin[a] == b;
        assert b in Bins(wh, KindOf(a)) && b in Bins(wh, kind);
      }
    }
    assert image == s.usedBins * Bins(wh, kind);
  }

  /** A refused code has filled its pool. */
  lemma {:induction false} RefusedMeansFull(wh: Warehouse, s: Placing, code: string)
    requires Tidy(wh, s) && DisjointPools(wh) && Assigned(wh, s, code).1.None?
    ensures code !in s.homeBin && |Housed(s, KindOf(code))| == |Bins(wh, KindOf(code))|
  {
    HousedCount(wh, s, KindOf(code));
    assert s.usedBins * Bins(wh, KindOf(code)) == Bins(wh, KindOf(code));
  }

  ghost predicate Fits(wh: Warehouse, codes: seq<string>) {
    forall kind :: |Wanted(codes, kind)| <= |Bins(wh, kind)|
  }

  lemma {:induction false} SubsetSize(a: set<string>, b: set<string>)
    requires a <= b
    ensures |a| <= |b|
  {
    assert b == a + (b - a);
  }

  lemma {:induction false} AllHoused(wh: Warehouse, codes: seq<string>)
    requires forall k :: 0 <= k < |codes| ==> Succeeds(wh, codes, k)
    ensures forall c :: c in codes ==> c in After(wh, codes).homeBin
  {
    forall c | c in codes ensures c in After(wh, codes).homeBin {
      var k :| 0 <= k < |codes| && codes[k] == c;
      assert Succeeds(wh, codes, k);
      assert codes[..k + 1][..k] == codes[..k];
      HomesAreForever(wh, codes, k + 1, c);
    }
  }

  /** Every call of a run is served if and only if, kind by kind, no more different SKUs are
      asked for than the kind has bins. First fit never wastes one. */
  lemma {:induction false} ServedExactlyWhenItFits(wh: Warehouse, codes: seq<string>)
    requires DisjointPools(wh)
    ensures (forall k :: 0 <= k < |codes| ==> Succeeds(wh, codes, k)) <==> Fits(wh, codes)
  {
    if forall k :: 0 <= k < |codes| ==> Succeeds(wh, codes, k) {
      AllHoused(wh, codes);
      StaysTidy(wh, codes);
      forall kind ensures |Wanted(codes, kind)| <= |Bins(wh, kind)| {
        HousedCount(wh, After(wh, codes), kind);
        SubsetSize(Wanted(codes, kind), Housed(After(wh, codes), kind));
        SubsetSize(After(wh, codes).usedBins * Bins(wh, kind), Bins(wh, kind));
      }
    }
    if Fits(wh, codes) {
      forall k | 0 <= k < |codes| ensures Succeeds(wh, codes, k) {
        if !Succeeds(wh, codes, k) { RefusalMeansTooMany(wh, codes, k); }
      }
    }
  }

  lemma {:induction false} RefusalMeansTooMany(wh: Warehouse, codes: seq<string>, k: nat)
    requires DisjointPools(wh) && k < |codes| && !Succeeds(wh, codes, k)
    ensures |Wanted(codes, KindOf(codes[k]))| > |Bins(wh, KindOf(codes[k]))|
  {
    var s, code := After(wh, codes[..k]), codes[k];
    StaysTidy(wh, codes[..k]);
    RefusedMeansFull(wh, s, code);
    var housed := Housed(s, KindOf(code));
    assert |housed + {code}| == |housed| + 1;
    SubsetSize(housed + {code}, Wanted(codes, KindOf(code)));
  }

  // ---- serials -----------------------------------------------------------

  datatype Line = Line(skuId: string, binId: Option<string>, qty: int)

  datatype Pick = Pick(line: Line, serials: Option<seq<string>>)

  predicate Skipped(line: Line) { line.binId.None? || line.qty <= 0 }

  /** How many serials `splice(0, qty)` takes: the whole units, as far as the pool goes. */
  function Taken(line: Line, pool: seq<string>): nat
    requires line.qty > 0
  {
    Min(line.qty / 1000, |pool|)
  }

  /** The picks of one picklist, and the pool it leaves. `serialSku` is the serial-tracked SKU. */
  function PickedFrom(serialSku: string, lines: seq<Line>, pool: seq<string>): (seq<Pick>, seq<string>) {
    if lines == [] then ([], pool)
    else
      var (picks, left) := PickedFrom(serialSku, lines[..|lines| - 1], pool);
      var line := lines[|lines| - 1];
      if Skipped(line) then (picks, left)
      else if line.skuId == serialSku then
        (picks + [Pick(line, Some(left[..Taken(line, left)]))], left[Taken(line, left)..])
      else (picks + [Pick(line, None)], left)
  }

  class SerialPool {
    const serialSku: string
    var serials: seq<string>

    constructor (sku: string, initial: seq<string>)
      ensures serialSku == sku && serials == initial
    {
      serialSku, serials := sku, initial;
    }

    /** `pickPicklist`: one pick per line that has a bin and a quantity. */
    method PickPicklist(lines: seq<Line>) returns (picks: seq<Pick>)
      modifies this
      ensures (picks, serials) == PickedFrom(serialSku, lines, old(serials))
    {
      picks := [];
      for i := 0 to |lines|
        invariant (picks, serials) == PickedFrom(serialSku, lines[..i], old(serials))
      {
        var line := lines[i];
        assert lines[..i + 1][..i] == lines[..i];
        if !Skipped(line) {
          var given: Option<seq<string>> := None;
          if line.skuId == serialSku {
            var n := Min(line.qty / 1000, |serials|);
            given := Some(serials[..n]);
            serials := serials[n..];
          }
          picks := picks + [Pick(line, given)];
        }
      }
      assert lines[..|lines|] == lines;
    }
  }

  function SerialsOf(): Pick -> seq<string> {
    (p: Pick) => if p.serials.Some? then p.serials.value else []
  }

  /** All serials handed out, in order. */
  function HandedOut(picks: seq<Pick>): seq<string> { FlatMap(picks, SerialsOf()) }

  function DemandOf(serialSku: string): Line -> int {
    (line: Line) => if !Skipped(line) && line.skuId == serialSku then line.qty / 1000 else 0
  }

  function Demand(serialSku: string, lines: seq<Line>): int { SumBy(lines, DemandOf(serialSku)) }

  ghost predicate ServedInFull(p: Pick) { p.serials.Some? ==> |p.serials.value| == p.line.qty / 1000 }

  lemma {:induction false} SerialPick(before: seq<Pick>, pool: seq<string>, line: Line, n: nat)
    requires n <= |pool|
    ensures HandedOut(before + [Pick(line, Some(pool[..n]))]) + pool[n..] == HandedOut(before) + pool
  {
    FlatMapSnoc(before, Pick(line, Some(pool[..n])), SerialsOf());
    Associate(HandedOut(before), pool[..n], pool[n..]);
    assert pool[..n] + pool[n..] == pool;
  }

  lemma {:induction false} PlainPick(before: seq<Pick>, line: Line)
    ensures HandedOut(before + [Pick(line, None)]) == HandedOut(before)
  {
    FlatMapSnoc(before, Pick(line, None), SerialsOf());
  }

  /** Handed out plus left is the original pool, in order. */
  lemma {:induction false} SerialsAreConserved(serialSku: string, lines: seq<Line>, pool: seq<string>)
    ensures var (picks, left) := PickedFrom(serialSku, lines, pool);
            HandedOut(picks) + left == pool
  {
    if lines != [] {
      var front, line := lines[..|lines| - 1], lines[|lines| - 1];
      var (before, left) := PickedFrom(serialSku, front, pool);
      SerialsAreConserved(serialSku, front, pool);
      if !Skipped(line) && line.skuId == serialSku {
        SerialPick(before, left, line, Taken(line, left));
      } else if !Skipped(line) {
        PlainPick(before, line);
      }
    }
  }

  function LineOf(p: Pick): Line { p.line }

  predicate HasBinAndQuantity(line: Line) { line.binId != None && line.qty > 0 }

  /** The lines picked are those with a bin and a quantity, in order and as they stand; serials go
      to the serial SKU's lines and no others. */
  lemma {:induction false} PicksAreTheServableLines(serialSku: string, lines: seq<Line>, pool: seq<string>)
    ensures Map(PickedFrom(serialSku, lines, pool).0, LineOf) == Filter(lines, HasBinAndQuantity)
    ensures forall p :: p in PickedFrom(serialSku, lines, pool).0 ==> (p.serials.Some? <==> p.line.skuId == serialSku)
  {
    if lines != [] {
      var front, line := lines[..|lines| - 1], lines[|lines| - 1];
      PicksAreTheServableLines(serialSku, front, pool);
      OnePickMore(serialSku, lines, pool);
    }
  }

  lemma {:induction false} OnePickMore(serialSku: string, lines: seq<Line>, pool: seq<string>)
    requires lines != []
    ensures var line := lines[|lines| - 1];
            var before := PickedFrom(serialSku, lines[..|lines| - 1], pool).0;
            var after := PickedFrom(serialSku, lines, pool).0;
            if HasBinAndQuantity(line) then
              && |after| == |before| + 1 && after[..|before|] == before && after[|before|].line == line
              && (after[|before|].serials.Some? <==> line.skuId == serialSku)
              && Map(after, LineOf) == Map(before, LineOf) + [line]
            else after == before
  {
  }

  lemma {:induction false} DemandIsNatural(serialSku: string, lines: seq<Line>)
    ensures Demand(serialSku, lines) >= 0
  {
    if lines != [] { DemandIsNatural(serialSku, lines[..|lines| - 1]); }
  }

  /** Each serial line gets exactly its whole units if and only if the pool covers them all;
      a pool that falls short is used up. */
  lemma {:induction false} FullExactlyWhenPoolCovers(serialSku: string, lines: seq<Line>, pool: seq<string>)
    ensures var (picks, left) := PickedFrom(serialSku, lines, pool);
            && (Demand(serialSku, lines) <= |pool| <==> forall p :: p in picks ==> ServedInFull(p))
            && |left| == Max(0, |pool| - Demand(serialSku, lines))
  {
    if lines != [] {
      var front, line := lines[..|lines| - 1], lines[|lines| - 1];
      var (before, left) := PickedFrom(serialSku, front, pool);
      FullExactlyWhenPoolCovers(serialSku, front, pool);
      DemandIsNatural(serialSku, front);
      var (picks, _) := PickedFrom(serialSku, lines, pool);
      if !Skipped(line) {
        var p := picks[|picks| - 1];
        assert picks == before + [p];
        assert (forall q :: q in picks ==> ServedInFull(q)) <==>
                ServedInFull(p) && forall q :: q in before ==> ServedInFull(q);
      }
    }
  }

  /** Picklist after picklist, from one shared pool. */
  function PickAll(serialSku: string, picklists: seq<seq<Line>>, pool: seq<string>): (seq<Pick>, seq<string>) {
    if picklists == [] then ([], pool)
    else
      var (before, left) := PickAll(serialSku, picklists[..|picklists| - 1], pool);
      var (picks, rest) := PickedFrom(serialSku, picklists[|picklists| - 1], left);
      (before + picks, rest)
  }

  /** Over any sequence of picklists the serials come off the pool in order. */
  lemma {:induction false} SerialsComeOffInOrder(serialSku: string, picklists: seq<seq<Line>>, pool: seq<string>)
    ensures var (picks, left) := PickAll(serialSku, picklists, pool);
            HandedOut(picks) + left == pool
  {
    if picklists != [] {
      var front, last := picklists[..|picklists| - 1], picklists[|picklists| - 1];
      var (before, left) := PickAll(serialSku, front, pool);
      var (picks, rest) := PickedFrom(serialSku, last, left);
      SerialsComeOffInOrder(serialSku, front, pool);
      SerialsAreConserved(serialSku, last, left);
      HandedOutAppend(before, picks);
      Associate(HandedOut(before), HandedOut(picks), rest);
    }
  }

  /** So from a pool without duplicates no serial is given twice. */
  lemma {:induction false} NoSerialTwice(serialSku: string, picklists: seq<seq<Line>>, pool: seq<string>)
    requires NoDuplicates(pool)
    ensures NoDuplicates(HandedOut(PickAll(serialSku, picklists, pool).0))
  {
    var (picks, left) := PickAll(serialSku, picklists, pool);
    SerialsComeOffInOrder(serialSku, picklists, pool);
    var given := HandedOut(picks);
    forall i, j | 0 <= i < j < |given| ensures given[i] != given[j] {
      assert (given + left)[i] == given[i] && (given + left)[j] == given[j];
    }
  }

  lemma {:induction false} HandedOutAppend(a: seq<Pick>, b: seq<Pick>)
    ensures HandedOut(a + b) == HandedOut(a) + HandedOut(b)
  {
    if b == [] {
      assert a + b == a;
    } else {
      assert (a + b)[..|a + b| - 1] == a + b[..|b| - 1];
      HandedOutAppend(a, b[..|b| - 1]);
    }
  }

  // ---- scan totals -------------------------------------------------------

  datatype Scan = Scan(skuId: string, qty: int)

  function SkuOf(line: Line): string { line.skuId }

  function QtyOn(skuId: string): Line -> int { (line: Line) => if line.skuId == skuId then line.qty else 0 }

  function Total(lines: seq<Line>, skuId: string): int { SumBy(lines, QtyOn(skuId)) }

  /** The Map of `scannedOf` after some lines: its keys in first-appearance order, and its entries. */
  ghost predicate Tallied(lines: seq<Line>, keys: seq<string>, bySku: map<string, int>) {
    && keys == Distinct(Map(lines, SkuOf))
    && (forall k :: k in bySku <==> k in keys)
    && (forall k :: k in bySku ==> bySku[k] == Total(lines, k))
  }

  function OfSku(skuId: string): Line -> bool { (line: Line) => line.skuId == skuId }

  /** A SKU's total is the sum over its own lines. */
  lemma {:induction false} TotalIsOfItsLines(lines: seq<Line>, skuId: string)
    ensures Total(lines, skuId) == SumBy(Filter(lines, OfSku(skuId)), LineQty)
  {
    SumByFilter(lines, OfSku(skuId), LineQty, QtyOn(skuId));
  }

  lemma {:induction false} NoLinesNoTotal(lines: seq<Line>, k: string)
    requires k !in Map(lines, SkuOf)
    ensures Total(lines, k) == 0
  {
    if lines != [] {
      var n := |lines| - 1;
      assert Map(lines, SkuOf)[n] == lines[n].skuId;
      forall x | x in Map(lines[..n], SkuOf) ensures x in Map(lines, SkuOf) {
        var i :| 0 <= i < n && Map(lines[..n], SkuOf)[i] == x;
        assert Map(lines, SkuOf)[i] == x;
      }
      NoLinesNoTotal(lines[..n], k);
    }
  }

  lemma {:induction false} KeysOneMore(lines: seq<Line>, line: Line)
    ensures var keys := Distinct(Map(lines, SkuOf));
            Distinct(Map(lines + [line], SkuOf)) == if line.skuId in keys then keys else keys + [line.skuId]
  {
    assert Map(lines + [line], SkuOf) == Map(lines, SkuOf) + [line.skuId];
    DistinctSnoc(Map(lines, SkuOf), line.skuId);
  }

  lemma {:induction false} TotalsOneMore(lines: seq<Line>, line: Line, bySku: map<string, int>, k: string)
    requires forall x :: x in bySku <==> x in Map(lines, SkuOf)
    requires forall x :: x in bySku ==> bySku[x] == Total(lines, x)
    requires k in bySku || k == line.skuId
    ensures var more := bySku[line.skuId := (if line.skuId in bySku then bySku[line.skuId] else 0) + line.qty];
            more[k] == Total(lines + [line], k)
  {
    SumBySnoc(lines, line, QtyOn(k));
    if line.skuId !in bySku { NoLinesNoTotal(lines, line.skuId); }
  }

  lemma {:induction false} TallyOneMore(lines: seq<Line>, line: Line, keys: seq<string>, bySku: map<string, int>)
    requires Tallied(lines, keys, bySku)
    ensures Tallied(lines + [line],
                    if line.skuId in bySku then keys else keys + [line.skuId],
                    bySku[line.skuId := (if line.skuId in bySku then bySku[line.skuId] else 0) + line.qty])
  {
    KeysOneMore(lines, line);
    forall k | k in bySku || k == line.skuId
      ensures var more := bySku[line.skuId := (if line.skuId in bySku then bySku[line.skuId] else 0) + line.qty];
              more[k] == Total(lines + [line], k)
    {
      TotalsOneMore(lines, line, bySku, k);
    }
  }

  /** `scannedOf`: the Map's keys stay in first-appearance order. */
  method ScannedOf(lines: seq<Line>) returns (scans: seq<Scan>)
    ensures Map(scans, ScanSku) == Distinct(Map(lines, SkuOf))
    ensures forall i :: 0 <= i < |scans| ==> scans[i].qty == Total(lines, scans[i].skuId)
  {
    var keys: seq<string> := [];
    var bySku: map<string, int> := map[];
    for i := 0 to |lines|
      invariant Tallied(lines[..i], keys, bySku)
    {
      var line := lines[i];
      TakeOneMore(lines, i);
      TallyOneMore(lines[..i], line, keys, bySku);
      if line.skuId !in bySku { keys := keys + [line.skuId]; }
      bySku := bySku[line.skuId := (if line.skuId in bySku then bySku[line.skuId] else 0) + line.qty];
    }
    assert lines[..|lines|] == lines;
    scans := Entries(lines, keys, bySku);
  }

  /** The Map's entries, in key order. */
  method Entries(ghost lines: seq<Line>, keys: seq<string>, bySku: map<string, int>) returns (scans: seq<Scan>)
    requires Tallied(lines, keys, bySku)
    ensures Map(scans, ScanSku) == keys
    ensures forall i :: 0 <= i < |scans| ==> scans[i].qty == Total(lines, scans[i].skuId)
  {
    scans := [];
    for i := 0 to |keys|
      invariant |scans| == i && forall j :: 0 <= j < i ==> scans[j] == Scan(keys[j], Total(lines, keys[j]))
    {
      scans := scans + [Scan(keys[i], bySku[keys[i]])];
    }
    assert Map(scans, ScanSku) == keys;
  }

  function ScanSku(scan: Scan): string { scan.skuId }

  function LineQty(line: Line): int { line.qty }

  function TotalOn(lines: seq<Line>): string -> int { (skuId: string) => Total(lines, skuId) }

  /** Nothing is lost in the totals: over all SKUs they add up to all the lines. */
  lemma {:induction false} TotalsAddUp(lines: seq<Line>, keys: seq<string>)
    requires NoDuplicates(keys) && forall line :: line in lines ==> line.skuId in keys
    ensures SumBy(keys, TotalOn(lines)) == SumBy(lines, LineQty)
  {
    if lines == [] {
      SumByZero(keys, TotalOn(lines));
    } else {
      var front, line := lines[..|lines| - 1], lines[|lines| - 1];
      assert lines == front + [line];
      TotalsAddUp(front, keys);
      OneKeyGrows(front, line, keys);
    }
  }

  lemma {:induction false} OneKeyGrows(front: seq<Line>, line: Line, keys: seq<string>)
    requires NoDuplicates(keys)
    ensures SumBy(keys, TotalOn(front + [line]))
         == SumBy(keys, TotalOn(front)) + (if line.skuId in keys then line.qty else 0)
  {
    if keys != [] {
      var k := keys[|keys| - 1];
      OneKeyGrows(front, line, keys[..|keys| - 1]);
      SumBySnoc(front, line, QtyOn(k));
      assert keys == keys[..|keys| - 1] + [k];
    }
  }

  function PickedOn(skuId: string): Pick -> int { (p: Pick) => if p.line.skuId == skuId then p.line.qty else 0 }

  function SkippedOn(skuId: string): Line -> int {
    (line: Line) => if Skipped(line) && line.skuId == skuId then line.qty else 0
  }

  /** The scan totals count every line, the picks only those with a bin and a quantity: SKU by
      SKU they differ by exactly the skipped lines. */
  lemma {:induction false} ScansAreNotPicks(serialSku: string, lines: seq<Line>, pool: seq<string>, skuId: string)
    ensures Total(lines, skuId)
         == SumBy(PickedFrom(serialSku, lines, pool).0, PickedOn(skuId)) + SumBy(lines, SkippedOn(skuId))
  {
    if lines != [] {
      var front, line := lines[..|lines| - 1], lines[|lines| - 1];
      ScansAreNotPicks(serialSku, front, pool, skuId);
      var before, after := PickedFrom(serialSku, front, pool).0, PickedFrom(serialSku, lines, pool).0;
      if !Skipped(line) {
        var p := after[|after| - 1];
        assert after == before + [p];
        SumBySnoc(before, p, PickedOn(skuId));
      }
    }
  }

  /** A line without a bin is scanned, and not picked. */
  lemma {:induction false} BinlessLineIsScanned(serialSku: string, skuId: string, pool: seq<string>)
    ensures var lines := [Line(skuId, None, 1000)];
            Total(lines, skuId) == 1000 && PickedFrom(serialSku, lines, pool).0 == []
  {
    var line := Line(skuId, None, 1000);
    assert [line][..0] == [] && [] + [line] == [line];
    SumBySnoc([], line, QtyOn(skuId));
    assert PickedFrom(serialSku, [], pool) == ([], pool);
  }
}
