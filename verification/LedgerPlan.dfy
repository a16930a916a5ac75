/** The overview load test's ledger seeding: a batched loop that gives SKUs whole five-event
    blocks (receive, receive, pick, pick, dispatch), oldest first. Quantities in milli-units,
    instants in ms; `n / events * span` is taken exactly. */
module LedgerPlan {
  import opened Sequences
  import opened Arithmetic

  datatype EventType = StockAdjusted | PickPicked | DispatchDispatched

  datatype LedgerEvent = LedgerEvent(kind: EventType, sku: nat, quantityDelta: int, at: int)

  datatype PickRow = PickRow(at: int, sku: nat)

  /** What the seeding run is given. `skuCount` SKUs are numbered from 0. */
  datatype Config = Config(events: nat, batch: nat, skuCount: nat, windowStart: int, spanMs: int)

  ghost predicate Usable(cfg: Config) { cfg.events > 0 && cfg.batch > 0 && cfg.skuCount > 0 }

  function InstantOf(cfg: Config, n: nat): int
    requires cfg.events > 0
  {
    cfg.windowStart + (n * cfg.spanMs) / cfg.events
  }

  /** A block of five events: receive, receive, pick, pick, dispatch. */
  const BLOCK: seq<(EventType, int)> :=
    [(StockAdjusted, 2000), (StockAdjusted, 2000), (PickPicked, -1000), (PickPicked, -1000), (DispatchDispatched, 0)]

  /** The `n`-th event of the plan: blocks go to the SKUs in turn. */
  function EventAt(cfg: Config, n: nat): LedgerEvent
    requires cfg.events > 0 && cfg.skuCount > 0
  {
    var sku, at := (n / 5) % cfg.skuCount, InstantOf(cfg, n);
    LedgerEvent(BLOCK[n % 5].0, sku, BLOCK[n % 5].1, at)
  }

  ghost function Plan(cfg: Config, count: nat): (plan: seq<LedgerEvent>)
    requires Usable(cfg)
    ensures |plan| == count
    ensures forall n :: 0 <= n < count ==> plan[n] == EventAt(cfg, n)
  {
    seq(count, n requires 0 <= n < count => EventAt(cfg, n))
  }

  function PickRowOf(): LedgerEvent -> seq<PickRow> {
    (e: LedgerEvent) => if e.kind == PickPicked then [PickRow(e.at, e.sku)] else []
  }

  lemma {:induction false} PlanSnoc(cfg: Config, n: nat)
    requires Usable(cfg)
    ensures Plan(cfg, n + 1) == Plan(cfg, n) + [EventAt(cfg, n)]
  {
  }

  /** The batched loop: whatever the batch size, every index from 0 to `events - 1` is
      appended once, in order, and each pick is noted once. */
  method SeedLedger(cfg: Config) returns (ledger: seq<LedgerEvent>, pickRows: seq<PickRow>)
    requires Usable(cfg)
    ensures ledger == Plan(cfg, cfg.events)
    ensures pickRows == FlatMap(ledger, PickRowOf())
  {
    ledger, pickRows := [], [];
    var appended := 0;
    while appended < cfg.events
      invariant 0 <= appended <= cfg.events
      invariant ledger == Plan(cfg, appended)
      invariant pickRows == FlatMap(ledger, PickRowOf())
    {
      var size := Min(cfg.batch, cfg.events - appended);
      var offset := appended;
      for i := 0 to size
        invariant ledger == Plan(cfg, offset + i)
        invariant pickRows == FlatMap(ledger, PickRowOf())
      {
        var event, note := MakeEvent(cfg, offset + i);
        FlatMapSnoc(ledger, event, PickRowOf());
        PlanSnoc(cfg, offset + i);
        ledger, pickRows := ledger + [event], pickRows + note;
      }
      appended := appended + size;
    }
  }

  /** The body of the inner loop: the event to append, and the pick row to note with it. */
  method MakeEvent(cfg: Config, n: nat) returns (event: LedgerEvent, note: seq<PickRow>)
    requires Usable(cfg)
    ensures event == EventAt(cfg, n) && note == PickRowOf()(event)
  {
    var at := InstantOf(cfg, n);
    var sku := (n / 5) % cfg.skuCount;
    var kind := n % 5; // 0, 1 receipt; 2, 3 pick; 4 dispatch
    note := [];
    if kind <= 1 {
      event := LedgerEvent(StockAdjusted, sku, 2000, at);
    } else if kind <= 3 {
      event := LedgerEvent(PickPicked, sku, -1000, at);
      note := [PickRow(at, sku)];
    } else {
      event := LedgerEvent(DispatchDispatched, sku, 0, at);
    }
  }

  // ---- no draw outruns its receipts --------------------------------------

  function DeltaOn(sku: nat): LedgerEvent -> int { (e: LedgerEvent) => if e.sku == sku then e.quantityDelta else 0 }

  /** A SKU's stock after a stretch of ledger. */
  function Stock(ledger: seq<LedgerEvent>, sku: nat): int { SumBy(ledger, DeltaOn(sku)) }

  /** How many of the first `blocks` blocks are `sku`'s, when every `skuCount`-th one is. */
  function BlocksOf(blocks: nat, skuCount: nat, sku: nat): nat
    requires skuCount > 0
  {
    blocks / skuCount + (if blocks % skuCount > sku then 1 else 0)
  }

  /** What the first `done` events of a block leave. */
  function PartOfBlock(done: nat): int {
    if done == 0 then 0 else if done == 1 then 2000 else if done == 2 then 4000 else if done == 3 then 3000 else 2000
  }

  /** The closed form: 2000 per complete block, and the part of the block in progress. */
  function ClosedForm(n: nat, skuCount: nat, sku: nat): int
    requires skuCount > 0
  {
    2000 * BlocksOf(n / 5, skuCount, sku) + (if (n / 5) % skuCount == sku then PartOfBlock(n % 5) else 0)
  }

  lemma {:induction false} NextBlock(b: nat, s: nat)
    requires s > 0
    ensures (b + 1) % s == (if b % s + 1 == s then 0 else b % s + 1)
    ensures (b + 1) / s == (if b % s + 1 == s then b / s + 1 else b / s)
  {
    var q, r := b / s, b % s;
    assert b + 1 == q * s + (r + 1);
    if r + 1 == s {
      assert b + 1 == (q + 1) * s + 0;
      DivModIs(b + 1, s, q + 1, 0);
    } else {
      DivModIs(b + 1, s, q, r + 1);
    }
  }

  lemma {:induction false} NextBlockCount(b: nat, s: nat, sku: nat)
    requires s > 0 && sku < s
    ensures BlocksOf(b + 1, s, sku) == BlocksOf(b, s, sku) + (if b % s == sku then 1 else 0)
  {
    NextBlock(b, s);
  }

  lemma {:induction false} ClosedFormStep(cfg: Config, n: nat, sku: nat)
    requires Usable(cfg) && sku < cfg.skuCount
    ensures ClosedForm(n + 1, cfg.skuCount, sku) == ClosedForm(n, cfg.skuCount, sku) + DeltaOn(sku)(EventAt(cfg, n))
  {
    var b := n / 5;
    if n % 5 == 4 {
      assert (n + 1) / 5 == b + 1 && (n + 1) % 5 == 0;
      NextBlockCount(b, cfg.skuCount, sku);
    } else {
      assert (n + 1) / 5 == b && (n + 1) % 5 == n % 5 + 1;
    }
  }

  /** After any number of events each SKU's stock is the closed form, so it is never negative. */
  lemma {:induction false} StockIsClosedForm(cfg: Config, n: nat, sku: nat)
    requires Usable(cfg) && sku < cfg.skuCount
    ensures Stock(Plan(cfg, n), sku) == ClosedForm(n, cfg.skuCount, sku) >= 0
  {
    if n > 0 {
      StockIsClosedForm(cfg, n - 1, sku);
      PlanSnoc(cfg, n - 1);
      SumBySnoc(Plan(cfg, n - 1), EventAt(cfg, n - 1), DeltaOn(sku));
      ClosedFormStep(cfg, n - 1, sku);
    } else {
      assert 0 / cfg.skuCount == 0 && 0 % cfg.skuCount == 0 by { DivModIs(0, cfg.skuCount, 0, 0); }
    }
  }

  /** Every draw finds at least its own quantity on hand: it never outruns its receipts. */
  lemma {:induction false} DrawsAreCovered(cfg: Config, n: nat)
    requires Usable(cfg)
    ensures EventAt(cfg, n).sku < cfg.skuCount
    ensures Stock(Plan(cfg, n), EventAt(cfg, n).sku) + EventAt(cfg, n).quantityDelta
         >= 2000 * BlocksOf(n / 5, cfg.skuCount, EventAt(cfg, n).sku)
  {
    StockIsClosedForm(cfg, n, (n / 5) % cfg.skuCount);
  }

  /** The total over all SKUs: each event's quantity lands on exactly one of them. */
  ghost function TotalStock(cfg: Config, n: nat, skus: nat): int
    requires Usable(cfg)
  {
    if skus == 0 then 0 else TotalStock(cfg, n, skus - 1) + Stock(Plan(cfg, n), skus - 1)
  }

  lemma {:induction false} OneSkuMoves(cfg: Config, n: nat, skus: nat)
    requires Usable(cfg)
    ensures TotalStock(cfg, n + 1, skus) == TotalStock(cfg, n, skus)
              + (if EventAt(cfg, n).sku < skus then EventAt(cfg, n).quantityDelta else 0)
  {
    if skus > 0 {
      OneSkuMoves(cfg, n, skus - 1);
      PlanSnoc(cfg, n);
      SumBySnoc(Plan(cfg, n), EventAt(cfg, n), DeltaOn(skus - 1));
    }
  }

  /** The stock of all SKUs together is 2000 per complete block plus the part in progress. */
  lemma {:induction false} WholeStock(cfg: Config, n: nat)
    requires Usable(cfg)
    ensures TotalStock(cfg, n, cfg.skuCount) == 2000 * (n / 5) + PartOfBlock(n % 5)
  {
    if n == 0 {
      NothingYet(cfg, cfg.skuCount);
    } else {
      WholeStock(cfg, n - 1);
      OneSkuMoves(cfg, n - 1, cfg.skuCount);
      OneMoreEvent(cfg, n - 1);
    }
  }

  lemma {:induction false} OneMoreEvent(cfg: Config, n: nat)
    requires Usable(cfg)
    ensures EventAt(cfg, n).sku < cfg.skuCount
    ensures 2000 * ((n + 1) / 5) + PartOfBlock((n + 1) % 5)
         == 2000 * (n / 5) + PartOfBlock(n % 5) + EventAt(cfg, n).quantityDelta
  {
    assert n % 5 == 4 ==> (n + 1) / 5 == n / 5 + 1 && (n + 1) % 5 == 0;
    assert n % 5 != 4 ==> (n + 1) / 5 == n / 5 && (n + 1) % 5 == n % 5 + 1;
  }

  lemma {:induction false} NothingYet(cfg: Config, skus: nat)
    requires Usable(cfg)
    ensures TotalStock(cfg, 0, skus) == 0
  {
    if skus > 0 { NothingYet(cfg, skus - 1); }
  }

  /** What an event is follows from what it does to the stock: receipts add, picks draw,
      dispatches change nothing. */
  lemma {:induction false} KindsFollowTheStock(cfg: Config, n: nat)
    requires Usable(cfg)
    ensures var e := EventAt(cfg, n);
            && (e.quantityDelta > 0 <==> e.kind == StockAdjusted) && (e.quantityDelta < 0 <==> e.kind == PickPicked)
            && (e.quantityDelta == 0 <==> e.kind == DispatchDispatched)
  {
  }

  function DrawOf(sku: nat): LedgerEvent -> int {
    (e: LedgerEvent) => if e.sku == sku && e.quantityDelta < 0 then -e.quantityDelta else 0
  }

  function NotedFor(sku: nat): PickRow -> int { (r: PickRow) => if r.sku == sku then 1 else 0 }

  /** The pick rows are the draws, one row of a thousand each. */
  lemma {:induction false} PickRowsAreTheDraws(cfg: Config, n: nat, sku: nat)
    requires Usable(cfg)
    ensures 1000 * SumBy(FlatMap(Plan(cfg, n), PickRowOf()), NotedFor(sku)) == SumBy(Plan(cfg, n), DrawOf(sku))
  {
    if n > 0 {
      var front, e := Plan(cfg, n - 1), EventAt(cfg, n - 1);
      PickRowsAreTheDraws(cfg, n - 1, sku);
      PlanSnoc(cfg, n - 1);
      FlatMapSnoc(front, e, PickRowOf());
      SumBySnoc(front, e, DrawOf(sku));
      SumByAppend(FlatMap(front, PickRowOf()), PickRowOf()(e), NotedFor(sku));
      OneDraw(cfg, n - 1, sku);
    }
  }

  lemma {:induction false} OneDraw(cfg: Config, n: nat, sku: nat)
    requires Usable(cfg)
    ensures 1000 * SumBy(PickRowOf()(EventAt(cfg, n)), NotedFor(sku)) == DrawOf(sku)(EventAt(cfg, n))
  {
    var e := EventAt(cfg, n);
    assert [PickRow(e.at, e.sku)][..0] == [];
  }

  /** And each carries the SKU and the instant of its draw. */
  lemma {:induction false} PickRowsCarryTheirDraw(cfg: Config, n: nat, r: PickRow)
    requires Usable(cfg)
    ensures r in FlatMap(Plan(cfg, n), PickRowOf()) <==>
            exists k :: 0 <= k < n && EventAt(cfg, k).quantityDelta < 0
                        && EventAt(cfg, k).sku == r.sku && EventAt(cfg, k).at == r.at
  {
    FlatMapMember(Plan(cfg, n), PickRowOf(), r);
    if e :| e in Plan(cfg, n) && r in PickRowOf()(e) {
      var k :| 0 <= k < n && Plan(cfg, n)[k] == e;
      assert EventAt(cfg, k) == e;
    }
    forall k | 0 <= k < n && EventAt(cfg, k).quantityDelta < 0
               && EventAt(cfg, k).sku == r.sku && EventAt(cfg, k).at == r.at
      ensures r in FlatMap(Plan(cfg, n), PickRowOf())
    {
      assert Plan(cfg, n)[k] in Plan(cfg, n) && r in PickRowOf()(Plan(cfg, n)[k]);
    }
  }

  /** Five events in a row, from a multiple of five on, go to one SKU: receive, receive, pick, pick,
      dispatch; the next five go to the next SKU, and after the last to the first. */
  lemma {:induction false} BlocksOfFive(cfg: Config, b: nat, k: nat)
    requires Usable(cfg) && k < 5
    ensures var e := EventAt(cfg, 5 * b + k);
            && e.sku == b % cfg.skuCount
            && (e.kind == StockAdjusted <==> k < 2) && (e.kind == PickPicked <==> 2 <= k < 4)
            && (e.kind == DispatchDispatched <==> k == 4)
  {
    DivModIs(5 * b + k, 5, b, k);
  }

  // ---- the instants ------------------------------------------------------

  /** The instants never step back if and only if the span is not negative (or there is
      at most one event to place). */
  lemma {:induction false} OldestFirst(cfg: Config)
    requires Usable(cfg)
    ensures (forall m, n :: 0 <= m <= n < cfg.events ==> InstantOf(cfg, m) <= InstantOf(cfg, n))
            <==> cfg.spanMs >= 0 || cfg.events == 1
  {
    if cfg.spanMs >= 0 {
      forall m, n | 0 <= m <= n < cfg.events ensures InstantOf(cfg, m) <= InstantOf(cfg, n) {
        assert (n - m) * cfg.spanMs >= 0;
        QuotientRises(m * cfg.spanMs, n * cfg.spanMs, cfg.events);
      }
    } else if cfg.events > 1 {
      NegativeSpanStepsBack(cfg);
    }
  }

  lemma {:induction false} NegativeSpanStepsBack(cfg: Config)
    requires Usable(cfg) && cfg.spanMs < 0
    ensures InstantOf(cfg, 1) < InstantOf(cfg, 0)
  {
    var q := cfg.spanMs / cfg.events;
    assert cfg.spanMs == q * cfg.events + cfg.spanMs % cfg.events;
    assert q >= 0 ==> q * cfg.events >= 0;
    assert 1 * cfg.spanMs == cfg.spanMs;
    DivModIs(0, cfg.events, 0, 0);
  }

  /** The instant is the exact fraction of the span, rounded down to a whole millisecond. */
  lemma {:induction false} InstantIsTheFloor(cfg: Config, n: nat)
    requires Usable(cfg)
    ensures var past := InstantOf(cfg, n) - cfg.windowStart;
            past * cfg.events <= n * cfg.spanMs < past * cfg.events + cfg.events
  {
    var x := n * cfg.spanMs;
    assert x == (x / cfg.events) * cfg.events + x % cfg.events;
  }

  /** With a span that is not negative every instant lies in the window; its end is excluded
      unless the span is zero. */
  lemma {:induction false} InsideTheWindow(cfg: Config, n: nat)
    requires Usable(cfg) && cfg.spanMs >= 0 && n < cfg.events
    ensures cfg.windowStart <= InstantOf(cfg, n) <= cfg.windowStart + cfg.spanMs
    ensures cfg.spanMs > 0 ==> InstantOf(cfg, n) < cfg.windowStart + cfg.spanMs
  {
    if cfg.spanMs == 0 {
      DivModIs(0, cfg.events, 0, 0);
      return;
    }
    ProductBelow(n, cfg.events, cfg.spanMs);
    QuotientBelow(n * cfg.spanMs, cfg.events, cfg.spanMs);
  }
}
