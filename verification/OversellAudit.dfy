/** Part (c) of the load harness's `verify`: from the rows left in the database at the end,
    re-derive at every grant instant what was held and what was on hand.

    Stamps are whole milliseconds, as `Date.parse` leaves them, so several steps may share one. */
module OversellAudit {
  import opened Sequences

  datatype DeltaRow = DeltaRow(warehouse: string, sku: string, delta: int, at: int)

  /** Where a reservation stands: still held (or committed), released, or expired by the reaper. */
  datatype Hold = Held | Released | Expired

  datatype GrantRow = GrantRow(
    warehouse: string, sku: string, quantity: int, state: Hold, createdAt: int, updatedAt: int)

  datatype Violation = Violation(scope: string, active: int, at: int, onHand: int)

  // ---- scopes ------------------------------------------------------------

  predicate SlashFree(s: string) { '/' !in s }

  function ScopeKey(warehouse: string, sku: string): string { warehouse + "/" + sku }

  /** `s.split('/')[0]`. */
  function UpToSlash(s: string): string {
    if s == [] || s[0] == '/' then [] else [s[0]] + UpToSlash(s[1..])
  }

  /** What follows the first slash. */
  function AfterSlash(s: string): string {
    if s == [] then [] else if s[0] == '/' then s[1..] else AfterSlash(s[1..])
  }

  function WarehousePart(scope: string): string { UpToSlash(scope) }

  function SkuPart(scope: string): string { UpToSlash(AfterSlash(scope)) }

  lemma {:induction false} SplitAtSlash(w: string, rest: string)
    requires SlashFree(w)
    ensures UpToSlash(w + "/" + rest) == w && AfterSlash(w + "/" + rest) == rest
  {
    var whole := w + "/" + rest;
    if w == [] {
      assert whole[0] == '/' && whole[1..] == rest;
    } else {
      assert whole[0] == w[0] && whole[1..] == w[1..] + "/" + rest;
      SplitAtSlash(w[1..], rest);
      assert w == [w[0]] + w[1..];
    }
  }

  lemma {:induction false} NoSlash(s: string)
    requires SlashFree(s)
    ensures UpToSlash(s) == s
  {
    if s != [] {
      NoSlash(s[1..]);
      assert s == [s[0]] + s[1..];
    }
  }

  /** Splitting the key gives the two ids back, so keys never confuse two scopes. */
  lemma {:induction false} ScopeKeySplits(warehouse: string, sku: string)
    requires SlashFree(warehouse) && SlashFree(sku)
    ensures WarehousePart(ScopeKey(warehouse, sku)) == warehouse && SkuPart(ScopeKey(warehouse, sku)) == sku
  {
    SplitAtSlash(warehouse, sku);
    NoSlash(sku);
  }

  // ---- the two figures ---------------------------------------------------

  function DeltaUpTo(at: int): DeltaRow -> int { (d: DeltaRow) => if d.at <= at then d.delta else 0 }

  function HeldAt(at: int): GrantRow -> int {
    (g: GrantRow) => if g.createdAt <= at && (g.state != Released || g.updatedAt > at) then g.quantity else 0
  }

  function DeltaIn(warehouse: string, sku: string): DeltaRow -> bool {
    (d: DeltaRow) => d.warehouse == warehouse && d.sku == sku
  }

  function GrantIn(warehouse: string, sku: string): GrantRow -> bool {
    (g: GrantRow) => g.warehouse == warehouse && g.sku == sku
  }

  /** The simple definitions: sums over ALL of the scope's rows. */
  function OnHand(deltas: seq<DeltaRow>, warehouse: string, sku: string, at: int): int {
    SumBy(Filter(deltas, DeltaIn(warehouse, sku)), DeltaUpTo(at))
  }

  function Active(grants: seq<GrantRow>, warehouse: string, sku: string, at: int): int {
    SumBy(Filter(grants, GrantIn(warehouse, sku)), HeldAt(at))
  }

  predicate EarlierDelta(a: DeltaRow, b: DeltaRow) { a.at <= b.at }

  /** The early-exit sweep over the sorted deltas. */
  method SweepOnHand(sorted: seq<DeltaRow>, at: int) returns (onHand: int)
    requires Ordered(sorted, EarlierDelta)
    ensures onHand == SumBy(sorted, DeltaUpTo(at))
  {
    onHand := 0;
    var i := 0;
    while i < |sorted|
      invariant 0 <= i <= |sorted|
      invariant onHand == SumBy(sorted[..i], DeltaUpTo(at))
    {
      if sorted[i].at > at {
        SumByZero(sorted[i..], DeltaUpTo(at));
        SumByAppend(sorted[..i], sorted[i..], DeltaUpTo(at));
        assert sorted == sorted[..i] + sorted[i..];
        return;
      }
      assert sorted[..i + 1] == sorted[..i] + [sorted[i]];
      SumBySnoc(sorted[..i], sorted[i], DeltaUpTo(at));
      onHand := onHand + sorted[i].delta;
      i := i + 1;
    }
    assert sorted[..i] == sorted;
  }

  // ---- the report --------------------------------------------------------

  /** What the report says of one grant: a violation when its scope was over-held at its instant. */
  function Judged(deltas: seq<DeltaRow>, grants: seq<GrantRow>, g: GrantRow): seq<Violation> {
    var active := Active(grants, g.warehouse, g.sku, g.createdAt);
    var onHand := OnHand(deltas, g.warehouse, g.sku, g.createdAt);
    if active > onHand then [Violation(ScopeKey(g.warehouse, g.sku), active, g.createdAt, onHand)] else []
  }

  function Judge(deltas: seq<DeltaRow>, grants: seq<GrantRow>): GrantRow -> seq<Violation> {
    (g: GrantRow) => Judged(deltas, grants, g)
  }

  function DeltaKey(d: DeltaRow): string { ScopeKey(d.warehouse, d.sku) }

  function GrantKey(g: GrantRow): string { ScopeKey(g.warehouse, g.sku) }

  ghost predicate Clean(deltas: seq<DeltaRow>, grants: seq<GrantRow>) {
    && (forall d :: d in deltas ==> SlashFree(d.warehouse) && SlashFree(d.sku))
    && (forall g :: g in grants ==> SlashFree(g.warehouse) && SlashFree(g.sku))
  }

  /** A well-formed scope: the key of two slash-free ids. */
  ghost predicate IsScope(scope: string) {
    && SlashFree(WarehousePart(scope)) && SlashFree(SkuPart(scope))
    && scope == ScopeKey(WarehousePart(scope), SkuPart(scope))
  }

  /** The scope loop of `verify`. Every grant is judged exactly once, against exactly the rows
      of its own scope. */
  method Verify(deltas: seq<DeltaRow>, grants: seq<GrantRow>) returns (violations: seq<Violation>)
    requires Clean(deltas, grants)
    ensures multiset(violations) == multiset(FlatMap(grants, Judge(deltas, grants)))
  {
    var scopes := Distinct(Map(deltas, DeltaKey) + Map(grants, GrantKey));
    ScopesCover(deltas, grants, scopes);
    violations := [];
    for k := 0 to |scopes|
      invariant multiset(violations) == Gather(scopes[..k], grants, GrantKey, BagOf(Judge(deltas, grants)))
    {
      var found := VerifyScope(deltas, grants, scopes[k]);
      GatherPrefix(scopes, k, grants, GrantKey, BagOf(Judge(deltas, grants)));
      violations := violations + found;
    }
    assert scopes[..|scopes|] == scopes;
    FlatMapIsAdditive(Judge(deltas, grants));
    GroupsPartition(scopes, grants, GrantKey, BagOf(Judge(deltas, grants)), OneOf(Judge(deltas, grants)));
  }

  /** One scope: the grant loop, with the two sums inside it. */
  method VerifyScope(deltas: seq<DeltaRow>, grants: seq<GrantRow>, scope: string) returns (violations: seq<Violation>)
    requires Clean(deltas, grants) && IsScope(scope)
    ensures violations == FlatMap(Filter(grants, WithKey(GrantKey, scope)), Judge(deltas, grants))
  {
    var warehouse, sku := WarehousePart(scope), SkuPart(scope);
    var scopeDeltas := Sort(Filter(deltas, DeltaIn(warehouse, sku)), EarlierDelta);
    var scopeGrants := Filter(grants, GrantIn(warehouse, sku));
    SortOrders(Filter(deltas, DeltaIn(warehouse, sku)), EarlierDelta);
    SortPermutes(Filter(deltas, DeltaIn(warehouse, sku)), EarlierDelta);
    GroupOfScope(grants, scope);
    violations := JudgeScope(deltas, grants, scope, scopeDeltas, scopeGrants);
  }

  /** The grant loop of one scope. */
  method JudgeScope(ghost deltas: seq<DeltaRow>, ghost grants: seq<GrantRow>, scope: string,
                    scopeDeltas: seq<DeltaRow>, scopeGrants: seq<GrantRow>)
    returns (violations: seq<Violation>)
    requires IsScope(scope) && Ordered(scopeDeltas, EarlierDelta)
    requires multiset(scopeDeltas) == multiset(Filter(deltas, DeltaIn(WarehousePart(scope), SkuPart(scope))))
    requires scopeGrants == Filter(grants, GrantIn(WarehousePart(scope), SkuPart(scope)))
    ensures violations == FlatMap(scopeGrants, Judge(deltas, grants))
  {
    violations := [];
    for i := 0 to |scopeGrants|
      invariant violations == FlatMap(scopeGrants[..i], Judge(deltas, grants))
    {
      var found := JudgeGrant(deltas, grants, scope, scopeDeltas, scopeGrants, scopeGrants[i]);
      FlatMapTake(scopeGrants, i, Judge(deltas, grants));
      violations := violations + found;
    }
    assert scopeGrants[..|scopeGrants|] == scopeGrants;
  }

  /** The body of the grant loop: the two sums and the comparison. */
  method JudgeGrant(ghost deltas: seq<DeltaRow>, ghost grants: seq<GrantRow>, scope: string,
                    scopeDeltas: seq<DeltaRow>, scopeGrants: seq<GrantRow>, g: GrantRow)
    returns (found: seq<Violation>)
    requires IsScope(scope) && g in scopeGrants && Ordered(scopeDeltas, EarlierDelta)
    requires multiset(scopeDeltas) == multiset(Filter(deltas, DeltaIn(WarehousePart(scope), SkuPart(scope))))
    requires scopeGrants == Filter(grants, GrantIn(WarehousePart(scope), SkuPart(scope)))
    ensures found == Judged(deltas, grants, g)
  {
    assert g.warehouse == WarehousePart(scope) && g.sku == SkuPart(scope) by {
      assert GrantIn(WarehousePart(scope), SkuPart(scope))(g);
    }
    SumByPermutation(scopeDeltas, Filter(deltas, DeltaIn(g.warehouse, g.sku)), DeltaUpTo(g.createdAt));
    var onHand := SweepOnHand(scopeDeltas, g.createdAt);
    var active := SumHeld(scopeGrants, g.createdAt);
    found := if active > onHand then [Violation(scope, active, g.createdAt, onHand)] else [];
  }

  method SumHeld(rows: seq<GrantRow>, at: int) returns (active: int)
    ensures active == SumBy(rows, HeldAt(at))
  {
    active := 0;
    for i := 0 to |rows|
      invariant active == SumBy(rows[..i], HeldAt(at))
    {
      var other := rows[i];
      if other.createdAt <= at && (other.state != Released || other.updatedAt > at) {
        active := active + other.quantity;
      }
      assert rows[..i + 1][..i] == rows[..i];
    }
    assert rows[..|rows|] == rows;
  }

  lemma {:induction false} ScopesCover(deltas: seq<DeltaRow>, grants: seq<GrantRow>, scopes: seq<string>)
    requires Clean(deltas, grants) && scopes == Distinct(Map(deltas, DeltaKey) + Map(grants, GrantKey))
    ensures forall scope :: scope in scopes ==> IsScope(scope)
    ensures forall g :: g in grants ==> GrantKey(g) in scopes
  {
    var ds, gs := Map(deltas, DeltaKey), Map(grants, GrantKey);
    forall scope | scope in scopes ensures IsScope(scope) {
      assert scope in ds + gs;
      if scope in ds {
        var i :| 0 <= i < |ds| && ds[i] == scope;
        ScopeKeySplits(deltas[i].warehouse, deltas[i].sku);
      } else {
        var i :| 0 <= i < |gs| && gs[i] == scope;
        ScopeKeySplits(grants[i].warehouse, grants[i].sku);
      }
    }
    forall g | g in grants ensures GrantKey(g) in scopes {
      var i :| 0 <= i < |grants| && grants[i] == g;
      assert gs[i] in ds + gs;
    }
  }

  /** Filtering by the split ids picks the rows that carry the key. */
  lemma {:induction false} GroupOfScope(grants: seq<GrantRow>, scope: string)
    requires (forall g :: g in grants ==> SlashFree(g.warehouse) && SlashFree(g.sku)) && IsScope(scope)
    ensures Filter(grants, GrantIn(WarehousePart(scope), SkuPart(scope))) == Filter(grants, WithKey(GrantKey, scope))
  {
    if grants != [] {
      GroupOfScope(grants[..|grants| - 1], scope);
      var g := grants[|grants| - 1];
      ScopeKeySplits(g.warehouse, g.sku);
      assert GrantIn(WarehousePart(scope), SkuPart(scope))(g) <==> WithKey(GrantKey, scope)(g);
    }
  }

  // ---- the history behind the rows ---------------------------------------

  /** One committed change of the database. A release or an expiry names a row of the
      reservations table. */
  datatype Change =
    | Adjust(warehouse: string, sku: string, delta: int)
    | Grant(warehouse: string, sku: string, quantity: int)
    | Release(row: nat)
    | Expire(row: nat)

  datatype Stamped = Stamped(at: int, change: Change)

  datatype Db = Db(ledger: seq<DeltaRow>, holds: seq<GrantRow>)

  /** A row leaves the held state once. */
  predicate Possible(db: Db, change: Change) {
    change.Release? || change.Expire? ==> change.row < |db.holds| && db.holds[change.row].state == Held
  }

  function Close(db: Db, row: nat, state: Hold, at: int): Db
    requires row < |db.holds|
  {
    db.(holds := db.holds[row := db.holds[row].(state := state, updatedAt := at)])
  }

  function Apply(db: Db, step: Stamped): Db
    requires Possible(db, step.change)
  {
    match step.change
    case Adjust(w, s, delta) => db.(ledger := db.ledger + [DeltaRow(w, s, delta, step.at)])
    case Grant(w, s, quantity) => db.(holds := db.holds + [GrantRow(w, s, quantity, Held, step.at, step.at)])
    case Release(row) => Close(db, row, Released, step.at)
    case Expire(row) => Close(db, row, Expired, step.at)
  }

  /** The tables after a run, or None when a step found nothing to release or expire. */
  function Exec(run: seq<Stamped>): Option<Db> {
    if run == [] then Some(Db([], []))
    else match Exec(run[..|run| - 1])
      case None => None
      case Some(db) =>
        if Possible(db, run[|run| - 1].change) then Some(Apply(db, run[|run| - 1])) else None
  }

  /** What is truly on hand, read off the tables as they stand. */
  function DeltaNow(warehouse: string, sku: string): DeltaRow -> int {
    (d: DeltaRow) => if d.warehouse == warehouse && d.sku == sku then d.delta else 0
  }

  function QuantityNow(warehouse: string, sku: string, state: Hold): GrantRow -> int {
    (g: GrantRow) => if g.warehouse == warehouse && g.sku == sku && g.state == state then g.quantity else 0
  }

  function UnreleasedNow(warehouse: string, sku: string): GrantRow -> int {
    (g: GrantRow) => if g.warehouse == warehouse && g.sku == sku && g.state != Released then g.quantity else 0
  }

  function TrueOnHand(db: Db, warehouse: string, sku: string): int { SumBy(db.ledger, DeltaNow(warehouse, sku)) }

  /** What is truly held: an expired hold has given its stock back. */
  function TrueHeld(db: Db, warehouse: string, sku: string): int { SumBy(db.holds, QuantityNow(warehouse, sku, Held)) }

  function TrueExpired(db: Db, warehouse: string, sku: string): int {
    SumBy(db.holds, QuantityNow(warehouse, sku, Expired))
  }

  /** The audit knows releases only. */
  lemma {:induction false} UnreleasedSplits(holds: seq<GrantRow>, warehouse: string, sku: string)
    ensures SumBy(holds, UnreleasedNow(warehouse, sku))
         == SumBy(holds, QuantityNow(warehouse, sku, Held)) + SumBy(holds, QuantityNow(warehouse, sku, Expired))
  {
    if holds != [] { UnreleasedSplits(holds[..|holds| - 1], warehouse, sku); }
  }

  // The same figures as weights over all rows, so that rows of other scopes count zero.

  function DeltaAt(warehouse: string, sku: string, at: int): DeltaRow -> int {
    (d: DeltaRow) => if d.warehouse == warehouse && d.sku == sku && d.at <= at then d.delta else 0
  }

  function GrantAt(warehouse: string, sku: string, at: int): GrantRow -> int {
    (g: GrantRow) =>
      if g.warehouse == warehouse && g.sku == sku && g.createdAt <= at && (g.state != Released || g.updatedAt > at)
      then g.quantity else 0
  }

  lemma {:induction false} AsWeights(db: Db, warehouse: string, sku: string, at: int)
    ensures OnHand(db.ledger, warehouse, sku, at) == SumBy(db.ledger, DeltaAt(warehouse, sku, at))
    ensures Active(db.holds, warehouse, sku, at) == SumBy(db.holds, GrantAt(warehouse, sku, at))
  {
    SumByFilter(db.ledger, DeltaIn(warehouse, sku), DeltaUpTo(at), DeltaAt(warehouse, sku, at));
    SumByFilter(db.holds, GrantIn(warehouse, sku), HeldAt(at), GrantAt(warehouse, sku, at));
  }

  lemma {:induction false} LaterChangeAddsNothing(db: Db, step: Stamped, warehouse: string, sku: string, at: int)
    requires Possible(db, step.change) && step.at > at
    ensures SumBy(Apply(db, step).ledger, DeltaAt(warehouse, sku, at)) == SumBy(db.ledger, DeltaAt(warehouse, sku, at))
    ensures SumBy(Apply(db, step).holds, GrantAt(warehouse, sku, at)) == SumBy(db.holds, GrantAt(warehouse, sku, at))
  {
    match step.change
    case Adjust(w, s, delta) => SumBySnoc(db.ledger, DeltaRow(w, s, delta, step.at), DeltaAt(warehouse, sku, at));
    case Grant(w, s, q) => SumBySnoc(db.holds, GrantRow(w, s, q, Held, step.at, step.at), GrantAt(warehouse, sku, at));
    case Release(row) =>
      SumByUpdate(db.holds, row, db.holds[row].(state := Released, updatedAt := step.at), GrantAt(warehouse, sku, at));
    case Expire(row) =>
      SumByUpdate(db.holds, row, db.holds[row].(state := Expired, updatedAt := step.at), GrantAt(warehouse, sku, at));
  }

  /** A step stamped after `at` cannot be seen in the figures re-derived for `at`. */
  lemma {:induction false} LaterStepIsInvisible(db: Db, step: Stamped, warehouse: string, sku: string, at: int)
    requires Possible(db, step.change) && step.at > at
    ensures OnHand(Apply(db, step).ledger, warehouse, sku, at) == OnHand(db.ledger, warehouse, sku, at)
    ensures Active(Apply(db, step).holds, warehouse, sku, at) == Active(db.holds, warehouse, sku, at)
  {
    LaterChangeAddsNothing(db, step, warehouse, sku, at);
    AsWeights(db, warehouse, sku, at);
    AsWeights(Apply(db, step), warehouse, sku, at);
  }

  // ---- what the stamps say -------------------------------------------------
  //
  // A grant is stamped when its transaction starts, an adjustment within its own, so a run may
  // commit its steps in another order than that of their stamps.

  function IsGrant(): Stamped -> bool { (step: Stamped) => step.change.Grant? }

  /** The grant steps in commit order: the `i`-th wrote row `i`. */
  function Grants(run: seq<Stamped>): seq<Stamped> { Filter(run, IsGrant()) }

  predicate GrantsIn(step: Stamped, warehouse: string, sku: string) {
    step.change.Grant? && step.change.warehouse == warehouse && step.change.sku == sku
  }

  function AdjustedBy(warehouse: string, sku: string, at: int): Stamped -> int {
    (step: Stamped) =>
      match step.change
      case Adjust(w, s, delta) => if w == warehouse && s == sku && step.at <= at then delta else 0
      case _ => 0
  }

  function GrantedBy(warehouse: string, sku: string, at: int): Stamped -> int {
    (step: Stamped) => if GrantsIn(step, warehouse, sku) && step.at <= at then step.change.quantity else 0
  }

  /** What a release stamped by `at` gives back of a grant stamped by `at`. */
  function Returned(grants: seq<Stamped>, step: Stamped, warehouse: string, sku: string, at: int): int {
    if step.change.Release? && step.change.row < |grants| && step.at <= at
       && GrantsIn(grants[step.change.row], warehouse, sku) && grants[step.change.row].at <= at
    then grants[step.change.row].change.quantity
    else 0
  }

  /** The adjustments of the scope stamped by `at`. */
  function Stocked(run: seq<Stamped>, warehouse: string, sku: string, at: int): int {
    SumBy(run, AdjustedBy(warehouse, sku, at))
  }

  function GivenBack(run: seq<Stamped>, warehouse: string, sku: string, at: int): int {
    if run == [] then 0
    else
      var front, last := run[..|run| - 1], run[|run| - 1];
      GivenBack(front, warehouse, sku, at) + Returned(Grants(front), last, warehouse, sku, at)
  }

  /** The grants of the scope stamped by `at`, less those of them released by `at`. */
  function Standing(run: seq<Stamped>, warehouse: string, sku: string, at: int): int {
    SumBy(run, GrantedBy(warehouse, sku, at)) - GivenBack(run, warehouse, sku, at)
  }

  lemma {:induction false} StampsSnoc(run: seq<Stamped>, step: Stamped, warehouse: string, sku: string, at: int)
    ensures Grants(run + [step]) == Grants(run) + (if step.change.Grant? then [step] else [])
    ensures Stocked(run + [step], warehouse, sku, at)
         == Stocked(run, warehouse, sku, at) + AdjustedBy(warehouse, sku, at)(step)
    ensures Standing(run + [step], warehouse, sku, at)
         == Standing(run, warehouse, sku, at) + GrantedBy(warehouse, sku, at)(step)
            - Returned(Grants(run), step, warehouse, sku, at)
  {
    FilterSnoc(run, step, IsGrant());
    SumBySnoc(run, step, AdjustedBy(warehouse, sku, at));
    SumBySnoc(run, step, GrantedBy(warehouse, sku, at));
    assert (run + [step])[..|run|] == run;
  }

  ghost predicate RowOfStep(g: GrantRow, step: Stamped) {
    step.change == Grant(g.warehouse, g.sku, g.quantity) && step.at == g.createdAt
  }

  /** Row by row, the reservations table is the list of the grant steps. */
  lemma {:induction false} RowsAreGrants(run: seq<Stamped>)
    requires Exec(run).Some?
    ensures |Exec(run).value.holds| == |Grants(run)|
    ensures forall i :: 0 <= i < |Grants(run)| ==> RowOfStep(Exec(run).value.holds[i], Grants(run)[i])
  {
    if run != [] { RowsAreGrants(run[..|run| - 1]); }
  }

  lemma {:induction false} LedgerStep(db: Db, step: Stamped, warehouse: string, sku: string, at: int)
    requires Possible(db, step.change)
    ensures SumBy(Apply(db, step).ledger, DeltaAt(warehouse, sku, at))
         == SumBy(db.ledger, DeltaAt(warehouse, sku, at)) + AdjustedBy(warehouse, sku, at)(step)
  {
    if step.change.Adjust? {
      SumBySnoc(db.ledger, DeltaRow(step.change.warehouse, step.change.sku, step.change.delta, step.at),
          DeltaAt(warehouse, sku, at));
    }
  }

  lemma {:induction false} HoldsStep(
    db: Db, grants: seq<Stamped>, step: Stamped, warehouse: string, sku: string, at: int)
    requires Possible(db, step.change) && |db.holds| == |grants|
    requires forall i :: 0 <= i < |grants| ==> RowOfStep(db.holds[i], grants[i])
    ensures SumBy(Apply(db, step).holds, GrantAt(warehouse, sku, at))
         == SumBy(db.holds, GrantAt(warehouse, sku, at)) + GrantedBy(warehouse, sku, at)(step)
            - Returned(grants, step, warehouse, sku, at)
  {
    var f := GrantAt(warehouse, sku, at);
    match step.change
    case Adjust(_, _, _) =>
    case Grant(w, s, q) => SumBySnoc(db.holds, GrantRow(w, s, q, Held, step.at, step.at), f);
    case Release(row) =>
      assert RowOfStep(db.holds[row], grants[row]);
      SumByUpdate(db.holds, row, db.holds[row].(state := Released, updatedAt := step.at), f);
    case Expire(row) => SumByUpdate(db.holds, row, db.holds[row].(state := Expired, updatedAt := step.at), f);
  }

  /** The exact meaning of the audit's two figures, for any run, in whatever order its stamps:
      the stock adjusted by then, and the grants made by then and not released by then. */
  lemma {:induction false} FiguresByStamps(run: seq<Stamped>, warehouse: string, sku: string, at: int)
    requires Exec(run).Some?
    ensures OnHand(Exec(run).value.ledger, warehouse, sku, at) == Stocked(run, warehouse, sku, at)
    ensures Active(Exec(run).value.holds, warehouse, sku, at) == Standing(run, warehouse, sku, at)
  {
    LedgerByStamps(run, warehouse, sku, at);
    HoldsByStamps(run, warehouse, sku, at);
    AsWeights(Exec(run).value, warehouse, sku, at);
  }

  lemma {:induction false} LedgerByStamps(run: seq<Stamped>, warehouse: string, sku: string, at: int)
    requires Exec(run).Some?
    ensures SumBy(Exec(run).value.ledger, DeltaAt(warehouse, sku, at)) == Stocked(run, warehouse, sku, at)
  {
    if run != [] {
      var front, step := run[..|run| - 1], run[|run| - 1];
      LedgerByStamps(front, warehouse, sku, at);
      LedgerStep(Exec(front).value, step, warehouse, sku, at);
    }
  }

  lemma {:induction false} HoldsByStamps(run: seq<Stamped>, warehouse: string, sku: string, at: int)
    requires Exec(run).Some?
    ensures SumBy(Exec(run).value.holds, GrantAt(warehouse, sku, at)) == Standing(run, warehouse, sku, at)
  {
    if run != [] {
      var front, step := run[..|run| - 1], run[|run| - 1];
      HoldsByStamps(front, warehouse, sku, at);
      RowsAreGrants(front);
      HoldsStep(Exec(front).value, Grants(front), step, warehouse, sku, at);
    }
  }

  // ---- the verdict -------------------------------------------------------

  /** Every reservation row was written by a grant step. */
  lemma {:induction false} RowHasStep(run: seq<Stamped>, i: nat) returns (k: nat)
    requires Exec(run).Some? && i < |Exec(run).value.holds|
    ensures k < |run| && RowOfStep(Exec(run).value.holds[i], run[k])
  {
    var front := run[..|run| - 1];
    if i < |Exec(front).value.holds| { k := RowHasStep(front, i); } else { k := |run| - 1; }
  }

  /** Every grant step left its row in the final table. */
  lemma {:induction false} StepHasRow(run: seq<Stamped>, k: nat) returns (i: nat)
    requires Exec(run).Some? && k < |run| && run[k].change.Grant?
    ensures i < |Exec(run).value.holds| && RowOfStep(Exec(run).value.holds[i], run[k])
  {
    var front := run[..|run| - 1];
    if k < |front| { i := StepHasRow(front, k); } else { i := |Exec(front).value.holds|; }
  }

  /** The report of the final tables. */
  ghost function Report(run: seq<Stamped>): seq<Violation>
    requires Exec(run).Some?
  {
    FlatMap(Exec(run).value.holds, Judge(Exec(run).value.ledger, Exec(run).value.holds))
  }

  /** Step `k` grants, and by the stamps its scope then stands past its stock. */
  ghost predicate OverStamped(run: seq<Stamped>, k: nat) {
    && k < |run| && run[k].change.Grant?
    && var c := run[k].change;
       Standing(run, c.warehouse, c.sku, run[k].at) > Stocked(run, c.warehouse, c.sku, run[k].at)
  }

  lemma {:induction false} JudgedByStamps(run: seq<Stamped>, g: GrantRow)
    requires Exec(run).Some?
    ensures Judged(Exec(run).value.ledger, Exec(run).value.holds, g) == []
            <==> Standing(run, g.warehouse, g.sku, g.createdAt) <= Stocked(run, g.warehouse, g.sku, g.createdAt)
  {
    FiguresByStamps(run, g.warehouse, g.sku, g.createdAt);
  }

  lemma {:induction false} OverStampedIsReported(run: seq<Stamped>, k: nat)
    requires Exec(run).Some? && OverStamped(run, k)
    ensures Report(run) != []
  {
    var db := Exec(run).value;
    var i := StepHasRow(run, k);
    var g := db.holds[i];
    JudgedByStamps(run, g);
    FlatMapEmpty(db.holds, Judge(db.ledger, db.holds));
    assert g in db.holds;
  }

  lemma {:induction false} ReportedIsOverStamped(run: seq<Stamped>)
    requires Exec(run).Some?
    ensures Report(run) != [] ==> exists k :: 0 <= k < |run| && OverStamped(run, k)
  {
    var db := Exec(run).value;
    FlatMapEmpty(db.holds, Judge(db.ledger, db.holds));
    if g :| g in db.holds && Judge(db.ledger, db.holds)(g) != [] {
      var i :| 0 <= i < |db.holds| && db.holds[i] == g;
      var k := RowHasStep(run, i);
      JudgedByStamps(run, g);
      assert OverStamped(run, k);
    }
  }

  /** The exact verdict for every run, in whatever order its stamps: nothing is reported if and
      only if, for each grant, the unreleased grants of its scope stamped at or before it are
      within the adjustments stamped at or before it. */
  lemma {:induction false} VerdictByStamps(run: seq<Stamped>)
    requires Exec(run).Some?
    ensures Report(run) == [] <==> forall k :: 0 <= k < |run| ==> !OverStamped(run, k)
  {
    ReportedIsOverStamped(run);
    forall k | 0 <= k < |run| && OverStamped(run, k) ensures Report(run) != [] { OverStampedIsReported(run, k); }
  }

  // ---- stamps and commits ----------------------------------------------------

  /** The step moves the scope's figures. */
  predicate Touches(run: seq<Stamped>, step: Stamped, warehouse: string, sku: string) {
    match step.change
    case Adjust(w, s, _) => w == warehouse && s == sku
    case Grant(w, s, _) => w == warehouse && s == sku
    case Release(row) => row < |Grants(run)| && GrantsIn(Grants(run)[row], warehouse, sku)
    case Expire(row) => row < |Grants(run)| && GrantsIn(Grants(run)[row], warehouse, sku)
  }

  /** As far as the scope goes, the first `m` steps are those stamped by `at`. */
  ghost predicate Cut(run: seq<Stamped>, warehouse: string, sku: string, at: int, m: nat) {
    m <= |run| && forall j :: 0 <= j < |run| && Touches(run, run[j], warehouse, sku) ==> (j < m <==> run[j].at <= at)
  }

  lemma {:induction false} GrantsGrow(run: seq<Stamped>, step: Stamped, other: Stamped, warehouse: string, sku: string)
    ensures Grants(run) <= Grants(run + [step])
    ensures Touches(run, other, warehouse, sku) ==> Touches(run + [step], other, warehouse, sku)
  {
    FilterSnoc(run, step, IsGrant());
  }

  /** Steps stamped after `at` drop out of the figures for `at`. */
  lemma {:induction false} LateStampsDropOut(run: seq<Stamped>, warehouse: string, sku: string, at: int, m: nat)
    requires Cut(run, warehouse, sku, at, m)
    requires Exec(run).Some?
    ensures Stocked(run, warehouse, sku, at) == Stocked(run[..m], warehouse, sku, at)
    ensures Standing(run, warehouse, sku, at) == Standing(run[..m], warehouse, sku, at)
    ensures Exec(run[..m]).Some?
    decreases |run|
  {
    if m == |run| {
      assert run[..m] == run;
    } else {
      var front, step := run[..|run| - 1], run[|run| - 1];
      FrontAndLast(run);
      CutOfFront(run, warehouse, sku, at, m);
      LateStampsDropOut(front, warehouse, sku, at, m);
      assert front[..m] == run[..m];
      LastAddsNothing(front, step, warehouse, sku, at);
    }
  }

  lemma {:induction false} CutOfFront(run: seq<Stamped>, warehouse: string, sku: string, at: int, m: nat)
    requires Cut(run, warehouse, sku, at, m) && m < |run|
    ensures Cut(run[..|run| - 1], warehouse, sku, at, m)
    ensures Touches(run, run[|run| - 1], warehouse, sku) ==> run[|run| - 1].at > at
  {
    var front, step := run[..|run| - 1], run[|run| - 1];
    FrontAndLast(run);
    forall j | 0 <= j < |front| && Touches(front, front[j], warehouse, sku) ensures j < m <==> front[j].at <= at {
      GrantsGrow(front, step, front[j], warehouse, sku);
    }
  }

  lemma {:induction false} LastAddsNothing(front: seq<Stamped>, step: Stamped, warehouse: string, sku: string, at: int)
    requires Touches(front + [step], step, warehouse, sku) ==> step.at > at
    ensures Stocked(front + [step], warehouse, sku, at) == Stocked(front, warehouse, sku, at)
    ensures Standing(front + [step], warehouse, sku, at) == Standing(front, warehouse, sku, at)
  {
    StampsSnoc(front, step, warehouse, sku, at);
  }

  /** When every step of the scope is stamped by `at`, the figures for `at` are those of the
      tables as they stand. */
  lemma {:induction false} EarlyStampsAreAll(run: seq<Stamped>, warehouse: string, sku: string, at: int)
    requires Exec(run).Some?
    requires forall step :: step in run && Touches(run, step, warehouse, sku) ==> step.at <= at
    ensures TrueOnHand(Exec(run).value, warehouse, sku) == Stocked(run, warehouse, sku, at)
    ensures SumBy(Exec(run).value.holds, UnreleasedNow(warehouse, sku)) == Standing(run, warehouse, sku, at)
  {
    if run != [] {
      var front, step := run[..|run| - 1], run[|run| - 1];
      FrontAndLast(run);
      forall other | other in front && Touches(front, other, warehouse, sku) ensures other.at <= at {
        GrantsGrow(front, step, other, warehouse, sku);
      }
      EarlyStampsAreAll(front, warehouse, sku, at);
      RowsAreGrants(front);
      EarlyGrants(front, step, warehouse, sku, at);
      OneStepNow(Exec(front).value, Grants(front), step, warehouse, sku, at);
      StampsSnoc(front, step, warehouse, sku, at);
    }
  }

  lemma {:induction false} EarlyGrants(front: seq<Stamped>, step: Stamped, warehouse: string, sku: string, at: int)
    requires forall other ::
               other in front + [step] && Touches(front + [step], other, warehouse, sku) ==> other.at <= at
    ensures forall i :: 0 <= i < |Grants(front)| && GrantsIn(Grants(front)[i], warehouse, sku) ==>
            Grants(front)[i].at <= at
    ensures Touches(front, step, warehouse, sku) ==> step.at <= at
  {
    GrantsGrow(front, step, step, warehouse, sku);
    forall i | 0 <= i < |Grants(front)| && GrantsIn(Grants(front)[i], warehouse, sku)
      ensures Grants(front)[i].at <= at
    {
      assert Grants(front)[i] in Grants(front);
      assert Touches(front + [step], Grants(front)[i], warehouse, sku);
    }
  }

  lemma {:induction false} OneStepNow(
    db: Db, grants: seq<Stamped>, step: Stamped, warehouse: string, sku: string, at: int)
    requires Possible(db, step.change) && |db.holds| == |grants|
    requires forall i :: 0 <= i < |grants| ==> RowOfStep(db.holds[i], grants[i])
    requires forall i :: 0 <= i < |grants| && GrantsIn(grants[i], warehouse, sku) ==> grants[i].at <= at
    requires match step.change
             case Adjust(w, s, _) => w == warehouse && s == sku ==> step.at <= at
             case Grant(w, s, _) => w == warehouse && s == sku ==> step.at <= at
             case Release(row) => GrantsIn(grants[row], warehouse, sku) ==> step.at <= at
             case Expire(_) => true
    ensures TrueOnHand(Apply(db, step), warehouse, sku)
         == TrueOnHand(db, warehouse, sku) + AdjustedBy(warehouse, sku, at)(step)
    ensures SumBy(Apply(db, step).holds, UnreleasedNow(warehouse, sku))
         == SumBy(db.holds, UnreleasedNow(warehouse, sku)) + GrantedBy(warehouse, sku, at)(step)
            - Returned(grants, step, warehouse, sku, at)
  {
    var f := UnreleasedNow(warehouse, sku);
    match step.change
    case Adjust(w, s, delta) => SumBySnoc(db.ledger, DeltaRow(w, s, delta, step.at), DeltaNow(warehouse, sku));
    case Grant(w, s, q) => SumBySnoc(db.holds, GrantRow(w, s, q, Held, step.at, step.at), f);
    case Release(row) =>
      assert RowOfStep(db.holds[row], grants[row]);
      SumByUpdate(db.holds, row, db.holds[row].(state := Released, updatedAt := step.at), f);
    case Expire(row) => SumByUpdate(db.holds, row, db.holds[row].(state := Expired, updatedAt := step.at), f);
  }

  /** From the final rows alone the audit recovers the past. Where the stamps of a scope cut the
      run at step `m`, it finds what was on hand after `m` steps, and what was held together
      with what had expired: releases are undone, later grants and adjustments left out, and
      expiries not seen at all. */
  lemma {:induction false} ReconstructsHistory(run: seq<Stamped>, warehouse: string, sku: string, at: int, m: nat)
    requires Exec(run).Some? && Cut(run, warehouse, sku, at, m)
    ensures Exec(run[..m]).Some?
    ensures var last, past := Exec(run).value, Exec(run[..m]).value;
            && OnHand(last.ledger, warehouse, sku, at) == TrueOnHand(past, warehouse, sku)
            && Active(last.holds, warehouse, sku, at)
                 == TrueHeld(past, warehouse, sku) + TrueExpired(past, warehouse, sku)
  {
    FiguresByStamps(run, warehouse, sku, at);
    LateStampsDropOut(run, warehouse, sku, at, m);
    EarlySteps(run, warehouse, sku, at, m);
    EarlyStampsAreAll(run[..m], warehouse, sku, at);
    UnreleasedSplits(Exec(run[..m]).value.holds, warehouse, sku);
  }

  lemma {:induction false} EarlySteps(run: seq<Stamped>, warehouse: string, sku: string, at: int, m: nat)
    requires Cut(run, warehouse, sku, at, m)
    ensures forall step :: step in run[..m] && Touches(run[..m], step, warehouse, sku) ==> step.at <= at
  {
    forall step | step in run[..m] && Touches(run[..m], step, warehouse, sku) ensures step.at <= at {
      var j :| 0 <= j < m && run[j] == step;
      GrantsOfPrefix(run, m);
      assert Touches(run, run[j], warehouse, sku);
    }
  }

  lemma {:induction false} GrantsOfPrefix(run: seq<Stamped>, m: nat)
    requires m <= |run|
    ensures Grants(run[..m]) <= Grants(run)
  {
    FilterAppend(run[..m], run[m..], IsGrant());
    assert run == run[..m] + run[m..];
  }

  /** The scope is counted past its stock, expired holds included. */
  ghost predicate OverCounted(db: Db, warehouse: string, sku: string) {
    TrueHeld(db, warehouse, sku) + TrueExpired(db, warehouse, sku) > TrueOnHand(db, warehouse, sku)
  }

  /** The scope is truly held past its stock. */
  ghost predicate OverHeld(db: Db, warehouse: string, sku: string) {
    TrueHeld(db, warehouse, sku) > TrueOnHand(db, warehouse, sku)
  }

  /** A row is reported exactly when its scope was over-counted where its stamp cuts the run. */
  lemma {:induction false} JudgedByHistory(run: seq<Stamped>, g: GrantRow, m: nat)
    requires Exec(run).Some? && Cut(run, g.warehouse, g.sku, g.createdAt, m)
    ensures Exec(run[..m]).Some?
    ensures Judged(Exec(run).value.ledger, Exec(run).value.holds, g) == []
            <==> !OverCounted(Exec(run[..m]).value, g.warehouse, g.sku)
  {
    ReconstructsHistory(run, g.warehouse, g.sku, g.createdAt, m);
  }

  lemma {:induction false} OverStampedAtCut(run: seq<Stamped>, k: nat, m: nat)
    requires Exec(run).Some? && k < |run| && run[k].change.Grant?
    requires Cut(run, run[k].change.warehouse, run[k].change.sku, run[k].at, m)
    ensures Exec(run[..m]).Some?
    ensures OverStamped(run, k) <==> OverCounted(Exec(run[..m]).value, run[k].change.warehouse, run[k].change.sku)
  {
    var c := run[k].change;
    FiguresByStamps(run, c.warehouse, c.sku, run[k].at);
    ReconstructsHistory(run, c.warehouse, c.sku, run[k].at, m);
  }

  // ---- stamps in commit order ------------------------------------------------

  ghost predicate NonDecreasing(run: seq<Stamped>) {
    forall i, j :: 0 <= i < j < |run| ==> run[i].at <= run[j].at
  }

  /** The run up to and including the instant `at`. */
  function UpTo(run: seq<Stamped>, at: int): seq<Stamped> {
    if run == [] || run[|run| - 1].at <= at then run else UpTo(run[..|run| - 1], at)
  }

  /** The steps up to an instant are a prefix of the run. */
  lemma {:induction false} UpToIsPrefix(run: seq<Stamped>, at: int) returns (m: nat)
    requires NonDecreasing(run)
    ensures m <= |run| && UpTo(run, at) == run[..m]
    ensures forall i :: 0 <= i < |run| ==> (run[i].at <= at <==> i < m)
  {
    if run == [] || run[|run| - 1].at <= at {
      m := |run|;
      assert run[..m] == run;
    } else {
      var front := run[..|run| - 1];
      m := UpToIsPrefix(front, at);
      assert front[..m] == run[..m];
      assert forall i :: 0 <= i < |front| ==> front[i] == run[i];
    }
  }

  /** Step `k` grants, and by the end of its instant its scope is over-counted. */
  ghost predicate CountedAt(run: seq<Stamped>, k: nat) {
    && k < |run|
    && var past := Exec(UpTo(run, run[k].at));
       run[k].change.Grant? && past.Some? && OverCounted(past.value, run[k].change.warehouse, run[k].change.sku)
  }

  /** Step `k` grants, and the state it leaves is over-counted in its scope. */
  ghost predicate CountedBy(run: seq<Stamped>, k: nat) {
    && k < |run|
    && var next := Exec(run[..k + 1]);
       run[k].change.Grant? && next.Some? && OverCounted(next.value, run[k].change.warehouse, run[k].change.sku)
  }

  /** Step `k` grants, and truly takes its scope past its stock. */
  ghost predicate OversellsBy(run: seq<Stamped>, k: nat) {
    && k < |run|
    && var next := Exec(run[..k + 1]);
       run[k].change.Grant? && next.Some? && OverHeld(next.value, run[k].change.warehouse, run[k].change.sku)
  }

  /** With stamps in commit order, ties included, the audit judges the END of each granting
      instant: nothing is reported if and only if no granted scope is then over-counted. */
  lemma {:induction false} VerdictIsEndOfInstant(run: seq<Stamped>)
    requires NonDecreasing(run) && Exec(run).Some?
    ensures Report(run) == [] <==> forall k :: 0 <= k < |run| ==> !CountedAt(run, k)
  {
    VerdictByStamps(run);
    forall k | 0 <= k < |run| ensures OverStamped(run, k) <==> CountedAt(run, k) {
      var m := UpToIsPrefix(run, run[k].at);
      if run[k].change.Grant? { OverStampedAtCut(run, k, m); }
    }
  }

  // ---- one grant at a time -----------------------------------------------------

  /** Step `k`, when it grants, is stamped in its place: of the steps that touch its scope, those
      stamped by then are the ones committed by then. Other scopes do not matter. */
  ghost predicate InItsPlace(run: seq<Stamped>, k: nat) {
    k < |run| && run[k].change.Grant? ==> Cut(run, run[k].change.warehouse, run[k].change.sku, run[k].at, k + 1)
  }

  ghost predicate Separate(run: seq<Stamped>) { forall k :: 0 <= k < |run| ==> InItsPlace(run, k) }

  /** Stamps that rise strictly put every step in its place. */
  lemma {:induction false} RisingStampsAreSeparate(run: seq<Stamped>)
    requires forall i, j :: 0 <= i < j < |run| ==> run[i].at < run[j].at
    ensures NonDecreasing(run) && Separate(run)
  {
    forall k | 0 <= k < |run| ensures InItsPlace(run, k) {}
  }

  /** When every grant is stamped in its place, the verdict is about the state each one left. */
  lemma {:induction false} VerdictIsPerGrant(run: seq<Stamped>)
    requires Separate(run) && Exec(run).Some?
    ensures Report(run) == [] <==> forall k :: 0 <= k < |run| ==> !CountedBy(run, k)
  {
    VerdictByStamps(run);
    forall k | 0 <= k < |run| ensures OverStamped(run, k) <==> CountedBy(run, k) {
      assert InItsPlace(run, k);
      if run[k].change.Grant? { OverStampedAtCut(run, k, k + 1); }
    }
  }

  // ---- and true overselling ------------------------------------------------

  ghost predicate NothingExpires(run: seq<Stamped>) { forall i :: 0 <= i < |run| ==> !run[i].change.Expire? }

  lemma {:induction false} NothingExpired(run: seq<Stamped>, warehouse: string, sku: string)
    requires NothingExpires(run) && Exec(run).Some?
    ensures TrueExpired(Exec(run).value, warehouse, sku) == 0
  {
    if run != [] {
      var front, step := run[..|run| - 1], run[|run| - 1];
      var db, f := Exec(front).value, QuantityNow(warehouse, sku, Expired);
      NothingExpired(front, warehouse, sku);
      match step.change {
        case Adjust(_, _, _) =>
        case Grant(w, s, q) => SumBySnoc(db.holds, GrantRow(w, s, q, Held, step.at, step.at), f);
        case Release(row) => SumByUpdate(db.holds, row, db.holds[row].(state := Released, updatedAt := step.at), f);
      }
    }
  }

  /** In a run without expiries, with every grant stamped in its place, the audit is exact:
      nothing is reported if and only if no grant ever took its scope past its stock. */
  lemma {:induction false} VerdictIsOversell(run: seq<Stamped>)
    requires Separate(run) && NothingExpires(run) && Exec(run).Some?
    ensures Report(run) == [] <==> forall k :: 0 <= k < |run| ==> !OversellsBy(run, k)
  {
    VerdictIsPerGrant(run);
    forall k | 0 <= k < |run| ensures CountedBy(run, k) <==> OversellsBy(run, k) {
      PrefixesRun(run, k + 1);
      if run[k].change.Grant? { NothingExpired(run[..k + 1], run[k].change.warehouse, run[k].change.sku); }
    }
  }

  ghost predicate GrantsAreNatural(run: seq<Stamped>) {
    forall i :: 0 <= i < |run| && run[i].change.Grant? ==> run[i].change.quantity >= 0
  }

  lemma {:induction false} ExpiredIsNatural(run: seq<Stamped>, warehouse: string, sku: string)
    requires GrantsAreNatural(run) && Exec(run).Some?
    ensures forall g :: g in Exec(run).value.holds ==> g.quantity >= 0
    ensures TrueExpired(Exec(run).value, warehouse, sku) >= 0
  {
    if run != [] { ExpiredIsNatural(run[..|run| - 1], warehouse, sku); }
    NaturalSum(Exec(run).value.holds, QuantityNow(warehouse, sku, Expired));
  }

  lemma {:induction false} NaturalSum(rows: seq<GrantRow>, f: GrantRow -> int)
    requires forall g :: g in rows ==> f(g) >= 0
    ensures SumBy(rows, f) >= 0
  {
    if rows != [] { NaturalSum(rows[..|rows| - 1], f); }
  }

  /** Under the same condition on stamps, for grants that are not negative, a clean report is
      never wrong about overselling, expiries or not. */
  lemma {:induction false} CleanMeansNoOversell(run: seq<Stamped>)
    requires Separate(run) && GrantsAreNatural(run) && Exec(run).Some?
    ensures Report(run) == [] ==> forall k :: 0 <= k < |run| ==> !OversellsBy(run, k)
  {
    VerdictIsPerGrant(run);
    forall k | 0 <= k < |run| && OversellsBy(run, k) ensures CountedBy(run, k) {
      PrefixesRun(run, k + 1);
      ExpiredIsNatural(run[..k + 1], run[k].change.warehouse, run[k].change.sku);
    }
  }

  /** Step `k`, when it grants, grants no more than the headroom it found. */
  ghost predicate HadHeadroom(run: seq<Stamped>, k: nat) {
    k < |run| && run[k].change.Grant? && Exec(run[..k]).Some? ==>
      var db, c := Exec(run[..k]), run[k].change;
      c.quantity <= TrueOnHand(db.value, c.warehouse, c.sku) - TrueHeld(db.value, c.warehouse, c.sku)
  }

  ghost predicate EveryGrantHadHeadroom(run: seq<Stamped>) { forall k :: 0 <= k < |run| ==> HadHeadroom(run, k) }

  lemma {:induction false} PrefixesRun(run: seq<Stamped>, k: nat)
    requires Exec(run).Some? && k <= |run|
    ensures Exec(run[..k]).Some?
    decreases |run|
  {
    if k < |run| {
      PrefixesRun(run[..|run| - 1], k);
      assert run[..|run| - 1][..k] == run[..k];
    } else {
      assert run[..k] == run;
    }
  }

  /** A grant within its headroom does not oversell. */
  lemma {:induction false} HeadroomIsEnough(run: seq<Stamped>, k: nat)
    requires Exec(run).Some? && k < |run| && HadHeadroom(run, k)
    ensures !OversellsBy(run, k)
  {
    PrefixesRun(run, k);
    PrefixesRun(run, k + 1);
    assert run[..k + 1][..k] == run[..k] && run[..k + 1][k] == run[k];
    var db, c := Exec(run[..k]).value, run[k].change;
    if c.Grant? {
      SumBySnoc(db.holds, GrantRow(c.warehouse, c.sku, c.quantity, Held, run[k].at, run[k].at),
          QuantityNow(c.warehouse, c.sku, Held));
    }
  }

  /** Such a run whose every grant checked its headroom is reported clean. */
  lemma {:induction false} CheckedRunsPass(run: seq<Stamped>)
    requires Separate(run) && NothingExpires(run) && Exec(run).Some?
    requires EveryGrantHadHeadroom(run)
    ensures Report(run) == []
  {
    VerdictIsOversell(run);
    forall k | 0 <= k < |run| ensures !OversellsBy(run, k) { HeadroomIsEnough(run, k); }
  }

  lemma {:induction false} ExecSnoc(run: seq<Stamped>, step: Stamped, db: Db)
    requires Exec(run) == Some(db) && Possible(db, step.change)
    ensures Exec(run + [step]) == Some(Apply(db, step))
  {
    assert (run + [step])[..|run|] == run;
  }

  lemma {:induction false} OneDelta(d: DeltaRow)
    ensures SumBy([d], DeltaNow(d.warehouse, d.sku)) == d.delta
  {
    SumBySnoc([], d, DeltaNow(d.warehouse, d.sku));
    assert [] + [d] == [d];
  }

  lemma {:induction false} OneHold(g: GrantRow, state: Hold)
    ensures SumBy([g], QuantityNow(g.warehouse, g.sku, state)) == if g.state == state then g.quantity else 0
  {
    SumBySnoc([], g, QuantityNow(g.warehouse, g.sku, state));
    assert [] + [g] == [g];
  }

  lemma {:induction false} NoStepsYet(warehouse: string, sku: string, at: int)
    ensures Stocked([], warehouse, sku, at) == 0 && Standing([], warehouse, sku, at) == 0 && Grants([]) == []
  {
  }

  /** 5 on hand, 5 granted with full headroom, and 3 written off within the same millisecond. */
  function AlarmRun(w: string, s: string): seq<Stamped> {
    [Stamped(1, Adjust(w, s, 5))] + [Stamped(2, Grant(w, s, 5))] + [Stamped(2, Adjust(w, s, -3))]
  }

  lemma {:induction false} AlarmTables(w: string, s: string)
    ensures Exec(AlarmRun(w, s)[..1]) == Some(Db([DeltaRow(w, s, 5, 1)], []))
    ensures Exec(AlarmRun(w, s)).Some?
    ensures Standing(AlarmRun(w, s), w, s, 2) == 5 && Stocked(AlarmRun(w, s), w, s, 2) == 2
  {
    var run := AlarmRun(w, s);
    var a, b, c := run[0], run[1], run[2];
    var first, row := DeltaRow(w, s, 5, 1), GrantRow(w, s, 5, Held, 2, 2);
    assert [] + [a] == [a] && [] + [first] == [first] && [] + [row] == [row];
    ExecSnoc([], a, Db([], []));
    ExecSnoc([a], b, Db([first], []));
    ExecSnoc([a] + [b], c, Db([first], [row]));
    assert run[..1] == [a] && run == [a] + [b] + [c];
    NoStepsYet(w, s, 2);
    StampsSnoc([], a, w, s, 2);
    StampsSnoc([a], b, w, s, 2);
    StampsSnoc([a] + [b], c, w, s, 2);
  }

  /** Stamps that tie can raise a false alarm. */
  lemma {:induction false} TiesCanFalselyAlarm(w: string, s: string)
    ensures NonDecreasing(AlarmRun(w, s)) && NothingExpires(AlarmRun(w, s)) && Exec(AlarmRun(w, s)).Some?
    ensures EveryGrantHadHeadroom(AlarmRun(w, s))
    ensures Report(AlarmRun(w, s)) != []
  {
    AlarmTables(w, s);
    forall k | 0 <= k < |AlarmRun(w, s)| ensures HadHeadroom(AlarmRun(w, s), k) {
      if k == 1 { OneDelta(DeltaRow(w, s, 5, 1)); }
    }
    OverStampedIsReported(AlarmRun(w, s), 1);
  }

  /** 5 granted from nothing, and 5 received within the same millisecond. */
  function HiddenRun(w: string, s: string): seq<Stamped> {
    [Stamped(1, Grant(w, s, 5))] + [Stamped(1, Adjust(w, s, 5))]
  }

  lemma {:induction false} HiddenTables(w: string, s: string)
    ensures Exec(HiddenRun(w, s)[..1]) == Some(Db([], [GrantRow(w, s, 5, Held, 1, 1)]))
    ensures Exec(HiddenRun(w, s)).Some?
    ensures Standing(HiddenRun(w, s), w, s, 1) == 5 && Stocked(HiddenRun(w, s), w, s, 1) == 5
  {
    var run := HiddenRun(w, s);
    var a, b := run[0], run[1];
    var row := GrantRow(w, s, 5, Held, 1, 1);
    assert [] + [a] == [a] && [] + [row] == [row];
    ExecSnoc([], a, Db([], []));
    ExecSnoc([a], b, Db([], [row]));
    assert run[..1] == [a] && run == [a] + [b];
    NoStepsYet(w, s, 1);
    StampsSnoc([], a, w, s, 1);
    StampsSnoc([a], b, w, s, 1);
  }

  /** Ties can also hide an oversell. */
  lemma {:induction false} TiesCanHideAnOversell(w: string, s: string)
    ensures NonDecreasing(HiddenRun(w, s)) && Exec(HiddenRun(w, s)).Some?
    ensures OversellsBy(HiddenRun(w, s), 0) && Report(HiddenRun(w, s)) == []
  {
    HiddenStamps(w, s);
    HiddenOversells(w, s);
    HiddenIsWithinItsStamps(w, s);
    VerdictByStamps(HiddenRun(w, s));
  }

  lemma {:induction false} HiddenStamps(w: string, s: string)
    ensures NonDecreasing(HiddenRun(w, s))
  {
  }

  lemma {:induction false} HiddenOversells(w: string, s: string)
    ensures OversellsBy(HiddenRun(w, s), 0)
  {
    HiddenTables(w, s);
    OneHold(GrantRow(w, s, 5, Held, 1, 1), Held);
  }

  lemma {:induction false} HiddenIsWithinItsStamps(w: string, s: string)
    ensures Exec(HiddenRun(w, s)).Some? && forall k :: 0 <= k < |HiddenRun(w, s)| ==> !OverStamped(HiddenRun(w, s), k)
  {
    HiddenTables(w, s);
  }

  /** 2 on hand; a grant of 5 starts and waits for the stock lock; 3 more are received; and the
      grant, which sees them, commits with the stamp of its start. */
  function LateRun(w: string, s: string): seq<Stamped> {
    [Stamped(1, Adjust(w, s, 2))] + [Stamped(3, Adjust(w, s, 3))] + [Stamped(2, Grant(w, s, 5))]
  }

  lemma {:induction false} LateTables(w: string, s: string)
    ensures Exec(LateRun(w, s)[..2]) == Some(Db([DeltaRow(w, s, 2, 1)] + [DeltaRow(w, s, 3, 3)], []))
    ensures Exec(LateRun(w, s)).Some?
    ensures Standing(LateRun(w, s), w, s, 2) == 5 && Stocked(LateRun(w, s), w, s, 2) == 2
  {
    var run := LateRun(w, s);
    var a, b, c := run[0], run[1], run[2];
    var first, second := DeltaRow(w, s, 2, 1), DeltaRow(w, s, 3, 3);
    assert [] + [a] == [a] && [] + [first] == [first];
    ExecSnoc([], a, Db([], []));
    ExecSnoc([a], b, Db([first], []));
    ExecSnoc([a] + [b], c, Db([first] + [second], []));
    assert run[..2] == [a] + [b] && run == [a] + [b] + [c];
    NoStepsYet(w, s, 2);
    StampsSnoc([], a, w, s, 2);
    StampsSnoc([a], b, w, s, 2);
    StampsSnoc([a] + [b], c, w, s, 2);
  }

  lemma {:induction false} LateHadHeadroom(w: string, s: string)
    ensures EveryGrantHadHeadroom(LateRun(w, s))
  {
    forall k | 0 <= k < |LateRun(w, s)| ensures HadHeadroom(LateRun(w, s), k) {
      if k == 2 {
        LateTables(w, s);
        OneDelta(DeltaRow(w, s, 2, 1));
        SumBySnoc([DeltaRow(w, s, 2, 1)], DeltaRow(w, s, 3, 3), DeltaNow(w, s));
      }
    }
  }

  /** Stamps out of commit order can raise a false alarm with no tie and no expiry. */
  lemma {:induction false} LateStampCanFalselyAlarm(w: string, s: string)
    ensures NoTies(LateRun(w, s)) && NothingExpires(LateRun(w, s)) && Exec(LateRun(w, s)).Some?
    ensures EveryGrantHadHeadroom(LateRun(w, s))
    ensures Report(LateRun(w, s)) != []
  {
    LateStamps(w, s);
    LateIsOverStamped(w, s);
    LateHadHeadroom(w, s);
    OverStampedIsReported(LateRun(w, s), 2);
  }

  ghost predicate NoTies(run: seq<Stamped>) { forall i, j :: 0 <= i < j < |run| ==> run[i].at != run[j].at }

  lemma {:induction false} LateStamps(w: string, s: string)
    ensures NoTies(LateRun(w, s)) && NothingExpires(LateRun(w, s)) && |LateRun(w, s)| == 3
  {
  }

  lemma {:induction false} LateIsOverStamped(w: string, s: string)
    ensures Exec(LateRun(w, s)).Some? && OverStamped(LateRun(w, s), 2)
  {
    LateTables(w, s);
  }

  /** 5 on hand, granted, expired, and granted again. */
  function ExpiryRun(w: string, s: string): seq<Stamped> {
    [Stamped(1, Adjust(w, s, 5))] + [Stamped(2, Grant(w, s, 5))]
    + [Stamped(3, Expire(0))] + [Stamped(4, Grant(w, s, 5))]
  }

  lemma {:induction false} ExpiryTables(w: string, s: string)
    ensures Exec(ExpiryRun(w, s)[..1]) == Some(Db([DeltaRow(w, s, 5, 1)], []))
    ensures Exec(ExpiryRun(w, s)[..3]) == Some(Db([DeltaRow(w, s, 5, 1)], [GrantRow(w, s, 5, Expired, 2, 3)]))
    ensures Exec(ExpiryRun(w, s)).Some?
    ensures Standing(ExpiryRun(w, s), w, s, 4) == 10 && Stocked(ExpiryRun(w, s), w, s, 4) == 5
  {
    var run := ExpiryRun(w, s);
    var a, b, c, d := run[0], run[1], run[2], run[3];
    var delta, held := DeltaRow(w, s, 5, 1), GrantRow(w, s, 5, Held, 2, 2);
    var expired := GrantRow(w, s, 5, Expired, 2, 3);
    assert [] + [a] == [a] && [] + [delta] == [delta] && [] + [held] == [held];
    ExecSnoc([], a, Db([], []));
    ExecSnoc([a], b, Db([delta], []));
    assert [held][0 := expired] == [expired];
    ExecSnoc([a] + [b], c, Db([delta], [held]));
    ExecSnoc([a] + [b] + [c], d, Db([delta], [expired]));
    assert run[..1] == [a] && run[..3] == [a] + [b] + [c] && run == [a] + [b] + [c] + [d];
    NoStepsYet(w, s, 4);
    StampsSnoc([], a, w, s, 4);
    StampsSnoc([a], b, w, s, 4);
    StampsSnoc([a] + [b], c, w, s, 4);
    StampsSnoc([a] + [b] + [c], d, w, s, 4);
  }

  /** Were the reaper running, a hold that expires could raise a false alarm too: every stamp
      its own and in order, every grant within its headroom. The load harness turns the reaper
      off, so nothing expires in the runs it audits. */
  lemma {:induction false} ExpiryWouldFalselyAlarm(w: string, s: string)
    ensures Separate(ExpiryRun(w, s)) && Exec(ExpiryRun(w, s)).Some?
    ensures EveryGrantHadHeadroom(ExpiryRun(w, s))
    ensures Report(ExpiryRun(w, s)) != []
  {
    ExpiryTables(w, s);
    ExpiryHadHeadroom(w, s);
    RisingStampsAreSeparate(ExpiryRun(w, s));
    OverStampedIsReported(ExpiryRun(w, s), 3);
  }

  lemma {:induction false} ExpiryHadHeadroom(w: string, s: string)
    ensures EveryGrantHadHeadroom(ExpiryRun(w, s))
  {
    forall k | 0 <= k < |ExpiryRun(w, s)| ensures HadHeadroom(ExpiryRun(w, s), k) {
      if k == 1 || k == 3 {
        ExpiryTables(w, s);
        OneDelta(DeltaRow(w, s, 5, 1));
        OneHold(GrantRow(w, s, 5, Expired, 2, 3), Held);
      }
    }
  }

  // ---- what `Verify` returns -----------------------------------------------

  lemma {:induction false} SameRowsSameJudgement(
    deltas: seq<DeltaRow>, deltas': seq<DeltaRow>, grants: seq<GrantRow>, grants': seq<GrantRow>, g: GrantRow)
    requires multiset(deltas) == multiset(deltas') && multiset(grants) == multiset(grants')
    ensures Judged(deltas, grants, g) == Judged(deltas', grants', g)
  {
    var w, s, at := g.warehouse, g.sku, g.createdAt;
    AsWeights(Db(deltas, grants), w, s, at);
    AsWeights(Db(deltas', grants'), w, s, at);
    SumByPermutation(deltas, deltas', DeltaAt(w, s, at));
    SumByPermutation(grants, grants', GrantAt(w, s, at));
  }

  /** The audit of the tables a run leaves, read in any row order, gives the report of the run,
      and so the verdict by its stamps. */
  lemma {:induction false} AuditIsTheReport(
    run: seq<Stamped>, deltas: seq<DeltaRow>, grants: seq<GrantRow>, violations: seq<Violation>)
    requires Exec(run).Some?
    requires multiset(deltas) == multiset(Exec(run).value.ledger) && multiset(grants) == multiset(Exec(run).value.holds)
    requires multiset(violations) == multiset(FlatMap(grants, Judge(deltas, grants)))
    ensures multiset(violations) == multiset(Report(run)) && (violations == [] <==> Report(run) == [])
    ensures violations == [] <==> forall k :: 0 <= k < |run| ==> !OverStamped(run, k)
  {
    RowOrderIsFree(run, deltas, grants);
    VerdictByStamps(run);
    SameBagSameMembers(violations, Report(run));
  }

  lemma {:induction false} RowOrderIsFree(run: seq<Stamped>, deltas: seq<DeltaRow>, grants: seq<GrantRow>)
    requires Exec(run).Some?
    requires multiset(deltas) == multiset(Exec(run).value.ledger) && multiset(grants) == multiset(Exec(run).value.holds)
    ensures multiset(FlatMap(grants, Judge(deltas, grants))) == multiset(Report(run))
  {
    var db := Exec(run).value;
    forall g ensures Judge(deltas, grants)(g) == Judge(db.ledger, db.holds)(g) {
      SameRowsSameJudgement(deltas, db.ledger, grants, db.holds, g);
    }
    FlatMapAgree(grants, Judge(deltas, grants), Judge(db.ledger, db.holds));
    FlatMapPermutes(grants, db.holds, Judge(db.ledger, db.holds));
  }

  // ---- what a violation says -----------------------------------------------

  /** What the report says of a step: nothing, unless it is a grant that by the stamps takes its
      scope past its stock; then the scope, what stands, the instant, and the stock. */
  function SaidOf(run: seq<Stamped>): Stamped -> seq<Violation> {
    (step: Stamped) =>
      match step.change
      case Grant(w, s, _) =>
        if Standing(run, w, s, step.at) > Stocked(run, w, s, step.at) then
          [Violation(w + "/" + s, Standing(run, w, s, step.at), step.at, Stocked(run, w, s, step.at))]
        else []
      case _ => []
  }

  /** The whole report, grant by grant in commit order, from the steps and their stamps alone. */
  lemma {:induction false} ReportInFull(run: seq<Stamped>)
    requires Exec(run).Some?
    ensures Report(run) == FlatMap(Grants(run), SaidOf(run))
  {
    var db := Exec(run).value;
    RowsAreGrants(run);
    forall i | 0 <= i < |db.holds| ensures Judge(db.ledger, db.holds)(db.holds[i]) == SaidOf(run)(Grants(run)[i]) {
      assert RowOfStep(db.holds[i], Grants(run)[i]);
      FiguresByStamps(run, db.holds[i].warehouse, db.holds[i].sku, db.holds[i].createdAt);
    }
    FlatMapPairwise(db.holds, Grants(run), Judge(db.ledger, db.holds), SaidOf(run));
  }

  /** Step `k` is what `v` reports. */
  ghost predicate Reports(run: seq<Stamped>, k: nat, v: Violation) {
    && k < |run| && run[k].change.Grant?
    && var w, s, at := run[k].change.warehouse, run[k].change.sku, run[k].at;
       && v.scope == w + "/" + s && v.at == at
       && v.active == Standing(run, w, s, at) && v.onHand == Stocked(run, w, s, at)
       && v.active > v.onHand
  }

  /** Every violation the audit returns for the tables of a run names the scope and the instant of
      a grant, with what then stood and the stock it stood against; and every over-stamped grant
      is so reported. */
  lemma {:induction false} ViolationsSayWhatStood(
    run: seq<Stamped>, deltas: seq<DeltaRow>, grants: seq<GrantRow>, violations: seq<Violation>)
    requires Exec(run).Some?
    requires multiset(deltas) == multiset(Exec(run).value.ledger) && multiset(grants) == multiset(Exec(run).value.holds)
    requires multiset(violations) == multiset(FlatMap(grants, Judge(deltas, grants)))
    ensures multiset(violations) == multiset(FlatMap(Grants(run), SaidOf(run)))
    ensures forall v :: v in violations ==> exists k :: Reports(run, k, v)
    ensures forall k :: 0 <= k < |run| && OverStamped(run, k) ==> exists v :: v in violations && Reports(run, k, v)
  {
    RowOrderIsFree(run, deltas, grants);
    ReportInFull(run);
    SameBagSameMembers(violations, Report(run));
    forall v | v in violations ensures exists k :: Reports(run, k, v) { SaidOfAStep(run, v); }
    forall k | 0 <= k < |run| && OverStamped(run, k) ensures exists v :: v in violations && Reports(run, k, v) {
      StepIsSaid(run, k);
    }
  }

  lemma {:induction false} SaidOfAStep(run: seq<Stamped>, v: Violation)
    requires v in FlatMap(Grants(run), SaidOf(run))
    ensures exists k :: Reports(run, k, v)
  {
    FlatMapMember(Grants(run), SaidOf(run), v);
    var step :| step in Grants(run) && v in SaidOf(run)(step);
    var k :| 0 <= k < |run| && run[k] == step;
    assert Reports(run, k, v);
  }

  lemma {:induction false} StepIsSaid(run: seq<Stamped>, k: nat)
    requires OverStamped(run, k)
    ensures exists v :: v in FlatMap(Grants(run), SaidOf(run)) && Reports(run, k, v)
  {
    var v := SaidOf(run)(run[k])[0];
    assert run[k] in Grants(run) && v in SaidOf(run)(run[k]);
    FlatMapMember(Grants(run), SaidOf(run), v);
    assert Reports(run, k, v);
  }
}
