/** The load harness's run (`runLoad`): wall-clock pacing, the pending-cancel queue emptied
    in place, and the drain, all sending through the pinned client of `SlotGate`.

    Clock readings are parameters: any integers (ms), in any order. Which answers are
    accepted, and when their cancellations fall due, is the environment's choice. */
module LoadRun {
  import opened Sequences
  import Slot = SlotGate

  datatype Config = Config(limit: nat, ingestIntervalMs: real, adjustIntervalMs: int, runEnd: int)

  datatype Pending = Pending(ref: nat, dueAt: int)

  datatype Phase = Pacing | Draining | Stopped

  /** The variables of the run. `orders` and `adjusts` log the clock at each send; `raised` the
      references whose answers asked for a cancellation. */
  datatype Load = Load(
    gate: Slot.State, phase: Phase,
    nextIngest: real, nextAdjust: int, orders: seq<int>, adjusts: seq<int>,
    pending: seq<Pending>, cancelSentAt: map<nat, int>, dropped: seq<nat>, raised: set<nat>)

  function Initial(now: int): Load {
    Load(Slot.INITIAL, Pacing, now as real, now, [], [], [], map[], [], {})
  }

  // ---- what one segment of the code does ---------------------------------

  function SendOrder(cfg: Config, s: Load, now: int): Load {
    s.(gate := Slot.Tested(cfg.limit, s.gate, Slot.Ingest(|s.orders|)), orders := s.orders + [now],
       nextIngest := now as real + cfg.ingestIntervalMs)
  }

  function SendAdjust(cfg: Config, s: Load, now: int): Load {
    s.(gate := Slot.Tested(cfg.limit, s.gate, Slot.Adjust(|s.adjusts|)), adjusts := s.adjusts + [now],
       nextAdjust := now + cfg.adjustIntervalMs)
  }

  function SendCancel(cfg: Config, s: Load, ref: nat, now: int): Load {
    s.(gate := Slot.Tested(cfg.limit, s.gate, Slot.Cancel(ref)), cancelSentAt := s.cancelSentAt[ref := now])
  }

  function Drop(s: Load, ref: nat): Load { s.(dropped := s.dropped + [ref]) }

  predicate Leaves(cfg: Config, now: int, c: Pending) { c.dueAt <= now || c.dueAt >= cfg.runEnd }

  /** One entry of the pacing loop's sweep: due now, never due in this window, or still waiting. */
  function Swept(cfg: Config, s: Load, c: Pending, now: int): Load {
    if c.dueAt <= now then SendCancel(cfg, s, c.ref, now)
    else if c.dueAt >= cfg.runEnd then Drop(s, c.ref)
    else s
  }

  function SweptAll(cfg: Config, s: Load, cs: seq<Pending>, now: int): Load {
    if cs == [] then s
    else Swept(cfg, SweptAll(cfg, s, cs[..|cs| - 1], now), cs[|cs| - 1], now)
  }

  function Stays(cfg: Config, now: int): Pending -> bool { (c: Pending) => !Leaves(cfg, now, c) }

  function Paced(cfg: Config, s: Load, now: int): Load {
    var s1 := if now as real >= s.nextIngest then SendOrder(cfg, s, now) else s;
    if now >= s1.nextAdjust then SendAdjust(cfg, s1, now) else s1
  }

  /** One turn of the pacing loop, up to its sleep. */
  function Ticked(cfg: Config, s: Load, now: int): Load {
    var s2 := Paced(cfg, s, now);
    SweptAll(cfg, s2, s2.pending, now).(pending := Filter(s2.pending, Stays(cfg, now)))
  }

  /** One entry of a drain pass: send what is due, drop the rest. */
  function Drained(cfg: Config, s: Load, c: Pending, now: int): Load {
    if c.dueAt <= now then SendCancel(cfg, s, c.ref, now) else Drop(s, c.ref)
  }

  function DrainedAll(cfg: Config, s: Load, cs: seq<Pending>, clock: seq<int>): Load
    requires |clock| == |cs|
  {
    if cs == [] then s
    else Drained(cfg, DrainedAll(cfg, s, cs[..|cs| - 1], clock[..|cs| - 1]), cs[|cs| - 1], clock[|cs| - 1])
  }

  /** One drain pass, up to its sleep or its `break`. */
  function DrainPass(cfg: Config, s: Load, clock: seq<int>): Load
    requires |clock| == |s.pending|
  {
    var t := DrainedAll(cfg, s, s.pending, clock).(pending := []);
    if t.gate.inFlight == 0 then t.(phase := Stopped) else t
  }

  // ---- the invariant of the whole run ------------------------------------

  ghost function Refs(cs: seq<Pending>): set<nat> { set c | c in cs :: c.ref }

  ghost predicate UniqueRefs(cs: seq<Pending>) {
    forall i, j :: 0 <= i < j < |cs| ==> cs[i].ref != cs[j].ref
  }

  /** Every raised cancellation is in exactly one place: sent, dropped or pending. */
  ghost predicate Conserved(s: Load) {
    && UniqueRefs(s.pending) && NoDuplicates(s.dropped)
    && s.cancelSentAt.Keys !! ToSet(s.dropped) !! Refs(s.pending)
    && s.raised == s.cancelSentAt.Keys + ToSet(s.dropped) + Refs(s.pending)
  }

  /** The calls of the pinned client are exactly the sends of the run. */
  ghost predicate JobsAreSends(s: Load) {
    forall job :: Slot.IsStarted(s.gate, job) <==>
      match job
      case Ingest(ref) => ref < |s.orders|
      case Adjust(index) => index < |s.adjusts|
      case Cancel(ref) => ref in s.cancelSentAt
  }

  ghost predicate Spaced(orders: seq<int>, interval: real) {
    forall i :: 0 <= i && i + 1 < |orders| ==> orders[i + 1] as real >= orders[i] as real + interval
  }

  /** Orders are at least one interval apart, and the next one is an interval away; adjustments
      likewise. */
  ghost predicate PacedApart(cfg: Config, s: Load) {
    && Spaced(s.orders, cfg.ingestIntervalMs)
    && (s.orders != [] ==> s.nextIngest == s.orders[|s.orders| - 1] as real + cfg.ingestIntervalMs)
    && Spaced(s.adjusts, cfg.adjustIntervalMs as real)
    && (s.adjusts != [] ==> s.nextAdjust == s.adjusts[|s.adjusts| - 1] + cfg.adjustIntervalMs)
  }

  ghost predicate Inv(cfg: Config, s: Load) {
    && Slot.Inv(cfg.limit, s.gate)
    && Conserved(s)
    && JobsAreSends(s)
    && PacedApart(cfg, s)
  }

  // ---- every segment keeps it --------------------------------------------

  lemma {:induction false} SendOrderKeepsInv(cfg: Config, s: Load, now: int)
    requires Inv(cfg, s) && now as real >= s.nextIngest
    ensures Inv(cfg, SendOrder(cfg, s, now))
  {
    Slot.TestedKeepsInv(cfg.limit, s.gate, Slot.Ingest(|s.orders|));
  }

  lemma {:induction false} SendAdjustKeepsInv(cfg: Config, s: Load, now: int)
    requires Inv(cfg, s) && now >= s.nextAdjust
    ensures Inv(cfg, SendAdjust(cfg, s, now))
  {
    Slot.TestedKeepsInv(cfg.limit, s.gate, Slot.Adjust(|s.adjusts|));
  }

  lemma {:induction false} PacedKeepsInv(cfg: Config, s: Load, now: int)
    requires Inv(cfg, s)
    ensures Inv(cfg, Paced(cfg, s, now))
  {
    var s1 := if now as real >= s.nextIngest then SendOrder(cfg, s, now) else s;
    if now as real >= s.nextIngest { SendOrderKeepsInv(cfg, s, now); }
    if now >= s1.nextAdjust { SendAdjustKeepsInv(cfg, s1, now); }
  }

  lemma {:induction false} TakeOut(a: seq<Pending>, c: Pending, b: seq<Pending>)
    requires UniqueRefs(a + [c] + b)
    ensures UniqueRefs(a + b) && c.ref !in Refs(a + b)
    ensures Refs(a + [c] + b) == Refs(a + b) + {c.ref}
  {
    var whole := a + [c] + b;
    assert whole[|a|] == c;
    forall i | 0 <= i < |a + b| ensures (a + b)[i] == whole[if i < |a| then i else i + 1] {}
    forall x ensures x in whole <==> x in a + b || x == c {}
  }

  /** Sending one queued cancellation moves its reference from the queue to the sent ones. */
  lemma {:induction false} SendMoves(cfg: Config, s: Load, a: seq<Pending>, c: Pending, b: seq<Pending>, now: int)
    requires Inv(cfg, s) && s.pending == a + [c] + b
    ensures c.ref !in s.cancelSentAt
    ensures Inv(cfg, SendCancel(cfg, s, c.ref, now).(pending := a + b))
  {
    TakeOut(a, c, b);
    Slot.TestedKeepsInv(cfg.limit, s.gate, Slot.Cancel(c.ref));
    var t := SendCancel(cfg, s, c.ref, now).(pending := a + b);
    assert t.cancelSentAt.Keys == s.cancelSentAt.Keys + {c.ref};
    assert Conserved(t);
  }

  lemma {:induction false} DropMoves(cfg: Config, s: Load, a: seq<Pending>, c: Pending, b: seq<Pending>)
    requires Inv(cfg, s) && s.pending == a + [c] + b
    ensures Inv(cfg, Drop(s, c.ref).(pending := a + b))
  {
    TakeOut(a, c, b);
    var t := Drop(s, c.ref).(pending := a + b);
    assert ToSet(t.dropped) == ToSet(s.dropped) + {c.ref};
    assert c.ref !in ToSet(s.dropped);
    assert Conserved(t);
  }

  /** The sweep after `k` entries, seen with the queue it is about to leave behind. */
  ghost function SweepView(cfg: Config, s: Load, k: nat, now: int): Load
    requires k <= |s.pending|
  {
    SweptAll(cfg, s, s.pending[..k], now)
      .(pending := Filter(s.pending[..k], Stays(cfg, now)) + s.pending[k..])
  }

  lemma {:induction false} SweepOneMore(cfg: Config, s: Load, k: nat, now: int)
    requires k < |s.pending|
    ensures var a, c, b := Filter(s.pending[..k], Stays(cfg, now)), s.pending[k], s.pending[k + 1..];
            && SweepView(cfg, s, k, now).pending == a + [c] + b
            && SweepView(cfg, s, k + 1, now) == Swept(cfg, SweepView(cfg, s, k, now), c, now)
                 .(pending := if Leaves(cfg, now, c) then a + b else a + [c] + b)
  {
    var a, c, b := Filter(s.pending[..k], Stays(cfg, now)), s.pending[k], s.pending[k + 1..];
    assert s.pending[..k + 1] == s.pending[..k] + [c] && s.pending[..k + 1][..k] == s.pending[..k];
    assert s.pending[k..] == [c] + b && a + ([c] + b) == a + [c] + b;
    FilterSnoc(s.pending[..k], c, Stays(cfg, now));
    assert Filter(s.pending[..k + 1], Stays(cfg, now)) == if Leaves(cfg, now, c) then a else a + [c];
  }

  lemma {:induction false} SweepStep(cfg: Config, s: Load, k: nat, now: int)
    requires k < |s.pending| && Inv(cfg, SweepView(cfg, s, k, now))
    ensures s.pending[k].dueAt <= now ==>
              s.pending[k].ref !in SweptAll(cfg, s, s.pending[..k], now).cancelSentAt
    ensures Inv(cfg, SweepView(cfg, s, k + 1, now))
  {
    var v, c := SweepView(cfg, s, k, now), s.pending[k];
    var a, b := Filter(s.pending[..k], Stays(cfg, now)), s.pending[k + 1..];
    SweepOneMore(cfg, s, k, now);
    if c.dueAt <= now {
      SendMoves(cfg, v, a, c, b, now);
    } else if c.dueAt >= cfg.runEnd {
      DropMoves(cfg, v, a, c, b);
    } else {
      assert SweepView(cfg, s, k + 1, now) == v;
    }
  }

  lemma {:induction false} SweepKeepsInv(cfg: Config, s: Load, k: nat, now: int)
    requires Inv(cfg, s) && k <= |s.pending|
    ensures Inv(cfg, SweepView(cfg, s, k, now))
  {
    if k == 0 {
      assert SweepView(cfg, s, 0, now) == s.(pending := s.pending);
    } else {
      SweepKeepsInv(cfg, s, k - 1, now);
      SweepStep(cfg, s, k - 1, now);
    }
  }

  /** Before its `k`-th entry the sweep may still send that entry's cancellation. */
  lemma {:induction false} SweepReady(cfg: Config, s: Load, k: nat, now: int)
    requires Inv(cfg, s) && k < |s.pending|
    ensures var t := SweptAll(cfg, s, s.pending[..k], now);
            s.pending[k].dueAt <= now ==> !Slot.IsStarted(t.gate, Slot.Cancel(s.pending[k].ref))
    ensures SweptAll(cfg, s, s.pending[..k + 1], now)
         == Swept(cfg, SweptAll(cfg, s, s.pending[..k], now), s.pending[k], now)
  {
    SweepKeepsInv(cfg, s, k, now);
    SweepStep(cfg, s, k, now);
    assert s.pending[..k + 1][..k] == s.pending[..k];
    assert JobsAreSends(SweepView(cfg, s, k, now));
  }

  lemma {:induction false} SweepEndKeepsInv(cfg: Config, s: Load, now: int)
    requires Inv(cfg, s)
    ensures Inv(cfg, SweptAll(cfg, s, s.pending, now).(pending := Filter(s.pending, Stays(cfg, now))))
  {
    SweepKeepsInv(cfg, s, |s.pending|, now);
    assert s.pending[..|s.pending|] == s.pending;
    assert Filter(s.pending, Stays(cfg, now)) + [] == Filter(s.pending, Stays(cfg, now));
  }

  lemma {:induction false} TickKeepsInv(cfg: Config, s: Load, now: int)
    requires Inv(cfg, s)
    ensures Inv(cfg, Ticked(cfg, s, now))
  {
    PacedKeepsInv(cfg, s, now);
    SweepEndKeepsInv(cfg, Paced(cfg, s, now), now);
  }

  ghost function DrainView(cfg: Config, s: Load, k: nat, clock: seq<int>): Load
    requires k <= |s.pending| == |clock|
  {
    DrainedAll(cfg, s, s.pending[..k], clock[..k]).(pending := s.pending[k..])
  }

  lemma {:induction false} DrainStep(cfg: Config, s: Load, k: nat, clock: seq<int>)
    requires k < |s.pending| == |clock| && Inv(cfg, DrainView(cfg, s, k, clock))
    ensures s.pending[k].ref !in DrainedAll(cfg, s, s.pending[..k], clock[..k]).cancelSentAt
    ensures Inv(cfg, DrainView(cfg, s, k + 1, clock))
  {
    var v, c, b := DrainView(cfg, s, k, clock), s.pending[k], s.pending[k + 1..];
    assert s.pending[..k + 1][..k] == s.pending[..k] && clock[..k + 1][..k] == clock[..k];
    assert v.pending == [] + [c] + b && [] + b == b;
    SendMoves(cfg, v, [], c, b, clock[k]);
    if c.dueAt > clock[k] { DropMoves(cfg, v, [], c, b); }
    assert DrainView(cfg, s, k + 1, clock) == Drained(cfg, v, c, clock[k]).(pending := b);
  }

  lemma {:induction false} DrainKeepsInv(cfg: Config, s: Load, k: nat, clock: seq<int>)
    requires Inv(cfg, s) && k <= |s.pending| == |clock|
    ensures Inv(cfg, DrainView(cfg, s, k, clock))
  {
    if k == 0 {
      assert DrainView(cfg, s, 0, clock) == s.(pending := s.pending);
    } else {
      DrainKeepsInv(cfg, s, k - 1, clock);
      DrainStep(cfg, s, k - 1, clock);
    }
  }

  /** Before its `k`-th entry the pass may still send that entry's cancellation. */
  lemma {:induction false} DrainReady(cfg: Config, s: Load, k: nat, clock: seq<int>)
    requires Inv(cfg, s) && k < |s.pending| == |clock|
    ensures var t := DrainedAll(cfg, s, s.pending[..k], clock[..k]);
            && !Slot.IsStarted(t.gate, Slot.Cancel(s.pending[k].ref))
            && DrainedAll(cfg, s, s.pending[..k + 1], clock[..k + 1]) == Drained(cfg, t, s.pending[k], clock[k])
  {
    DrainKeepsInv(cfg, s, k, clock);
    DrainStep(cfg, s, k, clock);
    assert s.pending[..k + 1][..k] == s.pending[..k] && clock[..k + 1][..k] == clock[..k];
    assert JobsAreSends(DrainView(cfg, s, k, clock));
  }

  lemma {:induction false} PassKeepsInv(cfg: Config, s: Load, clock: seq<int>)
    requires Inv(cfg, s) && |clock| == |s.pending|
    ensures Inv(cfg, DrainPass(cfg, s, clock))
  {
    DrainKeepsInv(cfg, s, |clock|, clock);
    assert s.pending[..|clock|] == s.pending && clock[..|clock|] == clock;
    var t := DrainView(cfg, s, |clock|, clock);
    assert DrainPass(cfg, s, clock) == t || DrainPass(cfg, s, clock) == t.(phase := Stopped);
  }

  lemma {:induction false} RaiseKeepsInv(cfg: Config, s: Load, ref: nat, dueAt: int)
    requires Inv(cfg, s) && ref !in s.raised
    ensures Inv(cfg, s.(pending := s.pending + [Pending(ref, dueAt)], raised := s.raised + {ref}))
  {
    var c := Pending(ref, dueAt);
    var t := s.(pending := s.pending + [c], raised := s.raised + {ref});
    forall x ensures x in t.pending <==> x in s.pending || x == c {}
    assert Refs(t.pending) == Refs(s.pending) + {ref};
    forall i | 0 <= i < |s.pending| ensures s.pending[i].ref != ref { assert s.pending[i].ref in Refs(s.pending); }
    assert Conserved(t);
  }

  // ---- runs --------------------------------------------------------------

  datatype Event =
    | Tick(now: int)                    // one turn of the pacing loop
    | EndPacing(now: int)               // its clock test fails
    | Pass(clock: seq<int>)             // one turn of the drain loop, one reading per entry
    | GiveUp                            // the drain's deadline passed
    | Raise(ref: nat, dueAt: int)       // an accepted order asks for a cancellation
    | Wake(job: Slot.Job)               // a woken call runs its test again
    | Settle(job: Slot.Job)             // a call's work ended

  ghost predicate Enabled(cfg: Config, s: Load, e: Event) {
    match e
    case Tick(_) => s.phase == Pacing
    case EndPacing(now) => s.phase == Pacing && now >= cfg.runEnd
    case Pass(clock) => s.phase == Draining && |clock| == |s.pending|
    case GiveUp => s.phase == Draining
    case Raise(ref, _) => Slot.Ingest(ref) in s.gate.running && ref !in s.raised
    case Wake(job) => job in s.gate.woken
    case Settle(job) => job in s.gate.running && s.gate.inFlight > 0
  }

  ghost function Next(cfg: Config, s: Load, e: Event): Load
    requires Enabled(cfg, s, e)
  {
    match e
    case Tick(now) => Ticked(cfg, s, now)
    case EndPacing(_) => s.(phase := Draining)
    case Pass(clock) => DrainPass(cfg, s, clock)
    case GiveUp => s.(phase := Stopped)
    case Raise(ref, dueAt) => s.(pending := s.pending + [Pending(ref, dueAt)], raised := s.raised + {ref})
    case Wake(job) => s.(gate := Slot.Tested(cfg.limit, s.gate, job))
    case Settle(job) => s.(gate := Slot.Released(s.gate, job))
  }

  ghost function Exec(cfg: Config, start: int, events: seq<Event>): Option<Load> {
    if events == [] then Some(Initial(start))
    else match Exec(cfg, start, events[..|events| - 1])
      case None => None
      case Some(s) =>
        if Enabled(cfg, s, events[|events| - 1]) then Some(Next(cfg, s, events[|events| - 1])) else None
  }

  lemma {:induction false} EventKeepsInv(cfg: Config, s: Load, e: Event)
    requires Inv(cfg, s) && Enabled(cfg, s, e)
    ensures Inv(cfg, Next(cfg, s, e))
  {
    match e
    case Tick(now) => TickKeepsInv(cfg, s, now);
    case EndPacing(_) =>
    case Pass(clock) => PassKeepsInv(cfg, s, clock);
    case GiveUp =>
    case Raise(ref, dueAt) => RaiseKeepsInv(cfg, s, ref, dueAt);
    case Wake(job) => Slot.TestedKeepsInv(cfg.limit, s.gate, job);
    case Settle(job) => Slot.ReleasedKeepsInv(cfg.limit, s.gate, job);
  }

  /** Whatever the clock reads and however the answers interleave, no cancellation is lost,
      sent twice, or both sent and dropped; and the client carries exactly the run's sends. */
  lemma {:induction false} RunsConserve(cfg: Config, start: int, events: seq<Event>)
    requires Exec(cfg, start, events).Some?
    ensures Inv(cfg, Exec(cfg, start, events).value)
  {
    if events != [] {
      RunsConserve(cfg, start, events[..|events| - 1]);
      EventKeepsInv(cfg, Exec(cfg, start, events[..|events| - 1]).value, events[|events| - 1]);
    }
  }

  // ---- what a turn decides -------------------------------------------------

  /** What became of the queue in a pacing turn at `now`: what was due is sent, then and there;
      what falls due at the run's end or later is dropped; the rest stays, in order. Nothing
      else is sent or dropped. */
  ghost predicate Decided(cfg: Config, s: Load, t: Load, now: int) {
    && (forall c :: c in s.pending && c.dueAt <= now ==>
          c.ref in t.cancelSentAt && t.cancelSentAt[c.ref] == now && c.ref !in t.dropped && c !in t.pending)
    && (forall c :: c in s.pending && c.dueAt > now && c.dueAt >= cfg.runEnd ==>
          c.ref in t.dropped && c.ref !in t.cancelSentAt && c !in t.pending)
    && (forall c :: c in s.pending && now < c.dueAt < cfg.runEnd ==>
          c in t.pending && c.ref !in t.cancelSentAt && c.ref !in t.dropped)
    && OnlyOfTheQueue(s, t)
  }

  ghost predicate OnlyOfTheQueue(s: Load, t: Load) {
    && (forall ref :: ref in s.cancelSentAt ==> ref in t.cancelSentAt && t.cancelSentAt[ref] == s.cancelSentAt[ref])
    && (forall ref :: ref in t.cancelSentAt ==> ref in s.cancelSentAt || ref in Refs(s.pending))
    && s.dropped <= t.dropped
    && (forall ref :: ref in t.dropped ==> ref in s.dropped || ref in Refs(s.pending))
    && (forall c :: c in t.pending ==> c in s.pending)
  }

  function DueNow(now: int): Pending -> bool { (c: Pending) => c.dueAt <= now }

  function NeverDue(cfg: Config, now: int): Pending -> bool { (c: Pending) => c.dueAt > now && c.dueAt >= cfg.runEnd }

  function RefOf(c: Pending): nat { c.ref }

  ghost function DueRefs(cs: seq<Pending>, now: int): set<nat> { set c | c in cs && c.dueAt <= now :: c.ref }

  /** The sends and drops of a walk over `cs`, all at `now`. */
  ghost predicate WalkSums(cfg: Config, s: Load, t: Load, cs: seq<Pending>, now: int) {
    && t.cancelSentAt.Keys == s.cancelSentAt.Keys + DueRefs(cs, now)
    && (forall ref :: ref in t.cancelSentAt ==>
          t.cancelSentAt[ref] == if ref in DueRefs(cs, now) then now else s.cancelSentAt[ref])
    && t.dropped == s.dropped + Map(Filter(cs, NeverDue(cfg, now)), RefOf)
  }

  lemma {:induction false} WalkAddsUp(cfg: Config, s: Load, cs: seq<Pending>, now: int)
    ensures WalkSums(cfg, s, SweptAll(cfg, s, cs, now), cs, now)
  {
    if cs == [] {
      assert DueRefs(cs, now) == {};
      assert s.dropped + [] == s.dropped;
    } else {
      var front, c := cs[..|cs| - 1], cs[|cs| - 1];
      WalkAddsUp(cfg, s, front, now);
      FrontAndLast(cs);
      DueRefsSnoc(front, c, now);
      FilterSnoc(front, c, NeverDue(cfg, now));
      DropsSnoc(s.dropped, Filter(front, NeverDue(cfg, now)), c);
    }
  }

  lemma {:induction false} DueRefsSnoc(cs: seq<Pending>, c: Pending, now: int)
    ensures DueRefs(cs + [c], now) == DueRefs(cs, now) + (if c.dueAt <= now then {c.ref} else {})
  {
    forall x ensures x in cs + [c] <==> x in cs || x == c {}
  }

  lemma {:induction false} DropsSnoc(dropped: seq<nat>, cs: seq<Pending>, c: Pending)
    ensures dropped + Map(cs + [c], RefOf) == dropped + Map(cs, RefOf) + [c.ref]
  {
    assert Map(cs + [c], RefOf) == Map(cs, RefOf) + [c.ref];
  }

  lemma {:induction false} MapMembers(cs: seq<Pending>, ref: nat)
    ensures ref in Map(cs, RefOf) <==> exists c :: c in cs && c.ref == ref
  {
    if ref in Map(cs, RefOf) {
      var i :| 0 <= i < |cs| && Map(cs, RefOf)[i] == ref;
      assert cs[i] in cs && cs[i].ref == ref;
    }
    forall c | c in cs && c.ref == ref ensures ref in Map(cs, RefOf) {
      var i :| 0 <= i < |cs| && cs[i] == c;
      assert Map(cs, RefOf)[i] == ref;
    }
  }

  lemma {:induction false} SameRefSameEntry(cs: seq<Pending>, c: Pending, d: Pending)
    requires UniqueRefs(cs) && c in cs && d in cs && c.ref == d.ref
    ensures c == d
  {
    var i :| 0 <= i < |cs| && cs[i] == c;
    var j :| 0 <= j < |cs| && cs[j] == d;
  }

  /** The sums decide every entry, since no reference is queued twice. */
  lemma {:induction false} SumsDecide(cfg: Config, s: Load, t: Load, now: int)
    requires Conserved(s) && WalkSums(cfg, s, t, s.pending, now) && t.pending == Filter(s.pending, Stays(cfg, now))
    ensures Decided(cfg, s, t, now)
  {
    forall c | c in s.pending
      ensures c.ref in t.cancelSentAt <==> c.dueAt <= now
      ensures c.ref in t.dropped <==> NeverDue(cfg, now)(c)
      ensures c.dueAt <= now ==> t.cancelSentAt[c.ref] == now
    {
      EntryDecided(cfg, s, t, c, now);
    }
    forall ref | ref in t.dropped ensures ref in s.dropped || ref in Refs(s.pending) {
      MapMembers(Filter(s.pending, NeverDue(cfg, now)), ref);
    }
  }

  lemma {:induction false} EntryDecided(cfg: Config, s: Load, t: Load, c: Pending, now: int)
    requires Conserved(s) && WalkSums(cfg, s, t, s.pending, now) && c in s.pending
    ensures c.ref in t.cancelSentAt <==> c.dueAt <= now
    ensures c.ref in t.dropped <==> NeverDue(cfg, now)(c)
    ensures c.dueAt <= now ==> t.cancelSentAt[c.ref] == now
  {
    assert c.ref in Refs(s.pending);
    assert c.ref !in s.cancelSentAt.Keys && c.ref !in ToSet(s.dropped);
    if c.ref in DueRefs(s.pending, now) {
      var d :| d in s.pending && d.dueAt <= now && d.ref == c.ref;
      SameRefSameEntry(s.pending, c, d);
    }
    MapMembers(Filter(s.pending, NeverDue(cfg, now)), c.ref);
    if d :| d in Filter(s.pending, NeverDue(cfg, now)) && d.ref == c.ref {
      SameRefSameEntry(s.pending, c, d);
    }
  }

  lemma {:induction false} SweepDecides(cfg: Config, s: Load, now: int)
    requires Conserved(s)
    ensures Decided(cfg, s, SweptAll(cfg, s, s.pending, now).(pending := Filter(s.pending, Stays(cfg, now))), now)
  {
    WalkAddsUp(cfg, s, s.pending, now);
    SumsDecide(cfg, s, SweptAll(cfg, s, s.pending, now).(pending := Filter(s.pending, Stays(cfg, now))), now);
  }

  /** A turn of the pacing loop sends at most one order and one adjustment, each exactly when it
      is due, and decides the queue. */
  lemma {:induction false} TurnDecides(cfg: Config, s: Load, now: int)
    requires Inv(cfg, s) && s.phase == Pacing
    ensures var t := Next(cfg, s, Tick(now));
            && Decided(cfg, s, t, now)
            && t.orders == (if now as real >= s.nextIngest then s.orders + [now] else s.orders)
            && t.adjusts == (if now >= s.nextAdjust then s.adjusts + [now] else s.adjusts)
            && t.raised == s.raised && t.phase == Pacing
  {
    PacedKeepsInv(cfg, s, now);
    SweepDecides(cfg, Paced(cfg, s, now), now);
    WalkKeepsTheRest(cfg, Paced(cfg, s, now), Paced(cfg, s, now).pending, now);
  }

  lemma {:induction false} WalkKeepsTheRest(cfg: Config, s: Load, cs: seq<Pending>, now: int)
    ensures var t := SweptAll(cfg, s, cs, now);
            && t.orders == s.orders && t.adjusts == s.adjusts && t.raised == s.raised && t.phase == s.phase
            && t.nextIngest == s.nextIngest && t.nextAdjust == s.nextAdjust
  {
    if cs != [] { WalkKeepsTheRest(cfg, s, cs[..|cs| - 1], now); }
  }

  /** With positive intervals a turn leaves no order and no adjustment due. */
  lemma {:induction false} TurnLeavesNothingDue(cfg: Config, s: Load, now: int)
    requires Inv(cfg, s) && s.phase == Pacing && cfg.ingestIntervalMs > 0.0 && cfg.adjustIntervalMs > 0
    ensures var t := Next(cfg, s, Tick(now)); now as real < t.nextIngest && now < t.nextAdjust
  {
    WalkKeepsTheRest(cfg, Paced(cfg, s, now), Paced(cfg, s, now).pending, now);
  }

  /** What became of the queue in a drain pass: each entry is sent if it is due by its own clock
      reading, stamped with it, and dropped otherwise; none stays. */
  ghost predicate PassDecided(s: Load, t: Load, clock: seq<int>)
    requires |clock| == |s.pending|
  {
    && (forall i :: 0 <= i < |clock| ==> EntryPassed(s.pending[i], t, clock[i]))
    && t.pending == []
    && OnlyOfTheQueue(s, t)
  }

  ghost predicate EntryPassed(c: Pending, t: Load, now: int) {
    if c.dueAt <= now then c.ref in t.cancelSentAt && t.cancelSentAt[c.ref] == now && c.ref !in t.dropped
    else c.ref in t.dropped && c.ref !in t.cancelSentAt
  }

  /** The first `k` entries decided, the others untouched. */
  ghost predicate PassedSoFar(s: Load, t: Load, k: nat, clock: seq<int>)
    requires k <= |clock| == |s.pending|
  {
    && (forall i :: 0 <= i < k ==> EntryPassed(s.pending[i], t, clock[i]))
    && (forall i :: k <= i < |clock| ==> s.pending[i].ref !in t.cancelSentAt && s.pending[i].ref !in t.dropped)
    && OnlyOfTheQueue(s, t.(pending := []))
  }

  lemma {:induction false} DrainPasses(s: Load, cfg: Config, k: nat, clock: seq<int>)
    requires Conserved(s) && k <= |clock| == |s.pending|
    ensures PassedSoFar(s, DrainedAll(cfg, s, s.pending[..k], clock[..k]), k, clock)
  {
    if k == 0 {
      assert s.pending[..0] == [] && clock[..0] == [];
      forall i | 0 <= i < |clock| ensures s.pending[i].ref !in s.cancelSentAt && s.pending[i].ref !in s.dropped {
        assert s.pending[i] in s.pending;
        assert s.pending[i].ref in Refs(s.pending);
        assert s.pending[i].ref !in s.cancelSentAt.Keys && s.pending[i].ref !in ToSet(s.dropped);
      }
    } else {
      DrainPasses(s, cfg, k - 1, clock);
      assert s.pending[..k][..k - 1] == s.pending[..k - 1] && clock[..k][..k - 1] == clock[..k - 1];
      PassOne(s, DrainedAll(cfg, s, s.pending[..k - 1], clock[..k - 1]), cfg, k - 1, clock);
    }
  }

  lemma {:induction false} PassOne(s: Load, t: Load, cfg: Config, k: nat, clock: seq<int>)
    requires Conserved(s) && k < |clock| == |s.pending| && PassedSoFar(s, t, k, clock)
    ensures PassedSoFar(s, Drained(cfg, t, s.pending[k], clock[k]), k + 1, clock)
  {
    var c := s.pending[k];
    assert c in s.pending;
    assert c.ref in Refs(s.pending);
    forall i | 0 <= i < |clock| && i != k ensures s.pending[i].ref != c.ref {}
  }

  lemma {:induction false} PassDecides(cfg: Config, s: Load, clock: seq<int>)
    requires Inv(cfg, s) && |clock| == |s.pending|
    ensures PassDecided(s, DrainPass(cfg, s, clock), clock)
  {
    DrainPasses(s, cfg, |clock|, clock);
    assert s.pending[..|clock|] == s.pending && clock[..|clock|] == clock;
  }

  // ---- when cancellations go out -------------------------------------------

  /** The run raised `ref` with this due date. */
  ghost predicate RaisedFor(events: seq<Event>, ref: nat, dueAt: int) { Raise(ref, dueAt) in events }

  /** Everything queued was raised with its due date; everything sent was due; and while the run
      is pacing, everything dropped falls due at its end or later. */
  ghost predicate Timely(cfg: Config, events: seq<Event>, s: Load) {
    && (forall c :: c in s.pending ==> RaisedFor(events, c.ref, c.dueAt))
    && (forall ref :: ref in s.cancelSentAt ==> exists due :: RaisedFor(events, ref, due) && due <= s.cancelSentAt[ref])
    && (s.phase == Pacing ==>
          forall ref :: ref in s.dropped ==> exists due :: RaisedFor(events, ref, due) && due >= cfg.runEnd)
  }

  lemma {:induction false} TimelyGrows(cfg: Config, events: seq<Event>, e: Event, s: Load)
    requires Timely(cfg, events, s)
    ensures Timely(cfg, events + [e], s)
  {
    forall ref, due | RaisedFor(events, ref, due) ensures RaisedFor(events + [e], ref, due) {}
  }

  lemma {:induction false} TickIsTimely(cfg: Config, events: seq<Event>, s: Load, now: int)
    requires Timely(cfg, events, s) && Inv(cfg, s) && s.phase == Pacing
    ensures Timely(cfg, events, Next(cfg, s, Tick(now)))
  {
    TurnDecides(cfg, s, now);
    var t := Next(cfg, s, Tick(now));
    forall ref | ref in t.cancelSentAt ensures exists due :: RaisedFor(events, ref, due) && due <= t.cancelSentAt[ref] {
      if ref !in s.cancelSentAt {
        var c :| c in s.pending && c.ref == ref;
        assert RaisedFor(events, c.ref, c.dueAt);
      }
    }
    forall ref | ref in t.dropped ensures exists due :: RaisedFor(events, ref, due) && due >= cfg.runEnd {
      if ref !in s.dropped {
        var c :| c in s.pending && c.ref == ref;
        assert RaisedFor(events, c.ref, c.dueAt);
      }
    }
  }

  lemma {:induction false} PassIsTimely(cfg: Config, events: seq<Event>, s: Load, clock: seq<int>)
    requires Timely(cfg, events, s) && Inv(cfg, s) && s.phase == Draining && |clock| == |s.pending|
    ensures Timely(cfg, events, DrainPass(cfg, s, clock))
  {
    PassDecides(cfg, s, clock);
    DrainKeepsPhase(cfg, s, clock);
    var t := DrainPass(cfg, s, clock);
    forall ref | ref in t.cancelSentAt ensures exists due :: RaisedFor(events, ref, due) && due <= t.cancelSentAt[ref] {
      if ref !in s.cancelSentAt {
        var c :| c in s.pending && c.ref == ref;
        var i :| 0 <= i < |s.pending| && s.pending[i] == c;
        assert EntryPassed(s.pending[i], t, clock[i]);
        assert RaisedFor(events, c.ref, c.dueAt);
      }
    }
  }

  lemma {:induction false} EventIsTimely(cfg: Config, events: seq<Event>, s: Load, e: Event)
    requires Timely(cfg, events, s) && Inv(cfg, s) && Enabled(cfg, s, e) && e in events
    ensures Timely(cfg, events, Next(cfg, s, e))
  {
    match e
    case Tick(now) => TickIsTimely(cfg, events, s, now);
    case Pass(clock) => PassIsTimely(cfg, events, s, clock);
    case _ =>
  }

  /** Over every run no cancellation is sent before it is due, and none is dropped while the run
      is pacing unless it falls due at the run's end or later. */
  lemma {:induction false} CancelsAreTimely(cfg: Config, start: int, events: seq<Event>)
    requires Exec(cfg, start, events).Some?
    ensures Timely(cfg, events, Exec(cfg, start, events).value)
  {
    if events != [] {
      var front, e := events[..|events| - 1], events[|events| - 1];
      CancelsAreTimely(cfg, start, front);
      RunsConserve(cfg, start, front);
      FrontAndLast(events);
      TimelyGrows(cfg, front, e, Exec(cfg, start, front).value);
      EventIsTimely(cfg, events, Exec(cfg, start, front).value, e);
    }
  }

  /** A reference is raised once, so it has one due date. */
  lemma {:induction false} RaisedOnce(cfg: Config, start: int, events: seq<Event>, ref: nat, due: int, due': int)
    requires Exec(cfg, start, events).Some? && RaisedFor(events, ref, due) && RaisedFor(events, ref, due')
    ensures due == due'
    ensures ref in Exec(cfg, start, events).value.raised
  {
    var front, e := events[..|events| - 1], events[|events| - 1];
    FrontAndLast(events);
    if RaisedFor(front, ref, due) { RaisedOnce(cfg, start, front, ref, due, due); }
    if RaisedFor(front, ref, due') { RaisedOnce(cfg, start, front, ref, due', due'); }
    if RaisedFor(front, ref, due) && RaisedFor(front, ref, due') { RaisedOnce(cfg, start, front, ref, due, due'); }
    RaisedStays(cfg, Exec(cfg, start, front).value, e);
  }

  lemma {:induction false} RaisedStays(cfg: Config, s: Load, e: Event)
    requires Enabled(cfg, s, e)
    ensures Next(cfg, s, e).raised == if e.Raise? then s.raised + {e.ref} else s.raised
  {
    match e
    case Tick(now) => WalkKeepsTheRest(cfg, Paced(cfg, s, now), Paced(cfg, s, now).pending, now);
    case Pass(clock) => PassKeepsRaised(cfg, s, s.pending, clock);
    case _ =>
  }

  lemma {:induction false} PassKeepsRaised(cfg: Config, s: Load, cs: seq<Pending>, clock: seq<int>)
    requires |clock| == |cs|
    ensures DrainedAll(cfg, s, cs, clock).raised == s.raised
  {
    if cs != [] { PassKeepsRaised(cfg, s, cs[..|cs| - 1], clock[..|cs| - 1]); }
  }

  // ---- the order of the queue ----------------------------------------------

  /** The cancellations a run raised, in order. */
  function RaisedIn(events: seq<Event>): seq<Pending> {
    if events == [] then []
    else
      var e := events[|events| - 1];
      RaisedIn(events[..|events| - 1]) + (if e.Raise? then [Pending(e.ref, e.dueAt)] else [])
  }

  function Unhandled(s: Load): Pending -> bool { (c: Pending) => c.ref !in s.cancelSentAt && c.ref !in s.dropped }

  lemma {:induction false} FilterTwice(cs: seq<Pending>, p: Pending -> bool, q: Pending -> bool, r: Pending -> bool)
    requires forall c :: c in cs ==> (r(c) <==> p(c) && q(c))
    ensures Filter(Filter(cs, p), q) == Filter(cs, r)
  {
    if cs != [] {
      var front, last := cs[..|cs| - 1], cs[|cs| - 1];
      FilterTwice(front, p, q, r);
      FrontAndLast(cs);
      if p(last) { FilterSnoc(Filter(front, p), last, q); } else { assert Filter(cs, p) == Filter(front, p); }
    }
  }

  lemma {:induction false} FilterSame(cs: seq<Pending>, p: Pending -> bool, q: Pending -> bool)
    requires forall c :: c in cs ==> (p(c) <==> q(c))
    ensures Filter(cs, p) == Filter(cs, q)
  {
    if cs != [] { FilterSame(cs[..|cs| - 1], p, q); }
  }

  lemma {:induction false} FilterNone(cs: seq<Pending>, p: Pending -> bool)
    requires forall c :: c in cs ==> !p(c)
    ensures Filter(cs, p) == []
  {
    if cs != [] { FilterNone(cs[..|cs| - 1], p); }
  }

  lemma {:induction false} TurnKeepsTheRest(cfg: Config, s: Load, now: int)
    requires Inv(cfg, s) && s.phase == Pacing
    ensures Next(cfg, s, Tick(now)).pending == Filter(s.pending, Stays(cfg, now))
  {
  }

  lemma {:induction false} LeftUnhandled(cfg: Config, s: Load, t: Load, c: Pending, now: int)
    requires Decided(cfg, s, t, now) && (c in s.pending <==> Unhandled(s)(c))
    ensures Unhandled(t)(c) <==> Unhandled(s)(c) && Stays(cfg, now)(c)
  {
  }

  lemma {:induction false} DecidedKeepsOrder(cfg: Config, all: seq<Pending>, s: Load, t: Load, now: int)
    requires Decided(cfg, s, t, now)
    requires s.pending == Filter(all, Unhandled(s)) && t.pending == Filter(s.pending, Stays(cfg, now))
    ensures t.pending == Filter(all, Unhandled(t))
  {
    forall c | c in all ensures Unhandled(t)(c) <==> Unhandled(s)(c) && Stays(cfg, now)(c) {
      LeftUnhandled(cfg, s, t, c, now);
    }
    FilterTwice(all, Unhandled(s), Stays(cfg, now), Unhandled(t));
  }

  lemma {:induction false} TickKeepsOrder(cfg: Config, all: seq<Pending>, s: Load, now: int)
    requires Inv(cfg, s) && s.phase == Pacing && s.pending == Filter(all, Unhandled(s))
    ensures var t := Next(cfg, s, Tick(now)); t.pending == Filter(all, Unhandled(t))
  {
    TurnDecides(cfg, s, now);
    TurnKeepsTheRest(cfg, s, now);
    DecidedKeepsOrder(cfg, all, s, Next(cfg, s, Tick(now)), now);
  }

  lemma {:induction false} PassKeepsOrder(cfg: Config, all: seq<Pending>, s: Load, clock: seq<int>)
    requires Inv(cfg, s) && |clock| == |s.pending| && s.pending == Filter(all, Unhandled(s))
    ensures var t := DrainPass(cfg, s, clock); t.pending == Filter(all, Unhandled(t))
  {
    PassDecides(cfg, s, clock);
    var t := DrainPass(cfg, s, clock);
    forall c | c in all ensures !Unhandled(t)(c) {
      if Unhandled(s)(c) {
        var i :| 0 <= i < |s.pending| && s.pending[i] == c;
        assert EntryPassed(s.pending[i], t, clock[i]);
      }
    }
    FilterNone(all, Unhandled(t));
  }

  lemma {:induction false} RaiseKeepsOrder(cfg: Config, all: seq<Pending>, s: Load, ref: nat, dueAt: int)
    requires Inv(cfg, s) && ref !in s.raised && s.pending == Filter(all, Unhandled(s))
    ensures s.pending + [Pending(ref, dueAt)] == Filter(all + [Pending(ref, dueAt)], Unhandled(s))
  {
    FilterSnoc(all, Pending(ref, dueAt), Unhandled(s));
    assert ref !in s.cancelSentAt.Keys && ref !in ToSet(s.dropped);
  }

  /** The queue keeps the order of the answers: it holds what was raised and not yet handled, in
      the order it was raised. */
  lemma {:induction false} QueueIsInRaiseOrder(cfg: Config, start: int, events: seq<Event>)
    requires Exec(cfg, start, events).Some?
    ensures var s := Exec(cfg, start, events).value; s.pending == Filter(RaisedIn(events), Unhandled(s))
  {
    if events != [] {
      var front, e := events[..|events| - 1], events[|events| - 1];
      var s := Exec(cfg, start, front).value;
      QueueIsInRaiseOrder(cfg, start, front);
      RunsConserve(cfg, start, front);
      EventKeepsOrder(cfg, RaisedIn(front), s, e);
    }
  }

  lemma {:induction false} EventKeepsOrder(cfg: Config, all: seq<Pending>, s: Load, e: Event)
    requires Inv(cfg, s) && Enabled(cfg, s, e) && s.pending == Filter(all, Unhandled(s))
    ensures var t := Next(cfg, s, e);
            t.pending == Filter(all + (if e.Raise? then [Pending(e.ref, e.dueAt)] else []), Unhandled(t))
  {
    assert all + [] == all;
    match e
    case Tick(now) => TickKeepsOrder(cfg, all, s, now);
    case Pass(clock) => PassKeepsOrder(cfg, all, s, clock);
    case Raise(ref, dueAt) =>
      RaiseKeepsOrder(cfg, all, s, ref, dueAt);
      FilterSame(all + [Pending(ref, dueAt)], Unhandled(s), Unhandled(Next(cfg, s, e)));
    case _ => FilterSame(all, Unhandled(s), Unhandled(Next(cfg, s, e)));
  }

  lemma {:induction false} RefCount(cs: seq<Pending>)
    requires UniqueRefs(cs)
    ensures |Refs(cs)| == |cs|
  {
    if cs == [] {
      assert Refs(cs) == {};
    } else {
      var a, c := cs[..|cs| - 1], cs[|cs| - 1];
      assert cs == a + [c] + [] && a + [] == a;
      TakeOut(a, c, []);
      RefCount(a);
    }
  }

  /** The report's counts add up: sent + dropped + still pending = raised. */
  lemma {:induction false} CancelsAddUp(cfg: Config, start: int, events: seq<Event>)
    requires Exec(cfg, start, events).Some?
    ensures var s := Exec(cfg, start, events).value;
            |s.raised| == |s.cancelSentAt| + |s.dropped| + |s.pending|
  {
    RunsConserve(cfg, start, events);
    var s := Exec(cfg, start, events).value;
    DistinctCardinality(s.dropped);
    RefCount(s.pending);
    assert |s.cancelSentAt.Keys| == |s.cancelSentAt|;
  }

  /** With every send finished and no queue left, nothing can happen any more. */
  ghost predicate Complete(s: Load) {
    && s.pending == [] && s.gate.waiters == []
    && s.raised == s.cancelSentAt.Keys + ToSet(s.dropped)
    && (forall i :: 0 <= i < |s.orders| ==> Slot.Ingest(i) in s.gate.done)
    && (forall i :: 0 <= i < |s.adjusts| ==> Slot.Adjust(i) in s.gate.done)
    && (forall ref :: ref in s.cancelSentAt ==> Slot.Cancel(ref) in s.gate.done)
  }

  lemma {:induction false} IdleIsComplete(cfg: Config, s: Load)
    requires cfg.limit > 0 && Inv(cfg, s) && s.pending == [] && s.gate.inFlight == 0 && s.gate.woken == {}
    ensures Complete(s) && s.gate.running == {}
  {
    assert s.gate.running == {};
    assert Refs([]) == {};
    assert s.gate.waiters == [];
    forall job | Slot.IsStarted(s.gate, job) ensures job in s.gate.done {}
    forall i | 0 <= i < |s.orders|
      ensures Slot.Ingest(i) in s.gate.done
    {
      assert Slot.IsStarted(s.gate, Slot.Ingest(i));
    }
    forall i | 0 <= i < |s.adjusts|
      ensures Slot.Adjust(i) in s.gate.done
    {
      assert Slot.IsStarted(s.gate, Slot.Adjust(i));
    }
    forall ref | ref in s.cancelSentAt
      ensures Slot.Cancel(ref) in s.gate.done
    {
      assert Slot.IsStarted(s.gate, Slot.Cancel(ref));
    }
  }

  /** A drain pass that ends the run on an idle client stops it. What it leaves is complete if
      and only if no woken call was still on its way: then nothing is pending, nobody waits,
      every order, adjustment and cancellation the run ever sent has finished, and no event is
      possible any more. */
  lemma {:induction false} IdleExitIsComplete(cfg: Config, start: int, events: seq<Event>, clock: seq<int>)
    requires cfg.limit > 0 && Exec(cfg, start, events).Some?
    requires var s := Exec(cfg, start, events).value;
             s.phase == Draining && |clock| == |s.pending| && DrainPass(cfg, s, clock).gate.inFlight == 0
    ensures var s := Exec(cfg, start, events).value; var t := DrainPass(cfg, s, clock);
            && t.phase == Stopped
            && (Complete(t) <==> s.gate.woken == {})
            && (s.gate.woken == {} ==> forall e :: !Enabled(cfg, t, e))
  {
    var s := Exec(cfg, start, events).value;
    var t := DrainPass(cfg, s, clock);
    RunsConserve(cfg, start, events);
    PassKeepsInv(cfg, s, clock);
    DrainKeepsWoken(cfg, s, |clock|, clock);
    assert s.pending[..|clock|] == s.pending && clock[..|clock|] == clock;
    if s.gate.woken == {} { IdleIsComplete(cfg, t); }
    if Complete(t) { CompleteWakesNobody(cfg, t); }
  }

  lemma {:induction false} CompleteWakesNobody(cfg: Config, s: Load)
    requires Inv(cfg, s) && Complete(s)
    ensures s.gate.woken == {}
  {
    forall job ensures job !in s.gate.woken {
      assert job in s.gate.woken ==> Slot.IsStarted(s.gate, job);
    }
  }

  /** A drain pass neither wakes a call nor runs a woken one. */
  lemma {:induction false} DrainKeepsWoken(cfg: Config, s: Load, k: nat, clock: seq<int>)
    requires Inv(cfg, s) && k <= |s.pending| == |clock|
    ensures DrainedAll(cfg, s, s.pending[..k], clock[..k]).gate.woken == s.gate.woken
  {
    if k > 0 {
      DrainKeepsWoken(cfg, s, k - 1, clock);
      DrainReady(cfg, s, k - 1, clock);
      var t, job := DrainedAll(cfg, s, s.pending[..k - 1], clock[..k - 1]), Slot.Cancel(s.pending[k - 1].ref);
      assert t.gate.woken - {job} == t.gate.woken;
    }
  }

  // ---- what the deadline leaves --------------------------------------------

  function RaisesIn(events: seq<Event>): nat {
    if events == [] then 0 else RaisesIn(events[..|events| - 1]) + (if events[|events| - 1].Raise? then 1 else 0)
  }

  lemma {:induction false} NoRaises(events: seq<Event>)
    ensures RaisesIn(events) == 0 <==> forall e :: e in events ==> !e.Raise?
  {
    if events != [] {
      NoRaises(events[..|events| - 1]);
      assert events == events[..|events| - 1] + [events[|events| - 1]];
    }
  }

  /** Once the pacing is over and no drain pass follows, cancellations are only raised, and
      nobody takes them. */
  lemma {:induction false} PendingIsRaisedLate(cfg: Config, start: int, events: seq<Event>, k: nat)
    requires Exec(cfg, start, events).Some? && k <= |events| && forall i :: k <= i < |events| ==> !events[i].Pass?
    requires Exec(cfg, start, events[..k]).Some? && Exec(cfg, start, events[..k]).value.phase != Pacing
    ensures Exec(cfg, start, events).value.phase != Pacing
    ensures |Exec(cfg, start, events).value.pending|
         == |Exec(cfg, start, events[..k]).value.pending| + RaisesIn(events[k..])
  {
    var n := |events| - 1;
    if k <= n {
      assert events[..n][..k] == events[..k];
      PendingIsRaisedLate(cfg, start, events[..n], k);
      RaisesOneMore(events, k);
    } else {
      assert events[..k] == events && events[k..] == [];
    }
  }

  lemma {:induction false} RaisesOneMore(events: seq<Event>, from: nat)
    requires from < |events|
    ensures var n := |events| - 1;
            RaisesIn(events[from..]) == RaisesIn(events[..n][from..]) + (if events[n].Raise? then 1 else 0)
  {
    var n := |events| - 1;
    assert events[from..][..n - from] == events[..n][from..];
  }

  lemma {:induction false} DrainKeepsPhase(cfg: Config, s: Load, clock: seq<int>)
    requires |clock| == |s.pending|
    ensures DrainPass(cfg, s, clock).phase == Stopped || DrainPass(cfg, s, clock).phase == s.phase
    ensures DrainPass(cfg, s, clock).pending == []
  {
    DrainedAllKeepsPhase(cfg, s, s.pending, clock);
  }

  lemma {:induction false} DrainedAllKeepsPhase(cfg: Config, s: Load, cs: seq<Pending>, clock: seq<int>)
    requires |clock| == |cs|
    ensures DrainedAll(cfg, s, cs, clock).phase == s.phase
  {
    if cs != [] { DrainedAllKeepsPhase(cfg, s, cs[..|cs| - 1], clock[..|cs| - 1]); }
  }

  lemma {:induction false} ExecOfPrefix(cfg: Config, start: int, events: seq<Event>, k: nat)
    requires Exec(cfg, start, events).Some? && k < |events|
    ensures Exec(cfg, start, events[..k]).Some? && Enabled(cfg, Exec(cfg, start, events[..k]).value, events[k])
    ensures Exec(cfg, start, events[..k + 1]) == Some(Next(cfg, Exec(cfg, start, events[..k]).value, events[k]))
    decreases |events|
  {
    var n := |events| - 1;
    if k < n {
      ExecOfPrefix(cfg, start, events[..n], k);
      assert events[..n][..k] == events[..k] && events[..n][..k + 1] == events[..k + 1];
    } else {
      assert events[..k + 1] == events;
    }
  }

  /** What the drain leaves unaccounted, neither sent nor recorded as dropped, is exactly what
      was raised after its last pass: the run is fully accounted if and only if nothing was. */
  lemma {:induction false} UnaccountedIsRaisedLate(cfg: Config, start: int, events: seq<Event>, k: nat)
    requires Exec(cfg, start, events).Some? && k < |events| && events[k].Pass?
    requires forall i :: k < i < |events| ==> !events[i].Pass?
    ensures var s := Exec(cfg, start, events).value;
            && |s.raised| == |s.cancelSentAt| + |s.dropped| + RaisesIn(events[k + 1..])
            && (|s.raised| == |s.cancelSentAt| + |s.dropped| <==> forall e :: e in events[k + 1..] ==> !e.Raise?)
  {
    CancelsAddUp(cfg, start, events);
    ExecOfPrefix(cfg, start, events, k);
    DrainKeepsPhase(cfg, Exec(cfg, start, events[..k]).value, events[k].clock);
    PendingIsRaisedLate(cfg, start, events, k + 1);
    NoRaises(events[k + 1..]);
  }

  /** And when the deadline leaves no time for a single pass, it is what was pending when the
      pacing ended, and what was raised since. */
  lemma {:induction false} UnaccountedWithoutAPass(cfg: Config, start: int, events: seq<Event>, k: nat)
    requires Exec(cfg, start, events).Some? && k < |events| && events[k].EndPacing?
    requires forall i :: k < i < |events| ==> !events[i].Pass?
    ensures Exec(cfg, start, events[..k]).Some?
    ensures var s, pending := Exec(cfg, start, events).value, Exec(cfg, start, events[..k]).value.pending;
            && |s.raised| == |s.cancelSentAt| + |s.dropped| + |pending| + RaisesIn(events[k + 1..])
            && (|s.raised| == |s.cancelSentAt| + |s.dropped|
                <==> pending == [] && forall e :: e in events[k + 1..] ==> !e.Raise?)
  {
    CancelsAddUp(cfg, start, events);
    ExecOfPrefix(cfg, start, events, k);
    PendingIsRaisedLate(cfg, start, events, k + 1);
    NoRaises(events[k + 1..]);
  }

  lemma {:induction false} ExecSnoc(cfg: Config, start: int, events: seq<Event>, s: Load, e: Event)
    requires Exec(cfg, start, events) == Some(s) && Enabled(cfg, s, e)
    ensures Exec(cfg, start, events + [e]) == Some(Next(cfg, s, e))
  {
    assert (events + [e])[..|events|] == events;
  }

  // A run that loses one: two slots, a second of pacing. Orders 0 and 1 are sent at 0 and 400 ms,
  // the first with an adjustment, so that order 1 waits; it runs when order 0 is answered, is
  // answered itself just after the last pass, and asks for a cancellation due 9.6 s in.

  const TWO_SLOTS := Config(2, 400.0, 5000, 1000)

  function PacedGate(): Slot.State {
    Slot.State(2, 2, [Slot.Ingest(1)], {}, {Slot.Ingest(0), Slot.Adjust(0)}, {})
  }

  function HandedOverGate(): Slot.State {
    Slot.State(2, 2, [], {}, {Slot.Ingest(1), Slot.Adjust(0)}, {Slot.Ingest(0)})
  }

  function Late(phase: Phase, gate: Slot.State): Load {
    Load(gate, phase, 800.0, 5000, [0] + [400], [0], [], map[], [], {})
  }

  const PACING_PART: seq<Event> := [Tick(0)] + [Tick(400)] + [EndPacing(1000)]

  const DRAIN_PART: seq<Event> := [Pass([])] + [Settle(Slot.Ingest(0))] + [Wake(Slot.Ingest(1))] + [Pass([])]

  const DEADLINE_PART: seq<Event> := [Raise(1, 9600)] + [GiveUp]

  lemma {:induction false} PacingPart()
    ensures Exec(TWO_SLOTS, 0, PACING_PART) == Some(Late(Draining, PacedGate()))
  {
    var s0, s2 := Initial(0), Late(Pacing, PacedGate());
    var s1 := Load(Slot.State(2, 2, [], {}, {Slot.Ingest(0), Slot.Adjust(0)}, {}), Pacing,
                   400.0, 5000, [0], [0], [], map[], [], {});
    assert Exec(TWO_SLOTS, 0, []) == Some(s0);
    assert Next(TWO_SLOTS, s0, Tick(0)) == s1;
    ExecSnoc(TWO_SLOTS, 0, [], s0, Tick(0));
    assert [] + [Tick(0)] == [Tick(0)];
    assert Next(TWO_SLOTS, s1, Tick(400)) == s2;
    ExecSnoc(TWO_SLOTS, 0, [Tick(0)], s1, Tick(400));
    ExecSnoc(TWO_SLOTS, 0, [Tick(0)] + [Tick(400)], s2, EndPacing(1000));
  }

  lemma {:induction false} EmptyPass(s: Load)
    requires s.phase == Draining && s.pending == [] && s.gate.inFlight > 0
    ensures DrainPass(TWO_SLOTS, s, []) == s
  {
  }

  lemma {:induction false} DrainPart()
    ensures Exec(TWO_SLOTS, 0, PACING_PART + DRAIN_PART) == Some(Late(Draining, HandedOverGate()))
  {
    var before, s := PACING_PART, Late(Draining, PacedGate());
    PacingPart();
    EmptyPass(s);
    ExecSnoc(TWO_SLOTS, 0, before, s, Pass([]));
    var settled := Late(Draining, Slot.Released(PacedGate(), Slot.Ingest(0)));
    ExecSnoc(TWO_SLOTS, 0, before + [Pass([])], s, Settle(Slot.Ingest(0)));
    var t := Late(Draining, HandedOverGate());
    assert Next(TWO_SLOTS, settled, Wake(Slot.Ingest(1))) == t;
    ExecSnoc(TWO_SLOTS, 0, before + [Pass([])] + [Settle(Slot.Ingest(0))], settled, Wake(Slot.Ingest(1)));
    EmptyPass(t);
    ExecSnoc(TWO_SLOTS, 0, before + [Pass([])] + [Settle(Slot.Ingest(0))] + [Wake(Slot.Ingest(1))], t, Pass([]));
    assert before + DRAIN_PART == before + [Pass([])] + [Settle(Slot.Ingest(0))] + [Wake(Slot.Ingest(1))] + [Pass([])];
  }

  /** And it happens: an order answered between the last pass and the deadline. */
  lemma {:induction false} DeadlineLosesACancel()
    ensures var events := PACING_PART + DRAIN_PART + DEADLINE_PART;
            && Exec(TWO_SLOTS, 0, events).Some?
            && var s := Exec(TWO_SLOTS, 0, events).value;
               s.phase == Stopped && s.raised == {1} && s.cancelSentAt == map[] && s.dropped == []
  {
    var before, s := PACING_PART + DRAIN_PART, Late(Draining, HandedOverGate());
    DrainPart();
    ExecSnoc(TWO_SLOTS, 0, before, s, Raise(1, 9600));
    ExecSnoc(TWO_SLOTS, 0, before + [Raise(1, 9600)], Next(TWO_SLOTS, s, Raise(1, 9600)), GiveUp);
    assert before + DEADLINE_PART == before + [Raise(1, 9600)] + [GiveUp];
  }

  // ---- the rate ----------------------------------------------------------

  lemma {:induction false} OneMoreInterval(n: int, interval: real)
    ensures (n + 1) as real * interval == n as real * interval + interval
  {
  }

  lemma {:induction false} SpacedDistance(orders: seq<int>, interval: real, i: nat, j: nat)
    requires Spaced(orders, interval) && i <= j < |orders|
    ensures (orders[j] - orders[i]) as real >= (j - i) as real * interval
    decreases j
  {
    if i < j {
      SpacedDistance(orders, interval, i, j - 1);
      OneMoreInterval(j - 1 - i, interval);
      assert orders[(j - 1) + 1] as real >= orders[j - 1] as real + interval;
    }
  }

  lemma {:induction false} RunIsSpaced(cfg: Config, start: int, events: seq<Event>)
    requires Exec(cfg, start, events).Some?
    ensures Spaced(Exec(cfg, start, events).value.orders, cfg.ingestIntervalMs)
  {
    RunsConserve(cfg, start, events);
  }

  lemma {:induction false} AdjustsAreSpaced(cfg: Config, start: int, events: seq<Event>)
    requires Exec(cfg, start, events).Some?
    ensures Spaced(Exec(cfg, start, events).value.adjusts, cfg.adjustIntervalMs as real)
  {
    RunsConserve(cfg, start, events);
  }

  /** So are the adjustments, by their own interval. */
  lemma {:induction false} AdjustsKeepTheirDistance(cfg: Config, start: int, events: seq<Event>, i: nat, j: nat)
    requires Exec(cfg, start, events).Some? && i <= j < |Exec(cfg, start, events).value.adjusts|
    ensures var adjusts := Exec(cfg, start, events).value.adjusts;
            (adjusts[j] - adjusts[i]) as real >= (j - i) as real * (cfg.adjustIntervalMs as real)
  {
    AdjustsAreSpaced(cfg, start, events);
    SpacedDistance(Exec(cfg, start, events).value.adjusts, cfg.adjustIntervalMs as real, i, j);
  }

  /** In any run the `i`-th and the `j`-th order are at least `j - i` intervals apart in time. */
  lemma {:induction false} KeepTheirDistance(cfg: Config, start: int, events: seq<Event>, i: nat, j: nat)
    requires Exec(cfg, start, events).Some? && i <= j < |Exec(cfg, start, events).value.orders|
    ensures var orders := Exec(cfg, start, events).value.orders;
            (orders[j] - orders[i]) as real >= (j - i) as real * cfg.ingestIntervalMs
  {
    RunIsSpaced(cfg, start, events);
    SpacedDistance(Exec(cfg, start, events).value.orders, cfg.ingestIntervalMs, i, j);
  }

  /** The indices of the orders sent in the window of `length` ms from `from`. */
  ghost function SentWithin(orders: seq<int>, from: int, length: nat): set<int> {
    set i | 0 <= i < |orders| && from <= orders[i] <= from + length
  }

  lemma {:induction false} WindowHoldsFew(orders: seq<int>, interval: real, from: int, length: nat)
    requires Spaced(orders, interval) && interval > 0.0
    ensures |SentWithin(orders, from, length)| <= (length as real / interval).Floor + 1
  {
    var inside, most := SentWithin(orders, from, length), (length as real / interval).Floor;
    assert most >= 0 by { Quotient(0.0, length as real, interval); }
    if inside != {} {
      var lo := Least(inside);
      forall i | i in inside ensures lo <= i < lo + (most + 1) {
        SpacedDistance(orders, interval, lo, i);
        FewApart(i - lo, orders[i] - orders[lo], length, interval);
      }
      Interval(inside, lo, most + 1);
    }
  }

  /** Whatever the clock reads, no window of `length` ms holds more than
      `floor(length / interval) + 1` orders: a stalled loop never catches up in a burst. */
  lemma {:induction false} NoBurst(cfg: Config, start: int, events: seq<Event>, from: int, length: nat)
    requires cfg.ingestIntervalMs > 0.0 && Exec(cfg, start, events).Some?
    ensures |SentWithin(Exec(cfg, start, events).value.orders, from, length)|
         <= (length as real / cfg.ingestIntervalMs).Floor + 1
  {
    RunIsSpaced(cfg, start, events);
    WindowHoldsFew(Exec(cfg, start, events).value.orders, cfg.ingestIntervalMs, from, length);
  }

  lemma {:induction false} FewApart(n: int, apart: int, length: int, interval: real)
    requires interval > 0.0 && apart as real >= n as real * interval && apart <= length
    ensures n <= (length as real / interval).Floor
  {
    Quotient(n as real, length as real, interval);
  }

  lemma {:induction false} Quotient(n: real, length: real, interval: real)
    requires interval > 0.0 && n * interval <= length
    ensures n <= length / interval
  {
    var q := length / interval;
    assert q * interval == length;
    if n > q { assert (n - q) * interval > 0.0; }
  }

  // ---- the code ----------------------------------------------------------

  class Runner {
    const cfg: Config
    const client: Slot.BoundedClient
    var nextIngest: real
    var nextAdjust: int
    var pending: seq<Pending>
    var cancelSentAt: map<nat, int>
    var dropped: seq<nat>
    var orders: seq<int>
    var adjusts: seq<int>
    var phase: Phase
    ghost var raised: set<nat>

    ghost function Now(): Load
      reads this, client
    {
      Load(client.Now(), phase, nextIngest, nextAdjust, orders, adjusts, pending, cancelSentAt, dropped, raised)
    }

    ghost predicate Valid()
      reads this, client
    {
      client.limit == cfg.limit && Inv(cfg, Now())
    }

    constructor (config: Config, now: int)
      ensures Valid() && fresh(client) && cfg == config && Now() == Initial(now)
    {
      cfg := config;
      client := new Slot.BoundedClient(config.limit);
      nextIngest, nextAdjust := now as real, now;
      pending, cancelSentAt, dropped, orders, adjusts, phase := [], map[], [], [], [], Pacing;
      raised := {};
    }

    method OrderNow(now: int)
      requires Valid() && phase == Pacing && now as real >= nextIngest
      modifies this`orders, this`nextIngest, client
      ensures Valid() && Now() == SendOrder(cfg, old(Now()), now)
    {
      SendOrderKeepsInv(cfg, Now(), now);
      var _ := client.Test(Slot.Ingest(|orders|));
      orders := orders + [now];
      nextIngest := now as real + cfg.ingestIntervalMs;
    }

    method AdjustNow(now: int)
      requires Valid() && now >= nextAdjust
      modifies this`adjusts, this`nextAdjust, client
      ensures Valid() && Now() == SendAdjust(cfg, old(Now()), now)
    {
      SendAdjustKeepsInv(cfg, Now(), now);
      var _ := client.Test(Slot.Adjust(|adjusts|));
      adjusts := adjusts + [now];
      nextAdjust := now + cfg.adjustIntervalMs;
    }

    /** `sendCancel`, in the middle of a walk over the queue. */
    method CancelNow(ref: nat, now: int)
      requires client.Valid() && client.limit == cfg.limit && !Slot.IsStarted(client.Now(), Slot.Cancel(ref))
      modifies this`cancelSentAt, client
      ensures client.Valid() && client.limit == cfg.limit
      ensures Now() == SendCancel(cfg, old(Now()), ref, now)
    {
      cancelSentAt := cancelSentAt[ref := now];
      var _ := client.Test(Slot.Cancel(ref));
    }

    /** One turn of the pacing loop: the two paced sends, then the sweep of the pending queue. */
    method Tick(now: int)
      requires Valid() && phase == Pacing
      modifies this, client
      ensures Valid() && Now() == Ticked(cfg, old(Now()), now)
      ensures Decided(cfg, old(Now()), Now(), now)
    {
      TurnDecides(cfg, Now(), now);
      if now as real >= nextIngest { OrderNow(now); }
      if now >= nextAdjust { AdjustNow(now); }
      assert Now() == Paced(cfg, old(Now()), now);
      Sweep(now);
    }

    /** The sweep: a walk over the queue, then the removal of the entries it marked. */
    method Sweep(now: int)
      requires Valid()
      modifies this, client
      ensures Valid()
      ensures Now() == SweptAll(cfg, old(Now()), old(pending), now).(pending := Filter(old(pending), Stays(cfg, now)))
      ensures Decided(cfg, old(Now()), Now(), now)
    {
      ghost var start := Now();
      SweepDecides(cfg, start, now);
      var leaving := Walk(now);
      SweepEndKeepsInv(cfg, start, now);
      RemoveFromTheBack(now, leaving);
    }

    /** Each entry in turn is sent, dropped or left; the indices of the first two are returned. */
    method Walk(now: int) returns (leaving: seq<nat>)
      requires Valid()
      modifies this`cancelSentAt, this`dropped, client
      ensures client.Valid() && client.limit == cfg.limit
      ensures Now() == SweptAll(cfg, old(Now()), pending, now)
      ensures leaving == Marked(cfg, now, pending)
    {
      ghost var start := Now();
      leaving := [];
      for k := 0 to |pending|
        invariant client.Valid() && client.limit == cfg.limit
        invariant Now() == SweptAll(cfg, start, pending[..k], now)
        invariant leaving == Marked(cfg, now, pending[..k])
      {
        SweepReady(cfg, start, k, now);
        assert pending[..k + 1][..k] == pending[..k];
        if pending[k].dueAt <= now {
          CancelNow(pending[k].ref, now);
          leaving := leaving + [k];
        } else if pending[k].dueAt >= cfg.runEnd {
          dropped := dropped + [pending[k].ref];
          leaving := leaving + [k];
        }
      }
      assert pending[..|pending|] == pending;
    }

    /** The reversed `splice` loop: the marked entries go, the others keep their order. */
    method RemoveFromTheBack(now: int, leaving: seq<nat>)
      requires leaving == Marked(cfg, now, pending)
      modifies this`pending
      ensures pending == Filter(old(pending), Stays(cfg, now))
    {
      ghost var queue, cut := pending, |pending|;
      var m := |leaving|;
      assert queue[..cut] == queue && leaving[..m] == leaving;
      while m > 0
        invariant 0 <= m <= |leaving| && 0 <= cut <= |queue|
        invariant leaving[..m] == Marked(cfg, now, queue[..cut])
        invariant pending == CleanedFrom(queue, cut, Stays(cfg, now))
      {
        NextRemoval(cfg, now, queue, cut, leaving[..m]);
        assert leaving[..m][..m - 1] == leaving[..m - 1];
        m := m - 1;
        pending := pending[..leaving[m]] + pending[leaving[m] + 1..];
        cut := leaving[m];
      }
      FullyCleaned(cfg, now, queue, cut);
    }

    /** One turn of the drain loop; true when it breaks out on an idle client. */
    method Pass(clock: seq<int>) returns (idle: bool)
      requires Valid() && phase == Draining && |clock| == |pending|
      modifies this, client
      ensures Valid() && Now() == DrainPass(cfg, old(Now()), clock)
      ensures PassDecided(old(Now()), Now(), clock)
      ensures idle <==> phase == Stopped
    {
      ghost var start := Now();
      PassDecides(cfg, start, clock);
      PassKeepsInv(cfg, start, clock);
      for k := 0 to |pending|
        invariant phase == Draining
        invariant pending == start.pending && client.Valid() && client.limit == cfg.limit
        invariant Now() == DrainedAll(cfg, start, pending[..k], clock[..k])
      {
        DrainReady(cfg, start, k, clock);
        if pending[k].dueAt <= clock[k] {
          CancelNow(pending[k].ref, clock[k]);
        } else {
          dropped := dropped + [pending[k].ref];
        }
      }
      assert pending[..|pending|] == pending && clock[..|pending|] == clock;
      pending := [];
      idle := client.inFlight == 0;
      if idle { phase := Stopped; }
    }

    /** A woken call runs its loop test again. */
    method Wake(job: Slot.Job)
      requires Valid() && job in client.woken
      modifies client
      ensures Valid() && Now() == Next(cfg, old(Now()), Event.Wake(job))
    {
      EventKeepsInv(cfg, Now(), Event.Wake(job));
      var _ := client.Test(job);
    }

    /** A call's work ended, well or badly. */
    method Settle(job: Slot.Job)
      requires Valid() && job in client.running && client.inFlight > 0
      modifies client
      ensures Valid() && Now() == Next(cfg, old(Now()), Event.Settle(job))
    {
      EventKeepsInv(cfg, Now(), Event.Settle(job));
      client.Release(job);
    }

    /** An accepted order's answer asks for a cancellation. */
    method Raise(ref: nat, dueAt: int)
      requires Valid() && Slot.Ingest(ref) in client.running && ref !in raised
      modifies this`pending, this`raised
      ensures Valid() && Now() == Next(cfg, old(Now()), Event.Raise(ref, dueAt))
    {
      RaiseKeepsInv(cfg, Now(), ref, dueAt);
      pending := pending + [Pending(ref, dueAt)];
      raised := raised + {ref};
    }
  }

  /** The indices the sweep marks, in rising order. */
  function Marked(cfg: Config, now: int, queue: seq<Pending>): seq<nat> {
    if queue == [] then []
    else Marked(cfg, now, queue[..|queue| - 1])
         + (if Leaves(cfg, now, queue[|queue| - 1]) then [|queue| - 1] else [])
  }

  lemma {:induction false} MarkedLast(cfg: Config, now: int, queue: seq<Pending>)
    requires Marked(cfg, now, queue) != []
    ensures var marked := Marked(cfg, now, queue); var at := marked[|marked| - 1];
            && at < |queue| && Leaves(cfg, now, queue[at])
            && (forall i :: at < i < |queue| ==> !Leaves(cfg, now, queue[i]))
            && marked[..|marked| - 1] == Marked(cfg, now, queue[..at])
  {
    var front, n := queue[..|queue| - 1], |queue| - 1;
    var before := Marked(cfg, now, front);
    if Leaves(cfg, now, queue[n]) {
      assert (before + [n])[..|before|] == before;
    } else {
      assert Marked(cfg, now, queue) == before;
      MarkedLast(cfg, now, front);
      var at := before[|before| - 1];
      assert front[at] == queue[at] && front[..at] == queue[..at];
      forall i | at < i < |queue| ensures !Leaves(cfg, now, queue[i]) {
        if i < n { assert front[i] == queue[i]; }
      }
    }
  }

  lemma {:induction false} NothingMarked(cfg: Config, now: int, queue: seq<Pending>)
    requires Marked(cfg, now, queue) == []
    ensures Filter(queue, Stays(cfg, now)) == queue
  {
    if queue != [] {
      NothingMarked(cfg, now, queue[..|queue| - 1]);
      FrontAndLast(queue);
    }
  }

  /** The queue with its tail from `cut` on already cleaned. */
  function CleanedFrom(queue: seq<Pending>, cut: nat, p: Pending -> bool): seq<Pending>
    requires cut <= |queue|
  {
    queue[..cut] + Filter(queue[cut..], p)
  }

  /** Splicing out the last marked index moves the cleaned tail's start down to it. */
  lemma {:induction false} NextRemoval(cfg: Config, now: int, queue: seq<Pending>, cut: nat, marked: seq<nat>)
    requires cut <= |queue| && marked == Marked(cfg, now, queue[..cut]) && marked != []
    ensures var at, p := marked[|marked| - 1], Stays(cfg, now); var whole := CleanedFrom(queue, cut, p);
            && at < cut
            && whole[..at] + whole[at + 1..] == CleanedFrom(queue, at, p)
            && marked[..|marked| - 1] == Marked(cfg, now, queue[..at])
  {
    MarkedLast(cfg, now, queue[..cut]);
    var at := marked[|marked| - 1];
    assert queue[..cut][..at] == queue[..at];
    RemovalStep(cfg, now, queue, at, cut);
  }

  lemma {:induction false} FullyCleaned(cfg: Config, now: int, queue: seq<Pending>, cut: nat)
    requires cut <= |queue| && Marked(cfg, now, queue[..cut]) == []
    ensures CleanedFrom(queue, cut, Stays(cfg, now)) == Filter(queue, Stays(cfg, now))
  {
    var front, back := queue[..cut], queue[cut..];
    assert queue == front + back;
    NothingMarked(cfg, now, front);
    FilterAppend(front, back, Stays(cfg, now));
  }

  lemma {:induction false} RemovalStep(cfg: Config, now: int, queue: seq<Pending>, at: nat, cut: nat)
    requires at < cut <= |queue| && Leaves(cfg, now, queue[at])
    requires forall i :: at < i < cut ==> !Leaves(cfg, now, queue[..cut][i])
    ensures var p := Stays(cfg, now); var whole := CleanedFrom(queue, cut, p);
            whole[..at] + whole[at + 1..] == CleanedFrom(queue, at, p)
  {
    var p := Stays(cfg, now);
    var kept, tail := queue[at + 1..cut], Filter(queue[cut..], p);
    assert queue[..cut][at + 1..] == kept;
    KeepAll(kept, p);
    FilterTail(queue, at, cut, p);
    SkipOne(queue[..cut], tail, at);
    assert queue[..cut][..at] == queue[..at];
  }

  lemma {:induction false} SkipOne(a: seq<Pending>, b: seq<Pending>, at: nat)
    requires at < |a|
    ensures (a + b)[..at] + (a + b)[at + 1..] == a[..at] + (a[at + 1..] + b)
  {
  }

  lemma {:induction false} FilterTail(queue: seq<Pending>, at: nat, cut: nat, p: Pending -> bool)
    requires at < cut <= |queue| && !p(queue[at])
    ensures Filter(queue[at..], p) == Filter(queue[at + 1..cut], p) + Filter(queue[cut..], p)
  {
    var one, kept := [queue[at]], queue[at + 1..cut];
    assert queue[at..] == one + (kept + queue[cut..]);
    FilterAppend(one, kept + queue[cut..], p);
    FilterAppend(kept, queue[cut..], p);
    assert one[..0] == [];
    assert Filter(one, p) == [];
  }

  lemma {:induction false} KeepAll(cs: seq<Pending>, p: Pending -> bool)
    requires forall i :: 0 <= i < |cs| ==> p(cs[i])
    ensures Filter(cs, p) == cs
  {
    if cs != [] {
      KeepAll(cs[..|cs| - 1], p);
      FrontAndLast(cs);
    }
  }
}
