/** The scripts' one-time codes (`nextCode`): each code uses a 30-second time step, no step is
    used twice for a secret, and a caller who has spent them all waits for the clock. */
module OneTimeCode {
  import opened Sequences

  const STEP_SECONDS := 30

  /** `totpStepOf`: the step containing an instant in ms. */
  function StepOf(ms: int): int { ms / 1000 / STEP_SECONDS }

  /** One pass of the loop at time step `now`: the step to use, if the window still has one. */
  function Issue(lastStep: int, now: int): Option<int> {
    var step := Max(now - 1, lastStep + 1);
    if step <= now + 1 then Some(step) else None
  }

  /** How long a refused pass sleeps, in ms; `clock` is the reading taken for the sleep. */
  function SleepMs(now: int, clock: int): int { Max(50, (now + 1) * STEP_SECONDS * 1000 - clock + 50) }

  class Authenticator {
    var lastStep: int

    constructor ()
      ensures lastStep == 0
    {
      lastStep := 0;
    }

    /** The test and the update run together: no `await` lies between them. */
    method Attempt(now: int) returns (step: Option<int>)
      modifies this
      ensures step == Issue(old(lastStep), now)
      ensures lastStep == (if step.Some? then step.value else old(lastStep))
    {
      var next := if now - 1 >= lastStep + 1 then now - 1 else lastStep + 1;
      if next <= now + 1 {
        lastStep := next;
        return Some(next);
      }
      step := None;
    }

    /** `nextCode` for a caller that sleeps between passes: `clock` is what each pass reads.
        It uses the step of the first pass whose window is not spent; None means every
        listed pass had to wait. */
    method NextCode(clock: seq<int>) returns (step: Option<int>, passes: nat)
      modifies this
      ensures passes <= |clock|
      ensures step.None? ==> passes == |clock| && lastStep == old(lastStep)
      ensures step.Some? ==>
                && 0 < passes && step == Issue(old(lastStep), StepOf(clock[passes - 1])) && lastStep == step.value
      ensures forall i :: 0 <= i < (if step.Some? then passes - 1 else passes) ==>
              Issue(old(lastStep), StepOf(clock[i])).None?
    {
      passes := 0;
      step := None;
      while passes < |clock|
        invariant 0 <= passes <= |clock| && lastStep == old(lastStep)
        invariant step == None
        invariant forall i :: 0 <= i < passes ==> Issue(old(lastStep), StepOf(clock[i])).None?
      {
        step := Attempt(StepOf(clock[passes]));
        passes := passes + 1;
        if step.Some? { return; }
      }
    }
  }

  /** A step a pass at `now` could use: in the window, and later than every earlier one. */
  ghost predicate Usable(lastStep: int, now: int, step: int) { lastStep < step && now - 1 <= step <= now + 1 }

  /** A pass uses the least usable step, and waits only when there is none. */
  lemma {:induction false} IssueIsTheLeast(lastStep: int, now: int)
    ensures Issue(lastStep, now).Some? <==> exists step :: Usable(lastStep, now, step)
    ensures forall step :: Usable(lastStep, now, step) ==> Issue(lastStep, now).value <= step
    ensures Issue(lastStep, now).Some? ==> Usable(lastStep, now, Issue(lastStep, now).value)
  {
    if Issue(lastStep, now).Some? { assert Usable(lastStep, now, Issue(lastStep, now).value); }
  }

  // ---- any callers, any clock --------------------------------------------

  /** The secret's last used step after a run of passes, by whichever callers. */
  function LastAfter(readings: seq<int>): int {
    if readings == [] then 0
    else
      var last := LastAfter(readings[..|readings| - 1]);
      var step := Issue(last, readings[|readings| - 1]);
      if step.Some? then step.value else last
  }

  /** The steps used by a run of passes, in order. */
  function Used(readings: seq<int>): seq<int> {
    if readings == [] then []
    else
      var front := readings[..|readings| - 1];
      var step := Issue(LastAfter(front), readings[|readings| - 1]);
      Used(front) + (if step.Some? then [step.value] else [])
  }

  ghost predicate Rising(s: seq<int>) { forall i, j :: 0 <= i < j < |s| ==> s[i] < s[j] }

  /** Whatever the clock reads and however the callers interleave, the used steps rise
      strictly: no step is ever used twice for a secret. */
  lemma {:induction false} NoStepTwice(readings: seq<int>)
    ensures Rising(Used(readings))
    ensures forall i :: 0 <= i < |Used(readings)| ==> Used(readings)[i] <= LastAfter(readings)
  {
    if readings != [] { NoStepTwice(readings[..|readings| - 1]); }
  }

  /** Every used step was within one of the time step its pass read. */
  lemma {:induction false} UsedWithinWindow(readings: seq<int>, low: int, high: int)
    requires forall i :: 0 <= i < |readings| ==> low <= readings[i] <= high
    ensures forall step :: step in Used(readings) ==> low - 1 <= step <= high + 1
  {
    if readings != [] { UsedWithinWindow(readings[..|readings| - 1], low, high); }
  }

  /** The steps issued by the passes that read a time step of the window `[low, low + n)`. */
  function UsedIn(readings: seq<int>, low: int, n: nat): seq<int> {
    if readings == [] then []
    else
      var front, now := readings[..|readings| - 1], readings[|readings| - 1];
      var step := Issue(LastAfter(front), now);
      UsedIn(front, low, n) + (if step.Some? && low <= now < low + n then [step.value] else [])
  }

  lemma {:induction false} WindowRises(readings: seq<int>, low: int, n: nat)
    ensures Rising(UsedIn(readings, low, n))
    ensures forall step :: step in UsedIn(readings, low, n) ==>
            low - 1 <= step <= low + n && step <= LastAfter(readings)
  {
    if readings != [] {
      WindowRises(readings[..|readings| - 1], low, n);
      var before := UsedIn(readings[..|readings| - 1], low, n);
      assert forall i :: 0 <= i < |before| ==> before[i] in before;
    }
  }

  /** In any run, whatever came before and after, at most `n + 2` codes are issued across `n`
      consecutive time steps. */
  lemma {:induction false} FewCodes(readings: seq<int>, low: int, n: nat)
    ensures |UsedIn(readings, low, n)| <= n + 2
  {
    WindowRises(readings, low, n);
    var used := UsedIn(readings, low, n);
    DistinctCardinality(used);
    Interval(ToSet(used), low - 1, n + 2);
  }

  // ---- waiting -----------------------------------------------------------

  /** A sleep, taken under a clock that has not gone back and ended no sooner than asked,
      always reaches a later time step. */
  lemma {:induction false} SleepReachesNextStep(first: int, atSleep: int, woken: int)
    requires first <= atSleep && woken >= atSleep + SleepMs(StepOf(first), atSleep)
    ensures StepOf(woken) > StepOf(first)
  {
    assert woken >= (StepOf(first) + 1) * 30000 + 50;
    var q := woken / 1000;
    assert q >= (StepOf(first) + 1) * 30;
  }

  /** A time step is thirty seconds. */
  lemma {:induction false} StepsAreThirtySeconds(ms: int, k: int)
    ensures StepOf(ms) == k <==> 30000 * k <= ms < 30000 * k + 30000
  {
    var seconds := ms / 1000;
    assert 1000 * seconds <= ms < 1000 * seconds + 1000;
    assert 30 * (seconds / 30) <= seconds < 30 * (seconds / 30) + 30;
  }

  /** A sleep read within the refused time step ends 50 ms into the next one, no later; one read
      later still takes 50 ms. */
  lemma {:induction false} SleepEndsJustAfter(now: int, clock: int)
    requires StepOf(clock) >= now
    ensures SleepMs(now, clock) == 50 || clock + SleepMs(now, clock) == 30000 * (now + 1) + 50
    ensures StepOf(clock) == now ==> StepOf(clock + SleepMs(now, clock)) == now + 1
    ensures 50 <= SleepMs(now, clock) <= 30050
  {
    StepsAreThirtySeconds(clock, StepOf(clock));
    StepsAreThirtySeconds(clock + SleepMs(now, clock), now + 1);
  }

  ghost predicate NonDecreasing(s: seq<int>) { forall i, j :: 0 <= i <= j < |s| ==> s[i] <= s[j] }

  /** Under a clock that does not go back the last used step is at most one ahead of it. */
  lemma {:induction false} NeverFarAhead(readings: seq<int>)
    requires readings != [] && NonDecreasing(readings) && readings[0] >= 0
    ensures LastAfter(readings) <= readings[|readings| - 1] + 1
  {
    var front := readings[..|readings| - 1];
    if front != [] { NeverFarAhead(front); }
  }

  /** So a caller on its own waits at most once: if the pass at `now` is refused, the pass
      after one sleep is served. */
  lemma {:induction false} OneWaitIsEnough(readings: seq<int>, clock: int, atSleep: int, woken: int)
    requires NonDecreasing(readings) && (readings == [] || readings[|readings| - 1] <= StepOf(clock))
    requires (if readings == [] then StepOf(clock) else readings[0]) >= 0
    requires clock <= atSleep && woken >= atSleep + SleepMs(StepOf(clock), atSleep)
    ensures Issue(LastAfter(readings), StepOf(clock)).Some? || Issue(LastAfter(readings), StepOf(woken)).Some?
  {
    if readings != [] { NeverFarAhead(readings); }
    SleepReachesNextStep(clock, atSleep, woken);
  }

  /** And the wait is sometimes needed: a fourth code within one time step. */
  lemma {:induction false} FourthCodeWaits(now: int)
    requires now >= 2
    ensures Used([now] + [now] + [now] + [now]) == [now - 1, now, now + 1]
    ensures Issue(LastAfter([now] + [now] + [now]), now).None?
  {
    var r1, r2, r3 := [now], [now] + [now], [now] + [now] + [now];
    var r4 := r3 + [now];
    assert r1[..0] == [] && r2[..1] == r1 && r3[..2] == r2 && r4[..3] == r3;
    assert LastAfter(r1) == now - 1 && LastAfter(r2) == now && LastAfter(r3) == now + 1;
    assert Used(r1) == [now - 1] && Used(r2) == [now - 1] + [now] && Used(r3) == [now - 1] + [now] + [now + 1];
  }

  // ---- the server's side -------------------------------------------------

  /** The server takes a step within one of its own clock, later than the last one it took. */
  function ServerTakes(last: Option<int>, step: int, serverNow: int): bool {
    serverNow - 1 <= step <= serverNow + 1 && (last.None? || last.value < step)
  }

  /** The server's last taken step after a secret's codes arrive in order, each within the time
      step of the pass that issued it; None when it refused one. */
  function ServerAfter(readings: seq<int>): Option<Option<int>> {
    if readings == [] then Some(None)
    else
      var front, now := readings[..|readings| - 1], readings[|readings| - 1];
      var step := Issue(LastAfter(front), now);
      match ServerAfter(front)
      case None => None
      case Some(last) =>
        if step.None? then Some(last)
        else if ServerTakes(last, step.value, now) then Some(Some(step.value)) else None
  }

  datatype Code = Code(step: int, serverNow: int)

  /** The steps the server takes of any codes submitted, in order. */
  function TakenOf(codes: seq<Code>): seq<int> {
    if codes == [] then []
    else
      var taken, code := TakenOf(codes[..|codes| - 1]), codes[|codes| - 1];
      var last := if taken == [] then None else Some(taken[|taken| - 1]);
      if ServerTakes(last, code.step, code.serverNow) then taken + [code.step] else taken
  }

  /** Whatever is submitted, the server takes no step twice, and none more than one step away. */
  lemma {:induction false} ServerTakesNoStepTwice(codes: seq<Code>)
    ensures Rising(TakenOf(codes))
    ensures forall step :: step in TakenOf(codes) ==>
              exists i :: 0 <= i < |codes| && codes[i].step == step && -1 <= step - codes[i].serverNow <= 1
  {
    if codes != [] {
      var front, code := codes[..|codes| - 1], codes[|codes| - 1];
      ServerTakesNoStepTwice(front);
      FrontAndLast(codes);
      forall step | step in TakenOf(codes)
        ensures exists i :: 0 <= i < |codes| && codes[i].step == step && -1 <= step - codes[i].serverNow <= 1
      {
        if step in TakenOf(front) {
          var i :| 0 <= i < |front| && front[i].step == step && -1 <= step - front[i].serverNow <= 1;
          assert codes[i] == front[i];
        } else {
          assert codes[|front|].step == step;
        }
      }
    }
  }

  /** No code of a run is ever refused as out of its window or already used. */
  lemma {:induction false} ServerTakesEveryCode(readings: seq<int>)
    ensures ServerAfter(readings).Some?
    ensures ServerAfter(readings).value.Some? ==> ServerAfter(readings).value.value == LastAfter(readings)
  {
    if readings != [] { ServerTakesEveryCode(readings[..|readings| - 1]); }
  }
}
