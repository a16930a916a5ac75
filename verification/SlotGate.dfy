/** The load harness's pinned client (`withSlot`): a counted semaphore with a queue of
    waiters, under every interleaving of its atomic segments.

    Between two `await`s a JavaScript task runs alone, so a call of `withSlot` is three
    kinds of atomic step: the loop test (first time or after a wake-up), the work itself,
    and the `finally` block. A woken task has left the queue but has not yet run its test
    again, so a newcomer may take the slot first and the woken task queues once more. */
module SlotGate {
  import opened Sequences

  /** One call of `withSlot`, named by the request it carries. */
  datatype Job = Ingest(ref: nat) | Adjust(index: nat) | Cancel(ref: nat)

  /** The three program variables, and where each started call stands. */
  datatype State = State(
    inFlight: nat, maxInFlight: nat, waiters: seq<Job>,
    woken: set<Job>, running: set<Job>, done: set<Job>)

  const INITIAL := State(0, 0, [], {}, {}, {})

  ghost predicate IsStarted(s: State, job: Job) {
    job in s.waiters || job in s.woken || job in s.running || job in s.done
  }

  ghost function Started(s: State): (r: set<Job>)
    ensures forall job :: job in r <==> IsStarted(s, job)
  {
    ToSet(s.waiters) + s.woken + s.running + s.done
  }

  /** The loop test: take a slot, or join the queue. */
  function Tested(limit: nat, s: State, job: Job): State {
    if s.inFlight >= limit then
      s.(waiters := s.waiters + [job], woken := s.woken - {job})
    else
      s.(inFlight := s.inFlight + 1, maxInFlight := Max(s.maxInFlight, s.inFlight + 1),
         woken := s.woken - {job}, running := s.running + {job})
  }

  /** The `finally` block: give the slot back and wake the head of the queue. */
  function Released(s: State, job: Job): State
    requires s.inFlight > 0
  {
    var t := s.(inFlight := s.inFlight - 1, running := s.running - {job}, done := s.done + {job});
    if t.waiters == [] then t
    else t.(waiters := t.waiters[1..], woken := t.woken + {t.waiters[0]})
  }

  /** No call stands in two places. */
  ghost predicate Apart(s: State) {
    && NoDuplicates(s.waiters)
    && (forall job :: job in s.waiters ==> job !in s.woken && job !in s.running && job !in s.done)
    && (forall job :: job in s.woken ==> job !in s.running && job !in s.done)
    && (forall job :: job in s.running ==> job !in s.done)
  }

  ghost predicate Counted(limit: nat, s: State) {
    && s.inFlight == |s.running| <= limit
    && s.inFlight <= s.maxInFlight <= limit
    && (s.waiters != [] ==> s.inFlight + |s.woken| >= limit)
  }

  ghost predicate Inv(limit: nat, s: State) { Apart(s) && Counted(limit, s) }

  // ---- the code ----------------------------------------------------------

  /** `withSlot` cut at its awaits. The ghost sets say where each call stands. */
  class BoundedClient {
    const limit: nat
    var inFlight: nat
    var maxInFlight: nat
    var waiters: seq<Job>
    ghost var woken: set<Job>
    ghost var running: set<Job>
    ghost var done: set<Job>

    ghost function Now(): State reads this { State(inFlight, maxInFlight, waiters, woken, running, done) }

    ghost predicate Valid() reads this { Inv(limit, Now()) }

    constructor (concurrency: nat)
      ensures Valid() && limit == concurrency && Now() == INITIAL
    {
      limit := concurrency;
      inFlight, maxInFlight, waiters := 0, 0, [];
      woken, running, done := {}, {}, {};
    }

    /** One pass of the `while` test, by a new call or by a woken one. */
    method Test(job: Job) returns (admitted: bool)
      requires Valid() && (!IsStarted(Now(), job) || job in woken)
      modifies this
      ensures Valid() && Now() == Tested(limit, old(Now()), job)
      ensures admitted <==> old(inFlight) < limit
    {
      ghost var after := Tested(limit, Now(), job);
      assert Inv(limit, after) by { TestedKeepsInv(limit, Now(), job); }
      if inFlight >= limit {
        waiters := waiters + [job];
        admitted := false;
      } else {
        inFlight, running := inFlight + 1, running + {job};
        maxInFlight := if maxInFlight >= inFlight then maxInFlight else inFlight;
        admitted := true;
      }
      woken := woken - {job};
      assert Now() == after;
    }

    /** The `finally` block of a running call, whether its work returned or threw. */
    method Release(job: Job)
      requires Valid() && job in running
      modifies this
      ensures Valid() && old(inFlight) > 0 && Now() == Released(old(Now()), job)
    {
      assert inFlight > 0 && Inv(limit, Released(Now(), job)) by { ReleasedKeepsInv(limit, Now(), job); }
      ghost var after := Released(Now(), job);
      inFlight, running, done := inFlight - 1, running - {job}, done + {job};
      if waiters != [] {
        waiters, woken := waiters[1..], woken + {waiters[0]};
      }
      assert Now() == after;
    }
  }

  // ---- what every step keeps ---------------------------------------------

  lemma {:induction false} TestedStaysApart(limit: nat, s: State, job: Job)
    requires Apart(s) && (!IsStarted(s, job) || job in s.woken)
    ensures Apart(Tested(limit, s, job))
    ensures forall other :: IsStarted(Tested(limit, s, job), other) <==> IsStarted(s, other) || other == job
  {
  }

  lemma {:induction false} TestedKeepsInv(limit: nat, s: State, job: Job)
    requires Inv(limit, s) && (!IsStarted(s, job) || job in s.woken)
    ensures Inv(limit, Tested(limit, s, job))
    ensures forall other :: IsStarted(Tested(limit, s, job), other) <==> IsStarted(s, other) || other == job
  {
    TestedStaysApart(limit, s, job);
    assert Counted(limit, Tested(limit, s, job)) by {
      assert job !in s.running;
      assert job !in s.woken ==> s.woken - {job} == s.woken;
      assert job in s.woken ==> |s.woken - {job}| == |s.woken| - 1;
      assert |s.running + {job}| == |s.running| + 1;
    }
  }

  lemma {:induction false} ReleasedKeepsInv(limit: nat, s: State, job: Job)
    requires Inv(limit, s) && job in s.running
    ensures s.inFlight > 0
    ensures Inv(limit, Released(s, job))
    ensures forall other :: IsStarted(Released(s, job), other) <==> IsStarted(s, other)
  {
    assert |s.running - {job}| == |s.running| - 1;
    var t := Released(s, job);
    if s.waiters != [] {
      var head, rest := s.waiters[0], s.waiters[1..];
      assert s.waiters == [head] + rest;
      assert |s.woken + {head}| == |s.woken| + 1;
      forall other ensures other in s.waiters <==> other == head || other in rest {}
      assert head !in rest;
    }
    assert Counted(limit, t);
    assert Apart(t);
  }

  // ---- runs --------------------------------------------------------------

  datatype Step = Call(job: Job) | Retry(job: Job) | Finish(job: Job)

  ghost predicate Enabled(s: State, step: Step) {
    match step
    case Call(job) => !IsStarted(s, job)
    case Retry(job) => job in s.woken
    case Finish(job) => job in s.running && s.inFlight > 0
  }

  ghost function Next(limit: nat, s: State, step: Step): State
    requires Enabled(s, step)
  {
    match step
    case Call(job) => Tested(limit, s, job)
    case Retry(job) => Tested(limit, s, job)
    case Finish(job) => Released(s, job)
  }

  /** The state a run reaches, or None when one of its steps was not enabled. */
  ghost function Exec(limit: nat, steps: seq<Step>): Option<State> {
    if steps == [] then Some(INITIAL)
    else match Exec(limit, steps[..|steps| - 1])
      case None => None
      case Some(s) =>
        if Enabled(s, steps[|steps| - 1]) then Some(Next(limit, s, steps[|steps| - 1])) else None
  }

  lemma {:induction false} StepKeepsInv(limit: nat, s: State, step: Step)
    requires Inv(limit, s) && Enabled(s, step)
    ensures Inv(limit, Next(limit, s, step))
    ensures Started(Next(limit, s, step)) == Started(s) + {step.job}
  {
    var t := Next(limit, s, step);
    match step {
      case Call(job) => TestedKeepsInv(limit, s, job);
      case Retry(job) => TestedKeepsInv(limit, s, job);
      case Finish(job) => ReleasedKeepsInv(limit, s, job);
    }
    StartedGrows(s, t, step.job);
  }

  lemma {:induction false} StartedGrows(s: State, t: State, job: Job)
    requires forall other :: IsStarted(t, other) <==> IsStarted(s, other) || other == job
    ensures Started(t) == Started(s) + {job}
  {
  }

  /** Over every interleaving the in-flight count stays within the limit, and while anyone
      waits the slots are all taken or promised: no wake-up is ever lost. */
  lemma {:induction false} RunsStayBounded(limit: nat, steps: seq<Step>)
    requires Exec(limit, steps).Some?
    ensures Inv(limit, Exec(limit, steps).value)
  {
    if steps != [] {
      RunsStayBounded(limit, steps[..|steps| - 1]);
      StepKeepsInv(limit, Exec(limit, steps[..|steps| - 1]).value, steps[|steps| - 1]);
    }
  }

  /** When the microtask queue is empty, a non-empty waiting list means every slot is busy;
      so an idle client has nobody waiting. */
  lemma {:induction false} SaturatedWhileWaiting(limit: nat, steps: seq<Step>)
    requires Exec(limit, steps).Some? && Exec(limit, steps).value.woken == {}
    ensures var s := Exec(limit, steps).value;
            (s.waiters != [] ==> s.inFlight == limit) && (limit > 0 && s.inFlight == 0 ==> s.waiters == [])
  {
    RunsStayBounded(limit, steps);
  }

  /** The most slots any prefix of the run had taken. */
  ghost function Peak(limit: nat, steps: seq<Step>): int
    requires Exec(limit, steps).Some?
  {
    if steps == [] then 0
    else Max(Peak(limit, steps[..|steps| - 1]), Exec(limit, steps).value.inFlight)
  }

  /** The reported `maxInFlight` is the true high-water mark of the run. */
  lemma {:induction false} MaxInFlightIsThePeak(limit: nat, steps: seq<Step>)
    requires Exec(limit, steps).Some?
    ensures Exec(limit, steps).value.maxInFlight == Peak(limit, steps)
  {
    if steps != [] {
      MaxInFlightIsThePeak(limit, steps[..|steps| - 1]);
      RunsStayBounded(limit, steps);
    }
  }

  // ---- the order of waking -------------------------------------------------

  /** The calls sent to the queue by a run, in order: those whose test found no slot. */
  ghost function Queued(limit: nat, steps: seq<Step>): seq<Job>
    requires Exec(limit, steps).Some?
  {
    if steps == [] then []
    else
      var front, step := steps[..|steps| - 1], steps[|steps| - 1];
      Queued(limit, front) + QueuedBy(limit, Exec(limit, front).value, step)
  }

  function QueuedBy(limit: nat, s: State, step: Step): seq<Job> {
    if !step.Finish? && s.inFlight == limit then [step.job] else []
  }

  /** The calls woken by a run, in order: those that leave the queue for the woken ones. */
  ghost function Woken(limit: nat, steps: seq<Step>): seq<Job>
    requires Exec(limit, steps).Some?
  {
    if steps == [] then []
    else
      var front := steps[..|steps| - 1];
      Woken(limit, front) + Newly(Exec(limit, front).value.woken, Exec(limit, steps).value.woken)
  }

  ghost function Newly(before: set<Job>, after: set<Job>): seq<Job> {
    if after - before == {} then [] else var job :| job in after - before; [job]
  }

  lemma {:induction false} NewlyNone(before: set<Job>, after: set<Job>)
    requires after <= before
    ensures Newly(before, after) == []
  {
    assert after - before == {};
  }

  lemma {:induction false} NewlyOne(before: set<Job>, job: Job)
    requires job !in before
    ensures Newly(before, before + {job}) == [job]
  {
    assert (before + {job}) - before == {job};
  }

  lemma {:induction false} TestQueuesAtTheEnd(limit: nat, s: State, job: Job)
    requires Counted(limit, s)
    ensures Newly(s.woken, Tested(limit, s, job).woken) == []
    ensures Tested(limit, s, job).waiters == s.waiters + (if s.inFlight == limit then [job] else [])
  {
    NewlyNone(s.woken, Tested(limit, s, job).woken);
  }

  lemma {:induction false} StepKeepsOrder(limit: nat, s: State, step: Step)
    requires Inv(limit, s) && Enabled(s, step)
    ensures Newly(s.woken, Next(limit, s, step).woken) + Next(limit, s, step).waiters
         == s.waiters + QueuedBy(limit, s, step)
  {
    if step.Finish? { FinishWakesTheFirst(s, step.job); } else { TestQueuesAtTheEnd(limit, s, step.job); }
  }

  lemma {:induction false} Onward(w: seq<Job>, waiters: seq<Job>, queued: seq<Job>, newly: seq<Job>, after: seq<Job>)
    requires newly + after == waiters + queued
    ensures (w + waiters) + queued == (w + newly) + after
  {
    Associate(w, waiters, queued);
    Associate(w, newly, after);
  }

  /** Calls are woken in the order they queued, one by one: what has queued is what has been
      woken, followed by what waits. */
  lemma {:induction false} WokenInOrder(limit: nat, steps: seq<Step>)
    requires Exec(limit, steps).Some?
    ensures Queued(limit, steps) == Woken(limit, steps) + Exec(limit, steps).value.waiters
  {
    if steps != [] {
      var front, step := steps[..|steps| - 1], steps[|steps| - 1];
      var s := Exec(limit, front).value;
      var t := Next(limit, s, step);
      WokenInOrder(limit, front);
      RunsStayBounded(limit, front);
      StepKeepsOrder(limit, s, step);
      Onward(Woken(limit, front), s.waiters, QueuedBy(limit, s, step), Newly(s.woken, t.woken), t.waiters);
    }
  }

  lemma {:induction false} FinishWakesTheFirst(s: State, job: Job)
    requires Apart(s) && job in s.running && s.inFlight > 0
    ensures Newly(s.woken, Released(s, job).woken) + Released(s, job).waiters == s.waiters
  {
    if s.waiters == [] {
      NewlyNone(s.woken, s.woken);
    } else {
      NewlyOne(s.woken, s.waiters[0]);
    }
  }

  // ---- every call finishes -----------------------------------------------

  /** What is left to do when only the jobs of `all` are ever called. */
  ghost function Work(all: set<Job>, s: State): int {
    2 * |all - s.done| + |all - Started(s)| + |s.woken|
  }

  lemma {:induction false} OneFewerLeft(all: set<Job>, before: set<Job>, after: set<Job>, job: Job)
    requires job in all && job !in before && after == before + {job}
    ensures |all - after| == |all - before| - 1
  {
    assert all - after == (all - before) - {job};
  }

  lemma {:induction false} CallDoesWork(limit: nat, all: set<Job>, s: State, job: Job)
    requires Inv(limit, s) && job in all && !IsStarted(s, job)
    ensures Work(all, Tested(limit, s, job)) < Work(all, s)
  {
    StepKeepsInv(limit, s, Call(job));
    OneFewerLeft(all, Started(s), Started(Tested(limit, s, job)), job);
    assert s.woken - {job} == s.woken;
  }

  lemma {:induction false} RetryDoesWork(limit: nat, all: set<Job>, s: State, job: Job)
    requires Inv(limit, s) && job in s.woken
    ensures Work(all, Tested(limit, s, job)) < Work(all, s)
  {
    StepKeepsInv(limit, s, Retry(job));
    assert Started(s) + {job} == Started(s);
    assert |s.woken - {job}| == |s.woken| - 1;
  }

  lemma {:induction false} ReleaseIsDone(s: State, job: Job)
    requires Apart(s) && job in s.running && s.inFlight > 0
    ensures job !in s.done && Released(s, job).done == s.done + {job}
    ensures |Released(s, job).woken| <= |s.woken| + 1
  {
  }

  lemma {:induction false} FinishDoesWork(limit: nat, all: set<Job>, s: State, job: Job)
    requires Inv(limit, s) && job in all && job in s.running && s.inFlight > 0
    ensures Work(all, Released(s, job)) < Work(all, s)
  {
    StepKeepsInv(limit, s, Finish(job));
    assert Started(s) + {job} == Started(s);
    ReleaseIsDone(s, job);
    OneFewerLeft(all, s.done, Released(s, job).done, job);
  }

  lemma {:induction false} StepDoesWork(limit: nat, all: set<Job>, s: State, step: Step)
    requires Inv(limit, s) && Enabled(s, step) && step.job in all
    ensures Work(all, Next(limit, s, step)) < Work(all, s)
  {
    match step
    case Call(job) => CallDoesWork(limit, all, s, job);
    case Retry(job) => RetryDoesWork(limit, all, s, job);
    case Finish(job) => FinishDoesWork(limit, all, s, job);
  }

  /** A run over `n` jobs has at most `3n` steps, whatever the interleaving: being overtaken
      and queueing again cannot go on for ever. */
  lemma {:induction false} RunsAreShort(limit: nat, all: set<Job>, steps: seq<Step>)
    requires Exec(limit, steps).Some? && forall i :: 0 <= i < |steps| ==> steps[i].job in all
    ensures Started(Exec(limit, steps).value) <= all
    ensures |steps| + Work(all, Exec(limit, steps).value) <= 3 * |all|
    ensures |steps| <= 3 * |all|
  {
    if steps == [] {
      assert all - {} == all;
      assert Started(INITIAL) == {};
    } else {
      var front, last := steps[..|steps| - 1], steps[|steps| - 1];
      RunsAreShort(limit, all, front);
      RunsStayBounded(limit, front);
      StepDoesWork(limit, all, Exec(limit, front).value, last);
      StepKeepsInv(limit, Exec(limit, front).value, last);
    }
  }

  /** A run that cannot be extended has finished every job: there is no deadlock. */
  lemma {:induction false} StuckRunsAreComplete(limit: nat, all: set<Job>, steps: seq<Step>)
    requires limit > 0 && Exec(limit, steps).Some? && forall i :: 0 <= i < |steps| ==> steps[i].job in all
    requires forall step: Step :: step.job in all ==> !Enabled(Exec(limit, steps).value, step)
    ensures var s := Exec(limit, steps).value;
            s.done == all && s.waiters == [] && s.inFlight == 0
  {
    var s := Exec(limit, steps).value;
    RunsStayBounded(limit, steps);
    RunsAreShort(limit, all, steps);
    forall job | job in all ensures job in Started(s) && job !in s.woken && job !in s.running {
      assert !Enabled(s, Call(job)) && !Enabled(s, Retry(job)) && !Enabled(s, Finish(job));
      assert s.running != {} ==> |s.running| > 0;
    }
    assert s.running == {} && s.woken == {};
    assert s.waiters == [];
  }

  /** The queue is not first-come-first-served: job 2 arrives last, yet takes the slot job 1
      was woken for, and job 1 queues again. */
  lemma {:induction false} NewcomerOvertakes()
    ensures var steps := [Call(Ingest(0)), Call(Ingest(1)), Finish(Ingest(0)), Call(Ingest(2)), Retry(Ingest(1))];
            && Exec(1, steps).Some?
            && Exec(1, steps).value.running == {Ingest(2)}
            && Exec(1, steps).value.waiters == [Ingest(1)]
  {
    var c0 := [Call(Ingest(0))];
    var c1 := c0 + [Call(Ingest(1))];
    var c2 := c1 + [Finish(Ingest(0))];
    var c3 := c2 + [Call(Ingest(2))];
    var c4 := c3 + [Retry(Ingest(1))];
    assert c0[..0] == [] && c1[..1] == c0 && c2[..2] == c1 && c3[..3] == c2 && c4[..4] == c3;
    var s0 := Tested(1, INITIAL, Ingest(0));
    assert Exec(1, []) == Some(INITIAL);
    assert Exec(1, c0) == Some(s0);
    var s1 := Tested(1, s0, Ingest(1));
    assert Exec(1, c1) == Some(s1);
    assert s1.waiters == [Ingest(1)];
    var s2 := Released(s1, Ingest(0));
    assert Exec(1, c2) == Some(s2);
    var s3 := Tested(1, s2, Ingest(2));
    assert Exec(1, c3) == Some(s3);
    assert Exec(1, c4) == Some(Tested(1, s3, Ingest(1)));
    assert c4 == [Call(Ingest(0)), Call(Ingest(1)), Finish(Ingest(0)), Call(Ingest(2)), Retry(Ingest(1))];
  }
}
