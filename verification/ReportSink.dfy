/** The recall report's response sink: the backpressured `write`, with its drain, close and
    timer callbacks, and `finishRecallReport`, which ends, destroys or rethrows.

    The chunks are those `streamRecallCsvInTx` would write; a run may fail anywhere. */
module ReportSink {
  import opened Sequences

  // ---- the chunks --------------------------------------------------------

  /** A line of the file: the column header, a meta or section row, or the closing row with
      the count of the rows before it. */
  datatype Line = Head | Row(id: nat) | EndRow(count: nat)

  type Chunk = seq<Line>

  const FLUSH_LINES := 500

  function ChunkLines(): Chunk -> seq<Line> { (c: Chunk) => c }

  function Lines(chunks: seq<Chunk>): seq<Line> { FlatMap(chunks, ChunkLines()) }

  /** Flush-by-flush chunks of the whole file, each non-empty, the closing row last of all. */
  method PlanChunks(meta: seq<nat>, rows: seq<nat>) returns (chunks: seq<Chunk>)
    ensures chunks != [] && forall c :: c in chunks ==> c != []
    ensures Lines(chunks) == [Head] + Map(meta + rows, RowLine) + [EndRow(|meta| + |rows|)]
    ensures forall i :: 0 < i < |chunks| - 1 ==> |chunks[i]| == 500
    ensures |chunks| > 1 ==> |chunks[0]| == Max(500, |meta| + 2) && |chunks[|chunks| - 1]| <= 500
  {
    chunks := [];
    var buffered: Chunk := [Head];
    var count := 0;
    for i := 0 to |meta|
      invariant count == i && buffered == [Head] + Map(meta[..i], RowLine)
    {
      assert Map(meta[..i + 1], RowLine) == Map(meta[..i], RowLine) + [Row(meta[i])];
      buffered := buffered + [Row(meta[i])];
      count := count + 1;
    }
    assert meta[..|meta|] == meta;
    for i := 0 to |rows|
      invariant count == |meta| + i
      invariant Lines(chunks) + buffered == [Head] + Map(meta + rows[..i], RowLine)
      invariant forall c :: c in chunks ==> c != []
      invariant forall j :: 0 < j < |chunks| ==> |chunks[j]| == 500
      invariant chunks == [] ==> |buffered| == 1 + |meta| + i && (i > 0 ==> |buffered| < 500)
      invariant chunks != [] ==> |chunks[0]| == Max(500, |meta| + 2) && |buffered| < 500
    {
      RowAppended(meta, rows, i);
      ghost var before := buffered;
      buffered := buffered + [Row(rows[i])];
      assert Lines(chunks) + buffered == Lines(chunks) + before + [Row(rows[i])];
      count := count + 1;
      if |buffered| >= FLUSH_LINES {
        FlatMapSnoc(chunks, buffered, ChunkLines());
        chunks, buffered := chunks + [buffered], [];
      }
    }
    assert rows[..|rows|] == rows;
    ghost var before := buffered;
    buffered := buffered + [EndRow(count)];
    assert Lines(chunks) + buffered == Lines(chunks) + before + [EndRow(count)];
    FlatMapSnoc(chunks, buffered, ChunkLines());
    chunks := chunks + [buffered];
  }

  function RowLine(id: nat): Line { Row(id) }

  lemma {:induction false} RowAppended(meta: seq<nat>, rows: seq<nat>, i: nat)
    requires i < |rows|
    ensures Map(meta + rows[..i + 1], RowLine) == Map(meta + rows[..i], RowLine) + [Row(rows[i])]
  {
    assert meta + rows[..i + 1] == (meta + rows[..i]) + [rows[i]];
  }

  /** A file as `PlanChunks` plans it: one closing row, at the very end. */
  ghost predicate WellClosed(chunks: seq<Chunk>) {
    && chunks != [] && chunks[|chunks| - 1] != []
    && (forall i :: 0 <= i < |Lines(chunks)| ==> (Lines(chunks)[i].EndRow? <==> i == |Lines(chunks)| - 1))
  }

  lemma {:induction false} PlansAreWellClosed(chunks: seq<Chunk>, ids: seq<nat>, count: nat)
    requires chunks != [] && (forall c :: c in chunks ==> c != [])
    requires Lines(chunks) == [Head] + Map(ids, RowLine) + [EndRow(count)]
    ensures WellClosed(chunks)
  {
    assert chunks[|chunks| - 1] in chunks;
  }

  /** A prefix of the chunks shows its closing row if and only if it is the whole file: a
      truncated file is recognisable. */
  lemma {:induction false} ClosedMeansWhole(chunks: seq<Chunk>, k: nat)
    requires WellClosed(chunks) && k <= |chunks|
    ensures (exists line :: line in Lines(chunks[..k]) && line.EndRow?) <==> k == |chunks|
  {
    LinesSplit(chunks, k);
    var all, head, tail := Lines(chunks), Lines(chunks[..k]), Lines(chunks[k..]);
    if k == |chunks| {
      assert chunks[..k] == chunks;
      LastLine(chunks);
      assert all[|all| - 1] in all;
    } else {
      LastLine(chunks[k..]);
      forall line | line in head ensures !line.EndRow? {
        var i :| 0 <= i < |head| && head[i] == line;
        assert all[i] == line;
      }
    }
  }

  lemma {:induction false} LinesSplit(chunks: seq<Chunk>, k: nat)
    requires k <= |chunks|
    ensures Lines(chunks) == Lines(chunks[..k]) + Lines(chunks[k..])
    decreases |chunks|
  {
    if k == |chunks| {
      assert chunks[..k] == chunks && Lines([]) == [];
    } else {
      var front, last := chunks[..|chunks| - 1], chunks[|chunks| - 1];
      LinesSplit(front, k);
      assert front[..k] == chunks[..k] && chunks[k..] == front[k..] + [last];
      FlatMapSnoc(front[k..], last, ChunkLines());
    }
  }

  lemma {:induction false} LastLine(chunks: seq<Chunk>)
    requires chunks != [] && chunks[|chunks| - 1] != []
    ensures Lines(chunks) != []
  {
  }

  // ---- one response ------------------------------------------------------

  /** How a write's promise settled: taken at once, or after a drain; refused because the
      client was gone, closed while waiting, or timed out. */
  datatype How = Accepted | Drained | Refused | Closed | TimedOut

  predicate Resolves(how: How) { how == Accepted || how == Drained }

  datatype Settled = Settled(write: nat, how: How)

  /** The response, its listeners by write, the armed timers, and the settlements made. */
  datatype Sink = Sink(
    destroyed: bool, ended: bool, sent: seq<Chunk>,
    onDrain: seq<nat>, onClose: seq<nat>, timers: set<nat>, log: seq<Settled>)

  const OPEN := Sink(false, false, [], [], [], {}, [])

  function Other(w: nat): nat -> bool { (x: nat) => x != w }

  function Off(listeners: seq<nat>, w: nat): seq<nat> { Filter(listeners, Other(w)) }

  function Settle(s: Sink, w: nat, how: How): Sink { s.(log := s.log + [Settled(w, how)]) }

  function Written(s: Sink, w: nat, chunk: Chunk, accepts: bool): Sink {
    if s.destroyed || s.ended then Settle(s, w, Refused)
    else
      var t := s.(sent := s.sent + [chunk]);
      if accepts then Settle(t, w, Accepted)
      else t.(timers := t.timers + {w}, onDrain := t.onDrain + [w], onClose := t.onClose + [w])
  }

  /** A waiting write settles: its timer and both its listeners go with it. */
  function Stopped(s: Sink, w: nat, how: How): Sink {
    Settle(s.(timers := s.timers - {w}, onDrain := Off(s.onDrain, w), onClose := Off(s.onClose, w)), w, how)
  }

  /** An emitted event calls the listeners of its moment, in order, each once. */
  function Emitted(s: Sink, listeners: seq<nat>, how: How): Sink
    decreases |listeners|
  {
    if listeners == [] then s else Emitted(Stopped(s, listeners[0], how), listeners[1..], how)
  }

  ghost predicate IsSettled(s: Sink, w: nat) { exists i :: 0 <= i < |s.log| && s.log[i].write == w }

  ghost predicate IsStarted(s: Sink, w: nat) { w in s.timers || IsSettled(s, w) }

  /** A write is waiting exactly while its timer and both its listeners are there; otherwise it
      has settled, once. */
  ghost predicate SinkInv(s: Sink) {
    && NoDuplicates(s.onDrain) && NoDuplicates(s.onClose)
    && (forall w :: w in s.onDrain <==> w in s.timers)
    && (forall w :: w in s.onClose <==> w in s.timers)
    && (forall i :: 0 <= i < |s.log| ==> s.log[i].write !in s.timers)
    && (forall i, j :: 0 <= i < j < |s.log| ==> s.log[i].write != s.log[j].write)
  }

  lemma {:induction false} OffKeepsOthers(listeners: seq<nat>, w: nat)
    requires NoDuplicates(listeners)
    ensures NoDuplicates(Off(listeners, w))
    ensures forall x :: x in Off(listeners, w) <==> x in listeners && x != w
  {
    if listeners != [] { OffKeepsOthers(listeners[..|listeners| - 1], w); }
  }

  lemma {:induction false} WrittenKeepsInv(s: Sink, w: nat, chunk: Chunk, accepts: bool)
    requires SinkInv(s) && !IsStarted(s, w)
    ensures SinkInv(Written(s, w, chunk, accepts))
    ensures forall x :: IsStarted(Written(s, w, chunk, accepts), x) <==> IsStarted(s, x) || x == w
  {
    StartedAfterSettle(s, w, Refused);
    StartedAfterSettle(s.(sent := s.sent + [chunk]), w, Accepted);
    var t := Written(s, w, chunk, accepts);
    forall x ensures IsStarted(t, x) <==> IsStarted(s, x) || x == w {}
  }

  lemma {:induction false} StartedAfterSettle(s: Sink, w: nat, how: How)
    ensures forall x :: IsSettled(Settle(s, w, how), x) <==> IsSettled(s, x) || x == w
  {
    var t := Settle(s, w, how);
    forall x ensures IsSettled(t, x) <==> IsSettled(s, x) || x == w {
      if x == w { assert t.log[|s.log|].write == w; }
      if IsSettled(s, x) {
        var i :| 0 <= i < |s.log| && s.log[i].write == x;
        assert t.log[i].write == x;
      }
    }
  }

  lemma {:induction false} StoppedKeepsInv(s: Sink, w: nat, how: How)
    requires SinkInv(s) && w in s.timers
    ensures SinkInv(Stopped(s, w, how))
    ensures forall x :: IsStarted(Stopped(s, w, how), x) <==> IsStarted(s, x)
  {
    OffKeepsOthers(s.onDrain, w);
    OffKeepsOthers(s.onClose, w);
    var u := s.(timers := s.timers - {w}, onDrain := Off(s.onDrain, w), onClose := Off(s.onClose, w));
    StartedAfterSettle(u, w, how);
    forall x ensures IsSettled(u, x) <==> IsSettled(s, x) {}
  }

  /** The listeners an event calls: those of every waiting write. */
  ghost predicate Everyone(s: Sink, listeners: seq<nat>) {
    NoDuplicates(listeners) && forall w :: w in listeners <==> w in s.timers
  }

  /** Calling the first of them leaves the others waiting. */
  lemma {:induction false} StopFirst(s: Sink, listeners: seq<nat>, how: How)
    requires SinkInv(s) && Everyone(s, listeners) && listeners != []
    ensures listeners[0] in s.timers
    ensures SinkInv(Stopped(s, listeners[0], how)) && Everyone(Stopped(s, listeners[0], how), listeners[1..])
  {
    assert listeners == [listeners[0]] + listeners[1..];
    StoppedKeepsInv(s, listeners[0], how);
    assert listeners[0] !in listeners[1..];
  }

  /** After an emitted event nobody waits: every waiting write has settled. */
  lemma {:induction false} EmittedToAll(s: Sink, listeners: seq<nat>, how: How)
    requires SinkInv(s) && Everyone(s, listeners)
    ensures SinkInv(Emitted(s, listeners, how)) && NoListeners(Emitted(s, listeners, how))
    decreases |listeners|
  {
    if listeners == [] {
      assert s.timers == {};
      DistinctCardinality(s.onDrain);
      DistinctCardinality(s.onClose);
      assert ToSet(s.onDrain) == {} && ToSet(s.onClose) == {};
    } else {
      StopFirst(s, listeners, how);
      EmittedToAll(Stopped(s, listeners[0], how), listeners[1..], how);
    }
  }

  ghost predicate NoListeners(s: Sink) { s.timers == {} && s.onDrain == [] && s.onClose == [] }

  // ---- the code ----------------------------------------------------------

  datatype RunResult = Returned | Threw(busy: bool)

  class Response {
    var destroyed: bool
    var ended: bool
    var headersSent: bool
    var retryAfter: bool
    var sent: seq<Chunk>
    var onDrain: seq<nat>
    var onClose: seq<nat>
    var timers: set<nat>
    ghost var log: seq<Settled>
    ghost var run: Run

    ghost function Now(): Sink reads this { Sink(destroyed, ended, sent, onDrain, onClose, timers, log) }

    /** The response together with where its report run stands. */
    ghost function Whole(): Download reads this { Download(Now(), headersSent, run) }

    constructor ()
      ensures Whole() == STARTED && !retryAfter
    {
      run := Preparing;
      destroyed, ended, headersSent, retryAfter := false, false, false, false;
      sent, onDrain, onClose, timers, log := [], [], [], {}, [];
    }

    /** `begin`: the caller's pre-byte work, and only then the headers. A refusal leaves the
        response as it was, so that it can still be answered with a problem. */
    method Begin(ghost chunks: seq<Chunk>, beforeHeadersSucceeds: bool) returns (ok: bool)
      requires Inv(chunks, Whole()) && run.Preparing?
      modifies this`headersSent, this`run
      ensures Inv(chunks, Whole())
      ensures ok ==> Whole() == Next(chunks, Next(chunks, old(Whole()), Prepares), Flushes)
      ensures !ok ==> Whole() == old(Whole()) && !headersSent
      ensures ok <==> beforeHeadersSucceeds
    {
      if !beforeHeadersSucceeds { return false; }
      run := Cleared;
      headersSent := true;
      run := Walking(0);
      ok := true;
    }

    /** `write`: refuse, pass on, or wait. `accepts` is what `res.write` answers. */
    method Write(w: nat, chunk: Chunk, accepts: bool)
      requires SinkInv(Now()) && !IsStarted(Now(), w)
      modifies this`sent, this`onDrain, this`onClose, this`timers, this`log
      ensures SinkInv(Now()) && Now() == Written(old(Now()), w, chunk, accepts)
    {
      WrittenKeepsInv(Now(), w, chunk, accepts);
      if destroyed || ended {
        log := log + [Settled(w, Refused)];
        return;
      }
      sent := sent + [chunk];
      if accepts {
        log := log + [Settled(w, Accepted)];
        return;
      }
      timers := timers + {w};
      onDrain, onClose := onDrain + [w], onClose + [w];
    }

    /** What `onDrain`, `onClose` and the timer have in common: clear the timer, take both
        listeners off, settle. */
    method Stop(w: nat, how: How)
      requires SinkInv(Now()) && w in timers
      modifies this`onDrain, this`onClose, this`timers, this`log
      ensures SinkInv(Now()) && Now() == Stopped(old(Now()), w, how)
    {
      StoppedKeepsInv(Now(), w, how);
      timers := timers - {w};
      onDrain, onClose := Off(onDrain, w), Off(onClose, w);
      log := log + [Settled(w, how)];
    }

    /** Node calls the drain listeners of the moment, in order. */
    method EmitDrain()
      requires SinkInv(Now())
      modifies this`onDrain, this`onClose, this`timers, this`log
      ensures SinkInv(Now()) && NoListeners(Now()) && Now() == Emitted(old(Now()), old(onDrain), Drained)
    {
      ghost var start := Now();
      var listeners := onDrain;
      for i := 0 to |listeners|
        invariant SinkInv(Now()) && Everyone(Now(), listeners[i..])
        invariant Emitted(start, listeners, Drained) == Emitted(Now(), listeners[i..], Drained)
      {
        StopFirst(Now(), listeners[i..], Drained);
        assert listeners[i..][1..] == listeners[i + 1..];
        Stop(listeners[i], Drained);
      }
      EmittedToAll(start, listeners, Drained);
    }

    method EmitClose()
      requires SinkInv(Now())
      modifies this`onDrain, this`onClose, this`timers, this`log
      ensures SinkInv(Now()) && NoListeners(Now()) && Now() == Emitted(old(Now()), old(onClose), Closed)
    {
      ghost var start := Now();
      var listeners := onClose;
      for i := 0 to |listeners|
        invariant SinkInv(Now()) && Everyone(Now(), listeners[i..])
        invariant Emitted(start, listeners, Closed) == Emitted(Now(), listeners[i..], Closed)
      {
        StopFirst(Now(), listeners[i..], Closed);
        assert listeners[i..][1..] == listeners[i + 1..];
        Stop(listeners[i], Closed);
      }
      EmittedToAll(start, listeners, Closed);
    }

    /** `finishRecallReport`, once `run` has returned or thrown; true when it rethrows. */
    method Finish(ghost chunks: seq<Chunk>, result: RunResult) returns (rethrown: bool)
      requires Inv(chunks, Whole()) && Enabled(chunks, Whole(), EndOf(result))
      modifies this`ended, this`destroyed, this`retryAfter, this`run
      ensures Inv(chunks, Whole()) && Whole() == Next(chunks, old(Whole()), EndOf(result))
      ensures rethrown <==> run.Over? && run.outcome.Rethrown?
      ensures rethrown <==> result.Threw? && !headersSent
      ensures retryAfter == (old(retryAfter) || (rethrown && result.busy))
    {
      EventKeepsInv(chunks, Whole(), EndOf(result));
      if result.Threw? {
        if headersSent {
          destroyed := true;
          run := Over(Destroyed);
          return false;
        }
        if result.busy { retryAfter := true; }
        run := Over(Rethrown(result.busy));
        return true;
      }
      ended := true;
      run := Over(Ended);
      rethrown := false;
    }
  }

  function EndOf(result: RunResult): Event {
    match result case Returned => RunReturns case Threw(busy) => RunFails(busy)
  }

  function Finished(s: Sink, headersSent: bool, result: RunResult): Sink {
    if result.Returned? then s.(ended := true) else if headersSent then s.(destroyed := true) else s
  }

  // ---- a whole download --------------------------------------------------

  datatype Outcome = Rethrown(busy: bool) | Destroyed | Ended

  /** Where the report run stands: at its pre-byte work, done with it, about to write chunk
      `next`, waiting for it, or finished. */
  datatype Run = Preparing | Cleared | Walking(next: nat) | Awaiting(next: nat) | Over(outcome: Outcome)

  datatype Download = Download(sink: Sink, headersSent: bool, run: Run)

  const STARTED := Download(OPEN, false, Preparing)

  datatype Event =
    | Prepares                  // the pre-byte work succeeded
    | Flushes                   // the headers go out
    | Writes(accepts: bool)     // the walk writes its next chunk
    | Drains | Closes           // the socket's events
    | TimesOut(write: nat)
    | ClientGoes                // the connection is gone, its close event still to come
    | RunFails(busy: bool)      // the run throws for a reason of its own, at any point
    | RunReturns

  /** The run threw: `finishRecallReport` takes over. */
  function Failed(d: Download, busy: bool): Download {
    Download(Finished(d.sink, d.headersSent, Threw(busy)), d.headersSent,
             Over(if d.headersSent then Destroyed else Rethrown(busy)))
  }

  ghost predicate Enabled(chunks: seq<Chunk>, d: Download, e: Event) {
    match e
    case Prepares => d.run.Preparing?
    case Flushes => d.run.Cleared?
    case Writes(_) => d.run.Walking? && d.run.next < |chunks|
    case Drains => true
    case Closes => d.sink.destroyed || d.sink.ended
    case TimesOut(w) => w in d.sink.timers
    case ClientGoes => true
    case RunFails(_) => !d.run.Over?
    case RunReturns => d.run.Walking? && d.run.next == |chunks|
  }

  ghost function Next(chunks: seq<Chunk>, d: Download, e: Event): Download
    requires Enabled(chunks, d, e)
  {
    match e
    case Prepares => d.(run := Cleared)
    case Flushes => d.(headersSent := true, run := Walking(0))
    case Writes(accepts) =>
      var k := d.run.next;
      var t := d.(sink := Written(d.sink, k, chunks[k], accepts));
      if d.sink.destroyed || d.sink.ended then Failed(t, false)
      else if accepts then t.(run := Walking(k + 1))
      else t.(run := Awaiting(k))
    case Drains =>
      var t := d.(sink := Emitted(d.sink, d.sink.onDrain, Drained));
      if d.run.Awaiting? then t.(run := Walking(d.run.next + 1)) else t
    case Closes =>
      var t := d.(sink := Emitted(d.sink, d.sink.onClose, Closed));
      if d.run.Awaiting? then Failed(t, false) else t
    case TimesOut(w) =>
      var t := d.(sink := Stopped(d.sink, w, TimedOut));
      if d.run.Awaiting? then Failed(t, false) else t
    case ClientGoes => d.(sink := d.sink.(destroyed := true))
    case RunFails(busy) => Failed(d, busy)
    case RunReturns => Download(Finished(d.sink, d.headersSent, Returned), d.headersSent, Over(Ended))
  }

  ghost function Exec(chunks: seq<Chunk>, events: seq<Event>): Option<Download> {
    if events == [] then Some(STARTED)
    else match Exec(chunks, events[..|events| - 1])
      case None => None
      case Some(d) =>
        if Enabled(chunks, d, events[|events| - 1]) then Some(Next(chunks, d, events[|events| - 1])) else None
  }

  /** Where each write of the walk stands; only the last one can be waiting. */
  ghost predicate WritesInOrder(d: Download, settled: nat) {
    && |d.sink.log| == settled
    && forall i :: 0 <= i < settled ==> d.sink.log[i].write == i
  }

  ghost predicate AllResolved(d: Download) { forall i :: 0 <= i < |d.sink.log| ==> Resolves(d.sink.log[i].how) }

  ghost predicate WaitsFor(s: Sink, w: nat) { s.timers == {w} && s.onDrain == [w] && s.onClose == [w] }

  ghost predicate Inv(chunks: seq<Chunk>, d: Download) {
    && SinkInv(d.sink)
    && match d.run
       case Preparing =>
         !d.headersSent && d.sink.sent == [] && !d.sink.ended && NoListeners(d.sink) && WritesInOrder(d, 0)
       case Cleared =>
         !d.headersSent && d.sink.sent == [] && !d.sink.ended && NoListeners(d.sink) && WritesInOrder(d, 0)
       case Walking(k) =>
         && d.headersSent && !d.sink.ended && k <= |chunks| && d.sink.sent == chunks[..k]
         && NoListeners(d.sink) && WritesInOrder(d, k) && AllResolved(d)
       case Awaiting(k) =>
         && d.headersSent && !d.sink.ended && k < |chunks| && d.sink.sent == chunks[..k + 1]
         && WaitsFor(d.sink, k) && WritesInOrder(d, k) && AllResolved(d)
       case Over(Rethrown(_)) => !d.headersSent && d.sink.sent == [] && !d.sink.ended && NoListeners(d.sink)
       case Over(Destroyed) =>
         && d.headersSent && d.sink.destroyed && !d.sink.ended && d.sink.sent <= chunks
         && (NoListeners(d.sink) || (d.sink.sent != [] && WaitsFor(d.sink, |d.sink.sent| - 1)))
       case Over(Ended) =>
         && d.headersSent && d.sink.ended && d.sink.sent == chunks
         && NoListeners(d.sink) && WritesInOrder(d, |chunks|) && AllResolved(d)
  }

  lemma {:induction false} EmittedOne(s: Sink, w: nat, how: How)
    requires SinkInv(s) && WaitsFor(s, w)
    ensures Emitted(s, [w], how) == Stopped(s, w, how)
    ensures SinkInv(Stopped(s, w, how)) && NoListeners(Stopped(s, w, how))
  {
    assert [w][1..] == [];
    EmittedToAll(s, [w], how);
  }

  lemma {:induction false} WriteKeepsInv(chunks: seq<Chunk>, d: Download, accepts: bool)
    requires Inv(chunks, d) && Enabled(chunks, d, Writes(accepts))
    ensures Inv(chunks, Next(chunks, d, Writes(accepts)))
  {
    var k := d.run.next;
    WrittenKeepsInv(d.sink, k, chunks[k], accepts);
    assert chunks[..k + 1] == chunks[..k] + [chunks[k]];
    assert {} + {k} == {k};
  }

  /** An emitted event either finds nobody waiting, or settles the one write that is. */
  lemma {:induction false} EmittedSettles(chunks: seq<Chunk>, d: Download, listeners: seq<nat>, how: How)
    requires Inv(chunks, d) && (listeners == d.sink.onDrain || listeners == d.sink.onClose)
    ensures NoListeners(d.sink) ==> Emitted(d.sink, listeners, how) == d.sink
    ensures !NoListeners(d.sink) ==>
              && d.sink.sent != [] && WaitsFor(d.sink, |d.sink.sent| - 1)
              && Emitted(d.sink, listeners, how) == Stopped(d.sink, |d.sink.sent| - 1, how)
              && SinkInv(Emitted(d.sink, listeners, how)) && NoListeners(Emitted(d.sink, listeners, how))
  {
    if !NoListeners(d.sink) { EmittedOne(d.sink, |d.sink.sent| - 1, how); }
  }

  lemma {:induction false} DrainKeepsInv(chunks: seq<Chunk>, d: Download)
    requires Inv(chunks, d)
    ensures Inv(chunks, Next(chunks, d, Drains))
  {
    if d.run.Awaiting? {
      ResumeKeepsInv(chunks, d);
    } else {
      EmittedSettles(chunks, d, d.sink.onDrain, Drained);
    }
  }

  lemma {:induction false} ResumeKeepsInv(chunks: seq<Chunk>, d: Download)
    requires Inv(chunks, d) && d.run.Awaiting?
    ensures Inv(chunks, Next(chunks, d, Drains))
  {
    EmittedOne(d.sink, d.run.next, Drained);
  }

  lemma {:induction false} CloseKeepsInv(chunks: seq<Chunk>, d: Download)
    requires Inv(chunks, d) && Enabled(chunks, d, Closes)
    ensures Inv(chunks, Next(chunks, d, Closes))
  {
    EmittedSettles(chunks, d, d.sink.onClose, Closed);
  }

  lemma {:induction false} OneIsWaiting(chunks: seq<Chunk>, d: Download, w: nat)
    requires Inv(chunks, d) && w in d.sink.timers
    ensures d.sink.sent != [] && w == |d.sink.sent| - 1 && WaitsFor(d.sink, w)
    ensures d.run.Awaiting? || d.run == Over(Destroyed)
    ensures d.run.Awaiting? ==> w == d.run.next
  {
  }

  lemma {:induction false} GivingUpKeepsInv(chunks: seq<Chunk>, d: Download, how: How)
    requires Inv(chunks, d) && d.run.Awaiting?
    ensures Inv(chunks, Failed(d.(sink := Stopped(d.sink, d.run.next, how)), false))
  {
    EmittedOne(d.sink, d.run.next, how);
  }

  lemma {:induction false} TimeoutKeepsInv(chunks: seq<Chunk>, d: Download, w: nat)
    requires Inv(chunks, d) && w in d.sink.timers
    ensures Inv(chunks, Next(chunks, d, TimesOut(w)))
  {
    OneIsWaiting(chunks, d, w);
    EmittedOne(d.sink, w, TimedOut);
    if d.run.Awaiting? { GivingUpKeepsInv(chunks, d, TimedOut); }
  }

  lemma {:induction false} EventKeepsInv(chunks: seq<Chunk>, d: Download, e: Event)
    requires Inv(chunks, d) && Enabled(chunks, d, e)
    ensures Inv(chunks, Next(chunks, d, e))
  {
    match e
    case Writes(accepts) => WriteKeepsInv(chunks, d, accepts);
    case Drains => DrainKeepsInv(chunks, d);
    case Closes => CloseKeepsInv(chunks, d);
    case TimesOut(w) => TimeoutKeepsInv(chunks, d, w);
    case RunReturns => assert chunks[..|chunks|] == chunks;
    case _ =>
  }

  lemma {:induction false} DownloadsKeepInv(chunks: seq<Chunk>, events: seq<Event>)
    requires Exec(chunks, events).Some?
    ensures Inv(chunks, Exec(chunks, events).value)
  {
    if events != [] {
      DownloadsKeepInv(chunks, events[..|events| - 1]);
      EventKeepsInv(chunks, Exec(chunks, events[..|events| - 1]).value, events[|events| - 1]);
    }
  }

  /** However a download goes, its outcome is exactly one of three: the problem is rethrown
      with no header and no byte sent; the socket is destroyed after the headers, with some
      first chunks of the file and no normal end; or it ends normally with every chunk in
      order, each taken by the socket before the next was written. */
  lemma {:induction false} OutcomeIsExact(chunks: seq<Chunk>, events: seq<Event>)
    requires Exec(chunks, events).Some? && Exec(chunks, events).value.run.Over?
    ensures var d := Exec(chunks, events).value;
            match d.run.outcome
            case Rethrown(_) => !d.headersSent && d.sink.sent == [] && !d.sink.ended
            case Destroyed => d.headersSent && d.sink.destroyed && d.sink.sent <= chunks && !d.sink.ended
            case Ended =>
              d.headersSent && d.sink.ended && d.sink.sent == chunks && AllResolved(d) && NoListeners(d.sink)
  {
    DownloadsKeepInv(chunks, events);
  }

  lemma {:induction false} OnlyReturningEnds(chunks: seq<Chunk>, d: Download, e: Event)
    requires Inv(chunks, d) && Enabled(chunks, d, e)
    ensures Next(chunks, d, e).sink.ended <==> d.sink.ended || e == RunReturns
    ensures Next(chunks, d, e).headersSent <==> d.headersSent || e == Flushes
  {
    EmittedSettles(chunks, d, d.sink.onDrain, Drained);
    EmittedSettles(chunks, d, d.sink.onClose, Closed);
  }

  /** The response ends normally if and only if the run returned, and the headers are out if
      and only if they were flushed. */
  lemma {:induction false} EndMeansReturned(chunks: seq<Chunk>, events: seq<Event>)
    requires Exec(chunks, events).Some?
    ensures Exec(chunks, events).value.sink.ended <==> RunReturns in events
    ensures Exec(chunks, events).value.headersSent <==> Flushes in events
  {
    if events != [] {
      var front, e := events[..|events| - 1], events[|events| - 1];
      EndMeansReturned(chunks, front);
      DownloadsKeepInv(chunks, front);
      OnlyReturningEnds(chunks, Exec(chunks, front).value, e);
      assert events == front + [e];
    }
  }

  lemma {:induction false} PrefixesRun(chunks: seq<Chunk>, events: seq<Event>, k: nat)
    requires Exec(chunks, events).Some? && k <= |events|
    ensures Exec(chunks, events[..k]).Some?
    ensures k < |events| ==> Enabled(chunks, Exec(chunks, events[..k]).value, events[k])
    decreases |events|
  {
    if k < |events| {
      var front := events[..|events| - 1];
      PrefixesRun(chunks, front, k);
      assert front[..k] == events[..k];
    } else {
      assert events[..k] == events;
    }
  }

  /** A run past its pre-byte work has done it. */
  lemma {:induction false} ClearedMeansPrepared(chunks: seq<Chunk>, events: seq<Event>)
    requires Exec(chunks, events).Some? && Exec(chunks, events).value.run.Cleared?
    ensures Prepares in events
  {
    var front, e := events[..|events| - 1], events[|events| - 1];
    FrontAndLast(events);
    if e != Prepares { ClearedMeansPrepared(chunks, front); }
  }

  /** In any download the headers go out at most once, only after the pre-byte work succeeded,
      and before any byte; a failure until then is rethrown, with nothing sent. */
  lemma {:induction false} HeadersOnceAndFirst(chunks: seq<Chunk>, events: seq<Event>, k: nat)
    requires Exec(chunks, events).Some? && k < |events| && events[k] == Flushes
    ensures Prepares in events[..k] && Flushes !in events[..k]
    ensures Exec(chunks, events[..k]).Some?
    ensures var d := Exec(chunks, events[..k]).value;
            && d.sink.sent == [] && !d.headersSent && !d.run.Over?
            && forall busy :: Failed(d, busy) == Download(d.sink, false, Over(Rethrown(busy)))
  {
    PrefixesRun(chunks, events, k);
    ClearedMeansPrepared(chunks, events[..k]);
    DownloadsKeepInv(chunks, events[..k]);
    EndMeansReturned(chunks, events[..k]);
  }

  /** Once the socket is gone or the response has ended, no byte is sent any more: a write finds
      it refused. */
  lemma {:induction false} NothingSentWhenGone(chunks: seq<Chunk>, d: Download, e: Event)
    requires Inv(chunks, d) && Enabled(chunks, d, e) && (d.sink.destroyed || d.sink.ended)
    ensures var t := Next(chunks, d, e);
            && t.sink.sent == d.sink.sent && (t.sink.destroyed || t.sink.ended)
            && (e.Writes? ==> t.sink.log == d.sink.log + [Settled(d.run.next, Refused)] && t.run.Over?)
  {
    EmittedSettles(chunks, d, d.sink.onDrain, Drained);
    EmittedSettles(chunks, d, d.sink.onClose, Closed);
    if e.TimesOut? { OneIsWaiting(chunks, d, e.write); }
  }

  /** While the socket lives a write sends its chunk, whether it is taken at once or waits; the
      write that waits settles by what happens to it, and only a drain lets the walk go on. */
  lemma {:induction false} WhatBecomesOfAWrite(chunks: seq<Chunk>, d: Download, e: Event)
    requires Inv(chunks, d) && Enabled(chunks, d, e)
    ensures var t := Next(chunks, d, e);
            && (e.Writes? && !d.sink.destroyed ==>
                  && t.sink.sent == d.sink.sent + [chunks[d.run.next]]
                  && t.run == if e.accepts then Walking(d.run.next + 1) else Awaiting(d.run.next))
            && (d.run.Awaiting? && e.Drains? ==>
                  t.run == Walking(d.run.next + 1) && t.sink.log == d.sink.log + [Settled(d.run.next, Drained)])
            && (d.run.Awaiting? && e.Closes? ==>
                  t.run == Over(Destroyed) && t.sink.log == d.sink.log + [Settled(d.run.next, Closed)])
            && (d.run.Awaiting? && e.TimesOut? ==>
                  t.run == Over(Destroyed) && t.sink.log == d.sink.log + [Settled(d.run.next, TimedOut)])
  {
    EmittedSettles(chunks, d, d.sink.onDrain, Drained);
    EmittedSettles(chunks, d, d.sink.onClose, Closed);
    if e.TimesOut? { OneIsWaiting(chunks, d, e.write); }
  }

  /** No write waits for ever or settles twice: at any point of any download, a write that was
      started either has settled, once, with no timer or listener of its own left, or still
      has its timer armed and both its listeners on. */
  lemma {:induction false} EveryWriteSettlesOnce(chunks: seq<Chunk>, events: seq<Event>, w: nat)
    requires Exec(chunks, events).Some? && IsStarted(Exec(chunks, events).value.sink, w)
    ensures var s := Exec(chunks, events).value.sink;
            if IsSettled(s, w) then
              && w !in s.timers && w !in s.onDrain && w !in s.onClose
              && (forall i, j ::
                    0 <= i < |s.log| && 0 <= j < |s.log| && s.log[i].write == w && s.log[j].write == w ==> i == j)
            else
              w in s.onDrain && w in s.onClose && Enabled(chunks, Exec(chunks, events).value, TimesOut(w))
  {
    DownloadsKeepInv(chunks, events);
  }

  /** What `t` settled since `s` it rejected. */
  ghost predicate OnlyRejectedSince(s: Sink, t: Sink) {
    t.log == s.log || exists x :: t.log == s.log + [x] && !Resolves(x.how)
  }

  /** A write resolves only by being accepted or by a drain: any other event settles at most
      one write, and rejects it. */
  lemma {:induction false} ResolvesOnlyOnAcceptOrDrain(chunks: seq<Chunk>, d: Download, e: Event)
    requires Inv(chunks, d) && Enabled(chunks, d, e) && e != Drains && e != Writes(true)
    ensures OnlyRejectedSince(d.sink, Next(chunks, d, e).sink)
  {
    match e
    case Closes => EmittedSettles(chunks, d, d.sink.onClose, Closed);
    case Writes(_) =>
      assert Written(d.sink, d.run.next, chunks[d.run.next], false).log == d.sink.log
          || Written(d.sink, d.run.next, chunks[d.run.next], false).log == d.sink.log + [Settled(d.run.next, Refused)];
    case TimesOut(w) => assert Stopped(d.sink, w, TimedOut).log == d.sink.log + [Settled(w, TimedOut)];
    case _ =>
  }

  /** A truncated file is never passed off as complete. After a normal end the closing row is
      there; after a destroyed socket it has been handed over exactly when every chunk had. */
  lemma {:induction false} ClosingRowTells(chunks: seq<Chunk>, events: seq<Event>)
    requires WellClosed(chunks) && Exec(chunks, events).Some? && Exec(chunks, events).value.run.Over?
    ensures var d := Exec(chunks, events).value;
            && ((exists line :: line in Lines(d.sink.sent) && line.EndRow?) <==> d.sink.sent == chunks)
            && (d.run.outcome == Ended ==> d.sink.sent == chunks)
  {
    OutcomeIsExact(chunks, events);
    var d := Exec(chunks, events).value;
    var k := |d.sink.sent|;
    assert d.sink.sent == chunks[..k];
    ClosedMeansWhole(chunks, k);
    assert k == |chunks| ==> chunks[..k] == chunks;
  }

  /** The last case does happen: when the LAST chunk waits for a drain that never comes, the
      socket is destroyed although the closing row was already handed to it. */
  lemma {:induction false} DestroyedAfterTheLastChunk(chunk: Chunk)
    ensures var events := [Prepares] + [Flushes] + [Writes(false)] + [TimesOut(0)];
            && Exec([chunk], events).Some?
            && Exec([chunk], events).value.run == Over(Destroyed)
            && Exec([chunk], events).value.sink.sent == [chunk]
  {
    var chunks := [chunk];
    var p: seq<Event> := [Prepares];
    var a := p + [Flushes];
    var b := a + [Writes(false)];
    var c := b + [TimesOut(0)];
    assert p[..0] == [] && a[..1] == p && b[..2] == a && c[..3] == b;
    assert Exec(chunks, []) == Some(STARTED);
    assert Exec(chunks, p) == Some(Download(OPEN, false, Cleared));
    var d1 := Exec(chunks, a).value;
    assert d1 == Download(OPEN, true, Walking(0));
    var d2 := Exec(chunks, b).value;
    assert d2.sink.sent == [chunk] && d2.run == Awaiting(0) && 0 in d2.sink.timers;
  }
}
