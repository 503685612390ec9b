/**
 The outgoing side of a robot link: an abstract FIFO link, the reactor's write pump, the writer thread, and the
 proof that both implementations refine the one abstract link.
 */
module OutgoingLink {
  import opened Domain

  // ---- the specification ----------------------------------------------------

  /** Commands accepted for the link, and those written to the robot's stream. */
  datatype Fifo = Fifo(accepted: seq<RobotCommand>, written: seq<RobotCommand>)

  /** A link accepts one command, or writes the oldest command not yet written, or does nothing. */
  ghost predicate FifoStep(a: Fifo, b: Fifo) {
    || a == b
    || (b.written == a.written && |b.accepted| == |a.accepted| + 1 && b.accepted[..|a.accepted|] == a.accepted)
    || (b.accepted == a.accepted && |a.written| < |a.accepted| && b.written == a.written + [a.accepted[|a.written|]])
  }

  // ---- the reactor's write pump ---------------------------------------------

  /** The reactor's fields, and what they have done: writes accepted, completed, outstanding, and failed. */
  datatype Pump = Pump(
    queue: seq<RobotCommand>,
    writing: bool,
    outgoing: Option<RobotCommand>,
    accepted: seq<RobotCommand>,
    written: seq<RobotCommand>,
    outstanding: nat,
    failed: bool,
    finishes: nat)

  const EMPTY_PUMP := Pump([], false, None, [], [], 0, false, 0)

  /** Start a write of the queue's head unless one is in flight. */
  function PumpLocked(p: Pump): Pump {
    if p.writing || p.queue == [] then p
    else p.(outgoing := Some(p.queue[0]), writing := true, outstanding := p.outstanding + 1)
  }

  function Enqueue(p: Pump, c: RobotCommand): Pump {
    PumpLocked(p.(queue := p.queue + [c], accepted := p.accepted + [c]))
  }

  /** A write completes only if one is outstanding; the buffer it wrote is the outgoing one. */
  predicate CanComplete(p: Pump) {
    p.outstanding > 0 && p.queue != [] && p.outgoing.Some?
  }

  function WriteDone(p: Pump, ok: bool): Pump
    requires CanComplete(p)
  {
    var q := p.(writing := false, outstanding := p.outstanding - 1);
    if !ok then q.(failed := true, finishes := p.finishes + 1)
    else PumpLocked(q.(queue := p.queue[1..], written := p.written + [p.outgoing.value]))
  }

  ghost predicate PumpInv(p: Pump) {
    && p.written + p.queue == p.accepted
    && p.outstanding == (if p.writing then 1 else 0)
    && (p.writing ==> p.queue != [] && p.outgoing == Some(p.queue[0]))
    && (!p.failed ==> (p.writing <==> p.queue != []))
  }

  datatype PumpEvent = Enqueued(c: RobotCommand) | Completed(ok: bool)

  lemma PumpStepKeepsInv(p: Pump, e: PumpEvent)
    requires PumpInv(p) && (e.Completed? ==> p.outstanding > 0)
    ensures e.Completed? ==> CanComplete(p)
    ensures PumpInv(PumpStep(p, e))
    ensures FifoStep(FifoOfPump(p), FifoOfPump(PumpStep(p, e)))
  {
    match e
    case Enqueued(c) =>
      assert p.written + (p.queue + [c]) == p.accepted + [c];
      assert (p.queue + [c])[0] == if p.queue == [] then c else p.queue[0];
    case Completed(ok) =>
      if ok {
        assert p.queue == [p.queue[0]] + p.queue[1..];
        assert p.written + [p.queue[0]] + p.queue[1..] == p.accepted;
        assert p.accepted[|p.written|] == p.queue[0];
      }
  }

  /** The runtime reports a completion only for a write that is outstanding; otherwise nothing happens. */
  function PumpStep(p: Pump, e: PumpEvent): Pump {
    match e
    case Enqueued(c) => Enqueue(p, c)
    case Completed(ok) => if CanComplete(p) then WriteDone(p, ok) else p
  }

  function PumpRun(p: Pump, es: seq<PumpEvent>): Pump {
    if es == [] then p else PumpStep(PumpRun(p, es[..|es| - 1]), es[|es| - 1])
  }

  function FifoOfPump(p: Pump): Fifo { Fifo(p.accepted, p.written) }

  function AcceptedIn(es: seq<PumpEvent>): seq<RobotCommand> {
    if es == [] then []
    else AcceptedIn(es[..|es| - 1]) + if es[|es| - 1].Enqueued? then [es[|es| - 1].c] else []
  }

  /**
   Any interleaving of enqueues and completions, failed ones included: what was written, then what is queued, is
   what was enqueued, in order; at most one write is outstanding, of the queue's head; and until a write fails
   one is in flight whenever the queue is not empty.
   */
  lemma {:induction false} PumpRunsKeepInv(es: seq<PumpEvent>)
    ensures PumpInv(PumpRun(EMPTY_PUMP, es))
    ensures PumpRun(EMPTY_PUMP, es).accepted == AcceptedIn(es)
    ensures PumpRun(EMPTY_PUMP, es).written <= AcceptedIn(es)
    decreases |es|
  {
    if es != [] {
      var n := |es| - 1;
      PumpRunsKeepInv(es[..n]);
      var p := PumpRun(EMPTY_PUMP, es[..n]);
      if es[n].Enqueued? || p.outstanding > 0 { PumpStepKeepsInv(p, es[n]); }
    }
  }

  function Successes(n: nat): (es: seq<PumpEvent>)
    ensures |es| == n
  {
    if n == 0 then [] else Successes(n - 1) + [Completed(true)]
  }

  /** No lost wake-up: before any failure, n successful completions alone write the n oldest queued commands. */
  lemma {:induction false} CompletionsDrain(p: Pump, n: nat)
    requires PumpInv(p) && !p.failed && n <= |p.queue|
    ensures var q := PumpRun(p, Successes(n));
      && PumpInv(q) && !q.failed
      && q.written == p.written + p.queue[..n] && q.queue == p.queue[n..]
      && (n < |p.queue| ==> q.outstanding == 1)
  {
    if n > 0 {
      CompletionsDrain(p, n - 1);
      var q := PumpRun(p, Successes(n - 1));
      assert Successes(n)[..n - 1] == Successes(n - 1);
      PumpStepKeepsInv(q, Completed(true));
      assert q.queue[0] == p.queue[n - 1];
      assert p.queue[..n] == p.queue[..n - 1] + [p.queue[n - 1]];
    }
  }

  /**
   After a failed write the pump is stuck exactly while nothing new is enqueued; a later enqueue starts
   another write, of the same head that failed.
   */
  lemma FailedWriteRestarts(p: Pump, c: RobotCommand)
    requires PumpInv(p) && p.outstanding > 0
    ensures CanComplete(p)
    ensures var q := WriteDone(p, false);
      && q.queue == p.queue && q.outstanding == 0 && q.finishes == p.finishes + 1
      && Enqueue(q, c).outstanding == 1 && Enqueue(q, c).outgoing == p.outgoing
  {
  }

  // ---- the writer thread ----------------------------------------------------

  datatype WriterPhase = Checking | Waiting | Draining | Stopped

  /** The link state shared with the writer thread; it holds the mutex exactly while draining. */
  datatype Writer = Writer(
    queue: seq<RobotCommand>,
    taken: Option<RobotCommand>,
    phase: WriterPhase,
    stopRequested: bool,
    accepted: seq<RobotCommand>,
    written: seq<RobotCommand>)

  const NEW_WRITER := Writer([], None, Checking, false, [], [])

  datatype WriterEvent = Send(c: RobotCommand) | RequestStop | Check | Wake | Take | Written(ok: bool) | Release

  predicate WriterEnabled(w: Writer, e: WriterEvent) {
    match e
    case Send(_) => w.phase != Draining
    case RequestStop => true
    case Check => w.phase == Checking
    case Wake => w.phase == Waiting && (w.queue != [] || w.stopRequested)
    case Take => w.phase == Draining && w.taken.None? && w.queue != []
    case Written(_) => w.phase == Draining && w.taken.Some?
    case Release => w.phase == Draining && w.taken.None? && w.queue == []
  }

  function WriterStep(w: Writer, e: WriterEvent): Writer
    requires WriterEnabled(w, e)
  {
    match e
    case Send(c) => w.(queue := w.queue + [c], accepted := w.accepted + [c])
    case RequestStop => w.(stopRequested := true)
    case Check => w.(phase := if w.stopRequested then Stopped else Waiting)
    case Wake => w.(phase := Draining)
    case Take => w.(taken := Some(w.queue[0]), queue := w.queue[1..])
    case Written(ok) =>
      if ok then w.(written := w.written + [w.taken.value], taken := None)
      else w.(phase := Stopped)
    case Release => w.(phase := Checking)
  }

  /**
   A command taken but not written stays taken: it is the one a failed write loses. The writer has stopped only if a
   write failed or it was asked to.
   */
  ghost predicate WriterInv(w: Writer) {
    && w.written + Held(w.taken) + w.queue == w.accepted
    && (w.taken.Some? ==> w.phase == Draining || w.phase == Stopped)
    && (w.phase == Stopped && w.taken.None? ==> w.stopRequested)
  }

  function FifoOfWriter(w: Writer): Fifo { Fifo(w.accepted, w.written) }

  lemma WriterStepKeepsInv(w: Writer, e: WriterEvent)
    requires WriterInv(w) && WriterEnabled(w, e)
    ensures WriterInv(WriterStep(w, e))
    ensures FifoStep(FifoOfWriter(w), FifoOfWriter(WriterStep(w, e)))
    ensures w.phase == Stopped ==> WriterStep(w, e).phase == Stopped && WriterStep(w, e).written == w.written
  {
    match e
    case Send(c) =>
      assert w.written + Held(w.taken) + (w.queue + [c]) == w.accepted + [c];
    case Take =>
      assert w.queue == [w.queue[0]] + w.queue[1..];
      assert w.written + [] + w.queue == w.written + [w.queue[0]] + w.queue[1..];
    case Written(ok) =>
      assert w.accepted[|w.written|] == w.taken.value;
      assert w.written + [w.taken.value] + w.queue == w.written + [w.taken.value] + [] + w.queue;
    case _ =>
  }

  ghost predicate WriterRun(ws: seq<Writer>, es: seq<WriterEvent>) {
    && |ws| == |es| + 1 && ws[0] == NEW_WRITER
    && forall i | 0 <= i < |es| :: WriterEnabled(ws[i], es[i]) && ws[i + 1] == WriterStep(ws[i], es[i])
  }

  ghost predicate PumpTrace(ps: seq<Pump>, es: seq<PumpEvent>) {
    && |ps| == |es| + 1 && ps[0] == EMPTY_PUMP
    && forall i | 0 <= i < |es| ::
         (es[i].Completed? ==> ps[i].outstanding > 0) && ps[i + 1] == PumpStep(ps[i], es[i])
  }

  /** Every state of the run is a state of the abstract link, and every step one of its steps. */
  ghost predicate FifoRun(fs: seq<Fifo>) {
    && fs != [] && fs[0] == Fifo([], [])
    && (forall i | 0 <= i < |fs| - 1 :: FifoStep(fs[i], fs[i + 1]))
    && forall i | 0 <= i < |fs| :: fs[i].written <= fs[i].accepted
  }

  function FifosOfWriters(ws: seq<Writer>): (fs: seq<Fifo>)
    ensures |fs| == |ws| && forall i | 0 <= i < |ws| :: fs[i] == FifoOfWriter(ws[i])
  {
    seq(|ws|, i requires 0 <= i < |ws| => FifoOfWriter(ws[i]))
  }

  function FifosOfPumps(ps: seq<Pump>): (fs: seq<Fifo>)
    ensures |fs| == |ps| && forall i | 0 <= i < |ps| :: fs[i] == FifoOfPump(ps[i])
  {
    seq(|ps|, i requires 0 <= i < |ps| => FifoOfPump(ps[i]))
  }

  lemma {:induction false} WriterInvAt(ws: seq<Writer>, es: seq<WriterEvent>, i: nat)
    requires WriterRun(ws, es) && i < |ws|
    ensures WriterInv(ws[i])
  {
    if i > 0 {
      WriterInvAt(ws, es, i - 1);
      WriterStepKeepsInv(ws[i - 1], es[i - 1]);
    }
  }

  lemma {:induction false} PumpInvAt(ps: seq<Pump>, es: seq<PumpEvent>, i: nat)
    requires PumpTrace(ps, es) && i < |ps|
    ensures PumpInv(ps[i])
  {
    if i > 0 {
      PumpInvAt(ps, es, i - 1);
      PumpStepKeepsInv(ps[i - 1], es[i - 1]);
    }
  }

  /** The writer thread refines the FIFO link, under any interleaving of sends, stop requests and failures. */
  lemma WriterRefinesFifo(ws: seq<Writer>, es: seq<WriterEvent>)
    requires WriterRun(ws, es)
    ensures FifoRun(FifosOfWriters(ws))
  {
    forall i | 0 <= i < |ws| ensures WriterInv(ws[i]) && ws[i].written <= ws[i].accepted {
      WriterInvAt(ws, es, i);
    }
    forall i | 0 <= i < |es| ensures FifoStep(FifoOfWriter(ws[i]), FifoOfWriter(ws[i + 1])) {
      WriterStepKeepsInv(ws[i], es[i]);
    }
  }

  /** The reactor's pump refines the same link, under any interleaving of enqueues and completions. */
  lemma PumpRefinesFifo(ps: seq<Pump>, es: seq<PumpEvent>)
    requires PumpTrace(ps, es)
    ensures FifoRun(FifosOfPumps(ps))
  {
    forall i | 0 <= i < |ps| ensures PumpInv(ps[i]) && ps[i].written <= ps[i].accepted {
      PumpInvAt(ps, es, i);
    }
    forall i | 0 <= i < |es| ensures FifoStep(FifoOfPump(ps[i]), FifoOfPump(ps[i + 1])) {
      PumpStepKeepsInv(ps[i], es[i]);
    }
  }

  /** When the writer gives the mutex back it has written everything accepted so far. */
  lemma ReleaseMeansDrained(w: Writer)
    requires WriterInv(w) && WriterEnabled(w, Release)
    ensures w.written == w.accepted
  {
  }

  // ---- the writer drains ----------------------------------------------------

  /** The run of events, if each is enabled when it comes. */
  function WriterRunFrom(w: Writer, es: seq<WriterEvent>): Option<Writer> {
    if es == [] then Some(w)
    else
      var before := WriterRunFrom(w, es[..|es| - 1]);
      if before.Some? && WriterEnabled(before.value, es[|es| - 1])
      then Some(WriterStep(before.value, es[|es| - 1])) else None
  }

  function Writes(n: nat): seq<WriterEvent> {
    if n == 0 then [] else Writes(n - 1) + [Take, Written(true)]
  }

  lemma {:induction false} WriterRunAppend(w: Writer, a: seq<WriterEvent>, b: seq<WriterEvent>)
    requires WriterRunFrom(w, a).Some?
    ensures WriterRunFrom(w, a + b) == WriterRunFrom(WriterRunFrom(w, a).value, b)
    decreases |b|
  {
    hide WriterEnabled, WriterStep;
    if b == [] {
      assert a + b == a;
    } else {
      assert (a + b)[..|a + b| - 1] == a + b[..|b| - 1];
      WriterRunAppend(w, a, b[..|b| - 1]);
    }
  }

  lemma {:induction false} TakeAndWrite(w: Writer)
    requires w.phase == Draining && w.taken.None? && w.queue != []
    ensures WriterRunFrom(w, [Take, Written(true)])
      == Some(w.(queue := w.queue[1..], written := w.written + [w.queue[0]]))
  {
    var taken := w.(taken := Some(w.queue[0]), queue := w.queue[1..]);
    OneEvent(w, Take);
    WriterRunAppend(w, [Take], [Written(true)]);
    OneEvent(taken, Written(true));
    assert [Take] + [Written(true)] == [Take, Written(true)];
  }

  lemma {:induction false} WritesDrain(w: Writer, n: nat)
    requires w.phase == Draining && w.taken.None? && n <= |w.queue|
    ensures WriterRunFrom(w, Writes(n)) == Some(w.(queue := w.queue[n..], written := w.written + w.queue[..n]))
  {
    hide WriterRunFrom;
    if n == 0 {
      assert WriterRunFrom(w, []) == Some(w) by { NoEvents(w); }
      assert w.queue[0..] == w.queue && w.written + w.queue[..0] == w.written;
    } else {
      WritesDrain(w, n - 1);
      var mid := w.(queue := w.queue[n - 1..], written := w.written + w.queue[..n - 1]);
      WriterRunAppend(w, Writes(n - 1), [Take, Written(true)]);
      TakeAndWrite(mid);
      assert w.queue[n - 1..][1..] == w.queue[n..];
      assert w.written + w.queue[..n] == mid.written + [mid.queue[0]];
    }
  }

  lemma {:induction false} NoEvents(w: Writer)
    ensures WriterRunFrom(w, []) == Some(w)
  {
  }

  lemma {:induction false} OneEvent(w: Writer, e: WriterEvent)
    requires WriterEnabled(w, e)
    ensures WriterRunFrom(w, [e]) == Some(WriterStep(w, e))
  {
    assert [e][..0] == [];
  }

  /** One pass of the writer over a queue of n commands, each write succeeding. */
  function Pass(n: nat): seq<WriterEvent> { [Check] + [Wake] + Writes(n) + [Release] }

  /** No lost wake-up: a writer about to check, not asked to stop, writes everything accepted in one pass. */
  lemma {:induction false} WriterDrains(w: Writer)
    requires WriterInv(w) && w.phase == Checking && !w.stopRequested && w.queue != []
    ensures WriterRunFrom(w, Pass(|w.queue|)) == Some(w.(queue := [], written := w.accepted))
  {
    hide WriterRunFrom, Writes;
    var n := |w.queue|;
    var w1 := w.(phase := Waiting);
    var w2 := w.(phase := Draining);
    OneEvent(w, Check);
    WriterRunAppend(w, [Check], [Wake]);
    OneEvent(w1, Wake);
    WriterRunAppend(w, [Check] + [Wake], Writes(n));
    WritesDrain(w2, n);
    assert w.queue[..n] == w.queue && w.queue[n..] == [];
    var w3 := w2.(queue := [], written := w.written + w.queue);
    WriterRunAppend(w, [Check] + [Wake] + Writes(n), [Release]);
    OneEvent(w3, Release);
    assert w.written + [] + w.queue == w.written + w.queue;
  }
}
