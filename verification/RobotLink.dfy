/**
 One robot process and its link to the server: the reactor's pump and read buffer on one side, the robot's reader
 and writer threads on the other, and the two FIFO wires between. Every action is one critical region of one thread.
 */
module RobotLink {
  import opened Domain
  import opened OutgoingLink
  import opened RobotGateway
  import opened Motion

  /** A command the robot has processed: its motion before and after, and whether it applied the command. */
  datatype Processed = Processed(cmd: RobotCommand, at: Time, before: MotionState, ok: bool, after: MotionState)

  datatype Phase = Open | Unregistered | Deleted

  datatype Link = Link(
    // the robot process
    name: RobotId,
    birth: MotionState,
    motion: MotionState,
    inHand: Option<CommandResult>,
    results: seq<CommandResult>,
    draining: Option<CommandResult>,
    lost: Option<CommandResult>,
    greeted: bool,
    running: bool,
    log: seq<Processed>,
    // the wires
    down: seq<RobotCommand>,
    up: seq<Uplink>,
    // the reactor
    pump: Pump,
    onWire: bool,
    transmitted: seq<RobotCommand>,
    incoming: Option<Uplink>,
    registered: bool,
    robotId: RobotId,
    phase: Phase,
    delivered: seq<CommandResult>)

  function Connected(name: RobotId, birth: MotionState): Link {
    Link(name, birth, birth, None, [], None, None, false, true, [],
         [], [],
         EMPTY_PUMP, false, [], None, false, "", Open, [])
  }

  /** What the robot answers: its own id, the command's id, the verdict, and no detail. */
  function VerdictOf(p: Processed, name: RobotId): CommandResult {
    CommandResult(p.cmd.commandId, name, if p.ok then ResultApplied else ResultRejected, "")
  }

  datatype LinkAction =
    | Transmit                     // the stream carries the outgoing buffer to the robot
    | WriteCompletes(ok: bool)     // OnWriteDone
    | ReadFails                    // OnReadDone(false)
    | ReadMessage                  // the read buffer receives the next uplink
    | RobotReads(at: Time)         // the robot's reader takes a command and applies or refuses it
    | PushResult                   // the reader queues the result
    | SendTelemetry(t: Telemetry)  // the writer's tick
    | PopResult                    // the writer takes the next result
    | WriteResult(ok: bool)        // and writes it
    | RobotStops                   // a telemetry write fails, or the reader sees the stream closed

  /** A stream that has failed a write carries nothing more. */
  predicate LinkEnabled(l: Link, a: LinkAction) {
    match a
    case Transmit => l.phase == Open && l.pump.writing && l.pump.outgoing.Some? && !l.onWire && !l.pump.failed
    case WriteCompletes(ok) => l.phase == Open && CanComplete(l.pump) && (ok ==> l.onWire && !l.pump.failed)
    case ReadFails => l.phase == Open
    case ReadMessage => l.phase == Open && l.incoming.None? && l.up != []
    case RobotReads(_) => l.inHand.None? && l.down != [] && l.motion.radius != 0.0
    case PushResult => l.inHand.Some?
    case SendTelemetry(t) => l.running && l.draining.None? && t.robotId == l.name
    case PopResult => l.running && l.greeted && l.draining.None? && l.results != []
    case WriteResult(_) => l.running && l.draining.Some?
    case RobotStops => true
  }

  function LinkNext(l: Link, a: LinkAction): Link
    requires LinkEnabled(l, a)
  {
    match a
    case Transmit =>
      l.(onWire := true, transmitted := l.transmitted + [l.pump.outgoing.value], down := l.down + [l.pump.outgoing.value])
    case WriteCompletes(ok) => l.(pump := WriteDone(l.pump, ok), onWire := false)
    case ReadFails => l.(pump := l.pump.(finishes := l.pump.finishes + 1))
    case ReadMessage => l.(incoming := Some(l.up[0]), up := l.up[1..])
    case RobotReads(at) =>
      var cmd := l.down[0];
      var (ok, after) := ApplyParams(l.motion, cmd.payload, at);
      var p := Processed(cmd, at, l.motion, ok, after);
      l.(down := l.down[1..], motion := after, log := l.log + [p], inHand := Some(VerdictOf(p, l.name)))
    case PushResult => l.(results := l.results + [l.inHand.value], inHand := None)
    case SendTelemetry(t) => l.(up := l.up + [TelemetryUp(t)], greeted := true)
    case PopResult => l.(draining := Some(l.results[0]), results := l.results[1..])
    case WriteResult(ok) =>
      if ok then l.(up := l.up + [ResultUp(l.draining.value)], draining := None)
      else l.(lost := l.draining, draining := None, running := false)
    case RobotStops => l.(running := false)
  }

  // ---- downward: from the queue to the robot's log --------------------------

  function Commands(log: seq<Processed>): (r: seq<RobotCommand>)
    ensures |r| == |log| && forall i | 0 <= i < |log| :: r[i] == log[i].cmd
  {
    seq(|log|, i requires 0 <= i < |log| => log[i].cmd)
  }

  /**
   Commands processed, then those on the wire, are those transmitted; until a write fails, those are the ones written
   and the one being written; after it, still a prefix of those accepted.
   */
  ghost predicate DownInv(l: Link) {
    && PumpInv(l.pump)
    && Commands(l.log) + l.down == l.transmitted
    && (l.onWire ==> l.pump.writing)
    && (!l.pump.failed ==> l.transmitted == l.pump.written + if l.onWire then [l.pump.queue[0]] else [])
    && l.transmitted <= l.pump.accepted
  }

  // ---- the robot's own log --------------------------------------------------

  /** The entry records what applying the command's parameters does. */
  ghost predicate EntryOk(p: Processed) {
    p.before.radius != 0.0 && (p.ok, p.after) == ApplyParams(p.before, p.cmd.payload, p.at)
  }

  function MotionAfter(birth: MotionState, log: seq<Processed>): MotionState {
    if log == [] then birth else log[|log| - 1].after
  }

  /** The motion state is the fold of ApplyParams over the commands processed. */
  ghost predicate LogInv(l: Link) {
    && (forall i | 0 <= i < |l.log| :: EntryOk(l.log[i]) && l.log[i].before == MotionAfter(l.birth, l.log[..i]))
    && l.motion == MotionAfter(l.birth, l.log)
    && l.motion.radius != 0.0 && (l.birth.radius > 0.0 ==> l.motion.radius > 0.0)
  }

  // ---- upward: from the log to the tracker ----------------------------------

  function Verdicts(log: seq<Processed>, name: RobotId): (r: seq<CommandResult>)
    ensures |r| == |log| && forall i | 0 <= i < |log| :: r[i] == VerdictOf(log[i], name)
  {
    seq(|log|, i requires 0 <= i < |log| => VerdictOf(log[i], name))
  }

  function ResultsIn(us: seq<Uplink>): seq<CommandResult> {
    if us == [] then []
    else ResultsIn(us[..|us| - 1]) + if us[|us| - 1].ResultUp? then [us[|us| - 1].result] else []
  }

  /** What the robot's writer has sent and the server has not yet handled, oldest first. */
  function Unread(l: Link): seq<Uplink> { Held(l.incoming) + l.up }

  /** One result per command processed, in order: delivered, on the wire, being written, lost, queued, or in hand. */
  ghost predicate UpInv(l: Link) {
    && Verdicts(l.log, l.name)
       == l.delivered + ResultsIn(Unread(l)) + Held(l.draining) + Held(l.lost) + l.results + Held(l.inHand)
    && (l.lost.Some? ==> !l.running && l.draining.None?)
  }

  /** The first message on a link is telemetry, so a link registers under its own robot's id. */
  ghost predicate GreetInv(l: Link) {
    && (forall u | u in Unread(l) && u.TelemetryUp? :: u.telemetry.robotId == l.name)
    && (if l.registered then l.robotId == l.name else l.robotId == "" && l.delivered == [])
    && (!l.greeted ==> Unread(l) == [] && l.draining.None? && !l.registered)
    && (l.greeted && !l.registered ==> Unread(l) != [] && Unread(l)[0].TelemetryUp?)
  }

  ghost predicate LinkInv(l: Link) {
    DownInv(l) && LogInv(l) && UpInv(l) && GreetInv(l)
  }

  // ---- the actions keep the invariants --------------------------------------

  lemma {:induction false} ResultsAppend(a: seq<Uplink>, u: Uplink)
    ensures ResultsIn(a + [u]) == ResultsIn(a) + if u.ResultUp? then [u.result] else []
  {
    assert (a + [u])[..|a|] == a;
  }

  lemma {:induction false} ResultsHead(us: seq<Uplink>)
    requires us != []
    ensures ResultsIn(us) == (if us[0].ResultUp? then [us[0].result] else []) + ResultsIn(us[1..])
    decreases |us|
  {
    if |us| > 1 {
      var n := |us| - 1;
      ResultsHead(us[..n]);
      assert us[..n][1..] == us[1..][..n - 1];
    }
  }

  lemma {:induction false} DownTransmit(l: Link)
    requires DownInv(l) && LinkEnabled(l, Transmit)
    ensures DownInv(LinkNext(l, Transmit))
  {
    hide Commands;
    var l', c := LinkNext(l, Transmit), l.pump.outgoing.value;
    assert l'.transmitted == l.pump.written + [l.pump.queue[0]];
    assert l.pump.accepted == l.pump.written + l.pump.queue;
    assert Commands(l.log) + (l.down + [c]) == Commands(l.log) + l.down + [c];
  }

  lemma {:induction false} DownComplete(l: Link, ok: bool)
    requires DownInv(l) && LinkEnabled(l, WriteCompletes(ok))
    ensures DownInv(LinkNext(l, WriteCompletes(ok)))
  {
    hide Commands;
    PumpStepKeepsInv(l.pump, Completed(ok));
  }

  lemma {:induction false} DownRead(l: Link, at: Time)
    requires DownInv(l) && LinkEnabled(l, RobotReads(at))
    ensures DownInv(LinkNext(l, RobotReads(at)))
  {
    hide PumpInv, ApplyParams;
    var l' := LinkNext(l, RobotReads(at));
    assert l.down == [l.down[0]] + l.down[1..];
    assert Commands(l'.log) == Commands(l.log) + [l.down[0]];
  }

  lemma {:induction false} DownStep(l: Link, a: LinkAction)
    requires DownInv(l) && LinkEnabled(l, a)
    ensures DownInv(LinkNext(l, a))
  {
    match a
    case Transmit => DownTransmit(l);
    case WriteCompletes(ok) => DownComplete(l, ok);
    case RobotReads(at) => DownRead(l, at);
    case _ =>
      hide PumpInv, Commands;
      var l' := LinkNext(l, a);
      assert l'.log == l.log && l'.down == l.down && l'.transmitted == l.transmitted;
  }

  lemma {:induction false} LogStep(l: Link, a: LinkAction)
    requires LogInv(l) && LinkEnabled(l, a)
    ensures LogInv(LinkNext(l, a))
  {
    var l' := LinkNext(l, a);
    if a.RobotReads? {
      forall i | 0 <= i < |l'.log|
        ensures EntryOk(l'.log[i]) && l'.log[i].before == MotionAfter(l.birth, l'.log[..i])
      {
        if i < |l.log| {
          assert l'.log[i] == l.log[i] && l'.log[..i] == l.log[..i];
        } else {
          assert l'.log[..i] == l.log;
        }
      }
    } else {
      assert l'.log == l.log && l'.motion == l.motion && l'.birth == l.birth;
    }
  }

  lemma {:induction false} UpProcess(l: Link, at: Time)
    requires UpInv(l) && LinkEnabled(l, RobotReads(at))
    ensures UpInv(LinkNext(l, RobotReads(at)))
  {
    var l' := LinkNext(l, RobotReads(at));
    assert Unread(l') == Unread(l);
    assert Verdicts(l'.log, l.name) == Verdicts(l.log, l.name) + [VerdictOf(l'.log[|l.log|], l.name)];
  }

  lemma {:induction false} UpQueue(l: Link, a: LinkAction)
    requires UpInv(l) && LinkEnabled(l, a) && (a.PushResult? || a.PopResult?)
    ensures UpInv(LinkNext(l, a))
  {
    var l' := LinkNext(l, a);
    assert Unread(l') == Unread(l);
    if a.PushResult? {
      assert l.results + Held(l.inHand) == l'.results + Held(l'.inHand);
    } else {
      assert l.results == [l.results[0]] + l'.results;
      var sent := l.delivered + ResultsIn(Unread(l));
      assert sent + [] + [] + l.results + Held(l.inHand) == sent + [l.results[0]] + [] + l'.results + Held(l.inHand);
    }
  }

  lemma {:induction false} UpTelemetry(l: Link, t: Telemetry)
    requires UpInv(l) && LinkEnabled(l, SendTelemetry(t))
    ensures UpInv(LinkNext(l, SendTelemetry(t)))
  {
    hide ResultsIn, Verdicts;
    var l' := LinkNext(l, SendTelemetry(t));
    assert Unread(l') == Unread(l) + [TelemetryUp(t)];
    ResultsAppend(Unread(l), TelemetryUp(t));
    assert ResultsIn(Unread(l')) == ResultsIn(Unread(l));
  }

  lemma {:induction false} UpWrite(l: Link, ok: bool)
    requires UpInv(l) && LinkEnabled(l, WriteResult(ok))
    ensures UpInv(LinkNext(l, WriteResult(ok)))
  {
    hide ResultsIn, Verdicts;
    var l', d := LinkNext(l, WriteResult(ok)), l.draining.value;
    if ok {
      assert Unread(l') == Unread(l) + [ResultUp(d)];
      ResultsAppend(Unread(l), ResultUp(d));
      assert l.delivered + ResultsIn(Unread(l)) + [d] == l.delivered + ResultsIn(Unread(l')) + [];
    } else {
      assert l.lost.None? && Unread(l') == Unread(l);
      assert l.delivered + ResultsIn(Unread(l)) + [d] + [] == l.delivered + ResultsIn(Unread(l)) + [] + [d];
    }
  }

  /** Delivering the oldest unread result delivers the next verdict. */
  lemma {:induction false} UpDeliver(l: Link)
    requires UpInv(l) && l.incoming.Some? && l.incoming.value.ResultUp?
    ensures var r := l.incoming.value.result;
      && UpInv(l.(incoming := None, delivered := l.delivered + [r]))
      && |l.delivered| < |l.log| && VerdictOf(l.log[|l.delivered|], l.name) == r
  {
    hide ResultsIn;
    var r, all := l.incoming.value.result, Unread(l);
    var l' := l.(incoming := None, delivered := l.delivered + [r]);
    assert all[1..] == l.up == Unread(l');
    ResultsHead(all);
    var rest := ResultsIn(l.up);
    assert l.delivered + ([r] + rest) == l'.delivered + rest;
    assert Verdicts(l.log, l.name)[|l.delivered|] == r;
  }

  lemma {:induction false} UpStep(l: Link, a: LinkAction)
    requires UpInv(l) && LinkEnabled(l, a)
    ensures UpInv(LinkNext(l, a))
  {
    hide ResultsIn, Verdicts, ApplyParams, WriteDone;
    match a
    case RobotReads(at) => UpProcess(l, at);
    case PushResult => UpQueue(l, a);
    case PopResult => UpQueue(l, a);
    case SendTelemetry(t) => UpTelemetry(l, t);
    case WriteResult(ok) => UpWrite(l, ok);
    case _ => assert Unread(LinkNext(l, a)) == Unread(l);
  }

  lemma {:induction false} GreetStep(l: Link, a: LinkAction)
    requires GreetInv(l) && LinkEnabled(l, a)
    ensures GreetInv(LinkNext(l, a))
  {
    var l' := LinkNext(l, a);
    match a
    case ReadMessage =>
      assert Unread(l') == Unread(l);
    case SendTelemetry(t) =>
      assert Unread(l') == Unread(l) + [TelemetryUp(t)];
    case WriteResult(ok) =>
      if ok {
        assert l.greeted;
        assert Unread(l') == Unread(l) + [ResultUp(l.draining.value)];
      }
    case _ =>
      assert Unread(l') == Unread(l);
  }

  /** Every action of a link keeps its invariant; logs and accepted commands only grow, and identity is kept. */
  lemma {:induction false} LinkStep(l: Link, a: LinkAction)
    requires LinkInv(l) && LinkEnabled(l, a)
    ensures LinkInv(LinkNext(l, a)) && LinkGrows(l, LinkNext(l, a))
    ensures LinkNext(l, a).pump.accepted == l.pump.accepted
    ensures LinkNext(l, a).phase == l.phase && LinkNext(l, a).registered == l.registered
    ensures LinkNext(l, a).robotId == l.robotId
  {
    hide DownInv, LogInv, UpInv, GreetInv, PumpInv;
    DownStep(l, a);
    LogStep(l, a);
    UpStep(l, a);
    GreetStep(l, a);
  }

  ghost predicate LinkGrows(l: Link, l': Link) {
    l'.name == l.name && l.log <= l'.log && l.pump.accepted <= l'.pump.accepted
  }

  // ---- what the invariant means ---------------------------------------------

  /**
   End to end over one link, whatever fails: the commands processed are a prefix of those accepted for the link, and
   the results delivered are a prefix of the verdicts on them.
   */
  lemma {:induction false} DeliveredIsPrefixOfVerdicts(l: Link)
    requires LinkInv(l)
    ensures Commands(l.log) <= l.pump.accepted
    ensures l.delivered <= Verdicts(l.log, l.name)
    ensures forall i | 0 <= i < |l.delivered| ::
      && l.delivered[i].commandId == l.pump.accepted[i].commandId
      && (l.delivered[i].result == ResultApplied <==> !Refused(l.pump.accepted[i].payload))
      && (l.delivered[i].result == ResultRejected <==> Refused(l.pump.accepted[i].payload))
  {
    assert Commands(l.log) <= l.transmitted;
    forall i | 0 <= i < |l.delivered|
      ensures l.delivered[i] == VerdictOf(l.log[i], l.name) && l.log[i].cmd == l.pump.accepted[i]
    {
      assert Verdicts(l.log, l.name)[i] == l.delivered[i];
      assert Commands(l.log)[i] == l.pump.accepted[i];
    }
  }

  /** Nothing has failed and nothing is under way. */
  predicate Quiet(l: Link) {
    && !l.pump.failed && l.lost.None?
    && l.pump.queue == [] && l.down == [] && Unread(l) == []
    && l.draining.None? && l.results == [] && l.inHand.None?
  }

  /** A quiet link has answered every command it accepted, in order. */
  lemma {:induction false} QuietLinkHasAnsweredAll(l: Link)
    requires LinkInv(l) && Quiet(l)
    ensures l.delivered == Verdicts(l.log, l.name) && Commands(l.log) == l.pump.accepted
  {
    assert l.transmitted == l.pump.written == l.pump.accepted;
  }
}
