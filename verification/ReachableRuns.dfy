/**
 Runs that reach a given trouble, built action by action, and the exact condition under which each trouble can be
 reached: a target shown EXPIRED that ran late, a target shown ROBOT_OFFLINE that ran, and a live link that is lost.
 */
module ReachableRuns {
  import opened Domain
  import opened OutgoingLink
  import opened RobotGateway
  import opened Motion
  import opened RobotLink
  import opened CommandPath
  import opened EndToEnd
  import opened AllAnswered
  import opened AtMostOnce
  import opened RegistrySafety
  import TS = TrackerSpec
  import TH = TrackerHistory

  ghost predicate Reaches(s: State, retention: Time) {
    exists states, actions :: IsRun(states, actions, retention) && states[|states| - 1] == s
  }

  lemma {:induction false} ReachStart(retention: Time)
    ensures Reaches(INITIAL, retention)
  {
    assert IsRun([INITIAL], [], retention);
  }

  lemma {:induction false} ReachStep(s: State, a: Action, retention: Time)
    requires Reaches(s, retention) && Enabled(s, a)
    ensures Reaches(Next(s, a, retention), retention)
  {
    hide Enabled, Next;
    var states, actions :| IsRun(states, actions, retention) && states[|states| - 1] == s;
    var n := |actions|;
    var longer, more := states + [Next(s, a, retention)], actions + [a];
    forall i | 0 <= i < n + 1
      ensures Enabled(longer[i], more[i]) && longer[i + 1] == Next(longer[i], more[i], retention)
    {
      if i < n { assert longer[i] == states[i] && longer[i + 1] == states[i + 1] && more[i] == actions[i]; }
    }
    assert IsRun(longer, more, retention);
  }

  lemma {:induction false} ReachedInv(s: State, retention: Time)
    requires Reaches(s, retention)
    ensures Inv(s, retention)
  {
    hide Inv, Enabled, Next;
    var states, actions :| IsRun(states, actions, retention) && states[|states| - 1] == s;
    InvAt(states, actions, retention, |states| - 1);
  }

  lemma {:induction false} ReachOnLink(s: State, i: nat, la: LinkAction, retention: Time)
    requires Reaches(s, retention) && i in s.links && LinkEnabled(s.links[i], la)
    ensures Reaches(s.(links := s.links[i := LinkNext(s.links[i], la)]), retention)
  {
    hide Reaches, LinkEnabled, LinkNext;
    ReachStep(s, OnLink(i, la), retention);
  }

  // ---- a robot connects and sends its first sample --------------------------

  /** A link that has registered under its robot's own name and has nothing under way. */
  function ReadyLink(name: RobotId, birth: MotionState): Link {
    Connected(name, birth).(greeted := true, registered := true, robotId := name)
  }

  function FirstSample(name: RobotId): Telemetry { Telemetry(name, 0, 0, 0.0, 0.0, 0.0, 0.0, 0.0) }

  function GreetedLink(name: RobotId, birth: MotionState): Link {
    Connected(name, birth).(up := [TelemetryUp(FirstSample(name))], greeted := true)
  }

  function HeardLink(name: RobotId, birth: MotionState): Link {
    GreetedLink(name, birth).(up := [], incoming := Some(TelemetryUp(FirstSample(name))))
  }

  lemma {:induction false} GreetingSteps(name: RobotId, birth: MotionState)
    ensures var l, a := Connected(name, birth), SendTelemetry(FirstSample(name));
      LinkEnabled(l, a) && LinkNext(l, a) == GreetedLink(name, birth)
    ensures var l := GreetedLink(name, birth);
      LinkEnabled(l, ReadMessage) && LinkNext(l, ReadMessage) == HeardLink(name, birth)
  {
    var l := Connected(name, birth);
    assert l.up + [TelemetryUp(FirstSample(name))] == [TelemetryUp(FirstSample(name))];
  }

  lemma {:induction false} ReachHeard(s: State, i: nat, name: RobotId, birth: MotionState, retention: Time)
    requires Reaches(s, retention) && i !in s.links && birth.radius != 0.0
    ensures Reaches(s.(links := s.links[i := HeardLink(name, birth)]), retention)
  {
    hide Reaches, LinkEnabled, LinkNext, Connected, GreetedLink, HeardLink;
    GreetingSteps(name, birth);
    var l, l2, l3 := Connected(name, birth), GreetedLink(name, birth), HeardLink(name, birth);
    ReachStep(s, Connect(i, name, birth), retention);
    var s1 := s.(links := s.links[i := l]);
    ReachOnLink(s1, i, SendTelemetry(FirstSample(name)), retention);
    assert s1.links[i := l2] == s.links[i := l2];
    var s2 := s.(links := s.links[i := l2]);
    ReachOnLink(s2, i, ReadMessage, retention);
    assert s2.links[i := l3] == s.links[i := l3];
  }

  lemma {:induction false} ReachReady(s: State, i: nat, name: RobotId, birth: MotionState, retention: Time)
    requires Reaches(s, retention) && i !in s.links && birth.radius != 0.0
    ensures Reaches(s.(links := s.links[i := ReadyLink(name, birth)],
                       registry := if name in s.registry then s.registry else s.registry[name := i]), retention)
  {
    hide Reaches;
    ReachHeard(s, i, name, birth, retention);
    var l, ready := HeardLink(name, birth), ReadyLink(name, birth);
    var registered := l.(registered := true, robotId := name);
    var registry := if name in s.registry then s.registry else s.registry[name := i];
    var s3 := s.(links := s.links[i := l]);
    ReachStep(s3, Register(i), retention);
    assert s3.links[i := registered] == s.links[i := registered];
    var s4 := s.(links := s.links[i := registered], registry := registry);
    ReachStep(s4, Deliver(i, 0), retention);
    assert s4.links[i := ready] == s.links[i := ready];
  }

  // ---- a command reaches one of its robots ----------------------------------

  lemma {:induction false} FanOutHas(cmd: OperatorCommand, targets: seq<RobotId>, answers: seq<bool>, robot: RobotId)
    requires TS.SomeOnline(targets, answers, robot)
    ensures TS.CommandFor(cmd, robot) in TS.FanOut(cmd, targets, answers)
    decreases |targets|
  {
    var n := |targets| - 1;
    if targets[n] != robot || TS.LostAt(answers, n) {
      var i :| 0 <= i < |targets| && targets[i] == robot && !TS.LostAt(answers, i);
      assert targets[..n][i] == robot;
      FanOutHas(cmd, targets[..n], answers, robot);
    }
  }

  /** One thread, one registered link: the thread dispatches up to the robot's command and hands it to the link. */
  lemma {:induction false} ReachDispatched(s: State, todo: seq<RobotCommand>, c: RobotCommand, l: Link, retention: Time)
    returns (t: Sender)
    requires Reaches(s.(senders := map[0 := Sender(todo, None)]), retention)
    requires s.registry == map[c.robotId := 0] && s.links == map[0 := l]
    requires c in todo && forall d | d in todo && d.robotId == c.robotId :: d == c
    ensures Reaches(s.(senders := map[0 := t], links := map[0 := l.(pump := Enqueue(l.pump, c))]), retention)
    decreases |todo|
  {
    hide Reaches, Enqueue;
    var now := s.(senders := map[0 := Sender(todo, None)]);
    ReachStep(now, Dispatch(0), retention);
    if todo[0].robotId == c.robotId {
      t := Sender(todo[1..], Some(c));
      assert todo[0] in todo;
      assert now.senders[0 := t] == map[0 := t];
      var l' := l.(pump := Enqueue(l.pump, c));
      assert now.links[0 := l'] == map[0 := l'];
    } else {
      assert now.senders[0 := Sender(todo[1..], None)] == map[0 := Sender(todo[1..], None)];
      t := ReachDispatched(s, todo[1..], c, l, retention);
    }
  }

  const BIRTH := MotionState(0.0, 0.0, 1.0, 0.0, 0.0, 0)

  /** The robot's link once the robot has read the command at the given time. */
  function RanLink(c: RobotCommand, at: Time): Link {
    var l := ReadyLink(c.robotId, BIRTH);
    var handed := l.(pump := Enqueue(l.pump, c));
    var sent := handed.(onWire := true, transmitted := [c], down := [c]);
    LinkNext(sent, RobotReads(at))
  }

  /** The state in which one command has been submitted and one of its robots has read it, and nothing else happened. */
  function RanState(cmd: OperatorCommand, answers: seq<bool>, robot: RobotId, at: Time, t: Sender): State {
    var id := cmd.commandId;
    State(map[id := TS.Birth(cmd, answers, 0)], map[0 := t], map[robot := 0],
          map[0 := RanLink(TS.CommandFor(cmd, robot), at)], map[id := Submission(cmd, answers)],
          [TS.Submitted(cmd, answers, 0)], [])
  }

  lemma {:induction false} ReachRan(cmd: OperatorCommand, answers: seq<bool>, robot: RobotId, at: Time, retention: Time)
    returns (t: Sender)
    requires TS.SomeOnline(cmd.targets, answers, robot)
    ensures Reaches(RanState(cmd, answers, robot, at, t), retention)
  {
    hide Reaches, TS.Birth, TS.FanOut;
    var c, l, todo := TS.CommandFor(cmd, robot), ReadyLink(robot, BIRTH), TS.FanOut(cmd, cmd.targets, answers);
    ReachStart(retention);
    ReachReady(INITIAL, 0, robot, BIRTH, retention);
    var ready := INITIAL.(links := map[0 := l], registry := map[robot := 0]);
    assert ready.links == INITIAL.links[0 := l] && ready.registry == INITIAL.registry[robot := 0];
    ReachStep(ready, SubmitCommand(0, cmd, answers, 0), retention);
    var ran := RanState(cmd, answers, robot, at, Sender(todo, None));
    var issued := ran.(links := map[0 := l]);
    assert Next(ready, SubmitCommand(0, cmd, answers, 0), retention) == issued;
    FanOutHas(cmd, cmd.targets, answers, robot);
    FanOutLegit(cmd, cmd.targets, answers);
    t := ReachDispatched(issued, todo, c, l, retention);
    var handed := l.(pump := Enqueue(l.pump, c));
    var s3 := issued.(senders := map[0 := t], links := map[0 := handed]);
    ReachOnLink(s3, 0, Transmit, retention);
    var sent := handed.(onWire := true, transmitted := [c], down := [c]);
    var s4 := s3.(links := map[0 := sent]);
    assert handed.transmitted + [c] == [c] == handed.down + [c];
    assert LinkNext(handed, Transmit) == sent && s3.links[0 := sent] == s4.links;
    ReachOnLink(s4, 0, RobotReads(at), retention);
    assert s4.links[0 := RanLink(c, at)] == map[0 := RanLink(c, at)];
  }

  lemma {:induction false} RanDid(cmd: OperatorCommand, answers: seq<bool>, robot: RobotId, at: Time, t: Sender)
    requires !Refused(cmd.payload)
    ensures var links := RanState(cmd, answers, robot, at, t).links;
      Did(links, 0, 0, cmd.commandId, robot, cmd.payload, true) && links[0].log[0].at == at
  {
  }

  // ---- the three troubles, and exactly when each can happen -----------------

  /** A frame shows the state although the robot has applied the command, at or after its expiry if late. */
  ghost predicate ShownYetApplied(s: State, id: CommandId, robot: RobotId, shown: TS.CommandState, late: bool) {
    exists f: TS.Commands, i: nat, j: nat ::
      f in s.frames && ShownAs(f, id, robot, shown) && AppliedUnder(s.links, i, j, f, id, robot, late)
  }

  ghost predicate AppliedUnder(links: map<nat, Link>, i: nat, j: nat, f: TS.Commands, id: CommandId, robot: RobotId,
                               late: bool)
    requires id in f
  {
    Did(links, i, j, id, robot, f[id].payload, true) && (late ==> links[i].log[j].at >= f[id].expiry)
  }

  predicate ShownAs(f: TS.Commands, id: CommandId, robot: RobotId, shown: TS.CommandState) {
    id in f && robot in f[id].targets && f[id].targets[robot].state == shown
  }

  ghost predicate SubmittedAs(s: State, cmd: OperatorCommand, answers: seq<bool>) {
    cmd.commandId in s.submitted && s.submitted[cmd.commandId] == Submission(cmd, answers)
  }

  /** What a frame shows of a submitted command: its own targets, ROBOT_OFFLINE exactly if lost at the first mention. */
  lemma {:induction false} ShownOfSubmission(s: State, retention: Time, cmd: OperatorCommand, answers: seq<bool>,
                                             f: TS.Commands, robot: RobotId)
    requires Inv(s, retention) && f in s.frames && SubmittedAs(s, cmd, answers)
    requires cmd.commandId in f && robot in f[cmd.commandId].targets
    ensures robot in cmd.targets && f[cmd.commandId].payload == cmd.payload && f[cmd.commandId].expiry == cmd.expiry
    ensures f[cmd.commandId].targets[robot].state == TS.RobotOffline <==> TS.FirstLost(cmd.targets, answers, robot)
  {
    hide LinksInv, RegistryInv, SendersInv, RoutingInv, RestsInv, MarksInv, TrackerInv, TS.Run, TS.FirstLost;
    var id := cmd.commandId;
    var p: nat :| IsPrefixRun(f, s.events, p, retention);
    var es := s.events[..p];
    assert forall j | 0 <= j < p :: es[j] == s.events[j];
    var k := TH.TrackedSinceSubmission(es, retention, id);
    TH.TargetsExplainedByHistory(es, retention, k, id, robot);
    assert RecordedAt(s.events[k], s.submitted);
    if !TS.FirstLost(cmd.targets, answers, robot) && !TH.Undecided(es, k, id, robot, cmd.expiry) {
      var d := TH.LeastDecision(es, k, id, robot, cmd.expiry);
    }
  }

  lemma {:induction false} DidMeansOnline(s: State, retention: Time, cmd: OperatorCommand, answers: seq<bool>,
                                          i: nat, j: nat, robot: RobotId)
    requires Inv(s, retention) && SubmittedAs(s, cmd, answers)
    requires Did(s.links, i, j, cmd.commandId, robot, cmd.payload, true)
    ensures TS.SomeOnline(cmd.targets, answers, robot) && !Refused(cmd.payload)
  {
    hide LinksInv, RegistryInv, SendersInv, RestsInv, MarksInv, TrackerInv, FramesInv, SubmissionsInv, TS.SomeOnline;
    LoggedIsAccepted(s, i, j, retention);
    assert LinkLegit(s.links[i], s.submitted);
  }

  lemma {:induction false} FirstOnline(targets: seq<RobotId>, answers: seq<bool>, robot: RobotId)
    requires robot in targets && !TS.FirstLost(targets, answers, robot)
    ensures TS.SomeOnline(targets, answers, robot)
  {
    var i := 0;
    while targets[i] != robot
      invariant 0 <= i < |targets| && robot !in targets[..i] && robot in targets
      decreases |targets| - i
    {
      assert targets[..i + 1] == targets[..i] + [targets[i]];
      assert robot in targets[i + 1..] by { assert targets == targets[..i + 1] + targets[i + 1..]; }
      i := i + 1;
    }
  }

  /**
   EXPIRED does not mean not applied. For every command, every list of answers and every robot, some run shows the
   robot's target EXPIRED although the robot applied the command, and did so at or after its expiry, if and only if the
   robot is a target not called lost at its first mention, the payload is not one robots refuse, and the tracker keeps
   finished commands at all.
   */
  lemma {:induction false} ExpiredMayHaveRunLate(cmd: OperatorCommand, answers: seq<bool>, robot: RobotId,
      retention: Time)
    ensures (exists s :: Reaches(s, retention) && SubmittedAs(s, cmd, answers)
                && ShownYetApplied(s, cmd.commandId, robot, TS.Expired, true))
      <==> robot in cmd.targets && !TS.FirstLost(cmd.targets, answers, robot) && !Refused(cmd.payload) && retention > 0
  {
    hide Reaches, Inv, Did, TS.FirstLost, TS.SomeOnline;
    if s :| Reaches(s, retention) && SubmittedAs(s, cmd, answers)
              && ShownYetApplied(s, cmd.commandId, robot, TS.Expired, true) {
      OnlyIf(s, cmd, answers, robot, TS.Expired, true, retention);
      ExpiredNeedsWindow(s, cmd.commandId, robot, retention);
    }
    if robot in cmd.targets && !TS.FirstLost(cmd.targets, answers, robot) && !Refused(cmd.payload) && retention > 0 {
      FirstOnline(cmd.targets, answers, robot);
      var s := ReachExpired(cmd, answers, robot, retention);
    }
  }

  /**
   ROBOT_OFFLINE does not mean not applied. Some run shows a target ROBOT_OFFLINE although the robot applied the command
   if and only if the watchdog called it lost at its first mention and not lost at a later one, and the payload is not
   one robots refuse. So it takes a command that lists a robot twice.
   */
  lemma {:induction false} OfflineMayHaveRun(cmd: OperatorCommand, answers: seq<bool>, robot: RobotId, retention: Time)
    ensures (exists s :: Reaches(s, retention) && SubmittedAs(s, cmd, answers)
                && ShownYetApplied(s, cmd.commandId, robot, TS.RobotOffline, false))
      <==> TS.FirstLost(cmd.targets, answers, robot) && TS.SomeOnline(cmd.targets, answers, robot)
           && !Refused(cmd.payload)
  {
    hide Reaches, Inv, Did, TS.FirstLost, TS.SomeOnline;
    if s :| Reaches(s, retention) && SubmittedAs(s, cmd, answers)
              && ShownYetApplied(s, cmd.commandId, robot, TS.RobotOffline, false) {
      OnlyIf(s, cmd, answers, robot, TS.RobotOffline, false, retention);
    }
    if TS.FirstLost(cmd.targets, answers, robot) && TS.SomeOnline(cmd.targets, answers, robot)
       && !Refused(cmd.payload) {
      var s := ReachOffline(cmd, answers, robot, retention);
    }
  }

  lemma {:induction false} OnlyIf(s: State, cmd: OperatorCommand, answers: seq<bool>, robot: RobotId,
                                  shown: TS.CommandState, late: bool, retention: Time)
    requires Reaches(s, retention) && SubmittedAs(s, cmd, answers)
    requires ShownYetApplied(s, cmd.commandId, robot, shown, late)
    ensures robot in cmd.targets && TS.SomeOnline(cmd.targets, answers, robot) && !Refused(cmd.payload)
    ensures shown == TS.RobotOffline <==> TS.FirstLost(cmd.targets, answers, robot)
  {
    hide Reaches, Inv, TS.FirstLost, TS.SomeOnline;
    ReachedInv(s, retention);
    var f: TS.Commands, i: nat, j: nat :| f in s.frames && ShownAs(f, cmd.commandId, robot, shown)
      && AppliedUnder(s.links, i, j, f, cmd.commandId, robot, late);
    ShownOfSubmission(s, retention, cmd, answers, f, robot);
    DidMeansOnline(s, retention, cmd, answers, i, j, robot);
  }

  lemma {:induction false} ExpiredNeedsWindow(s: State, id: CommandId, robot: RobotId, retention: Time)
    requires Reaches(s, retention) && ShownYetApplied(s, id, robot, TS.Expired, true)
    ensures retention > 0
  {
    hide Reaches, AppliedUnder, LinksInv, RegistryInv, SendersInv, RoutingInv, RestsInv, MarksInv, TrackerInv, TS.Run;
    ReachedInv(s, retention);
    var f: TS.Commands, i: nat, j: nat :|
      f in s.frames && ShownAs(f, id, robot, TS.Expired) && AppliedUnder(s.links, i, j, f, id, robot, true);
    var p: nat :| IsPrefixRun(f, s.events, p, retention);
    if retention <= 0 { TH.WithoutWindowNoneExpired(map[], s.events[..p], retention); }
  }

  lemma {:induction false} ReachExpired(cmd: OperatorCommand, answers: seq<bool>, robot: RobotId, retention: Time)
    returns (s: State)
    requires retention > 0 && !Refused(cmd.payload)
    requires robot in cmd.targets && TS.SomeOnline(cmd.targets, answers, robot)
    requires !TS.FirstLost(cmd.targets, answers, robot)
    ensures Reaches(s, retention) && SubmittedAs(s, cmd, answers)
    ensures ShownYetApplied(s, cmd.commandId, robot, TS.Expired, true)
  {
    hide Reaches, TS.FirstLost, TS.SomeOnline, RanLink;
    var id := cmd.commandId;
    var t := ReachRan(cmd, answers, robot, cmd.expiry, retention);
    var ran := RanState(cmd, answers, robot, cmd.expiry, t);
    RanDid(cmd, answers, robot, cmd.expiry, t);
    ReachStep(ran, Sweep(cmd.expiry), retention);
    var swept := Next(ran, Sweep(cmd.expiry), retention);
    ReachStep(swept, Snapshot, retention);
    s := Next(swept, Snapshot, retention);
    var f := TS.Sweep(map[id := TS.Birth(cmd, answers, 0)], cmd.expiry, retention);
    assert f == swept.tracker && f in s.frames;
    BornThenSwept(cmd, answers, robot, retention);
    assert AppliedUnder(s.links, 0, 0, f, id, robot, true);
  }

  /** The sweep at the expiry shows the target EXPIRED, and keeps the command if some target was still open. */
  lemma {:induction false} BornThenSwept(cmd: OperatorCommand, answers: seq<bool>, robot: RobotId, retention: Time)
    requires retention > 0 && robot in cmd.targets && !TS.FirstLost(cmd.targets, answers, robot)
    ensures var f := TS.Sweep(map[cmd.commandId := TS.Birth(cmd, answers, 0)], cmd.expiry, retention);
      && ShownAs(f, cmd.commandId, robot, TS.Expired)
      && f[cmd.commandId].payload == cmd.payload && f[cmd.commandId].expiry == cmd.expiry
  {
    hide TS.FirstLost;
    var born := TS.Birth(cmd, answers, 0);
    assert born.targets[robot] == TS.PENDING_AT_BIRTH;
    assert born.completedAt.None?;
    assert TS.Age(born, cmd.expiry).completedAt == Some(cmd.expiry);
  }

  lemma {:induction false} ReachOffline(cmd: OperatorCommand, answers: seq<bool>, robot: RobotId, retention: Time)
    returns (s: State)
    requires TS.FirstLost(cmd.targets, answers, robot) && TS.SomeOnline(cmd.targets, answers, robot)
    requires !Refused(cmd.payload)
    ensures Reaches(s, retention) && SubmittedAs(s, cmd, answers)
    ensures ShownYetApplied(s, cmd.commandId, robot, TS.RobotOffline, false)
  {
    hide Reaches, TS.SomeOnline, RanLink;
    var id := cmd.commandId;
    var t := ReachRan(cmd, answers, robot, 0, retention);
    var ran := RanState(cmd, answers, robot, 0, t);
    RanDid(cmd, answers, robot, 0, t);
    ReachStep(ran, Snapshot, retention);
    s := Next(ran, Snapshot, retention);
    var f := ran.tracker;
    assert f in s.frames && robot in cmd.targets;
    assert AppliedUnder(s.links, 0, 0, f, id, robot, false);
  }

  /**
   A live link can be lost: for every robot some run opens a second link of the robot before the first closes, and ends
   with the second open and registered but reached by no command.
   */
  lemma {:induction false} OverlappingLinkIsLost(name: RobotId, retention: Time) returns (s: State)
    ensures Reaches(s, retention) && LiveLink(s, 1) && s.links[1].name == name && name !in s.registry
  {
    hide Reaches;
    var l := ReadyLink(name, BIRTH);
    ReachStart(retention);
    ReachReady(INITIAL, 0, name, BIRTH, retention);
    var s1 := INITIAL.(links := map[0 := l], registry := map[name := 0]);
    assert s1.links == INITIAL.links[0 := l] && s1.registry == INITIAL.registry[name := 0];
    ReachReady(s1, 1, name, BIRTH, retention);
    var s2 := s1.(links := map[0 := l, 1 := l]);
    assert s2.links == s1.links[1 := l];
    ReachOnLink(s2, 0, ReadFails, retention);
    var s3 := s2.(links := s2.links[0 := LinkNext(l, ReadFails)]);
    ReachStep(s3, Unregister(0), retention);
    s := Next(s3, Unregister(0), retention);
  }

  // ---- and every command can come to its outcome ----------------------------

  lemma {:induction false} AnswerSteps(l: Link, r: CommandResult)
    requires l.inHand == Some(r) && l.results == [] && l.draining.None? && l.up == [] && l.incoming.None?
    requires l.running && l.greeted && l.phase == Open
    ensures LinkEnabled(l, PushResult)
    ensures var l1 := LinkNext(l, PushResult);
      && LinkEnabled(l1, PopResult)
      && var l2 := LinkNext(l1, PopResult);
         && LinkEnabled(l2, WriteResult(true))
         && var l3 := LinkNext(l2, WriteResult(true));
            && LinkEnabled(l3, ReadMessage)
            && LinkNext(l3, ReadMessage) == l.(inHand := None, incoming := Some(ResultUp(r)))
  {
    assert l.results + [r] == [r] && l.up + [ResultUp(r)] == [ResultUp(r)];
  }

  lemma {:induction false} ReachTwice(s: State, i: nat, a: LinkAction, b: LinkAction, retention: Time)
    requires Reaches(s, retention) && i in s.links && LinkEnabled(s.links[i], a)
    requires LinkEnabled(LinkNext(s.links[i], a), b)
    ensures Reaches(s.(links := s.links[i := LinkNext(LinkNext(s.links[i], a), b)]), retention)
  {
    hide Reaches, LinkEnabled, LinkNext;
    ReachOnLink(s, i, a, retention);
    var l := LinkNext(s.links[i], a);
    var s1 := s.(links := s.links[i := l]);
    ReachOnLink(s1, i, b, retention);
    assert s1.links[i := LinkNext(l, b)] == s.links[i := LinkNext(l, b)];
  }

  /** A link with an answer in hand can carry it to the server's read buffer. */
  lemma {:induction false} ReachAnswered(s: State, i: nat, r: CommandResult, retention: Time)
    requires Reaches(s, retention) && i in s.links
    requires var l := s.links[i];
      && l.inHand == Some(r) && l.results == [] && l.draining.None? && l.up == [] && l.incoming.None?
      && l.running && l.greeted && l.phase == Open
    ensures Reaches(s.(links := s.links[i := s.links[i].(inHand := None, incoming := Some(ResultUp(r)))]), retention)
  {
    hide Reaches, LinkEnabled, LinkNext;
    var l := s.links[i];
    AnswerSteps(l, r);
    ReachTwice(s, i, PushResult, PopResult, retention);
    var l2 := LinkNext(LinkNext(l, PushResult), PopResult);
    var s2 := s.(links := s.links[i := l2]);
    ReachTwice(s2, i, WriteResult(true), ReadMessage, retention);
    var l4 := l.(inHand := None, incoming := Some(ResultUp(r)));
    assert s2.links[i := l4] == s.links[i := l4];
  }

  ghost predicate ShownExactly(s: State, id: CommandId, robot: RobotId, ts: TS.TargetState) {
    exists f: TS.Commands :: f in s.frames && id in f && robot in f[id].targets && f[id].targets[robot] == ts
  }

  /** The verdict the robot answers. */
  function AnswerOf(cmd: OperatorCommand, robot: RobotId): CommandResult {
    CommandResult(cmd.commandId, robot, if Refused(cmd.payload) then ResultRejected else ResultApplied, "")
  }

  lemma {:induction false} RanLinkAnswers(cmd: OperatorCommand, robot: RobotId, at: Time)
    ensures var l := RanLink(TS.CommandFor(cmd, robot), at);
      && l.inHand == Some(AnswerOf(cmd, robot)) && l.results == [] && l.draining.None? && l.up == [] && l.incoming.None?
      && l.running && l.greeted && l.phase == Open && l.registered
  {
  }

  lemma {:induction false} BornThenTold(cmd: OperatorCommand, answers: seq<bool>, robot: RobotId, now: Time)
    requires robot in cmd.targets
    ensures var f := TS.Report(map[cmd.commandId := TS.Birth(cmd, answers, 0)], AnswerOf(cmd, robot), now);
      && cmd.commandId in f && robot in f[cmd.commandId].targets
      && f[cmd.commandId].targets[robot] == Outcome(Submission(cmd, answers), robot)
  {
    hide TS.FirstLost;
  }

  /**
   Nothing is in the way: for every command, every list of answers and every target handed to its robot, some run shows
   the target in exactly the outcome its payload calls for.
   */
  lemma {:induction false} OutcomeIsReached(cmd: OperatorCommand, answers: seq<bool>, robot: RobotId, retention: Time)
    returns (s: State)
    requires TS.SomeOnline(cmd.targets, answers, robot)
    ensures Reaches(s, retention) && SubmittedAs(s, cmd, answers)
    ensures ShownExactly(s, cmd.commandId, robot, Outcome(Submission(cmd, answers), robot))
  {
    hide Reaches, RanLink, TS.FirstLost, Outcome, TS.Birth, TS.Report;
    var id, r := cmd.commandId, AnswerOf(cmd, robot);
    assert robot in cmd.targets;
    var t := ReachRan(cmd, answers, robot, 0, retention);
    var ran := RanState(cmd, answers, robot, 0, t);
    RanLinkAnswers(cmd, robot, 0);
    ReachAnswered(ran, 0, r, retention);
    var s1 := ran.(links := ran.links[0 := ran.links[0].(inHand := None, incoming := Some(ResultUp(r)))]);
    ReachStep(s1, Deliver(0, 0), retention);
    var s2 := Next(s1, Deliver(0, 0), retention);
    ReachStep(s2, Snapshot, retention);
    s := Next(s2, Snapshot, retention);
    var f := TS.Report(map[id := TS.Birth(cmd, answers, 0)], r, 0);
    assert f == s2.tracker && f in s.frames;
    BornThenTold(cmd, answers, robot, 0);
  }

  /** No thread is ever stuck: one with a mark can set it, and one without can dispatch what it still has. */
  lemma {:induction false} SendersAreNeverStuck(s: State, thread: nat, retention: Time)
    requires Reaches(s, retention) && thread in s.senders
    ensures if s.senders[thread].mark.Some? then Enabled(s, MarkSent(thread))
            else s.senders[thread].todo != [] ==> Enabled(s, Dispatch(thread))
  {
    hide Reaches, LinksInv, SendersInv, RoutingInv, RestsInv, MarksInv, FramesInv, SubmissionsInv, TrackerInv;
    ReachedInv(s, retention);
  }
}
