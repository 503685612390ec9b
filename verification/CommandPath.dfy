/**
 The whole command path: operators' SendCommand threads, the tracker, the registry, every robot and its link, and the
 subscribers' sweeps and snapshots. Every critical region is one action, and every interleaving is a run.
 */
module CommandPath {
  import opened Domain
  import opened OutgoingLink
  import opened RobotGateway
  import opened Motion
  import opened RobotLink
  import TS = TrackerSpec

  /** A SendCommand thread: the commands it has still to dispatch, and the one it has just handed over. */
  datatype Sender = Sender(todo: seq<RobotCommand>, mark: Option<RobotCommand>)

  /** What an operator submitted, and what the watchdog answered for each mention of a target. */
  datatype Submission = Submission(cmd: OperatorCommand, answers: seq<bool>)

  /** events is the run of the tracker so far; submitted and frames record what operators sent and were shown. */
  datatype State = State(
    tracker: TS.Commands,
    senders: map<nat, Sender>,
    registry: map<RobotId, nat>,
    links: map<nat, Link>,
    submitted: map<CommandId, Submission>,
    events: seq<TS.Event>,
    frames: seq<TS.Commands>)

  const INITIAL := State(map[], map[], map[], map[], map[], [], [])

  datatype Action =
    | SubmitCommand(thread: nat, cmd: OperatorCommand, answers: seq<bool>, now: Time)
    | Dispatch(thread: nat)
    | MarkSent(thread: nat)
    | Connect(link: nat, name: RobotId, birth: MotionState)
    | OnLink(link: nat, a: LinkAction)
    | Register(link: nat)
    | Deliver(link: nat, now: Time)
    | Unregister(link: nat)
    | Delete(link: nat)
    | Sweep(now: Time)
    | Snapshot

  predicate Enabled(s: State, a: Action) {
    match a
    case SubmitCommand(thread, cmd, _, _) => thread !in s.senders && cmd.commandId !in s.submitted
    case Dispatch(thread) => thread in s.senders && s.senders[thread].mark.None? && s.senders[thread].todo != []
      && (var id := s.senders[thread].todo[0].robotId; id in s.registry ==> s.registry[id] in s.links)
    case MarkSent(thread) => thread in s.senders && s.senders[thread].mark.Some?
    case Connect(link, _, birth) => link !in s.links && birth.radius != 0.0
    case OnLink(link, la) => link in s.links && LinkEnabled(s.links[link], la)
    case Register(link) => link in s.links && s.links[link].phase == Open
      && s.links[link].incoming.Some? && !s.links[link].registered
    case Deliver(link, _) => link in s.links && s.links[link].phase == Open
      && s.links[link].incoming.Some? && s.links[link].registered
    case Unregister(link) => link in s.links && s.links[link].phase == Open
      && s.links[link].incoming.None? && s.links[link].pump.finishes > 0
    case Delete(link) => link in s.links && s.links[link].phase == Unregistered
    case Sweep(_) => true
    case Snapshot => true
  }

  function Track(s: State, e: TS.Event, retention: Time): State {
    s.(tracker := TS.Step(s.tracker, e, retention), events := s.events + [e])
  }

  /** Hand a command to the link its robot id is registered under, if there is one. */
  function HandOver(s: State, cmd: RobotCommand): State
    requires cmd.robotId in s.registry ==> s.registry[cmd.robotId] in s.links
  {
    if cmd.robotId in s.registry then
      var i := s.registry[cmd.robotId];
      s.(links := s.links[i := s.links[i].(pump := Enqueue(s.links[i].pump, cmd))])
    else s
  }

  function Next(s: State, a: Action, retention: Time): State
    requires Enabled(s, a)
  {
    match a
    case SubmitCommand(thread, cmd, answers, now) =>
      Track(s.(senders := s.senders[thread := Sender(TS.FanOut(cmd, cmd.targets, answers), None)],
               submitted := s.submitted[cmd.commandId := Submission(cmd, answers)]),
            TS.Submitted(cmd, answers, now), retention)
    case Dispatch(thread) =>
      var t := s.senders[thread];
      var cmd := t.todo[0];
      var sent := cmd.robotId in s.registry;
      HandOver(s, cmd).(senders := s.senders[thread := Sender(t.todo[1..], if sent then Some(cmd) else None)])
    case MarkSent(thread) =>
      var t := s.senders[thread];
      Track(s.(senders := s.senders[thread := t.(mark := None)]),
            TS.Dispatched(t.mark.value.commandId, t.mark.value.robotId), retention)
    case Connect(link, name, birth) =>
      s.(links := s.links[link := Connected(name, birth)])
    case OnLink(link, la) =>
      s.(links := s.links[link := LinkNext(s.links[link], la)])
    case Register(link) =>
      var l := s.links[link];
      var id := RegistrationId(l.incoming.value);
      s.(links := s.links[link := l.(registered := true, robotId := id)],
         registry := if id in s.registry then s.registry else s.registry[id := link])
    case Deliver(link, now) =>
      var l := s.links[link];
      match l.incoming.value {
        case TelemetryUp(_) => s.(links := s.links[link := l.(incoming := None)])
        case ResultUp(r) =>
          Track(s.(links := s.links[link := l.(incoming := None, delivered := l.delivered + [r])]),
                TS.Reported(r, now), retention)
      }
    case Unregister(link) =>
      s.(links := s.links[link := s.links[link].(phase := Unregistered)],
         registry := s.registry - {s.links[link].robotId})
    case Delete(link) =>
      s.(links := s.links[link := s.links[link].(phase := Deleted)])
    case Sweep(now) => Track(s, TS.Swept(now), retention)
    case Snapshot => s.(frames := s.frames + [s.tracker])
  }

  // ---- the invariant --------------------------------------------------------

  ghost predicate LinksInv(links: map<nat, Link>) {
    forall i | i in links :: LinkInv(links[i])
  }

  /** The link is one the registry may hold under the id: not unregistered, not deleted, registered under that id. */
  predicate Reachable(l: Link, id: RobotId) {
    l.phase == Open && l.registered && l.robotId == id
  }

  ghost predicate RegistryInv(registry: map<RobotId, nat>, links: map<nat, Link>) {
    forall id | id in registry :: registry[id] in links && Reachable(links[registry[id]], id)
  }

  /** The command is the fan-out of a submission to a target that was not called lost at some mention. */
  ghost predicate Legit(cmd: RobotCommand, submitted: map<CommandId, Submission>) {
    && cmd.commandId in submitted
    && var sub := submitted[cmd.commandId];
       TS.SomeOnline(sub.cmd.targets, sub.answers, cmd.robotId) && cmd == TS.CommandFor(sub.cmd, cmd.robotId)
  }

  ghost predicate SenderLegit(t: Sender, submitted: map<CommandId, Submission>) {
    (forall c | c in t.todo :: Legit(c, submitted)) && (t.mark.Some? ==> Legit(t.mark.value, submitted))
  }

  ghost predicate SendersInv(senders: map<nat, Sender>, submitted: map<CommandId, Submission>) {
    forall t | t in senders :: SenderLegit(senders[t], submitted)
  }

  /** A link accepts only legitimate commands for its own robot. */
  ghost predicate LinkLegit(l: Link, submitted: map<CommandId, Submission>) {
    forall c | c in l.pump.accepted :: Legit(c, submitted) && c.robotId == l.name
  }

  ghost predicate RoutingInv(links: map<nat, Link>, submitted: map<CommandId, Submission>) {
    forall i | i in links :: LinkLegit(links[i], submitted)
  }

  /** Some robot's log holds the processing the result reports. */
  ghost predicate Backed(links: map<nat, Link>, r: CommandResult) {
    exists i: nat, j: nat :: ProcessedAt(links, i, j, r)
  }

  ghost predicate ProcessedAt(links: map<nat, Link>, i: nat, j: nat, r: CommandResult) {
    i in links && j < |links[i].log| && VerdictOf(links[i].log[j], links[i].name) == r
  }

  /** Some link of the robot has accepted the command. */
  ghost predicate Handed(links: map<nat, Link>, id: CommandId, robot: RobotId) {
    exists i: nat, j: nat :: AcceptedAt(links, i, j, id, robot)
  }

  ghost predicate AcceptedAt(links: map<nat, Link>, i: nat, j: nat, id: CommandId, robot: RobotId) {
    && i in links && links[i].name == robot && j < |links[i].pump.accepted|
    && links[i].pump.accepted[j].commandId == id && links[i].pump.accepted[j].robotId == robot
  }

  /** What an event of the tracker rests on: a report on a processing, a mark on a hand-over. */
  ghost predicate EventRests(e: TS.Event, links: map<nat, Link>) {
    match e
    case Reported(r, _) => Backed(links, r)
    case Dispatched(id, robot) => Handed(links, id, robot)
    case _ => true
  }

  ghost predicate RestsInv(events: seq<TS.Event>, links: map<nat, Link>) {
    forall k | 0 <= k < |events| :: EventRests(events[k], links)
  }

  ghost predicate MarkRests(t: Sender, links: map<nat, Link>) {
    t.mark.Some? ==> Handed(links, t.mark.value.commandId, t.mark.value.robotId)
  }

  ghost predicate MarksInv(senders: map<nat, Sender>, links: map<nat, Link>) {
    forall t | t in senders :: MarkRests(senders[t], links)
  }

  /** Every frame shown is what the tracker held after some prefix of its run. */
  ghost predicate FramesInv(frames: seq<TS.Commands>, events: seq<TS.Event>, retention: Time) {
    forall f | f in frames :: exists p: nat :: IsPrefixRun(f, events, p, retention)
  }

  ghost predicate IsPrefixRun(f: TS.Commands, es: seq<TS.Event>, p: nat, retention: Time) {
    p <= |es| && f == TS.Run(map[], es[..p], retention)
  }

  /** The submissions among the events are those recorded, each once. */
  ghost predicate SubmissionsInv(events: seq<TS.Event>, submitted: map<CommandId, Submission>) {
    && TS.FreshIds(events)
    && forall k | 0 <= k < |events| && events[k].Submitted? :: RecordedAt(events[k], submitted)
  }

  predicate RecordedAt(e: TS.Event, submitted: map<CommandId, Submission>)
    requires e.Submitted?
  {
    e.cmd.commandId in submitted && submitted[e.cmd.commandId] == Submission(e.cmd, e.answers)
  }

  ghost predicate TrackerInv(tracker: TS.Commands, events: seq<TS.Event>, retention: Time) {
    tracker == TS.Run(map[], events, retention)
  }

  ghost predicate Inv(s: State, retention: Time) {
    && LinksInv(s.links) && RegistryInv(s.registry, s.links)
    && SendersInv(s.senders, s.submitted) && RoutingInv(s.links, s.submitted)
    && RestsInv(s.events, s.links) && MarksInv(s.senders, s.links)
    && FramesInv(s.frames, s.events, retention) && SubmissionsInv(s.events, s.submitted)
    && TrackerInv(s.tracker, s.events, retention)
  }

  // ---- growth of the links --------------------------------------------------

  ghost predicate LinksGrow(a: map<nat, Link>, b: map<nat, Link>) {
    forall i | i in a :: i in b && LinkGrows(a[i], b[i])
  }

  lemma {:induction false} HandedGrows(id: CommandId, robot: RobotId, a: map<nat, Link>, b: map<nat, Link>)
    requires Handed(a, id, robot) && LinksGrow(a, b)
    ensures Handed(b, id, robot)
  {
    var i: nat, j: nat :| AcceptedAt(a, i, j, id, robot);
    assert b[i].pump.accepted[j] == a[i].pump.accepted[j];
    assert AcceptedAt(b, i, j, id, robot);
  }

  lemma {:induction false} BackedGrows(r: CommandResult, a: map<nat, Link>, b: map<nat, Link>)
    requires Backed(a, r) && LinksGrow(a, b)
    ensures Backed(b, r)
  {
    var i: nat, j: nat :| ProcessedAt(a, i, j, r);
    assert b[i].log[j] == a[i].log[j];
    assert ProcessedAt(b, i, j, r);
  }

  lemma {:induction false} RestsGrow(events: seq<TS.Event>, a: map<nat, Link>, b: map<nat, Link>)
    requires RestsInv(events, a) && LinksGrow(a, b)
    ensures RestsInv(events, b)
  {
    hide LinksGrow, Handed, Backed;
    forall k | 0 <= k < |events| ensures EventRests(events[k], b) {
      assert EventRests(events[k], a);
      match events[k]
      case Reported(r, _) => BackedGrows(r, a, b);
      case Dispatched(id, robot) => HandedGrows(id, robot, a, b);
      case _ =>
    }
  }

  lemma {:induction false} MarksGrow(senders: map<nat, Sender>, a: map<nat, Link>, b: map<nat, Link>)
    requires MarksInv(senders, a) && LinksGrow(a, b)
    ensures MarksInv(senders, b)
  {
    hide LinksGrow, Handed;
    forall t | t in senders ensures MarkRests(senders[t], b) {
      assert MarkRests(senders[t], a);
      if senders[t].mark.Some? {
        HandedGrows(senders[t].mark.value.commandId, senders[t].mark.value.robotId, a, b);
      }
    }
  }

  /** Replacing one link by one that has grown. */
  lemma {:induction false} ReplaceGrows(links: map<nat, Link>, i: nat, l': Link)
    requires i in links && LinkGrows(links[i], l')
    ensures LinksGrow(links, links[i := l'])
  {
  }

  // ---- growth of the tracker's history --------------------------------------

  lemma {:induction false} FramesGrow(frames: seq<TS.Commands>, events: seq<TS.Event>, e: TS.Event, retention: Time)
    requires FramesInv(frames, events, retention)
    ensures FramesInv(frames, events + [e], retention)
  {
    hide TS.Run;
    forall f | f in frames ensures exists p: nat :: IsPrefixRun(f, events + [e], p, retention) {
      var p: nat :| IsPrefixRun(f, events, p, retention);
      assert (events + [e])[..p] == events[..p];
      assert IsPrefixRun(f, events + [e], p, retention);
    }
  }

  /** One more event, resting on something, extends the tracker's history. */
  lemma {:induction false} TrackKeepsInv(s: State, e: TS.Event, retention: Time)
    requires Inv(s, retention) && EventRests(e, s.links) && !e.Submitted?
    ensures Inv(Track(s, e, retention), retention)
  {
    hide TS.Run, TS.Step, LinksInv, RegistryInv, SendersInv, RoutingInv, MarksInv, FramesInv, EventRests;
    var s' := Track(s, e, retention);
    TS.RunSnoc(map[], s.events, e, retention);
    FramesGrow(s.frames, s.events, e, retention);
    assert forall k | 0 <= k < |s.events| :: s'.events[k] == s.events[k];
  }

  // ---- each action keeps the invariant --------------------------------------

  lemma {:induction false} FanOutLegit(cmd: OperatorCommand, targets: seq<RobotId>, answers: seq<bool>)
    ensures forall c | c in TS.FanOut(cmd, targets, answers) ::
      TS.SomeOnline(targets, answers, c.robotId) && c == TS.CommandFor(cmd, c.robotId)
    decreases |targets|
  {
    if targets != [] {
      FanOutLegit(cmd, targets[..|targets| - 1], answers);
    }
  }

  lemma {:induction false} LegitGrows(senders: map<nat, Sender>, links: map<nat, Link>,
                                      submitted: map<CommandId, Submission>, id: CommandId, sub: Submission)
    requires SendersInv(senders, submitted) && RoutingInv(links, submitted) && id !in submitted
    ensures SendersInv(senders, submitted[id := sub]) && RoutingInv(links, submitted[id := sub])
  {
    forall t | t in senders ensures SenderLegit(senders[t], submitted[id := sub]) {
      assert SenderLegit(senders[t], submitted);
    }
    forall i | i in links ensures LinkLegit(links[i], submitted[id := sub]) {
      assert LinkLegit(links[i], submitted);
    }
  }

  lemma {:induction false} SubmissionsGrow(events: seq<TS.Event>, submitted: map<CommandId, Submission>, e: TS.Event)
    requires SubmissionsInv(events, submitted) && e.Submitted? && e.cmd.commandId !in submitted
    ensures SubmissionsInv(events + [e], submitted[e.cmd.commandId := Submission(e.cmd, e.answers)])
  {
    var longer := events + [e];
    assert forall k | 0 <= k < |events| :: longer[k] == events[k];
    forall k | 0 <= k < |events| && events[k].Submitted? ensures events[k].cmd.commandId != e.cmd.commandId {
      assert RecordedAt(events[k], submitted);
    }
  }

  lemma {:induction false} SubmitKeepsInv(s: State, a: Action, retention: Time)
    requires a.SubmitCommand? && Inv(s, retention) && Enabled(s, a)
    ensures Inv(Next(s, a, retention), retention)
  {
    hide TS.Run, TS.Step, TS.FanOut, LinksInv, RegistryInv, RoutingInv, FramesInv, SubmissionsInv;
    var s' := Next(s, a, retention);
    var e, sub := TS.Submitted(a.cmd, a.answers, a.now), Submission(a.cmd, a.answers);
    FanOutLegit(a.cmd, a.cmd.targets, a.answers);
    LegitGrows(s.senders, s.links, s.submitted, a.cmd.commandId, sub);
    SubmissionsGrow(s.events, s.submitted, e);
    TS.RunSnoc(map[], s.events, e, retention);
    FramesGrow(s.frames, s.events, e, retention);
    assert SenderLegit(s'.senders[a.thread], s'.submitted);
    assert MarkRests(s'.senders[a.thread], s.links);
    assert RestsInv(s'.events, s.links) by {
      assert forall k | 0 <= k < |s.events| :: s'.events[k] == s.events[k] && EventRests(s.events[k], s.links);
    }
  }

  lemma {:induction false} EnqueueKeepsDown(l: Link, cmd: RobotCommand)
    requires DownInv(l)
    ensures DownInv(l.(pump := Enqueue(l.pump, cmd)))
  {
    hide Commands;
    var p := Enqueue(l.pump, cmd);
    PumpStepKeepsInv(l.pump, Enqueued(cmd));
    assert p.queue == l.pump.queue + [cmd] && p.failed == l.pump.failed && p.written == l.pump.written;
    if l.onWire { assert p.queue[0] == l.pump.queue[0]; }
    assert l.pump.accepted <= p.accepted;
  }

  lemma {:induction false} EnqueueKeepsLink(l: Link, cmd: RobotCommand)
    requires LinkInv(l)
    ensures var l' := l.(pump := Enqueue(l.pump, cmd));
      LinkInv(l') && LinkGrows(l, l') && l'.pump.accepted == l.pump.accepted + [cmd]
  {
    hide Commands, Verdicts, ResultsIn, EntryOk, MotionAfter, ApplyParams, DownInv;
    var l' := l.(pump := Enqueue(l.pump, cmd));
    EnqueueKeepsDown(l, cmd);
    assert Unread(l') == Unread(l);
    assert LogInv(l') && UpInv(l') && GreetInv(l');
  }

  lemma {:induction false} RegisteredName(l: Link)
    requires LinkInv(l) && l.registered
    ensures l.robotId == l.name
  {
  }

  lemma {:induction false} UnregisteredId(l: Link)
    requires LinkInv(l) && !l.registered
    ensures l.robotId == ""
  {
  }

  lemma {:induction false} HandOverKeeps(s: State, cmd: RobotCommand, retention: Time)
    requires Inv(s, retention) && Legit(cmd, s.submitted) && cmd.robotId in s.registry
    ensures s.registry[cmd.robotId] in s.links
    ensures var s' := HandOver(s, cmd);
      && LinksInv(s'.links) && RegistryInv(s.registry, s'.links) && RoutingInv(s'.links, s.submitted)
      && LinksGrow(s.links, s'.links) && Handed(s'.links, cmd.commandId, cmd.robotId)
  {
    hide LinkInv, TS.Run, PumpLocked, LinksGrow, Legit;
    var i := s.registry[cmd.robotId];
    var l := s.links[i];
    assert Reachable(l, cmd.robotId) && LinkInv(l);
    RegisteredName(l);
    EnqueueKeepsLink(l, cmd);
    var s' := HandOver(s, cmd);
    ReplaceGrows(s.links, i, s'.links[i]);
    assert AcceptedAt(s'.links, i, |l.pump.accepted|, cmd.commandId, cmd.robotId);
    assert LinkLegit(l, s.submitted);
    assert LinkLegit(s'.links[i], s.submitted);
  }

  lemma {:induction false} DispatchKeepsInv(s: State, thread: nat, retention: Time)
    requires Inv(s, retention) && Enabled(s, Dispatch(thread))
    ensures Inv(Next(s, Dispatch(thread), retention), retention)
  {
    hide LinksInv, RegistryInv, RoutingInv, RestsInv, FramesInv, SubmissionsInv, TrackerInv, Handed, Legit, Enqueue;
    var s', t := Next(s, Dispatch(thread), retention), s.senders[thread];
    var cmd := t.todo[0];
    assert SenderLegit(t, s.submitted) && cmd in t.todo;
    assert forall c | c in t.todo[1..] :: c in t.todo;
    var over := HandOver(s, cmd);
    if cmd.robotId in s.registry {
      HandOverKeeps(s, cmd, retention);
      RestsGrow(s.events, s.links, over.links);
      MarksGrow(s.senders, s.links, over.links);
    }
    assert SenderLegit(s'.senders[thread], s.submitted);
    assert MarkRests(s'.senders[thread], s'.links);
  }

  lemma {:induction false} MarkKeepsInv(s: State, thread: nat, retention: Time)
    requires Inv(s, retention) && Enabled(s, MarkSent(thread))
    ensures Inv(Next(s, MarkSent(thread), retention), retention)
  {
    hide LinksInv, RegistryInv, RoutingInv, RestsInv, FramesInv, SubmissionsInv, TrackerInv, Handed, Legit;
    var t := s.senders[thread];
    assert SenderLegit(t, s.submitted) && MarkRests(t, s.links);
    var mid := s.(senders := s.senders[thread := t.(mark := None)]);
    var e := TS.Dispatched(t.mark.value.commandId, t.mark.value.robotId);
    assert SenderLegit(mid.senders[thread], s.submitted) && MarkRests(mid.senders[thread], s.links);
    assert Inv(mid, retention);
    TrackKeepsInv(mid, e, retention);
  }

  /** Replacing one link by one that keeps its invariant, has grown, and has accepted nothing new. */
  lemma {:induction false} ReplaceLink(s: State, i: nat, l': Link, registry: map<RobotId, nat>, retention: Time)
    requires Inv(s, retention) && i in s.links && LinkInv(l') && LinkGrows(s.links[i], l')
    requires l'.pump.accepted == s.links[i].pump.accepted
    requires RegistryInv(registry, s.links[i := l'])
    ensures Inv(s.(links := s.links[i := l'], registry := registry), retention)
  {
    hide LinkInv, RegistryInv, RestsInv, MarksInv, SendersInv, FramesInv, SubmissionsInv, TrackerInv, Legit;
    ReplaceGrows(s.links, i, l');
    RestsGrow(s.events, s.links, s.links[i := l']);
    MarksGrow(s.senders, s.links, s.links[i := l']);
    assert LinkLegit(s.links[i], s.submitted);
  }

  lemma {:induction false} ConnectedInv(name: RobotId, birth: MotionState)
    requires birth.radius != 0.0
    ensures LinkInv(Connected(name, birth))
  {
    assert Unread(Connected(name, birth)) == [];
  }

  lemma {:induction false} ConnectKeepsInv(s: State, a: Action, retention: Time)
    requires a.Connect? && Inv(s, retention) && Enabled(s, a)
    ensures Inv(Next(s, a, retention), retention)
  {
    hide LinkInv, RestsInv, MarksInv, SendersInv, FramesInv, SubmissionsInv, TrackerInv;
    var links := s.links[a.link := Connected(a.name, a.birth)];
    ConnectedInv(a.name, a.birth);
    assert LinksGrow(s.links, links);
    RestsGrow(s.events, s.links, links);
    MarksGrow(s.senders, s.links, links);
  }

  lemma {:induction false} OnLinkKeepsInv(s: State, link: nat, la: LinkAction, retention: Time)
    requires Inv(s, retention) && Enabled(s, OnLink(link, la))
    ensures Inv(Next(s, OnLink(link, la), retention), retention)
  {
    var l := s.links[link];
    assert LinkInv(l);
    LinkStep(l, la);
    var l' := LinkNext(l, la);
    RegistryWith(s.registry, s.links, link, l');
    ReplaceLink(s, link, l', s.registry, retention);
  }

  /** Changes that leave phase, registration and robot id alone leave the registry sound. */
  lemma {:induction false} RegistryWith(registry: map<RobotId, nat>, links: map<nat, Link>, i: nat, l': Link)
    requires RegistryInv(registry, links) && i in links
    requires l'.phase == links[i].phase && l'.registered == links[i].registered && l'.robotId == links[i].robotId
    ensures RegistryInv(registry, links[i := l'])
  {
  }

  /** A link registers under its own robot's name. */
  lemma {:induction false} RegisterOwnName(l: Link)
    requires LinkInv(l) && l.incoming.Some? && !l.registered
    ensures RegistrationId(l.incoming.value) == l.name
    ensures var l' := l.(registered := true, robotId := l.name); LinkInv(l') && LinkGrows(l, l')
  {
    hide Commands, Verdicts, ResultsIn, EntryOk, MotionAfter, ApplyParams, PumpInv;
    var l' := l.(registered := true, robotId := l.name);
    assert Unread(l)[0] == l.incoming.value && Unread(l)[0] in Unread(l);
    assert Unread(l') == Unread(l);
    assert DownInv(l') && LogInv(l') && UpInv(l') && GreetInv(l');
  }

  /** Registering keeps the entry an earlier link of the same robot holds. */
  lemma {:induction false} EmplaceKeepsRegistry(registry: map<RobotId, nat>, links: map<nat, Link>, i: nat, l': Link)
    requires RegistryInv(registry, links) && i in links && !links[i].registered && Reachable(l', l'.robotId)
    ensures RegistryInv(if l'.robotId in registry then registry else registry[l'.robotId := i], links[i := l'])
  {
  }

  lemma {:induction false} RegisterKeepsInv(s: State, link: nat, retention: Time)
    requires Inv(s, retention) && Enabled(s, Register(link))
    ensures Inv(Next(s, Register(link), retention), retention)
  {
    hide LinkInv, RegistryInv, SendersInv, RoutingInv, RestsInv, MarksInv, FramesInv, SubmissionsInv, TrackerInv;
    var l, s' := s.links[link], Next(s, Register(link), retention);
    assert LinkInv(l);
    RegisterOwnName(l);
    var l' := l.(registered := true, robotId := l.name);
    EmplaceKeepsRegistry(s.registry, s.links, link, l');
    ReplaceLink(s, link, l', s'.registry, retention);
  }

  lemma {:induction false} HandleTelemetry(l: Link)
    requires LinkInv(l) && l.incoming.Some? && l.registered && l.incoming.value.TelemetryUp?
    ensures LinkInv(l.(incoming := None))
  {
    hide Commands, Verdicts, ResultsIn, EntryOk, MotionAfter, ApplyParams, PumpInv;
    var l', all := l.(incoming := None), Unread(l);
    assert all[1..] == l.up && Unread(l') == l.up;
    ResultsHead(all);
    assert [] + ResultsIn(l.up) == ResultsIn(l.up);
    assert ResultsIn(Unread(l')) == ResultsIn(Unread(l));
    assert forall u | u in l.up :: u in all;
    assert DownInv(l') && LogInv(l') && UpInv(l') && GreetInv(l');
  }

  lemma {:induction false} HandleResult(l: Link)
    requires LinkInv(l) && l.incoming.Some? && l.registered && l.incoming.value.ResultUp?
    ensures var r := l.incoming.value.result;
      && LinkInv(l.(incoming := None, delivered := l.delivered + [r]))
      && |l.delivered| < |l.log| && VerdictOf(l.log[|l.delivered|], l.name) == r
  {
    hide Commands, Verdicts, ResultsIn, EntryOk, MotionAfter, ApplyParams, PumpInv, UpInv;
    var l' := l.(incoming := None, delivered := l.delivered + [l.incoming.value.result]);
    UpDeliver(l);
    assert Unread(l') == l.up && forall u | u in l.up :: u in Unread(l);
    assert DownInv(l') && LogInv(l') && GreetInv(l');
  }

  lemma {:induction false} DeliverKeepsInv(s: State, link: nat, now: Time, retention: Time)
    requires Inv(s, retention) && Enabled(s, Deliver(link, now))
    ensures Inv(Next(s, Deliver(link, now), retention), retention)
  {
    hide LinkInv, RegistryInv, SendersInv, RoutingInv, RestsInv, MarksInv, FramesInv, SubmissionsInv, TrackerInv;
    var l := s.links[link];
    assert LinkInv(l);
    match l.incoming.value
    case TelemetryUp(_) =>
      HandleTelemetry(l);
      RegistryWith(s.registry, s.links, link, l.(incoming := None));
      ReplaceLink(s, link, l.(incoming := None), s.registry, retention);
    case ResultUp(r) =>
      var l' := l.(incoming := None, delivered := l.delivered + [r]);
      HandleResult(l);
      RegistryWith(s.registry, s.links, link, l');
      ReplaceLink(s, link, l', s.registry, retention);
      var mid := s.(links := s.links[link := l']);
      assert ProcessedAt(mid.links, link, |l.delivered|, r);
      TrackKeepsInv(mid, TS.Reported(r, now), retention);
  }

  lemma {:induction false} PhaseKeepsLink(l: Link, phase: Phase)
    requires LinkInv(l)
    ensures LinkInv(l.(phase := phase)) && LinkGrows(l, l.(phase := phase))
  {
    hide Commands, Verdicts, ResultsIn, EntryOk, MotionAfter, ApplyParams, PumpInv;
    var l' := l.(phase := phase);
    assert Unread(l') == Unread(l);
    assert DownInv(l') && LogInv(l') && UpInv(l') && GreetInv(l');
  }

  /** Erasing the key of the closing link leaves no entry that points to it. */
  lemma {:induction false} EraseKeepsRegistry(registry: map<RobotId, nat>, links: map<nat, Link>, i: nat, l': Link)
    requires RegistryInv(registry, links) && i in links
    ensures RegistryInv(registry - {links[i].robotId}, links[i := l'])
    ensures i !in (registry - {links[i].robotId}).Values
    ensures links[i].phase != Open ==> i !in registry.Values && RegistryInv(registry, links[i := l'])
  {
  }

  lemma {:induction false} CloseKeepsInv(s: State, a: Action, retention: Time)
    requires (a.Unregister? || a.Delete?) && Inv(s, retention) && Enabled(s, a)
    ensures Inv(Next(s, a, retention), retention)
  {
    hide LinkInv, RegistryInv, SendersInv, RoutingInv, RestsInv, MarksInv, FramesInv, SubmissionsInv, TrackerInv;
    var phase := if a.Unregister? then Unregistered else Deleted;
    var l, s' := s.links[a.link], Next(s, a, retention);
    assert LinkInv(l);
    PhaseKeepsLink(l, phase);
    EraseKeepsRegistry(s.registry, s.links, a.link, l.(phase := phase));
    ReplaceLink(s, a.link, l.(phase := phase), s'.registry, retention);
  }

  lemma {:induction false} SnapshotKeepsInv(s: State, retention: Time)
    requires Inv(s, retention)
    ensures Inv(Next(s, Snapshot, retention), retention)
  {
    hide TS.Run, LinksInv, RegistryInv, SendersInv, RoutingInv, RestsInv, MarksInv, SubmissionsInv;
    assert s.events[..|s.events|] == s.events;
    assert IsPrefixRun(s.tracker, s.events, |s.events|, retention);
  }

  lemma {:induction false} StepKeepsInv(s: State, a: Action, retention: Time)
    requires Inv(s, retention) && Enabled(s, a)
    ensures Inv(Next(s, a, retention), retention)
  {
    match a
    case SubmitCommand(_, _, _, _) => SubmitKeepsInv(s, a, retention);
    case Dispatch(thread) => DispatchKeepsInv(s, thread, retention);
    case MarkSent(thread) => MarkKeepsInv(s, thread, retention);
    case Connect(_, _, _) => ConnectKeepsInv(s, a, retention);
    case OnLink(link, la) => OnLinkKeepsInv(s, link, la, retention);
    case Register(link) => RegisterKeepsInv(s, link, retention);
    case Deliver(link, now) => DeliverKeepsInv(s, link, now, retention);
    case Unregister(_) => CloseKeepsInv(s, a, retention);
    case Delete(_) => CloseKeepsInv(s, a, retention);
    case Sweep(now) => TrackKeepsInv(s, TS.Swept(now), retention);
    case Snapshot => SnapshotKeepsInv(s, retention);
  }

  /** A run: a sequence of states linked by enabled actions, from the empty server. */
  ghost predicate IsRun(states: seq<State>, actions: seq<Action>, retention: Time) {
    && |states| == |actions| + 1 && states[0] == INITIAL
    && forall i | 0 <= i < |actions| ::
         Enabled(states[i], actions[i]) && states[i + 1] == Next(states[i], actions[i], retention)
  }

  lemma {:induction false} InvAt(states: seq<State>, actions: seq<Action>, retention: Time, i: nat)
    requires IsRun(states, actions, retention) && i < |states|
    ensures Inv(states[i], retention)
  {
    if i > 0 {
      InvAt(states, actions, retention, i - 1);
      StepKeepsInv(states[i - 1], actions[i - 1], retention);
    }
  }
}
