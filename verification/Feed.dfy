/** The operator feed: the glue that drives store, watchdog, tracker and gateway for one call at a time. */
module Feed {
  import opened Domain
  import opened TrackerSpec
  import opened CommandTracking
  import opened Wire
  import opened RobotGateway
  import opened TrackStore
  import LW = LinkWatchdog
  import OutgoingLink

  /** The watchdog's health on the wire. */
  function OnWire(h: LW.Health): (s: LinkStatus)
    ensures s != LinkUnspecified
    ensures s == LinkLive <==> h == LW.Live
    ensures s == LinkLost <==> h == LW.Lost
  {
    match h
    case Live => LinkLive
    case Stale => LinkStale
    case Lost => LinkLost
  }

  /** The list shows every cell of the store once, with the link health the watchdog gives its robot. */
  ghost predicate ShowsRobots(rs: seq<RobotState>, cells: Cells, th: LW.Thresholds, lastRx: LW.Receipts, now: Time) {
    && (forall i, j | 0 <= i < j < |rs| :: rs[i].telemetry.robotId != rs[j].telemetry.robotId)
    && (forall id | id in cells :: exists i :: 0 <= i < |rs| && rs[i].telemetry.robotId == id)
    && forall i | 0 <= i < |rs| ::
         var id, health := rs[i].telemetry.robotId, LW.ClassifyAt(th, lastRx, rs[i].telemetry.robotId, now);
         && id in cells && rs[i].telemetry == cells[id]
         && rs[i].linkStatus == OnWire(health.status) && rs[i].ageMs == health.ageMs
  }

  method RobotStates(samples: seq<Telemetry>, watchdog: LW.Watchdog, now: Time) returns (rs: seq<RobotState>)
    ensures |rs| == |samples|
    ensures forall i | 0 <= i < |rs| ::
      var health := LW.ClassifyAt(watchdog.thresholds, watchdog.lastRx, samples[i].robotId, now);
      rs[i] == RobotState(samples[i], OnWire(health.status), health.ageMs)
  {
    rs := [];
    for i := 0 to |samples|
      invariant |rs| == i
      invariant forall j | 0 <= j < i ::
        var health := LW.ClassifyAt(watchdog.thresholds, watchdog.lastRx, samples[j].robotId, now);
        rs[j] == RobotState(samples[j], OnWire(health.status), health.ageMs)
    {
      var health := watchdog.Classify(samples[i].robotId, now);
      rs := rs + [RobotState(samples[i], OnWire(health.status), health.ageMs)];
    }
  }

  method TargetStatuses(targets: map<RobotId, TargetState>) returns (ts: seq<TargetStatus>)
    ensures ShowsTargets(ts, targets)
  {
    ts := [];
    var todo := targets.Keys;
    while todo != {}
      invariant todo <= targets.Keys
      invariant forall i | 0 <= i < |ts| ::
        ts[i].robotId in targets && ts[i].robotId !in todo && TargetState(ts[i].state, ts[i].detail) == targets[ts[i].robotId]
      invariant forall i, j | 0 <= i < j < |ts| :: ts[i].robotId != ts[j].robotId
      invariant forall r | r in targets && r !in todo :: exists i :: 0 <= i < |ts| && ts[i].robotId == r
      decreases todo
    {
      var r :| r in todo;
      ghost var was := ts;
      ts := ts + [TargetStatus(r, targets[r].state, targets[r].detail)];
      todo := todo - {r};
      assert ts[|was|].robotId == r && forall i | 0 <= i < |was| :: ts[i] == was[i];
    }
  }

  method CommandStatuses(tracked: seq<TrackedCommand>) returns (cs: seq<CommandStatus>)
    ensures |cs| == |tracked|
    ensures forall i | 0 <= i < |cs| ::
      cs[i].commandId == tracked[i].commandId && ShowsTargets(cs[i].targets, tracked[i].targets)
  {
    cs := [];
    for i := 0 to |tracked|
      invariant |cs| == i
      invariant forall j | 0 <= j < i ::
        cs[j].commandId == tracked[j].commandId && ShowsTargets(cs[j].targets, tracked[j].targets)
    {
      var ts := TargetStatuses(tracked[i].targets);
      cs := cs + [CommandStatus(tracked[i].commandId, ts)];
    }
  }

  /** Statuses of a list of everything tracked show everything tracked. */
  lemma {:induction false} ListShowsCommands(cs: seq<CommandStatus>, tracked: seq<TrackedCommand>, m: Commands)
    requires Lists(tracked, m) && |cs| == |tracked|
    requires forall i | 0 <= i < |cs| ::
      cs[i].commandId == tracked[i].commandId && ShowsTargets(cs[i].targets, tracked[i].targets)
    requires forall id | id in m :: m[id].commandId == id
    ensures ShowsCommands(cs, m)
  {
    hide ShowsTargets;
    forall id | id in m ensures exists i :: 0 <= i < |cs| && cs[i].commandId == id {
      var i :| 0 <= i < |tracked| && tracked[i] == m[id];
      assert cs[i].commandId == id;
    }
  }

  lemma {:induction false} StatesShowRobots(rs: seq<RobotState>, samples: seq<Telemetry>, cells: Cells,
                                            th: LW.Thresholds, lastRx: LW.Receipts, now: Time)
    requires |rs| == |samples| && Distinct(RobotIds(samples)) && (set id | id in RobotIds(samples)) == cells.Keys
    requires forall i | 0 <= i < |samples| :: samples[i].robotId in cells && samples[i] == cells[samples[i].robotId]
    requires forall i | 0 <= i < |rs| ::
      var health := LW.ClassifyAt(th, lastRx, samples[i].robotId, now);
      rs[i] == RobotState(samples[i], OnWire(health.status), health.ageMs)
    ensures ShowsRobots(rs, cells, th, lastRx, now)
  {
    hide OnWire;
    forall i, j | 0 <= i < j < |rs| ensures rs[i].telemetry.robotId != rs[j].telemetry.robotId {
      assert RobotIds(samples)[i] != RobotIds(samples)[j];
    }
    forall id | id in cells ensures exists i :: 0 <= i < |rs| && rs[i].telemetry.robotId == id {
      assert id in (set x | x in RobotIds(samples));
      var i :| 0 <= i < |samples| && RobotIds(samples)[i] == id;
      assert rs[i].telemetry.robotId == id;
    }
  }

  // ---- sending --------------------------------------------------------------

  /** The watchdog's answers, one for each mention of a target. */
  function AnswersOf(targets: seq<RobotId>, th: LW.Thresholds, lastRx: LW.Receipts, now: Time): (answers: seq<bool>)
    ensures |answers| == |targets|
    ensures forall i | 0 <= i < |answers| :: answers[i] <==> LW.ClassifyAt(th, lastRx, targets[i], now).status == LW.Lost
  {
    seq(|targets|, i requires 0 <= i < |targets| => LW.ClassifyAt(th, lastRx, targets[i], now).status == LW.Lost)
  }

  /** The commands for one robot, in order. */
  function OnlyFor(fan: seq<RobotCommand>, id: RobotId): seq<RobotCommand> {
    if fan == [] then []
    else OnlyFor(fan[..|fan| - 1], id) + if fan[|fan| - 1].robotId == id then [fan[|fan| - 1]] else []
  }

  /** One mark for each command whose robot is registered, in order. */
  function MarksFor(fan: seq<RobotCommand>, registered: set<RobotId>): seq<Event> {
    if fan == [] then []
    else
      var c := fan[|fan| - 1];
      MarksFor(fan[..|fan| - 1], registered)
      + if c.robotId in registered then [Dispatched(c.commandId, c.robotId)] else []
  }

  lemma {:induction false} MarkNext(m: Commands, fan: seq<RobotCommand>, i: nat, registered: set<RobotId>,
      retention: Time)
    requires i < |fan|
    ensures Run(m, MarksFor(fan[..i + 1], registered), retention) ==
      if fan[i].robotId in registered
      then MarkSent(Run(m, MarksFor(fan[..i], registered), retention), fan[i].commandId, fan[i].robotId)
      else Run(m, MarksFor(fan[..i], registered), retention)
    ensures forall id :: OnlyFor(fan[..i + 1], id) == OnlyFor(fan[..i], id) + if fan[i].robotId == id then [fan[i]] else []
  {
    assert fan[..i + 1][..i] == fan[..i];
    var before := MarksFor(fan[..i], registered);
    if fan[i].robotId in registered {
      RunSnoc(m, before, Dispatched(fan[i].commandId, fan[i].robotId), retention);
    } else {
      assert MarksFor(fan[..i + 1], registered) == before;
    }
  }

  class OperatorFeed {
    const store: Store
    const watchdog: LW.Watchdog
    const tracker: CommandTracker
    const gateway: Gateway

    constructor (store: Store, watchdog: LW.Watchdog, tracker: CommandTracker, gateway: Gateway)
      ensures this.store == store && this.watchdog == watchdog && this.tracker == tracker && this.gateway == gateway
    {
      this.store, this.watchdog, this.tracker, this.gateway := store, watchdog, tracker, gateway;
    }

    /** A sample from a robot: the store keeps the latest, and the watchdog hears the robot even if the sample is old. */
    method OnTelemetry(t: Telemetry, now: Time)
      requires store.Valid()
      modifies store, store.tracks.Values, watchdog
      ensures store.Valid() && store.Contents() == Upserted(old(store.Contents()), t)
      ensures watchdog.lastRx == old(watchdog.lastRx)[t.robotId := now]
    {
      var stored := store.Upsert(t);
      watchdog.Record(t.robotId, now);
    }

    method RobotsNow(nowSteady: Time) returns (robots: seq<RobotState>)
      requires store.Valid()
      ensures ShowsRobots(robots, store.Contents(), watchdog.thresholds, watchdog.lastRx, nowSteady)
    {
      hide ShowsRobots;
      var samples := store.Snapshot();
      robots := RobotStates(samples, watchdog, nowSteady);
      StatesShowRobots(robots, samples, store.Contents(), watchdog.thresholds, watchdog.lastRx, nowSteady);
    }

    method CommandsNow(nowSystem: Time) returns (commands: seq<CommandStatus>)
      requires tracker.Valid()
      modifies tracker
      ensures tracker.Valid() && tracker.commands == Sweep(old(tracker.commands), nowSystem, tracker.retention)
      ensures ShowsCommands(commands, tracker.commands)
    {
      hide ShowsCommands, ShowsTargets, Sweep, Lists;
      tracker.SweepExpired(nowSystem);
      var tracked := tracker.Snapshot();
      commands := CommandStatuses(tracked);
      ListShowsCommands(commands, tracked, tracker.commands);
    }

    /**
     One frame for a subscriber: every robot once, with its latest sample and the watchdog's verdict, and every command
     the tracker keeps once it has been swept.
     */
    method NextFrame(nowSystem: Time, nowSteady: Time) returns (frame: SwarmState)
      requires store.Valid() && tracker.Valid()
      modifies tracker
      ensures tracker.Valid() && tracker.commands == Sweep(old(tracker.commands), nowSystem, tracker.retention)
      ensures ShowsRobots(frame.robots, store.Contents(), watchdog.thresholds, watchdog.lastRx, nowSteady)
      ensures ShowsCommands(frame.commands, tracker.commands)
    {
      hide ShowsRobots, ShowsCommands, Sweep;
      var robots := RobotsNow(nowSteady);
      var commands := CommandsNow(nowSystem);
      frame := SwarmState(robots, commands);
    }

    method AskWatchdog(targets: seq<RobotId>, now: Time) returns (answers: seq<bool>)
      ensures answers == AnswersOf(targets, watchdog.thresholds, watchdog.lastRx, now)
    {
      answers := [];
      for i := 0 to |targets|
        invariant answers == AnswersOf(targets, watchdog.thresholds, watchdog.lastRx, now)[..i]
      {
        var health := watchdog.Classify(targets[i], now);
        answers := answers + [health.status == LW.Lost];
      }
    }

    /** Hand one command over and, if its robot is registered, mark it sent. */
    method DispatchOne(c: RobotCommand)
      requires tracker.Valid() && gateway.Valid()
      modifies tracker, gateway.registry.Values
      ensures tracker.Valid() && gateway.Valid() && gateway.registry == old(gateway.registry)
      ensures tracker.commands == if c.robotId in gateway.registry
        then MarkSent(old(tracker.commands), c.commandId, c.robotId) else old(tracker.commands)
      ensures forall id | id in gateway.registry ::
        gateway.registry[id].accepted == old(gateway.registry[id].accepted) + if c.robotId == id then [c] else []
    {
      hide MarkSent, OutgoingLink.PumpInv;
      var sent := gateway.SendCommand(c);
      if sent { tracker.OnCommandSent(c.commandId, c.robotId); }
    }

    method DispatchAll(fan: seq<RobotCommand>)
      requires tracker.Valid() && gateway.Valid()
      modifies tracker, gateway.registry.Values
      ensures tracker.Valid() && gateway.Valid() && gateway.registry == old(gateway.registry)
      ensures tracker.commands ==
        Run(old(tracker.commands), MarksFor(fan, gateway.registry.Keys), tracker.retention)
      ensures forall id | id in gateway.registry ::
        gateway.registry[id].accepted == old(gateway.registry[id].accepted) + OnlyFor(fan, id)
    {
      hide Run, OnlyFor, MarksFor, MarkSent, Gateway.Valid;
      NoMarks(tracker.commands, fan, gateway.registry.Keys, tracker.retention);
      for i := 0 to |fan|
        invariant tracker.Valid() && gateway.Valid() && gateway.registry == old(gateway.registry)
        invariant tracker.commands ==
          Run(old(tracker.commands), MarksFor(fan[..i], gateway.registry.Keys), tracker.retention)
        invariant forall id | id in gateway.registry ::
          gateway.registry[id].accepted == old(gateway.registry[id].accepted) + OnlyFor(fan[..i], id)
      {
        MarkNext(old(tracker.commands), fan, i, gateway.registry.Keys, tracker.retention);
        DispatchOne(fan[i]);
      }
      assert fan[..|fan|] == fan;
    }

    /**
     One command, nothing else running: it is submitted with the watchdog's answers, each command of its fan-out whose
     robot is registered goes to that robot's reactor, in order, and is then marked sent.
     */
    method SendCommand(cmd: OperatorCommand, nowSystem: Time, nowSteady: Time)
      requires tracker.Valid() && gateway.Valid()
      modifies tracker, gateway.registry.Values
      ensures tracker.Valid() && gateway.Valid() && gateway.registry == old(gateway.registry)
      ensures var answers := AnswersOf(cmd.targets, watchdog.thresholds, watchdog.lastRx, nowSteady);
        var fan := FanOut(cmd, cmd.targets, answers);
        && tracker.commands ==
             Run(Submit(old(tracker.commands), cmd, answers, nowSystem), MarksFor(fan, gateway.registry.Keys),
                 tracker.retention)
        && forall id | id in gateway.registry ::
             gateway.registry[id].accepted == old(gateway.registry[id].accepted) + OnlyFor(fan, id)
    {
      hide Run, Submit, FanOut, OnlyFor, MarksFor, Gateway.Valid;
      var answers := AskWatchdog(cmd.targets, nowSteady);
      var fan := tracker.OnCommandSubmitted(cmd, answers, nowSystem);
      DispatchAll(fan);
    }
  }

  lemma {:induction false} NoMarks(m: Commands, fan: seq<RobotCommand>, registered: set<RobotId>, retention: Time)
    ensures Run(m, MarksFor(fan[..0], registered), retention) == m && forall id :: OnlyFor(fan[..0], id) == []
  {
  }
}
