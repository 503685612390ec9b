/**
 The alert engine as a value: its memory, and what one robot sighting or one target status makes of it. A frame is
 the sequence of its sightings followed by its target statuses.
 */
module AlertSpec {
  import opened Domain
  import opened TrackerSpec
  import opened Wire

  datatype Kind = LinkAlert | CommandAlert | GeofenceAlert

  datatype Severity = Info | Warn | Critical

  /** What an alert says; Render spells it out. */
  datatype Message =
    | Recovered | WentStale | WentLost
    | FoundOutside | Breached | Reentered
    | CommandFailed(state: CommandState, detail: string)

  function Text(m: Message): string {
    match m
    case Recovered => " link recovered (LIVE)"
    case WentStale => " link STALE"
    case WentLost => " link LOST"
    case FoundOutside => " outside the geofence"
    case Breached => " BREACHED the geofence"
    case Reentered => " re-entered the geofence"
    case CommandFailed(state, detail) =>
      " command " + FailureLabel(state) + if detail == "" then "" else " \U{2014} " + detail
  }

  /** The text the operator reads. */
  function Render(robot: RobotId, m: Message): string { robot + Text(m) }

  datatype Alert = Alert(id: string, kind: Kind, severity: Severity, ts: int, robotId: RobotId, message: Message)

  datatype Item =
    | RobotSeen(state: RobotState, at: int)
    | TargetSeen(commandId: CommandId, status: TargetStatus, at: int)

  /** What the engine remembers between sightings. */
  datatype Memory = Memory(
    prevLink: map<RobotId, LinkStatus>,
    prevInside: map<RobotId, bool>,
    seen: set<string>,
    nextId: nat)

  const FRESH := Memory(map[], map[], {}, 0)

  type Fence = (real, real) -> bool

  function Decimal(n: nat): string {
    if n < 10 then [Digit(n)] else Decimal(n / 10) + [Digit(n % 10)]
  }

  function Digit(d: nat): char
    requires d < 10
  {
    "0123456789"[d]
  }

  function AlertId(n: nat): string { "alert-" + Decimal(n) }

  function Key(commandId: CommandId, robot: RobotId): string { commandId + ":" + robot }

  predicate IsFailure(s: CommandState) { s == Rejected || s == Expired || s == RobotOffline }

  function FailureLabel(s: CommandState): string {
    match s
    case Rejected => "REJECTED"
    case Expired => "EXPIRED"
    case RobotOffline => "ROBOT_OFFLINE"
    case _ => ""
  }

  /** Severity and message of an alert, without its id. */
  datatype Note = Note(severity: Severity, ts: int, message: Message)

  function LinkNote(prev: LinkStatus, cur: LinkStatus, at: int): seq<Note> {
    match cur
    case LinkLive =>
      if prev == LinkStale || prev == LinkLost then [Note(Info, at, Recovered)] else []
    case LinkStale => [Note(Warn, at, WentStale)]
    case LinkLost => [Note(Critical, at, WentLost)]
    case LinkUnspecified => []
  }

  function FenceNote(prev: Option<bool>, inside: bool, at: int): seq<Note> {
    match prev
    case None => if inside then [] else [Note(Critical, at, FoundOutside)]
    case Some(was) =>
      if was == inside then []
      else if inside then [Note(Info, at, Reentered)]
      else [Note(Critical, at, Breached)]
  }

  /** At most one note becomes an alert with the next id. */
  function Emit(m: Memory, kind: Kind, robot: RobotId, notes: seq<Note>): (r: (Memory, seq<Alert>))
    ensures r.0 == m.(nextId := m.nextId + |r.1|)
  {
    if notes == [] then (m, [])
    else (m.(nextId := m.nextId + 1),
          [Alert(AlertId(m.nextId), kind, notes[0].severity, notes[0].ts, robot, notes[0].message)])
  }

  function SeeLink(m: Memory, id: RobotId, cur: LinkStatus, at: int): (Memory, seq<Alert>) {
    var notes := if id in m.prevLink && m.prevLink[id] != cur then LinkNote(m.prevLink[id], cur, at) else [];
    var (m', out) := Emit(m, LinkAlert, id, notes);
    (m'.(prevLink := m'.prevLink[id := cur]), out)
  }

  /** A robot whose link is lost has no fresh position; its fence state is left alone. */
  function SeeFence(m: Memory, inside: Fence, r: RobotState, at: int): (Memory, seq<Alert>) {
    if r.linkStatus == LinkLost then (m, [])
    else
      var id, now := r.telemetry.robotId, inside(r.telemetry.x, r.telemetry.y);
      var prev := if id in m.prevInside then Some(m.prevInside[id]) else None;
      var (m', out) := Emit(m, GeofenceAlert, id, FenceNote(prev, now, at));
      (m'.(prevInside := m'.prevInside[id := now]), out)
  }

  function SeeTarget(m: Memory, commandId: CommandId, t: TargetStatus, at: int): (Memory, seq<Alert>) {
    var key := Key(commandId, t.robotId);
    if !IsFailure(t.state) || key in m.seen then (m, [])
    else Emit(m.(seen := m.seen + {key}), CommandAlert, t.robotId, [Note(Warn, at, CommandFailed(t.state, t.detail))])
  }

  function See(m: Memory, inside: Fence, item: Item): (Memory, seq<Alert>) {
    match item
    case RobotSeen(r, at) =>
      var (m1, out1) := SeeLink(m, r.telemetry.robotId, r.linkStatus, at);
      var (m2, out2) := SeeFence(m1, inside, r, at);
      (m2, out1 + out2)
    case TargetSeen(commandId, t, at) => SeeTarget(m, commandId, t, at)
  }

  function SeeAll(m: Memory, inside: Fence, items: seq<Item>): (Memory, seq<Alert>) {
    if items == [] then (m, [])
    else
      var before := SeeAll(m, inside, items[..|items| - 1]);
      Then(before, See(before.0, inside, items[|items| - 1]))
  }

  function RobotItems(robots: seq<RobotState>, at: int): (items: seq<Item>)
    ensures |items| == |robots| && forall i | 0 <= i < |items| :: items[i] == RobotSeen(robots[i], at)
  {
    seq(|robots|, i requires 0 <= i < |robots| => RobotSeen(robots[i], at))
  }

  function TargetItems(id: CommandId, ts: seq<TargetStatus>, at: int): (items: seq<Item>)
    ensures |items| == |ts| && forall i | 0 <= i < |items| :: items[i] == TargetSeen(id, ts[i], at)
  {
    seq(|ts|, i requires 0 <= i < |ts| => TargetSeen(id, ts[i], at))
  }

  function CommandItems(cs: seq<CommandStatus>, at: int): seq<Item> {
    if cs == [] then []
    else CommandItems(cs[..|cs| - 1], at) + TargetItems(cs[|cs| - 1].commandId, cs[|cs| - 1].targets, at)
  }

  function ItemsOf(frame: SwarmState, at: int): seq<Item> {
    RobotItems(frame.robots, at) + CommandItems(frame.commands, at)
  }

  lemma {:induction false} SeeAllAppend(m: Memory, inside: Fence, a: seq<Item>, b: seq<Item>)
    ensures SeeAll(m, inside, a + b) == Then(SeeAll(m, inside, a), SeeAll(SeeAll(m, inside, a).0, inside, b))
    decreases |b|
  {
    if b == [] {
      assert a + b == a;
      assert SeeAll(m, inside, a).1 + [] == SeeAll(m, inside, a).1;
    } else {
      var n := |b| - 1;
      assert (a + b)[..|a + b| - 1] == a + b[..n];
      assert (a + b)[|a + b| - 1] == b[n];
      SeeAllAppend(m, inside, a, b[..n]);
      var first := SeeAll(m, inside, a);
      ThenAssociates(first, SeeAll(first.0, inside, b[..n]), See(SeeAll(first.0, inside, b[..n]).0, inside, b[n]));
    }
  }

  lemma SeeAllUpTo(m: Memory, inside: Fence, items: seq<Item>, i: nat)
    requires i < |items|
    ensures var before := SeeAll(m, inside, items[..i]);
      SeeAll(m, inside, items[..i + 1]) == Then(before, See(before.0, inside, items[i]))
  {
    assert items[..i + 1][..i] == items[..i];
  }

  lemma ThenAssociates(a: (Memory, seq<Alert>), b: (Memory, seq<Alert>), c: (Memory, seq<Alert>))
    ensures Then(Then(a, b), c) == Then(a, Then(b, c))
  {
    assert a.1 + b.1 + c.1 == a.1 + (b.1 + c.1);
  }

  /** One stretch of the run after another. */
  function Then(first: (Memory, seq<Alert>), second: (Memory, seq<Alert>)): (Memory, seq<Alert>) {
    (second.0, first.1 + second.1)
  }
}

/** The alert engine as the client runs it: maps and a set changed in place while it walks each frame. */
module AlertEngines {
  import opened Domain
  import opened TrackerSpec
  import opened Wire
  import opened AlertSpec

  class AlertEngine {
    const insideFence: Fence
    var prevLink: map<RobotId, LinkStatus>
    var prevInside: map<RobotId, bool>
    var seenCmdTargets: set<string>
    var seqNo: nat

    function State(): Memory
      reads this
    {
      Memory(prevLink, prevInside, seenCmdTargets, seqNo)
    }

    constructor (insideFence: Fence)
      ensures State() == FRESH && this.insideFence == insideFence
    {
      this.insideFence := insideFence;
      prevLink, prevInside, seenCmdTargets, seqNo := map[], map[], {}, 0;
    }

    method Make(kind: Kind, severity: Severity, robot: RobotId, ts: int, message: Message) returns (a: Alert)
      modifies this
      ensures a == Alert(AlertId(old(seqNo)), kind, severity, ts, robot, message)
      ensures State() == old(State()).(nextId := old(seqNo) + 1)
    {
      a := Alert(AlertId(seqNo), kind, severity, ts, robot, message);
      seqNo := seqNo + 1;
    }

    method IngestLink(id: RobotId, cur: LinkStatus, now: int) returns (out: seq<Alert>)
      modifies this
      ensures (State(), out) == SeeLink(old(State()), id, cur, now)
    {
      out := [];
      if id in prevLink && prevLink[id] != cur {
        var prev := prevLink[id];
        if cur == LinkLive && (prev == LinkStale || prev == LinkLost) {
          var a := Make(LinkAlert, Info, id, now, Recovered);
          out := [a];
        } else if cur == LinkStale {
          var a := Make(LinkAlert, Warn, id, now, WentStale);
          out := [a];
        } else if cur == LinkLost {
          var a := Make(LinkAlert, Critical, id, now, WentLost);
          out := [a];
        }
      }
      prevLink := prevLink[id := cur];
    }

    method IngestFence(r: RobotState, now: int) returns (out: seq<Alert>)
      modifies this
      ensures (State(), out) == SeeFence(old(State()), insideFence, r, now)
    {
      out := [];
      if r.linkStatus == LinkLost { return; }
      var id := r.telemetry.robotId;
      var inside := insideFence(r.telemetry.x, r.telemetry.y);
      if id !in prevInside {
        if !inside {
          var a := Make(GeofenceAlert, Critical, id, now, FoundOutside);
          out := [a];
        }
      } else if prevInside[id] != inside {
        if inside {
          var a := Make(GeofenceAlert, Info, id, now, Reentered);
          out := [a];
        } else {
          var a := Make(GeofenceAlert, Critical, id, now, Breached);
          out := [a];
        }
      }
      prevInside := prevInside[id := inside];
    }

    method IngestTarget(commandId: CommandId, t: TargetStatus, now: int) returns (out: seq<Alert>)
      modifies this
      ensures (State(), out) == SeeTarget(old(State()), commandId, t, now)
    {
      out := [];
      if !IsFailure(t.state) { return; }
      var key := Key(commandId, t.robotId);
      if key in seenCmdTargets { return; }
      seenCmdTargets := seenCmdTargets + {key};
      var a := Make(CommandAlert, Warn, t.robotId, now, CommandFailed(t.state, t.detail));
      out := [a];
    }

    method IngestRobot(r: RobotState, now: int) returns (out: seq<Alert>)
      modifies this
      ensures (State(), out) == See(old(State()), insideFence, RobotSeen(r, now))
    {
      var link := IngestLink(r.telemetry.robotId, r.linkStatus, now);
      var fence := IngestFence(r, now);
      out := link + fence;
    }

    method IngestRobots(robots: seq<RobotState>, now: int) returns (out: seq<Alert>)
      modifies this
      ensures (State(), out) == SeeAll(old(State()), insideFence, RobotItems(robots, now))
    {
      out := [];
      ghost var m, items := State(), RobotItems(robots, now);
      for i := 0 to |robots|
        invariant (State(), out) == SeeAll(m, insideFence, items[..i])
      {
        SeeAllUpTo(m, insideFence, items, i);
        var a := IngestRobot(robots[i], now);
        out := out + a;
      }
      assert items[..|robots|] == items;
    }

    method IngestTargets(id: CommandId, ts: seq<TargetStatus>, now: int) returns (out: seq<Alert>)
      modifies this
      ensures (State(), out) == SeeAll(old(State()), insideFence, TargetItems(id, ts, now))
    {
      out := [];
      ghost var m, items := State(), TargetItems(id, ts, now);
      for i := 0 to |ts|
        invariant (State(), out) == SeeAll(m, insideFence, items[..i])
      {
        SeeAllUpTo(m, insideFence, items, i);
        var a := IngestTarget(id, ts[i], now);
        out := out + a;
      }
      assert items[..|ts|] == items;
    }

    method IngestCommands(cs: seq<CommandStatus>, now: int) returns (out: seq<Alert>)
      modifies this
      ensures (State(), out) == SeeAll(old(State()), insideFence, CommandItems(cs, now))
    {
      out := [];
      for i := 0 to |cs|
        invariant (State(), out) == SeeAll(old(State()), insideFence, CommandItems(cs[..i], now))
      {
        ghost var before := CommandItems(cs[..i], now);
        var a := IngestTargets(cs[i].commandId, cs[i].targets, now);
        assert cs[..i + 1][..i] == cs[..i];
        SeeAllAppend(old(State()), insideFence, before, TargetItems(cs[i].commandId, cs[i].targets, now));
        out := out + a;
      }
      assert cs[..|cs|] == cs;
    }

    /** The new alerts one frame produces: robots first, then command targets, each in the frame's order. */
    method Ingest(frame: SwarmState, now: int) returns (out: seq<Alert>)
      modifies this
      ensures (State(), out) == SeeAll(old(State()), insideFence, ItemsOf(frame, now))
    {
      var robots := IngestRobots(frame.robots, now);
      var commands := IngestCommands(frame.commands, now);
      SeeAllAppend(old(State()), insideFence, RobotItems(frame.robots, now), CommandItems(frame.commands, now));
      out := robots + commands;
    }
  }
}
