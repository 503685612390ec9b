/**
 The client's fake simulator. It has no links: it walks every command through its lifecycle by counting ticks, applies
 the parameters itself, and drops a finished command after a number of ticks.
 */
module FakeSource {
  import opened Domain
  import opened Motion
  import opened TrackerSpec
  import opened Wire

  const DT: Time := 200000000
  const RETAIN_TICKS := 40

  /** One target of a command: ticksToNext ticks are left until its next change of state. */
  datatype Progress = Progress(
    robotId: RobotId, state: CommandState, detail: string, ticksToNext: int, pending: Option<SetParameters>)

  /** retire ticks are left, once every target is settled, until the command is dropped. */
  datatype FakeCommand = FakeCommand(commandId: CommandId, targets: seq<Progress>, retire: int)

  /** A command's parameters applied to one robot, at a time counted from the simulator's start. */
  datatype Application = Application(robotId: RobotId, command: Motion.Command)

  const NO_PARAMETERS := SetParameters(None, None, None, None, None)

  // ---- one tick -------------------------------------------------------------

  predicate Moving(t: Progress) { t.state == Pending || t.state == Sent }

  predicate Applies(t: Progress) { t.state == Sent && t.ticksToNext <= 1 }

  function TickTarget(t: Progress): Progress {
    if !Moving(t) then t
    else if t.ticksToNext > 1 then t.(ticksToNext := t.ticksToNext - 1)
    else if t.state == Pending then t.(state := Sent, ticksToNext := 2)
    else t.(state := Applied, ticksToNext := t.ticksToNext - 1)
  }

  function TickTargets(ts: seq<Progress>): (r: seq<Progress>)
    ensures |r| == |ts| && forall i | 0 <= i < |ts| :: r[i] == TickTarget(ts[i])
  {
    seq(|ts|, i requires 0 <= i < |ts| => TickTarget(ts[i]))
  }

  predicate Settled(ts: seq<Progress>) { forall i | 0 <= i < |ts| :: !Moving(ts[i]) }

  function TickCommand(c: FakeCommand): FakeCommand {
    var ts := TickTargets(c.targets);
    FakeCommand(c.commandId, ts, if Settled(ts) then c.retire - 1 else c.retire)
  }

  function TickCommands(cs: seq<FakeCommand>): (r: seq<FakeCommand>)
    ensures |r| == |cs| && forall i | 0 <= i < |cs| :: r[i] == TickCommand(cs[i])
  {
    seq(|cs|, i requires 0 <= i < |cs| => TickCommand(cs[i]))
  }

  function Kept(cs: seq<FakeCommand>): seq<FakeCommand> {
    if cs == [] then []
    else Kept(cs[..|cs| - 1]) + if cs[|cs| - 1].retire > 0 then [cs[|cs| - 1]] else []
  }

  /** What a tick applies: the parameters of each target about to become APPLIED, in order. */
  function Due(ts: seq<Progress>, at: Time): seq<Application> {
    if ts == [] then [] else Due(ts[..|ts| - 1], at) + DueOf(ts[|ts| - 1], at)
  }

  function DueOf(t: Progress, at: Time): seq<Application> {
    if Applies(t) then [Application(t.robotId, Motion.Command(Or(t.pending, NO_PARAMETERS), at))] else []
  }

  function DueIn(cs: seq<FakeCommand>, at: Time): seq<Application> {
    if cs == [] then [] else DueIn(cs[..|cs| - 1], at) + Due(cs[|cs| - 1].targets, at)
  }

  type Fleet = map<RobotId, FakeRobot>

  predicate Turning(fleet: Fleet) { forall id | id in fleet :: fleet[id].radius != 0.0 }

  function ApplyOne(fleet: Fleet, a: Application): (r: Fleet)
    requires Turning(fleet)
    ensures Turning(r) && r.Keys == fleet.Keys
  {
    if a.robotId in fleet
    then fleet[a.robotId := FakeApply(fleet[a.robotId], a.command.params, Seconds(a.command.at))] else fleet
  }

  function ApplyInOrder(fleet: Fleet, log: seq<Application>): (r: Fleet)
    requires Turning(fleet)
    ensures Turning(r) && r.Keys == fleet.Keys
  {
    if log == [] then fleet else ApplyOne(ApplyInOrder(fleet, log[..|log| - 1]), log[|log| - 1])
  }

  /** A target no robot has, or whose robot is frozen, is offline at once; any other waits for the next tick. */
  function IssueTarget(robot: RobotId, params: SetParameters, known: set<RobotId>, frozen: set<RobotId>): Progress {
    if robot !in known then Progress(robot, RobotOffline, "unknown robot", 0, None)
    else if robot in frozen then Progress(robot, RobotOffline, "link lost", 0, None)
    else Progress(robot, Pending, "", 1, Some(params))
  }

  function IssueTargets(robots: seq<RobotId>, params: SetParameters, known: set<RobotId>, frozen: set<RobotId>)
    : (r: seq<Progress>)
    ensures |r| == |robots| && forall i | 0 <= i < |r| :: r[i] == IssueTarget(robots[i], params, known, frozen)
  {
    seq(|robots|, i requires 0 <= i < |robots| => IssueTarget(robots[i], params, known, frozen))
  }

  // ---- the simulator --------------------------------------------------------

  class FakeSource {
    const frozen: set<RobotId>
    var robots: Fleet
    var commands: seq<FakeCommand>
    var elapsed: Time

    ghost predicate Valid()
      reads this
    {
      Turning(robots)
    }

    constructor (robots: Fleet, frozen: set<RobotId>)
      requires Turning(robots)
      ensures Valid() && this.robots == robots && this.frozen == frozen && commands == [] && elapsed == 0
    {
      this.robots, this.frozen, commands, elapsed := robots, frozen, [], 0;
    }

    method Tick()
      requires Valid()
      modifies this
      ensures Valid() && elapsed == old(elapsed) + DT
      ensures commands == Kept(TickCommands(old(commands)))
      ensures robots == ApplyInOrder(old(robots), DueIn(old(commands), elapsed))
    {
      elapsed := elapsed + DT;
      AdvanceCommands();
    }

    method AdvanceCommands()
      requires Valid()
      modifies `robots, `commands
      ensures Valid() && commands == Kept(TickCommands(old(commands)))
      ensures robots == ApplyInOrder(old(robots), DueIn(old(commands), elapsed))
    {
      hide Due, ApplyOne, TickTarget, Settled;
      ghost var was := commands;
      var advanced: seq<FakeCommand> := [];
      for i := 0 to |commands|
        invariant commands == was && Valid() && advanced == TickCommands(was)[..i]
        invariant robots == ApplyInOrder(old(robots), DueIn(was[..i], elapsed))
      {
        assert was[..i + 1][..i] == was[..i];
        var c := commands[i];
        ApplyMore(old(robots), DueIn(was[..i], elapsed), Due(c.targets, elapsed));
        var targets, settled := AdvanceTargets(c.targets);
        advanced := advanced + [FakeCommand(c.commandId, targets, if settled then c.retire - 1 else c.retire)];
      }
      assert was[..|was|] == was && advanced == TickCommands(was);
      commands := KeepUnretired(advanced);
    }

    method AdvanceTargets(ts: seq<Progress>) returns (out: seq<Progress>, settled: bool)
      requires Valid()
      modifies `robots
      ensures Valid() && out == TickTargets(ts) && (settled <==> Settled(out))
      ensures robots == ApplyInOrder(old(robots), Due(ts, elapsed))
    {
      hide Due, ApplyInOrder;
      assert Due(ts[..0], elapsed) == [] && ApplyInOrder(robots, []) == robots by { NothingDue(robots, ts, elapsed); }
      out, settled := [], true;
      for i := 0 to |ts|
        invariant Valid() && out == TickTargets(ts)[..i] && (settled <==> Settled(out))
        invariant robots == ApplyInOrder(old(robots), Due(ts[..i], elapsed))
      {
        DueNext(ts, i, elapsed);
        ApplyMore(old(robots), Due(ts[..i], elapsed), DueOf(ts[i], elapsed));
        ApplyShort(robots, ts[i], elapsed);
        var t := ts[i];
        if t.state == Pending || t.state == Sent {
          t := t.(ticksToNext := t.ticksToNext - 1);
          if t.ticksToNext <= 0 {
            if t.state == Pending {
              t := t.(state := Sent, ticksToNext := 2);
            } else {
              t := t.(state := Applied);
              ApplyTo(t.robotId, Or(t.pending, NO_PARAMETERS));
            }
          }
        }
        ghost var before := out;
        out := out + [t];
        assert Settled(out) <==> Settled(before) && !Moving(t) by { SettledNext(before, t); }
        settled := settled && !(t.state == Pending || t.state == Sent);
      }
      assert ts[..|ts|] == ts;
    }

    method ApplyTo(robot: RobotId, params: SetParameters)
      requires Valid()
      modifies `robots
      ensures Valid() && robots == ApplyOne(old(robots), Application(robot, Motion.Command(params, elapsed)))
    {
      if robot in robots {
        robots := robots[robot := FakeApply(robots[robot], params, Seconds(elapsed))];
      }
    }

    method SendCommand(commandId: CommandId, targets: seq<RobotId>, params: SetParameters)
      modifies `commands
      ensures commands == old(commands)
        + [FakeCommand(commandId, IssueTargets(targets, params, robots.Keys, frozen), RETAIN_TICKS)]
    {
      var progress := [];
      for i := 0 to |targets|
        invariant progress == IssueTargets(targets, params, robots.Keys, frozen)[..i]
      {
        var t: Progress;
        if targets[i] !in robots {
          t := Progress(targets[i], RobotOffline, "unknown robot", 0, None);
        } else if targets[i] in frozen {
          t := Progress(targets[i], RobotOffline, "link lost", 0, None);
        } else {
          t := Progress(targets[i], Pending, "", 1, Some(params));
        }
        progress := progress + [t];
      }
      assert progress == IssueTargets(targets, params, robots.Keys, frozen);
      commands := commands + [FakeCommand(commandId, progress, RETAIN_TICKS)];
    }
  }

  method KeepUnretired(cs: seq<FakeCommand>) returns (kept: seq<FakeCommand>)
    ensures kept == Kept(cs)
  {
    kept := [];
    for i := 0 to |cs|
      invariant kept == Kept(cs[..i])
    {
      assert cs[..i + 1][..i] == cs[..i];
      if cs[i].retire > 0 { kept := kept + [cs[i]]; }
    }
    assert cs[..|cs|] == cs;
  }

  lemma {:induction false} SettledNext(ts: seq<Progress>, t: Progress)
    ensures Settled(ts + [t]) <==> Settled(ts) && !Moving(t)
  {
    if Settled(ts + [t]) {
      assert (ts + [t])[|ts|] == t && forall i | 0 <= i < |ts| :: (ts + [t])[i] == ts[i];
    }
  }

  lemma {:induction false} NothingDue(fleet: Fleet, ts: seq<Progress>, at: Time)
    requires Turning(fleet)
    ensures Due(ts[..0], at) == [] && ApplyInOrder(fleet, []) == fleet
  {
  }

  lemma {:induction false} DueNext(ts: seq<Progress>, i: nat, at: Time)
    requires i < |ts|
    ensures Due(ts[..i + 1], at) == Due(ts[..i], at) + DueOf(ts[i], at)
  {
    assert ts[..i + 1][..i] == ts[..i];
  }

  lemma {:induction false} ApplyShort(fleet: Fleet, t: Progress, at: Time)
    requires Turning(fleet)
    ensures ApplyInOrder(fleet, DueOf(t, at)) ==
      if Applies(t) then ApplyOne(fleet, Application(t.robotId, Motion.Command(Or(t.pending, NO_PARAMETERS), at)))
      else fleet
  {
    hide ApplyOne;
    if Applies(t) {
      var log := DueOf(t, at);
      assert log[..0] == [] && |log| == 1;
    }
  }

  lemma {:induction false} ApplyMore(fleet: Fleet, a: seq<Application>, b: seq<Application>)
    requires Turning(fleet)
    ensures ApplyInOrder(fleet, a + b) == ApplyInOrder(ApplyInOrder(fleet, a), b)
    decreases |b|
  {
    if b == [] {
      assert a + b == a;
    } else {
      assert (a + b)[..|a + b| - 1] == a + b[..|b| - 1];
      ApplyMore(fleet, a, b[..|b| - 1]);
    }
  }

  // ---- runs -----------------------------------------------------------------

  datatype FakeEvent = Issue(commandId: CommandId, targets: seq<RobotId>, params: SetParameters) | TickPasses

  /** The simulator's fields, and the log of everything it has applied. */
  datatype Sim = Sim(robots: Fleet, commands: seq<FakeCommand>, elapsed: Time, log: seq<Application>)

  function SimNext(s: Sim, frozen: set<RobotId>, e: FakeEvent): (r: Sim)
    requires Turning(s.robots)
    ensures Turning(r.robots) && r.robots.Keys == s.robots.Keys
  {
    match e
    case Issue(id, targets, params) =>
      s.(commands := s.commands + [FakeCommand(id, IssueTargets(targets, params, s.robots.Keys, frozen), RETAIN_TICKS)])
    case TickPasses =>
      var due := DueIn(s.commands, s.elapsed + DT);
      Sim(ApplyInOrder(s.robots, due), Kept(TickCommands(s.commands)), s.elapsed + DT, s.log + due)
  }

  function SimRun(fleet: Fleet, frozen: set<RobotId>, es: seq<FakeEvent>): (r: Sim)
    requires Turning(fleet)
    ensures Turning(r.robots) && r.robots.Keys == fleet.Keys
  {
    if es == [] then Sim(fleet, [], 0, [])
    else SimNext(SimRun(fleet, frozen, es[..|es| - 1]), frozen, es[|es| - 1])
  }

  // ---- the same run by the age of each command ------------------------------

  /** A command as it was issued, when that was, and how many ticks have passed since. */
  datatype Aged = Aged(command: FakeCommand, at: Time, age: nat)

  function Older(xs: seq<Aged>): (r: seq<Aged>)
    ensures |r| == |xs| && forall i | 0 <= i < |xs| :: r[i] == xs[i].(age := xs[i].age + 1)
  {
    seq(|xs|, i requires 0 <= i < |xs| => xs[i].(age := xs[i].age + 1))
  }

  function Elapsed(es: seq<FakeEvent>): Time {
    if es == [] then 0 else Elapsed(es[..|es| - 1]) + if es[|es| - 1].TickPasses? then DT else 0
  }

  /** Everything issued during the run, oldest first. */
  function Issues(known: set<RobotId>, frozen: set<RobotId>, es: seq<FakeEvent>): seq<Aged> {
    if es == [] then []
    else
      var before := Issues(known, frozen, es[..|es| - 1]);
      match es[|es| - 1]
      case Issue(id, targets, params) =>
        before + [Aged(FakeCommand(id, IssueTargets(targets, params, known, frozen), RETAIN_TICKS),
                       Elapsed(es[..|es| - 1]), 0)]
      case TickPasses => Older(before)
  }

  /** PENDING when issued, SENT from the first tick, APPLIED from the third. */
  function TargetAt(t: Progress, age: nat): Progress {
    if !Moving(t) || age == 0 then t
    else if age == 1 then t.(state := Sent, ticksToNext := 2)
    else if age == 2 then t.(state := Sent, ticksToNext := 1)
    else t.(state := Applied, ticksToNext := 0)
  }

  function TargetsAt(ts: seq<Progress>, age: nat): (r: seq<Progress>)
    ensures |r| == |ts| && forall i | 0 <= i < |ts| :: r[i] == TargetAt(ts[i], age)
  {
    seq(|ts|, i requires 0 <= i < |ts| => TargetAt(ts[i], age))
  }

  /** How many ticks after it is issued a command stays listed. */
  function Lifetime(c: FakeCommand): nat {
    if Settled(c.targets) then RETAIN_TICKS else RETAIN_TICKS + 2
  }

  function CommandAt(c: FakeCommand, age: nat): FakeCommand {
    FakeCommand(c.commandId, TargetsAt(c.targets, age),
                if Settled(c.targets) || age >= 3 then Lifetime(c) - age else RETAIN_TICKS)
  }

  /** The commands young enough to be listed, in the order they were issued. */
  function Listing(xs: seq<Aged>): seq<FakeCommand> {
    if xs == [] then []
    else
      var x := xs[|xs| - 1];
      Listing(xs[..|xs| - 1]) + if x.age < Lifetime(x.command) then [CommandAt(x.command, x.age)] else []
  }

  /** The applications a command calls for: its parameters, once to each target that was not offline, in order. */
  function Uses(ts: seq<Progress>, at: Time): seq<Application> {
    if ts == [] then []
    else
      var t := ts[|ts| - 1];
      Uses(ts[..|ts| - 1], at)
      + if Moving(t) then [Application(t.robotId, Motion.Command(Or(t.pending, NO_PARAMETERS), at))] else []
  }

  function UsesIn(xs: seq<Aged>): seq<Application> {
    if xs == [] then []
    else
      var x := xs[|xs| - 1];
      UsesIn(xs[..|xs| - 1]) + if x.age >= 3 then Uses(x.command.targets, x.at + 3 * DT) else []
  }

  /** Just issued: each target offline, or PENDING with one tick to go. */
  ghost predicate Newborn(c: FakeCommand) {
    && c.retire == RETAIN_TICKS
    && forall i | 0 <= i < |c.targets| && Moving(c.targets[i]) ::
         c.targets[i].state == Pending && c.targets[i].ticksToNext == 1
  }

  /** Ages never increase along the list, and the age counts the ticks since the command was issued. */
  ghost predicate AgesOk(xs: seq<Aged>, elapsed: Time) {
    && (forall i | 0 <= i < |xs| :: Newborn(xs[i].command) && elapsed == xs[i].at + xs[i].age * DT)
    && forall i, j | 0 <= i < j < |xs| :: xs[j].age <= xs[i].age
  }

  lemma {:induction false} AgeOneTick(c: FakeCommand, age: nat)
    requires Newborn(c)
    ensures TickCommand(CommandAt(c, age)) == CommandAt(c, age + 1)
    ensures CommandAt(c, age).retire > 0 <==> age < Lifetime(c)
  {
    var ts := CommandAt(c, age).targets;
    assert TickTargets(ts) == TargetsAt(c.targets, age + 1);
    if !Settled(c.targets) {
      var i :| 0 <= i < |c.targets| && Moving(c.targets[i]);
      assert Moving(TargetsAt(c.targets, age + 1)[i]) <==> age + 1 < 3;
    }
  }

  lemma {:induction false} DueAtAge(ts: seq<Progress>, age: nat, at: Time)
    requires forall i | 0 <= i < |ts| && Moving(ts[i]) :: ts[i].state == Pending && ts[i].ticksToNext == 1
    ensures Due(TargetsAt(ts, age), at) == if age == 2 then Uses(ts, at) else []
    decreases |ts|
  {
    if ts != [] {
      var n := |ts| - 1;
      assert TargetsAt(ts, age)[..n] == TargetsAt(ts[..n], age);
      DueAtAge(ts[..n], age, at);
    }
  }

  lemma {:induction false} KeptAppend(cs: seq<FakeCommand>, c: FakeCommand)
    ensures Kept(cs + [c]) == Kept(cs) + if c.retire > 0 then [c] else []
  {
    assert (cs + [c])[..|cs|] == cs;
  }

  lemma {:induction false} DueInAppend(cs: seq<FakeCommand>, c: FakeCommand, at: Time)
    ensures DueIn(cs + [c], at) == DueIn(cs, at) + Due(c.targets, at)
  {
    assert (cs + [c])[..|cs|] == cs;
  }

  lemma {:induction false} ListingTicks(xs: seq<Aged>)
    requires forall i | 0 <= i < |xs| :: Newborn(xs[i].command)
    ensures Kept(TickCommands(Listing(xs))) == Listing(Older(xs))
    decreases |xs|
  {
    hide TickCommand, CommandAt, Newborn;
    if xs != [] {
      var n := |xs| - 1;
      var x, cs := xs[n], Listing(xs[..n]);
      assert Older(xs)[..n] == Older(xs[..n]);
      ListingTicks(xs[..n]);
      AgeOneTick(x.command, x.age);
      AgeOneTick(x.command, x.age + 1);
      if x.age < Lifetime(x.command) {
        var c := TickCommand(CommandAt(x.command, x.age));
        assert TickCommands(cs + [CommandAt(x.command, x.age)]) == TickCommands(cs) + [c];
        KeptAppend(TickCommands(cs), c);
      } else {
        assert Listing(xs) == cs;
      }
    }
  }

  /** A command that is no longer listed, or was applied already, has nothing due. */
  lemma {:induction false} DueOfLast(xs: seq<Aged>, at: Time)
    requires xs != [] && Newborn(xs[|xs| - 1].command)
    ensures var x := xs[|xs| - 1];
      DueIn(Listing(xs), at) == DueIn(Listing(xs[..|xs| - 1]), at) + if x.age == 2 then Uses(x.command.targets, at) else []
  {
    hide Due, Uses, DueIn;
    var x, cs := xs[|xs| - 1], Listing(xs[..|xs| - 1]);
    DueAtAge(x.command.targets, x.age, at);
    if x.age < Lifetime(x.command) {
      DueInAppend(cs, CommandAt(x.command, x.age), at);
    } else {
      assert Listing(xs) == cs + [] == cs;
    }
  }

  lemma {:induction false} NothingOldIsDue(xs: seq<Aged>, at: Time)
    requires forall i | 0 <= i < |xs| :: Newborn(xs[i].command) && xs[i].age >= 3
    ensures DueIn(Listing(xs), at) == []
    decreases |xs|
  {
    hide Listing, Newborn, Uses;
    if xs == [] {
      EmptyListing();
    } else {
      NothingOldIsDue(xs[..|xs| - 1], at);
      DueOfLast(xs, at);
    }
  }

  lemma {:induction false} UsesOfLast(xs: seq<Aged>)
    requires xs != []
    ensures var pre, x := xs[..|xs| - 1], xs[|xs| - 1];
      var uses := Uses(x.command.targets, x.at + 3 * DT);
      && UsesIn(xs) == UsesIn(pre) + (if x.age >= 3 then uses else [])
      && UsesIn(Older(xs)) == UsesIn(Older(pre)) + if x.age >= 2 then uses else []
  {
    hide Uses;
    assert Older(xs)[..|xs| - 1] == Older(xs[..|xs| - 1]);
  }

  lemma {:induction false} DueOfListing(xs: seq<Aged>, elapsed: Time)
    requires AgesOk(xs, elapsed)
    ensures UsesIn(Older(xs)) == UsesIn(xs) + DueIn(Listing(xs), elapsed + DT)
    decreases |xs|
  {
    hide Listing, Newborn, Uses, UsesIn, DueIn;
    if xs == [] {
      NothingOldIsDue(xs, elapsed + DT);
    } else {
      var n, at := |xs| - 1, elapsed + DT;
      var x, pre := xs[n], xs[..n];
      DueOfListing(pre, elapsed);
      DueOfLast(xs, at);
      UsesOfLast(xs);
      var past, due, uses := UsesIn(pre), DueIn(Listing(pre), at), Uses(x.command.targets, x.at + 3 * DT);
      if x.age >= 3 {
        NothingOldIsDue(pre, at);
        assert (past + []) + uses == (past + uses) + [];
      } else if x.age == 2 {
        assert x.at + 3 * DT == at;
        assert (past + due) + uses == past + [] + (due + uses);
      } else {
        assert (past + due) + [] == past + [] + (due + []);
      }
    }
  }

  lemma {:induction false} IssuesAreAged(known: set<RobotId>, frozen: set<RobotId>, es: seq<FakeEvent>)
    ensures AgesOk(Issues(known, frozen, es), Elapsed(es))
    decreases |es|
  {
    if es != [] {
      IssuesAreAged(known, frozen, es[..|es| - 1]);
    }
  }

  /**
   For any run of commands and ticks: a command is listed for exactly its lifetime, each of its targets PENDING, SENT
   from the first tick and APPLIED from the third unless offline at issue; and the parameters have been applied exactly
   once to each target that was not offline, three ticks after the command was issued, in the order of issue.
   */
  lemma {:induction false} FakeRunByAge(fleet: Fleet, frozen: set<RobotId>, es: seq<FakeEvent>)
    requires Turning(fleet)
    ensures var s, xs := SimRun(fleet, frozen, es), Issues(fleet.Keys, frozen, es);
      s.commands == Listing(xs) && s.log == UsesIn(xs) && s.elapsed == Elapsed(es)
    decreases |es|
  {
    hide Listing, UsesIn, Kept, DueIn, ApplyInOrder, AgesOk;
    if es == [] {
      assert Listing([]) == [] && UsesIn([]) == [] by { EmptyListing(); }
    } else {
      var pre := es[..|es| - 1];
      var xs := Issues(fleet.Keys, frozen, pre);
      FakeRunByAge(fleet, frozen, pre);
      IssuesAreAged(fleet.Keys, frozen, pre);
      match es[|es| - 1] {
        case Issue(id, targets, params) =>
          var c := FakeCommand(id, IssueTargets(targets, params, fleet.Keys, frozen), RETAIN_TICKS);
          ListingIssue(xs, c, Elapsed(pre));
        case TickPasses =>
          AgesNewborn(xs, Elapsed(pre));
          ListingTicks(xs);
          DueOfListing(xs, Elapsed(pre));
      }
    }
  }

  lemma {:induction false} EmptyListing()
    ensures Listing([]) == [] && UsesIn([]) == []
  {
  }

  lemma {:induction false} AgesNewborn(xs: seq<Aged>, elapsed: Time)
    requires AgesOk(xs, elapsed)
    ensures forall i | 0 <= i < |xs| :: Newborn(xs[i].command)
  {
  }

  lemma {:induction false} ListingIssue(xs: seq<Aged>, c: FakeCommand, at: Time)
    requires c.retire == RETAIN_TICKS
    ensures Listing(xs + [Aged(c, at, 0)]) == Listing(xs) + [c] && UsesIn(xs + [Aged(c, at, 0)]) == UsesIn(xs)
  {
    assert (xs + [Aged(c, at, 0)])[..|xs|] == xs;
    assert TargetsAt(c.targets, 0) == c.targets;
    assert CommandAt(c, 0) == c;
  }

  // ---- the motion of each robot ---------------------------------------------

  /** The commands of a log applied to one robot. */
  function AppliedTo(log: seq<Application>, id: RobotId): seq<Motion.Command> {
    if log == [] then []
    else AppliedTo(log[..|log| - 1], id) + if log[|log| - 1].robotId == id then [log[|log| - 1].command] else []
  }

  lemma {:induction false} LogDrivesEach(fleet: Fleet, log: seq<Application>, id: RobotId)
    requires Turning(fleet) && id in fleet
    ensures ApplyInOrder(fleet, log)[id] == FakeDrive(fleet[id], AppliedTo(log, id), 0)
    decreases |log|
  {
    hide FakeApply, FakeDrive;
    if log == [] {
      assert FakeDrive(fleet[id], [], 0) == fleet[id] by { DriveNone(fleet[id]); }
    } else {
      var n := |log| - 1;
      LogDrivesEach(fleet, log[..n], id);
      if log[n].robotId == id {
        DriveNext(fleet[id], AppliedTo(log[..n], id), log[n].command);
      } else {
        assert AppliedTo(log, id) == AppliedTo(log[..n], id);
      }
    }
  }

  lemma {:induction false} DriveNone(f: FakeRobot)
    requires f.radius != 0.0
    ensures FakeDrive(f, [], 0) == f
  {
  }

  lemma {:induction false} DriveNext(f: FakeRobot, cs: seq<Motion.Command>, c: Motion.Command)
    requires f.radius != 0.0
    ensures FakeDrive(f, cs + [c], 0) == FakeApply(FakeDrive(f, cs, 0), c.params, Seconds(c.at))
  {
    hide FakeApply;
    assert (cs + [c])[..|cs|] == cs;
    assert c.at - 0 == c.at;
  }

  lemma {:induction false} RobotsFollowLog(fleet: Fleet, frozen: set<RobotId>, es: seq<FakeEvent>)
    requires Turning(fleet)
    ensures var s := SimRun(fleet, frozen, es); s.robots == ApplyInOrder(fleet, s.log)
    decreases |es|
  {
    hide ApplyInOrder, DueIn, Kept, TickCommands;
    if es == [] {
      assert ApplyInOrder(fleet, []) == fleet by { NothingDue(fleet, [], 0); }
    } else {
      var before := SimRun(fleet, frozen, es[..|es| - 1]);
      RobotsFollowLog(fleet, frozen, es[..|es| - 1]);
      if es[|es| - 1].TickPasses? {
        ApplyMore(fleet, before.log, DueIn(before.commands, before.elapsed + DT));
      }
    }
  }

  /** The angle the simulator shows: a frozen robot holds still at its own theta0. */
  function ShownPhase(fleet: Fleet, frozen: set<RobotId>, id: RobotId, elapsed: Time): real
    requires Turning(fleet) && id in fleet
  {
    if id in frozen then fleet[id].theta0 else FakePhase(fleet[id], Seconds(elapsed))
  }

  /** No command issued ever calls for anything from a frozen robot. */
  ghost predicate NeverFor(log: seq<Application>, id: RobotId) {
    forall a | a in log :: a.robotId != id
  }

  lemma {:induction false} UsesSkipFrozen(ts: seq<Progress>, at: Time, id: RobotId)
    requires forall i | 0 <= i < |ts| && ts[i].robotId == id :: !Moving(ts[i])
    ensures NeverFor(Uses(ts, at), id)
    decreases |ts|
  {
    if ts != [] { UsesSkipFrozen(ts[..|ts| - 1], at, id); }
  }

  lemma {:induction false} IssuesSkipFrozen(known: set<RobotId>, frozen: set<RobotId>, es: seq<FakeEvent>, id: RobotId)
    requires id in frozen
    ensures forall x | x in Issues(known, frozen, es) ::
      forall i | 0 <= i < |x.command.targets| && x.command.targets[i].robotId == id :: !Moving(x.command.targets[i])
    decreases |es|
  {
    if es != [] { IssuesSkipFrozen(known, frozen, es[..|es| - 1], id); }
  }

  lemma {:induction false} UsesInSkipFrozen(xs: seq<Aged>, id: RobotId)
    requires forall x | x in xs ::
      forall i | 0 <= i < |x.command.targets| && x.command.targets[i].robotId == id :: !Moving(x.command.targets[i])
    ensures NeverFor(UsesIn(xs), id)
    decreases |xs|
  {
    hide Uses;
    if xs != [] {
      var x := xs[|xs| - 1];
      UsesInSkipFrozen(xs[..|xs| - 1], id);
      assert x in xs;
      UsesSkipFrozen(x.command.targets, x.at + 3 * DT, id);
    }
  }

  lemma {:induction false} UntouchedBy(fleet: Fleet, log: seq<Application>, id: RobotId)
    requires Turning(fleet) && id in fleet && NeverFor(log, id)
    ensures ApplyInOrder(fleet, log)[id] == fleet[id]
    decreases |log|
  {
    hide FakeApply;
    if log != [] {
      assert log[|log| - 1] in log;
      UntouchedBy(fleet, log[..|log| - 1], id);
    }
  }

  /** A frozen robot is never touched: after any run it is the robot it was, and is shown where it always was. */
  lemma {:induction false} FrozenRobotsHoldStill(fleet: Fleet, frozen: set<RobotId>, es: seq<FakeEvent>, id: RobotId)
    requires Turning(fleet) && id in fleet && id in frozen
    ensures var s := SimRun(fleet, frozen, es);
      s.robots[id] == fleet[id] && ShownPhase(s.robots, frozen, id, s.elapsed) == fleet[id].theta0
  {
    hide Listing, UsesIn, Issues;
    FakeRunByAge(fleet, frozen, es);
    RobotsFollowLog(fleet, frozen, es);
    IssuesSkipFrozen(fleet.Keys, frozen, es, id);
    UsesInSkipFrozen(Issues(fleet.Keys, frozen, es), id);
    UntouchedBy(fleet, SimRun(fleet, frozen, es).log, id);
  }

  // ---- the run read straight off its events ---------------------------------

  function TicksIn(es: seq<FakeEvent>): nat {
    if es == [] then 0 else TicksIn(es[..|es| - 1]) + if es[|es| - 1].TickPasses? then 1 else 0
  }

  /** The robot takes commands: it exists and is not frozen. */
  predicate Takes(robot: RobotId, known: set<RobotId>, frozen: set<RobotId>) { robot in known && robot !in frozen }

  /** The command, once for each mention of a robot that takes commands, in order. */
  function CalledFor(targets: seq<RobotId>, c: Motion.Command, known: set<RobotId>,
      frozen: set<RobotId>): seq<Application> {
    if targets == [] then []
    else
      var robot := targets[|targets| - 1];
      CalledFor(targets[..|targets| - 1], c, known, frozen)
      + if Takes(robot, known, frozen) then [Application(robot, c)] else []
  }

  /** What the first n events call for once the clock has ticked total times: each command, three ticks after its issue. */
  function AllCalledFor(es: seq<FakeEvent>, n: nat, total: nat, known: set<RobotId>,
      frozen: set<RobotId>): seq<Application>
    requires n <= |es|
  {
    if n == 0 then []
    else
      AllCalledFor(es, n - 1, total, known, frozen) + match es[n - 1]
      case Issue(_, targets, params) =>
        var issued := TicksIn(es[..n - 1]);
        if total >= issued + 3
        then CalledFor(targets, Motion.Command(params, (issued + 3) * DT), known, frozen) else []
      case TickPasses => []
  }

  /** What a frame shows of a target: ROBOT_OFFLINE exactly if it takes no commands, else PENDING, SENT, then APPLIED. */
  function StatusAt(robot: RobotId, age: nat, known: set<RobotId>, frozen: set<RobotId>): TargetStatus {
    if robot !in known then TargetStatus(robot, RobotOffline, "unknown robot")
    else if robot in frozen then TargetStatus(robot, RobotOffline, "link lost")
    else TargetStatus(robot, if age == 0 then Pending else if age < 3 then Sent else Applied, "")
  }

  function StatusesAt(targets: seq<RobotId>, age: nat, known: set<RobotId>,
      frozen: set<RobotId>): (r: seq<TargetStatus>)
    ensures |r| == |targets| && forall i | 0 <= i < |r| :: r[i] == StatusAt(targets[i], age, known, frozen)
  {
    seq(|targets|, i requires 0 <= i < |targets| => StatusAt(targets[i], age, known, frozen))
  }

  /** A command stays listed for 40 ticks after its last target settles: at once if none takes commands, else at the third. */
  predicate StillListed(targets: seq<RobotId>, age: nat, known: set<RobotId>, frozen: set<RobotId>) {
    age < if exists i :: 0 <= i < |targets| && Takes(targets[i], known, frozen) then 42 else 40
  }

  function AllListed(es: seq<FakeEvent>, n: nat, total: nat, known: set<RobotId>,
      frozen: set<RobotId>): seq<CommandStatus>
    requires n <= |es| && TicksIn(es[..n]) <= total
  {
    if n == 0 then []
    else
      TicksGrow(es, n - 1);
      var issued := TicksIn(es[..n - 1]);
      AllListed(es, n - 1, total, known, frozen) + match es[n - 1]
      case Issue(id, targets, _) =>
        if StillListed(targets, total - issued, known, frozen)
        then [CommandStatus(id, StatusesAt(targets, total - issued, known, frozen))] else []
      case TickPasses => []
  }

  lemma {:induction false} TicksGrow(es: seq<FakeEvent>, n: nat)
    requires n < |es|
    ensures TicksIn(es[..n + 1]) == TicksIn(es[..n]) + if es[n].TickPasses? then 1 else 0
  {
    assert es[..n + 1][..n] == es[..n];
  }

  /** The commands as a frame carries them. */
  function FrameOf(cs: seq<FakeCommand>): (r: seq<CommandStatus>)
    ensures |r| == |cs|
    ensures forall i | 0 <= i < |cs| :: r[i] == CommandStatus(cs[i].commandId, StatusesOf(cs[i].targets))
  {
    seq(|cs|, i requires 0 <= i < |cs| => CommandStatus(cs[i].commandId, StatusesOf(cs[i].targets)))
  }

  function StatusesOf(ts: seq<Progress>): (r: seq<TargetStatus>)
    ensures |r| == |ts|
    ensures forall i | 0 <= i < |ts| :: r[i] == TargetStatus(ts[i].robotId, ts[i].state, ts[i].detail)
  {
    seq(|ts|, i requires 0 <= i < |ts| => TargetStatus(ts[i].robotId, ts[i].state, ts[i].detail))
  }

  /** The issues among the first n events, aged to the given number of ticks. */
  function IssuesAt(es: seq<FakeEvent>, n: nat, total: nat, known: set<RobotId>, frozen: set<RobotId>): seq<Aged>
    requires n <= |es| && TicksIn(es[..n]) <= total
  {
    if n == 0 then []
    else
      TicksGrow(es, n - 1);
      var issued := TicksIn(es[..n - 1]);
      IssuesAt(es, n - 1, total, known, frozen) + match es[n - 1]
      case Issue(id, targets, params) =>
        [Aged(FakeCommand(id, IssueTargets(targets, params, known, frozen), RETAIN_TICKS), issued * DT, total - issued)]
      case TickPasses => []
  }

  lemma {:induction false} IssuesAge(es: seq<FakeEvent>, n: nat, total: nat, known: set<RobotId>, frozen: set<RobotId>)
    requires n <= |es| && TicksIn(es[..n]) <= total
    ensures Older(IssuesAt(es, n, total, known, frozen)) == IssuesAt(es, n, total + 1, known, frozen)
  {
    if n > 0 {
      TicksGrow(es, n - 1);
      IssuesAge(es, n - 1, total, known, frozen);
    }
  }

  lemma {:induction false} IssuesOfPrefix(es: seq<FakeEvent>, n: nat, known: set<RobotId>, frozen: set<RobotId>)
    requires n <= |es|
    ensures Elapsed(es[..n]) == TicksIn(es[..n]) * DT
    ensures Issues(known, frozen, es[..n]) == IssuesAt(es, n, TicksIn(es[..n]), known, frozen)
  {
    if n > 0 {
      TicksGrow(es, n - 1);
      IssuesOfPrefix(es, n - 1, known, frozen);
      assert es[..n][..n - 1] == es[..n - 1];
      if es[n - 1].TickPasses? { IssuesAge(es, n - 1, TicksIn(es[..n - 1]), known, frozen); }
    }
  }

  lemma {:induction false} UsesAreCalledFor(targets: seq<RobotId>, params: SetParameters, at: Time, known: set<RobotId>,
                                            frozen: set<RobotId>)
    ensures Uses(IssueTargets(targets, params, known, frozen), at)
      == CalledFor(targets, Motion.Command(params, at), known, frozen)
    decreases |targets|
  {
    if targets != [] {
      var n := |targets| - 1;
      assert IssueTargets(targets, params, known, frozen)[..n] == IssueTargets(targets[..n], params, known, frozen);
      UsesAreCalledFor(targets[..n], params, at, known, frozen);
    }
  }

  lemma {:induction false} UsesInAppend(xs: seq<Aged>, x: Aged)
    ensures UsesIn(xs + [x]) == UsesIn(xs) + if x.age >= 3 then Uses(x.command.targets, x.at + 3 * DT) else []
  {
    assert (xs + [x])[..|xs|] == xs;
  }

  lemma {:induction false} UsesOfIssues(es: seq<FakeEvent>, n: nat, total: nat, known: set<RobotId>,
      frozen: set<RobotId>)
    requires n <= |es| && TicksIn(es[..n]) <= total
    ensures UsesIn(IssuesAt(es, n, total, known, frozen)) == AllCalledFor(es, n, total, known, frozen)
  {
    hide Uses, UsesIn, CalledFor, IssueTargets, TicksIn;
    if n == 0 {
      assert UsesIn([]) == [] by { EmptyListing(); }
    } else {
      TicksGrow(es, n - 1);
      UsesOfIssues(es, n - 1, total, known, frozen);
      var before := IssuesAt(es, n - 1, total, known, frozen);
      if es[n - 1].Issue? {
        var e, issued := es[n - 1], TicksIn(es[..n - 1]);
        var c := FakeCommand(e.commandId, IssueTargets(e.targets, e.params, known, frozen), RETAIN_TICKS);
        UsesInAppend(before, Aged(c, issued * DT, total - issued));
        UsesAreCalledFor(e.targets, e.params, (issued + 3) * DT, known, frozen);
      } else {
        assert IssuesAt(es, n, total, known, frozen) == before;
      }
    }
  }

  lemma {:induction false} CommandShows(id: CommandId, targets: seq<RobotId>, params: SetParameters, age: nat,
                                        known: set<RobotId>, frozen: set<RobotId>)
    ensures var c := FakeCommand(id, IssueTargets(targets, params, known, frozen), RETAIN_TICKS);
      && (age < Lifetime(c) <==> StillListed(targets, age, known, frozen))
      && StatusesOf(CommandAt(c, age).targets) == StatusesAt(targets, age, known, frozen)
  {
    var ts := IssueTargets(targets, params, known, frozen);
    assert forall i | 0 <= i < |ts| :: Moving(ts[i]) <==> Takes(targets[i], known, frozen);
  }

  lemma {:induction false} FrameAppend(cs: seq<FakeCommand>, c: FakeCommand)
    ensures FrameOf(cs + [c]) == FrameOf(cs) + [CommandStatus(c.commandId, StatusesOf(c.targets))]
  {
  }

  lemma {:induction false} ListingOfIssues(es: seq<FakeEvent>, n: nat, total: nat, known: set<RobotId>,
                                           frozen: set<RobotId>)
    requires n <= |es| && TicksIn(es[..n]) <= total
    ensures FrameOf(Listing(IssuesAt(es, n, total, known, frozen))) == AllListed(es, n, total, known, frozen)
  {
    hide FrameOf, StatusesOf, StatusesAt, StillListed, IssueTargets, Lifetime;
    if n == 0 {
      assert FrameOf([]) == [];
    } else {
      TicksGrow(es, n - 1);
      ListingOfIssues(es, n - 1, total, known, frozen);
      var xs, before := IssuesAt(es, n, total, known, frozen), IssuesAt(es, n - 1, total, known, frozen);
      if es[n - 1].Issue? {
        var e, age := es[n - 1], total - TicksIn(es[..n - 1]);
        var c := FakeCommand(e.commandId, IssueTargets(e.targets, e.params, known, frozen), RETAIN_TICKS);
        CommandShows(e.commandId, e.targets, e.params, age, known, frozen);
        assert xs[..|xs| - 1] == before;
        if age < Lifetime(c) {
          FrameAppend(Listing(before), CommandAt(c, age));
        } else {
          assert Listing(xs) == Listing(before);
        }
      } else {
        assert xs == before;
      }
    }
  }

  /**
   For any run of commands and ticks, read off the events alone: every command issued has been applied exactly once for
   each mention of a robot that takes commands, three ticks after its issue and in the order of issue, and nothing else
   has been applied; and every frame lists each command for its time, each target ROBOT_OFFLINE exactly if it takes no
   commands, else PENDING, SENT from the first tick and APPLIED from the third.
   */
  lemma {:induction false} FakeRunFromEvents(fleet: Fleet, frozen: set<RobotId>, es: seq<FakeEvent>)
    requires Turning(fleet)
    ensures var s := SimRun(fleet, frozen, es);
      && s.log == AllCalledFor(es, |es|, TicksIn(es), fleet.Keys, frozen)
      && TicksIn(es[..|es|]) <= TicksIn(es)
      && FrameOf(s.commands) == AllListed(es, |es|, TicksIn(es), fleet.Keys, frozen)
  {
    hide Listing, UsesIn, FrameOf, AllListed, AllCalledFor, IssuesAt, Issues;
    assert es[..|es|] == es;
    FakeRunByAge(fleet, frozen, es);
    IssuesOfPrefix(es, |es|, fleet.Keys, frozen);
    UsesOfIssues(es, |es|, TicksIn(es), fleet.Keys, frozen);
    ListingOfIssues(es, |es|, TicksIn(es), fleet.Keys, frozen);
  }

  // ---- what one robot receives ----------------------------------------------

  function Mentions(targets: seq<RobotId>, id: RobotId, c: Motion.Command): seq<Motion.Command> {
    if targets == [] then []
    else Mentions(targets[..|targets| - 1], id, c) + if targets[|targets| - 1] == id then [c] else []
  }

  /** The commands that mention the robot, once for each mention, each three ticks after its issue if that has passed. */
  function Received(es: seq<FakeEvent>, n: nat, total: nat, id: RobotId): seq<Motion.Command>
    requires n <= |es|
  {
    if n == 0 then []
    else
      Received(es, n - 1, total, id) + match es[n - 1]
      case Issue(_, targets, params) =>
        var issued := TicksIn(es[..n - 1]);
        if total >= issued + 3 then Mentions(targets, id, Motion.Command(params, (issued + 3) * DT)) else []
      case TickPasses => []
  }

  lemma {:induction false} AppliedAppend(a: seq<Application>, b: seq<Application>, id: RobotId)
    ensures AppliedTo(a + b, id) == AppliedTo(a, id) + AppliedTo(b, id)
    decreases |b|
  {
    if b == [] {
      assert a + b == a;
    } else {
      assert (a + b)[..|a + b| - 1] == a + b[..|b| - 1];
      AppliedAppend(a, b[..|b| - 1], id);
    }
  }

  lemma {:induction false} AppliedOfCalled(targets: seq<RobotId>, c: Motion.Command, known: set<RobotId>,
                                           frozen: set<RobotId>, id: RobotId)
    ensures AppliedTo(CalledFor(targets, c, known, frozen), id)
      == if Takes(id, known, frozen) then Mentions(targets, id, c) else []
    decreases |targets|
  {
    if targets != [] {
      var n := |targets| - 1;
      var before := CalledFor(targets[..n], c, known, frozen);
      AppliedOfCalled(targets[..n], c, known, frozen, id);
      if Takes(targets[n], known, frozen) {
        AppliedAppend(before, [Application(targets[n], c)], id);
        assert [Application(targets[n], c)][..0] == [];
      } else {
        assert CalledFor(targets, c, known, frozen) == before;
      }
    }
  }

  lemma {:induction false} AppliedIsReceived(es: seq<FakeEvent>, n: nat, total: nat, known: set<RobotId>,
                                             frozen: set<RobotId>, id: RobotId)
    requires n <= |es|
    ensures AppliedTo(AllCalledFor(es, n, total, known, frozen), id)
      == if Takes(id, known, frozen) then Received(es, n, total, id) else []
  {
    hide CalledFor, Mentions, AppliedTo, Takes;
    if n == 0 {
      assert AppliedTo([], id) == [] by { AppliedNone(id); }
    } else {
      AppliedIsReceived(es, n - 1, total, known, frozen, id);
      var before := AllCalledFor(es, n - 1, total, known, frozen);
      if es[n - 1].Issue? && total >= TicksIn(es[..n - 1]) + 3 {
        var c := Motion.Command(es[n - 1].params, (TicksIn(es[..n - 1]) + 3) * DT);
        AppliedAppend(before, CalledFor(es[n - 1].targets, c, known, frozen), id);
        AppliedOfCalled(es[n - 1].targets, c, known, frozen, id);
      } else {
        assert AllCalledFor(es, n, total, known, frozen) == before;
      }
    }
  }

  lemma {:induction false} AppliedNone(id: RobotId)
    ensures AppliedTo([], id) == []
  {
  }

  /**
   The fake fleet is faithful: each of its robots that is not frozen moves, and is shown, at every time, as a robot would
   that started on the same circle and received every command that mentions it three ticks after it was issued, provided
   none gives theta or a radius that is not positive.
   */
  lemma {:induction false} FakeRobotsMoveLikeRobots(fleet: Fleet, frozen: set<RobotId>, es: seq<FakeEvent>, id: RobotId,
                                                    m: MotionState)
    requires Turning(fleet) && id in fleet && id !in frozen && SameMotion(m, fleet[id], 0)
    requires var cs := Received(es, |es|, TicksIn(es), id);
      ThetaFree(cs) && forall i | 0 <= i < |cs| :: !Refused(cs[i].params)
    ensures var s := SimRun(fleet, frozen, es);
      var driven := Drive(m, Received(es, |es|, TicksIn(es), id));
      && SameMotion(driven, s.robots[id], 0)
      && ShownPhase(s.robots, frozen, id, s.elapsed) == Phase(driven, s.elapsed)
  {
    hide AllCalledFor, AllListed, Received, AppliedTo, FrameOf;
    var s, cs := SimRun(fleet, frozen, es), Received(es, |es|, TicksIn(es), id);
    FakeRunFromEvents(fleet, frozen, es);
    AppliedIsReceived(es, |es|, TicksIn(es), fleet.Keys, frozen, id);
    RobotsFollowLog(fleet, frozen, es);
    LogDrivesEach(fleet, s.log, id);
    FakeSimulatorAgrees(m, fleet[id], cs, 0);
    ShownAtItsPhase(s.robots, frozen, id, s.elapsed, Drive(m, cs));
  }

  lemma {:induction false} ShownAtItsPhase(fleet: Fleet, frozen: set<RobotId>, id: RobotId, elapsed: Time,
      m: MotionState)
    requires Turning(fleet) && id in fleet && id !in frozen && SameMotion(m, fleet[id], 0)
    ensures ShownPhase(fleet, frozen, id, elapsed) == Phase(m, elapsed)
  {
    hide FakePhase, Phase;
    assert FakePhase(fleet[id], Seconds(elapsed - 0)) == Phase(m, elapsed);
  }
}
