/** The command tracker as the server runs it: one map, changed in place, each method one critical region. */
module CommandTracking {
  import opened Domain
  import opened TrackerSpec
  import opened TrackerHistory

  /** The sequence lists each tracked command exactly once; its order is unspecified. */
  ghost predicate Lists(out: seq<TrackedCommand>, m: Commands) {
    && |out| == |m|
    && (forall i | 0 <= i < |out| :: out[i].commandId in m && out[i] == m[out[i].commandId])
    && (forall i, j | 0 <= i < j < |out| :: out[i].commandId != out[j].commandId)
    && forall id | id in m :: m[id] in out
  }

  lemma {:induction false} InitialNone(cmd: OperatorCommand, answers: seq<bool>)
    ensures InitialTargets(cmd.targets[..0], answers) == map[] && FanOut(cmd, cmd.targets[..0], answers) == []
  {
  }

  lemma {:induction false} FirstLostNext(targets: seq<RobotId>, answers: seq<bool>, i: nat, r: RobotId)
    requires i < |targets|
    ensures FirstLost(targets[..i + 1], answers, r) <==>
      if r in targets[..i] then FirstLost(targets[..i], answers, r) else r == targets[i] && LostAt(answers, i)
  {
    var pre, more := targets[..i], targets[..i + 1];
    assert more[i] == targets[i] && forall j | 0 <= j <= i :: more[..j] == targets[..j];
    assert forall j | 0 <= j < i :: more[j] == pre[j] && more[..j] == pre[..j];
  }

  /** One more target: the first mention of a robot gives it a state, every mention not called lost a command. */
  lemma {:induction false} InitialNext(cmd: OperatorCommand, i: nat, answers: seq<bool>)
    requires i < |cmd.targets|
    ensures var before, robot := InitialTargets(cmd.targets[..i], answers), cmd.targets[i];
      InitialTargets(cmd.targets[..i + 1], answers) ==
        if robot in before then before
        else before[robot := if LostAt(answers, i) then OFFLINE_AT_BIRTH else PENDING_AT_BIRTH]
    ensures FanOut(cmd, cmd.targets[..i + 1], answers) == FanOut(cmd, cmd.targets[..i], answers)
      + if LostAt(answers, i) then [] else [CommandFor(cmd, cmd.targets[i])]
  {
    hide FirstLost;
    assert cmd.targets[..i + 1][..i] == cmd.targets[..i];
    forall r ensures FirstLost(cmd.targets[..i + 1], answers, r) <==>
      if r in cmd.targets[..i] then FirstLost(cmd.targets[..i], answers, r) else r == cmd.targets[i] && LostAt(answers, i)
    {
      FirstLostNext(cmd.targets, answers, i, r);
    }
  }

  lemma {:induction false} BirthConsistent(cmd: OperatorCommand, answers: seq<bool>, now: Time)
    ensures Consistent(Birth(cmd, answers, now)) && Birth(cmd, answers, now).commandId == cmd.commandId
  {
  }

  class CommandTracker {
    const retention: Time
    var commands: Commands

    ghost predicate Valid()
      reads this
    {
      WellFormed(commands)
    }

    constructor (retention: Time)
      ensures Valid() && commands == map[] && this.retention == retention
    {
      this.retention := retention;
      commands := map[];
    }

    /** Fan one operator command out; answers are the watchdog's, one for each mention of a target. */
    method OnCommandSubmitted(cmd: OperatorCommand, answers: seq<bool>, now: Time)
      returns (toDispatch: seq<RobotCommand>)
      requires Valid()
      modifies this
      ensures Valid()
      ensures commands == Submit(old(commands), cmd, answers, now)
      ensures toDispatch == FanOut(cmd, cmd.targets, answers)
    {
      hide InitialTargets, FanOut, RefreshCompletion, Consistent;
      InitialNone(cmd, answers);
      var targets: map<RobotId, TargetState> := map[];
      toDispatch := [];
      for i := 0 to |cmd.targets|
        modifies {}
        invariant targets == InitialTargets(cmd.targets[..i], answers)
        invariant toDispatch == FanOut(cmd, cmd.targets[..i], answers)
      {
        var robot := cmd.targets[i];
        InitialNext(cmd, i, answers);
        if LostAt(answers, i) {
          if robot !in targets { targets := targets[robot := OFFLINE_AT_BIRTH]; }
        } else {
          if robot !in targets { targets := targets[robot := PENDING_AT_BIRTH]; }
          toDispatch := toDispatch + [CommandFor(cmd, robot)];
        }
      }
      assert cmd.targets[..|cmd.targets|] == cmd.targets;
      var tracked := TrackedCommand(cmd.commandId, cmd.expiry, cmd.payload, targets, None);
      tracked := RefreshCompletion(tracked, now);
      assert tracked == Birth(cmd, answers, now);
      BirthConsistent(cmd, answers, now);
      if cmd.commandId !in commands {
        commands := commands[cmd.commandId := tracked];
      }
    }

    method OnCommandSent(id: CommandId, robot: RobotId)
      requires Valid()
      modifies this
      ensures Valid()
      ensures commands == MarkSent(old(commands), id, robot)
    {
      StepKeepsWellFormed(commands, Dispatched(id, robot), retention);
      if id in commands && robot in commands[id].targets {
        var tc := commands[id];
        if tc.targets[robot].state == Pending {
          commands := commands[id := tc.(targets := tc.targets[robot := tc.targets[robot].(state := Sent)])];
        } else {
          assert tc.targets[robot := tc.targets[robot]] == tc.targets;
        }
      }
    }

    method OnCommandResult(result: CommandResult, now: Time)
      requires Valid()
      modifies this
      ensures Valid()
      ensures commands == Report(old(commands), result, now)
    {
      StepKeepsWellFormed(commands, Reported(result, now), retention);
      if result.commandId !in commands { return; }
      var tc := commands[result.commandId];
      if result.robotId !in tc.targets { return; }
      var ts := tc.targets[result.robotId];
      if IsTerminal(ts.state) { return; }
      if result.result == ResultApplied {
        ts := ts.(state := Applied);
      } else if result.result == ResultRejected {
        ts := TargetState(Rejected, result.detail);
      }
      tc := RefreshCompletion(tc.(targets := tc.targets[result.robotId := ts]), now);
      commands := commands[result.commandId := tc];
    }

    /** Expire what is due, then drop what has been complete for the retention window. */
    method SweepExpired(now: Time)
      requires Valid()
      modifies this
      ensures Valid()
      ensures commands == Sweep(old(commands), now, retention)
    {
      hide Age, PastRetention, Submit, MarkSent, Report, Consistent;
      StepKeepsWellFormed(commands, Swept(now), retention);
      ExpireDue(now);
      DropRetired(now);
      assert commands.Keys == Sweep(old(commands), now, retention).Keys;
    }

    method ExpireDue(now: Time)
      modifies this
      ensures commands.Keys == old(commands).Keys
      ensures forall id | id in commands :: commands[id] == Age(old(commands)[id], now)
    {
      ghost var before := commands;
      var todo := commands.Keys;
      while todo != {}
        invariant todo <= commands.Keys == before.Keys
        invariant forall id | id in before ::
          commands[id] == if id in todo then before[id] else Age(before[id], now)
        decreases todo
      {
        var id :| id in todo;
        var tc := commands[id];
        if now >= tc.expiry {
          var targets := ExpireEach(tc.targets);
          commands := commands[id := RefreshCompletion(tc.(targets := targets), now)];
        }
        todo := todo - {id};
      }
    }

    method DropRetired(now: Time)
      modifies this
      ensures commands.Keys == set id | id in old(commands) && !PastRetention(old(commands)[id], now, retention)
      ensures forall id | id in commands :: commands[id] == old(commands)[id]
    {
      ghost var before := commands;
      var todo := commands.Keys;
      while todo != {}
        invariant todo <= commands.Keys <= before.Keys
        invariant forall id | id in commands :: commands[id] == before[id]
        invariant forall id | id in before ::
          id in commands <==> id in todo || !PastRetention(before[id], now, retention)
        decreases todo
      {
        var id :| id in todo;
        var completed := commands[id].completedAt;
        if completed.Some? && now - completed.value >= retention {
          commands := commands - {id};
        }
        todo := todo - {id};
      }
    }

    method Snapshot() returns (out: seq<TrackedCommand>)
      requires Valid()
      ensures Lists(out, commands)
    {
      out := ListAll(commands);
    }
  }

  method ListAll(m: Commands) returns (out: seq<TrackedCommand>)
    requires forall id | id in m :: m[id].commandId == id
    ensures Lists(out, m)
  {
    out := [];
    var todo := m.Keys;
    while todo != {}
      invariant todo <= m.Keys && |out| + |todo| == |m.Keys|
      invariant forall i | 0 <= i < |out| ::
        out[i].commandId in m && out[i].commandId !in todo && out[i] == m[out[i].commandId]
      invariant forall i, j | 0 <= i < j < |out| :: out[i].commandId != out[j].commandId
      invariant forall id | id in m && id !in todo :: m[id] in out
      decreases todo
    {
      var id :| id in todo;
      out := out + [m[id]];
      todo := todo - {id};
    }
  }

  /** The inner loop of a sweep, over the targets of one command. */
  method ExpireEach(targets: map<RobotId, TargetState>) returns (expired: map<RobotId, TargetState>)
    ensures expired == ExpireTargets(targets)
  {
    expired := targets;
    var todo := targets.Keys;
    while todo != {}
      invariant todo <= targets.Keys == expired.Keys
      invariant forall r | r in targets ::
        expired[r] == if r in todo then targets[r] else ExpireTarget(targets[r])
      decreases todo
    {
      var r :| r in todo;
      if expired[r].state == Pending || expired[r].state == Sent {
        expired := expired[r := EXPIRED_BY_SWEEP];
      }
      todo := todo - {r};
    }
  }
}
