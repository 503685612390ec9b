/**
 SendCommand hands a command to a link first and marks it sent afterwards, in a separate critical region. The
 mark therefore races with the robot's report and with every sweep. These lemmas show the race is harmless.
 */
module TrackerMarks {
  import opened Domain
  import opened TrackerSpec
  import opened TrackerHistory

  lemma {:induction false} TargetMarkThenReport(ts: TargetState, result: CommandResult)
    ensures IsTerminal(MarkTarget(ts).state) <==> IsTerminal(ts.state)
    ensures !IsTerminal(ts.state) ==> ReportTarget(MarkTarget(ts), result) == MarkTarget(ReportTarget(ts, result))
  {
  }

  lemma {:induction false} MarkThenReport(tc: TrackedCommand, robot: RobotId, result: CommandResult, now: Time)
    ensures ReportCommand(MarkCommand(tc, robot), result, now) == MarkCommand(ReportCommand(tc, result, now), robot)
  {
    hide AllTerminal, MarkTarget, ReportTarget, IsTerminal;
    var it := result.robotId;
    if robot in tc.targets && it in tc.targets {
      TargetMarkThenReport(tc.targets[robot], result);
      TargetMarkThenReport(ReportTarget(tc.targets[it], result), result);
      var marked := MarkCommand(tc, robot).targets;
      if !IsTerminal(tc.targets[it].state) {
        SameTerminal(marked[it := ReportTarget(marked[it], result)], tc.targets[it := ReportTarget(tc.targets[it], result)]);
        assert ReportCommand(MarkCommand(tc, robot), result, now).targets
            == MarkCommand(ReportCommand(tc, result, now), robot).targets;
      }
    }
  }

  lemma SameTerminal(a: map<RobotId, TargetState>, b: map<RobotId, TargetState>)
    requires a.Keys == b.Keys && forall r | r in a :: IsTerminal(a[r].state) <==> IsTerminal(b[r].state)
    ensures AllTerminal(a) <==> AllTerminal(b)
  {
    if AllTerminal(b) {
      assert forall r | r in a :: IsTerminal(b[r].state);
    }
  }

  lemma MarkThenAge(tc: TrackedCommand, robot: RobotId, now: Time)
    ensures Age(MarkCommand(tc, robot), now) == MarkCommand(Age(tc, now), robot)
  {
    if robot in tc.targets && now >= tc.expiry {
      assert ExpireTargets(MarkCommand(tc, robot).targets) == ExpireTargets(tc.targets);
      var aged := Age(tc, now);
      assert aged.targets[robot := aged.targets[robot]] == aged.targets;
    }
  }

  lemma MarkThenSweep(m: Commands, id: CommandId, robot: RobotId, now: Time, retention: Time)
    ensures Sweep(MarkSent(m, id, robot), now, retention) == MarkSent(Sweep(m, now, retention), id, robot)
  {
    hide RefreshCompletion, ExpireTargets, MarkTarget, AllTerminal;
    if id in m {
      var marked := MarkSent(m, id, robot);
      MarkThenAge(m[id], robot, now);
      forall i | i in m
        ensures Age(marked[i], now) == if i == id then MarkCommand(Age(m[i], now), robot) else Age(m[i], now)
        ensures PastRetention(Age(marked[i], now), now, retention) == PastRetention(Age(m[i], now), now, retention)
      {
      }
      assert Sweep(marked, now, retention).Keys == Sweep(m, now, retention).Keys;
    }
  }

  lemma MarkThenSubmit(m: Commands, id: CommandId, robot: RobotId, cmd: OperatorCommand, answers: seq<bool>,
      now: Time)
    requires cmd.commandId == id ==> id in m
    ensures Submit(MarkSent(m, id, robot), cmd, answers, now) == MarkSent(Submit(m, cmd, answers, now), id, robot)
  {
    if cmd.commandId !in m && id in m {
      var born := Birth(cmd, answers, now);
      assert m[id := MarkCommand(m[id], robot)][cmd.commandId := born]
          == m[cmd.commandId := born][id := MarkCommand(m[id], robot)];
    }
  }

  lemma MarkThenMark(m: Commands, id: CommandId, robot: RobotId, i: CommandId, r: RobotId)
    ensures MarkSent(MarkSent(m, id, robot), i, r) == MarkSent(MarkSent(m, i, r), id, robot)
  {
    if i == id && id in m {
      MarksCommute(m[id], r, robot);
    } else if i in m && id in m {
      assert m[id := MarkCommand(m[id], robot)][i := MarkCommand(m[i], r)]
          == m[i := MarkCommand(m[i], r)][id := MarkCommand(m[id], robot)];
    }
  }

  lemma MarkThenReported(m: Commands, id: CommandId, robot: RobotId, result: CommandResult, now: Time)
    ensures Report(MarkSent(m, id, robot), result, now) == MarkSent(Report(m, result, now), id, robot)
  {
    var i := result.commandId;
    if i == id && id in m {
      MarkThenReport(m[id], robot, result, now);
    } else if i in m && id in m {
      assert m[id := MarkCommand(m[id], robot)][i := ReportCommand(m[i], result, now)]
          == m[i := ReportCommand(m[i], result, now)][id := MarkCommand(m[id], robot)];
    }
  }

  /** Marking sent commutes with every event except the submission that first creates the entry. */
  lemma MarkCommutes(m: Commands, e: Event, retention: Time, id: CommandId, robot: RobotId)
    requires e.Submitted? && e.cmd.commandId == id ==> id in m
    ensures Step(MarkSent(m, id, robot), e, retention) == MarkSent(Step(m, e, retention), id, robot)
  {
    match e
    case Submitted(cmd, answers, now) => MarkThenSubmit(m, id, robot, cmd, answers, now);
    case Dispatched(i, r) => MarkThenMark(m, id, robot, i, r);
    case Reported(result, now) => MarkThenReported(m, id, robot, result, now);
    case Swept(now) => MarkThenSweep(m, id, robot, now, retention);
  }

  /** It does not commute with that one submission: marked first, the mark is lost. */
  lemma MarkBeforeSubmissionIsLost(m: Commands, cmd: OperatorCommand, answers: seq<bool>, now: Time, robot: RobotId)
    requires cmd.commandId !in m && robot in cmd.targets && !FirstLost(cmd.targets, answers, robot)
    ensures Submit(MarkSent(m, cmd.commandId, robot), cmd, answers, now)
         != MarkSent(Submit(m, cmd, answers, now), cmd.commandId, robot)
  {
    var id := cmd.commandId;
    assert Submit(m, cmd, answers, now)[id].targets[robot].state == Pending;
    assert MarkSent(Submit(m, cmd, answers, now), id, robot)[id].targets[robot].state == Sent;
  }

  lemma MarksCommute(tc: TrackedCommand, a: RobotId, b: RobotId)
    ensures MarkCommand(MarkCommand(tc, a), b) == MarkCommand(MarkCommand(tc, b), a)
  {
    if a in tc.targets && b in tc.targets {
      assert MarkCommand(MarkCommand(tc, a), b).targets == MarkCommand(MarkCommand(tc, b), a).targets;
    }
  }

  // ---- whole runs -----------------------------------------------------------

  predicate IsMark(e: Event, id: CommandId) { e.Dispatched? && e.id == id }

  function Marks(es: seq<Event>, id: CommandId): (r: seq<Event>)
    ensures forall e | e in r :: IsMark(e, id)
  {
    if es == [] then []
    else Marks(es[..|es| - 1], id) + if IsMark(es[|es| - 1], id) then [es[|es| - 1]] else []
  }

  function WithoutMarks(es: seq<Event>, id: CommandId): (r: seq<Event>)
    ensures |r| <= |es|
    ensures forall e | e in r :: e in es && !IsMark(e, id)
  {
    if es == [] then []
    else WithoutMarks(es[..|es| - 1], id) + if IsMark(es[|es| - 1], id) then [] else [es[|es| - 1]]
  }

  /** The run in which every mark that follows the submission of its command comes immediately after it. */
  function MarkedAtOnce(es: seq<Event>): seq<Event>
    decreases |es|
  {
    if es == [] then []
    else if es[0].Submitted? then
      var id := es[0].cmd.commandId;
      [es[0]] + Marks(es[1..], id) + MarkedAtOnce(WithoutMarks(es[1..], id))
    else [es[0]] + MarkedAtOnce(es[1..])
  }

  ghost predicate NeverSubmits(es: seq<Event>, id: CommandId) {
    forall e | e in es && e.Submitted? :: e.cmd.commandId != id
  }

  lemma {:induction false} MarkFloatsToTheFront(m: Commands, es: seq<Event>, retention: Time, id: CommandId,
      robot: RobotId)
    requires NeverSubmits(es, id)
    ensures MarkSent(Run(m, es, retention), id, robot) == Run(MarkSent(m, id, robot), es, retention)
    decreases |es|
  {
    if es != [] {
      var n := |es| - 1;
      MarkFloatsToTheFront(m, es[..n], retention, id, robot);
      assert es[n] in es;
      MarkCommutes(Run(m, es[..n], retention), es[n], retention, id, robot);
    }
  }

  lemma {:induction false} MarksFirst(m: Commands, es: seq<Event>, retention: Time, id: CommandId)
    requires NeverSubmits(es, id)
    ensures Run(Run(m, Marks(es, id), retention), WithoutMarks(es, id), retention) == Run(m, es, retention)
    decreases |es|
  {
    hide Submit, Report, Sweep, MarkCommand, MarkSent;
    if es != [] {
      var n := |es| - 1;
      var pre, e := es[..n], es[n];
      var marks, rest := Marks(pre, id), WithoutMarks(pre, id);
      var m1 := Run(m, marks, retention);
      MarksFirst(m, pre, retention, id);
      if IsMark(e, id) {
        RunSnoc(m, marks, e, retention);
        MarkFloatsToTheFront(m1, rest, retention, id, e.robot);
        assert WithoutMarks(es, id) == rest;
      } else {
        RunSnoc(m1, rest, e, retention);
        assert Marks(es, id) == marks;
      }
    }
  }

  lemma {:induction false} WithoutMarksKeepsFreshIds(es: seq<Event>, id: CommandId)
    requires FreshIds(es)
    ensures FreshIds(WithoutMarks(es, id))
    decreases |es|
  {
    if es != [] {
      var n := |es| - 1;
      var rest, e := WithoutMarks(es[..n], id), es[n];
      WithoutMarksKeepsFreshIds(es[..n], id);
      if e.Submitted? {
        forall x | x in rest && x.Submitted? ensures x.cmd.commandId != e.cmd.commandId {
          var i :| 0 <= i < n && es[i] == x;
        }
      }
    }
  }

  /**
   The race in SendCommand is harmless: any run with fresh ids ends with exactly the tracker contents of the run
   in which every dispatched target is marked sent immediately after its submission.
   */
  lemma {:induction false} MarkingRaceIsHarmless(m: Commands, es: seq<Event>, retention: Time)
    requires FreshIds(es)
    ensures Run(m, MarkedAtOnce(es), retention) == Run(m, es, retention)
    decreases |es|
  {
    if es != [] {
      var e, rest := es[0], es[1..];
      FreshTail(es);
      RunCons(m, es, retention);
      var m1 := Step(m, e, retention);
      if e.Submitted? {
        var id := e.cmd.commandId;
        var marks, others := Marks(rest, id), WithoutMarks(rest, id);
        MarksFirst(m1, rest, retention, id);
        WithoutMarksKeepsFreshIds(rest, id);
        MarkingRaceIsHarmless(Run(m1, marks, retention), others, retention);
        assert MarkedAtOnce(es) == [e] + marks + MarkedAtOnce(others);
        Regroup(m, e, marks, MarkedAtOnce(others), retention);
      } else {
        MarkingRaceIsHarmless(m1, rest, retention);
        HeadAndTail(m, e, MarkedAtOnce(rest), retention);
      }
    }
  }

  /** The reordered run holds the same events, each as often. */
  lemma {:induction false} MarkedAtOnceReorders(es: seq<Event>)
    ensures multiset(MarkedAtOnce(es)) == multiset(es)
    decreases |es|
  {
    if es != [] {
      var e, rest := es[0], es[1..];
      assert es == [e] + rest;
      if e.Submitted? {
        SplitMarks(rest, e.cmd.commandId);
        MarkedAtOnceReorders(WithoutMarks(rest, e.cmd.commandId));
      } else {
        MarkedAtOnceReorders(rest);
      }
    }
  }

  lemma {:induction false} SplitMarks(es: seq<Event>, id: CommandId)
    ensures multiset(Marks(es, id)) + multiset(WithoutMarks(es, id)) == multiset(es)
    decreases |es|
  {
    if es != [] {
      var n := |es| - 1;
      assert es == es[..n] + [es[n]];
      SplitMarks(es[..n], id);
    }
  }

  /** Nothing but marks of the same command stands between a submission and a later mark of its command. */
  ghost predicate MarksFollowAtOnce(es: seq<Event>) {
    forall i, l, j | 0 <= i < l < j < |es| && es[i].Submitted? && IsMark(es[j], es[i].cmd.commandId) ::
      IsMark(es[l], es[i].cmd.commandId)
  }

  lemma {:induction false} MarkedAtOnceIsImmediate(es: seq<Event>)
    requires FreshIds(es)
    ensures MarksFollowAtOnce(MarkedAtOnce(es))
    decreases |es|
  {
    if es != [] {
      var e, rest := es[0], es[1..];
      FreshTail(es);
      if e.Submitted? {
        var id := e.cmd.commandId;
        var marks, others := Marks(rest, id), WithoutMarks(rest, id);
        WithoutMarksKeepsFreshIds(rest, id);
        MarkedAtOnceIsImmediate(others);
        MarkedAtOnceReorders(others);
        var tail := MarkedAtOnce(others);
        forall x | x in tail ensures !IsMark(x, id) {
          assert x in multiset(tail);
          assert x in others;
        }
        JoinImmediate(e, marks, tail);
      } else {
        MarkedAtOnceIsImmediate(rest);
        JoinImmediate(e, [], MarkedAtOnce(rest));
        assert [e] + [] + MarkedAtOnce(rest) == [e] + MarkedAtOnce(rest);
      }
    }
  }

  lemma {:induction false} JoinImmediate(e: Event, marks: seq<Event>, tail: seq<Event>)
    requires MarksFollowAtOnce(tail)
    requires e.Submitted? ==> forall x | x in tail :: !IsMark(x, e.cmd.commandId)
    requires marks != [] ==> e.Submitted? && forall x | x in marks :: IsMark(x, e.cmd.commandId)
    ensures MarksFollowAtOnce([e] + marks + tail)
  {
    var es, n := [e] + marks + tail, 1 + |marks|;
    assert forall i | 1 <= i < n :: es[i] == marks[i - 1] && es[i] in marks;
    assert forall i | n <= i < |es| :: es[i] == tail[i - n] && es[i] in tail;
    forall i, l, j | 0 <= i < l < j < |es| && es[i].Submitted? && IsMark(es[j], es[i].cmd.commandId)
      ensures IsMark(es[l], es[i].cmd.commandId)
    {
      if i >= n {
        assert IsMark(tail[j - n], tail[i - n].cmd.commandId);
      }
    }
  }

  lemma HeadAndTail(m: Commands, e: Event, rest: seq<Event>, retention: Time)
    ensures Run(m, [e] + rest, retention) == Run(Step(m, e, retention), rest, retention)
  {
    RunAppend(m, [e], rest, retention);
    RunSnoc(m, [], e, retention);
    assert [] + [e] == [e];
  }

  lemma Regroup(m: Commands, e: Event, marks: seq<Event>, rest: seq<Event>, retention: Time)
    ensures Run(m, [e] + marks + rest, retention) == Run(Run(Step(m, e, retention), marks, retention), rest, retention)
  {
    RunAppend(m, [e] + marks, rest, retention);
    HeadAndTail(m, e, marks, retention);
  }

  lemma FreshTail(es: seq<Event>)
    requires es != [] && FreshIds(es)
    ensures FreshIds(es[1..])
    ensures es[0].Submitted? ==> NeverSubmits(es[1..], es[0].cmd.commandId)
  {
  }

  lemma RunCons(m: Commands, es: seq<Event>, retention: Time)
    requires es != []
    ensures Run(m, es, retention) == Run(Step(m, es[0], retention), es[1..], retention)
  {
    assert es == [es[0]] + es[1..];
    HeadAndTail(m, es[0], es[1..], retention);
  }
}
