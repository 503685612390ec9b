/**
 Every subscriber sweeps the shared tracker. Adding subscribers adds sweeps; these lemmas say exactly what
 that can and cannot change.
 */
module TrackerSweeps {
  import opened Domain
  import opened TrackerSpec
  import opened TrackerHistory

  /** An event of a run with a crowd of subscribers; the extra ones are sweeps of the additional subscribers. */
  datatype Crowded = Crowded(event: Event, extra: bool)

  function AllEvents(cs: seq<Crowded>): (es: seq<Event>)
    ensures |es| == |cs|
    ensures forall i | 0 <= i < |cs| :: es[i] == cs[i].event
  {
    seq(|cs|, i requires 0 <= i < |cs| => cs[i].event)
  }

  function BaseEvents(cs: seq<Crowded>): seq<Event> {
    if cs == [] then []
    else BaseEvents(cs[..|cs| - 1]) + if cs[|cs| - 1].extra then [] else [cs[|cs| - 1].event]
  }

  ghost predicate OnlySweepsAreExtra(cs: seq<Crowded>) {
    forall i | 0 <= i < |cs| && cs[i].extra :: cs[i].event.Swept?
  }

  /** Sweeps and reports carry nondecreasing clock readings. */
  ghost predicate ClockAdvances(es: seq<Event>) {
    forall i, j | 0 <= i < j < |es| && (es[i].Swept? || es[i].Reported?) && (es[j].Swept? || es[j].Reported?) ::
      es[i].now <= es[j].now
  }

  predicate FindsOpen(m: Commands, result: CommandResult) {
    && result.commandId in m && result.robotId in m[result.commandId].targets
    && !IsTerminal(m[result.commandId].targets[result.robotId].state)
  }

  /** A definite report that finds its target open at or after the command's expiry. */
  predicate OpenLate(m: Commands, result: CommandResult, now: Time) {
    !result.result.ResultUnspecified? && FindsOpen(m, result) && now >= m[result.commandId].expiry
  }

  ghost predicate OpenLateAt(es: seq<Event>, n: int, retention: Time) {
    0 <= n < |es| && es[n].Reported? && OpenLate(Run(map[], es[..n], retention), es[n].result, es[n].now)
  }

  ghost predicate NoOpenLateReport(es: seq<Event>, retention: Time) {
    forall n :: !OpenLateAt(es, n, retention)
  }

  /** The tracker with extra sweeps runs ahead of the tracker without, by expiries already due at time t. */
  ghost predicate RunsAhead(x: TrackedCommand, y: TrackedCommand, t: Time) {
    && x.commandId == y.commandId && x.expiry == y.expiry && x.payload == y.payload
    && (x.targets == y.targets || (t >= x.expiry && x.targets == ExpireTargets(y.targets)))
    && (y.completedAt.Some? ==> x.completedAt.Some? && x.completedAt.value <= y.completedAt.value)
    && (x.completedAt.Some? && y.completedAt.None? ==> t >= x.expiry && x.completedAt.value <= t)
  }

  ghost predicate Ahead(a: Commands, b: Commands, t: Time) {
    && WellFormed(a) && WellFormed(b)
    && a.Keys <= b.Keys
    && forall id | id in a :: RunsAhead(a[id], b[id], t)
  }

  lemma ExpireTwice(targets: map<RobotId, TargetState>)
    ensures ExpireTargets(ExpireTargets(targets)) == ExpireTargets(targets)
    ensures AllTerminal(ExpireTargets(targets))
  {
  }

  /** A sweep the two trackers share brings their targets together again. */
  lemma AgeBoth(x: TrackedCommand, y: TrackedCommand, t: Time, now: Time)
    requires Consistent(x) && Consistent(y) && RunsAhead(x, y, t) && t <= now
    ensures RunsAhead(Age(x, now), Age(y, now), now)
    ensures Age(x, now).targets == Age(y, now).targets
    ensures forall retention :: PastRetention(Age(y, now), now, retention) ==> PastRetention(Age(x, now), now, retention)
  {
    ExpireTwice(y.targets);
  }

  lemma AgeAhead(x: TrackedCommand, y: TrackedCommand, t: Time, now: Time)
    requires Consistent(x) && Consistent(y) && RunsAhead(x, y, t) && t <= now
    ensures RunsAhead(Age(x, now), y, now)
  {
    ExpireTwice(y.targets);
    if now >= x.expiry && y.completedAt.Some? {
      AgeConsistent(x, now);
    }
  }

  lemma SweepBoth(a: Commands, b: Commands, t: Time, now: Time, retention: Time)
    requires Ahead(a, b, t) && t <= now
    ensures Ahead(Sweep(a, now, retention), Sweep(b, now, retention), now)
    ensures forall id | id in Sweep(a, now, retention) ::
      Sweep(a, now, retention)[id].targets == Sweep(b, now, retention)[id].targets
  {
    StepKeepsWellFormed(a, Swept(now), retention);
    StepKeepsWellFormed(b, Swept(now), retention);
    assert Step(a, Swept(now), retention) == Sweep(a, now, retention);
    assert Step(b, Swept(now), retention) == Sweep(b, now, retention);
    forall id | id in Sweep(a, now, retention)
      ensures id in Sweep(b, now, retention)
      ensures RunsAhead(Sweep(a, now, retention)[id], Sweep(b, now, retention)[id], now)
      ensures Sweep(a, now, retention)[id].targets == Sweep(b, now, retention)[id].targets
    {
      AgeBoth(a[id], b[id], t, now);
    }
  }

  lemma SweepAhead(a: Commands, b: Commands, t: Time, now: Time, retention: Time)
    requires Ahead(a, b, t) && t <= now
    ensures Ahead(Sweep(a, now, retention), b, now)
  {
    StepKeepsWellFormed(a, Swept(now), retention);
    assert Step(a, Swept(now), retention) == Sweep(a, now, retention);
    forall id | id in Sweep(a, now, retention)
      ensures id in b && RunsAhead(Sweep(a, now, retention)[id], b[id], now)
    {
      AgeAhead(a[id], b[id], t, now);
    }
  }

  lemma MarkCommandBoth(x: TrackedCommand, y: TrackedCommand, t: Time, robot: RobotId)
    requires Consistent(x) && Consistent(y) && RunsAhead(x, y, t)
    ensures RunsAhead(MarkCommand(x, robot), MarkCommand(y, robot), t)
  {
    var y' := MarkCommand(y, robot);
    assert ExpireTargets(y'.targets) == ExpireTargets(y.targets);
    if x.targets != y.targets && robot in x.targets {
      assert IsTerminal(x.targets[robot].state);
      assert MarkCommand(x, robot).targets == x.targets;
    }
  }

  lemma {:induction false} MarkBoth(a: Commands, b: Commands, t: Time, id: CommandId, robot: RobotId)
    requires Ahead(a, b, t)
    ensures Ahead(MarkSent(a, id, robot), MarkSent(b, id, robot), t)
  {
    hide RunsAhead, Consistent, MarkCommand, Submit, Report, Sweep;
    StepKeepsWellFormed(a, Dispatched(id, robot), 0);
    StepKeepsWellFormed(b, Dispatched(id, robot), 0);
    if id in a { MarkCommandBoth(a[id], b[id], t, robot); }
  }

  lemma {:induction false} ReportCommandBoth(x: TrackedCommand, y: TrackedCommand, t: Time, result: CommandResult)
    requires Consistent(x) && Consistent(y) && RunsAhead(x, y, t)
    requires t < y.expiry || result.result.ResultUnspecified? || result.robotId !in y.targets
             || IsTerminal(y.targets[result.robotId].state)
    ensures RunsAhead(ReportCommand(x, result, t), ReportCommand(y, result, t), t)
  {
    ReportConsistent(x, result, t);
    ReportConsistent(y, result, t);
    if t >= y.expiry {
      assert ReportCommand(y, result, t).targets == y.targets;
      assert ReportCommand(x, result, t).targets == x.targets;
    }
  }

  lemma {:induction false} ReportBoth(a: Commands, b: Commands, t: Time, result: CommandResult)
    requires Ahead(a, b, t) && !OpenLate(b, result, t)
    ensures Ahead(Report(a, result, t), Report(b, result, t), t)
  {
    hide RunsAhead, Consistent, ReportCommand, Submit, MarkSent, Sweep;
    StepKeepsWellFormed(a, Reported(result, t), 0);
    StepKeepsWellFormed(b, Reported(result, t), 0);
    if result.commandId in a { ReportCommandBoth(a[result.commandId], b[result.commandId], t, result); }
  }

  /** Every sweep and every report of the run happens by time t. */
  ghost predicate AllBy(es: seq<Event>, t: Time) {
    forall i | 0 <= i < |es| && (es[i].Swept? || es[i].Reported?) :: es[i].now <= t
  }

  lemma {:induction false} BaseIsSubsequence(cs: seq<Crowded>, id: CommandId)
    requires OnlySweepsAreExtra(cs)
    ensures (exists k :: SubmitsAt(BaseEvents(cs), k, id)) ==> exists k :: SubmitsAt(AllEvents(cs), k, id)
  {
    if cs != [] {
      var n := |cs| - 1;
      var pre := cs[..n];
      assert forall i | 0 <= i < n :: AllEvents(pre)[i] == AllEvents(cs)[i];
      BaseIsSubsequence(pre, id);
      if k :| SubmitsAt(BaseEvents(cs), k, id) {
        if k < |BaseEvents(pre)| {
          assert SubmitsAt(BaseEvents(pre), k, id);
          var j :| SubmitsAt(AllEvents(pre), j, id);
          assert SubmitsAt(AllEvents(cs), j, id);
        } else {
          assert SubmitsAt(AllEvents(cs), n, id);
        }
      }
    }
  }

  /** A freshly submitted id is tracked by neither of the two trackers. */
  lemma FreshInBoth(cs: seq<Crowded>, retention: Time, id: CommandId)
    requires OnlySweepsAreExtra(cs) && forall j :: !SubmitsAt(AllEvents(cs), j, id)
    ensures id !in Run(map[], AllEvents(cs), retention) && id !in Run(map[], BaseEvents(cs), retention)
  {
    BaseIsSubsequence(cs, id);
    NeverReturns(map[], AllEvents(cs), retention, id);
    NeverReturns(map[], BaseEvents(cs), retention, id);
  }

  /** With nondecreasing clock readings and no open late report, extra sweeps only ever put the tracker ahead. */
  lemma {:induction false} CrowdRunsAhead(cs: seq<Crowded>, retention: Time, t: Time)
    requires WellTimed(cs, t) && NoOpenLateReport(BaseEvents(cs), retention)
    ensures Ahead(Run(map[], AllEvents(cs), retention), Run(map[], BaseEvents(cs), retention), t)
    decreases |cs|
  {
    if cs != [] {
      var pre, last := cs[..|cs| - 1], cs[|cs| - 1];
      var e := last.event;
      var now := WellTimedPrefix(cs, t);
      BasePrefix(cs, |cs| - 1, retention);
      CrowdRunsAhead(pre, retention, now);
      var a, b := Run(map[], AllEvents(pre), retention), Run(map[], BaseEvents(pre), retention);
      RunOfLast(cs, retention);
      if last.extra {
        SweepAhead(a, b, now, now, retention);
      } else {
        LastIsAdmissible(cs, retention, t);
        SharedStep(a, b, now, e, retention);
      }
    }
  }

  ghost predicate WellTimed(cs: seq<Crowded>, t: Time) {
    && OnlySweepsAreExtra(cs) && FreshIds(AllEvents(cs))
    && ClockAdvances(AllEvents(cs)) && AllBy(AllEvents(cs), t)
  }

  lemma {:induction false} BasePrefix(cs: seq<Crowded>, m: nat, retention: Time)
    requires m <= |cs|
    ensures |BaseEvents(cs[..m])| <= |BaseEvents(cs)|
    ensures BaseEvents(cs[..m]) == BaseEvents(cs)[..|BaseEvents(cs[..m])|]
    ensures NoOpenLateReport(BaseEvents(cs), retention) ==> NoOpenLateReport(BaseEvents(cs[..m]), retention)
  {
    if m < |cs| {
      assert cs[..|cs| - 1][..m] == cs[..m];
      BasePrefix(cs[..|cs| - 1], m, retention);
    } else {
      assert cs[..m] == cs;
    }
    var es, pre := BaseEvents(cs), BaseEvents(cs[..m]);
    forall n | OpenLateAt(pre, n, retention) ensures OpenLateAt(es, n, retention) {
      assert pre[..n] == es[..n];
    }
  }

  /** The reading of the last event, if it carries one, bounds all before it. */
  lemma WellTimedPrefix(cs: seq<Crowded>, t: Time) returns (now: Time)
    requires cs != [] && WellTimed(cs, t)
    ensures now <= t && WellTimed(cs[..|cs| - 1], now)
    ensures var e := cs[|cs| - 1].event; e.Swept? || e.Reported? ==> now == e.now
  {
    var n := |cs| - 1;
    var e, es := cs[n].event, AllEvents(cs);
    now := if e.Swept? || e.Reported? then e.now else t;
    assert es[n] == e && AllEvents(cs[..n]) == es[..n];
  }

  lemma RunOfLast(cs: seq<Crowded>, retention: Time)
    requires cs != []
    ensures var pre, last := cs[..|cs| - 1], cs[|cs| - 1];
      && Run(map[], AllEvents(cs), retention) == Step(Run(map[], AllEvents(pre), retention), last.event, retention)
      && Run(map[], BaseEvents(cs), retention) ==
         if last.extra then Run(map[], BaseEvents(pre), retention)
         else Step(Run(map[], BaseEvents(pre), retention), last.event, retention)
  {
    var pre, last := cs[..|cs| - 1], cs[|cs| - 1];
    assert AllEvents(cs)[..|cs| - 1] == AllEvents(pre);
    if last.extra {
      assert BaseEvents(cs) == BaseEvents(pre);
    } else {
      assert BaseEvents(cs)[..|BaseEvents(cs)| - 1] == BaseEvents(pre);
    }
  }

  lemma {:induction false} LastIsAdmissible(cs: seq<Crowded>, retention: Time, t: Time)
    requires cs != [] && WellTimed(cs, t) && !cs[|cs| - 1].extra && NoOpenLateReport(BaseEvents(cs), retention)
    ensures var pre, e := cs[..|cs| - 1], cs[|cs| - 1].event;
      var a, b := Run(map[], AllEvents(pre), retention), Run(map[], BaseEvents(pre), retention);
      && (e.Submitted? ==> e.cmd.commandId !in a && e.cmd.commandId !in b)
      && (e.Reported? ==> !OpenLate(b, e.result, e.now))
  {
    var n := |cs| - 1;
    var pre, e, es := cs[..n], cs[n].event, AllEvents(cs);
    assert AllEvents(pre) == es[..n] && es[n] == e;
    if e.Submitted? {
      assert forall j | 0 <= j < n :: AllEvents(pre)[j] == es[j];
      FreshInBoth(pre, retention, e.cmd.commandId);
    } else if e.Reported? {
      var base := BaseEvents(cs);
      assert base[..|base| - 1] == BaseEvents(pre);
      assert !OpenLateAt(base, |base| - 1, retention);
    }
  }

  lemma SharedStep(a: Commands, b: Commands, t: Time, e: Event, retention: Time)
    requires Ahead(a, b, t)
    requires e.Swept? || e.Reported? ==> e.now == t
    requires e.Submitted? ==> e.cmd.commandId !in a && e.cmd.commandId !in b
    requires e.Reported? ==> !OpenLate(b, e.result, t)
    ensures Ahead(Step(a, e, retention), Step(b, e, retention), t)
  {
    match e
    case Submitted(cmd, answers, at) =>
      StepKeepsWellFormed(a, e, retention);
      StepKeepsWellFormed(b, e, retention);
    case Dispatched(id, robot) => MarkBoth(a, b, t, id, robot);
    case Reported(result, at) => ReportBoth(a, b, t, result);
    case Swept(at) => SweepBoth(a, b, t, t, retention);
  }

  /**
   After a sweep both runs share, the crowded tracker keeps a subset of the commands the quiet one keeps, and shows the
   same expiry, payload, target states and details on each.
   */
  ghost predicate ShowsSame(cs: seq<Crowded>, retention: Time, now: Time) {
    var crowded := Sweep(Run(map[], AllEvents(cs), retention), now, retention);
    var quiet := Sweep(Run(map[], BaseEvents(cs), retention), now, retention);
    && crowded.Keys <= quiet.Keys
    && forall id | id in crowded ::
         && crowded[id].targets == quiet[id].targets
         && crowded[id].expiry == quiet[id].expiry && crowded[id].payload == quiet[id].payload
  }

  /** Extra subscribers change nothing, unless a definite report finds its target open at or after the expiry. */
  lemma {:induction false} ExtraSubscribersAreHarmless(cs: seq<Crowded>, retention: Time, now: Time)
    requires WellTimed(cs, now) && NoOpenLateReport(BaseEvents(cs), retention)
    ensures ShowsSame(cs, retention, now)
  {
    var a, b := Run(map[], AllEvents(cs), retention), Run(map[], BaseEvents(cs), retention);
    CrowdRunsAhead(cs, retention, now);
    SweepBoth(a, b, now, now, retention);
  }

  // ---- without a retention window -------------------------------------------

  ghost predicate SubMap(a: Commands, b: Commands) {
    forall id | id in a :: id in b && a[id] == b[id]
  }

  lemma {:induction false} SweepWithoutWindow(a: Commands, b: Commands, now: Time, retention: Time)
    requires WellFormed(a) && SubMap(a, b) && retention <= 0
    ensures SubMap(Sweep(a, now, retention), b)
  {
    forall id | id in Sweep(a, now, retention) ensures Age(a[id], now) == a[id] {
      AgeWithoutWindow(a[id], now, retention);
    }
  }

  lemma {:induction false} SharedStepWithoutWindow(a: Commands, b: Commands, e: Event, retention: Time)
    requires SubMap(a, b) && (e.Submitted? ==> e.cmd.commandId !in a && e.cmd.commandId !in b)
    ensures SubMap(Step(a, e, retention), Step(b, e, retention))
  {
    hide Age, ReportCommand, MarkCommand, Birth, PastRetention;
  }

  /** The sweep that expires a command drops it, so what the crowded tracker still holds it holds unchanged. */
  lemma {:induction false} CrowdWithoutWindow(cs: seq<Crowded>, retention: Time)
    requires OnlySweepsAreExtra(cs) && FreshIds(AllEvents(cs)) && retention <= 0
    ensures SubMap(Run(map[], AllEvents(cs), retention), Run(map[], BaseEvents(cs), retention))
    decreases |cs|
  {
    hide Submit, MarkSent, Report, Sweep, WellFormed;
    if cs != [] {
      var n := |cs| - 1;
      var pre, e := cs[..n], cs[n].event;
      assert AllEvents(pre) == AllEvents(cs)[..n] && AllEvents(cs)[n] == e;
      assert forall j | 0 <= j < n :: AllEvents(pre)[j] == AllEvents(cs)[j];
      CrowdWithoutWindow(pre, retention);
      RunOfLast(cs, retention);
      var a := Run(map[], AllEvents(pre), retention);
      RunKeepsWellFormed(map[], AllEvents(pre), retention);
      if cs[n].extra {
        SweepWithoutWindow(a, Run(map[], BaseEvents(pre), retention), e.now, retention);
      } else {
        if e.Submitted? { FreshInBoth(pre, retention, e.cmd.commandId); }
        SharedStepWithoutWindow(a, Run(map[], BaseEvents(pre), retention), e, retention);
      }
    }
  }

  // ---- exactly when ---------------------------------------------------------

  /** A run with the same base events, whose clock readings still never decrease. */
  ghost predicate IsCrowdOf(cs: seq<Crowded>, es: seq<Event>) {
    OnlySweepsAreExtra(cs) && BaseEvents(cs) == es && ClockAdvances(AllEvents(cs))
  }

  /** At every moment of the run, and at every later clock reading. */
  ghost predicate Harmless(cs: seq<Crowded>, retention: Time) {
    forall m: nat, now: Time | m <= |cs| && AllBy(AllEvents(cs[..m]), now) :: ShowsSame(cs[..m], retention, now)
  }

  ghost predicate Submits(es: seq<Event>, id: CommandId) {
    exists k :: SubmitsAt(es, k, id)
  }

  lemma {:induction false} CrowdsAreFresh(cs: seq<Crowded>)
    requires OnlySweepsAreExtra(cs) && FreshIds(BaseEvents(cs))
    ensures FreshIds(AllEvents(cs))
    ensures forall id | Submits(AllEvents(cs), id) :: Submits(BaseEvents(cs), id)
    decreases |cs|
  {
    if cs == [] {
      assert AllEvents(cs) == [];
    } else {
      var n := |cs| - 1;
      var pre, all, base := cs[..n], AllEvents(cs), BaseEvents(cs);
      assert forall i | 0 <= i < n :: AllEvents(pre)[i] == all[i];
      var was := BaseEvents(pre);
      assert base == was + if cs[n].extra then [] else [all[n]];
      assert forall i | 0 <= i < |was| :: base[i] == was[i];
      CrowdsAreFresh(pre);
      forall id | Submits(all, id) ensures Submits(base, id) {
        var k :| SubmitsAt(all, k, id);
        if k < n {
          assert SubmitsAt(AllEvents(pre), k, id);
          assert Submits(AllEvents(pre), id);
          var j :| SubmitsAt(was, j, id);
          assert SubmitsAt(base, j, id);
        } else {
          assert SubmitsAt(base, |was|, id);
        }
      }
      forall i | 0 <= i < n && all[i].Submitted? && all[n].Submitted?
        ensures all[i].cmd.commandId != all[n].cmd.commandId
      {
        assert SubmitsAt(AllEvents(pre), i, all[i].cmd.commandId);
        assert Submits(AllEvents(pre), all[i].cmd.commandId);
        var j :| SubmitsAt(was, j, all[i].cmd.commandId);
        assert base[j] == was[j] && base[|was|] == all[n];
      }
    }
  }

  /** The base run as a crowd of its own. */
  function Alone(es: seq<Event>): (cs: seq<Crowded>)
    ensures |cs| == |es| && forall i | 0 <= i < |es| :: cs[i] == Crowded(es[i], false)
  {
    seq(|es|, i requires 0 <= i < |es| => Crowded(es[i], false))
  }

  lemma {:induction false} BaseAppend(a: seq<Crowded>, b: seq<Crowded>)
    ensures BaseEvents(a + b) == BaseEvents(a) + BaseEvents(b)
    decreases |b|
  {
    if b == [] {
      assert a + b == a;
    } else {
      assert (a + b)[..|a + b| - 1] == a + b[..|b| - 1];
      BaseAppend(a, b[..|b| - 1]);
    }
  }

  lemma {:induction false} BaseOfAlone(es: seq<Event>)
    ensures BaseEvents(Alone(es)) == es
    decreases |es|
  {
    if es != [] {
      assert Alone(es)[..|es| - 1] == Alone(es[..|es| - 1]);
      BaseOfAlone(es[..|es| - 1]);
    }
  }

  /** One extra sweep just before event n. */
  function SweepBefore(es: seq<Event>, n: nat, t: Time): (cs: seq<Crowded>)
    requires n <= |es|
    ensures |cs| == |es| + 1
  {
    Alone(es[..n]) + [Crowded(Swept(t), true)] + Alone(es[n..])
  }

  lemma {:induction false} BaseOfSweepBefore(a: seq<Event>, b: seq<Event>, t: Time)
    ensures BaseEvents(Alone(a) + [Crowded(Swept(t), true)] + Alone(b)) == a + b
  {
    var sweep := [Crowded(Swept(t), true)];
    BaseAppend(Alone(a) + sweep, Alone(b));
    BaseAppend(Alone(a), sweep);
    BaseOfAlone(a);
    BaseOfAlone(b);
    assert sweep[..0] == [];
  }

  lemma {:induction false} AllOfSweepBefore(a: seq<Event>, b: seq<Event>, t: Time)
    ensures AllEvents(Alone(a) + [Crowded(Swept(t), true)] + Alone(b)) == a + [Swept(t)] + b
  {
  }

  lemma {:induction false} SweepBeforeAdvances(es: seq<Event>, n: nat)
    requires n < |es| && es[n].Reported? && ClockAdvances(es)
    ensures ClockAdvances(es[..n] + [Swept(es[n].now)] + es[n..])
    ensures AllBy(es[..n] + [Swept(es[n].now), es[n]], es[n].now)
  {
    var all := es[..n] + [Swept(es[n].now)] + es[n..];
    assert forall i | 0 <= i < n :: all[i] == es[i];
    assert forall i | n < i < |all| :: all[i] == es[i - 1];
  }

  lemma {:induction false} SweepBeforeIsCrowd(es: seq<Event>, n: nat)
    requires n < |es| && es[n].Reported? && ClockAdvances(es)
    ensures IsCrowdOf(SweepBefore(es, n, es[n].now), es)
    ensures var pre := SweepBefore(es, n, es[n].now)[..n + 2];
      && AllEvents(pre) == es[..n] + [Swept(es[n].now), es[n]] && BaseEvents(pre) == es[..n] + [es[n]]
      && AllBy(AllEvents(pre), es[n].now)
  {
    hide BaseEvents, ClockAdvances, AllBy;
    var t := es[n].now;
    var pre := SweepBefore(es, n, t)[..n + 2];
    BaseOfSweepBefore(es[..n], es[n..], t);
    AllOfSweepBefore(es[..n], es[n..], t);
    BaseOfSweepBefore(es[..n], [es[n]], t);
    AllOfSweepBefore(es[..n], [es[n]], t);
    SweepBeforeAdvances(es, n);
    assert es[..n] + es[n..] == es;
    assert es[..n] + [Swept(t)] + [es[n]] == es[..n] + [Swept(t), es[n]];
    assert pre == Alone(es[..n]) + [Crowded(Swept(t), true)] + Alone([es[n]]);
  }

  /**
   An extra sweep between the expiry and a late report that finds its target open turns the verdict reported into
   EXPIRED, and the two trackers still differ after a sweep they share.
   */
  lemma {:induction false} LateReportSeesTheCrowd(m: Commands, result: CommandResult, now: Time, retention: Time)
    requires WellFormed(m) && OpenLate(m, result, now) && retention > 0
    ensures var id, robot := result.commandId, result.robotId;
      var quiet := Sweep(Report(m, result, now), now, retention);
      var crowded := Sweep(Report(Sweep(m, now, retention), result, now), now, retention);
      && id in crowded && robot in crowded[id].targets && crowded[id].targets[robot] == EXPIRED_BY_SWEEP
      && id in quiet && robot in quiet[id].targets
      && quiet[id].targets[robot].state == if result.result == ResultApplied then Applied else Rejected
  {
    var id, robot := result.commandId, result.robotId;
    var tc := m[id];
    assert tc.completedAt.None?;
    AgeConsistent(tc, now);
    assert Age(tc, now).completedAt == Some(now);
    assert ReportCommand(Age(tc, now), result, now) == Age(tc, now);
    AgeConsistent(Age(tc, now), now);
    ReportConsistent(tc, result, now);
    var told := ReportCommand(tc, result, now);
    AgeConsistent(told, now);
    assert IsTerminal(told.targets[robot].state);
    assert told.completedAt.Some? ==> told.completedAt == Some(now);
  }

  lemma {:induction false} OpenLateReportHarms(es: seq<Event>, n: nat, retention: Time)
    requires OpenLateAt(es, n, retention) && ClockAdvances(es) && retention > 0
    ensures !Harmless(SweepBefore(es, n, es[n].now), retention)
  {
    hide Sweep, Report, OpenLate, SweepBefore, ClockAdvances, AllBy;
    var t, cs := es[n].now, SweepBefore(es, n, es[n].now);
    SweepBeforeIsCrowd(es, n);
    var pre, m := cs[..n + 2], Run(map[], es[..n], retention);
    RunKeepsWellFormed(map[], es[..n], retention);
    LateReportSeesTheCrowd(m, es[n].result, t, retention);
    RunSnoc(map[], es[..n], es[n], retention);
    RunSnoc(map[], es[..n], Swept(t), retention);
    RunSnoc(map[], es[..n] + [Swept(t)], es[n], retention);
    assert es[..n] + [Swept(t), es[n]] == es[..n] + [Swept(t)] + [es[n]];
    assert !ShowsSame(pre, retention, t);
  }

  /**
   Exactly when subscribers may be added freely: every crowd of a run is harmless at every moment if and only if no
   definite report of the run finds its target open at or after the expiry, or the tracker keeps no finished commands.
   */
  lemma {:induction false} CrowdsAreHarmlessIff(es: seq<Event>, retention: Time)
    requires FreshIds(es) && ClockAdvances(es)
    ensures (forall cs | IsCrowdOf(cs, es) :: Harmless(cs, retention))
      <==> NoOpenLateReport(es, retention) || retention <= 0
  {
    hide ShowsSame, OpenLateAt;
    if NoOpenLateReport(es, retention) || retention <= 0 {
      forall cs, m: nat, now | IsCrowdOf(cs, es) && m <= |cs| && AllBy(AllEvents(cs[..m]), now)
        ensures ShowsSame(cs[..m], retention, now)
      {
        CrowdMoment(cs, es, m, retention, now);
      }
    } else {
      var n :| OpenLateAt(es, n, retention);
      OpenLateInRange(es, n, retention);
      SweepBeforeIsCrowd(es, n);
      OpenLateReportHarms(es, n, retention);
    }
  }

  lemma {:induction false} OpenLateInRange(es: seq<Event>, n: int, retention: Time)
    requires OpenLateAt(es, n, retention)
    ensures 0 <= n < |es| && es[n].Reported?
  {
  }

  lemma {:induction false} CrowdMoment(cs: seq<Crowded>, es: seq<Event>, m: nat, retention: Time, now: Time)
    requires IsCrowdOf(cs, es) && FreshIds(es) && m <= |cs| && AllBy(AllEvents(cs[..m]), now)
    requires NoOpenLateReport(es, retention) || retention <= 0
    ensures ShowsSame(cs[..m], retention, now)
  {
    hide ShowsSame, Run, Sweep;
    var pre := cs[..m];
    assert AllEvents(pre) == AllEvents(cs)[..m];
    CrowdsAreFresh(cs);
    BasePrefix(cs, m, retention);
    assert FreshIds(AllEvents(pre)) && ClockAdvances(AllEvents(pre)) && OnlySweepsAreExtra(pre);
    if retention <= 0 {
      SameWithoutWindow(pre, retention, now);
    } else {
      ExtraSubscribersAreHarmless(pre, retention, now);
    }
  }

  lemma {:induction false} SameWithoutWindow(cs: seq<Crowded>, retention: Time, now: Time)
    requires OnlySweepsAreExtra(cs) && FreshIds(AllEvents(cs)) && retention <= 0
    ensures ShowsSame(cs, retention, now)
  {
    CrowdWithoutWindow(cs, retention);
  }
}
