/**
 What the tracker holds after any run, told from the run alone: which event decided each target,
 when a command completed, and how long it is kept.
 */
module TrackerHistory {
  import opened Domain
  import opened TrackerSpec

  // ---- the invariant of every reachable map ---------------------------------

  ghost predicate Consistent(tc: TrackedCommand) {
    && (tc.completedAt.Some? <==> AllTerminal(tc.targets))
    && forall r | r in tc.targets && !IsTerminal(tc.targets[r].state) :: tc.targets[r].detail == ""
  }

  /** A command is stamped complete exactly when all its targets are terminal. */
  ghost predicate WellFormed(m: Commands) {
    forall id | id in m :: m[id].commandId == id && Consistent(m[id])
  }

  lemma AgeConsistent(tc: TrackedCommand, now: Time)
    requires Consistent(tc)
    ensures Consistent(Age(tc, now))
    ensures now >= tc.expiry ==> AllTerminal(Age(tc, now).targets)
    ensures tc.completedAt.Some? ==> Age(tc, now) == tc
  {
    if tc.completedAt.Some? {
      assert ExpireTargets(tc.targets) == tc.targets;
    }
  }

  lemma MarkConsistent(tc: TrackedCommand, robot: RobotId)
    requires Consistent(tc)
    ensures Consistent(MarkCommand(tc, robot))
    ensures tc.completedAt.Some? ==> MarkCommand(tc, robot) == tc
  {
    if robot in tc.targets {
      var after := MarkCommand(tc, robot);
      assert after.targets.Keys == tc.targets.Keys;
      assert forall r | r in tc.targets ::
        IsTerminal(after.targets[r].state) <==> IsTerminal(tc.targets[r].state);
      if tc.completedAt.Some? {
        assert tc.targets[robot := tc.targets[robot]] == tc.targets;
      }
    }
  }

  lemma ReportConsistent(tc: TrackedCommand, result: CommandResult, now: Time)
    requires Consistent(tc)
    ensures Consistent(ReportCommand(tc, result, now))
    ensures tc.completedAt.Some? ==> ReportCommand(tc, result, now) == tc
  {
    assert forall r | r in ReportCommand(tc, result, now).targets :: r == result.robotId || r in tc.targets;
  }

  lemma StepKeepsWellFormed(m: Commands, e: Event, retention: Time)
    requires WellFormed(m)
    ensures WellFormed(Step(m, e, retention))
  {
    match e
    case Submitted(cmd, answers, now) =>
    case Dispatched(id, robot) =>
      if id in m { MarkConsistent(m[id], robot); }
    case Reported(result, now) =>
      if result.commandId in m { ReportConsistent(m[result.commandId], result, now); }
    case Swept(now) =>
      forall id | id in Step(m, e, retention)
        ensures Step(m, e, retention)[id].commandId == id && Consistent(Step(m, e, retention)[id])
      {
        AgeConsistent(m[id], now);
      }
  }

  lemma {:induction false} RunKeepsWellFormed(m: Commands, es: seq<Event>, retention: Time)
    requires WellFormed(m)
    ensures WellFormed(Run(m, es, retention))
    decreases |es|
  {
    if es != [] {
      var n := |es| - 1;
      RunKeepsWellFormed(m, es[..n], retention);
      StepKeepsWellFormed(Run(m, es[..n], retention), es[n], retention);
    }
  }

  // ---- one step seen by one target ------------------------------------------

  function TargetStep(ts: TargetState, e: Event, id: CommandId, robot: RobotId, expiry: Time): TargetState {
    match e
    case Submitted(_, _, _) => ts
    case Dispatched(i, r) => if i == id && r == robot then MarkTarget(ts) else ts
    case Reported(result, _) =>
      if result.commandId == id && result.robotId == robot then ReportTarget(ts, result) else ts
    case Swept(now) => if now >= expiry then ExpireTarget(ts) else ts
  }

  /** A step changes one tracked target exactly as that target's own step; identity fields never change. */
  lemma StepSeenByTarget(m: Commands, e: Event, retention: Time, id: CommandId, robot: RobotId)
    requires id in m && id in Step(m, e, retention)
    ensures var was, now := m[id], Step(m, e, retention)[id];
      && now.expiry == was.expiry && now.payload == was.payload
      && now.commandId == was.commandId && now.targets.Keys == was.targets.Keys
      && (robot in was.targets ==>
            now.targets[robot] == TargetStep(was.targets[robot], e, id, robot, was.expiry))
  {
  }

  /** A step adds an id only by submitting it. */
  lemma StepOrigin(m: Commands, e: Event, retention: Time, id: CommandId)
    requires id in Step(m, e, retention) && id !in m
    ensures e.Submitted? && e.cmd.commandId == id
    ensures Step(m, e, retention)[id] == Birth(e.cmd, e.answers, e.now)
  {
  }

  ghost predicate SubmitsAt(es: seq<Event>, k: int, id: CommandId) {
    0 <= k < |es| && es[k].Submitted? && es[k].cmd.commandId == id
  }

  /** A tracked command was submitted in the run, and has been tracked ever since. */
  lemma {:induction false} TrackedSinceSubmission(es: seq<Event>, retention: Time, id: CommandId) returns (k: nat)
    requires id in Run(map[], es, retention)
    ensures SubmitsAt(es, k, id)
    ensures FreshIds(es) ==> forall j | k < j <= |es| :: id in Run(map[], es[..j], retention)
    decreases |es|
  {
    var n := |es| - 1;
    var before := Run(map[], es[..n], retention);
    assert es[..|es|] == es;
    if id in before {
      k := TrackedSinceSubmission(es[..n], retention, id);
      forall j | FreshIds(es) && k < j <= |es| ensures id in Run(map[], es[..j], retention) {
        if j <= n { assert es[..n][..j] == es[..j]; }
      }
    } else {
      StepOrigin(before, es[n], retention, id);
      k := n;
    }
  }

  // ---- the history specification of one target ------------------------------

  /** The event settles the target: a definite report for it, or a sweep at or after the expiry. */
  predicate Decides(e: Event, id: CommandId, robot: RobotId, expiry: Time) {
    match e
    case Reported(result, _) =>
      result.commandId == id && result.robotId == robot && !result.result.ResultUnspecified?
    case Swept(now) => now >= expiry
    case _ => false
  }

  function Verdict(e: Event): TargetState {
    match e
    case Reported(result, _) =>
      if result.result == ResultApplied then TargetState(Applied, "") else TargetState(Rejected, result.detail)
    case _ => TargetState(Expired, "expired")
  }

  /** Event i is the first after event k to settle the target. */
  ghost predicate FirstDecision(es: seq<Event>, k: int, id: CommandId, robot: RobotId, expiry: Time, i: int) {
    && 0 <= k < i < |es| && Decides(es[i], id, robot, expiry)
    && forall j | k < j < i :: !Decides(es[j], id, robot, expiry)
  }

  ghost predicate Undecided(es: seq<Event>, k: int, id: CommandId, robot: RobotId, expiry: Time) {
    forall j | 0 <= k < j < |es| :: !Decides(es[j], id, robot, expiry)
  }

  ghost predicate MarkedAfter(es: seq<Event>, k: int, id: CommandId, robot: RobotId) {
    exists j :: 0 <= k < j < |es| && es[j] == Dispatched(id, robot)
  }

  /** What the history says the target must show. */
  ghost predicate Explains(es: seq<Event>, k: int, robot: RobotId, ts: TargetState)
    requires 0 <= k < |es| && es[k].Submitted?
  {
    var id, expiry := es[k].cmd.commandId, es[k].cmd.expiry;
    if FirstLost(es[k].cmd.targets, es[k].answers, robot) then ts == TargetState(RobotOffline, "offline at dispatch")
    else
      && (Undecided(es, k, id, robot, expiry) ==>
            ts == TargetState(if MarkedAfter(es, k, id, robot) then Sent else Pending, ""))
      && forall i | FirstDecision(es, k, id, robot, expiry, i) :: ts == Verdict(es[i])
  }

  /** Appending one event moves what the history explains exactly by the target's own step. */
  lemma ExplainsNext(es: seq<Event>, k: int, robot: RobotId, ts: TargetState)
    requires |es| > 0 && 0 <= k < |es| - 1 && es[k].Submitted? && Explains(es[..|es| - 1], k, robot, ts)
    requires !es[|es| - 1].Submitted? || es[|es| - 1].cmd.commandId != es[k].cmd.commandId
    ensures Explains(es, k, robot, TargetStep(ts, es[|es| - 1], es[k].cmd.commandId, robot, es[k].cmd.expiry))
  {
    var id, expiry, n := es[k].cmd.commandId, es[k].cmd.expiry, |es| - 1;
    var pre := es[..n];
    assert forall j | 0 <= j < n :: pre[j] == es[j];
    if !FirstLost(es[k].cmd.targets, es[k].answers, robot) {
      if Undecided(pre, k, id, robot, expiry) {
        if MarkedAfter(pre, k, id, robot) {
          var j :| 0 <= k < j < |pre| && pre[j] == Dispatched(id, robot);
          assert es[j] == Dispatched(id, robot);
        }
        if MarkedAfter(es, k, id, robot) && !MarkedAfter(pre, k, id, robot) {
          var j :| 0 <= k < j < |es| && es[j] == Dispatched(id, robot);
          assert j == n;
        }
        assert forall i | FirstDecision(es, k, id, robot, expiry, i) :: i == n;
      } else {
        var d := LeastDecision(pre, k, id, robot, expiry);
        assert pre[d] == es[d];
        assert IsTerminal(ts.state);
        forall i | FirstDecision(es, k, id, robot, expiry, i) ensures i == d {
        }
      }
    }
  }

  lemma {:induction false} LeastDecision(es: seq<Event>, k: int, id: CommandId, robot: RobotId,
      expiry: Time) returns (i: int)
    requires 0 <= k < |es| && !Undecided(es, k, id, robot, expiry)
    ensures FirstDecision(es, k, id, robot, expiry, i)
  {
    i := k + 1;
    while !Decides(es[i], id, robot, expiry)
      invariant k < i < |es|
      invariant forall j | k < j < i :: !Decides(es[j], id, robot, expiry)
      invariant exists j :: i <= j < |es| && Decides(es[j], id, robot, expiry)
      decreases |es| - i
    {
      i := i + 1;
    }
  }

  /**
   The state and detail of every target of every tracked command, after any run with fresh ids, are the
   ones the history explains: offline if lost at its first mention, else the first deciding event, else SENT or PENDING.
   */
  lemma {:induction false} TargetsExplainedByHistory(es: seq<Event>, retention: Time, k: int, id: CommandId,
      robot: RobotId)
    requires FreshIds(es) && SubmitsAt(es, k, id)
    requires id in Run(map[], es, retention)
    ensures var tc := Run(map[], es, retention)[id];
      && tc.expiry == es[k].cmd.expiry && tc.payload == es[k].cmd.payload && tc.commandId == id
      && (robot in tc.targets <==> robot in es[k].cmd.targets)
      && (robot in tc.targets ==> Explains(es, k, robot, tc.targets[robot]))
    decreases |es|
  {
    var n := |es| - 1;
    var before := Run(map[], es[..n], retention);
    assert forall j | 0 <= j < n :: es[..n][j] == es[j];
    if k == n {
      if id in before {
        var j := TrackedSinceSubmission(es[..n], retention, id);
        assert false;
      }
    } else {
      if id !in before {
        StepOrigin(before, es[n], retention, id);
      }
      TargetsExplainedByHistory(es[..n], retention, k, id, robot);
      StepSeenByTarget(before, es[n], retention, id, robot);
      if robot in before[id].targets {
        ExplainsNext(es, k, robot, before[id].targets[robot]);
      }
    }
  }

  // ---- the lifecycle order --------------------------------------------------

  /** PENDING may become SENT; both may become APPLIED, REJECTED or EXPIRED; terminal states are frozen. */
  predicate Advances(a: TargetState, b: TargetState) {
    || a == b
    || (a.state == Pending && b == a.(state := Sent))
    || (!IsTerminal(a.state) && (b.state == Applied || b.state == Rejected || b.state == Expired))
  }

  /** While a command is tracked, each of its targets only advances. */
  lemma {:induction false} TargetsOnlyAdvance(m: Commands, es: seq<Event>, retention: Time, id: CommandId,
      robot: RobotId)
    requires id in m && robot in m[id].targets
    requires forall j | 0 <= j <= |es| :: id in Run(m, es[..j], retention)
    ensures id in Run(m, es, retention)
    ensures Run(m, es, retention)[id].targets.Keys == m[id].targets.Keys
    ensures Advances(m[id].targets[robot], Run(m, es, retention)[id].targets[robot])
    decreases |es|
  {
    assert es[..|es|] == es;
    if es != [] {
      var n := |es| - 1;
      forall j | 0 <= j <= n ensures id in Run(m, es[..n][..j], retention) {
        assert es[..n][..j] == es[..j];
      }
      TargetsOnlyAdvance(m, es[..n], retention, id, robot);
      StepSeenByTarget(Run(m, es[..n], retention), es[n], retention, id, robot);
    }
  }

  // ---- completion and retention ---------------------------------------------

  ghost predicate RetiredBy(es: seq<Event>, deadline: Time, j: int) {
    0 <= j < |es| && es[j].Swept? && es[j].now >= deadline
  }

  /**
   A completed command stays, frozen in every field, through every event until the first sweep at or
   after its completion plus the retention window; that sweep drops it.
   */
  lemma {:induction false} RetentionIsExact(m: Commands, es: seq<Event>, retention: Time, id: CommandId)
    requires WellFormed(m) && id in m && m[id].completedAt.Some?
    requires forall j :: !SubmitsAt(es, j, id)
    ensures var deadline := m[id].completedAt.value + retention;
      && (id in Run(m, es, retention) <==> forall j :: !RetiredBy(es, deadline, j))
      && (id in Run(m, es, retention) ==> Run(m, es, retention)[id] == m[id])
    decreases |es|
  {
    if es != [] {
      var n, deadline := |es| - 1, m[id].completedAt.value + retention;
      var pre, e := es[..n], es[n];
      forall j ensures !SubmitsAt(pre, j, id) {
        assert SubmitsAt(pre, j, id) ==> SubmitsAt(es, j, id);
      }
      RetentionIsExact(m, pre, retention, id);
      forall j | RetiredBy(pre, deadline, j) ensures RetiredBy(es, deadline, j) { }
      assert forall j :: RetiredBy(es, deadline, j) ==> j == n || RetiredBy(pre, deadline, j);
      assert !SubmitsAt(es, n, id);
      var before := Run(m, pre, retention);
      if id in before {
        CompletedStep(before, e, retention, id);
        assert RetiredBy(es, deadline, n) <==> id !in Step(before, e, retention);
      } else {
        if id in Step(before, e, retention) { StepOrigin(before, e, retention, id); }
        var j :| RetiredBy(pre, deadline, j);
        assert RetiredBy(es, deadline, j);
      }
    }
  }

  lemma CompletedStep(m: Commands, e: Event, retention: Time, id: CommandId)
    requires id in m && m[id].completedAt.Some? && Consistent(m[id])
    ensures var m' := Step(m, e, retention);
      && (id in m' <==> !(e.Swept? && e.now >= m[id].completedAt.value + retention))
      && (id in m' ==> m'[id] == m[id])
  {
    match e
    case Swept(now) => AgeConsistent(m[id], now);
    case Dispatched(i, r) => MarkConsistent(m[id], r);
    case Reported(result, now) => ReportConsistent(m[id], result, now);
    case _ =>
  }

  /** A step stamps a command exactly when it makes its last open target terminal, and with its own time. */
  lemma StepStamps(m: Commands, e: Event, retention: Time, id: CommandId)
    requires WellFormed(m) && id in m && id in Step(m, e, retention) && m[id].completedAt.None?
    ensures var tc := Step(m, e, retention)[id];
      tc.completedAt.Some? ==> !e.Dispatched? && tc.completedAt == Some(e.now)
  {
  }

  /**
   The completion stamp of a tracked command is the time of the one event of the run before which some target
   was open and from which on all targets are terminal.
   */
  lemma {:induction false} CompletionIsTheLastDecision(es: seq<Event>, retention: Time, k: int,
      id: CommandId) returns (i: int)
    requires FreshIds(es) && SubmitsAt(es, k, id)
    requires id in Run(map[], es, retention) && Run(map[], es, retention)[id].completedAt.Some?
    ensures k <= i < |es| && !es[i].Dispatched?
    ensures Run(map[], es, retention)[id].completedAt.value == es[i].now
    ensures forall j | k < j <= |es| :: SettledAt(es, retention, id, j) <==> i < j
    decreases |es|
  {
    hide MarkSent, Report, Sweep, FirstLost, InitialTargets;
    var n := |es| - 1;
    var pre, e := es[..n], es[n];
    var before := Run(map[], pre, retention);
    assert es[..|es|] == es;
    RunKeepsWellFormed(map[], es, retention);
    RunKeepsWellFormed(map[], pre, retention);
    var s := TrackedSinceSubmission(es, retention, id);
    assert s == k;
    if k == n {
      i := k;
      if id !in before { StepOrigin(before, e, retention, id); }
      else { var j := TrackedSinceSubmission(pre, retention, id); assert false; }
    } else {
      assert id in Run(map[], es[..n], retention);
      forall j | 0 <= j <= n ensures SettledAt(pre, retention, id, j) == SettledAt(es, retention, id, j) {
        assert pre[..j] == es[..j];
      }
      if before[id].completedAt.Some? {
        CompletedStep(before, e, retention, id);
        i := CompletionIsTheLastDecision(pre, retention, k, id);
      } else {
        StepStamps(before, e, retention, id);
        i := n;
        forall j | k < j <= n ensures !SettledAt(es, retention, id, j) {
          OpenUntil(pre, retention, k, id, j);
          assert pre[..j] == es[..j];
        }
      }
    }
  }

  /** After the first j events the command is tracked and all its targets are terminal. */
  ghost predicate SettledAt(es: seq<Event>, retention: Time, id: CommandId, j: int)
    requires 0 <= j <= |es|
  {
    var m := Run(map[], es[..j], retention);
    id in m && AllTerminal(m[id].targets)
  }

  /** A command still open at the end of a run was open at every earlier point. */
  lemma {:induction false} OpenUntil(es: seq<Event>, retention: Time, k: int, id: CommandId, j: int)
    requires FreshIds(es) && SubmitsAt(es, k, id) && k < j <= |es|
    requires id in Run(map[], es, retention) && Run(map[], es, retention)[id].completedAt.None?
    ensures id in Run(map[], es[..j], retention) && !AllTerminal(Run(map[], es[..j], retention)[id].targets)
    decreases |es|
  {
    hide Submit, MarkSent, Report, Sweep;
    assert es[..|es|] == es;
    RunKeepsWellFormed(map[], es, retention);
    if j < |es| {
      var n := |es| - 1;
      var before := Run(map[], es[..n], retention);
      RunKeepsWellFormed(map[], es[..n], retention);
      var s := TrackedSinceSubmission(es, retention, id);
      assert s == k && id in before;
      if before[id].completedAt.Some? { CompletedStep(before, es[n], retention, id); }
      assert es[..n][..j] == es[..j];
      OpenUntil(es[..n], retention, k, id, j);
    }
  }

  /** Every event that carries a time carries one no later than the limit. */
  predicate TimesUpTo(es: seq<Event>, limit: Time) {
    forall j | 0 <= j < |es| && !es[j].Dispatched? :: es[j].now <= limit
  }

  /** No completion stamp lies beyond the limit. */
  ghost predicate StampedBy(m: Commands, limit: Time) {
    forall id | id in m && m[id].completedAt.Some? :: m[id].completedAt.value <= limit
  }

  lemma StepStampedBy(m: Commands, e: Event, retention: Time, limit: Time)
    requires StampedBy(m, limit) && (e.Dispatched? || e.now <= limit)
    ensures StampedBy(Step(m, e, retention), limit)
  {
    var m' := Step(m, e, retention);
    forall id | id in m' && m'[id].completedAt.Some? ensures m'[id].completedAt.value <= limit {
      if id in m { assert m'[id].completedAt == m[id].completedAt || (!e.Dispatched? && m'[id].completedAt == Some(e.now)); }
    }
  }

  lemma {:induction false} StampsAreSeenTimes(m: Commands, es: seq<Event>, retention: Time, limit: Time)
    requires StampedBy(m, limit) && TimesUpTo(es, limit)
    ensures StampedBy(Run(m, es, retention), limit)
    decreases |es|
  {
    if es != [] {
      var n := |es| - 1;
      assert forall j | 0 <= j < n :: es[..n][j] == es[j];
      StampsAreSeenTimes(m, es[..n], retention, limit);
      StepStampedBy(Run(m, es[..n], retention), es[n], retention, limit);
    }
  }

  /** After a sweep at t, every tracked command is unfinished with a later expiry, or completed within the window. */
  lemma AfterSweep(m: Commands, now: Time, retention: Time, id: CommandId)
    requires WellFormed(m) && id in Sweep(m, now, retention)
    ensures var tc := Sweep(m, now, retention)[id];
      || (tc.completedAt.None? && !AllTerminal(tc.targets) && tc.expiry > now)
      || (tc.completedAt.Some? && AllTerminal(tc.targets) && tc.completedAt.value > now - retention)
  {
    AgeConsistent(m[id], now);
  }

  /**
   Bounded growth: a command in the map does not survive two sweeps, one at or after its expiry and one at
   least a retention window later, when the clock had not passed the first sweep's time before it.
   */
  lemma NothingOutlivesTwoSweeps(m: Commands, a: seq<Event>, t1: Time, b: seq<Event>, t2: Time, retention: Time,
      id: CommandId)
    requires WellFormed(m) && StampedBy(m, t1) && TimesUpTo(a, t1)
    requires id in m && t1 >= m[id].expiry && t2 >= t1 + retention
    requires forall j :: !SubmitsAt(a, j, id) && !SubmitsAt(b, j, id)
    ensures id !in Run(m, a + [Swept(t1)] + b + [Swept(t2)], retention)
  {
    var first := a + [Swept(t1)];
    var m1, rest := Run(m, first, retention), b + [Swept(t2)];
    assert first + b + [Swept(t2)] == first + rest;
    RunAppend(m, first, rest, retention);
    assert first[..|first| - 1] == a;
    RunKeepsWellFormed(m, first, retention);
    assert TimesUpTo(first, t1);
    StampsAreSeenTimes(m, first, retention, t1);
    forall j ensures !SubmitsAt(rest, j, id) {
      assert SubmitsAt(rest, j, id) ==> SubmitsAt(b, j, id);
    }
    if id in m1 {
      var before := Run(m, a, retention);
      SameIdentity(m, a, retention, id);
      RunKeepsWellFormed(m, a, retention);
      AfterSweep(before, t1, retention, id);
      RetentionIsExact(m1, rest, retention, id);
      assert RetiredBy(rest, m1[id].completedAt.value + retention, |b|);
    } else {
      NeverReturns(m1, rest, retention, id);
    }
  }

  /** Without a new submission, an id that is tracked keeps its expiry, and one that is gone stays gone. */
  lemma {:induction false} SameIdentity(m: Commands, es: seq<Event>, retention: Time, id: CommandId)
    requires id in m && forall j :: !SubmitsAt(es, j, id)
    ensures id in Run(m, es, retention) ==>
      Run(m, es, retention)[id].expiry == m[id].expiry && Run(m, es, retention)[id].payload == m[id].payload
    decreases |es|
  {
    if es != [] {
      var n := |es| - 1;
      forall j ensures !SubmitsAt(es[..n], j, id) {
        assert SubmitsAt(es[..n], j, id) ==> SubmitsAt(es, j, id);
      }
      SameIdentity(m, es[..n], retention, id);
      assert !SubmitsAt(es, n, id);
      var before := Run(m, es[..n], retention);
      if id in Step(before, es[n], retention) {
        if id !in before { StepOrigin(before, es[n], retention, id); }
        StepSeenByTarget(before, es[n], retention, id, "");
      }
    }
  }

  lemma {:induction false} NeverReturns(m: Commands, es: seq<Event>, retention: Time, id: CommandId)
    requires id !in m && forall j :: !SubmitsAt(es, j, id)
    ensures id !in Run(m, es, retention)
    decreases |es|
  {
    if es != [] {
      var n := |es| - 1;
      forall j ensures !SubmitsAt(es[..n], j, id) {
        assert SubmitsAt(es[..n], j, id) ==> SubmitsAt(es, j, id);
      }
      NeverReturns(m, es[..n], retention, id);
      assert !SubmitsAt(es, n, id);
      if id in Run(m, es, retention) {
        StepOrigin(Run(m, es[..n], retention), es[n], retention, id);
      }
    }
  }

  ghost predicate NoneExpired(m: Commands) {
    forall id, r | id in m && r in m[id].targets :: m[id].targets[r].state != Expired
  }

  /** Without a retention window, a command that a sweep keeps is one it does not change. */
  lemma {:induction false} AgeWithoutWindow(tc: TrackedCommand, now: Time, retention: Time)
    requires Consistent(tc) && retention <= 0 && !PastRetention(Age(tc, now), now, retention)
    ensures Age(tc, now) == tc
  {
    AgeConsistent(tc, now);
  }

  lemma {:induction false} StepWithoutWindow(m: Commands, e: Event, retention: Time)
    requires WellFormed(m) && NoneExpired(m) && retention <= 0
    ensures NoneExpired(Step(m, e, retention))
  {
    if e.Swept? {
      hide Age, Consistent, PastRetention;
      forall id | id in Step(m, e, retention) ensures Age(m[id], e.now) == m[id] {
        AgeWithoutWindow(m[id], e.now, retention);
      }
    } else {
      hide Sweep, Consistent;
    }
  }

  /** Without a retention window the sweep that expires a target drops its command, so none is ever seen EXPIRED. */
  lemma {:induction false} WithoutWindowNoneExpired(m: Commands, es: seq<Event>, retention: Time)
    requires WellFormed(m) && NoneExpired(m) && retention <= 0
    ensures NoneExpired(Run(m, es, retention))
    decreases |es|
  {
    if es != [] {
      var n := |es| - 1;
      WithoutWindowNoneExpired(m, es[..n], retention);
      RunKeepsWellFormed(m, es[..n], retention);
      StepWithoutWindow(Run(m, es[..n], retention), es[n], retention);
    }
  }
}
