/**
 The command tracker as a value: a map from command id to its tracked record, and one function
 for each region the tracker executes under its mutex.
 */
module TrackerSpec {
  import opened Domain

  datatype CommandState = Pending | Sent | Applied | Rejected | Expired | RobotOffline

  datatype TargetState = TargetState(state: CommandState, detail: string)

  datatype TrackedCommand = TrackedCommand(
    commandId: CommandId,
    expiry: Time,
    payload: SetParameters,
    targets: map<RobotId, TargetState>,
    completedAt: Option<Time>)

  type Commands = map<CommandId, TrackedCommand>

  const OFFLINE_AT_BIRTH := TargetState(RobotOffline, "offline at dispatch")
  const PENDING_AT_BIRTH := TargetState(Pending, "")
  const EXPIRED_BY_SWEEP := TargetState(Expired, "expired")

  predicate IsTerminal(s: CommandState) {
    s == Applied || s == Rejected || s == Expired || s == RobotOffline
  }

  predicate AllTerminal(targets: map<RobotId, TargetState>) {
    forall r | r in targets :: IsTerminal(targets[r].state)
  }

  // ---- one target -----------------------------------------------------------

  function MarkTarget(ts: TargetState): TargetState {
    if ts.state == Pending then ts.(state := Sent) else ts
  }

  function ReportTarget(ts: TargetState, result: CommandResult): TargetState {
    if IsTerminal(ts.state) then ts
    else match result.result
      case ResultApplied => ts.(state := Applied)
      case ResultRejected => TargetState(Rejected, result.detail)
      case ResultUnspecified => ts
  }

  function ExpireTarget(ts: TargetState): TargetState {
    if ts.state == Pending || ts.state == Sent then EXPIRED_BY_SWEEP else ts
  }

  // ---- one command ----------------------------------------------------------

  /** Stamp the completion time the first time every target is terminal. */
  function RefreshCompletion(tc: TrackedCommand, now: Time): TrackedCommand {
    if tc.completedAt.None? && AllTerminal(tc.targets) then tc.(completedAt := Some(now)) else tc
  }

  /** What the watchdog answered when asked whether the i-th listed target is lost; it is asked once for each mention. */
  predicate LostAt(answers: seq<bool>, i: nat) { i < |answers| && answers[i] }

  /** The robot was called lost at its first mention. */
  predicate FirstLost(targets: seq<RobotId>, answers: seq<bool>, robot: RobotId) {
    exists i :: 0 <= i < |targets| && targets[i] == robot && robot !in targets[..i] && LostAt(answers, i)
  }

  /** The robot was not called lost at some mention. */
  predicate SomeOnline(targets: seq<RobotId>, answers: seq<bool>, robot: RobotId) {
    exists i :: 0 <= i < |targets| && targets[i] == robot && !LostAt(answers, i)
  }

  /** The first mention of a robot decides its state. */
  function InitialTargets(targets: seq<RobotId>, answers: seq<bool>): map<RobotId, TargetState> {
    map r | r in targets :: if FirstLost(targets, answers, r) then OFFLINE_AT_BIRTH else PENDING_AT_BIRTH
  }

  function Birth(cmd: OperatorCommand, answers: seq<bool>, now: Time): TrackedCommand {
    RefreshCompletion(
      TrackedCommand(cmd.commandId, cmd.expiry, cmd.payload, InitialTargets(cmd.targets, answers), None),
      now)
  }

  function ExpireTargets(targets: map<RobotId, TargetState>): map<RobotId, TargetState> {
    map r | r in targets :: ExpireTarget(targets[r])
  }

  function Age(tc: TrackedCommand, now: Time): TrackedCommand {
    if now < tc.expiry then tc
    else RefreshCompletion(tc.(targets := ExpireTargets(tc.targets)), now)
  }

  function MarkCommand(tc: TrackedCommand, robot: RobotId): TrackedCommand {
    if robot in tc.targets then tc.(targets := tc.targets[robot := MarkTarget(tc.targets[robot])]) else tc
  }

  /** A late result changes nothing, not even the completion stamp. */
  function ReportCommand(tc: TrackedCommand, result: CommandResult, now: Time): TrackedCommand {
    if result.robotId in tc.targets && !IsTerminal(tc.targets[result.robotId].state) then
      var ts := ReportTarget(tc.targets[result.robotId], result);
      RefreshCompletion(tc.(targets := tc.targets[result.robotId := ts]), now)
    else tc
  }

  predicate PastRetention(tc: TrackedCommand, now: Time, retention: Time) {
    tc.completedAt.Some? && now - tc.completedAt.value >= retention
  }

  // ---- the whole map --------------------------------------------------------

  /** A repeated id keeps the entry already there. */
  function Submit(m: Commands, cmd: OperatorCommand, answers: seq<bool>, now: Time): Commands {
    if cmd.commandId in m then m else m[cmd.commandId := Birth(cmd, answers, now)]
  }

  function CommandFor(cmd: OperatorCommand, robot: RobotId): RobotCommand {
    RobotCommand(cmd.commandId, cmd.timestamp, cmd.expiry, robot, cmd.payload)
  }

  /** The per-robot commands to dispatch: one for each mention of a target not called lost, in order. */
  function FanOut(cmd: OperatorCommand, targets: seq<RobotId>, answers: seq<bool>): seq<RobotCommand> {
    if targets == [] then []
    else
      var n := |targets| - 1;
      FanOut(cmd, targets[..n], answers) + if LostAt(answers, n) then [] else [CommandFor(cmd, targets[n])]
  }

  function MarkSent(m: Commands, id: CommandId, robot: RobotId): Commands {
    if id in m then m[id := MarkCommand(m[id], robot)] else m
  }

  function Report(m: Commands, result: CommandResult, now: Time): Commands {
    if result.commandId in m then m[result.commandId := ReportCommand(m[result.commandId], result, now)] else m
  }

  function Sweep(m: Commands, now: Time, retention: Time): Commands {
    map id | id in m && !PastRetention(Age(m[id], now), now, retention) :: Age(m[id], now)
  }

  // ---- runs -----------------------------------------------------------------

  /** The four regions executed under the tracker's mutex that change it. */
  datatype Event =
    | Submitted(cmd: OperatorCommand, answers: seq<bool>, now: Time)
    | Dispatched(id: CommandId, robot: RobotId)
    | Reported(result: CommandResult, now: Time)
    | Swept(now: Time)

  function Step(m: Commands, e: Event, retention: Time): Commands {
    match e
    case Submitted(cmd, answers, now) => Submit(m, cmd, answers, now)
    case Dispatched(id, robot) => MarkSent(m, id, robot)
    case Reported(result, now) => Report(m, result, now)
    case Swept(now) => Sweep(m, now, retention)
  }

  function Run(m: Commands, es: seq<Event>, retention: Time): Commands {
    if es == [] then m
    else Step(Run(m, es[..|es| - 1], retention), es[|es| - 1], retention)
  }

  /** No two submissions of a run carry the same command id. */
  ghost predicate FreshIds(es: seq<Event>) {
    forall i, j | 0 <= i < j < |es| && es[i].Submitted? && es[j].Submitted? ::
      es[i].cmd.commandId != es[j].cmd.commandId
  }

  lemma {:induction false} RunAppend(m: Commands, a: seq<Event>, b: seq<Event>, retention: Time)
    ensures Run(m, a + b, retention) == Run(Run(m, a, retention), b, retention)
    decreases |b|
  {
    if b == [] {
      assert a + b == a;
    } else {
      var n := |b| - 1;
      assert (a + b)[..|a + b| - 1] == a + b[..n];
      RunAppend(m, a, b[..n], retention);
    }
  }

  lemma RunSnoc(m: Commands, es: seq<Event>, e: Event, retention: Time)
    ensures Run(m, es + [e], retention) == Step(Run(m, es, retention), e, retention)
  {
    assert (es + [e])[..|es|] == es;
  }
}
