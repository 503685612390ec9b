/** The frames the server streams to its clients. */
module Wire {
  import opened Domain
  import opened TrackerSpec

  datatype LinkStatus = LinkUnspecified | LinkLive | LinkStale | LinkLost

  datatype RobotState = RobotState(telemetry: Telemetry, linkStatus: LinkStatus, ageMs: int)

  datatype TargetStatus = TargetStatus(robotId: RobotId, state: CommandState, detail: string)

  datatype CommandStatus = CommandStatus(commandId: CommandId, targets: seq<TargetStatus>)

  datatype SwarmState = SwarmState(robots: seq<RobotState>, commands: seq<CommandStatus>)

  /** The status lists each tracked target once, in any order, with its state and detail. */
  ghost predicate ShowsTargets(ts: seq<TargetStatus>, targets: map<RobotId, TargetState>) {
    && (forall i | 0 <= i < |ts| ::
          ts[i].robotId in targets && TargetState(ts[i].state, ts[i].detail) == targets[ts[i].robotId])
    && (forall i, j | 0 <= i < j < |ts| :: ts[i].robotId != ts[j].robotId)
    && forall r | r in targets :: exists i :: 0 <= i < |ts| && ts[i].robotId == r
  }

  /** The frame lists each tracked command once, in any order. */
  ghost predicate ShowsCommands(cs: seq<CommandStatus>, m: Commands) {
    && (forall i | 0 <= i < |cs| :: cs[i].commandId in m && ShowsTargets(cs[i].targets, m[cs[i].commandId].targets))
    && (forall i, j | 0 <= i < j < |cs| :: cs[i].commandId != cs[j].commandId)
    && forall id | id in m :: exists i :: 0 <= i < |cs| && cs[i].commandId == id
  }
}
