/** The plain domain types shared by every organ of the C2 server and by the robots. */
module Domain {

  type RobotId = string
  type CommandId = string

  /** A clock reading, or a difference of two, in nanoseconds. */
  type Time = int

  const NANOS_PER_MILLI := 1000000

  datatype Point = Point(x: real, y: real)

  datatype Option<+T> = None | Some(value: T)

  /** The zero or one elements held by an optional slot, as a sequence. */
  function Held<T>(o: Option<T>): seq<T> {
    match o
    case None => []
    case Some(x) => [x]
  }

  function Or<T>(o: Option<T>, default: T): T {
    match o
    case None => default
    case Some(x) => x
  }

  /** A partial parameter change: only the fields present are applied. */
  datatype SetParameters = SetParameters(
    speed: Option<real>,
    radius: Option<real>,
    centerX: Option<real>,
    centerY: Option<real>,
    theta: Option<real>)

  /** What the server sends to one vehicle. */
  datatype RobotCommand = RobotCommand(
    commandId: CommandId,
    timestamp: Time,
    expiry: Time,
    robotId: RobotId,
    payload: SetParameters)

  /** What the operator sends to the server: possibly many targets. */
  datatype OperatorCommand = OperatorCommand(
    commandId: CommandId,
    timestamp: Time,
    expiry: Time,
    targets: seq<RobotId>,
    payload: SetParameters)

  datatype ResultCode = ResultUnspecified | ResultApplied | ResultRejected

  datatype CommandResult = CommandResult(
    commandId: CommandId,
    robotId: RobotId,
    result: ResultCode,
    detail: string)

  datatype Telemetry = Telemetry(
    robotId: RobotId,
    seqNo: nat,
    timestamp: Time,
    x: real,
    y: real,
    heading: real,
    speed: real,
    radius: real)

  /** No element occurs twice. */
  ghost predicate Distinct<T(!new)>(s: seq<T>) {
    forall i, j | 0 <= i < j < |s| :: s[i] != s[j]
  }
}
