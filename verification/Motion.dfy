/**
 The circular motion model: the robot's own, the client's fake simulator's, and the dead reckoning the map draws
 for a robot whose link is down. Real arithmetic; cosine and sine are any functions with the quarter-turn identities.
 */
module Motion {
  import opened Domain

  const NANOS_PER_SECOND := 1000000000.0

  function Seconds(d: Time): real { d as real / NANOS_PER_SECOND }

  datatype MotionState = MotionState(cx: real, cy: real, radius: real, speed: real, theta0: real, start: Time)

  /** Angular rate. */
  function Omega(m: MotionState): real
    requires m.radius != 0.0
  {
    m.speed / m.radius
  }

  /** Angular position on the circle at a time. */
  function Phase(m: MotionState, now: Time): real
    requires m.radius != 0.0
  {
    Omega(m) * Seconds(now - m.start) + m.theta0
  }

  predicate Refused(sp: SetParameters) { sp.radius.Some? && sp.radius.value <= 0.0 }

  /** Refuse a radius that is not positive; else apply the fields present, keeping the phase unless theta is given. */
  function ApplyParams(m: MotionState, sp: SetParameters, now: Time): (r: (bool, MotionState))
    requires m.radius != 0.0
    ensures r.1.radius != 0.0
    ensures m.radius > 0.0 ==> r.1.radius > 0.0
  {
    if Refused(sp) then (false, m)
    else
      var rebased :=
        if (sp.radius.Some? || sp.speed.Some?) && sp.theta.None? then m.(theta0 := Phase(m, now), start := now) else m;
      (true, MotionState(
         Or(sp.centerX, rebased.cx), Or(sp.centerY, rebased.cy), Or(sp.radius, rebased.radius),
         Or(sp.speed, rebased.speed), Or(sp.theta, rebased.theta0), rebased.start))
  }

  /** The robot's motion state, changed in place by the thread that reads commands. */
  class RobotMotion {
    var cx: real
    var cy: real
    var radius: real
    var speed: real
    var theta0: real
    var start: Time

    function Value(): MotionState
      reads this
    {
      MotionState(cx, cy, radius, speed, theta0, start)
    }

    constructor (m: MotionState)
      ensures Value() == m
    {
      cx, cy, radius, speed, theta0, start := m.cx, m.cy, m.radius, m.speed, m.theta0, m.start;
    }

    method Apply(sp: SetParameters, now: Time) returns (applied: bool)
      requires radius != 0.0
      modifies this
      ensures (applied, Value()) == ApplyParams(old(Value()), sp, now)
    {
      if sp.radius.Some? && sp.radius.value <= 0.0 { return false; }
      if (sp.radius.Some? || sp.speed.Some?) && sp.theta.None? {
        var t := Seconds(now - start);
        var phi := speed / radius * t + theta0;
        start := now;
        theta0 := phi;
      }
      if sp.centerX.Some? { cx := sp.centerX.value; }
      if sp.centerY.Some? { cy := sp.centerY.value; }
      if sp.radius.Some? { radius := sp.radius.value; }
      if sp.speed.Some? { speed := sp.speed.value; }
      if sp.theta.Some? { theta0 := sp.theta.value; }
      return true;
    }
  }

  // ---- runs of commands -----------------------------------------------------

  datatype Command = Command(params: SetParameters, at: Time)

  function Drive(m: MotionState, cs: seq<Command>): (r: MotionState)
    requires m.radius != 0.0
    ensures r.radius != 0.0 && (m.radius > 0.0 ==> r.radius > 0.0)
  {
    if cs == [] then m
    else
      var last := cs[|cs| - 1];
      ApplyParams(Drive(m, cs[..|cs| - 1]), last.params, last.at).1
  }

  ghost predicate ThetaFree(cs: seq<Command>) {
    forall i | 0 <= i < |cs| :: cs[i].params.theta.None?
  }

  /** The angular rate integrated over the run: each segment's rate times its length, the last segment ending now. */
  function AngleTurned(m: MotionState, cs: seq<Command>, now: Time): real
    requires m.radius != 0.0
    decreases |cs|
  {
    if cs == [] then Omega(m) * Seconds(now - m.start)
    else
      var last := cs[|cs| - 1];
      AngleTurned(m, cs[..|cs| - 1], last.at) + Omega(Drive(m, cs)) * Seconds(now - last.at)
  }

  lemma SecondsSplit(a: Time, b: Time, c: Time)
    ensures Seconds(b - a) + Seconds(c - b) == Seconds(c - a)
  {
    assert (b - a) as real + (c - b) as real == (c - a) as real;
  }

  lemma TurnSplit(omega: real, a: Time, b: Time, c: Time)
    ensures omega * Seconds(b - a) + omega * Seconds(c - b) == omega * Seconds(c - a)
  {
    SecondsSplit(a, b, c);
  }

  /** One theta-free command keeps the phase at its own instant, and from then on turns at the new rate. */
  lemma ApplyKeepsPhase(m: MotionState, sp: SetParameters, at: Time, now: Time)
    requires m.radius != 0.0 && sp.theta.None?
    ensures var after := ApplyParams(m, sp, at).1;
      && Phase(after, at) == Phase(m, at)
      && Phase(after, now) == Phase(m, at) + Omega(after) * Seconds(now - at)
  {
    var after := ApplyParams(m, sp, at).1;
    assert Seconds(at - at) == 0.0;
    if after.start != at {
      assert Omega(after) == Omega(m) && after.start == m.start && after.theta0 == m.theta0;
    }
    if after.start == m.start && Omega(after) == Omega(m) {
      TurnSplit(Omega(m), m.start, at, now);
    }
  }

  lemma PhaseStep(m: MotionState, sp: SetParameters, at: Time, now: Time, turned: real)
    requires m.radius != 0.0 && sp.theta.None? && Phase(m, at) == turned
    ensures var after := ApplyParams(m, sp, at).1;
      Phase(after, now) == turned + Omega(after) * Seconds(now - at)
  {
    ApplyKeepsPhase(m, sp, at, now);
  }

  /**
   The phase is an integral: over any run of theta-free commands, refused ones included, it is the initial theta
   plus the sum over segments of V/R times the segment's length. So it never jumps.
   */
  lemma {:induction false} PhaseIsIntegral(m: MotionState, cs: seq<Command>, now: Time)
    requires m.radius != 0.0 && ThetaFree(cs)
    ensures Phase(Drive(m, cs), now) == m.theta0 + AngleTurned(m, cs, now)
    decreases |cs|
  {
    if cs != [] {
      var n := |cs| - 1;
      var last := cs[n];
      PhaseIsIntegral(m, cs[..n], last.at);
      PhaseStep(Drive(m, cs[..n]), last.params, last.at, now, m.theta0 + AngleTurned(m, cs[..n], last.at));
    }
  }

  /**
   A command that gives theta sets the phase to theta plus the turn the new rate would have made since the last
   re-basing: to theta itself if and only if the robot is commanded to stand still or no time has passed since.
   */
  lemma ThetaCommandPhase(m: MotionState, sp: SetParameters, at: Time)
    requires m.radius != 0.0 && sp.theta.Some? && !Refused(sp)
    ensures var after := ApplyParams(m, sp, at).1;
      && Phase(after, at) == sp.theta.value + Omega(after) * Seconds(at - m.start)
      && (Phase(after, at) == sp.theta.value <==> after.speed == 0.0 || at == m.start)
  {
    var after := ApplyParams(m, sp, at).1;
    var s := Seconds(at - m.start);
    assert after.start == m.start && after.theta0 == sp.theta.value;
    assert s == 0.0 <==> at == m.start;
    ZeroQuotient(after.speed, after.radius);
    ZeroProduct(Omega(after), s);
  }

  lemma ZeroQuotient(a: real, b: real)
    requires b != 0.0
    ensures a / b == 0.0 <==> a == 0.0
  {
    assert a / b * b == a;
  }

  lemma ZeroProduct(a: real, b: real)
    ensures a * b == 0.0 <==> a == 0.0 || b == 0.0
  {
    if a * b == 0.0 && b != 0.0 { assert a == a * b / b; }
  }

  // ---- every parameter --------------------------------------------------------

  datatype Parameter = Speed | Radius | CenterX | CenterY

  function Given(sp: SetParameters, p: Parameter): Option<real> {
    match p
    case Speed => sp.speed
    case Radius => sp.radius
    case CenterX => sp.centerX
    case CenterY => sp.centerY
  }

  function Current(m: MotionState, p: Parameter): real {
    match p
    case Speed => m.speed
    case Radius => m.radius
    case CenterX => m.cx
    case CenterY => m.cy
  }

  /** Command k is the last of the run that gives the parameter and is not refused. */
  ghost predicate LastToGive(cs: seq<Command>, p: Parameter, k: int) {
    && 0 <= k < |cs| && !Refused(cs[k].params) && Given(cs[k].params, p).Some?
    && forall j | k < j < |cs| :: Refused(cs[j].params) || Given(cs[j].params, p).None?
  }

  ghost predicate NoneGives(cs: seq<Command>, p: Parameter) {
    forall k | 0 <= k < |cs| :: Refused(cs[k].params) || Given(cs[k].params, p).None?
  }

  lemma {:induction false} ApplySets(m: MotionState, sp: SetParameters, at: Time, p: Parameter)
    requires m.radius != 0.0
    ensures var (ok, after) := ApplyParams(m, sp, at);
      && ok == !Refused(sp)
      && Current(after, p) == (if Refused(sp) then Current(m, p) else Or(Given(sp, p), Current(m, p)))
  {
  }

  /**
   For any run of commands, with theta or without: speed, radius and centre are each the value given by the last command
   that gives it and is not refused, and the initial value if none does.
   */
  lemma {:induction false} ParametersAreLastGiven(m: MotionState, cs: seq<Command>, p: Parameter)
    requires m.radius != 0.0
    ensures forall k | LastToGive(cs, p, k) :: Current(Drive(m, cs), p) == Given(cs[k].params, p).value
    ensures NoneGives(cs, p) ==> Current(Drive(m, cs), p) == Current(m, p)
    decreases |cs|
  {
    hide ApplyParams, Held, Given;
    if cs != [] {
      var n := |cs| - 1;
      var pre, last := cs[..n], cs[n];
      assert forall i | 0 <= i < n :: pre[i] == cs[i];
      ParametersAreLastGiven(m, pre, p);
      ApplySets(Drive(m, pre), last.params, last.at, p);
      forall k | LastToGive(cs, p, k) ensures Current(Drive(m, cs), p) == Given(cs[k].params, p).value {
        if k < n { assert LastToGive(pre, p, k); }
      }
    }
  }

  /** A command that gives theta sets theta0 to it, and no refused command does. */
  lemma {:induction false} ThetaIsSet(m: MotionState, sp: SetParameters, at: Time)
    requires m.radius != 0.0 && sp.theta.Some?
    ensures ApplyParams(m, sp, at).1.theta0 == if Refused(sp) then m.theta0 else sp.theta.value
    ensures ApplyParams(m, sp, at).1.start == m.start
  {
  }

  // ---- the fake simulator ---------------------------------------------------

  /** The fake simulator's robot keeps no start time; its phase counts from the simulator's own start. */
  datatype FakeRobot = FakeRobot(cx: real, cy: real, radius: real, speed: real, theta0: real)

  function FakePhase(f: FakeRobot, elapsed: real): real
    requires f.radius != 0.0
  {
    f.speed / f.radius * elapsed + f.theta0
  }

  /** It never refuses: a radius that is not positive is skipped, the other fields still apply. */
  function FakeApply(f: FakeRobot, sp: SetParameters, elapsed: real): (r: FakeRobot)
    requires f.radius != 0.0
    ensures r.radius != 0.0
  {
    var phiOld := FakePhase(f, elapsed);
    var radius := if sp.radius.Some? && sp.radius.value > 0.0 then sp.radius.value else f.radius;
    var speed := Or(sp.speed, f.speed);
    var theta0 := match sp.theta
      case Some(theta) => theta
      case None => phiOld - speed / radius * elapsed;
    FakeRobot(Or(sp.centerX, f.cx), Or(sp.centerY, f.cy), radius, speed, theta0)
  }

  function FakeDrive(f: FakeRobot, cs: seq<Command>, epoch: Time): (r: FakeRobot)
    requires f.radius != 0.0
    ensures r.radius != 0.0
  {
    if cs == [] then f
    else
      var last := cs[|cs| - 1];
      FakeApply(FakeDrive(f, cs[..|cs| - 1], epoch), last.params, Seconds(last.at - epoch))
  }

  class FakeOrbiter {
    var cx: real
    var cy: real
    var radius: real
    var speed: real
    var theta0: real

    function Value(): FakeRobot
      reads this
    {
      FakeRobot(cx, cy, radius, speed, theta0)
    }

    constructor (f: FakeRobot)
      ensures Value() == f
    {
      cx, cy, radius, speed, theta0 := f.cx, f.cy, f.radius, f.speed, f.theta0;
    }

    method Apply(sp: SetParameters, elapsed: real)
      requires radius != 0.0
      modifies this
      ensures Value() == FakeApply(old(Value()), sp, elapsed)
    {
      var phiOld := speed / radius * elapsed + theta0;
      if sp.centerX.Some? { cx := sp.centerX.value; }
      if sp.centerY.Some? { cy := sp.centerY.value; }
      if sp.radius.Some? && sp.radius.value > 0.0 { radius := sp.radius.value; }
      if sp.speed.Some? { speed := sp.speed.value; }
      if sp.theta.Some? {
        theta0 := sp.theta.value;
      } else {
        theta0 := phiOld - speed / radius * elapsed;
      }
    }
  }

  /** The two robots are on the same circle, turn at the same rate and are at the same angle, at every time. */
  ghost predicate SameMotion(m: MotionState, f: FakeRobot, epoch: Time) {
    && m.radius != 0.0 && f.cx == m.cx && f.cy == m.cy && f.radius == m.radius && f.speed == m.speed
    && forall now: Time :: FakePhase(f, Seconds(now - epoch)) == Phase(m, now)
  }

  lemma {:induction false} FakeApplyAgrees(m: MotionState, f: FakeRobot, sp: SetParameters, at: Time, epoch: Time)
    requires SameMotion(m, f, epoch) && sp.theta.None? && !Refused(sp)
    ensures SameMotion(ApplyParams(m, sp, at).1, FakeApply(f, sp, Seconds(at - epoch)), epoch)
  {
    var m', f' := ApplyParams(m, sp, at).1, FakeApply(f, sp, Seconds(at - epoch));
    forall now: Time ensures FakePhase(f', Seconds(now - epoch)) == Phase(m', now) {
      ApplyKeepsPhase(m, sp, at, now);
      TurnSplit(Omega(m'), epoch, at, now);
      assert FakePhase(f, Seconds(at - epoch)) == Phase(m, at);
      assert Omega(m') == f'.speed / f'.radius;
    }
  }

  /** The two re-basing schemes agree at all times, for theta-free commands whose radius, if given, is positive. */
  lemma {:induction false} FakeSimulatorAgrees(m: MotionState, f: FakeRobot, cs: seq<Command>, epoch: Time)
    requires SameMotion(m, f, epoch) && ThetaFree(cs)
    requires forall i | 0 <= i < |cs| :: !Refused(cs[i].params)
    ensures SameMotion(Drive(m, cs), FakeDrive(f, cs, epoch), epoch)
    decreases |cs|
  {
    if cs != [] {
      var n := |cs| - 1;
      FakeSimulatorAgrees(m, f, cs[..n], epoch);
      FakeApplyAgrees(Drive(m, cs[..n]), FakeDrive(f, cs[..n], epoch), cs[n].params, cs[n].at, epoch);
    }
  }

  /**
   On a refused command they agree exactly when the command, apart from its radius, changes nothing: the robot
   ignores all of it, the fake simulator only the radius.
   */
  lemma {:induction false} FakeSimulatorOnRefusal(m: MotionState, f: FakeRobot, sp: SetParameters, at: Time,
      epoch: Time)
    requires SameMotion(m, f, epoch) && sp.theta.None? && Refused(sp)
    ensures ApplyParams(m, sp, at) == (false, m)
    ensures SameMotion(m, FakeApply(f, sp, Seconds(at - epoch)), epoch) <==>
      Or(sp.centerX, m.cx) == m.cx && Or(sp.centerY, m.cy) == m.cy && Or(sp.speed, m.speed) == m.speed
  {
    var f' := FakeApply(f, sp, Seconds(at - epoch));
    var turned := f.speed / f.radius * Seconds(at - epoch);
    if f'.speed == f.speed {
      assert f'.theta0 == turned + f.theta0 - turned;
    }
  }

  /**
   A command that gives theta: both take it as their theta0, but the robot counts on from its last re-basing and the fake
   from its own start. So they agree afterwards exactly when the robot was never re-based or is told to stand still.
   */
  lemma {:induction false} FakeSimulatorOnTheta(m: MotionState, f: FakeRobot, sp: SetParameters, at: Time, epoch: Time)
    requires SameMotion(m, f, epoch) && sp.theta.Some? && !Refused(sp)
    ensures FakeApply(f, sp, Seconds(at - epoch)).theta0 == sp.theta.value
    ensures var m' := ApplyParams(m, sp, at).1;
      SameMotion(m', FakeApply(f, sp, Seconds(at - epoch)), epoch) <==> m.start == epoch || m'.speed == 0.0
  {
    hide SameMotion;
    SameCircle(m, f, epoch);
    var m', f' := ApplyParams(m, sp, at).1, FakeApply(f, sp, Seconds(at - epoch));
    var omega, gap := Omega(m'), Seconds(m.start - epoch);
    assert f' == FakeRobot(m'.cx, m'.cy, m'.radius, m'.speed, m'.theta0) && m'.start == m.start;
    assert gap == 0.0 <==> m.start == epoch;
    ZeroQuotient(m'.speed, m'.radius);
    ZeroProduct(omega, gap);
    forall now: Time ensures FakePhase(f', Seconds(now - epoch)) == Phase(m', now) + omega * gap {
      TurnSplit(omega, epoch, m.start, now);
    }
    SameMotionIff(m', f', epoch, omega * gap);
  }

  lemma {:induction false} SameCircle(m: MotionState, f: FakeRobot, epoch: Time)
    requires SameMotion(m, f, epoch)
    ensures m.radius != 0.0 && f.cx == m.cx && f.cy == m.cy && f.radius == m.radius && f.speed == m.speed
  {
  }

  lemma {:induction false} SameMotionIff(m: MotionState, f: FakeRobot, epoch: Time, ahead: real)
    requires m.radius != 0.0 && f.cx == m.cx && f.cy == m.cy && f.radius == m.radius && f.speed == m.speed
    requires forall now: Time :: FakePhase(f, Seconds(now - epoch)) == Phase(m, now) + ahead
    ensures SameMotion(m, f, epoch) <==> ahead == 0.0
  {
    hide FakePhase, Phase;
    assert FakePhase(f, Seconds(epoch - epoch)) == Phase(m, epoch) + ahead;
  }

  // ---- positions and dead reckoning -----------------------------------------

  /** Cosine, sine and the quarter turn, in whatever unit. */
  datatype Trig = Trig(cos: real -> real, sin: real -> real, quarter: real)

  predicate QuarterTurnAt(t: Trig, a: real) {
    t.sin(a + t.quarter) == t.cos(a) && t.cos(a + t.quarter) == -t.sin(a)
  }

  ghost predicate QuarterTurn(t: Trig) {
    forall a: real :: QuarterTurnAt(t, a)
  }

  datatype Fix = Fix(x: real, y: real, heading: real)

  function ComputePosition(t: Trig, m: MotionState, now: Time): Fix
    requires m.radius != 0.0
  {
    var phi := Phase(m, now);
    Fix(m.cx + m.radius * t.cos(phi), m.cy + m.radius * t.sin(phi), phi + t.quarter)
  }

  /**
   Where a robot is after any run of theta-free commands: on the circle last given, at its initial theta plus the angular
   rate integrated over the run, heading a quarter turn ahead.
   */
  lemma {:induction false} PositionAfterRun(t: Trig, m: MotionState, cs: seq<Command>, now: Time)
    requires m.radius != 0.0 && ThetaFree(cs)
    ensures var d, phi := Drive(m, cs), m.theta0 + AngleTurned(m, cs, now);
      ComputePosition(t, d, now) == Fix(Current(d, CenterX) + Current(d, Radius) * t.cos(phi),
                                        Current(d, CenterY) + Current(d, Radius) * t.sin(phi), phi + t.quarter)
  {
    hide Drive, AngleTurned;
    PhaseIsIntegral(m, cs, now);
  }

  /** The centre of the circle a telemetry sample lies on. */
  function OrbitCenter(t: Trig, x: real, y: real, radius: real, heading: real): Point {
    Point(x - radius * t.sin(heading), y + radius * t.cos(heading))
  }

  /** The last known phase, advanced by the known angular rate over the age. */
  function GhostPhase(t: Trig, sample: Telemetry, ageMs: int): real {
    var omega := if sample.radius > 0.0 then sample.speed / sample.radius else 0.0;
    sample.heading - t.quarter + omega * (ageMs as real / 1000.0)
  }

  /** Where the map draws a robot whose last telemetry is ageMs old. */
  function GhostPosition(t: Trig, sample: Telemetry, ageMs: int): Point {
    var c := OrbitCenter(t, sample.x, sample.y, sample.radius, sample.heading);
    var phi := GhostPhase(t, sample, ageMs);
    Point(c.x + sample.radius * t.cos(phi), c.y + sample.radius * t.sin(phi))
  }

  /** The sample carries what the motion model computes at the time. */
  ghost predicate SampleOf(t: Trig, m: MotionState, at: Time, s: Telemetry)
    requires m.radius != 0.0
  {
    ComputePosition(t, m, at) == Fix(s.x, s.y, s.heading) && s.speed == m.speed && s.radius == m.radius
  }

  lemma StepBack(c: real, radius: real, k: real)
    ensures c + radius * k - radius * k == c
    ensures c + radius * k + radius * -k == c
  {
    assert radius * -k == -(radius * k);
  }

  lemma CenterIsRecovered(t: Trig, m: MotionState, at: Time, s: Telemetry)
    requires QuarterTurn(t) && m.radius != 0.0 && SampleOf(t, m, at, s)
    ensures OrbitCenter(t, s.x, s.y, s.radius, s.heading) == Point(m.cx, m.cy)
  {
    var phi := Phase(m, at);
    assert QuarterTurnAt(t, phi);
    assert s.heading == phi + t.quarter;
    assert t.sin(s.heading) == t.cos(phi) && t.cos(s.heading) == -t.sin(phi);
    StepBack(m.cx, m.radius, t.cos(phi));
    StepBack(m.cy, m.radius, t.sin(phi));
    assert s.x == m.cx + m.radius * t.cos(phi) && s.y == m.cy + m.radius * t.sin(phi);
    assert s.radius * t.sin(s.heading) == m.radius * t.cos(phi);
    assert s.radius * t.cos(s.heading) == m.radius * -t.sin(phi);
  }

  /** Advancing the phase at the angular rate for ageMs gives the phase ageMs later. */
  lemma DrawnPhase(m: MotionState, at: Time, ageMs: int)
    requires m.radius != 0.0
    ensures Phase(m, at) + m.speed / m.radius * (ageMs as real / 1000.0) == Phase(m, at + ageMs * NANOS_PER_MILLI)
  {
    var afterwards := at + ageMs * NANOS_PER_MILLI;
    assert Seconds(afterwards - at) == ageMs as real / 1000.0 by {
      assert (ageMs * 1000000) as real == ageMs as real * 1000000.0;
    }
    TurnSplit(Omega(m), m.start, at, afterwards);
  }

  /** Dead reckoning is exact: the ghost is where the robot itself would be, ageMs later, under unchanged parameters. */
  lemma DeadReckoningIsExact(t: Trig, m: MotionState, at: Time, s: Telemetry, ageMs: int)
    requires QuarterTurn(t) && m.radius > 0.0 && SampleOf(t, m, at, s)
    ensures var later := ComputePosition(t, m, at + ageMs * NANOS_PER_MILLI);
      GhostPosition(t, s, ageMs) == Point(later.x, later.y)
  {
    CenterIsRecovered(t, m, at, s);
    DrawnPhase(m, at, ageMs);
    GhostUnfolds(t, s, ageMs, Point(m.cx, m.cy), Phase(m, at), Phase(m, at + ageMs * NANOS_PER_MILLI));
  }

  /** Without a positive radius there is no circle to follow: the ghost stays at the last sample, whatever its age. */
  lemma {:induction false} GhostStandsStill(t: Trig, s: Telemetry, ageMs: int)
    requires QuarterTurn(t) && s.radius <= 0.0
    ensures GhostPosition(t, s, ageMs) == Point(s.x, s.y)
  {
    var a := s.heading - t.quarter;
    assert QuarterTurnAt(t, a) && a + t.quarter == s.heading;
    assert GhostPhase(t, s, ageMs) == a by { assert 0.0 * (ageMs as real / 1000.0) == 0.0; }
    StepBack(s.x, -s.radius, t.cos(a));
    StepBack(s.y, -s.radius, t.sin(a));
    assert -s.radius * t.cos(a) == -(s.radius * t.cos(a)) && -s.radius * t.sin(a) == -(s.radius * t.sin(a));
    assert s.radius * -t.sin(a) == -(s.radius * t.sin(a));
  }

  lemma GhostUnfolds(t: Trig, s: Telemetry, ageMs: int, c: Point, phi: real, later: real)
    requires s.radius > 0.0 && s.heading == phi + t.quarter
    requires OrbitCenter(t, s.x, s.y, s.radius, s.heading) == c
    requires phi + s.speed / s.radius * (ageMs as real / 1000.0) == later
    ensures GhostPosition(t, s, ageMs) == Point(c.x + s.radius * t.cos(later), c.y + s.radius * t.sin(later))
  {
    assert GhostPhase(t, s, ageMs) == later;
  }
}
