/**
 Link health, evaluated lazily from the last receive time, and the event-driven automaton with timers that it
 must agree with.
 */
module LinkWatchdog {
  import opened Domain

  datatype Health = Live | Stale | Lost

  datatype LinkHealth = LinkHealth(status: Health, ageMs: int)

  /** Both thresholds are whole milliseconds. */
  datatype Thresholds = Thresholds(staleAfter: int, lostAfter: int)

  /** Conversion to coarser units drops the fraction, toward zero on both sides. */
  function ToMillis(d: Time): int {
    if d >= 0 then d / NANOS_PER_MILLI else -(-d / NANOS_PER_MILLI)
  }

  function Band(th: Thresholds, ageMs: int): Health {
    if ageMs >= th.lostAfter then Lost
    else if ageMs >= th.staleAfter then Stale
    else Live
  }

  type Receipts = map<RobotId, Time>

  function ClassifyAt(th: Thresholds, lastRx: Receipts, id: RobotId, now: Time): LinkHealth {
    if id !in lastRx then LinkHealth(Lost, -1)
    else
      var age := ToMillis(now - lastRx[id]);
      LinkHealth(Band(th, age), age)
  }

  class Watchdog {
    const thresholds: Thresholds
    var lastRx: Receipts

    constructor (thresholds: Thresholds)
      ensures lastRx == map[] && this.thresholds == thresholds
    {
      this.thresholds := thresholds;
      lastRx := map[];
    }

    method Record(id: RobotId, now: Time)
      modifies this
      ensures lastRx == old(lastRx)[id := now]
    {
      lastRx := lastRx[id := now];
    }

    method Classify(id: RobotId, now: Time) returns (health: LinkHealth)
      ensures health == ClassifyAt(thresholds, lastRx, id, now)
    {
      if id !in lastRx { return LinkHealth(Lost, -1); }
      var age := ToMillis(now - lastRx[id]);
      var status;
      if age >= thresholds.lostAfter {
        status := Lost;
      } else if age >= thresholds.staleAfter {
        status := Stale;
      } else {
        status := Live;
      }
      return LinkHealth(status, age);
    }
  }

  // ---- truncation -----------------------------------------------------------

  /** The truncated age reaches the threshold exactly when the age itself does. */
  predicate ThresholdExact(thresholdMs: int, d: Time) {
    ToMillis(d) >= thresholdMs <==> d >= thresholdMs * NANOS_PER_MILLI
  }

  /** Truncation to milliseconds never moves a threshold, for every age, if and only if it is positive. */
  lemma TruncationMovesNoPositiveThreshold(thresholdMs: int)
    ensures thresholdMs > 0 <==> forall d: Time :: ThresholdExact(thresholdMs, d)
  {
    if thresholdMs <= 0 {
      assert !ThresholdExact(thresholdMs, thresholdMs * NANOS_PER_MILLI - 1);
    }
  }

  lemma ElapsedIsExact(thresholdMs: int, d: Time)
    requires d >= 0
    ensures ThresholdExact(thresholdMs, d)
  {
  }

  /** The bands are half-open: reaching a threshold enters the next state. */
  lemma BandsAreHalfOpen(th: Thresholds, lastRx: Receipts, id: RobotId, now: Time)
    requires 0 < th.staleAfter <= th.lostAfter && id in lastRx
    ensures var status, age := ClassifyAt(th, lastRx, id, now).status, now - lastRx[id];
      && (status == Live <==> age < th.staleAfter * NANOS_PER_MILLI)
      && (status == Stale <==> th.staleAfter * NANOS_PER_MILLI <= age < th.lostAfter * NANOS_PER_MILLI)
      && (status == Lost <==> th.lostAfter * NANOS_PER_MILLI <= age)
  {
    TruncationMovesNoPositiveThreshold(th.staleAfter);
    TruncationMovesNoPositiveThreshold(th.lostAfter);
    assert ThresholdExact(th.staleAfter, now - lastRx[id]) && ThresholdExact(th.lostAfter, now - lastRx[id]);
  }

  // ---- the eager automaton --------------------------------------------------

  /** A state and two armed timers. */
  datatype Timed = Timed(status: Health, staleAt: Time, lostAt: Time)

  /** A receipt makes the link live and arms both timers afresh. */
  function Arm(th: Thresholds, at: Time): Timed {
    Timed(Live, at + th.staleAfter * NANOS_PER_MILLI, at + th.lostAfter * NANOS_PER_MILLI)
  }

  function FireStale(a: Timed, now: Time): Timed {
    if a.status == Live && now >= a.staleAt then a.(status := Stale) else a
  }

  function FireLost(a: Timed, now: Time): Timed {
    if now >= a.lostAt then a.(status := Lost) else a
  }

  /** The clock reaches a time: every timer that is due fires. */
  function Tick(a: Timed, now: Time): Timed { FireLost(FireStale(a, now), now) }

  datatype Event = Received(id: RobotId, at: Time) | Clock(at: Time)

  type Automata = map<RobotId, Timed>

  function TickAll(m: Automata, now: Time): Automata { map id | id in m :: Tick(m[id], now) }

  /** A receipt moves the clock as well; a robot never heard from has no automaton. */
  function EagerRun(th: Thresholds, es: seq<Event>): Automata {
    if es == [] then map[]
    else
      var before := EagerRun(th, es[..|es| - 1]);
      match es[|es| - 1]
      case Clock(at) => TickAll(before, at)
      case Received(id, at) => TickAll(before, at)[id := Arm(th, at)]
  }

  function LazyRun(es: seq<Event>): Receipts {
    if es == [] then map[]
    else
      var before := LazyRun(es[..|es| - 1]);
      match es[|es| - 1]
      case Clock(_) => before
      case Received(id, at) => before[id := at]
  }

  ghost predicate Nondecreasing(es: seq<Event>) {
    forall i, j | 0 <= i < j < |es| :: es[i].at <= es[j].at
  }

  function EagerStatus(m: Automata, id: RobotId): Health {
    if id in m then m[id].status else Lost
  }

  /** What the automaton of a robot last heard at r shows once the clock has reached now. */
  ghost predicate Tracks(th: Thresholds, a: Timed, r: Time, now: Time) {
    && r <= now
    && a.staleAt == r + th.staleAfter * NANOS_PER_MILLI && a.lostAt == r + th.lostAfter * NANOS_PER_MILLI
    && (a.status == Lost ==> now >= a.lostAt)
    && (a.status == Stale ==> now >= a.staleAt)
  }

  lemma TickShowsBand(th: Thresholds, a: Timed, r: Time, was: Time, now: Time)
    requires Tracks(th, a, r, was) && was <= now
    ensures Tracks(th, Tick(a, now), r, now)
    ensures Tick(a, now).status == Band(th, ToMillis(now - r))
  {
    ElapsedIsExact(th.staleAfter, now - r);
    ElapsedIsExact(th.lostAfter, now - r);
  }

  lemma {:induction false} RunsTrack(th: Thresholds, es: seq<Event>, now: Time)
    requires Nondecreasing(es) && (es != [] ==> es[|es| - 1].at <= now)
    ensures EagerRun(th, es).Keys == LazyRun(es).Keys
    ensures forall id | id in EagerRun(th, es) :: Tracks(th, EagerRun(th, es)[id], LazyRun(es)[id], now)
    decreases |es|
  {
    if es != [] {
      var n := |es| - 1;
      var at := es[n].at;
      RunsTrack(th, es[..n], at);
      var before, heard := EagerRun(th, es[..n]), LazyRun(es[..n]);
      forall id | id in before ensures Tracks(th, Tick(before[id], at), heard[id], at) {
        TickShowsBand(th, before[id], heard[id], at, at);
      }
    }
  }

  /**
   Lazy equals eager: after any run of receipts and clock readings in nondecreasing time, the stateless
   classification at a later time is the state the timer automaton holds once the clock has reached it.
   */
  lemma LazyEqualsEager(th: Thresholds, es: seq<Event>, id: RobotId, now: Time)
    requires Nondecreasing(es) && (es != [] ==> es[|es| - 1].at <= now)
    ensures ClassifyAt(th, LazyRun(es), id, now).status == EagerStatus(EagerRun(th, es + [Clock(now)]), id)
  {
    var after := es + [Clock(now)];
    assert after[..|es|] == es;
    RunsTrack(th, es, now);
    if id in LazyRun(es) {
      TickShowsBand(th, EagerRun(th, es)[id], LazyRun(es)[id], now, now);
    }
  }

  function Severity(h: Health): nat {
    match h
    case Live => 0
    case Stale => 1
    case Lost => 2
  }

  predicate HearsFrom(es: seq<Event>, id: RobotId) {
    exists e :: e in es && e.Received? && e.id == id
  }

  /** The robot was last heard at event k. */
  ghost predicate LastHeard(es: seq<Event>, id: RobotId, k: int) {
    && 0 <= k < |es| && es[k].Received? && es[k].id == id
    && forall j | k < j < |es| :: !(es[j].Received? && es[j].id == id)
  }

  lemma {:induction false} LazyHoldsLastHeard(es: seq<Event>, id: RobotId)
    ensures id in LazyRun(es) <==> HearsFrom(es, id)
    ensures forall k | LastHeard(es, id, k) :: id in LazyRun(es) && LazyRun(es)[id] == es[k].at
    decreases |es|
  {
    if es != [] {
      var n := |es| - 1;
      var pre, e := es[..n], es[n];
      LazyHoldsLastHeard(pre, id);
      assert es == pre + [e];
      if e.Received? && e.id == id { assert e in es; }
      forall k | LastHeard(es, id, k) ensures id in LazyRun(es) && LazyRun(es)[id] == es[k].at {
        if k < n {
          assert !(es[n].Received? && es[n].id == id);
          assert LastHeard(pre, id, k);
        }
      }
    }
  }

  /**
   The age reported with the status: after any run, the whole milliseconds since the robot was last heard, the fraction
   dropped toward zero on both sides.
   */
  lemma {:induction false} AgeIsTimeSinceLastHeard(th: Thresholds, es: seq<Event>, id: RobotId, k: int, now: Time)
    requires LastHeard(es, id, k)
    ensures var d, ms := now - es[k].at, ClassifyAt(th, LazyRun(es), id, now).ageMs;
      && (d >= 0 ==> ms * NANOS_PER_MILLI <= d < (ms + 1) * NANOS_PER_MILLI)
      && (d <= 0 ==> (ms - 1) * NANOS_PER_MILLI < d <= ms * NANOS_PER_MILLI)
  {
    LazyHoldsLastHeard(es, id);
  }

  /** A robot never heard is LOST, with age -1, at every clock reading. */
  lemma {:induction false} NeverHeardIsLost(th: Thresholds, es: seq<Event>, id: RobotId, now: Time)
    requires !HearsFrom(es, id)
    ensures ClassifyAt(th, LazyRun(es), id, now) == LinkHealth(Lost, -1)
  {
    LazyHoldsLastHeard(es, id);
  }

  /** Without a new receipt from the robot its status only gets worse, whatever other robots send. */
  lemma {:induction false} StatusOnlyDegrades(th: Thresholds, es: seq<Event>, more: seq<Event>, id: RobotId,
      t1: Time, t2: Time)
    requires !HearsFrom(more, id) && t1 <= t2
    ensures Severity(ClassifyAt(th, LazyRun(es), id, t1).status)
         <= Severity(ClassifyAt(th, LazyRun(es + more), id, t2).status)
    decreases |more|
  {
    if more == [] {
      assert es + more == es;
      if id in LazyRun(es) { MillisMonotone(t1 - LazyRun(es)[id], t2 - LazyRun(es)[id]); }
    } else {
      var n := |more| - 1;
      assert (es + more)[..|es + more| - 1] == es + more[..n];
      assert more[n] in more;
      StatusOnlyDegrades(th, es, more[..n], id, t1, t2);
    }
  }

  lemma MillisMonotone(a: Time, b: Time)
    requires a <= b
    ensures ToMillis(a) <= ToMillis(b)
  {
  }
}
