/** What every reachable state of the whole command path promises to an operator looking at a frame. */
module EndToEnd {
  import opened Domain
  import opened OutgoingLink
  import opened Motion
  import opened RobotLink
  import opened CommandPath
  import TS = TrackerSpec
  import TH = TrackerHistory
  import AU = Audit
  import WI = Wire

  // ---- what a shown state means ---------------------------------------------

  /** The robot's j-th processing on the link ran applyParams on this command and payload, with this verdict. */
  ghost predicate Did(links: map<nat, Link>, i: nat, j: nat, id: CommandId, robot: RobotId, payload: SetParameters,
      ok: bool) {
    && i in links && links[i].name == robot && j < |links[i].log|
    && var p := links[i].log[j];
       && p.cmd.commandId == id && p.cmd.robotId == robot && p.cmd.payload == payload
       && p.before.radius != 0.0 && (p.ok, p.after) == ApplyParams(p.before, payload, p.at) && p.ok == ok
  }

  /** The watchdog gave the same answer at every mention of the robot, as it does when it is mentioned once. */
  ghost predicate AnswersAgree(s: State, id: CommandId, robot: RobotId) {
    id in s.submitted && var sub := s.submitted[id];
      forall i, j | 0 <= i < |sub.cmd.targets| && 0 <= j < |sub.cmd.targets|
        && sub.cmd.targets[i] == robot && sub.cmd.targets[j] == robot ::
        TS.LostAt(sub.answers, i) == TS.LostAt(sub.answers, j)
  }

  /** What the server shows of one target, read back into what happened. */
  ghost predicate Justified(s: State, id: CommandId, robot: RobotId, payload: SetParameters, ts: TS.TargetState) {
    match ts.state
    case Applied => exists i: nat, j: nat :: Did(s.links, i, j, id, robot, payload, true)
    case Rejected => exists i: nat, j: nat :: Did(s.links, i, j, id, robot, payload, false)
    case Sent => Handed(s.links, id, robot)
    case RobotOffline => AnswersAgree(s, id, robot) ==> forall i: nat, j: nat :: !AcceptedAt(s.links, i, j, id, robot)
    case _ => true
  }

  /** A verdict a result reports is the verdict of a processing of the very command that was submitted. */
  lemma {:induction false} BackedMeansDid(s: State, r: CommandResult, retention: Time) returns (i: nat, j: nat)
    requires Inv(s, retention) && Backed(s.links, r)
    ensures r.commandId in s.submitted
    ensures Did(s.links, i, j, r.commandId, r.robotId, s.submitted[r.commandId].cmd.payload, r.result == ResultApplied)
    ensures (r.result == ResultApplied || r.result == ResultRejected) && r.detail == ""
  {
    hide PumpInv, UpInv, GreetInv, RestsInv, MarksInv, FramesInv, SubmissionsInv, TrackerInv, SendersInv, ApplyParams;
    i, j :| ProcessedAt(s.links, i, j, r);
    var l := s.links[i];
    assert LinkInv(l) && LinkLegit(l, s.submitted);
    assert EntryOk(l.log[j]);
    assert Commands(l.log)[j] == l.transmitted[j] == l.pump.accepted[j];
    assert l.log[j].cmd in l.pump.accepted;
  }

  /** A target called lost at every mention is never handed to any link of its robot. */
  lemma {:induction false} OfflineNeverAccepted(s: State, id: CommandId, robot: RobotId, retention: Time)
    requires Inv(s, retention) && id in s.submitted
    requires !TS.SomeOnline(s.submitted[id].cmd.targets, s.submitted[id].answers, robot)
    ensures forall i: nat, j: nat :: !AcceptedAt(s.links, i, j, id, robot)
  {
    hide LinkInv, RestsInv, MarksInv, FramesInv, SubmissionsInv, TrackerInv, SendersInv;
    forall i: nat, j: nat ensures !AcceptedAt(s.links, i, j, id, robot) {
      if i in s.links { assert LinkLegit(s.links[i], s.submitted); }
    }
  }

  /** What the tracker holds after any prefix of its run is justified by what has happened. */
  lemma {:induction false} PrefixJustified(s: State, retention: Time, n: nat, id: CommandId, robot: RobotId)
    requires Inv(s, retention) && n <= |s.events|
    requires var m := TS.Run(map[], s.events[..n], retention); id in m && robot in m[id].targets
    ensures var tc := TS.Run(map[], s.events[..n], retention)[id];
      Justified(s, id, robot, tc.payload, tc.targets[robot])
  {
    hide LinksInv, RegistryInv, SendersInv, RoutingInv, MarksInv, FramesInv, TrackerInv, Handed, Backed, TS.Run;
    var es := s.events[..n];
    assert forall k | 0 <= k < n :: es[k] == s.events[k];
    var tc := TS.Run(map[], es, retention)[id];
    var ts := tc.targets[robot];
    var k := TH.TrackedSinceSubmission(es, retention, id);
    TH.TargetsExplainedByHistory(es, retention, k, id, robot);
    assert RecordedAt(s.events[k], s.submitted);
    if TS.FirstLost(es[k].cmd.targets, es[k].answers, robot) {
      if AnswersAgree(s, id, robot) { OfflineNeverAccepted(s, id, robot, retention); }
    } else if TH.Undecided(es, k, id, robot, tc.expiry) {
      if TH.MarkedAfter(es, k, id, robot) {
        var j :| 0 <= k < j < |es| && es[j] == TS.Dispatched(id, robot);
        assert EventRests(s.events[j], s.links);
      }
    } else {
      var d := TH.LeastDecision(es, k, id, robot, tc.expiry);
      if es[d].Reported? {
        assert EventRests(s.events[d], s.links);
        var i, j := BackedMeansDid(s, es[d].result, retention);
      }
    }
  }

  /**
   End-to-end soundness, for every reachable state, every frame ever shown and every interleaving: a target shown
   APPLIED was really applied by that robot, with success, for that command id and payload; one shown REJECTED was
   refused with the motion unchanged; one shown SENT was accepted by a link of that robot; and one shown
   ROBOT_OFFLINE was never handed to it, if the watchdog's answers for it agree.
   */
  lemma {:induction false} FramesAreTrue(states: seq<State>, actions: seq<Action>, retention: Time, n: nat,
                                         f: TS.Commands, id: CommandId, robot: RobotId)
    requires IsRun(states, actions, retention) && n < |states|
    requires f in states[n].frames && id in f && robot in f[id].targets
    ensures Justified(states[n], id, robot, f[id].payload, f[id].targets[robot])
    ensures id in states[n].submitted && f[id].payload == states[n].submitted[id].cmd.payload
  {
    hide LinksInv, RegistryInv, SendersInv, RoutingInv, RestsInv, MarksInv, Justified, TS.Run, TS.Step, Next, Enabled;
    InvAt(states, actions, retention, n);
    var s := states[n];
    var p: nat :| IsPrefixRun(f, s.events, p, retention);
    PrefixJustified(s, retention, p, id, robot);
    var k := TH.TrackedSinceSubmission(s.events[..p], retention, id);
    assert forall j | 0 <= j < p :: s.events[..p][j] == s.events[j];
    TH.TargetsExplainedByHistory(s.events[..p], retention, k, id, robot);
    assert RecordedAt(s.events[k], s.submitted);
  }

  /** A target shown ROBOT_OFFLINE was never handed to its robot, if it is listed once or the answers for it agree. */
  lemma {:induction false} OfflineNeverHanded(states: seq<State>, actions: seq<Action>, retention: Time, n: nat,
                                              f: TS.Commands, id: CommandId, robot: RobotId)
    requires IsRun(states, actions, retention) && n < |states|
    requires f in states[n].frames && id in f && robot in f[id].targets && f[id].targets[robot].state == TS.RobotOffline
    requires id in states[n].submitted
    requires Distinct(states[n].submitted[id].cmd.targets) || AnswersAgree(states[n], id, robot)
    ensures forall i: nat, j: nat :: !AcceptedAt(states[n].links, i, j, id, robot)
  {
    hide Next, Enabled, AcceptedAt;
    FramesAreTrue(states, actions, retention, n, f, id, robot);
  }

  /** A refused command leaves the robot's motion exactly as it was. */
  lemma {:induction false} RejectedChangesNothing(s: State, i: nat, j: nat, id: CommandId, robot: RobotId,
      payload: SetParameters)
    requires Did(s.links, i, j, id, robot, payload, false)
    ensures s.links[i].log[j].after == s.links[i].log[j].before && Refused(payload)
  {
  }

  /**
   The client's audit log inherits the promise: an entry that shows APPLIED or REJECTED for a target tells what the
   robot did.
   */
  lemma {:induction false} AuditIsTrue(s: State, retention: Time, e: AU.AuditEntry, frames: seq<WI.SwarmState>,
      at: seq<nat>,
                                       k: int, robot: RobotId)
    requires Inv(s, retention) && TH.SubmitsAt(s.events, k, e.commandId)
    requires e.targets == s.events[k].cmd.targets && e.outcomes == AU.AllPending(e.targets)
    requires AU.FramesOfRun(frames, at, s.events, retention) && robot in e.targets
    ensures var final := AU.Follow(e, AU.Arrivals(frames)).outcomes;
      robot in final && Justified(s, e.commandId, robot, s.events[k].cmd.payload, TS.TargetState(final[robot], ""))
  {
    hide LinksInv, RegistryInv, SendersInv, RoutingInv, RestsInv, MarksInv, FramesInv, TrackerInv, TS.Run, TS.Step,
         AU.Follow, Justified, AU.FramesOfRun;
    AU.EntryShowsLastListing(e, frames, at, s.events, retention, k);
    var final := AU.Follow(e, AU.Arrivals(frames)).outcomes;
    if exists i :: AU.ListedAt(at, s.events, retention, e.commandId, i) {
      var i := LastListing(at, s.events, retention, e.commandId);
      var tc := TS.Run(map[], s.events[..at[i]], retention)[e.commandId];
      assert final == AU.StatesOf(tc.targets);
      PrefixJustified(s, retention, at[i], e.commandId, robot);
      PayloadOfSubmission(s.events, at[i], retention, k, e.commandId);
      JustifiedByState(s, e.commandId, robot, tc.payload, tc.targets[robot]);
    } else {
      PendingIsJustified(s, e.commandId, robot, s.events[k].cmd.payload);
    }
  }

  lemma {:induction false} JustifiedByState(s: State, id: CommandId, robot: RobotId, payload: SetParameters,
      ts: TS.TargetState)
    requires Justified(s, id, robot, payload, ts)
    ensures Justified(s, id, robot, payload, TS.TargetState(ts.state, ""))
  {
    hide Did, Handed, AcceptedAt;
  }

  lemma {:induction false} PendingIsJustified(s: State, id: CommandId, robot: RobotId, payload: SetParameters)
    ensures Justified(s, id, robot, payload, TS.PENDING_AT_BIRTH)
  {
    hide Did, Handed, AcceptedAt;
  }

  lemma {:induction false} PayloadOfSubmission(es: seq<TS.Event>, n: nat, retention: Time, k: int, id: CommandId)
    requires n <= |es| && TS.FreshIds(es) && TH.SubmitsAt(es, k, id) && id in TS.Run(map[], es[..n], retention)
    ensures TS.Run(map[], es[..n], retention)[id].payload == es[k].cmd.payload
  {
    hide TS.Run;
    assert forall j | 0 <= j < n :: es[..n][j] == es[j];
    var j := TH.TrackedSinceSubmission(es[..n], retention, id);
    TH.TargetsExplainedByHistory(es[..n], retention, j, id, "");
  }

  lemma {:induction false} LastListing(at: seq<nat>, es: seq<TS.Event>, retention: Time, id: CommandId) returns (i: int)
    requires exists j :: AU.ListedAt(at, es, retention, id, j)
    ensures AU.LastListed(at, es, retention, id, i)
  {
    hide TS.Run;
    i :| AU.ListedAt(at, es, retention, id, i);
    while exists j :: i < j < |at| && AU.ListedAt(at, es, retention, id, j)
      invariant AU.ListedAt(at, es, retention, id, i)
      decreases |at| - i
    {
      var j :| i < j < |at| && AU.ListedAt(at, es, retention, id, j);
      i := j;
    }
  }

  // ---- the robots' motion ---------------------------------------------------

  function DrivenBy(log: seq<Processed>): (r: seq<Motion.Command>)
    ensures |r| == |log| && forall i | 0 <= i < |log| :: r[i] == Motion.Command(log[i].cmd.payload, log[i].at)
  {
    seq(|log|, i requires 0 <= i < |log| => Motion.Command(log[i].cmd.payload, log[i].at))
  }

  lemma {:induction false} LogDrives(birth: MotionState, log: seq<Processed>)
    requires birth.radius != 0.0
    requires forall i | 0 <= i < |log| :: EntryOk(log[i]) && log[i].before == MotionAfter(birth, log[..i])
    ensures MotionAfter(birth, log) == Drive(birth, DrivenBy(log))
    decreases |log|
  {
    hide ApplyParams;
    if log != [] {
      var n := |log| - 1;
      assert forall i | 0 <= i < n :: log[..n][..i] == log[..i];
      LogDrives(birth, log[..n]);
      assert DrivenBy(log)[..n] == DrivenBy(log[..n]);
      assert EntryOk(log[n]);
    }
  }

  /**
   In every reachable state each robot's phase, if its commands gave no theta, is its initial theta plus its angular
   rate integrated over the commands it has processed; and its radius is positive if it began positive.
   */
  lemma {:induction false} RobotPhaseIsIntegral(states: seq<State>, actions: seq<Action>, retention: Time, n: nat,
                                                link: nat, now: Time)
    requires IsRun(states, actions, retention) && n < |states| && link in states[n].links
    requires states[n].links[link].birth.radius > 0.0 && ThetaFree(DrivenBy(states[n].links[link].log))
    ensures var l := states[n].links[link];
      && l.motion.radius > 0.0
      && Motion.Phase(l.motion, now) == l.birth.theta0 + AngleTurned(l.birth, DrivenBy(l.log), now)
  {
    hide RegistryInv, SendersInv, RoutingInv, RestsInv, MarksInv, FramesInv, SubmissionsInv, TrackerInv, Next, Enabled,
         DownInv, UpInv, GreetInv, Motion.Phase, AngleTurned, ApplyParams, Drive, ThetaFree;
    InvAt(states, actions, retention, n);
    var l := states[n].links[link];
    assert LinkInv(l);
    LogDrives(l.birth, l.log);
    PhaseIsIntegral(l.birth, DrivenBy(l.log), now);
  }

  /**
   In every reachable state each robot's speed, radius and centre are those of the last command it processed that gives
   them and was not refused, or those it began with; and every theta it accepted became its theta0.
   */
  lemma {:induction false} RobotParametersAreLastGiven(states: seq<State>, actions: seq<Action>, retention: Time,
      n: nat,
                                                       link: nat, p: Parameter)
    requires IsRun(states, actions, retention) && n < |states| && link in states[n].links
    ensures var l := states[n].links[link];
      && (forall k | LastToGive(DrivenBy(l.log), p, k) ::
            Current(l.motion, p) == Given(l.log[k].cmd.payload, p).value)
      && (NoneGives(DrivenBy(l.log), p) ==> Current(l.motion, p) == Current(l.birth, p))
    ensures forall j, theta | 0 <= j < |states[n].links[link].log| ::
      var e := states[n].links[link].log[j];
      e.cmd.payload.theta == Some(theta) ==> e.after.theta0 == if Refused(e.cmd.payload) then e.before.theta0 else theta
  {
    hide RegistryInv, SendersInv, RoutingInv, RestsInv, MarksInv, FramesInv, SubmissionsInv, TrackerInv, Next, Enabled,
         DownInv, UpInv, GreetInv, ApplyParams, Drive, NoneGives, Current, Given;
    InvAt(states, actions, retention, n);
    var l := states[n].links[link];
    assert LinkInv(l);
    assert l.birth.radius != 0.0 by {
      if l.log != [] { assert EntryOk(l.log[0]) && l.log[..0] == []; }
    }
    LogDrives(l.birth, l.log);
    ParametersAreLastGiven(l.birth, DrivenBy(l.log), p);
    forall j, theta | 0 <= j < |l.log| && l.log[j].cmd.payload.theta == Some(theta)
      ensures l.log[j].after.theta0 == if Refused(l.log[j].cmd.payload) then l.log[j].before.theta0 else theta
    {
      ThetaIsSet(l.log[j].before, l.log[j].cmd.payload, l.log[j].at);
    }
  }
}
