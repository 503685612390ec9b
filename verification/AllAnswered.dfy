/**
 The other half of end-to-end truth: what a robot did is shown. Once a link is quiet, every command it accepted shows the
 robot's verdict, for as long as the command is tracked and no sweep has come at or after its expiry.
 */
module AllAnswered {
  import opened Domain
  import opened OutgoingLink
  import opened RobotGateway
  import opened Motion
  import opened RobotLink
  import opened CommandPath
  import opened EndToEnd
  import TS = TrackerSpec
  import TH = TrackerHistory

  // ---- every result delivered is an event of the tracker --------------------

  ghost predicate ReportedIn(events: seq<TS.Event>, r: CommandResult) {
    exists k :: 0 <= k < |events| && events[k].Reported? && events[k].result == r
  }

  ghost predicate DeliveredTold(links: map<nat, Link>, events: seq<TS.Event>) {
    forall i | i in links :: LinkTold(links[i], events)
  }

  ghost predicate LinkTold(l: Link, events: seq<TS.Event>) {
    forall r | r in l.delivered :: ReportedIn(events, r)
  }

  ghost predicate SubmittedIn(events: seq<TS.Event>, n: int, id: CommandId) {
    exists k :: k < n && TH.SubmitsAt(events, k, id)
  }

  ghost predicate SubmissionsTold(submitted: map<CommandId, Submission>, events: seq<TS.Event>) {
    forall id | id in submitted :: SubmittedIn(events, |events|, id)
  }

  /** No command is marked sent, and no result reported, before the command was submitted. */
  ghost predicate EventsFollow(events: seq<TS.Event>) {
    && (forall k | 0 <= k < |events| && events[k].Reported? :: SubmittedIn(events, k, events[k].result.commandId))
    && forall k | 0 <= k < |events| && events[k].Dispatched? :: SubmittedIn(events, k, events[k].id)
  }

  ghost predicate Told(s: State) {
    DeliveredTold(s.links, s.events) && SubmissionsTold(s.submitted, s.events) && EventsFollow(s.events)
  }

  lemma {:induction false} ToldGrows(s: State, e: TS.Event)
    requires Told(s) && (e.Reported? ==> e.result.commandId in s.submitted) && (e.Dispatched? ==> e.id in s.submitted)
    ensures Told(s.(events := s.events + [e])) && (e.Reported? ==> ReportedIn(s.events + [e], e.result))
  {
    var more := s.events + [e];
    assert forall k | 0 <= k < |s.events| :: more[k] == s.events[k];
    forall id, n | n <= |s.events| && SubmittedIn(s.events, n, id) ensures SubmittedIn(more, n, id) {
      var k :| k < n && TH.SubmitsAt(s.events, k, id);
      assert TH.SubmitsAt(more, k, id);
    }
    forall id | id in s.submitted ensures SubmittedIn(more, |more|, id) {
      var k :| k < |s.events| && TH.SubmitsAt(s.events, k, id);
      assert TH.SubmitsAt(more, k, id);
    }
    forall i, r | i in s.links && r in s.links[i].delivered ensures ReportedIn(more, r) {
      assert LinkTold(s.links[i], s.events);
      var k :| 0 <= k < |s.events| && s.events[k].Reported? && s.events[k].result == r;
      assert more[k].result == r;
    }
    assert more[|s.events|] == e;
    if e.Reported? { assert SubmittedIn(s.events, |s.events|, e.result.commandId); }
    if e.Dispatched? { assert SubmittedIn(s.events, |s.events|, e.id); }
  }

  lemma {:induction false} SubmitKeepsTold(s: State, a: Action, retention: Time)
    requires a.SubmitCommand? && Enabled(s, a) && Told(s)
    ensures Told(Next(s, a, retention))
  {
    hide TS.Step, TS.FanOut;
    var e := TS.Submitted(a.cmd, a.answers, a.now);
    ToldGrows(s, e);
    assert TH.SubmitsAt(s.events + [e], |s.events|, a.cmd.commandId);
    assert SubmittedIn(s.events + [e], |s.events| + 1, a.cmd.commandId);
  }

  lemma {:induction false} DeliverKeepsTold(s: State, link: nat, now: Time, retention: Time)
    requires Inv(s, retention) && Enabled(s, Deliver(link, now)) && Told(s)
    ensures Told(Next(s, Deliver(link, now), retention))
  {
    hide TS.Step, RegistryInv, SendersInv, RoutingInv, RestsInv, MarksInv, FramesInv, SubmissionsInv, TrackerInv,
         DownInv, LogInv, UpInv, GreetInv, EventsFollow, SubmissionsTold, ReportedIn, Did;
    var l := s.links[link];
    assert LinkInv(l) && LinkTold(l, s.events);
    if l.incoming.value.ResultUp? {
      var r := l.incoming.value.result;
      HandleResult(l);
      assert ProcessedAt(s.links, link, |l.delivered|, r);
      var i, j := BackedMeansDid(s, r, retention);
      ToldGrows(s, TS.Reported(r, now));
    }
  }

  lemma {:induction false} StepKeepsTold(s: State, a: Action, retention: Time)
    requires Inv(s, retention) && Enabled(s, a) && Told(s)
    ensures Told(Next(s, a, retention))
  {
    hide Inv, Told;
    match a
    case SubmitCommand(_, _, _, _) => SubmitKeepsTold(s, a, retention);
    case Deliver(link, now) => DeliverKeepsTold(s, link, now, retention);
    case MarkSent(_) => QuietEventKeepsTold(s, a, retention);
    case Sweep(_) => QuietEventKeepsTold(s, a, retention);
    case _ => NoEventKeepsTold(s, a, retention);
  }

  lemma {:induction false} QuietEventKeepsTold(s: State, a: Action, retention: Time)
    requires (a.MarkSent? || a.Sweep?) && Inv(s, retention) && Enabled(s, a) && Told(s)
    ensures Told(Next(s, a, retention))
  {
    hide TS.Step, DeliveredTold, SubmissionsTold, EventsFollow, LinksInv, RegistryInv, RoutingInv, RestsInv, MarksInv,
         FramesInv, SubmissionsInv, TrackerInv;
    if a.Sweep? {
      ToldGrows(s, TS.Swept(a.now));
    } else {
      var mark := s.senders[a.thread].mark.value;
      assert SenderLegit(s.senders[a.thread], s.submitted) && Legit(mark, s.submitted);
      ToldGrows(s, TS.Dispatched(mark.commandId, mark.robotId));
    }
  }

  lemma {:induction false} LinkKeepsDelivered(l: Link, a: LinkAction)
    requires LinkEnabled(l, a)
    ensures LinkNext(l, a).delivered == l.delivered
  {
    hide ApplyParams, WriteDone;
  }

  lemma {:induction false} NoEventKeepsTold(s: State, a: Action, retention: Time)
    requires a.Dispatch? || a.Connect? || a.OnLink? || a.Register? || a.Unregister? || a.Delete? || a.Snapshot?
    requires Enabled(s, a) && Told(s)
    ensures Told(Next(s, a, retention))
  {
    hide SubmissionsTold, EventsFollow, ReportedIn, Enqueue, LinkNext, LinkEnabled;
    var s' := Next(s, a, retention);
    if a.OnLink? { LinkKeepsDelivered(s.links[a.link], a.a); }
    assert s'.events == s.events && s'.submitted == s.submitted;
    forall i | i in s'.links ensures LinkTold(s'.links[i], s.events) {
      if i in s.links { assert s'.links[i].delivered == s.links[i].delivered; }
    }
  }

  lemma {:induction false} ToldAt(states: seq<State>, actions: seq<Action>, retention: Time, n: nat)
    requires IsRun(states, actions, retention) && n < |states|
    ensures Told(states[n])
  {
    hide Next, Enabled, Inv;
    if n > 0 {
      ToldAt(states, actions, retention, n - 1);
      InvAt(states, actions, retention, n - 1);
      StepKeepsTold(states[n - 1], actions[n - 1], retention);
    }
  }

  // ---- the theorem ----------------------------------------------------------

  /** The state and detail every target of a dispatched command comes to show: decided by the payload alone. */
  function Outcome(sub: Submission, robot: RobotId): TS.TargetState {
    if TS.FirstLost(sub.cmd.targets, sub.answers, robot) then TS.TargetState(TS.RobotOffline, "offline at dispatch")
    else if Refused(sub.cmd.payload) then TS.TargetState(TS.Rejected, "")
    else TS.TargetState(TS.Applied, "")
  }

  lemma {:induction false} QuietLinkReported(s: State, retention: Time, i: nat, j: nat, id: CommandId, robot: RobotId)
    returns (r: CommandResult)
    requires Inv(s, retention) && Told(s) && AcceptedAt(s.links, i, j, id, robot) && Quiet(s.links[i])
    ensures ReportedIn(s.events, r) && r.commandId == id && r.robotId == robot && !r.result.ResultUnspecified?
  {
    hide RegistryInv, SendersInv, RoutingInv, RestsInv, MarksInv, FramesInv, SubmissionsInv, TrackerInv, LogInv,
         GreetInv,
         SubmissionsTold, EventsFollow, ReportedIn;
    var l := s.links[i];
    assert LinkInv(l) && LinkTold(l, s.events);
    QuietLinkHasAnsweredAll(l);
    assert Commands(l.log)[j] == l.pump.accepted[j];
    r := l.delivered[j];
    assert r in l.delivered;
  }

  lemma {:induction false} DecidedByReport(s: State, retention: Time, k: int, d: int, id: CommandId, robot: RobotId)
    requires Inv(s, retention) && TH.SubmitsAt(s.events, k, id) && 0 <= d < |s.events|
    requires s.events[d].Reported? && s.events[d].result.commandId == id && s.events[d].result.robotId == robot
    ensures TH.Verdict(s.events[d])
      == TS.TargetState(if Refused(s.events[k].cmd.payload) then TS.Rejected else TS.Applied, "")
  {
    hide LinksInv, RegistryInv, SendersInv, RoutingInv, MarksInv, FramesInv, TrackerInv, Backed;
    assert RecordedAt(s.events[k], s.submitted) && EventRests(s.events[d], s.links);
    var i, j := BackedMeansDid(s, s.events[d].result, retention);
  }

  /**
   For every reachable state: when a link is quiet, each command it accepted that is still tracked, with no sweep yet at
   or after its expiry, shows the outcome its payload calls for: APPLIED if and only if robots do not refuse it, unless
   the target was called lost at its first mention.
   */
  lemma {:induction false} QuietLinkShowsOutcome(states: seq<State>, actions: seq<Action>, retention: Time, n: nat,
                                                 i: nat, j: nat, id: CommandId, robot: RobotId)
    requires IsRun(states, actions, retention) && n < |states|
    requires AcceptedAt(states[n].links, i, j, id, robot) && Quiet(states[n].links[i]) && id in states[n].tracker
    requires forall k | 0 <= k < |states[n].events| && states[n].events[k].Swept? ::
      states[n].events[k].now < states[n].tracker[id].expiry
    ensures id in states[n].submitted && robot in states[n].tracker[id].targets
    ensures states[n].tracker[id].targets[robot] == Outcome(states[n].submitted[id], robot)
  {
    hide LinksInv, RegistryInv, SendersInv, RestsInv, MarksInv, FramesInv, Next, Enabled, Quiet, AcceptedAt, TS.Run,
         TS.FirstLost, TS.SomeOnline, DeliveredTold, SubmissionsTold;
    InvAt(states, actions, retention, n);
    ToldAt(states, actions, retention, n);
    var s := states[n];
    var es := s.events;
    var r := QuietLinkReported(s, retention, i, j, id, robot);
    var k := TH.TrackedSinceSubmission(es, retention, id);
    TH.TargetsExplainedByHistory(es, retention, k, id, robot);
    assert RecordedAt(es[k], s.submitted);
    AcceptedIsTarget(s, retention, i, j, id, robot);
    var told :| 0 <= told < |es| && es[told].Reported? && es[told].result == r;
    var k' :| k' < told && TH.SubmitsAt(es, k', id);
    assert k' == k;
    if !TS.FirstLost(es[k].cmd.targets, es[k].answers, robot) {
      assert TH.Decides(es[told], id, robot, es[k].cmd.expiry);
      var d := TH.LeastDecision(es, k, id, robot, es[k].cmd.expiry);
      DecidedByReport(s, retention, k, d, id, robot);
    }
  }

  lemma {:induction false} AcceptedIsTarget(s: State, retention: Time, i: nat, j: nat, id: CommandId, robot: RobotId)
    requires Inv(s, retention) && AcceptedAt(s.links, i, j, id, robot)
    ensures id in s.submitted && robot in s.submitted[id].cmd.targets
  {
    hide LinksInv, RegistryInv, SendersInv, RestsInv, MarksInv, FramesInv, SubmissionsInv, TrackerInv;
    assert LinkLegit(s.links[i], s.submitted) && s.links[i].pump.accepted[j] in s.links[i].pump.accepted;
  }
}
