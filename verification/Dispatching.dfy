/**
 Every command SendCommand fans out is accounted for: dispatched in order, handed over exactly when its robot is
 registered at that moment, and marked sent once handed over.
 */
module Dispatching {
  import opened Domain
  import opened OutgoingLink
  import opened RobotGateway
  import opened Motion
  import opened RobotLink
  import opened CommandPath
  import opened EndToEnd
  import opened AtMostOnce
  import opened AllAnswered
  import TS = TrackerSpec
  import TH = TrackerHistory

  // ---- the fan-out, in order ------------------------------------------------

  /** The command for mention i stands in the fan-out after exactly those for the earlier mentions not called lost. */
  lemma {:induction false} FanOutInOrder(cmd: OperatorCommand, targets: seq<RobotId>, answers: seq<bool>, i: nat)
    requires i < |targets| && !TS.LostAt(answers, i)
    ensures |TS.FanOut(cmd, targets[..i], answers)| < |TS.FanOut(cmd, targets, answers)|
    ensures TS.FanOut(cmd, targets, answers)[|TS.FanOut(cmd, targets[..i], answers)|] == TS.CommandFor(cmd, targets[i])
    decreases |targets|
  {
    var n := |targets| - 1;
    if i < n {
      assert targets[..n][..i] == targets[..i];
      FanOutInOrder(cmd, targets[..n], answers, i);
    }
  }

  /** A robot's command is the operator's, with the one target: same id, times and payload. */
  lemma {:induction false} AcceptedIsSubmitted(states: seq<State>, actions: seq<Action>, retention: Time, n: nat,
                                               i: nat, c: RobotCommand)
    requires IsRun(states, actions, retention) && n < |states|
    requires i in states[n].links && c in states[n].links[i].pump.accepted
    ensures c.commandId in states[n].submitted
    ensures var cmd := states[n].submitted[c.commandId].cmd;
      && c.robotId == states[n].links[i].name && c.robotId in cmd.targets
      && c.timestamp == cmd.timestamp && c.expiry == cmd.expiry && c.payload == cmd.payload
  {
    hide Next, Enabled, LinksInv, RegistryInv, SendersInv, RestsInv, MarksInv, FramesInv, SubmissionsInv, TrackerInv;
    InvAt(states, actions, retention, n);
    assert LinkLegit(states[n].links[i], states[n].submitted);
  }

  // ---- one dispatch ---------------------------------------------------------

  /**
   A dispatch takes the thread's next command: if its robot is registered, the link registered for it, and no other,
   accepts exactly that command, and the thread will mark it sent; if not, nothing is accepted and nothing marked.
   */
  lemma {:induction false} DispatchHandsOver(s: State, thread: nat, retention: Time)
    requires Inv(s, retention) && Enabled(s, Dispatch(thread))
    ensures var s', c := Next(s, Dispatch(thread), retention), s.senders[thread].todo[0];
      && s'.senders.Keys == s.senders.Keys && s'.senders[thread].todo == s.senders[thread].todo[1..]
      && s'.senders[thread].mark == (if c.robotId in s.registry then Some(c) else None)
      && s'.links.Keys == s.links.Keys
      && forall i | i in s.links :: s'.links[i].pump.accepted == s.links[i].pump.accepted
           + if c.robotId in s.registry && s.registry[c.robotId] == i then [c] else []
  {
    hide LinksInv, RegistryInv, SendersInv, RoutingInv, RestsInv, MarksInv, FramesInv, SubmissionsInv, TrackerInv;
  }

  // ---- the whole fan-out ----------------------------------------------------

  /** Step k dispatches the command at place q of the thread's fan-out. */
  ghost predicate DispatchesAt(states: seq<State>, actions: seq<Action>, thread: nat, fan: seq<RobotCommand>,
                               q: nat, k: nat) {
    && k < |actions| < |states| && actions[k] == Dispatch(thread) && q <= |fan|
    && thread in states[k].senders && states[k].senders[thread].todo == fan[q..]
  }

  /** The first p commands of the fan-out have been dispatched, after step m and before state n; the rest wait. */
  ghost predicate DispatchedUpTo(states: seq<State>, actions: seq<Action>, thread: nat, fan: seq<RobotCommand>, p: nat,
                                 m: nat, n: nat) {
    && p <= |fan| && n < |states| && thread in states[n].senders && states[n].senders[thread].todo == fan[p..]
    && forall q: nat | q < p :: DispatchedBetween(states, actions, thread, fan, q, m, n)
  }

  ghost predicate DispatchedBetween(states: seq<State>, actions: seq<Action>, thread: nat, fan: seq<RobotCommand>,
                                    q: nat, m: nat, n: nat) {
    exists k: nat :: m < k < n && DispatchesAt(states, actions, thread, fan, q, k)
  }

  lemma {:induction false} OtherStepsKeepTodo(s: State, a: Action, thread: nat, retention: Time)
    requires Enabled(s, a) && thread in s.senders && a != Dispatch(thread)
    ensures thread in Next(s, a, retention).senders
    ensures Next(s, a, retention).senders[thread].todo == s.senders[thread].todo
  {
    hide TS.Step, LinkNext, LinkEnabled, TS.FanOut;
  }

  /**
   No command of a submission is skipped, repeated or reordered: at every later state some first part of the fan-out has
   been dispatched, one command at a time in order, and exactly the rest is still to be dispatched.
   */
  lemma {:induction false} FanOutAccountedFor(states: seq<State>, actions: seq<Action>, retention: Time, m: nat, n: nat)
    returns (p: nat)
    requires IsRun(states, actions, retention) && m < n < |states| && actions[m].SubmitCommand?
    ensures var a := actions[m];
      DispatchedUpTo(states, actions, a.thread, TS.FanOut(a.cmd, a.cmd.targets, a.answers), p, m, n)
    decreases n
  {
    hide TS.FanOut, TS.Step, LinkNext, LinkEnabled;
    var a, fan := actions[m], TS.FanOut(actions[m].cmd, actions[m].cmd.targets, actions[m].answers);
    var s, last := states[n - 1], actions[n - 1];
    assert Enabled(s, last) && states[n] == Next(s, last, retention);
    if n == m + 1 {
      p := 0;
      assert fan[0..] == fan;
    } else {
      var q := FanOutAccountedFor(states, actions, retention, m, n - 1);
      forall r: nat | r < q ensures DispatchedBetween(states, actions, a.thread, fan, r, m, n) {
        assert DispatchedBetween(states, actions, a.thread, fan, r, m, n - 1);
        var k: nat :| m < k < n - 1 && DispatchesAt(states, actions, a.thread, fan, r, k);
      }
      if last == Dispatch(a.thread) {
        p := q + 1;
        assert fan[q..][1..] == fan[q + 1..];
        assert DispatchesAt(states, actions, a.thread, fan, q, n - 1);
        assert DispatchedBetween(states, actions, a.thread, fan, q, m, n);
      } else {
        p := q;
        OtherStepsKeepTodo(s, last, a.thread, retention);
      }
    }
  }

  // ---- handed over, then marked ---------------------------------------------

  ghost predicate MarkedIn(events: seq<TS.Event>, id: CommandId, robot: RobotId) {
    exists k :: 0 <= k < |events| && events[k] == TS.Dispatched(id, robot)
  }

  /** A thread has just handed the command over and is about to mark it. */
  ghost predicate MarkHeld(senders: map<nat, Sender>, id: CommandId, robot: RobotId) {
    exists t :: t in senders && senders[t].mark.Some?
      && senders[t].mark.value.commandId == id && senders[t].mark.value.robotId == robot
  }

  ghost predicate HandedMarked(s: State) {
    forall id, robot | Handed(s.links, id, robot) :: MarkedIn(s.events, id, robot) || MarkHeld(s.senders, id, robot)
  }

  /** Nothing newly handed over, no event lost, and no mark dropped. */
  lemma {:induction false} KeepsMarked(s: State, s': State)
    requires HandedMarked(s) && s.events <= s'.events
    requires forall id, robot | Handed(s'.links, id, robot) :: Handed(s.links, id, robot)
    requires forall t | t in s.senders :: t in s'.senders && s'.senders[t].mark == s.senders[t].mark
    ensures HandedMarked(s')
  {
    hide Handed;
    forall id, robot | Handed(s'.links, id, robot)
      ensures MarkedIn(s'.events, id, robot) || MarkHeld(s'.senders, id, robot)
    {
      if MarkedIn(s.events, id, robot) {
        var k :| 0 <= k < |s.events| && s.events[k] == TS.Dispatched(id, robot);
        assert s'.events[k] == s.events[k];
      } else {
        var t :| t in s.senders && s.senders[t].mark.Some?
          && s.senders[t].mark.value.commandId == id && s.senders[t].mark.value.robotId == robot;
        assert s'.senders[t].mark == s.senders[t].mark;
      }
    }
  }

  lemma {:induction false} SameAcceptedHanded(a: map<nat, Link>, b: map<nat, Link>)
    requires SameAccepted(a, b)
    ensures forall id, robot :: Handed(a, id, robot) <==> Handed(b, id, robot)
  {
    hide AcceptedAt;
    forall id, robot ensures Handed(a, id, robot) <==> Handed(b, id, robot) {
      if Handed(a, id, robot) {
        var i: nat, j: nat :| AcceptedAt(a, i, j, id, robot);
        assert AcceptedAt(b, i, j, id, robot);
      }
      if Handed(b, id, robot) {
        var i: nat, j: nat :| AcceptedAt(b, i, j, id, robot);
        assert AcceptedAt(a, i, j, id, robot);
      }
    }
  }

  lemma {:induction false} DispatchKeepsMarked(s: State, thread: nat, retention: Time)
    requires Inv(s, retention) && Enabled(s, Dispatch(thread)) && HandedMarked(s)
    ensures HandedMarked(Next(s, Dispatch(thread), retention))
  {
    hide LinkInv, LinksInv, RegistryInv, SendersInv, RoutingInv, RestsInv, MarksInv, FramesInv, SubmissionsInv,
         TrackerInv, AcceptedAt, Enqueue;
    var s', c := Next(s, Dispatch(thread), retention), s.senders[thread].todo[0];
    if c.robotId in s.registry {
      HandOverAdds(s.links, s.registry[c.robotId], c);
      assert s'.senders[thread].mark == Some(c);
    }
    forall id, robot | Handed(s'.links, id, robot)
      ensures MarkedIn(s'.events, id, robot) || MarkHeld(s'.senders, id, robot)
    {
      if Handed(s.links, id, robot) && !MarkedIn(s.events, id, robot) {
        var t :| t in s.senders && s.senders[t].mark.Some?
          && s.senders[t].mark.value.commandId == id && s.senders[t].mark.value.robotId == robot;
        assert t != thread && s'.senders[t] == s.senders[t];
      }
    }
  }

  lemma {:induction false} HandOverAdds(links: map<nat, Link>, i: nat, c: RobotCommand)
    requires i in links
    ensures OnlyAdds(links, links[i := links[i].(pump := Enqueue(links[i].pump, c))], c)
  {
    var links' := links[i := links[i].(pump := Enqueue(links[i].pump, c))];
    forall id, robot | Handed(links', id, robot)
      ensures Handed(links, id, robot) || (id == c.commandId && robot == c.robotId)
    {
      var k: nat, j: nat :| AcceptedAt(links', k, j, id, robot);
      assert links'[i].pump.accepted == links[i].pump.accepted + [c];
      if !(k == i && j == |links[i].pump.accepted|) { assert AcceptedAt(links, k, j, id, robot); }
    }
  }

  lemma {:induction false} MarkKeepsMarked(s: State, thread: nat, retention: Time)
    requires Enabled(s, MarkSent(thread)) && HandedMarked(s)
    ensures HandedMarked(Next(s, MarkSent(thread), retention))
  {
    hide Handed, TS.Step;
    var s', mark := Next(s, MarkSent(thread), retention), s.senders[thread].mark.value;
    assert s'.events[|s.events|] == TS.Dispatched(mark.commandId, mark.robotId);
    forall id, robot | Handed(s'.links, id, robot)
      ensures MarkedIn(s'.events, id, robot) || MarkHeld(s'.senders, id, robot)
    {
      if MarkedIn(s.events, id, robot) {
        var k :| 0 <= k < |s.events| && s.events[k] == TS.Dispatched(id, robot);
        assert s'.events[k] == s.events[k];
      } else {
        var t :| t in s.senders && s.senders[t].mark.Some?
          && s.senders[t].mark.value.commandId == id && s.senders[t].mark.value.robotId == robot;
        if t != thread { assert s'.senders[t] == s.senders[t]; }
      }
    }
  }

  lemma {:induction false} StepKeepsMarked(s: State, a: Action, retention: Time)
    requires Inv(s, retention) && Enabled(s, a) && HandedMarked(s)
    ensures HandedMarked(Next(s, a, retention))
  {
    hide Inv, HandedMarked, Handed, TS.Step, TS.FanOut, LinkNext, LinkEnabled;
    var s' := Next(s, a, retention);
    match a
    case Dispatch(thread) => DispatchKeepsMarked(s, thread, retention);
    case MarkSent(thread) => MarkKeepsMarked(s, thread, retention);
    case _ =>
      StepAcceptsNothing(s, a, retention);
      SameAcceptedHanded(s.links, s'.links);
      KeepsMarked(s, s');
  }

  /** Only a dispatch makes a link accept a command. */
  lemma {:induction false} StepAcceptsNothing(s: State, a: Action, retention: Time)
    requires Inv(s, retention) && Enabled(s, a) && !a.Dispatch?
    ensures SameAccepted(s.links, Next(s, a, retention).links)
  {
    hide LinkInv, RegistryInv, SendersInv, RoutingInv, RestsInv, MarksInv, FramesInv, SubmissionsInv, TrackerInv,
         TS.Step, TS.FanOut, LinkNext, LinkEnabled, SameAccepted;
    var s' := Next(s, a, retention);
    if a.OnLink? {
      assert LinkInv(s.links[a.link]);
      LinkStep(s.links[a.link], a.a);
      ReplacedAccepted(s.links, a.link, LinkNext(s.links[a.link], a.a));
    } else if a.SubmitCommand? || a.MarkSent? || a.Sweep? || a.Snapshot? {
      SameLinks(s.links);
      assert s'.links == s.links;
    } else {
      ReplacedAccepted(s.links, a.link, s'.links[a.link]);
      assert s'.links == s.links[a.link := s'.links[a.link]];
    }
  }

  lemma {:induction false} SameLinks(links: map<nat, Link>)
    ensures SameAccepted(links, links)
  {
  }

  lemma {:induction false} MarkedAt(states: seq<State>, actions: seq<Action>, retention: Time, n: nat)
    requires IsRun(states, actions, retention) && n < |states|
    ensures HandedMarked(states[n])
  {
    hide Next, Enabled, Inv;
    if n > 0 {
      MarkedAt(states, actions, retention, n - 1);
      InvAt(states, actions, retention, n - 1);
      StepKeepsMarked(states[n - 1], actions[n - 1], retention);
    }
  }

  /** In every reachable state a command handed to its robot has been marked sent, or its thread is about to mark it. */
  lemma {:induction false} HandedIsMarked(states: seq<State>, actions: seq<Action>, retention: Time, n: nat,
                                          i: nat, j: nat, id: CommandId, robot: RobotId)
    requires IsRun(states, actions, retention) && n < |states| && AcceptedAt(states[n].links, i, j, id, robot)
    ensures MarkedIn(states[n].events, id, robot) || MarkHeld(states[n].senders, id, robot)
  {
    hide Next, Enabled, AcceptedAt, MarkedIn, MarkHeld;
    MarkedAt(states, actions, retention, n);
  }

  /** So a target handed to its robot, and not about to be marked, is not shown PENDING: it is SENT, or settled. */
  lemma {:induction false} HandedIsNotPending(states: seq<State>, actions: seq<Action>, retention: Time, n: nat,
                                              i: nat, j: nat, id: CommandId, robot: RobotId)
    requires IsRun(states, actions, retention) && n < |states| && AcceptedAt(states[n].links, i, j, id, robot)
    requires !MarkHeld(states[n].senders, id, robot) && id in states[n].tracker
    ensures robot in states[n].tracker[id].targets
    ensures var state := states[n].tracker[id].targets[robot].state; state == TS.Sent || TS.IsTerminal(state)
  {
    hide LinksInv, RegistryInv, SendersInv, RestsInv, MarksInv, FramesInv, Next, Enabled, AcceptedAt, TS.Run,
         TS.FirstLost, TS.SomeOnline, DeliveredTold, SubmissionsTold, MarkHeld;
    InvAt(states, actions, retention, n);
    ToldAt(states, actions, retention, n);
    HandedIsMarked(states, actions, retention, n, i, j, id, robot);
    var s := states[n];
    var es := s.events;
    var k := TH.TrackedSinceSubmission(es, retention, id);
    TH.TargetsExplainedByHistory(es, retention, k, id, robot);
    assert RecordedAt(es[k], s.submitted);
    AcceptedIsTarget(s, retention, i, j, id, robot);
    var marked :| 0 <= marked < |es| && es[marked] == TS.Dispatched(id, robot);
    var k' :| k' < marked && TH.SubmitsAt(es, k', id);
    assert k' == k;
    if !TS.FirstLost(es[k].cmd.targets, es[k].answers, robot) && !TH.Undecided(es, k, id, robot, es[k].cmd.expiry) {
      var d := TH.LeastDecision(es, k, id, robot, es[k].cmd.expiry);
    }
  }
}
