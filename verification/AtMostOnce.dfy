/**
 Multiplicity. One operator command with distinct targets reaches each robot's log at most once, whatever reconnects,
 so a verdict shown is the verdict of the only processing there ever was.
 */
module AtMostOnce {
  import opened Domain
  import opened OutgoingLink
  import opened Motion
  import opened RobotLink
  import opened CommandPath
  import opened EndToEnd
  import TS = TrackerSpec

  // ---- the fan-out ----------------------------------------------------------

  /** The mentions of the robot at which it was not called lost. */
  ghost function OnlineMentions(targets: seq<RobotId>, answers: seq<bool>, robot: RobotId): set<int> {
    set i | 0 <= i < |targets| && targets[i] == robot && !TS.LostAt(answers, i)
  }

  lemma {:induction false} MentionsNext(targets: seq<RobotId>, answers: seq<bool>, robot: RobotId)
    requires targets != []
    ensures var n := |targets| - 1;
      |OnlineMentions(targets, answers, robot)| == |OnlineMentions(targets[..n], answers, robot)|
        + if targets[n] == robot && !TS.LostAt(answers, n) then 1 else 0
  {
    var n := |targets| - 1;
    var before, mentions := OnlineMentions(targets[..n], answers, robot), OnlineMentions(targets, answers, robot);
    assert mentions == before + if targets[n] == robot && !TS.LostAt(answers, n) then {n} else {};
  }

  /** A target is dispatched once for each mention at which it was not called lost. */
  lemma {:induction false} FanOutMultiplicity(cmd: OperatorCommand, targets: seq<RobotId>, answers: seq<bool>,
                                              robot: RobotId)
    ensures multiset(TS.FanOut(cmd, targets, answers))[TS.CommandFor(cmd, robot)]
      == |OnlineMentions(targets, answers, robot)|
    decreases |targets|
  {
    hide OnlineMentions;
    if targets == [] {
      assert OnlineMentions([], answers, robot) == {} by { NoMentions(answers, robot); }
    } else {
      MentionsNext(targets, answers, robot);
      FanOutMultiplicity(cmd, targets[..|targets| - 1], answers, robot);
    }
  }

  lemma {:induction false} NoMentions(answers: seq<bool>, robot: RobotId)
    ensures OnlineMentions([], answers, robot) == {}
  {
  }

  ghost predicate DistinctRobots(cs: seq<RobotCommand>) {
    forall i, j | 0 <= i < j < |cs| :: cs[i].robotId != cs[j].robotId
  }

  lemma {:induction false} FanOutDistinct(cmd: OperatorCommand, targets: seq<RobotId>, answers: seq<bool>)
    requires Distinct(targets)
    ensures DistinctRobots(TS.FanOut(cmd, targets, answers))
    decreases |targets|
  {
    if targets != [] {
      var n := |targets| - 1;
      FanOutDistinct(cmd, targets[..n], answers);
      FanOutLegit(cmd, targets[..n], answers);
      forall c | c in TS.FanOut(cmd, targets[..n], answers) ensures c.robotId != targets[n] {
        assert c.robotId in targets[..n];
      }
    }
  }

  // ---- the invariant --------------------------------------------------------

  ghost predicate DistinctTargets(submitted: map<CommandId, Submission>) {
    forall id | id in submitted :: Distinct(submitted[id].cmd.targets)
  }

  /** No command is accepted for a robot at two places. */
  ghost predicate AcceptedOnce(links: map<nat, Link>) {
    forall i: nat, j: nat, i': nat, j': nat, id, robot |
      AcceptedAt(links, i, j, id, robot) && AcceptedAt(links, i', j', id, robot) :: i == i' && j == j'
  }

  /** What a thread has still to dispatch is for distinct robots, of one command, and accepted nowhere yet. */
  ghost predicate TodoFresh(t: Sender, links: map<nat, Link>) {
    && DistinctRobots(t.todo)
    && forall c | c in t.todo :: !Handed(links, c.commandId, c.robotId)
  }

  ghost predicate TodosFresh(senders: map<nat, Sender>, links: map<nat, Link>) {
    forall t | t in senders :: TodoFresh(senders[t], links)
  }

  ghost predicate TodosApart(senders: map<nat, Sender>) {
    forall t, u, c, d | t in senders && u in senders && c in senders[t].todo && d in senders[u].todo
      && c.commandId == d.commandId :: t == u
  }

  ghost predicate Once(s: State) {
    AcceptedOnce(s.links) && TodosFresh(s.senders, s.links) && TodosApart(s.senders)
  }

  /** The two maps hold the same accepted commands under the same names. */
  ghost predicate SameAccepted(a: map<nat, Link>, b: map<nat, Link>) {
    forall i: nat, j: nat, id, robot :: AcceptedAt(a, i, j, id, robot) <==> AcceptedAt(b, i, j, id, robot)
  }

  lemma {:induction false} OnceDependsOnAccepted(s: State, s': State)
    requires Once(s) && SameAccepted(s.links, s'.links)
    requires forall t | t in s'.senders :: t in s.senders && s'.senders[t].todo == s.senders[t].todo
    ensures Once(s')
  {
    hide AcceptedAt;
    assert forall id, robot :: Handed(s.links, id, robot) <==> Handed(s'.links, id, robot) by {
      forall id, robot ensures Handed(s.links, id, robot) <==> Handed(s'.links, id, robot) {
        if Handed(s.links, id, robot) {
          var i: nat, j: nat :| AcceptedAt(s.links, i, j, id, robot);
          assert AcceptedAt(s'.links, i, j, id, robot);
        }
        if Handed(s'.links, id, robot) {
          var i: nat, j: nat :| AcceptedAt(s'.links, i, j, id, robot);
          assert AcceptedAt(s.links, i, j, id, robot);
        }
      }
    }
    forall t | t in s'.senders ensures TodoFresh(s'.senders[t], s'.links) {
      assert TodoFresh(s.senders[t], s.links);
    }
  }

  lemma {:induction false} ReplacedAccepted(links: map<nat, Link>, i: nat, l': Link)
    requires if i in links then l'.name == links[i].name && l'.pump.accepted == links[i].pump.accepted
             else l'.pump.accepted == []
    ensures SameAccepted(links, links[i := l'])
  {
  }

  lemma {:induction false} SubmitKeepsOnce(s: State, a: Action, retention: Time)
    requires a.SubmitCommand? && Inv(s, retention) && Enabled(s, a) && Once(s) && Distinct(a.cmd.targets)
    ensures Once(Next(s, a, retention))
  {
    hide LinkInv, LinksInv, RegistryInv, RestsInv, MarksInv, FramesInv, SubmissionsInv, TrackerInv, TS.Step,
         TS.FanOut, AcceptedOnce;
    var s', id := Next(s, a, retention), a.cmd.commandId;
    FanOutLegit(a.cmd, a.cmd.targets, a.answers);
    FanOutDistinct(a.cmd, a.cmd.targets, a.answers);
    forall robot ensures !Handed(s.links, id, robot) {
      NotSubmittedNotHanded(s, id, robot, retention);
    }
    assert TodoFresh(s'.senders[a.thread], s.links);
    forall t | t in s.senders ensures forall c | c in s.senders[t].todo :: c.commandId != id {
      assert SenderLegit(s.senders[t], s.submitted);
    }
  }

  lemma {:induction false} NotSubmittedNotHanded(s: State, id: CommandId, robot: RobotId, retention: Time)
    requires Inv(s, retention) && id !in s.submitted
    ensures !Handed(s.links, id, robot)
  {
    hide LinkInv, LinksInv, RegistryInv, RestsInv, MarksInv, FramesInv, SubmissionsInv, TrackerInv, SendersInv;
    forall i: nat, j: nat ensures !AcceptedAt(s.links, i, j, id, robot) {
      if i in s.links { assert LinkLegit(s.links[i], s.submitted); }
    }
  }

  /** Handing over the next command of a thread, accepted nowhere so far, makes it accepted at one place. */
  lemma {:induction false} HandOverOnce(links: map<nat, Link>, i: nat, cmd: RobotCommand)
    requires i in links && AcceptedOnce(links) && !Handed(links, cmd.commandId, cmd.robotId)
    ensures var links' := links[i := links[i].(pump := Enqueue(links[i].pump, cmd))];
      && AcceptedOnce(links')
      && OnlyAdds(links, links', cmd)
  {
    var links' := links[i := links[i].(pump := Enqueue(links[i].pump, cmd))];
    var n := |links[i].pump.accepted|;
    forall k: nat, j: nat, id, robot | AcceptedAt(links', k, j, id, robot)
      ensures AcceptedAt(links, k, j, id, robot) || (k == i && j == n && id == cmd.commandId && robot == cmd.robotId)
    {
      assert links'[i].pump.accepted == links[i].pump.accepted + [cmd];
    }
    hide AcceptedAt, PumpLocked, Enqueue;
    assert forall k: nat, j: nat :: !AcceptedAt(links, k, j, cmd.commandId, cmd.robotId);
  }

  /** The command is the only one the second map may have accepted beyond the first. */
  ghost predicate OnlyAdds(links: map<nat, Link>, links': map<nat, Link>, cmd: RobotCommand) {
    forall id, robot :: Handed(links', id, robot) ==>
      Handed(links, id, robot) || (id == cmd.commandId && robot == cmd.robotId)
  }

  lemma {:induction false} TailStaysFresh(t: Sender, mark: Option<RobotCommand>, links: map<nat, Link>,
      links': map<nat, Link>)
    requires t.todo != [] && TodoFresh(t, links) && OnlyAdds(links, links', t.todo[0])
    ensures TodoFresh(Sender(t.todo[1..], mark), links')
  {
    hide Handed;
    var tail := t.todo[1..];
    assert forall k | 0 <= k < |tail| :: tail[k] == t.todo[k + 1];
    forall c | c in tail ensures !Handed(links', c.commandId, c.robotId) {
      assert c in t.todo;
      var k :| 0 <= k < |tail| && tail[k] == c;
      assert t.todo[0].robotId != t.todo[k + 1].robotId;
    }
  }

  lemma {:induction false} OtherStaysFresh(u: Sender, cmd: RobotCommand, links: map<nat, Link>, links': map<nat, Link>)
    requires TodoFresh(u, links) && OnlyAdds(links, links', cmd)
    requires forall c | c in u.todo :: c.commandId != cmd.commandId
    ensures TodoFresh(u, links')
  {
    hide Handed;
  }

  lemma {:induction false} TodosStayFresh(senders: map<nat, Sender>, thread: nat, mark: Option<RobotCommand>,
                                          links: map<nat, Link>, links': map<nat, Link>)
    requires thread in senders && senders[thread].todo != []
    requires TodosFresh(senders, links) && TodosApart(senders) && OnlyAdds(links, links', senders[thread].todo[0])
    ensures var senders' := senders[thread := Sender(senders[thread].todo[1..], mark)];
      TodosFresh(senders', links') && TodosApart(senders')
  {
    hide TodoFresh, OnlyAdds;
    var t := senders[thread];
    assert t.todo[0] in t.todo && forall c | c in t.todo[1..] :: c in t.todo;
    forall u | u in senders && u != thread ensures TodoFresh(senders[u], links') {
      assert TodoFresh(senders[u], links);
      OtherStaysFresh(senders[u], t.todo[0], links, links');
    }
    assert TodoFresh(t, links);
    TailStaysFresh(t, mark, links, links');
  }

  lemma {:induction false} DispatchKeepsOnce(s: State, thread: nat, retention: Time)
    requires Inv(s, retention) && Enabled(s, Dispatch(thread)) && Once(s)
    ensures Once(Next(s, Dispatch(thread), retention))
  {
    hide LinkInv, LinksInv, RegistryInv, RestsInv, MarksInv, FramesInv, SubmissionsInv, TrackerInv, Handed,
         AcceptedOnce,
         Enqueue, SendersInv, RoutingInv, TodosApart;
    var s', t := Next(s, Dispatch(thread), retention), s.senders[thread];
    assert TodoFresh(t, s.links) && t.todo[0] in t.todo;
    if t.todo[0].robotId in s.registry {
      HandOverOnce(s.links, s.registry[t.todo[0].robotId], t.todo[0]);
    }
    TodosStayFresh(s.senders, thread, s'.senders[thread].mark, s.links, s'.links);
  }

  lemma {:induction false} StepKeepsOnce(s: State, a: Action, retention: Time)
    requires Inv(s, retention) && Enabled(s, a) && Once(s)
    requires DistinctTargets(Next(s, a, retention).submitted)
    ensures Once(Next(s, a, retention))
  {
    hide Inv, Once, SameAccepted, LinkNext, LinkEnabled, TS.Step;
    match a
    case SubmitCommand(_, cmd, answers, _) =>
      assert Next(s, a, retention).submitted[cmd.commandId] == Submission(cmd, answers);
      SubmitKeepsOnce(s, a, retention);
    case Dispatch(thread) => DispatchKeepsOnce(s, thread, retention);
    case OnLink(i, la) => OnLinkKeepsOnce(s, i, la, retention);
    case MarkSent(_) => QuietKeepsOnce(s, a, retention);
    case Sweep(_) => QuietKeepsOnce(s, a, retention);
    case Snapshot => QuietKeepsOnce(s, a, retention);
    case _ => LinkKeepsOnce(s, a, retention);
  }

  lemma {:induction false} OnLinkKeepsOnce(s: State, i: nat, la: LinkAction, retention: Time)
    requires Inv(s, retention) && Enabled(s, OnLink(i, la)) && Once(s)
    ensures Once(Next(s, OnLink(i, la), retention))
  {
    hide LinkInv, RegistryInv, RestsInv, MarksInv, FramesInv, SubmissionsInv, TrackerInv, SendersInv, RoutingInv,
         Once, SameAccepted, LinkNext, LinkEnabled;
    assert LinkInv(s.links[i]);
    LinkStep(s.links[i], la);
    ReplacedAccepted(s.links, i, LinkNext(s.links[i], la));
    OnceDependsOnAccepted(s, Next(s, OnLink(i, la), retention));
  }

  lemma {:induction false} QuietKeepsOnce(s: State, a: Action, retention: Time)
    requires (a.MarkSent? || a.Sweep? || a.Snapshot?) && Enabled(s, a) && Once(s)
    ensures Once(Next(s, a, retention))
  {
    hide Once, TS.Step, AcceptedAt;
    OnceDependsOnAccepted(s, Next(s, a, retention));
  }

  lemma {:induction false} LinkKeepsOnce(s: State, a: Action, retention: Time)
    requires (a.Connect? || a.Register? || a.Deliver? || a.Unregister? || a.Delete?) && Enabled(s, a) && Once(s)
    ensures Once(Next(s, a, retention))
  {
    hide Once, TS.Step, AcceptedAt, SameAccepted;
    var s' := Next(s, a, retention);
    ReplacedAccepted(s.links, a.link, s'.links[a.link]);
    assert s'.links == s.links[a.link := s'.links[a.link]];
    OnceDependsOnAccepted(s, s');
  }

  lemma {:induction false} OnceAt(states: seq<State>, actions: seq<Action>, retention: Time, n: nat)
    requires IsRun(states, actions, retention) && n < |states| && DistinctTargets(states[n].submitted)
    ensures Once(states[n])
  {
    hide Next, Enabled, Inv, Once;
    if n > 0 {
      var s, a := states[n - 1], actions[n - 1];
      SubmittedGrows(s, a, retention);
      OnceAt(states, actions, retention, n - 1);
      InvAt(states, actions, retention, n - 1);
      StepKeepsOnce(s, a, retention);
    } else {
      InitialOnce();
    }
  }

  lemma {:induction false} InitialOnce()
    ensures Once(INITIAL)
  {
  }

  lemma {:induction false} SubmittedGrows(s: State, a: Action, retention: Time)
    requires Enabled(s, a)
    ensures DistinctTargets(Next(s, a, retention).submitted) ==> DistinctTargets(s.submitted)
  {
    hide TS.Step, LinkNext, LinkEnabled, Enqueue;
    var s' := Next(s, a, retention);
    assert forall id | id in s.submitted :: id in s'.submitted && s'.submitted[id] == s.submitted[id];
  }

  // ---- the theorem ----------------------------------------------------------

  /**
   At most once, over every reachable state: when no command lists a target twice, no command is processed twice by a
   robot, on one link or on two.
   */
  lemma {:induction false} ProcessedAtMostOnce(states: seq<State>, actions: seq<Action>, retention: Time, n: nat,
                                               i: nat, j: nat, i': nat, j': nat)
    requires IsRun(states, actions, retention) && n < |states| && DistinctTargets(states[n].submitted)
    requires i in states[n].links && j < |states[n].links[i].log|
    requires i' in states[n].links && j' < |states[n].links[i'].log|
    requires states[n].links[i].name == states[n].links[i'].name
    requires states[n].links[i].log[j].cmd.commandId == states[n].links[i'].log[j'].cmd.commandId
    ensures i == i' && j == j'
  {
    hide Next, Enabled, Inv, AcceptedAt;
    var s := states[n];
    InvAt(states, actions, retention, n);
    OnceAt(states, actions, retention, n);
    LoggedIsAccepted(s, i, j, retention);
    LoggedIsAccepted(s, i', j', retention);
  }

  lemma {:induction false} LoggedIsAccepted(s: State, i: nat, j: nat, retention: Time)
    requires Inv(s, retention) && i in s.links && j < |s.links[i].log|
    ensures AcceptedAt(s.links, i, j, s.links[i].log[j].cmd.commandId, s.links[i].name)
  {
    hide PumpInv, LogInv, UpInv, GreetInv, RestsInv, MarksInv, FramesInv, SubmissionsInv, TrackerInv, SendersInv,
         RegistryInv;
    var l := s.links[i];
    assert LinkInv(l) && LinkLegit(l, s.submitted);
    assert Commands(l.log)[j] == l.transmitted[j] == l.pump.accepted[j];
    assert l.pump.accepted[j] in l.pump.accepted;
  }

  /**
   The verdict shown is the whole story: with distinct targets, a target shown APPLIED was processed by its robot
   exactly once, and that once succeeded; one shown REJECTED exactly once, and that once was refused.
   */
  lemma {:induction false} VerdictIsTheOnlyOne(states: seq<State>, actions: seq<Action>, retention: Time, n: nat,
                                               f: TS.Commands, id: CommandId, robot: RobotId, i: nat, j: nat)
    requires IsRun(states, actions, retention) && n < |states| && DistinctTargets(states[n].submitted)
    requires f in states[n].frames && id in f && robot in f[id].targets
    requires f[id].targets[robot].state == TS.Applied || f[id].targets[robot].state == TS.Rejected
    requires i in states[n].links && states[n].links[i].name == robot && j < |states[n].links[i].log|
    requires states[n].links[i].log[j].cmd.commandId == id
    ensures Did(states[n].links, i, j, id, robot, f[id].payload, f[id].targets[robot].state == TS.Applied)
  {
    hide Next, Enabled, Inv;
    FramesAreTrue(states, actions, retention, n, f, id, robot);
    var ok := f[id].targets[robot].state == TS.Applied;
    var i': nat, j': nat :| Did(states[n].links, i', j', id, robot, f[id].payload, ok);
    ProcessedAtMostOnce(states, actions, retention, n, i, j, i', j');
  }
}
