/** What the registry guarantees, and exactly when a live link can be reached through it. */
module RegistrySafety {
  import opened Domain
  import opened OutgoingLink
  import opened RobotGateway
  import opened RobotLink
  import opened CommandPath
  import TS = TrackerSpec

  /**
   Over any overlap of connects, reconnects, sends and closes, every entry points to a link that is not deleted, whose
   own robot id, and whose robot's own name, is the key. So every enqueue reached through the registry is on a live link.
   */
  lemma {:induction false} EntriesAreLive(states: seq<State>, actions: seq<Action>, retention: Time, n: nat,
      id: RobotId)
    requires IsRun(states, actions, retention) && n < |states| && id in states[n].registry
    ensures states[n].registry[id] in states[n].links
    ensures var l := states[n].links[states[n].registry[id]];
      l.phase == Open && l.registered && l.robotId == id && l.name == id
  {
    hide Next, Enabled, LinkInv, SendersInv, RoutingInv, RestsInv, MarksInv, FramesInv, SubmissionsInv, TrackerInv;
    InvAt(states, actions, retention, n);
    var l := states[n].links[states[n].registry[id]];
    assert LinkInv(l) && Reachable(l, id);
    RegisteredName(l);
  }

  /**
   An entry appears exactly when a link registers under a free id, and then points to it; it never moves to another link;
   and it disappears exactly when a link registered under that id leaves, or one that never registered, for the empty id.
   */
  lemma {:induction false} EntriesComeAndGo(s: State, a: Action, id: RobotId, retention: Time)
    requires Enabled(s, a)
    ensures var s' := Next(s, a, retention);
      && (id in s.registry ==>
            if a.Unregister? && s.links[a.link].robotId == id then id !in s'.registry
            else id in s'.registry && s'.registry[id] == s.registry[id])
      && (id !in s.registry ==>
            if a.Register? && RegistrationId(s.links[a.link].incoming.value) == id
            then id in s'.registry && s'.registry[id] == a.link
            else id !in s'.registry)
  {
    hide TS.Step, TS.FanOut, LinkNext, LinkEnabled, Enqueue;
  }

  /** The link is the one a command for its robot would be enqueued on. */
  predicate Reached(s: State, i: nat) {
    i in s.links && s.links[i].name in s.registry && s.registry[s.links[i].name] == i
  }

  predicate LiveLink(s: State, i: nat) {
    i in s.links && s.links[i].phase == Open && s.links[i].registered
  }

  /** No robot has two open links, and none has the empty id. */
  ghost predicate NoOverlap(links: map<nat, Link>) {
    && (forall i, j | i in links && j in links && links[i].phase == Open && links[j].phase == Open
          && links[i].name == links[j].name :: i == j)
    && forall i | i in links :: links[i].name != ""
  }

  ghost predicate AllReached(s: State) {
    forall i: nat | LiveLink(s, i) :: Reached(s, i)
  }

  /** While no two links of a robot are open at once, and no robot has the empty id, every live link can be reached. */
  lemma {:induction false} WithoutOverlapAllReached(states: seq<State>, actions: seq<Action>, retention: Time, n: nat)
    requires IsRun(states, actions, retention) && n < |states|
    requires forall k | 0 <= k <= n :: NoOverlap(states[k].links)
    ensures AllReached(states[n])
  {
    hide Next, Enabled, LinkInv, RegistryInv, SendersInv, RoutingInv, RestsInv, MarksInv, FramesInv, SubmissionsInv,
         TrackerInv;
    if n > 0 {
      WithoutOverlapAllReached(states, actions, retention, n - 1);
      InvAt(states, actions, retention, n - 1);
      assert NoOverlap(states[n - 1].links);
      StepKeepsReached(states[n - 1], actions[n - 1], retention);
    }
  }

  lemma {:induction false} StepKeepsReached(s: State, a: Action, retention: Time)
    requires Inv(s, retention) && Enabled(s, a) && NoOverlap(s.links) && AllReached(s)
    ensures AllReached(Next(s, a, retention))
  {
    hide LinkInv, RegistryInv, SendersInv, RoutingInv, RestsInv, MarksInv, FramesInv, SubmissionsInv, TrackerInv,
         LinksInv,
         Next, Enabled, AllReached, NoOverlap;
    match a
    case Register(i) => RegisterKeepsReached(s, i, retention);
    case Unregister(i) => UnregisterKeepsReached(s, i, retention);
    case OnLink(i, la) => OnLinkKeepsReached(s, i, la, retention);
    case Dispatch(_) => LinkOnlyKeepsReached(s, a, retention);
    case Connect(_, _, _) => LinkOnlyKeepsReached(s, a, retention);
    case Deliver(_, _) => LinkOnlyKeepsReached(s, a, retention);
    case Delete(_) => LinkOnlyKeepsReached(s, a, retention);
    case _ => TrackerOnlyKeepsReached(s, a, retention);
  }

  lemma {:induction false} TrackerOnlyKeepsReached(s: State, a: Action, retention: Time)
    requires a.SubmitCommand? || a.MarkSent? || a.Sweep? || a.Snapshot?
    requires Enabled(s, a) && AllReached(s)
    ensures AllReached(Next(s, a, retention))
  {
    hide AllReached, Reached, TS.Step;
    KeepsReached(s, Next(s, a, retention));
  }

  lemma {:induction false} LinkOnlyKeepsReached(s: State, a: Action, retention: Time)
    requires a.Dispatch? || a.Connect? || a.Deliver? || a.Delete?
    requires Enabled(s, a) && AllReached(s)
    ensures AllReached(Next(s, a, retention))
  {
    hide AllReached, Reached, PumpLocked;
    KeepsReached(s, Next(s, a, retention));
  }

  /** Steps that keep the registry and every link's name, and make no link live, keep every live link reached. */
  lemma {:induction false} KeepsReached(s: State, s': State)
    requires AllReached(s) && s'.registry == s.registry
    requires forall i: nat | LiveLink(s', i) :: LiveLink(s, i) && s'.links[i].name == s.links[i].name
    ensures AllReached(s')
  {
  }

  lemma {:induction false} OnLinkKeepsReached(s: State, i: nat, la: LinkAction, retention: Time)
    requires Inv(s, retention) && Enabled(s, OnLink(i, la)) && AllReached(s)
    ensures AllReached(Next(s, OnLink(i, la), retention))
  {
    hide RegistryInv, SendersInv, RoutingInv, RestsInv, MarksInv, FramesInv, SubmissionsInv, TrackerInv,
         LinkInv, LinkNext, LinkEnabled;
    assert LinkInv(s.links[i]);
    LinkStep(s.links[i], la);
    KeepsReached(s, Next(s, OnLink(i, la), retention));
  }

  lemma {:induction false} RegisterKeepsReached(s: State, i: nat, retention: Time)
    requires Inv(s, retention) && Enabled(s, Register(i)) && NoOverlap(s.links) && AllReached(s)
    ensures AllReached(Next(s, Register(i), retention))
  {
    hide LinkInv, SendersInv, RoutingInv, RestsInv, MarksInv, FramesInv, SubmissionsInv, TrackerInv;
    var l, s' := s.links[i], Next(s, Register(i), retention);
    assert LinkInv(l);
    RegisterOwnName(l);
    if l.name in s.registry {
      EntryName(s, l.name, retention);
      assert false;
    }
    assert s'.registry == s.registry[l.name := i];
    forall k: nat | LiveLink(s', k) ensures Reached(s', k) {
      if k != i { assert LiveLink(s, k) && Reached(s, k); }
    }
  }

  lemma {:induction false} EntryName(s: State, id: RobotId, retention: Time)
    requires Inv(s, retention) && id in s.registry
    ensures s.registry[id] in s.links && Reachable(s.links[s.registry[id]], id) && s.links[s.registry[id]].name == id
  {
    hide LinkInv, SendersInv, RoutingInv, RestsInv, MarksInv, FramesInv, SubmissionsInv, TrackerInv;
    var l := s.links[s.registry[id]];
    assert LinkInv(l) && Reachable(l, id);
    RegisteredName(l);
  }

  /** The state after a link has left the registry. */
  function Closed(s: State, gone: nat): State
    requires gone in s.links
  {
    s.(links := s.links[gone := s.links[gone].(phase := Unregistered)], registry := s.registry - {s.links[gone].robotId})
  }

  /**
   When a link leaves the registry, another live link stays reached if and only if it was reached and its robot's id is
   not the one erased: an overlapping link of the same robot is always lost, and a link that closes before its first
   message erases the empty id.
   */
  lemma {:induction false} UnregisterReaches(s: State, gone: nat, retention: Time)
    requires Inv(s, retention) && Enabled(s, Unregister(gone))
    ensures forall i: nat :: LiveLink(Closed(s, gone), i) <==> LiveLink(s, i) && i != gone
    ensures forall i: nat | LiveLink(s, i) && i != gone ::
      Reached(Closed(s, gone), i) <==> Reached(s, i) && s.links[i].name != s.links[gone].robotId
    ensures Next(s, Unregister(gone), retention) == Closed(s, gone)
    ensures s.links[gone].robotId == if s.links[gone].registered then s.links[gone].name else ""
  {
    hide LinkInv, SendersInv, RoutingInv, RestsInv, MarksInv, FramesInv, SubmissionsInv, TrackerInv, RegistryInv;
    var l := s.links[gone];
    assert LinkInv(l);
    if l.registered { RegisteredName(l); } else { UnregisteredId(l); }
  }

  lemma {:induction false} UnregisterKeepsReached(s: State, gone: nat, retention: Time)
    requires Inv(s, retention) && Enabled(s, Unregister(gone)) && NoOverlap(s.links) && AllReached(s)
    ensures AllReached(Next(s, Unregister(gone), retention))
  {
    hide LinkInv, SendersInv, RoutingInv, RestsInv, MarksInv, FramesInv, SubmissionsInv, TrackerInv, RegistryInv, Next;
    UnregisterReaches(s, gone, retention);
    var s' := Next(s, Unregister(gone), retention);
    forall i: nat | LiveLink(s', i) ensures Reached(s', i) {
      assert LiveLink(s, i) && i != gone;
    }
  }
}
