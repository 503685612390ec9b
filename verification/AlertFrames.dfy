/** What the engine says of a run of frames, read straight off the frames. */
module AlertFrames {
  import opened Domain
  import opened TrackerSpec
  import opened Wire
  import opened AlertSpec
  import opened AlertHistory
  import opened AlertCommands

  /** A frame, and the clock when it arrived. */
  datatype Shown = Shown(frame: SwarmState, now: int)

  /** The engine fed frame by frame. */
  function IngestAll(inside: Fence, fs: seq<Shown>): (Memory, seq<Alert>) {
    if fs == [] then (FRESH, [])
    else
      var before, last := IngestAll(inside, fs[..|fs| - 1]), fs[|fs| - 1];
      Then(before, SeeAll(before.0, inside, ItemsOf(last.frame, last.now)))
  }

  // ---- what the frames show -------------------------------------------------

  /** The statuses of one robot, in the order a frame lists them. */
  function LinksIn(rs: seq<RobotState>, now: int, id: RobotId): seq<LinkSighting> {
    if rs == [] then []
    else
      var r := rs[|rs| - 1];
      LinksIn(rs[..|rs| - 1], now, id) + if r.telemetry.robotId == id then [LinkSighting(r.linkStatus, now)] else []
  }

  function LinksShown(fs: seq<Shown>, id: RobotId): seq<LinkSighting> {
    if fs == [] then []
    else LinksShown(fs[..|fs| - 1], id) + LinksIn(fs[|fs| - 1].frame.robots, fs[|fs| - 1].now, id)
  }

  /** Where the frame shows the robot, inside the fence or outside, if its link is not lost. */
  function FencesIn(inside: Fence, rs: seq<RobotState>, now: int, id: RobotId): seq<FenceSighting> {
    if rs == [] then []
    else
      var r := rs[|rs| - 1];
      FencesIn(inside, rs[..|rs| - 1], now, id)
      + if r.telemetry.robotId == id && r.linkStatus != LinkLost
        then [FenceSighting(inside(r.telemetry.x, r.telemetry.y), now)] else []
  }

  function FencesShown(inside: Fence, fs: seq<Shown>, id: RobotId): seq<FenceSighting> {
    if fs == [] then []
    else
      FencesShown(inside, fs[..|fs| - 1], id) + FencesIn(inside, fs[|fs| - 1].frame.robots, fs[|fs| - 1].now, id)
  }

  /** The target statuses of a frame, command by command. */
  function StatusesIn(cs: seq<CommandStatus>, now: int): seq<Item> {
    if cs == [] then []
    else
      var c := cs[|cs| - 1];
      StatusesIn(cs[..|cs| - 1], now) + seq(|c.targets|, i requires 0 <= i < |c.targets| =>
        TargetSeen(c.commandId, c.targets[i], now))
  }

  function StatusesShown(fs: seq<Shown>): seq<Item> {
    if fs == [] then []
    else StatusesShown(fs[..|fs| - 1]) + StatusesIn(fs[|fs| - 1].frame.commands, fs[|fs| - 1].now)
  }

  /** A status is among those shown exactly if some frame shows it for some command. */
  lemma {:induction false} ShownByFrames(fs: seq<Shown>, x: Item)
    ensures x in StatusesShown(fs) <==> exists k, c, t :: ShownAt(fs, x, k, c, t)
    decreases |fs|
  {
    hide StatusesIn, ListedAt;
    if fs != [] {
      var n := |fs| - 1;
      ShownByFrames(fs[..n], x);
      ShownByCommands(fs[n].frame.commands, fs[n].now, x);
      assert forall k | 0 <= k < n :: fs[..n][k] == fs[k];
      if x in StatusesShown(fs[..n]) {
        var k, c, t :| ShownAt(fs[..n], x, k, c, t);
        assert ShownAt(fs, x, k, c, t);
      } else if x in StatusesIn(fs[n].frame.commands, fs[n].now) {
        var c, t :| ListedAt(fs[n].frame.commands, fs[n].now, x, c, t);
        assert ShownAt(fs, x, n, c, t);
      }
      if k, c, t :| ShownAt(fs, x, k, c, t) {
        if k < n { assert ShownAt(fs[..n], x, k, c, t); }
      }
    }
  }

  ghost predicate ShownAt(fs: seq<Shown>, x: Item, k: int, c: int, t: int) {
    0 <= k < |fs| && ListedAt(fs[k].frame.commands, fs[k].now, x, c, t)
  }

  ghost predicate ListedAt(cs: seq<CommandStatus>, now: int, x: Item, c: int, t: int) {
    0 <= c < |cs| && 0 <= t < |cs[c].targets| && x == TargetSeen(cs[c].commandId, cs[c].targets[t], now)
  }

  lemma {:induction false} ShownByCommands(cs: seq<CommandStatus>, now: int, x: Item)
    ensures x in StatusesIn(cs, now) <==> exists c, t :: ListedAt(cs, now, x, c, t)
    decreases |cs|
  {
    if cs != [] {
      var n := |cs| - 1;
      var last := seq(|cs[n].targets|, i requires 0 <= i < |cs[n].targets| =>
        TargetSeen(cs[n].commandId, cs[n].targets[i], now));
      ShownByCommands(cs[..n], now, x);
      assert StatusesIn(cs, now) == StatusesIn(cs[..n], now) + last;
      if x in StatusesIn(cs[..n], now) {
        var c, t :| ListedAt(cs[..n], now, x, c, t);
        assert ListedAt(cs, now, x, c, t);
      } else if x in last {
        var t :| 0 <= t < |last| && last[t] == x;
        assert ListedAt(cs, now, x, n, t);
      }
      if c, t :| ListedAt(cs, now, x, c, t) {
        if c < n { assert ListedAt(cs[..n], now, x, c, t); } else { assert last[t] == x; }
      }
    }
  }

  // ---- the frames as one run of items ---------------------------------------

  function ItemsShown(fs: seq<Shown>): seq<Item> {
    if fs == [] then []
    else ItemsShown(fs[..|fs| - 1]) + ItemsOf(fs[|fs| - 1].frame, fs[|fs| - 1].now)
  }

  /** Feeding frames one by one raises the alerts of the flattened run. */
  lemma {:induction false} FramesFlatten(inside: Fence, fs: seq<Shown>)
    ensures IngestAll(inside, fs) == SeeAll(FRESH, inside, ItemsShown(fs))
    decreases |fs|
  {
    if fs != [] {
      var n := |fs| - 1;
      FramesFlatten(inside, fs[..n]);
      SeeAllAppend(FRESH, inside, ItemsShown(fs[..n]), ItemsOf(fs[n].frame, fs[n].now));
    }
  }

  lemma {:induction false} CommandItemsAreStatuses(cs: seq<CommandStatus>, now: int)
    ensures CommandItems(cs, now) == StatusesIn(cs, now)
    decreases |cs|
  {
    if cs != [] { CommandItemsAreStatuses(cs[..|cs| - 1], now); }
  }

  lemma {:induction false} StatusesAreTargets(cs: seq<CommandStatus>, now: int)
    ensures forall i | 0 <= i < |StatusesIn(cs, now)| :: StatusesIn(cs, now)[i].TargetSeen?
    decreases |cs|
  {
    if cs != [] { StatusesAreTargets(cs[..|cs| - 1], now); }
  }

  /** A frame is taken robots first, in order, then every target of every command, in order. */
  lemma {:induction false} FrameInOrder(frame: SwarmState, now: int)
    ensures |ItemsOf(frame, now)| == |frame.robots| + |StatusesIn(frame.commands, now)|
    ensures forall i | 0 <= i < |frame.robots| :: ItemsOf(frame, now)[i] == RobotSeen(frame.robots[i], now)
    ensures ItemsOf(frame, now)[|frame.robots|..] == StatusesIn(frame.commands, now)
  {
    CommandItemsAreStatuses(frame.commands, now);
  }

  // ---- robots ---------------------------------------------------------------

  lemma {:induction false} SightingsAppend(inside: Fence, a: seq<Item>, b: seq<Item>, id: RobotId)
    ensures LinkSightings(a + b, id) == LinkSightings(a, id) + LinkSightings(b, id)
    ensures FenceSightings(inside, a + b, id) == FenceSightings(inside, a, id) + FenceSightings(inside, b, id)
    decreases |b|
  {
    if b == [] {
      assert a + b == a;
    } else {
      assert (a + b)[..|a + b| - 1] == a + b[..|b| - 1];
      SightingsAppend(inside, a, b[..|b| - 1], id);
    }
  }

  lemma {:induction false} SightingsOfRobots(inside: Fence, rs: seq<RobotState>, items: seq<Item>, now: int,
      id: RobotId)
    requires |items| == |rs| && forall i | 0 <= i < |rs| :: items[i] == RobotSeen(rs[i], now)
    ensures LinkSightings(items, id) == LinksIn(rs, now, id)
    ensures FenceSightings(inside, items, id) == FencesIn(inside, rs, now, id)
    decreases |rs|
  {
    if rs != [] { SightingsOfRobots(inside, rs[..|rs| - 1], items[..|rs| - 1], now, id); }
  }

  lemma {:induction false} NoSightings(inside: Fence, items: seq<Item>, id: RobotId)
    requires forall i | 0 <= i < |items| :: items[i].TargetSeen?
    ensures LinkSightings(items, id) == [] && FenceSightings(inside, items, id) == []
    decreases |items|
  {
    if items != [] { NoSightings(inside, items[..|items| - 1], id); }
  }

  lemma {:induction false} SightingsOfFrame(inside: Fence, frame: SwarmState, now: int, id: RobotId)
    ensures LinkSightings(ItemsOf(frame, now), id) == LinksIn(frame.robots, now, id)
    ensures FenceSightings(inside, ItemsOf(frame, now), id) == FencesIn(inside, frame.robots, now, id)
  {
    hide LinkSightings, FenceSightings, ItemsOf;
    var items, n := ItemsOf(frame, now), |frame.robots|;
    FrameInOrder(frame, now);
    StatusesAreTargets(frame.commands, now);
    assert items == items[..n] + items[n..];
    SightingsAppend(inside, items[..n], items[n..], id);
    SightingsOfRobots(inside, frame.robots, items[..n], now, id);
    NoSightings(inside, items[n..], id);
  }

  lemma {:induction false} SightingsShown(inside: Fence, fs: seq<Shown>, id: RobotId)
    ensures LinkSightings(ItemsShown(fs), id) == LinksShown(fs, id)
    ensures FenceSightings(inside, ItemsShown(fs), id) == FencesShown(inside, fs, id)
    decreases |fs|
  {
    hide ItemsOf;
    if fs != [] {
      var n := |fs| - 1;
      SightingsShown(inside, fs[..n], id);
      SightingsOfFrame(inside, fs[n].frame, fs[n].now, id);
      SightingsAppend(inside, ItemsShown(fs[..n]), ItemsOf(fs[n].frame, fs[n].now), id);
    }
  }

  /**
   For any run of frames and any robot: its link alerts and its geofence alerts are exactly those its entries in the
   frames call for, in order, at the times the frames arrived.
   */
  lemma {:induction false} FramesRaiseRobotAlerts(inside: Fence, fs: seq<Shown>, id: RobotId)
    ensures NotesOf(IngestAll(inside, fs).1, LinkAlert, id) == LinkNotes(LinksShown(fs, id))
    ensures NotesOf(IngestAll(inside, fs).1, GeofenceAlert, id) == FenceNotes(FencesShown(inside, fs, id))
  {
    hide NotesOf, LinkNotes, FenceNotes, IngestAll, Remembers;
    FramesFlatten(inside, fs);
    SightingsShown(inside, fs, id);
    RobotAlertsAreHistory(inside, ItemsShown(fs), id);
  }

  // ---- targets --------------------------------------------------------------

  function TargetsOnly(items: seq<Item>): seq<Item> {
    if items == [] then []
    else TargetsOnly(items[..|items| - 1]) + if items[|items| - 1].TargetSeen? then [items[|items| - 1]] else []
  }

  lemma {:induction false} TargetsOnlyAppend(a: seq<Item>, b: seq<Item>)
    ensures TargetsOnly(a + b) == TargetsOnly(a) + TargetsOnly(b)
    decreases |b|
  {
    if b == [] {
      assert a + b == a;
    } else {
      assert (a + b)[..|a + b| - 1] == a + b[..|b| - 1];
      TargetsOnlyAppend(a, b[..|b| - 1]);
    }
  }

  lemma {:induction false} TargetsOnlyAll(items: seq<Item>)
    requires forall i | 0 <= i < |items| :: items[i].TargetSeen?
    ensures TargetsOnly(items) == items
    decreases |items|
  {
    if items != [] {
      var n := |items| - 1;
      TargetsOnlyAll(items[..n]);
      assert items == items[..n] + [items[n]];
    }
  }

  lemma {:induction false} TargetsOnlyNone(items: seq<Item>)
    requires forall i | 0 <= i < |items| :: items[i].RobotSeen?
    ensures TargetsOnly(items) == []
    decreases |items|
  {
    if items != [] { TargetsOnlyNone(items[..|items| - 1]); }
  }

  lemma {:induction false} TargetsOfFrame(frame: SwarmState, now: int)
    ensures TargetsOnly(ItemsOf(frame, now)) == StatusesIn(frame.commands, now)
  {
    hide ItemsOf, TargetsOnly, StatusesIn;
    var items, k := ItemsOf(frame, now), |frame.robots|;
    FrameInOrder(frame, now);
    StatusesAreTargets(frame.commands, now);
    assert items == items[..k] + items[k..];
    TargetsOnlyAppend(items[..k], items[k..]);
    TargetsOnlyNone(items[..k]);
    TargetsOnlyAll(items[k..]);
  }

  lemma {:induction false} TargetsShown(fs: seq<Shown>)
    ensures TargetsOnly(ItemsShown(fs)) == StatusesShown(fs)
    decreases |fs|
  {
    hide ItemsOf, StatusesIn;
    if fs != [] {
      var n := |fs| - 1;
      hide TargetsOnly;
      TargetsShown(fs[..n]);
      TargetsOfFrame(fs[n].frame, fs[n].now);
      TargetsOnlyAppend(ItemsShown(fs[..n]), ItemsOf(fs[n].frame, fs[n].now));
    }
  }

  lemma {:induction false} TargetsOnlyHolds(items: seq<Item>, x: Item)
    requires x.TargetSeen?
    ensures x in TargetsOnly(items) <==> x in items
    decreases |items|
  {
    if items != [] {
      assert items == items[..|items| - 1] + [items[|items| - 1]];
      TargetsOnlyHolds(items[..|items| - 1], x);
    }
  }

  /** No item of the sequence shows the same failure. */
  ghost predicate NewFailure(items: seq<Item>, x: Item, byKey: bool) {
    forall y | y in items :: !SameFailure(y, x, byKey)
  }

  lemma {:induction false} FirstsAreTargets(items: seq<Item>, byKey: bool)
    ensures FirstFailures(items, byKey) == FirstFailures(TargetsOnly(items), byKey)
    decreases |items|
  {
    hide SameFailure;
    if items != [] {
      var n := |items| - 1;
      var pre, x := items[..n], items[n];
      FirstsAreTargets(pre, byKey);
      FirstIfNew(pre, x, byKey);
      if x.TargetSeen? {
        var ts := TargetsOnly(pre);
        FirstIfNew(ts, x, byKey);
        assert (ts + [x])[..|ts|] == ts;
        assert pre + [x] == items;
        forall y | SameFailure(y, x, byKey) ensures y in ts <==> y in pre {
          FailureIsTarget(y, x, byKey);
          TargetsOnlyHolds(pre, y);
        }
      } else {
        assert TargetsOnly(items) == TargetsOnly(pre) && !IsFirst(items, n, byKey);
      }
    }
  }

  lemma {:induction false} FailureIsTarget(y: Item, x: Item, byKey: bool)
    requires SameFailure(y, x, byKey)
    ensures y.TargetSeen?
  {
  }

  lemma {:induction false} FirstIfNew(pre: seq<Item>, x: Item, byKey: bool)
    ensures IsFirst(pre + [x], |pre|, byKey) <==> Fails(x) && NewFailure(pre, x, byKey)
  {
    hide SameFailure;
    var items := pre + [x];
    assert forall j | 0 <= j < |pre| :: items[j] == pre[j] && pre[j] in pre;
    if IsFirst(items, |pre|, byKey) {
      forall y | y in pre ensures !SameFailure(y, x, byKey) {
        var j :| 0 <= j < |pre| && pre[j] == y;
        assert items[j] == y;
      }
    }
  }

  /**
   For any run of frames: the command alerts are exactly one for each key of a target the frames show failed, with what
   it showed and when, at its first showing.
   */
  lemma {:induction false} FramesRaiseCommandAlerts(inside: Fence, fs: seq<Shown>)
    ensures forall x | x in FirstFailures(StatusesShown(fs), true) :: Fails(x)
    ensures CommandAlerts(IngestAll(inside, fs).1) == AlertsFor(FirstFailures(StatusesShown(fs), true))
  {
    hide IngestAll, CommandAlerts, StatusesShown, ItemsShown, RemembersFailures;
    FramesFlatten(inside, fs);
    TargetsShown(fs);
    FirstsAreTargets(ItemsShown(fs), true);
    FailuresAlertOnce(inside, ItemsShown(fs));
  }

  // ---- the whole output, in order -------------------------------------------

  /** An alert without its id. */
  datatype Saying = Saying(kind: Kind, robotId: RobotId, note: Note)

  function Sayings(out: seq<Alert>): (r: seq<Saying>)
    ensures |r| == |out|
    ensures forall i | 0 <= i < |out| ::
      r[i] == Saying(out[i].kind, out[i].robotId, Note(out[i].severity, out[i].ts, out[i].message))
  {
    seq(|out|, i requires 0 <= i < |out| =>
      Saying(out[i].kind, out[i].robotId, Note(out[i].severity, out[i].ts, out[i].message)))
  }

  function Say(kind: Kind, id: RobotId, notes: seq<Note>): (r: seq<Saying>)
    ensures |r| == |notes| && forall i | 0 <= i < |notes| :: r[i] == Saying(kind, id, notes[i])
  {
    seq(|notes|, i requires 0 <= i < |notes| => Saying(kind, id, notes[i]))
  }

  /** What one item calls for, given those before it: a robot's link first, then its fence. */
  ghost function CallsFor(inside: Fence, before: seq<Item>, x: Item): seq<Saying> {
    match x
    case RobotSeen(r, at) =>
      var id := r.telemetry.robotId;
      var links, fences := LinkSightings(before, id), FenceSightings(inside, before, id);
      var side := inside(r.telemetry.x, r.telemetry.y);
      Say(LinkAlert, id, if links == [] || links[|links| - 1].status == r.linkStatus then []
                         else LinkNote(links[|links| - 1].status, r.linkStatus, at))
      + Say(GeofenceAlert, id, if r.linkStatus == LinkLost then []
                               else FenceNote(if fences == [] then None else Some(fences[|fences| - 1].inside), side, at))
    case TargetSeen(c, t, at) =>
      Say(CommandAlert, t.robotId, if Fails(x) && NewFailure(before, x, true)
                                   then [Note(Warn, at, CommandFailed(t.state, t.detail))] else [])
  }

  ghost function AllCallsFor(inside: Fence, items: seq<Item>): seq<Saying> {
    if items == [] then []
    else AllCallsFor(inside, items[..|items| - 1]) + CallsFor(inside, items[..|items| - 1], items[|items| - 1])
  }

  lemma {:induction false} EmitSays(m: Memory, kind: Kind, id: RobotId, notes: seq<Note>)
    requires |notes| <= 1
    ensures Sayings(Emit(m, kind, id, notes).1) == Say(kind, id, notes)
  {
  }

  lemma {:induction false} SayingsAppend(a: seq<Alert>, b: seq<Alert>)
    ensures Sayings(a + b) == Sayings(a) + Sayings(b)
  {
  }

  lemma {:induction false} LinkCalls(m: Memory, links: seq<LinkSighting>, id: RobotId, cur: LinkStatus, at: int)
    requires RemembersLink(m.prevLink, links, id)
    ensures Sayings(SeeLink(m, id, cur, at).1) ==
      Say(LinkAlert, id, if links == [] || links[|links| - 1].status == cur then []
                         else LinkNote(links[|links| - 1].status, cur, at))
  {
    hide Emit, LinkNote;
    var notes := if id in m.prevLink && m.prevLink[id] != cur then LinkNote(m.prevLink[id], cur, at) else [];
    if notes != [] { LinkNoteReads(m.prevLink[id], cur, at); }
    EmitSays(m, LinkAlert, id, notes);
  }

  lemma {:induction false} FenceCalls(m: Memory, inside: Fence, fences: seq<FenceSighting>, r: RobotState, at: int)
    requires RemembersFence(m.prevInside, fences, r.telemetry.robotId)
    ensures Sayings(SeeFence(m, inside, r, at).1) ==
      Say(GeofenceAlert, r.telemetry.robotId,
          if r.linkStatus == LinkLost then []
          else FenceNote(if fences == [] then None else Some(fences[|fences| - 1].inside),
                         inside(r.telemetry.x, r.telemetry.y), at))
  {
    hide Emit, FenceNote;
    var id, side := r.telemetry.robotId, inside(r.telemetry.x, r.telemetry.y);
    var prev := if id in m.prevInside then Some(m.prevInside[id]) else None;
    FenceNoteReads(prev, side, at);
    EmitSays(m, GeofenceAlert, id, FenceNote(prev, side, at));
  }

  lemma {:induction false} RobotCalls(m: Memory, inside: Fence, before: seq<Item>, r: RobotState, at: int)
    requires Remembers(m, inside, before, r.telemetry.robotId)
    ensures Sayings(See(m, inside, RobotSeen(r, at)).1) == CallsFor(inside, before, RobotSeen(r, at))
  {
    hide SeeLink, SeeFence, LinkNote, FenceNote, LinkSightings, FenceSightings, RemembersLink, RemembersFence, Say,
         Sayings;
    var id := r.telemetry.robotId;
    var (m1, out1) := SeeLink(m, id, r.linkStatus, at);
    var (m2, out2) := SeeFence(m1, inside, r, at);
    SeeLinkNotes(m, id, r.linkStatus, at, id);
    LinkCalls(m, LinkSightings(before, id), id, r.linkStatus, at);
    FenceCalls(m1, inside, FenceSightings(inside, before, id), r, at);
    SayingsAppend(out1, out2);
  }

  lemma {:induction false} TargetCalls(m: Memory, inside: Fence, before: seq<Item>, x: Item)
    requires x.TargetSeen? && RemembersFailures(m.seen, before)
    ensures Sayings(See(m, inside, x).1) == CallsFor(inside, before, x)
  {
    hide Emit, IsFirst;
    var items := before + [x];
    assert items[..|before|] == before && items[|before|] == x;
    FirstIfNew(before, x, true);
    if Fails(x) { SeenIffNotFirst(m.seen, items); }
    EmitSays(m.(seen := m.seen + {Key(x.commandId, x.status.robotId)}), CommandAlert, x.status.robotId,
             [Note(Warn, x.at, CommandFailed(x.status.state, x.status.detail))]);
  }

  /** The whole output of the engine, in order: what each robot entry and each target status calls for, one by one. */
  lemma {:induction false} AlertsInOrder(inside: Fence, items: seq<Item>)
    ensures Sayings(Alerts(inside, items)) == AllCallsFor(inside, items)
    decreases |items|
  {
    hide See, Remembers, RemembersFailures, CallsFor, NotesOf;
    if items != [] {
      var n := |items| - 1;
      var before := SeeAll(FRESH, inside, items[..n]);
      AlertsInOrder(inside, items[..n]);
      SayingsAppend(before.1, See(before.0, inside, items[n]).1);
      match items[n] {
        case RobotSeen(r, at) =>
          RobotAlertsAreHistory(inside, items[..n], r.telemetry.robotId);
          RobotCalls(before.0, inside, items[..n], r, at);
        case TargetSeen(_, _, _) =>
          FailuresAlertOnce(inside, items[..n]);
          TargetCalls(before.0, inside, items[..n], items[n]);
      }
    }
  }
}
