/**
 The alert engine against its history: after any run of frames its alerts are a declarative function of everything
 the frames showed. Runs are sequences of sightings and target statuses, which is what the frames of a run flatten to.
 */
module AlertHistory {
  import opened Domain
  import opened TrackerSpec
  import opened Wire
  import opened AlertSpec

  function Alerts(inside: Fence, items: seq<Item>): seq<Alert> { SeeAll(FRESH, inside, items).1 }

  // ---- projections ----------------------------------------------------------

  /** What the alerts of one kind say about one robot, in order. */
  function NotesOf(out: seq<Alert>, kind: Kind, id: RobotId): seq<Note> {
    if out == [] then []
    else
      var a := out[|out| - 1];
      NotesOf(out[..|out| - 1], kind, id)
      + if a.kind == kind && a.robotId == id then [Note(a.severity, a.ts, a.message)] else []
  }

  lemma {:induction false} NotesAppend(a: seq<Alert>, b: seq<Alert>, kind: Kind, id: RobotId)
    ensures NotesOf(a + b, kind, id) == NotesOf(a, kind, id) + NotesOf(b, kind, id)
    decreases |b|
  {
    if b == [] {
      assert a + b == a;
    } else {
      assert (a + b)[..|a + b| - 1] == a + b[..|b| - 1];
      NotesAppend(a, b[..|b| - 1], kind, id);
    }
  }

  lemma {:induction false} NotesOfEmit(m: Memory, k: Kind, robot: RobotId, notes: seq<Note>, kind: Kind, id: RobotId)
    requires |notes| <= 1
    ensures NotesOf(Emit(m, k, robot, notes).1, kind, id) == if k == kind && robot == id then notes else []
  {
    var out := Emit(m, k, robot, notes).1;
    if notes != [] {
      assert out[..|out| - 1] == [];
    }
  }

  datatype LinkSighting = LinkSighting(status: LinkStatus, at: int)

  /** Every status the frames showed for the robot. */
  function LinkSightings(items: seq<Item>, id: RobotId): seq<LinkSighting> {
    if items == [] then []
    else LinkSightings(items[..|items| - 1], id) + match items[|items| - 1]
      case RobotSeen(r, at) => if r.telemetry.robotId == id then [LinkSighting(r.linkStatus, at)] else []
      case TargetSeen(_, _, _) => []
  }

  datatype FenceSighting = FenceSighting(inside: bool, at: int)

  /** Inside or outside, at every sighting whose link was not lost. */
  function FenceSightings(inside: Fence, items: seq<Item>, id: RobotId): seq<FenceSighting> {
    if items == [] then []
    else FenceSightings(inside, items[..|items| - 1], id) + match items[|items| - 1]
      case RobotSeen(r, at) =>
        if r.telemetry.robotId == id && r.linkStatus != LinkLost
        then [FenceSighting(inside(r.telemetry.x, r.telemetry.y), at)] else []
      case TargetSeen(_, _, _) => []
  }

  // ---- link alerts ----------------------------------------------------------

  /** One note for each change of status between neighbouring sightings. */
  function LinkNotes(ss: seq<LinkSighting>): seq<Note> {
    if |ss| < 2 then []
    else
      var n := |ss| - 1;
      LinkNotes(ss[..n])
      + if ss[n - 1].status == ss[n].status then [] else LinkNote(ss[n - 1].status, ss[n].status, ss[n].at)
  }

  lemma {:induction false} NotesOfSee(m: Memory, inside: Fence, item: Item, id: RobotId)
    ensures NotesOf(See(m, inside, item).1, LinkAlert, id) ==
      if item.RobotSeen? && item.state.telemetry.robotId == id && id in m.prevLink && m.prevLink[id] != item.state.linkStatus
      then LinkNote(m.prevLink[id], item.state.linkStatus, item.at) else []
    ensures NotesOf(See(m, inside, item).1, GeofenceAlert, id) ==
      if item.RobotSeen? && item.state.telemetry.robotId == id && item.state.linkStatus != LinkLost
      then FenceNote(if id in m.prevInside then Some(m.prevInside[id]) else None,
                     inside(item.state.telemetry.x, item.state.telemetry.y), item.at)
      else []
  {
    match item
    case RobotSeen(r, at) =>
      var robot := r.telemetry.robotId;
      var (m1, out1) := SeeLink(m, robot, r.linkStatus, at);
      var (m2, out2) := SeeFence(m1, inside, r, at);
      SeeLinkNotes(m, robot, r.linkStatus, at, id);
      SeeFenceNotes(m1, inside, r, at, id);
      NotesAppend(out1, out2, LinkAlert, id);
      NotesAppend(out1, out2, GeofenceAlert, id);
    case TargetSeen(c, t, at) =>
      var key := Key(c, t.robotId);
      NotesOfEmit(m.(seen := m.seen + {key}), CommandAlert, t.robotId, [Note(Warn, at, CommandFailed(t.state, t.detail))], LinkAlert, id);
      NotesOfEmit(m.(seen := m.seen + {key}), CommandAlert, t.robotId, [Note(Warn, at, CommandFailed(t.state, t.detail))], GeofenceAlert, id);
  }

  lemma {:induction false} SeeLinkNotes(m: Memory, robot: RobotId, cur: LinkStatus, at: int, id: RobotId)
    ensures var r := SeeLink(m, robot, cur, at);
      && NotesOf(r.1, GeofenceAlert, id) == []
      && NotesOf(r.1, LinkAlert, id) ==
           (if robot == id && id in m.prevLink && m.prevLink[id] != cur then LinkNote(m.prevLink[id], cur, at) else [])
      && r.0.prevInside == m.prevInside && r.0.prevLink == m.prevLink[robot := cur]
  {
    var notes := if robot in m.prevLink && m.prevLink[robot] != cur then LinkNote(m.prevLink[robot], cur, at) else [];
    NotesOfEmit(m, LinkAlert, robot, notes, LinkAlert, id);
    NotesOfEmit(m, LinkAlert, robot, notes, GeofenceAlert, id);
  }

  lemma {:induction false} SeeFenceNotes(m: Memory, inside: Fence, r: RobotState, at: int, id: RobotId)
    ensures var s, robot := SeeFence(m, inside, r, at), r.telemetry.robotId;
      && NotesOf(s.1, LinkAlert, id) == []
      && NotesOf(s.1, GeofenceAlert, id) ==
           (if robot == id && r.linkStatus != LinkLost
            then FenceNote(if id in m.prevInside then Some(m.prevInside[id]) else None,
                           inside(r.telemetry.x, r.telemetry.y), at)
            else [])
      && s.0.prevLink == m.prevLink
      && s.0.prevInside == (if r.linkStatus == LinkLost then m.prevInside
                            else m.prevInside[robot := inside(r.telemetry.x, r.telemetry.y)])
  {
    var robot := r.telemetry.robotId;
    var prev := if robot in m.prevInside then Some(m.prevInside[robot]) else None;
    var notes := FenceNote(prev, inside(r.telemetry.x, r.telemetry.y), at);
    NotesOfEmit(m, GeofenceAlert, robot, notes, LinkAlert, id);
    NotesOfEmit(m, GeofenceAlert, robot, notes, GeofenceAlert, id);
  }

  ghost predicate RemembersLink(prev: map<RobotId, LinkStatus>, links: seq<LinkSighting>, id: RobotId) {
    && (id in prev <==> links != [])
    && (links != [] ==> prev[id] == links[|links| - 1].status)
  }

  ghost predicate RemembersFence(prev: map<RobotId, bool>, fences: seq<FenceSighting>, id: RobotId) {
    && (id in prev <==> fences != [])
    && (fences != [] ==> prev[id] == fences[|fences| - 1].inside)
  }

  /** The memory the engine keeps of a robot is its last sighting and its last sighting that was not lost. */
  ghost predicate Remembers(m: Memory, inside: Fence, items: seq<Item>, id: RobotId) {
    && RemembersLink(m.prevLink, LinkSightings(items, id), id)
    && RemembersFence(m.prevInside, FenceSightings(inside, items, id), id)
  }

  lemma {:induction false} NextLinkMemory(prev: map<RobotId, LinkStatus>, links: seq<LinkSighting>, robot: RobotId,
                                          s: LinkSighting, id: RobotId)
    requires RemembersLink(prev, links, id)
    ensures RemembersLink(prev[robot := s.status], links + if robot == id then [s] else [], id)
  {
  }

  lemma {:induction false} NextFenceMemory(prev: map<RobotId, bool>, fences: seq<FenceSighting>, robot: RobotId,
                                           s: FenceSighting, id: RobotId)
    requires RemembersFence(prev, fences, id)
    ensures RemembersFence(prev[robot := s.inside], fences + if robot == id then [s] else [], id)
  {
  }

  lemma {:induction false} SeeRemembers(m: Memory, inside: Fence, items: seq<Item>, id: RobotId)
    requires items != [] && Remembers(m, inside, items[..|items| - 1], id)
    ensures Remembers(See(m, inside, items[|items| - 1]).0, inside, items, id)
  {
    hide SeeLink, SeeFence, Emit, NotesOf, LinkNote, FenceNote, RemembersLink, RemembersFence;
    var before := items[..|items| - 1];
    var links, fences := LinkSightings(before, id), FenceSightings(inside, before, id);
    match items[|items| - 1] {
      case RobotSeen(r, at) =>
        var robot, cur, side := r.telemetry.robotId, r.linkStatus, inside(r.telemetry.x, r.telemetry.y);
        SeeLinkNotes(m, robot, cur, at, id);
        SeeFenceNotes(SeeLink(m, robot, cur, at).0, inside, r, at, id);
        NextLinkMemory(m.prevLink, links, robot, LinkSighting(cur, at), id);
        NextFenceMemory(m.prevInside, fences, robot, FenceSighting(side, at), id);
        if cur == LinkLost { assert FenceSightings(inside, items, id) == fences + [] == fences; }
      case TargetSeen(_, _, _) =>
        assert LinkSightings(items, id) == links + [] == links;
        assert FenceSightings(inside, items, id) == fences + [] == fences;
    }
  }

  /** For any run and any robot: its link alerts and its geofence alerts are exactly those its sightings call for. */
  lemma {:induction false} RobotAlertsAreHistory(inside: Fence, items: seq<Item>, id: RobotId)
    ensures NotesOf(Alerts(inside, items), LinkAlert, id) == LinkNotes(LinkSightings(items, id))
    ensures NotesOf(Alerts(inside, items), GeofenceAlert, id) == FenceNotes(FenceSightings(inside, items, id))
    ensures Remembers(SeeAll(FRESH, inside, items).0, inside, items, id)
    decreases |items|
  {
    if items != [] {
      var n := |items| - 1;
      RobotAlertsAreHistory(inside, items[..n], id);
      var before := SeeAll(FRESH, inside, items[..n]);
      var last := See(before.0, inside, items[n]);
      NotesOfSee(before.0, inside, items[n], id);
      NotesAppend(before.1, last.1, LinkAlert, id);
      NotesAppend(before.1, last.1, GeofenceAlert, id);
      SeeRemembers(before.0, inside, items, id);
      NextLink(before.0, inside, items, id);
      NextFence(before.0, inside, items, id);
    }
  }

  /** One more item extends the expected link notes by what the engine's memory makes of it. */
  lemma {:induction false} NextLink(m: Memory, inside: Fence, items: seq<Item>, id: RobotId)
    requires items != [] && Remembers(m, inside, items[..|items| - 1], id)
    ensures var item := items[|items| - 1];
      LinkNotes(LinkSightings(items, id)) == LinkNotes(LinkSightings(items[..|items| - 1], id)) +
        if item.RobotSeen? && item.state.telemetry.robotId == id && id in m.prevLink && m.prevLink[id] != item.state.linkStatus
        then LinkNote(m.prevLink[id], item.state.linkStatus, item.at) else []
  {
    var before, item := LinkSightings(items[..|items| - 1], id), items[|items| - 1];
    if item.RobotSeen? && item.state.telemetry.robotId == id {
      LinkNotesNext(before, LinkSighting(item.state.linkStatus, item.at));
    } else {
      assert LinkSightings(items, id) == before;
    }
  }

  lemma {:induction false} NextFence(m: Memory, inside: Fence, items: seq<Item>, id: RobotId)
    requires items != [] && Remembers(m, inside, items[..|items| - 1], id)
    ensures var item := items[|items| - 1];
      FenceNotes(FenceSightings(inside, items, id)) == FenceNotes(FenceSightings(inside, items[..|items| - 1], id)) +
        if item.RobotSeen? && item.state.telemetry.robotId == id && item.state.linkStatus != LinkLost
        then FenceNote(if id in m.prevInside then Some(m.prevInside[id]) else None,
                       inside(item.state.telemetry.x, item.state.telemetry.y), item.at)
        else []
  {
    var before, item := FenceSightings(inside, items[..|items| - 1], id), items[|items| - 1];
    if item.RobotSeen? && item.state.telemetry.robotId == id && item.state.linkStatus != LinkLost {
      var side := inside(item.state.telemetry.x, item.state.telemetry.y);
      FenceNotesNext(before, FenceSighting(side, item.at),
                     if id in m.prevInside then Some(m.prevInside[id]) else None);
    } else {
      assert FenceSightings(inside, items, id) == before;
    }
  }

  lemma {:induction false} LinkNotesNext(ss: seq<LinkSighting>, s: LinkSighting)
    ensures LinkNotes(ss + [s]) == LinkNotes(ss) +
      if ss == [] || ss[|ss| - 1].status == s.status then [] else LinkNote(ss[|ss| - 1].status, s.status, s.at)
  {
    assert (ss + [s])[..|ss|] == ss;
  }

  lemma {:induction false} FenceNotesNext(ss: seq<FenceSighting>, s: FenceSighting, prev: Option<bool>)
    requires prev == if ss == [] then None else Some(ss[|ss| - 1].inside)
    ensures FenceNotes(ss + [s]) == FenceNotes(ss) + FenceNote(prev, s.inside, s.at)
  {
    assert (ss + [s])[..|ss|] == ss;
  }

  /** Neighbouring repeats removed. */
  function Destutter<T(==)>(ss: seq<T>): (r: seq<T>)
    ensures ss != [] ==> r != [] && r[|r| - 1] == ss[|ss| - 1]
  {
    if |ss| < 2 then ss
    else
      var n := |ss| - 1;
      if ss[n - 1] == ss[n] then Destutter(ss[..n]) else Destutter(ss[..n]) + [ss[n]]
  }

  function Statuses(ss: seq<LinkSighting>): (r: seq<LinkStatus>)
    ensures |r| == |ss| && forall i | 0 <= i < |ss| :: r[i] == ss[i].status
  {
    seq(|ss|, i requires 0 <= i < |ss| => ss[i].status)
  }

  function Severities(notes: seq<Note>): (r: seq<Severity>)
    ensures |r| == |notes| && forall i | 0 <= i < |notes| :: r[i] == notes[i].severity
  {
    seq(|notes|, i requires 0 <= i < |notes| => notes[i].severity)
  }

  function SeverityOf(s: LinkStatus): Severity {
    match s
    case LinkStale => Warn
    case LinkLost => Critical
    case _ => Info
  }

  function SeveritiesOf(ss: seq<LinkStatus>): (r: seq<Severity>)
    ensures |r| == |ss| && forall i | 0 <= i < |ss| :: r[i] == SeverityOf(ss[i])
  {
    seq(|ss|, i requires 0 <= i < |ss| => SeverityOf(ss[i]))
  }

  lemma {:induction false} DestutterNext<T>(ss: seq<T>, s: T)
    requires ss != []
    ensures Destutter(ss + [s]) == if ss[|ss| - 1] == s then Destutter(ss) else Destutter(ss) + [s]
  {
    var n, longer := |ss|, ss + [s];
    assert longer[..n] == ss;
    assert longer[n] == s && longer[n - 1] == ss[n - 1];
  }

  lemma {:induction false} SeveritiesAppend(notes: seq<Note>, note: Note, ss: seq<LinkStatus>, s: LinkStatus)
    requires Severities(notes) == SeveritiesOf(ss) && note.severity == SeverityOf(s)
    ensures Severities(notes + [note]) == SeveritiesOf(ss + [s])
  {
    assert Severities(notes + [note]) == Severities(notes) + [note.severity];
    assert SeveritiesOf(ss + [s]) == SeveritiesOf(ss) + [SeverityOf(s)];
  }

  function MessageOf(s: LinkStatus): Message {
    match s
    case LinkStale => WentStale
    case LinkLost => WentLost
    case _ => Recovered
  }

  /** A change of status is told at once, by the new status alone; nothing is told of an unspecified one. */
  lemma {:induction false} LinkNoteReads(prev: LinkStatus, cur: LinkStatus, at: int)
    requires prev != cur
    ensures LinkNote(prev, cur, at) ==
      if cur == LinkUnspecified || (cur == LinkLive && prev == LinkUnspecified) then []
      else [Note(SeverityOf(cur), at, MessageOf(cur))]
  {
  }

  /** So is a change of side, the first sighting being compared with inside. */
  lemma {:induction false} FenceNoteReads(prev: Option<bool>, inside: bool, at: int)
    ensures FenceNote(prev, inside, at) ==
      if Or(prev, true) == inside then []
      else if inside then [Note(Info, at, Reentered)]
      else [Note(Critical, at, if prev.None? then FoundOutside else Breached)]
  {
  }

  /** The message of a link alert goes with its severity. */
  lemma {:induction false} LinkNotesSay(ss: seq<LinkSighting>)
    ensures forall i | 0 <= i < |LinkNotes(ss)| :: LinkNotes(ss)[i].message == match LinkNotes(ss)[i].severity
      case Info => Recovered
      case Warn => WentStale
      case Critical => WentLost
    decreases |ss|
  {
    hide LinkNote;
    if |ss| >= 2 {
      var n := |ss| - 1;
      LinkNotesSay(ss[..n]);
      if ss[n - 1].status != ss[n].status { LinkNoteReads(ss[n - 1].status, ss[n].status, ss[n].at); }
    }
  }

  lemma {:induction false} NotesFollowChanges(ss: seq<LinkSighting>)
    requires ss != [] && forall i | 0 <= i < |ss| :: !ss[i].status.LinkUnspecified?
    ensures Destutter(Statuses(ss)) != []
    ensures Severities(LinkNotes(ss)) == SeveritiesOf(Destutter(Statuses(ss))[1..])
    decreases |ss|
  {
    hide Destutter, Statuses, Severities, SeveritiesOf, SeverityOf, MessageOf, LinkNote;
    var n := |ss| - 1;
    if n == 0 {
      assert Severities(LinkNotes(ss)) == [] == SeveritiesOf([]);
      assert Statuses(ss) == [ss[0].status];
      DestutterOne(ss[0].status);
    } else {
      var pre, a, b := ss[..n], ss[n - 1], ss[n];
      NotesFollowChanges(pre);
      assert Statuses(ss) == Statuses(pre) + [b.status];
      DestutterNext(Statuses(pre), b.status);
      var d := Destutter(Statuses(pre));
      if a.status == b.status {
        assert LinkNotes(pre) + [] == LinkNotes(pre);
      } else {
        LinkNoteReads(a.status, b.status, b.at);
        var note := LinkNote(a.status, b.status, b.at);
        assert (d + [b.status])[1..] == d[1..] + [b.status];
        SeveritiesAppend(LinkNotes(pre), note[0], d[1..], b.status);
      }
    }
  }

  lemma {:induction false} DestutterOne<T>(s: T)
    ensures Destutter([s]) == [s]
  {
  }

  /**
   A robot's link alerts are its history of LIVE, STALE and LOST with repeats removed, after the first element,
   with severity and message fixed by the new status.
   */
  lemma {:induction false} LinkAlertsAreTheDestutteredHistory(inside: Fence, items: seq<Item>, id: RobotId)
    requires LinkSightings(items, id) != []
    requires forall i | 0 <= i < |LinkSightings(items, id)| :: !LinkSightings(items, id)[i].status.LinkUnspecified?
    ensures Severities(NotesOf(Alerts(inside, items), LinkAlert, id))
      == SeveritiesOf(Destutter(Statuses(LinkSightings(items, id)))[1..])
    ensures var notes := NotesOf(Alerts(inside, items), LinkAlert, id);
      forall i | 0 <= i < |notes| :: notes[i].message == match notes[i].severity
        case Info => Recovered
        case Warn => WentStale
        case Critical => WentLost
  {
    hide NotesOf, Alerts, LinkNotes, LinkSightings, Severities, SeveritiesOf, Destutter, Statuses, Remembers;
    RobotAlertsAreHistory(inside, items, id);
    NotesFollowChanges(LinkSightings(items, id));
    LinkNotesSay(LinkSightings(items, id));
  }

  // ---- geofence alerts ------------------------------------------------------

  /** One note for each change of side, a virtual first sighting being inside. */
  function FenceNotes(ss: seq<FenceSighting>): seq<Note> {
    if ss == [] then []
    else
      var n := |ss| - 1;
      FenceNotes(ss[..n])
      + FenceNote(if n == 0 then None else Some(ss[n - 1].inside), ss[n].inside, ss[n].at)
  }

  function Sides(ss: seq<FenceSighting>): (r: seq<bool>)
    ensures |r| == |ss| && forall i | 0 <= i < |ss| :: r[i] == ss[i].inside
  {
    seq(|ss|, i requires 0 <= i < |ss| => ss[i].inside)
  }

  function CrossingSeverities(bs: seq<bool>): (r: seq<Severity>)
    ensures |r| == |bs| && forall i | 0 <= i < |bs| :: r[i] == if bs[i] then Info else Critical
  {
    seq(|bs|, i requires 0 <= i < |bs| => if bs[i] then Info else Critical)
  }

  lemma {:induction false} NotesFollowCrossings(ss: seq<FenceSighting>)
    ensures Severities(FenceNotes(ss)) == CrossingSeverities(Destutter([true] + Sides(ss))[1..])
    decreases |ss|
  {
    hide Destutter, FenceNote, Severities, CrossingSeverities;
    if ss == [] {
      DestutterOne(true);
      assert [true] + Sides(ss) == [true];
      assert Severities(FenceNotes(ss)) == [] == CrossingSeverities([]);
    } else {
      var n := |ss| - 1;
      NotesFollowCrossings(ss[..n]);
      var prev := if n == 0 then None else Some(ss[n - 1].inside);
      SidesNext(ss, prev);
      NextCrossing(FenceNotes(ss[..n]), prev, ss[n].inside, ss[n].at, [true] + Sides(ss[..n]));
    }
  }

  lemma {:induction false} SidesNext(ss: seq<FenceSighting>, prev: Option<bool>)
    requires ss != [] && prev == if |ss| == 1 then None else Some(ss[|ss| - 2].inside)
    ensures var n := |ss| - 1;
      && [true] + Sides(ss) == [true] + Sides(ss[..n]) + [ss[n].inside]
      && ([true] + Sides(ss[..n]))[n] == Or(prev, true)
  {
  }

  lemma {:induction false} NextCrossing(notes: seq<Note>, prev: Option<bool>, side: bool, at: int, before: seq<bool>)
    requires before != [] && before[|before| - 1] == Or(prev, true)
    requires Severities(notes) == CrossingSeverities(Destutter(before)[1..])
    ensures Severities(notes + FenceNote(prev, side, at)) == CrossingSeverities(Destutter(before + [side])[1..])
  {
    hide Destutter;
    var d, note := Destutter(before), FenceNote(prev, side, at);
    DestutterNext(before, side);
    AppendSeverities(notes, note);
    if Or(prev, true) == side {
      assert note == [];
      assert notes + note == notes;
    } else {
      assert Severities(note) == CrossingSeverities([side]);
      AppendCrossings(d[1..], [side]);
      assert (d + [side])[1..] == d[1..] + [side];
    }
  }

  lemma {:induction false} AppendSeverities(a: seq<Note>, b: seq<Note>)
    ensures Severities(a + b) == Severities(a) + Severities(b)
  {
  }

  lemma {:induction false} AppendCrossings(a: seq<bool>, b: seq<bool>)
    ensures CrossingSeverities(a + b) == CrossingSeverities(a) + CrossingSeverities(b)
  {
  }

  lemma {:induction false} DestutteredAlternates(bs: seq<bool>)
    requires bs != []
    ensures forall i | 0 <= i < |Destutter(bs)| :: Destutter(bs)[i] == if i % 2 == 0 then bs[0] else !bs[0]
    decreases |bs|
  {
    if |bs| >= 2 {
      DestutteredAlternates(bs[..|bs| - 1]);
    }
  }

  /** A re-entry says so; a breach says so, unless it is the first sighting. */
  lemma {:induction false} FenceNotesSay(ss: seq<FenceSighting>)
    ensures ss != [] && !ss[0].inside ==> FenceNotes(ss) != []
    ensures forall i | 0 <= i < |FenceNotes(ss)| ::
      FenceNotes(ss)[i].message == (
        if FenceNotes(ss)[i].severity == Info then Reentered
        else if i == 0 && !ss[0].inside then FoundOutside else Breached)
    ensures ss == [] ==> FenceNotes(ss) == []
    decreases |ss|
  {
    hide FenceNote;
    if ss != [] {
      var n := |ss| - 1;
      var prev := if n == 0 then None else Some(ss[n - 1].inside);
      FenceNotesSay(ss[..n]);
      FenceNoteReads(prev, ss[n].inside, ss[n].at);
      if n > 0 { assert ss[..n][0] == ss[0]; }
    }
  }

  function Count(ss: seq<Severity>, s: Severity): nat {
    if ss == [] then 0 else Count(ss[..|ss| - 1], s) + if ss[|ss| - 1] == s then 1 else 0
  }

  lemma {:induction false} AlternatingBalance(ss: seq<Severity>)
    requires forall i | 0 <= i < |ss| :: ss[i] == if i % 2 == 0 then Critical else Info
    ensures Count(ss, Critical) - Count(ss, Info) == |ss| % 2
  {
    if ss != [] { AlternatingBalance(ss[..|ss| - 1]); }
  }

  /**
   A robot's geofence alerts strictly alternate, a breach first; and there is one more breach than re-entry exactly
   when the robot was last seen, with a link not lost, outside.
   */
  lemma {:induction false} GeofenceAlertsAlternate(inside: Fence, items: seq<Item>, id: RobotId)
    ensures var sides := Sides(FenceSightings(inside, items, id));
      var ss := Severities(NotesOf(Alerts(inside, items), GeofenceAlert, id));
      && ss == CrossingSeverities(Destutter([true] + sides)[1..])
      && (forall i | 0 <= i < |ss| :: ss[i] == if i % 2 == 0 then Critical else Info)
      && Count(ss, Critical) - Count(ss, Info) == if sides != [] && !sides[|sides| - 1] then 1 else 0
    ensures var sides, notes := Sides(FenceSightings(inside, items, id)), NotesOf(Alerts(inside, items), GeofenceAlert, id);
      (notes != [] ==> sides != [])
      && forall i | 0 <= i < |notes| ::
           notes[i].message == (
             if notes[i].severity == Info then Reentered else if i == 0 && !sides[0] then FoundOutside else Breached)
  {
    hide FenceNotes, FenceSightings, NotesOf, Alerts, Remembers;
    FenceNotesSay(FenceSightings(inside, items, id));
    var fences := FenceSightings(inside, items, id);
    var bs := [true] + Sides(fences);
    RobotAlertsAreHistory(inside, items, id);
    NotesFollowCrossings(fences);
    DestutteredAlternates(bs);
    AlternatingSides(bs);
  }

  lemma {:induction false} AlternatingSides(bs: seq<bool>)
    requires bs != [] && bs[0] && forall i | 0 <= i < |Destutter(bs)| :: Destutter(bs)[i] == if i % 2 == 0 then bs[0] else !bs[0]
    ensures var ss := CrossingSeverities(Destutter(bs)[1..]);
      && (forall i | 0 <= i < |ss| :: ss[i] == if i % 2 == 0 then Critical else Info)
      && Count(ss, Critical) - Count(ss, Info) == if bs[|bs| - 1] then 0 else 1
  {
    var d := Destutter(bs);
    var ss := CrossingSeverities(d[1..]);
    assert forall i | 0 <= i < |ss| :: d[1..][i] == d[i + 1];
    AlternatingBalance(ss);
    assert d[|d| - 1] == bs[|bs| - 1];
  }

  // ---- alert ids ------------------------------------------------------------

  lemma {:induction false} DecimalInjective(a: nat, b: nat)
    requires Decimal(a) == Decimal(b)
    ensures a == b
  {
    var x, y := Decimal(a), Decimal(b);
    assert x[|x| - 1] == Digit(a % 10) && y[|y| - 1] == Digit(b % 10);
    assert a % 10 == b % 10;
    if a >= 10 && b >= 10 {
      assert x[..|x| - 1] == Decimal(a / 10) && y[..|y| - 1] == Decimal(b / 10);
      DecimalInjective(a / 10, b / 10);
    } else {
      DecimalNonEmpty(a / 10);
      DecimalNonEmpty(b / 10);
    }
  }

  lemma DecimalNonEmpty(n: nat)
    ensures |Decimal(n)| > 0
  {
  }

  lemma {:induction false} IdsCountUp(inside: Fence, items: seq<Item>)
    ensures var r := SeeAll(FRESH, inside, items);
      && r.0.nextId == |r.1| && forall i | 0 <= i < |r.1| :: r.1[i].id == AlertId(i)
    decreases |items|
  {
    if items != [] {
      var n := |items| - 1;
      IdsCountUp(inside, items[..n]);
      SeeCountsUp(SeeAll(FRESH, inside, items[..n]).0, inside, items[n]);
    }
  }

  lemma {:induction false} SeeCountsUp(m: Memory, inside: Fence, item: Item)
    ensures var r := See(m, inside, item);
      && r.0.nextId == m.nextId + |r.1| && forall i | 0 <= i < |r.1| :: r.1[i].id == AlertId(m.nextId + i)
  {
  }

  /** No two alerts of a run have the same id. */
  lemma AlertIdsAreUnique(inside: Fence, items: seq<Item>, i: nat, j: nat)
    requires i < j < |Alerts(inside, items)|
    ensures Alerts(inside, items)[i].id != Alerts(inside, items)[j].id
  {
    IdsCountUp(inside, items);
    if AlertId(i) == AlertId(j) {
      assert AlertId(i)[6..] == Decimal(i) && AlertId(j)[6..] == Decimal(j);
      DecimalInjective(i, j);
    }
  }

  // ---- the text -------------------------------------------------------------

  predicate Raised(m: Message) { m.CommandFailed? ==> IsFailure(m.state) }

  lemma {:induction false} LabelTells(a: CommandState, b: CommandState, x: string, y: string)
    requires IsFailure(a) && IsFailure(b) && FailureLabel(a) + x == FailureLabel(b) + y
    ensures a == b && x == y
  {
    var s, t := FailureLabel(a) + x, FailureLabel(b) + y;
    assert s[0] == FailureLabel(a)[0] && t[0] == FailureLabel(b)[0];
    assert s[1] == FailureLabel(a)[1] && t[1] == FailureLabel(b)[1];
    assert s[2] == FailureLabel(a)[2] && t[2] == FailureLabel(b)[2];
    assert a == b;
    assert s[|FailureLabel(a)|..] == x && t[|FailureLabel(b)|..] == y;
  }

  /** The second character of the text, and for a link alert the seventh, tell the kinds apart. */
  lemma {:induction false} TextMarks(m: Message)
    ensures |Text(m)| > 6
    ensures Text(m)[1] == match m
      case FoundOutside => 'o'
      case Breached => 'B'
      case Reentered => 'r'
      case CommandFailed(_, _) => 'c'
      case _ => 'l'
    ensures m.Recovered? ==> Text(m)[6] == 'r'
    ensures m.WentStale? ==> Text(m)[6] == 'S'
    ensures m.WentLost? ==> Text(m)[6] == 'L'
  {
    if m.CommandFailed? {
      assert Text(m) == " command " + (FailureLabel(m.state) + if m.detail == "" then "" else " \U{2014} " + m.detail);
      assert Text(m)[1] == " command "[1];
    }
  }

  lemma {:induction false} DetailTells(d: string, e: string)
    requires (if d == "" then "" else " \U{2014} " + d) == if e == "" then "" else " \U{2014} " + e
    ensures d == e
  {
    if d != "" && e != "" {
      assert (" \U{2014} " + d)[3..] == d && (" \U{2014} " + e)[3..] == e;
    }
  }

  lemma {:induction false} FailureTextTells(a: Message, b: Message)
    requires a.CommandFailed? && b.CommandFailed? && Raised(a) && Raised(b) && Text(a) == Text(b)
    ensures a == b
  {
    var x := if a.detail == "" then "" else " \U{2014} " + a.detail;
    var y := if b.detail == "" then "" else " \U{2014} " + b.detail;
    assert Text(a) == " command " + (FailureLabel(a.state) + x);
    assert Text(b) == " command " + (FailureLabel(b.state) + y);
    assert Text(a)[9..] == FailureLabel(a.state) + x && Text(b)[9..] == FailureLabel(b.state) + y;
    LabelTells(a.state, b.state, x, y);
    DetailTells(a.detail, b.detail);
  }

  /** The text keeps what happened: two alerts of one robot read the same if and only if they say the same. */
  lemma {:induction false} TextTells(robot: RobotId, a: Message, b: Message)
    requires Raised(a) && Raised(b)
    ensures Render(robot, a) == Render(robot, b) <==> a == b
  {
    hide Text, FailureLabel;
    if Render(robot, a) == Render(robot, b) {
      assert Render(robot, a)[|robot|..] == Text(a) && Render(robot, b)[|robot|..] == Text(b);
      TextMarks(a);
      TextMarks(b);
      if a.CommandFailed? { FailureTextTells(a, b); }
    }
  }

  ghost predicate AllRaised(out: seq<Alert>) {
    forall a | a in out :: Raised(a.message)
  }

  lemma {:induction false} SeeRaises(m: Memory, inside: Fence, item: Item)
    ensures AllRaised(See(m, inside, item).1)
  {
  }

  /** Every alert the engine raises is one of those. */
  lemma {:induction false} AlertsAreRaised(inside: Fence, items: seq<Item>)
    ensures AllRaised(Alerts(inside, items))
    decreases |items|
  {
    hide See;
    if items != [] {
      AlertsAreRaised(inside, items[..|items| - 1]);
      SeeRaises(SeeAll(FRESH, inside, items[..|items| - 1]).0, inside, items[|items| - 1]);
    }
  }
}
