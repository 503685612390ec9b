/**
 The track store: the latest sample of every robot. The map is guarded by one lock and each cell by its own, so an
 upsert is up to two atomic steps and a snapshot is one step for the map and one for each cell.
 */
module TrackStore {
  import opened Domain

  // ---- the store as the server keeps it -------------------------------------

  class Track {
    var latest: Telemetry

    constructor (initial: Telemetry)
      ensures latest == initial
    {
      latest := initial;
    }

    /** Under the cell's lock: keep the sample if its sequence number is greater. */
    method Offer(t: Telemetry) returns (stored: bool)
      modifies this
      ensures stored <==> t.seqNo > old(latest.seqNo)
      ensures latest == if stored then t else old(latest)
    {
      if t.seqNo > latest.seqNo {
        latest := t;
        return true;
      }
      return false;
    }
  }

  type Cells = map<RobotId, Telemetry>

  /** Latest wins: a first sample is always stored, another only if its sequence number is greater. */
  predicate Raises(cells: Cells, t: Telemetry) {
    t.robotId !in cells || t.seqNo > cells[t.robotId].seqNo
  }

  function Upserted(cells: Cells, t: Telemetry): Cells {
    if Raises(cells, t) then cells[t.robotId := t] else cells
  }

  class Store {
    var tracks: map<RobotId, Track>

    /** No two robots share a cell, and each cell holds a sample of its own robot. */
    ghost predicate Valid()
      reads this, tracks.Values
    {
      && (forall a, b | a in tracks && b in tracks && a != b :: tracks[a] != tracks[b])
      && forall id | id in tracks :: tracks[id].latest.robotId == id
    }

    ghost function Contents(): Cells
      reads this, tracks.Values
    {
      map id | id in tracks :: tracks[id].latest
    }

    constructor ()
      ensures Valid() && Contents() == map[]
    {
      tracks := map[];
    }

    /** Under the map's lock: create the cell of a new robot, or find the cell of a known one. */
    method FindOrCreate(t: Telemetry) returns (track: Track, created: bool)
      requires Valid()
      modifies this
      ensures Valid() && t.robotId in tracks && tracks[t.robotId] == track
      ensures created <==> t.robotId !in old(tracks)
      ensures created ==> fresh(track) && Contents() == old(Contents())[t.robotId := t]
      ensures !created ==> tracks == old(tracks) && Contents() == old(Contents())
    {
      if t.robotId in tracks {
        return tracks[t.robotId], false;
      }
      track := new Track(t);
      tracks := tracks[t.robotId := track];
      return track, true;
    }

    method Upsert(t: Telemetry) returns (stored: bool)
      requires Valid()
      modifies this, tracks.Values
      ensures Valid()
      ensures stored <==> Raises(old(Contents()), t)
      ensures Contents() == Upserted(old(Contents()), t)
    {
      var track, created := FindOrCreate(t);
      if created { return true; }
      stored := track.Offer(t);
    }

    /** The latest sample of every robot, each robot once, in an unspecified order. */
    method Snapshot() returns (out: seq<Telemetry>)
      requires Valid()
      ensures Distinct(RobotIds(out)) && (set id | id in RobotIds(out)) == tracks.Keys
      ensures forall i | 0 <= i < |out| :: out[i].robotId in tracks && out[i] == Contents()[out[i].robotId]
    {
      out := [];
      var todo := tracks.Keys;
      while todo != {}
        invariant todo <= tracks.Keys && Distinct(RobotIds(out))
        invariant forall id :: id in RobotIds(out) <==> id in tracks && id !in todo
        invariant forall i | 0 <= i < |out| :: out[i].robotId in tracks && out[i] == Contents()[out[i].robotId]
        decreases todo
      {
        var id :| id in todo;
        ghost var was := RobotIds(out);
        out := out + [tracks[id].latest];
        assert RobotIds(out) == was + [id];
        todo := todo - {id};
      }
    }
  }

  function RobotIds(samples: seq<Telemetry>): (ids: seq<RobotId>)
    ensures |ids| == |samples| && forall i | 0 <= i < |ids| :: ids[i] == samples[i].robotId
  {
    seq(|samples|, i requires 0 <= i < |samples| => samples[i].robotId)
  }
}

/** The same store under any interleaving of its critical regions. */
module TrackStoreConcurrent {
  import opened Domain
  import opened TrackStore

  /** A sample whose upsert has finished, and what the upsert returned. */
  datatype Commit = Commit(sample: Telemetry, stored: bool)

  /** A snapshot under way: the cells when it copied the map, the order it visits them in, and what it has read. */
  datatype Reading = Reading(start: Cells, order: seq<RobotId>, out: seq<Telemetry>)

  /** writers holds each upsert that has found its cell and not yet locked it. */
  datatype State = State(
    cells: Cells,
    writers: map<nat, Telemetry>,
    readers: map<nat, Reading>,
    commits: seq<Commit>,
    frames: map<nat, seq<Reading>>)

  const INITIAL := State(map[], map[], map[], [], map[])

  datatype Action =
    | Find(thread: nat, sample: Telemetry)
    | Offer(thread: nat)
    | CopyMap(subscriber: nat, order: seq<RobotId>)
    | ReadCell(subscriber: nat)
    | Deliver(subscriber: nat)

  ghost predicate Enumerates(order: seq<RobotId>, keys: set<RobotId>) {
    Distinct(order) && (set id | id in order) == keys
  }

  ghost predicate Enabled(s: State, a: Action) {
    match a
    case Find(thread, _) => thread !in s.writers
    case Offer(thread) => thread in s.writers && s.writers[thread].robotId in s.cells
    case CopyMap(subscriber, order) => subscriber !in s.readers && Enumerates(order, s.cells.Keys)
    case ReadCell(subscriber) =>
      subscriber in s.readers
      && var r := s.readers[subscriber]; |r.out| < |r.order| && r.order[|r.out|] in s.cells
    case Deliver(subscriber) =>
      subscriber in s.readers && |s.readers[subscriber].out| == |s.readers[subscriber].order|
  }

  function FramesOf(s: State, subscriber: nat): seq<Reading> {
    if subscriber in s.frames then s.frames[subscriber] else []
  }

  ghost function Next(s: State, a: Action): State
    requires Enabled(s, a)
  {
    match a
    case Find(thread, t) =>
      if t.robotId in s.cells then s.(writers := s.writers[thread := t])
      else s.(cells := s.cells[t.robotId := t], commits := s.commits + [Commit(t, true)])
    case Offer(thread) =>
      var t := s.writers[thread];
      s.(cells := Upserted(s.cells, t),
         writers := s.writers - {thread},
         commits := s.commits + [Commit(t, Raises(s.cells, t))])
    case CopyMap(subscriber, order) =>
      s.(readers := s.readers[subscriber := Reading(s.cells, order, [])])
    case ReadCell(subscriber) =>
      var r := s.readers[subscriber];
      s.(readers := s.readers[subscriber := r.(out := r.out + [s.cells[r.order[|r.out|]]])])
    case Deliver(subscriber) =>
      s.(readers := s.readers - {subscriber},
         frames := s.frames[subscriber := FramesOf(s, subscriber) + [s.readers[subscriber]]])
  }

  // ---- what the commits say -------------------------------------------------

  ghost predicate Earlier(log: seq<Commit>, j: int, i: int) {
    0 <= j < i < |log| && log[j].sample.robotId == log[i].sample.robotId
  }

  /** Each finished upsert returned true exactly when its robot had no commit before, or only lower ones. */
  ghost predicate ReturnsExplained(log: seq<Commit>) {
    forall i | 0 <= i < |log| ::
      log[i].stored <==> forall j | Earlier(log, j, i) :: log[j].sample.seqNo < log[i].sample.seqNo
  }

  /** The commit holds the robot's greatest sequence number, and is the first that does. */
  ghost predicate Wins(log: seq<Commit>, i: int) {
    && 0 <= i < |log|
    && forall j | 0 <= j < |log| && log[j].sample.robotId == log[i].sample.robotId ::
         log[j].sample.seqNo <= log[i].sample.seqNo && (j < i ==> log[j].sample.seqNo < log[i].sample.seqNo)
  }

  ghost predicate HoldsWinner(log: seq<Commit>, id: RobotId, t: Telemetry) {
    t.robotId == id && exists i :: Wins(log, i) && log[i].sample == t
  }

  /** Each cell holds the first commit of the robot's greatest sequence number; there is a cell per robot committed. */
  ghost predicate CellsExplained(log: seq<Commit>, cells: Cells) {
    && (forall i | 0 <= i < |log| :: log[i].sample.robotId in cells)
    && forall id | id in cells :: HoldsWinner(log, id, cells[id])
  }

  /** No robot is lost and none goes back. */
  ghost predicate NotBehind(a: Cells, b: Cells) {
    forall id | id in a :: id in b && a[id].seqNo <= b[id].seqNo
  }

  ghost predicate IsCommitted(log: seq<Commit>, t: Telemetry) {
    exists i :: 0 <= i < |log| && log[i].sample == t
  }

  /** What a snapshot has read so far lies between the cells at its start and the cells now. */
  ghost predicate ReadsBetween(r: Reading, log: seq<Commit>, now: Cells) {
    && Enumerates(r.order, r.start.Keys) && |r.out| <= |r.order| && NotBehind(r.start, now)
    && forall i | 0 <= i < |r.out| ::
         && r.out[i].robotId == r.order[i] && r.order[i] in r.start && r.order[i] in now
         && r.start[r.order[i]].seqNo <= r.out[i].seqNo <= now[r.order[i]].seqNo
         && IsCommitted(log, r.out[i])
  }

  /** The later frame lists every robot of the earlier one, at the same or a later sample. */
  ghost predicate Follows(f: Reading, g: Reading) {
    forall i | 0 <= i < |f.out| :: ListsAtLeast(g, f.out[i])
  }

  ghost predicate ListsAtLeast(g: Reading, t: Telemetry) {
    exists j :: 0 <= j < |g.out| && g.out[j].robotId == t.robotId && t.seqNo <= g.out[j].seqNo
  }

  /** Nothing the subscriber has been shown is ahead of a map. */
  ghost predicate ShownNotAhead(f: Reading, cells: Cells) {
    forall i | 0 <= i < |f.out| :: f.out[i].robotId in cells && f.out[i].seqNo <= cells[f.out[i].robotId].seqNo
  }

  ghost predicate Inv(s: State) {
    && ReturnsExplained(s.commits) && CellsExplained(s.commits, s.cells)
    && (forall w | w in s.writers :: s.writers[w].robotId in s.cells)
    && (forall r | r in s.readers :: ReadsBetween(s.readers[r], s.commits, s.cells))
    && (forall r | r in s.frames :: FramesInv(s.frames[r], s.commits, s.cells))
    && forall r, i | r in s.readers && r in s.frames && 0 <= i < |s.frames[r]| ::
         ShownNotAhead(s.frames[r][i], s.readers[r].start)
  }

  ghost predicate FramesInv(fs: seq<Reading>, log: seq<Commit>, cells: Cells) {
    && (forall i | 0 <= i < |fs| ::
          ReadsBetween(fs[i], log, cells) && |fs[i].out| == |fs[i].order| && ShownNotAhead(fs[i], cells))
    && forall i, j | 0 <= i < j < |fs| :: Follows(fs[i], fs[j])
  }

  // ---- one commit -----------------------------------------------------------

  lemma CommitKeepsReturns(log: seq<Commit>, cells: Cells, t: Telemetry)
    requires ReturnsExplained(log) && CellsExplained(log, cells)
    ensures ReturnsExplained(log + [Commit(t, Raises(cells, t))])
  {
    var n := |log|;
    var longer := log + [Commit(t, Raises(cells, t))];
    forall i | 0 <= i < n
      ensures longer[i].stored <==> forall j | Earlier(longer, j, i) :: longer[j].sample.seqNo < longer[i].sample.seqNo
    {
      assert forall j :: Earlier(longer, j, i) <==> Earlier(log, j, i);
    }
    if t.robotId in cells {
      var w :| Wins(log, w) && log[w].sample == cells[t.robotId];
      assert Earlier(longer, w, n);
      if t.seqNo > cells[t.robotId].seqNo {
        forall j | Earlier(longer, j, n) ensures longer[j].sample.seqNo < t.seqNo {
          assert log[j].sample.seqNo <= log[w].sample.seqNo;
        }
      }
    }
  }

  lemma CommitKeepsCells(log: seq<Commit>, cells: Cells, t: Telemetry)
    requires CellsExplained(log, cells)
    ensures CellsExplained(log + [Commit(t, Raises(cells, t))], Upserted(cells, t))
    ensures NotBehind(cells, Upserted(cells, t))
  {
    var n := |log|;
    var longer, after := log + [Commit(t, Raises(cells, t))], Upserted(cells, t);
    forall id | id in after ensures HoldsWinner(longer, id, after[id]) {
      if id == t.robotId && Raises(cells, t) {
        if id in cells {
          var w :| Wins(log, w) && log[w].sample == cells[id];
          forall j | 0 <= j < n && longer[j].sample.robotId == id ensures longer[j].sample.seqNo < t.seqNo {
            assert longer[j] == log[j];
          }
        }
        assert Wins(longer, n);
      } else {
        var w :| Wins(log, w) && log[w].sample == cells[id];
        assert forall j | 0 <= j < n :: longer[j] == log[j];
        assert Wins(longer, w);
      }
    }
  }

  lemma CommittedGrows(log: seq<Commit>, c: Commit, t: Telemetry)
    requires IsCommitted(log, t)
    ensures IsCommitted(log + [c], t)
  {
    var i :| 0 <= i < |log| && log[i].sample == t;
    assert (log + [c])[i].sample == t;
  }

  lemma ReadsStayBetween(r: Reading, log: seq<Commit>, c: Commit, now: Cells, later: Cells)
    requires ReadsBetween(r, log, now) && NotBehind(now, later)
    ensures ReadsBetween(r, log + [c], later)
  {
    forall i | 0 <= i < |r.out| ensures IsCommitted(log + [c], r.out[i]) {
      CommittedGrows(log, c, r.out[i]);
    }
  }

  lemma FramesStay(fs: seq<Reading>, log: seq<Commit>, c: Commit, now: Cells, later: Cells)
    requires FramesInv(fs, log, now) && NotBehind(now, later)
    ensures FramesInv(fs, log + [c], later)
  {
    forall i | 0 <= i < |fs| ensures ReadsBetween(fs[i], log + [c], later) {
      ReadsStayBetween(fs[i], log, c, now, later);
    }
  }

  // ---- the actions keep the invariant ---------------------------------------

  lemma CommitKeepsInv(s: State, t: Telemetry)
    requires Inv(s)
    ensures Inv(s.(cells := Upserted(s.cells, t), commits := s.commits + [Commit(t, Raises(s.cells, t))]))
  {
    CommitKeepsReturns(s.commits, s.cells, t);
    CommitKeepsCells(s.commits, s.cells, t);
    var c, later := Commit(t, Raises(s.cells, t)), Upserted(s.cells, t);
    forall r | r in s.readers ensures ReadsBetween(s.readers[r], s.commits + [c], later) {
      ReadsStayBetween(s.readers[r], s.commits, c, s.cells, later);
    }
    forall r | r in s.frames ensures FramesInv(s.frames[r], s.commits + [c], later) {
      FramesStay(s.frames[r], s.commits, c, s.cells, later);
    }
  }

  lemma CopyKeepsInv(s: State, subscriber: nat, order: seq<RobotId>)
    requires Inv(s) && Enabled(s, CopyMap(subscriber, order))
    ensures Inv(Next(s, CopyMap(subscriber, order)))
  {
    var s' := Next(s, CopyMap(subscriber, order));
    assert ReadsBetween(s'.readers[subscriber], s.commits, s.cells);
    forall r, i | r in s'.readers && r in s'.frames && 0 <= i < |s'.frames[r]|
      ensures ShownNotAhead(s'.frames[r][i], s'.readers[r].start)
    {
      assert FramesInv(s.frames[r], s.commits, s.cells);
    }
  }

  lemma {:induction false} ReadOne(r: Reading, log: seq<Commit>, cells: Cells)
    requires ReadsBetween(r, log, cells) && CellsExplained(log, cells) && |r.out| < |r.order|
    requires r.order[|r.out|] in cells
    ensures ReadsBetween(r.(out := r.out + [cells[r.order[|r.out|]]]), log, cells)
  {
    var id := r.order[|r.out|];
    assert HoldsWinner(log, id, cells[id]);
    assert IsCommitted(log, cells[id]);
    assert id in (set x | x in r.order);
  }

  lemma {:induction false} ReadKeepsInv(s: State, subscriber: nat)
    requires Inv(s) && Enabled(s, ReadCell(subscriber))
    ensures Inv(Next(s, ReadCell(subscriber)))
  {
    hide ReadsBetween, CellsExplained, ReturnsExplained, FramesInv, ShownNotAhead;
    var r := s.readers[subscriber];
    ReadOne(r, s.commits, s.cells);
    var r' := r.(out := r.out + [s.cells[r.order[|r.out|]]]);
    var s' := s.(readers := s.readers[subscriber := r']);
    assert Next(s, ReadCell(subscriber)) == s' && r'.start == r.start;
    forall k, i | k in s'.readers && k in s'.frames && 0 <= i < |s'.frames[k]|
      ensures ShownNotAhead(s'.frames[k][i], s'.readers[k].start)
    {
      assert ShownNotAhead(s.frames[k][i], s.readers[k].start);
    }
  }

  lemma {:induction false} CompleteFrameFollows(f: Reading, r: Reading, log: seq<Commit>, now: Cells)
    requires ReadsBetween(r, log, now) && |r.out| == |r.order| && ShownNotAhead(f, r.start)
    ensures Follows(f, r) && ShownNotAhead(r, now)
  {
    forall i | 0 <= i < |f.out| ensures ListsAtLeast(r, f.out[i]) {
      assert f.out[i].robotId in (set x | x in r.order);
      var j :| 0 <= j < |r.order| && r.order[j] == f.out[i].robotId;
      assert r.out[j].robotId == f.out[i].robotId;
    }
  }

  lemma DeliverKeepsInv(s: State, subscriber: nat)
    requires Inv(s) && Enabled(s, Deliver(subscriber))
    ensures Inv(Next(s, Deliver(subscriber)))
  {
    var r, fs := s.readers[subscriber], FramesOf(s, subscriber);
    var longer := fs + [r];
    assert ReadsBetween(r, s.commits, s.cells);
    assert FramesInv(fs, s.commits, s.cells);
    CompleteFrameFollows(r.(out := []), r, s.commits, s.cells);
    forall i | 0 <= i < |fs| ensures Follows(fs[i], r) {
      CompleteFrameFollows(fs[i], r, s.commits, s.cells);
    }
    assert FramesInv(longer, s.commits, s.cells);
    assert Next(s, Deliver(subscriber)).frames[subscriber] == longer;
  }

  lemma StepKeepsInv(s: State, a: Action)
    requires Inv(s) && Enabled(s, a)
    ensures Inv(Next(s, a)) && NotBehind(s.cells, Next(s, a).cells)
  {
    match a
    case Find(thread, t) =>
      if t.robotId !in s.cells {
        CommitKeepsInv(s, t);
        CommitKeepsCells(s.commits, s.cells, t);
      }
    case Offer(thread) =>
      CommitKeepsInv(s, s.writers[thread]);
      CommitKeepsCells(s.commits, s.cells, s.writers[thread]);
    case CopyMap(subscriber, order) => CopyKeepsInv(s, subscriber, order);
    case ReadCell(subscriber) => ReadKeepsInv(s, subscriber);
    case Deliver(subscriber) => DeliverKeepsInv(s, subscriber);
  }

  /** A run: a sequence of states linked by enabled actions, from the empty store. */
  ghost predicate IsRun(states: seq<State>, actions: seq<Action>) {
    && |states| == |actions| + 1 && states[0] == INITIAL
    && forall i | 0 <= i < |actions| :: Enabled(states[i], actions[i]) && states[i + 1] == Next(states[i], actions[i])
  }

  lemma {:induction false} InvAt(states: seq<State>, actions: seq<Action>, i: nat)
    requires IsRun(states, actions) && i < |states|
    ensures Inv(states[i])
  {
    if i > 0 {
      InvAt(states, actions, i - 1);
      StepKeepsInv(states[i - 1], actions[i - 1]);
    }
  }

  lemma {:induction false} CellsNeverGoBack(states: seq<State>, actions: seq<Action>, i: nat, j: nat)
    requires IsRun(states, actions) && i <= j < |states|
    ensures NotBehind(states[i].cells, states[j].cells)
  {
    hide Inv, Enabled, Next;
    if i < j {
      CellsNeverGoBack(states, actions, i, j - 1);
      InvAt(states, actions, j - 1);
      StepKeepsInv(states[j - 1], actions[j - 1]);
    }
  }

  /**
   For any interleaving: each cell holds the first commit of the robot's greatest sequence number, and each
   upsert returned true exactly when it created or raised the cell.
   */
  lemma CellsHoldTheLatest(states: seq<State>, actions: seq<Action>, i: nat)
    requires IsRun(states, actions) && i < |states|
    ensures CellsExplained(states[i].commits, states[i].cells)
    ensures ReturnsExplained(states[i].commits)
  {
    InvAt(states, actions, i);
  }

  /** The copy of the map that a snapshot delivered at this point began with. */
  ghost predicate Began(actions: seq<Action>, begin: nat, end: nat, subscriber: nat) {
    && begin < end < |actions| && actions[begin].CopyMap? && actions[begin].subscriber == subscriber
    && forall k | begin < k < end :: !(actions[k].CopyMap? && actions[k].subscriber == subscriber)
  }

  /** A reading under way was begun by some copy of the map and still holds the cells and the order of that copy. */
  lemma {:induction false} ReadingBegan(states: seq<State>, actions: seq<Action>, end: nat, subscriber: nat)
    returns (begin: nat)
    requires IsRun(states, actions) && end < |states| && subscriber in states[end].readers
    ensures begin < end && actions[begin].CopyMap? && actions[begin].subscriber == subscriber
    ensures forall k | begin < k < end :: !(actions[k].CopyMap? && actions[k].subscriber == subscriber)
    ensures var r := states[end].readers[subscriber];
      r.start == states[begin].cells && r.order == actions[begin].order
  {
    hide Inv;
    var a := actions[end - 1];
    assert Enabled(states[end - 1], a) && states[end] == Next(states[end - 1], a);
    if a.CopyMap? && a.subscriber == subscriber {
      begin := end - 1;
    } else {
      begin := ReadingBegan(states, actions, end - 1, subscriber);
    }
  }

  /**
   A snapshot is not atomic, but the frame it delivers lists every robot known when it copied the map exactly once,
   with a committed sample between the robot's sample at the copy and its sample at the delivery.
   */
  lemma {:induction false} SnapshotLiesBetween(states: seq<State>, actions: seq<Action>, begin: nat, end: nat,
      subscriber: nat)
    requires IsRun(states, actions) && Began(actions, begin, end, subscriber) && actions[end] == Deliver(subscriber)
    ensures var frame := states[end].readers[subscriber].out;
      && Distinct(RobotIds(frame)) && (set id | id in RobotIds(frame)) == states[begin].cells.Keys
      && forall k | 0 <= k < |frame| ::
           && frame[k].robotId in states[begin].cells && frame[k].robotId in states[end].cells
           && states[begin].cells[frame[k].robotId].seqNo <= frame[k].seqNo
           && frame[k].seqNo <= states[end].cells[frame[k].robotId].seqNo
           && IsCommitted(states[end].commits, frame[k])
  {
    InvAt(states, actions, end);
    assert Enabled(states[end], actions[end]);
    var r := states[end].readers[subscriber];
    assert ReadsBetween(r, states[end].commits, states[end].cells);
    var b := ReadingBegan(states, actions, end, subscriber);
    assert b == begin;
    assert RobotIds(r.out) == r.order;
  }

  // ---- successive frames ----------------------------------------------------

  lemma {:induction false} FramesOnlyGrow(states: seq<State>, actions: seq<Action>, subscriber: nat, i: nat, j: nat)
    requires IsRun(states, actions) && i <= j < |states|
    ensures FramesOf(states[i], subscriber) <= FramesOf(states[j], subscriber)
    decreases j
  {
    hide Inv;
    if i < j {
      FramesOnlyGrow(states, actions, subscriber, i, j - 1);
      assert Enabled(states[j - 1], actions[j - 1]) && states[j] == Next(states[j - 1], actions[j - 1]);
    }
  }

  /**
   The frames a subscriber is given one after another never lose a robot and never go back in sequence number, whatever
   the writers and the other subscribers do meanwhile.
   */
  lemma {:induction false} FramesNeverGoBack(states: seq<State>, actions: seq<Action>, subscriber: nat, i: nat, j: nat)
    requires IsRun(states, actions) && i < j < |actions|
    requires actions[i] == Deliver(subscriber) && actions[j] == Deliver(subscriber)
    ensures subscriber in states[i].readers && subscriber in states[j].readers
    ensures Follows(states[i].readers[subscriber], states[j].readers[subscriber])
  {
    hide ReadsBetween, ShownNotAhead, Follows, CellsExplained, ReturnsExplained;
    assert Enabled(states[i], actions[i]) && states[i + 1] == Next(states[i], actions[i]);
    assert Enabled(states[j], actions[j]) && states[j + 1] == Next(states[j], actions[j]);
    var f, g := states[i].readers[subscriber], states[j].readers[subscriber];
    var early, late := FramesOf(states[i + 1], subscriber), FramesOf(states[j + 1], subscriber);
    assert early[|early| - 1] == f && late[|late| - 1] == g;
    FramesOnlyGrow(states, actions, subscriber, i + 1, j);
    assert late == FramesOf(states[j], subscriber) + [g];
    assert late[|early| - 1] == f;
    InvAt(states, actions, j + 1);
    assert FramesInv(states[j + 1].frames[subscriber], states[j + 1].commits, states[j + 1].cells);
  }

  // ---- no sample is dropped -------------------------------------------------

  lemma {:induction false} CommitsOnlyGrow(s: State, a: Action)
    requires Enabled(s, a)
    ensures s.commits <= Next(s, a).commits
  {
  }

  /**
   Every sample handed to upsert is committed, by its own thread, or its thread is still between its two critical
   regions with exactly that sample.
   */
  lemma {:induction false} EverySampleIsCommitted(states: seq<State>, actions: seq<Action>, i: nat, n: nat)
    requires IsRun(states, actions) && i < n < |states| && actions[i].Find?
    ensures IsCommitted(states[n].commits, actions[i].sample)
      || (actions[i].thread in states[n].writers && states[n].writers[actions[i].thread] == actions[i].sample)
    decreases n
  {
    hide Inv;
    var s, a, t := states[n - 1], actions[n - 1], actions[i].sample;
    assert Enabled(s, a) && states[n] == Next(s, a);
    CommitsOnlyGrow(s, a);
    var after := states[n].commits;
    if n == i + 1 {
      if t.robotId !in s.cells { assert after[|s.commits|].sample == t; }
    } else {
      EverySampleIsCommitted(states, actions, i, n - 1);
      if IsCommitted(s.commits, t) {
        var k :| 0 <= k < |s.commits| && s.commits[k].sample == t;
        assert after[k].sample == t;
      } else if a == Offer(actions[i].thread) {
        assert after[|s.commits|].sample == t;
      }
    }
  }

  /**
   Nothing waits for anything else: in every state an upsert between its regions can lock its cell, and a snapshot under
   way can read its next cell or deliver.
   */
  lemma {:induction false} NoneIsStuck(states: seq<State>, actions: seq<Action>, n: nat)
    requires IsRun(states, actions) && n < |states|
    ensures forall w | w in states[n].writers :: Enabled(states[n], Offer(w))
    ensures forall r | r in states[n].readers ::
      Enabled(states[n], if |states[n].readers[r].out| < |states[n].readers[r].order| then ReadCell(r) else Deliver(r))
  {
    InvAt(states, actions, n);
    var s := states[n];
    forall r | r in s.readers && |s.readers[r].out| < |s.readers[r].order|
      ensures s.readers[r].order[|s.readers[r].out|] in s.cells
    {
      var id := s.readers[r].order[|s.readers[r].out|];
      assert ReadsBetween(s.readers[r], s.commits, s.cells);
      assert id in (set x | x in s.readers[r].order);
    }
  }
}
