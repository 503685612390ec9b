/** The client's audit log: it follows the server's frames and freezes what it last saw of each command. */
module Audit {
  import opened Domain
  import opened TrackerSpec
  import opened TrackerHistory
  import opened Wire

  type Outcomes = map<RobotId, CommandState>

  datatype AuditEntry = AuditEntry(
    commandId: CommandId,
    ts: Time,
    targets: seq<RobotId>,
    params: SetParameters,
    allStop: bool,
    outcomes: Outcomes)

  const MAX_ENTRIES := 100

  // ---- the log as a value ---------------------------------------------------

  function AllPending(targets: seq<RobotId>): Outcomes {
    map r | r in targets :: Pending
  }

  function Prepend(log: seq<AuditEntry>, e: AuditEntry): seq<AuditEntry> {
    var longer := [e] + log;
    if |longer| <= MAX_ENTRIES then longer else longer[..MAX_ENTRIES]
  }

  /** The listing a lookup by id finds: the last one when an id is listed twice. */
  function Listing(cs: seq<CommandStatus>, id: CommandId): Option<CommandStatus> {
    if cs == [] then None
    else if cs[|cs| - 1].commandId == id then Some(cs[|cs| - 1])
    else Listing(cs[..|cs| - 1], id)
  }

  function Overlay(outcomes: Outcomes, ts: seq<TargetStatus>): Outcomes {
    if ts == [] then outcomes
    else Overlay(outcomes, ts[..|ts| - 1])[ts[|ts| - 1].robotId := ts[|ts| - 1].state]
  }

  function MergeEntry(e: AuditEntry, frame: SwarmState): AuditEntry {
    match Listing(frame.commands, e.commandId)
    case None => e
    case Some(c) => e.(outcomes := Overlay(e.outcomes, c.targets))
  }

  function MergeAll(log: seq<AuditEntry>, frame: SwarmState): (r: seq<AuditEntry>)
    ensures |r| == |log| && forall i | 0 <= i < |log| :: r[i] == MergeEntry(log[i], frame)
  {
    seq(|log|, i requires 0 <= i < |log| => MergeEntry(log[i], frame))
  }

  // ---- the log as the client keeps it ---------------------------------------

  /** Two outcome records agree key by key. */
  method SameOutcomes(a: Outcomes, b: Outcomes) returns (same: bool)
    ensures same <==> a == b
  {
    if |a.Keys| != |b.Keys| { return false; }
    var todo := a.Keys;
    while todo != {}
      invariant todo <= a.Keys
      invariant forall k | k in a && k !in todo :: k in b && a[k] == b[k]
      decreases todo
    {
      var k :| k in todo;
      if k !in b || a[k] != b[k] { return false; }
      todo := todo - {k};
    }
    assert a.Keys <= b.Keys;
    SameSize(a.Keys, b.Keys);
    return true;
  }

  lemma SameSize<T>(a: set<T>, b: set<T>)
    requires a <= b && |a| == |b|
    ensures a == b
  {
    assert b == a + (b - a);
    assert |b - a| == 0;
  }

  class AuditLog {
    var entries: seq<AuditEntry>

    constructor ()
      ensures entries == []
    {
      entries := [];
    }

    method Record(id: CommandId, ts: Time, targets: seq<RobotId>, params: SetParameters, allStop: bool)
      modifies this
      ensures entries == Prepend(old(entries), AuditEntry(id, ts, targets, params, allStop, AllPending(targets)))
    {
      var outcomes: Outcomes := map[];
      for i := 0 to |targets|
        invariant outcomes == AllPending(targets[..i])
      {
        outcomes := outcomes[targets[i] := Pending];
        assert targets[..i + 1] == targets[..i] + [targets[i]];
      }
      assert targets[..|targets|] == targets;
      var longer := [AuditEntry(id, ts, targets, params, allStop, outcomes)] + entries;
      entries := if |longer| <= MAX_ENTRIES then longer else longer[..MAX_ENTRIES];
    }

    /** Merge one frame; the list is replaced only if some entry changed. */
    method Merge(frame: SwarmState)
      modifies this
      ensures entries == MergeAll(old(entries), frame)
    {
      var changed, prev := false, entries;
      var next: seq<AuditEntry> := [];
      for i := 0 to |prev|
        invariant entries == prev
        invariant next == MergeAll(prev[..i], frame)
        invariant !changed ==> next == prev[..i]
      {
        var merged, differs := MergeOne(prev[i], frame);
        changed := changed || differs;
        next := next + [merged];
      }
      assert prev[..|prev|] == prev;
      if changed { entries := next; }
    }
  }

  method MergeOne(e: AuditEntry, frame: SwarmState) returns (merged: AuditEntry, changed: bool)
    ensures merged == MergeEntry(e, frame)
    ensures changed <==> merged != e
  {
    var found := Listing(frame.commands, e.commandId);
    if found.None? { return e, false; }
    var ts := found.value.targets;
    var outcomes := e.outcomes;
    for i := 0 to |ts|
      invariant outcomes == Overlay(e.outcomes, ts[..i])
    {
      outcomes := outcomes[ts[i].robotId := ts[i].state];
      assert ts[..i + 1][..i] == ts[..i];
    }
    assert ts[..|ts|] == ts;
    var same := SameOutcomes(e.outcomes, outcomes);
    if same { return e, false; }
    return e.(outcomes := outcomes), true;
  }

  // ---- runs of the log ------------------------------------------------------

  datatype LogEvent = Issued(entry: AuditEntry) | Arrived(frame: SwarmState)

  function LogRun(log: seq<AuditEntry>, ops: seq<LogEvent>): seq<AuditEntry> {
    if ops == [] then log
    else
      var before := LogRun(log, ops[..|ops| - 1]);
      match ops[|ops| - 1]
      case Issued(e) => Prepend(before, e)
      case Arrived(f) => MergeAll(before, f)
  }

  function IssuedCount(ops: seq<LogEvent>): nat {
    if ops == [] then 0 else IssuedCount(ops[..|ops| - 1]) + if ops[|ops| - 1].Issued? then 1 else 0
  }

  /** The frames of a run that list the command, folded into the entry. */
  function Follow(e: AuditEntry, ops: seq<LogEvent>): AuditEntry {
    if ops == [] then e
    else
      var before := Follow(e, ops[..|ops| - 1]);
      match ops[|ops| - 1]
      case Issued(_) => before
      case Arrived(f) => MergeEntry(before, f)
  }

  /** An entry keeps its place, counted from the newest, until a hundred newer ones have pushed it out. */
  lemma {:induction false} EntryIsRetained(log: seq<AuditEntry>, e: AuditEntry, ops: seq<LogEvent>)
    requires IssuedCount(ops) < MAX_ENTRIES
    ensures var final := LogRun(Prepend(log, e), ops);
      IssuedCount(ops) < |final| && final[IssuedCount(ops)] == Follow(e, ops)
    decreases |ops|
  {
    if ops != [] {
      EntryIsRetained(log, e, ops[..|ops| - 1]);
    }
  }

  /** The log holds every entry issued, up to the newest hundred. */
  lemma {:induction false} LogIsBounded(ops: seq<LogEvent>)
    ensures |LogRun([], ops)| == if IssuedCount(ops) <= 100 then IssuedCount(ops) else 100
    decreases |ops|
  {
    if ops != [] { LogIsBounded(ops[..|ops| - 1]); }
  }

  /** The listing found is the last with the id, and none is found exactly if none has it. */
  lemma {:induction false} ListingIsLast(cs: seq<CommandStatus>, id: CommandId)
    ensures Listing(cs, id).None? <==> forall i | 0 <= i < |cs| :: cs[i].commandId != id
    ensures forall i | 0 <= i < |cs| && cs[i].commandId == id && (forall j | i < j < |cs| :: cs[j].commandId != id) ::
      Listing(cs, id) == Some(cs[i])
    decreases |cs|
  {
    if cs != [] {
      var n := |cs| - 1;
      ListingIsLast(cs[..n], id);
      assert forall i | 0 <= i < n :: cs[..n][i] == cs[i];
    }
  }

  // ---- the log and the tracker ----------------------------------------------

  /** The states of a tracked command's targets, without the details. */
  function StatesOf(targets: map<RobotId, TargetState>): Outcomes {
    map r | r in targets :: targets[r].state
  }

  lemma {:induction false} OverlayIsListing(outcomes: Outcomes, ts: seq<TargetStatus>)
    requires forall i, j | 0 <= i < j < |ts| :: ts[i].robotId != ts[j].robotId
    ensures forall i | 0 <= i < |ts| :: ts[i].robotId in Overlay(outcomes, ts)
    ensures forall i | 0 <= i < |ts| :: Overlay(outcomes, ts)[ts[i].robotId] == ts[i].state
    ensures forall r | r in Overlay(outcomes, ts) ::
      (r in outcomes && Overlay(outcomes, ts)[r] == outcomes[r]) || exists i :: 0 <= i < |ts| && ts[i].robotId == r
    decreases |ts|
  {
    if ts != [] {
      var n := |ts| - 1;
      OverlayIsListing(outcomes, ts[..n]);
      forall r | r in Overlay(outcomes, ts)
        ensures (r in outcomes && Overlay(outcomes, ts)[r] == outcomes[r]) || exists i :: 0 <= i < |ts| && ts[i].robotId == r
      {
        if r == ts[n].robotId {
        } else if i :| 0 <= i < n && ts[..n][i].robotId == r {
          assert ts[i].robotId == r;
        }
      }
    }
  }

  lemma OverlayShows(outcomes: Outcomes, ts: seq<TargetStatus>, targets: map<RobotId, TargetState>)
    requires ShowsTargets(ts, targets) && outcomes.Keys == targets.Keys
    ensures Overlay(outcomes, ts) == StatesOf(targets)
  {
    OverlayIsListing(outcomes, ts);
    var merged := Overlay(outcomes, ts);
    forall r | r in targets ensures r in merged && merged[r] == targets[r].state {
      var j :| 0 <= j < |ts| && ts[j].robotId == r;
      assert TargetState(ts[j].state, ts[j].detail) == targets[r];
    }
  }

  /** Merging a frame of the tracker makes the entry show exactly the tracked states, or leaves it alone. */
  lemma MergeShowsTracker(e: AuditEntry, frame: SwarmState, m: Commands)
    requires ShowsCommands(frame.commands, m)
    requires e.commandId in m ==> e.outcomes.Keys == m[e.commandId].targets.Keys
    ensures MergeEntry(e, frame) ==
      if e.commandId in m then e.(outcomes := StatesOf(m[e.commandId].targets)) else e
  {
    var cs, id := frame.commands, e.commandId;
    ListingIsLast(cs, id);
    if id in m {
      var i :| 0 <= i < |cs| && cs[i].commandId == id;
      assert Listing(cs, id) == Some(cs[i]);
      OverlayShows(e.outcomes, cs[i].targets, m[id].targets);
    } else {
      assert Listing(cs, id).None?;
    }
  }

  /** A client takes frames[i] after the tracker has seen the first at[i] events of its run. */
  ghost predicate FramesOfRun(frames: seq<SwarmState>, at: seq<nat>, es: seq<Event>, retention: Time) {
    && |frames| == |at|
    && (forall i | 0 <= i < |at| :: at[i] <= |es|)
    && (forall i, j | 0 <= i < j < |at| :: at[i] <= at[j])
    && forall i | 0 <= i < |at| :: ShowsCommands(frames[i].commands, Run(map[], es[..at[i]], retention))
  }

  function Arrivals(frames: seq<SwarmState>): (ops: seq<LogEvent>)
    ensures |ops| == |frames| && forall i | 0 <= i < |ops| :: ops[i] == Arrived(frames[i])
  {
    seq(|frames|, i requires 0 <= i < |frames| => Arrived(frames[i]))
  }

  ghost predicate ListedAt(at: seq<nat>, es: seq<Event>, retention: Time, id: CommandId, i: int) {
    0 <= i < |at| && at[i] <= |es| && id in Run(map[], es[..at[i]], retention)
  }

  /** The last frame that lists the command. */
  ghost predicate LastListed(at: seq<nat>, es: seq<Event>, retention: Time, id: CommandId, i: int) {
    && ListedAt(at, es, retention, id, i)
    && forall j | i < j < |at| :: !ListedAt(at, es, retention, id, j)
  }

  /** What the entry must show: the states of the last frame that listed the command, or all PENDING. */
  ghost predicate ShowsLastListing(outcomes: Outcomes, targets: seq<RobotId>, at: seq<nat>, es: seq<Event>,
                                   retention: Time, id: CommandId) {
    && outcomes.Keys == (set r | r in targets)
    && (forall i | LastListed(at, es, retention, id, i) ::
          outcomes == StatesOf(Run(map[], es[..at[i]], retention)[id].targets))
    && ((forall i :: !ListedAt(at, es, retention, id, i)) ==> outcomes == AllPending(targets))
  }

  /** One more frame replaces what the entry shows exactly if it lists the command. */
  lemma {:induction false} NextFrame(outcomes: Outcomes, targets: seq<RobotId>, at: seq<nat>, es: seq<Event>,
      retention: Time,
      id: CommandId)
    requires at != [] && at[|at| - 1] <= |es|
    requires ShowsLastListing(outcomes, targets, at[..|at| - 1], es, retention, id)
    requires var m := Run(map[], es[..at[|at| - 1]], retention);
      id in m ==> m[id].targets.Keys == set r | r in targets
    ensures var m := Run(map[], es[..at[|at| - 1]], retention);
      ShowsLastListing(if id in m then StatesOf(m[id].targets) else outcomes, targets, at, es, retention, id)
  {
    hide Run, AllPending;
    var n, pre := |at| - 1, at[..|at| - 1];
    var m := Run(map[], es[..at[n]], retention);
    assert forall i | 0 <= i < n :: pre[i] == at[i];
    assert ListedAt(at, es, retention, id, n) <==> id in m;
    if id in m {
      forall i | LastListed(at, es, retention, id, i) ensures i == n { }
    } else {
      forall i | LastListed(at, es, retention, id, i) ensures LastListed(pre, es, retention, id, i) {
        forall j | i < j < n ensures !ListedAt(pre, es, retention, id, j) {
          assert !ListedAt(at, es, retention, id, j);
        }
      }
      if forall i :: !ListedAt(at, es, retention, id, i) {
        forall i ensures !ListedAt(pre, es, retention, id, i) {
          assert !ListedAt(at, es, retention, id, i);
        }
      }
    }
  }

  /**
   The log of what the operator issued equals the tracker's own record: an entry made when the command was
   issued shows the states of the last frame that listed the command, or all PENDING if none has.
   */
  lemma {:induction false} EntryShowsLastListing(e: AuditEntry, frames: seq<SwarmState>, at: seq<nat>, es: seq<Event>,
                                                 retention: Time, k: int)
    requires FreshIds(es) && SubmitsAt(es, k, e.commandId)
    requires e.targets == es[k].cmd.targets && e.outcomes == AllPending(e.targets)
    requires FramesOfRun(frames, at, es, retention)
    ensures var final := Follow(e, Arrivals(frames));
      final == e.(outcomes := final.outcomes)
      && ShowsLastListing(final.outcomes, e.targets, at, es, retention, e.commandId)
    decreases |frames|
  {
    if frames != [] {
      var n, id := |frames| - 1, e.commandId;
      assert Arrivals(frames)[..n] == Arrivals(frames[..n]);
      EntryShowsLastListing(e, frames[..n], at[..n], es, retention, k);
      var before := Follow(e, Arrivals(frames[..n]));
      var m := Run(map[], es[..at[n]], retention);
      if id in m { TargetsOfSubmission(es, at[n], retention, k, id); }
      MergeShowsTracker(before, frames[n], m);
      NextFrame(before.outcomes, e.targets, at, es, retention, id);
    }
  }

  /** The frames that arrived during a run of the log. */
  function FramesIn(ops: seq<LogEvent>): seq<SwarmState> {
    if ops == [] then []
    else
      FramesIn(ops[..|ops| - 1]) + match ops[|ops| - 1]
      case Issued(_) => []
      case Arrived(f) => [f]
  }

  lemma {:induction false} FollowsFrames(e: AuditEntry, ops: seq<LogEvent>)
    ensures Follow(e, ops) == Follow(e, Arrivals(FramesIn(ops)))
    decreases |ops|
  {
    hide MergeEntry;
    if ops != [] {
      var pre, last := ops[..|ops| - 1], ops[|ops| - 1];
      FollowsFrames(e, pre);
      if last.Arrived? {
        var frames := Arrivals(FramesIn(ops));
        assert frames[..|frames| - 1] == Arrivals(FramesIn(pre));
      } else {
        assert FramesIn(ops) == FramesIn(pre);
      }
    }
  }

  /**
   The client's log itself, whatever else it records meanwhile: until a hundred newer commands have been issued, the
   entry of a command is at its place and shows the last frame that listed the command.
   */
  lemma {:induction false} LogShowsLastListing(log: seq<AuditEntry>, e: AuditEntry, ops: seq<LogEvent>, at: seq<nat>,
                                               es: seq<Event>, retention: Time, k: int)
    requires FreshIds(es) && SubmitsAt(es, k, e.commandId) && IssuedCount(ops) < MAX_ENTRIES
    requires e.targets == es[k].cmd.targets && e.outcomes == AllPending(e.targets)
    requires FramesOfRun(FramesIn(ops), at, es, retention)
    ensures var final := LogRun(Prepend(log, e), ops);
      && IssuedCount(ops) < |final|
      && var shown := final[IssuedCount(ops)];
         shown == e.(outcomes := shown.outcomes)
         && ShowsLastListing(shown.outcomes, e.targets, at, es, retention, e.commandId)
  {
    hide Run, Follow, LogRun, FramesOfRun, ShowsLastListing, Prepend, FreshIds;
    EntryIsRetained(log, e, ops);
    FollowsFrames(e, ops);
    EntryShowsLastListing(e, FramesIn(ops), at, es, retention, k);
  }

  lemma TargetsOfSubmission(es: seq<Event>, n: nat, retention: Time, k: int, id: CommandId)
    requires n <= |es| && FreshIds(es) && SubmitsAt(es, k, id)
    requires id in Run(map[], es[..n], retention)
    ensures Run(map[], es[..n], retention)[id].targets.Keys == set r | r in es[k].cmd.targets
    ensures k < n
  {
    var pre := es[..n];
    assert forall i | 0 <= i < n :: pre[i] == es[i];
    var j := TrackedSinceSubmission(pre, retention, id);
    assert j == k;
    forall r ensures r in Run(map[], pre, retention)[id].targets <==> r in es[k].cmd.targets {
      TargetsExplainedByHistory(pre, retention, k, id, r);
    }
  }

  /**
   A client that took one frame after the command completed, while it was still tracked, logs its final
   outcome: whatever the tracker does later, the entry agrees with it for as long as it is tracked.
   */
  lemma {:induction false} EntryIsFinal(e: AuditEntry, frames: seq<SwarmState>, at: seq<nat>, es: seq<Event>,
      retention: Time, k: int,
                     i: int, q: nat)
    requires FreshIds(es) && SubmitsAt(es, k, e.commandId)
    requires e.targets == es[k].cmd.targets && e.outcomes == AllPending(e.targets)
    requires FramesOfRun(frames, at, es, retention) && ListedAt(at, es, retention, e.commandId, i)
    requires Run(map[], es[..at[i]], retention)[e.commandId].completedAt.Some?
    requires at[i] <= q <= |es| && e.commandId in Run(map[], es[..q], retention)
    ensures Follow(e, Arrivals(frames)).outcomes == StatesOf(Run(map[], es[..q], retention)[e.commandId].targets)
  {
    hide Run, Follow, Arrivals;
    var id := e.commandId;
    EntryShowsLastListing(e, frames, at, es, retention, k);
    var last := i;
    while exists j :: last < j < |at| && ListedAt(at, es, retention, id, j)
      invariant i <= last && ListedAt(at, es, retention, id, last)
      decreases |at| - last
    {
      var j :| last < j < |at| && ListedAt(at, es, retention, id, j);
      last := j;
    }
    assert LastListed(at, es, retention, id, last);
    FrozenOnceComplete(es, at[i], at[last], retention, k, id);
    FrozenOnceComplete(es, at[i], q, retention, k, id);
  }

  lemma {:induction false} FrozenOnceComplete(es: seq<Event>, p: nat, q: nat, retention: Time, k: int, id: CommandId)
    requires FreshIds(es) && SubmitsAt(es, k, id) && p <= q <= |es|
    requires id in Run(map[], es[..p], retention) && Run(map[], es[..p], retention)[id].completedAt.Some?
    requires id in Run(map[], es[..q], retention)
    ensures Run(map[], es[..q], retention)[id] == Run(map[], es[..p], retention)[id]
  {
    hide Run, WellFormed, Step;
    var m := Run(map[], es[..p], retention);
    TargetsOfSubmission(es, p, retention, k, id);
    RunKeepsWellFormed(map[], es[..p], retention);
    assert es[..q] == es[..p] + es[p..q];
    RunAppend(map[], es[..p], es[p..q], retention);
    assert forall j | 0 <= j < q - p :: es[p..q][j] == es[p + j];
    RetentionIsExact(m, es[p..q], retention, id);
  }
}
