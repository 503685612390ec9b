/**
 The callback gateway and its reactors as the server runs them: fields changed in place by the runtime's
 callbacks, the registry under one mutex, and each reactor's queue under its own.
 */
module RobotGateway {
  import opened Domain
  import opened OutgoingLink

  /** What a robot sends up its stream. */
  datatype Uplink = TelemetryUp(telemetry: Telemetry) | ResultUp(result: CommandResult)

  /** The robot id the first message registers its link under: that of its telemetry part, empty if it has none. */
  function RegistrationId(up: Uplink): RobotId {
    match up
    case TelemetryUp(t) => t.robotId
    case ResultUp(_) => ""
  }

  class Reactor {
    var outgoingQueue: seq<RobotCommand>
    var writing: bool
    var outgoing: Option<RobotCommand>
    var registered: bool
    var robotId: RobotId
    ghost var accepted: seq<RobotCommand>
    ghost var written: seq<RobotCommand>
    ghost var outstanding: nat
    ghost var failed: bool
    ghost var finishes: nat
    ghost var deleted: bool

    ghost function State(): Pump
      reads this
    {
      Pump(outgoingQueue, writing, outgoing, accepted, written, outstanding, failed, finishes)
    }

    ghost predicate Valid()
      reads this
    {
      PumpInv(State())
    }

    constructor ()
      ensures Valid() && State() == EMPTY_PUMP
      ensures !registered && robotId == "" && !deleted
    {
      outgoingQueue, writing, outgoing := [], false, None;
      registered, robotId := false, "";
      accepted, written, outstanding, failed, finishes, deleted := [], [], 0, false, 0, false;
    }

    /** The runtime allows one outstanding write. */
    method StartWrite()
      requires outstanding == 0
      modifies this`outstanding
      ensures outstanding == 1
    {
      outstanding := 1;
    }

    method Finish()
      modifies this`finishes
      ensures finishes == old(finishes) + 1
    {
      finishes := finishes + 1;
    }

    method PumpQueue()
      requires outstanding == if writing then 1 else 0
      modifies this
      ensures State() == PumpLocked(old(State()))
      ensures registered == old(registered) && robotId == old(robotId) && deleted == old(deleted)
    {
      if writing || outgoingQueue == [] { return; }
      outgoing := Some(outgoingQueue[0]);
      writing := true;
      StartWrite();
    }

    method Enqueue(cmd: RobotCommand)
      requires Valid() && !deleted
      modifies this
      ensures Valid()
      ensures State() == OutgoingLink.Enqueue(old(State()), cmd)
      ensures registered == old(registered) && robotId == old(robotId) && deleted == old(deleted)
    {
      PumpStepKeepsInv(State(), Enqueued(cmd));
      outgoingQueue := outgoingQueue + [cmd];
      accepted := accepted + [cmd];
      PumpQueue();
    }

    /** The runtime calls this once for each outstanding write. */
    method OnWriteDone(ok: bool)
      requires Valid() && outstanding > 0
      modifies this
      ensures Valid()
      ensures CanComplete(old(State())) && State() == WriteDone(old(State()), ok)
      ensures registered == old(registered) && robotId == old(robotId) && deleted == old(deleted)
    {
      PumpStepKeepsInv(State(), Completed(ok));
      writing := false;
      outstanding := outstanding - 1;
      if !ok {
        failed := true;
        Finish();
        return;
      }
      written := written + [outgoing.value];
      outgoingQueue := outgoingQueue[1..];
      PumpQueue();
    }

    /** Register under the first message's robot id; deliver is what the caller must hand on. */
    method OnReadDone(ok: bool, incoming: Uplink, owner: Gateway) returns (deliver: Option<Uplink>)
      requires Valid() && !deleted && owner.Valid()
      requires !registered ==> robotId == "" && this !in owner.registry.Values
      modifies this, owner
      ensures Valid() && owner.Valid() && deleted == old(deleted)
      ensures !ok ==> deliver == None && State() == old(State()).(finishes := old(finishes) + 1)
      ensures !ok ==> owner.registry == old(owner.registry) && registered == old(registered) && robotId == old(robotId)
      ensures ok ==> deliver == Some(incoming) && State() == old(State()) && registered
      ensures ok && old(registered) ==> owner.registry == old(owner.registry) && robotId == old(robotId)
      ensures ok && !old(registered) ==>
        robotId == (if incoming.TelemetryUp? then incoming.telemetry.robotId else "")
        && owner.registry == if robotId in old(owner.registry) then old(owner.registry)
                             else old(owner.registry)[robotId := this]
    {
      if !ok {
        Finish();
        return None;
      }
      if !registered {
        robotId := RegistrationId(incoming);
        owner.Register(robotId, this);
        registered := true;
      }
      return Some(incoming);
    }

    /** The last callback of a link: leave the registry, then delete the object. */
    method OnDone(owner: Gateway)
      requires !deleted && owner.Valid()
      modifies this`deleted, owner
      ensures owner.Valid() && deleted
      ensures owner.registry == old(owner.registry) - {robotId}
      ensures this !in owner.registry.Values
    {
      owner.Unregister(robotId);
      deleted := true;
    }
  }

  class Gateway {
    var registry: map<RobotId, Reactor>

    /** Every entry points to a reactor that is not deleted, whose own robot id is the key. */
    ghost predicate Valid()
      reads this, registry.Values
    {
      forall id | id in registry :: !registry[id].deleted && registry[id].robotId == id && registry[id].Valid()
    }

    constructor ()
      ensures Valid() && registry == map[]
    {
      registry := map[];
    }

    method Register(id: RobotId, reactor: Reactor)
      modifies this
      ensures registry == if id in old(registry) then old(registry) else old(registry)[id := reactor]
    {
      if id !in registry { registry := registry[id := reactor]; }
    }

    method Unregister(id: RobotId)
      modifies this
      ensures registry == old(registry) - {id}
    {
      registry := registry - {id};
    }

    /** Every enqueue reached through the registry acts on a reactor that is not deleted. */
    method SendCommand(cmd: RobotCommand) returns (sent: bool)
      requires Valid()
      modifies registry.Values
      ensures Valid() && registry == old(registry)
      ensures sent <==> cmd.robotId in registry
      ensures sent ==> registry[cmd.robotId].State() == Enqueue(old(registry[cmd.robotId].State()), cmd)
      ensures forall r | r in registry.Values && (sent ==> r != registry[cmd.robotId]) :: unchanged(r)
    {
      if cmd.robotId in registry {
        var reactor := registry[cmd.robotId];
        reactor.Enqueue(cmd);
        return true;
      }
      return false;
    }
  }

  // ---- the writer thread's shared state -------------------------------------

  /** How many of the next writes succeed before the first that fails, at most n. */
  function WritesBeforeFailure(accepts: nat -> bool, n: nat): (k: nat)
    ensures k <= n
    ensures forall i | 0 <= i < k :: accepts(i)
    ensures k < n ==> !accepts(k)
  {
    if n == 0 then 0
    else
      var k := WritesBeforeFailure(accepts, n - 1);
      if k < n - 1 || !accepts(n - 1) then k else n
  }

  class RobotLinkState {
    var outgoing: seq<RobotCommand>
    ghost var written: seq<RobotCommand>
    ghost var lost: seq<RobotCommand>

    constructor ()
      ensures outgoing == [] && written == [] && lost == []
    {
      outgoing, written, lost := [], [], [];
    }

    method Push(cmd: RobotCommand)
      modifies this`outgoing
      ensures outgoing == old(outgoing) + [cmd]
    {
      outgoing := outgoing + [cmd];
    }

    /**
     The writer's inner loop, run while it holds the mutex; accepts(i) says whether the stream takes the i-th
     write. It writes the queue in order up to the first refusal, and loses only the command refused.
     */
    method Drain(accepts: nat -> bool) returns (ok: bool)
      modifies this
      ensures var k := WritesBeforeFailure(accepts, |old(outgoing)|);
        && written == old(written) + old(outgoing)[..k]
        && (ok <==> k == |old(outgoing)|)
        && lost + outgoing == old(lost) + old(outgoing)[k..]
        && |lost| == |old(lost)| + if ok then 0 else 1
    {
      ghost var queue, wrote, lostBefore := outgoing, written, lost;
      var i := 0;
      while outgoing != []
        invariant 0 <= i <= |queue| && outgoing == queue[i..] && lost == lostBefore
        invariant written == wrote + queue[..i]
        invariant forall j | 0 <= j < i :: accepts(j)
        decreases |outgoing|
      {
        var cmd := outgoing[0];
        outgoing := outgoing[1..];
        if !accepts(i) {
          lost := lost + [cmd];
          FirstFailure(accepts, |queue|, i);
          return false;
        }
        written := written + [cmd];
        assert queue[..i + 1] == queue[..i] + [queue[i]];
        i := i + 1;
      }
      FirstFailure(accepts, |queue|, i);
      return true;
    }
  }

  lemma FirstFailure(accepts: nat -> bool, n: nat, k: nat)
    requires k <= n && (forall i | 0 <= i < k :: accepts(i)) && (k < n ==> !accepts(k))
    ensures WritesBeforeFailure(accepts, n) == k
  {
    var w := WritesBeforeFailure(accepts, n);
    assert forall i | 0 <= i < w :: accepts(i);
  }
}
