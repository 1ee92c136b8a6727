/** `src/proto/sv2/relay/registry.rs`: the bundle-target rig of each worker, the per-worker
    gates, and the idle reaper. */
module Registry {
  import opened Options
  import opened Types

  /** Take the slot of a worker if it is free. */
  function InsertIfAbsent<T>(rigs: map<Worker, T>, worker: Worker, rig: T): map<Worker, T> {
    if worker in rigs then rigs else rigs[worker := rig]
  }

  /** Free the slot of a worker if this very rig holds it. */
  function RemoveIfSame<T(==)>(rigs: map<Worker, T>, worker: Worker, rig: T): map<Worker, T> {
    if worker in rigs && rigs[worker] == rig then rigs - {worker} else rigs
  }

  predicate IsTarget<T(==)>(rigs: map<Worker, T>, worker: Worker, rig: T) {
    worker in rigs && rigs[worker] == rig
  }

  /** What the reaper looks at and what it stops. */
  class RigSession {
    var members: set<nat>
    var idleToken: nat
    var running: bool

    constructor ()
      ensures members == {} && idleToken == 0 && running
    {
      members, idleToken, running := {}, 0, true;
    }
  }

  class Gate {
    constructor () {}
  }

  class Sv2RigRegistry {
    var rigs: map<Worker, RigSession>
    var gates: map<Worker, Gate>

    constructor ()
      ensures rigs == map[] && gates == map[]
    {
      rigs, gates := map[], map[];
    }

    /** One gate per worker, made on first use and kept for good: a gate once handed out stays
        the worker's gate. */
    method GateOf(worker: Worker) returns (gate: Gate)
      modifies this`gates
      ensures gates == old(gates)[worker := gate]
      ensures worker in old(gates) ==> gate == old(gates)[worker] && gates == old(gates)
      ensures worker !in old(gates) ==> fresh(gate)
    {
      if worker !in gates {
        var g := new Gate();
        gates := gates[worker := g];
      }
      gate := gates[worker];
    }

    method Get(worker: Worker) returns (rig: Option<RigSession>)
      ensures rig == if worker in rigs then Some(rigs[worker]) else None
    {
      rig := if worker in rigs then Some(rigs[worker]) else None;
    }

    method InsertRig(worker: Worker, rig: RigSession) returns (inserted: bool)
      modifies this`rigs
      ensures rigs == InsertIfAbsent(old(rigs), worker, rig)
      ensures inserted <==> worker !in old(rigs)
    {
      if worker in rigs {
        return false;
      }
      rigs := rigs[worker := rig];
      inserted := true;
    }

    method RemoveRig(worker: Worker, rig: RigSession)
      modifies this`rigs
      ensures rigs == RemoveIfSame(old(rigs), worker, rig)
    {
      if worker in rigs && rigs[worker] == rig {
        rigs := rigs - {worker};
      }
    }

    /** `reap_idle_rig` after its sleep, under the worker's gate: the rig is taken down exactly
        when it is still empty and this reaper holds its current token; otherwise nothing moves. */
    method ReapIdleRig(worker: Worker, rig: RigSession, token: nat, listed: set<RigSession>)
      returns (reaped: bool, listed': set<RigSession>)
      modifies this`rigs, rig`running
      ensures reaped <==> old(rig.members) == {} && old(rig.idleToken) == token
      ensures reaped ==> !rig.running && listed' == listed - {rig} && rigs == RemoveIfSame(old(rigs), worker, rig)
      ensures reaped ==> !IsTarget(rigs, worker, rig)
      ensures !reaped ==> rig.running == old(rig.running) && listed' == listed && rigs == old(rigs)
    {
      listed' := listed;
      if rig.members != {} || rig.idleToken != token {
        return false, listed;
      }
      RemoveRig(worker, rig);
      listed' := listed - {rig};
      rig.running := false;
      reaped := true;
    }
  }
}
