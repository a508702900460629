/** The whole scheduler: the core, the set of instantiated machines that the cache keeps, and
    the cycle account. `cap` is the number of machines that may be instantiated at a time. */
module SchedulerSystem {
  import opened Basics
  import opened Machine
  import opened SchedulerModel

  const MAX_INSTANTIATED_VMS: nat := 4

  // ----- The cache -----

  /** Instantiated machines, and the number of times one was suspended or resumed. */
  datatype Cache = Cache(resident: set<VmId>, swaps: nat)

  function Missing(resident: set<VmId>, ids: seq<VmId>): (r: seq<VmId>)
    ensures forall id :: id in r <==> id in ids && id !in resident
    ensures |r| <= |ids|
  {
    if ids == [] then []
    else (if ids[0] in resident then [] else [ids[0]]) + Missing(resident, ids[1..])
  }

  function Elements(ids: seq<VmId>): set<VmId> {
    set id | id in ids
  }

  /** Replace the machines `victims` by `missing`, one for one. */
  function SwapIn(cache: Cache, victims: seq<VmId>, missing: seq<VmId>): Cache
    decreases |missing|
  {
    if missing == [] || victims == [] then cache
    else SwapIn(Cache(cache.resident - {victims[0]} + {missing[0]}, cache.swaps + 2), victims[1..], missing[1..])
  }

  /** Bring in `missing`: from the back while there is room, then in exchange for the
      machines with the smallest ids that are not among `ids`. */
  function Bring(cap: nat, cache: Cache, ids: seq<VmId>, missing: seq<VmId>): Cache
    decreases |missing|
  {
    if missing == [] then cache
    else if |cache.resident| < cap then
      Bring(cap, Cache(cache.resident + {missing[|missing| - 1]}, cache.swaps + 1), ids, missing[..|missing| - 1])
    else SwapIn(cache, Ascending(cache.resident - Elements(ids)), missing)
  }

  /** Suspend the machines with the smallest ids until one more fits. */
  function MakeRoom(cap: nat, cache: Cache): Cache
    decreases |cache.resident|
  {
    if |cache.resident| < cap || cache.resident == {} then cache
    else MakeRoom(cap, Cache(cache.resident - {Min(cache.resident)}, cache.swaps + 1))
  }

  function Serve(cap: nat, cache: Cache, need: Need): Cache {
    match need
    case Attend(ids) => Bring(cap, cache, ids, Missing(cache.resident, ids))
    case Admit(id) => var c := MakeRoom(cap, cache); Cache(c.resident + {id}, c.swaps)
    case Drop(id) => Cache(cache.resident - {id}, cache.swaps)
    case Only(id) => Cache(cache.resident * {id}, cache.swaps)
  }

  function ServeAll(cap: nat, cache: Cache, needs: seq<Need>): Cache
    decreases |needs|
  {
    if needs == [] then cache else
      ServeAll(cap, Serve(cap, cache, needs[0]), needs[1..])
  }

  // ----- The account -----

  /** `charged` counts every cycle ever charged, to a machine or for moving one. */
  datatype System = System(core: Core, cache: Cache, total: nat, iteration: nat, charged: nat)

  /** The cycles of the swaps made between two states of the cache. */
  function SwapCycles(before: Cache, after: Cache): nat
    requires before.swaps <= after.swaps
  {
    SPAWN_EXTRA_CYCLES_BASE * (after.swaps - before.swaps)
  }

  lemma {:induction false} SwapInCounts(cache: Cache, victims: seq<VmId>, missing: seq<VmId>)
    ensures SwapIn(cache, victims, missing).swaps >= cache.swaps
    decreases |missing|
  {
    if missing != [] && victims != [] {
      SwapInCounts(Cache(cache.resident - {victims[0]} + {missing[0]}, cache.swaps + 2), victims[1..], missing[1..]);
    }
  }

  lemma {:induction false} BringCounts(cap: nat, cache: Cache, ids: seq<VmId>, missing: seq<VmId>)
    ensures Bring(cap, cache, ids, missing).swaps >= cache.swaps
    decreases |missing|
  {
    if missing != [] {
      if |cache.resident| < cap {
        BringCounts(cap, Cache(cache.resident + {missing[|missing| - 1]}, cache.swaps + 1), ids,
                    missing[..|missing| - 1]);
      } else {
        SwapInCounts(cache, Ascending(cache.resident - Elements(ids)), missing);
      }
    }
  }

  lemma {:induction false} MakeRoomCounts(cap: nat, cache: Cache)
    ensures MakeRoom(cap, cache).swaps >= cache.swaps
    decreases |cache.resident|
  {
    if |cache.resident| >= cap && cache.resident != {} {
      MakeRoomCounts(cap, Cache(cache.resident - {Min(cache.resident)}, cache.swaps + 1));
    }
  }

  lemma {:induction false} ServeAllCounts(cap: nat, cache: Cache, needs: seq<Need>)
    ensures ServeAll(cap, cache, needs).swaps >= cache.swaps
    decreases |needs|
  {
    if needs != [] {
      hide Bring, MakeRoom;
      match needs[0] {
        case Attend(ids) => BringCounts(cap, cache, ids, Missing(cache.resident, ids));
        case Admit(id) => MakeRoomCounts(cap, cache);
        case _ =>
      }
      ServeAllCounts(cap, Serve(cap, cache, needs[0]), needs[1..]);
    }
  }

  /** The system after an operation on its core: the cache has met its needs, and the cost of
      that has gone to the iteration, as have the `cycles` read off a machine, `ran` of which
      are newly charged. */
  function Account(cap: nat, s: System, w: Work, cycles: nat, ran: nat): System {
    ServeAllCounts(cap, s.cache, w.needs);
    var cache := ServeAll(cap, s.cache, w.needs);
    var cost := SwapCycles(s.cache, cache);
    System(w.core, cache, s.total, s.iteration + cycles + cost, s.charged + w.charged + ran + cost)
  }

  // ----- Iterations and runs -----

  datatype Iteration =
    | Iterated(s: System, id: VmId, remaining: nat, budget: Option<nat>)
    | Broke(s: System, error: Error)

  function Idle(c: Core): Work { Work(c, [], 0) }

  /** One iteration: a turn, the transfer of its cycles to the total, and the pipes. */
  function Iterate(isa: Isa, cap: nat, s: System, limit: nat, budget: Option<nat>): Iteration {
    var t := TakeTurn(isa, s.core, s.total, limit, budget);
    var s1 := Account(cap, s, t.res.w, t.cycles, t.ran);
    var s2 := s1.(total := s1.total + s1.iteration);
    if s1.iteration > limit then Broke(s2, CyclesExceeded)
    else
      var io := ProcessIo(Idle(s2.core));
      var s3 := Account(cap, s2.(iteration := 0), io.w, 0, 0);
      if io.Err? then Broke(s3, io.error)
      else if t.res.Err? then Broke(s3, t.res.error)
      else Iterated(s3, t.id, limit - s1.iteration, t.budget)
  }

  predicate IsTerminated(c: Core) {
    ROOT_VM_ID in c.states && c.states[ROOT_VM_ID].Terminated?
  }

  /** How a run ended, and the machines that were executed one after the other. */
  datatype Run = Done(s: System, executed: seq<VmId>) | Stopped(s: System, error: Error, executed: seq<VmId>) {
    function After(id: VmId): Run {
      this.(executed := [id] + executed)
    }
  }

  lemma IterateConsumes(isa: Isa, cap: nat, s: System, limit: nat, budget: Option<nat>)
    ensures var i := Iterate(isa, cap, s, limit, budget); i.Iterated? ==> i.remaining < limit
  {
    hide TakeTurn, ProcessIo, ServeAll;
  }

  /** Iterate until the root machine has exited or something stops the run. */
  function RunFrom(isa: Isa, cap: nat, s: System, limit: nat, budget: Option<nat>): Run
    decreases limit
  {
    if IsTerminated(s.core) then Done(s, []) else
      IterateConsumes(isa, cap, s, limit, budget);
      match Iterate(isa, cap, s, limit, budget)
      case Broke(s', error) => Stopped(s', error, [])
      case Iterated(s', id, remaining, budget') => RunFrom(isa, cap, s', remaining, budget').After(id)
  }

  /** A run with a cycle limit and the number of instructions until the pause signal. */
  datatype Chunk = Chunk(limit: nat, budget: Option<nat>)

  /** A run that is taken up again, with the next chunk, each time it was paused. */
  function RunChunks(isa: Isa, cap: nat, s: System, chunk: Chunk, rest: seq<Chunk>): Run
    decreases |rest|
  {
    var r := RunFrom(isa, cap, s, chunk.limit, chunk.budget);
    if r.Stopped? && r.error.Paused? && rest != [] then RunChunks(isa, cap, r.s, rest[0], rest[1..]) else r
  }

  const NEW_SYSTEM := System(EMPTY_CORE, Cache({}, 0), 0, 0, 0)

  /** The system once the root machine has been created. */
  function Boot(isa: Isa, cap: nat, program: Location, args: seq<seq<Byte>>): Run {
    var b := BootVm(isa, Idle(EMPTY_CORE), program, None, 0, 0, args);
    var s := Account(cap, NEW_SYSTEM, b.w, 0, 0);
    if b.Err? then Stopped(s, b.error, []) else Done(s, [])
  }
}
