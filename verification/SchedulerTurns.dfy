/** What a turn and a boot do, told from the instructions and the loader: where a machine stops, what
    it has consumed, and whose turn it is. */
module SchedulerTurns {
  import opened Basics
  import opened Machine
  import opened SchedulerModel
  import opened SchedulerInvariant
  import opened SchedulerSystem
  import opened SchedulerRuns
  import opened SchedulerService

  // ----- Running one machine -----

  /** The machine after its next instruction, if that lets it run on. A read or write of a descriptor
      of the wrong kind is answered at once. */
  function Follow(isa: Isa, id: VmId, vm: Vm, base: nat): Option<Vm> {
    match isa.step(id, vm.cpu, base + vm.cycles)
    case Next(cpu, cost) => Some(Vm(cpu, vm.cycles + cost))
    case Ecall(cpu, request, cost) =>
      if WrongEnd(request) then Some(Vm(Cpu(cpu.core, cpu.memory, 6), vm.cycles + cost)) else None
    case _ => None
  }

  predicate WrongEnd(request: Request) {
    (request.FdRead? && request.read.fd % 2 == 1) || (request.FdWrite? && request.write.fd % 2 == 0)
  }

  /** What a request costs on top of its instruction. */
  function CallCycles(request: Request): nat {
    if request.ExecV2? then 0 else if request.Spawn? then 100_800 else 800
  }

  /** Machine `vm` stops here: the pause signal, a fault, the limit, an exit, or a request. */
  predicate StopsHere(isa: Isa, id: VmId, vm: Vm, base: nat, limit: nat, paused: bool, r: RunResult) {
    if paused then r.vm == vm && r.outcome == Failed(Paused) && r.posted == None
    else
      match isa.step(id, vm.cpu, base + vm.cycles)
      case Fault(fault) => r.vm == vm && r.outcome == Failed(VmError(fault)) && r.posted == None
      case Next(_, cost) =>
        vm.cycles + cost > limit && r.vm == vm && r.outcome == Failed(CyclesExceeded) && r.posted == None
      case Exit(cpu, code, cost) =>
        && r.posted == None
        && if vm.cycles + cost > limit then r.vm == vm && r.outcome == Failed(CyclesExceeded)
           else r.vm == Vm(cpu, vm.cycles + cost) && r.outcome == Exited(code)
      case Ecall(cpu, request, cost) =>
        if vm.cycles + cost > limit then r.vm == vm && r.outcome == Failed(CyclesExceeded) && r.posted == None
        else
          && !WrongEnd(request) && r.vm == Vm(cpu, vm.cycles + cost + CallCycles(request))
          && r.outcome == Yielded && r.posted == Some(request)
  }

  /** The machine executes `n` instructions within the limit and before the signal, and stops at the
      next. */
  predicate RunsTo(isa: Isa, id: VmId, vm: Vm, base: nat, limit: nat, budget: Option<nat>, r: RunResult, n: nat)
    decreases n
  {
    if n == 0 then StopsHere(isa, id, vm, base, limit, budget == Some(0), r)
    else
      var next := Follow(isa, id, vm, base);
      && budget != Some(0) && next.Some? && next.value.cycles <= limit
      && RunsTo(isa, id, next.value, base, limit, Tick(budget), r, n - 1)
  }

  /** A machine runs instruction by instruction and stops at the first that stops it. */
  lemma {:induction false} RunVmIs(isa: Isa, id: VmId, vm: Vm, base: nat, limit: nat, budget: Option<nat>)
    ensures exists n: nat :: RunsTo(isa, id, vm, base, limit, budget, RunVm(isa, id, vm, base, limit, budget), n)
    decreases if vm.cycles <= limit then limit - vm.cycles + 1 else 0
  {
    var r := RunVm(isa, id, vm, base, limit, budget);
    if budget != Some(0) && Execute(isa, id, vm, base, limit).Go? {
      var next := Execute(isa, id, vm, base, limit).vm;
      GoesOn(isa, id, vm, base, limit, next);
      RunVmIs(isa, id, next, base, limit, Tick(budget));
      var r' := RunVm(isa, id, next, base, limit, Tick(budget));
      var n: nat :| RunsTo(isa, id, next, base, limit, Tick(budget), r', n);
      assert r == r';
      assert RunsTo(isa, id, vm, base, limit, budget, r, n + 1);
    } else {
      assert RunsTo(isa, id, vm, base, limit, budget, r, 0);
    }
  }

  lemma GoesOn(isa: Isa, id: VmId, vm: Vm, base: nat, limit: nat, next: Vm)
    requires Execute(isa, id, vm, base, limit) == Go(next)
    ensures Follow(isa, id, vm, base) == Some(next) && next.cycles <= limit
  {
  }

  /** There is only one way to run like that. */
  lemma {:induction false} RunsOneWay(isa: Isa, id: VmId, vm: Vm, base: nat, limit: nat, budget: Option<nat>,
                                      r: RunResult, r': RunResult, n: nat, n': nat)
    requires RunsTo(isa, id, vm, base, limit, budget, r, n) && RunsTo(isa, id, vm, base, limit, budget, r', n')
    ensures n' == n && r'.vm == r.vm && r'.outcome == r.outcome && r'.posted == r.posted
    decreases n
  {
    if n > 0 && n' > 0 {
      RunsOneWay(isa, id, Follow(isa, id, vm, base).value, base, limit, Tick(budget), r, r', n - 1, n' - 1);
    }
  }

  // ----- Turns -----

  /** It is the turn of the runnable machine with the largest id. It runs, its counter is read and
      reset, and then its request is served, its exit, or its failure reported. */
  lemma TurnIsTaken(isa: Isa, c: Core, base: nat, limit: nat, budget: Option<nat>, id: VmId, r: RunResult, t: Turn)
    requires Inv(c) && Sender(c, id) && id in c.vms && forall v :: Sender(c, v) ==> v <= id
    requires r == RunVm(isa, id, c.vms[id], base, limit, budget) && t == TakeTurn(isa, c, base, limit, budget)
    ensures t.id == id && t.cycles == r.vm.cycles && t.ran == r.vm.cycles - c.vms[id].cycles
    ensures var w := Work(c.(vms := c.vms[id := Vm(r.vm.cpu, 0)]), [Attend([id])], 0);
            match r.outcome
            case Failed(error) => t.res == Err(error, w)
            case Yielded => r.posted.Some? && t.res == OnMessage(isa, w, Message(id, r.posted.value))
            case Exited(code) => t.res == OnResult(isa, w, id, [], Exited(code))
  {
    hide Inv, RunVm, OnMessage, Max, WakeJoiners;
    assert id in RunnableVms(c);
    assert forall v :: v in RunnableVms(c) ==> Sender(c, v);
    LargestIs(RunnableVms(c), id);
    if r.posted.Some? {
      OneMessage(isa, AfterRun(c, id, r), Message(id, r.posted.value));
    }
  }

  lemma OneMessage(isa: Isa, w: Work, m: Message)
    ensures OnMessages(isa, w, [m]) == OnMessage(isa, w, m)
  {
    hide OnMessage;
    assert [m][1..] == [];
    assert OnMessages(isa, OnMessage(isa, w, m).w, []) == Ok(OnMessage(isa, w, m).w);
  }

  lemma LargestIs(s: set<VmId>, id: VmId)
    requires id in s && forall v :: v in s ==> v <= id
    ensures Max(s) == id
  {
  }

  /** Without a runnable machine there is a deadlock, and nothing happens. */
  lemma NobodysTurn(isa: Isa, c: Core, base: nat, limit: nat, budget: Option<nat>, t: Turn)
    requires t == TakeTurn(isa, c, base, limit, budget) && forall v :: !Sender(c, v)
    ensures t.res == Err(Deadlock, Work(c, [], 0)) && t.cycles == 0
  {
    assert forall v :: v in RunnableVms(c) ==> Sender(c, v);
  }

  // ----- Iterations -----

  /** An iteration costs what its machine has consumed and 100000 cycles for each move of one. It stops
      the run if that is more than the limit; if the pipes cannot be served; or if the turn failed,
      with the error of the turn. Otherwise the cost moves from the limit to the total. */
  lemma IterationEnds(isa: Isa, cap: nat, s: System, limit: nat, budget: Option<nat>, t: Turn, moves: nat, cost: nat,
                      i: Iteration)
    requires Inv(s.core) && t == TakeTurn(isa, s.core, s.total, limit, budget)
    requires moves + s.cache.swaps == ServeAll(cap, s.cache, t.res.w.needs).swaps
    requires cost == s.iteration + t.cycles + 100_000 * moves && i == Iterate(isa, cap, s, limit, budget)
    ensures i.s.total == s.total + cost
    ensures cost > limit ==> i.Broke? && i.error == CyclesExceeded && i.s.core == t.res.w.core
    ensures Finished(t.res.w.core) || VmsOk(t.res.w.core)
    ensures cost <= limit && !Finished(t.res.w.core) && !IoFits(t.res.w.core) ==> i.Broke? && i.error == MemOutOfBound
    ensures cost <= limit && (Finished(t.res.w.core) || IoFits(t.res.w.core)) && t.res.Err? ==>
              i.Broke? && i.error == t.res.error
    ensures cost <= limit && (Finished(t.res.w.core) || IoFits(t.res.w.core)) && t.res.Ok? ==>
              i.Iterated? && i.id == t.id && i.remaining == limit - cost && i.budget == t.budget
    ensures cost <= limit && Finished(t.res.w.core) ==> i.s.core == t.res.w.core
    ensures cost <= limit && !Finished(t.res.w.core) && IoFits(t.res.w.core) ==> IoServed(t.res.w.core, i.s.core)
  {
    hide TakeTurn, ProcessIo, ServeAll, Inv, Live, Finished, VmsOk, IoFits, IoServed;
    TakeTurnKeeps(isa, s.core, s.total, limit, budget);
    var c := t.res.w.core;
    if Finished(c) {
      QuiescentIo(c);
    } else {
      LiveVms(c);
      ProcessIoIs(Idle(c));
    }
  }

  // ----- Boot -----

  /** A script begins with the image loaded from its program and arguments, alone and runnable, and a
      cycle on its counter for every four bytes or part of them; or it does not begin because the
      program cannot be fetched or loaded. */
  lemma BootStarts(isa: Isa, cap: nat, program: Location, args: seq<seq<Byte>>, r: SchedulerSystem.Run)
    requires cap > 0 && r == Boot(isa, cap, program, args)
    ensures r.executed == [] && r.s.total == r.s.iteration == 0
    ensures match isa.fetch(program)
            case Some(code) => r.Stopped? && r.error == VmError(code)
            case None =>
              match isa.load(program, FromVector(args))
              case LoadFailed(code) => r.Stopped? && r.error == VmError(code)
              case Loaded(cpu, bytes) =>
                && r.Done? && r.s.core.vms == map[0 := Vm(cpu, (bytes + 3) / 4)]
                && r.s.core.states == map[0 := Runnable] && r.s.core.nextVmId == 1 && r.s.core.nextFdSlot == 2
                && r.s.core.fds == map[] && r.s.core.inherited == map[] && r.s.core.terminated == map[]
                && r.s.cache == Cache({0}, 0)
  {
    hide Bring;
    var b := BootVm(isa, Idle(EMPTY_CORE), program, None, 0, 0, args);
    var empty := Cache({}, 0);
    if b.Ok? {
      assert b.w.needs == [Admit(0)] && b.w.needs[1..] == [];
      assert MakeRoom(cap, empty) == empty && Serve(cap, empty, Admit(0)) == Cache({0}, 0);
      assert ServeAll(cap, Cache({0}, 0), []) == Cache({0}, 0);
      assert ServeAll(cap, empty, b.w.needs) == Cache({0}, 0);
    } else {
      assert b.w.needs == [];
    }
  }
}
