/** One virtual machine as the scheduler sees it: a memory image, the result register A0, an
    opaque remainder and a cycle counter. What an instruction does is a parameter (`Isa`);
    the syscall front end and the run loop around it are modelled. */
module Machine {
  import opened Basics

  type VmId = int
  type Fd = int
  type Positive = n: nat | n >= 1 witness 1
  type ExitCode = c: int | -128 <= c < 128

  // Result codes, script/src/syscalls/mod.rs
  const SUCCESS: nat := 0
  const WAIT_FAILURE: nat := 5
  const INVALID_FD: nat := 6
  const OTHER_END_CLOSED: nat := 7
  const MAX_VMS_SPAWNED: nat := 8
  const MAX_FDS_CREATED: nat := 9

  const EXEC_LOAD_ELF_V2_CYCLES_BASE: nat := 75_000
  const SPAWN_EXTRA_CYCLES_BASE: nat := 100_000
  const SPAWN_YIELD_CYCLES_BASE: nat := 800
  const BYTES_PER_CYCLE: nat := 4

  const FIRST_VM_ID: VmId := 0
  const FIRST_FD_SLOT: Fd := 2

  /** Number of cycles for moving `n` bytes: a quarter of a cycle each, rounded up. */
  function TransferredByteCycles(n: nat): nat {
    (n + BYTES_PER_CYCLE - 1) / BYTES_PER_CYCLE
  }

  predicate IsRead(fd: Fd) { fd % 2 == 0 }

  predicate IsWrite(fd: Fd) { fd % 2 == 1 }

  /** The opposite end of the pipe `fd` belongs to (`fd ^ 1`). */
  function OtherFd(fd: Fd): (r: Fd)
    ensures r != fd && IsRead(r) == IsWrite(fd)
  {
    if IsRead(fd) then fd + 1 else fd - 1
  }

  datatype Error =
    | CyclesExceeded
    | Paused
    | MemOutOfBound
    | Deadlock
    | Unexpected
    | Panic              // a failed `assert!` or map index of the scheduler itself
    | VmError(code: nat) // raised by the machine or the program loader

  datatype Location = Location(dataPiece: nat, offset: nat, length: nat)

  datatype SpawnArgs = SpawnArgs(location: Location, argc: nat, argv: nat, fds: seq<Fd>, processIdAddr: nat)

  datatype FdArgs = FdArgs(fd: Fd, length: nat, bufferAddr: nat, lengthAddr: nat)

  datatype Request =
    | ExecV2(location: Location, argc: nat, argv: nat)
    | Spawn(spawn: SpawnArgs)
    | Wait(target: VmId, exitCodeAddr: nat)
    | Pipe(fd1Addr: nat, fd2Addr: nat)
    | FdRead(read: FdArgs)
    | FdWrite(write: FdArgs)
    | InheritedFd(bufferAddr: nat, lengthAddr: nat)
    | Close(fd: Fd)

  datatype Message = Message(vm: VmId, request: Request)

  /** Registers, program counter and memory; `core` stands for all state other than A0 and memory. */
  datatype Cpu = Cpu(core: nat, memory: seq<Byte>, a0: nat)

  datatype Vm = Vm(cpu: Cpu, cycles: nat)

  /** What one instruction does. */
  datatype Step =
    | Next(cpu: Cpu, cost: Positive)
    | Exit(cpu: Cpu, code: ExitCode, cost: Positive)
    | Ecall(cpu: Cpu, request: Request, cost: Positive)
    | Fault(fault: nat)

  datatype ArgSource = FromMemory(memory: seq<Byte>, argc: nat, argv: nat) | FromVector(args: seq<seq<Byte>>)

  datatype Loaded = Loaded(cpu: Cpu, bytes: nat) | LoadFailed(code: nat)

  /** The parts of CKB-VM this model does not look into. `step` also gets the number a
      `current_cycles` syscall would return. `fetch` is `Some` when a program cannot be found
      or parsed; `load` builds the initial machine image from program and arguments. */
  datatype Isa = Isa(
    step: (VmId, Cpu, nat) -> Step,
    fetch: Location -> Option<nat>,
    load: (Location, ArgSource) -> Loaded)

  /** No instruction looks at the number of cycles consumed so far. */
  ghost predicate IgnoresCycles(isa: Isa) {
    forall id, cpu, n :: isa.step(id, cpu, n) == isa.step(id, cpu, 0)
  }

  // ----- Memory -----

  function StoreBytes(memory: seq<Byte>, addr: nat, data: seq<Byte>): (r: Option<seq<Byte>>)
    ensures r.Some? ==> |r.value| == |memory|
  {
    if data == [] then Some(memory)
    else if addr + |data| > |memory| then None
    else Some(memory[..addr] + data + memory[addr + |data|..])
  }

  function LoadBytes(memory: seq<Byte>, addr: nat, length: nat): (r: Option<seq<Byte>>)
    ensures r.Some? ==> |r.value| == length
  {
    if length == 0 then Some([])
    else if addr + length > |memory| then None
    else Some(memory[addr..addr + length])
  }

  /** The bytes of `memory` from `addr` on, at most `length` of them. */
  function Window(memory: seq<Byte>, addr: nat, length: nat): seq<Byte> {
    if addr >= |memory| then []
    else if addr + length > |memory| then memory[addr..]
    else memory[addr..addr + length]
  }

  // ----- Running one machine -----

  datatype Outcome = Exited(code: ExitCode) | Yielded | Failed(error: Error)

  /** `budget` counts the instructions left before the pause signal is seen; `None` is never. */
  datatype RunResult = RunResult(vm: Vm, outcome: Outcome, posted: Option<Request>, budget: Option<nat>)

  function Tick(budget: Option<nat>): Option<nat>
    requires budget != Some(0)
  {
    if budget.None? then None else Some(budget.value - 1)
  }

  /** Cycles a syscall adds, without checking the limit, before it yields. */
  function YieldCycles(request: Request): nat {
    match request
    case ExecV2(_, _, _) => 0
    case Spawn(_) => SPAWN_EXTRA_CYCLES_BASE + SPAWN_YIELD_CYCLES_BASE
    case _ => SPAWN_YIELD_CYCLES_BASE
  }

  /** The check the `read` and `write` syscalls make before they post a message. */
  predicate FrontEndRejects(request: Request) {
    (request.FdRead? && !IsRead(request.read.fd)) || (request.FdWrite? && !IsWrite(request.write.fd))
  }

  datatype Move = Stop(vm: Vm, outcome: Outcome, posted: Option<Request>) | Go(vm: Vm)

  /** One instruction under the limit `maxCycles`. */
  function Execute(isa: Isa, id: VmId, vm: Vm, base: nat, maxCycles: nat): (m: Move)
    ensures m.Go? ==> vm.cycles < m.vm.cycles <= maxCycles
  {
    match isa.step(id, vm.cpu, base + vm.cycles)
    case Fault(fault) => Stop(vm, Failed(VmError(fault)), None)
    case Next(cpu, cost) =>
      if vm.cycles + cost > maxCycles then Stop(vm, Failed(CyclesExceeded), None)
      else Go(Vm(cpu, vm.cycles + cost))
    case Exit(cpu, code, cost) =>
      if vm.cycles + cost > maxCycles then Stop(vm, Failed(CyclesExceeded), None)
      else Stop(Vm(cpu, vm.cycles + cost), Exited(code), None)
    case Ecall(cpu, request, cost) =>
      if vm.cycles + cost > maxCycles then Stop(vm, Failed(CyclesExceeded), None)
      else if FrontEndRejects(request) then Go(Vm(cpu.(a0 := INVALID_FD), vm.cycles + cost))
      else Stop(Vm(cpu, vm.cycles + cost + YieldCycles(request)), Yielded, Some(request))
  }

  /** Run machine `id` until it exits, yields with one request, faults, would exceed
      `maxCycles`, or sees the pause signal. */
  function RunVm(isa: Isa, id: VmId, vm: Vm, base: nat, maxCycles: nat, budget: Option<nat>): (r: RunResult)
    ensures r.vm.cycles >= vm.cycles
    ensures r.outcome.Exited? || r.outcome.Yielded? ==> r.vm.cycles > vm.cycles
    ensures r.posted.Some? <==> r.outcome == Yielded
    ensures r.posted.Some? ==> !FrontEndRejects(r.posted.value)
    ensures r.outcome == Failed(Paused) ==> budget.Some?
    ensures budget.None? ==> r.budget.None?
    ensures r.outcome.Failed? ==> r.outcome.error.Paused? || r.outcome.error.CyclesExceeded? || r.outcome.error.VmError?
    decreases if vm.cycles <= maxCycles then maxCycles - vm.cycles + 1 else 0
  {
    if budget == Some(0) then RunResult(vm, Failed(Paused), None, budget)
    else
      match Execute(isa, id, vm, base, maxCycles)
      case Stop(vm', outcome, posted) => RunResult(vm', outcome, posted, Tick(budget))
      case Go(vm') => RunVm(isa, id, vm', base, maxCycles, Tick(budget))
  }

  /** A machine with the same image but another cycle counter, limit and account of earlier
      cycles runs the same way, when its program ignores cycles or sees the same number of them
      and it has at least as much room below its limit, unless the limit of the first was hit. */
  lemma {:induction false} RunVmShift(isa: Isa, id: VmId, vm: Vm, vm': Vm, base: nat, base': nat,
                                      maxCycles: nat, maxCycles': nat, budget: Option<nat>)
    requires IgnoresCycles(isa) || base + vm.cycles == base' + vm'.cycles
    requires vm.cpu == vm'.cpu && maxCycles - vm.cycles <= maxCycles' - vm'.cycles
    requires RunVm(isa, id, vm, base, maxCycles, budget).outcome != Failed(CyclesExceeded)
    ensures var r := RunVm(isa, id, vm, base, maxCycles, budget);
            RunVm(isa, id, vm', base', maxCycles', budget)
            == r.(vm := Vm(r.vm.cpu, r.vm.cycles - vm.cycles + vm'.cycles))
    decreases if vm.cycles <= maxCycles then maxCycles - vm.cycles + 1 else 0
  {
    if budget != Some(0) {
      ExecuteShift(isa, id, vm, vm', base, base', maxCycles, maxCycles');
      var m := Execute(isa, id, vm, base, maxCycles);
      if m.Go? {
        RunVmShift(isa, id, m.vm, Execute(isa, id, vm', base', maxCycles').vm, base, base',
                   maxCycles, maxCycles', Tick(budget));
      }
    }
  }

  lemma ExecuteShift(isa: Isa, id: VmId, vm: Vm, vm': Vm, base: nat, base': nat, maxCycles: nat, maxCycles': nat)
    requires IgnoresCycles(isa) || base + vm.cycles == base' + vm'.cycles
    requires vm.cpu == vm'.cpu && maxCycles - vm.cycles <= maxCycles' - vm'.cycles
    requires var m := Execute(isa, id, vm, base, maxCycles); m.Stop? ==> m.outcome != Failed(CyclesExceeded)
    ensures var m := Execute(isa, id, vm, base, maxCycles);
            Execute(isa, id, vm', base', maxCycles')
            == m.(vm := Vm(m.vm.cpu, m.vm.cycles - vm.cycles + vm'.cycles))
  {
    assert isa.step(id, vm.cpu, base + vm.cycles) == isa.step(id, vm.cpu, base' + vm'.cycles);
  }

  /** A run that does not hit its limit is the same under every limit that is not below the
      counter it ends with. */
  lemma {:induction false} RunVmAt(isa: Isa, id: VmId, vm: Vm, base: nat, maxCycles: nat, maxCycles': nat,
                                   budget: Option<nat>)
    requires RunVm(isa, id, vm, base, maxCycles, budget).outcome != Failed(CyclesExceeded)
    requires RunVm(isa, id, vm, base, maxCycles, budget).vm.cycles <= maxCycles'
    ensures RunVm(isa, id, vm, base, maxCycles', budget) == RunVm(isa, id, vm, base, maxCycles, budget)
    decreases if vm.cycles <= maxCycles then maxCycles - vm.cycles + 1 else 0
  {
    if budget != Some(0) {
      var m := Execute(isa, id, vm, base, maxCycles);
      if m.Go? {
        RunVmAt(isa, id, m.vm, base, maxCycles, maxCycles', Tick(budget));
      }
    }
  }

  /** A pause is a prefix: going on from where a paused machine stopped ends as if it had
      never been paused. */
  lemma {:induction false} RunVmPausePrefix(isa: Isa, id: VmId, vm: Vm, base: nat, maxCycles: nat, budget: Option<nat>)
    requires RunVm(isa, id, vm, base, maxCycles, budget).outcome == Failed(Paused)
    ensures RunVm(isa, id, RunVm(isa, id, vm, base, maxCycles, budget).vm, base, maxCycles, None)
            == RunVm(isa, id, vm, base, maxCycles, None)
    decreases if vm.cycles <= maxCycles then maxCycles - vm.cycles + 1 else 0
  {
    if budget != Some(0) {
      var m := Execute(isa, id, vm, base, maxCycles);
      if m.Go? {
        RunVmPausePrefix(isa, id, m.vm, base, maxCycles, Tick(budget));
      } else {
        ExecuteNeverPauses(isa, id, vm, base, maxCycles);
      }
    }
  }

  lemma ExecuteNeverPauses(isa: Isa, id: VmId, vm: Vm, base: nat, maxCycles: nat)
    ensures var m := Execute(isa, id, vm, base, maxCycles); m.Stop? ==> m.outcome != Failed(Paused)
  {
  }

  /** A pause signal that does not stop the machine is not seen at all. */
  lemma {:induction false} RunVmNotPaused(isa: Isa, id: VmId, vm: Vm, base: nat, maxCycles: nat, budget: Option<nat>)
    requires RunVm(isa, id, vm, base, maxCycles, budget).outcome != Failed(Paused)
    ensures RunVm(isa, id, vm, base, maxCycles, None)
            == RunVm(isa, id, vm, base, maxCycles, budget).(budget := None)
    decreases if vm.cycles <= maxCycles then maxCycles - vm.cycles + 1 else 0
  {
    var m := Execute(isa, id, vm, base, maxCycles);
    if m.Go? {
      RunVmNotPaused(isa, id, m.vm, base, maxCycles, Tick(budget));
    }
  }
}
