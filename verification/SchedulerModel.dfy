/** The scheduler as a function on values, with every machine always at hand: no instantiated
    or suspended machines, no cost of moving between the two. What the cache of the real
    scheduler will have to do is only written down, as a list of needs. */
module SchedulerModel {
  import opened Basics
  import opened Machine

  const ROOT_VM_ID: VmId := FIRST_VM_ID
  const MAX_VMS_COUNT: nat := 16
  const MAX_FDS: nat := 64

  datatype ReadState = ReadState(fd: Fd, length: nat, bufferAddr: nat, lengthAddr: nat)

  datatype WriteState = WriteState(fd: Fd, consumed: nat, length: nat, bufferAddr: nat, lengthAddr: nat)

  datatype VmState =
    | Runnable
    | Terminated
    | Waiting(target: VmId, exitCodeAddr: nat)
    | WaitForRead(read: ReadState)
    | WaitForWrite(write: WriteState)

  /** History of the pipes, by write end. `offered` holds the bytes handed to accepted writes,
      `delivered` the bytes copied to readers, `mark` how much had been delivered when the
      latest write was accepted. Nothing the scheduler does depends on it. */
  datatype PipeLog = PipeLog(offered: map<Fd, seq<Byte>>, delivered: map<Fd, seq<Byte>>, mark: map<Fd, nat>)

  datatype Core = Core(
    nextVmId: VmId,
    nextFdSlot: Fd,
    states: map<VmId, VmState>,
    fds: map<Fd, VmId>,
    inherited: map<VmId, seq<Fd>>,
    vms: map<VmId, Vm>,
    terminated: map<VmId, ExitCode>,
    pipes: PipeLog)

  /** What an operation asks of the cache: have machines instantiated, admit a new one,
      forget one, forget all but one. */
  datatype Need = Attend(ids: seq<VmId>) | Admit(id: VmId) | Drop(id: VmId) | Only(id: VmId)

  /** A core in the middle of an operation, with the needs and the cycles charged to machine
      counters so far. */
  datatype Work = Work(core: Core, needs: seq<Need>, charged: nat)

  datatype Res = Ok(w: Work) | Err(error: Error, w: Work) {
    predicate IsFailure() { Err? }

    function PropagateFailure(): Res
      requires Err?
    {
      this
    }

    function Extract(): Work
      requires Ok?
    {
      w
    }
  }

  const EMPTY_CORE := Core(FIRST_VM_ID, FIRST_FD_SLOT, map[], map[], map[], map[], map[], PipeLog(map[], map[], map[]))

  function Log(m: map<Fd, seq<Byte>>, fd: Fd): seq<Byte> {
    if fd in m then m[fd] else []
  }

  // ----- Small updates -----

  function Require(w: Work, id: VmId): Res {
    if id in w.core.vms then Ok(w.(needs := w.needs + [Attend([id])])) else Err(Unexpected, w)
  }

  function RequireBoth(w: Work, id: VmId, id': VmId): Res {
    if id in w.core.vms && id' in w.core.vms then Ok(w.(needs := w.needs + [Attend([id, id'])]))
    else Err(Unexpected, w)
  }

  function SetA0(c: Core, id: VmId, value: nat): Core
    requires id in c.vms
  {
    c.(vms := c.vms[id := c.vms[id].(cpu := c.vms[id].cpu.(a0 := value))])
  }

  function SetState(c: Core, id: VmId, state: VmState): Core {
    c.(states := c.states[id := state])
  }

  function AddCycles(w: Work, id: VmId, cycles: nat): Work
    requires id in w.core.vms
  {
    var vm := w.core.vms[id];
    w.(core := w.core.(vms := w.core.vms[id := vm.(cycles := vm.cycles + cycles)]), charged := w.charged + cycles)
  }

  function Poke(w: Work, id: VmId, addr: nat, data: seq<Byte>): Res
    requires id in w.core.vms
  {
    var vm := w.core.vms[id];
    match StoreBytes(vm.cpu.memory, addr, data)
    case None => Err(MemOutOfBound, w)
    case Some(memory) => Ok(w.(core := w.core.(vms := w.core.vms[id := vm.(cpu := vm.cpu.(memory := memory))])))
  }

  function Poke64(w: Work, id: VmId, addr: nat, value: int): Res
    requires id in w.core.vms
  {
    Poke(w, id, addr, Le(value, 8))
  }

  function Poke8(w: Work, id: VmId, addr: nat, value: ExitCode): Res
    requires id in w.core.vms
  {
    Poke(w, id, addr, [(value % 256) as Byte])
  }

  /** Bring machine `id` in and leave a result code in its register A0. */
  function Reply(w: Work, id: VmId, code: nat): Res {
    var w1 :- Require(w, id);
    Ok(w1.(core := SetA0(w1.core, id, code)))
  }

  /** Bring machine `id` in, store a word in its memory and report success. */
  function Answer64(w: Work, id: VmId, addr: nat, value: int): Res {
    var w1 :- Require(w, id);
    var w2 :- Poke64(w1, id, addr, value);
    Ok(w2.(core := SetA0(w2.core, id, SUCCESS)))
  }

  /** The same with two words. */
  function AnswerTwo64(w: Work, id: VmId, addr: nat, value: int, addr': nat, value': int): Res {
    var w1 :- Require(w, id);
    var w2 :- Poke64(w1, id, addr, value);
    var w3 :- Poke64(w2, id, addr', value');
    Ok(w3.(core := SetA0(w3.core, id, SUCCESS)))
  }

  // ----- Messages -----

  function OnExec(isa: Isa, w: Work, id: VmId, location: Location, argc: nat, argv: nat): Res {
    if id !in w.core.vms then Err(Unexpected, w) else
    var w1 := AddCycles(w, id, EXEC_LOAD_ELF_V2_CYCLES_BASE);
    match isa.fetch(location)
    case Some(code) => Err(VmError(code), w1)
    case None =>
      var w2 :- Require(w1, id);
      var vm := w2.core.vms[id];
      match isa.load(location, FromMemory(vm.cpu.memory, argc, argv))
      case LoadFailed(code) => Err(VmError(code), w2)
      case Loaded(cpu, bytes) =>
        Ok(AddCycles(w2.(core := w2.core.(vms := w2.core.vms[id := Vm(cpu, vm.cycles)])), id,
                     TransferredByteCycles(bytes)))
  }

  /** The arguments of a new machine, read from its parent when it has one. */
  function Arguments(w: Work, parent: Option<VmId>, argc: nat, argv: nat, rootArgs: seq<seq<Byte>>): ArgSource
    requires parent.Some? ==> parent.value in w.core.vms
  {
    match parent
    case None => FromVector(rootArgs)
    case Some(id) => FromMemory(w.core.vms[id].cpu.memory, argc, argv)
  }

  /** Create a machine under the next id. */
  function BootVm(isa: Isa, w: Work, location: Location, parent: Option<VmId>, argc: nat, argv: nat,
                  rootArgs: seq<seq<Byte>>): Res {
    var id := w.core.nextVmId;
    var w1 := w.(core := w.core.(nextVmId := id + 1));
    match isa.fetch(location)
    case Some(code) => Err(VmError(code), w1)
    case None =>
      var w2 :- if parent.None? then Ok(w1) else Require(w1, parent.value);
      match isa.load(location, Arguments(w2, parent, argc, argv, rootArgs))
      case LoadFailed(code) => Err(VmError(code), w2)
      case Loaded(cpu, bytes) =>
        var cycles := TransferredByteCycles(bytes);
        Ok(Work(w2.core.(vms := w2.core.vms[id := Vm(cpu, cycles)], states := w2.core.states[id := Runnable]),
                w2.needs + [Admit(id)], w2.charged + cycles))
  }

  predicate Owns(c: Core, id: VmId, fd: Fd) {
    fd in c.fds && c.fds[fd] == id
  }

  /** `fds` with every descriptor of `moved` owned by `id`. */
  function HandOver(fds: map<Fd, VmId>, moved: seq<Fd>, id: VmId): map<Fd, VmId> {
    fds + (map fd | fd in moved :: id)
  }

  function OnSpawn(isa: Isa, w: Work, id: VmId, args: SpawnArgs): Res {
    if exists fd :: fd in args.fds && !Owns(w.core, id, fd) then Reply(w, id, INVALID_FD)
    else if |w.core.vms| > MAX_VMS_COUNT then Reply(w, id, MAX_VMS_SPAWNED)
    else
      var child := w.core.nextVmId;
      var w1 :- BootVm(isa, w, args.location, Some(id), args.argc, args.argv, []);
      var w2 := w1.(core := w1.core.(fds := HandOver(w1.core.fds, args.fds, child),
                                     inherited := w1.core.inherited[child := args.fds]));
      Answer64(w2, id, args.processIdAddr, child)
  }

  function OnWait(w: Work, id: VmId, target: VmId, exitCodeAddr: nat): Res {
    if target in w.core.terminated then
      var w1 :- Require(w, id);
      var w2 :- Poke8(w1, id, exitCodeAddr, w.core.terminated[target]);
      var c := SetState(SetA0(w2.core, id, SUCCESS), id, Runnable);
      Ok(w2.(core := c.(terminated := c.terminated - {target})))
    else if target !in w.core.states then Reply(w, id, WAIT_FAILURE)
    else Ok(w.(core := SetState(w.core, id, Waiting(target, exitCodeAddr))))
  }

  function OpenLog(pipes: PipeLog, fd: Fd): PipeLog {
    PipeLog(pipes.offered[fd := []], pipes.delivered[fd := []], pipes.mark[fd := 0])
  }

  function OnPipe(w: Work, id: VmId, fd1Addr: nat, fd2Addr: nat): Res {
    if |w.core.fds| >= MAX_FDS then Reply(w, id, MAX_FDS_CREATED)
    else
      var p := w.core.nextFdSlot;
      var w1 := w.(core := w.core.(nextFdSlot := p + 2, fds := w.core.fds[p := id][p + 1 := id],
                                   pipes := OpenLog(w.core.pipes, p + 1)));
      AnswerTwo64(w1, id, fd1Addr, p, fd2Addr, p + 1)
  }

  function OnRead(w: Work, id: VmId, args: FdArgs): Res {
    if !Owns(w.core, id, args.fd) then Reply(w, id, INVALID_FD)
    else if OtherFd(args.fd) !in w.core.fds then Reply(w, id, OTHER_END_CLOSED)
    else
      Ok(w.(core := SetState(w.core, id,
                             WaitForRead(ReadState(args.fd, args.length, args.bufferAddr, args.lengthAddr)))))
  }

  /** The log after machine memory `memory` has offered a buffer for writing to `fd`. */
  function LogOffer(pipes: PipeLog, fd: Fd, data: seq<Byte>): PipeLog {
    PipeLog(pipes.offered[fd := Log(pipes.offered, fd) + data], pipes.delivered,
            pipes.mark[fd := |Log(pipes.delivered, fd)|])
  }

  function OnWrite(w: Work, id: VmId, args: FdArgs): Res {
    if id !in w.core.vms then Err(Unexpected, w)
    else if !Owns(w.core, id, args.fd) then Reply(w, id, INVALID_FD)
    else if OtherFd(args.fd) !in w.core.fds then Reply(w, id, OTHER_END_CLOSED)
    else
      var state := WaitForWrite(WriteState(args.fd, 0, args.length, args.bufferAddr, args.lengthAddr));
      var data := Window(w.core.vms[id].cpu.memory, args.bufferAddr, args.length);
      Ok(w.(core := SetState(w.core, id, state).(pipes := LogOffer(w.core.pipes, args.fd, data))))
  }

  /** Store descriptors `fds` one after the other from `addr` on. */
  function PokeFds(w: Work, id: VmId, addr: nat, fds: seq<Fd>): Res
    requires id in w.core.vms
    decreases |fds|
  {
    if fds == [] then Ok(w) else
      var w1 :- Poke64(w, id, addr, fds[0]);
      PokeFds(w1, id, addr + 8, fds[1..])
  }

  function OnInheritedFd(w: Work, id: VmId, bufferAddr: nat, lengthAddr: nat): Res {
    if id != ROOT_VM_ID && id !in w.core.inherited then Err(Panic, w)
    else
      var inherited := if id == ROOT_VM_ID then [] else w.core.inherited[id];
      var w1 :- Require(w, id);
      match LoadBytes(w1.core.vms[id].cpu.memory, lengthAddr, 8)
      case None => Err(MemOutOfBound, w1)
      case Some(bytes) =>
        var room := FromLe(bytes);
        var copied := if room < |inherited| then inherited[..room] else inherited;
        var w2 :- PokeFds(w1, id, bufferAddr, copied);
        if id !in w2.core.vms then Err(Unexpected, w2) else
        var w3 :- Poke64(w2, id, lengthAddr, |inherited|);
        Ok(w3.(core := SetA0(w3.core, id, SUCCESS)))
  }

  function OnClose(w: Work, id: VmId, fd: Fd): Res {
    if !Owns(w.core, id, fd) then Reply(w, id, INVALID_FD)
    else Reply(w.(core := w.core.(fds := w.core.fds - {fd})), id, SUCCESS)
  }

  function OnMessage(isa: Isa, w: Work, m: Message): Res {
    match m.request
    case ExecV2(location, argc, argv) => OnExec(isa, w, m.vm, location, argc, argv)
    case Spawn(args) => OnSpawn(isa, w, m.vm, args)
    case Wait(target, exitCodeAddr) => OnWait(w, m.vm, target, exitCodeAddr)
    case Pipe(fd1Addr, fd2Addr) => OnPipe(w, m.vm, fd1Addr, fd2Addr)
    case FdRead(args) => OnRead(w, m.vm, args)
    case FdWrite(args) => OnWrite(w, m.vm, args)
    case InheritedFd(bufferAddr, lengthAddr) => OnInheritedFd(w, m.vm, bufferAddr, lengthAddr)
    case Close(fd) => OnClose(w, m.vm, fd)
  }

  function OnMessages(isa: Isa, w: Work, box: seq<Message>): Res
    decreases |box|
  {
    if box == [] then Ok(w) else
      var w1 :- OnMessage(isa, w, box[0]);
      OnMessages(isa, w1, box[1..])
  }

  // ----- Termination of a machine -----

  function Joiners(c: Core, target: VmId): set<VmId> {
    set id | id in c.states && c.states[id].Waiting? && c.states[id].target == target
  }

  /** Hand the exit code to the waiting machines `ids` and make them runnable. */
  function WakeJoiners(w: Work, ids: seq<VmId>, code: ExitCode): Res
    decreases |ids|
  {
    if ids == [] then Ok(w)
    else if !(ids[0] in w.core.states && w.core.states[ids[0]].Waiting?) then Err(Unexpected, w)
    else
      var id := ids[0];
      var w1 :- Require(w, id);
      var w2 :- Poke8(w1, id, w.core.states[id].exitCodeAddr, code);
      WakeJoiners(w2.(core := SetState(SetA0(w2.core, id, SUCCESS), id, Runnable)), ids[1..], code)
  }

  /** The core without machine `id` and without the descriptors it owned. */
  function Purge(c: Core, id: VmId): Core {
    c.(fds := map fd | fd in c.fds && c.fds[fd] != id :: c.fds[fd], states := c.states - {id}, vms := c.vms - {id})
  }

  /** Process the messages of machine `id` and then the way its run ended. */
  function OnResult(isa: Isa, w: Work, id: VmId, box: seq<Message>, outcome: Outcome): Res {
    var w1 :- OnMessages(isa, w, box);
    match outcome
    case Failed(error) => Err(error, w1)
    case Yielded => Ok(w1)
    case Exited(code) =>
      var w2 := w1.(core := w1.core.(terminated := w1.core.terminated[id := code]));
      if id == ROOT_VM_ID then
        var w3 :- Require(w2, id);
        Ok(w3.(core := w3.core.(states := map[id := Terminated], vms := map[id := w3.core.vms[id]]),
               needs := w3.needs + [Only(id)]))
      else
        var w3 :- WakeJoiners(w2, Ascending(Joiners(w2.core, id)), code);
        Ok(w3.(core := Purge(w3.core, id), needs := w3.needs + [Drop(id)]))
  }

  // ----- Pipes -----

  predicate Reads(c: Core, id: VmId) { id in c.states && c.states[id].WaitForRead? }

  predicate Writes(c: Core, id: VmId) { id in c.states && c.states[id].WaitForWrite? }

  predicate OtherEndOpen(c: Core, fd: Fd) { OtherFd(fd) in c.fds }

  function ClosedReaders(c: Core): set<VmId> {
    set id | id in c.states && Reads(c, id) && !OtherEndOpen(c, c.states[id].read.fd)
  }

  function ClosedWriters(c: Core): set<VmId> {
    set id | id in c.states && Writes(c, id) && !OtherEndOpen(c, c.states[id].write.fd)
  }

  /** Blocked machines whose pipe has lost its other end: readers first, then writers. */
  function ClosedEnds(c: Core): seq<VmId> {
    Ascending(ClosedReaders(c)) + Ascending(ClosedWriters(c))
  }

  /** Machines blocked in a read from `fd` whose other end is open. */
  function ReadersOf(c: Core, fd: Fd): set<VmId> {
    set id | id in c.states && Reads(c, id) && c.states[id].read.fd == fd && OtherEndOpen(c, fd)
  }

  /** Machines blocked in a write whose other end is open and being read. */
  function MatchedWriters(c: Core): set<VmId> {
    set id | id in c.states && Writes(c, id) && OtherEndOpen(c, c.states[id].write.fd)
             && ReadersOf(c, OtherFd(c.states[id].write.fd)) != {}
  }

  datatype Pair = Pair(reader: VmId, read: ReadState, writer: VmId, write: WriteState)

  function PairOf(c: Core, writer: VmId): Pair
    requires writer in MatchedWriters(c)
  {
    var write := c.states[writer].write;
    var reader := Max(ReadersOf(c, OtherFd(write.fd)));
    Pair(reader, c.states[reader].read, writer, write)
  }

  function PairsOf(c: Core, writers: seq<VmId>): (r: seq<Pair>)
    requires forall id :: id in writers ==> id in MatchedWriters(c)
    ensures |r| == |writers|
    ensures forall i :: 0 <= i < |writers| ==> r[i] == PairOf(c, writers[i])
  {
    if writers == [] then [] else
      assert writers[0] in writers;
      [PairOf(c, writers[0])] + PairsOf(c, writers[1..])
  }

  /** Complete the reads and writes of `ids`, which have lost the other end of their pipe. */
  function FinishClosed(w: Work, ids: seq<VmId>): Res
    decreases |ids|
  {
    if ids == [] then Ok(w)
    else if ids[0] !in w.core.states then Err(Panic, w)
    else
      var id := ids[0];
      var state := w.core.states[id];
      if !state.WaitForRead? && !state.WaitForWrite? then FinishClosed(w, ids[1..])
      else
        var w1 :- if state.WaitForRead? then Answer64(w, id, state.read.lengthAddr, 0)
                  else Answer64(w, id, state.write.lengthAddr, state.write.consumed);
        FinishClosed(w1.(core := SetState(w1.core, id, Runnable)), ids[1..])
  }

  function LogDelivery(pipes: PipeLog, fd: Fd, data: seq<Byte>): PipeLog {
    pipes.(delivered := pipes.delivered[fd := Log(pipes.delivered, fd) + data])
  }

  function Smaller(a: nat, b: nat): nat { if a <= b then a else b }

  /** Number of bytes the next copy of `p` moves. */
  function Copiable(p: Pair): nat
    requires p.write.consumed <= p.write.length
  {
    Smaller(p.read.length, p.write.length - p.write.consumed)
  }

  /** Copy bytes from the writer of `p` to its reader and complete the read. */
  function Deliver(w: Work, p: Pair): Res
    requires p.write.consumed <= p.write.length && p.reader in w.core.vms && p.writer in w.core.vms
  {
    var count := Copiable(p);
    var w1 := AddCycles(w, p.writer, TransferredByteCycles(count));
    match LoadBytes(w1.core.vms[p.writer].cpu.memory, p.write.bufferAddr + p.write.consumed, count)
    case None => Err(MemOutOfBound, w1)
    case Some(data) =>
      var w2 := AddCycles(w1, p.reader, TransferredByteCycles(count));
      var w3 :- Poke(w2, p.reader, p.read.bufferAddr, data);
      var w4 := w3.(core := w3.core.(pipes := LogDelivery(w3.core.pipes, p.write.fd, data)));
      var w5 :- Poke64(w4, p.reader, p.read.lengthAddr, count);
      Ok(w5.(core := SetState(SetA0(w5.core, p.reader, SUCCESS), p.reader, Runnable)))
  }

  /** Complete the write of `p` when all its bytes have been copied, or record its progress. */
  function Advance(w: Work, p: Pair): Res
    requires p.write.consumed <= p.write.length && p.writer in w.core.vms
  {
    var consumed := p.write.consumed + Copiable(p);
    if consumed == p.write.length then
      var w1 :- Poke64(w, p.writer, p.write.lengthAddr, p.write.length);
      Ok(w1.(core := SetState(SetA0(w1.core, p.writer, SUCCESS), p.writer, Runnable)))
    else Ok(w.(core := SetState(w.core, p.writer, WaitForWrite(p.write.(consumed := consumed)))))
  }

  function Transfer(w: Work, p: Pair): Res {
    if p.write.consumed > p.write.length then Err(Panic, w) else
    var w1 :- RequireBoth(w, p.reader, p.writer);
    var w2 :- Deliver(w1, p);
    Advance(w2, p)
  }

  function TransferAll(w: Work, pairs: seq<Pair>): Res
    decreases |pairs|
  {
    if pairs == [] then Ok(w) else
      var w1 :- Transfer(w, pairs[0]);
      TransferAll(w1, pairs[1..])
  }

  /** Serve every blocked read and write that can make progress. */
  function ProcessIo(w: Work): Res {
    var pairs := PairsOf(w.core, Ascending(MatchedWriters(w.core)));
    var w1 :- FinishClosed(w, ClosedEnds(w.core));
    TransferAll(w1, pairs)
  }

  // ----- One iteration -----

  function RunnableVms(c: Core): set<VmId> {
    set id | id in c.states && c.states[id].Runnable?
  }

  /** One turn: the machine that ran, how its turn ended, the number its cycle counter showed
      after the run and how much of that the run had added. */
  datatype Turn = Turn(id: VmId, res: Res, cycles: nat, ran: nat, budget: Option<nat>)

  /** The work after machine `id` has run, its cycle counter read and reset. */
  function AfterRun(c: Core, id: VmId, r: RunResult): Work
    requires id in c.vms
  {
    Work(c.(vms := c.vms[id := Vm(r.vm.cpu, 0)]), [Attend([id])], 0)
  }

  function BoxAfter(id: VmId, r: RunResult): seq<Message> {
    if r.posted.Some? then [Message(id, r.posted.value)] else []
  }

  /** Run the runnable machine with the largest id and process what it did. `base` is the
      number of cycles consumed before, `maxCycles` the limit of this turn. */
  function TakeTurn(isa: Isa, c: Core, base: nat, maxCycles: nat, budget: Option<nat>): (t: Turn)
    ensures t.res.Ok? ==> t.cycles > 0
  {
    var w := Work(c, [], 0);
    if RunnableVms(c) == {} then Turn(ROOT_VM_ID, Err(Deadlock, w), 0, 0, budget)
    else
      var id := Max(RunnableVms(c));
      if id !in c.vms then Turn(id, Err(Unexpected, w), 0, 0, budget)
      else
        var r := RunVm(isa, id, c.vms[id], base, maxCycles, budget);
        Turn(id, OnResult(isa, AfterRun(c, id, r), id, BoxAfter(id, r), r.outcome), r.vm.cycles,
             r.vm.cycles - c.vms[id].cycles,
             r.budget)
  }
}
