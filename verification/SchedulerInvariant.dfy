/** What every step of the scheduler keeps, until the root machine exits. */
module SchedulerInvariant {
  import opened Basics
  import opened Machine
  import opened SchedulerModel

  /** A blocked machine is blocked on something that exists. */
  predicate StateOk(c: Core, id: VmId, state: VmState) {
    match state
    case Runnable => true
    case Terminated => false
    case Waiting(target, _) => target in c.states
    case WaitForRead(read) => IsRead(read.fd) && Owns(c, id, read.fd)
    case WaitForWrite(write) => IsWrite(write.fd) && Owns(c, id, write.fd) && write.consumed <= write.length
  }

  ghost predicate FdsOk(c: Core) {
    && IsRead(c.nextFdSlot) && c.nextFdSlot >= FIRST_FD_SLOT
    && forall fd :: fd in c.fds ==> FIRST_FD_SLOT <= fd < c.nextFdSlot && c.fds[fd] in c.states
  }

  ghost predicate VmsOk(c: Core) {
    && c.states.Keys == c.vms.Keys
    && ROOT_VM_ID in c.states
    && (forall id :: id in c.states ==> id < c.nextVmId && StateOk(c, id, c.states[id]))
    && (forall id :: id in c.states && id != ROOT_VM_ID ==> id in c.inherited)
  }

  /** Exit codes are kept for machines that are gone for good. */
  ghost predicate TerminatedOk(c: Core) {
    forall id :: id in c.terminated ==> id < c.nextVmId && id !in c.states
  }

  ghost predicate SizesOk(c: Core) {
    |c.vms.Keys| <= MAX_VMS_COUNT + 1 && |c.fds.Keys| <= MAX_FDS + 1
  }

  ghost predicate Inv(c: Core) {
    VmsOk(c) && FdsOk(c) && TerminatedOk(c) && SizesOk(c)
  }

  /** `c'` differs from `c` at most in what machines hold and in the history of pipes. */
  predicate SameShape(c: Core, c': Core) {
    c' == c.(vms := c'.vms, pipes := c'.pipes) && c'.vms.Keys == c.vms.Keys
  }

  /** `c'` differs from `c` at most in what machine `id` holds. */
  predicate OnlyVm(c: Core, c': Core, id: VmId) {
    id in c.vms && id in c'.vms && c' == c.(vms := c.vms[id := c'.vms[id]])
  }

  /** At most machine `id` has been asked for. */
  predicate AsksFor(w: Work, w': Work, id: VmId) {
    w'.needs == w.needs || w'.needs == w.needs + [Attend([id])]
  }

  /** Machine `id` alone has changed, and its cycle counter by what has been charged. */
  predicate Tallied(w: Work, w': Work, id: VmId) {
    && OnlyVm(w.core, w'.core, id)
    && w'.core.vms[id].cycles - w.core.vms[id].cycles == w'.charged - w.charged
    && AsksFor(w, w', id)
  }

  lemma SameShapeInv(c: Core, c': Core)
    requires SameShape(c, c')
    ensures VmsOk(c) ==> VmsOk(c')
    ensures FdsOk(c) ==> FdsOk(c')
    ensures TerminatedOk(c) ==> TerminatedOk(c')
    ensures SizesOk(c) ==> SizesOk(c')
  {
  }

  /** Errors a program can bring about through its own syscalls. The rest are the limit, a
      pause, a deadlock and faults of the scheduler itself. */
  predicate ProgramFault(e: Error) {
    e.MemOutOfBound? || e.VmError?
  }

  predicate Sound(r: Res) {
    r.Err? ==> ProgramFault(r.error)
  }

  // ----- Messages -----

  lemma ReplyKeeps(w: Work, id: VmId, code: nat)
    requires id in w.core.vms
    ensures var r := Reply(w, id, code); r.Ok? && Tallied(w, r.w, id)
  {
  }

  lemma Answer64Keeps(w: Work, id: VmId, addr: nat, value: int)
    requires id in w.core.vms
    ensures var r := Answer64(w, id, addr, value); Tallied(w, r.w, id) && Sound(r)
  {
  }

  lemma AnswerTwo64Keeps(w: Work, id: VmId, addr: nat, value: int, addr': nat, value': int)
    requires id in w.core.vms
    ensures var r := AnswerTwo64(w, id, addr, value, addr', value'); Tallied(w, r.w, id) && Sound(r)
  {
  }

  lemma {:induction false} PokeFdsKeeps(w: Work, id: VmId, addr: nat, fds: seq<Fd>)
    requires id in w.core.vms
    ensures var r := PokeFds(w, id, addr, fds); Tallied(w, r.w, id) && r.w.needs == w.needs && Sound(r)
    decreases |fds|
  {
    hide Poke64;
    if fds != [] {
      Poke64Keeps(w, id, addr, fds[0]);
      var r := Poke64(w, id, addr, fds[0]);
      if r.Ok? {
        PokeFdsKeeps(r.w, id, addr + 8, fds[1..]);
      }
    }
  }

  /** A machine that may send a message: alive, and running when it did. */
  predicate Sender(c: Core, id: VmId) {
    id in c.states && c.states[id].Runnable?
  }

  lemma SenderAlive(c: Core, id: VmId)
    requires Inv(c) && Sender(c, id)
    ensures id in c.vms && id < c.nextVmId && c.nextVmId !in c.states && c.nextVmId !in c.vms
  {
  }

  /** Only the sender of a message changes, in its image and in its state. */
  lemma SenderStepInv(c: Core, c': Core, id: VmId)
    requires Inv(c) && Sender(c, id) && id in c'.states
    requires c' == c.(vms := c'.vms, states := c.states[id := c'.states[id]], terminated := c'.terminated,
                      pipes := c'.pipes)
    requires c'.vms.Keys == c.vms.Keys && c'.terminated.Keys <= c.terminated.Keys && StateOk(c, id, c'.states[id])
    ensures Inv(c')
  {
    assert SizesOk(c');
    hide SizesOk;
    forall v | v in c'.states
      ensures v < c'.nextVmId && StateOk(c', v, c'.states[v])
    {
      assert StateOk(c, v, c.states[v]);
    }
  }

  lemma OnExecKeeps(isa: Isa, w: Work, id: VmId, location: Location, argc: nat, argv: nat)
    requires Inv(w.core) && Sender(w.core, id)
    ensures var r := OnExec(isa, w, id, location, argc, argv); Tallied(w, r.w, id) && Sound(r)
  {
  }

  /** The core after machine `id` has been added. */
  lemma BootVmKeeps(isa: Isa, w: Work, location: Location, parent: Option<VmId>, argc: nat, argv: nat,
                    rootArgs: seq<seq<Byte>>)
    requires parent.Some? ==> parent.value in w.core.vms
    ensures var r := BootVm(isa, w, location, parent, argc, argv, rootArgs);
            var id := w.core.nextVmId;
            && Sound(r)
            && (r.Err? ==> r.w.core == w.core.(nextVmId := id + 1))
            && (r.Ok? ==>
                  && r.w.core == w.core.(nextVmId := id + 1, vms := r.w.core.vms,
                                         states := w.core.states[id := Runnable])
                  && r.w.core.vms == w.core.vms[id := r.w.core.vms[id]])
  {
  }

  lemma HandOverSize(fds: map<Fd, VmId>, moved: seq<Fd>, id: VmId)
    requires forall fd :: fd in moved ==> fd in fds
    ensures HandOver(fds, moved, id).Keys == fds.Keys
  {
    assert forall fd :: fd in HandOver(fds, moved, id) <==> fd in fds;
  }

  lemma OnSpawnKeeps(isa: Isa, w: Work, id: VmId, args: SpawnArgs)
    requires Inv(w.core) && Sender(w.core, id)
    ensures var r := OnSpawn(isa, w, id, args); Inv(r.w.core) && Sound(r)
  {
    hide BootVm, Reply, Answer64, HandOver, Inv;
    SenderAlive(w.core, id);
    if exists fd :: fd in args.fds && !Owns(w.core, id, fd) {
      ReplyKeeps(w, id, INVALID_FD);
      OnlyVmInv(w.core, Reply(w, id, INVALID_FD).w.core, id);
    } else if |w.core.vms| > MAX_VMS_COUNT {
      ReplyKeeps(w, id, MAX_VMS_SPAWNED);
      OnlyVmInv(w.core, Reply(w, id, MAX_VMS_SPAWNED).w.core, id);
    } else {
      var child := w.core.nextVmId;
      BootVmKeeps(isa, w, args.location, Some(id), args.argc, args.argv, []);
      var b := BootVm(isa, w, args.location, Some(id), args.argc, args.argv, []);
      if b.Ok? {
        var c := b.w.core.(fds := HandOver(b.w.core.fds, args.fds, child),
                           inherited := b.w.core.inherited[child := args.fds]);
        SpawnedInv(w.core, c, id, child, args.fds);
        Answer64Keeps(b.w.(core := c), id, args.processIdAddr, child);
        OnlyVmInv(c, Answer64(b.w.(core := c), id, args.processIdAddr, child).w.core, id);
      } else {
        SkippedIdInv(w.core, b.w.core);
      }
    }
  }

  lemma SkippedIdInv(c: Core, c': Core)
    requires Inv(c) && c' == c.(nextVmId := c.nextVmId + 1)
    ensures Inv(c')
  {
    forall v | v in c'.states
      ensures StateOk(c', v, c'.states[v])
    {
      assert StateOk(c, v, c.states[v]);
    }
  }

  /** Adding a machine that takes over descriptors of its parent. */
  lemma SpawnedInv(c: Core, c': Core, id: VmId, child: VmId, moved: seq<Fd>)
    requires Inv(c) && Sender(c, id) && |c.vms| <= MAX_VMS_COUNT
    requires child == c.nextVmId && forall fd :: fd in moved ==> Owns(c, id, fd)
    requires c' == c.(nextVmId := child + 1, states := c.states[child := Runnable], vms := c'.vms,
                      fds := HandOver(c.fds, moved, child), inherited := c.inherited[child := moved])
    requires c'.vms.Keys == c.vms.Keys + {child}
    ensures Inv(c')
  {
    hide StateOk, SizesOk, HandOver;
    HandOverSize(c.fds, moved, child);
    SpawnedSizes(c, c', child);
    SpawnedFds(c, c', id, child, moved);
    forall v | v in c'.states
      ensures v < c'.nextVmId && StateOk(c', v, c'.states[v])
    {
      SpawnedState(c, c', id, child, moved, v);
    }
  }

  lemma SpawnedSizes(c: Core, c': Core, child: VmId)
    requires SizesOk(c) && |c.vms| <= MAX_VMS_COUNT && c'.vms.Keys == c.vms.Keys + {child} && c'.fds.Keys == c.fds.Keys
    ensures SizesOk(c')
  {
    assert |c.vms| == |c.vms.Keys|;
  }

  lemma SpawnedFds(c: Core, c': Core, id: VmId, child: VmId, moved: seq<Fd>)
    requires FdsOk(c) && c'.fds == HandOver(c.fds, moved, child) && c'.fds.Keys == c.fds.Keys
    requires c'.states == c.states[child := Runnable] && c'.nextFdSlot == c.nextFdSlot
    ensures FdsOk(c')
  {
  }

  /** The parent runs, so no blocked machine loses a descriptor. */
  lemma SpawnedState(c: Core, c': Core, id: VmId, child: VmId, moved: seq<Fd>, v: VmId)
    requires VmsOk(c) && Sender(c, id) && child == c.nextVmId && v in c'.states
    requires c'.states == c.states[child := Runnable] && c'.fds == HandOver(c.fds, moved, child)
             && c'.nextVmId == child + 1
    requires forall fd :: fd in moved ==> Owns(c, id, fd)
    ensures v < c'.nextVmId && StateOk(c', v, c'.states[v])
  {
    if v != child {
      assert StateOk(c, v, c.states[v]);
    }
  }

  lemma OnWaitKeeps(w: Work, id: VmId, target: VmId, exitCodeAddr: nat)
    requires Inv(w.core) && Sender(w.core, id)
    ensures var r := OnWait(w, id, target, exitCodeAddr); Inv(r.w.core) && Sound(r)
  {
    hide Inv;
    SenderAlive(w.core, id);
    SenderStepInv(w.core, OnWait(w, id, target, exitCodeAddr).w.core, id);
  }

  lemma OnPipeKeeps(w: Work, id: VmId, fd1Addr: nat, fd2Addr: nat)
    requires Inv(w.core) && Sender(w.core, id)
    ensures var r := OnPipe(w, id, fd1Addr, fd2Addr); Inv(r.w.core) && Sound(r)
  {
    hide Inv, Reply, AnswerTwo64;
    SenderAlive(w.core, id);
    if |w.core.fds| >= MAX_FDS {
      ReplyKeeps(w, id, MAX_FDS_CREATED);
      OnlyVmInv(w.core, Reply(w, id, MAX_FDS_CREATED).w.core, id);
    } else {
      var p := w.core.nextFdSlot;
      var c := w.core.(nextFdSlot := p + 2, fds := w.core.fds[p := id][p + 1 := id],
                       pipes := OpenLog(w.core.pipes, p + 1));
      PipedInv(w.core, c, id);
      AnswerTwo64Keeps(w.(core := c), id, fd1Addr, p, fd2Addr, p + 1);
      OnlyVmInv(c, AnswerTwo64(w.(core := c), id, fd1Addr, p, fd2Addr, p + 1).w.core, id);
    }
  }

  lemma OnlyVmInv(c: Core, c': Core, id: VmId)
    requires Inv(c) && OnlyVm(c, c', id)
    ensures Inv(c')
  {
    SameShapeInv(c, c');
  }

  lemma PipedInv(c: Core, c': Core, id: VmId)
    requires Inv(c) && Sender(c, id) && |c.fds| < MAX_FDS
    requires var p := c.nextFdSlot; c' == c.(nextFdSlot := p + 2, fds := c.fds[p := id][p + 1 := id], pipes := c'.pipes)
    ensures Inv(c')
  {
    hide SizesOk, StateOk;
    PipedSizes(c, c', id);
    forall v | v in c'.states
      ensures StateOk(c', v, c'.states[v])
    {
      PipedState(c, c', v);
    }
  }

  lemma PipedState(c: Core, c': Core, v: VmId)
    requires Inv(c) && v in c.states && c'.states == c.states
    requires forall fd :: fd in c.fds ==> fd in c'.fds && c'.fds[fd] == c.fds[fd]
    ensures StateOk(c', v, c'.states[v])
  {
    assert StateOk(c, v, c.states[v]);
  }

  lemma PipedSizes(c: Core, c': Core, id: VmId)
    requires SizesOk(c) && |c.fds| < MAX_FDS && c'.vms == c.vms
    requires var p := c.nextFdSlot; c'.fds == c.fds[p := id][p + 1 := id]
    ensures SizesOk(c')
  {
    var p := c.nextFdSlot;
    OneMoreFd(c.fds, p, id);
    OneMoreFd(c.fds[p := id], p + 1, id);
  }

  lemma OneMoreFd(fds: map<Fd, VmId>, fd: Fd, id: VmId)
    ensures |fds| == |fds.Keys| && |fds[fd := id].Keys| <= |fds.Keys| + 1
  {
    assert fds[fd := id].Keys == fds.Keys + {fd};
  }

  lemma OnReadKeeps(w: Work, id: VmId, args: FdArgs)
    requires Inv(w.core) && Sender(w.core, id) && IsRead(args.fd)
    ensures var r := OnRead(w, id, args); Inv(r.w.core) && Sound(r)
  {
    hide Inv;
    SenderAlive(w.core, id);
    SenderStepInv(w.core, OnRead(w, id, args).w.core, id);
  }

  lemma OnWriteKeeps(w: Work, id: VmId, args: FdArgs)
    requires Inv(w.core) && Sender(w.core, id) && IsWrite(args.fd)
    ensures var r := OnWrite(w, id, args); Inv(r.w.core) && Sound(r)
  {
    hide Inv;
    SenderAlive(w.core, id);
    SenderStepInv(w.core, OnWrite(w, id, args).w.core, id);
  }

  lemma OnInheritedFdKeeps(w: Work, id: VmId, bufferAddr: nat, lengthAddr: nat)
    requires Inv(w.core) && Sender(w.core, id)
    ensures var r := OnInheritedFd(w, id, bufferAddr, lengthAddr); Tallied(w, r.w, id) && Sound(r)
  {
    hide PokeFds, Inv, LoadBytes, Poke64;
    InheritedKnown(w.core, id);
    var inherited := if id == ROOT_VM_ID then [] else w.core.inherited[id];
    var w1 := Require(w, id).w;
    var read := LoadBytes(w1.core.vms[id].cpu.memory, lengthAddr, 8);
    if read.Some? {
      var room := FromLe(read.value);
      var copied := if room < |inherited| then inherited[..room] else inherited;
      PokeFdsKeeps(w1, id, bufferAddr, copied);
      var p := PokeFds(w1, id, bufferAddr, copied);
      if p.Ok? {
        Poke64Keeps(p.w, id, lengthAddr, |inherited|);
      }
    }
  }

  lemma InheritedKnown(c: Core, id: VmId)
    requires Inv(c) && Sender(c, id)
    ensures id in c.vms && (id != ROOT_VM_ID ==> id in c.inherited)
  {
  }

  lemma Poke64Keeps(w: Work, id: VmId, addr: nat, value: int)
    requires id in w.core.vms
    ensures var r := Poke64(w, id, addr, value);
            OnlyVm(w.core, r.w.core, id) && r.w.core.vms[id].cycles == w.core.vms[id].cycles
            && r.w.needs == w.needs && r.w.charged == w.charged && Sound(r)
  {
  }

  lemma OnCloseKeeps(w: Work, id: VmId, fd: Fd)
    requires Inv(w.core) && Sender(w.core, id)
    ensures var r := OnClose(w, id, fd); Inv(r.w.core) && Sound(r)
  {
    hide Inv, Reply;
    SenderAlive(w.core, id);
    if !Owns(w.core, id, fd) {
      ReplyKeeps(w, id, INVALID_FD);
      OnlyVmInv(w.core, Reply(w, id, INVALID_FD).w.core, id);
    } else {
      var c := w.core.(fds := w.core.fds - {fd});
      ClosedInv(w.core, c, id, fd);
      ReplyKeeps(w.(core := c), id, SUCCESS);
      OnlyVmInv(c, Reply(w.(core := c), id, SUCCESS).w.core, id);
    }
  }

  lemma ClosedInv(c: Core, c': Core, id: VmId, fd: Fd)
    requires Inv(c) && Sender(c, id) && Owns(c, id, fd) && c' == c.(fds := c.fds - {fd})
    ensures Inv(c')
  {
    assert SizesOk(c') by {
      FewerElements(c'.fds.Keys, c.fds.Keys);
    }
    hide SizesOk;
    forall v | v in c'.states
      ensures StateOk(c', v, c'.states[v])
    {
      assert StateOk(c, v, c.states[v]);
    }
  }

  /** A message keeps the invariant, also when it ends in an error, and never runs into an
      assertion or a missing map entry. */
  lemma OnMessageKeeps(isa: Isa, w: Work, m: Message)
    requires Inv(w.core) && Sender(w.core, m.vm) && !FrontEndRejects(m.request)
    ensures var r := OnMessage(isa, w, m); Inv(r.w.core) && Sound(r)
  {
    hide Inv, Sound, Sender, OnExec, OnSpawn, OnWait, OnPipe, OnRead, OnWrite, OnInheritedFd, OnClose;
    match m.request
    case ExecV2(location, argc, argv) => OnExecInv(isa, w, m.vm, location, argc, argv);
    case Spawn(args) => OnSpawnKeeps(isa, w, m.vm, args);
    case Wait(target, exitCodeAddr) => OnWaitKeeps(w, m.vm, target, exitCodeAddr);
    case Pipe(fd1Addr, fd2Addr) => OnPipeKeeps(w, m.vm, fd1Addr, fd2Addr);
    case FdRead(args) => OnReadKeeps(w, m.vm, args);
    case FdWrite(args) => OnWriteKeeps(w, m.vm, args);
    case InheritedFd(bufferAddr, lengthAddr) => OnInheritedFdInv(w, m.vm, bufferAddr, lengthAddr);
    case Close(fd) => OnCloseKeeps(w, m.vm, fd);
  }

  lemma OnExecInv(isa: Isa, w: Work, id: VmId, location: Location, argc: nat, argv: nat)
    requires Inv(w.core) && Sender(w.core, id)
    ensures var r := OnExec(isa, w, id, location, argc, argv); Inv(r.w.core) && Sound(r)
  {
    hide OnExec, VmsOk, FdsOk, TerminatedOk, SizesOk, Sound;
    SenderAlive(w.core, id);
    OnExecKeeps(isa, w, id, location, argc, argv);
    SameShapeInv(w.core, OnExec(isa, w, id, location, argc, argv).w.core);
  }

  lemma OnInheritedFdInv(w: Work, id: VmId, bufferAddr: nat, lengthAddr: nat)
    requires Inv(w.core) && Sender(w.core, id)
    ensures var r := OnInheritedFd(w, id, bufferAddr, lengthAddr); Inv(r.w.core) && Sound(r)
  {
    hide OnInheritedFd, VmsOk, FdsOk, TerminatedOk, SizesOk, Sound;
    OnInheritedFdKeeps(w, id, bufferAddr, lengthAddr);
    SameShapeInv(w.core, OnInheritedFd(w, id, bufferAddr, lengthAddr).w.core);
  }

  // ----- Waking machines -----

  /** How the state of one machine may change while others are served: not at all, to
      runnable, or by progress of its write. */
  predicate Advanced(s: VmState, s': VmState) {
    || s' == s
    || s' == Runnable
    || (s.WaitForWrite? && s'.WaitForWrite? && s' == WaitForWrite(s.write.(consumed := s'.write.consumed))
        && s'.write.consumed <= s.write.length)
  }

  ghost predicate Relaxed(c: Core, c': Core) {
    && c' == c.(vms := c'.vms, states := c'.states, pipes := c'.pipes)
    && c'.vms.Keys == c.vms.Keys
    && c'.states.Keys == c.states.Keys
    && forall id :: id in c.states ==> Advanced(c.states[id], c'.states[id])
  }

  lemma RelaxedInv(c: Core, c': Core)
    requires Relaxed(c, c')
    ensures VmsOk(c) ==> VmsOk(c')
    ensures FdsOk(c) ==> FdsOk(c')
    ensures TerminatedOk(c) ==> TerminatedOk(c')
    ensures SizesOk(c) ==> SizesOk(c')
  {
  }

  ghost predicate AllRunnable(c: Core, ids: seq<VmId>) {
    forall i :: 0 <= i < |ids| ==> ids[i] in c.states && c.states[ids[i]] == Runnable
  }

  /** Machines that run in `c` still run in `c'`. */
  ghost predicate StillRunnable(c: Core, c': Core) {
    forall id :: id in c.states && c.states[id] == Runnable ==> id in c'.states && c'.states[id] == Runnable
  }

  ghost predicate Distinct(ids: seq<VmId>) {
    forall i, j :: 0 <= i < j < |ids| ==> ids[i] != ids[j]
  }

  lemma NoneRunnable(c: Core)
    ensures AllRunnable(c, [])
  {
  }

  lemma DistinctRest(ids: seq<VmId>)
    requires ids != [] && Distinct(ids)
    ensures Distinct(ids[1..]) && forall i :: 0 <= i < |ids[1..]| ==> ids[1..][i] == ids[i + 1] && ids[1..][i] != ids[0]
  {
  }

  lemma RunnableFirst(c: Core, d: Core, ids: seq<VmId>)
    requires ids != [] && RunsIn(c, ids[0]) && StillRunnable(c, d) && AllRunnable(d, ids[1..])
    ensures AllRunnable(d, ids)
  {
    assert forall i :: 0 < i < |ids| ==> ids[i] == ids[1..][i - 1];
  }

  lemma {:induction false} WakeJoinersKeeps(w: Work, ids: seq<VmId>, code: ExitCode)
    requires VmsOk(w.core) && Distinct(ids)
    requires forall i :: 0 <= i < |ids| ==> ids[i] in w.core.states && w.core.states[ids[i]].Waiting?
    ensures var r := WakeJoiners(w, ids, code);
            && Relaxed(w.core, r.w.core) && StillRunnable(w.core, r.w.core) && Sound(r)
            && (r.Ok? ==> AllRunnable(r.w.core, ids))
    decreases |ids|
  {
    hide VmsOk, Relaxed, StillRunnable, Poke8, AllRunnable, Distinct;
    if ids == [] {
      NoneRunnable(w.core);
      RelaxedTrans(w.core, w.core, w.core);
    } else {
      var id := ids[0];
      KeysAgree(w.core);
      var w1 := Require(w, id).w;
      var p := Poke8(w1, id, w.core.states[id].exitCodeAddr, code);
      Poke8Keeps(w1, id, w.core.states[id].exitCodeAddr, code);
      OnlyVmRelaxed(w.core, p.w.core, id);
      if p.Ok? {
        var w2 := p.w.(core := SetState(SetA0(p.w.core, id, SUCCESS), id, Runnable));
        WokenRelaxed(w.core, w2.core, id);
        RelaxedInv(w.core, w2.core);
        DistinctRest(ids);
        WakeJoinersKeeps(w2, ids[1..], code);
        var r := WakeJoiners(w2, ids[1..], code);
        RelaxedTrans(w.core, w2.core, r.w.core);
        if r.Ok? {
          RunnableFirst(w2.core, r.w.core, ids);
        }
      }
    }
  }

  lemma RelaxedTrans(c: Core, d: Core, e: Core)
    ensures Relaxed(c, c) && StillRunnable(c, c)
    ensures Relaxed(c, d) && Relaxed(d, e) ==> Relaxed(c, e)
    ensures StillRunnable(c, d) && StillRunnable(d, e) ==> StillRunnable(c, e)
    ensures StillRunnable(d, e) ==> forall id :: id in d.states && d.states[id] == Runnable ==>
                                                   id in e.states && e.states[id] == Runnable
  {
  }

  lemma Poke8Keeps(w: Work, id: VmId, addr: nat, value: ExitCode)
    requires id in w.core.vms
    ensures var r := Poke8(w, id, addr, value); OnlyVm(w.core, r.w.core, id) && Sound(r)
  {
  }

  lemma OnlyVmRelaxed(c: Core, d: Core, id: VmId)
    requires OnlyVm(c, d, id)
    ensures Relaxed(c, d) && StillRunnable(c, d)
  {
  }

  /** Machine `id` has become runnable; at most its own memory and registers have changed with it. */
  lemma WokenRelaxed(c: Core, d: Core, id: VmId)
    requires id in c.states && id in c.vms && id in d.vms
    requires d == c.(vms := d.vms, states := c.states[id := Runnable]) && d.vms == c.vms[id := d.vms[id]]
    ensures Relaxed(c, d) && StillRunnable(c, d)
  {
  }

  lemma KeysAgree(c: Core)
    requires VmsOk(c)
    ensures c.states.Keys == c.vms.Keys
  {
  }

  lemma {:induction false} FinishClosedKeeps(w: Work, ids: seq<VmId>)
    requires VmsOk(w.core) && Distinct(ids)
    requires forall i :: 0 <= i < |ids| ==> ids[i] in w.core.states && (Reads(w.core, ids[i]) || Writes(w.core, ids[i]))
    ensures var r := FinishClosed(w, ids);
            && Relaxed(w.core, r.w.core) && StillRunnable(w.core, r.w.core) && Sound(r)
            && (r.Ok? ==> AllRunnable(r.w.core, ids))
            && (forall id :: id in w.core.states && id !in ids ==> r.w.core.states[id] == w.core.states[id])
    decreases |ids|
  {
    hide Answer64, VmsOk, Relaxed, StillRunnable, AllRunnable, Distinct;
    if ids == [] {
      NoneRunnable(w.core);
      RelaxedTrans(w.core, w.core, w.core);
    } else {
      var id := ids[0];
      var state := w.core.states[id];
      var addr := if state.WaitForRead? then state.read.lengthAddr else state.write.lengthAddr;
      var count := if state.WaitForRead? then 0 else state.write.consumed;
      assert id in w.core.vms by {
        KeysAgree(w.core);
      }
      Answer64Keeps(w, id, addr, count);
      var p := Answer64(w, id, addr, count);
      OnlyVmRelaxed(w.core, p.w.core, id);
      if p.Ok? {
        var w1 := p.w.(core := SetState(p.w.core, id, Runnable));
        WokenRelaxed(w.core, w1.core, id);
        RelaxedInv(w.core, w1.core);
        DistinctRest(ids);
        FinishClosedKeeps(w1, ids[1..]);
        var r := FinishClosed(w1, ids[1..]);
        RelaxedTrans(w.core, w1.core, r.w.core);
        if r.Ok? {
          RunnableFirst(w1.core, r.w.core, ids);
        }
      }
    }
  }

  // ----- Pipes -----

  predicate RunsIn(c: Core, id: VmId) {
    id in c.states && c.states[id] == Runnable
  }

  predicate IsPair(c: Core, p: Pair) {
    && p.reader in c.states && c.states[p.reader] == WaitForRead(p.read)
    && p.writer in c.states && c.states[p.writer] == WaitForWrite(p.write)
    && p.read.fd == OtherFd(p.write.fd)
  }

  /** Machines outside `busy` that run in `d` still run in `d'`. */
  ghost predicate RunOn(d: Core, d': Core, busy: set<VmId>) {
    forall id :: id !in busy && RunsIn(d, id) ==> RunsIn(d', id)
  }

  lemma DeliverKeeps(w: Work, p: Pair)
    requires p.write.consumed <= p.write.length && p.reader in w.core.vms && p.writer in w.core.vms
    ensures var r := Deliver(w, p);
            && r.w.core == w.core.(vms := r.w.core.vms, states := r.w.core.states, pipes := r.w.core.pipes)
            && r.w.core.vms.Keys == w.core.vms.Keys
            && r.w.core.states == (if r.Ok? then w.core.states[p.reader := Runnable] else w.core.states)
            && Sound(r)
  {
    hide LoadBytes, StoreBytes, Le, TransferredByteCycles, LogDelivery;
  }

  lemma AdvanceKeeps(w: Work, p: Pair)
    requires p.write.consumed <= p.write.length && p.writer in w.core.vms
    ensures var r := Advance(w, p);
            && r.w.core == w.core.(vms := r.w.core.vms, states := r.w.core.states)
            && r.w.core.vms.Keys == w.core.vms.Keys
            && (r.Err? ==> r.w.core.states == w.core.states)
            && (r.Ok? ==> exists s :: Advanced(WaitForWrite(p.write), s)
                                      && r.w.core.states == w.core.states[p.writer := s])
            && Sound(r)
  {
    var r := Advance(w, p);
    if r.Ok? {
      var s := r.w.core.states[p.writer];
      assert Advanced(WaitForWrite(p.write), s) && r.w.core.states == w.core.states[p.writer := s];
    }
  }

  lemma TransferKeeps(c: Core, w: Work, p: Pair, busy: set<VmId>)
    requires VmsOk(c) && Relaxed(c, w.core) && IsPair(c, p) && p.writer in busy
    ensures var r := Transfer(w, p);
            && Relaxed(c, r.w.core) && RunOn(w.core, r.w.core, busy) && Sound(r)
            && (r.Ok? ==> RunsIn(r.w.core, p.reader))
  {
    hide Deliver, Advance, VmsOk, Relaxed, Sound, RunOn;
    PairFacts(c, w.core, p);
    var w1 := RequireBoth(w, p.reader, p.writer).w;
    DeliverKeeps(w1, p);
    var d := Deliver(w1, p);
    ServedRelaxed(c, w.core, d.w.core, p, busy);
    if d.Ok? {
      AdvanceKeeps(d.w, p);
      AdvancedRelaxed(c, w.core, d.w.core, Advance(d.w, p).w.core, p, busy);
    }
  }

  lemma PairFacts(c: Core, d: Core, p: Pair)
    requires VmsOk(c) && Relaxed(c, d) && IsPair(c, p)
    ensures p.write.consumed <= p.write.length && p.reader in d.vms && p.writer in d.vms && p.reader != p.writer
    ensures p.reader in d.states && p.writer in d.states
  {
    assert StateOk(c, p.writer, c.states[p.writer]);
  }

  lemma ServedRelaxed(c: Core, d: Core, e: Core, p: Pair, busy: set<VmId>)
    requires Relaxed(c, d) && p.reader in d.states && e.vms.Keys == d.vms.Keys
    requires e == d.(vms := e.vms, states := e.states, pipes := e.pipes)
    requires e.states == d.states[p.reader := Runnable] || e.states == d.states
    ensures Relaxed(c, e) && RunOn(d, e, busy)
  {
  }

  lemma AdvancedRelaxed(c: Core, d: Core, e: Core, f: Core, p: Pair, busy: set<VmId>)
    requires Relaxed(c, e) && RunOn(d, e, busy) && RunsIn(e, p.reader) && IsPair(c, p) && p.writer in busy
    requires f == e.(vms := f.vms, states := f.states) && f.vms.Keys == e.vms.Keys
    requires f.states == e.states
             || exists s :: Advanced(WaitForWrite(p.write), s) && f.states == e.states[p.writer := s]
    ensures Relaxed(c, f) && RunOn(d, f, busy) && RunsIn(f, p.reader)
  {
  }

  lemma RunOnTrans(c: Core, d: Core, e: Core, busy: set<VmId>)
    ensures RunOn(c, c, busy)
    ensures RunOn(c, d, busy) && RunOn(d, e, busy) ==> RunOn(c, e, busy)
    ensures RunOn(d, e, busy) ==> forall id :: id !in busy && RunsIn(d, id) ==> RunsIn(e, id)
  {
  }

  lemma {:induction false} TransferAllKeeps(c: Core, w: Work, pairs: seq<Pair>, busy: set<VmId>)
    requires VmsOk(c) && Relaxed(c, w.core)
    requires forall i :: 0 <= i < |pairs| ==> IsPair(c, pairs[i]) && pairs[i].writer in busy && pairs[i].reader !in busy
    ensures var r := TransferAll(w, pairs);
            && Relaxed(c, r.w.core) && RunOn(w.core, r.w.core, busy) && Sound(r)
            && (r.Ok? ==> forall i :: 0 <= i < |pairs| ==> RunsIn(r.w.core, pairs[i].reader))
    decreases |pairs|
  {
    hide Transfer, VmsOk, Relaxed, RunOn, RunsIn;
    if pairs == [] {
      RunOnTrans(w.core, w.core, w.core, busy);
    } else {
      TransferKeeps(c, w, pairs[0], busy);
      var p := Transfer(w, pairs[0]);
      if p.Ok? {
        TransferAllKeeps(c, p.w, pairs[1..], busy);
        var r := TransferAll(p.w, pairs[1..]);
        RunOnTrans(w.core, p.w.core, r.w.core, busy);
        assert forall i :: 0 < i < |pairs| ==> pairs[i] == pairs[1..][i - 1];
      }
    }
  }

  /** Nothing that waits on a pipe could go on: its other end is open, and no reader and
      writer of the same pipe wait for each other. */
  ghost predicate Quiescent(c: Core) {
    && (forall id :: Reads(c, id) ==> OtherEndOpen(c, c.states[id].read.fd))
    && (forall id :: Writes(c, id) ==> OtherEndOpen(c, c.states[id].write.fd))
    && (forall r, w :: Reads(c, r) && Writes(c, w) ==> c.states[r].read.fd != OtherFd(c.states[w].write.fd))
  }

  lemma ClosedEndsAre(c: Core)
    ensures forall id :: id in ClosedEnds(c) <==> id in ClosedReaders(c) || id in ClosedWriters(c)
  {
    hide ClosedReaders, ClosedWriters;
  }

  lemma ClosedEndsDistinct(c: Core)
    ensures Distinct(ClosedEnds(c))
    ensures forall i :: 0 <= i < |ClosedEnds(c)| ==>
              var id := ClosedEnds(c)[i]; id in c.states && (Reads(c, id) || Writes(c, id))
    ensures forall id :: id in ClosedReaders(c) || id in ClosedWriters(c) ==> id in ClosedEnds(c)
  {
    hide Ascending, ClosedReaders, ClosedWriters;
    ClosedEndsAre(c);
    ClosedFacts(c);
    var rs, ws := Ascending(ClosedReaders(c)), Ascending(ClosedWriters(c));
    JoinedDistinct(rs, ws);
    assert forall i :: 0 <= i < |ClosedEnds(c)| ==> ClosedEnds(c)[i] in ClosedEnds(c);
  }

  lemma ClosedFacts(c: Core)
    ensures ClosedReaders(c) !! ClosedWriters(c)
    ensures forall id :: id in ClosedReaders(c) ==> Reads(c, id)
    ensures forall id :: id in ClosedWriters(c) ==> Writes(c, id)
  {
  }

  lemma JoinedDistinct(rs: seq<VmId>, ws: seq<VmId>)
    requires forall i, j :: 0 <= i < j < |rs| ==> rs[i] < rs[j]
    requires forall i, j :: 0 <= i < j < |ws| ==> ws[i] < ws[j]
    requires forall id :: id in rs ==> id !in ws
    ensures Distinct(rs + ws)
  {
    assert forall i :: 0 <= i < |rs| ==> rs[i] in rs;
    assert forall i :: 0 <= i < |ws| ==> ws[i] in ws;
  }

  /** `pairs` are the matched pairs of `c`, in the order of their writers. */
  ghost predicate PairList(c: Core, pairs: seq<Pair>) {
    pairs == PairsOf(c, Ascending(MatchedWriters(c)))
  }

  lemma PairsArePairs(c: Core, pairs: seq<Pair>)
    requires PairList(c, pairs)
    ensures forall i :: 0 <= i < |pairs| ==>
              IsPair(c, pairs[i]) && pairs[i].writer in MatchedWriters(c) && pairs[i].reader !in MatchedWriters(c)
    ensures forall i, j :: 0 <= i < j < |pairs| ==> pairs[i].writer < pairs[j].writer
  {
    hide Ascending, MatchedWriters, PairOf, IsPair;
    var writers := Ascending(MatchedWriters(c));
    forall i | 0 <= i < |pairs|
      ensures IsPair(c, pairs[i]) && pairs[i].writer in MatchedWriters(c) && pairs[i].reader !in MatchedWriters(c)
      ensures pairs[i].writer == writers[i]
    {
      assert writers[i] in writers;
      assert pairs[i] == PairOf(c, writers[i]);
      MatchedIsPair(c, writers[i]);
    }
  }

  lemma MatchedIsPair(c: Core, id: VmId)
    requires id in MatchedWriters(c)
    ensures var p := PairOf(c, id); IsPair(c, p) && p.writer == id && p.reader !in MatchedWriters(c)
  {
  }

  /** Serving pipes keeps the invariant, also when it stops early, never runs into an
      assertion or a missing map entry, and leaves nothing behind that could go on. */
  lemma ProcessIoKeeps(w: Work)
    requires VmsOk(w.core)
    ensures var r := ProcessIo(w); Relaxed(w.core, r.w.core) && Sound(r) && (r.Ok? ==> Quiescent(r.w.core))
  {
    hide FinishClosed, TransferAll, PairsOf, ClosedEnds, MatchedWriters, Quiescent;
    var c := w.core;
    var pairs := PairsOf(c, Ascending(MatchedWriters(c)));
    PairsArePairs(c, pairs);
    ClosedEndsDistinct(c);
    FinishClosedKeeps(w, ClosedEnds(c));
    var f := FinishClosed(w, ClosedEnds(c));
    if f.Ok? {
      TransferAllKeeps(c, f.w, pairs, MatchedWriters(c));
      var r := TransferAll(f.w, pairs);
      if r.Ok? {
        ServedIsQuiescent(c, f.w.core, r.w.core, pairs);
      }
    }
  }

  lemma ServedIsQuiescent(c: Core, d: Core, e: Core, pairs: seq<Pair>)
    requires VmsOk(c) && Relaxed(c, e) && RunOn(d, e, MatchedWriters(c))
    requires PairList(c, pairs)
    requires AllRunnable(d, ClosedEnds(c))
    requires forall i :: 0 <= i < |pairs| ==> RunsIn(e, pairs[i].reader)
    ensures Quiescent(e)
  {
    hide VmsOk, PairList, MatchedWriters, ClosedEnds;
    forall id | Reads(e, id)
      ensures OtherEndOpen(e, e.states[id].read.fd)
    {
      assert Advanced(c.states[id], e.states[id]);
      if id in ClosedReaders(c) {
        ClosedServed(c, d, e, id);
      }
    }
    forall id | Writes(e, id)
      ensures OtherEndOpen(e, e.states[id].write.fd)
    {
      assert Advanced(c.states[id], e.states[id]);
      if id in ClosedWriters(c) {
        ClosedServed(c, d, e, id);
      }
    }
    forall r, w | Reads(e, r) && Writes(e, w)
      ensures e.states[r].read.fd != OtherFd(e.states[w].write.fd)
    {
      assert Advanced(c.states[r], e.states[r]) && Advanced(c.states[w], e.states[w]);
      if e.states[r].read.fd == OtherFd(e.states[w].write.fd) {
        MatchedPairServed(c, pairs, r, w);
      }
    }
  }

  lemma ClosedServed(c: Core, d: Core, e: Core, id: VmId)
    requires RunOn(d, e, MatchedWriters(c)) && AllRunnable(d, ClosedEnds(c))
    requires id in ClosedReaders(c) || id in ClosedWriters(c)
    ensures RunsIn(e, id)
  {
    assert id !in MatchedWriters(c);
    ClosedEndsDistinct(c);
    assert id in ClosedEnds(c);
    hide ClosedEnds;
    var i :| 0 <= i < |ClosedEnds(c)| && ClosedEnds(c)[i] == id;
  }

  lemma MatchedPairServed(c: Core, pairs: seq<Pair>, r: VmId, w: VmId)
    requires VmsOk(c) && PairList(c, pairs)
    requires Reads(c, r) && Writes(c, w) && c.states[r].read.fd == OtherFd(c.states[w].write.fd)
    ensures exists i :: 0 <= i < |pairs| && pairs[i].reader == r && pairs[i].writer == w
  {
    OnlyReader(c, r, w);
    hide MatchedWriters, PairOf, VmsOk;
    var writers := Ascending(MatchedWriters(c));
    assert w in writers;
    var i :| 0 <= i < |writers| && writers[i] == w;
    assert pairs[i] == PairOf(c, w);
  }

  /** A descriptor has one owner, so a blocked writer is matched with the one reader. */
  lemma OnlyReader(c: Core, r: VmId, w: VmId)
    requires VmsOk(c) && Reads(c, r) && Writes(c, w) && c.states[r].read.fd == OtherFd(c.states[w].write.fd)
    ensures w in MatchedWriters(c) && PairOf(c, w).reader == r && PairOf(c, w).writer == w
  {
    var fd := c.states[r].read.fd;
    assert StateOk(c, r, c.states[r]) && StateOk(c, w, c.states[w]);
    assert r in ReadersOf(c, fd);
    assert w in MatchedWriters(c);
    var r' := PairOf(c, w).reader;
    assert r' in ReadersOf(c, fd);
    assert StateOk(c, r', c.states[r']);
  }

  // ----- One turn -----

  /** The invariant without what it says about exit codes. */
  ghost predicate Live(c: Core) {
    VmsOk(c) && FdsOk(c) && SizesOk(c)
  }

  /** The root machine has exited and is all that is left. */
  predicate Finished(c: Core) {
    c.states == map[ROOT_VM_ID := Terminated] && c.vms.Keys == {ROOT_VM_ID} && ROOT_VM_ID in c.terminated
  }

  /** What a run of machine `id` leaves in the message box. */
  predicate BoxOk(id: VmId, box: seq<Message>, outcome: Outcome) {
    box == [] || (|box| == 1 && box[0].vm == id && !FrontEndRejects(box[0].request) && outcome == Yielded)
  }

  lemma BoxKeeps(isa: Isa, w: Work, id: VmId, box: seq<Message>, outcome: Outcome)
    requires Inv(w.core) && Sender(w.core, id) && BoxOk(id, box, outcome)
    ensures var r := OnMessages(isa, w, box); Inv(r.w.core) && Sound(r) && (box == [] ==> r == Ok(w))
  {
    if box != [] {
      hide OnMessage;
      OnMessageKeeps(isa, w, box[0]);
      assert box[1..] == [];
    }
  }

  ghost predicate NobodyWaitsFor(c: Core, id: VmId) {
    forall v :: v in c.states && c.states[v].Waiting? ==> c.states[v].target != id
  }

  /** Removing a machine nobody waits for. */
  lemma PurgedInv(c: Core, id: VmId)
    requires Live(c) && NobodyWaitsFor(c, id) && id != ROOT_VM_ID
    requires forall v :: v in c.terminated ==> v < c.nextVmId && (v == id || v !in c.states)
    ensures Inv(Purge(c, id))
  {
    PurgedSizes(c, id);
    PurgedVms(c, id);
    hide SizesOk, VmsOk;
  }

  lemma PurgedVms(c: Core, id: VmId)
    requires VmsOk(c) && NobodyWaitsFor(c, id) && id != ROOT_VM_ID
    ensures VmsOk(Purge(c, id))
  {
    var e := Purge(c, id);
    assert forall fd :: fd in e.fds <==> fd in c.fds && c.fds[fd] != id;
    forall v | v in e.states
      ensures StateOk(e, v, e.states[v])
    {
      assert StateOk(c, v, c.states[v]);
    }
  }

  lemma AllJoinersWoken(c: Core, d: Core, id: VmId)
    requires Relaxed(c, d) && AllRunnable(d, Ascending(Joiners(c, id)))
    ensures NobodyWaitsFor(d, id)
  {
    forall v | v in d.states && d.states[v].Waiting?
      ensures d.states[v].target != id
    {
      assert Advanced(c.states[v], d.states[v]);
      if d.states[v].target == id {
        StillJoined(c, d, id, v);
      }
    }
  }

  lemma PurgedSizes(c: Core, id: VmId)
    requires SizesOk(c)
    ensures SizesOk(Purge(c, id))
  {
    var e := Purge(c, id);
    FewerElements(e.vms.Keys, c.vms.Keys);
    FewerElements(e.fds.Keys, c.fds.Keys);
  }

  lemma StillJoined(c: Core, d: Core, id: VmId, v: VmId)
    requires AllRunnable(d, Ascending(Joiners(c, id)))
    requires v in c.states && c.states[v].Waiting? && c.states[v].target == id
    ensures RunsIn(d, v)
  {
    assert v in Joiners(c, id);
    var ids := Ascending(Joiners(c, id));
    assert v in ids;
    var i :| 0 <= i < |ids| && ids[i] == v;
  }

  lemma FewerElements(a: set<int>, b: set<int>)
    requires a <= b
    ensures |a| <= |b|
  {
    assert b == a + (b - a);
  }

  /** The exit of a machine other than the root. */
  lemma ExitedLive(c: Core, c': Core, id: VmId)
    requires Inv(c) && Sender(c, id) && id in c'.terminated
    requires c' == c.(terminated := c.terminated[id := c'.terminated[id]])
    ensures Live(c') && forall v :: v in c'.terminated ==> v < c'.nextVmId && (v == id || v !in c'.states)
  {
  }

  lemma RelaxedTerminated(c: Core, d: Core)
    requires Relaxed(c, d)
    ensures d.terminated == c.terminated && d.nextVmId == c.nextVmId && d.states.Keys == c.states.Keys
  {
  }

  lemma ExitKeeps(w: Work, id: VmId, code: ExitCode)
    requires Inv(w.core) && Sender(w.core, id) && id != ROOT_VM_ID
    ensures var w' := w.(core := w.core.(terminated := w.core.terminated[id := code]));
            var j := WakeJoiners(w', Ascending(Joiners(w'.core, id)), code);
            Live(j.w.core) && Sound(j) && (j.Ok? ==> Inv(Purge(j.w.core, id)))
  {
    hide WakeJoiners, Purge, VmsOk, FdsOk, SizesOk, Relaxed, Ascending;
    var c := w.core.(terminated := w.core.terminated[id := code]);
    ExitedLive(w.core, c, id);
    var ids := Ascending(Joiners(c, id));
    assert forall i :: 0 <= i < |ids| ==> ids[i] in ids;
    WakeJoinersKeeps(w.(core := c), ids, code);
    var j := WakeJoiners(w.(core := c), ids, code);
    RelaxedInv(c, j.w.core);
    if j.Ok? {
      AllJoinersWoken(c, j.w.core, id);
      RelaxedTerminated(c, j.w.core);
      PurgedInv(j.w.core, id);
    }
  }

  /** Processing what a machine did keeps the invariant, or leaves the finished root. */
  lemma OnResultKeeps(isa: Isa, w: Work, id: VmId, box: seq<Message>, outcome: Outcome)
    requires Inv(w.core) && Sender(w.core, id) && BoxOk(id, box, outcome)
    ensures var r := OnResult(isa, w, id, box, outcome);
            && (r.Err? ==> Live(r.w.core) && (ProgramFault(r.error) || outcome == Failed(r.error)))
            && (r.Ok? && id == ROOT_VM_ID && outcome.Exited? ==> Finished(r.w.core))
            && (r.Ok? && !(id == ROOT_VM_ID && outcome.Exited?) ==> Inv(r.w.core))
  {
    hide OnMessages, WakeJoiners, Purge;
    BoxKeeps(isa, w, id, box, outcome);
    if outcome.Exited? && id != ROOT_VM_ID {
      ExitKeeps(w, id, outcome.code);
    }
  }

  /** One turn keeps the invariant until the root machine exits, and reports none of the
      scheduler's own faults. */
  lemma TakeTurnKeeps(isa: Isa, c: Core, base: nat, maxCycles: nat, budget: Option<nat>)
    requires Inv(c)
    ensures var t := TakeTurn(isa, c, base, maxCycles, budget);
            && (t.res.Ok? ==> Inv(t.res.w.core) || Finished(t.res.w.core))
            && (t.res.Err? ==> Live(t.res.w.core) && !t.res.error.Panic? && !t.res.error.Unexpected?
                               && (t.res.error.Deadlock? <==> RunnableVms(c) == {}))
  {
    if RunnableVms(c) != {} {
      var id := Max(RunnableVms(c));
      var r := RunVm(isa, id, c.vms[id], base, maxCycles, budget);
      TurnKeeps(isa, c, id, r);
      hide Inv, Live, OnResult, Max, RunVm;
    }
  }

  lemma TurnKeeps(isa: Isa, c: Core, id: VmId, r: RunResult)
    requires Inv(c) && Sender(c, id) && r.vm.cycles >= c.vms[id].cycles
    requires r.posted.Some? ==> r.outcome == Yielded && !FrontEndRejects(r.posted.value)
    ensures var res := OnResult(isa, AfterRun(c, id, r), id, BoxAfter(id, r), r.outcome);
            && (res.Ok? ==> Inv(res.w.core) || Finished(res.w.core))
            && (res.Err? ==> Live(res.w.core) && (ProgramFault(res.error) || r.outcome == Failed(res.error)))
  {
    var w := AfterRun(c, id, r);
    SameShapeInv(c, w.core);
    OnResultKeeps(isa, w, id, BoxAfter(id, r), r.outcome);
  }
}
