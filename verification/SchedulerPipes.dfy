/** Pipes are first in, first out, and lose and invent nothing: the bytes copied to readers
    are a prefix of the bytes handed to writes, and the two are equal as soon as no write is
    under way and the reading end is still there. */
module SchedulerPipes {
  import opened Basics
  import opened Machine
  import opened SchedulerModel
  import opened SchedulerInvariant

  function Offered(c: Core, fd: Fd): seq<Byte> { Log(c.pipes.offered, fd) }

  function Delivered(c: Core, fd: Fd): seq<Byte> { Log(c.pipes.delivered, fd) }

  function Mark(c: Core, fd: Fd): nat {
    if fd in c.pipes.mark then c.pipes.mark[fd] else 0
  }

  predicate WriterOn(c: Core, id: VmId, fd: Fd) {
    Writes(c, id) && c.states[id].write.fd == fd
  }

  /** The part of a write that is still to be copied, as it lies in the memory of the writer. */
  function Pending(c: Core, id: VmId): seq<Byte>
    requires Writes(c, id) && id in c.vms && c.states[id].write.consumed <= c.states[id].write.length
  {
    var write := c.states[id].write;
    Window(c.vms[id].cpu.memory, write.bufferAddr + write.consumed, write.length - write.consumed)
  }

  /** The write of `id` has copied exactly what it has counted, and the rest is still to come. */
  predicate WriteOk(c: Core, id: VmId) {
    Writes(c, id) ==>
      var write := c.states[id].write;
      && id in c.vms
      && write.consumed <= write.length
      && Offered(c, write.fd) == Delivered(c, write.fd) + Pending(c, id)
      && |Delivered(c, write.fd)| == Mark(c, write.fd) + write.consumed
  }

  ghost predicate Settled(c: Core, fd: Fd) {
    OtherFd(fd) in c.fds && (forall id :: !WriterOn(c, id, fd)) ==> Offered(c, fd) == Delivered(c, fd)
  }

  predicate InOrder(c: Core, fd: Fd) {
    Delivered(c, fd) <= Offered(c, fd)
  }

  ghost predicate Fifo(c: Core) {
    && (forall fd :: InOrder(c, fd))
    && (forall id :: WriteOk(c, id))
    && (forall fd :: IsWrite(fd) ==> Settled(c, fd))
  }

  // ----- Steps that leave pipes alone -----

  /** No write starts or moves; one ends only if its reading end is gone. */
  ghost predicate Quiet(c: Core, c': Core) {
    && c'.pipes == c.pipes
    && c'.fds.Keys <= c.fds.Keys
    && (forall id :: Writes(c', id) ==>
          Writes(c, id) && c'.states[id] == c.states[id] && id in c'.vms && (id in c.vms ==> c'.vms[id] == c.vms[id]))
    && (forall id :: Writes(c, id) && OtherEndOpen(c', c.states[id].write.fd) ==> Writes(c', id))
  }

  lemma QuietFifo(c: Core, c': Core)
    requires Fifo(c) && Quiet(c, c')
    ensures Fifo(c')
  {
    forall fd
      ensures InOrder(c', fd)
    {
      assert InOrder(c, fd);
    }
    forall id
      ensures WriteOk(c', id)
    {
      assert WriteOk(c, id);
    }
    forall fd | IsWrite(fd)
      ensures Settled(c', fd)
    {
      assert Settled(c, fd);
      if OtherFd(fd) in c'.fds && forall id :: !WriterOn(c', id, fd) {
        forall id
          ensures !WriterOn(c, id, fd)
        {
          assert !WriterOn(c', id, fd);
        }
      }
    }
  }

  lemma OnlyVmFifo(c: Core, c': Core, id: VmId)
    requires Fifo(c) && OnlyVm(c, c', id) && !Writes(c, id)
    ensures Fifo(c')
  {
    assert Quiet(c, c') by {
      forall v | Writes(c', v)
        ensures v in c'.vms
      {
        assert WriteOk(c, v);
      }
    }
    QuietFifo(c, c');
  }

  /** One machine changes, in its image and in its state; it is not writing, or is giving up
      a write whose reading end is gone. */
  lemma OneVmFifo(c: Core, c': Core, id: VmId)
    requires Fifo(c) && id in c.vms && id in c'.vms && id in c.states && id in c'.states && !Writes(c', id)
    requires Writes(c, id) ==> !OtherEndOpen(c', c.states[id].write.fd)
    requires c'.pipes == c.pipes && c'.fds.Keys <= c.fds.Keys
    requires c'.vms == c.vms[id := c'.vms[id]] && c'.states == c.states[id := c'.states[id]]
    ensures Fifo(c')
  {
    assert Quiet(c, c') by {
      forall v | Writes(c', v)
        ensures v in c'.vms
      {
        assert WriteOk(c, v);
      }
    }
    QuietFifo(c, c');
  }

  // ----- Messages -----

  lemma OnSpawnFifo(isa: Isa, w: Work, id: VmId, args: SpawnArgs)
    requires Inv(w.core) && Sender(w.core, id) && Fifo(w.core)
    ensures Fifo(OnSpawn(isa, w, id, args).w.core)
  {
    hide BootVm, Reply, Answer64, HandOver, Fifo, Inv;
    SenderAlive(w.core, id);
    if exists fd :: fd in args.fds && !Owns(w.core, id, fd) {
      ReplyKeeps(w, id, INVALID_FD);
      OnlyVmFifo(w.core, Reply(w, id, INVALID_FD).w.core, id);
    } else if |w.core.vms| > MAX_VMS_COUNT {
      ReplyKeeps(w, id, MAX_VMS_SPAWNED);
      OnlyVmFifo(w.core, Reply(w, id, MAX_VMS_SPAWNED).w.core, id);
    } else {
      var child := w.core.nextVmId;
      BootVmKeeps(isa, w, args.location, Some(id), args.argc, args.argv, []);
      var b := BootVm(isa, w, args.location, Some(id), args.argc, args.argv, []);
      if b.Ok? {
        var c := b.w.core.(fds := HandOver(b.w.core.fds, args.fds, child),
                           inherited := b.w.core.inherited[child := args.fds]);
        HandOverSize(w.core.fds, args.fds, child);
        BootedFifo(w.core, c, child);
        Answer64Keeps(b.w.(core := c), id, args.processIdAddr, child);
        OnlyVmFifo(c, Answer64(b.w.(core := c), id, args.processIdAddr, child).w.core, id);
      } else {
        BootFailedFifo(w.core, b.w.core);
      }
    }
  }

  lemma BootFailedFifo(c: Core, c': Core)
    requires Fifo(c) && c' == c.(nextVmId := c'.nextVmId)
    ensures Fifo(c')
  {
    assert Quiet(c, c') by {
      forall v | Writes(c', v)
        ensures v in c'.vms
      {
        assert WriteOk(c, v);
      }
    }
    QuietFifo(c, c');
  }

  lemma BootedFifo(c: Core, c': Core, child: VmId)
    requires Fifo(c) && child !in c.states && child !in c.vms && child in c'.vms
    requires c'.pipes == c.pipes && c'.fds.Keys == c.fds.Keys
    requires c'.states == c.states[child := Runnable] && c'.vms == c.vms[child := c'.vms[child]]
    ensures Fifo(c')
  {
    assert Quiet(c, c') by {
      forall v | Writes(c', v)
        ensures v in c'.vms
      {
        assert WriteOk(c, v);
      }
    }
    QuietFifo(c, c');
  }

  lemma OnWaitFifo(w: Work, id: VmId, target: VmId, exitCodeAddr: nat)
    requires Inv(w.core) && Sender(w.core, id) && Fifo(w.core)
    ensures Fifo(OnWait(w, id, target, exitCodeAddr).w.core)
  {
    hide Fifo, Inv;
    SenderAlive(w.core, id);
    OneVmFifo(w.core, OnWait(w, id, target, exitCodeAddr).w.core, id);
  }

  lemma OnReadFifo(w: Work, id: VmId, args: FdArgs)
    requires Inv(w.core) && Sender(w.core, id) && Fifo(w.core)
    ensures Fifo(OnRead(w, id, args).w.core)
  {
    hide Fifo, Inv;
    SenderAlive(w.core, id);
    OneVmFifo(w.core, OnRead(w, id, args).w.core, id);
  }

  lemma OnCloseFifo(w: Work, id: VmId, fd: Fd)
    requires Inv(w.core) && Sender(w.core, id) && Fifo(w.core)
    ensures Fifo(OnClose(w, id, fd).w.core)
  {
    hide Fifo, Inv;
    SenderAlive(w.core, id);
    OneVmFifo(w.core, OnClose(w, id, fd).w.core, id);
  }

  /** A new pipe starts with nothing offered and nothing delivered. */
  lemma OnPipeFifo(w: Work, id: VmId, fd1Addr: nat, fd2Addr: nat)
    requires Inv(w.core) && Sender(w.core, id) && Fifo(w.core)
    ensures Fifo(OnPipe(w, id, fd1Addr, fd2Addr).w.core)
  {
    hide Reply, AnswerTwo64, Fifo, Inv;
    SenderAlive(w.core, id);
    if |w.core.fds| >= MAX_FDS {
      ReplyKeeps(w, id, MAX_FDS_CREATED);
      OnlyVmFifo(w.core, Reply(w, id, MAX_FDS_CREATED).w.core, id);
    } else {
      var p := w.core.nextFdSlot;
      var c := w.core.(nextFdSlot := p + 2, fds := w.core.fds[p := id][p + 1 := id],
                       pipes := OpenLog(w.core.pipes, p + 1));
      OpenedFifo(w.core, c, id);
      AnswerTwo64Keeps(w.(core := c), id, fd1Addr, p, fd2Addr, p + 1);
      OnlyVmFifo(c, AnswerTwo64(w.(core := c), id, fd1Addr, p, fd2Addr, p + 1).w.core, id);
    }
  }

  predicate Opened(c: Core, c': Core, id: VmId) {
    var p := c.nextFdSlot;
    c' == c.(nextFdSlot := p + 2, fds := c.fds[p := id][p + 1 := id], pipes := OpenLog(c.pipes, p + 1))
  }

  lemma OpenedWriteOk(c: Core, c': Core, id: VmId, v: VmId)
    requires Inv(c) && WriteOk(c, v) && Opened(c, c', id)
    ensures WriteOk(c', v)
  {
    hide Inv;
    if v in c.states {
      WriterBelow(c, v);
    }
  }

  lemma OpenedFifo(c: Core, c': Core, id: VmId)
    requires Inv(c) && Fifo(c) && Opened(c, c', id)
    ensures Fifo(c')
  {
    hide Inv, Settled, WriteOk;
    assert forall fd :: InOrder(c, fd) ==> InOrder(c', fd);
    forall v
      ensures WriteOk(c', v)
    {
      OpenedWriteOk(c, c', id, v);
    }
    forall fd | IsWrite(fd)
      ensures Settled(c', fd)
    {
      OpenedSettled(c, c', id, fd);
    }
  }

  lemma OpenedSettled(c: Core, c': Core, id: VmId, fd: Fd)
    requires Inv(c) && Settled(c, fd) && Opened(c, c', id) && IsWrite(fd)
    ensures Settled(c', fd)
  {
    hide Inv;
    SlotEven(c);
    assert forall v :: WriterOn(c', v, fd) <==> WriterOn(c, v, fd);
    if fd == c.nextFdSlot + 1 {
      assert Offered(c', fd) == Delivered(c', fd) == [];
    } else {
      assert OtherFd(fd) in c'.fds <==> OtherFd(fd) in c.fds;
    }
  }

  lemma SlotEven(c: Core)
    requires Inv(c)
    ensures IsRead(c.nextFdSlot)
  {
  }

  lemma WriterBelow(c: Core, id: VmId)
    requires Inv(c) && id in c.states
    ensures Writes(c, id) ==> c.states[id].write.fd < c.nextFdSlot
  {
    assert StateOk(c, id, c.states[id]);
  }

  /** Accepting a write: it is the only one on its pipe, and everything before it has been
      delivered. */
  lemma OnWriteFifo(w: Work, id: VmId, args: FdArgs)
    requires Inv(w.core) && Sender(w.core, id) && Fifo(w.core) && IsWrite(args.fd)
    ensures Fifo(OnWrite(w, id, args).w.core)
    ensures var c, c' := w.core, OnWrite(w, id, args).w.core;
            var accepted := Owns(c, id, args.fd) && OtherEndOpen(c, args.fd);
            && id in c.vms
            && (accepted ==> Offered(c', args.fd)
                             == Offered(c, args.fd) + Window(c.vms[id].cpu.memory, args.bufferAddr, args.length))
            && (forall fd :: !accepted || fd != args.fd ==> Offered(c', fd) == Offered(c, fd))
            && c'.pipes.delivered == c.pipes.delivered
  {
    var c, c' := w.core, OnWrite(w, id, args).w.core;
    if !Owns(c, id, args.fd) || OtherFd(args.fd) !in c.fds {
      OnlyVmFifo(c, c', id);
    } else {
      assert forall v :: !WriterOn(c, v, args.fd) by {
        OwnerOnlyWriter(c, id, args.fd);
      }
      assert Settled(c, args.fd);
      OfferedFifo(c, c', id, args);
    }
  }

  lemma OwnerOnlyWriter(c: Core, id: VmId, fd: Fd)
    requires Inv(c) && Owns(c, id, fd) && Sender(c, id)
    ensures forall v :: !WriterOn(c, v, fd)
  {
    forall v | v in c.states
      ensures !WriterOn(c, v, fd)
    {
      assert StateOk(c, v, c.states[v]);
    }
  }

  lemma OfferedFifo(c: Core, c': Core, id: VmId, args: FdArgs)
    requires Fifo(c) && id in c.vms && !Writes(c, id) && Offered(c, args.fd) == Delivered(c, args.fd)
    requires forall v :: !WriterOn(c, v, args.fd)
    requires c'
             == SetState(c, id, WaitForWrite(WriteState(args.fd, 0, args.length, args.bufferAddr, args.lengthAddr))).(
                     pipes := LogOffer(c.pipes, args.fd, Window(c.vms[id].cpu.memory, args.bufferAddr, args.length)))
    ensures Fifo(c')
  {
    forall fd
      ensures InOrder(c', fd)
    {
      assert InOrder(c, fd);
    }
    forall v
      ensures WriteOk(c', v)
    {
      assert WriteOk(c, v);
      if v != id && Writes(c, v) {
        assert !WriterOn(c, v, args.fd);
      }
    }
    forall fd | IsWrite(fd)
      ensures Settled(c', fd)
    {
      assert Settled(c, fd);
      if fd == args.fd {
        assert WriterOn(c', id, fd);
      } else {
        assert forall v :: WriterOn(c', v, fd) <==> WriterOn(c, v, fd);
      }
    }
  }

  lemma OnMessageFifo(isa: Isa, w: Work, m: Message)
    requires Inv(w.core) && Sender(w.core, m.vm) && !FrontEndRejects(m.request) && Fifo(w.core)
    ensures Fifo(OnMessage(isa, w, m).w.core)
  {
    hide OnExec, OnSpawn, OnWait, OnPipe, OnRead, OnWrite, OnInheritedFd, OnClose, Fifo, Inv;
    match m.request
    case ExecV2(location, argc, argv) =>
      OnExecKeeps(isa, w, m.vm, location, argc, argv);
      OnlyVmFifo(w.core, OnExec(isa, w, m.vm, location, argc, argv).w.core, m.vm);
    case Spawn(args) => OnSpawnFifo(isa, w, m.vm, args);
    case Wait(target, exitCodeAddr) => OnWaitFifo(w, m.vm, target, exitCodeAddr);
    case Pipe(fd1Addr, fd2Addr) => OnPipeFifo(w, m.vm, fd1Addr, fd2Addr);
    case FdRead(args) => OnReadFifo(w, m.vm, args);
    case FdWrite(args) => OnWriteFifo(w, m.vm, args);
    case InheritedFd(bufferAddr, lengthAddr) =>
      OnInheritedFdKeeps(w, m.vm, bufferAddr, lengthAddr);
      OnlyVmFifo(w.core, OnInheritedFd(w, m.vm, bufferAddr, lengthAddr).w.core, m.vm);
    case Close(fd) => OnCloseFifo(w, m.vm, fd);
  }

  // ----- Machines that end, and pipes that close -----

  lemma {:induction false} WakeJoinersFifo(w: Work, ids: seq<VmId>, code: ExitCode)
    requires VmsOk(w.core) && Fifo(w.core) && Distinct(ids)
    requires forall i :: 0 <= i < |ids| ==> ids[i] in w.core.states && w.core.states[ids[i]].Waiting?
    ensures Fifo(WakeJoiners(w, ids, code).w.core)
    decreases |ids|
  {
    hide Fifo, VmsOk;
    if ids != [] {
      var id := ids[0];
      KeysAgree(w.core);
      var w1 := Require(w, id).w;
      var p := Poke8(w1, id, w.core.states[id].exitCodeAddr, code);
      if p.Ok? {
        var w2 := p.w.(core := SetState(SetA0(p.w.core, id, SUCCESS), id, Runnable));
        OneVmFifo(w.core, w2.core, id);
        assert Relaxed(w.core, w2.core);
        RelaxedInv(w.core, w2.core);
        WakeJoinersFifo(w2, ids[1..], code);
      }
    }
  }

  lemma PurgeFifo(c: Core, id: VmId)
    requires Fifo(c) && VmsOk(c) && !Writes(c, id)
    ensures Fifo(Purge(c, id))
  {
    hide Fifo;
    QuietFifo(c, Purge(c, id));
  }

  ghost predicate AllClosed(c: Core, ids: seq<VmId>) {
    forall i :: 0 <= i < |ids| ==>
      || (Reads(c, ids[i]) && !OtherEndOpen(c, c.states[ids[i]].read.fd))
      || (Writes(c, ids[i]) && !OtherEndOpen(c, c.states[ids[i]].write.fd))
  }

  lemma {:induction false} FinishClosedFifo(w: Work, ids: seq<VmId>)
    requires VmsOk(w.core) && Fifo(w.core) && Distinct(ids) && AllClosed(w.core, ids)
    ensures var r := FinishClosed(w, ids); r.Ok? ==> Fifo(r.w.core)
    decreases |ids|
  {
    hide Fifo, VmsOk, Answer64;
    if ids != [] {
      var id := ids[0];
      var state := w.core.states[id];
      var addr := if state.WaitForRead? then state.read.lengthAddr else state.write.lengthAddr;
      var count := if state.WaitForRead? then 0 else state.write.consumed;
      KeysAgree(w.core);
      Answer64Keeps(w, id, addr, count);
      var p := Answer64(w, id, addr, count);
      if p.Ok? {
        var w1 := p.w.(core := SetState(p.w.core, id, Runnable));
        OneVmFifo(w.core, w1.core, id);
        assert Relaxed(w.core, w1.core);
        RelaxedInv(w.core, w1.core);
        FinishClosedFifo(w1, ids[1..]);
      }
    }
  }

  // ----- Copying -----

  lemma WindowSplit(memory: seq<Byte>, addr: nat, length: nat, count: nat)
    requires count <= length && LoadBytes(memory, addr, count).Some?
    ensures Window(memory, addr, length)
            == LoadBytes(memory, addr, count).value + Window(memory, addr + count, length - count)
  {
  }

  /** What a copy takes from the writer of `p`. */
  function Taken(c: Core, p: Pair): Option<seq<Byte>>
    requires p.writer in c.vms && p.write.consumed <= p.write.length
  {
    LoadBytes(c.vms[p.writer].cpu.memory, p.write.bufferAddr + p.write.consumed, Copiable(p))
  }

  lemma DeliverEffect(w: Work, p: Pair)
    requires p.reader in w.core.vms && p.writer in w.core.vms && p.reader != p.writer
             && p.write.consumed <= p.write.length
    requires Deliver(w, p).Ok?
    ensures var c, d := w.core, Deliver(w, p).w.core;
            && Taken(c, p).Some?
            && d == c.(vms := d.vms, states := c.states[p.reader := Runnable],
                       pipes := LogDelivery(c.pipes, p.write.fd, Taken(c, p).value))
            && d.vms.Keys == c.vms.Keys
            && (forall v :: v in c.vms && v != p.reader ==> d.vms[v].cpu == c.vms[v].cpu)
  {
  }

  lemma AdvanceEffect(w: Work, p: Pair)
    requires p.writer in w.core.vms && p.write.consumed <= p.write.length && Advance(w, p).Ok?
    ensures var d, e := w.core, Advance(w, p).w.core;
            var consumed := p.write.consumed + Copiable(p);
            && e == d.(vms := e.vms,
                       states := d.states[p.writer := if consumed == p.write.length then Runnable
                                                      else WaitForWrite(p.write.(consumed := consumed))])
            && e.vms.Keys == d.vms.Keys
            && (forall v :: v in d.vms && (v != p.writer || consumed != p.write.length) ==> e.vms[v] == d.vms[v])
  {
  }

  /** The core after a copy, described without naming how it is made. */
  ghost predicate Copied(c: Core, e: Core, p: Pair) {
    && p.write.consumed <= p.write.length && p.writer in c.vms && p.reader in c.vms
    && Taken(c, p).Some?
    && (var consumed := p.write.consumed + Copiable(p);
        && e == c.(vms := e.vms, pipes := LogDelivery(c.pipes, p.write.fd, Taken(c, p).value),
                   states := c.states[p.reader := Runnable][
                               p.writer := if consumed == p.write.length then Runnable
                                           else WaitForWrite(p.write.(consumed := consumed))])
        && e.vms.Keys == c.vms.Keys
        && forall v :: v in c.vms && v != p.reader && (v != p.writer || consumed != p.write.length) ==>
             e.vms[v].cpu == c.vms[v].cpu)
  }

  lemma TransferEffect(w: Work, p: Pair)
    requires VmsOk(w.core) && IsPair(w.core, p) && Transfer(w, p).Ok?
    ensures Copied(w.core, Transfer(w, p).w.core, p)
  {
    hide Deliver, Advance;
    assert StateOk(w.core, p.writer, w.core.states[p.writer]);
    var w1 := RequireBoth(w, p.reader, p.writer).w;
    DeliverEffect(w1, p);
    AdvanceEffect(Deliver(w1, p).w, p);
  }

  /** What is left of the write of `p` after the next copy. */
  function Rest(c: Core, p: Pair): seq<Byte>
    requires p.writer in c.vms && p.write.consumed <= p.write.length
  {
    Window(c.vms[p.writer].cpu.memory, p.write.bufferAddr + p.write.consumed + Copiable(p),
           p.write.length - p.write.consumed - Copiable(p))
  }

  lemma CopiedLogs(c: Core, e: Core, p: Pair, f: Fd)
    requires Copied(c, e, p)
    ensures p.write.consumed <= p.write.length && p.writer in c.vms && Taken(c, p).Some?
    ensures Offered(e, f) == Offered(c, f) && Mark(e, f) == Mark(c, f)
    ensures Delivered(e, f) == if f == p.write.fd then Delivered(c, f) + Taken(c, p).value else Delivered(c, f)
  {
  }

  lemma CopiedBytes(c: Core, e: Core, p: Pair)
    requires IsPair(c, p) && Copied(c, e, p) && WriteOk(c, p.writer)
    ensures Offered(e, p.write.fd) == Delivered(e, p.write.fd) + Rest(c, p)
  {
    hide Copied, Window, LoadBytes, Offered, Delivered, Mark;
    CopiedLogs(c, e, p, p.write.fd);
    WindowSplit(c.vms[p.writer].cpu.memory, p.write.bufferAddr + p.write.consumed,
                p.write.length - p.write.consumed, Copiable(p));
  }

  lemma CopiedFifo(c: Core, e: Core, p: Pair)
    requires VmsOk(c) && Fifo(c) && IsPair(c, p) && Copied(c, e, p)
    ensures Fifo(e)
  {
    hide VmsOk, WriteOk, Settled, Rest;
    CopiedBytes(c, e, p);
    forall f
      ensures InOrder(e, f)
    {
      assert InOrder(c, f);
    }
    forall v
      ensures WriteOk(e, v)
    {
      CopiedWriteOk(c, e, p, v);
    }
    forall f | IsWrite(f)
      ensures Settled(e, f)
    {
      CopiedSettled(c, e, p, f);
    }
  }

  lemma CopiedWriteOk(c: Core, e: Core, p: Pair, v: VmId)
    requires VmsOk(c) && IsPair(c, p) && Copied(c, e, p) && WriteOk(c, v) && WriteOk(c, p.writer)
    ensures WriteOk(e, v)
  {
    hide VmsOk, Copied, Window, LoadBytes, Offered, Delivered, Mark;
    CopiedBytes(c, e, p);
    CopiedState(c, e, p, v);
    CopiedLogs(c, e, p, p.write.fd);
    if Writes(e, v) && v != p.writer {
      SoleWriter(c, p, v);
      CopiedLogs(c, e, p, c.states[v].write.fd);
    }
  }

  /** A machine that still writes after a copy is the writer of `p`, further on, or was not touched. */
  lemma CopiedState(c: Core, e: Core, p: Pair, v: VmId)
    requires VmsOk(c) && IsPair(c, p) && Copied(c, e, p)
    ensures Writes(e, v) ==>
              && v in c.vms && v in e.vms && e.vms[v].cpu == c.vms[v].cpu
              && (v == p.writer ==> e.states[v].write == p.write.(consumed := p.write.consumed + Copiable(p)))
              && (v != p.writer ==> Writes(c, v) && e.states[v] == c.states[v])
    ensures Taken(c, p).Some? ==> |Taken(c, p).value| == Copiable(p)
  {
    KeysAgree(c);
  }

  lemma SoleWriter(c: Core, p: Pair, v: VmId)
    requires VmsOk(c) && IsPair(c, p) && Writes(c, v) && v != p.writer
    ensures c.states[v].write.fd != p.write.fd
  {
    assert StateOk(c, v, c.states[v]) && StateOk(c, p.writer, c.states[p.writer]);
  }

  lemma CopiedSettled(c: Core, e: Core, p: Pair, f: Fd)
    requires VmsOk(c) && IsPair(c, p) && Copied(c, e, p) && Settled(c, f) && WriteOk(c, p.writer)
    ensures Settled(e, f)
  {
    if f == p.write.fd {
      if p.write.consumed + Copiable(p) == p.write.length {
        assert Offered(c, f) == Delivered(c, f) + Taken(c, p).value;
      } else {
        assert WriterOn(e, p.writer, f);
      }
    } else {
      assert forall v :: WriterOn(e, v, f) <==> WriterOn(c, v, f);
    }
  }

  // ----- Serving all pipes -----

  predicate Apart(p: Pair, q: Pair) {
    p.reader != q.reader && p.writer != q.writer && p.reader != q.writer && p.writer != q.reader
  }

  /** No machine occurs in two pairs. */
  ghost predicate Disjoint(pairs: seq<Pair>) {
    forall i, j :: 0 <= i < j < |pairs| ==> Apart(pairs[i], pairs[j])
  }

  /** Reads and writes are matched one to one. */
  lemma PairsDisjoint(c: Core, pairs: seq<Pair>)
    requires VmsOk(c) && PairList(c, pairs)
    ensures Disjoint(pairs)
  {
    hide PairList, MatchedWriters, VmsOk;
    PairsArePairs(c, pairs);
    forall i, j | 0 <= i < j < |pairs|
      ensures Apart(pairs[i], pairs[j])
    {
      if pairs[i].reader == pairs[j].reader {
        SameReaderSameWriter(c, pairs[i], pairs[j]);
      }
    }
  }

  lemma SameReaderSameWriter(c: Core, p: Pair, q: Pair)
    requires VmsOk(c) && IsPair(c, p) && IsPair(c, q) && p.reader == q.reader
    ensures p.writer == q.writer
  {
    assert StateOk(c, p.writer, c.states[p.writer]) && StateOk(c, q.writer, c.states[q.writer]);
  }

  /** The state of the writer of `p` after a copy. */
  function WriterAfter(p: Pair): VmState
    requires p.write.consumed <= p.write.length
  {
    var consumed := p.write.consumed + Copiable(p);
    if consumed == p.write.length then Runnable else WaitForWrite(p.write.(consumed := consumed))
  }

  predicate CountsOk(pairs: seq<Pair>) {
    forall i :: 0 <= i < |pairs| ==> pairs[i].write.consumed <= pairs[i].write.length
  }

  /** The states after one copy for each pair. */
  function AfterPairs(states: map<VmId, VmState>, pairs: seq<Pair>): map<VmId, VmState>
    requires CountsOk(pairs)
    decreases |pairs|
  {
    if pairs == [] then states
    else AfterPairs(states[pairs[0].reader := Runnable][pairs[0].writer := WriterAfter(pairs[0])], pairs[1..])
  }

  lemma {:induction false} AfterPairsElsewhere(states: map<VmId, VmState>, pairs: seq<Pair>, v: VmId)
    requires CountsOk(pairs) && v in states
    requires forall i :: 0 <= i < |pairs| ==> v != pairs[i].reader && v != pairs[i].writer
    ensures v in AfterPairs(states, pairs) && AfterPairs(states, pairs)[v] == states[v]
    decreases |pairs|
  {
    if pairs != [] {
      assert forall i :: 0 <= i < |pairs[1..]| ==> pairs[1..][i] == pairs[i + 1];
      AfterPairsElsewhere(states[pairs[0].reader := Runnable][pairs[0].writer := WriterAfter(pairs[0])], pairs[1..], v);
    }
  }

  /** Each pair is served once, whatever its place in the list. */
  lemma {:induction false} AfterPairsAt(states: map<VmId, VmState>, pairs: seq<Pair>, i: nat)
    requires CountsOk(pairs) && Disjoint(pairs) && i < |pairs| && pairs[i].reader != pairs[i].writer
    ensures var after := AfterPairs(states, pairs);
            && pairs[i].reader in after && after[pairs[i].reader] == Runnable
            && pairs[i].writer in after && after[pairs[i].writer] == WriterAfter(pairs[i])
    decreases |pairs|
  {
    var next := states[pairs[0].reader := Runnable][pairs[0].writer := WriterAfter(pairs[0])];
    var rest := pairs[1..];
    assert forall j :: 0 <= j < |rest| ==> rest[j] == pairs[j + 1];
    if i == 0 {
      assert forall j :: 0 <= j < |rest| ==> Apart(pairs[0], rest[j]);
      AfterPairsElsewhere(next, rest, pairs[0].reader);
      AfterPairsElsewhere(next, rest, pairs[0].writer);
    } else {
      AfterPairsAt(next, rest, i - 1);
    }
  }

  ghost predicate ArePairs(c: Core, pairs: seq<Pair>) {
    forall i :: 0 <= i < |pairs| ==> IsPair(c, pairs[i])
  }

  lemma {:induction false} TransferAllServes(w: Work, pairs: seq<Pair>)
    requires VmsOk(w.core) && Fifo(w.core) && Disjoint(pairs) && ArePairs(w.core, pairs) && CountsOk(pairs)
    ensures var r := TransferAll(w, pairs);
            r.Ok? ==> Fifo(r.w.core) && r.w.core.states == AfterPairs(w.core.states, pairs)
    decreases |pairs|
  {
    hide Fifo, VmsOk, Transfer, Apart;
    if pairs != [] && TransferAll(w, pairs).Ok? {
      var p, rest := pairs[0], pairs[1..];
      var e := Transfer(w, p).w;
      assert IsPair(w.core, p);
      TransferEffect(w, p);
      CopiedFifo(w.core, e.core, p);
      TransferKeeps(w.core, w, p, {p.writer});
      RelaxedInv(w.core, e.core);
      StillPairs(w.core, e.core, pairs);
      TransferAllServes(e, rest);
    }
  }

  ghost predicate SamePairs(ps: seq<Pair>, qs: seq<Pair>) {
    forall p :: p in ps <==> p in qs
  }

  /** What serving the pairs `ps` and `qs` makes of machine `v` is the same. */
  lemma SameAfter(c: Core, ps: seq<Pair>, qs: seq<Pair>, v: VmId)
    requires CountsOk(ps) && CountsOk(qs) && Disjoint(ps) && Disjoint(qs) && SamePairs(ps, qs) && ArePairs(c, ps)
             && ArePairs(c, qs)
    requires v in c.states
    ensures v in AfterPairs(c.states, ps) && v in AfterPairs(c.states, qs)
    ensures AfterPairs(c.states, ps)[v] == AfterPairs(c.states, qs)[v]
  {
    hide AfterPairs, Disjoint, WriterAfter;
    if i :| 0 <= i < |ps| && (v == ps[i].reader || v == ps[i].writer) {
      assert ps[i] in qs;
      var j :| 0 <= j < |qs| && qs[j] == ps[i];
      assert IsPair(c, ps[i]);
      AfterPairsAt(c.states, ps, i);
      AfterPairsAt(c.states, qs, j);
    } else {
      forall j | 0 <= j < |qs|
        ensures v != qs[j].reader && v != qs[j].writer
      {
        assert qs[j] in ps;
      }
      AfterPairsElsewhere(c.states, ps, v);
      AfterPairsElsewhere(c.states, qs, v);
    }
  }

  /** The order in which pairs are served does not matter to descriptors and states. */
  lemma AnyOrderServes(w: Work, ps: seq<Pair>, qs: seq<Pair>)
    requires VmsOk(w.core) && Fifo(w.core) && Disjoint(ps) && Disjoint(qs) && ArePairs(w.core, ps)
             && ArePairs(w.core, qs)
    requires CountsOk(ps) && CountsOk(qs) && SamePairs(ps, qs)
    requires TransferAll(w, ps).Ok? && TransferAll(w, qs).Ok?
    ensures TransferAll(w, ps).w.core.states == TransferAll(w, qs).w.core.states
    ensures TransferAll(w, ps).w.core.fds == TransferAll(w, qs).w.core.fds == w.core.fds
  {
    hide Fifo, VmsOk, TransferAll, AfterPairs, Disjoint, CountsOk;
    ServesOnlyStates(w, ps);
    ServesOnlyStates(w, qs);
    TransferAllServes(w, ps);
    TransferAllServes(w, qs);
    forall v | v in w.core.states
      ensures v in AfterPairs(w.core.states, ps) && v in AfterPairs(w.core.states, qs)
      ensures AfterPairs(w.core.states, ps)[v] == AfterPairs(w.core.states, qs)[v]
    {
      SameAfter(w.core, ps, qs, v);
    }
  }

  lemma ServesOnlyStates(w: Work, pairs: seq<Pair>)
    requires VmsOk(w.core) && ArePairs(w.core, pairs)
    ensures TransferAll(w, pairs).w.core.fds == w.core.fds
    ensures TransferAll(w, pairs).w.core.states.Keys == w.core.states.Keys
  {
    hide TransferAll, VmsOk, IsPair;
    RelaxedTrans(w.core, w.core, w.core);
    var busy := set i | 0 <= i < |pairs| :: pairs[i].writer;
    forall i | 0 <= i < |pairs|
      ensures IsPair(w.core, pairs[i]) && pairs[i].writer in busy && pairs[i].reader !in busy
    {
      ReaderNotWriter(w.core, pairs, i);
    }
    TransferAllKeeps(w.core, w, pairs, busy);
  }

  lemma ReaderNotWriter(c: Core, pairs: seq<Pair>, i: nat)
    requires ArePairs(c, pairs) && i < |pairs|
    ensures forall j :: 0 <= j < |pairs| ==> pairs[j].writer != pairs[i].reader
  {
    forall j | 0 <= j < |pairs|
      ensures pairs[j].writer != pairs[i].reader
    {
      assert IsPair(c, pairs[i]) && IsPair(c, pairs[j]);
    }
  }

  lemma StillPairs(c: Core, e: Core, pairs: seq<Pair>)
    requires pairs != [] && Copied(c, e, pairs[0]) && Disjoint(pairs) && ArePairs(c, pairs)
    ensures Disjoint(pairs[1..]) && ArePairs(e, pairs[1..])
  {
    forall i | 0 <= i < |pairs[1..]|
      ensures IsPair(e, pairs[1..][i])
    {
      assert pairs[1..][i] == pairs[i + 1];
      assert IsPair(c, pairs[i + 1]) && Apart(pairs[0], pairs[i + 1]);
    }
  }

  predicate ReaderOn(c: Core, id: VmId, fd: Fd) {
    Reads(c, id) && c.states[id].read.fd == fd
  }

  /** The state of a write after a reader has taken what it wanted of the rest. */
  function Progress(write: WriteState, wanted: nat): VmState {
    if write.length <= write.consumed + wanted then Runnable
    else WaitForWrite(write.(consumed := write.consumed + wanted))
  }

  /** What serving pipes once makes of machine `id`, said without lists and orders. */
  ghost predicate ServedOnce(c: Core, id: VmId, s: VmState)
    requires id in c.states
  {
    match c.states[id]
    case WaitForRead(read) =>
      s == (if !OtherEndOpen(c, read.fd) || exists w :: WriterOn(c, w, OtherFd(read.fd)) then Runnable
            else c.states[id])
    case WaitForWrite(write) =>
      if !OtherEndOpen(c, write.fd) then s == Runnable
      else if exists r :: ReaderOn(c, r, OtherFd(write.fd)) then
        forall r :: ReaderOn(c, r, OtherFd(write.fd)) ==> s == Progress(write, c.states[r].read.length)
      else s == c.states[id]
    case _ => s == c.states[id]
  }

  /** Serving pipes keeps the order of bytes, and does to each machine exactly what the
      declarative description says. */
  lemma ProcessIoServes(w: Work)
    requires VmsOk(w.core) && Fifo(w.core)
    ensures var r := ProcessIo(w);
            r.Ok? ==> && Fifo(r.w.core)
                      && r.w.core.states.Keys == w.core.states.Keys
                      && forall id :: id in w.core.states ==> ServedOnce(w.core, id, r.w.core.states[id])
  {
    hide Fifo, VmsOk, FinishClosed, TransferAll, PairsOf, ClosedEnds, MatchedWriters, ServedOnce, Disjoint;
    var c := w.core;
    var pairs := PairsOf(c, Ascending(MatchedWriters(c)));
    ProcessIoKeeps(w);
    if ProcessIo(w).Ok? {
      PairsArePairs(c, pairs);
      PairsDisjoint(c, pairs);
      ClosedEndsDistinct(c);
      ClosedEndsClosed(c);
      FinishClosedKeeps(w, ClosedEnds(c));
      FinishClosedFifo(w, ClosedEnds(c));
      var f := FinishClosed(w, ClosedEnds(c)).w;
      PairsNotClosed(c, f.core, pairs);
      RelaxedInv(c, f.core);
      TransferAllServes(f, pairs);
      var e := TransferAll(f, pairs).w.core;
      forall id | id in c.states
        ensures ServedOnce(c, id, e.states[id])
      {
        ServedAt(c, f.core, e.states, pairs, id);
      }
    }
  }

  lemma ClosedEndsClosed(c: Core)
    ensures AllClosed(c, ClosedEnds(c))
    ensures forall id :: id in ClosedEnds(c) <==> id in ClosedReaders(c) || id in ClosedWriters(c)
  {
    hide ClosedEnds;
    ClosedEndsAre(c);
    assert forall i :: 0 <= i < |ClosedEnds(c)| ==> ClosedEnds(c)[i] in ClosedEnds(c);
  }

  lemma PairsNotClosed(c: Core, f: Core, pairs: seq<Pair>)
    requires VmsOk(c) && PairList(c, pairs)
    requires forall id :: id in c.states && id !in ClosedEnds(c) ==> id in f.states && f.states[id] == c.states[id]
    ensures ArePairs(f, pairs) && CountsOk(pairs)
  {
    hide PairList, ClosedEnds, VmsOk, MatchedWriters;
    PairsArePairs(c, pairs);
    ClosedEndsClosed(c);
    forall i | 0 <= i < |pairs|
      ensures IsPair(f, pairs[i]) && pairs[i].write.consumed <= pairs[i].write.length
    {
      PairOpen(c, pairs[i]);
    }
  }

  /** The ends of a pair are open, and its reader is the only one. */
  lemma PairOpen(c: Core, p: Pair)
    requires VmsOk(c) && IsPair(c, p)
    ensures OtherEndOpen(c, p.read.fd) && OtherEndOpen(c, p.write.fd) && p.write.consumed <= p.write.length
    ensures WriterOn(c, p.writer, OtherFd(p.read.fd)) && ReaderOn(c, p.reader, OtherFd(p.write.fd))
    ensures forall r :: ReaderOn(c, r, OtherFd(p.write.fd)) ==> r == p.reader
  {
    assert StateOk(c, p.reader, c.states[p.reader]) && StateOk(c, p.writer, c.states[p.writer]);
    forall r | ReaderOn(c, r, OtherFd(p.write.fd))
      ensures r == p.reader
    {
      assert StateOk(c, r, c.states[r]);
    }
  }

  lemma ServedAt(c: Core, f: Core, states: map<VmId, VmState>, pairs: seq<Pair>, id: VmId)
    requires VmsOk(c) && id in c.states && PairList(c, pairs)
    requires CountsOk(pairs) && Disjoint(pairs) && states == AfterPairs(f.states, pairs)
    requires f.states.Keys == c.states.Keys
    requires forall v :: v in c.states && v !in ClosedEnds(c) ==> f.states[v] == c.states[v]
    requires AllRunnable(f, ClosedEnds(c))
    ensures id in states && ServedOnce(c, id, states[id])
  {
    hide PairList, ClosedEnds, AfterPairs, MatchedWriters, Disjoint, VmsOk, ServedOnce;
    PairsArePairs(c, pairs);
    if i :| 0 <= i < |pairs| && (pairs[i].reader == id || pairs[i].writer == id) {
      AfterPairsAt(f.states, pairs, i);
      ServedInPair(c, pairs[i]);
    } else {
      AfterPairsElsewhere(f.states, pairs, id);
      ServedAlone(c, f, pairs, id);
    }
  }

  lemma ServedInPair(c: Core, p: Pair)
    requires VmsOk(c) && IsPair(c, p) && p.write.consumed <= p.write.length
    ensures ServedOnce(c, p.reader, Runnable) && ServedOnce(c, p.writer, WriterAfter(p))
  {
    PairOpen(c, p);
  }

  lemma ServedAlone(c: Core, f: Core, pairs: seq<Pair>, id: VmId)
    requires VmsOk(c) && id in c.states && id in f.states && PairList(c, pairs)
    requires forall i :: 0 <= i < |pairs| ==> id != pairs[i].reader && id != pairs[i].writer
    requires id !in ClosedEnds(c) ==> f.states[id] == c.states[id]
    requires AllRunnable(f, ClosedEnds(c))
    ensures ServedOnce(c, id, f.states[id])
  {
    hide PairList, ClosedEnds, MatchedWriters, VmsOk;
    ClosedEndsClosed(c);
    Unpaired(c, pairs, id);
    if id in ClosedEnds(c) {
      var i :| 0 <= i < |ClosedEnds(c)| && ClosedEnds(c)[i] == id;
    }
  }

  lemma Unpaired(c: Core, pairs: seq<Pair>, id: VmId)
    requires VmsOk(c) && id in c.states && PairList(c, pairs)
    requires forall i :: 0 <= i < |pairs| ==> id != pairs[i].reader && id != pairs[i].writer
    ensures Reads(c, id) ==> forall w :: !WriterOn(c, w, OtherFd(c.states[id].read.fd))
    ensures Writes(c, id) ==> forall r :: !ReaderOn(c, r, OtherFd(c.states[id].write.fd))
  {
    hide PairList, VmsOk, MatchedWriters;
    if Reads(c, id) {
      if w :| WriterOn(c, w, OtherFd(c.states[id].read.fd)) {
        MatchedPairServed(c, pairs, id, w);
      }
    }
    if Writes(c, id) {
      if r :| ReaderOn(c, r, OtherFd(c.states[id].write.fd)) {
        MatchedPairServed(c, pairs, r, id);
      }
    }
  }

  // ----- One turn -----

  lemma BoxFifo(isa: Isa, w: Work, id: VmId, box: seq<Message>, outcome: Outcome)
    requires Inv(w.core) && Sender(w.core, id) && BoxOk(id, box, outcome) && Fifo(w.core)
    ensures Fifo(OnMessages(isa, w, box).w.core)
  {
    if box != [] {
      hide OnMessage, Fifo, Inv;
      OnMessageFifo(isa, w, box[0]);
      assert box[1..] == [];
    }
  }

  lemma ExitFifo(w: Work, id: VmId, code: ExitCode)
    requires Inv(w.core) && Sender(w.core, id) && Fifo(w.core)
    ensures var w' := w.(core := w.core.(terminated := w.core.terminated[id := code]));
            var j := WakeJoiners(w', Ascending(Joiners(w'.core, id)), code);
            j.Ok? ==> Fifo(Purge(j.w.core, id))
  {
    hide WakeJoiners, Purge, Fifo, Ascending;
    var c := w.core.(terminated := w.core.terminated[id := code]);
    TerminatedFifo(w.core, c);
    var ids := Ascending(Joiners(c, id));
    assert forall i :: 0 <= i < |ids| ==> ids[i] in ids;
    WakeJoinersKeeps(w.(core := c), ids, code);
    WakeJoinersFifo(w.(core := c), ids, code);
    var j := WakeJoiners(w.(core := c), ids, code);
    RelaxedInv(c, j.w.core);
    if j.Ok? {
      PurgeFifo(j.w.core, id);
    }
  }

  lemma TerminatedFifo(c: Core, c': Core)
    requires Fifo(c) && c' == c.(terminated := c'.terminated)
    ensures Fifo(c')
  {
    assert Quiet(c, c') by {
      forall v | Writes(c', v)
        ensures v in c'.vms
      {
        assert WriteOk(c, v);
      }
    }
    QuietFifo(c, c');
  }

  /** The order of bytes is kept by what follows a run, unless it stops with a fault of the
      program; when the root machine exits, what was delivered stays a prefix. */
  lemma OnResultFifo(isa: Isa, w: Work, id: VmId, box: seq<Message>, outcome: Outcome)
    requires Inv(w.core) && Sender(w.core, id) && BoxOk(id, box, outcome) && Fifo(w.core)
    ensures var r := OnResult(isa, w, id, box, outcome);
            && (r.Err? && !ProgramFault(r.error) ==> Fifo(r.w.core))
            && (r.Ok? && !Finished(r.w.core) ==> Fifo(r.w.core))
            && (r.Ok? ==> forall fd :: InOrder(r.w.core, fd))
  {
    hide OnMessages, WakeJoiners, Purge, Inv, Fifo;
    BoxKeeps(isa, w, id, box, outcome);
    BoxFifo(isa, w, id, box, outcome);
    var m := OnMessages(isa, w, box);
    SenderAlive(w.core, id);
    if outcome.Exited? {
      FifoInOrder(w.core);
      assert id == ROOT_VM_ID ==> OnResult(isa, w, id, box, outcome).w.core.pipes == w.core.pipes;
      forall fd | id == ROOT_VM_ID
        ensures InOrder(OnResult(isa, w, id, box, outcome).w.core, fd)
      {
        assert InOrder(w.core, fd);
      }
      if id != ROOT_VM_ID {
        ExitKeeps(w, id, outcome.code);
        ExitFifo(w, id, outcome.code);
      }
    }
    if m.Ok? && OnResult(isa, w, id, box, outcome).Ok? && !(outcome.Exited? && id == ROOT_VM_ID) {
      FifoInOrder(OnResult(isa, w, id, box, outcome).w.core);
    }
  }

  lemma FifoInOrder(c: Core)
    requires Fifo(c)
    ensures forall fd :: InOrder(c, fd)
  {
  }

  lemma TakeTurnFifo(isa: Isa, c: Core, base: nat, maxCycles: nat, budget: Option<nat>)
    requires Inv(c) && Fifo(c)
    ensures var t := TakeTurn(isa, c, base, maxCycles, budget);
            && (t.res.Err? && !ProgramFault(t.res.error) ==> Fifo(t.res.w.core))
            && (t.res.Ok? && !Finished(t.res.w.core) ==> Fifo(t.res.w.core))
            && (t.res.Ok? ==> forall fd :: InOrder(t.res.w.core, fd))
  {
    if RunnableVms(c) != {} {
      var id := Max(RunnableVms(c));
      TurnFifo(isa, c, id, RunVm(isa, id, c.vms[id], base, maxCycles, budget));
      hide OnResult, RunVm, Max, Inv, Fifo, InOrder;
    }
  }

  lemma TurnFifo(isa: Isa, c: Core, id: VmId, r: RunResult)
    requires Inv(c) && Sender(c, id) && r.vm.cycles >= c.vms[id].cycles && Fifo(c)
    requires r.posted.Some? ==> r.outcome == Yielded && !FrontEndRejects(r.posted.value)
    ensures var res := OnResult(isa, AfterRun(c, id, r), id, BoxAfter(id, r), r.outcome);
            && (res.Err? && !ProgramFault(res.error) ==> Fifo(res.w.core))
            && (res.Ok? && !Finished(res.w.core) ==> Fifo(res.w.core))
            && (res.Ok? ==> forall fd :: InOrder(res.w.core, fd))
  {
    hide OnResult, Fifo;
    var w := AfterRun(c, id, r);
    SameShapeInv(c, w.core);
    OnlyVmFifo(c, w.core, id);
    OnResultFifo(isa, w, id, BoxAfter(id, r), r.outcome);
  }
}
