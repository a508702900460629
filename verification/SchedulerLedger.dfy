/** Cycles are conserved: what an operation charges is found on the counters of the machines
    it touched, no more and no less. And the needs it states make sense: they ask for machines
    that exist, and admit and drop the machines that come and go. */
module SchedulerLedger {
  import opened Basics
  import opened Machine
  import opened SchedulerModel
  import opened SchedulerInvariant

  /** Sum of the cycle counters of all machines. */
  ghost function SumCycles(vms: map<VmId, Vm>): nat
    decreases |vms.Keys|
  {
    if vms.Keys == {} then 0 else
      var id := Pick(vms.Keys);
      vms[id].cycles + SumCycles(vms - {id})
  }

  lemma {:induction false} SumWithout(vms: map<VmId, Vm>, id: VmId)
    requires id in vms
    ensures SumCycles(vms) == vms[id].cycles + SumCycles(vms - {id})
    decreases |vms.Keys|
  {
    var p := Pick(vms.Keys);
    if p != id {
      var a, b := vms - {p}, vms - {id};
      assert |a.Keys| < |vms.Keys| && |b.Keys| < |vms.Keys| by {
        assert a.Keys == vms.Keys - {p} && b.Keys == vms.Keys - {id};
      }
      SumWithout(a, id);
      SumWithout(b, p);
      assert a - {id} == b - {p};
    }
  }

  lemma SumUpdate(vms: map<VmId, Vm>, id: VmId, vm: Vm)
    ensures SumCycles(vms[id := vm]) + (if id in vms then vms[id].cycles else 0) == SumCycles(vms) + vm.cycles
  {
    SumWithout(vms[id := vm], id);
    if id in vms {
      SumWithout(vms, id);
      assert vms[id := vm] - {id} == vms - {id};
    } else {
      assert vms[id := vm] - {id} == vms;
    }
  }

  /** `needs` can be met one after the other starting with machines `ids`, and lead to `ids'`. */
  predicate Fits(ids: set<VmId>, needs: seq<Need>, ids': set<VmId>)
    decreases |needs|
  {
    if needs == [] then ids == ids' else
      match needs[0]
      case Attend(wanted) =>
        && 0 < |wanted| <= 2
        && (|wanted| == 2 ==> wanted[0] != wanted[1])
        && (forall i :: 0 <= i < |wanted| ==> wanted[i] in ids)
        && Fits(ids, needs[1..], ids')
      case Admit(id) => id !in ids && |ids| <= MAX_VMS_COUNT && Fits(ids + {id}, needs[1..], ids')
      case Drop(id) => id in ids && Fits(ids - {id}, needs[1..], ids')
      case Only(id) => id in ids && Fits({id}, needs[1..], ids')
  }

  /** The machines that exist once a need has been served. */
  function NextIds(ids: set<VmId>, need: Need): set<VmId> {
    match need
    case Attend(_) => ids
    case Admit(id) => ids + {id}
    case Drop(id) => ids - {id}
    case Only(id) => {id}
  }

  lemma {:induction false} FitsAppend(a: set<VmId>, x: seq<Need>, b: set<VmId>, y: seq<Need>, c: set<VmId>)
    requires Fits(a, x, b) && Fits(b, y, c)
    ensures Fits(a, x + y, c)
    decreases |x|
  {
    if x == [] {
      assert x + y == y;
    } else {
      assert (x + y)[1..] == x[1..] + y;
      FitsAppend(NextIds(a, x[0]), x[1..], b, y, c);
    }
  }

  /** The needs stated on the way from `w` to `w'` fit the machines there were and are. */
  ghost predicate Logged(w: Work, w': Work) {
    exists needs :: w'.needs == w.needs + needs && Fits(w.core.vms.Keys, needs, w'.core.vms.Keys)
  }

  lemma LoggedBy(w: Work, w': Work, needs: seq<Need>)
    requires w'.needs == w.needs + needs && Fits(w.core.vms.Keys, needs, w'.core.vms.Keys)
    ensures Logged(w, w')
  {
  }

  lemma LoggedTrans(w: Work, w1: Work, w2: Work)
    requires Logged(w, w1) && Logged(w1, w2)
    ensures Logged(w, w2)
  {
    hide Fits;
    var x :| w1.needs == w.needs + x && Fits(w.core.vms.Keys, x, w1.core.vms.Keys);
    var y :| w2.needs == w1.needs + y && Fits(w1.core.vms.Keys, y, w2.core.vms.Keys);
    FitsAppend(w.core.vms.Keys, x, w1.core.vms.Keys, y, w2.core.vms.Keys);
    assert w.needs + x + y == w.needs + (x + y);
    LoggedBy(w, w2, x + y);
  }

  lemma AsksForLogged(w: Work, w': Work, id: VmId)
    requires AsksFor(w, w', id) && id in w.core.vms && w'.core.vms.Keys == w.core.vms.Keys
    ensures Logged(w, w')
  {
    if w'.needs == w.needs {
      LoggedBy(w, w', []);
    } else {
      LoggedBy(w, w', [Attend([id])]);
    }
  }

  /** The counters have grown by exactly what has been charged, and the needs fit. */
  ghost predicate Balanced(w: Work, w': Work) {
    SumCycles(w'.core.vms) + w.charged == SumCycles(w.core.vms) + w'.charged && Logged(w, w')
  }

  lemma BalancedTrans(w: Work, w1: Work, w2: Work)
    requires Balanced(w, w1) && Balanced(w1, w2)
    ensures Balanced(w, w2)
  {
    LoggedTrans(w, w1, w2);
  }

  lemma BalancedSame(w: Work, w': Work)
    requires w'.core.vms == w.core.vms && w'.needs == w.needs && w'.charged == w.charged
    ensures Balanced(w, w')
  {
    LoggedBy(w, w', []);
  }

  lemma TalliedBalanced(w: Work, w': Work, id: VmId)
    requires Tallied(w, w', id)
    ensures Balanced(w, w')
  {
    SumUpdate(w.core.vms, id, w'.core.vms[id]);
    AsksForLogged(w, w', id);
  }

  /** One machine may have changed, but not its counter. */
  lemma SameCounter(w: Work, w': Work, id: VmId)
    requires id in w.core.vms && id in w'.core.vms && w'.core.vms == w.core.vms[id := w'.core.vms[id]]
    requires w'.core.vms[id].cycles == w.core.vms[id].cycles && w'.charged == w.charged && AsksFor(w, w', id)
    ensures Balanced(w, w')
  {
    SumUpdate(w.core.vms, id, w'.core.vms[id]);
    AsksForLogged(w, w', id);
  }

  lemma FitsBoth(ids: set<VmId>, parent: VmId, id: VmId)
    requires id !in ids && |ids| <= MAX_VMS_COUNT && parent in ids
    ensures Fits(ids, [Attend([parent]), Admit(id)], ids + {id})
  {
    assert Fits(ids + {id}, [], ids + {id});
    assert Fits(ids, [Admit(id)], ids + {id});
    assert [Attend([parent]), Admit(id)][1..] == [Admit(id)];
  }

  lemma BootVmBalanced(isa: Isa, w: Work, location: Location, parent: Option<VmId>, argc: nat, argv: nat,
                       rootArgs: seq<seq<Byte>>)
    requires w.core.nextVmId !in w.core.vms && |w.core.vms| <= MAX_VMS_COUNT
    requires parent.Some? ==> parent.value in w.core.vms
    ensures Balanced(w, BootVm(isa, w, location, parent, argc, argv, rootArgs).w)
  {
    var r := BootVm(isa, w, location, parent, argc, argv, rootArgs);
    var id := w.core.nextVmId;
    if r.Ok? {
      SumUpdate(w.core.vms, id, r.w.core.vms[id]);
      assert r.w.core.vms.Keys == w.core.vms.Keys + {id};
      if parent.None? {
        LoggedBy(w, r.w, [Admit(id)]);
      } else {
        FitsBoth(w.core.vms.Keys, parent.value, id);
        LoggedBy(w, r.w, [Attend([parent.value]), Admit(id)]);
      }
    } else if r.w.needs == w.needs {
      BalancedSame(w, r.w);
    } else {
      LoggedBy(w, r.w, [Attend([parent.value])]);
    }
  }

  lemma OnSpawnBalanced(isa: Isa, w: Work, id: VmId, args: SpawnArgs)
    requires Inv(w.core) && Sender(w.core, id)
    ensures Balanced(w, OnSpawn(isa, w, id, args).w)
  {
    hide BootVm, Reply, Answer64, HandOver, Inv, Balanced;
    SenderAlive(w.core, id);
    if exists fd :: fd in args.fds && !Owns(w.core, id, fd) {
      ReplyKeeps(w, id, INVALID_FD);
      TalliedBalanced(w, Reply(w, id, INVALID_FD).w, id);
    } else if |w.core.vms| > MAX_VMS_COUNT {
      ReplyKeeps(w, id, MAX_VMS_SPAWNED);
      TalliedBalanced(w, Reply(w, id, MAX_VMS_SPAWNED).w, id);
    } else {
      var child := w.core.nextVmId;
      BootVmKeeps(isa, w, args.location, Some(id), args.argc, args.argv, []);
      BootVmBalanced(isa, w, args.location, Some(id), args.argc, args.argv, []);
      var b := BootVm(isa, w, args.location, Some(id), args.argc, args.argv, []);
      if b.Ok? {
        var w2 := b.w.(core := b.w.core.(fds := HandOver(b.w.core.fds, args.fds, child),
                                         inherited := b.w.core.inherited[child := args.fds]));
        Answer64Keeps(w2, id, args.processIdAddr, child);
        TalliedBalanced(w2, Answer64(w2, id, args.processIdAddr, child).w, id);
        BalancedSame(b.w, w2);
        BalancedTrans(w, b.w, w2);
        BalancedTrans(w, w2, Answer64(w2, id, args.processIdAddr, child).w);
      }
    }
  }

  lemma OnWaitBalanced(w: Work, id: VmId, target: VmId, exitCodeAddr: nat)
    requires id in w.core.vms
    ensures Balanced(w, OnWait(w, id, target, exitCodeAddr).w)
  {
    hide Balanced;
    SameCounter(w, OnWait(w, id, target, exitCodeAddr).w, id);
  }

  lemma OnPipeBalanced(w: Work, id: VmId, fd1Addr: nat, fd2Addr: nat)
    requires id in w.core.vms
    ensures Balanced(w, OnPipe(w, id, fd1Addr, fd2Addr).w)
  {
    hide Balanced, AnswerTwo64, Reply;
    if |w.core.fds| >= MAX_FDS {
      ReplyKeeps(w, id, MAX_FDS_CREATED);
      TalliedBalanced(w, Reply(w, id, MAX_FDS_CREATED).w, id);
    } else {
      var p := w.core.nextFdSlot;
      var w1 := w.(core := w.core.(nextFdSlot := p + 2, fds := w.core.fds[p := id][p + 1 := id],
                                   pipes := OpenLog(w.core.pipes, p + 1)));
      BalancedSame(w, w1);
      AnswerTwo64Keeps(w1, id, fd1Addr, p, fd2Addr, p + 1);
      var r := AnswerTwo64(w1, id, fd1Addr, p, fd2Addr, p + 1);
      TalliedBalanced(w1, r.w, id);
      BalancedTrans(w, w1, r.w);
    }
  }

  lemma OnReadBalanced(w: Work, id: VmId, args: FdArgs)
    requires id in w.core.vms
    ensures Balanced(w, OnRead(w, id, args).w)
  {
    hide Balanced;
    SameCounter(w, OnRead(w, id, args).w, id);
  }

  lemma OnWriteBalanced(w: Work, id: VmId, args: FdArgs)
    requires id in w.core.vms
    ensures Balanced(w, OnWrite(w, id, args).w)
  {
    hide Balanced;
    SameCounter(w, OnWrite(w, id, args).w, id);
  }

  lemma OnCloseBalanced(w: Work, id: VmId, fd: Fd)
    requires id in w.core.vms
    ensures Balanced(w, OnClose(w, id, fd).w)
  {
    hide Balanced;
    SameCounter(w, OnClose(w, id, fd).w, id);
  }

  lemma OnMessageBalanced(isa: Isa, w: Work, m: Message)
    requires Inv(w.core) && Sender(w.core, m.vm) && !FrontEndRejects(m.request)
    ensures Balanced(w, OnMessage(isa, w, m).w)
  {
    hide OnExec, OnSpawn, OnWait, OnPipe, OnRead, OnWrite, OnInheritedFd, OnClose, Inv, Balanced;
    SenderAlive(w.core, m.vm);
    match m.request
    case ExecV2(location, argc, argv) =>
      OnExecKeeps(isa, w, m.vm, location, argc, argv);
      TalliedBalanced(w, OnExec(isa, w, m.vm, location, argc, argv).w, m.vm);
    case Spawn(args) => OnSpawnBalanced(isa, w, m.vm, args);
    case Wait(target, exitCodeAddr) => OnWaitBalanced(w, m.vm, target, exitCodeAddr);
    case Pipe(fd1Addr, fd2Addr) => OnPipeBalanced(w, m.vm, fd1Addr, fd2Addr);
    case FdRead(args) => OnReadBalanced(w, m.vm, args);
    case FdWrite(args) => OnWriteBalanced(w, m.vm, args);
    case InheritedFd(bufferAddr, lengthAddr) =>
      OnInheritedFdKeeps(w, m.vm, bufferAddr, lengthAddr);
      TalliedBalanced(w, OnInheritedFd(w, m.vm, bufferAddr, lengthAddr).w, m.vm);
    case Close(fd) => OnCloseBalanced(w, m.vm, fd);
  }

  lemma {:induction false} WakeJoinersBalanced(w: Work, ids: seq<VmId>, code: ExitCode)
    ensures Balanced(w, WakeJoiners(w, ids, code).w)
    ensures forall v :: v in w.core.vms ==>
              v in WakeJoiners(w, ids, code).w.core.vms
              && WakeJoiners(w, ids, code).w.core.vms[v].cycles == w.core.vms[v].cycles
    decreases |ids|
  {
    hide Balanced;
    if ids != [] && ids[0] in w.core.states && w.core.states[ids[0]].Waiting? && ids[0] in w.core.vms {
      var id := ids[0];
      var w1 := Require(w, id).w;
      var p := Poke8(w1, id, w.core.states[id].exitCodeAddr, code);
      if p.Ok? {
        var w2 := p.w.(core := SetState(SetA0(p.w.core, id, SUCCESS), id, Runnable));
        SameCounter(w, w2, id);
        WakeJoinersBalanced(w2, ids[1..], code);
        BalancedTrans(w, w2, WakeJoiners(w2, ids[1..], code).w);
      } else {
        SameCounter(w, w1, id);
      }
    } else {
      BalancedSame(w, w);
    }
  }

  lemma {:induction false} FinishClosedBalanced(w: Work, ids: seq<VmId>)
    ensures Balanced(w, FinishClosed(w, ids).w)
    decreases |ids|
  {
    hide Answer64, Balanced;
    if ids != [] && ids[0] in w.core.states {
      var id := ids[0];
      var state := w.core.states[id];
      if state.WaitForRead? || state.WaitForWrite? {
        var addr := if state.WaitForRead? then state.read.lengthAddr else state.write.lengthAddr;
        var count := if state.WaitForRead? then 0 else state.write.consumed;
        AnswerBalanced(w, id, addr, count);
        var p := Answer64(w, id, addr, count);
        if p.Ok? {
          var w1 := p.w.(core := SetState(p.w.core, id, Runnable));
          BalancedSame(p.w, w1);
          BalancedTrans(w, p.w, w1);
          FinishClosedBalanced(w1, ids[1..]);
          BalancedTrans(w, w1, FinishClosed(w1, ids[1..]).w);
        }
      } else {
        FinishClosedBalanced(w, ids[1..]);
      }
    } else {
      BalancedSame(w, w);
    }
  }

  lemma AnswerBalanced(w: Work, id: VmId, addr: nat, value: int)
    ensures Balanced(w, Answer64(w, id, addr, value).w)
  {
    hide Balanced;
    if id in w.core.vms {
      Answer64Keeps(w, id, addr, value);
      TalliedBalanced(w, Answer64(w, id, addr, value).w, id);
    } else {
      BalancedSame(w, w);
    }
  }

  /** A copy charges reader and writer alike, a quarter of a cycle a byte. */
  lemma TransferBalanced(w: Work, p: Pair)
    requires p.reader != p.writer
    ensures Balanced(w, Transfer(w, p).w)
  {
    hide Balanced, Deliver, Advance;
    if p.write.consumed <= p.write.length && p.reader in w.core.vms && p.writer in w.core.vms {
      var w1 := RequireBoth(w, p.reader, p.writer).w;
      BothBalanced(w, w1, p.reader, p.writer);
      DeliverBalanced(w1, p);
      var d := Deliver(w1, p);
      BalancedTrans(w, w1, d.w);
      if d.Ok? {
        DeliverKeeps(w1, p);
        AdvanceBalanced(d.w, p);
        BalancedTrans(w, d.w, Advance(d.w, p).w);
      }
    } else {
      BalancedSame(w, w);
    }
  }

  lemma BothBalanced(w: Work, w': Work, id: VmId, id': VmId)
    requires id in w.core.vms && id' in w.core.vms && id != id' && w' == w.(needs := w.needs + [Attend([id, id'])])
    ensures Balanced(w, w')
  {
    LoggedBy(w, w', [Attend([id, id'])]);
  }

  lemma DeliverBalanced(w: Work, p: Pair)
    requires p.write.consumed <= p.write.length && p.reader in w.core.vms && p.writer in w.core.vms
             && p.reader != p.writer
    ensures Balanced(w, Deliver(w, p).w)
  {
    hide Balanced, Deliver;
    var w1 := AddCycles(w, p.writer, TransferredByteCycles(Copiable(p)));
    TalliedBalanced(w, w1, p.writer);
    var w2 := Deliver(w, p).w;
    DeliverReader(w, w1, w2, p);
    TalliedReader(w1, w2, p.reader);
    BalancedTrans(w, w1, w2);
  }

  lemma DeliverReader(w: Work, w1: Work, w2: Work, p: Pair)
    requires p.write.consumed <= p.write.length && p.reader in w.core.vms && p.writer in w.core.vms
             && p.reader != p.writer
    requires w1 == AddCycles(w, p.writer, TransferredByteCycles(Copiable(p))) && w2 == Deliver(w, p).w
    ensures At(w1, w2, p.reader)
  {
    hide LoadBytes, Poke, TransferredByteCycles, LogDelivery, AddCycles, SetA0, SetState, At;
    var cycles, reader := TransferredByteCycles(Copiable(p)), p.reader;
    AddCyclesAt(w, p.writer, cycles);
    AddCyclesAt(w1, reader, cycles);
    match LoadBytes(w1.core.vms[p.writer].cpu.memory, p.write.bufferAddr + p.write.consumed, Copiable(p))
    case None =>
      SameAt(w1, w1, reader);
    case Some(data) =>
      var u := AddCycles(w1, reader, cycles);
      var r := Poke(u, reader, p.read.bufferAddr, data);
      PokeAt(w1, u, reader, p.read.bufferAddr, data);
      if r.Ok? {
        var v := r.w.(core := r.w.core.(pipes := LogDelivery(r.w.core.pipes, p.write.fd, data)));
        SameVmsAt(w1, r.w, v, reader);
        var q := Poke64(v, reader, p.read.lengthAddr, Copiable(p));
        PokeAt(w1, v, reader, p.read.lengthAddr, Le(Copiable(p), 8));
        if q.Ok? {
          WokenAt(w1, q.w, reader);
        }
      }
  }

  /** From `w` to `w'` only machine `id` changes, it consumes what is charged, and the cache is asked for nothing. */
  ghost predicate At(w: Work, w': Work, id: VmId) {
    && id in w.core.vms && id in w'.core.vms && w'.core.vms == w.core.vms[id := w'.core.vms[id]]
    && w'.core.vms[id].cycles - w.core.vms[id].cycles == w'.charged - w.charged && w'.needs == w.needs
  }

  lemma SameAt(w: Work, w': Work, id: VmId)
    requires id in w.core.vms && w' == w
    ensures At(w, w', id)
  {
  }

  lemma AddCyclesAt(w: Work, id: VmId, cycles: nat)
    requires id in w.core.vms
    ensures At(w, AddCycles(w, id, cycles), id) && AddCycles(w, id, cycles).core.vms.Keys == w.core.vms.Keys
  {
  }

  lemma PokeAt(w: Work, u: Work, id: VmId, addr: nat, data: seq<Byte>)
    requires id in u.core.vms && At(w, u, id)
    ensures At(w, Poke(u, id, addr, data).w, id) && id in Poke(u, id, addr, data).w.core.vms
  {
    hide StoreBytes;
  }

  lemma SameVmsAt(w: Work, u: Work, v: Work, id: VmId)
    requires At(w, u, id) && v.core.vms == u.core.vms && v.charged == u.charged && v.needs == u.needs
    ensures At(w, v, id) && id in v.core.vms
  {
  }

  lemma WokenAt(w: Work, u: Work, id: VmId)
    requires id in u.core.vms && At(w, u, id)
    ensures At(w, u.(core := SetState(SetA0(u.core, id, SUCCESS), id, Runnable)), id)
  {
  }

  lemma TalliedReader(w: Work, w': Work, id: VmId)
    requires At(w, w', id)
    ensures Balanced(w, w')
  {
    SumUpdate(w.core.vms, id, w'.core.vms[id]);
    LoggedBy(w, w', []);
  }

  lemma AdvanceBalanced(w: Work, p: Pair)
    requires p.write.consumed <= p.write.length && p.writer in w.core.vms
    ensures Balanced(w, Advance(w, p).w)
  {
    hide Balanced;
    SameCounter(w, Advance(w, p).w, p.writer);
  }

  lemma {:induction false} TransferAllBalanced(w: Work, pairs: seq<Pair>)
    requires forall i :: 0 <= i < |pairs| ==> pairs[i].reader != pairs[i].writer
    ensures Balanced(w, TransferAll(w, pairs).w)
    decreases |pairs|
  {
    hide Transfer, Balanced;
    if pairs != [] {
      TransferBalanced(w, pairs[0]);
      var p := Transfer(w, pairs[0]);
      if p.Ok? {
        TransferAllBalanced(p.w, pairs[1..]);
        BalancedTrans(w, p.w, TransferAll(p.w, pairs[1..]).w);
      }
    } else {
      BalancedSame(w, w);
    }
  }

  lemma ProcessIoBalanced(w: Work)
    ensures Balanced(w, ProcessIo(w).w)
  {
    hide FinishClosed, TransferAll, Balanced;
    var pairs := PairsOf(w.core, Ascending(MatchedWriters(w.core)));
    FinishClosedBalanced(w, ClosedEnds(w.core));
    var f := FinishClosed(w, ClosedEnds(w.core));
    if f.Ok? {
      PairsArePairs(w.core, pairs);
      TransferAllBalanced(f.w, pairs);
      BalancedTrans(w, f.w, TransferAll(f.w, pairs).w);
    }
  }

  /** What follows a run states needs that fit, and until the root machine exits it conserves
      cycles. A machine that exits takes none with it, since its counter has been read and
      reset. */
  lemma OnResultBalanced(isa: Isa, w: Work, id: VmId, box: seq<Message>, outcome: Outcome)
    requires Inv(w.core) && Sender(w.core, id) && BoxOk(id, box, outcome)
    requires w.core.vms[id].cycles == 0
    ensures var r := OnResult(isa, w, id, box, outcome);
            Logged(w, r.w) && (Finished(r.w.core) || Balanced(w, r.w))
  {
    hide OnMessages, WakeJoiners, OnMessage, Inv, SumCycles, Logged;
    SenderAlive(w.core, id);
    if box != [] {
      OnMessageBalanced(isa, w, box[0]);
      OneMessage(isa, w, box);
    } else {
      NoMessage(isa, w);
      if !outcome.Exited? {
        BalancedSame(w, w);
      } else if id == ROOT_VM_ID {
        RootExit(isa, w, outcome.code);
      } else {
        ExitBalanced(w, id, outcome.code);
      }
    }
  }

  lemma ExitBalanced(w: Work, id: VmId, code: ExitCode)
    requires id in w.core.vms && w.core.vms[id].cycles == 0
    ensures var w' := w.(core := w.core.(terminated := w.core.terminated[id := code]));
            var j := WakeJoiners(w', Ascending(Joiners(w'.core, id)), code);
            && Balanced(w, j.w)
            && Balanced(w, j.w.(core := Purge(j.w.core, id), needs := j.w.needs + [Drop(id)]))
  {
    hide WakeJoiners, Balanced, Purge, Ascending;
    var w2 := w.(core := w.core.(terminated := w.core.terminated[id := code]));
    BalancedSame(w, w2);
    WakeJoinersBalanced(w2, Ascending(Joiners(w2.core, id)), code);
    var j := WakeJoiners(w2, Ascending(Joiners(w2.core, id)), code);
    BalancedTrans(w, w2, j.w);
    var e := j.w.(core := Purge(j.w.core, id), needs := j.w.needs + [Drop(id)]);
    DropBalanced(j.w, e, id);
    BalancedTrans(w, j.w, e);
  }

  /** A machine without cycles of its own leaves the sum as it is. */
  lemma DropBalanced(w: Work, w': Work, id: VmId)
    requires id in w.core.vms && w.core.vms[id].cycles == 0
    requires w'.core == Purge(w.core, id) && w'.needs == w.needs + [Drop(id)] && w'.charged == w.charged
    ensures Balanced(w, w')
  {
    SumWithout(w.core.vms, id);
    LoggedBy(w, w', [Drop(id)]);
  }

  lemma OneMessage(isa: Isa, w: Work, box: seq<Message>)
    requires |box| == 1
    ensures OnMessages(isa, w, box) == OnMessage(isa, w, box[0])
  {
    assert box[1..] == [];
  }

  lemma NoMessage(isa: Isa, w: Work)
    ensures OnMessages(isa, w, []) == Ok(w)
  {
  }

  lemma RootExit(isa: Isa, w: Work, code: ExitCode)
    requires ROOT_VM_ID in w.core.vms
    ensures var r := OnResult(isa, w, ROOT_VM_ID, [], Exited(code)); Finished(r.w.core) && Logged(w, r.w)
  {
    var r := OnResult(isa, w, ROOT_VM_ID, [], Exited(code));
    assert Fits({ROOT_VM_ID}, [], r.w.core.vms.Keys);
    assert [Attend([ROOT_VM_ID]), Only(ROOT_VM_ID)][1..] == [Only(ROOT_VM_ID)];
    assert Fits(w.core.vms.Keys, [Only(ROOT_VM_ID)], r.w.core.vms.Keys);
    LoggedBy(w, r.w, [Attend([ROOT_VM_ID]), Only(ROOT_VM_ID)]);
  }

  /** A turn conserves cycles until the root machine exits, and its needs fit. */
  lemma TakeTurnBalanced(isa: Isa, c: Core, base: nat, maxCycles: nat, budget: Option<nat>)
    requires Inv(c)
    ensures var t := TakeTurn(isa, c, base, maxCycles, budget);
            && Fits(c.vms.Keys, t.res.w.needs, t.res.w.core.vms.Keys)
            && (Finished(t.res.w.core)
                || SumCycles(t.res.w.core.vms) + t.cycles == SumCycles(c.vms) + t.res.w.charged + t.ran)
  {
    if RunnableVms(c) != {} {
      var id := Max(RunnableVms(c));
      TurnBalanced(isa, c, id, RunVm(isa, id, c.vms[id], base, maxCycles, budget));
      hide OnResult, RunVm, Max, Inv, SumCycles;
    }
  }

  lemma TurnBalanced(isa: Isa, c: Core, id: VmId, r: RunResult)
    requires Inv(c) && Sender(c, id) && r.vm.cycles >= c.vms[id].cycles
    requires r.posted.Some? ==> r.outcome == Yielded && !FrontEndRejects(r.posted.value)
    ensures var res := OnResult(isa, AfterRun(c, id, r), id, BoxAfter(id, r), r.outcome);
            && Fits(c.vms.Keys, res.w.needs, res.w.core.vms.Keys)
            && (Finished(res.w.core)
                || SumCycles(res.w.core.vms) + c.vms[id].cycles == SumCycles(c.vms) + res.w.charged)
  {
    hide OnResult, Fits, Logged, SumCycles;
    var w := AfterRun(c, id, r);
    RanLogged(c, id, r);
    SameShapeInv(c, w.core);
    SumUpdate(c.vms, id, w.core.vms[id]);
    OnResultBalanced(isa, w, id, BoxAfter(id, r), r.outcome);
    var res := OnResult(isa, w, id, BoxAfter(id, r), r.outcome);
    LoggedTrans(Work(c, [], 0), w, res.w);
    FitsFromStart(c, res.w);
  }

  lemma RanLogged(c: Core, id: VmId, r: RunResult)
    requires id in c.vms && r.vm.cycles >= c.vms[id].cycles
    ensures Logged(Work(c, [], 0), AfterRun(c, id, r))
  {
    LoggedBy(Work(c, [], 0), AfterRun(c, id, r), [Attend([id])]);
  }

  lemma FitsFromStart(c: Core, w: Work)
    requires Logged(Work(c, [], 0), w)
    ensures Fits(c.vms.Keys, w.needs, w.core.vms.Keys)
  {
    var needs :| w.needs == [] + needs && Fits(c.vms.Keys, needs, w.core.vms.Keys);
    assert w.needs == needs;
  }
}
