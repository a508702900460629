/** What holds in every state of every run: the structure of the scheduler, the order of bytes
    in pipes, the size of the cache and the account of cycles. */
module SchedulerRuns {
  import opened Basics
  import opened Machine
  import opened SchedulerModel
  import opened SchedulerInvariant
  import opened SchedulerDeadlock
  import opened SchedulerPipes
  import opened SchedulerLedger
  import opened SchedulerSystem
  import opened SchedulerCache

  /** Every cycle ever charged is in the total, in the iteration or on a live machine. */
  ghost predicate Ledger(s: System) {
    s.total + s.iteration + SumCycles(s.core.vms) == s.charged
  }

  ghost predicate SysInv(cap: nat, s: System) {
    && Inv(s.core)
    && Quiescent(s.core)
    && Fifo(s.core)
    && CacheOk(cap, s.core.vms.Keys, s.cache)
    && Ledger(s)
  }

  /** The root machine has exited; nothing is left over in the iteration. */
  ghost predicate Ended(cap: nat, s: System) {
    && Finished(s.core)
    && s.iteration == 0
    && CacheOk(cap, s.core.vms.Keys, s.cache)
    && forall fd :: InOrder(s.core, fd)
  }

  // ----- Parts of an iteration -----

  /** Serving pipes changes nothing in a state where nobody can be served. */
  lemma QuiescentIo(c: Core)
    requires Quiescent(c) || Finished(c)
    ensures ProcessIo(Idle(c)) == Ok(Idle(c))
  {
    assert ClosedReaders(c) == {} && ClosedWriters(c) == {};
    forall id | id in c.states && Writes(c, id)
      ensures ReadersOf(c, OtherFd(c.states[id].write.fd)) == {}
    {
      NobodyReads(c, id);
    }
    assert MatchedWriters(c) == {};
    assert PairsOf(c, []) == [];
  }

  lemma NobodyReads(c: Core, id: VmId)
    requires Quiescent(c) || Finished(c)
    requires Writes(c, id)
    ensures ReadersOf(c, OtherFd(c.states[id].write.fd)) == {}
  {
    var fd := OtherFd(c.states[id].write.fd);
    forall r | r in c.states && Reads(c, r)
      ensures c.states[r].read.fd != fd
    {
    }
  }

  /** Serving pipes states needs that fit and conserves cycles. */
  lemma IoBalanced(c: Core)
    ensures var io := ProcessIo(Idle(c));
            Fits(c.vms.Keys, io.w.needs, io.w.core.vms.Keys)
            && SumCycles(io.w.core.vms) == SumCycles(c.vms) + io.w.charged
  {
    hide ProcessIo, Fits, SumCycles, Logged;
    ProcessIoBalanced(Idle(c));
    FitsFromStart(c, ProcessIo(Idle(c)).w);
  }

  /** The system after an operation whose needs fit and whose cycles balance. */
  lemma AccountKeeps(cap: nat, s: System, w: Work, cycles: nat, ran: nat)
    requires cap >= 2 && CacheOk(cap, s.core.vms.Keys, s.cache) && Fits(s.core.vms.Keys, w.needs, w.core.vms.Keys)
    ensures CacheOk(cap, w.core.vms.Keys, Account(cap, s, w, cycles, ran).cache)
    ensures SumCycles(w.core.vms) + cycles == SumCycles(s.core.vms) + w.charged + ran ==>
              (Ledger(Account(cap, s, w, cycles, ran)) <==> Ledger(s))
  {
    hide ServeAll, Fits, SumCycles, CacheOk;
    ServeAllKeeps(cap, s.core.vms.Keys, s.cache, w.needs, w.core.vms.Keys);
  }

  lemma AccountIdle(cap: nat, s: System)
    ensures Account(cap, s, Idle(s.core), 0, 0) == s
  {
  }

  /** A turn that was stopped by the pause signal has only moved its machine on. */
  lemma PausedTurn(isa: Isa, c: Core, base: nat, maxCycles: nat, budget: Option<nat>)
    requires Inv(c)
    requires TakeTurn(isa, c, base, maxCycles, budget).res.Err?
    requires TakeTurn(isa, c, base, maxCycles, budget).res.error == Paused
    ensures RunnableVms(c) != {} && Max(RunnableVms(c)) in c.vms
    ensures var t := TakeTurn(isa, c, base, maxCycles, budget);
            var id := Max(RunnableVms(c));
            var r := RunVm(isa, id, c.vms[id], base, maxCycles, budget);
            r.outcome == Failed(Paused) && t.res.w == AfterRun(c, id, r) && t.cycles == r.vm.cycles
  {
    var id := Max(RunnableVms(c));
    var r := RunVm(isa, id, c.vms[id], base, maxCycles, budget);
    TurnKeeps(isa, c, id, r);
    hide OnMessage, RunVm, Max, Inv, Live;
  }

  lemma PausedKeeps(isa: Isa, c: Core, base: nat, maxCycles: nat, budget: Option<nat>)
    requires Inv(c) && Quiescent(c)
    requires TakeTurn(isa, c, base, maxCycles, budget).res.Err?
    requires TakeTurn(isa, c, base, maxCycles, budget).res.error == Paused
    ensures var c' := TakeTurn(isa, c, base, maxCycles, budget).res.w.core;
            Inv(c') && Quiescent(c') && !IsTerminated(c')
  {
    PausedTurn(isa, c, base, maxCycles, budget);
    var c' := TakeTurn(isa, c, base, maxCycles, budget).res.w.core;
    hide TakeTurn, RunVm, Max;
    SameShapeInv(c, c');
  }

  lemma NotTerminated(c: Core)
    requires Inv(c)
    ensures !IsTerminated(c) && !Finished(c)
  {
  }

  lemma TurnIs(isa: Isa, c: Core, base: nat, limit: nat, budget: Option<nat>)
    requires RunnableVms(c) != {} && Max(RunnableVms(c)) in c.vms
    ensures var id := Max(RunnableVms(c));
            var r := RunVm(isa, id, c.vms[id], base, limit, budget);
            && Sender(c, id)
            && TakeTurn(isa, c, base, limit, budget)
               == Turn(id, OnResult(isa, AfterRun(c, id, r), id, BoxAfter(id, r), r.outcome), r.vm.cycles,
                       r.vm.cycles - c.vms[id].cycles, r.budget)
  {
    hide OnResult, RunVm, Max;
  }

  // ----- One iteration -----

  /** The system after the turn of an iteration, and whether it kept to the limit. */
  function AfterTurn(isa: Isa, cap: nat, s: System, limit: nat, budget: Option<nat>): System {
    var t := TakeTurn(isa, s.core, s.total, limit, budget);
    Account(cap, s, t.res.w, t.cycles, t.ran)
  }

  predicate Overruns(isa: Isa, cap: nat, s: System, limit: nat, budget: Option<nat>) {
    AfterTurn(isa, cap, s, limit, budget).iteration > limit
  }

  /** The account after an iteration, whatever its end: exact, unless the limit check itself
      failed, in which case the cycles of the iteration are counted twice. */
  lemma IterateLedger(isa: Isa, cap: nat, s: System, limit: nat, budget: Option<nat>)
    requires cap >= 2 && Inv(s.core) && CacheOk(cap, s.core.vms.Keys, s.cache) && Ledger(s)
    ensures var i := Iterate(isa, cap, s, limit, budget);
            && CacheOk(cap, i.s.core.vms.Keys, i.s.cache)
            && (!Finished(AfterTurn(isa, cap, s, limit, budget).core) ==>
                 (Ledger(i.s) <==> !Overruns(isa, cap, s, limit, budget)))
            && (!Finished(AfterTurn(isa, cap, s, limit, budget).core) && Overruns(isa, cap, s, limit, budget) ==>
                 i.s.total + i.s.iteration + SumCycles(i.s.core.vms) == i.s.charged + i.s.iteration)
  {
    hide TakeTurn, ProcessIo, ServeAll, Fits, SumCycles, CacheOk, Finished, Inv;
    var t := TakeTurn(isa, s.core, s.total, limit, budget);
    TakeTurnBalanced(isa, s.core, s.total, limit, budget);
    AccountKeeps(cap, s, t.res.w, t.cycles, t.ran);
    var s1 := Account(cap, s, t.res.w, t.cycles, t.ran);
    var s2 := s1.(total := s1.total + s1.iteration);
    if s1.iteration <= limit {
      var io := ProcessIo(Idle(s2.core));
      IoBalanced(s2.core);
      AccountKeeps(cap, s2.(iteration := 0), io.w, 0, 0);
    }
  }

  /** The core after an iteration. */
  lemma IterateCore(isa: Isa, cap: nat, s: System, limit: nat, budget: Option<nat>)
    requires Inv(s.core) && Quiescent(s.core) && Fifo(s.core)
    ensures var i := Iterate(isa, cap, s, limit, budget);
            && (i.Iterated? ==> (Inv(i.s.core) && Quiescent(i.s.core) && Fifo(i.s.core))
                                || (Finished(i.s.core) && i.s.iteration == 0 && (forall fd :: InOrder(i.s.core, fd))))
            && (i.Broke? ==> !i.error.Panic? && !i.error.Unexpected?)
            && (i.Broke? && i.error.Deadlock? ==> i.s.core == s.core && Stuck(s.core))
            && (i.Broke? && i.error.Paused? ==> Inv(i.s.core) && Quiescent(i.s.core) && Fifo(i.s.core))
  {
    hide TakeTurn, ProcessIo, ServeAll, Fifo, Inv, InOrder, Quiescent, Finished, Stuck;
    var t := TakeTurn(isa, s.core, s.total, limit, budget);
    TakeTurnKeeps(isa, s.core, s.total, limit, budget);
    TakeTurnFifo(isa, s.core, s.total, limit, budget);
    var c := t.res.w.core;
    if t.res.Ok? && Finished(c) {
      QuiescentIo(c);
      var s1 := AfterTurn(isa, cap, s, limit, budget);
      AccountIdle(cap, s1.(total := s1.total + s1.iteration, iteration := 0));
    } else if t.res.Err? && t.res.error == Paused {
      PausedKeeps(isa, s.core, s.total, limit, budget);
      QuiescentIo(c);
    } else if t.res.Err? && t.res.error == Deadlock {
      DeadlockReported(isa, s.core, s.total, limit, budget);
      DeadlockIdle(isa, s.core, s.total, limit, budget);
      QuiescentIo(c);
    } else {
      LiveVms(c);
      IoCore(c);
    }
  }

  lemma LiveVms(c: Core)
    requires Inv(c) || Live(c)
    ensures VmsOk(c)
  {
  }

  lemma DeadlockIdle(isa: Isa, c: Core, base: nat, maxCycles: nat, budget: Option<nat>)
    requires RunnableVms(c) == {}
    ensures TakeTurn(isa, c, base, maxCycles, budget).res.w == Idle(c)
  {
  }

  lemma IoCore(c: Core)
    requires VmsOk(c)
    ensures var io := ProcessIo(Idle(c));
            && Sound(io)
            && (io.Ok? && Inv(c) ==> Inv(io.w.core) && Quiescent(io.w.core))
            && (io.Ok? && Fifo(c) ==> Fifo(io.w.core))
  {
    hide ProcessIo, Fifo, Quiescent, VmsOk, FdsOk, TerminatedOk, SizesOk, Relaxed;
    ProcessIoKeeps(Idle(c));
    RelaxedInv(c, ProcessIo(Idle(c)).w.core);
    if Fifo(c) {
      ProcessIoServes(Idle(c));
    }
  }

  lemma IterateTotal(isa: Isa, cap: nat, s: System, limit: nat, budget: Option<nat>)
    ensures var i := Iterate(isa, cap, s, limit, budget);
            && (i.Iterated? ==> i.s.total + i.remaining == s.total + limit && !Overruns(isa, cap, s, limit, budget))
            && (i.Iterated? && Finished(AfterTurn(isa, cap, s, limit, budget).core) ==> Finished(i.s.core))
            && (i.Broke? && i.error.Paused? ==> !Overruns(isa, cap, s, limit, budget))
  {
    var c := AfterTurn(isa, cap, s, limit, budget).core;
    if Finished(c) {
      QuiescentIo(c);
    }
    hide TakeTurn, ProcessIo, ServeAll, Finished;
  }

  lemma PausedIsLive(isa: Isa, cap: nat, s: System, limit: nat, budget: Option<nat>)
    requires Inv(s.core) && Quiescent(s.core)
    requires var i := Iterate(isa, cap, s, limit, budget); i.Broke? && i.error.Paused?
    ensures !Finished(AfterTurn(isa, cap, s, limit, budget).core)
  {
    hide TakeTurn, ProcessIo, ServeAll, Inv, Quiescent, Finished, VmsOk;
    var t := TakeTurn(isa, s.core, s.total, limit, budget);
    TakeTurnKeeps(isa, s.core, s.total, limit, budget);
    if t.res.Err? && t.res.error == Paused {
      PausedKeeps(isa, s.core, s.total, limit, budget);
      NotTerminated(t.res.w.core);
    } else if Finished(t.res.w.core) {
      QuiescentIo(t.res.w.core);
    }
  }

  lemma IterateKeeps(isa: Isa, cap: nat, s: System, limit: nat, budget: Option<nat>)
    requires cap >= 2 && SysInv(cap, s)
    ensures var i := Iterate(isa, cap, s, limit, budget);
            && (i.Iterated? ==> SysInv(cap, i.s) || Ended(cap, i.s))
            && (i.Iterated? ==> i.s.total + i.remaining == s.total + limit)
            && (i.Broke? ==> !i.error.Panic? && !i.error.Unexpected?)
            && (i.Broke? && i.error.Deadlock? ==> i.s.core == s.core && Stuck(s.core))
            && (i.Broke? && i.error.Paused? ==> SysInv(cap, i.s))
  {
    hide Iterate, Inv, Quiescent, Fifo, Ledger, Finished, CacheOk, Stuck, InOrder, AfterTurn, Overruns;
    IterateCore(isa, cap, s, limit, budget);
    IterateLedger(isa, cap, s, limit, budget);
    IterateTotal(isa, cap, s, limit, budget);
    var i := Iterate(isa, cap, s, limit, budget);
    if i.Iterated? && Inv(i.s.core) {
      NotTerminated(i.s.core);
    } else if i.Broke? && i.error.Paused? {
      PausedIsLive(isa, cap, s, limit, budget);
    }
  }

  // ----- Whole runs -----

  lemma EndedIsTerminated(cap: nat, s: System)
    ensures Ended(cap, s) ==> IsTerminated(s.core)
    ensures SysInv(cap, s) ==> !IsTerminated(s.core)
  {
    hide CacheOk, Ledger, Fifo, Quiescent;
  }

  lemma SysInvCore(cap: nat, s: System)
    requires SysInv(cap, s)
    ensures Inv(s.core) && Quiescent(s.core) && |s.cache.resident| <= cap
  {
  }

  lemma RunOfEnded(isa: Isa, cap: nat, s: System, limit: nat, budget: Option<nat>)
    requires IsTerminated(s.core)
    ensures RunFrom(isa, cap, s, limit, budget) == Done(s, [])
  {
  }

  lemma RunStep(isa: Isa, cap: nat, s: System, limit: nat, budget: Option<nat>)
    requires !IsTerminated(s.core)
    ensures var r, i := RunFrom(isa, cap, s, limit, budget), Iterate(isa, cap, s, limit, budget);
            && (i.Broke? ==> r == Stopped(i.s, i.error, []))
            && (i.Iterated? ==> i.remaining < limit && r == RunFrom(isa, cap, i.s, i.remaining, i.budget).After(i.id))
  {
    hide Iterate;
    IterateConsumes(isa, cap, s, limit, budget);
  }

  /** How a run that starts in a good state can end: with the root machine's exit within the
      limit and nothing left in the iteration, or with an error that is not a fault of the
      scheduler. A deadlock is genuine, and a paused run can be taken up again. */
  ghost predicate GoodEnd(cap: nat, r: Run) {
    match r
    case Done(s, _) => Ended(cap, s)
    case Stopped(s, error, _) =>
      && !error.Panic?
      && !error.Unexpected?
      && (error.Deadlock? ==> Stuck(s.core))
      && (error.Paused? ==> SysInv(cap, s))
  }

  lemma {:induction false} RunKeeps(isa: Isa, cap: nat, s: System, limit: nat, budget: Option<nat>)
    requires cap >= 2 && SysInv(cap, s)
    ensures var r := RunFrom(isa, cap, s, limit, budget); GoodEnd(cap, r) && (r.Done? ==> r.s.total <= s.total + limit)
    decreases limit
  {
    hide Iterate, SysInv, Ended, Stuck, IsTerminated;
    EndedIsTerminated(cap, s);
    IterateKeeps(isa, cap, s, limit, budget);
    IterateConsumes(isa, cap, s, limit, budget);
    var i := Iterate(isa, cap, s, limit, budget);
    if i.Iterated? {
      EndedIsTerminated(cap, i.s);
      if SysInv(cap, i.s) {
        RunKeeps(isa, cap, i.s, i.remaining, i.budget);
      }
    }
  }

  /** The states between the iterations of a run. */
  function History(isa: Isa, cap: nat, s: System, limit: nat, budget: Option<nat>): seq<System>
    decreases limit
  {
    if IsTerminated(s.core) then [s] else
      IterateConsumes(isa, cap, s, limit, budget);
      match Iterate(isa, cap, s, limit, budget)
      case Broke(_, _) => [s]
      case Iterated(s', _, remaining, budget') => [s] + History(isa, cap, s', remaining, budget')
  }

  ghost predicate KeptThrough(cap: nat, h: seq<System>) {
    forall i :: 0 <= i < |h| ==> SysInv(cap, h[i]) || (Ended(cap, h[i]) && i == |h| - 1)
  }

  /** The invariant holds in every state of a run, until the root machine has exited. */
  lemma {:induction false} HistoryKeeps(isa: Isa, cap: nat, s: System, limit: nat, budget: Option<nat>)
    requires cap >= 2 && SysInv(cap, s)
    ensures KeptThrough(cap, History(isa, cap, s, limit, budget))
    decreases limit
  {
    hide Iterate, SysInv, Ended, IsTerminated;
    EndedIsTerminated(cap, s);
    IterateKeeps(isa, cap, s, limit, budget);
    IterateConsumes(isa, cap, s, limit, budget);
    var i := Iterate(isa, cap, s, limit, budget);
    if i.Iterated? {
      EndedIsTerminated(cap, i.s);
      if SysInv(cap, i.s) {
        HistoryKeeps(isa, cap, i.s, i.remaining, i.budget);
        var h := History(isa, cap, i.s, i.remaining, i.budget);
        var all := History(isa, cap, s, limit, budget);
        assert all == [s] + h;
        forall k | 0 <= k < |all|
          ensures SysInv(cap, all[k]) || (Ended(cap, all[k]) && k == |all| - 1)
        {
          if k > 0 {
            assert all[k] == h[k - 1];
          }
        }
      } else {
        assert History(isa, cap, i.s, i.remaining, i.budget) == [i.s];
      }
    }
  }

  lemma {:induction false} ChunksKeep(isa: Isa, cap: nat, s: System, chunk: Chunk, rest: seq<Chunk>)
    requires cap >= 2 && SysInv(cap, s)
    ensures GoodEnd(cap, RunChunks(isa, cap, s, chunk, rest))
    decreases |rest|
  {
    hide RunFrom, SysInv, Ended, Stuck;
    RunKeeps(isa, cap, s, chunk.limit, chunk.budget);
    var r := RunFrom(isa, cap, s, chunk.limit, chunk.budget);
    if r.Stopped? && r.error.Paused? && rest != [] {
      ChunksKeep(isa, cap, r.s, rest[0], rest[1..]);
    }
  }

  lemma BootKeeps(isa: Isa, cap: nat, program: Location, args: seq<seq<Byte>>)
    requires cap >= 2
    ensures var b := Boot(isa, cap, program, args);
            (b.Done? ==> SysInv(cap, b.s)) && (b.Stopped? ==> ProgramFault(b.error))
  {
    hide BootVm, ServeAll, Inv, Fifo, Quiescent, CacheOk, Ledger, Balanced;
    BootVmKeeps(isa, Idle(EMPTY_CORE), program, None, 0, 0, args);
    BootVmBalanced(isa, Idle(EMPTY_CORE), program, None, 0, 0, args);
    var b := BootVm(isa, Idle(EMPTY_CORE), program, None, 0, 0, args);
    BootedAccount(cap, NEW_SYSTEM, b.w);
    if b.Ok? {
      BootedCore(b.w.core);
    }
  }

  lemma BootedAccount(cap: nat, s: System, w: Work)
    requires cap >= 2 && s.core.vms == map[] && s.cache == Cache({}, 0) && s.total == s.iteration == s.charged == 0
    requires Balanced(Idle(s.core), w)
    ensures var s' := Account(cap, s, w, 0, 0); CacheOk(cap, w.core.vms.Keys, s'.cache) && Ledger(s')
  {
    hide ServeAll, Fits;
    FitsFromStart(s.core, w);
    assert s.core.vms.Keys == {};
    AccountKeeps(cap, s, w, 0, 0);
  }

  lemma BootedCore(c: Core)
    requires ROOT_VM_ID in c.vms
    requires c == EMPTY_CORE.(nextVmId := ROOT_VM_ID + 1, vms := map[ROOT_VM_ID := c.vms[ROOT_VM_ID]],
                              states := map[ROOT_VM_ID := Runnable])
    ensures Inv(c) && Quiescent(c) && Fifo(c)
  {
    assert c.vms.Keys == {ROOT_VM_ID};
    assert c.fds.Keys == {};
  }

  /** Whatever the program, its arguments, the limits and the pauses. */
  lemma ScriptsEndWell(isa: Isa, program: Location, args: seq<seq<Byte>>, chunk: Chunk, rest: seq<Chunk>)
    ensures var b := Boot(isa, MAX_INSTANTIATED_VMS, program, args);
            b.Done? ==> GoodEnd(MAX_INSTANTIATED_VMS, RunChunks(isa, MAX_INSTANTIATED_VMS, b.s, chunk, rest))
  {
    hide Boot, RunChunks, GoodEnd;
    BootKeeps(isa, MAX_INSTANTIATED_VMS, program, args);
    var b := Boot(isa, MAX_INSTANTIATED_VMS, program, args);
    if b.Done? {
      ChunksKeep(isa, MAX_INSTANTIATED_VMS, b.s, chunk, rest);
    }
  }

  // ----- The limit check that counts twice -----

  /** A program that does nothing but close a descriptor it does not have. */
  const CLOSER := Isa((id: VmId, cpu: Cpu, n: nat) => Ecall(cpu, Close(0), 1), (l: Location) => None,
                      (l: Location, a: ArgSource) => Loaded(Cpu(0, [], 0), 0))

  /** With a limit of 10, the 801 cycles of its first turn are found in the total and, once
      more, in the iteration. */
  lemma DoubleCount(program: Location)
    ensures var b := Boot(CLOSER, MAX_INSTANTIATED_VMS, program, []);
            && b.Done?
            && var i := Iterate(CLOSER, MAX_INSTANTIATED_VMS, b.s, 10, None);
               i == Broke(i.s, CyclesExceeded) && !Ledger(i.s)
  {
    var b := Boot(CLOSER, MAX_INSTANTIATED_VMS, program, []);
    BootKeeps(CLOSER, MAX_INSTANTIATED_VMS, program, []);
    CloserBoots(program);
    CloserTurn(b.s.core, b.s.total);
    IterateLedger(CLOSER, MAX_INSTANTIATED_VMS, b.s, 10, None);
    hide Boot, TakeTurn, ProcessIo, ServeAll, Ledger, SysInv;
  }

  lemma CloserBoots(program: Location)
    ensures var b := Boot(CLOSER, MAX_INSTANTIATED_VMS, program, []);
            b.Done? && b.s.core == EMPTY_CORE.(nextVmId := 1, vms := map[0 := Vm(Cpu(0, [], 0), 0)],
                                               states := map[0 := Runnable])
  {
    hide ServeAll;
  }

  lemma CloserTurn(c: Core, base: nat)
    requires c == EMPTY_CORE.(nextVmId := 1, vms := map[0 := Vm(Cpu(0, [], 0), 0)], states := map[0 := Runnable])
    ensures var t := TakeTurn(CLOSER, c, base, 10, None); t.res.Ok? && t.cycles == 801 && !Finished(t.res.w.core)
  {
    assert 0 in RunnableVms(c);
    var m := Max(RunnableVms(c));
    assert m == 0;
    var r := RunVm(CLOSER, 0, c.vms[0], base, 10, None);
    assert r == RunResult(Vm(Cpu(0, [], 0), 801), Yielded, Some(Close(0)), None);
    OneMessage(CLOSER, AfterRun(c, 0, r), BoxAfter(0, r));
  }
}
