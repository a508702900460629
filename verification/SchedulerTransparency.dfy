/** What a program cannot tell: how many machines may be instantiated at a time. */
module SchedulerTransparency {
  import opened Basics
  import opened Machine
  import opened SchedulerModel
  import opened SchedulerInvariant
  import opened SchedulerLedger
  import opened SchedulerSystem
  import opened SchedulerCache
  import opened SchedulerRuns

  // ----- A cache with room for all -----

  lemma FewerNeeds(cap: nat, cache: Cache, ids: set<VmId>, needs: seq<Need>, ids': set<VmId>)
    requires cap > MAX_VMS_COUNT && cache.resident == ids && needs != [] && Fits(ids, needs, ids')
    ensures var c := Serve(cap, cache, needs[0]); c.swaps == cache.swaps && Fits(c.resident, needs[1..], ids')
  {
    hide Bring;
    match needs[0]
    case Attend(wanted) => AttendPresent(cap, cache, wanted);
    case Admit(id) =>
    case Drop(id) =>
    case Only(id) => assert ids * {id} == {id};
  }

  /** When no machine ever has to leave, meeting needs costs nothing. */
  lemma {:induction false} ServeAllForFree(cap: nat, cache: Cache, ids: set<VmId>, needs: seq<Need>, ids': set<VmId>)
    requires cap > MAX_VMS_COUNT && cache.resident == ids && Fits(ids, needs, ids')
    ensures ServeAll(cap, cache, needs) == Cache(ids', cache.swaps)
    decreases |needs|
  {
    hide Serve;
    if needs != [] {
      FewerNeeds(cap, cache, ids, needs, ids');
      var c := Serve(cap, cache, needs[0]);
      ServeAllForFree(cap, c, c.resident, needs[1..], ids');
    }
  }

  // ----- Turns -----

  /** A turn does not depend on the cycles consumed before, nor on a limit it does not hit. */
  lemma TurnSame(isa: Isa, c: Core, base: nat, base': nat, limit: nat, limit': nat, budget: Option<nat>)
    requires (IgnoresCycles(isa) || base == base') && limit <= limit'
    requires var res := TakeTurn(isa, c, base, limit, budget).res; res.Err? ==> res.error != CyclesExceeded
    ensures TakeTurn(isa, c, base', limit', budget) == TakeTurn(isa, c, base, limit, budget)
  {
    if RunnableVms(c) != {} {
      var id := Max(RunnableVms(c));
      if id in c.vms {
        var vm := c.vms[id];
        var r := RunVm(isa, id, vm, base, limit, budget);
        if r.outcome == Failed(CyclesExceeded) {
          FailedTurn(isa, c, id, r, CyclesExceeded);
        }
        RunVmShift(isa, id, vm, vm, base, base', limit, limit', budget);
      }
    }
    hide OnResult, RunVm, Max, IgnoresCycles;
  }

  lemma FailedTurn(isa: Isa, c: Core, id: VmId, r: RunResult, error: Error)
    requires id in c.vms && r.posted.None? && r.outcome == Failed(error)
    ensures OnResult(isa, AfterRun(c, id, r), id, BoxAfter(id, r), r.outcome) == Err(error, AfterRun(c, id, r))
  {
  }

  // ----- Residency -----

  /** `s'` is `s` with every machine instantiated: the same core, no more cycles in the
      iteration, and fewer in total by the cost of `swaps` moves. */
  predicate Resident(s: System, s': System, swaps: nat) {
    && s'.core == s.core
    && s'.cache == Cache(s.core.vms.Keys, 0)
    && s'.iteration <= s.iteration
    && s.cache.swaps == swaps
    && s.total + s.iteration == s'.total + s'.iteration + SPAWN_EXTRA_CYCLES_BASE * swaps
  }

  lemma AccountResident(cap: nat, cap': nat, s: System, s': System, w: Work, cycles: nat, ran: nat)
    requires cap' > MAX_VMS_COUNT && Resident(s, s', s.cache.swaps) && Fits(s.core.vms.Keys, w.needs, w.core.vms.Keys)
    ensures var a := Account(cap, s, w, cycles, ran); Resident(a, Account(cap', s', w, cycles, ran), a.cache.swaps)
  {
    hide ServeAll, Fits;
    ServeAllForFree(cap', s'.cache, s.core.vms.Keys, w.needs, w.core.vms.Keys);
    ServeAllCounts(cap, s.cache, w.needs);
  }

  lemma IterateResident(isa: Isa, cap: nat, cap': nat, s: System, s': System, limit: nat, limit': nat,
                        budget: Option<nat>)
    requires IgnoresCycles(isa) && Inv(s.core) && Quiescent(s.core) && cap' > MAX_VMS_COUNT && limit <= limit'
    requires Resident(s, s', s.cache.swaps)
    requires var i := Iterate(isa, cap, s, limit, budget); i.Broke? ==> i.error != CyclesExceeded
    ensures var i := Iterate(isa, cap, s, limit, budget);
            var i' := Iterate(isa, cap', s', limit', budget);
            && i'.Iterated? == i.Iterated?
            && Resident(i.s, i'.s, i.s.cache.swaps)
            && (i.Iterated? ==> i'.id == i.id && i'.budget == i.budget && i'.remaining >= i.remaining)
            && (i.Broke? ==> i'.error == i.error)
  {
    hide TakeTurn, ProcessIo, ServeAll, Fits, Resident, IgnoresCycles, Inv, Quiescent;
    var t := TakeTurn(isa, s.core, s.total, limit, budget);
    ResidentFacts(s, s');
    var s1 := Account(cap, s, t.res.w, t.cycles, t.ran);
    assert s1.iteration <= limit;
    if t.res.Err? && t.res.error == CyclesExceeded {
      ExceededBreaks(isa, cap, s, limit, budget);
    }
    TurnSame(isa, s.core, s.total, s'.total, limit, limit', budget);
    TakeTurnBalanced(isa, s.core, s.total, limit, budget);
    AccountResident(cap, cap', s, s', t.res.w, t.cycles, t.ran);
    var s1' := Account(cap', s', t.res.w, t.cycles, t.ran);
    ResidentFacts(s1, s1');
    var io := ProcessIo(Idle(s1.core));
    IoBalanced(s1.core);
    var s2 := s1.(total := s1.total + s1.iteration, iteration := 0);
    var s2' := s1'.(total := s1'.total + s1'.iteration, iteration := 0);
    ResidentMoved(s1, s1');
    AccountResident(cap, cap', s2, s2', io.w, 0, 0);
  }

  lemma ResidentFacts(s: System, s': System)
    requires Resident(s, s', s.cache.swaps)
    ensures s'.core == s.core && s'.iteration <= s.iteration
  {
  }

  lemma ResidentMoved(s: System, s': System)
    requires Resident(s, s', s.cache.swaps)
    ensures Resident(s.(total := s.total + s.iteration, iteration := 0),
                     s'.(total := s'.total + s'.iteration, iteration := 0), s.cache.swaps)
  {
  }

  /** A machine that hits the limit stops the iteration with that error. */
  lemma ExceededBreaks(isa: Isa, cap: nat, s: System, limit: nat, budget: Option<nat>)
    requires Inv(s.core) && Quiescent(s.core)
    requires var t := TakeTurn(isa, s.core, s.total, limit, budget); t.res.Err? && t.res.error == CyclesExceeded
    ensures var i := Iterate(isa, cap, s, limit, budget); i.Broke? && i.error == CyclesExceeded
  {
    hide TakeTurn, ProcessIo, ServeAll, Inv;
    ExceededStates(isa, s.core, s.total, limit, budget);
    QuiescentIo(TakeTurn(isa, s.core, s.total, limit, budget).res.w.core);
  }

  lemma ExceededStates(isa: Isa, c: Core, base: nat, limit: nat, budget: Option<nat>)
    requires Inv(c) && Quiescent(c)
    requires var t := TakeTurn(isa, c, base, limit, budget); t.res.Err? && t.res.error == CyclesExceeded
    ensures Quiescent(TakeTurn(isa, c, base, limit, budget).res.w.core)
  {
    if RunnableVms(c) != {} {
      var id := Max(RunnableVms(c));
      var r := RunVm(isa, id, c.vms[id], base, limit, budget);
      TurnKeeps(isa, c, id, r);
      FailedTurn(isa, c, id, r, CyclesExceeded);
      hide OnResult, RunVm, Max, Inv, Live;
    }
  }

  /** Two ends of a run that differ only by where machines were kept. */
  predicate SameEnd(r: Run, r': Run) {
    && r'.Done? == r.Done?
    && (r.Stopped? ==> r'.error == r.error)
    && r'.executed == r.executed
    && Resident(r.s, r'.s, r.s.cache.swaps)
  }

  predicate HitsLimit(r: Run) {
    r.Stopped? && r.error == CyclesExceeded
  }

  lemma {:induction false} RunResident(isa: Isa, cap: nat, cap': nat, s: System, s': System, limit: nat, limit': nat,
                                       budget: Option<nat>)
    requires IgnoresCycles(isa) && cap >= 2 && SysInv(cap, s) && cap' > MAX_VMS_COUNT && limit <= limit'
    requires Resident(s, s', s.cache.swaps) && !HitsLimit(RunFrom(isa, cap, s, limit, budget))
    ensures SameEnd(RunFrom(isa, cap, s, limit, budget), RunFrom(isa, cap', s', limit', budget))
    decreases limit
  {
    hide Iterate, SysInv, Ended, IsTerminated, Resident, Inv, Quiescent, IgnoresCycles;
    EndedIsTerminated(cap, s);
    ResidentFacts(s, s');
    SysInvCore(cap, s);
    IterateKeeps(isa, cap, s, limit, budget);
    IterateConsumes(isa, cap, s, limit, budget);
    IterateConsumes(isa, cap', s', limit', budget);
    var i := Iterate(isa, cap, s, limit, budget);
    IterateResident(isa, cap, cap', s, s', limit, limit', budget);
    var i' := Iterate(isa, cap', s', limit', budget);
    if i.Iterated? {
      EndedIsTerminated(cap, i.s);
      ResidentFacts(i.s, i'.s);
      if SysInv(cap, i.s) {
        RunResident(isa, cap, cap', i.s, i'.s, i.remaining, i'.remaining, i.budget);
      } else {
        assert RunFrom(isa, cap, i.s, i.remaining, i.budget) == Done(i.s, []);
        assert RunFrom(isa, cap', i'.s, i'.remaining, i'.budget) == Done(i'.s, []);
      }
    }
  }

  lemma BootResident(isa: Isa, cap: nat, cap': nat, program: Location, args: seq<seq<Byte>>)
    requires cap >= 2 && cap' > MAX_VMS_COUNT
    ensures var b := Boot(isa, cap, program, args);
            var b' := Boot(isa, cap', program, args);
            b'.Done? == b.Done? && (b.Done? ==> Resident(b.s, b'.s, b.s.cache.swaps))
  {
    hide BootVm, ServeAll, Fits, Balanced, Resident;
    BootVmBalanced(isa, Idle(EMPTY_CORE), program, None, 0, 0, args);
    var w := BootVm(isa, Idle(EMPTY_CORE), program, None, 0, 0, args).w;
    BalancedFits(w);
    NewResident();
    AccountResident(cap, cap', NEW_SYSTEM, NEW_SYSTEM, w, 0, 0);
  }

  lemma BalancedFits(w: Work)
    requires Balanced(Idle(EMPTY_CORE), w)
    ensures Fits(EMPTY_CORE.vms.Keys, w.needs, w.core.vms.Keys)
  {
    FitsFromStart(EMPTY_CORE, w);
  }

  lemma NewResident()
    ensures Resident(NEW_SYSTEM, NEW_SYSTEM, NEW_SYSTEM.cache.swaps)
  {
    assert EMPTY_CORE.vms.Keys == {};
  }

  /** A run with at most four machines instantiated executes the same machines in the same
      order as one that keeps all of them, and ends with the same states, descriptors,
      memories, registers and exit codes; it costs SPAWN_EXTRA_CYCLES_BASE more for every
      machine suspended or resumed. */
  lemma ResidencyIsTransparent(isa: Isa, program: Location, args: seq<seq<Byte>>, all: nat, limit: nat, limit': nat,
                               budget: Option<nat>)
    requires IgnoresCycles(isa) && all > MAX_VMS_COUNT && limit <= limit'
    requires var b := Boot(isa, MAX_INSTANTIATED_VMS, program, args);
             b.Done? && !HitsLimit(RunFrom(isa, MAX_INSTANTIATED_VMS, b.s, limit, budget))
    ensures var b, b' := Boot(isa, MAX_INSTANTIATED_VMS, program, args), Boot(isa, all, program, args);
            var r, r' := RunFrom(isa, MAX_INSTANTIATED_VMS, b.s, limit, budget),
                RunFrom(isa, all, b'.s, limit', budget);
            && r'.Done? == r.Done?
            && (r.Stopped? ==> r'.error == r.error)
            && r'.executed == r.executed
            && r'.s.core == r.s.core
            && r.s.total + r.s.iteration == r'.s.total + r'.s.iteration + SPAWN_EXTRA_CYCLES_BASE * r.s.cache.swaps
  {
    hide Boot, RunFrom, IgnoresCycles, SysInv;
    BootResident(isa, MAX_INSTANTIATED_VMS, all, program, args);
    BootKeeps(isa, MAX_INSTANTIATED_VMS, program, args);
    RunResident(isa, MAX_INSTANTIATED_VMS, all, Boot(isa, MAX_INSTANTIATED_VMS, program, args).s,
                Boot(isa, all, program, args).s, limit, limit', budget);
  }
}
