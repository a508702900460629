/** When the run of a script was paused, and how often, makes no difference to what the script
    does. The cycle limit makes one: it is checked for each part of a run on its own. */
module SchedulerPauses {
  import opened Basics
  import opened Machine
  import opened SchedulerModel
  import opened SchedulerInvariant
  import opened SchedulerLedger
  import opened SchedulerSystem
  import opened SchedulerCache
  import opened SchedulerRuns
  import opened SchedulerTransparency

  predicate Breaks(i: Iteration, error: Error) {
    i.Broke? && i.error == error
  }

  predicate Exceeds(t: Turn) {
    t.res.Err? && t.res.error == CyclesExceeded
  }

  // ----- Turns -----

  lemma TurnNotPaused(isa: Isa, c: Core, base: nat, limit: nat, budget: Option<nat>)
    requires Inv(c)
    requires var res := TakeTurn(isa, c, base, limit, budget).res; res.Err? ==> res.error != Paused
    ensures TakeTurn(isa, c, base, limit, None) == TakeTurn(isa, c, base, limit, budget).(budget := None)
  {
    if RunnableVms(c) != {} {
      var id := Max(RunnableVms(c));
      var r := RunVm(isa, id, c.vms[id], base, limit, budget);
      if r.outcome == Failed(Paused) {
        FailedTurn(isa, c, id, r, Paused);
      }
      RunVmNotPaused(isa, id, c.vms[id], base, limit, budget);
    }
    hide OnResult, RunVm, Max;
  }

  /** A turn that does not hit its limit is the same under every limit that is not below the
      counter it ends with. */
  lemma TurnAt(isa: Isa, c: Core, base: nat, limit: nat, limit': nat, budget: Option<nat>)
    requires !Exceeds(TakeTurn(isa, c, base, limit, budget)) && TakeTurn(isa, c, base, limit, budget).cycles <= limit'
    ensures TakeTurn(isa, c, base, limit', budget) == TakeTurn(isa, c, base, limit, budget)
  {
    if RunnableVms(c) != {} && Max(RunnableVms(c)) in c.vms {
      var id := Max(RunnableVms(c));
      var r := RunVm(isa, id, c.vms[id], base, limit, budget);
      if r.outcome == Failed(CyclesExceeded) {
        FailedTurn(isa, c, id, r, CyclesExceeded);
      }
      RunVmAt(isa, id, c.vms[id], base, limit, limit', budget);
    }
    hide OnResult, RunVm, Max;
  }

  /** What a machine does in its turn comes after it was asked for. */
  lemma TurnAttends(isa: Isa, c: Core, id: VmId, r: RunResult)
    requires Inv(c) && Sender(c, id) && (r.posted.Some? ==> r.outcome == Yielded && !FrontEndRejects(r.posted.value))
    ensures var needs := OnResult(isa, AfterRun(c, id, r), id, BoxAfter(id, r), r.outcome).w.needs;
            |needs| >= 1 && needs[0] == Attend([id])
  {
    hide OnResult, Fits;
    var w := AfterRun(c, id, r);
    SameShapeInv(c, w.core);
    OnResultBalanced(isa, w, id, BoxAfter(id, r), r.outcome);
    var res := OnResult(isa, w, id, BoxAfter(id, r), r.outcome);
    var more :| res.w.needs == w.needs + more && Fits(w.core.vms.Keys, more, res.w.core.vms.Keys);
  }

  /** A program does not see that its machine was stopped after `cycles` and started again: it
      ignores cycles, or `base'` is what it would have seen anyway. */
  ghost predicate Blind(isa: Isa, base: nat, base': nat, cycles: nat) {
    IgnoresCycles(isa) || base' == base + cycles
  }

  /** The run of a machine that was paused under limit `limit'`, compared with the run that
      is not paused, under a limit it does not hit: the first is a beginning of the second,
      and going on from where it stopped, with the counter reset, completes it. */
  lemma RunResumes(isa: Isa, id: VmId, vm: Vm, base: nat, base': nat, limit: nat, limit': nat, limit'': nat,
                   budget: Option<nat>)
    requires Blind(isa, base, base', RunVm(isa, id, vm, base, limit', budget).vm.cycles)
    requires RunVm(isa, id, vm, base, limit, None).outcome != Failed(CyclesExceeded)
    requires RunVm(isa, id, vm, base, limit', budget).outcome == Failed(Paused)
    requires RunVm(isa, id, vm, base, limit, None).vm.cycles <= limit'' + RunVm(isa, id, vm, base, limit',
                                                                                budget).vm.cycles
    ensures var r := RunVm(isa, id, vm, base, limit, None);
            var p := RunVm(isa, id, vm, base, limit', budget);
            && p.vm.cycles <= r.vm.cycles
            && RunVm(isa, id, Vm(p.vm.cpu, 0), base', limit'', None)
               == r.(vm := Vm(r.vm.cpu, r.vm.cycles - p.vm.cycles))
  {
    hide RunVm, IgnoresCycles;
    var r := RunVm(isa, id, vm, base, limit, None);
    var p := RunVm(isa, id, vm, base, limit', budget);
    var most := if limit <= limit' then limit' else limit;
    RunVmShift(isa, id, vm, vm, base, base, limit, most, None);
    RunVmShift(isa, id, vm, vm, base, base, limit', most, budget);
    RunVmPausePrefix(isa, id, vm, base, most, budget);
    RunVmAt(isa, id, p.vm, base, most, r.vm.cycles, None);
    RunVmShift(isa, id, p.vm, Vm(p.vm.cpu, 0), base, base', r.vm.cycles, limit'', None);
  }

  /** If the continuation of a paused run does not hit what is left of a limit, the run that
      is not paused does not hit that limit. */
  lemma RunResumed(isa: Isa, id: VmId, vm: Vm, base: nat, base': nat, limit: nat, limit': nat, limit'': nat,
                   budget: Option<nat>)
    requires Blind(isa, base, base', RunVm(isa, id, vm, base, limit', budget).vm.cycles)
    requires RunVm(isa, id, vm, base, limit', budget).outcome == Failed(Paused)
    requires limit'' + RunVm(isa, id, vm, base, limit', budget).vm.cycles <= limit
    requires RunVm(isa, id, Vm(RunVm(isa, id, vm, base, limit', budget).vm.cpu, 0), base', limit'', None).outcome
             != Failed(CyclesExceeded)
    ensures RunVm(isa, id, vm, base, limit, None).outcome != Failed(CyclesExceeded)
  {
    hide RunVm, IgnoresCycles;
    var p := RunVm(isa, id, vm, base, limit', budget);
    RunVmAt(isa, id, vm, base, limit', limit, budget);
    RunVmPausePrefix(isa, id, vm, base, limit, budget);
    RunVmShift(isa, id, Vm(p.vm.cpu, 0), p.vm, base', base, limit'', limit, None);
  }

  lemma {:induction false} ServeAllSplit(cap: nat, cache: Cache, needs: seq<Need>)
    requires needs != []
    ensures ServeAll(cap, cache, needs) == ServeAll(cap, ServeAll(cap, cache, [needs[0]]), needs[1..])
    ensures ServeAll(cap, cache, [needs[0]]) == Serve(cap, cache, needs[0])
  {
    assert [needs[0]][1..] == [];
  }

  /** The cache of a paused and resumed turn ends where that of an uninterrupted one does. */
  lemma CacheResumes(cap: nat, cache: Cache, id: VmId, needs: seq<Need>)
    requires cap >= 1 && |cache.resident| <= cap && needs != [] && needs[0] == Attend([id])
    ensures var c := ServeAll(cap, cache, [Attend([id])]); ServeAll(cap, c, needs) == ServeAll(cap, cache, needs)
  {
    hide Serve, ServeAll;
    var c := ServeAll(cap, cache, [Attend([id])]);
    ServeAllSplit(cap, cache, needs);
    AttendEffect(cap, cache, [id]);
    assert id in Elements([id]);
    AttendPresent(cap, c, [id]);
    ServeAllSplit(cap, c, needs);
  }

  /** Turns of an uninterrupted iteration (`t`), of one that was paused (`p`) and of the one
      that took it up again (`u`). */
  ghost predicate Resumes(c: Core, t: Turn, p: Turn, u: Turn) {
    && p.res == Err(Paused, p.res.w)
    && p.res.w.needs == [Attend([p.id])]
    && p.res.w.charged == 0
    && u.res == t.res
    && u.id == t.id == p.id
    && t.res.w.needs != [] && t.res.w.needs[0] == Attend([t.id])
    && u.cycles + p.cycles == t.cycles
    && u.ran + p.ran == t.ran
  }

  lemma TurnResumes(isa: Isa, c: Core, base: nat, base': nat, limit: nat, limit': nat, limit'': nat,
                    budget: Option<nat>)
    requires Inv(c) && !Exceeds(TakeTurn(isa, c, base, limit, None)) && PausedIn(TakeTurn(isa, c, base, limit', budget))
    requires Blind(isa, base, base', TakeTurn(isa, c, base, limit', budget).cycles)
    requires TakeTurn(isa, c, base, limit, None).cycles <= limit'' + TakeTurn(isa, c, base, limit', budget).cycles
    ensures var p := TakeTurn(isa, c, base, limit', budget);
            Resumes(c, TakeTurn(isa, c, base, limit, None), p, TakeTurn(isa, p.res.w.core, base', limit'', None))
  {
    hide TakeTurn, OnResult, RunVm, Max, Inv, Blind, BoxAfter;
    PausedTurn(isa, c, base, limit', budget);
    var id := Max(RunnableVms(c));
    var vm := c.vms[id];
    var r := RunVm(isa, id, vm, base, limit, None);
    var p := RunVm(isa, id, vm, base, limit', budget);
    TurnIs(isa, c, base, limit, None);
    TurnIs(isa, c, base, limit', budget);
    if r.outcome == Failed(CyclesExceeded) {
      FailedTurn(isa, c, id, r, CyclesExceeded);
    }
    RunResumes(isa, id, vm, base, base', limit, limit', limit'', budget);
    var c' := AfterRun(c, id, p).core;
    assert RunnableVms(c') == RunnableVms(c);
    TurnIs(isa, c', base', limit'', None);
    var u := RunVm(isa, id, c'.vms[id], base', limit'', None);
    assert c'.vms[id := Vm(u.vm.cpu, 0)] == c.vms[id := Vm(r.vm.cpu, 0)];
    SameBox(id, r, u);
    TurnAttends(isa, c, id, r);
  }

  lemma TurnResumed(isa: Isa, c: Core, base: nat, base': nat, limit: nat, limit': nat, limit'': nat,
                    budget: Option<nat>)
    requires Inv(c) && PausedIn(TakeTurn(isa, c, base, limit', budget))
    requires Blind(isa, base, base', TakeTurn(isa, c, base, limit', budget).cycles)
    requires limit'' + TakeTurn(isa, c, base, limit', budget).cycles <= limit
    requires !Exceeds(TakeTurn(isa, TakeTurn(isa, c, base, limit', budget).res.w.core, base', limit'', None))
    ensures !Exceeds(TakeTurn(isa, c, base, limit, None))
  {
    hide TakeTurn, OnResult, RunVm, Max, Inv, Blind, BoxAfter;
    PausedTurn(isa, c, base, limit', budget);
    var id := Max(RunnableVms(c));
    var p := RunVm(isa, id, c.vms[id], base, limit', budget);
    var c' := AfterRun(c, id, p).core;
    assert RunnableVms(c') == RunnableVms(c);
    TurnIs(isa, c', base', limit'', None);
    var u := RunVm(isa, id, c'.vms[id], base', limit'', None);
    if u.outcome == Failed(CyclesExceeded) {
      FailedTurn(isa, c', id, u, CyclesExceeded);
    }
    RunResumed(isa, id, c.vms[id], base, base', limit, limit', limit'', budget);
    TurnIs(isa, c, base, limit, None);
    var r := RunVm(isa, id, c.vms[id], base, limit, None);
    TurnKeeps(isa, c, id, r);
  }

  lemma SameBox(id: VmId, r: RunResult, r': RunResult)
    requires r'.posted == r.posted
    ensures BoxAfter(id, r') == BoxAfter(id, r)
  {
  }

  predicate PausedIn(t: Turn) {
    t.res.Err? && t.res.error == Paused
  }

  predicate PausesIn(isa: Isa, s: System, limit: nat, budget: Option<nat>) {
    PausedIn(TakeTurn(isa, s.core, s.total, limit, budget))
  }

  // ----- Iterations -----

  /** Where the accounts meet again. */
  lemma AccountResumes(cap: nat, s: System, c: Core, t: Turn, p: Turn, u: Turn)
    requires cap >= 1 && |s.cache.resident| <= cap && Resumes(c, t, p, u)
    ensures var a := Account(cap, s, t.res.w, t.cycles, t.ran);
            var a1 := Account(cap, s, p.res.w, p.cycles, p.ran);
            var a2 := Account(cap, a1.(total := a1.total + a1.iteration, iteration := 0), u.res.w, u.cycles, u.ran);
            && a1.iteration <= a.iteration
            && a2 == a.(total := a1.total + a1.iteration, iteration := a.iteration - a1.iteration)
            && a.total == s.total && a1.total == s.total
  {
    hide ServeAll;
    CacheResumes(cap, s.cache, t.id, t.res.w.needs);
    ServeAllCounts(cap, s.cache, p.res.w.needs);
    ServeAllCounts(cap, ServeAll(cap, s.cache, p.res.w.needs), u.res.w.needs);
  }

  /** The system of a paused iteration: its machine has moved on, and its cycles are in the total. */
  lemma PausedState(isa: Isa, cap: nat, s: System, limit: nat, budget: Option<nat>)
    requires Inv(s.core) && Quiescent(s.core) && PausesIn(isa, s, limit, budget)
    ensures var a := AfterTurn(isa, cap, s, limit, budget);
            && Inv(a.core) && Quiescent(a.core) && !IsTerminated(a.core)
            && a.total == s.total && a.core == TakeTurn(isa, s.core, s.total, limit, budget).res.w.core
            && TakeTurn(isa, s.core, s.total, limit, budget).cycles <= a.iteration
            && Iterate(isa, cap, s, limit, budget)
               == if a.iteration > limit then Broke(a.(total := a.total + a.iteration), CyclesExceeded)
                  else Broke(a.(total := a.total + a.iteration, iteration := 0), Paused)
  {
    hide TakeTurn, ProcessIo, ServeAll, Inv, Quiescent, IsTerminated;
    PausedKeeps(isa, s.core, s.total, limit, budget);
    var a := AfterTurn(isa, cap, s, limit, budget);
    QuiescentIo(a.core);
    AccountIdle(cap, a.(total := a.total + a.iteration, iteration := 0));
  }

  /** What an iteration makes of its turn. */
  lemma IterateIs(isa: Isa, cap: nat, s: System, limit: nat)
    requires Inv(s.core) && Quiescent(s.core)
    ensures var t := TakeTurn(isa, s.core, s.total, limit, None);
            Exceeds(t) || AfterTurn(isa, cap, s, limit, None).iteration > limit ==>
              Breaks(Iterate(isa, cap, s, limit, None), CyclesExceeded)
  {
    hide TakeTurn, ProcessIo, ServeAll, Inv, Quiescent;
    if Exceeds(TakeTurn(isa, s.core, s.total, limit, None)) {
      ExceededBreaks(isa, cap, s, limit, None);
    }
  }

  /** What is left of `limit` after a part of a run. */
  function Left(limit: nat, before: System, after: System): nat
    requires before.total <= after.total <= before.total + limit
  {
    before.total + limit - after.total
  }

  /** Both hit the limit, or they are the same. */
  predicate Alike(i: Iteration, i': Iteration) {
    (Breaks(i, CyclesExceeded) && Breaks(i', CyclesExceeded)) || i == i'
  }

  /** Turns that fit make iterations that are alike. */
  lemma ResumedAlike(isa: Isa, cap: nat, s: System, p: System, limit: nat, limit': nat, pt: Turn)
    requires cap >= 1 && |s.cache.resident| <= cap && Inv(s.core) && Quiescent(s.core) && Inv(p.core)
             && Quiescent(p.core)
    requires Resumes(s.core, TakeTurn(isa, s.core, s.total, limit, None), pt,
                     TakeTurn(isa, p.core, p.total, limit', None))
    requires var a := Account(cap, s, pt.res.w, pt.cycles, pt.ran);
             p == a.(total := a.total + a.iteration, iteration := 0) && a.iteration <= limit
             && limit' == limit - a.iteration
    ensures Alike(Iterate(isa, cap, s, limit, None), Iterate(isa, cap, p, limit', None))
  {
    hide TakeTurn, ProcessIo, ServeAll, Inv, Quiescent;
    var t, u := TakeTurn(isa, s.core, s.total, limit, None), TakeTurn(isa, p.core, p.total, limit', None);
    TurnWithoutSignal(isa, s.core, s.total, limit);
    TurnWithoutSignal(isa, p.core, p.total, limit');
    AccountResumes(cap, s, s.core, t, pt, u);
  }

  lemma TurnWithoutSignal(isa: Isa, c: Core, base: nat, limit: nat)
    ensures TakeTurn(isa, c, base, limit, None).budget.None?
  {
    hide OnResult;
  }

  /** The part of an iteration up to a pause costs no more than all of it. */
  lemma PauseCosts(isa: Isa, cap: nat, s: System, limit: nat, limit': nat, budget: Option<nat>)
    requires cap >= 1 && |s.cache.resident| <= cap && Inv(s.core) && Quiescent(s.core)
             && PausesIn(isa, s, limit', budget)
    ensures !Exceeds(TakeTurn(isa, s.core, s.total, limit, None)) ==>
              AfterTurn(isa, cap, s, limit', budget).iteration <= AfterTurn(isa, cap, s, limit, None).iteration
    ensures AfterTurn(isa, cap, s, limit', budget).iteration > limit ==>
              Breaks(Iterate(isa, cap, s, limit, None), CyclesExceeded)
  {
    hide TakeTurn, Iterate, ServeAll, Inv, Quiescent, IgnoresCycles;
    var t, p := TakeTurn(isa, s.core, s.total, limit, None), TakeTurn(isa, s.core, s.total, limit', budget);
    if !Exceeds(t) {
      TurnResumes(isa, s.core, s.total, s.total + p.cycles, limit, limit', t.cycles, budget);
      AccountResumes(cap, s, s.core, t, p, TakeTurn(isa, p.res.w.core, s.total + p.cycles, t.cycles, None));
    }
    IterateIs(isa, cap, s, limit);
  }

  /** An iteration that was paused under any limit and is taken up again with what is left of
      `limit` ends like the uninterrupted iteration under `limit`. */
  lemma IteratePaused(isa: Isa, cap: nat, s: System, p: System, limit: nat, limit': nat, budget: Option<nat>)
    requires cap >= 1 && |s.cache.resident| <= cap && Inv(s.core) && Quiescent(s.core)
             && PausesIn(isa, s, limit', budget)
    requires Iterate(isa, cap, s, limit', budget) == Broke(p, Paused) && s.total <= p.total <= s.total + limit
    requires Blind(isa, s.total, p.total, TakeTurn(isa, s.core, s.total, limit', budget).cycles)
    ensures Alike(Iterate(isa, cap, s, limit, None), Iterate(isa, cap, p, Left(limit, s, p), None))
  {
    hide TakeTurn, Iterate, ServeAll, Inv, Quiescent, Blind, IsTerminated, Resumes;
    PausedState(isa, cap, s, limit', budget);
    var left := Left(limit, s, p);
    var t, pt := TakeTurn(isa, s.core, s.total, limit, None), TakeTurn(isa, s.core, s.total, limit', budget);
    var u := TakeTurn(isa, p.core, p.total, left, None);
    IterateIs(isa, cap, s, limit);
    IterateIs(isa, cap, p, left);
    if Exceeds(t) {
      if !Exceeds(u) {
        TurnResumed(isa, s.core, s.total, p.total, limit, limit', left, budget);
      }
    } else if t.cycles <= left + pt.cycles {
      TurnResumes(isa, s.core, s.total, p.total, limit, limit', left, budget);
      ResumedAlike(isa, cap, s, p, limit, left, pt);
    } else {
      PausedOverruns(isa, cap, s, p, limit, limit', budget);
    }
  }

  /** The same when the uninterrupted turn is within the limit and the iteration is not. */
  lemma PausedOverruns(isa: Isa, cap: nat, s: System, p: System, limit: nat, limit': nat, budget: Option<nat>)
    requires cap >= 1 && |s.cache.resident| <= cap && Inv(s.core) && Quiescent(s.core)
             && PausesIn(isa, s, limit', budget)
    requires Iterate(isa, cap, s, limit', budget) == Broke(p, Paused) && s.total <= p.total <= s.total + limit
    requires Blind(isa, s.total, p.total, TakeTurn(isa, s.core, s.total, limit', budget).cycles)
    requires !Exceeds(TakeTurn(isa, s.core, s.total, limit, None))
    requires TakeTurn(isa, s.core, s.total, limit, None).cycles
             > Left(limit, s, p) + TakeTurn(isa, s.core, s.total, limit', budget).cycles
    ensures Breaks(Iterate(isa, cap, s, limit, None), CyclesExceeded)
    ensures Breaks(Iterate(isa, cap, p, Left(limit, s, p), None), CyclesExceeded)
  {
    hide TakeTurn, Iterate, ServeAll, Inv, Quiescent, Blind, IsTerminated;
    PausedState(isa, cap, s, limit', budget);
    var left := Left(limit, s, p);
    var t, pt := TakeTurn(isa, s.core, s.total, limit, None), TakeTurn(isa, s.core, s.total, limit', budget);
    var most := left + t.cycles;
    TurnResumes(isa, s.core, s.total, p.total, limit, limit', most, budget);
    var u, v := TakeTurn(isa, p.core, p.total, left, None), TakeTurn(isa, p.core, p.total, most, None);
    AccountResumes(cap, s, s.core, t, pt, v);
    if !Exceeds(u) {
      TurnSame(isa, p.core, p.total, p.total, left, most, None);
    }
    IterateIs(isa, cap, s, limit);
    IterateIs(isa, cap, p, left);
  }

  lemma IterateUnpaused(isa: Isa, cap: nat, s: System, limit: nat, budget: Option<nat>)
    requires Inv(s.core) && !PausesIn(isa, s, limit, budget)
    ensures var i := Iterate(isa, cap, s, limit, budget);
            Iterate(isa, cap, s, limit, None) == if i.Iterated? then i.(budget := None) else i
  {
    hide TakeTurn, ProcessIo, ServeAll, Inv;
    TurnNotPaused(isa, s.core, s.total, limit, budget);
  }

  /** An iteration that does not hit its limit costs the same under any limit: those not below
      the cost do not matter, the others are hit. */
  lemma IterateAt(isa: Isa, cap: nat, s: System, limit: nat, limit': nat)
    requires Inv(s.core) && Quiescent(s.core) && !Breaks(Iterate(isa, cap, s, limit, None), CyclesExceeded)
    ensures var i, i' := Iterate(isa, cap, s, limit, None), Iterate(isa, cap, s, limit', None);
            && s.total <= i.s.total <= s.total + limit
            && (i.Iterated? ==> i.remaining == Left(limit, s, i.s) && i.budget.None?)
            && (i.s.total <= s.total + limit' ==> i' == if i.Iterated? then i.(remaining := Left(limit', s, i.s))
                                                        else i)
            && (i.s.total > s.total + limit' ==> Breaks(i', CyclesExceeded))
  {
    hide TakeTurn, ProcessIo, ServeAll, Inv, Quiescent;
    var t, t' := TakeTurn(isa, s.core, s.total, limit, None), TakeTurn(isa, s.core, s.total, limit', None);
    TurnWithoutSignal(isa, s.core, s.total, limit);
    IterateIs(isa, cap, s, limit);
    IterateIs(isa, cap, s, limit');
    var a := AfterTurn(isa, cap, s, limit, None);
    if a.iteration <= limit' {
      TurnAt(isa, s.core, s.total, limit, limit', None);
    } else if !Exceeds(t') {
      TurnSame(isa, s.core, s.total, s.total, limit', limit, None);
    }
  }

  // ----- Runs -----

  /** Same state and same error in the end. */
  predicate SameResult(r: Run, r': Run) {
    r'.s == r.s && r'.Done? == r.Done? && (r.Stopped? ==> r'.error == r.error)
  }

  predicate IsPaused(r: Run) {
    r.Stopped? && r.error == Paused
  }

  lemma NoSignal(isa: Isa, s: System, limit: nat)
    requires Inv(s.core)
    ensures !PausesIn(isa, s, limit, None)
  {
    hide TakeTurn, Inv;
    if PausesIn(isa, s, limit, None) {
      PausedTurn(isa, s.core, s.total, limit, None);
    }
  }

  lemma NotPaused(isa: Isa, cap: nat, s: System, limit: nat, budget: Option<nat>)
    requires Inv(s.core) && !PausesIn(isa, s, limit, budget)
    ensures !Breaks(Iterate(isa, cap, s, limit, budget), Paused)
  {
    hide TakeTurn, ProcessIo, ServeAll, Inv, Live, Finished, VmsOk;
    TakeTurnKeeps(isa, s.core, s.total, limit, budget);
    var c := TakeTurn(isa, s.core, s.total, limit, budget).res.w.core;
    if Finished(c) {
      QuiescentIo(c);
    } else {
      LiveVms(c);
      IoCore(c);
    }
  }

  lemma NoBudget(isa: Isa, cap: nat, s: System, limit: nat)
    ensures var i := Iterate(isa, cap, s, limit, None); i.Iterated? ==> i.budget.None?
  {
    hide OnResult, ProcessIo, ServeAll;
  }

  lemma {:induction false} RunGrows(isa: Isa, cap: nat, s: System, limit: nat, budget: Option<nat>)
    ensures s.total <= RunFrom(isa, cap, s, limit, budget).s.total
    decreases limit
  {
    hide RunFrom, Iterate, IsTerminated;
    if IsTerminated(s.core) {
      RunOfEnded(isa, cap, s, limit, budget);
    } else {
      RunStep(isa, cap, s, limit, budget);
      IterateGrows(isa, cap, s, limit, budget);
      var i := Iterate(isa, cap, s, limit, budget);
      if i.Iterated? {
        RunGrows(isa, cap, i.s, i.remaining, i.budget);
      }
    }
  }

  lemma IterateGrows(isa: Isa, cap: nat, s: System, limit: nat, budget: Option<nat>)
    ensures s.total <= Iterate(isa, cap, s, limit, budget).s.total
  {
    hide TakeTurn, ProcessIo, ServeAll;
  }

  lemma {:induction false} ChunksGrow(isa: Isa, cap: nat, s: System, chunk: Chunk, rest: seq<Chunk>)
    ensures s.total <= RunChunks(isa, cap, s, chunk, rest).s.total
    decreases |rest|
  {
    hide RunFrom;
    RunGrows(isa, cap, s, chunk.limit, chunk.budget);
    var r := RunFrom(isa, cap, s, chunk.limit, chunk.budget);
    if IsPaused(r) && rest != [] {
      ChunksGrow(isa, cap, r.s, rest[0], rest[1..]);
    }
  }

  /** Every part has at least as much of a limit as is left of `limit` when it begins. */
  predicate Ample(isa: Isa, cap: nat, s: System, limit: nat, chunk: Chunk, rest: seq<Chunk>)
    decreases |rest|
  {
    && chunk.limit >= limit
    && var r := RunFrom(isa, cap, s, chunk.limit, chunk.budget);
       (IsPaused(r) && rest != [] && s.total <= r.s.total <= s.total + limit ==>
         Ample(isa, cap, r.s, Left(limit, s, r.s), rest[0], rest[1..]))
  }

  /** A run `r` in parts that began with `total` cycles, compared with the uninterrupted run `u`
      under `limit`. If no limit was hit in `r`, then that of `u` was hit if and only if `r`
      consumed more; otherwise the two ended in the same state. If a limit was hit in `r`
      although it was ample, then that of `u` was hit. */
  predicate Compares(u: Run, r: Run, total: nat, limit: nat, ample: bool) {
    || IsPaused(r)
    || (if HitsLimit(r) then ample ==> HitsLimit(u)
        else (HitsLimit(u) <==> r.s.total > total + limit) && (!HitsLimit(u) ==> SameResult(u, r)))
  }

  /** A run in parts whose first iteration ran to its end. */
  lemma ChunksStep(isa: Isa, cap: nat, s: System, limit: nat, chunk: Chunk, rest: seq<Chunk>)
    requires !IsTerminated(s.core) && Iterate(isa, cap, s, chunk.limit, chunk.budget).Iterated?
    ensures var i := Iterate(isa, cap, s, chunk.limit, chunk.budget);
            var r, r' := RunChunks(isa, cap, s, chunk, rest),
                RunChunks(isa, cap, i.s, Chunk(i.remaining, i.budget), rest);
            && SameResult(r', r)
            && (Ample(isa, cap, s, limit, chunk, rest) && s.total <= i.s.total <= s.total + limit
                && i.remaining == s.total + chunk.limit - i.s.total ==>
                  Ample(isa, cap, i.s, Left(limit, s, i.s), Chunk(i.remaining, i.budget), rest))
  {
    hide RunFrom, Iterate, IsTerminated;
    RunStep(isa, cap, s, chunk.limit, chunk.budget);
    var i := Iterate(isa, cap, s, chunk.limit, chunk.budget);
    RunGrows(isa, cap, i.s, i.remaining, i.budget);
  }

  /** However a run is split by pauses, it compares with the uninterrupted run. */
  lemma {:induction false} SplitRunCompares(isa: Isa, cap: nat, s: System, limit: nat, chunk: Chunk, rest: seq<Chunk>)
    requires IgnoresCycles(isa) && cap >= 2 && (SysInv(cap, s) || Ended(cap, s))
    ensures Compares(RunFrom(isa, cap, s, limit, None), RunChunks(isa, cap, s, chunk, rest), s.total, limit,
                     Ample(isa, cap, s, limit, chunk, rest))
    decreases |rest|, chunk.limit
  {
    hide RunFrom, Iterate, IsTerminated, IgnoresCycles, SysInv, Ended, Inv, Quiescent, PausesIn, Ample;
    EndedIsTerminated(cap, s);
    if IsTerminated(s.core) {
      RunOfEnded(isa, cap, s, limit, None);
      RunOfEnded(isa, cap, s, chunk.limit, chunk.budget);
    } else {
      SysInvCore(cap, s);
      RunStep(isa, cap, s, chunk.limit, chunk.budget);
      IterateKeeps(isa, cap, s, chunk.limit, chunk.budget);
      var i := Iterate(isa, cap, s, chunk.limit, chunk.budget);
      if PausesIn(isa, s, chunk.limit, chunk.budget) {
        if Breaks(i, Paused) && rest != [] && s.total <= i.s.total <= s.total + limit {
          SplitRunCompares(isa, cap, i.s, Left(limit, s, i.s), rest[0], rest[1..]);
        }
        AfterPause(isa, cap, s, limit, chunk, rest);
      } else {
        if i.Iterated? && s.total <= i.s.total <= s.total + limit {
          SplitRunCompares(isa, cap, i.s, Left(limit, s, i.s), Chunk(i.remaining, i.budget), rest);
        }
        AfterStep(isa, cap, s, limit, chunk, rest);
      }
    }
  }

  /** The case of a pause in the first iteration. */
  lemma AfterPause(isa: Isa, cap: nat, s: System, limit: nat, chunk: Chunk, rest: seq<Chunk>)
    requires IgnoresCycles(isa) && cap >= 2 && SysInv(cap, s) && PausesIn(isa, s, chunk.limit, chunk.budget)
    requires var i := Iterate(isa, cap, s, chunk.limit, chunk.budget);
             Breaks(i, Paused) && rest != [] && s.total <= i.s.total <= s.total + limit ==>
               Compares(RunFrom(isa, cap, i.s, Left(limit, s, i.s), None), RunChunks(isa, cap, i.s, rest[0], rest[1..]),
                        i.s.total,
                        Left(limit, s, i.s), Ample(isa, cap, i.s, Left(limit, s, i.s), rest[0], rest[1..]))
    ensures Compares(RunFrom(isa, cap, s, limit, None), RunChunks(isa, cap, s, chunk, rest), s.total, limit,
                     Ample(isa, cap, s, limit, chunk, rest))
  {
    hide RunFrom, Iterate, IsTerminated, IgnoresCycles, SysInv, Inv, Quiescent, PausesIn, AfterTurn;
    EndedIsTerminated(cap, s);
    SysInvCore(cap, s);
    RunStep(isa, cap, s, chunk.limit, chunk.budget);
    RunStep(isa, cap, s, limit, None);
    PausedState(isa, cap, s, chunk.limit, chunk.budget);
    PauseCosts(isa, cap, s, limit, chunk.limit, chunk.budget);
    var i := Iterate(isa, cap, s, chunk.limit, chunk.budget);
    if i.error == Paused && rest != [] {
      ChunksGrow(isa, cap, i.s, rest[0], rest[1..]);
      if i.s.total <= s.total + limit {
        IteratePaused(isa, cap, s, i.s, limit, chunk.limit, chunk.budget);
        RunStep(isa, cap, i.s, Left(limit, s, i.s), None);
      }
    }
  }

  /** The case of a first iteration that is not paused. */
  lemma AfterStep(isa: Isa, cap: nat, s: System, limit: nat, chunk: Chunk, rest: seq<Chunk>)
    requires cap >= 2 && SysInv(cap, s) && !PausesIn(isa, s, chunk.limit, chunk.budget)
    requires var i := Iterate(isa, cap, s, chunk.limit, chunk.budget);
             i.Iterated? && s.total <= i.s.total <= s.total + limit ==>
               Compares(RunFrom(isa, cap, i.s, Left(limit, s, i.s), None),
                        RunChunks(isa, cap, i.s, Chunk(i.remaining, i.budget), rest), i.s.total, Left(limit, s, i.s),
                        Ample(isa, cap, i.s, Left(limit, s, i.s), Chunk(i.remaining, i.budget), rest))
    ensures Compares(RunFrom(isa, cap, s, limit, None), RunChunks(isa, cap, s, chunk, rest), s.total, limit,
                     Ample(isa, cap, s, limit, chunk, rest))
  {
    hide RunFrom, Iterate, IsTerminated, SysInv, Inv, Quiescent, PausesIn;
    EndedIsTerminated(cap, s);
    SysInvCore(cap, s);
    RunStep(isa, cap, s, chunk.limit, chunk.budget);
    RunStep(isa, cap, s, limit, None);
    NotPaused(isa, cap, s, chunk.limit, chunk.budget);
    IterateUnpaused(isa, cap, s, chunk.limit, chunk.budget);
    var i := Iterate(isa, cap, s, chunk.limit, chunk.budget);
    if Breaks(i, CyclesExceeded) {
      if !Breaks(Iterate(isa, cap, s, limit, None), CyclesExceeded) {
        IterateAt(isa, cap, s, limit, chunk.limit);
      }
    } else {
      IterateAt(isa, cap, s, chunk.limit, limit);
      if i.Iterated? {
        hide Ample;
        ChunksStep(isa, cap, s, limit, chunk, rest);
        ChunksGrow(isa, cap, i.s, Chunk(i.remaining, i.budget), rest);
      }
    }
  }

  lemma {:induction false} WithoutSignal(isa: Isa, cap: nat, s: System, limit: nat)
    requires cap >= 2 && (SysInv(cap, s) || Ended(cap, s))
    ensures var r := RunFrom(isa, cap, s, limit, None); !(r.Stopped? && r.error == Paused)
    decreases limit
  {
    hide Iterate, SysInv, Ended, IsTerminated, Inv, Quiescent, PausesIn, RunFrom;
    EndedIsTerminated(cap, s);
    if IsTerminated(s.core) {
      RunOfEnded(isa, cap, s, limit, None);
    } else {
      SysInvCore(cap, s);
      RunStep(isa, cap, s, limit, None);
      NoSignal(isa, s, limit);
      NotPaused(isa, cap, s, limit, None);
      NoBudget(isa, cap, s, limit);
      IterateKeeps(isa, cap, s, limit, None);
      var i := Iterate(isa, cap, s, limit, None);
      if i.Iterated? {
        WithoutSignal(isa, cap, i.s, i.remaining);
      }
    }
  }

  lemma {:induction false} LastPartEnds(isa: Isa, cap: nat, s: System, chunk: Chunk, rest: seq<Chunk>)
    requires cap >= 2 && SysInv(cap, s)
    requires (if rest == [] then chunk else rest[|rest| - 1]).budget.None?
    ensures var r := RunChunks(isa, cap, s, chunk, rest); !(r.Stopped? && r.error == Paused)
    decreases |rest|
  {
    hide RunFrom, SysInv, Ended, SchedulerDeadlock.Stuck;
    RunKeeps(isa, cap, s, chunk.limit, chunk.budget);
    var r := RunFrom(isa, cap, s, chunk.limit, chunk.budget);
    if chunk.budget.None? {
      WithoutSignal(isa, cap, s, chunk.limit);
    } else if r.Stopped? && r.error == Paused {
      LastPartEnds(isa, cap, r.s, rest[0], rest[1..]);
    }
  }

  // ----- Limits of the parts -----

  /** Parts that all have at least `limit`. */
  predicate EachAtLeast(limit: nat, chunk: Chunk, rest: seq<Chunk>) {
    chunk.limit >= limit && forall i :: 0 <= i < |rest| ==> rest[i].limit >= limit
  }

  lemma {:induction false} AtLeastIsAmple(isa: Isa, cap: nat, s: System, limit: nat, limit': nat, chunk: Chunk,
                                          rest: seq<Chunk>)
    requires EachAtLeast(limit, chunk, rest) && limit' <= limit
    ensures Ample(isa, cap, s, limit', chunk, rest)
    decreases |rest|
  {
    hide RunFrom;
    var r := RunFrom(isa, cap, s, chunk.limit, chunk.budget);
    if IsPaused(r) && rest != [] && s.total <= r.s.total <= s.total + limit' {
      AtLeastIsAmple(isa, cap, r.s, limit, Left(limit', s, r.s), rest[0], rest[1..]);
    }
  }

  /** Parts that each have the full limit: the uninterrupted run hits it if and only if a part
      does or the parts consumed more than it together; otherwise both end in the same state, with
      the same exit code, memories and total of cycles. */
  lemma PausesAreTransparent(isa: Isa, cap: nat, s: System, limit: nat, chunk: Chunk, rest: seq<Chunk>)
    requires IgnoresCycles(isa) && cap >= 2 && (SysInv(cap, s) || Ended(cap, s)) && EachAtLeast(limit, chunk, rest)
    ensures var u, r := RunFrom(isa, cap, s, limit, None), RunChunks(isa, cap, s, chunk, rest);
            || IsPaused(r)
            || ((HitsLimit(u) <==> HitsLimit(r) || r.s.total > s.total + limit) && (!HitsLimit(u) ==> SameResult(u, r)))
  {
    hide RunFrom, RunChunks, IgnoresCycles, SysInv, Ended, Ample;
    SplitRunCompares(isa, cap, s, limit, chunk, rest);
    AtLeastIsAmple(isa, cap, s, limit, limit, chunk, rest);
  }

  /** The parts of a run that share one limit: each gets what the parts before it have left. */
  function Parts(isa: Isa, cap: nat, s: System, limit: nat, budget: Option<nat>, rest: seq<Option<nat>>): seq<Chunk>
    decreases |rest|
  {
    var r := RunFrom(isa, cap, s, limit, budget);
    if rest != [] && IsPaused(r) && s.total <= r.s.total <= s.total + limit then
      var left := Left(limit, s, r.s);
      [Chunk(left, rest[0])] + Parts(isa, cap, r.s, left, rest[0], rest[1..])
    else []
  }

  lemma {:induction false} PartsAreAmple(isa: Isa, cap: nat, s: System, limit: nat, budget: Option<nat>,
                                         rest: seq<Option<nat>>)
    ensures Ample(isa, cap, s, limit, Chunk(limit, budget), Parts(isa, cap, s, limit, budget, rest))
    decreases |rest|
  {
    hide RunFrom;
    var r := RunFrom(isa, cap, s, limit, budget);
    if rest != [] && IsPaused(r) && s.total <= r.s.total <= s.total + limit {
      PartsAreAmple(isa, cap, r.s, Left(limit, s, r.s), rest[0], rest[1..]);
      var parts := Parts(isa, cap, s, limit, budget, rest);
      assert parts[1..] == Parts(isa, cap, r.s, Left(limit, s, r.s), rest[0], rest[1..]);
    }
  }

  /** A run that does not hit its limit stays within it. */
  lemma {:induction false} RunWithin(isa: Isa, cap: nat, s: System, limit: nat, budget: Option<nat>)
    requires cap >= 2 && (SysInv(cap, s) || Ended(cap, s)) && !HitsLimit(RunFrom(isa, cap, s, limit, budget))
    ensures s.total <= RunFrom(isa, cap, s, limit, budget).s.total <= s.total + limit
    decreases limit
  {
    hide RunFrom, Iterate, IsTerminated, SysInv, Ended;
    RunGrows(isa, cap, s, limit, budget);
    EndedIsTerminated(cap, s);
    if IsTerminated(s.core) {
      RunOfEnded(isa, cap, s, limit, budget);
    } else {
      RunStep(isa, cap, s, limit, budget);
      IterateKeeps(isa, cap, s, limit, budget);
      IterateWithin(isa, cap, s, limit, budget);
      var i := Iterate(isa, cap, s, limit, budget);
      if i.Iterated? {
        RunWithin(isa, cap, i.s, i.remaining, i.budget);
      }
    }
  }

  lemma IterateWithin(isa: Isa, cap: nat, s: System, limit: nat, budget: Option<nat>)
    ensures var i := Iterate(isa, cap, s, limit, budget);
            Breaks(i, CyclesExceeded) || i.s.total <= s.total + limit
  {
    hide TakeTurn, ProcessIo, ServeAll;
  }

  lemma {:induction false} PartsWithin(isa: Isa, cap: nat, s: System, limit: nat, budget: Option<nat>,
                                       rest: seq<Option<nat>>)
    requires cap >= 2 && SysInv(cap, s)
    ensures var r := RunChunks(isa, cap, s, Chunk(limit, budget), Parts(isa, cap, s, limit, budget, rest));
            && (HitsLimit(r) || r.s.total <= s.total + limit)
            && (IsPaused(r) ==> |Parts(isa, cap, s, limit, budget, rest)| == |rest|)
    decreases |rest|
  {
    hide RunFrom, SysInv, Ended, SchedulerDeadlock.Stuck;
    var r := RunFrom(isa, cap, s, limit, budget);
    if !HitsLimit(r) {
      RunWithin(isa, cap, s, limit, budget);
    }
    RunKeeps(isa, cap, s, limit, budget);
    if rest != [] && IsPaused(r) {
      var left := Left(limit, s, r.s);
      var parts := Parts(isa, cap, s, limit, budget, rest);
      assert parts[1..] == Parts(isa, cap, r.s, left, rest[0], rest[1..]);
      PartsWithin(isa, cap, r.s, left, rest[0], rest[1..]);
    }
  }

  lemma {:induction false} PartsBudgets(isa: Isa, cap: nat, s: System, limit: nat, budget: Option<nat>,
                                        rest: seq<Option<nat>>)
    ensures var parts := Parts(isa, cap, s, limit, budget, rest);
            |parts| <= |rest| && forall i :: 0 <= i < |parts| ==> parts[i].budget == rest[i]
    decreases |rest|
  {
    hide RunFrom;
    var r := RunFrom(isa, cap, s, limit, budget);
    if rest != [] && IsPaused(r) && s.total <= r.s.total <= s.total + limit {
      PartsBudgets(isa, cap, r.s, Left(limit, s, r.s), rest[0], rest[1..]);
    }
  }

  /** Parts that share one limit end like the uninterrupted run under it, also when the limit
      is hit. If there is no pause in the last of them, they do end. */
  lemma SharedLimitIsTransparent(isa: Isa, cap: nat, s: System, limit: nat, budget: Option<nat>, rest: seq<Option<nat>>)
    requires IgnoresCycles(isa) && cap >= 2 && SysInv(cap, s)
    ensures var u := RunFrom(isa, cap, s, limit, None);
            var r := RunChunks(isa, cap, s, Chunk(limit, budget), Parts(isa, cap, s, limit, budget, rest));
            && (IsPaused(r) || ((HitsLimit(r) <==> HitsLimit(u)) && (!HitsLimit(u) ==> SameResult(u, r))))
            && ((if rest == [] then budget else rest[|rest| - 1]).None? ==> !IsPaused(r))
  {
    hide RunFrom, RunChunks, IgnoresCycles, SysInv, Ended, Ample, Parts;
    var parts := Parts(isa, cap, s, limit, budget, rest);
    SplitRunCompares(isa, cap, s, limit, Chunk(limit, budget), parts);
    PartsAreAmple(isa, cap, s, limit, budget, rest);
    PartsWithin(isa, cap, s, limit, budget, rest);
    PartsBudgets(isa, cap, s, limit, budget, rest);
    if |parts| == |rest| && (if rest == [] then budget else rest[|rest| - 1]).None? {
      LastPartEnds(isa, cap, s, Chunk(limit, budget), parts);
    }
  }

  /** Whole scripts, resumed with the full limit each time, whose last part is not paused: what
      is consumed in the end decides whether the limit was kept. */
  lemma PausesDoNotMatter(isa: Isa, program: Location, args: seq<seq<Byte>>, limit: nat, chunk: Chunk, rest: seq<Chunk>)
    requires IgnoresCycles(isa) && Boot(isa, MAX_INSTANTIATED_VMS, program, args).Done?
             && EachAtLeast(limit, chunk, rest)
    requires (if rest == [] then chunk else rest[|rest| - 1]).budget.None?
    ensures var s := Boot(isa, MAX_INSTANTIATED_VMS, program, args).s;
            var u, r := RunFrom(isa, MAX_INSTANTIATED_VMS, s, limit, None),
                RunChunks(isa, MAX_INSTANTIATED_VMS, s, chunk, rest);
            && (HitsLimit(u) <==> HitsLimit(r) || r.s.total > limit)
            && (!HitsLimit(u) ==> SameResult(u, r))
  {
    hide RunFrom, RunChunks, IgnoresCycles, SysInv, Boot;
    BootKeeps(isa, MAX_INSTANTIATED_VMS, program, args);
    var s := Boot(isa, MAX_INSTANTIATED_VMS, program, args).s;
    BootedTotal(isa, program, args);
    PausesAreTransparent(isa, MAX_INSTANTIATED_VMS, s, limit, chunk, rest);
    LastPartEnds(isa, MAX_INSTANTIATED_VMS, s, chunk, rest);
  }

  /** When a script hits its limit, told from the run that keeps every machine resident: if and only
      if that run and the moves of the script together cost more. `most` is a limit under which the
      script ends. */
  lemma ResidencyAndLimit(isa: Isa, program: Location, args: seq<seq<Byte>>, all: nat, limit: nat, most: nat,
                          limit': nat, s: System, s': System)
    requires IgnoresCycles(isa) && all > MAX_VMS_COUNT && most <= limit'
    requires Boot(isa, MAX_INSTANTIATED_VMS, program, args) == Done(s, []) && Boot(isa, all, program, args).s == s'
    requires !HitsLimit(RunFrom(isa, MAX_INSTANTIATED_VMS, s, most, None))
    ensures var u := RunFrom(isa, MAX_INSTANTIATED_VMS, s, limit, None);
            var r, r' := RunFrom(isa, MAX_INSTANTIATED_VMS, s, most, None), RunFrom(isa, all, s', limit', None);
            && (HitsLimit(u) <==>
                r'.s.total + r'.s.iteration + SPAWN_EXTRA_CYCLES_BASE * r.s.cache.swaps > limit + r.s.iteration)
            && (!HitsLimit(u) ==> u.Done? == r'.Done? && (u.Stopped? ==> u.error == r'.error) && u.s.core == r'.s.core)
            && (r'.Done? ==> r'.s.iteration == r.s.iteration == 0)
  {
    hide Boot, RunFrom, IgnoresCycles, SysInv, CacheOk, Ample;
    BootKeeps(isa, MAX_INSTANTIATED_VMS, program, args);
    BootedTotal(isa, program, args);
    BootResident(isa, MAX_INSTANTIATED_VMS, all, program, args);
    RunResident(isa, MAX_INSTANTIATED_VMS, all, s, s', most, limit', None);
    RunKeeps(isa, MAX_INSTANTIATED_VMS, s, most, None);
    SplitRunCompares(isa, MAX_INSTANTIATED_VMS, s, limit, Chunk(most, None), []);
    LastPartEnds(isa, MAX_INSTANTIATED_VMS, s, Chunk(most, None), []);
  }

  lemma BootedTotal(isa: Isa, program: Location, args: seq<seq<Byte>>)
    ensures Boot(isa, MAX_INSTANTIATED_VMS, program, args).s.total == 0
  {
    hide BootVm, ServeAll;
  }

  // ----- When a single pause can be seen -----

  /** Program `isa` ends its iteration in `s` under `limit` differently when it was paused under
      `limit'`, after `budget` instructions, and taken up again in `p` with what was left. */
  predicate SeesPause(isa: Isa, cap: nat, s: System, limit: nat, limit': nat, budget: Option<nat>, p: System) {
    && PausesIn(isa, s, limit', budget)
    && Iterate(isa, cap, s, limit', budget) == Broke(p, Paused)
    && s.total <= p.total <= s.total + limit
    && !Alike(Iterate(isa, cap, s, limit, None), Iterate(isa, cap, p, Left(limit, s, p), None))
  }

  /** No program sees a pause of the iteration that starts in `s`. */
  ghost predicate HidesPauses(cap: nat, s: System) {
    forall isa: Isa, limit: nat, limit': nat, budget: Option<nat>, p: System ::
      !SeesPause(isa, cap, s, limit, limit', budget, p)
  }

  /** The machine whose turn it is has not been moved, and no cost of a move is pending. */
  predicate NothingPending(s: System)
    requires RunnableVms(s.core) != {}
  {
    s.iteration == 0 && Max(RunnableVms(s.core)) in s.cache.resident
  }

  /** What a pause adds to the total beyond the cycles of the machine: the cost pending before and
      that of bringing the machine in. */
  lemma PausedTotal(isa: Isa, cap: nat, s: System, limit: nat, budget: Option<nat>, p: System)
    requires Inv(s.core) && Quiescent(s.core) && PausesIn(isa, s, limit, budget)
    requires Iterate(isa, cap, s, limit, budget) == Broke(p, Paused)
    ensures RunnableVms(s.core) != {}
    ensures var cache := Serve(cap, s.cache, Attend([Max(RunnableVms(s.core))]));
            && cache.swaps >= s.cache.swaps
            && p.total == s.total + TakeTurn(isa, s.core, s.total, limit, budget).cycles + s.iteration
                          + SwapCycles(s.cache, cache)
  {
    hide TakeTurn, Iterate, ServeAll, Serve, Inv, Quiescent, IsTerminated, RunVm, Max;
    PausedState(isa, cap, s, limit, budget);
    PausedTurn(isa, s.core, s.total, limit, budget);
    var needs := [Attend([Max(RunnableVms(s.core))])];
    ServeAllSplit(cap, s.cache, needs);
    ServeAllCounts(cap, s.cache, needs);
  }

  /** Bringing in a machine that is not resident counts as a move. */
  lemma AttendCosts(cap: nat, cache: Cache, id: VmId)
    requires cap >= 1 && id !in cache.resident
    ensures Serve(cap, cache, Attend([id])).swaps > cache.swaps
  {
    var missing := Missing(cache.resident, [id]);
    assert missing == [id];
    if |cache.resident| < cap {
      BringCounts(cap, Cache(cache.resident + {id}, cache.swaps + 1), [id], missing[..0]);
    } else {
      var others := cache.resident - Elements([id]);
      assert others == cache.resident;
      assert Ascending(others) != [];
      SwapInCounts(Cache(cache.resident - {Ascending(others)[0]} + {id}, cache.swaps + 2), Ascending(others)[1..],
                   missing[1..]);
    }
  }

  /** A program that fails at once, with one code when it sees `n` cycles and another otherwise. */
  function Teller(n: nat): Isa {
    Isa((id: VmId, cpu: Cpu, m: nat) => Fault(if m == n then 0 else 1), (l: Location) => None,
        (l: Location, a: ArgSource) => LoadFailed(0))
  }

  /** The cost of a turn of machine `id` in which nothing is executed. */
  function IdleCost(cap: nat, s: System, id: VmId): nat
    requires id in s.core.vms
  {
    var cache := Serve(cap, s.cache, Attend([id]));
    s.iteration + s.core.vms[id].cycles + if cache.swaps >= s.cache.swaps then SwapCycles(s.cache, cache) else 0
  }

  lemma MaxRuns(c: Core)
    requires Inv(c) && RunnableVms(c) != {}
    ensures Max(RunnableVms(c)) in c.vms
  {
    assert Max(RunnableVms(c)) in RunnableVms(c);
  }

  lemma FailedCosts(isa: Isa, cap: nat, s: System, limit: nat, budget: Option<nat>, r: RunResult)
    requires Inv(s.core) && RunnableVms(s.core) != {}
    requires Max(RunnableVms(s.core)) in s.core.vms
    requires var id := Max(RunnableVms(s.core));
             r == RunVm(isa, id, s.core.vms[id], s.total, limit, budget) && r.outcome.Failed? && r.vm == s.core.vms[id]
    ensures AfterTurn(isa, cap, s, limit, budget).iteration == IdleCost(cap, s, Max(RunnableVms(s.core)))
  {
    hide TakeTurn, ServeAll, Serve, Inv, Max, RunVm;
    var c, id := s.core, Max(RunnableVms(s.core));
    TurnIs(isa, c, s.total, limit, budget);
    FailedTurn(isa, c, id, r, r.outcome.error);
    ServeAllSplit(cap, s.cache, [Attend([id])]);
    ServeAllCounts(cap, s.cache, [Attend([id])]);
  }

  lemma AtOnceCosts(isa: Isa, cap: nat, s: System, limit: nat)
    requires Inv(s.core) && RunnableVms(s.core) != {} && Max(RunnableVms(s.core)) in s.core.vms
    ensures AfterTurn(isa, cap, s, limit, Some(0)).iteration == IdleCost(cap, s, Max(RunnableVms(s.core)))
  {
    hide AfterTurn, IdleCost, Inv, Max;
    var id := Max(RunnableVms(s.core));
    FailedCosts(isa, cap, s, limit, Some(0), RunVm(isa, id, s.core.vms[id], s.total, limit, Some(0)));
  }

  lemma TellerCosts(n: nat, cap: nat, s: System, limit: nat)
    requires Inv(s.core) && RunnableVms(s.core) != {} && Max(RunnableVms(s.core)) in s.core.vms
    ensures AfterTurn(Teller(n), cap, s, limit, None).iteration == IdleCost(cap, s, Max(RunnableVms(s.core)))
  {
    hide AfterTurn, IdleCost, Inv, Max;
    var id := Max(RunnableVms(s.core));
    FailedCosts(Teller(n), cap, s, limit, None, RunVm(Teller(n), id, s.core.vms[id], s.total, limit, None));
  }

  /** What becomes of it. */
  lemma TellerFails(n: nat, cap: nat, s: System, limit: nat)
    requires Inv(s.core) && Quiescent(s.core) && RunnableVms(s.core) != {} && Max(RunnableVms(s.core)) in s.core.vms
    requires limit >= AfterTurn(Teller(n), cap, s, limit, None).iteration
    ensures var i := Iterate(Teller(n), cap, s, limit, None);
            Breaks(i, VmError(if s.total + s.core.vms[Max(RunnableVms(s.core))].cycles == n then 0 else 1))
  {
    hide TakeTurn, ProcessIo, ServeAll, Inv, Quiescent, Max;
    var c, id := s.core, Max(RunnableVms(s.core));
    var r := RunVm(Teller(n), id, c.vms[id], s.total, limit, None);
    assert r == RunResult(c.vms[id], Failed(VmError(if s.total + c.vms[id].cycles == n then 0 else 1)), None, None);
    TurnIs(Teller(n), c, s.total, limit, None);
    FailedTurn(Teller(n), c, id, r, r.outcome.error);
    StillQuiescent(c, AfterRun(c, id, r).core);
    QuiescentIo(AfterRun(c, id, r).core);
  }

  lemma StillQuiescent(c: Core, d: Core)
    requires Quiescent(c) && SameShape(c, d)
    ensures Quiescent(d)
  {
  }

  /** A pause before the first instruction. */
  lemma PausedAtOnce(isa: Isa, cap: nat, s: System, limit: nat)
    requires Inv(s.core) && Quiescent(s.core) && RunnableVms(s.core) != {}
    requires limit >= AfterTurn(isa, cap, s, limit, Some(0)).iteration
    ensures Max(RunnableVms(s.core)) in s.core.vms && PausesIn(isa, s, limit, Some(0))
    ensures TakeTurn(isa, s.core, s.total, limit, Some(0)).cycles == s.core.vms[Max(RunnableVms(s.core))].cycles
    ensures var i := Iterate(isa, cap, s, limit, Some(0));
            && Breaks(i, Paused) && Inv(i.s.core) && Quiescent(i.s.core)
            && RunnableVms(i.s.core) == RunnableVms(s.core) && i.s.iteration == 0
            && i.s.cache == Serve(cap, s.cache, Attend([Max(RunnableVms(s.core))]))
            && Max(RunnableVms(s.core)) in i.s.core.vms && i.s.core.vms[Max(RunnableVms(s.core))].cycles == 0
  {
    var c := s.core;
    KeysAgree(c);
    var id := Max(RunnableVms(c));
    assert id in RunnableVms(c);
    var r := RunVm(isa, id, c.vms[id], s.total, limit, Some(0));
    hide TakeTurn, ProcessIo, ServeAll, Inv, Quiescent, Max, Iterate, IsTerminated;
    TurnIs(isa, c, s.total, limit, Some(0));
    FailedTurn(isa, c, id, r, Paused);
    PausedState(isa, cap, s, limit, Some(0));
    ServeAllSplit(cap, s.cache, [Attend([id])]);
    assert RunnableVms(AfterRun(c, id, r).core) == RunnableVms(c);
  }

  lemma HiddenPause(isa: Isa, cap: nat, s: System, limit: nat, limit': nat, budget: Option<nat>, p: System)
    requires cap >= 1 && |s.cache.resident| <= cap && Inv(s.core) && Quiescent(s.core) && RunnableVms(s.core) != {}
    requires NothingPending(s)
    ensures !SeesPause(isa, cap, s, limit, limit', budget, p)
  {
    hide Iterate, TakeTurn, Inv, Quiescent, Max, Serve, Alike;
    if SeesPause(isa, cap, s, limit, limit', budget, p) {
      PausedTotal(isa, cap, s, limit', budget, p);
      AttendPresent(cap, s.cache, [Max(RunnableVms(s.core))]);
      IteratePaused(isa, cap, s, p, limit, limit', budget);
    }
  }

  /** A program, a limit and a pause that it sees when something is pending. */
  lemma SeenPause(cap: nat, s: System) returns (n: nat, limit: nat, p: System)
    requires cap >= 1 && |s.cache.resident| <= cap && Inv(s.core) && Quiescent(s.core) && RunnableVms(s.core) != {}
    requires !NothingPending(s)
    ensures SeesPause(Teller(n), cap, s, limit, limit, Some(0), p)
  {
    hide Iterate, TakeTurn, Inv, Quiescent, Max, Serve, AfterTurn, PausesIn;
    MaxRuns(s.core);
    var id := Max(RunnableVms(s.core));
    n := s.total + s.core.vms[id].cycles;
    var isa := Teller(n);
    limit := AfterTurn(isa, cap, s, 0, Some(0)).iteration;
    AtOnceCosts(isa, cap, s, 0);
    AtOnceCosts(isa, cap, s, limit);
    TellerCosts(n, cap, s, limit);
    PausedAtOnce(isa, cap, s, limit);
    p := Iterate(isa, cap, s, limit, Some(0)).s;
    PausedTotal(isa, cap, s, limit, Some(0), p);
    if id !in s.cache.resident {
      AttendCosts(cap, s.cache, id);
    }
    TellerFails(n, cap, s, limit);
    var left := Left(limit, s, p);
    TellerCosts(n, cap, p, left);
    AttendEffect(cap, s.cache, [id]);
    assert id in Elements([id]);
    AttendPresent(cap, p.cache, [id]);
    TellerFails(n, cap, p, left);
  }

  /** A pause is hidden from every program if and only if nothing is pending. */
  lemma PauseIsHidden(cap: nat, s: System)
    requires cap >= 1 && |s.cache.resident| <= cap && Inv(s.core) && Quiescent(s.core) && RunnableVms(s.core) != {}
    ensures HidesPauses(cap, s) <==> NothingPending(s)
  {
    hide SeesPause;
    if NothingPending(s) {
      forall isa: Isa, limit: nat, limit': nat, budget: Option<nat>, p: System
        ensures !SeesPause(isa, cap, s, limit, limit', budget, p)
      {
        HiddenPause(isa, cap, s, limit, limit', budget, p);
      }
    } else {
      var n, limit, p := SeenPause(cap, s);
      assert SeesPause(Teller(n), cap, s, limit, limit, Some(0), p);
    }
  }
}
