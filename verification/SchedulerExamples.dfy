/** Programs that show what the results about pauses and about the cache cannot do without: a
    script that is let through because its limit starts afresh, and one that looks at the number of
    cycles it has consumed. All of them start from boot. */
module SchedulerExamples {
  import opened Basics
  import opened Machine
  import opened SchedulerModel
  import opened SchedulerInvariant
  import opened SchedulerLedger
  import opened SchedulerSystem
  import opened SchedulerCache
  import opened SchedulerRuns
  import opened SchedulerTransparency
  import opened SchedulerPauses

  // ----- A machine alone -----

  predicate Single(c: Core) {
    c.states == map[0 := Runnable] && c.vms.Keys == {0}
  }

  predicate ExitsWith(r: Run, code: ExitCode) {
    r.Done? && ROOT_VM_ID in r.s.core.terminated && r.s.core.terminated[ROOT_VM_ID] == code
  }

  /** A machine alone that exits or stops, without any message. */
  lemma AloneTurn(isa: Isa, c: Core, base: nat, limit: nat, budget: Option<nat>, r: RunResult)
    requires Single(c) && r == RunVm(isa, 0, c.vms[0], base, limit, budget) && !r.outcome.Yielded?
    ensures var t := TakeTurn(isa, c, base, limit, budget);
            && t == Turn(0, t.res, r.vm.cycles, r.vm.cycles - c.vms[0].cycles, r.budget)
            && t.res.w.charged == 0
            && (r.outcome.Failed? ==> t.res == Err(r.outcome.error, AfterRun(c, 0, r)))
            && (r.outcome.Exited? ==> && t.res.Ok? && Finished(t.res.w.core)
                                      && t.res.w.core.terminated == c.terminated[0 := r.outcome.code]
                                      && t.res.w.needs == [Attend([0]), Attend([0]), Only(0)])
  {
    hide RunVm;
    assert 0 in RunnableVms(c);
    assert Max(RunnableVms(c)) == 0;
    TurnIs(isa, c, base, limit, budget);
    if r.outcome.Failed? {
      FailedTurn(isa, c, 0, r, r.outcome.error);
    } else {
      var w := OnResult(isa, AfterRun(c, 0, r), 0, [], r.outcome).w;
      assert w.needs == [Attend([0]), Attend([0]), Only(0)];
      assert w.core.vms.Keys == {0};
    }
  }

  /** Whether machine 0 has to be brought in. */
  function Absent(cache: Cache): nat {
    if 0 in cache.resident then 0 else 1
  }

  lemma BroughtIn(cap: nat, cache: Cache)
    requires cap >= 1 && cache.resident <= {0}
    ensures Serve(cap, cache, Attend([0])) == Cache({0}, cache.swaps + Absent(cache))
  {
    if 0 in cache.resident {
      AttendPresent(cap, cache, [0]);
      assert cache.resident == {0};
    } else {
      assert cache.resident == {} && Missing({}, [0]) == [0] && [0][..0] == [];
      assert Bring(cap, Cache({0}, cache.swaps + 1), [0], []) == Cache({0}, cache.swaps + 1);
    }
  }

  lemma OnlyPresent(cap: nat, cache: Cache)
    requires cache.resident == {0}
    ensures Serve(cap, cache, Only(0)) == cache
  {
  }

  /** The cache after such a turn. */
  lemma AloneCache(cap: nat, cache: Cache, needs: seq<Need>)
    requires cap >= 1 && cache.resident <= {0}
    requires needs == [Attend([0])] || needs == [Attend([0]), Attend([0]), Only(0)]
    ensures ServeAll(cap, cache, needs) == Cache({0}, cache.swaps + Absent(cache))
  {
    hide Serve, ServeAll;
    var after := Cache({0}, cache.swaps + Absent(cache));
    BroughtIn(cap, cache);
    BroughtIn(cap, after);
    OnlyPresent(cap, after);
    ServeAllSplit(cap, cache, needs);
    NoNeeds(cap, after);
    if needs == [Attend([0])] {
      assert needs[1..] == [];
    } else {
      assert needs[1..] == [Attend([0]), Only(0)];
      ServeAllSplit(cap, after, needs[1..]);
      assert needs[1..][1..] == [Only(0)];
      ServeAllSplit(cap, after, [Only(0)]);
    }
  }

  lemma NoNeeds(cap: nat, cache: Cache)
    ensures ServeAll(cap, cache, []) == cache
  {
  }

  /** What an iteration makes of a turn after which nobody waits. */
  lemma QuietIterate(isa: Isa, cap: nat, s: System, limit: nat, budget: Option<nat>)
    requires var t := TakeTurn(isa, s.core, s.total, limit, budget); Quiescent(t.res.w.core) || Finished(t.res.w.core)
    requires AfterTurn(isa, cap, s, limit, budget).iteration <= limit
    ensures var t, a := TakeTurn(isa, s.core, s.total, limit, budget), AfterTurn(isa, cap, s, limit, budget);
            var s' := a.(total := a.total + a.iteration, iteration := 0);
            Iterate(isa, cap, s, limit, budget)
            == if t.res.Err? then Broke(s', t.res.error) else Iterated(s', t.id, limit - a.iteration, t.budget)
  {
    hide TakeTurn, ProcessIo, ServeAll, Quiescent;
    var a := AfterTurn(isa, cap, s, limit, budget);
    QuiescentIo(a.core);
    AccountIdle(cap, a.(total := a.total + a.iteration, iteration := 0));
  }

  /** A run of a machine alone that exits within its limit in one turn. */
  lemma AloneExits(isa: Isa, cap: nat, s: System, limit: nat, r: RunResult)
    requires cap >= 1 && Single(s.core) && s.cache.resident <= {0}
    requires r == RunVm(isa, 0, s.core.vms[0], s.total, limit, None) && r.outcome.Exited?
    requires s.iteration + r.vm.cycles + SPAWN_EXTRA_CYCLES_BASE * Absent(s.cache) <= limit
    ensures var run := RunFrom(isa, cap, s, limit, None);
            && ExitsWith(run, r.outcome.code)
            && run.s.total == s.total + s.iteration + r.vm.cycles + SPAWN_EXTRA_CYCLES_BASE * Absent(s.cache)
  {
    hide RunVm, TakeTurn, RunFrom, ServeAll, Iterate;
    AloneTurn(isa, s.core, s.total, limit, None, r);
    var t := TakeTurn(isa, s.core, s.total, limit, None);
    AloneCache(cap, s.cache, t.res.w.needs);
    QuietIterate(isa, cap, s, limit, None);
    RunStep(isa, cap, s, limit, None);
    var i := Iterate(isa, cap, s, limit, None);
    RunOfEnded(isa, cap, i.s, i.remaining, i.budget);
  }

  /** A run of a machine alone that fails or is paused within its limit, before anything else. */
  lemma AloneStops(isa: Isa, cap: nat, s: System, limit: nat, budget: Option<nat>, r: RunResult)
    requires cap >= 1 && Single(s.core) && s.cache.resident <= {0}
    requires r == RunVm(isa, 0, s.core.vms[0], s.total, limit, budget) && r.outcome.Failed?
    requires s.iteration + r.vm.cycles + SPAWN_EXTRA_CYCLES_BASE * Absent(s.cache) <= limit
    ensures var run := RunFrom(isa, cap, s, limit, budget);
            && run == Stopped(run.s, r.outcome.error, [])
            && run.s.core == AfterRun(s.core, 0, r).core && Single(run.s.core) && run.s.cache.resident == {0}
            && run.s.iteration == 0
            && run.s.total == s.total + s.iteration + r.vm.cycles + SPAWN_EXTRA_CYCLES_BASE * Absent(s.cache)
  {
    hide RunVm, TakeTurn, RunFrom, ServeAll, Iterate;
    AloneTurn(isa, s.core, s.total, limit, budget, r);
    var t := TakeTurn(isa, s.core, s.total, limit, budget);
    AloneCache(cap, s.cache, t.res.w.needs);
    assert Single(AfterRun(s.core, 0, r).core);
    SingleIsQuiet(AfterRun(s.core, 0, r).core);
    QuietIterate(isa, cap, s, limit, budget);
    RunStep(isa, cap, s, limit, budget);
  }

  lemma SingleIsQuiet(c: Core)
    requires Single(c)
    ensures Quiescent(c)
  {
  }

  lemma OnePause(isa: Isa, cap: nat, s: System, chunk: Chunk, next: Chunk)
    requires IsPaused(RunFrom(isa, cap, s, chunk.limit, chunk.budget))
    ensures RunChunks(isa, cap, s, chunk, [next])
            == RunFrom(isa, cap, RunFrom(isa, cap, s, chunk.limit, chunk.budget).s, next.limit, next.budget)
  {
    hide RunFrom;
    assert [next][1..] == [];
  }

  /** The first machine of a program whose image has nothing to load. */
  lemma Boots(isa: Isa, cap: nat, program: Location, memory: seq<Byte>, c: Core)
    requires cap >= 1 && isa.fetch(program).None? && isa.load(program, FromVector([])) == Loaded(Cpu(0, memory, 0), 0)
    requires c == EMPTY_CORE.(nextVmId := 1, vms := map[0 := Vm(Cpu(0, memory, 0), 0)], states := map[0 := Runnable])
    ensures Boot(isa, cap, program, []) == Done(System(c, Cache({0}, 0), 0, 0, 0), [])
  {
    var w := BootVm(isa, Idle(EMPTY_CORE), program, None, 0, 0, []).w;
    assert w.core == c && w.needs == [Admit(0)];
    assert [Admit(0)][1..] == [];
    assert ServeAll(cap, Cache({}, 0), [Admit(0)]) == Cache({0}, 0);
  }

  // ----- A limit that starts afresh -----

  /** One instruction and an exit, at 8 cycles each. */
  const TWO_STEPS := Isa((id: VmId, cpu: Cpu, n: nat) => if cpu.core == 0 then Next(Cpu(1, [], 0), 8)
                                                         else Exit(Cpu(2, [], 0), 0, 8),
                         (l: Location) => None, (l: Location, a: ArgSource) => Loaded(Cpu(0, [], 0), 0))

  /** A script that exceeds the limit when it runs through, and does not when it is paused: its
      limit starts afresh. It consumes 16 cycles under a limit of 10. */
  lemma FreshLimitLetsThrough(program: Location)
    ensures var b := Boot(TWO_STEPS, MAX_INSTANTIATED_VMS, program, []);
            && b.Done?
            && HitsLimit(RunFrom(TWO_STEPS, MAX_INSTANTIATED_VMS, b.s, 10, None))
            && var r := RunChunks(TWO_STEPS, MAX_INSTANTIATED_VMS, b.s, Chunk(10, Some(1)), [Chunk(10, None)]);
               ExitsWith(r, 0) && r.s.total == 16
  {
    hide Boot, RunFrom, RunVm;
    var c := EMPTY_CORE.(nextVmId := 1, vms := map[0 := Vm(Cpu(0, [], 0), 0)], states := map[0 := Runnable]);
    Boots(TWO_STEPS, MAX_INSTANTIATED_VMS, program, [], c);
    var s := Boot(TWO_STEPS, MAX_INSTANTIATED_VMS, program, []).s;
    TwoStepsRun();
    AloneStops(TWO_STEPS, MAX_INSTANTIATED_VMS, s, 10, None,
               RunResult(Vm(Cpu(1, [], 0), 8), Failed(CyclesExceeded), None, None));
    AloneStops(TWO_STEPS, MAX_INSTANTIATED_VMS, s, 10, Some(1),
               RunResult(Vm(Cpu(1, [], 0), 8), Failed(Paused), None, Some(0)));
    var p := RunFrom(TWO_STEPS, MAX_INSTANTIATED_VMS, s, 10, Some(1)).s;
    OnePause(TWO_STEPS, MAX_INSTANTIATED_VMS, s, Chunk(10, Some(1)), Chunk(10, None));
    AloneExits(TWO_STEPS, MAX_INSTANTIATED_VMS, p, 10, RunResult(Vm(Cpu(2, [], 0), 8), Exited(0), None, None));
  }

  lemma TwoStepsRun()
    ensures RunVm(TWO_STEPS, 0, Vm(Cpu(0, [], 0), 0), 0, 10, None)
            == RunResult(Vm(Cpu(1, [], 0), 8), Failed(CyclesExceeded), None, None)
    ensures RunVm(TWO_STEPS, 0, Vm(Cpu(0, [], 0), 0), 0, 10, Some(1))
            == RunResult(Vm(Cpu(1, [], 0), 8), Failed(Paused), None, Some(0))
    ensures RunVm(TWO_STEPS, 0, Vm(Cpu(1, [], 0), 0), 8, 10, None)
            == RunResult(Vm(Cpu(2, [], 0), 8), Exited(0), None, None)
  {
  }

  // ----- A program that looks at its cycles -----

  const ZEROS: seq<Byte> := [0, 0, 0, 0, 0, 0, 0, 0]

  const SPAWN_ARGS := SpawnArgs(Location(0, 0, 0), 0, 0, [], 0)

  /** Machines 0 to 3 each spawn one more. All but machine 0 then exit. Machine 0 does one more
      instruction and exits with a code that tells whether it sees more than `k` cycles. */
  function Chain(k: nat): Isa {
    Isa((id: VmId, cpu: Cpu, n: nat) =>
          if cpu.core == 0 && id <= 3 then Ecall(Cpu(1, cpu.memory, cpu.a0), Spawn(SPAWN_ARGS), 1)
          else if id != 0 then Exit(cpu, 0, 1)
          else if cpu.core == 1 then Next(Cpu(2, cpu.memory, cpu.a0), 1)
          else Exit(cpu, if n <= k then 0 else 1, 1),
        (l: Location) => None,
        (l: Location, a: ArgSource) => Loaded(Cpu(0, ZEROS, 0), 0))
  }

  /** Machine `i` when `n` machines have been started: the latest is as it was loaded, the others
      have found the id of their child. */
  function Image(i: int, n: int): Vm {
    if i == n - 1 then Vm(Cpu(0, ZEROS, 0), 0) else Vm(Cpu(1, Le(i + 1, 8), 0), 0)
  }

  function UpTo(i: int, j: int): (r: set<int>)
    ensures forall k :: k in r <==> i <= k <= j
    decreases j - i + 1
  {
    if j < i then {} else UpTo(i, j - 1) + {j}
  }

  lemma {:induction false} UpToCount(j: int)
    requires j >= -1
    ensures |UpTo(0, j)| == j + 1
    decreases j
  {
    if j >= 0 {
      UpToCount(j - 1);
    }
  }

  function States(j: int): map<VmId, VmState>
    decreases j + 1
  {
    if j < 0 then map[] else States(j - 1)[j := Runnable]
  }

  lemma {:induction false} StatesAre(j: int)
    ensures States(j).Keys == UpTo(0, j) && forall i :: i in States(j) ==> States(j)[i] == Runnable
    decreases j + 1
  {
    if j >= 0 {
      StatesAre(j - 1);
    }
  }

  function Images(j: int, n: int): map<VmId, Vm>
    decreases j + 1
  {
    if j < 0 then map[] else Images(j - 1, n)[j := Image(j, n)]
  }

  lemma {:induction false} ImagesAre(j: int, n: int)
    ensures Images(j, n).Keys == UpTo(0, j)
    decreases j + 1
  {
    if j >= 0 {
      ImagesAre(j - 1, n);
    }
  }

  /** How many machines come after does not matter to those that have a child. */
  lemma {:induction false} SameImages(j: int, n: int, n': int)
    requires j < n - 1 && j < n' - 1
    ensures Images(j, n) == Images(j, n')
    decreases j + 1
  {
    if j >= 0 {
      SameImages(j - 1, n, n');
    }
  }

  function Heirs(n: int): map<VmId, seq<Fd>>
    decreases n
  {
    if n <= 1 then map[] else Heirs(n - 1)[n - 1 := []]
  }

  function Gone(j: int, n: int): map<VmId, ExitCode>
    decreases n - j
  {
    if n <= j + 1 then map[] else Gone(j, n - 1)[n - 1 := 0]
  }

  lemma {:induction false} GoneMore(j: int, n: int)
    requires j < n
    ensures Gone(j, n)[j := 0] == Gone(j - 1, n)
    decreases n - j
  {
    if n > j + 1 {
      GoneMore(j, n - 1);
    }
  }

  /** Of `n` machines that have been started, those up to `j` are left. */
  function Stage(j: int, n: int): Core {
    Core(n, FIRST_FD_SLOT, States(j), map[], Heirs(n), Images(j, n), Gone(j, n), PipeLog(map[], map[], map[]))
  }

  lemma StageFacts(j: int, n: int)
    requires 0 <= j < n
    ensures Quiescent(Stage(j, n)) && !IsTerminated(Stage(j, n))
    ensures RunnableVms(Stage(j, n)) != {} && Max(RunnableVms(Stage(j, n))) == j
    ensures j in Stage(j, n).vms && Stage(j, n).vms[j] == Image(j, n)
  {
    hide States, Heirs, Gone;
    StatesAre(j);
    var ids := RunnableVms(Stage(j, n));
    assert 0 in ids && j in ids;
    assert forall i :: i in ids ==> i in UpTo(0, j);
  }

  /** What machine `j` leaves when it has asked for a child. */
  function Asked(j: int): Core
    requires j >= 0
  {
    Stage(j, j + 1).(vms := Stage(j, j + 1).vms[j := Vm(Cpu(1, ZEROS, 0), 0)])
  }

  function SpawnNeeds(j: int): seq<Need> {
    [Attend([j]), Attend([j]), Admit(j + 1), Attend([j])]
  }

  lemma StageCount(j: int, n: int)
    requires 0 <= j
    ensures |Stage(j, n).vms| == j + 1
  {
    hide Images;
    ImagesAre(j, n);
    UpToCount(j);
    assert |Stage(j, n).vms| == |Stage(j, n).vms.Keys|;
  }

  lemma ChildBoots(k: nat, j: int, w: Work, w': Work)
    requires j >= 0 && w == Work(Asked(j), [Attend([j])], 0)
    requires w' == Work(Asked(j).(nextVmId := j + 2, vms := Asked(j).vms[j + 1 := Vm(Cpu(0, ZEROS, 0), 0)],
                                  states := Asked(j).states[j + 1 := Runnable]),
                        [Attend([j]), Attend([j]), Admit(j + 1)], 0)
    ensures BootVm(Chain(k), w, SPAWN_ARGS.location, Some(j), 0, 0, []) == Ok(w')
  {
    assert w.needs + [Attend([j])] == [Attend([j]), Attend([j])];
    assert w.needs + [Attend([j])] + [Admit(j + 1)] == w'.needs;
  }

  lemma ChildAnswers(j: int, w: Work)
    requires j >= 0 && j in w.core.vms && w.core.vms[j] == Vm(Cpu(1, ZEROS, 0), 0)
    ensures Answer64(w, j, 0, j + 1)
            == Ok(Work(w.core.(vms := w.core.vms[j := Vm(Cpu(1, Le(j + 1, 8), 0), 0)]), w.needs + [Attend([j])],
                       w.charged))
  {
    hide Le;
    var data := Le(j + 1, 8);
    assert ZEROS[..0] + data + ZEROS[8..] == data;
    assert StoreBytes(ZEROS, 0, data) == Some(data);
  }

  lemma SpawnsNext(k: nat, j: int, w: Work)
    requires 0 <= j < 4 && w == Work(Asked(j), [Attend([j])], 0)
    ensures OnSpawn(Chain(k), w, j, SPAWN_ARGS) == Ok(Work(Stage(j + 1, j + 2), SpawnNeeds(j), 0))
  {
    hide Answer64, BootVm, Le;
    var w1 := Work(Asked(j).(nextVmId := j + 2, vms := Asked(j).vms[j + 1 := Vm(Cpu(0, ZEROS, 0), 0)],
                             states := Asked(j).states[j + 1 := Runnable]),
                   [Attend([j]), Attend([j]), Admit(j + 1)], 0);
    AskedCount(j);
    ChildBoots(k, j, w, w1);
    var w2 := w1.(core := w1.core.(fds := HandOver(w1.core.fds, [], j + 1),
                                   inherited := w1.core.inherited[j + 1 := []]));
    ChildAnswers(j, w2);
    NextStage(j, w2.core.(vms := w2.core.vms[j := Vm(Cpu(1, Le(j + 1, 8), 0), 0)]));
    assert w2.needs + [Attend([j])] == SpawnNeeds(j);
  }

  lemma AskedCount(j: int)
    requires 0 <= j
    ensures |Asked(j).vms| == j + 1 && j in Asked(j).vms && Asked(j).vms[j] == Vm(Cpu(1, ZEROS, 0), 0)
  {
    StageCount(j, j + 1);
    assert Asked(j).vms.Keys == Stage(j, j + 1).vms.Keys;
    assert |Asked(j).vms.Keys| == |Stage(j, j + 1).vms.Keys|;
    hide Stage;
  }

  lemma NextStage(j: int, c: Core)
    requires 0 <= j
    requires c == Asked(j).(nextVmId := j + 2, states := Asked(j).states[j + 1 := Runnable],
                            fds := HandOver(map[], [], j + 1), inherited := Asked(j).inherited[j + 1 := []],
                            vms := Asked(j).vms[j + 1 := Vm(Cpu(0, ZEROS, 0), 0)][j := Vm(Cpu(1, Le(j + 1, 8), 0), 0)])
    ensures c == Stage(j + 1, j + 2)
  {
    hide Le, HandOver;
    NothingHandedOver(j + 1);
    NextImages(j);
  }

  lemma NothingHandedOver(id: VmId)
    ensures HandOver(map[], [], id) == map[]
  {
  }

  lemma NextImages(j: int)
    requires 0 <= j
    ensures Images(j, j + 1)[j := Vm(Cpu(1, ZEROS, 0), 0)][j + 1 := Vm(Cpu(0, ZEROS, 0), 0)][
              j := Vm(Cpu(1, Le(j + 1, 8), 0), 0)]
            == Images(j + 1, j + 2)
  {
    hide Le;
    SameImages(j - 1, j + 1, j + 2);
    assert Images(j, j + 1) == Images(j - 1, j + 1)[j := Image(j, j + 1)];
    assert Images(j, j + 2) == Images(j - 1, j + 2)[j := Image(j, j + 2)];
    assert Images(j + 1, j + 2) == Images(j, j + 2)[j + 1 := Image(j + 1, j + 2)];
    hide Images;
  }

  lemma SpawnTurn(k: nat, j: int, base: nat, limit: nat, budget: Option<nat>)
    requires 0 <= j < 4 && limit >= 1 && budget != Some(0)
    ensures var cycles := 1 + SPAWN_EXTRA_CYCLES_BASE + SPAWN_YIELD_CYCLES_BASE;
            TakeTurn(Chain(k), Stage(j, j + 1), base, limit, budget)
            == Turn(j, Ok(Work(Stage(j + 1, j + 2), SpawnNeeds(j), 0)), cycles, cycles, Tick(budget))
  {
    hide Stage, OnSpawn, Quiescent;
    var c := Stage(j, j + 1);
    StageFacts(j, j + 1);
    var cycles := 1 + SPAWN_EXTRA_CYCLES_BASE + SPAWN_YIELD_CYCLES_BASE;
    var r := RunResult(Vm(Cpu(1, ZEROS, 0), cycles), Yielded, Some(Spawn(SPAWN_ARGS)), Tick(budget));
    assert RunVm(Chain(k), j, Vm(Cpu(0, ZEROS, 0), 0), base, limit, budget) == r;
    TurnIs(Chain(k), c, base, limit, budget);
    hide RunVm;
    var w := AfterRun(c, j, r);
    SpawnsNext(k, j, w);
    OneMessage(Chain(k), w, BoxAfter(j, r));
  }

  lemma ExitTurn(k: nat, j: int, base: nat, limit: nat, budget: Option<nat>)
    requires 1 <= j <= 4 && limit >= 1 && budget != Some(0)
    ensures TakeTurn(Chain(k), Stage(j, 5), base, limit, budget)
            == Turn(j, Ok(Work(Stage(j - 1, 5), [Attend([j]), Drop(j)], 0)), 1, 1, Tick(budget))
  {
    hide Stage, Quiescent, Le;
    var c := Stage(j, 5);
    StageFacts(j, 5);
    var vm := c.vms[j];
    var r := RunResult(Vm(vm.cpu, 1), Exited(0), None, Tick(budget));
    assert RunVm(Chain(k), j, vm, base, limit, budget) == r;
    TurnIs(Chain(k), c, base, limit, budget);
    hide RunVm;
    var w := AfterRun(c, j, r);
    var c1 := w.core.(terminated := w.core.terminated[j := 0]);
    NobodyJoins(j, c1);
    LastGone(j, vm.cpu, c1);
    NoMessage(Chain(k), w);
    assert Ascending({}) == [];
    assert WakeJoiners(w.(core := c1), [], 0) == Ok(w.(core := c1));
    assert [Attend([j])] + [Drop(j)] == [Attend([j]), Drop(j)];
    hide WakeJoiners, Ascending, Purge, OnMessages;
  }

  lemma NobodyJoins(j: int, c: Core)
    requires c.states == Stage(j, 5).states
    ensures Joiners(c, j) == {}
  {
    StatesAre(j);
    hide States;
  }

  lemma LastGone(j: int, cpu: Cpu, c: Core)
    requires 1 <= j <= 4
    requires c == Stage(j, 5).(vms := Stage(j, 5).vms[j := Vm(cpu, 0)], terminated := Stage(j, 5).terminated[j := 0])
    ensures Purge(c, j) == Stage(j - 1, 5)
  {
    hide Le, Heirs, Gone;
    StatesAre(j - 1);
    ImagesAre(j - 1, 5);
    GoneMore(j, 5);
    var d := Purge(c, j);
    assert d.fds == map[];
    assert d.states == States(j - 1) by {
      assert States(j) == States(j - 1)[j := Runnable];
    }
    assert d.vms == Images(j - 1, 5) by {
      assert Images(j, 5) == Images(j - 1, 5)[j := Image(j, 5)];
    }
  }

  // ----- Its cache -----

  /** Four machines may be resident, or all. */
  function Cap(small: bool): nat {
    if small then MAX_INSTANTIATED_VMS else MAX_VMS_COUNT + 1
  }

  /** In the small cache machine 0 had to leave for machine 4. */
  function Kept(small: bool, j: int, n: int): Cache {
    if small && n == 5 then Cache(UpTo(1, j), 1) else Cache(UpTo(0, j), 0)
  }

  lemma SpawnCache(small: bool, j: int)
    requires 0 <= j < 4
    ensures ServeAll(Cap(small), Kept(small, j, j + 1), SpawnNeeds(j)) == Kept(small, j + 1, j + 2)
  {
    hide Serve, ServeAll;
    var cap, cache, needs, next := Cap(small), Kept(small, j, j + 1), SpawnNeeds(j), Kept(small, j + 1, j + 2);
    AttendPresent(cap, cache, [j]);
    AttendPresent(cap, next, [j]);
    AdmitNext(small, j);
    ServeAllSplit(cap, cache, needs);
    assert needs[1..] == [Attend([j]), Admit(j + 1), Attend([j])];
    ServeAllSplit(cap, cache, needs[1..]);
    assert needs[1..][1..] == [Admit(j + 1), Attend([j])];
    ServeAllSplit(cap, cache, [Admit(j + 1), Attend([j])]);
    assert [Admit(j + 1), Attend([j])][1..] == [Attend([j])];
    ServeAllSplit(cap, next, [Attend([j])]);
    NoNeeds(cap, next);
    assert [Attend([j])][1..] == [];
  }

  lemma AdmitNext(small: bool, j: int)
    requires 0 <= j < 4
    ensures Serve(Cap(small), Kept(small, j, j + 1), Admit(j + 1)) == Kept(small, j + 1, j + 2)
  {
    hide UpTo, MakeRoom;
    UpToCount(j);
    assert UpTo(0, j) + {j + 1} == UpTo(0, j + 1);
    if small && j == 3 {
      ZeroLeaves();
      assert UpTo(1, 3) + {4} == UpTo(1, 4);
    } else {
      RoomLeft(Cap(small), Kept(small, j, j + 1));
    }
  }

  lemma RoomLeft(cap: nat, cache: Cache)
    requires |cache.resident| < cap
    ensures MakeRoom(cap, cache) == cache
  {
  }

  lemma ZeroLeaves()
    ensures MakeRoom(4, Cache(UpTo(0, 3), 0)) == Cache(UpTo(1, 3), 1)
  {
    UpToCount(3);
    hide UpTo, Min;
    var all := UpTo(0, 3);
    assert 0 in all;
    assert Min(all) == 0;
    assert all - {0} == UpTo(1, 3);
    RoomLeft(4, Cache(all - {0}, 1));
  }

  lemma ExitCache(small: bool, j: int)
    requires 1 <= j <= 4
    ensures ServeAll(Cap(small), Kept(small, j, 5), [Attend([j]), Drop(j)]) == Kept(small, j - 1, 5)
  {
    hide ServeAll, Serve;
    var cap, cache, needs := Cap(small), Kept(small, j, 5), [Attend([j]), Drop(j)];
    AttendPresent(cap, cache, [j]);
    ServeAllSplit(cap, cache, needs);
    assert needs[1..] == [Drop(j)];
    DropLast(small, j);
    ServeAllSplit(cap, cache, [Drop(j)]);
    NoNeeds(cap, Kept(small, j - 1, 5));
    assert [Drop(j)][1..] == [];
  }

  lemma DropLast(small: bool, j: int)
    requires 1 <= j <= 4
    ensures Serve(Cap(small), Kept(small, j, 5), Drop(j)) == Kept(small, j - 1, 5)
  {
    assert UpTo(0, j) - {j} == UpTo(0, j - 1) && UpTo(1, j) - {j} == UpTo(1, j - 1);
  }

  // ----- Its run -----

  /** The cycles consumed before a stage. */
  function Total(small: bool, j: int, n: int): int {
    (1 + SPAWN_EXTRA_CYCLES_BASE + SPAWN_YIELD_CYCLES_BASE) * (n - 1) + (n - 1 - j)
    + if small && n == 5 then SPAWN_EXTRA_CYCLES_BASE else 0
  }

  predicate At(s: System, small: bool, j: int, n: int) {
    s.core == Stage(j, n) && s.cache == Kept(small, j, n) && s.total == Total(small, j, n) && s.iteration == 0
  }

  const ENOUGH: nat := 1_000_000

  function Fewer(budget: Option<nat>, n: nat): Option<nat>
    requires budget.Some? ==> budget.value >= n
  {
    if budget.None? then None else Some(budget.value - n)
  }

  /** The run from `s` goes on from `s'`, after `n` instructions. */
  predicate Leads(isa: Isa, cap: nat, s: System, limit: nat, budget: Option<nat>, s': System, n: nat) {
    && (budget.Some? ==> budget.value >= n)
    && s.total <= s'.total <= s.total + limit
    && SameResult(RunFrom(isa, cap, s, limit, budget), RunFrom(isa, cap, s', Left(limit, s, s'), Fewer(budget, n)))
  }

  lemma StageLeads(k: nat, small: bool, s: System, j: int, n: int, limit: nat, budget: Option<nat>, j': int, n': int,
                   needs: seq<Need>, cycles: nat) returns (s': System)
    requires 0 <= j < n && 0 <= j' < n' && At(s, small, j, n) && budget != Some(0)
    requires TakeTurn(Chain(k), Stage(j, n), s.total, limit, budget)
             == Turn(j, Ok(Work(Stage(j', n'), needs, 0)), cycles, cycles, Tick(budget))
    requires ServeAll(Cap(small), s.cache, needs) == Kept(small, j', n')
    requires Kept(small, j', n').swaps >= s.cache.swaps
    requires Total(small, j', n')
             == s.total + cycles + SPAWN_EXTRA_CYCLES_BASE * (Kept(small, j', n').swaps - s.cache.swaps)
    requires s.total + limit >= ENOUGH && Total(small, j', n') <= ENOUGH
    ensures At(s', small, j', n') && Leads(Chain(k), Cap(small), s, limit, budget, s', 1)
  {
    hide Stage, Kept, TakeTurn, Iterate, RunFrom, Chain, Quiescent, IsTerminated, Cap, Total, RunnableVms, Max,
         AfterTurn;
    StageFacts(j, n);
    StageFacts(j', n');
    TurnCosts(Chain(k), Cap(small), s, limit, budget, Stage(j', n'), Kept(small, j', n'), needs, cycles);
    QuietIterate(Chain(k), Cap(small), s, limit, budget);
    RunStep(Chain(k), Cap(small), s, limit, budget);
    s' := Iterate(Chain(k), Cap(small), s, limit, budget).s;
  }

  lemma TurnCosts(isa: Isa, cap: nat, s: System, limit: nat, budget: Option<nat>, c: Core, cache: Cache,
                  needs: seq<Need>, cycles: nat)
    requires TakeTurn(isa, s.core, s.total, limit, budget).res == Ok(Work(c, needs, 0))
    requires TakeTurn(isa, s.core, s.total, limit, budget).cycles == cycles
    requires ServeAll(cap, s.cache, needs) == cache && cache.swaps >= s.cache.swaps
    ensures var a := AfterTurn(isa, cap, s, limit, budget);
            && a.core == c && a.cache == cache && a.total == s.total
            && a.iteration == s.iteration + cycles + SPAWN_EXTRA_CYCLES_BASE * (cache.swaps - s.cache.swaps)
  {
    hide TakeTurn, ServeAll;
  }

  lemma LeadsOn(isa: Isa, cap: nat, s: System, limit: nat, budget: Option<nat>, s1: System, n1: nat, s2: System,
                n2: nat)
    requires Leads(isa, cap, s, limit, budget, s1, n1)
    requires Leads(isa, cap, s1, Left(limit, s, s1), Fewer(budget, n1), s2, n2)
    ensures Leads(isa, cap, s, limit, budget, s2, n1 + n2)
  {
    hide RunFrom;
  }

  lemma {:induction false} Spawns(k: nat, small: bool, s: System, j: int, limit: nat, budget: Option<nat>)
    returns (s': System)
    requires 0 <= j <= 4 && At(s, small, j, j + 1) && s.total + limit >= ENOUGH
    requires budget.Some? ==> budget.value >= 4 - j
    ensures At(s', small, 4, 5) && Leads(Chain(k), Cap(small), s, limit, budget, s', 4 - j)
    decreases 4 - j
  {
    hide Stage, Kept, TakeTurn, ServeAll, RunFrom, Chain;
    if j == 4 {
      s' := s;
    } else {
      SpawnTurn(k, j, s.total, limit, budget);
      SpawnCache(small, j);
      KeptSwaps(small, j);
      var s1 := StageLeads(k, small, s, j, j + 1, limit, budget, j + 1, j + 2, SpawnNeeds(j),
                           1 + SPAWN_EXTRA_CYCLES_BASE + SPAWN_YIELD_CYCLES_BASE);
      s' := Spawns(k, small, s1, j + 1, Left(limit, s, s1), Fewer(budget, 1));
      LeadsOn(Chain(k), Cap(small), s, limit, budget, s1, 1, s', 3 - j);
    }
  }

  lemma KeptSwaps(small: bool, j: int)
    requires 0 <= j < 4
    ensures Kept(small, j, j + 1).swaps == 0 && Kept(small, j + 1, j + 2).swaps == if small && j == 3 then 1 else 0
  {
  }

  lemma {:induction false} Exits(k: nat, small: bool, s: System, j: int, limit: nat, budget: Option<nat>)
    returns (s': System)
    requires 0 <= j <= 4 && At(s, small, j, 5) && s.total + limit >= ENOUGH
    requires budget.Some? ==> budget.value >= j
    ensures At(s', small, 0, 5) && Leads(Chain(k), Cap(small), s, limit, budget, s', j)
    decreases j
  {
    hide Stage, TakeTurn, ServeAll, RunFrom, Chain;
    if j == 0 {
      s' := s;
    } else {
      ExitTurn(k, j, s.total, limit, budget);
      ExitCache(small, j);
      var s1 := StageLeads(k, small, s, j, 5, limit, budget, j - 1, 5, [Attend([j]), Drop(j)], 1);
      s' := Exits(k, small, s1, j - 1, Left(limit, s, s1), Fewer(budget, 1));
      LeadsOn(Chain(k), Cap(small), s, limit, budget, s1, 1, s', j - 1);
    }
  }

  /** After eight instructions machine 0 is alone again. */
  lemma Returns(k: nat, small: bool, program: Location, limit: nat, budget: Option<nat>) returns (s: System, s': System)
    requires limit >= ENOUGH && (budget.Some? ==> budget.value >= 8)
    ensures Boot(Chain(k), Cap(small), program, []) == Done(s, []) && At(s', small, 0, 5) && s.total == 0
    ensures Leads(Chain(k), Cap(small), s, limit, budget, s', 8)
  {
    hide RunFrom, Boot;
    var c := EMPTY_CORE.(nextVmId := 1, vms := map[0 := Vm(Cpu(0, ZEROS, 0), 0)], states := map[0 := Runnable]);
    Boots(Chain(k), Cap(small), program, ZEROS, c);
    s := Boot(Chain(k), Cap(small), program, []).s;
    FirstStage(c);
    assert UpTo(0, 0) == {0};
    hide Chain, Stage;
    var s1 := Spawns(k, small, s, 0, limit, budget);
    s' := Exits(k, small, s1, 4, Left(limit, s, s1), Fewer(budget, 4));
    LeadsOn(Chain(k), Cap(small), s, limit, budget, s1, 4, s', 4);
  }

  lemma FirstStage(c: Core)
    requires c == EMPTY_CORE.(nextVmId := 1, vms := map[0 := Vm(Cpu(0, ZEROS, 0), 0)], states := map[0 := Runnable])
    ensures c == Stage(0, 1)
  {
    hide Le;
    assert States(0) == map[0 := Runnable] && Images(0, 1) == map[0 := Vm(Cpu(0, ZEROS, 0), 0)];
    assert Heirs(1) == map[] && Gone(0, 1) == map[];
  }

  /** What machine 0 then does: uninterrupted, up to a pause, and from there. */
  lemma LastSteps(k: nat, base: nat, base': nat, limit: nat, memory: seq<Byte>)
    requires limit >= 2
    ensures RunVm(Chain(k), 0, Vm(Cpu(1, memory, 0), 0), base, limit, None)
            == RunResult(Vm(Cpu(2, memory, 0), 2), Exited(if base + 1 <= k then 0 else 1), None, None)
    ensures RunVm(Chain(k), 0, Vm(Cpu(1, memory, 0), 0), base, limit, Some(1))
            == RunResult(Vm(Cpu(2, memory, 0), 1), Failed(Paused), None, Some(0))
    ensures RunVm(Chain(k), 0, Vm(Cpu(2, memory, 0), 0), base', limit, None)
            == RunResult(Vm(Cpu(2, memory, 0), 1), Exited(if base' <= k then 0 else 1), None, None)
  {
  }

  lemma LastStage(small: bool, s: System)
    requires At(s, small, 0, 5)
    ensures Single(s.core) && s.core.vms[0] == Vm(Cpu(1, Le(1, 8), 0), 0)
    ensures s.cache.resident <= {0} && Absent(s.cache) == if small then 1 else 0
  {
    hide Le;
    assert s.core.vms.Keys == {0};
    assert s.core.states == map[0 := Runnable];
  }

  /** The exit code without a pause. */
  lemma RunsThrough(k: nat, small: bool, program: Location, limit: nat)
    requires limit >= ENOUGH
    ensures Boot(Chain(k), Cap(small), program, []).Done?
    ensures ExitsWith(RunFrom(Chain(k), Cap(small), Boot(Chain(k), Cap(small), program, []).s, limit, None),
                      if Total(small, 0, 5) + 1 <= k then 0 else 1)
  {
    hide RunFrom, Boot, RunVm, Chain, Le;
    var s, s' := Returns(k, small, program, limit, None);
    LastStage(small, s');
    var left := Left(limit, s, s');
    LastSteps(k, s'.total, 0, left, Le(1, 8));
    AloneExits(Chain(k), Cap(small), s', left, RunVm(Chain(k), 0, s'.core.vms[0], s'.total, left, None));
  }

  /** The exit code with a pause after nine instructions, the last of them that of machine 0. */
  lemma RunsPaused(k: nat, small: bool, program: Location, limit: nat)
    requires limit >= ENOUGH
    ensures Boot(Chain(k), Cap(small), program, []).Done?
    ensures ExitsWith(RunChunks(Chain(k), Cap(small), Boot(Chain(k), Cap(small), program, []).s, Chunk(limit, Some(9)),
                                [Chunk(limit, None)]),
                      if Total(small, 0, 5) + 1 + (if small then SPAWN_EXTRA_CYCLES_BASE else 0) <= k then 0 else 1)
  {
    hide RunFrom, Boot, RunVm, Chain, Le;
    var s, s' := Returns(k, small, program, limit, Some(9));
    LastStage(small, s');
    var left := Left(limit, s, s');
    LastSteps(k, s'.total, 0, left, Le(1, 8));
    var r := RunVm(Chain(k), 0, s'.core.vms[0], s'.total, left, Some(1));
    AloneStops(Chain(k), Cap(small), s', left, Some(1), r);
    var p := RunFrom(Chain(k), Cap(small), s, limit, Some(9)).s;
    OnePause(Chain(k), Cap(small), s, Chunk(limit, Some(9)), Chunk(limit, None));
    LastSteps(k, 0, p.total, limit, Le(1, 8));
    AloneExits(Chain(k), Cap(small), p, limit, RunVm(Chain(k), 0, p.core.vms[0], p.total, limit, None));
  }

  /** A script that looks at its cycles can tell that it was paused: machine 0 had been suspended,
      and the cost of resuming it is added to the total by the pause, otherwise only at the end of
      the turn. */
  lemma PauseCanBeSeen(program: Location, limit: nat, s: System)
    requires limit >= ENOUGH && s == Boot(Chain(503_209), MAX_INSTANTIATED_VMS, program, []).s
    ensures Boot(Chain(503_209), MAX_INSTANTIATED_VMS, program, []).Done?
    ensures ExitsWith(RunFrom(Chain(503_209), MAX_INSTANTIATED_VMS, s, limit, None), 0)
    ensures ExitsWith(RunChunks(Chain(503_209), MAX_INSTANTIATED_VMS, s, Chunk(limit, Some(9)), [Chunk(limit, None)]),
                      1)
  {
    hide RunFrom, RunChunks, Boot, Chain;
    RunsThrough(503_209, true, program, limit);
    RunsPaused(503_209, true, program, limit);
  }

  /** It can also tell how many machines may be resident. */
  lemma ResidencyCanBeSeen(program: Location, limit: nat, s: System, s': System)
    requires limit >= ENOUGH && s == Boot(Chain(403_209), MAX_INSTANTIATED_VMS, program, []).s
    requires s' == Boot(Chain(403_209), MAX_VMS_COUNT + 1, program, []).s
    ensures Boot(Chain(403_209), MAX_INSTANTIATED_VMS, program, []).Done?
    ensures Boot(Chain(403_209), MAX_VMS_COUNT + 1, program, []).Done?
    ensures ExitsWith(RunFrom(Chain(403_209), MAX_INSTANTIATED_VMS, s, limit, None), 1)
    ensures ExitsWith(RunFrom(Chain(403_209), MAX_VMS_COUNT + 1, s', limit, None), 0)
  {
    hide RunFrom, Boot, Chain;
    RunsThrough(403_209, true, program, limit);
    RunsThrough(403_209, false, program, limit);
  }
}
