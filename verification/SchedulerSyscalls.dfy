/** What becomes of every request, told from the request: when it fails, and what the machines find
    in memory and result register when it has been served. */
module SchedulerSyscalls {
  import opened Basics
  import opened Machine
  import opened SchedulerModel
  import opened SchedulerInvariant
  import opened SchedulerPipes
  import opened SchedulerReports
  import opened SchedulerService

  /** Only the result register of machine `id` has changed; it holds `code`. */
  predicate Refused(c: Core, d: Core, id: VmId, code: nat) {
    && id in c.vms
    && d == c.(vms := c.vms[id := Vm(Cpu(c.vms[id].cpu.core, c.vms[id].cpu.memory, code), c.vms[id].cycles)])
  }

  lemma ReplyIs(w: Work, id: VmId, code: nat)
    requires id in w.core.vms
    ensures Reply(w, id, code).Ok? && Refused(w.core, Reply(w, id, code).w.core, id, code)
  {
  }

  /** The request of machine `id` is answered with `code`, and nothing else happens. */
  predicate Answers(isa: Isa, w: Work, id: VmId, request: Request, code: nat) {
    var r := OnMessage(isa, w, Message(id, request));
    r.Ok? && Refused(w.core, r.w.core, id, code)
  }

  // ----- Exec -----

  /** An exec goes on with the image loaded from the program and the arguments in the memory of the
      machine, at 75000 cycles and one for every four bytes or part of them. When the program cannot
      be fetched or loaded, the error says why and the old image is still there. */
  lemma ExecReplaces(isa: Isa, w: Work, id: VmId, location: Location, argc: nat, argv: nat, r: Res)
    requires id in w.core.vms && r == OnMessage(isa, w, Message(id, ExecV2(location, argc, argv)))
    ensures var c, vm := w.core, w.core.vms[id];
            match isa.fetch(location)
            case Some(code) =>
              r.Err? && r.error == VmError(code) && r.w.core == c.(vms := c.vms[id := Vm(vm.cpu, vm.cycles + 75_000)])
            case None =>
              match isa.load(location, FromMemory(vm.cpu.memory, argc, argv))
              case LoadFailed(code) =>
                r.Err? && r.error == VmError(code) && r.w.core == c.(vms := c.vms[id := Vm(vm.cpu, vm.cycles + 75_000)])
              case Loaded(cpu, bytes) =>
                r.Ok? && r.w.core == c.(vms := c.vms[id := Vm(cpu, vm.cycles + 75_000 + (bytes + 3) / 4)])
  {
    var c, vm := w.core, w.core.vms[id];
    var w1 := AddCycles(w, id, EXEC_LOAD_ELF_V2_CYCLES_BASE);
    assert w1.core.vms[id] == Vm(vm.cpu, vm.cycles + 75_000);
    if isa.fetch(location).None? && isa.load(location, FromMemory(vm.cpu.memory, argc, argv)).Loaded? {
      var cpu, bytes := isa.load(location, FromMemory(vm.cpu.memory, argc, argv)).cpu,
          isa.load(location, FromMemory(vm.cpu.memory, argc, argv)).bytes;
      assert r.w.core.vms == c.vms[id := Vm(cpu, vm.cycles + 75_000 + (bytes + 3) / 4)];
    }
  }

  /** Machine `v` is as it was. */
  predicate Untouched(c: Core, d: Core, v: VmId) {
    && (v in c.vms ==> v in d.vms && d.vms[v] == c.vms[v])
    && (v in c.states ==> v in d.states && d.states[v] == c.states[v])
  }

  // ----- Exit and wait -----

  /** `vm` with the exit code `code` in the byte at `addr` and success in the result register. */
  function Informed(vm: Vm, addr: nat, code: ExitCode): Option<Vm> {
    match StoreBytes(vm.cpu.memory, addr, [(code % 256) as Byte])
    case None => None
    case Some(memory) => Some(Vm(Cpu(vm.cpu.core, memory, SUCCESS), vm.cycles))
  }

  /** Machine `v` runs in `d`, informed of `code`. */
  predicate Joined(c: Core, d: Core, v: VmId, addr: nat, code: ExitCode) {
    && v in c.vms && v in d.vms && RunsIn(d, v)
    && Some(d.vms[v]) == Informed(c.vms[v], addr, code)
  }

  /** Machine `v` finds success in its result register and the byte of `code` at `addr`. */
  predicate FindsCode(d: Core, v: VmId, addr: nat, code: ExitCode) {
    v in d.vms && d.vms[v].cpu.a0 == SUCCESS && LoadBytes(d.vms[v].cpu.memory, addr, 1) == Some([(code % 256) as Byte])
  }

  lemma JoinedFinds(c: Core, d: Core, v: VmId, addr: nat, code: ExitCode)
    requires Joined(c, d, v, addr, code)
    ensures FindsCode(d, v, addr, code)
  {
    var data := [(code % 256) as Byte];
    var memory := StoreBytes(c.vms[v].cpu.memory, addr, data).value;
    assert memory[addr..addr + 1] == data;
  }

  /** One step of `WakeJoiners`. */
  lemma WokenJoined(w: Work, id: VmId, addr: nat, code: ExitCode, w': Work)
    requires id in w.core.vms && Poke8(w, id, addr, code).Ok?
    requires w'
             == Poke8(w, id, addr,
                      code).w.(core := SetState(SetA0(Poke8(w, id, addr, code).w.core, id, SUCCESS), id, Runnable))
    ensures Joined(w.core, w'.core, id, addr, code)
    ensures forall v :: v != id ==> Untouched(w.core, w'.core, v)
    ensures w'.core == w.core.(vms := w'.core.vms, states := w'.core.states)
    ensures w'.core.vms.Keys == w.core.vms.Keys && w'.core.states.Keys == w.core.states.Keys + {id}
  {
  }

  predicate JoinsAt(c: Core, d: Core, v: VmId, code: ExitCode) {
    v in c.states && c.states[v].Waiting? && Joined(c, d, v, c.states[v].exitCodeAddr, code)
  }

  ghost predicate AllWait(c: Core, ids: seq<VmId>) {
    Distinct(ids) && forall i :: 0 <= i < |ids| ==> ids[i] in c.states && c.states[ids[i]].Waiting? && ids[i] in c.vms
  }

  /** Every machine of `ids` has a place for the exit code. */
  ghost predicate CodesFit(c: Core, ids: seq<VmId>)
    requires AllWait(c, ids)
  {
    forall i :: 0 <= i < |ids| ==> InMemory(c.vms[ids[i]].cpu.memory, c.states[ids[i]].exitCodeAddr, 1)
  }

  ghost predicate AllTold(c: Core, d: Core, ids: seq<VmId>, code: ExitCode) {
    && (forall i :: 0 <= i < |ids| ==> JoinsAt(c, d, ids[i], code))
    && (forall v :: v !in ids ==> Untouched(c, d, v))
    && d == c.(vms := d.vms, states := d.states)
    && d.vms.Keys == c.vms.Keys && d.states.Keys == c.states.Keys
  }

  lemma {:induction false} WakeJoinersTell(w: Work, ids: seq<VmId>, code: ExitCode)
    requires AllWait(w.core, ids)
    ensures WakeJoiners(w, ids, code).Ok? <==> CodesFit(w.core, ids)
    ensures WakeJoiners(w, ids, code).Err? ==> WakeJoiners(w, ids, code).error == MemOutOfBound
    ensures WakeJoiners(w, ids, code).Ok? ==> AllTold(w.core, WakeJoiners(w, ids, code).w.core, ids, code)
    decreases |ids|
  {
    if ids != [] {
      hide Poke8, Informed, AllTold, CodesFit, AllWait;
      var id, rest := ids[0], ids[1..];
      FirstWaits(w.core, ids);
      var addr, w1 := w.core.states[id].exitCodeAddr, Require(w, id).w;
      var p := Poke8(w1, id, addr, code);
      Poke8Is(w1, id, addr, code);
      if p.Ok? {
        Poke8Keeps(w1, id, addr, code);
        var w2 := p.w.(core := SetState(SetA0(p.w.core, id, SUCCESS), id, Runnable));
        WokenJoined(w1, id, addr, code, w2);
        RestWaits(w.core, w2.core, ids);
        WakeJoinersTell(w2, rest, code);
        var d := WakeJoiners(w2, rest, code);
        assert WakeJoiners(w, ids, code) == d;
        if d.Ok? {
          RestTold(w.core, w2.core, d.w.core, ids, code);
        }
      }
    }
  }

  lemma Poke8Is(w: Work, id: VmId, addr: nat, code: ExitCode)
    requires id in w.core.vms
    ensures Poke8(w, id, addr, code).Ok? <==> InMemory(w.core.vms[id].cpu.memory, addr, 1)
    ensures Poke8(w, id, addr, code).Err? ==> Poke8(w, id, addr, code).error == MemOutOfBound
  {
    StoreIs(w.core.vms[id].cpu.memory, addr, [(code % 256) as Byte]);
  }

  lemma FirstWaits(c: Core, ids: seq<VmId>)
    requires ids != [] && AllWait(c, ids)
    ensures ids[0] in c.states && c.states[ids[0]].Waiting? && ids[0] in c.vms
    ensures CodesFit(c, ids) ==> InMemory(c.vms[ids[0]].cpu.memory, c.states[ids[0]].exitCodeAddr, 1)
  {
  }

  lemma RestWaits(c: Core, d: Core, ids: seq<VmId>)
    requires ids != [] && AllWait(c, ids) && forall v :: v != ids[0] ==> Untouched(c, d, v)
    requires InMemory(c.vms[ids[0]].cpu.memory, c.states[ids[0]].exitCodeAddr, 1)
    ensures AllWait(d, ids[1..]) && (CodesFit(d, ids[1..]) <==> CodesFit(c, ids))
  {
    var rest := ids[1..];
    assert forall i :: 0 <= i < |rest| ==> rest[i] == ids[i + 1] && Untouched(c, d, rest[i]);
    if CodesFit(d, rest) {
      forall i | 0 <= i < |ids|
        ensures InMemory(c.vms[ids[i]].cpu.memory, c.states[ids[i]].exitCodeAddr, 1)
      {
        assert i > 0 ==> rest[i - 1] == ids[i];
      }
    }
  }

  lemma RestTold(c: Core, d: Core, e: Core, ids: seq<VmId>, code: ExitCode)
    requires ids != [] && AllWait(c, ids) && AllTold(d, e, ids[1..], code)
    requires Joined(c, d, ids[0], c.states[ids[0]].exitCodeAddr, code)
    requires forall v :: v != ids[0] ==> Untouched(c, d, v)
    requires d == c.(vms := d.vms, states := d.states) && d.vms.Keys == c.vms.Keys && d.states.Keys == c.states.Keys
    ensures AllTold(c, e, ids, code)
  {
    hide Informed;
    var id, rest := ids[0], ids[1..];
    assert forall i :: 0 <= i < |rest| ==> rest[i] == ids[i + 1];
    assert id !in rest;
    assert Untouched(d, e, id);
    forall i | 0 <= i < |ids|
      ensures JoinsAt(c, e, ids[i], code)
    {
      if i > 0 {
        assert JoinsAt(d, e, rest[i - 1], code) && Untouched(c, d, rest[i - 1]);
      }
    }
    forall v | v !in ids
      ensures Untouched(c, e, v)
    {
      assert Untouched(c, d, v) && Untouched(d, e, v);
    }
  }

  /** The exit of a machine fails if and only if a machine that waits for it has no place for the
      exit code. Otherwise every machine that waits for it is told the code and runs again, no
      other machine notices, the code is kept for later waits, and exactly the descriptors of the
      machine are closed. */
  lemma ExitTells(isa: Isa, w: Work, id: VmId, code: ExitCode, r: Res)
    requires Inv(w.core) && Sender(w.core, id) && id != ROOT_VM_ID && r == OnResult(isa, w, id, [], Exited(code))
    ensures r.Ok? <==> forall v :: v in Joiners(w.core, id) && v in w.core.vms ==>
                         InMemory(w.core.vms[v].cpu.memory, w.core.states[v].exitCodeAddr, 1)
    ensures r.Err? ==> r.error == MemOutOfBound
    ensures r.Ok? ==> forall v :: v in Joiners(w.core, id) ==>
                        var addr := w.core.states[v].exitCodeAddr;
                        Joined(w.core, r.w.core, v, addr, code) && FindsCode(r.w.core, v, addr, code)
    ensures r.Ok? ==> forall v :: v !in Joiners(w.core, id) && v != id ==> Untouched(w.core, r.w.core, v)
    ensures var d := r.w.core;
            r.Ok? ==> && d.states.Keys == w.core.states.Keys - {id} && d.vms.Keys == w.core.vms.Keys - {id}
                      && d == w.core.(states := d.states, vms := d.vms, terminated := w.core.terminated[id := code],
                                      fds := map fd | fd in w.core.fds && w.core.fds[fd] != id :: w.core.fds[fd])
  {
    hide WakeJoiners, Informed, Ascending, AllTold, Inv;
    var c := w.core.(terminated := w.core.terminated[id := code]);
    var ids := Ascending(Joiners(c, id));
    JoinersWait(w.core, c, id, ids);
    WakeJoinersTell(w.(core := c), ids, code);
    var j := WakeJoiners(w.(core := c), ids, code);
    if j.Ok? {
      ToldAll(c, j.w.core, ids, code);
      forall v | v in Joiners(w.core, id)
        ensures v != id && Joined(w.core, j.w.core, v, w.core.states[v].exitCodeAddr, code)
        ensures FindsCode(j.w.core, v, w.core.states[v].exitCodeAddr, code)
      {
        assert v in ids;
        var i :| 0 <= i < |ids| && ids[i] == v;
        assert JoinsAt(c, j.w.core, ids[i], code);
        JoinedFinds(w.core, j.w.core, v, w.core.states[v].exitCodeAddr, code);
      }
    }
  }

  lemma ToldAll(c: Core, d: Core, ids: seq<VmId>, code: ExitCode)
    requires AllTold(c, d, ids, code)
    ensures forall i :: 0 <= i < |ids| ==> JoinsAt(c, d, ids[i], code)
    ensures forall v :: v !in ids ==> Untouched(c, d, v)
    ensures d == c.(vms := d.vms, states := d.states)
    ensures d.vms.Keys == c.vms.Keys && d.states.Keys == c.states.Keys
  {
  }

  lemma JoinersWait(c: Core, c': Core, id: VmId, ids: seq<VmId>)
    requires Inv(c) && Sender(c, id) && c'.states == c.states && c'.vms == c.vms && ids == Ascending(Joiners(c', id))
    ensures Joiners(c', id) == Joiners(c, id) && AllWait(c', ids) && forall v :: v in ids <==> v in Joiners(c, id)
    ensures CodesFit(c', ids) <==> forall v :: v in Joiners(c, id) && v in c.vms ==>
                                     InMemory(c.vms[v].cpu.memory, c.states[v].exitCodeAddr, 1)
  {
    hide Ascending;
    assert Joiners(c', id) == Joiners(c, id);
    forall i | 0 <= i < |ids|
      ensures ids[i] in Joiners(c, id)
    {
      assert ids[i] in ids;
    }
  }

  /** The exit of the root machine ends the script: its code is kept and no other machine is left. */
  lemma RootExitEnds(isa: Isa, w: Work, code: ExitCode, r: Res)
    requires ROOT_VM_ID in w.core.vms && r == OnResult(isa, w, ROOT_VM_ID, [], Exited(code))
    ensures r.Ok?
    ensures r.w.core == w.core.(terminated := w.core.terminated[ROOT_VM_ID := code],
                                states := map[ROOT_VM_ID := Terminated],
                                vms := map[ROOT_VM_ID := w.core.vms[ROOT_VM_ID]])
  {
  }

  /** A wait for a machine that has exited is told its exit code, once, or fails if the code has no
      place; a wait for a machine that does not exist is refused; any other wait blocks. */
  lemma WaitTells(isa: Isa, w: Work, id: VmId, target: VmId, addr: nat, r: Res)
    requires Inv(w.core) && Sender(w.core, id) && r == OnMessage(isa, w, Message(id, Wait(target, addr)))
    ensures id in w.core.vms
    ensures target in w.core.terminated ==>
              && (r.Ok? <==> InMemory(w.core.vms[id].cpu.memory, addr, 1)) && (r.Err? ==> r.error == MemOutOfBound)
              && (r.Ok? ==> && Joined(w.core, r.w.core, id, addr, w.core.terminated[target])
                            && FindsCode(r.w.core, id, addr, w.core.terminated[target])
                            && r.w.core == w.core.(vms := w.core.vms[id := r.w.core.vms[id]],
                                                   terminated := w.core.terminated - {target}))
    ensures target !in w.core.terminated && target !in w.core.states ==>
              r.Ok? && Refused(w.core, r.w.core, id, WAIT_FAILURE)
    ensures target !in w.core.terminated && target in w.core.states ==>
              r.Ok? && r.w.core == w.core.(states := w.core.states[id := Waiting(target, addr)])
  {
    hide Inv, Informed, Reply, Poke8;
    SenderAlive(w.core, id);
    ReplyIs(w, id, WAIT_FAILURE);
    if target in w.core.terminated {
      var code, w1 := w.core.terminated[target], Require(w, id).w;
      Poke8Is(w1, id, addr, code);
      var p := Poke8(w1, id, addr, code);
      if p.Ok? {
        Poke8Keeps(w1, id, addr, code);
        WokenJoined(w1, id, addr, code, p.w.(core := SetState(SetA0(p.w.core, id, SUCCESS), id, Runnable)));
        assert w.core.states[id := Runnable] == w.core.states;
        JoinedFinds(w.core, r.w.core, id, addr, code);
        OnlyOne(w.core.vms, r.w.core.vms, id);
      }
    }
  }

  lemma OnlyOne(a: map<VmId, Vm>, b: map<VmId, Vm>, id: VmId)
    requires id in b && b.Keys == a.Keys && forall v :: v in a && v != id ==> b[v] == a[v]
    ensures b == a[id := b[id]]
  {
    var a' := a[id := b[id]];
    assert a'.Keys == b.Keys;
    assert forall v :: v in b ==> a'[v] == b[v];
  }

  /** Whether machine `id` waits for `target` before or after its exit, it ends up the same. */
  lemma WaitBeforeOrAfter(isa: Isa, w: Work, id: VmId, target: VmId, addr: nat, code: ExitCode,
                          waits: Work, before: Work, exits: Work, after: Work)
    requires Inv(w.core) && Sender(w.core, id) && Sender(w.core, target) && id != target && target != ROOT_VM_ID
    requires OnMessage(isa, w, Message(id, Wait(target, addr))) == Ok(waits)
             && OnResult(isa, waits, target, [], Exited(code)) == Ok(before)
    requires OnResult(isa, w, target, [], Exited(code)) == Ok(exits)
             && OnMessage(isa, exits, Message(id, Wait(target, addr))) == Ok(after)
    ensures id in before.core.vms && id in after.core.vms && before.core.vms[id] == after.core.vms[id]
    ensures RunsIn(before.core, id) && RunsIn(after.core, id)
  {
    hide OnResult, OnMessage, Informed, Inv;
    SenderAlive(w.core, id);
    NotYetExited(w.core, target);
    WaitTells(isa, w, id, target, addr, Ok(waits));
    WaitingKeeps(isa, w, id, target, addr, waits);
    ExitTells(isa, w, target, code, Ok(exits));
    assert Untouched(w.core, exits.core, id);
    ExitedKeeps(isa, w, target, code, exits);
    WaitTells(isa, exits, id, target, addr, Ok(after));
    ExitTells(isa, waits, target, code, Ok(before));
    assert id in Joiners(waits.core, target);
  }

  lemma ExitedKeeps(isa: Isa, w: Work, id: VmId, code: ExitCode, exits: Work)
    requires Inv(w.core) && Sender(w.core, id) && id != ROOT_VM_ID
    requires OnResult(isa, w, id, [], Exited(code)) == Ok(exits)
    ensures Inv(exits.core)
  {
    hide Inv, OnResult;
    OnResultKeeps(isa, w, id, [], Exited(code));
  }

  lemma WaitingKeeps(isa: Isa, w: Work, id: VmId, target: VmId, addr: nat, waits: Work)
    requires Inv(w.core) && Sender(w.core, id) && OnMessage(isa, w, Message(id, Wait(target, addr))) == Ok(waits)
    ensures Inv(waits.core)
  {
    hide Inv;
    OnMessageKeeps(isa, w, Message(id, Wait(target, addr)));
  }

  lemma NotYetExited(c: Core, id: VmId)
    requires Inv(c) && Sender(c, id)
    ensures id !in c.terminated
  {
  }

  // ----- Spawn and pipe -----

  /** A spawn is refused with a result code; or fails because the program cannot be fetched or
      loaded, or because the id of the new machine has no place; or starts a machine under a new id,
      with the image loaded from the program and the arguments in the memory of the parent. The new
      machine owns exactly the descriptors handed over to it, and the parent learns its id. */
  lemma SpawnHandsOver(isa: Isa, w: Work, id: VmId, args: SpawnArgs, r: Res)
    requires Inv(w.core) && Sender(w.core, id) && r == OnMessage(isa, w, Message(id, Spawn(args)))
    ensures id in w.core.vms
    ensures var memory := w.core.vms[id].cpu.memory;
            if exists fd :: fd in args.fds && !Owns(w.core, id, fd) then
              r.Ok? && Refused(w.core, r.w.core, id, INVALID_FD)
            else if |w.core.states| > MAX_VMS_COUNT then r.Ok? && Refused(w.core, r.w.core, id, MAX_VMS_SPAWNED)
            else
              match isa.fetch(args.location)
              case Some(code) => r.Err? && r.error == VmError(code)
              case None =>
                match isa.load(args.location, FromMemory(memory, args.argc, args.argv))
                case LoadFailed(code) => r.Err? && r.error == VmError(code)
                case Loaded(cpu, bytes) =>
                  && (r.Ok? <==> InMemory(memory, args.processIdAddr, 8))
                  && (r.Ok? ==> Spawned(w.core, r.w.core, id, args, Vm(cpu, (bytes + 3) / 4)))
                  && (r.Err? ==> r.error == MemOutOfBound)
  {
    hide Inv, Answer64, BootVm, HandOver, Reply, Spawned;
    SenderAlive(w.core, id);
    SameCount(w.core);
    NewIdIsNew(w.core);
    ReplyIs(w, id, INVALID_FD);
    ReplyIs(w, id, MAX_VMS_SPAWNED);
    if !(exists fd :: fd in args.fds && !Owns(w.core, id, fd)) && |w.core.vms| <= MAX_VMS_COUNT {
      var child := w.core.nextVmId;
      Booted(isa, w, id, args);
      var b := BootVm(isa, w, args.location, Some(id), args.argc, args.argv, []);
      if b.Ok? {
        var w2 := b.w.(core := b.w.core.(fds := HandOver(b.w.core.fds, args.fds, child),
                                         inherited := b.w.core.inherited[child := args.fds]));
        AnswerIs(w2, id, args.processIdAddr, child);
        if r.Ok? {
          SpawnedIs(w.core, w2.core, r.w.core, id, args, w2.core.vms[child]);
        }
      }
    }
  }

  lemma SpawnedIs(c: Core, e: Core, d: Core, id: VmId, args: SpawnArgs, image: Vm)
    requires id in c.vms && c.nextVmId !in c.states && c.nextVmId !in c.vms && c.nextVmId !in c.terminated
    requires forall fd :: fd in args.fds ==> fd in c.fds
    requires var child := c.nextVmId;
             e == c.(nextVmId := child + 1, states := c.states[child := Runnable], vms := c.vms[child := image],
                     fds := HandOver(c.fds, args.fds, child), inherited := c.inherited[child := args.fds])
    requires id in d.vms && Answered(c.vms[id], d.vms[id], args.processIdAddr, c.nextVmId, 0)
    requires d == e.(vms := e.vms[id := d.vms[id]])
    ensures Spawned(c, d, id, args, image)
  {
    hide Answered, HandOver;
    HandOverIs(c.fds, args.fds, c.nextVmId);
  }

  lemma HandOverIs(fds: map<Fd, VmId>, moved: seq<Fd>, id: VmId)
    requires forall fd :: fd in moved ==> fd in fds
    ensures HandOver(fds, moved, id).Keys == fds.Keys
    ensures forall fd :: fd in fds ==> HandOver(fds, moved, id)[fd] == if fd in moved then id else fds[fd]
  {
    HandOverSize(fds, moved, id);
  }

  /** Machine `child` is new, runs and is `image`; machine `id` learns its id; `child` owns the
      descriptors of `args` and nobody else gains or loses one. */
  predicate Spawned(c: Core, d: Core, id: VmId, args: SpawnArgs, image: Vm) {
    var child := c.nextVmId;
    && child !in c.states && child !in c.vms && child !in c.terminated
    && id in c.vms && id in d.vms && Answered(c.vms[id], d.vms[id], args.processIdAddr, child, 0)
    && d.fds.Keys == c.fds.Keys
    && (forall fd :: fd in c.fds ==> d.fds[fd] == if fd in args.fds then child else c.fds[fd])
    && d == c.(nextVmId := child + 1, states := c.states[child := Runnable], fds := d.fds,
               vms := c.vms[child := image][id := d.vms[id]], inherited := c.inherited[child := args.fds])
  }

  lemma Booted(isa: Isa, w: Work, id: VmId, args: SpawnArgs)
    requires id in w.core.vms && w.core.nextVmId !in w.core.vms
    ensures var b, c := BootVm(isa, w, args.location, Some(id), args.argc, args.argv, []), w.core;
            match isa.fetch(args.location)
            case Some(code) => b.Err? && b.error == VmError(code)
            case None =>
              match isa.load(args.location, FromMemory(c.vms[id].cpu.memory, args.argc, args.argv))
              case LoadFailed(code) => b.Err? && b.error == VmError(code)
              case Loaded(cpu, bytes) =>
                && b.Ok?
                && b.w.core == c.(nextVmId := c.nextVmId + 1, states := c.states[c.nextVmId := Runnable],
                                  vms := c.vms[c.nextVmId := Vm(cpu, (bytes + 3) / 4)])
  {
  }

  lemma SameCount(c: Core)
    requires Inv(c)
    ensures |c.vms| == |c.states|
  {
    assert |c.vms| == |c.vms.Keys| && |c.states| == |c.states.Keys|;
  }

  lemma NewIdIsNew(c: Core)
    requires Inv(c)
    ensures c.nextVmId !in c.states && c.nextVmId !in c.vms && c.nextVmId !in c.terminated
  {
  }

  /** `m'` is `m` with the word `k` at `addr` and then the word `k'` at `addr'`. */
  predicate TwoWords(m: seq<Byte>, m': seq<Byte>, addr: nat, k: int, addr': nat, k': int) {
    && |m'| == |m| && addr + 8 <= |m| && addr' + 8 <= |m|
    && forall x :: 0 <= x < |m| ==>
         m'[x] == if addr' <= x < addr' + 8 then Le(k', 8)[x - addr']
                  else if addr <= x < addr + 8 then Le(k, 8)[x - addr]
                  else m[x]
  }

  /** A pipe is refused when there are too many descriptors, and fails if and only if one of its two
      descriptors has no place. Otherwise the machine finds two descriptors that nobody held, the
      ends of each other, with nothing in between; no other descriptor is touched. */
  lemma PipeIsNew(isa: Isa, w: Work, id: VmId, addr: nat, addr': nat, r: Res)
    requires Inv(w.core) && Sender(w.core, id) && r == OnMessage(isa, w, Message(id, Pipe(addr, addr')))
    ensures id in w.core.vms
    ensures |w.core.fds| >= MAX_FDS ==> r.Ok? && Refused(w.core, r.w.core, id, MAX_FDS_CREATED)
    ensures |w.core.fds| < MAX_FDS ==>
              && (r.Ok? <==> && InMemory(w.core.vms[id].cpu.memory, addr, 8)
                             && InMemory(w.core.vms[id].cpu.memory, addr', 8))
              && (r.Err? ==> r.error == MemOutOfBound)
              && (r.Ok? ==> Opens(w.core, r.w.core, id, addr, addr'))
  {
    hide Inv, AnswerTwo64, Reply, OpenLog, TwoWords, Opens;
    SenderAlive(w.core, id);
    NewSlot(w.core);
    ReplyIs(w, id, MAX_FDS_CREATED);
    var p := w.core.nextFdSlot;
    var w1 := w.(core := w.core.(nextFdSlot := p + 2, fds := w.core.fds[p := id][p + 1 := id],
                                 pipes := OpenLog(w.core.pipes, p + 1)));
    AnswerTwoIs(w1, id, addr, p, addr', p + 1);
    if |w.core.fds| < MAX_FDS && r.Ok? {
      OpensIs(w.core, r.w.core, id, addr, addr');
    }
  }

  lemma OpensIs(c: Core, d: Core, id: VmId, addr: nat, addr': nat)
    requires id in c.vms && id in d.vms && IsRead(c.nextFdSlot) && c.nextFdSlot !in c.fds && c.nextFdSlot + 1 !in c.fds
    requires var p := c.nextFdSlot;
             d == c.(nextFdSlot := p + 2, fds := c.fds[p := id][p + 1 := id], vms := c.vms[id := d.vms[id]],
                     pipes := OpenLog(c.pipes, p + 1))
    requires d.vms[id] == Vm(Cpu(c.vms[id].cpu.core, d.vms[id].cpu.memory, 0), c.vms[id].cycles)
    requires TwoWords(c.vms[id].cpu.memory, d.vms[id].cpu.memory, addr, c.nextFdSlot, addr', c.nextFdSlot + 1)
    ensures Opens(c, d, id, addr, addr')
  {
    hide TwoWords, OpenLog;
    NothingBetween(c.pipes, c.nextFdSlot + 1);
  }

  /** Machine `id` has opened a pipe and found its ends at `addr` and `addr'`. */
  ghost predicate Opens(c: Core, d: Core, id: VmId, addr: nat, addr': nat) {
    var p := c.nextFdSlot;
    && IsRead(p) && p !in c.fds && OtherFd(p) !in c.fds
    && id in c.vms && id in d.vms
    && d.vms[id] == Vm(Cpu(c.vms[id].cpu.core, d.vms[id].cpu.memory, 0), c.vms[id].cycles)
    && TwoWords(c.vms[id].cpu.memory, d.vms[id].cpu.memory, addr, p, addr', OtherFd(p))
    && Offered(d, OtherFd(p)) == [] && Delivered(d, OtherFd(p)) == []
    && (forall fd :: fd != OtherFd(p) ==> Offered(d, fd) == Offered(c, fd) && Delivered(d, fd) == Delivered(c, fd))
    && d == c.(nextFdSlot := p + 2, fds := c.fds[p := id][OtherFd(p) := id], vms := c.vms[id := d.vms[id]],
               pipes := d.pipes)
  }

  lemma NothingBetween(pipes: PipeLog, p: Fd)
    ensures Log(OpenLog(pipes, p).offered, p) == [] && Log(OpenLog(pipes, p).delivered, p) == []
    ensures forall fd :: fd != p ==> Log(OpenLog(pipes, p).offered, fd) == Log(pipes.offered, fd)
                                     && Log(OpenLog(pipes, p).delivered, fd) == Log(pipes.delivered, fd)
  {
  }

  lemma AnswerTwoIs(w: Work, id: VmId, addr: nat, k: int, addr': nat, k': int)
    requires id in w.core.vms
    ensures var r, m := AnswerTwo64(w, id, addr, k, addr', k'), w.core.vms[id].cpu.memory;
            && (r.Ok? <==> InMemory(m, addr, 8) && InMemory(m, addr', 8)) && (r.Err? ==> r.error == MemOutOfBound)
            && (r.Ok? ==>
                  && id in r.w.core.vms && r.w.core == w.core.(vms := w.core.vms[id := r.w.core.vms[id]])
                  && r.w.core.vms[id]
                     == Vm(Cpu(w.core.vms[id].cpu.core, r.w.core.vms[id].cpu.memory, 0), w.core.vms[id].cycles)
                  && TwoWords(m, r.w.core.vms[id].cpu.memory, addr, k, addr', k'))
  {
    hide StoreBytes, Le, TwoWords;
    TwoStores(w.core.vms[id].cpu.memory, addr, k, addr', k');
  }

  lemma TwoStores(m: seq<Byte>, addr: nat, k: int, addr': nat, k': int)
    ensures var m1 := StoreBytes(m, addr, Le(k, 8));
            && (m1.Some? <==> InMemory(m, addr, 8))
            && (m1.Some? ==> var m2 := StoreBytes(m1.value, addr', Le(k', 8));
                             && (m2.Some? <==> InMemory(m, addr', 8))
                             && (m2.Some? ==> TwoWords(m, m2.value, addr, k, addr', k')))
  {
    hide StoreBytes, Le;
    StoreIs(m, addr, Le(k, 8));
    var m1 := StoreBytes(m, addr, Le(k, 8));
    if m1.Some? {
      StoreIs(m1.value, addr', Le(k', 8));
    }
  }

  lemma NewSlot(c: Core)
    requires Inv(c)
    ensures IsRead(c.nextFdSlot) && c.nextFdSlot !in c.fds && c.nextFdSlot + 1 !in c.fds
  {
    SlotEven(c);
  }

  lemma StoreElsewhere(memory: seq<Byte>, addr: nat, data: seq<Byte>, from: nat)
    requires from + 8 <= addr || addr + |data| <= from
    ensures var m := StoreBytes(memory, addr, data); m.Some? ==>
                                                       LoadBytes(m.value, from, 8) == LoadBytes(memory, from, 8)
  {
    var m := StoreBytes(memory, addr, data);
    if m.Some? && data != [] && from + 8 <= |memory| {
      assert m.value[from..from + 8] == memory[from..from + 8];
    }
  }

  // ----- Inherited descriptors -----

  /** The words from `addr` on are `fds`. */
  predicate WordsAt(memory: seq<Byte>, addr: nat, fds: seq<Fd>) {
    forall i :: 0 <= i < |fds| ==> LoadBytes(memory, addr + 8 * i, 8) == Some(Le(fds[i], 8))
  }

  /** The same, but for the words that overlap the one at `at`. */
  predicate WordsBut(memory: seq<Byte>, addr: nat, fds: seq<Fd>, at: nat) {
    forall i :: 0 <= i < |fds| && (at + 8 <= addr + 8 * i || addr + 8 * i + 8 <= at) ==>
      LoadBytes(memory, addr + 8 * i, 8) == Some(Le(fds[i], 8))
  }

  /** `m'` is `m` but for `n` places from `addr` on. */
  predicate SameOutside(m: seq<Byte>, m': seq<Byte>, addr: nat, n: nat) {
    |m'| == |m| && forall x :: 0 <= x < |m| && !(addr <= x < addr + n) ==> m'[x] == m[x]
  }

  lemma {:induction false} PokeFdsIs(w: Work, id: VmId, addr: nat, fds: seq<Fd>)
    requires id in w.core.vms
    ensures var r, m := PokeFds(w, id, addr, fds), w.core.vms[id].cpu.memory;
            && (r.Ok? <==> InMemory(m, addr, 8 * |fds|)) && (r.Err? ==> r.error == MemOutOfBound)
            && id in r.w.core.vms && SameOutside(m, r.w.core.vms[id].cpu.memory, addr, 8 * |fds|)
    decreases |fds|
  {
    if fds != [] {
      hide Poke64;
      Poke64Is(w, id, addr, fds[0]);
      var p := Poke64(w, id, addr, fds[0]);
      if p.Ok? {
        PokeFdsIs(p.w, id, addr + 8, fds[1..]);
      }
    }
  }

  lemma Poke64Is(w: Work, id: VmId, addr: nat, value: int)
    requires id in w.core.vms
    ensures var r, m := Poke64(w, id, addr, value), w.core.vms[id].cpu.memory;
            && (r.Ok? <==> InMemory(m, addr, 8)) && (r.Err? ==> r.error == MemOutOfBound)
            && id in r.w.core.vms && SameOutside(m, r.w.core.vms[id].cpu.memory, addr, 8)
  {
    StoreIs(w.core.vms[id].cpu.memory, addr, Le(value, 8));
    hide StoreBytes, Le;
  }

  lemma {:induction false} PokeFdsStores(w: Work, id: VmId, addr: nat, fds: seq<Fd>, from: nat)
    requires id in w.core.vms && PokeFds(w, id, addr, fds).Ok?
    ensures var d := PokeFds(w, id, addr, fds).w.core;
            && OnlyVm(w.core, d, id)
            && WordsAt(d.vms[id].cpu.memory, addr, fds)
            && (from + 8 <= addr || addr + 8 * |fds| <= from ==>
                  LoadBytes(d.vms[id].cpu.memory, from, 8) == LoadBytes(w.core.vms[id].cpu.memory, from, 8))
    decreases |fds|
  {
    hide LoadBytes, Poke64, WordsAt;
    if fds == [] {
      NoWords(w.core.vms[id].cpu.memory, addr);
    } else {
      var w1 := Poke64(w, id, addr, fds[0]).w;
      Poke64Keeps(w, id, addr, fds[0]);
      Poke64Stores(w, id, addr, fds[0], addr);
      if from + 8 <= addr || addr + 8 * |fds| <= from {
        Poke64Stores(w, id, addr, fds[0], from);
        PokeFdsStores(w1, id, addr + 8, fds[1..], from);
      }
      PokeFdsStores(w1, id, addr + 8, fds[1..], addr);
      FirstWord(PokeFds(w1, id, addr + 8, fds[1..]).w.core.vms[id].cpu.memory, addr, fds);
    }
  }

  lemma NoWords(memory: seq<Byte>, addr: nat)
    ensures WordsAt(memory, addr, [])
  {
  }

  lemma Poke64Stores(w: Work, id: VmId, addr: nat, value: int, from: nat)
    requires id in w.core.vms && Poke64(w, id, addr, value).Ok?
    ensures var d := Poke64(w, id, addr, value).w.core;
            && id in d.vms
            && LoadBytes(d.vms[id].cpu.memory, addr, 8) == Some(Le(value, 8))
            && (from + 8 <= addr || addr + 8 <= from ==>
                  LoadBytes(d.vms[id].cpu.memory, from, 8) == LoadBytes(w.core.vms[id].cpu.memory, from, 8))
  {
    hide LoadBytes, StoreBytes, Le;
    StoreThenLoad(w.core.vms[id].cpu.memory, addr, Le(value, 8));
    if from + 8 <= addr || addr + 8 <= from {
      StoreElsewhere(w.core.vms[id].cpu.memory, addr, Le(value, 8), from);
    }
  }

  lemma FirstWord(memory: seq<Byte>, addr: nat, fds: seq<Fd>)
    requires fds != [] && LoadBytes(memory, addr, 8) == Some(Le(fds[0], 8)) && WordsAt(memory, addr + 8, fds[1..])
    ensures WordsAt(memory, addr, fds)
  {
    hide LoadBytes, Le;
    forall i | 0 < i < |fds|
      ensures LoadBytes(memory, addr + 8 * i, 8) == Some(Le(fds[i], 8))
    {
      assert fds[i] == fds[1..][i - 1];
      assert addr + 8 + 8 * (i - 1) == addr + 8 * i;
    }
  }

  /** A machine is given as many of its inherited descriptors as it has room for, in the order
      of the spawn, and told how many there are; this fails if and only if one of them has no place.
      The number is stored last: descriptors whose place overlaps that of the number are lost, and
      no others. */
  lemma InheritedAreTold(isa: Isa, w: Work, id: VmId, bufferAddr: nat, lengthAddr: nat, inherited: seq<Fd>, room: nat,
                         r: Res)
    requires Inv(w.core) && Sender(w.core, id)
    requires r == OnMessage(isa, w, Message(id, InheritedFd(bufferAddr, lengthAddr)))
    requires id == ROOT_VM_ID ==> inherited == []
    requires id != ROOT_VM_ID ==> id in w.core.inherited && inherited == w.core.inherited[id]
    requires id in w.core.vms && room < Pow256(8)
    requires InMemory(w.core.vms[id].cpu.memory, lengthAddr, 8) ==>
               LoadBytes(w.core.vms[id].cpu.memory, lengthAddr, 8) == Some(Le(room, 8))
    ensures var m, copied := w.core.vms[id].cpu.memory, if room < |inherited| then inherited[..room] else inherited;
            && (r.Ok? <==> InMemory(m, lengthAddr, 8) && InMemory(m, bufferAddr, 8 * |copied|))
            && (r.Err? ==> r.error == MemOutOfBound)
            && (r.Ok? ==> && OnlyVm(w.core, r.w.core, id) && Reports(r.w.core, id, lengthAddr, |inherited|)
                          && WordsBut(r.w.core.vms[id].cpu.memory, bufferAddr, copied, lengthAddr)
                          && InheritedOnly(m, r.w.core.vms[id].cpu.memory, bufferAddr, 8 * |copied|, lengthAddr))
  {
    hide Inv, LoadBytes, PokeFds, Le, Pow256, InheritedOnly, StoreBytes, InMemory;
    LeRoundTrip(room, 8);
    var copied := if room < |inherited| then inherited[..room] else inherited;
    var w1, m := Require(w, id).w, w.core.vms[id].cpu.memory;
    SliceIs(m, lengthAddr, 8);
    PokeFdsIs(w1, id, bufferAddr, copied);
    var p := PokeFds(w1, id, bufferAddr, copied);
    if InMemory(m, lengthAddr, 8) && p.Ok? {
      PokeFdsStores(w1, id, bufferAddr, copied, lengthAddr);
      InheritedWords(m, p.w.core.vms[id].cpu.memory, bufferAddr, copied, lengthAddr, Le(|inherited|, 8));
    }
  }

  /** Only the places of the descriptors and of their number have changed. */
  predicate InheritedOnly(m: seq<Byte>, m': seq<Byte>, addr: nat, n: nat, at: nat) {
    |m'| == |m| && forall x :: 0 <= x < |m| && !(addr <= x < addr + n) && !(at <= x < at + 8) ==> m'[x] == m[x]
  }

  lemma InheritedWords(m: seq<Byte>, m1: seq<Byte>, addr: nat, fds: seq<Fd>, at: nat, word: seq<Byte>)
    requires SameOutside(m, m1, addr, 8 * |fds|) && WordsAt(m1, addr, fds) && |word| == 8
    ensures StoreBytes(m1, at, word).Some? <==> InMemory(m, at, 8)
    ensures var m2 := StoreBytes(m1, at, word);
            m2.Some? ==> && LoadBytes(m2.value, at, 8) == Some(word) && WordsBut(m2.value, addr, fds, at)
                         && InheritedOnly(m, m2.value, addr, 8 * |fds|, at)
  {
    hide LoadBytes, StoreBytes, WordsAt, WordsBut;
    StoreIs(m1, at, word);
    StoreThenLoad(m1, at, word);
    var m2 := StoreBytes(m1, at, word);
    if m2.Some? {
      WordsStay(m1, m2.value, addr, fds, at, word);
    }
  }

  lemma WordsStay(memory: seq<Byte>, memory': seq<Byte>, addr: nat, fds: seq<Fd>, at: nat, data: seq<Byte>)
    requires WordsAt(memory, addr, fds) && StoreBytes(memory, at, data) == Some(memory') && |data| == 8
    ensures WordsBut(memory', addr, fds, at)
  {
    hide LoadBytes, StoreBytes, Le;
    forall i | 0 <= i < |fds| && (at + 8 <= addr + 8 * i || addr + 8 * i + 8 <= at)
      ensures LoadBytes(memory', addr + 8 * i, 8) == Some(Le(fds[i], 8))
    {
      StoreElsewhere(memory, at, data, addr + 8 * i);
    }
  }

  // ----- Read, write and close -----

  /** A read is refused if and only if the machine does not own the descriptor or the other end is
      gone. Otherwise the machine is blocked, and nothing else happens. */
  lemma ReadBlocks(isa: Isa, w: Work, id: VmId, args: FdArgs, r: Res)
    requires Inv(w.core) && Sender(w.core, id) && r == OnMessage(isa, w, Message(id, FdRead(args)))
    ensures r.Ok?
    ensures !Owns(w.core, id, args.fd) ==> Refused(w.core, r.w.core, id, INVALID_FD)
    ensures Owns(w.core, id, args.fd) && OtherFd(args.fd) !in w.core.fds ==>
              Refused(w.core, r.w.core, id, OTHER_END_CLOSED)
    ensures Owns(w.core, id, args.fd) && OtherFd(args.fd) in w.core.fds ==>
              && ReaderOn(r.w.core, id, args.fd)
              && r.w.core == w.core.(states := w.core.states[id := r.w.core.states[id]])
  {
    hide Inv, Reply;
    SenderAlive(w.core, id);
    ReplyIs(w, id, INVALID_FD);
    ReplyIs(w, id, OTHER_END_CLOSED);
  }

  /** What is left of a write of which machine `v` is in the middle: `n` bytes from `from` on. */
  predicate Writing(c: Core, v: VmId, fd: Fd, from: nat, n: nat) {
    && WriterOn(c, v, fd) && v in c.vms
    && from == c.states[v].write.bufferAddr + c.states[v].write.consumed
    && n + c.states[v].write.consumed == c.states[v].write.length
  }

  /** A read that has been accepted is served at once if a machine is writing at the other end: it
      finds success, as many bytes as both allow at the address of its buffer, and their number at
      the address given for it. */
  lemma ReadIsServed(isa: Isa, w: Work, id: VmId, args: FdArgs, c: Core, e: Core, v: VmId, from: nat, left: nat)
    requires Inv(w.core) && Sender(w.core, id) && Fifo(w.core) && IsRead(args.fd)
    requires Owns(w.core, id, args.fd) && Writing(w.core, v, OtherFd(args.fd), from, left)
    requires c == OnMessage(isa, w, Message(id, FdRead(args))).w.core && IoDone(c, e)
    ensures id in w.core.vms && id in e.vms && RunsIn(e, id)
    ensures var n := Smaller(args.length, left);
            && InMemory(w.core.vms[v].cpu.memory, from, n)
            && ReadVm(w.core.vms[id], e.vms[id], args.bufferAddr, args.lengthAddr,
                      Slice(w.core.vms[v].cpu.memory, from, n))
  {
    hide Inv, VmsOk, Fifo, ReadVm, InMemory, Slice, IoDone, OnMessage;
    SenderAlive(w.core, id);
    WriterHolds(w.core, v, OtherFd(args.fd));
    Accepted(isa, w, id, FdRead(args));
    ReadStateIs(isa, w, id, args, c);
    OtherOther(args.fd);
    ConnectedServed(c, e, id, v);
  }

  /** The pipes have been served, from `c` to `e`. */
  predicate IoDone(c: Core, e: Core) {
    var r := ProcessIo(Work(c, [], 0));
    r.Ok? && r.w.core == e
  }

  lemma WriterHolds(c: Core, v: VmId, fd: Fd)
    requires Inv(c) && WriterOn(c, v, fd)
    ensures fd in c.fds
  {
    assert StateOk(c, v, c.states[v]);
  }

  lemma ReadStateIs(isa: Isa, w: Work, id: VmId, args: FdArgs, c: Core)
    requires Sender(w.core, id) && c == OnMessage(isa, w, Message(id, FdRead(args))).w.core
    requires Owns(w.core, id, args.fd) && OtherFd(args.fd) in w.core.fds
    ensures c == w.core.(states := w.core.states[id := c.states[id]]) && Reads(c, id)
    ensures c.states[id].read
            == ReadState(fd := args.fd, length := args.length, bufferAddr := args.bufferAddr,
                         lengthAddr := args.lengthAddr)
  {
  }

  lemma ConnectedServed(c: Core, e: Core, r: VmId, v: VmId)
    requires VmsOk(c) && Fifo(c) && Connected(c, r, v) && IoDone(c, e)
    ensures PairOk(c, PairAt(c, r, v)) && PairServed(c, e, PairAt(c, r, v)) && RunsIn(e, r)
    ensures v in e.states && e.states[v] == Progress(c.states[v].write, c.states[r].read.length)
  {
    hide VmsOk, Fifo, ProcessIo, PairServed, IoFits;
    ProcessIoIs(Work(c, [], 0));
    ProcessIoServes(Work(c, [], 0));
    PairOpen(c, PairAt(c, r, v));
    assert ServedOnce(c, r, e.states[r]) && ServedOnce(c, v, e.states[v]);
  }

  /** A read that has been accepted while nobody is writing at the other end stays blocked and finds
      nothing. */
  lemma ReadWaits(isa: Isa, w: Work, id: VmId, args: FdArgs, c: Core, e: Core)
    requires Inv(w.core) && Sender(w.core, id) && Fifo(w.core) && IsRead(args.fd)
    requires Owns(w.core, id, args.fd) && OtherFd(args.fd) in w.core.fds
    requires forall v :: !WriterOn(w.core, v, OtherFd(args.fd))
    requires c == OnMessage(isa, w, Message(id, FdRead(args))).w.core && IoDone(c, e)
    ensures id in w.core.vms && id in e.vms && e.vms[id] == w.core.vms[id]
    ensures id in c.states && ReaderOn(e, id, args.fd) && e.states[id] == c.states[id]
  {
    hide Inv, VmsOk, Fifo, IoDone, OnMessage, ServedOnce;
    SenderAlive(w.core, id);
    Accepted(isa, w, id, FdRead(args));
    ReadStateIs(isa, w, id, args, c);
    OtherOther(args.fd);
    hide OtherFd;
    forall v
      ensures !WriterOn(c, v, OtherFd(args.fd))
    {
      assert !WriterOn(w.core, v, OtherFd(args.fd));
    }
    AloneUnchanged(c, e, id);
  }

  lemma AloneUnchanged(c: Core, e: Core, id: VmId)
    requires VmsOk(c) && Fifo(c) && Reads(c, id) && OtherEndOpen(c, c.states[id].read.fd) && IoDone(c, e)
    requires forall v :: !WriterOn(c, v, OtherFd(c.states[id].read.fd))
    ensures id in c.vms && id in e.vms && e.vms[id] == c.vms[id] && id in e.states && e.states[id] == c.states[id]
  {
    hide VmsOk, Fifo, ProcessIo, PairServed, EndTold, IoFits;
    ProcessIoIs(Work(c, [], 0));
    ProcessIoServes(Work(c, [], 0));
    assert ServedOnce(c, id, e.states[id]);
    SameKeys(c);
    forall r, v | Connected(c, r, v)
      ensures id != r && id != v
    {
      OtherOther(c.states[v].write.fd);
      assert !WriterOn(c, v, OtherFd(c.states[id].read.fd));
    }
  }

  lemma SameKeys(c: Core)
    requires VmsOk(c)
    ensures c.states.Keys == c.vms.Keys
  {
  }

  /** A write is refused if and only if the machine does not own the descriptor or the other end is
      gone. Otherwise the machine is blocked, and nothing else happens but that its bytes are offered. */
  lemma WriteBlocks(isa: Isa, w: Work, id: VmId, args: FdArgs, r: Res)
    requires Inv(w.core) && Sender(w.core, id) && r == OnMessage(isa, w, Message(id, FdWrite(args)))
    ensures r.Ok?
    ensures !Owns(w.core, id, args.fd) ==> Refused(w.core, r.w.core, id, INVALID_FD)
    ensures Owns(w.core, id, args.fd) && OtherFd(args.fd) !in w.core.fds ==>
              Refused(w.core, r.w.core, id, OTHER_END_CLOSED)
    ensures Owns(w.core, id, args.fd) && OtherFd(args.fd) in w.core.fds ==>
              && id in w.core.vms && Writing(r.w.core, id, args.fd, args.bufferAddr, args.length)
              && Offered(r.w.core, args.fd)
                 == Offered(w.core, args.fd) + Window(w.core.vms[id].cpu.memory, args.bufferAddr, args.length)
              && r.w.core == w.core.(states := w.core.states[id := r.w.core.states[id]], pipes := r.w.core.pipes)
  {
    hide Inv, Reply;
    SenderAlive(w.core, id);
    ReplyIs(w, id, INVALID_FD);
    ReplyIs(w, id, OTHER_END_CLOSED);
  }

  lemma WriteStateIs(isa: Isa, w: Work, id: VmId, args: FdArgs, c: Core)
    requires Sender(w.core, id) && id in w.core.vms && c == OnMessage(isa, w, Message(id, FdWrite(args))).w.core
    requires Owns(w.core, id, args.fd) && OtherFd(args.fd) in w.core.fds
    ensures c == w.core.(states := w.core.states[id := c.states[id]], pipes := c.pipes) && Writes(c, id)
    ensures c.states[id].write
            == WriteState(fd := args.fd, consumed := 0, length := args.length, bufferAddr := args.bufferAddr,
                          lengthAddr := args.lengthAddr)
  {
  }

  /** A write that has been accepted is served at once if machine `v` is reading at the other end:
      `v` finds as many bytes as both allow, from the address of the buffer of the write on. When
      these are all, the writer finds success and their number at the address given for it;
      otherwise it stays blocked with the rest. */
  lemma WriteIsServed(isa: Isa, w: Work, id: VmId, args: FdArgs, c: Core, e: Core, v: VmId, n: nat)
    requires Inv(w.core) && Sender(w.core, id) && Fifo(w.core) && IsWrite(args.fd)
    requires Owns(w.core, id, args.fd) && ReaderOn(w.core, v, OtherFd(args.fd))
    requires c == OnMessage(isa, w, Message(id, FdWrite(args))).w.core && IoDone(c, e)
    requires n == Smaller(w.core.states[v].read.length, args.length)
    ensures id in w.core.vms && id in e.vms && id in e.states && v in w.core.vms && v in e.vms && RunsIn(e, v)
    ensures InMemory(w.core.vms[id].cpu.memory, args.bufferAddr, n)
    ensures ReadVm(w.core.vms[v], e.vms[v], w.core.states[v].read.bufferAddr, w.core.states[v].read.lengthAddr,
                   Slice(w.core.vms[id].cpu.memory, args.bufferAddr, n))
    ensures WriteVm(w.core.vms[id], e.vms[id], args.lengthAddr, args.length, args.length, n)
    ensures e.states[id] == if n == args.length then Runnable
                            else WaitForWrite(WriteState(fd := args.fd, consumed := n, length := args.length,
                                                         bufferAddr := args.bufferAddr, lengthAddr := args.lengthAddr))
  {
    hide Inv, VmsOk, Fifo, ReadVm, InMemory, Slice, IoDone, OnMessage, WriteVm;
    SenderAlive(w.core, id);
    ReaderHolds(w.core, v, OtherFd(args.fd));
    Accepted(isa, w, id, FdWrite(args));
    WriteStateIs(isa, w, id, args, c);
    ConnectedServed(c, e, v, id);
  }

  lemma ReaderHolds(c: Core, v: VmId, fd: Fd)
    requires Inv(c) && ReaderOn(c, v, fd)
    ensures fd in c.fds
  {
    assert StateOk(c, v, c.states[v]);
  }

  /** A close is refused if and only if the machine does not own the descriptor. Otherwise the
      descriptor is gone, all others keep their owners, and the machine finds success. */
  lemma CloseTells(isa: Isa, w: Work, id: VmId, fd: Fd, r: Res)
    requires Inv(w.core) && Sender(w.core, id) && r == OnMessage(isa, w, Message(id, Close(fd)))
    ensures r.Ok?
    ensures !Owns(w.core, id, fd) ==> Refused(w.core, r.w.core, id, INVALID_FD)
    ensures Owns(w.core, id, fd) ==>
              && fd !in r.w.core.fds && r.w.core.fds.Keys == w.core.fds.Keys - {fd}
              && (forall g :: g in w.core.fds && g != fd ==> r.w.core.fds[g] == w.core.fds[g])
              && Refused(w.core.(fds := r.w.core.fds), r.w.core, id, SUCCESS)
  {
    hide Inv, Reply;
    SenderAlive(w.core, id);
    ReplyIs(w, id, INVALID_FD);
    ReplyIs(w.(core := w.core.(fds := w.core.fds - {fd})), id, SUCCESS);
  }

  /** A machine that is blocked at the other end of a descriptor that is closed runs again once the
      pipes have been served: a reader is told 0, a writer what went through before. */
  lemma CloseWakes(isa: Isa, w: Work, id: VmId, fd: Fd, c: Core, e: Core, v: VmId)
    requires Inv(w.core) && Sender(w.core, id) && Fifo(w.core) && Owns(w.core, id, fd)
    requires c == OnMessage(isa, w, Message(id, Close(fd))).w.core && IoDone(c, e)
    requires ReaderOn(w.core, v, OtherFd(fd)) || WriterOn(w.core, v, OtherFd(fd))
    ensures RunsIn(e, v) && v in w.core.vms && v in e.vms
    ensures Reads(w.core, v) ==> Answered(w.core.vms[v], e.vms[v], w.core.states[v].read.lengthAddr, 0, 0)
    ensures Writes(w.core, v) ==> Answered(w.core.vms[v], e.vms[v], w.core.states[v].write.lengthAddr,
                                           w.core.states[v].write.consumed, 0)
  {
    hide Inv, VmsOk, Fifo, IoDone, OnMessage, Answered;
    SenderAlive(w.core, id);
    CloseTells(isa, w, id, fd, OnMessage(isa, w, Message(id, Close(fd))));
    Accepted(isa, w, id, Close(fd));
    OtherOther(fd);
    LostServed(c, e, v);
  }

  lemma LostServed(c: Core, e: Core, v: VmId)
    requires VmsOk(c) && Fifo(c) && LostEnd(c, v) && IoDone(c, e)
    ensures v in c.vms && v in c.states && EndTold(c, e, v) && RunsIn(e, v)
  {
    hide VmsOk, Fifo, ProcessIo, PairServed, EndTold, IoFits;
    SameKeys(c);
    ProcessIoIs(Work(c, [], 0));
    ProcessIoServes(Work(c, [], 0));
    assert ServedOnce(c, v, e.states[v]);
  }

  /** Once a descriptor has been closed, reads and writes of the other end are told so. */
  lemma CloseIsSeen(isa: Isa, w: Work, id: VmId, fd: Fd, c: Work, v: VmId, args: FdArgs, request: Request)
    requires Inv(w.core) && Sender(w.core, id) && Fifo(w.core) && Owns(w.core, id, fd)
    requires OnMessage(isa, w, Message(id, Close(fd))) == Ok(c) && args.fd == OtherFd(fd)
    requires Sender(w.core, v) && Owns(w.core, v, args.fd) && (request == FdRead(args) || request == FdWrite(args))
    ensures Answers(isa, c, v, request, OTHER_END_CLOSED)
  {
    hide Inv, OnMessage, Fifo, VmsOk;
    SenderAlive(w.core, id);
    CloseTells(isa, w, id, fd, Ok(c));
    Accepted(isa, w, id, Close(fd));
    OtherOther(fd);
    if request == FdRead(args) {
      ReadBlocks(isa, c, v, args, OnMessage(isa, c, Message(v, request)));
    } else {
      WriteBlocks(isa, c, v, args, OnMessage(isa, c, Message(v, request)));
    }
  }

  lemma Accepted(isa: Isa, w: Work, id: VmId, request: Request)
    requires Inv(w.core) && Sender(w.core, id) && Fifo(w.core) && !FrontEndRejects(request)
    ensures var c := OnMessage(isa, w, Message(id, request)).w.core; Inv(c) && VmsOk(c) && Fifo(c)
  {
    hide Inv, Fifo, VmsOk, OnMessage;
    OnMessageKeeps(isa, w, Message(id, request));
    OnMessageFifo(isa, w, Message(id, request));
    assert VmsOk(OnMessage(isa, w, Message(id, request)).w.core) by {
      InvVms(OnMessage(isa, w, Message(id, request)).w.core);
    }
  }

  lemma InvVms(c: Core)
    requires Inv(c)
    ensures VmsOk(c)
  {
    hide VmsOk;
  }
}
