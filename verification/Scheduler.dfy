/** The scheduler as an object that updates its maps in place, with instantiated and suspended
    machines kept apart. Every method is tied to the function on values it carries out. */
module ScriptScheduler {
  import opened Basics
  import opened Machine
  import opened SchedulerModel
  import opened SchedulerInvariant
  import opened SchedulerSystem
  import opened SchedulerCache
  import opened SchedulerRuns

  lemma {:induction false} ServeAllSnoc(cap: nat, cache: Cache, needs: seq<Need>, need: Need)
    ensures ServeAll(cap, cache, needs + [need]) == Serve(cap, ServeAll(cap, cache, needs), need)
    decreases |needs|
  {
    hide Serve;
    if needs == [] {
      assert needs + [need] == [need] && [need][1..] == [];
    } else {
      assert (needs + [need])[1..] == needs[1..] + [need];
      ServeAllSnoc(cap, Serve(cap, cache, needs[0]), needs[1..], need);
    }
  }

  ghost predicate Increasing(s: seq<int>) {
    forall i, j :: 0 <= i < j < |s| ==> s[i] < s[j]
  }

  lemma AscendingIncreases(s: set<int>)
    ensures Increasing(Ascending(s)) && Increasing([])
  {
  }

  /** `picked` has the elements of `keys` that are not in `ids`. */
  ghost predicate OthersAmong(keys: seq<VmId>, ids: seq<VmId>, picked: seq<VmId>) {
    forall id :: id in picked <==> id in keys && id !in ids
  }

  lemma {:induction false} AscendingIsUnique(s: seq<int>, elements: set<int>)
    requires Increasing(s) && forall x :: x in s <==> x in elements
    ensures s == Ascending(elements)
    decreases |s|
  {
    if s == [] {
      assert elements == {};
    } else {
      assert s[0] in s;
      var m := Min(elements);
      assert m in s;
      assert s[0] == m;
      var rest := s[1..];
      assert s == [m] + rest;
      assert forall i :: 0 <= i < |rest| ==> rest[i] == s[i + 1];
      AscendingIsUnique(rest, elements - {m});
    }
  }

  lemma RequireBothIs(w: Work, id: VmId, id': VmId, ids: seq<VmId>)
    requires ids == [id, id']
    ensures id in w.core.vms && id' in w.core.vms ==>
              RequireBoth(w, id, id') == Ok(Work(w.core, w.needs + [Attend(ids)], w.charged))
    ensures !(id in w.core.vms && id' in w.core.vms) ==> RequireBoth(w, id, id') == Err(Unexpected, w)
  {
  }

  lemma TwoIn(m: map<VmId, Vm>, id: VmId, id': VmId, ids: seq<VmId>)
    requires ids == [id, id']
    ensures Elements(ids) <= m.Keys <==> id in m && id' in m
  {
    TwoElements(id, id', ids);
  }

  lemma TwoElements(id: VmId, id': VmId, ids: seq<VmId>)
    requires ids == [id, id']
    ensures Elements(ids) == {id, id'} && |ids| == 2 && (id != id' ==> Distinct(ids))
  {
  }

  lemma ElementsAt(ids: seq<VmId>, i: nat)
    requires i < |ids|
    ensures Elements(ids[i..]) == {ids[i]} + Elements(ids[i + 1..])
    ensures Distinct(ids[i..]) ==> Distinct(ids[i + 1..]) && ids[i] !in Elements(ids[i + 1..])
  {
    ElementsCons(ids[i..]);
    assert ids[i..][1..] == ids[i + 1..];
  }

  /** Where bringing in `missing` leads; a name for the value that the loops keep. */
  ghost function Brought(cache: Cache, ids: seq<VmId>, missing: seq<VmId>): Cache {
    Bring(MAX_INSTANTIATED_VMS, cache, ids, missing)
  }

  lemma BroughtStep(cache: Cache, ids: seq<VmId>, missing: seq<VmId>, next: Cache)
    requires missing != [] && |cache.resident| < MAX_INSTANTIATED_VMS
    requires next == Cache(cache.resident + {missing[|missing| - 1]}, cache.swaps + 1)
    ensures Brought(next, ids, missing[..|missing| - 1]) == Brought(cache, ids, missing)
  {
    BringStep(MAX_INSTANTIATED_VMS, cache, ids, missing);
  }

  ghost function Swapped(cache: Cache, victims: seq<VmId>, missing: seq<VmId>): Cache {
    SwapIn(cache, victims, missing)
  }

  lemma SwappedAt(cache: Cache, victims: seq<VmId>, missing: seq<VmId>, i: nat, next: Cache)
    requires i < |missing| <= |victims|
    requires next == Cache(cache.resident - {victims[i]} + {missing[i]}, cache.swaps + 2)
    ensures Swapped(next, victims[i + 1..], missing[i + 1..]) == Swapped(cache, victims[i..], missing[i..])
  {
    SwapInAt(cache, victims, missing, i);
  }

  /** `missing` lists the machines of `ids` that are not instantiated, each once. */
  ghost predicate Lacking(resident: set<VmId>, ids: seq<VmId>, missing: seq<VmId>) {
    Distinct(missing) && Elements(missing) == Elements(ids) - resident
  }

  /** All of `missing` but `rest` are among `keys`. */
  ghost predicate AllBut(missing: seq<VmId>, rest: seq<VmId>, keys: set<VmId>) {
    Elements(rest) <= Elements(missing) && Elements(missing) - Elements(rest) <= keys
  }

  lemma AllButNone(missing: seq<VmId>, keys: set<VmId>)
    ensures AllBut(missing, missing, keys)
  {
  }

  lemma AllButRest(missing: seq<VmId>, rest: seq<VmId>, keys: set<VmId>)
    requires AllBut(missing, rest, keys)
    ensures Elements(missing) <= keys <==> Elements(rest) <= keys
    ensures rest == [] ==> Elements(missing) <= keys
  {
  }

  lemma LackingStep(resident: set<VmId>, ids: seq<VmId>, rest: seq<VmId>, missing: seq<VmId>, keys: set<VmId>)
    requires rest != [] && Lacking(resident, ids, rest) && AllBut(missing, rest, keys)
    ensures rest[|rest| - 1] !in resident && Lacking(resident + {rest[|rest| - 1]}, ids, rest[..|rest| - 1])
    ensures if rest[|rest| - 1] in keys then AllBut(missing, rest[..|rest| - 1], keys) else !(Elements(missing) <= keys)
  {
    ElementsSnoc(rest);
    hide Elements, Distinct;
    assert rest[|rest| - 1] in Elements(rest);
  }

  ghost predicate Exchangeable(resident: set<VmId>, victims: seq<VmId>, missing: seq<VmId>) {
    Distinct(victims) && Distinct(missing) && Elements(victims) <= resident && Elements(missing) !! resident
  }

  lemma ExchangeableAt(resident: set<VmId>, victims: seq<VmId>, missing: seq<VmId>, i: nat, keys: set<VmId>)
    requires i < |missing| <= |victims| && Exchangeable(resident, victims[i..], missing[i..])
             && AllBut(missing, missing[i..], keys)
    ensures victims[i] in resident && missing[i] !in resident && missing[i] != victims[i]
    ensures Exchangeable(resident - {victims[i]} + {missing[i]}, victims[i + 1..], missing[i + 1..])
    ensures if missing[i] in keys then AllBut(missing, missing[i + 1..], keys) else !(Elements(missing) <= keys)
  {
    ElementsAt(victims, i);
    ElementsAt(missing, i);
    hide Elements, Distinct;
    assert victims[i] in Elements(victims[i..]) && missing[i] in Elements(missing[i..]);
  }

  /** The cache that has met `needs`. */
  ghost function Served(start: Cache, needs: seq<Need>): Cache {
    ServeAll(MAX_INSTANTIATED_VMS, start, needs)
  }

  lemma AdmitTarget(start: Cache, needs: seq<Need>, cache: Cache, id: VmId)
    requires cache == Served(start, needs)
    ensures Served(start, needs + [Admit(id)])
            == Cache(MakeRoom(MAX_INSTANTIATED_VMS, cache).resident + {id}, MakeRoom(MAX_INSTANTIATED_VMS, cache).swaps)
  {
    hide MakeRoom;
    ServeAllSnoc(MAX_INSTANTIATED_VMS, start, needs, Admit(id));
  }

  lemma DropTarget(start: Cache, needs: seq<Need>, cache: Cache, id: VmId)
    requires cache == Served(start, needs)
    ensures Served(start, needs + [Drop(id)]) == Cache(cache.resident - {id}, cache.swaps)
  {
    ServeAllSnoc(MAX_INSTANTIATED_VMS, start, needs, Drop(id));
  }

  lemma OnlyTarget(start: Cache, needs: seq<Need>, cache: Cache, id: VmId)
    requires cache == Served(start, needs)
    ensures Served(start, needs + [Only(id)]) == Cache(cache.resident * {id}, cache.swaps)
  {
    ServeAllSnoc(MAX_INSTANTIATED_VMS, start, needs, Only(id));
  }

  /** What meeting one more request comes to. */
  lemma AttendTarget(start: Cache, needs: seq<Need>, cache: Cache, ids: seq<VmId>, keys: set<VmId>)
    requires cache == Served(start, needs) && Distinct(ids) && cache.resident <= keys
    requires |cache.resident| <= MAX_INSTANTIATED_VMS && |ids| <= MAX_INSTANTIATED_VMS
    ensures Lacking(cache.resident, ids, Missing(cache.resident, ids))
    ensures Served(start, needs + [Attend(ids)]) == Brought(cache, ids, Missing(cache.resident, ids))
    ensures Elements(ids) <= Brought(cache, ids, Missing(cache.resident, ids)).resident
    ensures Elements(Missing(cache.resident, ids)) <= keys <==> Elements(ids) <= keys
  {
    hide Bring, ServeAll, Distinct, Elements;
    ServeAllSnoc(MAX_INSTANTIATED_VMS, start, needs, Attend(ids));
    MissingDistinct(cache.resident, ids);
    AttendEffect(MAX_INSTANTIATED_VMS, cache, ids);
  }

  lemma SwapInAt(cache: Cache, victims: seq<VmId>, missing: seq<VmId>, i: nat)
    requires i < |missing| <= |victims|
    ensures SwapIn(cache, victims[i..], missing[i..])
            == SwapIn(Cache(cache.resident - {victims[i]} + {missing[i]}, cache.swaps + 2), victims[i + 1..],
                      missing[i + 1..])
  {
    hide SwapIn;
    SwapInStep(cache, victims[i..], missing[i..]);
    assert victims[i..][1..] == victims[i + 1..] && missing[i..][1..] == missing[i + 1..];
  }

  lemma SwappedNothing(cache: Cache, victims: seq<VmId>)
    ensures Swapped(cache, victims, []) == cache && Elements([]) == {}
  {
  }

  lemma BroughtFull(cache: Cache, ids: seq<VmId>, missing: seq<VmId>)
    requires missing != [] ==> |cache.resident| >= MAX_INSTANTIATED_VMS
    ensures missing != [] ==>
              Brought(cache, ids, missing) == Swapped(cache, Ascending(cache.resident - Elements(ids)), missing)
    ensures missing == [] ==> Brought(cache, ids, missing) == cache
  {
  }

  /** The `assert!` in `ensure_vms_instantiated` does not fail. */
  lemma EnoughToSuspend(resident: set<VmId>, ids: seq<VmId>, missing: seq<VmId>, victims: seq<VmId>)
    requires |ids| <= MAX_INSTANTIATED_VMS <= |resident| && Distinct(ids)
    requires Lacking(resident, ids, missing) && victims == Ascending(resident - Elements(ids))
    ensures |missing| <= |victims| && Exchangeable(resident, victims, missing)
  {
    ElementsCount(ids);
    EnoughVictims(MAX_INSTANTIATED_VMS, resident, ids, missing);
  }

  // ----- A map kept in two parts -----

  lemma Resumed(a: map<VmId, Vm>, b: map<VmId, Vm>, id: VmId)
    requires a.Keys !! b.Keys && id in b
    ensures a[id := b[id]] + (b - {id}) == a + b
  {
    assert (a[id := b[id]] + (b - {id})).Keys == (a + b).Keys;
  }

  lemma ResumedKeys(a: map<VmId, Vm>, b: map<VmId, Vm>, id: VmId, vm: Vm)
    requires a.Keys !! b.Keys && id in b
    ensures var a', b' := a[id := vm], b - {id};
            a'.Keys == a.Keys + {id} && a'.Keys !! b'.Keys && |a'.Keys| == |a.Keys| + 1
  {
    var a', b' := a[id := vm], b - {id};
    assert a'.Keys == a.Keys + {id} && b'.Keys == b.Keys - {id};
  }

  lemma Suspended(a: map<VmId, Vm>, b: map<VmId, Vm>, id: VmId)
    requires a.Keys !! b.Keys && id in a
    ensures (a - {id}) + b[id := a[id]] == a + b
  {
    assert ((a - {id}) + b[id := a[id]]).Keys == (a + b).Keys;
  }

  lemma SuspendedKeys(a: map<VmId, Vm>, b: map<VmId, Vm>, id: VmId, vm: Vm)
    requires a.Keys !! b.Keys && id in a
    ensures (a - {id}).Keys == a.Keys - {id} && (a - {id}).Keys !! b[id := vm].Keys
    ensures |a.Keys - {id}| == |a.Keys| - 1
  {
    assert b[id := vm].Keys == b.Keys + {id};
  }

  lemma Admitted(a: map<VmId, Vm>, b: map<VmId, Vm>, id: VmId, vm: Vm)
    requires a.Keys !! b.Keys && id !in a + b
    ensures a[id := vm] + b == (a + b)[id := vm]
    ensures a[id := vm].Keys == a.Keys + {id} && a[id := vm].Keys !! b.Keys
    ensures |a.Keys + {id}| == |a.Keys| + 1
  {
    Updated(a, b, id, vm);
  }

  lemma Dropped(a: map<VmId, Vm>, b: map<VmId, Vm>, id: VmId)
    requires a.Keys !! b.Keys
    ensures (a - {id}) + (b - {id}) == (a + b) - {id}
  {
    assert ((a - {id}) + (b - {id})).Keys == ((a + b) - {id}).Keys;
  }

  lemma DroppedKeys(a: map<VmId, Vm>, b: map<VmId, Vm>, id: VmId)
    requires a.Keys !! b.Keys
    ensures (a - {id}).Keys == a.Keys - {id} && (a - {id}).Keys !! (b - {id}).Keys
    ensures |a.Keys - {id}| <= |a.Keys|
  {
    FewerElements(a.Keys - {id}, a.Keys);
  }

  lemma Retained(a: map<VmId, Vm>, id: VmId)
    requires id in a
    ensures (map v | v in a && v == id :: a[v]) == map[id := a[id]]
    ensures map[id := a[id]] + map[] == map[id := a[id]]
    ensures a.Keys * {id} == {id} == map[id := a[id]].Keys
  {
  }

  lemma Updated(a: map<VmId, Vm>, b: map<VmId, Vm>, id: VmId, vm: Vm)
    requires a.Keys !! b.Keys && id !in b
    ensures a[id := vm] + b == (a + b)[id := vm]
    ensures id in a ==> a[id := vm].Keys == a.Keys
    ensures a[id := vm].Keys == a.Keys + {id}
  {
    assert (a[id := vm] + b).Keys == (a + b)[id := vm].Keys;
  }

  ghost function WithVm(w: Work, id: VmId, vm: Vm): Work {
    Work(Core(w.core.nextVmId, w.core.nextFdSlot, w.core.states, w.core.fds, w.core.inherited, w.core.vms[id := vm],
              w.core.terminated, w.core.pipes), w.needs, w.charged)
  }

  lemma AddCyclesIs(w: Work, id: VmId, cycles: nat)
    requires id in w.core.vms
    ensures AddCycles(w, id, cycles)
            == Work(Core(w.core.nextVmId, w.core.nextFdSlot, w.core.states, w.core.fds, w.core.inherited,
                         w.core.vms[id := Vm(w.core.vms[id].cpu, w.core.vms[id].cycles + cycles)],
                         w.core.terminated, w.core.pipes), w.needs, w.charged + cycles)
  {
  }

  lemma PokeFdsAt(w: Work, id: VmId, addr: nat, list: seq<Fd>, i: nat)
    requires id in w.core.vms && i < |list|
    ensures Poke(w, id, addr + 8 * i, Le(list[i], 8)).Err? ==>
              PokeFds(w, id, addr + 8 * i, list[i..]) == Poke(w, id, addr + 8 * i, Le(list[i], 8))
    ensures Poke(w, id, addr + 8 * i, Le(list[i], 8)).Ok? ==>
              && id in Poke(w, id, addr + 8 * i, Le(list[i], 8)).w.core.vms
              && PokeFds(w, id, addr + 8 * i, list[i..])
                 == PokeFds(Poke(w, id, addr + 8 * i, Le(list[i], 8)).w, id, addr + 8 * (i + 1), list[i + 1..])
  {
    assert list[i..][1..] == list[i + 1..];
  }

  lemma PokeNoFds(w: Work, id: VmId, addr: nat, list: seq<Fd>)
    requires id in w.core.vms && list == []
    ensures PokeFds(w, id, addr, list) == Ok(w)
  {
  }

  /** The next key of an ascending list is above everything picked from the keys before it. */
  lemma PrefixBelow(keys: seq<int>, i: nat, picked: seq<int>)
    requires Increasing(keys) && i < |keys| && forall x :: x in picked ==> x in keys[..i]
    ensures keys[..i + 1] == keys[..i] + [keys[i]]
    ensures Increasing(picked) ==> Increasing(picked + [keys[i]])
    ensures keys[i] !in keys[..i]
  {
    assert forall k :: 0 <= k < |picked| ==> picked[k] in picked;
  }

  function WakeOne(w: Work, id: VmId, addr: nat, code: ExitCode): Res {
    var w1 :- Require(w, id);
    var w2 :- Poke8(w1, id, addr, code);
    Ok(w2.(core := SetState(SetA0(w2.core, id, SUCCESS), id, Runnable)))
  }

  /** `ids` lists the machines among `keys` that wait for `target`, in order, and `addrs` where each wants the code. */
  ghost predicate Joined(c: Core, keys: seq<VmId>, target: VmId, ids: seq<VmId>, addrs: seq<nat>) {
    && |addrs| == |ids| && Increasing(ids)
    && (forall id :: id in ids <==> id in keys && id in Joiners(c, target))
    && (forall k :: 0 <= k < |ids| ==> ids[k] in c.states && c.states[ids[k]] == Waiting(target, addrs[k]))
  }

  lemma JoinedNobody(c: Core, keys: seq<VmId>, target: VmId)
    ensures Joined(c, keys[..0], target, [], [])
  {
  }

  lemma JoinedStep(c: Core, keys: seq<VmId>, i: nat, target: VmId, ids: seq<VmId>, addrs: seq<nat>)
    requires keys == Ascending(c.states.Keys) && i < |keys| && Joined(c, keys[..i], target, ids, addrs)
    ensures keys[i] in c.states
    ensures keys[i] in Joiners(c, target) ==>
              Joined(c, keys[..i + 1], target, ids + [keys[i]], addrs + [c.states[keys[i]].exitCodeAddr])
    ensures keys[i] !in Joiners(c, target) ==> Joined(c, keys[..i + 1], target, ids, addrs)
  {
    hide Ascending;
    assert keys[i] in keys;
    PrefixBelow(keys, i, ids);
    hide Increasing;
  }

  lemma JoinedAll(c: Core, keys: seq<VmId>, target: VmId, ids: seq<VmId>, addrs: seq<nat>)
    requires keys == Ascending(c.states.Keys) && Joined(c, keys[..|keys|], target, ids, addrs)
    ensures ids == Ascending(Joiners(c, target)) && |addrs| == |ids|
    ensures forall i :: 0 <= i < |ids| ==> ids[i] in c.states && c.states[ids[i]] == Waiting(target, addrs[i])
  {
    hide Ascending;
    assert keys[..|keys|] == keys;
    AscendingIsUnique(ids, Joiners(c, target));
  }

  lemma WakeAt(w: Work, ids: seq<VmId>, addr: nat, code: ExitCode, i: nat)
    requires i < |ids| && ids[i] in w.core.states && w.core.states[ids[i]].Waiting?
             && w.core.states[ids[i]].exitCodeAddr == addr
    ensures WakeOne(w, ids[i], addr, code).Err? ==> WakeJoiners(w, ids[i..], code) == WakeOne(w, ids[i], addr, code)
    ensures WakeOne(w, ids[i], addr, code).Ok? ==>
              WakeJoiners(w, ids[i..], code) == WakeJoiners(WakeOne(w, ids[i], addr, code).w, ids[i + 1..], code)
  {
    assert ids[i..][1..] == ids[i + 1..];
  }

  lemma WakeNobody(w: Work, ids: seq<VmId>, code: ExitCode)
    requires ids == []
    ensures WakeJoiners(w, ids, code) == Ok(w)
  {
  }

  function OnlyRoot(w: Work, id: VmId): Work
    requires id in w.core.vms
  {
    Work(Core(w.core.nextVmId, w.core.nextFdSlot, map[id := Terminated], w.core.fds, w.core.inherited,
              map[id := w.core.vms[id]], w.core.terminated, w.core.pipes), w.needs + [Only(id)], w.charged)
  }

  function RootGone(w: Work, id: VmId): Res {
    var w1 :- Require(w, id);
    Ok(OnlyRoot(w1, id))
  }

  function OpenFds(fds: map<Fd, VmId>, id: VmId): map<Fd, VmId> {
    map fd | fd in fds && fds[fd] != id :: fds[fd]
  }

  function Purged(w: Work, id: VmId): Work {
    Work(Core(w.core.nextVmId, w.core.nextFdSlot, w.core.states - {id}, OpenFds(w.core.fds, id), w.core.inherited,
              w.core.vms - {id}, w.core.terminated, w.core.pipes), w.needs + [Drop(id)], w.charged)
  }

  function ChildGone(w: Work, id: VmId, code: ExitCode): Res {
    var w1 :- WakeJoiners(w, Ascending(Joiners(w.core, id)), code);
    Ok(Purged(w1, id))
  }

  ghost function ExitNoted(w: Work, id: VmId, code: ExitCode): Work {
    Work(Core(w.core.nextVmId, w.core.nextFdSlot, w.core.states, w.core.fds, w.core.inherited, w.core.vms,
              w.core.terminated[id := code], w.core.pipes), w.needs, w.charged)
  }

  lemma OnResultIs(isa: Isa, w: Work, id: VmId, box: seq<Message>, outcome: Outcome)
    ensures OnMessages(isa, w, box).Err? ==> OnResult(isa, w, id, box, outcome) == OnMessages(isa, w, box)
    ensures OnMessages(isa, w, box).Ok? && outcome.Failed? ==>
              OnResult(isa, w, id, box, outcome) == Err(outcome.error, OnMessages(isa, w, box).w)
    ensures OnMessages(isa, w, box).Ok? && outcome.Yielded? ==>
              OnResult(isa, w, id, box, outcome) == OnMessages(isa, w, box)
    ensures OnMessages(isa, w, box).Ok? && outcome.Exited? ==>
              OnResult(isa, w, id, box, outcome)
              == if id == ROOT_VM_ID then RootGone(ExitNoted(OnMessages(isa, w, box).w, id, outcome.code), id)
                 else ChildGone(ExitNoted(OnMessages(isa, w, box).w, id, outcome.code), id, outcome.code)
  {
    hide OnMessages, WakeJoiners;
  }

  // ----- Collecting readers and writers -----

  /** `table` has the largest reader of every descriptor that is read from. */
  ghost predicate Tabulates(c: Core, table: map<Fd, (VmId, ReadState)>) {
    && (forall fd :: fd in table <==> ReadersOf(c, fd) != {})
    && (forall fd :: fd in table ==> var r := Max(ReadersOf(c, fd)); table[fd] == (r, c.states[r].read))
  }

  /** The same for the readers among `ids`. */
  ghost predicate TabulatesAmong(c: Core, ids: seq<VmId>, table: map<Fd, (VmId, ReadState)>) {
    && (forall fd :: fd in table ==>
          table[fd].0 in ids && table[fd].0 in ReadersOf(c, fd) && table[fd].1 == c.states[table[fd].0].read)
    && (forall id, fd :: id in ids && id in ReadersOf(c, fd) ==> fd in table && id <= table[fd].0)
  }

  ghost predicate ClosedAmong(c: Core, ids: seq<VmId>, closed: seq<VmId>) {
    forall id :: id in closed <==> id in ids && id in ClosedReaders(c)
  }

  lemma ReaderStep(c: Core, ids: seq<VmId>, id: VmId, table: map<Fd, (VmId, ReadState)>, closed: seq<VmId>)
    requires id in c.states && (forall x :: x in ids ==> x < id)
    requires TabulatesAmong(c, ids, table) && ClosedAmong(c, ids, closed)
    ensures !Reads(c, id) ==> TabulatesAmong(c, ids + [id], table) && ClosedAmong(c, ids + [id], closed)
    ensures Reads(c, id) && OtherEndOpen(c, c.states[id].read.fd) ==>
              && TabulatesAmong(c, ids + [id], table[c.states[id].read.fd := (id, c.states[id].read)])
              && ClosedAmong(c, ids + [id], closed)
    ensures Reads(c, id) && !OtherEndOpen(c, c.states[id].read.fd) ==>
              && TabulatesAmong(c, ids + [id], table)
              && ClosedAmong(c, ids + [id], closed + [id])
  {
  }

  lemma ReadersDone(c: Core, ids: seq<VmId>, table: map<Fd, (VmId, ReadState)>, closed: seq<VmId>)
    requires (forall id :: id in ids <==> id in c.states) && Increasing(closed)
    requires TabulatesAmong(c, ids, table) && ClosedAmong(c, ids, closed)
    ensures closed == Ascending(ClosedReaders(c)) && Tabulates(c, table)
  {
    AscendingIsUnique(closed, ClosedReaders(c));
    forall fd
      ensures fd in table <==> ReadersOf(c, fd) != {}
      ensures fd in table ==> table[fd].0 == Max(ReadersOf(c, fd))
    {
      if ReadersOf(c, fd) != {} {
        var m := Max(ReadersOf(c, fd));
        assert m in ids;
      }
    }
  }

  ghost predicate WritersAmong(c: Core, ids: seq<VmId>, writers: seq<VmId>, closed: seq<VmId>) {
    && (forall id :: id in closed <==> id in ids && id in ClosedWriters(c))
    && (forall id :: id in writers <==> id in ids && id in MatchedWriters(c))
  }

  ghost predicate PairedWith(c: Core, writers: seq<VmId>, pairs: seq<Pair>) {
    && (forall id :: id in writers ==> id in MatchedWriters(c))
    && pairs == PairsOf(c, writers)
  }

  ghost predicate Collected(c: Core, ids: seq<VmId>, table: map<Fd, (VmId, ReadState)>, closed: seq<VmId>) {
    Increasing(closed) && ClosedAmong(c, ids, closed) && TabulatesAmong(c, ids, table)
  }

  lemma CollectedNobody(c: Core, keys: seq<VmId>)
    ensures Collected(c, keys[..0], map[], [])
  {
  }

  lemma CollectedStep(c: Core, keys: seq<VmId>, i: nat, table: map<Fd, (VmId, ReadState)>, closed: seq<VmId>)
    requires keys == Ascending(c.states.Keys) && i < |keys| && Collected(c, keys[..i], table, closed)
    ensures keys[i] in c.states
    ensures !Reads(c, keys[i]) ==> Collected(c, keys[..i + 1], table, closed)
    ensures Reads(c, keys[i]) && OtherEndOpen(c, c.states[keys[i]].read.fd) ==>
              Collected(c, keys[..i + 1], table[c.states[keys[i]].read.fd := (keys[i], c.states[keys[i]].read)], closed)
    ensures Reads(c, keys[i]) && !OtherEndOpen(c, c.states[keys[i]].read.fd) ==>
              Collected(c, keys[..i + 1], table, closed + [keys[i]])
  {
    hide Ascending, ReadersOf, ClosedReaders, TabulatesAmong;
    assert keys[i] in keys;
    PrefixBelow(keys, i, closed);
    assert forall x :: x in keys[..i] ==> x < keys[i];
    ReaderStep(c, keys[..i], keys[i], table, closed);
    hide Increasing, ClosedAmong;
  }

  lemma CollectedAll(c: Core, keys: seq<VmId>, table: map<Fd, (VmId, ReadState)>, closed: seq<VmId>)
    requires keys == Ascending(c.states.Keys) && Collected(c, keys, table, closed)
    ensures closed == Ascending(ClosedReaders(c)) && Tabulates(c, table)
  {
    hide Ascending, TabulatesAmong, ClosedAmong, Increasing, Tabulates, ClosedReaders;
    ReadersDone(c, keys, table, closed);
  }

  lemma NoPairs(c: Core)
    ensures PairedWith(c, [], [])
  {
  }

  lemma MorePairs(c: Core, writers: seq<VmId>, pairs: seq<Pair>, id: VmId)
    requires PairedWith(c, writers, pairs) && id in MatchedWriters(c)
    ensures PairedWith(c, writers + [id], pairs + [PairOf(c, id)])
  {
    hide MatchedWriters, PairOf;
    var longer := PairsOf(c, writers + [id]);
    assert forall i :: 0 <= i < |writers| ==> longer[i] == PairOf(c, writers[i]);
    assert longer == pairs + [PairOf(c, id)];
  }

  lemma WriterStep(c: Core, ids: seq<VmId>, id: VmId, table: map<Fd, (VmId, ReadState)>, writers: seq<VmId>,
                   closed: seq<VmId>,
                   pairs: seq<Pair>)
    requires id in c.states && Tabulates(c, table) && WritersAmong(c, ids, writers, closed)
             && PairedWith(c, writers, pairs)
    ensures !Writes(c, id) ==> WritersAmong(c, ids + [id], writers, closed)
    ensures Writes(c, id) && !OtherEndOpen(c, c.states[id].write.fd) ==>
              WritersAmong(c, ids + [id], writers, closed + [id])
    ensures Writes(c, id) && OtherEndOpen(c, c.states[id].write.fd) && OtherFd(c.states[id].write.fd) !in table ==>
              WritersAmong(c, ids + [id], writers, closed)
    ensures Writes(c, id) && OtherEndOpen(c, c.states[id].write.fd) && OtherFd(c.states[id].write.fd) in table ==>
              && WritersAmong(c, ids + [id], writers + [id], closed)
              && PairedWith(c, writers + [id], pairs + [Pair(table[OtherFd(c.states[id].write.fd)].0,
                                                             table[OtherFd(c.states[id].write.fd)].1, id,
                                                             c.states[id].write)])
  {
    if Writes(c, id) && OtherEndOpen(c, c.states[id].write.fd) && OtherFd(c.states[id].write.fd) in table {
      MorePairs(c, writers, pairs, id);
    }
    hide PairsOf, Max, ReadersOf;
  }

  lemma WritersDone(c: Core, ids: seq<VmId>, writers: seq<VmId>, closed: seq<VmId>, pairs: seq<Pair>)
    requires (forall id :: id in ids <==> id in c.states) && Increasing(closed) && Increasing(writers)
    requires WritersAmong(c, ids, writers, closed) && PairedWith(c, writers, pairs)
    ensures closed == Ascending(ClosedWriters(c)) && pairs == PairsOf(c, Ascending(MatchedWriters(c)))
  {
    AscendingIsUnique(closed, ClosedWriters(c));
    AscendingIsUnique(writers, MatchedWriters(c));
  }

  function FinishOne(w: Work, id: VmId): Res {
    if id !in w.core.states then Err(Panic, w)
    else
      var state := w.core.states[id];
      if !state.WaitForRead? && !state.WaitForWrite? then Ok(w)
      else
        var w1 :- if state.WaitForRead? then Answer64(w, id, state.read.lengthAddr, 0)
                  else Answer64(w, id, state.write.lengthAddr, state.write.consumed);
        Ok(w1.(core := SetState(w1.core, id, Runnable)))
  }

  lemma FinishAt(w: Work, ids: seq<VmId>, i: nat)
    requires i < |ids|
    ensures FinishOne(w, ids[i]).Err? ==> FinishClosed(w, ids[i..]) == FinishOne(w, ids[i])
    ensures FinishOne(w, ids[i]).Ok? ==> FinishClosed(w, ids[i..]) == FinishClosed(FinishOne(w, ids[i]).w, ids[i + 1..])
  {
    hide Answer64;
    assert ids[i..][1..] == ids[i + 1..];
  }

  lemma FinishNobody(w: Work, ids: seq<VmId>)
    requires ids == []
    ensures FinishClosed(w, ids) == Ok(w)
  {
  }

  /** The part of `Deliver` that concerns the reader alone. */
  function Receive(w: Work, p: Pair, data: seq<Byte>): Res
    requires p.reader in w.core.vms
  {
    var w1 :- Poke(w, p.reader, p.read.bufferAddr, data);
    var w2 := w1.(core := w1.core.(pipes := LogDelivery(w1.core.pipes, p.write.fd, data)));
    Announced(w2, p.reader, p.read.lengthAddr, Le(|data|, 8))
  }

  /** Store `data` for machine `id` and let it go on. */
  function Announced(w: Work, id: VmId, addr: nat, data: seq<Byte>): Res
    requires id in w.core.vms
  {
    var w1 :- Poke(w, id, addr, data);
    Ok(w1.(core := SetState(SetA0(w1.core, id, SUCCESS), id, Runnable)))
  }

  lemma OnWaitElse(w: Work, id: VmId, target: VmId, addr: nat)
    ensures target in w.core.terminated && Require(w, id).Err? ==> OnWait(w, id, target, addr) == Require(w, id)
    ensures target !in w.core.terminated && target !in w.core.states ==>
              OnWait(w, id, target, addr) == Reply(w, id, WAIT_FAILURE)
    ensures target !in w.core.terminated && target in w.core.states ==>
              OnWait(w, id, target, addr) == Ok(w.(core := SetState(w.core, id, Waiting(target, addr))))
  {
    hide Require, Poke, Reply;
  }

  lemma OnWaitIs(w: Work, w1: Work, id: VmId, target: VmId, addr: nat, code: int, r: Res)
    requires target in w.core.terminated && Require(w, id) == Ok(w1) && id in w1.core.vms
    requires code == w.core.terminated[target] && r == Announced(w1, id, addr, [(code % 256) as Byte])
    ensures r.Err? ==> OnWait(w, id, target, addr) == r
    ensures r.Ok? ==> OnWait(w, id, target, addr)
                      == Ok(r.w.(core := r.w.core.(terminated := r.w.core.terminated - {target})))
  {
    hide StoreBytes;
  }

  lemma DeliverIs(w: Work, p: Pair)
    requires p.write.consumed <= p.write.length && p.reader in w.core.vms && p.writer in w.core.vms
    ensures p.writer in AddCycles(w, p.writer, TransferredByteCycles(Copiable(p))).core.vms
    ensures p.reader in AddCycles(w, p.writer, TransferredByteCycles(Copiable(p))).core.vms
    ensures LoadBytes(AddCycles(w, p.writer, TransferredByteCycles(Copiable(p))).core.vms[p.writer].cpu.memory,
                      p.write.bufferAddr + p.write.consumed, Copiable(p)).None? ==>
              Deliver(w, p) == Err(MemOutOfBound, AddCycles(w, p.writer, TransferredByteCycles(Copiable(p))))
    ensures LoadBytes(AddCycles(w, p.writer, TransferredByteCycles(Copiable(p))).core.vms[p.writer].cpu.memory,
                      p.write.bufferAddr + p.write.consumed, Copiable(p)).Some? ==>
              && p.reader in AddCycles(AddCycles(w, p.writer, TransferredByteCycles(Copiable(p))), p.reader,
                                       TransferredByteCycles(Copiable(p))).core.vms
              && Deliver(w, p)
                 == Receive(AddCycles(AddCycles(w, p.writer, TransferredByteCycles(Copiable(p))), p.reader,
                                      TransferredByteCycles(Copiable(p))),
                            p,
                            LoadBytes(AddCycles(w, p.writer,
                                                TransferredByteCycles(Copiable(p))).core.vms[p.writer].cpu.memory,
                                      p.write.bufferAddr + p.write.consumed, Copiable(p)).value)
  {
    hide Poke, LoadBytes, LogDelivery;
  }

  lemma TransferAt(w: Work, pairs: seq<Pair>, i: nat)
    requires i < |pairs|
    ensures Transfer(w, pairs[i]).Err? ==> TransferAll(w, pairs[i..]) == Transfer(w, pairs[i])
    ensures Transfer(w, pairs[i]).Ok? ==>
              TransferAll(w, pairs[i..]) == TransferAll(Transfer(w, pairs[i]).w, pairs[i + 1..])
  {
    hide Transfer;
    assert pairs[i..][1..] == pairs[i + 1..];
  }

  lemma TransferNothing(w: Work, pairs: seq<Pair>)
    requires pairs == []
    ensures TransferAll(w, pairs) == Ok(w)
  {
  }

  lemma PairsAreApart(c: Core)
    ensures forall i :: 0 <= i < |PairsOf(c, Ascending(MatchedWriters(c)))| ==>
              PairsOf(c, Ascending(MatchedWriters(c)))[i].reader != PairsOf(c, Ascending(MatchedWriters(c)))[i].writer
  {
    hide Ascending, MatchedWriters, PairsOf;
    PairsArePairs(c, PairsOf(c, Ascending(MatchedWriters(c))));
  }

  lemma AfterRunIs(w: Work, w': Work, id: VmId, r: RunResult)
    requires id in w.core.vms && w.needs == [] && w.charged == 0 && Require(w, id) == Ok(w')
    ensures w'.core == w.core && WithVm(w', id, Vm(r.vm.cpu, 0)) == AfterRun(w.core, id, r)
  {
  }

  lemma SameIds(c: Core, id: VmId, r: RunResult)
    requires id in c.vms
    ensures AfterRun(c, id, r).core.nextVmId == c.nextVmId && AfterRun(c, id, r).core.vms.Keys == c.vms.Keys
  {
  }

  lemma RequireKnown(w: Work, id: VmId)
    requires id in w.core.vms
    ensures Require(w, id).Ok? && Require(w, id).w.core == w.core
  {
  }

  lemma NobodyRuns(isa: Isa, c: Core, base: nat, limit: nat, budget: Option<nat>)
    requires RunnableVms(c) == {}
    ensures TakeTurn(isa, c, base, limit, budget) == Turn(ROOT_VM_ID, Err(Deadlock, Work(c, [], 0)), 0, 0, budget)
  {
  }

  lemma IoIsExpected(c: Core)
    requires VmsOk(c) || Finished(c)
    ensures ProcessIo(Idle(c)).Err? ==> ProcessIo(Idle(c)).error != Unexpected
  {
    hide ProcessIo, VmsOk;
    if VmsOk(c) {
      IoCore(c);
    } else {
      QuiescentIo(c);
    }
  }

  lemma TurnLeavesVms(isa: Isa, c: Core, base: nat, limit: nat, budget: Option<nat>)
    requires Inv(c)
    ensures VmsOk(TakeTurn(isa, c, base, limit, budget).res.w.core)
            || Finished(TakeTurn(isa, c, base, limit, budget).res.w.core)
  {
    hide TakeTurn, Inv, Live, Finished, VmsOk;
    TakeTurnKeeps(isa, c, base, limit, budget);
    if !Finished(TakeTurn(isa, c, base, limit, budget).res.w.core) {
      LiveVms(TakeTurn(isa, c, base, limit, budget).res.w.core);
    }
  }

  lemma IterateStops(isa: Isa, cap: nat, s: System, limit: nat, budget: Option<nat>, t: Turn, s1: System)
    requires t == TakeTurn(isa, s.core, s.total, limit, budget) && s1 == Account(cap, s, t.res.w, t.cycles, t.ran)
    requires limit < s1.iteration
    ensures Iterate(isa, cap, s, limit, budget) == Broke(s1.(total := s1.total + s1.iteration), CyclesExceeded)
  {
    hide TakeTurn, Account, ProcessIo;
  }

  lemma IterateGoesOn(isa: Isa, cap: nat, s: System, limit: nat, budget: Option<nat>, t: Turn, s1: System, s3: System)
    requires t == TakeTurn(isa, s.core, s.total, limit, budget) && s1 == Account(cap, s, t.res.w, t.cycles, t.ran)
    requires s1.iteration <= limit
    requires s3 == Account(cap, s1.(total := s1.total + s1.iteration, iteration := 0), ProcessIo(Idle(s1.core)).w, 0, 0)
    ensures Iterate(isa, cap, s, limit, budget)
            == if ProcessIo(Idle(s1.core)).Err? then Broke(s3, ProcessIo(Idle(s1.core)).error)
               else if t.res.Err? then Broke(s3, t.res.error)
               else Iterated(s3, t.id, limit - s1.iteration, t.budget)
  {
    hide TakeTurn, Account, ProcessIo;
  }

  lemma EndedHolds(cap: nat, s: System)
    requires Ended(cap, s)
    ensures s.iteration == 0 && ROOT_VM_ID in s.core.terminated
  {
  }

  function Prefixed(executed: seq<VmId>, r: SchedulerSystem.Run): SchedulerSystem.Run {
    match r
    case Done(s, more) => Done(s, executed + more)
    case Stopped(s, error, more) => Stopped(s, error, executed + more)
  }

  lemma PrefixedAfter(executed: seq<VmId>, id: VmId, r: SchedulerSystem.Run)
    ensures Prefixed(executed, r.After(id)) == Prefixed(executed + [id], r)
  {
    assert executed + ([id] + r.executed) == executed + [id] + r.executed;
  }

  lemma LargestRunnable(c: Core, keys: seq<VmId>, i: nat)
    requires keys == Ascending(c.states.Keys) && i < |keys| && keys[i] in c.states && c.states[keys[i]].Runnable?
    requires forall k :: i < k < |keys| ==> keys[k] in c.states && !c.states[keys[k]].Runnable?
    ensures RunnableVms(c) != {} && keys[i] == Max(RunnableVms(c))
  {
    hide Ascending, Max;
    assert keys[i] in RunnableVms(c);
    var m := Max(RunnableVms(c));
    assert m in keys;
    var k :| 0 <= k < |keys| && keys[k] == m;
  }

  lemma NobodyRunnable(c: Core, keys: seq<VmId>)
    requires keys == Ascending(c.states.Keys)
    requires forall k :: 0 <= k < |keys| ==> keys[k] in c.states && !c.states[keys[k]].Runnable?
    ensures RunnableVms(c) == {}
  {
    hide Ascending;
    forall id | id in c.states
      ensures id !in RunnableVms(c)
    {
      assert id in keys;
    }
  }

  lemma RunnableLives(c: Core)
    requires Inv(c) && RunnableVms(c) != {}
    ensures Max(RunnableVms(c)) in c.vms
  {
  }

  lemma NextIsFresh(c: Core)
    requires Inv(c)
    ensures c.nextVmId !in c.vms
  {
  }

  // ----- Booting, spelled out -----

  /** The core that `BootVm` looks at: only the id has been taken. */
  ghost function IdTaken(w: Work): Work {
    Work(Core(w.core.nextVmId + 1, w.core.nextFdSlot, w.core.states, w.core.fds, w.core.inherited, w.core.vms,
              w.core.terminated, w.core.pipes), w.needs, w.charged)
  }

  ghost function ParentIn(w: Work, parent: Option<VmId>): Res {
    if parent.None? then Ok(IdTaken(w)) else Require(IdTaken(w), parent.value)
  }

  lemma BootFails(isa: Isa, w: Work, location: Location, parent: Option<VmId>, argc: nat, argv: nat,
                  rootArgs: seq<seq<Byte>>)
    ensures isa.fetch(location).Some? ==>
              BootVm(isa, w, location, parent, argc, argv, rootArgs)
              == Err(VmError(isa.fetch(location).value), IdTaken(w))
    ensures isa.fetch(location).None? && ParentIn(w, parent).Err? ==>
              BootVm(isa, w, location, parent, argc, argv, rootArgs) == ParentIn(w, parent)
  {
  }

  ghost function Started(w: Work, id: VmId, cpu: Cpu, cycles: nat): Work {
    Work(Core(w.core.nextVmId, w.core.nextFdSlot, w.core.states[id := Runnable], w.core.fds, w.core.inherited,
              w.core.vms[id := Vm(cpu, cycles)], w.core.terminated, w.core.pipes),
         w.needs + [Admit(id)], w.charged + cycles)
  }

  lemma BootLoads(isa: Isa, w: Work, w': Work, location: Location, parent: Option<VmId>, argc: nat, argv: nat,
                  rootArgs: seq<seq<Byte>>, l: Loaded)
    requires isa.fetch(location).None? && ParentIn(w, parent) == Ok(w')
    requires l == isa.load(location, Arguments(w', parent, argc, argv, rootArgs))
    ensures l.LoadFailed? ==> BootVm(isa, w, location, parent, argc, argv, rootArgs) == Err(VmError(l.code), w')
    ensures l.Loaded? ==>
              BootVm(isa, w, location, parent, argc, argv, rootArgs)
              == Ok(Started(w', w.core.nextVmId, l.cpu, TransferredByteCycles(l.bytes)))
  {
  }

  class Scheduler {
    const isa: Isa
    var totalCycles: nat
    var iterationCycles: nat
    var nextVmId: VmId
    var nextFdSlot: Fd
    var states: map<VmId, VmState>
    var fds: map<Fd, VmId>
    var inheritedFd: map<VmId, seq<Fd>>
    var instantiated: map<VmId, Vm>
    var suspended: map<VmId, Vm>
    var terminatedVms: map<VmId, ExitCode>
    var messageBox: seq<Message>

    // The history of the pipes, and what has been asked of the cache since `start`.
    ghost var pipes: PipeLog
    ghost var needs: seq<Need>
    ghost var charged: nat
    ghost var cache: Cache
    ghost var start: Cache
    ghost var startCycles: nat
    ghost var allCharged: nat

    ghost function W(): Work
      reads this
    {
      Work(Core(nextVmId, nextFdSlot, states, fds, inheritedFd, instantiated + suspended, terminatedVms, pipes), needs,
           charged)
    }

    /** A machine is instantiated or suspended, and not too many are instantiated. */
    ghost predicate Shape()
      reads `instantiated, `suspended, `cache
    {
      && instantiated.Keys !! suspended.Keys
      && cache.resident == instantiated.Keys
      && |cache.resident| <= MAX_INSTANTIATED_VMS
    }

    /** The cost of moving machines is in the iteration. */
    ghost predicate Valid()
      reads `instantiated, `suspended, `cache, `iterationCycles, `start, `startCycles
    {
      && Shape()
      && iterationCycles + SPAWN_EXTRA_CYCLES_BASE * start.swaps == startCycles + SPAWN_EXTRA_CYCLES_BASE * cache.swaps
    }

    /** The cache has met the needs stated so far. */
    ghost predicate Tied()
      reads `instantiated, `suspended, `cache, `iterationCycles, `start, `startCycles, `needs
    {
      Valid() && cache == Served(start, needs)
    }

    /** The outcome `e` is that of `r`, and so is the state. */
    ghost predicate Agrees(r: Res, e: Option<Error>)
      reads this
    {
      && e == (if r.Ok? then None else Some(r.error))
      && (e != Some(Unexpected) ==> Tied() && W() == r.w)
    }

    // ----- The cache -----

    method ResumeVm(id: VmId) returns (e: Option<Error>)
      requires Valid()
      requires |cache.resident| < MAX_INSTANTIATED_VMS
      modifies `iterationCycles, `instantiated, `suspended, `cache
      ensures Valid() && instantiated + suspended == old(instantiated + suspended)
      ensures e == (if id in old(suspended) then None else Some(Unexpected))
      ensures e.None? ==> cache == Cache(old(cache.resident) + {id}, old(cache.swaps) + 1)
      ensures e.Some? ==> unchanged(this)
    {
      if id !in suspended {
        return Some(Unexpected);
      }
      var snapshot := suspended[id];
      iterationCycles := iterationCycles + SPAWN_EXTRA_CYCLES_BASE;
      Resumed(instantiated, suspended, id);
      ResumedKeys(instantiated, suspended, id, snapshot);
      instantiated := instantiated[id := snapshot];
      suspended := suspended - {id};
      cache := Cache(cache.resident + {id}, cache.swaps + 1);
      e := None;
    }

    method SuspendVm(id: VmId) returns (e: Option<Error>)
      requires Valid()
      modifies `iterationCycles, `instantiated, `suspended, `cache
      ensures Valid() && instantiated + suspended == old(instantiated + suspended)
      ensures e == (if id in old(instantiated) then None else Some(Unexpected))
      ensures e.None? ==>
                && cache == Cache(old(cache.resident) - {id}, old(cache.swaps) + 1)
                && |cache.resident| == old(|cache.resident|) - 1
      ensures e.Some? ==> unchanged(this)
    {
      if id !in instantiated {
        return Some(Unexpected);
      }
      iterationCycles := iterationCycles + SPAWN_EXTRA_CYCLES_BASE;
      var snapshot := instantiated[id];
      Suspended(instantiated, suspended, id);
      SuspendedKeys(instantiated, suspended, id, snapshot);
      suspended := suspended[id := snapshot];
      instantiated := instantiated - {id};
      cache := Cache(cache.resident - {id}, cache.swaps + 1);
      e := None;
    }

    /** The requested machines that are not instantiated, in the order of the request. */
    method Uninstantiated(ids: seq<VmId>) returns (missing: seq<VmId>)
      ensures missing == Missing(instantiated.Keys, ids)
    {
      missing := [];
      var i := |ids|;
      while i > 0
        invariant 0 <= i <= |ids|
        invariant missing == Missing(instantiated.Keys, ids[i..])
      {
        i := i - 1;
        assert ids[i..][1..] == ids[i + 1..];
        if ids[i] !in instantiated {
          missing := [ids[i]] + missing;
        }
      }
      assert ids[0..] == ids;
    }

    /** Bring in `missing` from the back while there is room. */
    method ResumeWhileRoom(ids: seq<VmId>, missing: seq<VmId>) returns (rest: seq<VmId>, e: Option<Error>)
      requires Valid() && Lacking(cache.resident, ids, missing)
      modifies `iterationCycles, `instantiated, `suspended, `cache
      ensures Valid() && instantiated + suspended == old(instantiated + suspended)
      ensures e.Some? ==> e.value == Unexpected && !(Elements(missing) <= old(instantiated + suspended).Keys)
      ensures e.None? ==>
                && Lacking(cache.resident, ids, rest)
                && AllBut(missing, rest, old(instantiated + suspended).Keys)
                && (rest == [] || |cache.resident| == MAX_INSTANTIATED_VMS)
                && Brought(cache, ids, rest) == old(Brought(cache, ids, missing))
    {
      hide Brought, Lacking, AllBut, Elements;
      ghost var target := Brought(cache, ids, missing);
      ghost var keys := (instantiated + suspended).Keys;
      rest := missing;
      AllButNone(missing, keys);
      while rest != [] && |instantiated.Keys| < MAX_INSTANTIATED_VMS
        invariant Valid() && instantiated + suspended == old(instantiated + suspended)
        invariant Lacking(cache.resident, ids, rest) && AllBut(missing, rest, keys)
        invariant Brought(cache, ids, rest) == target
        decreases |rest|
      {
        var n := |rest| - 1;
        var id := rest[n];
        ghost var next := Cache(cache.resident + {id}, cache.swaps + 1);
        BroughtStep(cache, ids, rest, next);
        LackingStep(cache.resident, ids, rest, missing, keys);
        rest := rest[..n];
        e := ResumeVm(id);
        if e.Some? {
          return;
        }
        assert cache == next;
      }
      e := None;
    }

    /** Exchange machines `victims` for `missing`, one for one. */
    method Exchange(victims: seq<VmId>, missing: seq<VmId>) returns (e: Option<Error>)
      requires Valid() && |victims| >= |missing| && Exchangeable(cache.resident, victims, missing)
      modifies `iterationCycles, `instantiated, `suspended, `cache
      ensures Valid() && instantiated + suspended == old(instantiated + suspended)
      ensures e == (if Elements(missing) <= old(instantiated + suspended).Keys then None else Some(Unexpected))
      ensures e.None? ==> cache == Swapped(old(cache), victims, missing)
    {
      hide Swapped, Exchangeable, AllBut, Elements, Valid;
      ValidCache();
      ghost var target := Swapped(cache, victims, missing);
      ghost var keys := (instantiated + suspended).Keys;
      assert victims[0..] == victims && missing[0..] == missing;
      AllButNone(missing, keys);
      for i := 0 to |missing|
        invariant Valid() && instantiated + suspended == old(instantiated + suspended)
        invariant cache.resident == instantiated.Keys && |cache.resident| <= MAX_INSTANTIATED_VMS
        invariant Exchangeable(cache.resident, victims[i..], missing[i..]) && AllBut(missing, missing[i..], keys)
        invariant Swapped(cache, victims[i..], missing[i..]) == target
      {
        ghost var next := Cache(cache.resident - {victims[i]} + {missing[i]}, cache.swaps + 2);
        SwappedAt(cache, victims, missing, i, next);
        ExchangeableAt(cache.resident, victims, missing, i, keys);
        e := SuspendVm(victims[i]);
        ValidCache();
        e := ResumeVm(missing[i]);
        if e.Some? {
          return;
        }
        ValidCache();
        assert cache == next;
      }
      assert missing[|missing|..] == [];
      SwappedNothing(cache, victims[|missing|..]);
      AllButRest(missing, [], keys);
      e := None;
    }

    /** The instantiated machines that were not asked for, smallest id first. */
    method Suspendable(ids: seq<VmId>) returns (victims: seq<VmId>)
      requires cache.resident == instantiated.Keys
      ensures victims == Ascending(cache.resident - Elements(ids))
    {
      hide Ascending, Increasing;
      var keys := Ascending(instantiated.Keys);
      AscendingIncreases(instantiated.Keys);
      victims := [];
      for i := 0 to |keys|
        invariant Increasing(victims) && OthersAmong(keys[..i], ids, victims)
      {
        PrefixBelow(keys, i, victims);
        if keys[i] !in ids {
          victims := victims + [keys[i]];
        }
      }
      assert keys[..|keys|] == keys;
      AscendingIsUnique(victims, cache.resident - Elements(ids));
    }

    lemma ValidCache()
      requires Valid()
      ensures cache.resident == instantiated.Keys && |cache.resident| <= MAX_INSTANTIATED_VMS
      ensures cache.resident <= (instantiated + suspended).Keys
    {
    }

    /** Bring in `missing`, suspending other machines where there is no room. */
    method BringIn(ids: seq<VmId>, missing: seq<VmId>) returns (e: Option<Error>)
      requires Valid() && Lacking(cache.resident, ids, missing) && |ids| <= MAX_INSTANTIATED_VMS && Distinct(ids)
      modifies `iterationCycles, `instantiated, `suspended, `cache
      ensures Valid() && instantiated + suspended == old(instantiated + suspended)
      ensures e == (if Elements(missing) <= old(instantiated + suspended).Keys then None else Some(Unexpected))
      ensures e.None? ==> cache == Brought(old(cache), ids, missing)
    {
      hide Brought, Distinct, Elements, Swapped, Lacking, AllBut, Exchangeable, Valid;
      ghost var keys := (instantiated + suspended).Keys;
      var rest;
      rest, e := ResumeWhileRoom(ids, missing);
      if e.Some? {
        return;
      }
      BroughtFull(cache, ids, rest);
      AllButRest(missing, rest, keys);
      if rest != [] {
        ValidCache();
        var victims := Suspendable(ids);
        EnoughToSuspend(cache.resident, ids, rest, victims);
        if |victims| < |rest| {
          return Some(Panic);
        }
        e := Exchange(victims, rest);
      }
    }

    method EnsureVmsInstantiated(ids: seq<VmId>) returns (e: Option<Error>)
      requires Tied() && Distinct(ids)
      modifies `iterationCycles, `instantiated, `suspended, `cache, `needs
      ensures Valid() && instantiated + suspended == old(instantiated + suspended)
      ensures e == (if |ids| <= MAX_INSTANTIATED_VMS && Elements(ids) <= old(instantiated + suspended).Keys then None
                    else Some(Unexpected))
      ensures e.None? ==> Tied() && needs == old(needs) + [Attend(ids)] && Elements(ids) <= instantiated.Keys
    {
      hide Brought, Distinct, Elements, Served, Lacking, Valid;
      if |ids| > MAX_INSTANTIATED_VMS {
        return Some(Unexpected);
      }
      ValidCache();
      var missing := Uninstantiated(ids);
      AttendTarget(start, needs, cache, ids, (instantiated + suspended).Keys);
      e := BringIn(ids, missing);
      if e.Some? {
        return;
      }
      ValidCache();
      needs := needs + [Attend(ids)];
    }

    // ----- Machines at hand -----

    method EnsureGetInstantiated(id: VmId) returns (e: Option<Error>)
      requires Tied()
      modifies `iterationCycles, `instantiated, `suspended, `cache, `needs
      ensures Agrees(Require(old(W()), id), e)
      ensures e.None? ==> id in instantiated
    {
      hide Served, Valid;
      assert Elements([id]) == {id};
      e := EnsureVmsInstantiated([id]);
    }

    /** Replace what machine `id` holds. */
    method SetMachine(id: VmId, vm: Vm)
      requires Tied() && id in instantiated
      modifies `instantiated
      ensures Tied() && instantiated.Keys == old(instantiated.Keys) && instantiated[id] == vm
      ensures W() == WithVm(old(W()), id, vm)
    {
      hide Served;
      Updated(instantiated, suspended, id, vm);
      instantiated := instantiated[id := vm];
    }

    lemma Held(id: VmId)
      requires Tied() && id in instantiated
      ensures id in W().core.vms && W().core.vms[id] == instantiated[id]
    {
    }

    method SetRegister(id: VmId, value: nat)
      requires Tied() && id in instantiated
      modifies `instantiated
      ensures Tied() && instantiated.Keys == old(instantiated.Keys)
      ensures id in old(W()).core.vms && W() == old(W()).(core := SetA0(old(W()).core, id, value))
    {
      hide Tied;
      Held(id);
      var vm := instantiated[id];
      SetMachine(id, vm.(cpu := vm.cpu.(a0 := value)));
    }

    method Store(id: VmId, addr: nat, data: seq<Byte>) returns (e: Option<Error>)
      requires Tied() && id in instantiated
      modifies `instantiated
      ensures id in old(W()).core.vms && Agrees(Poke(old(W()), id, addr, data), e)
      ensures instantiated.Keys == old(instantiated.Keys)
    {
      hide Tied, StoreBytes;
      Held(id);
      var vm := instantiated[id];
      var memory := StoreBytes(vm.cpu.memory, addr, data);
      if memory.None? {
        return Some(MemOutOfBound);
      }
      SetMachine(id, vm.(cpu := vm.cpu.(memory := memory.value)));
      e := None;
    }

    method AddCyclesNoChecking(id: VmId, cycles: nat)
      requires Tied() && id in instantiated
      modifies `instantiated, `charged
      ensures Tied() && instantiated.Keys == old(instantiated.Keys)
      ensures id in old(W()).core.vms && W() == AddCycles(old(W()), id, cycles)
    {
      hide Tied, AddCycles;
      Held(id);
      AddCyclesIs(W(), id, cycles);
      SetMachine(id, Vm(instantiated[id].cpu, instantiated[id].cycles + cycles));
      charged := charged + cycles;
    }

    method Announce(id: VmId, addr: nat, data: seq<Byte>) returns (e: Option<Error>)
      requires Tied() && id in instantiated
      modifies `instantiated, `states
      ensures id in old(W()).core.vms && Agrees(Announced(old(W()), id, addr, data), e)
      ensures instantiated.Keys == old(instantiated.Keys)
    {
      hide Tied, Poke;
      e := Store(id, addr, data);
      if e.Some? {
        return;
      }
      SetRegister(id, SUCCESS);
      states := states[id := Runnable];
    }

    method ReplyTo(id: VmId, code: nat) returns (e: Option<Error>)
      requires Tied()
      modifies `iterationCycles, `instantiated, `suspended, `cache, `needs
      ensures Agrees(Reply(old(W()), id, code), e)
    {
      hide Tied;
      e := EnsureGetInstantiated(id);
      if e.None? {
        SetRegister(id, code);
      }
    }

    method AnswerTo(id: VmId, addr: nat, value: int) returns (e: Option<Error>)
      requires Tied()
      modifies `iterationCycles, `instantiated, `suspended, `cache, `needs
      ensures Agrees(Answer64(old(W()), id, addr, value), e)
    {
      hide Tied, Poke;
      e := EnsureGetInstantiated(id);
      if e.Some? {
        return;
      }
      e := Store(id, addr, Le(value, 8));
      if e.Some? {
        return;
      }
      SetRegister(id, SUCCESS);
    }

    method AnswerTwoTo(id: VmId, addr: nat, value: int, addr': nat, value': int) returns (e: Option<Error>)
      requires Tied()
      modifies `iterationCycles, `instantiated, `suspended, `cache, `needs
      ensures Agrees(AnswerTwo64(old(W()), id, addr, value, addr', value'), e)
    {
      hide Tied, Poke;
      e := EnsureGetInstantiated(id);
      if e.Some? {
        return;
      }
      e := Store(id, addr, Le(value, 8));
      if e.Some? {
        return;
      }
      e := Store(id, addr', Le(value', 8));
      if e.Some? {
        return;
      }
      SetRegister(id, SUCCESS);
    }

    // ----- Booting -----

    /** Suspend the machines with the smallest ids until one more fits. */
    method SuspendForRoom()
      requires Valid()
      modifies `iterationCycles, `instantiated, `suspended, `cache
      ensures Valid() && instantiated + suspended == old(instantiated + suspended)
      ensures cache == MakeRoom(MAX_INSTANTIATED_VMS, old(cache)) && |cache.resident| < MAX_INSTANTIATED_VMS
    {
      ghost var target := MakeRoom(MAX_INSTANTIATED_VMS, cache);
      while |instantiated.Keys| >= MAX_INSTANTIATED_VMS
        invariant Valid() && instantiated + suspended == old(instantiated + suspended)
        invariant MakeRoom(MAX_INSTANTIATED_VMS, cache) == target
        decreases |cache.resident|
      {
        ghost var next := Cache(cache.resident - {Min(cache.resident)}, cache.swaps + 1);
        var e := SuspendVm(Min(instantiated.Keys));
        assert cache == next;
      }
    }

    method Place(id: VmId, vm: Vm)
      requires Valid() && |cache.resident| < MAX_INSTANTIATED_VMS && id !in instantiated + suspended
      modifies `instantiated, `cache
      ensures Valid() && id in instantiated && instantiated + suspended == old(instantiated + suspended)[id := vm]
      ensures cache == Cache(old(cache.resident) + {id}, old(cache.swaps))
    {
      Admitted(instantiated, suspended, id, vm);
      instantiated := instantiated[id := vm];
      cache := Cache(cache.resident + {id}, cache.swaps);
    }

    /** Take a new machine in. */
    method Insert(id: VmId, vm: Vm)
      requires Tied() && id !in instantiated + suspended
      modifies `iterationCycles, `instantiated, `suspended, `cache, `needs
      ensures Tied() && id in instantiated
      ensures instantiated + suspended == old(instantiated + suspended)[id := vm] && needs == old(needs) + [Admit(id)]
    {
      hide MakeRoom, Served, Valid;
      AdmitTarget(start, needs, cache, id);
      SuspendForRoom();
      Place(id, vm);
      needs := needs + [Admit(id)];
    }

    method Start(id: VmId, cpu: Cpu, cycles: nat)
      requires Tied() && id !in instantiated + suspended
      modifies `iterationCycles, `instantiated, `suspended, `cache, `needs, `states, `charged
      ensures Tied() && W() == Started(old(W()), id, cpu, cycles)
    {
      hide Tied;
      Insert(id, Vm(cpu, cycles));
      charged := charged + cycles;
      states := states[id := Runnable];
    }

    /** Build the image of a new machine whose id has been taken from `w`, and charge it for the
        bytes loaded. */
    method LoadVmProgram(ghost w: Work, location: Location, parent: Option<VmId>, argc: nat, argv: nat,
                         rootArgs: seq<seq<Byte>>)
      returns (loaded: Loaded, cycles: nat, e: Option<Error>)
      requires Tied() && W() == IdTaken(w)
      modifies `iterationCycles, `instantiated, `suspended, `cache, `needs
      ensures Agrees(ParentIn(w, parent), e) && (e.None? ==> instantiated + suspended == old(instantiated + suspended))
      ensures e.None? ==> (parent.Some? ==> parent.value in W().core.vms)
                          && loaded == isa.load(location, Arguments(W(), parent, argc, argv, rootArgs))
      ensures e.None? && loaded.Loaded? ==> cycles == TransferredByteCycles(loaded.bytes)
    {
      hide Tied;
      loaded, cycles, e := LoadFailed(0), 0, None;
      if parent.None? {
        loaded := isa.load(location, FromVector(rootArgs));
      } else {
        e := EnsureGetInstantiated(parent.value);
        if e.Some? {
          return;
        }
        Held(parent.value);
        loaded := isa.load(location, FromMemory(instantiated[parent.value].cpu.memory, argc, argv));
      }
      if loaded.Loaded? {
        cycles := TransferredByteCycles(loaded.bytes);
      }
    }

    method BootNewVm(location: Location, parent: Option<VmId>, argc: nat, argv: nat, rootArgs: seq<seq<Byte>>)
      returns (id: VmId, e: Option<Error>)
      requires Tied() && nextVmId !in instantiated + suspended
      modifies `iterationCycles, `instantiated, `suspended, `cache, `needs, `nextVmId, `states, `charged
      ensures id == old(nextVmId) && Agrees(BootVm(isa, old(W()), location, parent, argc, argv, rootArgs), e)
    {
      hide Tied, BootVm, Require, Started, Arguments;
      BootFails(isa, W(), location, parent, argc, argv, rootArgs);
      id := nextVmId;
      nextVmId := nextVmId + 1;
      var missing := isa.fetch(location);
      if missing.Some? {
        return id, Some(VmError(missing.value));
      }
      var loaded, cycles;
      loaded, cycles, e := LoadVmProgram(old(W()), location, parent, argc, argv, rootArgs);
      if e.Some? {
        return;
      }
      BootLoads(isa, old(W()), W(), location, parent, argc, argv, rootArgs, loaded);
      if loaded.LoadFailed? {
        return id, Some(VmError(loaded.code));
      }
      Start(id, loaded.cpu, cycles);
    }

    // ----- Messages -----

    method HandleExec(id: VmId, location: Location, argc: nat, argv: nat) returns (e: Option<Error>)
      requires Tied() && id in instantiated
      modifies `iterationCycles, `instantiated, `suspended, `cache, `needs, `charged
      ensures Agrees(OnExec(isa, old(W()), id, location, argc, argv), e)
    {
      hide Tied, AddCycles;
      Held(id);
      AddCyclesNoChecking(id, EXEC_LOAD_ELF_V2_CYCLES_BASE);
      Held(id);
      var cycles := instantiated[id].cycles;
      var missing := isa.fetch(location);
      if missing.Some? {
        return Some(VmError(missing.value));
      }
      e := EnsureGetInstantiated(id);
      if e.Some? {
        return;
      }
      Held(id);
      var loaded := isa.load(location, FromMemory(instantiated[id].cpu.memory, argc, argv));
      if loaded.LoadFailed? {
        return Some(VmError(loaded.code));
      }
      Reload(id, Vm(loaded.cpu, cycles), TransferredByteCycles(loaded.bytes));
    }

    method Reload(id: VmId, vm: Vm, cycles: nat)
      requires Tied() && id in instantiated
      modifies `instantiated, `charged
      ensures Tied() && W() == AddCycles(WithVm(old(W()), id, vm), id, cycles)
    {
      hide Tied, AddCycles;
      SetMachine(id, vm);
      AddCyclesNoChecking(id, cycles);
    }

    lemma Count()
      requires Tied()
      ensures |suspended| + |instantiated| == |W().core.vms|
    {
      var all := instantiated + suspended;
      assert all.Keys == instantiated.Keys + suspended.Keys;
      assert |all.Keys| == |instantiated.Keys| + |suspended.Keys|;
    }

    method HandleSpawn(id: VmId, args: SpawnArgs) returns (e: Option<Error>)
      requires Tied() && nextVmId !in instantiated + suspended
      modifies `iterationCycles, `instantiated, `suspended, `cache, `needs, `charged, `nextVmId, `states, `fds,
               `inheritedFd
      ensures Agrees(OnSpawn(isa, old(W()), id, args), e)
    {
      hide Tied, Reply, Answer64, BootVm, HandOver;
      Count();
      if exists fd :: fd in args.fds && !(fd in fds && fds[fd] == id) {
        e := ReplyTo(id, INVALID_FD);
        return;
      }
      if |suspended| + |instantiated| > MAX_VMS_COUNT {
        e := ReplyTo(id, MAX_VMS_SPAWNED);
        return;
      }
      var child;
      child, e := BootNewVm(args.location, Some(id), args.argc, args.argv, []);
      if e.Some? {
        return;
      }
      HandOverFds(args.fds, child);
      inheritedFd := inheritedFd[child := args.fds];
      e := AnswerTo(id, args.processIdAddr, child);
    }

    /** Move descriptors from spawner to spawned. */
    method HandOverFds(moved: seq<Fd>, id: VmId)
      modifies `fds
      ensures fds == HandOver(old(fds), moved, id)
    {
      for i := 0 to |moved|
        invariant fds == HandOver(old(fds), moved[..i], id)
      {
        assert moved[..i + 1] == moved[..i] + [moved[i]];
        fds := fds[moved[i] := id];
        assert fds.Keys == HandOver(old(fds), moved[..i + 1], id).Keys;
      }
      assert moved[..|moved|] == moved;
    }

    method HandleWait(id: VmId, target: VmId, exitCodeAddr: nat) returns (e: Option<Error>)
      requires Tied()
      modifies `iterationCycles, `instantiated, `suspended, `cache, `needs, `states, `terminatedVms
      ensures Agrees(OnWait(old(W()), id, target, exitCodeAddr), e)
    {
      hide Tied, Reply, Announced, OnWait, Require;
      ghost var w := W();
      OnWaitElse(w, id, target, exitCodeAddr);
      if target in terminatedVms {
        var code: int := terminatedVms[target];
        e := EnsureGetInstantiated(id);
        if e.Some? {
          return;
        }
        ghost var w1 := W();
        e := Announce(id, exitCodeAddr, [(code % 256) as Byte]);
        OnWaitIs(w, w1, id, target, exitCodeAddr, code, Announced(w1, id, exitCodeAddr, [(code % 256) as Byte]));
        if e.Some? {
          return;
        }
        terminatedVms := terminatedVms - {target};
        return;
      }
      if target !in states {
        e := ReplyTo(id, WAIT_FAILURE);
        return;
      }
      states := states[id := Waiting(target, exitCodeAddr)];
      e := None;
    }

    method HandlePipe(id: VmId, fd1Addr: nat, fd2Addr: nat) returns (e: Option<Error>)
      requires Tied()
      modifies `iterationCycles, `instantiated, `suspended, `cache, `needs, `nextFdSlot, `fds, `pipes
      ensures Agrees(OnPipe(old(W()), id, fd1Addr, fd2Addr), e)
    {
      hide Tied, Reply, AnswerTwo64, OpenLog;
      if |fds| >= MAX_FDS {
        e := ReplyTo(id, MAX_FDS_CREATED);
        return;
      }
      var p1, p2 := nextFdSlot, nextFdSlot + 1;
      nextFdSlot := nextFdSlot + 2;
      fds := fds[p1 := id];
      fds := fds[p2 := id];
      pipes := OpenLog(pipes, p2);
      e := AnswerTwoTo(id, fd1Addr, p1, fd2Addr, p2);
    }

    method HandleRead(id: VmId, args: FdArgs) returns (e: Option<Error>)
      requires Tied()
      modifies `iterationCycles, `instantiated, `suspended, `cache, `needs, `states
      ensures Agrees(OnRead(old(W()), id, args), e)
    {
      hide Tied, Reply;
      if !(args.fd in fds && fds[args.fd] == id) {
        e := ReplyTo(id, INVALID_FD);
      } else if OtherFd(args.fd) !in fds {
        e := ReplyTo(id, OTHER_END_CLOSED);
      } else {
        states := states[id := WaitForRead(ReadState(args.fd, args.length, args.bufferAddr, args.lengthAddr))];
        e := None;
      }
    }

    method HandleWrite(id: VmId, args: FdArgs) returns (e: Option<Error>)
      requires Tied() && id in instantiated
      modifies `iterationCycles, `instantiated, `suspended, `cache, `needs, `states, `pipes
      ensures Agrees(OnWrite(old(W()), id, args), e)
    {
      hide Tied, Reply, LogOffer, Window;
      Held(id);
      if !(args.fd in fds && fds[args.fd] == id) {
        e := ReplyTo(id, INVALID_FD);
      } else if OtherFd(args.fd) !in fds {
        e := ReplyTo(id, OTHER_END_CLOSED);
      } else {
        states := states[id := WaitForWrite(WriteState(args.fd, 0, args.length, args.bufferAddr, args.lengthAddr))];
        pipes := LogOffer(pipes, args.fd, Window(instantiated[id].cpu.memory, args.bufferAddr, args.length));
        e := None;
      }
    }

    method HandleClose(id: VmId, fd: Fd) returns (e: Option<Error>)
      requires Tied()
      modifies `iterationCycles, `instantiated, `suspended, `cache, `needs, `fds
      ensures Agrees(OnClose(old(W()), id, fd), e)
    {
      hide Tied, Reply;
      if !(fd in fds && fds[fd] == id) {
        e := ReplyTo(id, INVALID_FD);
      } else {
        fds := fds - {fd};
        e := ReplyTo(id, SUCCESS);
      }
    }

    method StoreFds(id: VmId, addr: nat, list: seq<Fd>) returns (e: Option<Error>)
      requires Tied() && id in instantiated
      modifies `instantiated
      ensures id in old(W()).core.vms && Agrees(PokeFds(old(W()), id, addr, list), e)
      ensures id in instantiated
    {
      hide Tied, Poke, PokeFds;
      Held(id);
      ghost var r := PokeFds(W(), id, addr, list);
      assert list[0..] == list;
      for i := 0 to |list|
        invariant Tied() && id in instantiated && id in W().core.vms
        invariant PokeFds(W(), id, addr + 8 * i, list[i..]) == r
      {
        PokeFdsAt(W(), id, addr, list, i);
        e := Store(id, addr + 8 * i, Le(list[i], 8));
        if e.Some? {
          return;
        }
        Held(id);
      }
      PokeNoFds(W(), id, addr + 8 * |list|, list[|list|..]);
      e := None;
    }

    method HandleInheritedFd(id: VmId, bufferAddr: nat, lengthAddr: nat) returns (e: Option<Error>)
      requires Tied()
      modifies `iterationCycles, `instantiated, `suspended, `cache, `needs
      ensures Agrees(OnInheritedFd(old(W()), id, bufferAddr, lengthAddr), e)
    {
      hide Tied, Poke, PokeFds, LoadBytes;
      if id != ROOT_VM_ID && id !in inheritedFd {
        return Some(Panic);
      }
      var inherited := if id == ROOT_VM_ID then [] else inheritedFd[id];
      e := EnsureGetInstantiated(id);
      if e.Some? {
        return;
      }
      Held(id);
      var bytes := LoadBytes(instantiated[id].cpu.memory, lengthAddr, 8);
      if bytes.None? {
        return Some(MemOutOfBound);
      }
      var room := FromLe(bytes.value);
      var count := if room < |inherited| then room else |inherited|;
      assert inherited[..|inherited|] == inherited;
      e := StoreFds(id, bufferAddr, inherited[..count]);
      if e.Some? {
        return;
      }
      Held(id);
      e := Store(id, lengthAddr, Le(|inherited|, 8));
      if e.Some? {
        return;
      }
      SetRegister(id, SUCCESS);
    }

    method Handle(m: Message) returns (e: Option<Error>)
      requires Tied() && m.vm in instantiated && nextVmId !in instantiated + suspended
      modifies `iterationCycles, `instantiated, `suspended, `cache, `needs, `charged, `nextVmId, `nextFdSlot, `states,
               `fds,
               `inheritedFd, `terminatedVms, `pipes
      ensures Agrees(OnMessage(isa, old(W()), m), e)
    {
      hide Tied, OnExec, OnSpawn, OnWait, OnPipe, OnRead, OnWrite, OnInheritedFd, OnClose;
      match m.request
      case ExecV2(location, argc, argv) => e := HandleExec(m.vm, location, argc, argv);
      case Spawn(args) => e := HandleSpawn(m.vm, args);
      case Wait(target, exitCodeAddr) => e := HandleWait(m.vm, target, exitCodeAddr);
      case Pipe(fd1Addr, fd2Addr) => e := HandlePipe(m.vm, fd1Addr, fd2Addr);
      case FdRead(args) => e := HandleRead(m.vm, args);
      case FdWrite(args) => e := HandleWrite(m.vm, args);
      case InheritedFd(bufferAddr, lengthAddr) => e := HandleInheritedFd(m.vm, bufferAddr, lengthAddr);
      case Close(fd) => e := HandleClose(m.vm, fd);
    }

    /** Take the messages out of the box and handle them. A machine yields as soon as it has
        posted a message, so there is at most one, from the machine that has just run. */
    method ProcessMessageBox() returns (e: Option<Error>)
      requires Tied() && nextVmId !in instantiated + suspended
      requires |messageBox| <= 1 && forall i :: 0 <= i < |messageBox| ==> messageBox[i].vm in instantiated
      modifies `iterationCycles, `instantiated, `suspended, `cache, `needs, `charged, `nextVmId, `nextFdSlot, `states,
               `fds,
               `inheritedFd, `terminatedVms, `pipes, `messageBox
      ensures Agrees(OnMessages(isa, old(W()), old(messageBox)), e)
      ensures messageBox == []
    {
      hide Tied, OnMessage;
      var messages := messageBox;
      messageBox := [];
      ghost var r := OnMessages(isa, W(), messages);
      var i := 0;
      while i < |messages|
        invariant 0 <= i <= |messages| && messageBox == []
        invariant Tied() && OnMessages(isa, W(), messages[i..]) == r
        invariant i == 0 ==> nextVmId !in instantiated + suspended
        invariant i == 0 ==> forall k :: 0 <= k < |messages| ==> messages[k].vm in instantiated
      {
        assert messages[i..][1..] == messages[i + 1..];
        e := Handle(messages[i]);
        if e.Some? {
          return;
        }
        i := i + 1;
      }
      e := None;
    }

    // ----- Termination of a machine -----

    /** The machines waiting for `target`, smallest id first, with the address each gave. */
    method JoiningVms(target: VmId) returns (ids: seq<VmId>, addrs: seq<nat>)
      ensures ids == Ascending(Joiners(W().core, target)) && |addrs| == |ids|
      ensures forall i :: 0 <= i < |ids| ==> ids[i] in states && states[ids[i]] == Waiting(target, addrs[i])
    {
      hide Ascending, Joined;
      ghost var c := W().core;
      var keys := Ascending(states.Keys);
      JoinedNobody(c, keys, target);
      ids, addrs := [], [];
      for i := 0 to |keys|
        invariant Joined(c, keys[..i], target, ids, addrs)
      {
        JoinedStep(c, keys, i, target, ids, addrs);
        var state := states[keys[i]];
        if state.Waiting? && state.target == target {
          ids, addrs := ids + [keys[i]], addrs + [state.exitCodeAddr];
        }
      }
      JoinedAll(c, keys, target, ids, addrs);
    }

    method WakeVm(id: VmId, addr: nat, code: ExitCode) returns (e: Option<Error>)
      requires Tied()
      modifies `iterationCycles, `instantiated, `suspended, `cache, `needs, `states
      ensures Agrees(WakeOne(old(W()), id, addr, code), e)
      ensures forall v :: v in states && v != id ==> v in old(states) && states[v] == old(states)[v]
      ensures forall v :: v in old(states) ==> v in states
    {
      hide Tied, Require, Poke;
      e := EnsureGetInstantiated(id);
      if e.Some? {
        return;
      }
      var byte := (code as int % 256) as Byte;
      e := Store(id, addr, [byte]);
      if e.Some? {
        return;
      }
      SetRegister(id, SUCCESS);
      states := states[id := Runnable];
    }

    method WakeAll(target: VmId, ids: seq<VmId>, addrs: seq<nat>, code: ExitCode) returns (e: Option<Error>)
      requires Tied() && |addrs| == |ids| && Distinct(ids)
      requires forall i :: 0 <= i < |ids| ==> ids[i] in states && states[ids[i]] == Waiting(target, addrs[i])
      modifies `iterationCycles, `instantiated, `suspended, `cache, `needs, `states
      ensures Agrees(WakeJoiners(old(W()), ids, code), e)
    {
      hide Tied, WakeJoiners, WakeOne;
      ghost var r := WakeJoiners(W(), ids, code);
      assert ids[0..] == ids;
      for i := 0 to |ids|
        invariant Tied() && WakeJoiners(W(), ids[i..], code) == r
        invariant forall k :: i <= k < |ids| ==> ids[k] in states && states[ids[k]] == Waiting(target, addrs[k])
      {
        WakeAt(W(), ids, addrs[i], code, i);
        e := WakeVm(ids[i], addrs[i], code);
        if e.Some? {
          return;
        }
      }
      WakeNobody(W(), ids[|ids|..], code);
      e := None;
    }

    method Forget(id: VmId)
      requires Valid()
      modifies `instantiated, `suspended, `cache
      ensures Valid() && instantiated + suspended == old(instantiated + suspended) - {id}
      ensures cache == Cache(old(cache.resident) - {id}, old(cache.swaps))
    {
      Dropped(instantiated, suspended, id);
      DroppedKeys(instantiated, suspended, id);
      instantiated := instantiated - {id};
      suspended := suspended - {id};
      cache := Cache(cache.resident - {id}, cache.swaps);
    }

    method DropVm(id: VmId)
      requires Tied()
      modifies `instantiated, `suspended, `cache, `needs
      ensures Tied() && instantiated + suspended == old(instantiated + suspended) - {id}
              && needs == old(needs) + [Drop(id)]
    {
      hide Served, Valid;
      DropTarget(start, needs, cache, id);
      Forget(id);
      needs := needs + [Drop(id)];
    }

    /** Forget machine `id` and close its descriptors. */
    method PurgeVm(id: VmId)
      requires Tied()
      modifies `instantiated, `suspended, `cache, `needs, `states, `fds
      ensures Tied() && W() == Purged(old(W()), id)
    {
      hide Tied, OpenFds;
      DropVm(id);
      fds := OpenFds(fds, id);
      states := states - {id};
    }

    method Retain(id: VmId)
      requires Valid() && id in instantiated
      modifies `instantiated, `suspended, `cache
      ensures Valid() && instantiated + suspended == map[id := old(instantiated)[id]]
      ensures cache == Cache(old(cache.resident) * {id}, old(cache.swaps))
    {
      Retained(instantiated, id);
      instantiated := map v | v in instantiated && v == id :: instantiated[v];
      suspended := map[];
      cache := Cache(cache.resident * {id}, cache.swaps);
    }

    method RetainOnly(id: VmId)
      requires Tied() && id in instantiated
      modifies `instantiated, `suspended, `cache, `needs
      ensures Tied() && instantiated + suspended == map[id := old(instantiated)[id]] && needs == old(needs) + [Only(id)]
    {
      hide Served, Valid;
      OnlyTarget(start, needs, cache, id);
      Retain(id);
      needs := needs + [Only(id)];
    }

    /** The root machine has exited: keep nothing but it. */
    method KeepOnly(id: VmId)
      requires Tied() && id in instantiated
      modifies `instantiated, `suspended, `cache, `needs, `states
      ensures Tied()
      ensures id in old(W()).core.vms && W() == OnlyRoot(old(W()), id)
    {
      hide Tied;
      Held(id);
      RetainOnly(id);
      states := map[];
      states := states[id := Terminated];
    }

    method OnRootExit(id: VmId) returns (e: Option<Error>)
      requires Tied()
      modifies `iterationCycles, `instantiated, `suspended, `cache, `needs, `states
      ensures Agrees(RootGone(old(W()), id), e)
    {
      hide Tied;
      e := EnsureGetInstantiated(id);
      if e.None? {
        KeepOnly(id);
      }
    }

    method OnChildExit(id: VmId, code: ExitCode) returns (e: Option<Error>)
      requires Tied()
      modifies `iterationCycles, `instantiated, `suspended, `cache, `needs, `states, `fds
      ensures Agrees(ChildGone(old(W()), id, code), e)
    {
      hide Tied, WakeJoiners, Joiners, Purged;
      var ids, addrs := JoiningVms(id);
      e := WakeAll(id, ids, addrs, code);
      if e.None? {
        PurgeVm(id);
      }
    }

    method IterateProcessResults(id: VmId, outcome: Outcome) returns (e: Option<Error>)
      requires Tied() && nextVmId !in instantiated + suspended
      requires |messageBox| <= 1 && forall i :: 0 <= i < |messageBox| ==> messageBox[i].vm in instantiated
      modifies `iterationCycles, `instantiated, `suspended, `cache, `needs, `charged, `nextVmId, `nextFdSlot, `states,
               `fds,
               `inheritedFd, `terminatedVms, `pipes, `messageBox
      ensures Agrees(OnResult(isa, old(W()), id, old(messageBox), outcome), e)
      ensures messageBox == []
    {
      hide Tied, OnMessages, RootGone, ChildGone, OnResult;
      OnResultIs(isa, W(), id, messageBox, outcome);
      e := ProcessMessageBox();
      if e.Some? {
        return;
      }
      match outcome
      case Failed(error) => return Some(error);
      case Yielded => return None;
      case Exited(code) =>
        terminatedVms := terminatedVms[id := code];
        if id == ROOT_VM_ID {
          e := OnRootExit(id);
        } else {
          e := OnChildExit(id, code);
        }
    }

    // ----- Pipes -----

    /** First pass over the machines: readers by descriptor, and those without a writing end. */
    method CollectReaders() returns (table: map<Fd, (VmId, ReadState)>, closed: seq<VmId>)
      ensures closed == Ascending(ClosedReaders(W().core))
      ensures Tabulates(W().core, table)
    {
      hide Ascending, Collected, Tabulates;
      ghost var c := W().core;
      var keys := Ascending(states.Keys);
      CollectedNobody(c, keys);
      table, closed := map[], [];
      for i := 0 to |keys|
        invariant Collected(c, keys[..i], table, closed)
      {
        var id := keys[i];
        CollectedStep(c, keys, i, table, closed);
        if states[id].WaitForRead? {
          var read := states[id].read;
          if OtherFd(read.fd) in fds {
            table := table[read.fd := (id, read)];
          } else {
            closed := closed + [id];
          }
        }
      }
      assert keys[..|keys|] == keys;
      CollectedAll(c, keys, table, closed);
    }

    /** Second pass: writers with a reader, and those without a reading end. */
    method CollectWriters(table: map<Fd, (VmId, ReadState)>) returns (pairs: seq<Pair>, closed: seq<VmId>)
      requires Tabulates(W().core, table)
      ensures closed == Ascending(ClosedWriters(W().core))
      ensures pairs == PairsOf(W().core, Ascending(MatchedWriters(W().core)))
    {
      hide Ascending, ClosedWriters, MatchedWriters, Tabulates, PairsOf, PairOf;
      ghost var c := W().core;
      ghost var writers: seq<VmId> := [];
      var keys := Ascending(states.Keys);
      pairs, closed := [], [];
      NoPairs(c);
      for i := 0 to |keys|
        invariant Increasing(closed) && Increasing(writers)
        invariant WritersAmong(c, keys[..i], writers, closed)
        invariant PairedWith(c, writers, pairs)
      {
        var id := keys[i];
        PrefixBelow(keys, i, closed);
        PrefixBelow(keys, i, writers);
        WriterStep(c, keys[..i], id, table, writers, closed, pairs);
        if states[id].WaitForWrite? {
          var write := states[id].write;
          if OtherFd(write.fd) in fds {
            if OtherFd(write.fd) in table {
              var entry := table[OtherFd(write.fd)];
              pairs := pairs + [Pair(entry.0, entry.1, id, write)];
              writers := writers + [id];
            }
          } else {
            closed := closed + [id];
          }
        }
      }
      assert keys[..|keys|] == keys;
      WritersDone(c, keys, writers, closed, pairs);
    }

    method FinishClosedEnd(id: VmId) returns (e: Option<Error>)
      requires Tied()
      modifies `iterationCycles, `instantiated, `suspended, `cache, `needs, `states
      ensures Agrees(FinishOne(old(W()), id), e)
    {
      hide Tied, Answer64;
      if id !in states {
        return Some(Panic);
      }
      match states[id] {
        case WaitForRead(read) =>
          e := AnswerTo(id, read.lengthAddr, 0);
        case WaitForWrite(write) =>
          e := AnswerTo(id, write.lengthAddr, write.consumed);
        case _ =>
          return None;
      }
      if e.None? {
        states := states[id := Runnable];
      }
    }

    method FinishClosedEnds(ids: seq<VmId>) returns (e: Option<Error>)
      requires Tied()
      modifies `iterationCycles, `instantiated, `suspended, `cache, `needs, `states
      ensures Agrees(FinishClosed(old(W()), ids), e)
    {
      hide Tied, FinishClosed, FinishOne;
      ghost var r := FinishClosed(W(), ids);
      assert ids[0..] == ids;
      for i := 0 to |ids|
        invariant Tied() && FinishClosed(W(), ids[i..]) == r
      {
        FinishAt(W(), ids, i);
        e := FinishClosedEnd(ids[i]);
        if e.Some? {
          return;
        }
      }
      FinishNobody(W(), ids[|ids|..]);
      e := None;
    }

    /** Put copied bytes into the memory of the reader and complete its read. */
    method ReceiveData(p: Pair, data: seq<Byte>) returns (e: Option<Error>)
      requires Tied() && p.reader in instantiated
      modifies `instantiated, `states, `pipes
      ensures p.reader in old(W()).core.vms && Agrees(Receive(old(W()), p, data), e)
      ensures instantiated.Keys == old(instantiated.Keys)
    {
      hide Tied, Poke, LogDelivery, Announced;
      Held(p.reader);
      e := Store(p.reader, p.read.bufferAddr, data);
      if e.Some? {
        return;
      }
      pipes := LogDelivery(pipes, p.write.fd, data);
      e := Announce(p.reader, p.read.lengthAddr, Le(|data|, 8));
    }

    method DeliverTo(p: Pair) returns (e: Option<Error>)
      requires Tied() && p.write.consumed <= p.write.length && p.reader in instantiated && p.writer in instantiated
      modifies `instantiated, `charged, `states, `pipes
      ensures p.reader in old(W()).core.vms && p.writer in old(W()).core.vms && Agrees(Deliver(old(W()), p), e)
      ensures instantiated.Keys == old(instantiated.Keys)
    {
      hide Tied, AddCycles, Receive, LoadBytes, Deliver;
      Held(p.reader);
      Held(p.writer);
      DeliverIs(W(), p);
      var fillable, consumable := p.read.length, p.write.length - p.write.consumed;
      var copiable := if fillable <= consumable then fillable else consumable;
      AddCyclesNoChecking(p.writer, TransferredByteCycles(copiable));
      Held(p.writer);
      var data := LoadBytes(instantiated[p.writer].cpu.memory, p.write.bufferAddr + p.write.consumed, copiable);
      if data.None? {
        return Some(MemOutOfBound);
      }
      AddCyclesNoChecking(p.reader, TransferredByteCycles(copiable));
      e := ReceiveData(p, data.value);
    }

    method AdvanceWrite(p: Pair) returns (e: Option<Error>)
      requires Tied() && p.write.consumed <= p.write.length && p.writer in instantiated
      modifies `instantiated, `states
      ensures p.writer in old(W()).core.vms && Agrees(Advance(old(W()), p), e)
    {
      hide Tied, Poke;
      Held(p.writer);
      var consumed := p.write.consumed + Copiable(p);
      if consumed == p.write.length {
        e := Store(p.writer, p.write.lengthAddr, Le(p.write.length, 8));
        if e.Some? {
          return;
        }
        SetRegister(p.writer, SUCCESS);
        states := states[p.writer := Runnable];
      } else {
        states := states[p.writer := WaitForWrite(p.write.(consumed := consumed))];
        e := None;
      }
    }

    method EnsureBoth(id: VmId, id': VmId) returns (e: Option<Error>)
      requires Tied() && id != id'
      modifies `iterationCycles, `instantiated, `suspended, `cache, `needs
      ensures Agrees(RequireBoth(old(W()), id, id'), e)
      ensures e.None? ==> id in instantiated && id' in instantiated
      ensures e.None? ==> id in W().core.vms && id' in W().core.vms
    {
      hide Tied, Valid, Elements, RequireBoth, Distinct;
      ghost var w := W();
      var ids := [id, id'];
      TwoElements(id, id', ids);
      TwoIn(w.core.vms, id, id', ids);
      RequireBothIs(w, id, id', ids);
      e := EnsureVmsInstantiated(ids);
      TwoIn(instantiated, id, id', ids);
    }

    method TransferPair(p: Pair) returns (e: Option<Error>)
      requires Tied() && p.reader != p.writer
      modifies `iterationCycles, `instantiated, `suspended, `cache, `needs, `charged, `states, `pipes
      ensures Agrees(Transfer(old(W()), p), e)
    {
      hide Tied, Deliver, Advance, RequireBoth;
      if p.write.consumed > p.write.length {
        return Some(Panic);
      }
      e := EnsureBoth(p.reader, p.writer);
      if e.Some? {
        return;
      }
      e := DeliverTo(p);
      if e.Some? {
        return;
      }
      e := AdvanceWrite(p);
    }

    method TransferPairs(pairs: seq<Pair>) returns (e: Option<Error>)
      requires Tied() && forall i :: 0 <= i < |pairs| ==> pairs[i].reader != pairs[i].writer
      modifies `iterationCycles, `instantiated, `suspended, `cache, `needs, `charged, `states, `pipes
      ensures Agrees(TransferAll(old(W()), pairs), e)
    {
      hide Tied, Transfer, TransferAll;
      ghost var r := TransferAll(W(), pairs);
      assert pairs[0..] == pairs;
      for i := 0 to |pairs|
        invariant Tied() && TransferAll(W(), pairs[i..]) == r
      {
        TransferAt(W(), pairs, i);
        e := TransferPair(pairs[i]);
        if e.Some? {
          return;
        }
      }
      TransferNothing(W(), pairs[|pairs|..]);
      e := None;
    }

    /** Serve the pipes. */
    method ProcessPipes() returns (e: Option<Error>)
      requires Tied()
      modifies `iterationCycles, `instantiated, `suspended, `cache, `needs, `charged, `states, `pipes
      ensures Agrees(ProcessIo(old(W())), e)
    {
      hide Tied, FinishClosed, TransferAll, PairsOf, ClosedReaders, ClosedWriters, MatchedWriters, Ascending, Tabulates;
      ghost var c := W().core;
      var table, closed := CollectReaders();
      var pairs, closedWriters := CollectWriters(table);
      closed := closed + closedWriters;
      PairsAreApart(c);
      e := FinishClosedEnds(closed);
      if e.Some? {
        return;
      }
      e := TransferPairs(pairs);
    }

    // ----- Iterations -----

    ghost function Sys(): System
      reads this
    {
      System(W().core, cache, totalCycles, iterationCycles, allCharged)
    }

    /** Between operations nothing is left to be done, and the cache is within its size. */
    ghost predicate Ready()
      reads this
    {
      Shape() && messageBox == []
    }

    lemma TiedIsShaped()
      requires Tied()
      ensures Shape()
    {
    }

    /** Start to note what is asked of the cache. */
    ghost method Begin()
      requires Shape()
      modifies `needs, `charged, `start, `startCycles
      ensures Tied() && W() == Work(old(W()).core, [], 0) && start == cache && startCycles == iterationCycles
    {
      needs, charged, start, startCycles := [], 0, cache, iterationCycles;
    }

    /** Put down what was charged since: the account is that of `Account`. */
    ghost method Settle(s: System, w: Work, cycles: nat, ran: nat)
      requires Tied() && W() == w && start == s.cache && startCycles == s.iteration + cycles
      requires totalCycles == s.total && allCharged == s.charged
      modifies `allCharged
      ensures Sys() == Account(MAX_INSTANTIATED_VMS, s, w, cycles, ran)
    {
      hide ServeAll;
      ServeAllCounts(MAX_INSTANTIATED_VMS, start, needs);
      allCharged := allCharged + charged + ran + SwapCycles(start, cache);
    }

    /** The runnable machine with the largest id. */
    method FindRunnable() returns (id: Option<VmId>)
      ensures id.None? <==> RunnableVms(W().core) == {}
      ensures id.Some? ==> RunnableVms(W().core) != {} && id.value == Max(RunnableVms(W().core))
    {
      hide Ascending, Max;
      var keys := Ascending(states.Keys);
      var i := |keys|;
      while i > 0
        invariant 0 <= i <= |keys|
        invariant forall k :: i <= k < |keys| ==> keys[k] in states && !states[keys[k]].Runnable?
      {
        i := i - 1;
        assert keys[i] in keys;
        if states[keys[i]].Runnable? {
          LargestRunnable(W().core, keys, i);
          return Some(keys[i]);
        }
      }
      NobodyRunnable(W().core, keys);
      id := None;
    }

    method AddIterationCycles(cycles: nat)
      requires Tied()
      modifies `iterationCycles, `startCycles
      ensures Tied() && iterationCycles == old(iterationCycles) + cycles && startCycles == old(startCycles) + cycles
    {
      hide Served;
      iterationCycles := iterationCycles + cycles;
      startCycles := startCycles + cycles;
    }

    /** Run machine `id`, read its cycle counter and reset it. */
    method RunMachine(id: VmId, limit: nat, budget: Option<nat>) returns (r: RunResult)
      requires Tied() && id in instantiated
      modifies `instantiated, `iterationCycles, `messageBox, `startCycles
      ensures id in old(W()).core.vms
      ensures r == RunVm(isa, id, old(W()).core.vms[id], totalCycles, limit, budget)
      ensures Tied() && instantiated.Keys == old(instantiated.Keys) && W() == WithVm(old(W()), id, Vm(r.vm.cpu, 0))
      ensures startCycles == old(startCycles) + r.vm.cycles
      ensures messageBox == BoxAfter(id, r)
    {
      hide RunVm, Tied, BoxAfter;
      Held(id);
      r := RunVm(isa, id, instantiated[id], totalCycles, limit, budget);
      SetMachine(id, Vm(r.vm.cpu, 0));
      messageBox := BoxAfter(id, r);
      AddIterationCycles(r.vm.cycles);
    }

    /** Bring machine `id` in and run it. */
    method Execute(id: VmId, limit: nat, budget: Option<nat>) returns (r: RunResult)
      requires Tied() && W() == Work(W().core, [], 0) && id in W().core.vms
      modifies `iterationCycles, `instantiated, `suspended, `cache, `needs, `messageBox, `startCycles
      ensures r == RunVm(isa, id, old(W()).core.vms[id], totalCycles, limit, budget)
      ensures Tied() && id in instantiated && W() == AfterRun(old(W()).core, id, r)
      ensures startCycles == old(startCycles) + r.vm.cycles && messageBox == BoxAfter(id, r)
    {
      hide RunVm, Tied, WithVm, AfterRun, BoxAfter, Require;
      ghost var w := W();
      RequireKnown(w, id);
      var e := EnsureGetInstantiated(id);
      ghost var w1 := W();
      r := RunMachine(id, limit, budget);
      AfterRunIs(w, w1, id, r);
    }

    /** The turn of machine `id`. */
    method RunTurn(id: VmId, limit: nat, budget: Option<nat>)
      returns (e: Option<Error>, ghost r: RunResult, budget': Option<nat>)
      requires Tied() && W() == Work(W().core, [], 0) && id in W().core.vms && nextVmId !in W().core.vms
      modifies this
      ensures r == RunVm(isa, id, old(W()).core.vms[id], old(totalCycles), limit, budget) && budget' == r.budget
      ensures Agrees(OnResult(isa, AfterRun(old(W()).core, id, r), id, BoxAfter(id, r), r.outcome), e)
      ensures start == old(start) && startCycles == old(startCycles) + r.vm.cycles
      ensures totalCycles == old(totalCycles) && allCharged == old(allCharged) && messageBox == []
    {
      hide RunVm, Tied, OnResult, AfterRun;
      ghost var c := W().core;
      var run := Execute(id, limit, budget);
      r, budget' := run, run.budget;
      SameIds(c, id, r);
      e := IterateProcessResults(id, run.outcome);
    }

    method IterateInner(limit: nat, budget: Option<nat>)
      returns (id: VmId, e: Option<Error>, budget': Option<nat>, ghost t: Turn)
      requires Ready() && Inv(W().core)
      modifies this
      ensures t == TakeTurn(isa, old(W()).core, old(totalCycles), limit, budget)
      ensures Agrees(t.res, e) && e != Some(Unexpected)
      ensures id == t.id && budget' == t.budget
      ensures start == old(cache) && startCycles == old(iterationCycles) + t.cycles
      ensures totalCycles == old(totalCycles) && allCharged == old(allCharged) && messageBox == []
    {
      hide Tied, RunVm, OnResult, Inv, Max, Live, TakeTurn, AfterRun, BoxAfter;
      ghost var c := W().core;
      t := TakeTurn(isa, c, totalCycles, limit, budget);
      TakeTurnKeeps(isa, c, totalCycles, limit, budget);
      Begin();
      var found := FindRunnable();
      if found.None? {
        NobodyRuns(isa, c, totalCycles, limit, budget);
        return ROOT_VM_ID, Some(Deadlock), budget, t;
      }
      id := found.value;
      RunnableLives(c);
      NextIsFresh(c);
      TurnIs(isa, c, totalCycles, limit, budget);
      ghost var r;
      e, r, budget' := RunTurn(id, limit, budget);
    }

    method ServePipes() returns (e: Option<Error>)
      requires Ready() && (VmsOk(W().core) || Finished(W().core))
      modifies this
      ensures Sys() == Account(MAX_INSTANTIATED_VMS, old(Sys()), ProcessIo(Idle(old(W()).core)).w, 0, 0)
      ensures e == (if ProcessIo(Idle(old(W()).core)).Ok? then None else Some(ProcessIo(Idle(old(W()).core)).error))
      ensures Ready()
    {
      hide Tied, Shape, ProcessIo, VmsOk, Finished, Account, Sound;
      ghost var s := Sys();
      IoIsExpected(s.core);
      Begin();
      e := ProcessPipes();
      Settle(s, ProcessIo(Idle(s.core)).w, 0, 0);
      TiedIsShaped();
    }

    /** One iteration: a turn, the cycles it took, then the pipes. */
    method IterateOuter(limit: nat, budget: Option<nat>)
      returns (id: VmId, remaining: nat, e: Option<Error>, budget': Option<nat>, ghost i: Iteration)
      requires Ready() && Inv(W().core)
      modifies this
      ensures i == Iterate(isa, MAX_INSTANTIATED_VMS, old(Sys()), limit, budget)
      ensures Ready() && Sys() == i.s
      ensures e == (if i.Iterated? then None else Some(i.error))
      ensures i.Iterated? ==> id == i.id && remaining == i.remaining && budget' == i.budget
    {
      hide Tied, Shape, TakeTurn, Inv, Account, ProcessIo, VmsOk, Finished, Iterate;
      ghost var s := Sys();
      i := Iterate(isa, MAX_INSTANTIATED_VMS, s, limit, budget);
      ghost var t;
      TurnLeavesVms(isa, s.core, s.total, limit, budget);
      id, e, budget', t := IterateInner(limit, budget);
      Settle(s, t.res.w, t.cycles, t.ran);
      TiedIsShaped();
      ghost var s1 := Sys();
      totalCycles := totalCycles + iterationCycles;
      if limit < iterationCycles {
        IterateStops(isa, MAX_INSTANTIATED_VMS, s, limit, budget, t, s1);
        return id, 0, Some(CyclesExceeded), budget', i;
      }
      remaining := limit - iterationCycles;
      iterationCycles := 0;
      var io := ServePipes();
      IterateGoesOn(isa, MAX_INSTANTIATED_VMS, s, limit, budget, t, s1, Sys());
      if io.Some? {
        e := io;
      }
    }

    // ----- Runs -----

    constructor (isa: Isa)
      ensures this.isa == isa && Ready() && Sys() == NEW_SYSTEM
    {
      this.isa := isa;
      totalCycles, iterationCycles := 0, 0;
      nextVmId, nextFdSlot := FIRST_VM_ID, FIRST_FD_SLOT;
      states, fds, inheritedFd, terminatedVms := map[], map[], map[], map[];
      instantiated, suspended := map[], map[];
      messageBox := [];
      pipes := PipeLog(map[], map[], map[]);
      needs, charged, cache, start, startCycles, allCharged := [], 0, Cache({}, 0), Cache({}, 0), 0, 0;
    }

    /** Create the root machine in a new scheduler. */
    method BootRootVm(program: Location, args: seq<seq<Byte>>) returns (e: Option<Error>)
      requires Ready() && Sys() == NEW_SYSTEM
      modifies this
      ensures var b := Boot(isa, MAX_INSTANTIATED_VMS, program, args);
              && e == (if b.Done? then None else Some(b.error))
              && Ready() && Sys() == b.s
    {
      hide Tied, Shape, BootVm, Account;
      ghost var w := Idle(EMPTY_CORE);
      BootVmKeeps(isa, w, program, None, 0, 0, args);
      Begin();
      var id;
      id, e := BootNewVm(program, None, 0, 0, args);
      Settle(NEW_SYSTEM, BootVm(isa, w, program, None, 0, 0, args).w, 0, 0);
      TiedIsShaped();
    }

    predicate HasTerminated()
      reads this
    {
      ROOT_VM_ID in states && states[ROOT_VM_ID].Terminated?
    }

    /** Run until the root machine exits, the limit is hit, the pause signal is seen or
        something goes wrong. */
    method Run(limitCycles: nat, pause: Option<nat>)
      returns (exit: Option<ExitCode>, e: Option<Error>, ghost r: SchedulerSystem.Run)
      requires Ready() && SysInv(MAX_INSTANTIATED_VMS, Sys())
      modifies this
      ensures r == RunFrom(isa, MAX_INSTANTIATED_VMS, old(Sys()), limitCycles, pause)
      ensures Ready() && Sys() == r.s
      ensures e == (if r.Done? then None else Some(r.error))
      ensures r.Done? ==> iterationCycles == 0 && totalCycles <= old(totalCycles) + limitCycles
      ensures r.Done? ==> ROOT_VM_ID in r.s.core.terminated && exit == Some(r.s.core.terminated[ROOT_VM_ID])
    {
      hide RunFrom, SysInv, Ended, Shape, Iterate, IsTerminated;
      ghost var s0 := Sys();
      r := RunFrom(isa, MAX_INSTANTIATED_VMS, s0, limitCycles, pause);
      RunKeeps(isa, MAX_INSTANTIATED_VMS, s0, limitCycles, pause);
      var limit, budget := limitCycles, pause;
      ghost var executed: seq<VmId> := [];
      exit := None;
      EndedIsTerminated(MAX_INSTANTIATED_VMS, s0);
      while !HasTerminated()
        invariant Ready() && (SysInv(MAX_INSTANTIATED_VMS, Sys()) || Ended(MAX_INSTANTIATED_VMS, Sys()))
        invariant Prefixed(executed, RunFrom(isa, MAX_INSTANTIATED_VMS, Sys(), limit, budget)) == r
        decreases limit
      {
        ghost var s := Sys();
        TerminatedIs();
        EndedIsTerminated(MAX_INSTANTIATED_VMS, s);
        SysInvCore(MAX_INSTANTIATED_VMS, s);
        RunStep(isa, MAX_INSTANTIATED_VMS, s, limit, budget);
        IterateKeeps(isa, MAX_INSTANTIATED_VMS, s, limit, budget);
        var id;
        ghost var i;
        id, limit, e, budget, i := IterateOuter(limit, budget);
        if e.Some? {
          return;
        }
        PrefixedAfter(executed, id, RunFrom(isa, MAX_INSTANTIATED_VMS, Sys(), limit, budget));
        executed := executed + [id];
      }
      e := None;
      TerminatedIs();
      RunOfEnded(isa, MAX_INSTANTIATED_VMS, Sys(), limit, budget);
      EndedHolds(MAX_INSTANTIATED_VMS, r.s);
      assert iterationCycles == 0;
      exit := Some(terminatedVms[ROOT_VM_ID]);
    }

    lemma TerminatedIs()
      ensures HasTerminated() <==> IsTerminated(Sys().core)
    {
    }
  }
}
