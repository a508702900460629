/** What serving the pipes does to every machine, byte for byte and cycle for cycle, told from the
    state before; and exactly when it fails. */
module SchedulerService {
  import opened Basics
  import opened Machine
  import opened SchedulerModel
  import opened SchedulerInvariant
  import opened SchedulerPipes

  // ----- Memory -----

  predicate InMemory(memory: seq<Byte>, addr: nat, n: nat) {
    n == 0 || addr + n <= |memory|
  }

  /** `m'` is `m` with `data` from `addr` on. */
  predicate Stores(m: seq<Byte>, m': seq<Byte>, addr: nat, data: seq<Byte>) {
    |m'| == |m| && forall x :: 0 <= x < |m| ==> m'[x] == if addr <= x < addr + |data| then data[x - addr] else m[x]
  }

  lemma StoreIs(m: seq<Byte>, addr: nat, data: seq<Byte>)
    ensures StoreBytes(m, addr, data).Some? <==> InMemory(m, addr, |data|)
    ensures StoreBytes(m, addr, data).Some? ==> Stores(m, StoreBytes(m, addr, data).value, addr, data)
  {
  }

  /** `vm'` is `vm` with success in its result register and the word `k` at `addr`, and `cycles` more. */
  predicate Answered(vm: Vm, vm': Vm, addr: nat, k: int, cycles: nat) {
    && vm' == Vm(Cpu(vm.cpu.core, vm'.cpu.memory, 0), vm.cycles + cycles)
    && addr + 8 <= |vm.cpu.memory| && Stores(vm.cpu.memory, vm'.cpu.memory, addr, Le(k, 8))
  }

  lemma AnswerIs(w: Work, id: VmId, addr: nat, k: int)
    requires id in w.core.vms
    ensures Answer64(w, id, addr, k).Ok? <==> InMemory(w.core.vms[id].cpu.memory, addr, 8)
    ensures Answer64(w, id, addr, k).Err? ==> Answer64(w, id, addr, k).error == MemOutOfBound
    ensures var d := Answer64(w, id, addr, k).w.core;
            Answer64(w, id, addr, k).Ok? ==> && id in d.vms && Answered(w.core.vms[id], d.vms[id], addr, k, 0)
                                             && d == w.core.(vms := w.core.vms[id := d.vms[id]])
  {
    StoreIs(w.core.vms[id].cpu.memory, addr, Le(k, 8));
    hide StoreBytes, Stores, Le;
  }

  // ----- Ends that are closed -----

  predicate Blocked(c: Core, id: VmId) {
    id in c.states && id in c.vms && (c.states[id].WaitForRead? || c.states[id].WaitForWrite?)
  }

  predicate EndFits(c: Core, id: VmId)
    requires Blocked(c, id)
  {
    InMemory(c.vms[id].cpu.memory, if c.states[id].WaitForRead? then c.states[id].read.lengthAddr
                                   else c.states[id].write.lengthAddr, 8)
  }

  predicate EndTold(c: Core, e: Core, id: VmId)
    requires Blocked(c, id)
  {
    && id in e.vms
    && match c.states[id]
       case WaitForRead(read) => Answered(c.vms[id], e.vms[id], read.lengthAddr, 0, 0)
       case WaitForWrite(write) => Answered(c.vms[id], e.vms[id], write.lengthAddr, write.consumed, 0)
       case _ => true
  }

  ghost predicate AllBlocked(c: Core, ids: seq<VmId>) {
    Distinct(ids) && forall i :: 0 <= i < |ids| ==> Blocked(c, ids[i])
  }

  ghost predicate AllEndsFit(c: Core, ids: seq<VmId>)
    requires AllBlocked(c, ids)
  {
    forall i :: 0 <= i < |ids| ==> EndFits(c, ids[i])
  }

  /** From `c` to `e` the machines of `ids` have been told, and no other has changed. */
  ghost predicate AllEndsTold(c: Core, e: Core, ids: seq<VmId>)
    requires AllBlocked(c, ids)
  {
    && (forall i :: 0 <= i < |ids| ==> EndTold(c, e, ids[i]))
    && e.vms.Keys == c.vms.Keys && forall v :: v in c.vms && v !in ids ==> e.vms[v] == c.vms[v]
  }

  lemma {:induction false} FinishClosedIs(w: Work, ids: seq<VmId>)
    requires AllBlocked(w.core, ids)
    ensures FinishClosed(w, ids).Ok? <==> AllEndsFit(w.core, ids)
    ensures FinishClosed(w, ids).Err? ==> FinishClosed(w, ids).error == MemOutOfBound
    ensures FinishClosed(w, ids).Ok? ==> AllEndsTold(w.core, FinishClosed(w, ids).w.core, ids)
    decreases |ids|
  {
    if ids == [] {
      NobodyClosed(w.core);
    } else {
      hide Answer64, Answered, EndFits, EndTold, AllBlocked, AllEndsFit, AllEndsTold;
      var id, rest, state := ids[0], ids[1..], w.core.states[ids[0]];
      FirstBlocked(w.core, ids);
      var addr := if state.WaitForRead? then state.read.lengthAddr else state.write.lengthAddr;
      var count := if state.WaitForRead? then 0 else state.write.consumed;
      FirstClosed(w, id, addr, count);
      var p := Answer64(w, id, addr, count);
      if p.Ok? {
        var next := p.w.(core := SetState(p.w.core, id, Runnable));
        ClosedStep(w.core, next.core, ids);
        FinishClosedIs(next, rest);
        var r := FinishClosed(next, rest);
        assert FinishClosed(w, ids) == r;
        if r.Ok? {
          ClosedRest(w.core, next.core, r.w.core, ids);
        }
      }
    }
  }

  lemma NobodyClosed(c: Core)
    ensures AllBlocked(c, []) && AllEndsFit(c, []) && AllEndsTold(c, c, [])
  {
  }

  lemma FirstBlocked(c: Core, ids: seq<VmId>)
    requires ids != [] && AllBlocked(c, ids)
    ensures Blocked(c, ids[0]) && (AllEndsFit(c, ids) ==> EndFits(c, ids[0]))
  {
    hide EndFits;
  }

  lemma FirstClosed(w: Work, id: VmId, addr: nat, count: nat)
    requires Blocked(w.core, id)
    requires addr == (if w.core.states[id].WaitForRead? then w.core.states[id].read.lengthAddr
                      else w.core.states[id].write.lengthAddr)
    requires count == if w.core.states[id].WaitForRead? then 0 else w.core.states[id].write.consumed
    ensures Answer64(w, id, addr, count).Ok? <==> EndFits(w.core, id)
    ensures Answer64(w, id, addr, count).Err? ==> Answer64(w, id, addr, count).error == MemOutOfBound
    ensures var d := Answer64(w, id, addr, count).w.core;
            Answer64(w, id, addr, count).Ok? ==> EndTold(w.core, d, id) && Elsewhere(w.core, d, id)
  {
    hide Answer64, Answered;
    AnswerIs(w, id, addr, count);
  }

  /** At most machine `id` has changed. */
  predicate Elsewhere(c: Core, d: Core, id: VmId) {
    id in c.vms && id in d.vms && d.vms == c.vms[id := d.vms[id]] && d.states == c.states
  }

  lemma ClosedStep(c: Core, d: Core, ids: seq<VmId>)
    requires ids != [] && AllBlocked(c, ids) && EndFits(c, ids[0])
    requires Elsewhere(c, d.(states := c.states), ids[0]) && d.states == c.states[ids[0] := Runnable]
    ensures AllBlocked(d, ids[1..])
    ensures AllEndsFit(d, ids[1..]) <==> AllEndsFit(c, ids)
  {
    hide EndFits;
    forall i | 0 <= i < |ids[1..]|
      ensures Blocked(d, ids[1..][i])
      ensures EndFits(d, ids[1..][i]) <==> EndFits(c, ids[i + 1])
    {
      assert ids[1..][i] == ids[i + 1] && Blocked(c, ids[i + 1]);
      SameEndFits(c, d, ids[i + 1]);
    }
    if AllEndsFit(d, ids[1..]) {
      forall i | 0 <= i < |ids|
        ensures EndFits(c, ids[i])
      {
        assert i > 0 ==> EndFits(d, ids[1..][i - 1]);
      }
    }
  }

  lemma SameEndFits(c: Core, d: Core, id: VmId)
    requires Blocked(c, id) && Blocked(d, id) && d.vms[id] == c.vms[id] && d.states[id] == c.states[id]
    ensures EndFits(d, id) <==> EndFits(c, id)
  {
  }

  lemma ClosedRest(c: Core, d: Core, e: Core, ids: seq<VmId>)
    requires ids != [] && AllBlocked(c, ids) && EndTold(c, d, ids[0])
    requires Elsewhere(c, d.(states := c.states), ids[0]) && d.states == c.states[ids[0] := Runnable]
    requires AllBlocked(d, ids[1..]) && AllEndsTold(d, e, ids[1..])
    ensures AllEndsTold(c, e, ids)
  {
    hide Answered;
    assert ids[0] !in ids[1..];
    forall i | 0 <= i < |ids|
      ensures EndTold(c, e, ids[i])
    {
      assert Blocked(c, ids[i]);
      if i > 0 {
        assert ids[1..][i - 1] == ids[i] && EndTold(d, e, ids[1..][i - 1]);
      }
    }
  }

  // ----- Copies -----

  /** `m'` is `m` with `data` from `addr` on and then their number in the word at `at`. */
  predicate Filled(m: seq<Byte>, m': seq<Byte>, addr: nat, at: nat, data: seq<Byte>) {
    && |m'| == |m| && InMemory(m, addr, |data|) && at + 8 <= |m|
    && forall x :: 0 <= x < |m| ==>
         m'[x] == if at <= x < at + 8 then Le(|data|, 8)[x - at]
                  else if addr <= x < addr + |data| then data[x - addr]
                  else m[x]
  }

  /** `vm'` is `vm` after a read into `addr` that was given `data` and told so at `at`: success in
      the result register, and a cycle for every four bytes or part of them. */
  predicate ReadVm(vm: Vm, vm': Vm, addr: nat, at: nat, data: seq<Byte>) {
    && vm' == Vm(Cpu(vm.cpu.core, vm'.cpu.memory, 0), vm.cycles + (|data| + 3) / 4)
    && Filled(vm.cpu.memory, vm'.cpu.memory, addr, at, data)
  }

  lemma FilledIs(m: seq<Byte>, addr: nat, at: nat, data: seq<Byte>)
    ensures StoreBytes(m, addr, data).Some? <==> InMemory(m, addr, |data|)
    ensures var m1 := StoreBytes(m, addr, data);
            m1.Some? ==>
              && var m2 := StoreBytes(m1.value, at, Le(|data|, 8));
                 && (m2.Some? <==> InMemory(m, at, 8))
                 && (m2.Some? ==> Filled(m, m2.value, addr, at, data))
  {
    hide Le, StoreBytes;
    StoreIs(m, addr, data);
    var m1 := StoreBytes(m, addr, data);
    if m1.Some? {
      StoreIs(m1.value, at, Le(|data|, 8));
    }
  }

  /** `vm'` is `vm` after `n` more bytes of a write of `length` have been copied, `left` of which were
      left: when they are the last, the length is stored at `at`. */
  predicate WriteVm(vm: Vm, vm': Vm, at: nat, length: nat, left: nat, n: nat) {
    if n == left then Answered(vm, vm', at, length, (n + 3) / 4)
    else vm' == Vm(vm.cpu, vm.cycles + (n + 3) / 4)
  }

  /** `n` bytes from `addr` on. */
  function Slice(memory: seq<Byte>, addr: nat, n: nat): seq<Byte>
    requires InMemory(memory, addr, n)
  {
    if n == 0 then [] else memory[addr..addr + n]
  }

  predicate PairOk(c: Core, p: Pair) {
    p.reader in c.vms && p.writer in c.vms && p.reader != p.writer && p.write.consumed <= p.write.length
  }

  predicate PairFits(c: Core, p: Pair)
    requires PairOk(c, p)
  {
    var n, r, w := Copiable(p), c.vms[p.reader].cpu.memory, c.vms[p.writer].cpu.memory;
    && InMemory(w, p.write.bufferAddr + p.write.consumed, n)
    && InMemory(r, p.read.bufferAddr, n) && InMemory(r, p.read.lengthAddr, 8)
    && (p.write.consumed + n == p.write.length ==> InMemory(w, p.write.lengthAddr, 8))
  }

  predicate PairServed(c: Core, e: Core, p: Pair)
    requires PairOk(c, p)
  {
    && PairFits(c, p) && p.reader in e.vms && p.writer in e.vms
    && ReadVm(c.vms[p.reader], e.vms[p.reader], p.read.bufferAddr, p.read.lengthAddr,
              Slice(c.vms[p.writer].cpu.memory, p.write.bufferAddr + p.write.consumed, Copiable(p)))
    && WriteVm(c.vms[p.writer], e.vms[p.writer], p.write.lengthAddr, p.write.length,
               p.write.length - p.write.consumed, Copiable(p))
  }

  lemma DeliverIs(w: Work, p: Pair)
    requires PairOk(w.core, p)
    ensures var n, r, m := Copiable(p), w.core.vms[p.reader].cpu.memory, w.core.vms[p.writer].cpu.memory;
            && (Deliver(w, p).Ok? <==> && InMemory(m, p.write.bufferAddr + p.write.consumed, n)
                                       && InMemory(r, p.read.bufferAddr, n) && InMemory(r, p.read.lengthAddr, 8))
            && (Deliver(w, p).Err? ==> Deliver(w, p).error == MemOutOfBound)
            && var d := Deliver(w, p).w.core;
               Deliver(w, p).Ok? ==>
                 && d.vms.Keys == w.core.vms.Keys
                 && ReadVm(w.core.vms[p.reader], d.vms[p.reader], p.read.bufferAddr, p.read.lengthAddr,
                           Slice(m, p.write.bufferAddr + p.write.consumed, n))
                 && d.vms[p.writer] == Vm(w.core.vms[p.writer].cpu, w.core.vms[p.writer].cycles + (n + 3) / 4)
                 && forall v :: v in w.core.vms && v != p.reader && v != p.writer ==> d.vms[v] == w.core.vms[v]
  {
    hide StoreBytes, LoadBytes, Le, LogDelivery, Filled, InMemory, Slice;
    var n, r, m := Copiable(p), w.core.vms[p.reader].cpu.memory, w.core.vms[p.writer].cpu.memory;
    SliceIs(m, p.write.bufferAddr + p.write.consumed, n);
    if InMemory(m, p.write.bufferAddr + p.write.consumed, n) {
      FilledIs(r, p.read.bufferAddr, p.read.lengthAddr, Slice(m, p.write.bufferAddr + p.write.consumed, n));
    }
  }

  lemma SliceIs(memory: seq<Byte>, addr: nat, n: nat)
    ensures LoadBytes(memory, addr, n).Some? <==> InMemory(memory, addr, n)
    ensures InMemory(memory, addr, n) ==>
              |Slice(memory, addr, n)| == n && LoadBytes(memory, addr, n) == Some(Slice(memory, addr, n))
  {
  }

  lemma AdvanceIs(w: Work, p: Pair)
    requires p.writer in w.core.vms && p.write.consumed <= p.write.length
    ensures var n, vm := Copiable(p), w.core.vms[p.writer];
            var last := p.write.consumed + n == p.write.length;
            && (Advance(w, p).Ok? <==> last ==> InMemory(vm.cpu.memory, p.write.lengthAddr, 8))
            && (Advance(w, p).Err? ==> Advance(w, p).error == MemOutOfBound)
            && var d := Advance(w, p).w.core;
               Advance(w, p).Ok? ==>
                 && d.vms.Keys == w.core.vms.Keys
                 && (if last then Answered(vm, d.vms[p.writer], p.write.lengthAddr, p.write.length, 0)
                     else d.vms[p.writer] == vm)
                 && forall v :: v in w.core.vms && v != p.writer ==> d.vms[v] == w.core.vms[v]
  {
    StoreIs(w.core.vms[p.writer].cpu.memory, p.write.lengthAddr, Le(p.write.length, 8));
    hide StoreBytes, Le;
  }

  lemma TransferIs(w: Work, p: Pair)
    requires PairOk(w.core, p)
    ensures Transfer(w, p).Ok? <==> PairFits(w.core, p)
    ensures Transfer(w, p).Err? ==> Transfer(w, p).error == MemOutOfBound
    ensures Transfer(w, p).Ok? ==> OnlyPairServed(w.core, Transfer(w, p).w.core, p)
  {
    hide Deliver, Advance, Stores, Le, ReadVm;
    var w1 := RequireBoth(w, p.reader, p.writer).w;
    DeliverIs(w1, p);
    var d := Deliver(w1, p);
    if d.Ok? {
      AdvanceIs(d.w, p);
    }
  }

  ghost predicate AllPairsOk(c: Core, pairs: seq<Pair>) {
    Disjoint(pairs) && forall i :: 0 <= i < |pairs| ==> PairOk(c, pairs[i])
  }

  ghost predicate AllFit(c: Core, pairs: seq<Pair>)
    requires AllPairsOk(c, pairs)
  {
    forall i :: 0 <= i < |pairs| ==> PairFits(c, pairs[i])
  }

  /** From `c` to `e` every pair has been served, and no other machine has changed. */
  ghost predicate AllPairsServed(c: Core, e: Core, pairs: seq<Pair>)
    requires AllPairsOk(c, pairs)
  {
    && (forall i :: 0 <= i < |pairs| ==> PairServed(c, e, pairs[i]))
    && e.vms.Keys == c.vms.Keys && forall v :: v in c.vms && !InSomePair(pairs, v) ==> e.vms[v] == c.vms[v]
  }

  predicate Takes(p: Pair, v: VmId) {
    v == p.reader || v == p.writer
  }

  ghost predicate InSomePair(pairs: seq<Pair>, v: VmId) {
    exists i :: 0 <= i < |pairs| && Takes(pairs[i], v)
  }

  ghost predicate OnlyPairServed(c: Core, e: Core, p: Pair) {
    && PairOk(c, p) && PairServed(c, e, p)
    && e.vms.Keys == c.vms.Keys && forall v :: v in c.vms && !Takes(p, v) ==> e.vms[v] == c.vms[v]
  }

  lemma {:induction false} TransferAllIs(w: Work, pairs: seq<Pair>)
    requires AllPairsOk(w.core, pairs)
    ensures TransferAll(w, pairs).Ok? <==> AllFit(w.core, pairs)
    ensures TransferAll(w, pairs).Err? ==> TransferAll(w, pairs).error == MemOutOfBound
    ensures TransferAll(w, pairs).Ok? ==> AllPairsServed(w.core, TransferAll(w, pairs).w.core, pairs)
    decreases |pairs|
  {
    if pairs == [] {
      NoPairAtAll(w.core);
    } else {
      hide Transfer, PairFits, PairServed, AllPairsOk, AllFit, AllPairsServed, OnlyPairServed;
      var p, rest := pairs[0], pairs[1..];
      FirstPair(w.core, pairs);
      TransferIs(w, p);
      var t := Transfer(w, p);
      if t.Ok? {
        RestFits(w.core, t.w.core, pairs);
        TransferAllIs(t.w, rest);
        var r := TransferAll(t.w, rest);
        if r.Ok? {
          RestServed(w.core, t.w.core, r.w.core, pairs);
        }
      }
    }
  }

  lemma NoPairAtAll(c: Core)
    ensures AllPairsOk(c, []) && AllFit(c, []) && AllPairsServed(c, c, [])
  {
  }

  lemma FirstPair(c: Core, pairs: seq<Pair>)
    requires pairs != [] && AllPairsOk(c, pairs)
    ensures PairOk(c, pairs[0]) && (AllFit(c, pairs) ==> PairFits(c, pairs[0]))
  {
    hide PairFits;
  }

  lemma RestFits(c: Core, d: Core, pairs: seq<Pair>)
    requires pairs != [] && AllPairsOk(c, pairs) && OnlyPairServed(c, d, pairs[0]) && PairFits(c, pairs[0])
    ensures AllPairsOk(d, pairs[1..])
    ensures AllFit(d, pairs[1..]) <==> AllFit(c, pairs)
  {
    hide PairFits, PairServed;
    var rest := pairs[1..];
    assert forall i :: 0 <= i < |rest| ==> rest[i] == pairs[i + 1];
    forall i | 0 <= i < |rest|
      ensures PairOk(d, rest[i]) && (PairFits(d, rest[i]) <==> PairFits(c, pairs[i + 1]))
    {
      assert PairOk(c, pairs[i + 1]) && Apart(pairs[0], pairs[i + 1]);
      SameFits(c, d, rest[i]);
    }
    if AllFit(d, rest) {
      forall i | 0 <= i < |pairs|
        ensures PairFits(c, pairs[i])
      {
        assert i > 0 ==> PairFits(d, rest[i - 1]);
      }
    }
  }

  lemma SameFits(c: Core, c': Core, p: Pair)
    requires PairOk(c, p) && PairOk(c', p) && c'.vms[p.reader] == c.vms[p.reader] && c'.vms[p.writer] == c.vms[p.writer]
    ensures PairFits(c', p) <==> PairFits(c, p)
  {
  }

  lemma SameServed(c: Core, c': Core, e: Core, e': Core, p: Pair)
    requires PairOk(c, p) && PairOk(c', p) && c'.vms[p.reader] == c.vms[p.reader] && c'.vms[p.writer] == c.vms[p.writer]
    requires PairServed(c', e, p) && p.reader in e'.vms && p.writer in e'.vms
    requires e'.vms[p.reader] == e.vms[p.reader] && e'.vms[p.writer] == e.vms[p.writer]
    ensures PairServed(c, e', p)
  {
    hide ReadVm, WriteVm;
  }

  lemma RestServed(c: Core, d: Core, e: Core, pairs: seq<Pair>)
    requires pairs != [] && AllPairsOk(c, pairs) && OnlyPairServed(c, d, pairs[0])
    requires AllPairsOk(d, pairs[1..]) && AllPairsServed(d, e, pairs[1..])
    ensures AllPairsServed(c, e, pairs)
  {
    hide PairServed;
    var p, rest := pairs[0], pairs[1..];
    assert forall i :: 0 <= i < |rest| ==> rest[i] == pairs[i + 1] && Apart(p, rest[i]);
    forall i | 0 <= i < |pairs|
      ensures PairServed(c, e, pairs[i])
    {
      if i == 0 {
        assert !InSomePair(rest, p.reader) && !InSomePair(rest, p.writer);
        SameServed(c, c, d, e, p);
      } else {
        assert PairOk(c, pairs[i]) && PairServed(d, e, rest[i - 1]);
        SameServed(c, d, e, e, pairs[i]);
      }
    }
    forall v | v in c.vms && !InSomePair(pairs, v)
      ensures e.vms[v] == c.vms[v]
    {
      assert !Takes(pairs[0], v);
      assert forall i :: 0 <= i < |rest| ==> !Takes(rest[i], v);
      assert !InSomePair(rest, v);
    }
  }

  // ----- All pipes -----

  /** Machine `id` is blocked at a pipe that has lost its other end. */
  predicate LostEnd(c: Core, id: VmId) {
    || (Reads(c, id) && !OtherEndOpen(c, c.states[id].read.fd))
    || (Writes(c, id) && !OtherEndOpen(c, c.states[id].write.fd))
  }

  /** Machine `r` is blocked reading what machine `w` is blocked writing. */
  predicate Connected(c: Core, r: VmId, w: VmId) {
    Reads(c, r) && Writes(c, w) && c.states[r].read.fd == OtherFd(c.states[w].write.fd)
  }

  function PairAt(c: Core, r: VmId, w: VmId): Pair
    requires Connected(c, r, w)
  {
    Pair(r, c.states[r].read, w, c.states[w].write)
  }

  /** All that is to be stored or copied lies in the memories. */
  ghost predicate IoFits(c: Core)
    requires VmsOk(c)
  {
    && (forall id :: LostEnd(c, id) ==> EndFits(c, id))
    && (forall r, w :: Connected(c, r, w) ==> PairOk(c, PairAt(c, r, w)) && PairFits(c, PairAt(c, r, w)))
  }

  /** From `c` to `e`: a machine that has lost its other end is told so, connected machines exchange
      bytes, and no other machine changes. */
  ghost predicate IoServed(c: Core, e: Core)
    requires VmsOk(c)
  {
    && e.vms.Keys == c.vms.Keys
    && (forall id :: LostEnd(c, id) ==> EndTold(c, e, id))
    && (forall r, w :: Connected(c, r, w) ==> PairOk(c, PairAt(c, r, w)) && PairServed(c, e, PairAt(c, r, w)))
    && (forall id :: id in c.vms && !LostEnd(c, id) && !(exists r, w :: Connected(c, r, w) && (id == r || id == w)) ==>
          e.vms[id] == c.vms[id])
  }

  /** Serving the pipes fails if and only if something does not lie in a memory, and otherwise
      leaves every machine as described. */
  lemma ProcessIoIs(w: Work)
    requires VmsOk(w.core)
    ensures ProcessIo(w).Ok? <==> IoFits(w.core)
    ensures ProcessIo(w).Err? ==> ProcessIo(w).error == MemOutOfBound
    ensures ProcessIo(w).Ok? ==> IoServed(w.core, ProcessIo(w).w.core)
  {
    hide FinishClosed, TransferAll, PairsOf, ClosedEnds, MatchedWriters, VmsOk, IoFits, IoServed, AllBlocked,
         AllEndsFit, AllEndsTold, AllPairsOk, AllFit, AllPairsServed;
    var c := w.core;
    var pairs, ids := PairsOf(c, Ascending(MatchedWriters(c))), ClosedEnds(c);
    EndsAreBlocked(c);
    FinishClosedIs(w, ids);
    var f := FinishClosed(w, ids);
    PairsAreOk(c, pairs);
    if f.Ok? {
      PairsKept(c, f.w.core, ids, pairs);
      TransferAllIs(f.w, pairs);
      var e := TransferAll(f.w, pairs);
      if e.Ok? {
        BothServed(c, f.w.core, e.w.core, ids, pairs);
      }
    }
    FitsAre(c, ids, pairs);
  }

  lemma EndsAreBlocked(c: Core)
    requires VmsOk(c)
    ensures AllBlocked(c, ClosedEnds(c))
    ensures forall id :: id in ClosedEnds(c) <==> LostEnd(c, id)
  {
    ClosedEndsDistinct(c);
    ClosedEndsClosed(c);
    hide ClosedEnds;
  }

  lemma PairsAreOk(c: Core, pairs: seq<Pair>)
    requires VmsOk(c) && PairList(c, pairs)
    ensures AllPairsOk(c, pairs)
    ensures forall i :: 0 <= i < |pairs| ==> Connected(c, pairs[i].reader, pairs[i].writer)
                                             && pairs[i] == PairAt(c, pairs[i].reader, pairs[i].writer)
    ensures forall r, w :: Connected(c, r, w) ==> PairAt(c, r, w) in pairs
  {
    hide PairList, MatchedWriters;
    PairsArePairs(c, pairs);
    PairsDisjoint(c, pairs);
    forall i | 0 <= i < |pairs|
      ensures PairOk(c, pairs[i])
    {
      PairOpen(c, pairs[i]);
    }
    forall r, w | Connected(c, r, w)
      ensures PairAt(c, r, w) in pairs
    {
      MatchedPairServed(c, pairs, r, w);
    }
  }

  lemma LostIsApart(c: Core, r: VmId, w: VmId)
    requires VmsOk(c) && Connected(c, r, w)
    ensures !LostEnd(c, r) && !LostEnd(c, w)
  {
    assert StateOk(c, r, c.states[r]) && StateOk(c, w, c.states[w]);
  }

  lemma PairsKept(c: Core, f: Core, ids: seq<VmId>, pairs: seq<Pair>)
    requires VmsOk(c) && AllBlocked(c, ids) && AllEndsTold(c, f, ids) && AllPairsOk(c, pairs)
    requires forall id :: id in ids <==> LostEnd(c, id)
    requires forall i :: 0 <= i < |pairs| ==> Connected(c, pairs[i].reader, pairs[i].writer)
    ensures AllPairsOk(f, pairs) && (AllFit(f, pairs) <==> AllFit(c, pairs))
    ensures forall i :: 0 <= i < |pairs| ==> f.vms[pairs[i].reader] == c.vms[pairs[i].reader]
                                             && f.vms[pairs[i].writer] == c.vms[pairs[i].writer]
  {
    hide VmsOk, EndTold, PairFits, Connected, LostEnd;
    forall i | 0 <= i < |pairs|
      ensures PairOk(f, pairs[i]) && (PairFits(f, pairs[i]) <==> PairFits(c, pairs[i]))
      ensures f.vms[pairs[i].reader] == c.vms[pairs[i].reader] && f.vms[pairs[i].writer] == c.vms[pairs[i].writer]
    {
      assert PairOk(c, pairs[i]);
      LostIsApart(c, pairs[i].reader, pairs[i].writer);
      SameFits(c, f, pairs[i]);
    }
  }

  lemma FitsAre(c: Core, ids: seq<VmId>, pairs: seq<Pair>)
    requires VmsOk(c) && AllBlocked(c, ids) && AllPairsOk(c, pairs) && forall id :: id in ids <==> LostEnd(c, id)
    requires forall i :: 0 <= i < |pairs| ==> Connected(c, pairs[i].reader, pairs[i].writer)
                                              && pairs[i] == PairAt(c, pairs[i].reader, pairs[i].writer)
    requires forall r, w :: Connected(c, r, w) ==> PairAt(c, r, w) in pairs
    ensures IoFits(c) <==> AllEndsFit(c, ids) && AllFit(c, pairs)
  {
    hide VmsOk, EndFits, PairFits, Connected, LostEnd;
    assert forall i :: 0 <= i < |ids| ==> ids[i] in ids;
  }

  lemma BothServed(c: Core, f: Core, e: Core, ids: seq<VmId>, pairs: seq<Pair>)
    requires VmsOk(c) && AllBlocked(c, ids) && AllEndsTold(c, f, ids) && AllPairsOk(c, pairs)
    requires AllPairsOk(f, pairs) && AllPairsServed(f, e, pairs)
    requires forall id :: id in ids <==> LostEnd(c, id)
    requires forall i :: 0 <= i < |pairs| ==> Connected(c, pairs[i].reader, pairs[i].writer)
                                              && pairs[i] == PairAt(c, pairs[i].reader, pairs[i].writer)
    requires forall r, w :: Connected(c, r, w) ==> PairAt(c, r, w) in pairs
    requires forall i :: 0 <= i < |pairs| ==> f.vms[pairs[i].reader] == c.vms[pairs[i].reader]
                                              && f.vms[pairs[i].writer] == c.vms[pairs[i].writer]
    ensures IoServed(c, e)
  {
    hide VmsOk, PairServed, Answered, LostEnd;
    forall id | LostEnd(c, id)
      ensures EndTold(c, e, id)
    {
      var i :| 0 <= i < |ids| && ids[i] == id;
      assert Blocked(c, ids[i]) && EndTold(c, f, ids[i]);
      if InSomePair(pairs, id) {
        var j :| 0 <= j < |pairs| && Takes(pairs[j], id);
        LostIsApart(c, pairs[j].reader, pairs[j].writer);
      }
    }
    forall r, w | Connected(c, r, w)
      ensures PairOk(c, PairAt(c, r, w)) && PairServed(c, e, PairAt(c, r, w))
    {
      var i :| 0 <= i < |pairs| && pairs[i] == PairAt(c, r, w);
      assert PairOk(c, pairs[i]) && PairOk(f, pairs[i]) && PairServed(f, e, pairs[i]);
      SameServed(c, f, e, e, pairs[i]);
    }
    forall id | id in c.vms && !LostEnd(c, id) && !(exists r, w :: Connected(c, r, w) && (id == r || id == w))
      ensures e.vms[id] == c.vms[id]
    {
      assert !InSomePair(pairs, id);
    }
  }
}
