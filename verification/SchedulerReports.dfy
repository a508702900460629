/** What machines are told: a read that ends reports how many bytes it was given, and a write
    that ends reports how many of its bytes were delivered. */
module SchedulerReports {
  import opened Basics
  import opened Machine
  import opened SchedulerModel
  import opened SchedulerInvariant
  import opened SchedulerPipes

  /** Machine `id` finds success in its result register and the word `k` at `addr`. */
  predicate Reports(c: Core, id: VmId, addr: nat, k: int) {
    id in c.vms && c.vms[id].cpu.a0 == SUCCESS && LoadBytes(c.vms[id].cpu.memory, addr, 8) == Some(Le(k, 8))
  }

  lemma StoreThenLoad(memory: seq<Byte>, addr: nat, data: seq<Byte>)
    requires |data| == 8
    ensures var r := StoreBytes(memory, addr, data); r.Some? ==> LoadBytes(r.value, addr, 8) == Some(data)
  {
  }

  lemma AnswerReports(w: Work, id: VmId, addr: nat, k: int)
    ensures var r := Answer64(w, id, addr, k);
            r.Ok? ==> && Reports(r.w.core, id, addr, k)
                      && r.w.core == w.core.(vms := r.w.core.vms)
                      && forall v :: v in w.core.vms && v != id ==>
                                       v in r.w.core.vms && r.w.core.vms[v] == w.core.vms[v]
  {
    if id in w.core.vms {
      StoreThenLoad(w.core.vms[id].cpu.memory, addr, Le(k, 8));
    }
  }

  /** What a machine in state `s` is told when its pipe has lost the other end. */
  predicate ClosedReport(c: Core, id: VmId, s: VmState) {
    && (s.WaitForRead? ==> Reports(c, id, s.read.lengthAddr, 0))
    && (s.WaitForWrite? ==> Reports(c, id, s.write.lengthAddr, s.write.consumed))
  }

  lemma {:induction false} FinishClosedReports(w: Work, ids: seq<VmId>)
    requires Distinct(ids)
    ensures var r := FinishClosed(w, ids);
            r.Ok? ==> && (forall i :: 0 <= i < |ids| ==> ids[i] in w.core.states
                                                         && ClosedReport(r.w.core, ids[i], w.core.states[ids[i]]))
                      && r.w.core.pipes == w.core.pipes
                      && (forall v :: v in w.core.vms && v !in ids ==>
                                        v in r.w.core.vms && r.w.core.vms[v] == w.core.vms[v])
    decreases |ids|
  {
    hide Answer64;
    if ids != [] && FinishClosed(w, ids).Ok? {
      var id, rest := ids[0], ids[1..];
      var state := w.core.states[id];
      assert forall i :: 0 <= i < |rest| ==> rest[i] == ids[i + 1];
      assert id !in rest;
      var next := w;
      if state.WaitForRead? || state.WaitForWrite? {
        var addr := if state.WaitForRead? then state.read.lengthAddr else state.write.lengthAddr;
        var count := if state.WaitForRead? then 0 else state.write.consumed;
        AnswerReports(w, id, addr, count);
        var p := Answer64(w, id, addr, count);
        next := p.w.(core := SetState(p.w.core, id, Runnable));
      }
      FinishClosedReports(next, rest);
      var r := FinishClosed(next, rest);
      assert FinishClosed(w, ids) == r;
      assert ClosedReport(next.core, id, state);
      FirstReport(next.core, r.w.core, id, state);
    }
  }

  lemma FirstReport(c: Core, c': Core, id: VmId, s: VmState)
    requires ClosedReport(c, id, s) && (id in c.vms ==> id in c'.vms && c'.vms[id] == c.vms[id])
    ensures ClosedReport(c', id, s)
  {
  }

  // ----- Copies -----

  /** The bytes `data` are in `memory` from `addr` on, but for the places of the word at `at`. */
  predicate BytesBut(memory: seq<Byte>, addr: nat, data: seq<Byte>, at: nat) {
    forall x :: 0 <= x < |data| && !(at <= addr + x < at + 8) ==> addr + x < |memory| && memory[addr + x] == data[x]
  }

  lemma StoredBytes(memory: seq<Byte>, addr: nat, data: seq<Byte>, at: nat, word: seq<Byte>)
    requires |word| == 8
    ensures var m := StoreBytes(memory, addr, data);
            m.Some? ==> var m' := StoreBytes(m.value, at, word); m'.Some? ==> BytesBut(m'.value, addr, data, at)
  {
  }

  /** What went through the pipe of `p` is in the memory of its reader. The number of bytes is
      stored last. */
  predicate GotBytes(c: Core, e: Core, p: Pair) {
    && |Delivered(c, p.write.fd)| <= |Delivered(e, p.write.fd)| && p.reader in e.vms
    && BytesBut(e.vms[p.reader].cpu.memory, p.read.bufferAddr, Delivered(e, p.write.fd)[|Delivered(c, p.write.fd)|..],
                p.read.lengthAddr)
  }

  /** What the two machines of a pair are told. */
  predicate PairReport(c: Core, p: Pair)
    requires p.write.consumed <= p.write.length
  {
    && Reports(c, p.reader, p.read.lengthAddr, Copiable(p))
    && (p.write.consumed + Copiable(p) == p.write.length ==> Reports(c, p.writer, p.write.lengthAddr, p.write.length))
  }

  lemma DeliverReports(w: Work, p: Pair)
    requires p.reader in w.core.vms && p.writer in w.core.vms && p.reader != p.writer
             && p.write.consumed <= p.write.length
    requires Deliver(w, p).Ok?
    ensures Reports(Deliver(w, p).w.core, p.reader, p.read.lengthAddr, Copiable(p))
    ensures Deliver(w, p).w.core.vms.Keys == w.core.vms.Keys
    ensures forall v :: v in w.core.vms && v != p.reader && v != p.writer ==>
                          Deliver(w, p).w.core.vms[v] == w.core.vms[v]
  {
    var count := Copiable(p);
    var w1 := AddCycles(w, p.writer, TransferredByteCycles(count));
    var data := LoadBytes(w1.core.vms[p.writer].cpu.memory, p.write.bufferAddr + p.write.consumed, count).value;
    var w2 := AddCycles(w1, p.reader, TransferredByteCycles(count));
    var w3 := Poke(w2, p.reader, p.read.bufferAddr, data).w;
    StoreThenLoad(w3.core.vms[p.reader].cpu.memory, p.read.lengthAddr, Le(count, 8));
  }

  lemma DeliverBytes(w: Work, p: Pair)
    requires p.reader in w.core.vms && p.writer in w.core.vms && p.reader != p.writer
             && p.write.consumed <= p.write.length
    requires Deliver(w, p).Ok?
    ensures GotBytes(w.core, Deliver(w, p).w.core, p)
  {
    hide LoadBytes, StoreBytes, Le, BytesBut, TransferredByteCycles, Log, LogDelivery;
    var count := Copiable(p);
    var data := LoadBytes(w.core.vms[p.writer].cpu.memory, p.write.bufferAddr + p.write.consumed, count).value;
    StoredBytes(w.core.vms[p.reader].cpu.memory, p.read.bufferAddr, data, p.read.lengthAddr, Le(count, 8));
    LogIs(w.core.pipes, p.write.fd, data);
  }

  lemma LogIs(pipes: PipeLog, fd: Fd, data: seq<Byte>)
    ensures var before, after := Log(pipes.delivered, fd), Log(LogDelivery(pipes, fd, data).delivered, fd);
            |before| <= |after| && after[|before|..] == data
  {
  }

  lemma AdvanceReports(w: Work, p: Pair)
    requires p.writer in w.core.vms && p.write.consumed <= p.write.length && Advance(w, p).Ok?
    ensures p.write.consumed + Copiable(p) == p.write.length ==>
              Reports(Advance(w, p).w.core, p.writer, p.write.lengthAddr, p.write.length)
    ensures forall v :: v in w.core.vms && v != p.writer ==>
                          v in Advance(w, p).w.core.vms && Advance(w, p).w.core.vms[v] == w.core.vms[v]
  {
    StoreThenLoad(w.core.vms[p.writer].cpu.memory, p.write.lengthAddr, Le(p.write.length, 8));
  }

  lemma TransferReports(w: Work, p: Pair)
    requires VmsOk(w.core) && IsPair(w.core, p) && Transfer(w, p).Ok? && p.write.consumed <= p.write.length
    ensures PairReport(Transfer(w, p).w.core, p) && GotBytes(w.core, Transfer(w, p).w.core, p)
    ensures forall v :: v in w.core.vms && v != p.reader && v != p.writer ==>
              v in Transfer(w, p).w.core.vms && Transfer(w, p).w.core.vms[v] == w.core.vms[v]
  {
    hide Deliver, Advance, LoadBytes, BytesBut;
    var w1 := RequireBoth(w, p.reader, p.writer).w;
    DeliverReports(w1, p);
    DeliverBytes(w1, p);
    var d := Deliver(w1, p).w;
    AdvanceReports(d, p);
    AdvanceEffect(d, p);
  }

  predicate InPair(p: Pair, v: VmId) {
    v == p.reader || v == p.writer
  }

  /** Bytes delivered through a pipe and bytes of its latest write that were delivered before. */
  predicate SamePipe(c: Core, c': Core, fd: Fd) {
    Delivered(c', fd) == Delivered(c, fd) && Mark(c', fd) == Mark(c, fd)
  }

  predicate MorePipe(c: Core, c': Core, fd: Fd, n: nat) {
    |Delivered(c', fd)| == |Delivered(c, fd)| + n && Mark(c', fd) == Mark(c, fd)
  }

  ghost predicate OtherPipes(c: Core, c': Core, p: Pair) {
    forall fd :: fd != p.write.fd ==> SamePipe(c, c', fd)
  }

  lemma TransferPipes(c: Core, e: Core, p: Pair)
    requires Copied(c, e, p)
    ensures MorePipe(c, e, p.write.fd, Copiable(p)) && OtherPipes(c, e, p)
  {
  }

  /** No two pairs write to the same pipe. */
  ghost predicate OwnPipes(pairs: seq<Pair>) {
    forall i, j :: 0 <= i < j < |pairs| ==> pairs[i].write.fd != pairs[j].write.fd
  }

  ghost predicate Involved(pairs: seq<Pair>, v: VmId) {
    exists i :: 0 <= i < |pairs| && InPair(pairs[i], v)
  }

  ghost predicate Used(pairs: seq<Pair>, fd: Fd) {
    exists i :: 0 <= i < |pairs| && pairs[i].write.fd == fd
  }

  /** From `c` to `e` every pair was served and nothing else happened. */
  ghost predicate AllServed(c: Core, e: Core, pairs: seq<Pair>)
    requires CountsOk(pairs)
  {
    && (forall i :: 0 <= i < |pairs| ==> && PairReport(e, pairs[i]) && GotBytes(c, e, pairs[i])
                                         && MorePipe(c, e, pairs[i].write.fd, Copiable(pairs[i])))
    && (forall v :: v in c.vms && !Involved(pairs, v) ==> v in e.vms && e.vms[v] == c.vms[v])
    && (forall fd :: !Used(pairs, fd) ==> SamePipe(c, e, fd))
  }

  ghost predicate OneServed(c: Core, e: Core, p: Pair)
    requires p.write.consumed <= p.write.length
  {
    && PairReport(e, p) && GotBytes(c, e, p) && MorePipe(c, e, p.write.fd, Copiable(p)) && OtherPipes(c, e, p)
    && (forall v :: v in c.vms && !InPair(p, v) ==> v in e.vms && e.vms[v] == c.vms[v])
  }

  lemma SameVmSameReport(c: Core, c': Core, p: Pair)
    requires p.write.consumed <= p.write.length && PairReport(c, p)
    requires forall v :: InPair(p, v) && v in c.vms ==> v in c'.vms && c'.vms[v] == c.vms[v]
    ensures PairReport(c', p)
  {
    assert InPair(p, p.reader) && InPair(p, p.writer);
  }

  lemma StillGot(c: Core, c': Core, e: Core, e': Core, p: Pair)
    requires GotBytes(c', e, p) && SamePipe(c, c', p.write.fd) && SamePipe(e, e', p.write.fd)
    requires p.reader in e.vms ==> p.reader in e'.vms && e'.vms[p.reader] == e.vms[p.reader]
    ensures GotBytes(c, e', p)
  {
  }

  lemma ServeFirst(c: Core, e: Core, r: Core, pairs: seq<Pair>)
    requires CountsOk(pairs) && pairs != [] && Disjoint(pairs) && OwnPipes(pairs)
    requires CountsOk(pairs[1..]) && OneServed(c, e, pairs[0]) && AllServed(e, r, pairs[1..])
    ensures AllServed(c, r, pairs)
  {
    hide PairReport, GotBytes;
    var p, rest := pairs[0], pairs[1..];
    assert forall i :: 0 <= i < |rest| ==> rest[i] == pairs[i + 1];
    forall v | InPair(p, v)
      ensures !Involved(rest, v)
    {
      assert forall i :: 0 <= i < |rest| ==> Apart(p, rest[i]);
    }
    SameVmSameReport(e, r, p);
    assert !Used(rest, p.write.fd);
    forall i | 0 <= i < |pairs|
      ensures PairReport(r, pairs[i]) && GotBytes(c, r, pairs[i])
      ensures MorePipe(c, r, pairs[i].write.fd, Copiable(pairs[i]))
    {
      if i > 0 {
        assert pairs[i] == rest[i - 1];
        assert SamePipe(c, e, pairs[i].write.fd);
        StillGot(c, e, r, r, pairs[i]);
      } else {
        assert SamePipe(e, r, p.write.fd);
        assert InPair(p, p.reader);
        StillGot(c, c, e, r, p);
      }
    }
    forall v | v in c.vms && !Involved(pairs, v)
      ensures v in r.vms && r.vms[v] == c.vms[v]
    {
      assert !InPair(pairs[0], v);
      assert forall i :: 0 <= i < |rest| ==> !InPair(rest[i], v);
      assert !Involved(rest, v);
    }
    forall fd | !Used(pairs, fd)
      ensures SamePipe(c, r, fd)
    {
      assert pairs[0].write.fd != fd;
      assert forall i :: 0 <= i < |rest| ==> rest[i].write.fd != fd;
      assert SamePipe(c, e, fd) && SamePipe(e, r, fd);
    }
  }

  lemma {:induction false} TransferAllReports(w: Work, pairs: seq<Pair>)
    requires VmsOk(w.core) && Disjoint(pairs) && OwnPipes(pairs) && ArePairs(w.core, pairs) && CountsOk(pairs)
    ensures TransferAll(w, pairs).Ok? ==> AllServed(w.core, TransferAll(w, pairs).w.core, pairs)
    decreases |pairs|
  {
    hide VmsOk, Transfer, AllServed, Copied, PairReport, MorePipe, OtherPipes, GotBytes;
    if pairs == [] {
      NoneServed(w.core);
    } else if TransferAll(w, pairs).Ok? {
      var p, rest := pairs[0], pairs[1..];
      var e := Transfer(w, p).w;
      assert IsPair(w.core, p);
      TransferReports(w, p);
      TransferEffect(w, p);
      TransferPipes(w.core, e.core, p);
      TransferKeeps(w.core, w, p, {p.writer});
      RelaxedInv(w.core, e.core);
      StillPairs(w.core, e.core, pairs);
      assert forall i :: 0 <= i < |rest| ==> rest[i] == pairs[i + 1];
      TransferAllReports(e, rest);
      ServeFirst(w.core, e.core, TransferAll(e, rest).w.core, pairs);
    }
  }

  lemma NoneServed(c: Core)
    ensures AllServed(c, c, [])
  {
  }

  // ----- All pipes -----

  lemma OwnersDiffer(c: Core, pairs: seq<Pair>)
    requires VmsOk(c) && PairList(c, pairs)
    ensures OwnPipes(pairs)
  {
    hide PairList, MatchedWriters;
    PairsArePairs(c, pairs);
    forall i, j | 0 <= i < j < |pairs|
      ensures pairs[i].write.fd != pairs[j].write.fd
    {
      var p, q := pairs[i], pairs[j];
      assert StateOk(c, p.writer, c.states[p.writer]) && StateOk(c, q.writer, c.states[q.writer]);
    }
  }

  /** What machine `id` is told when its read or write ends: as many bytes as went through the
      pipe, in this round for a read, since the write began for a write. A read finds the bytes in
      its buffer. */
  predicate Told(c: Core, e: Core, id: VmId) {
    id in c.states && id in e.states && e.states[id].Runnable? ==>
      match c.states[id]
      case WaitForRead(read) =>
        var fd := OtherFd(read.fd);
        && |Delivered(c, fd)| <= |Delivered(e, fd)|
        && Reports(e, id, read.lengthAddr, |Delivered(e, fd)| - |Delivered(c, fd)|)
        && BytesBut(e.vms[id].cpu.memory, read.bufferAddr, Delivered(e, fd)[|Delivered(c, fd)|..], read.lengthAddr)
      case WaitForWrite(write) => Reports(e, id, write.lengthAddr, |Delivered(e, write.fd)| - Mark(e, write.fd))
      case _ => true
  }

  lemma PairTold(c: Core, f: Core, e: Core, pairs: seq<Pair>, i: nat, id: VmId)
    requires VmsOk(c) && Fifo(c) && CountsOk(pairs) && i < |pairs| && IsPair(c, pairs[i]) && InPair(pairs[i], id)
    requires f.pipes == c.pipes && AllServed(f, e, pairs)
    requires id in e.states && e.states[id] == if id == pairs[i].reader then Runnable else WriterAfter(pairs[i])
    ensures Told(c, e, id)
  {
    hide VmsOk, Fifo, AllServed, Told, PairReport, GotBytes, MorePipe, WriteOk;
    var p := pairs[i];
    ServedFacts(f, e, pairs, i);
    WriterOk(c, p.writer);
    if id == p.reader {
      ReaderTold(c, f, e, p);
    } else {
      WriterTold(c, f, e, p);
    }
  }

  lemma ServedFacts(f: Core, e: Core, pairs: seq<Pair>, i: nat)
    requires CountsOk(pairs) && i < |pairs| && AllServed(f, e, pairs)
    ensures PairReport(e, pairs[i]) && GotBytes(f, e, pairs[i]) && MorePipe(f, e, pairs[i].write.fd, Copiable(pairs[i]))
  {
    hide PairReport, GotBytes, MorePipe, SamePipe;
  }

  lemma WriterOk(c: Core, id: VmId)
    requires Fifo(c)
    ensures WriteOk(c, id)
  {
    hide WriteOk, Settled, InOrder;
  }

  lemma ReaderTold(c: Core, f: Core, e: Core, p: Pair)
    requires IsPair(c, p) && p.write.consumed <= p.write.length && f.pipes == c.pipes
    requires PairReport(e, p) && GotBytes(f, e, p) && MorePipe(f, e, p.write.fd, Copiable(p))
    ensures Told(c, e, p.reader)
  {
    hide BytesBut, Reports;
    OtherOther(p.write.fd);
    hide OtherFd;
  }

  lemma WriterTold(c: Core, f: Core, e: Core, p: Pair)
    requires IsPair(c, p) && p.write.consumed <= p.write.length && f.pipes == c.pipes && WriteOk(c, p.writer)
    requires PairReport(e, p) && MorePipe(f, e, p.write.fd, Copiable(p))
    requires p.writer in e.states && e.states[p.writer] == WriterAfter(p)
    ensures Told(c, e, p.writer)
  {
    hide BytesBut, Reports, Pending;
  }

  lemma OtherOther(fd: Fd)
    ensures OtherFd(OtherFd(fd)) == fd
  {
  }

  lemma ClosedTold(c: Core, f: Core, e: Core, pairs: seq<Pair>, id: VmId)
    requires VmsOk(c) && Fifo(c) && CountsOk(pairs) && ArePairs(c, pairs) && id in c.states && !Involved(pairs, id)
    requires ClosedReport(f, id, c.states[id]) && f.pipes == c.pipes && AllServed(f, e, pairs)
    requires Reads(c, id) ==> !OtherEndOpen(c, c.states[id].read.fd)
    requires Writes(c, id) ==> !OtherEndOpen(c, c.states[id].write.fd)
    ensures Told(c, e, id)
  {
    hide AllServed, VmsOk, Fifo, Reports, Pending, BytesBut, ArePairs;
    var s := c.states[id];
    if s.WaitForRead? {
      ClosedPipe(c, f, e, pairs, OtherFd(s.read.fd), id, s.read.lengthAddr, 0);
      var fd := OtherFd(s.read.fd);
      assert Delivered(e, fd)[|Delivered(c, fd)|..] == [];
      NoBytes(e.vms[id].cpu.memory, s.read.bufferAddr, s.read.lengthAddr);
    } else if s.WaitForWrite? {
      WriterOk(c, id);
      ClosedPipe(c, f, e, pairs, s.write.fd, id, s.write.lengthAddr, s.write.consumed);
    }
  }

  lemma NoBytes(memory: seq<Byte>, addr: nat, at: nat)
    ensures BytesBut(memory, addr, [], at)
  {
  }

  /** Nothing goes through a pipe that has lost an end. */
  lemma ClosedPipe(c: Core, f: Core, e: Core, pairs: seq<Pair>, fd: Fd, id: VmId, addr: nat, k: int)
    requires VmsOk(c) && CountsOk(pairs) && ArePairs(c, pairs) && !Involved(pairs, id) && AllServed(f, e, pairs)
             && f.pipes == c.pipes
    requires fd !in c.fds || OtherFd(fd) !in c.fds
    requires Reports(f, id, addr, k)
    ensures Reports(e, id, addr, k) && Delivered(e, fd) == Delivered(c, fd) && Mark(e, fd) == Mark(c, fd)
    ensures id in e.vms
  {
    forall i | 0 <= i < |pairs|
      ensures pairs[i].write.fd != fd
    {
      var p := pairs[i];
      assert IsPair(c, p);
      assert StateOk(c, p.writer, c.states[p.writer]) && StateOk(c, p.reader, c.states[p.reader]);
    }
    assert !Used(pairs, fd);
    assert SamePipe(f, e, fd);
  }

  lemma ToldAt(c: Core, f: Core, e: Core, pairs: seq<Pair>, id: VmId)
    requires VmsOk(c) && Fifo(c) && id in c.states && PairList(c, pairs) && ArePairs(c, pairs)
    requires CountsOk(pairs) && Disjoint(pairs) && e.states == AfterPairs(f.states, pairs) && f.pipes == c.pipes
             && AllServed(f, e, pairs)
    requires forall v :: v in c.states && v !in ClosedEnds(c) ==> v in f.states && f.states[v] == c.states[v]
    requires forall i :: 0 <= i < |ClosedEnds(c)| ==> ClosedEnds(c)[i] in c.states
                                                      && ClosedReport(f, ClosedEnds(c)[i], c.states[ClosedEnds(c)[i]])
    ensures Told(c, e, id)
  {
    hide PairList, ClosedEnds, AfterPairs, MatchedWriters, Disjoint, VmsOk, Fifo, AllServed, ClosedReport;
    PairsArePairs(c, pairs);
    ClosedEndsClosed(c);
    if i :| 0 <= i < |pairs| && InPair(pairs[i], id) {
      AfterPairsAt(f.states, pairs, i);
      hide Told;
      PairTold(c, f, e, pairs, i, id);
    } else if id in ClosedEnds(c) {
      var i :| 0 <= i < |ClosedEnds(c)| && ClosedEnds(c)[i] == id;
      ClosedTold(c, f, e, pairs, id);
    } else {
      AfterPairsElsewhere(f.states, pairs, id);
    }
  }

  /** Every read and write that ends is reported as it was. */
  lemma ProcessIoReports(w: Work)
    requires VmsOk(w.core) && Fifo(w.core)
    ensures ProcessIo(w).Ok? ==> forall id :: id in w.core.states ==> Told(w.core, ProcessIo(w).w.core, id)
  {
    hide Fifo, VmsOk, FinishClosed, TransferAll, PairsOf, ClosedEnds, MatchedWriters, Disjoint, Told, AllServed,
         ArePairs;
    var c := w.core;
    var pairs := PairsOf(c, Ascending(MatchedWriters(c)));
    ProcessIoServes(w);
    if ProcessIo(w).Ok? {
      PairsArePairs(c, pairs);
      PairsDisjoint(c, pairs);
      OwnersDiffer(c, pairs);
      ClosedEndsDistinct(c);
      ClosedEndsClosed(c);
      FinishClosedKeeps(w, ClosedEnds(c));
      FinishClosedReports(w, ClosedEnds(c));
      var f := FinishClosed(w, ClosedEnds(c)).w;
      PairsNotClosed(c, f.core, pairs);
      PairsNotClosed(c, c, pairs);
      RelaxedInv(c, f.core);
      FinishClosedFifo(w, ClosedEnds(c));
      TransferAllServes(f, pairs);
      TransferAllReports(f, pairs);
      forall id | id in c.states
        ensures Told(c, ProcessIo(w).w.core, id)
      {
        ToldAt(c, f.core, ProcessIo(w).w.core, pairs, id);
      }
    }
  }
}
