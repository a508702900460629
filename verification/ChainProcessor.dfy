/** The engine as objects that update columns of the store in place: a database transaction, the
    changes of a fork, and the processor that verifies one block at a time. */
module ChainProcessor {
  import opened Basics
  import opened ChainState
  import opened ChainReplay
  import opened ChainEngine
  import opened ChainFork

  // ----- Parts of a block -----

  function SomePoints(tx: Tx, n: nat): set<OutPoint>
    requires n <= |tx.outputs|
  {
    set j | 0 <= j < n :: OutPoint(tx.hash, j)
  }

  function SomeOutputs(b: Block, i: nat, n: nat): map<OutPoint, Cell>
    requires i < |b.txs| && n <= |b.txs[i].outputs|
  {
    map op | op in SomePoints(b.txs[i], n) :: Cell(b.txs[i].outputs[op.index], b.hash, b.number, i)
  }

  lemma OneMoreOutput(b: Block, i: nat, n: nat)
    requires i < |b.txs| && n < |b.txs[i].outputs|
    ensures SomeOutputs(b, i, n + 1)
            == SomeOutputs(b, i, n)[OutPoint(b.txs[i].hash, n) := Cell(b.txs[i].outputs[n], b.hash, b.number, i)]
    ensures SomePoints(b.txs[i], n + 1) == SomePoints(b.txs[i], n) + {OutPoint(b.txs[i].hash, n)}
  {
    assert SomePoints(b.txs[i], n + 1) == SomePoints(b.txs[i], n) + {OutPoint(b.txs[i].hash, n)};
  }

  lemma AllOutputs(b: Block, i: nat)
    requires i < |b.txs|
    ensures SomeOutputs(b, i, |b.txs[i].outputs|) == Outputs(b, i)
    ensures SomePoints(b.txs[i], |b.txs[i].outputs|) == Outputs(b, i).Keys
    ensures SomeOutputs(b, i, 0) == map[] && SomePoints(b.txs[i], 0) == {}
  {
    assert SomePoints(b.txs[i], |b.txs[i].outputs|) == Points(b.txs[i]);
  }

  function SomeInputs(tx: Tx, n: nat): set<OutPoint>
    requires n <= |tx.inputs|
  {
    set op | op in tx.inputs[..n]
  }

  lemma OneMoreInput(tx: Tx, n: nat)
    requires n < |tx.inputs|
    ensures SomeInputs(tx, n + 1) == SomeInputs(tx, n) + {tx.inputs[n]}
    ensures SomeInputs(tx, 0) == {} && SomeInputs(tx, |tx.inputs|) == Inputs(tx)
  {
    assert tx.inputs[..n + 1] == tx.inputs[..n] + [tx.inputs[n]];
    assert tx.inputs[..|tx.inputs|] == tx.inputs;
  }

  lemma NoInputs(tx: Tx)
    ensures SomeInputs(tx, 0) == {} && SomeInputs(tx, |tx.inputs|) == Inputs(tx)
  {
    assert tx.inputs[..|tx.inputs|] == tx.inputs;
  }

  lemma NothingRestored(blocks: map<Hash, Block>, txs: map<Hash, TxInfo>, b: Block, cells: map<OutPoint, Cell>)
    ensures cells + Restored(blocks, txs, Spent(b, if 1 <= |b.txs| then 1 else |b.txs|)) == cells
  {
    hide Lookup;
  }

  lemma RestoredMore(blocks: map<Hash, Block>, txs: map<Hash, TxInfo>, b: Block, i: int, cells: map<OutPoint, Cell>)
    requires 1 <= i < |b.txs|
    ensures cells + Restored(blocks, txs, Spent(b, i)) + Restored(blocks, txs, Inputs(b.txs[i]))
            == cells + Restored(blocks, txs, Spent(b, i + 1))
  {
    hide Inputs, Lookup;
    assert Spent(b, i + 1) == Spent(b, i) + Inputs(b.txs[i]);
    hide Spent;
  }

  /** A database transaction on the columns of the store. It reads block bodies from `blocks`. */
  class StoreTransaction {
    const blocks: map<Hash, Block>
    var index: map<int, Hash>
    var numbers: map<Hash, int>
    var txs: map<Hash, TxInfo>
    var cells: map<OutPoint, Cell>
    var exts: map<Hash, Ext>

    ghost function V(): View
      reads `index, `numbers, `txs, `cells
    {
      View(index, numbers, txs, cells)
    }

    constructor (blocks: map<Hash, Block>, v: View, exts: map<Hash, Ext>)
      ensures this.blocks == blocks && V() == v && this.exts == exts
    {
      this.blocks := blocks;
      index, numbers, txs, cells := v.index, v.numbers, v.txs, v.cells;
      this.exts := exts;
    }

    method AttachBlock(b: Block)
      modifies `index, `numbers, `txs
      ensures txs == old(txs) + Infos(b, |b.txs|)
      ensures index == old(index)[b.number := b.hash] && numbers == old(numbers)[b.hash := b.number]
    {
      for i := 0 to |b.txs|
        invariant txs == old(txs) + Infos(b, i) && index == old(index) && numbers == old(numbers)
      {
        txs := txs[b.txs[i].hash := TxInfo(b.hash, b.number, i)];
      }
      index := index[b.number := b.hash];
      numbers := numbers[b.hash := b.number];
    }

    method InsertOutputs(b: Block, i: nat)
      requires i < |b.txs|
      modifies `cells
      ensures cells == old(cells) + Outputs(b, i)
    {
      hide SomeOutputs, Outputs;
      AllOutputs(b, i);
      for j := 0 to |b.txs[i].outputs|
        invariant cells == old(cells) + SomeOutputs(b, i, j)
      {
        OneMoreOutput(b, i, j);
        cells := cells[OutPoint(b.txs[i].hash, j) := Cell(b.txs[i].outputs[j], b.hash, b.number, i)];
      }
    }

    method DeleteInputs(tx: Tx)
      modifies `cells
      ensures cells == old(cells) - Inputs(tx)
    {
      for k := 0 to |tx.inputs|
        invariant cells == old(cells) - SomeInputs(tx, k)
      {
        OneMoreInput(tx, k);
        cells := cells - {tx.inputs[k]};
      }
      assert tx.inputs[..|tx.inputs|] == tx.inputs;
    }

    /** New cells first, then the inputs of all but the cellbase. */
    method AttachBlockCell(b: Block)
      modifies `cells
      ensures cells == AttachCells(old(cells), b)
    {
      hide Outputs, Inputs;
      for i := 0 to |b.txs|
        invariant cells == old(cells) + Created(b, i)
      {
        InsertOutputs(b, i);
      }
      ghost var all := cells;
      var i := 1;
      while i < |b.txs|
        invariant 1 <= i && (i <= |b.txs| ==> cells == all - Spent(b, i))
                  && (|b.txs| < i ==> |b.txs| == 0 && cells == all)
      {
        DeleteInputs(b.txs[i]);
        i := i + 1;
      }
    }

    method DetachBlock(b: Block)
      modifies `index, `numbers, `txs
      ensures txs == old(txs) - Hashes(b)
      ensures index == old(index) - {b.number} && numbers == old(numbers) - {b.hash}
    {
      for i := 0 to |b.txs|
        invariant txs == old(txs) - (set k | 0 <= k < i :: b.txs[k].hash) && index == old(index)
                  && numbers == old(numbers)
      {
        assert (set k | 0 <= k < i + 1 :: b.txs[k].hash) == (set k | 0 <= k < i :: b.txs[k].hash) + {b.txs[i].hash};
        txs := txs - {b.txs[i].hash};
      }
      index := index - {b.number};
      numbers := numbers - {b.hash};
    }

    method RestoreInputs(tx: Tx)
      modifies `cells
      ensures cells == old(cells) + Restored(blocks, txs, Inputs(tx))
    {
      hide Lookup, SomeInputs, Inputs;
      NoInputs(tx);
      for k := 0 to |tx.inputs|
        invariant cells == old(cells) + Restored(blocks, txs, SomeInputs(tx, k))
      {
        OneMoreInput(tx, k);
        var cell := Lookup(blocks, txs, tx.inputs[k]);
        if cell.Some? {
          cells := cells[tx.inputs[k] := cell.value];
        }
      }
    }

    method DeleteOutputs(b: Block, i: nat)
      requires i < |b.txs|
      modifies `cells
      ensures cells == old(cells) - Outputs(b, i).Keys
    {
      hide SomeOutputs, Outputs, SomePoints;
      AllOutputs(b, i);
      for j := 0 to |b.txs[i].outputs|
        invariant cells == old(cells) - SomePoints(b.txs[i], j)
      {
        OneMoreOutput(b, i, j);
        cells := cells - {OutPoint(b.txs[i].hash, j)};
      }
    }

    method RestoreSpent(b: Block)
      modifies `cells
      ensures cells == old(cells) + Restored(blocks, txs, Spent(b, |b.txs|))
    {
      hide Inputs, Restored, Spent;
      var i := 1;
      NothingRestored(blocks, txs, b, cells);
      while i < |b.txs|
        invariant 1 <= i && (|b.txs| < i ==> |b.txs| == 0)
        invariant cells == old(cells) + Restored(blocks, txs, Spent(b, if i <= |b.txs| then i else |b.txs|))
      {
        RestoredMore(blocks, txs, b, i, old(cells));
        RestoreInputs(b.txs[i]);
        i := i + 1;
      }
    }

    /** The inputs that can still be found are live again, then the new cells are gone. */
    method DetachBlockCell(b: Block)
      modifies `cells
      ensures cells == (old(cells) + Restored(blocks, txs, Spent(b, |b.txs|))) - Created(b, |b.txs|).Keys
    {
      hide Outputs, Restored, Spent;
      RestoreSpent(b);
      ghost var all := cells;
      for k := 0 to |b.txs|
        invariant cells == all - Created(b, k).Keys
      {
        DeleteOutputs(b, k);
      }
    }

    method Attach(b: Block)
      modifies `index, `numbers, `txs, `cells
      ensures V() == ChainState.Attach(old(V()), b)
    {
      AttachBlock(b);
      AttachBlockCell(b);
      hide AttachCells, Infos;
    }

    method Detach(b: Block)
      modifies `index, `numbers, `txs, `cells
      ensures V() == ChainState.Detach(blocks, old(V()), b)
    {
      hide Restored, Created, Spent, Hashes;
      DetachBlock(b);
      DetachBlockCell(b);
    }
  }

  /** Blocks to attach and to detach, and the exts of the attached blocks that are unverified. */
  class ForkChanges {
    var attached: seq<Block>
    var detached: seq<Block>
    var dirty: seq<Ext>

    constructor ()
      ensures attached == [] && detached == [] && dirty == []
    {
      attached, detached, dirty := [], [], [];
    }
  }

  /** A place on a chain, on the way back to the first block. */
  class GlobalIndex {
    var number: int
    var hash: Hash
    var unseen: bool

    constructor (number: int, hash: Hash, unseen: bool)
      ensures this.number == number && this.hash == hash && this.unseen == unseen
    {
      this.number, this.hash, this.unseen := number, hash, unseen;
    }

    method Forward(parent: Hash)
      modifies `number, `hash
      ensures number == old(number) - 1 && hash == parent
    {
      number := number - 1;
      hash := parent;
    }
  }

  /** `exts` after the blocks of `p` from the `v`th to the one before the `n`th have been put on
      record as verified, with the totals of `x`. */
  ghost function ConfirmTo(exts: map<Hash, Ext>, x: map<Hash, Ext>, p: seq<Block>, v: nat, n: nat): map<Hash, Ext>
    requires v <= n <= |p| && forall j :: 0 <= j < |p| ==> p[j].hash in x
  {
    if n == v then exts else ConfirmTo(exts, x, p, v, n - 1)[p[n - 1].hash := Ext(x[p[n - 1].hash].total, Some(true))]
  }

  /** The proposals of the blocks of `p` with numbers from `lo` to `hi`, the first block left out. */
  ghost function Proposals(p: seq<Block>, lo: int, hi: int): set<int> {
    set n, id | 1 <= n < |p| && lo <= n <= hi && id in p[n].proposals :: id
  }

  lemma {:induction false} ConfirmToIs(exts: map<Hash, Ext>, x: map<Hash, Ext>, p: seq<Block>, v: nat, h: Hash,
                                       ext: Ext)
    requires x == exts[h := ext] && v < |p| && p[|p| - 1].hash == h && forall j :: 0 <= j < |p| ==> p[j].hash in x
    requires v == VerifiedLen(x, p)
    ensures ConfirmTo(exts, x, p, v, |p|) == Confirm(x, p)
  {
    hide VerifiedLen;
    var c := ConfirmTo(exts, x, p, v, |p|);
    forall g
      ensures g in c <==> g in x
      ensures g in x ==> g in c && c[g] == Confirm(x, p)[g]
    {
      ConfirmToAt(exts, x, p, v, |p|, g);
      if i :| 0 <= i < |p| && p[i].hash == g {
        assert OnPath(p, g);
        if i < v {
          assert x[g].verified == Some(true);
        }
      }
    }
  }

  ghost predicate HasBlock(p: seq<Block>, v: nat, n: nat, g: Hash) {
    exists j :: v <= j < n && j < |p| && p[j].hash == g
  }

  lemma {:induction false} ConfirmToAt(exts: map<Hash, Ext>, x: map<Hash, Ext>, p: seq<Block>, v: nat, n: nat, g: Hash)
    requires v <= n <= |p| && forall j :: 0 <= j < |p| ==> p[j].hash in x
    ensures var c := ConfirmTo(exts, x, p, v, n);
            && (g in c <==> g in exts || HasBlock(p, v, n, g))
            && (HasBlock(p, v, n, g) ==> g in c && c[g] == Ext(x[g].total, Some(true)))
            && (g in exts && !HasBlock(p, v, n, g) ==> c[g] == exts[g])
    decreases n
  {
    if n > v {
      ConfirmToAt(exts, x, p, v, n - 1, g);
      assert HasBlock(p, v, n, g) <==> HasBlock(p, v, n - 1, g) || p[n - 1].hash == g;
    }
  }

  /** What verification of a new best block comes to. */
  lemma BestVerdict(rules: Rules, st: Store, b: Block, switch: Switch, ext: Ext, p: seq<Block>)
    requires !Refused(st, b) && b.parent in st.exts && ext == Ext(st.exts[b.parent].total + b.difficulty, None)
    requires st.tip in st.exts && ext.total > st.exts[st.tip].total
             && (b.hash in st.exts ==> st.exts[b.hash].verified.None?)
    requires p == PathTo(st.blocks, b.parent) + [b]
    ensures Verify(rules, st, b, switch)
            == if switch.disableAll || AllChecked(rules, p, VerifiedLen(st.exts, p), switch) then
                 Verdict(Store(st.genesis, st.blocks, Confirm(st.exts[b.hash := ext], p), Replay(p), st.mmr + Leaves(p),
                               b.hash,
                               Window(rules.farthest, p), st.invalid), NewBlock)
               else Verdict(st, Rejected)
  {
    hide Path, PathTo, Replay, AllChecked, Leaves, VerifiedLen, Window, Confirm;
  }

  lemma RejectedIsUnchanged(rules: Rules, st: Store, b: Block, switch: Switch)
    ensures Verify(rules, st, b, switch).outcome == Rejected ==> Verify(rules, st, b, switch).store == st
  {
    hide Path, PathTo, Replay, AllChecked, Leaves, VerifiedLen, Window, Confirm;
  }

  /** The path to the tip does not pass through a block that is rejected. */
  lemma RejectedPath(rules: Rules, st: Store, b: Block, switch: Switch)
    requires StoreInv(rules, st) && Submitted(st, b) && Verify(rules, st, b, switch).outcome == Rejected
    ensures PathTo(st.blocks - {b.hash}, st.tip) == PathTo(st.blocks, st.tip)
  {
    hide Path, PathTo, Verify, BlocksOk, ExtsOk, Replay, LeavesOk, Window;
    if b.hash in st.exts {
      TreeIsKept(rules, st, b, switch);
    } else {
      forall h | h in st.exts
        ensures h in st.blocks && h in st.blocks - {b.hash} && (st.blocks - {b.hash})[h] == st.blocks[h]
      {
        assert Placed(st.genesis, st.blocks, st.exts, h);
      }
      PathFrame(st.genesis, st.blocks, st.blocks - {b.hash}, st.exts, st.tip);
    }
  }

  lemma FirstPath(g: Block)
    requires g.number == 0
    ensures PathTo(map[g.hash := g], g.hash) == [g] && forall lo, hi :: Proposals([g], lo, hi) == {}
  {
  }

  lemma TipTotal(x: map<Hash, Ext>, p: seq<Block>, b: Block)
    requires b.hash in x
    ensures b.hash in Confirm(x, p) && Confirm(x, p)[b.hash].total == x[b.hash].total
  {
  }

  lemma PutBack(p: seq<Block>, n: nat)
    requires n < |p|
    ensures p[n..] == [p[n]] + p[n + 1..]
  {
  }

  lemma OneMore(x: map<Hash, Ext>, p: seq<Block>, n: nat)
    requires n < |p| && forall j :: 0 <= j < |p| ==> p[j].hash in x
    ensures p[n..] == [p[n]] + p[n + 1..]
    ensures ExtsFrom(x, p, n) == [x[p[n].hash]] + ExtsFrom(x, p, n + 1)
    ensures p[|p| - 1..] == [p[|p| - 1]] && ExtsFrom(x, p, |p| - 1) == [x[p[|p| - 1].hash]]
  {
  }

  class Processor {
    const genesis: Hash
    const rules: Rules
    var blocks: map<Hash, Block>
    var exts: map<Hash, Ext>
    var index: map<int, Hash>
    var numbers: map<Hash, int>
    var txs: map<Hash, TxInfo>
    var cells: map<OutPoint, Cell>
    var mmr: map<int, Hash>
    var tip: Hash
    var tipTotal: int
    var table: map<int, set<int>>
    var invalid: set<Hash>
    var proposed: set<int>
    var gap: set<int>

    ghost function V(): View
      reads `index, `numbers, `txs, `cells
    {
      View(index, numbers, txs, cells)
    }

    ghost function Abs(): Store
      reads this
    {
      Store(genesis, blocks, exts, V(), mmr, tip, table, invalid)
    }

    /** The store of a node that has only the first block. */
    constructor (g: Block, rules: Rules)
      requires GenesisFormed(g) && rules.closest <= rules.farthest
      requires forall i :: 0 <= i < |g.txs| ==> g.txs[i].hash != NULL_POINT.tx
      ensures this.rules == rules && Abs() == Initial(g) && Ready() && StoreInv(rules, Abs())
    {
      InitialInv(rules, g);
      var v := Replay([g]);
      genesis, this.rules := g.hash, rules;
      blocks, exts := map[g.hash := g], map[g.hash := Ext(g.difficulty, Some(true))];
      index, numbers, txs, cells := v.index, v.numbers, v.txs, v.cells;
      mmr, tip, tipTotal := map[0 := g.hash], g.hash, g.difficulty;
      table, invalid, proposed, gap := map[], {}, {}, {};
      new;
      FirstPath(g);
    }

    // ----- Finding the fork -----

    /** `x` is the record of exts with that of the new block `h` added. */
    ghost predicate Candidate(x: map<Hash, Ext>, h: Hash)
      reads this
    {
      && BlocksOk(genesis, blocks) && TreeOk(genesis, blocks, x) && ExtsOk(rules, genesis, blocks, x)
      && h in x && h != genesis && !IsVerified(x, h) && IsVerified(x, tip)
      && V() == Replay(PathTo(blocks, tip))
      && LeavesOk(mmr, PathTo(blocks, tip))
      && (forall g :: g in x && g != h ==> g in exts && exts[g] == x[g])
    }

    /** What has been collected on the way from block `h` back to the place `at`. */
    ghost predicate Walked(fork: ForkChanges, at: GlobalIndex, x: map<Hash, Ext>, h: Hash)
      reads this, fork`attached, fork`dirty, at
    {
      var p := PathTo(blocks, h);
      && 0 <= at.number <= |p| - 2
      && at.hash == p[at.number].hash
      && fork.attached == p[at.number + 1..]
      && (forall j :: 0 <= j < |p| ==> p[j].hash in x)
      && (if at.unseen then VerifiedLen(x, p) <= at.number + 1 && fork.dirty == ExtsFrom(x, p, at.number + 1)
          else at.number + 1 < VerifiedLen(x, p) && fork.dirty == ExtsFrom(x, p, VerifiedLen(x, p)))
    }

    /** The block of the path to `h` with number `n` can be looked up. */
    lemma OnTheWay(x: map<Hash, Ext>, h: Hash, n: nat)
      requires Candidate(x, h) && n < |PathTo(blocks, h)| - 1
      ensures PathTo(blocks, h)[n].hash in x
      ensures PathTo(blocks, h)[n].hash in exts && exts[PathTo(blocks, h)[n].hash] == x[PathTo(blocks, h)[n].hash]
      ensures PathTo(blocks, h)[n].hash in blocks && blocks[PathTo(blocks, h)[n].hash] == PathTo(blocks, h)[n]
      ensures n > 0 ==> PathTo(blocks, h)[n].parent == PathTo(blocks, h)[n - 1].hash
      ensures IsVerified(x, PathTo(blocks, h)[n].hash) <==> n < VerifiedLen(x, PathTo(blocks, h))
      ensures x[PathTo(blocks, h)[n].hash].verified.Some? ==> IsVerified(x, PathTo(blocks, h)[n].hash)
    {
      hide BlocksOk, Replay, Path, Passed;
      PathIsChained(genesis, blocks, x, h);
      PathBeginnings(genesis, blocks, x, h, n);
      VerifiedBelow(rules, genesis, blocks, x, h, n);
      var g := PathTo(blocks, h)[n].hash;
      assert Placed(genesis, blocks, x, g) && ExtOk(rules, genesis, blocks, x, g);
    }

    /** One block back: collect it, and its ext as long as no verified block has been seen. */
    method StepBack(fork: ForkChanges, at: GlobalIndex, ghost x: map<Hash, Ext>, ghost h: Hash)
      requires Candidate(x, h) && Walked(fork, at, x, h) && at.number > 0
      modifies fork`attached, fork`dirty, at
      ensures Walked(fork, at, x, h) && at.number == old(at.number) - 1
    {
      hide Path, PathTo, Candidate, VerifiedLen, ExtsFrom;
      ghost var p := PathTo(blocks, h);
      OnTheWay(x, h, at.number);
      OneMore(x, p, at.number);
      if at.unseen {
        var ext := exts[at.hash];
        if ext.verified.None? {
          fork.dirty := [ext] + fork.dirty;
        } else {
          at.unseen := false;
        }
      }
      var block := blocks[at.hash];
      at.Forward(block.parent);
      fork.attached := [block] + fork.attached;
    }

    lemma TipPath(x: map<Hash, Ext>, h: Hash, n: nat)
      requires Candidate(x, h) && tip in blocks && n <= blocks[tip].number
      ensures |PathTo(blocks, tip)| == blocks[tip].number + 1
      ensures n in index && index[n] == PathTo(blocks, tip)[n].hash
      ensures index[n] in blocks && blocks[index[n]] == PathTo(blocks, tip)[n]
    {
      hide BlocksOk, Path, Passed, ExtsOk, LeavesOk;
      PathIsChained(genesis, blocks, x, tip);
      PathBeginnings(genesis, blocks, x, tip, n);
      ReplayIndex(genesis, PathTo(blocks, tip), n);
    }

    lemma WalkedPlace(fork: ForkChanges, at: GlobalIndex, x: map<Hash, Ext>, h: Hash)
      requires Walked(fork, at, x, h)
      ensures 0 <= at.number <= |PathTo(blocks, h)| - 2 && at.hash == PathTo(blocks, h)[at.number].hash
    {
    }

    /** Bring the two chains to the same height: blocks of the main chain from the number of the
        new one on are detached, blocks of the new chain above the main chain are attached. */
    method AlignmentFork(fork: ForkChanges, at: GlobalIndex, newTipNumber: int, currentTipNumber: int,
                         ghost x: map<Hash, Ext>, ghost h: Hash)
      requires Candidate(x, h) && Walked(fork, at, x, h) && fork.detached == []
      requires tip in blocks && currentTipNumber == blocks[tip].number && currentTipNumber >= 0
      requires newTipNumber == |PathTo(blocks, h)| - 1 && at.number == newTipNumber - 1
      modifies fork, at
      ensures Walked(fork, at, x, h)
      ensures at.number < |PathTo(blocks, tip)| && fork.detached == PathTo(blocks, tip)[at.number + 1..]
      ensures at.number == |PathTo(blocks, h)| - 2 || at.number == |PathTo(blocks, tip)| - 1
    {
      hide Path, PathTo, Candidate, Walked;
      ghost var m := PathTo(blocks, tip);
      TipPath(x, h, 0);
      WalkedPlace(fork, at, x, h);
      if newTipNumber <= currentTipNumber {
        for bn := newTipNumber to currentTipNumber + 1
          invariant fork.detached == m[newTipNumber..bn]
          invariant Walked(fork, at, x, h) && at.number == newTipNumber - 1
        {
          TipPath(x, h, bn);
          fork.detached := fork.detached + [blocks[index[bn]]];
        }
      } else {
        while at.number > currentTipNumber
          invariant Walked(fork, at, x, h) && at.number >= currentTipNumber && fork.detached == []
          decreases at.number
        {
          StepBack(fork, at, x, h);
        }
      }
    }

    /** Go back on both chains until they meet. */
    method FindForkUntilLatestCommon(fork: ForkChanges, at: GlobalIndex, ghost x: map<Hash, Ext>, ghost h: Hash)
      requires Candidate(x, h) && Walked(fork, at, x, h) && tip in blocks && blocks[tip].number >= 0
      requires at.number < |PathTo(blocks, tip)| && fork.detached == PathTo(blocks, tip)[at.number + 1..]
      requires at.number == |PathTo(blocks, tip)| - 1
               || PathTo(blocks, tip)[at.number + 1] != PathTo(blocks, h)[at.number + 1]
      modifies fork, at
      ensures Walked(fork, at, x, h) && 0 <= at.number < |PathTo(blocks, tip)|
      ensures at.number + 1 == CommonLen(PathTo(blocks, tip), PathTo(blocks, h))
      ensures fork.detached == PathTo(blocks, tip)[at.number + 1..]
    {
      hide Path, PathTo, Candidate, Walked, CommonLen;
      ghost var m, p := PathTo(blocks, tip), PathTo(blocks, h);
      TipPath(x, h, 0);
      WalkedPlace(fork, at, x, h);
      while at.number != 0
        invariant Walked(fork, at, x, h) && 0 <= at.number < |m| && at.number <= |p| - 2
        invariant fork.detached == m[at.number + 1..]
        invariant at.number == |m| - 1 || m[at.number + 1] != p[at.number + 1]
        decreases at.number
      {
        TipPath(x, h, at.number);
        WalkedPlace(fork, at, x, h);
        var detachedHash := index[at.number];
        if detachedHash == at.hash {
          break;
        }
        PutBack(m, at.number);
        fork.detached := [blocks[detachedHash]] + fork.detached;
        StepBack(fork, at, x, h);
      }
      WalkedPlace(fork, at, x, h);
      MeetsAt(x, h, at.number);
    }

    lemma MeetsAt(x: map<Hash, Ext>, h: Hash, n: nat)
      requires Candidate(x, h) && n < |PathTo(blocks, tip)| && n <= |PathTo(blocks, h)| - 2
      requires n == 0 || PathTo(blocks, tip)[n].hash == PathTo(blocks, h)[n].hash
      requires n == |PathTo(blocks, tip)| - 1 || PathTo(blocks, tip)[n + 1] != PathTo(blocks, h)[n + 1]
      ensures n + 1 == CommonLen(PathTo(blocks, tip), PathTo(blocks, h))
    {
      hide BlocksOk, ExtsOk, Replay, LeavesOk, Path;
      PathIsChained(genesis, blocks, x, tip);
      PathIsChained(genesis, blocks, x, h);
      AgreeBelow(genesis, blocks, x, tip, h, n);
      CommonLenIs(PathTo(blocks, tip), PathTo(blocks, h), n + 1);
    }

    /** `fork` leads from the main chain to the path to `h`: it detaches exactly the blocks of
        the former after the latest common one, attaches exactly those of the latter, and has
        the exts of the blocks that are not verified. */
    ghost predicate LeadsTo(fork: ForkChanges, x: map<Hash, Ext>, h: Hash)
      reads this, fork
    {
      var m, p := PathTo(blocks, tip), PathTo(blocks, h);
      && fork.attached == p[CommonLen(m, p)..]
      && fork.detached == m[CommonLen(m, p)..]
      && 0 < CommonLen(m, p) <= VerifiedLen(x, p) < |p|
      && (forall j :: 0 <= j < |p| ==> p[j].hash in x)
      && fork.dirty == ExtsFrom(x, p, VerifiedLen(x, p))
    }

    lemma FreshTip(x: map<Hash, Ext>, h: Hash, n: nat)
      requires Candidate(x, h) && n < |PathTo(blocks, tip)|
      ensures tip in blocks && blocks[tip].number >= 0
      ensures PathTo(blocks, tip)[n].hash != h
      ensures VerifiedLen(x, PathTo(blocks, h)) < |PathTo(blocks, h)|
    {
      hide BlocksOk, Replay, LeavesOk, Path;
      PathIsChained(genesis, blocks, x, tip);
      PathIsChained(genesis, blocks, x, h);
      assert Placed(genesis, blocks, x, tip);
      VerifiedPath(rules, genesis, blocks, x, tip, n);
      VerifiedBelow(rules, genesis, blocks, x, h, |PathTo(blocks, h)| - 1);
    }

    lemma CommonIsVerified(x: map<Hash, Ext>, h: Hash, n: nat)
      requires Candidate(x, h) && n + 1 == CommonLen(PathTo(blocks, tip), PathTo(blocks, h))
      ensures n < VerifiedLen(x, PathTo(blocks, h))
    {
      hide BlocksOk, Replay, LeavesOk, Path, PathTo;
      var m, p := PathTo(blocks, tip), PathTo(blocks, h);
      assert m[n] == m[..n + 1][n] && p[n] == p[..n + 1][n];
      VerifiedPath(rules, genesis, blocks, x, tip, n);
      VerifiedBelow(rules, genesis, blocks, x, h, n);
    }

    method FindFork(fork: ForkChanges, currentTipNumber: int, newTip: Block, newExt: Ext, ghost x: map<Hash, Ext>)
      requires x == exts[newTip.hash := newExt] && Candidate(x, newTip.hash) && newExt.verified.None?
      requires Stored(blocks, newTip) && tip in blocks && currentTipNumber == blocks[tip].number
      requires fork.attached == [] && fork.detached == [] && fork.dirty == []
      modifies fork
      ensures LeadsTo(fork, x, newTip.hash)
    {
      hide Path, PathTo, Candidate, Walked, LeadsTo, VerifiedLen, CommonLen;
      ghost var h := newTip.hash;
      NewTipPath(x, h);
      fork.dirty := [newExt] + fork.dirty;
      fork.attached := [newTip] + fork.attached;
      var at := new GlobalIndex(newTip.number - 1, newTip.parent, true);
      SetOut(fork, at, x, h);
      AlignmentFork(fork, at, newTip.number, currentTipNumber, x, h);
      if at.number < |PathTo(blocks, tip)| - 1 {
        FreshTip(x, h, at.number + 1);
      }
      FindForkUntilLatestCommon(fork, at, x, h);
      Arrived(fork, at, x, h);
    }

    lemma SetOut(fork: ForkChanges, at: GlobalIndex, x: map<Hash, Ext>, h: Hash)
      requires Candidate(x, h) && h in blocks && fork.attached == [blocks[h]] && fork.dirty == [x[h]]
      requires at.number == blocks[h].number - 1 && at.hash == blocks[h].parent && at.unseen
      ensures Walked(fork, at, x, h)
    {
      hide Path, PathTo, Candidate, VerifiedLen, ExtsFrom;
      NewTipPath(x, h);
      OneMore(x, PathTo(blocks, h), 0);
    }

    lemma Arrived(fork: ForkChanges, at: GlobalIndex, x: map<Hash, Ext>, h: Hash)
      requires Candidate(x, h) && Walked(fork, at, x, h)
      requires 0 <= at.number < |PathTo(blocks, tip)|
               && at.number + 1 == CommonLen(PathTo(blocks, tip), PathTo(blocks, h))
      requires fork.detached == PathTo(blocks, tip)[at.number + 1..]
      ensures LeadsTo(fork, x, h)
    {
      hide Path, PathTo, Candidate, VerifiedLen, CommonLen, ExtsFrom;
      CommonIsVerified(x, h, at.number);
      FreshTip(x, h, 0);
    }

    lemma NewTipPath(x: map<Hash, Ext>, h: Hash)
      requires Candidate(x, h)
      ensures h in blocks && |PathTo(blocks, h)| == blocks[h].number + 1 >= 2
      ensures PathTo(blocks, h)[|PathTo(blocks, h)| - 1] == blocks[h] && blocks[h].hash == h
      ensures PathTo(blocks, h)[|PathTo(blocks, h)| - 2].hash == blocks[h].parent
      ensures forall j :: 0 <= j < |PathTo(blocks, h)| ==> PathTo(blocks, h)[j].hash in x
      ensures VerifiedLen(x, PathTo(blocks, h)) < |PathTo(blocks, h)|
      ensures tip in blocks && blocks[tip].number >= 0 && |PathTo(blocks, tip)| == blocks[tip].number + 1
    {
      hide BlocksOk, Replay, LeavesOk, Path;
      assert Placed(genesis, blocks, x, h) && Placed(genesis, blocks, x, tip);
      PathIsChained(genesis, blocks, x, h);
      PathIsChained(genesis, blocks, x, tip);
      VerifiedBelow(rules, genesis, blocks, x, h, |PathTo(blocks, h)| - 1);
      forall j | 0 <= j < |PathTo(blocks, h)|
        ensures PathTo(blocks, h)[j].hash in x
      {
        PathBeginnings(genesis, blocks, x, h, j);
      }
    }

    // ----- Moving the main chain -----

    /** The exts `x` are in order and the tip is verified. */
    ghost predicate Settled(x: map<Hash, Ext>)
      reads `blocks, `tip
    {
      BlocksOk(genesis, blocks) && TreeOk(genesis, blocks, x) && ExtsOk(rules, genesis, blocks, x) && IsVerified(x, tip)
    }

    /** Detach blocks, the last first. */
    method Rollback(fork: ForkChanges, txn: StoreTransaction, ghost x: map<Hash, Ext>, ghost m: seq<Block>,
                    ghost k: nat)
      requires Settled(x) && m == PathTo(blocks, tip) && 0 < k <= |m| && fork.detached == m[k..]
      requires txn.blocks == blocks && txn.V() == Replay(m)
      modifies txn`index, txn`numbers, txn`txs, txn`cells
      ensures txn.V() == Replay(m[..k])
    {
      hide Path, PathTo, ChainState.Detach, Replay, Settled;
      assert m[..|m|] == m;
      var i := |fork.detached|;
      while i > 0
        invariant 0 <= i <= |fork.detached| && txn.V() == Replay(m[..k + i])
      {
        i := i - 1;
        Unwound(x, m, k + i);
        txn.Detach(fork.detached[i]);
      }
    }

    lemma Unwound(x: map<Hash, Ext>, m: seq<Block>, i: nat)
      requires Settled(x) && m == PathTo(blocks, tip) && 0 < i < |m|
      ensures ChainState.Detach(blocks, Replay(m[..i + 1]), m[i]) == Replay(m[..i])
    {
      hide Path, PathTo, ChainState.Detach, ChainState.Attach, Replay, Attachable;
      AttachedInTurn(rules, genesis, blocks, x, tip, i);
      DetachUndoes(blocks, Replay(m[..i]), m[i]);
    }

    /** The leaves of the MMR before number `n`. */
    method OpenMmr(n: nat, ghost x: map<Hash, Ext>, ghost h: Hash) returns (leaves: seq<Hash>)
      requires Candidate(x, h) && n <= CommonLen(PathTo(blocks, tip), PathTo(blocks, h))
      ensures leaves == HashesOf(PathTo(blocks, h)[..n])
    {
      hide Path, PathTo, Replay, ExtsOk, BlocksOk, TreeOk;
      ghost var m, p := PathTo(blocks, tip), PathTo(blocks, h);
      ghost var k := CommonLen(m, p);
      assert forall i :: 0 <= i < n ==> p[i] == p[..k][i] && m[i] == m[..k][i];
      leaves := [];
      for i := 0 to n
        invariant leaves == HashesOf(p[..i])
      {
        leaves := leaves + [mmr[i]];
      }
    }

    /** Attach the blocks that were verified before, without looking at them again. */
    method AttachVerified(fork: ForkChanges, txn: StoreTransaction, ghost x: map<Hash, Ext>, ghost h: Hash)
      returns (leaves: seq<Hash>)
      requires Candidate(x, h) && LeadsTo(fork, x, h)
      requires txn.V() == Replay(PathTo(blocks, h)[..CommonLen(PathTo(blocks, tip), PathTo(blocks, h))])
      modifies txn`index, txn`numbers, txn`txs, txn`cells
      ensures var v := VerifiedLen(x, PathTo(blocks, h));
              txn.V() == Replay(PathTo(blocks, h)[..v]) && leaves == HashesOf(PathTo(blocks, h)[..v])
    {
      hide Path, PathTo, Replay, Candidate, ChainState.Attach, HashesOf, VerifiedLen, CommonLen, ExtsFrom;
      ghost var p := PathTo(blocks, h);
      ghost var k := CommonLen(PathTo(blocks, tip), p);
      NewTipPath(x, h);
      AttachedNumber(x, h, k);
      leaves := OpenMmr(fork.attached[0].number, x, h);
      var verifiedLen := |fork.attached| - |fork.dirty|;
      for i := 0 to verifiedLen
        invariant txn.V() == Replay(p[..k + i]) && leaves == HashesOf(p[..k + i])
      {
        OneMoreBlock(p, k + i);
        txn.Attach(fork.attached[i]);
        leaves := leaves + [fork.attached[i].hash];
      }
    }

    lemma AttachedNumber(x: map<Hash, Ext>, h: Hash, k: nat)
      requires Candidate(x, h) && k < |PathTo(blocks, h)|
      ensures PathTo(blocks, h)[k].number == k
    {
      PathIsChained(genesis, blocks, x, h);
    }

    /** The transaction has come as far as the `n`th block of `p`. */
    ghost predicate Reached(txn: StoreTransaction, leaves: seq<Hash>, x: map<Hash, Ext>, p: seq<Block>, v: nat, n: nat)
      reads `exts, txn
    {
      && v <= n <= |p| && (forall j :: 0 <= j < |p| ==> p[j].hash in x)
      && txn.V() == Replay(p[..n]) && leaves == HashesOf(p[..n]) && txn.exts == ConfirmTo(exts, x, p, v, n)
    }

    /** Verify one block and attach it. */
    method CheckOne(txn: StoreTransaction, leaves: seq<Hash>, b: Block, ext: Ext, switch: Switch,
                    ghost x: map<Hash, Ext>, ghost p: seq<Block>, ghost v: nat, ghost n: nat)
      returns (ok: bool, leaves': seq<Hash>)
      requires Reached(txn, leaves, x, p, v, n) && n < |p| && b == p[n] && ext.total == x[b.hash].total
      modifies txn
      ensures ok <==> switch.disableAll || Checked(rules, p[..n], p[n], switch)
      ensures ok ==> Reached(txn, leaves', x, p, v, n + 1)
    {
      hide Replay, ChainState.Attach, HashesOf, Resolves;
      OneMoreBlock(p, n);
      ok, leaves' := switch.disableAll || Accepts(txn, leaves, b, switch), leaves;
      if ok {
        txn.Attach(b);
        leaves' := leaves + [b.hash];
        txn.exts := txn.exts[b.hash := Ext(ext.total, Some(true))];
      } else {
        txn.exts := txn.exts[b.hash := Ext(ext.total, Some(false))];
      }
    }

    /** Verify the remaining blocks, each on top of those before it. After a failure the rest
        are only put on record as having failed. */
    method CheckDirty(fork: ForkChanges, txn: StoreTransaction, verified: seq<Hash>, switch: Switch,
                      ghost x: map<Hash, Ext>, ghost h: Hash, ghost p: seq<Block>, ghost v: nat)
      returns (ok: bool, leaves: seq<Hash>)
      requires p == PathTo(blocks, h) && v == VerifiedLen(x, p) && LeadsTo(fork, x, h)
               && Reached(txn, verified, x, p, v, v)
      modifies txn
      ensures ok <==> switch.disableAll || AllChecked(rules, p, v, switch)
      ensures ok ==> Reached(txn, leaves, x, p, v, |p|)
    {
      hide Path, PathTo, Reached, Checked, VerifiedLen, CommonLen;
      var verifiedLen := |fork.attached| - |fork.dirty|;
      ok, leaves := true, verified;
      for i := 0 to |fork.dirty|
        invariant ok ==> Reached(txn, leaves, x, p, v, v + i)
        invariant ok ==> switch.disableAll || forall j :: v <= j < v + i ==> Checked(rules, p[..j], p[j], switch)
        invariant !ok ==> !switch.disableAll && exists j :: v <= j < v + i && !Checked(rules, p[..j], p[j], switch)
      {
        var ext, b := fork.dirty[i], fork.attached[verifiedLen + i];
        assert b == p[v + i];
        if ok {
          ok, leaves := CheckOne(txn, leaves, b, ext, switch, x, p, v, v + i);
        } else {
          txn.exts := txn.exts[b.hash := Ext(ext.total, Some(false))];
        }
      }
    }

    /** Resolution of inputs and contextual verification in the state of the transaction. */
    predicate Accepts(txn: StoreTransaction, leaves: seq<Hash>, b: Block, switch: Switch)
      reads txn
    {
      var v := View(txn.index, txn.numbers, txn.txs, txn.cells);
      Resolves(v, b) && rules.valid(v, leaves, b, switch)
    }

    lemma OneMoreBlock(p: seq<Block>, i: nat)
      requires i < |p|
      ensures Replay(p[..i + 1]) == ChainState.Attach(Replay(p[..i]), p[i])
      ensures HashesOf(p[..i + 1]) == HashesOf(p[..i]) + [p[i].hash]
    {
      assert p[..i + 1][..i] == p[..i];
    }

    // ----- The proposal table -----

    /** The table has the proposals of blocks of `p` with numbers from `lo` to `hi - 1`, those
        from `from` on without exception. */
    ghost predicate Covers(p: seq<Block>, lo: int, from: int, hi: int)
      reads `table
    {
      && lo >= 1 && hi <= |p|
      && (forall n :: n in table ==> lo <= n < hi && table[n] == p[n].proposals)
      && (forall n :: lo <= n && from <= n < hi ==> n in table)
    }

    method RemoveDetached(fork: ForkChanges, ghost m: seq<Block>, ghost k: nat)
      requires Chained(genesis, m) && 0 < k <= |m| && fork.detached == m[k..] && table == Window(rules.farthest, m)
      modifies `table
      ensures Covers(m, 1, WindowStart(rules.farthest, |m|), k)
    {
      for i := 0 to |fork.detached|
        invariant forall n :: n in table <==> WindowStart(rules.farthest, |m|) <= n < |m| && !(k <= n < k + i)
        invariant forall n :: n in table ==> table[n] == m[n].proposals
      {
        table := table - {fork.detached[i].number};
      }
    }

    method InsertAttached(fork: ForkChanges, ghost m: seq<Block>, ghost p: seq<Block>, ghost k: nat)
      requires Chained(genesis, m) && Chained(genesis, p) && 0 < k <= |m| && k <= |p| && m[..k] == p[..k]
               && fork.attached == p[k..]
      requires Covers(m, 1, WindowStart(rules.farthest, |m|), k)
      modifies `table
      ensures Covers(p, 1, WindowStart(rules.farthest, |m|), |p|)
      ensures forall n :: k <= n < |p| ==> n in table
    {
      assert forall n :: 0 <= n < k ==> m[n] == m[..k][n] && p[n] == p[..k][n];
      for i := 0 to |fork.attached|
        invariant Covers(p, 1, WindowStart(rules.farthest, |m|), k + i)
        invariant forall n :: k <= n < k + i ==> n in table
      {
        table := table[fork.attached[i].number := fork.attached[i].proposals];
      }
    }

    /** After a rollback the window may reach further back than it did. */
    method ReloadProposalTable(fork: ForkChanges, ghost m: seq<Block>, ghost p: seq<Block>, ghost k: nat)
      requires Chained(genesis, m) && Chained(genesis, p) && 0 < k <= |m| && k <= |p|
      requires fork.attached == p[k..] && fork.detached == m[k..]
      requires Covers(p, 1, WindowStart(rules.farthest, |m|), |p|) && forall n :: k <= n < |p| ==> n in table
      requires forall n :: 0 <= n < |p| ==> n in index && index[n] in blocks && blocks[index[n]] == p[n]
      modifies `table
      ensures Covers(p, 1, WindowStart(rules.farthest, |p|), |p|)
    {
      if fork.detached == [] {
        return;
      }
      var front := fork.detached[0].number;
      if front < 2 {
        return;
      }
      var common := front - 1;
      var newTip := if fork.attached == [] then common else fork.attached[|fork.attached| - 1].number;
      var start := if newTip + 1 - rules.farthest > 1 then newTip + 1 - rules.farthest else 1;
      var bn := start;
      while bn <= common
        invariant start <= bn && Covers(p, 1, WindowStart(rules.farthest, |m|), |p|)
        invariant forall n :: start <= n < bn || k <= n < |p| ==> n in table
        invariant bn <= common + 1 || start > common
      {
        table := table[bn := blocks[index[bn]].proposals];
        bn := bn + 1;
      }
    }

    /** Drop what has left the window, and give out the proposals in it. */
    method Finalize(number: int, ghost p: seq<Block>)
      requires number == |p| - 1 && Covers(p, 1, WindowStart(rules.farthest, |p|), |p|)
               && rules.closest <= rules.farthest
      modifies `table, `proposed, `gap
      ensures table == Window(rules.farthest, p)
      ensures Announced(p)
    {
      var candidate := number + 1;
      var start := if candidate > rules.farthest then candidate - rules.farthest else 0;
      var end := if candidate > rules.closest then candidate - rules.closest else 0;
      if start > 1 {
        table := map n | n in table && start <= n :: table[n];
      }
      assert table == Window(rules.farthest, p);
      if candidate <= rules.closest {
        proposed := {};
        gap := Between(1, number);
        BetweenIs(p, 1, number, 1);
      } else {
        proposed := Between(start, end);
        gap := Between(end + 1, number);
        BetweenIs(p, start, end, |p| - rules.farthest);
        BetweenIs(p, end + 1, number, end + 1);
      }
    }

    lemma BetweenIs(p: seq<Block>, lo: int, hi: int, lo': int)
      requires table == Window(rules.farthest, p)
      requires forall n :: 1 <= n < |p| && n <= hi ==> (lo' <= n <==> lo <= n && n in table)
      ensures Between(lo, hi) == Proposals(p, lo', hi)
    {
      forall id | id in Proposals(p, lo', hi)
        ensures id in Between(lo, hi)
      {
        var n :| 1 <= n < |p| && lo' <= n <= hi && id in p[n].proposals;
        assert n in table && table[n] == p[n].proposals;
      }
    }

    /** The proposals in the table from number `lo` to `hi`. */
    function Between(lo: int, hi: int): set<int>
      reads `table
    {
      set n, id | n in table && lo <= n <= hi && id in table[n] :: id
    }

    // ----- Verifying a block -----

    /** The proposals given out are those a block on top of `p` may commit, and those it may not
        commit yet. */
    ghost predicate Announced(p: seq<Block>)
      reads `proposed, `gap
    {
      && proposed == Proposals(p, |p| - rules.farthest, |p| - rules.closest)
      && gap == Proposals(p, if |p| <= rules.closest then 1 else |p| - rules.closest + 1, |p| - 1)
    }

    ghost predicate Ready()
      reads this
    {
      && ChainInv(rules, Abs()) && tipTotal == exts[tip].total && rules.closest <= rules.farthest
      && Announced(PathTo(blocks, tip))
    }

    /** `b` with ext `ext` can be looked at as a new tip. */
    lemma MakesCandidate(b: Block, total: int)
      requires ChainInv(rules, Abs()) && Submitted(Abs(), b) && b.parent in exts
               && total == exts[b.parent].total + b.difficulty
      requires b.hash in exts ==> exts[b.hash].verified.None?
      ensures Candidate(exts[b.hash := Ext(total, None)], b.hash)
      ensures PathTo(blocks, b.hash) == PathTo(blocks, b.parent) + [b]
      ensures VerifiedLen(exts, PathTo(blocks, b.hash))
              == VerifiedLen(exts[b.hash := Ext(total, None)], PathTo(blocks, b.hash))
    {
      hide TreeOk, ExtsOk, BlocksOk, Replay, Path, PathTo, LeavesOk, VerifiedLen, Window;
      var x := exts[b.hash := Ext(total, None)];
      NewExt(rules, Abs(), b);
      assert TreeOk(genesis, blocks, x) && ExtsOk(rules, genesis, blocks, x);
      assert forall g :: IsVerified(exts, g) <==> IsVerified(x, g);
      SameVerifiedLen(exts, x, PathTo(blocks, b.hash));
    }

    /** Build the main chain to block `b` in a transaction: roll back, attach what was verified
        before, verify the rest. The store itself is not touched. */
    method TryReorganise(fork: ForkChanges, b: Block, ext: Ext, switch: Switch, ghost x: map<Hash, Ext>)
      returns (ok: bool, txn: StoreTransaction, leaves: seq<Hash>)
      requires x == exts[b.hash := ext] && Candidate(x, b.hash) && ext.verified.None? && Stored(blocks, b)
      requires fork.attached == [] && fork.detached == [] && fork.dirty == []
      modifies fork
      ensures fresh(txn) && LeadsTo(fork, x, b.hash)
      ensures ok <==> switch.disableAll
                      || AllChecked(rules, PathTo(blocks, b.hash), VerifiedLen(x, PathTo(blocks, b.hash)), switch)
      ensures ok ==>
                Reached(txn, leaves, x, PathTo(blocks, b.hash), VerifiedLen(x, PathTo(blocks, b.hash)),
                        |PathTo(blocks, b.hash)|)
    {
      hide Path, PathTo, Candidate, Replay, AllChecked, VerifiedLen, CommonLen, LeadsTo, ExtsFrom, Settled;
      ghost var h, p := b.hash, PathTo(blocks, b.hash);
      ghost var v := VerifiedLen(x, p);
      NewTipPath(x, h);
      FindFork(fork, blocks[tip].number, b, ext, x);
      txn := new StoreTransaction(blocks, View(index, numbers, txs, cells), exts);
      CandidateView(x, h);
      LeadsFrom(fork, x, h);
      Rollback(fork, txn, x, PathTo(blocks, tip), CommonLen(PathTo(blocks, tip), p));
      var verified := AttachVerified(fork, txn, x, h);
      ok, leaves := CheckDirty(fork, txn, verified, switch, x, h, p, v);
    }

    lemma CandidateView(x: map<Hash, Ext>, h: Hash)
      requires Candidate(x, h)
      ensures V() == Replay(PathTo(blocks, tip)) && Settled(x)
    {
    }

    lemma LeadsFrom(fork: ForkChanges, x: map<Hash, Ext>, h: Hash)
      requires LeadsTo(fork, x, h)
      ensures 0 < CommonLen(PathTo(blocks, tip), PathTo(blocks, h)) <= |PathTo(blocks, tip)|
      ensures CommonLen(PathTo(blocks, tip), PathTo(blocks, h)) <= |PathTo(blocks, h)|
      ensures fork.detached == PathTo(blocks, tip)[CommonLen(PathTo(blocks, tip), PathTo(blocks, h))..]
      ensures PathTo(blocks, tip)[..CommonLen(PathTo(blocks, tip), PathTo(blocks, h))]
              == PathTo(blocks, h)[..CommonLen(PathTo(blocks, tip), PathTo(blocks, h))]
    {
      hide Path, PathTo, VerifiedLen, ExtsFrom;
    }

    /** Write what the transaction holds to the store. */
    method Commit(txn: StoreTransaction, leaves: seq<Hash>, ext: Ext, fork: ForkChanges, ghost x: map<Hash, Ext>,
                  ghost h: Hash)
      requires Candidate(x, h) && x == exts[h := ext] && LeadsTo(fork, x, h)
      requires Reached(txn, leaves, x, PathTo(blocks, h), VerifiedLen(x, PathTo(blocks, h)), |PathTo(blocks, h)|)
      modifies `exts, `index, `numbers, `txs, `cells, `mmr
      ensures V() == Replay(PathTo(blocks, h)) && exts == Confirm(x, PathTo(blocks, h))
      ensures mmr == old(mmr) + Leaves(PathTo(blocks, h))
    {
      hide Path, PathTo, Candidate, Replay, Confirm, Leaves, VerifiedLen, CommonLen, HashesOf, ConfirmTo, ExtsFrom;
      ghost var p := PathTo(blocks, h);
      assert p[..|p|] == p;
      Confirmed(x, h, ext);
      AttachedNumber(x, h, CommonLen(PathTo(blocks, tip), p));
      CommitLeaves(leaves, fork.attached[0].number, x, h);
      exts := txn.exts;
      index, numbers, txs, cells := txn.index, txn.numbers, txn.txs, txn.cells;
    }

    lemma Confirmed(x: map<Hash, Ext>, h: Hash, ext: Ext)
      requires Candidate(x, h) && x == exts[h := ext]
      ensures VerifiedLen(x, PathTo(blocks, h)) < |PathTo(blocks, h)|
      ensures forall j :: 0 <= j < |PathTo(blocks, h)| ==> PathTo(blocks, h)[j].hash in x
      ensures ConfirmTo(exts, x, PathTo(blocks, h), VerifiedLen(x, PathTo(blocks, h)), |PathTo(blocks, h)|)
              == Confirm(x, PathTo(blocks, h))
    {
      hide Path, PathTo, Candidate, Replay, VerifiedLen;
      NewTipPath(x, h);
      var p := PathTo(blocks, h);
      assert p[|p| - 1].hash == h by { LastIs(x, h); }
      ConfirmToIs(exts, x, p, VerifiedLen(x, p), h, ext);
    }

    lemma LastIs(x: map<Hash, Ext>, h: Hash)
      requires Candidate(x, h)
      ensures h in blocks && |PathTo(blocks, h)| > 0 && PathTo(blocks, h)[|PathTo(blocks, h)| - 1].hash == h
    {
      assert Placed(genesis, blocks, x, h);
      PathIsChained(genesis, blocks, x, h);
    }

    /** Write the new leaves of the MMR; those before number `n` are there already. */
    method CommitLeaves(leaves: seq<Hash>, n: int, ghost x: map<Hash, Ext>, ghost h: Hash)
      requires Candidate(x, h) && leaves == HashesOf(PathTo(blocks, h)) && |PathTo(blocks, h)| > 0
      requires n == CommonLen(PathTo(blocks, tip), PathTo(blocks, h))
      modifies `mmr
      ensures mmr == old(mmr) + Leaves(PathTo(blocks, h))
    {
      hide Path, PathTo, Replay, ExtsOk, BlocksOk, TreeOk;
      ghost var m, p := PathTo(blocks, tip), PathTo(blocks, h);
      assert forall i :: 0 <= i < n ==> p[i] == p[..n][i] && m[i] == m[..n][i];
      for i := n to |leaves|
        invariant forall k :: k in mmr <==> k in old(mmr) || n <= k < i
        invariant forall k :: k in mmr ==> mmr[k] == if n <= k < i then p[k].hash else old(mmr)[k]
      {
        mmr := mmr[i := leaves[i]];
      }
    }

    /** The proposal table follows the main chain from `m` to `p`. */
    method UpdateProposalTable(fork: ForkChanges, number: int, ghost m: seq<Block>, ghost p: seq<Block>)
      requires Chained(genesis, m) && Chained(genesis, p) && number == |p| - 1 && rules.closest <= rules.farthest
      requires 0 < CommonLen(m, p) && fork.attached == p[CommonLen(m, p)..] && fork.detached == m[CommonLen(m, p)..]
      requires table == Window(rules.farthest, m)
      requires forall n :: 0 <= n < |p| ==> n in index && index[n] in blocks && blocks[index[n]] == p[n]
      modifies `table, `proposed, `gap
      ensures table == Window(rules.farthest, p)
      ensures proposed == Proposals(p, |p| - rules.farthest, |p| - rules.closest)
      ensures gap == Proposals(p, if |p| <= rules.closest then 1 else |p| - rules.closest + 1, |p| - 1)
    {
      hide Chained, Window, Covers, Proposals;
      ghost var k := CommonLen(m, p);
      RemoveDetached(fork, m, k);
      InsertAttached(fork, m, p, k);
      ReloadProposalTable(fork, m, p, k);
      Finalize(number, p);
    }

    lemma NewMain(x: map<Hash, Ext>, h: Hash)
      requires TreeOk(genesis, blocks, x) && h in x && V() == Replay(PathTo(blocks, h))
      ensures Chained(genesis, PathTo(blocks, h))
      ensures forall n :: 0 <= n < |PathTo(blocks, h)| ==>
                n in index && index[n] in blocks && blocks[index[n]] == PathTo(blocks, h)[n]
    {
      hide Path, Replay;
      PathIsChained(genesis, blocks, x, h);
      forall n | 0 <= n < |PathTo(blocks, h)|
        ensures n in index && index[n] in blocks && blocks[index[n]] == PathTo(blocks, h)[n]
      {
        PathBeginnings(genesis, blocks, x, h, n);
        ReplayIndex(genesis, PathTo(blocks, h), n);
      }
    }

    /** Make the chain held by the transaction the main chain. */
    method Adopt(txn: StoreTransaction, leaves: seq<Hash>, b: Block, ext: Ext, fork: ForkChanges,
                 ghost x: map<Hash, Ext>)
      requires Candidate(x, b.hash) && x == exts[b.hash := ext] && LeadsTo(fork, x, b.hash) && Stored(blocks, b)
      requires Reached(txn, leaves, x, PathTo(blocks, b.hash), VerifiedLen(x, PathTo(blocks, b.hash)),
                       |PathTo(blocks, b.hash)|)
      requires table == Window(rules.farthest, PathTo(blocks, tip)) && rules.closest <= rules.farthest
      modifies `exts, `index, `numbers, `txs, `cells, `mmr, `tip, `tipTotal, `table, `proposed, `gap
      ensures V() == Replay(PathTo(blocks, b.hash)) && exts == Confirm(x, PathTo(blocks, b.hash))
      ensures mmr == old(mmr) + Leaves(PathTo(blocks, b.hash)) && tip == b.hash && tipTotal == ext.total
      ensures table == Window(rules.farthest, PathTo(blocks, b.hash))
      ensures Announced(PathTo(blocks, b.hash))
    {
      hide Path, PathTo, Candidate, Replay, Leaves, VerifiedLen, CommonLen, Window, Confirm, Proposals, Reached,
           Chained, TreeOk;
      ghost var m, p := PathTo(blocks, tip), PathTo(blocks, b.hash);
      CandidateChains(x, b.hash);
      Commit(txn, leaves, ext, fork, x, b.hash);
      NewMain(x, b.hash);
      tip := b.hash;
      tipTotal := ext.total;
      UpdateProposalTable(fork, b.number, m, p);
    }

    /** A new best block: the main chain moves to it if it and the unverified blocks before it
        pass. */
    method NewBest(b: Block, ext: Ext, switch: Switch) returns (ok: bool)
      requires Ready() && Submitted(Abs(), b) && b.parent in exts
               && ext == Ext(exts[b.parent].total + b.difficulty, None)
      requires (b.hash in exts ==> exts[b.hash].verified.None?) && ext.total > tipTotal && !Refused(Abs(), b)
      modifies this
      ensures Verify(rules, old(Abs()), b, switch) == Verdict(Abs(), if ok then NewBlock else Rejected)
      ensures ok ==> tip in exts && tipTotal == exts[tip].total && Announced(PathTo(blocks, b.hash))
      ensures !ok ==> unchanged(this)
    {
      hide BlocksOk, TreeOk, ExtsOk, Path, PathTo, Candidate, Replay, AllChecked, Leaves, VerifiedLen, CommonLen,
           Window,
           Announced, LeavesOk, LeadsTo, Reached, Verify, Confirm;
      ghost var st, x, p := Abs(), exts[b.hash := ext], PathTo(blocks, b.hash);
      MakesCandidate(b, ext.total);
      BestVerdict(rules, st, b, switch, ext, p);
      NewTipPath(x, b.hash);
      TipConfirmed(x, p, b);
      TipTotal(x, p, b);
      var fork := new ForkChanges();
      var txn, leaves;
      ok, txn, leaves := TryReorganise(fork, b, ext, switch, x);
      if ok {
        Adopt(txn, leaves, b, ext, fork, x);
      }
    }

    lemma CandidateChains(x: map<Hash, Ext>, h: Hash)
      requires Candidate(x, h)
      ensures TreeOk(genesis, blocks, x) && Chained(genesis, PathTo(blocks, tip))
      ensures h in blocks && |PathTo(blocks, h)| == blocks[h].number + 1
    {
      PathIsChained(genesis, blocks, x, tip);
      PathIsChained(genesis, blocks, x, h);
    }

    method VerifyBlock(b: Block, switch: Switch) returns (outcome: Outcome)
      requires Ready() && Submitted(Abs(), b)
      modifies this
      ensures Verify(rules, old(Abs()), b, switch) == Verdict(Abs(), outcome)
      ensures tip in exts && tipTotal == exts[tip].total && Announced(PathTo(blocks, tip))
    {
      hide BlocksOk, TreeOk, ExtsOk, Path, PathTo, Replay, AllChecked, Leaves, VerifiedLen, Window, LeavesOk, Confirm,
           Announced;
      if b.parent in invalid {
        return Rejected;
      }
      if b.parent !in exts {
        return Rejected;
      }
      var parentExt := exts[b.parent];
      if b.hash in exts && exts[b.hash].verified.Some? {
        return if exts[b.hash].verified.value then Known else Rejected;
      }
      if parentExt.verified == Some(false) {
        return Rejected;
      }
      var ext := Ext(parentExt.total + b.difficulty, None);
      if ext.total > tipTotal {
        var ok := NewBest(b, ext, switch);
        outcome := if ok then NewBlock else Rejected;
      } else {
        exts := exts[b.hash := ext];
        outcome := NewBlock;
      }
    }

    /** Verify a block; delete and mark it when it is rejected, unmark it when it is not. */
    method ConsumeUnverifiedBlock(b: Block, switch: Switch) returns (outcome: Outcome)
      requires Ready() && StoreInv(rules, Abs()) && Submitted(Abs(), b) && !switch.disableAll
      modifies this
      ensures Abs() == Consume(rules, old(Abs()), b, switch)
      ensures Ready() && StoreInv(rules, Abs())
      ensures outcome == Verify(rules, old(Abs()), b, switch).outcome
    {
      hide BlocksOk, ChainInv, Heaviest, Verify, Submitted, Announced, PathTo;
      ConsumeKeeps(rules, Abs(), b, switch);
      RejectedIsUnchanged(rules, Abs(), b, switch);
      ghost var st := Abs();
      outcome := VerifyBlock(b, switch);
      if outcome == Rejected {
        RejectedPath(rules, st, b, switch);
        blocks := blocks - {b.hash};
        invalid := invalid + {b.hash};
      } else {
        invalid := invalid - {b.hash};
      }
    }

    // ----- Cutting the chain back -----

    method Truncate(target: Hash)
      requires Ready() && OnPath(PathTo(blocks, tip), target)
      modifies this
      ensures Abs() == CutBack(rules, old(Abs()), target) && Ready()
    {
      hide PathTo, Replay, Window, Proposals, Chained, OnPath, ChainInv, Settled, TreeOk;
      ghost var st, m := Abs(), PathTo(blocks, tip);
      CutFacts(target);
      CutBackKeeps(rules, st, target);
      var fork := new ForkChanges();
      DetachAbove(fork, blocks[target].number, blocks[tip].number, m);
      MoveBack(fork, target, m);
    }

    method MoveBack(fork: ForkChanges, target: Hash, ghost m: seq<Block>)
      requires TreeOk(genesis, blocks, exts) && target in exts && target in blocks && Chained(genesis, m)
      requires 0 <= blocks[target].number < |m| && PathTo(blocks, target) == m[..blocks[target].number + 1]
      requires V() == Replay(PathTo(blocks, target)) && table == Window(rules.farthest, m)
      requires fork.attached == [] && fork.detached == m[blocks[target].number + 1..]
      requires rules.closest <= rules.farthest
      modifies `tip, `tipTotal, `table, `proposed, `gap
      ensures tip == target && tipTotal == exts[target].total
      ensures table == Window(rules.farthest, PathTo(blocks, target)) && Announced(PathTo(blocks, target))
    {
      hide PathTo, Replay, Window, Proposals, Chained, CommonLen, TreeOk;
      ghost var p := PathTo(blocks, target);
      CutIsCommon(m, p, blocks[target].number);
      NewMain(exts, target);
      tip := target;
      tipTotal := exts[target].total;
      UpdateProposalTable(fork, blocks[target].number, m, p);
    }

    lemma CutFacts(target: Hash)
      requires ChainInv(rules, Abs()) && OnPath(PathTo(blocks, tip), target)
      ensures Settled(exts) && tip in blocks && target in exts && target in blocks && 0 <= blocks[target].number
      ensures |PathTo(blocks, tip)| == blocks[tip].number + 1
      ensures Chained(genesis, PathTo(blocks, tip)) && Chained(genesis, PathTo(blocks, target))
      ensures blocks[target].number < |PathTo(blocks, tip)| && |PathTo(blocks, target)| == blocks[target].number + 1
      ensures PathTo(blocks, target) == PathTo(blocks, tip)[..blocks[target].number + 1]
      ensures V() == Replay(PathTo(blocks, tip)) && table == Window(rules.farthest, PathTo(blocks, tip))
      ensures TreeOk(genesis, blocks, exts)
    {
      hide TreeOk, PathTo, Replay, Window, Settled, OnPath, Chained, ChainInv, Placed;
      Unpack();
      BeginningsOnPath(genesis, blocks, exts, tip, target);
      PathIsChained(genesis, blocks, exts, tip);
      PathIsChained(genesis, blocks, exts, target);
    }

    lemma Unpack()
      requires ChainInv(rules, Abs())
      ensures Settled(exts) && TreeOk(genesis, blocks, exts) && tip in exts && tip in blocks
      ensures V() == Replay(PathTo(blocks, tip)) && table == Window(rules.farthest, PathTo(blocks, tip))
    {
      hide BlocksOk, ExtsOk, Path, PathTo, Replay, Window, LeavesOk;
      assert Placed(genesis, blocks, exts, tip);
    }

    lemma CutIsCommon(m: seq<Block>, p: seq<Block>, n: nat)
      requires n < |m| && p == m[..n + 1]
      ensures CommonLen(m, p) == |p| == n + 1 && m[..|p|] == p && p[|p|..] == []
    {
      assert p[..|p|] == p;
      CommonLenIs(m, p, |p|);
    }

    /** Take the blocks above number `n` off the main chain. */
    method DetachAbove(fork: ForkChanges, n: int, tipNumber: int, ghost m: seq<Block>)
      requires ChainInv(rules, Abs()) && tip in blocks && m == PathTo(blocks, tip)
               && tipNumber == |m| - 1 == blocks[tip].number
      requires 0 <= n < |m| && fork.detached == [] && Settled(exts) && V() == Replay(m)
      modifies fork`detached, `index, `numbers, `txs, `cells
      ensures V() == Replay(m[..n + 1]) && fork.detached == m[n + 1..]
    {
      hide PathTo, Replay, Settled, ChainInv;
      CollectAbove(fork, n, tipNumber);
      var txn := new StoreTransaction(blocks, View(index, numbers, txs, cells), exts);
      Rollback(fork, txn, exts, m, n + 1);
      index, numbers, txs, cells := txn.index, txn.numbers, txn.txs, txn.cells;
    }

    /** The blocks of the main chain above number `n` are to be detached. */
    method CollectAbove(fork: ForkChanges, n: int, tipNumber: int)
      requires ChainInv(rules, Abs()) && tip in blocks && tipNumber == blocks[tip].number && 0 <= n <= tipNumber
      requires fork.detached == []
      modifies fork`detached
      ensures n < |PathTo(blocks, tip)| && fork.detached == PathTo(blocks, tip)[n + 1..]
    {
      hide BlocksOk, Path, PathTo, Replay, Window, LeavesOk, ExtsOk, Chained;
      ghost var m := PathTo(blocks, tip);
      NewMain(exts, tip);
      PathIsChained(genesis, blocks, exts, tip);
      for bn := n + 1 to tipNumber + 1
        invariant fork.detached == m[n + 1..bn]
      {
        fork.detached := fork.detached + [blocks[index[bn]]];
      }
    }
  }
}
