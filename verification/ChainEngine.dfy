/** The engine that verifies blocks and moves the main chain, as a function on values: a new
    best chain is built by replaying it from the first block, and committed when every block
    that had not been verified before passes. */
module ChainEngine {
  import opened Basics
  import opened ChainState
  import opened ChainReplay

  datatype Ext = Ext(total: int, verified: Option<bool>)

  datatype Switch = Switch(disableAll: bool, flags: int)

  /** Contextual verification beyond the resolution of inputs: a judgement of a block on top of
      a chain with given indexes and given leaves of the chain root MMR. */
  datatype Rules = Rules(valid: (View, seq<Hash>, Block, Switch) -> bool, farthest: nat, closest: nat)

  /** `invalid` holds the blocks marked as such; `table` is the proposal table. The leaves of
      the MMR are kept by number and not deleted when the chain gets shorter. */
  datatype Store = Store(
    genesis: Hash,
    blocks: map<Hash, Block>,
    exts: map<Hash, Ext>,
    view: View,
    mmr: map<int, Hash>,
    tip: Hash,
    table: map<int, set<int>>,
    invalid: set<Hash>)

  // ----- Paths -----

  /** The blocks from number 0 to the block with hash `h`, which has number `n`. */
  ghost function Path(blocks: map<Hash, Block>, h: Hash, n: nat): seq<Block>
    decreases n
  {
    if h !in blocks then []
    else if n == 0 then [blocks[h]]
    else Path(blocks, blocks[h].parent, n - 1) + [blocks[h]]
  }

  ghost function PathTo(blocks: map<Hash, Block>, h: Hash): seq<Block> {
    if h in blocks && blocks[h].number >= 0 then Path(blocks, h, blocks[h].number) else []
  }

  predicate Placed(genesis: Hash, blocks: map<Hash, Block>, exts: map<Hash, Ext>, h: Hash) {
    && h in blocks
    && blocks[h].hash == h
    && if h == genesis then blocks[h].number == 0
       else blocks[h].number > 0 && blocks[h].parent in exts && blocks[h].parent in blocks
            && blocks[blocks[h].parent].number == blocks[h].number - 1
  }

  /** The blocks with an ext form a tree. */
  ghost predicate TreeOk(genesis: Hash, blocks: map<Hash, Block>, exts: map<Hash, Ext>) {
    genesis in exts && forall h :: h in exts ==> Placed(genesis, blocks, exts, h)
  }

  /** `p` is a chain from the first block on. */
  ghost predicate Chained(genesis: Hash, p: seq<Block>) {
    && p != [] && p[0].hash == genesis
    && (forall i :: 0 <= i < |p| ==> p[i].number == i)
    && (forall i :: 0 < i < |p| ==> p[i].parent == p[i - 1].hash)
  }

  lemma {:induction false} PathIsChained(genesis: Hash, blocks: map<Hash, Block>, exts: map<Hash, Ext>, h: Hash)
    requires TreeOk(genesis, blocks, exts) && h in exts
    ensures Chained(genesis, PathTo(blocks, h)) && |PathTo(blocks, h)| == blocks[h].number + 1
    ensures PathTo(blocks, h)[blocks[h].number] == blocks[h]
    ensures h != genesis ==> PathTo(blocks, h) == PathTo(blocks, blocks[h].parent) + [blocks[h]]
    decreases blocks[h].number
  {
    assert Placed(genesis, blocks, exts, h);
    if h != genesis {
      PathIsChained(genesis, blocks, exts, blocks[h].parent);
    }
  }

  /** A path passes through blocks with an ext, and each of its beginnings is a path. */
  lemma {:induction false} PathBeginnings(genesis: Hash, blocks: map<Hash, Block>, exts: map<Hash, Ext>, h: Hash,
                                          i: nat)
    requires TreeOk(genesis, blocks, exts) && h in exts && i < |PathTo(blocks, h)|
    ensures var b := PathTo(blocks, h)[i]; b.hash in exts && blocks[b.hash] == b
                                           && PathTo(blocks, b.hash) == PathTo(blocks, h)[..i + 1]
    decreases blocks[h].number
  {
    assert Placed(genesis, blocks, exts, h);
    PathIsChained(genesis, blocks, exts, h);
    var p := PathTo(blocks, h);
    if i == |p| - 1 {
      assert p[..i + 1] == p;
    } else {
      var q := PathTo(blocks, blocks[h].parent);
      PathBeginnings(genesis, blocks, exts, blocks[h].parent, i);
      assert p[..i + 1] == q[..i + 1];
    }
  }

  // ----- Replaying -----

  /** The indexes built by attaching the blocks of `p` one after the other. */
  function Replay(p: seq<Block>): View {
    if p == [] then EMPTY_VIEW else Attach(Replay(p[..|p| - 1]), p[|p| - 1])
  }

  function HashesOf(p: seq<Block>): (r: seq<Hash>)
    ensures |r| == |p| && forall i :: 0 <= i < |p| ==> r[i] == p[i].hash
  {
    seq(|p|, i requires 0 <= i < |p| => p[i].hash)
  }

  /** `b` passes verification on top of the chain `p`. */
  predicate Checked(rules: Rules, p: seq<Block>, b: Block, switch: Switch) {
    Resolves(Replay(p), b) && rules.valid(Replay(p), HashesOf(p), b, switch)
  }

  ghost predicate Passed(rules: Rules, p: seq<Block>, b: Block) {
    exists switch: Switch :: !switch.disableAll && Checked(rules, p, b, switch)
  }

  // ----- The invariant -----

  /** Blocks are stored by their hash; all but the first are well formed; hashes do not collide. */
  ghost predicate BlocksOk(genesis: Hash, blocks: map<Hash, Block>) {
    && genesis in blocks && GenesisFormed(blocks[genesis])
    && (forall h :: h in blocks ==> blocks[h].hash == h && NoCollision(blocks, blocks[h]))
    && (forall h :: h in blocks && h != genesis ==> WellFormed(blocks[h]))
  }

  /** Total difficulties add up. A verified block passed verification against its own ancestors,
      and so did they; none is on record as having failed. */
  ghost predicate ExtOk(rules: Rules, genesis: Hash, blocks: map<Hash, Block>, exts: map<Hash, Ext>, h: Hash)
    requires h in exts && Placed(genesis, blocks, exts, h)
  {
    if h == genesis then exts[h] == Ext(blocks[h].difficulty, Some(true))
    else
      var parent := blocks[h].parent;
      && exts[h].total == exts[parent].total + blocks[h].difficulty
      && (exts[h].verified.Some? ==>
           && exts[h].verified.value
           && exts[parent].verified == Some(true)
           && Passed(rules, PathTo(blocks, parent), blocks[h]))
  }

  ghost predicate ExtsOk(rules: Rules, genesis: Hash, blocks: map<Hash, Block>, exts: map<Hash, Ext>) {
    forall h :: h in exts ==> Placed(genesis, blocks, exts, h) && ExtOk(rules, genesis, blocks, exts, h)
  }

  /** No block with an ext is heavier than the tip. */
  ghost predicate Heaviest(st: Store) {
    st.tip in st.exts && forall h :: h in st.exts ==> st.exts[h].total <= st.exts[st.tip].total
  }

  /** The leaves of `p` are in place. */
  ghost predicate LeavesOk(mmr: map<int, Hash>, p: seq<Block>) {
    forall i :: 0 <= i < |p| ==> i in mmr && mmr[i] == p[i].hash
  }

  /** First block of the proposal window when the chain has blocks up to number `n - 1`. */
  function WindowStart(farthest: nat, n: int): int {
    if n - farthest > 1 then n - farthest else 1
  }

  /** The proposals of the blocks of `p` that are in the window. */
  ghost function Window(farthest: nat, p: seq<Block>): map<int, set<int>> {
    map n | WindowStart(farthest, |p|) <= n < |p| :: p[n].proposals
  }

  /** The indexes, the leaves and the proposal table are those of the chain to the tip. */
  ghost predicate TipOk(rules: Rules, st: Store) {
    && st.tip in st.exts && st.exts[st.tip].verified == Some(true)
    && st.view == Replay(PathTo(st.blocks, st.tip))
    && LeavesOk(st.mmr, PathTo(st.blocks, st.tip))
    && st.table == Window(rules.farthest, PathTo(st.blocks, st.tip))
  }

  ghost predicate ChainInv(rules: Rules, st: Store) {
    && BlocksOk(st.genesis, st.blocks)
    && TreeOk(st.genesis, st.blocks, st.exts)
    && ExtsOk(rules, st.genesis, st.blocks, st.exts)
    && TipOk(rules, st)
  }

  // ----- Verified chains -----

  /** The blocks of the path to a verified block are verified. */
  lemma {:induction false} VerifiedPath(rules: Rules, genesis: Hash, blocks: map<Hash, Block>, exts: map<Hash, Ext>,
                                        h: Hash, i: nat)
    requires TreeOk(genesis, blocks, exts) && ExtsOk(rules, genesis, blocks, exts) && h in exts
    requires exts[h].verified == Some(true) && i < |PathTo(blocks, h)|
    ensures PathTo(blocks, h)[i].hash in exts && exts[PathTo(blocks, h)[i].hash].verified == Some(true)
    decreases blocks[h].number
  {
    assert Placed(genesis, blocks, exts, h);
    PathIsChained(genesis, blocks, exts, h);
    assert ExtOk(rules, genesis, blocks, exts, h);
    if i < |PathTo(blocks, h)| - 1 {
      VerifiedPath(rules, genesis, blocks, exts, blocks[h].parent, i);
    }
  }

  /** The indexes of a verified chain are in order, and its last block could be attached. */
  lemma {:induction false} VerifiedReplay(rules: Rules, genesis: Hash, blocks: map<Hash, Block>, exts: map<Hash, Ext>,
                                          h: Hash)
    requires BlocksOk(genesis, blocks) && TreeOk(genesis, blocks, exts) && ExtsOk(rules, genesis, blocks, exts)
    requires h in exts && exts[h].verified == Some(true)
    ensures ViewOk(blocks, Replay(PathTo(blocks, h)), blocks[h].number + 1)
    ensures h != genesis ==> Attachable(blocks, Replay(PathTo(blocks, blocks[h].parent)), blocks[h])
    decreases blocks[h].number
  {
    hide ViewOk, WellFormed, GenesisFormed, NoCollision, Resolves, Attach, Attachable;
    assert Placed(genesis, blocks, exts, h);
    PathIsChained(genesis, blocks, exts, h);
    assert ExtOk(rules, genesis, blocks, exts, h);
    var b := blocks[h];
    var p := PathTo(blocks, h);
    if h == genesis {
      GenesisAttaches(blocks, b);
      AttachKeeps(blocks, EMPTY_VIEW, b);
      assert p == [b] && p[..0] == [];
      assert Replay(p[..0]) == EMPTY_VIEW;
    } else {
      var q := PathTo(blocks, b.parent);
      VerifiedReplay(rules, genesis, blocks, exts, b.parent);
      assert p[..|p| - 1] == q;
      VerifiedAttaches(blocks, Replay(q), b);
      AttachKeeps(blocks, Replay(q), b);
    }
  }

  // ----- Live cells -----

  /** `op` is an output of the `i`th transaction of the `n`th block of `p`. */
  ghost predicate MadeAt(p: seq<Block>, op: OutPoint, n: int, i: int) {
    0 <= n < |p| && CreatedBy(p[n], |p[n].txs|, op, i)
  }

  /** The `i`th transaction of the `n`th block of `p`, not a cellbase, has `op` as an input. */
  ghost predicate SpentAt(p: seq<Block>, op: OutPoint, n: int, i: int) {
    0 <= n < |p| && SpentBy(p[n], |p[n].txs|, op, i)
  }

  ghost predicate Made(p: seq<Block>, op: OutPoint) {
    exists n, i :: MadeAt(p, op, n, i)
  }

  ghost predicate Used(p: seq<Block>, op: OutPoint) {
    exists n, i :: SpentAt(p, op, n, i)
  }

  /** `op` is live in `v` if and only if it was created in `p` and not spent there, and then it
      is what was created. Transactions of `p` and those they refer to are in the index. */
  ghost predicate CellOf(p: seq<Block>, v: View, op: OutPoint) {
    && (op in v.cells <==> Made(p, op) && !Used(p, op))
    && (op in v.cells ==> forall n, i :: MadeAt(p, op, n, i) ==>
          v.cells[op] == Cell(p[n].txs[i].outputs[op.index], p[n].hash, p[n].number, i))
    && (Made(p, op) || Used(p, op) ==> op.tx in v.txs)
  }

  lemma CellAfter(blocks: map<Hash, Block>, q: seq<Block>, v: View, b: Block, op: OutPoint)
    requires Attachable(blocks, v, b) && CellOf(q, v, op)
    ensures CellOf(q + [b], Attach(v, b), op)
  {
    hide Attachable, SpentBy, Created, Spent, AttachCells, Infos, Made, Used, SpentAt;
    AttachableFacts(blocks, v, b);
    var p, n := q + [b], |b.txs|;
    CellsAfter(v, b, op);
    CreatedAre(b, n, op);
    SpentAre(b, n, op);
    TxsAfter(v, b, op.tx);
    MadeAndUsed(q, b, op);
    CreatedOrSpent(blocks, v, b, op);
    var v' := Attach(v, b);
    forall k, i | op in v'.cells && MadeAt(p, op, k, i)
      ensures v'.cells[op] == Cell(p[k].txs[i].outputs[op.index], p[k].hash, p[k].number, i)
    {
      if MadeAt(q, op, k, i) {
        IsMade(q, op, k, i);
      }
    }
  }

  lemma IsMade(p: seq<Block>, op: OutPoint, n: int, i: int)
    requires MadeAt(p, op, n, i)
    ensures Made(p, op)
  {
  }

  lemma MadeAndUsed(q: seq<Block>, b: Block, op: OutPoint)
    ensures forall k, i :: MadeAt(q + [b], op, k, i) <==> MadeAt(q, op, k, i)
                                                          || (k == |q| && CreatedBy(b, |b.txs|, op, i))
    ensures Made(q + [b], op) <==> Made(q, op) || exists i :: CreatedBy(b, |b.txs|, op, i)
    ensures Used(q + [b], op) <==> Used(q, op) || exists i :: SpentBy(b, |b.txs|, op, i)
  {
    hide CreatedBy, SpentBy;
    var p, n := q + [b], |b.txs|;
    forall k, i
      ensures MadeAt(p, op, k, i) <==> MadeAt(q, op, k, i) || (k == |q| && CreatedBy(b, n, op, i))
      ensures SpentAt(p, op, k, i) <==> SpentAt(q, op, k, i) || (k == |q| && SpentBy(b, n, op, i))
    {
      assert 0 <= k < |q| ==> p[k] == q[k];
    }
    if i :| CreatedBy(b, n, op, i) {
      assert MadeAt(p, op, |q|, i);
    }
    if i :| SpentBy(b, n, op, i) {
      assert SpentAt(p, op, |q|, i);
    }
    hide MadeAt, SpentAt;
  }

  lemma CreatedOrSpent(blocks: map<Hash, Block>, v: View, b: Block, op: OutPoint)
    requires Attachable(blocks, v, b)
    ensures forall i :: CreatedBy(b, |b.txs|, op, i) ==> op.tx in Attach(v, b).txs && op.tx !in v.txs
    ensures forall i :: SpentBy(b, |b.txs|, op, i) ==> op.tx in Attach(v, b).txs
  {
    hide Attach, Resolves;
    forall i | SpentBy(b, |b.txs|, op, i)
      ensures op.tx in Attach(v, b).txs
    {
      NewSpent(blocks, v, b, i, op);
    }
    TxsAfter(v, b, op.tx);
  }

  /** The live cells of a verified chain are exactly the outputs that were created in it and not
      spent. */
  lemma {:induction false} LiveCells(rules: Rules, genesis: Hash, blocks: map<Hash, Block>, exts: map<Hash, Ext>,
                                     h: Hash, op: OutPoint)
    requires BlocksOk(genesis, blocks) && TreeOk(genesis, blocks, exts) && ExtsOk(rules, genesis, blocks, exts)
    requires h in exts && exts[h].verified == Some(true)
    ensures CellOf(PathTo(blocks, h), Replay(PathTo(blocks, h)), op)
    decreases blocks[h].number
  {
    hide WellFormed, GenesisFormed, NoCollision, Resolves, Attach, Attachable, CellOf, Passed;
    assert Placed(genesis, blocks, exts, h);
    PathIsChained(genesis, blocks, exts, h);
    assert ExtOk(rules, genesis, blocks, exts, h);
    VerifiedReplay(rules, genesis, blocks, exts, h);
    var b := blocks[h];
    var p := PathTo(blocks, h);
    var q := p[..|p| - 1];
    assert p == q + [b];
    if h == genesis {
      GenesisAttaches(blocks, b);
      assert q == [];
      NothingMade(op);
    } else {
      assert q == PathTo(blocks, b.parent);
      LiveCells(rules, genesis, blocks, exts, b.parent, op);
    }
    CellAfter(blocks, q, Replay(q), b, op);
  }

  lemma NothingMade(op: OutPoint)
    ensures CellOf([], Replay([]), op)
  {
  }

  // ----- Verifying a block -----

  /** How many blocks at the front of `p` are verified. */
  function VerifiedLen(exts: map<Hash, Ext>, p: seq<Block>): (n: nat)
    ensures n <= |p|
    ensures forall i :: 0 <= i < n ==> p[i].hash in exts && exts[p[i].hash].verified == Some(true)
    ensures n < |p| ==> !(p[n].hash in exts && exts[p[n].hash].verified == Some(true))
  {
    if p == [] then 0
    else
      var n := VerifiedLen(exts, p[..|p| - 1]);
      var last := p[|p| - 1];
      if n == |p| - 1 && last.hash in exts && exts[last.hash].verified == Some(true) then |p| else n
  }

  /** The blocks of `p` from the `v`th on pass verification, each against those before it. */
  ghost predicate AllChecked(rules: Rules, p: seq<Block>, v: int, switch: Switch) {
    forall i :: 0 <= v <= i < |p| ==> Checked(rules, p[..i], p[i], switch)
  }

  ghost predicate OnPath(p: seq<Block>, h: Hash) {
    exists i :: 0 <= i < |p| && p[i].hash == h
  }

  /** `exts` with the blocks of `p` on record as verified. */
  ghost function Confirm(exts: map<Hash, Ext>, p: seq<Block>): map<Hash, Ext> {
    map h | h in exts :: if OnPath(p, h) then Ext(exts[h].total, Some(true)) else exts[h]
  }

  function Leaves(p: seq<Block>): map<int, Hash> {
    map i | 0 <= i < |p| :: p[i].hash
  }

  datatype Outcome = NewBlock | Known | Rejected

  datatype Verdict = Verdict(store: Store, outcome: Outcome)

  /** What verification does before it looks at the chain. */
  predicate Refused(st: Store, b: Block) {
    || b.parent in st.invalid
    || b.parent !in st.exts
    || (b.hash in st.exts && st.exts[b.hash].verified == Some(false))
    || ((b.hash !in st.exts || st.exts[b.hash].verified.None?) && st.exts[b.parent].verified == Some(false))
  }

  ghost function Verify(rules: Rules, st: Store, b: Block, switch: Switch): Verdict {
    if Refused(st, b) then Verdict(st, Rejected)
    else if b.hash in st.exts && st.exts[b.hash].verified.Some? then Verdict(st, Known)
    else
      var total := st.exts[b.parent].total + b.difficulty;
      var exts := st.exts[b.hash := Ext(total, None)];
      if st.tip !in st.exts || total <= st.exts[st.tip].total then Verdict(st.(exts := exts), NewBlock)
      else
        var p := PathTo(st.blocks, b.parent) + [b];
        if !switch.disableAll && !AllChecked(rules, p, VerifiedLen(st.exts, p), switch) then Verdict(st, Rejected)
        else
          Verdict(Store(st.genesis, st.blocks, Confirm(exts, p), Replay(p), st.mmr + Leaves(p), b.hash,
                        Window(rules.farthest, p), st.invalid), NewBlock)
  }

  // ----- Verification keeps the invariant -----

  /** `b` is stored and has the number that follows that of its parent. */
  ghost predicate Submitted(st: Store, b: Block) {
    && Stored(st.blocks, b)
    && b.hash != st.genesis
    && (b.parent in st.blocks ==> b.number == st.blocks[b.parent].number + 1)
  }

  lemma NewExt(rules: Rules, st: Store, b: Block)
    requires ChainInv(rules, st) && Submitted(st, b) && b.parent in st.exts
    requires b.hash in st.exts ==> st.exts[b.hash].verified.None?
    ensures var exts := st.exts[b.hash := Ext(st.exts[b.parent].total + b.difficulty, None)];
            && TreeOk(st.genesis, st.blocks, exts)
            && ExtsOk(rules, st.genesis, st.blocks, exts)
            && PathTo(st.blocks, b.hash) == PathTo(st.blocks, b.parent) + [b]
  {
    hide Passed, TipOk, WellFormed, GenesisFormed, NoCollision;
    var exts := st.exts[b.hash := Ext(st.exts[b.parent].total + b.difficulty, None)];
    assert Placed(st.genesis, st.blocks, st.exts, b.parent);
    forall h | h in exts
      ensures Placed(st.genesis, st.blocks, exts, h) && ExtOk(rules, st.genesis, st.blocks, exts, h)
    {
      if h != b.hash {
        assert Placed(st.genesis, st.blocks, st.exts, h) && ExtOk(rules, st.genesis, st.blocks, st.exts, h);
      }
    }
    PathIsChained(st.genesis, st.blocks, exts, b.hash);
  }

  lemma BeginningsOnPath(genesis: Hash, blocks: map<Hash, Block>, exts: map<Hash, Ext>, h: Hash, g: Hash)
    requires TreeOk(genesis, blocks, exts) && h in exts && OnPath(PathTo(blocks, h), g)
    ensures g in exts && g in blocks && 0 <= blocks[g].number < |PathTo(blocks, h)|
    ensures PathTo(blocks, h)[blocks[g].number] == blocks[g]
    ensures PathTo(blocks, g) == PathTo(blocks, h)[..blocks[g].number + 1]
    ensures g != genesis ==> blocks[g].number > 0 && OnPath(PathTo(blocks, h), blocks[g].parent)
                             && PathTo(blocks, blocks[g].parent) == PathTo(blocks, h)[..blocks[g].number]
  {
    hide Path, PathTo;
    var p := PathTo(blocks, h);
    var i :| 0 <= i < |p| && p[i].hash == g;
    PathIsChained(genesis, blocks, exts, h);
    PathBeginnings(genesis, blocks, exts, h, i);
    assert Placed(genesis, blocks, exts, g);
    if g != genesis {
      assert p[i - 1].hash == blocks[g].parent;
      PathBeginnings(genesis, blocks, exts, h, i - 1);
    }
  }

  /** Marking a chain as verified whose unverified part passed keeps the exts in order. */
  lemma ConfirmKeeps(rules: Rules, genesis: Hash, blocks: map<Hash, Block>, exts: map<Hash, Ext>, h: Hash,
                     switch: Switch)
    requires TreeOk(genesis, blocks, exts) && ExtsOk(rules, genesis, blocks, exts) && h in exts && !switch.disableAll
    requires AllChecked(rules, PathTo(blocks, h), VerifiedLen(exts, PathTo(blocks, h)), switch)
    ensures TreeOk(genesis, blocks, Confirm(exts, PathTo(blocks, h)))
    ensures ExtsOk(rules, genesis, blocks, Confirm(exts, PathTo(blocks, h)))
  {
    hide Path, PathTo, Checked, VerifiedLen;
    var p := PathTo(blocks, h);
    var exts' := Confirm(exts, p);
    forall g | g in exts'
      ensures Placed(genesis, blocks, exts', g) && ExtOk(rules, genesis, blocks, exts', g)
    {
      assert Placed(genesis, blocks, exts, g) && ExtOk(rules, genesis, blocks, exts, g);
      if g != genesis {
        assert Placed(genesis, blocks, exts, blocks[g].parent);
        if OnPath(p, g) {
          ConfirmOne(rules, genesis, blocks, exts, h, switch, g);
        }
      }
    }
  }

  lemma ConfirmOne(rules: Rules, genesis: Hash, blocks: map<Hash, Block>, exts: map<Hash, Ext>, h: Hash, switch: Switch,
                   g: Hash)
    requires TreeOk(genesis, blocks, exts) && ExtsOk(rules, genesis, blocks, exts) && h in exts && !switch.disableAll
    requires AllChecked(rules, PathTo(blocks, h), VerifiedLen(exts, PathTo(blocks, h)), switch)
    requires g in exts && g != genesis && OnPath(PathTo(blocks, h), g)
    ensures g in blocks && OnPath(PathTo(blocks, h), blocks[g].parent)
    ensures Passed(rules, PathTo(blocks, blocks[g].parent), blocks[g])
  {
    hide Path, PathTo, Checked, OnPath;
    BeginningsOnPath(genesis, blocks, exts, h, g);
    assert Placed(genesis, blocks, exts, g) && ExtOk(rules, genesis, blocks, exts, g);
    var p := PathTo(blocks, h);
    var i := blocks[g].number;
    if i >= VerifiedLen(exts, p) {
      assert Checked(rules, p[..i], p[i], switch);
    } else {
      assert exts[p[i].hash].verified == Some(true);
    }
  }

  predicate IsVerified(exts: map<Hash, Ext>, h: Hash) {
    h in exts && exts[h].verified == Some(true)
  }

  lemma {:induction false} SameVerifiedLen(exts: map<Hash, Ext>, exts': map<Hash, Ext>, p: seq<Block>)
    requires forall h :: IsVerified(exts, h) <==> IsVerified(exts', h)
    ensures VerifiedLen(exts, p) == VerifiedLen(exts', p)
    decreases |p|
  {
    if p != [] {
      SameVerifiedLen(exts, exts', p[..|p| - 1]);
      assert IsVerified(exts, p[|p| - 1].hash) <==> IsVerified(exts', p[|p| - 1].hash);
    }
  }

  lemma LeavesReplaced(mmr: map<int, Hash>, p: seq<Block>)
    ensures LeavesOk(mmr + Leaves(p), p)
  {
  }

  /** Every outcome of verification keeps the invariant. */
  lemma VerifyKeeps(rules: Rules, st: Store, b: Block, switch: Switch)
    requires ChainInv(rules, st) && Submitted(st, b) && !switch.disableAll
    ensures ChainInv(rules, Verify(rules, st, b, switch).store)
  {
    hide BlocksOk, TreeOk, ExtsOk, Replay, Path, PathTo, AllChecked, Window, VerifiedLen, LeavesOk, Leaves;
    if !Refused(st, b) && !(b.hash in st.exts && st.exts[b.hash].verified.Some?) {
      var total := st.exts[b.parent].total + b.difficulty;
      var exts := st.exts[b.hash := Ext(total, None)];
      var p := PathTo(st.blocks, b.parent) + [b];
      NewExt(rules, st, b);
      if total > st.exts[st.tip].total && AllChecked(rules, p, VerifiedLen(st.exts, p), switch) {
        SameVerifiedLen(st.exts, exts, p);
        ConfirmKeeps(rules, st.genesis, st.blocks, exts, b.hash, switch);
        LeavesReplaced(st.mmr, p);
        TipConfirmed(exts, p, b);
      }
    }
  }

  lemma TipConfirmed(exts: map<Hash, Ext>, p: seq<Block>, b: Block)
    requires b.hash in exts && p != [] && p[|p| - 1] == b
    ensures b.hash in Confirm(exts, p) && Confirm(exts, p)[b.hash].verified == Some(true)
            && Confirm(exts, p).Keys == exts.Keys
  {
    assert OnPath(p, b.hash);
  }

  // ----- The heaviest tip -----

  ghost function Difficulty(p: seq<Block>): int {
    if p == [] then 0 else Difficulty(p[..|p| - 1]) + p[|p| - 1].difficulty
  }

  /** A stored total difficulty is the sum of the difficulties on the path. */
  lemma {:induction false} TotalIsSum(rules: Rules, genesis: Hash, blocks: map<Hash, Block>, exts: map<Hash, Ext>,
                                      h: Hash)
    requires TreeOk(genesis, blocks, exts) && ExtsOk(rules, genesis, blocks, exts) && h in exts
    ensures exts[h].total == Difficulty(PathTo(blocks, h))
    decreases blocks[h].number
  {
    hide Passed;
    assert Placed(genesis, blocks, exts, h) && ExtOk(rules, genesis, blocks, exts, h);
    PathIsChained(genesis, blocks, exts, h);
    var p := PathTo(blocks, h);
    if h != genesis {
      TotalIsSum(rules, genesis, blocks, exts, blocks[h].parent);
      assert p[..|p| - 1] == PathTo(blocks, blocks[h].parent);
    } else {
      assert p[..0] == [];
    }
  }

  /** The tip stays a heaviest block, and is replaced only by a strictly heavier one. */
  lemma HeaviestKeeps(rules: Rules, st: Store, b: Block, switch: Switch)
    requires ChainInv(rules, st) && Heaviest(st) && Submitted(st, b)
    ensures Heaviest(Verify(rules, st, b, switch).store)
    ensures var st' := Verify(rules, st, b, switch).store;
            st'.tip != st.tip ==> st'.tip == b.hash && st'.exts[st'.tip].total > st.exts[st.tip].total
  {
    hide ExtsOk, Replay, Path, PathTo, AllChecked, Window, VerifiedLen, Leaves, OnPath, BlocksOk;
    var st' := Verify(rules, st, b, switch).store;
    forall h | h in st'.exts
      ensures h != b.hash ==> h in st.exts && st'.exts[h].total == st.exts[h].total
    {
    }
    assert st'.tip == st.tip || st'.tip == b.hash;
    if b.hash == st.tip {
      assert st' == st;
    }
  }

  // ----- Consuming a block -----

  /** A rejected block is deleted and marked; the mark of an accepted one is removed. */
  ghost function Consume(rules: Rules, st: Store, b: Block, switch: Switch): Store {
    var v := Verify(rules, st, b, switch);
    if v.outcome == Rejected then st.(blocks := st.blocks - {b.hash}, invalid := st.invalid + {b.hash})
    else v.store.(invalid := v.store.invalid - {b.hash})
  }

  ghost predicate StoreInv(rules: Rules, st: Store) {
    ChainInv(rules, st) && Heaviest(st) && st.invalid !! st.exts.Keys
  }

  /** A block that has an ext is never rejected, so the blocks of the tree stay stored. */
  lemma TreeIsKept(rules: Rules, st: Store, b: Block, switch: Switch)
    requires StoreInv(rules, st) && Submitted(st, b) && b.hash in st.exts
    ensures Verify(rules, st, b, switch).outcome != Rejected
  {
    hide Replay, Path, PathTo, AllChecked, Window, VerifiedLen, Leaves, Confirm, Passed, TipOk, BlocksOk;
    assert Placed(st.genesis, st.blocks, st.exts, b.hash) && ExtOk(rules, st.genesis, st.blocks, st.exts, b.hash);
    assert Placed(st.genesis, st.blocks, st.exts, b.parent) && ExtOk(rules, st.genesis, st.blocks, st.exts, b.parent);
    assert st.exts[b.hash].total <= st.exts[st.tip].total;
  }

  // ----- Blocks outside the tree come and go -----

  ghost predicate SameTree(blocks: map<Hash, Block>, blocks': map<Hash, Block>, exts: map<Hash, Ext>) {
    forall h :: h in exts ==> h in blocks && h in blocks' && blocks'[h] == blocks[h]
  }

  lemma {:induction false} PathFrame(genesis: Hash, blocks: map<Hash, Block>, blocks': map<Hash, Block>,
                                     exts: map<Hash, Ext>, h: Hash)
    requires TreeOk(genesis, blocks, exts) && SameTree(blocks, blocks', exts) && h in exts
    ensures TreeOk(genesis, blocks', exts)
    ensures PathTo(blocks', h) == PathTo(blocks, h)
    decreases blocks[h].number
  {
    assert Placed(genesis, blocks, exts, h);
    forall g | g in exts
      ensures Placed(genesis, blocks', exts, g)
    {
      assert Placed(genesis, blocks, exts, g);
    }
    PathIsChained(genesis, blocks, exts, h);
    PathIsChained(genesis, blocks', exts, h);
    if h != genesis {
      PathFrame(genesis, blocks, blocks', exts, blocks[h].parent);
    }
  }

  lemma ExtsFrame(rules: Rules, genesis: Hash, blocks: map<Hash, Block>, blocks': map<Hash, Block>,
                  exts: map<Hash, Ext>)
    requires TreeOk(genesis, blocks, exts) && SameTree(blocks, blocks', exts) && ExtsOk(rules, genesis, blocks, exts)
    ensures TreeOk(genesis, blocks', exts) && ExtsOk(rules, genesis, blocks', exts)
  {
    hide Path, PathTo, Passed;
    PathFrame(genesis, blocks, blocks', exts, genesis);
    forall h | h in exts
      ensures Placed(genesis, blocks', exts, h) && ExtOk(rules, genesis, blocks', exts, h)
    {
      assert Placed(genesis, blocks, exts, h) && ExtOk(rules, genesis, blocks, exts, h);
      if h != genesis {
        PathFrame(genesis, blocks, blocks', exts, blocks[h].parent);
      }
    }
  }

  /** Changing blocks outside the tree does not touch the invariant. */
  lemma OutsideKeeps(rules: Rules, st: Store, st': Store)
    requires StoreInv(rules, st) && st' == st.(blocks := st'.blocks, invalid := st'.invalid)
    requires SameTree(st.blocks, st'.blocks, st.exts) && BlocksOk(st.genesis, st'.blocks) && st'.invalid !! st.exts.Keys
    ensures StoreInv(rules, st')
  {
    hide Path, PathTo, Replay, Window, LeavesOk, BlocksOk, ExtsOk;
    ExtsFrame(rules, st.genesis, st.blocks, st'.blocks, st.exts);
    PathFrame(st.genesis, st.blocks, st'.blocks, st.exts, st.tip);
  }

  lemma FewerBlocks(genesis: Hash, blocks: map<Hash, Block>, h: Hash)
    requires BlocksOk(genesis, blocks) && h != genesis
    ensures BlocksOk(genesis, blocks - {h})
  {
    hide WellFormed, GenesisFormed;
    var blocks' := blocks - {h};
    forall g | g in blocks'
      ensures NoCollision(blocks', blocks'[g])
    {
      assert NoCollision(blocks, blocks[g]);
    }
  }

  /** Consuming a block keeps the invariant, whether it is accepted or not. */
  lemma ConsumeKeeps(rules: Rules, st: Store, b: Block, switch: Switch)
    requires StoreInv(rules, st) && Submitted(st, b) && !switch.disableAll
    ensures StoreInv(rules, Consume(rules, st, b, switch))
  {
    hide BlocksOk, ChainInv, Heaviest, Verify;
    var v := Verify(rules, st, b, switch);
    if b.hash in st.exts {
      TreeIsKept(rules, st, b, switch);
    }
    if v.outcome == Rejected {
      RejectedKeeps(rules, st, b);
    } else {
      VerifyKeeps(rules, st, b, switch);
      HeaviestKeeps(rules, st, b, switch);
      AcceptedKeys(rules, st, b, switch);
      UnmarkKeeps(rules, v.store, b.hash);
    }
  }

  lemma RejectedKeeps(rules: Rules, st: Store, b: Block)
    requires StoreInv(rules, st) && b.hash !in st.exts
    ensures StoreInv(rules, st.(blocks := st.blocks - {b.hash}, invalid := st.invalid + {b.hash}))
  {
    hide BlocksOk, ExtsOk, TipOk, Heaviest;
    var st' := st.(blocks := st.blocks - {b.hash}, invalid := st.invalid + {b.hash});
    FewerBlocks(st.genesis, st.blocks, b.hash);
    forall h | h in st.exts
      ensures h in st.blocks && h in st'.blocks && st'.blocks[h] == st.blocks[h]
    {
      assert Placed(st.genesis, st.blocks, st.exts, h);
    }
    OutsideKeeps(rules, st, st');
  }

  lemma AcceptedKeys(rules: Rules, st: Store, b: Block, switch: Switch)
    requires Verify(rules, st, b, switch).outcome != Rejected
    ensures Verify(rules, st, b, switch).store.exts.Keys == st.exts.Keys + {b.hash}
    ensures Verify(rules, st, b, switch).store.invalid == st.invalid
  {
    hide Replay, Path, PathTo, AllChecked, Window, VerifiedLen, Leaves, OnPath;
  }

  lemma UnmarkKeeps(rules: Rules, st: Store, h: Hash)
    requires ChainInv(rules, st) && Heaviest(st)
    ensures ChainInv(rules, st.(invalid := st.invalid - {h})) && Heaviest(st.(invalid := st.invalid - {h}))
  {
    hide BlocksOk, TreeOk, ExtsOk, LeavesOk, Replay, Path, PathTo, Window;
  }

  // ----- Runs -----

  datatype Event =
    | Arrive(arrived: Block)                   // a block that passed the first checks is stored
    | Submit(submitted: Block, switch: Switch) // a stored block is verified
    | Mark(marked: Hash)                       // a block without an ext is found invalid and deleted

  ghost predicate Admissible(rules: Rules, st: Store, e: Event) {
    match e
    case Arrive(b) =>
      && WellFormed(b) && b.hash != st.genesis && NoCollision(st.blocks, b)
      && (b.hash in st.blocks ==> st.blocks[b.hash] == b)
    case Submit(b, switch) => Submitted(st, b) && !switch.disableAll
    case Mark(h) => h !in st.exts
  }

  ghost function CutBack(rules: Rules, st: Store, h: Hash): Store {
    var p := PathTo(st.blocks, h);
    st.(view := Replay(p), tip := h, table := Window(rules.farthest, p))
  }

  ghost function Step(rules: Rules, st: Store, e: Event): Store {
    match e
    case Arrive(b) => st.(blocks := st.blocks[b.hash := b])
    case Submit(b, switch) => Consume(rules, st, b, switch)
    case Mark(h) => st.(blocks := st.blocks - {h}, invalid := st.invalid + {h})
  }

  /** Every event is admissible when it happens. */
  ghost predicate AdmissibleRun(rules: Rules, st: Store, events: seq<Event>)
    decreases |events|
  {
    events == [] || (Admissible(rules, st, events[0]) && AdmissibleRun(rules, Step(rules, st, events[0]), events[1..]))
  }

  ghost function After(rules: Rules, st: Store, events: seq<Event>): Store
    decreases |events|
  {
    if events == [] then st else After(rules, Step(rules, st, events[0]), events[1..])
  }

  lemma MoreBlocks(genesis: Hash, blocks: map<Hash, Block>, b: Block)
    requires BlocksOk(genesis, blocks) && WellFormed(b) && b.hash != genesis && NoCollision(blocks, b)
    requires b.hash in blocks ==> blocks[b.hash] == b
    ensures BlocksOk(genesis, blocks[b.hash := b])
  {
    hide GenesisFormed;
    var blocks' := blocks[b.hash := b];
    forall h | h in blocks'
      ensures NoCollision(blocks', blocks'[h])
    {
      if h != b.hash {
        assert NoCollision(blocks, blocks[h]);
      } else {
        assert NoCollision(blocks, b);
      }
    }
  }

  lemma ArriveKeeps(rules: Rules, st: Store, b: Block)
    requires StoreInv(rules, st) && Admissible(rules, st, Arrive(b))
    ensures StoreInv(rules, st.(blocks := st.blocks[b.hash := b]))
  {
    hide BlocksOk, ExtsOk, TipOk, Heaviest, WellFormed, NoCollision;
    var st' := st.(blocks := st.blocks[b.hash := b]);
    MoreBlocks(st.genesis, st.blocks, b);
    forall h | h in st.exts
      ensures h in st.blocks && h in st'.blocks && st'.blocks[h] == st.blocks[h]
    {
      assert Placed(st.genesis, st.blocks, st.exts, h);
    }
    OutsideKeeps(rules, st, st');
  }

  lemma MarkKeeps(rules: Rules, st: Store, h: Hash)
    requires StoreInv(rules, st) && h !in st.exts
    ensures StoreInv(rules, st.(blocks := st.blocks - {h}, invalid := st.invalid + {h}))
  {
    RejectedKeeps(rules, st, Block(h, 0, 0, 0, [], {}));
  }

  lemma {:induction false} LeavesShorter(mmr: map<int, Hash>, p: seq<Block>, n: nat)
    requires LeavesOk(mmr, p) && n <= |p|
    ensures LeavesOk(mmr, p[..n])
  {
  }

  /** Cutting the chain back keeps all but the weight of the tip. */
  lemma CutBackKeeps(rules: Rules, st: Store, h: Hash)
    requires ChainInv(rules, st) && OnPath(PathTo(st.blocks, st.tip), h)
    ensures ChainInv(rules, CutBack(rules, st, h))
    ensures var st', p := CutBack(rules, st, h), PathTo(st.blocks, st.tip);
            && h in st.blocks && 0 <= st.blocks[h].number < |p|
            && st'.tip == h && PathTo(st'.blocks, h) == p[..st.blocks[h].number + 1]
            && st'.view == Replay(p[..st.blocks[h].number + 1])
            && st' == st.(tip := h, view := st'.view, table := st'.table)
  {
    hide Path, PathTo, Replay, Window, LeavesOk, BlocksOk, OnPath;
    BeginningsOnPath(st.genesis, st.blocks, st.exts, st.tip, h);
    var p := PathTo(st.blocks, st.tip);
    VerifiedPath(rules, st.genesis, st.blocks, st.exts, st.tip, st.blocks[h].number);
    LeavesShorter(st.mmr, p, st.blocks[h].number + 1);
    PathIsChained(st.genesis, st.blocks, st.exts, h);
  }

  /** The invariant holds over every run. */
  lemma {:induction false} RunKeeps(rules: Rules, st: Store, events: seq<Event>)
    requires StoreInv(rules, st) && AdmissibleRun(rules, st, events)
    ensures StoreInv(rules, After(rules, st, events))
    decreases |events|
  {
    if events != [] {
      hide StoreInv, Consume, Submitted, WellFormed, NoCollision;
      match events[0] {
        case Arrive(b) => ArriveKeeps(rules, st, b);
        case Submit(b, switch) => ConsumeKeeps(rules, st, b, switch);
        case Mark(h) => MarkKeeps(rules, st, h);
      }
      RunKeeps(rules, Step(rules, st, events[0]), events[1..]);
    }
  }

  /** The store a node starts with. */
  ghost function Initial(g: Block): Store {
    Store(g.hash, map[g.hash := g], map[g.hash := Ext(g.difficulty, Some(true))], Replay([g]), map[0 := g.hash], g.hash,
          map[], {})
  }

  lemma InitialInv(rules: Rules, g: Block)
    requires GenesisFormed(g) && forall i :: 0 <= i < |g.txs| ==> g.txs[i].hash != NULL_POINT.tx
    ensures StoreInv(rules, Initial(g))
  {
    hide Replay;
    var st := Initial(g);
    assert PathTo(st.blocks, g.hash) == [g];
    assert Window(rules.farthest, [g]) == map[];
  }

  /** A block that builds on the first one and passes becomes the tip. */
  lemma FirstBlockIsAdopted(rules: Rules, g: Block, b: Block, switch: Switch, events: seq<Event>)
    requires g.number == 0 && WellFormed(b) && NoCollision(map[g.hash := g], b)
    requires b.parent == g.hash != b.hash && b.number == 1 && b.difficulty > 0
    requires !switch.disableAll && Checked(rules, [g], b, switch) && events == [Arrive(b), Submit(b, switch)]
    ensures AdmissibleRun(rules, Initial(g), events)
    ensures After(rules, Initial(g), events).tip == b.hash
    ensures After(rules, Initial(g), events).view == Attach(Attach(EMPTY_VIEW, g), b)
  {
    hide WellFormed, NoCollision, Checked, Attach, Confirm, Leaves, Window;
    var st := Initial(g);
    var st1 := st.(blocks := st.blocks[b.hash := b]);
    var p := [g, b];
    assert PathTo(st1.blocks, b.parent) + [b] == p;
    assert p[..1] == [g] && p[..0] == [];
    assert VerifiedLen(st1.exts, p) == 1;
    assert AllChecked(rules, p, 1, switch);
    assert [g][..0] == [] && Replay([g][..0]) == EMPTY_VIEW;
    assert Replay(p) == Attach(Replay(p[..1]), b);
    var st2 := Consume(rules, st1, b, switch);
    assert st2.tip == b.hash && st2.view == Replay(p);
    var rest := events[1..];
    assert rest == [Submit(b, switch)] && rest[1..] == [];
    assert After(rules, st2, rest[1..]) == st2 && AdmissibleRun(rules, st2, rest[1..]);
    assert After(rules, st1, rest) == st2 && AdmissibleRun(rules, st1, rest);
  }

  /** There are such blocks: two that have nothing but a cellbase. */
  lemma BlocksExist(rules: Rules, g: Block, b: Block, switch: Switch)
    requires g == Block(1, 0, 0, 1, [Tx(11, 0, [NULL_POINT], [])], {})
             && b == Block(2, 1, 1, 1, [Tx(12, 1, [NULL_POINT], [])], {})
    requires !switch.disableAll && rules.valid(Replay([g]), HashesOf([g]), b, switch)
    ensures StoreInv(rules, Initial(g)) && After(rules, Initial(g), [Arrive(b), Submit(b, switch)]).tip == b.hash
  {
    hide StoreInv, After, AdmissibleRun;
    InitialInv(rules, g);
    FirstBlockIsAdopted(rules, g, b, switch, [Arrive(b), Submit(b, switch)]);
  }
}
