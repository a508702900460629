/** Detaching undoes attaching, for every block that passed verification. */
module ChainReplay {
  import opened Basics
  import opened ChainState

  // ----- What the indexes of a chain satisfy -----

  /** The index knows where transaction `h` is. */
  predicate Located(blocks: map<Hash, Block>, info: TxInfo, h: Hash) {
    && info.block in blocks
    && 0 <= info.index < |blocks[info.block].txs|
    && blocks[info.block].txs[info.index].hash == h
    && blocks[info.block].number == info.number
  }

  function TxAt(blocks: map<Hash, Block>, info: TxInfo): Tx
    requires info.block in blocks && 0 <= info.index < |blocks[info.block].txs|
  {
    blocks[info.block].txs[info.index]
  }

  ghost predicate TxsOk(blocks: map<Hash, Block>, v: View) {
    forall h :: h in v.txs ==> Located(blocks, v.txs[h], h) && h != NULL_POINT.tx
  }

  /** A live cell is what the index of transactions says it is. */
  ghost predicate CellsOk(blocks: map<Hash, Block>, v: View) {
    forall op :: op in v.cells ==> op.tx in v.txs && Lookup(blocks, v.txs, op) == Some(v.cells[op])
  }

  /** What a transaction spent is gone, and was an output of a transaction of the chain. */
  predicate IsGone(v: View, op: OutPoint) {
    op !in v.cells && op.tx in v.txs
  }

  ghost predicate SpentOk(blocks: map<Hash, Block>, v: View) {
    forall h, op :: h in v.txs && Located(blocks, v.txs[h], h) && v.txs[h].index > 0
                    && op in TxAt(blocks, v.txs[h]).inputs ==>
      IsGone(v, op)
  }

  /** Cellbases commit to the number of their block. */
  ghost predicate CellbasesOk(blocks: map<Hash, Block>, v: View) {
    forall h :: h in v.txs && Located(blocks, v.txs[h], h) ==>
      var tx := TxAt(blocks, v.txs[h]);
      if v.txs[h].index == 0 then IsCellbase(tx) && tx.since == v.txs[h].number
      else !IsCellbase(tx)
  }

  /** The chain has blocks up to number `n - 1`. */
  ghost predicate HeightOk(blocks: map<Hash, Block>, v: View, n: int) {
    && (forall k :: k in v.index <==> 0 <= k < n)
    && (forall h :: h in v.txs ==> 0 <= v.txs[h].number < n)
    && (forall k :: k in v.index ==> v.index[k] in v.numbers && v.numbers[v.index[k]] == k)
    && (forall h :: h in v.numbers ==>
          v.numbers[h] in v.index && v.index[v.numbers[h]] == h && h in blocks && blocks[h].number == v.numbers[h])
  }

  ghost predicate ViewOk(blocks: map<Hash, Block>, v: View, n: int) {
    TxsOk(blocks, v) && CellsOk(blocks, v) && SpentOk(blocks, v) && CellbasesOk(blocks, v) && HeightOk(blocks, v, n)
  }

  /** Equal hashes mean equal transactions. */
  ghost predicate NoCollision(blocks: map<Hash, Block>, b: Block) {
    && (forall i :: 0 <= i < |b.txs| ==> b.txs[i].hash != NULL_POINT.tx)
    && (forall h, i, j :: h in blocks && 0 <= i < |blocks[h].txs| && 0 <= j < |b.txs|
                          && blocks[h].txs[i].hash == b.txs[j].hash ==>
          blocks[h].txs[i] == b.txs[j])
  }

  ghost predicate Stored(blocks: map<Hash, Block>, b: Block) {
    b.hash in blocks && blocks[b.hash] == b
  }

  // ----- No transaction is committed twice -----

  lemma {:induction false} FreshBefore(blocks: map<Hash, Block>, v: View, b: Block, n: nat)
    requires ViewOk(blocks, v, b.number) && WellFormed(b) && Resolves(v, b) && NoCollision(blocks, b) && n <= |b.txs|
    ensures forall i :: 0 <= i < n ==> b.txs[i].hash !in v.txs
    decreases n
  {
    if n > 0 {
      FreshBefore(blocks, v, b, n - 1);
      FreshOne(blocks, v, b, n - 1);
    }
  }

  lemma SpentIsGone(blocks: map<Hash, Block>, v: View, h: Hash, op: OutPoint)
    requires SpentOk(blocks, v) && h in v.txs && Located(blocks, v.txs[h], h) && v.txs[h].index > 0
    requires op in TxAt(blocks, v.txs[h]).inputs
    ensures IsGone(v, op)
  {
  }

  lemma FreshOne(blocks: map<Hash, Block>, v: View, b: Block, i: nat)
    requires ViewOk(blocks, v, b.number) && WellFormed(b) && Resolves(v, b) && NoCollision(blocks, b) && i < |b.txs|
    requires forall j :: 0 <= j < i ==> b.txs[j].hash !in v.txs
    ensures b.txs[i].hash !in v.txs
  {
    var tx := b.txs[i];
    if tx.hash in v.txs {
      var info := v.txs[tx.hash];
      assert Located(blocks, info, tx.hash);
      assert TxAt(blocks, info) == tx;
      if i > 0 {
        var op := tx.inputs[0];
        assert InputResolves(v, b, i, 0);
        SpentIsGone(blocks, v, tx.hash, op);
        assert false;
      }
    }
  }

  // ----- Cells created and spent -----

  ghost predicate CreatedBy(b: Block, n: int, op: OutPoint, i: int) {
    0 <= i < n && n <= |b.txs| && b.txs[i].hash == op.tx && 0 <= op.index < |b.txs[i].outputs|
  }

  lemma PointsAre(tx: Tx, op: OutPoint)
    ensures op in Points(tx) <==> op.tx == tx.hash && 0 <= op.index < |tx.outputs|
  {
    if op.tx == tx.hash && 0 <= op.index < |tx.outputs| {
      assert op == OutPoint(tx.hash, op.index);
    }
  }

  lemma {:induction false} CreatedAre(b: Block, n: nat, op: OutPoint)
    requires Shaped(b) && n <= |b.txs|
    ensures op in Created(b, n) <==> exists i :: CreatedBy(b, n, op, i)
    ensures forall i :: CreatedBy(b, n, op, i) ==> op in Created(b, n)
                                                   && Created(b, n)[op]
                                                      == Cell(b.txs[i].outputs[op.index], b.hash, b.number, i)
    decreases n
  {
    if n > 0 {
      CreatedAre(b, n - 1, op);
      PointsAre(b.txs[n - 1], op);
      assert forall i :: CreatedBy(b, n, op, i) <==> CreatedBy(b, n - 1, op, i)
                                                     || (i == n - 1 && op in Points(b.txs[i]));
      if op in Points(b.txs[n - 1]) {
        assert CreatedBy(b, n, op, n - 1);
      }
    }
  }

  ghost predicate SpentBy(b: Block, n: int, op: OutPoint, i: int) {
    0 < i < n && n <= |b.txs| && op in b.txs[i].inputs
  }

  lemma {:induction false} SpentAre(b: Block, n: nat, op: OutPoint)
    requires n <= |b.txs|
    ensures op in Spent(b, n) <==> exists i :: SpentBy(b, n, op, i)
    decreases n
  {
    if n > 1 {
      SpentAre(b, n - 1, op);
      assert forall i :: SpentBy(b, n, op, i) <==> SpentBy(b, n - 1, op, i) || (i == n - 1 && op in Inputs(b.txs[i]));
      if op in Inputs(b.txs[n - 1]) {
        assert SpentBy(b, n, op, n - 1);
      }
    }
  }

  lemma {:induction false} InfosAre(b: Block, n: nat)
    requires Shaped(b) && n <= |b.txs|
    ensures forall h :: h in Infos(b, n) ==> exists i :: 0 <= i < n && b.txs[i].hash == h
    ensures forall i :: 0 <= i < n ==> b.txs[i].hash in Infos(b, n)
                                       && Infos(b, n)[b.txs[i].hash] == TxInfo(b.hash, b.number, i)
    decreases n
  {
    if n > 0 {
      InfosAre(b, n - 1);
    }
  }

  ghost predicate Fresh(v: View, b: Block) {
    forall i :: 0 <= i < |b.txs| ==> b.txs[i].hash !in v.txs
  }

  // ----- Attaching keeps the indexes in order -----

  /** What it takes to attach `b` on top of a chain with indexes `v`. */
  ghost predicate Attachable(blocks: map<Hash, Block>, v: View, b: Block) {
    && b.number >= 0 && ViewOk(blocks, v, b.number)
    && Shaped(b)
    && Resolves(v, b)
    && Fresh(v, b)
    && Stored(blocks, b)
    && forall i :: 0 <= i < |b.txs| ==> b.txs[i].hash != NULL_POINT.tx
  }

  /** A block that passed verification can be attached. */
  lemma VerifiedAttaches(blocks: map<Hash, Block>, v: View, b: Block)
    requires ViewOk(blocks, v, b.number) && WellFormed(b) && Resolves(v, b) && NoCollision(blocks, b)
             && Stored(blocks, b)
    ensures Attachable(blocks, v, b)
  {
    FreshBefore(blocks, v, b, |b.txs|);
  }

  lemma GenesisAttaches(blocks: map<Hash, Block>, b: Block)
    requires GenesisFormed(b) && NoCollision(blocks, b) && Stored(blocks, b)
    ensures Attachable(blocks, EMPTY_VIEW, b)
  {
  }

  lemma TxsAfter(v: View, b: Block, h: Hash)
    requires Shaped(b) && Fresh(v, b)
    ensures h in Attach(v, b).txs <==> h in v.txs || h in Hashes(b)
    ensures h in v.txs ==> Attach(v, b).txs[h] == v.txs[h] && h !in Hashes(b)
    ensures forall i :: 0 <= i < |b.txs| && b.txs[i].hash == h ==>
                          h in Attach(v, b).txs && Attach(v, b).txs[h] == TxInfo(b.hash, b.number, i)
  {
    InfosAre(b, |b.txs|);
  }

  lemma AttachTxs(blocks: map<Hash, Block>, v: View, b: Block)
    requires Attachable(blocks, v, b)
    ensures TxsOk(blocks, Attach(v, b)) && CellbasesOk(blocks, Attach(v, b))
  {
    InfosAre(b, |b.txs|);
    hide Resolves, Infos, AttachCells;
  }

  lemma AttachHeight(blocks: map<Hash, Block>, v: View, b: Block)
    requires Attachable(blocks, v, b)
    ensures HeightOk(blocks, Attach(v, b), b.number + 1)
  {
    AttachTxNumbers(blocks, v, b);
    hide Resolves, Infos, AttachCells, TxsOk, CellsOk, SpentOk, CellbasesOk, Shaped, Fresh;
  }

  lemma AttachTxNumbers(blocks: map<Hash, Block>, v: View, b: Block)
    requires Attachable(blocks, v, b)
    ensures forall h :: h in Attach(v, b).txs ==> 0 <= Attach(v, b).txs[h].number < b.number + 1
  {
    hide Attach, Resolves, TxsOk, CellsOk, SpentOk, CellbasesOk, Fresh;
    forall h | h in Attach(v, b).txs
      ensures 0 <= Attach(v, b).txs[h].number < b.number + 1
    {
      TxsAfter(v, b, h);
    }
  }

  lemma CellsAfter(v: View, b: Block, op: OutPoint)
    ensures op in AttachCells(v.cells, b) <==> (op in v.cells || op in Created(b, |b.txs|)) && op !in Spent(b, |b.txs|)
    ensures op in AttachCells(v.cells, b) ==>
              AttachCells(v.cells, b)[op] == if op in Created(b, |b.txs|) then Created(b, |b.txs|)[op] else v.cells[op]
  {
    hide Created, Spent;
  }

  lemma CreatedIsNew(blocks: map<Hash, Block>, v: View, b: Block, op: OutPoint)
    requires CellsOk(blocks, v) && Shaped(b) && Fresh(v, b) && op.tx in v.txs
    ensures op !in Created(b, |b.txs|)
  {
    CreatedAre(b, |b.txs|, op);
  }

  lemma AttachCellsOk(blocks: map<Hash, Block>, v: View, b: Block)
    requires Attachable(blocks, v, b)
    ensures CellsOk(blocks, Attach(v, b))
  {
    hide AttachCells, Created, Spent, Resolves, Infos, Shaped, SpentOk, CellbasesOk, HeightOk;
    forall op | op in Attach(v, b).cells
      ensures op.tx in Attach(v, b).txs && Lookup(blocks, Attach(v, b).txs, op) == Some(Attach(v, b).cells[op])
    {
      CellsAfter(v, b, op);
      TxsAfter(v, b, op.tx);
      if op in Created(b, |b.txs|) {
        CreatedAre(b, |b.txs|, op);
        var i :| CreatedBy(b, |b.txs|, op, i);
        assert b.txs[i].hash == op.tx;
      } else {
        assert op in v.cells;
      }
    }
  }

  lemma NewSpent(blocks: map<Hash, Block>, v: View, b: Block, i: int, op: OutPoint)
    requires Attachable(blocks, v, b) && 0 < i < |b.txs| && op in b.txs[i].inputs
    ensures IsGone(Attach(v, b), op)
  {
    hide AttachCells, Created, Infos;
    var k :| 0 <= k < |b.txs[i].inputs| && b.txs[i].inputs[k] == op;
    assert InputResolves(v, b, i, k);
    CellsAfter(v, b, op);
    SpentAre(b, |b.txs|, op);
    assert SpentBy(b, |b.txs|, op, i);
    TxsAfter(v, b, op.tx);
  }

  lemma OldSpent(blocks: map<Hash, Block>, v: View, b: Block, op: OutPoint)
    requires Attachable(blocks, v, b) && IsGone(v, op)
    ensures IsGone(Attach(v, b), op)
  {
    hide AttachCells, Created, Infos, Spent, Resolves;
    CellsAfter(v, b, op);
    TxsAfter(v, b, op.tx);
    CreatedIsNew(blocks, v, b, op);
  }

  lemma AttachSpent(blocks: map<Hash, Block>, v: View, b: Block)
    requires Attachable(blocks, v, b)
    ensures SpentOk(blocks, Attach(v, b))
  {
    hide Attach, Resolves, IsGone;
    forall h, op | h in Attach(v, b).txs && Located(blocks, Attach(v, b).txs[h], h) && Attach(v, b).txs[h].index > 0
                   && op in TxAt(blocks, Attach(v, b).txs[h]).inputs
      ensures IsGone(Attach(v, b), op)
    {
      TxsAfter(v, b, h);
      if h in v.txs {
        OldSpent(blocks, v, b, op);
      } else {
        var i :| 0 <= i < |b.txs| && b.txs[i].hash == h;
        NewSpent(blocks, v, b, i, op);
      }
    }
  }

  /** Attaching a block that passed verification keeps the indexes in order. */
  lemma AttachKeeps(blocks: map<Hash, Block>, v: View, b: Block)
    requires Attachable(blocks, v, b)
    ensures ViewOk(blocks, Attach(v, b), b.number + 1)
  {
    AttachTxs(blocks, v, b);
    AttachCellsOk(blocks, v, b);
    AttachSpent(blocks, v, b);
    AttachHeight(blocks, v, b);
  }

  // ----- Detaching undoes attaching -----

  lemma AttachableFacts(blocks: map<Hash, Block>, v: View, b: Block)
    requires Attachable(blocks, v, b)
    ensures Shaped(b) && Fresh(v, b)
  {
  }

  lemma DetachTxs(blocks: map<Hash, Block>, v: View, b: Block)
    requires Attachable(blocks, v, b)
    ensures Attach(v, b).txs - Hashes(b) == v.txs
  {
    hide Attach, Hashes, Attachable;
    AttachableFacts(blocks, v, b);
    forall h
      ensures h in Attach(v, b).txs - Hashes(b) <==> h in v.txs
      ensures h in v.txs ==> Attach(v, b).txs[h] == v.txs[h]
    {
      TxsAfter(v, b, h);
    }
  }

  lemma DetachCell(blocks: map<Hash, Block>, v: View, b: Block, op: OutPoint)
    requires Attachable(blocks, v, b)
    ensures op in v.cells ==> op !in Created(b, |b.txs|) && Lookup(blocks, v.txs, op) == Some(v.cells[op])
    ensures op in Spent(b, |b.txs|) ==> op in v.cells || op in Created(b, |b.txs|)
  {
    hide Created, Spent;
    CreatedAre(b, |b.txs|, op);
    if op in Spent(b, |b.txs|) {
      SpentAre(b, |b.txs|, op);
      var i :| SpentBy(b, |b.txs|, op, i);
      var k :| 0 <= k < |b.txs[i].inputs| && b.txs[i].inputs[k] == op;
      assert InputResolves(v, b, i, k);
      if op !in v.cells {
        var j :| 0 <= j < i && j < |b.txs| && b.txs[j].hash == op.tx && 0 <= op.index < |b.txs[j].outputs|;
        assert CreatedBy(b, |b.txs|, op, j);
      }
    }
  }

  lemma DetachCells(blocks: map<Hash, Block>, v: View, b: Block)
    requires Attachable(blocks, v, b)
    ensures (AttachCells(v.cells, b) + Restored(blocks, v.txs, Spent(b, |b.txs|))) - Created(b, |b.txs|).Keys == v.cells
  {
    hide Attachable, Fresh, Created, Spent, AttachCells, Lookup;
    var cells := (AttachCells(v.cells, b) + Restored(blocks, v.txs, Spent(b, |b.txs|))) - Created(b, |b.txs|).Keys;
    forall op
      ensures op in cells <==> op in v.cells
      ensures op in v.cells ==> op in cells && cells[op] == v.cells[op]
    {
      DetachCell(blocks, v, b, op);
      CellsAfter(v, b, op);
    }
  }

  /** For a block that passed verification, detaching is the inverse of attaching. */
  lemma DetachUndoes(blocks: map<Hash, Block>, v: View, b: Block)
    requires Attachable(blocks, v, b)
    ensures Detach(blocks, Attach(v, b), b) == v
  {
    DetachTxs(blocks, v, b);
    DetachCells(blocks, v, b);
    DetachIndex(blocks, v, b);
    hide AttachCells, Restored, Created, Spent, Infos;
  }

  lemma DetachIndex(blocks: map<Hash, Block>, v: View, b: Block)
    requires Attachable(blocks, v, b)
    ensures v.index[b.number := b.hash] - {b.number} == v.index
    ensures v.numbers[b.hash := b.number] - {b.hash} == v.numbers
  {
    assert b.number !in v.index && b.hash !in v.numbers;
    assert (v.index[b.number := b.hash] - {b.number}).Keys == v.index.Keys;
    assert (v.numbers[b.hash := b.number] - {b.hash}).Keys == v.numbers.Keys;
  }
}
