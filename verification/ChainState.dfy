/** Blocks, the indexes the store keeps for the main chain, and what attaching a block to it and
    detaching one from it do to them. */
module ChainState {
  import opened Basics

  type Hash = int

  datatype OutPoint = OutPoint(tx: Hash, index: int)

  datatype Tx = Tx(hash: Hash, since: int, inputs: seq<OutPoint>, outputs: seq<int>)

  datatype Block = Block(hash: Hash, parent: Hash, number: int, difficulty: nat, txs: seq<Tx>, proposals: set<int>)

  datatype TxInfo = TxInfo(block: Hash, number: int, index: int)

  datatype Cell = Cell(output: int, block: Hash, number: int, index: int)

  /** The columns of the store that describe the main chain: hashes by number and numbers by
      hash, the place of every transaction, and the live cells. */
  datatype View = View(index: map<int, Hash>, numbers: map<Hash, int>, txs: map<Hash, TxInfo>,
                       cells: map<OutPoint, Cell>)

  const EMPTY_VIEW := View(map[], map[], map[], map[])

  /** The out point of the one input of a cellbase. */
  const NULL_POINT := OutPoint(0, 0xFFFF_FFFF)

  predicate IsCellbase(tx: Tx) {
    tx.inputs == [NULL_POINT]
  }

  // ----- Live cells -----

  function Points(tx: Tx): set<OutPoint> {
    set j | 0 <= j < |tx.outputs| :: OutPoint(tx.hash, j)
  }

  function CellAt(b: Block, i: int, op: OutPoint): Cell
    requires 0 <= i < |b.txs| && op in Points(b.txs[i])
  {
    Cell(b.txs[i].outputs[op.index], b.hash, b.number, i)
  }

  function Outputs(b: Block, i: int): map<OutPoint, Cell>
    requires 0 <= i < |b.txs|
  {
    map op | op in Points(b.txs[i]) :: CellAt(b, i, op)
  }

  /** The outputs of the first `n` transactions of `b`. */
  function Created(b: Block, n: nat): map<OutPoint, Cell>
    requires n <= |b.txs|
  {
    if n == 0 then map[] else Created(b, n - 1) + Outputs(b, n - 1)
  }

  function Inputs(tx: Tx): set<OutPoint> {
    set op | op in tx.inputs
  }

  /** The inputs of the transactions of `b` before the `n`th, the cellbase left out. */
  function Spent(b: Block, n: nat): set<OutPoint>
    requires n <= |b.txs|
  {
    if n <= 1 then {} else Spent(b, n - 1) + Inputs(b.txs[n - 1])
  }

  function AttachCells(cells: map<OutPoint, Cell>, b: Block): map<OutPoint, Cell> {
    (cells + Created(b, |b.txs|)) - Spent(b, |b.txs|)
  }

  /** The cell that `op` names, according to the index of transactions. */
  function Lookup(blocks: map<Hash, Block>, txs: map<Hash, TxInfo>, op: OutPoint): Option<Cell> {
    if op.tx !in txs then None
    else
      var info := txs[op.tx];
      if info.block !in blocks || !(0 <= info.index < |blocks[info.block].txs|) then None
      else
        var tx := blocks[info.block].txs[info.index];
        if 0 <= op.index < |tx.outputs| then Some(Cell(tx.outputs[op.index], info.block, info.number, info.index))
        else None
  }

  /** The cells of `points` that can be found. */
  function Restored(blocks: map<Hash, Block>, txs: map<Hash, TxInfo>, points: set<OutPoint>): map<OutPoint, Cell> {
    map op | op in points && Lookup(blocks, txs, op).Some? :: Lookup(blocks, txs, op).value
  }

  // ----- Attaching and detaching -----

  function Hashes(b: Block): set<Hash> {
    set i | 0 <= i < |b.txs| :: b.txs[i].hash
  }

  function Infos(b: Block, n: nat): map<Hash, TxInfo>
    requires n <= |b.txs|
  {
    if n == 0 then map[] else Infos(b, n - 1)[b.txs[n - 1].hash := TxInfo(b.hash, b.number, n - 1)]
  }

  function Attach(v: View, b: Block): View {
    View(v.index[b.number := b.hash], v.numbers[b.hash := b.number], v.txs + Infos(b, |b.txs|), AttachCells(v.cells, b))
  }

  function Detach(blocks: map<Hash, Block>, v: View, b: Block): View {
    var txs := v.txs - Hashes(b);
    View(v.index - {b.number}, v.numbers - {b.hash}, txs,
         (v.cells + Restored(blocks, txs, Spent(b, |b.txs|))) - Created(b, |b.txs|).Keys)
  }

  // ----- What verification of a block establishes -----

  /** Only the first transaction is a cellbase, it commits to the number of the block, and no
      transaction occurs twice. */
  ghost predicate Shaped(b: Block) {
    && b.txs != []
    && IsCellbase(b.txs[0]) && b.txs[0].since == b.number
    && (forall i :: 0 < i < |b.txs| ==> !IsCellbase(b.txs[i]))
    && (forall i, j :: 0 <= i < j < |b.txs| ==> b.txs[i].hash != b.txs[j].hash)
  }

  /** What is checked of a block before its place in the chain is known. */
  ghost predicate WellFormed(b: Block) {
    Shaped(b) && b.number > 0 && forall i :: 0 < i < |b.txs| ==> b.txs[i].inputs != []
  }

  /** The transactions of the first block spend nothing. */
  ghost predicate GenesisFormed(b: Block) {
    Shaped(b) && b.number == 0 && forall i :: 0 < i < |b.txs| ==> b.txs[i].inputs == []
  }

  /** `op` is an output of a transaction of `b` before the `n`th. */
  predicate InBlock(b: Block, n: int, op: OutPoint) {
    exists i :: 0 <= i < n && i < |b.txs| && b.txs[i].hash == op.tx && 0 <= op.index < |b.txs[i].outputs|
  }

  /** The `k`th input of the `i`th transaction refers to no transaction of the block from the
      `i`th on. */
  predicate InOrder(b: Block, i: int, k: int)
    requires 0 <= i < |b.txs| && 0 <= k < |b.txs[i].inputs|
  {
    forall j :: i <= j < |b.txs| ==> b.txs[j].hash != b.txs[i].inputs[k].tx
  }

  /** It is live, or an output of an earlier transaction of the block, and not spent before. */
  predicate InputResolves(v: View, b: Block, i: int, k: int)
    requires 0 <= i < |b.txs| && 0 <= k < |b.txs[i].inputs|
  {
    var op := b.txs[i].inputs[k];
    && InOrder(b, i, k)
    && op !in Spent(b, i)
    && op !in b.txs[i].inputs[..k]
    && (op in v.cells || InBlock(b, i, op))
  }

  predicate Resolves(v: View, b: Block) {
    forall i, k :: 0 < i < |b.txs| && 0 <= k < |b.txs[i].inputs| ==> InputResolves(v, b, i, k)
  }
}
