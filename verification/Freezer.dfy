/** The freezer of blocks: frozen blocks form a chain by parent hash, and the tip is the last. */
module ChainFreezer {
  import opened Basics
  import opened FreezerFormat
  import opened FreezerFiles

  type Byte32 = h: Bytes | |h| == 32 witness seq(32, i => 0)

  datatype Block = Block(hash: Byte32, parent: Byte32, body: Bytes)

  /** How blocks are written as bytes; reading gives back the block. */
  datatype Serial = Serial(write: Block -> Bytes, read: Bytes -> Option<Block>)

  ghost predicate Faithful(serial: Serial) {
    forall b: Block :: serial.read(serial.write(b)) == Some(b)
  }

  /** Each block names the one before it as its parent. */
  ghost predicate Linked(blocks: seq<Block>) {
    forall i :: 0 < i < |blocks| ==> blocks[i].parent == blocks[i - 1].hash
  }

  ghost function Written(serial: Serial, blocks: seq<Block>): (r: seq<Bytes>)
    ensures |r| == |blocks| && forall i :: 0 <= i < |blocks| ==> r[i] == serial.write(blocks[i])
  {
    seq(|blocks|, i requires 0 <= i < |blocks| => serial.write(blocks[i]))
  }

  function Tip(blocks: seq<Block>): Option<Block> {
    if blocks == [] then None else Some(blocks[|blocks| - 1])
  }

  /** Every file number and offset stays within its word while blocks of `source` are frozen up
      to number `n - 1`. */
  ghost predicate Roomy(f: Freezer, serial: Serial, source: int -> Option<Block>, n: int)
    reads f
  {
    && f.headId + (n - f.number) + 1 < Pow256(U32_SIZE)
    && f.maxSize < Pow256(U64_SIZE)
    && forall i :: f.number <= i < n && source(i).Some? ==>
                     |f.codec.enc(serial.write(source(i).value))| < Pow256(U64_SIZE)
  }

  lemma RoomyFits(f: Freezer, serial: Serial, source: int -> Option<Block>, n: int)
    requires f.Valid() && Roomy(f, serial, source, n) && f.number < n && source(f.number).Some?
    ensures FitsWords(f.NextEntry(f.codec.enc(serial.write(source(f.number).value))))
  {
    hide Pow256;
    assert f.entries[|f.entries| - 1].file >= 0;
  }

  class BlockFreezer {
    const files: Freezer
    const serial: Serial
    var tip: Option<Block>
    ghost var blocks: seq<Block>

    ghost predicate Valid()
      reads this, files
    {
      && Faithful(serial) && files.Valid()
      && Linked(blocks) && files.items == Written(serial, blocks) && tip == Tip(blocks)
    }

    /** Open on the files `f`, which hold the blocks `bs`. */
    constructor (f: Freezer, serial: Serial, ghost bs: seq<Block>)
      requires Faithful(serial) && f.Valid() && f.AtEnd() && Linked(bs) && f.items == Written(serial, bs)
      modifies f
      ensures Valid() && files == f && this.serial == serial && blocks == bs && files.AtEnd()
      ensures f.items == old(f.items) && f.entries == old(f.entries)
    {
      hide Lossless, FreezerRepair.Consistent, EncodeAll, HandlesOk;
      files, this.serial, tip, blocks := f, serial, None, bs;
      new;
      Count(f);
      if f.number > 1 {
        var raw := f.Retrieve(f.number - 1);
        var block := serial.read(raw.value.value);
        tip := block;
      }
    }

    lemma Lengths()
      requires Valid()
      ensures files.number == |blocks| + 1 && tip == Tip(blocks)
    {
      Count(files);
    }

    lemma FilesAreValid()
      requires Valid()
      ensures files.Valid()
    {
    }

    /** Freeze the block that follows the tip. */
    method FreezeOne(number: int, block: Block, ghost source: int -> Option<Block>, ghost n: int)
      requires Valid() && files.AtEnd() && Roomy(files, serial, source, n) && number == files.number < n
      requires source(number) == Some(block)
      requires tip.Some? ==> tip.value.hash == block.parent
      modifies this, files
      ensures Valid() && files.AtEnd() && blocks == old(blocks) + [block] && files.number == number + 1
      ensures Roomy(files, serial, source, n)
    {
      hide Lossless, FreezerRepair.Consistent, EncodeAll, HandlesOk, Pow256, FitsWords;
      Count(files);
      RoomyFits(files, serial, source, n);
      var appended := files.Append(number, serial.write(block));
      Count(files);
      tip := Some(block);
      WrittenSnoc(serial, blocks, block);
      blocks := blocks + [block];
    }

    /** Freeze blocks up to number `threshold - 1`, as given by `source`, until one is missing,
        one does not follow the tip, or `stop` blocks have been frozen. */
    method Freeze(threshold: int, source: int -> Option<Block>, stop: Option<nat>) returns (ok: bool)
      requires Valid() && files.AtEnd() && Roomy(files, serial, source, threshold)
      modifies this, files
      ensures Valid() && files.AtEnd()
      ensures Roomy(files, serial, source, threshold)
      ensures old(blocks) <= blocks && (stop.Some? ==> |blocks| <= |old(blocks)| + stop.value)
      ensures forall i :: |old(blocks)| <= i < |blocks| ==> source(i + 1) == Some(blocks[i])
      ensures !ok ==>
                |blocks| + 1 < threshold && source(|blocks| + 1).Some? && blocks != []
                && source(|blocks| + 1).value.parent != blocks[|blocks| - 1].hash
      ensures ok ==> |blocks| + 1 >= threshold || source(|blocks| + 1).None?
                     || (stop.Some? && |blocks| == |old(blocks)| + stop.value)
    {
      hide Valid, Roomy;
      Lengths();
      var number := files.number;
      var frozen := 0;
      while number < threshold
        invariant Valid() && files.AtEnd() && number == files.number
        invariant Roomy(files, serial, source, threshold)
        invariant old(blocks) <= blocks && frozen == |blocks| - |old(blocks)|
        invariant stop.Some? ==> frozen <= stop.value
        invariant forall i :: |old(blocks)| <= i < |blocks| ==> source(i + 1) == Some(blocks[i])
        decreases threshold - number
      {
        Lengths();
        if stop == Some(frozen) {
          return true;
        }
        var next := source(number);
        if next.None? {
          return true;
        }
        var block := next.value;
        if tip.Some? && tip.value.hash != block.parent {
          return false;
        }
        FreezeOne(number, block, source, threshold);
        number := number + 1;
        frozen := frozen + 1;
      }
      Lengths();
      ok := true;
    }

    /** Blocks from number 1 on that have been frozen, and no others, can be read back. */
    method Retrieve(number: int) returns (r: Result<Option<Bytes>>)
      requires Valid()
      modifies files
      ensures Valid() && blocks == old(blocks) && files.number == old(files.number) && files.headId == old(files.headId)
      ensures old(files.AtEnd()) && (number >= |blocks| || number < 1 || files.entries[number].file < files.headId) ==>
                files.AtEnd()
      ensures r == Ok(if 1 <= number <= |blocks| then Some(serial.write(blocks[number - 1])) else None)
    {
      hide Lossless, FreezerRepair.Consistent, EncodeAll, HandlesOk;
      Count(files);
      r := files.Retrieve(number);
    }

    /** Discard the blocks after number `item`. */
    method Truncate(item: int)
      requires Valid()
      modifies this, files
      ensures Valid()
      ensures if item > 0 && item < |old(blocks)| then blocks == old(blocks)[..item] && files.AtEnd()
              else blocks == old(blocks) && files.cursor == old(files.cursor)
    {
      hide Lossless, FreezerRepair.Consistent, EncodeAll, HandlesOk;
      Count(files);
      if item > 0 && item + 1 < files.number {
        files.Truncate(item);
        Count(files);
        var raw := files.Retrieve(item);
        tip := serial.read(raw.value.value);
        WrittenPrefix(serial, blocks, item);
        blocks := blocks[..item];
      }
    }
  }

  lemma WrittenPrefix(serial: Serial, blocks: seq<Block>, n: nat)
    requires n <= |blocks|
    ensures Written(serial, blocks[..n]) == Written(serial, blocks)[..n]
  {
  }

  lemma WrittenSnoc(serial: Serial, blocks: seq<Block>, b: Block)
    ensures Written(serial, blocks + [b]) == Written(serial, blocks) + [serial.write(b)]
  {
  }

  lemma Count(f: Freezer)
    requires f.Valid()
    ensures f.number == |f.items| + 1 && f.headId == f.entries[|f.entries| - 1].file && f.entries != []
  {
  }

  // ----- A freezer at work -----

  /** Hash, parent hash and body one after the other. */
  const BYTES := Serial((b: Block) => b.hash + b.parent + b.body,
                        (s: Bytes) => if |s| < 64 then None else Some(Block(s[..32], s[32..64], s[64..])))

  lemma BytesAreFaithful()
    ensures Faithful(BYTES)
  {
    forall b: Block
      ensures BYTES.read(BYTES.write(b)) == Some(b)
    {
      var s := b.hash + b.parent + b.body;
      assert s[..32] == b.hash && s[32..64] == b.parent && s[64..] == b.body;
    }
  }

  method NewBlockFreezer() returns (f: BlockFreezer)
    ensures fresh(f) && fresh(f.files) && f.Valid() && f.files.AtEnd() && f.blocks == []
    ensures f.serial == BYTES && f.files.codec == PLAIN && f.files.maxSize == 1000 && f.files.number == 1
            && f.files.headId == 0
  {
    hide EncodeAll, FreezerRepair.Repair, FreezerFormat.StoredAs, Pow256, Lossless, Faithful;
    NewFreezer();
    var files := OpenFreezer(PLAIN, 1000, 2, map[], [], [Entry(0, 0)], []);
    BytesAreFaithful();
    var none: seq<Block> := [];
    assert Written(BYTES, none) == [];
    f := new BlockFreezer(files, BYTES, none);
    NewHead(files);
  }

  function Two(a: Block, b: Block): int -> Option<Block> {
    (i: int) => if i == 1 then Some(a) else if i == 2 then Some(b) else None
  }

  lemma RoomForTwo(f: Freezer, a: Block, b: Block)
    requires f.codec == PLAIN && f.maxSize == 1000 && f.number == 1 && f.headId == 0 && f.Valid()
    requires |BYTES.write(a)| < Pow256(U64_SIZE) && |BYTES.write(b)| < Pow256(U64_SIZE)
    ensures Roomy(f, BYTES, Two(a, b), 3)
  {
    NewHead(f);
  }

  lemma TwoAre(blocks: seq<Block>, a: Block, b: Block)
    requires forall i :: 0 <= i < |blocks| ==> Two(a, b)(i + 1) == Some(blocks[i])
    ensures |blocks| == 2 ==> blocks == [a, b]
    ensures |blocks| == 1 ==> blocks == [a]
  {
    if |blocks| > 0 {
      assert Two(a, b)(1) == Some(blocks[0]);
    }
    if |blocks| > 1 {
      assert Two(a, b)(2) == Some(blocks[1]);
    }
  }

  /** In a new freezer, a block can be frozen and read back, then its child, and then more. */
  method FreezeTwo(a: Block, b: Block)
    returns (f: BlockFreezer, first: Result<Option<Bytes>>, second: Result<Option<Bytes>>)
    requires b.parent == a.hash
    requires |BYTES.write(a)| < Pow256(U64_SIZE) && |BYTES.write(b)| < Pow256(U64_SIZE)
    ensures f.Valid() && f.files.AtEnd() && f.blocks == [a, b] && f.tip == Some(b)
    ensures first == Ok(Some(BYTES.write(a))) && second == Ok(Some(BYTES.write(b)))
  {
    hide Pow256, BlockFreezer.Valid;
    f := NewBlockFreezer();
    f.Lengths();
    f.FilesAreValid();
    RoomForTwo(f.files, a, b);
    var ok := f.Freeze(3, Two(a, b), Some(1));
    TwoAre(f.blocks, a, b);
    first := f.Retrieve(1);
    f.Lengths();
    ok := f.Freeze(3, Two(a, b), None);
    f.Lengths();
    TwoAre(f.blocks, a, b);
    second := f.Retrieve(2);
    f.Lengths();
  }
}
