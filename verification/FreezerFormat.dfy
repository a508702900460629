/** The files of the freezer as bytes: index entries of twelve bytes, and the data files they
    point into. */
module FreezerFormat {
  import opened Basics

  type Bytes = seq<Byte>

  const ENTRY_SIZE: nat := 12
  const U32_SIZE: nat := 4
  const U64_SIZE: nat := 8

  /** End of an item: the data file it is in and the offset of the byte after it. */
  datatype Entry = Entry(file: int, offset: int)

  predicate FitsWords(e: Entry) {
    0 <= e.file < Pow256(U32_SIZE) && 0 <= e.offset < Pow256(U64_SIZE)
  }

  function Encode(e: Entry): (r: Bytes)
    ensures |r| == ENTRY_SIZE
  {
    Le(e.file, U32_SIZE) + Le(e.offset, U64_SIZE)
  }

  function Decode(raw: Bytes): Entry
    requires |raw| == ENTRY_SIZE
  {
    Entry(FromLe(raw[..U32_SIZE]), FromLe(raw[U32_SIZE..]))
  }

  lemma DecodeEncode(e: Entry)
    requires FitsWords(e)
    ensures Decode(Encode(e)) == e
  {
    hide Pow256;
    LeRoundTrip(e.file, U32_SIZE);
    LeRoundTrip(e.offset, U64_SIZE);
    assert Encode(e)[..U32_SIZE] == Le(e.file, U32_SIZE) && Encode(e)[U32_SIZE..] == Le(e.offset, U64_SIZE);
  }

  /** The twelve bytes of an entry: the file in four, then the offset in eight, each from its lowest
      byte on. */
  lemma EncodeBytes(e: Entry, r: Bytes)
    requires r == Encode(e)
    ensures r[0] as int == e.file % 256 && r[1] as int == e.file / 0x100 % 256
    ensures r[2] as int == e.file / 0x1_0000 % 256 && r[3] as int == e.file / 0x100_0000 % 256
    ensures r[4] as int == e.offset % 256 && r[5] as int == e.offset / 0x100 % 256
    ensures r[6] as int == e.offset / 0x1_0000 % 256 && r[7] as int == e.offset / 0x100_0000 % 256
    ensures r[8] as int == e.offset / 0x1_0000_0000 % 256 && r[9] as int == e.offset / 0x100_0000_0000 % 256
    ensures r[10] as int == e.offset / 0x1_0000_0000_0000 % 256
    ensures r[11] as int == e.offset / 0x100_0000_0000_0000 % 256
  {
    hide Le, Pow256;
    forall i | 0 <= i < U32_SIZE
      ensures r[i] as int == e.file / Pow256(i) % 256
    {
      LeDigit(e.file, U32_SIZE, i);
    }
    forall i | 0 <= i < U64_SIZE
      ensures r[U32_SIZE + i] as int == e.offset / Pow256(i) % 256
    {
      LeDigit(e.offset, U64_SIZE, i);
    }
    Weights();
  }

  lemma Weights()
    ensures Pow256(0) == 1 && Pow256(1) == 0x100 && Pow256(2) == 0x1_0000 && Pow256(3) == 0x100_0000
    ensures Pow256(4) == 0x1_0000_0000 && Pow256(5) == 0x100_0000_0000 && Pow256(6) == 0x1_0000_0000_0000
    ensures Pow256(7) == 0x100_0000_0000_0000
  {
  }

  /** An index file. */
  function EncodeAll(entries: seq<Entry>): (r: Bytes)
    ensures |r| == ENTRY_SIZE * |entries|
  {
    if entries == [] then [] else EncodeAll(entries[..|entries| - 1]) + Encode(entries[|entries| - 1])
  }

  lemma {:induction false} EncodePrefix(entries: seq<Entry>, n: nat)
    requires n <= |entries|
    ensures EncodeAll(entries)[..ENTRY_SIZE * n] == EncodeAll(entries[..n])
    decreases |entries|
  {
    if n == |entries| {
      assert entries[..n] == entries;
    } else {
      var shorter := entries[..|entries| - 1];
      EncodePrefix(shorter, n);
      assert shorter[..n] == entries[..n];
      assert EncodeAll(entries)[..ENTRY_SIZE * n] == EncodeAll(shorter)[..ENTRY_SIZE * n];
    }
  }

  lemma EncodeSnoc(entries: seq<Entry>, e: Entry)
    ensures EncodeAll(entries + [e]) == EncodeAll(entries) + Encode(e)
  {
    assert (entries + [e])[..|entries|] == entries;
  }

  /** Reading twelve bytes at the place of the `i`th entry gives that entry. */
  lemma DecodeAt(entries: seq<Entry>, i: nat)
    requires i < |entries| && FitsWords(entries[i])
    ensures Decode(EncodeAll(entries)[ENTRY_SIZE * i..ENTRY_SIZE * i + ENTRY_SIZE]) == entries[i]
  {
    hide Encode, Decode, FitsWords;
    EncodePrefix(entries, i + 1);
    var upTo := entries[..i + 1];
    assert upTo[..i] == entries[..i];
    var all := EncodeAll(entries);
    assert all[ENTRY_SIZE * i..ENTRY_SIZE * i + ENTRY_SIZE] == all[..ENTRY_SIZE * (i + 1)][ENTRY_SIZE * i..];
    assert EncodeAll(upTo)[ENTRY_SIZE * i..] == Encode(entries[i]);
    DecodeEncode(entries[i]);
  }

  // ----- Items -----

  /** Offset at which the `i`th item starts. */
  function StartOf(entries: seq<Entry>, i: nat): int
    requires 0 < i < |entries|
  {
    if entries[i - 1].file == entries[i].file then entries[i - 1].offset else 0
  }

  /** The data files hold `data` where entry `i` says. */
  predicate Holds(disk: map<int, Bytes>, entries: seq<Entry>, i: nat, data: Bytes)
    requires 0 < i < |entries|
  {
    && entries[i].file in disk
    && 0 <= StartOf(entries, i) <= entries[i].offset <= |disk[entries[i].file]|
    && disk[entries[i].file][StartOf(entries, i)..entries[i].offset] == data
  }

  /** The index starts at offset 0, and file numbers never decrease. */
  ghost predicate EntriesOk(entries: seq<Entry>) {
    && entries != [] && entries[0].offset == 0
    && (forall i :: 0 <= i < |entries| ==> FitsWords(entries[i]))
    && (forall i, j :: 0 <= i <= j < |entries| ==> entries[i].file <= entries[j].file)
  }

  predicate ItemOk(disk: map<int, Bytes>, entries: seq<Entry>, stored: seq<Bytes>, i: int) {
    0 < i < |entries| && i <= |stored| && Holds(disk, entries, i, stored[i - 1])
  }

  /** The items of a freezer, in the form in which they are stored. */
  ghost predicate StoredAs(disk: map<int, Bytes>, entries: seq<Entry>, stored: seq<Bytes>) {
    && |stored| == |entries| - 1
    && forall i :: 0 < i < |entries| ==> ItemOk(disk, entries, stored, i)
  }

  lemma StoredPrefix(disk: map<int, Bytes>, entries: seq<Entry>, stored: seq<Bytes>, n: nat)
    requires StoredAs(disk, entries, stored) && 0 < n <= |entries|
    ensures StoredAs(disk, entries[..n], stored[..n - 1])
  {
    var shorter, fewer := entries[..n], stored[..n - 1];
    forall i | 0 < i < n
      ensures ItemOk(disk, shorter, fewer, i)
    {
      assert ItemOk(disk, entries, stored, i);
    }
  }

  /** Files may grow at the end, be cut after the last byte in use, or come and go when no
      entry names them. */
  ghost predicate Covers(disk: map<int, Bytes>, disk': map<int, Bytes>, entries: seq<Entry>) {
    forall i :: 0 < i < |entries| && entries[i].file in disk && 0 <= entries[i].offset <= |disk[entries[i].file]| ==>
      && entries[i].file in disk'
      && entries[i].offset <= |disk'[entries[i].file]|
      && disk'[entries[i].file][..entries[i].offset] == disk[entries[i].file][..entries[i].offset]
  }

  lemma StoredFrame(disk: map<int, Bytes>, disk': map<int, Bytes>, entries: seq<Entry>, stored: seq<Bytes>)
    requires StoredAs(disk, entries, stored) && Covers(disk, disk', entries)
    ensures StoredAs(disk', entries, stored)
  {
    forall i | 0 < i < |entries|
      ensures ItemOk(disk', entries, stored, i)
    {
      assert ItemOk(disk, entries, stored, i);
      var e := entries[i];
      var s := StartOf(entries, i);
      assert disk[e.file][s..e.offset] == disk[e.file][..e.offset][s..];
      assert disk'[e.file][s..e.offset] == disk'[e.file][..e.offset][s..];
    }
  }

  /** One more item at the end. */
  lemma StoredSnoc(disk: map<int, Bytes>, entries: seq<Entry>, stored: seq<Bytes>, e: Entry, data: Bytes)
    requires StoredAs(disk, entries, stored) && entries != []
    requires Holds(disk, entries + [e], |entries|, data)
    ensures StoredAs(disk, entries + [e], stored + [data])
  {
    var longer, more := entries + [e], stored + [data];
    forall i | 0 < i < |longer|
      ensures ItemOk(disk, longer, more, i)
    {
      if i < |entries| {
        assert ItemOk(disk, entries, stored, i);
      }
    }
  }
}
