/** The freezer's files as an object. What it promises is a sequence of items: append adds one
    at the end, retrieve returns one, truncate keeps a beginning. */
module FreezerFiles {
  import opened Basics
  import opened FreezerFormat
  import opened FreezerRepair

  /** Compression of items; decompression gives back what was compressed. */
  datatype Codec = Codec(enc: Bytes -> Bytes, dec: Bytes -> Option<Bytes>)

  ghost predicate Lossless(codec: Codec) {
    forall x: Bytes :: codec.dec(codec.enc(x)) == Some(x)
  }

  ghost function EncAll(codec: Codec, items: seq<Bytes>): (r: seq<Bytes>)
    ensures |r| == |items| && forall i :: 0 <= i < |items| ==> r[i] == codec.enc(items[i])
  {
    seq(|items|, i requires 0 <= i < |items| => codec.enc(items[i]))
  }

  /** An open data file in the cache. A handle that was cloned from the head file shares its
      position. */
  datatype Handle = Handle(id: int, shared: bool)

  datatype Result<T> = Ok(value: T) | Failed

  /** What writing `data` at position `at` makes of a file. */
  function Overwrite(content: Bytes, at: nat, data: Bytes): Bytes
    requires at <= |content|
  {
    content[..at] + data + (if at + |data| < |content| then content[at + |data|..] else [])
  }

  // ----- The cache of open files -----

  function Without(files: seq<Handle>, id: int): (r: seq<Handle>)
    ensures forall h :: h in r <==> h in files && h.id != id
    ensures |r| <= |files|
  {
    if files == [] then [] else (if files[0].id == id then [] else [files[0]]) + Without(files[1..], id)
  }

  /** Put a handle in front, dropping the least recently used one when there are too many. */
  function Put(files: seq<Handle>, limit: nat, h: Handle): (r: seq<Handle>)
    ensures forall g :: g in r ==> g == h || (g in files && g.id != h.id)
  {
    var more := [h] + Without(files, h.id);
    if |more| > limit then more[..limit] else more
  }

  function Find(files: seq<Handle>, id: int): (r: Option<Handle>)
    ensures r.Some? ==> r.value in files && r.value.id == id
  {
    if files == [] then None else if files[0].id == id then Some(files[0]) else Find(files[1..], id)
  }

  lemma {:induction false} WithoutAbsent(files: seq<Handle>, id: int)
    requires forall h :: h in files ==> h.id != id
    ensures Without(files, id) == files
  {
    if files != [] {
      WithoutAbsent(files[1..], id);
      assert files == [files[0]] + files[1..];
    }
  }

  /** File `k` comes after `id` and is open. */
  predicate OpenAfter(files: seq<Handle>, id: int, k: int) {
    k > id && exists h :: h in files && h.id == k
  }

  lemma OneMoreHandle(files: seq<Handle>, i: nat, id: int)
    requires i < |files|
    ensures forall k :: OpenAfter(files[..i + 1], id, k) <==>
                          OpenAfter(files[..i], id, k) || (k > id && k == files[i].id)
  {
    assert files[..i + 1] == files[..i] + [files[i]];
    assert files[i] in files[..i + 1];
  }

  /** The handles on the files from `tail` to before `next`, the latest first, as many as may be
      open at a time. */
  function Latest(tail: int, next: int, limit: nat): seq<Handle>
    requires tail <= next
  {
    seq(if next - tail < limit then next - tail else limit, i => Handle(next - 1 - i, false))
  }

  lemma OpenNext(tail: int, next: int, limit: nat, shared: bool)
    requires tail <= next
    ensures Put(Latest(tail, next, limit), limit, Handle(next, shared))
            == if limit == 0 then [] else [Handle(next, shared)] + Latest(tail, next, limit - 1)
  {
    var files, h := Latest(tail, next, limit), Handle(next, shared);
    WithoutAbsent(files, next);
    hide Without;
    var more := [h] + files;
    if limit > 0 {
      var fewer := Latest(tail, next, limit - 1);
      assert |fewer| <= |files| && forall i :: 0 <= i < |fewer| ==> fewer[i] == files[i];
      assert (if |more| > limit then more[..limit] else more) == [h] + fewer;
    }
  }

  lemma LatestStep(tail: int, next: int, limit: nat)
    requires tail <= next
    ensures (if limit == 0 then [] else [Handle(next, false)] + Latest(tail, next, limit - 1))
            == Latest(tail, next + 1, limit)
  {
  }

  lemma NoneOpen(tail: int, limit: nat)
    ensures Latest(tail, tail, limit) == []
  {
  }

  lemma PutInFront(files: seq<Handle>, limit: nat, h: Handle)
    ensures limit > 0 ==> Find(Put(files, limit, h), h.id) == Some(h)
  {
  }

  lemma LatestOk(tail: int, head: int, limit: nat)
    requires tail <= head
    ensures HandlesOk(if limit == 0 then [] else [Handle(head, true)] + Latest(tail, head, limit - 1), tail, head)
  {
  }

  /** Only files in use are open, and only a handle on the head file shares its position. */
  ghost predicate HandlesOk(files: seq<Handle>, tail: int, head: int) {
    forall h :: h in files ==> tail <= h.id <= head && (h.shared ==> h.id == head)
  }

  lemma IndexLength(entries: seq<Entry>, item: nat)
    ensures |EncodeAll(entries)| < item * ENTRY_SIZE + ENTRY_SIZE <==> |entries| <= item
  {
  }

  /** The bytes within the bounds of an item are the item. */
  lemma ReadBack(disk: map<int, Bytes>, entries: seq<Entry>, codec: Codec, items: seq<Bytes>, i: nat)
    requires Lossless(codec) && StoredAs(disk, entries, EncAll(codec, items)) && 0 < i < |entries|
    ensures entries[i].file in disk && 0 <= StartOf(entries, i) <= entries[i].offset <= |disk[entries[i].file]|
    ensures codec.dec(disk[entries[i].file][StartOf(entries, i)..entries[i].offset]) == Some(items[i - 1])
  {
    assert ItemOk(disk, entries, EncAll(codec, items), i);
  }

  lemma FileInUse(disk: map<int, Bytes>, entries: seq<Entry>, stored: seq<Bytes>, i: nat)
    requires Consistent(disk, entries, stored) && i < |entries|
    ensures entries[0].file <= entries[i].file <= entries[|entries| - 1].file
    ensures entries[i].file == entries[|entries| - 1].file ==> entries[i].offset <= entries[|entries| - 1].offset
  {
    KeptBelow(disk, entries, stored, i, |entries| - 1);
  }

  lemma OpenOk(files: seq<Handle>, limit: nat, tail: int, head: int, id: int)
    requires HandlesOk(files, tail, head) && tail <= id <= head
    ensures HandlesOk(Put(files, limit, Handle(id, false)), tail, head)
    ensures Find(files, id).Some? ==>
              HandlesOk(Put(files, limit, Find(files, id).value), tail, head)
              && (Find(files, id).value.shared ==> id == head)
  {
  }

  lemma EncAllSnoc(codec: Codec, items: seq<Bytes>, input: Bytes)
    ensures EncAll(codec, items + [input]) == EncAll(codec, items) + [codec.enc(input)]
  {
  }

  lemma OverwriteAtEnd(content: Bytes, at: nat, data: Bytes)
    requires at <= |content| && (at == |content| || data == [])
    ensures Overwrite(content, at, data) == content + data
  {
  }

  lemma EncAllPrefix(codec: Codec, items: seq<Bytes>, n: nat)
    requires n <= |items|
    ensures EncAll(codec, items[..n]) == EncAll(codec, items)[..n]
  {
  }

  lemma LastEntry(entries: seq<Entry>, i: nat)
    requires EntriesOk(entries) && i < |entries|
    ensures |EncodeAll(entries)| == ENTRY_SIZE * |entries|
    ensures i == 0 ==> Decode(EncodeAll(entries)[..ENTRY_SIZE]) == entries[0]
    ensures i == |entries| - 1 ==> Decode(EncodeAll(entries)[|EncodeAll(entries)| - ENTRY_SIZE..]) == entries[i]
  {
    hide EncodeAll, Decode;
    DecodeAt(entries, i);
    var all := EncodeAll(entries);
    if i == 0 {
      assert all[..ENTRY_SIZE] == all[ENTRY_SIZE * i..ENTRY_SIZE * i + ENTRY_SIZE];
    }
    if i == |entries| - 1 {
      assert all[|all| - ENTRY_SIZE..] == all[ENTRY_SIZE * i..ENTRY_SIZE * i + ENTRY_SIZE];
    }
  }

  lemma FirstEntries(entries: seq<Entry>)
    requires EntriesOk(entries)
    ensures entries != [] && |EncodeAll(entries)| >= ENTRY_SIZE
    ensures Repairable(entries)
  {
  }

  /** An entry that reaches beyond the end of a file is not the first. */
  lemma DroppedEntry(entries: seq<Entry>)
    requires EntriesOk(entries) && entries[|entries| - 1].offset > 0
    ensures |entries| > 1 && EntriesOk(entries[..|entries| - 1])
    ensures EncodeAll(entries)[..|EncodeAll(entries)| - ENTRY_SIZE] == EncodeAll(entries[..|entries| - 1])
  {
    hide EncodeAll, FitsWords;
    EncodePrefix(entries, |entries| - 1);
    assert ENTRY_SIZE * (|entries| - 1) == |EncodeAll(entries)| - ENTRY_SIZE;
  }

  lemma EntryCount(entries: seq<Entry>)
    ensures |EncodeAll(entries)| / ENTRY_SIZE == |entries|
  {
  }

  /** Writing all of `data` at the end of the target file. */
  lemma Appended(disk: map<int, Bytes>, head: int, maxSize: nat, data: Bytes, disk': map<int, Bytes>, at: nat)
    requires head in disk && at <= |disk[head]|
    requires |disk[head]| + |data| > maxSize ==> disk' == disk[head + 1 := []][head + 1 := Overwrite([], 0, data)]
    requires |disk[head]| + |data| <= maxSize ==>
               disk' == disk[head := Overwrite(disk[head], at, data)] && (at == |disk[head]| || data == [])
    ensures disk' == PartialDisk(disk, head, maxSize, data, |data|)
  {
    assert data[..|data|] == data;
    OverwriteAtEnd([], 0, data);
    if |disk[head]| + |data| <= maxSize {
      OverwriteAtEnd(disk[head], at, data);
    }
  }

  /** Writing before the end of the head file leaves the last entry pointing beyond it. */
  lemma Overwritten(disk: map<int, Bytes>, entries: seq<Entry>, disk': map<int, Bytes>, e: Entry, data: Bytes, at: nat)
    requires entries != [] && e.file in disk && at < |disk[e.file]| && data != [] && e.offset == |disk[e.file]| + |data|
    requires disk' == disk[e.file := Overwrite(disk[e.file], at, data)]
    ensures forall stored :: !StoredAs(disk', entries + [e], stored)
  {
    assert |disk'[e.file]| < e.offset;
    forall stored
      ensures !StoredAs(disk', entries + [e], stored)
    {
      assert !ItemOk(disk', entries + [e], stored, |entries|);
    }
  }

  class Freezer {
    const codec: Codec
    const maxSize: nat
    const limit: nat
    var disk: map<int, Bytes>
    var index: Bytes
    var files: seq<Handle>
    var number: int
    var tailId: int
    var headId: int
    var headFile: int // the file the head handle is open on
    var headBytes: int
    var cursor: int   // the position of the head handle

    ghost var entries: seq<Entry>
    ghost var items: seq<Bytes>

    /** The files hold the items, and the handles are on the files they should be on. */
    ghost predicate Valid()
      reads this
    {
      && Lossless(codec)
      && Consistent(disk, entries, EncAll(codec, items))
      && index == EncodeAll(entries) && number == |entries|
      && tailId == entries[0].file
      && headId == headFile == entries[|entries| - 1].file
      && headBytes == entries[|entries| - 1].offset
      && 0 <= cursor <= headBytes
      && HandlesOk(files, tailId, headId)
    }

    /** The head handle is at the end of the head file. */
    predicate AtEnd()
      reads `cursor, `headBytes
    {
      cursor == headBytes
    }

    // ----- Reading -----

    /** The bounds of an item: the offsets of its first byte and of the byte after its last, and
        the file it is in. */
    method GetBounds(item: int) returns (r: Option<(int, int, int)>)
      requires Valid() && item >= 1
      ensures r == (if item < number then Some((StartOf(entries, item), entries[item].offset, entries[item].file))
                    else None)
    {
      hide EncodeAll, Decode, StoredAs, EncAll, Lossless, HandlesOk;
      IndexLength(entries, item);
      if |index| < item * ENTRY_SIZE + ENTRY_SIZE {
        return None;
      }
      DecodeAt(entries, item);
      var end := Decode(index[ENTRY_SIZE * item..ENTRY_SIZE * item + ENTRY_SIZE]);
      if item == 1 {
        return Some((0, end.offset, end.file));
      }
      DecodeAt(entries, item - 1);
      var start := Decode(index[ENTRY_SIZE * (item - 1)..ENTRY_SIZE * (item - 1) + ENTRY_SIZE]);
      if start.file != end.file {
        return Some((0, end.offset, end.file));
      }
      return Some((start.offset, end.offset, end.file));
    }

    /** Exactly the items from 1 on that have been appended can be retrieved. Whatever files are
        open, only reading from the head file through a handle cloned from it moves the head. */
    method Retrieve(item: int) returns (r: Result<Option<Bytes>>)
      requires Valid()
      modifies `files, `cursor
      ensures Valid()
      ensures r == Ok(if 1 <= item < number then Some(items[item - 1]) else None)
      ensures cursor == (if 1 <= item < number
                         && Find(old(files), entries[item].file) == Some(Handle(entries[item].file, true))
                         then entries[item].offset else old(cursor))
      ensures old(AtEnd()) && (item == number - 1 || item < 1 || item >= number || entries[item].file < headId) ==>
                AtEnd()
    {
      hide EncodeAll, StoredAs, EncAll, HandlesOk, Put, Find;
      if item < 1 {
        return Ok(None);
      }
      if number <= item {
        return Ok(None);
      }
      var bounds := GetBounds(item);
      var (start, end, id) := bounds.value;
      ReadBack(disk, entries, codec, items, item);
      FileInUse(disk, entries, EncAll(codec, items), item);
      var data := disk[id][start..end];
      var found := Find(files, id);
      OpenOk(files, limit, tailId, headId, id);
      if found.Some? {
        files := Put(files, limit, found.value);
        if found.value.shared {
          cursor := end;
        }
      } else {
        files := Put(files, limit, Handle(id, false));
      }
      var plain := codec.dec(data);
      if plain.None? {
        return Failed;
      }
      return Ok(Some(plain.value));
    }

    // ----- Appending -----

    predicate RollsOver(data: Bytes)
      reads `headBytes
    {
      headBytes + |data| > maxSize
    }

    /** Where the next item would end. */
    function NextEntry(data: Bytes): Entry
      reads `headId, `headBytes
    {
      if RollsOver(data) then Entry(headId + 1, |data|) else Entry(headId, headBytes + |data|)
    }

    /** Writing at the position of the head handle adds at the end of the file. */
    predicate WritesAtEnd(data: Bytes)
      reads `cursor, `headBytes
    {
      cursor == headBytes || RollsOver(data) || data == []
    }

    /** Start a new head file and keep the old one open for reading. */
    method OpenNextFile()
      modifies `disk, `files, `headId, `headFile, `headBytes, `cursor
      ensures disk == old(disk)[old(headId) + 1 := []]
      ensures headId == headFile == old(headId) + 1 && headBytes == cursor == 0
      ensures HandlesOk(old(files), tailId, old(headId)) && tailId <= old(headId) ==> HandlesOk(files, tailId, headId)
    {
      var nextId := headId + 1;
      disk := disk[nextId := []];
      files := Put(files, limit, Handle(nextId, true));
      files := Without(files, headId);
      files := Put(files, limit, Handle(headId, false));
      headId := nextId;
      headFile := nextId;
      headBytes := 0;
      cursor := 0;
    }

    /** Write at the position of the head handle. */
    method WriteHead(data: Bytes)
      requires headFile in disk && 0 <= cursor <= |disk[headFile]|
      modifies `disk, `cursor, `headBytes
      ensures disk == old(disk)[headFile := Overwrite(old(disk)[headFile], old(cursor), data)]
      ensures cursor == old(cursor) + |data| && headBytes == old(headBytes) + |data|
    {
      disk := disk[headFile := Overwrite(disk[headFile], cursor, data)];
      cursor := cursor + |data|;
      headBytes := headBytes + |data|;
    }

    /** Write the bytes of an item and its index entry. */
    method WriteItem(data: Bytes)
      requires headFile == headId && headId in disk && 0 <= cursor <= |disk[headId]| == headBytes && tailId <= headId
      requires HandlesOk(files, tailId, headId)
      modifies `disk, `files, `headId, `headFile, `headBytes, `cursor, `index, `number
      ensures headId == headFile == old(NextEntry(data)).file && headBytes == old(NextEntry(data)).offset
      ensures index == old(index) + Encode(old(NextEntry(data))) && number == old(number) + 1
      ensures HandlesOk(files, tailId, headId) && (!old(RollsOver(data)) ==> files == old(files))
      ensures old(RollsOver(data)) ==>
                disk == old(disk)[old(headId) + 1 := []][old(headId) + 1 := Overwrite([], 0, data)] && cursor == |data|
      ensures !old(RollsOver(data)) ==>
                disk == old(disk)[old(headId) := Overwrite(old(disk)[old(headId)], old(cursor), data)]
                && cursor == old(cursor) + |data|
    {
      hide HandlesOk, Encode, Overwrite;
      if headBytes + |data| > maxSize {
        OpenNextFile();
      }
      WriteHead(data);
      index := index + Encode(Entry(headId, headBytes));
      number := number + 1;
    }

    /** Append an item. The freezer then holds it after the items it held before if and only if
        the head handle was where it should be; otherwise no items at all fit the index. */
    method Append(num: int, input: Bytes) returns (ok: bool)
      requires Valid() && FitsWords(NextEntry(codec.enc(input)))
      modifies this
      ensures ok <==> num == old(number)
      ensures !ok ==> unchanged(this)
      ensures ok ==> entries == old(entries) + [old(NextEntry(codec.enc(input)))] && index == EncodeAll(entries)
      ensures ok && old(WritesAtEnd(codec.enc(input))) ==> Valid() && items == old(items) + [input]
      ensures ok ==> headId == old(headId) + (if old(headBytes) + |codec.enc(input)| > maxSize then 1 else 0)
      ensures ok ==> headBytes == |codec.enc(input)| + (if headId == old(headId) then old(headBytes) else 0)
      ensures ok && old(AtEnd()) ==> AtEnd()
      ensures ok && !old(RollsOver(codec.enc(input))) ==> files == old(files)
      ensures ok && !old(WritesAtEnd(codec.enc(input))) ==> forall stored :: !StoredAs(disk, entries, stored)
    {
      hide EncodeAll, EncAll, Lossless, HandlesOk, StoredAs, FitsWords, Encode, Overwrite, Consistent;
      if num != number {
        return false;
      }
      var data := codec.enc(input);
      ghost var safe, disk0, e, at, head := WritesAtEnd(data), disk, NextEntry(data), cursor, headId;
      AppendTarget(data);
      EncodeSnoc(entries, e);
      EncAllSnoc(codec, items, input);
      WriteItem(data);
      if safe {
        Appended(disk0, head, maxSize, data, disk, at);
        AppendCompletes(disk0, entries, EncAll(codec, items), maxSize, data);
      } else {
        Overwritten(disk0, entries, disk, e, data, at);
      }
      entries := entries + [e];
      items := items + [input];
      ok := true;
    }

    lemma AppendTarget(data: Bytes)
      requires Valid()
      ensures headId in disk && |disk[headId]| == headBytes && tailId <= headId && entries != []
      ensures NextEntry(data) == NewEntry(disk, headId, maxSize, data)
    {
    }

    // ----- Truncating -----

    /** Close the open files after `id` and delete them; files that are not open stay. */
    method DeleteAfter(id: int)
      modifies `files, `disk
      ensures forall h :: h in files <==> h in old(files) && h.id <= id
      ensures forall k :: k in disk <==> k in old(disk) && !OpenAfter(old(files), id, k)
      ensures forall k :: k in disk ==> disk[k] == old(disk)[k]
    {
      var released := files;
      files := [];
      for i := 0 to |released|
        invariant forall h :: h in files <==> h in released[..i] && h.id <= id
        invariant forall k :: k in disk <==> k in old(disk) && !OpenAfter(released[..i], id, k)
        invariant forall k :: k in disk ==> disk[k] == old(disk)[k]
      {
        OneMoreHandle(released, i, id);
        if released[i].id > id {
          disk := disk - {released[i].id};
        } else {
          files := files + [released[i]];
        }
      }
    }

    /** Go back to file `id` as the head file. */
    method OpenEarlier(id: int)
      requires id in disk && tailId <= id < headId && HandlesOk(files, tailId, headId)
      modifies `files, `disk, `headId, `headFile, `headBytes, `cursor
      ensures headId == headFile == id && HandlesOk(files, tailId, headId)
      ensures forall k :: k <= id ==> (k in disk <==> k in old(disk)) && (k in disk ==> disk[k] == old(disk)[k])
    {
      files := Without(files, id);
      files := Put(files, limit, Handle(id, true));
      var size := |disk[id]|;
      DeleteAfter(id);
      headId := id;
      headFile := id;
      headBytes := size;
      cursor := size;
    }

    /** Make the end of entry `e` the end of the head file. */
    method CutHead(e: Entry)
      requires headFile == headId && tailId <= e.file <= headId && HandlesOk(files, tailId, headId)
      requires e.file in disk && 0 <= e.offset <= |disk[e.file]|
      modifies `files, `disk, `headId, `headFile, `headBytes, `cursor
      ensures headId == headFile == e.file && headBytes == cursor == e.offset && HandlesOk(files, tailId, headId)
      ensures headId in disk && disk[headId] == old(disk)[headId][..e.offset]
      ensures forall k :: k < headId ==> (k in disk <==> k in old(disk)) && (k in disk ==> disk[k] == old(disk)[k])
    {
      hide HandlesOk;
      if e.file != headId {
        OpenEarlier(e.file);
      }
      disk := disk[headFile := disk[headFile][..e.offset]];
      cursor := e.offset;
      headBytes := e.offset;
    }

    /** Keep the items up to `item`. */
    method Truncate(item: int)
      requires Valid()
      modifies this
      ensures Valid()
      ensures if item < 1 || item + 1 >= old(number) then unchanged(this) else items == old(items)[..item] && AtEnd()
    {
      hide EncodeAll, EncAll, Lossless, HandlesOk, StoredAs, FitsWords, Decode, Consistent;
      if item < 1 || item + 1 >= number {
        return;
      }
      ghost var stored, disk0 := EncAll(codec, items), disk;
      TruncateFacts(item);
      index := index[..(item + 1) * ENTRY_SIZE];
      var e := Decode(index[ENTRY_SIZE * item..ENTRY_SIZE * item + ENTRY_SIZE]);
      CutHead(e);
      number := item + 1;
      CutToKept(disk0, entries, stored, item + 1, disk);
      EncAllPrefix(codec, items, item);
      entries := entries[..item + 1];
      items := items[..item];
    }

    lemma TruncateFacts(item: nat)
      requires Valid() && 0 < item < number
      ensures EncodeAll(entries)[..(item + 1) * ENTRY_SIZE] == EncodeAll(entries[..item + 1])
      ensures |EncodeAll(entries[..item + 1])| == ENTRY_SIZE * item + ENTRY_SIZE
      ensures Decode(EncodeAll(entries[..item + 1])[ENTRY_SIZE * item..ENTRY_SIZE * item + ENTRY_SIZE]) == entries[item]
      ensures tailId <= entries[item].file <= headId && entries[item].file in disk
      ensures 0 <= entries[item].offset <= |disk[entries[item].file]|
      ensures forall id :: tailId <= id <= headId ==> id in disk
      ensures |EncAll(codec, items)| == number - 1 == |items|
    {
      EncodePrefix(entries, item + 1);
      DecodeAt(entries[..item + 1], item);
      EntryInFile(disk, entries, EncAll(codec, items), item);
    }

    // ----- Opening -----

    /** Open the files found on disk, whose index has the entries `es`, and repair them. */
    constructor (codec: Codec, maxSize: nat, limit: nat, disk: map<int, Bytes>, index: Bytes, ghost es: seq<Entry>)
      requires OpenedIndex(index) == EncodeAll(es) && EntriesOk(es)
      ensures this.codec == codec && this.maxSize == maxSize && this.limit == limit
      ensures var r := Repair(es, Touch(disk, es[|es| - 1].file), es[|es| - 1].file);
              && entries == r.entries && this.disk == r.disk && headFile == r.handle
      ensures this.index == EncodeAll(entries) && number == |entries| >= 1 && tailId == es[0].file
      ensures headId == entries[|entries| - 1].file && headBytes == cursor == entries[|entries| - 1].offset
      ensures files == [] && items == []
    {
      hide EncodeAll, Decode, Repair, EntriesOk, OpenedIndex;
      FirstEntries(es);
      this.codec, this.maxSize, this.limit := codec, maxSize, limit;
      this.disk, this.index := disk, OpenedIndex(index);
      files, number, tailId, headId, headFile, headBytes, cursor := [], 0, 0, 0, 0, 0, 0;
      entries, items := es, [];
      new;
      LastEntry(es, 0);
      tailId := Decode(this.index[..ENTRY_SIZE]).file;
      LastEntry(es, |es| - 1);
      var head := Decode(this.index[|this.index| - ENTRY_SIZE..]);
      this.disk := Touch(this.disk, head.file);
      headFile := head.file;
      RepairFiles(head);
    }

    /** Drop the last index entry, `head`; the file opened when the one before it is in another
        file is that of `head`. */
    method DropEntry(head: Entry) returns (previous: Entry)
      requires EntriesOk(entries) && index == EncodeAll(entries) && headFile in disk
      requires head == entries[|entries| - 1] && head.offset > |disk[headFile]|
      modifies `disk, `index, `entries, `headFile
      ensures EntriesOk(entries) && index == EncodeAll(entries) && headFile in disk
      ensures entries == old(entries)[..|old(entries)| - 1] && previous == entries[|entries| - 1]
      ensures Repairable(entries) && old(Repair(entries, disk, headFile)) == Repair(entries, disk, headFile)
    {
      hide EncodeAll, Decode, Repair, FitsWords, EntriesOk, Repairable;
      RepairStep(entries, disk, headFile);
      DroppedEntry(entries);
      index := index[..|index| - ENTRY_SIZE];
      entries := entries[..|entries| - 1];
      LastEntry(entries, |entries| - 1);
      previous := Decode(index[|index| - ENTRY_SIZE..]);
      if previous.file != head.file {
        disk := Touch(disk, head.file);
        headFile := head.file;
      }
    }

    /** The repair loop. */
    method RepairFiles(last: Entry)
      requires EntriesOk(entries) && index == EncodeAll(entries) && last == entries[|entries| - 1] && headFile in disk
      modifies `disk, `index, `entries, `headFile, `headBytes, `cursor, `number, `headId
      ensures old(Repair(entries, disk, headFile)) == Repaired(entries, disk, headFile)
      ensures entries != [] && index == EncodeAll(entries) && number == |entries|
      ensures headId == entries[|entries| - 1].file && headBytes == cursor == entries[|entries| - 1].offset
    {
      hide EncodeAll, Decode, Repair, FitsWords, EntriesOk, Repairable;
      RepairStep(entries, disk, headFile);
      ghost var target := Repair(entries, disk, headFile);
      var head := last;
      while head.offset > |disk[headFile]|
        invariant EntriesOk(entries) && index == EncodeAll(entries) && headFile in disk
        invariant entries != [] && head == entries[|entries| - 1]
        invariant Repairable(entries) && Repair(entries, disk, headFile) == target
        decreases |entries|
      {
        RepairStep(entries, disk, headFile);
        head := DropEntry(head);
        RepairStep(entries, disk, headFile);
      }
      RepairStep(entries, disk, headFile);
      if head.offset < |disk[headFile]| {
        disk := disk[headFile := disk[headFile][..head.offset]];
      }
      number := |index| / ENTRY_SIZE;
      EntryCount(entries);
      headId := head.file;
      headBytes := |disk[headFile]|;
      cursor := headBytes;
    }

    /** Open every file from the tail to the head, of which the latest stay open. */
    method Preopen() returns (ok: bool)
      modifies `files
      ensures ok <==> forall id :: tailId <= id < headId ==> id in disk
      ensures ok && tailId <= headId ==> HandlesOk(files, tailId, headId)
      ensures ok && limit > 0 ==> Find(files, headId) == Some(Handle(headId, true))
      ensures ok && limit > 0 && tailId <= headId ==>
                files == [Handle(headId, true)] + Latest(tailId, headId, limit - 1)
    {
      hide Put, Latest, Find, HandlesOk;
      files := [];
      var id := tailId;
      NoneOpen(tailId, limit);
      while id < headId
        invariant tailId <= id && (id <= headId || id == tailId)
        invariant forall k :: tailId <= k < id ==> k in disk
        invariant files == Latest(tailId, id, limit)
        decreases headId - id
      {
        if id !in disk {
          return false;
        }
        OpenNext(tailId, id, limit, false);
        LatestStep(tailId, id, limit);
        files := Put(files, limit, Handle(id, false));
        id := id + 1;
      }
      if tailId <= headId {
        OpenNext(tailId, headId, limit, true);
        LatestOk(tailId, headId, limit);
      }
      PutInFront(files, limit, Handle(headId, true));
      files := Put(files, limit, Handle(headId, true));
      ok := true;
    }
  }

  /** Open a freezer whose files, once repaired, hold `items`: as they were closed, or as a crash
      in the middle of an append left them. */
  method OpenFreezer(codec: Codec, maxSize: nat, limit: nat, disk: map<int, Bytes>, index: Bytes,
                     ghost es: seq<Entry>, ghost items: seq<Bytes>) returns (f: Freezer)
    requires Lossless(codec) && OpenedIndex(index) == EncodeAll(es) && EntriesOk(es)
    requires var r := Repair(es, Touch(disk, es[|es| - 1].file), es[|es| - 1].file);
             && r.entries != [] && r.handle == r.entries[|r.entries| - 1].file
             && r.entries <= es && Consistent(r.disk, r.entries, EncAll(codec, items))
    ensures fresh(f) && f.Valid() && f.AtEnd() && f.items == items
    ensures f.codec == codec && f.maxSize == maxSize
    ensures f.entries == Repair(es, Touch(disk, es[|es| - 1].file), es[|es| - 1].file).entries
    ensures limit > 0 ==> Find(f.files, f.headId) == Some(Handle(f.headId, true))
  {
    hide EncodeAll, Repair, EncAll, Lossless, HandlesOk, StoredAs, FitsWords, OpenedIndex;
    f := new Freezer(codec, maxSize, limit, disk, index, es);
    f.items := items;
    var ok := f.Preopen();
  }

  const PLAIN := Codec(x => x, x => Some(x))

  /** A freezer with two one-byte items in its only file. */
  method TwoItems() returns (f: Freezer)
    ensures fresh(f) && f.Valid() && f.AtEnd() && f.codec == PLAIN && f.maxSize == 100
    ensures f.entries == [Entry(0, 0), Entry(0, 1), Entry(0, 2)] && f.items == [[1], [2]]
    ensures Find(f.files, f.headId) == Some(Handle(f.headId, true))
  {
    hide EncodeAll, Repair, StoredAs, Freezer.Valid;
    var first := Entry(0, 0);
    NewFreezer();
    f := OpenFreezer(PLAIN, 100, 2, map[], [], [first], []);
    NewHead(f);
    var one: Bytes, two: Bytes := [1], [2];
    var ok := f.Append(1, one);
    NewHead(f);
    ok := f.Append(2, two);
    NewHead(f);
  }

  /** Reading the first item leaves the head handle before the second, and appending a third
      then leaves an index that no items fit. */
  method ReadThenAppend() returns (f: Freezer)
    ensures forall stored :: !StoredAs(f.disk, f.entries, stored)
  {
    hide EncodeAll, Repair, StoredAs;
    f := TwoItems();
    NewHead(f);
    var three: Bytes := [3];
    var r := f.Retrieve(1);
    assert f.cursor == 1;
    var ok := f.Append(3, three);
  }

  lemma NewFreezer()
    ensures OpenedIndex([]) == EncodeAll([Entry(0, 0)]) && EntriesOk([Entry(0, 0)]) && Lossless(PLAIN)
    ensures Repair([Entry(0, 0)], map[0 := []], 0) == Repaired([Entry(0, 0)], map[0 := []], 0)
    ensures Consistent(map[0 := []], [Entry(0, 0)], EncAll(PLAIN, []))
  {
    assert EncodeAll([]) == [];
    assert [Entry(0, 0)][..0] == [];
    assert Pow256(U32_SIZE) > 0 && Pow256(U64_SIZE) > 0;
  }

  lemma NewHead(f: Freezer)
    requires f.Valid()
    ensures f.entries != [] && f.number == |f.entries| == |f.items| + 1
    ensures f.headId == f.entries[|f.entries| - 1].file && f.headBytes == f.entries[|f.entries| - 1].offset
    ensures Pow256(U32_SIZE) == 0x1_0000_0000 && Pow256(U64_SIZE) == 0x1_0000_0000_0000_0000
  {
    assert Pow256(2) == 0x1_0000 && Pow256(3) == 0x100_0000 && Pow256(4) == 0x1_0000_0000;
    assert Pow256(6) == 0x1_0000_0000_0000 && Pow256(7) == 0x100_0000_0000_0000;
  }
}
