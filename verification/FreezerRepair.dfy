/** What opening a freezer makes of files that were left behind by a crash. */
module FreezerRepair {
  import opened FreezerFormat

  /** The index as it is opened: with a first entry when it was empty, and without the bytes of
      an unfinished entry. */
  function OpenedIndex(index: Bytes): Bytes {
    if index == [] then Encode(Entry(0, 0)) else index[..|index| - |index| % ENTRY_SIZE]
  }

  datatype Repaired = Repaired(entries: seq<Entry>, disk: map<int, Bytes>, handle: int)

  /** Open a data file, creating it when it is missing. */
  function Touch(disk: map<int, Bytes>, id: int): map<int, Bytes> {
    if id in disk then disk else disk[id := []]
  }

  predicate Repairable(entries: seq<Entry>) {
    entries != [] && entries[0].offset == 0 && forall i :: 0 <= i < |entries| ==> entries[i].offset >= 0
  }

  /** Bring the head file, open on file `handle`, and the index in line: cut off what the index
      does not know of, or drop entries that reach beyond the end of the file. When the entry
      before a dropped one is in another file, the file opened is that of the dropped one. */
  function Repair(entries: seq<Entry>, disk: map<int, Bytes>, handle: int): Repaired
    requires Repairable(entries) && handle in disk
    decreases |entries|
  {
    var e := entries[|entries| - 1];
    var size := |disk[handle]|;
    if e.offset == size then Repaired(entries, disk, handle)
    else if e.offset < size then Repaired(entries, disk[handle := disk[handle][..e.offset]], handle)
    else
      var rest := entries[..|entries| - 1];
      if rest[|rest| - 1].file != e.file then Repair(rest, Touch(disk, e.file), e.file)
      else Repair(rest, disk, handle)
  }

  /** The cases of repair. */
  lemma RepairStep(entries: seq<Entry>, disk: map<int, Bytes>, handle: int)
    requires EntriesOk(entries) && handle in disk
    ensures entries != [] && Repairable(entries) && entries[|entries| - 1].offset >= 0
    ensures entries[|entries| - 1].offset == |disk[handle]| ==>
              Repair(entries, disk, handle) == Repaired(entries, disk, handle)
    ensures entries[|entries| - 1].offset < |disk[handle]| ==>
              Repair(entries, disk, handle)
              == Repaired(entries, disk[handle := disk[handle][..entries[|entries| - 1].offset]], handle)
    ensures entries[|entries| - 1].offset > |disk[handle]| ==>
              && |entries| > 1 && Repairable(entries[..|entries| - 1])
              && (entries[|entries| - 2].file != entries[|entries| - 1].file ==>
                   Repair(entries, disk, handle)
                   == Repair(entries[..|entries| - 1], Touch(disk, entries[|entries| - 1].file),
                             entries[|entries| - 1].file))
              && (entries[|entries| - 2].file == entries[|entries| - 1].file ==>
                   Repair(entries, disk, handle) == Repair(entries[..|entries| - 1], disk, handle))
  {
  }

  /** For any data files, repair ends with a beginning of the index that has at least its first
      entry, and with the file it has open as long as the last of these says. */
  lemma {:induction false} RepairEnds(entries: seq<Entry>, disk: map<int, Bytes>, handle: int)
    requires Repairable(entries) && handle in disk
    ensures var r := Repair(entries, disk, handle);
            && r.entries != [] && r.entries <= entries
            && r.handle in r.disk && |r.disk[r.handle]| == r.entries[|r.entries| - 1].offset
    decreases |entries|
  {
    var e := entries[|entries| - 1];
    if e.offset > |disk[handle]| {
      var rest := entries[..|entries| - 1];
      if rest[|rest| - 1].file != e.file {
        RepairEnds(rest, Touch(disk, e.file), e.file);
      } else {
        RepairEnds(rest, disk, handle);
      }
    }
  }

  // ----- A consistent freezer -----

  /** Index and data files agree, and hold the items `stored`. */
  ghost predicate Consistent(disk: map<int, Bytes>, entries: seq<Entry>, stored: seq<Bytes>) {
    && EntriesOk(entries)
    && (forall id :: entries[0].file <= id <= entries[|entries| - 1].file ==> id in disk)
    && |disk[entries[|entries| - 1].file]| == entries[|entries| - 1].offset
    && StoredAs(disk, entries, stored)
  }

  lemma NothingToRepair(disk: map<int, Bytes>, entries: seq<Entry>, stored: seq<Bytes>)
    requires Consistent(disk, entries, stored)
    ensures OpenedIndex(EncodeAll(entries)) == EncodeAll(entries)
    ensures Repair(entries, disk, entries[|entries| - 1].file) == Repaired(entries, disk, entries[|entries| - 1].file)
  {
    hide EncodeAll, Repair, StoredAs, FitsWords;
    RepairStep(entries, disk, entries[|entries| - 1].file);
    Remainder(|entries|, 0);
    assert EncodeAll(entries)[..|EncodeAll(entries)|] == EncodeAll(entries);
  }

  // ----- A crash in the middle of an append -----

  /** The file an append of `data` writes to, and what is in it before. */
  function Target(disk: map<int, Bytes>, head: int, maxSize: int, data: Bytes): int
    requires head in disk
  {
    if |disk[head]| + |data| > maxSize then head + 1 else head
  }

  function Before(disk: map<int, Bytes>, head: int, maxSize: int, data: Bytes): Bytes
    requires head in disk
  {
    if |disk[head]| + |data| > maxSize then [] else disk[head]
  }

  function NewEntry(disk: map<int, Bytes>, head: int, maxSize: int, data: Bytes): Entry
    requires head in disk
  {
    Entry(Target(disk, head, maxSize, data), |Before(disk, head, maxSize, data)| + |data|)
  }

  /** After `k` bytes of the data and `j` bytes of the index entry have been written. */
  function PartialDisk(disk: map<int, Bytes>, head: int, maxSize: int, data: Bytes, k: nat): map<int, Bytes>
    requires head in disk && k <= |data|
  {
    disk[Target(disk, head, maxSize, data) := Before(disk, head, maxSize, data) + data[..k]]
  }

  function PartialIndex(index: Bytes, e: Entry, j: nat): Bytes
    requires j <= ENTRY_SIZE
  {
    index + Encode(e)[..j]
  }

  lemma PartialKeeps(disk: map<int, Bytes>, entries: seq<Entry>, stored: seq<Bytes>, maxSize: int, data: Bytes, k: nat)
    requires Consistent(disk, entries, stored) && k <= |data|
    ensures StoredAs(PartialDisk(disk, entries[|entries| - 1].file, maxSize, data, k), entries, stored)
  {
    var head := entries[|entries| - 1].file;
    var disk' := PartialDisk(disk, head, maxSize, data, k);
    forall i | 0 < i < |entries|
      ensures entries[i].file in disk && entries[i].file in disk' && 0 <= entries[i].offset <= |disk[entries[i].file]|
      ensures entries[i].offset <= |disk'[entries[i].file]|
      ensures disk'[entries[i].file][..entries[i].offset] == disk[entries[i].file][..entries[i].offset]
    {
      assert ItemOk(disk, entries, stored, i);
    }
    StoredFrame(disk, disk', entries, stored);
  }

  /** The append is complete once the index entry is. */
  lemma AppendCompletes(disk: map<int, Bytes>, entries: seq<Entry>, stored: seq<Bytes>, maxSize: int, data: Bytes)
    requires Consistent(disk, entries, stored)
    requires FitsWords(NewEntry(disk, entries[|entries| - 1].file, maxSize, data))
    ensures Consistent(PartialDisk(disk, entries[|entries| - 1].file, maxSize, data, |data|),
                       entries + [NewEntry(disk, entries[|entries| - 1].file, maxSize, data)], stored + [data])
  {
    var last := entries[|entries| - 1];
    var head := last.file;
    var disk' := PartialDisk(disk, head, maxSize, data, |data|);
    var e := NewEntry(disk, head, maxSize, data);
    PartialKeeps(disk, entries, stored, maxSize, data, |data|);
    var longer := entries + [e];
    assert data[..|data|] == data;
    assert StartOf(longer, |entries|) == |Before(disk, head, maxSize, data)|;
    assert disk'[e.file][StartOf(longer, |entries|)..e.offset] == data;
    StoredSnoc(disk', entries, stored, e, data);
  }

  /** Opening after a crash at any point of an append, in program order, gives the items from
      before, or those and the new one, and which of the two depends on the index entry alone. */
  lemma CrashSafe(disk: map<int, Bytes>, entries: seq<Entry>, stored: seq<Bytes>, maxSize: int, data: Bytes, k: nat,
                  j: nat)
    requires Consistent(disk, entries, stored) && FitsWords(NewEntry(disk, entries[|entries| - 1].file, maxSize, data))
    requires k <= |data| && j <= ENTRY_SIZE && (j > 0 ==> k == |data|)
    ensures var head := entries[|entries| - 1].file;
            var e := NewEntry(disk, head, maxSize, data);
            var disk' := PartialDisk(disk, head, maxSize, data, k);
            var found := if j == ENTRY_SIZE then entries + [e] else entries;
            && OpenedIndex(PartialIndex(EncodeAll(entries), e, j)) == EncodeAll(found)
            && found[|found| - 1].file in disk'
            && Repairable(found)
            && var r := Repair(found, disk', found[|found| - 1].file);
               && r.entries == found
               && r.handle == found[|found| - 1].file
               && Consistent(r.disk, found, if j == ENTRY_SIZE then stored + [data] else stored)
  {
    var head := entries[|entries| - 1].file;
    var e := NewEntry(disk, head, maxSize, data);
    if j == ENTRY_SIZE {
      AppendCompletes(disk, entries, stored, maxSize, data);
      EncodeSnoc(entries, e);
      assert Encode(e)[..ENTRY_SIZE] == Encode(e);
      NothingToRepair(PartialDisk(disk, head, maxSize, data, k), entries + [e], stored + [data]);
    } else {
      UnfinishedEntry(entries, e, j);
      UnfinishedData(disk, entries, stored, maxSize, data, k);
    }
  }

  lemma UnfinishedEntry(entries: seq<Entry>, e: Entry, j: nat)
    requires entries != [] && j < ENTRY_SIZE
    ensures OpenedIndex(PartialIndex(EncodeAll(entries), e, j)) == EncodeAll(entries)
  {
    hide EncodeAll, Encode;
    var index := PartialIndex(EncodeAll(entries), e, j);
    Remainder(|entries|, j);
    assert |index| - |index| % ENTRY_SIZE == |EncodeAll(entries)|;
    assert index[..|EncodeAll(entries)|] == EncodeAll(entries);
  }

  lemma {:induction false} Remainder(n: nat, j: nat)
    requires j < ENTRY_SIZE
    ensures (ENTRY_SIZE * n + j) % ENTRY_SIZE == j
  {
    if n > 0 {
      Remainder(n - 1, j);
    }
  }

  lemma UnfinishedData(disk: map<int, Bytes>, entries: seq<Entry>, stored: seq<Bytes>, maxSize: int, data: Bytes,
                       k: nat)
    requires Consistent(disk, entries, stored) && k <= |data|
    ensures var head := entries[|entries| - 1].file;
            var disk' := PartialDisk(disk, head, maxSize, data, k);
            var r := Repair(entries, disk', head);
            r.entries == entries && r.handle == head && Consistent(r.disk, entries, stored)
  {
    var head := entries[|entries| - 1].file;
    var disk' := PartialDisk(disk, head, maxSize, data, k);
    PartialKeeps(disk, entries, stored, maxSize, data, k);
    var r := Repair(entries, disk', head);
    forall i | 0 < i < |entries|
      ensures entries[i].file in disk' && entries[i].file in r.disk
              && 0 <= entries[i].offset <= |disk'[entries[i].file]|
      ensures entries[i].offset <= |r.disk[entries[i].file]|
      ensures r.disk[entries[i].file][..entries[i].offset] == disk'[entries[i].file][..entries[i].offset]
    {
      assert ItemOk(disk', entries, stored, i);
      assert ItemOk(disk, entries, stored, i);
    }
    StoredFrame(disk', r.disk, entries, stored);
  }

  // ----- Bytes lost at the end of the head file -----

  /** Entry `j` is in file `head` and does not reach beyond `size`. */
  predicate Survives(entries: seq<Entry>, head: int, size: nat, j: int) {
    0 <= j < |entries| && entries[j].file == head && entries[j].offset <= size
  }

  /** How many entries repair keeps when it can stay within the head file. */
  function Kept(entries: seq<Entry>, size: nat): (n: nat)
    ensures n <= |entries|
    ensures n > 0 ==> entries[n - 1].offset <= size
    ensures forall i :: n <= i < |entries| ==> entries[i].offset > size
  {
    if entries == [] then 0
    else if entries[|entries| - 1].offset <= size then |entries|
    else Kept(entries[..|entries| - 1], size)
  }

  /** Repair stays within file `head` as long as one of its entries survives. */
  lemma {:induction false} RepairStays(entries: seq<Entry>, disk: map<int, Bytes>, head: int, j: int)
    requires EntriesOk(entries) && entries[|entries| - 1].file == head && head in disk
             && Survives(entries, head, |disk[head]|, j)
    ensures var n := Kept(entries, |disk[head]|);
            && n > j && entries[n - 1].file == head
            && Repair(entries, disk, head) == Repaired(entries[..n], disk[head := disk[head][..entries[n - 1].offset]],
                                                       head)
    decreases |entries|
  {
    var e := entries[|entries| - 1];
    if e.offset <= |disk[head]| {
      assert entries[..|entries|] == entries;
      assert e.offset == |disk[head]| ==> disk[head][..e.offset] == disk[head];
    } else {
      var rest := entries[..|entries| - 1];
      assert rest[|rest| - 1].file == head;
      RepairStays(rest, disk, head, j);
      assert rest[..Kept(rest, |disk[head]|)] == entries[..Kept(rest, |disk[head]|)];
    }
  }

  /** Once repair has gone back to an earlier file, the file it has open is a later one than
      the index ends in. */
  lemma {:induction false} Slipped(entries: seq<Entry>, disk: map<int, Bytes>, handle: int)
    requires EntriesOk(entries) && handle in disk && entries[|entries| - 1].file < handle
    ensures var r := Repair(entries, disk, handle); r.entries != [] && r.entries[|r.entries| - 1].file < r.handle
    decreases |entries|
  {
    var e := entries[|entries| - 1];
    if e.offset > |disk[handle]| {
      var rest := entries[..|entries| - 1];
      if rest[|rest| - 1].file != e.file {
        Slipped(rest, Touch(disk, e.file), e.file);
      } else {
        Slipped(rest, disk, handle);
      }
    }
  }

  lemma {:induction false} RepairSlips(entries: seq<Entry>, disk: map<int, Bytes>, head: int)
    requires EntriesOk(entries) && entries[|entries| - 1].file == head && head in disk
    requires forall j :: !Survives(entries, head, |disk[head]|, j)
    ensures var r := Repair(entries, disk, head); r.entries != [] && r.entries[|r.entries| - 1].file < r.handle
    decreases |entries|
  {
    var e := entries[|entries| - 1];
    assert !Survives(entries, head, |disk[head]|, |entries| - 1);
    var rest := entries[..|entries| - 1];
    if |entries| > 1 {
      if rest[|rest| - 1].file != e.file {
        Slipped(rest, disk, head);
      } else {
        forall j
          ensures !Survives(rest, head, |disk[head]|, j)
        {
          assert !Survives(entries, head, |disk[head]|, j);
        }
        RepairSlips(rest, disk, head);
      }
    }
  }

  /** When the head file has lost bytes at its end and one of its entries survives, repair keeps
      exactly the items that are still whole. */
  lemma LostBytes(disk: map<int, Bytes>, entries: seq<Entry>, stored: seq<Bytes>, size: nat, j: int, head: int, n: nat)
    requires Consistent(disk, entries, stored) && head == entries[|entries| - 1].file
             && size <= entries[|entries| - 1].offset
    requires Survives(entries, head, size, j) && n == Kept(entries, size)
    ensures n > 0 && entries[n - 1].file == head && entries[n - 1].offset <= |disk[head]|
    ensures Repair(entries, disk[head := disk[head][..size]], head)
            == Repaired(entries[..n], disk[head := disk[head][..entries[n - 1].offset]], head)
    ensures Consistent(disk[head := disk[head][..entries[n - 1].offset]], entries[..n], stored[..n - 1])
    ensures forall i :: n <= i < |entries| ==> entries[i].file == head && entries[i].offset > size
  {
    hide Repair, StoredAs, Kept;
    RepairStays(entries, disk[head := disk[head][..size]], head, j);
    var offset := entries[n - 1].offset;
    EntryInFile(disk, entries, stored, n - 1);
    assert disk[head][..size][..offset] == disk[head][..offset];
    CutToKept(disk, entries, stored, n, disk[head := disk[head][..offset]]);
  }

  /** Cutting the file of the `n`th entry after it, and dropping later files, keeps the items
      before. */
  lemma CutToKept(disk: map<int, Bytes>, entries: seq<Entry>, stored: seq<Bytes>, n: nat, cut: map<int, Bytes>)
    requires Consistent(disk, entries, stored) && 0 < n <= |entries|
    requires entries[n - 1].offset <= |disk[entries[n - 1].file]| && entries[n - 1].file in cut
    requires cut[entries[n - 1].file] == disk[entries[n - 1].file][..entries[n - 1].offset]
    requires forall id :: entries[0].file <= id < entries[n - 1].file ==> id in cut && cut[id] == disk[id]
    ensures Consistent(cut, entries[..n], stored[..n - 1])
  {
    var kept := entries[..n];
    StoredPrefix(disk, entries, stored, n);
    forall i | 0 < i < |kept|
      ensures kept[i].file in disk && kept[i].file in cut && 0 <= kept[i].offset <= |disk[kept[i].file]|
      ensures kept[i].offset <= |cut[kept[i].file]|
      ensures cut[kept[i].file][..kept[i].offset] == disk[kept[i].file][..kept[i].offset]
    {
      assert ItemOk(disk, entries, stored, i);
      KeptBelow(disk, entries, stored, i, n - 1);
    }
    StoredFrame(disk, cut, kept, stored[..n - 1]);
  }

  /** A crash in the middle of a truncation to `n` entries: the index has been cut, later files may
      or may not have been deleted, the data has not been cut. Opening yields exactly the items of
      those entries. */
  lemma TruncateCrashSafe(disk: map<int, Bytes>, entries: seq<Entry>, stored: seq<Bytes>, n: nat, left: map<int, Bytes>,
                          head: int)
    requires Consistent(disk, entries, stored) && 0 < n <= |entries| && head == entries[n - 1].file
    requires forall id :: entries[0].file <= id <= head ==> id in left && id in disk && left[id] == disk[id]
    ensures OpenedIndex(EncodeAll(entries)[..ENTRY_SIZE * n]) == EncodeAll(entries[..n])
    ensures head in left && Repairable(entries[..n])
    ensures var r := Repair(entries[..n], left, head);
            r.entries == entries[..n] && r.handle == head && Consistent(r.disk, entries[..n], stored[..n - 1])
  {
    hide EncodeAll, Repair, StoredAs, FitsWords;
    EntryInFile(disk, entries, stored, n - 1);
    EntryInFile(disk, entries, stored, 0);
    EncodePrefix(entries, n);
    CutIndex(entries[..n]);
    FirstEntriesOk(entries, n);
    RepairStep(entries[..n], left, head);
    var end := entries[n - 1].offset;
    var r := Repair(entries[..n], left, head);
    assert left[head][..|left[head]|] == left[head];
    assert r.disk[head] == disk[head][..end];
    CutToKept(disk, entries, stored, n, r.disk);
  }

  lemma CutIndex(entries: seq<Entry>)
    requires entries != []
    ensures OpenedIndex(EncodeAll(entries)) == EncodeAll(entries)
  {
    hide EncodeAll, Encode;
    Remainder(|entries|, 0);
    assert EncodeAll(entries)[..|EncodeAll(entries)|] == EncodeAll(entries);
  }

  lemma FirstEntriesOk(entries: seq<Entry>, n: nat)
    requires EntriesOk(entries) && 0 < n <= |entries|
    ensures EntriesOk(entries[..n])
  {
    hide FitsWords;
  }

  lemma EntryInFile(disk: map<int, Bytes>, entries: seq<Entry>, stored: seq<Bytes>, i: nat)
    requires Consistent(disk, entries, stored) && i < |entries|
    ensures entries[0].file <= entries[i].file <= entries[|entries| - 1].file
    ensures entries[i].file in disk && 0 <= entries[i].offset <= |disk[entries[i].file]|
  {
    if i > 0 {
      assert ItemOk(disk, entries, stored, i);
    }
  }

  /** Within a file offsets never decrease. */
  lemma {:induction false} KeptBelow(disk: map<int, Bytes>, entries: seq<Entry>, stored: seq<Bytes>, i: nat, k: nat)
    requires EntriesOk(entries) && StoredAs(disk, entries, stored) && 0 <= i <= k < |entries|
    ensures entries[i].file == entries[k].file ==> entries[i].offset <= entries[k].offset
    decreases k - i
  {
    if i < k {
      KeptBelow(disk, entries, stored, i, k - 1);
      assert ItemOk(disk, entries, stored, k);
      assert entries[i].file <= entries[k - 1].file <= entries[k].file;
    }
  }

  /** Repair leaves the head file open exactly if one of its entries survives. */
  lemma RepairExactly(disk: map<int, Bytes>, entries: seq<Entry>, head: int)
    requires EntriesOk(entries) && entries[|entries| - 1].file == head && head in disk
    ensures var r := Repair(entries, disk, head);
            && r.entries != []
            && (r.handle == r.entries[|r.entries| - 1].file <==> exists j :: Survives(entries, head, |disk[head]|, j))
  {
    if j :| Survives(entries, head, |disk[head]|, j) {
      RepairStays(entries, disk, head, j);
    } else {
      RepairSlips(entries, disk, head);
    }
  }

  /** A freezer with one item in each of two files. When one byte of the second is missing, repair
      drops the first item too, although its file is whole, and leaves the second file open. */
  lemma SlipLosesItem()
    ensures var entries := [Entry(0, 0), Entry(0, 2), Entry(1, 2)];
            var disk := map[0 := [7, 7], 1 := [8]];
            Repair(entries, disk, 1) == Repaired([Entry(0, 0)], map[0 := [7, 7], 1 := []], 1)
  {
    var entries := [Entry(0, 0), Entry(0, 2), Entry(1, 2)];
    var disk: map<int, Bytes> := map[0 := [7, 7], 1 := [8]];
    assert entries[..2] == [Entry(0, 0), Entry(0, 2)];
    assert entries[..2][..1] == [Entry(0, 0)];
    assert Repair([Entry(0, 0)], disk, 1) == Repaired([Entry(0, 0)], disk[1 := []], 1);
    assert Repair(entries[..2], disk, 1) == Repair([Entry(0, 0)], disk, 1);
  }
}
