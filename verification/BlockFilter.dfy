/** The service that builds block filters. Each pass works on a snapshot of the chain; between
    passes the chain may have been reorganised in any way. */
module BlockFilters {
  import opened Basics

  type Hash = int

  datatype Header = Header(hash: Hash, parent: Hash, number: nat)

  /** Headers of a tree whose root is the first block. */
  ghost predicate Tree(genesis: Hash, headers: map<Hash, Header>) {
    && genesis in headers
    && (forall h :: h in headers ==> headers[h].hash == h && (h == genesis <==> headers[h].number == 0))
    && (forall h :: h in headers && h != genesis ==>
          headers[h].parent in headers && headers[headers[h].parent].number == headers[h].number - 1)
  }

  /** What a snapshot shows: hashes by number, numbers by hash, and the block whose filter was
      built last. */
  datatype Snapshot = Snapshot(main: seq<Hash>, numbers: map<Hash, int>, latest: Option<Hash>)

  /** `main` is a chain from the first block on, and `numbers` its inverse. */
  ghost predicate ChainOk(genesis: Hash, headers: map<Hash, Header>, snap: Snapshot) {
    && snap.main != [] && snap.main[0] == genesis
    && (forall i :: 0 <= i < |snap.main| ==> snap.main[i] in headers && headers[snap.main[i]].number == i)
    && (forall i :: 0 < i < |snap.main| ==> headers[snap.main[i]].parent == snap.main[i - 1])
    && (forall h :: h in snap.numbers <==> exists i :: 0 <= i < |snap.main| && snap.main[i] == h)
  }

  /** The ancestor of block `h` at height `n`. */
  ghost function AncestorAt(genesis: Hash, headers: map<Hash, Header>, h: Hash, n: nat): Hash
    requires Tree(genesis, headers) && h in headers
    decreases headers[h].number
  {
    if headers[h].number <= n then h else AncestorAt(genesis, headers, headers[h].parent, n)
  }

  lemma {:induction false} AncestorStep(genesis: Hash, headers: map<Hash, Header>, h: Hash, n: nat)
    requires Tree(genesis, headers) && h in headers && n <= headers[h].number
    ensures var a := AncestorAt(genesis, headers, h, n);
            a in headers && headers[a].number == n
            && (n > 0 ==> headers[a].parent == AncestorAt(genesis, headers, h, n - 1))
    decreases headers[h].number
  {
    if n < headers[h].number {
      AncestorStep(genesis, headers, headers[h].parent, n);
    }
  }

  /** The filter of block `h` builds on that of its parent, which is there. */
  predicate BuiltOn(genesis: Hash, headers: map<Hash, Header>, hash: (int, int) -> int,
                    filters: map<Hash, int>, data: map<Hash, int>, h: Hash) {
    && h in headers && h in filters && h in data
    && if h == genesis then filters[h] == hash(0, data[h])
       else headers[h].parent in filters && filters[h] == hash(filters[headers[h].parent], data[h])
  }

  ghost predicate FiltersOk(genesis: Hash, headers: map<Hash, Header>, hash: (int, int) -> int,
                            filters: map<Hash, int>, data: map<Hash, int>) {
    forall h :: h in filters ==> BuiltOn(genesis, headers, hash, filters, data, h)
  }

  /** One more block, whose parent is there. */
  lemma OneMoreFilter(genesis: Hash, headers: map<Hash, Header>, hash: (int, int) -> int,
                      filters: map<Hash, int>, data: map<Hash, int>, h: Hash, d: int, f: int)
    requires FiltersOk(genesis, headers, hash, filters, data) && h in headers && h !in filters
    requires if h == genesis then f == hash(0, d) else headers[h].parent in filters
                                                       && f == hash(filters[headers[h].parent], d)
    ensures FiltersOk(genesis, headers, hash, filters[h := f], data[h := d])
  {
    var filters', data' := filters[h := f], data[h := d];
    forall g | g in filters'
      ensures BuiltOn(genesis, headers, hash, filters', data', g)
    {
      if g != h {
        assert BuiltOn(genesis, headers, hash, filters, data, g);
      }
    }
  }

  class BlockFilter {
    const genesis: Hash
    const hash: (int, int) -> int // hash of a filter from that of its parent and its data
    var headers: map<Hash, Header>
    var filters: map<Hash, int>
    var data: map<Hash, int>
    var latest: Option<Hash>

    /** Filters are built for a part of the tree that has the parent of each of its blocks, and
        each filter hash is that of the parent's and the block's own data. */
    ghost predicate Valid()
      reads this
    {
      && Tree(genesis, headers)
      && FiltersOk(genesis, headers, hash, filters, data)
      && (latest.Some? ==> latest.value in filters)
    }

    constructor (genesis: Header, hash: (int, int) -> int)
      requires genesis.number == 0
      ensures Valid() && this.genesis == genesis.hash && filters == map[] && headers == map[genesis.hash := genesis]
    {
      this.genesis, this.hash := genesis.hash, hash;
      headers, filters, data, latest := map[genesis.hash := genesis], map[], map[], None;
    }

    /** The tree grows, whichever branch the main chain then follows. */
    method AddHeader(header: Header)
      requires Valid() && header.hash !in headers && header.parent in headers
               && header.number == headers[header.parent].number + 1
      modifies `headers
      ensures Valid() && headers == old(headers)[header.hash := header]
    {
      forall h | h in filters
        ensures BuiltOn(genesis, headers[header.hash := header], hash, filters, data, h)
      {
        assert BuiltOn(genesis, headers, hash, filters, data, h);
      }
      headers := headers[header.hash := header];
    }

    lemma Built(h: Hash)
      requires Valid() && h in filters
      ensures h in headers && headers[h].hash == h
      ensures h != genesis ==> headers[h].parent in filters && headers[h].number > 0
      ensures h != genesis ==> headers[h].parent in headers
                               && headers[headers[h].parent].number == headers[h].number - 1
    {
      assert BuiltOn(genesis, headers, hash, filters, data, h);
    }

    /** Blocks of the chain up to a filtered one are filtered. */
    lemma {:induction false} FilteredBelow(snap: Snapshot, i: nat, j: nat)
      requires Valid() && ChainOk(genesis, headers, snap) && j <= i < |snap.main| && snap.main[i] in filters
      ensures snap.main[j] in filters
      decreases i
    {
      if j < i {
        Built(snap.main[i]);
        FilteredBelow(snap, i - 1, j);
      }
    }

    /** Where `snap.main` and the branch of block `h` part: they agree below `start` and not at it. */
    ghost predicate PartsAt(snap: Snapshot, h: Hash, start: nat)
      requires Tree(genesis, headers) && h in headers
      reads `headers
    {
      && 0 < start <= |snap.main| && start <= headers[h].number + 1
      && snap.main[start - 1] == AncestorAt(genesis, headers, h, start - 1)
      && (start < |snap.main| && start <= headers[h].number ==>
            snap.main[start] != AncestorAt(genesis, headers, h, start))
    }

    /** The number after the last block that the chain shares with the branch of the block filtered
        last. Filters below it are there. */
    method StartNumber(snap: Snapshot) returns (start: nat)
      requires Valid() && ChainOk(genesis, headers, snap) && (snap.latest.Some? ==> snap.latest.value in filters)
      ensures start <= |snap.main|
      ensures forall i :: 0 <= i < start ==> snap.main[i] in filters
      ensures snap.latest.None? ==> start == 0
      ensures snap.latest.Some? ==> snap.latest.value in headers && PartsAt(snap, snap.latest.value, start)
    {
      hide ChainOk, FiltersOk, Tree, AncestorAt;
      if snap.latest.None? {
        return 0;
      }
      Built(snap.latest.value);
      Itself(snap.latest.value);
      var header := headers[snap.latest.value];
      if header.hash in snap.numbers {
        start := header.number + 1;
        OnChain(snap, header.hash);
        AllBelow(snap, header.number);
        return;
      }
      while header.parent !in snap.numbers
        invariant header.hash in filters && header.hash in headers && header == headers[header.hash]
        invariant header.hash !in snap.numbers && header.number <= headers[snap.latest.value].number
        invariant header.hash == AncestorAt(genesis, headers, snap.latest.value, header.number)
        decreases header.number
      {
        GenesisOnChain(snap);
        Built(header.hash);
        Built(header.parent);
        AncestorStep(genesis, headers, snap.latest.value, header.number);
        header := headers[header.parent];
      }
      GenesisOnChain(snap);
      Built(header.hash);
      OnChain(snap, header.parent);
      AncestorStep(genesis, headers, snap.latest.value, header.number);
      start := header.number;
      AllBelow(snap, header.number - 1);
      OffChain(snap, header.hash);
    }

    lemma Itself(h: Hash)
      requires Valid() && h in headers
      ensures AncestorAt(genesis, headers, h, headers[h].number) == h
    {
    }

    lemma AllBelow(snap: Snapshot, i: nat)
      requires Valid() && ChainOk(genesis, headers, snap) && i < |snap.main| && snap.main[i] in filters
      ensures forall j :: 0 <= j <= i ==> snap.main[j] in filters
    {
      forall j | 0 <= j <= i
        ensures snap.main[j] in filters
      {
        FilteredBelow(snap, i, j);
      }
    }

    lemma OffChain(snap: Snapshot, h: Hash)
      requires ChainOk(genesis, headers, snap) && h !in snap.numbers
      ensures h !in snap.main
    {
    }

    lemma OnChain(snap: Snapshot, h: Hash)
      requires Tree(genesis, headers) && ChainOk(genesis, headers, snap) && h in snap.numbers
      ensures h in headers && headers[h].number < |snap.main| && snap.main[headers[h].number] == h
    {
    }

    lemma HeaderAt(snap: Snapshot, n: nat)
      requires Valid() && ChainOk(genesis, headers, snap) && n < |snap.main|
      ensures snap.main[n] in headers && headers[snap.main[n]].hash == snap.main[n]
      ensures if n == 0 then snap.main[n] == genesis else headers[snap.main[n]].parent == snap.main[n - 1]
    {
    }

    lemma GenesisOnChain(snap: Snapshot)
      requires ChainOk(genesis, headers, snap)
      ensures genesis in snap.numbers
    {
      assert snap.main[0] == genesis;
    }

    /** Build the filter of one block, unless it is there. The filter of its parent is found. */
    method BuildForBlock(header: Header, filterData: int)
      requires Valid() && header.hash in headers && header == headers[header.hash]
      requires header.hash == genesis || header.parent in filters
      modifies `filters, `data, `latest
      ensures Valid() && filters.Keys == old(filters).Keys + {header.hash}
      ensures forall h :: h in old(filters) ==> filters[h] == old(filters)[h]
      ensures header.hash in old(filters) ==> unchanged(this)
      ensures header.hash !in old(filters) ==> data == old(data)[header.hash := filterData]
                                               && latest == Some(header.hash)
    {
      if header.hash in filters {
        assert filters.Keys == filters.Keys + {header.hash};
        return;
      }
      var parentHash := if header.number == 0 then 0 else filters[header.parent];
      OneMoreFilter(genesis, headers, hash, filters, data, header.hash, filterData, hash(parentHash, filterData));
      hide FiltersOk;
      filters := filters[header.hash := hash(parentHash, filterData)];
      data := data[header.hash := filterData];
      latest := Some(header.hash);
    }

    /** One pass. `built` gives the data of the filter of a block, `stop` the number of blocks
        after which the pass is broken off. */
    method BuildFilterData(snap: Snapshot, built: Hash -> int, stop: Option<nat>) returns (completed: bool)
      requires Valid() && ChainOk(genesis, headers, snap) && (snap.latest.Some? ==> snap.latest.value in filters)
      modifies `filters, `data, `latest
      ensures Valid()
      ensures forall h :: h in old(filters) ==> h in filters && filters[h] == old(filters)[h]
      ensures forall h :: h in filters && h !in old(filters) ==> h in snap.main && h in data && data[h] == built(h)
      ensures stop.None? ==> completed
      ensures completed ==> forall i :: 0 <= i < |snap.main| ==> snap.main[i] in filters
    {
      hide Valid, ChainOk, PartsAt;
      var start := StartNumber(snap);
      var n := start;
      while n < |snap.main|
        invariant start <= n <= |snap.main| && Valid()
        invariant forall h :: h in old(filters) ==> h in filters && filters[h] == old(filters)[h]
        invariant forall i :: 0 <= i < n ==> snap.main[i] in filters
        invariant forall h :: h in filters && h !in old(filters) ==> h in snap.main && h in data && data[h] == built(h)
      {
        if stop == Some(n - start) {
          return false;
        }
        HeaderAt(snap, n);
        var header := headers[snap.main[n]];
        BuildForBlock(header, built(header.hash));
        n := n + 1;
      }
      completed := true;
    }
  }
}
