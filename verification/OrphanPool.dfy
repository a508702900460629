/** The pool of blocks that wait for their parent, grouped by parent. */
module OrphanPool {
  import opened Basics

  type Hash = int

  datatype Lonely = Lonely(hash: Hash, parent: Hash, number: nat, epoch: nat)

  /** `blocks` come parents first: each is a child of `root` or of a block before it. */
  ghost predicate ParentsFirst(root: Hash, blocks: seq<Lonely>) {
    forall i :: 0 <= i < |blocks| ==> blocks[i].parent == root || exists j ::
                                        0 <= j < i && blocks[j].hash == blocks[i].parent
  }

  ghost predicate NoDuplicates(blocks: seq<Lonely>) {
    forall i, j :: 0 <= i < j < |blocks| ==> blocks[i].hash != blocks[j].hash
  }

  function HashSet(blocks: seq<Lonely>): set<Hash> {
    set i | 0 <= i < |blocks| :: blocks[i].hash
  }

  type Groups = map<Hash, map<Hash, Lonely>>

  /** A block is found under its parent. */
  ghost predicate Filed(blocks: Groups, parents: map<Hash, Hash>) {
    && (forall p :: p in blocks ==> blocks[p].Keys != {})
    && (forall p, h :: p in blocks && h in blocks[p] ==>
          h in parents && parents[h] == p && blocks[p][h].hash == h && blocks[p][h].parent == p)
    && (forall h :: h in parents ==> parents[h] in blocks && h in blocks[parents[h]])
  }

  function Siblings(blocks: Groups, p: Hash): map<Hash, Lonely> {
    if p in blocks then blocks[p] else map[]
  }

  lemma InsertFiled(blocks: Groups, parents: map<Hash, Hash>, b: Lonely)
    requires Filed(blocks, parents) && (b.hash in parents ==> parents[b.hash] == b.parent)
    ensures Filed(blocks[b.parent := Siblings(blocks, b.parent)[b.hash := b]], parents[b.hash := b.parent])
  {
    var siblings := Siblings(blocks, b.parent)[b.hash := b];
    var blocks': Groups := blocks[b.parent := siblings];
    var parents' := parents[b.hash := b.parent];
    assert b.hash in siblings;
    forall p, h | p in blocks' && h in blocks'[p]
      ensures h in parents' && parents'[h] == p && blocks'[p][h].hash == h && blocks'[p][h].parent == p
    {
      if p != b.parent {
        assert h in blocks[p];
      } else if h != b.hash {
        assert p in blocks && h in blocks[p];
      }
    }
    forall h | h in parents'
      ensures parents'[h] in blocks' && h in blocks'[parents'[h]]
    {
      if h != b.hash {
        assert parents[h] in blocks && h in blocks[parents[h]];
      }
    }
    forall p | p in blocks'
      ensures blocks'[p].Keys != {}
    {
      if p != b.parent {
        assert p in blocks;
      } else {
        assert b.hash in blocks'[p].Keys;
      }
    }
    assert Filed(blocks', parents');
  }

  function Front(hashes: seq<Hash>, n: nat): set<Hash>
    requires n <= |hashes|
  {
    set h | h in hashes[..n]
  }

  lemma FrontStep(hashes: seq<Hash>, n: nat)
    requires n < |hashes|
    ensures Front(hashes, n + 1) == Front(hashes, n) + {hashes[n]}
  {
    assert hashes[..n + 1] == hashes[..n] + [hashes[n]];
  }

  lemma FrontNone(hashes: seq<Hash>)
    ensures Front(hashes, 0) == {}
  {
  }

  lemma FrontAll(hashes: seq<Hash>, keys: set<Hash>)
    requires forall h :: h in hashes <==> h in keys
    ensures Front(hashes, |hashes|) == keys
  {
    assert hashes[..|hashes|] == hashes;
    assert forall h :: h in Front(hashes, |hashes|) <==> h in keys;
  }

  function Values(group: map<Hash, Lonely>, hashes: seq<Hash>): (r: seq<Lonely>)
    requires forall i :: 0 <= i < |hashes| ==> hashes[i] in group
    ensures |r| == |hashes| && forall i :: 0 <= i < |hashes| ==> r[i] == group[hashes[i]]
  {
    seq(|hashes|, i requires 0 <= i < |hashes| => group[hashes[i]])
  }

  /** The blocks of a group, each once. */
  function Listed(group: map<Hash, Lonely>): seq<Lonely> {
    var hashes := Ascending(group.Keys);
    assert forall i :: 0 <= i < |hashes| ==> hashes[i] in hashes;
    Values(group, hashes)
  }

  // ----- Taking out a subtree -----

  function HashesIn(blocks: seq<Lonely>): (r: seq<Hash>)
    ensures |r| == |blocks| && forall i :: 0 <= i < |blocks| ==> r[i] == blocks[i].hash
  {
    seq(|blocks|, i requires 0 <= i < |blocks| => blocks[i].hash)
  }

  /** `b` is one of the blocks of the pool. */
  predicate InPool(blocks: Groups, parents: map<Hash, Hash>, b: Lonely) {
    b.hash in parents && parents[b.hash] == b.parent && b.parent in blocks && b.hash in blocks[b.parent]
    && blocks[b.parent][b.hash] == b
  }

  /** What has been taken out on the way: `gone` are the blocks whose children have been taken,
      `removed` all blocks taken, and `queue` has those whose children may still be there. */
  ghost predicate Taken(blocks: Groups, parents: map<Hash, Hash>, root: Hash, gone: set<Hash>, removed: seq<Lonely>,
                        queue: seq<Hash>) {
    && Filed(blocks, parents) && root in blocks && root !in parents
    && ParentsFirst(root, removed) && NoDuplicates(removed)
    && (forall i :: 0 <= i < |removed| ==> InPool(blocks, parents, removed[i]) && removed[i].parent in gone)
    && (forall h :: h in parents && parents[h] in gone ==> h in HashSet(removed))
    && (forall i :: 0 <= i < |queue| ==> queue[i] == root || queue[i] in HashSet(removed))
    && (forall h :: h == root || h in HashSet(removed) ==> h in queue || h in gone || h !in blocks)
    && (forall h :: h in gone ==> h in blocks && (h == root || h in HashSet(removed)))
  }

  lemma StartTaking(blocks: Groups, parents: map<Hash, Hash>, root: Hash)
    requires Filed(blocks, parents) && root in blocks && root !in parents
    ensures Taken(blocks, parents, root, {}, [], [root])
    ensures blocks - {} == blocks && parents - HashSet([]) == parents
  {
  }

  lemma TakenSkip(blocks: Groups, parents: map<Hash, Hash>, root: Hash, gone: set<Hash>, removed: seq<Lonely>,
                  queue: seq<Hash>, p: Hash)
    requires Taken(blocks, parents, root, gone, removed, [p] + queue) && p !in blocks - gone
    ensures Taken(blocks, parents, root, gone, removed, queue)
  {
    hide Filed, ParentsFirst, NoDuplicates, InPool;
    var longer := [p] + queue;
    assert forall i :: 0 <= i < |queue| ==> queue[i] == longer[i + 1];
  }

  lemma ListFacts(group: map<Hash, Lonely>)
    requires forall h :: h in group ==> group[h].hash == h
    ensures forall i :: 0 <= i < |Listed(group)| ==> Listed(group)[i].hash in group
                                                     && group[Listed(group)[i].hash] == Listed(group)[i]
    ensures NoDuplicates(Listed(group)) && HashSet(Listed(group)) == group.Keys
  {
    hide Ascending;
    var hashes, list := Ascending(group.Keys), Listed(group);
    assert forall i :: 0 <= i < |hashes| ==> hashes[i] in hashes;
    assert forall i :: 0 <= i < |list| ==> list[i].hash == hashes[i];
    forall h | h in group
      ensures h in HashSet(list)
    {
      var i :| 0 <= i < |hashes| && hashes[i] == h;
      assert list[i].hash == h;
    }
  }

  lemma GroupOk(blocks: Groups, parents: map<Hash, Hash>, p: Hash)
    requires Filed(blocks, parents) && p in blocks
    ensures forall h :: h in blocks[p] ==> blocks[p][h].hash == h && blocks[p][h].parent == p && h in parents
                                           && parents[h] == p
  {
  }

  lemma ChildFacts(blocks: Groups, parents: map<Hash, Hash>, p: Hash, children: seq<Lonely>)
    requires Filed(blocks, parents) && p in blocks && children == Listed(blocks[p])
    ensures forall i :: 0 <= i < |children| ==> InPool(blocks, parents, children[i]) && children[i].parent == p
    ensures NoDuplicates(children) && HashSet(children) == blocks[p].Keys
  {
    hide Filed, Listed, NoDuplicates, HashSet;
    GroupOk(blocks, parents, p);
    ListFacts(blocks[p]);
  }

  lemma TakenFirst(blocks: Groups, parents: map<Hash, Hash>, root: Hash, gone: set<Hash>, removed: seq<Lonely>,
                   queue: seq<Hash>,
                   p: Hash, children: seq<Lonely>)
    requires Taken(blocks, parents, root, gone, removed, [p] + queue) && p in blocks && p !in gone
             && children == Listed(blocks[p])
    ensures ParentsFirst(root, removed + children) && NoDuplicates(removed + children)
  {
    hide Filed, Listed;
    ChildFacts(blocks, parents, p, children);
    var all := removed + children;
    assert ([p] + queue)[0] == p;
    forall i | 0 <= i < |all|
      ensures all[i].parent == root || exists j :: 0 <= j < i && all[j].hash == all[i].parent
    {
      if i < |removed| {
        if removed[i].parent != root {
          var j :| 0 <= j < i && removed[j].hash == removed[i].parent;
          assert all[j].hash == all[i].parent;
        }
      } else if p != root {
        var j :| 0 <= j < |removed| && removed[j].hash == p;
        assert all[j].hash == all[i].parent;
      }
    }
  }

  lemma HashSetConcat(a: seq<Lonely>, b: seq<Lonely>)
    ensures HashSet(a + b) == HashSet(a) + HashSet(b)
  {
    var all := a + b;
    forall h | h in HashSet(b)
      ensures h in HashSet(all)
    {
      var i :| 0 <= i < |b| && b[i].hash == h;
      assert all[|a| + i].hash == h;
    }
    forall h | h in HashSet(a)
      ensures h in HashSet(all)
    {
      var i :| 0 <= i < |a| && a[i].hash == h;
      assert all[i].hash == h;
    }
  }

  lemma TakenStep(blocks: Groups, parents: map<Hash, Hash>, root: Hash, gone: set<Hash>, removed: seq<Lonely>,
                  queue: seq<Hash>,
                  p: Hash, children: seq<Lonely>)
    requires Taken(blocks, parents, root, gone, removed, [p] + queue) && p in blocks && p !in gone
             && children == Listed(blocks[p])
    ensures Taken(blocks, parents, root, gone + {p}, removed + children, queue + HashesIn(children))
    ensures HashSet(removed + children) == HashSet(removed) + blocks[p].Keys
  {
    TakenFirst(blocks, parents, root, gone, removed, queue, p, children);
    ChildFacts(blocks, parents, p, children);
    HashSetConcat(removed, children);
    TakenRest(blocks, parents, root, gone, removed, queue, p, children);
  }

  lemma TakenRest(blocks: Groups, parents: map<Hash, Hash>, root: Hash, gone: set<Hash>, removed: seq<Lonely>,
                  queue: seq<Hash>,
                  p: Hash, children: seq<Lonely>)
    requires Taken(blocks, parents, root, gone, removed, [p] + queue) && p in blocks
    requires forall i :: 0 <= i < |children| ==> InPool(blocks, parents, children[i]) && children[i].parent == p
    requires HashSet(children) == blocks[p].Keys && HashSet(removed + children) == HashSet(removed) + HashSet(children)
    requires ParentsFirst(root, removed + children) && NoDuplicates(removed + children)
    ensures Taken(blocks, parents, root, gone + {p}, removed + children, queue + HashesIn(children))
  {
    hide ParentsFirst, NoDuplicates, InPool;
    var longer, next := [p] + queue, queue + HashesIn(children);
    assert longer[0] == p;
    assert forall i :: 0 <= i < |queue| ==> queue[i] == longer[i + 1];
    forall h | h in parents && parents[h] == p
      ensures h in HashSet(children)
    {
    }
    forall i | 0 <= i < |next|
      ensures next[i] == root || next[i] in HashSet(removed + children)
    {
      if i >= |queue| {
        assert next[i] == children[i - |queue|].hash;
      }
    }
    forall h | h == root || h in HashSet(removed + children)
      ensures h in next || h in gone + {p} || h !in blocks
    {
      if h in HashSet(children) {
        var i :| 0 <= i < |children| && children[i].hash == h;
        assert next[|queue| + i] == h;
      } else {
        assert h in longer || h in gone || h !in blocks;
      }
    }
  }

  lemma Fewer(blocks: Groups, gone: set<Hash>, p: Hash)
    requires p in blocks && p !in gone
    ensures |(blocks - (gone + {p})).Keys| < |(blocks - gone).Keys|
    ensures (blocks - gone) - {p} == blocks - (gone + {p})
  {
    assert (blocks - gone).Keys == (blocks - (gone + {p})).Keys + {p};
  }

  /** When the queue is empty, all descendants are out and the rest of the pool is in order. */
  lemma TakenAll(blocks: Groups, parents: map<Hash, Hash>, leaders: set<Hash>, root: Hash, gone: set<Hash>,
                 removed: seq<Lonely>)
    requires Taken(blocks, parents, root, gone, removed, [])
    requires forall p :: p in leaders <==> p in blocks && p !in parents
    ensures Filed(blocks - gone, parents - HashSet(removed))
    ensures forall p :: p in leaders - {root} <==> p in blocks - gone && p !in parents - HashSet(removed)
    ensures forall h :: h in parents && (parents[h] == root || parents[h] in HashSet(removed)) ==> h in HashSet(removed)
    ensures removed != []
    ensures forall i :: 0 <= i < |removed| ==> InPool(blocks, parents, removed[i])
    ensures ParentsFirst(root, removed) && NoDuplicates(removed)
  {
    hide ParentsFirst, NoDuplicates;
    assert root in gone;
    var h := Pick(blocks[root].Keys);
    assert h in parents && parents[h] == root;
    var i :| 0 <= i < |removed| && removed[i].hash == h;
    RestFiled(blocks, parents, gone, HashSet(removed));
  }

  lemma RestFiled(blocks: Groups, parents: map<Hash, Hash>, gone: set<Hash>, out: set<Hash>)
    requires Filed(blocks, parents) && forall h :: h in parents ==> (parents[h] in gone <==> h in out)
    ensures Filed(blocks - gone, parents - out)
  {
    var blocks': Groups := blocks - gone;
    var parents' := parents - out;
    forall p, h | p in blocks' && h in blocks'[p]
      ensures h in parents' && parents'[h] == p && blocks'[p][h].hash == h && blocks'[p][h].parent == p
    {
      assert p in blocks && h in blocks[p];
    }
    forall h | h in parents'
      ensures parents'[h] in blocks' && h in blocks'[parents'[h]]
    {
      assert parents[h] in blocks && h in blocks[parents[h]];
    }
    assert Filed(blocks', parents');
  }

  class InnerPool {
    var blocks: Groups
    var parents: map<Hash, Hash>
    var leaders: set<Hash>

    /** A block is in the pool exactly if it is a key of `parents`. Leaders are the parents that
        are not in the pool themselves. */
    ghost predicate Valid()
      reads this
    {
      Filed(blocks, parents) && forall p :: p in leaders <==> p in blocks && p !in parents
    }

    constructor ()
      ensures Valid() && parents == map[]
    {
      blocks, parents, leaders := map[], map[], {};
    }

    method Insert(b: Lonely)
      requires Valid() && b.hash != b.parent && (b.hash in parents ==> parents[b.hash] == b.parent)
      modifies this
      ensures Valid() && parents == old(parents)[b.hash := b.parent]
      ensures blocks == old(blocks)[b.parent := Siblings(old(blocks), b.parent)[b.hash := b]]
    {
      hide Filed;
      InsertFiled(blocks, parents, b);
      blocks := blocks[b.parent := Siblings(blocks, b.parent)[b.hash := b]];
      leaders := leaders - {b.hash};
      if b.parent !in parents {
        leaders := leaders + {b.parent};
      }
      parents := parents[b.hash := b.parent];
    }

    /** The children of `p`, taken out of the pool. */
    method TakeChildren(p: Hash) returns (children: seq<Lonely>)
      requires p in blocks
      modifies `blocks, `parents
      ensures blocks == old(blocks) - {p} && parents == old(parents) - old(blocks)[p].Keys
      ensures children == Listed(old(blocks)[p])
    {
      hide Ascending, Front, Listed;
      var orphaned := blocks[p];
      blocks := blocks - {p};
      var hashes := Ascending(orphaned.Keys);
      children := Listed(orphaned);
      Unlink(hashes);
      FrontAll(hashes, orphaned.Keys);
    }

    method Unlink(hashes: seq<Hash>)
      modifies `parents
      ensures parents == old(parents) - Front(hashes, |hashes|)
    {
      hide Front;
      FrontNone(hashes);
      for i := 0 to |hashes|
        invariant parents == old(parents) - Front(hashes, i)
      {
        FrontStep(hashes, i);
        parents := parents - {hashes[i]};
      }
    }

    /** The pool has come to the point described by `Taken`. */
    ghost predicate Going(blocks0: Groups, parents0: map<Hash, Hash>, leaders0: set<Hash>, root: Hash,
                          gone: set<Hash>, removed: seq<Lonely>, queue: seq<Hash>)
      reads this
    {
      && Taken(blocks0, parents0, root, gone, removed, queue)
      && blocks == blocks0 - gone && parents == parents0 - HashSet(removed) && leaders == leaders0 - {root}
    }

    /** Take the children of the next block, if there are any. */
    method TakeNext(p: Hash, queue: seq<Hash>, removed: seq<Lonely>, ghost blocks0: Groups,
                    ghost parents0: map<Hash, Hash>,
                    ghost leaders0: set<Hash>, ghost root: Hash, ghost gone: set<Hash>)
      returns (queue': seq<Hash>, removed': seq<Lonely>, ghost gone': set<Hash>)
      requires Going(blocks0, parents0, leaders0, root, gone, removed, [p] + queue)
      modifies `blocks, `parents
      ensures Going(blocks0, parents0, leaders0, root, gone', removed', queue')
      ensures |blocks.Keys| < old(|blocks.Keys|) || (blocks == old(blocks) && queue' == queue)
    {
      hide Taken, Listed, HashSet, HashesIn;
      queue', removed', gone' := queue, removed, gone;
      if p in blocks {
        Fewer(blocks0, gone, p);
        assert blocks[p] == blocks0[p];
        var children := TakeChildren(p);
        TakenStep(blocks0, parents0, root, gone, removed, queue, p, children);
        queue' := queue + HashesIn(children);
        removed' := removed + children;
        gone' := gone + {p};
      } else {
        TakenSkip(blocks0, parents0, root, gone, removed, queue, p);
      }
    }

    /** Take out all descendants of `root`, children before grandchildren. */
    method RemoveBlocksByParent(root: Hash) returns (removed: seq<Lonely>)
      requires Valid()
      modifies this
      ensures Valid()
      ensures root !in old(leaders) ==> removed == [] && unchanged(this)
      ensures root in old(leaders) ==> ParentsFirst(root, removed) && NoDuplicates(removed) && removed != []
      ensures root in old(leaders) ==> forall i :: 0 <= i < |removed| ==> InPool(old(blocks), old(parents), removed[i])
      ensures root in old(leaders) ==>
                forall h :: h in old(parents) && (old(parents)[h] == root || old(parents)[h] in HashSet(removed)) ==>
                              h in HashSet(removed)
      ensures root in old(leaders) ==> parents == old(parents) - HashSet(removed)
    {
      hide Filed, ParentsFirst, NoDuplicates, HashSet, InPool, Taken;
      if root !in leaders {
        return [];
      }
      ghost var blocks0, parents0, leaders0 := blocks, parents, leaders;
      StartTaking(blocks0, parents0, root);
      leaders := leaders - {root};
      var queue := [root];
      removed := [];
      ghost var gone: set<Hash> := {};
      while queue != []
        invariant Going(blocks0, parents0, leaders0, root, gone, removed, queue)
        decreases |blocks.Keys|, |queue|
      {
        assert queue == [queue[0]] + queue[1..];
        queue, removed, gone := TakeNext(queue[0], queue[1..], removed, blocks0, parents0, leaders0, root, gone);
      }
      TakenAll(blocks0, parents0, leaders0, root, gone, removed);
    }
  }
}
