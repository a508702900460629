/** What becomes of a submitted block, told from the store before: which blocks are refused, which
    are kept on a side branch, and which move the main chain. */
module ChainVerdicts {
  import opened Basics
  import opened ChainState
  import opened ChainReplay
  import opened ChainEngine
  import opened ChainFork

  /** Block `i` of `p` is not on record as verified, and does not pass on top of those before it. */
  predicate Fails(rules: Rules, exts: map<Hash, Ext>, p: seq<Block>, switch: Switch, i: int) {
    && 0 <= i < |p| && !IsVerified(exts, p[i].hash)
    && !(Resolves(Replay(p[..i]), p[i]) && rules.valid(Replay(p[..i]), HashesOf(p[..i]), p[i], switch))
  }

  ghost predicate SomeFails(rules: Rules, exts: map<Hash, Ext>, p: seq<Block>, switch: Switch) {
    exists i :: Fails(rules, exts, p, switch, i)
  }

  /** `b` makes the chain `p` with total difficulty `total`. */
  ghost predicate Makes(st: Store, b: Block, p: seq<Block>, total: int) {
    b.parent in st.exts ==> p == PathTo(st.blocks, b.parent) + [b] && total == st.exts[b.parent].total + b.difficulty
  }

  ghost predicate IsHeavier(st: Store, b: Block, total: int) {
    b.parent in st.exts && b.hash !in st.exts && st.tip in st.exts && total > st.exts[st.tip].total
  }

  lemma CheckedMeans(rules: Rules, st: Store, b: Block, switch: Switch, p: seq<Block>, total: int)
    requires StoreInv(rules, st) && Submitted(st, b) && b.parent in st.exts && b.hash !in st.exts
    requires Makes(st, b, p, total)
    ensures AllChecked(rules, p, VerifiedLen(st.exts, p), switch) <==> !SomeFails(rules, st.exts, p, switch)
  {
    hide Path, PathTo, Replay, TreeOk, ExtsOk, BlocksOk, TipOk, Heaviest, VerifiedLen;
    var exts := st.exts[b.hash := Ext(st.exts[b.parent].total + b.difficulty, None)];
    NewExt(rules, st, b);
    SameVerifiedLen(st.exts, exts, p);
    var n := VerifiedLen(st.exts, p);
    forall i | 0 <= i < |p|
      ensures IsVerified(st.exts, p[i].hash) <==> i < n
    {
      VerifiedBelow(rules, st.genesis, st.blocks, exts, b.hash, i);
    }
    if AllChecked(rules, p, n, switch) {
      forall i
        ensures !Fails(rules, st.exts, p, switch, i)
      {
        assert 0 <= n <= i < |p| ==> Checked(rules, p[..i], p[i], switch);
      }
    } else {
      var i :| 0 <= n <= i < |p| && !Checked(rules, p[..i], p[i], switch);
      assert Fails(rules, st.exts, p, switch, i);
    }
  }

  /** The verdict on a block, whichever branch it is on. It is rejected if and only if its parent
      is not in the tree, or it would make the heaviest chain and a block of that chain which was
      not verified before does not pass. A block of the tree changes nothing. A new one that is
      not heavier than the tip stays on its branch; one that is becomes the tip. */
  lemma VerdictIs(rules: Rules, st: Store, b: Block, switch: Switch, p: seq<Block>, total: int)
    requires StoreInv(rules, st) && Submitted(st, b) && !switch.disableAll && Makes(st, b, p, total)
    ensures Verify(rules, st, b, switch).outcome == Rejected <==>
            b.parent !in st.exts || (IsHeavier(st, b, total) && SomeFails(rules, st.exts, p, switch))
    ensures Verify(rules, st, b, switch).outcome == Rejected ==> Verify(rules, st, b, switch).store == st
    ensures b.hash in st.exts ==> Verify(rules, st, b, switch)
                                  == Verdict(st, if st.exts[b.hash].verified.Some? then Known else NewBlock)
    ensures b.parent in st.exts && b.hash !in st.exts && total <= st.exts[st.tip].total ==>
              Verify(rules, st, b, switch) == Verdict(st.(exts := st.exts[b.hash := Ext(total, None)]), NewBlock)
    ensures IsHeavier(st, b, total) && !SomeFails(rules, st.exts, p, switch) ==>
              Verify(rules, st, b, switch).outcome == NewBlock
              && Adopts(rules, st, Verify(rules, st, b, switch).store, b, p, total)
  {
    hide StoreInv, Verify, SomeFails, Adopts, Makes;
    if b.parent !in st.exts {
      OutsideVerdict(rules, st, b, switch);
    } else if b.hash in st.exts {
      KnownVerdict(rules, st, b, switch);
    } else {
      TreeFacts(rules, st, b.parent);
      CheckedMeans(rules, st, b, switch, p, total);
      NewVerdict(rules, st, b, switch, p, total);
    }
  }

  lemma TreeFacts(rules: Rules, st: Store, h: Hash)
    requires StoreInv(rules, st) && h in st.exts
    ensures st.tip in st.exts && st.exts[h].total <= st.exts[st.tip].total && h !in st.invalid
    ensures st.exts[h].verified != Some(false) && Stored(st.blocks, st.blocks[h])
    ensures h != st.genesis ==>
              st.blocks[h].parent in st.exts
              && st.exts[h].total == st.exts[st.blocks[h].parent].total + st.blocks[h].difficulty
  {
    hide TipOk, BlocksOk, Passed, PathTo;
    assert Placed(st.genesis, st.blocks, st.exts, h) && ExtOk(rules, st.genesis, st.blocks, st.exts, h);
  }

  /** A block that is not in the tree while its parent is not either. */
  lemma OutsideVerdict(rules: Rules, st: Store, b: Block, switch: Switch)
    requires StoreInv(rules, st) && Submitted(st, b) && b.parent !in st.exts
    ensures Verify(rules, st, b, switch) == Verdict(st, Rejected) && b.hash !in st.exts
  {
    hide StoreInv, Replay, PathTo, AllChecked, VerifiedLen, Window, Leaves, Confirm;
    if b.hash in st.exts {
      TreeFacts(rules, st, b.hash);
    }
  }

  lemma KnownVerdict(rules: Rules, st: Store, b: Block, switch: Switch)
    requires StoreInv(rules, st) && Submitted(st, b) && b.hash in st.exts
    ensures b.parent in st.exts && st.tip in st.exts
    ensures Verify(rules, st, b, switch) == Verdict(st, if st.exts[b.hash].verified.Some? then Known else NewBlock)
  {
    hide StoreInv, Replay, PathTo, AllChecked, VerifiedLen, Window, Leaves, Confirm;
    TreeFacts(rules, st, b.hash);
    TreeFacts(rules, st, b.parent);
  }

  lemma NewVerdict(rules: Rules, st: Store, b: Block, switch: Switch, p: seq<Block>, total: int)
    requires b.parent in st.exts && b.hash !in st.exts && st.tip in st.exts && b.parent !in st.invalid
    requires st.exts[b.parent].verified != Some(false) && Makes(st, b, p, total) && !switch.disableAll
    ensures total <= st.exts[st.tip].total ==>
              Verify(rules, st, b, switch) == Verdict(st.(exts := st.exts[b.hash := Ext(total, None)]), NewBlock)
    ensures total > st.exts[st.tip].total && !AllChecked(rules, p, VerifiedLen(st.exts, p), switch) ==>
              Verify(rules, st, b, switch) == Verdict(st, Rejected)
    ensures total > st.exts[st.tip].total && AllChecked(rules, p, VerifiedLen(st.exts, p), switch) ==>
              Verify(rules, st, b, switch).outcome == NewBlock
              && Adopts(rules, st, Verify(rules, st, b, switch).store, b, p, total)
  {
    hide Replay, PathTo, AllChecked, VerifiedLen, Window, OnPath;
    TipConfirmed(st.exts[b.hash := Ext(total, None)], p, b);
  }

  /** `st'` is `st` with the main chain moved to `p`, whose blocks are all on record as verified. */
  ghost predicate Adopts(rules: Rules, st: Store, st': Store, b: Block, p: seq<Block>, total: int) {
    && st'.tip == b.hash && st'.view == Replay(p) && st'.table == Window(rules.farthest, p)
    && st'.blocks == st.blocks && st'.genesis == st.genesis && st'.invalid == st.invalid
    && (forall k :: k in st'.mmr <==> k in st.mmr || 0 <= k < |p|)
    && (forall k :: k in st'.mmr ==> st'.mmr[k] == if 0 <= k < |p| then p[k].hash else st.mmr[k])
    && st'.exts.Keys == st.exts.Keys + {b.hash} && st'.exts[b.hash] == Ext(total, Some(true))
    && (forall h :: h in st.exts ==>
          st'.exts[h] == if OnPath(p, h) then Ext(st.exts[h].total, Some(true)) else st.exts[h])
  }

  /** A rejected block is gone and on record as invalid; any other stays, is in the tree and is not
      on record as invalid, whatever was said of it before. */
  lemma SubmissionEnds(rules: Rules, st: Store, b: Block, switch: Switch, p: seq<Block>, total: int, st': Store)
    requires StoreInv(rules, st) && Submitted(st, b) && !switch.disableAll && Makes(st, b, p, total)
    requires st' == Consume(rules, st, b, switch)
    ensures b.parent !in st.exts || (IsHeavier(st, b, total) && SomeFails(rules, st.exts, p, switch)) ==>
              && b.hash !in st.exts && b.hash !in st'.blocks && b.hash in st'.invalid
              && st' == st.(blocks := st.blocks - {b.hash}, invalid := st.invalid + {b.hash})
    ensures b.parent in st.exts && (IsHeavier(st, b, total) ==> !SomeFails(rules, st.exts, p, switch)) ==>
              && Stored(st'.blocks, b) && st'.blocks == st.blocks
              && st'.exts.Keys == st.exts.Keys + {b.hash} && st'.invalid == st.invalid - {b.hash}
  {
    hide StoreInv, Verify, SomeFails, Makes;
    VerdictIs(rules, st, b, switch, p, total);
    if b.parent in st.exts && b.hash !in st.exts {
      TreeFacts(rules, st, b.parent);
    }
    if b.hash in st.exts {
      KnownVerdict(rules, st, b, switch);
    }
  }

  // ----- Two branches -----

  /** `b` may arrive in `st`, and be verified after. */
  ghost predicate Arrives(rules: Rules, st: Store, b: Block, switch: Switch) {
    && Admissible(rules, st, Arrive(b)) && !switch.disableAll
    && b.parent in st.exts && b.parent in st.blocks && b.hash !in st.blocks
    && b.number == st.blocks[b.parent].number + 1
  }

  /** A block that is new arrives and is verified: it stays on a side branch or becomes the tip. */
  lemma SubmitNew(rules: Rules, st: Store, b: Block, switch: Switch, p: seq<Block>, total: int, st': Store)
    requires StoreInv(rules, st) && Arrives(rules, st, b, switch) && Makes(st, b, p, total)
    requires st.tip in st.exts && (total > st.exts[st.tip].total ==> !SomeFails(rules, st.exts, p, switch))
    requires st' == After(rules, st, [Arrive(b), Submit(b, switch)])
    ensures AdmissibleRun(rules, st, [Arrive(b), Submit(b, switch)])
    ensures StoreInv(rules, st')
    ensures b.hash in st'.exts && b.hash in st'.blocks && st'.blocks == st.blocks[b.hash := b]
    ensures st'.genesis == st.genesis
    ensures PathTo(st'.blocks, b.hash) == p && st'.exts[b.hash].total == total
    ensures total > st.exts[st.tip].total ==> st'.tip == b.hash && st'.view == Replay(p)
    ensures total <= st.exts[st.tip].total ==> st'.tip == st.tip && st'.view == st.view
    ensures forall h :: h in st.exts ==> h in st'.exts && st'.exts[h].total == st.exts[h].total
    ensures forall h :: IsVerified(st.exts, h) ==> IsVerified(st'.exts, h)
  {
    hide StoreInv, Verify, After, AdmissibleRun, WellFormed, NoCollision, PathTo, Replay, Window, SomeFails;
    var st1 := st.(blocks := st.blocks[b.hash := b]);
    Stored1(rules, st, b, switch, p, total);
    Two(rules, st, Arrive(b), Submit(b, switch));
    VerdictIs(rules, st1, b, switch, p, total);
    ConsumeKeeps(rules, st1, b, switch);
  }

  lemma Stored1(rules: Rules, st: Store, b: Block, switch: Switch, p: seq<Block>, total: int)
    requires StoreInv(rules, st) && Arrives(rules, st, b, switch) && Makes(st, b, p, total)
    ensures StoreInv(rules, st.(blocks := st.blocks[b.hash := b])) && b.hash !in st.exts
    ensures Submitted(st.(blocks := st.blocks[b.hash := b]), b)
    ensures Makes(st.(blocks := st.blocks[b.hash := b]), b, p, total)
    ensures PathTo(st.blocks[b.hash := b], b.hash) == p
  {
    hide BlocksOk, ExtsOk, TipOk, Heaviest, WellFormed, NoCollision, Path, PathTo;
    var st1 := st.(blocks := st.blocks[b.hash := b]);
    forall h | h in st.exts
      ensures h in st.blocks && h in st1.blocks && st1.blocks[h] == st.blocks[h]
    {
      assert Placed(st.genesis, st.blocks, st.exts, h);
    }
    ArriveKeeps(rules, st, b);
    PathFrame(st.genesis, st.blocks, st1.blocks, st.exts, b.parent);
    NewExt(rules, st1, b);
  }

  lemma Two(rules: Rules, st: Store, a: Event, b: Event)
    ensures After(rules, st, [a, b]) == Step(rules, Step(rules, st, a), b)
    ensures AdmissibleRun(rules, st, [a, b]) <==> Admissible(rules, st, a) && Admissible(rules, Step(rules, st, a), b)
  {
    hide Step, Admissible;
    var st1 := Step(rules, st, a);
    assert [a, b][1..] == [b] && [b][1..] == [];
    assert After(rules, st1, [b]) == After(rules, Step(rules, st1, b), []);
    assert AdmissibleRun(rules, Step(rules, st1, b), []);
    assert AdmissibleRun(rules, st1, [b]) <==> Admissible(rules, st1, b);
  }

  /** No block of `p` above the first fails if each passes on those before it. */
  lemma NoneFails(rules: Rules, exts: map<Hash, Ext>, p: seq<Block>, switch: Switch)
    requires p != [] && IsVerified(exts, p[0].hash)
    requires forall i :: 0 < i < |p| ==> Checked(rules, p[..i], p[i], switch)
    ensures !SomeFails(rules, exts, p, switch)
  {
    forall i
      ensures !Fails(rules, exts, p, switch, i)
    {
      assert 0 < i < |p| ==> Checked(rules, p[..i], p[i], switch);
    }
  }

  /** `g` is the first block of `st`. */
  ghost predicate Begins(rules: Rules, st: Store, g: Block) {
    && StoreInv(rules, st) && g.number == 0 && Stored(st.blocks, g)
    && g.hash in st.exts && st.exts[g.hash].total == g.difficulty && IsVerified(st.exts, g.hash)
  }

  lemma FirstPath(blocks: map<Hash, Block>, g: Block)
    requires Stored(blocks, g) && g.number == 0
    ensures PathTo(blocks, g.hash) == [g]
  {
  }

  /** A child of the first block: the tip if it is heavier than the tip, on a branch if not. */
  lemma ChildOfFirst(rules: Rules, st: Store, g: Block, b: Block, switch: Switch, st': Store)
    requires Begins(rules, st, g) && b.parent == g.hash && b.number == 1 && b.hash !in st.blocks
    requires st' == After(rules, st, [Arrive(b), Submit(b, switch)]) && st.tip in st.exts
    requires Admissible(rules, st, Arrive(b)) && !switch.disableAll && Checked(rules, [g], b, switch)
    ensures Begins(rules, st', g) && st'.blocks == st.blocks[b.hash := b] && st'.tip in st'.exts
    ensures st'.genesis == st.genesis
    ensures b.hash in st'.exts && PathTo(st'.blocks, b.hash) == [g, b]
    ensures st'.exts[b.hash].total == g.difficulty + b.difficulty
    ensures st'.tip == if g.difficulty + b.difficulty > st.exts[st.tip].total then b.hash else st.tip
    ensures forall h :: h in st.exts ==> h in st'.exts && st'.exts[h].total == st.exts[h].total
  {
    hide StoreInv, After, Admissible, AdmissibleRun, Replay, Checked, SomeFails, PathTo;
    var p := [g, b];
    assert p[..1] == [g];
    FirstPath(st.blocks, g);
    NoneFails(rules, st.exts, p, switch);
    SubmitNew(rules, st, b, switch, p, g.difficulty + b.difficulty, st');
  }

  /** Block `a` is adopted, `c` beside it is kept on a branch of its own, and `d` on top of `c`
      makes that branch the main chain. */
  lemma BranchesReorganise(rules: Rules, g: Block, a: Block, c: Block, d: Block, switch: Switch,
                           s1: Store, s2: Store, s3: Store)
    requires StoreInv(rules, Initial(g)) && g.number == 0 && !switch.disableAll
    requires s1 == After(rules, Initial(g), [Arrive(a), Submit(a, switch)])
             && s2 == After(rules, s1, [Arrive(c), Submit(c, switch)])
             && s3 == After(rules, s2, [Arrive(d), Submit(d, switch)])
    requires Admissible(rules, Initial(g), Arrive(a)) && Admissible(rules, s1, Arrive(c))
             && Admissible(rules, s2, Arrive(d))
    requires a.parent == c.parent == g.hash && d.parent == c.hash && a.number == c.number == 1 && d.number == 2
    requires a.hash != g.hash && c.hash !in {g.hash, a.hash} && d.hash !in {g.hash, a.hash, c.hash}
    requires 0 < a.difficulty && c.difficulty <= a.difficulty < c.difficulty + d.difficulty
    requires Checked(rules, [g], a, switch) && Checked(rules, [g], c, switch) && Checked(rules, [g, c], d, switch)
    ensures s1.tip == s2.tip == a.hash && c.hash in s2.exts
    ensures s3.tip == d.hash && s3.view == Replay([g, c, d]) && a.hash in s3.exts
  {
    hide StoreInv, After, Admissible, AdmissibleRun, Replay, Checked, SomeFails, PathTo;
    ChildOfFirst(rules, Initial(g), g, a, switch, s1);
    ChildOfFirst(rules, s1, g, c, switch, s2);
    var r := [g, c, d];
    assert r[..1] == [g] && r[..2] == [g, c] && [g, c] + [d] == r;
    NoneFails(rules, s2.exts, r, switch);
    SubmitNew(rules, s2, d, switch, r, g.difficulty + c.difficulty + d.difficulty, s3);
  }

  /** The block with hash `h` that has nothing but a cellbase. */
  function Bare(h: Hash, parent: Hash, number: nat, difficulty: nat): Block {
    Block(h, parent, number, difficulty, [Tx(10 + h, number, [NULL_POINT], [])], {})
  }

  predicate IsBare(b: Block) {
    b.hash > 0 && b.number >= 0 && b == Bare(b.hash, b.parent, b.number, b.difficulty)
  }

  lemma BareArrives(rules: Rules, st: Store, b: Block)
    requires IsBare(b) && b.number > 0 && b.hash != st.genesis && b.hash !in st.blocks
    requires forall h :: h in st.blocks ==> IsBare(st.blocks[h]) && st.blocks[h].hash == h
    ensures Admissible(rules, st, Arrive(b))
  {
  }

  lemma BareBegins(rules: Rules, g: Block)
    requires IsBare(g) && g.number == 0
    ensures Begins(rules, Initial(g), g) && StoreInv(rules, Initial(g))
  {
    hide StoreInv, Replay;
    InitialInv(rules, g);
  }

  lemma BareResolves(v: View, b: Block)
    requires IsBare(b)
    ensures Resolves(v, b)
  {
  }

  /** There are such blocks: whatever passes, bare blocks of difficulty 1 do if the rules allow
      them. */
  lemma BranchesExist(rules: Rules, g: Block, a: Block, c: Block, d: Block, switch: Switch, last: Store)
    requires g == Bare(1, 0, 0, 1) && a == Bare(2, 1, 1, 1) && c == Bare(3, 1, 1, 1) && d == Bare(4, 3, 2, 1)
    requires !switch.disableAll && rules.valid(Replay([g]), HashesOf([g]), a, switch)
    requires rules.valid(Replay([g]), HashesOf([g]), c, switch)
    requires rules.valid(Replay([g, c]), HashesOf([g, c]), d, switch)
    requires last == After(rules, After(rules, After(rules, Initial(g), [Arrive(a), Submit(a, switch)]),
                                        [Arrive(c), Submit(c, switch)]),
                           [Arrive(d), Submit(d, switch)])
    ensures last.tip == d.hash && last.view == Replay([g, c, d])
  {
    hide StoreInv, After, Replay, AdmissibleRun, Admissible, Resolves, Begins;
    var s := Initial(g);
    BareBegins(rules, g);
    BareArrives(rules, s, a);
    BareResolves(Replay([g]), a);
    BareResolves(Replay([g]), c);
    BareResolves(Replay([g, c]), d);
    var s1 := After(rules, s, [Arrive(a), Submit(a, switch)]);
    ChildOfFirst(rules, s, g, a, switch, s1);
    var s2 := After(rules, s1, [Arrive(c), Submit(c, switch)]);
    BareArrives(rules, s1, c);
    ChildOfFirst(rules, s1, g, c, switch, s2);
    BareArrives(rules, s2, d);
    BranchesReorganise(rules, g, a, c, d, switch, s1, s2, last);
  }

  // ----- What the indexes of a verified chain say -----

  /** The index holds exactly the hashes of the chain, by number. */
  lemma {:induction false} ReplayIndex(p: seq<Block>)
    requires forall i :: 0 <= i < |p| ==> p[i].number == i
    ensures forall k :: k in Replay(p).index <==> 0 <= k < |p|
    ensures forall i :: 0 <= i < |p| ==> Replay(p).index[i] == p[i].hash
    decreases |p|
  {
    hide AttachCells, Infos;
    if p != [] {
      var q, b := p[..|p| - 1], p[|p| - 1];
      ReplayIndex(q);
      assert Replay(p).index == Replay(q).index[b.number := b.hash];
    }
  }

  /** Every transaction of a verified chain is found at its place. */
  lemma {:induction false} TxPlaces(rules: Rules, genesis: Hash, blocks: map<Hash, Block>, exts: map<Hash, Ext>,
                                    h: Hash, p: seq<Block>, n: nat, i: nat)
    requires BlocksOk(genesis, blocks) && TreeOk(genesis, blocks, exts) && ExtsOk(rules, genesis, blocks, exts)
    requires h in exts && IsVerified(exts, h) && p == PathTo(blocks, h) && n < |p| && i < |p[n].txs|
    ensures var tx := p[n].txs[i].hash;
            tx in Replay(p).txs && Replay(p).txs[tx] == TxInfo(p[n].hash, n, i)
    decreases |p|
  {
    hide Passed, Path, PathTo, Attachable, ViewOk, BlocksOk, Attach;
    assert Placed(genesis, blocks, exts, h) && ExtOk(rules, genesis, blocks, exts, h);
    PathIsChained(genesis, blocks, exts, h);
    VerifiedReplay(rules, genesis, blocks, exts, h);
    var b, q := blocks[h], p[..|p| - 1];
    if n == |p| - 1 {
      AllShaped(genesis, blocks, h);
      LastPlaces(Replay(q), b, i);
    } else {
      assert q == PathTo(blocks, b.parent) && p[n] == q[n];
      TxPlaces(rules, genesis, blocks, exts, b.parent, q, n, i);
      StillPlaced(blocks, Replay(q), b, q[n].txs[i].hash);
    }
  }

  lemma AllShaped(genesis: Hash, blocks: map<Hash, Block>, h: Hash)
    requires BlocksOk(genesis, blocks) && h in blocks
    ensures Shaped(blocks[h])
  {
  }

  lemma LastPlaces(v: View, b: Block, i: nat)
    requires Shaped(b) && i < |b.txs|
    ensures b.txs[i].hash in Attach(v, b).txs && Attach(v, b).txs[b.txs[i].hash] == TxInfo(b.hash, b.number, i)
  {
    hide AttachCells, Infos;
    InfosAre(b, |b.txs|);
  }

  lemma StillPlaced(blocks: map<Hash, Block>, v: View, b: Block, tx: Hash)
    requires Attachable(blocks, v, b) && tx in v.txs
    ensures tx in Attach(v, b).txs && Attach(v, b).txs[tx] == v.txs[tx]
  {
    hide AttachCells, Infos, ViewOk, Resolves;
    InfosAre(b, |b.txs|);
  }
}
