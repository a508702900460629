/** Where two chains part, and what of a chain has been verified: the facts behind finding,
    rolling back and reconciling a fork. */
module ChainFork {
  import opened Basics
  import opened ChainState
  import opened ChainReplay
  import opened ChainEngine

  /** Length of the longest common beginning. */
  function CommonLen(p: seq<Block>, q: seq<Block>): (n: nat)
    ensures n <= |p| && n <= |q| && p[..n] == q[..n]
    ensures n < |p| && n < |q| ==> p[n] != q[n]
  {
    if p == [] || q == [] || p[0] != q[0] then 0
    else
      var n := CommonLen(p[1..], q[1..]);
      assert p[..n + 1] == [p[0]] + p[1..][..n] && q[..n + 1] == [q[0]] + q[1..][..n];
      n + 1
  }

  lemma {:induction false} CommonLenIs(p: seq<Block>, q: seq<Block>, n: nat)
    requires n <= |p| && n <= |q| && p[..n] == q[..n] && (n < |p| && n < |q| ==> p[n] != q[n])
    ensures CommonLen(p, q) == n
  {
    if n > 0 {
      assert p[0] == p[..n][0] && q[0] == q[..n][0];
      assert p[1..][..n - 1] == p[..n][1..] && q[1..][..n - 1] == q[..n][1..];
      CommonLenIs(p[1..], q[1..], n - 1);
    }
  }

  /** Chains that agree at one place agree up to there. */
  lemma {:induction false} AgreeBelow(genesis: Hash, blocks: map<Hash, Block>, exts: map<Hash, Ext>, g: Hash, h: Hash,
                                      n: nat)
    requires TreeOk(genesis, blocks, exts) && g in exts && h in exts
    requires n < |PathTo(blocks, g)| && n < |PathTo(blocks, h)|
             && PathTo(blocks, g)[n].hash == PathTo(blocks, h)[n].hash
    ensures PathTo(blocks, g)[..n + 1] == PathTo(blocks, h)[..n + 1]
  {
    PathBeginnings(genesis, blocks, exts, g, n);
    PathBeginnings(genesis, blocks, exts, h, n);
  }

  /** The index by number of a replayed chain. */
  lemma {:induction false} ReplayIndex(genesis: Hash, p: seq<Block>, i: nat)
    requires Chained(genesis, p) && i < |p|
    ensures i in Replay(p).index && Replay(p).index[i] == p[i].hash
    decreases |p|
  {
    if i < |p| - 1 {
      ReplayIndex(genesis, p[..|p| - 1], i);
    }
  }

  /** Every block of a verified chain could be attached to the indexes of those before it. */
  lemma AttachedInTurn(rules: Rules, genesis: Hash, blocks: map<Hash, Block>, exts: map<Hash, Ext>, h: Hash, i: nat)
    requires BlocksOk(genesis, blocks) && TreeOk(genesis, blocks, exts) && ExtsOk(rules, genesis, blocks, exts)
    requires h in exts && exts[h].verified == Some(true) && 0 < i < |PathTo(blocks, h)|
    ensures Attachable(blocks, Replay(PathTo(blocks, h)[..i]), PathTo(blocks, h)[i])
    ensures Replay(PathTo(blocks, h)[..i + 1]) == Attach(Replay(PathTo(blocks, h)[..i]), PathTo(blocks, h)[i])
  {
    hide BlocksOk, ExtsOk, Attachable, Path, Attach;
    var p := PathTo(blocks, h);
    PathIsChained(genesis, blocks, exts, h);
    VerifiedPath(rules, genesis, blocks, exts, h, i);
    PathBeginnings(genesis, blocks, exts, h, i);
    PathBeginnings(genesis, blocks, exts, h, i - 1);
    VerifiedReplay(rules, genesis, blocks, exts, p[i].hash);
    assert p[..i + 1][..i] == p[..i];
  }

  // ----- The verified part of a chain -----

  /** The exts of the blocks of `p` from the `i`th on. */
  function ExtsFrom(exts: map<Hash, Ext>, p: seq<Block>, i: nat): (r: seq<Ext>)
    requires i <= |p| && forall j :: i <= j < |p| ==> p[j].hash in exts
    ensures |r| == |p| - i && forall j :: 0 <= j < |r| ==> r[j] == exts[p[i + j].hash]
    decreases |p| - i
  {
    if i == |p| then [] else [exts[p[i].hash]] + ExtsFrom(exts, p, i + 1)
  }

  lemma VerifiedBelow(rules: Rules, genesis: Hash, blocks: map<Hash, Block>, exts: map<Hash, Ext>, h: Hash, i: nat)
    requires TreeOk(genesis, blocks, exts) && ExtsOk(rules, genesis, blocks, exts) && h in exts
             && i < |PathTo(blocks, h)|
    ensures IsVerified(exts, PathTo(blocks, h)[i].hash) <==> i < VerifiedLen(exts, PathTo(blocks, h))
  {
    hide Path, PathTo;
    var p := PathTo(blocks, h);
    if IsVerified(exts, p[i].hash) {
      PathBeginnings(genesis, blocks, exts, h, i);
      forall j | 0 <= j <= i
        ensures IsVerified(exts, p[j].hash)
      {
        VerifiedPath(rules, genesis, blocks, exts, p[i].hash, j);
        assert p[..i + 1][j] == p[j];
      }
    }
  }
}
