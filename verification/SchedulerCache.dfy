/** The cache keeps to its size, holds the machines it was asked for, and never runs out of
    machines to suspend. */
module SchedulerCache {
  import opened Basics
  import opened Machine
  import opened SchedulerModel
  import opened SchedulerLedger
  import opened SchedulerInvariant
  import opened SchedulerSystem

  /** Only existing machines are instantiated, and at most `cap` of them. */
  ghost predicate CacheOk(cap: nat, ids: set<VmId>, cache: Cache) {
    cache.resident <= ids && |cache.resident| <= cap
  }

  lemma ElementsCons(ids: seq<VmId>)
    requires ids != []
    ensures Elements(ids) == {ids[0]} + Elements(ids[1..])
    ensures Distinct(ids) ==> Distinct(ids[1..]) && ids[0] !in Elements(ids[1..])
  {
    assert ids == [ids[0]] + ids[1..];
    assert forall i :: 0 <= i < |ids| - 1 ==> ids[1..][i] == ids[i + 1];
  }

  lemma ElementsSnoc(ids: seq<VmId>)
    requires ids != []
    ensures var n := |ids| - 1; Elements(ids) == Elements(ids[..n]) + {ids[n]}
    ensures var n := |ids| - 1; Distinct(ids) ==> Distinct(ids[..n]) && ids[n] !in Elements(ids[..n])
  {
    var n := |ids| - 1;
    assert ids == ids[..n] + [ids[n]];
  }

  lemma {:induction false} ElementsCount(ids: seq<VmId>)
    requires Distinct(ids)
    ensures |Elements(ids)| == |ids|
    decreases |ids|
  {
    if ids == [] {
      assert Elements(ids) == {};
    } else {
      ElementsCons(ids);
      ElementsCount(ids[1..]);
    }
  }

  lemma {:induction false} MissingDistinct(resident: set<VmId>, ids: seq<VmId>)
    requires Distinct(ids)
    ensures Distinct(Missing(resident, ids))
    ensures Elements(Missing(resident, ids)) == Elements(ids) - resident
    decreases |ids|
  {
    if ids != [] {
      ElementsCons(ids);
      MissingDistinct(resident, ids[1..]);
      var m := Missing(resident, ids[1..]);
      assert forall i :: 0 <= i < |m| ==> m[i] in m;
    }
  }

  lemma SwapInStep(cache: Cache, victims: seq<VmId>, missing: seq<VmId>)
    requires missing != [] && victims != []
    ensures SwapIn(cache, victims, missing)
            == SwapIn(Cache(cache.resident - {victims[0]} + {missing[0]}, cache.swaps + 2), victims[1..], missing[1..])
  {
  }

  lemma {:induction false} SwapInEffect(cache: Cache, victims: seq<VmId>, missing: seq<VmId>)
    requires |victims| >= |missing| && Distinct(victims) && Distinct(missing)
    requires Elements(victims) <= cache.resident && Elements(missing) !! cache.resident
    ensures var r := SwapIn(cache, victims, missing);
            && |r.resident| == |cache.resident|
            && Elements(missing) <= r.resident <= cache.resident + Elements(missing)
            && cache.resident - Elements(victims) <= r.resident
    decreases |missing|
  {
    hide Elements, Distinct, SwapIn;
    if missing == [] {
      SwapInNothing(cache, victims);
    } else {
      var next := Cache(cache.resident - {victims[0]} + {missing[0]}, cache.swaps + 2);
      ElementsCons(victims);
      ElementsCons(missing);
      SwapInStep(cache, victims, missing);
      SwapInEffect(next, victims[1..], missing[1..]);
    }
  }

  lemma SwapInNothing(cache: Cache, victims: seq<VmId>)
    ensures SwapIn(cache, victims, []) == cache && Elements([]) == {}
  {
  }

  /** Among the machines not asked for there are enough to suspend. */
  lemma EnoughVictims(cap: nat, resident: set<VmId>, ids: seq<VmId>, missing: seq<VmId>)
    requires |Elements(ids)| <= cap <= |resident|
    requires Distinct(missing) && Elements(missing) == Elements(ids) - resident
    ensures |missing| <= |resident - Elements(ids)|
  {
    var wanted := Elements(ids);
    ElementsCount(missing);
    assert wanted == (wanted * resident) + Elements(missing);
    assert |wanted| == |wanted * resident| + |Elements(missing)|;
    assert resident == (resident - wanted) + (resident * wanted);
    assert resident * wanted == wanted * resident;
    assert |resident| == |resident - wanted| + |resident * wanted|;
  }

  lemma BringStep(cap: nat, cache: Cache, ids: seq<VmId>, missing: seq<VmId>)
    requires missing != [] && |cache.resident| < cap
    ensures var n := |missing| - 1;
            Bring(cap, cache, ids, missing)
            == Bring(cap, Cache(cache.resident + {missing[n]}, cache.swaps + 1), ids, missing[..n])
  {
  }

  lemma BringNothing(cap: nat, cache: Cache, ids: seq<VmId>)
    ensures Bring(cap, cache, ids, []) == cache && Elements([]) == {}
  {
  }

  /** With the cache full, bringing in `missing` is an exchange. */
  lemma BringSwaps(cap: nat, cache: Cache, ids: seq<VmId>, missing: seq<VmId>)
    requires |Elements(ids)| <= cap == |cache.resident| && missing != []
    requires Distinct(missing) && Elements(missing) == Elements(ids) - cache.resident
    ensures var r := Bring(cap, cache, ids, missing);
            && Elements(ids) <= r.resident <= cache.resident + Elements(ids)
            && |r.resident| == cap
  {
    var victims := Ascending(cache.resident - Elements(ids));
    EnoughVictims(cap, cache.resident, ids, missing);
    assert Elements(victims) == cache.resident - Elements(ids);
    hide SwapIn;
    SwapInEffect(cache, victims, missing);
  }

  lemma {:induction false} BringEffect(cap: nat, cache: Cache, ids: seq<VmId>, missing: seq<VmId>)
    requires |Elements(ids)| <= cap && |cache.resident| <= cap
    requires Distinct(missing) && Elements(missing) == Elements(ids) - cache.resident
    ensures var r := Bring(cap, cache, ids, missing);
            && Elements(ids) <= r.resident <= cache.resident + Elements(ids)
            && |r.resident| <= cap
    decreases |missing|
  {
    hide Elements, Distinct, Bring;
    if missing == [] {
      BringNothing(cap, cache, ids);
      assert forall x :: x in Elements(ids) && x !in cache.resident ==> x in Elements(missing);
    } else if |cache.resident| < cap {
      var n := |missing| - 1;
      ElementsSnoc(missing);
      BringStep(cap, cache, ids, missing);
      BringEffect(cap, Cache(cache.resident + {missing[n]}, cache.swaps + 1), ids, missing[..n]);
    } else {
      BringSwaps(cap, cache, ids, missing);
    }
  }

  /** A machine that was asked for is there afterwards. */
  lemma AttendEffect(cap: nat, cache: Cache, ids: seq<VmId>)
    requires |cache.resident| <= cap && |ids| <= cap && Distinct(ids)
    ensures var r := Serve(cap, cache, Attend(ids));
            && Elements(ids) <= r.resident <= cache.resident + Elements(ids)
            && |r.resident| <= cap
  {
    var missing := Missing(cache.resident, ids);
    MissingDistinct(cache.resident, ids);
    ElementsCount(ids);
    hide Elements, Distinct, Bring, Missing;
    BringEffect(cap, cache, ids, missing);
  }

  /** Nothing happens for machines that are there already. */
  lemma {:induction false} AttendPresent(cap: nat, cache: Cache, ids: seq<VmId>)
    requires Elements(ids) <= cache.resident
    ensures Serve(cap, cache, Attend(ids)) == cache
  {
    NothingMissing(cache.resident, ids);
  }

  lemma {:induction false} NothingMissing(resident: set<VmId>, ids: seq<VmId>)
    requires Elements(ids) <= resident
    ensures Missing(resident, ids) == []
    decreases |ids|
  {
    if ids != [] {
      ElementsCons(ids);
      NothingMissing(resident, ids[1..]);
    }
  }

  lemma {:induction false} MakeRoomEffect(cap: nat, cache: Cache)
    requires cap >= 1
    ensures var r := MakeRoom(cap, cache); r.resident <= cache.resident && |r.resident| < cap
    decreases |cache.resident|
  {
    if |cache.resident| >= cap && cache.resident != {} {
      MakeRoomEffect(cap, Cache(cache.resident - {Min(cache.resident)}, cache.swaps + 1));
    }
  }

  lemma ServeKeeps(cap: nat, ids: set<VmId>, cache: Cache, need: Need, rest: seq<Need>, ids': set<VmId>)
    requires cap >= 2 && CacheOk(cap, ids, cache) && Fits(ids, [need] + rest, ids')
    ensures exists next :: Fits(next, rest, ids') && CacheOk(cap, next, Serve(cap, cache, need))
  {
    hide CacheOk, Serve;
    var needs := [need] + rest;
    assert needs[0] == need && needs[1..] == rest;
    var next := NextIds(ids, need);
    assert Fits(next, rest, ids');
    ServeOk(cap, ids, cache, need);
  }

  lemma ServeOk(cap: nat, ids: set<VmId>, cache: Cache, need: Need)
    requires cap >= 2 && CacheOk(cap, ids, cache) && Fits(ids, [need], NextIds(ids, need))
    ensures CacheOk(cap, NextIds(ids, need), Serve(cap, cache, need))
  {
    match need
    case Attend(wanted) =>
      AttendEffect(cap, cache, wanted);
    case Admit(id) =>
      MakeRoomEffect(cap, cache);
    case Drop(id) =>
      FewerElements(cache.resident - {id}, cache.resident);
    case Only(id) =>
      FewerElements(cache.resident * {id}, cache.resident);
  }

  /** Needs that fit keep the cache within its size and its machines among those alive. */
  lemma {:induction false} ServeAllKeeps(cap: nat, ids: set<VmId>, cache: Cache, needs: seq<Need>, ids': set<VmId>)
    requires cap >= 2 && CacheOk(cap, ids, cache) && Fits(ids, needs, ids')
    ensures CacheOk(cap, ids', ServeAll(cap, cache, needs))
    decreases |needs|
  {
    if needs != [] {
      hide Serve, Fits;
      assert needs == [needs[0]] + needs[1..];
      ServeKeeps(cap, ids, cache, needs[0], needs[1..], ids');
      var next :| Fits(next, needs[1..], ids') && CacheOk(cap, next, Serve(cap, cache, needs[0]));
      ServeAllKeeps(cap, next, Serve(cap, cache, needs[0]), needs[1..], ids');
    } else {
      assert Fits(ids, [], ids');
    }
  }

  // ----- Which machines are moved -----

  /** How many machines have to go for `more` to come in. */
  function Excess(cap: nat, resident: nat, more: nat): nat {
    if resident + more <= cap then 0 else resident + more - cap
  }

  /** The `k` machines of `s` with the smallest ids, or all of them. */
  function Smallest(s: set<VmId>, k: nat): set<VmId> {
    Elements(if k <= |s| then Ascending(s)[..k] else Ascending(s))
  }

  lemma {:induction false} SwapInIs(cache: Cache, victims: seq<VmId>, missing: seq<VmId>)
    requires |victims| >= |missing| && Distinct(victims) && Distinct(missing)
    requires Elements(victims) <= cache.resident && Elements(missing) !! cache.resident
    ensures SwapIn(cache, victims, missing)
            == Cache(cache.resident - Elements(victims[..|missing|]) + Elements(missing),
                     cache.swaps + 2 * |missing|)
    decreases |missing|
  {
    hide Elements, Distinct, SwapIn;
    if missing == [] {
      SwapInNothing(cache, victims);
      assert victims[..0] == [];
    } else {
      var next := Cache(cache.resident - {victims[0]} + {missing[0]}, cache.swaps + 2);
      var rest, n := victims[1..], |missing| - 1;
      ElementsCons(victims);
      ElementsCons(missing);
      SwapInStep(cache, victims, missing);
      SwapInIs(next, rest, missing[1..]);
      var gone := victims[..|missing|];
      assert gone[1..] == rest[..n] && gone[0] == victims[0];
      ElementsCons(gone);
      PrefixElements(rest, n);
      assert cache.resident - {victims[0]} + {missing[0]} - Elements(rest[..n]) + Elements(missing[1..])
             == cache.resident - Elements(gone) + Elements(missing);
    }
  }

  lemma PrefixElements(ids: seq<VmId>, n: nat)
    requires n <= |ids|
    ensures Elements(ids[..n]) <= Elements(ids)
  {
  }

  /** `r` is the cache after `count` machines `missing` have come in: as many others as there is no
      room for, those with the smallest ids, have gone. */
  predicate BringsTo(cap: nat, cache: Cache, ids: set<VmId>, missing: set<VmId>, count: nat, r: Cache) {
    var k := Excess(cap, |cache.resident|, count);
    r == Cache(cache.resident - Smallest(cache.resident - ids, k) + missing, cache.swaps + count + k)
  }

  lemma {:induction false} BringIs(cap: nat, cache: Cache, ids: seq<VmId>, missing: seq<VmId>)
    requires |Elements(ids)| <= cap && |cache.resident| <= cap
    requires Distinct(missing) && Elements(missing) == Elements(ids) - cache.resident
    ensures BringsTo(cap, cache, Elements(ids), Elements(missing), |missing|, Bring(cap, cache, ids, missing))
    decreases |missing|
  {
    hide Elements, Distinct, Bring, BringsTo;
    if missing == [] {
      BringNothing(cap, cache, ids);
      NothingComes(cap, cache, Elements(ids));
    } else if |cache.resident| < cap {
      var n := |missing| - 1;
      var next := Cache(cache.resident + {missing[n]}, cache.swaps + 1);
      ElementsSnoc(missing);
      BringStep(cap, cache, ids, missing);
      OneIn(cache.resident, Elements(ids), missing[n], Elements(missing[..n]), Elements(missing));
      BringIs(cap, next, ids, missing[..n]);
      OneComes(cap, cache, Elements(ids), missing[n], Elements(missing[..n]), n, Bring(cap, next, ids, missing[..n]));
    } else {
      BringFull(cap, cache, ids, missing);
    }
  }

  lemma NothingComes(cap: nat, cache: Cache, ids: set<VmId>)
    requires |cache.resident| <= cap
    ensures BringsTo(cap, cache, ids, {}, 0, cache)
  {
    assert Smallest(cache.resident - ids, 0) == {};
    assert cache.resident - {} + {} == cache.resident;
  }

  lemma OneComes(cap: nat, cache: Cache, ids: set<VmId>, m: VmId, rest: set<VmId>, n: nat, r: Cache)
    requires |cache.resident| < cap && rest + {m} == ids - cache.resident && m !in rest
    requires BringsTo(cap, Cache(cache.resident + {m}, cache.swaps + 1), ids, rest, n, r)
    ensures BringsTo(cap, cache, ids, rest + {m}, n + 1, r)
  {
    hide Smallest, Excess;
    var next, others := cache.resident + {m}, cache.resident - ids;
    OneIn(cache.resident, ids, m, rest, rest + {m});
    SameExcess(cap, |cache.resident|, n + 1);
    var k := Excess(cap, |cache.resident|, n + 1);
    SmallestSubset(others, k);
    SameSets(cache.resident, m, rest, Smallest(others, k));
    assert next - ids == others;
  }

  lemma SameExcess(cap: nat, resident: nat, more: nat)
    requires more > 0
    ensures Excess(cap, resident + 1, more - 1) == Excess(cap, resident, more)
  {
  }

  lemma SmallestSubset(s: set<VmId>, k: nat)
    ensures Smallest(s, k) <= s
  {
    hide Ascending;
  }

  lemma SameSets(resident: set<VmId>, m: VmId, rest: set<VmId>, gone: set<VmId>)
    requires m !in resident && gone <= resident
    ensures resident + {m} - gone + rest == resident - gone + (rest + {m})
  {
  }

  lemma OneIn(resident: set<VmId>, ids: set<VmId>, m: VmId, rest: set<VmId>, missing: set<VmId>)
    requires missing == rest + {m} == ids - resident && m !in rest
    ensures |resident + {m}| == |resident| + 1 && resident + {m} - ids == resident - ids && m !in resident
    ensures rest == ids - (resident + {m})
  {
    assert m in missing;
  }

  lemma BringFull(cap: nat, cache: Cache, ids: seq<VmId>, missing: seq<VmId>)
    requires |Elements(ids)| <= cap == |cache.resident| && missing != []
    requires Distinct(missing) && Elements(missing) == Elements(ids) - cache.resident
    ensures BringsTo(cap, cache, Elements(ids), Elements(missing), |missing|, Bring(cap, cache, ids, missing))
  {
    hide SwapIn, Elements, Ascending, Distinct;
    var others, n := cache.resident - Elements(ids), |missing|;
    var victims := Ascending(others);
    EnoughVictims(cap, cache.resident, ids, missing);
    AscendingElements(others);
    SwapInIs(cache, victims, missing);
  }

  lemma AscendingElements(s: set<VmId>)
    ensures Elements(Ascending(s)) == s && Distinct(Ascending(s)) && |Ascending(s)| == |s|
  {
    hide Ascending;
  }

  lemma SmallestWithin(s: set<VmId>, k: nat)
    requires k <= |s|
    ensures Smallest(s, k) <= s && |Smallest(s, k)| == k
    ensures forall x, y :: x in Smallest(s, k) && y in s - Smallest(s, k) ==> x < y
  {
    hide Ascending;
    var all := Ascending(s);
    var first, rest := all[..k], all[k..];
    ElementsCount(first);
    assert all == first + rest;
    forall x, y | x in Smallest(s, k) && y in s - Smallest(s, k)
      ensures x < y
    {
      assert y in all;
      assert y in rest;
      var i, j :| 0 <= i < k && first[i] == x && 0 <= j < |rest| && rest[j] == y;
      assert all[i] == x && all[k + j] == y;
    }
  }

  /** `r` is `cache` with the machines `missing` moved in and `gone` out, the `k` of `others` with the
      smallest ids, each move counted once. */
  ghost predicate MovesTo(cache: Cache, missing: set<VmId>, others: set<VmId>, k: nat, gone: set<VmId>, r: Cache) {
    && gone <= others && |gone| == k && (forall x, y :: x in gone && y in others - gone ==> x < y)
    && r == Cache(cache.resident - gone + missing, cache.swaps + |missing| + k)
  }

  /** Having machines `ids` instantiated moves exactly the machines that are missing in, and out as
      many of the others as there is no room for, those with the smallest ids. */
  lemma AttendIs(cap: nat, cache: Cache, ids: seq<VmId>, missing: set<VmId>, others: set<VmId>, k: nat)
    requires |cache.resident| <= cap && |ids| <= cap && Distinct(ids)
    requires missing == Elements(ids) - cache.resident && others == cache.resident - Elements(ids)
    requires k == Excess(cap, |cache.resident|, |missing|)
    ensures exists gone :: MovesTo(cache, missing, others, k, gone, Serve(cap, cache, Attend(ids)))
  {
    hide Bring, Smallest, Elements, Distinct, Excess, MovesTo, Missing, BringsTo;
    MissingDistinct(cache.resident, ids);
    ElementsCount(ids);
    ElementsCount(Missing(cache.resident, ids));
    BringIs(cap, cache, ids, Missing(cache.resident, ids));
    EnoughOthers(cap, cache.resident, Elements(ids));
    SmallestMove(cap, cache, Elements(ids), missing, others, k, Serve(cap, cache, Attend(ids)));
  }

  lemma SmallestMove(cap: nat, cache: Cache, ids: set<VmId>, missing: set<VmId>, others: set<VmId>, k: nat, r: Cache)
    requires BringsTo(cap, cache, ids, missing, |missing|, r) && others == cache.resident - ids
    requires k == Excess(cap, |cache.resident|, |missing|) <= |others|
    ensures MovesTo(cache, missing, others, k, Smallest(others, k), r)
  {
    hide Smallest, Excess;
    SmallestWithin(others, k);
  }

  lemma EnoughOthers(cap: nat, resident: set<VmId>, ids: set<VmId>)
    requires |ids| <= cap
    ensures Excess(cap, |resident|, |ids - resident|) <= |resident - ids|
  {
    assert resident == (resident - ids) + (resident * ids);
    assert ids == (ids - resident) + (resident * ids);
    assert |resident| == |resident - ids| + |resident * ids|;
    assert |ids| == |ids - resident| + |resident * ids|;
  }

  /** A new machine is instantiated at once; when the cache is full, the one with the smallest id
      makes room for it. */
  lemma AdmitIs(cap: nat, cache: Cache, id: VmId)
    requires 1 <= cap && |cache.resident| <= cap && id !in cache.resident
    ensures |cache.resident| < cap ==> Serve(cap, cache, Admit(id)) == Cache(cache.resident + {id}, cache.swaps)
    ensures |cache.resident| == cap ==>
              exists least :: && least in cache.resident && (forall x :: x in cache.resident ==> least <= x)
                              && Serve(cap, cache, Admit(id)) == Cache(cache.resident - {least} + {id}, cache.swaps + 1)
  {
    if |cache.resident| == cap {
      var least := Min(cache.resident);
      var next := Cache(cache.resident - {least}, cache.swaps + 1);
      assert MakeRoom(cap, next) == next;
      assert Serve(cap, cache, Admit(id)) == Cache(cache.resident - {least} + {id}, cache.swaps + 1);
    }
  }
}
