/** Vocabulary shared by every component: optional values, bytes, little-endian words and
    the ascending enumeration of a finite set of numbers (the iteration order of a `BTreeMap`). */
module Basics {

  datatype Option<+T> = None | Some(value: T)

  newtype Byte = b: int | 0 <= b < 256

  function Pow256(n: nat): (r: nat)
    ensures r >= 1
  {
    if n == 0 then 1 else 256 * Pow256(n - 1)
  }

  /** The `n` low bytes of `v`, least significant first. */
  function Le(v: int, n: nat): (r: seq<Byte>)
    ensures |r| == n
    decreases n
  {
    if n == 0 then [] else [(v % 256) as Byte] + Le(v / 256, n - 1)
  }

  /** The number whose little-endian bytes are `bytes`. */
  /** Byte `i` of a little-endian word is its digit of weight 256 to the power of `i`. */
  lemma {:induction false} LeDigit(v: int, n: nat, i: nat)
    requires i < n
    ensures Le(v, n)[i] as int == v / Pow256(i) % 256
    decreases n
  {
    if i > 0 {
      LeDigit(v / 256, n - 1, i - 1);
      DivideTwice(v, Pow256(i - 1));
    }
  }

  lemma DivideTwice(v: int, k: nat)
    requires k > 0
    ensures v / 256 / k == v / (256 * k)
  {
    var n := 256 * k;
    var q, r := v / n, v % n;
    assert v == n * q + r;
    assert n * q == 256 * (k * q);
    assert v / 256 == k * q + r / 256;
    Quotient(v / 256, k, q, r / 256);
  }

  lemma Quotient(x: int, k: nat, q: int, r: nat)
    requires r < k && x == k * q + r
    ensures x / k == q
  {
    var d, m := x / k, x % k;
    assert x == k * d + m;
    if d > q {
      NextMultiple(k, q, d);
    } else if d < q {
      NextMultiple(k, d, q);
    }
  }

  lemma NextMultiple(k: nat, a: int, b: int)
    requires a < b
    ensures k * b >= k * a + k
  {
    assert k * b == k * a + k + k * (b - a - 1);
  }

  function FromLe(bytes: seq<Byte>): nat {
    if bytes == [] then 0 else bytes[0] as nat + 256 * FromLe(bytes[1..])
  }

  lemma {:induction false} LeRoundTrip(v: nat, n: nat)
    requires v < Pow256(n)
    ensures FromLe(Le(v, n)) == v
  {
    if n > 0 {
      LeRoundTrip(v / 256, n - 1);
      assert Le(v, n)[1..] == Le(v / 256, n - 1);
    }
  }

  ghost function Pick<T>(s: set<T>): (x: T)
    requires s != {}
    ensures x in s
  {
    var x :| x in s;
    x
  }

  ghost predicate IsMax(s: set<int>, x: int) {
    x in s && forall y :: y in s ==> y <= x
  }

  ghost predicate IsMin(s: set<int>, x: int) {
    x in s && forall y :: y in s ==> x <= y
  }

  lemma {:induction false} MaxExists(s: set<int>)
    requires s != {}
    ensures exists x :: IsMax(s, x)
  {
    var x := Pick(s);
    if s == {x} {
      assert IsMax(s, x);
    } else {
      MaxExists(s - {x});
      var y :| IsMax(s - {x}, y);
      assert forall z :: z in s ==> z == x || z in s - {x};
      assert IsMax(s, if x < y then y else x);
    }
  }

  lemma {:induction false} MinExists(s: set<int>)
    requires s != {}
    ensures exists x :: IsMin(s, x)
  {
    var x := Pick(s);
    if s == {x} {
      assert IsMin(s, x);
    } else {
      MinExists(s - {x});
      var y :| IsMin(s - {x}, y);
      assert forall z :: z in s ==> z == x || z in s - {x};
      assert IsMin(s, if x < y then x else y);
    }
  }

  function Max(s: set<int>): (x: int)
    requires s != {}
    ensures x in s && forall y :: y in s ==> y <= x
  {
    MaxExists(s);
    var x :| x in s && forall y :: y in s ==> y <= x;
    x
  }

  function Min(s: set<int>): (x: int)
    requires s != {}
    ensures x in s && forall y :: y in s ==> x <= y
  {
    MinExists(s);
    var x :| x in s && forall y :: y in s ==> x <= y;
    x
  }

  lemma Prepended(s: set<int>, m: int, rest: seq<int>)
    requires m in s && (forall y :: y in s ==> m <= y) && |rest| == |s - {m}|
    requires forall x :: x in rest <==> x in s - {m}
    requires forall i, j :: 0 <= i < j < |rest| ==> rest[i] < rest[j]
    ensures |[m] + rest| == |s| && forall x :: x in [m] + rest <==> x in s
    ensures forall i, j :: 0 <= i < j < |[m] + rest| ==> ([m] + rest)[i] < ([m] + rest)[j]
  {
    assert forall i :: 0 <= i < |rest| ==> rest[i] in rest;
  }

  /** The elements of `s`, smallest first. */
  function Ascending(s: set<int>): (r: seq<int>)
    ensures |r| == |s|
    ensures forall x :: x in r <==> x in s
    ensures forall i, j :: 0 <= i < j < |r| ==> r[i] < r[j]
  {
    if s == {} then [] else
      var m := Min(s);
      var rest := Ascending(s - {m});
      Prepended(s, m, rest);
      [m] + rest
  }
}
