/** Sums by key. */
module Grouping {

  function Sum<R>(rows: seq<R>, f: R -> int): int {
    if rows == [] then 0 else Sum(rows[..|rows| - 1], f) + f(rows[|rows| - 1])
  }

  /** The sum of the rows with one key. */
  function SumOf<R, K(==)>(rows: seq<R>, key: R -> K, f: R -> int, k: K): int {
    if rows == [] then 0
    else SumOf(rows[..|rows| - 1], key, f, k) + if key(rows[|rows| - 1]) == k then f(rows[|rows| - 1]) else 0
  }

  /** The sums of several keys, added up. */
  function SumOfAll<R, K(==)>(rows: seq<R>, key: R -> K, f: R -> int, ks: seq<K>): int {
    if ks == [] then 0 else SumOfAll(rows, key, f, ks[..|ks| - 1]) + SumOf(rows, key, f, ks[|ks| - 1])
  }

  ghost predicate Distinct<K>(ks: seq<K>) {
    forall i, j :: 0 <= i < j < |ks| ==> ks[i] != ks[j]
  }

  /** Nothing is lost or counted twice when every row's key is among the distinct keys. */
  lemma {:induction false} SumsConserved<R, K>(rows: seq<R>, key: R -> K, f: R -> int, ks: seq<K>)
    requires Distinct(ks) && forall i :: 0 <= i < |rows| ==> key(rows[i]) in ks
    ensures SumOfAll(rows, key, f, ks) == Sum(rows, f)
  {
    if rows == [] {
      NoRows(rows, key, f, ks);
    } else {
      SumsConserved(rows[..|rows| - 1], key, f, ks);
      LastRow(rows, key, f, ks);
    }
  }

  lemma {:induction false} NoRows<R, K>(rows: seq<R>, key: R -> K, f: R -> int, ks: seq<K>)
    requires rows == []
    ensures SumOfAll(rows, key, f, ks) == 0
  {
    if ks != [] { NoRows(rows, key, f, ks[..|ks| - 1]); }
  }

  lemma {:induction false} LastRow<R, K>(rows: seq<R>, key: R -> K, f: R -> int, ks: seq<K>)
    requires Distinct(ks) && rows != []
    ensures var last := rows[|rows| - 1];
            SumOfAll(rows, key, f, ks) == SumOfAll(rows[..|rows| - 1], key, f, ks) + if key(last) in ks then f(last) else 0
  {
    if ks != [] {
      var init := ks[..|ks| - 1];
      LastRow(rows, key, f, init);
      assert ks == init + [ks[|ks| - 1]];
    }
  }

  lemma {:induction false} RemoveRow<R, K>(rows: seq<R>, key: R -> K, f: R -> int, k: K, j: nat)
    requires j < |rows|
    ensures SumOf(rows, key, f, k) == SumOf(rows[..j] + rows[j + 1..], key, f, k) + if key(rows[j]) == k then f(rows[j]) else 0
  {
    var n := |rows| - 1;
    if j == n {
      assert rows[..j] + rows[j + 1..] == rows[..n];
    } else {
      var init, without := rows[..n], rows[..j] + rows[j + 1..];
      RemoveRow(init, key, f, k, j);
      assert init[..j] == rows[..j] && without[..|without| - 1] == init[..j] + init[j + 1..];
      assert without[|without| - 1] == rows[n];
    }
  }

  /** A sum does not depend on the order of the rows. */
  lemma {:induction false} SumForgetsOrder<R, K>(a: seq<R>, b: seq<R>, key: R -> K, f: R -> int, k: K)
    requires multiset(a) == multiset(b)
    ensures SumOf(a, key, f, k) == SumOf(b, key, f, k)
  {
    if a == [] {
      assert |multiset(b)| == 0;
    } else {
      var n := |a| - 1;
      assert a == a[..n] + [a[n]];
      assert a[n] in multiset(b);
      var j :| 0 <= j < |b| && b[j] == a[n];
      assert b == b[..j] + [b[j]] + b[j + 1..];
      RemoveRow(b, key, f, k, j);
      assert multiset(a[..n]) == multiset(a) - multiset{a[n]};
      assert multiset(b[..j] + b[j + 1..]) == multiset(b) - multiset{b[j]};
      SumForgetsOrder(a[..n], b[..j] + b[j + 1..], key, f, k);
    }
  }
}
