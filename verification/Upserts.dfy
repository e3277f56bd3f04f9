/** Tables under `INSERT ... ON CONFLICT (key) DO UPDATE`: one row, and a whole table of them. */
module Upserts {
  import opened Sql

  /** The statement's effect on one row: `merge` gets the stored row (None when absent) and EXCLUDED. */
  type Merge<!R, !E> = (Option<R>, E) -> R

  /** One row after a sequence of upserts that all hit it. */
  function Fold<R, E>(merge: Merge<R, E>, start: Option<R>, es: seq<E>): Option<R> {
    if es == [] then start
    else Some(merge(Fold(merge, start, es[..|es| - 1]), es[|es| - 1]))
  }

  lemma {:induction false} FoldAppend<R, E>(merge: Merge<R, E>, start: Option<R>, a: seq<E>, b: seq<E>)
    ensures Fold(merge, start, a + b) == Fold(merge, Fold(merge, start, a), b)
  {
    if b == [] {
      assert a + b == a;
    } else {
      FoldAppend(merge, start, a, b[..|b| - 1]);
      assert (a + b)[..|a + b| - 1] == a + b[..|b| - 1];
    }
  }

  /** Where an absent row takes the event as it is, a stored row counts as the first event of its own history. */
  function History<E>(start: Option<E>, es: seq<E>): seq<E> {
    if start.None? then es else [start.value] + es
  }

  lemma {:induction false} FromHistory<E(!new)>(merge: Merge<E, E>, start: Option<E>, es: seq<E>)
    requires forall e :: merge(None, e) == e
    ensures Fold(merge, start, es) == Fold(merge, None, History(start, es))
  {
    if start.Some? {
      FoldAppend(merge, None, [start.value], es);
      assert [start.value][..0] == [];
      assert Fold(merge, None, [start.value]) == start;
    }
  }

  /** Replaying a sequence of upserts on the row it produced changes nothing. */
  ghost predicate Absorbing<R(!new), E(!new)>(merge: Merge<R, E>) {
    forall start: Option<R>, es: seq<E> ::
      Fold(merge, Fold(merge, start, es), es) == Fold(merge, start, es)
  }

  function Lookup<K, R>(rows: map<K, R>, k: K): Option<R> {
    if k in rows then Some(rows[k]) else None
  }

  /** The table after a batch. */
  function Apply<K, R, E>(key: E -> K, merge: Merge<R, E>, rows: map<K, R>, es: seq<E>): map<K, R> {
    if es == [] then rows
    else
      var before := Apply(key, merge, rows, es[..|es| - 1]);
      var e := es[|es| - 1];
      before[key(e) := merge(Lookup(before, key(e)), e)]
  }

  /** A statement that carries its row's key beside the values. */
  function KeyOf<K, E>(e: (K, E)): K { e.0 }

  function OnRow<K, R, E>(merge: Merge<R, E>): Merge<R, (K, E)> {
    (row: Option<R>, e: (K, E)) => merge(row, e.1)
  }

  function Values<K, E>(es: seq<(K, E)>): (r: seq<E>)
    ensures |r| == |es| && forall i :: 0 <= i < |es| ==> r[i] == es[i].1
  {
    seq(|es|, i requires 0 <= i < |es| => es[i].1)
  }

  lemma {:induction false} FoldOnRow<K, R, E>(merge: Merge<R, E>, start: Option<R>, es: seq<(K, E)>)
    ensures Fold(OnRow(merge), start, es) == Fold(merge, start, Values(es))
  {
    if es != [] {
      FoldOnRow(merge, start, es[..|es| - 1]);
      assert Values(es)[..|es| - 1] == Values(es[..|es| - 1]);
    }
  }

  lemma {:induction false} OnRowAbsorbs<K(!new), R(!new), E(!new)>(merge: Merge<R, E>)
    requires Absorbing(merge)
    ensures Absorbing(OnRow<K, R, E>(merge))
  {
    forall start: Option<R>, es: seq<(K, E)>
      ensures Fold(OnRow(merge), Fold(OnRow(merge), start, es), es) == Fold(OnRow(merge), start, es)
    {
      FoldOnRow(merge, start, es);
      FoldOnRow(merge, Fold(merge, start, Values(es)), es);
    }
  }

  /** The part of a batch that hits row k. */
  function Only<K(==), E>(key: E -> K, k: K, es: seq<E>): seq<E> {
    if es == [] then []
    else
      var before := Only(key, k, es[..|es| - 1]);
      if key(es[|es| - 1]) == k then before + [es[|es| - 1]] else before
  }

  lemma {:induction false} OnlyAre<K, E>(key: E -> K, k: K, es: seq<E>, e: E)
    ensures e in Only(key, k, es) <==> e in es && key(e) == k
  {
    if es != [] {
      OnlyAre(key, k, es[..|es| - 1], e);
      assert es == es[..|es| - 1] + [es[|es| - 1]];
    }
  }

  lemma {:induction false} ApplyPerKey<K, R, E>(key: E -> K, merge: Merge<R, E>, rows: map<K, R>, es: seq<E>, k: K)
    ensures Lookup(Apply(key, merge, rows, es), k) == Fold(merge, Lookup(rows, k), Only(key, k, es))
  {
    if es != [] {
      var init, e := es[..|es| - 1], es[|es| - 1];
      ApplyPerKey(key, merge, rows, init, k);
      if key(e) == k {
        assert (Only(key, k, init) + [e])[..|Only(key, k, init)|] == Only(key, k, init);
      }
    }
  }

  lemma {:induction false} ApplyAppend<K, R, E>(key: E -> K, merge: Merge<R, E>, rows: map<K, R>, a: seq<E>, b: seq<E>)
    ensures Apply(key, merge, rows, a + b) == Apply(key, merge, Apply(key, merge, rows, a), b)
  {
    if b == [] {
      assert a + b == a;
    } else {
      ApplyAppend(key, merge, rows, a, b[..|b| - 1]);
      assert (a + b)[..|a + b| - 1] == a + b[..|b| - 1];
    }
  }

  /** A row's key is stored once its event has been applied, and stored keys stay. */
  lemma {:induction false} ApplyKeys<K, R, E>(key: E -> K, merge: Merge<R, E>, rows: map<K, R>, es: seq<E>)
    ensures Apply(key, merge, rows, es).Keys == rows.Keys + set e | e in es :: key(e)
  {
    if es != [] {
      var init, e := es[..|es| - 1], es[|es| - 1];
      ApplyKeys(key, merge, rows, init);
      assert es == init + [e];
    }
  }

  lemma {:induction false} SameRows<K(!new), R>(a: map<K, R>, b: map<K, R>)
    requires forall k :: Lookup(a, k) == Lookup(b, k)
    ensures a == b
  {
    forall k ensures k in a <==> k in b { assert Lookup(a, k) == Lookup(b, k); }
    forall k | k in a ensures a[k] == b[k] { assert Lookup(a, k) == Lookup(b, k); }
  }

  /** A batch that was cut short after some prefix and is then replayed in full has the effect of one full batch. */
  lemma {:induction false} ReplayAfterPrefix<K(!new), R(!new), E(!new)>(key: E -> K, merge: Merge<R, E>, rows: map<K, R>, done: seq<E>, batch: seq<E>)
    requires Absorbing(merge) && done <= batch
    ensures Apply(key, merge, Apply(key, merge, rows, done), batch) == Apply(key, merge, rows, batch)
  {
    var once := Apply(key, merge, rows, done);
    var twice := Apply(key, merge, once, done);
    forall k ensures Lookup(twice, k) == Lookup(once, k) {
      ApplyPerKey(key, merge, rows, done, k);
      ApplyPerKey(key, merge, once, done, k);
    }
    SameRows(twice, once);
    var rest := batch[|done|..];
    assert batch == done + rest;
    ApplyAppend(key, merge, once, done, rest);
    ApplyAppend(key, merge, rows, done, rest);
  }
}
