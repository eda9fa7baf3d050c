/**
 * First-seen deduplication by an identity key: the reference definition the track
 * collectors are proved against. A row is kept exactly when no earlier row carries
 * its key, and kept rows stay in the order they were read.
 */
module Deduplication {

  /** Every key carried by some row of `rows`. */
  function KeysOf<R, K(==)>(key: R -> K, rows: seq<R>): (ks: set<K>)
  {
    if rows == [] then {} else KeysOf(key, rows[..|rows| - 1]) + {key(rows[|rows| - 1])}
  }

  /** The rows of `rows` whose key was not carried by an earlier row, in order. */
  function Dedup<R, K(==)>(key: R -> K, rows: seq<R>): (out: seq<R>)
  {
    if rows == [] then []
    else
      var init, last := rows[..|rows| - 1], rows[|rows| - 1];
      if key(last) in KeysOf(key, init) then Dedup(key, init) else Dedup(key, init) + [last]
  }

  /** The index of the first row carrying `k`. */
  function FirstIndex<R, K(==)>(key: R -> K, rows: seq<R>, k: K): (i: nat)
    requires k in KeysOf(key, rows)
    ensures i < |rows| && key(rows[i]) == k
    ensures forall j :: 0 <= j < i ==> key(rows[j]) != k
  {
    var init := rows[..|rows| - 1];
    if k in KeysOf(key, init) then
      var i := FirstIndex(key, init, k);
      assert rows[i] == init[i];
      assert forall j :: 0 <= j < i ==> rows[j] == init[j];
      i
    else
      KeysOfMember(key, init, k);
      |rows| - 1
  }

  /** A key is in KeysOf exactly when some row carries it. */
  lemma {:induction false} KeysOfMember<R, K>(key: R -> K, rows: seq<R>, k: K)
    ensures k in KeysOf(key, rows) <==> exists i :: 0 <= i < |rows| && key(rows[i]) == k
  {
    if rows != [] {
      var init := rows[..|rows| - 1];
      KeysOfMember(key, init, k);
      if k in KeysOf(key, init) {
        var i :| 0 <= i < |init| && key(init[i]) == k;
        assert rows[i] == init[i];
      }
      if exists i :: 0 <= i < |rows| && key(rows[i]) == k {
        var i :| 0 <= i < |rows| && key(rows[i]) == k;
        if i < |init| {
          assert init[i] == rows[i];
        }
      }
    }
  }

  lemma {:induction false} KeysOfAppend<R, K>(key: R -> K, a: seq<R>, b: seq<R>)
    ensures KeysOf(key, a + b) == KeysOf(key, a) + KeysOf(key, b)
    decreases |b|
  {
    if b == [] {
      assert a + b == a;
    } else {
      var b' := b[..|b| - 1];
      assert (a + b)[..|a + b| - 1] == a + b';
      KeysOfAppend(key, a, b');
    }
  }

  /** Appending one row: what the collector loop does for each extracted row. */
  lemma DedupSnoc<R, K>(key: R -> K, rows: seq<R>, x: R)
    ensures KeysOf(key, rows + [x]) == KeysOf(key, rows) + {key(x)}
    ensures Dedup(key, rows + [x]) ==
              if key(x) in KeysOf(key, rows) then Dedup(key, rows) else Dedup(key, rows) + [x]
  {
    assert (rows + [x])[..|rows|] == rows;
  }

  /** No two kept rows share a key, and every key read is kept: the set and the list agree. */
  lemma {:induction false} DedupKeys<R, K>(key: R -> K, rows: seq<R>)
    ensures KeysOf(key, Dedup(key, rows)) == KeysOf(key, rows)
    ensures |Dedup(key, rows)| == |KeysOf(key, rows)|
    ensures forall i, j :: 0 <= i < j < |Dedup(key, rows)| ==>
              key(Dedup(key, rows)[i]) != key(Dedup(key, rows)[j])
  {
    if rows != [] {
      var init, last := rows[..|rows| - 1], rows[|rows| - 1];
      assert rows == init + [last];
      DedupKeys(key, init);
      var d := Dedup(key, init);
      if key(last) !in KeysOf(key, init) {
        DedupSnoc(key, d, last);
        var d' := d + [last];
        forall i, j | 0 <= i < j < |d'| ensures key(d'[i]) != key(d'[j]) {
          if j == |d| {
            KeysOfMember(key, d, key(d'[i]));
          }
        }
      }
    }
  }

  /** Every kept row is the first row of the input that carries its key. */
  lemma {:induction false} DedupFirstSeen<R, K>(key: R -> K, rows: seq<R>)
    ensures forall x :: x in Dedup(key, rows) ==>
              key(x) in KeysOf(key, rows) && x == rows[FirstIndex(key, rows, key(x))]
  {
    if rows != [] {
      var init, last := rows[..|rows| - 1], rows[|rows| - 1];
      DedupFirstSeen(key, init);
      var d := Dedup(key, init);
      forall x | x in d
        ensures key(x) in KeysOf(key, rows) && x == rows[FirstIndex(key, rows, key(x))]
      {
        FirstIndexInit(key, rows, key(x));
      }
      if key(last) !in KeysOf(key, init) {
        assert Dedup(key, rows) == d + [last];
      }
    }
  }

  /** Kept rows appear in the order their keys were first read. */
  lemma {:induction false} DedupOrder<R, K>(key: R -> K, rows: seq<R>)
    ensures forall x :: x in Dedup(key, rows) ==> key(x) in KeysOf(key, rows)
    ensures forall i, j :: 0 <= i < j < |Dedup(key, rows)| ==>
              FirstIndex(key, rows, key(Dedup(key, rows)[i])) <
              FirstIndex(key, rows, key(Dedup(key, rows)[j]))
  {
    DedupFirstSeen(key, rows);
    if rows != [] {
      var init, last := rows[..|rows| - 1], rows[|rows| - 1];
      DedupOrder(key, init);
      DedupFirstSeen(key, init);
      var d, out := Dedup(key, init), Dedup(key, rows);
      assert forall x :: x in d ==> key(x) in KeysOf(key, init);
      forall i, j | 0 <= i < j < |out|
        ensures FirstIndex(key, rows, key(out[i])) < FirstIndex(key, rows, key(out[j]))
      {
        assert out[i] in d;
        FirstIndexInit(key, rows, key(out[i]));
        if j < |d| {
          assert out[j] in d;
          FirstIndexInit(key, rows, key(out[j]));
        } else {
          assert out[j] == last && key(last) !in KeysOf(key, init);
        }
      }
    }
  }

  /** The first occurrence of a key already in the front part stays where it was. */
  lemma FirstIndexInit<R, K>(key: R -> K, rows: seq<R>, k: K)
    requires rows != [] && k in KeysOf(key, rows[..|rows| - 1])
    ensures k in KeysOf(key, rows)
    ensures FirstIndex(key, rows, k) == FirstIndex(key, rows[..|rows| - 1], k)
  {
  }

  /** What was kept stays kept: deduplicating more rows only extends the result. */
  lemma {:induction false} DedupPrefix<R, K>(key: R -> K, a: seq<R>, b: seq<R>)
    ensures Dedup(key, a) <= Dedup(key, a + b)
    decreases |b|
  {
    if b == [] {
      assert a + b == a;
    } else {
      var b' := b[..|b| - 1];
      assert (a + b)[..|a + b| - 1] == a + b';
      DedupPrefix(key, a, b');
    }
  }

  /** Reading more rows only extends the deduplicated list and the key set. */
  lemma {:induction false} DedupMonotone<R, K>(key: R -> K, a: seq<R>, c: seq<R>)
    requires a <= c
    ensures Dedup(key, a) <= Dedup(key, c)
    ensures KeysOf(key, a) <= KeysOf(key, c)
  {
    var b := c[|a|..];
    assert a + b == c;
    DedupPrefix(key, a, b);
    KeysOfAppend(key, a, b);
  }

  /** Rows whose keys were all seen already add nothing (re-reading an unchanged view). */
  lemma {:induction false} DedupAbsorbs<R, K>(key: R -> K, a: seq<R>, b: seq<R>)
    requires KeysOf(key, b) <= KeysOf(key, a)
    ensures Dedup(key, a + b) == Dedup(key, a)
    ensures KeysOf(key, a + b) == KeysOf(key, a)
    decreases |b|
  {
    KeysOfAppend(key, a, b);
    if b == [] {
      assert a + b == a;
    } else {
      var b', x := b[..|b| - 1], b[|b| - 1];
      assert b == b' + [x];
      KeysOfAppend(key, b', [x]);
      assert a + b == (a + b') + [x];
      DedupAbsorbs(key, a, b');
      KeysOfAppend(key, a, b');
      DedupSnoc(key, a + b', x);
      assert key(x) in KeysOf(key, b) by {
        KeysOfMember(key, b, key(x));
      }
    }
  }

  /** Deduplicating a deduplicated sequence changes nothing. */
  lemma {:induction false} DedupIdempotent<R, K>(key: R -> K, rows: seq<R>)
    ensures Dedup(key, Dedup(key, rows)) == Dedup(key, rows)
  {
    if rows != [] {
      var init, last := rows[..|rows| - 1], rows[|rows| - 1];
      DedupIdempotent(key, init);
      DedupKeys(key, init);
      var d := Dedup(key, init);
      if key(last) !in KeysOf(key, init) {
        DedupSnoc(key, d, last);
      }
    }
  }
}
