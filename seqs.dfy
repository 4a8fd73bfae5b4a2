/**
  Facts about sequences and maps, each proved on its own so that the proofs that use
  them do not redo the reasoning on their own larger terms.
 */
module Seqs {

  lemma AppendAssoc<T>(a: seq<T>, b: seq<T>, c: seq<T>)
    ensures a + b + c == a + (b + c)
  {
  }

  /** Regrouping a concatenation of five around its middle three. */
  lemma Regroup5<T>(p: seq<T>, a: seq<T>, m: seq<T>, b: seq<T>, q: seq<T>)
    ensures p + a + m + b + q == p + (a + m + b) + q
  {
  }

  /** The last element of `a + b` and what comes before it, when `b` is not empty. */
  lemma AppendDropLast<T>(a: seq<T>, b: seq<T>)
    requires b != []
    ensures (a + b)[..|a + b| - 1] == a + b[..|b| - 1] && (a + b)[|a + b| - 1] == b[|b| - 1]
  {
  }

  /** A sequence is its prefix, its middle and its suffix. */
  lemma Split3<T>(r: seq<T>, a: nat, b: nat)
    requires a <= b <= |r|
    ensures r == r[..a] + r[a..b] + r[b..]
  {
  }

  /** The positions of `p + t + q`, part by part. */
  lemma Concat3Index<T>(p: seq<T>, t: seq<T>, q: seq<T>)
    ensures forall k :: 0 <= k < |p| ==> (p + t + q)[k] == p[k]
    ensures forall k :: 0 <= k < |t| ==> (p + t + q)[|p| + k] == t[k]
    ensures forall k :: 0 <= k < |q| ==> (p + t + q)[|p| + |t| + k] == q[k]
  {
  }

  /** The middle of `p + t + q`. */
  lemma Concat3Middle<T>(p: seq<T>, t: seq<T>, q: seq<T>)
    ensures (p + t + q)[|p|..|p| + |t|] == t
  {
    assert (p + t + q)[|p|..|p| + |t|] == ((p + t) + q)[..|p| + |t|][|p|..];
  }

  /** A value missing from the first `a` positions is missing from the prefix. */
  lemma AbsentFromPrefix<T>(r: seq<T>, c: T, a: nat)
    requires a <= |r| && forall k :: 0 <= k < a ==> r[k] != c
    ensures c !in r[..a]
  {
    assert forall k :: 0 <= k < a ==> r[..a][k] == r[k];
  }

  /** A value missing from the positions from `b` on is missing from the suffix. */
  lemma AbsentFromSuffix<T>(r: seq<T>, c: T, b: nat)
    requires b <= |r| && forall k :: b <= k < |r| ==> r[k] != c
    ensures c !in r[b..]
  {
    assert forall k :: 0 <= k < |r| - b ==> r[b..][k] == r[b + k];
  }

  /** Appending two elements one at a time appends the pair. */
  lemma AppendPair<T>(s: seq<T>, x: T, y: T)
    ensures s + [x] + [y] == s + [x, y]
  {
  }

  /** A new key adds its value to a map's values and takes nothing away. */
  lemma UpdateValues<K, V>(m: map<K, V>, k: K, v: V)
    requires k !in m
    ensures m[k := v].Values == m.Values + {v}
  {
    var n := m[k := v];
    forall e | e in n.Values
      ensures e in m.Values || e == v
    {
      var u :| u in n && n[u] == e;
      if u != k {
        assert m[u] == e;
      }
    }
    forall e | e in m.Values
      ensures e in n.Values
    {
      var u :| u in m && m[u] == e;
      assert n[u] == e;
    }
    assert n[k] == v;
  }

  /** A second update of the same key overwrites the first. */
  lemma UpdateTwice<K, V>(m: map<K, V>, k: K, v: V, w: V)
    ensures m[k := v][k := w] == m[k := w]
  {
  }
}
