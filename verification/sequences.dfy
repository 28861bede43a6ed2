/** Order-preserving deduplication, as `[...new Set(xs)]` computes it: a
    JavaScript `Set` iterates in insertion order and ignores re-insertions. */
module Sequences {

  ghost predicate NoDuplicates<T>(s: seq<T>) {
    forall i, j :: 0 <= i < j < |s| ==> s[i] != s[j]
  }

  /** Position of the first occurrence of `x` in `xs`. */
  function FirstIndex<T(==)>(xs: seq<T>, x: T): (i: nat)
    requires x in xs
    ensures i < |xs| && xs[i] == x
    ensures x !in xs[..i]
  {
    if xs[0] == x then 0
    else
      var k := FirstIndex(xs[1..], x);
      assert xs[..k + 1] == [xs[0]] + xs[1..][..k];
      1 + k
  }

  /** A first occurrence in a prefix is the first occurrence in the whole. */
  lemma FirstIndexInPrefix<T>(xs: seq<T>, n: nat, x: T)
    requires n <= |xs| && x in xs[..n]
    ensures FirstIndex(xs, x) == FirstIndex(xs[..n], x)
  {
    var j := FirstIndex(xs[..n], x);
    assert xs[..n][..j] == xs[..j];
  }

  /** The distinct elements of `xs`, each once, in order of first appearance
      (`DedupeKeepsFirstAppearanceOrder`). */
  function Dedupe<T(==)>(xs: seq<T>): (r: seq<T>)
    ensures NoDuplicates(r)
    ensures forall i :: 0 <= i < |r| ==> r[i] in xs
    ensures forall i :: 0 <= i < |xs| ==> xs[i] in r
    decreases |xs|
  {
    if xs == [] then []
    else
      var n := |xs| - 1;
      var init := Dedupe(xs[..n]);
      var last := xs[n];
      assert xs == xs[..n] + [last];
      if last in init then init else init + [last]
  }

  /** The elements of `r` occur in `xs`, in the order of their first
      appearance there. */
  ghost predicate InFirstAppearanceOrder<T>(xs: seq<T>, r: seq<T>)
  {
    && (forall i :: 0 <= i < |r| ==> r[i] in xs)
    && (forall i, j :: 0 <= i < j < |r| ==> FirstIndex(xs, r[i]) < FirstIndex(xs, r[j]))
  }

  /** Order of first appearance in a prefix is order of first appearance
      in the whole sequence. */
  lemma PrefixOrderCarries<T>(xs: seq<T>, n: nat, r: seq<T>)
    requires n <= |xs| && InFirstAppearanceOrder(xs[..n], r)
    ensures InFirstAppearanceOrder(xs, r)
    ensures forall i :: 0 <= i < |r| ==> FirstIndex(xs, r[i]) < n
  {
    forall i | 0 <= i < |r|
      ensures FirstIndex(xs, r[i]) == FirstIndex(xs[..n], r[i]) < n
    {
      FirstIndexInPrefix(xs, n, r[i]);
    }
    forall i, j | 0 <= i < j < |r|
      ensures FirstIndex(xs, r[i]) < FirstIndex(xs, r[j])
    {
      assert FirstIndex(xs[..n], r[i]) < FirstIndex(xs[..n], r[j]);
    }
  }

  /** The output keeps the order of first appearance in the input. */
  lemma {:induction false} DedupeKeepsFirstAppearanceOrder<T>(xs: seq<T>)
    ensures InFirstAppearanceOrder(xs, Dedupe(xs))
    decreases |xs|
  {
    if xs != [] {
      var n := |xs| - 1;
      var init := Dedupe(xs[..n]);
      var last := xs[n];
      assert xs == xs[..n] + [last];
      DedupeKeepsFirstAppearanceOrder(xs[..n]);
      PrefixOrderCarries(xs, n, init);
      if last !in init {
        var r := init + [last];
        assert FirstIndex(xs, last) == n;
        forall i, j | 0 <= i < j < |r|
          ensures FirstIndex(xs, r[i]) < FirstIndex(xs, r[j])
        {
          assert r[i] == init[i];
          if j < |init| {
            assert r[j] == init[j];
          }
        }
        assert InFirstAppearanceOrder(xs, r);
      }
    }
  }

  /** Every element of the input sits at exactly one position of the output. */
  lemma DedupeKeepsOne<T>(xs: seq<T>, x: T)
    requires x in xs
    ensures exists i :: 0 <= i < |Dedupe(xs)| && Dedupe(xs)[i] == x
                        && forall j :: 0 <= j < |Dedupe(xs)| && Dedupe(xs)[j] == x ==> j == i
  {
    var r := Dedupe(xs);
    var k :| 0 <= k < |xs| && xs[k] == x;
    var i :| 0 <= i < |r| && r[i] == x;
  }
}
