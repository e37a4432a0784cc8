/** Sequence identities and list shapes shared by the scraper and the
    résumé layout. Each identity is its own lemma, so that a proof about
    the model brings in only the one it needs. */
module Seqs {

  lemma AppendAssoc<T>(a: seq<T>, b: seq<T>, c: seq<T>)
    ensures (a + b) + c == a + (b + c)
  {
  }

  lemma AppendNil<T>(a: seq<T>)
    ensures a + [] == a
    ensures [] + a == a
  {
  }

  lemma DropNone<T>(xs: seq<T>)
    ensures xs[0..] == xs
  {
  }

  lemma TakeAll<T>(xs: seq<T>)
    ensures xs[..|xs|] == xs
  {
  }

  /** The prefix of length i of the prefix of length i + 1. */
  lemma TakeTake<T>(xs: seq<T>, i: nat)
    requires i < |xs|
    ensures xs[..i + 1][..i] == xs[..i]
  {
  }

  lemma TakeSnoc<T>(xs: seq<T>, i: nat)
    requires i < |xs|
    ensures xs[..i + 1] == xs[..i] + [xs[i]]
  {
  }

  lemma Around<T>(xs: seq<T>, k: nat)
    requires k < |xs|
    ensures xs[..k] + [xs[k]] + xs[k + 1..] == xs
  {
  }

  lemma InitOfAppend<T>(a: seq<T>, b: seq<T>)
    requires b != []
    ensures (a + b)[..|a + b| - 1] == a + b[..|b| - 1]
  {
  }

  lemma TailOfAppend<T>(a: seq<T>, b: seq<T>)
    requires a != []
    ensures (a + b)[0] == a[0] && (a + b)[1..] == a[1..] + b
  {
  }

  /** Dropping the head commutes with taking a prefix. */
  lemma TakeOfTail<T>(xs: seq<T>, k: nat)
    requires 1 <= k <= |xs|
    ensures xs[1..][..k - 1] == xs[..k][1..]
    ensures xs[..k][0] == xs[0]
  {
  }

  lemma DropTake<T>(xs: seq<T>, i: nat, n: nat)
    requires i + n <= |xs|
    ensures xs[i..][..n] == xs[i..i + n]
  {
  }

  lemma DropAt<T>(xs: seq<T>, i: nat, k: nat)
    requires i + k < |xs|
    ensures xs[i..][k] == xs[i + k]
  {
  }

  /** The list of `f` applied to each element, in order. */
  function Map<T, U>(xs: seq<T>, f: T -> U): (ys: seq<U>)
    ensures |ys| == |xs|
  {
    if xs == [] then [] else [f(xs[0])] + Map(xs[1..], f)
  }

  lemma {:induction false} MapAt<T, U>(xs: seq<T>, f: T -> U)
    ensures forall k :: 0 <= k < |xs| ==> Map(xs, f)[k] == f(xs[k])
    decreases |xs|
  {
    if xs != [] {
      MapAt(xs[1..], f);
      forall k | 1 <= k < |xs| ensures Map(xs, f)[k] == f(xs[k]) {
        assert xs[1..][k - 1] == xs[k];
      }
    }
  }

  lemma {:induction false} MapSnoc<T, U>(xs: seq<T>, x: T, f: T -> U)
    ensures Map(xs + [x], f) == Map(xs, f) + [f(x)]
    decreases |xs|
  {
    if xs == [] {
      assert xs + [x] == [x];
      assert [x][1..] == [];
    } else {
      TailOfAppend(xs, [x]);
      MapSnoc(xs[1..], x, f);
    }
  }
}
