/**
 * Vocabulary shared by the three ledger-driven batch stages: the moment a
 * step runs at, duplicate-free sequences, and counting successes.
 */
module Pipeline {

  /**
   * One reading of the wall clock, as the scripts render it:
   * `date` is '%Y-%m-%d', `dateTime` is '%Y-%m-%d %H:%M:%S', `iso` is isoformat().
   */
  datatype Moment = Moment(date: string, dateTime: string, iso: string)

  predicate NoDup<T(==)>(s: seq<T>) {
    forall i, j :: 0 <= i < j < |s| ==> s[i] != s[j]
  }

  /** Appending an element that is not yet present keeps a sequence duplicate-free. */
  lemma {:induction false} NoDupAppend<T>(s: seq<T>, x: T)
    requires NoDup(s) && x !in s
    ensures NoDup(s + [x])
  {
  }

  /** Regrouping a sequence built in two appends; kept apart so the step runs in a small context. */
  lemma {:induction false} AppendAssoc<T>(a: seq<T>, b: seq<T>, c: seq<T>, x: seq<T>, y: seq<T>)
    requires x == a + b && y == x + c
    ensures y == a + (b + c)
  {
  }

  /** A prefix of a sequence is a prefix of the sequence extended by one element. */
  lemma {:induction false} PrefixOfSnoc<T>(a: seq<T>, x: T, b: seq<T>, m: nat)
    requires m <= |a| && b == a[..m]
    ensures b == (a + [x])[..m]
  {
    assert (a + [x])[..m] == a[..m];
  }

  /** Being a prefix is transitive. */
  lemma {:induction false} PrefixTrans<T>(a: seq<T>, b: seq<T>, c: seq<T>)
    requires a <= b && b <= c
    ensures a <= c
  {
  }

  /** The prefix of the full length is the whole sequence. */
  lemma {:induction false} PrefixAll<T>(a: seq<T>, m: nat)
    requires m == |a|
    ensures a[..m] == a
  {
  }

  /**
   * A batch run: the state and the result of every position after `step`
   * has handled positions 0 to n - 1 in turn, each on the state the
   * previous one left.
   */
  function Fold<S, O>(step: (S, nat) -> (S, O), init: S, n: nat): (r: (S, seq<O>))
    ensures |r.1| == n
  {
    if n == 0 then (init, [])
    else
      var before := Fold(step, init, n - 1);
      var next := step(before.0, n - 1);
      (next.0, before.1 + [next.1])
  }

  /** The results of the first `m` positions do not depend on the positions after them. */
  lemma {:induction false} FoldPrefix<S, O>(step: (S, nat) -> (S, O), init: S, m: nat, n: nat)
    requires m <= n
    ensures Fold(step, init, m).1 == Fold(step, init, n).1[..m]
    decreases n
  {
    if m < n {
      FoldPrefix(step, init, m, n - 1);
      var before := Fold(step, init, n - 1);
      PrefixOfSnoc(before.1, step(before.0, n - 1).1, Fold(step, init, m).1, m);
    } else {
      PrefixAll(Fold(step, init, n).1, m);
    }
  }

  /** The result at position `k` is what the step returned on the state the first `k` positions left. */
  lemma {:induction false} FoldResultAt<S, O>(step: (S, nat) -> (S, O), init: S, k: nat, n: nat)
    requires k < n
    ensures Fold(step, init, n).1[k] == step(Fold(step, init, k).0, k).1
  {
    FoldPrefix(step, init, k + 1, n);
    var before := Fold(step, init, k);
    assert Fold(step, init, k + 1).1 == before.1 + [step(before.0, k).1];
  }

  /** Two duplicate-free sequences with no element in common join into a duplicate-free sequence. */
  lemma {:induction false} NoDupConcat<T>(a: seq<T>, b: seq<T>)
    requires NoDup(a) && NoDup(b)
    requires forall x :: x in b ==> x !in a
    ensures NoDup(a + b)
  {
    forall i, j | 0 <= i < j < |a + b|
      ensures (a + b)[i] != (a + b)[j]
    {
      if i < |a| && j >= |a| {
        assert (a + b)[j] in b;
      }
    }
  }

  /** The elements of a duplicate-free sequence are as many as its positions. */
  lemma {:induction false} NoDupCardinality<T>(s: seq<T>)
    requires NoDup(s)
    ensures |set x | x in s| == |s|
  {
    if s != [] {
      var init := s[..|s| - 1];
      var last := s[|s| - 1];
      assert NoDup(init);
      NoDupCardinality(init);
      assert (set x | x in s) == (set x | x in init) + {last};
      assert last !in (set x | x in init);
    }
  }

  /** The number of `true` results. */
  function CountTrue(oks: seq<bool>): (n: nat)
    ensures n <= |oks|
  {
    if oks == [] then 0 else CountTrue(oks[..|oks| - 1]) + (if oks[|oks| - 1] then 1 else 0)
  }

  /** The elements of `xs` at the positions where `oks` holds, in order. */
  function Kept<T>(xs: seq<T>, oks: seq<bool>): (r: seq<T>)
    requires |xs| == |oks|
    ensures |r| == CountTrue(oks)
  {
    if xs == [] then []
    else Kept(xs[..|xs| - 1], oks[..|oks| - 1]) + (if oks[|oks| - 1] then [xs[|xs| - 1]] else [])
  }

  /** Kept over one more position. */
  lemma {:induction false} KeptSnoc<T>(xs: seq<T>, oks: seq<bool>, x: T, b: bool)
    requires |xs| == |oks|
    ensures Kept(xs + [x], oks + [b]) == Kept(xs, oks) + (if b then [x] else [])
  {
    assert (xs + [x])[..|xs|] == xs;
    assert (oks + [b])[..|oks|] == oks;
  }

  /** Only elements of `xs` are kept. */
  lemma {:induction false} KeptWithin<T>(xs: seq<T>, oks: seq<bool>)
    requires |xs| == |oks|
    ensures forall x :: x in Kept(xs, oks) ==> x in xs
  {
    if xs != [] {
      var n := |xs| - 1;
      KeptWithin(xs[..n], oks[..n]);
    }
  }

  /** Every kept element comes from a position where `oks` holds. */
  lemma {:induction false} KeptFrom<T>(xs: seq<T>, oks: seq<bool>, x: T)
    requires |xs| == |oks| && x in Kept(xs, oks)
    ensures exists k :: 0 <= k < |xs| && oks[k] && xs[k] == x
  {
    var n := |xs| - 1;
    var init := Kept(xs[..n], oks[..n]);
    if x in init {
      KeptFrom(xs[..n], oks[..n], x);
      var k :| 0 <= k < n && oks[..n][k] && xs[..n][k] == x;
      assert oks[k] && xs[k] == x;
    } else {
      assert oks[n] && xs[n] == x;
    }
  }

  /** The element at every position where `oks` holds is kept. */
  lemma {:induction false} KeptHas<T>(xs: seq<T>, oks: seq<bool>, k: nat)
    requires |xs| == |oks| && k < |xs| && oks[k]
    ensures xs[k] in Kept(xs, oks)
  {
    var n := |xs| - 1;
    if k < n {
      KeptHas(xs[..n], oks[..n], k);
      assert xs[..n][k] == xs[k];
    }
  }

  /** When every position holds, everything is kept. */
  lemma {:induction false} KeptAll<T>(xs: seq<T>, oks: seq<bool>)
    requires |xs| == |oks|
    requires forall k :: 0 <= k < |oks| ==> oks[k]
    ensures Kept(xs, oks) == xs
  {
    if xs != [] {
      var n := |xs| - 1;
      KeptAll(xs[..n], oks[..n]);
      assert xs[..n] + [xs[n]] == xs;
    }
  }

  /** Keeping some positions of a duplicate-free sequence gives a duplicate-free sequence. */
  lemma {:induction false} KeptNoDup<T>(xs: seq<T>, oks: seq<bool>)
    requires |xs| == |oks| && NoDup(xs)
    ensures NoDup(Kept(xs, oks))
  {
    if xs != [] {
      var n := |xs| - 1;
      assert NoDup(xs[..n]);
      KeptNoDup(xs[..n], oks[..n]);
      if oks[n] {
        assert xs[n] !in xs[..n];
        KeptWithin(xs[..n], oks[..n]);
        NoDupAppend(Kept(xs[..n], oks[..n]), xs[n]);
      }
    }
  }
}
