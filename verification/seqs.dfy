/** Sequences used as sets of tags: duplicate-freedom and removal of every
    occurrence of one element (the array filter of the interest picker). */
module Seqs {

  predicate NoDup(xs: seq<string>) {
    forall i, j :: 0 <= i < j < |xs| ==> xs[i] != xs[j]
  }

  /** xs without any occurrence of x, the other elements kept in order. */
  function Remove(xs: seq<string>, x: string): (r: seq<string>)
    ensures forall y :: y in r <==> y in xs && y != x
    ensures |r| <= |xs|
    ensures x !in xs ==> r == xs
    ensures NoDup(xs) ==> NoDup(r)
  {
    if |xs| == 0 then []
    else if xs[0] == x then Remove(xs[1..], x)
    else
      var rest := Remove(xs[1..], x);
      assert NoDup(xs) ==> NoDup([xs[0]] + rest) by {
        if NoDup(xs) {
          NoDupParts(xs);
          NoDupCons(xs[0], rest);
        }
      }
      [xs[0]] + rest
  }

  /** The tail of a duplicate-free sequence is duplicate-free and lacks the head. */
  lemma NoDupParts(xs: seq<string>)
    requires NoDup(xs) && |xs| > 0
    ensures NoDup(xs[1..]) && xs[0] !in xs[1..]
  {
    forall i, j | 0 <= i < j < |xs[1..]| ensures xs[1..][i] != xs[1..][j] {
      assert xs[1..][i] == xs[i + 1] && xs[1..][j] == xs[j + 1];
    }
    forall k | 0 <= k < |xs[1..]| ensures xs[1..][k] != xs[0] {
      assert xs[1..][k] == xs[k + 1];
    }
  }

  lemma NoDupCons(a: string, xs: seq<string>)
    requires NoDup(xs) && a !in xs
    ensures NoDup([a] + xs)
  {
    var ys := [a] + xs;
    forall i, j | 0 <= i < j < |ys| ensures ys[i] != ys[j] {
      assert ys[j] == xs[j - 1];
      if i > 0 {
        assert ys[i] == xs[i - 1];
      }
    }
  }

  /** Appending an element that was absent and then removing it gives back the original. */
  lemma {:induction false} RemoveAppended(xs: seq<string>, x: string)
    requires x !in xs
    ensures Remove(xs + [x], x) == xs
  {
    if |xs| == 0 {
      assert Remove([x], x) == Remove([x][1..], x);
    } else {
      assert (xs + [x])[1..] == xs[1..] + [x];
      assert xs[0] in xs;
      RemoveAppended(xs[1..], x);
      assert xs == [xs[0]] + xs[1..];
    }
  }

  /** In a duplicate-free sequence the removal cuts out the one occurrence, at k,
      and keeps the order of everything else. */
  lemma {:induction false} RemoveSplices(xs: seq<string>, x: string, k: nat)
    requires NoDup(xs) && k < |xs| && xs[k] == x
    ensures Remove(xs, x) == xs[..k] + xs[k + 1..]
  {
    NoDupParts(xs);
    if k == 0 {
      assert Remove(xs, x) == Remove(xs[1..], x);
    } else {
      assert xs[0] != xs[k];
      assert xs[1..][k - 1] == x;
      RemoveSplices(xs[1..], x, k - 1);
      assert xs[..k] == [xs[0]] + xs[1..][..k - 1];
      assert xs[k + 1..] == xs[1..][k..];
    }
  }

  /** Removing an element of a duplicate-free sequence shortens it by exactly one. */
  lemma {:induction false} RemoveMember(xs: seq<string>, x: string)
    requires NoDup(xs) && x in xs
    ensures |Remove(xs, x)| == |xs| - 1
  {
    NoDupParts(xs);
    if xs[0] != x {
      assert x in xs[1..] by {
        var k :| 0 <= k < |xs| && xs[k] == x;
        assert xs[1..][k - 1] == x;
      }
      RemoveMember(xs[1..], x);
    }
  }
}
