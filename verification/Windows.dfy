/** Facts about sequences that are built by appending and then read back by position. */
module Windows {

  /** xs is what t holds from position p on. */
  ghost predicate Holds<T>(t: seq<T>, p: nat, xs: seq<T>) {
    p + |xs| <= |t| && forall k :: 0 <= k < |xs| ==> t[p + k] == xs[k]
  }

  lemma HoldsMiddle<T>(c: seq<T>, xs: seq<T>, rest: seq<T>)
    ensures Holds(c + xs + rest, |c|, xs)
  {
  }

  lemma HoldsParts<T>(t: seq<T>, p: nat, xs: seq<T>, ys: seq<T>)
    requires Holds(t, p, xs + ys)
    ensures Holds(t, p, xs) && Holds(t, p + |xs|, ys)
  {
    assert forall k :: 0 <= k < |xs| ==> xs[k] == (xs + ys)[k];
    assert forall k :: 0 <= k < |ys| ==> ys[k] == (xs + ys)[|xs| + k] && t[p + |xs| + k] == t[p + (|xs| + k)];
  }

  lemma AppendThree<T>(s: seq<T>, xs: seq<T>)
    requires |xs| == 3
    ensures s + [xs[0]] + [xs[1]] + [xs[2]] == s + xs
  {
  }

  lemma AppendEight<T>(s: seq<T>, xs: seq<T>)
    requires |xs| == 8
    ensures s + [xs[0]] + [xs[1]] + [xs[2]] + [xs[3]] + [xs[4]] + [xs[5]] + [xs[6]] + [xs[7]] == s + xs
  {
  }

  lemma AppendTen<T>(s: seq<T>, xs: seq<T>)
    requires |xs| == 10
    ensures s + [xs[0]] + [xs[1]] + [xs[2]] + [xs[3]] + [xs[4]] + [xs[5]] + [xs[6]] + [xs[7]] + [xs[8]] + [xs[9]]
      == s + xs
  {
  }

  lemma AppendFourteen<T>(s: seq<T>, xs: seq<T>)
    requires |xs| == 14
    ensures s + [xs[0]] + [xs[1]] + [xs[2]] + [xs[3]] + [xs[4]] + [xs[5]] + [xs[6]] + [xs[7]] + [xs[8]] + [xs[9]]
      + [xs[10]] + [xs[11]] + [xs[12]] + [xs[13]] == s + xs
  {
  }

  lemma HoldsThree<T>(t: seq<T>, p: nat, xs: seq<T>)
    requires |xs| == 3 && Holds(t, p, xs)
    ensures t[p] == xs[0] && t[p + 1] == xs[1] && t[p + 2] == xs[2]
  {
    assert t[p + 0] == xs[0];
  }

  lemma HoldsEight<T>(t: seq<T>, p: nat, xs: seq<T>)
    requires |xs| == 8 && Holds(t, p, xs)
    ensures t[p] == xs[0] && t[p + 1] == xs[1] && t[p + 2] == xs[2] && t[p + 3] == xs[3]
    ensures t[p + 4] == xs[4] && t[p + 5] == xs[5] && t[p + 6] == xs[6] && t[p + 7] == xs[7]
  {
    assert t[p + 0] == xs[0];
  }

  lemma HoldsTen<T>(t: seq<T>, p: nat, xs: seq<T>)
    requires |xs| == 10 && Holds(t, p, xs)
    ensures t[p] == xs[0] && t[p + 1] == xs[1] && t[p + 2] == xs[2] && t[p + 3] == xs[3] && t[p + 4] == xs[4]
    ensures t[p + 5] == xs[5] && t[p + 6] == xs[6] && t[p + 7] == xs[7] && t[p + 8] == xs[8] && t[p + 9] == xs[9]
  {
    assert t[p + 0] == xs[0];
  }

  lemma HoldsFourteen<T>(t: seq<T>, p: nat, xs: seq<T>)
    requires |xs| == 14 && Holds(t, p, xs)
    ensures t[p] == xs[0] && t[p + 1] == xs[1] && t[p + 2] == xs[2] && t[p + 3] == xs[3] && t[p + 4] == xs[4]
    ensures t[p + 5] == xs[5] && t[p + 6] == xs[6] && t[p + 7] == xs[7] && t[p + 8] == xs[8] && t[p + 9] == xs[9]
    ensures t[p + 10] == xs[10] && t[p + 11] == xs[11] && t[p + 12] == xs[12] && t[p + 13] == xs[13]
  {
    assert t[p + 0] == xs[0];
  }
}
