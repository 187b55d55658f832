/**
 Weighted sums over sequences, the shape of every SQL aggregate in the model.
 The recursion peels the last element, because tables only grow at their end.
 */
module Sums {

  function Sum<T>(s: seq<T>, weight: T -> nat): nat {
    if s == [] then 0 else Sum(s[..|s| - 1], weight) + weight(s[|s| - 1])
  }

  lemma SumAppend<T>(s: seq<T>, x: T, weight: T -> nat)
    ensures Sum(s + [x], weight) == Sum(s, weight) + weight(x)
  {
    assert (s + [x])[..|s|] == s;
  }

  lemma {:induction false} SumConcat<T>(s: seq<T>, t: seq<T>, weight: T -> nat)
    ensures Sum(s + t, weight) == Sum(s, weight) + Sum(t, weight)
  {
    if t == [] {
      assert s + t == s;
    } else {
      var init, last := t[..|t| - 1], t[|t| - 1];
      assert s + t == (s + init) + [last];
      SumAppend(s + init, last, weight);
      SumConcat(s, init, weight);
    }
  }

  lemma {:induction false} SumUpdate<T>(s: seq<T>, i: nat, x: T, weight: T -> nat)
    requires i < |s|
    ensures Sum(s[i := x], weight) == Sum(s, weight) - weight(s[i]) + weight(x)
  {
    assert s == s[..i] + [s[i]] + s[i + 1..];
    assert s[i := x] == s[..i] + [x] + s[i + 1..];
    SumConcat(s[..i] + [s[i]], s[i + 1..], weight);
    SumConcat(s[..i] + [x], s[i + 1..], weight);
    SumAppend(s[..i], s[i], weight);
    SumAppend(s[..i], x, weight);
  }

  lemma {:induction false} SumMonotone<T>(s: seq<T>, u: T -> nat, v: T -> nat)
    requires forall x | x in s :: u(x) <= v(x)
    ensures Sum(s, u) <= Sum(s, v)
  {
    if s != [] {
      SumMonotone(s[..|s| - 1], u, v);
    }
  }

  lemma SumSame<T>(s: seq<T>, u: T -> nat, v: T -> nat)
    requires forall x | x in s :: u(x) == v(x)
    ensures Sum(s, u) == Sum(s, v)
  {
    SumMonotone(s, u, v);
    SumMonotone(s, v, u);
  }

  /** A weight that splits pointwise splits in the sum. */
  lemma {:induction false} SumSplit<T>(s: seq<T>, w: T -> nat, u: T -> nat, v: T -> nat)
    requires forall x | x in s :: w(x) == u(x) + v(x)
    ensures Sum(s, w) == Sum(s, u) + Sum(s, v)
  {
    if s != [] {
      SumSplit(s[..|s| - 1], w, u, v);
    }
  }

  /** If every weight is at most `cap` times its count, so is the sum. */
  lemma {:induction false} SumCapped<T>(s: seq<T>, w: T -> nat, count: T -> nat, cap: nat)
    requires forall x | x in s :: w(x) <= cap * count(x)
    ensures Sum(s, w) <= cap * Sum(s, count)
  {
    if s != [] {
      var init, last := s[..|s| - 1], s[|s| - 1];
      SumCapped(init, w, count, cap);
      assert w(last) <= cap * count(last);
      assert cap * (Sum(init, count) + count(last)) == cap * Sum(init, count) + cap * count(last);
    }
  }

  lemma {:induction false} SumHolds<T>(s: seq<T>, x: T, weight: T -> nat)
    requires x in s
    ensures weight(x) <= Sum(s, weight)
  {
    var init, last := s[..|s| - 1], s[|s| - 1];
    if x != last {
      assert x in init;
      SumHolds(init, x, weight);
    }
  }

  /** Appending never lowers a sum. */
  lemma SumOfPrefix<T>(s: seq<T>, t: seq<T>, weight: T -> nat)
    requires s <= t
    ensures Sum(t, weight) == Sum(s, weight) + Sum(t[|s|..], weight)
  {
    assert t == s + t[|s|..];
    SumConcat(s, t[|s|..], weight);
  }
}
