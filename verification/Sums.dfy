/** Aggregates over a table, as SQL's `SUM` and `COUNT` compute them. A table is a sequence of
    rows and a row's identifier is its position, so a new row never disturbs an old one. */
module Sums {

  datatype Option<+T> = None | Some(value: T)

  /** The sum of `f` over all rows. */
  function Total<T>(s: seq<T>, f: T -> int): int {
    if s == [] then 0 else Total(s[..|s| - 1], f) + f(s[|s| - 1])
  }

  lemma TotalAppend<T>(s: seq<T>, x: T, f: T -> int)
    ensures Total(s + [x], f) == Total(s, f) + f(x)
  {
    assert (s + [x])[..|s|] == s;
  }

  lemma {:induction false} TotalUpdate<T>(s: seq<T>, i: nat, x: T, f: T -> int)
    requires i < |s|
    ensures Total(s[i := x], f) == Total(s, f) - f(s[i]) + f(x)
  {
    var n := |s| - 1;
    if i == n {
      assert s[i := x][..n] == s[..n];
    } else {
      assert s[i := x][..n] == s[..n][i := x];
      TotalUpdate(s[..n], i, x, f);
    }
  }

  lemma {:induction false} TotalSame<T>(s: seq<T>, f: T -> int, g: T -> int)
    requires forall i :: 0 <= i < |s| ==> f(s[i]) == g(s[i])
    ensures Total(s, f) == Total(s, g)
  {
    if s != [] {
      TotalSame(s[..|s| - 1], f, g);
    }
  }

  lemma {:induction false} TotalsAgree<S, T>(s: seq<S>, t: seq<T>, f: S -> int, g: T -> int)
    requires |s| == |t| && forall i :: 0 <= i < |s| ==> f(s[i]) == g(t[i])
    ensures Total(s, f) == Total(t, g)
  {
    if s != [] {
      TotalsAgree(s[..|s| - 1], t[..|t| - 1], f, g);
    }
  }

  lemma {:induction false} TotalsAdd<S, T>(s: seq<S>, t: seq<T>, f: S -> int, g: S -> int, h: T -> int)
    requires |s| == |t| && forall i :: 0 <= i < |s| ==> f(s[i]) + g(s[i]) == h(t[i])
    ensures Total(s, f) + Total(s, g) == Total(t, h)
  {
    if s != [] {
      TotalsAdd(s[..|s| - 1], t[..|t| - 1], f, g, h);
    }
  }

  lemma {:induction false} TotalAtMost<T>(s: seq<T>, f: T -> int, g: T -> int)
    requires forall i :: 0 <= i < |s| ==> f(s[i]) <= g(s[i])
    ensures Total(s, f) <= Total(s, g)
  {
    if s != [] {
      TotalAtMost(s[..|s| - 1], f, g);
    }
  }

  lemma {:induction false} TotalZero<T>(s: seq<T>, f: T -> int)
    requires forall i :: 0 <= i < |s| ==> f(s[i]) == 0
    ensures Total(s, f) == 0
  {
    if s != [] {
      TotalZero(s[..|s| - 1], f);
    }
  }

  lemma {:induction false} TotalAtLeast<T>(s: seq<T>, f: T -> int, i: nat)
    requires i < |s|
    requires forall j :: 0 <= j < |s| ==> f(s[j]) >= 0
    ensures Total(s, f) >= f(s[i])
  {
    if i < |s| - 1 {
      TotalAtLeast(s[..|s| - 1], f, i);
    } else {
      TotalNonNegative(s[..|s| - 1], f);
    }
  }

  lemma {:induction false} TotalNonNegative<T>(s: seq<T>, f: T -> int)
    requires forall j :: 0 <= j < |s| ==> f(s[j]) >= 0
    ensures Total(s, f) >= 0
  {
    if s != [] {
      TotalNonNegative(s[..|s| - 1], f);
    }
  }

  lemma {:induction false} TotalConcat<T>(s: seq<T>, t: seq<T>, f: T -> int)
    ensures Total(s + t, f) == Total(s, f) + Total(t, f)
  {
    if t == [] {
      assert s + t == s;
    } else {
      assert (s + t)[..|s + t| - 1] == s + t[..|t| - 1];
      TotalConcat(s, t[..|t| - 1], f);
    }
  }

  /** Two rows with weight at least one make the total at least two: with a total of at most one,
      the weighted row is unique. */
  lemma {:induction false} TotalTwo<T>(s: seq<T>, f: T -> int, i: nat, j: nat)
    requires i < j < |s|
    requires forall k :: 0 <= k < |s| ==> f(s[k]) >= 0
    ensures Total(s, f) >= f(s[i]) + f(s[j])
  {
    if j < |s| - 1 {
      TotalTwo(s[..|s| - 1], f, i, j);
    } else {
      TotalAtLeast(s[..|s| - 1], f, i);
    }
  }
}
