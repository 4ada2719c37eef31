/** Sums and counts over rows, and how one updated or appended row changes them. */
module Counting {

  function Sum<T>(s: seq<T>, f: T -> int): int {
    if s == [] then 0 else f(s[0]) + Sum(s[1..], f)
  }

  function Count<T>(s: seq<T>, p: T -> bool): nat {
    if s == [] then 0 else (if p(s[0]) then 1 else 0) + Count(s[1..], p)
  }

  lemma {:induction false} SumAppend<T>(s: seq<T>, t: seq<T>, f: T -> int)
    ensures Sum(s + t, f) == Sum(s, f) + Sum(t, f)
  {
    if s == [] {
      assert s + t == t;
    } else {
      assert (s + t)[1..] == s[1..] + t;
      SumAppend(s[1..], t, f);
    }
  }

  lemma SumSnoc<T>(s: seq<T>, x: T, f: T -> int)
    ensures Sum(s + [x], f) == Sum(s, f) + f(x)
  {
    SumAppend(s, [x], f);
    assert Sum([x], f) == f(x) + Sum([x][1..], f);
  }

  lemma {:induction false} SumUpdate<T>(s: seq<T>, i: nat, x: T, f: T -> int)
    requires i < |s|
    ensures Sum(s[i := x], f) == Sum(s, f) - f(s[i]) + f(x)
  {
    if i == 0 {
      assert s[0 := x][1..] == s[1..];
    } else {
      assert s[i := x][1..] == s[1..][i - 1 := x];
      SumUpdate(s[1..], i - 1, x, f);
    }
  }

  lemma {:induction false} CountAppend<T>(s: seq<T>, t: seq<T>, p: T -> bool)
    ensures Count(s + t, p) == Count(s, p) + Count(t, p)
  {
    if s == [] {
      assert s + t == t;
    } else {
      assert (s + t)[1..] == s[1..] + t;
      CountAppend(s[1..], t, p);
    }
  }

  lemma CountSnoc<T>(s: seq<T>, x: T, p: T -> bool)
    ensures Count(s + [x], p) == Count(s, p) + (if p(x) then 1 else 0)
  {
    CountAppend(s, [x], p);
    assert Count([x], p) == (if p(x) then 1 else 0) + Count([x][1..], p);
  }

  lemma {:induction false} CountUpdate<T>(s: seq<T>, i: nat, x: T, p: T -> bool)
    requires i < |s|
    ensures Count(s[i := x], p) == Count(s, p) - (if p(s[i]) then 1 else 0) + (if p(x) then 1 else 0)
    ensures p(s[i]) ==> Count(s, p) > 0
  {
    if i == 0 {
      assert s[0 := x][1..] == s[1..];
    } else {
      assert s[i := x][1..] == s[1..][i - 1 := x];
      CountUpdate(s[1..], i - 1, x, p);
    }
  }

  lemma {:induction false} CountExt<T>(s: seq<T>, p: T -> bool, q: T -> bool)
    requires forall x :: x in s ==> p(x) == q(x)
    ensures Count(s, p) == Count(s, q)
  {
    if s != [] {
      CountExt(s[1..], p, q);
    }
  }

  /** Two tables of one length that agree, row by row, on who is counted have one count. */
  lemma {:induction false} CountPointwise<T>(s: seq<T>, t: seq<T>, p: T -> bool)
    requires |s| == |t|
    requires forall i :: 0 <= i < |s| ==> p(s[i]) == p(t[i])
    ensures Count(s, p) == Count(t, p)
  {
    if s != [] {
      forall i | 0 <= i < |s[1..]| ensures p(s[1..][i]) == p(t[1..][i]) {
        assert s[1..][i] == s[i + 1] && t[1..][i] == t[i + 1];
      }
      CountPointwise(s[1..], t[1..], p);
    }
  }

  lemma {:induction false} CountZero<T>(s: seq<T>, p: T -> bool)
    ensures Count(s, p) == 0 <==> forall x :: x in s ==> !p(x)
  {
    if s != [] {
      CountZero(s[1..], p);
      assert forall x :: x in s <==> x == s[0] || x in s[1..];
    }
  }

  // ---- runs ----

  /** A property that holds at first, and that a step at which it holds keeps unless the step is
      bad, holds all along if and only if no step is bad. */
  lemma HoldsAllAlong(good: seq<bool>, bad: seq<bool>)
    requires |good| == |bad| + 1 && good[0]
    requires forall k :: 0 <= k < |bad| && good[k] ==> (good[k + 1] <==> !bad[k])
    ensures (forall k :: 0 <= k < |good| ==> good[k]) <==> (forall k :: 0 <= k < |bad| ==> !bad[k])
  {
    if forall k :: 0 <= k < |good| ==> good[k] {
      forall k | 0 <= k < |bad| ensures !bad[k] {
        assert good[k] && good[k + 1];
      }
    }
    if forall k :: 0 <= k < |bad| ==> !bad[k] {
      forall k: nat | k < |good| ensures good[k] {
        HoldsUpTo(good, bad, k);
      }
    }
  }

  lemma {:induction false} HoldsUpTo(good: seq<bool>, bad: seq<bool>, k: nat)
    requires |good| == |bad| + 1 && good[0] && k < |good|
    requires forall j :: 0 <= j < |bad| && good[j] ==> (good[j + 1] <==> !bad[j])
    requires forall j :: 0 <= j < |bad| ==> !bad[j]
    ensures good[k]
  {
    if k > 0 { HoldsUpTo(good, bad, k - 1); }
  }
}
