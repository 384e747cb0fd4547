/** Filtering a list, as the code's append loops do. */
module Filtering {

  function Filter<T>(s: seq<T>, keep: T -> bool): seq<T> {
    if s == [] then []
    else Filter(s[..|s| - 1], keep) + if keep(s[|s| - 1]) then [s[|s| - 1]] else []
  }

  lemma {:induction false} FilterHas<T>(s: seq<T>, keep: T -> bool, x: T)
    ensures x in Filter(s, keep) <==> x in s && keep(x)
  {
    if s != [] {
      assert s == s[..|s| - 1] + [s[|s| - 1]];
      FilterHas(s[..|s| - 1], keep, x);
    }
  }

  lemma {:induction false} FilterSame<T(!new)>(s: seq<T>, left: T -> bool, right: T -> bool)
    requires forall x :: x in s ==> left(x) == right(x)
    ensures Filter(s, left) == Filter(s, right)
  {
    if s != [] {
      FilterSame(s[..|s| - 1], left, right);
    }
  }

  lemma FilterMore<T>(s: seq<T>, keep: T -> bool, i: nat)
    requires i < |s|
    ensures Filter(s[..i + 1], keep) == Filter(s[..i], keep) + if keep(s[i]) then [s[i]] else []
  {
    assert s[..i + 1][..i] == s[..i];
  }

  method Select<T>(s: seq<T>, keep: T -> bool) returns (r: seq<T>)
    ensures r == Filter(s, keep)
  {
    r := [];
    for i := 0 to |s|
      invariant r == Filter(s[..i], keep)
    {
      FilterMore(s, keep, i);
      if keep(s[i]) {
        r := r + [s[i]];
      }
    }
    assert s[..|s|] == s;
  }
}
