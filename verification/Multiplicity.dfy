/** How often an element occurs in a list. */
module Multiplicity {
  function Times(l: seq<int>, u: int): nat { multiset(l)[u] }

  lemma TimesConcat(s: seq<int>, t: seq<int>, y: int)
    ensures Times(s + t, y) == Times(s, y) + Times(t, y)
  {
  }

  lemma TimesIn(s: seq<int>, y: int)
    ensures y in s <==> Times(s, y) > 0
  {
  }

  lemma TimesFront(s: seq<int>, y: int)
    requires s != []
    ensures Times(s, y) == Times(s[..|s| - 1], y) + if s[|s| - 1] == y then 1 else 0
  {
    assert s == s[..|s| - 1] + [s[|s| - 1]];
  }

  function Min(a: nat, b: nat): nat { if a < b then a else b }
}
