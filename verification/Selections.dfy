// The elements of a sequence that are kept, in order, and what is taken of each: said by indices, with how
// often each value is taken.

module Selections {

  /** The indices below n of the elements that are kept. */
  function KeptBefore<S>(s: seq<S>, keep: S -> bool, n: nat): set<nat>
    requires n <= |s|
  {
    set i: nat | i < n && keep(s[i])
  }

  /** There is one value for each kept element, and its position is the number of elements kept before. */
  ghost predicate Selects<S, T>(s: seq<S>, keep: S -> bool, value: S -> T, values: seq<T>) {
    && |values| == |KeptBefore(s, keep, |s|)|
    && forall i: nat {:trigger KeptBefore(s, keep, i)} :: i < |s| && keep(s[i]) ==>
         IsAt(values, |KeptBefore(s, keep, i)|, value(s[i]))
  }

  predicate IsAt<T(==)>(values: seq<T>, k: nat, v: T) {
    k < |values| && values[k] == v
  }

  lemma KeptOneMore<S>(s: seq<S>, keep: S -> bool, n: nat)
    requires n < |s|
    ensures |KeptBefore(s, keep, n + 1)| == |KeptBefore(s, keep, n)| + if keep(s[n]) then 1 else 0
  {
    var before := KeptBefore(s, keep, n);
    assert KeptBefore(s, keep, n + 1) == before + if keep(s[n]) then {n} else {};
  }

  /** What is not kept is the rest. */
  lemma {:induction false} KeptOrNot<S>(s: seq<S>, keep: S -> bool, drop: S -> bool, n: nat)
    requires n <= |s| && forall i :: 0 <= i < |s| ==> (drop(s[i]) <==> !keep(s[i]))
    ensures |KeptBefore(s, keep, n)| + |KeptBefore(s, drop, n)| == n
  {
    if n == 0 {
      assert KeptBefore(s, keep, 0) == {} && KeptBefore(s, drop, 0) == {};
    } else {
      KeptOrNot(s, keep, drop, n - 1);
      KeptOneMore(s, keep, n - 1);
      KeptOneMore(s, drop, n - 1);
    }
  }

  lemma KeptOfPrefix<S>(s: seq<S>, keep: S -> bool, m: nat, n: nat)
    requires n <= m <= |s|
    ensures KeptBefore(s[..m], keep, n) == KeptBefore(s, keep, n)
  {
  }

  lemma {:induction false} KeptGrows<S>(s: seq<S>, keep: S -> bool, m: nat, n: nat)
    requires m < n <= |s| && keep(s[m])
    ensures |KeptBefore(s, keep, m)| < |KeptBefore(s, keep, n)|
  {
    KeptOneMore(s, keep, n - 1);
    if m < n - 1 {
      KeptGrows(s, keep, m, n - 1);
    }
  }

  lemma SelectsNone<S, T>(keep: S -> bool, value: S -> T)
    ensures Selects([], keep, value, [])
  {
    assert KeptBefore([], keep, 0) == {};
  }

  /** One more element. */
  lemma SelectsMore<S, T>(s: seq<S>, keep: S -> bool, value: S -> T, values: seq<T>)
    requires s != [] && Selects(s[..|s| - 1], keep, value, values)
    ensures Selects(s, keep, value, values + if keep(s[|s| - 1]) then [value(s[|s| - 1])] else [])
  {
    var n := |s| - 1;
    var values' := values + if keep(s[n]) then [value(s[n])] else [];
    KeptOneMore(s, keep, n);
    KeptOfPrefix(s, keep, n, n);
    forall i: nat | i < |s| && keep(s[i])
      ensures IsAt(values', |KeptBefore(s, keep, i)|, value(s[i]))
    {
      if i < n {
        KeptOfPrefix(s, keep, n, i);
        assert keep(s[..n][i]);
        assert IsAt(values, |KeptBefore(s[..n], keep, i)|, value(s[i]));
      }
    }
  }

  /** All but the last element. */
  lemma SelectsLess<S, T>(s: seq<S>, keep: S -> bool, value: S -> T, values: seq<T>)
    requires s != [] && Selects(s, keep, value, values)
    ensures var n := |s| - 1;
            if keep(s[n]) then
              && values != [] && values[|values| - 1] == value(s[n])
              && Selects(s[..n], keep, value, values[..|values| - 1])
            else Selects(s[..n], keep, value, values)
  {
    var n := |s| - 1;
    KeptOneMore(s, keep, n);
    KeptOfPrefix(s, keep, n, n);
    var values' := if keep(s[n]) then values[..|values| - 1] else values;
    assert keep(s[n]) ==> IsAt(values, |KeptBefore(s, keep, n)|, value(s[n]));
    forall i: nat | i < n && keep(s[..n][i])
      ensures IsAt(values', |KeptBefore(s[..n], keep, i)|, value(s[..n][i]))
    {
      KeptOfPrefix(s, keep, n, i);
      KeptGrows(s, keep, i, n);
      assert IsAt(values, |KeptBefore(s, keep, i)|, value(s[i]));
    }
  }

  /** There is one selection. */
  lemma {:induction false} SelectionUnique<S, T>(s: seq<S>, keep: S -> bool, value: S -> T, values: seq<T>,
                                                 values': seq<T>)
    requires Selects(s, keep, value, values) && Selects(s, keep, value, values')
    ensures values == values'
    decreases |s|
  {
    if s == [] {
      assert KeptBefore(s, keep, 0) == {};
    } else {
      var n := |s| - 1;
      SelectsLess(s, keep, value, values);
      SelectsLess(s, keep, value, values');
      if keep(s[n]) {
        SelectionUnique(s[..n], keep, value, values[..|values| - 1], values'[..|values'| - 1]);
        assert values == values[..|values| - 1] + [value(s[n])];
        assert values' == values'[..|values'| - 1] + [value(s[n])];
      } else {
        SelectionUnique(s[..n], keep, value, values, values');
      }
    }
  }

  // ----- Counting.

  /** Where the kept elements with one value are. */
  function Places<S, T(==)>(s: seq<S>, keep: S -> bool, value: S -> T, v: T): set<nat> {
    set i: nat | i < |s| && keep(s[i]) && value(s[i]) == v
  }

  lemma PlacesMore<S, T>(s: seq<S>, keep: S -> bool, value: S -> T, v: T)
    requires s != []
    ensures var n := |s| - 1;
            |Places(s, keep, value, v)| ==
            |Places(s[..n], keep, value, v)| + if keep(s[n]) && value(s[n]) == v then 1 else 0
  {
    var n := |s| - 1;
    var before := Places(s[..n], keep, value, v);
    assert Places(s, keep, value, v) == before + if keep(s[n]) && value(s[n]) == v then {n} else {};
  }

  /** Each value is selected as often as a kept element has it. */
  lemma {:induction false} SelectionCounts<S, T>(s: seq<S>, keep: S -> bool, value: S -> T, values: seq<T>, v: T)
    requires Selects(s, keep, value, values)
    ensures multiset(values)[v] == |Places(s, keep, value, v)|
    decreases |s|
  {
    if s == [] {
      assert KeptBefore(s, keep, 0) == {} && Places(s, keep, value, v) == {};
    } else {
      var (n, m) := (|s| - 1, |values| - 1);
      SelectsLess(s, keep, value, values);
      PlacesMore(s, keep, value, v);
      if keep(s[n]) {
        assert values == values[..m] + [values[m]];
        SelectionCounts(s[..n], keep, value, values[..m], v);
      } else {
        SelectionCounts(s[..n], keep, value, values, v);
      }
    }
  }
}
