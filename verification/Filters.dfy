/** What it means to keep some elements of a list: exactly those, in their order. */
module Filters {

  ghost predicate Rising(at: seq<nat>, n: nat) {
    (forall i, j :: 0 <= i < j < |at| ==> at[i] < at[j]) && forall i :: 0 <= i < |at| ==> at[i] < n
  }

  /** `to` holds the elements of `from` that are kept, in order; `at` says where each was. */
  ghost predicate IsFilter<T(!new)>(from: seq<T>, to: seq<T>, keep: T -> bool, at: seq<nat>) {
    |at| == |to| && Rising(at, |from|) && (forall i :: 0 <= i < |to| ==> to[i] == from[at[i]] && keep(to[i])) &&
    forall k :: 0 <= k < |from| && keep(from[k]) ==> k in at
  }

  lemma FilterNone<T(!new)>(keep: T -> bool)
    ensures IsFilter([], [], keep, [])
  {
  }

  lemma FilterLast<T(!new)>(from: seq<T>, to: seq<T>, keep: T -> bool, at: seq<nat>, x: T)
    requires IsFilter(from, to, keep, at)
    ensures IsFilter(from + [x], if keep(x) then to + [x] else to, keep, if keep(x) then at + [|from|] else at)
  {
    var more, at2 := from + [x], if keep(x) then at + [|from|] else at;
    forall k | 0 <= k < |more| && keep(more[k]) ensures k in at2 {
      if k < |from| {
        assert more[k] == from[k] && k in at;
        var i :| 0 <= i < |at| && at[i] == k;
        assert at2[i] == k;
      } else {
        assert at2[|at|] == k;
      }
    }
  }

  lemma FilterFirst<T(!new)>(from: seq<T>, to: seq<T>, keep: T -> bool, at: seq<nat>, x: T) returns (at2: seq<nat>)
    requires IsFilter(from, to, keep, at)
    ensures IsFilter([x] + from, if keep(x) then [x] + to else to, keep, at2)
  {
    at2 := Raised(at, |from|);
    FilterMoved(from, to, keep, at, x, at2);
    if keep(x) {
      FilterKept(from, to, keep, at2, x);
      at2 := [0] + at2;
    }
  }

  /** But for the first element. */
  ghost predicate IsFilterBehind<T(!new)>(from: seq<T>, to: seq<T>, keep: T -> bool, at: seq<nat>) {
    |at| == |to| && Rising(at, |from|) && (forall i :: 0 <= i < |to| ==> at[i] > 0 && to[i] == from[at[i]] && keep(to[i])) &&
    forall k :: 1 <= k < |from| && keep(from[k]) ==> k in at
  }

  lemma FilterMoved<T(!new)>(from: seq<T>, to: seq<T>, keep: T -> bool, at: seq<nat>, x: T, up: seq<nat>)
    requires IsFilter(from, to, keep, at)
    requires |up| == |at| && Rising(up, |from| + 1) && forall i :: 0 <= i < |at| ==> up[i] == at[i] + 1
    ensures IsFilterBehind([x] + from, to, keep, up)
  {
    MovedAre(from, to, keep, at, x, up);
    MovedAll(from, to, keep, at, x, up);
    hide Rising, IsFilter;
  }

  lemma MovedAre<T(!new)>(from: seq<T>, to: seq<T>, keep: T -> bool, at: seq<nat>, x: T, up: seq<nat>)
    requires IsFilter(from, to, keep, at)
    requires |up| == |at| && forall i :: 0 <= i < |at| ==> up[i] == at[i] + 1
    ensures forall i :: 0 <= i < |to| ==> 0 < up[i] <= |from| && to[i] == ([x] + from)[up[i]] && keep(to[i])
  {
    forall i | 0 <= i < |to| ensures 0 < up[i] <= |from| && to[i] == ([x] + from)[up[i]] && keep(to[i]) {
      assert at[i] < |from| && to[i] == from[at[i]] && ([x] + from)[at[i] + 1] == from[at[i]];
    }
  }

  lemma MovedAll<T(!new)>(from: seq<T>, to: seq<T>, keep: T -> bool, at: seq<nat>, x: T, up: seq<nat>)
    requires IsFilter(from, to, keep, at)
    requires |up| == |at| && forall i :: 0 <= i < |at| ==> up[i] == at[i] + 1
    ensures forall k :: 1 <= k < |[x] + from| && keep(([x] + from)[k]) ==> k in up
  {
    hide Rising;
    var more := [x] + from;
    forall k | 1 <= k < |more| && keep(more[k]) ensures k in up {
      assert more[k] == from[k - 1] && k - 1 in at;
      var i :| 0 <= i < |at| && at[i] == k - 1;
      assert up[i] == k;
    }
  }

  lemma FilterKept<T(!new)>(from: seq<T>, to: seq<T>, keep: T -> bool, up: seq<nat>, x: T)
    requires IsFilterBehind([x] + from, to, keep, up) && keep(x)
    ensures IsFilter([x] + from, [x] + to, keep, [0] + up)
  {
    var more, at, all := [x] + from, [0] + up, [x] + to;
    forall i | 0 <= i < |all| ensures all[i] == more[at[i]] && keep(all[i]) {
      if i > 0 { assert all[i] == to[i - 1] && at[i] == up[i - 1]; }
    }
    ZeroRises(up, |from| + 1);
    hide Rising;
    forall k | 0 <= k < |more| && keep(more[k]) ensures k in at {
      if k > 0 { assert k in up; }
    }
  }

  lemma ZeroRises(up: seq<nat>, n: nat)
    requires Rising(up, n) && n > 0 && forall i :: 0 <= i < |up| ==> up[i] > 0
    ensures Rising([0] + up, n)
  {
    var at := [0] + up;
    assert forall i :: 1 <= i < |at| ==> at[i] == up[i - 1];
  }

  lemma Raised(at: seq<nat>, n: nat) returns (up: seq<nat>)
    requires Rising(at, n)
    ensures |up| == |at| && Rising(up, n + 1) && forall i :: 0 <= i < |at| ==> up[i] == at[i] + 1
  {
    up := seq(|at|, i requires 0 <= i < |at| => at[i] + 1);
  }

  /** Two tests that agree on the elements keep the same. */
  lemma FilterAlike<T(!new)>(from: seq<T>, to: seq<T>, keep: T -> bool, other: T -> bool, at: seq<nat>)
    requires IsFilter(from, to, keep, at) && forall x :: x in from ==> keep(x) == other(x)
    ensures IsFilter(from, to, other, at)
  {
  }
}
