/**
 * Enumerating the ids of a table in ascending order.
 *
 * The store returns `findAll` rows in ascending primary-key order; the model
 * reproduces that order by repeatedly taking the least id of the remaining set.
 */
module Ids {

  /** Every element is smaller than every later one (so, in particular, no repeats). */
  predicate StrictlyIncreasing(s: seq<nat>) {
    forall i, j :: 0 <= i < j < |s| ==> s[i] < s[j]
  }

  /** Putting an id smaller than all of an ascending sequence in front keeps it ascending. */
  lemma ConsIncreasing(k: nat, rest: seq<nat>)
    requires StrictlyIncreasing(rest)
    requires forall x :: x in rest ==> k < x
    ensures StrictlyIncreasing([k] + rest)
  {
    var s := [k] + rest;
    forall i, j | 0 <= i < j < |s|
      ensures s[i] < s[j]
    {
      assert s[j] == rest[j - 1] && rest[j - 1] in rest;
      if i > 0 {
        assert s[i] == rest[i - 1];
      }
    }
  }

  /** In an ascending sequence the head is below every later element, and the tail is ascending. */
  lemma HeadBelowTail(s: seq<nat>)
    requires StrictlyIncreasing(s)
    requires s != []
    ensures forall x :: x in s[1..] ==> s[0] < x
    ensures StrictlyIncreasing(s[1..])
  {
    forall x | x in s[1..]
      ensures s[0] < x
    {
      var i :| 0 <= i < |s[1..]| && s[1..][i] == x;
      assert s[i + 1] == x;
    }
  }

  /** `k` is the least element of `s`. */
  predicate IsLeast(k: nat, s: set<nat>) {
    k in s && forall y :: y in s ==> k <= y
  }

  /** Every non-empty set of naturals has a least element. */
  lemma {:induction false} LeastExists(s: set<nat>)
    requires s != {}
    ensures exists k :: IsLeast(k, s)
  {
    var x :| x in s;
    var rest := s - {x};
    if rest == {} {
      forall y | y in s
        ensures x <= y
      {
        assert y !in rest;
      }
      assert IsLeast(x, s);
    } else {
      LeastExists(rest);
      var k :| IsLeast(k, rest);
      var m := if x < k then x else k;
      forall y | y in s
        ensures m <= y
      {
        if y != x {
          assert y in rest;
        }
      }
      assert IsLeast(m, s);
    }
  }

  /** The least id of a non-empty set (unique, hence computable). */
  function Least(s: set<nat>): (k: nat)
    requires s != {}
    ensures k in s
    ensures forall y :: y in s ==> k <= y
  {
    LeastExists(s);
    var k :| IsLeast(k, s);
    k
  }

  /** The ids of `s`, each exactly once, in ascending order. */
  function SortedIds(s: set<nat>): (r: seq<nat>)
    ensures StrictlyIncreasing(r)
    ensures forall x :: x in r <==> x in s
    ensures |r| == |s|
    decreases s
  {
    if s == {} then []
    else
      var k := Least(s);
      var rest := SortedIds(s - {k});
      ConsIncreasing(k, rest);
      [k] + rest
  }

  /** The ids of `ids` that satisfy `keep`, in their original order (the WHERE clause of a scan). */
  function Filter(ids: seq<nat>, keep: nat -> bool): (r: seq<nat>)
    ensures forall x :: x in r <==> x in ids && keep(x)
    ensures |r| <= |ids|
  {
    if ids == [] then []
    else
      var rest := Filter(ids[1..], keep);
      if keep(ids[0]) then [ids[0]] + rest else rest
  }

  /** Filtering an ascending sequence keeps it ascending. */
  lemma {:induction false} FilterIncreasing(ids: seq<nat>, keep: nat -> bool)
    requires StrictlyIncreasing(ids)
    ensures StrictlyIncreasing(Filter(ids, keep))
  {
    if ids != [] {
      HeadBelowTail(ids);
      FilterIncreasing(ids[1..], keep);
      if keep(ids[0]) {
        ConsIncreasing(ids[0], Filter(ids[1..], keep));
      }
    }
  }
}
