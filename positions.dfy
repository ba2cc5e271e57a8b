/**
 * Positional identity. Entries and cities are identified by their index in a
 * stored list. Deleting runs `unset($list[$i])` for each selected index and
 * then `array_values($list)`, which renumbers the survivors from zero; every
 * entry after a deleted one moves down.
 */
module Positions {

  /** The elements of `s` whose positions are not in `drop`, in their original order. */
  function Without<T>(s: seq<T>, drop: set<int>): (r: seq<T>)
    ensures |r| <= |s|
  {
    if s == [] then []
    else Without(s[..|s| - 1], drop) + (if |s| - 1 in drop then [] else [s[|s| - 1]])
  }

  /** How many of the positions 0 .. i-1 survive the deletion of `drop`. */
  function Kept(i: int, drop: set<int>): (k: nat)
    ensures i <= 0 ==> k == 0
    ensures i > 0 ==> k <= i
  {
    if i <= 0 then 0 else Kept(i - 1, drop) + (if i - 1 in drop then 0 else 1)
  }

  /** The list shrinks by exactly the number of in-range positions dropped. */
  lemma {:induction false} WithoutLength<T>(s: seq<T>, drop: set<int>)
    ensures |Without(s, drop)| == Kept(|s|, drop)
  {
    if s != [] {
      WithoutLength(s[..|s| - 1], drop);
    }
  }

  /** Survivors renumber: the element at old position i (not dropped) is at position Kept(i). */
  lemma {:induction false} WithoutAt<T>(s: seq<T>, drop: set<int>, i: int)
    requires 0 <= i < |s| && i !in drop
    ensures Kept(i, drop) < |Without(s, drop)|
    ensures Without(s, drop)[Kept(i, drop)] == s[i]
  {
    var n := |s| - 1;
    var front := s[..n];
    WithoutLength(front, drop);
    if i < n {
      WithoutAt(front, drop, i);
    }
  }

  /** Every survivor comes from a position that was not dropped, at the place Kept says. */
  lemma {:induction false} WithoutFrom<T>(s: seq<T>, drop: set<int>, k: int)
    requires 0 <= k < |Without(s, drop)|
    ensures exists i :: 0 <= i < |s| && i !in drop && Kept(i, drop) == k && Without(s, drop)[k] == s[i]
  {
    var n := |s| - 1;
    var front := s[..n];
    WithoutLength(front, drop);
    if k < |Without(front, drop)| {
      WithoutFrom(front, drop, k);
      var i :| 0 <= i < |front| && i !in drop && Kept(i, drop) == k && Without(front, drop)[k] == front[i];
      assert Without(s, drop)[k] == s[i];
    } else {
      assert Without(s, drop)[k] == s[n];
    }
  }

  /** Survivors keep their relative order. */
  lemma {:induction false} KeptMonotonic(i: int, j: int, drop: set<int>)
    requires i <= j
    ensures Kept(i, drop) <= Kept(j, drop)
    ensures i < j && i !in drop && 0 <= i ==> Kept(i, drop) < Kept(j, drop)
    decreases j - i
  {
    if i < j {
      KeptMonotonic(i, j - 1, drop);
    }
  }

  /** Only in-range positions matter: ids outside 0 .. |s|-1 are ignored. */
  lemma {:induction false} WithoutInRange<T>(s: seq<T>, a: set<int>, b: set<int>)
    requires forall i :: 0 <= i < |s| ==> (i in a <==> i in b)
    ensures Without(s, a) == Without(s, b)
  {
    if s != [] {
      WithoutInRange(s[..|s| - 1], a, b);
    }
  }

  /** Dropping nothing in range leaves the list as it was. */
  lemma {:induction false} WithoutNothing<T>(s: seq<T>, drop: set<int>)
    requires forall i :: 0 <= i < |s| ==> i !in drop
    ensures Without(s, drop) == s
  {
    if s != [] {
      WithoutNothing(s[..|s| - 1], drop);
      assert s[..|s| - 1] + [s[|s| - 1]] == s;
    }
  }

  /** Dropping a single in-range position is removing that one element. */
  lemma {:induction false} WithoutOne<T>(s: seq<T>, i: int)
    requires 0 <= i < |s|
    ensures Without(s, {i}) == s[..i] + s[i + 1..]
  {
    var n := |s| - 1;
    if i == n {
      WithoutNothing(s[..n], {i});
    } else {
      WithoutOne(s[..n], i);
      assert s[..n][..i] == s[..i];
      assert s[..n][i + 1..] + [s[n]] == s[i + 1..];
    }
  }

  /** Deleting position 2 of five moves the entries at 3 and 4 to 2 and 3. */
  lemma DeleteRenumbers<T>(s: seq<T>)
    requires |s| == 5
    ensures Without(s, {2}) == [s[0], s[1], s[3], s[4]]
  {
    WithoutOne(s, 2);
  }
}
