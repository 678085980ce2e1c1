/** Order-preserving list operations the source writes with `Array.prototype`. */
module Seqs {
  import opened Wrappers

  /** `s.map(f)`: `f` applied to each element, in order. */
  function Map<T, U>(s: seq<T>, f: T -> U): (r: seq<U>)
    ensures |r| == |s| && forall i :: 0 <= i < |s| ==> r[i] == f(s[i])
  {
    seq(|s|, i requires 0 <= i < |s| => f(s[i]))
  }

  /** Mapping a concatenation concatenates the mapped pieces. */
  lemma MapConcat<T, U>(a: seq<T>, b: seq<T>, f: T -> U)
    ensures Map(a + b, f) == Map(a, f) + Map(b, f)
  {
    assert forall i :: 0 <= i < |a| + |b| ==> Map(a + b, f)[i] == (Map(a, f) + Map(b, f))[i];
  }

  /** `s.filter(p)`: the elements satisfying `p`, in their original order. */
  function Filter<T>(s: seq<T>, p: T -> bool): (r: seq<T>)
    ensures |r| <= |s|
    ensures forall i :: 0 <= i < |r| ==> r[i] in s && p(r[i])
    ensures forall i :: 0 <= i < |s| && p(s[i]) ==> s[i] in r
  {
    if s == [] then []
    else if p(s[0]) then [s[0]] + Filter(s[1..], p)
    else Filter(s[1..], p)
  }

  /** Filtering a concatenation filters each part: the relative order of the kept elements is that of `s`. */
  lemma {:induction false} FilterConcat<T>(a: seq<T>, b: seq<T>, p: T -> bool)
    ensures Filter(a + b, p) == Filter(a, p) + Filter(b, p)
  {
    if a == [] {
      assert a + b == b;
    } else {
      assert (a + b)[0] == a[0];
      assert (a + b)[1..] == a[1..] + b;
      FilterConcat(a[1..], b, p);
    }
  }

  /**
   * `pos` lists, in increasing order, exactly the positions of `s` whose element passes `p`.
   */
  ghost predicate Positions<T>(pos: seq<int>, s: seq<T>, p: T -> bool)
  {
    && (forall k :: 0 <= k < |pos| ==> 0 <= pos[k] < |s| && p(s[pos[k]]))
    && (forall k, m :: 0 <= k < m < |pos| ==> pos[k] < pos[m])
    && (forall i :: 0 <= i < |s| && p(s[i]) ==> i in pos)
  }

  /**
   * `r` is `f` of the elements of `s` that pass `p`, in their order in `s` and each as often as it occurs there:
   * the `k`-th entry of `r` comes from the `k`-th passing position of `s`.
   */
  ghost predicate SelectsInOrder<T, U>(r: seq<U>, s: seq<T>, p: T -> bool, f: T -> U)
  {
    exists pos :: Positions(pos, s, p) && |pos| == |r| && forall k :: 0 <= k < |pos| ==> r[k] == f(s[pos[k]])
  }

  /** `r` is the order-preserving sub-sequence of `s` made of the elements that pass `p`. */
  ghost predicate KeepsInOrder<T>(r: seq<T>, s: seq<T>, p: T -> bool)
  {
    exists pos :: Positions(pos, s, p) && |pos| == |r| && forall k :: 0 <= k < |pos| ==> r[k] == s[pos[k]]
  }

  /** Each position moved one place to the right. */
  function Shift(pos: seq<int>): (r: seq<int>)
    ensures |r| == |pos| && forall k :: 0 <= k < |pos| ==> r[k] == pos[k] + 1
  {
    seq(|pos|, k requires 0 <= k < |pos| => pos[k] + 1)
  }

  /** Position 0, then each position moved one place to the right. */
  function ShiftCons(pos: seq<int>): (r: seq<int>)
    ensures |r| == |pos| + 1 && r[0] == 0 && forall k :: 1 <= k < |r| ==> r[k] == pos[k - 1] + 1
  {
    seq(|pos| + 1, k requires 0 <= k <= |pos| => if k == 0 then 0 else pos[k - 1] + 1)
  }

  /** The passing positions of `s[1..]`, moved right, are all those of `s` when its first element fails `p`. */
  lemma ShiftSkip<T>(s: seq<T>, p: T -> bool, pos: seq<int>)
    requires s != [] && Positions(pos, s[1..], p) && !p(s[0])
    ensures Positions(Shift(pos), s, p)
  {
    var moved := Shift(pos);
    forall k | 0 <= k < |moved| ensures 0 <= moved[k] < |s| && p(s[moved[k]]) {
      assert s[1..][pos[k]] == s[moved[k]];
    }
    forall i | 0 <= i < |s| && p(s[i]) ensures i in moved {
      if i > 0 {
        assert s[1..][i - 1] == s[i];
        var k :| 0 <= k < |pos| && pos[k] == i - 1;
        assert moved[k] == i;
      }
    }
  }

  /** When the first element passes, position 0 followed by the moved positions of `s[1..]` are those of `s`. */
  lemma ShiftKeep<T>(s: seq<T>, p: T -> bool, pos: seq<int>)
    requires s != [] && Positions(pos, s[1..], p) && p(s[0])
    ensures Positions(ShiftCons(pos), s, p)
  {
    var all := ShiftCons(pos);
    forall k | 0 <= k < |all| ensures 0 <= all[k] < |s| && p(s[all[k]]) {
      if k > 0 { assert s[1..][pos[k - 1]] == s[all[k]]; }
    }
    forall k, m | 0 <= k < m < |all| ensures all[k] < all[m] {
      if k > 0 { assert pos[k - 1] < pos[m - 1]; }
    }
    forall i | 0 <= i < |s| && p(s[i]) ensures i in all {
      if i > 0 {
        assert s[1..][i - 1] == s[i];
        var k :| 0 <= k < |pos| && pos[k] == i - 1;
        assert all[k + 1] == i;
      }
    }
  }

  /** Adding the first element of `s` in front of an in-order selection from `s[1..]`, when it passes, selects from `s`. */
  lemma ConsInOrder<T>(s: seq<T>, p: T -> bool, rest: seq<T>, pos: seq<int>)
    requires s != [] && Positions(pos, s[1..], p) && |pos| == |rest|
    requires forall k :: 0 <= k < |pos| ==> rest[k] == s[1..][pos[k]]
    ensures KeepsInOrder(if p(s[0]) then [s[0]] + rest else rest, s, p)
  {
    if p(s[0]) {
      ShiftKeep(s, p, pos);
      var all := ShiftCons(pos);
      var r := [s[0]] + rest;
      forall k | 0 <= k < |all| ensures r[k] == s[all[k]] {
        if k > 0 { assert s[1..][pos[k - 1]] == s[all[k]]; }
      }
      assert Positions(all, s, p) && |all| == |r|;
    } else {
      ShiftSkip(s, p, pos);
      var all := Shift(pos);
      forall k | 0 <= k < |all| ensures rest[k] == s[all[k]] {
        assert s[1..][pos[k]] == s[all[k]];
      }
      assert Positions(all, s, p) && |all| == |rest|;
    }
  }

  /** `Filter` keeps the passing elements in order, each as often as it occurs. */
  lemma {:induction false} FilterInOrder<T>(s: seq<T>, p: T -> bool)
    ensures KeepsInOrder(Filter(s, p), s, p)
  {
    if s == [] {
      assert Positions([], s, p);
    } else {
      FilterInOrder(s[1..], p);
      var rest := Filter(s[1..], p);
      var pos :| Positions(pos, s[1..], p) && |pos| == |rest| && forall k :: 0 <= k < |pos| ==> rest[k] == s[1..][pos[k]];
      ConsInOrder(s, p, rest, pos);
    }
  }

  /** An in-order selection depends only on what the test answers. */
  lemma KeepsInOrderSameTest<T>(r: seq<T>, s: seq<T>, p: T -> bool, q: T -> bool)
    requires KeepsInOrder(r, s, p)
    requires forall x :: p(x) == q(x)
    ensures KeepsInOrder(r, s, q)
  {
    var pos :| Positions(pos, s, p) && |pos| == |r| && forall k :: 0 <= k < |pos| ==> r[k] == s[pos[k]];
    forall k | 0 <= k < |pos| ensures 0 <= pos[k] < |s| && q(s[pos[k]]) {
      assert p(s[pos[k]]);
    }
    forall i | 0 <= i < |s| && q(s[i]) ensures i in pos {
      assert p(s[i]);
    }
    assert Positions(pos, s, q);
  }

  /** Two strictly increasing lists of the same numbers are the same list. */
  lemma {:induction false} IncreasingSame(a: seq<int>, b: seq<int>)
    requires forall k, m :: 0 <= k < m < |a| ==> a[k] < a[m]
    requires forall k, m :: 0 <= k < m < |b| ==> b[k] < b[m]
    requires forall x :: x in a <==> x in b
    ensures a == b
  {
    if a == [] {
    } else {
      assert a[0] in a;
      var j :| 0 <= j < |b| && b[j] == a[0];
      assert b[0] in b;
      var i :| 0 <= i < |a| && a[i] == b[0];
      assert a[0] <= a[i] && b[0] <= b[j];
      forall x ensures x in a[1..] <==> x in b[1..] {
        if x in a[1..] { var i :| 1 <= i < |a| && a[i] == x; assert x != a[0] && x in b; }
        if x in b[1..] { var j :| 1 <= j < |b| && b[j] == x; assert x != b[0] && x in a; }
      }
      IncreasingSame(a[1..], b[1..]);
      assert a == [a[0]] + a[1..] && b == [b[0]] + b[1..];
    }
  }

  /** The passing positions of `s` are determined by `s` and `p`. */
  lemma PositionsUnique<T>(pos1: seq<int>, pos2: seq<int>, s: seq<T>, p: T -> bool)
    requires Positions(pos1, s, p) && Positions(pos2, s, p)
    ensures pos1 == pos2
  {
    forall x ensures x in pos1 <==> x in pos2 {
      if x in pos1 { var k :| 0 <= k < |pos1| && pos1[k] == x; }
      if x in pos2 { var k :| 0 <= k < |pos2| && pos2[k] == x; }
    }
    IncreasingSame(pos1, pos2);
  }

  /** Two lists that follow the same positions of `s` through `f` are equal. */
  lemma SameFollowers<T, U>(r1: seq<U>, r2: seq<U>, s: seq<T>, f: T -> U, pos: seq<int>)
    requires forall k :: 0 <= k < |pos| ==> 0 <= pos[k] < |s|
    requires |pos| == |r1| == |r2|
    requires forall k :: 0 <= k < |pos| ==> r1[k] == f(s[pos[k]])
    requires forall k :: 0 <= k < |pos| ==> r2[k] == f(s[pos[k]])
    ensures r1 == r2
  {
  }

  /** An in-order selection is unique: at most one list takes the passing elements of `s`, in order, through `f`. */
  lemma SelectsInOrderUnique<T, U>(r1: seq<U>, r2: seq<U>, s: seq<T>, p: T -> bool, f: T -> U)
    requires SelectsInOrder(r1, s, p, f) && SelectsInOrder(r2, s, p, f)
    ensures r1 == r2
  {
    var pos1 :| Positions(pos1, s, p) && |pos1| == |r1| && forall k :: 0 <= k < |pos1| ==> r1[k] == f(s[pos1[k]]);
    var pos2 :| Positions(pos2, s, p) && |pos2| == |r2| && forall k :: 0 <= k < |pos2| ==> r2[k] == f(s[pos2[k]]);
    PositionsUnique(pos1, pos2, s, p);
    SameFollowers(r1, r2, s, f, pos1);
  }

  /** The same for a selection without relabelling. */
  lemma KeepsInOrderUnique<T>(r1: seq<T>, r2: seq<T>, s: seq<T>, p: T -> bool)
    requires KeepsInOrder(r1, s, p) && KeepsInOrder(r2, s, p)
    ensures r1 == r2
  {
    var pos1 :| Positions(pos1, s, p) && |pos1| == |r1| && forall k :: 0 <= k < |pos1| ==> r1[k] == s[pos1[k]];
    var pos2 :| Positions(pos2, s, p) && |pos2| == |r2| && forall k :: 0 <= k < |pos2| ==> r2[k] == s[pos2[k]];
    PositionsUnique(pos1, pos2, s, p);
    SameFollowers(r1, r2, s, x => x, pos1);
  }

  /** `f` mapped over `Filter` takes the passing elements in order. */
  lemma MapFilterInOrder<T, U>(s: seq<T>, p: T -> bool, f: T -> U, r: seq<U>)
    requires |r| == |Filter(s, p)| && forall k :: 0 <= k < |r| ==> r[k] == f(Filter(s, p)[k])
    ensures SelectsInOrder(r, s, p, f)
  {
    FilterInOrder(s, p);
    var pos :| Positions(pos, s, p) && |pos| == |Filter(s, p)| && forall k :: 0 <= k < |pos| ==> Filter(s, p)[k] == s[pos[k]];
    assert forall k :: 0 <= k < |pos| ==> r[k] == f(s[pos[k]]);
  }

  /** `f` mapped over `Filter` has the image of every passing element, and only those. */
  lemma MapFilterMembers<T, U>(s: seq<T>, p: T -> bool, f: T -> U, r: seq<U>)
    requires |r| == |Filter(s, p)| && forall k :: 0 <= k < |r| ==> r[k] == f(Filter(s, p)[k])
    ensures forall x :: x in s && p(x) ==> f(x) in r
    ensures forall y :: y in r ==> exists x :: x in s && p(x) && y == f(x)
  {
    var kept := Filter(s, p);
    forall x | x in s && p(x) ensures f(x) in r {
      var i :| 0 <= i < |s| && s[i] == x;
      assert p(s[i]);
      var m :| 0 <= m < |kept| && kept[m] == x;
      assert r[m] == f(x);
    }
    forall y | y in r ensures exists x :: x in s && p(x) && y == f(x) {
      var k :| 0 <= k < |r| && r[k] == y;
      assert kept[k] in s && p(kept[k]);
    }
  }

  /** Nothing is dropped when every element passes. */
  lemma {:induction false} FilterAll<T>(s: seq<T>, p: T -> bool)
    requires forall i :: 0 <= i < |s| ==> p(s[i])
    ensures Filter(s, p) == s
  {
    if s != [] {
      FilterAll(s[1..], p);
    }
  }

  /** The result keeps all of `s` exactly when every element passes. */
  lemma {:induction false} FilterSameLength<T>(s: seq<T>, p: T -> bool)
    ensures |Filter(s, p)| == |s| <==> forall i :: 0 <= i < |s| ==> p(s[i])
  {
    if s != [] {
      FilterSameLength(s[1..], p);
      if !p(s[0]) {
        assert |Filter(s, p)| < |s|;
      } else if |Filter(s, p)| == |s| {
        forall i | 0 <= i < |s| ensures p(s[i]) {
          if i > 0 { assert s[i] == s[1..][i - 1]; }
        }
      }
    }
  }

  /** Filtering twice with the same test is filtering once. */
  lemma FilterIdempotent<T>(s: seq<T>, p: T -> bool)
    ensures Filter(Filter(s, p), p) == Filter(s, p)
  {
    FilterAll(Filter(s, p), p);
  }

  /** `s.find(p)`: the first element satisfying `p`, or nothing. */
  function Find<T>(s: seq<T>, p: T -> bool): (r: Option<T>)
    ensures r.None? <==> forall i :: 0 <= i < |s| ==> !p(s[i])
    ensures r.Some? ==> exists k :: 0 <= k < |s| && s[k] == r.value && p(s[k]) &&
                                    forall j :: 0 <= j < k ==> !p(s[j])
  {
    if s == [] then None
    else if p(s[0]) then Some(s[0])
    else
      var r := Find(s[1..], p);
      assert r.Some? ==> exists k :: 1 <= k < |s| && s[k] == r.value && p(s[k]) &&
                                     forall j :: 0 <= j < k ==> !p(s[j]) by {
        if r.Some? {
          var k :| 0 <= k < |s[1..]| && s[1..][k] == r.value && p(s[1..][k]) &&
                   forall j :: 0 <= j < k ==> !p(s[1..][j]);
          assert s[k + 1] == r.value;
          forall j | 0 <= j < k + 1 ensures !p(s[j]) {
            if j > 0 { assert s[j] == s[1..][j - 1]; }
          }
        }
      }
      r
  }

  /** `s.some(p)`. */
  predicate Exists<T>(s: seq<T>, p: T -> bool)
  {
    exists i :: 0 <= i < |s| && p(s[i])
  }

  /** `list.filter(notEmpty)`: the present entries, in order. */
  function Present<T>(s: seq<Option<T>>): (r: seq<T>)
    ensures |r| <= |s|
  {
    if s == [] then [] else
    match s[0]
    case Some(x) => [x] + Present(s[1..])
    case None => Present(s[1..])
  }

  /** Every kept value was present in the input, and every present value is kept. */
  lemma {:induction false} PresentMembers<T>(s: seq<Option<T>>)
    ensures forall i :: 0 <= i < |Present(s)| ==> Some(Present(s)[i]) in s
    ensures forall i :: 0 <= i < |s| && s[i].Some? ==> s[i].value in Present(s)
  {
    if s != [] {
      PresentMembers(s[1..]);
      assert forall i :: 1 <= i < |s| ==> s[i] == s[1..][i - 1];
    }
  }

  /** Dropping the absent entries distributes over concatenation. */
  lemma {:induction false} PresentConcat<T>(a: seq<Option<T>>, b: seq<Option<T>>)
    ensures Present(a + b) == Present(a) + Present(b)
  {
    if a == [] {
      assert a + b == b;
    } else {
      assert (a + b)[1..] == a[1..] + b;
      PresentConcat(a[1..], b);
    }
  }

  /** When every entry is present, nothing is dropped. */
  lemma {:induction false} PresentAllSome<T>(s: seq<Option<T>>)
    requires forall i :: 0 <= i < |s| ==> s[i].Some?
    ensures Present(s) == seq(|s|, i requires 0 <= i < |s| => s[i].value)
  {
    if s != [] {
      PresentAllSome(s[1..]);
    }
  }

  /** A single entry is kept exactly when it is present. */
  lemma PresentSingle<T>(x: Option<T>)
    ensures Present([x]) == if x.Some? then [x.value] else []
  {
    assert [x][1..] == [];
  }
}
