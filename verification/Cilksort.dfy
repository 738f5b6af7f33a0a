/** Parallel merge sort between two arrays, in place.  A forked call is run when it is
    joined here; CilkForks shows that every other schedule comes to the same. */
module Cilksort {
  predicate InOrder(s: seq<real>, i: int, j: int) { 0 <= i < |s| && 0 <= j < |s| && s[i] <= s[j] }

  ghost predicate Sorted(s: seq<real>) {
    forall i, j {:trigger InOrder(s, i, j)} :: 0 <= i < j < |s| ==> InOrder(s, i, j)
  }

  ghost predicate AtMost(s: seq<real>, k: real) { forall x :: x in s ==> x <= k }

  ghost predicate AtLeast(s: seq<real>, k: real) { forall x :: x in s ==> k <= x }

  /** out is the sorted sequence of the items of in1 and in2. */
  ghost predicate IsMerge(out: seq<real>, in1: seq<real>, in2: seq<real>) {
    Sorted(out) && multiset(out) == multiset(in1) + multiset(in2)
  }

  lemma SortedConcat(s: seq<real>, t: seq<real>, k: real)
    requires Sorted(s) && Sorted(t) && AtMost(s, k) && AtLeast(t, k)
    ensures Sorted(s + t)
  {
    var u := s + t;
    forall i, j | 0 <= i < j < |u| ensures InOrder(u, i, j) {
      if i < |s| <= j {
        assert u[i] in s && u[j] in t;
      } else if j < |s| {
        assert InOrder(s, i, j);
      } else {
        assert InOrder(t, i - |s|, j - |s|);
      }
    }
  }

  lemma SameBounds(out: seq<real>, in1: seq<real>, in2: seq<real>, k: real)
    requires multiset(out) == multiset(in1) + multiset(in2)
    ensures AtMost(in1, k) && AtMost(in2, k) ==> AtMost(out, k)
    ensures AtLeast(in1, k) && AtLeast(in2, k) ==> AtLeast(out, k)
  {
    forall x | x in out ensures x in in1 || x in in2 { assert x in multiset(out); }
  }

  lemma Slice(s: seq<real>, x: nat, y: nat, z: nat)
    requires x <= y <= z <= |s|
    ensures s[x..z] == s[x..y] + s[y..z]
    ensures multiset(s[x..z]) == multiset(s[x..y]) + multiset(s[y..z])
  {
    assert s[x..z] == s[x..y] + s[y..z];
  }

  lemma SubSorted(s: seq<real>, x: nat, y: nat, z: nat, w: nat)
    requires x <= y <= z <= w <= |s| && Sorted(s[x..w])
    ensures Sorted(s[y..z])
  {
    forall i, j | 0 <= i < j < z - y ensures InOrder(s[y..z], i, j) {
      assert InOrder(s[x..w], y - x + i, y - x + j);
    }
  }

  /** Halves of a sorted slice around its item at m. */
  lemma AroundItem(s: seq<real>, x: nat, m: nat, w: nat)
    requires x <= m < w <= |s| && Sorted(s[x..w])
    ensures AtMost(s[x..m + 1], s[m]) && AtLeast(s[m + 1..w], s[m])
    ensures Sorted(s[x..m + 1]) && Sorted(s[m + 1..w])
  {
    SubSorted(s, x, x, m + 1, w);
    SubSorted(s, x, m + 1, w, w);
    var low, high := s[x..m + 1], s[m + 1..w];
    forall v | v in low ensures v <= s[m] {
      var i :| 0 <= i < m + 1 - x && low[i] == v;
      if x + i < m { assert InOrder(s[x..w], i, m - x); }
    }
    forall v | v in high ensures s[m] <= v {
      var i :| 0 <= i < w - m - 1 && high[i] == v;
      assert InOrder(s[x..w], m - x, m + 1 - x + i);
    }
  }

  /** Everything outside d[j..j + n] is as it was. */
  ghost predicate Outside(s: seq<real>, s': seq<real>, j: nat, n: nat) {
    |s| == |s'| && j + n <= |s| && s'[..j] == s[..j] && s'[j + n..] == s[j + n..]
  }

  method Copy(a: array<real>, b: nat, e: int, d: array<real>, j: nat)
    requires a != d && b - 1 <= e < a.Length && j + (e - b + 1) <= d.Length
    modifies d
    ensures d[j..j + (e - b + 1)] == a[b..e + 1] && Outside(old(d[..]), d[..], j, e - b + 1)
  {
    var i := 0;
    while b + i <= e
      invariant 0 <= i <= e - b + 1
      invariant d[j..j + i] == a[b..b + i]
      invariant d[..j] == old(d[..j]) && d[j + i..] == old(d[j + i..])
    {
      ghost var before := d[..];
      d[j + i] := a[b + i];
      assert d[j..j + i + 1] == before[j..j + i] + [a[b + i]];
      assert a[b..b + i + 1] == a[b..b + i] + [a[b + i]];
      assert d[j + i + 1..] == before[j + i..][1..];
      assert old(d[j + i..])[1..] == old(d[j + i + 1..]);
      i := i + 1;
    }
  }

  ghost predicate UpperBound(s: seq<real>, b: nat, e: int, k: real, n: nat) {
    && b <= n <= e + 1 <= |s|
    && AtMost(s[b..n], k) && Exceeds(s[n..e + 1], k)
  }

  ghost predicate Exceeds(s: seq<real>, k: real) { forall x :: x in s ==> k < x }

  /** The upper bound of k: everything before it is at most k, everything from it on
      is greater. */
  method Search(a: array<real>, b0: nat, e0: int, k: real) returns (n: nat)
    requires Run(a[..], b0, e0)
    ensures UpperBound(a[..], b0, e0, k, n)
  {
    var b, e := b0, e0;
    ghost var s := a[..][b0..e0 + 1];
    forall i, j | b0 <= i < j <= e0 ensures a[i] <= a[j] { assert InOrder(s, i - b0, j - b0); }
    while b < e
      invariant b0 <= b <= e + 1 <= e0 + 1
      invariant forall i :: b0 <= i < b ==> a[i] <= k
      invariant forall i :: e < i <= e0 ==> k < a[i]
    {
      var m := (b + e) / 2;
      if k < a[m] { e := m; } else { b := m + 1; }
    }
    n := if e < b then e + 1 else if k < a[e] then e else e + 1;
    assert forall x :: x in a[..][b0..n] ==> x <= k;
  }

  /** Two merges side by side make one, if k lies between them. */
  lemma MergeConcat(out1: seq<real>, out2: seq<real>, a1: seq<real>, a2: seq<real>, b1: seq<real>, b2: seq<real>, k: real)
    requires IsMerge(out1, a1, b1) && IsMerge(out2, a2, b2)
    requires AtMost(a1, k) && AtMost(b1, k) && AtLeast(a2, k) && AtLeast(b2, k)
    ensures IsMerge(out1 + out2, a1 + a2, b1 + b2)
  {
    SameBounds(out1, a1, b1, k);
    SameBounds(out2, a2, b2, k);
    SortedConcat(out1, out2, k);
    assert multiset(out1 + out2) == multiset(out1) + multiset(out2);
  }

  lemma MergeSwap(out: seq<real>, in1: seq<real>, in2: seq<real>)
    requires IsMerge(out, in1, in2)
    ensures IsMerge(out, in2, in1)
  {
  }

  lemma MergeOne(s: seq<real>)
    requires Sorted(s)
    ensures IsMerge(s, s, []) && IsMerge(s, [], s)
  {
    assert s + [] == s;
  }

  /** Two writes next to each other. */
  lemma OutsideConcat(s: seq<real>, s1: seq<real>, s2: seq<real>, j: nat, n1: nat, n2: nat)
    requires Outside(s, s1, j, n1) && Outside(s1, s2, j + n1, n2)
    ensures Outside(s, s2, j, n1 + n2)
    ensures s2[j..j + n1] == s1[j..j + n1]
    ensures s2[j..j + n1 + n2] == s1[j..j + n1] + s2[j + n1..j + n1 + n2]
  {
    assert s2[..j] == s2[..j + n1][..j] == s1[..j + n1][..j];
    assert s2[j..j + n1] == s2[..j + n1][j..] == s1[..j + n1][j..];
    assert s2[j + n1 + n2..] == s1[j + n1 + n2..] == s1[j + n1..][n2..] == s[j + n1..][n2..];
  }

  /** A run of items that is not above the next one: both are copied in order. */
  lemma RunsInOrder(s: seq<real>, t: seq<real>)
    requires Sorted(s) && Sorted(t) && s != [] && t != [] && s[|s| - 1] <= t[0]
    ensures IsMerge(s + t, s, t)
  {
    forall x | x in s ensures x <= t[0] {
      var i :| 0 <= i < |s| && s[i] == x;
      if i < |s| - 1 { assert InOrder(s, i, |s| - 1); }
    }
    forall x | x in t ensures t[0] <= x {
      var i :| 0 <= i < |t| && t[i] == x;
      if i > 0 { assert InOrder(t, 0, i); }
    }
    SortedConcat(s, t, t[0]);
    assert multiset(s + t) == multiset(s) + multiset(t);
  }

  /** The slice from b to e, both included, is in bounds and sorted. */
  ghost predicate Run(s: seq<real>, b: nat, e: int) { b - 1 <= e < |s| && Sorted(s[b..e + 1]) }

  /** From t to u the merge of two slices of s has been written at j, nothing else. */
  ghost predicate Merged(s: seq<real>, b1: nat, e1: int, b2: nat, e2: int, t: seq<real>, u: seq<real>, j: nat) {
    && b1 - 1 <= e1 < |s| && b2 - 1 <= e2 < |s|
    && Outside(t, u, j, (e1 - b1 + 1) + (e2 - b2 + 1))
    && IsMerge(u[j..j + (e1 - b1 + 1) + (e2 - b2 + 1)], s[b1..e1 + 1], s[b2..e2 + 1])
  }

  /** From t to u a slice of s has been copied to j, nothing else. */
  ghost predicate Copied(s: seq<real>, b: nat, e: int, t: seq<real>, u: seq<real>, j: nat) {
    b - 1 <= e < |s| && Outside(t, u, j, e - b + 1) && u[j..j + (e - b + 1)] == s[b..e + 1]
  }

  lemma CopiedOne(s: seq<real>, b1: nat, e1: int, b2: nat, e2: int, t: seq<real>, u: seq<real>, j: nat)
    requires Run(s, b1, e1) && Run(s, b2, e2)
    ensures e1 < b1 && Copied(s, b2, e2, t, u, j) ==> Merged(s, b1, e1, b2, e2, t, u, j)
    ensures e2 < b2 && Copied(s, b1, e1, t, u, j) ==> Merged(s, b1, e1, b2, e2, t, u, j)
  {
    MergeOne(s[b1..e1 + 1]);
    MergeOne(s[b2..e2 + 1]);
    if e1 < b1 { assert s[b1..e1 + 1] == []; }
    if e2 < b2 { assert s[b2..e2 + 1] == []; }
  }

  lemma CopiedTwo(s: seq<real>, b1: nat, e1: int, b2: nat, e2: int, t: seq<real>, t1: seq<real>, u: seq<real>, j: nat)
    requires Run(s, b1, e1) && Run(s, b2, e2) && b1 <= e1 && b2 <= e2 && s[e1] <= s[b2]
    requires Copied(s, b1, e1, t, t1, j) && Copied(s, b2, e2, t1, u, j + (e1 - b1 + 1))
    ensures Merged(s, b1, e1, b2, e2, t, u, j)
  {
    var n1, n2 := e1 - b1 + 1, e2 - b2 + 1;
    OutsideConcat(t, t1, u, j, n1, n2);
    assert u[j..j + n1 + n2] == s[b1..e1 + 1] + s[b2..e2 + 1];
    RunsInOrder(s[b1..e1 + 1], s[b2..e2 + 1]);
  }

  lemma MergedSwap(s: seq<real>, b1: nat, e1: int, b2: nat, e2: int, t: seq<real>, u: seq<real>, j: nat)
    requires Merged(s, b2, e2, b1, e1, t, u, j)
    ensures Merged(s, b1, e1, b2, e2, t, u, j)
  {
    MergeSwap(u[j..j + (e2 - b2 + 1) + (e1 - b1 + 1)], s[b2..e2 + 1], s[b1..e1 + 1]);
  }

  /** The two halves, written side by side. */
  lemma MergedTwo(s: seq<real>, b1: nat, e1: int, b2: nat, e2: int, m: nat, n: nat, t: seq<real>, t1: seq<real>, u: seq<real>,
                  j: nat, j': nat)
    requires Run(s, b1, e1) && Run(s, b2, e2) && b1 <= m <= e1 && UpperBound(s, b2, e2, s[m], n)
    requires j' == j + (m - b1 + 1) + (n - b2)
    requires Merged(s, b1, m, b2, n - 1, t, t1, j) && Merged(s, m + 1, e1, n, e2, t1, u, j')
    ensures Merged(s, b1, e1, b2, e2, t, u, j)
  {
    SplitAround(s, b1, e1, b2, e2, m, n);
    var k := j + (e1 - b1 + 1) + (e2 - b2 + 1);
    TwoWrites(t, t1, u, j, j', k, s[b1..m + 1], s[m + 1..e1 + 1], s[b2..n], s[n..e2 + 1], s[m]);
  }

  /** The same with the second half written first. */
  lemma MergedLate(s: seq<real>, b1: nat, e1: int, b2: nat, e2: int, m: nat, n: nat, t: seq<real>, t1: seq<real>, u: seq<real>,
                   j: nat, j': nat)
    requires Run(s, b1, e1) && Run(s, b2, e2) && b1 <= m <= e1 && UpperBound(s, b2, e2, s[m], n)
    requires j' == j + (m - b1 + 1) + (n - b2)
    requires Merged(s, m + 1, e1, n, e2, t, t1, j') && Merged(s, b1, m, b2, n - 1, t1, u, j)
    ensures Merged(s, b1, e1, b2, e2, t, u, j)
  {
    var k := j + (e1 - b1 + 1) + (e2 - b2 + 1);
    var t2 := t[..j] + u[j..j'] + t[j'..];
    OtherOrder(t, t1, u, j, j', k);
    MergedTwo(s, b1, e1, b2, e2, m, n, t, t2, u, j, j');
  }

  /** Two writes next to each other, the later piece first. */
  lemma OtherOrder(t: seq<real>, t1: seq<real>, u: seq<real>, j: nat, j': nat, k: nat)
    requires j <= j' <= k && Outside(t, t1, j', k - j') && Outside(t1, u, j, j' - j)
    ensures var t2 := t[..j] + u[j..j'] + t[j'..];
            Outside(t, t2, j, j' - j) && Outside(t2, u, j', k - j') && t2[j..j'] == u[j..j'] && u[j'..k] == t1[j'..k]
  {
    var t2 := t[..j] + u[j..j'] + t[j'..];
    assert u[j'..] == t1[j'..];
    assert u[..j] == t1[..j] == t1[..j'][..j] == t[..j'][..j] == t[..j];
    assert u[..j'] == u[..j] + u[j..j'] == t2[..j'];
    assert u[k..] == u[j'..][k - j'..] == t1[k..] == t[k..] == t[j'..][k - j'..];
    assert u[j'..k] == u[j'..][..k - j'] == t1[j'..][..k - j'];
  }

  lemma TwoWrites(t: seq<real>, t1: seq<real>, u: seq<real>, j: nat, j': nat, k: nat,
                  a1: seq<real>, a2: seq<real>, b1: seq<real>, b2: seq<real>, x: real)
    requires j <= j' <= k && Outside(t, t1, j, j' - j) && Outside(t1, u, j', k - j')
    requires IsMerge(t1[j..j'], a1, b1) && IsMerge(u[j'..k], a2, b2)
    requires AtMost(a1, x) && AtMost(b1, x) && AtLeast(a2, x) && AtLeast(b2, x)
    ensures Outside(t, u, j, k - j) && IsMerge(u[j..k], a1 + a2, b1 + b2)
  {
    var n1, n2 := j' - j, k - j';
    OutsideConcat(t, t1, u, j, n1, n2);
    assert u[j..k] == t1[j..j'] + u[j'..k];
    MergeConcat(t1[j..j'], u[j'..k], a1, a2, b1, b2, x);
  }

  lemma SplitRuns(s: seq<real>, b1: nat, e1: int, b2: nat, e2: int, m: nat, n: nat)
    requires Run(s, b1, e1) && Run(s, b2, e2) && b1 <= m <= e1 && b2 <= n <= e2 + 1
    ensures Run(s, b1, m) && Run(s, m + 1, e1) && Run(s, b2, n - 1) && Run(s, n, e2)
  {
    SubSorted(s, b1, b1, m + 1, e1 + 1);
    SubSorted(s, b1, m + 1, e1 + 1, e1 + 1);
    SubSorted(s, b2, b2, n, e2 + 1);
    SubSorted(s, b2, n, e2 + 1, e2 + 1);
  }

  method CopyTo(a: array<real>, ghost s: seq<real>, b: nat, e: int, d: array<real>, j: nat)
    requires a != d && s == a[..] && b - 1 <= e < a.Length && j + (e - b + 1) <= d.Length
    modifies d
    ensures Copied(s, b, e, old(d[..]), d[..], j)
  {
    Copy(a, b, e, d, j);
    assert d[..][j..j + (e - b + 1)] == d[j..j + (e - b + 1)] && s[b..e + 1] == a[b..e + 1];
  }

  /** One of the slices is empty. */
  method MergeEmpty(a: array<real>, ghost s: seq<real>, b1: nat, e1: int, b2: nat, e2: int, d: array<real>, j: nat)
    requires a != d && s == a[..] && Run(s, b1, e1) && Run(s, b2, e2) && (e1 < b1 || e2 < b2)
    requires j + (e1 - b1 + 1) + (e2 - b2 + 1) <= d.Length
    modifies d
    ensures Merged(s, b1, e1, b2, e2, old(d[..]), d[..], j)
  {
    if e1 < b1 { CopyTo(a, s, b2, e2, d, j); } else { CopyTo(a, s, b1, e1, d, j); }
    CopiedOne(s, b1, e1, b2, e2, old(d[..]), d[..], j);
  }

  /** The first slice ends where the second one begins, or below. */
  method MergeRuns(a: array<real>, ghost s: seq<real>, b1: nat, e1: int, b2: nat, e2: int, d: array<real>, j: nat)
    requires a != d && s == a[..] && Run(s, b1, e1) && Run(s, b2, e2) && b1 <= e1 && b2 <= e2 && a[e1] <= a[b2]
    requires j + (e1 - b1 + 1) + (e2 - b2 + 1) <= d.Length
    modifies d
    ensures Merged(s, b1, e1, b2, e2, old(d[..]), d[..], j)
  {
    CopyTo(a, s, b1, e1, d, j);
    ghost var t1 := d[..];
    CopyTo(a, s, b2, e2, d, j + (e1 - b1 + 1));
    CopiedTwo(s, b1, e1, b2, e2, old(d[..]), t1, d[..], j);
  }

  /** Merges two sorted slices of a into d, splitting the longer one at its middle
      item and the other one at the upper bound of that item. */
  method Merge(cutOff: int, a: array<real>, ghost s: seq<real>, b1: nat, e1: int, b2: nat, e2: int, d: array<real>, j: nat)
    requires a != d && s == a[..] && Run(s, b1, e1) && Run(s, b2, e2)
    requires j + (e1 - b1 + 1) + (e2 - b2 + 1) <= d.Length
    modifies d
    ensures Merged(s, b1, e1, b2, e2, old(d[..]), d[..], j)
    decreases (e1 - b1) + (e2 - b2) + 2, if e1 - b1 < e2 - b2 then 2 else 1
  {
    if e1 < b1 || e2 < b2 {
      MergeEmpty(a, s, b1, e1, b2, e2, d, j);
    } else if e1 - b1 < e2 - b2 {
      Merge(cutOff, a, s, b2, e2, b1, e1, d, j);
      MergedSwap(s, b1, e1, b2, e2, old(d[..]), d[..], j);
    } else if a[e1] <= a[b2] {
      MergeRuns(a, s, b1, e1, b2, e2, d, j);
    } else if a[e2] <= a[b1] {
      MergeRuns(a, s, b2, e2, b1, e1, d, j);
      MergedSwap(s, b1, e1, b2, e2, old(d[..]), d[..], j);
    } else {
      MergeSplit(cutOff, a, s, b1, e1, b2, e2, d, j);
    }
  }

  method MergeSplit(cutOff: int, a: array<real>, ghost s: seq<real>, b1: nat, e1: int, b2: nat, e2: int, d: array<real>, j: nat)
    requires a != d && s == a[..] && Run(s, b1, e1) && Run(s, b2, e2) && b1 < e1 && b2 <= e2
    requires j + (e1 - b1 + 1) + (e2 - b2 + 1) <= d.Length
    modifies d
    ensures Merged(s, b1, e1, b2, e2, old(d[..]), d[..], j)
    decreases (e1 - b1) + (e2 - b2) + 2, 0
  {
    hide Merged, Sorted, AtMost, Exceeds;
    var m := (b1 + e1) / 2;
    var n: int := Search(a, b2, e2, a[m]);
    SplitRuns(s, b1, e1, b2, e2, m, n);
    var j': int := j + (m - b1 + 1) + (n - b2);
    ghost var t := d[..];
    if e1 - b1 <= cutOff {
      Merge(cutOff, a, s, b1, m, b2, n - 1, d, j);
      ghost var t1 := d[..];
      Merge(cutOff, a, s, m + 1, e1, n, e2, d, j');
      MergedTwo(s, b1, e1, b2, e2, m, n, t, t1, d[..], j, j');
    } else {
      Merge(cutOff, a, s, m + 1, e1, n, e2, d, j');
      ghost var t1 := d[..];
      Merge(cutOff, a, s, b1, m, b2, n - 1, d, j);
      MergedLate(s, b1, e1, b2, e2, m, n, t, t1, d[..], j, j');
    }
  }

  /** The two halves of the work: slices, order and bounds. */
  lemma SplitAround(s: seq<real>, b1: nat, e1: int, b2: nat, e2: int, m: nat, n: nat)
    requires b1 <= m <= e1 < |s| && Sorted(s[b1..e1 + 1]) && UpperBound(s, b2, e2, s[m], n) && Sorted(s[b2..e2 + 1])
    ensures s[b1..e1 + 1] == s[b1..m + 1] + s[m + 1..e1 + 1] && s[b2..e2 + 1] == s[b2..n] + s[n..e2 + 1]
    ensures Sorted(s[b1..m + 1]) && Sorted(s[m + 1..e1 + 1]) && Sorted(s[b2..n]) && Sorted(s[n..e2 + 1])
    ensures AtMost(s[b1..m + 1], s[m]) && AtMost(s[b2..n], s[m])
    ensures AtLeast(s[m + 1..e1 + 1], s[m]) && AtLeast(s[n..e2 + 1], s[m])
  {
    AroundItem(s, b1, m, e1 + 1);
    SubSorted(s, b2, b2, n, e2 + 1);
    SubSorted(s, b2, n, e2 + 1, e2 + 1);
  }

  /** Only s[lo..hi] may differ. */
  ghost predicate Within(s: seq<real>, s': seq<real>, lo: nat, hi: nat) {
    lo <= hi <= |s| == |s'| && s'[..lo] == s[..lo] && s'[hi..] == s[hi..]
  }

  /** s[lo..hi] has been sorted, and nothing else touched. */
  ghost predicate Sorts(s: seq<real>, s': seq<real>, lo: nat, hi: nat) {
    Within(s, s', lo, hi) && Sorted(s'[lo..hi]) && multiset(s'[lo..hi]) == multiset(s[lo..hi])
  }

  lemma WithinWider(s: seq<real>, s': seq<real>, lo: nat, hi: nat, lo': nat, hi': nat)
    requires Within(s, s', lo, hi) && lo' <= lo && hi <= hi' <= |s|
    ensures Within(s, s', lo', hi')
  {
    assert s'[..lo'] == s'[..lo][..lo'] && s[..lo'] == s[..lo][..lo'];
    assert s'[hi'..] == s'[hi..][hi' - hi..] && s[hi'..] == s[hi..][hi' - hi..];
  }

  /** A slice outside is the same. */
  lemma SameSlice(s: seq<real>, s': seq<real>, lo: nat, hi: nat, x: nat, y: nat)
    requires Within(s, s', lo, hi) && x <= y <= |s| && (y <= lo || hi <= x)
    ensures s'[x..y] == s[x..y]
  {
    if y <= lo {
      assert s'[x..y] == s'[..lo][x..y] && s[x..y] == s[..lo][x..y];
    } else {
      forall i | x <= i < y ensures s'[i] == s[i] { assert s'[hi..][i - hi] == s[hi..][i - hi]; }
    }
  }

  lemma WithinTrans(s: seq<real>, s1: seq<real>, s2: seq<real>, lo: nat, hi: nat)
    requires Within(s, s1, lo, hi) && Within(s1, s2, lo, hi)
    ensures Within(s, s2, lo, hi)
  {
  }

  /** Sorting the left part after which the right part is sorted. */
  lemma SortsBoth(s0: seq<real>, s1: seq<real>, s2: seq<real>, lo: nat, mid: nat, hi: nat)
    requires Within(s0, s1, lo, mid) && multiset(s1[lo..mid]) == multiset(s0[lo..mid])
    requires Within(s1, s2, mid, hi) && multiset(s2[mid..hi]) == multiset(s1[mid..hi])
    ensures Within(s0, s2, lo, hi) && multiset(s2[lo..hi]) == multiset(s0[lo..hi])
    ensures s2[lo..mid] == s1[lo..mid]
  {
    WithinWider(s0, s1, lo, mid, lo, hi);
    WithinWider(s1, s2, mid, hi, lo, hi);
    SameSlice(s1, s2, mid, hi, lo, mid);
    SameSlice(s0, s1, lo, mid, mid, hi);
    Slice(s0, lo, mid, hi);
    Slice(s2, lo, mid, hi);
  }

  /** The right part first. */
  lemma SortsLate(s0: seq<real>, s1: seq<real>, s2: seq<real>, lo: nat, mid: nat, hi: nat)
    requires Within(s0, s1, mid, hi) && multiset(s1[mid..hi]) == multiset(s0[mid..hi])
    requires Within(s1, s2, lo, mid) && multiset(s2[lo..mid]) == multiset(s1[lo..mid])
    ensures Within(s0, s2, lo, hi) && multiset(s2[lo..hi]) == multiset(s0[lo..hi])
    ensures s2[mid..hi] == s1[mid..hi] && s1[lo..mid] == s0[lo..mid]
  {
    WithinWider(s0, s1, mid, hi, lo, hi);
    WithinWider(s1, s2, lo, mid, lo, hi);
    SameSlice(s1, s2, lo, mid, mid, hi);
    SameSlice(s0, s1, mid, hi, lo, mid);
    Slice(s0, lo, mid, hi);
    Slice(s2, lo, mid, hi);
  }

  /** Both halves sorted into d, the right one first. */
  lemma HalvesSorted(s0: seq<real>, s1: seq<real>, s2: seq<real>, t0: seq<real>, t1: seq<real>, t2: seq<real>, lo: nat, mid: nat, hi: nat)
    requires |s0| == |t0| && Within(s0, s1, mid, hi) && multiset(s1[mid..hi]) == multiset(s0[mid..hi])
    requires Within(s1, s2, lo, mid) && multiset(s2[lo..mid]) == multiset(s1[lo..mid])
    requires Within(t0, t1, mid, hi) && Sorted(t1[mid..hi]) && multiset(t1[mid..hi]) == multiset(s0[mid..hi])
    requires Within(t1, t2, lo, mid) && Sorted(t2[lo..mid]) && multiset(t2[lo..mid]) == multiset(s1[lo..mid])
    ensures Within(s0, s2, lo, hi) && Within(t0, t2, lo, hi)
    ensures Sorted(t2[lo..mid]) && Sorted(t2[mid..hi]) && multiset(t2[lo..hi]) == multiset(s0[lo..hi])
  {
    SortsLate(s0, s1, s2, lo, mid, hi);
    WithinWider(t0, t1, mid, hi, lo, hi);
    WithinWider(t1, t2, lo, mid, lo, hi);
    SameSlice(t1, t2, lo, mid, mid, hi);
    Slice(s0, lo, mid, hi);
    Slice(t2, lo, mid, hi);
  }

  /** Sorting the four quarters one after the other. */
  lemma Quarters(s0: seq<real>, s1: seq<real>, s2: seq<real>, s3: seq<real>, s4: seq<real>, lo: nat, m1: nat, m2: nat, m3: nat, hi: nat)
    requires Sorts(s0, s1, lo, m1) && Sorts(s1, s2, m1, m2) && Sorts(s2, s3, m2, m3) && Sorts(s3, s4, m3, hi)
    ensures Sorted(s4[lo..m1]) && Sorted(s4[m1..m2]) && Sorted(s4[m2..m3]) && Sorted(s4[m3..hi])
    ensures Within(s0, s4, lo, hi) && multiset(s4[lo..hi]) == multiset(s0[lo..hi])
  {
    SortsBoth(s0, s1, s2, lo, m1, m2);
    SortsBoth(s0, s2, s3, lo, m2, m3);
    SortsBoth(s0, s3, s4, lo, m3, hi);
    SameSlice(s2, s3, m2, m3, lo, m1);
    SameSlice(s3, s4, m3, hi, lo, m1);
    SameSlice(s2, s3, m2, m3, m1, m2);
    SameSlice(s3, s4, m3, hi, m1, m2);
    SameSlice(s3, s4, m3, hi, m2, m3);
  }

  lemma ScratchUsed(t0: seq<real>, t1: seq<real>, t2: seq<real>, t3: seq<real>, t4: seq<real>, lo: nat, m1: nat, m2: nat, m3: nat, hi: nat)
    requires Within(t0, t1, lo, m1) && Within(t1, t2, m1, m2) && Within(t2, t3, m2, m3) && Within(t3, t4, m3, hi)
    ensures Within(t0, t4, lo, hi)
  {
    WithinWider(t0, t1, lo, m1, lo, hi);
    WithinWider(t1, t2, m1, m2, lo, hi);
    WithinWider(t2, t3, m2, m3, lo, hi);
    WithinWider(t3, t4, m3, hi, lo, hi);
  }

  /** Merges two neighbouring sorted slices of a into the same place of d. */
  method MergeNeighbours(cutOff: int, a: array<real>, ghost s: seq<real>, lo: nat, mid: nat, hi: nat, d: array<real>)
    requires a != d && s == a[..] && a.Length == d.Length && lo <= mid <= hi <= a.Length
    requires Sorted(s[lo..mid]) && Sorted(s[mid..hi])
    modifies d
    ensures Within(old(d[..]), d[..], lo, hi) && Sorted(d[..][lo..hi]) && multiset(d[..][lo..hi]) == multiset(s[lo..hi])
  {
    var e1: int, e2: int := mid, hi;
    e1, e2 := e1 - 1, e2 - 1;
    Merge(cutOff, a, s, lo, e1, mid, e2, d, lo);
    Slice(s, lo, mid, hi);
    assert lo + (e1 - lo + 1) + (e2 - mid + 1) == hi;
  }

  /** The two merges into d and the one back into a. */
  method MergeBack(cutOff: int, a: array<real>, lo: nat, m1: nat, m2: nat, m3: nat, hi: nat, d: array<real>)
    requires a != d && a.Length == d.Length && lo <= m1 <= m2 <= m3 <= hi <= a.Length
    requires Sorted(a[..][lo..m1]) && Sorted(a[..][m1..m2]) && Sorted(a[..][m2..m3]) && Sorted(a[..][m3..hi])
    modifies a, d
    ensures Sorts(old(a[..]), a[..], lo, hi) && Within(old(d[..]), d[..], lo, hi)
  {
    ghost var s, t := a[..], d[..];
    MergeNeighbours(cutOff, a, s, lo, m1, m2, d);
    ghost var t1 := d[..];
    MergeNeighbours(cutOff, a, s, m2, m3, hi, d);
    ghost var t2 := d[..];
    HalvesMerged(s, t, t1, t2, lo, m2, hi);
    MergeNeighbours(cutOff, d, t2, lo, m2, hi, a);
  }

  /** Both halves merged into the other array. */
  lemma HalvesMerged(s: seq<real>, t: seq<real>, t1: seq<real>, t2: seq<real>, lo: nat, mid: nat, hi: nat)
    requires |s| == |t| && Within(t, t1, lo, mid) && Sorted(t1[lo..mid]) && multiset(t1[lo..mid]) == multiset(s[lo..mid])
    requires Within(t1, t2, mid, hi) && Sorted(t2[mid..hi]) && multiset(t2[mid..hi]) == multiset(s[mid..hi])
    ensures Sorted(t2[lo..mid]) && Sorted(t2[mid..hi]) && Within(t, t2, lo, hi) && multiset(t2[lo..hi]) == multiset(s[lo..hi])
  {
    WithinWider(t, t1, lo, mid, lo, hi);
    WithinWider(t1, t2, mid, hi, lo, hi);
    SameSlice(t1, t2, mid, hi, lo, mid);
    Slice(s, lo, mid, hi);
    Slice(t2, lo, mid, hi);
  }

  /** Sorts a from b to e, with the same part of d as scratch space: the offset j
      must be b. */
  method Sort(cutOff: int, a: array<real>, b: nat, e: int, d: array<real>, j: nat)
    requires a != d && a.Length == d.Length && b - 1 <= e < a.Length && j == b
    modifies a, d
    ensures Sorts(old(a[..]), a[..], b, e + 1) && Within(old(d[..]), d[..], b, e + 1)
    decreases e - b + 1, 3
  {
    if e > b {
      var q2: int := (b + e) / 2;
      var q1: int := (b + q2) / 2;
      var q3: int := (q2 + 1 + e) / 2;
      assert b <= q1 <= q2 < q3 <= e;
      if e - b <= cutOff {
        SortInTurns(cutOff, a, b, q1, q2, q3, e, d, j);
      } else {
        SortForked(cutOff, a, b, q1, q2, q3, e, d, j);
      }
    }
  }

  method SortInTurns(cutOff: int, a: array<real>, b: nat, q1: int, q2: int, q3: int, e: int, d: array<real>, j: nat)
    requires a != d && a.Length == d.Length && b <= q1 <= q2 < q3 <= e < a.Length && j == b
    modifies a, d
    ensures Sorts(old(a[..]), a[..], b, e + 1) && Within(old(d[..]), d[..], b, e + 1)
    decreases e - b + 1, 1
  {
    ghost var s0, t0 := a[..], d[..];
    var hi: nat := e + 1;
    SortQuarters(cutOff, a, b, q1, q2, q3, e, d, j);
    ghost var s1, t1 := a[..], d[..];
    MergeBack(cutOff, a, b, q1 + 1, q2 + 1, q3 + 1, hi, d);
    WithinTrans(s0, s1, a[..], b, hi);
    WithinTrans(t0, t1, d[..], b, hi);
  }

  /** The calling thread sorts the last quarter and joins the third one, merges them,
      joins cilksort_fn1, and merges the halves. */
  method SortForked(cutOff: int, a: array<real>, b: nat, q1: int, q2: int, q3: int, e: int, d: array<real>, j: nat)
    requires a != d && a.Length == d.Length && b <= q1 <= q2 < q3 <= e < a.Length && j == b
    modifies a, d
    ensures Sorts(old(a[..]), a[..], b, e + 1) && Within(old(d[..]), d[..], b, e + 1)
    decreases e - b + 1, 2
  {
    var mid: nat, hi: nat := q2 + 1, e + 1;
    ghost var s0, t0 := a[..], d[..];
    SortHalf(cutOff, a, mid, q3, e, d, j + (q2 - b + 1));
    ghost var s1, t1 := a[..], d[..];
    SortHalf(cutOff, a, b, q1, q2, d, j);
    ghost var s2, t2 := a[..], d[..];
    HalvesSorted(s0, s1, s2, t0, t1, t2, b, mid, hi);
    MergeNeighbours(cutOff, d, t2, b, mid, hi, a);
    WithinTrans(s0, s2, a[..], b, hi);
  }

  /** cilksort_fn1, and the same work on the other half: two quarters are sorted, the
      forked one when it is joined, and merged into d. */
  method SortHalf(cutOff: int, a: array<real>, b: nat, q: int, e: int, d: array<real>, j: nat)
    requires a != d && a.Length == d.Length && b <= q <= e < a.Length && j == b
    modifies a, d
    ensures Within(old(a[..]), a[..], b, e + 1) && multiset(a[..][b..e + 1]) == multiset(old(a[..])[b..e + 1])
    ensures Within(old(d[..]), d[..], b, e + 1)
    ensures Sorted(d[..][b..e + 1]) && multiset(d[..][b..e + 1]) == multiset(old(a[..])[b..e + 1])
    decreases e - b + 1, 5
  {
    var mid: nat, hi: nat := q + 1, e + 1;
    ghost var s0, t0 := a[..], d[..];
    SortBoth(cutOff, a, b, q, e, d, j);
    ghost var s2, t2 := a[..], d[..];
    MergeNeighbours(cutOff, a, s2, b, mid, hi, d);
    WithinTrans(t0, t2, d[..], b, hi);
  }

  /** Both quarters, the second one by the calling thread. */
  method SortBoth(cutOff: int, a: array<real>, b: nat, q: int, e: int, d: array<real>, j: nat)
    requires a != d && a.Length == d.Length && b <= q <= e < a.Length && j == b
    modifies a, d
    ensures Within(old(a[..]), a[..], b, e + 1) && multiset(a[..][b..e + 1]) == multiset(old(a[..])[b..e + 1])
    ensures Sorted(a[..][b..q + 1]) && Sorted(a[..][q + 1..e + 1]) && Within(old(d[..]), d[..], b, e + 1)
    decreases e - b + 1, 4
  {
    var mid: nat, hi: nat := q + 1, e + 1;
    ghost var s0, t0 := a[..], d[..];
    Sort(cutOff, a, mid, e, d, j + (q - b + 1));
    ghost var s1, t1 := a[..], d[..];
    Sort(cutOff, a, b, q, d, j);
    SortsLate(s0, s1, a[..], b, mid, hi);
    SameSlice(s1, a[..], b, mid, mid, hi);
    WithinWider(t0, t1, mid, hi, b, hi);
    WithinWider(t1, d[..], b, mid, b, hi);
    WithinTrans(t0, t1, d[..], b, hi);
  }

  method SortQuarters(cutOff: int, a: array<real>, b: nat, q1: int, q2: int, q3: int, e: int, d: array<real>, j: nat)
    requires a != d && a.Length == d.Length && b <= q1 <= q2 < q3 <= e < a.Length && j == b
    modifies a, d
    ensures Within(old(a[..]), a[..], b, e + 1) && multiset(a[..][b..e + 1]) == multiset(old(a[..])[b..e + 1])
    ensures Sorted(a[..][b..q1 + 1]) && Sorted(a[..][q1 + 1..q2 + 1]) && Sorted(a[..][q2 + 1..q3 + 1]) && Sorted(a[..][q3 + 1..e + 1])
    ensures Within(old(d[..]), d[..], b, e + 1)
    decreases e - b + 1, 0
  {
    var m1: nat, m2: nat, m3: nat := q1 + 1, q2 + 1, q3 + 1;
    ghost var s0, t0 := a[..], d[..];
    Sort(cutOff, a, b, q1, d, j);
    ghost var s1, t1 := a[..], d[..];
    Sort(cutOff, a, m1, q2, d, j + (q1 - b + 1));
    ghost var s2, t2 := a[..], d[..];
    Sort(cutOff, a, m2, q3, d, j + (q2 - b + 1));
    ghost var s3, t3 := a[..], d[..];
    Sort(cutOff, a, m3, e, d, j + (q3 - b + 1));
    Quarters(s0, s1, s2, s3, a[..], b, m1, m2, m3, e + 1);
    ScratchUsed(t0, t1, t2, t3, d[..], b, m1, m2, m3, e + 1);
  }

  // --------------------------------------------------------------- uniqueness

  /** There is only one sorted sequence of given items. */
  lemma {:induction false} SortedUnique(s: seq<real>, t: seq<real>)
    requires Sorted(s) && Sorted(t) && multiset(s) == multiset(t)
    ensures s == t
    decreases |s|
  {
    SameLength(s, t);
    if s != [] {
      var n := |s| - 1;
      LastIsLargest(s, t);
      LastIsLargest(t, s);
      WithoutLast(s);
      WithoutLast(t);
      SortedUnique(s[..n], t[..n]);
      assert s == s[..n] + [s[n]] && t == t[..n] + [t[n]];
    }
  }

  lemma SameLength(s: seq<real>, t: seq<real>)
    requires multiset(s) == multiset(t)
    ensures |s| == |t|
  {
    assert |s| == |multiset(s)| == |t|;
  }

  lemma WithoutLast(s: seq<real>)
    requires Sorted(s) && s != []
    ensures Sorted(s[..|s| - 1]) && multiset(s[..|s| - 1]) == multiset(s) - multiset{s[|s| - 1]}
  {
    var n := |s| - 1;
    assert s == s[..n] + [s[n]];
    forall i, j | 0 <= i < j < n ensures InOrder(s[..n], i, j) { assert InOrder(s, i, j); }
  }

  lemma LastIsLargest(s: seq<real>, t: seq<real>)
    requires Sorted(s) && s != [] && |t| == |s| && multiset(s) == multiset(t)
    ensures t[|t| - 1] <= s[|s| - 1]
  {
    var x := t[|t| - 1];
    assert x in multiset(s);
    var i :| 0 <= i < |s| && s[i] == x;
    if i < |s| - 1 { assert InOrder(s, i, |s| - 1); }
  }
}
