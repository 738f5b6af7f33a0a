/** The top-down splay tree: loops over a focus and two contexts with a hole. */
module Splay {
  /** The order of any two and of any three items. */
  predicate Pair<T>(cmp: (T, T) -> int, a: T, b: T) { cmp(a, b) < 0 <==> cmp(b, a) > 0 }

  predicate Triple<T>(cmp: (T, T) -> int, a: T, b: T, c: T) {
    && (cmp(a, b) <= 0 && cmp(b, c) <= 0 ==> cmp(a, c) <= 0)
    && (cmp(a, b) < 0 && cmp(b, c) <= 0 ==> cmp(a, c) < 0)
    && (cmp(a, b) <= 0 && cmp(b, c) < 0 ==> cmp(a, c) < 0)
  }

  /** The comparison function of the tree orders its items totally; items that
      compare equal have the same key. */
  ghost predicate TotalOrder<T(!new)>(cmp: (T, T) -> int) {
    (forall a, b :: Pair(cmp, a, b)) && (forall a, b, c :: Triple(cmp, a, b, c))
  }

  datatype Tree<T> = Nil | Node(left: Tree<T>, item: T, right: Tree<T>)

  function InOrder<T>(t: Tree<T>): seq<T> {
    match t
    case Nil => []
    case Node(l, x, r) => InOrder(l) + [x] + InOrder(r)
  }

  ghost predicate Less<T>(cmp: (T, T) -> int, s: seq<T>, i: nat, j: nat)
    requires i < j < |s|
  {
    cmp(s[i], s[j]) < 0
  }

  ghost predicate Sorted<T>(cmp: (T, T) -> int, s: seq<T>) {
    forall i: nat, j: nat {:trigger Less(cmp, s, i, j)} :: i < j < |s| ==> Less(cmp, s, i, j)
  }

  ghost predicate Search<T>(cmp: (T, T) -> int, t: Tree<T>) { Sorted(cmp, InOrder(t)) }

  /** All items of s come before k, or after k. */
  ghost predicate Before<T>(cmp: (T, T) -> int, s: seq<T>, k: T) { forall x :: x in s ==> cmp(k, x) > 0 }

  ghost predicate After<T>(cmp: (T, T) -> int, s: seq<T>, k: T) { forall x :: x in s ==> cmp(k, x) < 0 }

  // ------------------------------------------------------------------ contexts

  /** A node whose right (in a left context) or left (in a right context) child is
      the hole or the next frame. */
  datatype Frame<T> = Frame(item: T, side: Tree<T>)

  function LeftItems<T>(l: seq<Frame<T>>): seq<T> {
    if l == [] then [] else LeftItems(l[..|l| - 1]) + InOrder(l[|l| - 1].side) + [l[|l| - 1].item]
  }

  function RightItems<T>(r: seq<Frame<T>>): seq<T> {
    if r == [] then [] else [r[|r| - 1].item] + InOrder(r[|r| - 1].side) + RightItems(r[..|r| - 1])
  }

  /** The tree L[t]. */
  function FillLeft<T>(l: seq<Frame<T>>, t: Tree<T>): Tree<T> {
    if l == [] then t else FillLeft(l[..|l| - 1], Node(l[|l| - 1].side, l[|l| - 1].item, t))
  }

  /** The tree R[t]. */
  function FillRight<T>(r: seq<Frame<T>>, t: Tree<T>): Tree<T> {
    if r == [] then t else FillRight(r[..|r| - 1], Node(t, r[|r| - 1].item, r[|r| - 1].side))
  }

  lemma {:induction false} FillLeftItems<T>(l: seq<Frame<T>>, t: Tree<T>)
    ensures InOrder(FillLeft(l, t)) == LeftItems(l) + InOrder(t)
    decreases |l|
  {
    if l != [] { FillLeftItems(l[..|l| - 1], Node(l[|l| - 1].side, l[|l| - 1].item, t)); }
  }

  lemma {:induction false} FillRightItems<T>(r: seq<Frame<T>>, t: Tree<T>)
    ensures InOrder(FillRight(r, t)) == InOrder(t) + RightItems(r)
    decreases |r|
  {
    if r != [] { FillRightItems(r[..|r| - 1], Node(t, r[|r| - 1].item, r[|r| - 1].side)); }
  }

  lemma PushLeft<T>(l: seq<Frame<T>>, f: Frame<T>)
    ensures LeftItems(l + [f]) == LeftItems(l) + InOrder(f.side) + [f.item]
  {
    assert (l + [f])[..|l|] == l;
  }

  lemma PushRight<T>(r: seq<Frame<T>>, f: Frame<T>)
    ensures RightItems(r + [f]) == [f.item] + InOrder(f.side) + RightItems(r)
  {
    assert (r + [f])[..|r|] == r;
  }

  // ---------------------------------------------------------------------- splay

  /** Everything in the three parts, in order. */
  function Parts<T>(l: seq<Frame<T>>, t: Tree<T>, r: seq<Frame<T>>): seq<T> {
    LeftItems(l) + InOrder(t) + RightItems(r)
  }

  lemma SortedParts<T>(cmp: (T, T) -> int, a: seq<T>, b: seq<T>)
    requires Sorted(cmp, a + b)
    ensures Sorted(cmp, a) && Sorted(cmp, b)
    ensures forall x, y :: x in a && y in b ==> cmp(x, y) < 0
  {
    var s := a + b;
    forall i: nat, j: nat | i < j < |a| ensures Less(cmp, a, i, j) { assert Less(cmp, s, i, j); }
    forall i: nat, j: nat | i < j < |b| ensures Less(cmp, b, i, j) { assert Less(cmp, s, |a| + i, |a| + j); }
    forall x, y | x in a && y in b ensures cmp(x, y) < 0 {
      var i :| 0 <= i < |a| && a[i] == x;
      var j :| 0 <= j < |b| && b[j] == y;
      assert Less(cmp, s, i, |a| + j);
    }
  }

  /** If k is before x, then k is before everything after x. */
  lemma AfterAll<T(!new)>(cmp: (T, T) -> int, k: T, x: T, s: seq<T>)
    requires TotalOrder(cmp) && cmp(k, x) < 0 && Sorted(cmp, [x] + s)
    ensures After(cmp, [x] + s, k)
  {
    SortedParts(cmp, [x], s);
    forall y | y in s ensures cmp(k, y) < 0 { assert cmp(x, y) < 0 && Triple(cmp, k, x, y); }
  }

  lemma BeforeAll<T(!new)>(cmp: (T, T) -> int, k: T, x: T, s: seq<T>)
    requires TotalOrder(cmp) && cmp(k, x) > 0 && Sorted(cmp, s + [x])
    ensures Before(cmp, s + [x], k)
  {
    SortedParts(cmp, s, [x]);
    forall y | y in s ensures cmp(k, y) > 0 {
      assert cmp(y, x) < 0 && Pair(cmp, x, k) && Triple(cmp, y, x, k) && Pair(cmp, y, k);
    }
  }

  /** The focus is sorted and lies between the contexts, which lie around k. */
  ghost predicate Splits<T(!new)>(cmp: (T, T) -> int, k: T, l: seq<Frame<T>>, t: Tree<T>, r: seq<Frame<T>>) {
    Sorted(cmp, Parts(l, t, r)) && Before(cmp, LeftItems(l), k) && After(cmp, RightItems(r), k)
  }

  /** Linking right: the focus node and its right subtree lie after k. */
  lemma LinkRight<T(!new)>(cmp: (T, T) -> int, k: T, l: seq<Frame<T>>, t: Tree<T>, r: seq<Frame<T>>)
    requires TotalOrder(cmp) && Splits(cmp, k, l, t, r) && t.Node? && cmp(k, t.item) < 0
    ensures Splits(cmp, k, l, t.left, r + [Frame(t.item, t.right)])
    ensures Parts(l, t.left, r + [Frame(t.item, t.right)]) == Parts(l, t, r)
  {
    hide TotalOrder, Sorted;
    PushRight(r, Frame(t.item, t.right));
    var a, b := LeftItems(l) + InOrder(t.left), [t.item] + (InOrder(t.right) + RightItems(r));
    AtItem(LeftItems(l), InOrder(t.left), t.item, InOrder(t.right), RightItems(r));
    SortedParts(cmp, a, b);
    AfterAll(cmp, k, t.item, InOrder(t.right) + RightItems(r));
  }

  lemma AtItem<T>(a: seq<T>, b: seq<T>, x: T, c: seq<T>, d: seq<T>)
    ensures a + (b + [x] + c) + d == (a + b) + ([x] + (c + d)) == (a + b + [x]) + (c + d)
    ensures [x] + c + d == [x] + (c + d)
  {
  }

  lemma LinkLeft<T(!new)>(cmp: (T, T) -> int, k: T, l: seq<Frame<T>>, t: Tree<T>, r: seq<Frame<T>>)
    requires TotalOrder(cmp) && Splits(cmp, k, l, t, r) && t.Node? && cmp(k, t.item) > 0
    ensures Splits(cmp, k, l + [Frame(t.item, t.left)], t.right, r)
    ensures Parts(l + [Frame(t.item, t.left)], t.right, r) == Parts(l, t, r)
  {
    hide TotalOrder, Sorted;
    PushLeft(l, Frame(t.item, t.left));
    var a, b := LeftItems(l) + InOrder(t.left) + [t.item], InOrder(t.right) + RightItems(r);
    AtItem(LeftItems(l), InOrder(t.left), t.item, InOrder(t.right), RightItems(r));
    Group3(a, InOrder(t.right), RightItems(r));
    SortedParts(cmp, a, b);
    BeforeAll(cmp, k, t.item, LeftItems(l) + InOrder(t.left));
  }

  lemma RotateItems<T>(a: Tree<T>, x: T, b: Tree<T>, y: T, c: Tree<T>)
    ensures InOrder(Node(Node(a, x, b), y, c)) == InOrder(Node(a, x, Node(b, y, c)))
  {
  }

  /** The focus becomes the root, its subtrees fill the holes. */
  function Assemble<T>(node: Tree<T>, l: seq<Frame<T>>, r: seq<Frame<T>>): (t: Tree<T>)
    requires node.Node?
    ensures t.Node? && t.item == node.item
  {
    Node(FillLeft(l, node.left), node.item, FillRight(r, node.right))
  }

  lemma AssembleItems<T>(node: Tree<T>, l: seq<Frame<T>>, r: seq<Frame<T>>)
    requires node.Node?
    ensures InOrder(Assemble(node, l, r)) == Parts(l, node, r)
  {
    FillLeftItems(l, node.left);
    FillRightItems(r, node.right);
    Regroup(LeftItems(l), InOrder(node.left), [node.item], InOrder(node.right), RightItems(r));
  }

  lemma Regroup<T>(a: seq<T>, b: seq<T>, c: seq<T>, d: seq<T>, e: seq<T>)
    ensures (a + b) + c + (d + e) == a + (b + c + d) + e
  {
  }

  // ----------------------------------------------------- what the operations mean

  /** Some item of s has the key of k. */
  ghost predicate HasKey<T>(cmp: (T, T) -> int, s: seq<T>, k: T) { exists x :: x in s && cmp(k, x) == 0 }

  /** The items with keys below and above k, in order: the map without k. */
  function Below<T>(cmp: (T, T) -> int, s: seq<T>, k: T): seq<T> {
    if s == [] then [] else Below(cmp, s[..|s| - 1], k) + if cmp(k, s[|s| - 1]) > 0 then [s[|s| - 1]] else []
  }

  function Above<T>(cmp: (T, T) -> int, s: seq<T>, k: T): seq<T> {
    if s == [] then [] else Above(cmp, s[..|s| - 1], k) + if cmp(k, s[|s| - 1]) < 0 then [s[|s| - 1]] else []
  }

  lemma {:induction false} BelowAppend<T>(cmp: (T, T) -> int, a: seq<T>, b: seq<T>, k: T)
    ensures Below(cmp, a + b, k) == Below(cmp, a, k) + Below(cmp, b, k)
    ensures Above(cmp, a + b, k) == Above(cmp, a, k) + Above(cmp, b, k)
    decreases |b|
  {
    if b == [] {
      assert a + b == a;
    } else {
      assert (a + b)[..|a + b| - 1] == a + b[..|b| - 1];
      BelowAppend(cmp, a, b[..|b| - 1], k);
    }
  }

  lemma {:induction false} AllBefore<T>(cmp: (T, T) -> int, s: seq<T>, k: T)
    requires Before(cmp, s, k)
    ensures Below(cmp, s, k) == s && Above(cmp, s, k) == []
  {
    if s != [] {
      var p, x := s[..|s| - 1], s[|s| - 1];
      assert s == p + [x];
      assert x in s && forall y :: y in p ==> y in s;
      AllBefore(cmp, p, k);
    }
  }

  lemma {:induction false} AllAfter<T>(cmp: (T, T) -> int, s: seq<T>, k: T)
    requires After(cmp, s, k)
    ensures Below(cmp, s, k) == [] && Above(cmp, s, k) == s
  {
    if s != [] {
      var p, x := s[..|s| - 1], s[|s| - 1];
      assert s == p + [x];
      assert x in s && forall y :: y in p ==> y in s;
      AllAfter(cmp, p, k);
    }
  }

  /** A sorted sequence cut at k: below, the item equal to k if any, above. */
  lemma Cut<T>(cmp: (T, T) -> int, a: seq<T>, m: seq<T>, b: seq<T>, k: T)
    requires Before(cmp, a, k) && After(cmp, b, k) && (m == [] || (|m| == 1 && cmp(k, m[0]) == 0))
    ensures Below(cmp, a + m + b, k) == a && Above(cmp, a + m + b, k) == b
    ensures (exists x :: x in a + m + b && cmp(k, x) == 0) <==> m != []
  {
    BelowAppend(cmp, a + m, b, k);
    BelowAppend(cmp, a, m, k);
    AllBefore(cmp, a, k);
    AllAfter(cmp, b, k);
    if m != [] {
      assert m == [m[0]] && m[..0] == [];
      assert m[0] in a + m + b;
    }
  }

  /** When splaying ends, the focus is cut off from k or has it at its root. */
  lemma FocusCut<T(!new)>(cmp: (T, T) -> int, k: T, l: seq<Frame<T>>, node: Tree<T>, r: seq<Frame<T>>)
    requires TotalOrder(cmp) && node.Node? && Splits(cmp, k, l, node, r)
    requires (cmp(k, node.item) < 0 ==> node.left == Nil) && (cmp(k, node.item) > 0 ==> node.right == Nil)
    ensures var s := Parts(l, node, r);
            var n := cmp(k, node.item);
            && (n == 0 ==> Below(cmp, s, k) == LeftItems(l) + InOrder(node.left) && Above(cmp, s, k) == InOrder(node.right) + RightItems(r))
            && (n < 0 ==> Below(cmp, s, k) == LeftItems(l) && Above(cmp, s, k) == InOrder(node) + RightItems(r))
            && (n > 0 ==> Below(cmp, s, k) == LeftItems(l) + InOrder(node) && Above(cmp, s, k) == RightItems(r))
            && (n == 0 <==> exists x :: x in s && cmp(k, x) == 0)
  {
    var n := cmp(k, node.item);
    if n < 0 {
      LessCut(cmp, k, l, node, r);
    } else if n > 0 {
      GreaterCut(cmp, k, l, node, r);
    } else {
      EqualCut(cmp, k, l, node, r);
    }
  }

  lemma LessCut<T(!new)>(cmp: (T, T) -> int, k: T, l: seq<Frame<T>>, node: Tree<T>, r: seq<Frame<T>>)
    requires TotalOrder(cmp) && node.Node? && Splits(cmp, k, l, node, r) && cmp(k, node.item) < 0 && node.left == Nil
    ensures var s := Parts(l, node, r);
            && Below(cmp, s, k) == LeftItems(l) && Above(cmp, s, k) == InOrder(node) + RightItems(r)
            && !exists x :: x in s && cmp(k, x) == 0
  {
    var a, b := LeftItems(l), InOrder(node) + RightItems(r);
    LinkRight(cmp, k, l, node, r);
    PushRight(r, Frame(node.item, node.right));
    assert InOrder(node) == [node.item] + InOrder(node.right);
    assert b == RightItems(r + [Frame(node.item, node.right)]);
    assert a + [] == a && Parts(l, node, r) == a + b;
    Cut(cmp, a, [], b, k);
  }

  lemma GreaterCut<T(!new)>(cmp: (T, T) -> int, k: T, l: seq<Frame<T>>, node: Tree<T>, r: seq<Frame<T>>)
    requires TotalOrder(cmp) && node.Node? && Splits(cmp, k, l, node, r) && cmp(k, node.item) > 0 && node.right == Nil
    ensures var s := Parts(l, node, r);
            && Below(cmp, s, k) == LeftItems(l) + InOrder(node) && Above(cmp, s, k) == RightItems(r)
            && !exists x :: x in s && cmp(k, x) == 0
  {
    var a, b := LeftItems(l) + InOrder(node), RightItems(r);
    LinkLeft(cmp, k, l, node, r);
    PushLeft(l, Frame(node.item, node.left));
    assert a == LeftItems(l + [Frame(node.item, node.left)]);
    assert Parts(l, node, r) == a + [] + b;
    Cut(cmp, a, [], b, k);
  }

  lemma EqualCut<T(!new)>(cmp: (T, T) -> int, k: T, l: seq<Frame<T>>, node: Tree<T>, r: seq<Frame<T>>)
    requires TotalOrder(cmp) && node.Node? && Splits(cmp, k, l, node, r) && cmp(k, node.item) == 0
    ensures var s := Parts(l, node, r);
            && Below(cmp, s, k) == LeftItems(l) + InOrder(node.left) && Above(cmp, s, k) == InOrder(node.right) + RightItems(r)
            && exists x :: x in s && cmp(k, x) == 0
  {
    var a, b := LeftItems(l) + InOrder(node.left), InOrder(node.right) + RightItems(r);
    assert Parts(l, node, r) == a + [node.item] + b;
    SortedParts(cmp, a + [node.item], b);
    SortedParts(cmp, a, [node.item]);
    forall x | x in a ensures cmp(k, x) > 0 {
      assert cmp(x, node.item) < 0 && Pair(cmp, k, node.item) && Pair(cmp, node.item, k);
      assert Triple(cmp, x, node.item, k) && Pair(cmp, x, k);
    }
    forall x | x in b ensures cmp(k, x) < 0 {
      assert node.item in a + [node.item];
      assert cmp(node.item, x) < 0 && Triple(cmp, k, node.item, x);
    }
    Cut(cmp, a, [node.item], b, k);
  }

  // ------------------------------------------------------------------ operations

  lemma Group3<T>(a: seq<T>, b: seq<T>, c: seq<T>)
    ensures a + b + c == a + (b + c)
  {
  }

  lemma KeptWhole<T(!new)>(cmp: (T, T) -> int, k: T, l: seq<Frame<T>>, node: Tree<T>, r: seq<Frame<T>>)
    requires TotalOrder(cmp) && node.Node? && Splits(cmp, k, l, node, r) && cmp(k, node.item) != 0
    requires (cmp(k, node.item) < 0 ==> node.left == Nil) && (cmp(k, node.item) > 0 ==> node.right == Nil)
    ensures var s := Parts(l, node, r); Below(cmp, s, k) + Above(cmp, s, k) == s
  {
    if cmp(k, node.item) < 0 {
      LessCut(cmp, k, l, node, r);
      Group3(LeftItems(l), InOrder(node), RightItems(r));
    } else {
      GreaterCut(cmp, k, l, node, r);
    }
  }

  /** The focus is replaced by a tree of the items of its subtrees. */
  lemma FocusRemoved<T(!new)>(cmp: (T, T) -> int, k: T, l: seq<Frame<T>>, node: Tree<T>, r: seq<Frame<T>>, j: Tree<T>)
    requires TotalOrder(cmp) && node.Node? && Splits(cmp, k, l, node, r) && cmp(k, node.item) == 0
    requires j.Node? && InOrder(j) == InOrder(node.left) + InOrder(node.right)
    ensures var s := Parts(l, node, r); InOrder(Assemble(j, l, r)) == Below(cmp, s, k) + Above(cmp, s, k)
  {
    EqualCut(cmp, k, l, node, r);
    AssembleItems(j, l, r);
    Halves(LeftItems(l), InOrder(node.left), InOrder(node.right), RightItems(r));
  }

  /** The focus becomes the root and is then left out. */
  lemma RootRemoved<T(!new)>(cmp: (T, T) -> int, k: T, l: seq<Frame<T>>, node: Tree<T>, r: seq<Frame<T>>)
    requires TotalOrder(cmp) && node.Node? && Splits(cmp, k, l, node, r) && cmp(k, node.item) == 0
    ensures var s, t := Parts(l, node, r), Assemble(node, l, r);
            Search(cmp, t) && InOrder(t.left) + InOrder(t.right) == Below(cmp, s, k) + Above(cmp, s, k)
  {
    EqualCut(cmp, k, l, node, r);
    AssembleItems(node, l, r);
    FillLeftItems(l, node.left);
    FillRightItems(r, node.right);
  }

  lemma Halves<T>(a: seq<T>, b: seq<T>, c: seq<T>, d: seq<T>)
    ensures a + (b + c) + d == (a + b) + (c + d)
  {
  }

  lemma FocusSorted<T>(cmp: (T, T) -> int, l: seq<Frame<T>>, node: Tree<T>, r: seq<Frame<T>>)
    requires Sorted(cmp, Parts(l, node, r))
    ensures Search(cmp, node)
  {
    SortedParts(cmp, LeftItems(l) + InOrder(node), RightItems(r));
    SortedParts(cmp, LeftItems(l), InOrder(node));
  }

  lemma JoinItems<T>(l: seq<Frame<T>>, left: Tree<T>, right: Tree<T>)
    requires left.Node? && left.right == Nil
    ensures Parts(l, Node(left.left, left.item, right), []) == Parts(l, left, []) + InOrder(right)
  {
    assert InOrder(left) == InOrder(left.left) + [left.item];
  }

  lemma ChildrenSorted<T>(cmp: (T, T) -> int, node: Tree<T>)
    requires node.Node? && Search(cmp, node)
    ensures Search(cmp, node.left) && Search(cmp, node.right)
    ensures forall x :: x in InOrder(node.left) ==> cmp(x, node.item) < 0
    ensures forall x :: x in InOrder(node.right) ==> cmp(node.item, x) < 0
  {
    assert InOrder(node) == InOrder(node.left) + ([node.item] + InOrder(node.right));
    SortedParts(cmp, InOrder(node.left), [node.item] + InOrder(node.right));
    SortedParts(cmp, [node.item], InOrder(node.right));
  }

  lemma NotEmpty<T>(r: seq<Frame<T>>)
    ensures r != [] ==> RightItems(r) != [] && RightItems(r)[0] in RightItems(r)
  {
  }

  /** Splaying a left subtree at its parent leaves nothing on the right. */
  lemma NothingAfter<T(!new)>(cmp: (T, T) -> int, node: Tree<T>, l: seq<Frame<T>>, left: Tree<T>, r: seq<Frame<T>>)
    requires TotalOrder(cmp) && node.Node? && Search(cmp, node) && left.Node?
    requires Parts(l, left, r) == InOrder(node.left) && After(cmp, RightItems(r), node.item)
    requires cmp(node.item, left.item) > 0 ==> left.right == Nil
    ensures left.right == Nil && r == []
  {
    ChildrenSorted(cmp, node);
    var s := Parts(l, left, r);
    forall x | x in s ensures cmp(node.item, x) > 0 { assert Pair(cmp, x, node.item); }
    assert left.item in InOrder(left) && left.item in s;
    assert forall x :: x in RightItems(r) ==> x in s;
    NotEmpty(r);
  }

  /** The new node takes the focus as its only child, or its item is overwritten. */
  function Place<T>(n: int, node: Tree<T>, k: T): (t: Tree<T>)
    requires node.Node?
    ensures t.Node? && t.item == k
  {
    if n < 0 then Node(Nil, k, node) else if n > 0 then Node(node, k, Nil) else Node(node.left, k, node.right)
  }

  lemma AroundRoot<T>(t: Tree<T>, l: seq<Frame<T>>, r: seq<Frame<T>>)
    requires t.Node?
    ensures InOrder(Assemble(t, l, r)) == (LeftItems(l) + InOrder(t.left)) + [t.item] + (InOrder(t.right) + RightItems(r))
  {
    FillLeftItems(l, t.left);
    FillRightItems(r, t.right);
  }

  lemma PlaceItems<T(!new)>(cmp: (T, T) -> int, k: T, l: seq<Frame<T>>, node: Tree<T>, r: seq<Frame<T>>)
    requires TotalOrder(cmp) && node.Node? && Splits(cmp, k, l, node, r)
    requires (cmp(k, node.item) < 0 ==> node.left == Nil) && (cmp(k, node.item) > 0 ==> node.right == Nil)
    ensures var s := Parts(l, node, r);
            InOrder(Assemble(Place(cmp(k, node.item), node, k), l, r)) == Below(cmp, s, k) + [k] + Above(cmp, s, k)
  {
    hide TotalOrder, Splits, Below, Above;
    var n := cmp(k, node.item);
    FocusCut(cmp, k, l, node, r);
    var t := Place(n, node, k);
    AroundRoot(t, l, r);
    if n < 0 {
      assert LeftItems(l) + InOrder(t.left) == LeftItems(l);
    } else if n > 0 {
      assert InOrder(t.right) + RightItems(r) == RightItems(r);
    }
  }

  /** Taking k in between what is below and what is above keeps the order. */
  lemma InsertSorted<T(!new)>(cmp: (T, T) -> int, s: seq<T>, k: T)
    requires TotalOrder(cmp) && Sorted(cmp, s)
    ensures Sorted(cmp, Below(cmp, s, k) + [k] + Above(cmp, s, k))
    ensures Sorted(cmp, Below(cmp, s, k) + Above(cmp, s, k))
  {
    BelowSorted(cmp, s, k);
    var a, b := Below(cmp, s, k), Above(cmp, s, k);
    forall x | x in a ensures cmp(x, k) < 0 { assert Pair(cmp, x, k); }
    forall x, y | x in a && y in b ensures cmp(x, y) < 0 { assert Triple(cmp, x, k, y); }
    SortedAppend(cmp, a, b);
    SortedAppend(cmp, a, [k]);
    SortedAppend(cmp, a + [k], b);
  }

  lemma SortedAppend<T>(cmp: (T, T) -> int, a: seq<T>, b: seq<T>)
    requires Sorted(cmp, a) && Sorted(cmp, b) && forall x, y :: x in a && y in b ==> cmp(x, y) < 0
    ensures Sorted(cmp, a + b)
  {
    var s := a + b;
    forall i: nat, j: nat | i < j < |s| ensures Less(cmp, s, i, j) {
      if j < |a| {
        assert Less(cmp, a, i, j);
      } else if i < |a| {
        assert s[i] in a && s[j] in b;
      } else {
        assert Less(cmp, b, i - |a|, j - |a|);
      }
    }
  }

  lemma {:induction false} BelowSorted<T(!new)>(cmp: (T, T) -> int, s: seq<T>, k: T)
    requires TotalOrder(cmp) && Sorted(cmp, s)
    ensures Sorted(cmp, Below(cmp, s, k)) && Before(cmp, Below(cmp, s, k), k)
    ensures Sorted(cmp, Above(cmp, s, k)) && After(cmp, Above(cmp, s, k), k)
    ensures forall x :: x in Below(cmp, s, k) || x in Above(cmp, s, k) ==> x in s
  {
    if s != [] {
      var p, x := s[..|s| - 1], s[|s| - 1];
      assert s == p + [x];
      SortedParts(cmp, p, [x]);
      BelowSorted(cmp, p, k);
      assert forall y :: y in Below(cmp, p, k) || y in Above(cmp, p, k) ==> y in p;
      assert Below(cmp, p, k) + [] == Below(cmp, p, k) && Above(cmp, p, k) + [] == Above(cmp, p, k);
      if cmp(k, x) > 0 { SortedAppend(cmp, Below(cmp, p, k), [x]); }
      if cmp(k, x) < 0 { SortedAppend(cmp, Above(cmp, p, k), [x]); }
    }
  }
}
