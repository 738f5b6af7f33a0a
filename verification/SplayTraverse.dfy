/** Traversals of the splay tree that keep their stack in the tree itself.

    The back pointers of the nodes on the way down to the left form the stack; the
    rest of the tree around the place of work is a context of two kinds of links. */
module SplayTraverse {
  import opened Splay
  import opened SplayNodes
  import opened SplayTree

  /** A node above the place of work: its right subtree is still to be visited and
      the place of work is on its left, or it has been visited and the place of work
      is on its right. */
  datatype Link<T> = Pending(item: T, right: Tree<T>) | Visited(left: Tree<T>, item: T)

  /** Items to the left and to the right of the place of work. */
  function Pre<T>(ctx: seq<Link<T>>): seq<T> {
    if ctx == [] then []
    else match ctx[|ctx| - 1]
      case Pending(_, _) => Pre(ctx[..|ctx| - 1])
      case Visited(l, x) => Pre(ctx[..|ctx| - 1]) + InOrder(l) + [x]
  }

  function Post<T>(ctx: seq<Link<T>>): seq<T> {
    if ctx == [] then []
    else match ctx[|ctx| - 1]
      case Pending(x, r) => [x] + InOrder(r) + Post(ctx[..|ctx| - 1])
      case Visited(_, _) => Post(ctx[..|ctx| - 1])
  }

  lemma Push<T>(ctx: seq<Link<T>>, f: Link<T>)
    ensures Pre(ctx + [f]) == if f.Visited? then Pre(ctx) + InOrder(f.left) + [f.item] else Pre(ctx)
    ensures Post(ctx + [f]) == if f.Pending? then [f.item] + InOrder(f.right) + Post(ctx) else Post(ctx)
  {
    assert (ctx + [f])[..|ctx|] == ctx;
  }

  /** Going back up to the nearest node that waits to be visited: the subtree t at
      the place of work becomes part of its left subtree. */
  function Up<T>(ctx: seq<Link<T>>, t: Tree<T>): (r: (seq<Link<T>>, Tree<T>))
    ensures |r.0| <= |ctx|
    ensures r.0 == [] || r.0[|r.0| - 1].Pending?
  {
    if ctx == [] || ctx[|ctx| - 1].Pending? then (ctx, t)
    else Up(ctx[..|ctx| - 1], Node(ctx[|ctx| - 1].left, ctx[|ctx| - 1].item, t))
  }

  lemma {:induction false} UpItems<T>(ctx: seq<Link<T>>, t: Tree<T>)
    ensures var r := Up(ctx, t); Pre(r.0) + InOrder(r.1) == Pre(ctx) + InOrder(t) && Post(r.0) == Post(ctx)
    decreases |ctx|
  {
    if ctx != [] && ctx[|ctx| - 1].Visited? {
      var f, rest := ctx[|ctx| - 1], ctx[..|ctx| - 1];
      UpItems(rest, Node(f.left, f.item, t));
      Regroup(Pre(rest), InOrder(f.left), [f.item], InOrder(t), []);
      Assoc3(Pre(rest) + InOrder(f.left), [f.item], InOrder(t));
    }
  }

  /** The items that are kept, in order. */
  function Keep<T>(reject: T -> bool, s: seq<T>): seq<T> {
    if s == [] then [] else Keep(reject, s[..|s| - 1]) + if reject(s[|s| - 1]) then [] else [s[|s| - 1]]
  }

  function Drop<T>(reject: T -> bool, s: seq<T>): seq<T> {
    if s == [] then [] else (if reject(s[|s| - 1]) then [s[|s| - 1]] else []) + Drop(reject, s[..|s| - 1])
  }

  lemma KeepSnoc<T>(reject: T -> bool, s: seq<T>, x: T)
    ensures Keep(reject, s + [x]) == Keep(reject, s) + if reject(x) then [] else [x]
    ensures Drop(reject, s + [x]) == (if reject(x) then [x] else []) + Drop(reject, s)
  {
    assert (s + [x])[..|s|] == s;
  }

  /** Leaving out one item keeps the order. */
  lemma SortedWithout<T>(cmp: (T, T) -> int, a: seq<T>, x: T, b: seq<T>)
    requires Sorted(cmp, a + [x] + b)
    ensures Sorted(cmp, a + b)
  {
    var s, t := a + [x] + b, a + b;
    forall i: nat, j: nat | i < j < |t| ensures Less(cmp, t, i, j) {
      var i', j' := if i < |a| then i else i + 1, if j < |a| then j else j + 1;
      assert t[i] == s[i'] && t[j] == s[j'] && Less(cmp, s, i', j');
    }
  }

  /** What is still to be visited. */
  function Rest<T>(ctx: seq<Link<T>>, t: Tree<T>): seq<T> { InOrder(t) + Post(ctx) }

  /** What holds between two steps of the traversal of s0. */
  ghost predicate Working<T>(cmp: (T, T) -> int, reject: T -> bool, s0: seq<T>, log: seq<T>, ctx: seq<Link<T>>, t: Tree<T>) {
    log + Rest(ctx, t) == s0 && Pre(ctx) == Keep(reject, log) && Sorted(cmp, Pre(ctx) + Rest(ctx, t))
  }

  lemma GoLeft<T>(cmp: (T, T) -> int, reject: T -> bool, s0: seq<T>, log: seq<T>, ctx: seq<Link<T>>, t: Tree<T>)
    requires Working(cmp, reject, s0, log, ctx, t) && t.Node?
    ensures Working(cmp, reject, s0, log, ctx + [Pending(t.item, t.right)], t.left)
    ensures Rest(ctx + [Pending(t.item, t.right)], t.left) == Rest(ctx, t)
  {
    Push(ctx, Pending(t.item, t.right));
    Regroup4(InOrder(t.left), [t.item], InOrder(t.right), Post(ctx));
  }

  lemma Regroup4<T>(a: seq<T>, b: seq<T>, c: seq<T>, d: seq<T>)
    ensures a + (b + c + d) == (a + b + c) + d
    ensures (a + b) + (c + d) == a + (b + c) + d
    ensures b + (c + d) == b + c + d
  {
  }

  /** At a node x that is about to be visited, with l as its left subtree. */
  ghost predicate Visiting<T>(cmp: (T, T) -> int, reject: T -> bool, s0: seq<T>, log: seq<T>, ctx: seq<Link<T>>,
                              l: Tree<T>, x: T, r: Tree<T>) {
    && log + ([x] + Rest(ctx, r)) == s0
    && Pre(ctx) + InOrder(l) == Keep(reject, log)
    && Sorted(cmp, (Pre(ctx) + InOrder(l)) + ([x] + Rest(ctx, r)))
  }

  lemma GoBack<T>(cmp: (T, T) -> int, reject: T -> bool, s0: seq<T>, log: seq<T>, ctx: seq<Link<T>>)
    requires Working(cmp, reject, s0, log, ctx, Nil) && Up(ctx, Nil).0 != []
    ensures var up := Up(ctx, Nil);
            var f, outer := up.0[|up.0| - 1], up.0[..|up.0| - 1];
            && Visiting(cmp, reject, s0, log, outer, up.1, f.item, f.right)
            && Rest(ctx, Nil) == [f.item] + Rest(outer, f.right)
  {
    UpItems(ctx, Nil);
    var up := Up(ctx, Nil);
    var f, outer := up.0[|up.0| - 1], up.0[..|up.0| - 1];
    assert outer + [f] == up.0;
    Push(outer, f);
    assert Pre(ctx) + InOrder(Nil) == Pre(ctx);
    assert Rest(ctx, Nil) == Post(ctx);
    Regroup4([], [f.item], InOrder(f.right), Post(outer));
  }

  /** The subtree at the visited node is itself sorted. */
  lemma SubtreeSorted<T>(cmp: (T, T) -> int, reject: T -> bool, s0: seq<T>, log: seq<T>, ctx: seq<Link<T>>,
                         l: Tree<T>, x: T, r: Tree<T>)
    requires Visiting(cmp, reject, s0, log, ctx, l, x, r)
    ensures Search(cmp, Node(l, x, r))
  {
    var a, b := Pre(ctx), Post(ctx);
    var m := InOrder(l) + [x] + InOrder(r);
    assert (a + InOrder(l)) + ([x] + (InOrder(r) + b)) == a + (m + b);
    SortedParts(cmp, a, m + b);
    SortedParts(cmp, m, b);
  }

  /** The node is kept: the traversal goes on in its right subtree. */
  lemma Stays<T>(cmp: (T, T) -> int, reject: T -> bool, s0: seq<T>, log: seq<T>, ctx: seq<Link<T>>, l: Tree<T>, x: T, r: Tree<T>)
    requires Visiting(cmp, reject, s0, log, ctx, l, x, r) && !reject(x)
    ensures Working(cmp, reject, s0, log + [x], ctx + [Visited(l, x)], r)
    ensures Rest(ctx + [Visited(l, x)], r) == Rest(ctx, r)
  {
    Push(ctx, Visited(l, x));
    KeepSnoc(reject, log, x);
    Assoc3(log, [x], Rest(ctx, r));
    Assoc3(Pre(ctx) + InOrder(l), [x], Rest(ctx, r));
  }

  lemma Assoc3<T>(a: seq<T>, b: seq<T>, c: seq<T>)
    ensures a + b + c == a + (b + c)
  {
  }

  /** The node is rejected: whatever takes its place holds the items of l, already
      visited, and then the right subtree. */
  lemma Rejected<T>(cmp: (T, T) -> int, reject: T -> bool, s0: seq<T>, log: seq<T>, ctx: seq<Link<T>>,
                    l: Tree<T>, x: T, r: Tree<T>, ctx': seq<Link<T>>)
    requires Visiting(cmp, reject, s0, log, ctx, l, x, r) && reject(x)
    requires Pre(ctx') == Pre(ctx) + InOrder(l) && Post(ctx') == Post(ctx)
    ensures Working(cmp, reject, s0, log + [x], ctx', r)
  {
    KeepSnoc(reject, log, x);
    Assoc3(log, [x], Rest(ctx, r));
    Assoc3(Pre(ctx) + InOrder(l), [x], Rest(ctx, r));
    SortedWithout(cmp, Pre(ctx) + InOrder(l), x, Rest(ctx, r));
  }

  lemma Start<T>(cmp: (T, T) -> int, reject: T -> bool, t: Tree<T>)
    requires Search(cmp, t)
    ensures Working(cmp, reject, InOrder(t), [], [], t)
  {
    assert [] + Rest([], t) == InOrder(t) && Pre<T>([]) + Rest([], t) == InOrder(t);
  }

  lemma Finish<T>(cmp: (T, T) -> int, reject: T -> bool, s0: seq<T>, log: seq<T>, ctx: seq<Link<T>>)
    requires Working(cmp, reject, s0, log, ctx, Nil) && Up(ctx, Nil).0 == []
    ensures log == s0 && InOrder(Up(ctx, Nil).1) == Keep(reject, s0) && Search(cmp, Up(ctx, Nil).1)
  {
    UpItems(ctx, Nil);
    assert Pre(ctx) + InOrder(Nil) == Pre(ctx) && Rest(ctx, Nil) == [];
    assert log + [] == log && Pre(ctx) + [] == Pre(ctx);
    assert Pre<T>([]) + InOrder(Up(ctx, Nil).1) == InOrder(Up(ctx, Nil).1);
  }

  lemma CancelRight<T>(a: seq<T>, b: seq<T>, c: seq<T>)
    requires a + c == b + c
    ensures a == b
  {
    assert |a| == |b|;
    assert a == (a + c)[..|a|] && b == (b + c)[..|b|];
  }

  // ---------------------------------------------------------------- in memory

  /** The field that holds the place of work. */
  function SpotOf<T>(ctx: seq<Link<Slot<T>>>): Spot {
    if ctx == [] then Root
    else match ctx[|ctx| - 1]
      case Pending(x, _) => Field(x.at, LEFT)
      case Visited(_, x) => Field(x.at, RIGHT)
  }

  /** *node, for a `struct node **node`. */
  function Load<T>(m: Memory<T>, root: nat, spot: Spot): nat {
    if spot.Root? then root else if spot.p in m then m[spot.p].child.At(spot.d) else 0
  }

  function Store<T>(m: Memory<T>, root: nat, spot: Spot, v: nat): (Memory<T>, nat)
    requires spot.Root? || spot.p in m
  {
    if spot.Root? then (m, v) else (SetChild(m, spot.p, spot.d, v), root)
  }

  /** The links from the root down to the place of work, and what hangs beside them. */
  ghost predicate Path<T>(m: Memory<T>, root: nat, ctx: seq<Link<Slot<T>>>) {
    ctx == [] ||
    (var f, rest := ctx[|ctx| - 1], ctx[..|ctx| - 1];
     && Load(m, root, SpotOf(rest)) == f.item.at && Is(m, f.item)
     && Shape(m, if f.Pending? then m[f.item.at].child.right else m[f.item.at].child.left, Beside(f))
     && Path(m, root, rest))
  }

  function Beside<T>(f: Link<T>): Tree<T> { if f.Pending? then f.right else f.left }

  /** The field of the innermost node that waits to be visited; Nowhere if none does. */
  function PrevOf<T>(ctx: seq<Link<Slot<T>>>): Back {
    if ctx == [] then Nowhere
    else if ctx[|ctx| - 1].Pending? then ToSpot(SpotOf(ctx[..|ctx| - 1]))
    else PrevOf(ctx[..|ctx| - 1])
  }

  /** The waiting nodes are chained by their back pointers. */
  ghost predicate Backs<T>(m: Memory<T>, ctx: seq<Link<Slot<T>>>) {
    ctx == [] ||
    (var f, rest := ctx[|ctx| - 1], ctx[..|ctx| - 1];
     && f.item.at in m && (f.Pending? ==> m[f.item.at].back == PrevOf(rest)) && Backs(m, rest))
  }

  function All<T>(ctx: seq<Link<T>>, t: Tree<T>): seq<T> { Pre(ctx) + InOrder(t) + Post(ctx) }

  /** The traversal is at the tree t in the field `node`, with `prev` as its chain. */
  ghost predicate Visits<T>(m: Memory<T>, root: nat, ctx: seq<Link<Slot<T>>>, t: Tree<Slot<T>>, node: Spot, prev: Back) {
    && Path(m, root, ctx) && Backs(m, ctx) && Distinct(All(ctx, t))
    && node == SpotOf(ctx) && prev == PrevOf(ctx) && Shape(m, Load(m, root, node), t)
  }

  ghost function CtxAts<T>(ctx: seq<Link<Slot<T>>>): set<nat> { Ats(Pre(ctx)) + Ats(Post(ctx)) }

  lemma AllApart<T>(ctx: seq<Link<Slot<T>>>, t: Tree<Slot<T>>)
    requires Distinct(All(ctx, t))
    ensures Distinct(InOrder(t)) && CtxAts(ctx) !! Ats(InOrder(t)) && Distinct(All(ctx, Nil))
    ensures Ats(All(ctx, t)) == CtxAts(ctx) + Ats(InOrder(t))
  {
    DistinctSplit(Pre(ctx) + InOrder(t), Post(ctx));
    DistinctSplit(Pre(ctx), InOrder(t));
    AtsOf(Pre(ctx), InOrder(t));
    AtsOf(Pre(ctx) + InOrder(t), Post(ctx));
    DistinctDrop(Pre(ctx), InOrder(t), Post(ctx));
    assert Pre(ctx) + InOrder(Nil) == Pre(ctx);
  }

  lemma DistinctDrop<T>(a: seq<Slot<T>>, b: seq<Slot<T>>, c: seq<Slot<T>>)
    requires Distinct(a + b + c)
    ensures Distinct(a + c)
  {
    DistinctSplit(a + b, c);
    DistinctSplit(a, b);
    AtsOf(a, b);
    DistinctJoin(a, c);
  }

  lemma LinkAts<T>(ctx: seq<Link<Slot<T>>>)
    requires ctx != []
    ensures var f, rest := ctx[|ctx| - 1], ctx[..|ctx| - 1];
            CtxAts(ctx) == CtxAts(rest) + {f.item.at} + Ats(InOrder(Beside(f)))
  {
    var f, rest := ctx[|ctx| - 1], ctx[..|ctx| - 1];
    if f.Pending? {
      AtsOf([f.item] + InOrder(f.right), Post(rest));
      AtsOf([f.item], InOrder(f.right));
    } else {
      AtsOf(Pre(rest) + InOrder(f.left), [f.item]);
      AtsOf(Pre(rest), InOrder(f.left));
    }
    assert Ats([f.item]) == {f.item.at};
  }

  /** The tree at the innermost link. */
  function Joined<T>(f: Link<T>, t: Tree<T>): (u: Tree<T>)
    ensures u.Node? && u.item == f.item
  {
    if f.Pending? then Node(t, f.item, f.right) else Node(f.left, f.item, t)
  }

  /** The innermost link is apart from the others. */
  lemma LinkApart<T>(ctx: seq<Link<Slot<T>>>, t: Tree<Slot<T>>)
    requires ctx != [] && Distinct(All(ctx, t))
    ensures var f, rest := ctx[|ctx| - 1], ctx[..|ctx| - 1];
            && f.item.at !in CtxAts(rest) && f.item.at !in Ats(InOrder(Beside(f)))
            && Distinct(All(rest, Nil)) && All(ctx, t) == All(rest, Joined(f, t))
  {
    var f, rest := ctx[|ctx| - 1], ctx[..|ctx| - 1];
    assert rest + [f] == ctx;
    LinkItems(rest, f, t);
    AllApart(rest, Joined(f, t));
    TreeApart(Joined(f, t));
  }

  lemma LinkItems<T>(rest: seq<Link<T>>, f: Link<T>, t: Tree<T>)
    ensures All(rest + [f], t) == All(rest, Joined(f, t))
  {
    Push(rest, f);
    if f.Pending? {
      Regroup(Pre(rest), InOrder(t), [f.item], InOrder(f.right), Post(rest));
    } else {
      Regroup(Pre(rest), InOrder(f.left), [f.item], InOrder(t), Post(rest));
    }
  }

  lemma {:induction false} PathFrame<T>(m: Memory<T>, m': Memory<T>, root: nat, ctx: seq<Link<Slot<T>>>)
    requires Path(m, root, ctx) && Kept(m, m', CtxAts(ctx))
    ensures Path(m', root, ctx) && Load(m', root, SpotOf(ctx)) == Load(m, root, SpotOf(ctx))
    decreases |ctx|
  {
    if ctx != [] {
      var f, rest := ctx[|ctx| - 1], ctx[..|ctx| - 1];
      LinkAts(ctx);
      ShapeFrame(m, m', if f.Pending? then m[f.item.at].child.right else m[f.item.at].child.left, Beside(f));
      PathFrame(m, m', root, rest);
    }
  }

  lemma {:induction false} BacksFrame<T>(m: Memory<T>, m': Memory<T>, ctx: seq<Link<Slot<T>>>)
    requires Backs(m, ctx) && forall q :: q in CtxAts(ctx) && q in m ==> q in m' && m'[q].back == m[q].back
    ensures Backs(m', ctx)
    decreases |ctx|
  {
    if ctx != [] {
      LinkAts(ctx);
      BacksFrame(m, m', ctx[..|ctx| - 1]);
    }
  }

  /** Storing a pointer in the field at the place of work. */
  lemma StorePath<T>(m: Memory<T>, root: nat, ctx: seq<Link<Slot<T>>>, v: nat)
    requires Path(m, root, ctx) && Distinct(All(ctx, Nil))
    ensures var spot := SpotOf(ctx);
            && (spot.Root? || (spot.p in m && spot.p in CtxAts(ctx)))
            && var w := Store(m, root, spot, v); Path(w.0, w.1, ctx) && Load(w.0, w.1, spot) == v
  {
    if ctx != [] {
      var f, rest := ctx[|ctx| - 1], ctx[..|ctx| - 1];
      LinkAts(ctx);
      LinkApart(ctx, Nil);
      var m' := Store(m, root, SpotOf(ctx), v).0;
      ShapeFrame(m, m', if f.Pending? then m[f.item.at].child.right else m[f.item.at].child.left, Beside(f));
      PathFrame(m, m', root, rest);
    }
  }

  lemma {:induction false} UpPath<T>(m: Memory<T>, root: nat, ctx: seq<Link<Slot<T>>>, t: Tree<Slot<T>>)
    requires Path(m, root, ctx) && Backs(m, ctx) && Shape(m, Load(m, root, SpotOf(ctx)), t)
    ensures var r := Up(ctx, t);
            && Path(m, root, r.0) && Backs(m, r.0) && Shape(m, Load(m, root, SpotOf(r.0)), r.1)
            && PrevOf(r.0) == PrevOf(ctx)
    decreases |ctx|
  {
    if ctx != [] && ctx[|ctx| - 1].Visited? {
      var f, rest := ctx[|ctx| - 1], ctx[..|ctx| - 1];
      var u := Node(f.left, f.item, t);
      assert Shape(m, f.item.at, u);
      UpPath(m, root, rest, u);
    }
  }

  // --------------------------------------------------------------------- steps

  /** Going down to the left: the node remembers the field it came from. */
  lemma Down<T>(m: Memory<T>, root: nat, ctx: seq<Link<Slot<T>>>, t: Tree<Slot<T>>, node: Spot, prev: Back)
    requires Visits(m, root, ctx, t, node, prev) && t.Node?
    ensures var p := Load(m, root, node);
            && p in m && p in Ats(InOrder(t))
            && Visits(SetBack(m, p, prev), root, ctx + [Pending(t.item, t.right)], t.left, Field(p, LEFT), ToSpot(node))
  {
    var p, f := Load(m, root, node), Pending(t.item, t.right);
    var m', ctx' := SetBack(m, p, prev), ctx + [f];
    AllApart(ctx, t);
    TreeApart(t);
    PathFrame(m, m', root, ctx);
    BacksFrame(m, m', ctx);
    ShapeFrame(m, m', p, t);
    assert ctx'[..|ctx'| - 1] == ctx;
    LinkItems(ctx, f, t.left);
  }

  /** Going back to the field of the innermost waiting node. */
  lemma GoUp<T>(m: Memory<T>, root: nat, ctx: seq<Link<Slot<T>>>, node: Spot, prev: Back)
    requires Visits(m, root, ctx, Nil, node, prev) && prev != Nowhere
    ensures var up := Up(ctx, Nil);
            && up.0 != [] && prev.ToSpot?
            && var f, outer := up.0[|up.0| - 1], up.0[..|up.0| - 1];
               var p := Load(m, root, prev.spot);
               p in m && Visits(m, root, outer, Node(up.1, f.item, f.right), prev.spot, m[p].back)
  {
    UpPath(m, root, ctx, Nil);
    UpAll(ctx);
    var up := Up(ctx, Nil);
    var f, outer := up.0[|up.0| - 1], up.0[..|up.0| - 1];
    assert outer + [f] == up.0;
  }

  /** Going on in the right subtree of a node that stays. */
  lemma Right<T>(m: Memory<T>, root: nat, ctx: seq<Link<Slot<T>>>, t: Tree<Slot<T>>, node: Spot, prev: Back)
    requires Visits(m, root, ctx, t, node, prev) && t.Node?
    ensures Visits(m, root, ctx + [Visited(t.left, t.item)], t.right, Field(Load(m, root, node), RIGHT), prev)
  {
    var f := Visited(t.left, t.item);
    var ctx' := ctx + [f];
    assert ctx'[..|ctx'| - 1] == ctx;
    LinkItems(ctx, f, t.right);
  }

  /** Storing at the place of work a pointer to a tree apart from the context. */
  lemma Hooked<T>(m: Memory<T>, root: nat, ctx: seq<Link<Slot<T>>>, v: nat, u: Tree<Slot<T>>)
    requires Path(m, root, ctx) && Backs(m, ctx) && Shape(m, v, u) && Distinct(All(ctx, u))
    ensures var spot := SpotOf(ctx);
            && (spot.Root? || (spot.p in m && spot.p in CtxAts(ctx)))
            && var w := Store(m, root, spot, v); Visits(w.0, w.1, ctx, u, spot, PrevOf(ctx))
  {
    AllApart(ctx, u);
    StorePath(m, root, ctx, v);
    var w := Store(m, root, SpotOf(ctx), v);
    BacksFrame(m, w.0, ctx);
    ShapeFrame(m, w.0, v, u);
  }

  /** Another tree, of some of the nodes, takes the place of t. */
  lemma Replaced<T>(m: Memory<T>, m1: Memory<T>, root: nat, ctx: seq<Link<Slot<T>>>, t: Tree<Slot<T>>, node: Spot, prev: Back,
                    v: nat, u: Tree<Slot<T>>)
    requires Visits(m, root, ctx, t, node, prev) && Shape(m1, v, u) && Distinct(All(ctx, u))
    requires m1.Keys == m.Keys && forall q :: q in m && q !in Ats(InOrder(t)) ==> m1[q] == m[q]
    ensures node.Root? || node.p in m1
    ensures var w := Store(m1, root, node, v);
            Visits(w.0, w.1, ctx, u, node, prev) && w.0.Keys == m1.Keys && forall q :: q in m1 ==> w.0[q].back == m1[q].back
  {
    AllApart(ctx, t);
    PathFrame(m, m1, root, ctx);
    BacksFrame(m, m1, ctx);
    Hooked(m1, root, ctx, v, u);
  }

  // -------------------------------------------------------------------- reject

  function OnSlots<T>(reject: T -> bool): Slot<T> -> bool { (s: Slot<T>) => reject(s.item) }

  /** Where the items are. */
  function Places<T>(s: seq<Slot<T>>): (r: seq<nat>)
    ensures |r| == |s|
  {
    seq(|s|, i requires 0 <= i < |s| => s[i].at)
  }

  lemma {:induction false} StripKeep<T>(reject: T -> bool, s: seq<Slot<T>>)
    ensures Strip(Keep(OnSlots(reject), s)) == Keep(reject, Strip(s))
  {
    if s != [] {
      var q := s[..|s| - 1];
      StripKeep(reject, q);
      assert Strip(s)[..|s| - 1] == Strip(q);
    }
  }

  /** The state of reject between two steps: what is left of the tree and what is on
      the free list are all the nodes. */
  ghost predicate Rejecting<T(!new)>(cmp: (T, T) -> int, reject: T -> bool, s0: seq<Slot<T>>, fs0: seq<nat>, log: seq<Slot<T>>,
                                     m: Memory<T>, root: nat, ctx: seq<Link<Slot<T>>>, t: Tree<Slot<T>>, node: Spot, prev: Back,
                                     head: nat, fs: seq<nat>, unused: nat) {
    && TotalOrder(cmp) && Visits(m, root, ctx, t, node, prev)
    && Working(OnItems(cmp), OnSlots(reject), s0, log, ctx, t)
    && Spare(m, Ats(All(ctx, t)), head, fs, unused)
    && fs == Places(Drop(OnSlots(reject), log)) + fs0
  }

  lemma DownStep<T(!new)>(cmp: (T, T) -> int, reject: T -> bool, s0: seq<Slot<T>>, fs0: seq<nat>, log: seq<Slot<T>>,
                          m: Memory<T>, root: nat, ctx: seq<Link<Slot<T>>>, t: Tree<Slot<T>>, node: Spot, prev: Back,
                          head: nat, fs: seq<nat>, unused: nat)
    requires Rejecting(cmp, reject, s0, fs0, log, m, root, ctx, t, node, prev, head, fs, unused) && t.Node?
    ensures var p := Load(m, root, node);
            && p in m
            && Rejecting(cmp, reject, s0, fs0, log, SetBack(m, p, prev), root, ctx + [Pending(t.item, t.right)], t.left,
                         Field(p, LEFT), ToSpot(node), head, fs, unused)
  {
    var p := Load(m, root, node);
    Down(m, root, ctx, t, node, prev);
    GoLeft(OnItems(cmp), OnSlots(reject), s0, log, ctx, t);
    LinkItems(ctx, Pending(t.item, t.right), t.left);
    AllApart(ctx, t);
    FreeFrame(m, SetBack(m, p, prev), head, fs);
  }

  /** The state at a node that is about to be visited. */
  ghost predicate AtNode<T(!new)>(cmp: (T, T) -> int, reject: T -> bool, s0: seq<Slot<T>>, fs0: seq<nat>, log: seq<Slot<T>>,
                                  m: Memory<T>, root: nat, ctx: seq<Link<Slot<T>>>, t: Tree<Slot<T>>, node: Spot, prev: Back,
                                  head: nat, fs: seq<nat>, unused: nat) {
    && TotalOrder(cmp) && t.Node? && Visits(m, root, ctx, t, node, prev)
    && Visiting(OnItems(cmp), OnSlots(reject), s0, log, ctx, t.left, t.item, t.right)
    && Spare(m, Ats(All(ctx, t)), head, fs, unused)
    && fs == Places(Drop(OnSlots(reject), log)) + fs0
  }

  lemma UpStep<T(!new)>(cmp: (T, T) -> int, reject: T -> bool, s0: seq<Slot<T>>, fs0: seq<nat>, log: seq<Slot<T>>,
                        m: Memory<T>, root: nat, ctx: seq<Link<Slot<T>>>, node: Spot, prev: Back,
                        head: nat, fs: seq<nat>, unused: nat)
    requires Rejecting(cmp, reject, s0, fs0, log, m, root, ctx, Nil, node, prev, head, fs, unused) && prev != Nowhere
    ensures var up := Up(ctx, Nil);
            && up.0 != [] && prev.ToSpot?
            && var f, outer := up.0[|up.0| - 1], up.0[..|up.0| - 1];
               var p := Load(m, root, prev.spot);
               && p in m
               && AtNode(cmp, reject, s0, fs0, log, m, root, outer, Node(up.1, f.item, f.right), prev.spot, m[p].back, head, fs, unused)
               && Rest(ctx, Nil) == [f.item] + Rest(outer, f.right)
  {
    hide TotalOrder, Distinct, Path, Backs, Spare, Sorted;
    GoUp(m, root, ctx, node, prev);
    GoBack(OnItems(cmp), OnSlots(reject), s0, log, ctx);
    UpAll(ctx);
  }

  lemma {:induction false} UpAllItems<T>(ctx: seq<Link<T>>, t: Tree<T>)
    ensures var r := Up(ctx, t); All(r.0, r.1) == All(ctx, t)
    decreases |ctx|
  {
    if ctx != [] && ctx[|ctx| - 1].Visited? {
      var f, rest := ctx[|ctx| - 1], ctx[..|ctx| - 1];
      assert rest + [f] == ctx;
      LinkItems(rest, f, t);
      UpAllItems(rest, Node(f.left, f.item, t));
    }
  }

  lemma UpAll<T>(ctx: seq<Link<T>>)
    requires Up(ctx, Nil).0 != []
    ensures var up := Up(ctx, Nil);
            var f, outer := up.0[|up.0| - 1], up.0[..|up.0| - 1];
            All(outer, Node(up.1, f.item, f.right)) == All(ctx, Nil)
  {
    UpAllItems(ctx, Nil);
    var up := Up(ctx, Nil);
    var f, outer := up.0[|up.0| - 1], up.0[..|up.0| - 1];
    assert outer + [f] == up.0;
    LinkItems(outer, f, up.1);
  }

  lemma KeepStep<T(!new)>(cmp: (T, T) -> int, reject: T -> bool, s0: seq<Slot<T>>, fs0: seq<nat>, log: seq<Slot<T>>,
                          m: Memory<T>, root: nat, ctx: seq<Link<Slot<T>>>, t: Tree<Slot<T>>, node: Spot, prev: Back,
                          head: nat, fs: seq<nat>, unused: nat)
    requires AtNode(cmp, reject, s0, fs0, log, m, root, ctx, t, node, prev, head, fs, unused) && !reject(t.item.item)
    ensures Rejecting(cmp, reject, s0, fs0, log + [t.item], m, root, ctx + [Visited(t.left, t.item)], t.right,
                      Field(Load(m, root, node), RIGHT), prev, head, fs, unused)
    ensures Rest(ctx + [Visited(t.left, t.item)], t.right) == Rest(ctx, t.right)
  {
    hide TotalOrder, Distinct, Path, Backs, Spare, Sorted;
    Right(m, root, ctx, t, node, prev);
    Stays(OnItems(cmp), OnSlots(reject), s0, log, ctx, t.left, t.item, t.right);
    LinkItems(ctx, Visited(t.left, t.item), t.right);
    KeepSnoc(OnSlots(reject), log, t.item);
  }

  /** The subtrees of t, joined, take its place. */
  lemma JoinedAll<T>(ctx: seq<Link<Slot<T>>>, t: Tree<Slot<T>>, u: Tree<Slot<T>>)
    requires Distinct(All(ctx, t)) && t.Node? && InOrder(u) == InOrder(t.left) + InOrder(t.right)
    ensures Distinct(All(ctx, u)) && t.item.at !in Ats(All(ctx, u)) && Ats(All(ctx, t)) == Ats(All(ctx, u)) + {t.item.at}
  {
    var a, b := Pre(ctx) + InOrder(t.left), InOrder(t.right) + Post(ctx);
    Regroup(Pre(ctx), InOrder(t.left), [t.item], InOrder(t.right), Post(ctx));
    assert All(ctx, t) == a + [t.item] + b;
    DistinctWithout(a, t.item, b);
    Halves(Pre(ctx), InOrder(t.left), InOrder(t.right), Post(ctx));
  }

  lemma CutChanges<T>(m: Memory<T>, p: nat, head: nat, mb: Memory<T>, a: set<nat>, b: set<nat>)
    requires p in m && Rewired(SetBack(m, p, ToNode(head)), mb, a) && a <= b && p in b
    ensures mb.Keys == m.Keys && mb[p].back == ToNode(head)
    ensures forall q :: q in m && q !in b ==> mb[q] == m[q]
    ensures forall q :: q in m && q != p ==> mb[q].back == m[q].back
  {
  }

  lemma MoreSpare<T>(m: Memory<T>, m': Memory<T>, ats: set<nat>, head: nat, fs: seq<nat>, unused: nat, p: nat)
    requires Spare(m, ats + {p}, head, fs, unused) && p !in ats && p != 0
    requires m'.Keys == m.Keys && m'[p].back == ToNode(head) && forall q :: q in m && q != p ==> m'[q].back == m[q].back
    ensures Spare(m', ats, p, [p] + fs, unused)
  {
    assert p !in Elems(fs);
    FreeMore(m, m', head, fs, p);
  }

  /** The field of the place of work then holds the joined subtrees, and the node is free. */
  lemma CutOut<T>(m: Memory<T>, root: nat, ctx: seq<Link<Slot<T>>>, t: Tree<Slot<T>>, node: Spot, prev: Back,
                  head: nat, fs: seq<nat>, unused: nat, mb: Memory<T>, q: nat, u: Tree<Slot<T>>)
    requires Visits(m, root, ctx, t, node, prev) && t.Node? && Spare(m, Ats(All(ctx, t)), head, fs, unused)
    requires Rewired(SetBack(m, t.item.at, ToNode(head)), mb, Ats(InOrder(t.left)))
    requires Shape(mb, q, u) && InOrder(u) == InOrder(t.left) + InOrder(t.right)
    ensures node.Root? || node.p in mb
    ensures var w := Store(mb, root, node, q);
            Visits(w.0, w.1, ctx, u, node, prev) && Spare(w.0, Ats(All(ctx, u)), t.item.at, [t.item.at] + fs, unused)
  {
    var p := t.item.at;
    hide Distinct, Spare, Path, Backs;
    JoinedAll(ctx, t, u);
    AllApart(ctx, t);
    TreeApart(t);
    CutChanges(m, p, head, mb, Ats(InOrder(t.left)), Ats(InOrder(t)));
    Replaced(m, mb, root, ctx, t, node, prev, q, u);
    MoreSpare(m, Store(mb, root, node, q).0, Ats(All(ctx, u)), head, fs, unused, p);
  }

  /** Where reject goes on after cutting out t. */
  function NextCtx<T>(ctx: seq<Link<T>>, t: Tree<T>, u: Tree<T>): seq<Link<T>>
    requires t.Node? && (t.left != Nil ==> u.Node?)
  {
    if t.left == Nil then ctx else ctx + [Visited(u.left, u.item)]
  }

  lemma NextWorking<T(!new)>(cmp: (T, T) -> int, reject: T -> bool, s0: seq<T>, log: seq<T>, ctx: seq<Link<T>>, t: Tree<T>, u: Tree<T>)
    requires t.Node? && Visiting(cmp, reject, s0, log, ctx, t.left, t.item, t.right) && reject(t.item)
    requires InOrder(u) == InOrder(t.left) + InOrder(t.right) && (t.left != Nil ==> u.Node? && u.right == t.right)
    ensures var ctx' := NextCtx(ctx, t, u);
            Working(cmp, reject, s0, log + [t.item], ctx', t.right) && Rest(ctx', t.right) == Rest(ctx, t.right)
    ensures t.left != Nil ==> InOrder(t.left) == InOrder(u.left) + [u.item]
  {
    if t.left == Nil {
      assert Pre(ctx) + InOrder(t.left) == Pre(ctx);
    } else {
      Push(ctx, Visited(u.left, u.item));
      CancelRight(InOrder(u.left) + [u.item], InOrder(t.left), InOrder(t.right));
      Assoc3(Pre(ctx), InOrder(u.left), [u.item]);
    }
    Rejected(cmp, reject, s0, log, ctx, t.left, t.item, t.right, NextCtx(ctx, t, u));
  }

  lemma RejectStep<T(!new)>(cmp: (T, T) -> int, reject: T -> bool, s0: seq<Slot<T>>, fs0: seq<nat>, log: seq<Slot<T>>,
                            m: Memory<T>, root: nat, ctx: seq<Link<Slot<T>>>, t: Tree<Slot<T>>, node: Spot, prev: Back,
                            head: nat, fs: seq<nat>, unused: nat, mb: Memory<T>, q: nat, u: Tree<Slot<T>>)
    requires AtNode(cmp, reject, s0, fs0, log, m, root, ctx, t, node, prev, head, fs, unused) && reject(t.item.item)
    requires t.item.at in m && Rewired(SetBack(m, t.item.at, ToNode(head)), mb, Ats(InOrder(t.left)))
    requires Shape(mb, q, u) && InOrder(u) == InOrder(t.left) + InOrder(t.right)
    requires if t.left == Nil then u == t.right else u.Node? && u.right == t.right
    ensures node.Root? || node.p in mb
    ensures var w := Store(mb, root, node, q);
            var ctx' := NextCtx(ctx, t, u);
            && Rejecting(cmp, reject, s0, fs0, log + [t.item], w.0, w.1, ctx', t.right,
                         if t.left == Nil then node else Field(q, RIGHT), prev, t.item.at, [t.item.at] + fs, unused)
            && Rest(ctx', t.right) == Rest(ctx, t.right)
  {
    CutOut(m, root, ctx, t, node, prev, head, fs, unused, mb, q, u);
    NextWorking(OnItems(cmp), OnSlots(reject), s0, log, ctx, t, u);
    DropOne(reject, log, t.item, fs0);
    if t.left != Nil {
      var w := Store(mb, root, node, q);
      Right(w.0, w.1, ctx, u, node, prev);
      LinkItems(ctx, Visited(u.left, u.item), u.right);
    }
  }

  lemma DropOne<T>(reject: T -> bool, log: seq<Slot<T>>, x: Slot<T>, fs0: seq<nat>)
    requires reject(x.item)
    ensures Places(Drop(OnSlots(reject), log + [x])) + fs0 == [x.at] + (Places(Drop(OnSlots(reject), log)) + fs0)
  {
    KeepSnoc(OnSlots(reject), log, x);
  }

  /** What join needs of a node about to be cut out. */
  lemma CutReady<T(!new)>(cmp: (T, T) -> int, reject: T -> bool, s0: seq<Slot<T>>, fs0: seq<nat>, log: seq<Slot<T>>,
                          m: Memory<T>, root: nat, ctx: seq<Link<Slot<T>>>, t: Tree<Slot<T>>, node: Spot, prev: Back,
                          head: nat, fs: seq<nat>, unused: nat)
    requires AtNode(cmp, reject, s0, fs0, log, m, root, ctx, t, node, prev, head, fs, unused)
    ensures var p := Load(m, root, node);
            && TotalOrder(cmp) && p == t.item.at && p in m && (node.Root? || node.p in m) && Shape(m, p, t)
            && Distinct(InOrder(t)) && Search(OnItems(cmp), t)
  {
    SubtreeSorted(OnItems(cmp), OnSlots(reject), s0, log, ctx, t.left, t.item, t.right);
    AllApart(ctx, t);
    AllApart(ctx, Nil);
    StorePath(m, root, ctx, 0);
  }

  /** Frees the node p in the field `node`, and puts its joined subtrees there. */
  method CutHere<T(!new)>(tree: NodeTree<T>, p: nat, node: Spot, ghost t: Tree<Slot<T>>)
      returns (node': Spot, ghost mb: Memory<T>, ghost q: nat, ghost u: Tree<Slot<T>>)
    requires TotalOrder(tree.cmp) && p in tree.mem && (node.Root? || node.p in tree.mem)
    requires Shape(tree.mem, p, t) && t.Node? && Distinct(InOrder(t)) && Search(OnItems(tree.cmp), t)
    modifies tree
    ensures Rewired(SetBack(old(tree.mem), p, ToNode(old(tree.freelist))), mb, Ats(InOrder(t.left)))
    ensures Shape(mb, q, u) && InOrder(u) == InOrder(t.left) + InOrder(t.right)
    ensures if t.left == Nil then u == t.right else u.Node? && u.right == t.right
    ensures (node.Root? || node.p in mb) && (tree.mem, tree.root) == Store(mb, old(tree.root), node, q)
    ensures tree.freelist == p && tree.free == [p] + old(tree.free) && tree.unused == old(tree.unused)
    ensures tree.mem.Keys == old(tree.mem.Keys)
    ensures node' == if t.left == Nil then node else Field(q, RIGHT)
  {
    hide TotalOrder, Search, Distinct, Rewired;
    ghost var m := tree.mem;
    tree.NodeReclaim(p);
    ShapeFrame(m, tree.mem, p, t);
    FocusShape(tree.mem, p, t, LEFT);
    var left, r := tree.mem[p].child.left, 0;
    r, u := tree.Join(p, t);
    q, mb := r, tree.mem;
    var w := Store(tree.mem, tree.root, node, r);
    tree.mem, tree.root := w.0, w.1;
    node' := if left == 0 then node else Field(r, RIGHT);
  }

  /** Takes the node in the field `node` out of the tree. */
  method CutNode<T(!new)>(tree: NodeTree<T>, reject: T -> bool, ghost s0: seq<Slot<T>>, ghost fs0: seq<nat>, ghost log: seq<Slot<T>>,
                          ghost ctx: seq<Link<Slot<T>>>, ghost t: Tree<Slot<T>>, node: Spot, ghost prev: Back)
      returns (node': Spot, ghost ctx': seq<Link<Slot<T>>>)
    requires AtNode(tree.cmp, reject, s0, fs0, log, tree.mem, tree.root, ctx, t, node, prev, tree.freelist, tree.free, tree.unused)
    requires reject(t.item.item)
    modifies tree
    ensures Rejecting(tree.cmp, reject, s0, fs0, log + [t.item], tree.mem, tree.root, ctx', t.right, node', prev,
                      tree.freelist, tree.free, tree.unused)
    ensures Rest(ctx', t.right) == Rest(ctx, t.right) && tree.mem.Keys == old(tree.mem.Keys)
  {
    ghost var m, root, head, fs, unused := tree.mem, tree.root, tree.freelist, tree.free, tree.unused;
    CutReady(tree.cmp, reject, s0, fs0, log, m, root, ctx, t, node, prev, head, fs, unused);
    var p := Load(tree.mem, tree.root, node);
    ghost var mb, q, u;
    node', mb, q, u := CutHere(tree, p, node, t);
    RejectStep(tree.cmp, reject, s0, fs0, log, m, root, ctx, t, node, prev, head, fs, unused, mb, q, u);
    ctx' := NextCtx(ctx, t, u);
  }

  /** Visits the innermost waiting node. */
  method VisitNext<T(!new)>(tree: NodeTree<T>, reject: T -> bool, ghost s0: seq<Slot<T>>, ghost fs0: seq<nat>, ghost log: seq<Slot<T>>,
                            ghost ctx: seq<Link<Slot<T>>>, ghost node: Spot, prev: Back)
      returns (x: T, node': Spot, prev': Back, ghost s: Slot<T>, ghost ctx': seq<Link<Slot<T>>>, ghost t': Tree<Slot<T>>)
    requires Rejecting(tree.cmp, reject, s0, fs0, log, tree.mem, tree.root, ctx, Nil, node, prev, tree.freelist, tree.free, tree.unused)
    requires prev != Nowhere
    modifies tree
    ensures Rejecting(tree.cmp, reject, s0, fs0, log + [s], tree.mem, tree.root, ctx', t', node', prev',
                      tree.freelist, tree.free, tree.unused)
    ensures x == s.item && |Rest(ctx', t')| < |Rest(ctx, Nil)| && tree.mem.Keys == old(tree.mem.Keys)
  {
    ghost var m, root, head, fs, unused := tree.mem, tree.root, tree.freelist, tree.free, tree.unused;
    UpStep(tree.cmp, reject, s0, fs0, log, m, root, ctx, node, prev, head, fs, unused);
    ghost var up := Up(ctx, Nil);
    ghost var f, outer := up.0[|up.0| - 1], up.0[..|up.0| - 1];
    ghost var t := Node(up.1, f.item, f.right);
    node' := prev.spot;
    var p := Load(tree.mem, tree.root, node');
    prev' := tree.mem[p].back;
    FocusShape(m, p, t, LEFT);
    x, s, t' := tree.mem[p].item, f.item, f.right;
    if !reject(x) {
      KeepStep(tree.cmp, reject, s0, fs0, log, m, root, outer, t, node', prev', head, fs, unused);
      node', ctx' := Field(p, RIGHT), outer + [Visited(t.left, t.item)];
    } else {
      node', ctx' := CutNode(tree, reject, s0, fs0, log, outer, t, node', prev');
    }
  }

  /** Goes down to the left subtree of the node in the field `node`. */
  method StepDown<T(!new)>(tree: NodeTree<T>, ghost reject: T -> bool, ghost s0: seq<Slot<T>>, ghost fs0: seq<nat>, ghost log: seq<Slot<T>>,
                           ghost ctx: seq<Link<Slot<T>>>, ghost t: Tree<Slot<T>>, node: Spot, prev: Back)
      returns (node': Spot, prev': Back)
    requires Rejecting(tree.cmp, reject, s0, fs0, log, tree.mem, tree.root, ctx, t, node, prev, tree.freelist, tree.free, tree.unused)
    requires t.Node?
    modifies tree`mem
    ensures Rejecting(tree.cmp, reject, s0, fs0, log, tree.mem, tree.root, ctx + [Pending(t.item, t.right)], t.left, node', prev',
                      tree.freelist, tree.free, tree.unused)
    ensures Rest(ctx + [Pending(t.item, t.right)], t.left) == Rest(ctx, t) && tree.mem.Keys == old(tree.mem.Keys)
  {
    ghost var m := tree.mem;
    DownStep(tree.cmp, reject, s0, fs0, log, m, tree.root, ctx, t, node, prev, tree.freelist, tree.free, tree.unused);
    GoLeft(OnItems(tree.cmp), OnSlots(reject), s0, log, ctx, t);
    var p := Load(tree.mem, tree.root, node);
    tree.mem := SetBack(tree.mem, p, prev);
    node', prev' := Field(p, LEFT), ToSpot(node);
  }

  lemma RejectPlace<T(!new)>(cmp: (T, T) -> int, reject: T -> bool, s0: seq<Slot<T>>, fs0: seq<nat>, log: seq<Slot<T>>,
                             m: Memory<T>, root: nat, ctx: seq<Link<Slot<T>>>, t: Tree<Slot<T>>, node: Spot, prev: Back,
                             head: nat, fs: seq<nat>, unused: nat)
    requires Rejecting(cmp, reject, s0, fs0, log, m, root, ctx, t, node, prev, head, fs, unused)
    ensures Load(m, root, node) != 0 <==> t.Node?
  {
  }

  method RejectAll<T(!new)>(tree: NodeTree<T>, reject: T -> bool, ghost s0: seq<Slot<T>>, ghost fs0: seq<nat>, ghost t0: Tree<Slot<T>>)
      returns (log: seq<T>, ghost t': Tree<Slot<T>>)
    requires Rejecting(tree.cmp, reject, s0, fs0, [], tree.mem, tree.root, [], t0, Root, Nowhere, tree.freelist, tree.free, tree.unused)
    modifies tree
    ensures log == Strip(s0) && InOrder(t') == Keep(OnSlots(reject), s0)
    ensures tree.free == Places(Drop(OnSlots(reject), s0)) + fs0 && tree.mem.Keys == old(tree.mem.Keys)
    ensures Sound(tree.cmp, tree.mem, tree.root, t', tree.freelist, tree.free, tree.unused)
  {
    hide Rejecting, Sound;
    ghost var ctx: seq<Link<Slot<T>>>, t, slots: seq<Slot<T>> := [], t0, [];
    log := [];
    var node, prev: Back := Root, Nowhere;
    while prev != Nowhere || Load(tree.mem, tree.root, node) != 0
      invariant Rejecting(tree.cmp, reject, s0, fs0, slots, tree.mem, tree.root, ctx, t, node, prev,
                          tree.freelist, tree.free, tree.unused)
      invariant log == Strip(slots) && tree.mem.Keys == old(tree.mem.Keys)
      decreases |Rest(ctx, t)|, t
    {
      RejectPlace(tree.cmp, reject, s0, fs0, slots, tree.mem, tree.root, ctx, t, node, prev, tree.freelist, tree.free, tree.unused);
      if Load(tree.mem, tree.root, node) != 0 {
        node, prev := StepDown(tree, reject, s0, fs0, slots, ctx, t, node, prev);
        ctx, t := ctx + [Pending(t.item, t.right)], t.left;
      } else {
        var x;
        ghost var s;
        x, node, prev, s, ctx, t := VisitNext(tree, reject, s0, fs0, slots, ctx, node, prev);
        StripAppend(slots, [s]);
        log, slots := log + [x], slots + [s];
      }
    }
    RejectEnds(tree.cmp, reject, s0, fs0, slots, tree.mem, tree.root, ctx, t, node, tree.freelist, tree.free, tree.unused);
    t' := Up(ctx, Nil).1;
  }

  method RejectFrom<T(!new)>(tree: NodeTree<T>, reject: T -> bool, ghost t0: Tree<Slot<T>>) returns (log: seq<T>, ghost t': Tree<Slot<T>>)
    requires Sound(tree.cmp, tree.mem, tree.root, t0, tree.freelist, tree.free, tree.unused)
    modifies tree
    ensures log == Strip(InOrder(t0)) && Strip(InOrder(t')) == Keep(reject, log)
    ensures tree.free == Places(Drop(OnSlots(reject), InOrder(t0))) + old(tree.free) && tree.mem.Keys == old(tree.mem.Keys)
    ensures Sound(tree.cmp, tree.mem, tree.root, t', tree.freelist, tree.free, tree.unused)
  {
    ghost var s0 := InOrder(t0);
    StripKeep(reject, s0);
    RejectStarts(tree.cmp, reject, tree.mem, tree.root, t0, tree.freelist, tree.free, tree.unused);
    log, t' := RejectAll(tree, reject, s0, tree.free, t0);
  }

  /** Removes the rejected items.  The predicate is called once per item, in
      ascending order (`log`); what is left is a search tree of the kept items, and
      the nodes of the others are on the free list. */
  method Reject<T(!new)>(tree: NodeTree<T>, reject: T -> bool) returns (log: seq<T>)
    requires tree.Valid()
    modifies tree
    ensures tree.Valid() && log == old(tree.Items()) && tree.Items() == Keep(reject, old(tree.Items()))
    ensures tree.free == Places(Drop(OnSlots(reject), InOrder(old(tree.tree)))) + old(tree.free)
    ensures tree.mem.Keys == old(tree.mem.Keys)
  {
    ghost var t;
    log, t := RejectFrom(tree, reject, tree.tree);
    tree.Become(t);
  }

  lemma RejectStarts<T(!new)>(cmp: (T, T) -> int, reject: T -> bool, m: Memory<T>, root: nat, t: Tree<Slot<T>>, head: nat, fs: seq<nat>, unused: nat)
    requires Sound(cmp, m, root, t, head, fs, unused)
    ensures Rejecting(cmp, reject, InOrder(t), fs, [], m, root, [], t, Root, Nowhere, head, fs, unused)
  {
    hide TotalOrder, Search, Distinct, Shape, FreeList, Working, Visits;
    Start(OnItems(cmp), OnSlots(reject), t);
    VisitStarts(m, root, t);
    NoneDropped(reject, fs);
  }

  lemma VisitStarts<T>(m: Memory<T>, root: nat, t: Tree<Slot<T>>)
    requires Shape(m, root, t) && Distinct(InOrder(t))
    ensures Visits(m, root, [], t, Root, Nowhere) && All([], t) == InOrder(t)
  {
    hide Shape, Distinct;
    assert All([], t) == InOrder(t);
  }

  lemma NoneDropped<T>(reject: T -> bool, fs: seq<nat>)
    ensures Places(Drop(OnSlots(reject), [])) + fs == fs
  {
  }

  lemma RejectEnds<T(!new)>(cmp: (T, T) -> int, reject: T -> bool, s0: seq<Slot<T>>, fs0: seq<nat>, log: seq<Slot<T>>,
                            m: Memory<T>, root: nat, ctx: seq<Link<Slot<T>>>, t: Tree<Slot<T>>, node: Spot,
                            head: nat, fs: seq<nat>, unused: nat)
    requires Rejecting(cmp, reject, s0, fs0, log, m, root, ctx, t, node, Nowhere, head, fs, unused) && Load(m, root, node) == 0
    ensures fs == Places(Drop(OnSlots(reject), s0)) + fs0
    ensures t == Nil && log == s0 && InOrder(Up(ctx, Nil).1) == Keep(OnSlots(reject), s0)
    ensures Sound(cmp, m, root, Up(ctx, Nil).1, head, fs, unused)
  {
    UpPath(m, root, ctx, t);
    UpAllItems(ctx, Nil);
    var up := Up(ctx, Nil);
    assert All([], up.1) == InOrder(up.1);
    Finish(OnItems(cmp), OnSlots(reject), s0, log, ctx);
  }
}
