/** Visiting every item: the way back is kept in the back pointers. */
module SplayEach {
  import opened Splay
  import opened SplayNodes
  import opened SplayTree
  import opened SplayTraverse

  /** The nodes that wait to be visited, innermost last: each points back to the next,
      and its right subtree is untouched. */
  ghost predicate Chain<T>(m: Memory<T>, prev: nat, ctx: seq<Link<Slot<T>>>)
    decreases |ctx|
  {
    if ctx == [] then prev == 0
    else
      var f := ctx[|ctx| - 1];
      && f.Pending? && prev == f.item.at && Is(m, f.item) && Shape(m, m[prev].child.right, f.right)
      && m[prev].back.ToNode? && Chain(m, m[prev].back.p, ctx[..|ctx| - 1])
  }

  lemma PostAts<T>(ctx: seq<Link<Slot<T>>>)
    requires ctx != [] && ctx[|ctx| - 1].Pending?
    ensures var f := ctx[|ctx| - 1];
            Ats(Post(ctx)) == {f.item.at} + Ats(InOrder(f.right)) + Ats(Post(ctx[..|ctx| - 1]))
  {
    var f := ctx[|ctx| - 1];
    AtsOf([f.item] + InOrder(f.right), Post(ctx[..|ctx| - 1]));
    AtsOf([f.item], InOrder(f.right));
    assert Ats([f.item]) == {f.item.at};
  }

  /** A change of the back pointer of p only. */
  ghost predicate BackOf<T>(m: Memory<T>, m': Memory<T>, p: nat) {
    m'.Keys == m.Keys && forall q :: q in m ==>
      m'[q].item == m[q].item && m'[q].child == m[q].child && (q != p ==> m'[q].back == m[q].back)
  }

  lemma {:induction false} ChainFrame<T>(m: Memory<T>, m': Memory<T>, prev: nat, ctx: seq<Link<Slot<T>>>, p: nat)
    requires Chain(m, prev, ctx) && BackOf(m, m', p) && p !in Ats(Post(ctx))
    ensures Chain(m', prev, ctx)
    decreases |ctx|
  {
    if ctx != [] {
      PostAts(ctx);
      ShapeFrame(m, m', m[prev].child.right, ctx[|ctx| - 1].right);
      ChainFrame(m, m', m[prev].back.p, ctx[..|ctx| - 1], p);
    }
  }

  /** The items of `log` have been visited, those of t and of the chain follow. */
  ghost predicate Going<T>(m: Memory<T>, prev: nat, node: nat, ctx: seq<Link<Slot<T>>>, t: Tree<Slot<T>>, s0: seq<Slot<T>>, log: seq<Slot<T>>) {
    Chain(m, prev, ctx) && Shape(m, node, t) && log + Rest(ctx, t) == s0 && Distinct(s0)
  }

  lemma EachDown<T>(m: Memory<T>, prev: nat, node: nat, ctx: seq<Link<Slot<T>>>, t: Tree<Slot<T>>, s0: seq<Slot<T>>, log: seq<Slot<T>>)
    requires Going(m, prev, node, ctx, t, s0, log) && t.Node?
    ensures node in m && node in Ats(s0)
    ensures var m', ctx' := SetBack(m, node, ToNode(prev)), ctx + [Pending(t.item, t.right)];
            Going(m', node, m[node].child.left, ctx', t.left, s0, log) && Rest(ctx', t.left) == Rest(ctx, t)
  {
    var m', ctx' := SetBack(m, node, ToNode(prev)), ctx + [Pending(t.item, t.right)];
    assert ctx'[..|ctx'| - 1] == ctx;
    Push(ctx, Pending(t.item, t.right));
    Regroup4(InOrder(t.left), [t.item], InOrder(t.right), Post(ctx));
    DistinctSplit(log, Rest(ctx, t));
    DistinctSplit(InOrder(t), Post(ctx));
    AtsOf(log, Rest(ctx, t));
    AtsOf(InOrder(t), Post(ctx));
    TreeApart(t);
    ShapeFrame(m, m', node, t);
    ChainFrame(m, m', prev, ctx, node);
  }

  lemma EachUp<T>(m: Memory<T>, prev: nat, ctx: seq<Link<Slot<T>>>, s0: seq<Slot<T>>, log: seq<Slot<T>>)
    requires Going(m, prev, 0, ctx, Nil, s0, log) && prev != 0
    ensures ctx != [] && prev in m && m[prev].back.ToNode?
    ensures var f, rest := ctx[|ctx| - 1], ctx[..|ctx| - 1];
            && m[prev].item == f.item.item && f.Pending?
            && Going(m, m[prev].back.p, m[prev].child.right, rest, f.right, s0, log + [f.item])
            && Rest(ctx, Nil) == [f.item] + Rest(rest, f.right)
  {
    RestOne(ctx, log, s0);
    assert Shape(m, 0, Nil);
  }

  lemma RestOne<T>(ctx: seq<Link<T>>, log: seq<T>, s0: seq<T>)
    requires ctx != [] && ctx[|ctx| - 1].Pending? && log + Rest(ctx, Nil) == s0
    ensures var f, rest := ctx[|ctx| - 1], ctx[..|ctx| - 1];
            Rest(ctx, Nil) == [f.item] + Rest(rest, f.right) && log + [f.item] + Rest(rest, f.right) == s0
  {
    var f, rest := ctx[|ctx| - 1], ctx[..|ctx| - 1];
    Regroup4([], [f.item], InOrder(f.right), Post(rest));
    Assoc3(log, [f.item], Rest(rest, f.right));
  }

  /** A change of back pointers of the nodes at `ats` only. */
  ghost predicate BacksOf<T>(m: Memory<T>, m': Memory<T>, ats: set<nat>) {
    m'.Keys == m.Keys && forall q :: q in m ==>
      m'[q].item == m[q].item && m'[q].child == m[q].child && (q !in ats ==> m'[q].back == m[q].back)
  }

  lemma OneMore<T>(m: Memory<T>, m': Memory<T>, ats: set<nat>, p: nat, b: Back)
    requires BacksOf(m, m', ats) && p in ats && p in m'
    ensures BacksOf(m, SetBack(m', p, b), ats)
  {
  }

  /** Back pointers of tree nodes may be anything. */
  lemma BacksFree<T(!new)>(cmp: (T, T) -> int, m: Memory<T>, m': Memory<T>, root: nat, t: Tree<Slot<T>>, head: nat, fs: seq<nat>, unused: nat)
    requires Sound(cmp, m, root, t, head, fs, unused) && BacksOf(m, m', Ats(InOrder(t)))
    ensures Sound(cmp, m', root, t, head, fs, unused)
  {
    ShapeFrame(m, m', root, t);
    FreeFrame(m, m', head, fs);
  }

  /** Visits every item once, in ascending order (`log`). */
  method Each<T(!new)>(tree: NodeTree<T>) returns (log: seq<T>)
    requires tree.Valid()
    modifies tree`mem
    ensures tree.Valid() && log == tree.Items()
  {
    ghost var m0, t0 := tree.mem, tree.tree;
    ghost var ctx: seq<Link<Slot<T>>>, t, slots: seq<Slot<T>> := [], t0, [];
    var node, prev := tree.root, 0;
    log := [];
    assert slots + Rest(ctx, t) == InOrder(t0);
    while prev != 0 || node != 0
      invariant Going(tree.mem, prev, node, ctx, t, InOrder(t0), slots) && log == Strip(slots)
      invariant BacksOf(m0, tree.mem, Ats(InOrder(t0)))
      decreases |Rest(ctx, t)|, t
    {
      if node != 0 {
        EachDown(tree.mem, prev, node, ctx, t, InOrder(t0), slots);
        OneMore(m0, tree.mem, Ats(InOrder(t0)), node, ToNode(prev));
        tree.mem := SetBack(tree.mem, node, ToNode(prev));
        prev, node := node, tree.mem[node].child.left;
        ctx, t := ctx + [Pending(t.item, t.right)], t.left;
      } else {
        EachUp(tree.mem, prev, ctx, InOrder(t0), slots);
        ghost var f := ctx[|ctx| - 1];
        StripAppend(slots, [f.item]);
        node, prev := prev, tree.mem[prev].back.p;
        log, slots := log + [tree.mem[node].item], slots + [f.item];
        node := tree.mem[node].child.right;
        ctx, t := ctx[..|ctx| - 1], f.right;
      }
    }
    assert slots == InOrder(t0);
    BacksFree(tree.cmp, m0, tree.mem, tree.root, t0, tree.freelist, tree.free, tree.unused);
  }
}
