/** Rebuilding the tree after its keys have changed. */
module SplayRebuild {
  import opened Splay
  import opened SplayNodes
  import opened SplayTree
  import opened SplayTraverse

  function PostOrder<T>(t: Tree<T>): seq<T> {
    match t
    case Nil => []
    case Node(l, x, r) => PostOrder(l) + PostOrder(r) + [x]
  }

  lemma {:induction false} SameItems<T>(t: Tree<T>)
    ensures multiset(PostOrder(t)) == multiset(InOrder(t))
  {
    if t.Node? {
      SameItems(t.left);
      SameItems(t.right);
    }
  }

  /** A node on the chain of back pointers; `gone` when the traversal has been in
      its right subtree, which the code sees from the node it handled last. */
  datatype Turn<T> = Turn(item: T, right: Tree<T>, gone: bool)

  /** The items of the nodes on the chain, and of what hangs below them. */
  function Todo<T>(chain: seq<Turn<T>>): seq<T> {
    if chain == [] then []
    else
      var f := chain[|chain| - 1];
      (if f.gone then [] else PostOrder(f.right)) + [f.item] + Todo(chain[..|chain| - 1])
  }

  lemma Chained<T>(chain: seq<Turn<T>>, f: Turn<T>)
    ensures Todo(chain + [f]) == (if f.gone then [] else PostOrder(f.right)) + [f.item] + Todo(chain)
  {
    assert (chain + [f])[..|chain|] == chain;
  }

  /** s' has the items of s and k. */
  ghost predicate Adds<T>(s: seq<T>, s': seq<T>, k: T) { multiset(s') == multiset(s) + multiset{k} }

  lemma InsertedOne<T>(s: seq<T>, a: seq<T>, b: seq<T>, k: T)
    requires a + b == s
    ensures Adds(s, a + [k] + b, k)
  {
    assert multiset(s) == multiset(a) + multiset(b);
  }

  ghost predicate AllKeys<T>(cmp: (T, T) -> int, log: seq<T>, s: seq<T>) {
    forall x {:trigger HasKey(cmp, s, x)} :: x in log ==> HasKey(cmp, s, x)
  }

  lemma KeysGrow<T>(cmp: (T, T) -> int, log: seq<T>, s: seq<T>, s': seq<T>, k: T)
    requires AllKeys(cmp, log, s) && (forall y :: y in s ==> y in s') && HasKey(cmp, s', k)
    ensures AllKeys(cmp, log + [k], s')
  {
    forall x | x in log + [k] ensures HasKey(cmp, s', x) {
      if x in log {
        assert HasKey(cmp, s, x);
        var y :| y in s && cmp(x, y) == 0;
        assert y in s';
      }
    }
  }

  /** Of the items handled, those whose key had not been handled before ... */
  ghost function Kept<T>(cmp: (T, T) -> int, log: seq<T>): seq<T> {
    if log == [] then []
    else
      var n := |log| - 1;
      Kept(cmp, log[..n]) + if HasKey(cmp, log[..n], log[n]) then [] else [log[n]]
  }

  /** ... and the others, last one first. */
  ghost function Dropped<T>(cmp: (T, T) -> int, log: seq<T>): seq<T> {
    if log == [] then []
    else
      var n := |log| - 1;
      (if HasKey(cmp, log[..n], log[n]) then [log[n]] else []) + Dropped(cmp, log[..n])
  }

  lemma LogOne<T>(cmp: (T, T) -> int, log: seq<T>, k: T)
    ensures Kept(cmp, log + [k]) == Kept(cmp, log) + if HasKey(cmp, log, k) then [] else [k]
    ensures Dropped(cmp, log + [k]) == (if HasKey(cmp, log, k) then [k] else []) + Dropped(cmp, log)
  {
    assert (log + [k])[..|log|] == log;
  }

  lemma {:induction false} KeptAndDropped<T>(cmp: (T, T) -> int, log: seq<T>)
    ensures multiset(Kept(cmp, log)) + multiset(Dropped(cmp, log)) == multiset(log)
  {
    if log != [] {
      var n := |log| - 1;
      assert log == log[..n] + [log[n]];
      KeptAndDropped(cmp, log[..n]);
    }
  }

  lemma KeptIn<T>(cmp: (T, T) -> int, log: seq<T>, x: T)
    requires x in multiset(Kept(cmp, log))
    ensures x in log
  {
    KeptAndDropped(cmp, log);
    assert x in multiset(log);
  }

  /** An item stays in the tree iff no other with its key is handled before it. */
  lemma {:induction false} KeptIsFirst<T>(cmp: (T, T) -> int, log: seq<T>, i: nat)
    requires i < |log| && forall j :: 0 <= j < |log| && j != i ==> log[j] != log[i]
    ensures log[i] in Kept(cmp, log) <==> !HasKey(cmp, log[..i], log[i])
  {
    var n := |log| - 1;
    if i < n {
      KeptIsFirst(cmp, log[..n], i);
      assert log[..n][..i] == log[..i];
    } else if log[n] in Kept(cmp, log[..n]) {
      KeptIn(cmp, log[..n], log[n]);
      assert false;
    }
  }

  /** The new tree has the first item of every key handled so far; the others were
      given back. */
  ghost predicate Rebuilt<T>(cmp: (T, T) -> int, log: seq<T>, t: Tree<T>, freed: seq<T>) {
    && Search(cmp, t)
    && multiset(InOrder(t)) == multiset(Kept(cmp, log)) && freed == Dropped(cmp, log)
    && AllKeys(cmp, log, InOrder(t))
  }

  lemma SelfEqual<T(!new)>(cmp: (T, T) -> int, k: T)
    requires TotalOrder(cmp)
    ensures cmp(k, k) == 0
  {
    assert Pair(cmp, k, k);
  }

  /** The keys handled so far are those of the new tree. */
  lemma SameKeys<T(!new)>(cmp: (T, T) -> int, log: seq<T>, t: Tree<T>, freed: seq<T>, k: T)
    requires TotalOrder(cmp) && Rebuilt(cmp, log, t, freed)
    ensures HasKey(cmp, log, k) <==> HasKey(cmp, InOrder(t), k)
  {
    if HasKey(cmp, InOrder(t), k) {
      var x :| x in InOrder(t) && cmp(k, x) == 0;
      assert x in multiset(InOrder(t));
      KeptIn(cmp, log, x);
    }
    if HasKey(cmp, log, k) {
      var x :| x in log && cmp(k, x) == 0;
      assert HasKey(cmp, InOrder(t), x);
      var y :| y in InOrder(t) && cmp(x, y) == 0;
      assert Triple(cmp, k, x, y) && Triple(cmp, y, x, k) && Pair(cmp, k, x) && Pair(cmp, x, k) && Pair(cmp, x, y) && Pair(cmp, y, x);
      assert Pair(cmp, k, y) && Pair(cmp, y, k);
    }
  }

  lemma TakenIn<T(!new)>(cmp: (T, T) -> int, log: seq<T>, t: Tree<T>, t': Tree<T>, freed: seq<T>, k: T)
    requires TotalOrder(cmp) && Rebuilt(cmp, log, t, freed) && Search(cmp, t') && Adds(InOrder(t), InOrder(t'), k)
    requires !HasKey(cmp, InOrder(t), k)
    ensures Rebuilt(cmp, log + [k], t', freed)
  {
    var s, s' := InOrder(t), InOrder(t');
    SameKeys(cmp, log, t, freed, k);
    LogOne(cmp, log, k);
    SelfEqual(cmp, k);
    assert k in multiset(s');
    assert k in s';
    forall y | y in s ensures y in s' { assert y in multiset(s'); }
    KeysGrow(cmp, log, s, s', k);
  }

  lemma GivenBack<T(!new)>(cmp: (T, T) -> int, log: seq<T>, t: Tree<T>, t': Tree<T>, freed: seq<T>, k: T)
    requires TotalOrder(cmp) && Rebuilt(cmp, log, t, freed) && Search(cmp, t') && InOrder(t') == InOrder(t)
    requires HasKey(cmp, InOrder(t), k)
    ensures Rebuilt(cmp, log + [k], t', [k] + freed)
  {
    SameKeys(cmp, log, t, freed, k);
    LogOne(cmp, log, k);
    KeysGrow(cmp, log, InOrder(t), InOrder(t'), k);
  }

  /** The items handled so far, and those still to come, are the old tree's. */
  ghost predicate Traversing<T>(t0: Tree<T>, log: seq<T>, node: Tree<T>, chain: seq<Turn<T>>) {
    log + Ahead(node, chain) == PostOrder(t0)
  }

  /** What is still to come. */
  function Ahead<T>(node: Tree<T>, chain: seq<Turn<T>>): seq<T> { PostOrder(node) + Todo(chain) }

  lemma Handled<T>(t0: Tree<T>, log: seq<T>, chain: seq<Turn<T>>)
    requires Traversing(t0, log, Nil, chain) && chain != []
    requires var f := chain[|chain| - 1]; f.right == Nil || f.gone
    ensures var f, rest := chain[|chain| - 1], chain[..|chain| - 1];
            && Traversing(t0, log + [f.item], Nil, rest)
            && |Ahead(Nil, chain)| == 1 + |Ahead(Nil, rest)|
  {
    var f, rest := chain[|chain| - 1], chain[..|chain| - 1];
    assert Todo(chain) == [f.item] + Todo(rest);
    assert log + (PostOrder(Nil) + Todo(chain)) == log + [f.item] + (PostOrder(Nil) + Todo(rest));
  }

  lemma Begin<T>(cmp: (T, T) -> int, t0: Tree<T>)
    ensures Traversing(t0, [], t0, []) && Rebuilt(cmp, [], Nil, [])
  {
    assert PostOrder(t0) + [] == PostOrder(t0);
  }

  lemma Done<T>(cmp: (T, T) -> int, t0: Tree<T>, log: seq<T>, t: Tree<T>, freed: seq<T>)
    requires Traversing(t0, log, Nil, []) && Rebuilt(cmp, log, t, freed)
    ensures multiset(InOrder(t)) + multiset(freed) == multiset(InOrder(t0)) && AllKeys(cmp, InOrder(t0), InOrder(t))
    ensures multiset(InOrder(t)) == multiset(Kept(cmp, PostOrder(t0))) && freed == Dropped(cmp, PostOrder(t0))
  {
    SameItems(t0);
    assert log == PostOrder(t0);
    KeptAndDropped(cmp, log);
    forall x | x in InOrder(t0) ensures x in log { assert x in multiset(InOrder(t0)); }
    assert forall x :: x in log ==> HasKey(cmp, InOrder(t), x);
  }

  /** Decreases when the traversal moves down without handling a node. */
  function Weight<T>(node: Tree<T>, chain: seq<Turn<T>>): nat { Size(node) + Open(chain) }

  function Size<T>(t: Tree<T>): nat { match t case Nil => 0 case Node(l, _, r) => 2 + Size(l) + Size(r) }

  function Open<T>(chain: seq<Turn<T>>): nat {
    if chain == [] then 0
    else
      var f := chain[|chain| - 1];
      (if f.gone then 0 else 1 + Size(f.right)) + Open(chain[..|chain| - 1])
  }

  lemma Descend<T>(node: Tree<T>, chain: seq<Turn<T>>)
    requires node.Node?
    ensures var c := chain + [Turn(node.item, node.right, false)];
            Ahead(node.left, c) == Ahead(node, chain) && Weight(node.left, c) < Weight(node, chain)
  {
    var f := Turn(node.item, node.right, false);
    Chained(chain, f);
    assert (chain + [f])[..|chain|] == chain;
  }

  lemma Aside<T>(f: Turn<T>, rest: seq<Turn<T>>)
    requires !f.gone
    ensures var c := rest + [Turn(f.item, f.right, true)];
            Ahead(f.right, c) == Ahead(Nil, rest + [f]) && Weight(f.right, c) < Weight(Nil, rest + [f])
  {
    var g := Turn(f.item, f.right, true);
    Chained(rest, f);
    Chained(rest, g);
    assert (rest + [f])[..|rest|] == rest && (rest + [g])[..|rest|] == rest;
  }

  // ---------------------------------------------------------------- in memory

  /** The nodes on the way down, innermost last, each pointing back to the next.  Of a
      node that has been turned to its right subtree the right field still holds the
      node next on the chain, or else `above`. */
  ghost predicate Turns<T>(m: Memory<T>, prev: nat, chain: seq<Turn<Slot<T>>>, above: nat)
    decreases |chain|
  {
    if chain == [] then prev == 0
    else
      var f := chain[|chain| - 1];
      && prev == f.item.at && Is(m, f.item)
      && (if f.gone then m[prev].child.right == above != 0 else Shape(m, m[prev].child.right, f.right))
      && m[prev].back.ToNode? && Turns(m, m[prev].back.p, chain[..|chain| - 1], prev)
  }

  lemma {:induction false} PostAts<T>(t: Tree<Slot<T>>)
    ensures Ats(PostOrder(t)) == Ats(InOrder(t))
  {
    if t.Node? {
      PostAts(t.left);
      PostAts(t.right);
      AtsOf(PostOrder(t.left) + PostOrder(t.right), [t.item]);
      AtsOf(PostOrder(t.left), PostOrder(t.right));
      AtsOf(InOrder(t.left) + [t.item], InOrder(t.right));
      AtsOf(InOrder(t.left), [t.item]);
    }
  }

  lemma TodoAts<T>(chain: seq<Turn<Slot<T>>>)
    requires chain != []
    ensures var f, rest := chain[|chain| - 1], chain[..|chain| - 1];
            Ats(Todo(chain)) == {f.item.at} + (if f.gone then {} else Ats(InOrder(f.right))) + Ats(Todo(rest))
  {
    var f, rest := chain[|chain| - 1], chain[..|chain| - 1];
    var a := if f.gone then [] else PostOrder(f.right);
    PostAts(f.right);
    AtsOf(a + [f.item], Todo(rest));
    AtsOf(a, [f.item]);
    assert Ats([f.item]) == {f.item.at};
  }

  lemma {:induction false} TurnsFrame<T>(m: Memory<T>, m': Memory<T>, prev: nat, chain: seq<Turn<Slot<T>>>, above: nat)
    requires Turns(m, prev, chain, above) && forall q :: q in Ats(Todo(chain)) && q in m ==> q in m' && m'[q] == m[q]
    ensures Turns(m', prev, chain, above)
    decreases |chain|
  {
    if chain != [] {
      var f := chain[|chain| - 1];
      TodoAts(chain);
      if !f.gone { ShapeFrame(m, m', m[prev].child.right, f.right); }
      TurnsFrame(m, m', m[prev].back.p, chain[..|chain| - 1], prev);
    }
  }

  /** What is left of the old tree, from the place of work on. */
  ghost predicate Old<T>(m: Memory<T>, node: nat, prev: nat, last: nat, chain: seq<Turn<Slot<T>>>, t: Tree<Slot<T>>) {
    && Turns(m, prev, chain, if t.Node? then node else last) && Shape(m, node, t)
    && Distinct(Ahead(t, chain)) && last !in Ats(Ahead(t, chain))
  }

  lemma AheadApart<T>(t: Tree<Slot<T>>, chain: seq<Turn<Slot<T>>>)
    requires Distinct(Ahead(t, chain))
    ensures Ats(InOrder(t)) !! Ats(Todo(chain)) && Ats(Ahead(t, chain)) == Ats(InOrder(t)) + Ats(Todo(chain))
    ensures t.Node? ==> t.item.at !in Ats(InOrder(t.left)) && t.item.at !in Ats(InOrder(t.right)) && t.item.at in Ats(InOrder(t))
  {
    PostAts(t);
    DistinctSplit(PostOrder(t), Todo(chain));
    AtsOf(PostOrder(t), Todo(chain));
    if t.Node? {
      assert PostOrder(t) == (PostOrder(t.left) + PostOrder(t.right)) + [t.item];
      DistinctSplit(PostOrder(t.left) + PostOrder(t.right), [t.item]);
      AtsOf(PostOrder(t.left), PostOrder(t.right));
      PostAts(t.left);
      PostAts(t.right);
      assert t.item.at in Ats([t.item]) && t.item in InOrder(t);
    }
  }

  lemma OldDown<T>(m: Memory<T>, node: nat, prev: nat, last: nat, chain: seq<Turn<Slot<T>>>, t: Tree<Slot<T>>)
    requires Old(m, node, prev, last, chain, t) && t.Node?
    ensures node in m && node in Ats(Ahead(t, chain))
    ensures Old(SetBack(m, node, ToNode(prev)), m[node].child.left, node, last, chain + [Turn(t.item, t.right, false)], t.left)
  {
    var m', chain' := SetBack(m, node, ToNode(prev)), chain + [Turn(t.item, t.right, false)];
    assert chain'[..|chain'| - 1] == chain;
    AheadApart(t, chain);
    Descend(t, chain);
    ShapeFrame(m, m', node, t);
    TurnsFrame(m, m', prev, chain, node);
  }

  /** The test against `last` tells whether the right subtree has been handled. */
  lemma TestTells<T>(m: Memory<T>, prev: nat, last: nat, chain: seq<Turn<Slot<T>>>)
    requires Old(m, 0, prev, last, chain, Nil) && chain != []
    ensures prev in m && m[prev].back.ToNode?
    ensures var f := chain[|chain| - 1];
            var right := m[prev].child.right;
            (right != 0 && right != last <==> !f.gone && f.right != Nil) && (!f.gone ==> Shape(m, right, f.right))
  {
    var f := chain[|chain| - 1];
    TodoAts(chain);
    assert Ahead(Nil, chain) == Todo(chain);
    if !f.gone && f.right != Nil { assert f.right.item in InOrder(f.right); }
  }

  lemma OldTurn<T>(m: Memory<T>, prev: nat, last: nat, chain: seq<Turn<Slot<T>>>)
    requires Old(m, 0, prev, last, chain, Nil) && chain != []
    requires var f := chain[|chain| - 1]; !f.gone && f.right != Nil
    ensures prev in m
    ensures var f, rest := chain[|chain| - 1], chain[..|chain| - 1];
            Old(m, m[prev].child.right, prev, last, rest + [Turn(f.item, f.right, true)], f.right)
  {
    var f, rest := chain[|chain| - 1], chain[..|chain| - 1];
    assert rest + [f] == chain;
    Aside(f, rest);
    var chain' := rest + [Turn(f.item, f.right, true)];
    assert chain'[..|chain'| - 1] == rest;
  }

  lemma LessAhead<T>(chain: seq<Turn<Slot<T>>>)
    requires chain != [] && Distinct(Ahead(Nil, chain))
    requires var f := chain[|chain| - 1]; f.gone || f.right == Nil
    ensures var p, rest := chain[|chain| - 1].item.at, chain[..|chain| - 1];
            && Ats(Ahead(Nil, chain)) == Ats(Ahead(Nil, rest)) + {p} && p !in Ats(Ahead(Nil, rest))
            && Distinct(Ahead(Nil, rest))
  {
    var f, rest := chain[|chain| - 1], chain[..|chain| - 1];
    assert Ahead(Nil, chain) == [f.item] + Ahead(Nil, rest);
    DistinctSplit([f.item], Ahead(Nil, rest));
    AtsOf([f.item], Ahead(Nil, rest));
    assert Ats([f.item]) == {f.item.at};
  }

  /** A handled node leaves the old tree, whatever becomes of it and of the new tree. */
  lemma OldLess<T>(m: Memory<T>, m': Memory<T>, prev: nat, last: nat, chain: seq<Turn<Slot<T>>>)
    requires Old(m, 0, prev, last, chain, Nil) && chain != []
    requires var f := chain[|chain| - 1]; f.gone || f.right == Nil
    requires prev in m && m[prev].back.ToNode? && forall q :: q in Ats(Ahead(Nil, chain)) && q in m && q != prev ==> q in m' && m'[q] == m[q]
    ensures var rest := chain[..|chain| - 1];
            && Old(m', 0, m[prev].back.p, prev, rest, Nil)
            && Ats(Ahead(Nil, chain)) == Ats(Ahead(Nil, rest)) + {prev} && prev !in Ats(Ahead(Nil, rest))
  {
    hide Distinct, InOrder;
    LessAhead(chain);
    var rest := chain[..|chain| - 1];
    assert Ahead(Nil, rest) == Todo(rest);
    TurnsFrame(m, m', m[prev].back.p, rest, prev);
  }

  // --------------------------------------------------------------- insert_node

  /** The nodes after the insertion of the node s. */
  lemma NodeInserted<T(!new)>(cmp: (T, T) -> int, n: int, cs: Two<seq<Frame<Slot<T>>>>, t: Tree<Slot<T>>, s: Slot<T>)
    requires TotalOrder(cmp) && n != 0 && Stopped(cmp, s.item, n, cs, t)
    requires Splits(OnItems(cmp), Slot(0, s.item), cs.left, t, cs.right)
    ensures var u := Assemble(Placed(n, s, t), cs.left, cs.right);
            var items := Parts(cs.left, t, cs.right);
            Search(OnItems(cmp), u) && Adds(items, InOrder(u), s)
  {
    var items := Parts(cs.left, t, cs.right);
    OnItemsOrder(cmp);
    SplitsAt(cmp, s.item, cs, t, s.at);
    if t == Nil {
      assert items == [];
      assert InOrder(Assemble(Placed(n, s, t), cs.left, cs.right)) == [s];
      InsertedOne([], [], [], s);
    } else {
      PlaceItems(OnItems(cmp), s, cs.left, t, cs.right);
      InsertSorted(OnItems(cmp), items, s);
      KeptWhole(OnItems(cmp), s, cs.left, t, cs.right);
      InsertedOne(items, Below(OnItems(cmp), items, s), Above(OnItems(cmp), items, s), s);
    }
  }

  /** Only nodes at `ats` have changed, and only in their children. */
  lemma StillRewired<T>(m: Memory<T>, m': Memory<T>, ats: set<nat>, p: nat, c: Two<nat>)
    requires Rewired(m, m', ats) && p in m' && p in ats
    ensures Rewired(m, SetChildren(m', p, c), ats)
  {
  }

  /** Inserts the node p unless there is one with an equal key. */
  method InsertNode<T(!new)>(tree: NodeTree<T>, p: nat) returns (n: int)
    requires TotalOrder(tree.cmp) && Planted(tree.cmp, tree.mem, tree.root, tree.tree)
    requires p in tree.mem && p != 0 && p !in Ats(InOrder(tree.tree))
    modifies tree`mem, tree`root, tree`tree
    ensures Planted(tree.cmp, tree.mem, tree.root, tree.tree)
    ensures n == 0 <==> HasKey(OnItems(tree.cmp), InOrder(old(tree.tree)), Slot(p, old(tree.mem)[p].item))
    ensures if n == 0 then InOrder(tree.tree) == InOrder(old(tree.tree))
            else Adds(InOrder(old(tree.tree)), InOrder(tree.tree), Slot(p, old(tree.mem)[p].item))
    ensures Rewired(old(tree.mem), tree.mem, Ats(InOrder(old(tree.tree))) + {p})
  {
    ghost var m0, t0, ats := tree.mem, tree.tree, Ats(InOrder(tree.tree));
    var k := tree.mem[p].item;
    ghost var s := Slot(p, k);
    var q, res, hole;
    ghost var cs, t;
    n, q, res, hole, cs, t := tree.Locate(k);
    StoppedTells(tree.cmp, k, m0, t0, tree.mem, n, res, q, cs, t);
    StripHas(tree.cmp, InOrder(t0), s);
    RewiredWider(m0, tree.mem, ats, ats + {p});
    var r := q;
    if n != 0 {
      r := p;
      PlacedHeld(tree.mem, res, q, cs, t, n, p);
      PlacedParts(n, s, cs, t);
      NodeInserted(tree.cmp, n, cs, t, s);
      StillRewired(m0, tree.mem, ats + {p}, p, Two(0, 0).Put(Opp(DirOf(n)), q));
      tree.mem := SetChildren(tree.mem, p, Two(0, 0).Put(Opp(DirOf(n)), q));
      t := Placed(n, s, t);
    }
    AssembleItems(t, cs.left, cs.right);
    Plant(tree, r, res, hole, cs, t, m0, ats + {p});
  }

  /** Assembles the new tree. */
  method Plant<T(!new)>(tree: NodeTree<T>, p: nat, res: Two<nat>, hole: Two<nat>, ghost cs: Two<seq<Frame<Slot<T>>>>, ghost t: Tree<Slot<T>>,
                        ghost m0: Memory<T>, ghost ats: set<nat>)
    requires Held(tree.mem, res, p, cs, t) && t.Node? && hole == Tops(cs)
    requires Rewired(m0, tree.mem, ats) && Ats(Parts(cs.left, t, cs.right)) <= ats
    requires Search(OnItems(tree.cmp), Assemble(t, cs.left, cs.right))
    modifies tree`mem, tree`root, tree`tree
    ensures Planted(tree.cmp, tree.mem, tree.root, tree.tree) && tree.tree == Assemble(t, cs.left, cs.right)
    ensures Rewired(m0, tree.mem, ats)
  {
    ghost var m1 := tree.mem;
    AssembleItems(t, cs.left, cs.right);
    AroundIn(cs, t, p);
    tree.AssembleAt(p, res, hole, cs, t);
    RewiredTrans(m0, m1, tree.mem, ats, Around(cs, p));
    RewiredWider(m0, tree.mem, ats + Around(cs, p), ats);
    tree.root, tree.tree := p, Assemble(t, cs.left, cs.right);
  }

  /** A search tree in memory. */
  ghost predicate Planted<T(!new)>(cmp: (T, T) -> int, m: Memory<T>, root: nat, t: Tree<Slot<T>>) {
    Shape(m, root, t) && Distinct(InOrder(t)) && Search(OnItems(cmp), t)
  }

  lemma AroundIn<T>(cs: Two<seq<Frame<Slot<T>>>>, t: Tree<Slot<T>>, p: nat)
    requires Distinct(Parts(cs.left, t, cs.right)) && t.Node? && t.item.at == p
    ensures Around(cs, p) <= Ats(Parts(cs.left, t, cs.right))
  {
    Apart(cs, t, LEFT);
    TreeApart(t);
  }

  // ------------------------------------------------------------------- rebuild

  /** The old tree shrinks while the new one grows: every node is in one of them or on
      the free list. */
  ghost predicate Redo<T(!new)>(cmp: (T, T) -> int, fs0: seq<nat>, t0: Tree<Slot<T>>, log: seq<Slot<T>>, freed: seq<Slot<T>>,
                                m: Memory<T>, node: nat, prev: nat, last: nat, chain: seq<Turn<Slot<T>>>, t: Tree<Slot<T>>,
                                root: nat, u: Tree<Slot<T>>, head: nat, fs: seq<nat>, unused: nat) {
    && TotalOrder(cmp) && Old(m, node, prev, last, chain, t) && Traversing(t0, log, t, chain)
    && Planted(cmp, m, root, u) && Ats(InOrder(u)) !! Ats(Ahead(t, chain))
    && Rebuilt(OnItems(cmp), log, u, freed)
    && Spare(m, Ats(Ahead(t, chain)) + Ats(InOrder(u)), head, fs, unused)
    && fs == Places(freed) + fs0
  }

  lemma RedoDown<T(!new)>(cmp: (T, T) -> int, fs0: seq<nat>, t0: Tree<Slot<T>>, log: seq<Slot<T>>, freed: seq<Slot<T>>,
                          m: Memory<T>, node: nat, prev: nat, last: nat, chain: seq<Turn<Slot<T>>>, t: Tree<Slot<T>>,
                          root: nat, u: Tree<Slot<T>>, head: nat, fs: seq<nat>, unused: nat)
    requires Redo(cmp, fs0, t0, log, freed, m, node, prev, last, chain, t, root, u, head, fs, unused) && t.Node?
    ensures node in m
    ensures Redo(cmp, fs0, t0, log, freed, SetBack(m, node, ToNode(prev)), m[node].child.left, node, last,
                 chain + [Turn(t.item, t.right, false)], t.left, root, u, head, fs, unused)
  {
    OldDown(m, node, prev, last, chain, t);
    Descend(t, chain);
    var m' := SetBack(m, node, ToNode(prev));
    ShapeFrame(m, m', root, u);
    FreeFrame(m, m', head, fs);
  }

  lemma RedoTurn<T(!new)>(cmp: (T, T) -> int, fs0: seq<nat>, t0: Tree<Slot<T>>, log: seq<Slot<T>>, freed: seq<Slot<T>>,
                          m: Memory<T>, prev: nat, last: nat, chain: seq<Turn<Slot<T>>>,
                          root: nat, u: Tree<Slot<T>>, head: nat, fs: seq<nat>, unused: nat)
    requires Redo(cmp, fs0, t0, log, freed, m, 0, prev, last, chain, Nil, root, u, head, fs, unused) && chain != []
    requires var f := chain[|chain| - 1]; !f.gone && f.right != Nil
    ensures prev in m
    ensures var f, rest := chain[|chain| - 1], chain[..|chain| - 1];
            Redo(cmp, fs0, t0, log, freed, m, m[prev].child.right, prev, last, rest + [Turn(f.item, f.right, true)], f.right,
                 root, u, head, fs, unused)
  {
    hide TotalOrder, Planted, Traversing, Rebuilt, Spare;
    var f, rest := chain[|chain| - 1], chain[..|chain| - 1];
    OldTurn(m, prev, last, chain);
    assert rest + [f] == chain;
    Aside(f, rest);
    SameAhead(cmp, fs0, t0, log, freed, m, 0, prev, last, chain, Nil, root, u, head, fs, unused,
              m[prev].child.right, rest + [Turn(f.item, f.right, true)], f.right);
  }

  /** The traversal has moved without handling a node. */
  lemma SameAhead<T(!new)>(cmp: (T, T) -> int, fs0: seq<nat>, t0: Tree<Slot<T>>, log: seq<Slot<T>>, freed: seq<Slot<T>>,
                           m: Memory<T>, node: nat, prev: nat, last: nat, chain: seq<Turn<Slot<T>>>, t: Tree<Slot<T>>,
                           root: nat, u: Tree<Slot<T>>, head: nat, fs: seq<nat>, unused: nat,
                           node': nat, chain': seq<Turn<Slot<T>>>, t': Tree<Slot<T>>)
    requires Redo(cmp, fs0, t0, log, freed, m, node, prev, last, chain, t, root, u, head, fs, unused)
    requires Old(m, node', prev, last, chain', t') && Ahead(t', chain') == Ahead(t, chain)
    ensures Redo(cmp, fs0, t0, log, freed, m, node', prev, last, chain', t', root, u, head, fs, unused)
  {
  }

  /** The node prev leaves the old tree; the new tree may have been changed. */
  lemma Leaves<T(!new)>(m: Memory<T>, prev: nat, last: nat, chain: seq<Turn<Slot<T>>>, ats: set<nat>, m1: Memory<T>, b: Back)
    requires Old(m, 0, prev, last, chain, Nil) && chain != [] && ats !! Ats(Ahead(Nil, chain))
    requires var f := chain[|chain| - 1]; (f.gone || f.right == Nil) && prev in m && m[prev].back.ToNode?
    requires Rewired(m, m1, ats + {prev})
    ensures var rest := chain[..|chain| - 1];
            && Old(m1, 0, m[prev].back.p, prev, rest, Nil) && Old(SetBack(m1, prev, b), 0, m[prev].back.p, prev, rest, Nil)
            && Ats(Ahead(Nil, chain)) == Ats(Ahead(Nil, rest)) + {prev} && prev !in Ats(Ahead(Nil, rest)) && prev != 0
            && chain[|chain| - 1].item.at == prev
  {
    OldLess(m, m1, prev, last, chain);
    OldLess(m, SetBack(m1, prev, b), prev, last, chain);
  }

  lemma FreedPlaces<T>(s: Slot<T>, freed: seq<Slot<T>>, fs0: seq<nat>)
    ensures Places([s] + freed) + fs0 == [s.at] + (Places(freed) + fs0)
  {
  }

  lemma FreedSpare<T>(m: Memory<T>, m1: Memory<T>, p: nat, a: set<nat>, b: set<nat>, head: nat, fs: seq<nat>, unused: nat)
    requires Rewired(m, m1, b + {p}) && p in m && p != 0 && p !in a && p !in b
    requires Spare(m, a + {p} + b, head, fs, unused)
    ensures Spare(SetBack(m1, p, ToNode(head)), a + b, p, [p] + fs, unused)
  {
    assert a + {p} + b == a + b + {p};
    MoreSpare(m, SetBack(m1, p, ToNode(head)), a + b, head, fs, unused, p);
  }

  /** The node prev has been given back. */
  lemma RedoFree<T(!new)>(cmp: (T, T) -> int, fs0: seq<nat>, t0: Tree<Slot<T>>, log: seq<Slot<T>>, freed: seq<Slot<T>>,
                          m: Memory<T>, prev: nat, last: nat, chain: seq<Turn<Slot<T>>>,
                          root: nat, u: Tree<Slot<T>>, head: nat, fs: seq<nat>, unused: nat,
                          m1: Memory<T>, root': nat, u': Tree<Slot<T>>)
    requires Redo(cmp, fs0, t0, log, freed, m, 0, prev, last, chain, Nil, root, u, head, fs, unused) && chain != []
    requires var f := chain[|chain| - 1]; (f.gone || f.right == Nil) && prev in m && m[prev].back.ToNode?
    requires Rewired(m, m1, Ats(InOrder(u)) + {prev}) && Planted(cmp, m1, root', u')
    requires HasKey(OnItems(cmp), InOrder(u), chain[|chain| - 1].item) && InOrder(u') == InOrder(u)
    ensures var s, rest := chain[|chain| - 1].item, chain[..|chain| - 1];
            Redo(cmp, fs0, t0, log + [s], [s] + freed, SetBack(m1, prev, ToNode(head)), 0, m[prev].back.p, prev, rest, Nil,
                 root', u', prev, [prev] + fs, unused)
  {
    hide TotalOrder, Search, Distinct, Old, Traversing, Rebuilt, Spare;
    OnItemsOrder(cmp);
    var s, rest := chain[|chain| - 1].item, chain[..|chain| - 1];
    var m2 := SetBack(m1, prev, ToNode(head));
    Leaves(m, prev, last, chain, Ats(InOrder(u)), m1, ToNode(head));
    Handled(t0, log, chain);
    ShapeFrame(m1, m2, root', u');
    GivenBack(OnItems(cmp), log, u, u', freed, s);
    FreedSpare(m, m1, prev, Ats(Ahead(Nil, rest)), Ats(InOrder(u)), head, fs, unused);
    FreedPlaces(s, freed, fs0);
  }

  /** The node prev has been inserted in the new tree. */
  lemma RedoTaken<T(!new)>(cmp: (T, T) -> int, fs0: seq<nat>, t0: Tree<Slot<T>>, log: seq<Slot<T>>, freed: seq<Slot<T>>,
                          m: Memory<T>, prev: nat, last: nat, chain: seq<Turn<Slot<T>>>,
                          root: nat, u: Tree<Slot<T>>, head: nat, fs: seq<nat>, unused: nat,
                          m1: Memory<T>, root': nat, u': Tree<Slot<T>>)
    requires Redo(cmp, fs0, t0, log, freed, m, 0, prev, last, chain, Nil, root, u, head, fs, unused) && chain != []
    requires var f := chain[|chain| - 1]; (f.gone || f.right == Nil) && prev in m && m[prev].back.ToNode?
    requires Rewired(m, m1, Ats(InOrder(u)) + {prev}) && Planted(cmp, m1, root', u')
    requires Adds(InOrder(u), InOrder(u'), chain[|chain| - 1].item) && !HasKey(OnItems(cmp), InOrder(u), chain[|chain| - 1].item)
    ensures var s, rest := chain[|chain| - 1].item, chain[..|chain| - 1];
            Redo(cmp, fs0, t0, log + [s], freed, m1, 0, m[prev].back.p, prev, rest, Nil, root', u', head, fs, unused)
  {
    hide TotalOrder, Search, Distinct, Shape, Old, Traversing, Rebuilt, Spare, Ahead, Todo, PostOrder, InOrder;
    var s := chain[|chain| - 1].item;
    Leaves(m, prev, last, chain, Ats(InOrder(u)), m1, Nowhere);
    Handled(t0, log, chain);
    OnItemsOrder(cmp);
    TakenIn(OnItems(cmp), log, u, u', freed, s);
    AddsAts(InOrder(u), InOrder(u'), s);
    SpareFrame(m, m1, Ats(Ahead(Nil, chain)) + Ats(InOrder(u)), head, fs, unused);
    assert Ats(Ahead(Nil, chain)) + Ats(InOrder(u)) == Ats(Ahead(Nil, chain[..|chain| - 1])) + Ats(InOrder(u'));
  }

  lemma AddsAts<T>(s: seq<Slot<T>>, s': seq<Slot<T>>, x: Slot<T>)
    requires Adds(s, s', x)
    ensures Ats(s') == Ats(s) + {x.at}
  {
    forall y ensures y in s' <==> y in s || y == x {
      assert y in s' <==> y in multiset(s');
      assert y in s <==> y in multiset(s);
    }
  }

  /** The node prev, whose subtrees have been handled, goes into the new tree or back
      to the free list. */
  method HandleNode<T(!new)>(tree: NodeTree<T>, ghost fs0: seq<nat>, ghost t0: Tree<Slot<T>>, ghost log: seq<Slot<T>>, ghost freed: seq<Slot<T>>,
                             prev: nat, ghost last: nat, ghost chain: seq<Turn<Slot<T>>>) returns (prev': nat, ghost freed': seq<Slot<T>>)
    requires Redo(tree.cmp, fs0, t0, log, freed, tree.mem, 0, prev, last, chain, Nil, tree.root, tree.tree,
                  tree.freelist, tree.free, tree.unused) && chain != []
    requires var f := chain[|chain| - 1]; f.gone || f.right == Nil
    modifies tree
    ensures Redo(tree.cmp, fs0, t0, log + [chain[|chain| - 1].item], freed', tree.mem, 0, prev', prev, chain[..|chain| - 1], Nil,
                 tree.root, tree.tree, tree.freelist, tree.free, tree.unused)
    ensures tree.mem.Keys == old(tree.mem.Keys)
  {
    hide Redo;
    ghost var m, root, u, head, fs := tree.mem, tree.root, tree.tree, tree.freelist, tree.free;
    ghost var unused := tree.unused;
    HandleReady(tree.cmp, fs0, t0, log, freed, m, prev, last, chain, root, u, head, fs, unused);
    prev', freed' := tree.mem[prev].back.p, freed;
    var n := InsertNode(tree, prev);
    ghost var m1, root1, u1 := tree.mem, tree.root, tree.tree;
    if n == 0 {
      RedoFree(tree.cmp, fs0, t0, log, freed, m, prev, last, chain, root, u, head, fs, unused, m1, root1, u1);
      tree.NodeReclaim(prev);
      freed' := [chain[|chain| - 1].item] + freed;
    } else {
      RedoTaken(tree.cmp, fs0, t0, log, freed, m, prev, last, chain, root, u, head, fs, unused, m1, root1, u1);
    }
  }

  lemma HandleReady<T(!new)>(cmp: (T, T) -> int, fs0: seq<nat>, t0: Tree<Slot<T>>, log: seq<Slot<T>>, freed: seq<Slot<T>>,
                             m: Memory<T>, prev: nat, last: nat, chain: seq<Turn<Slot<T>>>,
                             root: nat, u: Tree<Slot<T>>, head: nat, fs: seq<nat>, unused: nat)
    requires Redo(cmp, fs0, t0, log, freed, m, 0, prev, last, chain, Nil, root, u, head, fs, unused) && chain != []
    ensures TotalOrder(cmp) && Planted(cmp, m, root, u) && prev in m && prev != 0 && prev !in Ats(InOrder(u))
    ensures m[prev].back.ToNode? && chain[|chain| - 1].item == Slot(prev, m[prev].item)
  {
    TodoAts(chain);
    assert Ahead(Nil, chain) == Todo(chain);
  }

  method GoDown<T(!new)>(tree: NodeTree<T>, ghost fs0: seq<nat>, ghost t0: Tree<Slot<T>>, ghost log: seq<Slot<T>>, ghost freed: seq<Slot<T>>,
                         node: nat, prev: nat, ghost last: nat, ghost chain: seq<Turn<Slot<T>>>, ghost t: Tree<Slot<T>>)
      returns (node': nat, prev': nat)
    requires Redo(tree.cmp, fs0, t0, log, freed, tree.mem, node, prev, last, chain, t, tree.root, tree.tree,
                  tree.freelist, tree.free, tree.unused) && t.Node?
    modifies tree`mem
    ensures var chain' := chain + [Turn(t.item, t.right, false)];
            && Redo(tree.cmp, fs0, t0, log, freed, tree.mem, node', prev', last, chain', t.left,
                    tree.root, tree.tree, tree.freelist, tree.free, tree.unused)
            && Ahead(t.left, chain') == Ahead(t, chain) && Weight(t.left, chain') < Weight(t, chain)
    ensures tree.mem.Keys == old(tree.mem.Keys)
  {
    hide Redo;
    ghost var m := tree.mem;
    RedoDown(tree.cmp, fs0, t0, log, freed, m, node, prev, last, chain, t, tree.root, tree.tree,
             tree.freelist, tree.free, tree.unused);
    Descend(t, chain);
    tree.mem := SetBack(tree.mem, node, ToNode(prev));
    node', prev' := tree.mem[node].child.left, node;
  }

  lemma RedoTests<T(!new)>(cmp: (T, T) -> int, fs0: seq<nat>, t0: Tree<Slot<T>>, log: seq<Slot<T>>, freed: seq<Slot<T>>,
                           m: Memory<T>, prev: nat, last: nat, chain: seq<Turn<Slot<T>>>,
                           root: nat, u: Tree<Slot<T>>, head: nat, fs: seq<nat>, unused: nat)
    requires Redo(cmp, fs0, t0, log, freed, m, 0, prev, last, chain, Nil, root, u, head, fs, unused) && chain != []
    ensures prev in m && m[prev].back.ToNode?
    ensures var f := chain[|chain| - 1];
            var right := m[prev].child.right;
            right != 0 && right != last <==> !f.gone && f.right != Nil
    ensures Traversing(t0, log, Nil, chain)
  {
    TestTells(m, prev, last, chain);
  }

  /** At a missing subtree: on to the right, or the node is finished with. */
  method GoOn<T(!new)>(tree: NodeTree<T>, ghost fs0: seq<nat>, ghost t0: Tree<Slot<T>>, ghost log: seq<Slot<T>>, ghost freed: seq<Slot<T>>,
                       prev: nat, last: nat, ghost chain: seq<Turn<Slot<T>>>)
      returns (node': nat, prev': nat, last': nat, ghost log': seq<Slot<T>>, ghost freed': seq<Slot<T>>,
               ghost chain': seq<Turn<Slot<T>>>, ghost t': Tree<Slot<T>>)
    requires Redo(tree.cmp, fs0, t0, log, freed, tree.mem, 0, prev, last, chain, Nil, tree.root, tree.tree,
                  tree.freelist, tree.free, tree.unused) && chain != []
    modifies tree
    ensures Redo(tree.cmp, fs0, t0, log', freed', tree.mem, node', prev', last', chain', t', tree.root, tree.tree,
                 tree.freelist, tree.free, tree.unused)
    ensures |Ahead(t', chain')| < |Ahead(Nil, chain)|
         || (|Ahead(t', chain')| == |Ahead(Nil, chain)| && Weight(t', chain') < Weight(Nil, chain))
    ensures tree.mem.Keys == old(tree.mem.Keys)
  {
    hide Redo;
    ghost var m := tree.mem;
    RedoTests(tree.cmp, fs0, t0, log, freed, m, prev, last, chain, tree.root, tree.tree, tree.freelist, tree.free, tree.unused);
    ghost var f, rest := chain[|chain| - 1], chain[..|chain| - 1];
    assert rest + [f] == chain;
    var right := tree.mem[prev].child.right;
    if right != 0 && right != last {
      RedoTurn(tree.cmp, fs0, t0, log, freed, m, prev, last, chain, tree.root, tree.tree, tree.freelist, tree.free, tree.unused);
      Aside(f, rest);
      node', prev', last', log', freed' := right, prev, last, log, freed;
      chain', t' := rest + [Turn(f.item, f.right, true)], f.right;
    } else {
      Handled(t0, log, chain);
      prev', freed' := HandleNode(tree, fs0, t0, log, freed, prev, last, chain);
      node', last', log', chain', t' := 0, prev, log + [f.item], rest, Nil;
    }
  }

  lemma RedoPlace<T(!new)>(cmp: (T, T) -> int, fs0: seq<nat>, t0: Tree<Slot<T>>, log: seq<Slot<T>>, freed: seq<Slot<T>>,
                           m: Memory<T>, node: nat, prev: nat, last: nat, chain: seq<Turn<Slot<T>>>, t: Tree<Slot<T>>,
                           root: nat, u: Tree<Slot<T>>, head: nat, fs: seq<nat>, unused: nat)
    requires Redo(cmp, fs0, t0, log, freed, m, node, prev, last, chain, t, root, u, head, fs, unused)
    ensures (node != 0 <==> t.Node?) && (prev != 0 <==> chain != [])
  {
  }

  method RebuildAll<T(!new)>(tree: NodeTree<T>, start: nat, ghost fs0: seq<nat>, ghost t0: Tree<Slot<T>>) returns (ghost freed: seq<Slot<T>>)
    requires Redo(tree.cmp, fs0, t0, [], [], tree.mem, start, 0, 0, [], t0, tree.root, tree.tree, tree.freelist, tree.free, tree.unused)
    modifies tree
    ensures tree.Valid() && tree.mem.Keys == old(tree.mem.Keys) && tree.free == Places(freed) + fs0
    ensures multiset(InOrder(tree.tree)) + multiset(freed) == multiset(InOrder(t0))
    ensures multiset(InOrder(tree.tree)) == multiset(Kept(OnItems(tree.cmp), PostOrder(t0)))
    ensures freed == Dropped(OnItems(tree.cmp), PostOrder(t0))
    ensures AllKeys(OnItems(tree.cmp), InOrder(t0), InOrder(tree.tree))
  {
    hide Redo, Sound;
    ghost var t, chain: seq<Turn<Slot<T>>>, log := t0, [], [];
    var node, prev, last := start, 0, 0;
    freed := [];
    while prev != 0 || node != 0
      invariant Redo(tree.cmp, fs0, t0, log, freed, tree.mem, node, prev, last, chain, t, tree.root, tree.tree,
                     tree.freelist, tree.free, tree.unused)
      invariant tree.mem.Keys == old(tree.mem.Keys)
      decreases |Ahead(t, chain)|, Weight(t, chain)
    {
      RedoPlace(tree.cmp, fs0, t0, log, freed, tree.mem, node, prev, last, chain, t, tree.root, tree.tree,
                tree.freelist, tree.free, tree.unused);
      if node != 0 {
        node, prev := GoDown(tree, fs0, t0, log, freed, node, prev, last, chain, t);
        chain, t := chain + [Turn(t.item, t.right, false)], t.left;
      } else {
        node, prev, last, log, freed, chain, t := GoOn(tree, fs0, t0, log, freed, prev, last, chain);
      }
    }
    RedoEnds(tree.cmp, fs0, t0, log, freed, tree.mem, last, chain, t, tree.root, tree.tree, tree.freelist, tree.free, tree.unused);
  }

  /** The keys of the items may have changed in any way since they were inserted: the
      old tree need not be a search tree.  The new one has one node per key, the first
      one in post-order; the nodes of the other items (`freed`) are on the free list, the
      last one in front. */
  method Rebuild<T(!new)>(tree: NodeTree<T>) returns (ghost freed: seq<Slot<T>>)
    requires TotalOrder(tree.cmp) && Spare(tree.mem, Ats(InOrder(tree.tree)), tree.freelist, tree.free, tree.unused)
    requires Shape(tree.mem, tree.root, tree.tree) && Distinct(InOrder(tree.tree))
    modifies tree
    ensures tree.Valid() && tree.mem.Keys == old(tree.mem.Keys) && tree.free == Places(freed) + old(tree.free)
    ensures multiset(InOrder(tree.tree)) + multiset(freed) == multiset(InOrder(old(tree.tree)))
    ensures multiset(InOrder(tree.tree)) == multiset(Kept(OnItems(tree.cmp), PostOrder(old(tree.tree))))
    ensures freed == Dropped(OnItems(tree.cmp), PostOrder(old(tree.tree)))
    ensures AllKeys(OnItems(tree.cmp), InOrder(old(tree.tree)), InOrder(tree.tree))
  {
    hide Redo, Sound, Shape, Distinct, Spare, TotalOrder;
    ghost var t0, fs0 := tree.tree, tree.free;
    var start := tree.root;
    tree.root, tree.tree := 0, Nil;
    RedoStarts(tree.cmp, tree.mem, start, t0, tree.freelist, tree.free, tree.unused);
    freed := RebuildAll(tree, start, fs0, t0);
  }

  lemma RedoStarts<T(!new)>(cmp: (T, T) -> int, m: Memory<T>, root: nat, t: Tree<Slot<T>>, head: nat, fs: seq<nat>, unused: nat)
    requires TotalOrder(cmp) && Shape(m, root, t) && Distinct(InOrder(t)) && Spare(m, Ats(InOrder(t)), head, fs, unused)
    ensures Redo(cmp, fs, t, [], [], m, root, 0, 0, [], t, 0, Nil, head, fs, unused)
  {
    Begin(OnItems(cmp), t);
    PostAts(t);
    PostDistinct(t);
    assert Ahead(t, []) == PostOrder(t);
    assert Places<T>([]) + fs == fs;
  }

  lemma {:induction false} PostDistinct<T>(t: Tree<Slot<T>>)
    requires Distinct(InOrder(t))
    ensures Distinct(PostOrder(t))
  {
    if t.Node? {
      TreeApart(t);
      PostDistinct(t.left);
      PostDistinct(t.right);
      PostAts(t.left);
      PostAts(t.right);
      DistinctJoin(PostOrder(t.left), PostOrder(t.right));
      AtsOf(PostOrder(t.left), PostOrder(t.right));
      DistinctJoin(PostOrder(t.left) + PostOrder(t.right), [t.item]);
    }
  }

  lemma RedoEnds<T(!new)>(cmp: (T, T) -> int, fs0: seq<nat>, t0: Tree<Slot<T>>, log: seq<Slot<T>>, freed: seq<Slot<T>>,
                          m: Memory<T>, last: nat, chain: seq<Turn<Slot<T>>>, t: Tree<Slot<T>>,
                          root: nat, u: Tree<Slot<T>>, head: nat, fs: seq<nat>, unused: nat)
    requires Redo(cmp, fs0, t0, log, freed, m, 0, 0, last, chain, t, root, u, head, fs, unused)
    ensures Sound(cmp, m, root, u, head, fs, unused) && fs == Places(freed) + fs0
    ensures multiset(InOrder(u)) + multiset(freed) == multiset(InOrder(t0))
    ensures multiset(InOrder(u)) == multiset(Kept(OnItems(cmp), PostOrder(t0))) && freed == Dropped(OnItems(cmp), PostOrder(t0))
    ensures AllKeys(OnItems(cmp), InOrder(t0), InOrder(u))
  {
    hide TotalOrder, Shape, Distinct, Rebuilt, Traversing, Old, Search, Spare;
    EndsEmpty(m, last, chain, t);
    Done(OnItems(cmp), t0, log, u, freed);
    assert {} + Ats(InOrder(u)) == Ats(InOrder(u));
    NewSound(cmp, m, root, u, head, fs, unused);
  }

  lemma EndsEmpty<T>(m: Memory<T>, last: nat, chain: seq<Turn<Slot<T>>>, t: Tree<Slot<T>>)
    requires Old(m, 0, 0, last, chain, t)
    ensures chain == [] && t == Nil && Ats(Ahead(t, chain)) == {}
  {
    assert chain == [] && t == Nil;
    assert Ahead(t, chain) == [];
  }

  lemma NewSound<T(!new)>(cmp: (T, T) -> int, m: Memory<T>, root: nat, u: Tree<Slot<T>>, head: nat, fs: seq<nat>, unused: nat)
    requires TotalOrder(cmp) && Planted(cmp, m, root, u) && Spare(m, Ats(InOrder(u)), head, fs, unused)
    ensures Sound(cmp, m, root, u, head, fs, unused)
  {
  }
}
