/** The nodes of a splay tree in memory, and the tree they stand for. */
module SplayNodes {
  import opened Splay

  datatype Dir = LEFT | RIGHT

  function Opp(d: Dir): Dir { if d == LEFT then RIGHT else LEFT }

  /** The direction in which to look, from the sign of a comparison. */
  function DirOf(n: int): Dir { if n < 0 then LEFT else RIGHT }

  /** A pair of things indexed by a direction. */
  datatype Two<A> = Two(left: A, right: A) {
    function At(d: Dir): A { if d == LEFT then left else right }
    function Put(d: Dir, a: A): Two<A> { if d == LEFT then this.(left := a) else this.(right := a) }
  }

  /** A place that holds a pointer to a node: the root, or a child field. */
  datatype Spot = Root | Field(p: nat, d: Dir)

  /** The field `back` holds a node (free list, each, rebuild) or a place (reject). */
  datatype Back = ToNode(p: nat) | ToSpot(spot: Spot) | Nowhere

  /** A node in memory; 0 is the null pointer. */
  datatype Cell<T> = Cell(item: T, child: Two<nat>, back: Back)

  type Memory<T> = map<nat, Cell<T>>

  function SetChild<T>(m: Memory<T>, p: nat, d: Dir, v: nat): Memory<T>
    requires p in m
  {
    m[p := m[p].(child := m[p].child.Put(d, v))]
  }

  /** A node of an abstract tree: where it is, and its item. */
  datatype Slot<T> = Slot(at: nat, item: T)

  function OnItems<T>(cmp: (T, T) -> int): (Slot<T>, Slot<T>) -> int {
    (a: Slot<T>, b: Slot<T>) => cmp(a.item, b.item)
  }

  lemma OnItemsOrder<T(!new)>(cmp: (T, T) -> int)
    requires TotalOrder(cmp)
    ensures TotalOrder(OnItems(cmp))
  {
    forall a, b ensures Pair(OnItems(cmp), a, b) { assert Pair(cmp, a.item, b.item); }
    forall a, b, c ensures Triple(OnItems(cmp), a, b, c) { assert Triple(cmp, a.item, b.item, c.item); }
  }

  ghost predicate Is<T>(m: Memory<T>, s: Slot<T>) { s.at != 0 && s.at in m && m[s.at].item == s.item }

  /** The pointer p stands for the tree t. */
  ghost predicate Shape<T>(m: Memory<T>, p: nat, t: Tree<Slot<T>>)
    decreases t
  {
    match t
    case Nil => p == 0
    case Node(l, s, r) => p == s.at && Is(m, s) && Shape(m, m[p].child.left, l) && Shape(m, m[p].child.right, r)
  }

  ghost function Ats<T>(s: seq<Slot<T>>): set<nat> { set x | x in s :: x.at }

  ghost predicate Differ<T>(s: seq<Slot<T>>, i: nat, j: nat)
    requires i < j < |s|
  {
    s[i].at != s[j].at
  }

  /** No node occurs twice. */
  ghost predicate Distinct<T>(s: seq<Slot<T>>) {
    forall i: nat, j: nat {:trigger Differ(s, i, j)} :: i < j < |s| ==> Differ(s, i, j)
  }

  lemma DistinctSplit<T>(a: seq<Slot<T>>, b: seq<Slot<T>>)
    requires Distinct(a + b)
    ensures Distinct(a) && Distinct(b) && Ats(a) !! Ats(b)
  {
    var s := a + b;
    forall i: nat, j: nat | i < j < |a| ensures Differ(a, i, j) { assert Differ(s, i, j); }
    forall i: nat, j: nat | i < j < |b| ensures Differ(b, i, j) { assert Differ(s, |a| + i, |a| + j); }
    forall x, y | x in a && y in b ensures x.at != y.at {
      var i :| 0 <= i < |a| && a[i] == x;
      var j :| 0 <= j < |b| && b[j] == y;
      assert Differ(s, i, |a| + j);
    }
  }

  lemma AtsOf<T>(a: seq<Slot<T>>, b: seq<Slot<T>>)
    ensures Ats(a + b) == Ats(a) + Ats(b)
  {
  }

  lemma DistinctJoin<T>(a: seq<Slot<T>>, b: seq<Slot<T>>)
    requires Distinct(a) && Distinct(b) && Ats(a) !! Ats(b)
    ensures Distinct(a + b)
  {
    forall i: nat, j: nat | i < j < |a + b| ensures Differ(a + b, i, j) {
      if j < |a| {
        assert Differ(a, i, j);
      } else if i < |a| {
        assert a[i].at in Ats(a) && b[j - |a|].at in Ats(b);
      } else {
        assert Differ(b, i - |a|, j - |a|);
      }
    }
  }

  /** The nodes at these places are as before, up to their back pointers. */
  ghost predicate Kept<T>(m: Memory<T>, m': Memory<T>, ats: set<nat>) {
    forall q :: q in ats && q in m ==> q in m' && m'[q].item == m[q].item && m'[q].child == m[q].child
  }

  lemma {:induction false} ShapeFrame<T>(m: Memory<T>, m': Memory<T>, p: nat, t: Tree<Slot<T>>)
    requires Shape(m, p, t) && Kept(m, m', Ats(InOrder(t)))
    ensures Shape(m', p, t)
    decreases t
  {
    if t.Node? {
      AtsOf(InOrder(t.left) + [t.item], InOrder(t.right));
      AtsOf(InOrder(t.left), [t.item]);
      assert t.item.at in Ats([t.item]);
      ShapeFrame(m, m', m[p].child.left, t.left);
      ShapeFrame(m, m', m[p].child.right, t.right);
    }
  }

  // ------------------------------------------------------------------ contexts

  /** The context on side o has its hole in the child fields of the other side. */
  function CtxItems<T>(o: Dir, fs: seq<Frame<Slot<T>>>): seq<Slot<T>> {
    if o == LEFT then LeftItems(fs) else RightItems(fs)
  }

  /** The node whose field is the hole; 0 when the hole is the result variable. */
  function Top<T>(fs: seq<Frame<Slot<T>>>): nat { if fs == [] then 0 else fs[|fs| - 1].item.at }

  /** What the hole holds at the moment. */
  ghost function HoleValue<T>(o: Dir, m: Memory<T>, fs: seq<Frame<Slot<T>>>, res: nat): nat {
    if fs == [] then res else if Top(fs) in m then m[Top(fs)].child.At(Opp(o)) else 0
  }

  ghost predicate Ctx<T>(o: Dir, m: Memory<T>, fs: seq<Frame<Slot<T>>>, res: nat) {
    fs == [] ||
    (var f, rest := fs[|fs| - 1], fs[..|fs| - 1];
     && Is(m, f.item)
     && Shape(m, m[f.item.at].child.At(o), f.side)
     && HoleValue(o, m, rest, res) == f.item.at
     && Ctx(o, m, rest, res))
  }

  lemma CtxAts<T>(o: Dir, fs: seq<Frame<Slot<T>>>)
    requires fs != []
    ensures var f, rest := fs[|fs| - 1], fs[..|fs| - 1];
            Ats(CtxItems(o, fs)) == Ats(CtxItems(o, rest)) + Ats(InOrder(f.side)) + {f.item.at}
  {
    var f, rest := fs[|fs| - 1], fs[..|fs| - 1];
    if o == LEFT {
      AtsOf(LeftItems(rest) + InOrder(f.side), [f.item]);
      AtsOf(LeftItems(rest), InOrder(f.side));
    } else {
      AtsOf([f.item] + InOrder(f.side), RightItems(rest));
      AtsOf([f.item], InOrder(f.side));
    }
    assert Ats([f.item]) == {f.item.at};
  }

  lemma CtxApart<T>(o: Dir, fs: seq<Frame<Slot<T>>>)
    requires fs != [] && Distinct(CtxItems(o, fs))
    ensures var f, rest := fs[|fs| - 1], fs[..|fs| - 1];
            f.item.at !in Ats(CtxItems(o, rest)) && f.item.at !in Ats(InOrder(f.side)) && Distinct(CtxItems(o, rest))
  {
    var f, rest := fs[|fs| - 1], fs[..|fs| - 1];
    if o == LEFT {
      DistinctSplit(LeftItems(rest) + InOrder(f.side), [f.item]);
      DistinctSplit(LeftItems(rest), InOrder(f.side));
      AtsOf(LeftItems(rest), InOrder(f.side));
    } else {
      DistinctSplit([f.item] + InOrder(f.side), RightItems(rest));
      DistinctSplit([f.item], InOrder(f.side));
      AtsOf([f.item], InOrder(f.side));
    }
    assert f.item.at in Ats([f.item]);
  }

  lemma {:induction false} CtxFrame<T>(o: Dir, m: Memory<T>, m': Memory<T>, fs: seq<Frame<Slot<T>>>, res: nat)
    requires Ctx(o, m, fs, res) && Kept(m, m', Ats(CtxItems(o, fs)))
    ensures Ctx(o, m', fs, res) && HoleValue(o, m', fs, res) == HoleValue(o, m, fs, res)
    decreases |fs|
  {
    if fs != [] {
      var f, rest := fs[|fs| - 1], fs[..|fs| - 1];
      CtxAts(o, fs);
      ShapeFrame(m, m', m[f.item.at].child.At(o), f.side);
      CtxFrame(o, m, m', rest, res);
    }
  }

  /** Storing a pointer in the hole: the memory, and the result variable. */
  function FillHole<T>(o: Dir, m: Memory<T>, hole: nat, res: nat, v: nat): (Memory<T>, nat)
    requires hole == 0 || hole in m
  {
    if hole == 0 then (m, v) else (SetChild(m, hole, Opp(o), v), res)
  }

  lemma WriteHole<T>(o: Dir, m: Memory<T>, fs: seq<Frame<Slot<T>>>, res: nat, v: nat)
    requires Ctx(o, m, fs, res) && Distinct(CtxItems(o, fs))
    ensures Top(fs) == 0 <==> fs == []
    ensures fs != [] ==> Top(fs) in m && Top(fs) in Ats(CtxItems(o, fs))
    ensures var w := FillHole(o, m, Top(fs), res, v); Ctx(o, w.0, fs, w.1) && HoleValue(o, w.0, fs, w.1) == v
  {
    if fs != [] {
      var f, rest := fs[|fs| - 1], fs[..|fs| - 1];
      CtxApart(o, fs);
      CtxAts(o, fs);
      var w := FillHole(o, m, Top(fs), res, v);
      ShapeFrame(m, w.0, m[f.item.at].child.At(o), f.side);
      CtxFrame(o, m, w.0, rest, res);
    }
  }

  /** A context with its hole filled by a tree. */
  function Filled<T>(o: Dir, fs: seq<Frame<Slot<T>>>, t: Tree<Slot<T>>): Tree<Slot<T>> {
    if o == LEFT then FillLeft(fs, t) else FillRight(fs, t)
  }

  lemma {:induction false} FilledShape<T>(o: Dir, m: Memory<T>, fs: seq<Frame<Slot<T>>>, res: nat, t: Tree<Slot<T>>)
    requires Ctx(o, m, fs, res) && Shape(m, HoleValue(o, m, fs, res), t)
    ensures Shape(m, res, Filled(o, fs, t))
    decreases |fs|
  {
    if fs != [] {
      var f, rest := fs[|fs| - 1], fs[..|fs| - 1];
      var u := if o == LEFT then Node(f.side, f.item, t) else Node(t, f.item, f.side);
      assert Shape(m, f.item.at, u);
      FilledShape(o, m, rest, res, u);
    }
  }

  // --------------------------------------------------------- the state of splay

  /** The focus p stands for t, and the contexts are cs. */
  ghost predicate Held<T>(m: Memory<T>, res: Two<nat>, p: nat, cs: Two<seq<Frame<Slot<T>>>>, t: Tree<Slot<T>>) {
    && Shape(m, p, t)
    && Ctx(LEFT, m, cs.left, res.left) && Ctx(RIGHT, m, cs.right, res.right)
    && Distinct(Parts(cs.left, t, cs.right))
  }

  lemma Apart<T>(cs: Two<seq<Frame<Slot<T>>>>, t: Tree<Slot<T>>, o: Dir)
    requires Distinct(Parts(cs.left, t, cs.right))
    ensures Distinct(CtxItems(o, cs.At(o))) && Distinct(InOrder(t))
    ensures Ats(CtxItems(LEFT, cs.left)) !! Ats(InOrder(t))
    ensures Ats(CtxItems(RIGHT, cs.right)) !! Ats(InOrder(t))
    ensures Ats(CtxItems(LEFT, cs.left)) !! Ats(CtxItems(RIGHT, cs.right))
    ensures Ats(Parts(cs.left, t, cs.right)) == Ats(CtxItems(LEFT, cs.left)) + Ats(InOrder(t)) + Ats(CtxItems(RIGHT, cs.right))
  {
    var a, b, c := LeftItems(cs.left), InOrder(t), RightItems(cs.right);
    DistinctSplit(a + b, c);
    DistinctSplit(a, b);
    AtsOf(a, b);
    AtsOf(a + b, c);
  }

  function Sub<T>(t: Tree<T>, d: Dir): Tree<T>
    requires t.Node?
  {
    if d == LEFT then t.left else t.right
  }

  function Rotated<T>(t: Tree<T>, d: Dir): Tree<T>
    requires t.Node? && Sub(t, d).Node?
  {
    if d == LEFT then Node(t.left.left, t.left.item, Node(t.left.right, t.item, t.right))
    else Node(Node(t.left, t.item, t.right.left), t.right.item, t.right.right)
  }

  /** The two stores of a rotation. */
  function RotateStores<T>(m: Memory<T>, p: nat, d: Dir): Memory<T>
    requires p in m && m[p].child.At(d) in m
  {
    var c := m[p].child.At(d);
    SetChild(SetChild(m, p, d, m[c].child.At(Opp(d))), c, Opp(d), p)
  }

  lemma TreeApart<T>(t: Tree<Slot<T>>)
    requires t.Node? && Distinct(InOrder(t))
    ensures Distinct(InOrder(t.left)) && Distinct(InOrder(t.right))
    ensures Ats(InOrder(t.left)) !! Ats(InOrder(t.right))
    ensures t.item.at !in Ats(InOrder(t.left)) && t.item.at !in Ats(InOrder(t.right))
    ensures Ats(InOrder(t)) == Ats(InOrder(t.left)) + {t.item.at} + Ats(InOrder(t.right))
  {
    var a, b, c := InOrder(t.left), [t.item], InOrder(t.right);
    DistinctSplit(a + b, c);
    DistinctSplit(a, b);
    AtsOf(a, b);
    AtsOf(a + b, c);
    assert t.item.at in Ats(b) && Ats(b) == {t.item.at};
  }

  /** What the stores of a rotation leave: nothing else changes. */
  lemma RotateStored<T>(m: Memory<T>, p: nat, d: Dir, ats: set<nat>)
    requires p in m && m[p].child.At(d) in m && p != m[p].child.At(d)
    ensures var c := m[p].child.At(d);
            var m' := RotateStores(m, p, d);
            && m'.Keys == m.Keys && m'[p].item == m[p].item && m'[c].item == m[c].item
            && m'[p].child == m[p].child.Put(d, m[c].child.At(Opp(d)))
            && m'[c].child == m[c].child.Put(Opp(d), p)
            && (p !in ats && c !in ats ==> Kept(m, m', ats))
  {
  }

  lemma RotateShape<T>(m: Memory<T>, p: nat, t: Tree<Slot<T>>, d: Dir)
    requires Shape(m, p, t) && t.Node? && Sub(t, d).Node? && Distinct(InOrder(t))
    ensures var c := m[p].child.At(d);
            p in m && c in m && p in Ats(InOrder(t)) && c in Ats(InOrder(t)) && Shape(RotateStores(m, p, d), c, Rotated(t, d))
  {
    TreeApart(t);
    var u := Sub(t, d);
    TreeApart(u);
    var c := m[p].child.At(d);
    var m' := RotateStores(m, p, d);
    RotateStored(m, p, d, Ats(InOrder(Sub(t, Opp(d)))));
    RotateStored(m, p, d, Ats(InOrder(u.left)));
    RotateStored(m, p, d, Ats(InOrder(u.right)));
    ShapeFrame(m, m', m[p].child.At(Opp(d)), Sub(t, Opp(d)));
    ShapeFrame(m, m', m[c].child.left, u.left);
    ShapeFrame(m, m', m[c].child.right, u.right);
    var v := if d == LEFT then Node(u.right, t.item, t.right) else Node(t.left, t.item, u.left);
    assert Shape(m', p, v);
  }

  lemma RotateKeepsItems<T>(t: Tree<T>, d: Dir)
    requires t.Node? && Sub(t, d).Node?
    ensures InOrder(Rotated(t, d)) == InOrder(t)
  {
    if d == LEFT {
      RotateItems(t.left.left, t.left.item, t.left.right, t.item, t.right);
    } else {
      RotateItems(t.left, t.item, t.right.left, t.right.item, t.right.right);
    }
  }

  lemma RotateHeld<T>(m: Memory<T>, res: Two<nat>, p: nat, cs: Two<seq<Frame<Slot<T>>>>, t: Tree<Slot<T>>, d: Dir)
    requires Held(m, res, p, cs, t) && t.Node? && Sub(t, d).Node?
    ensures p in m && m[p].child.At(d) in m && p in Ats(InOrder(t)) && m[p].child.At(d) in Ats(InOrder(t))
    ensures Held(RotateStores(m, p, d), res, m[p].child.At(d), cs, Rotated(t, d))
  {
    Apart(cs, t, LEFT);
    RotateShape(m, p, t, d);
    RotateKeepsItems(t, d);
    var m' := RotateStores(m, p, d);
    CtxFrame(LEFT, m, m', cs.left, res.left);
    CtxFrame(RIGHT, m, m', cs.right, res.right);
  }

  /** The frame that the focus becomes when the search goes on to side d. */
  function FrameOf<T>(t: Tree<T>, d: Dir): Frame<T>
    requires t.Node?
  {
    Frame(t.item, Sub(t, Opp(d)))
  }

  function Linked<T>(cs: Two<seq<Frame<T>>>, t: Tree<T>, d: Dir): Two<seq<Frame<T>>>
    requires t.Node?
  {
    cs.Put(Opp(d), cs.At(Opp(d)) + [FrameOf(t, d)])
  }

  lemma LinkParts<T>(cs: Two<seq<Frame<T>>>, t: Tree<T>, d: Dir)
    requires t.Node?
    ensures var cs' := Linked(cs, t, d); Parts(cs'.left, Sub(t, d), cs'.right) == Parts(cs.left, t, cs.right)
  {
    if d == LEFT {
      PushRight(cs.right, FrameOf(t, d));
      Regroup(LeftItems(cs.left), InOrder(t.left), [t.item], InOrder(t.right), RightItems(cs.right));
    } else {
      PushLeft(cs.left, FrameOf(t, d));
      Regroup(LeftItems(cs.left), InOrder(t.left), [t.item], InOrder(t.right), RightItems(cs.right));
    }
  }

  lemma PushCtx<T>(o: Dir, m: Memory<T>, fs: seq<Frame<Slot<T>>>, res: nat, p: nat, t: Tree<Slot<T>>)
    requires Ctx(o, m, fs, res) && HoleValue(o, m, fs, res) == p && t.Node? && Shape(m, p, t)
    ensures Ctx(o, m, fs + [FrameOf(t, Opp(o))], res)
  {
    var fs' := fs + [FrameOf(t, Opp(o))];
    assert fs'[..|fs'| - 1] == fs;
  }

  /** Writing the hole of one context leaves everything else alone. */
  lemma HoleElsewhere<T>(o: Dir, m: Memory<T>, cs: Two<seq<Frame<Slot<T>>>>, res: Two<nat>, p: nat, t: Tree<Slot<T>>, v: nat)
    requires Held(m, res, p, cs, t)
    ensures var hole := Top(cs.At(o));
            && (hole == 0 || (hole in m && hole in Ats(Parts(cs.left, t, cs.right))))
            && var w := FillHole(o, m, hole, res.At(o), v);
               && Held(w.0, res.Put(o, w.1), p, cs, t) && HoleValue(o, w.0, cs.At(o), w.1) == v
               && HoleValue(Opp(o), w.0, cs.At(Opp(o)), res.At(Opp(o))) == HoleValue(Opp(o), m, cs.At(Opp(o)), res.At(Opp(o)))
               && (t.Node? ==> p in m && w.0[p] == m[p])
  {
    Apart(cs, t, o);
    WriteHole(o, m, cs.At(o), res.At(o), v);
    var w := FillHole(o, m, Top(cs.At(o)), res.At(o), v);
    assert Kept(m, w.0, Ats(InOrder(t)));
    ShapeFrame(m, w.0, p, t);
    assert Kept(m, w.0, Ats(CtxItems(Opp(o), cs.At(Opp(o)))));
    CtxFrame(Opp(o), m, w.0, cs.At(Opp(o)), res.At(Opp(o)));
  }

  lemma LinkHeld<T>(m: Memory<T>, res: Two<nat>, p: nat, cs: Two<seq<Frame<Slot<T>>>>, t: Tree<Slot<T>>, d: Dir)
    requires Held(m, res, p, cs, t) && t.Node?
    ensures var o := Opp(d);
            var hole := Top(cs.At(o));
            && p in m && (hole == 0 || (hole in m && hole in Ats(Parts(cs.left, t, cs.right))))
            && var w := FillHole(o, m, hole, res.At(o), p);
               Held(w.0, res.Put(o, w.1), m[p].child.At(d), Linked(cs, t, d), Sub(t, d))
  {
    var o := Opp(d);
    HoleElsewhere(o, m, cs, res, p, t, p);
    var w := FillHole(o, m, Top(cs.At(o)), res.At(o), p);
    PushCtx(o, w.0, cs.At(o), w.1, p, t);
    LinkParts(cs, t, d);
  }

  // -------------------------------------------------------------------- assemble

  /** The four stores of assemble. */
  function AssembleStores<T>(m: Memory<T>, res: Two<nat>, hole: Two<nat>, p: nat): Memory<T>
    requires p in m && (hole.left == 0 || hole.left in m) && (hole.right == 0 || hole.right in m)
  {
    var r := FillHole(RIGHT, m, hole.right, res.right, m[p].child.right);
    var l := FillHole(LEFT, r.0, hole.left, res.left, r.0[p].child.left);
    SetChild(SetChild(l.0, p, RIGHT, r.1), p, LEFT, l.1)
  }

  function Tops<T>(cs: Two<seq<Frame<Slot<T>>>>): Two<nat> { Two(Top(cs.left), Top(cs.right)) }

  lemma FilledItems<T>(o: Dir, fs: seq<Frame<Slot<T>>>, t: Tree<Slot<T>>)
    ensures Ats(InOrder(Filled(o, fs, t))) == Ats(CtxItems(o, fs)) + Ats(InOrder(t))
  {
    if o == LEFT {
      FillLeftItems(fs, t);
      AtsOf(LeftItems(fs), InOrder(t));
    } else {
      FillRightItems(fs, t);
      AtsOf(InOrder(t), RightItems(fs));
    }
  }

  lemma HolesIn<T>(m: Memory<T>, res: Two<nat>, p: nat, cs: Two<seq<Frame<Slot<T>>>>, t: Tree<Slot<T>>)
    requires Held(m, res, p, cs, t)
    ensures forall o :: Tops(cs).At(o) == 0 || (Tops(cs).At(o) in m && Tops(cs).At(o) in Ats(CtxItems(o, cs.At(o))))
    ensures t.Node? ==> p in m && p != Top(cs.left) && p != Top(cs.right)
  {
    Apart(cs, t, LEFT);
    Apart(cs, t, RIGHT);
    WriteHole(LEFT, m, cs.left, res.left, 0);
    WriteHole(RIGHT, m, cs.right, res.right, 0);
    if t.Node? { TreeApart(t); }
  }

  lemma AssembleShape<T>(m: Memory<T>, res: Two<nat>, p: nat, cs: Two<seq<Frame<Slot<T>>>>, t: Tree<Slot<T>>)
    requires Held(m, res, p, cs, t) && t.Node?
    ensures p in m && forall o :: Tops(cs).At(o) == 0 || Tops(cs).At(o) in m
    ensures Shape(AssembleStores(m, res, Tops(cs), p), p, Assemble(t, cs.left, cs.right))
  {
    HolesIn(m, res, p, cs, t);
    var r := FillHole(RIGHT, m, Top(cs.right), res.right, m[p].child.right);
    HoleElsewhere(RIGHT, m, cs, res, p, t, m[p].child.right);
    var res' := res.Put(RIGHT, r.1);
    var l := FillHole(LEFT, r.0, Top(cs.left), res.left, r.0[p].child.left);
    HoleElsewhere(LEFT, r.0, cs, res', p, t, r.0[p].child.left);
    assert l.0[p] == m[p];
    FilledShape(LEFT, l.0, cs.left, l.1, t.left);
    FilledShape(RIGHT, l.0, cs.right, r.1, t.right);
    RootStores(l.0, p, cs, t, l.1, r.1);
  }

  lemma RootStores<T>(m: Memory<T>, p: nat, cs: Two<seq<Frame<Slot<T>>>>, t: Tree<Slot<T>>, a: nat, b: nat)
    requires Distinct(Parts(cs.left, t, cs.right)) && t.Node? && p == t.item.at && Is(m, t.item)
    requires Shape(m, a, Filled(LEFT, cs.left, t.left)) && Shape(m, b, Filled(RIGHT, cs.right, t.right))
    ensures Shape(SetChild(SetChild(m, p, RIGHT, b), p, LEFT, a), p, Assemble(t, cs.left, cs.right))
  {
    Apart(cs, t, LEFT);
    TreeApart(t);
    var m' := SetChild(SetChild(m, p, RIGHT, b), p, LEFT, a);
    FilledItems(LEFT, cs.left, t.left);
    FilledItems(RIGHT, cs.right, t.right);
    ShapeFrame(m, m', a, Filled(LEFT, cs.left, t.left));
    ShapeFrame(m, m', b, Filled(RIGHT, cs.right, t.right));
  }
}
