/** The invariant of on-the-fly marking: every unmarked target that a user, a
    global slot or a non-white object can name is reachable, through white
    objects only, from a slot that the collector still has to visit. */
module Tricolour {
  import opened Phases
  import opened Handshake
  import opened Marking

  ghost predicate SrcSlot(m: Heap, q: Slot) {
    q in m.fld && q.o in m.grey && q.i >= m.grey[q.o].next
  }

  ghost predicate SrcGlob(m: Heap, k: nat) {
    k in m.glob && k >= m.gnext
  }

  /** The collector will visit a slot that holds x. */
  ghost predicate Src(m: Heap, x: Obj) {
    || (exists q :: SrcSlot(m, q) && m.fld[q] == x)
    || (exists k :: SrcGlob(m, k) && m.glob[k] == x)
  }

  /** x is n white links away from such a slot. */
  ghost predicate Prot(m: Heap, x: Obj, n: nat)
    decreases n
  {
    if n == 0 then Src(m, x)
    else exists q :: q in m.fld && m.fld[q] == x && White(m, q.o) && Prot(m, q.o, n - 1)
  }

  ghost predicate Protected(m: Heap, x: Obj) { exists n: nat :: Prot(m, x, n) }

  /** Safe to be named by someone the collector will not look at again. */
  ghost predicate Covered(m: Heap, x: Obj) { White(m, x) ==> Protected(m, x) }

  ghost predicate TriRoots(m: Heap) {
    forall u, x {:trigger x in m.roots[u]} :: u in m.scanned && u in m.roots && x in m.roots[u] ==> Covered(m, x)
  }

  ghost predicate TriFields(m: Heap) {
    forall q {:trigger m.fld[q]} :: q in m.fld && !White(m, q.o) ==> Covered(m, m.fld[q])
  }

  ghost predicate TriGlobals(m: Heap) {
    forall k {:trigger m.glob[k]} :: k in m.glob ==> Covered(m, m.glob[k])
  }

  ghost predicate Tri(m: Heap) { TriRoots(m) && TriFields(m) && TriGlobals(m) }

  /** No white object can be named at all. */
  ghost predicate Closed(m: Heap) {
    && (forall u, x {:trigger x in m.roots[u]} :: u in m.roots && x in m.roots[u] ==> !White(m, x))
    && (forall q {:trigger m.fld[q]} :: q in m.fld && !White(m, q.o) ==> !White(m, m.fld[q]))
    && (forall k {:trigger m.glob[k]} :: k in m.glob ==> !White(m, m.glob[k]))
  }

  ghost predicate WellFormed(m: Heap) {
    && m.size.Keys == m.home.Keys
    && (forall q :: q in m.fld ==> q.o in m.home && q.i < m.size[q.o])
    && m.target <= m.home.Keys && m.marked <= m.target && m.grey.Keys <= m.marked
    && m.renewed <= m.target
    && m.roots.Keys == m.owner.Keys && m.scanned <= m.owner.Keys
    && m.gnext <= m.gsize && (forall k :: k in m.glob ==> k < m.gsize)
  }

  // ------------------------------------------------------------ stability of Prot

  /** Protection survives a change of the heap if every pending slot and every
      white link either stays or ends in an object that is white no more. */
  ghost predicate KeepsSources(m: Heap, m': Heap) {
    forall x :: Src(m, x) && White(m', x) ==> Src(m', x)
  }

  ghost predicate KeepsLinks(m: Heap, m': Heap) {
    forall q :: q in m.fld && White(m, q.o) && White(m', m.fld[q]) ==>
      Src(m', m.fld[q]) || (White(m', q.o) && q in m'.fld && m'.fld[q] == m.fld[q])
  }

  /** It is enough to look at the pending slots one by one. */
  lemma SourcesKept(m: Heap, m': Heap)
    requires forall q :: SrcSlot(m, q) && White(m', m.fld[q]) ==> SrcSlot(m', q) && m'.fld[q] == m.fld[q]
    requires forall k :: SrcGlob(m, k) && White(m', m.glob[k]) ==> SrcGlob(m', k) && m'.glob[k] == m.glob[k]
    ensures KeepsSources(m, m')
  {
    forall x | Src(m, x) && White(m', x) ensures Src(m', x) {
      if q :| SrcSlot(m, q) && m.fld[q] == x {
        assert SrcSlot(m', q);
      } else {
        var k :| SrcGlob(m, k) && m.glob[k] == x;
        assert SrcGlob(m', k);
      }
    }
  }

  lemma {:induction false} ProtStep(m: Heap, m': Heap, x: Obj, n: nat)
    requires KeepsSources(m, m') && KeepsLinks(m, m')
    requires Prot(m, x, n) && White(m', x)
    ensures Protected(m', x)
    decreases n
  {
    if Src(m', x) {
      assert Prot(m', x, 0);
    } else {
      var q :| q in m.fld && m.fld[q] == x && White(m, q.o) && Prot(m, q.o, n - 1);
      ProtStep(m, m', q.o, n - 1);
      var k: nat :| Prot(m', q.o, k);
      assert Prot(m', x, k + 1);
    }
  }

  lemma CoveredStep(m: Heap, m': Heap, x: Obj)
    requires KeepsSources(m, m') && KeepsLinks(m, m')
    requires Covered(m, x) && (White(m', x) ==> White(m, x))
    ensures Covered(m', x)
  {
    if White(m', x) {
      var n: nat :| Prot(m, x, n);
      ProtStep(m, m', x, n);
    }
  }

  /** A link from a protected white object protects its end. */
  lemma CoveredLink(m: Heap, q: Slot)
    requires TriFields(m) && q in m.fld && Covered(m, q.o)
    ensures Covered(m, m.fld[q])
  {
    if White(m, q.o) {
      var n: nat :| Prot(m, q.o, n);
      assert Prot(m, m.fld[q], n + 1);
    }
  }

  lemma CoveredGlobal(m: Heap, k: nat)
    requires SrcGlob(m, k)
    ensures Covered(m, m.glob[k])
  {
    assert Prot(m, m.glob[k], 0);
  }

  /** Without pending slots nothing is protected. */
  lemma {:induction false} NothingPending(m: Heap, x: Obj, n: nat)
    requires m.grey == map[] && (forall k :: k in m.glob ==> k < m.gnext)
    ensures !Prot(m, x, n)
    decreases n
  {
    if n > 0 {
      forall q | q in m.fld && m.fld[q] == x && White(m, q.o) ensures !Prot(m, q.o, n - 1) {
        NothingPending(m, q.o, n - 1);
      }
    }
  }

  /** Marking is complete when the mark stacks are empty and all roots were enumerated. */
  lemma EmptyStacksClose(m: Heap)
    requires Tri(m) && m.grey == map[] && (forall k :: k in m.glob ==> k < m.gnext)
    requires m.roots.Keys <= m.scanned
    ensures Closed(m)
  {
    forall x | Covered(m, x) ensures !White(m, x) {
      if White(m, x) {
        var n: nat :| Prot(m, x, n);
        NothingPending(m, x, n);
      }
    }
  }

  // --------------------------------------------------------- changes of the colours

  /** m' is m with the white objects ws marked and put on mark stacks. */
  ghost predicate Shaded(m: Heap, m': Heap, ws: set<Obj>) {
    && (forall x :: x in ws ==> White(m, x))
    && m'.fld == m.fld && m'.glob == m.glob && m'.gnext == m.gnext && m'.target == m.target
    && m'.marked == m.marked + ws
    && m'.grey.Keys == m.grey.Keys + ws
    && (forall x :: x in m.grey && x !in ws ==> m'.grey[x] == m.grey[x])
    && (forall x :: x in ws ==> m'.grey[x].next == 0)
  }

  lemma ShadedKeeps(m: Heap, m': Heap, ws: set<Obj>)
    requires WellFormed(m) && Shaded(m, m', ws)
    ensures KeepsSources(m, m') && KeepsLinks(m, m')
  {
    SourcesKept(m, m');
    forall q | q in m.fld && White(m, q.o) && White(m', m.fld[q])
      ensures Src(m', m.fld[q]) || (White(m', q.o) && q in m'.fld && m'.fld[q] == m.fld[q])
    {
      if q.o in ws { assert SrcSlot(m', q); }
    }
  }

  /** Marking preserves the invariant; the roots are whatever they are. */
  lemma ShadedTri(m: Heap, m': Heap, ws: set<Obj>)
    requires WellFormed(m) && Tri(m) && Shaded(m, m', ws)
    requires m'.roots == m.roots && m'.scanned == m.scanned
    ensures Tri(m')
  {
    ShadedKeeps(m, m', ws);
    forall x | Covered(m, x) ensures Covered(m', x) { CoveredStep(m, m', x); }
    forall q | q in m'.fld && !White(m', q.o) ensures Covered(m', m'.fld[q]) {
      if q.o in ws {
        assert SrcSlot(m', q);
        assert Prot(m', m'.fld[q], 0);
      }
    }
  }

  lemma ShadeShaded(m: Heap, x: Obj, w: W, rooted: bool)
    ensures Shaded(m, Shade(m, x, w, rooted), if White(m, x) then {x} else {})
    ensures !White(Shade(m, x, w, rooted), x)
    ensures forall y :: !White(m, y) ==> !White(Shade(m, x, w, rooted), y)
  {
  }

  lemma ShadeAllShaded(m: Heap, xs: set<Obj>, w: W)
    ensures Shaded(m, ShadeAll(m, xs, w), set x | x in xs && White(m, x))
    ensures forall x :: x in xs ==> !White(ShadeAll(m, xs, w), x)
    ensures forall y :: !White(m, y) ==> !White(ShadeAll(m, xs, w), y)
  {
  }

  lemma ShadeKeepsForm(m: Heap, x: Obj, w: W, rooted: bool)
    requires WellFormed(m)
    ensures WellFormed(Shade(m, x, w, rooted))
  {
  }

  lemma ShadeAllKeepsForm(m: Heap, xs: set<Obj>, w: W)
    requires WellFormed(m)
    ensures WellFormed(ShadeAll(m, xs, w))
  {
  }

  // ---------------------------------------------------------- changes of the graph

  /** Same colours, links and pending slots: only roots or book-keeping differ. */
  ghost predicate SameGraph(m: Heap, m': Heap) {
    && m'.fld == m.fld && m'.glob == m.glob && m'.gnext == m.gnext
    && m'.target == m.target && m'.marked == m.marked && m'.grey == m.grey
  }

  lemma SameGraphKeeps(m: Heap, m': Heap)
    requires SameGraph(m, m')
    ensures KeepsSources(m, m') && KeepsLinks(m, m')
    ensures forall x :: Covered(m, x) ==> Covered(m', x)
  {
    SourcesKept(m, m');
    forall x | Covered(m, x) ensures Covered(m', x) { CoveredStep(m, m', x); }
  }

  /** A change of roots that only shows covered objects to enumerated users. */
  lemma RootsTri(m: Heap, m': Heap)
    requires Tri(m) && SameGraph(m, m')
    requires forall u, x :: u in m'.scanned && u in m'.roots && x in m'.roots[u] ==> Covered(m, x)
    ensures Tri(m')
  {
    SameGraphKeeps(m, m');
  }

  /** A store over a slot whose old value is not white. */
  lemma StoreTri(m: Heap, q: Slot, v: Option<Obj>)
    requires Tri(m)
    requires q in m.fld ==> !White(m, m.fld[q])
    requires v.Some? && !White(m, q.o) ==> Covered(m, v.value)
    ensures Tri(m.(fld := Put(m.fld, q, v)))
  {
    var m' := m.(fld := Put(m.fld, q, v));
    SourcesKept(m, m');
    assert KeepsLinks(m, m');
    forall x | Covered(m, x) ensures Covered(m', x) { CoveredStep(m, m', x); }
  }

  lemma StoreGlobalTri(m: Heap, k: nat, v: Option<Obj>)
    requires Tri(m)
    requires k in m.glob ==> !White(m, m.glob[k])
    requires v.Some? ==> Covered(m, v.value)
    ensures Tri(m.(glob := Put(m.glob, k, v)))
  {
    var m' := m.(glob := Put(m.glob, k, v));
    SourcesKept(m, m');
    assert KeepsLinks(m, m');
    forall x | Covered(m, x) ensures Covered(m', x) { CoveredStep(m, m', x); }
  }

  /** The links of an object that is not in the map yet. */
  lemma NewLinks(fld: map<Slot, Obj>, x: Obj, init: map<nat, Obj>)
    requires forall q :: q in fld ==> q.o != x
    ensures forall q :: q in fld ==> q in fld + Slots(x, init) && (fld + Slots(x, init))[q] == fld[q]
    ensures forall q :: q in fld + Slots(x, init) && q !in fld ==>
              q.o == x && q.i in init && (fld + Slots(x, init))[q] == init[q.i]
  {
    assert forall q :: q in Slots(x, init) ==> q.o == x && q.i in init && Slots(x, init)[q] == init[q.i];
  }

  lemma AllocLinks(m: Heap, p: Phase, t: W, u: User, x: Obj, n: nat, init: map<nat, Obj>)
    requires WellFormed(m) && u in m.roots && x !in m.home
    ensures var m' := Allocated(m, p, t, u, x, n, init);
            && (forall q :: q in m.fld ==> q in m'.fld && m'.fld[q] == m.fld[q] && q.o != x)
            && (forall q :: q in m'.fld && q !in m.fld ==> q.o == x && q.i in init && m'.fld[q] == init[q.i])
  {
    assert forall q :: q in m.fld ==> q.o != x;
    NewLinks(m.fld, x, init);
  }

  lemma AllocColours(m: Heap, p: Phase, t: W, u: User, x: Obj, n: nat, init: map<nat, Obj>)
    requires WellFormed(m) && u in m.roots && x !in m.home
    ensures var m' := Allocated(m, p, t, u, x, n, init);
            && (forall y :: y != x ==> (White(m', y) <==> White(m, y)))
            && !White(m, x)
            && (White(m', x) <==> BeforeSnapshot(p))
  {
  }

  lemma AllocEffect(m: Heap, p: Phase, t: W, u: User, x: Obj, n: nat, init: map<nat, Obj>)
    requires WellFormed(m) && u in m.roots && x !in m.home
    ensures var m' := Allocated(m, p, t, u, x, n, init);
            && (forall q :: q in m.fld ==> q in m'.fld && m'.fld[q] == m.fld[q] && q.o != x)
            && (forall q :: q in m'.fld && q !in m.fld ==> q.o == x && q.i in init && m'.fld[q] == init[q.i])
            && (forall y :: y != x ==> (White(m', y) <==> White(m, y)))
            && !White(m, x)
            && (White(m', x) <==> BeforeSnapshot(p))
  {
    AllocLinks(m, p, t, u, x, n, init);
    AllocColours(m, p, t, u, x, n, init);
  }

  /** The heap m' is m with the new object x, seen by user u only. */
  ghost predicate Grown(m: Heap, m': Heap, p: Phase, t: W, u: User, x: Obj) {
    && u in m.roots && x !in m.home
    && m' == m.(home := m.home[x := t], size := m'.size, fld := m'.fld,
                target := if BeforeSnapshot(p) then m.target + {x} else m.target,
                roots := m.roots[u := m.roots[u] + {x}],
                renewed := if p == Async then m.renewed + {x} else m.renewed)
    && m'.size.Keys == m.size.Keys + {x} && (forall o :: o in m.size && o != x ==> m'.size[o] == m.size[o])
    && (forall q {:trigger m'.fld[q]} {:trigger q in m.fld} ::
          q in m.fld ==> q in m'.fld && m'.fld[q] == m.fld[q] && q.o != x)
    && (forall q {:trigger m'.fld[q]} :: q in m'.fld && q !in m.fld ==>
          q.o == x && q.i < m'.size[x] && m'.fld[q] in m.roots[u])
  }

  /** A user that was enumerated gets a black object, whose fields are covered;
      any other user gets a white one that only it can name. */
  lemma GrownTri(m: Heap, m': Heap, p: Phase, t: W, u: User, x: Obj)
    requires WellFormed(m) && Tri(m) && Grown(m, m', p, t, u, x)
    requires u in m.scanned <==> !BeforeSnapshot(p)
    requires forall k {:trigger m.glob[k]} :: k in m.glob ==> m.glob[k] != x
    requires forall q {:trigger m.fld[q]} :: q in m.fld ==> m.fld[q] != x
    requires forall v {:trigger m.roots[v]} :: v in m.roots ==> x !in m.roots[v]
    ensures Tri(m')
  {
    SourcesKept(m, m');
    assert KeepsLinks(m, m');
    forall y | Covered(m, y) && (White(m', y) ==> White(m, y)) ensures Covered(m', y) { CoveredStep(m, m', y); }
    assert TriRoots(m');
    assert TriFields(m');
  }

  /** The collector moves past a slot whose value is not white (or past a null slot). */
  lemma AdvanceTri(m: Heap, o: Obj)
    requires Tri(m) && o in m.grey
    requires var q := Slot(o, m.grey[o].next); q in m.fld ==> !White(m, m.fld[q])
    ensures Tri(m.(grey := m.grey[o := m.grey[o].(next := m.grey[o].next + 1)]))
  {
    var m' := m.(grey := m.grey[o := m.grey[o].(next := m.grey[o].next + 1)]);
    SourcesKept(m, m');
    assert KeepsLinks(m, m');
    forall x | Covered(m, x) ensures Covered(m', x) { CoveredStep(m, m', x); }
  }

  /** An object leaves its mark stack when all its slots have been visited. */
  lemma PopTri(m: Heap, o: Obj)
    requires WellFormed(m) && Tri(m) && o in m.grey && o in m.size && m.grey[o].next >= m.size[o]
    ensures Tri(m.(grey := m.grey - {o}))
  {
    var m' := m.(grey := m.grey - {o});
    SourcesKept(m, m');
    assert KeepsLinks(m, m');
    forall x | Covered(m, x) ensures Covered(m', x) { CoveredStep(m, m', x); }
  }

  /** The enumeration of globals moves past a slot whose value is not white. */
  lemma GlobalNextTri(m: Heap)
    requires Tri(m) && (m.gnext in m.glob ==> !White(m, m.glob[m.gnext]))
    ensures Tri(m.(gnext := m.gnext + 1))
  {
    var m' := m.(gnext := m.gnext + 1);
    SourcesKept(m, m');
    assert KeepsLinks(m, m');
    forall x | Covered(m, x) ensures Covered(m', x) { CoveredStep(m, m', x); }
  }
}
