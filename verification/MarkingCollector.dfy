/** Every collector step and every handshake step keeps the invariant. */
module MarkingCollector {
  import opened Phases
  import opened Handshake
  import opened Marking
  import opened Tricolour
  import opened MarkingInv
  import MarkingMutator

  // ------------------------------------------------------------ enumerating the roots

  lemma ScanUserInv(s: System, s': System, t: W, u: User)
    requires SysInv(s) && ScanUserStep(s, s', t, u)
    ensures SysInv(s')
  {
    var w := s.h.pc[t].w;
    ActorFacts(s.h, t);
    ShadeAllShaded(s.m, s.m.roots[u], w);
    ShadeAllKeepsForm(s.m, s.m.roots[u], w);
    MarkingMutator.ShadeAllTri(s.m, u, w, s.m.owner);
    forall x | x in s'.m.owner ensures UserOk(s', x) { assert UserOk(s, x); }
  }

  lemma ScanGlobalInv(s: System, s': System, t: W)
    requires SysInv(s) && ScanGlobalStep(s, s', t)
    ensures SysInv(s')
  {
    var w, m := s.h.pc[t].w, s.m;
    ActorFacts(s.h, t);
    var m1 := if m.gnext in m.glob then Shade(m, m.glob[m.gnext], w, true) else m;
    if m.gnext in m.glob {
      var x := m.glob[m.gnext];
      ShadeShaded(m, x, w, true);
      ShadeKeepsForm(m, x, w, true);
      ShadedTri(m, m1, if White(m, x) then {x} else {});
    }
    GlobalNextTri(m1);
    forall x | x in s'.m.owner ensures UserOk(s', x) { assert UserOk(s, x); }
  }

  // ------------------------------------------------------------------------- tracing

  lemma VisitedTri(m: Heap, o: Obj)
    requires WellFormed(m) && Tri(m) && o in m.grey
    ensures Tri(Visited(m, o))
  {
    var e := m.grey[o];
    var q := Slot(o, e.next);
    if q in m.fld {
      var x := m.fld[q];
      var n := Shade(m, x, e.holder, e.rooted);
      ShadeShaded(m, x, e.holder, e.rooted);
      ShadedTri(m, n, if White(m, x) then {x} else {});
      AdvanceTri(n, o);
    } else {
      AdvanceTri(m, o);
    }
  }

  lemma VisitedForm(m: Heap, o: Obj)
    requires WellFormed(m) && o in m.grey
    ensures WellFormed(Visited(m, o))
    ensures forall x :: x in Visited(m, o).grey ==>
              var e := Visited(m, o).grey[x];
              (x in m.grey && e.holder == m.grey[x].holder && e.rooted == m.grey[x].rooted)
              || (e.holder == m.grey[o].holder && e.rooted == m.grey[o].rooted)
    ensures Visited(m, o) == m.(marked := Visited(m, o).marked, grey := Visited(m, o).grey)
  {
  }

  lemma VisitInv(s: System, s': System, t: W, o: Obj)
    requires SysInv(s) && TraceStep(s, s', t, o) && s.m.grey[o].next < s.m.size[o]
    ensures SysInv(s')
  {
    hide InSync1, InSync2, InAsync, Inv, Tri;
    ActorFacts(s.h, t);
    assert s.m.fin == Idle;
    VisitedTri(s.m, o);
    VisitedForm(s.m, o);
  }

  lemma PopInv(s: System, s': System, t: W, o: Obj)
    requires SysInv(s) && TraceStep(s, s', t, o) && s.m.grey[o].next >= s.m.size[o]
    ensures SysInv(s')
  {
    hide InSync1, InSync2, InAsync, Inv, Tri;
    ActorFacts(s.h, t);
    PopTri(s.m, o);
  }

  // -------------------------------------------------------------- the end of marking

  lemma FinisherFired(h: State, t: W)
    requires Inv(h) && t in h.pc && h.pc[t].Last?
    ensures h.round.fired && h.round.resp == h.round.parts
  {
    assert ThreadOk(h, t);
  }

  lemma FinStartInv(s: System, s': System, t: W)
    requires SysInv(s) && FinStartStep(s, s', t)
    ensures SysInv(s')
  {
    FinisherFired(s.h, t);
    if s.m.grey == map[] { EmptyStacksClose(s.m); }
    RootsSame(s, s');
  }

  /** A change of the check only. */
  lemma RootsSame(s: System, s': System)
    requires SysInv(s) && s.h.round.kind == Mark && s'.h == s.h && s'.m == s.m.(fin := s'.m.fin) && FinOk(s')
    ensures SysInv(s')
  {
    MarkingMutator.SameTri(s.m, s'.m);
  }

  lemma FinReadInv(s: System, s': System, t: W, w: W)
    requires SysInv(s) && FinReadStep(s, s', t, w)
    ensures SysInv(s')
  {
    RootsSame(s, s');
  }

  /** When both passes saw only empty remembered sets, all of them were empty when
      the check began, and from then on no white object can be named. */
  lemma FinEndInv(s: System, s': System, t: W)
    requires SysInv(s) && FinEndStep(s, s', t)
    ensures SysInv(s')
  {
    assert s.m.fin.snap.Keys == {};
    assert s.m.fin.snap == map[];
    RootsSame(s, s');
  }

  // -------------------------------------------------------------------- reclamation

  lemma ClearRememberedInv(s: System, s': System, t: W)
    requires SysInv(s) && ClearRememberedStep(s, s', t)
    ensures SysInv(s')
  {
    assert s'.m.grey == map[];
  }

  /** Freeing a white object: nobody names it. */
  lemma FreeInv(s: System, s': System, t: W, o: Obj)
    requires SysInv(s) && ResetStep(s, s', t, o) && White(s.m, o)
    ensures SysInv(s')
  {
    assert !Kept(s.m, o);
    assert s'.m.grey == map[];
    assert forall x :: x != o ==> (Kept(s'.m, x) <==> Kept(s.m, x));
  }

  lemma RenewInv(s: System, s': System, t: W, o: Obj)
    requires SysInv(s) && ResetStep(s, s', t, o) && !White(s.m, o)
    ensures SysInv(s')
  {
    assert forall x :: Kept(s'.m, x) <==> Kept(s.m, x);
  }
}
