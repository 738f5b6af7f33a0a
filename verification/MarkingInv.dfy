/** What holds in each round of a collection, and why every step keeps it. */
module MarkingInv {
  import opened Phases
  import opened Handshake
  import opened Marking
  import opened Tricolour

  /** Every pointer anywhere points to an allocated object. */
  ghost predicate AllLive(m: Heap) {
    && (forall u, x {:trigger x in m.roots[u]} :: u in m.roots && x in m.roots[u] ==> x in m.home)
    && (forall q {:trigger m.fld[q]} :: q in m.fld ==> m.fld[q] in m.home)
    && (forall k {:trigger m.glob[k]} :: k in m.glob ==> m.glob[k] in m.home)
  }

  /** x survives the reclamation in progress. */
  ghost predicate Kept(m: Heap, x: Obj) { x in m.home && (x in m.renewed || !White(m, x)) }

  /** Everything that can be reached is kept. */
  ghost predicate KeptClosed(m: Heap) {
    && (forall u, x {:trigger x in m.roots[u]} :: u in m.roots && x in m.roots[u] ==> Kept(m, x))
    && (forall q {:trigger m.fld[q]} :: q in m.fld && Kept(m, q.o) ==> Kept(m, m.fld[q]))
    && (forall k {:trigger m.glob[k]} :: k in m.glob ==> Kept(m, m.glob[k]))
  }

  ghost predicate Refs(s: System) {
    && (forall u :: u in s.m.owner ==> s.m.owner[u] in s.h.workers)
    && (forall o :: o in s.m.home ==> s.m.home[o] in s.h.workers)
    && (forall o :: o in s.m.grey ==> s.m.grey[o].holder in s.h.workers)
    && (s.m.enumerator.Some? ==> s.m.enumerator.value in s.h.workers)
  }

  /** No marked object has been traced at all. */
  ghost predicate Untraced(m: Heap) {
    forall x :: x in m.marked ==> x in m.grey && m.grey[x].next == 0
  }

  /** Worker w has done its action of the current round, or joined after it. */
  predicate Done(h: State, w: W) { w !in h.round.parts || w in h.round.resp }

  ghost predicate InSync1(s: System) {
    && s.m.target == s.m.home.Keys && AllLive(s.m) && Untraced(s.m)
    && s.m.scanned == {} && s.m.gnext == 0 && s.m.fin == Idle
    && (s.h.round.fired ==> s.m.enumerator.Some?)
  }

  ghost predicate UserOk(s: System, u: User) {
    && u in s.m.owner && s.m.owner[u] in s.h.workers
    && var w := s.m.owner[u];
    && var p := s.h.workers[w].phase;
    && (p == Sync1 || p == PreSync2 ==> u !in s.m.scanned)
    && (p == Sync2 && Done(s.h, w) ==> u in s.m.scanned)
  }

  ghost predicate InSync2(s: System) {
    && AllLive(s.m) && Tri(s.m) && Untraced(s.m) && s.m.fin == Idle
    && s.m.enumerator.Some? && s.m.enumerator.value in s.h.round.parts
    && (s.m.enumerator.value in s.h.round.resp ==> s.m.gnext == s.m.gsize)
    && (forall u {:trigger UserOk(s, u)} :: u in s.m.owner ==> UserOk(s, u))
  }

  /** Tracing is over: nothing is pending, and nothing white can be named. */
  ghost predicate Finished(m: Heap) { Closed(m) && m.grey == map[] }

  ghost predicate FinOk(s: System) {
    match s.m.fin
    case Idle => true
    case Checking(list, todo1, todo2, snap) =>
      && s.h.round.fired && todo1 <= s.h.workers.Keys
      && (forall o :: o in snap ==> o in s.m.grey && !s.m.grey[o].rooted && s.m.grey[o].holder in todo1)
      && (snap == map[] ==> Finished(s.m))
    case Verdict(ok) => s.h.round.fired && (ok ==> Finished(s.m))
  }

  ghost predicate InMark(s: System) {
    && AllLive(s.m) && Tri(s.m)
    && s.m.scanned == s.m.owner.Keys && s.m.gnext == s.m.gsize
    && (forall o :: o in s.m.grey && s.m.grey[o].rooted ==>
          s.m.grey[o].holder in s.h.round.parts && s.m.grey[o].holder !in s.h.round.resp)
    && FinOk(s)
  }

  ghost predicate InAsync(s: System) {
    && KeptClosed(s.m) && s.m.grey == map[] && s.m.renewed * s.m.marked == {} && s.m.fin == Idle
    && (forall o :: o in s.m.home && Done(s.h, s.m.home[o]) ==> o in s.m.renewed)
  }

  ghost predicate Stage(s: System) {
    match s.h.round.kind
    case Sync1 => InSync1(s)
    case Sync2 => InSync2(s)
    case Mark => InMark(s)
    case Async => InAsync(s)
    case _ => false
  }

  ghost predicate SysInv(s: System) {
    Inv(s.h) && WellFormed(s.m) && Refs(s) && Stage(s)
  }

  /** The barrier of a worker that still marks while the ASYNC handshake is under
      way shades an object that has been reset already. */
  predicate Dirty(s: System, a: Action) {
    && s.h.round.kind == Async
    && match a
       case Write(t, u, o, i, v) =>
         && t in s.h.workers && Code(s.h.workers[t].phase) >= Code(Sync1)
         && Slot(o, i) in s.m.fld && White(s.m, s.m.fld[Slot(o, i)])
       case WriteGlobal(t, u, k, v) =>
         && t in s.h.workers && Code(s.h.workers[t].phase) >= Code(Sync1)
         && k in s.m.glob && White(s.m, s.m.glob[k])
       case _ => false
  }

  // ------------------------------------------------------ facts from the handshake

  lemma MutatorPhase(h: State, t: W)
    requires Inv(h) && t in h.pc && h.pc[t] == InML
    ensures t in h.workers
    ensures var p := h.workers[t].phase;
            && p in {h.round.from, Pre(h.round.kind), h.round.kind}
            && (Done(h, t) ==> p == h.round.kind)
            && (p == h.round.kind && p != h.round.from ==> Done(h, t))
  {
    assert ThreadOk(h, t) && WorkerOk(h, t);
  }

  lemma ActorFacts(h: State, t: W)
    requires Inv(h) && t in h.pc && h.pc[t].Act?
    ensures var w := h.pc[t].w;
            w in h.workers && w in h.round.parts && !Done(h, w) && h.workers[w].phase == h.round.kind
    ensures !h.round.fired
  {
    assert ThreadOk(h, t);
  }

  // -------------------------------------------------------------------- the barrier

  /** m1 is m after a barrier of worker w. */
  ghost predicate Barred(m: Heap, m1: Heap, w: W) {
    && m1 == m.(marked := m1.marked, grey := m1.grey)
    && Shaded(m, m1, m1.marked - m.marked)
    && WellFormed(m1)
    && (forall x :: x in m1.grey && x !in m.grey ==> m1.grey[x] == Entry(w, false, 0))
  }

  lemma ShadeBarred(m: Heap, x: Option<Obj>, w: W)
    requires WellFormed(m)
    ensures Barred(m, ShadeOpt(m, x, w), w)
    ensures x.Some? ==> !White(ShadeOpt(m, x, w), x.value)
  {
  }

  lemma BarredTrans(m: Heap, m1: Heap, m2: Heap, w: W)
    requires Barred(m, m1, w) && Barred(m1, m2, w)
    ensures Barred(m, m2, w)
    ensures forall x :: !White(m1, x) ==> !White(m2, x)
  {
  }

  lemma BarrierEffect(m: Heap, p: Phase, w: W, old_value: Option<Obj>, new_value: Option<Obj>)
    requires WellFormed(m)
    ensures var m1 := Barrier(m, p, w, old_value, new_value);
            && Barred(m, m1, w)
            && (Code(p) >= Code(Sync1) && old_value.Some? ==> !White(m1, old_value.value))
            && (Code(Sync1) <= Code(p) <= Code(Sync2) && new_value.Some? ==> !White(m1, new_value.value))
  {
    if Code(p) >= Code(Sync1) {
      var m1 := if Code(p) <= Code(Sync2) then ShadeOpt(m, new_value, w) else m;
      ShadeBarred(m, new_value, w);
      ShadeBarred(m1, old_value, w);
      assert Barred(m, m1, w);
      BarredTrans(m, m1, ShadeOpt(m1, old_value, w), w);
    }
  }

  /** The barrier itself, in any round of a collection. */
  lemma BarrierTri(m: Heap, p: Phase, w: W, old_value: Option<Obj>, new_value: Option<Obj>)
    requires WellFormed(m) && Tri(m)
    ensures var m1 := Barrier(m, p, w, old_value, new_value);
            Tri(m1) && forall x :: Covered(m, x) ==> Covered(m1, x)
  {
    var m1 := Barrier(m, p, w, old_value, new_value);
    BarrierEffect(m, p, w, old_value, new_value);
    ShadedTri(m, m1, m1.marked - m.marked);
    ShadedKeeps(m, m1, m1.marked - m.marked);
    forall x | Covered(m, x) ensures Covered(m1, x) { CoveredStep(m, m1, x); }
  }
}
