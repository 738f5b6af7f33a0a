/** Every mutator step keeps the invariant, in every round. */
module MarkingMutator {
  import opened Phases
  import opened Handshake
  import opened Marking
  import opened Tricolour
  import opened MarkingInv

  // ---------------------------------------------------------------------- writing

  /** The heap after the barrier and the store of sml_write. */
  function Stored(s: System, t: W, q: Slot, v: Option<Obj>): Heap
    requires t in s.h.workers
  {
    var m1 := Barrier(s.m, s.h.workers[t].phase, t, Get(s.m.fld, q), v);
    m1.(fld := Put(m1.fld, q, v))
  }

  predicate CanWrite(s: System, t: W, u: User, q: Slot, v: Option<Obj>) {
    && Running(s, t, u)
    && q.o in s.m.roots[u] && q.o in s.m.size && q.i < s.m.size[q.o] && MayStore(s.m, u, v)
  }

  lemma BarrierNoop(m: Heap, p: Phase, w: W, old_value: Option<Obj>, new_value: Option<Obj>)
    requires old_value.Some? ==> !White(m, old_value.value)
    requires new_value.Some? ==> !White(m, new_value.value)
    ensures Barrier(m, p, w, old_value, new_value) == m
  {
  }

  lemma WriteForm(s: System, t: W, u: User, q: Slot, v: Option<Obj>)
    requires WellFormed(s.m) && Refs(s) && CanWrite(s, t, u, q, v)
    ensures var s' := s.(m := Stored(s, t, q, v)); WellFormed(s'.m) && Refs(s')
    ensures AllLive(s.m) ==> AllLive(Stored(s, t, q, v))
  {
    BarrierEffect(s.m, s.h.workers[t].phase, t, Get(s.m.fld, q), v);
  }

  lemma WriteSync1(s: System, t: W, u: User, q: Slot, v: Option<Obj>)
    requires SysInv(s) && CanWrite(s, t, u, q, v) && s.h.round.kind == Sync1
    ensures SysInv(s.(m := Stored(s, t, q, v)))
  {
    WriteForm(s, t, u, q, v);
    BarrierEffect(s.m, s.h.workers[t].phase, t, Get(s.m.fld, q), v);
  }

  /** Between the first and the last SYNC2 answer both values are shaded. */
  lemma WriteSync2(s: System, t: W, u: User, q: Slot, v: Option<Obj>)
    requires SysInv(s) && CanWrite(s, t, u, q, v) && s.h.round.kind == Sync2
    ensures SysInv(s.(m := Stored(s, t, q, v)))
  {
    var s' := s.(m := Stored(s, t, q, v));
    MutatorPhase(s.h, t);
    WriteForm(s, t, u, q, v);
    var p, w := s.h.workers[t].phase, Get(s.m.fld, q);
    BarrierEffect(s.m, p, t, w, v);
    BarrierTri(s.m, p, t, w, v);
    StoreTri(Barrier(s.m, p, t, w, v), q, v);
    forall x | x in s'.m.owner ensures UserOk(s', x) { assert UserOk(s, x); }
  }

  lemma StoredClosed(s: System, t: W, u: User, q: Slot, v: Option<Obj>)
    requires CanWrite(s, t, u, q, v) && Closed(s.m)
    ensures Closed(Stored(s, t, q, v))
  {
    BarrierNoop(s.m, s.h.workers[t].phase, t, Get(s.m.fld, q), v);
  }

  lemma StoredTri(s: System, t: W, u: User, q: Slot, v: Option<Obj>)
    requires WellFormed(s.m) && Tri(s.m) && CanWrite(s, t, u, q, v) && u in s.m.scanned
    requires Code(s.h.workers[t].phase) >= Code(Sync1)
    ensures Tri(Stored(s, t, q, v))
  {
    var p, w := s.h.workers[t].phase, Get(s.m.fld, q);
    BarrierEffect(s.m, p, t, w, v);
    BarrierTri(s.m, p, t, w, v);
    StoreTri(Barrier(s.m, p, t, w, v), q, v);
  }

  /** A barrier of a mutator, followed by a store, in a MARK round. */
  lemma MarkKept(s: System, m1: Heap, m': Heap, w: W)
    requires WellFormed(s.m) && InMark(s) && Barred(s.m, m1, w) && AllLive(m') && Tri(m')
    requires m' == m1.(fld := m'.fld, glob := m'.glob)
    requires Closed(s.m) ==> Closed(m') && m1 == s.m
    ensures InMark(s.(m := m'))
  {
    BarredGrey(s.m, m1, w);
    FinKept(s, m1, m', w);
  }

  lemma BarredGrey(m: Heap, m1: Heap, w: W)
    requires WellFormed(m) && Barred(m, m1, w)
    ensures forall o :: o in m.grey ==> o in m1.grey && m1.grey[o] == m.grey[o]
  {
    forall o | o in m.grey ensures o in m1.grey && m1.grey[o] == m.grey[o] { assert !White(m, o); }
  }

  lemma FinKept(s: System, m1: Heap, m': Heap, w: W)
    requires WellFormed(s.m) && FinOk(s) && Barred(s.m, m1, w) && m' == m1.(fld := m'.fld, glob := m'.glob)
    requires Closed(s.m) ==> Closed(m') && m1 == s.m
    ensures FinOk(s.(m := m'))
  {
    BarredGrey(s.m, m1, w);
  }

  lemma WriteMark(s: System, t: W, u: User, q: Slot, v: Option<Obj>)
    requires SysInv(s) && CanWrite(s, t, u, q, v) && s.h.round.kind == Mark
    ensures SysInv(s.(m := Stored(s, t, q, v)))
  {
    var p, w := s.h.workers[t].phase, Get(s.m.fld, q);
    MutatorPhase(s.h, t);
    WriteForm(s, t, u, q, v);
    BarrierEffect(s.m, p, t, w, v);
    StoredTri(s, t, u, q, v);
    if Closed(s.m) {
      BarrierNoop(s.m, p, t, w, v);
      StoredClosed(s, t, u, q, v);
    }
    MarkKept(s, Barrier(s.m, p, t, w, v), Stored(s, t, q, v), t);
  }

  lemma WriteAsync(s: System, t: W, u: User, q: Slot, v: Option<Obj>)
    requires SysInv(s) && CanWrite(s, t, u, q, v) && s.h.round.kind == Async
    requires !Dirty(s, Write(t, u, q.o, q.i, v))
    ensures SysInv(s.(m := Stored(s, t, q, v)))
  {
    hide InSync1, InSync2, InMark, Tri;
    MutatorPhase(s.h, t);
    WriteForm(s, t, u, q, v);
    assert Barrier(s.m, s.h.workers[t].phase, t, Get(s.m.fld, q), v) == s.m;
  }

  lemma WriteInv(s: System, s': System, t: W, u: User, o: Obj, i: nat, v: Option<Obj>)
    requires SysInv(s) && WriteStep(s, s', t, u, o, i, v) && !Dirty(s, Write(t, u, o, i, v))
    ensures SysInv(s')
  {
    var q := Slot(o, i);
    match s.h.round.kind
    case Sync1 => WriteSync1(s, t, u, q, v);
    case Sync2 => WriteSync2(s, t, u, q, v);
    case Mark => WriteMark(s, t, u, q, v);
    case Async => WriteAsync(s, t, u, q, v);
  }

  /** Global slots are written through the same barrier. */
  function StoredGlobal(s: System, t: W, k: nat, v: Option<Obj>): Heap
    requires t in s.h.workers
  {
    var m1 := Barrier(s.m, s.h.workers[t].phase, t, Get(s.m.glob, k), v);
    m1.(glob := Put(m1.glob, k, v))
  }

  predicate CanWriteGlobal(s: System, t: W, u: User, k: nat, v: Option<Obj>) {
    Running(s, t, u) && k < s.m.gsize && MayStore(s.m, u, v)
  }

  lemma GlobalForm(s: System, t: W, u: User, k: nat, v: Option<Obj>)
    requires WellFormed(s.m) && Refs(s) && CanWriteGlobal(s, t, u, k, v)
    ensures var s' := s.(m := StoredGlobal(s, t, k, v)); WellFormed(s'.m) && Refs(s')
    ensures AllLive(s.m) ==> AllLive(StoredGlobal(s, t, k, v))
  {
    BarrierEffect(s.m, s.h.workers[t].phase, t, Get(s.m.glob, k), v);
  }

  lemma GlobalTri(s: System, t: W, u: User, k: nat, v: Option<Obj>)
    requires WellFormed(s.m) && Tri(s.m) && CanWriteGlobal(s, t, u, k, v)
    requires var c := Code(s.h.workers[t].phase);
             Code(Sync1) <= c && (c <= Code(Sync2) || u in s.m.scanned)
    ensures Tri(StoredGlobal(s, t, k, v))
  {
    var p, w := s.h.workers[t].phase, Get(s.m.glob, k);
    BarrierEffect(s.m, p, t, w, v);
    BarrierTri(s.m, p, t, w, v);
    StoreGlobalTri(Barrier(s.m, p, t, w, v), k, v);
  }

  lemma WriteGlobalMarking(s: System, t: W, u: User, k: nat, v: Option<Obj>)
    requires SysInv(s) && CanWriteGlobal(s, t, u, k, v) && s.h.round.kind == Mark
    ensures InMark(s.(m := StoredGlobal(s, t, k, v)))
  {
    var p, w := s.h.workers[t].phase, Get(s.m.glob, k);
    MutatorPhase(s.h, t);
    GlobalForm(s, t, u, k, v);
    BarrierEffect(s.m, p, t, w, v);
    GlobalTri(s, t, u, k, v);
    if Closed(s.m) { BarrierNoop(s.m, p, t, w, v); }
    MarkKept(s, Barrier(s.m, p, t, w, v), StoredGlobal(s, t, k, v), t);
  }

  lemma WriteGlobalSyncing(s: System, t: W, u: User, k: nat, v: Option<Obj>)
    requires SysInv(s) && CanWriteGlobal(s, t, u, k, v) && (s.h.round.kind == Sync1 || s.h.round.kind == Sync2)
    ensures Stage(s.(m := StoredGlobal(s, t, k, v)))
  {
    var s' := s.(m := StoredGlobal(s, t, k, v));
    MutatorPhase(s.h, t);
    GlobalForm(s, t, u, k, v);
    BarrierEffect(s.m, s.h.workers[t].phase, t, Get(s.m.glob, k), v);
    if s.h.round.kind == Sync2 {
      GlobalTri(s, t, u, k, v);
      forall x | x in s'.m.owner ensures UserOk(s', x) { assert UserOk(s, x); }
    }
  }

  lemma WriteGlobalAsync(s: System, t: W, u: User, k: nat, v: Option<Obj>)
    requires SysInv(s) && CanWriteGlobal(s, t, u, k, v) && s.h.round.kind == Async
    requires !Dirty(s, WriteGlobal(t, u, k, v))
    ensures InAsync(s.(m := StoredGlobal(s, t, k, v)))
  {
    MutatorPhase(s.h, t);
    assert Barrier(s.m, s.h.workers[t].phase, t, Get(s.m.glob, k), v) == s.m;
  }

  lemma WriteGlobalInv(s: System, s': System, t: W, u: User, k: nat, v: Option<Obj>)
    requires SysInv(s) && WriteGlobalStep(s, s', t, u, k, v) && !Dirty(s, WriteGlobal(t, u, k, v))
    ensures SysInv(s')
  {
    GlobalForm(s, t, u, k, v);
    match s.h.round.kind
    case Sync1 => WriteGlobalSyncing(s, t, u, k, v);
    case Sync2 => WriteGlobalSyncing(s, t, u, k, v);
    case Mark => WriteGlobalMarking(s, t, u, k, v);
    case Async => WriteGlobalAsync(s, t, u, k, v);
  }

  // ---------------------------------------------------------------- roots of a user

  /** A change that leaves everything but the roots of user u alone. */
  ghost predicate NewRoots(s: System, s': System, u: User, rs: set<Obj>) {
    && u in s.m.roots
    && s' == s.(m := s.m.(roots := s.m.roots[u := rs]))
  }

  /** Enough to know about each new root of a running user. */
  ghost predicate Nameable(s: System, u: User, x: Obj) {
    match s.h.round.kind
    case Sync1 => x in s.m.home
    case Sync2 => x in s.m.home && (u in s.m.scanned ==> Covered(s.m, x))
    case Mark => x in s.m.home && Covered(s.m, x) && (Closed(s.m) ==> !White(s.m, x))
    case _ => Kept(s.m, x)
  }

  lemma SameTri(m: Heap, m': Heap)
    requires Tri(m) && SameGraph(m, m') && m'.roots == m.roots && m'.scanned == m.scanned
    ensures Tri(m')
    ensures Closed(m) ==> Closed(m')
  {
    RootsTri(m, m');
  }

  lemma RootsSync2(s: System, s': System, u: User, rs: set<Obj>)
    requires InSync2(s) && s.h.round.kind == Sync2 && NewRoots(s, s', u, rs)
    requires forall x :: x in rs ==> x in s.m.roots[u] || Nameable(s, u, x)
    ensures InSync2(s')
  {
    RootsTri(s.m, s'.m);
    forall x | x in s'.m.owner ensures UserOk(s', x) { assert UserOk(s, x); }
  }

  lemma RootsMark(s: System, s': System, u: User, rs: set<Obj>)
    requires WellFormed(s.m) && InMark(s) && s.h.round.kind == Mark && NewRoots(s, s', u, rs)
    requires forall x :: x in rs ==> x in s.m.roots[u] || Nameable(s, u, x)
    ensures InMark(s')
  {
    RootsTri(s.m, s'.m);
  }

  lemma RootsInv(s: System, s': System, u: User, rs: set<Obj>)
    requires SysInv(s) && NewRoots(s, s', u, rs)
    requires forall x :: x in rs ==> x in s.m.roots[u] || Nameable(s, u, x)
    ensures SysInv(s')
  {
    hide InSync1, InSync2, InMark, InAsync, Inv;
    match s.h.round.kind
    case Sync1 => RootsSync1(s, s', u, rs);
    case Sync2 => RootsSync2(s, s', u, rs);
    case Mark => RootsMark(s, s', u, rs);
    case Async => RootsAsync(s, s', u, rs);
  }

  lemma RootsSync1(s: System, s': System, u: User, rs: set<Obj>)
    requires WellFormed(s.m) && InSync1(s) && NewRoots(s, s', u, rs)
    requires forall x :: x in rs ==> x in s.m.roots[u] || Nameable(s, u, x)
    ensures InSync1(s')
  {
  }

  lemma RootsAsync(s: System, s': System, u: User, rs: set<Obj>)
    requires WellFormed(s.m) && InAsync(s) && s.h.round.kind == Async && NewRoots(s, s', u, rs)
    requires forall x :: x in rs ==> x in s.m.roots[u] || Nameable(s, u, x)
    ensures InAsync(s')
  {
  }

  lemma LoadInv(s: System, s': System, t: W, u: User, o: Obj, i: nat)
    requires SysInv(s) && LoadStep(s, s', t, u, o, i)
    ensures SysInv(s')
  {
    var q := Slot(o, i);
    if s.h.round.kind == Sync2 && u in s.m.scanned { CoveredLink(s.m, q); }
    if s.h.round.kind == Mark { CoveredLink(s.m, q); }
    RootsInv(s, s', u, s.m.roots[u] + {s.m.fld[q]});
  }

  lemma LoadGlobalInv(s: System, s': System, t: W, u: User, k: nat)
    requires SysInv(s) && LoadGlobalStep(s, s', t, u, k)
    ensures SysInv(s')
  {
    RootsInv(s, s', u, s.m.roots[u] + {s.m.glob[k]});
  }

  lemma DropInv(s: System, s': System, t: W, u: User, keep: set<Obj>)
    requires SysInv(s) && DropStep(s, s', t, u, keep)
    ensures SysInv(s')
  {
    RootsInv(s, s', u, keep);
  }

  // -------------------------------------------------------------------- allocation

  lemma AllocGrown(s: System, s': System, t: W, u: User, x: Obj, n: nat, init: map<nat, Obj>)
    requires WellFormed(s.m) && AllocStep(s, s', t, u, x, n, init)
    ensures Grown(s.m, s'.m, s.h.workers[t].phase, t, u, x)
    ensures s'.h == s.h
  {
    AllocEffect(s.m, s.h.workers[t].phase, t, u, x, n, init);
  }

  lemma AllocForm(m: Heap, m': Heap, p: Phase, t: W, u: User, x: Obj)
    requires WellFormed(m) && Grown(m, m', p, t, u, x)
    ensures WellFormed(m')
    ensures AllLive(m) ==> AllLive(m')
  {
  }

  lemma AllocClosed(m: Heap, m': Heap, p: Phase, t: W, u: User, x: Obj)
    requires WellFormed(m) && Closed(m) && Grown(m, m', p, t, u, x) && !BeforeSnapshot(p)
    ensures Closed(m')
  {
  }

  lemma AllocSync2(s: System, s': System, t: W, u: User, x: Obj)
    requires InSync2(s) && s'.h == s.h && t in s.h.workers && Grown(s.m, s'.m, s.h.workers[t].phase, t, u, x)
    requires AllLive(s'.m) && Tri(s'.m)
    ensures InSync2(s')
  {
    forall y | y in s'.m.owner ensures UserOk(s', y) { assert UserOk(s, y); }
  }

  lemma AllocAsync(s: System, s': System, t: W, u: User, x: Obj)
    requires Inv(s.h) && WellFormed(s.m) && InAsync(s) && s.h.round.kind == Async && Running(s, t, u)
    requires s'.h == s.h && Grown(s.m, s'.m, s.h.workers[t].phase, t, u, x)
    ensures InAsync(s')
  {
    MutatorPhase(s.h, t);
    assert forall y :: Kept(s.m, y) ==> Kept(s'.m, y);
    assert Kept(s'.m, x);
    assert forall y :: Kept(s'.m, y) && y != x ==> Kept(s.m, y);
  }

  lemma AllocMark(s: System, s': System, t: W, u: User, x: Obj)
    requires WellFormed(s.m) && InMark(s) && s'.h == s.h && t in s.h.workers
    requires Grown(s.m, s'.m, s.h.workers[t].phase, t, u, x) && !BeforeSnapshot(s.h.workers[t].phase)
    requires Tri(s'.m)
    ensures InMark(s')
  {
    AllocForm(s.m, s'.m, s.h.workers[t].phase, t, u, x);
    if Closed(s.m) { AllocClosed(s.m, s'.m, s.h.workers[t].phase, t, u, x); }
  }

  /** A user on a worker that took its snapshot has been enumerated, and allocates black. */
  lemma AllocColour(s: System, t: W, u: User)
    requires SysInv(s) && Running(s, t, u) && (s.h.round.kind == Sync2 || s.h.round.kind == Mark)
    ensures u in s.m.scanned <==> !BeforeSnapshot(s.h.workers[t].phase)
    ensures s.h.round.kind == Mark ==> u in s.m.scanned
  {
    MutatorPhase(s.h, t);
    if s.h.round.kind == Sync2 { assert UserOk(s, u); }
  }

  lemma AllocInv(s: System, s': System, t: W, u: User, x: Obj, n: nat, init: map<nat, Obj>)
    requires SysInv(s) && AllocStep(s, s', t, u, x, n, init)
    ensures SysInv(s')
  {
    AllocGrown(s, s', t, u, x, n, init);
    GrownInv(s, s', t, u, x);
  }

  lemma GrownInv(s: System, s': System, t: W, u: User, x: Obj)
    requires SysInv(s) && s'.h == s.h && Running(s, t, u) && Grown(s.m, s'.m, s.h.workers[t].phase, t, u, x)
    ensures SysInv(s')
  {
    hide InSync1, InSync2, InMark, InAsync, Inv;
    AllocForm(s.m, s'.m, s.h.workers[t].phase, t, u, x);
    match s.h.round.kind
    case Sync1 => GrownSync1(s, s', t, u, x);
    case Sync2 => GrownSync2(s, s', t, u, x);
    case Mark => GrownMark(s, s', t, u, x);
    case Async => AllocAsync(s, s', t, u, x);
  }

  lemma GrownSync1(s: System, s': System, t: W, u: User, x: Obj)
    requires SysInv(s) && s.h.round.kind == Sync1 && s'.h == s.h
    requires Running(s, t, u) && Grown(s.m, s'.m, s.h.workers[t].phase, t, u, x)
    ensures InSync1(s')
  {
    MutatorPhase(s.h, t);
  }

  lemma GrownSync2(s: System, s': System, t: W, u: User, x: Obj)
    requires SysInv(s) && s.h.round.kind == Sync2 && s'.h == s.h
    requires Running(s, t, u) && Grown(s.m, s'.m, s.h.workers[t].phase, t, u, x)
    ensures InSync2(s')
  {
    AllocColour(s, t, u);
    GrownTri(s.m, s'.m, s.h.workers[t].phase, t, u, x);
    AllocSync2(s, s', t, u, x);
  }

  lemma GrownMark(s: System, s': System, t: W, u: User, x: Obj)
    requires SysInv(s) && s.h.round.kind == Mark && s'.h == s.h
    requires Running(s, t, u) && Grown(s.m, s'.m, s.h.workers[t].phase, t, u, x)
    ensures InMark(s')
  {
    AllocColour(s, t, u);
    GrownTri(s.m, s'.m, s.h.workers[t].phase, t, u, x);
    AllocMark(s, s', t, u, x);
  }

  // -------------------------------------------------------------- users come and move

  lemma NewUserSync2(s: System, s': System, t: W, u: User)
    requires SysInv(s) && NewUserStep(s, s', t, u) && s.h.round.kind == Sync2
    ensures InSync2(s')
  {
    MutatorPhase(s.h, t);
    RootsTri(s.m, s'.m);
    forall x | x in s'.m.owner ensures UserOk(s', x) { assert x != u ==> UserOk(s, x); }
  }

  lemma NewUserMark(s: System, s': System, t: W, u: User)
    requires SysInv(s) && NewUserStep(s, s', t, u) && s.h.round.kind == Mark
    ensures InMark(s')
  {
    MutatorPhase(s.h, t);
    RootsTri(s.m, s'.m);
  }

  lemma NewUserInv(s: System, s': System, t: W, u: User)
    requires SysInv(s) && NewUserStep(s, s', t, u)
    ensures SysInv(s')
  {
    MutatorPhase(s.h, t);
    match s.h.round.kind
    case Sync1 =>
    case Sync2 => NewUserSync2(s, s', t, u);
    case Mark => NewUserMark(s, s', t, u);
    case Async =>
  }

  /** Without an enumeration: the new worker will enumerate the user itself, or
      everybody has been enumerated already, or nobody is being yet. */
  lemma MigrateQuietSync2(s: System, s': System, t: W, u: User)
    requires SysInv(s) && MigrateStep(s, s', t, u, false) && s.h.round.kind == Sync2
    ensures InSync2(s')
  {
    MutatorPhase(s.h, t);
    RootsTri(s.m, s'.m);
    forall x | x in s'.m.owner ensures UserOk(s', x) { assert UserOk(s, x); }
  }

  lemma MigrateQuietMark(s: System, s': System, t: W, u: User)
    requires SysInv(s) && MigrateStep(s, s', t, u, false) && s.h.round.kind == Mark
    ensures InMark(s')
  {
    MutatorPhase(s.h, t);
    RootsTri(s.m, s'.m);
  }

  lemma MigrateQuietInv(s: System, s': System, t: W, u: User)
    requires SysInv(s) && MigrateStep(s, s', t, u, false)
    ensures SysInv(s')
  {
    match s.h.round.kind
    case Sync1 =>
    case Sync2 => MigrateQuietSync2(s, s', t, u);
    case Mark => MigrateQuietMark(s, s', t, u);
    case Async => MutatorPhase(s.h, t);
  }

  /** Enumerating a user: afterwards none of its roots is white. */
  lemma ShadeAllTri(m: Heap, u: User, w: W, owner: map<User, W>)
    requires WellFormed(m) && Tri(m) && u in m.roots
    ensures Tri(ShadeAll(m, m.roots[u], w).(scanned := m.scanned + {u}, owner := owner))
  {
    var m1 := ShadeAll(m, m.roots[u], w);
    ShadeAllShaded(m, m.roots[u], w);
    ShadedTri(m, m1, set x | x in m.roots[u] && White(m, x));
    RootsTri(m1, m1.(scanned := m.scanned + {u}, owner := owner));
  }

  lemma MigrateScanInv(s: System, s': System, t: W, u: User)
    requires SysInv(s) && MigrateStep(s, s', t, u, true)
    ensures SysInv(s')
  {
    MutatorPhase(s.h, t);
    var m1 := ShadeAll(s.m, s.m.roots[u], t);
    ShadeAllShaded(s.m, s.m.roots[u], t);
    ShadeAllKeepsForm(s.m, s.m.roots[u], t);
    ShadeAllTri(s.m, u, t, s.m.owner[u := t]);
    if s.h.round.kind == Sync2 {
      forall x | x in s'.m.owner ensures UserOk(s', x) { assert UserOk(s, x); }
    } else {
      assert WorkerOk(s.h, t);
    }
  }
}
