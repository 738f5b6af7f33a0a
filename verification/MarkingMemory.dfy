/** What memory does under the mutators, whatever the collector is doing: a field holds
    what was last stored in it, and loading it gives that value. */
module MarkingMemory {
  import opened Phases
  import opened Handshake
  import opened Marking
  import opened MarkingSafety

  /** The contents of a field and of a global slot. */
  function Field(s: System, o: Obj, i: nat): Option<Obj> {
    if Slot(o, i) in s.m.fld then Some(s.m.fld[Slot(o, i)]) else None
  }

  function Global(s: System, k: nat): Option<Obj> { if k in s.m.glob then Some(s.m.glob[k]) else None }

  predicate Frees(s: System, s': System, o: Obj) { o in s.m.home && o !in s'.m.home }

  /** The step writes field i of o, or frees o. */
  predicate Changes(s: System, s': System, a: Action, o: Obj, i: nat) {
    (a.Write? && a.o == o && a.i == i) || Frees(s, s', o)
  }

  /** The roots of all users are as they were, except that u has got x as well. */
  predicate Gets(s: System, s': System, u: User, x: Obj) {
    && u in s.m.roots && s'.m.roots.Keys == s.m.roots.Keys && s'.m.roots[u] == s.m.roots[u] + {x}
    && forall w :: w in s.m.roots && w != u ==> s'.m.roots[w] == s.m.roots[w]
  }

  // --------------------------------------------------------------------- one step

  /** Fields belong to allocated objects. */
  ghost predicate Tidy(m: Heap) {
    m.size.Keys == m.home.Keys && m.roots.Keys == m.owner.Keys && forall q :: q in m.fld ==> q.o in m.home
  }

  /** Nothing but mark bits and mark stacks has changed. */
  predicate MarksOnly(m: Heap, m': Heap) {
    m' == m.(marked := m'.marked, grey := m'.grey)
  }

  lemma ShadeLeaves(m: Heap, x: Obj, w: W, rooted: bool)
    ensures MarksOnly(m, Shade(m, x, w, rooted))
  {
    hide White;
  }

  lemma ShadeOptLeaves(m: Heap, x: Option<Obj>, w: W)
    ensures MarksOnly(m, ShadeOpt(m, x, w))
  {
    hide Shade;
    if x.Some? { ShadeLeaves(m, x.value, w, false); }
  }

  lemma BarrierLeaves(m: Heap, p: Phase, w: W, old_value: Option<Obj>, new_value: Option<Obj>)
    ensures MarksOnly(m, Barrier(m, p, w, old_value, new_value))
  {
    hide ShadeOpt, Code;
    ShadeOptLeaves(m, new_value, w);
    ShadeOptLeaves(m, old_value, w);
    ShadeOptLeaves(ShadeOpt(m, new_value, w), old_value, w);
  }

  lemma ShadeAllLeaves(m: Heap, xs: set<Obj>, w: W)
    ensures MarksOnly(m, ShadeAll(m, xs, w))
  {
    hide White;
  }

  predicate Stores(a: Action) { a.Write? || a.WriteGlobal? || a.Alloc? || a.Reset? }

  predicate Loads(a: Action) { a.Load? || a.LoadGlobal? || a.Drop? }

  /** Memory is the same, except for roots. */
  predicate SameMemory(m: Heap, m': Heap) { m'.home == m.home && m'.size == m.size && m'.fld == m.fld && m'.glob == m.glob }

  /** Who is there and who has what. */
  predicate SameRoots(m: Heap, m': Heap) { m'.roots == m.roots && m'.owner.Keys == m.owner.Keys }

  lemma ShakeLeaves(s: System, s': System, step: Step)
    requires ShakeStep(s, s', step)
    ensures SameMemory(s.m, s'.m) && SameRoots(s.m, s'.m) && s'.m.owner == s.m.owner
  {
    hide Next, ActionDone;
  }

  lemma MigrateLeaves(s: System, s': System, t: W, u: User, scan: bool)
    requires MigrateStep(s, s', t, u, scan)
    ensures s'.m.owner == s.m.owner[u := t]
    ensures SameMemory(s.m, s'.m) && SameRoots(s.m, s'.m)
  {
    hide ShadeAll, MayMigrate;
    ShadeAllLeaves(s.m, s.m.roots[u], t);
  }

  lemma ScanUserLeaves(s: System, s': System, t: W, u: User)
    requires ScanUserStep(s, s', t, u)
    ensures SameMemory(s.m, s'.m) && SameRoots(s.m, s'.m) && s'.m.owner == s.m.owner
  {
    hide ShadeAll;
    ShadeAllLeaves(s.m, s.m.roots[u], s.h.pc[t].w);
  }

  lemma ScanGlobalLeaves(s: System, s': System, t: W)
    requires ScanGlobalStep(s, s', t)
    ensures SameMemory(s.m, s'.m) && SameRoots(s.m, s'.m) && s'.m.owner == s.m.owner
  {
    hide Shade;
    if s.m.gnext in s.m.glob { ShadeLeaves(s.m, s.m.glob[s.m.gnext], s.h.pc[t].w, true); }
  }

  lemma TraceLeaves(s: System, s': System, t: W, o: Obj)
    requires TraceStep(s, s', t, o)
    ensures SameMemory(s.m, s'.m) && SameRoots(s.m, s'.m) && s'.m.owner == s.m.owner
  {
    hide Shade;
    var e := s.m.grey[o];
    var q := Slot(o, e.next);
    if q in s.m.fld { ShadeLeaves(s.m, s.m.fld[q], e.holder, e.rooted); }
  }

  /** The handshake and the collector while it marks change neither memory nor roots. */
  lemma OthersLeave(s: System, s': System, a: Action)
    requires NextSystem(s, s', a) && !Stores(a) && !Loads(a) && !a.NewUser?
    ensures s'.m.owner == if a.Migrate? then s.m.owner[a.u := a.t] else s.m.owner
    ensures SameMemory(s.m, s'.m) && SameRoots(s.m, s'.m)
  {
    hide ShakeStep, MigrateStep, ScanUserStep, ScanGlobalStep, TraceStep, Remembers, Finisher, Acting;
    match a
    case Shake(step) => ShakeLeaves(s, s', step);
    case Migrate(t, u, scan) => MigrateLeaves(s, s', t, u, scan);
    case ScanUser(t, u) => ScanUserLeaves(s, s', t, u);
    case ScanGlobal(t) => ScanGlobalLeaves(s, s', t);
    case Trace(t, o) => TraceLeaves(s, s', t, o);
    case _ =>
  }

  lemma LoadLeaves(s: System, s': System, a: Action)
    requires NextSystem(s, s', a) && (Loads(a) || a.NewUser?)
    ensures SameMemory(s.m, s'.m)
  {
    hide Code;
  }

  /** Freeing an object leaves the others alone. */
  lemma ResetLeaves(s: System, s': System, t: W, o: Obj)
    requires ResetStep(s, s', t, o)
    ensures s'.m.glob == s.m.glob && s'.m.roots == s.m.roots && s'.m.owner == s.m.owner
    ensures forall p, i :: p in s'.m.home ==> p in s.m.home && Field(s', p, i) == Field(s, p, i)
    ensures SameMemory(s.m, s'.m) || (s'.m.home == s.m.home - {o} && s'.m.size == s.m.size - {o})
    ensures forall q :: q in s'.m.fld ==> q in s.m.fld && (s'.m.home == s.m.home || q.o != o)
  {
    hide White, Acting;
  }

  /** sml_write stores its value in the field, and in no other. */
  lemma WriteStores(s: System, s': System, t: W, u: User, o: Obj, i: nat, v: Option<Obj>)
    requires WriteStep(s, s', t, u, o, i, v)
    ensures Field(s', o, i) == v && s'.m.glob == s.m.glob && s'.m.roots == s.m.roots && s'.m.owner == s.m.owner
    ensures s'.m.home == s.m.home && s'.m.size == s.m.size && o in s.m.size
    ensures forall p, j :: p != o || j != i ==> Field(s', p, j) == Field(s, p, j)
  {
    hide Barrier, MayStore;
    BarrierLeaves(s.m, s.h.workers[t].phase, t, Get(s.m.fld, Slot(o, i)), v);
  }

  lemma WriteGlobalStores(s: System, s': System, t: W, u: User, k: nat, v: Option<Obj>)
    requires WriteGlobalStep(s, s', t, u, k, v)
    ensures Global(s', k) == v && s'.m.fld == s.m.fld && s'.m.roots == s.m.roots && s'.m.owner == s.m.owner
    ensures s'.m.home == s.m.home && s'.m.size == s.m.size
    ensures forall l :: l != k ==> Global(s', l) == Global(s, l)
  {
    hide Barrier, MayStore;
    BarrierLeaves(s.m, s.h.workers[t].phase, t, Get(s.m.glob, k), v);
  }

  /** A new object has its initial values and no others, and only its creator has it. */
  lemma AllocStores(s: System, s': System, t: W, u: User, x: Obj, n: nat, init: map<nat, Obj>)
    requires Tidy(s.m) && AllocStep(s, s', t, u, x, n, init)
    ensures x !in s.m.home && s'.m.home == s.m.home[x := t] && s'.m.size == s.m.size[x := n]
    ensures forall i: nat :: Field(s', x, i) == if i in init then Some(init[i]) else None
    ensures forall p, j :: p != x ==> Field(s', p, j) == Field(s, p, j)
    ensures Gets(s, s', u, x) && s'.m.glob == s.m.glob && s'.m.owner == s.m.owner
  {
    hide BeforeSnapshot, Slots;
    var slots := Slots(x, init);
    SlotsHold(x, init);
    forall i: nat ensures Field(s', x, i) == if i in init then Some(init[i]) else None {
      assert Slot(x, i) !in s.m.fld;
      assert Slot(x, i) in slots <==> i in init;
    }
  }

  lemma SlotsHold(x: Obj, init: map<nat, Obj>)
    ensures forall q :: q in Slots(x, init) <==> q.o == x && q.i in init
    ensures forall q :: q in Slots(x, init) ==> Slots(x, init)[q] == init[q.i]
  {
    forall q: Slot | q.o == x && q.i in init ensures q in Slots(x, init) { assert q == Slot(x, q.i); }
  }

  /** A field of an allocated object changes only when it is written or the object is
      freed. */
  lemma StepKeeps(s: System, s': System, a: Action, o: Obj, i: nat)
    requires Tidy(s.m) && NextSystem(s, s', a) && o in s.m.home && !Changes(s, s', a, o, i)
    ensures o in s'.m.home && Field(s', o, i) == Field(s, o, i)
  {
    hide WriteStep, WriteGlobalStep, AllocStep, ResetStep, ShakeStep, MigrateStep, ScanUserStep, ScanGlobalStep, TraceStep;
    hide LoadStep, LoadGlobalStep, DropStep, NewUserStep, FinStartStep, FinReadStep, FinEndStep, ClearRememberedStep;
    match a
    case Write(t, u, p, j, v) => WriteStores(s, s', t, u, p, j, v);
    case WriteGlobal(t, u, k, v) => WriteGlobalStores(s, s', t, u, k, v);
    case Alloc(t, u, x, n, init) => AllocStores(s, s', t, u, x, n, init);
    case Reset(t, p) => ResetLeaves(s, s', t, p);
    case Load(_, _, _, _) => LoadLeaves(s, s', a);
    case LoadGlobal(_, _, _) => LoadLeaves(s, s', a);
    case Drop(_, _, _) => LoadLeaves(s, s', a);
    case NewUser(_, _) => LoadLeaves(s, s', a);
    case _ => OthersLeave(s, s', a);
  }

  lemma StepKeepsGlobal(s: System, s': System, a: Action, k: nat)
    requires Tidy(s.m) && NextSystem(s, s', a) && !(a.WriteGlobal? && a.k == k)
    ensures Global(s', k) == Global(s, k)
  {
    hide WriteStep, WriteGlobalStep, AllocStep, ResetStep, ShakeStep, MigrateStep, ScanUserStep, ScanGlobalStep, TraceStep;
    hide LoadStep, LoadGlobalStep, DropStep, NewUserStep, FinStartStep, FinReadStep, FinEndStep, ClearRememberedStep;
    match a
    case Write(t, u, p, j, v) => WriteStores(s, s', t, u, p, j, v);
    case WriteGlobal(t, u, l, v) => WriteGlobalStores(s, s', t, u, l, v);
    case Alloc(t, u, x, n, init) => AllocStores(s, s', t, u, x, n, init);
    case Reset(t, p) => ResetLeaves(s, s', t, p);
    case Load(_, _, _, _) => LoadLeaves(s, s', a);
    case LoadGlobal(_, _, _) => LoadLeaves(s, s', a);
    case Drop(_, _, _) => LoadLeaves(s, s', a);
    case NewUser(_, _) => LoadLeaves(s, s', a);
    case _ => OthersLeave(s, s', a);
  }

  /** Roots change only by the user's own loads, allocations and drops: neither other
      users nor the collector add or remove any. */
  lemma RootsOwn(s: System, s': System, a: Action, u: User)
    requires Tidy(s.m) && NextSystem(s, s', a) && u in s.m.roots
    ensures u in s'.m.roots
    ensures s'.m.roots[u] != s.m.roots[u] ==> (a.Alloc? || a.Load? || a.LoadGlobal? || a.Drop?) && a.u == u
    ensures a.Drop? && a.u == u ==> s'.m.roots[u] == a.keep
  {
    hide WriteStep, WriteGlobalStep, AllocStep, ResetStep, ShakeStep, MigrateStep, ScanUserStep, ScanGlobalStep, TraceStep;
    hide Remembers, Finisher, Acting;
    match a
    case Write(t, w, p, j, v) => WriteStores(s, s', t, w, p, j, v);
    case WriteGlobal(t, w, l, v) => WriteGlobalStores(s, s', t, w, l, v);
    case Alloc(t, w, x, n, init) => AllocStores(s, s', t, w, x, n, init);
    case Reset(t, p) => ResetLeaves(s, s', t, p);
    case Load(_, _, _, _) =>
    case LoadGlobal(_, _, _) =>
    case Drop(_, _, _) =>
    case NewUser(_, _) =>
    case _ => OthersLeave(s, s', a);
  }

  /** A user belongs to the worker that created it, and from a move on to the one that
      moved it. */
  lemma UsersStay(s: System, s': System, a: Action, u: User)
    requires Tidy(s.m) && NextSystem(s, s', a)
    ensures u in s.m.owner ==> u in s'.m.owner && s'.m.owner[u] == if a.Migrate? && a.u == u then a.t else s.m.owner[u]
    ensures u !in s.m.owner && u in s'.m.owner ==> a.NewUser? && a.u == u && s'.m.owner[u] == a.t && s'.m.roots[u] == {}
    ensures a.NewUser? ==> a.u in s'.m.owner
  {
    hide WriteStep, WriteGlobalStep, AllocStep, ResetStep, ShakeStep, MigrateStep, ScanUserStep, ScanGlobalStep, TraceStep;
    hide Remembers, Finisher, Acting;
    match a
    case Write(t, w, p, j, v) => WriteStores(s, s', t, w, p, j, v);
    case WriteGlobal(t, w, l, v) => WriteGlobalStores(s, s', t, w, l, v);
    case Alloc(t, w, x, n, init) => AllocStores(s, s', t, w, x, n, init);
    case Reset(t, p) => ResetLeaves(s, s', t, p);
    case Load(_, _, _, _) =>
    case LoadGlobal(_, _, _) =>
    case Drop(_, _, _) =>
    case NewUser(_, _) =>
    case _ => OthersLeave(s, s', a);
  }

  lemma StepTidy(s: System, s': System, a: Action)
    requires Tidy(s.m) && NextSystem(s, s', a)
    ensures Tidy(s'.m)
  {
    hide WriteStep, WriteGlobalStep, AllocStep, ResetStep, ShakeStep, MigrateStep, ScanUserStep, ScanGlobalStep, TraceStep;
    hide Remembers, Finisher, Acting;
    match a
    case Write(t, u, o, i, v) =>
      WriteStores(s, s', t, u, o, i, v);
      forall q | q in s'.m.fld ensures q.o in s'.m.home { WriteTidy(s, s', t, u, o, i, v, q); }
    case WriteGlobal(t, u, k, v) => WriteGlobalStores(s, s', t, u, k, v);
    case Alloc(t, u, x, n, init) => AllocTidy(s, s', t, u, x, n, init);
    case Reset(t, p) => ResetLeaves(s, s', t, p);
    case Load(_, _, _, _) =>
    case LoadGlobal(_, _, _) =>
    case Drop(_, _, _) =>
    case NewUser(_, _) =>
    case _ => OthersLeave(s, s', a);
  }

  lemma WriteTidy(s: System, s': System, t: W, u: User, o: Obj, i: nat, v: Option<Obj>, q: Slot)
    requires Tidy(s.m) && WriteStep(s, s', t, u, o, i, v) && q in s'.m.fld
    ensures q.o in s'.m.home
  {
    hide WriteStep;
    WriteStores(s, s', t, u, o, i, v);
    assert Field(s', q.o, q.i).Some?;
    if q.o != o || q.i != i { assert Field(s, q.o, q.i).Some?; }
  }

  lemma AllocTidy(s: System, s': System, t: W, u: User, x: Obj, n: nat, init: map<nat, Obj>)
    requires Tidy(s.m) && AllocStep(s, s', t, u, x, n, init)
    ensures Tidy(s'.m)
  {
    hide AllocStep;
    AllocStores(s, s', t, u, x, n, init);
    forall q | q in s'.m.fld ensures q.o in s'.m.home {
      assert Field(s', q.o, q.i).Some?;
      if q.o != x { assert Field(s, q.o, q.i).Some?; }
    }
  }

  // ------------------------------------------------------------------------- runs

  lemma {:induction false} RunTidy(states: seq<System>, actions: seq<Action>, k: nat)
    requires SysRun(states, actions) && k < |states|
    ensures Tidy(states[k].m)
  {
    hide NextSystem;
    if k > 0 {
      RunTidy(states, actions, k - 1);
      assert NextSystem(states[k - 1], states[k - 1 + 1], actions[k - 1]);
      StepTidy(states[k - 1], states[k], actions[k - 1]);
    }
  }

  /** Between two moments of the run field i of o is not written and o not freed. */
  ghost predicate Untouched(states: seq<System>, actions: seq<Action>, j: nat, k: nat, o: Obj, i: nat)
    requires |states| == |actions| + 1 && k < |states|
  {
    forall l :: j <= l < k ==> !Changes(states[l], states[l + 1], actions[l], o, i)
  }

  lemma {:induction false} FieldStays(states: seq<System>, actions: seq<Action>, j: nat, k: nat, o: Obj, i: nat)
    requires SysRun(states, actions) && j <= k < |states| && o in states[j].m.home && Untouched(states, actions, j, k, o, i)
    ensures o in states[k].m.home && Field(states[k], o, i) == Field(states[j], o, i)
    decreases k - j
  {
    hide InitSystem, NextSystem, Field;
    if j < k {
      FieldStays(states, actions, j, k - 1, o, i);
      RunTidy(states, actions, k - 1);
      assert NextSystem(states[k - 1], states[k - 1 + 1], actions[k - 1]);
      assert !Changes(states[k - 1], states[k - 1 + 1], actions[k - 1], o, i);
      StepKeeps(states[k - 1], states[k], actions[k - 1], o, i);
    }
  }

  /** What is written stays written, and nothing else changes by it: v is in the field
      until the field is written again or the object freed, and any other field that is
      not touched meanwhile is as it was before. */
  lemma WriteLaw(states: seq<System>, actions: seq<Action>, j: nat, k: nat, t: W, u: User, o: Obj, i: nat, v: Option<Obj>)
    requires SysRun(states, actions) && j < k < |states| && actions[j] == Write(t, u, o, i, v)
    ensures Untouched(states, actions, j + 1, k, o, i) ==> Field(states[k], o, i) == v
    ensures forall p, l :: (p != o || l != i) && p in states[j].m.home && Untouched(states, actions, j + 1, k, p, l) ==>
              Field(states[k], p, l) == Field(states[j], p, l)
  {
    RunTidy(states, actions, j);
    assert NextSystem(states[j], states[j + 1], actions[j]);
    WriteStores(states[j], states[j + 1], t, u, o, i, v);
    if Untouched(states, actions, j + 1, k, o, i) { FieldStays(states, actions, j + 1, k, o, i); }
    forall p, l | (p != o || l != i) && p in states[j].m.home && Untouched(states, actions, j + 1, k, p, l)
      ensures Field(states[k], p, l) == Field(states[j], p, l)
    {
      FieldStays(states, actions, j + 1, k, p, l);
    }
  }

  /** The initial values of a new object. */
  lemma AllocLaw(states: seq<System>, actions: seq<Action>, j: nat, k: nat, t: W, u: User, x: Obj, n: nat, init: map<nat, Obj>, i: nat)
    requires SysRun(states, actions) && j < k < |states| && actions[j] == Alloc(t, u, x, n, init)
    requires Untouched(states, actions, j + 1, k, x, i)
    ensures x !in states[j].m.home && x in states[k].m.home
    ensures Field(states[k], x, i) == if i in init then Some(init[i]) else None
  {
    RunTidy(states, actions, j);
    assert NextSystem(states[j], states[j + 1], actions[j]);
    AllocStores(states[j], states[j + 1], t, u, x, n, init);
    FieldStays(states, actions, j + 1, k, x, i);
  }

  /** A load gives the user exactly what the field holds. */
  lemma LoadLaw(states: seq<System>, actions: seq<Action>, k: nat, t: W, u: User, o: Obj, i: nat)
    requires SysRun(states, actions) && k < |actions| && actions[k] == Load(t, u, o, i)
    ensures Field(states[k], o, i).Some? && Gets(states[k], states[k + 1], u, Field(states[k], o, i).value)
    ensures states[k + 1].m == states[k].m.(roots := states[k + 1].m.roots)
  {
    assert NextSystem(states[k], states[k + 1], actions[k]);
  }

  /** A load returns the value of the last store to the field. */
  lemma LoadsLastWrite(states: seq<System>, actions: seq<Action>, j: nat, k: nat, t: W, u: User, o: Obj, i: nat, v: Option<Obj>, t': W, u': User)
    requires SysRun(states, actions) && j < k < |actions|
    requires actions[j] == Write(t, u, o, i, v) && actions[k] == Load(t', u', o, i) && Untouched(states, actions, j + 1, k, o, i)
    ensures v.Some? && Gets(states[k], states[k + 1], u', v.value)
  {
    WriteLaw(states, actions, j, k, t, u, o, i, v);
    LoadLaw(states, actions, k, t', u', o, i);
  }

  // ----------------------------------------------------------------- global slots

  ghost predicate GlobalUntouched(actions: seq<Action>, j: nat, k: nat, g: nat)
    requires k <= |actions|
  {
    forall l :: j <= l < k ==> !(actions[l].WriteGlobal? && actions[l].k == g)
  }

  lemma {:induction false} GlobalStays(states: seq<System>, actions: seq<Action>, j: nat, k: nat, g: nat)
    requires SysRun(states, actions) && j <= k < |states| && GlobalUntouched(actions, j, k, g)
    ensures Global(states[k], g) == Global(states[j], g)
    decreases k - j
  {
    hide InitSystem, NextSystem, Global;
    if j < k {
      GlobalStays(states, actions, j, k - 1, g);
      RunTidy(states, actions, k - 1);
      assert NextSystem(states[k - 1], states[k - 1 + 1], actions[k - 1]);
      StepKeepsGlobal(states[k - 1], states[k], actions[k - 1], g);
    }
  }

  lemma WriteGlobalLaw(states: seq<System>, actions: seq<Action>, j: nat, k: nat, t: W, u: User, g: nat, v: Option<Obj>)
    requires SysRun(states, actions) && j < k < |states| && actions[j] == WriteGlobal(t, u, g, v)
    ensures GlobalUntouched(actions, j + 1, k, g) ==> Global(states[k], g) == v
    ensures forall l :: l != g && GlobalUntouched(actions, j + 1, k, l) ==> Global(states[k], l) == Global(states[j], l)
  {
    assert NextSystem(states[j], states[j + 1], actions[j]);
    WriteGlobalStores(states[j], states[j + 1], t, u, g, v);
    if GlobalUntouched(actions, j + 1, k, g) { GlobalStays(states, actions, j + 1, k, g); }
    forall l | l != g && GlobalUntouched(actions, j + 1, k, l) ensures Global(states[k], l) == Global(states[j], l) {
      GlobalStays(states, actions, j + 1, k, l);
    }
  }

  lemma LoadGlobalLaw(states: seq<System>, actions: seq<Action>, k: nat, t: W, u: User, g: nat)
    requires SysRun(states, actions) && k < |actions| && actions[k] == LoadGlobal(t, u, g)
    ensures Global(states[k], g).Some? && Gets(states[k], states[k + 1], u, Global(states[k], g).value)
    ensures states[k + 1].m == states[k].m.(roots := states[k + 1].m.roots)
  {
    assert NextSystem(states[k], states[k + 1], actions[k]);
  }

  lemma LoadsLastGlobal(states: seq<System>, actions: seq<Action>, j: nat, k: nat, t: W, u: User, g: nat, v: Option<Obj>, t': W, u': User)
    requires SysRun(states, actions) && j < k < |actions|
    requires actions[j] == WriteGlobal(t, u, g, v) && actions[k] == LoadGlobal(t', u', g) && GlobalUntouched(actions, j + 1, k, g)
    ensures v.Some? && Gets(states[k], states[k + 1], u', v.value)
  {
    WriteGlobalLaw(states, actions, j, k, t, u, g, v);
    LoadGlobalLaw(states, actions, k, t', u', g);
  }
}
