/** On-the-fly marking and reclamation on top of the handshake.

    Objects carry two bits: `target` (in the old bitmap or below the allocation
    pointer snapshot, so this collection may free it) and `marked` (its collect
    bit).  A marked object whose slots have not all been traced yet is on the
    mark stack of some allocator (`grey`).  Stack roots belong to users; a user
    belongs to a worker and may be moved to another one by work stealing. */
module Marking {
  import opened Phases
  import opened Handshake

  type Obj = nat
  type User = nat

  datatype Slot = Slot(o: Obj, i: nat)

  /** A place on a mark stack: whose stack it is, whether it is reached from the
      root set or from the remembered set, and the first slot not traced yet. */
  datatype Entry = Entry(holder: W, rooted: bool, next: nat)

  /** sml_heap_mark_finish reads every remembered set twice.  `snap` is history:
      the mark stacks when the check began. */
  datatype Finish =
    | Idle
    | Checking(list: set<W>, todo1: set<W>, todo2: set<W>, snap: map<Obj, Entry>)
    | Verdict(ok: bool)

  datatype Heap = Heap(
    home: map<Obj, W>,           // allocated objects and the allocator they belong to
    size: map<Obj, nat>,
    fld: map<Slot, Obj>,         // the non-null pointer slots
    target: set<Obj>,
    marked: set<Obj>,
    grey: map<Obj, Entry>,
    owner: map<User, W>,
    roots: map<User, set<Obj>>,
    scanned: set<User>,          // users enumerated by their present worker in this collection
    glob: map<nat, Obj>,         // the non-null global slots
    gsize: nat,
    gnext: nat,                  // first global slot not enumerated in this collection
    enumerator: Option<W>,       // the worker with GLOBALENUM_FLAG
    renewed: set<Obj>,             // history: survivors already reset in the ASYNC round
    fin: Finish)

  datatype System = System(h: State, m: Heap)

  datatype Action =
    | Shake(step: Step)                                              // a handshake step
    | Alloc(t: W, u: User, x: Obj, n: nat, init: map<nat, Obj>)
    | Write(t: W, u: User, o: Obj, i: nat, v: Option<Obj>)
    | WriteGlobal(t: W, u: User, k: nat, v: Option<Obj>)
    | Load(t: W, u: User, o: Obj, i: nat)
    | LoadGlobal(t: W, u: User, k: nat)
    | Drop(t: W, u: User, keep: set<Obj>)
    | NewUser(t: W, u: User)
    | Migrate(t: W, u: User, scan: bool)
    | ScanUser(t: W, u: User)
    | ScanGlobal(t: W)
    | Trace(t: W, o: Obj)
    | FinStart(t: W) | FinRead(t: W, w: W) | FinEnd(t: W)
    | ClearRemembered(t: W)
    | Reset(t: W, o: Obj)

  predicate White(m: Heap, x: Obj) { x in m.target && x !in m.marked }

  /** visit and push: mark a target object that is not marked yet and put it on
      the mark stack of allocator w. */
  function Shade(m: Heap, x: Obj, w: W, rooted: bool): Heap {
    if White(m, x) then m.(marked := m.marked + {x}, grey := m.grey[x := Entry(w, rooted, 0)]) else m
  }

  function ShadeOpt(m: Heap, x: Option<Obj>, w: W): Heap {
    if x.Some? then Shade(m, x.value, w, false) else m
  }

  /** sml_stack_enum_ptr with push: all roots of a user at once, under its lock. */
  function ShadeAll(m: Heap, xs: set<Obj>, w: W): Heap {
    var ws := set x | x in xs && White(m, x);
    m.(marked := m.marked + ws,
       grey := map x | x in m.grey.Keys + ws :: if x in ws then Entry(w, true, 0) else m.grey[x])
  }

  /** The write barrier: both values from SYNC1 to SYNC2, the old one up to MARK. */
  function Barrier(m: Heap, p: Phase, w: W, old_value: Option<Obj>, new_value: Option<Obj>): Heap {
    if Code(p) < Code(Sync1) then m
    else
      var m1 := if Code(p) <= Code(Sync2) then ShadeOpt(m, new_value, w) else m;
      ShadeOpt(m1, old_value, w)
  }

  function Get<K>(f: map<K, Obj>, k: K): Option<Obj> {
    if k in f then Some(f[k]) else None
  }

  function Put<K>(f: map<K, Obj>, k: K, v: Option<Obj>): map<K, Obj> {
    if v.Some? then f[k := v.value] else f - {k}
  }

  // -------------------------------------------------------------------- mutator

  /** User u runs ML code on worker t. */
  predicate Running(s: System, t: W, u: User) {
    && t in s.h.pc && t in s.h.workers && s.h.pc[t] == InML
    && u in s.m.owner && u in s.m.roots && s.m.owner[u] == t
  }

  predicate MayStore(m: Heap, u: User, v: Option<Obj>)
    requires u in m.roots
  {
    v.Some? ==> v.value in m.roots[u]
  }

  function AddRoot(m: Heap, u: User, x: Obj): Heap
    requires u in m.roots
  {
    m.(roots := m.roots[u := m.roots[u] + {x}])
  }

  function Slots(x: Obj, init: map<nat, Obj>): map<Slot, Obj> {
    map i | i in init :: Slot(x, i) := init[i]
  }

  /** Allocation and initialisation.  The object is a target of the collection
      in progress only if its worker has not taken its snapshot yet. */
  function Allocated(m: Heap, p: Phase, t: W, u: User, x: Obj, n: nat, init: map<nat, Obj>): Heap
    requires u in m.roots
  {
    AddRoot(m.(home := m.home[x := t], size := m.size[x := n],
               fld := m.fld + Slots(x, init),
               target := if BeforeSnapshot(p) then m.target + {x} else m.target,
               renewed := if p == Async then m.renewed + {x} else m.renewed), u, x)
  }

  predicate AllocStep(s: System, s': System, t: W, u: User, x: Obj, n: nat, init: map<nat, Obj>) {
    && Running(s, t, u)
    && x !in s.m.home
    && (forall i :: i in init ==> i < n && init[i] in s.m.roots[u])
    && s' == s.(m := Allocated(s.m, s.h.workers[t].phase, t, u, x, n, init))
  }

  predicate WriteStep(s: System, s': System, t: W, u: User, o: Obj, i: nat, v: Option<Obj>) {
    && Running(s, t, u)
    && o in s.m.roots[u] && o in s.m.size && i < s.m.size[o] && MayStore(s.m, u, v)
    && var m1 := Barrier(s.m, s.h.workers[t].phase, t, Get(s.m.fld, Slot(o, i)), v);
    s' == s.(m := m1.(fld := Put(m1.fld, Slot(o, i), v)))
  }

  predicate WriteGlobalStep(s: System, s': System, t: W, u: User, k: nat, v: Option<Obj>) {
    && Running(s, t, u)
    && k < s.m.gsize && MayStore(s.m, u, v)
    && var m1 := Barrier(s.m, s.h.workers[t].phase, t, Get(s.m.glob, k), v);
    s' == s.(m := m1.(glob := Put(m1.glob, k, v)))
  }

  predicate LoadStep(s: System, s': System, t: W, u: User, o: Obj, i: nat) {
    && Running(s, t, u)
    && o in s.m.roots[u] && Slot(o, i) in s.m.fld
    && s' == s.(m := AddRoot(s.m, u, s.m.fld[Slot(o, i)]))
  }

  predicate LoadGlobalStep(s: System, s': System, t: W, u: User, k: nat) {
    && Running(s, t, u)
    && k in s.m.glob
    && s' == s.(m := AddRoot(s.m, u, s.m.glob[k]))
  }

  predicate DropStep(s: System, s': System, t: W, u: User, keep: set<Obj>) {
    && Running(s, t, u)
    && keep <= s.m.roots[u]
    && s' == s.(m := s.m.(roots := s.m.roots[u := keep]))
  }

  predicate NewUserStep(s: System, s': System, t: W, u: User) {
    && t in s.h.pc && t in s.h.workers && s.h.pc[t] == InML
    && u !in s.m.owner
    && s' == s.(m := s.m.(owner := s.m.owner[u := t], roots := s.m.roots[u := {}],
                          scanned := if Code(s.h.workers[t].phase) >= Code(Sync2)
                                     then s.m.scanned + {u} else s.m.scanned))
  }

  /** When a worker in SYNC2 gets a user from another worker it has taken its own
      snapshot already, so the user is enumerated on the way, unless the lock of the
      user showed that the old worker was just doing that.  The worker may have been
      flipped to PREMARK since sml_enter looked at its phase. */
  predicate MayMigrate(p: Phase, scan: bool, scanned: bool) {
    (scan ==> p == Sync2 || p == PreMark) && (p == Sync2 && !scan ==> scanned)
  }

  /** sml_enter moves a stolen user to worker t. */
  predicate MigrateStep(s: System, s': System, t: W, u: User, scan: bool) {
    && t in s.h.pc && t in s.h.workers && s.h.pc[t] == InML
    && u in s.m.owner && u in s.m.roots && s.m.owner[u] != t
    && var p := s.h.workers[t].phase;
    && MayMigrate(p, scan, u in s.m.scanned)
    && var m1 := if scan then ShadeAll(s.m, s.m.roots[u], t) else s.m;
    s' == s.(m := m1.(owner := m1.owner[u := t],
                      scanned := if scan then m1.scanned + {u}
                                 else if p == Sync1 || p == PreSync2 then m1.scanned - {u}
                                 else m1.scanned))
  }

  // ------------------------------------------------------------------ collector

  /** Thread t runs the action of round kind k. */
  predicate Acting(s: System, t: W, k: Phase) {
    t in s.h.pc && s.h.pc[t].Act? && s.h.round.kind == k
  }

  predicate ScanUserStep(s: System, s': System, t: W, u: User) {
    && Acting(s, t, Sync2)
    && u in s.m.owner && u in s.m.roots && s.m.owner[u] == s.h.pc[t].w && u !in s.m.scanned
    && s' == s.(m := ShadeAll(s.m, s.m.roots[u], s.h.pc[t].w).(scanned := s.m.scanned + {u}))
  }

  predicate ScanGlobalStep(s: System, s': System, t: W) {
    && Acting(s, t, Sync2)
    && s.m.enumerator == Some(s.h.pc[t].w) && s.m.gnext < s.m.gsize
    && var m1 := if s.m.gnext in s.m.glob then Shade(s.m, s.m.glob[s.m.gnext], s.h.pc[t].w, true) else s.m;
    s' == s.(m := m1.(gnext := s.m.gnext + 1))
  }

  /** One slot of the object on top of a mark stack: its value is pushed, and the
      collector moves on. */
  function Visited(m: Heap, o: Obj): Heap
    requires o in m.grey
  {
    var e := m.grey[o];
    var q := Slot(o, e.next);
    var m1 := if q in m.fld then Shade(m, m.fld[q], e.holder, e.rooted) else m;
    m1.(grey := m1.grey[o := e.(next := e.next + 1)])
  }

  predicate TraceStep(s: System, s': System, t: W, o: Obj) {
    && Acting(s, t, Mark)
    && o in s.m.grey && s.m.grey[o].holder == s.h.pc[t].w && o in s.m.size
    && s' == s.(m := if s.m.grey[o].next < s.m.size[o] then Visited(s.m, o)
                     else s.m.(grey := s.m.grey - {o}))
  }

  /** remembered_set of allocator w is not NULL. */
  predicate Remembers(m: Heap, w: W) {
    exists o :: o in m.grey && m.grey[o].holder == w && !m.grey[o].rooted
  }

  /** The last responder of a MARK round checks whether tracing has finished. */
  predicate Finisher(s: System, t: W) {
    t in s.h.pc && s.h.pc[t].Last? && s.h.round.kind == Mark
  }

  predicate FinStartStep(s: System, s': System, t: W) {
    && Finisher(s, t) && s.m.fin == Idle
    && var all := s.h.workers.Keys;
    s' == s.(m := s.m.(fin := Checking(all, all, all, s.m.grey)))
  }

  predicate FinReadStep(s: System, s': System, t: W, w: W) {
    && Finisher(s, t) && s.m.fin.Checking?
    && (w in s.m.fin.todo1 || (s.m.fin.todo1 == {} && w in s.m.fin.todo2))
    && s' == s.(m := s.m.(fin :=
         if Remembers(s.m, w) then Verdict(false)
         else if w in s.m.fin.todo1 then s.m.fin.(todo1 := s.m.fin.todo1 - {w})
         else s.m.fin.(todo2 := s.m.fin.todo2 - {w})))
  }

  predicate FinEndStep(s: System, s': System, t: W) {
    && Finisher(s, t) && s.m.fin.Checking? && s.m.fin.todo1 == {} && s.m.fin.todo2 == {}
    && s' == s.(m := s.m.(fin := Verdict(s.m.fin.list == s.h.workers.Keys)))
  }

  predicate ClearRememberedStep(s: System, s': System, t: W) {
    && Acting(s, t, Async)
    && s' == s.(m := s.m.(grey := map o | o in s.m.grey && s.m.grey[o].holder != s.h.pc[t].w :: s.m.grey[o]))
  }

  function Freed(m: Heap, o: Obj): Heap {
    m.(home := m.home - {o}, size := m.size - {o},
       fld := map q | q in m.fld && q.o != o :: m.fld[q],
       target := m.target - {o}, grey := m.grey - {o})
  }

  /** Reclamation of one block: a target that is not marked is freed, any other
      object becomes an unmarked target of the next collection. */
  predicate ResetStep(s: System, s': System, t: W, o: Obj) {
    && Acting(s, t, Async)
    && o in s.m.home && s.m.home[o] == s.h.pc[t].w && o !in s.m.renewed
    && s' == s.(m := if White(s.m, o) then Freed(s.m, o)
                     else s.m.(target := s.m.target + {o}, marked := s.m.marked - {o}, renewed := s.m.renewed + {o}))
  }

  /** What must have been done before a worker answers. */
  predicate ActionDone(m: Heap, kind: Phase, w: W) {
    match kind
    case Sync2 =>
      && (forall u :: u in m.owner && m.owner[u] == w ==> u in m.scanned)
      && (m.enumerator == Some(w) ==> m.gnext == m.gsize)
    case Mark => forall o :: o in m.grey ==> m.grey[o].holder != w
    case Async =>
      && (forall o :: o in m.home && m.home[o] == w ==> o in m.renewed)
      && (forall o :: o in m.grey ==> m.grey[o].holder != w)
    case _ => true
  }

  /** What the heap does together with a handshake step. */
  predicate ShakeStep(s: System, s': System, step: Step) {
    && Next(s.h, s'.h, step)
    && match step
       case Respond(t) =>
         && ActionDone(s.m, s.h.round.kind, s.h.pc[t].w)
         && s'.m == if s.h.round.kind == Sync1 && s.h.flag == 1
                    then s.m.(enumerator := Some(s.h.pc[t].w)) else s.m
       case Global(t, next) =>
         if next == Sync1 then s'.m == s.m.(scanned := {}, gnext := 0, enumerator := None)
         else if s.h.round.kind == Mark then
           && s.m.fin.Verdict? && (s.m.fin.ok <==> next == Async)
           && s'.m == s.m.(fin := Idle, renewed := if next == Async then {} else s.m.renewed)
         else s'.m == s.m
       case _ => s'.m == s.m
  }

  predicate InitSystem(s: System) {
    Init(s.h) && s.m == Heap(map[], map[], map[], {}, {}, map[], map[], map[], {}, map[], s.m.gsize, 0, None, {}, Idle)
  }

  predicate NextSystem(s: System, s': System, a: Action) {
    match a
    case Shake(step) => ShakeStep(s, s', step)
    case Alloc(t, u, x, n, init) => AllocStep(s, s', t, u, x, n, init)
    case Write(t, u, o, i, v) => WriteStep(s, s', t, u, o, i, v)
    case WriteGlobal(t, u, k, v) => WriteGlobalStep(s, s', t, u, k, v)
    case Load(t, u, o, i) => LoadStep(s, s', t, u, o, i)
    case LoadGlobal(t, u, k) => LoadGlobalStep(s, s', t, u, k)
    case Drop(t, u, keep) => DropStep(s, s', t, u, keep)
    case NewUser(t, u) => NewUserStep(s, s', t, u)
    case Migrate(t, u, scan) => MigrateStep(s, s', t, u, scan)
    case ScanUser(t, u) => ScanUserStep(s, s', t, u)
    case ScanGlobal(t) => ScanGlobalStep(s, s', t)
    case Trace(t, o) => TraceStep(s, s', t, o)
    case FinStart(t) => FinStartStep(s, s', t)
    case FinRead(t, w) => FinReadStep(s, s', t, w)
    case FinEnd(t) => FinEndStep(s, s', t)
    case ClearRemembered(t) => ClearRememberedStep(s, s', t)
    case Reset(t, o) => ResetStep(s, s', t, o)
  }
}
