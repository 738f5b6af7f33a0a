/** Safety of the collector over whole runs: no reachable object is ever freed,
    provided that no barrier shades an object that was reset already. */
module MarkingSafety {
  import opened Phases
  import opened Handshake
  import opened Marking
  import opened Tricolour
  import opened MarkingInv
  import opened MarkingMutator
  import opened MarkingCollector
  import HandshakeSafety

  // ---------------------------------------------- handshake steps within one round

  /** How one handshake step moves worker w, as long as the round stays the same. */
  lemma WorkerMoves(h: State, h': State, step: Step, w: W)
    requires Inv(h) && Next(h, h', step) && !step.Global? && w in h.workers
    ensures w in h'.workers
    ensures h'.round.kind == h.round.kind && h'.round.parts == h.round.parts
    ensures h.round.resp <= h'.round.resp
    ensures h.workers[w].phase == h.round.kind && h.round.from != h.round.kind ==> h'.workers[w].phase == h.round.kind
    ensures Done(h', w) ==> Done(h, w) || (step.Respond? && step.t in h.pc && h.pc[step.t].Act? && h.pc[step.t].w == w)
    ensures h'.round.fired ==> h.round.fired || (step.Respond? && h.flag == 1)
  {
    assert WorkerOk(h, w);
    if step.FlipOne? {
      assert ThreadOk(h, step.t);
      HandshakeFlip(h, h', step.t, step.u);
    } else if step.SelfAccept? || step.HelpAgain? || step.HelpRelease? {
      assert ThreadOk(h, step.t);
    }
  }

  lemma HandshakeFlip(h: State, h': State, t: W, u: W)
    requires Inv(h) && FlipOneStep(h, h', t, u)
    ensures h' == Flipped(h, t, u) && h.workers[u].phase == h.round.from
  {
    FlipFromOld(h, h', t, u);
  }

  lemma ShakeRefs(s: System, s': System, step: Step)
    requires SysInv(s) && ShakeStep(s, s', step)
    ensures WellFormed(s'.m) && Refs(s')
  {
    assert s.h.workers.Keys <= s'.h.workers.Keys;
    if step.Respond? { ActorFacts(s.h, step.t); }
  }

  lemma ShakeSync1(s: System, s': System, step: Step)
    requires SysInv(s) && ShakeStep(s, s', step) && !step.Global? && s.h.round.kind == Sync1
    ensures InSync1(s') && s'.h.round.kind == Sync1
  {
  }

  lemma ShakeSync2(s: System, s': System, step: Step)
    requires SysInv(s) && ShakeStep(s, s', step) && !step.Global? && s.h.round.kind == Sync2
    ensures InSync2(s') && s'.h.round.kind == Sync2
  {
    WorkerMoves(s.h, s'.h, step, s.m.enumerator.value);
    forall u | u in s'.m.owner ensures UserOk(s', u) {
      assert UserOk(s, u);
      var w := s.m.owner[u];
      assert WorkerOk(s.h, w);
      WorkerMoves(s.h, s'.h, step, w);
    }
  }

  lemma ShakeRound(h: State, h': State, step: Step)
    requires Inv(h) && Next(h, h', step) && !step.Global?
    ensures h.workers.Keys <= h'.workers.Keys && h'.round.kind == h.round.kind && h'.round.parts == h.round.parts
    ensures h.round.fired ==> h'.round.fired
    ensures h'.round.resp == if step.Respond? && step.t in h.pc && h.pc[step.t].Act? then h.round.resp + {h.pc[step.t].w} else h.round.resp
    ensures step.Respond? ==> step.t in h.pc && h.pc[step.t].Act?
  {
  }

  lemma ShakeMark(s: System, s': System, step: Step)
    requires SysInv(s) && ShakeStep(s, s', step) && !step.Global? && s.h.round.kind == Mark
    ensures InMark(s') && s'.h.round.kind == Mark
  {
    ShakeRound(s.h, s'.h, step);
    hide InSync1, InSync2, InAsync, Tri, AllLive, Inv, Next;
  }

  lemma ShakeAsync(s: System, s': System, step: Step)
    requires SysInv(s) && ShakeStep(s, s', step) && !step.Global? && s.h.round.kind == Async
    ensures InAsync(s') && s'.h.round.kind == Async
  {
    forall o | o in s'.m.home && Done(s'.h, s'.m.home[o]) ensures o in s'.m.renewed {
      WorkerMoves(s.h, s'.h, step, s.m.home[o]);
    }
  }

  // ------------------------------------------------------------ from round to round

  lemma RoundOver(h: State, h': State, t: W, next: Phase)
    requires Inv(h) && GlobalStep(h, h', t, next)
    ensures h.round.fired
    ensures forall w :: w in h.workers ==> Done(h, w) && h.workers[w].phase == h.round.kind
  {
    assert ThreadOk(h, t);
    forall w | w in h.workers ensures Done(h, w) && h.workers[w].phase == h.round.kind {
      assert WorkerOk(h, w);
    }
  }

  /** A clean ASYNC round leaves only unmarked targets. */
  lemma ToSync1(s: System, s': System, t: W)
    requires SysInv(s) && ShakeStep(s, s', Global(t, Sync1))
    ensures InSync1(s')
  {
    RoundOver(s.h, s'.h, t, Sync1);
    assert forall o :: o in s.m.home ==> o in s.m.renewed;
    assert s.m.marked == {};
  }

  lemma ToSync2(s: System, s': System, t: W)
    requires SysInv(s) && ShakeStep(s, s', Global(t, Sync2))
    ensures InSync2(s')
  {
    RoundOver(s.h, s'.h, t, Sync2);
    forall q | q in s.m.fld && !White(s.m, q.o) ensures Covered(s.m, s.m.fld[q]) {
      assert SrcSlot(s.m, q);
      assert Prot(s.m, s.m.fld[q], 0);
    }
    forall k | k in s.m.glob ensures Covered(s.m, s.m.glob[k]) {
      CoveredGlobal(s.m, k);
    }
    forall u | u in s'.m.owner ensures UserOk(s', u) { }
  }

  /** When SYNC2 is over every user and every global slot has been enumerated. */
  lemma ToMark(s: System, s': System, t: W)
    requires SysInv(s) && ShakeStep(s, s', Global(t, Mark)) && s.h.round.kind == Sync2
    ensures InMark(s')
  {
    RoundOver(s.h, s'.h, t, Mark);
    forall u | u in s.m.owner ensures u in s.m.scanned { assert UserOk(s, u); }
    assert s.m.gnext == s.m.gsize;
  }

  lemma MarkAgain(s: System, s': System, t: W)
    requires SysInv(s) && ShakeStep(s, s', Global(t, Mark)) && s.h.round.kind == Mark
    ensures InMark(s')
  {
    RoundOver(s.h, s'.h, t, Mark);
    SameTri(s.m, s'.m);
  }

  lemma ToAsync(s: System, s': System, t: W)
    requires SysInv(s) && ShakeStep(s, s', Global(t, Async))
    ensures InAsync(s') && Closed(s.m)
  {
    hide InSync1, InSync2, Inv;
    RoundOver(s.h, s'.h, t, Async);
    assert forall x :: x in s.m.home && !White(s.m, x) ==> Kept(s'.m, x);
  }

  lemma ShakeInv(s: System, s': System, step: Step)
    requires SysInv(s) && ShakeStep(s, s', step)
    ensures SysInv(s')
  {
    HandshakeSafety.NextInv(s.h, s'.h, step);
    ShakeRefs(s, s', step);
    if step.Global? {
      match step.next
      case Sync1 => ToSync1(s, s', step.t);
      case Sync2 => ToSync2(s, s', step.t);
      case Mark => if s.h.round.kind == Sync2 { ToMark(s, s', step.t); } else { MarkAgain(s, s', step.t); }
      case Async => ToAsync(s, s', step.t);
    } else {
      match s.h.round.kind
      case Sync1 => ShakeSync1(s, s', step);
      case Sync2 => ShakeSync2(s, s', step);
      case Mark => ShakeMark(s, s', step);
      case Async => ShakeAsync(s, s', step);
    }
  }

  // ------------------------------------------------------------------- whole runs

  predicate OfMutator(a: Action) {
    a.Alloc? || a.Write? || a.WriteGlobal? || a.Load? || a.LoadGlobal? || a.Drop? || a.NewUser? || a.Migrate?
  }

  lemma MutatorNext(s: System, s': System, a: Action)
    requires SysInv(s) && NextSystem(s, s', a) && !Dirty(s, a) && OfMutator(a)
    ensures SysInv(s')
  {
    match a
    case Alloc(t, u, x, n, init) => AllocInv(s, s', t, u, x, n, init);
    case Write(t, u, o, i, v) => WriteInv(s, s', t, u, o, i, v);
    case WriteGlobal(t, u, k, v) => WriteGlobalInv(s, s', t, u, k, v);
    case Load(t, u, o, i) => LoadInv(s, s', t, u, o, i);
    case LoadGlobal(t, u, k) => LoadGlobalInv(s, s', t, u, k);
    case Drop(t, u, keep) => DropInv(s, s', t, u, keep);
    case NewUser(t, u) => NewUserInv(s, s', t, u);
    case Migrate(t, u, scan) => if scan { MigrateScanInv(s, s', t, u); } else { MigrateQuietInv(s, s', t, u); }
  }

  lemma CollectorNext(s: System, s': System, a: Action)
    requires SysInv(s) && NextSystem(s, s', a) && !OfMutator(a) && !a.Shake?
    ensures SysInv(s')
  {
    match a
    case ScanUser(t, u) => ScanUserInv(s, s', t, u);
    case ScanGlobal(t) => ScanGlobalInv(s, s', t);
    case Trace(t, o) => if s.m.grey[o].next < s.m.size[o] { VisitInv(s, s', t, o); } else { PopInv(s, s', t, o); }
    case FinStart(t) => FinStartInv(s, s', t);
    case FinRead(t, w) => FinReadInv(s, s', t, w);
    case FinEnd(t) => FinEndInv(s, s', t);
    case ClearRemembered(t) => ClearRememberedInv(s, s', t);
    case Reset(t, o) => if White(s.m, o) { FreeInv(s, s', t, o); } else { RenewInv(s, s', t, o); }
  }

  lemma SysNext(s: System, s': System, a: Action)
    requires SysInv(s) && NextSystem(s, s', a) && !Dirty(s, a)
    ensures SysInv(s')
  {
    if a.Shake? {
      ShakeInv(s, s', a.step);
    } else if OfMutator(a) {
      MutatorNext(s, s', a);
    } else {
      CollectorNext(s, s', a);
    }
  }

  ghost predicate SysRun(states: seq<System>, actions: seq<Action>) {
    && |states| == |actions| + 1
    && InitSystem(states[0])
    && forall i :: 0 <= i < |actions| ==> NextSystem(states[i], states[i + 1], actions[i])
  }

  /** No barrier of the run shades an object that has been reset already. */
  ghost predicate CleanRun(states: seq<System>, actions: seq<Action>)
    requires |states| == |actions| + 1
  {
    forall i :: 0 <= i < |actions| ==> !Dirty(states[i], actions[i])
  }

  lemma {:induction false} SysRunInv(states: seq<System>, actions: seq<Action>, i: nat)
    requires SysRun(states, actions) && CleanRun(states, actions) && i < |states|
    ensures SysInv(states[i])
  {
    if i == 0 {
      InitInv(states[0].h);
    } else {
      SysRunInv(states, actions, i - 1);
      assert NextSystem(states[i - 1], states[i - 1 + 1], actions[i - 1]);
      assert !Dirty(states[i - 1], actions[i - 1]);
      SysNext(states[i - 1], states[i], actions[i - 1]);
    }
  }

  /** x can be reached in n steps from a root of some user or from a global slot. */
  ghost predicate Reach(m: Heap, x: Obj, n: nat)
    decreases n
  {
    if n == 0 then
      (exists u :: u in m.roots && x in m.roots[u]) || (exists k :: k in m.glob && m.glob[k] == x)
    else
      exists q :: q in m.fld && m.fld[q] == x && Reach(m, q.o, n - 1)
  }

  lemma {:induction false} ReachClosed(m: Heap, x: Obj, n: nat)
    requires Reach(m, x, n) && Closed(m)
    ensures !White(m, x)
    decreases n
  {
    if n > 0 {
      var q :| q in m.fld && m.fld[q] == x && Reach(m, q.o, n - 1);
      ReachClosed(m, q.o, n - 1);
    }
  }

  lemma {:induction false} ReachKept(m: Heap, x: Obj, n: nat)
    requires Reach(m, x, n) && KeptClosed(m)
    ensures Kept(m, x)
    decreases n
  {
    if n > 0 {
      var q :| q in m.fld && m.fld[q] == x && Reach(m, q.o, n - 1);
      ReachKept(m, q.o, n - 1);
    }
  }

  lemma ReachLive(s: System, x: Obj, n: nat)
    requires SysInv(s) && Reach(s.m, x, n)
    ensures x in s.m.home
  {
    if s.h.round.kind == Async { ReachKept(s.m, x, n); }
  }

  /** Marking safety: when the check succeeds and the ASYNC round is opened, every
      reachable object has its collect bit set or was allocated after the snapshot
      of its worker. */
  lemma MarkingSafe(states: seq<System>, actions: seq<Action>, i: nat, t: W, x: Obj, n: nat)
    requires SysRun(states, actions) && CleanRun(states, actions) && i < |actions|
    requires actions[i] == Shake(Global(t, Async)) && Reach(states[i].m, x, n)
    ensures x in states[i].m.marked || x !in states[i].m.target
  {
    SysRunInv(states, actions, i);
    assert NextSystem(states[i], states[i + 1], actions[i]);
    ToAsync(states[i], states[i + 1], t);
    ReachClosed(states[i].m, x, n);
  }

  /** Reclamation safety: in every state of the run, whatever can be reached is allocated. */
  lemma NoDanglingPointer(states: seq<System>, actions: seq<Action>, i: nat, x: Obj, n: nat)
    requires SysRun(states, actions) && CleanRun(states, actions) && i < |states|
    requires Reach(states[i].m, x, n)
    ensures x in states[i].m.home
  {
    SysRunInv(states, actions, i);
    ReachLive(states[i], x, n);
  }

  /** In the ASYNC round a reset object gets a stale mark exactly by a dirty write. */
  lemma StaleMark(s: System, s': System, a: Action)
    requires SysInv(s) && s.h.round.kind == Async && NextSystem(s, s', a) && s'.h.round.kind == Async
    ensures s'.m.renewed * s'.m.marked != {} <==> Dirty(s, a)
  {
    if Dirty(s, a) {
      DirtyMarks(s, s', a);
    } else {
      SysNext(s, s', a);
    }
  }

  lemma DirtyMarks(s: System, s': System, a: Action)
    requires SysInv(s) && NextSystem(s, s', a) && Dirty(s, a)
    ensures s'.m.renewed * s'.m.marked != {}
  {
    MutatorPhase(s.h, a.t);
    var x := if a.Write? then s.m.fld[Slot(a.o, a.i)] else s.m.glob[a.k];
    assert Kept(s.m, x) by {
      if a.Write? { assert Kept(s.m, a.o); }
    }
    assert x in s'.m.renewed * s'.m.marked;
  }
}
