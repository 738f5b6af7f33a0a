/** The collector does its work: an action that has been started can be completed, what
    is older than the snapshot is judged, and what is judged and unmarked is freed. */
module MarkingProgress {
  import opened Phases
  import opened Handshake
  import opened Marking
  import opened Tricolour
  import opened MarkingInv
  import opened MarkingSafety
  import opened MarkingMemory
  import MarkingRounds
  import HandshakeSafety
  import HandshakeProgress

  // ------------------------------------------------------ an action comes to its end

  ghost predicate Leads(s: System, s': System) { MarkingRounds.Leads(s, s') }

  /** One more step in front. */
  lemma First(s: System, s1: System, s': System, a: Action)
    requires NextSystem(s, s1, a) && Leads(s1, s')
    ensures Leads(s, s')
  {
    hide NextSystem, MarkingRounds.Leads;
    MarkingRounds.Stay(s);
    MarkingRounds.Then(s, s, s1, a);
    MarkingRounds.LeadsTrans(s, s1, s');
  }

  /** The state after a collector step that changes the heap only. */
  lemma Collected(s: System, s': System, a: Action)
    requires SysInv(s) && NextSystem(s, s', a) && (a.ScanUser? || a.ScanGlobal? || a.Trace? || a.Reset?)
    ensures SysInv(s') && s'.h == s.h
  {
    hide SysInv;
    SysNext(s, s', a);
  }

  /** What is still to be marked, and what is still to be looked at. */
  function Whites(m: Heap): set<Obj> { set x | x in m.target && x !in m.marked }

  function Unseen(m: Heap): set<Slot> {
    set o, i | o in m.grey && o in m.size && m.grey[o].next <= i < m.size[o] :: Slot(o, i)
  }

  lemma Fewer<T>(a: set<T>, b: set<T>, x: T)
    requires a <= b && x in b && x !in a
    ensures |a| < |b|
  {
    assert b == a + (b - a) && x in b - a;
    assert |b| == |a| + |b - a|;
  }

  /** Tracing a slot marks an object or leaves fewer slots. */
  lemma VisitLess(m: Heap, o: Obj)
    requires o in m.grey && o in m.size && m.grey[o].next < m.size[o]
    ensures var m' := Visited(m, o);
            |Whites(m')| < |Whites(m)| || (|Whites(m')| == |Whites(m)| && |Unseen(m')| < |Unseen(m)|)
  {
    var e, m' := m.grey[o], Visited(m, o);
    var q := Slot(o, e.next);
    if q in m.fld && White(m, m.fld[q]) {
      Fewer(Whites(m'), Whites(m), m.fld[q]);
    } else {
      assert Whites(m') == Whites(m);
      assert q in Unseen(m) && q !in Unseen(m');
      Fewer(Unseen(m'), Unseen(m), q);
    }
  }

  lemma PopLess(m: Heap, o: Obj)
    requires o in m.grey && o in m.size && m.grey[o].next >= m.size[o]
    ensures var m' := m.(grey := m.grey - {o});
            Whites(m') == Whites(m) && Unseen(m') == Unseen(m) && |m'.grey| < |m.grey|
  {
    var m' := m.(grey := m.grey - {o});
    Fewer(m'.grey.Keys, m.grey.Keys, o);
  }

  /** One step of tracing, and what there is less to do afterwards. */
  lemma TraceOne(s: System, t: W, o: Obj) returns (s': System)
    requires SysInv(s) && Acting(s, t, Mark) && o in s.m.grey && s.m.grey[o].holder == s.h.pc[t].w
    ensures NextSystem(s, s', Trace(t, o)) && SysInv(s') && s'.h == s.h
    ensures |Whites(s'.m)| < |Whites(s.m)|
         || (|Whites(s'.m)| == |Whites(s.m)| && |Unseen(s'.m)| < |Unseen(s.m)|)
         || (|Whites(s'.m)| == |Whites(s.m)| && |Unseen(s'.m)| == |Unseen(s.m)| && |s'.m.grey| < |s.m.grey|)
  {
    assert o in s.m.size;
    hide SysInv, Whites, Unseen;
    if s.m.grey[o].next < s.m.size[o] {
      s' := s.(m := Visited(s.m, o));
      VisitLess(s.m, o);
    } else {
      s' := s.(m := s.m.(grey := s.m.grey - {o}));
      PopLess(s.m, o);
    }
    Collected(s, s', Trace(t, o));
  }

  /** Tracing comes to an end, and leaves nothing on the mark stack of its worker. */
  lemma {:induction false} TraceAll(s: System, t: W) returns (s': System)
    requires SysInv(s) && Acting(s, t, Mark)
    ensures Leads(s, s') && SysInv(s') && s'.h == s.h && ActionDone(s'.m, Mark, s.h.pc[t].w)
    decreases |Whites(s.m)|, |Unseen(s.m)|, |s.m.grey|
  {
    hide SysInv, NextSystem, Leads, Whites, Unseen;
    if o :| o in s.m.grey && s.m.grey[o].holder == s.h.pc[t].w {
      var s1 := TraceOne(s, t, o);
      s' := TraceAll(s1, t);
      First(s, s1, s', Trace(t, o));
    } else {
      s' := s;
      Nothing(s);
    }
  }

  lemma Nothing(s: System)
    ensures Leads(s, s)
  {
    MarkingRounds.Stay(s);
  }

  lemma ScanOne(s: System, t: W, u: User) returns (s': System)
    requires SysInv(s) && Acting(s, t, Sync2) && u in s.m.owner && s.m.owner[u] == s.h.pc[t].w && u !in s.m.scanned
    ensures NextSystem(s, s', ScanUser(t, u)) && SysInv(s') && s'.h == s.h
    ensures s'.m.owner == s.m.owner && s'.m.scanned == s.m.scanned + {u}
    ensures |s'.m.owner.Keys - s'.m.scanned| < |s.m.owner.Keys - s.m.scanned|
  {
    assert u in s.m.roots;
    s' := s.(m := ShadeAll(s.m, s.m.roots[u], s.h.pc[t].w).(scanned := s.m.scanned + {u}));
    Fewer(s'.m.owner.Keys - s'.m.scanned, s.m.owner.Keys - s.m.scanned, u);
    Collected(s, s', ScanUser(t, u));
  }

  lemma ScanNext(s: System, t: W) returns (s': System)
    requires SysInv(s) && Acting(s, t, Sync2) && s.m.enumerator == Some(s.h.pc[t].w) && s.m.gnext < s.m.gsize
    ensures NextSystem(s, s', ScanGlobal(t)) && SysInv(s') && s'.h == s.h
    ensures s'.m.owner == s.m.owner && s'.m.scanned == s.m.scanned && s'.m.enumerator == s.m.enumerator
    ensures s'.m.gsize == s.m.gsize && s'.m.gnext == s.m.gnext + 1
  {
    hide SysInv;
    var m1 := if s.m.gnext in s.m.glob then Shade(s.m, s.m.glob[s.m.gnext], s.h.pc[t].w, true) else s.m;
    s' := s.(m := m1.(gnext := s.m.gnext + 1));
    Collected(s, s', ScanGlobal(t));
  }

  /** Enumeration of the root set comes to an end. */
  lemma {:induction false} ScanAll(s: System, t: W) returns (s': System)
    requires SysInv(s) && Acting(s, t, Sync2)
    ensures Leads(s, s') && SysInv(s') && s'.h == s.h && ActionDone(s'.m, Sync2, s.h.pc[t].w)
    decreases |s.m.owner.Keys - s.m.scanned|, s.m.gsize - s.m.gnext
  {
    assert s.m.gnext <= s.m.gsize;
    hide SysInv, NextSystem, Leads;
    var w := s.h.pc[t].w;
    if u :| u in s.m.owner && s.m.owner[u] == w && u !in s.m.scanned {
      var s1 := ScanOne(s, t, u);
      s' := ScanAll(s1, t);
      First(s, s1, s', ScanUser(t, u));
    } else if s.m.enumerator == Some(w) && s.m.gnext < s.m.gsize {
      var s1 := ScanNext(s, t);
      s' := ScanAll(s1, t);
      First(s, s1, s', ScanGlobal(t));
    } else {
      s' := s;
      Nothing(s);
    }
  }

  lemma ResetOne(s: System, t: W, o: Obj) returns (s': System)
    requires SysInv(s) && Acting(s, t, Async) && o in s.m.home && s.m.home[o] == s.h.pc[t].w && o !in s.m.renewed
    ensures NextSystem(s, s', Reset(t, o)) && SysInv(s') && s'.h == s.h
    ensures |s'.m.home.Keys - s'.m.renewed| < |s.m.home.Keys - s.m.renewed|
  {
    hide SysInv;
    s' := s.(m := if White(s.m, o) then Freed(s.m, o)
                  else s.m.(target := s.m.target + {o}, marked := s.m.marked - {o}, renewed := s.m.renewed + {o}));
    Fewer(s'.m.home.Keys - s'.m.renewed, s.m.home.Keys - s.m.renewed, o);
    Collected(s, s', Reset(t, o));
  }

  /** Reclamation comes to an end. */
  lemma {:induction false} ResetAll(s: System, t: W) returns (s': System)
    requires SysInv(s) && Acting(s, t, Async)
    ensures Leads(s, s') && SysInv(s') && s'.h == s.h && ActionDone(s'.m, Async, s.h.pc[t].w)
    decreases |s.m.home.Keys - s.m.renewed|
  {
    assert s.m.grey == map[];
    hide SysInv, NextSystem, Leads;
    if o :| o in s.m.home && s.m.home[o] == s.h.pc[t].w && o !in s.m.renewed {
      var s1 := ResetOne(s, t, o);
      s' := ResetAll(s1, t);
      First(s, s1, s', Reset(t, o));
    } else {
      s' := s;
      Nothing(s);
    }
  }

  /** A thread that runs the action of a worker can complete it whatever the others do
      not do, and answer. */
  lemma ActionCompletes(s: System, t: W) returns (s': System, s'': System)
    requires SysInv(s) && t in s.h.pc && s.h.pc[t].Act?
    ensures Leads(s, s') && s'.h == s.h && NextSystem(s', s'', Shake(Respond(t))) && SysInv(s'')
  {
    hide SysInv, NextSystem, Leads;
    s' := s;
    Nothing(s);
    match s.h.round.kind {
      case Sync2 => s' := ScanAll(s, t);
      case Mark => s' := TraceAll(s, t);
      case Async => s' := ResetAll(s, t);
      case _ =>
    }
    s'' := Answered(s', t);
    SysNext(s', s'', Shake(Respond(t)));
  }

  lemma Answered(s: System, t: W) returns (s': System)
    requires t in s.h.pc && s.h.pc[t].Act? && ActionDone(s.m, s.h.round.kind, s.h.pc[t].w)
    ensures NextSystem(s, s', Shake(Respond(t)))
  {
    hide ActionDone;
    var w, mode, last := s.h.pc[t].w, s.h.pc[t].mode, s.h.flag == 1;
    var h' := SetPc(s.h.(flag := Wrap(s.h.flag - 1),
                         round := s.h.round.(resp := s.h.round.resp + {w}, fired := s.h.round.fired || last),
                         driver := if last then Some(t) else s.h.driver),
                    t, if last then Last(w, mode) else Return(w, mode));
    s' := System(h', if s.h.round.kind == Sync1 && last then s.m.(enumerator := Some(w)) else s.m);
  }

  /** A handshake step that brings the round closer to its end, with all that has to be
      done before it. */
  lemma OneCloser(s: System) returns (s': System)
    requires SysInv(s) && HandshakeProgress.Driven(s.h) && !s.h.round.fired && !s.h.round.early
    ensures Leads(s, s') && SysInv(s') && HandshakeProgress.Driven(s'.h)
    ensures HandshakeProgress.Closer(s.h, s'.h) && s'.h.round.id == s.h.round.id
  {
    var step, h' := HandshakeProgress.NoDeadlock(s.h);
    HandshakeProgress.DrivenNext(s.h, h', step);
    hide HandshakeProgress.Closer, HandshakeProgress.Driven, SysInv, Leads;
    if step.Respond? {
      var s1;
      s1, s' := ActionCompletes(s, step.t);
      MarkingRounds.Then(s, s1, s', Shake(step));
    } else {
      s' := System(h', s.m);
      assert NextSystem(s, s', Shake(step)) by { hide Next; }
      SysNext(s, s', Shake(step));
      Nothing(s);
      MarkingRounds.Then(s, s, s', Shake(step));
    }
  }

  /** The collector alone can bring every round to its end, from every state in which the
      round is not stuck for ever: whatever state the mutators have been left in, they
      need not take a step except to accept a signal. */
  lemma {:induction false} RoundCanEnd(s: System) returns (s': System)
    requires SysInv(s) && HandshakeProgress.Driven(s.h)
    ensures Leads(s, s') && SysInv(s') && HandshakeProgress.Driven(s'.h)
    ensures s'.h.round.id == s.h.round.id && (s'.h.round.fired || s'.h.round.early)
    decreases |HandshakeProgress.Unflipped(s.h)|, !s.h.round.added, |HandshakeProgress.Unanswered(s.h)|,
              |HandshakeProgress.Signalled(s.h)|, |HandshakeProgress.Helpers(s.h)|, |HandshakeProgress.Away(s.h)|
  {
    hide SysInv, Leads, HandshakeProgress.Driven, MarkingRounds.Leads;
    if s.h.round.fired || s.h.round.early {
      s' := s;
      Nothing(s);
    } else {
      var s1 := OneCloser(s);
      s' := RoundCanEnd(s1);
      LeadsOn(s, s1, s');
    }
  }

  lemma LeadsOn(s: System, s1: System, s': System)
    requires Leads(s, s1) && Leads(s1, s')
    ensures Leads(s, s')
  {
    MarkingRounds.LeadsTrans(s, s1, s');
  }

  /** The last responder of a MARK round, at its check. */
  ghost predicate AtCheck(s: System, d: W) { SysInv(s) && Finisher(s, d) && s.h.driver == Some(d) }

  lemma CheckStep(s: System, s': System, d: W, a: Action)
    requires AtCheck(s, d) && NextSystem(s, s', a) && (a.FinStart? || a.FinRead? || a.FinEnd?)
    ensures AtCheck(s', d) && s'.h == s.h
  {
    hide SysInv;
    SysNext(s, s', a);
  }

  /** The check comes to a verdict. */
  lemma {:induction false} CheckEnds(s: System, d: W) returns (s': System)
    requires AtCheck(s, d)
    ensures Leads(s, s') && AtCheck(s', d) && s'.h == s.h && s'.m.fin.Verdict?
    decreases s.m.fin.Idle?, s.m.fin.Checking?, if s.m.fin.Checking? then |s.m.fin.todo1| + |s.m.fin.todo2| else 0
  {
    hide AtCheck, Leads;
    if s.m.fin.Verdict? {
      s' := s;
      Nothing(s);
    } else {
      var a, s1 := CheckOne(s, d);
      s' := CheckEnds(s1, d);
      First(s, s1, s', a);
    }
  }

  /** How far the check is. */
  predicate CheckCloser(f: Finish, f': Finish) {
    f'.Verdict? || (f'.Checking? && (f.Idle? || (f.Checking? && |f'.todo1| + |f'.todo2| < |f.todo1| + |f.todo2|)))
  }

  lemma CheckOne(s: System, d: W) returns (a: Action, s': System)
    requires AtCheck(s, d) && !s.m.fin.Verdict?
    ensures NextSystem(s, s', a) && AtCheck(s', d) && s'.h == s.h && CheckCloser(s.m.fin, s'.m.fin)
  {
    assert Finisher(s, d);
    hide SysInv, AtCheck;
    if s.m.fin.Idle? {
      var all := s.h.workers.Keys;
      a, s' := FinStart(d), s.(m := s.m.(fin := Checking(all, all, all, s.m.grey)));
    } else if s.m.fin.todo1 == {} && s.m.fin.todo2 == {} {
      a, s' := FinEnd(d), s.(m := s.m.(fin := Verdict(s.m.fin.list == s.h.workers.Keys)));
    } else {
      var w :| w in if s.m.fin.todo1 != {} then s.m.fin.todo1 else s.m.fin.todo2;
      a := FinRead(d, w);
      s' := CheckRead(s, d, w);
    }
    CheckStep(s, s', d, a);
  }

  lemma CheckRead(s: System, d: W, w: W) returns (s': System)
    requires Finisher(s, d) && s.m.fin.Checking?
    requires w in s.m.fin.todo1 || (s.m.fin.todo1 == {} && w in s.m.fin.todo2)
    ensures NextSystem(s, s', FinRead(d, w)) && CheckCloser(s.m.fin, s'.m.fin)
  {
    hide Remembers;
    s' := s.(m := s.m.(fin := if Remembers(s.m, w) then Verdict(false)
                              else if w in s.m.fin.todo1 then s.m.fin.(todo1 := s.m.fin.todo1 - {w})
                              else s.m.fin.(todo2 := s.m.fin.todo2 - {w})));
    Fewer(s.m.fin.todo1 - {w}, s.m.fin.todo1 + {w}, w);
    Fewer(s.m.fin.todo2 - {w}, s.m.fin.todo2 + {w}, w);
    if w in s.m.fin.todo1 { assert s.m.fin.todo1 + {w} == s.m.fin.todo1; }
    if w in s.m.fin.todo2 { assert s.m.fin.todo2 + {w} == s.m.fin.todo2; }
  }

  lemma OpenNext(s: System, d: W) returns (s': System)
    requires SysInv(s) && HandshakeProgress.Driven(s.h) && s.h.gc && s.h.round.fired && s.h.driver == Some(d)
    requires s.h.round.kind == Mark ==> s.m.fin.Verdict?
    ensures exists step :: NextSystem(s, s', Shake(step))
    ensures !s'.h.gc || s'.h.round.id == s.h.round.id + 1
  {
    var e, step, h' := HandshakeProgress.NextRound(s.h);
    hide SysInv;
    if step.Global? && s.h.round.kind == Mark {
      MarkOver(s, d);
      var next := if s.m.fin.ok then Async else Mark;
      s' := ToNextMark(s, d, next);
      assert NextSystem(s, s', Shake(Global(d, next)));
    } else if step.Global? {
      s' := System(h', if step.next == Sync1 then s.m.(scanned := {}, gnext := 0, enumerator := None) else s.m);
      assert NextSystem(s, s', Shake(step));
    } else {
      s' := System(h', s.m);
      assert NextSystem(s, s', Shake(step));
    }
  }

  lemma MarkOver(s: System, d: W)
    requires SysInv(s) && s.h.round.fired && s.h.driver == Some(d) && s.h.round.kind == Mark
    ensures d in s.h.pc && s.h.pc[d].Last?
  {
    assert ThreadOk(s.h, d);
  }

  /** The MARK round is followed by ASYNC if the check has succeeded, and repeated if not. */
  lemma ToNextMark(s: System, d: W, next: Phase) returns (s': System)
    requires d in s.h.pc && s.h.pc[d].Last? && s.h.round.kind == Mark && s.m.fin.Verdict?
    requires next == if s.m.fin.ok then Async else Mark
    ensures NextSystem(s, s', Shake(Global(d, next))) && s'.h.round.id == s.h.round.id + 1
  {
    var pc := s.h.pc[d];
    var h' := SetPc(s.h.(join := next, round := Round(s.h.round.id + 1, next, Mark, s.h.workers.Keys, {}, {}, false, false, false)),
                    d, Flipping(pc.w, pc.mode, s.h.workers.Keys, 0));
    s' := System(h', s.m.(fin := Idle, renewed := if next == Async then {} else s.m.renewed));
  }

  /** When a round is over, the thread in charge can check the result of marking, and open
      the next round or end the collection. */
  lemma NextCanOpen(s: System) returns (s': System)
    requires SysInv(s) && HandshakeProgress.Driven(s.h) && s.h.gc && s.h.round.fired
    ensures Leads(s, s') && (!s'.h.gc || s'.h.round.id == s.h.round.id + 1)
  {
    var d := s.h.driver.value;
    var s1 := s;
    Nothing(s);
    if s.h.round.kind == Mark {
      MarkOver(s, d);
      s1 := CheckEnds(s, d);
    }
    assert SysInv(s1);
    hide SysInv, Leads;
    s' := OpenNext(s1, d);
    var step :| NextSystem(s1, s', Shake(step));
    MarkingRounds.Then(s, s1, s', Shake(step));
  }

  // ------------------------------------------------------------ what is judged

  /** Worker w has not taken its snapshot, nor reclaimed its objects with the last one
      still to come. */
  predicate Old(h: State, w: W) {
    w in h.workers && BeforeSnapshot(h.workers[w].phase) && (h.round.kind == Async ==> Done(h, w))
  }

  /** Every object of such a worker is a target: it will be freed unless it is marked. */
  ghost predicate Judged(s: System) {
    && (forall o :: o in s.m.home ==> s.m.home[o] in s.h.workers)
    && (forall o :: o in s.m.home && Old(s.h, s.m.home[o]) ==> o in s.m.target)
    && (s.h.round.kind == Async ==> forall o :: o in s.m.renewed ==> o in s.m.home && o in s.m.target)
  }

  /** Nothing that matters here has changed. */
  predicate SameJudgement(m: Heap, m': Heap) { m'.home == m.home && m'.target == m.target && m'.renewed == m.renewed }

  /** Where a worker comes from in one handshake step. */
  lemma OldBefore(h: State, h': State, step: Step, w: W)
    requires Inv(h) && Next(h, h', step) && !step.Global? && w in h.workers && Old(h', w)
    ensures Old(h, w) || (step.Respond? && step.t in h.pc && h.pc[step.t].Act? && h.pc[step.t].w == w && h.round.kind == Async)
  {
    WorkerMoves(h, h', step, w);
    PhaseMoves(h, h', step, w);
  }

  /** The phase of a worker goes forward within the round. */
  lemma PhaseMoves(h: State, h': State, step: Step, w: W)
    requires Inv(h) && Next(h, h', step) && !step.Global? && w in h.workers
    ensures w in h'.workers
    ensures h.round.kind != Async && BeforeSnapshot(h'.workers[w].phase) ==> BeforeSnapshot(h.workers[w].phase)
    ensures h.round.kind == Async && Done(h, w) ==> BeforeSnapshot(h.workers[w].phase)
  {
    WorkerMoves(h, h', step, w);
    HandshakeSafety.NextInv(h, h', step);
    RoundFrom(h, h', step);
    assert WorkerOk(h, w) && WorkerOk(h', w);
    hide Next;
  }

  lemma RoundFrom(h: State, h': State, step: Step)
    requires Next(h, h', step) && !step.Global?
    ensures h'.round.kind == h.round.kind && h'.round.from == h.round.from
  {
  }

  lemma JudgedAlloc(s: System, s': System, t: W, u: User, x: Obj, n: nat, init: map<nat, Obj>)
    requires Judged(s) && AllocStep(s, s', t, u, x, n, init)
    ensures Judged(s')
  {
    hide Slots;
  }

  lemma JudgedReset(s: System, s': System, t: W, o: Obj)
    requires Judged(s) && ResetStep(s, s', t, o)
    ensures Judged(s')
  {
  }

  lemma JudgedSame(s: System, s': System)
    requires Judged(s) && s'.h == s.h && SameJudgement(s.m, s'.m)
    ensures Judged(s')
  {
    hide Old;
  }

  /** All objects of a worker that answers in the ASYNC round have been reset. */
  lemma JudgedRespond(s: System, s': System, step: Step)
    requires Inv(s.h) && Judged(s) && ShakeStep(s, s', step) && !step.Global?
    ensures Judged(s')
  {
    assert SameJudgement(s.m, s'.m) && s'.h.round.kind == s.h.round.kind && s.h.workers.Keys <= s'.h.workers.Keys by {
      hide Old, Judged, Inv, ActionDone;
    }
    hide Inv;
    forall o | o in s'.m.home && Old(s'.h, s'.m.home[o]) ensures o in s'.m.target {
      OldBefore(s.h, s'.h, step, s.m.home[o]);
    }
  }

  lemma JudgedGlobal(s: System, s': System, t: W, next: Phase)
    requires Inv(s.h) && Judged(s) && ShakeStep(s, s', Global(t, next))
    ensures Judged(s')
  {
    RoundOver(s.h, s'.h, t, next);
    hide Inv, ActionDone;
    forall o | o in s'.m.home && Old(s'.h, s'.m.home[o]) ensures o in s'.m.target { assert Done(s.h, s.m.home[o]); }
  }

  lemma JudgedOther(s: System, s': System, a: Action)
    requires NextSystem(s, s', a) && !a.Shake? && !a.Alloc? && !a.Reset?
    ensures s'.h == s.h && SameJudgement(s.m, s'.m)
  {
    hide Barrier, ShadeAll, Shade, White, Remembers, MayStore, MayMigrate;
    match a
    case Write(t, u, o, i, v) => BarrierLeaves(s.m, s.h.workers[t].phase, t, Get(s.m.fld, Slot(o, i)), v);
    case WriteGlobal(t, u, k, v) => BarrierLeaves(s.m, s.h.workers[t].phase, t, Get(s.m.glob, k), v);
    case Migrate(t, u, scan) => ShadeAllLeaves(s.m, s.m.roots[u], t);
    case ScanUser(t, u) => ShadeAllLeaves(s.m, s.m.roots[u], s.h.pc[t].w);
    case ScanGlobal(t) => if s.m.gnext in s.m.glob { ShadeLeaves(s.m, s.m.glob[s.m.gnext], s.h.pc[t].w, true); }
    case Trace(t, o) =>
      var e := s.m.grey[o];
      var q := Slot(o, e.next);
      if q in s.m.fld { ShadeLeaves(s.m, s.m.fld[q], e.holder, e.rooted); }
    case _ =>
  }

  lemma JudgedNext(s: System, s': System, a: Action)
    requires Inv(s.h) && Judged(s) && NextSystem(s, s', a)
    ensures Judged(s')
  {
    hide Inv, Judged, AllocStep, ResetStep, ShakeStep;
    match a
    case Shake(step) =>
      if step.Global? { JudgedGlobal(s, s', step.t, step.next); } else { JudgedRespond(s, s', step); }
    case Alloc(t, u, x, n, init) => JudgedAlloc(s, s', t, u, x, n, init);
    case Reset(t, o) => JudgedReset(s, s', t, o);
    case _ => JudgedOther(s, s', a); JudgedSame(s, s');
  }

  lemma {:induction false} RunJudged(states: seq<System>, actions: seq<Action>, i: nat)
    requires SysRun(states, actions) && i < |states|
    ensures Inv(states[i].h) && Judged(states[i])
  {
    hide NextSystem, Next;
    if i == 0 {
      InitInv(states[0].h);
    } else {
      RunJudged(states, actions, i - 1);
      var s, s', a := states[i - 1], states[i], actions[i - 1];
      assert NextSystem(states[i - 1], states[i - 1 + 1], actions[i - 1]);
      JudgedNext(s, s', a);
      HandshakeNext(s, s', a);
    }
  }

  lemma HandshakeNext(s: System, s': System, a: Action)
    requires Inv(s.h) && NextSystem(s, s', a)
    ensures Inv(s'.h) && (a.Shake? ==> Next(s.h, s'.h, a.step)) && (!a.Shake? ==> s'.h == s.h)
  {
    hide Inv, Next, Barrier, ShadeAll, Shade, White, ActionDone, Slots;
    if a.Shake? { HandshakeSafety.NextInv(s.h, s'.h, a.step); }
  }

  /** In every state of every run, clean or not: an object of a worker that has yet to
      take the snapshot of a collection is judged by that collection. */
  lemma OldIsJudged(states: seq<System>, actions: seq<Action>, i: nat, o: Obj)
    requires SysRun(states, actions) && i < |states| && o in states[i].m.home
    ensures states[i].m.home[o] in states[i].h.workers
    ensures var h, w := states[i].h, states[i].m.home[o];
            (h.round.kind == Async ==> Done(h, w)) && BeforeSnapshot(h.workers[w].phase) ==> o in states[i].m.target
  {
    RunJudged(states, actions, i);
  }

  // --------------------------------------------------------------- what is freed

  /** o is garbage that this ASYNC round has not come to yet. */
  ghost predicate Waiting(s: System, o: Obj, w: W) {
    o in s.m.home && s.m.home[o] == w && White(s.m, o) && o !in s.m.renewed
  }

  predicate Frees(s: System, s': System, a: Action, o: Obj) {
    a.Reset? && a.o == o && o in s.m.home && o !in s'.m.home
  }

  /** No barrier of a clean run marks anything in the ASYNC round. */
  lemma BarrierQuiet(s: System, t: W, x: Option<Obj>, y: Option<Obj>)
    requires Inv(s.h) && s.h.round.kind == Async && t in s.h.pc && s.h.pc[t] == InML
    requires t in s.h.workers && (Code(s.h.workers[t].phase) >= Code(Sync1) && x.Some? ==> !White(s.m, x.value))
    ensures Barrier(s.m, s.h.workers[t].phase, t, x, y) == s.m
  {
    MutatorPhase(s.h, t);
  }

  lemma WaitsOn(s: System, s': System, a: Action, o: Obj, w: W)
    requires SysInv(s) && s.h.round.kind == Async && NextSystem(s, s', a) && !Dirty(s, a) && Waiting(s, o, w)
    requires !(a.Shake? && a.step.Global?)
    ensures Waiting(s', o, w) || Frees(s, s', a, o)
  {
    hide WriteStep, WriteGlobalStep, MigrateStep, ShakeStep, ScanUserStep, ScanGlobalStep, TraceStep, ResetStep, Remembers, SysInv, Slots;
    match a
    case Write(t, u, p, i, v) => WriteWaits(s, s', t, u, p, i, v);
    case WriteGlobal(t, u, k, v) => WriteGlobalWaits(s, s', t, u, k, v);
    case Migrate(t, u, scan) => MigrateWaits(s, s', t, u, scan);
    case Shake(step) => ShakeWaits(s, s', step);
    case Reset(t, p) => ResetWaits(s, s', t, p, o, w);
    case ScanUser(t, u) => NotNow(s, s', a);
    case ScanGlobal(t) => NotNow(s, s', a);
    case Trace(t, p) => NotNow(s, s', a);
    case _ =>
  }

  lemma NotNow(s: System, s': System, a: Action)
    requires s.h.round.kind == Async && NextSystem(s, s', a)
    ensures !a.ScanUser? && !a.ScanGlobal? && !a.Trace?
  {
  }

  lemma ShakeWaits(s: System, s': System, step: Step)
    requires s.h.round.kind == Async && ShakeStep(s, s', step) && !step.Global?
    ensures s'.m == s.m
  {
    hide Next, ActionDone;
  }

  lemma ResetWaits(s: System, s': System, t: W, p: Obj, o: Obj, w: W)
    requires ResetStep(s, s', t, p) && Waiting(s, o, w)
    ensures Waiting(s', o, w) || Frees(s, s', Reset(t, p), o)
  {
  }

  lemma WriteWaits(s: System, s': System, t: W, u: User, p: Obj, i: nat, v: Option<Obj>)
    requires SysInv(s) && s.h.round.kind == Async && WriteStep(s, s', t, u, p, i, v) && !Dirty(s, Write(t, u, p, i, v))
    ensures SameJudgement(s.m, s'.m) && s'.m.marked == s.m.marked
  {
    BarrierQuiet(s, t, Get(s.m.fld, Slot(p, i)), v);
  }

  lemma WriteGlobalWaits(s: System, s': System, t: W, u: User, k: nat, v: Option<Obj>)
    requires SysInv(s) && s.h.round.kind == Async && WriteGlobalStep(s, s', t, u, k, v) && !Dirty(s, WriteGlobal(t, u, k, v))
    ensures SameJudgement(s.m, s'.m) && s'.m.marked == s.m.marked
  {
    BarrierQuiet(s, t, Get(s.m.glob, k), v);
  }

  lemma MigrateWaits(s: System, s': System, t: W, u: User, scan: bool)
    requires SysInv(s) && s.h.round.kind == Async && MigrateStep(s, s', t, u, scan)
    ensures SameJudgement(s.m, s'.m) && s'.m.marked == s.m.marked
  {
    MutatorPhase(s.h, t);
  }

  /** o has been freed between two moments of the run. */
  ghost predicate FreedBetween(states: seq<System>, actions: seq<Action>, j: nat, i: nat, o: Obj)
    requires |states| == |actions| + 1 && i < |states|
  {
    exists l :: j <= l < i && Frees(states[l], states[l + 1], actions[l], o)
  }

  ghost predicate WaitsOrFreed(states: seq<System>, actions: seq<Action>, j: nat, i: nat, o: Obj, w: W)
    requires |states| == |actions| + 1 && i < |states|
  {
    Waiting(states[i], o, w) || FreedBetween(states, actions, j, i, o)
  }

  lemma Opened(s: System, s': System, t: W, o: Obj)
    requires SysInv(s) && NextSystem(s, s', Shake(Global(t, Async))) && White(s.m, o)
    ensures o in s.m.home && Waiting(s', o, s.m.home[o]) && s'.h.round.kind == Async
  {
    hide Stage, Inv;
  }

  /** From the opening of the ASYNC round to its end an unmarked target waits to be
      freed, or has been. */
  lemma {:induction false} GarbageWaits(states: seq<System>, actions: seq<Action>, j: nat, i: nat, t: W, o: Obj)
    requires SysRun(states, actions) && CleanRun(states, actions) && j < i < |states|
    requires actions[j] == Shake(Global(t, Async)) && White(states[j].m, o)
    ensures o in states[j].m.home && states[j + 1].h.round.kind == Async
    ensures states[j + 1].h.round.id <= states[i].h.round.id
    ensures states[i].h.round.id == states[j + 1].h.round.id ==>
              states[i].h.round.kind == Async && WaitsOrFreed(states, actions, j, i, o, states[j].m.home[o])
    decreases i
  {
    hide SysInv, NextSystem, Dirty, Waiting, FreedBetween, InitSystem;
    SysRunInv(states, actions, j);
    assert NextSystem(states[j], states[j + 1], actions[j]);
    Opened(states[j], states[j + 1], t, o);
    if i > j + 1 {
      GarbageWaits(states, actions, j, i - 1, t, o);
      SysRunInv(states, actions, i - 1);
      assert NextSystem(states[i - 1], states[i - 1 + 1], actions[i - 1]) && !Dirty(states[i - 1], actions[i - 1]);
      RoundOn(states[i - 1], states[i], actions[i - 1]);
      if states[i].h.round.id == states[j + 1].h.round.id { WaitsOneMore(states, actions, j, i - 1, o, states[j].m.home[o]); }
    }
  }

  lemma WaitsOneMore(states: seq<System>, actions: seq<Action>, j: nat, i: nat, o: Obj, w: W)
    requires |states| == |actions| + 1 && i < |actions| && j <= i
    requires SysInv(states[i]) && states[i].h.round.kind == Async && NextSystem(states[i], states[i + 1], actions[i])
    requires !Dirty(states[i], actions[i]) && !(actions[i].Shake? && actions[i].step.Global?)
    requires WaitsOrFreed(states, actions, j, i, o, w)
    ensures WaitsOrFreed(states, actions, j, i + 1, o, w)
  {
    hide SysInv, NextSystem, Dirty, Waiting, Frees;
    if Waiting(states[i], o, w) {
      WaitsOn(states[i], states[i + 1], actions[i], o, w);
    } else {
      var l :| j <= l < i && Frees(states[l], states[l + 1], actions[l], o);
    }
  }

  lemma RoundOn(s: System, s': System, a: Action)
    requires NextSystem(s, s', a)
    ensures s.h.round.id <= s'.h.round.id
    ensures s.h.round.id == s'.h.round.id ==> !(a.Shake? && a.step.Global?) && s'.h.round.kind == s.h.round.kind
  {
    hide Barrier, ShadeAll, Shade, White, ActionDone, Slots;
  }

  /** Reclamation is complete: in a clean run every object without a mark that the
      collection judges has been freed when its worker has answered the ASYNC round. */
  lemma GarbageFreed(states: seq<System>, actions: seq<Action>, j: nat, i: nat, t: W, o: Obj)
    requires SysRun(states, actions) && CleanRun(states, actions) && j < i < |states|
    requires actions[j] == Shake(Global(t, Async)) && o in states[j].m.target && o !in states[j].m.marked
    requires states[i].h.round.id == states[j + 1].h.round.id
    ensures o in states[j].m.home
    ensures Done(states[i].h, states[j].m.home[o]) ==> FreedBetween(states, actions, j, i, o)
  {
    GarbageWaits(states, actions, j, i, t, o);
    SysRunInv(states, actions, i);
  }
}
