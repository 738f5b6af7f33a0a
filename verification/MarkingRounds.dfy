/** A round in which every worker answers for itself can always be completed.
    These run fragments are put together to concrete runs in MarkingStale. */
module MarkingRounds {
  import opened Phases
  import opened Handshake
  import opened Marking
  import opened MarkingInv
  import opened MarkingSafety
  import opened Runs

  /** The system gets from s to s'. */
  ghost predicate Leads(s: System, s': System) { Joined(NextSystem, s, s') }

  lemma Stay(s: System)
    ensures Leads(s, s)
  {
    JoinedStay(NextSystem, s);
  }

  lemma Then(s: System, s': System, s'': System, a: Action)
    requires Leads(s, s') && NextSystem(s', s'', a)
    ensures Leads(s, s'')
  {
    JoinedThen(NextSystem, s, s', s'', a);
  }

  lemma LeadsTrans(s: System, s': System, s'': System)
    requires Leads(s, s') && Leads(s', s'')
    ensures Leads(s, s'')
  {
    JoinedTrans(NextSystem, s, s', s'');
  }

  lemma NoneLeft(a: set<W>, b: set<W>)
    requires a <= b && b - a == {}
    ensures a == b
  {
    assert b == a + (b - a);
  }

  /** An active worker without a helper. */
  function On(p: Phase): Worker { Worker(p, false, None) }

  /** All workers ws are in phase k and run ML code, except d, which is about to
      start the next round. */
  predicate Ready(s: System, ws: set<W>, d: W, k: Phase) {
    && d in ws && |ws| <= MAX_WORKERS
    && s.h.workers == (map w | w in ws :: On(k))
    && (s.h.pc == (map w | w in ws :: if w == d then Start(d, Greedy) else InML)
        || (k != Async && s.h.pc == (map w | w in ws :: if w == d then Last(d, Greedy) else InML)))
    && s.h.flag == 0 && s.h.gc && s.h.driver == Some(d) && s.h.round.kind == k
  }

  /** The workers f have been flipped. */
  function Flips(ws: set<W>, d: W, k: Phase, n: Phase, id: nat, f: set<W>, m: Heap): System {
    System(State(map w | w in ws :: On(if w in f then Pre(n) else k),
                 map w | w in ws :: if w == d then Flipping(d, Greedy, ws - f, |f|) else InML,
                 n, 0, true, Round(id, n, k, ws, f, {}, false, false, false), Some(d)), m)
  }

  /** The workers a have accepted. */
  function Accepts(ws: set<W>, d: W, k: Phase, n: Phase, id: nat, a: set<W>, m: Heap): System {
    System(State(map w | w in ws :: On(if w in a then n else Pre(n)),
                 map w | w in ws :: if w in a then Act(w, Greedy) else if w == d then Self(d) else InML,
                 n, |ws|, true, Round(id, n, k, ws, ws, {}, true, false, false), None), m)
  }

  /** The workers r have answered; d is the last to do so. */
  function Answers(ws: set<W>, d: W, k: Phase, n: Phase, id: nat, r: set<W>, m: Heap): System
    requires r <= ws
  {
    var over := r == ws;
    System(State(map w | w in ws :: On(n),
                 map w | w in ws :: if w in r then (if w == d then Last(d, Greedy) else InML) else Act(w, Greedy),
                 n, if over then 0 else Wrap(|ws| - |r|), true, Round(id, n, k, ws, ws, r, true, over, false),
                 if over then Some(d) else None), m)
  }

  lemma OneFlip(ws: set<W>, d: W, k: Phase, n: Phase, id: nat, f: set<W>, u: W, m: Heap)
    requires d in ws && f <= ws && u in ws - f && Follows(k, n)
    ensures NextSystem(Flips(ws, d, k, n, id, f, m), Flips(ws, d, k, n, id, f + {u}, m), Shake(FlipOne(d, u)))
  {
    var s, s' := Flips(ws, d, k, n, id, f, m).h, Flips(ws, d, k, n, id, f + {u}, m).h;
    FlipExact(k, k, Pre(n));
    assert |f + {u}| == |f| + 1 && ws - (f + {u}) == (ws - f) - {u};
    assert s'.workers == s.workers[u := On(Pre(n))];
    assert s'.pc == s.pc[d := Flipping(d, Greedy, ws - (f + {u}), |f| + 1)];
  }

  lemma {:induction false} AllFlips(s: System, ws: set<W>, d: W, k: Phase, n: Phase, id: nat, f: set<W>, m: Heap)
    requires d in ws && f <= ws && Follows(k, n) && Leads(s, Flips(ws, d, k, n, id, f, m))
    ensures Leads(s, Flips(ws, d, k, n, id, ws, m))
    decreases ws - f
  {
    if ws - f != {} {
      var u :| u in ws - f;
      OneFlip(ws, d, k, n, id, f, u, m);
      Then(s, Flips(ws, d, k, n, id, f, m), Flips(ws, d, k, n, id, f + {u}, m), Shake(FlipOne(d, u)));
      AllFlips(s, ws, d, k, n, id, f + {u}, m);
    } else {
      NoneLeft(f, ws);
    }
  }

  lemma AcceptStep(ws: set<W>, d: W, k: Phase, n: Phase, id: nat, a: set<W>, u: W, m: Heap)
    requires a <= ws && u in ws - a && d in ws && Follows(k, n)
    ensures var s, s' := Accepts(ws, d, k, n, id, a, m).h, Accepts(ws, d, k, n, id, a + {u}, m).h;
            if u == d then SelfAcceptStep(s, s', u) else CheckAcceptStep(s, s', u)
  {
    var s, s' := Accepts(ws, d, k, n, id, a, m).h, Accepts(ws, d, k, n, id, a + {u}, m).h;
    assert s'.workers == s.workers[u := On(n)];
    assert s'.pc == s.pc[u := Act(u, Greedy)];
  }

  lemma OneAccept(ws: set<W>, d: W, k: Phase, n: Phase, id: nat, a: set<W>, u: W, m: Heap)
    requires a <= ws && u in ws - a && d in ws && Follows(k, n)
    ensures NextSystem(Accepts(ws, d, k, n, id, a, m), Accepts(ws, d, k, n, id, a + {u}, m),
                       Shake(if u == d then SelfAccept(u) else CheckAccept(u)))
  {
    hide SelfAcceptStep, CheckAcceptStep;
    AcceptStep(ws, d, k, n, id, a, u, m);
  }

  lemma {:induction false} AllAccepts(s: System, ws: set<W>, d: W, k: Phase, n: Phase, id: nat, a: set<W>, m: Heap)
    requires d in ws && a <= ws && Follows(k, n) && Leads(s, Accepts(ws, d, k, n, id, a, m))
    ensures Leads(s, Accepts(ws, d, k, n, id, ws, m))
    decreases ws - a
  {
    if ws - a != {} {
      var u :| u in ws - a;
      OneAccept(ws, d, k, n, id, a, u, m);
      Then(s, Accepts(ws, d, k, n, id, a, m), Accepts(ws, d, k, n, id, a + {u}, m),
           Shake(if u == d then SelfAccept(u) else CheckAccept(u)));
      AllAccepts(s, ws, d, k, n, id, a + {u}, m);
    } else {
      NoneLeft(a, ws);
    }
  }

  lemma FlipsStart(s: System, ws: set<W>, d: W, k: Phase, n: Phase, m: Heap)
    requires Ready(s, ws, d, k) && Follows(k, n)
    ensures GlobalStep(s.h, Flips(ws, d, k, n, s.h.round.id + 1, {}, m).h, d, n)
  {
    var s1 := Flips(ws, d, k, n, s.h.round.id + 1, {}, m);
    assert s.h.workers.Keys == ws;
    assert s1.h.workers == s.h.workers;
    assert s1.h.pc == s.h.pc[d := Flipping(d, Greedy, ws, 0)] by { assert ws - {} == ws; }
  }

  lemma ToFlips(s: System, ws: set<W>, d: W, k: Phase, n: Phase, m: Heap)
    requires Ready(s, ws, d, k) && Follows(k, n)
    requires ShakeHeap(s.m, m, k, n)
    ensures NextSystem(s, Flips(ws, d, k, n, s.h.round.id + 1, {}, m), Shake(Global(d, n)))
  {
    FlipsStart(s, ws, d, k, n, m);
    assert s.h.round.kind == k;
    hide GlobalStep, Ready;
  }

  lemma ToAccepts(ws: set<W>, d: W, k: Phase, n: Phase, id: nat, m: Heap)
    requires d in ws && |ws| <= MAX_WORKERS
    ensures NextSystem(Flips(ws, d, k, n, id, ws, m), Accepts(ws, d, k, n, id, {}, m), Shake(AddCount(d)))
  {
    var s, s' := Flips(ws, d, k, n, id, ws, m).h, Accepts(ws, d, k, n, id, {}, m).h;
    assert ws - ws == {} && {} != ws;
    assert s'.workers == s.workers && s'.pc == s.pc[d := Self(d)];
  }

  /** What the swap of the worker list does to the heap. */
  predicate ShakeHeap(m: Heap, m': Heap, k: Phase, n: Phase) {
    if n == Sync1 then m' == m.(scanned := {}, gnext := 0, enumerator := None)
    else if k == Mark then m.fin == Verdict(n == Async) && m' == m.(fin := Idle, renewed := if n == Async then {} else m.renewed)
    else m' == m
  }

  /** From the end of a round to the point where everybody runs its next action. */
  lemma Open(s: System, ws: set<W>, d: W, k: Phase, n: Phase, m: Heap)
    requires Ready(s, ws, d, k) && Follows(k, n)
    requires ShakeHeap(s.m, m, k, n)
    ensures Leads(s, Accepts(ws, d, k, n, s.h.round.id + 1, ws, m))
  {
    var id := s.h.round.id + 1;
    Stay(s);
    ToFlips(s, ws, d, k, n, m);
    Then(s, s, Flips(ws, d, k, n, id, {}, m), Shake(Global(d, n)));
    AllFlips(s, ws, d, k, n, id, {}, m);
    ToAccepts(ws, d, k, n, id, m);
    Then(s, Flips(ws, d, k, n, id, ws, m), Accepts(ws, d, k, n, id, {}, m), Shake(AddCount(d)));
    AllAccepts(s, ws, d, k, n, id, {}, m);
  }

  lemma OneAnswer(ws: set<W>, d: W, k: Phase, n: Phase, id: nat, r: set<W>, u: W, m: Heap)
    requires r <= ws && u in ws - r && d in ws - r && |ws| <= MAX_WORKERS
    requires u == d <==> r + {u} == ws
    requires ActionDone(m, n, u)
    ensures var m' := if u == d && n == Sync1 then m.(enumerator := Some(d)) else m;
            NextSystem(Answers(ws, d, k, n, id, r, m), Answers(ws, d, k, n, id, r + {u}, m'), Shake(Respond(u)))
  {
    var s, s' := Answers(ws, d, k, n, id, r, m).h, Answers(ws, d, k, n, id, r + {u}, m).h;
    SubsetSize(r + {u}, ws);
    assert |r + {u}| == |r| + 1;
    assert s.flag == 1 <==> u == d;
    assert s'.workers == s.workers;
    assert s'.pc == s.pc[u := if u == d then Last(d, Greedy) else InML];
  }

  /** From there to the end of the round, d answering last. */
  lemma {:induction false} Close(s: System, ws: set<W>, d: W, k: Phase, n: Phase, id: nat, r: set<W>, m: Heap)
    requires r <= ws && |ws| <= MAX_WORKERS && d in ws - r
    requires forall w :: w in ws ==> ActionDone(m, n, w)
    requires Leads(s, Answers(ws, d, k, n, id, r, m))
    ensures Leads(s, Answers(ws, d, k, n, id, ws, if n == Sync1 then m.(enumerator := Some(d)) else m))
    decreases ws - r
  {
    if ws - (r + {d}) != {} {
      var u :| u in ws - (r + {d});
      OneAnswer(ws, d, k, n, id, r, u, m);
      Then(s, Answers(ws, d, k, n, id, r, m), Answers(ws, d, k, n, id, r + {u}, m), Shake(Respond(u)));
      Close(s, ws, d, k, n, id, r + {u}, m);
    } else {
      NoneLeft(r + {d}, ws);
      OneAnswer(ws, d, k, n, id, r, d, m);
      Then(s, Answers(ws, d, k, n, id, r, m),
           Answers(ws, d, k, n, id, ws, if n == Sync1 then m.(enumerator := Some(d)) else m), Shake(Respond(d)));
    }
  }

  lemma SameStates(ws: set<W>, d: W, k: Phase, n: Phase, id: nat, m: Heap)
    requires |ws| <= MAX_WORKERS && d in ws
    ensures Accepts(ws, d, k, n, id, ws, m) == Answers(ws, d, k, n, id, {}, m)
    ensures n != Async ==> Ready(Answers(ws, d, k, n, id, ws, m), ws, d, n)
  {
    var s, s' := Accepts(ws, d, k, n, id, ws, m).h, Answers(ws, d, k, n, id, {}, m).h;
    assert s.workers == s'.workers && s.pc == s'.pc;
  }

  // -------------------------------------------------------- the end-of-marking check

  function Check(s: System, all: set<W>, todo1: set<W>, todo2: set<W>): System {
    s.(m := s.m.(fin := Checking(all, todo1, todo2, map[])))
  }

  /** With empty mark stacks every read of the check succeeds. */
  lemma ReadOne(s: System, d: W, all: set<W>, todo1: set<W>, todo2: set<W>, w: W)
    requires d in s.h.pc && s.h.pc[d].Last? && s.h.round.kind == Mark && s.m.grey == map[]
    ensures w in todo1 ==> NextSystem(Check(s, all, todo1, todo2), Check(s, all, todo1 - {w}, todo2), FinRead(d, w))
    ensures todo1 == {} && w in todo2 ==> NextSystem(Check(s, all, {}, todo2), Check(s, all, {}, todo2 - {w}), FinRead(d, w))
  {
    assert !Remembers(Check(s, all, todo1, todo2).m, w);
  }

  lemma {:induction false} SecondPass(s0: System, s: System, d: W, all: set<W>, todo: set<W>)
    requires d in s.h.pc && s.h.pc[d].Last? && s.h.round.kind == Mark && s.m.grey == map[] && all == s.h.workers.Keys
    requires Leads(s0, Check(s, all, {}, todo))
    ensures Leads(s0, s.(m := s.m.(fin := Verdict(true))))
    decreases todo
  {
    if w :| w in todo {
      ReadOne(s, d, all, {}, todo, w);
      Then(s0, Check(s, all, {}, todo), Check(s, all, {}, todo - {w}), FinRead(d, w));
      SecondPass(s0, s, d, all, todo - {w});
    } else {
      assert todo == {};
      Then(s0, Check(s, all, {}, {}), s.(m := s.m.(fin := Verdict(true))), FinEnd(d));
    }
  }

  lemma {:induction false} Passes(s0: System, s: System, d: W, all: set<W>, todo: set<W>)
    requires d in s.h.pc && s.h.pc[d].Last? && s.h.round.kind == Mark && s.m.grey == map[] && all == s.h.workers.Keys
    requires Leads(s0, Check(s, all, todo, all))
    ensures Leads(s0, s.(m := s.m.(fin := Verdict(true))))
    decreases todo
  {
    if w :| w in todo {
      ReadOne(s, d, all, todo, all, w);
      Then(s0, Check(s, all, todo, all), Check(s, all, todo - {w}, all), FinRead(d, w));
      Passes(s0, s, d, all, todo - {w});
    } else {
      assert todo == {};
      SecondPass(s0, s, d, all, all);
    }
  }

  // ------------------------------------------------ a collection with nothing to mark

  /** Every root and every global slot names an object that is marked already. */
  ghost predicate NothingToMark(m: Heap, ws: set<W>) {
    && m.grey == map[] && m.fin == Idle && m.roots.Keys == m.owner.Keys
    && (forall u :: u in m.owner ==> m.owner[u] in ws)
    && (forall u, x {:trigger x in m.roots[u]} :: u in m.roots && x in m.roots[u] ==> !White(m, x))
    && (forall k {:trigger m.glob[k]} :: k in m.glob ==> !White(m, m.glob[k]))
  }

  lemma ShadeNothing(m: Heap, xs: set<Obj>, w: W)
    requires forall x :: x in xs ==> !White(m, x)
    ensures ShadeAll(m, xs, w) == m
  {
    assert (set x | x in xs && White(m, x)) == {};
    assert ShadeAll(m, xs, w).grey == m.grey;
  }

  lemma ScanOne(ws: set<W>, d: W, k: Phase, id: nat, m: Heap, u: User)
    requires NothingToMark(m, ws) && u in m.owner && u !in m.scanned && d in ws
    ensures NextSystem(Accepts(ws, d, k, Sync2, id, ws, m),
                       Accepts(ws, d, k, Sync2, id, ws, m.(scanned := m.scanned + {u})), ScanUser(m.owner[u], u))
  {
    ShadeNothing(m, m.roots[u], m.owner[u]);
  }

  lemma {:induction false} ScanUsers(s: System, ws: set<W>, d: W, k: Phase, id: nat, m: Heap)
    requires NothingToMark(m, ws) && d in ws && m.scanned <= m.owner.Keys
    requires Leads(s, Accepts(ws, d, k, Sync2, id, ws, m))
    ensures Leads(s, Accepts(ws, d, k, Sync2, id, ws, m.(scanned := m.owner.Keys)))
    decreases m.owner.Keys - m.scanned
  {
    hide Leads, NextSystem, Accepts;
    if m.owner.Keys - m.scanned != {} {
      var u :| u in m.owner.Keys - m.scanned;
      var m' := m.(scanned := m.scanned + {u});
      ScanOne(ws, d, k, id, m, u);
      Then(s, Accepts(ws, d, k, Sync2, id, ws, m), Accepts(ws, d, k, Sync2, id, ws, m'), ScanUser(m.owner[u], u));
      ScanUsers(s, ws, d, k, id, m');
    } else {
      NoneLeft(m.scanned, m.owner.Keys);
    }
  }

  lemma {:induction false} ScanGlobals(s: System, ws: set<W>, d: W, k: Phase, id: nat, m: Heap)
    requires NothingToMark(m, ws) && d in ws && m.enumerator == Some(d) && m.gnext <= m.gsize
    requires Leads(s, Accepts(ws, d, k, Sync2, id, ws, m))
    ensures Leads(s, Accepts(ws, d, k, Sync2, id, ws, m.(gnext := m.gsize)))
    decreases m.gsize - m.gnext
  {
    if m.gnext < m.gsize {
      var m' := m.(gnext := m.gnext + 1);
      assert NextSystem(Accepts(ws, d, k, Sync2, id, ws, m), Accepts(ws, d, k, Sync2, id, ws, m'), ScanGlobal(d));
      Then(s, Accepts(ws, d, k, Sync2, id, ws, m), Accepts(ws, d, k, Sync2, id, ws, m'), ScanGlobal(d));
      ScanGlobals(s, ws, d, k, id, m');
    }
  }

  /** A whole round in which there is nothing to do but to answer. */
  lemma IdleRound(s: System, ws: set<W>, d: W, k: Phase, n: Phase, m: Heap)
    requires Ready(s, ws, d, k) && Follows(k, n) && ShakeHeap(s.m, m, k, n)
    requires forall w :: w in ws ==> ActionDone(m, n, w)
    ensures Leads(s, Answers(ws, d, k, n, s.h.round.id + 1, ws, if n == Sync1 then m.(enumerator := Some(d)) else m))
  {
    Open(s, ws, d, k, n, m);
    SameStates(ws, d, k, n, s.h.round.id + 1, m);
    Close(s, ws, d, k, n, s.h.round.id + 1, {}, m);
  }

  lemma IdleSync2(s: System, ws: set<W>, d: W)
    requires Ready(s, ws, d, Sync1) && NothingToMark(s.m, ws)
    requires s.m.scanned == {} && s.m.gnext == 0 && s.m.enumerator == Some(d)
    ensures Leads(s, Answers(ws, d, Sync1, Sync2, s.h.round.id + 1, ws,
                             s.m.(scanned := s.m.owner.Keys, gnext := s.m.gsize)))
  {
    var id := s.h.round.id + 1;
    var m1 := s.m.(scanned := s.m.owner.Keys);
    var m2 := m1.(gnext := s.m.gsize);
    Open(s, ws, d, Sync1, Sync2, s.m);
    ScanUsers(s, ws, d, Sync1, id, s.m);
    ScanGlobals(s, ws, d, Sync1, id, m1);
    SameStates(ws, d, Sync1, Sync2, id, m2);
    Close(s, ws, d, Sync1, Sync2, id, {}, m2);
  }

  lemma IdleMark(s: System, ws: set<W>, d: W)
    requires Ready(s, ws, d, Sync2) && NothingToMark(s.m, ws)
    ensures Leads(s, Answers(ws, d, Sync2, Mark, s.h.round.id + 1, ws, s.m.(fin := Verdict(true))))
  {
    var s' := Answers(ws, d, Sync2, Mark, s.h.round.id + 1, ws, s.m);
    IdleRound(s, ws, d, Sync2, Mark, s.m);
    assert s'.h.workers.Keys == ws;
    Then(s, s', Check(s', ws, ws, ws), FinStart(d));
    Passes(s, s', d, ws, ws);
  }

  /** The heap after a collection that found nothing to mark, up to the verdict. */
  function Unmarked(m: Heap, d: W): Heap {
    m.(scanned := m.owner.Keys, gnext := m.gsize, enumerator := Some(d), fin := Verdict(true))
  }

  // ------------------------------------------------------------------ ASYNC round

  /** Objects that have been reclaimed or made ready for the next collection. */
  function Sweep(m: Heap, done: set<Obj>): Heap {
    var dead := set x | x in done && White(m, x);
    m.(home := m.home - dead, size := m.size - dead,
       fld := (map q | q in m.fld && q.o !in dead :: m.fld[q]),
       target := m.target + done - dead, marked := m.marked - done, renewed := m.renewed + done - dead)
  }

  /** Nothing has been swept yet, and every object is some worker's. */
  ghost predicate Sweepable(m: Heap, ws: set<W>) {
    && m.grey == map[] && m.renewed == {} && m.marked <= m.target
    && (forall o :: o in m.home ==> m.home[o] in ws)
  }

  lemma SweepNone(m: Heap)
    requires m.renewed == {}
    ensures Sweep(m, {}) == m
  {
    assert Sweep(m, {}).home == m.home && Sweep(m, {}).size == m.size && Sweep(m, {}).fld == m.fld;
    assert Sweep(m, {}).target == m.target && Sweep(m, {}).renewed == m.renewed && Sweep(m, {}).marked == m.marked;
  }

  lemma SweepFree(m: Heap, done: set<Obj>, o: Obj)
    requires m.grey == map[] && m.renewed == {} && o in m.home && o !in done && White(m, o)
    ensures White(Sweep(m, done), o) && Freed(Sweep(m, done), o) == Sweep(m, done + {o})
  {
    var a, b := Freed(Sweep(m, done), o), Sweep(m, done + {o});
    assert a.home == b.home && a.size == b.size && a.fld == b.fld;
    assert a.target == b.target && a.renewed == b.renewed && a.marked == b.marked;
  }

  lemma SweepKeep(m: Heap, done: set<Obj>, o: Obj)
    requires m.grey == map[] && m.renewed == {} && o in m.home && o !in done && !White(m, o)
    ensures var n := Sweep(m, done);
            && !White(n, o)
            && n.(target := n.target + {o}, marked := n.marked - {o}, renewed := n.renewed + {o}) == Sweep(m, done + {o})
  {
    var n, b := Sweep(m, done), Sweep(m, done + {o});
    assert n.home == b.home && n.size == b.size && n.fld == b.fld;
    assert n.target + {o} == b.target && n.renewed + {o} == b.renewed && n.marked - {o} == b.marked;
  }

  lemma SweepOne(ws: set<W>, d: W, k: Phase, id: nat, m: Heap, done: set<Obj>, o: Obj)
    requires Sweepable(m, ws) && o in m.home && o !in done && d in ws
    ensures NextSystem(Accepts(ws, d, k, Async, id, ws, Sweep(m, done)),
                       Accepts(ws, d, k, Async, id, ws, Sweep(m, done + {o})), Reset(m.home[o], o))
  {
    if White(m, o) { SweepFree(m, done, o); } else { SweepKeep(m, done, o); }
  }

  lemma {:induction false} SweepAll(s: System, ws: set<W>, d: W, k: Phase, id: nat, m: Heap, done: set<Obj>)
    requires Sweepable(m, ws) && d in ws && done <= m.home.Keys
    requires Leads(s, Accepts(ws, d, k, Async, id, ws, Sweep(m, done)))
    ensures Leads(s, Accepts(ws, d, k, Async, id, ws, Sweep(m, m.home.Keys)))
    decreases m.home.Keys - done
  {
    hide Leads, NextSystem, Accepts, Sweep;
    if m.home.Keys - done != {} {
      var o :| o in m.home.Keys - done;
      SweepOne(ws, d, k, id, m, done, o);
      Then(s, Accepts(ws, d, k, Async, id, ws, Sweep(m, done)), Accepts(ws, d, k, Async, id, ws, Sweep(m, done + {o})),
           Reset(m.home[o], o));
      SweepAll(s, ws, d, k, id, m, done + {o});
    } else {
      NoneLeft(done, m.home.Keys);
    }
  }

  /** The collection is over: all workers run ML code again. */
  function Ended(ws: set<W>, id: nat, m: Heap): System {
    System(State(map w | w in ws :: On(Async), map w | w in ws :: InML, Async, 0, false,
                 Round(id, Async, Mark, ws, ws, ws, true, true, false), None), m)
  }

  lemma IdleAsync(s: System, ws: set<W>, d: W)
    requires Ready(s, ws, d, Mark) && s.m.fin == Verdict(true) && Sweepable(s.m.(renewed := {}), ws)
    ensures var m := s.m.(fin := Idle, renewed := {}); Leads(s, Ended(ws, s.h.round.id + 1, Sweep(m, m.home.Keys)))
  {
    hide Sweep, Leads, Answers, Accepts, Ended, Ready, ActionDone, NextSystem;
    var id, m := s.h.round.id + 1, s.m.(fin := Idle, renewed := {});
    var m' := Sweep(m, m.home.Keys);
    SweptDone(m, ws);
    ReadySize(s, ws, d, Mark);
    Open(s, ws, d, Mark, Async, m);
    SweepNone(m);
    SweepAll(s, ws, d, Mark, id, m, {});
    SameStates(ws, d, Mark, Async, id, m');
    Close(s, ws, d, Mark, Async, id, {}, m');
    EndAsync(ws, d, id, m');
    Then(s, Answers(ws, d, Mark, Async, id, ws, m'), Ended(ws, id, m'), Shake(EndGc(d)));
  }

  lemma SweptDone(m: Heap, ws: set<W>)
    requires Sweepable(m, ws)
    ensures forall w :: w in ws ==> ActionDone(Sweep(m, m.home.Keys), Async, w)
  {
  }

  lemma ReadySize(s: System, ws: set<W>, d: W, k: Phase)
    requires Ready(s, ws, d, k)
    ensures d in ws && |ws| <= MAX_WORKERS
  {
  }

  lemma EndAsync(ws: set<W>, d: W, id: nat, m: Heap)
    requires d in ws
    ensures NextSystem(Answers(ws, d, Mark, Async, id, ws, m), Ended(ws, id, m), Shake(EndGc(d)))
  {
    assert Ended(ws, id, m).h.pc == Answers(ws, d, Mark, Async, id, ws, m).h.pc[d := InML];
  }

  /** If every root is marked already the collector never looks behind the roots: it
      can finish marking at once, whatever the roots point to ... */
  lemma IdleCollection(s: System, ws: set<W>, d: W)
    requires Ready(s, ws, d, Async) && NothingToMark(s.m, ws)
    ensures Leads(s, Answers(ws, d, Sync2, Mark, s.h.round.id + 3, ws, Unmarked(s.m, d)))
  {
    hide Leads, NextSystem;
    var id, m := s.h.round.id, s.m;
    var m1 := m.(scanned := {}, gnext := 0, enumerator := Some(d));
    var m2 := m1.(scanned := m.owner.Keys, gnext := m.gsize);
    var s1 := Answers(ws, d, Async, Sync1, id + 1, ws, m1);
    var s2 := Answers(ws, d, Sync1, Sync2, id + 2, ws, m2);
    var s3 := Answers(ws, d, Sync2, Mark, id + 3, ws, Unmarked(m, d));
    IdleRound(s, ws, d, Async, Sync1, m.(scanned := {}, gnext := 0, enumerator := None));
    SameStates(ws, d, Async, Sync1, id + 1, m1);
    IdleSync2(s1, ws, d);
    LeadsTrans(s, s1, s2);
    SameStates(ws, d, Sync1, Sync2, id + 2, m2);
    IdleMark(s2, ws, d);
    LeadsTrans(s, s2, s3);
  }

  /** ... and then reclaims everything without a mark, and is over. */
  lemma WholeCollection(s: System, ws: set<W>, d: W)
    requires Ready(s, ws, d, Async) && NothingToMark(s.m, ws) && Sweepable(s.m.(renewed := {}), ws)
    ensures var m := Unmarked(s.m, d).(fin := Idle, renewed := {});
            Leads(s, Ended(ws, s.h.round.id + 4, Sweep(m, m.home.Keys)))
  {
    hide Sweep, Leads, Ended, Ready, NextSystem, NothingToMark;
    ReadySize(s, ws, d, Async);
    var id := s.h.round.id + 3;
    var s3 := Answers(ws, d, Sync2, Mark, id, ws, Unmarked(s.m, d));
    IdleCollection(s, ws, d);
    SameStates(ws, d, Sync2, Mark, id, Unmarked(s.m, d));
    IdleAsync(s3, ws, d);
    var m := Unmarked(s.m, d).(fin := Idle, renewed := {});
    LeadsTrans(s, s3, Ended(ws, id + 1, Sweep(m, m.home.Keys)));
  }
}
