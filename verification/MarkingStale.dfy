/** A concrete run in which a reachable object is freed.

    Worker 0 collects alone; workers 1 and 2 join while it is marking.  In the
    ASYNC handshake worker 1 is flipped first and resets its objects 7 and 8
    (8 points to 7, and 8 is a root of a user of worker 1).  Worker 2 has not
    been flipped yet: its write barrier still runs and sets the collect bit of
    object 8 again.  The next collection takes 8 for visited, never looks at its
    slot, and frees 7. */
module MarkingStale {
  import opened Phases
  import opened Handshake
  import opened Marking
  import opened MarkingInv
  import opened MarkingSafety
  import opened MarkingRounds

  function M0(): Heap {
    Heap(map[], map[], map[], {}, {}, map[],
         map[], map[], {}, map[], 1, 0, None, {}, Idle)
  }

  function M1(): Heap {
    Heap(map[], map[], map[], {}, {}, map[],
         map[], map[], {}, map[], 1, 1, Some(0), {}, Verdict(true))
  }

  function M2(): Heap {
    Heap(map[], map[], map[], {}, {}, map[],
         map[1 := 1], map[1 := {}], {1}, map[], 1, 1, Some(0), {}, Verdict(true))
  }

  function M3(): Heap {
    Heap(map[], map[], map[], {}, {}, map[],
         map[1 := 1, 2 := 2], map[1 := {}, 2 := {}], {1, 2}, map[], 1, 1, Some(0), {}, Verdict(true))
  }

  function M4(): Heap {
    Heap(map[7 := 1], map[7 := 0], map[], {}, {}, map[],
         map[1 := 1, 2 := 2], map[1 := {7}, 2 := {}], {1, 2}, map[], 1, 1, Some(0), {}, Verdict(true))
  }

  function M5(): Heap {
    Heap(map[7 := 1, 8 := 1], map[7 := 0, 8 := 1], map[Slot(8, 0) := 7], {}, {}, map[],
         map[1 := 1, 2 := 2], map[1 := {7, 8}, 2 := {}], {1, 2}, map[], 1, 1, Some(0), {}, Verdict(true))
  }

  function M6(): Heap {
    Heap(map[7 := 1, 8 := 1], map[7 := 0, 8 := 1], map[Slot(8, 0) := 7], {}, {}, map[],
         map[1 := 1, 2 := 2], map[1 := {8}, 2 := {}], {1, 2}, map[], 1, 1, Some(0), {}, Verdict(true))
  }

  function M7(): Heap {
    Heap(map[7 := 1, 8 := 1], map[7 := 0, 8 := 1], map[Slot(8, 0) := 7], {}, {}, map[],
         map[1 := 1, 2 := 2], map[1 := {8}, 2 := {}], {1, 2}, map[0 := 8], 1, 1, Some(0), {}, Verdict(true))
  }

  function M8(): Heap {
    Heap(map[7 := 1, 8 := 1], map[7 := 0, 8 := 1], map[Slot(8, 0) := 7], {}, {}, map[],
         map[1 := 1, 2 := 2], map[1 := {8}, 2 := {}], {1, 2}, map[0 := 8], 1, 1, Some(0), {}, Idle)
  }

  function M9(): Heap {
    Heap(map[7 := 1, 8 := 1], map[7 := 0, 8 := 1], map[Slot(8, 0) := 7], {7}, {}, map[],
         map[1 := 1, 2 := 2], map[1 := {8}, 2 := {}], {1, 2}, map[0 := 8], 1, 1, Some(0), {7}, Idle)
  }

  function M10(): Heap {
    Heap(map[7 := 1, 8 := 1], map[7 := 0, 8 := 1], map[Slot(8, 0) := 7], {7, 8}, {}, map[],
         map[1 := 1, 2 := 2], map[1 := {8}, 2 := {}], {1, 2}, map[0 := 8], 1, 1, Some(0), {7, 8}, Idle)
  }

  function M11(): Heap {
    Heap(map[7 := 1, 8 := 1], map[7 := 0, 8 := 1], map[Slot(8, 0) := 7], {7, 8}, {8}, map[8 := Entry(2, false, 0)],
         map[1 := 1, 2 := 2], map[1 := {8}, 2 := {}], {1, 2}, map[], 1, 1, Some(0), {7, 8}, Idle)
  }

  function M12(): Heap {
    Heap(map[7 := 1, 8 := 1], map[7 := 0, 8 := 1], map[Slot(8, 0) := 7], {7, 8}, {8}, map[],
         map[1 := 1, 2 := 2], map[1 := {8}, 2 := {}], {1, 2}, map[], 1, 1, Some(0), {7, 8}, Idle)
  }

  function M13(): Heap {
    Heap(map[7 := 1, 8 := 1], map[7 := 0, 8 := 1], map[Slot(8, 0) := 7], {7, 8}, {8}, map[],
         map[1 := 1, 2 := 2], map[1 := {8}, 2 := {}], {1, 2}, map[], 1, 1, Some(2), {7, 8}, Verdict(true))
  }

  function M14(): Heap {
    Heap(map[7 := 1, 8 := 1], map[7 := 0, 8 := 1], map[Slot(8, 0) := 7], {7, 8}, {8}, map[],
         map[1 := 1, 2 := 2], map[1 := {8}, 2 := {}], {1, 2}, map[], 1, 1, Some(2), {}, Idle)
  }

  function M15(): Heap {
    Heap(map[8 := 1], map[8 := 1], map[Slot(8, 0) := 7], {8}, {8}, map[],
         map[1 := 1, 2 := 2], map[1 := {8}, 2 := {}], {1, 2}, map[], 1, 1, Some(2), {}, Idle)
  }

  function S0(): System {
    System(State(map[], map[], Async, 0, false,
          Round(0, Async, Mark, {}, {}, {}, true, true, false), None), M0())
  }

  function S1(): System {
    System(State(map[0 := On(Async)], map[0 := InML], Async, 0, false,
          Round(0, Async, Mark, {}, {}, {}, true, true, false), None), M0())
  }

  function S2(): System {
    System(State(map[0 := On(Async)], map[0 := Start(0, Greedy)], Async, 0, true,
          Round(0, Async, Mark, {}, {}, {}, true, true, false), Some(0)), M0())
  }

  function S3(): System {
    System(State(map[0 := On(Mark)], map[0 := Last(0, Greedy)], Mark, 0, true,
          Round(3, Mark, Sync2, {0}, {0}, {0}, true, true, false), Some(0)), M1())
  }

  function S4(): System {
    System(State(map[0 := On(Mark), 1 := On(Mark)], map[0 := Last(0, Greedy), 1 := InML], Mark, 0, true,
          Round(3, Mark, Sync2, {0}, {0}, {0}, true, true, false), Some(0)), M1())
  }

  function S5(): System {
    System(State(map[0 := On(Mark), 1 := On(Mark), 2 := On(Mark)], map[0 := Last(0, Greedy), 1 := InML, 2 := InML], Mark, 0, true,
          Round(3, Mark, Sync2, {0}, {0}, {0}, true, true, false), Some(0)), M1())
  }

  function S6(): System {
    System(State(map[0 := On(Mark), 1 := On(Mark), 2 := On(Mark)], map[0 := Last(0, Greedy), 1 := InML, 2 := InML], Mark, 0, true,
          Round(3, Mark, Sync2, {0}, {0}, {0}, true, true, false), Some(0)), M2())
  }

  function S7(): System {
    System(State(map[0 := On(Mark), 1 := On(Mark), 2 := On(Mark)], map[0 := Last(0, Greedy), 1 := InML, 2 := InML], Mark, 0, true,
          Round(3, Mark, Sync2, {0}, {0}, {0}, true, true, false), Some(0)), M3())
  }

  function S8(): System {
    System(State(map[0 := On(Mark), 1 := On(Mark), 2 := On(Mark)], map[0 := Last(0, Greedy), 1 := InML, 2 := InML], Mark, 0, true,
          Round(3, Mark, Sync2, {0}, {0}, {0}, true, true, false), Some(0)), M4())
  }

  function S9(): System {
    System(State(map[0 := On(Mark), 1 := On(Mark), 2 := On(Mark)], map[0 := Last(0, Greedy), 1 := InML, 2 := InML], Mark, 0, true,
          Round(3, Mark, Sync2, {0}, {0}, {0}, true, true, false), Some(0)), M5())
  }

  function S10(): System {
    System(State(map[0 := On(Mark), 1 := On(Mark), 2 := On(Mark)], map[0 := Last(0, Greedy), 1 := InML, 2 := InML], Mark, 0, true,
          Round(3, Mark, Sync2, {0}, {0}, {0}, true, true, false), Some(0)), M6())
  }

  function S11(): System {
    System(State(map[0 := On(Mark), 1 := On(Mark), 2 := On(Mark)], map[0 := Last(0, Greedy), 1 := InML, 2 := InML], Mark, 0, true,
          Round(3, Mark, Sync2, {0}, {0}, {0}, true, true, false), Some(0)), M7())
  }

  function S12(): System {
    System(State(map[0 := On(Mark), 1 := On(Mark), 2 := On(Mark)], map[0 := Flipping(0, Greedy, {0, 1, 2}, 0), 1 := InML, 2 := InML], Async, 0, true,
          Round(4, Async, Mark, {0, 1, 2}, {}, {}, false, false, false), Some(0)), M8())
  }

  function S13(): System {
    System(State(map[0 := On(Mark), 1 := On(PreAsync), 2 := On(Mark)], map[0 := Flipping(0, Greedy, {0, 2}, 1), 1 := InML, 2 := InML], Async, 0, true,
          Round(4, Async, Mark, {0, 1, 2}, {1}, {}, false, false, false), Some(0)), M8())
  }

  function S14(): System {
    System(State(map[0 := On(Mark), 1 := On(Async), 2 := On(Mark)], map[0 := Flipping(0, Greedy, {0, 2}, 1), 1 := Act(1, Greedy), 2 := InML], Async, 0, true,
          Round(4, Async, Mark, {0, 1, 2}, {1}, {}, false, false, false), Some(0)), M8())
  }

  function S15(): System {
    System(State(map[0 := On(Mark), 1 := On(Async), 2 := On(Mark)], map[0 := Flipping(0, Greedy, {0, 2}, 1), 1 := Act(1, Greedy), 2 := InML], Async, 0, true,
          Round(4, Async, Mark, {0, 1, 2}, {1}, {}, false, false, false), Some(0)), M9())
  }

  function S16(): System {
    System(State(map[0 := On(Mark), 1 := On(Async), 2 := On(Mark)], map[0 := Flipping(0, Greedy, {0, 2}, 1), 1 := Act(1, Greedy), 2 := InML], Async, 0, true,
          Round(4, Async, Mark, {0, 1, 2}, {1}, {}, false, false, false), Some(0)), M10())
  }

  function S17(): System {
    System(State(map[0 := On(Mark), 1 := On(Async), 2 := On(Mark)], map[0 := Flipping(0, Greedy, {0, 2}, 1), 1 := InML, 2 := InML], Async, WORD - 1, true,
          Round(4, Async, Mark, {0, 1, 2}, {1}, {1}, false, false, false), Some(0)), M10())
  }

  function S18(): System {
    System(State(map[0 := On(Mark), 1 := On(Async), 2 := On(Mark)], map[0 := Flipping(0, Greedy, {0, 2}, 1), 1 := InML, 2 := InML], Async, WORD - 1, true,
          Round(4, Async, Mark, {0, 1, 2}, {1}, {1}, false, false, false), Some(0)), M11())
  }

  function S19(): System {
    System(State(map[0 := On(Mark), 1 := On(Async), 2 := On(PreAsync)], map[0 := Flipping(0, Greedy, {0}, 2), 1 := InML, 2 := InML], Async, WORD - 1, true,
          Round(4, Async, Mark, {0, 1, 2}, {1, 2}, {1}, false, false, false), Some(0)), M11())
  }

  function S20(): System {
    System(State(map[0 := On(PreAsync), 1 := On(Async), 2 := On(PreAsync)], map[0 := Flipping(0, Greedy, {}, 3), 1 := InML, 2 := InML], Async, WORD - 1, true,
          Round(4, Async, Mark, {0, 1, 2}, {0, 1, 2}, {1}, false, false, false), Some(0)), M11())
  }

  function S21(): System {
    System(State(map[0 := On(PreAsync), 1 := On(Async), 2 := On(PreAsync)], map[0 := Self(0), 1 := InML, 2 := InML], Async, 2, true,
          Round(4, Async, Mark, {0, 1, 2}, {0, 1, 2}, {1}, true, false, false), None), M11())
  }

  function S22(): System {
    System(State(map[0 := On(Async), 1 := On(Async), 2 := On(PreAsync)], map[0 := Act(0, Greedy), 1 := InML, 2 := InML], Async, 2, true,
          Round(4, Async, Mark, {0, 1, 2}, {0, 1, 2}, {1}, true, false, false), None), M11())
  }

  function S23(): System {
    System(State(map[0 := On(Async), 1 := On(Async), 2 := On(PreAsync)], map[0 := InML, 1 := InML, 2 := InML], Async, 1, true,
          Round(4, Async, Mark, {0, 1, 2}, {0, 1, 2}, {0, 1}, true, false, false), None), M11())
  }

  function S24(): System {
    System(State(map[0 := On(Async), 1 := On(Async), 2 := On(Async)], map[0 := InML, 1 := InML, 2 := Act(2, Greedy)], Async, 1, true,
          Round(4, Async, Mark, {0, 1, 2}, {0, 1, 2}, {0, 1}, true, false, false), None), M11())
  }

  function S25(): System {
    System(State(map[0 := On(Async), 1 := On(Async), 2 := On(Async)], map[0 := InML, 1 := InML, 2 := Act(2, Greedy)], Async, 1, true,
          Round(4, Async, Mark, {0, 1, 2}, {0, 1, 2}, {0, 1}, true, false, false), None), M12())
  }

  function S26(): System {
    System(State(map[0 := On(Async), 1 := On(Async), 2 := On(Async)], map[0 := InML, 1 := InML, 2 := Last(2, Greedy)], Async, 0, true,
          Round(4, Async, Mark, {0, 1, 2}, {0, 1, 2}, {0, 1, 2}, true, true, false), Some(2)), M12())
  }

  function S27(): System {
    System(State(map[0 := On(Async), 1 := On(Async), 2 := On(Async)], map[0 := InML, 1 := InML, 2 := InML], Async, 0, false,
          Round(4, Async, Mark, {0, 1, 2}, {0, 1, 2}, {0, 1, 2}, true, true, false), None), M12())
  }

  function S28(): System {
    System(State(map[0 := On(Async), 1 := On(Async), 2 := On(Async)], map[0 := InML, 1 := InML, 2 := Start(2, Greedy)], Async, 0, true,
          Round(4, Async, Mark, {0, 1, 2}, {0, 1, 2}, {0, 1, 2}, true, true, false), Some(2)), M12())
  }

  function S29(): System {
    System(State(map[0 := On(Mark), 1 := On(Mark), 2 := On(Mark)], map[0 := InML, 1 := InML, 2 := Last(2, Greedy)], Mark, 0, true,
          Round(7, Mark, Sync2, {0, 1, 2}, {0, 1, 2}, {0, 1, 2}, true, true, false), Some(2)), M13())
  }

  function S30(): System {
    System(State(map[0 := On(Mark), 1 := On(Mark), 2 := On(Mark)], map[0 := InML, 1 := InML, 2 := Flipping(2, Greedy, {0, 1, 2}, 0)], Async, 0, true,
          Round(8, Async, Mark, {0, 1, 2}, {}, {}, false, false, false), Some(2)), M14())
  }

  function S31(): System {
    System(State(map[0 := On(Mark), 1 := On(PreAsync), 2 := On(Mark)], map[0 := InML, 1 := InML, 2 := Flipping(2, Greedy, {0, 2}, 1)], Async, 0, true,
          Round(8, Async, Mark, {0, 1, 2}, {1}, {}, false, false, false), Some(2)), M14())
  }

  function S32(): System {
    System(State(map[0 := On(Mark), 1 := On(Async), 2 := On(Mark)], map[0 := InML, 1 := Act(1, Greedy), 2 := Flipping(2, Greedy, {0, 2}, 1)], Async, 0, true,
          Round(8, Async, Mark, {0, 1, 2}, {1}, {}, false, false, false), Some(2)), M14())
  }

  function S33(): System {
    System(State(map[0 := On(Mark), 1 := On(Async), 2 := On(Mark)], map[0 := InML, 1 := Act(1, Greedy), 2 := Flipping(2, Greedy, {0, 2}, 1)], Async, 0, true,
          Round(8, Async, Mark, {0, 1, 2}, {1}, {}, false, false, false), Some(2)), M15())
  }

  lemma Initialised(fld: map<Slot, Obj>, x: Obj, init: map<nat, Obj>)
    ensures init == map[] ==> fld + Slots(x, init) == fld
    ensures init == map[0 := 7] ==> fld + Slots(x, init) == fld[Slot(x, 0) := 7]
  {
    assert init == map[0 := 7] ==> Slots(x, init).Keys == {Slot(x, 0)};
  }

  lemma Made(m: Heap, m': Heap, x: Obj, n: nat, init: map<nat, Obj>)
    requires 1 in m.roots
    requires m'.home == m.home[x := 1] && m'.size == m.size[x := n] && m'.roots == m.roots[1 := m.roots[1] + {x}]
    requires m'.fld == m.fld + Slots(x, init)
    requires m' == m.(home := m'.home, size := m'.size, fld := m'.fld, roots := m'.roots)
    ensures Allocated(m, Mark, 1, 1, x, n, init) == m'
  {
  }

  lemma Makes4()
    ensures Allocated(M3(), Mark, 1, 1, 7, 0, map[]) == M4()
  {
    var m, m' := M3(), M4();
    var init: map<nat, Obj> := map[];
    var roots := m.roots[1] + {7};
    assert roots == {7};
    assert m.roots[1 := roots] == m'.roots;
    assert m.home[7 := 1] == m'.home && m.size[7 := 0] == m'.size;
    Initialised(m.fld, 7, init);
    Made(m, m', 7, 0, init);
  }

  lemma Makes5()
    ensures Allocated(M4(), Mark, 1, 1, 8, 1, map[0 := 7]) == M5()
  {
    var m, m' := M4(), M5();
    var init: map<nat, Obj> := map[0 := 7];
    var roots := m.roots[1] + {8};
    assert roots == {7, 8};
    assert m.roots[1 := roots] == m'.roots;
    assert m.home[8 := 1] == m'.home && m.size[8 := 1] == m'.size;
    Initialised(m.fld, 8, init);
    Made(m, m', 8, 1, init);
  }

  lemma Frees()
    ensures Freed(M14(), 7) == M15() && White(M14(), 7)
  {
    var m, m' := M14(), M15();
    var got := Freed(m, 7);
    assert got.home == m'.home && got.size == m'.size;
    assert got.fld == m'.fld;
    assert got.target == m'.target && got.grey == m'.grey;
  }

  lemma Leg0()
    ensures InitSystem(S0()) && Leads(S0(), S0())
  {
    Stay(S0());
  }

  lemma Leg1()
    ensures Leads(S0(), S1())
  {
    Leg0();
    var s, s' := S0(), S1();
    assert NextSystem(s, s', Shake(Register(0))) by {
      assert s'.h.workers == s.h.workers[0 := On(Async)];
      assert s'.h.pc == s.h.pc[0 := InML];
      assert s.h.workers.Keys == {}; }
    Then(S0(), s, s', Shake(Register(0)));
  }

  lemma Leg2()
    ensures Leads(S0(), S2())
  {
    Leg1();
    var s, s' := S1(), S2();
    assert NextSystem(s, s', Shake(StartGc(0, Greedy))) by {
      assert s'.h.pc == s.h.pc[0 := Start(0, Greedy)];
      assert s.h.workers.Keys == {0}; }
    Then(S0(), s, s', Shake(StartGc(0, Greedy)));
  }

  lemma Ready2()
    ensures Ready(S2(), {0}, 0, Async) && NothingToMark(S2().m, {0})
  {
    var s, ws := S2(), {0};
    assert s.h.workers == map w | w in ws :: On(Async);
    assert s.h.pc == map w | w in ws :: if w == 0 then Start(0, Greedy) else InML;
  }

  lemma Over3()
    ensures Answers({0}, 0, Sync2, Mark, S2().h.round.id + 3, {0}, Unmarked(S2().m, 0)) == S3()
  {
    var s, s', ws := S2(), S3(), {0};
    assert s'.h.workers == map w | w in ws :: On(Mark);
    assert s'.h.pc == map w | w in ws :: if w == 0 then Last(0, Greedy) else InML;
    assert s.m.owner.Keys == s'.m.scanned;
    assert Answers(ws, 0, Sync2, Mark, s.h.round.id + 3, ws, Unmarked(s.m, 0)).h.pc == s'.h.pc;
  }

  lemma Leg3()
    ensures Leads(S0(), S3())
  {
    Leg2();
    Ready2();
    Over3();
    IdleCollection(S2(), {0}, 0);
    LeadsTrans(S0(), S2(), S3());
  }

  lemma Leg4()
    ensures Leads(S0(), S4())
  {
    Leg3();
    var s, s' := S3(), S4();
    assert NextSystem(s, s', Shake(Register(1))) by {
      assert s'.h.workers == s.h.workers[1 := On(Mark)];
      assert s'.h.pc == s.h.pc[1 := InML];
      assert s.h.workers.Keys == {0}; }
    Then(S0(), s, s', Shake(Register(1)));
  }

  lemma Leg5()
    ensures Leads(S0(), S5())
  {
    Leg4();
    var s, s' := S4(), S5();
    assert NextSystem(s, s', Shake(Register(2))) by {
      assert s'.h.workers == s.h.workers[2 := On(Mark)];
      assert s'.h.pc == s.h.pc[2 := InML];
      assert s.h.workers.Keys == {0, 1}; }
    Then(S0(), s, s', Shake(Register(2)));
  }

  lemma Leg6()
    ensures Leads(S0(), S6())
  {
    Leg5();
    var s, s' := S5(), S6();
    assert NextSystem(s, s', NewUser(1, 1)) by { assert s.h.workers.Keys == {0, 1, 2}; }
    Then(S0(), s, s', NewUser(1, 1));
  }

  lemma Leg7()
    ensures Leads(S0(), S7())
  {
    Leg6();
    var s, s' := S6(), S7();
    assert NextSystem(s, s', NewUser(2, 2)) by { assert s.h.workers.Keys == {0, 1, 2}; }
    Then(S0(), s, s', NewUser(2, 2));
  }

  lemma Leg8()
    ensures Leads(S0(), S8())
  {
    Leg7();
    var s, s' := S7(), S8();
    assert NextSystem(s, s', Alloc(1, 1, 7, 0, map[])) by { Makes4();
      assert s.h.workers.Keys == {0, 1, 2}; }
    Then(S0(), s, s', Alloc(1, 1, 7, 0, map[]));
  }

  lemma Leg9()
    ensures Leads(S0(), S9())
  {
    Leg8();
    var s, s' := S8(), S9();
    assert NextSystem(s, s', Alloc(1, 1, 8, 1, map[0 := 7])) by { Makes5();
      assert s.h.workers.Keys == {0, 1, 2}; }
    Then(S0(), s, s', Alloc(1, 1, 8, 1, map[0 := 7]));
  }

  lemma Leg10()
    ensures Leads(S0(), S10())
  {
    Leg9();
    var s, s' := S9(), S10();
    assert NextSystem(s, s', Drop(1, 1, {8})) by { assert s.h.workers.Keys == {0, 1, 2}; }
    Then(S0(), s, s', Drop(1, 1, {8}));
  }

  lemma Leg11()
    ensures Leads(S0(), S11())
  {
    Leg10();
    var s, s' := S10(), S11();
    assert NextSystem(s, s', WriteGlobal(1, 1, 0, Some(8))) by {
      assert s'.m.glob == Put(s.m.glob, 0, Some(8));
      assert s.h.workers.Keys == {0, 1, 2}; }
    Then(S0(), s, s', WriteGlobal(1, 1, 0, Some(8)));
  }

  lemma Leg12()
    ensures Leads(S0(), S12())
  {
    Leg11();
    var s, s' := S11(), S12();
    assert NextSystem(s, s', Shake(Global(0, Async))) by {
      assert s'.h.pc == s.h.pc[0 := Flipping(0, Greedy, {0, 1, 2}, 0)];
      assert s.h.workers.Keys == {0, 1, 2}; }
    Then(S0(), s, s', Shake(Global(0, Async)));
  }

  lemma Leg13()
    ensures Leads(S0(), S13())
  {
    Leg12();
    var s, s' := S12(), S13();
    assert FlipOneStep(s.h, s'.h, 0, 1) by { FlipExact(Mark, Mark, PreAsync);
      assert s'.h.round.flipped == s.h.round.flipped + {1} && s'.h.pc[0].todo == s.h.pc[0].todo - {1};
      assert s'.h.workers == s.h.workers[1 := On(PreAsync)];
      assert s'.h.pc == s.h.pc[0 := Flipping(0, Greedy, {0, 2}, 1)];
      }
    assert NextSystem(s, s', Shake(FlipOne(0, 1)));
    Then(S0(), s, s', Shake(FlipOne(0, 1)));
  }

  lemma Leg14()
    ensures Leads(S0(), S14())
  {
    Leg13();
    var s, s' := S13(), S14();
    assert NextSystem(s, s', Shake(CheckAccept(1))) by {
      assert s'.h.workers == s.h.workers[1 := On(Async)];
      assert s'.h.pc == s.h.pc[1 := Act(1, Greedy)];
      assert s.h.workers.Keys == {0, 1, 2}; }
    Then(S0(), s, s', Shake(CheckAccept(1)));
  }

  lemma Leg15()
    ensures Leads(S0(), S15())
  {
    Leg14();
    var s, s' := S14(), S15();
    assert NextSystem(s, s', Reset(1, 7)) by { assert s.h.workers.Keys == {0, 1, 2}; }
    Then(S0(), s, s', Reset(1, 7));
  }

  lemma Leg16()
    ensures Leads(S0(), S16())
  {
    Leg15();
    var s, s' := S15(), S16();
    assert NextSystem(s, s', Reset(1, 8)) by { assert s.h.workers.Keys == {0, 1, 2}; }
    Then(S0(), s, s', Reset(1, 8));
  }

  lemma Leg17()
    ensures Leads(S0(), S17())
  {
    Leg16();
    var s, s' := S16(), S17();
    assert NextSystem(s, s', Shake(Respond(1))) by {
      assert s'.h.pc == s.h.pc[1 := InML];
      assert s'.h.round.resp == s.h.round.resp + {1};
      assert s.h.workers.Keys == {0, 1, 2}; }
    Then(S0(), s, s', Shake(Respond(1)));
  }

  lemma Leg18()
    ensures Leads(S0(), S18())
  {
    Leg17();
    var s, s' := S17(), S18();
    assert NextSystem(s, s', WriteGlobal(2, 2, 0, None)) by {
      assert s'.m.glob == Put(s.m.glob, 0, None);
      assert s'.m.grey == s.m.grey[8 := Entry(2, false, 0)];
      assert s.h.workers.Keys == {0, 1, 2}; }
    Then(S0(), s, s', WriteGlobal(2, 2, 0, None));
  }

  lemma Leg19()
    ensures Leads(S0(), S19())
  {
    Leg18();
    var s, s' := S18(), S19();
    assert FlipOneStep(s.h, s'.h, 0, 2) by { FlipExact(Mark, Mark, PreAsync);
      assert s'.h.round.flipped == s.h.round.flipped + {2} && s'.h.pc[0].todo == s.h.pc[0].todo - {2};
      assert s'.h.workers == s.h.workers[2 := On(PreAsync)];
      assert s'.h.pc == s.h.pc[0 := Flipping(0, Greedy, {0}, 2)];
      }
    assert NextSystem(s, s', Shake(FlipOne(0, 2)));
    Then(S0(), s, s', Shake(FlipOne(0, 2)));
  }

  lemma Leg20()
    ensures Leads(S0(), S20())
  {
    Leg19();
    var s, s' := S19(), S20();
    assert FlipOneStep(s.h, s'.h, 0, 0) by { FlipExact(Mark, Mark, PreAsync);
      assert s'.h.round.flipped == s.h.round.flipped + {0} && s'.h.pc[0].todo == s.h.pc[0].todo - {0};
      assert s'.h.workers == s.h.workers[0 := On(PreAsync)];
      assert s'.h.pc == s.h.pc[0 := Flipping(0, Greedy, {}, 3)];
      }
    assert NextSystem(s, s', Shake(FlipOne(0, 0)));
    Then(S0(), s, s', Shake(FlipOne(0, 0)));
  }

  lemma Leg21()
    ensures Leads(S0(), S21())
  {
    Leg20();
    var s, s' := S20(), S21();
    assert NextSystem(s, s', Shake(AddCount(0))) by {
      assert s'.h.pc == s.h.pc[0 := Self(0)];
      assert s.h.workers.Keys == {0, 1, 2}; }
    Then(S0(), s, s', Shake(AddCount(0)));
  }

  lemma Leg22()
    ensures Leads(S0(), S22())
  {
    Leg21();
    var s, s' := S21(), S22();
    assert NextSystem(s, s', Shake(SelfAccept(0))) by {
      assert s'.h.workers == s.h.workers[0 := On(Async)];
      assert s'.h.pc == s.h.pc[0 := Act(0, Greedy)];
      assert s.h.workers.Keys == {0, 1, 2}; }
    Then(S0(), s, s', Shake(SelfAccept(0)));
  }

  lemma Leg23()
    ensures Leads(S0(), S23())
  {
    Leg22();
    var s, s' := S22(), S23();
    assert NextSystem(s, s', Shake(Respond(0))) by {
      assert s'.h.pc == s.h.pc[0 := InML];
      assert s'.h.round.resp == s.h.round.resp + {0};
      assert s.h.workers.Keys == {0, 1, 2}; }
    Then(S0(), s, s', Shake(Respond(0)));
  }

  lemma Leg24()
    ensures Leads(S0(), S24())
  {
    Leg23();
    var s, s' := S23(), S24();
    assert NextSystem(s, s', Shake(CheckAccept(2))) by {
      assert s'.h.workers == s.h.workers[2 := On(Async)];
      assert s'.h.pc == s.h.pc[2 := Act(2, Greedy)];
      assert s.h.workers.Keys == {0, 1, 2}; }
    Then(S0(), s, s', Shake(CheckAccept(2)));
  }

  lemma Leg25()
    ensures Leads(S0(), S25())
  {
    Leg24();
    var s, s' := S24(), S25();
    assert NextSystem(s, s', ClearRemembered(2)) by {
      assert s'.m.grey == map[] && s.m.grey.Keys == {8};
      assert s.h.workers.Keys == {0, 1, 2}; }
    Then(S0(), s, s', ClearRemembered(2));
  }

  lemma Leg26()
    ensures Leads(S0(), S26())
  {
    Leg25();
    var s, s' := S25(), S26();
    assert NextSystem(s, s', Shake(Respond(2))) by {
      assert s'.h.pc == s.h.pc[2 := Last(2, Greedy)];
      assert s'.h.round.resp == s.h.round.resp + {2};
      assert s.h.workers.Keys == {0, 1, 2}; }
    Then(S0(), s, s', Shake(Respond(2)));
  }

  lemma Leg27()
    ensures Leads(S0(), S27())
  {
    Leg26();
    var s, s' := S26(), S27();
    assert NextSystem(s, s', Shake(EndGc(2))) by {
      assert s'.h.pc == s.h.pc[2 := InML];
      assert s.h.workers.Keys == {0, 1, 2}; }
    Then(S0(), s, s', Shake(EndGc(2)));
  }

  lemma Leg28()
    ensures Leads(S0(), S28())
  {
    Leg27();
    var s, s' := S27(), S28();
    assert NextSystem(s, s', Shake(StartGc(2, Greedy))) by {
      assert s'.h.pc == s.h.pc[2 := Start(2, Greedy)];
      assert s.h.workers.Keys == {0, 1, 2}; }
    Then(S0(), s, s', Shake(StartGc(2, Greedy)));
  }

  lemma Ready28()
    ensures Ready(S28(), {0, 1, 2}, 2, Async) && NothingToMark(S28().m, {0, 1, 2})
  {
    var s, ws := S28(), {0, 1, 2};
    assert s.h.workers == map w | w in ws :: On(Async);
    assert s.h.pc == map w | w in ws :: if w == 2 then Start(2, Greedy) else InML;
  }

  lemma Over29()
    ensures Answers({0, 1, 2}, 2, Sync2, Mark, S28().h.round.id + 3, {0, 1, 2}, Unmarked(S28().m, 2)) == S29()
  {
    var s, s', ws := S28(), S29(), {0, 1, 2};
    assert s'.h.workers == map w | w in ws :: On(Mark);
    assert s'.h.pc == map w | w in ws :: if w == 2 then Last(2, Greedy) else InML;
    assert s.m.owner.Keys == s'.m.scanned;
    assert Answers(ws, 2, Sync2, Mark, s.h.round.id + 3, ws, Unmarked(s.m, 2)).h.pc == s'.h.pc;
  }

  lemma Leg29()
    ensures Leads(S0(), S29())
  {
    Leg28();
    Ready28();
    Over29();
    IdleCollection(S28(), {0, 1, 2}, 2);
    LeadsTrans(S0(), S28(), S29());
  }

  lemma Leg30()
    ensures Leads(S0(), S30())
  {
    Leg29();
    var s, s' := S29(), S30();
    assert NextSystem(s, s', Shake(Global(2, Async))) by {
      assert s'.h.pc == s.h.pc[2 := Flipping(2, Greedy, {0, 1, 2}, 0)];
      assert s.h.workers.Keys == {0, 1, 2}; }
    Then(S0(), s, s', Shake(Global(2, Async)));
  }

  lemma Leg31()
    ensures Leads(S0(), S31())
  {
    Leg30();
    var s, s' := S30(), S31();
    assert FlipOneStep(s.h, s'.h, 2, 1) by { FlipExact(Mark, Mark, PreAsync);
      assert s'.h.round.flipped == s.h.round.flipped + {1} && s'.h.pc[2].todo == s.h.pc[2].todo - {1};
      assert s'.h.workers == s.h.workers[1 := On(PreAsync)];
      assert s'.h.pc == s.h.pc[2 := Flipping(2, Greedy, {0, 2}, 1)];
      }
    assert NextSystem(s, s', Shake(FlipOne(2, 1)));
    Then(S0(), s, s', Shake(FlipOne(2, 1)));
  }

  lemma Leg32()
    ensures Leads(S0(), S32())
  {
    Leg31();
    var s, s' := S31(), S32();
    assert NextSystem(s, s', Shake(CheckAccept(1))) by {
      assert s'.h.workers == s.h.workers[1 := On(Async)];
      assert s'.h.pc == s.h.pc[1 := Act(1, Greedy)];
      assert s.h.workers.Keys == {0, 1, 2}; }
    Then(S0(), s, s', Shake(CheckAccept(1)));
  }

  lemma Leg33()
    ensures Leads(S0(), S33())
  {
    Leg32();
    var s, s' := S32(), S33();
    assert NextSystem(s, s', Reset(1, 7)) by { Frees();
      assert s.h.workers.Keys == {0, 1, 2}; }
    Then(S0(), s, s', Reset(1, 7));
  }

  /** The step that breaks the condition of the safety theorems. */
  lemma DirtyStep()
    ensures Dirty(S17(), WriteGlobal(2, 2, 0, None)) && NextSystem(S17(), S18(), WriteGlobal(2, 2, 0, None))
  {
    var s, s' := S17(), S18();
    assert NextSystem(s, s', WriteGlobal(2, 2, 0, None)) by {
      assert s'.m.glob == Put(s.m.glob, 0, None);
      assert s'.m.grey == s.m.grey[8 := Entry(2, false, 0)];
     }
  }

  /** Marking is not safe without the condition: the check has succeeded while the
      reachable object 7 is a target without a collect bit ... */
  lemma MarkingUnsafe()
    ensures InitSystem(S0()) && Leads(S0(), S29()) && S29().m.fin == Verdict(true)
    ensures Reach(S29().m, 7, 1) && White(S29().m, 7)
  {
    Leg0();
    Leg29();
    OneLink(S29().m);
  }

  /** ... and reclamation leaves a dangling pointer. */
  lemma DanglingPointer()
    ensures InitSystem(S0()) && Leads(S0(), S33())
    ensures Reach(S33().m, 7, 1) && 7 !in S33().m.home
  {
    Leg0();
    Leg33();
    OneLink(S33().m);
  }

  lemma OneLink(m: Heap)
    requires 1 in m.roots && 8 in m.roots[1] && Slot(8, 0) in m.fld && m.fld[Slot(8, 0)] == 7
    ensures Reach(m, 7, 1)
  {
    assert Reach(m, 8, 0);
    assert m.fld[Slot(8, 0)] == 7 && Reach(m, Slot(8, 0).o, 0);
  }
}
