/** A concrete run in which a collection never ends.  Worker 0 leaves ML code as
    the last to answer SYNC1 and starts the SYNC2 round; worker 1 answers that
    round for itself and, as a helper, for worker 0, before thread 0 adds the
    count.  The counter then reaches 0 by the addition and nobody reads 1. */
module HandshakeStuck {
  import opened Phases
  import opened Handshake
  import opened HandshakeSafety

  /** States with exactly two workers. */
  function Duo(a: Worker, b: Worker, p: Pc, q: Pc, flag: nat, r: Round, driver: Option<W>): State {
    State(map[0 := a, 1 := b], map[0 := p, 1 := q], r.kind, flag, driver.Some? || r.id > 0, r, driver)
  }

  function S0(): State {
    State(map[], map[], Async, 0, false, Round(0, Async, Mark, {}, {}, {}, true, true, false), None)
  }

  function S1(): State {
    State(map[0 := Worker(Async, false, None)], map[0 := InML], Async, 0, false, Round(0, Async, Mark, {}, {}, {}, true, true, false), None)
  }

  function S2(): State {
    Duo(Worker(Async, false, None), Worker(Async, false, None), InML, InML, 0, Round(0, Async, Mark, {}, {}, {}, true, true, false), None)
  }

  function S3(): State {
    Duo(Worker(Async, false, None), Worker(Async, false, None), Start(0, Plain), InML, 0, Round(0, Async, Mark, {}, {}, {}, true, true, false), Some(0))
  }

  function S4(): State {
    Duo(Worker(Async, false, None), Worker(Async, false, None), Flipping(0, Plain, {0, 1}, 0), InML, 0, Round(1, Sync1, Async, {0, 1}, {}, {}, false, false, false), Some(0))
  }

  function S5(): State {
    Duo(Worker(PreSync1, false, None), Worker(Async, false, None), Flipping(0, Plain, {1}, 1), InML, 0, Round(1, Sync1, Async, {0, 1}, {0}, {}, false, false, false), Some(0))
  }

  function S6(): State {
    Duo(Worker(PreSync1, false, None), Worker(PreSync1, false, None), Flipping(0, Plain, {}, 2), InML, 0, Round(1, Sync1, Async, {0, 1}, {0, 1}, {}, false, false, false), Some(0))
  }

  function S7(): State {
    Duo(Worker(PreSync1, false, None), Worker(PreSync1, false, None), InML, InML, 2, Round(1, Sync1, Async, {0, 1}, {0, 1}, {}, true, false, false), None)
  }

  function S8(): State {
    Duo(Worker(PreSync1, false, None), Worker(Sync1, false, None), InML, Act(1, Greedy), 2, Round(1, Sync1, Async, {0, 1}, {0, 1}, {}, true, false, false), None)
  }

  function S9(): State {
    Duo(Worker(PreSync1, false, None), Worker(Sync1, false, None), InML, InML, 1, Round(1, Sync1, Async, {0, 1}, {0, 1}, {1}, true, false, false), None)
  }

  function S10(): State {
    Duo(Worker(Sync1, true, None), Worker(Sync1, false, None), Act(0, Leaving), InML, 1, Round(1, Sync1, Async, {0, 1}, {0, 1}, {1}, true, false, false), None)
  }

  function S11(): State {
    Duo(Worker(Sync1, true, None), Worker(Sync1, false, None), Last(0, Leaving), InML, 0, Round(1, Sync1, Async, {0, 1}, {0, 1}, {0, 1}, true, true, false), Some(0))
  }

  function S12(): State {
    Duo(Worker(Sync1, true, None), Worker(Sync1, false, None), Flipping(0, Leaving, {0, 1}, 0), InML, 0, Round(2, Sync2, Sync1, {0, 1}, {}, {}, false, false, false), Some(0))
  }

  function S13(): State {
    Duo(Worker(PreSync2, true, None), Worker(Sync1, false, None), Flipping(0, Leaving, {1}, 1), InML, 0, Round(2, Sync2, Sync1, {0, 1}, {0}, {}, false, false, false), Some(0))
  }

  function S14(): State {
    Duo(Worker(PreSync2, true, None), Worker(PreSync2, false, None), Flipping(0, Leaving, {}, 2), InML, 0, Round(2, Sync2, Sync1, {0, 1}, {0, 1}, {}, false, false, false), Some(0))
  }

  function S15(): State {
    Duo(Worker(PreSync2, true, None), Worker(Sync2, false, None), Flipping(0, Leaving, {}, 2), Act(1, Greedy), 0, Round(2, Sync2, Sync1, {0, 1}, {0, 1}, {}, false, false, false), Some(0))
  }

  function S16(): State {
    Duo(Worker(PreSync2, true, None), Worker(Sync2, false, None), Flipping(0, Leaving, {}, 2), InML, WORD - 1, Round(2, Sync2, Sync1, {0, 1}, {0, 1}, {1}, false, false, false), Some(0))
  }

  function S17(): State {
    Duo(Worker(Sync2, false, Some(1)), Worker(Sync2, false, None), Flipping(0, Leaving, {}, 2), Act(0, Helping(Sync2)), WORD - 1, Round(2, Sync2, Sync1, {0, 1}, {0, 1}, {1}, false, false, false), Some(0))
  }

  function S18(): State {
    Duo(Worker(Sync2, false, Some(1)), Worker(Sync2, false, None), Flipping(0, Leaving, {}, 2), HelpEnd(0, Sync2), WORD - 2, Round(2, Sync2, Sync1, {0, 1}, {0, 1}, {0, 1}, false, false, false), Some(0))
  }

  function S19(): State {
    Duo(Worker(Sync2, false, Some(1)), Worker(Sync2, false, None), Outside, HelpEnd(0, Sync2), 0, Round(2, Sync2, Sync1, {0, 1}, {0, 1}, {0, 1}, true, false, true), None)
  }

  lemma SetFacts()
    ensures {0, 1} - {0} == {1} && {1} - {1} == {} && {1} + {0} == {0, 1} && {0} + {1} == {0, 1}
    ensures {} + {0} == {0} && {} + {1} == {1} && {0, 1} != {1} && |{0, 1}| == 2
  {
  }

  /** Thread 0 flips worker u. */
  lemma Flips(a: Worker, b: Worker, p: Pc, q: Pc, flag: nat, r: Round, driver: Option<W>, u: W)
    requires p.Flipping? && u in {0, 1} && u in p.todo
    requires (if u == 0 then a else b).phase == r.from
    ensures var s := Duo(a, b, p, q, flag, r, driver);
            var p' := p.(todo := p.todo - {u}, count := p.count + 1);
            var r' := r.(flipped := r.flipped + {u});
            var pre := Pre(r.kind);
            FlipOneStep(s, if u == 0 then Duo(a.(phase := pre), b, p', q, flag, r', driver)
                           else Duo(a, b.(phase := pre), p', q, flag, r', driver), 0, u)
  {
    FlipExact(r.from, r.from, Pre(r.kind));
    var p' := p.(todo := p.todo - {u}, count := p.count + 1);
    assert map[0 := p, 1 := q][0 := p'] == map[0 := p', 1 := q];
    var c := (if u == 0 then a else b).(phase := Pre(r.kind));
    assert map[0 := a, 1 := b][u := c] == if u == 0 then map[0 := c, 1 := b] else map[0 := a, 1 := c];
  }

  lemma Reach0()
    ensures Reachable(S0())
  {
    hide Reachable, Encode, Decode, Xor, Code;
    ReachableInit(S0());
  }

  lemma Reach1()
    ensures Reachable(S1())
  {
    hide Reachable, Encode, Decode, Xor, Code;
    Reach0();
    var s, s' := S0(), S1();
    assert RegisterStep(s, s', 0) by { SetFacts(); assert s.workers.Keys == {}; }
    ReachableNext(s, s', Register(0));
  }

  lemma Reach2()
    ensures Reachable(S2())
  {
    hide Reachable, Encode, Decode, Xor, Code;
    Reach1();
    var s, s' := S1(), S2();
    assert RegisterStep(s, s', 1) by { SetFacts(); assert s.workers.Keys == {0}; }
    ReachableNext(s, s', Register(1));
  }

  lemma Reach3()
    ensures Reachable(S3())
  {
    hide Reachable, Encode, Decode, Xor, Code;
    Reach2();
    var s, s' := S2(), S3();
    assert StartGcStep(s, s', 0, Plain) by {
      assert s'.pc == s.pc[0 := Start(0, Plain)] && s'.workers == s.workers;
    }
    ReachableNext(s, s', StartGc(0, Plain));
  }

  lemma Reach4()
    ensures Reachable(S4())
  {
    hide Reachable, Encode, Decode, Xor, Code;
    Reach3();
    var s, s' := S3(), S4();
    assert GlobalStep(s, s', 0, Sync1) by {
      SetFacts();
      assert s'.pc == s.pc[0 := Flipping(0, Plain, {0, 1}, 0)];
      assert s.workers.Keys == {0, 1}; }
    ReachableNext(s, s', Global(0, Sync1));
  }

  lemma Reach5()
    ensures Reachable(S5())
  {
    hide Reachable, Encode, Decode, Xor, Code;
    Reach4();
    var s, s' := S4(), S5();
    assert FlipOneStep(s, s', 0, 0) by {
      SetFacts();
      Flips(s.workers[0], s.workers[1], s.pc[0], s.pc[1], s.flag, s.round, s.driver, 0);
    }
    ReachableNext(s, s', FlipOne(0, 0));
  }

  lemma Reach6()
    ensures Reachable(S6())
  {
    hide Reachable, Encode, Decode, Xor, Code;
    Reach5();
    var s, s' := S5(), S6();
    assert FlipOneStep(s, s', 0, 1) by {
      SetFacts();
      Flips(s.workers[0], s.workers[1], s.pc[0], s.pc[1], s.flag, s.round, s.driver, 1);
    }
    ReachableNext(s, s', FlipOne(0, 1));
  }

  lemma Reach7()
    ensures Reachable(S7())
  {
    hide Reachable, Encode, Decode, Xor, Code;
    Reach6();
    var s, s' := S6(), S7();
    assert AddCountStep(s, s', 0) by {
      SetFacts();
      assert {} != {0, 1} && Wrap(2) == 2;
      assert s'.pc == s.pc[0 := InML] && s'.workers == s.workers;
    }
    ReachableNext(s, s', AddCount(0));
  }

  lemma Reach8()
    ensures Reachable(S8())
  {
    hide Reachable, Encode, Decode, Xor, Code;
    Reach7();
    var s, s' := S7(), S8();
    assert CheckAcceptStep(s, s', 1) by { SetFacts(); assert s.workers.Keys == {0, 1}; }
    ReachableNext(s, s', CheckAccept(1));
  }

  lemma Reach9()
    ensures Reachable(S9())
  {
    hide Reachable, Encode, Decode, Xor, Code;
    Reach8();
    var s, s' := S8(), S9();
    assert RespondStep(s, s', 1) by { SetFacts(); assert s.workers.Keys == {0, 1}; }
    ReachableNext(s, s', Respond(1));
  }

  lemma Reach10()
    ensures Reachable(S10())
  {
    hide Reachable, Encode, Decode, Xor, Code;
    Reach9();
    var s, s' := S9(), S10();
    assert LeaveStep(s, s', 0) by { SetFacts(); assert s.workers.Keys == {0, 1}; }
    ReachableNext(s, s', Leave(0));
  }

  lemma Reach11()
    ensures Reachable(S11())
  {
    hide Reachable, Encode, Decode, Xor, Code;
    Reach10();
    var s, s' := S10(), S11();
    assert RespondStep(s, s', 0) by { SetFacts(); assert s.workers.Keys == {0, 1}; }
    ReachableNext(s, s', Respond(0));
  }

  lemma Reach12()
    ensures Reachable(S12())
  {
    hide Reachable, Encode, Decode, Xor, Code;
    Reach11();
    var s, s' := S11(), S12();
    assert GlobalStep(s, s', 0, Sync2) by {
      SetFacts();
      assert s.workers.Keys == {0, 1} && s'.workers == s.workers;
      assert s'.pc == s.pc[0 := Flipping(0, Leaving, {0, 1}, 0)];
    }
    ReachableNext(s, s', Global(0, Sync2));
  }

  lemma Reach13()
    ensures Reachable(S13())
  {
    hide Reachable, Encode, Decode, Xor, Code;
    Reach12();
    var s, s' := S12(), S13();
    assert FlipOneStep(s, s', 0, 0) by {
      SetFacts();
      Flips(s.workers[0], s.workers[1], s.pc[0], s.pc[1], s.flag, s.round, s.driver, 0);
    }
    ReachableNext(s, s', FlipOne(0, 0));
  }

  lemma Reach14()
    ensures Reachable(S14())
  {
    hide Reachable, Encode, Decode, Xor, Code;
    Reach13();
    var s, s' := S13(), S14();
    assert FlipOneStep(s, s', 0, 1) by {
      SetFacts();
      Flips(s.workers[0], s.workers[1], s.pc[0], s.pc[1], s.flag, s.round, s.driver, 1);
    }
    ReachableNext(s, s', FlipOne(0, 1));
  }

  lemma Reach15()
    ensures Reachable(S15())
  {
    hide Reachable, Encode, Decode, Xor, Code;
    Reach14();
    var s, s' := S14(), S15();
    assert CheckAcceptStep(s, s', 1) by { SetFacts(); assert s.workers.Keys == {0, 1}; }
    ReachableNext(s, s', CheckAccept(1));
  }

  lemma Reach16()
    ensures Reachable(S16())
  {
    hide Reachable, Encode, Decode, Xor, Code;
    Reach15();
    var s, s' := S15(), S16();
    assert RespondStep(s, s', 1) by {
      SetFacts();
      assert Wrap(-1) == WORD - 1 && s.round.resp + {1} == {1};
      assert s'.pc == s.pc[1 := InML] && s'.workers == s.workers;
    }
    ReachableNext(s, s', Respond(1));
  }

  lemma Reach17()
    ensures Reachable(S17())
  {
    hide Reachable, Encode, Decode, Xor, Code;
    Reach16();
    var s, s' := S16(), S17();
    assert HelpTakeStep(s, s', 1, 0) by {
      assert s'.workers == s.workers[0 := Worker(Sync2, false, Some(1))];
      assert s'.pc == s.pc[1 := Act(0, Helping(Sync2))];
    }
    ReachableNext(s, s', HelpTake(1, 0));
  }

  lemma Reach18()
    ensures Reachable(S18())
  {
    hide Reachable, Encode, Decode, Xor, Code;
    Reach17();
    var s, s' := S17(), S18();
    assert RespondStep(s, s', 1) by {
      assert s'.pc == s.pc[1 := HelpEnd(0, Sync2)];
      assert s'.round.resp == s.round.resp + {0};
    }
    ReachableNext(s, s', Respond(1));
  }

  lemma Reach19()
    ensures Reachable(S19())
  {
    hide Reachable, Encode, Decode, Xor, Code;
    Reach18();
    var s, s' := S18(), S19();
    assert AddCountStep(s, s', 0) by { SetFacts(); assert s.workers.Keys == {0, 1}; }
    ReachableNext(s, s', AddCount(0));
  }

  /** The run ends in a state from which no step changes the round any more
      (HandshakeSafety.StuckForever). */
  lemma StuckRun()
    ensures Reachable(S19())
    ensures var s := S19(); s.round.early && s.gc && !s.round.fired && s.flag == 0 && s.round.kind == Sync2
  {
    Reach19();
  }
}
