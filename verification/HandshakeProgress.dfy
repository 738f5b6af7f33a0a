/** A round is never stuck unless the count was added after the last answer: some thread
    can always take a step that brings the round closer to its end. */
module HandshakeProgress {
  import opened Phases
  import opened Handshake
  import HandshakeSafety

  /** Between the last answer of a round and the next round, or the end of the collection,
      there is a thread in charge. */
  predicate Driven(s: State) { s.gc && s.round.fired ==> s.driver.Some? }

  lemma DrivenNext(s: State, s': State, step: Step)
    requires Inv(s) && Driven(s) && Next(s, s', step)
    ensures Driven(s')
  {
    if step.AddCount? { assert ThreadOk(s, step.t); }
  }

  lemma {:induction false} RunDriven(states: seq<State>, steps: seq<Step>, i: nat)
    requires HandshakeSafety.Run(states, steps) && i < |states|
    ensures Driven(states[i])
  {
    hide Inv, Next;
    if i > 0 {
      RunDriven(states, steps, i - 1);
      HandshakeSafety.RunInv(states, steps, i - 1);
      assert Next(states[i - 1], states[i - 1 + 1], steps[i - 1]);
      DrivenNext(states[i - 1], states[i], steps[i - 1]);
    }
  }

  // ------------------------------------------------------------ steps towards the end

  /** Steps by which the collection goes on: nobody joins, leaves, or begins to help. */
  predicate GoesOn(s: State, step: Step) {
    match step
    case Register(_) => false
    case Leave(_) => false
    case HelpTake(_, _) => false
    case StartGc(_, _) => false
    case Enter(t) => t in s.workers && Pending(s.workers[t].phase)
    case _ => true
  }

  /** What is left to do in a round. */
  function Unflipped(s: State): set<W> { s.round.parts - s.round.flipped }

  function Unanswered(s: State): set<W> { s.round.parts - s.round.resp }

  function Signalled(s: State): set<W> { set u | u in s.workers && Pending(s.workers[u].phase) }

  function Helpers(s: State): set<W> { set t | t in s.pc && s.pc[t].HelpEnd? }

  function Away(s: State): set<W> { set u | u in s.workers && s.workers[u].inactive }

  /** Less is left to do: the first of the counts that differs is smaller. */
  predicate Closer(s: State, s': State) {
    if |Unflipped(s')| != |Unflipped(s)| then |Unflipped(s')| < |Unflipped(s)|
    else if s'.round.added != s.round.added then s'.round.added
    else if |Unanswered(s')| != |Unanswered(s)| then |Unanswered(s')| < |Unanswered(s)|
    else if |Signalled(s')| != |Signalled(s)| then |Signalled(s')| < |Signalled(s)|
    else if |Helpers(s')| != |Helpers(s)| then |Helpers(s')| < |Helpers(s)|
    else |Away(s')| < |Away(s)|
  }

  lemma Fewer(a: set<W>, b: set<W>, x: W)
    requires a <= b && x in b && x !in a
    ensures |a| < |b|
  {
    assert b == a + (b - a) && x in b - a;
    assert |b| == |a| + |b - a|;
  }

  lemma FlipCloser(s: State, t: W, u: W) returns (s': State)
    requires Inv(s) && t in s.pc && s.pc[t].Flipping? && u in s.pc[t].todo
    ensures FlipOneStep(s, s', t, u) && Closer(s, s') && s'.round.id == s.round.id
  {
    assert ThreadOk(s, t);
    var x := s.workers[u];
    s' := SetPc(SetWorker(s.(round := s.round.(flipped := s.round.flipped + {u})), u,
                          x.(phase := FlipPhase(x.phase, s.round.from, Pre(s.round.kind)))),
                t, s.pc[t].(todo := s.pc[t].todo - {u}, count := s.pc[t].count + 1));
    Fewer(Unflipped(s'), Unflipped(s), u);
  }

  lemma CountCloser(s: State, t: W) returns (s': State)
    requires Inv(s) && t in s.pc && s.pc[t].Flipping? && s.pc[t].todo == {}
    ensures AddCountStep(s, s', t) && Closer(s, s') && s'.round.id == s.round.id
  {
    assert ThreadOk(s, t);
    var pc := s.pc[t];
    s' := SetPc(s.(flag := Wrap(s.flag + pc.count),
                   round := s.round.(added := true, early := s.round.resp == s.round.parts), driver := None),
                t, if pc.mode == Greedy then Self(pc.w) else Return(pc.w, pc.mode));
  }

  lemma AnswerCloser(s: State, s': State, t: W)
    requires Inv(s) && RespondStep(s, s', t)
    ensures Closer(s, s') && s'.round.id == s.round.id
  {
    assert ThreadOk(s, t);
    Fewer(Unanswered(s'), Unanswered(s), s.pc[t].w);
  }

  /** Worker u has accepted its signal. */
  lemma AcceptCloser(s: State, s': State, t: W, u: W, x: Worker, p: Pc)
    requires u in s.workers && Pending(s.workers[u].phase) && x.phase == Accept(s.workers[u].phase)
    requires s' == SetPc(SetWorker(s, u, x), t, p)
    ensures Closer(s, s')
  {
    Fewer(Signalled(s'), Signalled(s), u);
  }

  lemma EndHelp(s: State, t: W) returns (step: Step, s': State)
    requires Inv(s) && t in s.pc && s.pc[t].HelpEnd?
    ensures Next(s, s', step) && GoesOn(s, step) && !step.Respond? && Closer(s, s') && s'.round.id == s.round.id
  {
    assert ThreadOk(s, t);
    var w, taken := s.pc[t].w, s.pc[t].taken;
    if s.workers[w] == Worker(taken, false, Some(t)) {
      step := HelpRelease(t);
      s' := SetPc(SetWorker(s, w, Worker(taken, true, None)), t, InML);
      assert Signalled(s') == Signalled(s);
      Fewer(Helpers(s'), Helpers(s), t);
    } else {
      step := HelpAgain(t);
      var ph := Accept(s.workers[w].phase);
      s' := SetPc(SetWorker(s, w, s.workers[w].(phase := ph)), t, Act(w, Helping(ph)));
      AcceptCloser(s, s', t, w, s.workers[w].(phase := ph), Act(w, Helping(ph)));
    }
  }

  lemma EnterCloser(s: State, t: W) returns (s': State)
    requires t in s.pc && t in s.workers && s.pc[t] == Outside && s.workers[t].inactive && Pending(s.workers[t].phase)
    ensures EnterStep(s, s', t) && Closer(s, s') && s'.round.id == s.round.id
  {
    s' := SetPc(SetWorker(s, t, s.workers[t].(inactive := false)), t, InML);
    assert Signalled(s') == Signalled(s) && Helpers(s') == Helpers(s);
    Fewer(Away(s'), Away(s), t);
  }

  /** A worker that has not accepted its signal: somebody can do something about it. */
  lemma Unaccepted(s: State, u: W) returns (step: Step, s': State)
    requires Inv(s) && s.driver == None && u in s.workers && Pending(s.workers[u].phase) && s.workers[u].phase != s.round.kind
    ensures Next(s, s', step) && GoesOn(s, step) && Closer(s, s') && s'.round.id == s.round.id
  {
    assert WorkerOk(s, u) && ThreadOk(s, u);
    if s.workers[u].helper.Some? {
      var v := s.workers[u].helper.value;
      assert ThreadOk(s, v);
      step, s' := EndHelp(s, v);
    } else if s.workers[u].inactive {
      step := Enter(u);
      s' := EnterCloser(s, u);
    } else {
      step, s' := Owner(s, u);
    }
  }

  lemma Answer(s: State, t: W) returns (s': State)
    requires Inv(s) && t in s.pc && s.pc[t].Act?
    ensures RespondStep(s, s', t) && Closer(s, s') && s'.round.id == s.round.id
  {
    var w, mode, last := s.pc[t].w, s.pc[t].mode, s.flag == 1;
    s' := SetPc(s.(flag := Wrap(s.flag - 1),
                   round := s.round.(resp := s.round.resp + {w}, fired := s.round.fired || last),
                   driver := if last then Some(t) else s.driver),
                t, if last then Last(w, mode) else Return(w, mode));
    AnswerCloser(s, s', t);
  }

  lemma Owner(s: State, u: W) returns (step: Step, s': State)
    requires Inv(s) && s.driver == None && u in s.workers && Pending(s.workers[u].phase) && s.workers[u].phase != s.round.kind
    requires u in s.pc && Owns(s.pc[u])
    ensures Next(s, s', step) && GoesOn(s, step) && Closer(s, s') && s'.round.id == s.round.id
  {
    assert ThreadOk(s, u);
    var x := s.workers[u].(phase := Accept(s.workers[u].phase));
    match s.pc[u] {
      case InML =>
        step := CheckAccept(u);
        s' := SetPc(SetWorker(s, u, x), u, Act(u, Greedy));
        AcceptCloser(s, s', u, u, x, Act(u, Greedy));
      case Self(w) =>
        step := SelfAccept(u);
        s' := SetPc(SetWorker(s, u, x), u, Act(u, Greedy));
        AcceptCloser(s, s', u, u, x, Act(u, Greedy));
      case Act(w, m) =>
        step := Respond(u);
        s' := Answer(s, u);
      case HelpEnd(w, taken) =>
        step, s' := EndHelp(s, u);
      case _ =>
        assert false;
    }
  }

  /** The thread in charge of a round that has just been opened. */
  lemma InCharge(s: State, d: W) returns (step: Step, s': State)
    requires Inv(s) && s.driver == Some(d) && !s.round.fired
    ensures Next(s, s', step) && GoesOn(s, step) && Closer(s, s') && s'.round.id == s.round.id
  {
    assert ThreadOk(s, d);
    if u :| u in s.pc[d].todo {
      step := FlipOne(d, u);
      s' := FlipCloser(s, d, u);
    } else {
      step := AddCount(d);
      s' := CountCloser(s, d);
    }
  }

  /** While a round is neither over nor stuck for ever, some thread can take a step that
      brings it closer to its end. */
  lemma NoDeadlock(s: State) returns (step: Step, s': State)
    requires Inv(s) && Driven(s) && !s.round.fired && !s.round.early
    ensures Next(s, s', step) && GoesOn(s, step) && Closer(s, s') && s'.round.id == s.round.id
  {
    if s.driver.Some? {
      step, s' := InCharge(s, s.driver.value);
    } else {
      assert s.round.added && s.round.resp != s.round.parts;
      var u :| u in s.round.parts && u !in s.round.resp;
      assert WorkerOk(s, u);
      if s.workers[u].phase == s.round.kind {
        step := Respond(Actor(s, u));
        s' := Answer(s, Actor(s, u));
      } else {
        step, s' := Unaccepted(s, u);
      }
    }
  }

  /** When the round is over, the thread that answered last opens the next one or ends the
      collection. */
  lemma NextRound(s: State) returns (d: W, step: Step, s': State)
    requires Inv(s) && Driven(s) && s.gc && s.round.fired
    ensures s.driver == Some(d) && Next(s, s', step)
    ensures if s.round.kind == Async && d in s.pc && s.pc[d].Last? then step == EndGc(d) && !s'.gc
            else step.Global? && s'.round.id == s.round.id + 1
  {
    d := s.driver.value;
    assert ThreadOk(s, d);
    var w, mode := s.pc[d].w, s.pc[d].mode;
    if s.round.kind == Async && s.pc[d].Last? {
      step := EndGc(d);
      s' := SetPc(s.(gc := false, driver := None), d, Return(w, mode));
    } else {
      var next := match s.round.kind case Async => Sync1 case Sync1 => Sync2 case Sync2 => Mark case _ => Async;
      step := Global(d, next);
      s' := SetPc(s.(join := next, round := Round(s.round.id + 1, next, s.round.kind, s.workers.Keys, {}, {}, false, false, false)),
                  d, Flipping(w, mode, s.workers.Keys, 0));
    }
  }
}
