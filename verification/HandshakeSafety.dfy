/** What the handshake protocol guarantees in every run, and the one case in
    which it does not make progress. */
module HandshakeSafety {
  import opened Phases
  import opened Handshake
  import opened Runs

  lemma NextInv(s: State, s': State, step: Step)
    requires Inv(s) && Next(s, s', step)
    ensures Inv(s')
  {
    match step
    case Register(t) => RegisterInv(s, s', t);
    case CheckAccept(t) => CheckAcceptInv(s, s', t);
    case Leave(t) => LeaveInv(s, s', t);
    case Enter(t) => EnterInv(s, s', t);
    case HelpTake(t, u) => HelpTakeInv(s, s', t, u);
    case StartGc(t, mode) => StartGcInv(s, s', t, mode);
    case Respond(t) => RespondInv(s, s', t);
    case EndGc(t) => EndGcInv(s, s', t);
    case Global(t, next) => GlobalInv(s, s', t, next);
    case FlipOne(t, u) => FlipOneInv(s, s', t, u);
    case AddCount(t) => AddCountInv(s, s', t);
    case SelfAccept(t) => SelfAcceptInv(s, s', t);
    case HelpRelease(t) => HelpReleaseInv(s, s', t);
    case HelpAgain(t) => HelpAgainInv(s, s', t);
  }

  /** A finite run: steps[i] leads from states[i] to states[i + 1]. */
  ghost predicate Run(states: seq<State>, steps: seq<Step>) {
    && |states| == |steps| + 1
    && Init(states[0])
    && forall i :: 0 <= i < |steps| ==> Next(states[i], states[i + 1], steps[i])
  }

  lemma {:induction false} RunInv(states: seq<State>, steps: seq<Step>, i: nat)
    requires Run(states, steps) && i < |states|
    ensures Inv(states[i])
  {
    if i == 0 {
      InitInv(states[0]);
    } else {
      RunInv(states, steps, i - 1);
      assert Next(states[i - 1], states[i - 1 + 1], steps[i - 1]);
      NextInv(states[i - 1], states[i], steps[i - 1]);
    }
  }

  ghost predicate Reachable(s: State) {
    exists s0 :: Init(s0) && Joined(Next, s0, s)
  }

  lemma ReachableInit(s: State)
    requires Init(s)
    ensures Reachable(s)
  {
    JoinedStay(Next, s);
  }

  lemma ReachableNext(s: State, s': State, step: Step)
    requires Reachable(s) && Next(s, s', step)
    ensures Reachable(s')
  {
    var s0 :| Init(s0) && Joined(Next, s0, s);
    JoinedThen(Next, s0, s, s', step);
  }

  /** Step i of the run is a response that reads 1 from the counter. */
  ghost predicate ReadsOne(states: seq<State>, steps: seq<Step>, i: nat) {
    && i < |steps| && i < |states|
    && steps[i].Respond? && states[i].flag == 1
  }

  // ----------------------------------------------------------- handshake safety

  /** Every participant has answered, every worker is in the new phase, and no
      thread runs an action. */
  ghost predicate AllAnswered(s: State) {
    && s.round.resp == s.round.parts
    && (forall u :: u in s.workers ==> s.workers[u].phase == s.round.kind)
    && (forall t :: t in s.pc ==> !s.pc[t].Act?)
  }

  /** Whoever reads 1 knows that every participant has finished the action of
      this round, even though responses may have come before the addition. */
  lemma LastResponse(states: seq<State>, steps: seq<Step>, i: nat)
    requires Run(states, steps) && ReadsOne(states, steps, i)
    ensures i + 1 < |states|
    ensures AllAnswered(states[i + 1])
  {
    var s, s' := states[i], states[i + 1];
    RunInv(states, steps, i);
    RunInv(states, steps, i + 1);
    assert Next(s, s', steps[i]);
    ResponseReadsOne(s, steps[i].t);
    forall u | u in s'.workers ensures s'.workers[u].phase == s'.round.kind {
      assert WorkerOk(s', u);
    }
    forall t | t in s'.pc ensures !s'.pc[t].Act? {
      assert ThreadOk(s', t);
    }
  }

  /** Rounds are numbered upwards, and a round that was answered stays answered. */
  lemma RoundProgress(s: State, s': State, step: Step)
    requires Next(s, s', step)
    ensures s.round.id <= s'.round.id
    ensures s.round.id == s'.round.id && s.round.fired ==> s'.round.fired
    ensures s.round.id == s'.round.id ==>
              s.round.kind == s'.round.kind && s.round.parts == s'.round.parts && s.round.resp <= s'.round.resp
  {
  }

  lemma {:induction false} RoundMonotone(states: seq<State>, steps: seq<Step>, i: nat, j: nat)
    requires Run(states, steps) && i <= j < |states|
    ensures states[i].round.id <= states[j].round.id
    ensures states[i].round.id == states[j].round.id && states[i].round.fired ==> states[j].round.fired
    decreases j - i
  {
    if i < j {
      RoundMonotone(states, steps, i, j - 1);
      assert Next(states[j - 1], states[j - 1 + 1], steps[j - 1]);
      RoundProgress(states[j - 1], states[j], steps[j - 1]);
    }
  }

  /** At most one response of a round reads 1. */
  lemma AtMostOneLast(states: seq<State>, steps: seq<Step>, i: nat, j: nat)
    requires Run(states, steps) && ReadsOne(states, steps, i) && ReadsOne(states, steps, j) && i < j
    ensures states[i].round.id < states[j].round.id
  {
    RunInv(states, steps, j);
    assert Next(states[i], states[i + 1], steps[i]);
    RoundProgress(states[i], states[i + 1], steps[i]);
    RoundMonotone(states, steps, i + 1, j);
    assert Next(states[j], states[j + 1], steps[j]);
    ResponseReadsOne(states[j], steps[j].t);
  }

  /** When all participants have answered and the count has been added, some
      response read 1 if and only if somebody answered after the addition. */
  lemma ExactlyOneLast(states: seq<State>, steps: seq<Step>, i: nat)
    requires Run(states, steps) && i < |states|
    requires states[i].round.added && states[i].round.resp == states[i].round.parts
    ensures states[i].round.fired <==> !states[i].round.early
  {
    RunInv(states, steps, i);
  }

  /** Only a round advanced from leave_worker can have all answers before its
      addition: in every other mode the advancing thread still holds the worker
      it acts for, so that worker answers later. */
  lemma EarlyOnlyWhenLeaving(s: State, s': State, t: W)
    requires Inv(s) && AddCountStep(s, s', t)
    ensures s.pc[t].mode != Leaving ==> !s'.round.early
    ensures s'.round.early <==> forall u :: u in s.round.parts ==> u in s.round.resp
  {
    assert ThreadOk(s, t);
    assert s.pc[t].w in s.round.parts;
  }

  // ------------------------------------------------------------- phase lockstep

  /** All workers are in the old phase, the announced phase or the new phase of
      one and the same round, whatever moment new workers register at. */
  lemma Lockstep(states: seq<State>, steps: seq<Step>, i: nat, u: W)
    requires Run(states, steps) && i < |states| && u in states[i].workers
    ensures var r := states[i].round;
            && Follows(r.from, r.kind)
            && states[i].workers[u].phase in {r.from, Pre(r.kind), r.kind}
  {
    RunInv(states, steps, i);
    assert WorkerOk(states[i], u);
  }

  /** No worker has reached SYNC2 while another has not reached SYNC1, and none
      has left marking while another has not reached SYNC2. */
  lemma NeverTwoApart(states: seq<State>, steps: seq<Step>, i: nat, u: W, v: W)
    requires Run(states, steps) && i < |states| && u in states[i].workers && v in states[i].workers
    ensures states[i].workers[u].phase in {PreSync2, Sync2} ==>
              Code(Sync1) <= Code(states[i].workers[v].phase)
    ensures states[i].workers[u].phase in {PreMark, Mark} ==>
              states[i].workers[v].phase in {Sync2, PreMark, Mark, PreAsync, Async}
    ensures states[i].workers[u].phase == PreAsync ==>
              states[i].workers[v].phase in {Mark, PreAsync, Async}
  {
    Lockstep(states, steps, i, u);
    Lockstep(states, steps, i, v);
  }

  // --------------------------------------------------------- action exclusivity

  /** Thread t works on the context of worker w: it holds its own worker, it
      helps w, or it runs the action of w after having dropped the lock. */
  predicate Touches(s: State, t: W, w: W)
    requires t in s.pc
  {
    (t == w && Owns(s.pc[t])) || Helps(s.pc[t], w) || (s.pc[t].Act? && s.pc[t].w == w)
  }

  lemma Exclusive(states: seq<State>, steps: seq<Step>, i: nat, t: W, u: W, w: W)
    requires Run(states, steps) && i < |states|
    requires t in states[i].pc && u in states[i].pc
    requires Touches(states[i], t, w) && Touches(states[i], u, w)
    ensures t == u
  {
    RunInv(states, steps, i);
    assert ThreadOk(states[i], t) && ThreadOk(states[i], u);
  }

  /** The assertions of the code hold: a thread that accepts its own signal
      finds its worker active in exactly the announced phase, and a helper whose
      release fails finds an announced phase, never the fatal case. */
  lemma AssertionsHold(s: State, t: W)
    requires Inv(s) && t in s.pc
    ensures s.pc[t].Self? ==>
              s.pc[t].w in s.workers && s.workers[s.pc[t].w] == Worker(Pre(s.round.kind), false, None)
    ensures s.pc[t].HelpEnd? ==>
              && s.pc[t].w in s.workers
              && var x := s.workers[s.pc[t].w];
              (x == Worker(s.pc[t].taken, false, Some(t)) || x == Worker(Pre(s.round.kind), false, Some(t)))
  {
    assert ThreadOk(s, t);
    if s.pc[t].Self? || s.pc[t].HelpEnd? {
      assert WorkerOk(s, s.pc[t].w);
    }
  }

  // ---------------------------------------------------- a round that never ends

  /** With all answers in and none of them last, no thread acts or drives. */
  lemma QuietWhenEarly(s: State, t: W)
    requires Inv(s) && s.round.early && t in s.pc
    ensures s.gc && !s.pc[t].Act? && !Advancing(s.pc[t])
  {
    assert ThreadOk(s, t);
  }

  /** Once all answers came before the addition nothing moves the round on:
      the collection stays open for ever. */
  lemma StuckForever(s: State, s': State, step: Step)
    requires Inv(s) && s.round.early && Next(s, s', step)
    ensures s'.round == s.round && s'.gc
  {
    assert s.gc;
    forall t | t in s.pc ensures !s.pc[t].Act? && !Advancing(s.pc[t]) {
      QuietWhenEarly(s, t);
    }
  }
}
