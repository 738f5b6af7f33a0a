/** The handshake that moves every worker from one phase to the next.

    Thread t owns worker context t; any thread may run the phase action of
    another worker while helping it.  One round is one handshake: the head of
    the worker list is swapped to fix the participants, each participant is
    flipped to the PRE phase, the counter sml_check_flag is increased by the
    number of flipped workers, and each participant's action ends with a
    decrement of that counter.  Whoever decrements it from 1 runs the next round. */
module Handshake {
  import opened Phases

  type W = nat

  /** The counter is an unsigned 32-bit word. */
  const WORD := 0x1_0000_0000

  function Wrap(x: int): nat { x % WORD }

  /** The state word of a worker context.  `helper` stands for the HELPER bit;
      the identity of the helping thread is history. */
  datatype Worker = Worker(phase: Phase, inactive: bool, helper: Option<W>)

  /** How the thread that runs an action came to run it:
      Greedy  - on its own worker, lock kept, goes on with its next action itself;
      Plain   - sml_gc(0), lock kept;
      Leaving - leave_worker, lock already dropped;
      Helping - help_inactive, with the phase stored when the helped worker was taken. */
  datatype Mode = Greedy | Plain | Leaving | Helping(taken: Phase)

  datatype Pc =
    | InML                                            // runs ML code, holds its worker
    | Outside                                         // does not hold its worker
    | Act(w: W, mode: Mode)                           // runs the phase action of w
    | Last(w: W, mode: Mode)                          // its decrement read 1
    | Start(w: W, mode: Mode)                         // won the race to start a collection
    | Flipping(w: W, mode: Mode, todo: set<W>, count: nat)  // inside change_phase
    | Self(w: W)                                      // about to accept its own signal
    | HelpEnd(w: W, taken: Phase)                     // about to release the helped worker

  /** The current round.  Everything but `kind` and `from` is history. */
  datatype Round = Round(
    id: nat, kind: Phase, from: Phase,
    parts: set<W>, flipped: set<W>, resp: set<W>,
    added: bool, fired: bool, early: bool)

  datatype State = State(
    workers: map<W, Worker>, pc: map<W, Pc>,
    join: Phase,   // low bits of workers_available
    flag: nat,     // sml_check_flag
    gc: bool,      // gc_count is odd
    round: Round,
    driver: Option<W>)  // history: the thread that advances the rounds

  datatype Step =
    | Register(t: W) | CheckAccept(t: W) | Leave(t: W) | Enter(t: W)
    | HelpTake(t: W, u: W) | StartGc(t: W, mode: Mode) | Respond(t: W) | EndGc(t: W)
    | Global(t: W, next: Phase) | FlipOne(t: W, u: W) | AddCount(t: W) | SelfAccept(t: W)
    | HelpRelease(t: W) | HelpAgain(t: W)

  const MAX_WORKERS: int := WORD - 2

  predicate Init(s: State) {
    s == State(map[], map[], Async, 0, false,
               Round(0, Async, Mark, {}, {}, {}, true, true, false), None)
  }

  /** What a thread goes back to when it has nothing more to do for a round. */
  function Return(w: W, mode: Mode): Pc {
    match mode
    case Greedy => InML
    case Plain => InML
    case Leaving => Outside
    case Helping(ph) => HelpEnd(w, ph)
  }

  function SetPc(s: State, t: W, p: Pc): State { s.(pc := s.pc[t := p]) }

  function SetWorker(s: State, u: W, x: Worker): State { s.(workers := s.workers[u := x]) }

  /** A new worker takes its phase from the list head and becomes the list head. */
  predicate RegisterStep(s: State, s': State, t: W) {
    && t !in s.workers
    && |s.workers| < MAX_WORKERS
    && s' == SetPc(SetWorker(s, t, Worker(s.join, false, None)), t, InML)
  }

  predicate CheckAcceptStep(s: State, s': State, t: W) {
    && t in s.pc && t in s.workers && s.pc[t] == InML
    && Pending(s.workers[t].phase)
    && s' == SetPc(SetWorker(s, t, s.workers[t].(phase := Accept(s.workers[t].phase))), t, Act(t, Greedy))
  }

  predicate LeaveStep(s: State, s': State, t: W) {
    && t in s.pc && t in s.workers && s.pc[t] == InML
    && var x := s.workers[t];
    s' == SetPc(SetWorker(s, t, x.(phase := Accept(x.phase), inactive := true)), t,
                if Pending(x.phase) then Act(t, Leaving) else Outside)
  }

  predicate EnterStep(s: State, s': State, t: W) {
    && t in s.pc && t in s.workers && s.pc[t] == Outside
    && s.workers[t].inactive
    && s' == SetPc(SetWorker(s, t, s.workers[t].(inactive := false)), t, InML)
  }

  predicate HelpTakeStep(s: State, s': State, t: W, u: W) {
    && t in s.pc && s.pc[t] == InML
    && u in s.workers && s.workers[u].inactive && Pending(s.workers[u].phase)
    && var ph := Accept(s.workers[u].phase);
    s' == SetPc(SetWorker(s, u, Worker(ph, false, Some(t))), t, Act(u, Helping(ph)))
  }

  predicate StartGcStep(s: State, s': State, t: W, mode: Mode) {
    && t in s.pc && s.pc[t] == InML && (mode == Greedy || mode == Plain)
    && !s.gc
    && s' == SetPc(s.(gc := true, driver := Some(t)), t, Start(t, mode))
  }

  /** fetch_sub(&sml_check_flag, 1) at the end of an action. */
  predicate RespondStep(s: State, s': State, t: W) {
    && t in s.pc && s.pc[t].Act?
    && var w := s.pc[t].w;
    && var last := s.flag == 1;
    s' == SetPc(s.(flag := Wrap(s.flag - 1),
                   round := s.round.(resp := s.round.resp + {w}, fired := s.round.fired || last),
                   driver := if last then Some(t) else s.driver),
                t, if last then Last(w, s.pc[t].mode) else Return(w, s.pc[t].mode))
  }

  predicate EndGcStep(s: State, s': State, t: W) {
    && t in s.pc && s.pc[t].Last? && s.round.kind == Async
    && s' == SetPc(s.(gc := false, driver := None), t, Return(s.pc[t].w, s.pc[t].mode))
  }

  /** Which round follows which: marking may be repeated. */
  predicate Follows(kind: Phase, next: Phase) {
    match kind
    case Async => next == Sync1
    case Sync1 => next == Sync2
    case Sync2 => next == Mark
    case Mark => next == Mark || next == Async
    case _ => false
  }

  /** The swap of workers_available in global_phase. */
  predicate GlobalStep(s: State, s': State, t: W, next: Phase) {
    && t in s.pc && (s.pc[t].Start? || (s.pc[t].Last? && s.round.kind != Async))
    && Follows(s.round.kind, next)
    && s' == SetPc(s.(join := next,
                      round := Round(s.round.id + 1, next, s.round.kind, s.workers.Keys, {}, {},
                                     false, false, false)),
                   t, Flipping(s.pc[t].w, s.pc[t].mode, s.workers.Keys, 0))
  }

  predicate FlipOneStep(s: State, s': State, t: W, u: W) {
    && t in s.pc && s.pc[t].Flipping? && u in s.pc[t].todo && u in s.workers
    && var pc := s.pc[t];
    && var x := s.workers[u];
    s' == SetPc(SetWorker(s.(round := s.round.(flipped := s.round.flipped + {u})), u,
                          x.(phase := FlipPhase(x.phase, s.round.from, Pre(s.round.kind)))),
                t, pc.(todo := pc.todo - {u}, count := pc.count + 1))
  }

  /** fetch_add(&sml_check_flag, count). */
  predicate AddCountStep(s: State, s': State, t: W) {
    && t in s.pc && s.pc[t].Flipping? && s.pc[t].todo == {}
    && var pc := s.pc[t];
    s' == SetPc(s.(flag := Wrap(s.flag + pc.count),
                   round := s.round.(added := true, early := s.round.resp == s.round.parts),
                   driver := None),
                t, if pc.mode == Greedy then Self(pc.w) else Return(pc.w, pc.mode))
  }

  predicate SelfAcceptStep(s: State, s': State, t: W) {
    && t in s.pc && s.pc[t].Self? && s.pc[t].w in s.workers
    && var w := s.pc[t].w;
    s' == SetPc(SetWorker(s, w, s.workers[w].(phase := Accept(s.workers[w].phase))), t, Act(w, Greedy))
  }

  /** The compare-and-swap that ends help_inactive succeeds. */
  predicate HelpReleaseStep(s: State, s': State, t: W) {
    && t in s.pc && s.pc[t].HelpEnd? && s.pc[t].w in s.workers
    && var w := s.pc[t].w;
    && s.workers[w] == Worker(s.pc[t].taken, false, Some(t))
    && s' == SetPc(SetWorker(s, w, Worker(s.pc[t].taken, true, None)), t, InML)
  }

  /** It fails: the helped worker was flipped meanwhile, and the helper runs its next action too. */
  predicate HelpAgainStep(s: State, s': State, t: W) {
    && t in s.pc && s.pc[t].HelpEnd? && s.pc[t].w in s.workers
    && var w := s.pc[t].w;
    && s.workers[w] != Worker(s.pc[t].taken, false, Some(t))
    && var ph := Accept(s.workers[w].phase);
    s' == SetPc(SetWorker(s, w, s.workers[w].(phase := ph)), t, Act(w, Helping(ph)))
  }

  predicate Next(s: State, s': State, step: Step) {
    match step
    case Register(t) => RegisterStep(s, s', t)
    case CheckAccept(t) => CheckAcceptStep(s, s', t)
    case Leave(t) => LeaveStep(s, s', t)
    case Enter(t) => EnterStep(s, s', t)
    case HelpTake(t, u) => HelpTakeStep(s, s', t, u)
    case StartGc(t, mode) => StartGcStep(s, s', t, mode)
    case Respond(t) => RespondStep(s, s', t)
    case EndGc(t) => EndGcStep(s, s', t)
    case Global(t, next) => GlobalStep(s, s', t, next)
    case FlipOne(t, u) => FlipOneStep(s, s', t, u)
    case AddCount(t) => AddCountStep(s, s', t)
    case SelfAccept(t) => SelfAcceptStep(s, s', t)
    case HelpRelease(t) => HelpReleaseStep(s, s', t)
    case HelpAgain(t) => HelpAgainStep(s, s', t)
  }

  // ---------------------------------------------------------------- invariant

  /** Threads whose own worker is locked by themselves. */
  predicate Owns(p: Pc) {
    match p
    case InML => true
    case Outside => false
    case Act(_, m) => m != Leaving
    case Last(_, m) => m != Leaving
    case Start(_, m) => m != Leaving
    case Flipping(_, m, _, _) => m != Leaving
    case Self(_) => true
    case HelpEnd(_, _) => true
  }

  predicate Advancing(p: Pc) { p.Last? || p.Start? || p.Flipping? }

  /** The one thread that may touch the context of worker w. */
  function Actor(s: State, w: W): W
    requires w in s.workers
  {
    if s.workers[w].helper.Some? then s.workers[w].helper.value else w
  }

  predicate Domains(s: State) {
    && s.pc.Keys == s.workers.Keys
    && s.round.parts <= s.workers.Keys
    && s.round.flipped <= s.round.parts
    && s.round.resp <= s.round.flipped
    && s.join == s.round.kind
    && |s.workers| <= MAX_WORKERS
  }

  predicate LegalRound(s: State) {
    var r := s.round;
    && Follows(r.from, r.kind)
    && (r.added ==> r.flipped == r.parts)
    && (r.fired ==> r.added && r.resp == r.parts)
    && (r.added && r.resp == r.parts ==> (r.fired <==> !r.early))
    && (r.early ==> r.added && r.resp == r.parts)
    && (!s.gc ==> r.fired && r.kind == Async && s.driver == None)
    && (s.driver.Some? ==> s.driver.value in s.pc)
    && (!r.added ==> s.driver.Some? && s.driver.value in s.pc && s.pc[s.driver.value].Flipping?)
  }

  function Balance(r: Round): int { (if r.added then |r.parts| else 0) - |r.resp| }

  predicate Counter(s: State) { s.flag == Wrap(Balance(s.round)) }

  /** Where a worker can be in the middle of a round. */
  predicate PhaseOk(r: Round, u: W, p: Phase) {
    && (u !in r.parts ==> p == r.kind)
    && (u in r.parts && u !in r.flipped ==> p == r.from)
    && (u in r.resp ==> p == r.kind)
    && (u in r.flipped ==> p == r.kind || p == Pre(r.kind))
  }

  /** w is locked by t as its helper. */
  predicate HelpedBy(s: State, w: W, t: W) {
    w in s.workers && w != t && s.workers[w].helper == Some(t) && !s.workers[w].inactive
  }

  /** Thread t runs on behalf of worker w in mode m. */
  predicate Placed(s: State, t: W, w: W, m: Mode) {
    if m.Helping? then HelpedBy(s, w, t) && !Pending(m.taken) else w == t
  }

  predicate PcOk(s: State, t: W, p: Pc) {
    var r := s.round;
    match p
    case InML => true
    case Outside => true
    case Act(w, m) =>
      && Placed(s, t, w, m) && m != Plain
      && w in r.flipped && w !in r.resp && w in s.workers && s.workers[w].phase == r.kind
      && (if m.Helping? then m.taken == r.kind else s.workers[w].helper.None?)
    case Last(w, m) =>
      && Placed(s, t, w, m) && m != Plain && s.gc && r.fired
      && (m.Helping? ==> m.taken == r.kind)
    case Start(w, m) => w == t && (m == Greedy || m == Plain) && s.gc && r.fired && r.kind == Async
    case Flipping(w, m, todo, count) =>
      && Placed(s, t, w, m) && s.gc && !r.added
      && todo == r.parts - r.flipped && count == |r.flipped|
      && w in r.parts && (m != Leaving ==> w !in r.resp)
      && (m.Helping? ==> m.taken == r.from)
    case Self(w) => w == t && w in r.flipped && w !in r.resp
    case HelpEnd(w, taken) =>
      && HelpedBy(s, w, t) && !Pending(taken)
      && (s.workers[w].phase == taken || Pending(s.workers[w].phase))
  }

  predicate ThreadOk(s: State, t: W) {
    && t in s.pc && t in s.workers
    && (Owns(s.pc[t]) <==> !s.workers[t].inactive && s.workers[t].helper.None?)
    && (Advancing(s.pc[t]) <==> s.driver == Some(t))
    && PcOk(s, t, s.pc[t])
  }

  /** p belongs to a thread that has w locked as a helper. */
  predicate Helps(p: Pc, w: W) {
    match p
    case Act(x, m) => x == w && m.Helping?
    case Last(x, m) => x == w && m.Helping?
    case Flipping(x, m, _, _) => x == w && m.Helping?
    case HelpEnd(x, _) => x == w
    case _ => false
  }

  predicate WorkerOk(s: State, u: W) {
    && u in s.workers
    && PhaseOk(s.round, u, s.workers[u].phase)
    && (s.workers[u].helper.Some? ==>
          && !s.workers[u].inactive && s.workers[u].helper.value in s.pc
          && Helps(s.pc[s.workers[u].helper.value], u))
    && (u in s.round.flipped && u !in s.round.resp && s.workers[u].phase == s.round.kind ==>
          && Actor(s, u) in s.pc
          && s.pc[Actor(s, u)].Act? && s.pc[Actor(s, u)].w == u)
  }

  ghost predicate Inv(s: State) {
    && Domains(s) && LegalRound(s) && Counter(s)
    && (forall t {:trigger ThreadOk(s, t)} :: t in s.pc ==> ThreadOk(s, t))
    && (forall u {:trigger WorkerOk(s, u)} :: u in s.workers ==> WorkerOk(s, u))
  }

  // ------------------------------------------------------- preservation proofs

  lemma InitInv(s: State)
    requires Init(s)
    ensures Inv(s)
  {
  }

  lemma WrapOne(x: int)
    requires -MAX_WORKERS <= x <= MAX_WORKERS
    ensures Wrap(x) == 1 <==> x == 1
  {
  }

  lemma WrapAdd(x: int, y: int)
    ensures Wrap(Wrap(x) + y) == Wrap(x + y)
  {
  }

  lemma SubsetSize(a: set<W>, b: set<W>)
    requires a <= b
    ensures |a| <= |b|
    ensures |a| == |b| ==> a == b
  {
    assert |b| == |a| + |b - a| by { assert a + (b - a) == b; }
    if |a| == |b| { assert b - a == {}; }
  }

  lemma RegisterInv(s: State, s': State, t: W)
    requires Inv(s) && RegisterStep(s, s', t)
    ensures Inv(s')
  {
    forall x | x in s'.pc ensures ThreadOk(s', x) {
      assert x in s.pc ==> ThreadOk(s, x);
    }
    forall x | x in s'.workers ensures WorkerOk(s', x) {
      assert x in s.workers ==> WorkerOk(s, x);
    }
  }

  lemma CheckAcceptThread(s: State, s': State, t: W, x: W)
    requires Inv(s) && CheckAcceptStep(s, s', t) && x in s'.pc
    ensures ThreadOk(s', x)
  {
    assert ThreadOk(s, x);
    assert ThreadOk(s, t);
    assert WorkerOk(s, t);
  }

  lemma CheckAcceptWorker(s: State, s': State, t: W, x: W)
    requires Inv(s) && CheckAcceptStep(s, s', t) && x in s'.workers
    ensures WorkerOk(s', x)
  {
    assert WorkerOk(s, x);
    assert ThreadOk(s, t);
    assert WorkerOk(s, t);
  }

  lemma CheckAcceptInv(s: State, s': State, t: W)
    requires Inv(s) && CheckAcceptStep(s, s', t)
    ensures Inv(s')
  {
    forall x | x in s'.pc ensures ThreadOk(s', x) { CheckAcceptThread(s, s', t, x); }
    forall x | x in s'.workers ensures WorkerOk(s', x) { CheckAcceptWorker(s, s', t, x); }
  }

  lemma LeaveThread(s: State, s': State, t: W, x: W)
    requires Inv(s) && LeaveStep(s, s', t) && x in s'.pc
    ensures ThreadOk(s', x)
  {
    assert ThreadOk(s, x);
    assert ThreadOk(s, t);
    assert WorkerOk(s, t);
  }

  lemma LeaveWorker(s: State, s': State, t: W, x: W)
    requires Inv(s) && LeaveStep(s, s', t) && x in s'.workers
    ensures WorkerOk(s', x)
  {
    assert WorkerOk(s, x);
    assert ThreadOk(s, t);
    assert WorkerOk(s, t);
  }

  lemma LeaveInv(s: State, s': State, t: W)
    requires Inv(s) && LeaveStep(s, s', t)
    ensures Inv(s')
  {
    forall x | x in s'.pc ensures ThreadOk(s', x) { LeaveThread(s, s', t, x); }
    forall x | x in s'.workers ensures WorkerOk(s', x) { LeaveWorker(s, s', t, x); }
  }

  lemma EnterInv(s: State, s': State, t: W)
    requires Inv(s) && EnterStep(s, s', t)
    ensures Inv(s')
  {
    forall x | x in s'.pc ensures ThreadOk(s', x) {
      assert x in s.pc ==> ThreadOk(s, x); assert ThreadOk(s, t); assert WorkerOk(s, t);
    }
    forall x | x in s'.workers ensures WorkerOk(s', x) {
      assert x in s.workers ==> WorkerOk(s, x); assert ThreadOk(s, t); assert WorkerOk(s, t);
    }
  }

  lemma HelpTakeThread(s: State, s': State, t: W, u: W, x: W)
    requires Inv(s) && HelpTakeStep(s, s', t, u) && x in s'.pc
    ensures ThreadOk(s', x)
  {
    assert ThreadOk(s, x);
    assert ThreadOk(s, t);
    assert WorkerOk(s, u) && ThreadOk(s, u);
  }

  lemma HelpTakeWorker(s: State, s': State, t: W, u: W, x: W)
    requires Inv(s) && HelpTakeStep(s, s', t, u) && x in s'.workers
    ensures WorkerOk(s', x)
  {
    assert WorkerOk(s, x);
    assert ThreadOk(s, t);
    assert WorkerOk(s, u) && ThreadOk(s, u);
  }

  lemma HelpTakeInv(s: State, s': State, t: W, u: W)
    requires Inv(s) && HelpTakeStep(s, s', t, u)
    ensures Inv(s')
  {
    forall x | x in s'.pc ensures ThreadOk(s', x) { HelpTakeThread(s, s', t, u, x); }
    forall x | x in s'.workers ensures WorkerOk(s', x) { HelpTakeWorker(s, s', t, u, x); }
  }

  lemma StartGcInv(s: State, s': State, t: W, mode: Mode)
    requires Inv(s) && StartGcStep(s, s', t, mode)
    ensures Inv(s')
  {
    forall x | x in s'.pc ensures ThreadOk(s', x) {
      assert x in s.pc ==> ThreadOk(s, x); assert ThreadOk(s, t);
    }
    forall x | x in s'.workers ensures WorkerOk(s', x) {
      assert x in s.workers ==> WorkerOk(s, x); assert ThreadOk(s, t);
    }
  }

  /** The only place where the counter is tested. */
  lemma ResponseReadsOne(s: State, t: W)
    requires Inv(s) && t in s.pc && s.pc[t].Act?
    ensures s.flag == 1 <==> s.round.added && s.round.resp + {s.pc[t].w} == s.round.parts
    ensures !s.round.fired && !s.round.early
  {
    assert ThreadOk(s, t);
    var r := s.round;
    var w := s.pc[t].w;
    SubsetSize(r.resp, r.parts);
    SubsetSize(r.resp + {w}, r.parts);
    SubsetSize(r.parts, s.workers.Keys);
    assert |r.resp + {w}| == |r.resp| + 1;
    WrapOne(Balance(r));
  }

  lemma RespondThread(s: State, s': State, t: W, x: W)
    requires Inv(s) && RespondStep(s, s', t) && x in s'.pc
    ensures ThreadOk(s', x)
  {
    assert ThreadOk(s, x);
    assert ThreadOk(s, t);
    ResponseReadsOne(s, t);
  }

  lemma RespondWorker(s: State, s': State, t: W, x: W)
    requires Inv(s) && RespondStep(s, s', t) && x in s'.workers
    ensures WorkerOk(s', x)
  {
    assert WorkerOk(s, x);
    assert ThreadOk(s, t);
  }

  lemma RespondRound(s: State, s': State, t: W)
    requires Inv(s) && RespondStep(s, s', t)
    ensures Domains(s') && LegalRound(s') && Counter(s')
  {
    assert ThreadOk(s, t);
    ResponseReadsOne(s, t);
    WrapAdd(Balance(s.round), -1);
  }

  lemma RespondInv(s: State, s': State, t: W)
    requires Inv(s) && RespondStep(s, s', t)
    ensures Inv(s')
  {
    RespondRound(s, s', t);
    forall x | x in s'.pc ensures ThreadOk(s', x) { RespondThread(s, s', t, x); }
    forall x | x in s'.workers ensures WorkerOk(s', x) { RespondWorker(s, s', t, x); }
  }

  lemma EndGcInv(s: State, s': State, t: W)
    requires Inv(s) && EndGcStep(s, s', t)
    ensures Inv(s')
  {
    assert ThreadOk(s, t) && WorkerOk(s, s.pc[t].w);
    forall x | x in s'.pc ensures ThreadOk(s', x) {
      assert x in s.pc ==> ThreadOk(s, x); assert ThreadOk(s, t);
    }
    forall x | x in s'.workers ensures WorkerOk(s', x) {
      assert x in s.workers ==> WorkerOk(s, x); assert ThreadOk(s, t);
    }
  }

  lemma GlobalThread(s: State, s': State, t: W, next: Phase, x: W)
    requires Inv(s) && GlobalStep(s, s', t, next) && x in s'.pc
    ensures ThreadOk(s', x)
  {
    assert ThreadOk(s, x);
    assert ThreadOk(s, t);
  }

  lemma GlobalWorker(s: State, s': State, t: W, next: Phase, x: W)
    requires Inv(s) && GlobalStep(s, s', t, next) && x in s'.workers
    ensures WorkerOk(s', x)
  {
    assert WorkerOk(s, x);
    assert ThreadOk(s, t);
  }

  lemma GlobalInv(s: State, s': State, t: W, next: Phase)
    requires Inv(s) && GlobalStep(s, s', t, next)
    ensures Inv(s')
  {
    assert ThreadOk(s, t);
    forall x | x in s'.pc ensures ThreadOk(s', x) { GlobalThread(s, s', t, next, x); }
    forall x | x in s'.workers ensures WorkerOk(s', x) { GlobalWorker(s, s', t, next, x); }
  }

  /** The state after worker u has been flipped from exactly the old phase. */
  function Flipped(s: State, t: W, u: W): State
    requires t in s.pc && s.pc[t].Flipping? && u in s.workers
  {
    var pc := s.pc[t];
    SetPc(SetWorker(s.(round := s.round.(flipped := s.round.flipped + {u})), u,
                    s.workers[u].(phase := Pre(s.round.kind))),
          t, pc.(todo := pc.todo - {u}, count := pc.count + 1))
  }

  lemma FlippedThread(s: State, t: W, u: W, x: W)
    requires Inv(s) && t in s.pc && s.pc[t].Flipping? && u in s.pc[t].todo && u in s.workers
    requires x in s.pc
    ensures ThreadOk(Flipped(s, t, u), x)
  {
    assert ThreadOk(s, t) && WorkerOk(s, u) && ThreadOk(s, x);
  }

  lemma FlippedWorker(s: State, t: W, u: W, x: W)
    requires Inv(s) && t in s.pc && s.pc[t].Flipping? && u in s.pc[t].todo && u in s.workers
    requires x in s.workers
    ensures WorkerOk(Flipped(s, t, u), x)
  {
    assert ThreadOk(s, t) && WorkerOk(s, u) && WorkerOk(s, x);
  }

  lemma FlippedRound(s: State, t: W, u: W)
    requires Inv(s) && t in s.pc && s.pc[t].Flipping? && u in s.pc[t].todo && u in s.workers
    ensures Domains(Flipped(s, t, u)) && LegalRound(Flipped(s, t, u)) && Counter(Flipped(s, t, u))
  {
    assert ThreadOk(s, t);
  }

  lemma FlippedInv(s: State, t: W, u: W)
    requires Inv(s) && t in s.pc && s.pc[t].Flipping? && u in s.pc[t].todo && u in s.workers
    ensures Inv(Flipped(s, t, u))
  {
    var s' := Flipped(s, t, u);
    FlippedRound(s, t, u);
    forall x | x in s'.pc ensures ThreadOk(s', x) { FlippedThread(s, t, u, x); }
    forall x | x in s'.workers ensures WorkerOk(s', x) { FlippedWorker(s, t, u, x); }
  }

  /** The flip always starts from exactly the old phase of the round. */
  lemma FlipFromOld(s: State, s': State, t: W, u: W)
    requires Inv(s) && FlipOneStep(s, s', t, u)
    ensures s.workers[u].phase == s.round.from
    ensures s' == Flipped(s, t, u)
  {
    assert ThreadOk(s, t) && WorkerOk(s, u);
    FlipExact(s.workers[u].phase, s.round.from, Pre(s.round.kind));
  }

  lemma FlipOneInv(s: State, s': State, t: W, u: W)
    requires Inv(s) && FlipOneStep(s, s', t, u)
    ensures Inv(s')
  {
    FlipFromOld(s, s', t, u);
    FlippedInv(s, t, u);
  }

  /** An empty to-do list means that every participant has been flipped. */
  lemma AllFlipped(s: State, t: W)
    requires Inv(s) && t in s.pc && s.pc[t].Flipping? && s.pc[t].todo == {}
    ensures s.round.flipped == s.round.parts
  {
    assert ThreadOk(s, t);
    forall u | u in s.round.parts ensures u in s.round.flipped {
      assert u !in s.pc[t].todo;
    }
  }

  lemma AddCountThread(s: State, s': State, t: W, x: W)
    requires Inv(s) && AddCountStep(s, s', t) && x in s'.pc
    ensures ThreadOk(s', x)
  {
    assert ThreadOk(s, x);
    assert ThreadOk(s, t);
    assert WorkerOk(s, s.pc[t].w);
    AllFlipped(s, t);
  }

  lemma AddCountWorker(s: State, s': State, t: W, x: W)
    requires Inv(s) && AddCountStep(s, s', t) && x in s'.workers
    ensures WorkerOk(s', x)
  {
    assert WorkerOk(s, x);
    assert ThreadOk(s, t);
  }

  lemma AddCountRound(s: State, s': State, t: W)
    requires Inv(s) && AddCountStep(s, s', t)
    ensures Domains(s') && LegalRound(s') && Counter(s')
  {
    assert ThreadOk(s, t);
    WrapAdd(Balance(s.round), s.pc[t].count);
    assert WorkerOk(s, s.pc[t].w);
    AllFlipped(s, t);
  }

  lemma AddCountInv(s: State, s': State, t: W)
    requires Inv(s) && AddCountStep(s, s', t)
    ensures Inv(s')
  {
    AddCountRound(s, s', t);
    forall x | x in s'.pc ensures ThreadOk(s', x) { AddCountThread(s, s', t, x); }
    forall x | x in s'.workers ensures WorkerOk(s', x) { AddCountWorker(s, s', t, x); }
  }

  lemma SelfAcceptThread(s: State, s': State, t: W, x: W)
    requires Inv(s) && SelfAcceptStep(s, s', t) && x in s'.pc
    ensures ThreadOk(s', x)
  {
    assert ThreadOk(s, x);
    assert ThreadOk(s, t);
    assert WorkerOk(s, t);
  }

  lemma SelfAcceptWorker(s: State, s': State, t: W, x: W)
    requires Inv(s) && SelfAcceptStep(s, s', t) && x in s'.workers
    ensures WorkerOk(s', x)
  {
    assert WorkerOk(s, x);
    assert ThreadOk(s, t);
    assert WorkerOk(s, t);
  }

  lemma SelfAcceptInv(s: State, s': State, t: W)
    requires Inv(s) && SelfAcceptStep(s, s', t)
    ensures Inv(s')
  {
    assert ThreadOk(s, t);
    forall x | x in s'.pc ensures ThreadOk(s', x) { SelfAcceptThread(s, s', t, x); }
    forall x | x in s'.workers ensures WorkerOk(s', x) { SelfAcceptWorker(s, s', t, x); }
  }

  lemma HelpReleaseInv(s: State, s': State, t: W)
    requires Inv(s) && HelpReleaseStep(s, s', t)
    ensures Inv(s')
  {
    assert ThreadOk(s, t);
    forall x | x in s'.pc ensures ThreadOk(s', x) {
      assert x in s.pc ==> ThreadOk(s, x); assert ThreadOk(s, t); assert WorkerOk(s, s.pc[t].w) && ThreadOk(s, s.pc[t].w);
    }
    forall x | x in s'.workers ensures WorkerOk(s', x) {
      assert x in s.workers ==> WorkerOk(s, x); assert ThreadOk(s, t);
    }
  }

  lemma HelpAgainThread(s: State, s': State, t: W, x: W)
    requires Inv(s) && HelpAgainStep(s, s', t) && x in s'.pc
    ensures ThreadOk(s', x)
  {
    assert ThreadOk(s, x);
    assert ThreadOk(s, t);
    assert WorkerOk(s, s.pc[t].w);
  }

  lemma HelpAgainWorker(s: State, s': State, t: W, x: W)
    requires Inv(s) && HelpAgainStep(s, s', t) && x in s'.workers
    ensures WorkerOk(s', x)
  {
    assert WorkerOk(s, x);
    assert ThreadOk(s, t);
    assert WorkerOk(s, s.pc[t].w);
  }

  lemma HelpAgainInv(s: State, s': State, t: W)
    requires Inv(s) && HelpAgainStep(s, s', t)
    ensures Inv(s')
  {
    assert ThreadOk(s, t);
    forall x | x in s'.pc ensures ThreadOk(s', x) { HelpAgainThread(s, s', t, x); }
    forall x | x in s'.workers ensures WorkerOk(s', x) { HelpAgainWorker(s, s', t, x); }
  }
}
