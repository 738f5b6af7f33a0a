/** Root coverage over whole runs, whatever the interleaving of work stealing,
    root-set enumeration and the handshake. */
module MigrationSafety {
  import opened Phases
  import opened Handshake
  import opened Migration
  import opened MigrationInv
  import opened MigrationSteps
  import HandshakeSafety
  import Marking

  // ------------------------------------------------------------- handshake steps

  /** Only the thread that takes a step moves on. */
  lemma OthersStay(h: State, h': State, step: Step, t: W)
    requires Next(h, h', step) && t in h.pc && t != step.t
    ensures t in h'.pc && h'.pc[t] == h.pc[t]
  {
  }

  /** A worker that runs ML code changes its phase by its own steps or by a flip. */
  lemma PhaseStays(h: State, h': State, step: Step, t: W)
    requires Inv(h) && Next(h, h', step) && t in h.pc && h.pc[t] == InML && t != step.t
    ensures t in h.workers && t in h'.workers
    ensures h'.workers[t].phase == h.workers[t].phase ||
            (Follows(h.workers[t].phase, h.round.kind) && h'.workers[t].phase == Pre(h.round.kind))
  {
    assert ThreadOk(h, t);
    if step.FlipOne? {
      FlipFromOld(h, h', step.t, step.u);
    } else if step.SelfAccept? || step.HelpAgain? || step.HelpRelease? {
      assert ThreadOk(h, step.t);
    }
  }

  lemma KeysStay(h: State, h': State, step: Step)
    requires Inv(h) && Next(h, h', step)
    ensures h'.workers.Keys == h.workers.Keys + if step.Register? then {step.t} else {}
  {
  }

  /** A thread inside sml_enter takes no step of the handshake. */
  lemma MoverWaits(s: Sys, s': Sys, step: Step, t: W)
    requires MoveOk(s, t) && Tables(s) && ShakeStep(s, s', step)
    ensures t != step.t
  {
  }

  /** Being flipped once is within the lag. */
  lemma LagFlipped(ph: Phase, p: Phase, kind: Phase, p': Phase)
    requires Lag(ph, p) && (p' == p || (Follows(p, kind) && p' == Pre(kind)))
    ensures Lag(ph, p')
  {
  }

  /** A thread inside sml_enter stays in ML code, and its worker is at most flipped. */
  lemma MoverStays(s: Sys, h': State, step: Step, t: W)
    requires Inv(s.h) && MoveOk(s, t) && Next(s.h, h', step) && t != step.t
    ensures t in h'.pc && h'.pc[t] == InML && t in h'.workers
    ensures !s.u.moves[t].Decide? ==> Lag(s.u.moves[t].ph, h'.workers[t].phase)
  {
    OthersStay(s.h, h', step, t);
    PhaseStays(s.h, h', step, t);
    if !s.u.moves[t].Decide? {
      LagFlipped(s.u.moves[t].ph, s.h.workers[t].phase, s.h.round.kind, h'.workers[t].phase);
    }
  }

  lemma OwnerStays(h: State, h': State, step: Step, t: W)
    requires Inv(h) && Next(h, h', step) && t in h.pc && Owns(h.pc[t]) && step != Leave(t)
    ensures t in h'.pc && Owns(h'.pc[t])
  {
    if t == step.t { assert ThreadOk(h, t); } else { OthersStay(h, h', step, t); }
  }

  lemma RunnerStays(s: Sys, s': Sys, step: Step, t: W)
    requires UInv(s) && ShakeStep(s, s', step) && t in s'.u.run
    ensures t in s.u.run && t in s'.h.pc && Owns(s'.h.pc[t])
  {
    assert RunOk(s, t);
    OwnerStays(s.h, s'.h, step, t);
  }

  lemma ActionStays(h: State, h': State, step: Step, w: W)
    requires Inv(h) && Next(h, h', step) && !step.Global? && w in h.workers && h.workers[w].phase == h.round.kind
    requires w in h.round.flipped && w !in h.round.resp && h.round.kind == Sync2
    ensures w in h'.workers && h'.workers[w].phase == Sync2 && h'.round.kind == Sync2 && w in h'.round.flipped
    ensures w in h'.round.resp ==> step.Respond? && step.t in h.pc && h.pc[step.t].Act? && h.pc[step.t].w == w
  {
    assert WorkerOk(h, w);
    if step.FlipOne? || step.SelfAccept? || step.HelpAgain? || step.HelpRelease? {
      assert ThreadOk(h, step.t);
    }
  }

  /** A walk goes on until its worker answers. */
  lemma WalkerStays(s: Sys, s': Sys, step: Step, w: W)
    requires UInv(s) && ShakeStep(s, s', step) && !step.Global? && w in s'.u.walks
    ensures w in s.u.walks && w in s'.h.workers && s'.h.workers[w].phase == Sync2
    ensures s'.h.round.kind == Sync2 && w in s'.h.round.flipped && w !in s'.h.round.resp
  {
    assert WalkOk(s, w);
    ActionStays(s.h, s'.h, step, w);
  }

  /** What a handshake step does to the users, without the handshake. */
  predicate UserSide(s: Sys, s': Sys, step: Step) {
    s'.u == Shaken(s, step) && MayAnswer(s, step) && (step.Register? ==> step.t !in s.u.lists && step.t !in s.u.walks)
  }

  lemma ToUserSide(s: Sys, s': Sys, step: Step)
    requires UInv(s) && ShakeStep(s, s', step)
    ensures UserSide(s, s', step)
  {
    if step.Register? { assert step.t in s.u.walks ==> WalkOk(s, step.t); }
  }

  /** Everything about contexts but the lists of the answering worker is as before. */
  lemma ShakeHas(s: Sys, s': Sys, step: Step)
    requires UserSide(s, s', step)
    ensures forall w, c :: Has(s'.u, w, c) <==> Has(s.u, w, c)
  {
  }

  lemma ShakeBeing(s: Sys, s': Sys, step: Step, c: Ctx)
    requires UserSide(s, s', step) && BeingListed(s, c)
    ensures BeingListed(s', c)
  {
  }

  lemma ShakeTables(s: Sys, s': Sys, step: Step)
    requires UserSide(s, s', step) && Tables(s) && Distinct(s)
    requires s'.h.workers.Keys == s.h.workers.Keys + (if step.Register? then {step.t} else {})
    requires step.Respond? && s.h.round.kind == Sync2 ==> s.h.pc[step.t].w in s.u.lists
    ensures Tables(s') && Distinct(s')
  {
  }

  lemma ShakeLists(s: Sys, s': Sys, step: Step)
    requires UInv(s) && ShakeStep(s, s', step)
    ensures Tables(s') && Lists(s') && Distinct(s')
  {
    ToUserSide(s, s', step);
    ShakeHas(s, s', step);
    if step.Respond? && s.h.round.kind == Sync2 { assert WalkOk(s, s.h.pc[step.t].w); }
    KeysStay(s.h, s'.h, step);
    ShakeTables(s, s', step);
  }

  lemma ShakeThreads(s: Sys, s': Sys, step: Step)
    requires UInv(s) && ShakeStep(s, s', step) && !step.Global?
    ensures Moves(s') && Runs(s')
  {
    ToUserSide(s, s', step);
    forall t | t in s'.u.moves ensures MoveOk(s', t) { ShakeMove(s, s', step, t); }
    forall t | t in s'.u.run ensures RunOk(s', t) {
      RunnerStays(s, s', step, t);
      assert RunOk(s, t);
    }
  }

  lemma ShakeMove(s: Sys, s': Sys, step: Step, t: W)
    requires UInv(s) && ShakeStep(s, s', step) && UserSide(s, s', step) && !step.Global? && t in s.u.moves
    ensures MoveOk(s', t)
  {
    assert MoveOk(s, t);
    MoverWaits(s, s', step, t);
    MoverStays(s, s'.h, step, t);
    var c := s.u.cur[s.u.moves[t].k];
    if BeingListed(s, c) { ShakeBeing(s, s', step, c); }
  }

  lemma ShakeWalks(s: Sys, s': Sys, step: Step)
    requires UInv(s) && ShakeStep(s, s', step) && !step.Global?
    ensures Walks(s')
  {
    ShakeLists(s, s', step);
    forall w | w in s'.u.walks ensures WalkOk(s', w) {
      WalkerStays(s, s', step, w);
      assert WalkOk(s, w);
    }
  }

  lemma ShakeCtx(s: Sys, s': Sys, step: Step, c: Ctx)
    requires UserSide(s, s', step) && CtxOk(s, c)
    ensures CtxOk(s', c)
  {
    if BeingListed(s, c) { ShakeBeing(s, s', step, c); }
  }

  lemma ShakeLocks(s: Sys, s': Sys, step: Step)
    requires UserSide(s, s', step) && Locks(s)
    ensures Locks(s')
  {
    forall c | c in s'.u.busy ensures CtxOk(s', c) {
      assert CtxOk(s, c);
      ShakeCtx(s, s', step, c);
    }
  }

  /** An answer leaves no stack behind: what its worker was responsible for has
      been enumerated. */
  lemma AnsweredAll(s: Sys, s': Sys, t: W, k: User)
    requires UInv(s) && ShakeStep(s, s', Respond(t)) && s.h.round.kind == Sync2
    requires k in s.u.cur && k in s.u.must
    requires UserOk(s, k) && s.u.owner[s.u.cur[k]] == Some(s.h.pc[t].w)
    ensures k in s.u.listed
  {
    var w := s.h.pc[t].w;
    ActorIsIt(s.h, t);
    assert WalkOk(s, w);
    assert Carries(s.u, w, k) ==> MoveOk(s, w);
  }

  lemma ShakeLive(s: Sys, s': Sys, step: Step)
    requires UInv(s) && ShakeStep(s, s', step) && !step.Global?
    ensures Live(s')
  {
    ToUserSide(s, s', step);
    ShakeLists(s, s', step);
    ShakeHas(s, s', step);
    HandshakeSafety.RoundProgress(s.h, s'.h, step);
    forall k | k in s'.u.cur ensures UserOk(s', k) {
      assert UserOk(s, k);
      if step.Respond? && s.h.round.kind == Sync2 && k in s.u.must && s.u.owner[s.u.cur[k]] == Some(s.h.pc[step.t].w) {
        AnsweredAll(s, s', step.t, k);
      }
    }
  }

  // ------------------------------------------------------------ from round to round

  lemma RoundOver(s: Sys, t: W, next: Phase)
    requires UInv(s) && (exists h' :: GlobalStep(s.h, h', t, next))
    ensures s.h.round.fired && s.h.round.resp == s.h.round.parts
    ensures forall w :: w in s.h.workers ==> s.h.workers[w].phase == s.h.round.kind
    ensures s.u.walks == map[]
  {
    assert ThreadOk(s.h, t);
    forall w | w in s.h.workers ensures s.h.workers[w].phase == s.h.round.kind { assert WorkerOk(s.h, w); }
    assert forall w :: w in s.u.walks ==> WalkOk(s, w);
  }

  lemma GlobalThreads(s: Sys, s': Sys, t: W, next: Phase)
    requires UInv(s) && ShakeStep(s, s', Global(t, next))
    ensures Moves(s') && Runs(s')
  {
    RoundOver(s, t, next);
    forall t' | t' in s'.u.moves ensures MoveOk(s', t') {
      assert MoveOk(s, t');
      MoverWaits(s, s', Global(t, next), t');
      MoverStays(s, s'.h, Global(t, next), t');
    }
    forall t' | t' in s'.u.run ensures RunOk(s', t') {
      RunnerStays(s, s', Global(t, next), t');
      assert RunOk(s, t');
    }
  }

  lemma GlobalInv(s: Sys, s': Sys, t: W, next: Phase)
    requires UInv(s) && ShakeStep(s, s', Global(t, next))
    ensures UInv(s')
  {
    RoundOver(s, t, next);
    HandshakeSafety.NextInv(s.h, s'.h, Global(t, next));
    ShakeLists(s, s', Global(t, next));
    ToUserSide(s, s', Global(t, next));
    ShakeHas(s, s', Global(t, next));
    GlobalThreads(s, s', t, next);
    ShakeLocks(s, s', Global(t, next));
    forall k | k in s'.u.cur ensures UserOk(s', k) { assert UserOk(s, k); }
  }

  lemma ShakeInv(s: Sys, s': Sys, step: Step)
    requires UInv(s) && ShakeStep(s, s', step)
    ensures UInv(s')
  {
    if step.Global? {
      GlobalInv(s, s', step.t, step.next);
    } else {
      HandshakeSafety.NextInv(s.h, s'.h, step);
      ShakeLists(s, s', step);
      ToUserSide(s, s', step);
      ShakeThreads(s, s', step);
      ShakeWalks(s, s', step);
      ShakeLocks(s, s', step);
      ShakeLive(s, s', step);
    }
  }

  // ------------------------------------------------------------------- whole runs

  lemma NextUInv(s: Sys, s': Sys, a: Action)
    requires UInv(s) && NextSys(s, s', a)
    ensures UInv(s')
  {
    match a
    case Shake(step) => ShakeInv(s, s', step);
    case NewUser(t, k, c) => NewUserInv(s, s', t, k, c);
    case EndUser(t) => EndUserInv(s, s', t);
    case Resume(t, k) => ResumeInv(s, s', t, k);
    case LoadPhase(t) => LoadPhaseInv(s, s', t);
    case GiveUp(t) => GiveUpInv(s, s', t);
    case TryLock(t) => TryLockInv(s, s', t);
    case Spin(t) => SpinInv(s, s', t);
    case MoveScan(t) => MoveScanInv(s, s', t);
    case Store(t) => StoreInv(s, s', t);
    case Unlock(t) => UnlockInv(s, s', t);
    case Copy(t, c) => CopyInv(s, s', t, c);
    case WalkBegin(t) => WalkBeginInv(s, s', t);
    case WalkTry(t) => WalkTryInv(s, s', t);
    case WalkCheck(t) => WalkCheckInv(s, s', t);
    case WalkScan(t) => WalkScanInv(s, s', t);
    case WalkRelease(t) => WalkReleaseInv(s, s', t);
    case WalkRefill(t) => WalkRefillInv(s, s', t);
  }

  ghost predicate MigrationRun(states: seq<Sys>, actions: seq<Action>) {
    && |states| == |actions| + 1
    && InitSys(states[0])
    && forall i :: 0 <= i < |actions| ==> NextSys(states[i], states[i + 1], actions[i])
  }

  lemma {:induction false} MigrationRunInv(states: seq<Sys>, actions: seq<Action>, i: nat)
    requires MigrationRun(states, actions) && i < |states|
    ensures UInv(states[i])
  {
    if i == 0 {
      InitInv(states[0].h);
    } else {
      MigrationRunInv(states, actions, i - 1);
      assert NextSys(states[i - 1], states[i - 1 + 1], actions[i - 1]);
      NextUInv(states[i - 1], states[i], actions[i - 1]);
    }
  }

  lemma RoundsGrow(s: Sys, s': Sys, a: Action)
    requires NextSys(s, s', a)
    ensures s.h.round.id <= s'.h.round.id
  {
    if a.Shake? { HandshakeSafety.RoundProgress(s.h, s'.h, a.step); }
  }

  ghost predicate Known(u: Users, k: User) { exists c :: c in u.of && u.of[c] == k }

  lemma ShakenUsers(s: Sys, s': Sys, step: Step, c: Ctx, k: User)
    requires s'.u == Shaken(s, step) && !step.Global?
    requires c in s.u.of && s.u.of[c] == k && (k in s.u.must || k !in s.u.cur)
    ensures c in s'.u.of && s'.u.of[c] == k && (k in s'.u.must || k !in s'.u.cur)
  {
  }

  lemma ResumeUsers(s: Sys, s': Sys, t: W, u: User, c: Ctx, k: User)
    requires ResumeStep(s, s', t, u)
    requires c in s.u.of && s.u.of[c] == k && (k in s.u.must || k !in s.u.cur)
    ensures c in s'.u.of && s'.u.of[c] == k && (k in s'.u.must || k !in s'.u.cur)
  {
  }

  lemma LoadingUsers(s: Sys, s': Sys, a: Action, c: Ctx, k: User)
    requires NextSys(s, s', a) && (a.LoadPhase? || a.GiveUp?)
    requires c in s.u.of && s.u.of[c] == k && (k in s.u.must || k !in s.u.cur)
    ensures c in s'.u.of && s'.u.of[c] == k && (k in s'.u.must || k !in s'.u.cur)
  {
  }

  lemma LockingUsers(s: Sys, s': Sys, a: Action, c: Ctx, k: User)
    requires NextSys(s, s', a) && (a.TryLock? || a.Spin? || a.MoveScan?)
    requires c in s.u.of && s.u.of[c] == k && (k in s.u.must || k !in s.u.cur)
    ensures c in s'.u.of && s'.u.of[c] == k && (k in s'.u.must || k !in s'.u.cur)
  {
  }

  lemma StoringUsers(s: Sys, s': Sys, a: Action, c: Ctx, k: User)
    requires NextSys(s, s', a) && (a.Store? || a.Unlock?)
    requires c in s.u.of && s.u.of[c] == k && (k in s.u.must || k !in s.u.cur)
    ensures c in s'.u.of && s'.u.of[c] == k && (k in s'.u.must || k !in s'.u.cur)
  {
  }

  lemma WalkingUsers(s: Sys, s': Sys, a: Action, c: Ctx, k: User)
    requires NextSys(s, s', a) && (a.WalkBegin? || a.WalkTry? || a.WalkRefill?)
    requires c in s.u.of && s.u.of[c] == k && (k in s.u.must || k !in s.u.cur)
    ensures c in s'.u.of && s'.u.of[c] == k && (k in s'.u.must || k !in s'.u.cur)
  {
    match a
    case WalkBegin(t) => assert s'.u.of == s.u.of && s'.u.must == s.u.must && s'.u.cur == s.u.cur;
    case WalkTry(t) => assert s'.u.of == s.u.of && s'.u.must == s.u.must && s'.u.cur == s.u.cur;
    case WalkRefill(t) => assert s'.u.of == s.u.of && s'.u.must == s.u.must && s'.u.cur == s.u.cur;
  }

  lemma ListingUsers(s: Sys, s': Sys, a: Action, c: Ctx, k: User)
    requires NextSys(s, s', a) && (a.WalkCheck? || a.WalkScan? || a.WalkRelease?)
    requires c in s.u.of && s.u.of[c] == k && (k in s.u.must || k !in s.u.cur)
    ensures c in s'.u.of && s'.u.of[c] == k && (k in s'.u.must || k !in s'.u.cur)
  {
  }

  lemma ChangedUsers(s: Sys, s': Sys, a: Action, c: Ctx, k: User)
    requires Tables(s) && NextSys(s, s', a) && (a.NewUser? || a.Copy? || a.EndUser?)
    requires c in s.u.of && s.u.of[c] == k && (k in s.u.must || k !in s.u.cur)
    ensures c in s'.u.of && s'.u.of[c] == k && (k in s'.u.must || k !in s'.u.cur)
  {
  }

  /** Within one round a user that must be enumerated stays so or ends for good. */
  lemma MustStays(s: Sys, s': Sys, a: Action, k: User)
    requires Tables(s) && NextSys(s, s', a) && s'.h.round.id == s.h.round.id
    requires Known(s.u, k) && (k in s.u.must || k !in s.u.cur)
    ensures Known(s'.u, k) && (k in s'.u.must || k !in s'.u.cur)
  {
    var c :| c in s.u.of && s.u.of[c] == k;
    if a.Shake? {
      ShakenUsers(s, s', a.step, c, k);
    } else if a.NewUser? || a.Copy? || a.EndUser? {
      ChangedUsers(s, s', a, c, k);
    } else if a.Resume? {
      ResumeUsers(s, s', a.t, a.k, c, k);
    } else if a.LoadPhase? || a.GiveUp? {
      LoadingUsers(s, s', a, c, k);
    } else if a.TryLock? || a.Spin? || a.MoveScan? {
      LockingUsers(s, s', a, c, k);
    } else if a.Store? || a.Unlock? {
      StoringUsers(s, s', a, c, k);
    } else if a.WalkBegin? || a.WalkTry? || a.WalkRefill? {
      WalkingUsers(s, s', a, c, k);
    } else {
      ListingUsers(s, s', a, c, k);
    }
  }

  lemma MustBegins(s: Sys, s': Sys, t: W, k: User)
    requires UInv(s) && NextSys(s, s', Shake(Global(t, Sync2))) && k in s.u.cur
    ensures Known(s'.u, k) && k in s'.u.must
  {
    assert UserOk(s, k);
    assert s'.u.of[s.u.cur[k]] == k;
  }

  lemma {:induction false} MustThroughout(states: seq<Sys>, actions: seq<Action>, t: W, j: nat, m: nat, k: User)
    requires MigrationRun(states, actions) && j < m < |states| && actions[j] == Shake(Global(t, Sync2))
    requires k in states[j].u.cur && (forall i :: 0 <= i < |states| ==> Tables(states[i])) && UInv(states[j])
    ensures states[j + 1].h.round.id <= states[m].h.round.id
    ensures states[m].h.round.id == states[j + 1].h.round.id ==>
              Known(states[m].u, k) && (k in states[m].u.must || k !in states[m].u.cur)
    decreases m
  {
    assert NextSys(states[m - 1], states[m - 1 + 1], actions[m - 1]);
    hide NextSys, UInv, Tables, Known;
    if m == j + 1 {
      MustBegins(states[j], states[m], t, k);
    } else {
      MustThroughout(states, actions, t, j, m - 1, k);
      RoundsGrow(states[m - 1], states[m], actions[m - 1]);
      if states[m].h.round.id == states[j + 1].h.round.id {
        MustStays(states[m - 1], states[m], actions[m - 1], k);
      }
    }
  }

  /** Step i of the run is the response that ends the SYNC2 round. */
  ghost predicate EndsSync2(states: seq<Sys>, actions: seq<Action>, i: nat) {
    && i < |actions| && i < |states|
    && actions[i].Shake? && actions[i].step.Respond? && states[i].h.flag == 1 && states[i].h.round.kind == Sync2
  }

  lemma CoveredAtEnd(states: seq<Sys>, actions: seq<Action>, i: nat, k: User)
    requires MigrationRun(states, actions) && EndsSync2(states, actions, i)
    requires i + 1 < |states| && k in states[i + 1].u.cur && k in states[i + 1].u.must
    ensures k in states[i + 1].u.listed
    ensures states[i + 1].h.round.id == states[i].h.round.id
  {
    var s, s' := states[i], states[i + 1];
    MigrationRunInv(states, actions, i);
    MigrationRunInv(states, actions, i + 1);
    assert NextSys(s, s', actions[i]);
    ResponseReadsOne(s.h, actions[i].step.t);
    assert UserOk(s', k);
  }

  /** Root coverage: if SYNC2 is issued at step j and answered for the last time at
      step i, then the stack of every user thread that is alive at both moments has
      been enumerated in this collection. */
  lemma RootCoverage(states: seq<Sys>, actions: seq<Action>, t: W, j: nat, i: nat, k: User)
    requires MigrationRun(states, actions) && EndsSync2(states, actions, i)
    requires j < i && actions[j] == Shake(Global(t, Sync2)) && states[j + 1].h.round.id == states[i].h.round.id
    requires k in states[j].u.cur && k in states[i + 1].u.cur
    ensures k in states[i + 1].u.listed
  {
    assert NextSys(states[i], states[i + 1], actions[i]);
    forall m | 0 <= m < |states| ensures Tables(states[m]) { MigrationRunInv(states, actions, m); }
    MigrationRunInv(states, actions, j);
    MustThroughout(states, actions, t, j, i + 1, k);
    CoveredAtEnd(states, actions, i, k);
  }

  /** A stack is never enumerated while its user runs ML code: neither by the
      action of its worker nor by sml_enter. */
  lemma StacksQuiet(states: seq<Sys>, actions: seq<Action>, i: nat, t: W, u: W)
    requires MigrationRun(states, actions) && i < |actions| && i < |states|
    requires u in states[i].u.run && u in states[i].h.pc && states[i].h.pc[u] == InML
    ensures actions[i] == WalkScan(t) && AtHead(states[i], t, Checked) ==>
              var c := states[i].u.walks[states[i].h.pc[t].w].todo[0];
              states[i].u.run[u] in states[i].u.cur && states[i].u.cur[states[i].u.run[u]] != c
    ensures actions[i] == MoveScan(t) && t in states[i].u.moves ==> states[i].u.run[u] != states[i].u.moves[t].k
  {
    var s := states[i];
    MigrationRunInv(states, actions, i);
    assert RunOk(s, u);
    if actions[i] == WalkScan(t) && AtHead(s, t, Checked) {
      WalkFacts(s, t, Checked);
    }
  }

  /** A user that arrives at a worker past its own enumeration has been enumerated
      when it is handed over, also when sml_enter only waited for the lock. */
  lemma HandedOverListed(states: seq<Sys>, actions: seq<Action>, i: nat, t: W)
    requires MigrationRun(states, actions) && i < |actions| && i < |states| && actions[i] == Store(t)
    requires t in states[i].h.workers && states[i].h.workers[t].phase in {Sync2, PreMark}
    requires t in states[i].u.moves && states[i].u.moves[t].Storing? && Risky(states[i].u.moves[t].ph)
    ensures states[i].u.moves[t].k in states[i].u.listed
  {
    MigrationRunInv(states, actions, i);
    assert MoveOk(states[i], t);
  }

  /** Enumerating a user on the way, and storing its new worker, happen only when the
      atomic migration of the marking system is allowed. */
  lemma MigrationAllowed(states: seq<Sys>, actions: seq<Action>, i: nat, t: W)
    requires MigrationRun(states, actions) && i < |actions| && i < |states|
    requires t in states[i].h.workers && t in states[i].u.moves
    ensures var s, m := states[i], states[i].u.moves[t];
            var p := s.h.workers[t].phase;
            && (actions[i] == MoveScan(t) && m.Holding? && !m.waited && m.ph == Sync2 ==> Marking.MayMigrate(p, true, false))
            && (actions[i] == Store(t) && m.Storing? ==> Marking.MayMigrate(p, false, m.k in s.u.listed))
  {
    MigrationRunInv(states, actions, i);
    assert MoveOk(states[i], t);
  }

  /** Nobody waits for a lock in vain: whoever holds the lock of a present context
      is a move under way or an action that is about to release it. */
  lemma NoLeakedLock(states: seq<Sys>, actions: seq<Action>, i: nat, t: W)
    requires MigrationRun(states, actions) && i < |states|
    requires t in states[i].u.moves && states[i].u.moves[t].Spinning?
    ensures states[i].u.moves[t].k in states[i].u.cur
    ensures var c := Cargo(states[i].u, t);
            c in states[i].u.busy && (states[i].u.busy[c] == Free || BeingListed(states[i], c))
  {
    var s := states[i];
    MigrationRunInv(states, actions, i);
    assert MoveOk(s, t);
    var c := Cargo(s.u, t);
    assert CtxOk(s, c) && UserOk(s, s.u.moves[t].k);
    assert s.u.busy[c].ByEnter? ==> UserOk(s, s.u.moves[s.u.busy[c].t].k);
  }
}
