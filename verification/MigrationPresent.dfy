/** Only live stacks are enumerated: a user context that its worker still owns is the
    present one of a user thread that has not ended. */
module MigrationPresent {
  import opened Phases
  import opened Handshake
  import opened Migration
  import opened MigrationInv
  import opened MigrationSteps
  import opened MigrationSafety

  /** Context c is where a live user thread is now. */
  predicate Present(u: Users, c: Ctx) { c in u.of && u.of[c] in u.cur && u.cur[u.of[c]] == c }

  /** A context owned by the worker that has it in its list is present. */
  predicate Settled(u: Users, c: Ctx) {
    c in u.owner && c in u.home && (u.owner[c] == Some(u.home[c]) ==> Present(u, c))
  }

  /** A user is moved to another worker than the one that has its context, and the
      owner is changed before the lock is released. */
  predicate Apart(u: Users, t: W) {
    && t in u.moves && u.moves[t].k in u.cur && Cargo(u, t) in u.home && Cargo(u, t) in u.owner
    && u.home[Cargo(u, t)] != t
    && (Carries(u, t, u.moves[t].k) ==> u.owner[Cargo(u, t)] == Some(t))
  }

  ghost predicate Owned(u: Users) {
    && (forall c {:trigger Settled(u, c)} :: c in u.owner ==> Settled(u, c))
    && (forall t {:trigger Apart(u, t)} :: t in u.moves ==> Apart(u, t))
  }

  // --------------------------------------------------------------------- the steps

  /** Contexts and users are the same, and no move has changed an owner. */
  ghost predicate Same(u: Users, u': Users) {
    && u'.owner == u.owner && u'.home == u.home && u'.of == u.of && u'.cur == u.cur
    && (forall t :: t in u'.moves ==> t in u.moves && u'.moves[t].k == u.moves[t].k)
    && (forall t :: t in u'.moves && Carries(u', t, u.moves[t].k) ==> Carries(u, t, u.moves[t].k))
  }

  lemma SameOwned(u: Users, u': Users)
    requires Owned(u) && Same(u, u')
    ensures Owned(u')
  {
    forall c | c in u'.owner ensures Settled(u', c) { assert Settled(u, c); }
    forall t | t in u'.moves ensures Apart(u', t) { assert Apart(u, t); }
  }

  lemma MovingSame(s: Sys, s': Sys, a: Action)
    requires NextSys(s, s', a) && (a.LoadPhase? || a.GiveUp? || a.MoveScan?)
    ensures Same(s.u, s'.u)
  {
    hide Risky;
  }

  lemma LockSame(s: Sys, s': Sys, t: W)
    requires TryLockStep(s, s', t) || SpinStep(s, s', t)
    ensures Same(s.u, s'.u)
  {
  }

  lemma UnlockSame(s: Sys, s': Sys, t: W)
    requires UnlockStep(s, s', t)
    ensures Same(s.u, s'.u)
  {
  }

  lemma WalkingSame(s: Sys, s': Sys, a: Action)
    requires NextSys(s, s', a) && (a.WalkBegin? || a.WalkTry? || a.WalkRefill?)
    ensures Same(s.u, s'.u)
  {
    hide ActsOn;
  }

  lemma ListingSame(s: Sys, s': Sys, a: Action)
    requires NextSys(s, s', a) && (a.WalkCheck? || a.WalkScan? || a.WalkRelease?)
    ensures Same(s.u, s'.u)
  {
    hide ActsOn;
  }

  lemma ShakeSame(s: Sys, s': Sys, step: Step)
    requires NextSys(s, s', Shake(step))
    ensures Same(s.u, s'.u)
  {
    hide Next, MayAnswer, Permitted, NewLists, NewWalks;
  }

  lemma NewUserOwned(s: Sys, s': Sys, t: W, k: User, c: Ctx)
    requires UInv(s) && Owned(s.u) && NewUserStep(s, s', t, k, c)
    ensures Owned(s'.u)
  {
    hide Live, Lists, Walks, Runs, Locks, Inv;
    forall d | d in s'.u.owner ensures Settled(s'.u, d) { if d != c { assert Settled(s.u, d); } }
    forall t' | t' in s'.u.moves ensures Apart(s'.u, t') { assert Apart(s.u, t') && MoveOk(s, t'); }
  }

  /** The copy takes the place of the old context, which its worker no longer owns. */
  lemma CopyOwned(s: Sys, s': Sys, t: W, c: Ctx)
    requires UInv(s) && Owned(s.u) && CopyStep(s, s', t, c)
    ensures Owned(s'.u)
  {
    hide Live, Lists, Walks, Moves, Runs, Locks, Inv;
    var k := s.u.moves[t].k;
    assert Apart(s.u, t);
    forall d | d in s'.u.owner ensures Settled(s'.u, d) { if d != c { assert Settled(s.u, d); } }
    forall t' | t' in s'.u.moves ensures Apart(s'.u, t') { assert Apart(s.u, t'); }
  }

  /** The context of a user that ends is no longer owned by anybody. */
  lemma EndUserOwned(s: Sys, s': Sys, t: W)
    requires UInv(s) && Owned(s.u) && EndUserStep(s, s', t)
    ensures Owned(s'.u)
  {
    hide Lists, Walks, Moves, Runs, Locks, Inv;
    var k := s.u.run[t];
    assert UserOk(s, k);
    forall d | d in s'.u.owner ensures Settled(s'.u, d) { assert Settled(s.u, d); }
    forall t' | t' in s'.u.moves ensures Apart(s'.u, t') { assert Apart(s.u, t') && UserOk(s, s.u.moves[t'].k); }
  }

  lemma ResumeOwned(s: Sys, s': Sys, t: W, k: User)
    requires UInv(s) && Owned(s.u) && ResumeStep(s, s', t, k)
    ensures Owned(s'.u)
  {
    hide Lists, Walks, Moves, Runs, Locks, Inv;
    assert UserOk(s, k);
    forall d | d in s'.u.owner ensures Settled(s'.u, d) { assert Settled(s.u, d); }
    forall t' | t' in s'.u.moves ensures Apart(s'.u, t') { if t' in s.u.moves { assert Apart(s.u, t'); } }
  }

  lemma StoreOwned(s: Sys, s': Sys, t: W)
    requires UInv(s) && Owned(s.u) && StoreStep(s, s', t)
    ensures Owned(s'.u)
  {
    hide Lists, Walks, Moves, Runs, Locks, Inv;
    assert Apart(s.u, t) && UserOk(s, s.u.moves[t].k);
    forall d | d in s'.u.owner ensures Settled(s'.u, d) { assert Settled(s.u, d); }
    forall t' | t' in s'.u.moves ensures Apart(s'.u, t') { assert Apart(s.u, t') && UserOk(s, s.u.moves[t'].k); }
  }

  lemma NextOwned(s: Sys, s': Sys, a: Action)
    requires UInv(s) && Owned(s.u) && NextSys(s, s', a)
    ensures Owned(s'.u)
  {
    hide UInv, Owned;
    match a
    case Shake(step) => ShakeSame(s, s', step); SameOwned(s.u, s'.u);
    case NewUser(t, k, c) => NewUserOwned(s, s', t, k, c);
    case EndUser(t) => EndUserOwned(s, s', t);
    case Resume(t, k) => ResumeOwned(s, s', t, k);
    case Store(t) => StoreOwned(s, s', t);
    case Copy(t, c) => CopyOwned(s, s', t, c);
    case LoadPhase(_) => MovingSame(s, s', a); SameOwned(s.u, s'.u);
    case GiveUp(_) => MovingSame(s, s', a); SameOwned(s.u, s'.u);
    case TryLock(t) => LockSame(s, s', t); SameOwned(s.u, s'.u);
    case Spin(t) => LockSame(s, s', t); SameOwned(s.u, s'.u);
    case MoveScan(_) => MovingSame(s, s', a); SameOwned(s.u, s'.u);
    case Unlock(t) => UnlockSame(s, s', t); SameOwned(s.u, s'.u);
    case WalkBegin(_) => WalkingSame(s, s', a); SameOwned(s.u, s'.u);
    case WalkTry(_) => WalkingSame(s, s', a); SameOwned(s.u, s'.u);
    case WalkRefill(_) => WalkingSame(s, s', a); SameOwned(s.u, s'.u);
    case _ => ListingSame(s, s', a); SameOwned(s.u, s'.u);
  }

  // ------------------------------------------------------------------- whole runs

  lemma {:induction false} RunOwned(states: seq<Sys>, actions: seq<Action>, i: nat)
    requires MigrationRun(states, actions) && i < |states|
    ensures Owned(states[i].u)
  {
    hide NextSys;
    if i > 0 {
      RunOwned(states, actions, i - 1);
      MigrationRunInv(states, actions, i - 1);
      assert NextSys(states[i - 1], states[i - 1 + 1], actions[i - 1]);
      NextOwned(states[i - 1], states[i], actions[i - 1]);
    }
  }

  /** In every state of every run the context that an action has found to be its own,
      and is about to enumerate or has just enumerated, belongs to a live user and is
      its present one. */
  lemma OnlyLiveStacks(states: seq<Sys>, actions: seq<Action>, i: nat, w: W)
    requires MigrationRun(states, actions) && i < |states|
    requires w in states[i].u.walks && states[i].u.walks[w].hold in {Checked, Listed}
    ensures states[i].u.walks[w].todo != [] && Present(states[i].u, states[i].u.walks[w].todo[0])
  {
    hide Live, Moves, Runs, Locks, Inv, Distinct;
    var s := states[i];
    MigrationRunInv(states, actions, i);
    RunOwned(states, actions, i);
    assert WalkOk(s, w);
    var c := s.u.walks[w].todo[0];
    assert Has(s.u, w, c) && Settled(s.u, c);
  }

  /** Every enumeration by a worker is of a live stack. */
  lemma ScansLiveStack(states: seq<Sys>, actions: seq<Action>, i: nat, t: W)
    requires MigrationRun(states, actions) && i < |actions| && actions[i] == WalkScan(t)
    ensures AtHead(states[i], t, Checked) && Present(states[i].u, states[i].u.walks[states[i].h.pc[t].w].todo[0])
  {
    assert NextSys(states[i], states[i + 1], actions[i]);
    OnlyLiveStacks(states, actions, i, states[i].h.pc[t].w);
  }

  /** The check of the owner decides exactly: the context stays iff it is the present
      one of a live user and is not just being copied by another worker. */
  lemma CheckDecides(states: seq<Sys>, actions: seq<Action>, i: nat, t: W)
    requires MigrationRun(states, actions) && i < |actions| && actions[i] == WalkCheck(t)
    ensures AtHead(states[i], t, Taken)
    ensures var u, w := states[i].u, states[i].h.pc[t].w;
            var c, k' := u.walks[w].todo[0], states[i + 1].u.walks;
            w in k' && (if Present(u, c) && !Carried(u, c) then k'[w].hold == Checked && k'[w].todo == u.walks[w].todo
                        else k'[w].hold == Nothing && k'[w].todo == u.walks[w].todo[1..])
  {
    hide Live, Moves, Runs, Locks, Inv, Distinct;
    var s := states[i];
    MigrationRunInv(states, actions, i);
    RunOwned(states, actions, i);
    assert NextSys(s, states[i + 1], actions[i]);
    var w := s.h.pc[t].w;
    WalkFacts(s, t, Taken);
    DroppedIsCarried(s, t);
    assert Settled(s.u, s.u.walks[w].todo[0]);
    ActingNotInML(s, w);
  }

  /** The user has existed and has ended. */
  ghost predicate Ended(u: Users, k: User) { Known(u, k) && k !in u.cur }

  lemma EndedWhenChanged(s: Sys, s': Sys, a: Action, c: Ctx, k: User)
    requires NextSys(s, s', a) && (a.NewUser? || a.EndUser? || a.Copy?)
    requires Tables(s) && c in s.u.of && s.u.of[c] == k && k !in s.u.cur
    ensures c in s'.u.of && s'.u.of[c] == k && k !in s'.u.cur
  {
    hide Vacant;
  }

  /** Users and what belongs to them are the same. */
  predicate SameUsers(u: Users, u': Users) { u'.of == u.of && u'.cur == u.cur }

  lemma ResumeUsers(s: Sys, s': Sys, t: W, k: User)
    requires ResumeStep(s, s', t, k)
    ensures SameUsers(s.u, s'.u)
  {
    hide Vacant, Away;
  }

  lemma StoreUsers(s: Sys, s': Sys, t: W)
    requires StoreStep(s, s', t)
    ensures SameUsers(s.u, s'.u)
  {
    hide Risky, Moving;
  }

  lemma EndedStays(s: Sys, s': Sys, a: Action, k: User)
    requires Tables(s) && NextSys(s, s', a) && Ended(s.u, k)
    ensures Ended(s'.u, k)
  {
    hide UInv, ShakeStep, NewUserStep, EndUserStep, ResumeStep, StoreStep, CopyStep, TryLockStep, SpinStep, UnlockStep;
    hide LoadPhaseStep, GiveUpStep, MoveScanStep, WalkBeginStep, WalkTryStep, WalkCheckStep, WalkScanStep, WalkReleaseStep, WalkRefillStep;
    var c :| c in s.u.of && s.u.of[c] == k;
    match a
    case Shake(step) => ShakeSame(s, s', step);
    case LoadPhase(_) => MovingSame(s, s', a);
    case GiveUp(_) => MovingSame(s, s', a);
    case MoveScan(_) => MovingSame(s, s', a);
    case TryLock(t) => LockSame(s, s', t);
    case Spin(t) => LockSame(s, s', t);
    case Unlock(t) => UnlockSame(s, s', t);
    case WalkBegin(_) => WalkingSame(s, s', a);
    case WalkTry(_) => WalkingSame(s, s', a);
    case WalkCheck(_) => ListingSame(s, s', a);
    case WalkScan(_) => ListingSame(s, s', a);
    case WalkRelease(_) => ListingSame(s, s', a);
    case WalkRefill(_) => WalkingSame(s, s', a);
    case Resume(t, j) => ResumeUsers(s, s', t, j);
    case Store(t) => StoreUsers(s, s', t);
    case _ => EndedWhenChanged(s, s', a, c, k);
  }

  lemma {:induction false} EndedForGood(states: seq<Sys>, actions: seq<Action>, j: nat, i: nat, k: User)
    requires MigrationRun(states, actions) && j <= i < |states| && Ended(states[j].u, k)
    ensures Ended(states[i].u, k)
    decreases i
  {
    hide NextSys, Ended, UInv;
    if j < i {
      EndedForGood(states, actions, j, i - 1, k);
      MigrationRunInv(states, actions, i - 1);
      assert NextSys(states[i - 1], states[i - 1 + 1], actions[i - 1]);
      EndedStays(states[i - 1], states[i], actions[i - 1], k);
    }
  }

  /** The stack of a user thread is never enumerated by a worker after the thread has
      ended. */
  lemma NeverAfterTheEnd(states: seq<Sys>, actions: seq<Action>, j: nat, i: nat, t: W, t': W)
    requires MigrationRun(states, actions) && j < i < |actions|
    requires actions[j] == EndUser(t) && actions[i] == WalkScan(t')
    ensures t in states[j].u.run && states[j].u.run[t] !in states[i].u.cur
    ensures AtHead(states[i], t', Checked)
    ensures states[i].u.of[states[i].u.walks[states[i].h.pc[t'].w].todo[0]] != states[j].u.run[t]
  {
    hide Lists, Walks, Moves, Runs, Locks, Inv, Distinct;
    assert NextSys(states[j], states[j + 1], actions[j]);
    MigrationRunInv(states, actions, j);
    var k := states[j].u.run[t];
    assert UserOk(states[j], k);
    assert states[j + 1].u.of[states[j].u.cur[k]] == k;
    EndedForGood(states, actions, j + 1, i, k);
    ScansLiveStack(states, actions, i, t');
  }
}
