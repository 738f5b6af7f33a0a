/** Root coverage under migration: the invariant, step by step. */
module MigrationInv {
  import opened Phases
  import opened Handshake
  import opened Migration

  // ------------------------------------------------------------------- invariant

  /** Worker w is responsible for context c. */
  predicate Has(u: Users, w: W, c: Ctx) {
    if w in u.walks then c in u.walks[w].done || c in u.walks[w].todo || c in u.walks[w].pending
    else w in u.lists && c in u.lists[w]
  }

  predicate Tables(s: Sys) {
    && s.u.busy.Keys == s.u.owner.Keys && s.u.of.Keys == s.u.owner.Keys && s.u.home.Keys == s.u.owner.Keys
    && s.u.lists.Keys == s.h.workers.Keys
  }

  predicate WalkOk(s: Sys, w: W) {
    && w in s.u.walks && w in s.h.workers && w in s.u.lists
    && s.h.round.kind == Sync2 && w in s.h.round.flipped && w !in s.h.round.resp && s.h.workers[w].phase == Sync2
    && var k := s.u.walks[w];
    && (k.hold != Nothing ==>
          && k.todo != [] && k.todo[0] in s.u.owner && k.todo[0] in s.u.busy && k.todo[0] in s.u.of
          && s.u.busy[k.todo[0]] == ByAction(w)
          && (k.hold != Taken ==> s.u.owner[k.todo[0]] == Some(w))
          && (k.hold == Listed ==> s.u.of[k.todo[0]] in s.u.listed))
    && (forall c :: c in k.done ==> c in s.u.of && s.u.of[c] in s.u.listed)
  }

  /** The worker may have been flipped since the phase was loaded, no more. */
  predicate Lag(ph: Phase, p: Phase) { p == ph || (!Pending(ph) && Pending(p) && Follows(ph, Accept(p))) }

  /** t has changed the owner, but not listed the copy yet. */
  predicate Carries(u: Users, t: W, k: User) {
    t in u.moves && u.moves[t].k == k && (u.moves[t].Unlocking? || u.moves[t].Copying?)
  }

  predicate Locked(m: Move) { m.Holding? || (m.Storing? && Risky(m.ph)) || m.Unlocking? }

  /** The lock is held by an action that will enumerate the stack or has just done so. */
  predicate BeingListed(s: Sys, c: Ctx) {
    && c in s.u.busy && s.u.busy[c].ByAction?
    && var w := s.u.busy[c].w;
    w in s.u.walks && s.u.walks[w].hold != Nothing && s.u.walks[w].todo != [] && s.u.walks[w].todo[0] == c
  }

  predicate MoveOk(s: Sys, t: W) {
    && t in s.u.moves && t in s.h.pc && t in s.h.workers && s.h.pc[t] == InML && t !in s.u.run
    && var m := s.u.moves[t];
    && m.k in s.u.cur && s.u.cur[m.k] in s.u.busy
    && (!m.Decide? ==> Lag(m.ph, s.h.workers[t].phase))
    && (m.Locking? || m.Spinning? || m.Holding? || m.Unlocking? ==> Risky(m.ph))
    && (Locked(m) ==> s.u.busy[s.u.cur[m.k]] == ByEnter(t))
    && (m.Spinning? ==> m.k in s.u.listed || BeingListed(s, s.u.cur[m.k]))
    && (m.Holding? && m.waited ==> m.k in s.u.listed)
    && ((m.Storing? || m.Unlocking? || m.Copying?) && m.ph == Sync2 ==> m.k in s.u.listed)
  }

  predicate RunOk(s: Sys, t: W) {
    && t in s.u.run && t in s.h.pc && Owns(s.h.pc[t])
    && s.u.run[t] in s.u.cur && s.u.cur[s.u.run[t]] in s.u.owner
    && s.u.owner[s.u.cur[s.u.run[t]]] == Some(t)
  }

  /** Every live user has a worker that is responsible for its stack; while SYNC2
      lasts that worker has not answered yet unless the stack has been enumerated. */
  predicate UserOk(s: Sys, k: User) {
    && k in s.u.cur && s.u.cur[k] in s.u.owner && s.u.cur[k] in s.u.of && s.u.cur[k] in s.u.home
    && var c := s.u.cur[k];
    && s.u.of[c] == k && s.u.owner[c].Some? && s.u.owner[c].value in s.u.lists
    && var w := s.u.owner[c].value;
    && (Carries(s.u, w, k) || (s.u.home[c] == w && Has(s.u, w, c)))
    && (s.h.round.kind == Sync2 && k in s.u.must && k !in s.u.listed ==>
          && w in s.h.round.parts && w !in s.h.round.resp)
  }

  predicate CtxOk(s: Sys, c: Ctx) {
    && c in s.u.busy && c in s.u.of && c in s.u.owner
    && match s.u.busy[c]
       case Free => true
       case ByEnter(t) => t in s.u.moves && Locked(s.u.moves[t]) && s.u.moves[t].k in s.u.cur && s.u.cur[s.u.moves[t].k] == c
       case ByAction(w) =>
         BeingListed(s, c) || (s.u.of[c] in s.u.cur ==> s.u.cur[s.u.of[c]] != c || Carried(s.u, c))
  }

  /** A context whose user has been taken over already: only its copy counts. */
  predicate Carried(u: Users, c: Ctx) {
    && c in u.owner && c in u.of && u.owner[c].Some? && Carries(u, u.owner[c].value, u.of[c])
    && u.moves[u.owner[c].value].Copying?
  }

  ghost predicate Distinct(s: Sys) {
    && (forall t, t' :: t in s.u.run && t' in s.u.run && s.u.run[t] == s.u.run[t'] ==> t == t')
    && (forall t, t' :: t in s.u.moves && t' in s.u.moves && s.u.moves[t].k == s.u.moves[t'].k ==> t == t')
    && (forall t, t' :: t in s.u.run && t' in s.u.moves ==> s.u.run[t] != s.u.moves[t'].k)
  }

  ghost predicate Lists(s: Sys) {
    forall w, c {:trigger Has(s.u, w, c)} :: Has(s.u, w, c) ==> c in s.u.home && s.u.home[c] == w
  }

  ghost predicate Walks(s: Sys) { forall w {:trigger WalkOk(s, w)} :: w in s.u.walks ==> WalkOk(s, w) }

  ghost predicate Moves(s: Sys) { forall t {:trigger MoveOk(s, t)} :: t in s.u.moves ==> MoveOk(s, t) }

  ghost predicate Runs(s: Sys) { forall t {:trigger RunOk(s, t)} :: t in s.u.run ==> RunOk(s, t) }

  ghost predicate Live(s: Sys) { forall k {:trigger UserOk(s, k)} :: k in s.u.cur ==> UserOk(s, k) }

  ghost predicate Locks(s: Sys) { forall c {:trigger CtxOk(s, c)} :: c in s.u.busy ==> CtxOk(s, c) }

  ghost predicate UInv(s: Sys) {
    && Inv(s.h) && Tables(s) && Distinct(s)
    && Lists(s) && Walks(s) && Moves(s) && Runs(s) && Live(s) && Locks(s)
  }

  // ---------------------------------------------------- facts about the handshake

  /** Nobody runs ML code on a worker whose action is under way. */
  lemma ActingNotInML(s: Sys, w: W)
    requires UInv(s) && w in s.u.walks
    ensures w in s.h.pc && s.h.pc[w] != InML && w !in s.u.moves
    ensures Actor(s.h, w) in s.h.pc && s.h.pc[Actor(s.h, w)].Act? && s.h.pc[Actor(s.h, w)].w == w
  {
    assert WalkOk(s, w);
    assert WorkerOk(s.h, w);
    assert ThreadOk(s.h, w);
    assert w in s.u.moves ==> MoveOk(s, w);
  }

  lemma ActorIsIt(h: State, t: W)
    requires Inv(h) && t in h.pc && h.pc[t].Act?
    ensures var w := h.pc[t].w;
            && w in h.workers && w in h.round.flipped && w !in h.round.resp && h.workers[w].phase == h.round.kind
            && w in h.pc && h.pc[w] != InML
  {
    assert ThreadOk(h, t);
    assert ThreadOk(h, h.pc[t].w);
  }

  /** The phase of a worker tells which round it can be in. */
  lemma PhaseTells(h: State, t: W)
    requires Inv(h) && t in h.workers
    ensures h.round.kind == Sync2 ==> Risky(h.workers[t].phase)
    ensures h.round.kind == Sync2 && h.workers[t].phase != Sync2 ==> t in h.round.parts && t !in h.round.resp
  {
    assert WorkerOk(h, t);
  }

  // ----------------------------------------------------------- what does not change

  /** Between s and s' only the lock and the owner of context c0 may differ, the
      move of thread t may, and more stacks may have been enumerated. */
  ghost predicate Near(s: Sys, s': Sys, t: W, c0: Ctx) {
    && s'.h == s.h && s.u.listed <= s'.u.listed
    && s' == s.(u := s.u.(busy := s'.u.busy, owner := s'.u.owner, moves := s'.u.moves, listed := s'.u.listed))
    && s'.u.busy.Keys == s.u.busy.Keys && s'.u.owner.Keys == s.u.owner.Keys && s'.u.moves.Keys == s.u.moves.Keys
    && (forall c :: c in s.u.busy && c != c0 ==> s'.u.busy[c] == s.u.busy[c])
    && (forall c :: c in s.u.owner && c != c0 ==> s'.u.owner[c] == s.u.owner[c])
    && (forall t' :: t' in s.u.moves && t' != t ==> s'.u.moves[t'] == s.u.moves[t'])
  }

  /** Thread t moves context c0 one step further. */
  ghost predicate Step(s: Sys, s': Sys, t: W, c0: Ctx) {
    && UInv(s) && Near(s, s', t, c0)
    && t in s.u.moves && s.u.moves[t].k == s'.u.moves[t].k && s.u.moves[t].k in s.u.cur && c0 == Cargo(s.u, t)
    && c0 in s.u.busy && c0 in s.u.owner
  }

  lemma OthersMove(s: Sys, s': Sys, t: W, c0: Ctx)
    requires Step(s, s', t, c0) && MoveOk(s', t)
    ensures Moves(s')
  {
    forall t' | t' in s'.u.moves ensures MoveOk(s', t') {
      if t' != t {
        assert MoveOk(s, t');
        assert UserOk(s, s.u.moves[t'].k) && UserOk(s, s.u.moves[t].k);
      }
    }
  }

  lemma OthersWalk(s: Sys, s': Sys, t: W, c0: Ctx)
    requires Step(s, s', t, c0)
    requires !s.u.busy[c0].ByAction? ||
             (s.u.busy[c0] == s'.u.busy[c0] && (s.h.round.kind == Sync2 ==> s.u.owner[c0] == s'.u.owner[c0]))
    ensures Walks(s')
  {
    forall w | w in s'.u.walks ensures WalkOk(s', w) { assert WalkOk(s, w); }
  }

  lemma OthersRun(s: Sys, s': Sys, t: W, c0: Ctx)
    requires Step(s, s', t, c0)
    ensures Runs(s') && Distinct(s') && Tables(s')
  {
    forall t' | t' in s'.u.run ensures RunOk(s', t') {
      assert RunOk(s, t') && UserOk(s, s.u.run[t']) && UserOk(s, s.u.moves[t].k);
    }
  }

  lemma OthersLive(s: Sys, s': Sys, t: W, c0: Ctx)
    requires Step(s, s', t, c0) && UserOk(s', s.u.moves[t].k)
    ensures Live(s')
  {
    forall k | k in s'.u.cur ensures UserOk(s', k) {
      assert UserOk(s, k) && UserOk(s, s.u.moves[t].k);
    }
  }

  lemma OthersLocked(s: Sys, s': Sys, t: W, c0: Ctx)
    requires Step(s, s', t, c0) && CtxOk(s', c0)
    ensures Locks(s')
  {
    forall c | c in s'.u.busy ensures CtxOk(s', c) {
      assert CtxOk(s, c);
      if c != c0 && c in s.u.of && s.u.of[c] in s.u.cur { assert UserOk(s, s.u.of[c]); }
    }
  }

  lemma StepInv(s: Sys, s': Sys, t: W, c0: Ctx)
    requires Step(s, s', t, c0)
    requires MoveOk(s', t) && UserOk(s', s.u.moves[t].k) && CtxOk(s', c0)
    requires !s.u.busy[c0].ByAction? ||
             (s.u.busy[c0] == s'.u.busy[c0] && (s.h.round.kind == Sync2 ==> s.u.owner[c0] == s'.u.owner[c0]))
    ensures UInv(s')
  {
    OthersMove(s, s', t, c0);
    OthersWalk(s, s', t, c0);
    OthersRun(s, s', t, c0);
    OthersLive(s, s', t, c0);
    OthersLocked(s, s', t, c0);
    assert Lists(s') by { assert forall w, c :: Has(s'.u, w, c) ==> Has(s.u, w, c); }
  }

  // ------------------------------------------------------------------- moving users

  /** All that is needed to know about thread t, which moves a user. */
  predicate Local(s: Sys, t: W) {
    && Moving(s, t) && MoveOk(s, t) && UserOk(s, s.u.moves[t].k)
    && var c := Cargo(s.u, t);
    && CtxOk(s, c)
    && (s.u.busy[c].ByAction? && BeingListed(s, c) ==> s.h.round.kind == Sync2)
    && (s.h.round.kind == Sync2 ==> Risky(s.h.workers[t].phase))
    && (s.h.round.kind == Sync2 && s.h.workers[t].phase != Sync2 ==> t in s.h.round.parts && t !in s.h.round.resp)
    && t in s.u.lists
  }

  predicate Locally(s: Sys, s': Sys, t: W) {
    && Moving(s, t) && MoveOk(s', t) && UserOk(s', s.u.moves[t].k)
    && var c := Cargo(s.u, t);
    && CtxOk(s', c) && c in s.u.busy && c in s.u.owner && c in s'.u.busy && c in s'.u.owner
    && (!s.u.busy[c].ByAction? || (s.u.busy[c] == s'.u.busy[c] && (s.h.round.kind == Sync2 ==> s.u.owner[c] == s'.u.owner[c])))
  }

  lemma LocalFacts(s: Sys, t: W)
    requires UInv(s) && t in s.u.moves
    ensures Local(s, t)
  {
    assert MoveOk(s, t);
    var c := Cargo(s.u, t);
    assert UserOk(s, s.u.moves[t].k) && CtxOk(s, c);
    PhaseTells(s.h, t);
    assert s.u.busy[c].ByAction? && BeingListed(s, c) ==> WalkOk(s, s.u.busy[c].w);
  }

  lemma LoadPhaseLocal(s: Sys, s': Sys, t: W)
    requires Local(s, t) && LoadPhaseStep(s, s', t)
    ensures Locally(s, s', t)
  {
  }

  lemma LoadPhaseInv(s: Sys, s': Sys, t: W)
    requires UInv(s) && LoadPhaseStep(s, s', t)
    ensures UInv(s')
  {
    LocalFacts(s, t);
    LoadPhaseLocal(s, s', t);
    StepInv(s, s', t, Cargo(s.u, t));
  }

  /** A lock that is taken on a current context is held by an action that will
      enumerate it: nobody else can be moving the same user. */
  lemma Contended(s: Sys, t: W)
    requires UInv(s) && Moving(s, t) && s.u.moves[t].Locking? && Cargo(s.u, t) in s.u.busy
    ensures s.u.busy[Cargo(s.u, t)] == Free || BeingListed(s, Cargo(s.u, t))
  {
    var c := Cargo(s.u, t);
    assert MoveOk(s, t) && CtxOk(s, c) && UserOk(s, s.u.moves[t].k);
    assert s.u.busy[c].ByEnter? ==> UserOk(s, s.u.moves[s.u.busy[c].t].k);
  }

  lemma TryLockLocal(s: Sys, s': Sys, t: W)
    requires Local(s, t) && TryLockStep(s, s', t)
    requires s.u.busy[Cargo(s.u, t)] == Free || BeingListed(s, Cargo(s.u, t))
    ensures Locally(s, s', t)
  {
  }

  lemma TryLockInv(s: Sys, s': Sys, t: W)
    requires UInv(s) && TryLockStep(s, s', t)
    ensures UInv(s')
  {
    Contended(s, t);
    LocalFacts(s, t);
    TryLockLocal(s, s', t);
    StepInv(s, s', t, Cargo(s.u, t));
  }

  lemma SpinLocal(s: Sys, s': Sys, t: W)
    requires Local(s, t) && SpinStep(s, s', t)
    ensures Locally(s, s', t)
  {
  }

  lemma SpinInv(s: Sys, s': Sys, t: W)
    requires UInv(s) && SpinStep(s, s', t)
    ensures UInv(s')
  {
    LocalFacts(s, t);
    SpinLocal(s, s', t);
    StepInv(s, s', t, Cargo(s.u, t));
  }

  lemma MoveScanLocal(s: Sys, s': Sys, t: W)
    requires Local(s, t) && MoveScanStep(s, s', t)
    ensures Locally(s, s', t)
  {
  }

  lemma MoveScanInv(s: Sys, s': Sys, t: W)
    requires UInv(s) && MoveScanStep(s, s', t)
    ensures UInv(s')
  {
    LocalFacts(s, t);
    MoveScanLocal(s, s', t);
    StepInv(s, s', t, Cargo(s.u, t));
  }

  /** The responsibility for the stack passes to the new worker, which has not
      answered SYNC2 unless the stack has been enumerated. */
  lemma StoreLocal(s: Sys, s': Sys, t: W)
    requires Local(s, t) && StoreStep(s, s', t)
    ensures Locally(s, s', t)
  {
  }

  lemma StoreInv(s: Sys, s': Sys, t: W)
    requires UInv(s) && StoreStep(s, s', t)
    ensures UInv(s')
  {
    LocalFacts(s, t);
    StoreLocal(s, s', t);
    StepInv(s, s', t, Cargo(s.u, t));
  }

  lemma UnlockLocal(s: Sys, s': Sys, t: W)
    requires Local(s, t) && UnlockStep(s, s', t)
    ensures Locally(s, s', t)
  {
  }

  lemma UnlockInv(s: Sys, s': Sys, t: W)
    requires UInv(s) && UnlockStep(s, s', t)
    ensures UInv(s')
  {
    LocalFacts(s, t);
    UnlockLocal(s, s', t);
    StepInv(s, s', t, Cargo(s.u, t));
  }
}
