/** The steps that attach and detach users, and the SYNC2 action itself. */
module MigrationSteps {
  import opened Phases
  import opened Handshake
  import opened Migration
  import opened MigrationInv

  // --------------------------------------------------------- starting and stopping

  /** Only `run` and the set of moves that hold no lock differ. */
  ghost predicate SameContexts(s: Sys, s': Sys) {
    && s'.h == s.h && s' == s.(u := s.u.(run := s'.u.run, moves := s'.u.moves))
    && (forall t :: t in s.u.moves && !s.u.moves[t].Decide? ==> t in s'.u.moves && s'.u.moves[t] == s.u.moves[t])
    && (forall t :: t in s'.u.moves && !s'.u.moves[t].Decide? ==> t in s.u.moves)
  }

  lemma SameContextsInv(s: Sys, s': Sys)
    requires UInv(s) && SameContexts(s, s') && Moves(s') && Runs(s') && Distinct(s')
    ensures UInv(s')
  {
    assert Lists(s') by { assert forall w, c :: Has(s'.u, w, c) ==> Has(s.u, w, c); }
    forall w | w in s'.u.walks ensures WalkOk(s', w) { assert WalkOk(s, w); }
    forall k | k in s'.u.cur ensures UserOk(s', k) { assert UserOk(s, k); }
    forall c | c in s'.u.busy ensures CtxOk(s', c) { assert CtxOk(s, c); }
  }

  lemma ResumeInv(s: Sys, s': Sys, t: W, k: User)
    requires UInv(s) && ResumeStep(s, s', t, k)
    ensures UInv(s')
  {
    assert UserOk(s, k);
    forall t' | t' in s'.u.moves ensures MoveOk(s', t') { if t' in s.u.moves { assert MoveOk(s, t'); } }
    forall t' | t' in s'.u.run ensures RunOk(s', t') { if t' in s.u.run { assert RunOk(s, t'); } }
    SameContextsInv(s, s');
  }

  lemma GiveUpInv(s: Sys, s': Sys, t: W)
    requires UInv(s) && GiveUpStep(s, s', t)
    ensures UInv(s')
  {
    forall t' | t' in s'.u.moves ensures MoveOk(s', t') { assert MoveOk(s, t'); }
    forall t' | t' in s'.u.run ensures RunOk(s', t') { assert RunOk(s, t'); }
    SameContextsInv(s, s');
  }

  /** A new context c for user k at the head of the list of worker t. */
  ghost predicate Gains(s: Sys, s': Sys, t: W, k: User, c: Ctx) {
    && UInv(s) && c !in s.u.owner && t in s.u.lists && t in s.h.pc && s.h.pc[t] == InML && t !in s.u.run
    && s' == s.(u := Pushed(s.u, t, k, c).(moves := s.u.moves - {t}, must := s'.u.must))
    && (forall t' :: t' in s.u.run ==> s.u.run[t'] != k)
    && (forall t' :: t' in s.u.moves ==> (t' == t <==> s.u.moves[t'].k == k))
    && (t in s.u.moves ==> s.u.moves[t].Copying?)
  }

  lemma NotWalking(s: Sys, t: W)
    requires UInv(s) && t in s.h.pc && s.h.pc[t] == InML
    ensures t !in s.u.walks
  {
    if t in s.u.walks { ActingNotInML(s, t); }
  }

  lemma GainLists(s: Sys, s': Sys, t: W, k: User, c: Ctx)
    requires Gains(s, s', t, k, c) && t !in s.u.walks
    ensures Lists(s')
  {
    forall w, d | Has(s'.u, w, d) ensures d in s'.u.home && s'.u.home[d] == w {
      if w != t || d != c { assert Has(s.u, w, d); }
    }
  }

  lemma GainWalks(s: Sys, s': Sys, t: W, k: User, c: Ctx)
    requires Gains(s, s', t, k, c) && t !in s.u.walks
    ensures Walks(s') && Tables(s')
  {
    forall w | w in s'.u.walks ensures WalkOk(s', w) { assert WalkOk(s, w); }
  }

  lemma GainThreads(s: Sys, s': Sys, t: W, k: User, c: Ctx)
    requires Gains(s, s', t, k, c)
    ensures Moves(s') && Runs(s') && Distinct(s')
  {
    forall t' | t' in s'.u.moves ensures MoveOk(s', t') { assert MoveOk(s, t'); }
    forall t' | t' in s'.u.run ensures RunOk(s', t') { if t' != t { assert RunOk(s, t'); } }
  }

  lemma GainLive(s: Sys, s': Sys, t: W, k: User, c: Ctx)
    requires Gains(s, s', t, k, c) && t !in s.u.walks
    requires s'.u.must <= s.u.must && UserOk(s', k)
    ensures Live(s')
  {
    forall k' | k' in s'.u.cur ensures UserOk(s', k') {
      if k' != k {
        assert UserOk(s, k');
        var w := s.u.owner[s.u.cur[k']].value;
        assert Has(s.u, w, s.u.cur[k']) ==> Has(s'.u, w, s.u.cur[k']);
      }
    }
  }

  lemma GainLocks(s: Sys, s': Sys, t: W, k: User, c: Ctx)
    requires Gains(s, s', t, k, c)
    ensures Locks(s')
  {
    forall d | d in s'.u.busy ensures CtxOk(s', d) {
      if d != c { assert CtxOk(s, d); }
    }
  }

  lemma NewUserInv(s: Sys, s': Sys, t: W, k: User, c: Ctx)
    requires UInv(s) && NewUserStep(s, s', t, k, c)
    ensures UInv(s')
  {
    assert s.u.moves - {t} == s.u.moves;
    forall t' | t' in s.u.run ensures s.u.run[t'] != k { assert RunOk(s, t'); }
    forall t' | t' in s.u.moves ensures s.u.moves[t'].k != k { assert MoveOk(s, t'); }
    NotWalking(s, t);
    GainLists(s, s', t, k, c);
    GainWalks(s, s', t, k, c);
    GainThreads(s, s', t, k, c);
    assert Has(s'.u, t, c);
    GainLive(s, s', t, k, c);
    GainLocks(s, s', t, k, c);
  }

  lemma CopyInv(s: Sys, s': Sys, t: W, c: Ctx)
    requires UInv(s) && CopyStep(s, s', t, c)
    ensures UInv(s')
  {
    var k := s.u.moves[t].k;
    assert MoveOk(s, t) && UserOk(s, k);
    PhaseTells(s.h, t);
    NotWalking(s, t);
    GainLists(s, s', t, k, c);
    GainWalks(s, s', t, k, c);
    GainThreads(s, s', t, k, c);
    assert Has(s'.u, t, c);
    CopyLive(s, s', t, c);
    GainLive(s, s', t, k, c);
    GainLocks(s, s', t, k, c);
  }

  /** If the stack has still to be enumerated, the new worker has not answered. */
  lemma CopyLive(s: Sys, s': Sys, t: W, c: Ctx)
    requires UInv(s) && CopyStep(s, s', t, c) && Has(s'.u, t, c)
    ensures UserOk(s', s.u.moves[t].k)
  {
    assert MoveOk(s, t) && UserOk(s, s.u.moves[t].k);
    PhaseTells(s.h, t);
  }

  lemma EndUserInv(s: Sys, s': Sys, t: W)
    requires UInv(s) && EndUserStep(s, s', t)
    ensures UInv(s')
  {
    assert RunOk(s, t);
    EndUserThreads(s, s', t);
    EndUserContexts(s, s', t);
    assert Lists(s') by { assert forall w, c :: Has(s'.u, w, c) ==> Has(s.u, w, c); }
    forall k' | k' in s'.u.cur ensures UserOk(s', k') { assert UserOk(s, k') && UserOk(s, s.u.run[t]); }
  }

  lemma EndUserContexts(s: Sys, s': Sys, t: W)
    requires UInv(s) && EndUserStep(s, s', t)
    ensures Walks(s') && Locks(s')
  {
    assert RunOk(s, t) && UserOk(s, s.u.run[t]);
    NotWalking(s, t);
    forall w | w in s'.u.walks ensures WalkOk(s', w) { assert WalkOk(s, w); }
    forall c | c in s'.u.busy ensures CtxOk(s', c) { assert CtxOk(s, c); }
  }

  lemma EndUserThreads(s: Sys, s': Sys, t: W)
    requires UInv(s) && EndUserStep(s, s', t)
    ensures Moves(s') && Runs(s') && Distinct(s')
  {
    var k := s.u.run[t];
    assert RunOk(s, t) && UserOk(s, k);
    forall t' | t' in s'.u.moves ensures MoveOk(s', t') { assert MoveOk(s, t'); }
    forall t' | t' in s'.u.run ensures RunOk(s', t') { assert RunOk(s, t') && UserOk(s, s.u.run[t']); }
  }

  // --------------------------------------------------------------- the SYNC2 action

  /** The action on worker w changes its walk, the lock of the context at its head
      and the set of enumerated stacks. */
  ghost predicate Walking(s: Sys, s': Sys, w: W, c0: Ctx) {
    && UInv(s) && s'.h == s.h && s.u.listed <= s'.u.listed && w in s.u.lists && w in s.h.pc && s.h.pc[w] != InML
    && s' == s.(u := s.u.(busy := s'.u.busy, walks := s'.u.walks, listed := s'.u.listed))
    && s'.u.busy.Keys == s.u.busy.Keys && s'.u.walks.Keys == s.u.walks.Keys + {w}
    && (forall c :: c in s.u.busy && c != c0 ==> s'.u.busy[c] == s.u.busy[c])
    && (forall v :: v in s.u.walks && v != w ==> s'.u.walks[v] == s.u.walks[v])
    && c0 in s.u.busy && c0 in s.u.of && c0 in s.u.home && s.u.home[c0] == w
    && WalkOk(s', w) && CtxOk(s', c0)
    && (s.u.busy[c0] == s'.u.busy[c0] || s'.u.busy[c0] == ByAction(w) || s.u.busy[c0] == ByAction(w))
    && !(s.u.busy[c0].ByEnter? && s'.u.busy[c0] != s.u.busy[c0])
    && (forall c :: c != c0 ==> (BeingListed(s, c) <==> BeingListed(s', c)))
    && (BeingListed(s, c0) && s.u.of[c0] in s.u.cur && s.u.cur[s.u.of[c0]] == c0 ==>
          BeingListed(s', c0) || s.u.of[c0] in s'.u.listed || Carried(s.u, c0))
    && (forall c :: Has(s'.u, w, c) ==> Has(s.u, w, c))
    && (forall c :: Has(s.u, w, c) ==> Has(s'.u, w, c) || (c in s.u.owner && s.u.owner[c] != Some(w)))
  }

  lemma WalkingLists(s: Sys, s': Sys, w: W, c0: Ctx)
    requires Walking(s, s', w, c0)
    ensures Lists(s') && Tables(s') && Runs(s') && Distinct(s')
  {
    forall v, c | Has(s'.u, v, c) ensures c in s'.u.home && s'.u.home[c] == v {
      assert Has(s.u, v, c);
    }
    forall t | t in s'.u.run ensures RunOk(s', t) { assert RunOk(s, t); }
  }

  lemma WalkingWalks(s: Sys, s': Sys, w: W, c0: Ctx)
    requires Walking(s, s', w, c0)
    ensures Walks(s')
  {
    forall v | v in s'.u.walks ensures WalkOk(s', v) {
      if v != w {
        assert WalkOk(s, v);
        assert s.u.walks[v].hold != Nothing ==> Has(s.u, v, s.u.walks[v].todo[0]);
      }
    }
  }

  lemma WalkingMoves(s: Sys, s': Sys, w: W, c0: Ctx)
    requires Walking(s, s', w, c0)
    ensures Moves(s')
  {
    forall t | t in s'.u.moves ensures MoveOk(s', t) {
      assert MoveOk(s, t) && UserOk(s, s.u.moves[t].k);
    }
  }

  lemma WalkingLive(s: Sys, s': Sys, w: W, c0: Ctx)
    requires Walking(s, s', w, c0)
    ensures Live(s') && Locks(s')
  {
    forall k | k in s'.u.cur ensures UserOk(s', k) {
      assert UserOk(s, k);
      var v := s.u.owner[s.u.cur[k]].value;
      assert Has(s.u, v, s.u.cur[k]) ==> Has(s'.u, v, s.u.cur[k]);
    }
    forall c | c in s'.u.busy ensures CtxOk(s', c) { assert CtxOk(s, c); }
  }

  lemma WalkingInv(s: Sys, s': Sys, w: W, c0: Ctx)
    requires Walking(s, s', w, c0)
    ensures UInv(s')
  {
    WalkingLists(s, s', w, c0);
    WalkingWalks(s, s', w, c0);
    WalkingMoves(s, s', w, c0);
    WalkingLive(s, s', w, c0);
  }

  lemma WalkFacts(s: Sys, t: W, hold: Hold)
    requires UInv(s) && AtHead(s, t, hold)
    ensures var w := s.h.pc[t].w;
            && w in s.u.lists && w in s.h.pc && s.h.pc[w] != InML && WalkOk(s, w)
            && var c := s.u.walks[w].todo[0];
            && CtxOk(s, c) && c in s.u.home && s.u.home[c] == w
            && (s.u.of[c] in s.u.cur && s.u.cur[s.u.of[c]] == c ==> UserOk(s, s.u.of[c]))
  {
    var w := s.h.pc[t].w;
    ActorIsIt(s.h, t);
    assert WalkOk(s, w) && CtxOk(s, s.u.walks[w].todo[0]) && Has(s.u, w, s.u.walks[w].todo[0]);
  }

  lemma WalkBeginInv(s: Sys, s': Sys, t: W)
    requires UInv(s) && WalkBeginStep(s, s', t)
    ensures UInv(s')
  {
    var w := s.h.pc[t].w;
    ActorIsIt(s.h, t);
    assert Lists(s') by {
      forall v, c | Has(s'.u, v, c) ensures c in s'.u.home && s'.u.home[c] == v { assert Has(s.u, v, c); }
    }
    forall v | v in s'.u.walks ensures WalkOk(s', v) { if v != w { assert WalkOk(s, v); } }
    WalkBeginThreads(s, s', t);
  }

  lemma WalkBeginThreads(s: Sys, s': Sys, t: W)
    requires UInv(s) && WalkBeginStep(s, s', t)
    ensures Moves(s') && Runs(s') && Live(s') && Locks(s')
  {
    forall t | t in s'.u.moves ensures MoveOk(s', t) { assert MoveOk(s, t); }
    forall t | t in s'.u.run ensures RunOk(s', t) { assert RunOk(s, t); }
    forall k | k in s'.u.cur ensures UserOk(s', k) {
      assert UserOk(s, k);
      var v := s.u.owner[s.u.cur[k]].value;
      assert Has(s.u, v, s.u.cur[k]) ==> Has(s'.u, v, s.u.cur[k]);
    }
    forall c | c in s'.u.busy ensures CtxOk(s', c) { assert CtxOk(s, c); }
  }

  /** A free context is locked by the action. */
  lemma WalkLocks(s: Sys, s': Sys, t: W)
    requires UInv(s) && WalkTryStep(s, s', t) && s.u.busy[s.u.walks[s.h.pc[t].w].todo[0]] == Free
    ensures UInv(s')
  {
    hide Live, Runs, Moves, Inv;
    var w := s.h.pc[t].w;
    WalkFacts(s, t, Nothing);
    WalkingInv(s, s', w, s.u.walks[w].todo[0]);
  }

  /** A locked one is put off. */
  lemma WalkPutsOff(s: Sys, s': Sys, t: W)
    requires UInv(s) && WalkTryStep(s, s', t) && s.u.busy[s.u.walks[s.h.pc[t].w].todo[0]] != Free
    ensures UInv(s')
  {
    hide Live, Runs, Moves, Locks, Distinct, Inv;
    var w := s.h.pc[t].w;
    WalkFacts(s, t, Nothing);
    var k := s.u.walks[w];
    assert k.todo == [k.todo[0]] + k.todo[1..];
    WalkingInv(s, s', w, k.todo[0]);
  }

  lemma WalkTryInv(s: Sys, s': Sys, t: W)
    requires UInv(s) && WalkTryStep(s, s', t)
    ensures UInv(s')
  {
    if s.u.busy[s.u.walks[s.h.pc[t].w].todo[0]] == Free { WalkLocks(s, s', t); } else { WalkPutsOff(s, s', t); }
  }

  /** A context is dropped only if it is no longer the present one of its user, or
      is just being replaced by a copy. */
  lemma DroppedIsCarried(s: Sys, t: W)
    requires UInv(s) && AtHead(s, t, Taken)
    ensures var w := s.h.pc[t].w;
            var c := s.u.walks[w].todo[0];
            s.u.owner[c] != Some(w) && s.u.of[c] in s.u.cur && s.u.cur[s.u.of[c]] == c ==> Carried(s.u, c)
  {
    var w := s.h.pc[t].w;
    WalkFacts(s, t, Taken);
    var c := s.u.walks[w].todo[0];
    if s.u.owner[c] != Some(w) && s.u.of[c] in s.u.cur && s.u.cur[s.u.of[c]] == c {
      assert MoveOk(s, s.u.owner[c].value);
    }
  }

  lemma WalkCheckInv(s: Sys, s': Sys, t: W)
    requires UInv(s) && WalkCheckStep(s, s', t)
    ensures UInv(s')
  {
    var w := s.h.pc[t].w;
    WalkFacts(s, t, Taken);
    DroppedIsCarried(s, t);
    var k := s.u.walks[w];
    assert k.todo == [k.todo[0]] + k.todo[1..];
    WalkingInv(s, s', w, k.todo[0]);
  }

  lemma WalkScanInv(s: Sys, s': Sys, t: W)
    requires UInv(s) && WalkScanStep(s, s', t)
    ensures UInv(s')
  {
    var w := s.h.pc[t].w;
    WalkFacts(s, t, Checked);
    WalkingInv(s, s', w, s.u.walks[w].todo[0]);
  }

  lemma WalkReleaseInv(s: Sys, s': Sys, t: W)
    requires UInv(s) && WalkReleaseStep(s, s', t)
    ensures UInv(s')
  {
    var w := s.h.pc[t].w;
    WalkFacts(s, t, Listed);
    var k := s.u.walks[w];
    assert k.todo == [k.todo[0]] + k.todo[1..];
    WalkingInv(s, s', w, k.todo[0]);
  }

  lemma WalkRefillInv(s: Sys, s': Sys, t: W)
    requires UInv(s) && WalkRefillStep(s, s', t)
    ensures UInv(s')
  {
    var w := s.h.pc[t].w;
    ActorIsIt(s.h, t);
    assert WalkOk(s, w);
    var c := s.u.walks[w].pending[0];
    assert Has(s.u, w, c);
    assert CtxOk(s, c);
    WalkingInv(s, s', w, c);
  }
}
