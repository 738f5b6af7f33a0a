/** Neither side of work stealing can get stuck: sml_enter can always be completed, and so
    can the SYNC2 action. */
module MigrationProgress {
  import opened Phases
  import opened Handshake
  import opened Migration
  import opened MigrationInv
  import opened MigrationSteps
  import opened MigrationSafety
  import opened MigrationPresent
  import R = Runs
  import HandshakeProgress

  // ------------------------------------------------------------------ tidy lists

  ghost predicate NoDup(l: seq<Ctx>) { forall i, j :: 0 <= i < j < |l| ==> l[i] != l[j] }

  function All(k: Walk): seq<Ctx> { k.done + k.todo + k.pending }

  /** The action on worker w has context c locked. */
  predicate HeadOf(u: Users, w: W, c: Ctx) {
    w in u.walks && u.walks[w].hold != Nothing && u.walks[w].todo != [] && u.walks[w].todo[0] == c
  }

  /** No context is listed twice, and none that is listed has been left locked. */
  ghost predicate Neat(u: Users) {
    && (forall w {:trigger u.lists[w]} :: w in u.lists ==> NoDup(u.lists[w]))
    && (forall w {:trigger u.walks[w]} :: w in u.walks ==> NoDup(All(u.walks[w])))
    && NoLeak(u)
  }

  ghost predicate NoLeak(u: Users) {
    forall w, c {:trigger Has(u, w, c)} :: Has(u, w, c) && c in u.busy && u.busy[c].ByAction? ==> HeadOf(u, u.busy[c].w, c)
  }

  /** Lists and walks are the same, and no lock has been taken by an action. */
  ghost predicate SameLists(u: Users, u': Users) {
    && u'.lists == u.lists && u'.walks == u.walks
    && (forall c :: c in u'.busy && u'.busy[c].ByAction? ==> c in u.busy && u.busy[c] == u'.busy[c])
  }

  lemma SameNeat(u: Users, u': Users)
    requires Neat(u) && SameLists(u, u')
    ensures Neat(u')
  {
    assert forall w, c :: Has(u', w, c) ==> Has(u, w, c);
  }

  lemma EndUserSame(s: Sys, s': Sys, t: W)
    requires EndUserStep(s, s', t)
    ensures SameLists(s.u, s'.u)
  {
  }

  lemma ResumeSame(s: Sys, s': Sys, t: W, k: User)
    requires ResumeStep(s, s', t, k)
    ensures SameLists(s.u, s'.u)
  {
    hide Vacant, Away;
  }

  lemma MovingSame(s: Sys, s': Sys, a: Action)
    requires NextSys(s, s', a) && (a.LoadPhase? || a.GiveUp? || a.MoveScan? || a.Store?)
    ensures SameLists(s.u, s'.u)
  {
    hide Risky;
  }

  lemma LockSame(s: Sys, s': Sys, t: W)
    requires TryLockStep(s, s', t) || SpinStep(s, s', t)
    ensures SameLists(s.u, s'.u)
  {
  }

  lemma UnlockSame(s: Sys, s': Sys, t: W)
    requires UnlockStep(s, s', t)
    ensures SameLists(s.u, s'.u)
  {
  }

  lemma PushedNeat(s: Sys, u': Users, t: W, k: User, c: Ctx)
    requires UInv(s) && Neat(s.u) && t in s.u.lists && t !in s.u.walks && c !in s.u.owner
    requires u'.lists == s.u.lists[t := [c] + s.u.lists[t]] && u'.walks == s.u.walks && u'.busy == s.u.busy[c := Free]
    ensures Neat(u')
  {
    hide Inv, Distinct, Walks, Moves, Runs, Live, Locks;
    forall i | 0 <= i < |s.u.lists[t]| ensures s.u.lists[t][i] != c { assert Has(s.u, t, s.u.lists[t][i]); }
    forall w, d | Has(u', w, d) && d in u'.busy && u'.busy[d].ByAction? ensures HeadOf(u', u'.busy[d].w, d) {
      assert d != c && Has(s.u, w, d);
    }
  }

  /** The walk of worker w becomes k; it lists nothing new, and nothing twice. */
  ghost predicate Rewalked(u: Users, u': Users, w: W) {
    && w in u'.walks
    && u'.lists == u.lists && u'.walks == u.walks[w := u'.walks[w]]
    && NoDup(All(u'.walks[w])) && forall c :: c in All(u'.walks[w]) ==> Has(u, w, c)
  }

  lemma RewalkedHas(u: Users, u': Users, w: W)
    requires Rewalked(u, u', w)
    ensures forall v, c :: Has(u', v, c) ==> Has(u, v, c) && (v == w ==> c in All(u'.walks[w]))
  {
  }

  lemma BeginNeat(s: Sys, s': Sys, t: W)
    requires UInv(s) && Neat(s.u) && WalkBeginStep(s, s', t)
    ensures Neat(s'.u)
  {
    hide UInv, ActsOn;
    var w := s.h.pc[t].w;
    assert All(s'.u.walks[w]) == s.u.lists[w];
    RewalkedHas(s.u, s'.u, w);
  }

  lemma TryNeat(s: Sys, s': Sys, t: W)
    requires UInv(s) && Neat(s.u) && WalkTryStep(s, s', t)
    ensures Neat(s'.u)
  {
    hide UInv, ActsOn;
    var w := s.h.pc[t].w;
    var k, k' := s.u.walks[w], s'.u.walks[w];
    var c := k.todo[0];
    assert k.todo == [c] + k.todo[1..];
    if s.u.busy[c] == Free {
      RewalkedHas(s.u, s'.u, w);
    } else {
      MovedBack(k.done, k.todo, k.pending);
      RewalkedHas(s.u, s'.u, w);
    }
  }

  /** Putting the first context off changes only the order. */
  lemma MovedBack(a: seq<Ctx>, b: seq<Ctx>, c: seq<Ctx>)
    requires b != [] && NoDup(a + b + c)
    ensures NoDup(a + b[1..] + ([b[0]] + c)) && forall x :: x in a + b[1..] + ([b[0]] + c) ==> x in a + b + c
  {
    var l, l' := a + b + c, a + b[1..] + ([b[0]] + c);
    var m, n := |a|, |a| + |b| - 1;
    assert forall i :: 0 <= i < |l'| ==> l'[i] == l[if i < m then i else if i < n then i + 1 else if i == n then m else i];
    assert forall x :: x in l' ==> exists i :: 0 <= i < |l'| && l'[i] == x;
  }

  lemma MovedDone(a: seq<Ctx>, b: seq<Ctx>, c: seq<Ctx>)
    requires b != []
    ensures a + [b[0]] + b[1..] + c == a + b + c
  {
    assert b == [b[0]] + b[1..];
  }

  /** Without the first context nothing is listed twice, and it is gone. */
  lemma Removed(a: seq<Ctx>, b: seq<Ctx>, c: seq<Ctx>)
    requires b != [] && NoDup(a + b + c)
    ensures NoDup(a + b[1..] + c) && b[0] !in a + b[1..] + c && forall x :: x in a + b[1..] + c ==> x in a + b + c
  {
    var l, l' := a + b + c, a + b[1..] + c;
    assert forall i :: 0 <= i < |l'| ==> l'[i] == l[if i < |a| then i else i + 1];
    assert l[|a|] == b[0];
    assert forall x :: x in l' ==> exists i :: 0 <= i < |l'| && l'[i] == x;
  }

  lemma CheckNeat(s: Sys, s': Sys, t: W)
    requires UInv(s) && Neat(s.u) && WalkCheckStep(s, s', t)
    ensures Neat(s'.u)
  {
    var w := s.h.pc[t].w;
    var k := s.u.walks[w];
    var c := k.todo[0];
    WalkFacts(s, t, Taken);
    hide UInv, ActsOn, WalkOk;
    Removed(k.done, k.todo, k.pending);
    assert Has(s.u, w, c);
    forall v, d | Has(s'.u, v, d) && d in s'.u.busy && s'.u.busy[d].ByAction? ensures HeadOf(s'.u, s'.u.busy[d].w, d) {
      assert Has(s.u, v, d);
      if d == c { OnlyHere(s, v, w, c); }
    }
  }

  lemma OnlyHere(s: Sys, v: W, w: W, c: Ctx)
    requires UInv(s) && Has(s.u, v, c) && Has(s.u, w, c)
    ensures v == w
  {
    hide Inv, Distinct, Walks, Moves, Runs, Live, Locks;
  }

  lemma ScanNeat(s: Sys, s': Sys, t: W)
    requires Neat(s.u) && WalkScanStep(s, s', t)
    ensures Neat(s'.u)
  {
    hide ActsOn;
    var w := s.h.pc[t].w;
    RewalkedHas(s.u, s'.u, w);
  }

  lemma ReleaseNeat(s: Sys, s': Sys, t: W)
    requires UInv(s) && Neat(s.u) && WalkReleaseStep(s, s', t)
    ensures Neat(s'.u)
  {
    var w := s.h.pc[t].w;
    var k := s.u.walks[w];
    WalkFacts(s, t, Listed);
    hide UInv, ActsOn, WalkOk;
    MovedDone(k.done, k.todo, k.pending);
    assert All(s'.u.walks[w]) == All(k);
    RewalkedHas(s.u, s'.u, w);
    forall v, d | Has(s'.u, v, d) && d in s'.u.busy && s'.u.busy[d].ByAction? ensures HeadOf(s'.u, s'.u.busy[d].w, d) {
      assert Has(s.u, v, d);
    }
  }

  lemma RefillNeat(s: Sys, s': Sys, t: W)
    requires UInv(s) && Neat(s.u) && WalkRefillStep(s, s', t)
    ensures Neat(s'.u)
  {
    var w := s.h.pc[t].w;
    var k := s.u.walks[w];
    ActorIsIt(s.h, t);
    assert WalkOk(s, w);
    assert w in s.u.lists;
    hide UInv, ActsOn, WalkOk;
    assert All(s'.u.walks[w]) == All(k);
    RewalkedHas(s.u, s'.u, w);
  }

  lemma ShakeNeat(s: Sys, s': Sys, step: Step)
    requires UInv(s) && Neat(s.u) && ShakeStep(s, s', step)
    ensures Neat(s'.u)
  {
    if Answers(s, step) {
      AnswerNeat(s, s', step);
    } else {
      hide UInv, Next, Permitted, MayAnswer;
      var u, u' := s.u, s'.u;
      forall w, c | Has(u', w, c) ensures Has(u, w, c) || c !in u'.busy { }
      forall w, c | Has(u', w, c) && c in u'.busy && u'.busy[c].ByAction? ensures HeadOf(u', u'.busy[c].w, c) {
        assert Has(u, w, c);
      }
    }
  }

  /** The lists that the action has been through contain nothing that is locked by it. */
  lemma AnswerNeat(s: Sys, s': Sys, step: Step)
    requires UInv(s) && Neat(s.u) && ShakeStep(s, s', step) && Answers(s, step)
    ensures Neat(s'.u)
  {
    var w := s.h.pc[step.t].w;
    var k := s.u.walks[w];
    assert k.todo == [] && k.pending == [] && All(k) == k.done;
    hide UInv, Next, Permitted;
    forall v, c | Has(s'.u, v, c) && c in s'.u.busy && s'.u.busy[c].ByAction? ensures HeadOf(s'.u, s'.u.busy[c].w, c) {
      assert Has(s.u, v, c);
    }
  }

  // ---------------------------------------------------------- whole runs

  ghost predicate Sound(s: Sys) { UInv(s) && Neat(s.u) }

  lemma NextSound(s: Sys, s': Sys, a: Action)
    requires Sound(s) && NextSys(s, s', a)
    ensures Sound(s')
  {
    NextUInv(s, s', a);
    hide UInv, Neat;
    match a
    case Shake(step) => ShakeNeat(s, s', step);
    case NewUser(t, k, c) => NewUserNeat(s, s', t, k, c);
    case Copy(t, c) => CopyNeat(s, s', t, c);
    case WalkBegin(t) => BeginNeat(s, s', t);
    case WalkTry(t) => TryNeat(s, s', t);
    case WalkCheck(t) => CheckNeat(s, s', t);
    case WalkScan(t) => ScanNeat(s, s', t);
    case WalkRelease(t) => ReleaseNeat(s, s', t);
    case WalkRefill(t) => RefillNeat(s, s', t);
    case TryLock(t) => LockSame(s, s', t); SameNeat(s.u, s'.u);
    case Spin(t) => LockSame(s, s', t); SameNeat(s.u, s'.u);
    case Unlock(t) => UnlockSame(s, s', t); SameNeat(s.u, s'.u);
    case EndUser(t) => EndUserSame(s, s', t); SameNeat(s.u, s'.u);
    case Resume(t, k) => ResumeSame(s, s', t, k); SameNeat(s.u, s'.u);
    case _ => MovingSame(s, s', a); SameNeat(s.u, s'.u);
  }

  lemma NewUserNeat(s: Sys, s': Sys, t: W, k: User, c: Ctx)
    requires UInv(s) && Neat(s.u) && NewUserStep(s, s', t, k, c)
    ensures Neat(s'.u)
  {
    NotWalking(s, t);
    PushedNeat(s, s'.u, t, k, c);
  }

  lemma CopyNeat(s: Sys, s': Sys, t: W, c: Ctx)
    requires UInv(s) && Neat(s.u) && CopyStep(s, s', t, c)
    ensures Neat(s'.u)
  {
    assert MoveOk(s, t);
    NotWalking(s, t);
    PushedNeat(s, s'.u, t, s.u.moves[t].k, c);
  }

  lemma {:induction false} RunSound(states: seq<Sys>, actions: seq<Action>, i: nat)
    requires MigrationRun(states, actions) && i < |states|
    ensures Sound(states[i])
  {
    hide UInv, NextSys;
    MigrationRunInv(states, actions, i);
    if i > 0 {
      RunSound(states, actions, i - 1);
      assert NextSys(states[i - 1], states[i - 1 + 1], actions[i - 1]);
      NextSound(states[i - 1], states[i], actions[i - 1]);
    }
  }

  // ------------------------------------------------------- the lock of an action

  ghost predicate Leads(s: Sys, s': Sys) { R.Joined(NextSys, s, s') }

  /** The system gets there without a step of the handshake. */
  ghost predicate Comes(s: Sys, s': Sys) { Leads(s, s') && Sound(s') && s'.h == s.h }

  lemma Here(s: Sys)
    requires Sound(s)
    ensures Comes(s, s)
  {
    R.JoinedStay(NextSys, s);
  }

  lemma Go(s: Sys, s1: Sys, s': Sys, a: Action)
    requires NextSys(s, s1, a) && s1.h == s.h && Comes(s1, s')
    ensures Comes(s, s')
  {
    hide NextSys;
    R.JoinedStay(NextSys, s);
    R.JoinedThen(NextSys, s, s, s1, a);
    R.JoinedTrans(NextSys, s, s1, s');
  }

  lemma Further(s: Sys, s1: Sys, s': Sys)
    requires Comes(s, s1) && Comes(s1, s')
    ensures Comes(s, s')
  {
    hide NextSys;
    R.JoinedTrans(NextSys, s, s1, s');
  }

  function Stage(k: Walk): nat { match k.hold case Nothing => 0 case Taken => 3 case Checked => 2 case Listed => 1 }

  /** The action on w has let go of context c, which is free if it is its own. */
  ghost predicate LetGo(u: Users, u': Users, w: W, c: Ctx) {
    && w in u.walks && w in u'.walks && c in u.busy && c in u.owner
    && u' == u.(busy := u'.busy, walks := u.walks[w := u'.walks[w]], listed := u'.listed)
    && u'.busy.Keys == u.busy.Keys && (forall d :: d in u.busy && d != c ==> u'.busy[d] == u.busy[d])
    && u'.walks[w].hold == Nothing && (u.owner[c] == Some(w) ==> u'.busy[c] == Free)
    && u'.walks[w].pending == u.walks[w].pending && |u'.walks[w].todo| + 1 == |u.walks[w].todo|
  }

  /** The thread that runs the action on w. */
  lemma Runner(s: Sys, w: W) returns (t: W)
    requires UInv(s) && w in s.u.walks
    ensures t in s.h.pc && s.h.pc[t].Act? && s.h.pc[t].w == w && ActsOn(s.h, t, w)
    ensures s.u.walks[w].hold != Nothing ==> AtHead(s, t, s.u.walks[w].hold)
  {
    ActingNotInML(s, w);
    assert WalkOk(s, w);
    t := Actor(s.h, w);
  }

  /** An action that has locked a context lets go of it. */
  lemma {:induction false} LetsGo(s: Sys, w: W) returns (s': Sys)
    requires Sound(s) && w in s.u.walks && s.u.walks[w].hold != Nothing
    ensures s.u.walks[w].todo != [] && Comes(s, s') && LetGo(s.u, s'.u, w, s.u.walks[w].todo[0])
    decreases Stage(s.u.walks[w])
  {
    var t := Runner(s, w);
    var k := s.u.walks[w];
    var c := k.todo[0];
    hide UInv, Neat, ActsOn, Comes;
    if k.hold == Listed || (k.hold == Taken && s.u.owner[c] != Some(w)) {
      var a;
      a, s' := LastHold(s, t);
      NextSound(s, s', a);
      Here(s');
      Go(s, s', s', a);
    } else {
      var a, s1 := NextHold(s, t);
      NextSound(s, s1, a);
      hide LetGo;
      s' := LetsGo(s1, w);
      Go(s, s1, s', a);
      StillLetGo(s.u, s1.u, s'.u, w, c);
    }
  }

  lemma StillLetGo(u: Users, u1: Users, u': Users, w: W, c: Ctx)
    requires w in u.walks && w in u1.walks && u1 == u.(walks := u.walks[w := u1.walks[w]], listed := u1.listed)
    requires u1.walks[w].todo == u.walks[w].todo && u1.walks[w].pending == u.walks[w].pending && LetGo(u1, u', w, c)
    ensures LetGo(u, u', w, c)
  {
  }

  lemma LastHold(s: Sys, t: W) returns (a: Action, s': Sys)
    requires AtHead(s, t, Listed) || AtHead(s, t, Taken)
    requires var w := s.h.pc[t].w; s.u.walks[w].hold == Taken ==> s.u.owner[s.u.walks[w].todo[0]] != Some(w)
    ensures NextSys(s, s', a) && s'.h == s.h && LetGo(s.u, s'.u, s.h.pc[t].w, s.u.walks[s.h.pc[t].w].todo[0])
  {
    hide ActsOn;
    var w := s.h.pc[t].w;
    var k := s.u.walks[w];
    if k.hold == Listed {
      a := WalkRelease(t);
      s' := s.(u := s.u.(busy := s.u.busy[k.todo[0] := Free],
                         walks := s.u.walks[w := k.(done := k.done + [k.todo[0]], todo := k.todo[1..], hold := Nothing)]));
    } else {
      a := WalkCheck(t);
      s' := s.(u := s.u.(walks := s.u.walks[w := k.(todo := k.todo[1..], hold := Nothing)]));
    }
  }

  lemma NextHold(s: Sys, t: W) returns (a: Action, s': Sys)
    requires AtHead(s, t, Checked) || AtHead(s, t, Taken)
    requires var w := s.h.pc[t].w; s.u.walks[w].hold == Taken ==> s.u.owner[s.u.walks[w].todo[0]] == Some(w)
    ensures NextSys(s, s', a) && s'.h == s.h
    ensures var w := s.h.pc[t].w;
            var k := s.u.walks[w];
            && w in s'.u.walks && s'.u == s.u.(walks := s.u.walks[w := s'.u.walks[w]], listed := s'.u.listed)
            && s'.u.walks[w] == k.(hold := if k.hold == Taken then Checked else Listed)
  {
    hide ActsOn;
    var w := s.h.pc[t].w;
    var k := s.u.walks[w];
    if k.hold == Taken {
      a := WalkCheck(t);
      s' := s.(u := s.u.(walks := s.u.walks[w := k.(hold := Checked)]));
    } else {
      a := WalkScan(t);
      s' := s.(u := s.u.(walks := s.u.walks[w := k.(hold := Listed)], listed := s.u.listed + {s.u.of[k.todo[0]]}));
    }
  }

  // ---------------------------------------------------------- sml_enter comes to its end

  function Rank(m: Move): nat {
    match m
    case Decide(_) => 6
    case Locking(_, _) => 5
    case Spinning(_, _) => 4
    case Holding(_, _, _) => 3
    case Storing(_, _) => 2
    case Unlocking(_, _) => 1
    case Copying(_, _) => 0
  }

  /** Thread t has come a step further with its move; the others are where they were. */
  ghost predicate MovesOn(u: Users, u': Users, t: W) {
    && t in u.moves && t in u'.moves && u'.moves[t].k == u.moves[t].k && Rank(u'.moves[t]) < Rank(u.moves[t])
    && u'.moves == u.moves[t := u'.moves[t]] && u'.run == u.run && u'.cur == u.cur && u'.walks.Keys == u.walks.Keys
  }

  /** A step of sml_enter that needs no lock of somebody else: up to the lock ... */
  lemma LockStep(s: Sys, t: W) returns (a: Action, s': Sys)
    requires Moving(s, t) && Cargo(s.u, t) in s.u.busy && Rank(s.u.moves[t]) > 3
    requires s.u.moves[t].Spinning? ==> s.u.busy[Cargo(s.u, t)] == Free
    ensures NextSys(s, s', a) && s'.h == s.h && MovesOn(s.u, s'.u, t)
  {
    hide Risky;
    var m, c := s.u.moves[t], Cargo(s.u, t);
    var k := m.k;
    match m {
      case Decide(_) =>
        a := LoadPhase(t);
        var ph := s.h.workers[t].phase;
        s' := s.(u := s.u.(moves := s.u.moves[t := if Risky(ph) then Locking(k, ph) else Storing(k, ph)]));
      case Locking(_, ph) =>
        a := TryLock(t);
        s' := s.(u := if s.u.busy[c] == Free
                      then s.u.(busy := s.u.busy[c := ByEnter(t)], moves := s.u.moves[t := Holding(k, ph, false)])
                      else s.u.(moves := s.u.moves[t := Spinning(k, ph)]));
      case Spinning(_, ph) =>
        a := Spin(t);
        s' := s.(u := s.u.(busy := s.u.busy[c := ByEnter(t)], moves := s.u.moves[t := Holding(k, ph, true)]));
    }
  }

  /** ... and from there on. */
  lemma HoldingStep(s: Sys, t: W) returns (s': Sys)
    requires Moving(s, t) && s.u.moves[t].Holding?
    ensures NextSys(s, s', MoveScan(t)) && s'.h == s.h && MovesOn(s.u, s'.u, t)
  {
    var m := s.u.moves[t];
    var listed := if !m.waited && m.ph == Sync2 then s.u.listed + {m.k} else s.u.listed;
    s' := s.(u := s.u.(listed := listed, moves := s.u.moves[t := Storing(m.k, m.ph)]));
    assert MovesOn(s.u, s'.u, t) by { hide MoveScanStep, Moving; }
    hide MovesOn;
    assert MoveScanStep(s, s', t);
  }

  lemma StoringStep(s: Sys, t: W) returns (s': Sys)
    requires Moving(s, t) && s.u.moves[t].Storing?
    ensures NextSys(s, s', Store(t)) && s'.h == s.h && MovesOn(s.u, s'.u, t)
  {
    hide Risky;
    var m, c := s.u.moves[t], Cargo(s.u, t);
    s' := s.(u := s.u.(owner := s.u.owner[c := Some(t)],
                       moves := s.u.moves[t := if Risky(m.ph) then Unlocking(m.k, m.ph) else Copying(m.k, m.ph)]));
  }

  lemma UnlockingStep(s: Sys, t: W) returns (s': Sys)
    requires Moving(s, t) && s.u.moves[t].Unlocking?
    ensures NextSys(s, s', Unlock(t)) && s'.h == s.h && MovesOn(s.u, s'.u, t)
  {
    var m, c := s.u.moves[t], Cargo(s.u, t);
    s' := s.(u := s.u.(busy := s.u.busy[c := Free], moves := s.u.moves[t := Copying(m.k, m.ph)]));
  }

  /** A lock that sml_enter waits for is held by the action on the worker that still owns
      the context. */
  lemma Awaited(s: Sys, t: W) returns (w: W)
    requires UInv(s) && t in s.u.moves && s.u.moves[t].Spinning?
    ensures s.u.moves[t].k in s.u.cur && Cargo(s.u, t) in s.u.busy && Cargo(s.u, t) in s.u.owner
    ensures s.u.busy[Cargo(s.u, t)] == Free ||
            (HeadOf(s.u, w, Cargo(s.u, t)) && s.u.owner[Cargo(s.u, t)] == Some(w))
  {
    assert MoveOk(s, t);
    var c, k := Cargo(s.u, t), s.u.moves[t].k;
    assert CtxOk(s, c) && UserOk(s, k);
    assert s.u.busy[c].ByEnter? ==> UserOk(s, s.u.moves[s.u.busy[c].t].k);
    w := if s.u.busy[c].ByAction? then s.u.busy[c].w else 0;
    if s.u.busy[c] != Free { assert Has(s.u, w, c); }
  }

  lemma Waited(s: Sys, t: W) returns (s': Sys)
    requires Sound(s) && t in s.u.moves && s.u.moves[t].Spinning?
    ensures Comes(s, s') && s'.u.moves == s.u.moves && s'.u.run == s.u.run && s'.u.cur == s.u.cur
    ensures s'.u.walks.Keys == s.u.walks.Keys
    ensures s.u.moves[t].k in s'.u.cur && Cargo(s'.u, t) in s'.u.busy && s'.u.busy[Cargo(s'.u, t)] == Free
  {
    var w := Awaited(s, t);
    var c := Cargo(s.u, t);
    hide Comes;
    if s.u.busy[c] == Free {
      s' := s;
      Here(s);
    } else {
      s' := LetsGo(s, w);
    }
  }

  lemma MoveReady(s: Sys, t: W)
    requires UInv(s) && t in s.u.moves
    ensures Moving(s, t) && Cargo(s.u, t) in s.u.busy
  {
    assert MoveOk(s, t);
  }

  lemma MoveOne(s: Sys, t: W) returns (s': Sys)
    requires Sound(s) && t in s.u.moves && !s.u.moves[t].Copying?
    ensures Comes(s, s') && MovesOn(s.u, s'.u, t)
  {
    hide UInv, Neat, Comes, Moving;
    var s1 := s;
    if s.u.moves[t].Spinning? { s1 := Waited(s, t); } else { Here(s); }
    SameHandshake(s, s1);
    MoveReady(s1, t);
    var a;
    match s1.u.moves[t] {
      case Holding(_, _, _) => a := MoveScan(t); s' := HoldingStep(s1, t);
      case Storing(_, _) => a := Store(t); s' := StoringStep(s1, t);
      case Unlocking(_, _) => a := Unlock(t); s' := UnlockingStep(s1, t);
      case _ => a, s' := LockStep(s1, t);
    }
    NextSound(s1, s', a);
    Here(s');
    Go(s1, s', s', a);
    Further(s, s1, s');
  }

  /** Thread t has finished its move: it runs the user, whose new context is its own. */
  ghost predicate Arrived(u: Users, u': Users, t: W, k: User) {
    && u'.moves == u.moves - {t} && u'.run == u.run[t := k] && u'.walks.Keys == u.walks.Keys
    && Present(u', Current(u', k)) && Current(u', k) in u'.owner && u'.owner[Current(u', k)] == Some(t)
    && u'.cur.Keys == u.cur.Keys && k in u'.cur
  }

  function Current(u: Users, k: User): Ctx { if k in u.cur then u.cur[k] else 0 }

  lemma Unused(m: map<Ctx, Option<W>>) returns (c: Ctx)
    ensures c !in m
  {
    c := Bound(m.Keys);
  }

  lemma {:induction false} Bound(cs: set<Ctx>) returns (b: Ctx)
    ensures forall c :: c in cs ==> c < b
  {
    if cs == {} {
      b := 0;
    } else {
      var x :| x in cs;
      b := Bound(cs - {x});
      if b <= x { b := x + 1; }
      forall c | c in cs ensures c < b { assert c == x || c in cs - {x}; }
    }
  }

  lemma CopyArrives(s: Sys, s': Sys, t: W, c: Ctx)
    requires CopyStep(s, s', t, c)
    ensures Arrived(s.u, s'.u, t, s.u.moves[t].k)
  {
  }

  lemma CopyOne(s: Sys, t: W) returns (s': Sys, c: Ctx)
    requires Sound(s) && t in s.u.moves && s.u.moves[t].Copying?
    ensures NextSys(s, s', Copy(t, c)) && s'.h == s.h && Arrived(s.u, s'.u, t, s.u.moves[t].k)
  {
    c := Unused(s.u.owner);
    assert MoveOk(s, t);
    assert t in s.u.lists;
    hide UInv, Neat, Arrived;
    s' := s.(u := Pushed(s.u, t, s.u.moves[t].k, c).(moves := s.u.moves - {t}));
    CopyArrives(s, s', t, c);
  }

  /** sml_enter comes to its end: the user runs on the new worker. */
  lemma {:induction false} EnterEnds(s: Sys, t: W) returns (s': Sys)
    requires Sound(s) && t in s.u.moves
    ensures Comes(s, s') && Arrived(s.u, s'.u, t, s.u.moves[t].k)
    decreases Rank(s.u.moves[t])
  {
    hide UInv, Neat, Comes;
    if s.u.moves[t].Copying? {
      var c;
      s', c := CopyOne(s, t);
      NextSound(s, s', Copy(t, c));
      Here(s');
      Go(s, s', s', Copy(t, c));
    } else {
      var s1 := MoveOne(s, t);
      SameHandshake(s, s1);
      s' := EnterEnds(s1, t);
      Further(s, s1, s');
      assert s1.u.moves - {t} == s.u.moves - {t};
    }
  }

  /** If there is no memory for the new context, the user can be resumed later. */
  lemma GaveUp(s: Sys, s': Sys, t: W)
    requires UInv(s) && GiveUpStep(s, s', t)
    ensures Away(s'.u, s.u.moves[t].k) && Vacant(s', t)
  {
    assert MoveOk(s, t);
    forall t' | t' in s'.u.run ensures s'.u.run[t'] != s.u.moves[t].k { assert t' in s.u.run; }
  }

  /** All moves under way come to their end. */
  lemma {:induction false} AllEnter(s: Sys) returns (s': Sys)
    requires Sound(s)
    ensures Comes(s, s') && s'.u.moves == map[] && s'.u.walks.Keys == s.u.walks.Keys
    decreases |s.u.moves|
  {
    hide UInv, Neat, Comes;
    if t :| t in s.u.moves {
      var s1 := EnterEnds(s, t);
      SameHandshake(s, s1);
      assert |s1.u.moves| < |s.u.moves| by { OneLess(s.u.moves, t); }
      s' := AllEnter(s1);
      Further(s, s1, s');
    } else {
      s' := s;
      Here(s);
    }
  }

  lemma OneLess(m: map<W, Move>, t: W)
    requires t in m
    ensures |m - {t}| < |m|
  {
    assert (m - {t}).Keys == m.Keys - {t};
    assert |m.Keys - {t}| == |m.Keys| - 1;
    assert |m - {t}| == |(m - {t}).Keys| && |m| == |m.Keys|;
  }

  // -------------------------------------------------------- the action comes to its end

  /** The head of a walk is free when no user is being moved. */
  lemma HeadFree(s: Sys, w: W)
    requires Sound(s) && s.u.moves == map[] && w in s.u.walks && s.u.walks[w].hold == Nothing && s.u.walks[w].todo != []
    ensures var c := s.u.walks[w].todo[0]; c in s.u.busy && c in s.u.owner && c in s.u.of && s.u.busy[c] == Free
  {
    var c := s.u.walks[w].todo[0];
    assert Has(s.u, w, c);
    assert CtxOk(s, c);
    if s.u.busy[c].ByAction? {
      var v := s.u.busy[c].w;
      assert HeadOf(s.u, v, c);
      OnlyHere(s, v, w, c) by { assert Has(s.u, v, c); }
    }
  }

  /** One more context is dealt with. */
  lemma OneDone(s: Sys, w: W) returns (s': Sys)
    requires Sound(s) && s.u.moves == map[] && w in s.u.walks && s.u.walks[w].todo != []
    ensures Comes(s, s') && s'.u.moves == map[] && w in s'.u.walks
    ensures |s'.u.walks[w].todo| < |s.u.walks[w].todo| && s'.u.walks[w].pending == s.u.walks[w].pending
  {
    hide Comes;
    if s.u.walks[w].hold != Nothing {
      s' := LetsGo(s, w);
    } else {
      HeadFree(s, w);
      var t := Runner(s, w);
      hide UInv, Neat;
      var k := s.u.walks[w];
      var c := k.todo[0];
      var s1 := s.(u := s.u.(busy := s.u.busy[c := ByAction(w)], walks := s.u.walks[w := k.(hold := Taken)]));
      assert NextSys(s, s1, WalkTry(t));
      NextSound(s, s1, WalkTry(t));
      s' := LetsGo(s1, w);
      Go(s, s1, s', WalkTry(t));
    }
  }

  /** The SYNC2 action gets through its list. */
  lemma {:induction false} WalkEnds(s: Sys, w: W) returns (s': Sys)
    requires Sound(s) && s.u.moves == map[] && w in s.u.walks
    ensures Comes(s, s') && w in s'.u.walks && s'.u.walks[w].todo == [] && s'.u.walks[w].pending == []
    decreases |s.u.walks[w].todo| + |s.u.walks[w].pending|, |s.u.walks[w].pending|
  {
    hide UInv, Neat, Comes;
    var k := s.u.walks[w];
    if k.todo != [] {
      var s1 := OneDone(s, w);
      SameHandshake(s, s1);
      s' := WalkEnds(s1, w);
      Further(s, s1, s');
    } else if k.pending != [] {
      var t := Runner(s, w);
      var s1 := s.(u := s.u.(walks := s.u.walks[w := k.(todo := k.pending, pending := [])]));
      assert NextSys(s, s1, WalkRefill(t));
      NextSound(s, s1, WalkRefill(t));
      s' := WalkEnds(s1, w);
      Go(s, s1, s', WalkRefill(t));
    } else {
      s' := s;
      Here(s);
    }
  }

  /** A SYNC2 action, begun or not, whatever is being moved meanwhile, can be completed
      and answered. */
  lemma ActionEnds(s: Sys, t: W) returns (s': Sys)
    requires Sound(s) && t in s.h.pc && s.h.pc[t].Act? && s.h.round.kind == Sync2
    ensures Comes(s, s') && MayAnswer(s', Respond(t))
  {
    var w := s.h.pc[t].w;
    var s1 := Begun(s, t);
    hide UInv, Neat, Comes;
    SameHandshake(s, s1);
    var s2 := AllEnter(s1);
    SameHandshake(s1, s2);
    s' := WalkEnds(s2, w);
    Further(s1, s2, s');
    Further(s, s1, s');
    SameHandshake(s, s');
  }

  lemma Begun(s: Sys, t: W) returns (s': Sys)
    requires Sound(s) && t in s.h.pc && s.h.pc[t].Act? && s.h.round.kind == Sync2
    ensures Comes(s, s') && s.h.pc[t].w in s'.u.walks
  {
    var w := s.h.pc[t].w;
    if w in s.u.walks {
      s' := s;
      Here(s);
    } else {
      ActorIsIt(s.h, t);
      assert w in s.u.lists;
      hide UInv, Neat, Comes;
      s' := s.(u := s.u.(walks := s.u.walks[w := Walk([], s.u.lists[w], [], Nothing)]));
      assert NextSys(s, s', WalkBegin(t));
      NextSound(s, s', WalkBegin(t));
      Here(s');
      Go(s, s', s', WalkBegin(t));
    }
  }

  // --------------------------------------------------------- the round comes to its end

  /** What has to be done before the handshake can take a step. */
  lemma Prepared(s: Sys, step: Step) returns (s': Sys)
    requires Sound(s) && HandshakeProgress.GoesOn(s.h, step)
    requires step.Respond? ==> step.t in s.h.pc && s.h.pc[step.t].Act?
    ensures Comes(s, s') && Permitted(s', step) && MayAnswer(s', step)
  {
    hide Comes, Sound;
    if step.Respond? && s.h.round.kind == Sync2 {
      s' := ActionEnds(s, step.t);
    } else {
      s' := AllEnter(s);
      SameHandshake(s, s');
    }
  }

  lemma SameHandshake(s: Sys, s': Sys)
    requires Comes(s, s')
    ensures s'.h == s.h && Sound(s')
  {
  }

  /** A handshake step that brings the round closer to its end, with all that has to be
      done before it. */
  lemma OneCloser(s: Sys) returns (s': Sys)
    requires Sound(s) && HandshakeProgress.Driven(s.h) && !s.h.round.fired && !s.h.round.early
    ensures Leads(s, s') && Sound(s') && HandshakeProgress.Driven(s'.h)
    ensures HandshakeProgress.Closer(s.h, s'.h) && s'.h.round.id == s.h.round.id
  {
    var step, h' := HandshakeProgress.NoDeadlock(s.h);
    HandshakeProgress.DrivenNext(s.h, h', step);
    hide HandshakeProgress.Closer, HandshakeProgress.Driven, UInv, Neat;
    assert step.Respond? ==> step.t in s.h.pc && s.h.pc[step.t].Act?;
    var s1 := Prepared(s, step);
    hide Next, Leads;
    s' := Sys(h', Shaken(s1, step));
    assert NextSys(s1, s', Shake(step));
    NextSound(s1, s', Shake(step));
    LeadsThen(s, s1, s', Shake(step));
  }

  lemma LeadsThen(s: Sys, s1: Sys, s': Sys, a: Action)
    requires Leads(s, s1) && NextSys(s1, s', a)
    ensures Leads(s, s')
  {
    hide NextSys;
    R.JoinedThen(NextSys, s, s1, s', a);
  }

  lemma LeadsOn(s: Sys, s1: Sys, s': Sys)
    requires Leads(s, s1) && Leads(s1, s')
    ensures Leads(s, s')
  {
    hide NextSys;
    R.JoinedTrans(NextSys, s, s1, s');
  }

  /** Work stealing never gets a round stuck: from every state in which the round is not
      stuck for ever by itself, it can be brought to its end. */
  lemma {:induction false} RoundCanEnd(s: Sys) returns (s': Sys)
    requires Sound(s) && HandshakeProgress.Driven(s.h)
    ensures Leads(s, s') && s'.h.round.id == s.h.round.id && (s'.h.round.fired || s'.h.round.early)
    decreases |HandshakeProgress.Unflipped(s.h)|, !s.h.round.added, |HandshakeProgress.Unanswered(s.h)|,
              |HandshakeProgress.Signalled(s.h)|, |HandshakeProgress.Helpers(s.h)|, |HandshakeProgress.Away(s.h)|
  {
    hide Sound, HandshakeProgress.Driven, NextSys;
    if s.h.round.fired || s.h.round.early {
      s' := s;
      R.JoinedStay(NextSys, s);
    } else {
      var s1 := OneCloser(s);
      s' := RoundCanEnd(s1);
      LeadsOn(s, s1, s');
    }
  }
}
