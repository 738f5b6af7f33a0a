/** Work stealing against root-set enumeration.

    A user thread that comes back to ML code on another worker is moved there by
    sml_enter, while the worker that had it may be in the middle of its SYNC2
    action, walking its list of user contexts.  Both sides synchronise on the
    BUSY flag of the context.  Every load, store and lock attempt of either side
    is a step of its own, interleaved with the handshake. */
module Migration {
  import opened Phases
  import opened Handshake

  type Ctx = nat   // a user context (struct sml_user)
  type User = nat  // a user thread with its stack

  /** The BUSY flag; who holds it is history. */
  datatype Lock = Free | ByAction(w: W) | ByEnter(t: W)

  /** What the SYNC2 action does to the head of its remaining list. */
  datatype Hold = Nothing | Taken | Checked | Listed

  /** A SYNC2 action under way: contexts dealt with, contexts to come (the first
      one is the current one), and contexts put off because they were locked. */
  datatype Walk = Walk(done: seq<Ctx>, todo: seq<Ctx>, pending: seq<Ctx>, hold: Hold)

  /** Where sml_enter is with a user that came from another worker; `ph` is the
      phase it loaded before it decided whether to lock. */
  datatype Move =
    | Decide(k: User)
    | Locking(k: User, ph: Phase)
    | Spinning(k: User, ph: Phase)
    | Holding(k: User, ph: Phase, waited: bool)
    | Storing(k: User, ph: Phase)
    | Unlocking(k: User, ph: Phase)
    | Copying(k: User, ph: Phase)

  datatype Users = Users(
    owner: map<Ctx, Option<W>>,   // user->worker; None when the thread has ended
    busy: map<Ctx, Lock>,
    of: map<Ctx, User>,           // history: whose context it is
    home: map<Ctx, W>,            // history: the worker that has it in its list
    lists: map<W, seq<Ctx>>,      // worker->users
    walks: map<W, Walk>,          // SYNC2 actions under way, by worker
    cur: map<User, Ctx>,          // the live user threads and their present contexts
    run: map<W, User>,            // worker->current_user
    moves: map<W, Move>,          // sml_enter under way, by worker
    listed: set<User>,            // history: stacks enumerated in this collection
    must: set<User>)              // history: live user threads when SYNC2 was issued

  datatype Sys = Sys(h: State, u: Users)

  datatype Action =
    | Shake(step: Step)
    | NewUser(t: W, k: User, c: Ctx) | EndUser(t: W) | Resume(t: W, k: User)
    | LoadPhase(t: W) | GiveUp(t: W) | TryLock(t: W) | Spin(t: W) | MoveScan(t: W)
    | Store(t: W) | Unlock(t: W) | Copy(t: W, c: Ctx)
    | WalkBegin(t: W) | WalkTry(t: W) | WalkCheck(t: W) | WalkScan(t: W) | WalkRelease(t: W) | WalkRefill(t: W)

  predicate InitSys(s: Sys) {
    Init(s.h) && s.u == Users(map[], map[], map[], map[], map[], map[], map[], map[], map[], {}, {})
  }

  /** The phases in which some worker may be in its SYNC2 action. */
  predicate Risky(ph: Phase) { Code(Sync1) <= Code(ph) <= Code(Sync2) }

  // ---------------------------------------------------------------- user threads

  /** Thread t runs in ML code without a user: between enter_worker and the point
      where sml_start or sml_enter has set current_user. */
  predicate Vacant(s: Sys, t: W) {
    t in s.h.pc && t in s.h.workers && s.h.pc[t] == InML && t !in s.u.run && t !in s.u.moves
  }

  function Pushed(u: Users, t: W, k: User, c: Ctx): Users
    requires t in u.lists
  {
    u.(owner := u.owner[c := Some(t)], busy := u.busy[c := Free], of := u.of[c := k], home := u.home[c := t],
       lists := u.lists[t := [c] + u.lists[t]], cur := u.cur[k := c], run := u.run[t := k])
  }

  ghost predicate NewUserStep(s: Sys, s': Sys, t: W, k: User, c: Ctx) {
    && Vacant(s, t) && c !in s.u.owner && t in s.u.lists
    && k !in s.u.cur && (forall d :: d in s.u.of ==> s.u.of[d] != k)
    && s' == s.(u := Pushed(s.u, t, k, c).(must := s.u.must - {k}))
  }

  predicate EndUserStep(s: Sys, s': Sys, t: W) {
    && t in s.h.pc && s.h.pc[t] == InML && t in s.u.run && s.u.run[t] in s.u.cur
    && var k := s.u.run[t];
    s' == s.(u := s.u.(owner := s.u.owner[s.u.cur[k] := None], cur := s.u.cur - {k}, run := s.u.run - {t}))
  }

  /** User k is not running and nobody is moving it. */
  ghost predicate Away(u: Users, k: User) {
    && k in u.cur
    && (forall t :: t in u.run ==> u.run[t] != k)
    && (forall t :: t in u.moves ==> u.moves[t].k != k)
  }

  ghost predicate ResumeStep(s: Sys, s': Sys, t: W, k: User) {
    && Vacant(s, t) && Away(s.u, k) && s.u.cur[k] in s.u.owner
    && s' == s.(u := if s.u.owner[s.u.cur[k]] == Some(t) then s.u.(run := s.u.run[t := k])
                     else s.u.(moves := s.u.moves[t := Decide(k)]))
  }

  // ------------------------------------------------------------- sml_enter, moving

  predicate Moving(s: Sys, t: W) {
    t in s.u.moves && t in s.h.workers && s.u.moves[t].k in s.u.cur
  }

  /** The context that thread t is moving. */
  function Cargo(u: Users, t: W): Ctx
    requires t in u.moves && u.moves[t].k in u.cur
  {
    u.cur[u.moves[t].k]
  }

  predicate LoadPhaseStep(s: Sys, s': Sys, t: W) {
    && Moving(s, t) && s.u.moves[t].Decide?
    && var k, ph := s.u.moves[t].k, s.h.workers[t].phase;
    s' == s.(u := s.u.(moves := s.u.moves[t := if Risky(ph) then Locking(k, ph) else Storing(k, ph)]))
  }

  /** No memory for the new context: leave and try again later. */
  predicate GiveUpStep(s: Sys, s': Sys, t: W) {
    && Moving(s, t) && s.u.moves[t].Decide?
    && s' == s.(u := s.u.(moves := s.u.moves - {t}))
  }

  predicate TryLockStep(s: Sys, s': Sys, t: W) {
    && Moving(s, t) && s.u.moves[t].Locking?
    && var m, c := s.u.moves[t], Cargo(s.u, t);
    && c in s.u.busy
    && s' == s.(u := if s.u.busy[c] == Free
                     then s.u.(busy := s.u.busy[c := ByEnter(t)], moves := s.u.moves[t := Holding(m.k, m.ph, false)])
                     else s.u.(moves := s.u.moves[t := Spinning(m.k, m.ph)]))
  }

  predicate SpinStep(s: Sys, s': Sys, t: W) {
    && Moving(s, t) && s.u.moves[t].Spinning?
    && var m, c := s.u.moves[t], Cargo(s.u, t);
    && c in s.u.busy && s.u.busy[c] == Free
    && s' == s.(u := s.u.(busy := s.u.busy[c := ByEnter(t)], moves := s.u.moves[t := Holding(m.k, m.ph, true)]))
  }

  /** The stack is enumerated here if the lock was free and this worker is past
      its own enumeration. */
  predicate MoveScanStep(s: Sys, s': Sys, t: W) {
    && Moving(s, t) && s.u.moves[t].Holding?
    && var m := s.u.moves[t];
    s' == s.(u := s.u.(listed := if !m.waited && m.ph == Sync2 then s.u.listed + {m.k} else s.u.listed,
                       moves := s.u.moves[t := Storing(m.k, m.ph)]))
  }

  predicate StoreStep(s: Sys, s': Sys, t: W) {
    && Moving(s, t) && s.u.moves[t].Storing?
    && var m, c := s.u.moves[t], Cargo(s.u, t);
    s' == s.(u := s.u.(owner := s.u.owner[c := Some(t)],
                       moves := s.u.moves[t := if Risky(m.ph) then Unlocking(m.k, m.ph) else Copying(m.k, m.ph)]))
  }

  predicate UnlockStep(s: Sys, s': Sys, t: W) {
    && Moving(s, t) && s.u.moves[t].Unlocking?
    && var m, c := s.u.moves[t], Cargo(s.u, t);
    s' == s.(u := s.u.(busy := s.u.busy[c := Free], moves := s.u.moves[t := Copying(m.k, m.ph)]))
  }

  predicate CopyStep(s: Sys, s': Sys, t: W, c: Ctx) {
    && Moving(s, t) && s.u.moves[t].Copying? && c !in s.u.owner && t in s.u.lists
    && s' == s.(u := Pushed(s.u, t, s.u.moves[t].k, c).(moves := s.u.moves - {t}))
  }

  // ------------------------------------------------------------- the SYNC2 action

  predicate ActsOn(h: State, t: W, w: W) {
    t in h.pc && h.pc[t].Act? && h.pc[t].w == w && h.round.kind == Sync2
  }

  predicate WalkBeginStep(s: Sys, s': Sys, t: W) {
    && t in s.h.pc && s.h.pc[t].Act?
    && var w := s.h.pc[t].w;
    && ActsOn(s.h, t, w) && w in s.u.lists && w !in s.u.walks
    && s' == s.(u := s.u.(walks := s.u.walks[w := Walk([], s.u.lists[w], [], Nothing)]))
  }

  /** Thread t is at the head of the remaining list with lock status `hold`. */
  predicate AtHead(s: Sys, t: W, hold: Hold) {
    && t in s.h.pc && s.h.pc[t].Act?
    && var w := s.h.pc[t].w;
    && ActsOn(s.h, t, w) && w in s.u.walks && s.u.walks[w].todo != [] && s.u.walks[w].hold == hold
    && s.u.walks[w].todo[0] in s.u.owner && s.u.walks[w].todo[0] in s.u.busy && s.u.walks[w].todo[0] in s.u.of
  }

  /** The lock attempt; a locked context is put off. */
  predicate WalkTryStep(s: Sys, s': Sys, t: W) {
    && AtHead(s, t, Nothing)
    && var w := s.h.pc[t].w;
    && var k := s.u.walks[w];
    && var c := k.todo[0];
    s' == s.(u := if s.u.busy[c] == Free
                  then s.u.(busy := s.u.busy[c := ByAction(w)], walks := s.u.walks[w := k.(hold := Taken)])
                  else s.u.(walks := s.u.walks[w := k.(todo := k.todo[1..], pending := [c] + k.pending)]))
  }

  /** A context that no longer belongs to this worker is thrown away, locked as it is. */
  predicate WalkCheckStep(s: Sys, s': Sys, t: W) {
    && AtHead(s, t, Taken)
    && var w := s.h.pc[t].w;
    && var k := s.u.walks[w];
    s' == s.(u := s.u.(walks := s.u.walks[w :=
      if s.u.owner[k.todo[0]] != Some(w) then k.(todo := k.todo[1..], hold := Nothing) else k.(hold := Checked)]))
  }

  predicate WalkScanStep(s: Sys, s': Sys, t: W) {
    && AtHead(s, t, Checked)
    && var w := s.h.pc[t].w;
    && var k := s.u.walks[w];
    s' == s.(u := s.u.(walks := s.u.walks[w := k.(hold := Listed)], listed := s.u.listed + {s.u.of[k.todo[0]]}))
  }

  predicate WalkReleaseStep(s: Sys, s': Sys, t: W) {
    && AtHead(s, t, Listed)
    && var w := s.h.pc[t].w;
    && var k := s.u.walks[w];
    && var c := k.todo[0];
    s' == s.(u := s.u.(busy := s.u.busy[c := Free],
                       walks := s.u.walks[w := k.(done := k.done + [c], todo := k.todo[1..], hold := Nothing)]))
  }

  predicate WalkRefillStep(s: Sys, s': Sys, t: W) {
    && t in s.h.pc && s.h.pc[t].Act?
    && var w := s.h.pc[t].w;
    && ActsOn(s.h, t, w) && w in s.u.walks && s.u.walks[w].todo == [] && s.u.walks[w].pending != []
    && s' == s.(u := s.u.(walks := s.u.walks[w := s.u.walks[w].(todo := s.u.walks[w].pending, pending := [])]))
  }

  // ------------------------------------------------------------- handshake steps

  /** The thread that takes a handshake step is not inside sml_enter. */
  predicate Permitted(s: Sys, step: Step) {
    match step
    case CheckAccept(t) => t !in s.u.moves
    case Leave(t) => t !in s.u.moves
    case HelpTake(t, _) => t !in s.u.moves
    case StartGc(t, _) => t !in s.u.moves
    case _ => true
  }

  /** The worker that step answers SYNC2 for, having been through its list. */
  predicate Answers(s: Sys, step: Step) {
    step.Respond? && s.h.round.kind == Sync2 && step.t in s.h.pc && s.h.pc[step.t].Act? && s.h.pc[step.t].w in s.u.walks
  }

  function NewLists(s: Sys, step: Step): map<W, seq<Ctx>> {
    if step.Register? then s.u.lists[step.t := []]
    else if Answers(s, step) then s.u.lists[s.h.pc[step.t].w := s.u.walks[s.h.pc[step.t].w].done]
    else s.u.lists
  }

  function NewWalks(s: Sys, step: Step): map<W, Walk> {
    if Answers(s, step) then s.u.walks - {s.h.pc[step.t].w} else s.u.walks
  }

  /** What a handshake step does to the users. */
  function Shaken(s: Sys, step: Step): Users {
    s.u.(lists := NewLists(s, step), walks := NewWalks(s, step),
         run := if step.Leave? then s.u.run - {step.t} else s.u.run,
         listed := if step.Global? && step.next == Sync1 then {} else s.u.listed,
         must := if step.Global? && step.next == Sync2 then s.u.cur.Keys else s.u.must)
  }

  /** A worker answers SYNC2 when it has been through its list. */
  predicate MayAnswer(s: Sys, step: Step) {
    step.Respond? && s.h.round.kind == Sync2 ==>
      && step.t in s.h.pc && s.h.pc[step.t].Act?
      && var w := s.h.pc[step.t].w;
      w in s.u.walks && s.u.walks[w].todo == [] && s.u.walks[w].pending == []
  }

  predicate ShakeStep(s: Sys, s': Sys, step: Step) {
    Next(s.h, s'.h, step) && Permitted(s, step) && MayAnswer(s, step) && s'.u == Shaken(s, step)
  }

  ghost predicate NextSys(s: Sys, s': Sys, a: Action) {
    match a
    case Shake(step) => ShakeStep(s, s', step)
    case NewUser(t, k, c) => NewUserStep(s, s', t, k, c)
    case EndUser(t) => EndUserStep(s, s', t)
    case Resume(t, k) => ResumeStep(s, s', t, k)
    case LoadPhase(t) => LoadPhaseStep(s, s', t)
    case GiveUp(t) => GiveUpStep(s, s', t)
    case TryLock(t) => TryLockStep(s, s', t)
    case Spin(t) => SpinStep(s, s', t)
    case MoveScan(t) => MoveScanStep(s, s', t)
    case Store(t) => StoreStep(s, s', t)
    case Unlock(t) => UnlockStep(s, s', t)
    case Copy(t, c) => CopyStep(s, s', t, c)
    case WalkBegin(t) => WalkBeginStep(s, s', t)
    case WalkTry(t) => WalkTryStep(s, s', t)
    case WalkCheck(t) => WalkCheckStep(s, s', t)
    case WalkScan(t) => WalkScanStep(s, s', t)
    case WalkRelease(t) => WalkReleaseStep(s, s', t)
    case WalkRefill(t) => WalkRefillStep(s, s', t)
  }
}
