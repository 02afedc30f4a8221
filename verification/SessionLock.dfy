/**
  The login protocol on the leased lock: both state machines side by side. A login or clean-up
  starts to try, tries and gives up as `LeasedLock` says; the try that succeeds, and the release,
  are steps of both.
*/
module SessionLock {
  import opened SessionLogin
  import Lease = LeasedLock

  datatype Joint = Joint(st: State, lk: Lease.State)

  datatype Move =
    | Local(step: Step)                    // a transition that leaves the lock alone
    | Lock(attempt: Lease.Step)            // the clock, a purge, or trying without success
    | Take(h: Holder)
    | LetGo(h: Holder, sent: bool)

  predicate Waits(st: State, h: Holder, u: Uid) {
    match h
    case LoginOn(v) =>
      v in st.logins && st.logins[v].sid in st.sessions && st.logins[v].uid == u && st.logins[v].at.AwaitLock?
    case CleanupBy(t) =>
      t in st.cleanups && st.cleanups[t].sid in st.sessions && st.cleanups[t].uid == u && st.cleanups[t].at.WaitLock?
  }

  predicate Inside(st: State, h: Holder, u: Uid) {
    match h
    case LoginOn(v) =>
      v in st.logins && st.logins[v].sid in st.sessions && st.logins[v].uid == u && LoginInside(st.logins[v].at)
    case CleanupBy(t) =>
      && t in st.cleanups && st.cleanups[t].sid in st.sessions && st.cleanups[t].uid == u
      && CleanupInside(st.cleanups[t].at)
  }

  /** The one whose transition this is. */
  predicate Of(step: Step, h: Holder) {
    match h
    case LoginOn(v) => (step.LoginStep? || step.LoginWithoutLock? || step.AbortLogin?) && step.server == v
    case CleanupBy(t) => step.CleanupStep? && step.task == t
  }

  function StepOf(h: Holder): Step {
    match h
    case LoginOn(v) => LoginStep(v, 0)
    case CleanupBy(t) => CleanupStep(t, true)
  }

  predicate Trying(lk: Lease.State, h: Holder) { h in lk.clients && lk.clients[h].Trying? }

  ghost predicate Allowed(j: Joint, m: Move) {
    match m
    case Local(step) =>
      && Enabled(j.st, step) && !TouchesLock(j.st, step)
      && forall h | Trying(j.lk, h) :: !Of(step, h)
    case Lock(step) =>
      && Lease.Enabled(j.lk, step) && !step.Release?
      && (step.Start? ==> Waits(j.st, step.client, step.name))
      && (step.TrySet? ==> Lease.Present(j.lk, j.lk.clients[step.client].name) || !step.replied)
    case Take(h) =>
      && Trying(j.lk, h) && Waits(j.st, h, j.lk.clients[h].name) && !Lease.Present(j.lk, j.lk.clients[h].name)
    case LetGo(h, _) => Enabled(j.st, StepOf(h)) && TouchesLock(j.st, StepOf(h)) && !IsWaiting(j.st, h)
  }

  predicate IsWaiting(st: State, h: Holder) {
    match h
    case LoginOn(v) => v in st.logins && st.logins[v].at.AwaitLock?
    case CleanupBy(t) => t in st.cleanups && st.cleanups[t].at.WaitLock?
  }

  /** The process goes on with the lock, whoever the protocol thinks has it. */
  function Taken(st: State, h: Holder, u: Uid): State
    requires Waits(st, h, u)
  {
    var held := st.(lock := st.lock[u := h]);
    match h
    case LoginOn(v) => GoLogin(held, v, ReadIp)
    case CleanupBy(t) => GoCleanup(held, t, ReadSession)
  }

  ghost function NextJoint(j: Joint, m: Move): Joint
    requires Allowed(j, m)
  {
    match m
    case Local(step) => Joint(Next(j.st, step), j.lk)
    case Lock(step) => Joint(j.st, Lease.Next(j.lk, step))
    case Take(h) => Joint(Taken(j.st, h, j.lk.clients[h].name), Lease.Next(j.lk, Lease.TrySet(h, true)))
    case LetGo(h, sent) =>
      Joint(Next(j.st, StepOf(h)),
            if h in j.lk.clients && j.lk.clients[h].Holding? then Lease.Next(j.lk, Lease.Release(h, sent)) else j.lk)
  }

  /** Whatever answer a try gets, it is a move, and one that the lease makes. */
  lemma TriesAreMoves(j: Joint, h: Holder, replied: bool) returns (m: Move)
    requires Trying(j.lk, h) && Waits(j.st, h, j.lk.clients[h].name)
    ensures Allowed(j, m) && NextJoint(j, m).lk == Lease.Next(j.lk, Lease.TrySet(h, replied))
    ensures Lease.Present(j.lk, j.lk.clients[h].name) || !replied ==> NextJoint(j, m).st == j.st
  {
    m := if Lease.Present(j.lk, j.lk.clients[h].name) || !replied then Lock(Lease.TrySet(h, replied)) else Take(h);
  }

  /** A run in which no lease ends before its holder releases it. */
  ghost predicate Run(run: seq<Joint>, moves: seq<Move>) {
    && |run| == |moves| + 1 && Init(run[0].st) && Lease.Init(run[0].lk)
    && (forall i | 0 <= i < |moves| :: Allowed(run[i], moves[i]) && run[i + 1] == NextJoint(run[i], moves[i]))
    && forall i | 0 <= i < |run| :: Lease.Prompt(run[i].lk)
  }

  /** The protocol's lock is the lease, and everyone is where its client says. */
  ghost predicate Matches(j: Joint, h: Holder, u: Uid) {
    && ((u in j.st.lock && j.st.lock[u] == h) <==> Lease.Holds(j.lk, h, u))
    && (Lease.Holds(j.lk, h, u) ==> Inside(j.st, h, u))
    && (Trying(j.lk, h) && j.lk.clients[h].name == u ==> Waits(j.st, h, u))
  }

  ghost predicate JointInv(j: Joint) { Lease.Inv(j.lk) && forall h, u :: Matches(j, h, u) }

  lemma LocalKeeps(st: State, step: Step, h: Holder, u: Uid)
    requires Enabled(st, step) && !TouchesLock(st, step)
    ensures Next(st, step).lock == st.lock
    ensures Inside(st, h, u) ==> Inside(Next(st, step), h, u)
    ensures Waits(st, h, u) && !Of(step, h) ==> Waits(Next(st, step), h, u)
  {
    if step.LoginStep? {
      LoginKeeps(st, step.server, step.token, h, u);
    } else if step.CleanupStep? {
      CleanupKeeps(st, step.task, step.replied, h, u);
    } else {
      RequestKeeps(st, step, h, u);
    }
  }

  lemma RequestKeeps(st: State, step: Step, h: Holder, u: Uid)
    requires Enabled(st, step) && !step.LoginStep? && !step.CleanupStep?
    ensures Next(st, step).lock == st.lock
    ensures Inside(st, h, u) ==> Inside(Next(st, step), h, u)
    ensures Waits(st, h, u) && !Of(step, h) ==> Waits(Next(st, step), h, u)
  {
  }

  lemma LoginKeeps(st: State, v: Server, token: Token, h: Holder, u: Uid)
    requires Enabled(st, LoginStep(v, token)) && !TouchesLock(st, LoginStep(v, token))
    ensures NextLogin(st, v, token).lock == st.lock
    ensures Inside(st, h, u) ==> Inside(NextLogin(st, v, token), h, u)
    ensures Waits(st, h, u) && !Of(LoginStep(v, token), h) ==> Waits(NextLogin(st, v, token), h, u)
  {
    match st.logins[v].at {
      case TokenRead | IssueToken => LoginEndsKeep(st, v, token, h, u);
      case ReadIp | Lookup(_) => LoginFindKeeps(st, v, token, h, u);
      case Evict(_, _) | Erasing(_, _) => LoginKickKeeps(st, v, token, h, u);
      case Bind | SetIp => LoginBindKeeps(st, v, token, h, u);
      case AddUser | SetSession => LoginNameKeeps(st, v, token, h, u);
    }
  }

  lemma LoginEndsKeep(st: State, v: Server, token: Token, h: Holder, u: Uid)
    requires Enabled(st, LoginStep(v, token)) && (st.logins[v].at.TokenRead? || st.logins[v].at.IssueToken?)
    ensures NextLogin(st, v, token).lock == st.lock
    ensures Inside(st, h, u) ==> Inside(NextLogin(st, v, token), h, u)
    ensures Waits(st, h, u) && !Of(LoginStep(v, token), h) ==> Waits(NextLogin(st, v, token), h, u)
  {
  }

  lemma LoginFindKeeps(st: State, v: Server, token: Token, h: Holder, u: Uid)
    requires Enabled(st, LoginStep(v, token)) && (st.logins[v].at.ReadIp? || st.logins[v].at.Lookup?)
    ensures NextLogin(st, v, token).lock == st.lock
    ensures Inside(st, h, u) ==> Inside(NextLogin(st, v, token), h, u)
    ensures Waits(st, h, u) && !Of(LoginStep(v, token), h) ==> Waits(NextLogin(st, v, token), h, u)
  {
  }

  lemma LoginKickKeeps(st: State, v: Server, token: Token, h: Holder, u: Uid)
    requires Enabled(st, LoginStep(v, token)) && (st.logins[v].at.Evict? || st.logins[v].at.Erasing?)
    ensures NextLogin(st, v, token).lock == st.lock
    ensures Inside(st, h, u) ==> Inside(NextLogin(st, v, token), h, u)
    ensures Waits(st, h, u) && !Of(LoginStep(v, token), h) ==> Waits(NextLogin(st, v, token), h, u)
  {
  }

  lemma LoginBindKeeps(st: State, v: Server, token: Token, h: Holder, u: Uid)
    requires Enabled(st, LoginStep(v, token)) && (st.logins[v].at.Bind? || st.logins[v].at.SetIp?)
    ensures NextLogin(st, v, token).lock == st.lock
    ensures Inside(st, h, u) ==> Inside(NextLogin(st, v, token), h, u)
    ensures Waits(st, h, u) && !Of(LoginStep(v, token), h) ==> Waits(NextLogin(st, v, token), h, u)
  {
  }

  lemma LoginNameKeeps(st: State, v: Server, token: Token, h: Holder, u: Uid)
    requires Enabled(st, LoginStep(v, token)) && (st.logins[v].at.AddUser? || st.logins[v].at.SetSession?)
    ensures NextLogin(st, v, token).lock == st.lock
    ensures Inside(st, h, u) ==> Inside(NextLogin(st, v, token), h, u)
    ensures Waits(st, h, u) && !Of(LoginStep(v, token), h) ==> Waits(NextLogin(st, v, token), h, u)
  {
  }

  lemma CleanupKeeps(st: State, t: Task, replied: bool, h: Holder, u: Uid)
    requires Enabled(st, CleanupStep(t, replied)) && !TouchesLock(st, CleanupStep(t, replied))
    ensures NextCleanup(st, t, replied).lock == st.lock
    ensures Inside(st, h, u) ==> Inside(NextCleanup(st, t, replied), h, u)
    ensures Waits(st, h, u) && !Of(CleanupStep(t, replied), h) ==> Waits(NextCleanup(st, t, replied), h, u)
  {
    match st.cleanups[t].at {
      case WaitLock | ReadSession => CleanupReadKeeps(st, t, replied, h, u);
      case DelSession | DelIp | DelToken => CleanupDeleteKeeps(st, t, replied, h, u);
      case Clear(_) | Erase(_) => CleanupClearKeeps(st, t, replied, h, u);
    }
  }

  lemma CleanupReadKeeps(st: State, t: Task, replied: bool, h: Holder, u: Uid)
    requires Enabled(st, CleanupStep(t, replied)) && !TouchesLock(st, CleanupStep(t, replied))
    requires st.cleanups[t].at.WaitLock? || st.cleanups[t].at.ReadSession?
    ensures NextCleanup(st, t, replied).lock == st.lock
    ensures Inside(st, h, u) ==> Inside(NextCleanup(st, t, replied), h, u)
    ensures Waits(st, h, u) && !Of(CleanupStep(t, replied), h) ==> Waits(NextCleanup(st, t, replied), h, u)
  {
  }

  lemma CleanupDeleteKeeps(st: State, t: Task, replied: bool, h: Holder, u: Uid)
    requires Enabled(st, CleanupStep(t, replied)) && !TouchesLock(st, CleanupStep(t, replied))
    requires st.cleanups[t].at.DelSession? || st.cleanups[t].at.DelIp? || st.cleanups[t].at.DelToken?
    ensures NextCleanup(st, t, replied).lock == st.lock
    ensures Inside(st, h, u) ==> Inside(NextCleanup(st, t, replied), h, u)
    ensures Waits(st, h, u) && !Of(CleanupStep(t, replied), h) ==> Waits(NextCleanup(st, t, replied), h, u)
  {
  }

  lemma CleanupClearKeeps(st: State, t: Task, replied: bool, h: Holder, u: Uid)
    requires Enabled(st, CleanupStep(t, replied)) && !TouchesLock(st, CleanupStep(t, replied))
    requires st.cleanups[t].at.Clear? || st.cleanups[t].at.Erase?
    ensures NextCleanup(st, t, replied).lock == st.lock
    ensures Inside(st, h, u) ==> Inside(NextCleanup(st, t, replied), h, u)
    ensures Waits(st, h, u) && !Of(CleanupStep(t, replied), h) ==> Waits(NextCleanup(st, t, replied), h, u)
  {
  }

  // ---------------------------------------------------------------- the joint invariant

  lemma LocalInv(j: Joint, step: Step)
    requires JointInv(j) && Allowed(j, Local(step))
    ensures JointInv(NextJoint(j, Local(step)))
  {
    var j' := NextJoint(j, Local(step));
    forall h, u ensures Matches(j', h, u) {
      assert Matches(j, h, u);
      LocalKeeps(j.st, step, h, u);
    }
  }

  lemma LockInv(j: Joint, attempt: Lease.Step)
    requires JointInv(j) && Allowed(j, Lock(attempt))
    ensures JointInv(NextJoint(j, Lock(attempt)))
  {
    var j' := NextJoint(j, Lock(attempt));
    Lease.NextInv(j.lk, attempt);
    forall h, u ensures Matches(j', h, u) {
      assert Matches(j, h, u);
    }
  }

  /** Who takes the lock finds it free: a holder inside its lease would keep the key present. */
  lemma TakeFindsFree(j: Joint, h: Holder)
    requires JointInv(j) && Lease.Prompt(j.lk) && Allowed(j, Take(h))
    ensures j.lk.clients[h].name !in j.st.lock
    ensures Enabled(j.st, StepOf(h)) && Next(j.st, StepOf(h)) == Taken(j.st, h, j.lk.clients[h].name)
  {
    var u := j.lk.clients[h].name;
    if u in j.st.lock {
      var h' := j.st.lock[u];
      assert Matches(j, h', u);
      assert Lease.InLease(j.lk, h', u);
    }
  }

  lemma TakenKeeps(st: State, h: Holder, u: Uid, h': Holder, u': Uid)
    requires Waits(st, h, u)
    ensures Inside(Taken(st, h, u), h, u) && Taken(st, h, u).lock == st.lock[u := h]
    ensures h' != h && Inside(st, h', u') ==> Inside(Taken(st, h, u), h', u')
    ensures h' != h && Waits(st, h', u') ==> Waits(Taken(st, h, u), h', u')
  {
  }

  lemma TakeInv(j: Joint, h: Holder)
    requires JointInv(j) && Lease.Prompt(j.lk) && Allowed(j, Take(h))
    ensures JointInv(NextJoint(j, Take(h)))
  {
    var j', u := NextJoint(j, Take(h)), j.lk.clients[h].name;
    Lease.NextInv(j.lk, Lease.TrySet(h, true));
    TakeFindsFree(j, h);
    forall h', u' ensures Matches(j', h', u') {
      assert Matches(j, h', u');
      TakenKeeps(j.st, h, u, h', u');
    }
  }

  /** The user of the one whose transition releases the lock. */
  function UserOf(st: State, h: Holder): Uid
    requires Enabled(st, StepOf(h))
  {
    match h
    case LoginOn(v) => st.logins[v].uid
    case CleanupBy(t) => st.cleanups[t].uid
  }

  lemma ReleasedKeeps(j: Joint, h: Holder, h': Holder, u': Uid)
    requires Enabled(j.st, StepOf(h)) && TouchesLock(j.st, StepOf(h)) && !IsWaiting(j.st, h)
    ensures Next(j.st, StepOf(h)).lock == SessionLogin.Free(j.st.lock, UserOf(j.st, h), h)
    ensures h' != h && Inside(j.st, h', u') ==> Inside(Next(j.st, StepOf(h)), h', u')
    ensures h' != h && Waits(j.st, h', u') ==> Waits(Next(j.st, StepOf(h)), h', u')
    ensures Inside(j.st, h, u') ==> u' == UserOf(j.st, h)
    ensures !Waits(j.st, h, u')
  {
  }

  lemma ReleaseInv(j: Joint, h: Holder, sent: bool)
    requires JointInv(j) && Allowed(j, LetGo(h, sent))
    ensures JointInv(NextJoint(j, LetGo(h, sent)))
  {
    var j', u := NextJoint(j, LetGo(h, sent)), UserOf(j.st, h);
    if h in j.lk.clients && j.lk.clients[h].Holding? {
      Lease.NextInv(j.lk, Lease.Release(h, sent));
    }
    assert Matches(j, h, u);
    forall h', u' ensures Matches(j', h', u') {
      assert Matches(j, h', u');
      ReleasedKeeps(j, h, h', u');
    }
  }

  lemma MoveInv(j: Joint, m: Move)
    requires JointInv(j) && Lease.Prompt(j.lk) && Allowed(j, m)
    ensures JointInv(NextJoint(j, m))
  {
    match m {
      case Local(step) => LocalInv(j, step);
      case Lock(attempt) => LockInv(j, attempt);
      case Take(h) => TakeInv(j, h);
      case LetGo(h, sent) => ReleaseInv(j, h, sent);
    }
  }

  lemma {:induction false} RunInv(run: seq<Joint>, moves: seq<Move>, n: nat)
    requires Run(run, moves) && n < |run|
    ensures JointInv(run[n])
  {
    if n == 0 {
      forall h, u ensures Matches(run[0], h, u) {}
    } else {
      RunInv(run, moves, n - 1);
      MoveInv(run[n - 1], moves[n - 1]);
    }
  }

  // ---------------------------------------------------------------- the protocol's own run

  /** The move is a login of the user that goes on without the lock. */
  predicate GoesLockless(j: Joint, m: Move, u: Uid) { m.Local? && Lockless(j.st, m.step, u) }

  ghost predicate AllLocked(run: seq<Joint>, moves: seq<Move>, u: Uid)
    requires |moves| < |run|
  {
    forall i | 0 <= i < |moves| :: !GoesLockless(run[i], moves[i], u)
  }

  /** The moves of a prompt run that concern the protocol are a run of `SessionLogin` to the same state. */
  lemma {:induction false} Projects(run: seq<Joint>, moves: seq<Move>, n: nat, u: Uid)
    returns (states: seq<State>, steps: seq<Step>)
    requires Run(run, moves) && n < |run| && AllLocked(run, moves, u)
    ensures LockedRun(states, steps, u) && states[|steps|] == run[n].st
  {
    if n == 0 {
      states, steps := [run[0].st], [];
    } else {
      states, steps := Projects(run, moves, n - 1, u);
      var j, m := run[n - 1], moves[n - 1];
      RunInv(run, moves, n - 1);
      if !m.Lock? {
        var step := if m.Local? then m.step else StepOf(m.h);
        if m.Take? { TakeFindsFree(j, m.h); }
        assert !GoesLockless(j, m, u);
        states, steps := AddStep(states, steps, step, u);
      }
    }
  }

  lemma AddStep(states: seq<State>, steps: seq<Step>, step: Step, u: Uid)
    returns (states': seq<State>, steps': seq<Step>)
    requires LockedRun(states, steps, u) && Enabled(states[|steps|], step) && !Lockless(states[|steps|], step, u)
    ensures LockedRun(states', steps', u) && states'[|steps'|] == Next(states[|steps|], step)
  {
    states', steps' := states + [Next(states[|steps|], step)], steps + [step];
  }

  /** Single login on the leased lock: if leases are not outlived and the user's logins obtain theirs. */
  lemma SingleSessionOnLeases(run: seq<Joint>, moves: seq<Move>, n: nat, s: Sid, u: Uid)
    requires Run(run, moves) && n < |run| && AllLocked(run, moves, u)
    requires u != 0 && Active(run[n].st, s, u)
    ensures forall s' | Active(run[n].st, s', u) :: s' == s
    ensures (forall h :: !Lease.Holds(run[n].lk, h, u)) ==> Named(run[n].st, s, u)
  {
    var states, steps := Projects(run, moves, n, u);
    SingleSession(states, steps, |steps|, s, u);
    RunInv(run, moves, n);
    if u in run[n].st.lock { assert Matches(run[n], run[n].st.lock[u], u); }
  }
}
