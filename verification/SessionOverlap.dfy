/**
  A login that goes on without the lock is harmless as long as nobody else is inside the user's
  critical section: it is as if it had the lock.
*/
module SessionOverlap {
  import opened SessionLogin

  /** The login on v is inside the critical section of the user and does not hold the lock. */
  predicate Bare(st: State, v: Server, u: Uid) {
    && v in st.logins && st.logins[v].uid == u && LoginInside(st.logins[v].at)
    && !(u in st.lock && st.lock[u] == LoginOn(v))
  }

  /** The step takes the lock of the user. */
  predicate Takes(st: State, step: Step, u: Uid) {
    match step
    case LoginStep(v, _) => v in st.logins && st.logins[v].at.AwaitLock? && st.logins[v].uid == u
    case CleanupStep(t, replied) =>
      replied && t in st.cleanups && st.cleanups[t].at.WaitLock? && st.cleanups[t].uid == u
    case _ => false
  }

  /** Somebody enters the user's critical section, with or without the lock, while another is inside. */
  ghost predicate Overlaps(st: State, step: Step, u: Uid) {
    || (Lockless(st, step, u) && (u in st.lock || exists v :: Bare(st, v, u)))
    || (Takes(st, step, u) && exists v :: Bare(st, v, u))
  }

  ghost predicate ApartRun(run: seq<State>, steps: seq<Step>, u: Uid) {
    Run(run, steps) && forall i | 0 <= i < |steps| :: !Overlaps(run[i], steps[i], u)
  }

  datatype Maybe = Nobody | Someone(server: Server)

  /** The state as if the login without the lock had it. */
  function Granted(st: State, bare: Maybe, u: Uid): State {
    if bare.Nobody? then st else st.(lock := st.lock[u := LoginOn(bare.server)])
  }

  predicate IsBare(st: State, bare: Maybe, u: Uid, w: Server) {
    (Bare(st, w, u) <==> bare == Someone(w)) && (bare.Someone? ==> u !in st.lock)
  }

  /** `bare` is the only login inside without the lock. */
  ghost predicate Only(st: State, bare: Maybe, u: Uid) { forall w :: IsBare(st, bare, u, w) }

  // ---------------------------------------------------------------- steps that leave the lock alone

  /** Such a step does the same whoever holds the lock, and leaves everyone as bare as before. */
  predicate Blind(st: State, step: Step, lock: map<Uid, Holder>, u: Uid, w: Server)
    requires Enabled(st, step)
  {
    && Enabled(st.(lock := lock), step) && Next(st.(lock := lock), step) == Next(st, step).(lock := lock)
    && Next(st, step).lock == st.lock && (Bare(Next(st, step), w, u) <==> Bare(st, w, u))
  }

  lemma StepIsBlind(st: State, step: Step, lock: map<Uid, Holder>, u: Uid, w: Server)
    requires Enabled(st, step) && !TouchesLock(st, step) && !Lockless(st, step, u)
    ensures Blind(st, step, lock, u, w)
  {
    if step.LoginStep? {
      LoginIsBlind(st, step.server, step.token, lock, u, w);
    } else if step.CleanupStep? {
      CleanupIsBlind(st, step.task, step.replied, lock, u, w);
    } else {
      RequestIsBlind(st, step, lock, u, w);
    }
  }

  lemma RequestIsBlind(st: State, step: Step, lock: map<Uid, Holder>, u: Uid, w: Server)
    requires Enabled(st, step) && !Lockless(st, step, u) && !step.LoginStep? && !step.CleanupStep?
    ensures Blind(st, step, lock, u, w)
  {
    if step.ReadToken? || step.AbortLogin? || step.LoginWithoutLock? {
      GateIsBlind(st, step, lock, u, w);
    } else {
      OtherIsBlind(st, step, lock, u, w);
    }
  }

  lemma GateIsBlind(st: State, step: Step, lock: map<Uid, Holder>, u: Uid, w: Server)
    requires Enabled(st, step) && !Lockless(st, step, u)
    requires step.ReadToken? || step.AbortLogin? || step.LoginWithoutLock?
    ensures Blind(st, step, lock, u, w)
  {
    if step.ReadToken? {
      ReadTokenIsBlind(st, step.server, step.sid, step.uid, step.token, lock, u, w);
    } else if step.AbortLogin? {
      AbortIsBlind(st, step.server, lock, u, w);
    } else {
      LocklessIsBlind(st, step.server, lock, u, w);
    }
  }

  lemma ReadTokenIsBlind(
      st: State, v: Server, sid: Sid, uid: Uid, token: Token, lock: map<Uid, Holder>, u: Uid, w: Server)
    requires Enabled(st, ReadToken(v, sid, uid, token))
    ensures Blind(st, ReadToken(v, sid, uid, token), lock, u, w)
  {
    var next := st.(logins := st.logins[v := Login(sid, uid, TokenRead)]);
    assert Next(st, ReadToken(v, sid, uid, token)) == next;
    assert Next(st.(lock := lock), ReadToken(v, sid, uid, token)) == next.(lock := lock);
  }

  lemma AbortIsBlind(st: State, v: Server, lock: map<Uid, Holder>, u: Uid, w: Server)
    requires Enabled(st, AbortLogin(v))
    ensures Blind(st, AbortLogin(v), lock, u, w)
  {
    var next := st.(logins := st.logins - {v});
    assert Next(st, AbortLogin(v)) == next;
    assert Next(st.(lock := lock), AbortLogin(v)) == next.(lock := lock);
  }

  lemma LocklessIsBlind(st: State, v: Server, lock: map<Uid, Holder>, u: Uid, w: Server)
    requires Enabled(st, LoginWithoutLock(v)) && !Lockless(st, LoginWithoutLock(v), u)
    ensures Blind(st, LoginWithoutLock(v), lock, u, w)
  {
    var next := GoLogin(st, v, ReadIp);
    assert Next(st, LoginWithoutLock(v)) == next;
    assert Next(st.(lock := lock), LoginWithoutLock(v)) == next.(lock := lock);
  }

  lemma OtherIsBlind(st: State, step: Step, lock: map<Uid, Holder>, u: Uid, w: Server)
    requires Enabled(st, step) && (step.Accept? || step.Handshake? || step.ExpireToken? || step.StartCleanup?)
    ensures Blind(st, step, lock, u, w)
  {
  }

  lemma LoginIsBlind(st: State, v: Server, token: Token, lock: map<Uid, Holder>, u: Uid, w: Server)
    requires Enabled(st, LoginStep(v, token)) && !TouchesLock(st, LoginStep(v, token))
    ensures Blind(st, LoginStep(v, token), lock, u, w)
  {
    match st.logins[v].at {
      case TokenRead => TokenReadIsBlind(st, v, token, lock, u, w);
      case ReadIp => ReadIpIsBlind(st, v, token, lock, u, w);
      case Lookup(_) => LookupIsBlind(st, v, token, lock, u, w);
      case Evict(_, _) => EvictIsBlind(st, v, token, lock, u, w);
      case Erasing(_, _) => ErasingIsBlind(st, v, token, lock, u, w);
      case Bind => BindIsBlind(st, v, token, lock, u, w);
      case SetIp => SetIpIsBlind(st, v, token, lock, u, w);
      case AddUser => AddUserIsBlind(st, v, token, lock, u, w);
      case SetSession => SetSessionIsBlind(st, v, token, lock, u, w);
      case IssueToken => IssueTokenIsBlind(st, v, token, lock, u, w);
    }
  }

  lemma TokenReadIsBlind(st: State, v: Server, token: Token, lock: map<Uid, Holder>, u: Uid, w: Server)
    requires Enabled(st, LoginStep(v, token)) && st.logins[v].at.TokenRead?
    ensures Blind(st, LoginStep(v, token), lock, u, w)
  {
    var l := st.logins[v];
    var next := GoLogin(st.(utoken := st.utoken - {l.uid}), v, AwaitLock);
    assert NextLogin(st, v, token) == next;
    assert NextLogin(st.(lock := lock), v, token) == next.(lock := lock);
  }

  lemma ReadIpIsBlind(st: State, v: Server, token: Token, lock: map<Uid, Holder>, u: Uid, w: Server)
    requires Enabled(st, LoginStep(v, token)) && st.logins[v].at.ReadIp?
    ensures Blind(st, LoginStep(v, token), lock, u, w)
  {
    if st.logins[v].uid in st.uip {
      IpFoundIsBlind(st, v, token, lock, u, w);
    } else {
      NoIpIsBlind(st, v, token, lock, u, w);
    }
  }

  lemma IpFoundIsBlind(st: State, v: Server, token: Token, lock: map<Uid, Holder>, u: Uid, w: Server)
    requires Enabled(st, LoginStep(v, token)) && st.logins[v].at.ReadIp? && st.logins[v].uid in st.uip
    ensures Blind(st, LoginStep(v, token), lock, u, w)
  {
    var next := GoLogin(st, v, Lookup(st.uip[st.logins[v].uid]));
    assert NextLogin(st, v, token) == next;
    assert NextLogin(st.(lock := lock), v, token) == next.(lock := lock);
  }

  lemma NoIpIsBlind(st: State, v: Server, token: Token, lock: map<Uid, Holder>, u: Uid, w: Server)
    requires Enabled(st, LoginStep(v, token)) && st.logins[v].at.ReadIp? && st.logins[v].uid !in st.uip
    ensures Blind(st, LoginStep(v, token), lock, u, w)
  {
    var next := GoLogin(st, v, LoginAt.Bind);
    assert NextLogin(st, v, token) == next;
    assert NextLogin(st.(lock := lock), v, token) == next.(lock := lock);
  }

  lemma LookupIsBlind(st: State, v: Server, token: Token, lock: map<Uid, Holder>, u: Uid, w: Server)
    requires Enabled(st, LoginStep(v, token)) && st.logins[v].at.Lookup?
    ensures Blind(st, LoginStep(v, token), lock, u, w)
  {
    var l := st.logins[v];
    if UserKey(l.at.on, l.uid) in st.users {
      FoundIsBlind(st, v, token, lock, u, w);
    } else {
      NotFoundIsBlind(st, v, token, lock, u, w);
    }
  }

  lemma FoundIsBlind(st: State, v: Server, token: Token, lock: map<Uid, Holder>, u: Uid, w: Server)
    requires Enabled(st, LoginStep(v, token)) && st.logins[v].at.Lookup?
    requires UserKey(st.logins[v].at.on, st.logins[v].uid) in st.users
    ensures Blind(st, LoginStep(v, token), lock, u, w)
  {
    var l := st.logins[v];
    var next := GoLogin(st, v, Evict(l.at.on, st.users[UserKey(l.at.on, l.uid)]));
    assert NextLogin(st, v, token) == next;
    assert NextLogin(st.(lock := lock), v, token) == next.(lock := lock);
  }

  lemma NotFoundIsBlind(st: State, v: Server, token: Token, lock: map<Uid, Holder>, u: Uid, w: Server)
    requires Enabled(st, LoginStep(v, token)) && st.logins[v].at.Lookup?
    requires UserKey(st.logins[v].at.on, st.logins[v].uid) !in st.users
    ensures Blind(st, LoginStep(v, token), lock, u, w)
  {
    var next := GoLogin(st, v, LoginAt.Bind);
    assert NextLogin(st, v, token) == next;
    assert NextLogin(st.(lock := lock), v, token) == next.(lock := lock);
  }

  lemma EvictIsBlind(st: State, v: Server, token: Token, lock: map<Uid, Holder>, u: Uid, w: Server)
    requires Enabled(st, LoginStep(v, token)) && st.logins[v].at.Evict?
    ensures Blind(st, LoginStep(v, token), lock, u, w)
  {
    var l := st.logins[v];
    var next := GoLogin(BeginClear(st, l.at.on, l.at.prior, LoginOn(v)), v, Erasing(l.at.on, l.at.prior));
    assert NextLogin(st, v, token) == next;
    assert NextLogin(st.(lock := lock), v, token) == next.(lock := lock);
  }

  lemma ErasingIsBlind(st: State, v: Server, token: Token, lock: map<Uid, Holder>, u: Uid, w: Server)
    requires Enabled(st, LoginStep(v, token)) && st.logins[v].at.Erasing?
    ensures Blind(st, LoginStep(v, token), lock, u, w)
  {
    var l := st.logins[v];
    var next := GoLogin(EndClear(st, l.at.on, l.at.prior), v, LoginAt.Bind);
    assert NextLogin(st, v, token) == next;
    assert NextLogin(st.(lock := lock), v, token) == next.(lock := lock);
  }

  lemma BindIsBlind(st: State, v: Server, token: Token, lock: map<Uid, Holder>, u: Uid, w: Server)
    requires Enabled(st, LoginStep(v, token)) && st.logins[v].at.Bind?
    ensures Blind(st, LoginStep(v, token), lock, u, w)
  {
    var l := st.logins[v];
    var next := GoLogin(st.(sessions := st.sessions[l.sid := st.sessions[l.sid].(uid := l.uid)]), v, SetIp);
    assert NextLogin(st, v, token) == next;
    assert NextLogin(st.(lock := lock), v, token) == next.(lock := lock);
  }

  lemma SetIpIsBlind(st: State, v: Server, token: Token, lock: map<Uid, Holder>, u: Uid, w: Server)
    requires Enabled(st, LoginStep(v, token)) && st.logins[v].at.SetIp?
    ensures Blind(st, LoginStep(v, token), lock, u, w)
  {
    var l := st.logins[v];
    var next := GoLogin(st.(uip := st.uip[l.uid := v]), v, AddUser);
    assert NextLogin(st, v, token) == next;
    assert NextLogin(st.(lock := lock), v, token) == next.(lock := lock);
  }

  lemma AddUserIsBlind(st: State, v: Server, token: Token, lock: map<Uid, Holder>, u: Uid, w: Server)
    requires Enabled(st, LoginStep(v, token)) && st.logins[v].at.AddUser?
    ensures Blind(st, LoginStep(v, token), lock, u, w)
  {
    var l := st.logins[v];
    var next := GoLogin(st.(users := st.users[UserKey(v, l.uid) := l.sid]), v, SetSession);
    assert NextLogin(st, v, token) == next;
    assert NextLogin(st.(lock := lock), v, token) == next.(lock := lock);
  }

  lemma SetSessionIsBlind(st: State, v: Server, token: Token, lock: map<Uid, Holder>, u: Uid, w: Server)
    requires Enabled(st, LoginStep(v, token)) && st.logins[v].at.SetSession?
    ensures Blind(st, LoginStep(v, token), lock, u, w)
  {
    var l := st.logins[v];
    var next := GoLogin(st.(usession := st.usession[l.uid := l.sid]), v, Unlock);
    assert NextLogin(st, v, token) == next;
    assert NextLogin(st.(lock := lock), v, token) == next.(lock := lock);
  }

  lemma IssueTokenIsBlind(st: State, v: Server, token: Token, lock: map<Uid, Holder>, u: Uid, w: Server)
    requires Enabled(st, LoginStep(v, token)) && st.logins[v].at.IssueToken?
    ensures Blind(st, LoginStep(v, token), lock, u, w)
  {
    var next := st.(utoken := st.utoken[st.logins[v].uid := token], logins := st.logins - {v});
    assert NextLogin(st, v, token) == next;
    assert NextLogin(st.(lock := lock), v, token) == next.(lock := lock);
  }

  lemma CleanupIsBlind(st: State, t: Task, replied: bool, lock: map<Uid, Holder>, u: Uid, w: Server)
    requires Enabled(st, CleanupStep(t, replied)) && !TouchesLock(st, CleanupStep(t, replied))
    ensures Blind(st, CleanupStep(t, replied), lock, u, w)
  {
    match st.cleanups[t].at {
      case WaitLock => WaitLockIsBlind(st, t, replied, lock, u, w);
      case ReadSession => ReadSessionIsBlind(st, t, replied, lock, u, w);
      case DelSession => DelSessionIsBlind(st, t, replied, lock, u, w);
      case DelIp => DelIpIsBlind(st, t, replied, lock, u, w);
      case DelToken => DelTokenIsBlind(st, t, replied, lock, u, w);
      case Clear(_) => ClearIsBlind(st, t, replied, lock, u, w);
      case Erase(_) => EraseIsBlind(st, t, replied, lock, u, w);
    }
  }

  lemma WaitLockIsBlind(st: State, t: Task, replied: bool, lock: map<Uid, Holder>, u: Uid, w: Server)
    requires Enabled(st, CleanupStep(t, replied)) && !TouchesLock(st, CleanupStep(t, replied))
    requires st.cleanups[t].at.WaitLock?
    ensures Blind(st, CleanupStep(t, replied), lock, u, w)
  {
  }

  lemma ReadSessionIsBlind(st: State, t: Task, replied: bool, lock: map<Uid, Holder>, u: Uid, w: Server)
    requires Enabled(st, CleanupStep(t, replied)) && !TouchesLock(st, CleanupStep(t, replied))
    requires st.cleanups[t].at.ReadSession?
    ensures Blind(st, CleanupStep(t, replied), lock, u, w)
  {
  }

  lemma DelSessionIsBlind(st: State, t: Task, replied: bool, lock: map<Uid, Holder>, u: Uid, w: Server)
    requires Enabled(st, CleanupStep(t, replied)) && !TouchesLock(st, CleanupStep(t, replied))
    requires st.cleanups[t].at.DelSession?
    ensures Blind(st, CleanupStep(t, replied), lock, u, w)
  {
  }

  lemma DelIpIsBlind(st: State, t: Task, replied: bool, lock: map<Uid, Holder>, u: Uid, w: Server)
    requires Enabled(st, CleanupStep(t, replied)) && !TouchesLock(st, CleanupStep(t, replied))
    requires st.cleanups[t].at.DelIp?
    ensures Blind(st, CleanupStep(t, replied), lock, u, w)
  {
  }

  lemma DelTokenIsBlind(st: State, t: Task, replied: bool, lock: map<Uid, Holder>, u: Uid, w: Server)
    requires Enabled(st, CleanupStep(t, replied)) && !TouchesLock(st, CleanupStep(t, replied))
    requires st.cleanups[t].at.DelToken?
    ensures Blind(st, CleanupStep(t, replied), lock, u, w)
  {
  }

  lemma ClearIsBlind(st: State, t: Task, replied: bool, lock: map<Uid, Holder>, u: Uid, w: Server)
    requires Enabled(st, CleanupStep(t, replied)) && !TouchesLock(st, CleanupStep(t, replied))
    requires st.cleanups[t].at.Clear?
    ensures Blind(st, CleanupStep(t, replied), lock, u, w)
  {
    var c := st.cleanups[t];
    var next := GoCleanup(BeginClear(st, st.sessions[c.sid].server, c.sid, CleanupBy(t)), t, Erase(c.at.basis));
    assert NextCleanup(st, t, replied) == next;
    assert NextCleanup(st.(lock := lock), t, replied) == next.(lock := lock);
  }

  lemma EraseIsBlind(st: State, t: Task, replied: bool, lock: map<Uid, Holder>, u: Uid, w: Server)
    requires Enabled(st, CleanupStep(t, replied)) && !TouchesLock(st, CleanupStep(t, replied))
    requires st.cleanups[t].at.Erase?
    ensures Blind(st, CleanupStep(t, replied), lock, u, w)
  {
    var c := st.cleanups[t];
    var next := GoCleanup(EndClear(st, st.sessions[c.sid].server, c.sid), t, Release(c.at.basis));
    assert NextCleanup(st, t, replied) == next;
    assert NextCleanup(st.(lock := lock), t, replied) == next.(lock := lock);
  }

  // ---------------------------------------------------------------- steps that take or release a lock

  /** The lock after the step if it was `lock` before. */
  function NextLock(st: State, step: Step, lock: map<Uid, Holder>): map<Uid, Holder>
    requires Enabled(st, step) && TouchesLock(st, step)
  {
    if step.LoginStep? then
      var (uid, h) := (st.logins[step.server].uid, LoginOn(step.server));
      if st.logins[step.server].at.AwaitLock? then lock[uid := h] else Free(lock, uid, h)
    else
      var (uid, h) := (st.cleanups[step.task].uid, CleanupBy(step.task));
      if st.cleanups[step.task].at.WaitLock? then lock[uid := h] else Free(lock, uid, h)
  }

  /** Such a step changes the lock, and what it does beside that does not depend on the lock. */
  predicate Locking(st: State, step: Step, lock: map<Uid, Holder>)
    requires Enabled(st, step) && TouchesLock(st, step)
  {
    && Next(st, step).lock == NextLock(st, step, st.lock)
    && (Enabled(st.(lock := lock), step) ==>
          Next(st.(lock := lock), step) == Next(st, step).(lock := NextLock(st, step, lock)))
  }

  lemma TakingIsLocking(st: State, v: Server, token: Token, lock: map<Uid, Holder>)
    requires Enabled(st, LoginStep(v, token)) && st.logins[v].at.AwaitLock?
    ensures Locking(st, LoginStep(v, token), lock)
  {
    var l := st.logins[v];
    var next := GoLogin(st, v, ReadIp);
    assert NextLogin(st, v, token) == next.(lock := st.lock[l.uid := LoginOn(v)]);
    if l.uid !in lock {
      assert NextLogin(st.(lock := lock), v, token) == next.(lock := lock[l.uid := LoginOn(v)]);
    }
  }

  lemma UnlockIsLocking(st: State, v: Server, token: Token, lock: map<Uid, Holder>)
    requires Enabled(st, LoginStep(v, token)) && st.logins[v].at.Unlock?
    ensures Locking(st, LoginStep(v, token), lock) && Enabled(st.(lock := lock), LoginStep(v, token))
  {
    var l := st.logins[v];
    var next := GoLogin(st, v, IssueToken);
    assert NextLogin(st, v, token) == next.(lock := Free(st.lock, l.uid, LoginOn(v)));
    assert NextLogin(st.(lock := lock), v, token) == next.(lock := Free(lock, l.uid, LoginOn(v)));
  }

  lemma WaitIsLocking(st: State, t: Task, lock: map<Uid, Holder>)
    requires Enabled(st, CleanupStep(t, true)) && st.cleanups[t].at.WaitLock?
    ensures Locking(st, CleanupStep(t, true), lock)
  {
    var c := st.cleanups[t];
    var next := GoCleanup(st, t, ReadSession);
    assert NextCleanup(st, t, true) == next.(lock := st.lock[c.uid := CleanupBy(t)]);
    if c.uid !in lock {
      assert NextCleanup(st.(lock := lock), t, true) == next.(lock := lock[c.uid := CleanupBy(t)]);
    }
  }

  lemma ReleaseIsLocking(st: State, t: Task, replied: bool, lock: map<Uid, Holder>)
    requires Enabled(st, CleanupStep(t, replied)) && st.cleanups[t].at.Release?
    ensures Locking(st, CleanupStep(t, replied), lock) && Enabled(st.(lock := lock), CleanupStep(t, replied))
  {
    var c := st.cleanups[t];
    var next := st.(cleanups := st.cleanups - {t});
    assert NextCleanup(st, t, replied) == next.(lock := Free(st.lock, c.uid, CleanupBy(t)));
    assert NextCleanup(st.(lock := lock), t, replied) == next.(lock := Free(lock, c.uid, CleanupBy(t)));
  }

  lemma LocksCommute(lock: map<Uid, Holder>, u: Uid, k: Holder, x: Uid, h: Holder)
    requires x != u
    ensures lock[u := k][x := h] == lock[x := h][u := k]
    ensures Free(lock[u := k], x, h) == Free(lock, x, h)[u := k]
  {
  }

  /** Freeing a lock that somebody else has, or nobody, changes nothing. */
  lemma FreeGranted(lock: map<Uid, Holder>, u: Uid, k: Holder, h: Holder)
    requires u !in lock
    ensures Free(lock, u, h) == lock
    ensures Free(lock[u := k], u, h) == if h == k then lock else lock[u := k]
  {
    assert lock[u := k] - {u} == lock;
  }

  /** Who is inside without the lock after the step. */
  function BareAfter(st: State, step: Step, bare: Maybe): Maybe
    requires Enabled(st, step)
  {
    if step.LoginStep? && st.logins[step.server].at.Unlock? && bare == Someone(step.server) then Nobody else bare
  }

  lemma TakingIsBare(st: State, v: Server, token: Token, bare: Maybe, u: Uid, w: Server)
    requires Enabled(st, LoginStep(v, token)) && st.logins[v].at.AwaitLock?
    requires IsBare(st, bare, u, w) && (st.logins[v].uid == u ==> bare.Nobody?)
    ensures IsBare(NextLogin(st, v, token), bare, u, w)
  {
  }

  lemma UnlockIsBare(st: State, v: Server, token: Token, bare: Maybe, u: Uid, w: Server)
    requires Enabled(st, LoginStep(v, token)) && st.logins[v].at.Unlock?
    requires IsBare(st, bare, u, w) && IsBare(st, bare, u, v)
    ensures IsBare(NextLogin(st, v, token), BareAfter(st, LoginStep(v, token), bare), u, w)
  {
  }

  lemma WaitIsBare(st: State, t: Task, bare: Maybe, u: Uid, w: Server)
    requires Enabled(st, CleanupStep(t, true)) && st.cleanups[t].at.WaitLock?
    requires IsBare(st, bare, u, w) && (st.cleanups[t].uid == u ==> bare.Nobody?)
    ensures IsBare(NextCleanup(st, t, true), bare, u, w)
  {
  }

  lemma ReleaseIsBare(st: State, t: Task, replied: bool, bare: Maybe, u: Uid, w: Server)
    requires Enabled(st, CleanupStep(t, replied)) && st.cleanups[t].at.Release?
    requires IsBare(st, bare, u, w)
    ensures IsBare(NextCleanup(st, t, replied), bare, u, w)
  {
  }

  // ---------------------------------------------------------------- one step of either

  /** The state with the lock granted takes `step'` where the other takes `step`. */
  ghost predicate Simulates(st: State, step: Step, bare: Maybe, step': Step, bare': Maybe, u: Uid)
    requires Enabled(st, step)
  {
    && Only(Next(st, step), bare', u)
    && Enabled(Granted(st, bare, u), step') && !Lockless(Granted(st, bare, u), step', u)
    && Next(Granted(st, bare, u), step') == Granted(Next(st, step), bare', u)
  }

  lemma BlindSimulates(st: State, step: Step, bare: Maybe, u: Uid)
    requires Only(st, bare, u) && Enabled(st, step) && !TouchesLock(st, step) && !Lockless(st, step, u)
    ensures Simulates(st, step, bare, step, bare, u)
  {
    forall w ensures IsBare(Next(st, step), bare, u, w) {
      assert IsBare(st, bare, u, w);
      StepIsBlind(st, step, st.lock, u, w);
    }
    if bare.Someone? {
      StepIsBlind(st, step, st.lock[u := LoginOn(bare.server)], u, 0);
    }
  }

  lemma LocklessSimulates(st: State, v: Server, u: Uid)
    requires Only(st, Nobody, u) && Enabled(st, LoginWithoutLock(v)) && st.logins[v].uid == u
    requires u !in st.lock && st.logins[v].sid in st.sessions
    ensures Simulates(st, LoginWithoutLock(v), Nobody, LoginStep(v, 0), Someone(v), u)
  {
    forall w ensures IsBare(GoLogin(st, v, ReadIp), Someone(v), u, w) {
      assert IsBare(st, Nobody, u, w);
    }
  }

  lemma LockingSimulates(st: State, step: Step, bare: Maybe, u: Uid)
    requires Only(st, bare, u) && Enabled(st, step) && TouchesLock(st, step) && !Overlaps(st, step, u)
    ensures Simulates(st, step, bare, step, BareAfter(st, step, bare), u)
  {
    if step.LoginStep? {
      if st.logins[step.server].at.AwaitLock? {
        TakingSimulates(st, step.server, step.token, bare, u);
      } else {
        UnlockSimulates(st, step.server, step.token, bare, u);
      }
    } else if st.cleanups[step.task].at.WaitLock? {
      WaitSimulates(st, step.task, bare, u);
    } else {
      ReleaseSimulates(st, step.task, step.replied, bare, u);
    }
  }

  lemma TakingSimulates(st: State, v: Server, token: Token, bare: Maybe, u: Uid)
    requires Only(st, bare, u) && Enabled(st, LoginStep(v, token)) && st.logins[v].at.AwaitLock?
    requires !Overlaps(st, LoginStep(v, token), u)
    ensures Simulates(st, LoginStep(v, token), bare, LoginStep(v, token), bare, u)
  {
    if bare.Someone? {
      assert IsBare(st, bare, u, bare.server);
      TakingIsLocking(st, v, token, st.lock[u := LoginOn(bare.server)]);
      LocksCommute(st.lock, u, LoginOn(bare.server), st.logins[v].uid, LoginOn(v));
    }
    forall w ensures IsBare(NextLogin(st, v, token), bare, u, w) {
      assert IsBare(st, bare, u, w);
      TakingIsBare(st, v, token, bare, u, w);
    }
  }

  lemma UnlockSimulates(st: State, v: Server, token: Token, bare: Maybe, u: Uid)
    requires Only(st, bare, u) && Enabled(st, LoginStep(v, token)) && st.logins[v].at.Unlock?
    ensures Simulates(st, LoginStep(v, token), bare, LoginStep(v, token), BareAfter(st, LoginStep(v, token), bare), u)
  {
    var bare' := BareAfter(st, LoginStep(v, token), bare);
    assert IsBare(st, bare, u, v);
    if bare.Someone? {
      var k, x := LoginOn(bare.server), st.logins[v].uid;
      UnlockIsLocking(st, v, token, st.lock[u := k]);
      if x == u { FreeGranted(st.lock, u, k, LoginOn(v)); } else { LocksCommute(st.lock, u, k, x, LoginOn(v)); }
    }
    forall w ensures IsBare(NextLogin(st, v, token), bare', u, w) {
      assert IsBare(st, bare, u, w);
      UnlockIsBare(st, v, token, bare, u, w);
    }
  }

  lemma WaitSimulates(st: State, t: Task, bare: Maybe, u: Uid)
    requires Only(st, bare, u) && Enabled(st, CleanupStep(t, true)) && st.cleanups[t].at.WaitLock?
    requires !Overlaps(st, CleanupStep(t, true), u)
    ensures Simulates(st, CleanupStep(t, true), bare, CleanupStep(t, true), bare, u)
  {
    if bare.Someone? {
      assert IsBare(st, bare, u, bare.server);
      WaitIsLocking(st, t, st.lock[u := LoginOn(bare.server)]);
      LocksCommute(st.lock, u, LoginOn(bare.server), st.cleanups[t].uid, CleanupBy(t));
    }
    forall w ensures IsBare(NextCleanup(st, t, true), bare, u, w) {
      assert IsBare(st, bare, u, w);
      WaitIsBare(st, t, bare, u, w);
    }
  }

  lemma ReleaseSimulates(st: State, t: Task, replied: bool, bare: Maybe, u: Uid)
    requires Only(st, bare, u) && Enabled(st, CleanupStep(t, replied)) && st.cleanups[t].at.Release?
    ensures Simulates(st, CleanupStep(t, replied), bare, CleanupStep(t, replied), bare, u)
  {
    assert IsBare(st, bare, u, 0);
    if bare.Someone? {
      var k, x := LoginOn(bare.server), st.cleanups[t].uid;
      ReleaseIsLocking(st, t, replied, st.lock[u := k]);
      if x == u { FreeGranted(st.lock, u, k, CleanupBy(t)); } else { LocksCommute(st.lock, u, k, x, CleanupBy(t)); }
    }
    forall w ensures IsBare(NextCleanup(st, t, replied), bare, u, w) {
      assert IsBare(st, bare, u, w);
      ReleaseIsBare(st, t, replied, bare, u, w);
    }
  }

  ghost predicate HaveSessions(st: State) { forall v | v in st.logins :: st.logins[v].sid in st.sessions }

  lemma StepSimulates(st: State, step: Step, bare: Maybe, u: Uid) returns (step': Step, bare': Maybe)
    requires Only(st, bare, u) && Enabled(st, step) && !Overlaps(st, step, u)
    requires HaveSessions(st)
    ensures Simulates(st, step, bare, step', bare', u)
  {
    if Lockless(st, step, u) {
      assert IsBare(st, bare, u, if bare.Someone? then bare.server else 0);
      step', bare' := LoginStep(step.server, 0), Someone(step.server);
      LocklessSimulates(st, step.server, u);
    } else if TouchesLock(st, step) {
      step', bare' := step, BareAfter(st, step, bare);
      LockingSimulates(st, step, bare, u);
    } else {
      step', bare' := step, bare;
      BlindSimulates(st, step, bare, u);
    }
  }

  // ---------------------------------------------------------------- whole runs

  lemma AddStep(states: seq<State>, steps: seq<Step>, step: Step, u: Uid)
    requires LockedRun(states, steps, u) && Enabled(states[|steps|], step) && !Lockless(states[|steps|], step, u)
    ensures LockedRun(states + [Next(states[|steps|], step)], steps + [step], u)
  {
  }

  /** A run without overlaps is a run in which every login of the user obtains the lock. */
  lemma {:induction false} Locks(run: seq<State>, steps: seq<Step>, n: nat, u: Uid)
    returns (states: seq<State>, steps': seq<Step>, bare: Maybe)
    requires ApartRun(run, steps, u) && n < |run|
    ensures LockedRun(states, steps', u) && |steps'| == n
    ensures Only(run[n], bare, u) && states[n] == Granted(run[n], bare, u)
  {
    if n == 0 {
      states, steps', bare := [run[0]], [], Nobody;
      forall w ensures IsBare(run[0], Nobody, u, w) {}
    } else {
      states, steps', bare := Locks(run, steps, n - 1, u);
      LoginsHaveSessions(states, steps', u);
      var step', bare' := StepSimulates(run[n - 1], steps[n - 1], bare, u);
      AddStep(states, steps', step', u);
      states, steps', bare := states + [Next(states[n - 1], step')], steps' + [step'], bare';
    }
  }

  lemma LoginsHaveSessions(states: seq<State>, steps: seq<Step>, u: Uid)
    requires LockedRun(states, steps, u)
    ensures HaveSessions(states[|steps|])
  {
    var st := states[|steps|];
    SessionLogin.RunInv(states, steps, |steps|, u);
    forall v | v in st.logins ensures st.logins[v].sid in st.sessions {
      assert InvAt(st, 0, u, v, 0);
    }
  }

  /**
    `SingleSession` when logins of the user may fail to get the lock: it still holds as long as such
    a login comes when nobody else is inside the user's critical section, and nobody enters before it leaves.
  */
  lemma SingleSessionApart(run: seq<State>, steps: seq<Step>, i: nat, s: Sid, u: Uid)
    requires ApartRun(run, steps, u) && i < |run|
    requires u != 0 && Active(run[i], s, u)
    ensures forall s' | Active(run[i], s', u) :: s' == s
    ensures u !in run[i].lock && (forall v :: !Bare(run[i], v, u)) ==> Named(run[i], s, u)
  {
    var states, steps', bare := Locks(run, steps, i, u);
    assert Active(states[i], s, u);
    SingleSession(states, steps', i, s, u);
    forall s' | Active(run[i], s', u) ensures s' == s {
      assert Active(states[i], s', u);
    }
    if bare.Someone? { assert IsBare(run[i], bare, u, bare.server); }
  }
}
