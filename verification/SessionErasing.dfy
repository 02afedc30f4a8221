/**
  When two entries of `_sessions` have the same user: one of them is being erased, and by somebody
  who does not hold the lock of that user.
*/
module SessionErasing {
  import opened SessionLogin

  /** Who holds `_mutex` inside `ClearSession` stands at the erase of that session. */
  ghost predicate ClearingOk(st: State, v: Server) {
    v in st.clearing ==>
      var c := st.clearing[v];
      match c.holder
      case LoginOn(w) => w in st.logins && st.logins[w].at == Erasing(v, c.sid)
      case CleanupBy(t) =>
        && t in st.cleanups && st.cleanups[t].at.Erase? && st.cleanups[t].sid == c.sid
        && c.sid in st.sessions && st.sessions[c.sid].server == v
  }

  /** A clean-up of the user that found another session named erases no session of the user but that one. */
  ghost predicate ErasesNamed(st: State, t: Task, u: Uid) {
    t in st.cleanups && st.cleanups[t].at == Erase(NotOwner) && st.cleanups[t].uid == u ==>
      var s := st.cleanups[t].sid;
      s in st.live && s in st.sessions && st.sessions[s].uid == u ==> u in st.usession && st.usession[u] == s
  }

  ghost predicate ErasingAt(st: State, u: Uid, v: Server, t: Task) { ClearingOk(st, v) && ErasesNamed(st, t, u) }

  ghost predicate ErasingInv(st: State, u: Uid) { forall v, t :: ErasingAt(st, u, v, t) }

  /** What a transition of the login or clean-up may use. */
  ghost predicate Before(st: State, u: Uid, v: Server, t: Task) {
    UsersOk(st) && u != 0 && ErasingAt(st, u, v, t) && (t in st.cleanups ==> CleanupOk(st, t, st.cleanups[t]))
  }

  lemma ErasingLogin(st: State, on: Server, token: Token, u: Uid, v: Server, t: Task)
    requires LoginAllowed(st, on, token, u) && Before(st, u, v, t)
    ensures ErasingAt(NextLogin(st, on, token), u, v, t)
  {
    match st.logins[on].at {
      case TokenRead | AwaitLock => LoginStart(st, on, token, u, v, t);
      case ReadIp | Lookup(_) => LoginFind(st, on, token, u, v, t);
      case Evict(_, _) => LoginEvict(st, on, token, u, v, t);
      case Erasing(_, _) => LoginErasing(st, on, token, u, v, t);
      case Bind | SetIp => LoginBind(st, on, token, u, v, t);
      case AddUser => LoginName(st, on, token, u, v, t);
      case SetSession => LoginSetSession(st, on, token, u, v, t);
      case Unlock | IssueToken => LoginEnd(st, on, token, u, v, t);
    }
  }

  lemma LoginStart(st: State, on: Server, token: Token, u: Uid, v: Server, t: Task)
    requires LoginAllowed(st, on, token, u) && Before(st, u, v, t)
    requires st.logins[on].at.TokenRead? || st.logins[on].at.AwaitLock?
    ensures ErasingAt(NextLogin(st, on, token), u, v, t)
  {
  }

  lemma LoginFind(st: State, on: Server, token: Token, u: Uid, v: Server, t: Task)
    requires LoginAllowed(st, on, token, u) && Before(st, u, v, t)
    requires st.logins[on].at.ReadIp? || st.logins[on].at.Lookup?
    ensures ErasingAt(NextLogin(st, on, token), u, v, t)
  {
  }

  lemma LoginEvict(st: State, on: Server, token: Token, u: Uid, v: Server, t: Task)
    requires LoginAllowed(st, on, token, u) && Before(st, u, v, t)
    requires st.logins[on].at.Evict?
    ensures ErasingAt(NextLogin(st, on, token), u, v, t)
  {
  }

  lemma LoginErasing(st: State, on: Server, token: Token, u: Uid, v: Server, t: Task)
    requires LoginAllowed(st, on, token, u) && Before(st, u, v, t)
    requires st.logins[on].at.Erasing?
    ensures ErasingAt(NextLogin(st, on, token), u, v, t)
  {
  }

  lemma LoginBind(st: State, on: Server, token: Token, u: Uid, v: Server, t: Task)
    requires LoginAllowed(st, on, token, u) && Before(st, u, v, t)
    requires st.logins[on].at.Bind? || st.logins[on].at.SetIp?
    ensures ErasingAt(NextLogin(st, on, token), u, v, t)
  {
  }

  lemma LoginName(st: State, on: Server, token: Token, u: Uid, v: Server, t: Task)
    requires LoginAllowed(st, on, token, u) && Before(st, u, v, t)
    requires st.logins[on].at.AddUser?
    ensures ErasingAt(NextLogin(st, on, token), u, v, t)
  {
  }

  lemma LoginSetSession(st: State, on: Server, token: Token, u: Uid, v: Server, t: Task)
    requires LoginAllowed(st, on, token, u) && Before(st, u, v, t)
    requires st.logins[on].at.SetSession?
    ensures ErasingAt(NextLogin(st, on, token), u, v, t)
  {
  }

  lemma LoginEnd(st: State, on: Server, token: Token, u: Uid, v: Server, t: Task)
    requires LoginAllowed(st, on, token, u) && Before(st, u, v, t)
    requires st.logins[on].at.Unlock? || st.logins[on].at.IssueToken?
    ensures ErasingAt(NextLogin(st, on, token), u, v, t)
  {
  }

  /** A session that a clean-up is about to clear is named, if it is one of the user's. */
  ghost predicate ClearsNamed(st: State, c: Task, u: Uid)
    requires c in st.cleanups
  {
    var s := st.cleanups[c].sid;
    st.cleanups[c].at == Clear(NotOwner) && st.cleanups[c].uid == u && Active(st, s, u) ==>
      u in st.usession && st.usession[u] == s
  }

  lemma ErasingCleanup(st: State, c: Task, replied: bool, u: Uid, v: Server, t: Task)
    requires CleanupAllowed(st, c, replied) && Before(st, u, v, t) && ErasingAt(st, u, v, c) && ClearsNamed(st, c, u)
    ensures ErasingAt(NextCleanup(st, c, replied), u, v, t)
  {
    match st.cleanups[c].at {
      case WaitLock => CleanupWait(st, c, replied, u, v, t);
      case ReadSession => CleanupRead(st, c, replied, u, v, t);
      case DelSession => CleanupDelete(st, c, replied, u, v, t);
      case DelIp | DelToken => CleanupDelKeys(st, c, replied, u, v, t);
      case Clear(_) => CleanupClear(st, c, replied, u, v, t);
      case Erase(_) => CleanupErase(st, c, replied, u, v, t);
      case Release(_) => CleanupRelease(st, c, replied, u, v, t);
    }
  }

  lemma CleanupWait(st: State, c: Task, replied: bool, u: Uid, v: Server, t: Task)
    requires CleanupAllowed(st, c, replied) && Before(st, u, v, t) && ErasingAt(st, u, v, c) && ClearsNamed(st, c, u)
    requires st.cleanups[c].at.WaitLock?
    ensures ErasingAt(NextCleanup(st, c, replied), u, v, t)
  {
  }

  lemma CleanupRead(st: State, c: Task, replied: bool, u: Uid, v: Server, t: Task)
    requires CleanupAllowed(st, c, replied) && Before(st, u, v, t) && ErasingAt(st, u, v, c) && ClearsNamed(st, c, u)
    requires st.cleanups[c].at.ReadSession?
    ensures ErasingAt(NextCleanup(st, c, replied), u, v, t)
  {
  }

  lemma CleanupDelete(st: State, c: Task, replied: bool, u: Uid, v: Server, t: Task)
    requires CleanupAllowed(st, c, replied) && Before(st, u, v, t) && ErasingAt(st, u, v, c) && ClearsNamed(st, c, u)
    requires st.cleanups[c].at.DelSession?
    ensures ErasingAt(NextCleanup(st, c, replied), u, v, t)
  {
  }

  lemma CleanupDelKeys(st: State, c: Task, replied: bool, u: Uid, v: Server, t: Task)
    requires CleanupAllowed(st, c, replied) && Before(st, u, v, t) && ErasingAt(st, u, v, c) && ClearsNamed(st, c, u)
    requires st.cleanups[c].at.DelIp? || st.cleanups[c].at.DelToken?
    ensures ErasingAt(NextCleanup(st, c, replied), u, v, t)
  {
  }

  lemma CleanupClear(st: State, c: Task, replied: bool, u: Uid, v: Server, t: Task)
    requires CleanupAllowed(st, c, replied) && Before(st, u, v, t) && ErasingAt(st, u, v, c) && ClearsNamed(st, c, u)
    requires st.cleanups[c].at.Clear?
    ensures ErasingAt(NextCleanup(st, c, replied), u, v, t)
  {
  }

  lemma CleanupErase(st: State, c: Task, replied: bool, u: Uid, v: Server, t: Task)
    requires CleanupAllowed(st, c, replied) && Before(st, u, v, t) && ErasingAt(st, u, v, c) && ClearsNamed(st, c, u)
    requires st.cleanups[c].at.Erase?
    ensures ErasingAt(NextCleanup(st, c, replied), u, v, t)
  {
  }

  lemma CleanupRelease(st: State, c: Task, replied: bool, u: Uid, v: Server, t: Task)
    requires CleanupAllowed(st, c, replied) && Before(st, u, v, t) && ErasingAt(st, u, v, c) && ClearsNamed(st, c, u)
    requires st.cleanups[c].at.Release?
    ensures ErasingAt(NextCleanup(st, c, replied), u, v, t)
  {
  }

  lemma ErasingRequest(st: State, step: Step, u: Uid, v: Server, t: Task)
    requires UsersOk(st) && Enabled(st, step) && !step.LoginStep? && !step.CleanupStep? && Before(st, u, v, t)
    ensures ErasingAt(Next(st, step), u, v, t)
  {
  }

  // ---------------------------------------------------------------- over all runs

  lemma ErasingNext(st: State, step: Step, u: Uid, v: Server, t: Task)
    requires Inv(st, u) && ErasingInv(st, u) && Enabled(st, step) && !Lockless(st, step, u) && u != 0
    ensures ErasingAt(Next(st, step), u, v, t)
  {
    assert InvAt(st, 0, u, v, t) && ErasingAt(st, u, v, t);
    if step.LoginStep? {
      assert InvAt(st, 0, u, step.server, t);
      ErasingLogin(st, step.server, step.token, u, v, t);
    } else if step.CleanupStep? {
      ClearerIsNamed(st, step.task, u);
      assert ErasingAt(st, u, v, step.task);
      ErasingCleanup(st, step.task, step.replied, u, v, t);
    } else {
      ErasingRequest(st, step, u, v, t);
    }
  }

  lemma ClearerIsNamed(st: State, c: Task, u: Uid)
    requires Inv(st, u) && u != 0 && c in st.cleanups
    ensures CleanupOk(st, c, st.cleanups[c]) && ClearsNamed(st, c, u)
  {
    assert InvAt(st, st.cleanups[c].sid, u, 0, c);
  }

  lemma {:induction false} RunErasingInv(run: seq<State>, steps: seq<Step>, i: nat, u: Uid)
    requires LockedRun(run, steps, u) && i < |run| && u != 0
    ensures ErasingInv(run[i], u)
  {
    if i == 0 {
      forall v, t ensures ErasingAt(run[0], u, v, t) {}
    } else {
      RunInv(run, steps, i - 1, u);
      RunErasingInv(run, steps, i - 1, u);
      forall v, t ensures ErasingAt(run[i], u, v, t) { ErasingNext(run[i - 1], steps[i - 1], u, v, t); }
    }
  }

  /** The session is being erased by somebody who does not hold the user's lock. */
  predicate ErasedFromOutside(st: State, s: Sid, u: Uid) {
    Doomed(st, s) && (u in st.lock ==> st.lock[u] != st.clearing[st.sessions[s].server].holder)
  }

  predicate Entry(st: State, s: Sid, u: Uid) { s in st.live && s in st.sessions && st.sessions[s].uid == u }

  /** The holder of the user's lock erases no session of the user beside another. */
  lemma HolderErasesAlone(st: State, s: Sid, s': Sid, u: Uid)
    requires Inv(st, u) && ErasingInv(st, u) && u != 0 && s != s' && Entry(st, s, u) && Entry(st, s', u)
    requires Doomed(st, s) && !ErasedFromOutside(st, s, u)
    ensures ErasedFromOutside(st, s', u)
  {
    var on, h := st.sessions[s].server, st.lock[u];
    var v, t := if h.LoginOn? then h.server else 0, if h.CleanupBy? then h.task else 0;
    assert ErasingAt(st, u, on, t) && ErasingAt(st, u, st.sessions[s'].server, t);
    assert InvAt(st, s', u, v, t);
  }

  /**
    Of two entries with one user in all `_sessions`, one is being erased by a `ClearSession` whose
    caller does not hold the lock of that user.
  */
  lemma SecondEntryIsErased(run: seq<State>, steps: seq<Step>, i: nat, s: Sid, s': Sid, u: Uid)
    requires LockedRun(run, steps, u) && i < |run| && u != 0 && s != s'
    requires Entry(run[i], s, u) && Entry(run[i], s', u)
    ensures ErasedFromOutside(run[i], s, u) || ErasedFromOutside(run[i], s', u)
  {
    RunInv(run, steps, i, u);
    RunErasingInv(run, steps, i, u);
    SecondEntryIsDoomed(run, steps, i, s, s', u);
    if Doomed(run[i], s) {
      if !ErasedFromOutside(run[i], s, u) { HolderErasesAlone(run[i], s, s', u); }
    } else {
      if !ErasedFromOutside(run[i], s', u) { HolderErasesAlone(run[i], s', s, u); }
    }
  }
}
