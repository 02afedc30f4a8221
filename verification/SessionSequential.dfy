/**
  The methods of `SessionRegistry` against the transitions of `SessionLogin`: a login or a clean-up
  whose transitions run without interruption does to every server's tables and to the Redis keys
  what the method does.
*/
module SessionSequential {
  import opened SessionLogin
  import opened SessionRegistry

  /** A state of the protocol as one server sees it. */
  ghost predicate Shows(side: Side, st: State, on: SessionLogin.Server) {
    && (forall s :: s in side.live <==> s in st.live && s in st.sessions && st.sessions[s].server == on)
    && (forall s | s in side.live :: side.live[s] == st.sessions[s].uid)
    && (forall u :: u in side.entries <==> UserKey(on, u) in st.users)
    && (forall u | u in side.entries :: side.entries[u] == st.users[UserKey(on, u)])
  }

  function KeysOf(st: State): Keys { Keys(st.usession, st.uip, st.utoken) }

  /** Both halves of `ClearSession` in a row. */
  function ClearedOn(st: State, on: SessionLogin.Server, sid: Sid, holder: Holder): State {
    EndClear(BeginClear(st, on, sid, holder), on, sid)
  }

  /** The two transitions do what the method does, and nothing on other servers. */
  lemma ClearMatches(side: Side, st: State, w: SessionLogin.Server, on: SessionLogin.Server, sid: Sid, holder: Holder)
    requires Shows(side, st, w) && sid in st.sessions && st.sessions[sid].server == on
    ensures Shows(if w == on then Cleared(side, sid) else side, ClearedOn(st, on, sid, holder), w)
  {
  }

  // ---------------------------------------------------------------- a clean-up, run alone

  function Reply(r: Replies, at: CleanupAt): bool {
    match at
    case WaitLock => r.locked
    case ReadSession => r.got
    case DelSession => r.delSession
    case DelIp => r.delIp
    case DelToken => r.delToken
    case _ => true
  }

  /** At most n transitions of the clean-up in a row. */
  function FollowCleanup(st: State, t: Task, r: Replies, n: nat): State
    decreases n
  {
    if n == 0 || t !in st.cleanups then st
    else
      var replied := Reply(r, st.cleanups[t].at);
      if Enabled(st, CleanupStep(t, replied)) then FollowCleanup(NextCleanup(st, t, replied), t, r, n - 1) else st
  }

  /** Nothing but its own lock is in the way of the clean-up. */
  predicate Clearable(st: State, t: Task) {
    && t in st.cleanups && st.cleanups[t].sid in st.sessions
    && st.sessions[st.cleanups[t].sid].server !in st.clearing
  }

  /** The session cleared, the lock free, the clean-up over. */
  function Ending(st: State, t: Task): State
    requires t in st.cleanups && st.cleanups[t].sid in st.sessions
  {
    var c := st.cleanups[t];
    ClearedOn(st, st.sessions[c.sid].server, c.sid, CleanupBy(t)).(
      lock := Free(st.lock, c.uid, CleanupBy(t)), cleanups := st.cleanups - {t})
  }

  lemma EndingMoved(st: State, t: Task, at: CleanupAt)
    requires t in st.cleanups && st.cleanups[t].sid in st.sessions
    ensures Ending(GoCleanup(st, t, at), t) == Ending(st, t)
  {
    assert st.cleanups[t := st.cleanups[t].(at := at)] - {t} == st.cleanups - {t};
  }

  lemma AtClear(st: State, t: Task, r: Replies, n: nat)
    requires Clearable(st, t) && st.cleanups[t].at.Clear? && n >= 3
    ensures FollowCleanup(st, t, r, n) == Ending(st, t)
  {
    var c := st.cleanups[t];
    var on := st.sessions[c.sid].server;
    var begun := GoCleanup(BeginClear(st, on, c.sid, CleanupBy(t)), t, Erase(c.at.basis));
    assert NextCleanup(st, t, true) == begun;
    var ended := GoCleanup(EndClear(begun, on, c.sid), t, Release(c.at.basis));
    assert NextCleanup(begun, t, true) == ended;
    AtRelease(ended, t, r, n - 2);
    assert ended.cleanups - {t} == st.cleanups - {t};
    assert FollowCleanup(begun, t, r, n - 1) == FollowCleanup(ended, t, r, n - 2);
  }

  lemma AtRelease(st: State, t: Task, r: Replies, n: nat)
    requires t in st.cleanups && st.cleanups[t].sid in st.sessions && st.cleanups[t].at.Release? && n >= 1
    ensures FollowCleanup(st, t, r, n)
         == st.(lock := Free(st.lock, st.cleanups[t].uid, CleanupBy(t)), cleanups := st.cleanups - {t})
  {
  }

  lemma AtDelToken(st: State, t: Task, r: Replies, n: nat)
    requires Clearable(st, t) && st.cleanups[t].at.DelToken? && n >= 4
    ensures FollowCleanup(st, t, r, n) == Ending(st.(utoken := Without(st.utoken, st.cleanups[t].uid, r.delToken)), t)
  {
    var st1 := st.(utoken := Without(st.utoken, st.cleanups[t].uid, r.delToken));
    assert NextCleanup(st, t, r.delToken) == GoCleanup(st1, t, Clear(Owner));
    AtClear(GoCleanup(st1, t, Clear(Owner)), t, r, n - 1);
    EndingMoved(st1, t, Clear(Owner));
  }

  lemma AtDelIp(st: State, t: Task, r: Replies, n: nat)
    requires Clearable(st, t) && st.cleanups[t].at.DelIp? && n >= 5
    ensures var uid := st.cleanups[t].uid;
      FollowCleanup(st, t, r, n)
        == Ending(st.(uip := Without(st.uip, uid, r.delIp), utoken := Without(st.utoken, uid, r.delToken)), t)
  {
    var uid := st.cleanups[t].uid;
    var st1 := st.(uip := Without(st.uip, uid, r.delIp));
    assert NextCleanup(st, t, r.delIp) == GoCleanup(st1, t, DelToken);
    AtDelToken(GoCleanup(st1, t, DelToken), t, r, n - 1);
    EndingMoved(st1.(utoken := Without(st.utoken, uid, r.delToken)), t, DelToken);
  }

  /** The keys of the user as an owning clean-up leaves them. */
  function Deleted(st: State, uid: Uid, r: Replies): State {
    st.(usession := Without(st.usession, uid, r.delSession),
        uip := Without(st.uip, uid, r.delIp),
        utoken := Without(st.utoken, uid, r.delToken))
  }

  lemma AtDelSession(st: State, t: Task, r: Replies, n: nat)
    requires Clearable(st, t) && st.cleanups[t].at.DelSession? && n >= 6
    ensures FollowCleanup(st, t, r, n) == Ending(Deleted(st, st.cleanups[t].uid, r), t)
  {
    var uid := st.cleanups[t].uid;
    var st1 := st.(usession := Without(st.usession, uid, r.delSession));
    assert NextCleanup(st, t, r.delSession) == GoCleanup(st1, t, DelIp);
    AtDelIp(GoCleanup(st1, t, DelIp), t, r, n - 1);
    EndingMoved(Deleted(st, uid, r), t, DelIp);
  }

  lemma AtReadOwn(st: State, t: Task, r: Replies, n: nat)
    requires Clearable(st, t) && st.cleanups[t].at.ReadSession? && n >= 7
    requires r.got && Names(st.usession, st.cleanups[t].uid, st.cleanups[t].sid)
    ensures FollowCleanup(st, t, r, n) == Ending(Deleted(st, st.cleanups[t].uid, r), t)
  {
    assert NextCleanup(st, t, r.got) == GoCleanup(st, t, DelSession);
    AtDelSession(GoCleanup(st, t, DelSession), t, r, n - 1);
    EndingMoved(Deleted(st, st.cleanups[t].uid, r), t, DelSession);
  }

  lemma AtReadForeign(st: State, t: Task, r: Replies, n: nat)
    requires Clearable(st, t) && st.cleanups[t].at.ReadSession? && n >= 4
    requires !(r.got && Names(st.usession, st.cleanups[t].uid, st.cleanups[t].sid))
    ensures FollowCleanup(st, t, r, n) == Ending(st, t)
  {
    assert NextCleanup(st, t, r.got) == GoCleanup(st, t, Clear(NotOwner));
    AtClear(GoCleanup(st, t, Clear(NotOwner)), t, r, n - 1);
    EndingMoved(st, t, Clear(NotOwner));
  }

  /** The lock can be had if it is granted, and the clean-up does not hold it yet. */
  predicate Ready(st: State, t: Task, r: Replies) {
    && Clearable(st, t) && st.cleanups[t].at.WaitLock?
    && (st.cleanups[t].uid in st.lock ==> !r.locked && st.lock[st.cleanups[t].uid] != CleanupBy(t))
  }

  /** What the clean-up leaves behind. */
  function AfterCleanup(st: State, t: Task, r: Replies): State
    requires Clearable(st, t)
  {
    var c := st.cleanups[t];
    var own := r.locked && r.got && Names(st.usession, c.uid, c.sid);
    ClearedOn(if own then Deleted(st, c.uid, r) else st, st.sessions[c.sid].server, c.sid, CleanupBy(t)).(
      cleanups := st.cleanups - {t})
  }

  lemma LockedEnding(st: State, t: Task)
    requires Clearable(st, t) && st.cleanups[t].uid !in st.lock
    ensures var c := st.cleanups[t];
      Ending(st.(lock := st.lock[c.uid := CleanupBy(t)]), t)
        == ClearedOn(st, st.sessions[c.sid].server, c.sid, CleanupBy(t)).(cleanups := st.cleanups - {t})
  {
    var c := st.cleanups[t];
    assert Free(st.lock[c.uid := CleanupBy(t)], c.uid, CleanupBy(t)) == st.lock;
  }

  lemma AtWaitGranted(st: State, t: Task, r: Replies, n: nat)
    requires Ready(st, t, r) && r.locked && n >= 8
    ensures FollowCleanup(st, t, r, n) == AfterCleanup(st, t, r)
  {
    var c := st.cleanups[t];
    var held := st.(lock := st.lock[c.uid := CleanupBy(t)]);
    var st1 := GoCleanup(held, t, ReadSession);
    assert NextCleanup(st, t, true) == st1;
    if r.got && Names(st.usession, c.uid, c.sid) {
      AtReadOwn(st1, t, r, n - 1);
      EndingMoved(Deleted(held, c.uid, r), t, ReadSession);
      LockedEnding(Deleted(st, c.uid, r), t);
    } else {
      AtReadForeign(st1, t, r, n - 1);
      EndingMoved(held, t, ReadSession);
      LockedEnding(st, t);
    }
  }

  /** Run alone, a clean-up ends after at most eight transitions, whatever it is granted. */
  lemma CleanupAlone(st: State, t: Task, r: Replies, n: nat)
    requires Ready(st, t, r) && n >= 8
    ensures FollowCleanup(st, t, r, n) == AfterCleanup(st, t, r)
  {
    if r.locked {
      AtWaitGranted(st, t, r, n);
    } else {
      assert NextCleanup(st, t, false) == GoCleanup(st, t, Clear(NoLock));
      AtClear(GoCleanup(st, t, Clear(NoLock)), t, r, n - 1);
      EndingMoved(st, t, Clear(NoLock));
    }
  }

  /** What it leaves behind is what `DealException` computes, on every server, and nothing else. */
  ghost predicate CleanedUp(st: State, st': State, sid: Sid, r: Replies)
    requires sid in st.sessions
  {
    var s := st.sessions[sid];
    && (forall side, w | Shows(side, st, w) :: Shows(if w == s.server then Cleared(side, sid) else side, st', w))
    && KeysOf(st') == Cleaned(KeysOf(st), s.uid, sid, r)
    && st'.sessions == st.sessions && st'.lock == st.lock && st'.clearing == st.clearing && st'.logins == st.logins
  }

  lemma SideAfterCleanup(st: State, t: Task, r: Replies, side: Side, w: SessionLogin.Server)
    requires Clearable(st, t) && Shows(side, st, w)
    ensures var c := st.cleanups[t];
      Shows(if w == st.sessions[c.sid].server then Cleared(side, c.sid) else side, AfterCleanup(st, t, r), w)
  {
    var c := st.cleanups[t];
    var on := st.sessions[c.sid].server;
    ClearMatches(side, st, w, on, c.sid, CleanupBy(t));
    var side' := if w == on then Cleared(side, c.sid) else side;
    ShowsToo(side', ClearedOn(st, on, c.sid, CleanupBy(t)), AfterCleanup(st, t, r), w);
  }

  /** What a server shows depends on three fields. */
  lemma ShowsToo(side: Side, st: State, st': State, w: SessionLogin.Server)
    requires Shows(side, st, w) && st'.live == st.live && st'.sessions == st.sessions && st'.users == st.users
    ensures Shows(side, st', w)
  {
  }

  lemma RestAfterCleanup(st: State, t: Task, r: Replies)
    requires Clearable(st, t)
    ensures var c, st' := st.cleanups[t], AfterCleanup(st, t, r);
      && KeysOf(st') == Cleaned(KeysOf(st), c.uid, c.sid, r) && st'.sessions == st.sessions
      && st'.lock == st.lock && st'.clearing == st.clearing && st'.logins == st.logins
  {
    var c := st.cleanups[t];
    assert ClearedOn(st, st.sessions[c.sid].server, c.sid, CleanupBy(t)).clearing == st.clearing;
  }

  lemma AfterCleanupMatches(st: State, t: Task, r: Replies)
    requires Clearable(st, t) && st.cleanups[t].uid == st.sessions[st.cleanups[t].sid].uid
    ensures CleanedUp(st, AfterCleanup(st, t, r), st.cleanups[t].sid, r)
  {
    var sid, st' := st.cleanups[t].sid, AfterCleanup(st, t, r);
    RestAfterCleanup(st, t, r);
    forall side, w | Shows(side, st, w)
      ensures Shows(if w == st.sessions[sid].server then Cleared(side, sid) else side, st', w)
    {
      SideAfterCleanup(st, t, r, side, w);
    }
  }

  /** From its start to its end, a clean-up run alone does what the method does. */
  lemma CleanupMatches(st: State, t: Task, sid: Sid, r: Replies, n: nat)
    requires Enabled(st, StartCleanup(t, sid)) && Ready(Next(st, StartCleanup(t, sid)), t, r) && n >= 8
    ensures CleanedUp(st, FollowCleanup(Next(st, StartCleanup(t, sid)), t, r, n), sid, r)
    ensures FollowCleanup(Next(st, StartCleanup(t, sid)), t, r, n).cleanups == st.cleanups
  {
    var st1 := Next(st, StartCleanup(t, sid));
    CleanupAlone(st1, t, r, n);
    AfterCleanupMatches(st1, t, r);
    StartedCleanedUp(st, t, sid, AfterCleanup(st1, t, r), r);
    assert st1.cleanups - {t} == st.cleanups;
  }

  lemma StartedCleanedUp(st: State, t: Task, sid: Sid, st': State, r: Replies)
    requires Enabled(st, StartCleanup(t, sid)) && CleanedUp(Next(st, StartCleanup(t, sid)), st', sid, r)
    ensures CleanedUp(st, st', sid, r)
  {
    var st1 := Next(st, StartCleanup(t, sid));
    forall side, w | Shows(side, st, w) ensures Shows(side, st1, w) { ShowsToo(side, st, st1, w); }
  }

  // ---------------------------------------------------------------- a login, run alone

  /** At most n transitions of the login in a row. */
  function FollowLogin(st: State, v: SessionLogin.Server, issued: Token, n: nat): State
    decreases n
  {
    if n > 0 && Enabled(st, LoginStep(v, issued)) then FollowLogin(NextLogin(st, v, issued), v, issued, n - 1) else st
  }

  predicate Running(st: State, v: SessionLogin.Server, at: LoginAt) {
    v in st.logins && st.logins[v].sid in st.sessions && st.logins[v].at == at
  }

  /** The lock free, the session token set, the login over. */
  function Left(st: State, v: SessionLogin.Server, issued: Token): State
    requires v in st.logins
  {
    var l := st.logins[v];
    st.(lock := Free(st.lock, l.uid, LoginOn(v)), utoken := st.utoken[l.uid := issued], logins := st.logins - {v})
  }

  /** The session bound and named everywhere. */
  function Bound(st: State, v: SessionLogin.Server): State
    requires v in st.logins && st.logins[v].sid in st.sessions
  {
    var l := st.logins[v];
    st.(sessions := st.sessions[l.sid := st.sessions[l.sid].(uid := l.uid)], uip := st.uip[l.uid := v],
        users := st.users[UserKey(v, l.uid) := l.sid], usession := st.usession[l.uid := l.sid])
  }

  lemma LeftMoved(st: State, v: SessionLogin.Server, issued: Token, at: LoginAt)
    requires v in st.logins
    ensures Left(GoLogin(st, v, at), v, issued) == Left(st, v, issued)
  {
    assert GoLogin(st, v, at).logins - {v} == st.logins - {v};
  }

  lemma AtIssue(st: State, v: SessionLogin.Server, issued: Token, n: nat)
    requires Running(st, v, IssueToken) && n >= 1
    ensures FollowLogin(st, v, issued, n)
        == st.(utoken := st.utoken[st.logins[v].uid := issued], logins := st.logins - {v})
  {
    assert NextLogin(st, v, issued) == st.(utoken := st.utoken[st.logins[v].uid := issued], logins := st.logins - {v});
  }

  lemma AtUnlock(st: State, v: SessionLogin.Server, issued: Token, n: nat)
    requires Running(st, v, Unlock) && n >= 2
    ensures FollowLogin(st, v, issued, n) == Left(st, v, issued)
  {
    var st1 := st.(lock := Free(st.lock, st.logins[v].uid, LoginOn(v)));
    assert NextLogin(st, v, issued) == GoLogin(st1, v, IssueToken);
    AtIssue(GoLogin(st1, v, IssueToken), v, issued, n - 1);
    assert GoLogin(st1, v, IssueToken).logins - {v} == st.logins - {v};
  }

  lemma AtSetSession(st: State, v: SessionLogin.Server, issued: Token, n: nat)
    requires Running(st, v, SetSession) && n >= 3
    ensures FollowLogin(st, v, issued, n)
         == Left(st.(usession := st.usession[st.logins[v].uid := st.logins[v].sid]), v, issued)
  {
    var st1 := st.(usession := st.usession[st.logins[v].uid := st.logins[v].sid]);
    assert NextLogin(st, v, issued) == GoLogin(st1, v, Unlock);
    AtUnlock(GoLogin(st1, v, Unlock), v, issued, n - 1);
    LeftMoved(st1, v, issued, Unlock);
  }

  lemma AtAddUser(st: State, v: SessionLogin.Server, issued: Token, n: nat)
    requires Running(st, v, AddUser) && n >= 4
    ensures var l := st.logins[v];
      FollowLogin(st, v, issued, n)
        == Left(st.(users := st.users[UserKey(v, l.uid) := l.sid], usession := st.usession[l.uid := l.sid]), v, issued)
  {
    var l := st.logins[v];
    var st1 := st.(users := st.users[UserKey(v, l.uid) := l.sid]);
    assert NextLogin(st, v, issued) == GoLogin(st1, v, SetSession);
    AtSetSession(GoLogin(st1, v, SetSession), v, issued, n - 1);
    LeftMoved(st1.(usession := st.usession[l.uid := l.sid]), v, issued, SetSession);
  }

  lemma AtSetIp(st: State, v: SessionLogin.Server, issued: Token, n: nat)
    requires Running(st, v, SetIp) && n >= 5
    ensures var l := st.logins[v];
      FollowLogin(st, v, issued, n)
        == Left(st.(uip := st.uip[l.uid := v], users := st.users[UserKey(v, l.uid) := l.sid],
                    usession := st.usession[l.uid := l.sid]), v, issued)
  {
    var l := st.logins[v];
    var st1 := st.(uip := st.uip[l.uid := v]);
    assert NextLogin(st, v, issued) == GoLogin(st1, v, AddUser);
    AtAddUser(GoLogin(st1, v, AddUser), v, issued, n - 1);
    var named := st1.(users := st.users[UserKey(v, l.uid) := l.sid], usession := st.usession[l.uid := l.sid]);
    LeftMoved(named, v, issued, AddUser);
  }

  lemma AtBind(st: State, v: SessionLogin.Server, issued: Token, n: nat)
    requires Running(st, v, LoginAt.Bind) && n >= 6
    ensures FollowLogin(st, v, issued, n) == Left(Bound(st, v), v, issued)
  {
    var l := st.logins[v];
    var st1 := st.(sessions := st.sessions[l.sid := st.sessions[l.sid].(uid := l.uid)]);
    assert NextLogin(st, v, issued) == GoLogin(st1, v, SetIp);
    AtSetIp(GoLogin(st1, v, SetIp), v, issued, n - 1);
    LeftMoved(Bound(st, v), v, issued, SetIp);
  }

  /** The prior session that a kick finds through `uip_` and that server's entry. */
  predicate Found(st: State, uid: Uid) { uid in st.uip && UserKey(st.uip[uid], uid) in st.users }

  function KickedOut(st: State, v: SessionLogin.Server, uid: Uid): State {
    if Found(st, uid) then ClearedOn(st, st.uip[uid], st.users[UserKey(st.uip[uid], uid)], LoginOn(v)) else st
  }

  lemma AtEvict(st: State, v: SessionLogin.Server, issued: Token, n: nat, on: SessionLogin.Server, prior: Sid)
    requires Running(st, v, Evict(on, prior)) && on !in st.clearing && n >= 8
    ensures FollowLogin(st, v, issued, n) == Left(Bound(ClearedOn(st, on, prior, LoginOn(v)), v), v, issued)
  {
    var begun := BeginClear(st, on, prior, LoginOn(v));
    assert NextLogin(st, v, issued) == GoLogin(begun, v, Erasing(on, prior));
    AtErasing(GoLogin(begun, v, Erasing(on, prior)), v, issued, n - 1, on, prior);
    LeftMoved(Bound(ClearedOn(st, on, prior, LoginOn(v)), v), v, issued, Erasing(on, prior));
  }

  lemma AtErasing(st: State, v: SessionLogin.Server, issued: Token, n: nat, on: SessionLogin.Server, prior: Sid)
    requires Running(st, v, Erasing(on, prior)) && n >= 7
    ensures FollowLogin(st, v, issued, n) == Left(Bound(EndClear(st, on, prior), v), v, issued)
  {
    var ended := EndClear(st, on, prior);
    assert NextLogin(st, v, issued) == GoLogin(ended, v, LoginAt.Bind);
    AtBind(GoLogin(ended, v, LoginAt.Bind), v, issued, n - 1);
    LeftMoved(Bound(ended, v), v, issued, LoginAt.Bind);
  }

  predicate ServerFree(st: State, uid: Uid) { Found(st, uid) ==> st.uip[uid] !in st.clearing }

  lemma KickedOutMoved(st: State, v: SessionLogin.Server, at: LoginAt)
    requires v in st.logins && st.logins[v].sid in st.sessions
    ensures var uid := st.logins[v].uid;
      Bound(KickedOut(GoLogin(st, v, at), v, uid), v) == GoLogin(Bound(KickedOut(st, v, uid), v), v, at)
  {
  }

  /** Nothing to kick. */
  lemma AtLookupNone(st: State, v: SessionLogin.Server, issued: Token, n: nat)
    requires v in st.logins && !Found(st, st.logins[v].uid) && n >= 9
    requires st.logins[v].uid in st.uip && Running(st, v, Lookup(st.uip[st.logins[v].uid]))
    ensures FollowLogin(st, v, issued, n) == Left(Bound(st, v), v, issued)
  {
    assert NextLogin(st, v, issued) == GoLogin(st, v, LoginAt.Bind);
    AtBind(GoLogin(st, v, LoginAt.Bind), v, issued, n - 1);
    LeftMoved(Bound(st, v), v, issued, LoginAt.Bind);
  }

  lemma AtLookupFound(st: State, v: SessionLogin.Server, issued: Token, n: nat)
    requires v in st.logins && Found(st, st.logins[v].uid) && st.uip[st.logins[v].uid] !in st.clearing && n >= 9
    requires Running(st, v, Lookup(st.uip[st.logins[v].uid]))
    ensures FollowLogin(st, v, issued, n) == Left(Bound(KickedOut(st, v, st.logins[v].uid), v), v, issued)
  {
    var uid := st.logins[v].uid;
    var on := st.uip[uid];
    var prior := st.users[UserKey(on, uid)];
    var st1 := GoLogin(st, v, Evict(on, prior));
    assert NextLogin(st, v, issued) == st1;
    AtEvict(st1, v, issued, n - 1, on, prior);
    KickedOutMoved(st, v, Evict(on, prior));
    LeftMoved(Bound(KickedOut(st, v, uid), v), v, issued, Evict(on, prior));
  }

  lemma AtReadIpNone(st: State, v: SessionLogin.Server, issued: Token, n: nat)
    requires Running(st, v, ReadIp) && st.logins[v].uid !in st.uip && n >= 10
    ensures FollowLogin(st, v, issued, n) == Left(Bound(st, v), v, issued)
  {
    assert NextLogin(st, v, issued) == GoLogin(st, v, LoginAt.Bind);
    AtBind(GoLogin(st, v, LoginAt.Bind), v, issued, n - 1);
    LeftMoved(Bound(st, v), v, issued, LoginAt.Bind);
  }

  lemma AtReadIpNamed(st: State, v: SessionLogin.Server, issued: Token, n: nat)
    requires Running(st, v, ReadIp) && st.logins[v].uid in st.uip && ServerFree(st, st.logins[v].uid) && n >= 10
    ensures FollowLogin(st, v, issued, n) == Left(Bound(KickedOut(st, v, st.logins[v].uid), v), v, issued)
  {
    var uid := st.logins[v].uid;
    var at := Lookup(st.uip[uid]);
    var st1 := GoLogin(st, v, at);
    assert NextLogin(st, v, issued) == st1;
    if Found(st, uid) {
      AtLookupFound(st1, v, issued, n - 1);
      KickedOutMoved(st, v, at);
      LeftMoved(Bound(KickedOut(st, v, uid), v), v, issued, at);
    } else {
      AtLookupNone(st1, v, issued, n - 1);
      LeftMoved(Bound(st, v), v, issued, at);
    }
  }

  lemma AtReadIp(st: State, v: SessionLogin.Server, issued: Token, n: nat)
    requires Running(st, v, ReadIp) && ServerFree(st, st.logins[v].uid) && n >= 10
    ensures FollowLogin(st, v, issued, n) == Left(Bound(KickedOut(st, v, st.logins[v].uid), v), v, issued)
  {
    if st.logins[v].uid in st.uip {
      AtReadIpNamed(st, v, issued, n);
    } else {
      AtReadIpNone(st, v, issued, n);
    }
  }

  /** What a login leaves behind. */
  function AfterLogin(st: State, v: SessionLogin.Server, issued: Token): State
    requires v in st.logins && st.logins[v].sid in st.sessions
  {
    Finished(KickedOut(st, v, st.logins[v].uid), st, v, issued)
  }

  /** The session bound in st1, and what is left of st. */
  function Finished(st1: State, st: State, v: SessionLogin.Server, issued: Token): State
    requires v in st1.logins && st1.logins[v].sid in st1.sessions
  {
    Bound(st1, v).(utoken := st.utoken[st1.logins[v].uid := issued], logins := st.logins - {v})
  }

  /** The state behind the lock. */
  function Entered(st: State, v: SessionLogin.Server): State
    requires v in st.logins
  {
    var uid := st.logins[v].uid;
    st.(utoken := st.utoken - {uid}, lock := st.lock[uid := LoginOn(v)])
  }

  lemma KickedOutEntered(st: State, v: SessionLogin.Server)
    requires v in st.logins
    ensures var uid := st.logins[v].uid; KickedOut(Entered(st, v), v, uid) == Entered(KickedOut(st, v, uid), v)
  {
  }

  lemma LeftEntered(st: State, v: SessionLogin.Server, issued: Token)
    requires v in st.logins && st.logins[v].sid in st.sessions && st.logins[v].uid !in st.lock
    ensures Left(Bound(Entered(st, v), v), v, issued)
         == Bound(st, v).(utoken := st.utoken[st.logins[v].uid := issued], logins := st.logins - {v})
  {
    var uid := st.logins[v].uid;
    assert st.lock[uid := LoginOn(v)] - {uid} == st.lock;
    assert (st.utoken - {uid})[uid := issued] == st.utoken[uid := issued];
  }

  lemma AtAwaitLock(st: State, v: SessionLogin.Server, issued: Token, n: nat)
    requires Running(st, v, AwaitLock) && st.logins[v].uid !in st.lock && ServerFree(st, st.logins[v].uid) && n >= 11
    ensures var held := st.(lock := st.lock[st.logins[v].uid := LoginOn(v)]);
      FollowLogin(st, v, issued, n) == Left(Bound(KickedOut(held, v, st.logins[v].uid), v), v, issued)
  {
    var held := st.(lock := st.lock[st.logins[v].uid := LoginOn(v)]);
    assert NextLogin(st, v, issued) == GoLogin(held, v, ReadIp);
    AtReadIp(GoLogin(held, v, ReadIp), v, issued, n - 1);
    KickedOutMoved(held, v, ReadIp);
    LeftMoved(Bound(KickedOut(held, v, st.logins[v].uid), v), v, issued, ReadIp);
  }

  lemma AtTokenRead(st: State, v: SessionLogin.Server, issued: Token, n: nat)
    requires Running(st, v, TokenRead) && st.logins[v].uid !in st.lock && ServerFree(st, st.logins[v].uid) && n >= 12
    ensures FollowLogin(st, v, issued, n) == Left(Bound(KickedOut(Entered(st, v), v, st.logins[v].uid), v), v, issued)
  {
    var used := st.(utoken := st.utoken - {st.logins[v].uid});
    assert NextLogin(st, v, issued) == GoLogin(used, v, AwaitLock);
    AtAwaitLock(GoLogin(used, v, AwaitLock), v, issued, n - 1);
    KickedOutMoved(Entered(st, v), v, AwaitLock);
    LeftMoved(Bound(KickedOut(Entered(st, v), v, st.logins[v].uid), v), v, issued, AwaitLock);
  }

  /** Run alone, an accepted login ends after at most twelve transitions. */
  lemma LoginAlone(st: State, v: SessionLogin.Server, issued: Token, n: nat)
    requires Running(st, v, TokenRead) && st.logins[v].uid !in st.lock && ServerFree(st, st.logins[v].uid) && n >= 12
    ensures FollowLogin(st, v, issued, n) == AfterLogin(st, v, issued)
  {
    AtTokenRead(st, v, issued, n);
    KickedOutEntered(st, v);
    LeftEntered(KickedOut(st, v, st.logins[v].uid), v, issued);
  }

  /** Every server after the binding. */
  lemma BoundMatches(side: Side, st: State, w: SessionLogin.Server, v: SessionLogin.Server)
    requires Shows(side, st, w) && v in st.logins && st.logins[v].sid in st.sessions
    requires st.sessions[st.logins[v].sid].server == v
    ensures var l := st.logins[v]; Shows(if w == v then BoundOn(side, l.sid, l.uid) else side, Bound(st, v), w)
  {
  }

  /** Every server after the kick. */
  lemma KickMatches(side: Side, st: State, w: SessionLogin.Server, v: SessionLogin.Server, uid: Uid)
    requires Shows(side, st, w) && UsersOk(st)
    ensures Shows(if Names(st.uip, uid, w) then Kicked(side, uid) else side, KickedOut(st, v, uid), w)
  {
    if Found(st, uid) {
      var on := st.uip[uid];
      ClearMatches(side, st, w, on, st.users[UserKey(on, uid)], LoginOn(v));
    }
  }

  /** What a login leaves behind is what the method computes, on every server, and nothing else. */
  ghost predicate LoggedInTo(st: State, st': State, v: SessionLogin.Server, sid: Sid, uid: Uid, issued: Token) {
    && (forall side, w | Shows(side, st, w) :: Shows(LoggedIn(side, st.uip, w, v, sid, uid), st', w))
    && KeysOf(st') == LoggedInKeys(KeysOf(st), v, sid, uid, issued)
    && st'.lock == st.lock && st'.clearing == st.clearing && st'.cleanups == st.cleanups
  }

  lemma AfterLoginMatches(st: State, v: SessionLogin.Server, issued: Token, side: Side, w: SessionLogin.Server)
    requires UsersOk(st) && v in st.logins && st.logins[v].sid in st.sessions
    requires st.sessions[st.logins[v].sid].server == v && Shows(side, st, w)
    ensures Shows(LoggedIn(side, st.uip, w, v, st.logins[v].sid, st.logins[v].uid), AfterLogin(st, v, issued), w)
  {
    var uid := st.logins[v].uid;
    KickMatches(side, st, w, v, uid);
    FinishedMatches(if Names(st.uip, uid, w) then Kicked(side, uid) else side, KickedOut(st, v, uid), st, w, v, issued);
  }

  lemma FinishedMatches(
      side: Side, st1: State, st: State, w: SessionLogin.Server, v: SessionLogin.Server, issued: Token)
    requires Shows(side, st1, w) && v in st1.logins && st1.logins[v].sid in st1.sessions
    requires st1.sessions[st1.logins[v].sid].server == v
    ensures var l := st1.logins[v];
      Shows(if w == v then BoundOn(side, l.sid, l.uid) else side, Finished(st1, st, v, issued), w)
  {
    var l := st1.logins[v];
    BoundMatches(side, st1, w, v);
    ShowsToo(if w == v then BoundOn(side, l.sid, l.uid) else side, Bound(st1, v), Finished(st1, st, v, issued), w);
  }

  lemma RestAfterLogin(st: State, v: SessionLogin.Server, issued: Token)
    requires v in st.logins && st.logins[v].sid in st.sessions && ServerFree(st, st.logins[v].uid)
    ensures var l, st' := st.logins[v], AfterLogin(st, v, issued);
      && KeysOf(st') == LoggedInKeys(KeysOf(st), v, l.sid, l.uid, issued)
      && st'.lock == st.lock && st'.clearing == st.clearing && st'.cleanups == st.cleanups
  {
    assert KickedOut(st, v, st.logins[v].uid).clearing == st.clearing;
  }

  lemma SideAfterLogin(st: State, v: SessionLogin.Server, sid: Sid, uid: Uid, token: Token, issued: Token,
                       side: Side, w: SessionLogin.Server)
    requires UsersOk(st) && Enabled(st, ReadToken(v, sid, uid, token)) && Shows(side, st, w)
    ensures var end := AfterLogin(Next(st, ReadToken(v, sid, uid, token)), v, issued);
      Shows(LoggedIn(side, st.uip, w, v, sid, uid), end, w)
  {
    var st1 := Next(st, ReadToken(v, sid, uid, token));
    ShowsToo(side, st, st1, w);
    AfterLoginMatches(st1, v, issued, side, w);
  }

  /** From the check to its end, a login run alone does what the method does. */
  lemma LoginMatches(st: State, v: SessionLogin.Server, sid: Sid, uid: Uid, token: Token, issued: Token, n: nat)
    requires UsersOk(st) && Enabled(st, ReadToken(v, sid, uid, token)) && uid !in st.lock && ServerFree(st, uid)
    requires n >= 12
    ensures var st' := FollowLogin(Next(st, ReadToken(v, sid, uid, token)), v, issued, n);
      LoggedInTo(st, st', v, sid, uid, issued) && st'.logins == st.logins
  {
    var st1 := Next(st, ReadToken(v, sid, uid, token));
    LoginAlone(st1, v, issued, n);
    RestAfterLogin(st1, v, issued);
    forall side, w | Shows(side, st, w)
      ensures Shows(LoggedIn(side, st.uip, w, v, sid, uid), AfterLogin(st1, v, issued), w)
    {
      SideAfterLogin(st, v, sid, uid, token, issued, side, w);
    }
    assert st1.logins - {v} == st.logins;
  }

  /** A login that the database refuses after the check: only the token is used up. */
  lemma RefusedMatches(st: State, v: SessionLogin.Server, sid: Sid, uid: Uid, token: Token)
    requires Enabled(st, ReadToken(v, sid, uid, token))
    ensures var st1 := Next(st, ReadToken(v, sid, uid, token));
      Enabled(st1, LoginStep(v, 0)) && Enabled(NextLogin(st1, v, 0), AbortLogin(v))
      && Next(NextLogin(st1, v, 0), AbortLogin(v)) == st.(utoken := Without(st.utoken, uid, true))
  {
    var st1 := Next(st, ReadToken(v, sid, uid, token));
    assert NextLogin(st1, v, 0) == GoLogin(st1.(utoken := st.utoken - {uid}), v, AwaitLock);
    assert st.logins[v := Login(sid, uid, AwaitLock)] - {v} == st.logins;
    assert Next(NextLogin(st1, v, 0), AbortLogin(v)).logins == st.logins;
  }
}
