/**
  Single login across SessionServers: a state machine over any number of servers, users,
  connections and clean-up runs.

  One transition is one access to shared state: a Redis command, an access to `UserManager`,
  or one of the two halves of `Server::ClearSession` (`UserManager::RemoveSession`, then the
  erase), which run under that server's `_mutex`.
*/
module SessionLogin {

  type Server = nat
  type Sid = nat
  type Uid = int
  type Task = nat
  type Token = nat

  /** A `Session` object: the server that accepted it and its `_user_uid` (0 before a login). */
  datatype Session = Session(server: Server, uid: Uid)

  /** Key of an entry of one server's `UserManager::_sessions`. */
  datatype UserKey = UserKey(server: Server, uid: Uid)

  datatype Holder = LoginOn(server: Server) | CleanupBy(task: Task)

  /** A `ClearSession` that has removed the user entry and still has to erase the session. */
  datatype Clearing = Clearing(sid: Sid, holder: Holder)

  /** Where `LoginHandler` stands; `Lookup` and `Evict` run on server `on`, by RPC if that is a peer. */
  datatype LoginAt =
    | TokenRead
    | AwaitLock
    | ReadIp
    | Lookup(on: Server)
    | Evict(on: Server, prior: Sid)
    | Erasing(on: Server, prior: Sid)
    | Bind
    | SetIp
    | AddUser
    | SetSession
    | Unlock
    | IssueToken

  datatype Login = Login(sid: Sid, uid: Uid, at: LoginAt)

  /** What a clean-up knows when it comes to `ClearSession`: `usession_` names its session, or
      another one; or it has no lock and looked at nothing. */
  datatype Basis = Owner | NotOwner | NoLock

  /** Where `DealExceptionSession` stands. */
  datatype CleanupAt =
    | WaitLock
    | ReadSession
    | DelSession
    | DelIp
    | DelToken
    | Clear(basis: Basis)
    | Erase(basis: Basis)
    | Release(basis: Basis)

  /** `uid` is the value of `_user_uid` when the clean-up started. */
  datatype Cleanup = Cleanup(sid: Sid, uid: Uid, at: CleanupAt)

  datatype State = State(
    sessions: map<Sid, Session>,      // every Session object created so far
    live: set<Sid>,                   // the union of all Server::_sessions
    users: map<UserKey, Sid>,         // all UserManager::_sessions
    clearing: map<Server, Clearing>,  // who holds Server::_mutex inside ClearSession
    uip: map<Uid, Server>,
    usession: map<Uid, Sid>,
    utoken: map<Uid, Token>,
    lock: map<Uid, Holder>,
    logins: map<Server, Login>,       // one logic thread a server
    cleanups: map<Task, Cleanup>)

  datatype Step =
    | Accept(sid: Sid, server: Server)
    | Handshake(uid: Uid, token: Token)
    | ExpireToken(uid: Uid)
    | ReadToken(server: Server, sid: Sid, uid: Uid, token: Token)
    | AbortLogin(server: Server)
    | LoginStep(server: Server, token: Token)
    | LoginWithoutLock(server: Server)             // acquireLock gave an empty identifier
    | StartCleanup(task: Task, sid: Sid)
    | CleanupStep(task: Task, replied: bool)       // replied: the lock was obtained, the Redis command succeeded

  ghost predicate Init(st: State) {
    && st.live == {} && st.users == map[] && st.clearing == map[] && st.lock == map[]
    && st.logins == map[] && st.cleanups == map[]
  }

  // ---------------------------------------------------------------- transitions

  /** `UserManager::RemoveSession`: drops the entry only if it still names the session. */
  function RemoveEntry<K(==)>(entries: map<K, Sid>, key: K, sid: Sid): map<K, Sid> {
    if key in entries && entries[key] == sid then entries - {key} else entries
  }

  /** First half of `Server::ClearSession` on server `on`, up to and including `RemoveSession`. */
  function BeginClear(st: State, on: Server, sid: Sid, holder: Holder): State {
    var users := if sid in st.live && sid in st.sessions && st.sessions[sid].server == on
                 then RemoveEntry(st.users, UserKey(on, st.sessions[sid].uid), sid)
                 else st.users;
    st.(users := users, clearing := st.clearing[on := Clearing(sid, holder)])
  }

  /** Second half: erase, then `_mutex` is free again. */
  function EndClear(st: State, on: Server, sid: Sid): State {
    st.(live := st.live - {sid}, clearing := st.clearing - {on})
  }

  function GoLogin(st: State, v: Server, at: LoginAt): State
    requires v in st.logins
  {
    st.(logins := st.logins[v := st.logins[v].(at := at)])
  }

  function GoCleanup(st: State, t: Task, at: CleanupAt): State
    requires t in st.cleanups
  {
    st.(cleanups := st.cleanups[t := st.cleanups[t].(at := at)])
  }

  function Free(lock: map<Uid, Holder>, uid: Uid, holder: Holder): map<Uid, Holder> {
    if uid in lock && lock[uid] == holder then lock - {uid} else lock
  }

  predicate Enabled(st: State, step: Step) {
    match step
    case Accept(sid, v) => sid !in st.sessions && v !in st.clearing
    case Handshake(_, _) => true
    case ExpireToken(_) => true
    case ReadToken(v, sid, uid, token) =>
      && v !in st.logins && sid in st.sessions && st.sessions[sid].server == v
      && uid in st.utoken && st.utoken[uid] == token
    case AbortLogin(v) => v in st.logins && st.logins[v].at.AwaitLock?
    case LoginWithoutLock(v) => v in st.logins && st.logins[v].at.AwaitLock?
    case LoginStep(v, _) =>
      && v in st.logins && st.logins[v].sid in st.sessions
      && (st.logins[v].at.AwaitLock? ==> st.logins[v].uid !in st.lock)
      && (st.logins[v].at.Evict? ==> st.logins[v].at.on !in st.clearing)
    case StartCleanup(t, sid) => t !in st.cleanups && sid in st.sessions
    case CleanupStep(t, replied) =>
      && t in st.cleanups && st.cleanups[t].sid in st.sessions
      && (st.cleanups[t].at.WaitLock? && replied ==> st.cleanups[t].uid !in st.lock)
      && (st.cleanups[t].at.Clear? ==> st.sessions[st.cleanups[t].sid].server !in st.clearing)
  }

  function NextLogin(st: State, v: Server, token: Token): State
    requires Enabled(st, LoginStep(v, token))
  {
    var l := st.logins[v];
    match l.at
    case TokenRead => GoLogin(st.(utoken := st.utoken - {l.uid}), v, AwaitLock)
    case AwaitLock => GoLogin(st.(lock := st.lock[l.uid := LoginOn(v)]), v, ReadIp)
    case ReadIp => GoLogin(st, v, if l.uid in st.uip then Lookup(st.uip[l.uid]) else Bind)
    case Lookup(on) =>
      var key := UserKey(on, l.uid);
      GoLogin(st, v, if key in st.users then Evict(on, st.users[key]) else Bind)
    case Evict(on, prior) => GoLogin(BeginClear(st, on, prior, LoginOn(v)), v, Erasing(on, prior))
    case Erasing(on, prior) => GoLogin(EndClear(st, on, prior), v, Bind)
    case Bind =>
      GoLogin(st.(sessions := st.sessions[l.sid := st.sessions[l.sid].(uid := l.uid)]), v, SetIp)
    case SetIp => GoLogin(st.(uip := st.uip[l.uid := v]), v, AddUser)
    case AddUser => GoLogin(st.(users := st.users[UserKey(v, l.uid) := l.sid]), v, SetSession)
    case SetSession => GoLogin(st.(usession := st.usession[l.uid := l.sid]), v, Unlock)
    case Unlock => GoLogin(st.(lock := Free(st.lock, l.uid, LoginOn(v))), v, IssueToken)
    case IssueToken => st.(utoken := st.utoken[l.uid := token], logins := st.logins - {v})
  }

  function NextCleanup(st: State, t: Task, replied: bool): State
    requires Enabled(st, CleanupStep(t, replied))
  {
    var c := st.cleanups[t];
    var on := st.sessions[c.sid].server;
    match c.at
    case WaitLock =>
      if replied then GoCleanup(st.(lock := st.lock[c.uid := CleanupBy(t)]), t, ReadSession)
      else GoCleanup(st, t, Clear(NoLock))
    case ReadSession =>
      GoCleanup(st, t, if replied && c.uid in st.usession && st.usession[c.uid] == c.sid
                       then DelSession else Clear(NotOwner))
    case DelSession =>
      GoCleanup(if replied then st.(usession := st.usession - {c.uid}) else st, t, DelIp)
    case DelIp => GoCleanup(if replied then st.(uip := st.uip - {c.uid}) else st, t, DelToken)
    case DelToken => GoCleanup(if replied then st.(utoken := st.utoken - {c.uid}) else st, t, Clear(Owner))
    case Clear(basis) => GoCleanup(BeginClear(st, on, c.sid, CleanupBy(t)), t, Erase(basis))
    case Erase(basis) => GoCleanup(EndClear(st, on, c.sid), t, Release(basis))
    case Release(_) =>
      st.(lock := Free(st.lock, c.uid, CleanupBy(t)), cleanups := st.cleanups - {t})
  }

  function Next(st: State, step: Step): State
    requires Enabled(st, step)
  {
    match step
    case Accept(sid, v) =>
      st.(sessions := st.sessions[sid := Session(v, 0)], live := st.live + {sid})
    case Handshake(uid, token) => st.(utoken := st.utoken[uid := token])
    case ExpireToken(uid) => st.(utoken := st.utoken - {uid})
    case ReadToken(v, sid, uid, token) => st.(logins := st.logins[v := Login(sid, uid, TokenRead)])
    case AbortLogin(v) => st.(logins := st.logins - {v})
    case LoginWithoutLock(v) => GoLogin(st, v, ReadIp)
    case LoginStep(v, token) => NextLogin(st, v, token)
    case StartCleanup(t, sid) =>
      st.(cleanups := st.cleanups[t := Cleanup(sid, st.sessions[sid].uid, WaitLock)])
    case CleanupStep(t, replied) => NextCleanup(st, t, replied)
  }

  /** The transition that takes or releases the lock. */
  predicate TouchesLock(st: State, step: Step) {
    match step
    case LoginStep(v, _) => v in st.logins && (st.logins[v].at.AwaitLock? || st.logins[v].at.Unlock?)
    case CleanupStep(t, replied) =>
      t in st.cleanups && ((st.cleanups[t].at.WaitLock? && replied) || st.cleanups[t].at.Release?)
    case _ => false
  }

  ghost predicate Run(run: seq<State>, steps: seq<Step>) {
    && |run| == |steps| + 1
    && Init(run[0])
    && forall i | 0 <= i < |steps| :: Enabled(run[i], steps[i]) && run[i + 1] == Next(run[i], steps[i])
  }

  /** A login of the user goes on without the lock. */
  predicate Lockless(st: State, step: Step, u: Uid) {
    step.LoginWithoutLock? && step.server in st.logins && st.logins[step.server].uid == u
  }

  /** A run in which every login of this user obtains the lock. Logins of other users may fail to. */
  ghost predicate LockedRun(run: seq<State>, steps: seq<Step>, u: Uid) {
    Run(run, steps) && forall i | 0 <= i < |steps| :: !Lockless(run[i], steps[i], u)
  }

  // ---------------------------------------------------------------- what every step keeps

  predicate LoginInside(at: LoginAt) { !at.TokenRead? && !at.AwaitLock? && !at.IssueToken? }

  ghost predicate LoginOk(st: State, v: Server, l: Login, u: Uid) {
    && l.sid in st.sessions && st.sessions[l.sid].server == v
    && (LoginInside(l.at) && l.uid == u ==> u in st.lock && st.lock[u] == LoginOn(v))
    && (l.at.Evict? ==> l.at.prior in st.sessions && st.sessions[l.at.prior].server == l.at.on)
    && (l.at.Erasing? ==> l.at.on in st.clearing && st.clearing[l.at.on] == Clearing(l.at.prior, LoginOn(v)))
  }

  predicate CleanupInside(at: CleanupAt) {
    match at
    case WaitLock => false
    case Clear(basis) => basis != NoLock
    case Erase(basis) => basis != NoLock
    case Release(basis) => basis != NoLock
    case _ => true
  }

  ghost predicate CleanupOk(st: State, t: Task, c: Cleanup) {
    && c.sid in st.sessions
    && (CleanupInside(c.at) ==> c.uid in st.lock && st.lock[c.uid] == CleanupBy(t))
    && (c.at.Erase? ==>
          var on := st.sessions[c.sid].server;
          on in st.clearing && st.clearing[on] == Clearing(c.sid, CleanupBy(t)))
  }

  ghost predicate LockOk(st: State, u: Uid, h: Holder) {
    match h
    case LoginOn(v) => v in st.logins && st.logins[v].uid == u && LoginInside(st.logins[v].at)
    case CleanupBy(t) => t in st.cleanups && st.cleanups[t].uid == u && CleanupInside(st.cleanups[t].at)
  }

  ghost predicate UsersOk(st: State) {
    && st.live <= st.sessions.Keys
    && (forall k | k in st.users :: st.users[k] in st.sessions && st.sessions[st.users[k]].server == k.server)
    && (forall v | v in st.clearing ::
          st.clearing[v].sid in st.sessions && st.sessions[st.clearing[v].sid].server == v)
  }

  /** `ClearSession` for the session is about to erase it and still holds `_mutex`. */
  predicate Doomed(st: State, s: Sid) {
    && s in st.sessions
    && st.sessions[s].server in st.clearing
    && st.clearing[st.sessions[s].server].sid == s
  }

  /** In `_sessions` with this user, as any holder of `_mutex` would see it. */
  predicate Active(st: State, s: Sid, u: Uid) {
    s in st.live && s in st.sessions && st.sessions[s].uid == u && !Doomed(st, s)
  }

  predicate UserEntry(st: State, on: Server, u: Uid, s: Sid) {
    UserKey(on, u) in st.users && st.users[UserKey(on, u)] == s
  }

  /** `usession_`, `uip_` and the server's user entry all name the session. */
  predicate Named(st: State, s: Sid, u: Uid) {
    && s in st.sessions
    && u in st.usession && st.usession[u] == s
    && u in st.uip && st.uip[u] == st.sessions[s].server
    && UserEntry(st, st.sessions[s].server, u, s)
  }

  /** What an active session of the user must satisfy, by who holds the user's lock and where. */
  ghost predicate Claim(st: State, s: Sid, u: Uid)
    requires s in st.sessions
  {
    if u !in st.lock then Named(st, s, u)
    else match st.lock[u]
      case LoginOn(v) => (v in st.logins &&
        var l := st.logins[v];
        match l.at
         case Lookup(on) => st.sessions[s].server == on && UserEntry(st, on, u, s)
         case Evict(on, prior) => s == prior
         case Erasing(_, _) => false
         case Bind => false
         case SetIp => s == l.sid
         case AddUser => s == l.sid && u in st.uip && st.uip[u] == v
         case SetSession => s == l.sid && u in st.uip && st.uip[u] == v && UserEntry(st, v, u, s)
         case _ => Named(st, s, u))
      case CleanupBy(t) => (t in st.cleanups &&
        var c := st.cleanups[t];
        match c.at
         case DelSession => s == c.sid
         case DelIp => s == c.sid
         case DelToken => s == c.sid
         case Clear(basis) => if basis == Owner then s == c.sid else Named(st, s, u)
         case Erase(basis) => basis != Owner && Named(st, s, u)
         case Release(basis) => basis != Owner && Named(st, s, u)
         case _ => Named(st, s, u))
  }

  ghost predicate ShapeAt(st: State, u: Uid, v: Server, t: Task) {
    && (v in st.logins ==> LoginOk(st, v, st.logins[v], u))
    && (t in st.cleanups ==> CleanupOk(st, t, st.cleanups[t]))
    && (u in st.lock ==> LockOk(st, u, st.lock[u]))
  }

  /** The invariant at one session, user, server and clean-up. */
  ghost predicate InvAt(st: State, s: Sid, u: Uid, v: Server, t: Task) {
    ShapeAt(st, u, v, t) && (u != 0 && Active(st, s, u) ==> Claim(st, s, u))
  }

  ghost predicate Inv(st: State, u: Uid) {
    UsersOk(st) && forall s, v, t :: InvAt(st, s, u, v, t)
  }

  ghost predicate LoginAllowed(st: State, on: Server, token: Token, u: Uid) {
    UsersOk(st) && Enabled(st, LoginStep(on, token)) && LoginOk(st, on, st.logins[on], u)
  }

  ghost predicate CleanupAllowed(st: State, c: Task, replied: bool) {
    UsersOk(st) && Enabled(st, CleanupStep(c, replied)) && CleanupOk(st, c, st.cleanups[c])
  }

  lemma ShapeLogin(st: State, on: Server, token: Token, u: Uid, v: Server, t: Task)
    requires LoginAllowed(st, on, token, u) && ShapeAt(st, u, v, t)
    ensures UsersOk(NextLogin(st, on, token)) && ShapeAt(NextLogin(st, on, token), u, v, t)
  {
    match st.logins[on].at {
      case TokenRead | AwaitLock => ShapeGate(st, on, token, u, v, t);
      case ReadIp | Lookup(_) => ShapeFind(st, on, token, u, v, t);
      case Evict(_, _) => ShapeEvict(st, on, token, u, v, t);
      case Erasing(_, _) => ShapeErase(st, on, token, u, v, t);
      case Bind | SetIp => ShapeBind(st, on, token, u, v, t);
      case AddUser | SetSession => ShapePublish(st, on, token, u, v, t);
      case Unlock | IssueToken => ShapeFinish(st, on, token, u, v, t);
    }
  }

  lemma ShapeGate(st: State, on: Server, token: Token, u: Uid, v: Server, t: Task)
    requires LoginAllowed(st, on, token, u) && ShapeAt(st, u, v, t)
    requires st.logins[on].at.TokenRead? || st.logins[on].at.AwaitLock?
    ensures UsersOk(NextLogin(st, on, token)) && ShapeAt(NextLogin(st, on, token), u, v, t)
  {
  }

  lemma ShapeFind(st: State, on: Server, token: Token, u: Uid, v: Server, t: Task)
    requires LoginAllowed(st, on, token, u) && ShapeAt(st, u, v, t)
    requires st.logins[on].at.ReadIp? || st.logins[on].at.Lookup?
    ensures UsersOk(NextLogin(st, on, token)) && ShapeAt(NextLogin(st, on, token), u, v, t)
  {
  }

  lemma ShapeEvict(st: State, on: Server, token: Token, u: Uid, v: Server, t: Task)
    requires LoginAllowed(st, on, token, u) && ShapeAt(st, u, v, t) && st.logins[on].at.Evict?
    ensures UsersOk(NextLogin(st, on, token)) && ShapeAt(NextLogin(st, on, token), u, v, t)
  {
  }

  lemma ShapeErase(st: State, on: Server, token: Token, u: Uid, v: Server, t: Task)
    requires LoginAllowed(st, on, token, u) && ShapeAt(st, u, v, t) && st.logins[on].at.Erasing?
    ensures UsersOk(NextLogin(st, on, token)) && ShapeAt(NextLogin(st, on, token), u, v, t)
  {
  }

  lemma ShapeBind(st: State, on: Server, token: Token, u: Uid, v: Server, t: Task)
    requires LoginAllowed(st, on, token, u) && ShapeAt(st, u, v, t)
    requires st.logins[on].at.Bind? || st.logins[on].at.SetIp?
    ensures UsersOk(NextLogin(st, on, token)) && ShapeAt(NextLogin(st, on, token), u, v, t)
  {
  }

  lemma ShapePublish(st: State, on: Server, token: Token, u: Uid, v: Server, t: Task)
    requires LoginAllowed(st, on, token, u) && ShapeAt(st, u, v, t)
    requires st.logins[on].at.AddUser? || st.logins[on].at.SetSession?
    ensures UsersOk(NextLogin(st, on, token)) && ShapeAt(NextLogin(st, on, token), u, v, t)
  {
  }

  lemma ShapeFinish(st: State, on: Server, token: Token, u: Uid, v: Server, t: Task)
    requires LoginAllowed(st, on, token, u) && ShapeAt(st, u, v, t)
    requires st.logins[on].at.Unlock? || st.logins[on].at.IssueToken?
    ensures UsersOk(NextLogin(st, on, token)) && ShapeAt(NextLogin(st, on, token), u, v, t)
  {
  }

  lemma ShapeCleanup(st: State, c: Task, replied: bool, u: Uid, v: Server, t: Task)
    requires CleanupAllowed(st, c, replied) && ShapeAt(st, u, v, t)
    ensures UsersOk(NextCleanup(st, c, replied)) && ShapeAt(NextCleanup(st, c, replied), u, v, t)
  {
    match st.cleanups[c].at {
      case WaitLock | ReadSession => ShapeWait(st, c, replied, u, v, t);
      case DelSession | DelIp | DelToken => ShapeDelete(st, c, replied, u, v, t);
      case Clear(_) => ShapeClear(st, c, replied, u, v, t);
      case Erase(_) => ShapeErased(st, c, replied, u, v, t);
      case Release(_) => ShapeRelease(st, c, replied, u, v, t);
    }
  }

  lemma ShapeWait(st: State, c: Task, replied: bool, u: Uid, v: Server, t: Task)
    requires CleanupAllowed(st, c, replied) && ShapeAt(st, u, v, t)
    requires st.cleanups[c].at.WaitLock? || st.cleanups[c].at.ReadSession?
    ensures UsersOk(NextCleanup(st, c, replied)) && ShapeAt(NextCleanup(st, c, replied), u, v, t)
  {
  }

  lemma ShapeDelete(st: State, c: Task, replied: bool, u: Uid, v: Server, t: Task)
    requires CleanupAllowed(st, c, replied) && ShapeAt(st, u, v, t)
    requires st.cleanups[c].at.DelSession? || st.cleanups[c].at.DelIp? || st.cleanups[c].at.DelToken?
    ensures UsersOk(NextCleanup(st, c, replied)) && ShapeAt(NextCleanup(st, c, replied), u, v, t)
  {
  }

  lemma ShapeClear(st: State, c: Task, replied: bool, u: Uid, v: Server, t: Task)
    requires CleanupAllowed(st, c, replied) && ShapeAt(st, u, v, t) && st.cleanups[c].at.Clear?
    ensures UsersOk(NextCleanup(st, c, replied)) && ShapeAt(NextCleanup(st, c, replied), u, v, t)
  {
  }

  lemma ShapeErased(st: State, c: Task, replied: bool, u: Uid, v: Server, t: Task)
    requires CleanupAllowed(st, c, replied) && ShapeAt(st, u, v, t) && st.cleanups[c].at.Erase?
    ensures UsersOk(NextCleanup(st, c, replied)) && ShapeAt(NextCleanup(st, c, replied), u, v, t)
  {
  }

  lemma ShapeRelease(st: State, c: Task, replied: bool, u: Uid, v: Server, t: Task)
    requires CleanupAllowed(st, c, replied) && ShapeAt(st, u, v, t) && st.cleanups[c].at.Release?
    ensures UsersOk(NextCleanup(st, c, replied)) && ShapeAt(NextCleanup(st, c, replied), u, v, t)
  {
  }

  lemma ShapeRequest(st: State, step: Step, u: Uid, v: Server, t: Task)
    requires UsersOk(st) && Enabled(st, step) && !step.LoginStep? && !step.CleanupStep? && !Lockless(st, step, u)
    requires ShapeAt(st, u, v, t)
    ensures UsersOk(Next(st, step)) && ShapeAt(Next(st, step), u, v, t)
  {
  }

  lemma ClaimRequest(st: State, step: Step, s: Sid, u: Uid, v: Server, t: Task)
    requires UsersOk(st) && Enabled(st, step) && !step.LoginStep? && !step.CleanupStep? && !Lockless(st, step, u)
    requires InvAt(st, s, u, v, t) && u != 0 && Active(Next(st, step), s, u)
    ensures Claim(Next(st, step), s, u)
  {
  }

  lemma ClaimGate(st: State, on: Server, token: Token, s: Sid, u: Uid, t: Task)
    requires LoginAllowed(st, on, token, u) && InvAt(st, s, u, on, t)
    requires u != 0 && Active(NextLogin(st, on, token), s, u)
    requires st.logins[on].at.TokenRead? || st.logins[on].at.AwaitLock?
    ensures Claim(NextLogin(st, on, token), s, u)
  {
  }

  lemma ClaimFind(st: State, on: Server, token: Token, s: Sid, u: Uid, t: Task)
    requires LoginAllowed(st, on, token, u) && InvAt(st, s, u, on, t)
    requires u != 0 && Active(NextLogin(st, on, token), s, u)
    requires st.logins[on].at.ReadIp? || st.logins[on].at.Lookup?
    ensures Claim(NextLogin(st, on, token), s, u)
  {
  }

  lemma ClaimEvict(st: State, on: Server, token: Token, s: Sid, u: Uid, t: Task)
    requires LoginAllowed(st, on, token, u) && InvAt(st, s, u, on, t)
    requires u != 0 && Active(NextLogin(st, on, token), s, u)
    requires st.logins[on].at.Evict? || st.logins[on].at.Erasing?
    ensures Claim(NextLogin(st, on, token), s, u)
  {
  }

  lemma ClaimBind(st: State, on: Server, token: Token, s: Sid, u: Uid, t: Task)
    requires LoginAllowed(st, on, token, u) && InvAt(st, s, u, on, t)
    requires u != 0 && Active(NextLogin(st, on, token), s, u)
    requires st.logins[on].at.Bind?
    ensures Claim(NextLogin(st, on, token), s, u)
  {
  }

  lemma ClaimSetIp(st: State, on: Server, token: Token, s: Sid, u: Uid, t: Task)
    requires LoginAllowed(st, on, token, u) && InvAt(st, s, u, on, t)
    requires u != 0 && Active(NextLogin(st, on, token), s, u)
    requires st.logins[on].at.SetIp?
    ensures Claim(NextLogin(st, on, token), s, u)
  {
  }

  lemma ClaimAddUser(st: State, on: Server, token: Token, s: Sid, u: Uid, t: Task)
    requires LoginAllowed(st, on, token, u) && InvAt(st, s, u, on, t)
    requires u != 0 && Active(NextLogin(st, on, token), s, u)
    requires st.logins[on].at.AddUser?
    ensures Claim(NextLogin(st, on, token), s, u)
  {
  }

  lemma ClaimSession(st: State, on: Server, token: Token, s: Sid, u: Uid, t: Task)
    requires LoginAllowed(st, on, token, u) && InvAt(st, s, u, on, t)
    requires u != 0 && Active(NextLogin(st, on, token), s, u)
    requires st.logins[on].at.SetSession?
    ensures Claim(NextLogin(st, on, token), s, u)
  {
  }

  lemma ClaimUnlock(st: State, on: Server, token: Token, s: Sid, u: Uid, t: Task)
    requires LoginAllowed(st, on, token, u) && InvAt(st, s, u, on, t)
    requires u != 0 && Active(NextLogin(st, on, token), s, u)
    requires st.logins[on].at.Unlock?
    ensures Claim(NextLogin(st, on, token), s, u)
  {
  }

  lemma ClaimIssue(st: State, on: Server, token: Token, s: Sid, u: Uid, t: Task)
    requires LoginAllowed(st, on, token, u) && InvAt(st, s, u, on, t)
    requires u != 0 && Active(NextLogin(st, on, token), s, u)
    requires st.logins[on].at.IssueToken?
    ensures Claim(NextLogin(st, on, token), s, u)
  {
  }

  lemma ClaimWait(st: State, c: Task, replied: bool, s: Sid, u: Uid, v: Server)
    requires CleanupAllowed(st, c, replied) && InvAt(st, s, u, v, c)
    requires u != 0 && Active(NextCleanup(st, c, replied), s, u)
    requires st.cleanups[c].at.WaitLock? || st.cleanups[c].at.ReadSession?
    ensures Claim(NextCleanup(st, c, replied), s, u)
  {
  }

  lemma ClaimDelSession(st: State, c: Task, replied: bool, s: Sid, u: Uid, v: Server)
    requires CleanupAllowed(st, c, replied) && InvAt(st, s, u, v, c)
    requires u != 0 && Active(NextCleanup(st, c, replied), s, u)
    requires st.cleanups[c].at.DelSession?
    ensures Claim(NextCleanup(st, c, replied), s, u)
  {
  }

  lemma ClaimDelIp(st: State, c: Task, replied: bool, s: Sid, u: Uid, v: Server)
    requires CleanupAllowed(st, c, replied) && InvAt(st, s, u, v, c)
    requires u != 0 && Active(NextCleanup(st, c, replied), s, u)
    requires st.cleanups[c].at.DelIp?
    ensures Claim(NextCleanup(st, c, replied), s, u)
  {
  }

  lemma ClaimDelToken(st: State, c: Task, replied: bool, s: Sid, u: Uid, v: Server)
    requires CleanupAllowed(st, c, replied) && InvAt(st, s, u, v, c)
    requires u != 0 && Active(NextCleanup(st, c, replied), s, u)
    requires st.cleanups[c].at.DelToken?
    ensures Claim(NextCleanup(st, c, replied), s, u)
  {
  }

  lemma ClaimClear(st: State, c: Task, replied: bool, s: Sid, u: Uid, v: Server)
    requires CleanupAllowed(st, c, replied) && InvAt(st, s, u, v, c)
    requires u != 0 && Active(NextCleanup(st, c, replied), s, u)
    requires st.cleanups[c].at.Clear? || st.cleanups[c].at.Erase?
    ensures Claim(NextCleanup(st, c, replied), s, u)
  {
  }

  lemma ClaimRelease(st: State, c: Task, replied: bool, s: Sid, u: Uid, v: Server)
    requires CleanupAllowed(st, c, replied) && InvAt(st, s, u, v, c)
    requires u != 0 && Active(NextCleanup(st, c, replied), s, u)
    requires st.cleanups[c].at.Release?
    ensures Claim(NextCleanup(st, c, replied), s, u)
  {
  }

  lemma NextShapeAt(st: State, step: Step, u: Uid, v: Server, t: Task)
    requires Inv(st, u) && Enabled(st, step) && !Lockless(st, step, u)
    ensures UsersOk(Next(st, step)) && ShapeAt(Next(st, step), u, v, t)
  {
    assert InvAt(st, 0, u, v, t);
    if step.LoginStep? {
      assert InvAt(st, 0, u, step.server, t);
      ShapeLogin(st, step.server, step.token, u, v, t);
    } else if step.CleanupStep? {
      assert InvAt(st, 0, u, v, step.task);
      ShapeCleanup(st, step.task, step.replied, u, v, t);
    } else {
      ShapeRequest(st, step, u, v, t);
    }
  }

  lemma ClaimLogin(st: State, on: Server, token: Token, s: Sid, u: Uid)
    requires LoginAllowed(st, on, token, u) && InvAt(st, s, u, on, 0)
    requires u != 0 && Active(NextLogin(st, on, token), s, u)
    ensures Claim(NextLogin(st, on, token), s, u)
  {
    match st.logins[on].at {
      case TokenRead | AwaitLock => ClaimGate(st, on, token, s, u, 0);
      case ReadIp | Lookup(_) => ClaimFind(st, on, token, s, u, 0);
      case Evict(_, _) | Erasing(_, _) => ClaimEvict(st, on, token, s, u, 0);
      case Bind => ClaimBind(st, on, token, s, u, 0);
      case SetIp => ClaimSetIp(st, on, token, s, u, 0);
      case AddUser => ClaimAddUser(st, on, token, s, u, 0);
      case SetSession => ClaimSession(st, on, token, s, u, 0);
      case Unlock => ClaimUnlock(st, on, token, s, u, 0);
      case IssueToken => ClaimIssue(st, on, token, s, u, 0);
    }
  }

  lemma ClaimCleanup(st: State, c: Task, replied: bool, s: Sid, u: Uid)
    requires CleanupAllowed(st, c, replied) && InvAt(st, s, u, 0, c)
    requires u != 0 && Active(NextCleanup(st, c, replied), s, u)
    ensures Claim(NextCleanup(st, c, replied), s, u)
  {
    match st.cleanups[c].at {
      case WaitLock | ReadSession => ClaimWait(st, c, replied, s, u, 0);
      case DelSession => ClaimDelSession(st, c, replied, s, u, 0);
      case DelIp => ClaimDelIp(st, c, replied, s, u, 0);
      case DelToken => ClaimDelToken(st, c, replied, s, u, 0);
      case Clear(_) | Erase(_) => ClaimClear(st, c, replied, s, u, 0);
      case Release(_) => ClaimRelease(st, c, replied, s, u, 0);
    }
  }

  lemma NextClaim(st: State, step: Step, s: Sid, u: Uid)
    requires Inv(st, u) && Enabled(st, step) && !Lockless(st, step, u)
    requires u != 0 && Active(Next(st, step), s, u)
    ensures Claim(Next(st, step), s, u)
  {
    if step.LoginStep? {
      assert InvAt(st, s, u, step.server, 0);
      ClaimLogin(st, step.server, step.token, s, u);
    } else if step.CleanupStep? {
      assert InvAt(st, s, u, 0, step.task);
      ClaimCleanup(st, step.task, step.replied, s, u);
    } else {
      assert InvAt(st, s, u, 0, 0);
      ClaimRequest(st, step, s, u, 0, 0);
    }
  }

  lemma {:induction false} RunInv(run: seq<State>, steps: seq<Step>, i: nat, u: Uid)
    requires LockedRun(run, steps, u) && i < |run|
    ensures Inv(run[i], u)
  {
    if i == 0 {
    } else {
      RunInv(run, steps, i - 1, u);
      var st, step := run[i - 1], steps[i - 1];
      forall s, v, t ensures UsersOk(run[i]) && InvAt(run[i], s, u, v, t) {
        NextShapeAt(st, step, u, v, t);
        if u != 0 && Active(run[i], s, u) { NextClaim(st, step, s, u); }
      }
      NextShapeAt(st, step, u, 0, 0);
    }
  }

  // ---------------------------------------------------------------- safety over all runs

  /**
    At every moment at most one session over all servers is in `_sessions` with a given user,
    not counting one that a `ClearSession` holding `_mutex` is about to erase; and while
    nobody is inside the user's critical section, the shared keys and the user entry name it.
  */
  lemma SingleSession(run: seq<State>, steps: seq<Step>, i: nat, s: Sid, u: Uid)
    requires LockedRun(run, steps, u) && i < |run|
    requires u != 0 && Active(run[i], s, u)
    ensures forall s' | Active(run[i], s', u) :: s' == s
    ensures u !in run[i].lock ==> Named(run[i], s, u)
  {
    RunInv(run, steps, i, u);
    assert InvAt(run[i], s, u, 0, 0);
    forall s' | Active(run[i], s', u) ensures s' == s {
      assert InvAt(run[i], s', u, 0, 0);
    }
  }

  /** Counting every entry of `_sessions`: a second one exists only inside that window. */
  lemma SecondEntryIsDoomed(run: seq<State>, steps: seq<Step>, i: nat, s: Sid, s': Sid, u: Uid)
    requires LockedRun(run, steps, u) && i < |run| && u != 0 && s != s'
    requires s in run[i].live && s in run[i].sessions && run[i].sessions[s].uid == u
    requires s' in run[i].live && s' in run[i].sessions && run[i].sessions[s'].uid == u
    ensures Doomed(run[i], s) || Doomed(run[i], s')
  {
    if !Doomed(run[i], s) && !Doomed(run[i], s') {
      SingleSession(run, steps, i, s, u);
      assert Active(run[i], s', u);
    }
  }

  // ---------------------------------------------------------------- stale clean-up is harmless

  ghost predicate Same<K, V>(m: map<K, V>, m': map<K, V>, k: K) {
    (k in m <==> k in m') && (k in m ==> m[k] == m'[k])
  }

  /** The transition leaves the user's keys and everything that names another session alone. */
  ghost predicate Harmless(st: State, st': State, s: Sid, u: Uid) {
    && Same(st.uip, st'.uip, u) && Same(st.usession, st'.usession, u) && Same(st.utoken, st'.utoken, u)
    && (forall k | k in st.users && st.users[k] != s :: k in st'.users && st'.users[k] == st.users[k])
    && (forall k | k in st'.users :: k in st.users && st.users[k] == st'.users[k])
    && st'.sessions == st.sessions
    && st.live - {s} <= st'.live <= st.live
  }

  predicate Deleting(at: CleanupAt) { at.DelSession? || at.DelIp? || at.DelToken? }

  /** `s` was replaced as the user's session: it is not named, not logging in, and nobody is
      past the identity check on its behalf. */
  ghost predicate Stale(st: State, s: Sid, u: Uid) {
    forall v, t :: StaleAt(st, s, u, v, t)
  }

  ghost predicate StaleAt(st: State, s: Sid, u: Uid, v: Server, t: Task) {
    && !(u in st.usession && st.usession[u] == s)
    && !(v in st.logins && st.logins[v].sid == s && st.logins[v].uid == u)
    && !(t in st.cleanups && st.cleanups[t].sid == s && st.cleanups[t].uid == u && Deleting(st.cleanups[t].at))
  }

  lemma StaleStays(st: State, step: Step, s: Sid, u: Uid)
    requires Stale(st, s, u) && Enabled(st, step)
    requires !(step.ReadToken? && step.sid == s && step.uid == u)
    ensures Stale(Next(st, step), s, u)
  {
    forall v, t ensures StaleAt(Next(st, step), s, u, v, t) {
      assert StaleAt(st, s, u, v, t);
      match step {
        case LoginStep(on, token) =>
          assert StaleAt(st, s, u, on, t);
          StaleAtLogin(st, on, token, s, u, v, t);
        case CleanupStep(c, replied) =>
          assert StaleAt(st, s, u, v, c);
          StaleAtCleanup(st, c, replied, s, u, v, t);
        case _ =>
      }
    }
  }

  lemma StaleAtLogin(st: State, on: Server, token: Token, s: Sid, u: Uid, v: Server, t: Task)
    requires Enabled(st, LoginStep(on, token)) && StaleAt(st, s, u, v, t) && StaleAt(st, s, u, on, t)
    ensures StaleAt(NextLogin(st, on, token), s, u, v, t)
  {
    match st.logins[on].at {
      case TokenRead | AwaitLock | ReadIp | Lookup(_) => StaleStart(st, on, token, s, u, v, t);
      case Evict(_, _) | Erasing(_, _) => StaleKick(st, on, token, s, u, v, t);
      case Bind | SetIp | AddUser => StaleEnter(st, on, token, s, u, v, t);
      case SetSession | Unlock | IssueToken => StaleSession(st, on, token, s, u, v, t);
    }
  }

  lemma StaleStart(st: State, on: Server, token: Token, s: Sid, u: Uid, v: Server, t: Task)
    requires Enabled(st, LoginStep(on, token)) && StaleAt(st, s, u, v, t) && StaleAt(st, s, u, on, t)
    requires var at := st.logins[on].at; at.TokenRead? || at.AwaitLock? || at.ReadIp? || at.Lookup?
    ensures StaleAt(NextLogin(st, on, token), s, u, v, t)
  {
  }

  lemma StaleKick(st: State, on: Server, token: Token, s: Sid, u: Uid, v: Server, t: Task)
    requires Enabled(st, LoginStep(on, token)) && StaleAt(st, s, u, v, t) && StaleAt(st, s, u, on, t)
    requires st.logins[on].at.Evict? || st.logins[on].at.Erasing?
    ensures StaleAt(NextLogin(st, on, token), s, u, v, t)
  {
  }

  lemma StaleEnter(st: State, on: Server, token: Token, s: Sid, u: Uid, v: Server, t: Task)
    requires Enabled(st, LoginStep(on, token)) && StaleAt(st, s, u, v, t) && StaleAt(st, s, u, on, t)
    requires st.logins[on].at.Bind? || st.logins[on].at.SetIp? || st.logins[on].at.AddUser?
    ensures StaleAt(NextLogin(st, on, token), s, u, v, t)
  {
  }

  lemma StaleSession(st: State, on: Server, token: Token, s: Sid, u: Uid, v: Server, t: Task)
    requires Enabled(st, LoginStep(on, token)) && StaleAt(st, s, u, v, t) && StaleAt(st, s, u, on, t)
    requires st.logins[on].at.SetSession? || st.logins[on].at.Unlock? || st.logins[on].at.IssueToken?
    ensures StaleAt(NextLogin(st, on, token), s, u, v, t)
  {
  }

  lemma StaleAtCleanup(st: State, c: Task, replied: bool, s: Sid, u: Uid, v: Server, t: Task)
    requires Enabled(st, CleanupStep(c, replied)) && StaleAt(st, s, u, v, t) && StaleAt(st, s, u, v, c)
    ensures StaleAt(NextCleanup(st, c, replied), s, u, v, t)
  {
    match st.cleanups[c].at {
      case WaitLock | ReadSession => StaleWaiting(st, c, replied, s, u, v, t);
      case DelSession | DelIp | DelToken => StaleDeleting(st, c, replied, s, u, v, t);
      case Clear(_) | Erase(_) | Release(_) => StaleClearing(st, c, replied, s, u, v, t);
    }
  }

  lemma StaleWaiting(st: State, c: Task, replied: bool, s: Sid, u: Uid, v: Server, t: Task)
    requires Enabled(st, CleanupStep(c, replied)) && StaleAt(st, s, u, v, t) && StaleAt(st, s, u, v, c)
    requires st.cleanups[c].at.WaitLock? || st.cleanups[c].at.ReadSession?
    ensures StaleAt(NextCleanup(st, c, replied), s, u, v, t)
  {
  }

  lemma StaleDeleting(st: State, c: Task, replied: bool, s: Sid, u: Uid, v: Server, t: Task)
    requires Enabled(st, CleanupStep(c, replied)) && StaleAt(st, s, u, v, t) && StaleAt(st, s, u, v, c)
    requires st.cleanups[c].at.DelSession? || st.cleanups[c].at.DelIp? || st.cleanups[c].at.DelToken?
    ensures StaleAt(NextCleanup(st, c, replied), s, u, v, t)
  {
  }

  lemma StaleClearing(st: State, c: Task, replied: bool, s: Sid, u: Uid, v: Server, t: Task)
    requires Enabled(st, CleanupStep(c, replied)) && StaleAt(st, s, u, v, t) && StaleAt(st, s, u, v, c)
    requires st.cleanups[c].at.Clear? || st.cleanups[c].at.Erase? || st.cleanups[c].at.Release?
    ensures StaleAt(NextCleanup(st, c, replied), s, u, v, t)
  {
  }

  lemma StaleCleanupStep(st: State, t: Task, replied: bool, u: Uid)
    requires Enabled(st, CleanupStep(t, replied)) && StaleAt(st, st.cleanups[t].sid, u, 0, t)
    ensures Harmless(st, NextCleanup(st, t, replied), st.cleanups[t].sid, u)
  {
    if Deleting(st.cleanups[t].at) {
      StaleDelete(st, t, replied, u);
    } else if st.cleanups[t].at.Clear? || st.cleanups[t].at.Erase? {
      StaleClear(st, t, replied, u);
    } else {
      StaleWait(st, t, replied, u);
    }
  }

  lemma StaleDelete(st: State, t: Task, replied: bool, u: Uid)
    requires Enabled(st, CleanupStep(t, replied)) && Deleting(st.cleanups[t].at) && st.cleanups[t].uid != u
    ensures Harmless(st, NextCleanup(st, t, replied), st.cleanups[t].sid, u)
  {
    match st.cleanups[t].at {
      case DelSession => StaleDelSession(st, t, replied, u);
      case DelIp => StaleDelIp(st, t, replied, u);
      case DelToken => StaleDelToken(st, t, replied, u);
    }
  }

  lemma StaleDelSession(st: State, t: Task, replied: bool, u: Uid)
    requires Enabled(st, CleanupStep(t, replied)) && st.cleanups[t].at.DelSession? && st.cleanups[t].uid != u
    ensures Harmless(st, NextCleanup(st, t, replied), st.cleanups[t].sid, u)
  {
  }

  lemma StaleDelIp(st: State, t: Task, replied: bool, u: Uid)
    requires Enabled(st, CleanupStep(t, replied)) && st.cleanups[t].at.DelIp? && st.cleanups[t].uid != u
    ensures Harmless(st, NextCleanup(st, t, replied), st.cleanups[t].sid, u)
  {
  }

  lemma StaleDelToken(st: State, t: Task, replied: bool, u: Uid)
    requires Enabled(st, CleanupStep(t, replied)) && st.cleanups[t].at.DelToken? && st.cleanups[t].uid != u
    ensures Harmless(st, NextCleanup(st, t, replied), st.cleanups[t].sid, u)
  {
  }

  lemma StaleClear(st: State, t: Task, replied: bool, u: Uid)
    requires Enabled(st, CleanupStep(t, replied))
    requires st.cleanups[t].at.Clear? || st.cleanups[t].at.Erase?
    ensures Harmless(st, NextCleanup(st, t, replied), st.cleanups[t].sid, u)
  {
  }

  lemma StaleWait(st: State, t: Task, replied: bool, u: Uid)
    requires Enabled(st, CleanupStep(t, replied))
    requires st.cleanups[t].at.WaitLock? || st.cleanups[t].at.ReadSession? || st.cleanups[t].at.Release?
    ensures Harmless(st, NextCleanup(st, t, replied), st.cleanups[t].sid, u)
  {
  }

  /** Publishing another session makes every session that is not itself logging in stale. */
  lemma ReplacedIsStale(st: State, v: Server, token: Token, s: Sid, u: Uid)
    requires Inv(st, u) && Enabled(st, LoginStep(v, token)) && st.logins[v].at.SetSession?
    requires s != st.logins[v].sid && u == st.logins[v].uid
    requires forall w | w in st.logins && st.logins[w].sid == s :: st.logins[w].uid != u
    ensures Stale(NextLogin(st, v, token), s, u)
  {
    forall w, t ensures StaleAt(NextLogin(st, v, token), s, u, w, t) {
      assert InvAt(st, s, u, v, t);
    }
  }

  /** Step `k` of the run sets `usession_` of `u` to another session than `s`, which is not
      logging in as `u` itself, neither then nor in the steps up to `i`. */
  ghost predicate Replaced(run: seq<State>, steps: seq<Step>, k: nat, i: nat, s: Sid, u: Uid)
    requires LockedRun(run, steps, u) && k < i <= |steps|
  {
    && steps[k].LoginStep? && run[k].logins[steps[k].server].at.SetSession?
    && run[k].logins[steps[k].server].sid != s && run[k].logins[steps[k].server].uid == u
    && (forall w | w in run[k].logins && run[k].logins[w].sid == s :: run[k].logins[w].uid != u)
    && (forall j | k < j < i :: !(steps[j].ReadToken? && steps[j].sid == s && steps[j].uid == u))
  }

  lemma {:induction false} ReplacedStaysStale(run: seq<State>, steps: seq<Step>, k: nat, i: nat, s: Sid, u: Uid)
    requires LockedRun(run, steps, u) && k < i <= |steps| && Replaced(run, steps, k, i, s, u)
    ensures Stale(run[i], s, u)
  {
    var st, step := run[i - 1], steps[i - 1];
    if i == k + 1 {
      RunInv(run, steps, k, u);
      ReplacedIsStale(st, step.server, step.token, s, u);
    } else {
      ReplacedStaysStale(run, steps, k, i - 1, s, u);
      StaleStays(st, step, s, u);
    }
  }

  /**
    Once a login has set `usession_` to another session, every step of every later clean-up of
    the replaced session is harmless, whatever else runs in between, unless it logs in again.
  */
  lemma StaleCleanupHarmless(run: seq<State>, steps: seq<Step>, k: nat, i: nat, s: Sid, u: Uid)
    requires LockedRun(run, steps, u) && k < i < |steps| && Replaced(run, steps, k, i, s, u)
    requires steps[i].CleanupStep? && run[i].cleanups[steps[i].task].sid == s
    ensures Harmless(run[i], run[i + 1], s, u)
  {
    ReplacedStaysStale(run, steps, k, i, s, u);
    assert StaleAt(run[i], s, u, 0, steps[i].task);
    StaleCleanupStep(run[i], steps[i].task, steps[i].replied, u);
  }
}
