/**
  The objects of one SessionServer: `Server`, `UserManager` and `Session`, and the login and
  clean-up that run over them and Redis. Each method runs here without interruption;
  `SessionLogin` has the interleavings and `SessionSequential` ties the two together.
*/
module SessionRegistry {
  import opened SessionLogin

  const HEARTBEAT_EXPIRE := 60

  // ---------------------------------------------------------------- what the methods do, on values

  /** One server: the sessions in `Server::_sessions` with their users, and `UserManager::_sessions`. */
  datatype Side = Side(live: map<Sid, Uid>, entries: map<Uid, Sid>)

  /** The Redis keys of every user. */
  datatype Keys = Keys(usession: map<Uid, Sid>, uip: map<Uid, SessionLogin.Server>, utoken: map<Uid, Token>)

  /** `ClearSession`: the session goes, and the entry of its user if that names it. */
  function Cleared(side: Side, sid: Sid): Side {
    Side(side.live - {sid},
         if sid in side.live then RemoveEntry(side.entries, side.live[sid], sid) else side.entries)
  }

  /** A kick clears the session that the user's entry names. */
  function Kicked(side: Side, uid: Uid): Side {
    if uid in side.entries then Cleared(side, side.entries[uid]) else side
  }

  /** What a clean-up is granted: the lock, and an answer to each of its Redis commands. */
  datatype Replies = Replies(locked: bool, got: bool, delSession: bool, delIp: bool, delToken: bool)

  predicate Names(usession: map<Uid, Sid>, uid: Uid, sid: Sid) { uid in usession && usession[uid] == sid }

  function Without<V>(m: map<Uid, V>, uid: Uid, gone: bool): map<Uid, V> { if gone then m - {uid} else m }

  /** The keys after a clean-up: deleted only under the lock and if `usession_` names the session. */
  function Cleaned(keys: Keys, uid: Uid, sid: Sid, r: Replies): Keys {
    var own := r.locked && r.got && Names(keys.usession, uid, sid);
    Keys(Without(keys.usession, uid, own && r.delSession),
         Without(keys.uip, uid, own && r.delIp),
         Without(keys.utoken, uid, own && r.delToken))
  }

  /** The session is bound to its user, on the server that has it. */
  function BoundOn(side: Side, sid: Sid, uid: Uid): Side {
    Side(if sid in side.live then side.live[sid := uid] else side.live, side.entries[uid := sid])
  }

  /** Server `on` after `sid` has logged in on server v: a kick if `uip_` names `on`; on v, the binding. */
  function LoggedIn(side: Side, uip: map<Uid, SessionLogin.Server>, on: SessionLogin.Server,
                    v: SessionLogin.Server, sid: Sid, uid: Uid): Side {
    var kicked := if Names(uip, uid, on) then Kicked(side, uid) else side;
    if on == v then BoundOn(kicked, sid, uid) else kicked
  }

  function LoggedInKeys(keys: Keys, v: SessionLogin.Server, sid: Sid, uid: Uid, issued: Token): Keys {
    Keys(keys.usession[uid := sid], keys.uip[uid := v], keys.utoken[uid := issued])
  }

  // ---------------------------------------------------------------- what that means, key by key

  /** After `ClearSession` the session is gone, and so is the entry of its user if it named it; all else stays. */
  lemma ClearedMeans(side: Side, sid: Sid, id: Sid, u: Uid)
    ensures var c := Cleared(side, sid);
      && (id in c.live <==> id in side.live && id != sid)
      && (id in c.live ==> c.live[id] == side.live[id])
      && (u in c.entries <==>
            u in side.entries && !(sid in side.live && side.live[sid] == u && side.entries[u] == sid))
      && (u in c.entries ==> c.entries[u] == side.entries[u])
  {
  }

  /** A clean-up deletes a key of its user only, with the lock, an answer, and `usession_` naming its session. */
  lemma CleanedMeans(keys: Keys, uid: Uid, sid: Sid, r: Replies, u: Uid)
    ensures var c, own := Cleaned(keys, uid, sid, r),
                          u == uid && r.locked && r.got && uid in keys.usession && keys.usession[uid] == sid;
      && (u in c.usession <==> u in keys.usession && !(own && r.delSession))
      && (u in c.uip <==> u in keys.uip && !(own && r.delIp))
      && (u in c.utoken <==> u in keys.utoken && !(own && r.delToken))
      && (u in c.usession ==> c.usession[u] == keys.usession[u]) && (u in c.uip ==> c.uip[u] == keys.uip[u])
      && (u in c.utoken ==> c.utoken[u] == keys.utoken[u])
  {
  }

  /** After a login on v the session is its user's there, and the one before it is gone from where `uip_` led. */
  lemma LoggedInMeans(side: Side, uip: map<Uid, SessionLogin.Server>, on: SessionLogin.Server,
                      v: SessionLogin.Server, sid: Sid, uid: Uid, id: Sid)
    ensures var s := LoggedIn(side, uip, on, v, sid, uid);
      var kicked := uid in uip && uip[uid] == on && uid in side.entries && side.entries[uid] == id;
      && (id in s.live <==> id in side.live && !kicked)
      && (id in s.live ==> s.live[id] == if id == sid && on == v then uid else side.live[id])
      && (on == v ==> uid in s.entries && s.entries[uid] == sid)
  {
  }

  /** The error codes of `LoginHandler`. */
  datatype Outcome = Success | UidInvalid | TokenInvalid | EtherInvalid

  // ---------------------------------------------------------------- the objects

  class Connection {
    const id: Sid
    var uid: Uid
    var lastHeartbeat: int
    var closed: bool

    constructor (id: Sid, now: int)
      ensures this.id == id && uid == 0 && lastHeartbeat == now && !closed
    {
      this.id, uid, lastHeartbeat, closed := id, 0, now, false;
    }

    predicate Expired(now: int)
      reads this
    {
      now - lastHeartbeat > HEARTBEAT_EXPIRE
    }
  }

  class UserManager {
    var sessions: map<Uid, Connection>

    ghost function Entries(): map<Uid, Sid>
      reads this
    {
      map u | u in sessions :: sessions[u].id
    }

    method GetSession(uid: Uid) returns (s: Connection?)
      ensures s != null <==> uid in Entries()
      ensures s != null ==> s == sessions[uid] && s.id == Entries()[uid]
    {
      s := if uid in sessions then sessions[uid] else null;
    }

    method AddSession(uid: Uid, s: Connection)
      modifies this
      ensures Entries() == old(Entries())[uid := s.id] && sessions == old(sessions)[uid := s]
    {
      sessions := sessions[uid := s];
    }

    method RemoveSession(uid: Uid, sid: Sid)
      modifies this
      ensures Entries() == RemoveEntry(old(Entries()), uid, sid)
      ensures uid in sessions <==> uid in old(sessions) && old(sessions[uid].id) != sid
    {
      if uid !in sessions { return; }
      if sessions[uid].id != sid { return; }
      sessions := sessions - {uid};
    }
  }

  class Redis {
    var usession: map<Uid, Sid>
    var uip: map<Uid, SessionLogin.Server>
    var utoken: map<Uid, Token>

    ghost function View(): Keys
      reads this
    {
      Keys(usession, uip, utoken)
    }
  }

  class SessionServer {
    const name: SessionLogin.Server
    const users: UserManager
    const redis: Redis
    var sessions: map<Sid, Connection>

    ghost predicate Valid()
      reads this
    {
      forall id | id in sessions :: sessions[id].id == id
    }

    ghost function UserOf(): map<Sid, Uid>
      reads this, sessions.Values
    {
      map id | id in sessions :: sessions[id].uid
    }

    ghost function View(): Side
      reads this, users, sessions.Values
    {
      Side(UserOf(), users.Entries())
    }

    constructor (name: SessionLogin.Server, users: UserManager, redis: Redis)
      ensures Valid() && sessions == map[] && this.name == name && this.users == users && this.redis == redis
    {
      this.name, this.users, this.redis, sessions := name, users, redis, map[];
    }

    method ClearSession(sid: Sid)
      requires Valid()
      modifies this, users
      ensures Valid() && sessions == old(sessions) - {sid}
      ensures View() == Cleared(old(View()), sid)
    {
      if sid in sessions {
        users.RemoveSession(sessions[sid].uid, sid);
      }
      sessions := sessions - {sid};
    }

    /** The Redis commands of a clean-up. */
    method DeleteKeys(uid: Uid, sid: Sid, r: Replies)
      modifies redis
      ensures redis.View() == Cleaned(old(redis.View()), uid, sid, r)
    {
      if !r.locked || !r.got { return; }
      if uid !in redis.usession || redis.usession[uid] != sid { return; }
      if r.delSession { redis.usession := redis.usession - {uid}; }
      if r.delIp { redis.uip := redis.uip - {uid}; }
      if r.delToken { redis.utoken := redis.utoken - {uid}; }
    }

    /** `Session::DealExceptionSession`. */
    method DealException(s: Connection, r: Replies)
      requires Valid() && (s.id in sessions ==> sessions[s.id] == s)
      modifies this, users, redis
      ensures Valid() && sessions == old(sessions) - {s.id}
      ensures View() == Cleared(old(View()), s.id)
      ensures redis.View() == Cleaned(old(redis.View()), s.uid, s.id, r)
    {
      DeleteKeys(s.uid, s.id, r);
      ClearSession(s.id);
    }

    /** `SessionServiceImpl::NotifyKickUser`, also the kick of a user of the server itself. */
    method NotifyKick(uid: Uid)
      requires Valid()
      modifies this, users
      ensures Valid() && View() == Kicked(old(View()), uid)
      ensures sessions == old(sessions) - if uid in old(users.Entries()) then {old(users.Entries()[uid])} else {}
    {
      var s := users.GetSession(uid);
      if s != null { ClearSession(s.id); }
    }

    /** The first part of `LoginHandler`; `info` and `music`: the two database reads succeed. */
    method UseToken(uid: Uid, token: Token, info: bool, music: bool) returns (outcome: Outcome)
      modifies redis`utoken
      ensures var passes := uid in old(redis.utoken) && old(redis.utoken)[uid] == token;
        && redis.utoken == Without(old(redis.utoken), uid, passes)
        && (outcome.Success? <==> passes && info && music)
        && (outcome.UidInvalid? <==> uid !in old(redis.utoken) || (passes && !info))
        && (outcome.TokenInvalid? <==> uid in old(redis.utoken) && !passes)
    {
      if uid !in redis.utoken { return UidInvalid; }
      if redis.utoken[uid] != token { return TokenInvalid; }
      redis.utoken := redis.utoken - {uid};
      return if !info then UidInvalid else if !music then EtherInvalid else Success;
    }

    /** The critical section up to the binding. */
    method KickPrior(uid: Uid, peer: SessionServer)
      requires Valid() && Reached(uid, peer)
      modifies this, users, peer, peer.users
      ensures Valid()
      ensures sessions.Keys <= old(sessions.Keys) && forall id | id in sessions :: sessions[id] == old(sessions[id])
      ensures View() == if Names(redis.uip, uid, name) then Kicked(old(View()), uid) else old(View())
      ensures peer != this ==>
            peer.View() == Kicked(old(peer.View()), uid) && peer.sessions.Values <= old(peer.sessions.Values)
    {
      if uid in redis.uip {
        if redis.uip[uid] == name { NotifyKick(uid); }
        if peer != this { peer.NotifyKick(uid); }
      }
    }

    /** The rest of it. */
    method Publish(s: Connection, uid: Uid)
      requires Valid() && (s.id in sessions ==> sessions[s.id] == s)
      modifies users, redis`uip, redis`usession, s`uid
      ensures s.uid == uid
      ensures View() == BoundOn(old(View()), s.id, uid)
      ensures redis.View() == LoggedInKeys(old(redis.View()), name, s.id, uid, 0).(utoken := old(redis.utoken))
    {
      s.uid := uid;
      redis.uip := redis.uip[uid := name];
      users.AddSession(uid, s);
      redis.usession := redis.usession[uid := s.id];
    }

    /** The whole critical section. */
    method Enter(s: Connection, uid: Uid, peer: SessionServer)
      requires Valid() && Reached(uid, peer) && (s.id in sessions ==> sessions[s.id] == s)
      requires peer != this ==> s !in peer.sessions.Values
      modifies this, users, redis`uip, redis`usession, s`uid, peer, peer.users
      ensures Valid()
      ensures View() == LoggedIn(old(View()), old(redis.uip), name, name, s.id, uid)
      ensures redis.View() == LoggedInKeys(old(redis.View()), name, s.id, uid, 0).(utoken := old(redis.utoken))
      ensures peer.View() == LoggedIn(old(peer.View()), old(redis.uip), peer.name, name, s.id, uid)
    {
      KickPrior(uid, peer);
      ghost var side := peer.View();
      Publish(s, uid);
      assert peer != this ==> peer.View() == side;
    }

    /**
      `LoginHandler`; `peer` is as in `Reached`.
      `issued` is the session token it issues.
    */
    method Login(s: Connection, uid: Uid, token: Token, info: bool, music: bool, issued: Token, peer: SessionServer)
      returns (outcome: Outcome)
      requires Valid() && Reached(uid, peer) && (s.id in sessions ==> sessions[s.id] == s)
      requires peer != this ==> s !in peer.sessions.Values
      modifies this, users, redis, s`uid, peer, peer.users
      ensures var passes := uid in old(redis.utoken) && old(redis.utoken)[uid] == token;
        && (outcome.Success? <==> passes && info && music)
        && (outcome.UidInvalid? <==> uid !in old(redis.utoken) || (passes && !info))
        && (outcome.TokenInvalid? <==> uid in old(redis.utoken) && !passes)
        && (!outcome.Success? ==> redis.View() == old(redis.View()).(utoken := Without(old(redis.utoken), uid, passes)))
      ensures Valid()
      ensures View()
          == if outcome.Success? then LoggedIn(old(View()), old(redis.uip), name, name, s.id, uid) else old(View())
      ensures outcome.Success? ==> redis.View() == LoggedInKeys(old(redis.View()), name, s.id, uid, issued)
      ensures peer.View()
          == if outcome.Success? then LoggedIn(old(peer.View()), old(redis.uip), peer.name, name, s.id, uid)
                             else old(peer.View())
    {
      ghost var own, side := View(), peer.View();
      outcome := UseToken(uid, token, info, music);
      assert View() == own && peer.View() == side;
      if outcome.Success? { Admit(s, uid, issued, peer); }
    }

    /** The critical section, then the session token. */
    method Admit(s: Connection, uid: Uid, issued: Token, peer: SessionServer)
      requires Valid() && Reached(uid, peer) && (s.id in sessions ==> sessions[s.id] == s)
      requires peer != this ==> s !in peer.sessions.Values
      modifies this, users, redis, s`uid, peer, peer.users
      ensures Valid()
      ensures View() == LoggedIn(old(View()), old(redis.uip), name, name, s.id, uid)
      ensures peer.View() == LoggedIn(old(peer.View()), old(redis.uip), peer.name, name, s.id, uid)
      ensures redis.View().usession == old(redis.usession)[uid := s.id]
      ensures redis.View().uip == old(redis.uip)[uid := name]
      ensures redis.View().utoken == old(redis.utoken)[uid := issued]
    {
      Enter(s, uid, peer);
      ghost var own, side := View(), peer.View();
      redis.utoken := redis.utoken[uid := issued];
      assert View() == own && peer.View() == side;
    }

    /**
      The kick RPC goes to `peer`, the server that `uip_` names. There is none, which is written as
      the server itself, if `uip_` names no server, an unknown one or its own name, which is not
      among its peers.
    */
    ghost predicate Reached(uid: Uid, peer: SessionServer)
      reads redis, peer
    {
      peer != this ==>
        && Names(redis.uip, uid, peer.name) && peer.name != name
        && peer.users != users && peer.redis == redis && peer.Valid()
    }

    ghost function Expired(now: int): set<Sid>
      reads this, sessions.Values
    {
      set id | id in sessions && sessions[id].Expired(now)
    }

    /** The first half of `On_Timer`: close the expired sessions, count the others. */
    method CloseExpired(now: int) returns (expired: set<Sid>, count: nat)
      requires Valid()
      modifies sessions.Values`closed
      ensures expired == Expired(now) && count == |sessions.Keys - expired|
      ensures forall id | id in sessions :: id in expired <==> now - sessions[id].lastHeartbeat > 60
      ensures forall id | id in sessions :: sessions[id].closed == (old(sessions[id].closed) || id in expired)
    {
      expired, count := {}, 0;
      ghost var all, keys := sessions.Values, sessions.Keys;
      var todo := sessions.Keys;
      while todo != {}
        invariant todo <= keys && expired <= keys && expired !! todo
        invariant forall id | id in keys && id !in todo :: id in expired <==> sessions[id].Expired(now)
        invariant count + |expired| + |todo| == |keys|
        invariant forall c | c in all :: c.closed == (old(c.closed) || c.id in expired)
      {
        var id :| id in todo;
        var s := sessions[id];
        assert s in all;
        if s.Expired(now) {
          s.closed := true;
          expired := expired + {id};
        } else {
          count := count + 1;
        }
        todo := todo - {id};
      }
      Remainder(keys, expired);
    }

    /** The second half: clean up after each. */
    method CleanExpired(copy: map<Sid, Connection>, expired: set<Sid>, replies: Sid -> Replies)
      requires Valid() && sessions == copy && expired <= copy.Keys
      modifies this, users, redis
      ensures Valid() && sessions == copy - expired
      ensures SweptTo(old(Shown()), Shown(), old(UserOf()), expired, replies)
    {
      ghost var tables, uids := Shown(), UserOf();
      var todo := expired;
      while todo != {}
        invariant Valid() && todo <= expired && sessions == copy - (expired - todo)
        invariant SweptTo(tables, Shown(), uids, expired - todo, replies)
      {
        var id :| id in todo;
        SweepOne(tables, Shown(), uids, expired - todo, replies, id);
        DealException(copy[id], replies(id));
        assert expired - (todo - {id}) == (expired - todo) + {id};
        todo := todo - {id};
      }
      assert expired - {} == expired;
    }

    /** `On_Timer`: every expired session is closed and cleaned up; the others stay and are counted. */
    method OnTimer(now: int, replies: Sid -> Replies) returns (count: nat)
      requires Valid()
      modifies this, users, redis, sessions.Values
      ensures Valid() && sessions == old(sessions) - old(Expired(now)) && count == |sessions|
      ensures forall id | id in old(sessions) :: id in sessions <==> now - old(sessions[id].lastHeartbeat) <= 60
      ensures SweptTo(old(Shown()), Shown(), old(UserOf()), old(Expired(now)), replies)
      ensures forall id | id in old(sessions) ::
            old(sessions)[id].closed == (old(sessions[id].closed) || id !in sessions)
    {
      ghost var tables, uids, gone := Shown(), UserOf(), Expired(now);
      var copy := sessions;
      var expired;
      expired, count := CloseExpired(now);
      assert UserOf() == uids && Shown() == tables && expired == gone;
      CleanExpired(copy, expired, replies);
      assert sessions.Keys == copy.Keys - expired;
    }

    ghost function Shown(): Tables
      reads users, redis
    {
      Tables(users.Entries(), redis.View())
    }
  }

  lemma Remainder(keys: set<Sid>, expired: set<Sid>)
    requires expired <= keys
    ensures |keys - expired| == |keys| - |expired|
  {
    assert keys == (keys - expired) + expired;
  }

  // ---------------------------------------------------------------- many clean-ups

  datatype Tables = Tables(entries: map<Uid, Sid>, keys: Keys)

  /** The user's entry names one of the sessions in `gone`, and that is the user's own. */
  predicate NamesGone(entries: map<Uid, Sid>, uids: map<Sid, Uid>, gone: set<Sid>, u: Uid) {
    u in entries && entries[u] in gone && entries[u] in uids && uids[entries[u]] == u
  }

  predicate SameOr<V(==)>(m: map<Uid, V>, m': map<Uid, V>, u: Uid, dropped: bool) {
    if dropped then u !in m' else (u in m' <==> u in m) && (u in m ==> m'[u] == m[u])
  }

  /** What the clean-ups of the sessions that are gone leave of one user's entries. */
  predicate SweptAt(t: Tables, t': Tables, uids: map<Sid, Uid>, gone: set<Sid>, replies: Sid -> Replies, u: Uid) {
    var k, k' := t.keys, t'.keys;
    var r := if u in k.usession then replies(k.usession[u]) else Replies(false, false, false, false, false);
    var own := NamesGone(k.usession, uids, gone, u) && r.locked && r.got;
    && SameOr(t.entries, t'.entries, u, NamesGone(t.entries, uids, gone, u))
    && SameOr(k.usession, k'.usession, u, own && r.delSession)
    && SameOr(k.uip, k'.uip, u, own && r.delIp)
    && SameOr(k.utoken, k'.utoken, u, own && r.delToken)
  }

  ghost predicate SweptTo(t: Tables, t': Tables, uids: map<Sid, Uid>, gone: set<Sid>, replies: Sid -> Replies) {
    forall u :: SweptAt(t, t', uids, gone, replies, u)
  }

  /** The tables after the clean-up of a session that is in `_sessions`. */
  function AfterOne(t: Tables, id: Sid, uid: Uid, r: Replies): Tables {
    Tables(RemoveEntry(t.entries, uid, id), Cleaned(t.keys, uid, id, r))
  }

  lemma SweepOne(t: Tables, t': Tables, uids: map<Sid, Uid>, gone: set<Sid>, replies: Sid -> Replies, id: Sid)
    requires id in uids && id !in gone && SweptTo(t, t', uids, gone, replies)
    ensures SweptTo(t, AfterOne(t', id, uids[id], replies(id)), uids, gone + {id}, replies)
  {
    var after, all := AfterOne(t', id, uids[id], replies(id)), gone + {id};
    forall u ensures SweptAt(t, after, uids, all, replies, u) {
      assert SweptAt(t, t', uids, gone, replies, u);
    }
  }
}
