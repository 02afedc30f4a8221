/** The token under `utoken_<uid>` over whole runs of the login protocol. */
module Tokens {
  import opened SessionLogin
  import SessionLimits

  /** Step k sets the user's token: a handshake, or a login issuing its session token. */
  predicate Sets(run: seq<State>, steps: seq<Step>, k: nat, u: Uid, x: Token)
    requires k < |steps| < |run|
  {
    match steps[k]
    case Handshake(uid, token) => uid == u && token == x
    case LoginStep(v, token) =>
      v in run[k].logins && run[k].logins[v].at.IssueToken? && run[k].logins[v].uid == u && token == x
    case _ => false
  }

  /** Step k removes the user's token: it expires, is used up by a login, or deleted by a clean-up. */
  predicate Removes(run: seq<State>, steps: seq<Step>, k: nat, u: Uid)
    requires k < |steps| < |run|
  {
    match steps[k]
    case ExpireToken(uid) => uid == u
    case LoginStep(v, _) => v in run[k].logins && run[k].logins[v].at.TokenRead? && run[k].logins[v].uid == u
    case CleanupStep(t, replied) =>
      replied && t in run[k].cleanups && run[k].cleanups[t].at.DelToken? && run[k].cleanups[t].uid == u
    case _ => false
  }

  predicate Untouched(run: seq<State>, steps: seq<Step>, k: nat, u: Uid)
    requires k < |steps| < |run|
  {
    !Removes(run, steps, k, u)
    && (steps[k].Handshake? ==> steps[k].uid != u)
    && (steps[k].LoginStep? && steps[k].server in run[k].logins && run[k].logins[steps[k].server].at.IssueToken? ==>
          run[k].logins[steps[k].server].uid != u)
  }

  predicate HasToken(st: State, u: Uid, x: Token) { u in st.utoken && st.utoken[u] == x }

  /** `CheckToken(u, x)` on a state, for a non-empty token. */
  predicate CheckToken(st: State, u: Uid, x: Token) { u > 0 && HasToken(st, u, x) }

  /** x was set at step k and nothing has touched the user's token since. */
  ghost predicate LastSet(run: seq<State>, steps: seq<Step>, i: nat, u: Uid, x: Token, k: nat)
    requires i <= |steps| < |run|
  {
    k < i && Sets(run, steps, k, u, x) && forall j | k < j < i :: Untouched(run, steps, j, u)
  }

  lemma TokenStep(run: seq<State>, steps: seq<Step>, i: nat, u: Uid, x: Token)
    requires Run(run, steps) && i < |steps|
    ensures Sets(run, steps, i, u, x) ==> u in run[i + 1].utoken && run[i + 1].utoken[u] == x
    ensures Removes(run, steps, i, u) ==> u !in run[i + 1].utoken
    ensures Untouched(run, steps, i, u) ==> Same(run[i].utoken, run[i + 1].utoken, u)
    ensures Untouched(run, steps, i, u) || Removes(run, steps, i, u) || Sets(run, steps, i, u, run[i + 1].utoken[u])
  {
    var step := steps[i];
    if step.LoginStep? {
      TokenLogin(run[i], step.server, step.token, 0);
    } else if step.CleanupStep? {
      TokenCleanup(run[i], step.task, step.replied);
    }
  }

  /** A login transition touches no other login, and the token only at its two ends. */
  lemma TokenLogin(st: State, v: SessionLogin.Server, token: Token, w: SessionLogin.Server)
    requires Enabled(st, LoginStep(v, token))
    ensures NextLogin(st, v, token).utoken
         == if st.logins[v].at.TokenRead? then st.utoken - {st.logins[v].uid}
            else if st.logins[v].at.IssueToken? then st.utoken[st.logins[v].uid := token] else st.utoken
    ensures w != v ==> Same(st.logins, NextLogin(st, v, token).logins, w)
  {
    match st.logins[v].at {
      case TokenRead => LoginFrameRead(st, v, token, w);
      case AwaitLock | ReadIp | Lookup(_) => LoginFrameFind(st, v, token, w);
      case Evict(_, _) | Erasing(_, _) => LoginFrameKick(st, v, token, w);
      case Bind | SetIp | AddUser => LoginFrameBind(st, v, token, w);
      case SetSession | Unlock => LoginFrameEnd(st, v, token, w);
      case IssueToken => LoginFrameIssue(st, v, token, w);
    }
  }

  lemma LoginFrameRead(st: State, v: SessionLogin.Server, token: Token, w: SessionLogin.Server)
    requires Enabled(st, LoginStep(v, token)) && st.logins[v].at.TokenRead?
    ensures NextLogin(st, v, token).utoken == st.utoken - {st.logins[v].uid}
    ensures w != v ==> Same(st.logins, NextLogin(st, v, token).logins, w)
  {
  }

  lemma LoginFrameIssue(st: State, v: SessionLogin.Server, token: Token, w: SessionLogin.Server)
    requires Enabled(st, LoginStep(v, token)) && st.logins[v].at.IssueToken?
    ensures NextLogin(st, v, token).utoken == st.utoken[st.logins[v].uid := token]
    ensures w != v ==> Same(st.logins, NextLogin(st, v, token).logins, w)
  {
  }

  lemma LoginFrameFind(st: State, v: SessionLogin.Server, token: Token, w: SessionLogin.Server)
    requires Enabled(st, LoginStep(v, token))
    requires st.logins[v].at.AwaitLock? || st.logins[v].at.ReadIp? || st.logins[v].at.Lookup?
    ensures NextLogin(st, v, token).utoken == st.utoken
    ensures w != v ==> Same(st.logins, NextLogin(st, v, token).logins, w)
  {
  }

  lemma LoginFrameKick(st: State, v: SessionLogin.Server, token: Token, w: SessionLogin.Server)
    requires Enabled(st, LoginStep(v, token))
    requires st.logins[v].at.Evict? || st.logins[v].at.Erasing?
    ensures NextLogin(st, v, token).utoken == st.utoken
    ensures w != v ==> Same(st.logins, NextLogin(st, v, token).logins, w)
  {
  }

  lemma LoginFrameBind(st: State, v: SessionLogin.Server, token: Token, w: SessionLogin.Server)
    requires Enabled(st, LoginStep(v, token))
    requires st.logins[v].at.Bind? || st.logins[v].at.SetIp? || st.logins[v].at.AddUser?
    ensures NextLogin(st, v, token).utoken == st.utoken
    ensures w != v ==> Same(st.logins, NextLogin(st, v, token).logins, w)
  {
  }

  lemma LoginFrameEnd(st: State, v: SessionLogin.Server, token: Token, w: SessionLogin.Server)
    requires Enabled(st, LoginStep(v, token))
    requires st.logins[v].at.SetSession? || st.logins[v].at.Unlock?
    ensures NextLogin(st, v, token).utoken == st.utoken
    ensures w != v ==> Same(st.logins, NextLogin(st, v, token).logins, w)
  {
  }

  lemma TokenCleanup(st: State, t: Task, replied: bool)
    requires Enabled(st, CleanupStep(t, replied))
    ensures NextCleanup(st, t, replied).utoken
         == if st.cleanups[t].at.DelToken? && replied then st.utoken - {st.cleanups[t].uid} else st.utoken
    ensures NextCleanup(st, t, replied).logins == st.logins
  {
    match st.cleanups[t].at {
      case WaitLock | ReadSession => CleanupFrameWait(st, t, replied);
      case DelSession | DelIp => CleanupFrameDelete(st, t, replied);
      case DelToken => CleanupFrameToken(st, t, replied);
      case Clear(_) | Erase(_) | Release(_) => CleanupFrameClear(st, t, replied);
    }
  }

  lemma CleanupFrameToken(st: State, t: Task, replied: bool)
    requires Enabled(st, CleanupStep(t, replied)) && st.cleanups[t].at.DelToken?
    ensures NextCleanup(st, t, replied).utoken == if replied then st.utoken - {st.cleanups[t].uid} else st.utoken
    ensures NextCleanup(st, t, replied).logins == st.logins
  {
  }

  lemma CleanupFrameWait(st: State, t: Task, replied: bool)
    requires Enabled(st, CleanupStep(t, replied))
    requires st.cleanups[t].at.WaitLock? || st.cleanups[t].at.ReadSession?
    ensures NextCleanup(st, t, replied).utoken == st.utoken && NextCleanup(st, t, replied).logins == st.logins
  {
  }

  lemma CleanupFrameDelete(st: State, t: Task, replied: bool)
    requires Enabled(st, CleanupStep(t, replied))
    requires st.cleanups[t].at.DelSession? || st.cleanups[t].at.DelIp?
    ensures NextCleanup(st, t, replied).utoken == st.utoken && NextCleanup(st, t, replied).logins == st.logins
  {
  }

  lemma CleanupFrameClear(st: State, t: Task, replied: bool)
    requires Enabled(st, CleanupStep(t, replied))
    requires st.cleanups[t].at.Clear? || st.cleanups[t].at.Erase? || st.cleanups[t].at.Release?
    ensures NextCleanup(st, t, replied).utoken == st.utoken && NextCleanup(st, t, replied).logins == st.logins
  {
  }

  /** A key holds the token that was set last, if nothing has removed it since. */
  lemma {:induction false} TokenMeansLastSet(run: seq<State>, steps: seq<Step>, i: nat, u: Uid, x: Token)
    requires Run(run, steps) && i <= |steps| && run[0].utoken == map[]
    ensures HasToken(run[i], u, x) <==> exists k :: LastSet(run, steps, i, u, x, k)
  {
    if i > 0 {
      var k := i - 1;
      TokenStep(run, steps, k, u, x);
      if Untouched(run, steps, k, u) {
        TokenMeansLastSet(run, steps, k, u, x);
        UntouchedKeepsLast(run, steps, i, u, x);
      } else if Sets(run, steps, k, u, x) {
        assert LastSet(run, steps, i, u, x, k);
      } else {
        TouchedEndsLast(run, steps, i, u, x);
      }
    }
  }

  /** The check succeeds exactly for the token set last, if nothing has removed it since. */
  lemma CheckTokenMeansLastSet(run: seq<State>, steps: seq<Step>, i: nat, u: Uid, x: Token)
    requires Run(run, steps) && i <= |steps| && run[0].utoken == map[]
    ensures CheckToken(run[i], u, x) <==> u > 0 && exists k :: LastSet(run, steps, i, u, x, k)
  {
    TokenMeansLastSet(run, steps, i, u, x);
  }

  lemma UntouchedKeepsLast(run: seq<State>, steps: seq<Step>, i: nat, u: Uid, x: Token)
    requires 0 < i <= |steps| < |run| && Untouched(run, steps, i - 1, u)
    ensures var k := i - 1;
      (exists k' :: LastSet(run, steps, k, u, x, k')) <==> exists k' :: LastSet(run, steps, i, u, x, k')
  {
    var k := i - 1;
    if k' :| LastSet(run, steps, k, u, x, k') { assert LastSet(run, steps, i, u, x, k'); }
    if k' :| LastSet(run, steps, i, u, x, k') { assert k' != k && LastSet(run, steps, k, u, x, k'); }
  }

  lemma TouchedEndsLast(run: seq<State>, steps: seq<Step>, i: nat, u: Uid, x: Token)
    requires 0 < i <= |steps| < |run| && !Untouched(run, steps, i - 1, u) && !Sets(run, steps, i - 1, u, x)
    ensures forall k' :: !LastSet(run, steps, i, u, x, k')
  {
  }

  /** No token is set twice, for whichever users. */
  ghost predicate FreshTokens(run: seq<State>, steps: seq<Step>)
    requires |steps| < |run|
  {
    && run[0].utoken == map[]
    && forall i: nat, j: nat, u, w, x | i < j < |steps| && Sets(run, steps, i, u, x) :: !Sets(run, steps, j, w, x)
  }

  predicate Reading(st: State, v: SessionLogin.Server, u: Uid) {
    v in st.logins && st.logins[v].uid == u && st.logins[v].at.TokenRead?
  }

  /** The token is nowhere, or still where the login that is about to delete it found it. */
  ghost predicate UsedUp(st: State, v: SessionLogin.Server, u: Uid, x: Token) {
    forall w | w in st.utoken && st.utoken[w] == x :: w == u && Reading(st, v, u)
  }

  lemma WasSet(run: seq<State>, steps: seq<Step>, i: nat, u: Uid, x: Token) returns (k: nat)
    requires Run(run, steps) && i <= |steps| && run[0].utoken == map[]
    requires u in run[i].utoken && run[i].utoken[u] == x
    ensures k < i && Sets(run, steps, k, u, x)
  {
    k := i - 1;
    TokenStep(run, steps, k, u, x);
    if !Sets(run, steps, k, u, x) {
      k := WasSet(run, steps, k, u, x);
    }
  }

  lemma ReadingStays(st: State, step: Step, v: SessionLogin.Server, u: Uid)
    requires Enabled(st, step) && Reading(st, v, u) && !(step.LoginStep? && step.server == v)
    ensures Reading(Next(st, step), v, u)
  {
    if step.LoginStep? {
      TokenLogin(st, step.server, step.token, v);
    } else if step.CleanupStep? {
      TokenCleanup(st, step.task, step.replied);
    } else {
      OtherStepStays(st, step, v, u);
    }
  }

  lemma OtherStepStays(st: State, step: Step, v: SessionLogin.Server, u: Uid)
    requires Enabled(st, step) && Reading(st, v, u) && !step.LoginStep? && !step.CleanupStep?
    ensures Reading(Next(st, step), v, u)
  {
  }

  lemma UsedUpStep(run: seq<State>, steps: seq<Step>, k: nat, v: SessionLogin.Server, u: Uid, x: Token, w: Uid)
    requires Run(run, steps) && k < |steps| && UsedUp(run[k], v, u, x) && !Sets(run, steps, k, w, x)
    requires w in run[k + 1].utoken && run[k + 1].utoken[w] == x
    ensures w == u && Reading(run[k + 1], v, u)
  {
    TokenStep(run, steps, k, w, x);
    assert Untouched(run, steps, k, w);
    assert w == u && Reading(run[k], v, u);
    assert !(steps[k].LoginStep? && steps[k].server == v);
    ReadingStays(run[k], steps[k], v, u);
  }

  /** At the moment of the check, no other user has the token. */
  lemma OwnToken(run: seq<State>, steps: seq<Step>, i: nat, u: Uid, x: Token, w: Uid)
    requires Run(run, steps) && FreshTokens(run, steps) && i <= |steps|
    requires u in run[i].utoken && run[i].utoken[u] == x && w in run[i].utoken && run[i].utoken[w] == x
    ensures w == u
  {
    var j := WasSet(run, steps, i, u, x);
    var j' := WasSet(run, steps, i, w, x);
    assert j' == j;
  }

  lemma {:induction false} StaysUsedUp(run: seq<State>, steps: seq<Step>, i: nat, k: nat,
                                       v: SessionLogin.Server, u: Uid, x: Token)
    requires Run(run, steps) && FreshTokens(run, steps) && i < k <= |steps|
    requires steps[i].ReadToken? && steps[i] == ReadToken(v, steps[i].sid, u, x)
    ensures UsedUp(run[k], v, u, x)
  {
    forall w | w in run[k].utoken && run[k].utoken[w] == x ensures w == u && Reading(run[k], v, u) {
      if k == i + 1 {
        OwnToken(run, steps, i, u, x, w);
      } else {
        StaysUsedUp(run, steps, i, k - 1, v, u, x);
        var j := WasSet(run, steps, i, u, x);
        UsedUpStep(run, steps, k - 1, v, u, x, w);
      }
    }
  }

  ghost predicate UntouchedBetween(run: seq<State>, steps: seq<Step>, i: nat, j: nat, u: Uid)
    requires j <= |steps| < |run|
  {
    forall k | i < k < j :: Untouched(run, steps, k, u)
  }

  /** A fresh token that is there at two moments has been there all the time. */
  lemma StillThere(run: seq<State>, steps: seq<Step>, i: nat, j: nat, u: Uid, x: Token)
    requires Run(run, steps) && FreshTokens(run, steps) && i < j <= |steps|
    requires HasToken(run[i], u, x) && HasToken(run[j], u, x)
    ensures UntouchedBetween(run, steps, i, j, u)
  {
    var was := WasSet(run, steps, i, u, x);
    TokenMeansLastSet(run, steps, j, u, x);
    var last :| LastSet(run, steps, j, u, x, last);
    assert last == was;
  }

  lemma {:induction false} UntouchedStays(run: seq<State>, steps: seq<Step>, i: nat, j: nat, u: Uid)
    requires Run(run, steps) && i < j <= |steps| && steps[i].ReadToken? && UntouchedBetween(run, steps, i, j, u)
    ensures Same(run[i].utoken, run[j].utoken, u)
  {
    TokenStep(run, steps, j - 1, u, 0);
    if j > i + 1 { UntouchedStays(run, steps, i, j - 1, u); }
  }

  /**
    The check at step j is made for the user of step i on another server, while the login of step i
    is between its `Get` and its `Del` and nothing has touched the token.
  */
  ghost predicate Overlaps(run: seq<State>, steps: seq<Step>, i: nat, j: nat)
    requires i < j < |steps| < |run| && steps[i].ReadToken? && steps[j].ReadToken?
  {
    && steps[j].uid == steps[i].uid && steps[j].server != steps[i].server
    && Reading(run[j], steps[i].server, steps[i].uid)
    && UntouchedBetween(run, steps, i, j, steps[i].uid)
  }

  /** On any number of servers: a fresh token passes the check again if and only if the checks overlap. */
  lemma TokenPassesAgain(run: seq<State>, steps: seq<Step>, i: nat, j: nat)
    requires Run(run, steps) && FreshTokens(run, steps) && i < j < |steps|
    requires steps[i].ReadToken? && steps[j].ReadToken?
    ensures steps[j].token == steps[i].token <==> Overlaps(run, steps, i, j)
  {
    var u, x := steps[i].uid, steps[i].token;
    if steps[j].token == x {
      StaysUsedUp(run, steps, i, j, steps[i].server, u, x);
      StillThere(run, steps, i, j, u, x);
    }
    if Overlaps(run, steps, i, j) {
      UntouchedStays(run, steps, i, j, u);
    }
  }

  ghost predicate UsedOnce(steps: seq<Step>) {
    forall i, j | 0 <= i < j < |steps| && steps[i].ReadToken? && steps[j].ReadToken? :: steps[j].token != steps[i].token
  }

  /** Over a whole run: every token is used at most once if and only if no two checks overlap. */
  lemma UsedOnceIff(run: seq<State>, steps: seq<Step>)
    requires Run(run, steps) && FreshTokens(run, steps)
    ensures UsedOnce(steps) <==>
      forall i, j | 0 <= i < j < |steps| && steps[i].ReadToken? && steps[j].ReadToken? :: !Overlaps(run, steps, i, j)
  {
    forall i: nat, j: nat | i < j < |steps| && steps[i].ReadToken? && steps[j].ReadToken?
      ensures steps[j].token == steps[i].token <==> Overlaps(run, steps, i, j)
    {
      TokenPassesAgain(run, steps, i, j);
    }
  }

  ghost predicate OneServer(steps: seq<Step>, v: SessionLogin.Server) {
    forall k | 0 <= k < |steps| && steps[k].ReadToken? :: steps[k].server == v
  }

  /** In particular, with one SessionServer. */
  lemma TokenPassesOnce(run: seq<State>, steps: seq<Step>, v: SessionLogin.Server)
    requires Run(run, steps) && FreshTokens(run, steps) && OneServer(steps, v)
    ensures UsedOnce(steps)
  {
    UsedOnceIff(run, steps);
  }

  /** With two servers it can pass twice: `Get` and `Del` are two commands. */
  lemma TokenPassesTwice() returns (run: seq<State>, steps: seq<Step>, i: nat, j: nat)
    ensures (forall u :: LockedRun(run, steps, u)) && FreshTokens(run, steps) && i < j < |steps|
    ensures steps[i].ReadToken? && steps[j].ReadToken? && steps[i].token == steps[j].token
  {
    run, steps := SessionLimits.ReachBothReading();
    i, j := 3, 4;
    assert forall k: nat, u, x | k < |steps| && Sets(run, steps, k, u, x) :: k == 2;
  }
}
