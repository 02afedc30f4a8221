/** Runs that show why `SessionLogin` states its theorems the way it does. */
module SessionLimits {
  import opened SessionLogin
  import opened SessionSequential

  /** A run in which every login obtains its lock. */
  ghost predicate AllLocked(run: seq<State>, steps: seq<Step>) {
    Run(run, steps) && forall i | 0 <= i < |steps| :: !steps[i].LoginWithoutLock?
  }

  /** A run in which nobody but user 5 goes without a lock. */
  ghost predicate OthersLocked(run: seq<State>, steps: seq<Step>) {
    Run(run, steps) && forall i | 0 <= i < |steps| && steps[i].LoginWithoutLock? :: Lockless(run[i], steps[i], 5)
  }

  lemma Extend(run: seq<State>, steps: seq<Step>, st: State, step: Step)
    returns (run': seq<State>, steps': seq<Step>, st': State)
    requires Run(run, steps) && run[|steps|] == st && Enabled(st, step)
    ensures Run(run', steps') && run'[|steps'|] == st' && st' == Next(st, step)
    ensures steps' == steps + [step] && run'[0] == run[0]
    ensures AllLocked(run, steps) && !step.LoginWithoutLock? ==> AllLocked(run', steps')
    ensures OthersLocked(run, steps) && (step.LoginWithoutLock? ==> Lockless(st, step, 5)) ==>
          OthersLocked(run', steps')
  {
    st' := Next(st, step);
    run', steps' := run + [st'], steps + [step];
  }

  /** A login that runs to its end without interruption. */
  lemma {:induction false} ExtendByLogin(run: seq<State>, steps: seq<Step>, v: Server, issued: Token, n: nat)
    returns (run': seq<State>, steps': seq<Step>)
    requires AllLocked(run, steps)
    ensures AllLocked(run', steps') && run'[|steps'|] == FollowLogin(run[|steps|], v, issued, n)
    decreases n
  {
    var st := run[|steps|];
    if n > 0 && Enabled(st, LoginStep(v, issued)) {
      var st';
      run', steps', st' := Extend(run, steps, st, LoginStep(v, issued));
      run', steps' := ExtendByLogin(run', steps', v, issued, n - 1);
    } else {
      run', steps' := run, steps;
    }
  }

  ghost function Empty(): State {
    State(map[], {}, map[], map[], map[],
          map[], map[], map[], map[], map[])
  }

  // ---------------------------------------------------------------- a login that did not get the lock

  /** Two connections of user 5 present the same token on two servers. */
  ghost function BothReading(): State {
    State(map[10 := Session(1, 0), 20 := Session(2, 0)], {10, 20}, map[], map[], map[],
          map[], map[5 := 7], map[], map[1 := Login(10, 5, TokenRead), 2 := Login(20, 5, TokenRead)], map[])
  }

  ghost function BothAccepted(): State {
    State(map[10 := Session(1, 0), 20 := Session(2, 0)], {10, 20}, map[], map[], map[],
          map[], map[], map[], map[1 := Login(10, 5, AwaitLock), 2 := Login(20, 5, AwaitLock)], map[])
  }

  lemma ReachBothReading() returns (run: seq<State>, steps: seq<Step>)
    ensures AllLocked(run, steps) && run[|steps|] == BothReading() && run[0] == Empty()
    ensures steps == [Accept(10, 1), Accept(20, 2), Handshake(5, 7), ReadToken(1, 10, 5, 7), ReadToken(2, 20, 5, 7)]
  {
    var st := Empty();
    run, steps := [st], [];
    run, steps, st := Extend(run, steps, st, Accept(10, 1));
    run, steps, st := Extend(run, steps, st, Accept(20, 2));
    run, steps, st := Extend(run, steps, st, Handshake(5, 7));
    run, steps, st := Extend(run, steps, st, ReadToken(1, 10, 5, 7));
    run, steps, st := Extend(run, steps, st, ReadToken(2, 20, 5, 7));
    assert st == BothReading();
  }

  lemma ReachBothAccepted() returns (run: seq<State>, steps: seq<Step>)
    ensures AllLocked(run, steps) && run[|steps|] == BothAccepted()
  {
    run, steps := ReachBothReading();
    var st := BothReading();
    run, steps, st := Extend(run, steps, st, LoginStep(1, 0));
    run, steps, st := Extend(run, steps, st, LoginStep(2, 0));
    assert st == BothAccepted();
  }

  /** One has the lock, the other goes on without it. */
  ghost function BothInside(): State {
    BothAccepted().(lock := map[5 := LoginOn(1)], logins := map[1 := Login(10, 5, ReadIp), 2 := Login(20, 5, ReadIp)])
  }

  ghost function OneBinding(): State {
    BothInside().(logins := BothInside().logins[1 := Login(10, 5, LoginAt.Bind)])
  }

  ghost function BothBinding(): State {
    OneBinding().(logins := OneBinding().logins[2 := Login(20, 5, LoginAt.Bind)])
  }

  ghost function OneBound(): State {
    var st := BothBinding();
    st.(sessions := st.sessions[10 := Session(1, 5)], logins := st.logins[1 := Login(10, 5, SetIp)])
  }

  lemma ReachBothInside() returns (run: seq<State>, steps: seq<Step>)
    ensures OthersLocked(run, steps) && run[|steps|] == BothInside()
  {
    run, steps := ReachBothAccepted();
    var st := BothAccepted();
    run, steps, st := Extend(run, steps, st, LoginStep(1, 0));
    run, steps, st := Extend(run, steps, st, LoginWithoutLock(2));
    assert st == BothInside();
  }

  lemma ReachOneBinding() returns (run: seq<State>, steps: seq<Step>)
    ensures OthersLocked(run, steps) && run[|steps|] == OneBinding()
  {
    run, steps := ReachBothInside();
    var st := BothInside();
    run, steps, st := Extend(run, steps, st, LoginStep(1, 0));
    assert st == OneBinding();
  }

  lemma ReachBothBinding() returns (run: seq<State>, steps: seq<Step>)
    ensures OthersLocked(run, steps) && run[|steps|] == BothBinding()
  {
    run, steps := ReachOneBinding();
    var st := OneBinding();
    run, steps, st := Extend(run, steps, st, LoginStep(2, 0));
    assert st == BothBinding();
  }

  lemma ReachOneBound() returns (run: seq<State>, steps: seq<Step>)
    ensures OthersLocked(run, steps) && run[|steps|] == OneBound()
  {
    run, steps := ReachBothBinding();
    var st := BothBinding();
    run, steps, st := Extend(run, steps, st, LoginStep(1, 0));
    assert st == OneBound();
  }

  /**
    `LoginHandler` does not test for an empty identifier: if one login of a user goes on without the
    lock, two sessions of the user stay in `_sessions`, although all others obtain theirs.
  */
  lemma LockIsNeeded() returns (run: seq<State>, steps: seq<Step>)
    ensures Run(run, steps) && forall u | u != 5 :: LockedRun(run, steps, u)
    ensures Active(run[|steps|], 10, 5) && Active(run[|steps|], 20, 5)
  {
    run, steps := ReachOneBound();
    var st := OneBound();
    run, steps, st := Extend(run, steps, st, LoginStep(2, 0));
  }

  // ---------------------------------------------------------------- a clean-up that started before the login

  /** A clean-up has read `_user_uid` as 0 and waits for the lock of user 0 when a login starts. */
  ghost function EarlyCleanup(): State {
    State(map[10 := Session(1, 0), 11 := Session(1, 0)], {10, 11}, map[], map[], map[],
          map[], map[5 := 7], map[], map[1 := Login(10, 5, TokenRead)], map[1 := Cleanup(10, 0, WaitLock)])
  }

  /** The login is over. */
  ghost function EarlyBound(): State {
    State(map[10 := Session(1, 5), 11 := Session(1, 0)], {10, 11}, map[UserKey(1, 5) := 10], map[], map[5 := 1],
          map[5 := 10], map[5 := 8], map[], map[], map[1 := Cleanup(10, 0, WaitLock)])
  }

  /** The clean-up has the lock of user 0. */
  ghost function EarlyClear(): State {
    EarlyBound().(lock := map[0 := CleanupBy(1)], cleanups := map[1 := Cleanup(10, 0, Clear(NotOwner))])
  }

  /** It has removed the user entry of user 5. */
  ghost function EarlyErase(): State {
    EarlyClear().(users := map[], clearing := map[1 := Clearing(10, CleanupBy(1))],
                  cleanups := map[1 := Cleanup(10, 0, Erase(NotOwner))])
  }

  /** The second login has used its token. */
  ghost function EarlyWaiting(): State {
    EarlyErase().(utoken := map[], logins := map[1 := Login(11, 5, AwaitLock)])
  }

  /** It has its lock. */
  ghost function EarlyInside(): State {
    EarlyWaiting().(lock := map[0 := CleanupBy(1), 5 := LoginOn(1)], logins := map[1 := Login(11, 5, ReadIp)])
  }

  ghost function EarlyLookup(): State { EarlyInside().(logins := map[1 := Login(11, 5, Lookup(1))]) }

  /** It has found nobody to kick. */
  ghost function EarlyLast(): State { EarlyInside().(logins := map[1 := Login(11, 5, LoginAt.Bind)]) }

  lemma ReachEarlyCleanup() returns (run: seq<State>, steps: seq<Step>)
    ensures AllLocked(run, steps) && run[|steps|] == EarlyCleanup()
  {
    var st := Empty();
    run, steps := [st], [];
    run, steps, st := Extend(run, steps, st, Accept(10, 1));
    run, steps, st := Extend(run, steps, st, Accept(11, 1));
    run, steps, st := Extend(run, steps, st, StartCleanup(1, 10));
    run, steps, st := Extend(run, steps, st, Handshake(5, 7));
    run, steps, st := Extend(run, steps, st, ReadToken(1, 10, 5, 7));
    assert st == EarlyCleanup();
  }

  lemma ReachEarlyBound() returns (run: seq<State>, steps: seq<Step>)
    ensures AllLocked(run, steps) && run[|steps|] == EarlyBound()
  {
    run, steps := ReachEarlyCleanup();
    LoginAlone(EarlyCleanup(), 1, 8, 12);
    assert AfterLogin(EarlyCleanup(), 1, 8) == EarlyBound();
    run, steps := ExtendByLogin(run, steps, 1, 8, 12);
  }

  lemma ReachEarlyClear() returns (run: seq<State>, steps: seq<Step>)
    ensures AllLocked(run, steps) && run[|steps|] == EarlyClear()
  {
    run, steps := ReachEarlyBound();
    var st := EarlyBound();
    run, steps, st := Extend(run, steps, st, CleanupStep(1, true));
    run, steps, st := Extend(run, steps, st, CleanupStep(1, true));
    assert st == EarlyClear();
  }

  lemma ReachEarlyErase() returns (run: seq<State>, steps: seq<Step>)
    ensures AllLocked(run, steps) && run[|steps|] == EarlyErase()
  {
    run, steps := ReachEarlyClear();
    var st := EarlyClear();
    run, steps, st := Extend(run, steps, st, CleanupStep(1, true));
    assert st == EarlyErase();
  }

  lemma ReachEarlyWaiting() returns (run: seq<State>, steps: seq<Step>)
    ensures AllLocked(run, steps) && run[|steps|] == EarlyWaiting()
  {
    run, steps := ReachEarlyErase();
    var st := EarlyErase();
    run, steps, st := Extend(run, steps, st, ReadToken(1, 11, 5, 8));
    run, steps, st := Extend(run, steps, st, LoginStep(1, 0));
    assert st == EarlyWaiting();
  }

  lemma ReachEarlyInside() returns (run: seq<State>, steps: seq<Step>)
    ensures AllLocked(run, steps) && run[|steps|] == EarlyInside()
  {
    run, steps := ReachEarlyWaiting();
    var st := EarlyWaiting();
    run, steps, st := Extend(run, steps, st, LoginStep(1, 0));
    assert st == EarlyInside();
  }

  lemma ReachEarlyLookup() returns (run: seq<State>, steps: seq<Step>)
    ensures AllLocked(run, steps) && run[|steps|] == EarlyLookup()
  {
    run, steps := ReachEarlyInside();
    var st := EarlyInside();
    run, steps, st := Extend(run, steps, st, LoginStep(1, 0));
    assert st == EarlyLookup();
  }

  lemma ReachEarlyLast() returns (run: seq<State>, steps: seq<Step>)
    ensures AllLocked(run, steps) && run[|steps|] == EarlyLast()
  {
    run, steps := ReachEarlyLookup();
    var st := EarlyLookup();
    run, steps, st := Extend(run, steps, st, LoginStep(1, 0));
    assert st == EarlyLast();
  }

  /**
    The exception in `SecondEntryIsDoomed` happens: such a clean-up holds the lock of user 0
    only, so a second login can bind its session before the first one is erased.
  */
  lemma SecondEntryOccurs() returns (run: seq<State>, steps: seq<Step>)
    ensures forall u :: LockedRun(run, steps, u)
    ensures var st := run[|steps|];
      && {10, 11} <= st.live && {10, 11} <= st.sessions.Keys
      && st.sessions[10].uid == 5 && st.sessions[11].uid == 5
  {
    run, steps := ReachEarlyLast();
    var st := EarlyLast();
    run, steps, st := Extend(run, steps, st, LoginStep(1, 0));
  }
}
