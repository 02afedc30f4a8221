/**
  The distributed lock of `DistributeLock`: one Redis key per name, set with `SET NX EX` to a
  fresh identifier and removed by a compare-and-delete script.

  The clock is Redis's own. It advances by any amount at any moment; a key whose time is over
  counts as absent, whether or not it has been purged.
*/
module LeasedLock {
  import SessionLogin

  /** The lock's clients are the logins and clean-ups; a lock is named by a user. */
  type Client = SessionLogin.Holder
  type Name = SessionLogin.Uid
  type Ident = nat

  /** `LOCK_TIME_OUT`, in milliseconds. */
  const LEASE: nat := 10000

  // ---------------------------------------------------------------- acquireLock, one client

  datatype Reply = Null | Error | Status(ok: bool) | Nil

  /** Try `k` is made before the deadline, and none before it was answered OK, by an error, or not at all. */
  predicate Reached(clock: seq<int>, replies: seq<Reply>, timeout: int, k: nat) {
    && 1 <= k < |clock| && |replies| == |clock|
    && (forall j | 1 <= j <= k :: clock[j] < clock[0] + timeout)
    && forall j | 1 <= j < k :: replies[j] == Status(false) || replies[j] == Nil
  }

  /**
    The retry loop. `clock[0]` is read before the loop and `clock[k]` by its guard; `replies[k]`
    answers the `SET` of that round. The clock passes the deadline at some point.
  */
  method AcquireLock(clock: seq<int>, replies: seq<Reply>, timeout: int) returns (acquired: bool)
    requires |replies| == |clock| >= 2 && clock[|clock| - 1] >= clock[0] + timeout
    ensures acquired <==> exists k: nat :: Reached(clock, replies, timeout, k) && replies[k] == Status(true)
  {
    var endTime := clock[0] + timeout;
    var k := 1;
    while clock[k] < endTime
      invariant 1 <= k < |clock|
      invariant forall j | 1 <= j < k :: clock[j] < endTime && (replies[j] == Status(false) || replies[j] == Nil)
      decreases |clock| - k
    {
      var reply := replies[k];
      if reply.Null? || reply.Error? { return false; }
      if reply == Status(true) {
        assert Reached(clock, replies, timeout, k);
        return true;
      }
      k := k + 1;
    }
    return false;
  }

  // ---------------------------------------------------------------- any number of clients

  datatype Key = Key(ident: Ident, expiry: int)

  datatype Phase =
    | Idle
    | Trying(name: Name, ident: Ident)
    | Holding(name: Name, ident: Ident, until: int)

  datatype State = State(now: int, keys: map<Name, Key>, clients: map<Client, Phase>, used: set<Ident>)

  datatype Step =
    | Tick(ms: nat)
    | Purge(name: Name)
    | Start(client: Client, name: Name, ident: Ident)
    | TrySet(client: Client, replied: bool)    // replied: the answer reaches the client
    | GiveUp(client: Client)                   // deadline, or no connection
    | Release(client: Client, sent: bool)      // sent: the script reaches Redis

  predicate Present(st: State, name: Name) { name in st.keys && st.now < st.keys[name].expiry }

  predicate Enabled(st: State, step: Step) {
    match step
    case Tick(_) => true
    case Purge(name) => !Present(st, name)
    case Start(c, _, ident) => (c in st.clients ==> st.clients[c].Idle?) && ident !in st.used
    case TrySet(c, _) => c in st.clients && st.clients[c].Trying?
    case GiveUp(c) => c in st.clients && st.clients[c].Trying?
    case Release(c, _) => c in st.clients && st.clients[c].Holding?
  }

  /** The script of `releaseLock`. */
  function CompareAndDelete(st: State, name: Name, ident: Ident): map<Name, Key> {
    if Present(st, name) && st.keys[name].ident == ident then st.keys - {name} else st.keys
  }

  function Next(st: State, step: Step): State
    requires Enabled(st, step)
  {
    match step
    case Tick(d) => st.(now := st.now + d)
    case Purge(name) => st.(keys := st.keys - {name})
    case Start(c, name, ident) =>
      st.(clients := st.clients[c := Trying(name, ident)], used := st.used + {ident})
    case TrySet(c, replied) =>
      var p := st.clients[c];
      if Present(st, p.name) then
        if replied then st else st.(clients := st.clients[c := Idle])
      else
        var until := st.now + LEASE;
        st.(keys := st.keys[p.name := Key(p.ident, until)],
            clients := st.clients[c := if replied then Holding(p.name, p.ident, until) else Idle])
    case GiveUp(c) => st.(clients := st.clients[c := Idle])
    case Release(c, sent) =>
      var p := st.clients[c];
      st.(keys := if sent then CompareAndDelete(st, p.name, p.ident) else st.keys,
          clients := st.clients[c := Idle])
  }

  ghost predicate Init(st: State) {
    st.clients == map[] && (forall n | n in st.keys :: st.keys[n].ident in st.used)
  }

  ghost predicate Run(run: seq<State>, steps: seq<Step>) {
    && |run| == |steps| + 1 && Init(run[0])
    && forall i | 0 <= i < |steps| :: Enabled(run[i], steps[i]) && run[i + 1] == Next(run[i], steps[i])
  }

  predicate Holds(st: State, c: Client, n: Name) {
    c in st.clients && st.clients[c].Holding? && st.clients[c].name == n
  }

  /** The client was told it has the lock, did not release it, and its lease is not over. */
  predicate InLease(st: State, c: Client, n: Name) { Holds(st, c, n) && st.now < st.clients[c].until }

  predicate Busy(st: State, c: Client) { c in st.clients && !st.clients[c].Idle? }

  ghost predicate Inv(st: State) {
    && (forall n | n in st.keys :: st.keys[n].ident in st.used)
    && (forall c | Busy(st, c) :: st.clients[c].ident in st.used)
    && (forall c, d | Busy(st, c) && Busy(st, d) && st.clients[c].ident == st.clients[d].ident :: c == d)
    && (forall c | c in st.clients && st.clients[c].Trying? ::
          forall n | n in st.keys :: st.keys[n].ident != st.clients[c].ident)
    && (forall c, n | InLease(st, c, n) ::
          n in st.keys && st.keys[n] == Key(st.clients[c].ident, st.clients[c].until))
  }

  lemma NextInv(st: State, step: Step)
    requires Inv(st) && Enabled(st, step)
    ensures Inv(Next(st, step))
  {
    match step {
      case Tick(ms) => TickInv(st, ms);
      case Purge(name) => PurgeInv(st, name);
      case Start(c, name, ident) => StartInv(st, c, name, ident);
      case TrySet(c, replied) => TrySetInv(st, c, replied);
      case GiveUp(c) => GiveUpInv(st, c);
      case Release(c, sent) => ReleaseInv(st, c, sent);
    }
  }

  lemma TickInv(st: State, ms: nat)
    requires Inv(st)
    ensures Inv(Next(st, Tick(ms)))
  {
    var st' := Next(st, Tick(ms));
    forall c, n | InLease(st', c, n)
      ensures n in st'.keys && st'.keys[n] == Key(st'.clients[c].ident, st'.clients[c].until)
    {
      assert InLease(st, c, n);
    }
    assert forall c | Busy(st', c) :: Busy(st, c);
  }

  lemma PurgeInv(st: State, name: Name)
    requires Inv(st) && Enabled(st, Purge(name))
    ensures Inv(Next(st, Purge(name)))
  {
    var st' := Next(st, Purge(name));
    forall c, n | InLease(st', c, n)
      ensures n in st'.keys && st'.keys[n] == Key(st'.clients[c].ident, st'.clients[c].until)
    {
      assert InLease(st, c, n);
    }
    assert forall c | Busy(st', c) :: Busy(st, c);
  }

  lemma StartInv(st: State, c: Client, name: Name, ident: Ident)
    requires Inv(st) && Enabled(st, Start(c, name, ident))
    ensures Inv(Next(st, Start(c, name, ident)))
  {
    var st' := Next(st, Start(c, name, ident));
    forall d, n | InLease(st', d, n)
      ensures n in st'.keys && st'.keys[n] == Key(st'.clients[d].ident, st'.clients[d].until)
    {
      assert InLease(st, d, n);
    }
    assert forall d | Busy(st', d) && d != c :: Busy(st, d);
  }

  lemma GiveUpInv(st: State, c: Client)
    requires Inv(st) && Enabled(st, GiveUp(c))
    ensures Inv(Next(st, GiveUp(c)))
  {
    var st' := Next(st, GiveUp(c));
    forall d, n | InLease(st', d, n)
      ensures n in st'.keys && st'.keys[n] == Key(st'.clients[d].ident, st'.clients[d].until)
    {
      assert InLease(st, d, n);
    }
    assert forall d | Busy(st', d) :: d != c && Busy(st, d);
  }

  lemma TrySetInv(st: State, c: Client, replied: bool)
    requires Inv(st) && Enabled(st, TrySet(c, replied))
    ensures Inv(Next(st, TrySet(c, replied)))
  {
    var st' := Next(st, TrySet(c, replied));
    forall d, n | InLease(st', d, n)
      ensures n in st'.keys && st'.keys[n] == Key(st'.clients[d].ident, st'.clients[d].until)
    {
      if d != c { assert InLease(st, d, n); }
    }
  }

  lemma ReleaseInv(st: State, c: Client, sent: bool)
    requires Inv(st) && Enabled(st, Release(c, sent))
    ensures Inv(Next(st, Release(c, sent)))
  {
    var st' := Next(st, Release(c, sent));
    forall d, n | InLease(st', d, n)
      ensures n in st'.keys && st'.keys[n] == Key(st'.clients[d].ident, st'.clients[d].until)
    {
      assert InLease(st, d, n) && Busy(st, c) && Busy(st, d);
    }
  }

  lemma {:induction false} RunInv(run: seq<State>, steps: seq<Step>, i: nat)
    requires Run(run, steps) && i < |run|
    ensures Inv(run[i])
  {
    if i == 0 {
    } else {
      RunInv(run, steps, i - 1);
      NextInv(run[i - 1], steps[i - 1]);
    }
  }

  /** Never two clients inside an unexpired lease on one name. */
  lemma LeaseSafety(run: seq<State>, steps: seq<Step>, i: nat, c: Client, d: Client, n: Name)
    requires Run(run, steps) && i < |run|
    requires InLease(run[i], c, n) && InLease(run[i], d, n)
    ensures c == d
  {
    RunInv(run, steps, i);
  }

  /**
    A release, however late, removes no key that holds another client's identifier, and takes
    nobody else out of a lease.
  */
  lemma ReleaseSafety(run: seq<State>, steps: seq<Step>, i: nat, n: Name)
    requires Run(run, steps) && i < |steps| && steps[i].Release? && n in run[i].keys
    ensures run[i].keys[n].ident != run[i].clients[steps[i].client].ident ==>
              n in run[i + 1].keys && run[i + 1].keys[n] == run[i].keys[n]
    ensures forall d | d != steps[i].client && InLease(run[i], d, n) ::
              InLease(run[i + 1], d, n) && Present(run[i + 1], n) && run[i + 1].keys[n] == run[i].keys[n]
  {
    RunInv(run, steps, i);
    forall d | d != steps[i].client && InLease(run[i], d, n)
      ensures InLease(run[i + 1], d, n) && Present(run[i + 1], n) && run[i + 1].keys[n] == run[i].keys[n]
    {
      assert Busy(run[i], d) && Busy(run[i], steps[i].client);
    }
  }

  /** Every client releases before its lease is over. */
  ghost predicate Prompt(st: State) {
    forall c, n | Holds(st, c, n) :: st.now < st.clients[c].until
  }

  /**
    Then holding is exclusive, and the lock is a mutex: whoever starts to hold a name finds
    nobody holding it. `SessionLock` puts it under the login protocol.
  */
  lemma LeaseIsMutex(run: seq<State>, steps: seq<Step>, i: nat, c: Client, d: Client, n: Name)
    requires Run(run, steps) && i < |steps| && Prompt(run[i])
    requires Holds(run[i], c, n)
    ensures Holds(run[i], d, n) ==> c == d
    ensures Holds(run[i + 1], d, n) ==> c == d
  {
    RunInv(run, steps, i);
    assert InLease(run[i], c, n);
    if Holds(run[i], d, n) { assert InLease(run[i], d, n); }
  }

  // ---------------------------------------------------------------- when the key is there

  predicate Tries(st: State, c: Client, n: Name) { c in st.clients && st.clients[c].Trying? && st.clients[c].name == n }

  /** Step k sets the key: a try that finds it absent, whether or not its client hears of it. */
  predicate Sets(run: seq<State>, steps: seq<Step>, k: nat, n: Name)
    requires k < |steps| < |run|
  {
    steps[k].TrySet? && Tries(run[k], steps[k].client, n) && !Present(run[k], n)
  }

  /** At step m the script arrives with the identifier that step k set. */
  predicate Returns(run: seq<State>, steps: seq<Step>, k: nat, m: nat, n: Name)
    requires k < m < |steps| < |run| && Sets(run, steps, k, n)
  {
    && steps[m].Release? && steps[m].sent && Holds(run[m], steps[m].client, n)
    && run[m].clients[steps[m].client].ident == run[k].clients[steps[k].client].ident
  }

  /** Step k set the key less than ten seconds ago, and it has not been returned. */
  ghost predicate Kept(run: seq<State>, steps: seq<Step>, k: nat, j: nat, n: Name)
    requires j <= |steps| < |run|
  {
    && k < j && Sets(run, steps, k, n) && run[j].now < run[k].now + 10000
    && forall m | k < m < j :: !Returns(run, steps, k, m, n)
  }

  /** The key as step k left it. */
  ghost predicate KeyOfSet(run: seq<State>, steps: seq<Step>, k: nat, j: nat, n: Name)
    requires k < j <= |steps| < |run| && Sets(run, steps, k, n)
  {
    n in run[j].keys && run[j].keys[n] == Key(run[k].clients[steps[k].client].ident, run[k].now + 10000)
  }

  lemma {:induction false} KeptIsThere(run: seq<State>, steps: seq<Step>, k: nat, j: nat, n: Name)
    requires Run(run, steps) && j <= |steps| && Kept(run, steps, k, j, n)
    ensures KeyOfSet(run, steps, k, j, n)
    decreases j
  {
    if j > k + 1 {
      KeptIsThere(run, steps, k, j - 1, n);
      assert !Returns(run, steps, k, j - 1, n);
    }
  }

  /**
    A key is there exactly if a try set it less than ten seconds ago and its holder has not returned
    it since; so a release that arrives in time lets the next one in at once.
  */
  lemma {:induction false} PresentExactly(run: seq<State>, steps: seq<Step>, j: nat, n: Name)
    requires Run(run, steps) && j <= |steps| && n !in run[0].keys
    ensures Present(run[j], n) <==> exists k :: Kept(run, steps, k, j, n)
  {
    if k :| Kept(run, steps, k, j, n) { KeptIsThere(run, steps, k, j, n); }
    if j > 0 && Present(run[j], n) {
      PresentExactly(run, steps, j - 1, n);
      if Present(run[j - 1], n) {
        var k :| Kept(run, steps, k, j - 1, n);
        KeptIsThere(run, steps, k, j - 1, n);
        assert Kept(run, steps, k, j, n);
      } else {
        assert Kept(run, steps, j - 1, j, n);
      }
    }
  }

  /** A try is told that it has the lock exactly if the key is absent, and then for ten seconds. */
  lemma GrantedIff(run: seq<State>, steps: seq<Step>, j: nat, d: Client, replied: bool, n: Name)
    requires Run(run, steps) && j < |steps| && steps[j] == TrySet(d, replied) && Tries(run[j], d, n)
    ensures Holds(run[j + 1], d, n) <==> replied && !Present(run[j], n)
    ensures Holds(run[j + 1], d, n) ==> run[j + 1].clients[d].until == run[j].now + 10000
    ensures replied && Present(run[j], n) ==> Tries(run[j + 1], d, n)
  {
  }

  /** A client that gives up or releases is idle, and may start again. */
  lemma EndsIdle(run: seq<State>, steps: seq<Step>, j: nat)
    requires Run(run, steps) && j < |steps| && (steps[j].GiveUp? || steps[j].Release?)
    ensures !Busy(run[j + 1], steps[j].client)
    ensures forall d | d != steps[j].client :: Busy(run[j + 1], d) <==> Busy(run[j], d)
  {
  }

  /** The clock moves by exactly its ticks, and ten seconds free every name. */
  lemma TenSecondsFree(run: seq<State>, steps: seq<Step>, j: nat, n: Name)
    requires Run(run, steps) && j < |steps| && n !in run[0].keys
    ensures run[j + 1].now == run[j].now + if steps[j].Tick? then steps[j].ms else 0
    ensures steps[j].Tick? && steps[j].ms >= 10000 ==> !Present(run[j + 1], n)
  {
    if Present(run[j + 1], n) {
      PresentExactly(run, steps, j + 1, n);
      var k :| Kept(run, steps, k, j + 1, n);
      NowGrows(run, steps, k, j);
    }
  }

  lemma {:induction false} NowGrows(run: seq<State>, steps: seq<Step>, i: nat, j: nat)
    requires Run(run, steps) && i <= j < |run|
    ensures run[i].now <= run[j].now
    decreases j
  {
    if i < j { NowGrows(run, steps, i, j - 1); }
  }

  lemma {:induction false} StaysFree(run: seq<State>, steps: seq<Step>, i: nat, j: nat, n: Name)
    requires Run(run, steps) && i <= j <= |steps| && !Present(run[i], n)
    requires forall m | i <= m < j :: !Sets(run, steps, m, n)
    ensures !Present(run[j], n)
    decreases j
  {
    if j > i {
      StaysFree(run, steps, i, j - 1, n);
      assert !Sets(run, steps, j - 1, n);
    }
  }

  /** Who releases inside its lease frees the key, and the next try gets it, however soon. */
  lemma Handover(run: seq<State>, steps: seq<Step>, i: nat, j: nat, c: Client, d: Client, n: Name)
    requires Run(run, steps) && i < j < |steps|
    requires steps[i] == Release(c, true) && InLease(run[i], c, n)
    requires steps[j] == TrySet(d, true) && Tries(run[j], d, n)
    requires forall m | i < m < j :: !Sets(run, steps, m, n)
    ensures !Present(run[i + 1], n)
    ensures Holds(run[j + 1], d, n) && run[j + 1].clients[d].until == run[j].now + 10000
  {
    RunInv(run, steps, i);
    StaysFree(run, steps, i + 1, j, n);
    GrantedIff(run, steps, j, d, true, n);
  }
}
