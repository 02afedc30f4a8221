/**
  StatusServer's `RedisConPool`: borrowers on many threads beside the check thread that pings idle
  connections, drops the dead ones and opens new ones later.
*/
module ConnectionPool {
  import opened Bytes

  /** A redisContext, by identity. */
  type Context = nat

  // ---------------------------------------------------------------- one check, run alone

  /** The contexts that answer PING, in queue order. */
  function Answering(q: seq<Context>, alive: set<Context>): (r: seq<Context>)
    ensures |r| <= |q|
  {
    if q == [] then [] else (if q[0] in alive then [q[0]] else []) + Answering(q[1..], alive)
  }

  lemma {:induction false} AnsweringSnoc(q: seq<Context>, c: Context, alive: set<Context>)
    ensures Answering(q + [c], alive) == Answering(q, alive) + if c in alive then [c] else []
  {
    if q == [] {
      assert [c][1..] == [];
    } else {
      assert (q + [c])[1..] == q[1..] + [c];
      AnsweringSnoc(q[1..], c, alive);
      AppendAssociative(if q[0] in alive then [q[0]] else [], Answering(q[1..], alive), if c in alive then [c] else []);
    }
  }

  class RedisConPool {
    var connections: seq<Context>
    var failCount: nat
    var stopped: bool

    constructor (connections: seq<Context>)
      ensures this.connections == connections && failCount == 0 && !stopped
    {
      this.connections, failCount, stopped := connections, 0, false;
    }

    /** Also what the waiting `getConnection` does once its condition holds. */
    method GetConNonBlock() returns (found: bool, c: Context)
      modifies this`connections
      ensures found <==> !stopped && old(connections) != []
      ensures if found then old(connections) == [c] + connections else connections == old(connections)
    {
      if stopped || connections == [] { return false, 0; }
      found, c := true, connections[0];
      connections := connections[1..];
    }

    method ReturnConnection(c: Context)
      modifies this`connections
      ensures connections == if stopped then old(connections) else old(connections) + [c]
    {
      if stopped { return; }
      connections := connections + [c];
    }

    /**
      `checkThread`, not stopped: `alive` answer PING, and reconnects give the contexts in `made`
      until those are used up. Every failed connection is replaced or still counted.
    */
    method CheckThread(alive: set<Context>, made: seq<Context>)
      requires !stopped
      modifies this`connections, this`failCount
      ensures var kept := Answering(old(connections), alive);
        var lost := old(failCount) + |old(connections)| - |kept|;
        var healed := if lost < |made| then lost else |made|;
        connections == kept + made[..healed] && failCount == lost - healed
      ensures |connections| + failCount == |old(connections)| + old(failCount)
    {
      Sweep(alive);
      Heal(made);
    }

    /** Every idle connection once: back into the queue if it answers, else freed and counted. */
    method Sweep(alive: set<Context>)
      requires !stopped
      modifies this`connections, this`failCount
      ensures connections == Answering(old(connections), alive)
      ensures failCount == old(failCount) + |old(connections)| - |connections|
    {
      ghost var q := connections;
      var size := |connections|;
      var i := 0;
      while i < size
        invariant 0 <= i <= size == |q|
        invariant connections == q[i..] + Answering(q[..i], alive)
        invariant failCount == old(failCount) + i - |Answering(q[..i], alive)|
      {
        AnsweringSnoc(q[..i], q[i], alive);
        assert q[..i] + [q[i]] == q[..i + 1];
        assert connections[0] == q[i] && connections[1..] == q[i + 1..] + Answering(q[..i], alive);
        var found, c := GetConNonBlock();
        if !found { break; }
        assert c == q[i] && connections == q[i + 1..] + Answering(q[..i], alive);
        if c in alive {
          AppendAssociative(q[i + 1..], Answering(q[..i], alive), [c]);
          ReturnConnection(c);
        } else {
          failCount := failCount + 1;
        }
        i := i + 1;
      }
      assert q[..i] == q && q[i..] == [];
    }

    /** Reconnect once for each counted failure, until one attempt fails. */
    method Heal(made: seq<Context>)
      requires !stopped
      modifies this`connections, this`failCount
      ensures var lost := old(failCount);
        var healed := if lost < |made| then lost else |made|;
        connections == old(connections) + made[..healed] && failCount == lost - healed
    {
      ghost var kept, lost := connections, failCount;
      var m := 0;
      while failCount > 0
        invariant 0 <= m <= |made| && m + failCount == lost
        invariant connections == kept + made[..m]
        decreases failCount
      {
        if m == |made| { break; }
        ReturnConnection(made[m]);
        failCount := failCount - 1;
        m := m + 1;
      }
    }
  }

  // ---------------------------------------------------------------- borrowers beside the check thread

  /** Where `checkThread` stands, between two accesses to shared state. */
  datatype Check =
    | Off
    | Sweep(left: nat)              // iterations still to do
    | Pinging(left: nat, c: Context)
    | Freed(left: nat)              // context freed, `_fail_count` not yet raised
    | Healing
    | Connected(c: Context)         // new context, not yet in the queue
    | Returned                      // in the queue, `_fail_count` not yet lowered

  datatype Pool = Pool(idle: seq<Context>, lent: set<Context>, failed: nat, check: Check)

  datatype Step =
    | Borrow
    | GiveBack(c: Context)
    | StartCheck
    | CheckStep(ok: bool, made: Context)   // ok: PING answered, or reconnect succeeded

  /** Contexts that exist somewhere; hiredis never hands out one of these again. */
  function InUse(p: Pool): set<Context> {
    (set c | c in p.idle) + p.lent
    + match p.check case Pinging(_, c) => {c} case Connected(c) => {c} case _ => {}
  }

  predicate Enabled(p: Pool, s: Step) {
    match s
    case Borrow => p.idle != []
    case GiveBack(c) => c in p.lent
    case StartCheck => p.check.Off?
    case CheckStep(ok, made) => !p.check.Off? && made !in InUse(p)
  }

  function CheckNext(p: Pool, ok: bool, made: Context): Pool {
    match p.check
    case Off => p
    case Sweep(left) =>
      if left == 0 || p.idle == [] then p.(check := Healing)
      else p.(idle := p.idle[1..], check := Pinging(left - 1, p.idle[0]))
    case Pinging(left, c) =>
      if ok then p.(idle := p.idle + [c], check := Sweep(left)) else p.(check := Freed(left))
    case Freed(left) => p.(failed := p.failed + 1, check := Sweep(left))
    case Healing => p.(check := if p.failed > 0 && ok then Connected(made) else Off)
    case Connected(c) => p.(idle := p.idle + [c], check := Returned)
    case Returned => p.(failed := if p.failed > 0 then p.failed - 1 else 0, check := Healing)
  }

  function Next(p: Pool, s: Step): Pool
    requires Enabled(p, s)
  {
    match s
    case Borrow => p.(idle := p.idle[1..], lent := p.lent + {p.idle[0]})
    case GiveBack(c) => p.(idle := p.idle + [c], lent := p.lent - {c})
    case StartCheck => p.(check := Sweep(|p.idle|))
    case CheckStep(ok, made) => CheckNext(p, ok, made)
  }

  ghost predicate Run(run: seq<Pool>, steps: seq<Step>) {
    && |run| == |steps| + 1
    && (forall i | 0 <= i < |steps| :: Enabled(run[i], steps[i]) && run[i + 1] == Next(run[i], steps[i]))
  }

  /** A pool as its constructor leaves it. */
  predicate New(p: Pool) {
    p.lent == {} && p.failed == 0 && p.check.Off? && forall i, j | 0 <= i < j < |p.idle| :: p.idle[i] != p.idle[j]
  }

  /** What the check thread has in hand: a context, or one half of a paired update. */
  function Gap(c: Check): int {
    match c
    case Pinging(_, _) => 1
    case Freed(_) => 1
    case Returned => -1
    case _ => 0
  }

  predicate NoRepeats(s: seq<Context>) { forall i, j | 0 <= i < j < |s| :: s[i] != s[j] }

  predicate Held(p: Pool, c: Context) { (p.check.Pinging? || p.check.Connected?) && p.check.c == c }

  /** Each context is in one place only: idle, lent, or in the check thread's hands. */
  predicate Apart(p: Pool) {
    && NoRepeats(p.idle)
    && (forall c | c in p.lent :: c !in p.idle && !Held(p, c))
    && (forall c | c in p.idle :: !Held(p, c))
    && (p.check.Connected? || p.check.Returned? ==> p.failed > 0)
  }

  /** Idle, lent and counted as failed, with what the check thread has in hand. */
  function Total(p: Pool): int { |p.idle| + |p.lent| + p.failed + Gap(p.check) }

  lemma Pop(q: seq<Context>)
    requires NoRepeats(q) && q != []
    ensures NoRepeats(q[1..])
    ensures forall c :: c in q[1..] <==> c in q && c != q[0]
  {
    assert q == [q[0]] + q[1..];
  }

  lemma Push(q: seq<Context>, c: Context)
    requires NoRepeats(q) && c !in q
    ensures NoRepeats(q + [c])
  {
  }

  lemma BorrowKeeps(p: Pool)
    requires Apart(p) && p.idle != []
    ensures Apart(Next(p, Borrow)) && Total(Next(p, Borrow)) == Total(p)
  {
    Pop(p.idle);
    assert p.idle[0] in p.idle;
  }

  lemma GiveBackKeeps(p: Pool, c: Context)
    requires Apart(p) && c in p.lent
    ensures Apart(Next(p, GiveBack(c))) && Total(Next(p, GiveBack(c))) == Total(p)
  {
    Push(p.idle, c);
  }

  lemma SweepKeeps(p: Pool, ok: bool, made: Context)
    requires Apart(p) && (p.check.Sweep? || p.check.Freed?)
    ensures Apart(CheckNext(p, ok, made)) && Total(CheckNext(p, ok, made)) == Total(p)
  {
    if p.idle != [] {
      Pop(p.idle);
      assert p.idle[0] in p.idle;
    }
  }

  lemma ReturnKeeps(p: Pool, ok: bool, made: Context)
    requires Apart(p) && (p.check.Pinging? || p.check.Connected?)
    ensures Apart(CheckNext(p, ok, made)) && Total(CheckNext(p, ok, made)) == Total(p)
  {
    assert Held(p, p.check.c);
    Push(p.idle, p.check.c);
  }

  lemma HealKeeps(p: Pool, ok: bool, made: Context)
    requires Apart(p) && (p.check.Healing? || p.check.Returned?) && made !in InUse(p)
    ensures Apart(CheckNext(p, ok, made)) && Total(CheckNext(p, ok, made)) == Total(p)
  {
  }

  lemma CheckKeeps(p: Pool, ok: bool, made: Context)
    requires Apart(p) && Enabled(p, CheckStep(ok, made))
    ensures Apart(CheckNext(p, ok, made)) && Total(CheckNext(p, ok, made)) == Total(p)
  {
    if p.check.Sweep? || p.check.Freed? {
      SweepKeeps(p, ok, made);
    } else if p.check.Pinging? || p.check.Connected? {
      ReturnKeeps(p, ok, made);
    } else {
      HealKeeps(p, ok, made);
    }
  }

  lemma StepKeeps(p: Pool, s: Step)
    requires Apart(p) && Enabled(p, s)
    ensures Apart(Next(p, s)) && Total(Next(p, s)) == Total(p)
  {
    if s.Borrow? {
      BorrowKeeps(p);
    } else if s.GiveBack? {
      GiveBackKeeps(p, s.c);
    } else if s.CheckStep? {
      CheckKeeps(p, s.ok, s.made);
    }
  }

  /**
    Until stop, whatever borrowers do beside the check thread: no context is in two places, and
    idle + lent + failed is the number of connections made at the start, but for the half of a
    paired update that is still to come. So never more are open for use than at the start.
  */
  lemma {:induction false} Conservation(run: seq<Pool>, steps: seq<Step>, i: nat)
    requires Run(run, steps) && New(run[0]) && i < |run|
    ensures Apart(run[i])
    ensures |run[i].idle| + |run[i].lent| + run[i].failed == |run[0].idle| - Gap(run[i].check)
    ensures |run[i].idle| + |run[i].lent| <= |run[0].idle|
  {
    if i == 0 {
    } else {
      Conservation(run, steps, i - 1);
      StepKeeps(run[i - 1], steps[i - 1]);
    }
  }

  // ---------------------------------------------------------------- both loops end

  /** What is left of a check, in steps of its own, at most. */
  function Measure(p: Pool): nat {
    match p.check
    case Off => 0
    case Sweep(left) => 6 * left + 3 * p.failed + 2
    case Pinging(left, _) => 6 * left + 3 * p.failed + 7
    case Freed(left) => 6 * left + 3 * p.failed + 6
    case Healing => 3 * p.failed + 1
    case Connected(_) => 3 * p.failed
    case Returned => if p.failed > 0 then 3 * p.failed - 1 else 2
  }

  lemma MeasureFalls(p: Pool, s: Step)
    requires Apart(p) && Enabled(p, s) && !s.StartCheck?
    ensures s.CheckStep? ==> Measure(Next(p, s)) < Measure(p)
    ensures !s.CheckStep? ==> Measure(Next(p, s)) == Measure(p)
  {
  }

  function CheckSteps(steps: seq<Step>): nat {
    if steps == [] then 0
    else CheckSteps(steps[..|steps| - 1]) + if steps[|steps| - 1].CheckStep? then 1 else 0
  }

  /**
    However borrowers run beside it, a check takes a bounded number of steps: at most six for
    each connection idle when it began and three for each failed one, and two more.
  */
  lemma {:induction false} CheckEnds(run: seq<Pool>, steps: seq<Step>, n: nat)
    requires Run(run, steps) && Apart(run[0]) && n <= |steps|
    requires forall i | 0 <= i < n :: !steps[i].StartCheck?
    ensures Apart(run[n]) && CheckSteps(steps[..n]) + Measure(run[n]) <= Measure(run[0])
  {
    if n == 0 {
    } else {
      CheckEnds(run, steps, n - 1);
      StepKeeps(run[n - 1], steps[n - 1]);
      MeasureFalls(run[n - 1], steps[n - 1]);
      assert steps[..n][..n - 1] == steps[..n - 1];
    }
  }

  // ---------------------------------------------------------------- the check thread alone

  /** n steps of the check with nobody beside it: those alive answer PING; reconnects give `made`, then fail. */
  function Alone(p: Pool, alive: set<Context>, made: seq<Context>, n: nat): Pool
    decreases n
  {
    if n == 0 then p
    else if p.check.Pinging? then Alone(CheckNext(p, p.check.c in alive, 0), alive, made, n - 1)
    else if p.check.Healing? && p.failed > 0 && made != [] then
      Alone(CheckNext(p, true, made[0]), alive, made[1..], n - 1)
    else Alone(CheckNext(p, false, 0), alive, made, n - 1)
  }

  /** As many failed connections are replaced as there are new ones. */
  function Healed(p: Pool, made: seq<Context>): Pool {
    var n := if p.failed < |made| then p.failed else |made|;
    p.(idle := p.idle + made[..n], failed := p.failed - n, check := Off)
  }

  lemma {:induction false} OffStays(p: Pool, alive: set<Context>, made: seq<Context>, n: nat)
    requires p.check.Off?
    ensures Alone(p, alive, made, n) == p
    decreases n
  {
    if n > 0 { OffStays(p, alive, made, n - 1); }
  }

  lemma {:induction false} HealAlone(p: Pool, alive: set<Context>, made: seq<Context>, n: nat)
    requires p.check.Healing? && n >= 3 * p.failed + 1
    ensures Alone(p, alive, made, n) == Healed(p, made)
    decreases p.failed
  {
    if p.failed > 0 && made != [] {
      var p1 := p.(check := Connected(made[0]));
      var p2 := p.(idle := p.idle + [made[0]], check := Returned);
      var p3 := p.(idle := p.idle + [made[0]], failed := p.failed - 1, check := Healing);
      assert Alone(p, alive, made, n) == Alone(p1, alive, made[1..], n - 1);
      assert Alone(p1, alive, made[1..], n - 1) == Alone(p2, alive, made[1..], n - 2);
      assert Alone(p2, alive, made[1..], n - 2) == Alone(p3, alive, made[1..], n - 3);
      HealAlone(p3, alive, made[1..], n - 3);
      HealedOneMore(p, p3, made);
    } else {
      OffStays(p.(check := Off), alive, made, n - 1);
      assert p.idle + [] == p.idle;
    }
  }

  lemma HealedOneMore(p: Pool, p3: Pool, made: seq<Context>)
    requires p.failed > 0 && made != []
    requires p3 == p.(idle := p.idle + [made[0]], failed := p.failed - 1, check := Healing)
    ensures Healed(p3, made[1..]) == Healed(p, made)
  {
    var n := if p.failed < |made| then p.failed else |made|;
    assert [made[0]] + made[1..][..n - 1] == made[..n];
    AppendAssociative(p.idle, [made[0]], made[1..][..n - 1]);
  }

  /** The pool when the sweep has come to its end: the first `left` connections have been asked. */
  function Asked(p: Pool, left: nat, alive: set<Context>): Pool
    requires left <= |p.idle|
  {
    var kept := Answering(p.idle[..left], alive);
    p.(idle := p.idle[left..] + kept, failed := p.failed + left - |kept|, check := Healing)
  }

  lemma {:induction false} SweepAlone(p: Pool, left: nat, alive: set<Context>, made: seq<Context>, n: nat)
    requires p.check == Sweep(left) && left <= |p.idle| && n >= 6 * left + 3 * p.failed + 2
    ensures Alone(p, alive, made, n) == Healed(Asked(p, left, alive), made)
    decreases left
  {
    if left == 0 {
      assert p.idle[0..] + [] == p.idle;
      HealAlone(p.(check := Healing), alive, made, n - 1);
    } else {
      var c := p.idle[0];
      var p1 := p.(idle := p.idle[1..], check := Pinging(left - 1, c));
      assert Alone(p, alive, made, n) == Alone(p1, alive, made, n - 1);
      if c in alive {
        var p2 := p1.(idle := p.idle[1..] + [c], check := Sweep(left - 1));
        assert Alone(p1, alive, made, n - 1) == Alone(p2, alive, made, n - 2);
        SweepAlone(p2, left - 1, alive, made, n - 2);
      } else {
        var p2, p3 := p1.(check := Freed(left - 1)), p1.(failed := p.failed + 1, check := Sweep(left - 1));
        assert Alone(p1, alive, made, n - 1) == Alone(p2, alive, made, n - 2);
        assert Alone(p2, alive, made, n - 2) == Alone(p3, alive, made, n - 3);
        SweepAlone(p3, left - 1, alive, made, n - 3);
      }
      AskedOneMore(p, left, alive);
    }
  }

  lemma AskedOneMore(p: Pool, left: nat, alive: set<Context>)
    requires 0 < left <= |p.idle|
    ensures var c, check := p.idle[0], Sweep(left - 1);
      Asked(p, left, alive)
        == if c in alive then Asked(p.(idle := p.idle[1..] + [c], check := check), left - 1, alive)
           else Asked(p.(idle := p.idle[1..], failed := p.failed + 1, check := check), left - 1, alive)
  {
    var c, rest := p.idle[0], p.idle[1..];
    assert p.idle[..left][1..] == rest[..left - 1] && p.idle[left..] == rest[left - 1..];
    assert (rest + [c])[..left - 1] == rest[..left - 1] && (rest + [c])[left - 1..] == rest[left - 1..] + [c];
    AppendAssociative(rest[left - 1..], [c], Answering(rest[..left - 1], alive));
  }

  /** A check that nobody interrupts does to the pool what `CheckThread` does. */
  lemma CheckAlone(p: Pool, alive: set<Context>, made: seq<Context>, n: nat)
    requires p.check.Off? && n >= 6 * |p.idle| + 3 * p.failed + 2
    ensures var kept := Answering(p.idle, alive);
      var lost := p.failed + |p.idle| - |kept|;
      var healed := if lost < |made| then lost else |made|;
      Alone(Next(p, StartCheck), alive, made, n) == Pool(kept + made[..healed], p.lent, lost - healed, Off)
  {
    SweepAlone(Next(p, StartCheck), |p.idle|, alive, made, n);
    assert p.idle[..|p.idle|] == p.idle && p.idle[|p.idle|..] == [];
  }

  // ---------------------------------------------------------------- the queue is a queue

  /** What this step takes out of the queue, and what it puts back. */
  function Taken(p: Pool, s: Step): seq<Context> {
    if p.idle != [] && (s.Borrow? || (s.CheckStep? && p.check.Sweep? && p.check.left > 0)) then [p.idle[0]] else []
  }

  function PutBack(p: Pool, s: Step): seq<Context> {
    match s
    case GiveBack(c) => [c]
    case CheckStep(ok, _) =>
      if (p.check.Pinging? && ok) || p.check.Connected? then [p.check.c] else []
    case _ => []
  }

  function AllTaken(run: seq<Pool>, steps: seq<Step>, n: nat): seq<Context>
    requires n <= |steps| < |run|
  {
    if n == 0 then [] else AllTaken(run, steps, n - 1) + Taken(run[n - 1], steps[n - 1])
  }

  function AllPutBack(run: seq<Pool>, steps: seq<Step>, n: nat): seq<Context>
    requires n <= |steps| < |run|
  {
    if n == 0 then [] else AllPutBack(run, steps, n - 1) + PutBack(run[n - 1], steps[n - 1])
  }

  /** What is taken goes to the borrower, or to the check thread. */
  lemma TakenGoes(p: Pool, s: Step)
    requires Enabled(p, s)
    ensures s.Borrow? ==> Taken(p, s) == [p.idle[0]] && Next(p, s).lent == p.lent + {p.idle[0]}
    ensures Taken(p, s) != [] && s.CheckStep? ==> Next(p, s).check == Pinging(p.check.left - 1, p.idle[0])
  {
  }

  /** Connections are taken in the order in which they came into the queue, whoever takes or returns them. */
  lemma {:induction false} FirstInFirstOut(run: seq<Pool>, steps: seq<Step>, n: nat)
    requires Run(run, steps) && n <= |steps|
    ensures AllTaken(run, steps, n) + run[n].idle == run[0].idle + AllPutBack(run, steps, n)
  {
    if n == 0 {
      assert [] + run[0].idle == run[0].idle + [];
    } else {
      FirstInFirstOut(run, steps, n - 1);
      var t, b := AllTaken(run, steps, n - 1), AllPutBack(run, steps, n - 1);
      var p, out, back := run[n - 1], Taken(run[n - 1], steps[n - 1]), PutBack(run[n - 1], steps[n - 1]);
      QueueStep(p, steps[n - 1]);
      AppendAssociative(t, out, run[n].idle);
      AppendAssociative(t, p.idle, back);
      AppendAssociative(run[0].idle, b, back);
    }
  }

  lemma QueueStep(p: Pool, s: Step)
    requires Enabled(p, s)
    ensures Taken(p, s) + Next(p, s).idle == p.idle + PutBack(p, s)
  {
  }
}
