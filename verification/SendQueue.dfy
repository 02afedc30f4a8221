/**
  The sending half of `Session`: `Send` queues a `SendNode`, and one `async_write` at a time
  sends the front. Both run under `_send_mutex`, so each call is one step.
*/
module SendQueue {
  import opened Bytes
  import opened Frames

  const MAX_SEND_QUEUE: nat := 1024

  /** A message id and a body whose length a `short` can hold. */
  datatype Outgoing = Outgoing(id: int, body: seq<byte>)

  predicate Sendable(m: Outgoing) { -32768 <= m.id < 32768 && |m.body| <= 32767 }

  /** `host_to_network_short` sees the two's complement of the id. */
  function Unsigned(n: int): (r: word)
    requires -32768 <= n < 32768
    ensures (r - n) % 65536 == 0
  {
    if n < 0 then n + 65536 else n
  }

  /** The buffer of a `SendNode`. */
  function Node(m: Outgoing): seq<byte>
    requires Sendable(m)
  {
    Head(Unsigned(m.id), |m.body|) + m.body
  }

  /** The two's complement of the id and the length, most significant byte first, then the body. */
  lemma NodeIs(m: Outgoing)
    requires -32768 <= m.id < 32768 && |m.body| <= 32767
    ensures var s := Node(m);
      && |s| == 4 + |m.body| && s[4..] == m.body
      && (s[0] as int * 256 + s[1] as int - m.id) % 65536 == 0
      && s[2] as int * 256 + s[3] as int == |m.body|
  {
  }

  function Nodes(ms: seq<Outgoing>): seq<byte>
    requires forall m | m in ms :: Sendable(m)
  {
    if ms == [] then [] else Node(ms[0]) + Nodes(ms[1..])
  }

  /** `writing` is the buffer of the `async_write` in flight, of which `moved` bytes are on the wire. */
  datatype State = State(queue: seq<Outgoing>, writing: Option<seq<byte>>, moved: nat, failed: bool,
                         wire: seq<byte>, accepted: seq<Outgoing>)

  const START := State([], None, 0, false, [], [])

  datatype Step = Send(m: Outgoing) | Move(n: nat) | Written | WriteFailed

  predicate Enabled(st: State, step: Step) {
    match step
    case Send(m) => Sendable(m)
    case Move(n) => st.writing.Some? && st.moved + n <= |st.writing.value|
    case Written => st.writing.Some? && st.moved == |st.writing.value| && st.queue != []
    case WriteFailed => st.writing.Some?
  }

  predicate AllSendable(st: State) {
    (forall m | m in st.queue :: Sendable(m)) && (forall m | m in st.accepted :: Sendable(m))
  }

  function Next(st: State, step: Step): State
    requires AllSendable(st) && Enabled(st, step)
  {
    match step
    case Send(m) =>
      if |st.queue| > MAX_SEND_QUEUE then st else
      var st' := st.(queue := st.queue + [m], accepted := st.accepted + [m]);
      if |st.queue| > 0 then st' else st'.(writing := Some(Node(m)), moved := 0)
    case Move(n) => st.(moved := st.moved + n, wire := st.wire + st.writing.value[st.moved..st.moved + n])
    case Written =>
      var rest := st.queue[1..];
      assert forall m | m in rest :: m in st.queue;
      st.(queue := rest, moved := 0, writing := if rest == [] then None else Some(Node(rest[0])))
    case WriteFailed => st.(writing := None, failed := true)
  }

  /** `done` messages were written completely; the rest of the accepted ones is the queue. */
  ghost predicate InvFor(st: State, done: nat) {
    && AllSendable(st)
    && |st.queue| <= MAX_SEND_QUEUE + 1
    && done <= |st.accepted| && st.accepted[done..] == st.queue
    && (st.failed ==> st.writing.None? && st.queue != [])
    && (!st.failed ==> (st.writing.Some? <==> st.queue != []))
    && (st.writing.Some? ==> st.writing == Some(Node(st.queue[0])))
    && st.moved <= (if st.queue == [] then 0 else |Node(st.queue[0])|)
    && PrefixSendable(st.accepted, done)
    && st.wire == Nodes(st.accepted[..done]) + (if st.queue == [] then [] else Node(st.queue[0])[..st.moved])
  }

  ghost predicate PrefixSendable(ms: seq<Outgoing>, n: nat)
    requires n <= |ms|
  {
    forall m | m in ms[..n] :: Sendable(m)
  }

  lemma {:induction false} NodesSnoc(ms: seq<Outgoing>, m: Outgoing)
    requires (forall x | x in ms :: Sendable(x)) && Sendable(m)
    ensures forall x | x in ms + [m] :: Sendable(x)
    ensures Nodes(ms + [m]) == Nodes(ms) + Node(m)
  {
    if ms == [] {
      assert ms + [m] == [m] && [m][1..] == [];
      assert Node(m) + [] == Node(m);
    } else {
      assert (ms + [m])[1..] == ms[1..] + [m];
      NodesSnoc(ms[1..], m);
      assert Node(ms[0]) + (Nodes(ms[1..]) + Node(m)) == (Node(ms[0]) + Nodes(ms[1..])) + Node(m);
    }
  }

  lemma {:induction false} NodesPrefix(ms: seq<Outgoing>, n: nat)
    requires n <= |ms| && forall m | m in ms :: Sendable(m)
    ensures PrefixSendable(ms, n) && Nodes(ms[..n]) <= Nodes(ms)
    ensures n < |ms| ==> Nodes(ms[..n]) + Node(ms[n]) <= Nodes(ms)
  {
    if n == 0 {
      assert ms[..0] == [] && Nodes(ms[..0]) == [];
      if ms != [] { assert [] + Node(ms[0]) == Node(ms[0]); }
    } else {
      NodesPrefix(ms[1..], n - 1);
      assert ms[..n][1..] == ms[1..][..n - 1];
      if n < |ms| {
        assert Nodes(ms[..n]) + Node(ms[n]) == Node(ms[0]) + (Nodes(ms[1..][..n - 1]) + Node(ms[n]));
      }
    }
  }

  lemma NextInv(st: State, step: Step, done: nat)
    requires InvFor(st, done) && Enabled(st, step)
    ensures InvFor(Next(st, step), if step.Written? then done + 1 else done)
  {
    match step {
      case Send(m) => SendInv(st, m, done);
      case Move(n) => MoveInv(st, n, done);
      case Written => WrittenInv(st, done);
      case WriteFailed =>
    }
  }

  lemma SendInv(st: State, m: Outgoing, done: nat)
    requires InvFor(st, done) && Sendable(m)
    ensures InvFor(Next(st, Send(m)), done)
  {
    assert (st.accepted + [m])[..done] == st.accepted[..done];
    assert (st.accepted + [m])[done..] == st.accepted[done..] + [m];
  }

  lemma MoveInv(st: State, n: nat, done: nat)
    requires InvFor(st, done) && Enabled(st, Move(n))
    ensures InvFor(Next(st, Move(n)), done)
  {
    var front := Node(st.queue[0]);
    assert front[..st.moved] + front[st.moved..st.moved + n] == front[..st.moved + n];
    AppendAssociative(Nodes(st.accepted[..done]), front[..st.moved], front[st.moved..st.moved + n]);
  }

  lemma WrittenInv(st: State, done: nat)
    requires InvFor(st, done) && Enabled(st, Written)
    ensures InvFor(Next(st, Written), done + 1)
  {
    var st', front := Next(st, Written), Node(st.queue[0]);
    assert st.queue[0] == st.accepted[done];
    assert st.accepted[..done + 1] == st.accepted[..done] + [st.accepted[done]];
    NodesSnoc(st.accepted[..done], st.accepted[done]);
    assert front[..st.moved] == front;
    assert st'.accepted[done + 1..] == st.queue[1..];
    assert st'.wire == st'.wire + [];
  }

  ghost predicate Run(run: seq<State>, steps: seq<Step>) {
    && |run| == |steps| + 1 && run[0] == START
    && forall i | 0 <= i < |steps| ::
         AllSendable(run[i]) && Enabled(run[i], steps[i]) && run[i + 1] == Next(run[i], steps[i])
  }

  lemma {:induction false} RunInv(run: seq<State>, steps: seq<Step>, i: nat) returns (done: nat)
    requires Run(run, steps) && i < |run|
    ensures InvFor(run[i], done)
  {
    if i == 0 {
      done := 0;
    } else {
      var before := RunInv(run, steps, i - 1);
      NextInv(run[i - 1], steps[i - 1], before);
      done := if steps[i - 1].Written? then before + 1 else before;
    }
  }

  /**
    In every interleaving: until an error, the queue is non-empty exactly while one write is in
    flight, and that write is the front; a message is accepted exactly while at most 1024 are queued,
    so the queue never exceeds 1025; the wire always holds a prefix of the accepted messages in order;
    and a failed session starts no further write.
  */
  lemma SendOrder(run: seq<State>, steps: seq<Step>, i: nat)
    requires Run(run, steps) && i < |run|
    ensures var st := run[i];
      && AllSendable(st)
      && (!st.failed ==> (st.queue != [] <==> st.writing.Some?))
      && (st.writing.Some? ==> st.queue != [] && st.writing == Some(Node(st.queue[0])))
      && |st.queue| <= 1025
      && st.wire <= Nodes(st.accepted)
      && (st.failed ==> st.writing.None?)
    ensures i < |steps| && steps[i].Send? ==>
      run[i + 1].accepted == if |run[i].queue| <= 1024 then run[i].accepted + [steps[i].m] else run[i].accepted
    ensures i < |steps| && run[i].failed ==> run[i + 1].failed && run[i + 1].wire == run[i].wire
  {
    var done := RunInv(run, steps, i);
    var st := run[i];
    NodesPrefix(st.accepted, done);
    if st.queue != [] {
      assert st.accepted[done] == st.queue[0];
      assert Node(st.queue[0])[..st.moved] <= Node(st.queue[0]);
      PrefixOfSum(Nodes(st.accepted[..done]), Node(st.queue[0]), st.moved, Nodes(st.accepted));
    } else {
      assert st.wire == Nodes(st.accepted[..done]);
    }
  }

  lemma PrefixOfSum(a: seq<byte>, b: seq<byte>, n: nat, whole: seq<byte>)
    requires n <= |b| && a + b <= whole
    ensures a + b[..n] <= whole
  {
    assert a + b[..n] <= a + b;
  }

  /** When nothing is queued, everything accepted is on the wire. */
  lemma Drained(run: seq<State>, steps: seq<Step>, i: nat)
    requires Run(run, steps) && i < |run| && run[i].queue == []
    ensures AllSendable(run[i]) && run[i].wire == Nodes(run[i].accepted)
  {
    var done := RunInv(run, steps, i);
    assert run[i].accepted[..done] == run[i].accepted;
  }

  /** The front written to its end, and the write completed. */
  lemma FrontOut(run: seq<State>, steps: seq<Step>) returns (run': seq<State>, steps': seq<Step>)
    requires Run(run, steps) && !run[|steps|].failed && run[|steps|].queue != []
    ensures Run(run', steps') && run <= run' && !run'[|steps'|].failed
    ensures run'[|steps'|].queue == run[|steps|].queue[1..] && run'[|steps'|].accepted == run[|steps|].accepted
  {
    var st := run[|steps|];
    var done := RunInv(run, steps, |steps|);
    var moved := Move(|Node(st.queue[0])| - st.moved);
    NextInv(st, moved, done);
    var st1 := Next(st, moved);
    NextInv(st1, Written, done);
    var st2 := Next(st1, Written);
    run', steps' := run + [st1, st2], steps + [moved, Written];
  }

  /** Whatever has happened before, without an error everything accepted can still reach the wire. */
  lemma {:induction false} CanDrain(run: seq<State>, steps: seq<Step>) returns (run': seq<State>, steps': seq<Step>)
    requires Run(run, steps) && !run[|steps|].failed
    ensures Run(run', steps') && run <= run' && run'[|steps'|].queue == []
    ensures run'[|steps'|].accepted == run[|steps|].accepted
    ensures AllSendable(run'[|steps'|]) && run'[|steps'|].wire == Nodes(run[|steps|].accepted)
    decreases |run[|steps|].queue|
  {
    if run[|steps|].queue == [] {
      run', steps' := run, steps;
      Drained(run, steps, |steps|);
    } else {
      run', steps' := FrontOut(run, steps);
      run', steps' := CanDrain(run', steps');
    }
  }

  // ---------------------------------------------------------------- the object

  class Session {
    var sendQue: seq<Outgoing>
    var writing: Option<seq<byte>>
    var moved: nat
    var failed: bool
    var wire: seq<byte>
    ghost var accepted: seq<Outgoing>
    ghost var done: nat

    ghost function View(): State
      reads this
    {
      State(sendQue, writing, moved, failed, wire, accepted)
    }

    ghost predicate Valid()
      reads this
    {
      InvFor(View(), done)
    }

    constructor ()
      ensures Valid() && View() == START
    {
      sendQue, writing, moved, failed, wire, accepted, done := [], None, 0, false, [], [], 0;
    }

    method StartWrite()
      requires sendQue != [] && Sendable(sendQue[0])
      modifies this`writing, this`moved
      ensures writing == Some(Node(sendQue[0])) && moved == 0
    {
      writing, moved := Some(Node(sendQue[0])), 0;
    }

    method Send(m: Outgoing)
      requires Valid() && Sendable(m)
      modifies this
      ensures Valid() && View() == Next(old(View()), Step.Send(m))
    {
      NextInv(View(), Step.Send(m), done);
      var size := |sendQue|;
      if size > MAX_SEND_QUEUE { return; }
      sendQue := sendQue + [m];
      accepted := accepted + [m];
      if size > 0 { return; }
      StartWrite();
    }

    /** The completion of `async_write`. */
    method HandleWrite(error: bool)
      requires Valid() && Enabled(View(), if error then WriteFailed else Written)
      modifies this
      ensures Valid() && View() == Next(old(View()), if error then WriteFailed else Written)
    {
      NextInv(View(), if error then WriteFailed else Written, done);
      if error {
        writing, failed := None, true;
      } else {
        assert forall m | m in sendQue[1..] :: m in sendQue;
        sendQue := sendQue[1..];
        writing, moved := None, 0;
        done := done + 1;
        if sendQue != [] { StartWrite(); }
      }
    }
  }
}
