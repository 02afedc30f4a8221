/** Server to client: the send queue, any cutting of the bytes into reads, and the receive loop. */
module DownLink {
  import opened Bytes
  import opened Frames
  import SendQueue
  import ClientReceiver

  /** A receiver reads the id as an unsigned number of 16 bits; the body is the one sent. */
  ghost predicate Means(m: SendQueue.Outgoing, r: Message) { (r.id - m.id) % 65536 == 0 && r.body == m.body }

  function Meaning(m: SendQueue.Outgoing): (r: Message)
    requires SendQueue.Sendable(m)
    ensures Means(m, r) && Fits(r)
  {
    Message(SendQueue.Unsigned(m.id), m.body)
  }

  /** One after the other, the same number of them. */
  ghost predicate AllMean(ms: seq<SendQueue.Outgoing>, rs: seq<Message>) {
    |rs| == |ms| && forall i | 0 <= i < |ms| :: Means(ms[i], rs[i])
  }

  /** The messages that the frames of these are. */
  function Meanings(ms: seq<SendQueue.Outgoing>): (r: seq<Message>)
    requires forall m | m in ms :: SendQueue.Sendable(m)
    ensures AllMean(ms, r) && forall m | m in r :: Fits(m)
  {
    if ms == [] then []
    else
      assert ms[0] in ms && forall m | m in ms[1..] :: m in ms;
      [Meaning(ms[0])] + Meanings(ms[1..])
  }

  /** There is only one such list. */
  lemma MeaningsUnique(ms: seq<SendQueue.Outgoing>, a: seq<Message>, b: seq<Message>)
    requires AllMean(ms, a) && AllMean(ms, b)
    ensures a == b
  {
    forall i | 0 <= i < |ms| ensures a[i] == b[i] {
      assert Means(ms[i], a[i]) && Means(ms[i], b[i]);
    }
  }

  lemma {:induction false} NodesAreStream(ms: seq<SendQueue.Outgoing>)
    requires forall m | m in ms :: SendQueue.Sendable(m)
    ensures SendQueue.Nodes(ms) == Stream(Meanings(ms))
  {
    if ms == [] {
    } else {
      assert ms[0] in ms;
      assert SendQueue.Node(ms[0]) == Encode(Meanings(ms)[0]);
      NodesAreStream(ms[1..]);
    }
  }

  /**
    Once everything accepted has been written, the client has handled exactly the accepted messages
    in order, ids and bodies, if and only if each of its reads comes to the headers, as `ReadsRight`
    says of the messages and the lengths of the reads; and so if at most one header ends in each.
  */
  lemma AcceptedIsHandled(run: seq<SendQueue.State>, steps: seq<SendQueue.Step>, i: nat, chunks: seq<seq<byte>>,
                          ms: seq<Message>)
    requires SendQueue.Run(run, steps) && i < |run| && run[i].queue == []
    requires Concat(chunks) == run[i].wire && AllMean(run[i].accepted, ms)
    ensures var handled, lens := ClientReceiver.Feed(ClientReceiver.START, chunks).out, ClientReceiver.Lengths(chunks);
      && ClientReceiver.Sum(lens) <= |Stream(ms)|
      && (AllMean(run[i].accepted, handled) <==> ClientReceiver.ReadsRight(ms, 0, lens))
      && (ClientReceiver.OneHeaderEach(ms, 0, lens) ==> AllMean(run[i].accepted, handled))
  {
    SendQueue.Drained(run, steps, i);
    var handled := ClientReceiver.Feed(ClientReceiver.START, chunks).out;
    MeaningsUnique(run[i].accepted, ms, Meanings(run[i].accepted));
    NodesAreStream(run[i].accepted);
    ClientReceiver.DeliveredIff(ms, chunks);
    if AllMean(run[i].accepted, handled) { MeaningsUnique(run[i].accepted, ms, handled); }
    if ClientReceiver.OneHeaderEach(ms, 0, ClientReceiver.Lengths(chunks)) {
      ClientReceiver.OneHeaderEachDelivers(ms, chunks);
    }
  }
}
