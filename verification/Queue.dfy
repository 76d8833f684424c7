/** The in-process queue: a line of ready messages and the deliveries not yet acknowledged. */
module Queue {
  import opened Model

  datatype Envelope = Envelope(message: Message, attempt: nat)

  /** Ack ids are numbered in the order in which they are handed out, so they are never reused. */
  datatype QueueState = QueueState(ready: seq<Envelope>, inflight: map<nat, Envelope>, nextAck: nat) {
    predicate IsFresh() {
      forall ack :: ack in inflight ==> ack < nextAck
    }
  }

  datatype Delivery = Delivery(ackId: nat, message: Message, attempt: nat)

  const EMPTY_QUEUE: QueueState := QueueState([], map[], 0)

  function Publish(q: QueueState, message: Message): QueueState {
    q.(ready := q.ready + [Envelope(message, 1)])
  }

  /** Hand out the oldest ready message. */
  function ReceiveOne(q: QueueState): QueueState {
    if q.ready == [] then q
    else QueueState(q.ready[1..], q.inflight[q.nextAck := q.ready[0]], q.nextAck + 1)
  }

  function ReceiveMany(q: QueueState, count: nat): QueueState
    decreases count
  {
    if count == 0 then q else ReceiveOne(ReceiveMany(q, count - 1))
  }

  function Ack(q: QueueState, ackId: nat): QueueState {
    q.(inflight := q.inflight - {ackId})
  }

  /** Back of the line, one more attempt; nothing when the delivery is no longer in flight. */
  function Nack(q: QueueState, ackId: nat): QueueState {
    if ackId in q.inflight
    then q.(ready := q.ready + [q.inflight[ackId].(attempt := q.inflight[ackId].attempt + 1)],
            inflight := q.inflight - {ackId})
    else q
  }

  /** Every message held, ready or in flight. */
  function Held(q: QueueState): multiset<Message> {
    multiset(Messages(q.ready)) + InflightMessages(q.inflight, q.nextAck)
  }

  function Messages(line: seq<Envelope>): (m: seq<Message>)
    ensures |m| == |line| && forall i :: 0 <= i < |m| ==> m[i] == line[i].message
  {
    seq(|line|, i requires 0 <= i < |line| => line[i].message)
  }

  function InflightMessages(inflight: map<nat, Envelope>, bound: nat): multiset<Message> {
    if bound == 0 then multiset{} else InflightMessages(inflight, bound - 1) + At(inflight, bound - 1)
  }

  function At(inflight: map<nat, Envelope>, ackId: nat): multiset<Message> {
    if ackId in inflight then multiset{inflight[ackId].message} else multiset{}
  }

  /** Below `ackId`, two maps that differ only there hold the same. */
  lemma {:induction false} InflightSame(a: map<nat, Envelope>, b: map<nat, Envelope>, bound: nat, ackId: nat)
    requires bound <= ackId && forall k :: k != ackId ==> At(a, k) == At(b, k)
    ensures InflightMessages(a, bound) == InflightMessages(b, bound)
  {
    InflightStep(a, bound);
    InflightStep(b, bound);
    if bound > 0 {
      InflightSame(a, b, bound - 1, ackId);
    }
  }

  /** Two maps that differ only in `ackId`, which only the first holds. */
  lemma {:induction false} InflightWithout(a: map<nat, Envelope>, b: map<nat, Envelope>, bound: nat, ackId: nat)
    requires ackId in a && ackId !in b && forall k :: k != ackId ==> At(a, k) == At(b, k)
    requires ackId < bound
    ensures InflightMessages(a, bound) == InflightMessages(b, bound) + multiset{a[ackId].message}
  {
    AtMost(a, b, ackId);
    InflightStep(a, bound);
    InflightStep(b, bound);
    hide InflightMessages, At;
    if ackId < bound - 1 {
      InflightWithout(a, b, bound - 1, ackId);
      OneMoreStays(InflightMessages(a, bound - 1), InflightMessages(b, bound - 1), multiset{a[ackId].message},
                   At(a, bound - 1), InflightMessages(a, bound), InflightMessages(b, bound));
    } else {
      InflightSame(a, b, ackId, ackId);
      AddNothing(InflightMessages(b, ackId));
    }
  }

  lemma OneMoreStays<T>(x: multiset<T>, y: multiset<T>, one: multiset<T>, c: multiset<T>, xc: multiset<T>,
                        yc: multiset<T>)
    requires x == y + one && xc == x + c && yc == y + c
    ensures xc == yc + one
  {
    Regroup(y, one, c);
  }

  lemma Regroup<T>(a: multiset<T>, b: multiset<T>, c: multiset<T>)
    ensures a + b + c == a + c + b
  {
  }

  lemma InflightStep(inflight: map<nat, Envelope>, bound: nat)
    ensures InflightMessages(inflight, bound)
            == if bound == 0 then multiset{}
               else InflightMessages(inflight, bound - 1) + At(inflight, bound - 1)
  {
  }

  lemma AtMost(a: map<nat, Envelope>, b: map<nat, Envelope>, ackId: nat)
    requires ackId in a && ackId !in b
    ensures At(a, ackId) == multiset{a[ackId].message} && At(b, ackId) == multiset{}
  {
  }

  lemma AddNothing<T>(a: multiset<T>)
    ensures a + multiset{} == a
  {
  }

  lemma {:induction false} InflightAgree(a: map<nat, Envelope>, b: map<nat, Envelope>, bound: nat)
    requires forall ack :: ack < bound ==> (ack in a <==> ack in b) && (ack in a ==> a[ack] == b[ack])
    ensures InflightMessages(a, bound) == InflightMessages(b, bound)
  {
    if bound > 0 {
      InflightAgree(a, b, bound - 1);
    }
  }

  /** Receiving and giving back move messages without losing or copying one; an ack removes exactly one. */
  lemma QueueConserves(q: QueueState, ackId: nat)
    requires q.IsFresh()
    ensures ReceiveOne(q).IsFresh() && Held(ReceiveOne(q)) == Held(q)
    ensures Nack(q, ackId).IsFresh() && Held(Nack(q, ackId)) == Held(q)
    ensures Ack(q, ackId).IsFresh()
    ensures ackId in q.inflight ==> Held(q) == Held(Ack(q, ackId)) + multiset{q.inflight[ackId].message}
    ensures ackId !in q.inflight ==> Ack(q, ackId) == q == Nack(q, ackId)
  {
    ReceiveConserves(q);
    if ackId in q.inflight {
      AckRemovesOne(q, ackId);
      NackMovesOne(q, ackId);
    } else {
      assert q.inflight - {ackId} == q.inflight;
    }
  }

  lemma AckRemovesOne(q: QueueState, ackId: nat)
    requires q.IsFresh() && ackId in q.inflight
    ensures Ack(q, ackId).IsFresh() && Held(q) == Held(Ack(q, ackId)) + multiset{q.inflight[ackId].message}
  {
    InflightWithout(q.inflight, q.inflight - {ackId}, q.nextAck, ackId);
  }

  lemma NackMovesOne(q: QueueState, ackId: nat)
    requires q.IsFresh() && ackId in q.inflight
    requires Held(q) == Held(Ack(q, ackId)) + multiset{q.inflight[ackId].message}
    ensures Nack(q, ackId).IsFresh() && Held(Nack(q, ackId)) == Held(q)
  {
    var line, one := Messages(q.ready), [q.inflight[ackId].message];
    assert Messages(Nack(q, ackId).ready) == line + one;
    TailMoves(line, one, InflightMessages(q.inflight - {ackId}, q.nextAck));
    assert multiset(one) == multiset{q.inflight[ackId].message};
  }

  lemma TailMoves<T>(line: seq<T>, one: seq<T>, others: multiset<T>)
    ensures multiset(line + one) + others == multiset(line) + others + multiset(one)
  {
  }

  lemma ReceiveConserves(q: QueueState)
    requires q.IsFresh()
    ensures ReceiveOne(q).IsFresh() && Held(ReceiveOne(q)) == Held(q)
  {
    if q.ready != [] {
      var m, rest, others := q.ready[0].message, Messages(q.ready[1..]), InflightMessages(q.inflight, q.nextAck);
      HeldBefore(q, m, rest, others);
      HeldAfter(q, m, rest, others);
      hide Held, Messages, InflightMessages;
      HeadMoves(m, rest, others);
    }
  }

  lemma HeldBefore(q: QueueState, m: Message, rest: seq<Message>, others: multiset<Message>)
    requires q.ready != [] && m == q.ready[0].message && rest == Messages(q.ready[1..])
    requires others == InflightMessages(q.inflight, q.nextAck)
    ensures Held(q) == multiset([m] + rest) + others
  {
    hide InflightMessages;
    assert Messages(q.ready) == [m] + rest;
  }

  lemma HeldAfter(q: QueueState, m: Message, rest: seq<Message>, others: multiset<Message>)
    requires q.IsFresh() && q.ready != [] && m == q.ready[0].message && rest == Messages(q.ready[1..])
    requires others == InflightMessages(q.inflight, q.nextAck)
    ensures Held(ReceiveOne(q)) == multiset(rest) + (others + multiset{m})
  {
    hide InflightMessages, Messages;
    HandedOut(q.inflight, q.nextAck, q.ready[0]);
  }

  lemma HandedOut(inflight: map<nat, Envelope>, ackId: nat, e: Envelope)
    requires ackId !in inflight
    ensures InflightMessages(inflight[ackId := e], ackId + 1)
            == InflightMessages(inflight, ackId) + multiset{e.message}
  {
    var after := inflight[ackId := e];
    InflightAgree(inflight, after, ackId);
    assert At(after, ackId) == multiset{e.message};
  }

  lemma HeadMoves<T>(head: T, rest: seq<T>, others: multiset<T>)
    ensures multiset([head] + rest) + others == multiset(rest) + (others + multiset{head})
  {
    assert multiset([head] + rest) == multiset{head} + multiset(rest);
  }

  /** Receiving hands out from the front, in line order, under consecutive ack ids, and moves nothing else. */
  lemma {:induction false} ReceivedInOrder(q: QueueState, count: nat)
    requires q.IsFresh() && count <= |q.ready|
    ensures var after := ReceiveMany(q, count);
            && after.ready == q.ready[count..] && after.nextAck == q.nextAck + count && after.IsFresh()
            && (forall ack :: q.nextAck <= ack < q.nextAck + count ==>
                  ack in after.inflight && after.inflight[ack] == q.ready[ack - q.nextAck])
            && (forall ack :: ack in q.inflight ==> ack in after.inflight && after.inflight[ack] == q.inflight[ack])
    decreases count
  {
    if count > 0 {
      ReceivedInOrder(q, count - 1);
      var before := ReceiveMany(q, count - 1);
      assert before.ready[0] == q.ready[count - 1] && before.ready[1..] == q.ready[count..];
      assert ReceiveMany(q, count) == ReceiveOne(before);
    }
  }

  /** A new message waits for everything that was ready before it, and comes with its first attempt. */
  lemma PublishedGoesLast(q: QueueState, message: Message)
    requires q.IsFresh()
    ensures var after, last := ReceiveMany(Publish(q, message), |q.ready| + 1), q.nextAck + |q.ready|;
            && after.ready == [] && last in after.inflight && after.inflight[last].message == message
            && after.inflight[last].attempt == 1
            && (forall ack :: q.nextAck <= ack < last ==>
                  ack in after.inflight && after.inflight[ack] == q.ready[ack - q.nextAck])
  {
    ReceivedInOrder(Publish(q, message), |q.ready| + 1);
    assert Publish(q, message).ready[|q.ready|] == Envelope(message, 1);
  }

  /** So does one that was given back, with one attempt more; until then nobody holds it, and no other moves. */
  lemma NackedGoesLast(q: QueueState, ackId: nat)
    requires q.IsFresh() && ackId in q.inflight
    ensures var again := Nack(q, ackId);
            && ackId !in again.inflight
            && (forall other :: other in q.inflight && other != ackId ==>
                  other in again.inflight && again.inflight[other] == q.inflight[other])
    ensures var after, last := ReceiveMany(Nack(q, ackId), |q.ready| + 1), q.nextAck + |q.ready|;
            && after.ready == [] && last in after.inflight
            && after.inflight[last].message == q.inflight[ackId].message
            && after.inflight[last].attempt == q.inflight[ackId].attempt + 1
            && (forall ack :: q.nextAck <= ack < last ==>
                  ack in after.inflight && after.inflight[ack] == q.ready[ack - q.nextAck])
  {
    var again := Nack(q, ackId);
    assert again.IsFresh() && |again.ready| == |q.ready| + 1 && again.nextAck == q.nextAck;
    ReceivedInOrder(again, |q.ready| + 1);
    assert forall i :: 0 <= i < |q.ready| ==> again.ready[i] == q.ready[i];
    assert again.ready[|q.ready|].message == q.inflight[ackId].message;
  }

  class MemoryQueue {
    var ready: seq<Envelope>
    var inflight: map<nat, Envelope>
    var nextAck: nat

    constructor ()
      ensures View() == EMPTY_QUEUE
    {
      ready, inflight, nextAck := [], map[], 0;
    }

    function View(): QueueState
      reads this
    {
      QueueState(ready, inflight, nextAck)
    }

    method PublishMessage(message: Message)
      modifies this
      ensures View() == Publish(old(View()), message)
      ensures ready == old(ready) + [Envelope(message, 1)]
    {
      ready := ready + [Envelope(message, 1)];
    }

    /** Up to `maxMessages` deliveries, oldest first, each with an ack id never used before. */
    method Receive(maxMessages: nat) returns (deliveries: seq<Delivery>)
      requires View().IsFresh()
      modifies this
      ensures |deliveries| == if maxMessages <= |old(ready)| then maxMessages else |old(ready)|
      ensures View() == ReceiveMany(old(View()), |deliveries|) && View().IsFresh()
      ensures ready == old(ready)[|deliveries|..]
      ensures forall i :: 0 <= i < |deliveries| ==>
                && deliveries[i] == Delivery(old(nextAck) + i, old(ready)[i].message, old(ready)[i].attempt)
                && deliveries[i].ackId !in old(inflight)
    {
      deliveries := [];
      while ready != [] && |deliveries| < maxMessages
        invariant |deliveries| <= maxMessages && |deliveries| <= |old(ready)|
        invariant ready == old(ready)[|deliveries|..] && nextAck == old(nextAck) + |deliveries|
        invariant View() == ReceiveMany(old(View()), |deliveries|) && View().IsFresh()
        invariant forall i :: 0 <= i < |deliveries| ==>
                    deliveries[i] == Delivery(old(nextAck) + i, old(ready)[i].message, old(ready)[i].attempt)
        decreases |ready|
      {
        var e := ready[0];
        ready := ready[1..];
        inflight := inflight[nextAck := e];
        deliveries := deliveries + [Delivery(nextAck, e.message, e.attempt)];
        nextAck := nextAck + 1;
      }
    }

    method AckDelivery(delivery: Delivery)
      modifies this`inflight
      ensures View() == Ack(old(View()), delivery.ackId)
      ensures inflight == old(inflight) - {delivery.ackId}
    {
      inflight := inflight - {delivery.ackId};
    }

    method NackDelivery(delivery: Delivery)
      modifies this
      ensures View() == Nack(old(View()), delivery.ackId)
      ensures inflight == old(inflight) - {delivery.ackId} && nextAck == old(nextAck)
      ensures ready == if delivery.ackId !in old(inflight) then old(ready)
                       else old(ready) + [Envelope(old(inflight)[delivery.ackId].message,
                                                   old(inflight)[delivery.ackId].attempt + 1)]
    {
      if delivery.ackId in inflight {
        var e := inflight[delivery.ackId];
        inflight := inflight - {delivery.ackId};
        ready := ready + [Envelope(e.message, e.attempt + 1)];
      }
    }
  }
}
