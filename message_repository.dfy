/**
 * The mediator's message repository: one FIFO queue of encrypted messages per
 * connection. The pure functions below are the repository contract; the class
 * is the default in-memory repository that keeps the queues in a map.
 */
module MessageRepository {
  import opened Common

  /** All queues of the repository, by connection id. */
  type Queues = map<ConnId, seq<EncryptedMessage>>

  /** The queue of connection `c`; a connection nothing was queued for has an empty queue. */
  function QueueOf(qs: Queues, c: ConnId): seq<EncryptedMessage> {
    if c in qs then qs[c] else []
  }

  /**
   * The messages a take with this `limit` returns from queue `q`: the first
   * `limit` of them, or all of them when there is no limit or fewer are queued.
   */
  function Peek(q: seq<EncryptedMessage>, limit: Option<nat>): (r: seq<EncryptedMessage>)
    ensures r <= q
    ensures limit.Some? ==> |r| <= limit.value
    ensures limit.None? || |q| <= limit.value ==> r == q
    ensures limit.Some? && limit.value <= |q| ==> |r| == limit.value
  {
    if limit.Some? && limit.value < |q| then q[..limit.value] else q
  }

  /** The queues after `m` is appended to the queue of `c`. */
  function Enqueued(qs: Queues, c: ConnId, m: EncryptedMessage): (r: Queues)
    ensures QueueOf(r, c) == QueueOf(qs, c) + [m]
    ensures forall c' :: c' != c ==> QueueOf(r, c') == QueueOf(qs, c')
  {
    qs[c := QueueOf(qs, c) + [m]]
  }

  /**
   * The queues after a destructive take with this `limit` from the queue of
   * `c`: the messages the take returns are gone from the front, the rest stay
   * in order, and every other queue is as it was.
   */
  function Dequeued(qs: Queues, c: ConnId, limit: Option<nat>): (r: Queues)
    ensures QueueOf(qs, c) == Peek(QueueOf(qs, c), limit) + QueueOf(r, c)
    ensures forall c' :: c' != c ==> QueueOf(r, c') == QueueOf(qs, c')
  {
    if c in qs then qs[c := qs[c][|Peek(qs[c], limit)|..]] else qs
  }

  /** The queues after each message of `ms` is appended, in order, to the queue of `c`. */
  function EnqueuedAll(qs: Queues, c: ConnId, ms: seq<EncryptedMessage>): Queues
    decreases |ms|
  {
    if ms == [] then qs else EnqueuedAll(Enqueued(qs, c, ms[0]), c, ms[1..])
  }

  /** Appending messages one at a time keeps their order and touches no other connection. */
  lemma {:induction false} EnqueuedAllIsFifo(qs: Queues, c: ConnId, ms: seq<EncryptedMessage>)
    ensures QueueOf(EnqueuedAll(qs, c, ms), c) == QueueOf(qs, c) + ms
    ensures forall c' :: c' != c ==> QueueOf(EnqueuedAll(qs, c, ms), c') == QueueOf(qs, c')
    decreases |ms|
  {
    if ms != [] {
      var next := Enqueued(qs, c, ms[0]);
      EnqueuedAllIsFifo(next, c, ms[1..]);
      assert QueueOf(qs, c) + [ms[0]] + ms[1..] == QueueOf(qs, c) + ms;
    }
  }

  /**
   * Messages queued one after another for a connection with an empty queue are
   * taken back in the same order by a take without limit, and a second take
   * then finds nothing.
   */
  lemma DrainReturnsEnqueueOrder(qs: Queues, c: ConnId, ms: seq<EncryptedMessage>)
    requires QueueOf(qs, c) == []
    ensures Peek(QueueOf(EnqueuedAll(qs, c, ms), c), None) == ms
    ensures QueueOf(Dequeued(EnqueuedAll(qs, c, ms), c, None), c) == []
  {
    EnqueuedAllIsFifo(qs, c, ms);
  }

  /**
   * Removing as many messages as a peek returned removes exactly the peeked
   * messages: what was delivered is what is acknowledged.
   */
  lemma PeekThenDequeueSameCount(qs: Queues, c: ConnId, limit: Option<nat>)
    ensures var peeked := Peek(QueueOf(qs, c), limit);
            QueueOf(qs, c) == peeked + QueueOf(Dequeued(qs, c, Some(|peeked|)), c)
  {
  }

  /** The default repository, holding every connection's queue in a map. */
  class InMemoryMessageRepository {
    var queues: Queues

    constructor ()
      ensures queues == map[]
    {
      queues := map[];
    }

    /** Appends `payload` to the queue of `connectionId`. */
    method Add(connectionId: ConnId, payload: EncryptedMessage)
      modifies this
      ensures queues == Enqueued(old(queues), connectionId, payload)
    {
      if connectionId !in queues {
        queues := queues[connectionId := []];
      }
      queues := queues[connectionId := queues[connectionId] + [payload]];
    }

    /** The number of messages queued for `connectionId`. */
    method GetAvailableMessageCount(connectionId: ConnId) returns (n: nat)
      ensures n == |QueueOf(queues, connectionId)|
    {
      n := if connectionId in queues then |queues[connectionId]| else 0;
    }

    /**
     * Returns the first `limit` messages queued for `connectionId` (all of them
     * without a limit) and removes them from the queue unless `keepOnQueue`.
     */
    method TakeFromQueue(connectionId: ConnId, limit: Option<nat>, keepOnQueue: bool)
      returns (messages: seq<EncryptedMessage>)
      modifies this
      ensures messages == Peek(old(QueueOf(queues, connectionId)), limit)
      ensures queues == if keepOnQueue then old(queues) else Dequeued(old(queues), connectionId, limit)
    {
      if connectionId !in queues {
        return [];
      }
      var q := queues[connectionId];
      var n := if limit.Some? then limit.value else |q|;
      if n > |q| {
        n := |q|;
      }
      messages := q[..n];
      if !keepOnQueue {
        queues := queues[connectionId := q[n..]];
      }
    }
  }
}
