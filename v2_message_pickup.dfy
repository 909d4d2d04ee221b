/**
 * Mediator side of Pickup Protocol 2.0 (Hyperledger Aries RFC 0685): answers a
 * recipient's status-request, delivery-request and messages-received messages
 * from its queue, and queues messages forwarded for it.
 *
 * The reply functions below say what each request yields for a given state of
 * the queues; the service class performs the requests against the repository
 * and is proved to act as they say.
 */
module V2MessagePickup {
  import opened Common
  import opened MessageRepository

  /** The errors the service raises. */
  datatype PickupError =
    | NoConnection                             // the inbound message has no connection
    | ConnectionNotReady(connectionId: ConnId) // its connection is not ready
    | RecipientKeyNotSupported                 // the request filters by recipient_key

  datatype StatusRequestMessage = StatusRequestMessage(threadId: string, recipientKey: Option<string>)

  datatype DeliveryRequestMessage = DeliveryRequestMessage(threadId: string, limit: nat, recipientKey: Option<string>)

  datatype MessagesReceivedMessage = MessagesReceivedMessage(threadId: string, messageIdList: Option<seq<string>>)

  /** An attachment whose `data.json` holds one queued message. */
  datatype Attachment = Attachment(json: EncryptedMessage)

  /** The two replies the service sends back. */
  datatype PickupReply =
    | StatusMessage(threadId: string, messageCount: nat)
    | MessageDeliveryMessage(threadId: string, attachments: seq<Attachment>)

  /** An inbound message of kind `M` with the connection it arrived on, if any. */
  datatype InboundMessageContext<M> = InboundMessageContext(message: M, connection: Option<ConnectionRecord>)

  /** A reply with the connection it goes back to. */
  datatype OutboundMessageContext = OutboundMessageContext(message: PickupReply, connection: ConnectionRecord)

  /** The connection of the inbound message, which must exist and be ready. */
  function AssertReadyConnection<M>(ctx: InboundMessageContext<M>): (r: Result<ConnectionRecord, PickupError>)
    ensures r.Success? <==> ctx.connection.Some? && ctx.connection.value.isReady
    ensures r.Success? ==> r.value == ctx.connection.value
    ensures ctx.connection.None? ==> r == Failure(NoConnection)
    ensures ctx.connection.Some? && !ctx.connection.value.isReady ==> r == Failure(ConnectionNotReady(ctx.connection.value.id))
  {
    match ctx.connection
    case None => Failure(NoConnection)
    case Some(connection) =>
      if connection.isReady then Success(connection) else Failure(ConnectionNotReady(connection.id))
  }

  /** Whether the optional `recipient_key` parameter is set; as in JavaScript, an empty string is not. */
  predicate HasRecipientKey(recipientKey: Option<string>) {
    recipientKey.Some? && recipientKey.value != ""
  }

  /** The reply to a status request when the queues are `qs`. */
  function StatusReply(qs: Queues, ctx: InboundMessageContext<StatusRequestMessage>): (r: Result<OutboundMessageContext, PickupError>)
    ensures AssertReadyConnection(ctx).Failure? ==> r == Failure(AssertReadyConnection(ctx).error)
    ensures r.Success? <==> AssertReadyConnection(ctx).Success? && !HasRecipientKey(ctx.message.recipientKey)
    ensures r.Failure? && AssertReadyConnection(ctx).Success? ==> r.error == RecipientKeyNotSupported
    ensures r.Success? ==>
              && r.value.connection == ctx.connection.value
              && r.value.message.StatusMessage?
              && r.value.message.threadId == ctx.message.threadId
              && r.value.message.messageCount == |QueueOf(qs, ctx.connection.value.id)|
  {
    match AssertReadyConnection(ctx)
    case Failure(e) => Failure(e)
    case Success(connection) =>
      if HasRecipientKey(ctx.message.recipientKey) then Failure(RecipientKeyNotSupported)
      else
        var count := |QueueOf(qs, connection.id)|;
        Success(OutboundMessageContext(StatusMessage(ctx.message.threadId, count), connection))
  }

  /** One attachment per message, in the same order, each holding its message unchanged. */
  function Attachments(messages: seq<EncryptedMessage>): (r: seq<Attachment>)
    ensures |r| == |messages|
    ensures forall i :: 0 <= i < |r| ==> r[i].json == messages[i]
  {
    seq(|messages|, i requires 0 <= i < |messages| => Attachment(messages[i]))
  }

  /**
   * The reply to a delivery request when the queues are `qs`: the first
   * `limit` queued messages as attachments, or a zero-count status when there
   * is nothing to deliver. The queues themselves are only peeked at.
   */
  function DeliveryReply(qs: Queues, ctx: InboundMessageContext<DeliveryRequestMessage>): (r: Result<OutboundMessageContext, PickupError>)
    ensures AssertReadyConnection(ctx).Failure? ==> r == Failure(AssertReadyConnection(ctx).error)
    ensures r.Success? <==> AssertReadyConnection(ctx).Success? && !HasRecipientKey(ctx.message.recipientKey)
    ensures r.Failure? && AssertReadyConnection(ctx).Success? ==> r.error == RecipientKeyNotSupported
    ensures r.Success? ==>
              var q := QueueOf(qs, ctx.connection.value.id);
              && r.value.connection == ctx.connection.value
              && r.value.message.threadId == ctx.message.threadId
              && (r.value.message.StatusMessage? <==> q == [] || ctx.message.limit == 0)
              && (r.value.message.StatusMessage? ==> r.value.message.messageCount == 0)
              && (r.value.message.MessageDeliveryMessage? ==>
                    var attachments := r.value.message.attachments;
                    && 0 < |attachments| <= ctx.message.limit
                    && |attachments| == (if ctx.message.limit < |q| then ctx.message.limit else |q|)
                    && forall i :: 0 <= i < |attachments| ==> attachments[i].json == q[i])
  {
    match AssertReadyConnection(ctx)
    case Failure(e) => Failure(e)
    case Success(connection) =>
      if HasRecipientKey(ctx.message.recipientKey) then Failure(RecipientKeyNotSupported)
      else
        var messages := Peek(QueueOf(qs, connection.id), Some(ctx.message.limit));
        var reply :=
          if |messages| > 0 then MessageDeliveryMessage(ctx.message.threadId, Attachments(messages))
          else StatusMessage(ctx.message.threadId, 0);
        Success(OutboundMessageContext(reply, connection))
  }

  /**
   * How many messages a messages-received acknowledges: one per listed id, or
   * every queued message when there is no list. The ids themselves are not used.
   */
  function AcknowledgedLimit(message: MessagesReceivedMessage): (r: Option<nat>)
    ensures r.None? <==> message.messageIdList.None?
    ensures r.Some? ==> r.value == |message.messageIdList.value|
  {
    match message.messageIdList
    case None => None
    case Some(ids) => Some(|ids|)
  }

  /**
   * The new queues and the reply for a messages-received when the queues are
   * `qs`: the acknowledged messages leave the front of the connection's queue
   * and the reply counts what is left.
   */
  function ReceivedReply(qs: Queues, ctx: InboundMessageContext<MessagesReceivedMessage>): (r: Result<(Queues, OutboundMessageContext), PickupError>)
    ensures r.Success? <==> AssertReadyConnection(ctx).Success?
    ensures r.Failure? ==> r.error == AssertReadyConnection(ctx).error
    ensures r.Success? ==>
              var c := ctx.connection.value.id;
              var (after, reply) := r.value;
              var q := QueueOf(qs, c);
              var removed := if ctx.message.messageIdList.None? || |q| <= |ctx.message.messageIdList.value| then |q|
                             else |ctx.message.messageIdList.value|;
              && q == q[..removed] + QueueOf(after, c)
              && (forall c' :: c' != c ==> QueueOf(after, c') == QueueOf(qs, c'))
              && reply.connection == ctx.connection.value
              && reply.message == StatusMessage(ctx.message.threadId, |q| - removed)
  {
    match AssertReadyConnection(ctx)
    case Failure(e) => Failure(e)
    case Success(connection) =>
      var after := Dequeued(qs, connection.id, AcknowledgedLimit(ctx.message));
      var count := |QueueOf(after, connection.id)|;
      Success((after, OutboundMessageContext(StatusMessage(ctx.message.threadId, count), connection)))
  }

  /**
   * A delivery request followed by a messages-received listing as many ids as
   * attachments were delivered removes exactly the delivered messages.
   */
  lemma DeliveredThenAcknowledged(qs: Queues, request: InboundMessageContext<DeliveryRequestMessage>, ids: seq<string>, threadId: string)
    requires DeliveryReply(qs, request).Success?
    requires DeliveryReply(qs, request).value.message.MessageDeliveryMessage?
    requires |ids| == |DeliveryReply(qs, request).value.message.attachments|
    ensures var ack := InboundMessageContext(MessagesReceivedMessage(threadId, Some(ids)), request.connection);
            var c := request.connection.value.id;
            var delivered := DeliveryReply(qs, request).value.message.attachments;
            && ReceivedReply(qs, ack).Success?
            && QueueOf(qs, c) == seq(|delivered|, i requires 0 <= i < |delivered| => delivered[i].json)
                                 + QueueOf(ReceivedReply(qs, ack).value.0, c)
  {
  }

  /**
   * A message queued for a ready connection with an empty queue is counted by
   * a status request, delivered by a delivery request for one message while
   * staying queued, and gone after a messages-received without an id list.
   */
  lemma QueueDeliverAcknowledge(qs: Queues, connection: ConnectionRecord, e: EncryptedMessage, threadId: string)
    requires connection.isReady
    requires QueueOf(qs, connection.id) == []
    ensures var queued := Enqueued(qs, connection.id, e);
            var status := StatusReply(queued, InboundMessageContext(StatusRequestMessage(threadId, None), Some(connection)));
            var delivery := DeliveryReply(queued, InboundMessageContext(DeliveryRequestMessage(threadId, 1, None), Some(connection)));
            var received := ReceivedReply(queued, InboundMessageContext(MessagesReceivedMessage(threadId, None), Some(connection)));
            && status.Success? && status.value.message == StatusMessage(threadId, 1)
            && delivery.Success? && delivery.value.message == MessageDeliveryMessage(threadId, [Attachment(e)])
            && received.Success? && received.value.1.message == StatusMessage(threadId, 0)
            && QueueOf(received.value.0, connection.id) == []
  {
  }

  /** The mediator's pickup service over a message repository. */
  class V2MessagePickupService {
    const messageRepository: InMemoryMessageRepository

    constructor (messageRepository: InMemoryMessageRepository)
      ensures this.messageRepository == messageRepository
    {
      this.messageRepository := messageRepository;
    }

    /** Answers a status request with the number of queued messages. */
    method ProcessStatusRequest(messageContext: InboundMessageContext<StatusRequestMessage>)
      returns (r: Result<OutboundMessageContext, PickupError>)
      ensures r == StatusReply(messageRepository.queues, messageContext)
    {
      var ready := AssertReadyConnection(messageContext);
      if ready.Failure? {
        return Failure(ready.error);
      }
      var connection := ready.value;
      if HasRecipientKey(messageContext.message.recipientKey) {
        return Failure(RecipientKeyNotSupported);
      }
      var count := messageRepository.GetAvailableMessageCount(connection.id);
      r := Success(OutboundMessageContext(StatusMessage(messageContext.message.threadId, count), connection));
    }

    /** Queues `message` for `connectionId`. */
    method QueueMessage(connectionId: ConnId, message: EncryptedMessage)
      modifies messageRepository
      ensures messageRepository.queues == Enqueued(old(messageRepository.queues), connectionId, message)
    {
      messageRepository.Add(connectionId, message);
    }

    /** Answers a delivery request with queued messages, leaving them on the queue. */
    method ProcessDeliveryRequest(messageContext: InboundMessageContext<DeliveryRequestMessage>)
      returns (r: Result<OutboundMessageContext, PickupError>)
      modifies messageRepository
      ensures messageRepository.queues == old(messageRepository.queues)
      ensures r == DeliveryReply(old(messageRepository.queues), messageContext)
    {
      var ready := AssertReadyConnection(messageContext);
      if ready.Failure? {
        return Failure(ready.error);
      }
      var connection := ready.value;
      if HasRecipientKey(messageContext.message.recipientKey) {
        return Failure(RecipientKeyNotSupported);
      }
      var message := messageContext.message;
      var messages := messageRepository.TakeFromQueue(connection.id, Some(message.limit), true);
      var attachments := Attachments(messages);
      var reply :=
        if |messages| > 0 then MessageDeliveryMessage(message.threadId, attachments)
        else StatusMessage(message.threadId, 0);
      r := Success(OutboundMessageContext(reply, connection));
    }

    /** Removes the acknowledged messages and answers with the number left. */
    method ProcessMessagesReceived(messageContext: InboundMessageContext<MessagesReceivedMessage>)
      returns (r: Result<OutboundMessageContext, PickupError>)
      modifies messageRepository
      ensures var expected := ReceivedReply(old(messageRepository.queues), messageContext);
              && (expected.Failure? ==> r == Failure(expected.error) && messageRepository.queues == old(messageRepository.queues))
              && (expected.Success? ==> r == Success(expected.value.1) && messageRepository.queues == expected.value.0)
    {
      var ready := AssertReadyConnection(messageContext);
      if ready.Failure? {
        return Failure(ready.error);
      }
      var connection := ready.value;
      var message := messageContext.message;
      var limit := if message.messageIdList.Some? then Some(|message.messageIdList.value|) else None;
      var _ := messageRepository.TakeFromQueue(connection.id, limit, false);
      var count := messageRepository.GetAvailableMessageCount(connection.id);
      r := Success(OutboundMessageContext(StatusMessage(message.threadId, count), connection));
    }
  }
}
