/**
 * The mediator's handler for the forward message of Hyperledger Aries RFC 0094.
 * It asks the mediator service for the inner packed message and its mediation
 * record, looks up the connection the record belongs to, and either stores the
 * packed message and pushes a V3 forward naming its stored id (when the message
 * repository supports id-addressed forwarding) or sends the packed message to
 * the connection as it is.
 *
 * The collaborators are one object whose state records what was stored and
 * what was sent.
 */
module ForwardHandler {
  import opened Common

  /** A forward message: relay `message` to the holder of recipient key `to`. */
  datatype ForwardMessage = ForwardMessage(id: string, to: string, message: EncryptedMessage)

  /** A mediation grant: the mediator forwards for the connection `connectionId`. */
  datatype MediationRecord = MediationRecord(id: string, connectionId: ConnId)

  /** What the mediator service returns for an accepted forward. */
  datatype ProcessedForward = ProcessedForward(encryptedMessage: EncryptedMessage, mediationRecord: MediationRecord)

  datatype ReturnRoute = ReturnRouteNone | ReturnRouteThread | ReturnRouteAll

  /** Identifier the repository gives a stored forward message. */
  type MessageId = nat

  /** The message-pickup 3.0 forward: a stored message pushed with its id, asking for replies on any route. */
  datatype V3ForwardMessage = V3ForwardMessage(id: MessageId, message: EncryptedMessage, returnRoute: ReturnRoute)

  /** A packed message the repository stored for a connection. */
  datatype StoredMessage = StoredMessage(id: MessageId, connectionId: ConnId, message: EncryptedMessage)

  /** One call to the message sender. */
  datatype Sent =
    | SentMessage(message: V3ForwardMessage, connection: ConnectionRecord)      // sendMessage
    | SentPackage(connection: ConnectionRecord, encryptedMessage: EncryptedMessage) // sendPackage

  datatype HandlerError =
    | ForwardRejected(reason: string)       // the mediator service refused the forward
    | ConnectionNotFound(connectionId: ConnId) // no connection record has this id

  /**
   * The handler's collaborators: the mediator service, the connection records,
   * the message repository and the message sender.
   */
  class Collaborators {
    /** The mediator service's processing of a forward message. */
    const processForwardMessage: ForwardMessage -> Result<ProcessedForward, string>
    /** The connection records, by id. */
    const connections: map<ConnId, ConnectionRecord>
    /** Whether the message repository offers `addForwardMessage`. */
    const supportsForwardIds: bool
    /** The messages stored through `addForwardMessage`, oldest first. */
    var stored: seq<StoredMessage>
    /** The id the next stored message receives. */
    var nextId: MessageId
    /** Every call made to the message sender, oldest first. */
    var sent: seq<Sent>

    /** Every connection record sits under its own id, and stored ids are distinct and below `nextId`. */
    ghost predicate Valid()
      reads this
    {
      && (forall c :: c in connections ==> connections[c].id == c)
      && (forall i :: 0 <= i < |stored| ==> stored[i].id < nextId)
      && (forall i, j :: 0 <= i < j < |stored| ==> stored[i].id < stored[j].id)
    }

    constructor (
      processForwardMessage: ForwardMessage -> Result<ProcessedForward, string>,
      connections: map<ConnId, ConnectionRecord>,
      supportsForwardIds: bool)
      requires forall c :: c in connections ==> connections[c].id == c
      ensures Valid()
      ensures this.processForwardMessage == processForwardMessage
      ensures this.connections == connections && this.supportsForwardIds == supportsForwardIds
      ensures stored == [] && sent == []
    {
      this.processForwardMessage := processForwardMessage;
      this.connections := connections;
      this.supportsForwardIds := supportsForwardIds;
      stored := [];
      nextId := 0;
      sent := [];
    }

    /** The connection record with id `connectionId`. */
    function GetById(connectionId: ConnId): (r: Result<ConnectionRecord, HandlerError>)
      reads this
      requires Valid()
      ensures r.Success? <==> connectionId in connections
      ensures r.Success? ==> r.value.id == connectionId && r.value == connections[connectionId]
      ensures r.Failure? ==> r.error == ConnectionNotFound(connectionId)
    {
      if connectionId in connections then Success(connections[connectionId]) else Failure(ConnectionNotFound(connectionId))
    }

    /** Stores `message` for `connectionId` under a fresh id and returns that id. */
    method AddForwardMessage(connectionId: ConnId, message: EncryptedMessage) returns (id: MessageId)
      requires Valid() && supportsForwardIds
      modifies this`stored, this`nextId
      ensures Valid()
      ensures id == old(nextId) && nextId == id + 1
      ensures forall i :: 0 <= i < |old(stored)| ==> old(stored)[i].id != id
      ensures stored == old(stored) + [StoredMessage(id, connectionId, message)]
    {
      id := nextId;
      stored := stored + [StoredMessage(id, connectionId, message)];
      nextId := nextId + 1;
    }

    /** Sends an agent message to `connection`. */
    method SendMessage(message: V3ForwardMessage, connection: ConnectionRecord)
      modifies this`sent
      ensures sent == old(sent) + [SentMessage(message, connection)]
    {
      sent := sent + [SentMessage(message, connection)];
    }

    /** Sends an already packed message to `connection`, without packing it again. */
    method SendPackage(connection: ConnectionRecord, encryptedMessage: EncryptedMessage)
      modifies this`sent
      ensures sent == old(sent) + [SentPackage(connection, encryptedMessage)]
    {
      sent := sent + [SentPackage(connection, encryptedMessage)];
    }
  }

  /**
   * Handles one forward message. If the mediator service or the connection
   * lookup fails, nothing is stored or sent. Otherwise exactly one message is
   * sent to the connection of the mediation record, carrying the packed
   * message unchanged: a V3 forward naming the id it was stored under when the
   * repository stores forward messages, the packed message itself when not.
   */
  method Handle(env: Collaborators, message: ForwardMessage) returns (r: Result<(), HandlerError>)
    requires env.Valid()
    modifies env
    ensures env.Valid()
    ensures |env.sent| == |old(env.sent)| + (if r.Success? then 1 else 0)
    ensures var processed := env.processForwardMessage(message);
            processed.Failure? ==>
              && r == Failure(ForwardRejected(processed.error))
              && env.stored == old(env.stored) && env.nextId == old(env.nextId) && env.sent == old(env.sent)
    ensures var processed := env.processForwardMessage(message);
            processed.Success? && processed.value.mediationRecord.connectionId !in env.connections ==>
              && r == Failure(ConnectionNotFound(processed.value.mediationRecord.connectionId))
              && env.stored == old(env.stored) && env.nextId == old(env.nextId) && env.sent == old(env.sent)
    ensures var processed := env.processForwardMessage(message);
            processed.Success? && processed.value.mediationRecord.connectionId in env.connections ==>
              var connection := env.connections[processed.value.mediationRecord.connectionId];
              var payload := processed.value.encryptedMessage;
              && r.Success?
              && connection.id == processed.value.mediationRecord.connectionId
              && (env.supportsForwardIds ==>
                    && env.stored == old(env.stored) + [StoredMessage(old(env.nextId), connection.id, payload)]
                    && env.nextId == old(env.nextId) + 1
                    && env.sent == old(env.sent) + [SentMessage(V3ForwardMessage(old(env.nextId), payload, ReturnRouteAll), connection)])
              && (!env.supportsForwardIds ==>
                    && env.stored == old(env.stored) && env.nextId == old(env.nextId)
                    && env.sent == old(env.sent) + [SentPackage(connection, payload)])
  {
    var processed := env.processForwardMessage(message);
    if processed.Failure? {
      return Failure(ForwardRejected(processed.error));
    }
    var encryptedMessage := processed.value.encryptedMessage;
    var mediationRecord := processed.value.mediationRecord;
    var lookup := env.GetById(mediationRecord.connectionId);
    if lookup.Failure? {
      return Failure(lookup.error);
    }
    var connectionRecord := lookup.value;
    if env.supportsForwardIds {
      var id := env.AddForwardMessage(connectionRecord.id, encryptedMessage);
      env.SendMessage(V3ForwardMessage(id, encryptedMessage, ReturnRouteAll), connectionRecord);
    } else {
      env.SendPackage(connectionRecord, encryptedMessage);
    }
    r := Success(());
  }
}
