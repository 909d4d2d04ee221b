/** Values shared by the mediator's pickup service, forward handler and JWS service. */
module Common {

  datatype Option<+T> = None | Some(value: T)

  /** The outcome of an operation that may throw: a value, or the error it raises. */
  datatype Result<+T, +E> = Success(value: T) | Failure(error: E)

  /** Identifier of a connection record. */
  type ConnId = string

  /**
   * The opaque wire form of a packed DIDComm message. The mediator stores and
   * forwards it without looking inside.
   */
  datatype EncryptedMessage = EncryptedMessage(protected: string, iv: string, ciphertext: string, tag: string)

  /** The part of a connection record the core consumes: its id and whether it is ready. */
  datatype ConnectionRecord = ConnectionRecord(id: ConnId, isReady: bool)
}
