# Mediator store-and-forward and JWS signing, modelled in Dafny

This project models three pieces of an Aries (DIDComm) agent that acts as a mediator for recipients that are not always online.

- **Pickup Protocol 2.0, mediator side** (Hyperledger Aries RFC 0685). The mediator keeps a FIFO queue of opaque encrypted messages per connection. A recipient sends a status-request and gets the queue length back. A delivery-request returns up to `limit` queued messages as attachments and leaves them queued. A messages-received acknowledges messages, which removes them from the front of the queue, and the reply gives the new count. `queueMessage` appends a message to a connection's queue.
  - Module `MessageRepository` (`message_repository.dfy`) holds the repository contract as functions over `map<ConnId, seq<EncryptedMessage>>`. It also holds `InMemoryMessageRepository`, a class that keeps that map in a field.
  - Module `V2MessagePickup` (`v2_message_pickup.dfy`) gives the reply to each request as a function of the queues. It also holds `V2MessagePickupService`, whose methods run each request against the repository and are proved to match those functions.
- **JWS creation and verification** (`JwsService`, `jws_service.dfy`). This is the JSON serialization of RFC 7515: the general syntax of section 7.2.1, the flattened syntax of section 7.2.2, and the signing input of section 5.1. Keys are Ed25519 OKP JWKs and the algorithm is `EdDSA`, as in RFC 8037, sections 2 and 3.1.
  - `createJws` signs `protected + "." + base64url(payload)` under a fixed protected header.
  - `verifyJws` checks the signatures in order. It raises an error for an empty list or an unsupported header. It reports the JWS invalid at the first signature that is rejected.
  - The encoders (base64url, base58, UTF-8, JSON) and the wallet's `sign` and `verify` are function values inside the `Encoders` and `Wallet` records. Nothing is assumed about them, except where a lemma states a round-trip or a sign/verify agreement as its precondition.
- **Forward handling** (`ForwardHandler`, `forward_handler.dfy`, the forward message of Hyperledger Aries RFC 0094). The handler asks the mediator service for the inner packed message and its mediation record, then looks up the record's connection.
  - If the repository offers `addForwardMessage`, the handler stores the message and sends a message-pickup 3.0 `V3ForwardMessage` that names the stored id and asks for return routing `all`.
  - Otherwise it sends the packed message itself through `sendPackage`.
  - The collaborators are one `Collaborators` object. Its state logs what was stored and what was sent.
  - The handler accepts only forward messages. `Handle` takes a `ForwardMessage`.

Shared values (`Option`, `Result`, `EncryptedMessage`, `ConnectionRecord`) are in module `Common` (`common.dfy`).

Modelling choices:
- A connection that nothing was queued for has an empty queue.
- Exceptions become `Failure` values of a `Result`.
- `recipientKey` is tested for JavaScript truthiness, so an empty string counts as absent.
- `assertReadyConnection` fails in two ways: the message has no connection, or its connection is not ready.
- A supported JWS header without `jwk.x` makes `Buffer.from(undefined)` throw a `TypeError` (packages/core/src/crypto/JwsService.ts:65). The model raises this as the error `MissingJwkX`, which is not a `WalletError` and so is not turned into `isValid: false`.
- The source names its one-signature JWS type `JwsGeneralFormat` and its list form `JwsFlattenedFormat`. This is the reverse of RFC 7515's terms. The model uses the RFC's names: `Flattened` has one signature and `General` has a `signatures` list.

## Model

| member | source | states |
|---|---|---|
| `MessageRepository.Peek` | packages/core/src/modules/routing/protocol/pickup/v2/V2MessagePickupService.ts:71-72 | A take returns a prefix of the queue, in queue order. It holds at most `limit` messages, exactly `limit` when that many are queued, and the whole queue when there is no limit or the limit is at least the queue length. |
| `MessageRepository.Enqueued` | packages/core/src/modules/routing/protocol/pickup/v2/V2MessagePickupService.ts:57-59 | Queuing a message appends it to the end of that connection's queue. Every other connection's queue is unchanged. |
| `MessageRepository.Dequeued` | packages/core/src/modules/routing/protocol/pickup/v2/V2MessagePickupService.ts:105-109 | A destructive take removes exactly the messages the take returns, from the front. The rest of that queue keeps its order, and every other queue is unchanged. |
| `MessageRepository.EnqueuedAllIsFifo` | packages/core/src/modules/routing/protocol/pickup/v2/V2MessagePickupService.ts:57-59 | Messages queued one after another end up at the back of the queue in the order they were queued. No other connection is touched. |
| `MessageRepository.DrainReturnsEnqueueOrder` | packages/core/src/modules/routing/protocol/pickup/v2/V2MessagePickupService.ts:105-109 | Start from an empty queue and queue m1…mn. A take without a limit returns m1…mn in that order, and the queue is empty afterwards. |
| `MessageRepository.PeekThenDequeueSameCount` | packages/core/src/modules/routing/protocol/pickup/v2/V2MessagePickupService.ts:72-109 | Removing as many messages as a peek returned removes exactly the peeked messages. The queue is the peeked messages followed by what remains. |
| `MessageRepository.InMemoryMessageRepository.constructor` | packages/core/src/agent/Agent.ts:89-91 | The default repository starts with no queues. |
| `MessageRepository.InMemoryMessageRepository.Add` | packages/core/src/modules/routing/protocol/pickup/v2/V2MessagePickupService.ts:58 | The new queues are the old ones with the message appended to that connection's queue. |
| `MessageRepository.InMemoryMessageRepository.GetAvailableMessageCount` | packages/core/src/modules/routing/protocol/pickup/v2/V2MessagePickupService.ts:51 | Returns the length of that connection's queue. The count is 0 for a connection nothing was queued for. |
| `MessageRepository.InMemoryMessageRepository.TakeFromQueue` | packages/core/src/modules/routing/protocol/pickup/v2/V2MessagePickupService.ts:72 | Returns the first `min(limit, length)` messages, or all of them without a limit. With `keepOnQueue` the queues are unchanged. Without it, exactly those messages leave the front of the queue. |
| `V2MessagePickup.AssertReadyConnection` | packages/core/src/modules/routing/protocol/pickup/v2/V2MessagePickupService.ts:43 | Succeeds exactly when the message has a connection and that connection is ready, and then returns that connection. It fails with `NoConnection` or `ConnectionNotReady` otherwise. |
| `V2MessagePickup.StatusReply` | packages/core/src/modules/routing/protocol/pickup/v2/V2MessagePickupService.ts:41-55 | A missing or unready connection fails first. A request carrying a non-empty `recipientKey` then fails with `RecipientKeyNotSupported`. Otherwise the reply goes to that connection, carries the request's `threadId`, and counts exactly the messages queued for that connection. |
| `V2MessagePickup.Attachments` | packages/core/src/modules/routing/protocol/pickup/v2/V2MessagePickupService.ts:76-83 | Makes one attachment per message, in the same order, each wrapping its message unchanged. |
| `V2MessagePickup.DeliveryReply` | packages/core/src/modules/routing/protocol/pickup/v2/V2MessagePickupService.ts:61-97 | It has the same guard failures, in the same order, as a status request. On success the reply carries the request's `threadId`. It is a zero-count status exactly when the queue is empty or `limit` is 0. Otherwise it is a delivery of 1 to `limit` attachments, `min(limit, length)` of them, where attachment i wraps the i-th queued message. |
| `V2MessagePickup.ReceivedReply` | packages/core/src/modules/routing/protocol/pickup/v2/V2MessagePickupService.ts:99-117 | Fails only when the connection is missing or not ready, and has no `recipientKey` check. It removes `min(n, length)` messages from the front, where n is the length of the id list, or all messages when there is no list. The ids themselves are not used. Other connections are untouched. The reply carries the request's `threadId` and the count `length − removed`. |
| `V2MessagePickup.DeliveredThenAcknowledged` | packages/core/src/modules/routing/protocol/pickup/v2/V2MessagePickupService.ts:72-109 | A delivery followed by a messages-received listing as many ids as attachments were delivered removes exactly the delivered messages. |
| `V2MessagePickup.QueueDeliverAcknowledge` | packages/core/src/modules/routing/protocol/pickup/v2/V2MessagePickupService.ts:41-117 | Queue one message for an empty, ready connection. A status request then reports 1. A delivery request for one message delivers it and leaves it queued. A messages-received without a list leaves 0. |
| `V2MessagePickup.V2MessagePickupService.constructor` | packages/core/src/modules/routing/protocol/pickup/v2/V2MessagePickupService.ts:29-39 | The service works on the repository it is given. |
| `V2MessagePickup.V2MessagePickupService.ProcessStatusRequest` | packages/core/src/modules/routing/protocol/pickup/v2/V2MessagePickupService.ts:41-55 | The outcome is `StatusReply` of the current queues, and nothing is modified. |
| `V2MessagePickup.V2MessagePickupService.QueueMessage` | packages/core/src/modules/routing/protocol/pickup/v2/V2MessagePickupService.ts:57-59 | The repository's new queues are `Enqueued` of the old ones. |
| `V2MessagePickup.V2MessagePickupService.ProcessDeliveryRequest` | packages/core/src/modules/routing/protocol/pickup/v2/V2MessagePickupService.ts:61-97 | Every queue is unchanged, and the outcome is `DeliveryReply` of the queues. |
| `V2MessagePickup.V2MessagePickupService.ProcessMessagesReceived` | packages/core/src/modules/routing/protocol/pickup/v2/V2MessagePickupService.ts:99-117 | The outcome and the new queues are those of `ReceivedReply`. On a guard failure the queues are unchanged. |
| `JwsService.BuildProtected` | packages/core/src/crypto/JwsService.ts:99-108 | The built header always passes the check of `verifyJws` (OKP, Ed25519, EdDSA) and has a `jwk.x`. |
| `JwsService.CreateJws` | packages/core/src/crypto/JwsService.ts:20-37 | Succeeds exactly when the wallet signs, and otherwise raises the wallet's error. On success the caller's `header` is returned unchanged. The returned `protected` is the encoded `buildProtected` header. The signature is the base64url of what the wallet signed over `protected + "." + base64url(payload)`, the same input that verification rebuilds. |
| `JwsService.VerifySignature` | packages/core/src/crypto/JwsService.ts:51-90 | Checks one signature, with both directions stated. A header that is not JSON raises `ProtectedNotJson`. A header that is not OKP / Ed25519 / EdDSA raises `InvalidProtectedHeader` rather than giving a rejection. A supported header without `jwk.x` raises `MissingJwkX`. Otherwise the wallet checks the signature under the verkey `base58(fromBase64(jwk.x))` over the signing input. If it answers true, the signature is accepted with that verkey. If it answers false or throws a `WalletError`, the signature is rejected. Any other thrown error is raised as it is. Conversely, every acceptance and rejection comes from such a wallet answer. |
| `JwsService.ValidIffAllAccepted` | packages/core/src/crypto/JwsService.ts:50-92 | The result is valid exactly when every signature is accepted. It then lists one verkey per signature, in input order. |
| `JwsService.FirstUnacceptedDecides` | packages/core/src/crypto/JwsService.ts:69-88 | The first signature that is not accepted decides the result: `{isValid: false, signerVerkeys: []}` for a rejection, or its error. Later signatures are not examined. |
| `JwsService.VerifyJws` | packages/core/src/crypto/JwsService.ts:42-93 | The loop with early returns computes `Verification`. An empty `signatures` array raises `NoSignatures`. A flattened JWS is verified as a one-element list. |
| `JwsService.UnsupportedHeaderRaises` | packages/core/src/crypto/JwsService.ts:54-60 | Suppose every earlier signature is accepted and a protected header with the wrong `kty`, `crv` or `alg` is reached. Then verification raises `InvalidProtectedHeader` and does not return `isValid: false`. |
| `JwsService.RejectedSignatureInvalidates` | packages/core/src/crypto/JwsService.ts:69-88 | Suppose every earlier signature is accepted and a signature is rejected. Then the JWS is invalid with no signers. |
| `JwsService.WalletAnswerDecides` | packages/core/src/crypto/JwsService.ts:62-88 | Suppose every earlier signature is accepted and signature `k` has a supported header with `jwk.x`. If the wallet's check of it answers false or throws a `WalletError`, the JWS is invalid with no signers. If it throws any other error, verification raises that error. |
| `JwsService.BuiltHeaderRoundTrips` | packages/core/src/crypto/JwsService.ts:54-65 | Assume the encoders round-trip and the verkey is canonical base58. Then the encoded `buildProtected` header decodes to a header that passes the check, and its `jwk.x` decodes back to the verkey. |
| `JwsService.CreateThenVerify` | packages/core/src/crypto/JwsService.ts:20-93 | Assume the encoders round-trip, the verkey is canonical base58 and the wallet accepts its own signatures. Then a JWS made by `createJws` verifies as valid, with exactly the signing verkey as signer. |
| `ForwardHandler.Collaborators.constructor` | packages/core/src/modules/routing/handlers/ForwardHandler.ts:19-27 | The handler starts with the given collaborators and with nothing stored or sent. |
| `ForwardHandler.Collaborators.GetById` | packages/core/src/modules/routing/handlers/ForwardHandler.ts:31-34 | Returns the connection record with exactly that id, or fails with `ConnectionNotFound`. |
| `ForwardHandler.Collaborators.AddForwardMessage` | packages/core/src/modules/routing/handlers/ForwardHandler.ts:39 | Stores the message once under the connection, with an id that no stored message had before, and returns that id. |
| `ForwardHandler.Collaborators.SendMessage` | packages/core/src/modules/routing/handlers/ForwardHandler.ts:40-51 | Records exactly one `sendMessage` call with that message and connection. |
| `ForwardHandler.Collaborators.SendPackage` | packages/core/src/modules/routing/handlers/ForwardHandler.ts:55-58 | Records exactly one `sendPackage` call with that connection and that packed message. |
| `ForwardHandler.Handle` | packages/core/src/modules/routing/handlers/ForwardHandler.ts:29-60 | If the mediator service or the connection lookup fails, nothing is stored or sent. Otherwise exactly one send is made to the connection of the mediation record, carrying the payload from `processForwardMessage` unchanged. With `addForwardMessage`, the payload is stored once under that connection, and the V3 forward carries the returned id with return routing `all`. Without it, nothing is stored and the payload goes through `sendPackage`. Stored ids stay distinct. |

## Left out

- Handler registration in the pickup service constructor is not modelled (packages/core/src/modules/routing/protocol/pickup/v2/V2MessagePickupService.ts:119-125). It only wires the dispatcher.
- The concrete message repository, `InboundMessageContext`, the connection record's readiness rule and `MediatorService.processForwardMessage` are not part of this model. The repository follows the contract of its calls. Readiness is a boolean on the connection record. `processForwardMessage` is a function value that yields either a processed forward or an error.
- Atomicity of `takeFromQueue` under concurrent callers is not modelled: the model is sequential. All `async`/`await` suspension is not modelled either.
- `DeliveryRequestMessage.limit` is a natural number. The JavaScript `slice` semantics of a negative or fractional limit are not modelled.
- Ed25519 signing and verification, and the base64url, base58, UTF-8 and JSON encoders, are function values with no semantics. Round-trip and sign/verify agreement appear only as lemma preconditions.
- Key construction from a base58 verkey is a plain record, `Key(verkey, Ed25519)`. Validation errors that `Key.fromPublicKeyBase58` might raise are not modelled.
- Base58 decoding failures are not modelled. An invalid base58 verkey makes `TypedArrayEncoder.fromBase58` throw in `buildProtected` (packages/core/src/crypto/JwsService.ts:25 and :105) and in `Key.fromPublicKeyBase58` (line 26); the model's `fromBase58` is total.
- `JwsService.CreateJws`: its statement that `createJws` succeeds exactly when the wallet signs holds only for these total encoders. With a throwing base58 decoder, `createJws` would also fail on an invalid verkey.
- Header values of a JWS (`Record<string, unknown>`) are a `map<string, string>`, passed through unchanged.
- Ids returned by `addForwardMessage` come from a counter. The real repository's id generator is not part of this model.
- The forward handler's store (`Collaborators.stored`) and the pickup queues (`InMemoryMessageRepository.queues`) are separate states. The model does not capture whether a forward stored through `addForwardMessage` becomes visible to `getAvailableMessageCount` or `takeFromQueue`.
- Transport failures of `sendMessage` and `sendPackage` are not modelled. Sends always succeed and are recorded. A send that throws after `addForwardMessage` has already stored the message is therefore not captured.
- Logging, the agent context and the dependency manager's resolution of the message repository are left out. The repository's capability is the flag `supportsForwardIds`.
