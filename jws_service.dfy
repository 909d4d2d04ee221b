/**
 * Creation and verification of JSON Web Signatures in the JSON serialization
 * of RFC 7515 (general syntax, section 7.2.1; flattened syntax, section 7.2.2),
 * restricted to Ed25519 keys given as OKP JWKs with the EdDSA algorithm of
 * RFC 8037 (sections 2 and 3.1).
 *
 * Base64url, base58, UTF-8 and JSON encoding, and the wallet's signing and
 * verification, are given as function values: the model assumes nothing of
 * them except what a lemma states as its precondition.
 */
module JwsService {
  import opened Common

  type Bytes = seq<bv8>

  const JwsKeyType: string := "OKP"
  const JwsCurve: string := "Ed25519"
  const JwsAlg: string := "EdDSA"

  datatype KeyType = Ed25519

  /** A public key, given by its base58 encoding. */
  datatype Key = Key(publicKeyBase58: string, keyType: KeyType)

  /** The `jwk` member of a protected header; a member that is absent reads as None. */
  datatype JwkJson = JwkJson(kty: Option<string>, crv: Option<string>, x: Option<string>)

  /** A decoded protected header; a member that is absent reads as None. */
  datatype ProtectedJson = ProtectedJson(alg: Option<string>, jwk: Option<JwkJson>)

  /** The encoders the service uses. */
  datatype Encoders = Encoders(
    toBase64Url: Bytes -> string,
    fromBase64: string -> Bytes,
    toBase58: Bytes -> string,
    fromBase58: string -> Bytes,
    fromString: string -> Bytes,                      // UTF-8 bytes of a string
    jsonToBase64Url: ProtectedJson -> string,         // base64url of the JSON text
    jsonFromBase64: string -> Option<ProtectedJson>)  // None when the text is not JSON

  /** An error thrown by the wallet: a `WalletError` or any other kind. */
  datatype ThrownError = WalletError(message: string) | OtherError(message: string)

  /** The wallet's signing and verification, each of which may throw. */
  datatype Wallet = Wallet(
    sign: (Bytes, Key) -> Result<Bytes, ThrownError>,
    verify: (Key, Bytes, Bytes) -> Result<bool, ThrownError>)

  /** The errors `createJws` and `verifyJws` raise. */
  datatype JwsError =
    | NoSignatures             // the signatures array is empty
    | ProtectedNotJson         // a protected header does not decode to JSON
    | InvalidProtectedHeader   // a protected header is not OKP / Ed25519 / EdDSA
    | MissingJwkX              // a protected header has no `jwk.x` to decode
    | Thrown(error: ThrownError) // an error of the wallet, passed on

  /** One signature: the base64url protected header, the base64url signature and the unprotected header. */
  datatype JwsSignature = JwsSignature(protected: string, signature: string, header: map<string, string>)

  /** A JWS in the flattened syntax (one signature) or the general syntax (a `signatures` array). */
  datatype Jws = Flattened(entry: JwsSignature) | General(signatures: seq<JwsSignature>)

  datatype VerifyJwsResult = VerifyJwsResult(isValid: bool, signerVerkeys: seq<string>)

  /** The signing input of section 5.1 of RFC 7515. */
  function SigningInput(protected: string, base64Payload: string): string {
    protected + "." + base64Payload
  }

  /** The bytes that are signed for, and verified against, a protected header and a payload. */
  function SignedData(enc: Encoders, protected: string, payload: Bytes): Bytes {
    enc.fromString(SigningInput(protected, enc.toBase64Url(payload)))
  }

  /** The header check of `verifyJws`: key type OKP, curve Ed25519 and algorithm EdDSA. */
  predicate HeaderIsSupported(h: ProtectedJson) {
    && h.jwk.Some?
    && h.jwk.value.kty == Some(JwsKeyType)
    && h.jwk.value.crv == Some(JwsCurve)
    && h.alg == Some(JwsAlg)
  }

  /** The protected header for a signature by `verkey`. */
  function BuildProtected(enc: Encoders, verkey: string): (h: ProtectedJson)
    ensures HeaderIsSupported(h)
    ensures h.jwk.value.x.Some?
  {
    ProtectedJson(
      Some(JwsAlg),
      Some(JwkJson(Some(JwsKeyType), Some(JwsCurve), Some(enc.toBase64Url(enc.fromBase58(verkey))))))
  }

  /**
   * A JWS entry signing `payload` with the key of `verkey`: the protected
   * header it returns is the one the wallet signed, and the caller's header is
   * passed through unchanged.
   */
  function CreateJws(enc: Encoders, wallet: Wallet, payload: Bytes, verkey: string, header: map<string, string>)
    : (r: Result<JwsSignature, JwsError>)
    ensures var signed := wallet.sign(SignedData(enc, enc.jsonToBase64Url(BuildProtected(enc, verkey)), payload), Key(verkey, Ed25519));
            && (r.Success? <==> signed.Success?)
            && (r.Failure? ==> r.error == Thrown(signed.error))
    ensures r.Success? ==>
              && r.value.header == header
              && r.value.protected == enc.jsonToBase64Url(BuildProtected(enc, verkey))
              && wallet.sign(SignedData(enc, r.value.protected, payload), Key(verkey, Ed25519)).Success?
              && r.value.signature == enc.toBase64Url(wallet.sign(SignedData(enc, r.value.protected, payload), Key(verkey, Ed25519)).value)
  {
    var base64Protected := enc.jsonToBase64Url(BuildProtected(enc, verkey));
    var key := Key(verkey, Ed25519);
    match wallet.sign(SignedData(enc, base64Protected, payload), key)
    case Failure(e) => Failure(Thrown(e))
    case Success(signature) => Success(JwsSignature(base64Protected, enc.toBase64Url(signature), header))
  }

  /** What checking one signature yields when it raises nothing: its signer, or a rejection. */
  datatype SignatureOutcome = Accepted(verkey: string) | Rejected

  /**
   * Checks one signature over `payload`. A header that is not JSON, is not
   * OKP / Ed25519 / EdDSA or lacks `jwk.x` raises an error; a signature the
   * wallet rejects, or whose check throws a `WalletError`, is rejected; any
   * other error of the wallet is raised.
   */
  function VerifySignature(enc: Encoders, wallet: Wallet, payload: Bytes, s: JwsSignature)
    : (r: Result<SignatureOutcome, JwsError>)
    ensures enc.jsonFromBase64(s.protected).None? ==> r == Failure(ProtectedNotJson)
    ensures (enc.jsonFromBase64(s.protected).Some? && !HeaderIsSupported(enc.jsonFromBase64(s.protected).value))
            ==> r == Failure(InvalidProtectedHeader)
    ensures r.Success? ==>
              && enc.jsonFromBase64(s.protected).Some?
              && HeaderIsSupported(enc.jsonFromBase64(s.protected).value)
              && enc.jsonFromBase64(s.protected).value.jwk.value.x.Some?
    ensures r.Success? && r.value.Accepted? ==>
              var x := enc.jsonFromBase64(s.protected).value.jwk.value.x.value;
              && r.value.verkey == enc.toBase58(enc.fromBase64(x))
              && wallet.verify(Key(r.value.verkey, Ed25519), SignedData(enc, s.protected, payload), enc.fromBase64(s.signature))
                 == Success(true)
    ensures r.Success? && r.value.Rejected? ==>
              var x := enc.jsonFromBase64(s.protected).value.jwk.value.x.value;
              var checked := wallet.verify(Key(enc.toBase58(enc.fromBase64(x)), Ed25519), SignedData(enc, s.protected, payload), enc.fromBase64(s.signature));
              checked == Success(false) || (checked.Failure? && checked.error.WalletError?)
    ensures r.Failure? && r.error.Thrown? ==> r.error.error.OtherError?
    ensures var header := enc.jsonFromBase64(s.protected);
            header.Some? && HeaderIsSupported(header.value) && header.value.jwk.value.x.None?
            ==> r == Failure(MissingJwkX)
    ensures var header := enc.jsonFromBase64(s.protected);
            header.Some? && HeaderIsSupported(header.value) && header.value.jwk.value.x.Some? ==>
              var verkey := enc.toBase58(enc.fromBase64(header.value.jwk.value.x.value));
              var checked := wallet.verify(Key(verkey, Ed25519), SignedData(enc, s.protected, payload), enc.fromBase64(s.signature));
              && (checked == Success(true) ==> r == Success(Accepted(verkey)))
              && (checked == Success(false) ==> r == Success(Rejected))
              && (checked.Failure? && checked.error.WalletError? ==> r == Success(Rejected))
              && (checked.Failure? && checked.error.OtherError? ==> r == Failure(Thrown(checked.error)))
  {
    match enc.jsonFromBase64(s.protected)
    case None => Failure(ProtectedNotJson)
    case Some(h) =>
      if !HeaderIsSupported(h) then Failure(InvalidProtectedHeader)
      else if h.jwk.value.x.None? then Failure(MissingJwkX)
      else
        var verkey := enc.toBase58(enc.fromBase64(h.jwk.value.x.value));
        match wallet.verify(Key(verkey, Ed25519), SignedData(enc, s.protected, payload), enc.fromBase64(s.signature))
        case Success(isValid) => if isValid then Success(Accepted(verkey)) else Success(Rejected)
        case Failure(e) => if e.WalletError? then Success(Rejected) else Failure(Thrown(e))
  }

  /** Whether signature `s` is accepted. */
  predicate Accepts(enc: Encoders, wallet: Wallet, payload: Bytes, s: JwsSignature) {
    VerifySignature(enc, wallet, payload, s).Success? && VerifySignature(enc, wallet, payload, s).value.Accepted?
  }

  /** The result a signature that is not accepted ends the verification with. */
  function Stop(outcome: Result<SignatureOutcome, JwsError>): Result<VerifyJwsResult, JwsError> {
    match outcome
    case Failure(e) => Failure(e)
    case Success(_) => Success(VerifyJwsResult(false, []))
  }

  /** `rest` with the verkeys `verkeys` put in front of its signers, when it is a success that is valid. */
  function Continue(verkeys: seq<string>, rest: Result<VerifyJwsResult, JwsError>): Result<VerifyJwsResult, JwsError> {
    if rest.Success? && rest.value.isValid then Success(VerifyJwsResult(true, verkeys + rest.value.signerVerkeys))
    else rest
  }

  /**
   * Checks `sigs` in order, collecting the signers while every signature is
   * accepted and stopping at the first one that is not.
   */
  function VerifyAll(enc: Encoders, wallet: Wallet, payload: Bytes, sigs: seq<JwsSignature>)
    : Result<VerifyJwsResult, JwsError>
    decreases |sigs|
  {
    if sigs == [] then Success(VerifyJwsResult(true, []))
    else
      match VerifySignature(enc, wallet, payload, sigs[0])
      case Success(Accepted(verkey)) => Continue([verkey], VerifyAll(enc, wallet, payload, sigs[1..]))
      case outcome => Stop(outcome)
  }

  /** One step of `VerifyAll`, taken at position `i`. */
  lemma VerifyAllStep(enc: Encoders, wallet: Wallet, payload: Bytes, sigs: seq<JwsSignature>, i: nat)
    requires i < |sigs|
    ensures VerifyAll(enc, wallet, payload, sigs[i..])
            == match VerifySignature(enc, wallet, payload, sigs[i])
               case Success(Accepted(verkey)) => Continue([verkey], VerifyAll(enc, wallet, payload, sigs[i + 1..]))
               case outcome => Stop(outcome)
  {
  }

  /**
   * The verification is valid exactly when every signature is accepted, and
   * then it names one signer per signature, in order.
   */
  lemma {:induction false} ValidIffAllAccepted(enc: Encoders, wallet: Wallet, payload: Bytes, sigs: seq<JwsSignature>)
    ensures (forall i :: 0 <= i < |sigs| ==> Accepts(enc, wallet, payload, sigs[i]))
            <==> VerifyAll(enc, wallet, payload, sigs).Success? && VerifyAll(enc, wallet, payload, sigs).value.isValid
    ensures var r := VerifyAll(enc, wallet, payload, sigs);
            r.Success? && r.value.isValid ==>
              && |r.value.signerVerkeys| == |sigs|
              && forall i :: 0 <= i < |sigs| ==>
                   VerifySignature(enc, wallet, payload, sigs[i]) == Success(Accepted(r.value.signerVerkeys[i]))
    decreases |sigs|
  {
    if sigs != [] {
      ValidIffAllAccepted(enc, wallet, payload, sigs[1..]);
      assert forall i :: 1 <= i < |sigs| ==> sigs[1..][i - 1] == sigs[i];
      var first := VerifySignature(enc, wallet, payload, sigs[0]);
      if first.Success? && first.value.Accepted? {
        var rest := VerifyAll(enc, wallet, payload, sigs[1..]);
        if rest.Success? && rest.value.isValid {
          var verkeys := [first.value.verkey] + rest.value.signerVerkeys;
          assert forall i :: 1 <= i < |sigs| ==> verkeys[i] == rest.value.signerVerkeys[i - 1];
        } else {
          var j :| 0 <= j < |sigs| - 1 && !Accepts(enc, wallet, payload, sigs[1..][j]);
          assert !Accepts(enc, wallet, payload, sigs[j + 1]);
        }
      } else {
        assert !Accepts(enc, wallet, payload, sigs[0]);
      }
    }
  }

  /**
   * When signature `k` is the first that is not accepted, the verification
   * ends with what that signature yields, whatever follows it.
   */
  lemma {:induction false} FirstUnacceptedDecides(enc: Encoders, wallet: Wallet, payload: Bytes, sigs: seq<JwsSignature>, k: nat)
    requires k < |sigs|
    requires forall i :: 0 <= i < k ==> Accepts(enc, wallet, payload, sigs[i])
    requires !Accepts(enc, wallet, payload, sigs[k])
    ensures VerifyAll(enc, wallet, payload, sigs) == Stop(VerifySignature(enc, wallet, payload, sigs[k]))
    decreases k
  {
    if k == 0 {
      assert VerifySignature(enc, wallet, payload, sigs[0]) == VerifySignature(enc, wallet, payload, sigs[k]);
    } else {
      assert Accepts(enc, wallet, payload, sigs[0]);
      assert forall i :: 0 <= i < k - 1 ==> sigs[1..][i] == sigs[i + 1];
      assert sigs[1..][k - 1] == sigs[k];
      FirstUnacceptedDecides(enc, wallet, payload, sigs[1..], k - 1);
    }
  }

  /** The signatures of a JWS: a flattened JWS has one. */
  function Signatures(jws: Jws): seq<JwsSignature> {
    match jws
    case Flattened(entry) => [entry]
    case General(signatures) => signatures
  }

  /** The result of `verifyJws`: an error for an empty signatures array, otherwise every signature checked in order. */
  function Verification(enc: Encoders, wallet: Wallet, jws: Jws, payload: Bytes): Result<VerifyJwsResult, JwsError> {
    var sigs := Signatures(jws);
    if sigs == [] then Failure(NoSignatures) else VerifyAll(enc, wallet, payload, sigs)
  }

  /** Verifies every signature of `jws` over `payload`, stopping at the first that fails. */
  method VerifyJws(enc: Encoders, wallet: Wallet, jws: Jws, payload: Bytes) returns (r: Result<VerifyJwsResult, JwsError>)
    ensures r == Verification(enc, wallet, jws, payload)
    ensures jws.Flattened? ==> r == Verification(enc, wallet, General([jws.entry]), payload)
    ensures jws.General? && jws.signatures == [] ==> r == Failure(NoSignatures)
  {
    var base64Payload := enc.toBase64Url(payload);
    var signatures := if jws.General? then jws.signatures else [jws.entry];
    if |signatures| == 0 {
      return Failure(NoSignatures);
    }
    var signerVerkeys: seq<string> := [];
    assert signatures[0..] == signatures;
    ContinueNothing(VerifyAll(enc, wallet, payload, signatures));
    for i := 0 to |signatures|
      invariant VerifyAll(enc, wallet, payload, signatures)
                == Continue(signerVerkeys, VerifyAll(enc, wallet, payload, signatures[i..]))
    {
      var s := signatures[i];
      VerifyAllStep(enc, wallet, payload, signatures, i);
      var protectedJson := enc.jsonFromBase64(s.protected);
      if protectedJson.None? {
        return Failure(ProtectedNotJson);
      }
      var h := protectedJson.value;
      var isValidKeyType := h.jwk.Some? && h.jwk.value.kty == Some(JwsKeyType);
      var isValidCurve := h.jwk.Some? && h.jwk.value.crv == Some(JwsCurve);
      var isValidAlg := h.alg == Some(JwsAlg);
      if !isValidKeyType || !isValidCurve || !isValidAlg {
        return Failure(InvalidProtectedHeader);
      }
      var data := enc.fromString(SigningInput(s.protected, base64Payload));
      var signature := enc.fromBase64(s.signature);
      if h.jwk.value.x.None? {
        return Failure(MissingJwkX);
      }
      var verkey := enc.toBase58(enc.fromBase64(h.jwk.value.x.value));
      var key := Key(verkey, Ed25519);
      ContinueTwice(signerVerkeys, verkey, VerifyAll(enc, wallet, payload, signatures[i + 1..]));
      signerVerkeys := signerVerkeys + [verkey];
      var checked := wallet.verify(key, data, signature);
      if checked.Failure? {
        if checked.error.WalletError? {
          return Success(VerifyJwsResult(false, []));
        }
        return Failure(Thrown(checked.error));
      }
      if !checked.value {
        return Success(VerifyJwsResult(false, []));
      }
    }
    assert signatures[|signatures|..] == [];
    assert signerVerkeys + [] == signerVerkeys;
    r := Success(VerifyJwsResult(true, signerVerkeys));
  }

  /** Sequence identity for the `VerifyJws` loop invariant: continuing with no verkeys changes nothing. */
  lemma ContinueNothing(rest: Result<VerifyJwsResult, JwsError>)
    ensures Continue([], rest) == rest
  {
    if rest.Success? && rest.value.isValid {
      assert [] + rest.value.signerVerkeys == rest.value.signerVerkeys;
    }
  }

  /** Sequence identity for the `VerifyJws` loop invariant: continuing twice is continuing once with both lists joined. */
  lemma ContinueTwice(verkeys: seq<string>, verkey: string, rest: Result<VerifyJwsResult, JwsError>)
    ensures Continue(verkeys, Continue([verkey], rest)) == Continue(verkeys + [verkey], rest)
  {
    if rest.Success? && rest.value.isValid {
      assert verkeys + ([verkey] + rest.value.signerVerkeys) == verkeys + [verkey] + rest.value.signerVerkeys;
    }
  }

  /**
   * A protected header that decodes but is not OKP / Ed25519 / EdDSA makes the
   * verification raise an error, rather than report the JWS invalid, once the
   * signatures before it are accepted.
   */
  lemma UnsupportedHeaderRaises(enc: Encoders, wallet: Wallet, jws: Jws, payload: Bytes, k: nat)
    requires k < |Signatures(jws)|
    requires forall i :: 0 <= i < k ==> Accepts(enc, wallet, payload, Signatures(jws)[i])
    requires enc.jsonFromBase64(Signatures(jws)[k].protected).Some?
    requires !HeaderIsSupported(enc.jsonFromBase64(Signatures(jws)[k].protected).value)
    ensures Verification(enc, wallet, jws, payload) == Failure(InvalidProtectedHeader)
  {
    FirstUnacceptedDecides(enc, wallet, payload, Signatures(jws), k);
  }

  /**
   * A signature that the wallet rejects, or whose check throws a
   * `WalletError`, makes the whole JWS invalid with no signers, once the
   * signatures before it are accepted.
   */
  lemma RejectedSignatureInvalidates(enc: Encoders, wallet: Wallet, jws: Jws, payload: Bytes, k: nat)
    requires k < |Signatures(jws)|
    requires forall i :: 0 <= i < k ==> Accepts(enc, wallet, payload, Signatures(jws)[i])
    requires VerifySignature(enc, wallet, payload, Signatures(jws)[k]) == Success(Rejected)
    ensures Verification(enc, wallet, jws, payload) == Success(VerifyJwsResult(false, []))
  {
    FirstUnacceptedDecides(enc, wallet, payload, Signatures(jws), k);
  }

  /**
   * Signature `k`, after accepted ones, carries a supported header with
   * `jwk.x`, and the wallet's check of it does not answer true: a false answer
   * or a `WalletError` makes the whole JWS invalid with no signers, and any
   * other error of the wallet is what the verification raises.
   */
  lemma WalletAnswerDecides(enc: Encoders, wallet: Wallet, jws: Jws, payload: Bytes, k: nat)
    requires k < |Signatures(jws)|
    requires forall i :: 0 <= i < k ==> Accepts(enc, wallet, payload, Signatures(jws)[i])
    requires var header := enc.jsonFromBase64(Signatures(jws)[k].protected);
             header.Some? && HeaderIsSupported(header.value) && header.value.jwk.value.x.Some?
    ensures var s := Signatures(jws)[k];
            var verkey := enc.toBase58(enc.fromBase64(enc.jsonFromBase64(s.protected).value.jwk.value.x.value));
            var checked := wallet.verify(Key(verkey, Ed25519), SignedData(enc, s.protected, payload), enc.fromBase64(s.signature));
            && (checked == Success(false) || (checked.Failure? && checked.error.WalletError?)
                ==> Verification(enc, wallet, jws, payload) == Success(VerifyJwsResult(false, [])))
            && (checked.Failure? && checked.error.OtherError?
                ==> Verification(enc, wallet, jws, payload) == Failure(Thrown(checked.error)))
  {
    var s := Signatures(jws)[k];
    var verkey := enc.toBase58(enc.fromBase64(enc.jsonFromBase64(s.protected).value.jwk.value.x.value));
    var checked := wallet.verify(Key(verkey, Ed25519), SignedData(enc, s.protected, payload), enc.fromBase64(s.signature));
    if checked != Success(true) {
      FirstUnacceptedDecides(enc, wallet, payload, Signatures(jws), k);
    }
  }

  /** The encoders invert each other on what the service encodes. */
  ghost predicate RoundTrips(enc: Encoders) {
    && (forall b: Bytes :: enc.fromBase64(enc.toBase64Url(b)) == b)
    && (forall h: ProtectedJson :: enc.jsonFromBase64(enc.jsonToBase64Url(h)) == Some(h))
  }

  /** The wallet accepts every signature it produced, for the same key and data. */
  ghost predicate VerifiesOwnSignatures(wallet: Wallet) {
    forall data: Bytes, key: Key, sig: Bytes :: wallet.sign(data, key) == Success(sig) ==> wallet.verify(key, data, sig) == Success(true)
  }

  /**
   * The header `buildProtected` makes for a canonical base58 verkey passes the
   * header check once encoded and decoded, and its `jwk.x` decodes back to
   * that verkey.
   */
  lemma BuiltHeaderRoundTrips(enc: Encoders, verkey: string)
    requires RoundTrips(enc)
    requires enc.toBase58(enc.fromBase58(verkey)) == verkey
    ensures var decoded := enc.jsonFromBase64(enc.jsonToBase64Url(BuildProtected(enc, verkey)));
            && decoded.Some?
            && HeaderIsSupported(decoded.value)
            && decoded.value.jwk.value.x.Some?
            && enc.toBase58(enc.fromBase64(decoded.value.jwk.value.x.value)) == verkey
  {
  }

  /**
   * A JWS made by `createJws` verifies, with the signing verkey as its only
   * signer, when the encoders round-trip, the verkey is canonical base58 and
   * the wallet accepts its own signatures.
   */
  lemma CreateThenVerify(enc: Encoders, wallet: Wallet, payload: Bytes, verkey: string, header: map<string, string>)
    requires RoundTrips(enc)
    requires enc.toBase58(enc.fromBase58(verkey)) == verkey
    requires VerifiesOwnSignatures(wallet)
    requires CreateJws(enc, wallet, payload, verkey, header).Success?
    ensures Verification(enc, wallet, Flattened(CreateJws(enc, wallet, payload, verkey, header).value), payload)
            == Success(VerifyJwsResult(true, [verkey]))
  {
    var s := CreateJws(enc, wallet, payload, verkey, header).value;
    BuiltHeaderRoundTrips(enc, verkey);
    var data := SignedData(enc, s.protected, payload);
    var sig := wallet.sign(data, Key(verkey, Ed25519)).value;
    assert enc.fromBase64(enc.toBase64Url(sig)) == sig;
    assert wallet.verify(Key(verkey, Ed25519), data, sig) == Success(true);
    assert VerifySignature(enc, wallet, payload, s) == Success(Accepted(verkey));
    assert [s][1..] == [];
    assert VerifyAll(enc, wallet, payload, [s][1..]) == Success(VerifyJwsResult(true, []));
    assert [verkey] + [] == [verkey];
    assert VerifyAll(enc, wallet, payload, [s]) == Continue([verkey], Success(VerifyJwsResult(true, [])));
  }
}
