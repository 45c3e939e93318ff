/** The signed, authorised operations the gateway calls (signed-chaincode.go):
    create, update and transfer of a passport, each carrying a signature triple
    (original message, base64 signature, base64 public key) that
    VerifySignature checks. Only the transfer compares the signer with the
    stored owner; the message text is never compared with the arguments. */
module SignedChaincode {
  import opened Wrappers
  import opened Models
  import opened WorldState
  import opened Crypto
  import opened DppChaincode

  // ----------------------------------------------------------- VerifySignature

  /** Why VerifySignature rejects a triple. */
  datatype VerifyError =
    | PublicKeyEncoding(detail: string)  // "failed to decode public key: <detail>"
    | SignatureEncoding(detail: string)  // "failed to decode signature: <detail>"
    | InvalidSignature                   // "invalid signature"
    | PublicKeyLength(length: nat)       // ed25519.Verify panics on a key that is not 32 bytes

  /** VerifySignature: base64-decode the public key, then the signature, then
      check the Ed25519 signature over the SHA-256 digest of the message bytes. */
  function VerifySignature(p: Primitives, originalMessage: string, signedBase64: string,
                           publicKeyBase64: string): (r: Outcome<VerifyError>)
    ensures p.decode64(publicKeyBase64).Err? ==>
              r == Fail(PublicKeyEncoding(p.decode64(publicKeyBase64).error))
    ensures p.decode64(publicKeyBase64).Ok? && p.decode64(signedBase64).Err? ==>
              r == Fail(SignatureEncoding(p.decode64(signedBase64).error))
    ensures r.Pass? <==>
              && p.decode64(publicKeyBase64).Ok? && p.decode64(signedBase64).Ok?
              && |p.decode64(publicKeyBase64).value| == 32
              && p.verify(p.decode64(publicKeyBase64).value, p.sha256(p.utf8(originalMessage)),
                          p.decode64(signedBase64).value)
  {
    match p.decode64(publicKeyBase64)
    case Err(e) => Fail(PublicKeyEncoding(e))
    case Ok(pubKeyBytes) =>
      match p.decode64(signedBase64)
      case Err(e) => Fail(SignatureEncoding(e))
      case Ok(sigBytes) =>
        var hash := p.sha256(p.utf8(originalMessage));
        if |pubKeyBytes| != 32 then Fail(PublicKeyLength(|pubKeyBytes|))
        else if !p.verify(pubKeyBytes, hash, sigBytes) then Fail(InvalidSignature)
        else Pass
  }

  /** The chaincode error a failed verification becomes: wrapped as
      "signature verification failed: ...", except the key-length panic. */
  function SignatureError(e: VerifyError): Error
  {
    match e
    case PublicKeyEncoding(d) => SignatureFailed("failed to decode public key: " + d)
    case SignatureEncoding(d) => SignatureFailed("failed to decode signature: " + d)
    case InvalidSignature => SignatureFailed("invalid signature")
    case PublicKeyLength(n) => KeyLengthPanic(n)
  }

  /** The record arguments of the signed create and update calls. */
  datatype Payload = Payload(ownerDid: string, serialNumber: string, status: string,
                             permissions: seq<string>, productName: string, components: seq<string>)

  /** The parameter names of CreateDPPWithSignature and UpdateDPPWithSignature,
      in declaration order. */
  const WriteParameters: seq<string> :=
    ["dpp_id", "owner_did", "serial_number", "status", "permissions", "product_name",
     "components", "original_message", "signed_base64", "public_key_base64"]

  /** The parameter names of TransferDPPWithSignature, in declaration order. */
  const TransferParameters: seq<string> :=
    ["dpp_id", "new_owner_did", "original_message", "signed_base64", "public_key_base64"]

  /** The audit entry a signed operation appends: the action, the signer's
      key and the transaction time. */
  function Entry(action: string, publicKeyBase64: string, tx: Timestamp): AuditLogEntry
  {
    AuditLogEntry(action := action, signedBy := publicKeyBase64, timestamp := AuditTime(Instant(tx)))
  }

  // ------------------------------------------------- TransferDPPWithSignature

  /** TransferDPPWithSignature: the record must exist, its owner must be the
      signing key (checked before the signature), and the signature must
      verify. On success only the owner and UpdatedAt change, and one TRANSFER
      entry is appended to the log. Only that key is written. */
  function Transfer(p: Primitives, w: World, tx: Timestamp, dppId: string, newOwnerDid: string,
                    originalMessage: string, signedBase64: string, publicKeyBase64: string): (s: Step)
    ensures dppId !in w ==> s == Step(Fail(DoesNotExist(dppId)), w)
    ensures dppId in w && w[dppId].ownerDid != publicKeyBase64 ==> s == Step(Fail(Unauthorized), w)
    ensures s.outcome.Pass? <==>
              && dppId in w && w[dppId].ownerDid == publicKeyBase64
              && VerifySignature(p, originalMessage, signedBase64, publicKeyBase64).Pass?
    ensures s.outcome.Fail? ==> s.world == w
    ensures s.world.Keys == w.Keys
    ensures s.world - {dppId} == w - {dppId}
    ensures s.outcome.Pass? ==>
              s.world[dppId] == w[dppId].(ownerDid := newOwnerDid, updatedAt := Instant(tx),
                                          auditLog := w[dppId].auditLog + [Entry("TRANSFER", publicKeyBase64, tx)])
    ensures IdsMatchKeys(w) ==> IdsMatchKeys(s.world)
  {
    match Read(w, dppId)
    case Err(e) => Step(Fail(e), w)
    case Ok(dpp) =>
      if dpp.ownerDid != publicKeyBase64 then Step(Fail(Unauthorized), w)
      else
        match VerifySignature(p, originalMessage, signedBase64, publicKeyBase64)
        case Fail(e) => Step(Fail(SignatureError(e)), w)
        case Pass =>
          var t := Instant(tx);
          var moved := dpp.(ownerDid := newOwnerDid, updatedAt := t,
                            auditLog := dpp.auditLog + [Entry("TRANSFER", publicKeyBase64, tx)]);
          Step(Pass, w[dppId := moved])
  }

  method TransferDPPWithSignature(stub: Stub<DPP>, p: Primitives, tx: Timestamp, dppId: string,
                                  newOwnerDid: string, originalMessage: string, signedBase64: string,
                                  publicKeyBase64: string) returns (r: Outcome<Error>)
    modifies stub
    ensures Step(r, stub.state) == Transfer(p, old(stub.state), tx, dppId, newOwnerDid,
                                            originalMessage, signedBase64, publicKeyBase64)
  {
    var read := ReadDPP(stub, dppId);
    if read.Err? {
      return Fail(read.error);
    }
    var dpp := read.value;
    if dpp.ownerDid != publicKeyBase64 {
      return Fail(Unauthorized);
    }
    var verified := VerifySignature(p, originalMessage, signedBase64, publicKeyBase64);
    if verified.Fail? {
      return Fail(SignatureError(verified.error));
    }
    var txTimestamp := Instant(tx);
    dpp := dpp.(ownerDid := newOwnerDid);
    dpp := dpp.(updatedAt := txTimestamp);
    dpp := dpp.(auditLog := dpp.auditLog + [AuditLogEntry("TRANSFER", publicKeyBase64, AuditTime(txTimestamp))]);
    stub.PutState(dppId, dpp);
    return Pass;
  }

  // --------------------------------------------------- CreateDPPWithSignature

  /** CreateDPPWithSignature: refuses a present key, then any triple that does
      not verify. On success the record holds the arguments (the owner is the
      `owner_did` argument, not the signer) and a log of one CREATE entry
      signed by the caller's key. Only that key is written. */
  function Create(p: Primitives, w: World, tx: Timestamp, dppId: string, a: Payload,
                  originalMessage: string, signedBase64: string, publicKeyBase64: string): (s: Step)
    ensures dppId in w ==> s == Step(Fail(AlreadyExists(dppId)), w)
    ensures s.outcome.Pass? <==>
              dppId !in w && VerifySignature(p, originalMessage, signedBase64, publicKeyBase64).Pass?
    ensures s.outcome.Fail? ==> s.world == w
    ensures s.outcome.Pass? ==> s.world.Keys == w.Keys + {dppId}
    ensures s.world - {dppId} == w - {dppId}
    ensures s.outcome.Pass? ==>
              var d := s.world[dppId];
              && d.dppId == dppId && d.ownerDid == a.ownerDid && d.serialNumber == a.serialNumber
              && d.status == a.status && d.permissions == a.permissions && d.productName == a.productName
              && d.components == a.components && d.updatedAt == Instant(tx)
              && d.auditLog == [Entry("CREATE", publicKeyBase64, tx)]
    ensures IdsMatchKeys(w) ==> IdsMatchKeys(s.world)
  {
    if dppId in w then Step(Fail(AlreadyExists(dppId)), w)
    else
      match VerifySignature(p, originalMessage, signedBase64, publicKeyBase64)
      case Fail(e) => Step(Fail(SignatureError(e)), w)
      case Pass =>
        var dpp := DPP(auditLog := [Entry("CREATE", publicKeyBase64, tx)], components := a.components,
                       dppId := dppId, ownerDid := a.ownerDid, permissions := a.permissions,
                       productName := a.productName, serialNumber := a.serialNumber, status := a.status,
                       updatedAt := Instant(tx));
        Step(Pass, w[dppId := dpp])
  }

  method CreateDPPWithSignature(stub: Stub<DPP>, p: Primitives, tx: Timestamp, dppId: string,
                                ownerDid: string, serialNumber: string, status: string,
                                permissions: seq<string>, productName: string, components: seq<string>,
                                originalMessage: string, signedBase64: string, publicKeyBase64: string)
    returns (r: Outcome<Error>)
    modifies stub
    ensures Step(r, stub.state) ==
              Create(p, old(stub.state), tx, dppId,
                     Payload(ownerDid, serialNumber, status, permissions, productName, components),
                     originalMessage, signedBase64, publicKeyBase64)
  {
    var present := DPPExists(stub, dppId);
    if present {
      return Fail(AlreadyExists(dppId));
    }
    var verified := VerifySignature(p, originalMessage, signedBase64, publicKeyBase64);
    if verified.Fail? {
      return Fail(SignatureError(verified.error));
    }
    var txTimestamp := Instant(tx);
    var newAuditLog := AuditLogEntry("CREATE", publicKeyBase64, AuditTime(txTimestamp));
    var dpp := DPP(auditLog := [newAuditLog], components := components, dppId := dppId,
                   ownerDid := ownerDid, permissions := permissions, productName := productName,
                   serialNumber := serialNumber, status := status, updatedAt := txTimestamp);
    stub.PutState(dppId, dpp);
    return Pass;
  }

  // --------------------------------------------------- UpdateDPPWithSignature

  /** UpdateDPPWithSignature: refuses an absent key, then any triple that does
      not verify; there is no owner check. On success the six record fields and
      UpdatedAt are overwritten, the DPPID is kept, and one UPDATE entry is
      appended to the existing log. Only that key is written. */
  function Update(p: Primitives, w: World, tx: Timestamp, dppId: string, a: Payload,
                  originalMessage: string, signedBase64: string, publicKeyBase64: string): (s: Step)
    ensures dppId !in w ==> s == Step(Fail(DoesNotExist(dppId)), w)
    ensures s.outcome.Pass? <==>
              dppId in w && VerifySignature(p, originalMessage, signedBase64, publicKeyBase64).Pass?
    ensures s.outcome.Fail? ==> s.world == w
    ensures s.world.Keys == w.Keys
    ensures s.world - {dppId} == w - {dppId}
    ensures s.outcome.Pass? ==>
              var d := s.world[dppId];
              && d.dppId == w[dppId].dppId && d.ownerDid == a.ownerDid && d.serialNumber == a.serialNumber
              && d.status == a.status && d.permissions == a.permissions && d.productName == a.productName
              && d.components == a.components && d.updatedAt == Instant(tx)
              && d.auditLog == w[dppId].auditLog + [Entry("UPDATE", publicKeyBase64, tx)]
    ensures IdsMatchKeys(w) ==> IdsMatchKeys(s.world)
  {
    if dppId !in w then Step(Fail(DoesNotExist(dppId)), w)
    else
      match VerifySignature(p, originalMessage, signedBase64, publicKeyBase64)
      case Fail(e) => Step(Fail(SignatureError(e)), w)
      case Pass =>
        var dpp := w[dppId];
        var updated := dpp.(ownerDid := a.ownerDid, serialNumber := a.serialNumber, status := a.status,
                            permissions := a.permissions, productName := a.productName,
                            components := a.components, updatedAt := Instant(tx),
                            auditLog := dpp.auditLog + [Entry("UPDATE", publicKeyBase64, tx)]);
        Step(Pass, w[dppId := updated])
  }

  method UpdateDPPWithSignature(stub: Stub<DPP>, p: Primitives, tx: Timestamp, dppId: string,
                                ownerDid: string, serialNumber: string, status: string,
                                permissions: seq<string>, productName: string, components: seq<string>,
                                originalMessage: string, signedBase64: string, publicKeyBase64: string)
    returns (r: Outcome<Error>)
    modifies stub
    ensures Step(r, stub.state) ==
              Update(p, old(stub.state), tx, dppId,
                     Payload(ownerDid, serialNumber, status, permissions, productName, components),
                     originalMessage, signedBase64, publicKeyBase64)
  {
    var present := DPPExists(stub, dppId);
    if !present {
      return Fail(DoesNotExist(dppId));
    }
    var verified := VerifySignature(p, originalMessage, signedBase64, publicKeyBase64);
    if verified.Fail? {
      return Fail(SignatureError(verified.error));
    }
    var read := ReadDPP(stub, dppId);
    assert read.Ok?;  // the key is present, so the second read cannot fail here
    var dpp := read.value;
    var txTimestamp := Instant(tx);
    var newAuditLog := AuditLogEntry("UPDATE", publicKeyBase64, AuditTime(txTimestamp));
    dpp := dpp.(ownerDid := ownerDid);
    dpp := dpp.(serialNumber := serialNumber);
    dpp := dpp.(status := status);
    dpp := dpp.(permissions := permissions);
    dpp := dpp.(productName := productName);
    dpp := dpp.(components := components);
    dpp := dpp.(updatedAt := txTimestamp);
    dpp := dpp.(auditLog := dpp.auditLog + [newAuditLog]);
    stub.PutState(dppId, dpp);
    return Pass;
  }

  // ------------------------------------------- what the signature does not bind

  /** Whether a create or an update succeeds never depends on its record
      arguments, its transaction time, or on what the message says: only on
      the key's presence and on the triple verifying. */
  lemma ContentIsNotChecked(p: Primitives, w: World, tx1: Timestamp, tx2: Timestamp, dppId: string,
                            a1: Payload, a2: Payload, m: string, sig: string, key: string)
    ensures Create(p, w, tx1, dppId, a1, m, sig, key).outcome == Create(p, w, tx2, dppId, a2, m, sig, key).outcome
    ensures Update(p, w, tx1, dppId, a1, m, sig, key).outcome == Update(p, w, tx2, dppId, a2, m, sig, key).outcome
  {
  }

  /** Replay: any triple once accepted by a create (for instance one captured
      from another user's request) authorises every later create of an absent
      id and every update of a present id, with arbitrary record arguments. */
  lemma CapturedTripleAuthorisesAnyWrite(p: Primitives, w: World, tx: Timestamp, dppId: string, a: Payload,
                                         m: string, sig: string, key: string,
                                         w2: World, tx2: Timestamp, otherId: string, b: Payload)
    requires Create(p, w, tx, dppId, a, m, sig, key).outcome.Pass?
    ensures otherId !in w2 ==> Create(p, w2, tx2, otherId, b, m, sig, key).outcome.Pass?
    ensures otherId in w2 ==> Update(p, w2, tx2, otherId, b, m, sig, key).outcome.Pass?
  {
  }

  /** Replay for transfers: a triple once accepted by a transfer moves any
      record still owned by that key, to any new owner. */
  lemma CapturedTransferTriple(p: Primitives, w: World, tx: Timestamp, dppId: string, newOwner: string,
                               m: string, sig: string, key: string,
                               w2: World, tx2: Timestamp, otherId: string, otherOwner: string)
    requires Transfer(p, w, tx, dppId, newOwner, m, sig, key).outcome.Pass?
    requires otherId in w2 && w2[otherId].ownerDid == key
    ensures Transfer(p, w2, tx2, otherId, otherOwner, m, sig, key).outcome.Pass?
  {
  }
}
