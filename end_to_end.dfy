/** The signing protocol end to end: a request built by signedFetch with a
    secret key made by `nacl.sign.keyPair()` reaches the signed chaincode,
    through the gateway's argument lists, with a triple that VerifySignature
    accepts. This is what ties the client's hashing and encoding choices to
    the chaincode's. */
module EndToEnd {
  import opened Wrappers
  import opened Crypto
  import opened Json
  import opened Models
  import opened SigningClient
  import SignedChaincode
  import DppChaincode
  import DppRoutes

  /** The signature triple as the gateway's three last arguments. */
  function TripleArgs(t: SignedTriple): seq<DppRoutes.Arg>
  {
    [DppRoutes.Verbatim(Some(JString(t.originalMessage))),
     DppRoutes.Verbatim(Some(JString(t.signedBase64))),
     DppRoutes.Verbatim(Some(JString(t.publicKeyBase64)))]
  }

  /** A triple signTransaction makes with a well-formed key verifies. */
  lemma SignedTripleVerifies(p: Primitives, message: string, keyBase64: string)
    requires Lawful(p)
    requires p.decode64(keyBase64).Ok? && WellFormedSecretKey(p, p.decode64(keyBase64).value)
    ensures SignTransaction(p, message, keyBase64).Ok?
    ensures var t := SignTransaction(p, message, keyBase64).value;
            SignedChaincode.VerifySignature(p, t.originalMessage, t.signedBase64, t.publicKeyBase64).Pass?
  {
    var sk := p.decode64(keyBase64).value;
    var t := SignTransaction(p, message, keyBase64).value;
    var digest := p.sha256(p.utf8(message));
    assert p.decode64(t.publicKeyBase64) == Ok(sk[SeedSize..]);
    assert p.decode64(t.signedBase64) == Ok(p.sign(sk, digest));
    assert p.verify(sk[SeedSize..], digest, p.sign(sk, digest));
  }

  /** The gateway forwards the triple signedFetch merged into the body as the
      last three arguments of the create and edit calls and of the transfer call. */
  lemma RelayKeepsTriple(p: Primitives, url: string, body: Object, message: string, keyBase64: string,
                         freshId: string)
    requires SignedFetch(p, url, None, body, message, keyBase64).Ok?
    ensures var (req, t) := (SignedFetch(p, url, None, body, message, keyBase64).value,
                             SignTransaction(p, message, keyBase64).value);
            var http := DppRoutes.HttpRequest(map[], req.body);
            && req.httpMethod == "POST"
            && DppRoutes.CallFor(DppRoutes.CreateDPP, http, freshId).args[7..] == TripleArgs(t)
            && DppRoutes.CallFor(DppRoutes.EditDPP, http, freshId).args[7..] == TripleArgs(t)
            && DppRoutes.CallFor(DppRoutes.TransferDPP, http, freshId).args[2..] == TripleArgs(t)
  {
  }

  /** A signed create of a fresh id is stored, whatever record it carries. */
  lemma SignedCreateIsStored(p: Primitives, w: DppChaincode.World, tx: Timestamp, message: string,
                             keyBase64: string, freshId: string, a: SignedChaincode.Payload)
    requires Lawful(p)
    requires p.decode64(keyBase64).Ok? && WellFormedSecretKey(p, p.decode64(keyBase64).value)
    requires freshId !in w
    ensures SignTransaction(p, message, keyBase64).Ok?
    ensures var t := SignTransaction(p, message, keyBase64).value;
            var s := SignedChaincode.Create(p, w, tx, freshId, a, t.originalMessage, t.signedBase64, t.publicKeyBase64);
            s.outcome.Pass? && freshId in s.world && s.world[freshId].auditLog[0].signedBy == t.publicKeyBase64
  {
    SignedTripleVerifies(p, message, keyBase64);
  }

  /** A signed edit of a stored record is applied, by any holder of a
      well-formed key: the update does not compare the signer with the owner. */
  lemma SignedEditIsApplied(p: Primitives, w: DppChaincode.World, tx: Timestamp, message: string,
                            keyBase64: string, dppId: string, a: SignedChaincode.Payload)
    requires Lawful(p)
    requires p.decode64(keyBase64).Ok? && WellFormedSecretKey(p, p.decode64(keyBase64).value)
    requires dppId in w
    ensures SignTransaction(p, message, keyBase64).Ok?
    ensures var t := SignTransaction(p, message, keyBase64).value;
            SignedChaincode.Update(p, w, tx, dppId, a, t.originalMessage, t.signedBase64, t.publicKeyBase64).outcome.Pass?
  {
    SignedTripleVerifies(p, message, keyBase64);
  }

  /** A signed transfer succeeds exactly when the stored owner is the base64
      public key the client derives from its secret key. */
  lemma SignedTransferByOwner(p: Primitives, w: DppChaincode.World, tx: Timestamp, message: string,
                              keyBase64: string, dppId: string, newOwnerDid: string)
    requires Lawful(p)
    requires p.decode64(keyBase64).Ok? && WellFormedSecretKey(p, p.decode64(keyBase64).value)
    requires dppId in w
    ensures GetPublicKeyFromPrivateKey(p, keyBase64).Ok?
    ensures var t := SignTransaction(p, message, keyBase64).value;
            SignedChaincode.Transfer(p, w, tx, dppId, newOwnerDid, t.originalMessage, t.signedBase64, t.publicKeyBase64).outcome.Pass?
            <==> w[dppId].ownerDid == GetPublicKeyFromPrivateKey(p, keyBase64).value
  {
    SignedTripleVerifies(p, message, keyBase64);
  }
}
