/** The client side of the signing protocol (signTransaction.js): recovering
    the public key from a base64 secret key, signing a message, and building
    the signed request body. */
module SigningClient {
  import opened Wrappers
  import opened Crypto
  import opened Json

  /** The exceptions the two tweetnacl libraries throw. */
  datatype ClientError =
    | InvalidEncoding    // decodeBase64: "invalid encoding"
    | BadSecretKeySize   // nacl.sign.keyPair.fromSecretKey: "bad secret key size"

  datatype KeyPair = KeyPair(publicKey: Bytes, secretKey: Bytes)

  /** The signature triple that `signTransaction` returns. */
  datatype SignedTriple = SignedTriple(originalMessage: string, signedBase64: string, publicKeyBase64: string)

  /** decodeBase64 from tweetnacl-util: the decoded bytes, or an exception. */
  function DecodeBase64(p: Primitives, text: string): (r: Result<Bytes, ClientError>)
    ensures r.Ok? <==> p.decode64(text).Ok?
    ensures r.Ok? ==> r.value == p.decode64(text).value
    ensures r.Err? ==> r.error == InvalidEncoding
  {
    match p.decode64(text)
    case Ok(bytes) => Ok(bytes)
    case Err(_) => Err(InvalidEncoding)
  }

  /** nacl.sign.keyPair.fromSecretKey: refuses a key that is not 64 bytes; the
      public key is a copy of the last 32 bytes, not recomputed from the seed. */
  function KeyPairFromSecretKey(sk: Bytes): (r: Result<KeyPair, ClientError>)
    ensures r.Ok? <==> |sk| == SecretKeySize
    ensures r.Err? ==> r.error == BadSecretKeySize
    ensures r.Ok? ==> r.value.secretKey == sk && sk[..SeedSize] + r.value.publicKey == sk
  {
    if |sk| != SecretKeySize then Err(BadSecretKeySize)
    else Ok(KeyPair(publicKey := sk[SeedSize..], secretKey := sk))
  }

  /** getPublicKeyFromPrivateKey: the base64 public half of a base64 secret key.
      It is a function of the secret key alone; for a key made by
      `nacl.sign.keyPair()` it is the key derived from the seed, and under the
      base64 law it decodes back to the key's public half. */
  function GetPublicKeyFromPrivateKey(p: Primitives, privateKeyBase64: string): (r: Result<string, ClientError>)
    ensures r.Ok? <==> p.decode64(privateKeyBase64).Ok? && |p.decode64(privateKeyBase64).value| == SecretKeySize
    ensures r.Ok? && Lawful(p) ==> p.decode64(r.value) == Ok(p.decode64(privateKeyBase64).value[SeedSize..])
    ensures p.decode64(privateKeyBase64).Ok? && WellFormedSecretKey(p, p.decode64(privateKeyBase64).value) ==>
              r == Ok(p.encode64(p.derivePublic(p.decode64(privateKeyBase64).value[..SeedSize])))
  {
    match DecodeBase64(p, privateKeyBase64)
    case Err(e) => Err(e)
    case Ok(secretKey) =>
      match KeyPairFromSecretKey(secretKey)
      case Err(e) => Err(e)
      case Ok(keypair) => Ok(p.encode64(keypair.publicKey))
  }

  /** signTransaction: signs the SHA-256 digest of the message's UTF-8 bytes
      (not the message itself) and returns the message unchanged, the base64
      signature and the base64 public key. */
  function SignTransaction(p: Primitives, message: string, ownerKeyBase64: string): (r: Result<SignedTriple, ClientError>)
    ensures r.Ok? <==> GetPublicKeyFromPrivateKey(p, ownerKeyBase64).Ok?
    ensures r.Ok? ==> r.value.originalMessage == message
    ensures r.Ok? ==> GetPublicKeyFromPrivateKey(p, ownerKeyBase64) == Ok(r.value.publicKeyBase64)
    ensures r.Ok? && Lawful(p) ==>
              p.decode64(r.value.signedBase64) ==
              Ok(p.sign(p.decode64(ownerKeyBase64).value, p.sha256(p.utf8(message))))
  {
    match DecodeBase64(p, ownerKeyBase64)
    case Err(e) => Err(e)
    case Ok(secretKey) =>
      match KeyPairFromSecretKey(secretKey)
      case Err(e) => Err(e)
      case Ok(keypair) =>
        var msgBytes := p.utf8(message);
        var hashBytes := p.sha256(msgBytes);
        var signature := p.sign(keypair.secretKey, hashBytes);
        Ok(SignedTriple(originalMessage := message,
                        signedBase64 := p.encode64(signature),
                        publicKeyBase64 := p.encode64(keypair.publicKey)))
  }

  /** The three body keys the signature triple is written under. */
  const SignatureKeys: set<string> := {"original_message", "signed_base64", "public_key_base64"}

  /** `{ ...body, original_message, signed_base64, public_key_base64 }`: every
      caller key is kept, except that the three signature keys always take the
      triple's values. */
  function WithSignature(body: Object, t: SignedTriple): (r: Object)
    ensures r.Keys == body.Keys + SignatureKeys
    ensures forall k :: k in body && k !in SignatureKeys ==> r[k] == body[k]
    ensures r["original_message"] == JString(t.originalMessage)
    ensures r["signed_base64"] == JString(t.signedBase64)
    ensures r["public_key_base64"] == JString(t.publicKeyBase64)
  {
    body["original_message" := JString(t.originalMessage)]
        ["signed_base64" := JString(t.signedBase64)]
        ["public_key_base64" := JString(t.publicKeyBase64)]
  }

  /** The request `signedFetch` hands to `fetch`. */
  datatype Request = Request(url: string, httpMethod: string, contentType: string, body: Object)

  /** signedFetch: signs the message and posts (unless another method is given)
      the body merged with the signature triple, as JSON. */
  function SignedFetch(p: Primitives, url: string, httpMethod: Option<string>, body: Object,
                       message: string, secretKey: string): (r: Result<Request, ClientError>)
    ensures r.Ok? <==> SignTransaction(p, message, secretKey).Ok?
    ensures r.Ok? ==> r.value.url == url && r.value.contentType == "application/json"
    ensures r.Ok? ==> r.value.httpMethod == if httpMethod.Some? then httpMethod.value else "POST"
    ensures r.Ok? ==> r.value.body == WithSignature(body, SignTransaction(p, message, secretKey).value)
  {
    match SignTransaction(p, message, secretKey)
    case Err(e) => Err(e)
    case Ok(t) =>
      Ok(Request(url := url, httpMethod := if httpMethod.Some? then httpMethod.value else "POST",
                 contentType := "application/json", body := WithSignature(body, t)))
  }
}
