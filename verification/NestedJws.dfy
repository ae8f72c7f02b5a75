/**
 The JWS carried inside another request: account key rollover (crates/core/src/key_change.rs, section 7.3.5 of
 RFC 8555) and external account binding (crates/core/src/eab.rs, section 7.3.4). JSON decoding, signatures and
 MACs are foreign code and appear as arbitrary functions; base64url is not.
 */
module NestedJws {
  import opened Prelude
  import opened Base64Url
  import opened Strings

  datatype Jwk = RSA(n: string, e: string) | EC(crv: string, x: string, y: string)

  datatype Jws = Jws(header: string, payload: string, signature: string)

  datatype InnerHeader = InnerHeader(alg: string, jwk: Jwk, url: string)

  datatype InnerPayload = InnerPayload(account: string, oldKey: Jwk)

  datatype EabHeader = EabHeader(alg: string, kid: string, url: string)

  datatype Refusal = Malformed | BadSignature | Internal

  datatype SignatureError = BadShape | BadAlgorithm | DoesNotVerify | Encoding

  /** The foreign code: `serde_json` on three types, the signature check and the MAC check. */
  datatype Foreign = Foreign(
    innerHeader: seq<byte> -> Option<InnerHeader>,
    innerPayload: seq<byte> -> Option<InnerPayload>,
    eabHeader: seq<byte> -> Option<EabHeader>,
    jwk: seq<byte> -> Option<Jwk>,
    verify: (string, Jwk, string, string) -> Result<seq<byte>, SignatureError>,
    mac: (seq<byte>, string, seq<byte>) -> bool)

  const SUPPORTED_ALG := "HS256"

  function SigningInput(jws: Jws): string { jws.header + "." + jws.payload }

  // ---------------------------------------------------------------------------------------------
  // keyChange

  function ParseHeader(f: Foreign, inner: Jws, expectedUrl: string): Result<InnerHeader, Refusal> {
    match Decode(inner.header)
    case None => Err(Malformed)
    case Some(bytes) =>
      match f.innerHeader(bytes)
      case None => Err(Malformed)
      case Some(header) => if header.url != expectedUrl then Err(Malformed) else Ok(header)
  }

  function VerifySignature(f: Foreign, inner: Jws, header: InnerHeader): Result<seq<byte>, Refusal> {
    match f.verify(header.alg, header.jwk, SigningInput(inner), inner.signature)
    case Ok(der) => Ok(der)
    case Err(BadShape) => Err(Malformed)
    case Err(BadAlgorithm) => Err(Malformed)
    case Err(DoesNotVerify) => Err(BadSignature)
    case Err(Encoding) => Err(Internal)
  }

  function VerifyPayload(f: Foreign, inner: Jws, account: string, oldKey: Jwk): Result<InnerPayload, Refusal> {
    match Decode(inner.payload)
    case None => Err(Malformed)
    case Some(bytes) =>
      match f.innerPayload(bytes)
      case None => Err(Malformed)
      case Some(payload) =>
        if payload.account != account then Err(Malformed)
        else if payload.oldKey != oldKey then Err(Malformed)
        else Ok(payload)
  }

  /** The three checks in the order the account service makes them; the answer is the new key. */
  function KeyChange(f: Foreign, inner: Jws, url: string, account: string, oldKey: Jwk): Result<seq<byte>, Refusal> {
    match ParseHeader(f, inner, url)
    case Err(e) => Err(e)
    case Ok(header) =>
      match VerifySignature(f, inner, header)
      case Err(e) => Err(e)
      case Ok(newKey) =>
        match VerifyPayload(f, inner, account, oldKey)
        case Err(e) => Err(e)
        case Ok(_) => Ok(newKey)
  }

  // ---------------------------------------------------------------------------------------------
  // External account binding

  function ParseEabHeader(f: Foreign, eab: Jws, expectedUrl: string): Result<EabHeader, Refusal> {
    match Decode(eab.header)
    case None => Err(Malformed)
    case Some(bytes) =>
      match f.eabHeader(bytes)
      case None => Err(Malformed)
      case Some(header) =>
        if header.alg != SUPPORTED_ALG then Err(Malformed)
        else if header.url != expectedUrl then Err(Malformed)
        else Ok(header)
  }

  function VerifyPayloadAndSignature(f: Foreign, eab: Jws, secret: seq<byte>, outerJwk: Jwk): Result<(), Refusal> {
    match Decode(eab.payload)
    case None => Err(Malformed)
    case Some(bytes) =>
      match f.jwk(bytes)
      case None => Err(Malformed)
      case Some(jwk) =>
        if jwk != outerJwk then Err(Malformed)
        else match Decode(eab.signature)
          case None => Err(Malformed)
          case Some(tag) => if f.mac(secret, SigningInput(eab), tag) then Ok(()) else Err(BadSignature)
  }

  /** Both checks, with the active secrets by `kid`; the answer is the credential used. */
  function ExternalAccount(f: Foreign, eab: Jws, secrets: map<string, seq<byte>>, url: string, outerJwk: Jwk): Result<string, Refusal> {
    match ParseEabHeader(f, eab, url)
    case Err(e) => Err(e)
    case Ok(header) =>
      if header.kid !in secrets then Err(BadSignature)
      else match VerifyPayloadAndSignature(f, eab, secrets[header.kid], outerJwk)
        case Err(e) => Err(e)
        case Ok(_) => Ok(header.kid)
  }

  // ---------------------------------------------------------------------------------------------
  // What acceptance means

  /** A string that was signed over splits in one way only into a header and a payload that decode. */
  lemma SigningInputSplitsOneWay(a: Jws, b: Jws)
    requires SigningInput(a) == SigningInput(b)
    requires Decode(a.header).Some? && Decode(b.header).Some?
    ensures a.header == b.header && a.payload == b.payload
  {
    DecodableIsPlain(a.header);
    DecodableIsPlain(b.header);
    SplitOnceIs(a.header, '.', a.payload);
    SplitOnceIs(b.header, '.', b.payload);
  }

  /**
   Whoever holds the new key signed exactly one thing: two accepted rollovers over the same signed string are
   for the same URL, account, old key and new-key header, so a captured one can be replayed onto no other.
   */
  lemma KeyChangeBindsOneRequest(f: Foreign, a: Jws, b: Jws,
                                 url: string, account: string, oldKey: Jwk,
                                 url': string, account': string, oldKey': Jwk)
    requires KeyChange(f, a, url, account, oldKey).Ok? && KeyChange(f, b, url', account', oldKey').Ok?
    requires SigningInput(a) == SigningInput(b)
    ensures url == url' && account == account' && oldKey == oldKey'
    ensures ParseHeader(f, a, url) == ParseHeader(f, b, url')
  {
    SigningInputSplitsOneWay(a, b);
  }

  /** The inner JWS is these bytes, and they name this request. */
  predicate NamesRequest(f: Foreign, inner: Jws, h: seq<byte>, p: seq<byte>, url: string, account: string, oldKey: Jwk) {
    && inner.header == Encode(h) && inner.payload == Encode(p)
    && f.innerHeader(h).Some? && f.innerHeader(h).value.url == url
    && f.innerPayload(p) == Some(InnerPayload(account, oldKey))
  }

  /**
   A rollover to `newKey` is accepted if and only if the key in its own header, which is `newKey`, signed a header
   and a payload that name this request.
   */
  lemma KeyChangeMeans(f: Foreign, inner: Jws, url: string, account: string, oldKey: Jwk, newKey: seq<byte>)
    ensures KeyChange(f, inner, url, account, oldKey) == Ok(newKey) <==>
            exists h: seq<byte>, p: seq<byte> ::
              && NamesRequest(f, inner, h, p, url, account, oldKey)
              && f.verify(f.innerHeader(h).value.alg, f.innerHeader(h).value.jwk, Encode(h) + "." + Encode(p), inner.signature)
                 == Ok(newKey)
  {
    if KeyChange(f, inner, url, account, oldKey) == Ok(newKey) {
      EncodeDecode(inner.header);
      EncodeDecode(inner.payload);
      var h, p := Decode(inner.header).value, Decode(inner.payload).value;
      assert NamesRequest(f, inner, h, p, url, account, oldKey);
    }
    forall h: seq<byte>, p: seq<byte> |
      && NamesRequest(f, inner, h, p, url, account, oldKey)
      && f.verify(f.innerHeader(h).value.alg, f.innerHeader(h).value.jwk, Encode(h) + "." + Encode(p), inner.signature)
         == Ok(newKey)
      ensures KeyChange(f, inner, url, account, oldKey) == Ok(newKey)
    {
      DecodeEncode(h);
      DecodeEncode(p);
    }
  }

  /** A rollover is refused for its signature if and only if its header names the URL and the check itself says no. */
  lemma KeyChangeRefusedForSignature(f: Foreign, inner: Jws, url: string, account: string, oldKey: Jwk)
    ensures KeyChange(f, inner, url, account, oldKey) == Err(BadSignature) <==>
            exists h: seq<byte> ::
              && inner.header == Encode(h) && f.innerHeader(h).Some? && f.innerHeader(h).value.url == url
              && f.verify(f.innerHeader(h).value.alg, f.innerHeader(h).value.jwk, SigningInput(inner), inner.signature)
                 == Err(DoesNotVerify)
  {
    if Decode(inner.header).Some? { EncodeDecode(inner.header); }
    forall h: seq<byte> | inner.header == Encode(h) ensures Decode(inner.header) == Some(h) { DecodeEncode(h); }
  }

  /** The binding is these bytes: it names this URL and credential, and carries this account key. */
  predicate NamesAccount(f: Foreign, eab: Jws, h: seq<byte>, p: seq<byte>, tag: seq<byte>, kid: string, url: string, jwk: Jwk) {
    && eab.header == Encode(h) && eab.payload == Encode(p) && eab.signature == Encode(tag)
    && f.eabHeader(h) == Some(EabHeader("HS256", kid, url))
    && f.jwk(p) == Some(jwk)
  }

  /** A binding is accepted for a credential if and only if the credential's own secret made its tag over this request. */
  lemma ExternalAccountMeans(f: Foreign, eab: Jws, secrets: map<string, seq<byte>>, url: string, jwk: Jwk, kid: string)
    ensures ExternalAccount(f, eab, secrets, url, jwk) == Ok(kid) <==>
            exists h: seq<byte>, p: seq<byte>, tag: seq<byte> ::
              && NamesAccount(f, eab, h, p, tag, kid, url, jwk)
              && kid in secrets && f.mac(secrets[kid], Encode(h) + "." + Encode(p), tag)
  {
    if ExternalAccount(f, eab, secrets, url, jwk) == Ok(kid) {
      EncodeDecode(eab.header);
      EncodeDecode(eab.payload);
      EncodeDecode(eab.signature);
      var h, p, tag := Decode(eab.header).value, Decode(eab.payload).value, Decode(eab.signature).value;
      assert NamesAccount(f, eab, h, p, tag, kid, url, jwk);
    }
    forall h: seq<byte>, p: seq<byte>, tag: seq<byte> |
      && NamesAccount(f, eab, h, p, tag, kid, url, jwk)
      && kid in secrets && f.mac(secrets[kid], Encode(h) + "." + Encode(p), tag)
      ensures ExternalAccount(f, eab, secrets, url, jwk) == Ok(kid)
    {
      DecodeEncode(h);
      DecodeEncode(p);
      DecodeEncode(tag);
    }
  }

  /**
   A binding that names this URL is refused for its signature if and only if its credential is not an active one, or
   it carries this account key and the tag is not the secret's.
   */
  lemma ExternalAccountRefusedForSignature(f: Foreign, eab: Jws, secrets: map<string, seq<byte>>, url: string, jwk: Jwk,
                                           h: seq<byte>, kid: string)
    requires eab.header == Encode(h) && f.eabHeader(h) == Some(EabHeader("HS256", kid, url))
    ensures ExternalAccount(f, eab, secrets, url, jwk) == Err(BadSignature) <==>
            || kid !in secrets
            || exists p: seq<byte>, tag: seq<byte> ::
                 NamesAccount(f, eab, h, p, tag, kid, url, jwk) && !f.mac(secrets[kid], SigningInput(eab), tag)
  {
    DecodeEncode(h);
    if Decode(eab.payload).Some? { EncodeDecode(eab.payload); }
    if Decode(eab.signature).Some? { EncodeDecode(eab.signature); }
    if ExternalAccount(f, eab, secrets, url, jwk) == Err(BadSignature) && kid in secrets {
      assert NamesAccount(f, eab, h, Decode(eab.payload).value, Decode(eab.signature).value, kid, url, jwk);
    }
    forall p: seq<byte>, tag: seq<byte> | NamesAccount(f, eab, h, p, tag, kid, url, jwk)
      ensures Decode(eab.payload) == Some(p) && Decode(eab.signature) == Some(tag)
    {
      DecodeEncode(p);
      DecodeEncode(tag);
    }
  }

  /** A credential's tag vouches for one request URL and one account key. */
  lemma ExternalAccountBindsOneKey(f: Foreign, a: Jws, b: Jws, secrets: map<string, seq<byte>>,
                                   url: string, jwk: Jwk, url': string, jwk': Jwk)
    requires ExternalAccount(f, a, secrets, url, jwk).Ok? && ExternalAccount(f, b, secrets, url', jwk').Ok?
    requires SigningInput(a) == SigningInput(b)
    ensures url == url' && jwk == jwk'
    ensures ExternalAccount(f, a, secrets, url, jwk) == ExternalAccount(f, b, secrets, url', jwk')
  {
    SigningInputSplitsOneWay(a, b);
  }
}
