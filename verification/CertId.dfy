/**
 The ACME Renewal Information certID (section 4.1 of RFC 9773) and certificate serials, as printed and read
 in crates/core/src/cert.rs.
 */
module CertId {
  import opened Prelude
  import opened Base64Url
  import opened Strings

  datatype AriCertId = AriCertId(aki: seq<byte>, serial: seq<byte>)

  datatype Malformed = NoDot | ManyDots | EmptyHalf | BadKeyIdentifier | BadSerial

  /** `ari_cert_id`, from the two halves of a certificate. */
  function Render(id: AriCertId): string {
    Encode(id.aki) + "." + Encode(id.serial)
  }

  /** `parse_ari_cert_id`. */
  function Parse(certId: string): Result<AriCertId, Malformed> {
    match SplitOnce(certId, '.')
    case None => Err(NoDot)
    case Some((aki, serial)) =>
      if '.' in serial then Err(ManyDots)
      else if aki == [] || serial == [] then Err(EmptyHalf)
      else match Decode(aki)
        case None => Err(BadKeyIdentifier)
        case Some(a) =>
          match Decode(serial)
          case None => Err(BadSerial)
          case Some(s) => Ok(AriCertId(a, s))
  }

  /**
   Printing and parsing undo each other: a string is accepted as `id` exactly when it is the rendering of
   `id` and neither half of `id` is empty.
   */
  lemma ParseIsInverseOfRender(certId: string, id: AriCertId)
    ensures Parse(certId) == Ok(id) <==> certId == Render(id) && id.aki != [] && id.serial != []
  {
    if certId == Render(id) {
      EncodingIsPlain(id.aki);
      EncodingIsPlain(id.serial);
      SplitOnceIs(Encode(id.aki), '.', Encode(id.serial));
      DecodeEncode(id.aki);
      DecodeEncode(id.serial);
    }
    if Parse(certId) == Ok(id) {
      var halves := SplitOnce(certId, '.').value;
      EncodeDecode(halves.0);
      EncodeDecode(halves.1);
      DecodableIsPlain(halves.0);
      DecodableIsPlain(halves.1);
    }
  }

  // ---------------------------------------------------------------------------------------------
  // Serials

  function HexDigit(n: nat): char
    requires n < 16
  {
    if n < 10 then '0' + n as char else 'a' + (n - 10) as char
  }

  /** `AriCertId::serial_hex`. */
  function SerialHex(bs: seq<byte>): (s: string)
    ensures |s| == 2 * |bs|
    ensures forall c :: c in s ==> '0' <= c <= '9' || 'a' <= c <= 'f'
  {
    if bs == [] then [] else [HexDigit(bs[0] as nat / 16), HexDigit(bs[0] as nat % 16)] + SerialHex(bs[1..])
  }

  /** The value of a hexadecimal digit. */
  function HexValue(c: char): nat {
    if '0' <= c <= '9' then (c - '0') as nat else if 'a' <= c <= 'f' then (c - 'a') as nat + 10 else 0
  }

  /** Two digits for each byte, in order, the high one first. */
  lemma {:induction false} SerialHexSpellsBytes(bs: seq<byte>, i: nat)
    requires i < |bs|
    ensures HexValue(SerialHex(bs)[2 * i]) * 16 + HexValue(SerialHex(bs)[2 * i + 1]) == bs[i] as nat
  {
    if i > 0 {
      SerialHexSpellsBytes(bs[1..], i - 1);
      assert SerialHex(bs)[2 * i] == SerialHex(bs[1..])[2 * (i - 1)];
      assert SerialHex(bs)[2 * i + 1] == SerialHex(bs[1..])[2 * (i - 1) + 1];
    }
  }

  /** What an operator's tooling puts between digits. */
  predicate Separator(c: char) {
    c == ':' || c == '-' || c == ' ' || '\t' <= c <= '\r'
  }

  function Lower(c: char): char {
    if 'A' <= c <= 'Z' then c - 'A' + 'a' else c
  }

  /** `normalize_serial`, on ASCII. */
  function Normalize(s: string): string {
    if s == [] then []
    else if Separator(s[0]) then Normalize(s[1..])
    else [Lower(s[0])] + Normalize(s[1..])
  }

  /** `s` is `text` as someone may have pasted it: any letters in upper case, separators anywhere. */
  predicate Pastes(s: string, text: string) {
    if s == [] then text == []
    else if s[0] in ":- \t\n\r" || s[0] in ['\U{b}', '\U{c}'] then Pastes(s[1..], text)
    else
      && text != []
      && (if 'A' <= s[0] <= 'Z' then text[0] == s[0] - 'A' + 'a' else text[0] == s[0])
      && Pastes(s[1..], text[1..])
  }

  lemma {:induction false} NormalizeUndoesPasting(s: string, text: string)
    ensures Normalize(s) == text <==> Pastes(s, text)
  {
    if s != [] {
      if Separator(s[0]) {
        NormalizeUndoesPasting(s[1..], text);
      } else if text != [] {
        NormalizeUndoesPasting(s[1..], text[1..]);
        assert [text[0]] + text[1..] == text;
        assert Normalize(s)[1..] == Normalize(s[1..]);
      }
    }
  }

  /** An operator's spelling of a serial finds it in the stored column exactly when it is a spelling of it. */
  lemma SerialsAreFound(s: string, serial: seq<byte>)
    ensures Normalize(s) == SerialHex(serial) <==> Pastes(s, SerialHex(serial))
  {
    NormalizeUndoesPasting(s, SerialHex(serial));
  }

  lemma HexDigitsDiffer(m: nat, n: nat)
    requires m < 16 && n < 16 && HexDigit(m) == HexDigit(n)
    ensures m == n
  {
  }

  /** No two serials share a stored form. */
  lemma {:induction false} SerialHexIsInjective(a: seq<byte>, b: seq<byte>)
    requires SerialHex(a) == SerialHex(b)
    ensures a == b
  {
    if a != [] && b != [] {
      assert SerialHex(a)[0] == HexDigit(a[0] as nat / 16) && SerialHex(b)[0] == HexDigit(b[0] as nat / 16);
      assert SerialHex(a)[1] == HexDigit(a[0] as nat % 16) && SerialHex(b)[1] == HexDigit(b[0] as nat % 16);
      HexDigitsDiffer(a[0] as nat / 16, b[0] as nat / 16);
      HexDigitsDiffer(a[0] as nat % 16, b[0] as nat % 16);
      assert SerialHex(a)[2..] == SerialHex(a[1..]) && SerialHex(b)[2..] == SerialHex(b[1..]);
      SerialHexIsInjective(a[1..], b[1..]);
      assert [a[0]] + a[1..] == a && [b[0]] + b[1..] == b;
    }
  }
}
