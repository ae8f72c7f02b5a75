/** Unpadded base64url (section 5 of RFC 4648), as strictly decoded by the `BASE64_URL_SAFE_NO_PAD` engine. */
module Base64Url {
  import opened Prelude

  function Symbol(i: nat): (c: char)
    requires i < 64
    ensures c != '.' && c != '='
  {
    if i < 26 then 'A' + i as char
    else if i < 52 then 'a' + (i - 26) as char
    else if i < 62 then '0' + (i - 52) as char
    else if i == 62 then '-'
    else '_'
  }

  /** `n` characters in a row, from `first`. */
  function Letters(first: char, n: nat): (s: string)
    requires first as int + n <= 0x80
    ensures |s| == n && forall k :: 0 <= k < n ==> s[k] == first + k as char
  {
    if n == 0 then [] else Letters(first, n - 1) + [first + (n - 1) as char]
  }

  /** The alphabet, in the order of its values. */
  const ALPHABET: string := Letters('A', 26) + Letters('a', 26) + Letters('0', 10) + "-_"

  lemma SymbolsAreTheAlphabet(i: nat)
    requires i < 64
    ensures |ALPHABET| == 64 && Symbol(i) == ALPHABET[i]
  {
  }

  function Index(c: char): (r: Option<nat>)
    ensures r.Some? ==> r.value < 64 && Symbol(r.value) == c
  {
    if 'A' <= c <= 'Z' then Some((c - 'A') as nat)
    else if 'a' <= c <= 'z' then Some((c - 'a') as nat + 26)
    else if '0' <= c <= '9' then Some((c - '0') as nat + 52)
    else if c == '-' then Some(62)
    else if c == '_' then Some(63)
    else None
  }

  lemma IndexOfSymbol(i: nat)
    requires i < 64
    ensures Index(Symbol(i)) == Some(i)
  {
  }

  /** Three bytes as four sextets, and back. */
  function Sextets(a: byte, b: byte, c: byte): (q: (nat, nat, nat, nat))
    ensures q.0 < 64 && q.1 < 64 && q.2 < 64 && q.3 < 64
    ensures c == 0 ==> q.3 == 0
    ensures b == 0 && c == 0 ==> q.2 == 0
  {
    (a as nat / 4, a as nat % 4 * 16 + b as nat / 16, b as nat % 16 * 4 + c as nat / 64, c as nat % 64)
  }

  function Bytes(w: nat, x: nat, y: nat, z: nat): (t: (byte, byte, byte))
    requires w < 64 && x < 64 && y < 64 && z < 64
  {
    ((w * 4 + x / 16) as byte, (x % 16 * 16 + y / 4) as byte, (y % 4 * 64 + z) as byte)
  }

  /** The four sextets are the twenty-four bits of the three bytes, highest first. */
  lemma SextetsAreTheBits(a: byte, b: byte, c: byte)
    ensures var q := Sextets(a, b, c);
            q.0 * 0x4_0000 + q.1 * 0x1000 + q.2 * 0x40 + q.3 == a as nat * 0x1_0000 + b as nat * 0x100 + c as nat
  {
    var x, y, z := a as nat, b as nat, c as nat;
    assert x == x / 4 * 4 + x % 4 && y == y / 16 * 16 + y % 16 && z == z / 64 * 64 + z % 64;
  }

  lemma SextetsToBytes(a: byte, b: byte, c: byte)
    ensures var q := Sextets(a, b, c); Bytes(q.0, q.1, q.2, q.3) == (a, b, c)
  {
    var x, y, z := a as nat, b as nat, c as nat;
    Remainders(x % 4, y / 16, y % 16, z / 64);
    assert x == x / 4 * 4 + x % 4 && y == y / 16 * 16 + y % 16 && z == z / 64 * 64 + z % 64;
  }

  lemma Remainders(x0: nat, y1: nat, y0: nat, z1: nat)
    requires y1 < 16 && z1 < 4
    ensures (x0 * 16 + y1) / 16 == x0 && (x0 * 16 + y1) % 16 == y1
    ensures (y0 * 4 + z1) / 4 == y0 && (y0 * 4 + z1) % 4 == z1
  {
  }

  lemma BytesToSextets(w: nat, x: nat, y: nat, z: nat)
    requires w < 64 && x < 64 && y < 64 && z < 64
    ensures var t := Bytes(w, x, y, z); Sextets(t.0, t.1, t.2) == (w, x, y, z)
  {
    var t := Bytes(w, x, y, z);
    Quotients(w, x / 16, x % 16, y / 4, y % 4, z);
    assert x == x / 16 * 16 + x % 16 && y == y / 4 * 4 + y % 4;
    assert t.0 as nat == w * 4 + x / 16;
    assert t.1 as nat == x % 16 * 16 + y / 4;
    assert t.2 as nat == y % 4 * 64 + z;
  }

  lemma Quotients(w: nat, x1: nat, x0: nat, y1: nat, y0: nat, z: nat)
    requires x1 < 4 && y1 < 16 && z < 64
    ensures (w * 4 + x1) / 4 == w && (w * 4 + x1) % 4 == x1
    ensures (x0 * 16 + y1) / 16 == x0 && (x0 * 16 + y1) % 16 == y1
    ensures (y0 * 64 + z) / 64 == y0 && (y0 * 64 + z) % 64 == z
  {
  }

  function Encode(bs: seq<byte>): (s: string) {
    if bs == [] then []
    else if |bs| == 1 then
      var q := Sextets(bs[0], 0, 0);
      [Symbol(q.0), Symbol(q.1)]
    else if |bs| == 2 then
      var q := Sextets(bs[0], bs[1], 0);
      [Symbol(q.0), Symbol(q.1), Symbol(q.2)]
    else
      var q := Sextets(bs[0], bs[1], bs[2]);
      [Symbol(q.0), Symbol(q.1), Symbol(q.2), Symbol(q.3)] + Encode(bs[3..])
  }

  /** A symbol outside the alphabet, a lone last symbol and bits past the last byte are all refused. */
  function Decode(s: string): Option<seq<byte>> {
    if s == [] then Some([])
    else if |s| == 1 || Index(s[0]).None? || Index(s[1]).None? then None
    else if |s| == 2 then
      var t := Bytes(Index(s[0]).value, Index(s[1]).value, 0, 0);
      if t.1 == 0 then Some([t.0]) else None
    else if Index(s[2]).None? then None
    else if |s| == 3 then
      var t := Bytes(Index(s[0]).value, Index(s[1]).value, Index(s[2]).value, 0);
      if t.2 == 0 then Some([t.0, t.1]) else None
    else if Index(s[3]).None? then None
    else
      var t := Bytes(Index(s[0]).value, Index(s[1]).value, Index(s[2]).value, Index(s[3]).value);
      var rest := Decode(s[4..]);
      if rest.None? then None else Some([t.0, t.1, t.2] + rest.value)
  }

  lemma DecodeEncodeOne(a: byte)
    ensures Decode(Encode([a])) == Some([a])
  {
    var q := Sextets(a, 0, 0);
    SextetsToBytes(a, 0, 0);
    IndexOfSymbol(q.0); IndexOfSymbol(q.1);
  }

  lemma DecodeEncodeTwo(a: byte, b: byte)
    ensures Decode(Encode([a, b])) == Some([a, b])
  {
    var q := Sextets(a, b, 0);
    SextetsToBytes(a, b, 0);
    IndexOfSymbol(q.0); IndexOfSymbol(q.1); IndexOfSymbol(q.2);
  }

  lemma {:induction false} DecodeBlock(q: (nat, nat, nat, nat), rest: string)
    requires q.0 < 64 && q.1 < 64 && q.2 < 64 && q.3 < 64 && Decode(rest).Some?
    ensures var t := Bytes(q.0, q.1, q.2, q.3);
            Decode([Symbol(q.0), Symbol(q.1), Symbol(q.2), Symbol(q.3)] + rest) == Some([t.0, t.1, t.2] + Decode(rest).value)
  {
    IndexOfSymbol(q.0); IndexOfSymbol(q.1); IndexOfSymbol(q.2); IndexOfSymbol(q.3);
    assert ([Symbol(q.0), Symbol(q.1), Symbol(q.2), Symbol(q.3)] + rest)[4..] == rest;
  }

  lemma {:induction false} EncodeBlock(a: byte, b: byte, c: byte, tail: seq<byte>)
    ensures var q := Sextets(a, b, c);
            Encode([a, b, c] + tail) == [Symbol(q.0), Symbol(q.1), Symbol(q.2), Symbol(q.3)] + Encode(tail)
  {
  }

  lemma {:induction false} DecodeEncodeBlock(a: byte, b: byte, c: byte, tail: seq<byte>)
    requires Decode(Encode(tail)) == Some(tail)
    ensures Decode(Encode([a, b, c] + tail)) == Some([a, b, c] + tail)
  {
    var q := Sextets(a, b, c);
    EncodeBlock(a, b, c, tail);
    DecodeBlock(q, Encode(tail));
    SextetsToBytes(a, b, c);
  }

  lemma {:induction false} DecodeEncodeShort(bs: seq<byte>)
    requires |bs| < 3
    ensures Decode(Encode(bs)) == Some(bs)
  {
    if |bs| == 1 {
      DecodeEncodeOne(bs[0]);
      assert [bs[0]] == bs;
    } else if |bs| == 2 {
      DecodeEncodeTwo(bs[0], bs[1]);
      assert [bs[0], bs[1]] == bs;
    }
  }

  lemma {:induction false} DecodeEncode(bs: seq<byte>)
    ensures Decode(Encode(bs)) == Some(bs)
  {
    if |bs| < 3 {
      DecodeEncodeShort(bs);
    } else {
      DecodeEncode(bs[3..]);
      DecodeEncodeBlock(bs[0], bs[1], bs[2], bs[3..]);
      assert [bs[0], bs[1], bs[2]] + bs[3..] == bs;
    }
  }

  /** Only the encoder's own output is accepted, so a byte string has one spelling. */
  lemma {:induction false} EncodeDecode(s: string)
    requires Decode(s).Some?
    ensures Encode(Decode(s).value) == s
  {
    if |s| == 2 {
      BytesToSextets(Index(s[0]).value, Index(s[1]).value, 0, 0);
    } else if |s| == 3 {
      BytesToSextets(Index(s[0]).value, Index(s[1]).value, Index(s[2]).value, 0);
    } else if |s| >= 4 {
      BytesToSextets(Index(s[0]).value, Index(s[1]).value, Index(s[2]).value, Index(s[3]).value);
      EncodeDecode(s[4..]);
      assert s[..4] + s[4..] == s;
      assert Decode(s).value[3..] == Decode(s[4..]).value;
    }
  }

  lemma {:induction false} EncodingIsPlain(bs: seq<byte>)
    ensures '.' !in Encode(bs) && '=' !in Encode(bs)
    ensures Encode(bs) == [] <==> bs == []
  {
    if |bs| >= 3 { EncodingIsPlain(bs[3..]); }
  }

  /** What decodes at all has no dot in it, so it cannot run over a separator. */
  lemma DecodableIsPlain(s: string)
    requires Decode(s).Some?
    ensures '.' !in s && '=' !in s
    ensures s == [] <==> Decode(s).value == []
  {
    EncodeDecode(s);
    EncodingIsPlain(Decode(s).value);
  }
}
