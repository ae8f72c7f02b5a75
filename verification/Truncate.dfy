/**
 Cutting text to a number of bytes without splitting a character (src/cli/render.rs, `truncate`). Text is
 UTF-8 as section 3 of RFC 3629 defines it.
 */
module Truncate {
  import opened Prelude

  type Scalar = c: nat | c < 0xd800 || 0xe000 <= c < 0x11_0000

  const ELLIPSIS: Scalar := 0x2026

  function EncodeChar(c: Scalar): (bytes: seq<byte>)
    ensures 1 <= |bytes| <= 4
    ensures !Continuation(bytes[0])
    ensures forall i :: 0 < i < |bytes| ==> Continuation(bytes[i])
  {
    if c < 0x80 then [c as byte]
    else if c < 0x800 then [(0xc0 + c / 0x40) as byte, Tail(c)]
    else if c < 0x1_0000 then [(0xe0 + c / 0x1000) as byte, Tail(c / 0x40), Tail(c)]
    else [(0xf0 + c / 0x4_0000) as byte, Tail(c / 0x1000), Tail(c / 0x40), Tail(c)]
  }

  function Tail(n: nat): (b: byte)
    ensures Continuation(b)
  {
    (0x80 + n % 0x40) as byte
  }

  predicate Continuation(b: byte) { 0x80 <= b < 0xc0 }

  function Encode(text: seq<Scalar>): seq<byte> {
    if text == [] then [] else EncodeChar(text[0]) + Encode(text[1..])
  }

  /** The value that the bytes of one character stand for, by their number. */
  function CharOf(bytes: seq<byte>): int {
    match |bytes|
    case 1 => bytes[0] as int
    case 2 => (bytes[0] as int - 0xc0) * 0x40 + (bytes[1] as int - 0x80)
    case 3 => (bytes[0] as int - 0xe0) * 0x1000 + (bytes[1] as int - 0x80) * 0x40 + (bytes[2] as int - 0x80)
    case 4 =>
      (bytes[0] as int - 0xf0) * 0x4_0000 + (bytes[1] as int - 0x80) * 0x1000 + (bytes[2] as int - 0x80) * 0x40
      + (bytes[3] as int - 0x80)
    case _ => -1
  }

  /** A character's bytes stand for it, and they are as few as the ranges of section 3 of RFC 3629 allow. */
  lemma {:induction false} CharReadsBack(c: Scalar)
    ensures CharOf(EncodeChar(c)) == c
    ensures |EncodeChar(c)| == if c <= 0x7f then 1 else if c <= 0x7ff then 2 else if c <= 0xffff then 3 else 4
  {
    assert c == c / 0x40 * 0x40 + c % 0x40;
    assert c / 0x40 == c / 0x1000 * 0x40 + c / 0x40 % 0x40;
    assert c / 0x1000 == c / 0x4_0000 * 0x40 + c / 0x1000 % 0x40;
  }

  /** `str::is_char_boundary`. */
  predicate IsCharBoundary(bytes: seq<byte>, i: nat) {
    i == 0 || i == |bytes| || (i < |bytes| && !Continuation(bytes[i]))
  }

  /** How many whole characters fit in `max` bytes. */
  function Fit(text: seq<Scalar>, max: nat): (k: nat)
    ensures k <= |text|
  {
    if text == [] || |EncodeChar(text[0])| > max then 0
    else 1 + Fit(text[1..], max - |EncodeChar(text[0])|)
  }

  lemma {:induction false} EncodeAppend(a: seq<Scalar>, b: seq<Scalar>)
    ensures Encode(a + b) == Encode(a) + Encode(b)
  {
    if a == [] {
      assert a + b == b;
    } else {
      assert (a + b)[1..] == a[1..] + b;
      EncodeAppend(a[1..], b);
    }
  }

  lemma LeadComesFirst(text: seq<Scalar>)
    requires text != []
    ensures Encode(text) != [] && !Continuation(Encode(text)[0])
  {
  }

  /** Inside the first character there is no boundary; past it, the boundaries are those of the rest. */
  lemma BoundariesOfTail(text: seq<Scalar>, i: nat)
    requires text != []
    ensures var w := |EncodeChar(text[0])|;
            && (0 < i < w ==> !IsCharBoundary(Encode(text), i))
            && (w <= i ==> (IsCharBoundary(Encode(text), i) <==> IsCharBoundary(Encode(text[1..]), i - w)))
  {
    var w := |EncodeChar(text[0])|;
    if 0 < i < w {
      assert Encode(text)[i] == EncodeChar(text[0])[i];
    } else if i == w {
      if text[1..] != [] {
        LeadComesFirst(text[1..]);
        assert Encode(text)[i] == Encode(text[1..])[0];
      }
    } else if w < i < |Encode(text)| {
      assert Encode(text)[i] == Encode(text[1..])[i - w];
    }
  }

  /** The characters that fit end at the last boundary up to `max`, at most three bytes below it. */
  lemma {:induction false} FitEndsAtLastBoundary(text: seq<Scalar>, max: nat)
    requires max < |Encode(text)|
    ensures var end := |Encode(text[..Fit(text, max)])|;
            && end <= max <= end + 3
            && IsCharBoundary(Encode(text), end)
            && forall i :: end < i <= max ==> !IsCharBoundary(Encode(text), i)
  {
    var w := |EncodeChar(text[0])|;
    if w > max {
      assert text[..0] == [];
      forall i | 0 < i <= max ensures !IsCharBoundary(Encode(text), i) { BoundariesOfTail(text, i); }
    } else {
      FitEndsAtLastBoundary(text[1..], max - w);
      EndShifts(text, Fit(text[1..], max - w));
      var end := |Encode(text[1..][..Fit(text[1..], max - w)])|;
      BoundariesOfTail(text, w + end);
      forall i | w + end < i <= max ensures !IsCharBoundary(Encode(text), i) { BoundariesOfTail(text, i); }
    }
  }

  lemma {:induction false} EndShifts(text: seq<Scalar>, k: nat)
    requires k < |text|
    ensures |Encode(text[..k + 1])| == |EncodeChar(text[0])| + |Encode(text[1..][..k])|
  {
    assert text[..k + 1][1..] == text[1..][..k];
  }

  /** A prefix fits in `max` bytes if and only if it is no longer than `Fit` characters. */
  lemma {:induction false} FitIsLongest(text: seq<Scalar>, max: nat, k: nat)
    requires k <= |text|
    ensures |Encode(text[..k])| <= max <==> k <= Fit(text, max)
  {
    if k > 0 {
      var w := |EncodeChar(text[0])|;
      assert text[..k][1..] == text[1..][..k - 1];
      if w <= max {
        FitIsLongest(text[1..], max - w, k - 1);
      }
    }
  }

  lemma {:induction false} PrefixBytes(text: seq<Scalar>, k: nat)
    requires k <= |text|
    ensures Encode(text[..k]) <= Encode(text)
  {
    assert text == text[..k] + text[k..];
    EncodeAppend(text[..k], text[k..]);
  }

  /** What is printed: the text, or the longest run of whole characters that fits and an ellipsis. */
  function Shortened(text: seq<Scalar>, max: nat): seq<Scalar> {
    if |Encode(text)| <= max then text else text[..Fit(text, max)] + [ELLIPSIS]
  }

  lemma EllipsisBytes()
    ensures EncodeChar(ELLIPSIS) == [0xe2, 0x80, 0xa6] == Encode([ELLIPSIS])
  {
  }

  /** `truncate`, on the bytes of valid UTF-8. */
  method Cut(bytes: seq<byte>, max: nat, ghost text: seq<Scalar>) returns (out: seq<byte>)
    requires bytes == Encode(text)
    ensures out == Encode(Shortened(text, max))
    ensures |out| <= max + 3
  {
    if |bytes| <= max { return bytes; }
    FitEndsAtLastBoundary(text, max);
    ghost var last := |Encode(text[..Fit(text, max)])|;
    var end := max;
    while !IsCharBoundary(bytes, end)
      invariant last <= end <= max
      decreases end
    {
      end := end - 1;
    }
    PrefixBytes(text, Fit(text, max));
    assert bytes[..end] == Encode(text[..Fit(text, max)]);
    EncodeAppend(text[..Fit(text, max)], [ELLIPSIS]);
    EllipsisBytes();
    out := bytes[..end] + [0xe2, 0x80, 0xa6];
  }
}
