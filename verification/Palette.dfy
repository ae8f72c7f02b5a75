/**
 Colour on the command line (crates/core/src/palette.rs), and what it may do to the text it paints: insert
 whole escape sequences and nothing else.
 */
module Palette {
  import opened Prelude
  import opened Strings

  const ESC := '\U{1b}'

  datatype Role = Good | Bad | Busy | Unknown

  function Code(role: Role): string {
    match role
    case Good => "32"
    case Bad => "31"
    case Busy => "33"
    case Unknown => "35"
  }

  function Open(role: Role): string { [ESC] + "[" + Code(role) + "m" }

  const RESET: string := [ESC] + "[0m"

  /** `Palette::paint`. */
  function Paint(on: bool, role: Role, text: string): string {
    if on then Open(role) + text + RESET else text
  }

  /** What a status word means, whichever table it comes from. */
  function RoleOf(word: string): Option<Role> {
    if word in ["valid", "ready", "active", "enabled", "success", "on", "allow", "allowed", "pass", "done"] then Some(Good)
    else if word in ["invalid", "revoked", "deactivated", "expired", "disabled", "off", "failure",
                     "deny", "denied", "fail", "failed", "cancelled"] then Some(Bad)
    else if word in ["pending", "processing", "pending_mfa", "running"] then Some(Busy)
    else if word in ["unknown", "undecided"] then Some(Unknown)
    else None
  }

  predicate Apart(words: seq<string>, others: seq<string>) {
    forall i, j :: 0 <= i < |words| && 0 <= j < |others| ==> words[i] != others[j]
  }

  const GOOD_WORDS := ["valid", "ready", "active", "enabled", "success", "on", "allow", "allowed", "pass", "done"]

  const BAD_WORDS := ["invalid", "revoked", "deactivated", "expired", "disabled", "off", "failure",
                      "deny", "denied", "fail", "failed", "cancelled"]

  /** What is as it should be: jobs, orders, accounts, credentials, audit outcomes, filters. */
  lemma {:induction false} GoodWords(word: string)
    requires word in GOOD_WORDS
    ensures RoleOf(word) == Some(Good)
  {
  }

  /** What went wrong, and what no longer holds. */
  lemma {:induction false} BadWords(word: string)
    requires word in BAD_WORDS
    ensures RoleOf(word) == Some(Bad)
  {
    assert Apart(BAD_WORDS, GOOD_WORDS);
  }

  /** What is under way. */
  lemma {:induction false} BusyWords(word: string)
    requires word in ["pending", "processing", "pending_mfa", "running"]
    ensures RoleOf(word) == Some(Busy)
  {
    assert Apart(["pending", "processing", "pending_mfa", "running"], GOOD_WORDS);
    assert Apart(["pending", "processing", "pending_mfa", "running"], BAD_WORDS);
  }

  /** What was asked and not answered. */
  lemma {:induction false} UnknownWords(word: string)
    requires word in ["unknown", "undecided"]
    ensures RoleOf(word) == Some(Unknown)
  {
    assert Apart(["unknown", "undecided"], GOOD_WORDS);
    assert Apart(["unknown", "undecided"], BAD_WORDS);
    assert Apart(["unknown", "undecided"], ["pending", "processing", "pending_mfa", "running"]);
  }

  /** `Palette::status`. */
  function Status(on: bool, text: string): string {
    match RoleOf(Trim(text))
    case None => text
    case Some(role) => Paint(on, role, text)
  }

  function Spaces(n: nat): (s: string)
    ensures |s| == n && forall c :: c in s ==> c == ' '
  {
    if n == 0 then [] else " " + Spaces(n - 1)
  }

  /** `{:<width}`. */
  function Pad(text: string, width: nat): string {
    if |text| >= width then text else text + Spaces(width - |text|)
  }

  /** `{:>width}`. */
  function PadLeft(text: string, width: nat): string {
    if |text| >= width then text else Spaces(width - |text|) + text
  }

  lemma {:induction false} TrimLast(s: string, c: char)
    requires s != [] && !Whitespace(s[0]) && Whitespace(c)
    ensures Trim(s + [c]) == Trim(s)
  {
    assert (s + [c])[..|s|] == s;
  }

  lemma {:induction false} TrimFirst(c: char, s: string)
    requires Whitespace(c)
    ensures Trim([c] + s) == Trim(s)
  {
    assert ([c] + s)[1..] == s;
  }

  lemma {:induction false} SpacesAreTrimmed(n: nat)
    ensures Trim(Spaces(n)) == []
  {
    if n > 0 {
      SpacesAreTrimmed(n - 1);
      TrimFirst(' ', Spaces(n - 1));
    }
  }

  lemma {:induction false} TrimDropsSpaces(word: string, n: nat)
    ensures Trim(word + Spaces(n)) == Trim(word)
    decreases |word|, n
  {
    if word == [] {
      SpacesAreTrimmed(n);
      assert word + Spaces(n) == Spaces(n);
    } else if Whitespace(word[0]) {
      var first, rest := word[0], word[1..];
      TrimDropsSpaces(rest, n);
      Regroup([first], rest, Spaces(n));
      assert word == [first] + rest;
      TrimFirst(first, rest + Spaces(n));
      TrimFirst(first, rest);
    } else if n == 0 {
      assert word + Spaces(n) == word;
    } else {
      var spaced := word + Spaces(n - 1);
      SpacesSnoc(n - 1);
      Regroup(word, Spaces(n - 1), " ");
      assert word + Spaces(n) == spaced + " ";
      TrimLast(spaced, ' ');
      TrimDropsSpaces(word, n - 1);
    }
  }

  lemma {:induction false} SpacesSnoc(n: nat)
    ensures Spaces(n) + " " == Spaces(n + 1)
  {
    if n > 0 { SpacesSnoc(n - 1); }
  }

  /** A status keeps its colour when its column is padded, and the colour covers the padding. */
  lemma {:induction false} PaddedStatusKeepsItsRole(on: bool, word: string, width: nat)
    ensures Status(on, Pad(word, width))
         == if RoleOf(Trim(word)).Some? then Paint(on, RoleOf(Trim(word)).value, Pad(word, width)) else Pad(word, width)
  {
    if |word| < width { TrimDropsSpaces(word, width - |word|); }
  }

  // ---------------------------------------------------------------------------------------------
  // Colour only inserts escape sequences

  /** The length of the palette's own escape sequence at the head of `s`, or zero. */
  function EscapeLength(s: string): (n: nat)
    ensures n <= |s|
  {
    if |s| < 4 || s[0] != ESC || s[1] != '[' then 0
    else if s[2] == '0' && s[3] == 'm' then 4
    else if |s| >= 5 && s[2] == '3' && s[3] in ['1', '2', '3', '5'] && s[4] == 'm' then 5
    else 0
  }

  /** `coloured` is `plain` with whole escape sequences put in between its characters. */
  predicate Recolours(coloured: string, plain: string)
    decreases |coloured|
  {
    || (coloured == [] && plain == [])
    || (EscapeLength(coloured) > 0 && Recolours(coloured[EscapeLength(coloured)..], plain))
    || (coloured != [] && plain != [] && coloured[0] == plain[0] && Recolours(coloured[1..], plain[1..]))
  }

  lemma {:induction false} RecoloursItself(text: string)
    ensures Recolours(text, text)
  {
    if text != [] { RecoloursItself(text[1..]); }
  }

  lemma {:induction false} InsertEscape(e: string, coloured: string, plain: string)
    requires |e| > 0 && EscapeLength(e + coloured) == |e| && Recolours(coloured, plain)
    ensures Recolours(e + coloured, plain)
  {
  }

  lemma {:induction false} KeepChar(c: char, coloured: string, plain: string)
    requires Recolours(coloured, plain)
    ensures Recolours([c] + coloured, [c] + plain)
  {
  }

  lemma {:induction false} AppendAfterEscape(a: string, n: nat, b: string, plain: string)
    requires n == EscapeLength(a) > 0 && Recolours(a[n..] + b, plain)
    ensures Recolours(a + b, plain)
  {
    EscapeLengthAppend(a, b);
    assert a + b == a[..n] + (a[n..] + b);
    InsertEscape(a[..n], a[n..] + b, plain);
  }

  lemma {:induction false} AppendAfterChar(a: string, x: string, b: string, y: string)
    requires a != [] && x != [] && a[0] == x[0] && Recolours(a[1..] + b, x[1..] + y)
    ensures Recolours(a + b, x + y)
  {
    assert a + b == [a[0]] + (a[1..] + b) && x + y == [a[0]] + (x[1..] + y);
    KeepChar(a[0], a[1..] + b, x[1..] + y);
  }

  lemma {:induction false} RecoloursAppend(a: string, x: string, b: string, y: string)
    requires Recolours(a, x) && Recolours(b, y)
    ensures Recolours(a + b, x + y)
    decreases |a|
  {
    var n := EscapeLength(a);
    if n > 0 && Recolours(a[n..], x) {
      RecoloursAppend(a[n..], x, b, y);
      AppendAfterEscape(a, n, b, x + y);
    } else if a != [] {
      RecoloursAppend(a[1..], x[1..], b, y);
      AppendAfterChar(a, x, b, y);
    } else {
      assert a + b == b && x + y == y;
    }
  }

  lemma {:induction false} EscapeLengthAppend(a: string, b: string)
    requires EscapeLength(a) > 0
    ensures EscapeLength(a + b) == EscapeLength(a)
  {
  }

  lemma {:induction false} EscapesHaveTheirLength(role: Role)
    ensures |Open(role)| == EscapeLength(Open(role)) == 5 && |RESET| == EscapeLength(RESET) == 4
  {
  }

  lemma {:induction false} ResetIsInvisible()
    ensures Recolours(RESET, [])
  {
  }

  lemma {:induction false} ResetAfter(text: string, reset: string)
    requires Recolours(reset, [])
    ensures Recolours(text + reset, text)
  {
    RecoloursItself(text);
    RecoloursAppend(text, text, reset, []);
    assert text + [] == text;
  }

  lemma {:induction false} PaintOnlyInserts(role: Role, text: string)
    ensures Recolours(Paint(true, role, text), Paint(false, role, text))
  {
    EscapesHaveTheirLength(role);
    ResetIsInvisible();
    ResetAfter(text, RESET);
    EscapeLengthAppend(Open(role), text + RESET);
    InsertEscape(Open(role), text + RESET, text);
    Regroup(Open(role), text, RESET);
  }

  lemma {:induction false} StatusOnlyInserts(text: string)
    ensures Recolours(Status(true, text), Status(false, text))
  {
    match RoleOf(Trim(text))
    case None => RecoloursItself(text);
    case Some(role) => PaintOnlyInserts(role, text);
  }

  // ---------------------------------------------------------------------------------------------
  // Which colours a reader sees

  /** The role a terminal's colour stands for, by the last digit of its code. */
  function RoleOfDigit(d: char): Role {
    if d == '2' then Good else if d == '1' then Bad else if d == '3' then Busy else Unknown
  }

  /** The colours of a text, in order. */
  function Shown(s: string): seq<Role>
    decreases |s|
  {
    if s == [] then []
    else if EscapeLength(s) == 5 then [RoleOfDigit(s[3])] + Shown(s[5..])
    else if EscapeLength(s) == 4 then Shown(s[4..])
    else Shown(s[1..])
  }

  lemma {:induction false} PlainShowsNothing(a: string, b: string)
    requires ESC !in a
    ensures Shown(a + b) == Shown(b)
  {
    if a == [] {
      assert a + b == b;
    } else {
      assert (a + b)[0] == a[0] && a[0] in a && (a + b)[1..] == a[1..] + b;
      PlainShowsNothing(a[1..], b);
    }
  }

  lemma {:induction false} OpenShows(role: Role, b: string)
    ensures Shown(Open(role) + b) == [role] + Shown(b)
  {
    EscapesHaveTheirLength(role);
    EscapeLengthAppend(Open(role), b);
    assert (Open(role) + b)[5..] == b && (Open(role) + b)[3] == Open(role)[3];
    assert RoleOfDigit(Open(role)[3]) == role;
  }

  lemma {:induction false} ResetShows(b: string)
    ensures Shown(RESET + b) == Shown(b)
  {
    EscapesHaveTheirLength(Good);
    EscapeLengthAppend(RESET, b);
    assert (RESET + b)[4..] == b;
  }

  /** Painted text shows its role, once. */
  lemma {:induction false} PaintShows(role: Role, text: string, b: string)
    requires ESC !in text
    ensures Shown(Paint(true, role, text) + b) == [role] + Shown(b)
  {
    assert Paint(true, role, text) + b == Open(role) + (text + (RESET + b));
    OpenShows(role, text + (RESET + b));
    PlainShowsNothing(text, RESET + b);
    ResetShows(b);
  }

  // ---------------------------------------------------------------------------------------------
  // Stripping

  function Find(s: string, c: char): (i: nat)
    ensures i <= |s| && (i < |s| ==> s[i] == c) && forall j :: 0 <= j < i ==> s[j] != c
  {
    if s == [] || s[0] == c then 0 else 1 + Find(s[1..], c)
  }

  /** What follows the first `m`. */
  function AfterM(s: string): (after: Option<string>)
    ensures after.Some? ==> |after.value| < |s|
  {
    var end := Find(s, 'm');
    if end == |s| then None else Some(s[end + 1..])
  }

  /** Every escape up to its `m` is dropped. At an escape with no `m` the text is added whole, after what came before the escape. */
  function Strip(text: string): string
    decreases |text|
  {
    var start := Find(text, ESC);
    if start == |text| then text
    else
      match AfterM(text[start..])
      case None => text[..start] + text
      case Some(after) => text[..start] + Strip(after)
  }

  lemma {:induction false} StripFrom(text: string, after: string)
    requires var start := Find(text, ESC); start < |text| && AfterM(text[start..]) == Some(after)
    ensures Strip(text) == text[..Find(text, ESC)] + Strip(after)
  {
  }

  /** `strip_ansi`. */
  method StripAnsi(text: string) returns (out: string)
    ensures out == Strip(text)
  {
    out := [];
    var rest := text;
    var start := Find(rest, ESC);
    while start < |rest|
      invariant start == Find(rest, ESC)
      invariant out + Strip(rest) == Strip(text)
      decreases |rest|
    {
      var after := AfterM(rest[start..]);
      Regroup(out, rest[..start], if after.None? then rest else Strip(after.value));
      out := out + rest[..start];
      if after.None? {
        return out + rest;
      }
      StripFrom(rest, after.value);
      rest := after.value;
      start := Find(rest, ESC);
    }
    out := out + rest;
  }

  /** When the plain text has no escape of its own, the first escape of the coloured text is one of the palette's. */
  lemma {:induction false} FirstEscapeIsOurs(coloured: string, plain: string)
    requires Recolours(coloured, plain) && ESC !in plain
    ensures var start := Find(coloured, ESC); start < |coloured| ==> EscapeLength(coloured[start..]) > 0
  {
    if coloured != [] && coloured[0] != ESC {
      FirstEscapeIsOurs(coloured[1..], plain[1..]);
      var start := Find(coloured[1..], ESC);
      assert coloured[1..][start..] == coloured[1 + start..];
    }
  }

  lemma {:induction false} OurEscapesEndInM(s: string)
    requires EscapeLength(s) > 0
    ensures AfterM(s) == Some(s[EscapeLength(s)..])
  {
  }

  lemma {:induction false} StripEscape(coloured: string)
    requires EscapeLength(coloured) > 0
    ensures Strip(coloured) == Strip(coloured[EscapeLength(coloured)..])
  {
    assert coloured[0..] == coloured;
    OurEscapesEndInM(coloured);
    assert coloured[..0] + Strip(coloured[EscapeLength(coloured)..]) == Strip(coloured[EscapeLength(coloured)..]);
  }

  lemma {:induction false} FindPast(c: char, rest: string)
    requires c != ESC
    ensures Find([c] + rest, ESC) == 1 + Find(rest, ESC)
  {
    assert ([c] + rest)[1..] == rest;
  }

  lemma {:induction false} StripChar(c: char, rest: string)
    requires c != ESC
    requires var start := Find(rest, ESC); start < |rest| ==> AfterM(rest[start..]).Some?
    ensures Strip([c] + rest) == [c] + Strip(rest)
  {
    FindPast(c, rest);
    var start := Find(rest, ESC);
    if start < |rest| {
      StripPast(c, rest, start, AfterM(rest[start..]).value);
    }
  }

  lemma {:induction false} StripPast(c: char, rest: string, start: nat, after: string)
    requires Find(rest, ESC) == start < |rest| && Find([c] + rest, ESC) == 1 + start
    requires AfterM(rest[start..]) == Some(after)
    ensures Strip([c] + rest) == [c] + Strip(rest)
  {
    assert ([c] + rest)[1 + start..] == rest[start..];
    assert ([c] + rest)[..1 + start] == [c] + rest[..start];
    StripFrom(rest, after);
    StripFrom([c] + rest, after);
    Regroup([c], rest[..start], Strip(after));
  }

  lemma {:induction false} StripKept(coloured: string, plain: string)
    requires Recolours(coloured, plain) && ESC !in plain && coloured != [] && coloured[0] != ESC
    ensures plain != [] && coloured[0] == plain[0] && Recolours(coloured[1..], plain[1..])
    ensures Strip(coloured) == [coloured[0]] + Strip(coloured[1..])
  {
    var rest := coloured[1..];
    FirstEscapeIsOurs(rest, plain[1..]);
    if Find(rest, ESC) < |rest| { OurEscapesEndInM(rest[Find(rest, ESC)..]); }
    StripChar(coloured[0], rest);
    assert [coloured[0]] + rest == coloured;
  }

  /** Stripping a recoloured text gives the plain text back, character for character. */
  lemma {:induction false} StrippingUndoesColour(coloured: string, plain: string)
    requires Recolours(coloured, plain) && ESC !in plain
    ensures Strip(coloured) == plain
    decreases |coloured|
  {
    if coloured != [] {
      if coloured[0] == ESC {
        StripEscape(coloured);
        StrippingUndoesColour(coloured[EscapeLength(coloured)..], plain);
      } else {
        StripKept(coloured, plain);
        StrippingUndoesColour(coloured[1..], plain[1..]);
        assert [plain[0]] + plain[1..] == plain;
      }
    }
  }

  /**
   Why a column is padded before it is painted: padding the painted word would count the escapes, and keeps the
   layout only where there was nothing to pad.
   */
  lemma {:induction false} PaddingComesBeforePaint(role: Role, text: string, width: nat)
    requires ESC !in text
    ensures Recolours(Paint(true, role, Pad(text, width)), Pad(text, width))
    ensures Recolours(Pad(Paint(true, role, text), width), Pad(text, width)) <==> |text| >= width
  {
    PaintOnlyInserts(role, Pad(text, width));
    PaintOnlyInserts(role, text);
    if |text| < width {
      var painted := Paint(true, role, text);
      EscapesHaveTheirLength(role);
      var room := if |painted| >= width then 0 else width - |painted|;
      assert Pad(painted, width) == painted + Spaces(room);
      RecoloursItself(Spaces(room));
      RecoloursAppend(painted, text, Spaces(room), Spaces(room));
      StrippingUndoesColour(Pad(painted, width), text + Spaces(room));
      if Recolours(Pad(painted, width), Pad(text, width)) {
        StrippingUndoesColour(Pad(painted, width), Pad(text, width));
      }
    }
  }
}
