/**
 Metric labels (crates/jobs/src/metrics.rs): the escaping every label value goes through, and the split of a
 matched path into profile and route.
 */
module MetricLabels {
  import opened Prelude
  import opened Strings

  // ---------------------------------------------------------------------------------------------
  // Label values

  function EscapeChar(c: char): string {
    if c == '\\' then "\\\\" else if c == '\"' then "\\\"" else if c == '\n' then "\\n" else [c]
  }

  function Escape(value: string): string {
    if value == [] then [] else EscapeChar(value[0]) + Escape(value[1..])
  }

  lemma {:induction false} EscapeSnoc(value: string, c: char)
    ensures Escape(value + [c]) == Escape(value) + EscapeChar(c)
  {
    if value == [] {
      assert [c][1..] == [];
    } else {
      assert (value + [c])[1..] == value[1..] + [c];
      EscapeSnoc(value[1..], c);
    }
  }

  /** `escape_label`. */
  method EscapeLabel(value: string) returns (out: string)
    ensures out == Escape(value)
  {
    out := [];
    for i := 0 to |value|
      invariant out == Escape(value[..i])
    {
      EscapeSnoc(value[..i], value[i]);
      assert value[..i + 1] == value[..i] + [value[i]];
      match value[i]
      case '\\' => out := out + "\\\\";
      case '\"' => out := out + "\\\"";
      case '\n' => out := out + "\\n";
      case other => out := out + [other];
    }
    assert value[..|value|] == value;
  }

  /** How a collector reads a label value after its opening quote: the value and the text past the closing quote. */
  function ReadLabel(s: string): Option<(string, string)> {
    if s == [] || s[0] == '\n' then None
    else if s[0] == '\"' then Some(([], s[1..]))
    else if s[0] != '\\' then Prepend(s[0], ReadLabel(s[1..]))
    else if |s| < 2 then None
    else if s[1] == 'n' then Prepend('\n', ReadLabel(s[2..]))
    else if s[1] == '\\' || s[1] == '\"' then Prepend(s[1], ReadLabel(s[2..]))
    else None
  }

  function Prepend(c: char, r: Option<(string, string)>): Option<(string, string)> {
    if r.None? then None else Some(([c] + r.value.0, r.value.1))
  }

  /**
   A collector reads `value` off the text if and only if the text is `Escape(value)` and the closing quote.
   So every value survives, no value can end its own quotes, and the escapes are the only spelling.
   */
  lemma {:induction false} LabelsReadBack(text: string, value: string, rest: string)
    ensures ReadLabel(text) == Some((value, rest)) <==> text == Escape(value) + "\"" + rest
  {
    if text == Escape(value) + "\"" + rest {
      EscapedReadsBack(value, rest);
    }
    if ReadLabel(text) == Some((value, rest)) {
      ReadIsEscaped(text);
    }
  }

  lemma {:induction false} ReadOne(c: char, tail: string)
    ensures ReadLabel(EscapeChar(c) + tail) == Prepend(c, ReadLabel(tail))
  {
    assert (EscapeChar(c) + tail)[|EscapeChar(c)|..] == tail;
  }

  lemma {:induction false} EscapedReadsBack(value: string, rest: string)
    ensures ReadLabel(Escape(value) + "\"" + rest) == Some((value, rest))
  {
    if value == [] {
      assert Escape(value) + "\"" + rest == "\"" + rest;
    } else {
      EscapedReadsBack(value[1..], rest);
      ReadOne(value[0], Escape(value[1..]) + "\"" + rest);
      assert Escape(value) + "\"" + rest == EscapeChar(value[0]) + (Escape(value[1..]) + "\"" + rest);
      assert [value[0]] + value[1..] == value;
    }
  }

  lemma {:induction false} ReadIsEscaped(text: string)
    ensures ReadLabel(text).Some? ==> var (value, rest) := ReadLabel(text).value; text == Escape(value) + "\"" + rest
  {
    if ReadLabel(text).Some? && text[0] != '\"' {
      var value := ReadLabel(text).value.0;
      var n := if text[0] == '\\' then 2 else 1;
      ReadIsEscaped(text[n..]);
      assert value[1..] == ReadLabel(text[n..]).value.0;
      assert text[..n] == EscapeChar(value[0]);
      assert text == text[..n] + text[n..];
    }
  }

  lemma EscapeIsInjective(a: string, b: string)
    requires Escape(a) == Escape(b)
    ensures a == b
  {
    EscapedReadsBack(a, []);
    EscapedReadsBack(b, []);
  }

  /** The profile and route of a matched path. */
  function SplitMatchedPath(matched: Option<string>): (string, string) {
    if matched.None? then ("none", "<unmatched>")
    else if !(PROFILE_PREFIX + "/" <= matched.value) then ("none", matched.value)
    else
      var rest := matched.value[|PROFILE_PREFIX| + 1..];
      match SplitOnce(rest, '/')
      case Some((profile, route)) => (profile, "/" + route)
      case None => (rest, "/")
  }

  const PROFILE_PREFIX := "/profile"

  /** A route nested under a profile is split back into exactly that profile and that route. */
  lemma {:induction false} NestedRoutesSplit(profile: string, route: string)
    requires '/' !in profile
    ensures SplitMatchedPath(Some("/profile/" + profile + "/" + route)) == (profile, "/" + route)
  {
    var matched := "/profile/" + profile + "/" + route;
    assert matched == (PROFILE_PREFIX + "/") + (profile + "/" + route);
    assert matched[|PROFILE_PREFIX| + 1..] == profile + "/" + route;
    SplitOnceIs(profile, '/', route);
  }

  /** Every matched path keeps its text: put back together, the two labels are the path, but for a bare profile's slash. */
  lemma {:induction false} SplitPathsJoinBack(matched: string)
    ensures var (profile, route) := SplitMatchedPath(Some(matched));
            if "/profile/" <= matched then
              && '/' !in profile && route != [] && route[0] == '/'
              && (matched == "/profile/" + profile + route || (matched == "/profile/" + profile && route == "/"))
            else profile == "none" && route == matched
  {
    assert PROFILE_PREFIX + "/" == "/profile/";
    if "/profile/" <= matched {
      assert matched == "/profile/" + matched[9..];
      ProfilePathJoinsBack(matched[9..]);
    }
  }

  lemma {:induction false} ProfilePathJoinsBack(rest: string)
    ensures SplitOnce(rest, '/').None? ==> '/' !in rest
    ensures SplitOnce(rest, '/').Some? ==>
              var (profile, route) := SplitOnce(rest, '/').value;
              '/' !in profile && "/profile/" + rest == "/profile/" + profile + ("/" + route)
  {
    if '/' in rest {
      var (profile, route) := SplitOnce(rest, '/').value;
      assert rest == profile + ("/" + route);
    }
  }
}
