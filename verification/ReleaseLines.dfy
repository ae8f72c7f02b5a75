/** Which tags the published book is built from (doc/build_versions.py, `release_lines`). */
module ReleaseLines {
  import opened Prelude
  import opened Strings

  type Minor = (nat, nat)

  datatype Version = Version(line: Minor, patch: nat)

  predicate Digits(s: string) { s != [] && forall c :: c in s ==> '0' <= c <= '9' }

  /** The release a tag names, if it is three numbers with dots between them. */
  function ParseTag(tag: string): Option<Version> {
    match SplitOnce(tag, '.')
    case None => None
    case Some((major, rest)) =>
      match SplitOnce(rest, '.')
      case None => None
      case Some((minor, patch)) =>
        if Digits(major) && Digits(minor) && Digits(patch)
        then Some(Version((Value(major), Value(minor)), Value(patch)))
        else None
  }

  function LineName(line: Minor): string { Decimal(line.0) + "." + Decimal(line.1) }

  predicate Newer(a: Minor, b: Minor) { a.0 > b.0 || (a.0 == b.0 && a.1 > b.1) }

  predicate Descending(lines: seq<Minor>) { forall i, j :: 0 <= i < j < |lines| ==> Newer(lines[i], lines[j]) }

  /** What is read from a tag; the theorems below hold however tags are read. */
  type TagParser = string -> Option<Version>

  predicate Tags(parse: TagParser, tag: string, line: Minor) { parse(tag).Some? && parse(tag).value.line == line }

  function Patch(parse: TagParser, tag: string): nat { if parse(tag).Some? then parse(tag).value.patch else 0 }

  /** The tag kept for a line after reading `tags` in order. */
  function Best(parse: TagParser, tags: seq<string>, line: Minor): (best: Option<string>)
    ensures best.Some? ==> best.value in tags && Tags(parse, best.value, line)
  {
    if tags == [] then None
    else
      var tag := tags[|tags| - 1];
      var best := Best(parse, tags[..|tags| - 1], line);
      if Tags(parse, tag, line) && (best.None? || Patch(parse, tag) > Patch(parse, best.value)) then Some(tag) else best
  }

  /** The tag at `i` has a higher patch than every earlier tag of its line, and none that follows has a higher one. */
  predicate FirstMaximal(parse: TagParser, tags: seq<string>, line: Minor, i: nat) {
    && i < |tags| && Tags(parse, tags[i], line)
    && (forall j :: 0 <= j < i && Tags(parse, tags[j], line) ==> Patch(parse, tags[j]) < Patch(parse, tags[i]))
    && (forall j :: i < j < |tags| && Tags(parse, tags[j], line) ==> Patch(parse, tags[j]) <= Patch(parse, tags[i]))
  }

  lemma {:induction false} BestIsFirstMaximal(parse: TagParser, tags: seq<string>, line: Minor) returns (i: nat)
    ensures Best(parse, tags, line).None? ==> forall t :: t in tags ==> !Tags(parse, t, line)
    ensures Best(parse, tags, line).Some? ==> FirstMaximal(parse, tags, line, i) && Best(parse, tags, line).value == tags[i]
  {
    i := 0;
    if tags != [] {
      var n := |tags| - 1;
      var k := BestIsFirstMaximal(parse, tags[..n], line);
      if Best(parse, tags, line) == Best(parse, tags[..n], line) {
        i := k;
      } else {
        i := n;
      }
    }
  }

  lemma {:induction false} FirstMaximalIsUnique(parse: TagParser, tags: seq<string>, line: Minor, i: nat, j: nat)
    requires FirstMaximal(parse, tags, line, i) && FirstMaximal(parse, tags, line, j)
    ensures i == j
  {
  }

  // ---------------------------------------------------------------------------------------------
  // The loop

  method SortDescending(lines: set<Minor>) returns (sorted: seq<Minor>)
    ensures Descending(sorted)
    ensures forall l :: l in sorted <==> l in lines
  {
    sorted := [];
    var rest := lines;
    while rest != {}
      invariant Descending(sorted)
      invariant forall l :: l in lines <==> l in sorted || l in rest
      invariant forall a, b :: a in sorted && b in rest ==> Newer(a, b)
      decreases rest
    {
      NewestExists(rest);
      var newest :| newest in rest && forall l :: l in rest && l != newest ==> Newer(newest, l);
      sorted := sorted + [newest];
      rest := rest - {newest};
    }
  }

  lemma {:induction false} NewestExists(lines: set<Minor>)
    requires lines != {}
    ensures exists newest :: newest in lines && forall l :: l in lines && l != newest ==> Newer(newest, l)
  {
    var x :| x in lines;
    var rest := lines - {x};
    if rest == {} {
      assert forall l :: l in lines && l != x ==> l in rest;
    } else {
      NewestExists(rest);
      var y :| y in rest && forall l :: l in rest && l != y ==> Newer(y, l);
      var newest := if Newer(x, y) then x else y;
      assert forall l :: l in lines && l != newest ==> Newer(newest, l) by {
        assert forall l :: l in lines ==> l == x || l in rest;
      }
    }
  }

  /** Every line with a release, newest first, each with the tag kept for it. */
  ghost predicate IsResult(parse: TagParser, tags: seq<string>, keys: seq<Minor>, result: seq<(string, string)>) {
    && Descending(keys)
    && (forall l :: l in keys <==> exists t :: t in tags && Tags(parse, t, l))
    && |result| == |keys|
    && forall i :: 0 <= i < |keys| ==> result[i].0 == LineName(keys[i]) && Best(parse, tags, keys[i]) == Some(result[i].1)
  }

  ghost predicate KeepsBest(parse: TagParser, tags: seq<string>, latest: map<Minor, (nat, string)>) {
    && (forall l :: l in latest <==> Best(parse, tags, l).Some?)
    && (forall l :: l in latest ==> Best(parse, tags, l) == Some(latest[l].1) && latest[l].0 == Patch(parse, latest[l].1))
  }

  /** The dictionary of the highest patch seen on each line. */
  method ReadTags(parse: TagParser, tags: seq<string>) returns (latest: map<Minor, (nat, string)>)
    ensures KeepsBest(parse, tags, latest)
  {
    latest := map[];
    for i := 0 to |tags|
      invariant KeepsBest(parse, tags[..i], latest)
    {
      assert tags[..i + 1][..i] == tags[..i];
      var version := parse(tags[i]);
      if version.Some? {
        var Version(line, patch) := version.value;
        if line !in latest || patch > latest[line].0 {
          latest := latest[line := (patch, tags[i])];
        }
      }
    }
    assert tags[..|tags|] == tags;
  }

  method Collect(parse: TagParser, tags: seq<string>) returns (result: seq<(string, string)>)
    ensures exists keys :: IsResult(parse, tags, keys, result)
  {
    var latest := ReadTags(parse, tags);
    var lines := SortDescending(latest.Keys);
    result := [];
    for i := 0 to |lines|
      invariant |result| == i
      invariant forall j :: 0 <= j < i ==>
                  result[j].0 == LineName(lines[j]) && Best(parse, tags, lines[j]) == Some(result[j].1)
    {
      result := result + [(LineName(lines[i]), latest[lines[i]].1)];
    }
    forall l ensures l in lines <==> exists t :: t in tags && Tags(parse, t, l) {
      var i := BestIsFirstMaximal(parse, tags, l);
    }
    assert IsResult(parse, tags, lines, result);
  }

  /** `release_lines`. */
  method FindReleaseLines(tags: seq<string>) returns (result: seq<(string, string)>)
    ensures exists keys :: IsResult(ParseTag, tags, keys, result)
  {
    result := Collect(ParseTag, tags);
  }

  // ---------------------------------------------------------------------------------------------
  // Properties

  /** Each line has the tag of a highest patch, exactly once, in strictly descending order. */
  lemma {:induction false} HighestPatchIsKept(
      parse: TagParser, tags: seq<string>, keys: seq<Minor>, result: seq<(string, string)>, tag: string)
    requires IsResult(parse, tags, keys, result) && tag in tags && parse(tag).Some?
    ensures exists i :: KeptAt(parse, tags, keys, result, tag, i)
  {
    var line := parse(tag).value.line;
    assert Tags(parse, tag, line);
    var i := IndexOf(keys, line);
    HigherPatch(parse, tags, tag);
    assert KeptAt(parse, tags, keys, result, tag, i);
  }

  /** Place `i` is the only one of the tag's line, and holds a tag of that line with no lower patch. */
  predicate KeptAt(parse: TagParser, tags: seq<string>, keys: seq<Minor>, result: seq<(string, string)>, tag: string, i: int) {
    && 0 <= i < |keys| && i < |result| && parse(tag).Some? && keys[i] == parse(tag).value.line
    && result[i].1 in tags && Tags(parse, result[i].1, keys[i]) && Patch(parse, tag) <= Patch(parse, result[i].1)
    && (forall j :: 0 <= j < |keys| && keys[j] == keys[i] ==> j == i)
  }

  lemma {:induction false} IndexOf(keys: seq<Minor>, line: Minor) returns (i: nat)
    requires Descending(keys) && line in keys
    ensures i < |keys| && keys[i] == line && forall j :: 0 <= j < |keys| && keys[j] == line ==> j == i
  {
    i :| i < |keys| && keys[i] == line;
  }

  lemma {:induction false} HigherPatch(parse: TagParser, tags: seq<string>, tag: string)
    requires tag in tags && parse(tag).Some?
    ensures var best := Best(parse, tags, parse(tag).value.line); best.Some? && Patch(parse, tag) <= Patch(parse, best.value)
  {
    var line := parse(tag).value.line;
    assert Tags(parse, tag, line);
    var k := BestIsFirstMaximal(parse, tags, line);
    var j :| 0 <= j < |tags| && tags[j] == tag;
  }

  /** A tag of a line that no other tag of the line has a higher patch than. */
  predicate Maximal(parse: TagParser, tags: seq<string>, tag: string) {
    && tag in tags && parse(tag).Some?
    && forall t :: t in tags && Tags(parse, t, parse(tag).value.line) ==> Patch(parse, t) <= Patch(parse, tag)
  }

  /** No line has two different tags that share its highest patch. */
  ghost predicate Unambiguous(parse: TagParser, tags: seq<string>) {
    forall t, u :: Maximal(parse, tags, t) && Maximal(parse, tags, u) && parse(t).value.line == parse(u).value.line ==> t == u
  }

  ghost predicate SameTags(a: seq<string>, b: seq<string>) { forall t :: t in a <==> t in b }

  lemma {:induction false} BestIsMaximal(parse: TagParser, tags: seq<string>, line: Minor)
    ensures Best(parse, tags, line).Some? ==> Maximal(parse, tags, Best(parse, tags, line).value)
    ensures Best(parse, tags, line).None? <==> forall t :: t in tags ==> !Tags(parse, t, line)
  {
    var i := BestIsFirstMaximal(parse, tags, line);
    if Best(parse, tags, line).Some? {
      forall t | t in tags && Tags(parse, t, line) ensures Patch(parse, t) <= Patch(parse, tags[i]) {
        var j :| 0 <= j < |tags| && tags[j] == t;
      }
    }
  }

  lemma {:induction false} BestOfReordered(parse: TagParser, a: seq<string>, b: seq<string>, line: Minor)
    requires Unambiguous(parse, a) && SameTags(a, b)
    ensures Best(parse, a, line) == Best(parse, b, line)
  {
    BestIsMaximal(parse, a, line);
    BestIsMaximal(parse, b, line);
    if Best(parse, a, line).Some? {
      assert Maximal(parse, a, Best(parse, b, line).value);
    }
  }

  lemma {:induction false} FirstTagWins(parse: TagParser, tags: seq<string>, tag: string)
    requires Maximal(parse, [tag] + tags, tag)
    ensures Best(parse, [tag] + tags, parse(tag).value.line) == Some(tag)
  {
    var all, line := [tag] + tags, parse(tag).value.line;
    var i := BestIsFirstMaximal(parse, all, line);
    assert all[0] == tag && Tags(parse, all[0], line);
    assert FirstMaximal(parse, all, line, 0);
    FirstMaximalIsUnique(parse, all, line, i, 0);
  }

  /** The same tags, each as often, in some other order. */
  ghost predicate Reordered(a: seq<string>, b: seq<string>) { multiset(a) == multiset(b) }

  lemma {:induction false} ReorderedHasSameTags(a: seq<string>, b: seq<string>)
    requires Reordered(a, b)
    ensures SameTags(a, b)
  {
    forall t ensures t in a <==> t in b {
      assert t in a <==> t in multiset(a);
      assert t in b <==> t in multiset(b);
    }
  }

  /** The list with one of its tags moved to the front. */
  lemma {:induction false} MovedToFront(tags: seq<string>, tag: string) returns (other: seq<string>)
    requires tag in tags
    ensures Reordered(tags, other) && other != [] && other[0] == tag
  {
    var i :| 0 <= i < |tags| && tags[i] == tag;
    other := [tag] + (tags[..i] + tags[i + 1..]);
    assert tags == tags[..i] + [tag] + tags[i + 1..];
  }

  lemma {:induction false} FrontTagIsKept(parse: TagParser, tags: seq<string>, tag: string) returns (other: seq<string>)
    requires Maximal(parse, tags, tag)
    ensures Reordered(tags, other) && Best(parse, other, parse(tag).value.line) == Some(tag)
  {
    other := MovedToFront(tags, tag);
    ReorderedHasSameTags(tags, other);
    assert other == [tag] + other[1..];
    FirstTagWins(parse, other[1..], tag);
  }

  /** Listing the same tags in another order changes no line's tag if and only if no line's highest patch is tagged twice. */
  lemma {:induction false} OrderIsIrrelevantIffUnambiguous(parse: TagParser, tags: seq<string>)
    ensures Unambiguous(parse, tags) <==>
            forall other, line :: Reordered(tags, other) ==> Best(parse, other, line) == Best(parse, tags, line)
  {
    if Unambiguous(parse, tags) {
      forall other, line | Reordered(tags, other) ensures Best(parse, other, line) == Best(parse, tags, line) {
        ReorderedHasSameTags(tags, other);
        BestOfReordered(parse, tags, other, line);
      }
    } else {
      var t, u :| Maximal(parse, tags, t) && Maximal(parse, tags, u) && parse(t).value.line == parse(u).value.line && t != u;
      var line := parse(t).value.line;
      var first := FrontTagIsKept(parse, tags, t);
      var second := FrontTagIsKept(parse, tags, u);
      assert Best(parse, first, line) != Best(parse, second, line);
    }
  }

  lemma {:induction false} HeadIsNewest(a: seq<Minor>)
    requires Descending(a) && a != []
    ensures forall l :: l in a[1..] <==> l in a && l != a[0]
  {
  }

  lemma {:induction false} DescendingIsUnique(a: seq<Minor>, b: seq<Minor>)
    requires Descending(a) && Descending(b) && forall l :: l in a <==> l in b
    ensures a == b
  {
    assert b != [] ==> b[0] in b;
    if a != [] {
      assert a[0] in b && b != [];
      assert b[0] in a;
      assert a[0] == b[0];
      HeadIsNewest(a);
      HeadIsNewest(b);
      DescendingIsUnique(a[1..], b[1..]);
    }
  }

  /** With unambiguous tags the whole published list is the same whatever order they are listed in. */
  lemma {:induction false} ResultIgnoresOrder(
      parse: TagParser, a: seq<string>, ka: seq<Minor>, ra: seq<(string, string)>, b: seq<string>, kb: seq<Minor>, rb: seq<(string, string)>)
    requires Unambiguous(parse, a) && SameTags(a, b) && IsResult(parse, a, ka, ra) && IsResult(parse, b, kb, rb)
    ensures ra == rb
  {
    forall l ensures l in ka <==> l in kb {
      BestIsMaximal(parse, a, l);
      BestIsMaximal(parse, b, l);
      BestOfReordered(parse, a, b, l);
    }
    DescendingIsUnique(ka, kb);
    forall i | 0 <= i < |ra| ensures ra[i] == rb[i] {
      BestOfReordered(parse, a, b, ka[i]);
    }
  }

  /** The tag of a release as it is usually written, with no leading zeros. */
  function Canonical(v: Version): string {
    Decimal(v.line.0) + "." + (Decimal(v.line.1) + "." + Decimal(v.patch))
  }

  lemma {:induction false} NumbersReadBack(major: string, minor: string, patch: string)
    requires Digits(major) && Digits(minor) && Digits(patch)
    ensures ParseTag(major + "." + (minor + "." + patch)) == Some(Version((Value(major), Value(minor)), Value(patch)))
  {
    SplitOnceIs(major, '.', minor + "." + patch);
    SplitOnceIs(minor, '.', patch);
  }

  /** A tag names a release if and only if it is three runs of digits with dots between them. */
  lemma {:induction false} ReleasesAreThreeNumbers(tag: string, v: Version)
    ensures ParseTag(tag) == Some(v) <==>
            exists major, minor, patch ::
              && Digits(major) && Digits(minor) && Digits(patch)
              && tag == major + "." + (minor + "." + patch)
              && v == Version((Value(major), Value(minor)), Value(patch))
  {
    if ParseTag(tag) == Some(v) {
      var (major, rest) := SplitOnce(tag, '.').value;
      var (minor, patch) := SplitOnce(rest, '.').value;
      assert tag == major + "." + (minor + "." + patch);
    }
    forall major, minor, patch |
      && Digits(major) && Digits(minor) && Digits(patch)
      && tag == major + "." + (minor + "." + patch)
      && v == Version((Value(major), Value(minor)), Value(patch))
      ensures ParseTag(tag) == Some(v)
    {
      NumbersReadBack(major, minor, patch);
    }
  }

  lemma {:induction false} CanonicalReadsBack(v: Version)
    ensures ParseTag(Canonical(v)) == Some(v)
  {
    NumbersReadBack(Decimal(v.line.0), Decimal(v.line.1), Decimal(v.patch));
    DecimalReadsBack(v.line.0);
    DecimalReadsBack(v.line.1);
    DecimalReadsBack(v.patch);
  }

  /** The name of a line with a patch after it is a tag of that line. */
  lemma {:induction false} LineNameIsATagPrefix(line: Minor, patch: nat)
    ensures ParseTag(LineName(line) + "." + Decimal(patch)) == Some(Version(line, patch))
  {
    CanonicalReadsBack(Version(line, patch));
    assert LineName(line) + "." + Decimal(patch) == Canonical(Version(line, patch));
  }

  /** Newer is by numbers: major first, and then minor, however large minors get. */
  lemma {:induction false} NewerIsNumeric(a: Minor, b: Minor, bound: nat)
    requires a.1 < bound && b.1 < bound
    ensures Newer(a, b) <==> a.0 * bound + a.1 > b.0 * bound + b.1
  {
    if a.0 > b.0 {
      assert a.0 * bound >= (b.0 + 1) * bound == b.0 * bound + bound;
    } else if a.0 < b.0 {
      assert b.0 * bound >= (a.0 + 1) * bound == a.0 * bound + bound;
    }
  }

  /** Canonical tags are unambiguous, among any other tags that name no release. */
  lemma {:induction false} CanonicalTagsAreUnambiguous(tags: seq<string>)
    requires forall t :: t in tags && ParseTag(t).Some? ==> t == Canonical(ParseTag(t).value)
    ensures Unambiguous(ParseTag, tags)
  {
  }

  lemma {:induction false} ZeroAddsNothing(s: string)
    ensures Value("0" + s) == Value(s)
  {
    if s != [] {
      assert ("0" + s)[..|s|] == "0" + s[..|s| - 1];
      ZeroAddsNothing(s[..|s| - 1]);
    } else {
      assert Value("0") == 0;
      assert "0" + s == "0";
    }
  }

  lemma {:induction false} TwoTagsAreAmbiguous(parse: TagParser, t: string, u: string)
    requires t != u && parse(t) == parse(u) && parse(t).Some?
    ensures !Unambiguous(parse, [t, u])
  {
  }

  /** A leading zero makes a second tag for the same release, and then the order of the tags decides. */
  lemma {:induction false} LeadingZerosAreAmbiguous(v: Version)
    ensures !Unambiguous(ParseTag, [Canonical(v), "0" + Canonical(v)])
  {
    CanonicalReadsBack(v);
    var major := Decimal(v.line.0);
    var rest := Decimal(v.line.1) + "." + Decimal(v.patch);
    assert "0" + Canonical(v) == "0" + major + "." + rest;
    NumbersReadBack("0" + major, Decimal(v.line.1), Decimal(v.patch));
    ZeroAddsNothing(major);
    DecimalReadsBack(v.line.0);
    DecimalReadsBack(v.line.1);
    DecimalReadsBack(v.patch);
    TwoTagsAreAmbiguous(ParseTag, Canonical(v), "0" + Canonical(v));
  }
}
