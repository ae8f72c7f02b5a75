/** Taking the password out of a URL before it is logged (crates/core/src/logfields.rs, `redact_url`). */
module RedactUrl {
  import opened Prelude
  import opened Strings

  const SEPARATOR := "://"

  /** `split_once("://")`. */
  function SplitScheme(s: string): (r: Option<(string, string)>)
    ensures r.Some? ==> r.value.0 + SEPARATOR + r.value.1 == s
  {
    if SEPARATOR <= s then Some(([], s[3..]))
    else if s == [] then None
    else
      var rest := SplitScheme(s[1..]);
      if rest.None? then None else assert [s[0]] + s[1..] == s; Some(([s[0]] + rest.value.0, rest.value.1))
  }

  /** `split_at` the first `/`, or at the end. */
  function SplitAuthority(s: string): (r: (string, string))
    ensures r.0 + r.1 == s && '/' !in r.0 && (r.1 == [] || r.1[0] == '/')
  {
    if s == [] || s[0] == '/' then ([], s)
    else
      var (authority, path) := SplitAuthority(s[1..]);
      assert [s[0]] + s[1..] == s;
      ([s[0]] + authority, path)
  }

  /** `rsplit_once('@')`. */
  function SplitCredential(s: string): (r: Option<(string, string)>)
    ensures r.None? <==> '@' !in s
    ensures r.Some? ==> r.value.0 + "@" + r.value.1 == s && '@' !in r.value.1
  {
    if s == [] then None
    else
      var last := |s| - 1;
      assert s == s[..last] + [s[last]];
      if s[last] == '@' then Some((s[..last], []))
      else
        var rest := SplitCredential(s[..last]);
        if rest.None? then None else Some((rest.value.0, rest.value.1 + [s[last]]))
  }

  function User(credential: string): string {
    match SplitOnce(credential, ':')
    case None => credential
    case Some((user, _)) => user
  }

  /** A URL with credentials, from its parts. */
  function Url(scheme: string, user: string, password: string, host: string, path: string): string {
    scheme + SEPARATOR + (user + ":" + password + "@" + host + path)
  }

  /** `redact_url`. */
  function Redact(url: string): string {
    match SplitScheme(url)
    case None => url
    case Some((scheme, rest)) =>
      var (authority, path) := SplitAuthority(rest);
      match SplitCredential(authority)
      case None => url
      case Some((credential, host)) => Url(scheme, User(credential), "***", host, path)
  }

  // ---------------------------------------------------------------------------------------------
  // The three splits, on text put together from its parts

  /** No `://` starts inside `scheme` when `://` follows it. */
  predicate IsScheme(scheme: string) { forall i :: 0 <= i < |scheme| ==> !(SEPARATOR <= (scheme + SEPARATOR)[i..]) }

  lemma {:induction false} SchemeTail(scheme: string)
    requires IsScheme(scheme) && scheme != []
    ensures IsScheme(scheme[1..])
  {
    forall i | 0 <= i < |scheme[1..]| ensures !(SEPARATOR <= (scheme[1..] + SEPARATOR)[i..]) {
      assert (scheme[1..] + SEPARATOR)[i..] == (scheme + SEPARATOR)[i + 1..];
    }
  }

  lemma {:induction false} SplitSchemeIs(scheme: string, rest: string)
    requires IsScheme(scheme)
    ensures SplitScheme(scheme + SEPARATOR + rest) == Some((scheme, rest))
  {
    var url := scheme + SEPARATOR + rest;
    if scheme == [] {
      assert url == SEPARATOR + rest;
    } else {
      assert (scheme + SEPARATOR)[0..] == scheme + SEPARATOR;
      assert url[..3] == (scheme + SEPARATOR)[..3];
      SchemeTail(scheme);
      SplitSchemeIs(scheme[1..], rest);
      assert url[1..] == scheme[1..] + SEPARATOR + rest;
      assert [scheme[0]] + scheme[1..] == scheme;
    }
  }

  lemma {:induction false} SplitIsScheme(s: string)
    ensures SplitScheme(s).Some? ==> IsScheme(SplitScheme(s).value.0)
  {
    if SplitScheme(s).Some? && !(SEPARATOR <= s) {
      SplitIsScheme(s[1..]);
      var (scheme, rest) := SplitScheme(s).value;
      var inner := SplitScheme(s[1..]).value.0;
      forall i | 0 <= i < |scheme| ensures !(SEPARATOR <= (scheme + SEPARATOR)[i..]) {
        if i == 0 {
          assert (scheme + SEPARATOR)[0..][..3] == s[..3];
        } else {
          assert (scheme + SEPARATOR)[i..] == (inner + SEPARATOR)[i - 1..];
        }
      }
    }
  }

  lemma {:induction false} SplitAuthorityIs(authority: string, path: string)
    requires '/' !in authority && (path == [] || path[0] == '/')
    ensures SplitAuthority(authority + path) == (authority, path)
  {
    if authority == [] {
      assert authority + path == path;
    } else {
      assert (authority + path)[1..] == authority[1..] + path;
      SplitAuthorityIs(authority[1..], path);
      assert [authority[0]] + authority[1..] == authority;
    }
  }

  lemma {:induction false} SplitCredentialIs(credential: string, host: string)
    requires '@' !in host
    ensures SplitCredential(credential + "@" + host) == Some((credential, host))
  {
    var s := credential + "@" + host;
    if host == [] {
      assert s[..|s| - 1] == credential;
    } else {
      var last := |host| - 1;
      assert s[..|s| - 1] == credential + "@" + host[..last];
      assert host == host[..last] + [host[last]];
      SplitCredentialIs(credential, host[..last]);
    }
  }

  lemma {:induction false} UserIs(user: string, password: string)
    requires ':' !in user
    ensures User(user + ":" + password) == user
  {
    SplitOnceIs(user, ':', password);
  }

  // ---------------------------------------------------------------------------------------------
  // Properties

  /** What a caller means by those parts; the password may be anything, `@`, `:` and `/` included. */
  predicate Parts(scheme: string, user: string, host: string, path: string) {
    && IsScheme(scheme)
    && ':' !in user && '/' !in user
    && '@' !in host && '/' !in host
    && (path == [] || path[0] == '/')
  }

  lemma {:induction false} RedactAuthority(scheme: string, credential: string, host: string, path: string)
    requires IsScheme(scheme) && '/' !in credential && '@' !in host && '/' !in host && (path == [] || path[0] == '/')
    ensures Redact(scheme + SEPARATOR + (credential + "@" + host + path))
         == Url(scheme, User(credential), "***", host, path)
  {
    var authority := credential + "@" + host;
    SplitSchemeIs(scheme, authority + path);
    SplitAuthorityIs(authority, path);
    SplitCredentialIs(credential, host);
  }

  /** The password becomes `***` and everything else stays. */
  lemma {:induction false} PasswordIsRedacted(scheme: string, user: string, password: string, host: string, path: string)
    requires Parts(scheme, user, host, path) && '/' !in password
    ensures Redact(Url(scheme, user, password, host, path)) == Url(scheme, user, "***", host, path)
  {
    var credential := user + ":" + password;
    UserIs(user, password);
    RedactAuthority(scheme, credential, host, path);
  }

  /** With no credentials nothing changes, whatever the path contains. */
  lemma {:induction false} NoCredentialsNoChange(scheme: string, authority: string, path: string)
    requires IsScheme(scheme) && '/' !in authority && '@' !in authority && (path == [] || path[0] == '/')
    ensures Redact(scheme + "://" + authority + path) == scheme + "://" + authority + path
  {
    assert scheme + "://" + authority + path == scheme + SEPARATOR + (authority + path);
    SplitSchemeIs(scheme, authority + path);
    SplitAuthorityIs(authority, path);
  }

  /** Redacting twice is redacting once, for every text. */
  lemma {:induction false} RedactIsIdempotent(url: string)
    ensures Redact(Redact(url)) == Redact(url)
  {
    if Redact(url) != url {
      var (scheme, rest) := SplitScheme(url).value;
      var (authority, path) := SplitAuthority(rest);
      var (credential, host) := SplitCredential(authority).value;
      SplitIsScheme(url);
      var user := User(credential);
      assert forall c :: c in user ==> c in credential;
      PasswordIsRedacted(scheme, user, "***", host, path);
      assert Redact(url) == Url(scheme, user, "***", host, path);
    }
  }

  /** With a `/` in the password the authority ends there: what is taken for a path is the rest of the URL. */
  lemma {:induction false} AuthorityEndsAtSlash(
      scheme: string, user: string, before: string, after: string, host: string, path: string)
    requires Parts(scheme, user, host, path) && '/' !in before
    ensures var rest := "/" + after + "@" + host + path; var authority := user + ":" + before;
            && SplitScheme(Url(scheme, user, before + "/" + after, host, path)) == Some((scheme, authority + rest))
            && SplitAuthority(authority + rest) == (authority, rest)
  {
    var rest, authority := "/" + after + "@" + host + path, user + ":" + before;
    assert Url(scheme, user, before + "/" + after, host, path) == scheme + SEPARATOR + (authority + rest);
    SplitSchemeIs(scheme, authority + rest);
    SplitAuthorityIs(authority, rest);
  }

  /** The failing case: unless an `@` comes before that `/`, the URL is returned as it stands, password and all. */
  lemma {:induction false} SlashKeepsThePassword(
      scheme: string, user: string, before: string, after: string, host: string, path: string)
    requires Parts(scheme, user, host, path) && '@' !in user && '@' !in before && '/' !in before
    ensures var url := Url(scheme, user, before + "/" + after, host, path); Redact(url) == url
  {
    AuthorityEndsAtSlash(scheme, user, before, after, host, path);
    assert '@' !in user + ":" + before;
  }

  lemma {:induction false} CredentialLength(user: string, before: string, credential: string, host: string)
    requires ':' !in user && credential + "@" + host == user + ":" + before
    ensures |User(credential)| + |host| >= |user|
  {
    var s := user + ":" + before;
    if |credential| > |user| {
      assert credential == s[..|credential|];
      assert credential == user + ":" + s[|user| + 1..|credential|];
      UserIs(user, s[|user| + 1..|credential|]);
    } else {
      assert credential == user[..|credential|] by { assert credential == s[..|credential|]; }
      assert ':' !in credential;
    }
  }

  /** The password is redacted, and nothing else is, if and only if it holds no `/`. */
  lemma {:induction false} RedactedIffNoSlash(scheme: string, user: string, password: string, host: string, path: string)
    requires Parts(scheme, user, host, path)
    ensures Redact(Url(scheme, user, password, host, path)) == Url(scheme, user, "***", host, path) <==> '/' !in password
  {
    if '/' !in password {
      PasswordIsRedacted(scheme, user, password, host, path);
    } else {
      var (before, after) := SplitOnce(password, '/').value;
      SlashedLengthDiffers(scheme, user, before, after, host, path);
      assert password == before + "/" + after;
    }
  }

  lemma {:induction false} SlashedLengthDiffers(
      scheme: string, user: string, before: string, after: string, host: string, path: string)
    requires Parts(scheme, user, host, path) && '/' !in before
    ensures Redact(Url(scheme, user, before + "/" + after, host, path)) != Url(scheme, user, "***", host, path)
  {
    var url := Url(scheme, user, before + "/" + after, host, path);
    AuthorityEndsAtSlash(scheme, user, before, after, host, path);
    var split := SplitCredential(user + ":" + before);
    if split.None? {
      assert Redact(url) == url;
      var k := |scheme| + 4 + |user| + |before|;
      if |before| + 1 + |after| == 3 {
        assert url[k] == '/';
        assert Url(scheme, user, "***", host, path)[k] == '*';
      }
    } else {
      CredentialLength(user, before, split.value.0, split.value.1);
    }
  }
}
