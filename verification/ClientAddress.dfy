/**
 Which address a request came from (crates/core/src/client.rs): the socket peer, or what trusted proxies say
 in a forwarded-for header. Reading an IP address from text is the standard library's and is a parameter.
 */
module ClientAddress {
  import opened Prelude
  import opened Strings

  datatype IpAddr = V4(bits: nat) | V6(bits: nat)

  /** A network: the leading `len` bits of `base`. */
  datatype IpNet = Net(base: IpAddr, len: nat)

  /** A header value that is visible ASCII, or one that is not and cannot be read as text. */
  datatype HeaderValue = Text(value: string) | Opaque

  datatype Header = Header(name: string, value: HeaderValue)

  datatype ProxyPolicy = ProxyPolicy(trusted: seq<IpNet>, header: string)

  type IpParser = string -> Option<IpAddr>

  function ShiftRight(bits: nat, n: nat): nat {
    if n == 0 then bits else ShiftRight(bits / 2, n - 1)
  }

  const V4_MAPPED := 0xffff

  /** `IpAddr::to_canonical`: an IPv4 address mapped into IPv6 is that IPv4 address. */
  function Canonical(ip: IpAddr): (c: IpAddr)
    ensures c.V6? ==> ShiftRight(c.bits, 32) != V4_MAPPED
  {
    if ip.V6? && ShiftRight(ip.bits, 32) == V4_MAPPED then V4(ip.bits % 0x1_0000_0000) else ip
  }

  predicate Contains(net: IpNet, ip: IpAddr) {
    match (net.base, ip)
    case (V4(base), V4(bits)) => net.len <= 32 && ShiftRight(base, 32 - net.len) == ShiftRight(bits, 32 - net.len)
    case (V6(base), V6(bits)) => net.len <= 128 && ShiftRight(base, 128 - net.len) == ShiftRight(bits, 128 - net.len)
    case _ => false
  }

  predicate NetsContain(nets: seq<IpNet>, ip: IpAddr) {
    exists net :: net in nets && Contains(net, Canonical(ip))
  }

  // ---------------------------------------------------------------------------------------------
  // Reading the header

  /** `str::split(',')`: always at least one piece. */
  function Split(s: string): (pieces: seq<string>)
    ensures |pieces| > 0
    decreases |s|
  {
    match SplitOnce(s, ',')
    case None => [s]
    case Some((a, b)) => assert |s| == |a| + 1 + |b|; [a] + Split(b)
  }

  function Colons(s: string): nat {
    if s == [] then 0 else (if s[0] == ':' then 1 else 0) + Colons(s[1..])
  }

  /** `parse_forwarded_entry`. */
  function ParseEntry(parse: IpParser, entry: string): Option<IpAddr> {
    if entry == [] then None
    else if entry[0] == '[' then
      match SplitOnce(entry[1..], ']')
      case None => None
      case Some((host, _)) => parse(host)
    else if parse(entry).Some? then parse(entry)
    else if Colons(entry) == 1 then
      match SplitOnce(entry, ':')
      case None => None
      case Some((host, _)) => parse(host)
    else None
  }

  /** The values of one header, in order, that can be read as text. */
  function TextValues(headers: seq<Header>, name: string): seq<string> {
    if headers == [] then []
    else (if headers[0].name == name && headers[0].value.Text? then [headers[0].value.value] else [])
         + TextValues(headers[1..], name)
  }

  function Entries(values: seq<string>): seq<string> {
    if values == [] then [] else Split(values[0]) + Entries(values[1..])
  }

  /** The address of one entry, if it has one. */
  function Address(parse: IpParser, entry: string): seq<IpAddr> {
    var ip := ParseEntry(parse, Trim(entry));
    if ip.Some? then [Canonical(ip.value)] else []
  }

  function Addresses(parse: IpParser, entries: seq<string>): seq<IpAddr> {
    if entries == [] then [] else Address(parse, entries[0]) + Addresses(parse, entries[1..])
  }

  /** The addresses of the forwarded-for list, leftmost first. */
  function Hops(p: ProxyPolicy, parse: IpParser, headers: seq<Header>): seq<IpAddr> {
    Addresses(parse, Entries(TextValues(headers, p.header)))
  }

  /** The rightmost hop outside the trusted networks, if there is one. */
  function LastUntrusted(p: ProxyPolicy, hops: seq<IpAddr>): Option<IpAddr> {
    if hops == [] then None
    else if !NetsContain(p.trusted, hops[|hops| - 1]) then Some(hops[|hops| - 1])
    else LastUntrusted(p, hops[..|hops| - 1])
  }

  /** `ProxyPolicy::resolve`. */
  function Resolve(p: ProxyPolicy, parse: IpParser, peer: Option<IpAddr>, headers: seq<Header>): Option<IpAddr> {
    if peer.None? then None
    else
      var address := Canonical(peer.value);
      if p.trusted == [] || !NetsContain(p.trusted, address) then Some(address)
      else
        var hops := Hops(p, parse, headers);
        var client := LastUntrusted(p, hops);
        if client.Some? then client
        else if hops != [] then Some(hops[0])
        else Some(address)
  }

  // ---------------------------------------------------------------------------------------------
  // Properties

  lemma {:induction false} ColonsAppend(a: string, b: string)
    ensures Colons(a + b) == Colons(a) + Colons(b)
  {
    if a == [] {
      assert a + b == b;
    } else {
      assert (a + b)[1..] == a[1..] + b;
      ColonsAppend(a[1..], b);
    }
  }

  lemma {:induction false} NoColons(s: string)
    ensures Colons(s) == 0 <==> ':' !in s
  {
    if s != [] {
      NoColons(s[1..]);
      assert s == [s[0]] + s[1..];
    }
  }

  /** A port after a bracketed host, or after a single colon, is dropped; any other text is an address as it stands. */
  lemma PortsAreStrippedOnlyWhenUnambiguous(parse: IpParser, host: string, port: string)
    ensures ']' !in host ==> ParseEntry(parse, "[" + host + "]" + port) == parse(host)
    ensures
      var entry := host + ":" + port;
      entry[0] != '[' ==>
        ParseEntry(parse, entry) == if parse(entry).Some? || ':' in host + port then parse(entry) else parse(host)
  {
    if ']' !in host {
      assert ("[" + host + "]" + port)[1..] == host + "]" + port;
      SplitOnceIs(host, ']', port);
    }
    var entry := host + ":" + port;
    ColonsAppend(host + ":", port);
    ColonsAppend(host, ":");
    assert Colons(":") == 1;
    NoColons(host);
    NoColons(port);
    if ':' !in host { SplitOnceIs(host, ':', port); }
  }

  /** A peer that is not a trusted proxy decides its own address; its headers decide nothing. */
  lemma UntrustedPeersAreTakenAtTheirSocket(p: ProxyPolicy, parse: IpParser, peer: IpAddr, headers: seq<Header>)
    requires !NetsContain(p.trusted, peer)
    ensures Resolve(p, parse, Some(peer), headers) == Some(Canonical(peer))
  {
  }

  /** Hop `i` is outside the trusted networks and every hop to its right is inside them. */
  predicate IsLastUntrusted(p: ProxyPolicy, hops: seq<IpAddr>, i: int) {
    && 0 <= i < |hops| && !NetsContain(p.trusted, hops[i])
    && forall j :: i < j < |hops| ==> NetsContain(p.trusted, hops[j])
  }

  lemma {:induction false} LastUntrustedIs(p: ProxyPolicy, hops: seq<IpAddr>, i: nat)
    requires IsLastUntrusted(p, hops, i)
    ensures LastUntrusted(p, hops) == Some(hops[i])
    decreases |hops|
  {
    if i < |hops| - 1 {
      assert NetsContain(p.trusted, hops[|hops| - 1]);
      LastUntrustedIs(p, hops[..|hops| - 1], i);
    }
  }

  lemma {:induction false} AllTrusted(p: ProxyPolicy, hops: seq<IpAddr>)
    ensures LastUntrusted(p, hops).None? <==> forall ip :: ip in hops ==> NetsContain(p.trusted, ip)
  {
    if hops != [] {
      AllTrusted(p, hops[..|hops| - 1]);
      assert hops == hops[..|hops| - 1] + [hops[|hops| - 1]];
    }
  }

  /**
   From a trusted peer the answer is the rightmost hop outside the trusted networks; with none, the leftmost
   hop, or the peer itself when there are no hops.
   */
  lemma ResolveWalksRightToLeft(p: ProxyPolicy, parse: IpParser, peer: IpAddr, headers: seq<Header>)
    requires NetsContain(p.trusted, peer)
    ensures var hops := Hops(p, parse, headers); var answer := Resolve(p, parse, Some(peer), headers);
            && (forall i :: IsLastUntrusted(p, hops, i) ==> answer == Some(hops[i]))
            && ((forall ip :: ip in hops ==> NetsContain(p.trusted, ip)) ==>
                  answer == Some(if hops == [] then Canonical(peer) else hops[0]))
  {
    var hops := Hops(p, parse, headers);
    AllTrusted(p, hops);
    assert Canonical(Canonical(peer)) == Canonical(peer);
    forall i | IsLastUntrusted(p, hops, i)
      ensures Resolve(p, parse, Some(peer), headers) == Some(hops[i])
    {
      LastUntrustedIs(p, hops, i);
    }
  }

  lemma {:induction false} TextValuesAppend(a: seq<Header>, b: seq<Header>, name: string)
    ensures TextValues(a + b, name) == TextValues(a, name) + TextValues(b, name)
  {
    if a == [] {
      assert a + b == b;
    } else {
      assert (a + b)[1..] == a[1..] + b;
      TextValuesAppend(a[1..], b, name);
    }
  }

  lemma {:induction false} EntriesAppend(a: seq<string>, b: seq<string>)
    ensures Entries(a + b) == Entries(a) + Entries(b)
  {
    if a == [] {
      assert a + b == b;
    } else {
      assert (a + b)[1..] == a[1..] + b;
      EntriesAppend(a[1..], b);
    }
  }

  lemma {:induction false} AddressesAppend(parse: IpParser, a: seq<string>, b: seq<string>)
    ensures Addresses(parse, a + b) == Addresses(parse, a) + Addresses(parse, b)
  {
    if a == [] {
      assert a + b == b;
    } else {
      assert (a + b)[0] == a[0] && (a + b)[1..] == a[1..] + b;
      AddressesAppend(parse, a[1..], b);
      Regroup(Address(parse, a[0]), Addresses(parse, a[1..]), Addresses(parse, b));
    }
  }

  lemma {:induction false} LeftDoesNotMatter(p: ProxyPolicy, left: seq<IpAddr>, right: seq<IpAddr>)
    requires LastUntrusted(p, right).Some?
    ensures LastUntrusted(p, left + right) == LastUntrusted(p, right)
  {
    var all := left + right;
    assert all[|all| - 1] == right[|right| - 1];
    if NetsContain(p.trusted, right[|right| - 1]) {
      assert all[..|all| - 1] == left + right[..|right| - 1];
      LeftDoesNotMatter(p, left, right[..|right| - 1]);
    }
  }

  /** Whatever a client writes in front of what the proxies add, the first untrusted hop they recorded is the answer. */
  lemma ForgedHopsAreIgnored(p: ProxyPolicy, parse: IpParser, peer: IpAddr, forged: seq<Header>, headers: seq<Header>)
    requires exists ip :: ip in Hops(p, parse, headers) && !NetsContain(p.trusted, ip)
    ensures Resolve(p, parse, Some(peer), forged + headers) == Resolve(p, parse, Some(peer), headers)
  {
    TextValuesAppend(forged, headers, p.header);
    EntriesAppend(TextValues(forged, p.header), TextValues(headers, p.header));
    AddressesAppend(parse, Entries(TextValues(forged, p.header)), Entries(TextValues(headers, p.header)));
    AllTrusted(p, Hops(p, parse, headers));
    LeftDoesNotMatter(p, Hops(p, parse, forged), Hops(p, parse, headers));
  }

  // ---------------------------------------------------------------------------------------------
  // One list, however many lines

  lemma {:induction false} SplitFirst(a: string, b: string)
    requires ',' !in a
    ensures Split(a + [','] + b) == [a] + Split(b)
  {
    SplitOnceIs(a, ',', b);
  }

  lemma {:induction false} CommaAfter(a: string, b: string, c: string)
    ensures a + [','] + b + [','] + c == a + [','] + (b + [','] + c)
  {
  }

  lemma {:induction false} SplitAtComma(a: string, b: string)
    ensures Split(a + [','] + b) == Split(a) + Split(b)
    decreases |a|
  {
    if ',' !in a {
      SplitFirst(a, b);
    } else {
      var halves := SplitOnce(a, ',').value;
      var x, y := halves.0, halves.1;
      assert |y| < |a| by { assert |a| == |x + [','] + y|; }
      SplitAtComma(y, b);
      CommaAfter(x, y, b);
      SplitFirst(x, y + [','] + b);
      SplitFirst(x, y);
      Regroup([x], Split(y), Split(b));
    }
  }

  lemma {:induction false} SplitJoin(values: seq<string>)
    requires values != []
    ensures Split(Join(values)) == Entries(values)
  {
    if |values| == 1 {
      assert Entries(values[1..]) == [];
      assert Split(values[0]) + [] == Split(values[0]);
    } else {
      SplitAtComma(values[0], Join(values[1..]));
      SplitJoin(values[1..]);
    }
  }

  lemma EmptyEntryHasNoAddress(parse: IpParser)
    ensures Split([]) == [[]] && Addresses(parse, [[]]) == []
  {
  }

  /** How a forwarded-for list is cut into header lines never changes the answer. */
  lemma LinesDoNotMatter(p: ProxyPolicy, parse: IpParser, peer: IpAddr, h: seq<Header>, h': seq<Header>)
    requires Join(TextValues(h, p.header)) == Join(TextValues(h', p.header))
    ensures Resolve(p, parse, Some(peer), h) == Resolve(p, parse, Some(peer), h')
  {
    EmptyEntryHasNoAddress(parse);
    if TextValues(h, p.header) != [] { SplitJoin(TextValues(h, p.header)); }
    if TextValues(h', p.header) != [] { SplitJoin(TextValues(h', p.header)); }
  }

  /** The same at the level of text: whatever stands left of a comma in front of the proxies' own list is ignored. */
  lemma ForgedTextIsIgnored(p: ProxyPolicy, parse: IpParser, peer: IpAddr, forged: string, h: seq<Header>, h': seq<Header>)
    requires TextValues(h, p.header) != []
    requires Join(TextValues(h', p.header)) == forged + "," + Join(TextValues(h, p.header))
    requires exists ip :: ip in Hops(p, parse, h) && !NetsContain(p.trusted, ip)
    ensures Resolve(p, parse, Some(peer), h') == Resolve(p, parse, Some(peer), h)
  {
    var line := Header(p.header, Text(forged));
    assert [line][1..] == [];
    TextValuesAppend([line], h, p.header);
    assert TextValues([line] + h, p.header) == [forged] + TextValues(h, p.header);
    assert ([forged] + TextValues(h, p.header))[1..] == TextValues(h, p.header);
    LinesDoNotMatter(p, parse, peer, h', [line] + h);
    ForgedHopsAreIgnored(p, parse, peer, [line], h);
  }

  // ---------------------------------------------------------------------------------------------
  // What is read from the list

  predicate Blank(s: string) { forall i :: 0 <= i < |s| ==> s[i] == ' ' || '\t' <= s[i] <= '\r' }

  lemma {:induction false} TrimBlankFront(l: string, s: string)
    requires Blank(l)
    ensures Trim(l + s) == Trim(s)
  {
    if l == [] {
      assert l + s == s;
    } else {
      assert (l + s)[0] == l[0] && (l + s)[1..] == l[1..] + s;
      assert Blank(l[1..]);
      TrimBlankFront(l[1..], s);
    }
  }

  lemma {:induction false} TrimBlankBack(s: string, r: string)
    requires Blank(r)
    ensures Trim(s + r) == Trim(s)
    decreases |s| + |r|
  {
    if r == [] {
      assert s + r == s;
    } else if s == [] {
      TrimBlankFront(r, []);
      assert s + r == r + [];
    } else if Whitespace(s[0]) {
      assert (s + r)[1..] == s[1..] + r;
      TrimBlankBack(s[1..], r);
    } else {
      var last := |r| - 1;
      assert (s + r)[|s + r| - 1] == r[last] && (s + r)[..|s + r| - 1] == s + r[..last];
      assert Blank(r[..last]);
      TrimBlankBack(s, r[..last]);
    }
  }

  /** `padded` is `entry` with white space around it. */
  ghost predicate Pads(padded: string, entry: string) {
    exists l, r :: Blank(l) && Blank(r) && padded == l + entry + r
  }

  lemma {:induction false} PaddedTrims(padded: string, entry: string)
    requires Pads(padded, entry)
    ensures Trim(padded) == Trim(entry)
  {
    var l, r :| Blank(l) && Blank(r) && padded == l + entry + r;
    TrimBlankBack(l + entry, r);
    TrimBlankFront(l, entry);
  }

  lemma {:induction false} PaddedAddresses(parse: IpParser, padded: seq<string>, entries: seq<string>)
    requires |padded| == |entries| && forall i :: 0 <= i < |entries| ==> Pads(padded[i], entries[i])
    ensures Addresses(parse, padded) == Addresses(parse, entries)
  {
    if entries != [] {
      PaddedTrims(padded[0], entries[0]);
      PaddedAddresses(parse, padded[1..], entries[1..]);
    }
  }

  lemma {:induction false} SplitOfJoined(entries: seq<string>)
    requires entries != [] && forall i :: 0 <= i < |entries| ==> ',' !in entries[i]
    ensures Split(Join(entries)) == entries
  {
    if |entries| > 1 {
      SplitAtComma(entries[0], Join(entries[1..]));
      SplitOfJoined(entries[1..]);
      assert [entries[0]] + entries[1..] == entries;
    }
  }

  /** The header lines, put together, are these comma-separated entries. */
  predicate Lists(headers: seq<Header>, name: string, entries: seq<string>) {
    && entries != [] && (forall i :: 0 <= i < |entries| ==> ',' !in entries[i])
    && Join(TextValues(headers, name)) == Join(entries)
  }

  lemma {:induction false} HopsOfList(p: ProxyPolicy, parse: IpParser, headers: seq<Header>, entries: seq<string>)
    requires Lists(headers, p.header, entries)
    ensures Hops(p, parse, headers) == Addresses(parse, entries)
  {
    SplitOfJoined(entries);
    EmptyEntryHasNoAddress(parse);
    if TextValues(headers, p.header) != [] { SplitJoin(TextValues(headers, p.header)); }
  }

  /** White space around the entries of the list never changes the answer. */
  lemma {:induction false} PaddingDoesNotMatter(p: ProxyPolicy, parse: IpParser, peer: IpAddr,
                                                h: seq<Header>, entries: seq<string>, h': seq<Header>, padded: seq<string>)
    requires Lists(h, p.header, entries) && Lists(h', p.header, padded)
    requires |padded| == |entries| && forall i :: 0 <= i < |entries| ==> Pads(padded[i], entries[i])
    ensures Resolve(p, parse, Some(peer), h) == Resolve(p, parse, Some(peer), h')
  {
    HopsOfList(p, parse, h, entries);
    HopsOfList(p, parse, h', padded);
    PaddedAddresses(parse, padded, entries);
  }

  /** Text with nothing to trim that the parser reads as it stands. */
  predicate Reads(parse: IpParser, text: string, ip: IpAddr) {
    && text != [] && text[0] != '[' && !Whitespace(text[0]) && !Whitespace(text[|text| - 1])
    && parse(text) == Some(ip)
  }

  lemma {:induction false} AddressesRead(parse: IpParser, padded: seq<string>, texts: seq<string>, ips: seq<IpAddr>)
    requires |padded| == |texts| == |ips|
    requires forall i :: 0 <= i < |texts| ==> Pads(padded[i], texts[i]) && Reads(parse, texts[i], ips[i])
    ensures |Addresses(parse, padded)| == |ips|
    ensures forall i :: 0 <= i < |ips| ==> Addresses(parse, padded)[i] == Canonical(ips[i])
  {
    if texts != [] {
      AddressOfPadded(parse, padded[0], texts[0], ips[0]);
      AddressesRead(parse, padded[1..], texts[1..], ips[1..]);
    }
  }

  /**
   From a trusted peer, with a list of readable addresses: the answer is the rightmost that no trusted network
   holds, and the leftmost when they hold them all.
   */
  lemma {:induction false} ListDecides(p: ProxyPolicy, parse: IpParser, peer: IpAddr, headers: seq<Header>,
                                       padded: seq<string>, texts: seq<string>, ips: seq<IpAddr>, i: nat)
    requires NetsContain(p.trusted, peer) && Lists(headers, p.header, padded) && |padded| == |texts| == |ips|
    requires forall k :: 0 <= k < |texts| ==> Pads(padded[k], texts[k]) && Reads(parse, texts[k], ips[k])
    requires i < |ips| && forall k :: i < k < |ips| ==> NetsContain(p.trusted, ips[k])
    requires i == 0 || !NetsContain(p.trusted, ips[i])
    ensures Resolve(p, parse, Some(peer), headers) == Some(Canonical(ips[i]))
  {
    HopsOfList(p, parse, headers, padded);
    AddressesRead(parse, padded, texts, ips);
    ResolveWalksRightToLeft(p, parse, peer, headers);
    var hops := Hops(p, parse, headers);
    CanonicalTwice(p.trusted, ips);
    if !NetsContain(p.trusted, ips[i]) {
      assert IsLastUntrusted(p, hops, i);
    }
  }

  lemma {:induction false} CanonicalTwice(nets: seq<IpNet>, ips: seq<IpAddr>)
    ensures forall i :: 0 <= i < |ips| ==> (NetsContain(nets, Canonical(ips[i])) <==> NetsContain(nets, ips[i]))
  {
    forall i | 0 <= i < |ips| ensures NetsContain(nets, Canonical(ips[i])) <==> NetsContain(nets, ips[i]) {
      assert Canonical(Canonical(ips[i])) == Canonical(ips[i]);
    }
  }

  lemma {:induction false} AddressesLast(parse: IpParser, entries: seq<string>)
    requires entries != []
    ensures Addresses(parse, entries) == Addresses(parse, entries[..|entries| - 1]) + Address(parse, entries[|entries| - 1])
  {
    var last := |entries| - 1;
    AddressesAppend(parse, entries[..last], [entries[last]]);
    assert entries == entries[..last] + [entries[last]];
    assert [entries[last]][1..] == [];
  }

  /** What the nearest proxy wrote last decides, when no trusted network holds it, whatever stands before it. */
  lemma {:induction false} LastEntryDecides(p: ProxyPolicy, parse: IpParser, peer: IpAddr, headers: seq<Header>,
                                            entries: seq<string>, text: string, ip: IpAddr)
    requires NetsContain(p.trusted, peer) && Lists(headers, p.header, entries)
    requires Pads(entries[|entries| - 1], text) && Reads(parse, text, ip) && !NetsContain(p.trusted, ip)
    ensures Resolve(p, parse, Some(peer), headers) == Some(Canonical(ip))
  {
    HopsOfList(p, parse, headers, entries);
    AddressesLast(parse, entries);
    AddressOfPadded(parse, entries[|entries| - 1], text, ip);
    ResolveWalksRightToLeft(p, parse, peer, headers);
    var hops := Hops(p, parse, headers);
    CanonicalTwice(p.trusted, [ip]);
    assert [ip][0] == ip;
    assert IsLastUntrusted(p, hops, |hops| - 1);
  }

  lemma {:induction false} AddressOfPadded(parse: IpParser, entry: string, text: string, ip: IpAddr)
    requires Pads(entry, text) && Reads(parse, text, ip)
    ensures Address(parse, entry) == [Canonical(ip)]
  {
    PaddedTrims(entry, text);
  }

  /** Lines of other headers, and values that are not text, change nothing. */
  lemma {:induction false} OtherLinesDoNotMatter(p: ProxyPolicy, parse: IpParser, peer: IpAddr,
                                                 before: seq<Header>, line: Header, after: seq<Header>)
    requires line.name != p.header || line.value.Opaque?
    ensures Resolve(p, parse, Some(peer), before + [line] + after) == Resolve(p, parse, Some(peer), before + after)
  {
    assert [line][1..] == [];
    TextValuesAppend(before + [line], after, p.header);
    TextValuesAppend(before, [line], p.header);
    TextValuesAppend(before, after, p.header);
    assert TextValues([line], p.header) == [];
    assert TextValues(before, p.header) + [] == TextValues(before, p.header);
  }

  /** A line of the header is read for what it says. */
  lemma {:induction false} OneLineLists(name: string, entries: seq<string>)
    requires entries != [] && forall i :: 0 <= i < |entries| ==> ',' !in entries[i]
    ensures Lists([Header(name, Text(Join(entries)))], name, entries)
  {
    var line := Header(name, Text(Join(entries)));
    assert [line][1..] == [];
    assert TextValues([line], name) == [Join(entries)];
  }

  lemma {:induction false} AddressesAreCanonical(parse: IpParser, entries: seq<string>)
    ensures forall ip :: ip in Addresses(parse, entries) ==> Canonical(ip) == ip
  {
    if entries != [] { AddressesAreCanonical(parse, entries[1..]); }
  }

  lemma {:induction false} LastUntrustedIsAHop(p: ProxyPolicy, hops: seq<IpAddr>)
    ensures LastUntrusted(p, hops).Some? ==> LastUntrusted(p, hops).value in hops
  {
    if hops != [] { LastUntrustedIsAHop(p, hops[..|hops| - 1]); }
  }

  /** The answer is always in the form the network rules compare. */
  lemma AnswerIsCanonical(p: ProxyPolicy, parse: IpParser, peer: IpAddr, headers: seq<Header>)
    ensures var answer := Resolve(p, parse, Some(peer), headers); answer.Some? && Canonical(answer.value) == answer.value
  {
    assert Canonical(Canonical(peer)) == Canonical(peer);
    AddressesAreCanonical(parse, Entries(TextValues(headers, p.header)));
    LastUntrustedIsAHop(p, Hops(p, parse, headers));
  }

  /** A network written in IPv4-mapped form never matches anyone: every address is compared unmapped. */
  lemma MappedNetworksMatchNothing(net: IpNet, ip: IpAddr)
    requires net.base.V6? && 96 <= net.len <= 128 && ShiftRight(net.base.bits, 32) == V4_MAPPED
    ensures !NetsContain([net], ip)
  {
    SamePrefix(net.base.bits, Canonical(ip).bits, 128 - net.len, 32);
  }

  function Pow2(n: nat): (p: nat)
    ensures p > 0
  {
    if n == 0 then 1 else 2 * Pow2(n - 1)
  }

  /** `q` times two to the `n`. */
  function Scaled(q: nat, n: nat): nat { if n == 0 then q else 2 * Scaled(q, n - 1) }

  lemma {:induction false} DoubleProduct(q: nat, p: nat)
    ensures 2 * (q * p) == q * (2 * p)
  {
  }

  lemma {:induction false} ScaledIsProduct(q: nat, n: nat)
    ensures Scaled(q, n) == q * Pow2(n) && Scaled(q, n) + Pow2(n) == (q + 1) * Pow2(n)
  {
    if n > 0 {
      ScaledIsProduct(q, n - 1);
      DoubleProduct(q, Pow2(n - 1));
    }
  }

  lemma {:induction false} ShiftIsScaled(bits: nat, n: nat, q: nat)
    ensures ShiftRight(bits, n) == q <==> Scaled(q, n) <= bits < Scaled(q, n) + Pow2(n)
  {
    if n > 0 { ShiftIsScaled(bits / 2, n - 1, q); }
  }

  lemma {:induction false} ShiftIsBlock(bits: nat, n: nat, q: nat)
    ensures ShiftRight(bits, n) == q <==> q * Pow2(n) <= bits < (q + 1) * Pow2(n)
  {
    ShiftIsScaled(bits, n, q);
    ScaledIsProduct(q, n);
  }

  /** A network of length `len` is a block of addresses of its own family, as long as the free bits allow, that its base is in. */
  lemma NetworkIsABlock(net: IpNet, ip: IpAddr)
    requires net.len <= if net.base.V4? then 32 else 128
    ensures var size := Pow2((if net.base.V4? then 32 else 128) - net.len);
            Contains(net, ip) <==>
              && (net.base.V4? <==> ip.V4?)
              && exists q: nat :: q * size <= net.base.bits < (q + 1) * size && q * size <= ip.bits < (q + 1) * size
  {
    var n := (if net.base.V4? then 32 else 128) - net.len;
    var q := ShiftRight(net.base.bits, n);
    ShiftIsBlock(net.base.bits, n, q);
    ShiftIsBlock(ip.bits, n, q);
    forall q': nat | q' * Pow2(n) <= net.base.bits < (q' + 1) * Pow2(n) ensures q' == q { ShiftIsBlock(net.base.bits, n, q'); }
  }

  lemma {:induction false} Pow2Is(n: nat)
    requires n == 32
    ensures Pow2(n) == 0x1_0000_0000
  {
    assert Pow2(8) == 0x100;
    assert Pow2(16) == 0x1_0000 by { assert Pow2(12) == 0x1000; }
    assert Pow2(24) == 0x100_0000 by { assert Pow2(20) == 0x10_0000; }
    assert Pow2(28) == 0x1000_0000;
  }

  /** An IPv4 address that arrives in its IPv6 form is compared as the IPv4 address it is. */
  lemma MappedAddressesAreUnmapped(bits: nat)
    requires bits < 0x1_0000_0000
    ensures Canonical(V6(0xffff_0000_0000 + bits)) == V4(bits) == Canonical(V4(bits))
  {
    Pow2Is(32);
    ShiftIsBlock(0xffff_0000_0000 + bits, 32, 0xffff);
  }

  /** Every address but an IPv4 address in its IPv6 form is left as it is. */
  lemma OnlyMappedAddressesChange(ip: IpAddr)
    ensures Canonical(ip) == ip <==> !(ip.V6? && 0xffff_0000_0000 <= ip.bits < 0x1_0000_0000_0000)
  {
    Pow2Is(32);
    ShiftIsBlock(ip.bits, 32, 0xffff);
  }

  lemma {:induction false} SamePrefix(a: nat, b: nat, n: nat, m: nat)
    requires n <= m
    ensures ShiftRight(a, n) == ShiftRight(b, n) ==> ShiftRight(a, m) == ShiftRight(b, m)
  {
    if n > 0 { SamePrefix(a / 2, b / 2, n - 1, m - 1); }
  }
}
