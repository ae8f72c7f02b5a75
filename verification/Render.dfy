/**
 The lines and details the command line prints (src/cli/render.rs). A rendering is a list of pieces, each
 plain text or text handed to the palette; how a moment in time is written is a parameter.
 */
module Render {
  import opened Prelude
  import opened Strings
  import opened Palette
  import T = Truncate

  datatype Piece =
    | Plain(text: string)
    | Painted(role: Role, text: string)
    | StatusWord(text: string)

  function Show(on: bool, piece: Piece): string {
    match piece
    case Plain(text) => text
    case Painted(role, text) => Paint(on, role, text)
    case StatusWord(text) => Status(on, text)
  }

  /** `format!`: the pieces one after the other. */
  function Format(on: bool, pieces: seq<Piece>): string {
    if pieces == [] then [] else Show(on, pieces[0]) + Format(on, pieces[1..])
  }

  type Stamp = int -> string

  datatype Account = Account(id: string, profile: string, status: string, fingerprint: string, createdAt: int,
                             contact: seq<string>, agreed: Option<bool>, lastSeenAt: Option<int>, eabKid: Option<string>,
                             createdIp: Option<string>, createdPtr: Option<string>,
                             lastSeenIp: Option<string>, lastSeenPtr: Option<string>)

  datatype AuditEntry = AuditEntry(id: int, createdAt: int, event: string, outcome: string, profile: string,
                                   actorKind: string, actorId: Option<string>, accountId: Option<string>,
                                   orderId: Option<string>, certSerial: Option<string>, clientIp: Option<string>,
                                   clientPtr: Option<string>, userAgent: Option<string>, requestId: Option<string>,
                                   reason: Option<string>, detail: Option<string>, identifiers: seq<string>)

  datatype Order = Order(id: string, profile: string, accountId: string, status: string, identifiers: seq<string>,
                         createdAt: int, expires: int, notBefore: Option<int>, notAfter: Option<int>,
                         replacing: Option<string>, certSerial: Option<string>, certNotAfter: Option<int>,
                         revokedAt: Option<int>, revocationReason: Option<int>, error: Option<string>)

  datatype Superseded = Superseded(orderId: string, via: string)

  datatype Expiring = Expiring(order: Order, daysRemaining: int, supersededBy: Option<Superseded>)

  datatype Job = Job(id: string, kind: string, status: string, attempts: int, maxAttempts: int, runAt: int,
                     dedupKey: string, deadline: Option<int>, leaseUntil: Option<int>, leaseOwner: Option<string>,
                     lastError: Option<string>, createdAt: int, updatedAt: int, payload: string)

  datatype Upstream = Upstream(orderId: string, profile: string, status: string, localStatus: string,
                               identifiers: seq<string>, orderUrl: string, finalizeUrl: Option<string>,
                               certificateUrl: Option<string>, error: Option<string>, clientIp: Option<string>,
                               clientPtr: Option<string>, userAgent: Option<string>, requestId: Option<string>,
                               createdAt: int, updatedAt: int)

  datatype JobDetail = JobDetail(job: Job, upstream: Option<Upstream>)

  datatype UpstreamDetail = UpstreamDetail(upstream: Upstream, job: Option<Job>)

  datatype Challenge = Challenge(id: string, status: string, typ: string)

  datatype Authorization = Authorization(id: string, status: string, identifier: string, challenges: seq<Challenge>)

  datatype OrderDetail = OrderDetail(order: Order, authorizations: seq<Authorization>)

  // ---------------------------------------------------------------------------------------------
  // Fields

  function Signed(n: int): string { if n < 0 then "-" + Decimal(-n) else Decimal(n) }

  /** A number reads back, and has a sign exactly when it is negative. */
  lemma SignedReadsBack(n: int)
    ensures Signed(n)[0] == '-' <==> n < 0
    ensures Value(if n < 0 then Signed(n)[1..] else Signed(n)) == if n < 0 then -n else n
  {
    DecimalReadsBack(if n < 0 then -n else n);
    assert Decimal(if n < 0 then -n else n)[0] in Decimal(if n < 0 then -n else n);
  }

  function Client(ip: Option<string>, ptr: Option<string>): string {
    match (ip, ptr)
    case (Some(ip), Some(ptr)) => ip + " (" + ptr + ")"
    case (Some(ip), None) => ip
    case _ => "-"
  }

  /** The address comes first, then the name in brackets; without an address there is neither. */
  lemma {:induction false} ClientReadsBack(ip: string, ptr: string)
    requires ' ' !in ip
    ensures SplitOnce(Client(Some(ip), Some(ptr)), ' ') == Some((ip, "(" + ptr + ")"))
    ensures Client(Some(ip), None) == ip && Client(None, Some(ptr)) == Client(None, None) == "-"
  {
    assert Client(Some(ip), Some(ptr)) == ip + [' '] + ("(" + ptr + ")");
    SplitOnceIs(ip, ' ', "(" + ptr + ")");
  }

  function EndsWith(s: string, suffix: string): bool {
    |s| >= |suffix| && s[|s| - |suffix|..] == suffix
  }

  function PaintEvent(event: string, width: nat): Piece {
    if EndsWith(event, "_failed") then Painted(Bad, Pad(event, width)) else Plain(Pad(event, width))
  }

  function Days(n: int): Piece {
    var days := PadLeft(Signed(n) + "d", 5);
    if 0 <= n <= 7 then Painted(Bad, days) else if 8 <= n <= 30 then Painted(Busy, days) else Plain(days)
  }

  function Scalars(s: string): (t: seq<T.Scalar>)
    ensures |t| == |s|
  {
    if s == [] then [] else [s[0] as int] + Scalars(s[1..])
  }

  /** `truncate` on characters. */
  function Shorten(s: string, max: nat): string {
    if |T.Encode(Scalars(s))| <= max then s else s[..T.Fit(Scalars(s), max)] + "\U{2026}"
  }

  lemma {:induction false} ScalarsOfPrefix(s: string, k: nat)
    requires k <= |s|
    ensures Scalars(s[..k]) == Scalars(s)[..k]
  {
    if k > 0 {
      assert s[..k][1..] == s[1..][..k - 1];
      ScalarsOfPrefix(s[1..], k - 1);
    }
  }

  lemma {:induction false} ScalarsSnoc(s: string, c: char)
    ensures Scalars(s + [c]) == Scalars(s) + [c as int]
  {
    if s == [] {
      assert [c][1..] == [];
    } else {
      assert (s + [c])[1..] == s[1..] + [c];
      ScalarsSnoc(s[1..], c);
    }
  }

  /** The characters `Shorten` keeps are those the byte-level cut keeps. */
  lemma {:induction false} ShortenCuts(s: string, max: nat)
    ensures Scalars(Shorten(s, max)) == T.Shortened(Scalars(s), max)
  {
    if |T.Encode(Scalars(s))| > max {
      var k := T.Fit(Scalars(s), max);
      ScalarsOfPrefix(s, k);
      ScalarsSnoc(s[..k], '\U{2026}');
    }
  }

  // ---------------------------------------------------------------------------------------------
  // Lines

  /** Columns two spaces apart. */
  function Columns(pieces: seq<Piece>): seq<Piece> {
    if |pieces| <= 1 then pieces else [pieces[0], Plain("  ")] + Columns(pieces[1..])
  }

  function AccountColumns(a: Account, at: Stamp): seq<Piece> {
    [Plain(a.id), Plain(Pad(a.profile, 12)), StatusWord(Pad(a.status, 11)),
     Plain(Pad(Client(a.lastSeenIp, a.lastSeenPtr), 40)), Plain(if a.contact == [] then "-" else Join(a.contact)),
     Plain(at(a.createdAt))]
  }

  function AccountLine(a: Account, at: Stamp): seq<Piece> { Columns(AccountColumns(a, at)) }

  function Actor(e: AuditEntry): string {
    if e.actorId.Some? then e.actorKind + ":" + e.actorId.value else e.actorKind
  }

  function AuditColumns(e: AuditEntry, at: Stamp): seq<Piece> {
    [Plain(Pad(Signed(e.id), 8)), Plain(at(e.createdAt)), PaintEvent(e.event, 26), Plain(Pad(e.profile, 12)),
     Plain(Pad(Actor(e), 24)), Plain(Pad(Client(e.clientIp, e.clientPtr), 40)), Plain(Join(e.identifiers))]
  }

  function AuditLine(e: AuditEntry, at: Stamp): seq<Piece> {
    Columns(AuditColumns(e, at)) + if e.reason.Some? then [Plain("  reason=" + e.reason.value)] else []
  }

  function OrderColumns(o: Order, at: Stamp): seq<Piece> {
    [Plain(o.id), Plain(Pad(o.profile, 12)), StatusWord(Pad(o.status, 9)), Plain(Join(o.identifiers)),
     Plain(at(o.createdAt))]
  }

  function Revocation(o: Order, at: Stamp): string
    requires o.revokedAt.Some?
  {
    "  revoked=" + at(o.revokedAt.value)
    + if o.revocationReason.Some? then " reason=" + Signed(o.revocationReason.value) else []
  }

  function OrderLine(o: Order, at: Stamp): seq<Piece> {
    Columns(OrderColumns(o, at)) + if o.revokedAt.Some? then [Painted(Bad, Revocation(o, at))] else []
  }

  function ExpiringColumns(e: Expiring, at: Stamp): seq<Piece> {
    [Plain(e.order.id), Plain(Pad(e.order.profile, 12)), Days(e.daysRemaining),
     Plain(at(if e.order.certNotAfter.Some? then e.order.certNotAfter.value else 0)), Plain(Join(e.order.identifiers))]
  }

  function Replacement(s: Superseded): string { "  replaced-by=" + s.orderId + " via=" + s.via }

  function ExpiringLine(e: Expiring, at: Stamp): seq<Piece> {
    Columns(ExpiringColumns(e, at))
    + if e.supersededBy.Some? then [Painted(Good, Replacement(e.supersededBy.value))] else []
  }

  function Tries(j: Job): string { Signed(j.attempts) + "/" + Signed(j.maxAttempts) }

  function JobColumns(j: Job, at: Stamp): seq<Piece> {
    [Plain(j.id), Plain(Pad(j.kind, 22)), StatusWord(Pad(j.status, 10)),
     Plain(PadLeft(Tries(j), 5)), Plain(at(j.runAt)), Plain(j.dedupKey)]
  }

  function JobLine(j: Job, at: Stamp): seq<Piece> {
    Columns(JobColumns(j, at))
    + if j.lastError.Some? then [Painted(Bad, "  error=" + Shorten(j.lastError.value, 60))] else []
  }

  function UpstreamColumns(u: Upstream, at: Stamp): seq<Piece> {
    [Plain(u.orderId), Plain(Pad(u.profile, 12)), StatusWord(Pad(u.status, 10)), Plain(Pad(u.localStatus, 10)),
     Plain(Join(u.identifiers)), Plain(at(u.updatedAt))]
  }

  function UpstreamLine(u: Upstream, at: Stamp): seq<Piece> { Columns(UpstreamColumns(u, at)) }

  // ---------------------------------------------------------------------------------------------
  // Details: one field to a line, and none for a field that was not recorded

  type Cell = (string, Option<Piece>)

  function Text(name: string, s: string): Cell { (name, Some(Plain(s))) }

  function Word(name: string, s: string): Cell { (name, Some(StatusWord(s))) }

  function When(name: string, t: Option<int>, at: Stamp): Cell {
    (name, if t.Some? then Some(Plain(at(t.value))) else None)
  }

  function Maybe(name: string, s: Option<string>): Cell {
    (name, if s.Some? then Some(Plain(s.value)) else None)
  }

  function CellPieces(indent: string, width: nat, cell: Cell): seq<Piece> {
    if cell.1.None? then [] else [Plain(indent + Pad(cell.0, width)), Plain(" "), cell.1.value, Plain("\n")]
  }

  function Block(indent: string, width: nat, cells: seq<Cell>): seq<Piece> {
    if cells == [] then []
    else Block(indent, width, cells[..|cells| - 1]) + CellPieces(indent, width, cells[|cells| - 1])
  }

  function AccountIdentity(a: Account, at: Stamp): seq<Cell> {
    [Text("id", a.id), Text("profile", a.profile), Word("status", a.status), Text("pubkey", a.fingerprint),
     When("created", Some(a.createdAt), at)]
  }

  function AccountTerms(a: Account, at: Stamp): seq<Cell> {
    [("contact", if a.contact == [] then None else Some(Plain(Join(a.contact)))),
     ("terms", if a.agreed.None? then None else Some(Plain(if a.agreed.value then "true" else "false"))),
     When("last_seen", a.lastSeenAt, at), Maybe("eab_kid", a.eabKid)]
  }

  function AccountPlaces(a: Account, at: Stamp): seq<Cell> {
    [Maybe("created_ip", a.createdIp), Maybe("created_ptr", a.createdPtr),
     Maybe("last_seen_ip", a.lastSeenIp), Maybe("last_seen_ptr", a.lastSeenPtr)]
  }

  /** `render_account_detail_text`. */
  function AccountCells(a: Account, at: Stamp): seq<Cell> { AccountIdentity(a, at) + AccountTerms(a, at) + AccountPlaces(a, at) }

  function AuditEvent(e: AuditEntry, at: Stamp): seq<Cell> {
    [Text("id", Signed(e.id)), When("created", Some(e.createdAt), at), ("event", Some(PaintEvent(e.event, 0))),
     Word("outcome", e.outcome), Text("profile", e.profile), Text("actor", Actor(e))]
  }

  function AuditSubject(e: AuditEntry, at: Stamp): seq<Cell> {
    [Maybe("account", e.accountId), Maybe("order", e.orderId), Maybe("serial", e.certSerial),
     Maybe("client_ip", e.clientIp), Maybe("client_ptr", e.clientPtr), Maybe("user_agent", e.userAgent)]
  }

  function AuditCause(e: AuditEntry, at: Stamp): seq<Cell> {
    [Maybe("request_id", e.requestId), Maybe("reason", e.reason), Maybe("detail", e.detail),
     ("identifiers", if e.identifiers == [] then None else Some(Plain(Join(e.identifiers))))]
  }

  /** `render_audit_detail_text`. */
  function AuditCells(e: AuditEntry, at: Stamp): seq<Cell> { AuditEvent(e, at) + AuditSubject(e, at) + AuditCause(e, at) }

  function JobState(j: Job, at: Stamp): seq<Cell> {
    [Text("id", j.id), Text("kind", j.kind), Text("dedup_key", j.dedupKey), Word("status", j.status),
     When("run_at", Some(j.runAt), at), Text("attempts", Tries(j))]
  }

  function JobLease(j: Job, at: Stamp): seq<Cell> {
    [When("deadline", j.deadline, at), When("lease_until", j.leaseUntil, at), Maybe("lease_owner", j.leaseOwner),
     Maybe("last_error", j.lastError)]
  }

  function JobRecord(j: Job, at: Stamp): seq<Cell> {
    [When("created_at", Some(j.createdAt), at), When("updated_at", Some(j.updatedAt), at), Text("payload", j.payload)]
  }

  /** `render_job_detail_text`, without the upstream order. */
  function JobCells(j: Job, at: Stamp): seq<Cell> { JobState(j, at) + JobLease(j, at) + JobRecord(j, at) }

  function UpstreamState(u: Upstream, at: Stamp): seq<Cell> {
    [Text("order_id", u.orderId), Text("profile", u.profile), Word("status", u.status),
     Text("local_status", u.localStatus), Text("identifiers", Join(u.identifiers)), Text("upstream_order_url", u.orderUrl)]
  }

  function UpstreamLinks(u: Upstream, at: Stamp): seq<Cell> {
    [Maybe("upstream_finalize_url", u.finalizeUrl), Maybe("upstream_certificate_url", u.certificateUrl),
     Maybe("error", u.error), Maybe("client_ip", u.clientIp), Maybe("client_ptr", u.clientPtr)]
  }

  function UpstreamRecord(u: Upstream, at: Stamp): seq<Cell> {
    [Maybe("user_agent", u.userAgent), Maybe("request_id", u.requestId),
     When("created_at", Some(u.createdAt), at), When("updated_at", Some(u.updatedAt), at)]
  }

  /** `render_upstream_order_block`. */
  function UpstreamCells(u: Upstream, at: Stamp): seq<Cell> { UpstreamState(u, at) + UpstreamLinks(u, at) + UpstreamRecord(u, at) }

  function RelayCells(j: Job, at: Stamp): seq<Cell> {
    [Text("id", j.id), Word("status", j.status), Text("attempts", Tries(j)), When("run_at", Some(j.runAt), at),
     Maybe("last_error", j.lastError)]
  }

  function JobDetailPieces(d: JobDetail, at: Stamp): seq<Piece> {
    Block("", 13, JobCells(d.job, at))
    + if d.upstream.None? then []
      else [Plain("\nUpstream order:\n")] + Block("  ", 24, UpstreamCells(d.upstream.value, at))
  }

  function UpstreamDetailPieces(d: UpstreamDetail, at: Stamp): seq<Piece> {
    Block("  ", 24, UpstreamCells(d.upstream, at))
    + if d.job.None? then [] else [Plain("\nRelay job:\n")] + Block("  ", 24, RelayCells(d.job.value, at))
  }

  function OrderState(o: Order, at: Stamp): seq<Cell> {
    [Text("id", o.id), Text("profile", o.profile), Text("account_id", o.accountId), Word("status", o.status),
     Text("identifiers", Join(o.identifiers)), When("created", Some(o.createdAt), at), When("expires", Some(o.expires), at)]
  }

  function OrderDates(o: Order, at: Stamp): seq<Cell> {
    [When("not_before", o.notBefore, at), When("not_after", o.notAfter, at), Maybe("replaces", o.replacing),
     Maybe("serial", o.certSerial),
     When("cert_not_after", if o.certNotAfter.Some? && o.certNotAfter.value >= 0 then o.certNotAfter else None, at)]
  }

  function OrderEnd(o: Order, at: Stamp): seq<Cell> {
    [("revoked", if o.revokedAt.Some? then Some(Painted(Bad, at(o.revokedAt.value))) else None),
     ("reason", if o.revokedAt.Some? && o.revocationReason.Some? then Some(Plain(Signed(o.revocationReason.value))) else None),
     Maybe("error", o.error)]
  }

  /** `render_order_detail_text`, before its authorizations. */
  function OrderCells(o: Order, at: Stamp): seq<Cell> { OrderState(o, at) + OrderDates(o, at) + OrderEnd(o, at) }

  function AuthzPieces(a: Authorization): seq<Piece> {
    [Plain("  authz "), Plain(a.id), Plain(" ["), StatusWord(a.status), Plain("] "), Plain(a.identifier), Plain("\n")]
  }

  function ChallengePieces(c: Challenge): seq<Piece> {
    [Plain("    challenge "), Plain(c.id), Plain(" ["), StatusWord(c.status), Plain("] type="), Plain(c.typ), Plain("\n")]
  }

  function Flatten<A>(f: A -> seq<Piece>, xs: seq<A>): seq<Piece> {
    if xs == [] then [] else Flatten(f, xs[..|xs| - 1]) + f(xs[|xs| - 1])
  }

  function OrderDetailPieces(d: OrderDetail, at: Stamp): seq<Piece> {
    Block("", 14, OrderCells(d.order, at)) + Flatten(AuthzTree, d.authorizations)
  }

  function AuthzTree(a: Authorization): seq<Piece> { AuthzPieces(a) + Flatten(ChallengePieces, a.challenges) }

  lemma {:induction false} FormatAppend(on: bool, a: seq<Piece>, b: seq<Piece>)
    ensures Format(on, a + b) == Format(on, a) + Format(on, b)
  {
    if a == [] {
      assert a + b == b;
    } else {
      assert (a + b)[1..] == a[1..] + b;
      FormatAppend(on, a[1..], b);
    }
  }

  lemma {:induction false} FormatFlatten<A>(on: bool, f: A -> seq<Piece>, xs: seq<A>, i: nat)
    requires i < |xs|
    ensures Format(on, Flatten(f, xs[..i + 1])) == Format(on, Flatten(f, xs[..i])) + Format(on, f(xs[i]))
  {
    assert xs[..i + 1][..i] == xs[..i];
    FormatAppend(on, Flatten(f, xs[..i]), f(xs[i]));
  }

  /** The labelled fields that were recorded, as every detail appends them. */
  method RenderBlock(indent: string, width: nat, cells: seq<Cell>, on: bool) returns (out: string)
    ensures out == Format(on, Block(indent, width, cells))
  {
    out := [];
    for i := 0 to |cells|
      invariant out == Format(on, Block(indent, width, cells[..i]))
    {
      assert cells[..i + 1][..i] == cells[..i];
      FormatAppend(on, Block(indent, width, cells[..i]), CellPieces(indent, width, cells[i]));
      if cells[i].1.Some? {
        out := out + Format(on, CellPieces(indent, width, cells[i]));
      }
    }
    assert cells[..|cells|] == cells;
  }

  /** One authorization and the challenges under it. */
  method RenderAuthz(authz: Authorization, on: bool) returns (out: string)
    ensures out == Format(on, AuthzTree(authz))
  {
    var challenges := [];
    for j := 0 to |authz.challenges|
      invariant challenges == Format(on, Flatten(ChallengePieces, authz.challenges[..j]))
    {
      FormatFlatten(on, ChallengePieces, authz.challenges, j);
      challenges := challenges + Format(on, ChallengePieces(authz.challenges[j]));
    }
    assert authz.challenges[..|authz.challenges|] == authz.challenges;
    FormatAppend(on, AuthzPieces(authz), Flatten(ChallengePieces, authz.challenges));
    out := Format(on, AuthzPieces(authz)) + challenges;
  }

  /** `render_order_detail_text`. */
  method RenderOrderDetail(d: OrderDetail, at: Stamp, on: bool) returns (out: string)
    ensures out == Format(on, OrderDetailPieces(d, at))
  {
    var fields := RenderBlock("", 14, OrderCells(d.order, at), on);
    var trees := [];
    for i := 0 to |d.authorizations|
      invariant trees == Format(on, Flatten(AuthzTree, d.authorizations[..i]))
    {
      FormatFlatten(on, AuthzTree, d.authorizations, i);
      var tree := RenderAuthz(d.authorizations[i], on);
      trees := trees + tree;
    }
    assert d.authorizations[..|d.authorizations|] == d.authorizations;
    FormatAppend(on, Block("", 14, OrderCells(d.order, at)), Flatten(AuthzTree, d.authorizations));
    out := fields + trees;
  }
}
