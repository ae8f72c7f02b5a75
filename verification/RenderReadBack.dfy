/**
 What the details of the command line say can be read back (src/cli/render.rs): from the text alone, the field
 under each label is the field of the record, and a field that was not recorded has no line.
 */
module RenderReadBack {
  import opened Prelude
  import opened Strings
  import opened Palette
  import opened Render
  import opened RenderLayout

  /** The rest of the first whole line that begins with `head`. */
  function Read(text: string, head: string): Option<string>
    decreases |text|
  {
    match SplitOnce(text, '\n')
    case None => None
    case Some((line, rest)) => if head <= line then Some(line[|head|..]) else Read(rest, head)
  }

  /** What a detail says under a label, in a block that is indented and whose labels are `width` wide. */
  function Field(text: string, indent: string, width: nat, name: string): Option<string> {
    Read(text, indent + Pad(name, width) + " ")
  }

  function Text(indent: string, width: nat, cells: seq<Cell>): string { Format(false, Block(indent, width, cells)) }

  function Value(cell: Cell): Option<string> { if cell.1.Some? then Some(cell.1.value.text) else None }

  /** A label that fits its column, and a value on one line. */
  predicate Tidy(width: nat, cell: Cell) {
    |cell.0| <= width && ' ' !in cell.0 && '\n' !in cell.0 && (cell.1.Some? ==> '\n' !in cell.1.value.text)
  }

  predicate AllTidy(width: nat, cells: seq<Cell>) { forall k :: 0 <= k < |cells| ==> Tidy(width, cells[k]) }

  lemma {:induction false} ReadLine(line: string, rest: string, head: string)
    requires '\n' !in line
    ensures Read(line + "\n" + rest, head) == if head <= line then Some(line[|head|..]) else Read(rest, head)
  {
    SplitOnceIs(line, '\n', rest);
  }

  lemma {:induction false} PadsDiffer(a: string, b: string, width: nat)
    requires |a| <= width && |b| <= width && ' ' !in a && ' ' !in b
    ensures Pad(a, width) == Pad(b, width) ==> a == b
  {
    if |a| < |b| {
      assert Pad(a, width)[|a|] == ' ' && Pad(b, width)[|a|] == b[|a|];
    } else if |b| < |a| {
      assert Pad(b, width)[|b|] == ' ' && Pad(a, width)[|b|] == a[|b|];
    } else {
      assert a == Pad(a, width)[..|a|] && b == Pad(b, width)[..|a|];
    }
  }

  function CellLine(indent: string, width: nat, name: string, value: string): string {
    indent + Pad(name, width) + " " + value
  }

  lemma {:induction false} CellText(indent: string, width: nat, cell: Cell)
    requires cell.1.Some?
    ensures Format(false, CellPieces(indent, width, cell)) == CellLine(indent, width, cell.0, cell.1.value.text) + "\n"
  {
    var pieces := CellPieces(indent, width, cell);
    assert pieces == [pieces[0]] + ([pieces[1]] + ([pieces[2]] + ([pieces[3]] + [])));
    FormatCons(pieces[0], [pieces[1]] + ([pieces[2]] + ([pieces[3]] + [])));
    FormatCons(pieces[1], [pieces[2]] + ([pieces[3]] + []));
    FormatCons(pieces[2], [pieces[3]] + []);
    FormatCons(pieces[3], []);
  }

  lemma {:induction false} HeadMatches(indent: string, width: nat, a: string, b: string, value: string)
    requires |a| <= width && |b| <= width && ' ' !in a && ' ' !in b
    ensures var head, line := indent + Pad(a, width) + " ", CellLine(indent, width, b, value);
            (head <= line <==> a == b) && (a == b ==> line[|head|..] == value)
  {
    var head, line := indent + Pad(a, width) + " ", CellLine(indent, width, b, value);
    assert head[|indent|..|indent| + width] == Pad(a, width) && line[|indent|..|indent| + width] == Pad(b, width);
    if head <= line {
      assert head == line[..|head|];
      assert line[..|head|][|indent|..|indent| + width] == line[|indent|..|indent| + width];
      PadsDiffer(a, b, width);
    }
  }

  /** The first recorded cell under a label. */
  function Found(cells: seq<Cell>, name: string): Option<string> {
    if cells == [] then None
    else
      var before := Found(cells[..|cells| - 1], name);
      var last := cells[|cells| - 1];
      if before.Some? then before else if last.0 == name then Value(last) else None
  }

  lemma {:induction false} ReadFindsCell(indent: string, width: nat, cell: Cell, tail: string, name: string)
    requires '\n' !in indent && Tidy(width, cell) && |name| <= width && ' ' !in name
    ensures Field(Format(false, CellPieces(indent, width, cell)) + tail, indent, width, name)
         == if cell.0 == name && cell.1.Some? then Value(cell) else Field(tail, indent, width, name)
  {
    if cell.1.None? {
      assert Format(false, CellPieces(indent, width, cell)) + tail == tail;
    } else {
      var line := CellLine(indent, width, cell.0, cell.1.value.text);
      CellText(indent, width, cell);
      ReadLine(line, tail, indent + Pad(name, width) + " ");
      HeadMatches(indent, width, name, cell.0, cell.1.value.text);
    }
  }

  /** Reading a label in a block finds its first recorded cell, or else reads on in what follows the block. */
  lemma {:induction false} ReadFinds(indent: string, width: nat, cells: seq<Cell>, tail: string, name: string)
    requires '\n' !in indent && AllTidy(width, cells) && |name| <= width && ' ' !in name
    ensures Field(Text(indent, width, cells) + tail, indent, width, name)
         == if Found(cells, name).Some? then Found(cells, name) else Field(tail, indent, width, name)
  {
    if cells == [] {
      assert Text(indent, width, cells) + tail == tail;
    } else {
      var init, last := cells[..|cells| - 1], cells[|cells| - 1];
      var end := Format(false, CellPieces(indent, width, last));
      FormatAppend(false, Block(indent, width, init), CellPieces(indent, width, last));
      Regroup(Text(indent, width, init), end, tail);
      ReadFinds(indent, width, init, end + tail, name);
      ReadFindsCell(indent, width, last, tail, name);
    }
  }

  lemma {:induction false} FoundAt(cells: seq<Cell>, k: nat)
    requires k < |cells| && forall i :: 0 <= i < |cells| && i != k ==> cells[i].0 != cells[k].0
    ensures Found(cells, cells[k].0) == Value(cells[k])
  {
    var init := cells[..|cells| - 1];
    if k < |cells| - 1 {
      FoundAt(init, k);
    } else {
      NotFound(init, cells[k].0);
    }
  }

  lemma {:induction false} NotFound(cells: seq<Cell>, name: string)
    requires forall i :: 0 <= i < |cells| ==> cells[i].0 != name
    ensures Found(cells, name).None?
  {
    if cells != [] { NotFound(cells[..|cells| - 1], name); }
  }

  /** The labels of a block and what was recorded under each. */
  type Record = seq<(string, Option<string>)>

  predicate Distinct(record: Record) { forall i, j :: 0 <= i < j < |record| ==> record[i].0 != record[j].0 }

  predicate Differ(names: seq<string>) { forall i, j :: 0 <= i < j < |names| ==> names[i] != names[j] }

  predicate Labels(record: Record, names: seq<string>) {
    |record| == |names| && forall i :: 0 <= i < |record| ==> record[i].0 == names[i]
  }

  lemma {:induction false} LabelsDiffer(record: Record, names: seq<string>)
    requires Labels(record, names) && Differ(names)
    ensures Distinct(record)
  {
  }

  predicate Shows(cells: seq<Cell>, record: Record) {
    |cells| == |record| && forall i :: 0 <= i < |cells| ==> cells[i].0 == record[i].0 && Value(cells[i]) == record[i].1
  }

  /** From the text alone, every label reads back what was recorded under it, and nothing where nothing was. */
  predicate ReadsAs(text: string, indent: string, width: nat, record: Record) {
    forall k :: 0 <= k < |record| ==> Field(text, indent, width, record[k].0) == record[k].1
  }

  lemma {:induction false} BlockReadsBack(indent: string, width: nat, cells: seq<Cell>, record: Record)
    requires '\n' !in indent && AllTidy(width, cells) && Shows(cells, record) && Distinct(record)
    ensures ReadsAs(Text(indent, width, cells), indent, width, record)
  {
    forall k | 0 <= k < |record| ensures Field(Text(indent, width, cells), indent, width, record[k].0) == record[k].1 {
      FoundAt(cells, k);
      assert Tidy(width, cells[k]);
      ReadFinds(indent, width, cells, [], record[k].0);
      assert Text(indent, width, cells) + [] == Text(indent, width, cells);
    }
  }

  /** A row whose rendering is one block reads back. */
  lemma {:induction false} RowReadsBack(row: Row, at: Stamp, width: nat, cells: seq<Cell>, record: Record)
    requires Pieces(row, at) == Block("", width, cells)
    requires AllTidy(width, cells) && Shows(cells, record) && Distinct(record)
    ensures ReadsAs(Rendered(row, at, false), "", width, record)
  {
    BlockReadsBack("", width, cells, record);
  }

  function Dated(t: Option<int>, at: Stamp): Option<string> { if t.Some? then Some(at(t.value)) else None }

  function Listed(texts: seq<string>): Option<string> { if texts == [] then None else Some(Join(texts)) }

  function AccountIdentityRecord(a: Account, at: Stamp): Record {
    [("id", Some(a.id)), ("profile", Some(a.profile)), ("status", Some(a.status)), ("pubkey", Some(a.fingerprint)),
     ("created", Some(at(a.createdAt)))]
  }

  function AccountTermsRecord(a: Account, at: Stamp): Record {
    [("contact", Listed(a.contact)), ("terms", if a.agreed.None? then None else Some(if a.agreed.value then "true" else "false")),
     ("last_seen", Dated(a.lastSeenAt, at)), ("eab_kid", a.eabKid)]
  }

  function AccountPlacesRecord(a: Account): Record {
    [("created_ip", a.createdIp), ("created_ptr", a.createdPtr), ("last_seen_ip", a.lastSeenIp), ("last_seen_ptr", a.lastSeenPtr)]
  }

  function AccountRecord(a: Account, at: Stamp): Record {
    AccountIdentityRecord(a, at) + AccountTermsRecord(a, at) + AccountPlacesRecord(a)
  }

  lemma {:induction false} ShowsJoin(a: seq<Cell>, b: seq<Cell>, c: seq<Cell>, ra: Record, rb: Record, rc: Record)
    requires Shows(a, ra) && Shows(b, rb) && Shows(c, rc)
    ensures Shows(a + b + c, ra + rb + rc)
  {
  }

  lemma {:induction false} AccountShows(a: Account, at: Stamp)
    ensures Shows(AccountCells(a, at), AccountRecord(a, at))
  {
    assert Shows(AccountIdentity(a, at), AccountIdentityRecord(a, at));
    assert Shows(AccountTerms(a, at), AccountTermsRecord(a, at));
    assert Shows(AccountPlaces(a, at), AccountPlacesRecord(a));
    ShowsJoin(AccountIdentity(a, at), AccountTerms(a, at), AccountPlaces(a, at),
              AccountIdentityRecord(a, at), AccountTermsRecord(a, at), AccountPlacesRecord(a));
  }

  const ACCOUNT_LABELS :=
    ["id", "profile", "status", "pubkey", "created", "contact", "terms", "last_seen", "eab_kid", "created_ip",
     "created_ptr", "last_seen_ip", "last_seen_ptr"]

  lemma AccountLabelsDiffer()
    ensures Differ(ACCOUNT_LABELS)
  {
  }

  lemma {:induction false} AccountDistinct(a: Account, at: Stamp)
    ensures Distinct(AccountRecord(a, at))
  {
    AccountLabelsDiffer();
    LabelsDiffer(AccountRecord(a, at), ACCOUNT_LABELS);
  }

  lemma {:induction false} AccountReadsBack(a: Account, at: Stamp)
    requires AllTidy(13, AccountCells(a, at))
    ensures ReadsAs(Rendered(AccountDetailRow(a), at, false), "", 13, AccountRecord(a, at))
  {
    AccountShows(a, at);
    AccountDistinct(a, at);
    RowReadsBack(AccountDetailRow(a), at, 13, AccountCells(a, at), AccountRecord(a, at));
  }

  // ---------------------------------------------------------------------------------------------
  // Audit entries

  function AuditEventRecord(e: AuditEntry, at: Stamp): Record {
    [("id", Some(Signed(e.id))), ("created", Some(at(e.createdAt))), ("event", Some(e.event)), ("outcome", Some(e.outcome)),
     ("profile", Some(e.profile)), ("actor", Some(e.actorKind + if e.actorId.Some? then ":" + e.actorId.value else ""))]
  }

  function AuditSubjectRecord(e: AuditEntry): Record {
    [("account", e.accountId), ("order", e.orderId), ("serial", e.certSerial), ("client_ip", e.clientIp),
     ("client_ptr", e.clientPtr), ("user_agent", e.userAgent)]
  }

  function AuditCauseRecord(e: AuditEntry): Record {
    [("request_id", e.requestId), ("reason", e.reason), ("detail", e.detail), ("identifiers", Listed(e.identifiers))]
  }

  function AuditRecord(e: AuditEntry, at: Stamp): Record {
    AuditEventRecord(e, at) + AuditSubjectRecord(e) + AuditCauseRecord(e)
  }

  lemma {:induction false} AuditShows(e: AuditEntry, at: Stamp)
    ensures Shows(AuditCells(e, at), AuditRecord(e, at))
  {
    assert PaintEvent(e.event, 0).text == e.event;
    assert Actor(e) == e.actorKind + if e.actorId.Some? then ":" + e.actorId.value else "";
    assert Shows(AuditEvent(e, at), AuditEventRecord(e, at));
    assert Shows(AuditSubject(e, at), AuditSubjectRecord(e));
    assert Shows(AuditCause(e, at), AuditCauseRecord(e));
    ShowsJoin(AuditEvent(e, at), AuditSubject(e, at), AuditCause(e, at),
              AuditEventRecord(e, at), AuditSubjectRecord(e), AuditCauseRecord(e));
  }

  const AUDIT_LABELS :=
    ["id", "created", "event", "outcome", "profile", "actor", "account", "order", "serial", "client_ip",
     "client_ptr", "user_agent", "request_id", "reason", "detail", "identifiers"]

  lemma AuditLabelsDiffer()
    ensures Differ(AUDIT_LABELS)
  {
  }

  lemma {:induction false} AuditDistinct(e: AuditEntry, at: Stamp)
    ensures Distinct(AuditRecord(e, at))
  {
    AuditLabelsDiffer();
    LabelsDiffer(AuditRecord(e, at), AUDIT_LABELS);
  }

  lemma {:induction false} AuditReadsBack(e: AuditEntry, at: Stamp)
    requires AllTidy(12, AuditCells(e, at))
    ensures ReadsAs(Rendered(AuditDetailRow(e), at, false), "", 12, AuditRecord(e, at))
  {
    AuditShows(e, at);
    AuditDistinct(e, at);
    RowReadsBack(AuditDetailRow(e), at, 12, AuditCells(e, at), AuditRecord(e, at));
  }

  // ---------------------------------------------------------------------------------------------
  // Jobs and upstream orders

  function JobStateRecord(j: Job, at: Stamp): Record {
    [("id", Some(j.id)), ("kind", Some(j.kind)), ("dedup_key", Some(j.dedupKey)), ("status", Some(j.status)),
     ("run_at", Some(at(j.runAt))), ("attempts", Some(Signed(j.attempts) + "/" + Signed(j.maxAttempts)))]
  }

  function JobLeaseRecord(j: Job, at: Stamp): Record {
    [("deadline", Dated(j.deadline, at)), ("lease_until", Dated(j.leaseUntil, at)), ("lease_owner", j.leaseOwner),
     ("last_error", j.lastError)]
  }

  function JobStoredRecord(j: Job, at: Stamp): Record {
    [("created_at", Some(at(j.createdAt))), ("updated_at", Some(at(j.updatedAt))), ("payload", Some(j.payload))]
  }

  function JobRecordShown(j: Job, at: Stamp): Record { JobStateRecord(j, at) + JobLeaseRecord(j, at) + JobStoredRecord(j, at) }

  lemma {:induction false} JobShows(j: Job, at: Stamp)
    ensures Shows(JobCells(j, at), JobRecordShown(j, at))
  {
    assert Shows(JobState(j, at), JobStateRecord(j, at));
    assert Shows(JobLease(j, at), JobLeaseRecord(j, at));
    assert Shows(JobRecord(j, at), JobStoredRecord(j, at));
    ShowsJoin(JobState(j, at), JobLease(j, at), JobRecord(j, at),
              JobStateRecord(j, at), JobLeaseRecord(j, at), JobStoredRecord(j, at));
  }

  const JOB_LABELS :=
    ["id", "kind", "dedup_key", "status", "run_at", "attempts", "deadline", "lease_until", "lease_owner",
     "last_error", "created_at", "updated_at", "payload"]

  lemma JobLabelsDiffer()
    ensures Differ(JOB_LABELS)
  {
  }

  lemma {:induction false} JobDistinct(j: Job, at: Stamp)
    ensures Distinct(JobRecordShown(j, at))
  {
    JobLabelsDiffer();
    LabelsDiffer(JobRecordShown(j, at), JOB_LABELS);
  }

  lemma {:induction false} JobReadsBack(j: Job, at: Stamp)
    requires AllTidy(13, JobCells(j, at))
    ensures ReadsAs(Text("", 13, JobCells(j, at)), "", 13, JobRecordShown(j, at))
  {
    JobShows(j, at);
    JobDistinct(j, at);
    BlockReadsBack("", 13, JobCells(j, at), JobRecordShown(j, at));
  }

  function UpstreamStateRecord(u: Upstream): Record {
    [("order_id", Some(u.orderId)), ("profile", Some(u.profile)), ("status", Some(u.status)),
     ("local_status", Some(u.localStatus)), ("identifiers", Some(Join(u.identifiers))), ("upstream_order_url", Some(u.orderUrl))]
  }

  function UpstreamLinksRecord(u: Upstream): Record {
    [("upstream_finalize_url", u.finalizeUrl), ("upstream_certificate_url", u.certificateUrl), ("error", u.error),
     ("client_ip", u.clientIp), ("client_ptr", u.clientPtr)]
  }

  function UpstreamStoredRecord(u: Upstream, at: Stamp): Record {
    [("user_agent", u.userAgent), ("request_id", u.requestId), ("created_at", Some(at(u.createdAt))),
     ("updated_at", Some(at(u.updatedAt)))]
  }

  function UpstreamRecordShown(u: Upstream, at: Stamp): Record {
    UpstreamStateRecord(u) + UpstreamLinksRecord(u) + UpstreamStoredRecord(u, at)
  }

  lemma {:induction false} UpstreamShows(u: Upstream, at: Stamp)
    ensures Shows(UpstreamCells(u, at), UpstreamRecordShown(u, at))
  {
    assert Shows(UpstreamState(u, at), UpstreamStateRecord(u));
    assert Shows(UpstreamLinks(u, at), UpstreamLinksRecord(u));
    assert Shows(UpstreamRecord(u, at), UpstreamStoredRecord(u, at));
    ShowsJoin(UpstreamState(u, at), UpstreamLinks(u, at), UpstreamRecord(u, at),
              UpstreamStateRecord(u), UpstreamLinksRecord(u), UpstreamStoredRecord(u, at));
  }

  const UPSTREAM_LABELS :=
    ["order_id", "profile", "status", "local_status", "identifiers", "upstream_order_url", "upstream_finalize_url",
     "upstream_certificate_url", "error", "client_ip", "client_ptr", "user_agent", "request_id", "created_at",
     "updated_at"]

  lemma UpstreamLabelsDiffer()
    ensures Differ(UPSTREAM_LABELS)
  {
  }

  lemma {:induction false} UpstreamDistinct(u: Upstream, at: Stamp)
    ensures Distinct(UpstreamRecordShown(u, at))
  {
    UpstreamLabelsDiffer();
    LabelsDiffer(UpstreamRecordShown(u, at), UPSTREAM_LABELS);
  }

  lemma {:induction false} UpstreamReadsBack(u: Upstream, at: Stamp)
    requires AllTidy(24, UpstreamCells(u, at))
    ensures ReadsAs(Text("  ", 24, UpstreamCells(u, at)), "  ", 24, UpstreamRecordShown(u, at))
  {
    UpstreamShows(u, at);
    UpstreamDistinct(u, at);
    BlockReadsBack("  ", 24, UpstreamCells(u, at), UpstreamRecordShown(u, at));
  }

  function RelayRecord(j: Job, at: Stamp): Record {
    [("id", Some(j.id)), ("status", Some(j.status)), ("attempts", Some(Signed(j.attempts) + "/" + Signed(j.maxAttempts))),
     ("run_at", Some(at(j.runAt))), ("last_error", j.lastError)]
  }

  lemma {:induction false} RelayReadsBack(j: Job, at: Stamp)
    requires AllTidy(24, RelayCells(j, at))
    ensures ReadsAs(Text("  ", 24, RelayCells(j, at)), "  ", 24, RelayRecord(j, at))
  {
    assert Shows(RelayCells(j, at), RelayRecord(j, at));
    assert Distinct(RelayRecord(j, at));
    BlockReadsBack("  ", 24, RelayCells(j, at), RelayRecord(j, at));
  }

  // ---------------------------------------------------------------------------------------------
  // Orders

  function OrderStateRecord(o: Order, at: Stamp): Record {
    [("id", Some(o.id)), ("profile", Some(o.profile)), ("account_id", Some(o.accountId)), ("status", Some(o.status)),
     ("identifiers", Some(Join(o.identifiers))), ("created", Some(at(o.createdAt))), ("expires", Some(at(o.expires)))]
  }

  /** A date of expiry before 1970 says that the chain could not be read, and is not shown. */
  function OrderDatesRecord(o: Order, at: Stamp): Record {
    [("not_before", Dated(o.notBefore, at)), ("not_after", Dated(o.notAfter, at)), ("replaces", o.replacing),
     ("serial", o.certSerial),
     ("cert_not_after", if o.certNotAfter.Some? && o.certNotAfter.value < 0 then None else Dated(o.certNotAfter, at))]
  }

  /** A reason is shown with a revocation and never without one. */
  function OrderEndRecord(o: Order, at: Stamp): Record {
    [("revoked", Dated(o.revokedAt, at)),
     ("reason", if o.revokedAt.None? || o.revocationReason.None? then None else Some(Signed(o.revocationReason.value))),
     ("error", o.error)]
  }

  function OrderRecord(o: Order, at: Stamp): Record { OrderStateRecord(o, at) + OrderDatesRecord(o, at) + OrderEndRecord(o, at) }

  lemma {:induction false} OrderShows(o: Order, at: Stamp)
    ensures Shows(OrderCells(o, at), OrderRecord(o, at))
  {
    assert Shows(OrderState(o, at), OrderStateRecord(o, at));
    assert Shows(OrderDates(o, at), OrderDatesRecord(o, at));
    assert Shows(OrderEnd(o, at), OrderEndRecord(o, at));
    ShowsJoin(OrderState(o, at), OrderDates(o, at), OrderEnd(o, at),
              OrderStateRecord(o, at), OrderDatesRecord(o, at), OrderEndRecord(o, at));
  }

  const ORDER_LABELS :=
    ["id", "profile", "account_id", "status", "identifiers", "created", "expires", "not_before", "not_after",
     "replaces", "serial", "cert_not_after", "revoked", "reason", "error"]

  lemma OrderLabelsDiffer()
    ensures Differ(ORDER_LABELS)
  {
  }

  lemma {:induction false} OrderDistinct(o: Order, at: Stamp)
    ensures Distinct(OrderRecord(o, at))
  {
    OrderLabelsDiffer();
    LabelsDiffer(OrderRecord(o, at), ORDER_LABELS);
  }

  lemma {:induction false} OrderReadsBack(o: Order, at: Stamp)
    requires AllTidy(14, OrderCells(o, at))
    ensures ReadsAs(Text("", 14, OrderCells(o, at)), "", 14, OrderRecord(o, at))
  {
    OrderShows(o, at);
    OrderDistinct(o, at);
    BlockReadsBack("", 14, OrderCells(o, at), OrderRecord(o, at));
  }

  /** An authorization's line says its id, its status in brackets, and its identifier. */
  lemma {:induction false} AuthzReadsBack(a: Authorization)
    requires ' ' !in a.id && ']' !in a.status
    ensures var line := Format(false, AuthzPieces(a));
            && "  authz " <= line
            && SplitOnce(line[8..], ' ') == Some((a.id, "[" + a.status + "] " + a.identifier + "\n"))
  {
    var line, rest := Format(false, AuthzPieces(a)), "[" + a.status + "] " + a.identifier + "\n";
    SevenPieces(AuthzPieces(a));
    assert line == "  authz " + (a.id + [' '] + rest);
    SplitOnceIs(a.id, ' ', rest);
  }

  /** A challenge's line says its id, its status in brackets, and its type. */
  lemma {:induction false} ChallengeReadsBack(c: Challenge)
    requires ' ' !in c.id
    ensures var line := Format(false, ChallengePieces(c));
            && "    challenge " <= line
            && SplitOnce(line[14..], ' ') == Some((c.id, "[" + c.status + "] type=" + c.typ + "\n"))
  {
    var line, rest := Format(false, ChallengePieces(c)), "[" + c.status + "] type=" + c.typ + "\n";
    SevenPieces(ChallengePieces(c));
    assert line == "    challenge " + (c.id + [' '] + rest);
    SplitOnceIs(c.id, ' ', rest);
  }

  lemma {:induction false} SevenPieces(p: seq<Piece>)
    requires |p| == 7
    ensures Format(false, p) == p[0].text + (p[1].text + (p[2].text + (p[3].text + (p[4].text + (p[5].text + p[6].text)))))
  {
    ThreePieces(p);
    ThreePieces(p[3..]);
    assert p[3..][3..] == [p[6]] + [];
    FormatCons(p[6], []);
  }

  lemma {:induction false} ThreePieces(p: seq<Piece>)
    requires |p| >= 3
    ensures Format(false, p) == p[0].text + (p[1].text + (p[2].text + Format(false, p[3..])))
  {
    assert p == [p[0]] + p[1..] && p[1..] == [p[1]] + p[2..] && p[2..] == [p[2]] + p[3..];
    FormatCons(p[0], p[1..]);
    FormatCons(p[1], p[2..]);
    FormatCons(p[2], p[3..]);
  }

  /** Pieces, and then under a heading the pieces of what goes with them, if there is any. */
  function Sections(a: string, heading: string, b: Option<string>): string {
    a + if b.None? then "" else heading + b.value
  }

  lemma {:induction false} UnderHeading(a: seq<Piece>, heading: string, b: Option<seq<Piece>>)
    ensures Format(false, a + if b.None? then [] else [Plain(heading)] + b.value)
         == Sections(Format(false, a), heading, if b.None? then None else Some(Format(false, b.value)))
  {
    match b
    case None => assert a + [] == a;
    case Some(b) =>
      FormatAppend(false, a, [Plain(heading)] + b);
      FormatCons(Plain(heading), b);
  }

  /** A job's detail is its block, then under a heading the block of the upstream order it works for, if there is one. */
  lemma {:induction false} JobDetailIsBlocks(d: JobDetail, at: Stamp)
    ensures Format(false, JobDetailPieces(d, at))
         == Sections(Text("", 13, JobCells(d.job, at)), "\nUpstream order:\n",
                     if d.upstream.None? then None else Some(Text("  ", 24, UpstreamCells(d.upstream.value, at))))
  {
    UnderHeading(Block("", 13, JobCells(d.job, at)), "\nUpstream order:\n",
                 if d.upstream.None? then None else Some(Block("  ", 24, UpstreamCells(d.upstream.value, at))));
  }

  /** An upstream order's detail is its block, then under a heading the block of the job that relays it, if there is one. */
  lemma {:induction false} UpstreamDetailIsBlocks(d: UpstreamDetail, at: Stamp)
    ensures Format(false, UpstreamDetailPieces(d, at))
         == Sections(Text("  ", 24, UpstreamCells(d.upstream, at)), "\nRelay job:\n",
                     if d.job.None? then None else Some(Text("  ", 24, RelayCells(d.job.value, at))))
  {
    UnderHeading(Block("  ", 24, UpstreamCells(d.upstream, at)), "\nRelay job:\n",
                 if d.job.None? then None else Some(Block("  ", 24, RelayCells(d.job.value, at))));
  }

  // ---------------------------------------------------------------------------------------------
  // Lines

  predicate Blank(s: string) { forall i :: 0 <= i < |s| ==> s[i] == ' ' }

  /** `text` with spaces after it, or with spaces before it. */
  predicate PaddedTo(padded: string, text: string) {
    var room := |padded| - |text|;
    && room >= 0
    && ((text == padded[..|text|] && Blank(padded[|text|..])) || (text == padded[room..] && Blank(padded[..room])))
  }

  lemma {:induction false} PaddedItself(text: string)
    ensures PaddedTo(text, text)
  {
    assert text[..|text|] == text;
  }

  lemma {:induction false} PadIsPadded(text: string, width: nat)
    ensures PaddedTo(Pad(text, width), text) && PaddedTo(PadLeft(text, width), text)
  {
    PaddedItself(text);
    if |text| < width {
      var spaces := Spaces(width - |text|);
      assert Blank(spaces) by { assert forall i :: 0 <= i < |spaces| ==> spaces[i] in spaces; }
      assert Pad(text, width)[..|text|] == text && Pad(text, width)[|text|..] == spaces;
      assert PadLeft(text, width)[width - |text|..] == text && PadLeft(text, width)[..width - |text|] == spaces;
    }
  }

  function Who(kind: string, id: Option<string>): string { kind + if id.Some? then ":" + id.value else "" }

  /** What the columns of a line are about, in their order. */
  function Entries(row: Row, at: Stamp): seq<string>
    requires IsLine(row)
  {
    match row
    case AccountRow(a) =>
      [a.id, a.profile, a.status, Client(a.lastSeenIp, a.lastSeenPtr),
       if a.contact == [] then "-" else Join(a.contact), at(a.createdAt)]
    case AuditRow(e) =>
      [Signed(e.id), at(e.createdAt), e.event, e.profile, Who(e.actorKind, e.actorId),
       Client(e.clientIp, e.clientPtr), Join(e.identifiers)]
    case OrderRow(o) => [o.id, o.profile, o.status, Join(o.identifiers), at(o.createdAt)]
    case ExpiringRow(e) =>
      [e.order.id, e.order.profile, Signed(e.daysRemaining) + "d",
       at(if e.order.certNotAfter.Some? then e.order.certNotAfter.value else 0), Join(e.order.identifiers)]
    case JobRow(j) => [j.id, j.kind, j.status, Signed(j.attempts) + "/" + Signed(j.maxAttempts), at(j.runAt), j.dedupKey]
    case UpstreamRow(u) => [u.orderId, u.profile, u.status, u.localStatus, Join(u.identifiers), at(u.updatedAt)]
  }

  lemma {:induction false} AccountEntries(a: Account, at: Stamp, k: nat)
    requires k < 6
    ensures PaddedTo(AccountColumns(a, at)[k].text, Entries(AccountRow(a), at)[k])
  {
    PaddedItself(AccountColumns(a, at)[k].text);
    PadIsPadded(Entries(AccountRow(a), at)[k], if k == 1 then 12 else if k == 2 then 11 else 40);
  }

  lemma {:induction false} AuditEntries(e: AuditEntry, at: Stamp, k: nat)
    requires k < 7
    ensures PaddedTo(AuditColumns(e, at)[k].text, Entries(AuditRow(e), at)[k])
  {
    PaddedItself(AuditColumns(e, at)[k].text);
    assert Actor(e) == Who(e.actorKind, e.actorId);
    PadIsPadded(Entries(AuditRow(e), at)[k],
                if k == 0 then 8 else if k == 2 then 26 else if k == 3 then 12 else if k == 4 then 24 else 40);
  }

  lemma {:induction false} OrderEntries(o: Order, at: Stamp, k: nat)
    requires k < 5
    ensures PaddedTo(OrderColumns(o, at)[k].text, Entries(OrderRow(o), at)[k])
  {
    PaddedItself(OrderColumns(o, at)[k].text);
    PadIsPadded(Entries(OrderRow(o), at)[k], if k == 1 then 12 else 9);
  }

  lemma {:induction false} ExpiringEntries(e: Expiring, at: Stamp, k: nat)
    requires k < 5
    ensures PaddedTo(ExpiringColumns(e, at)[k].text, Entries(ExpiringRow(e), at)[k])
  {
    PaddedItself(ExpiringColumns(e, at)[k].text);
    PadIsPadded(Entries(ExpiringRow(e), at)[k], if k == 1 then 12 else 5);
  }

  lemma {:induction false} JobEntries(j: Job, at: Stamp, k: nat)
    requires k < 6
    ensures PaddedTo(JobColumns(j, at)[k].text, Entries(JobRow(j), at)[k])
  {
    PaddedItself(JobColumns(j, at)[k].text);
    PadIsPadded(Entries(JobRow(j), at)[k], if k == 1 then 22 else if k == 2 then 10 else 5);
  }

  lemma {:induction false} UpstreamEntries(u: Upstream, at: Stamp, k: nat)
    requires k < 6
    ensures PaddedTo(UpstreamColumns(u, at)[k].text, Entries(UpstreamRow(u), at)[k])
  {
    PaddedItself(UpstreamColumns(u, at)[k].text);
    PadIsPadded(Entries(UpstreamRow(u), at)[k], if k == 1 then 12 else 10);
  }

  lemma {:induction false} ColumnEntries(row: Row, at: Stamp, k: nat)
    requires IsLine(row) && k < |LineColumns(row, at)|
    ensures |Entries(row, at)| == |LineColumns(row, at)| && PaddedTo(LineColumns(row, at)[k].text, Entries(row, at)[k])
  {
    match row
    case AccountRow(a) => AccountEntries(a, at, k);
    case AuditRow(e) => AuditEntries(e, at, k);
    case OrderRow(o) => OrderEntries(o, at, k);
    case ExpiringRow(e) => ExpiringEntries(e, at, k);
    case JobRow(j) => JobEntries(j, at, k);
    case UpstreamRow(u) => UpstreamEntries(u, at, k);
  }

  /** In every line, coloured or not, each column stands at its place and says, but for padding, what it is about. */
  lemma {:induction false} LineReadsBack(row: Row, at: Stamp, k: nat)
    requires IsLine(row) && CleanRow(row) && CleanStamp(at) && Fits(row) && k < |Widths(row, at)|
    ensures |Entries(row, at)| == |Widths(row, at)|
    ensures var line, start := Strip(Rendered(row, at, true)), Start(Widths(row, at), k);
            start + Widths(row, at)[k] <= |line| && PaddedTo(line[start..start + Widths(row, at)[k]], Entries(row, at)[k])
  {
    EveryColumnStands(row, at, k);
    ColumnEntries(row, at, k);
  }

  /** What a line says after its last column. */
  function Note(row: Row, at: Stamp): string
    requires IsLine(row)
  {
    match row
    case AuditRow(e) => if e.reason.Some? then "  reason=" + e.reason.value else ""
    case OrderRow(o) =>
      if o.revokedAt.None? then ""
      else
        "  revoked=" + at(o.revokedAt.value)
        + if o.revocationReason.Some? then " reason=" + Signed(o.revocationReason.value) else ""
    case ExpiringRow(e) =>
      if e.supersededBy.None? then "" else "  replaced-by=" + e.supersededBy.value.orderId + " via=" + e.supersededBy.value.via
    case JobRow(j) => if j.lastError.Some? then "  error=" + Shorten(j.lastError.value, 60) else ""
    case _ => ""
  }

  lemma {:induction false} NoteIsTail(row: Row, at: Stamp, tail: seq<Piece>)
    requires IsLine(row) && Pieces(row, at) == Columns(LineColumns(row, at)) + tail
    ensures Format(false, tail) == Note(row, at)
  {
    assert tail == Pieces(row, at)[|Columns(LineColumns(row, at))|..];
    if tail != [] {
      assert tail == [tail[0]] + [];
      FormatCons(tail[0], []);
    }
  }

  lemma {:induction false} TailFollows(pieces: seq<Piece>, tail: seq<Piece>, widths: seq<nat>)
    requires |pieces| == |widths| > 0 && forall i :: 0 <= i < |pieces| ==> |pieces[i].text| == widths[i]
    ensures var line, end := Format(false, Columns(pieces) + tail), Start(widths, |widths|) - 2;
            0 <= end <= |line| && line[end..] == Format(false, tail)
  {
    if |pieces| == 1 {
      FormatCons(pieces[0], tail);
    } else {
      FormatColumns(pieces, tail);
      TailFollows(pieces[1..], tail, widths[1..]);
    }
  }

  /** After its last column a line says its note, and nothing else. */
  lemma {:induction false} LineEndsWithItsNote(row: Row, at: Stamp)
    requires IsLine(row) && CleanRow(row) && CleanStamp(at) && Fits(row)
    ensures var line, end := Strip(Rendered(row, at, true)), Start(Widths(row, at), |Widths(row, at)|) - 2;
            0 <= end <= |line| && line[end..] == Note(row, at)
  {
    StrippedIsPlain(row, at);
    WidthsHold(row, at);
    var tail := LineIsColumns(row, at);
    NoteIsTail(row, at, tail);
    TailFollows(LineColumns(row, at), tail, Widths(row, at));
  }
}
