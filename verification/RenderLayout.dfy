/**
 Colour never changes the layout (src/cli/render.rs, whose tests strip every coloured rendering): for every
 renderer, what colour adds is whole escape sequences, and taking them out again gives the plain rendering.
 */
module RenderLayout {
  import opened Prelude
  import opened Strings
  import opened Palette
  import opened Render

  datatype Row =
    | AccountRow(account: Account)
    | AuditRow(entry: AuditEntry)
    | OrderRow(order: Order)
    | ExpiringRow(expiring: Expiring)
    | JobRow(job: Job)
    | UpstreamRow(upstream: Upstream)
    | AccountDetailRow(account: Account)
    | AuditDetailRow(entry: AuditEntry)
    | JobDetailRow(jobDetail: JobDetail)
    | UpstreamDetailRow(upstreamDetail: UpstreamDetail)
    | OrderDetailRow(detail: OrderDetail)

  function Pieces(row: Row, at: Stamp): seq<Piece> {
    match row
    case AccountRow(a) => AccountLine(a, at)
    case AuditRow(e) => AuditLine(e, at)
    case OrderRow(o) => OrderLine(o, at)
    case ExpiringRow(e) => ExpiringLine(e, at)
    case JobRow(j) => JobLine(j, at)
    case UpstreamRow(u) => UpstreamLine(u, at)
    case AccountDetailRow(a) => Block("", 13, AccountCells(a, at))
    case AuditDetailRow(e) => Block("", 12, AuditCells(e, at))
    case JobDetailRow(d) => JobDetailPieces(d, at)
    case UpstreamDetailRow(d) => UpstreamDetailPieces(d, at)
    case OrderDetailRow(d) => OrderDetailPieces(d, at)
  }

  function Rendered(row: Row, at: Stamp, on: bool): string { Format(on, Pieces(row, at)) }

  lemma {:induction false} FormatOnlyInserts(pieces: seq<Piece>)
    ensures Recolours(Format(true, pieces), Format(false, pieces))
  {
    if pieces != [] {
      var head := pieces[0];
      assert Recolours(Show(true, head), Show(false, head)) by {
        match head
        case Plain(text) => RecoloursItself(text);
        case Painted(role, text) => PaintOnlyInserts(role, text);
        case StatusWord(text) => StatusOnlyInserts(text);
      }
      FormatOnlyInserts(pieces[1..]);
      RecoloursAppend(Show(true, head), Show(false, head), Format(true, pieces[1..]), Format(false, pieces[1..]));
    }
  }

  /** For every renderer and every row, whatever its fields hold, colour only puts escape sequences in between. */
  lemma ColourOnlyInserts(row: Row, at: Stamp)
    ensures Recolours(Rendered(row, at, true), Rendered(row, at, false))
  {
    FormatOnlyInserts(Pieces(row, at));
  }

  predicate Clean(s: string) { ESC !in s }

  predicate AllClean(pieces: seq<Piece>) { forall i :: 0 <= i < |pieces| ==> Clean(pieces[i].text) }

  predicate CleanOption(s: Option<string>) { s.Some? ==> Clean(s.value) }

  predicate CleanTexts(texts: seq<string>) { forall t :: t in texts ==> Clean(t) }

  predicate CleanOrder(o: Order) {
    && Clean(o.id) && Clean(o.profile) && Clean(o.accountId) && Clean(o.status) && CleanTexts(o.identifiers)
    && CleanOption(o.replacing) && CleanOption(o.certSerial) && CleanOption(o.error)
  }

  predicate CleanAuthz(a: Authorization) {
    && Clean(a.id) && Clean(a.status) && Clean(a.identifier)
    && forall c :: c in a.challenges ==> Clean(c.id) && Clean(c.status) && Clean(c.typ)
  }

  predicate CleanAccount(a: Account) {
    && Clean(a.id) && Clean(a.profile) && Clean(a.status) && Clean(a.fingerprint) && CleanTexts(a.contact)
    && CleanOption(a.eabKid) && CleanOption(a.createdIp) && CleanOption(a.createdPtr)
    && CleanOption(a.lastSeenIp) && CleanOption(a.lastSeenPtr)
  }

  predicate CleanEntry(e: AuditEntry) {
    && Clean(e.event) && Clean(e.outcome) && Clean(e.profile) && Clean(e.actorKind) && CleanTexts(e.identifiers)
    && CleanOption(e.actorId) && CleanOption(e.accountId) && CleanOption(e.orderId) && CleanOption(e.certSerial)
    && CleanOption(e.clientIp) && CleanOption(e.clientPtr) && CleanOption(e.userAgent) && CleanOption(e.requestId)
    && CleanOption(e.reason) && CleanOption(e.detail)
  }

  predicate CleanJob(j: Job) {
    && Clean(j.id) && Clean(j.kind) && Clean(j.status) && Clean(j.dedupKey) && Clean(j.payload)
    && CleanOption(j.leaseOwner) && CleanOption(j.lastError)
  }

  predicate CleanUpstream(u: Upstream) {
    && Clean(u.orderId) && Clean(u.profile) && Clean(u.status) && Clean(u.localStatus) && Clean(u.orderUrl)
    && CleanTexts(u.identifiers) && CleanOption(u.finalizeUrl) && CleanOption(u.certificateUrl) && CleanOption(u.error)
    && CleanOption(u.clientIp) && CleanOption(u.clientPtr) && CleanOption(u.userAgent) && CleanOption(u.requestId)
  }

  /** No field of the row contains an escape character. */
  predicate CleanRow(row: Row) {
    match row
    case AccountRow(a) => CleanAccount(a)
    case AuditRow(e) => CleanEntry(e)
    case OrderRow(o) => CleanOrder(o)
    case ExpiringRow(e) =>
      CleanOrder(e.order) && (e.supersededBy.Some? ==> Clean(e.supersededBy.value.orderId) && Clean(e.supersededBy.value.via))
    case JobRow(j) => CleanJob(j)
    case UpstreamRow(u) => CleanUpstream(u)
    case AccountDetailRow(a) => CleanAccount(a)
    case AuditDetailRow(e) => CleanEntry(e)
    case JobDetailRow(d) => CleanJob(d.job) && (d.upstream.Some? ==> CleanUpstream(d.upstream.value))
    case UpstreamDetailRow(d) => CleanUpstream(d.upstream) && (d.job.Some? ==> CleanJob(d.job.value))
    case OrderDetailRow(d) => CleanOrder(d.order) && forall a :: a in d.authorizations ==> CleanAuthz(a)
  }

  ghost predicate CleanStamp(at: Stamp) { forall t :: Clean(at(t)) }

  lemma {:induction false} JoinIsClean(texts: seq<string>)
    requires CleanTexts(texts)
    ensures Clean(Join(texts))
  {
    if texts != [] {
      assert texts[0] in texts && forall t :: t in texts[1..] ==> t in texts;
      JoinIsClean(texts[1..]);
    }
  }

  lemma {:induction false} ColumnsAreClean(pieces: seq<Piece>)
    requires AllClean(pieces)
    ensures AllClean(Columns(pieces))
  {
    if |pieces| > 1 { ColumnsAreClean(pieces[1..]); }
  }

  lemma {:induction false} FlattenIsClean<A>(f: A -> seq<Piece>, xs: seq<A>)
    requires forall x :: x in xs ==> AllClean(f(x))
    ensures AllClean(Flatten(f, xs))
  {
    if xs != [] { FlattenIsClean(f, xs[..|xs| - 1]); }
  }

  lemma {:induction false} AccountLineIsClean(a: Account, at: Stamp)
    requires CleanAccount(a) && CleanStamp(at)
    ensures AllClean(AccountLine(a, at))
  {
    JoinIsClean(a.contact);
    ColumnsAreClean(AccountColumns(a, at));
  }

  lemma {:induction false} AuditLineIsClean(e: AuditEntry, at: Stamp)
    requires CleanEntry(e) && CleanStamp(at)
    ensures AllClean(AuditLine(e, at))
  {
    JoinIsClean(e.identifiers);
    assert Clean(Signed(e.id)) && Clean(Actor(e)) && Clean(Client(e.clientIp, e.clientPtr));
    assert Clean(PaintEvent(e.event, 26).text);
    ColumnsAreClean(AuditColumns(e, at));
  }

  lemma {:induction false} StampIsClean(at: Stamp, t: int)
    requires CleanStamp(at)
    ensures Clean(at(t))
  {
  }

  lemma {:induction false} RevocationIsClean(o: Order, at: Stamp)
    requires o.revokedAt.Some? && CleanStamp(at)
    ensures Clean(Revocation(o, at))
  {
    StampIsClean(at, o.revokedAt.value);
  }

  lemma {:induction false} DaysAreClean(n: int)
    ensures Clean(Days(n).text)
  {
  }

  lemma {:induction false} ReplacementIsClean(s: Superseded)
    requires Clean(s.orderId) && Clean(s.via)
    ensures Clean(Replacement(s))
  {
  }

  lemma {:induction false} OrderLineIsClean(o: Order, at: Stamp)
    requires CleanOrder(o) && CleanStamp(at)
    ensures AllClean(OrderLine(o, at))
  {
    JoinIsClean(o.identifiers);
    ColumnsAreClean(OrderColumns(o, at));
    if o.revokedAt.Some? { RevocationIsClean(o, at); }
  }

  lemma {:induction false} ExpiringLineIsClean(e: Expiring, at: Stamp)
    requires CleanRow(ExpiringRow(e)) && CleanStamp(at)
    ensures AllClean(ExpiringLine(e, at))
  {
    JoinIsClean(e.order.identifiers);
    DaysAreClean(e.daysRemaining);
    ColumnsAreClean(ExpiringColumns(e, at));
    if e.supersededBy.Some? { ReplacementIsClean(e.supersededBy.value); }
  }

  lemma {:induction false} JobLineIsClean(j: Job, at: Stamp)
    requires CleanJob(j) && CleanStamp(at)
    ensures AllClean(JobLine(j, at))
  {
    TriesAreClean(j);
    ColumnsAreClean(JobColumns(j, at));
    if j.lastError.Some? { assert Clean(Shorten(j.lastError.value, 60)); }
  }

  lemma {:induction false} TriesAreClean(j: Job)
    ensures Clean(Tries(j))
  {
    assert Clean(Signed(j.attempts)) && Clean(Signed(j.maxAttempts));
  }

  lemma {:induction false} UpstreamLineIsClean(u: Upstream, at: Stamp)
    requires CleanUpstream(u) && CleanStamp(at)
    ensures AllClean(UpstreamLine(u, at))
  {
    JoinIsClean(u.identifiers);
    ColumnsAreClean(UpstreamColumns(u, at));
  }

  predicate CleanCell(cell: Cell) { Clean(cell.0) && (cell.1.Some? ==> Clean(cell.1.value.text)) }

  predicate CleanCells(cells: seq<Cell>) { forall i :: 0 <= i < |cells| ==> CleanCell(cells[i]) }

  lemma {:induction false} CellIsClean(indent: string, width: nat, cell: Cell)
    requires Clean(indent) && CleanCell(cell)
    ensures AllClean(CellPieces(indent, width, cell))
  {
    assert Clean(Pad(cell.0, width));
  }

  lemma {:induction false} BlockIsClean(indent: string, width: nat, cells: seq<Cell>)
    requires Clean(indent) && CleanCells(cells)
    ensures AllClean(Block(indent, width, cells))
  {
    if cells != [] {
      BlockIsClean(indent, width, cells[..|cells| - 1]);
      CellIsClean(indent, width, cells[|cells| - 1]);
    }
  }

  lemma {:induction false} WhenIsClean(name: string, t: Option<int>, at: Stamp)
    requires Clean(name) && CleanStamp(at)
    ensures CleanCell(When(name, t, at))
  {
    if t.Some? { StampIsClean(at, t.value); }
  }

  lemma {:induction false} CellsJoin(a: seq<Cell>, b: seq<Cell>, c: seq<Cell>)
    requires CleanCells(a) && CleanCells(b) && CleanCells(c)
    ensures CleanCells(a + b + c)
  {
  }

  lemma {:induction false} AccountCellsAreClean(a: Account, at: Stamp)
    requires CleanAccount(a) && CleanStamp(at)
    ensures CleanCells(AccountCells(a, at))
  {
    assert CleanCells(AccountIdentity(a, at)) by { WhenIsClean("created", Some(a.createdAt), at); }
    assert CleanCells(AccountTerms(a, at)) by { JoinIsClean(a.contact); WhenIsClean("last_seen", a.lastSeenAt, at); }
    assert CleanCells(AccountPlaces(a, at));
    CellsJoin(AccountIdentity(a, at), AccountTerms(a, at), AccountPlaces(a, at));
  }

  lemma {:induction false} AuditEventIsClean(e: AuditEntry, at: Stamp)
    requires CleanEntry(e) && CleanStamp(at)
    ensures CleanCells(AuditEvent(e, at))
  {
    WhenIsClean("created", Some(e.createdAt), at);
    assert Clean(Signed(e.id)) && Clean(Actor(e)) && Clean(PaintEvent(e.event, 0).text);
  }

  lemma {:induction false} AuditSubjectIsClean(e: AuditEntry, at: Stamp)
    requires CleanEntry(e)
    ensures CleanCells(AuditSubject(e, at))
  {
  }

  lemma {:induction false} AuditCauseIsClean(e: AuditEntry, at: Stamp)
    requires CleanEntry(e)
    ensures CleanCells(AuditCause(e, at))
  {
    JoinIsClean(e.identifiers);
  }

  lemma {:induction false} AuditCellsAreClean(e: AuditEntry, at: Stamp)
    requires CleanEntry(e) && CleanStamp(at)
    ensures CleanCells(AuditCells(e, at))
  {
    AuditEventIsClean(e, at);
    AuditSubjectIsClean(e, at);
    AuditCauseIsClean(e, at);
    CellsJoin(AuditEvent(e, at), AuditSubject(e, at), AuditCause(e, at));
  }

  lemma {:induction false} JobStateIsClean(j: Job, at: Stamp)
    requires CleanJob(j) && CleanStamp(at)
    ensures CleanCells(JobState(j, at))
  {
    TriesAreClean(j);
    WhenIsClean("run_at", Some(j.runAt), at);
  }

  lemma {:induction false} JobLeaseIsClean(j: Job, at: Stamp)
    requires CleanJob(j) && CleanStamp(at)
    ensures CleanCells(JobLease(j, at))
  {
    WhenIsClean("deadline", j.deadline, at);
    WhenIsClean("lease_until", j.leaseUntil, at);
  }

  lemma {:induction false} JobRecordIsClean(j: Job, at: Stamp)
    requires CleanJob(j) && CleanStamp(at)
    ensures CleanCells(JobRecord(j, at))
  {
    WhenIsClean("created_at", Some(j.createdAt), at);
    WhenIsClean("updated_at", Some(j.updatedAt), at);
  }

  lemma {:induction false} JobCellsAreClean(j: Job, at: Stamp)
    requires CleanJob(j) && CleanStamp(at)
    ensures CleanCells(JobCells(j, at))
  {
    JobStateIsClean(j, at);
    JobLeaseIsClean(j, at);
    JobRecordIsClean(j, at);
    CellsJoin(JobState(j, at), JobLease(j, at), JobRecord(j, at));
  }

  lemma {:induction false} RelayCellsAreClean(j: Job, at: Stamp)
    requires CleanJob(j) && CleanStamp(at)
    ensures CleanCells(RelayCells(j, at))
  {
    TriesAreClean(j);
    WhenIsClean("run_at", Some(j.runAt), at);
  }

  lemma {:induction false} UpstreamStateIsClean(u: Upstream, at: Stamp)
    requires CleanUpstream(u)
    ensures CleanCells(UpstreamState(u, at))
  {
    JoinIsClean(u.identifiers);
  }

  lemma {:induction false} UpstreamLinksAreClean(u: Upstream, at: Stamp)
    requires CleanUpstream(u)
    ensures CleanCells(UpstreamLinks(u, at))
  {
  }

  lemma {:induction false} UpstreamRecordIsClean(u: Upstream, at: Stamp)
    requires CleanUpstream(u) && CleanStamp(at)
    ensures CleanCells(UpstreamRecord(u, at))
  {
    WhenIsClean("created_at", Some(u.createdAt), at);
    WhenIsClean("updated_at", Some(u.updatedAt), at);
  }

  lemma {:induction false} UpstreamCellsAreClean(u: Upstream, at: Stamp)
    requires CleanUpstream(u) && CleanStamp(at)
    ensures CleanCells(UpstreamCells(u, at))
  {
    UpstreamStateIsClean(u, at);
    UpstreamLinksAreClean(u, at);
    UpstreamRecordIsClean(u, at);
    CellsJoin(UpstreamState(u, at), UpstreamLinks(u, at), UpstreamRecord(u, at));
  }

  lemma {:induction false} OrderStateIsClean(o: Order, at: Stamp)
    requires CleanOrder(o) && CleanStamp(at)
    ensures CleanCells(OrderState(o, at))
  {
    JoinIsClean(o.identifiers);
    WhenIsClean("created", Some(o.createdAt), at);
    WhenIsClean("expires", Some(o.expires), at);
  }

  lemma {:induction false} OrderDatesAreClean(o: Order, at: Stamp)
    requires CleanOrder(o) && CleanStamp(at)
    ensures CleanCells(OrderDates(o, at))
  {
    WhenIsClean("not_before", o.notBefore, at);
    WhenIsClean("not_after", o.notAfter, at);
    WhenIsClean("cert_not_after", if o.certNotAfter.Some? && o.certNotAfter.value >= 0 then o.certNotAfter else None, at);
  }

  lemma {:induction false} OrderEndIsClean(o: Order, at: Stamp)
    requires CleanOrder(o) && CleanStamp(at)
    ensures CleanCells(OrderEnd(o, at))
  {
    if o.revokedAt.Some? { StampIsClean(at, o.revokedAt.value); }
    if o.revocationReason.Some? { assert Clean(Signed(o.revocationReason.value)); }
  }

  lemma {:induction false} OrderCellsAreClean(o: Order, at: Stamp)
    requires CleanOrder(o) && CleanStamp(at)
    ensures CleanCells(OrderCells(o, at))
  {
    OrderStateIsClean(o, at);
    OrderDatesAreClean(o, at);
    OrderEndIsClean(o, at);
    CellsJoin(OrderState(o, at), OrderDates(o, at), OrderEnd(o, at));
  }

  lemma {:induction false} HeadingsAreClean()
    ensures Clean("\nUpstream order:\n") && Clean("\nRelay job:\n") && Clean("") && Clean("  ")
  {
  }

  lemma {:induction false} SectionIsClean(a: seq<Piece>, heading: string, b: seq<Piece>)
    requires AllClean(a) && Clean(heading) && AllClean(b)
    ensures AllClean(a + ([Plain(heading)] + b))
  {
  }

  lemma {:induction false} JobDetailIsClean(d: JobDetail, at: Stamp)
    requires CleanRow(JobDetailRow(d)) && CleanStamp(at)
    ensures AllClean(JobDetailPieces(d, at))
  {
    HeadingsAreClean();
    JobCellsAreClean(d.job, at);
    BlockIsClean("", 13, JobCells(d.job, at));
    if d.upstream.Some? {
      UpstreamCellsAreClean(d.upstream.value, at);
      BlockIsClean("  ", 24, UpstreamCells(d.upstream.value, at));
      SectionIsClean(Block("", 13, JobCells(d.job, at)), "\nUpstream order:\n", Block("  ", 24, UpstreamCells(d.upstream.value, at)));
    }
  }

  lemma {:induction false} UpstreamDetailIsClean(d: UpstreamDetail, at: Stamp)
    requires CleanRow(UpstreamDetailRow(d)) && CleanStamp(at)
    ensures AllClean(UpstreamDetailPieces(d, at))
  {
    HeadingsAreClean();
    UpstreamCellsAreClean(d.upstream, at);
    BlockIsClean("  ", 24, UpstreamCells(d.upstream, at));
    if d.job.Some? {
      RelayCellsAreClean(d.job.value, at);
      BlockIsClean("  ", 24, RelayCells(d.job.value, at));
      SectionIsClean(Block("  ", 24, UpstreamCells(d.upstream, at)), "\nRelay job:\n", Block("  ", 24, RelayCells(d.job.value, at)));
    }
  }

  lemma {:induction false} TreeIsClean(a: Authorization)
    requires CleanAuthz(a)
    ensures AllClean(AuthzTree(a))
  {
    FlattenIsClean(ChallengePieces, a.challenges);
  }

  lemma {:induction false} OrderDetailIsClean(d: OrderDetail, at: Stamp)
    requires CleanRow(OrderDetailRow(d)) && CleanStamp(at)
    ensures AllClean(OrderDetailPieces(d, at))
  {
    OrderCellsAreClean(d.order, at);
    BlockIsClean("", 14, OrderCells(d.order, at));
    forall a | a in d.authorizations ensures AllClean(AuthzTree(a)) { TreeIsClean(a); }
    FlattenIsClean(AuthzTree, d.authorizations);
  }

  lemma {:induction false} PiecesAreClean(row: Row, at: Stamp)
    requires CleanRow(row) && CleanStamp(at)
    ensures AllClean(Pieces(row, at))
  {
    match row
    case AccountRow(a) => AccountLineIsClean(a, at);
    case AuditRow(e) => AuditLineIsClean(e, at);
    case OrderRow(o) => OrderLineIsClean(o, at);
    case ExpiringRow(e) => ExpiringLineIsClean(e, at);
    case JobRow(j) => JobLineIsClean(j, at);
    case UpstreamRow(u) => UpstreamLineIsClean(u, at);
    case AccountDetailRow(a) =>
      AccountCellsAreClean(a, at);
      BlockIsClean("", 13, AccountCells(a, at));
    case AuditDetailRow(e) =>
      AuditCellsAreClean(e, at);
      BlockIsClean("", 12, AuditCells(e, at));
    case JobDetailRow(d) => JobDetailIsClean(d, at);
    case UpstreamDetailRow(d) => UpstreamDetailIsClean(d, at);
    case OrderDetailRow(d) => OrderDetailIsClean(d, at);
  }

  lemma {:induction false} FormatIsClean(pieces: seq<Piece>)
    requires AllClean(pieces)
    ensures Clean(Format(false, pieces))
  {
    if pieces != [] {
      assert Show(false, pieces[0]) == pieces[0].text;
      FormatIsClean(pieces[1..]);
    }
  }

  /**
   For every renderer and every row with no escape in its fields, stripping the coloured rendering gives the
   plain rendering: every column stays where it was.
   */
  lemma StrippedIsPlain(row: Row, at: Stamp)
    requires CleanRow(row) && CleanStamp(at)
    ensures Strip(Rendered(row, at, true)) == Rendered(row, at, false)
  {
    PiecesAreClean(row, at);
    FormatIsClean(Pieces(row, at));
    ColourOnlyInserts(row, at);
    StrippingUndoesColour(Rendered(row, at, true), Rendered(row, at, false));
  }

  // ---------------------------------------------------------------------------------------------
  // Which colours a line shows

  function WordColour(word: string): seq<Role> { if RoleOf(Trim(word)).Some? then [RoleOf(Trim(word)).value] else [] }

  function PieceColour(piece: Piece): seq<Role> {
    match piece
    case Plain(_) => []
    case Painted(role, _) => [role]
    case StatusWord(text) => WordColour(text)
  }

  function Colours(pieces: seq<Piece>): seq<Role> {
    if pieces == [] then [] else PieceColour(pieces[0]) + Colours(pieces[1..])
  }

  lemma {:induction false} PieceShows(piece: Piece, b: string)
    requires Clean(piece.text)
    ensures Shown(Show(true, piece) + b) == PieceColour(piece) + Shown(b)
  {
    match piece
    case Plain(text) => PlainShowsNothing(text, b);
    case Painted(role, text) => PaintShows(role, text, b);
    case StatusWord(text) =>
      match RoleOf(Trim(text))
      case None => PlainShowsNothing(text, b);
      case Some(role) => PaintShows(role, text, b);
  }

  lemma {:induction false} FormatShows(pieces: seq<Piece>)
    requires AllClean(pieces)
    ensures Shown(Format(true, pieces)) == Colours(pieces)
  {
    if pieces != [] {
      PieceShows(pieces[0], Format(true, pieces[1..]));
      FormatShows(pieces[1..]);
    }
  }

  lemma {:induction false} ColoursAppend(a: seq<Piece>, b: seq<Piece>)
    ensures Colours(a + b) == Colours(a) + Colours(b)
  {
    if a == [] {
      assert a + b == b;
    } else {
      assert (a + b)[1..] == a[1..] + b;
      ColoursAppend(a[1..], b);
    }
  }

  lemma {:induction false} ColoursOfColumns(pieces: seq<Piece>)
    ensures Colours(Columns(pieces)) == Colours(pieces)
  {
    if |pieces| > 1 {
      ColoursOfColumns(pieces[1..]);
      ColoursAppend([pieces[0]] + [Plain("  ")], Columns(pieces[1..]));
      ColoursAppend([pieces[0]], [Plain("  ")]);
      ColoursAppend([pieces[0]], pieces[1..]);
      PlainHasNoColour([Plain("  ")]);
      assert [pieces[0]] + [Plain("  ")] == [pieces[0], Plain("  ")] && [pieces[0]] + pieces[1..] == pieces;
    }
  }

  lemma {:induction false} PaddedWordColour(word: string, width: nat)
    ensures WordColour(Pad(word, width)) == WordColour(word)
  {
    if |word| < width { TrimDropsSpaces(word, width - |word|); }
  }

  /** A list that is plain but for its third piece has the colour of that piece. */
  lemma {:induction false} ThirdHasTheColour(pieces: seq<Piece>)
    requires |pieces| >= 3 && forall i :: 0 <= i < |pieces| && i != 2 ==> pieces[i].Plain?
    ensures Colours(pieces) == PieceColour(pieces[2])
  {
    PlainHasNoColour(pieces[3..]);
    ColoursAppend(pieces[..2], pieces[2..]);
    PlainHasNoColour(pieces[..2]);
    assert pieces == pieces[..2] + pieces[2..] && pieces[2..][1..] == pieces[3..];
  }

  lemma {:induction false} PlainHasNoColour(pieces: seq<Piece>)
    requires forall i :: 0 <= i < |pieces| ==> pieces[i].Plain?
    ensures Colours(pieces) == []
  {
    if pieces != [] { PlainHasNoColour(pieces[1..]); }
  }

  /** How urgent an expiry is. */
  function Urgency(days: int): seq<Role> {
    if days < 0 || days > 30 then [] else if days > 7 then [Busy] else [Bad]
  }

  /** The colours each line is meant to show: its status, and what is wrong or right about its row. */
  ghost function Meant(row: Row): seq<Role>
    requires IsLine(row)
  {
    match row
    case AccountRow(a) => WordColour(a.status)
    case AuditRow(e) => if exists prefix :: e.event == prefix + "_failed" then [Bad] else []
    case OrderRow(o) => WordColour(o.status) + if o.revokedAt.Some? then [Bad] else []
    case ExpiringRow(e) => Urgency(e.daysRemaining) + if e.supersededBy.Some? then [Good] else []
    case JobRow(j) => WordColour(j.status) + if j.lastError.Some? then [Bad] else []
    case UpstreamRow(u) => WordColour(u.status)
  }

  lemma {:induction false} SuffixIsEnd(s: string, suffix: string)
    ensures EndsWith(s, suffix) <==> exists prefix :: s == prefix + suffix
  {
    if EndsWith(s, suffix) { assert s == s[..|s| - |suffix|] + suffix; }
  }

  lemma {:induction false} ColumnColours(row: Row, at: Stamp)
    requires IsLine(row)
    ensures Colours(LineColumns(row, at)) == PieceColour(LineColumns(row, at)[2])
  {
    ThirdHasTheColour(LineColumns(row, at));
  }

  lemma {:induction false} ThirdColumnColour(row: Row, at: Stamp)
    requires IsLine(row)
    ensures PieceColour(LineColumns(row, at)[2])
         == match row
            case AccountRow(a) => WordColour(a.status)
            case AuditRow(e) => if exists prefix :: e.event == prefix + "_failed" then [Bad] else []
            case OrderRow(o) => WordColour(o.status)
            case ExpiringRow(e) => Urgency(e.daysRemaining)
            case JobRow(j) => WordColour(j.status)
            case UpstreamRow(u) => WordColour(u.status)
  {
    match row
    case AccountRow(a) => PaddedWordColour(a.status, 11);
    case AuditRow(e) => SuffixIsEnd(e.event, "_failed");
    case OrderRow(o) => PaddedWordColour(o.status, 9);
    case ExpiringRow(e) =>
    case JobRow(j) => PaddedWordColour(j.status, 10);
    case UpstreamRow(u) => PaddedWordColour(u.status, 10);
  }

  /** Every line shows exactly the colours it is meant to show, in that order. */
  lemma {:induction false} LinesShowWhatTheyMean(row: Row, at: Stamp)
    requires IsLine(row) && CleanRow(row) && CleanStamp(at)
    ensures Shown(Rendered(row, at, true)) == Meant(row)
  {
    PiecesAreClean(row, at);
    FormatShows(Pieces(row, at));
    var tail := LineIsColumns(row, at);
    ColoursAppend(Columns(LineColumns(row, at)), tail);
    ColoursOfColumns(LineColumns(row, at));
    ColumnColours(row, at);
    ThirdColumnColour(row, at);
    TailColours(row, at, tail);
  }

  lemma {:induction false} TailColours(row: Row, at: Stamp, tail: seq<Piece>)
    requires IsLine(row) && Pieces(row, at) == Columns(LineColumns(row, at)) + tail
    ensures Colours(tail)
         == match row
            case OrderRow(o) => if o.revokedAt.Some? then [Bad] else []
            case ExpiringRow(e) => if e.supersededBy.Some? then [Good] else []
            case JobRow(j) => if j.lastError.Some? then [Bad] else []
            case _ => []
  {
    assert tail == Pieces(row, at)[|Columns(LineColumns(row, at))|..];
    assert |tail| <= 1;
    assert |tail| == 1 ==> tail[1..] == [];
  }

  /** Where a column starts when colour is off. */
  function Offset(pieces: seq<Piece>, k: nat): nat
    requires k < |pieces|
  {
    if k == 0 then 0 else |pieces[0].text| + 2 + Offset(pieces[1..], k - 1)
  }

  lemma {:induction false} FormatCons(head: Piece, rest: seq<Piece>)
    ensures Format(false, [head] + rest) == head.text + Format(false, rest)
  {
  }

  lemma {:induction false} FormatColumns(pieces: seq<Piece>, tail: seq<Piece>)
    requires |pieces| > 1
    ensures Format(false, Columns(pieces) + tail) == pieces[0].text + "  " + Format(false, Columns(pieces[1..]) + tail)
  {
    var rest := Columns(pieces[1..]) + tail;
    assert Columns(pieces) + tail == [pieces[0]] + ([Plain("  ")] + rest);
    FormatCons(pieces[0], [Plain("  ")] + rest);
    FormatCons(Plain("  "), rest);
    Regroup(pieces[0].text, "  ", Format(false, rest));
  }

  lemma {:induction false} ColumnAt(pieces: seq<Piece>, tail: seq<Piece>, k: nat)
    requires k < |pieces|
    ensures var line := Format(false, Columns(pieces) + tail); var start := Offset(pieces, k);
            start + |pieces[k].text| <= |line| && line[start..start + |pieces[k].text|] == pieces[k].text
  {
    if k > 0 {
      FormatColumns(pieces, tail);
      ColumnAt(pieces[1..], tail, k - 1);
      var start, width := Offset(pieces[1..], k - 1), |pieces[k].text|;
      Shifted(pieces[0].text + "  ", Format(false, Columns(pieces[1..]) + tail), start, start + width);
    } else {
      assert Columns(pieces) + tail == [pieces[0]] + (Columns(pieces)[1..] + tail);
      FormatCons(pieces[0], Columns(pieces)[1..] + tail);
    }
  }

  lemma {:induction false} Shifted(a: string, b: string, i: nat, j: nat)
    requires i <= j <= |b|
    ensures (a + b)[|a| + i..|a| + j] == b[i..j]
  {
  }

  predicate IsLine(row: Row) {
    row.AccountRow? || row.AuditRow? || row.OrderRow? || row.ExpiringRow? || row.JobRow? || row.UpstreamRow?
  }

  function LineColumns(row: Row, at: Stamp): seq<Piece>
    requires IsLine(row)
  {
    match row
    case AccountRow(a) => AccountColumns(a, at)
    case AuditRow(e) => AuditColumns(e, at)
    case OrderRow(o) => OrderColumns(o, at)
    case ExpiringRow(e) => ExpiringColumns(e, at)
    case JobRow(j) => JobColumns(j, at)
    case UpstreamRow(u) => UpstreamColumns(u, at)
  }

  lemma {:induction false} LineIsColumns(row: Row, at: Stamp) returns (tail: seq<Piece>)
    requires IsLine(row)
    ensures Pieces(row, at) == Columns(LineColumns(row, at)) + tail
  {
    tail := Pieces(row, at)[|Columns(LineColumns(row, at))|..];
  }

  /** The padded columns of the line have room for what they show. */
  predicate Fits(row: Row)
    requires IsLine(row)
  {
    match row
    case AccountRow(a) => |a.profile| <= 12 && |a.status| <= 11 && |Client(a.lastSeenIp, a.lastSeenPtr)| <= 40
    case AuditRow(e) =>
      && |Signed(e.id)| <= 8 && |e.event| <= 26 && |e.profile| <= 12 && |Actor(e)| <= 24
      && |Client(e.clientIp, e.clientPtr)| <= 40
    case OrderRow(o) => |o.profile| <= 12 && |o.status| <= 9
    case ExpiringRow(e) => |e.order.profile| <= 12 && |Signed(e.daysRemaining)| <= 4
    case JobRow(j) => |j.kind| <= 22 && |j.status| <= 10 && |Tries(j)| <= 5
    case UpstreamRow(u) => |u.profile| <= 12 && |u.status| <= 10 && |u.localStatus| <= 10
  }

  /** How wide each column is; a padded column always as wide as its format says. */
  function Widths(row: Row, at: Stamp): seq<nat>
    requires IsLine(row)
  {
    match row
    case AccountRow(a) => [|a.id|, 12, 11, 40, if a.contact == [] then 1 else |Join(a.contact)|, |at(a.createdAt)|]
    case AuditRow(e) => [8, |at(e.createdAt)|, 26, 12, 24, 40, |Join(e.identifiers)|]
    case OrderRow(o) => [|o.id|, 12, 9, |Join(o.identifiers)|, |at(o.createdAt)|]
    case ExpiringRow(e) =>
      [|e.order.id|, 12, 5, |at(if e.order.certNotAfter.Some? then e.order.certNotAfter.value else 0)|, |Join(e.order.identifiers)|]
    case JobRow(j) => [|j.id|, 22, 10, 5, |at(j.runAt)|, |j.dedupKey|]
    case UpstreamRow(u) => [|u.orderId|, 12, 10, 10, |Join(u.identifiers)|, |at(u.updatedAt)|]
  }

  /** Where column `k` starts: after the columns before it and two spaces for each. */
  function Start(widths: seq<nat>, k: nat): nat
    requires k <= |widths|
  {
    if k == 0 then 0 else widths[0] + 2 + Start(widths[1..], k - 1)
  }

  lemma {:induction false} WidthsHold(row: Row, at: Stamp)
    requires IsLine(row) && Fits(row)
    ensures var pieces, widths := LineColumns(row, at), Widths(row, at);
            |pieces| == |widths| && forall i :: 0 <= i < |pieces| ==> |pieces[i].text| == widths[i]
  {
  }

  lemma {:induction false} OffsetIsStart(pieces: seq<Piece>, widths: seq<nat>, k: nat)
    requires |pieces| == |widths| && k < |pieces| && forall i :: 0 <= i < |pieces| ==> |pieces[i].text| == widths[i]
    ensures Offset(pieces, k) == Start(widths, k)
  {
    if k > 0 { OffsetIsStart(pieces[1..], widths[1..], k - 1); }
  }

  /**
   In every line renderer, every column stands where the widths say it does, coloured or not, and shows its own
   text, whenever the padded columns fit.
   */
  lemma {:induction false} EveryColumnStands(row: Row, at: Stamp, k: nat)
    requires IsLine(row) && CleanRow(row) && CleanStamp(at) && Fits(row) && k < |Widths(row, at)|
    ensures |LineColumns(row, at)| == |Widths(row, at)|
    ensures var line, start, end := Strip(Rendered(row, at, true)), Start(Widths(row, at), k), Start(Widths(row, at), k) + Widths(row, at)[k];
            end <= |line| && line[start..end] == LineColumns(row, at)[k].text
  {
    StrippedIsPlain(row, at);
    var pieces, widths := LineColumns(row, at), Widths(row, at);
    WidthsHold(row, at);
    OffsetIsStart(pieces, widths, k);
    var tail := LineIsColumns(row, at);
    ColumnAt(pieces, tail, k);
  }
}
