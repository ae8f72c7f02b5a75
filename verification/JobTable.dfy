/**
 The `jobs` table (crates/store/src/job.rs): one guarded statement per operation. A statement is a function
 from the table to the table; `Jobs` runs them in place.
 */
module JobTable {
  import opened Prelude

  type Id = nat
  type Runner = nat

  datatype Status = Ready | Running | Done | Failed | Cancelled

  datatype Row = Row(
    kind: string,
    key: string,
    status: Status,
    runAt: int,
    attempts: int,
    maxAttempts: int,
    deadline: Option<int>,
    leaseUntil: Option<int>,
    leaseOwner: Option<Runner>,
    createdAt: int,
    updatedAt: int)

  type Table = map<Id, Row>

  /** What a claimed attempt does to its row. */
  datatype Settlement = Complete | Retry(runAt: int) | Reschedule(runAt: int) | Abandon

  /** The database refuses a statement that would break the identity index. */
  datatype Violation = IdentityTaken

  predicate Live(r: Row) { r.status == Ready || r.status == Running }

  predicate SameIdentity(r: Row, q: Row) { r.kind == q.kind && r.key == q.key }

  /** The identity index: no two live rows agree in both kind and key. */
  predicate UniqueIdentity(t: Table) {
    forall i, j :: i in t && j in t && Live(t[i]) && Live(t[j]) && SameIdentity(t[i], t[j]) ==> i == j
  }

  /** A row has an owner and an expiry exactly while it is running. */
  predicate WellFormed(r: Row) {
    (r.status == Running <==> r.leaseOwner.Some?) && (r.status == Running <==> r.leaseUntil.Some?)
  }

  /** Some live row other than `id` has the identity of `r`. */
  predicate Held(t: Table, id: Id, r: Row) {
    exists j :: j in t && j != id && Live(t[j]) && SameIdentity(t[j], r)
  }

  function NewRow(kind: string, key: string, runAt: int, maxAttempts: int, deadline: Option<int>, now: int): Row {
    Row(kind, key, Ready, runAt, 0, maxAttempts, deadline, None, None, now, now)
  }

  /** `INSERT .. ON CONFLICT DO NOTHING`, against the primary key and the identity index. */
  predicate CanEnqueue(t: Table, id: Id, r: Row) { id !in t && !Held(t, id, r) }

  function Enqueued(t: Table, id: Id, r: Row): Table {
    if CanEnqueue(t, id, r) then t[id := r] else t
  }

  predicate Eligible(r: Row, kinds: seq<string>, now: int) {
    r.status == Ready && r.runAt <= now && r.kind in kinds
  }

  predicate Before(r: Row, q: Row) {
    r.runAt < q.runAt || (r.runAt == q.runAt && r.createdAt <= q.createdAt)
  }

  /** The row the claim's subselect picks; ties are the database's to break. */
  predicate Oldest(t: Table, id: Id, kinds: seq<string>, now: int) {
    && id in t && Eligible(t[id], kinds, now)
    && forall j :: j in t && Eligible(t[j], kinds, now) ==> Before(t[id], t[j])
  }

  function ClaimedRow(r: Row, runner: Runner, leaseUntil: int, now: int): Row {
    r.(status := Running, attempts := r.attempts + 1, leaseOwner := Some(runner), leaseUntil := Some(leaseUntil), updatedAt := now)
  }

  /** The guard every settlement and extension carries. */
  predicate Owns(t: Table, id: Id, runner: Runner) {
    id in t && t[id].status == Running && t[id].leaseOwner == Some(runner)
  }

  function SettledRow(r: Row, s: Settlement, now: int): Row {
    var freed := r.(leaseOwner := None, leaseUntil := None, updatedAt := now);
    match s
    case Complete => freed.(status := Done)
    case Retry(runAt) => freed.(status := Ready, runAt := runAt)
    case Reschedule(runAt) => freed.(status := Ready, runAt := runAt, attempts := 0)
    case Abandon => freed.(status := Failed)
  }

  function Settled(t: Table, id: Id, runner: Runner, s: Settlement, now: int): Table {
    if Owns(t, id, runner) then t[id := SettledRow(t[id], s, now)] else t
  }

  function Extended(t: Table, id: Id, runner: Runner, leaseUntil: int, now: int): Table {
    if Owns(t, id, runner) then t[id := t[id].(leaseUntil := Some(leaseUntil), updatedAt := now)] else t
  }

  predicate Expired(r: Row, now: int) {
    r.status == Running && r.leaseUntil.Some? && r.leaseUntil.value <= now
  }

  function FreedRow(r: Row, now: int): Row {
    r.(status := Ready, leaseOwner := None, leaseUntil := None, updatedAt := now)
  }

  function Reclaimed(t: Table, now: int): Table {
    map id | id in t :: if Expired(t[id], now) then FreedRow(t[id], now) else t[id]
  }

  predicate OwnedBy(r: Row, runner: Runner) { r.status == Running && r.leaseOwner == Some(runner) }

  function Released(t: Table, runner: Runner, now: int): Table {
    map id | id in t :: if OwnedBy(t[id], runner) then FreedRow(t[id], now) else t[id]
  }

  function CancelledRows(t: Table, id: Id, from: Status, now: int): Table {
    if id in t && t[id].status == from
    then t[id := t[id].(status := Cancelled, leaseOwner := None, leaseUntil := None, updatedAt := now)]
    else t
  }

  function Advanced(t: Table, id: Id, now: int): Table {
    if id in t && t[id].status == Ready then t[id := t[id].(runAt := now, updatedAt := now)] else t
  }

  function RevivedRow(r: Row, now: int): Row {
    r.(status := Ready, runAt := now, attempts := if r.maxAttempts - 1 > 0 then r.maxAttempts - 1 else 0,
       leaseOwner := None, leaseUntil := None, updatedAt := now)
  }

  /** The identity index refuses to bring back a row whose identity a newer live row has taken. */
  predicate CanRevive(t: Table, id: Id) { id in t && t[id].status == Failed && !Held(t, id, t[id]) }

  function Revived(t: Table, id: Id, now: int): Table {
    if CanRevive(t, id) then t[id := RevivedRow(t[id], now)] else t
  }

  predicate Stale(r: Row, cutoff: int) { !Live(r) && r.updatedAt < cutoff }

  function Cleaned(t: Table, cutoff: int): Table {
    map id | id in t && !Stale(t[id], cutoff) :: t[id]
  }

  predicate Sound(t: Table) { UniqueIdentity(t) && forall id :: id in t ==> WellFormed(t[id]) }

  lemma EnqueueIsSound(t: Table, id: Id, r: Row)
    requires Sound(t) && r.status == Ready && WellFormed(r)
    ensures Sound(Enqueued(t, id, r))
  {
  }

  /** A write that keeps a live row's identity, or ends its life, cannot break the index. */
  lemma UpdateIsSound(t: Table, id: Id, r: Row)
    requires Sound(t) && id in t && SameIdentity(r, t[id]) && WellFormed(r) && (Live(r) ==> Live(t[id]))
    ensures Sound(t[id := r])
  {
  }

  lemma SettleIsSound(t: Table, id: Id, runner: Runner, s: Settlement, now: int)
    requires Sound(t)
    ensures Sound(Settled(t, id, runner, s, now))
  {
    if Owns(t, id, runner) {
      UpdateIsSound(t, id, SettledRow(t[id], s, now));
    }
  }

  lemma ExtendIsSound(t: Table, id: Id, runner: Runner, leaseUntil: int, now: int)
    requires Sound(t)
    ensures Sound(Extended(t, id, runner, leaseUntil, now))
  {
  }

  lemma SweepIsSound(t: Table, t': Table)
    requires Sound(t)
    requires forall id :: id in t' ==> id in t && SameIdentity(t'[id], t[id]) && WellFormed(t'[id]) && (Live(t'[id]) ==> Live(t[id]))
    ensures Sound(t')
  {
  }

  lemma ReviveIsSound(t: Table, id: Id, now: int)
    requires Sound(t)
    ensures Sound(Revived(t, id, now))
  {
  }

  /** The table as the program updates it. */
  class Jobs {
    var rows: Table

    /** `Job::enqueue`; `false` means the identity is already queued. */
    method Enqueue(id: Id, row: Row) returns (queued: bool)
      requires Sound(rows) && row.status == Ready && WellFormed(row)
      modifies this
      ensures Sound(rows) && rows == Enqueued(old(rows), id, row)
      ensures queued <==> id !in old(rows) && forall j :: j in old(rows) && old(rows)[j].status in {Ready, Running} ==>
                            !(old(rows)[j].kind == row.kind && old(rows)[j].key == row.key)
    {
      EnqueueIsSound(rows, id, row);
      queued := id !in rows && !exists j :: j in rows && Live(rows[j]) && SameIdentity(rows[j], row);
      if queued {
        rows := rows[id := row];
      }
    }

    /**
     `Job::claim_next`: the subselect's scan, then the guarded write. `raced` says that another runner took the row
     between the two, so that the write finds it no longer ready.
     */
    method ClaimNext(runner: Runner, kinds: seq<string>, leaseUntil: int, now: int, raced: bool) returns (claimed: Option<Id>)
      requires Sound(rows)
      modifies this
      ensures Sound(rows)
      ensures claimed.None? <==> raced || forall id :: id in old(rows) ==> !Eligible(old(rows)[id], kinds, now)
      ensures claimed.None? ==> rows == old(rows)
      ensures claimed.Some? ==>
                && Oldest(old(rows), claimed.value, kinds, now)
                && var row := old(rows)[claimed.value];
                && row.status == Ready && row.runAt <= now && row.kind in kinds
                && forall j :: j in old(rows) && Eligible(old(rows)[j], kinds, now) ==>
                     row.runAt < old(rows)[j].runAt || (row.runAt == old(rows)[j].runAt && row.createdAt <= old(rows)[j].createdAt)
      ensures claimed.Some? ==> rows == old(rows)[claimed.value := ClaimedRow(old(rows)[claimed.value], runner, leaseUntil, now)]
    {
      claimed := None;
      var rest := rows.Keys;
      while rest != {}
        invariant rest <= rows.Keys
        invariant claimed.Some? ==> claimed.value in rows && Eligible(rows[claimed.value], kinds, now)
        invariant forall j :: j in rows && j !in rest && Eligible(rows[j], kinds, now) ==>
                    claimed.Some? && Before(rows[claimed.value], rows[j])
        decreases rest
      {
        var j :| j in rest;
        rest := rest - {j};
        if Eligible(rows[j], kinds, now) && (claimed.None? || !Before(rows[claimed.value], rows[j])) {
          claimed := Some(j);
        }
      }
      if raced { return None; }
      if claimed.Some? {
        var id := claimed.value;
        UpdateIsSound(rows, id, ClaimedRow(rows[id], runner, leaseUntil, now));
        rows := rows[id := ClaimedRow(rows[id], runner, leaseUntil, now)];
      }
    }

    /** `Job::settle`; the answer says whether the runner still held the lease. */
    method Settle(id: Id, runner: Runner, s: Settlement, now: int) returns (landed: bool)
      requires Sound(rows)
      modifies this
      ensures Sound(rows) && rows == Settled(old(rows), id, runner, s, now)
      ensures landed <==> Owns(old(rows), id, runner)
      // When the job may run next.
      ensures landed ==> forall kinds, at :: Eligible(rows[id], kinds, at) <==>
                           && ((s.Retry? || s.Reschedule?) && s.runAt <= at)
                           && old(rows)[id].kind in kinds
    {
      SettleIsSound(rows, id, runner, s, now);
      landed := id in rows && rows[id].status == Running && rows[id].leaseOwner == Some(runner);
      if landed {
        rows := rows[id := SettledRow(rows[id], s, now)];
      }
    }

    /**
     `Job::revive_row`: the revived row, nothing when the row is not failed, or the database's error when a live
     row has taken its identity.
     */
    method ReviveRow(id: Id, now: int) returns (r: Result<Option<Row>, Violation>)
      requires Sound(rows)
      modifies this
      ensures Sound(rows) && rows == Revived(old(rows), id, now)
      ensures r == Ok(None) <==> !(id in old(rows) && old(rows)[id].status == Failed)
      ensures r == Err(IdentityTaken) <==> id in old(rows) && old(rows)[id].status == Failed && Held(old(rows), id, old(rows)[id])
      ensures r.Ok? && r.value.Some? ==> id in rows && r.value.value == rows[id] && rows[id].status == Ready
    {
      ReviveIsSound(rows, id, now);
      if id !in rows || rows[id].status != Failed { return Ok(None); }
      if Held(rows, id, rows[id]) { return Err(IdentityTaken); }
      rows := rows[id := RevivedRow(rows[id], now)];
      return Ok(Some(rows[id]));
    }
  }
}
