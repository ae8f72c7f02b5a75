/**
 The durable job queue at work: any number of runners over one table (crates/jobs/src/jobs/runner.rs on
 crates/store/src/job.rs). Each claim is an entry of `log`, and its number names the attempt. An attempt is in
 `running` while its handler's code may still execute, in `open` until its outcome has been written or given
 up, and in `telling` between the abandonment of its job and the call that tells the handler so.

 `holder`, `lost` and the rest of `tells` are history: the last claim of each job; how many of its attempts,
 since its counter was last set, had their lease taken before they reported; and what became of the news that
 a job was given up. No guard reads them.
 */
module JobQueue {
  import opened Prelude
  import opened JobTable

  datatype Claim = Claim(job: Id, runner: Runner, row: Row)

  /** What an attempt came to: the handler's answer, its time running out, or a deadline already past. */
  datatype Answer = Finished | Again | Refused | TryAgain | TimedOut | TooLate

  /**
   News for handlers. `life` counts a job's revivals; `abandoned` has the attempts whose abandonment landed,
   with the life it ended. The news of each is on its way, `told`, or `silenced`.
   */
  datatype News = News(life: map<Id, nat>, abandoned: map<nat, nat>, telling: set<nat>, told: set<nat>, silenced: set<nat>)

  datatype State = State(
    rows: Table,
    log: seq<Claim>,
    running: set<nat>,
    open: set<nat>,
    gone: set<Runner>,
    holder: map<Id, nat>,
    lost: map<Id, nat>,
    news: News)

  datatype Event =
    | Enqueue(id: Id, row: Row)
    | ClaimNext(id: Id, runner: Runner, kinds: seq<string>, leaseUntil: int, now: int)
    | Extend(n: nat, leaseUntil: int, now: int)
    | Report(n: nat, answer: Answer, runAt: int, now: int, heard: bool)
    | Forgo(n: nat, executing: bool)
    | Stop(n: nat)
    | Tell(n: nat)
    | Crash(runner: Runner)
    | Reclaim(now: int)
    | Release(runner: Runner, now: int)
    | Cancel(id: Id, from: Status, now: int)
    | Advance(id: Id, now: int)
    | Revive(id: Id, now: int)
    | Cleanup(cutoff: int)

  const EMPTY := State(map[], [], {}, {}, {}, map[], map[], News(map[], map[], {}, {}, {}))

  /** `run_one` and `retire`: how an attempt settles, decided on the row as it was claimed. */
  function Decide(row: Row, answer: Answer, runAt: int): Settlement {
    match answer
    case Finished => Complete
    case Again => Reschedule(runAt)
    case Refused => Abandon
    case TooLate => Abandon
    case _ =>
      if row.attempts >= row.maxAttempts || (row.deadline.Some? && runAt > row.deadline.value) then Abandon
      else Retry(runAt)
  }

  predicate Enabled(s: State, e: Event) {
    match e
    case Enqueue(id, row) =>
      // Ids are fresh UUIDs.
      id !in s.lost && row.status == Ready && WellFormed(row) && row.attempts == 0
    case ClaimNext(id, runner, kinds, leaseUntil, now) =>
      // A lease ends after it begins, and a runner that stopped or died claims nothing more.
      Oldest(s.rows, id, kinds, now) && leaseUntil > now && runner !in s.gone
    case Extend(n, _, _) => n in s.open && n < |s.log|
    case Report(n, answer, _, now, _) =>
      && n in s.open && n < |s.log|
      && (answer == TooLate ==> s.log[n].row.deadline.Some? && s.log[n].row.deadline.value < now)
    // The lease could not be extended, or the settlement could not be written.
    case Forgo(n, _) => n in s.open
    // Code that ran on past its report reaches the point where it can be stopped.
    case Stop(n) => n in s.running && n !in s.open
    case Tell(n) => n in s.news.telling
    case Release(runner, _) => runner !in s.gone
    case Cancel(_, from, _) => from != Running
    case _ => true
  }

  /** The lease of `id` is taken from an attempt that has not reported. */
  function Bump(lost: map<Id, nat>, id: Id): map<Id, nat> {
    lost[id := (if id in lost then lost[id] else 0) + 1]
  }

  function BumpAll(lost: map<Id, nat>, ids: set<Id>): map<Id, nat> {
    map id | id in lost.Keys + ids :: (if id in lost then lost[id] else 0) + (if id in ids then 1 else 0)
  }

  function ExpiredIds(t: Table, now: int): set<Id> { set id | id in t && Expired(t[id], now) }

  function OwnedIds(t: Table, runner: Runner): set<Id> { set id | id in t && OwnedBy(t[id], runner) }

  /** The settlement of attempt `n` is the abandonment of its job, and it lands. */
  predicate Abandons(s: State, n: nat, answer: Answer, runAt: int) {
    && n < |s.log|
    && Decide(s.log[n].row, answer, runAt) == Abandon
    && Owns(s.rows, s.log[n].job, s.log[n].runner)
  }

  function LifeOf(news: News, id: Id): nat { if id in news.life then news.life[id] else 0 }

  /** `retire` after its write: the handler is told next, unless the answer to the write never came. */
  function Ended(news: News, n: nat, id: Id, heard: bool): News {
    var ended := news.(abandoned := news.abandoned[n := LifeOf(news, id)]);
    if heard then ended.(telling := news.telling + {n}) else ended.(silenced := news.silenced + {n})
  }

  function ReportStep(s: State, n: nat, answer: Answer, runAt: int, now: int, heard: bool): State
    requires n < |s.log|
  {
    var c := s.log[n];
    var d := Decide(c.row, answer, runAt);
    s.(rows := Settled(s.rows, c.job, c.runner, d, now),
       // Aborting a handler whose time ran out takes effect later; see `Stop`.
       running := if answer == TimedOut then s.running else s.running - {n},
       open := s.open - {n},
       lost := if !Owns(s.rows, c.job, c.runner) then s.lost
               else if d.Reschedule? then s.lost[c.job := 0]
               else if c.job in s.holder && s.holder[c.job] == n then s.lost
               else Bump(s.lost, c.job),
       news := if Abandons(s, n, answer, runAt) then Ended(s.news, n, c.job, heard) else s.news)
  }

  function ClaimStep(s: State, id: Id, runner: Runner, leaseUntil: int, now: int): State
    requires id in s.rows
  {
    var row := ClaimedRow(s.rows[id], runner, leaseUntil, now);
    s.(rows := s.rows[id := row], log := s.log + [Claim(id, runner, row)],
       running := s.running + {|s.log|}, open := s.open + {|s.log|}, holder := s.holder[id := |s.log|])
  }

  /** The attempts in `ns` that a runner made. */
  function Of(s: State, ns: set<nat>, runner: Runner): set<nat> {
    set n | n in ns && n < |s.log| && s.log[n].runner == runner
  }

  /** The process dies: its handlers stop, and what it had yet to write or tell is never written or told. */
  function CrashStep(s: State, runner: Runner): State {
    s.(running := s.running - Of(s, s.running, runner),
       open := s.open - Of(s, s.open, runner),
       gone := s.gone + {runner},
       news := s.news.(telling := s.news.telling - Of(s, s.news.telling, runner),
                       silenced := s.news.silenced + Of(s, s.news.telling, runner)))
  }

  function ReviveStep(s: State, id: Id, now: int): State {
    if CanRevive(s.rows, id)
    then s.(rows := Revived(s.rows, id, now), lost := s.lost[id := 0],
            news := s.news.(life := s.news.life[id := LifeOf(s.news, id) + 1]))
    else s
  }

  function Step(s: State, e: Event): State
    requires Enabled(s, e)
  {
    match e
    case Enqueue(id, row) => s.(rows := Enqueued(s.rows, id, row), lost := s.lost[id := 0])
    case ClaimNext(id, runner, _, leaseUntil, now) => ClaimStep(s, id, runner, leaseUntil, now)
    case Extend(n, leaseUntil, now) => s.(rows := Extended(s.rows, s.log[n].job, s.log[n].runner, leaseUntil, now))
    case Report(n, answer, runAt, now, heard) => ReportStep(s, n, answer, runAt, now, heard)
    case Forgo(n, executing) => s.(open := s.open - {n}, running := if executing then s.running else s.running - {n})
    case Stop(n) => s.(running := s.running - {n})
    case Tell(n) => s.(news := s.news.(telling := s.news.telling - {n}, told := s.news.told + {n}))
    case Crash(runner) => CrashStep(s, runner)
    case Reclaim(now) => s.(rows := Reclaimed(s.rows, now), lost := BumpAll(s.lost, ExpiredIds(s.rows, now)))
    case Release(runner, now) =>
      s.(rows := Released(s.rows, runner, now), gone := s.gone + {runner}, lost := BumpAll(s.lost, OwnedIds(s.rows, runner)))
    case Cancel(id, from, now) => s.(rows := CancelledRows(s.rows, id, from, now))
    case Advance(id, now) => s.(rows := Advanced(s.rows, id, now))
    case Revive(id, now) => ReviveStep(s, id, now)
    case Cleanup(cutoff) => s.(rows := Cleaned(s.rows, cutoff))
  }

  /** The state after a sequence of events, or `None` when one of them was not enabled. */
  function Run(es: seq<Event>): Option<State> {
    if es == [] then Some(EMPTY)
    else
      var before := Run(es[..|es| - 1]);
      var e := es[|es| - 1];
      if before.Some? && Enabled(before.value, e) then Some(Step(before.value, e)) else None
  }

  // ---------------------------------------------------------------------------------------------
  // The index holds in every state

  lemma SweepsKeepSound(s: State, e: Event)
    requires Sound(s.rows) && Enabled(s, e) && (e.Reclaim? || e.Release? || e.Cancel? || e.Advance? || e.Cleanup?)
    ensures Sound(Step(s, e).rows)
  {
    SweepIsSound(s.rows, Step(s, e).rows);
  }

  lemma StepKeepsSound(s: State, e: Event)
    requires Sound(s.rows) && Enabled(s, e)
    ensures Sound(Step(s, e).rows)
  {
    match e
    case Enqueue(id, row) => EnqueueIsSound(s.rows, id, row);
    case ClaimNext(id, runner, _, leaseUntil, now) => UpdateIsSound(s.rows, id, ClaimedRow(s.rows[id], runner, leaseUntil, now));
    case Extend(n, leaseUntil, now) => ExtendIsSound(s.rows, s.log[n].job, s.log[n].runner, leaseUntil, now);
    case Report(n, answer, runAt, now, _) =>
      SettleIsSound(s.rows, s.log[n].job, s.log[n].runner, Decide(s.log[n].row, answer, runAt), now);
    case Revive(id, now) => ReviveIsSound(s.rows, id, now);
    case Forgo(_, _) =>
    case Stop(_) =>
    case Tell(_) =>
    case Crash(_) =>
    case _ => SweepsKeepSound(s, e);
  }

  /** Whatever the runners, operators and sweeps do, at most one live job has an identity. */
  lemma {:induction false} IdentityIsUnique(es: seq<Event>)
    requires Run(es).Some?
    ensures Sound(Run(es).value.rows)
  {
    if es != [] {
      IdentityIsUnique(es[..|es| - 1]);
      StepKeepsSound(Run(es[..|es| - 1]).value, es[|es| - 1]);
    }
  }

  // ---------------------------------------------------------------------------------------------
  // Who holds a lease

  /** Every running row is leased to the runner of its job's last claim, as that claim wrote it. */
  predicate LeasesOk(s: State) {
    && s.open <= s.running
    && (forall n :: n in s.running ==> n < |s.log|)
    && (forall n :: 0 <= n < |s.log| ==> s.log[n].job in s.holder && n <= s.holder[s.log[n].job])
    && (forall id :: id in s.holder ==> s.holder[id] < |s.log| && s.log[s.holder[id]].job == id)
    && s.rows.Keys + s.holder.Keys <= s.lost.Keys
    && (forall id :: id in s.rows && s.rows[id].status == Running ==>
          && id in s.holder
          && s.rows[id].leaseOwner == Some(s.log[s.holder[id]].runner)
          && s.rows[id].attempts == s.log[s.holder[id]].row.attempts
          && s.rows[id].maxAttempts == s.log[s.holder[id]].row.maxAttempts)
  }

  /** Row `id`, if it is running in `t'`, was so in `t` under the same claim. */
  predicate SameLease(t: Table, t': Table, id: Id) {
    id in t' && t'[id].status == Running ==>
      && id in t && t[id].status == Running
      && t'[id].leaseOwner == t[id].leaseOwner
      && t'[id].attempts == t[id].attempts && t'[id].maxAttempts == t[id].maxAttempts
  }

  lemma LeasesFrame(s: State, s': State)
    requires LeasesOk(s) && s'.log == s.log && s'.holder == s.holder && s'.open <= s'.running <= s.running
    requires s.lost.Keys + s'.rows.Keys <= s'.lost.Keys
    requires forall id :: id in s'.rows ==> SameLease(s.rows, s'.rows, id)
    ensures LeasesOk(s')
  {
  }

  lemma ClaimKeepsLeases(s: State, id: Id, runner: Runner, leaseUntil: int, now: int)
    requires LeasesOk(s) && id in s.rows
    ensures LeasesOk(ClaimStep(s, id, runner, leaseUntil, now))
  {
  }

  /** No step but a claim starts a lease or changes the claim it stands on. */
  lemma OnlyClaimsLease(s: State, e: Event, id: Id)
    requires Enabled(s, e) && !e.ClaimNext? && id in Step(s, e).rows
    ensures SameLease(s.rows, Step(s, e).rows, id)
  {
  }

  lemma KeepsClaims(s: State, e: Event)
    requires LeasesOk(s) && Enabled(s, e) && !e.ClaimNext?
    ensures var s' := Step(s, e);
            && s'.log == s.log && s'.holder == s.holder && s'.open <= s'.running <= s.running
            && s.lost.Keys + s'.rows.Keys <= s'.lost.Keys
  {
  }

  lemma StepKeepsLeases(s: State, e: Event)
    requires LeasesOk(s) && Enabled(s, e)
    ensures LeasesOk(Step(s, e))
  {
    if e.ClaimNext? {
      ClaimKeepsLeases(s, e.id, e.runner, e.leaseUntil, e.now);
    } else {
      KeepsClaims(s, e);
      forall id | id in Step(s, e).rows ensures SameLease(s.rows, Step(s, e).rows, id) { OnlyClaimsLease(s, e, id); }
      LeasesFrame(s, Step(s, e));
    }
  }

  lemma {:induction false} LeasesHold(es: seq<Event>)
    requires Run(es).Some?
    ensures LeasesOk(Run(es).value)
  {
    if es != [] {
      LeasesHold(es[..|es| - 1]);
      StepKeepsLeases(Run(es[..|es| - 1]).value, es[|es| - 1]);
    }
  }

  /** Attempt `n` holds the lease of its job. */
  predicate CoveredAt(s: State, n: nat) {
    && n < |s.log|
    && s.log[n].job in s.rows && s.rows[s.log[n].job].status == Running
    && s.log[n].job in s.holder && s.holder[s.log[n].job] == n
  }

  /** The event takes the lease of job `id` away. */
  predicate Takes(s: State, e: Event, id: Id) {
    && id in s.rows
    && match e
       case Reclaim(now) => Expired(s.rows[id], now)
       case Release(runner, _) => OwnedBy(s.rows[id], runner)
       case _ => false
  }

  /** The event is a report on job `id` that lands. */
  predicate Lands(s: State, e: Event, id: Id) {
    e.Report? && e.n < |s.log| && s.log[e.n].job == id && Owns(s.rows, id, s.log[e.n].runner)
  }

  /** The event brings job `id` back to life. */
  predicate Revives(s: State, e: Event, id: Id) { e.Revive? && e.id == id && CanRevive(s.rows, id) }

  // ---------------------------------------------------------------------------------------------
  // Putting runs together

  lemma RunExtends(es: seq<Event>, e: Event)
    requires Run(es).Some? && Enabled(Run(es).value, e)
    ensures Run(es + [e]) == Some(Step(Run(es).value, e))
  {
  }

  predicate Arrives(es: seq<Event>, s: State) { Run(es) == Some(s) }

  /** With one job in the table, ready and due, any runner still going can claim it. */
  lemma ClaimsOnlyJob(es: seq<Event>, row: Row, runner: Runner, leaseUntil: int, now: int) returns (es': seq<Event>)
    requires Run(es).Some? && Run(es).value.rows == map[0 := row] && runner !in Run(es).value.gone
    requires row.status == Ready && row.kind == "relay" && row.runAt <= now < leaseUntil
    ensures es' == es + [ClaimNext(0, runner, ["relay"], leaseUntil, now)]
    ensures Run(es') == Some(ClaimStep(Run(es).value, 0, runner, leaseUntil, now))
    ensures Run(es').value.rows == map[0 := ClaimedRow(row, runner, leaseUntil, now)]
  {
    var e := ClaimNext(0, runner, ["relay"], leaseUntil, now);
    assert row.kind == ["relay"][0];
    RunExtends(es, e);
    es' := es + [e];
  }

  /** With one job in the table, running, a sweep that takes its lease makes it ready. */
  lemma TakesOnlyJob(es: seq<Event>, e: Event, row: Row, now: int) returns (es': seq<Event>)
    requires Run(es).Some? && Run(es).value.rows == map[0 := row] && Enabled(Run(es).value, e)
    requires (e == Reclaim(now) && Expired(row, now)) || (e.Release? && e.now == now && OwnedBy(row, e.runner))
    ensures es' == es + [e] && Run(es') == Some(Step(Run(es).value, e))
    ensures Run(es').value.rows == map[0 := FreedRow(row, now)]
  {
    RunExtends(es, e);
    es' := es + [e];
  }

  /** With one job in the table, a report of its owner lands. */
  lemma SettlesOnlyJob(es: seq<Event>, e: Event, row: Row) returns (es': seq<Event>)
    requires Run(es).Some? && Run(es).value.rows == map[0 := row] && e.Report? && Enabled(Run(es).value, e)
    requires var c := Run(es).value.log[e.n]; c.job == 0 && OwnedBy(row, c.runner)
    ensures es' == es + [e] && Run(es') == Some(Step(Run(es).value, e))
    ensures var d := Decide(Run(es).value.log[e.n].row, e.answer, e.runAt);
            Run(es').value.rows == map[0 := SettledRow(row, d, e.now)]
  {
    RunExtends(es, e);
    es' := es + [e];
  }

  /** A job with two attempts, claimed once by runner 1 until time 10. */
  const ONE_JOB := NewRow("relay", "order", 0, 2, None, 0)

  lemma Queued(row: Row) returns (es: seq<Event>)
    requires row.status == Ready && WellFormed(row) && row.attempts == 0
    ensures es == [Enqueue(0, row)]
    ensures Run(es) == Some(EMPTY.(rows := map[0 := row], lost := map[0 := 0]))
  {
    RunExtends([], Enqueue(0, row));
    es := [Enqueue(0, row)];
    assert [] + es == es;
    assert Run(es).value.rows == map[0 := row] && Run(es).value.lost == map[0 := 0];
  }

  lemma FirstClaim() returns (es: seq<Event>)
    ensures es == [Enqueue(0, ONE_JOB), ClaimNext(0, 1, ["relay"], 10, 0)]
    ensures Run(es).Some?
    ensures var s := Run(es).value; var row := ClaimedRow(ONE_JOB, 1, 10, 0);
            && s.rows == map[0 := row] && s.log == [Claim(0, 1, row)] && s.running == {0} && s.open == {0}
            && s.gone == {} && s.news == EMPTY.news
  {
    es := Queued(ONE_JOB);
    es := ClaimsOnlyJob(es, ONE_JOB, 1, 10, 0);
  }
}
