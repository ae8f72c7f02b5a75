/** How often a job may be attempted (`max_attempts`), over the runs of `JobQueue`. */
module JobBudget {
  import opened Prelude
  import opened JobTable
  import opened JobQueue

  /** The attempts a row is given; the first claim is never refused. */
  function Budget(r: Row): int { if r.maxAttempts > 1 then r.maxAttempts else 1 }

  /** A live row has spent at most its budget and one attempt more for each of `lost` unreported ones. */
  predicate Fits(r: Row, lost: nat) {
    Live(r) ==>
      && 0 <= r.attempts <= Budget(r) + lost
      && (r.status == Ready ==> r.attempts < Budget(r) + lost)
  }

  predicate WithinBudget(s: State) {
    forall id :: id in s.rows ==> id in s.lost && Fits(s.rows[id], s.lost[id])
  }

  lemma ReportKeepsBudget(s: State, n: nat, answer: Answer, runAt: int, now: int, heard: bool)
    requires LeasesOk(s) && WithinBudget(s) && n < |s.log|
    ensures WithinBudget(ReportStep(s, n, answer, runAt, now, heard))
  {
    var c := s.log[n];
    var s' := ReportStep(s, n, answer, runAt, now, heard);
    forall id | id in s'.rows ensures id in s'.lost && Fits(s'.rows[id], s'.lost[id]) {
      assert id in s.rows && Fits(s.rows[id], s.lost[id]);
      if id == c.job && Owns(s.rows, c.job, c.runner) && s.holder[c.job] == n {
        // The claim's own report: it asked for another attempt only if one was left.
        assert s.rows[id].attempts == c.row.attempts && s.rows[id].maxAttempts == c.row.maxAttempts;
      }
    }
  }

  lemma SweepKeepsBudget(s: State, s': State, freed: set<Id>, now: int)
    requires WithinBudget(s) && s'.lost == BumpAll(s.lost, freed) && s'.rows.Keys == s.rows.Keys
    requires forall id :: id in s.rows ==> s'.rows[id] == if id in freed then FreedRow(s.rows[id], now) else s.rows[id]
    requires forall id :: id in freed ==> id in s.rows && s.rows[id].status == Running
    ensures WithinBudget(s')
  {
  }

  lemma OtherStepsKeepBudget(s: State, e: Event)
    requires WithinBudget(s) && Enabled(s, e) && !e.Report? && !e.Reclaim? && !e.Release?
    ensures WithinBudget(Step(s, e))
  {
    assert forall id :: id in s.rows ==> Fits(s.rows[id], s.lost[id]);
  }

  lemma StepKeepsBudget(s: State, e: Event)
    requires LeasesOk(s) && WithinBudget(s) && Enabled(s, e)
    ensures WithinBudget(Step(s, e))
  {
    match e
    case Report(n, answer, runAt, now, heard) => ReportKeepsBudget(s, n, answer, runAt, now, heard);
    case Reclaim(now) => SweepKeepsBudget(s, Step(s, e), ExpiredIds(s.rows, now), now);
    case Release(runner, now) => SweepKeepsBudget(s, Step(s, e), OwnedIds(s.rows, runner), now);
    case _ => OtherStepsKeepBudget(s, e);
  }

  lemma {:induction false} AttemptsAreBounded(es: seq<Event>)
    requires Run(es).Some?
    ensures WithinBudget(Run(es).value)
  {
    if es != [] {
      AttemptsAreBounded(es[..|es| - 1]);
      LeasesHold(es[..|es| - 1]);
      StepKeepsBudget(Run(es[..|es| - 1]).value, es[|es| - 1]);
    }
  }

  // ---------------------------------------------------------------------------------------------
  // The counter counts claims

  predicate Reschedules(s: State, e: Event, id: Id) {
    Lands(s, e, id) && Decide(s.log[e.n].row, e.answer, e.runAt).Reschedule?
  }

  /** The event sets the counter of `id`. */
  predicate Resets(s: State, e: Event, id: Id) {
    (e.Enqueue? && e.id == id) || Revives(s, e, id) || Reschedules(s, e, id)
  }

  /** The claims of `id` since its counter was last set. */
  function Spent(es: seq<Event>, id: Id): nat
    requires Run(es).Some?
  {
    if es == [] then 0
    else
      var s, e := Run(es[..|es| - 1]).value, es[|es| - 1];
      if Resets(s, e, id) then 0
      else Spent(es[..|es| - 1], id) + if e.ClaimNext? && e.id == id then 1 else 0
  }

  /** It was a revival that last set the counter of `id`. */
  predicate OnRevival(es: seq<Event>, id: Id)
    requires Run(es).Some?
  {
    es != [] &&
    var s, e := Run(es[..|es| - 1]).value, es[|es| - 1];
    if Resets(s, e, id) then e.Revive? else OnRevival(es[..|es| - 1], id)
  }

  /** A revived row starts one short of its budget. */
  predicate Counts(s: State, id: Id, spent: nat, revived: bool) {
    id in s.rows ==> s.rows[id].attempts == spent + if revived then Budget(s.rows[id]) - 1 else 0
  }

  lemma {:induction false} ReportKeepsCount(s: State, e: Event, id: Id, spent: nat, revived: bool)
    requires Enabled(s, e) && e.Report? && Counts(s, id, spent, revived)
    ensures if Resets(s, e, id) then Counts(Step(s, e), id, 0, false) else Counts(Step(s, e), id, spent, revived)
  {
  }

  lemma {:induction false} OthersKeepCount(s: State, e: Event, id: Id, spent: nat, revived: bool)
    requires Enabled(s, e) && LeasesOk(s) && !e.Report? && Counts(s, id, spent, revived)
    ensures if Resets(s, e, id) then Counts(Step(s, e), id, 0, e.Revive?)
            else Counts(Step(s, e), id, spent + (if e.ClaimNext? && e.id == id then 1 else 0), revived)
  {
  }

  lemma {:induction false} StepKeepsCount(s: State, e: Event, id: Id, spent: nat, revived: bool)
    requires Enabled(s, e) && LeasesOk(s) && Counts(s, id, spent, revived)
    ensures if Resets(s, e, id) then Counts(Step(s, e), id, 0, e.Revive?)
            else Counts(Step(s, e), id, spent + (if e.ClaimNext? && e.id == id then 1 else 0), revived)
  {
    if e.Report? {
      ReportKeepsCount(s, e, id, spent, revived);
    } else {
      OthersKeepCount(s, e, id, spent, revived);
    }
  }

  lemma {:induction false} CounterCountsClaims(es: seq<Event>, id: Id)
    requires Run(es).Some?
    ensures Counts(Run(es).value, id, Spent(es, id), OnRevival(es, id))
  {
    if es != [] {
      CounterCountsClaims(es[..|es| - 1], id);
      LeasesHold(es[..|es| - 1]);
      StepKeepsCount(Run(es[..|es| - 1]).value, es[|es| - 1], id, Spent(es[..|es| - 1], id), OnRevival(es[..|es| - 1], id));
    }
  }

  /** The event takes the lease of `id` from the attempt of its last claim, which has not reported. */
  predicate Unreported(s: State, e: Event, id: Id) {
    Takes(s, e, id) || (Lands(s, e, id) && !(id in s.holder && s.holder[id] == e.n))
  }

  /** The attempts of `id` that lost their lease unreported since its counter was last set. */
  function Losses(es: seq<Event>, id: Id): nat
    requires Run(es).Some?
  {
    if es == [] then 0
    else
      var s, e := Run(es[..|es| - 1]).value, es[|es| - 1];
      if Resets(s, e, id) then 0
      else Losses(es[..|es| - 1], id) + if Unreported(s, e, id) then 1 else 0
  }

  function LostOf(s: State, id: Id): nat { if id in s.lost then s.lost[id] else 0 }

  lemma {:induction false} StepCountsLosses(s: State, e: Event, id: Id)
    requires Enabled(s, e)
    ensures LostOf(Step(s, e), id)
         == if Resets(s, e, id) then 0 else LostOf(s, id) + if Unreported(s, e, id) then 1 else 0
  {
  }

  lemma {:induction false} LostCountsLosses(es: seq<Event>, id: Id)
    requires Run(es).Some?
    ensures LostOf(Run(es).value, id) == Losses(es, id)
  {
    if es != [] {
      LostCountsLosses(es[..|es| - 1], id);
      StepCountsLosses(Run(es[..|es| - 1]).value, es[|es| - 1], id);
    }
  }

  /**
   A live job has been claimed at most as often as its budget says, or once if it was revived, since it was
   queued, rescheduled or revived, and once more for each of those attempts that lost its lease unreported.
   */
  lemma ClaimsAreBounded(es: seq<Event>, id: Id)
    requires Run(es).Some? && id in Run(es).value.rows && Live(Run(es).value.rows[id])
    ensures Spent(es, id) <= (if OnRevival(es, id) then 1 else Budget(Run(es).value.rows[id])) + Losses(es, id)
  {
    AttemptsAreBounded(es);
    CounterCountsClaims(es, id);
    LostCountsLosses(es, id);
    assert Fits(Run(es).value.rows[id], Run(es).value.lost[id]);
  }

  // ---------------------------------------------------------------------------------------------
  // When the documented bound holds

  /** Job `id` is not waiting for an attempt its budget does not have. */
  predicate UnderBudget(s: State, id: Id) {
    id in s.rows && s.rows[id].status == Ready ==> s.rows[id].attempts < Budget(s.rows[id])
  }

  /** The event is a report that lands on `id` and asks for another attempt. */
  predicate PutsBack(s: State, e: Event, id: Id) {
    Lands(s, e, id) && Decide(s.log[e.n].row, e.answer, e.runAt).Retry?
  }

  /** The event makes a running job ready again although its budget is spent. */
  predicate Overspends(s: State, e: Event, id: Id) {
    && id in s.rows && s.rows[id].status == Running && s.rows[id].attempts >= Budget(s.rows[id])
    && (Takes(s, e, id) || PutsBack(s, e, id))
  }

  lemma {:induction false} ReportKeepsUnder(s: State, e: Event, id: Id)
    requires Enabled(s, e) && e.Report? && UnderBudget(s, id)
    ensures UnderBudget(Step(s, e), id) <==> !Overspends(s, e, id)
  {
  }

  /**
   A step keeps a job under its budget if and only if it does not make the job ready after its budget is spent. A
   reclaim or a release does that without looking at the counter.
   */
  lemma {:induction false} BudgetKeptUnlessOverspent(s: State, e: Event, id: Id)
    requires Enabled(s, e) && UnderBudget(s, id)
    ensures UnderBudget(Step(s, e), id) <==> !Overspends(s, e, id)
  {
    if e.Report? { ReportKeepsUnder(s, e, id); }
  }

  /** In a report on its own lease the counter is looked at, so only a stale report can overspend. */
  lemma OwnReportsNeverOverspend(s: State, e: Event, id: Id)
    requires LeasesOk(s) && Overspends(s, e, id) && e.Report?
    ensures id in s.holder && e.n < s.holder[id]
  {
  }

  /** Along the run no step overspends the budget of `id`. */
  predicate NeverOverspends(es: seq<Event>, id: Id)
    requires Run(es).Some?
  {
    es == [] || (NeverOverspends(es[..|es| - 1], id) && !Overspends(Run(es[..|es| - 1]).value, es[|es| - 1], id))
  }

  predicate AlwaysUnderBudget(es: seq<Event>, id: Id)
    requires Run(es).Some?
  {
    UnderBudget(Run(es).value, id) && (es == [] || AlwaysUnderBudget(es[..|es| - 1], id))
  }

  /** Over a whole run the documented bound holds of a job throughout if and only if no step overspends its budget. */
  lemma {:induction false} BudgetHoldsIffNeverOverspent(es: seq<Event>, id: Id)
    requires Run(es).Some?
    ensures AlwaysUnderBudget(es, id) <==> NeverOverspends(es, id)
  {
    if es != [] {
      BudgetHoldsIffNeverOverspent(es[..|es| - 1], id);
      if UnderBudget(Run(es[..|es| - 1]).value, id) {
        BudgetKeptUnlessOverspent(Run(es[..|es| - 1]).value, es[|es| - 1], id);
      }
    }
  }

  /** When round `n` of the crash loop begins: every round takes as long as a lease. */
  function Clock(n: nat, lease: nat): nat { if n == 0 then 0 else Clock(n - 1, lease) + lease }

  /** A new job after `n` rounds of the crash loop. */
  function LoopedRow(row: Row, n: nat, lease: nat): Row { row.(attempts := n, updatedAt := Clock(n, lease)) }

  /** A job as `Job::enqueue` writes it at time zero, due at once. */
  predicate NewJob(row: Row) { row == NewRow(row.kind, row.key, 0, row.maxAttempts, row.deadline, 0) }

  /** One job, nothing executing, and only runners numbered below `runner` gone. */
  predicate AtRest(s: State, row: Row, runner: Runner) {
    s.rows == map[0 := row] && s.running == {} && s.open == {} && forall r :: r in s.gone ==> r < runner
  }

  lemma {:induction false} NextRow(row: Row, n: nat, lease: nat)
    requires NewJob(row)
    ensures var looped, now := LoopedRow(row, n, lease), Clock(n, lease);
            && looped.status == Ready && looped.runAt <= now
            && LoopedRow(row, n + 1, lease) == FreedRow(ClaimedRow(looped, n, now + lease, now), now + lease)
  {
  }

  /** A new runner claims the job at `now`, dies, and its lease is reclaimed when it ends. */
  function Round(runner: Runner, kind: string, lease: nat, now: int): seq<Event> {
    [ClaimNext(0, runner, [kind], now + lease, now), Crash(runner), Reclaim(now + lease)]
  }

  /** What three events in turn lead to. */
  predicate Leads(s: State, es: seq<Event>, s': State)
    requires |es| == 3
  {
    && Enabled(s, es[0])
    && var s1 := Step(s, es[0]);
    && Enabled(s1, es[1])
    && var s2 := Step(s1, es[1]);
    && Enabled(s2, es[2])
    && s' == Step(s2, es[2])
  }

  lemma {:induction false} RoundLeads(s: State, row: Row, runner: Runner, lease: nat, now: int) returns (s': State)
    requires lease > 0 && AtRest(s, row, runner) && row.status == Ready && row.runAt <= now
    ensures Leads(s, Round(runner, row.kind, lease, now), s')
    ensures AtRest(s', FreedRow(ClaimedRow(row, runner, now + lease, now), now + lease), runner + 1)
  {
    var es := Round(runner, row.kind, lease, now);
    OnlyJobIsOldest(s, row, now);
    var claimed := Step(s, es[0]);
    DiesAlone(claimed, runner);
    var dead := Step(claimed, es[1]);
    ReclaimedAtRest(dead, ClaimedRow(row, runner, now + lease, now), runner + 1, now + lease);
    s' := Step(dead, es[2]);
  }

  lemma {:induction false} OnlyJobIsOldest(s: State, row: Row, now: int)
    requires s.rows == map[0 := row] && row.status == Ready && row.runAt <= now
    ensures Oldest(s.rows, 0, [row.kind], now)
  {
  }

  lemma {:induction false} ReclaimedAtRest(s: State, row: Row, runner: Runner, now: int)
    requires AtRest(s, row, runner) && Expired(row, now)
    ensures AtRest(Step(s, Reclaim(now)), FreedRow(row, now), runner)
  {
    assert Reclaimed(s.rows, now) == map[0 := FreedRow(row, now)];
  }

  lemma {:induction false} DiesAlone(s: State, runner: Runner)
    requires var n := |s.log| - 1; n >= 0 && s.log[n].runner == runner && s.running == {n} && s.open == {n}
    ensures var s' := CrashStep(s, runner); s'.running == {} && s'.open == {} && s'.rows == s.rows && s'.gone == s.gone + {runner}
  {
  }

  /** `n` rounds, one after the other, from a state to a state. */
  predicate Loops(row: Row, lease: nat, n: nat, es: seq<Event>) {
    if n == 0 then es == [Enqueue(0, row)]
    else
      && |es| > 3
      && Loops(row, lease, n - 1, es[..|es| - 3])
      && es[|es| - 3..] == Round(n - 1, row.kind, lease, Clock(n - 1, lease))
  }

  /**
   The counter alone does not stop a job that kills its process: no claim looks at it. For any job, any budget,
   any lease and any number of attempts there is a run, each round of it by a new runner that claims the job and
   dies and whose lease then expires, after which the job has been attempted that often and is ready once more.
   */
  lemma {:induction false} CrashLoopIsUnbounded(row: Row, lease: nat, n: nat) returns (es: seq<Event>, s: State)
    requires NewJob(row) && lease > 0
    ensures Loops(row, lease, n, es) && Arrives(es, s) && AtRest(s, LoopedRow(row, n, lease), n)
  {
    if n == 0 {
      es := Queued(row);
      s := Run(es).value;
    } else {
      es, s := CrashLoopIsUnbounded(row, lease, n - 1);
      es, s := OneMoreRound(es, s, row, lease, n - 1);
    }
  }

  lemma {:induction false} OneMoreRound(es: seq<Event>, s: State, row: Row, lease: nat, n: nat) returns (es': seq<Event>, s': State)
    requires NewJob(row) && lease > 0
    requires Loops(row, lease, n, es) && Arrives(es, s) && AtRest(s, LoopedRow(row, n, lease), n)
    ensures Loops(row, lease, n + 1, es') && Arrives(es', s') && AtRest(s', LoopedRow(row, n + 1, lease), n + 1)
  {
    NextRow(row, n, lease);
    s' := RoundArrives(es, s, LoopedRow(row, n, lease), n, lease, Clock(n, lease));
    es' := es + Round(n, row.kind, lease, Clock(n, lease));
    LoopsOn(row, lease, n, es);
  }

  lemma {:induction false} LoopsOn(row: Row, lease: nat, n: nat, es: seq<Event>)
    requires Loops(row, lease, n, es)
    ensures Loops(row, lease, n + 1, es + Round(n, row.kind, lease, Clock(n, lease)))
  {
    var es' := es + Round(n, row.kind, lease, Clock(n, lease));
    assert es'[..|es'| - 3] == es && es'[|es'| - 3..] == Round(n, row.kind, lease, Clock(n, lease));
    assert es != [];
  }

  lemma {:induction false} RoundArrives(es: seq<Event>, s: State, row: Row, runner: Runner, lease: nat, now: int) returns (s': State)
    requires Arrives(es, s) && lease > 0 && AtRest(s, row, runner) && row.status == Ready && row.runAt <= now
    ensures Arrives(es + Round(runner, row.kind, lease, now), s')
    ensures AtRest(s', FreedRow(ClaimedRow(row, runner, now + lease, now), now + lease), runner + 1)
  {
    s' := RoundLeads(s, row, runner, lease, now);
    LeadsOn(es, s, Round(runner, row.kind, lease, now), s');
  }

  lemma {:induction false} LeadsOn(es: seq<Event>, s: State, more: seq<Event>, s': State)
    requires Arrives(es, s) && |more| == 3 && Leads(s, more, s')
    ensures Arrives(es + more, s')
  {
    RunExtends(es, more[0]);
    RunExtends(es + [more[0]], more[1]);
    RunExtends(es + [more[0]] + [more[1]], more[2]);
    assert es + more == es + [more[0]] + [more[1]] + [more[2]];
  }
}
