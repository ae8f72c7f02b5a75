/**
 When things happen to a job, over the runs of `JobQueue`: when it may next run, when its lease ends, when it was
 last written, and what an attempt's outcome makes of it. Each is told from the events alone.
 */
module JobSchedule {
  import opened Prelude
  import opened JobTable
  import opened JobQueue

  predicate Cancels(s: State, e: Event, id: Id) { e.Cancel? && e.id == id && id in s.rows && s.rows[id].status == e.from }

  // ---------------------------------------------------------------------------------------------
  // What an outcome makes of a job

  /** The answer asks for another attempt. */
  predicate Asks(answer: Answer) { answer == TryAgain || answer == TimedOut }

  /** There is an attempt left, and it would not begin past the deadline. */
  predicate HasRoom(claim: Row, runAt: int) {
    claim.attempts < claim.maxAttempts && (claim.deadline.Some? ==> runAt <= claim.deadline.value)
  }

  /**
   What a report that lands makes of its job: done, exactly on success; ready, exactly when another occurrence is
   due or another attempt is asked for with room for it; failed, exactly when the answer is final or there is no
   room. Only a new occurrence starts the counter again.
   */
  lemma {:induction false} OutcomeDecides(s: State, e: Event, id: Id)
    requires Enabled(s, e) && Lands(s, e, id)
    ensures id in Step(s, e).rows
    ensures var row, claim := Step(s, e).rows[id], s.log[e.n].row;
            && (row.status == Done <==> e.answer == Finished)
            && (row.status == Ready <==> e.answer == Again || (Asks(e.answer) && HasRoom(claim, e.runAt)))
            && (row.status == Failed <==>
                  e.answer == Refused || e.answer == TooLate || (Asks(e.answer) && !HasRoom(claim, e.runAt)))
            && row.attempts == (if e.answer == Again then 0 else s.rows[id].attempts)
            && (row.status == Ready ==> row.runAt == e.runAt)
            && row.leaseOwner.None? && row.leaseUntil.None?
            && (e.answer == TooLate ==> claim.deadline.Some? && claim.deadline.value < e.now)
  {
  }

  /** A job's status changes in these ways and no other, and each leads where it says. */
  lemma {:induction false} LifeCycle(s: State, e: Event, id: Id)
    requires Enabled(s, e) && id in s.rows && id in Step(s, e).rows
    ensures var before, after := s.rows[id].status, Step(s, e).rows[id].status;
            && (e.ClaimNext? && e.id == id ==> before == Ready && after == Running && !Expired(Step(s, e).rows[id], e.now))
            && (Takes(s, e, id) ==> before == Running && after == Ready)
            && (Cancels(s, e, id) ==> after == Cancelled)
            && (Revives(s, e, id) ==> before == Failed && after == Ready)
            && (before == after || (e.ClaimNext? && e.id == id) || Lands(s, e, id) || Takes(s, e, id)
                || Cancels(s, e, id) || Revives(s, e, id))
  {
  }

  // ---------------------------------------------------------------------------------------------
  // Clocks

  /** When the job may next run, when its lease ends if it has one, and when its row was last written. */
  datatype Clocks = Clocks(due: int, leaseEnd: Option<int>, touched: int)

  /** What one event does to the clocks of job `id`. */
  function Tick(s: State, e: Event, id: Id, c: Clocks): Clocks
    requires Enabled(s, e)
  {
    match e
    case Enqueue(i, row) => if i == id then Clocks(row.runAt, None, row.updatedAt) else c
    case ClaimNext(i, _, _, leaseUntil, now) => if i == id then c.(leaseEnd := Some(leaseUntil), touched := now) else c
    case Extend(n, leaseUntil, now) =>
      if s.log[n].job == id && Owns(s.rows, id, s.log[n].runner) then c.(leaseEnd := Some(leaseUntil), touched := now) else c
    case Report(n, answer, runAt, now, _) =>
      if !Lands(s, e, id) then c
      else Clocks(if answer == Again || (Asks(answer) && HasRoom(s.log[n].row, runAt)) then runAt else c.due, None, now)
    case Reclaim(now) => if Takes(s, e, id) then c.(leaseEnd := None, touched := now) else c
    case Release(_, now) => if Takes(s, e, id) then c.(leaseEnd := None, touched := now) else c
    case Cancel(_, _, now) => if Cancels(s, e, id) then c.(leaseEnd := None, touched := now) else c
    case Advance(i, now) => if i == id && id in s.rows && s.rows[id].status == Ready then c.(due := now, touched := now) else c
    case Revive(_, now) => if Revives(s, e, id) then Clocks(now, None, now) else c
    case _ => c
  }

  function ClocksAfter(es: seq<Event>, id: Id): Clocks
    requires Run(es).Some?
  {
    if es == [] then Clocks(0, None, 0)
    else Tick(Run(es[..|es| - 1]).value, es[|es| - 1], id, ClocksAfter(es[..|es| - 1], id))
  }

  predicate Shows(s: State, id: Id, c: Clocks) {
    id in s.rows ==> s.rows[id].runAt == c.due && s.rows[id].leaseUntil == c.leaseEnd && s.rows[id].updatedAt == c.touched
  }

  lemma {:induction false} ReportTicks(s: State, e: Event, id: Id, c: Clocks)
    requires Enabled(s, e) && e.Report? && Shows(s, id, c)
    ensures Shows(Step(s, e), id, Tick(s, e, id, c))
  {
  }

  lemma {:induction false} SweepTicks(s: State, e: Event, id: Id, c: Clocks)
    requires Enabled(s, e) && (e.Reclaim? || e.Release? || e.Cancel? || e.Cleanup?) && Shows(s, id, c)
    ensures Shows(Step(s, e), id, Tick(s, e, id, c))
  {
  }

  lemma {:induction false} OthersTick(s: State, e: Event, id: Id, c: Clocks)
    requires Enabled(s, e) && !e.Report? && LeasesOk(s) && Sound(s.rows) && Shows(s, id, c)
    requires !e.Reclaim? && !e.Release? && !e.Cancel? && !e.Cleanup?
    ensures Shows(Step(s, e), id, Tick(s, e, id, c))
  {
    assert id in s.rows ==> WellFormed(s.rows[id]);
  }

  /** In every reachable state a row's three times are those the events give it. */
  lemma {:induction false} ClocksHold(es: seq<Event>, id: Id)
    requires Run(es).Some?
    ensures Shows(Run(es).value, id, ClocksAfter(es, id))
  {
    if es != [] {
      var s, e, c := Run(es[..|es| - 1]).value, es[|es| - 1], ClocksAfter(es[..|es| - 1], id);
      ClocksHold(es[..|es| - 1], id);
      LeasesHold(es[..|es| - 1]);
      IdentityIsUnique(es[..|es| - 1]);
      if e.Report? {
        ReportTicks(s, e, id, c);
      } else if e.Reclaim? || e.Release? || e.Cancel? || e.Cleanup? {
        SweepTicks(s, e, id, c);
      } else {
        OthersTick(s, e, id, c);
      }
    }
  }

  /** No job is claimed before it is due, nor by a runner that has no handler for it. */
  lemma {:induction false} NeverClaimedEarly(es: seq<Event>, e: Event)
    requires Run(es).Some? && Enabled(Run(es).value, e) && e.ClaimNext?
    ensures ClocksAfter(es, e.id).due <= e.now
    ensures e.id in Run(es).value.rows && Run(es).value.rows[e.id].kind in e.kinds
  {
    ClocksHold(es, e.id);
  }

  /** Of the jobs that are due and that the runner can handle, the one due first is claimed, the oldest of them if several are. */
  lemma {:induction false} ClaimsTheFirstDue(s: State, e: Event, id: Id)
    requires Enabled(s, e) && e.ClaimNext? && id in s.rows
    requires s.rows[id].status == Ready && s.rows[id].runAt <= e.now && s.rows[id].kind in e.kinds
    ensures e.id in s.rows && s.rows[e.id].runAt <= s.rows[id].runAt
    ensures s.rows[e.id].runAt == s.rows[id].runAt ==> s.rows[e.id].createdAt <= s.rows[id].createdAt
  {
    assert Eligible(s.rows[id], e.kinds, e.now);
  }

  predicate Leaves(e: Event, runner: Runner) { e == Crash(runner) || (e.Release? && e.runner == runner) }

  lemma {:induction false} StepKeepsGone(s: State, e: Event, runner: Runner)
    requires Enabled(s, e) && (runner in s.gone || Leaves(e, runner))
    ensures runner in Step(s, e).gone
  {
  }

  lemma {:induction false} GoneStays(es: seq<Event>, i: nat, runner: Runner)
    requires Run(es).Some? && i < |es| && Leaves(es[i], runner)
    ensures runner in Run(es).value.gone
  {
    if i < |es| - 1 { GoneStays(es[..|es| - 1], i, runner); }
    StepKeepsGone(Run(es[..|es| - 1]).value, es[|es| - 1], runner);
  }

  /** A runner that crashed or stopped claims nothing ever after. */
  lemma {:induction false} GoneForGood(es: seq<Event>, i: nat, j: nat, runner: Runner)
    requires Run(es).Some? && i < j < |es| && Leaves(es[i], runner)
    ensures !(es[j].ClaimNext? && es[j].runner == runner)
  {
    if j < |es| - 1 {
      GoneForGood(es[..|es| - 1], i, j, runner);
    } else {
      GoneStays(es[..|es| - 1], i, runner);
    }
  }

  /** A reclaim takes a running job's lease if and only if the lease its claim or last extension gave has ended. */
  lemma {:induction false} ReclaimedIffEnded(es: seq<Event>, now: int, id: Id)
    requires Run(es).Some? && id in Run(es).value.rows && Run(es).value.rows[id].status == Running
    ensures ClocksAfter(es, id).leaseEnd.Some?
    ensures Takes(Run(es).value, Reclaim(now), id) <==> ClocksAfter(es, id).leaseEnd.value <= now
  {
    ClocksHold(es, id);
    IdentityIsUnique(es);
    assert WellFormed(Run(es).value.rows[id]);
  }

  /** A row goes away if and only if it is cleaned up: neither ready nor running, and last written before the cutoff. */
  lemma {:induction false} CleanedIffOld(es: seq<Event>, e: Event, id: Id)
    requires Run(es).Some? && Enabled(Run(es).value, e) && id in Run(es).value.rows
    ensures var s := Run(es).value;
            id !in Step(s, e).rows <==>
              && e.Cleanup? && s.rows[id].status != Ready && s.rows[id].status != Running
              && ClocksAfter(es, id).touched < e.cutoff
  {
    ClocksHold(es, id);
    RowsStay(Run(es).value, e, id);
  }

  lemma {:induction false} RowsStay(s: State, e: Event, id: Id)
    requires Enabled(s, e) && id in s.rows
    ensures id !in Step(s, e).rows <==> e.Cleanup? && Stale(s.rows[id], e.cutoff)
  {
  }

  // ---------------------------------------------------------------------------------------------
  // A job that is put back waits

  /** The job waits until `t`, or is not there to be claimed at all. */
  predicate Waits(s: State, id: Id, t: int) {
    && id in s.lost
    && (id in s.rows ==> (s.rows[id].status == Ready && s.rows[id].runAt == t) || s.rows[id].status == Cancelled)
  }

  lemma {:induction false} StepKeepsWaiting(s: State, e: Event, id: Id, t: int)
    requires Enabled(s, e) && LeasesOk(s) && Waits(s, id, t)
    requires !(e.ClaimNext? && e.id == id) && !(e.Advance? && e.id == id)
    ensures Waits(Step(s, e), id, t)
  {
  }

  lemma {:induction false} RunKeepsWaiting(es: seq<Event>, more: seq<Event>, id: Id, t: int)
    requires Run(es).Some? && Waits(Run(es).value, id, t) && Run(es + more).Some?
    requires forall e :: e in more ==> !(e.ClaimNext? && e.id == id) && !(e.Advance? && e.id == id)
    ensures Waits(Run(es + more).value, id, t)
  {
    if more == [] {
      assert es + more == es;
    } else {
      var last := |more| - 1;
      assert (es + more)[..|es + more| - 1] == es + more[..last] && (es + more)[|es + more| - 1] == more[last];
      assert more[last] in more && forall e :: e in more[..last] ==> e in more;
      RunKeepsWaiting(es, more[..last], id, t);
      LeasesHold(es + more[..last]);
      StepKeepsWaiting(Run(es + more[..last]).value, more[last], id, t);
    }
  }

  /** A job put back to run at `t` is not claimed again before `t`, unless an operator advances it. */
  lemma {:induction false} PutBackWaits(es: seq<Event>, report: Event, more: seq<Event>, claim: Event, id: Id)
    requires Run(es).Some? && Enabled(Run(es).value, report) && Lands(Run(es).value, report, id)
    requires report.answer == Again || (Asks(report.answer) && HasRoom(Run(es).value.log[report.n].row, report.runAt))
    requires Run(es + [report] + more).Some? && Enabled(Run(es + [report] + more).value, claim)
    requires forall e :: e in more ==> !(e.ClaimNext? && e.id == id) && !(e.Advance? && e.id == id)
    requires claim.ClaimNext? && claim.id == id
    ensures report.runAt <= claim.now
  {
    RunExtends(es, report);
    OutcomeDecides(Run(es).value, report, id);
    LeasesHold(es + [report]);
    RunKeepsWaiting(es + [report], more, id, report.runAt);
  }

  // ---------------------------------------------------------------------------------------------
  // Work that outlives its attempt

  predicate Outlives(s: State, n: nat) { n in s.running && n !in s.open }

  /** The attempt is given up, or reported as timed out, while its code still executes. */
  predicate LeavesRunning(e: Event, n: nat) {
    e == Forgo(n, true) || (e.Report? && e.n == n && e.answer == TimedOut)
  }

  /** The code is stopped, or its process dies. */
  predicate Ceases(s: State, e: Event, n: nat) {
    e == Stop(n) || (e.Crash? && n < |s.log| && s.log[n].runner == e.runner)
  }

  /** Code outlives its attempt from the step that left it running to the one that stops it. */
  lemma {:induction false} OutlivesIff(s: State, e: Event, n: nat)
    requires Enabled(s, e) && n in s.running && n < |s.log|
    ensures Outlives(Step(s, e), n) <==> (Outlives(s, n) || LeavesRunning(e, n)) && !Ceases(s, e, n)
  {
  }

  lemma {:induction false} OutlivesOnlyIfLeft(s: State, e: Event, n: nat)
    requires Enabled(s, e) && Outlives(Step(s, e), n)
    ensures Outlives(s, n) || LeavesRunning(e, n)
  {
  }

  /** A handler's code runs on after its attempt only when the attempt was given up, or timed out, in mid-work. */
  lemma {:induction false} LeftInMidWork(es: seq<Event>, n: nat) returns (i: nat)
    requires Run(es).Some? && Outlives(Run(es).value, n)
    ensures i < |es| && LeavesRunning(es[i], n)
  {
    var s, e := Run(es[..|es| - 1]).value, es[|es| - 1];
    OutlivesOnlyIfLeft(s, e, n);
    if LeavesRunning(e, n) {
      i := |es| - 1;
    } else {
      i := LeftInMidWork(es[..|es| - 1], n);
    }
  }
}
