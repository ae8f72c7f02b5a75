/**
 Whether a job is executed twice at once, and whose report a row takes, over the runs of `JobQueue`. A lease is
 what keeps a second attempt away; these theorems say exactly when an attempt is left executing without one.
 */
module JobExclusion {
  import opened Prelude
  import opened JobTable
  import opened JobQueue

  // ---------------------------------------------------------------------------------------------
  // Whose report lands

  /**
   A report of attempt `n` lands if and only if the job is running under a claim of the same runner. It lands on a
   lease that is not the attempt's own if and only if that claim is a later one.
   */
  lemma ReportLandsIff(es: seq<Event>, n: nat)
    requires Run(es).Some? && n < |Run(es).value.log|
    ensures var s := Run(es).value; var c := s.log[n];
            && c.job in s.holder && s.holder[c.job] < |s.log|
            && (Owns(s.rows, c.job, c.runner) <==>
                  c.job in s.rows && s.rows[c.job].status == Running && s.log[s.holder[c.job]].runner == c.runner)
            && (Owns(s.rows, c.job, c.runner) && !CoveredAt(s, n) <==>
                  && c.job in s.rows && s.rows[c.job].status == Running
                  && n < s.holder[c.job] && s.log[s.holder[c.job]].runner == c.runner)
  {
    LeasesHold(es);
  }

  // ---------------------------------------------------------------------------------------------
  // When an executing attempt loses its lease

  /** The event settles attempt `n` because its time ran out, while its code has yet to be stopped. */
  predicate RunsOn(e: Event, n: nat) { e.Report? && e.n == n && e.answer == TimedOut }

  /** The event reports another attempt of the same runner on the same job. */
  predicate Usurps(s: State, e: Event, n: nat) {
    && e.Report? && e.n != n && e.n < |s.log| && n < |s.log|
    && s.log[e.n].job == s.log[n].job && s.log[e.n].runner == s.log[n].runner
  }

  /** The event ends the lease that attempt `n` has, if it has one. */
  predicate EndsLease(s: State, e: Event, n: nat) {
    n < |s.log| && (Takes(s, e, s.log[n].job) || RunsOn(e, n) || Usurps(s, e, n))
  }

  lemma {:induction false} SweepEndsLease(s: State, e: Event, n: nat)
    requires LeasesOk(s) && Enabled(s, e) && CoveredAt(s, n) && !e.Report?
    ensures CoveredAt(Step(s, e), n) <==> !EndsLease(s, e, n)
  {
  }

  lemma {:induction false} ReportEndsLease(s: State, e: Event, n: nat)
    requires LeasesOk(s) && Enabled(s, e) && CoveredAt(s, n) && e.Report? && n in Step(s, e).running
    ensures CoveredAt(Step(s, e), n) <==> !EndsLease(s, e, n)
  {
    assert Owns(s.rows, s.log[n].job, s.log[n].runner);
  }

  /**
   An attempt that goes on executing through a step keeps its lease through it if and only if the step is none of
   four: a reclaim or a release that takes the lease, the attempt's own report that its time ran out, and the
   report of another attempt of the same runner on the same job.
   */
  lemma LeaseKeptUnlessEnded(s: State, e: Event, n: nat)
    requires LeasesOk(s) && Enabled(s, e) && n in s.running && CoveredAt(s, n) && n in Step(s, e).running
    ensures CoveredAt(Step(s, e), n) <==> !EndsLease(s, e, n)
  {
    if e.Report? {
      ReportEndsLease(s, e, n);
    } else {
      SweepEndsLease(s, e, n);
    }
  }

  /** A lease that is gone does not come back: a new claim is a new attempt. */
  lemma {:induction false} LossIsFinal(s: State, e: Event, n: nat)
    requires LeasesOk(s) && Enabled(s, e) && n < |s.log| && !CoveredAt(s, n)
    ensures !CoveredAt(Step(s, e), n)
  {
  }

  /** Only a claim adds an attempt, and it holds the lease. */
  lemma {:induction false} NewAttemptIsCovered(s: State, e: Event, n: nat)
    requires LeasesOk(s) && Enabled(s, e) && n in Step(s, e).running && n !in s.running
    ensures e.ClaimNext? && n == |s.log| && CoveredAt(Step(s, e), n)
  {
  }

  /** Somewhere along the run a step ended the lease of attempt `n` while it was executing. */
  predicate LostAlong(es: seq<Event>, n: nat)
    requires Run(es).Some?
  {
    es != [] &&
    var s, e := Run(es[..|es| - 1]).value, es[|es| - 1];
    LostAlong(es[..|es| - 1], n) || (n in s.running && EndsLease(s, e, n))
  }

  lemma {:induction false} NotLostBeforeItsClaim(es: seq<Event>, n: nat)
    requires Run(es).Some? && n >= |Run(es).value.log|
    ensures !LostAlong(es, n)
  {
    if es != [] {
      var s := Run(es[..|es| - 1]).value;
      LogGrows(s, es[|es| - 1]);
      LeasesHold(es[..|es| - 1]);
      NotLostBeforeItsClaim(es[..|es| - 1], n);
    }
  }

  lemma {:induction false} LogGrows(s: State, e: Event)
    requires Enabled(s, e)
    ensures |s.log| <= |Step(s, e).log|
  {
  }

  /** Over every run, an executing attempt holds its lease if and only if no step along it ended that lease in one of the four ways. */
  lemma {:induction false} CoveredIffNeverLost(es: seq<Event>, n: nat)
    requires Run(es).Some? && n in Run(es).value.running
    ensures CoveredAt(Run(es).value, n) <==> !LostAlong(es, n)
  {
    LeasesHold(es[..|es| - 1]);
    var s, e := Run(es[..|es| - 1]).value, es[|es| - 1];
    if n !in s.running {
      NewAttemptIsCovered(s, e, n);
      NotLostBeforeItsClaim(es[..|es| - 1], n);
    } else {
      CoveredIffNeverLost(es[..|es| - 1], n);
      if CoveredAt(s, n) {
        LeaseKeptUnlessEnded(s, e, n);
      } else {
        LossIsFinal(s, e, n);
      }
    }
  }

  // ---------------------------------------------------------------------------------------------
  // When a job is executed twice at once

  /** At most one attempt of job `id` is executing. */
  ghost predicate OneAttempt(s: State, id: Id) {
    forall m, n :: Executes(s, m, id) && Executes(s, n, id) ==> m == n
  }

  predicate Executes(s: State, n: nat, id: Id) { n in s.running && n < |s.log| && s.log[n].job == id }

  /** The event claims job `id` while an attempt of it is executing. */
  ghost predicate Overlaps(s: State, e: Event, id: Id) {
    e.ClaimNext? && e.id == id && exists n :: Executes(s, n, id)
  }

  lemma {:induction false} ExecutesAfter(s: State, e: Event, n: nat, id: Id)
    requires LeasesOk(s) && Enabled(s, e) && Executes(Step(s, e), n, id)
    ensures Executes(s, n, id) || (e.ClaimNext? && e.id == id && n == |s.log|)
  {
  }

  lemma {:induction false} ClaimAddsAttempt(s: State, e: Event, m: nat, id: Id)
    requires LeasesOk(s) && Enabled(s, e) && e.ClaimNext? && e.id == id && Executes(s, m, id)
    ensures Executes(Step(s, e), m, id) && Executes(Step(s, e), |s.log|, id) && m != |s.log|
  {
  }

  /** A job goes from one executing attempt to two in one way only: it is claimed while an attempt of it executes. */
  lemma {:induction false} OneAttemptUnlessOverlapped(s: State, e: Event, id: Id)
    requires LeasesOk(s) && Enabled(s, e) && OneAttempt(s, id)
    ensures OneAttempt(Step(s, e), id) <==> !Overlaps(s, e, id)
  {
    if Overlaps(s, e, id) {
      var m :| Executes(s, m, id);
      ClaimAddsAttempt(s, e, m, id);
    } else {
      forall m, n | Executes(Step(s, e), m, id) && Executes(Step(s, e), n, id) ensures m == n {
        ExecutesAfter(s, e, m, id);
        ExecutesAfter(s, e, n, id);
      }
    }
  }

  /** An attempt still executing when its job is claimed again has lost its lease, in one of the four ways. */
  lemma {:induction false} OverlapFollowsLoss(es: seq<Event>, e: Event, n: nat)
    requires Run(es).Some? && Enabled(Run(es).value, e) && e.ClaimNext? && Executes(Run(es).value, n, e.id)
    ensures LostAlong(es, n)
  {
    CoveredIffNeverLost(es, n);
  }

  /** Along the run job `id` is never claimed while an attempt of it executes. */
  ghost predicate NeverOverlaps(es: seq<Event>, id: Id)
    requires Run(es).Some?
  {
    es == [] || (NeverOverlaps(es[..|es| - 1], id) && !Overlaps(Run(es[..|es| - 1]).value, es[|es| - 1], id))
  }

  ghost predicate AlwaysOneAttempt(es: seq<Event>, id: Id)
    requires Run(es).Some?
  {
    OneAttempt(Run(es).value, id) && (es == [] || AlwaysOneAttempt(es[..|es| - 1], id))
  }

  /** Over a whole run a job is executed once at a time throughout if and only if it is never claimed while it executes. */
  lemma {:induction false} OneAttemptIffNeverOverlapped(es: seq<Event>, id: Id)
    requires Run(es).Some?
    ensures AlwaysOneAttempt(es, id) <==> NeverOverlaps(es, id)
  {
    if es != [] {
      OneAttemptIffNeverOverlapped(es[..|es| - 1], id);
      LeasesHold(es[..|es| - 1]);
      if OneAttempt(Run(es[..|es| - 1]).value, id) {
        OneAttemptUnlessOverlapped(Run(es[..|es| - 1]).value, es[|es| - 1], id);
      }
    }
  }

  /** Along the run no step ends the lease of an executing attempt of `id`. */
  ghost predicate LeasesOutlive(es: seq<Event>, id: Id)
    requires Run(es).Some?
  {
    es == [] || (LeasesOutlive(es[..|es| - 1], id) && !LosesSome(Run(es[..|es| - 1]).value, es[|es| - 1], id))
  }

  predicate LosesExecuting(s: State, e: Event, n: nat, id: Id) { Executes(s, n, id) && EndsLease(s, e, n) }

  ghost predicate LosesSome(s: State, e: Event, id: Id) { exists n :: LosesExecuting(s, e, n, id) }

  /** A job whose leases all outlive their attempts is executed once at a time, whatever happens to other jobs. */
  lemma {:induction false} OneAttemptAtATime(es: seq<Event>, id: Id)
    requires Run(es).Some? && LeasesOutlive(es, id)
    ensures AlwaysOneAttempt(es, id)
    ensures forall n :: Executes(Run(es).value, n, id) ==> CoveredAt(Run(es).value, n)
  {
    if es != [] {
      OneAttemptAtATime(es[..|es| - 1], id);
      LeasesHold(es[..|es| - 1]);
      var s, e := Run(es[..|es| - 1]).value, es[|es| - 1];
      forall n | Executes(Step(s, e), n, id) ensures CoveredAt(Step(s, e), n) { KeepsCover(s, e, n, id); }
    }
    assert forall n :: Executes(Run(es).value, n, id) ==> CoveredAt(Run(es).value, n);
  }

  lemma {:induction false} KeepsCover(s: State, e: Event, n: nat, id: Id)
    requires LeasesOk(s) && Enabled(s, e) && Executes(Step(s, e), n, id) && !LosesExecuting(s, e, n, id)
    requires Executes(s, n, id) ==> CoveredAt(s, n)
    ensures CoveredAt(Step(s, e), n)
  {
    ExecutesAfter(s, e, n, id);
    if n in s.running {
      LeaseKeptUnlessEnded(s, e, n);
    } else {
      NewAttemptIsCovered(s, e, n);
    }
  }

  // ---------------------------------------------------------------------------------------------
  // Runs that overlap

  /** A graceful stop that runs out of drain budget hands a job on while its attempt is still executing. */
  lemma ReleaseCanOverlap() returns (es: seq<Event>)
    ensures Run(es).Some? && !OneAttempt(Run(es).value, 0)
  {
    es := FirstClaim();
    var row := ClaimedRow(ONE_JOB, 1, 10, 0);
    es := TakesOnlyJob(es, Release(1, 0), row, 0);
    es := ClaimsOnlyJob(es, FreedRow(row, 0), 2, 10, 0);
    TwoExecute(Run(es).value, 0, 1);
  }

  /** An attempt whose time ran out is put back at once; it is still executing when another runner claims the job. */
  lemma TimeoutCanOverlap() returns (es: seq<Event>)
    ensures es == [Enqueue(0, ONE_JOB), ClaimNext(0, 1, ["relay"], 10, 0), Report(0, TimedOut, 5, 4, true),
                   ClaimNext(0, 2, ["relay"], 20, 5)]
    ensures Run(es).Some? && !OneAttempt(Run(es).value, 0)
  {
    es := TimedOutOnce();
    es := ClaimsOnlyJob(es, SettledRow(ClaimedRow(ONE_JOB, 1, 10, 0), Retry(5), 4), 2, 20, 5);
    TwoExecute(Run(es).value, 0, 1);
  }

  lemma TimedOutOnce() returns (es: seq<Event>)
    ensures es == [Enqueue(0, ONE_JOB), ClaimNext(0, 1, ["relay"], 10, 0), Report(0, TimedOut, 5, 4, true)]
    ensures Run(es).Some?
    ensures var s := Run(es).value; var row := ClaimedRow(ONE_JOB, 1, 10, 0);
            s.rows == map[0 := SettledRow(row, Retry(5), 4)] && s.running == {0} && s.gone == {} && s.log == [Claim(0, 1, row)]
  {
    es := FirstClaim();
    es := SettlesOnlyJob(es, Report(0, TimedOut, 5, 4, true), ClaimedRow(ONE_JOB, 1, 10, 0));
  }

  lemma TwoExecute(s: State, m: nat, n: nat)
    requires Executes(s, m, 0) && Executes(s, n, 0) && m != n
    ensures !OneAttempt(s, 0)
  {
  }

  /** Attempt 0 of runner 1 lost its lease to a reclaim, and runner 1 claimed the job again as attempt 1. */
  lemma ClaimedAgain() returns (es: seq<Event>)
    ensures Run(es).Some?
    ensures var s := Run(es).value; var row := ClaimedRow(ONE_JOB, 1, 10, 0); var again := ClaimedRow(FreedRow(row, 10), 1, 20, 10);
            && s.rows == map[0 := again] && s.log == [Claim(0, 1, row), Claim(0, 1, again)]
            && s.running == {0, 1} && s.open == {0, 1} && s.gone == {}
  {
    es := FirstClaim();
    var row := ClaimedRow(ONE_JOB, 1, 10, 0);
    es := TakesOnlyJob(es, Reclaim(10), row, 10);
    es := ClaimsOnlyJob(es, FreedRow(row, 10), 1, 20, 10);
  }

  /** The report of the old attempt settles the row the new attempt holds. */
  lemma StaleReportCanLand() returns (es: seq<Event>)
    ensures Run(es).Some?
    ensures var s := Run(es).value;
            1 in s.running && |s.log| == 2 && s.log[1].job == 0 && 0 in s.rows && s.rows[0].status == Done
  {
    es := ClaimedAgain();
    es := SettlesOnlyJob(es, Report(0, Finished, 0, 10, true), Run(es).value.rows[0]);
  }

  /** The old attempt asks to be tried again; a second runner then claims the job from under the new attempt. */
  lemma StaleReportCanOverlap() returns (es: seq<Event>)
    ensures Run(es).Some?
    ensures var s := Run(es).value;
            Executes(s, 1, 0) && Executes(s, 2, 0) && s.log[1].runner != s.log[2].runner && !OneAttempt(s, 0)
  {
    es := ClaimedAgain();
    var again := Run(es).value.rows[0];
    es := SettlesOnlyJob(es, Report(0, TryAgain, 10, 10, true), again);
    es := ClaimsOnlyJob(es, SettledRow(again, Retry(10), 10), 2, 30, 10);
    TwoExecute(Run(es).value, 1, 2);
  }
}
