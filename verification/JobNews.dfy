/**
 Telling a handler that its job is given up (crates/jobs/src/jobs/runner.rs, `retire`), over the runs of
 `JobQueue`. The row is written first and the handler told afterwards, in two steps that a crash can come between.
 */
module JobNews {
  import opened Prelude
  import opened JobTable
  import opened JobQueue

  /** Attempt `n` ended a life of job `id`. */
  predicate EndedLife(s: State, n: nat, id: Id, life: nat) {
    n in s.news.abandoned && n < |s.log| && s.log[n].job == id && s.news.abandoned[n] == life
  }

  ghost predicate LifeEnded(s: State, id: Id, life: nat) { exists n :: EndedLife(s, n, id, life) }

  /** The news of every abandonment is in one place: on its way, told, or silenced. */
  predicate OnePlace(news: News) {
    && news.telling !! news.told && news.telling !! news.silenced && news.told !! news.silenced
    && news.telling + news.told + news.silenced == news.abandoned.Keys
  }

  /** An abandonment belongs to an attempt that has reported, and ended a life its job has begun. */
  predicate Past(s: State) {
    forall n :: n in s.news.abandoned ==>
      n < |s.log| && n !in s.open && s.news.abandoned[n] <= LifeOf(s.news, s.log[n].job)
  }

  /** No life is ended twice. */
  ghost predicate EndedOnce(s: State) {
    forall m, n, id, life :: EndedLife(s, m, id, life) && EndedLife(s, n, id, life) ==> m == n
  }

  /** The present life of a live job has not ended; that of a failed job has. */
  ghost predicate LivesOk(s: State, id: Id) {
    && (id in s.rows && Live(s.rows[id]) ==> !LifeEnded(s, id, LifeOf(s.news, id)))
    && (id in s.rows && s.rows[id].status == Failed ==> LifeEnded(s, id, LifeOf(s.news, id)))
  }

  ghost predicate NewsOk(s: State) {
    OnePlace(s.news) && Past(s) && EndedOnce(s) && forall id :: LivesOk(s, id)
  }

  // ---------------------------------------------------------------------------------------------
  // What every step keeps

  lemma {:induction false} SameEnded(s: State, s': State)
    requires Past(s) && s'.news.abandoned == s.news.abandoned && s.log <= s'.log
    ensures forall n, id, life :: EndedLife(s, n, id, life) <==> EndedLife(s', n, id, life)
    ensures forall id, life :: LifeEnded(s, id, life) <==> LifeEnded(s', id, life)
  {
    assert forall n, id, life :: EndedLife(s, n, id, life) <==> EndedLife(s', n, id, life);
    forall id, life ensures LifeEnded(s, id, life) <==> LifeEnded(s', id, life) {
      if LifeEnded(s, id, life) { var n :| EndedLife(s, n, id, life); assert EndedLife(s', n, id, life); }
      if LifeEnded(s', id, life) { var n :| EndedLife(s', n, id, life); assert EndedLife(s, n, id, life); }
    }
  }

  lemma {:induction false} ReportKeepsNews(s: State, n: nat, answer: Answer, runAt: int, now: int, heard: bool)
    requires NewsOk(s) && n < |s.log| && n in s.open && Abandons(s, n, answer, runAt)
    ensures NewsOk(ReportStep(s, n, answer, runAt, now, heard))
  {
    var s' := ReportStep(s, n, answer, runAt, now, heard);
    var id, life := s.log[n].job, LifeOf(s.news, s.log[n].job);
    assert n !in s.news.abandoned;
    assert LivesOk(s, id);
    OneMoreEnded(s, s', n, life);
    forall j ensures LivesOk(s', j) { assert LivesOk(s, j); }
  }

  lemma {:induction false} OneMoreEnded(s: State, s': State, n: nat, life: nat)
    requires s'.log == s.log && n < |s.log| && n !in s.news.abandoned && s'.news.abandoned == s.news.abandoned[n := life]
    ensures forall m, j, l :: EndedLife(s', m, j, l) <==> EndedLife(s, m, j, l) || (m == n && j == s.log[n].job && l == life)
    ensures forall j, l :: LifeEnded(s', j, l) <==> LifeEnded(s, j, l) || (j == s.log[n].job && l == life)
  {
    assert forall m, j, l :: EndedLife(s', m, j, l) <==> EndedLife(s, m, j, l) || (m == n && j == s.log[n].job && l == life);
    assert EndedLife(s', n, s.log[n].job, life);
    forall j, l ensures LifeEnded(s', j, l) <==> LifeEnded(s, j, l) || (j == s.log[n].job && l == life) {
      if LifeEnded(s, j, l) { var m :| EndedLife(s, m, j, l); assert EndedLife(s', m, j, l); }
    }
  }

  lemma {:induction false} ReviveKeepsNews(s: State, id: Id, now: int)
    requires NewsOk(s)
    ensures NewsOk(ReviveStep(s, id, now))
  {
    var s' := ReviveStep(s, id, now);
    SameEnded(s, s');
    forall j ensures LivesOk(s', j) {
      assert LivesOk(s, j);
      if CanRevive(s.rows, id) && j == id { NewLife(s, id); }
    }
  }

  lemma {:induction false} NewLife(s: State, id: Id)
    requires Past(s)
    ensures !LifeEnded(s, id, LifeOf(s.news, id) + 1)
  {
  }

  lemma {:induction false} CrashKeepsNews(s: State, runner: Runner)
    requires NewsOk(s)
    ensures NewsOk(CrashStep(s, runner))
  {
    var s' := CrashStep(s, runner);
    SameEnded(s, s');
    forall j ensures LivesOk(s', j) {
      assert LivesOk(s, j);
    }
  }

  /** A step that neither abandons nor revives makes no job failed, and none live but the one it queues. */
  lemma {:induction false} NoLifeChanges(s: State, e: Event, id: Id)
    requires Enabled(s, e) && !e.Revive? && !(e.Report? && Abandons(s, e.n, e.answer, e.runAt)) && id in Step(s, e).rows
    ensures Live(Step(s, e).rows[id]) ==> (id in s.rows && Live(s.rows[id])) || (e.Enqueue? && e.id == id)
    ensures Step(s, e).rows[id].status == Failed ==> id in s.rows && s.rows[id].status == Failed
  {
  }

  predicate Quiet(s: State, e: Event) {
    !e.Revive? && !e.Crash? && !e.Tell? && !(e.Report? && Abandons(s, e.n, e.answer, e.runAt))
  }

  lemma {:induction false} QuietKeepsNews(s: State, e: Event)
    requires NewsOk(s) && LeasesOk(s) && Enabled(s, e) && Quiet(s, e)
    ensures NewsOk(Step(s, e))
  {
    var s' := Step(s, e);
    assert s'.news == s.news && s.log <= s'.log && s'.open <= s.open + {|s.log|};
    SameEnded(s, s');
    forall id ensures LivesOk(s', id) {
      assert LivesOk(s, id);
      if id in s'.rows { NoLifeChanges(s, e, id); }
    }
  }

  lemma {:induction false} TellKeepsNews(s: State, n: nat)
    requires NewsOk(s) && Enabled(s, Tell(n))
    ensures NewsOk(Step(s, Tell(n)))
  {
    SameEnded(s, Step(s, Tell(n)));
    forall id ensures LivesOk(Step(s, Tell(n)), id) { assert LivesOk(s, id); }
  }

  lemma {:induction false} StepKeepsNews(s: State, e: Event)
    requires NewsOk(s) && LeasesOk(s) && Enabled(s, e)
    ensures NewsOk(Step(s, e))
  {
    if Quiet(s, e) {
      QuietKeepsNews(s, e);
    } else {
      match e
      case Revive(id, now) => ReviveKeepsNews(s, id, now);
      case Crash(runner) => CrashKeepsNews(s, runner);
      case Tell(n) => TellKeepsNews(s, n);
      case Report(n, answer, runAt, now, heard) => ReportKeepsNews(s, n, answer, runAt, now, heard);
    }
  }

  /**
   However runners race, crash and lose leases, each life of a job that fails is ended by exactly one attempt,
   and the handler is told of it at most once: an attempt whose news is told or silenced is never told again.
   */
  lemma {:induction false} ToldAtMostOncePerLife(es: seq<Event>)
    requires Run(es).Some?
    ensures NewsOk(Run(es).value)
    ensures forall n :: Enabled(Run(es).value, Tell(n)) ==> n !in Run(es).value.news.told && n !in Run(es).value.news.silenced
  {
    if es != [] {
      ToldAtMostOncePerLife(es[..|es| - 1]);
      LeasesHold(es[..|es| - 1]);
      StepKeepsNews(Run(es[..|es| - 1]).value, es[|es| - 1]);
    }
  }

  // ---------------------------------------------------------------------------------------------
  // When a handler is never told

  /** The event comes between the abandonment by attempt `n` and its news: the process dies, or never hears that it landed. */
  predicate Silences(s: State, e: Event, n: nat) {
    match e
    case Crash(runner) => n in s.news.telling && n < |s.log| && s.log[n].runner == runner
    case Report(m, answer, runAt, _, heard) => m == n && !heard && Abandons(s, n, answer, runAt)
    case _ => false
  }

  predicate SilencedAlong(es: seq<Event>, n: nat)
    requires Run(es).Some?
  {
    es != [] && (SilencedAlong(es[..|es| - 1], n) || Silences(Run(es[..|es| - 1]).value, es[|es| - 1], n))
  }

  lemma {:induction false} StepSilences(s: State, e: Event, n: nat)
    requires Enabled(s, e)
    ensures n in Step(s, e).news.silenced <==> n in s.news.silenced || Silences(s, e, n)
  {
  }

  lemma {:induction false} SilencedMeans(es: seq<Event>, n: nat)
    requires Run(es).Some?
    ensures n in Run(es).value.news.silenced <==> SilencedAlong(es, n)
  {
    if es != [] {
      SilencedMeans(es[..|es| - 1], n);
      StepSilences(Run(es[..|es| - 1]).value, es[|es| - 1], n);
    }
  }

  /**
   A failed job's handler has been told, or is about to be, if and only if neither a crash nor a lost answer
   fell between the abandonment that ended the job's life and its news. `n` is the attempt that ended it.
   */
  lemma ToldUnlessSilenced(es: seq<Event>, id: Id) returns (n: nat)
    requires Run(es).Some? && id in Run(es).value.rows && Run(es).value.rows[id].status == Failed
    ensures EndedLife(Run(es).value, n, id, LifeOf(Run(es).value.news, id))
    ensures n in Run(es).value.news.told + Run(es).value.news.telling <==> !SilencedAlong(es, n)
  {
    ToldAtMostOncePerLife(es);
    var s := Run(es).value;
    assert LivesOk(s, id);
    assert LifeEnded(s, id, LifeOf(s.news, id));
    n :| EndedLife(s, n, id, LifeOf(s.news, id));
    SilencedMeans(es, n);
    assert n in s.news.abandoned.Keys;
  }

  /** A job refused on its one attempt, with the answer to the write heard or not. */
  lemma Refusal(heard: bool) returns (es: seq<Event>)
    ensures Run(es).Some?
    ensures var s := Run(es).value;
            && 0 in s.rows && s.rows[0].status == Failed && s.log == [Claim(0, 1, ClaimedRow(ONE_JOB, 1, 10, 0))]
            && s.news.told == {} && s.news.telling == if heard then {0} else {}
  {
    es := FirstClaim();
    es := SettlesOnlyJob(es, Report(0, Refused, 0, 4, heard), ClaimedRow(ONE_JOB, 1, 10, 0));
  }

  /** A process that dies after writing that a job failed, or never hears that it wrote it, leaves its handler untold for good. */
  lemma NewsCanBeLost(heard: bool) returns (es: seq<Event>)
    ensures Run(es).Some?
    ensures var s := Run(es).value; 0 in s.rows && s.rows[0].status == Failed && s.news.told == {} && s.news.telling == {}
  {
    es := Refusal(heard);
    if heard {
      RunExtends(es, Crash(1));
      es := es + [Crash(1)];
    }
  }
}
