/**
 The process's metric families (crates/jobs/src/metrics.rs). Requests run concurrently, and each touches two
 families one after the other, so a run is an interleaving of those two steps. A histogram is represented by
 its number of observations.
 */
module Metrics {
  import opened Prelude
  import opened MetricLabels

  type Status = n: nat | n < 0x1_0000

  datatype Call = Call(profile: string, route: string, status: Status)

  datatype AuditEvent = CertificateIssued | CertificateIssueFailed | OtherEvent

  datatype AuditRecord = AuditRecord(event: AuditEvent, profile: string, reason: Option<string>)

  type RouteLabels = (string, string)
  type RequestLabels = (string, string, Status)

  type Family<K> = map<K, nat>

  /** The value of a series; one that was never created reads as zero. */
  function Get<K>(family: Family<K>, key: K): nat {
    if key in family then family[key] else 0
  }

  function Inc<K>(family: Family<K>, key: K): Family<K> {
    family[key := Get(family, key) + 1]
  }

  datatype Families = Families(
    requestDuration: Family<RouteLabels>,
    requests: Family<RequestLabels>,
    issued: Family<string>,
    issueFailures: Family<(string, string)>)

  function RouteOf(profile: string, route: string): RouteLabels { (Escape(profile), Escape(route)) }

  function RequestOf(profile: string, route: string, status: Status): RequestLabels {
    (Escape(profile), Escape(route), status)
  }

  function ReasonOf(record: AuditRecord): string {
    if record.reason.Some? then record.reason.value else "unknown"
  }

  function Audited(f: Families, record: AuditRecord): Families {
    match record.event
    case CertificateIssued => f.(issued := Inc(f.issued, Escape(record.profile)))
    case CertificateIssueFailed =>
      f.(issueFailures := Inc(f.issueFailures, (Escape(record.profile), Escape(ReasonOf(record)))))
    case OtherEvent => f
  }

  // ---------------------------------------------------------------------------------------------
  // Runs

  datatype Event =
    | Observe(call: Call)      // a request has been served: its duration is observed
    | Count(i: nat)            // the request at place i among those observed is counted
    | Audit(record: AuditRecord)

  /** The families, the requests between their two steps, and what the run has recorded so far. */
  datatype State = State(f: Families, inFlight: seq<Call>, counted: seq<Call>, trail: seq<AuditRecord>)

  const START := State(Families(map[], map[], map[], map[]), [], [], [])

  predicate Enabled(s: State, e: Event) { e.Count? ==> e.i < |s.inFlight| }

  function Without<T>(s: seq<T>, i: nat): seq<T>
    requires i < |s|
  {
    s[..i] + s[i + 1..]
  }

  function Step(s: State, e: Event): State
    requires Enabled(s, e)
  {
    match e
    case Observe(c) =>
      s.(f := s.f.(requestDuration := Inc(s.f.requestDuration, RouteOf(c.profile, c.route))), inFlight := s.inFlight + [c])
    case Count(i) =>
      var c := s.inFlight[i];
      s.(f := s.f.(requests := Inc(s.f.requests, RequestOf(c.profile, c.route, c.status))),
         inFlight := Without(s.inFlight, i), counted := s.counted + [c])
    case Audit(record) => s.(f := Audited(s.f, record), trail := s.trail + [record])
  }

  function Run(es: seq<Event>): Option<State> {
    if es == [] then Some(START)
    else
      var s := Run(es[..|es| - 1]);
      var e := es[|es| - 1];
      if s.Some? && Enabled(s.value, e) then Some(Step(s.value, e)) else None
  }

  // ---------------------------------------------------------------------------------------------
  // Tallies, by the labels as the caller gave them

  function Served(calls: seq<Call>, profile: string, route: string, status: Status): nat {
    if calls == [] then 0
    else (if calls[0] == Call(profile, route, status) then 1 else 0) + Served(calls[1..], profile, route, status)
  }

  function Routed(calls: seq<Call>, profile: string, route: string): nat {
    if calls == [] then 0
    else (if calls[0].profile == profile && calls[0].route == route then 1 else 0) + Routed(calls[1..], profile, route)
  }

  function Issued(trail: seq<AuditRecord>, profile: string): nat {
    if trail == [] then 0
    else (if trail[0].event.CertificateIssued? && trail[0].profile == profile then 1 else 0) + Issued(trail[1..], profile)
  }

  function Failed(trail: seq<AuditRecord>, profile: string, reason: string): nat {
    if trail == [] then 0
    else (if trail[0].event.CertificateIssueFailed? && trail[0].profile == profile && ReasonOf(trail[0]) == reason
          then 1 else 0) + Failed(trail[1..], profile, reason)
  }

  lemma {:induction false} ServedAppend(a: seq<Call>, b: seq<Call>, profile: string, route: string, status: Status)
    ensures Served(a + b, profile, route, status) == Served(a, profile, route, status) + Served(b, profile, route, status)
  {
    if a == [] { assert a + b == b; } else {
      assert (a + b)[1..] == a[1..] + b;
      ServedAppend(a[1..], b, profile, route, status);
    }
  }

  lemma {:induction false} RoutedAppend(a: seq<Call>, b: seq<Call>, profile: string, route: string)
    ensures Routed(a + b, profile, route) == Routed(a, profile, route) + Routed(b, profile, route)
  {
    if a == [] { assert a + b == b; } else {
      assert (a + b)[1..] == a[1..] + b;
      RoutedAppend(a[1..], b, profile, route);
    }
  }

  lemma {:induction false} IssuedAppend(a: seq<AuditRecord>, b: seq<AuditRecord>, profile: string)
    ensures Issued(a + b, profile) == Issued(a, profile) + Issued(b, profile)
  {
    if a == [] { assert a + b == b; } else {
      assert (a + b)[1..] == a[1..] + b;
      IssuedAppend(a[1..], b, profile);
    }
  }

  lemma {:induction false} FailedAppend(a: seq<AuditRecord>, b: seq<AuditRecord>, profile: string, reason: string)
    ensures Failed(a + b, profile, reason) == Failed(a, profile, reason) + Failed(b, profile, reason)
  {
    if a == [] { assert a + b == b; } else {
      assert (a + b)[1..] == a[1..] + b;
      FailedAppend(a[1..], b, profile, reason);
    }
  }

  lemma {:induction false} RoutedWithout(calls: seq<Call>, i: nat, profile: string, route: string)
    requires i < |calls|
    ensures Routed(calls, profile, route) == Routed(Without(calls, i), profile, route) + Routed([calls[i]], profile, route)
  {
    assert calls == calls[..i] + ([calls[i]] + calls[i + 1..]);
    RoutedAppend(calls[..i], [calls[i]] + calls[i + 1..], profile, route);
    RoutedAppend([calls[i]], calls[i + 1..], profile, route);
    RoutedAppend(calls[..i], calls[i + 1..], profile, route);
  }

  lemma {:induction false} RunKeepsRequests(es: seq<Event>, profile: string, route: string, status: Status)
    requires Run(es).Some?
    ensures var s := Run(es).value;
            Get(s.f.requests, RequestOf(profile, route, status)) == Served(s.counted, profile, route, status)
  {
    if es != [] {
      var s, e := Run(es[..|es| - 1]).value, es[|es| - 1];
      RunKeepsRequests(es[..|es| - 1], profile, route, status);
      if e.Count? {
        var c := s.inFlight[e.i];
        ServedAppend(s.counted, [c], profile, route, status);
        if RequestOf(c.profile, c.route, c.status) == RequestOf(profile, route, status) {
          EscapeIsInjective(c.profile, profile);
          EscapeIsInjective(c.route, route);
        }
      }
    }
  }

  lemma {:induction false} RunKeepsDurations(es: seq<Event>, profile: string, route: string)
    requires Run(es).Some?
    ensures var s := Run(es).value;
            Get(s.f.requestDuration, RouteOf(profile, route))
            == Routed(s.counted, profile, route) + Routed(s.inFlight, profile, route)
  {
    if es != [] {
      var s, e := Run(es[..|es| - 1]).value, es[|es| - 1];
      RunKeepsDurations(es[..|es| - 1], profile, route);
      match e
      case Observe(c) =>
        RoutedAppend(s.inFlight, [c], profile, route);
        if RouteOf(c.profile, c.route) == RouteOf(profile, route) {
          EscapeIsInjective(c.profile, profile);
          EscapeIsInjective(c.route, route);
        }
      case Count(i) =>
        RoutedWithout(s.inFlight, i, profile, route);
        RoutedAppend(s.counted, [s.inFlight[i]], profile, route);
      case Audit(_) =>
    }
  }

  /** The audit counters and the audit trail never disagree, whatever the labels contain. */
  lemma {:induction false} AuditCountersMatchTheTrail(es: seq<Event>, profile: string, reason: string)
    requires Run(es).Some?
    ensures var s := Run(es).value;
            && Get(s.f.issued, Escape(profile)) == Issued(s.trail, profile)
            && Get(s.f.issueFailures, (Escape(profile), Escape(reason))) == Failed(s.trail, profile, reason)
  {
    if es != [] {
      var s, e := Run(es[..|es| - 1]).value, es[|es| - 1];
      AuditCountersMatchTheTrail(es[..|es| - 1], profile, reason);
      if e.Audit? {
        IssuedAppend(s.trail, [e.record], profile);
        FailedAppend(s.trail, [e.record], profile, reason);
        if Escape(e.record.profile) == Escape(profile) { EscapeIsInjective(e.record.profile, profile); }
        if Escape(ReasonOf(e.record)) == Escape(reason) { EscapeIsInjective(ReasonOf(e.record), reason); }
      }
    }
  }

  // ---------------------------------------------------------------------------------------------
  // Conservation between the two request families

  /** The request counters of one route, summed over every status below `n`. */
  function OverStatuses(requests: Family<RequestLabels>, profile: string, route: string, n: nat): nat
    requires n <= 0x1_0000
  {
    if n == 0 then 0
    else Get(requests, RequestOf(profile, route, n - 1)) + OverStatuses(requests, profile, route, n - 1)
  }

  function ServedBelow(calls: seq<Call>, profile: string, route: string, n: nat): nat
    requires n <= 0x1_0000
  {
    if n == 0 then 0 else Served(calls, profile, route, n - 1) + ServedBelow(calls, profile, route, n - 1)
  }

  lemma {:induction false} ServedBelowCons(calls: seq<Call>, profile: string, route: string, n: nat)
    requires n <= 0x1_0000 && calls != []
    ensures ServedBelow(calls, profile, route, n) == ServedBelow(calls[1..], profile, route, n)
            + if calls[0].profile == profile && calls[0].route == route && calls[0].status < n then 1 else 0
  {
    if n > 0 { ServedBelowCons(calls, profile, route, n - 1); }
  }

  lemma {:induction false} NoneServed(profile: string, route: string, n: nat)
    requires n <= 0x1_0000
    ensures ServedBelow([], profile, route, n) == 0
  {
    if n > 0 { NoneServed(profile, route, n - 1); }
  }

  lemma {:induction false} EveryCallHasAStatus(calls: seq<Call>, profile: string, route: string)
    ensures ServedBelow(calls, profile, route, 0x1_0000) == Routed(calls, profile, route)
  {
    if calls == [] {
      NoneServed(profile, route, 0x1_0000);
    } else {
      ServedBelowCons(calls, profile, route, 0x1_0000);
      EveryCallHasAStatus(calls[1..], profile, route);
    }
  }

  lemma {:induction false} SumsAgree(es: seq<Event>, profile: string, route: string, n: nat)
    requires Run(es).Some? && n <= 0x1_0000
    ensures var s := Run(es).value;
            OverStatuses(s.f.requests, profile, route, n) == ServedBelow(s.counted, profile, route, n)
  {
    if n > 0 {
      RunKeepsRequests(es, profile, route, n - 1);
      SumsAgree(es, profile, route, n - 1);
    }
  }

  /**
   However requests interleave, a route's duration histogram holds one observation for every request counted
   under any status, plus one for each request caught between its two steps.
   */
  lemma DurationsAndCountsAgree(es: seq<Event>, profile: string, route: string)
    requires Run(es).Some?
    ensures var s := Run(es).value;
            Get(s.f.requestDuration, RouteOf(profile, route))
            == OverStatuses(s.f.requests, profile, route, 0x1_0000) + Routed(s.inFlight, profile, route)
  {
    RunKeepsDurations(es, profile, route);
    SumsAgree(es, profile, route, 0x1_0000);
    EveryCallHasAStatus(Run(es).value.counted, profile, route);
  }

  // ---------------------------------------------------------------------------------------------
  // The recorder

  class Recorder {
    var families: Families

    constructor ()
      ensures families == START.f
    {
      families := START.f;
    }

    /** `record_request`: on its own, an observation and the count of that same request. */
    method RecordRequest(profile: string, route: string, status: Status)
      modifies this
      ensures forall s: State :: s.f == old(families) ==>
                families == Step(Step(s, Observe(Call(profile, route, status))), Count(|s.inFlight|)).f
    {
      var p := EscapeLabel(profile);
      var r := EscapeLabel(route);
      families := families.(requestDuration := Inc(families.requestDuration, (p, r)));
      families := families.(requests := Inc(families.requests, (p, r, status)));
    }

    /** `record_audit`. */
    method RecordAudit(record: AuditRecord)
      modifies this
      ensures forall s: State :: s.f == old(families) ==> families == Step(s, Audit(record)).f
    {
      var p := EscapeLabel(record.profile);
      match record.event
      case CertificateIssued => families := families.(issued := Inc(families.issued, p));
      case CertificateIssueFailed =>
        var reason := EscapeLabel(if record.reason.Some? then record.reason.value else "unknown");
        families := families.(issueFailures := Inc(families.issueFailures, (p, reason)));
      case OtherEvent =>
    }
  }
}
