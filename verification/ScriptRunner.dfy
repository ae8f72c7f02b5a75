/**
 The script runner (crates/core/src/script_hook.rs, `ScriptHook::run`): a child process, the three pipes it
 talks over, and the four joined futures that feed it, drain it and wait for it.

 A child is any finite program of reads, writes and closes; what an adaptive child does on one execution is
 such a program. Pipes hold at most `capacity` bytes. The deadline is an event that can happen at any moment.
 */
module ScriptRunner {
  import opened Prelude

  datatype Stream = Stdout | Stderr

  datatype Op =
    | Put(stream: Stream, b: byte)
    | Shut(stream: Stream)
    | Get
    | ShutStdin
    | Think

  /** Bytes in flight, and whether each end is still open. */
  datatype Pipe = Pipe(bytes: seq<byte>, writer: bool, reader: bool)

  /** `read_capped` at work, and once it has returned its buffer. */
  datatype Reader = Reading(buffer: seq<byte>) | Returned(buffer: seq<byte>)

  datatype Capture = Capture(pipe: Pipe, reader: Reader)

  datatype Feed = Feeding(rest: seq<byte>) | Fed(failed: bool)

  datatype Outcome =
    | Finished(status: int, stdout: seq<byte>, stderr: seq<byte>, stdinFailed: bool)
    | OutputTooLarge(stream: Stream)
    | Timeout

  /** What a run is given: the child, its exit status, the payload if stdin is piped, and the two sizes. */
  datatype Setup = Setup(program: seq<Op>, status: int, payload: Option<seq<byte>>, limit: nat, capacity: nat)

  datatype State = State(
    ops: seq<Op>,
    running: bool,
    stdin: Pipe,
    stdout: Capture,
    stderr: Capture,
    feed: Feed,
    waited: bool,
    consumed: seq<byte>,
    outcome: Option<Outcome>)

  datatype Event =
    | Child
    | FeedSome(n: nat)
    | FeedEnds
    | FeedFails
    | Drain(stream: Stream, n: nat)
    | Ends(stream: Stream)
    | Overflows(stream: Stream)
    | Reap
    | Join
    | Deadline

  function Start(c: Setup): State {
    var unread := Capture(Pipe([], true, true), Reading([]));
    State(c.program, true, Pipe([], c.payload.Some?, true), unread, unread,
          if c.payload.Some? then Feeding(c.payload.value) else Fed(false), false, [], None)
  }

  function Of(s: State, stream: Stream): Capture {
    if stream == Stdout then s.stdout else s.stderr
  }

  function With(s: State, stream: Stream, c: Capture): State {
    if stream == Stdout then s.(stdout := c) else s.(stderr := c)
  }

  /** The child is not blocked: on a full pipe that is still read, or on an empty one that is still fed. */
  predicate ChildCanRun(c: Setup, s: State) {
    && s.running
    && (s.ops != [] ==>
          match s.ops[0]
          case Put(stream, _) => Of(s, stream).pipe.writer ==> |Of(s, stream).pipe.bytes| < c.capacity
          case Get => s.stdin.reader && s.stdin.writer ==> s.stdin.bytes != []
          case _ => true)
  }

  predicate Enabled(c: Setup, s: State, e: Event) {
    && s.outcome.None?
    && match e
       case Child => ChildCanRun(c, s)
       case FeedSome(n) => s.feed.Feeding? && s.stdin.reader && 0 < n <= |s.feed.rest| && |s.stdin.bytes| + n <= c.capacity
       case FeedEnds => s.feed == Feeding([])
       case FeedFails => s.feed.Feeding? && s.feed.rest != [] && !s.stdin.reader
       case Drain(stream, n) =>
         var r := Of(s, stream);
         r.reader.Reading? && 0 < n <= |r.pipe.bytes| && |r.reader.buffer| + n <= c.limit + 1
       case Ends(stream) =>
         var r := Of(s, stream);
         r.reader.Reading? && r.pipe.bytes == [] && !r.pipe.writer && |r.reader.buffer| <= c.limit
       case Overflows(stream) => Of(s, stream).reader.Reading? && |Of(s, stream).reader.buffer| > c.limit
       case Reap => !s.running && !s.waited
       case Join => s.waited && s.stdout.reader.Returned? && s.stderr.reader.Returned? && s.feed.Fed?
       case Deadline => true
  }

  /** What one operation of the child does to an output stream. */
  function ChildOutput(r: Capture, op: Op, stream: Stream): Capture {
    if op.Put? && op.stream == stream && r.pipe.writer then r.(pipe := r.pipe.(bytes := r.pipe.bytes + [op.b]))
    else if op == Shut(stream) then r.(pipe := r.pipe.(writer := false))
    else r
  }

  /** One operation of the child. */
  function ChildStep(s: State): State
    requires s.ops != []
  {
    var op := s.ops[0];
    var takes := op == Get && s.stdin.reader && s.stdin.bytes != [];
    s.(ops := s.ops[1..],
       stdin := if takes then s.stdin.(bytes := s.stdin.bytes[1..])
                else if op == ShutStdin then s.stdin.(reader := false)
                else s.stdin,
       consumed := if takes then s.consumed + [s.stdin.bytes[0]] else s.consumed,
       stdout := ChildOutput(s.stdout, op, Stdout),
       stderr := ChildOutput(s.stderr, op, Stderr))
  }

  function ClosedByChild(r: Capture): Capture { r.(pipe := r.pipe.(writer := false)) }

  /** Running out of operations is the child's exit, which closes its ends of the pipes. */
  function ChildExit(s: State): State {
    s.(running := false, stdin := s.stdin.(reader := false), stdout := ClosedByChild(s.stdout), stderr := ClosedByChild(s.stderr))
  }

  function Drained(r: Capture, n: nat): Capture
    requires n <= |r.pipe.bytes|
  {
    Capture(r.pipe.(bytes := r.pipe.bytes[n..]), Reading(r.reader.buffer + r.pipe.bytes[..n]))
  }

  function Step(c: Setup, s: State, e: Event): State
    requires Enabled(c, s, e)
  {
    match e
    case Child => if s.ops == [] then ChildExit(s) else ChildStep(s)
    case FeedSome(n) =>
      s.(feed := Feeding(s.feed.rest[n..]), stdin := s.stdin.(bytes := s.stdin.bytes + s.feed.rest[..n]))
    case FeedEnds => s.(feed := Fed(false), stdin := s.stdin.(writer := false))
    case FeedFails => s.(feed := Fed(true), stdin := s.stdin.(writer := false))
    case Drain(stream, n) => With(s, stream, Drained(Of(s, stream), n))
    case Ends(stream) => With(s, stream, Of(s, stream).(reader := Returned(Of(s, stream).reader.buffer)))
    case Overflows(stream) => s.(outcome := Some(OutputTooLarge(stream)))
    case Reap => s.(waited := true)
    case Join => s.(outcome := Some(Finished(c.status, s.stdout.reader.buffer, s.stderr.reader.buffer, s.feed.failed)))
    case Deadline => s.(outcome := Some(Timeout))
  }

  /** The state after a sequence of events, or `None` when one of them was not enabled. */
  function Run(c: Setup, es: seq<Event>): Option<State> {
    if es == [] then Some(Start(c))
    else
      var before := Run(c, es[..|es| - 1]);
      var e := es[|es| - 1];
      if before.Some? && Enabled(c, before.value, e) then Some(Step(c, before.value, e)) else None
  }

  // ---------------------------------------------------------------------------------------------
  // What a run keeps

  /** The bytes a program writes to one stream, up to where it closes it. */
  function Written(ops: seq<Op>, stream: Stream): seq<byte> {
    if ops == [] || ops[0] == Shut(stream) then []
    else (if ops[0].Put? && ops[0].stream == stream then [ops[0].b] else []) + Written(ops[1..], stream)
  }

  /** What was read, what is in the pipe and what is still to be written make up the program's output, in order. */
  predicate Accounted(c: Setup, r: Capture, ops: seq<Op>, stream: Stream) {
    && r.reader.buffer + r.pipe.bytes + (if r.pipe.writer then Written(ops, stream) else []) == Written(c.program, stream)
    && |r.pipe.bytes| <= c.capacity
    && |r.reader.buffer| <= c.limit + 1
    && (r.reader.Returned? ==> !r.pipe.writer && r.pipe.bytes == [] && |r.reader.buffer| <= c.limit)
  }

  function Payload(c: Setup): seq<byte> { if c.payload.Some? then c.payload.value else [] }

  predicate FedInOrder(c: Setup, s: State) {
    && s.consumed + s.stdin.bytes <= Payload(c)
    && (s.feed.Feeding? ==> s.consumed + s.stdin.bytes + s.feed.rest == Payload(c))
    && (s.feed == Fed(false) ==> s.consumed + s.stdin.bytes == Payload(c))
    && (s.feed == Fed(true) ==> s.consumed + s.stdin.bytes < Payload(c) && !s.stdin.reader)
    && |s.stdin.bytes| <= c.capacity
  }

  predicate Ended(c: Setup, s: State) {
    match s.outcome
    case None => true
    case Some(Timeout) => true
    case Some(OutputTooLarge(stream)) => |Of(s, stream).reader.buffer| > c.limit
    case Some(Finished(status, out, err, failed)) =>
      && status == c.status
      && s.stdout.reader == Returned(out) && s.stderr.reader == Returned(err)
      && s.feed == Fed(failed)
      && s.waited
  }

  predicate Inv(c: Setup, s: State) {
    && Accounted(c, s.stdout, s.ops, Stdout) && Accounted(c, s.stderr, s.ops, Stderr)
    && FedInOrder(c, s)
    && (s.feed.Fed? <==> !s.stdin.writer)
    && (!s.running ==> !s.stdin.reader && !s.stdout.pipe.writer && !s.stderr.pipe.writer)
    && (s.running ==> !s.waited)
    && Ended(c, s)
  }

  lemma {:induction false} PutKeepsStream(c: Setup, r: Capture, ops: seq<Op>, stream: Stream)
    requires ops != [] && Accounted(c, r, ops, stream)
    requires ops[0].Put? && ops[0].stream == stream && r.pipe.writer && |r.pipe.bytes| < c.capacity
    ensures Accounted(c, ChildOutput(r, ops[0], stream), ops[1..], stream)
  {
  }

  lemma {:induction false} ShutKeepsStream(c: Setup, r: Capture, ops: seq<Op>, stream: Stream)
    requires ops != [] && Accounted(c, r, ops, stream) && (ops[0] == Shut(stream) || !r.pipe.writer)
    ensures Accounted(c, ChildOutput(r, ops[0], stream), ops[1..], stream)
  {
  }

  lemma {:induction false} OtherOpKeepsStream(c: Setup, r: Capture, ops: seq<Op>, stream: Stream)
    requires ops != [] && Accounted(c, r, ops, stream) && ops[0] != Shut(stream)
    requires !(ops[0].Put? && ops[0].stream == stream)
    ensures Accounted(c, r, ops[1..], stream)
  {
    assert Written(ops, stream) == [] + Written(ops[1..], stream) == Written(ops[1..], stream);
  }

  lemma {:induction false} ChildKeepsStream(c: Setup, r: Capture, ops: seq<Op>, stream: Stream)
    requires ops != [] && Accounted(c, r, ops, stream)
    requires ops[0].Put? && ops[0].stream == stream && r.pipe.writer ==> |r.pipe.bytes| < c.capacity
    ensures Accounted(c, ChildOutput(r, ops[0], stream), ops[1..], stream)
  {
    if ops[0] == Shut(stream) || !r.pipe.writer {
      ShutKeepsStream(c, r, ops, stream);
    } else if ops[0].Put? && ops[0].stream == stream {
      PutKeepsStream(c, r, ops, stream);
    } else {
      OtherOpKeepsStream(c, r, ops, stream);
    }
  }

  lemma DrainKeepsStream(c: Setup, r: Capture, ops: seq<Op>, stream: Stream, n: nat)
    requires Accounted(c, r, ops, stream) && r.reader.Reading? && n <= |r.pipe.bytes| && |r.reader.buffer| + n <= c.limit + 1
    ensures Accounted(c, Drained(r, n), ops, stream)
  {
    assert r.reader.buffer + r.pipe.bytes[..n] + r.pipe.bytes[n..] == r.reader.buffer + r.pipe.bytes;
  }

  lemma ChildKeeps(c: Setup, s: State)
    requires Inv(c, s) && s.outcome.None? && ChildCanRun(c, s) && s.ops != []
    ensures Inv(c, ChildStep(s))
  {
    ChildKeepsStream(c, s.stdout, s.ops, Stdout);
    ChildKeepsStream(c, s.stderr, s.ops, Stderr);
    if s.stdin.bytes != [] {
      assert s.consumed + [s.stdin.bytes[0]] + s.stdin.bytes[1..] == s.consumed + s.stdin.bytes;
    }
  }

  lemma ExitKeeps(c: Setup, s: State)
    requires Inv(c, s) && s.outcome.None? && s.running && s.ops == []
    ensures Inv(c, ChildExit(s))
  {
  }

  lemma FeedKeeps(c: Setup, s: State, n: nat)
    requires Inv(c, s) && Enabled(c, s, FeedSome(n))
    ensures Inv(c, Step(c, s, FeedSome(n)))
  {
    assert s.consumed + (s.stdin.bytes + s.feed.rest[..n]) + s.feed.rest[n..] == s.consumed + s.stdin.bytes + s.feed.rest;
  }

  lemma ReaderKeeps(c: Setup, s: State, stream: Stream, r: Capture)
    requires Inv(c, s) && s.outcome.None? && Of(s, stream).reader.Reading?
    requires Accounted(c, r, s.ops, stream) && r.pipe.writer == Of(s, stream).pipe.writer
    ensures Inv(c, With(s, stream, r))
  {
  }

  lemma StepKeeps(c: Setup, s: State, e: Event)
    requires Inv(c, s) && Enabled(c, s, e)
    ensures Inv(c, Step(c, s, e))
  {
    match e
    case Child => if s.ops == [] { ExitKeeps(c, s); } else { ChildKeeps(c, s); }
    case FeedSome(n) => FeedKeeps(c, s, n);
    case Drain(stream, n) =>
      DrainKeepsStream(c, Of(s, stream), s.ops, stream, n);
      ReaderKeeps(c, s, stream, Drained(Of(s, stream), n));
    case Ends(stream) => ReaderKeeps(c, s, stream, Of(s, stream).(reader := Returned(Of(s, stream).reader.buffer)));
    case _ =>
  }

  lemma {:induction false} RunKeeps(c: Setup, es: seq<Event>)
    requires Run(c, es).Some?
    ensures Inv(c, Run(c, es).value)
  {
    if es == [] {
      assert [] + [] + Written(c.program, Stdout) == Written(c.program, Stdout);
      assert [] + [] + Written(c.program, Stderr) == Written(c.program, Stderr);
    } else {
      RunKeeps(c, es[..|es| - 1]);
      StepKeeps(c, Run(c, es[..|es| - 1]).value, es[|es| - 1]);
    }
  }

  /**
   What a run captures depends on the child alone, not on the schedule: a finished run captured exactly the
   bytes the child wrote, within the limit; a refused one names a stream the child really overran. At no
   point is more than one byte past the limit buffered. A finished run waited for the child, and says that its
   stdin failed exactly when part of the payload was never written, the child having closed its end.
   */
  lemma CaptureIsExact(c: Setup, es: seq<Event>)
    requires Run(c, es).Some?
    ensures var s := Run(c, es).value;
            && |s.stdout.reader.buffer| <= c.limit + 1 && |s.stderr.reader.buffer| <= c.limit + 1
            && (s.outcome.Some? && s.outcome.value.Finished? ==>
                  && s.outcome.value.status == c.status
                  && s.outcome.value.stdout == Written(c.program, Stdout)
                  && s.outcome.value.stderr == Written(c.program, Stderr)
                  && |Written(c.program, Stdout)| <= c.limit && |Written(c.program, Stderr)| <= c.limit)
            && (s.outcome.Some? && s.outcome.value.Finished? ==>
                  && s.waited && !s.running
                  && (s.outcome.value.stdinFailed <==> s.consumed + s.stdin.bytes != Payload(c))
                  && (s.outcome.value.stdinFailed ==> !s.stdin.reader))
            && (s.outcome.Some? && s.outcome.value.OutputTooLarge? ==>
                  |Written(c.program, s.outcome.value.stream)| > c.limit)
            && s.consumed + s.stdin.bytes <= Payload(c)
  {
    RunKeeps(c, es);
  }

  lemma {:induction false} FeedEndsAs(c: Setup, s: State, e: Event)
    requires Enabled(c, s, e)
    ensures Step(c, s, e).feed == Fed(true) <==> s.feed == Fed(true) || e == FeedFails
    ensures s.feed.Fed? ==> Step(c, s, e).feed == s.feed
  {
  }

  /** Feeding stdin has failed if and only if a write of it did. */
  lemma {:induction false} FeedFailedIff(c: Setup, es: seq<Event>)
    requires Run(c, es).Some?
    ensures Run(c, es).value.feed == Fed(true) <==> FeedFails in es
  {
    if es != [] {
      FeedFailedIff(c, es[..|es| - 1]);
      FeedEndsAs(c, Run(c, es[..|es| - 1]).value, es[|es| - 1]);
      assert es == es[..|es| - 1] + [es[|es| - 1]];
    }
  }

  /** So a finished run reports a stdin failure if and only if a write failed along it. */
  lemma {:induction false} StdinFailureIsReported(c: Setup, es: seq<Event>)
    requires Run(c, es).Some? && Run(c, es).value.outcome.Some? && Run(c, es).value.outcome.value.Finished?
    ensures Run(c, es).value.outcome.value.stdinFailed <==> FeedFails in es
    ensures FeedFails !in es ==> Run(c, es).value.consumed + Run(c, es).value.stdin.bytes == Payload(c)
  {
    RunKeeps(c, es);
    FeedFailedIff(c, es);
  }

  // ---------------------------------------------------------------------------------------------
  // What the child reads

  /** How many bytes a program asks for, up to where it closes its stdin. */
  function Asked(ops: seq<Op>): nat {
    if ops == [] || ops[0] == ShutStdin then 0 else (if ops[0] == Get then 1 else 0) + Asked(ops[1..])
  }

  function Min(a: nat, b: nat): nat { if a < b then a else b }

  /** What was read and what is still asked for make up what the program asks for, as far as the payload goes. */
  predicate ReadAsAsked(c: Setup, s: State) {
    Min(|s.consumed| + (if s.stdin.reader then Asked(s.ops) else 0), |Payload(c)|) == Min(Asked(c.program), |Payload(c)|)
  }

  lemma {:induction false} ChildReadsAsAsked(c: Setup, s: State)
    requires Inv(c, s) && ReadAsAsked(c, s) && s.outcome.None? && ChildCanRun(c, s) && s.ops != []
    ensures ReadAsAsked(c, ChildStep(s))
  {
    if s.ops[0] == Get && s.stdin.reader && s.stdin.bytes == [] {
      // The end of the input: all of it was fed, so all of it was read.
      assert s.consumed == s.consumed + s.stdin.bytes == Payload(c);
    }
  }

  lemma {:induction false} StepReadsAsAsked(c: Setup, s: State, e: Event)
    requires Inv(c, s) && ReadAsAsked(c, s) && Enabled(c, s, e)
    ensures ReadAsAsked(c, Step(c, s, e))
  {
    if e == Child && s.ops != [] { ChildReadsAsAsked(c, s); }
  }

  lemma {:induction false} RunReadsAsAsked(c: Setup, es: seq<Event>)
    requires Run(c, es).Some?
    ensures ReadAsAsked(c, Run(c, es).value)
  {
    if es != [] {
      RunReadsAsAsked(c, es[..|es| - 1]);
      RunKeeps(c, es[..|es| - 1]);
      StepReadsAsAsked(c, Run(c, es[..|es| - 1]).value, es[|es| - 1]);
    }
  }

  /** On every schedule a child that has ended read as many bytes as it asked for, from the front, or the whole payload. */
  lemma {:induction false} ChildReadsWhatItAsksFor(c: Setup, es: seq<Event>)
    requires Run(c, es).Some? && !Run(c, es).value.running
    ensures Run(c, es).value.consumed == Payload(c)[..Min(Asked(c.program), |Payload(c)|)]
  {
    RunKeeps(c, es);
    RunReadsAsAsked(c, es);
    var s := Run(c, es).value;
    assert s.consumed <= s.consumed + s.stdin.bytes <= Payload(c);
  }

  lemma {:induction false} ClosedStdinStays(c: Setup, s: State, e: Event)
    requires Enabled(c, s, e) && !s.stdin.reader
    ensures var s' := Step(c, s, e);
            !s'.stdin.reader && s'.stdin.bytes == s.stdin.bytes && s'.consumed == s.consumed
  {
  }

  /** Once the child has closed its stdin nothing more is fed to it. */
  lemma {:induction false} NothingFedAfterClose(c: Setup, es: seq<Event>, more: seq<Event>)
    requires Run(c, es).Some? && !Run(c, es).value.stdin.reader && Run(c, es + more).Some?
    ensures var s, s' := Run(c, es).value, Run(c, es + more).value;
            !s'.stdin.reader && s'.stdin.bytes == s.stdin.bytes && s'.consumed == s.consumed
  {
    if more == [] {
      assert es + more == es;
    } else {
      var last := |more| - 1;
      assert (es + more)[..|es + more| - 1] == es + more[..last];
      NothingFedAfterClose(c, es, more[..last]);
      ClosedStdinStays(c, Run(c, es + more[..last]).value, more[last]);
    }
  }

  // ---------------------------------------------------------------------------------------------
  // Progress without the deadline

  /** In every unfinished reachable state some future or the child can move. */
  lemma NeverDeadlocks(c: Setup, es: seq<Event>) returns (e: Event)
    requires c.capacity > 0 && Run(c, es).Some? && Run(c, es).value.outcome.None?
    ensures e != Deadline && Enabled(c, Run(c, es).value, e)
  {
    RunKeeps(c, es);
    var s := Run(c, es).value;
    if ChildCanRun(c, s) {
      e := Child;
    } else if s.running && s.ops[0].Put? {
      // Blocked on a full pipe: it is not empty, so its reader can take something or has taken too much.
      var r := Of(s, s.ops[0].stream);
      e := if |r.reader.buffer| > c.limit then Overflows(s.ops[0].stream) else Drain(s.ops[0].stream, 1);
    } else if s.running {
      // Blocked on an empty stdin that is still open: the feed has more to write or has to close it.
      e := if s.feed.rest == [] then FeedEnds else FeedSome(1);
    } else if !s.waited {
      e := Reap;
    } else if s.feed.Feeding? {
      e := if s.feed.rest == [] then FeedEnds else FeedFails;
    } else if s.stdout.reader.Reading? {
      e := ReaderMoves(c, s, Stdout);
    } else if s.stderr.reader.Reading? {
      e := ReaderMoves(c, s, Stderr);
    } else {
      e := Join;
    }
  }

  /** Once the child has gone, a reader drains what is left, sees the end, or has too much. */
  function ReaderMoves(c: Setup, s: State, stream: Stream): (e: Event)
    requires s.outcome.None? && Of(s, stream).reader.Reading? && !Of(s, stream).pipe.writer
    ensures e != Deadline && Enabled(c, s, e)
  {
    var r := Of(s, stream);
    if |r.reader.buffer| > c.limit then Overflows(stream)
    else if r.pipe.bytes == [] then Ends(stream)
    else Drain(stream, 1)
  }

  function Flag(b: bool): nat { if b then 1 else 0 }

  function Work(r: Capture): nat { |r.pipe.bytes| + Flag(r.reader.Reading?) }

  /** An upper bound on the steps left before the outcome. */
  function Remaining(s: State): nat {
    3 * |s.ops| + Flag(s.running) + Flag(!s.waited) + Work(s.stdout) + Work(s.stderr)
    + |s.stdin.bytes| + (if s.feed.Feeding? then 3 * |s.feed.rest| + 1 else 0) + Flag(s.outcome.None?)
  }

  lemma ChildRunsOut(s: State)
    requires s.ops != []
    ensures Remaining(ChildStep(s)) < Remaining(s)
  {
  }

  lemma ReaderRunsOut(s: State, stream: Stream, r: Capture)
    requires Work(r) < Work(Of(s, stream))
    ensures Remaining(With(s, stream, r)) < Remaining(s)
  {
  }

  lemma StepsRunOut(c: Setup, s: State, e: Event)
    requires Enabled(c, s, e)
    ensures Remaining(Step(c, s, e)) < Remaining(s)
  {
    match e
    case Child => if s.ops != [] { ChildRunsOut(s); }
    case Drain(stream, n) => ReaderRunsOut(s, stream, Drained(Of(s, stream), n));
    case Ends(stream) => ReaderRunsOut(s, stream, Of(s, stream).(reader := Returned(Of(s, stream).reader.buffer)));
    case _ =>
  }

  /** Every run is finite, and so, by `NeverDeadlocks`, one that does not hit its deadline reaches an outcome. */
  lemma {:induction false} RunsAreFinite(c: Setup, es: seq<Event>)
    requires Run(c, es).Some?
    ensures |es| + Remaining(Run(c, es).value) <= Remaining(Start(c))
  {
    if es != [] {
      RunsAreFinite(c, es[..|es| - 1]);
      StepsRunOut(c, Run(c, es[..|es| - 1]).value, es[|es| - 1]);
    }
  }

  /** The run is over, and it is `Finished` exactly when the child's output fits on both streams. */
  predicate Concluded(c: Setup, s: State) {
    && s.outcome.Some?
    && (s.outcome.value.Finished? <==> |Written(c.program, Stdout)| <= c.limit && |Written(c.program, Stderr)| <= c.limit)
  }

  lemma OutcomeOf(c: Setup, es: seq<Event>)
    requires Run(c, es).Some? && Deadline !in es && Run(c, es).value.outcome.Some?
    ensures Concluded(c, Run(c, es).value)
  {
    CaptureIsExact(c, es);
    NoDeadlineNoTimeout(c, es);
  }

  /**
   From every reachable state the joined futures can carry the run to an outcome without its deadline, and
   that outcome is `Finished` exactly when the child's output fits on both streams.
   */
  lemma {:induction false} ReachesOutcome(c: Setup, es: seq<Event>) returns (more: seq<Event>)
    requires c.capacity > 0 && Run(c, es).Some? && Deadline !in es
    ensures Deadline !in more && Run(c, es + more).Some? && Concluded(c, Run(c, es + more).value)
    decreases Remaining(Run(c, es).value)
  {
    if Run(c, es).value.outcome.Some? {
      OutcomeOf(c, es);
      Glue(es, [], []);
      more := [];
    } else {
      var e := NextStep(c, es);
      var rest := ReachesOutcome(c, es + [e]);
      Glue(es, [e], rest);
      more := [e] + rest;
    }
  }

  lemma {:induction false} Glue(a: seq<Event>, b: seq<Event>, c: seq<Event>)
    ensures a + (b + c) == a + b + c && a + [] == a
    ensures Deadline !in b && Deadline !in c ==> Deadline !in b + c
  {
  }

  lemma {:induction false} NextStep(c: Setup, es: seq<Event>) returns (e: Event)
    requires c.capacity > 0 && Run(c, es).Some? && Run(c, es).value.outcome.None?
    ensures e != Deadline && Run(c, es + [e]).Some?
    ensures Remaining(Run(c, es + [e]).value) < Remaining(Run(c, es).value)
  {
    e := NeverDeadlocks(c, es);
    RunExtends(c, es, e);
    StepsRunOut(c, Run(c, es).value, e);
  }

  lemma RunExtends(c: Setup, es: seq<Event>, e: Event)
    requires Run(c, es).Some? && Enabled(c, Run(c, es).value, e)
    ensures Run(c, es + [e]) == Some(Step(c, Run(c, es).value, e))
  {
  }

  lemma {:induction false} NoDeadlineNoTimeout(c: Setup, es: seq<Event>)
    requires Run(c, es).Some? && Deadline !in es
    ensures Run(c, es).value.outcome != Some(Timeout)
  {
    if es != [] {
      NoDeadlineNoTimeout(c, es[..|es| - 1]);
      OnlyTheDeadlineTimesOut(c, Run(c, es[..|es| - 1]).value, es[|es| - 1]);
    }
  }

  /** A run times out if and only if the deadline passes before its outcome, which it can at any moment. */
  lemma {:induction false} TimesOutIffDeadline(c: Setup, es: seq<Event>)
    requires Run(c, es).Some?
    ensures Run(c, es).value.outcome == Some(Timeout) <==> Deadline in es
    ensures Run(c, es).value.outcome.None? ==> Run(c, es + [Deadline]).Some?
  {
    assert (es + [Deadline])[..|es|] == es;
    if es != [] {
      var init, last := es[..|es| - 1], es[|es| - 1];
      TimesOutIffDeadline(c, init);
      if last != Deadline { OnlyTheDeadlineTimesOut(c, Run(c, init).value, last); }
      assert es == init + [last];
    }
  }

  lemma {:induction false} OnlyTheDeadlineTimesOut(c: Setup, s: State, e: Event)
    requires Enabled(c, s, e) && e != Deadline && s.outcome != Some(Timeout)
    ensures Step(c, s, e).outcome != Some(Timeout)
  {
  }

  // ---------------------------------------------------------------------------------------------
  // Why the child is not waited for first

  /** The same steps with the pipes read only after the child has been waited for. */
  predicate EnabledWaitingFirst(c: Setup, s: State, e: Event) {
    Enabled(c, s, e) && (e.Drain? || e.Ends? || e.Overflows? ==> s.waited)
  }

  function Times(n: nat): (es: seq<Event>)
    ensures |es| == n && forall i :: 0 <= i < n ==> es[i] == Child
  {
    if n == 0 then [] else Times(n - 1) + [Child]
  }

  /** A child that starts with `n` writes to stdout has, after `n` steps nobody answers, `n` bytes in its pipe. */
  lemma {:induction false} Unread(c: Setup, n: nat)
    requires n <= c.capacity && n < |c.program| && c.payload.None?
    requires forall i :: 0 <= i <= n ==> c.program[i].Put? && c.program[i].stream == Stdout
    ensures Run(c, Times(n)).Some?
    ensures var s := Run(c, Times(n)).value;
            && s == Start(c).(ops := c.program[n..], stdout := s.stdout)
            && |s.stdout.pipe.bytes| == n && s.stdout.pipe.writer && s.stdout.reader == Reading([])
  {
    if n > 0 {
      Unread(c, n - 1);
      OneMoreUnread(c, Run(c, Times(n - 1)).value, n - 1);
      RunExtends(c, Times(n - 1), Child);
    }
  }

  lemma {:induction false} OneMoreUnread(c: Setup, s: State, n: nat)
    requires n < c.capacity && n < |c.program| && c.program[n].Put? && c.program[n].stream == Stdout
    requires s == Start(c).(ops := c.program[n..], stdout := s.stdout)
    requires |s.stdout.pipe.bytes| == n && s.stdout.pipe.writer && s.stdout.reader == Reading([])
    ensures Enabled(c, s, Child)
    ensures var s' := Step(c, s, Child);
            && s' == Start(c).(ops := c.program[n + 1..], stdout := s'.stdout)
            && |s'.stdout.pipe.bytes| == n + 1 && s'.stdout.pipe.writer && s'.stdout.reader == Reading([])
  {
    assert s.ops[0] == c.program[n] && s.ops[1..] == c.program[n + 1..];
  }

  /** Waiting first leaves a child that writes more than a pipe holds with nothing but its deadline. */
  lemma WaitingFirstDeadlocks(c: Setup, e: Event)
    requires c.capacity < |c.program| && c.payload.None?
    requires forall i :: 0 <= i <= c.capacity ==> c.program[i].Put? && c.program[i].stream == Stdout
    ensures Run(c, Times(c.capacity)).Some?
    ensures EnabledWaitingFirst(c, Run(c, Times(c.capacity)).value, e) ==> e == Deadline
  {
    Unread(c, c.capacity);
  }

  // ---------------------------------------------------------------------------------------------
  // Reading one pipe

  function Flatten(chunks: seq<seq<byte>>): seq<byte> {
    if chunks == [] then [] else chunks[0] + Flatten(chunks[1..])
  }

  /**
   `read_capped`, given the pieces the pipe hands out until it ends. Taking one byte more than the limit is
   what tells output exactly at the limit from output past it.
   */
  method ReadCapped(chunks: seq<seq<byte>>, limit: nat) returns (r: Result<seq<byte>, nat>)
    ensures |Flatten(chunks)| <= limit ==> r == Ok(Flatten(chunks))
    ensures |Flatten(chunks)| > limit ==> r == Err(limit)
  {
    var buffer: seq<byte> := [];
    var i := 0;
    assert chunks[0..] == chunks && [] + Flatten(chunks) == Flatten(chunks);
    while i < |chunks| && |buffer| < limit + 1
      invariant 0 <= i <= |chunks| && |buffer| <= limit + 1
      invariant if |buffer| <= limit then buffer + Flatten(chunks[i..]) == Flatten(chunks) else |Flatten(chunks)| > limit
    {
      var room := limit + 1 - |buffer|;
      assert chunks[i..][1..] == chunks[i + 1..];
      assert buffer + Flatten(chunks[i..]) == buffer + chunks[i] + Flatten(chunks[i + 1..]);
      buffer := buffer + if |chunks[i]| <= room then chunks[i] else chunks[i][..room];
      i := i + 1;
    }
    if |buffer| > limit {
      return Err(limit);
    }
    assert chunks[i..] == [] && buffer + [] == buffer;
    return Ok(buffer);
  }
}
