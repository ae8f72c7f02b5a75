/**
 The accept loop of one role's listener (crates/net/src/listener.rs).

 The shared state of the accept task, the handshake tasks it spawns, the `ListenerHandle` and the
 `RoleListener` is one `State`; everything that can happen next is an `Event`. One poll of the biased
 `select!` is one event. `log` is history: it records what was sent, published, accepted, delivered and
 dropped, and no event reads it.
 */
module Listener {
  import opened Prelude

  const MAX_PENDING_CONNECTIONS: nat := 256

  /** The address reported before anything is bound, `0.0.0.0:0`. */
  const UNBOUND: nat := 0

  type Acceptor = nat
  type Address = nat

  /** A bound TCP listener; `addr` is `None` when its `local_addr()` fails. */
  datatype Socket = Socket(fd: nat, addr: Option<Address>)

  datatype Command = Serve(socket: Socket) | Close

  datatype MaybeTls = Plain | Tls(acceptor: Acceptor)

  /** A connection ready for `axum`: which accepted connection it is, its stream and its peer. */
  datatype Ready = Ready(conn: nat, io: MaybeTls, peer: Address)

  /** A spawned handshake; it owns the permit reserved before its connection was accepted. */
  datatype Handshake = Handshake(acceptor: Acceptor, peer: Address)

  /** Where the accept task is suspended. `Polling` and `Backoff` hold a permit. */
  datatype Phase = Top | Reserving | Polling | Backoff | Parked | Ended

  /** What was true when a connection was accepted: the socket, and how many commands and TLS modes existed. */
  datatype Accepted = Accepted(socket: Socket, peer: Address, sentAt: nat, modeAt: nat)

  datatype History = History(
    initial: Option<Socket>,
    sent: seq<Command>,
    applied: nat,
    modes: seq<Option<Acceptor>>,
    accepted: seq<Accepted>,
    delivered: seq<Ready>,
    dropped: seq<nat>)

  datatype State = State(
    phase: Phase,
    current: Option<Socket>,
    commands: Option<seq<Command>>,
    handleAlive: bool,
    free: nat,
    queue: seq<Ready>,
    listenerAlive: bool,
    handshakes: map<nat, Handshake>,
    tls: Option<Acceptor>,
    bound: Address,
    boundVersion: nat,
    localAddr: Address,
    seenVersion: nat,
    log: History)

  datatype Event =
    | Send(command: Command)
    | SetTls(mode: Option<Acceptor>)
    | DropHandle
    | DropListener
    | LoopTop
    | Reserve
    | Unpark
    | TakeCommand
    | CommandsClosed
    | Accept(peer: Address)
    | AcceptFails
    | BackoffOver
    | HandshakeDone(conn: nat)
    | HandshakeFails(conn: nat)
    | HandshakeTimesOut(conn: nat)
    | Receive

  function FirstAddress(initial: Option<Socket>): Address {
    if initial.Some? && initial.value.addr.Some? then initial.value.addr.value else UNBOUND
  }

  /** What `spawn` builds. */
  function Spawn(initial: Option<Socket>, tls: Option<Acceptor>): State {
    State(Top, initial, Some([]), true, MAX_PENDING_CONNECTIONS, [], true, map[], tls,
          FirstAddress(initial), 0, FirstAddress(initial), 0,
          History(initial, [], 0, [tls], [], [], []))
  }

  /** The biased `select!` reaches its accept arm: a socket, and no command to take and no closed channel. */
  predicate CanAccept(s: State) {
    && s.phase == Polling
    && s.current.Some?
    && (s.commands.None? || (s.commands.value == [] && s.handleAlive))
  }

  predicate Enabled(s: State, e: Event) {
    match e
    case Send(_) => s.handleAlive
    case SetTls(_) => s.handleAlive
    case DropHandle => s.handleAlive
    case DropListener => s.listenerAlive
    case LoopTop => s.phase == Top
    case Reserve => s.phase == Reserving && (!s.listenerAlive || s.free > 0)
    case Unpark => s.phase == Parked && !s.listenerAlive
    case TakeCommand => s.phase == Polling && s.commands.Some? && s.commands.value != []
    case CommandsClosed => s.phase == Polling && s.commands == Some([]) && !s.handleAlive
    case Accept(_) => CanAccept(s)
    case AcceptFails => CanAccept(s)
    case BackoffOver => s.phase == Backoff
    case HandshakeDone(c) => c in s.handshakes
    case HandshakeFails(c) => c in s.handshakes
    case HandshakeTimesOut(c) => c in s.handshakes
    case Receive => s.listenerAlive && s.queue != []
  }

  /** `apply`: the served socket after one command. */
  function Served(current: Option<Socket>, command: Command): Option<Socket> {
    match command
    case Serve(socket) => Some(socket)
    case Close => None
  }

  /** `apply`: a `Serve` whose address cannot be read leaves the published one alone. */
  predicate Publishes(command: Command) {
    command.Serve? && command.socket.addr.Some?
  }

  function ApplyHead(s: State): State
    requires s.commands.Some? && s.commands.value != []
  {
    var c := s.commands.value[0];
    s.(phase := Top,
       free := s.free + 1,
       current := Served(s.current, c),
       commands := Some(s.commands.value[1..]),
       bound := if Publishes(c) then c.socket.addr.value else s.bound,
       boundVersion := if Publishes(c) then s.boundVersion + 1 else s.boundVersion,
       log := s.log.(applied := s.log.applied + 1))
  }

  /** The rest of a pass that accepted: the TLS mode is read here, then the permit moves with the connection. */
  function AcceptConnection(s: State, peer: Address): State
    requires s.current.Some?
  {
    var conn := |s.log.accepted|;
    var logged := s.log.(accepted := s.log.accepted +
                                     [Accepted(s.current.value, peer, |s.log.sent|, |s.log.modes|)]);
    match s.tls
    case None => s.(phase := Top, queue := s.queue + [Ready(conn, Plain, peer)], log := logged)
    case Some(acceptor) => s.(phase := Top, handshakes := s.handshakes[conn := Handshake(acceptor, peer)], log := logged)
  }

  function DropHandshake(s: State, conn: nat): State {
    s.(handshakes := s.handshakes - {conn},
       free := s.free + 1,
       log := s.log.(dropped := s.log.dropped + [conn]))
  }

  function Ids(q: seq<Ready>): (ids: seq<nat>)
    ensures |ids| == |q|
    ensures forall i :: 0 <= i < |q| ==> ids[i] == q[i].conn
  {
    seq(|q|, i requires 0 <= i < |q| => q[i].conn)
  }

  /** `RoleListener::accept`; `has_changed` is an error, read as false, once the accept task's sender is gone. */
  function Deliver(s: State): State
    requires s.queue != []
  {
    var changed := s.phase != Ended && s.boundVersion != s.seenVersion;
    s.(queue := s.queue[1..],
       free := s.free + 1,
       localAddr := if changed then s.bound else s.localAddr,
       seenVersion := if changed then s.boundVersion else s.seenVersion,
       log := s.log.(delivered := s.log.delivered + [s.queue[0]]))
  }

  function Step(s: State, e: Event): State
    requires Enabled(s, e)
  {
    match e
    case Send(c) =>
      s.(commands := if s.commands.Some? then Some(s.commands.value + [c]) else None,
         log := s.log.(sent := s.log.sent + [c]))
    case SetTls(m) => s.(tls := m, log := s.log.(modes := s.log.modes + [m]))
    case DropHandle => s.(handleAlive := false)
    case DropListener =>
      s.(listenerAlive := false, free := s.free + |s.queue|, queue := [],
         log := s.log.(dropped := s.log.dropped + Ids(s.queue)))
    case LoopTop => s.(phase := if s.current.None? && s.commands.None? then Parked else Reserving)
    case Reserve =>
      if !s.listenerAlive then s.(phase := Ended) else s.(phase := Polling, free := s.free - 1)
    case Unpark => s.(phase := Ended)
    case TakeCommand => ApplyHead(s)
    case CommandsClosed => s.(phase := Top, free := s.free + 1, commands := None)
    case Accept(peer) => AcceptConnection(s, peer)
    case AcceptFails => s.(phase := Backoff)
    case BackoffOver => s.(phase := Top, free := s.free + 1)
    case HandshakeDone(c) =>
      s.(handshakes := s.handshakes - {c},
         queue := s.queue + [Ready(c, Tls(s.handshakes[c].acceptor), s.handshakes[c].peer)])
    case HandshakeFails(c) => DropHandshake(s, c)
    case HandshakeTimesOut(c) => DropHandshake(s, c)
    case Receive => Deliver(s)
  }

  /** The state after a sequence of events, or `None` when one of them was not enabled. */
  function Run(s: State, es: seq<Event>): Option<State> {
    if es == [] then Some(s)
    else
      var before := Run(s, es[..|es| - 1]);
      var e := es[|es| - 1];
      if before.Some? && Enabled(before.value, e) then Some(Step(before.value, e)) else None
  }

  lemma {:induction false} RunExtends(s: State, es: seq<Event>, e: Event)
    requires Run(s, es).Some? && Enabled(Run(s, es).value, e)
    ensures Run(s, es + [e]) == Some(Step(Run(s, es).value, e))
  {
    assert (es + [e])[..|es|] == es;
  }

  // ---------------------------------------------------------------------------------------------
  // Permits

  function Held(s: State): nat {
    if s.phase == Polling || s.phase == Backoff then 1 else 0
  }

  predicate Conserved(s: State) {
    s.free + Held(s) + |s.handshakes| + |s.queue| == MAX_PENDING_CONNECTIONS
  }

  /** Handshake ids are connections that were accepted, so a new connection never replaces one. */
  predicate KnownHandshakes(s: State) {
    forall c :: c in s.handshakes ==> c < |s.log.accepted|
  }

  lemma RemoveOne(m: map<nat, Handshake>, c: nat)
    requires c in m
    ensures |m - {c}| == |m| - 1
  {
  }

  lemma AddOne(m: map<nat, Handshake>, c: nat, h: Handshake)
    requires c !in m
    ensures |m[c := h]| == |m| + 1
  {
  }

  lemma HandshakesConserve(s: State, e: Event)
    requires Conserved(s) && KnownHandshakes(s) && Enabled(s, e)
    requires e.HandshakeDone? || e.HandshakeFails? || e.HandshakeTimesOut?
    ensures Conserved(Step(s, e)) && KnownHandshakes(Step(s, e))
  {
    RemoveOne(s.handshakes, e.conn);
  }

  lemma AcceptConserves(s: State, peer: Address)
    requires Conserved(s) && KnownHandshakes(s) && s.phase == Polling && s.current.Some?
    ensures Conserved(AcceptConnection(s, peer)) && KnownHandshakes(AcceptConnection(s, peer))
  {
    if s.tls.Some? {
      AddOne(s.handshakes, |s.log.accepted|, Handshake(s.tls.value, peer));
    }
  }

  lemma OthersConserve(s: State, e: Event)
    requires Conserved(s) && KnownHandshakes(s) && Enabled(s, e)
    requires !e.HandshakeDone? && !e.HandshakeFails? && !e.HandshakeTimesOut? && !e.Accept?
    ensures Conserved(Step(s, e)) && KnownHandshakes(Step(s, e))
  {
  }

  lemma StepConserves(s: State, e: Event)
    requires Conserved(s) && KnownHandshakes(s) && Enabled(s, e)
    ensures Conserved(Step(s, e)) && KnownHandshakes(Step(s, e))
  {
    match e
    case Accept(peer) => AcceptConserves(s, peer);
    case HandshakeDone(_) => HandshakesConserve(s, e);
    case HandshakeFails(_) => HandshakesConserve(s, e);
    case HandshakeTimesOut(_) => HandshakesConserve(s, e);
    case _ => OthersConserve(s, e);
  }

  /**
   Backpressure: in every reachable state the free slots, the loop's own permit, the handshakes in flight
   and the connections queued for `axum` add up to the channel's capacity.
   */
  lemma {:induction false} PermitsConserved(initial: Option<Socket>, tls: Option<Acceptor>, es: seq<Event>)
    requires Run(Spawn(initial, tls), es).Some?
    ensures var s := Run(Spawn(initial, tls), es).value;
            Conserved(s) && KnownHandshakes(s) && |s.handshakes| + |s.queue| <= MAX_PENDING_CONNECTIONS
  {
    if es != [] {
      PermitsConserved(initial, tls, es[..|es| - 1]);
      StepConserves(Run(Spawn(initial, tls), es[..|es| - 1]).value, es[|es| - 1]);
    }
  }

  // ---------------------------------------------------------------------------------------------
  // Sockets and commands

  /** The socket a role serves once `cs` have all been applied, in order. */
  function ServedAfter(initial: Option<Socket>, cs: seq<Command>): Option<Socket> {
    if cs == [] then initial else Served(ServedAfter(initial, cs[..|cs| - 1]), cs[|cs| - 1])
  }

  /** The address published once `cs` have all been applied: that of the last `Serve` whose address is readable. */
  function AddressAfter(initial: Option<Socket>, cs: seq<Command>): Address {
    if cs == [] then FirstAddress(initial)
    else if Publishes(cs[|cs| - 1]) then cs[|cs| - 1].socket.addr.value
    else AddressAfter(initial, cs[..|cs| - 1])
  }

  /**
   While the accept task runs, what it serves and publishes is the fold of the commands applied so far, the
   rest are still queued in the order they were sent, and the command channel is given up only once every
   command has been applied.
   */
  predicate InCommandOrder(s: State) {
    && s.log.applied <= |s.log.sent|
    && s.current == ServedAfter(s.log.initial, s.log.sent[..s.log.applied])
    && s.bound == AddressAfter(s.log.initial, s.log.sent[..s.log.applied])
    && (s.commands.Some? ==> s.commands.value == s.log.sent[s.log.applied..])
    && (s.commands.None? ==> !s.handleAlive && s.log.applied == |s.log.sent|)
  }

  /** Every connection came from the socket that all commands sent before its accept lead to. */
  predicate AcceptedOnNewestSocket(s: State) {
    forall i :: 0 <= i < |s.log.accepted| ==>
      && s.log.accepted[i].sentAt <= |s.log.sent|
      && ServedAfter(s.log.initial, s.log.sent[..s.log.accepted[i].sentAt]) == Some(s.log.accepted[i].socket)
  }

  /** The address published is that of the last command to serve a socket with a readable address, or the first one. */
  lemma {:induction false} LastReadableAddress(initial: Option<Socket>, cs: seq<Command>, i: int)
    requires -1 <= i < |cs|
    requires forall j :: i < j < |cs| ==> cs[j].Close? || cs[j].socket.addr.None?
    requires i >= 0 ==> cs[i].Serve? && cs[i].socket.addr.Some?
    ensures AddressAfter(initial, cs)
         == if i >= 0 then cs[i].socket.addr.value
            else if initial.Some? && initial.value.addr.Some? then initial.value.addr.value else UNBOUND
  {
    if i < |cs| - 1 {
      assert !Publishes(cs[|cs| - 1]);
      LastReadableAddress(initial, cs[..|cs| - 1], i);
    }
  }

  lemma ApplyExtendsFold(s: State)
    requires InCommandOrder(s) && Enabled(s, TakeCommand)
    ensures InCommandOrder(ApplyHead(s))
  {
    var a := s.log.applied;
    assert s.commands.value[0] == s.log.sent[a];
    assert s.log.sent[..a + 1][..a] == s.log.sent[..a];
    assert s.commands.value[1..] == s.log.sent[a + 1..];
  }

  lemma SendKeepsPrefixes(sent: seq<Command>, c: Command, n: nat)
    requires n <= |sent|
    ensures (sent + [c])[..n] == sent[..n]
    ensures (sent + [c])[n..] == sent[n..] + [c]
  {
  }

  lemma StepKeepsCommandOrder(s: State, e: Event)
    requires InCommandOrder(s) && Enabled(s, e)
    ensures InCommandOrder(Step(s, e))
  {
    match e
    case Send(c) => SendKeepsPrefixes(s.log.sent, c, s.log.applied);
    case TakeCommand => ApplyExtendsFold(s);
    case _ =>
  }

  lemma StepKeepsAccepts(s: State, e: Event)
    requires InCommandOrder(s) && AcceptedOnNewestSocket(s) && Enabled(s, e)
    ensures AcceptedOnNewestSocket(Step(s, e))
  {
    match e
    case Send(c) =>
      forall i | 0 <= i < |s.log.accepted|
        ensures (s.log.sent + [c])[..s.log.accepted[i].sentAt] == s.log.sent[..s.log.accepted[i].sentAt]
      {
        SendKeepsPrefixes(s.log.sent, c, s.log.accepted[i].sentAt);
      }
    case Accept(peer) =>
      assert s.log.applied == |s.log.sent|;
      assert s.log.sent[..|s.log.sent|] == s.log.sent[..s.log.applied];
    case _ =>
  }

  /**
   The served socket is always the fold of a prefix of the commands in send order, no command is ever
   lost while the loop runs, and no connection is accepted on a socket that a command already sent replaces
   or closes, not even one still waiting in the channel.
   */
  lemma {:induction false} SocketsFollowCommands(initial: Option<Socket>, tls: Option<Acceptor>, es: seq<Event>)
    requires Run(Spawn(initial, tls), es).Some?
    ensures var s := Run(Spawn(initial, tls), es).value;
            && s.log.initial == initial
            && InCommandOrder(s)
            && AcceptedOnNewestSocket(s)
  {
    if es != [] {
      SocketsFollowCommands(initial, tls, es[..|es| - 1]);
      var s := Run(Spawn(initial, tls), es[..|es| - 1]).value;
      StepKeepsCommandOrder(s, es[|es| - 1]);
      StepKeepsAccepts(s, es[|es| - 1]);
    }
  }

  // ---------------------------------------------------------------------------------------------
  // What becomes of a connection

  function Upto(n: nat): (ids: set<nat>)
    ensures forall i: nat :: i in ids <==> i < n
  {
    if n == 0 then {} else Upto(n - 1) + {n - 1}
  }

  /**
   Every accepted connection is in exactly one place, once: in a handshake, queued for `axum`, delivered,
   or dropped.
   */
  predicate OneFate(s: State) {
    multiset(s.handshakes.Keys) + multiset(Ids(s.queue)) + multiset(Ids(s.log.delivered)) + multiset(s.log.dropped)
    == multiset(Upto(|s.log.accepted|))
  }

  lemma HandshakeLeaves(m: map<nat, Handshake>, c: nat)
    requires c in m
    ensures multiset(m.Keys) == multiset((m - {c}).Keys) + multiset{c}
  {
  }

  lemma QueueGrows(q: seq<Ready>, r: Ready)
    ensures multiset(Ids(q + [r])) == multiset(Ids(q)) + multiset{r.conn}
  {
    assert Ids(q + [r]) == Ids(q) + [r.conn];
  }

  lemma QueueShrinks(q: seq<Ready>)
    requires q != []
    ensures multiset(Ids(q)) == multiset{q[0].conn} + multiset(Ids(q[1..]))
  {
    assert Ids(q) == [q[0].conn] + Ids(q[1..]);
  }

  lemma UptoGrows(n: nat)
    ensures multiset(Upto(n + 1)) == multiset(Upto(n)) + multiset{n}
  {
  }

  lemma AcceptKeepsOneFate(s: State, peer: Address)
    requires OneFate(s) && KnownHandshakes(s) && s.current.Some?
    ensures OneFate(AcceptConnection(s, peer))
  {
    var n := |s.log.accepted|;
    UptoGrows(n);
    if s.tls.None? {
      QueueGrows(s.queue, Ready(n, Plain, peer));
    } else {
      var after := s.handshakes[n := Handshake(s.tls.value, peer)];
      HandshakeLeaves(after, n);
      assert (after - {n}).Keys == s.handshakes.Keys;
    }
  }

  lemma DeliverKeepsOneFate(s: State)
    requires OneFate(s) && s.queue != []
    ensures OneFate(Deliver(s))
  {
    QueueShrinks(s.queue);
    QueueGrows(s.log.delivered, s.queue[0]);
  }

  lemma StepKeepsOneFate(s: State, e: Event)
    requires OneFate(s) && KnownHandshakes(s) && Enabled(s, e)
    ensures OneFate(Step(s, e))
  {
    match e
    case DropListener => assert Ids([]) == [];
    case Accept(peer) => AcceptKeepsOneFate(s, peer);
    case HandshakeDone(c) =>
      HandshakeLeaves(s.handshakes, c);
      QueueGrows(s.queue, Ready(c, Tls(s.handshakes[c].acceptor), s.handshakes[c].peer));
    case HandshakeFails(c) => HandshakeLeaves(s.handshakes, c);
    case HandshakeTimesOut(c) => HandshakeLeaves(s.handshakes, c);
    case Receive => DeliverKeepsOneFate(s);
    case _ =>
  }

  lemma {:induction false} EveryConnectionHasOneFate(initial: Option<Socket>, tls: Option<Acceptor>, es: seq<Event>)
    requires Run(Spawn(initial, tls), es).Some?
    ensures OneFate(Run(Spawn(initial, tls), es).value)
  {
    if es != [] {
      EveryConnectionHasOneFate(initial, tls, es[..|es| - 1]);
      PermitsConserved(initial, tls, es[..|es| - 1]);
      StepKeepsOneFate(Run(Spawn(initial, tls), es[..|es| - 1]).value, es[|es| - 1]);
    }
  }

  // ---------------------------------------------------------------------------------------------
  // TLS mode and peer of a delivered connection

  /** The stream a connection accepted under `mode` is served as. */
  function Under(mode: Option<Acceptor>): MaybeTls {
    if mode.None? then Plain else Tls(mode.value)
  }

  predicate ServedAsAccepted(accepted: seq<Accepted>, modes: seq<Option<Acceptor>>, r: Ready) {
    && r.conn < |accepted|
    && 0 < accepted[r.conn].modeAt <= |modes|
    && r.io == Under(modes[accepted[r.conn].modeAt - 1])
    && r.peer == accepted[r.conn].peer
  }

  predicate ModesKept(s: State) {
    && |s.log.modes| > 0
    && s.tls == s.log.modes[|s.log.modes| - 1]
    && (forall c :: c in s.handshakes ==>
          ServedAsAccepted(s.log.accepted, s.log.modes, Ready(c, Tls(s.handshakes[c].acceptor), s.handshakes[c].peer)))
    && (forall i :: 0 <= i < |s.queue| ==> ServedAsAccepted(s.log.accepted, s.log.modes, s.queue[i]))
    && (forall i :: 0 <= i < |s.log.delivered| ==> ServedAsAccepted(s.log.accepted, s.log.modes, s.log.delivered[i]))
  }

  /** A longer history does not change what an earlier connection is owed. */
  lemma HistoryGrows(s: State, accepted: seq<Accepted>, modes: seq<Option<Acceptor>>)
    requires s.log.accepted <= accepted && s.log.modes <= modes
    ensures forall r | ServedAsAccepted(s.log.accepted, s.log.modes, r) :: ServedAsAccepted(accepted, modes, r)
  {
  }

  lemma AcceptKeepsModes(s: State, peer: Address)
    requires ModesKept(s) && s.current.Some?
    ensures ModesKept(AcceptConnection(s, peer))
  {
    HistoryGrows(s, AcceptConnection(s, peer).log.accepted, s.log.modes);
  }

  lemma StepKeepsModes(s: State, e: Event)
    requires ModesKept(s) && Enabled(s, e)
    ensures ModesKept(Step(s, e))
  {
    match e
    case SetTls(m) => HistoryGrows(s, s.log.accepted, s.log.modes + [m]);
    case Accept(peer) => AcceptKeepsModes(s, peer);
    case _ =>
  }

  /**
   A connection is delivered as plain exactly when the TLS mode read just after its accept was `None`, and
   otherwise under that same acceptor, with the peer it was accepted from, whatever is published later.
   */
  lemma {:induction false} DeliveredUnderTheModeRead(initial: Option<Socket>, tls: Option<Acceptor>, es: seq<Event>)
    requires Run(Spawn(initial, tls), es).Some?
    ensures var s := Run(Spawn(initial, tls), es).value;
            && ModesKept(s)
            && (forall i :: 0 <= i < |s.log.delivered| ==>
                  var d := s.log.delivered[i];
                  && ServedAsAccepted(s.log.accepted, s.log.modes, d)
                  && (d.io == Plain <==> s.log.modes[s.log.accepted[d.conn].modeAt - 1] == None))
  {
    if es != [] {
      DeliveredUnderTheModeRead(initial, tls, es[..|es| - 1]);
      StepKeepsModes(Run(Spawn(initial, tls), es[..|es| - 1]).value, es[|es| - 1]);
    }
  }

  // ---------------------------------------------------------------------------------------------
  // Lifetime and addresses

  /** `incoming.recv()` answers `None`: every sender is gone and nothing is queued. */
  predicate IncomingClosed(s: State) {
    s.phase == Ended && s.handshakes == map[] && s.queue == []
  }

  predicate Addressed(s: State) {
    && (s.phase == Ended ==> !s.listenerAlive)
    && (s.phase == Parked ==> s.current.None? && s.commands.None?)
    && s.seenVersion <= s.boundVersion
    && (s.seenVersion == s.boundVersion ==> s.localAddr == s.bound)
  }

  lemma StepKeepsAddressed(s: State, e: Event)
    requires Addressed(s) && Enabled(s, e)
    ensures Addressed(Step(s, e))
  {
  }

  /** The accept task ends only after its listener is dropped, so a living listener never sees `incoming` closed. */
  lemma {:induction false} TaskOutlivesListener(initial: Option<Socket>, tls: Option<Acceptor>, es: seq<Event>)
    requires Run(Spawn(initial, tls), es).Some?
    ensures var s := Run(Spawn(initial, tls), es).value;
            && Addressed(s)
            && (s.listenerAlive ==> s.phase != Ended && !IncomingClosed(s))
  {
    if es != [] {
      TaskOutlivesListener(initial, tls, es[..|es| - 1]);
      StepKeepsAddressed(Run(Spawn(initial, tls), es[..|es| - 1]).value, es[|es| - 1]);
    }
  }

  /** After `accept` returns a connection, `local_addr` is the address the applied commands last published. */
  lemma AcceptRefreshesLocalAddr(initial: Option<Socket>, tls: Option<Acceptor>, es: seq<Event>)
    requires Run(Spawn(initial, tls), es + [Receive]).Some?
    ensures var s := Run(Spawn(initial, tls), es + [Receive]).value;
            s.log.applied <= |s.log.sent| && s.localAddr == AddressAfter(initial, s.log.sent[..s.log.applied])
  {
    assert (es + [Receive])[..|es|] == es;
    TaskOutlivesListener(initial, tls, es);
    SocketsFollowCommands(initial, tls, es);
  }

  // ---------------------------------------------------------------------------------------------
  // Progress of a rebind

  predicate OfLoop(e: Event) {
    e.LoopTop? || e.Reserve? || e.Unpark? || e.TakeCommand? || e.CommandsClosed? || e.Accept? || e.AcceptFails? || e.BackoffOver?
  }

  predicate CommandPending(s: State) {
    s.commands.Some? && s.commands.value != []
  }

  /** How many steps of the accept task separate it from taking a pending command. */
  function Distance(p: Phase): nat {
    match p
    case Polling => 0
    case Reserving => 1
    case Top => 2
    case Backoff => 3
    case _ => 4
  }

  /** With a command pending the accept loop's next step either applies it or comes nearer to applying it, and accepts nothing. */
  lemma PendingCommandComesFirst(s: State, e: Event)
    requires CommandPending(s) && s.listenerAlive && Addressed(s) && Enabled(s, e) && OfLoop(e)
    ensures e == TakeCommand || Distance(Step(s, e).phase) < Distance(s.phase)
    ensures !e.Accept? && Step(s, e).log.accepted == s.log.accepted
  {
  }

  /**
   A pending rebind is held up in one way only: all slots are taken by handshakes and undelivered
   connections, and then one of those can move. Otherwise the accept task itself can.
   */
  lemma RebindIsNeverStuck(initial: Option<Socket>, tls: Option<Acceptor>, es: seq<Event>)
    returns (e: Event)
    requires Run(Spawn(initial, tls), es).Some?
    requires var s := Run(Spawn(initial, tls), es).value; CommandPending(s) && s.listenerAlive
    ensures var s := Run(Spawn(initial, tls), es).value;
            && Enabled(s, e)
            && (OfLoop(e) <==> !(s.phase == Reserving && |s.handshakes| + |s.queue| == MAX_PENDING_CONNECTIONS))
            && (!OfLoop(e) ==> e == Receive || e.HandshakeTimesOut?)
  {
    var s := Run(Spawn(initial, tls), es).value;
    TaskOutlivesListener(initial, tls, es);
    PermitsConserved(initial, tls, es);
    match s.phase
    case Top => e := LoopTop;
    case Polling => e := TakeCommand;
    case Backoff => e := BackoffOver;
    case Reserving =>
      if s.free > 0 {
        e := Reserve;
      } else if s.queue != [] {
        e := Receive;
      } else {
        assert s.handshakes != map[];
        var c :| c in s.handshakes;
        e := HandshakeTimesOut(c);
      }
  }
}
