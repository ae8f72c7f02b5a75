/**
 One role's listener as the objects the program updates in place: the accept task's locals, the bounded
 `incoming` channel, the watch cells, and the receiving side. Every method is proved to take exactly the
 step of the `Listener` transition system that its code stands for.
 */
module RoleListener {
  import opened Prelude
  import opened Listener

  /** What the kernel has for `TcpListener::accept` when it is polled. */
  datatype Arrival = Nothing | Connected(peer: Address) | Refused

  /** Which step a poll takes: a command first, then the closed command channel, then whatever the socket has. */
  function Polled(s: State, arrival: Arrival): (took: Option<Event>)
    requires s.phase == Polling
    ensures took == Some(TakeCommand) <==> CommandPending(s)
    ensures took == Some(CommandsClosed) <==> s.commands == Some([]) && !s.handleAlive
    ensures took == Some(AcceptFails) <==> CanAccept(s) && arrival == Refused
    ensures forall peer :: took == Some(Event.Accept(peer)) <==> CanAccept(s) && arrival == Connected(peer)
    ensures took.Some? ==> Enabled(s, took.value)
  {
    if CommandPending(s) then Some(TakeCommand)
    else if Enabled(s, CommandsClosed) then Some(CommandsClosed)
    else if s.current.None? then None
    else match arrival
      case Nothing => None
      case Refused => Some(AcceptFails)
      case Connected(peer) => Some(Event.Accept(peer))
  }

  lemma {:induction false} AcceptedOnNewest(initial: Option<Socket>, mode: Option<Acceptor>, es: seq<Event>, peer: Address)
    requires Run(Spawn(initial, mode), es).Some? && CanAccept(Run(Spawn(initial, mode), es).value)
    ensures var s := Run(Spawn(initial, mode), es).value; s.current == ServedAfter(initial, s.log.sent)
  {
    SocketsFollowCommands(initial, mode, es);
    var s := Run(Spawn(initial, mode), es).value;
    assert s.log.sent[..s.log.applied] == s.log.sent;
  }

  lemma {:induction false} ReceivedAsAccepted(initial: Option<Socket>, mode: Option<Acceptor>, es: seq<Event>)
    requires Run(Spawn(initial, mode), es).Some? && Enabled(Run(Spawn(initial, mode), es).value, Receive)
    ensures var s := Run(Spawn(initial, mode), es).value; ServedAsAccepted(s.log.accepted, s.log.modes, s.queue[0])
    ensures var s := Deliver(Run(Spawn(initial, mode), es).value);
            s.log.applied <= |s.log.sent| && s.localAddr == AddressAfter(initial, s.log.sent[..s.log.applied])
  {
    DeliveredUnderTheModeRead(initial, mode, es);
    RunExtends(Spawn(initial, mode), es, Receive);
    AcceptRefreshesLocalAddr(initial, mode, es);
  }

  datatype HandshakeEnd = Succeeded | Failed | TimedOut

  function EndOf(conn: nat, end: HandshakeEnd): Event {
    match end
    case Succeeded => HandshakeDone(conn)
    case Failed => HandshakeFails(conn)
    case TimedOut => HandshakeTimesOut(conn)
  }

  /** A handshake that ends moves its connection to the queue or drops it, and it is in no third place. */
  lemma {:induction false} HandshakeEnds(s: State, conn: nat, end: HandshakeEnd)
    requires OneFate(s) && conn in s.handshakes
    ensures var s' := Step(s, EndOf(conn, end));
            && conn !in s'.handshakes
            && (end == Succeeded <==> conn in Ids(s'.queue)) && (end == Succeeded <==> conn !in s'.log.dropped)
  {
    InOnePlace(s, conn);
    var s' := Step(s, EndOf(conn, end));
    if end == Succeeded { assert Ids(s'.queue)[|s.queue|] == conn; }
  }

  /** A connection in a handshake is nowhere else. */
  lemma {:induction false} InOnePlace(s: State, conn: nat)
    requires OneFate(s) && conn in s.handshakes
    ensures conn !in Ids(s.queue) && conn !in s.log.dropped
  {
    var all := multiset(Upto(|s.log.accepted|));
    assert all[conn] <= 1;
    assert multiset(s.handshakes.Keys)[conn] == 1;
    assert multiset(Ids(s.queue))[conn] == 0 && multiset(s.log.dropped)[conn] == 0;
  }

  class Role {
    var phase: Phase
    var current: Option<Socket>
    var commands: Option<seq<Command>>
    var handleAlive: bool
    var free: nat
    var queue: seq<Ready>
    var listenerAlive: bool
    var handshakes: map<nat, Handshake>
    var tls: Option<Acceptor>
    var bound: Address
    var boundVersion: nat
    var localAddr: Address
    var seenVersion: nat
    ghost var log: History

    /** Connections accepted so far; names the next one. */
    var accepts: nat

    /** How the listener was spawned and everything that has happened to it since. */
    ghost const initial: Option<Socket>
    ghost const mode: Option<Acceptor>
    ghost var trace: seq<Event>

    /** The object is where a run of the transition system has brought it, so every theorem about runs is about it. */
    ghost predicate Valid() reads this {
      accepts == |log.accepted| && Run(Spawn(initial, mode), trace) == Some(Abs())
    }

    ghost function Abs(): State reads this {
      State(phase, current, commands, handleAlive, free, queue, listenerAlive, handshakes, tls,
            bound, boundVersion, localAddr, seenVersion, log)
    }

    /** `spawn`. */
    constructor (initial: Option<Socket>, mode: Option<Acceptor>)
      ensures Valid() && trace == [] && this.initial == initial && this.mode == mode
      ensures current == initial && tls == mode && listenerAlive && handleAlive
      ensures localAddr == if initial.Some? && initial.value.addr.Some? then initial.value.addr.value else UNBOUND
    {
      phase, current, commands, handleAlive := Top, initial, Some([]), true;
      free, queue, listenerAlive, handshakes := MAX_PENDING_CONNECTIONS, [], true, map[];
      tls := mode;
      bound, boundVersion := FirstAddress(initial), 0;
      localAddr, seenVersion := FirstAddress(initial), 0;
      accepts := 0;
      log := History(initial, [], 0, [mode], [], [], []);
      this.initial, this.mode, trace := initial, mode, [];
    }

    /** Records a step the fields have already taken. */
    ghost method Took(e: Event, before: State)
      requires Run(Spawn(initial, mode), trace) == Some(before)
      requires Enabled(before, e) && Abs() == Step(before, e) && accepts == |log.accepted|
      modifies this`trace
      ensures Valid() && trace == old(trace) + [e] && Abs() == old(Abs())
    {
      RunExtends(Spawn(initial, mode), trace, e);
      trace := trace + [e];
    }

    /**
     `ListenerHandle::serve` and `ListenerHandle::close`: an unbounded send, whose failure is ignored. Once all
     that has been sent is applied, this command alone decides what is served.
     */
    method SendCommand(command: Command)
      requires Valid() && handleAlive
      modifies this
      ensures Valid() && trace == old(trace) + [Send(command)]
      ensures ServedAfter(initial, log.sent) == if command.Serve? then Some(command.socket) else None
      ensures current == old(current) && tls == old(tls) && queue == old(queue) && handshakes == old(handshakes)
    {
      ghost var before := Abs();
      match commands {
        case Some(pending) => commands := Some(pending + [command]);
        case None =>
      }
      log := log.(sent := log.sent + [command]);
      Took(Send(command), before);
    }

    /** `ListenerHandle::set_tls`: connections already accepted keep the mode they were accepted under. */
    method Publish(mode': Option<Acceptor>)
      requires Valid() && handleAlive
      modifies this
      ensures Valid() && trace == old(trace) + [SetTls(mode')]
      ensures forall r :: r in queue ==> ServedAsAccepted(log.accepted, old(log.modes), r)
      ensures forall c :: c in handshakes ==>
                ServedAsAccepted(log.accepted, old(log.modes), Ready(c, Tls(handshakes[c].acceptor), handshakes[c].peer))
    {
      ghost var before := Abs();
      DeliveredUnderTheModeRead(initial, mode, trace);
      tls := mode';
      log := log.(modes := log.modes + [mode']);
      Took(SetTls(mode'), before);
    }

    /** The last `ListenerHandle` goes. What was sent through it is still there to be applied, in order. */
    method DropHandle()
      requires Valid() && handleAlive
      modifies this
      ensures Valid() && trace == old(trace) + [Event.DropHandle]
      ensures !handleAlive && log.applied <= |log.sent|
      ensures commands.Some? && commands.value == log.sent[log.applied..] == old(log.sent)[old(log.applied)..]
    {
      ghost var before := Abs();
      SocketsFollowCommands(initial, mode, trace);
      handleAlive := false;
      Took(Event.DropHandle, before);
    }

    /** The `RoleListener` goes: what was queued for it is dropped, and the slots it took come back. */
    method DropListener()
      requires Valid() && listenerAlive
      modifies this
      ensures Valid() && trace == old(trace) + [Event.DropListener]
      ensures !listenerAlive && queue == [] && log.dropped == old(log.dropped) + Ids(old(queue))
      ensures free + Held(Abs()) + |handshakes| == MAX_PENDING_CONNECTIONS
    {
      ghost var before := Abs();
      log := log.(dropped := log.dropped + Ids(queue));
      free, queue, listenerAlive := free + |queue|, [], false;
      Took(Event.DropListener, before);
      PermitsConserved(initial, mode, trace);
    }

    /** `apply`: replaces the served socket and republishes its address. */
    method Apply(command: Command)
      modifies this`current, this`bound, this`boundVersion
      ensures current == Served(old(current), command)
      ensures bound == (if Publishes(command) then command.socket.addr.value else old(bound))
      ensures boundVersion == old(boundVersion) + (if Publishes(command) then 1 else 0)
    {
      match command {
        case Serve(socket) =>
          if socket.addr.Some? {
            bound, boundVersion := socket.addr.value, boundVersion + 1;
          }
          current := Some(socket);
        case Close =>
          current := None;
      }
    }

    /**
     The head of a pass. It parks only when nothing can ever arrive: no socket, every handle gone, and every
     command that was ever sent already applied.
     */
    method BeginPass()
      requires Valid() && phase == Top
      modifies this`phase, this`trace
      ensures Valid() && trace == old(trace) + [LoopTop]
      ensures phase == Parked <==> current.None? && commands.None?
      ensures phase == Parked ==> !handleAlive && log.applied == |log.sent| && ServedAfter(initial, log.sent).None?
    {
      ghost var before := Abs();
      SocketsFollowCommands(initial, mode, trace);
      phase := if current.None? && commands.None? then Parked else Reserving;
      Took(LoopTop, before);
      if phase == Parked { assert log.sent[..log.applied] == log.sent; }
    }

    /** One poll of `reserve_owned`: with a slot, fewer than 256 connections are in flight; a closed channel ends the loop. */
    method AwaitSlot() returns (reserved: bool)
      requires Valid() && phase == Reserving
      modifies this`phase, this`free, this`trace
      ensures Valid()
      ensures trace == if Enabled(old(Abs()), Reserve) then old(trace) + [Reserve] else old(trace)
      ensures reserved <==> phase == Polling
      ensures reserved <==> listenerAlive && |handshakes| + |queue| < MAX_PENDING_CONNECTIONS
      ensures phase == Ended <==> !listenerAlive
    {
      ghost var before := Abs();
      PermitsConserved(initial, mode, trace);
      reserved := false;
      if !listenerAlive {
        phase := Ended;
        Took(Reserve, before);
      } else if free > 0 {
        free, phase, reserved := free - 1, Polling, true;
        Took(Reserve, before);
      }
    }

    /** `Next::Command(Some(..))`: the oldest command not yet applied is applied, giving the permit back. */
    method TakePending()
      requires Valid() && phase == Polling && commands.Some? && commands.value != []
      modifies this
      ensures Valid() && trace == old(trace) + [TakeCommand]
      ensures log.applied == old(log.applied) + 1 <= |log.sent|
      ensures current == ServedAfter(initial, log.sent[..log.applied])
    {
      ghost var before := Abs();
      Apply(commands.value[0]);
      commands := Some(commands.value[1..]);
      free, phase := free + 1, Top;
      log := log.(applied := log.applied + 1);
      assert Abs() == ApplyHead(before);
      Took(TakeCommand, before);
      SocketsFollowCommands(initial, mode, trace);
    }

    /** `Next::Command(None)`: every handle is gone. By then no command is left unapplied. */
    method GiveUpCommands()
      requires Valid() && Enabled(Abs(), CommandsClosed)
      modifies this
      ensures Valid() && trace == old(trace) + [CommandsClosed]
      ensures log.applied == |log.sent| && current == ServedAfter(initial, log.sent)
    {
      ghost var before := Abs();
      commands := None;
      free, phase := free + 1, Top;
      Took(CommandsClosed, before);
      SocketsFollowCommands(initial, mode, trace);
      assert log.sent[..log.applied] == log.sent;
    }

    /**
     `Next::Connection`: the TLS mode is read here, and the permit moves with the connection. The connection is
     from the socket that everything sent so far leads to.
     */
    method TakeConnection(peer: Address)
      requires Valid() && CanAccept(Abs())
      modifies this
      ensures Valid() && trace == old(trace) + [Event.Accept(peer)]
      ensures |log.accepted| == old(|log.accepted|) + 1 && log.accepted[old(|log.accepted|)].peer == peer
      ensures ServedAfter(initial, log.sent) == Some(log.accepted[old(|log.accepted|)].socket)
    {
      ghost var before := Abs();
      AcceptedOnNewest(initial, mode, trace, peer);
      Admit(peer);
      Took(Event.Accept(peer), before);
    }

    method Admit(peer: Address)
      requires current.Some? && accepts == |log.accepted|
      modifies this`phase, this`queue, this`handshakes, this`log, this`accepts
      ensures Abs() == AcceptConnection(old(Abs()), peer) && accepts == old(accepts) + 1
    {
      log := log.(accepted := log.accepted + [Accepted(current.value, peer, |log.sent|, |log.modes|)]);
      match tls {
        case None => queue := queue + [Ready(accepts, Plain, peer)];
        case Some(acceptor) => handshakes := handshakes[accepts := Handshake(acceptor, peer)];
      }
      accepts := accepts + 1;
      phase := Top;
    }

    /**
     The rest of a pass, holding a permit: one poll of the biased `select!` and what follows from it. `took` is
     the step taken, or `None` when every arm was pending. A connection is accepted only when every command sent
     has been applied, and then on the socket they lead to.
     */
    method Poll(arrival: Arrival) returns (took: Option<Event>)
      requires Valid() && phase == Polling
      modifies this
      ensures Valid()
      ensures took == Some(TakeCommand) <==> old(CommandPending(Abs()))
      ensures took == Some(CommandsClosed) <==> old(commands) == Some([]) && !old(handleAlive)
      ensures took == Some(AcceptFails) <==> CanAccept(old(Abs())) && arrival == Refused
      ensures forall peer :: took == Some(Event.Accept(peer)) <==> CanAccept(old(Abs())) && arrival == Connected(peer)
      ensures trace == if took.Some? then old(trace) + [took.value] else old(trace)
      ensures took.Some? && took.value.Accept? ==>
                && |log.accepted| == old(|log.accepted|) + 1
                && ServedAfter(initial, log.sent) == Some(log.accepted[old(|log.accepted|)].socket)
      ensures old(CommandPending(Abs())) ==> log.applied == old(log.applied) + 1
    {
      ghost var before := Abs();
      took := None;
      if commands.Some? && commands.value != [] {
        TakePending();
        took := Some(TakeCommand);
      } else if commands.Some? && !handleAlive {
        GiveUpCommands();
        took := Some(CommandsClosed);
      } else if current.Some? {
        match arrival
        case Nothing =>
        case Refused =>
          phase := Backoff;
          took := Some(AcceptFails);
          Took(AcceptFails, before);
        case Connected(peer) =>
          TakeConnection(peer);
          took := Some(Event.Accept(peer));
      }
    }

    /** The sleep after a failed accept ends: the permit goes back, and nothing was accepted meanwhile. */
    method EndBackoff()
      requires Valid() && phase == Backoff
      modifies this
      ensures Valid() && trace == old(trace) + [BackoffOver]
      ensures phase == Top && log.accepted == old(log.accepted)
      ensures free + |handshakes| + |queue| == MAX_PENDING_CONNECTIONS
    {
      ghost var before := Abs();
      free, phase := free + 1, Top;
      Took(BackoffOver, before);
      PermitsConserved(initial, mode, trace);
    }

    /** The end of a parked loop: it comes only once the listener is gone. */
    method Unpark() returns (ended: bool)
      requires Valid() && phase == Parked
      modifies this
      ensures Valid() && trace == if ended then old(trace) + [Event.Unpark] else old(trace)
      ensures ended <==> !listenerAlive
      ensures ended <==> phase == Ended
    {
      ghost var before := Abs();
      ended := !listenerAlive;
      if ended {
        phase := Ended;
        Took(Event.Unpark, before);
      }
    }

    /** The end of a spawned handshake: `permit.send` on success, the permit dropped otherwise. Either way it leaves the table. */
    method EndHandshake(conn: nat, end: HandshakeEnd)
      requires Valid() && conn in handshakes
      modifies this
      ensures Valid() && trace == old(trace) + [EndOf(conn, end)]
      ensures conn !in handshakes && (end == Succeeded <==> conn in Ids(queue)) && (end == Succeeded <==> conn !in log.dropped)
    {
      ghost var before := Abs();
      EveryConnectionHasOneFate(initial, mode, trace);
      HandshakeEnds(before, conn, end);
      Finish(conn, end);
      Took(EndOf(conn, end), before);
    }

    method Finish(conn: nat, end: HandshakeEnd)
      requires conn in handshakes
      modifies this`queue, this`free, this`log, this`handshakes
      ensures Abs() == Step(old(Abs()), EndOf(conn, end))
      ensures log.accepted == old(log.accepted)
    {
      if end == Succeeded {
        queue := queue + [Ready(conn, Tls(handshakes[conn].acceptor), handshakes[conn].peer)];
      } else {
        free := free + 1;
        log := log.(dropped := log.dropped + [conn]);
      }
      handshakes := handshakes - {conn};
    }

    /**
     `RoleListener::accept`, when a connection is waiting: it is served as the TLS mode read at its accept says,
     and the local address is the last one published.
     */
    method Accept() returns (connection: Ready)
      requires Valid() && listenerAlive && queue != []
      modifies this
      ensures Valid() && trace == old(trace) + [Receive] && connection == old(queue)[0]
      ensures ServedAsAccepted(log.accepted, log.modes, connection)
      ensures log.applied <= |log.sent| && localAddr == AddressAfter(initial, log.sent[..log.applied])
    {
      ghost var before := Abs();
      ReceivedAsAccepted(initial, mode, trace);
      connection := HandOut();
      Took(Receive, before);
    }

    method HandOut() returns (connection: Ready)
      requires queue != []
      modifies this`queue, this`free, this`log, this`localAddr, this`seenVersion
      ensures Abs() == Deliver(old(Abs())) && connection == old(queue)[0]
    {
      connection := queue[0];
      queue := queue[1..];
      free := free + 1;
      log := log.(delivered := log.delivered + [connection]);
      if phase != Ended && boundVersion != seenVersion {
        localAddr, seenVersion := bound, boundVersion;
      }
    }
  }
}
