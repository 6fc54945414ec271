/** The self-contained draft of the node (Chat.java): the inner Server's
    listener loop and the inner Client's menu loop, both working directly on
    the four pointer fields. The pure functions here specify the class
    `ChatNode` below and are what the network model runs. */
module SelfContained {
  import opened Wire
  import opened Peer

  /** The state change of one decoded message (the branches of Server.run). */
  function Handle(p: PeerState, j: Json, m: Msg): PeerState {
    match m
    case Join(_, port) =>
      p.(outbox := p.outbox + [Send(AcceptJson(p.pred.ip, p.pred.port), Addr(Localhost, port)),
                               Send(NewSuccessorJson(Localhost, port), Addr(Localhost, p.pred.port))],
         pred := Addr(Localhost, port))
    case Accept(a) => p.(pred := a)
    case NewSuccessor(a) => p.(succ := a)
    case Put(s, r, t) => HandlePut(p, j, s, r, t)
    case Leave(a) => p.(pred := a)
  }

  /** One pass of the listener loop over a received object. */
  function Listen(p: PeerState, j: Json): (r: Outcome)
    ensures r.Threw? <==> Decode(j) == Err(Malformed)
    ensures r.Handled? ==> Extends(p, r.next)
    ensures Kind(j).Some? && Kind(j).value !in Kinds ==> r == Handled(p)
  {
    match Decode(j)
    case Err(Malformed) => Threw
    case Err(UnknownType(_)) => Handled(p)
    case Ok(m) => Handled(Handle(p, j, m))
  }

  /** JOIN from port `port`: ACCEPT carrying the predecessor as it was goes to
      the joiner, NEWSUCCESSOR naming the joiner goes to that old
      predecessor's port on localhost, and only the predecessor changes. */
  lemma {:induction false} JoinHandling(p: PeerState, alias: string, port: int)
    ensures Listen(p, JoinJson(alias, port)).Handled?
    ensures var q := Listen(p, JoinJson(alias, port)).next;
      && q.succ == p.succ
      && q.pred == Addr(Localhost, port)
      && q.log == p.log
      && |q.outbox| == |p.outbox| + 2 && q.outbox[..|p.outbox|] == p.outbox
      && Decode(q.outbox[|p.outbox|].payload) == Ok(Accept(p.pred))
      && q.outbox[|p.outbox|].to == Addr(Localhost, port)
      && Decode(q.outbox[|p.outbox| + 1].payload) == Ok(NewSuccessor(Addr(Localhost, port)))
      && q.outbox[|p.outbox| + 1].to == Addr(Localhost, p.pred.port)
  {
    DecodeEncode(Join(alias, port));
    DecodeEncode(Accept(p.pred));
    DecodeEncode(NewSuccessor(Addr(Localhost, port)));
  }

  /** ACCEPT and LEAVE overwrite only the predecessor, NEWSUCCESSOR only the
      successor; none of them sends or shows anything. */
  lemma {:induction false} PointerHandling(p: PeerState, a: Addr)
    ensures Listen(p, AcceptJson(a.ip, a.port)) == Handled(p.(pred := a))
    ensures Listen(p, LeaveJson(a.ip, a.port)) == Handled(p.(pred := a))
    ensures Listen(p, NewSuccessorJson(a.ip, a.port)) == Handled(p.(succ := a))
  {
    DecodeEncode(Accept(a));
    DecodeEncode(Leave(a));
    DecodeEncode(NewSuccessor(a));
  }

  /** The listener loop over the objects that arrive, in order; it ends at
      the first object the JSON library throws on, and every object before
      that one was handled. */
  function ServerLoop(p: PeerState, inbox: seq<Json>): (r: Served)
    ensures r.handled <= |inbox|
    ensures !r.crashed ==> r.handled == |inbox|
    ensures r.crashed ==> 0 < r.handled && Listen(r.state, inbox[r.handled - 1]).Threw?
    ensures forall i :: 0 <= i < r.handled - 1 ==> Decode(inbox[i]) != Err(Malformed)
    ensures !r.crashed ==> forall i :: 0 <= i < |inbox| ==> Decode(inbox[i]) != Err(Malformed)
    ensures Extends(p, r.state)
    decreases |inbox|
  {
    if inbox == [] then Served(p, 0, false)
    else match Listen(p, inbox[0])
      case Threw => Served(p, 1, true)
      case Handled(q) =>
        var r := ServerLoop(q, inbox[1..]);
        Served(r.state, r.handled + 1, r.crashed)
  }

  /** A well-formed object with an unknown tag is skipped and the loop goes
      on with the next one. */
  lemma UnknownTypeIsSkipped(p: PeerState, j: Json, rest: seq<Json>)
    requires Kind(j).Some? && Kind(j).value !in Kinds
    ensures var s := ServerLoop(p, rest);
      ServerLoop(p, [j] + rest) == Served(s.state, s.handled + 1, s.crashed)
  {
    assert ([j] + rest)[1..] == rest;
  }

  /** A malformed object ends the listener: nothing after it is handled. */
  lemma MalformedEndsListener(p: PeerState, j: Json, rest: seq<Json>)
    requires Decode(j) == Err(Malformed)
    ensures ServerLoop(p, [j] + rest) == Served(p, 1, true)
  {
  }

  /** The user's menu choices: 1 join, 2 print info, 3 send, 4 leave. */
  datatype Choice = JoinAt(ip: string, port: int) | PrintInfo | SendChat(to: string, text: string) | LeaveRing

  /** Join: JOIN(alias, myPort) to the chosen address, then successor := it. */
  function ClientJoin(p: PeerState, ip: string, port: int): PeerState {
    p.(outbox := p.outbox + [Send(JoinJson(p.alias, p.myPort), Addr(ip, port))], succ := Addr(ip, port))
  }

  /** Send: PUT(alias, to, message) to the successor; no self check here. */
  function ClientPut(p: PeerState, to: string, message: string): PeerState {
    p.(outbox := p.outbox + [Send(PutJson(p.alias, to, message), p.succ)])
  }

  /** Leave: NEWSUCCESSOR(successor) to the predecessor, then
      LEAVE(predecessor) to the successor; no field changes. */
  function ClientLeave(p: PeerState): PeerState {
    p.(outbox := p.outbox + [Send(NewSuccessorJson(p.succ.ip, p.succ.port), p.pred),
                             Send(LeaveJson(p.pred.ip, p.pred.port), p.succ)])
  }

  function ClientStep(p: PeerState, c: Choice): PeerState {
    match c
    case JoinAt(ip, port) => ClientJoin(p, ip, port)
    case PrintInfo => p
    case SendChat(to, text) => ClientPut(p, to, text)
    case LeaveRing => ClientLeave(p)
  }

  /** The client loop never ends: every choice is acted on, leave included. */
  function ClientLoop(p: PeerState, choices: seq<Choice>): PeerState
    decreases |choices|
  {
    if choices == [] then p else ClientLoop(ClientStep(p, choices[0]), choices[1..])
  }

  /** Running two batches of choices is running their concatenation: leave
      does not end the loop, so what follows it still takes effect. */
  lemma {:induction false} ClientLoopAppend(p: PeerState, xs: seq<Choice>, ys: seq<Choice>)
    ensures ClientLoop(p, xs + ys) == ClientLoop(ClientLoop(p, xs), ys)
    decreases |xs|
  {
    if xs != [] {
      assert (xs + ys)[0] == xs[0] && (xs + ys)[1..] == xs[1..] + ys;
      ClientLoopAppend(ClientStep(p, xs[0]), xs[1..], ys);
    } else {
      assert xs + ys == ys;
    }
  }

  /** After leaving, a send still goes out, to the successor kept unchanged. */
  lemma SendAfterLeave(p: PeerState, to: string, text: string)
    ensures ClientLoop(p, [LeaveRing, SendChat(to, text)]).outbox ==
            ClientLeave(p).outbox + [Send(PutJson(p.alias, to, text), p.succ)]
  {
    var cs := [LeaveRing, SendChat(to, text)];
    assert cs[0] == LeaveRing && cs[1..] == [SendChat(to, text)];
    var q := ClientLeave(p);
    assert ClientLoop(p, cs) == ClientLoop(q, [SendChat(to, text)]);
    assert [SendChat(to, text)][1..] == [];
    assert ClientLoop(q, [SendChat(to, text)]) == ClientPut(q, to, text);
  }

  /** Chat.java's node: the pointer fields and the two loops' bodies. */
  class ChatNode {
    const alias: string
    const myPort: int
    var ipSuccessor: string
    var portSuccessor: int
    var ipPredecessor: string
    var portPredecessor: int
    /** Every object written to a socket, with its destination, in order. */
    var outbox: seq<Send>
    /** Deliveries and unavailable-recipient reports shown to the user. */
    var log: seq<Event>

    function State(): PeerState
      reads this
    {
      PeerState(alias, myPort, Addr(ipSuccessor, portSuccessor), Addr(ipPredecessor, portPredecessor), outbox, log)
    }

    /** A new node is alone: both pointers name itself on localhost. */
    constructor (alias: string, myPort: int)
      ensures this.alias == alias && this.myPort == myPort
      ensures State().succ == State().pred == Addr(Localhost, myPort)
      ensures outbox == [] && log == []
    {
      this.alias := alias;
      this.myPort := myPort;
      ipSuccessor := Localhost;
      portSuccessor := myPort;
      ipPredecessor := Localhost;
      portPredecessor := myPort;
      outbox := [];
      log := [];
    }

    /** One pass of Server.run: read the tag and the parameters, then act. */
    method Receive(j: Json) returns (thrown: bool)
      modifies this
      ensures thrown <==> Listen(old(State()), j).Threw?
      ensures State() == Listen(old(State()), j).After(old(State()))
    {
      thrown := false;
      match Decode(j)
      case Err(Malformed) =>
        thrown := true;
      case Err(UnknownType(_)) =>
      case Ok(Join(_, port)) =>
        var acceptJson := AcceptJson(ipPredecessor, portPredecessor);
        var newSuccessorJson := NewSuccessorJson(Localhost, port);
        outbox := outbox + [Send(acceptJson, Addr(Localhost, port))];
        outbox := outbox + [Send(newSuccessorJson, Addr(Localhost, portPredecessor))];
        ipPredecessor := Localhost;
        portPredecessor := port;
      case Ok(Accept(a)) =>
        ipPredecessor := a.ip;
        portPredecessor := a.port;
      case Ok(NewSuccessor(a)) =>
        ipSuccessor := a.ip;
        portSuccessor := a.port;
      case Ok(Put(aliasSender, aliasReceiver, message)) =>
        if aliasSender == alias {
          log := log + [Unavailable(aliasReceiver)];
        } else if aliasReceiver == alias {
          log := log + [Delivered(aliasSender, message)];
        } else {
          outbox := outbox + [Send(j, Addr(ipSuccessor, portSuccessor))];
        }
      case Ok(Leave(a)) =>
        ipPredecessor := a.ip;
        portPredecessor := a.port;
    }

    /** Server.run's loop over the arriving objects. */
    method ServerRun(inbox: seq<Json>) returns (handled: nat, crashed: bool)
      modifies this
      ensures ServerLoop(old(State()), inbox) == Served(State(), handled, crashed)
    {
      handled, crashed := 0, false;
      while handled < |inbox| && !crashed
        invariant handled <= |inbox|
        invariant crashed ==> ServerLoop(old(State()), inbox) == Served(State(), handled, true)
        invariant !crashed ==>
          var r := ServerLoop(State(), inbox[handled..]);
          ServerLoop(old(State()), inbox) == Served(r.state, r.handled + handled, r.crashed)
      {
        assert inbox[handled..][0] == inbox[handled];
        assert inbox[handled..][1..] == inbox[handled + 1..];
        crashed := Receive(inbox[handled]);
        handled := handled + 1;
      }
    }

    method Join(ip: string, port: int)
      modifies this
      ensures State() == ClientJoin(old(State()), ip, port)
    {
      var join := JoinJson(alias, myPort);
      outbox := outbox + [Send(join, Addr(ip, port))];
      portSuccessor := port;
      ipSuccessor := ip;
    }

    method Put(to: string, message: string)
      modifies this
      ensures State() == ClientPut(old(State()), to, message)
    {
      var putMessage := PutJson(alias, to, message);
      outbox := outbox + [Send(putMessage, Addr(ipSuccessor, portSuccessor))];
    }

    method Leave()
      modifies this
      ensures State() == ClientLeave(old(State()))
    {
      var successorMessage := NewSuccessorJson(ipSuccessor, portSuccessor);
      outbox := outbox + [Send(successorMessage, Addr(ipPredecessor, portPredecessor))];
      var leaveMessage := LeaveJson(ipPredecessor, portPredecessor);
      outbox := outbox + [Send(leaveMessage, Addr(ipSuccessor, portSuccessor))];
    }

    /** Client.run: act on each choice in turn; leave does not stop it. */
    method ClientRun(choices: seq<Choice>)
      modifies this
      ensures State() == ClientLoop(old(State()), choices)
    {
      var i := 0;
      while i < |choices|
        invariant i <= |choices|
        invariant ClientLoop(State(), choices[i..]) == ClientLoop(old(State()), choices)
      {
        assert choices[i..][0] == choices[i] && choices[i..][1..] == choices[i + 1..];
        match choices[i] {
          case JoinAt(ip, port) => Join(ip, port);
          case PrintInfo =>
          case SendChat(to, text) => Put(to, text);
          case LeaveRing => Leave();
        }
        i := i + 1;
      }
    }
  }
}
