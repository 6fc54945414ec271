/** The standalone listener (Server.java): one handler per message kind,
    each reading its parameters straight from the received object, and a
    loop that switches on the type tag. */
module ServerHandlers {
  import opened Wire
  import opened Peer
  import opened StandaloneChat

  /** JOIN: ACCEPT(predecessor as it was) to the joiner on localhost,
      NEWSUCCESSOR(joiner) to that same old predecessor, then only the
      predecessor's port becomes the joiner's. */
  function OnJoin(p: PeerState, j: Json): Outcome {
    match (ParamString(j, "myAlias"), ParamInt(j, "myPort"))
    case (Some(_), Some(clientPort)) =>
      Handled(p.(outbox := p.outbox + [Send(AcceptJson(p.pred.ip, p.pred.port), Addr(Localhost, clientPort)),
                                       Send(NewSuccessorJson(Localhost, clientPort), p.pred)],
                 pred := p.pred.(port := clientPort)))
    case _ => Threw
  }

  function OnAccept(p: PeerState, j: Json): Outcome {
    match ParamAddr(j, "ipPred", "portPred")
    case Some(a) => Handled(p.(pred := a))
    case None => Threw
  }

  function OnNewSuccessor(p: PeerState, j: Json): Outcome {
    match ParamAddr(j, "ipSuccessor", "portSuccessor")
    case Some(a) => Handled(p.(succ := a))
    case None => Threw
  }

  /** PUT: the message text is read only when the message is delivered here. */
  function OnPut(p: PeerState, j: Json): Outcome {
    match (ParamString(j, "aliasSender"), ParamString(j, "aliasReceiver"))
    case (Some(s), Some(r)) =>
      if PutRoute(p.alias, s, r) == DeliverHere then
        match ParamString(j, "message")
        case Some(t) => Handled(HandlePut(p, j, s, r, t))
        case None => Threw
      else Handled(HandlePut(p, j, s, r, ""))
    case _ => Threw
  }

  function OnLeave(p: PeerState, j: Json): Outcome {
    match ParamAddr(j, "ipPred", "portPred")
    case Some(a) => Handled(p.(pred := a))
    case None => Threw
  }

  /** The switch in Server.run: exactly one handler per recognised tag; any
      other tag is reported and changes nothing. */
  function Dispatch(p: PeerState, j: Json): (r: Outcome)
    ensures Kind(j).None? ==> r == Threw
    ensures Kind(j).Some? && Kind(j).value !in Kinds ==> r == Handled(p)
    ensures r.Handled? ==> Extends(p, r.next)
  {
    match Kind(j)
    case None => Threw
    case Some(t) =>
      if t == "JOIN" then OnJoin(p, j)
      else if t == "ACCEPT" then OnAccept(p, j)
      else if t == "NEWSUCCESSOR" then OnNewSuccessor(p, j)
      else if t == "PUT" then OnPut(p, j)
      else if t == "LEAVE" then OnLeave(p, j)
      else Handled(p)
  }

  /** JOIN from `clientPort`: the two replies carry and go to the predecessor
      as it was on entry; afterwards the predecessor's port is `clientPort`
      and its ip, the successor and the log are unchanged. */
  lemma {:induction false} JoinHandling(p: PeerState, alias: string, clientPort: int)
    ensures Dispatch(p, JoinJson(alias, clientPort)).Handled?
    ensures var q := Dispatch(p, JoinJson(alias, clientPort)).next;
      && q.succ == p.succ
      && q.pred == Addr(p.pred.ip, clientPort)
      && q.log == p.log
      && |q.outbox| == |p.outbox| + 2 && q.outbox[..|p.outbox|] == p.outbox
      && Decode(q.outbox[|p.outbox|].payload) == Ok(Accept(p.pred))
      && q.outbox[|p.outbox|].to == Addr(Localhost, clientPort)
      && Decode(q.outbox[|p.outbox| + 1].payload) == Ok(NewSuccessor(Addr(Localhost, clientPort)))
      && q.outbox[|p.outbox| + 1].to == p.pred
  {
    var j := JoinJson(alias, clientPort);
    assert Kind(j) == Some("JOIN");
    assert ParamString(j, "myAlias") == Some(alias) && ParamInt(j, "myPort") == Some(clientPort);
    DecodeEncode(Accept(p.pred));
    DecodeEncode(NewSuccessor(Addr(Localhost, clientPort)));
  }

  /** ACCEPT and LEAVE set the predecessor, NEWSUCCESSOR the successor, to
      the carried address; nothing else changes and nothing is sent. */
  lemma {:induction false} PointerHandling(p: PeerState, a: Addr)
    ensures Dispatch(p, AcceptJson(a.ip, a.port)) == Handled(p.(pred := a))
    ensures Dispatch(p, LeaveJson(a.ip, a.port)) == Handled(p.(pred := a))
    ensures Dispatch(p, NewSuccessorJson(a.ip, a.port)) == Handled(p.(succ := a))
  {
    assert ParamAddr(AcceptJson(a.ip, a.port), "ipPred", "portPred") == Some(a);
    assert ParamAddr(LeaveJson(a.ip, a.port), "ipPred", "portPred") == Some(a);
    assert ParamAddr(NewSuccessorJson(a.ip, a.port), "ipSuccessor", "portSuccessor") == Some(a);
  }

  /** A PUT is reported, delivered or forwarded unchanged to the current
      successor, exactly one of the three, and no pointer moves; a PUT whose
      sender is this node is reported even when it also names this node as
      recipient. */
  lemma {:induction false} PutHandling(p: PeerState, sender: string, recipient: string, text: string)
    ensures var j := PutJson(sender, recipient, text);
      Dispatch(p, j) == Handled(HandlePut(p, j, sender, recipient, text))
    ensures sender == p.alias ==>
      Dispatch(p, PutJson(sender, recipient, text)).next.log == p.log + [Unavailable(recipient)]
  {
    var j := PutJson(sender, recipient, text);
    assert Kind(j) == Some("PUT");
    assert ParamString(j, "aliasSender") == Some(sender);
    assert ParamString(j, "aliasReceiver") == Some(recipient);
    assert ParamString(j, "message") == Some(text);
  }

  /** Unlike the self-contained draft, a PUT without a message member that
      is only passing through is forwarded, not thrown on. */
  lemma ForwardNeedsNoText(p: PeerState, sender: string, recipient: string)
    requires sender != p.alias && recipient != p.alias
    ensures var j := Envelope("PUT", map["aliasSender" := Str(sender), "aliasReceiver" := Str(recipient)]);
      && Decode(j) == Err(Malformed)
      && Dispatch(p, j) == Handled(p.(outbox := p.outbox + [Send(j, p.succ)]))
  {
    var j := Envelope("PUT", map["aliasSender" := Str(sender), "aliasReceiver" := Str(recipient)]);
    assert ParamString(j, "message") == None;
    assert ParamString(j, "aliasSender") == Some(sender);
    assert ParamString(j, "aliasReceiver") == Some(recipient);
  }

  /** Whether a handler throws on an object depends on the node's alias
      alone (the alias decides whether `put` reads the message), so the
      loop's clauses below may ask it of the final state. */
  lemma {:induction false} ThrowsDependsOnAliasOnly(p: PeerState, q: PeerState, j: Json)
    requires p.alias == q.alias
    ensures Dispatch(p, j).Handled? <==> Dispatch(q, j).Handled?
  {
  }

  /** Server.run's loop: dispatch each arrival until a handler throws. */
  function ServerLoop(p: PeerState, inbox: seq<Json>): (r: Served)
    ensures r.handled <= |inbox|
    ensures !r.crashed ==> r.handled == |inbox|
    ensures r.crashed ==> 0 < r.handled && Dispatch(r.state, inbox[r.handled - 1]).Threw?
    ensures r.crashed ==> forall i :: 0 <= i < r.handled - 1 ==> Dispatch(r.state, inbox[i]).Handled?
    ensures !r.crashed ==> forall i :: 0 <= i < |inbox| ==> Dispatch(r.state, inbox[i]).Handled?
    ensures Extends(p, r.state)
    decreases |inbox|
  {
    if inbox == [] then Served(p, 0, false)
    else match Dispatch(p, inbox[0])
      case Threw => Served(p, 1, true)
      case Handled(q) =>
        var r := ServerLoop(q, inbox[1..]);
        Served(r.state, r.handled + 1, r.crashed)
  }

  class Server {
    const chat: Chat

    constructor (chat: Chat)
      ensures this.chat == chat
    {
      this.chat := chat;
    }

    method Join(joinJson: Json) returns (thrown: bool)
      modifies chat
      ensures thrown <==> OnJoin(old(chat.State()), joinJson).Threw?
      ensures chat.State() == OnJoin(old(chat.State()), joinJson).After(old(chat.State()))
    {
      var clientAlias := ParamString(joinJson, "myAlias");
      var clientPort := ParamInt(joinJson, "myPort");
      if clientAlias.None? || clientPort.None? {
        return true;
      }
      var acceptJson := AcceptJson(chat.ipPredecessor, chat.portPredecessor);
      chat.SendJson(acceptJson, Localhost, clientPort.value);
      var successorJson := NewSuccessorJson(Localhost, clientPort.value);
      chat.SendJson(successorJson, chat.ipPredecessor, chat.portPredecessor);
      chat.UpdatePortPredecessor(clientPort.value);
      thrown := false;
    }

    method Accept(acceptJson: Json) returns (thrown: bool)
      modifies chat
      ensures thrown <==> OnAccept(old(chat.State()), acceptJson).Threw?
      ensures chat.State() == OnAccept(old(chat.State()), acceptJson).After(old(chat.State()))
    {
      var ip := ParamString(acceptJson, "ipPred");
      var port := ParamInt(acceptJson, "portPred");
      if ip.None? || port.None? {
        return true;
      }
      chat.UpdateIpPredecessor(ip.value);
      chat.UpdatePortPredecessor(port.value);
      thrown := false;
    }

    method NewSuccessor(successorJson: Json) returns (thrown: bool)
      modifies chat
      ensures thrown <==> OnNewSuccessor(old(chat.State()), successorJson).Threw?
      ensures chat.State() == OnNewSuccessor(old(chat.State()), successorJson).After(old(chat.State()))
    {
      var ip := ParamString(successorJson, "ipSuccessor");
      var port := ParamInt(successorJson, "portSuccessor");
      if ip.None? || port.None? {
        return true;
      }
      chat.UpdateIpSuccessor(ip.value);
      chat.UpdatePortSuccessor(port.value);
      thrown := false;
    }

    method Put(putJson: Json) returns (thrown: bool)
      modifies chat
      ensures thrown <==> OnPut(old(chat.State()), putJson).Threw?
      ensures chat.State() == OnPut(old(chat.State()), putJson).After(old(chat.State()))
    {
      var aliasSender := ParamString(putJson, "aliasSender");
      var aliasReceiver := ParamString(putJson, "aliasReceiver");
      if aliasSender.None? || aliasReceiver.None? {
        return true;
      }
      thrown := false;
      if aliasSender.value == chat.alias {
        chat.Show(Unavailable(aliasReceiver.value));
      } else if aliasReceiver.value == chat.alias {
        var message := ParamString(putJson, "message");
        if message.None? {
          return true;
        }
        chat.Show(Delivered(aliasSender.value, message.value));
      } else {
        chat.SendJson(putJson, chat.ipSuccessor, chat.portSuccessor);
      }
    }

    method Leave(leaveJson: Json) returns (thrown: bool)
      modifies chat
      ensures thrown <==> OnLeave(old(chat.State()), leaveJson).Threw?
      ensures chat.State() == OnLeave(old(chat.State()), leaveJson).After(old(chat.State()))
    {
      var ip := ParamString(leaveJson, "ipPred");
      var port := ParamInt(leaveJson, "portPred");
      if ip.None? || port.None? {
        return true;
      }
      chat.UpdateIpPredecessor(ip.value);
      chat.UpdatePortPredecessor(port.value);
      thrown := false;
    }

    /** One arrival: read the tag and run the matching handler. */
    method Receive(jsonMessage: Json) returns (thrown: bool)
      modifies chat
      ensures thrown <==> Dispatch(old(chat.State()), jsonMessage).Threw?
      ensures chat.State() == Dispatch(old(chat.State()), jsonMessage).After(old(chat.State()))
    {
      var responseType := Kind(jsonMessage);
      if responseType.None? {
        return true;
      }
      thrown := false;
      match responseType.value
      case "JOIN" => thrown := Join(jsonMessage);
      case "ACCEPT" => thrown := Accept(jsonMessage);
      case "NEWSUCCESSOR" => thrown := NewSuccessor(jsonMessage);
      case "PUT" => thrown := Put(jsonMessage);
      case "LEAVE" => thrown := Leave(jsonMessage);
      case _ =>
    }

    /** Server.run's accept loop over the arriving objects. */
    method Run(inbox: seq<Json>) returns (handled: nat, crashed: bool)
      modifies chat
      ensures ServerLoop(old(chat.State()), inbox) == Served(chat.State(), handled, crashed)
    {
      handled, crashed := 0, false;
      while handled < |inbox| && !crashed
        invariant handled <= |inbox|
        invariant crashed ==> ServerLoop(old(chat.State()), inbox) == Served(chat.State(), handled, true)
        invariant !crashed ==>
          var r := ServerLoop(chat.State(), inbox[handled..]);
          ServerLoop(old(chat.State()), inbox) == Served(r.state, r.handled + handled, r.crashed)
      {
        assert inbox[handled..][0] == inbox[handled];
        assert inbox[handled..][1..] == inbox[handled + 1..];
        crashed := Receive(inbox[handled]);
        handled := handled + 1;
      }
    }
  }
}
