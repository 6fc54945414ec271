/** The standalone local actor (Client.java): join, send and leave, and the
    menu loop that a leave ends. */
module ClientActions {
  import opened Wire
  import opened Peer
  import opened StandaloneChat

  /** The user's menu choices: 1 join, 2 send, 3 print info, 4 leave. Join
      asks only for a port; the host is always localhost. */
  datatype Choice = JoinAt(port: int) | SendChat(recipient: string, text: string) | PrintInfo | LeaveRing

  /** JOIN(alias, own port) to localhost:`port`, then only the successor's
      port becomes `port`. */
  function ClientJoin(p: PeerState, port: int): PeerState {
    p.(outbox := p.outbox + [Send(JoinJson(p.alias, p.myPort), Addr(Localhost, port))],
       succ := p.succ.(port := port))
  }

  /** A message to oneself is refused before anything is sent; any other is
      sent as PUT(alias, recipient, message) to the successor. */
  function ClientPut(p: PeerState, recipient: string, message: string): PeerState {
    if recipient == p.alias then p.(log := p.log + [CannotMessageSelf])
    else p.(outbox := p.outbox + [Send(PutJson(p.alias, recipient, message), p.succ)])
  }

  /** NEWSUCCESSOR(successor) to the predecessor, then LEAVE(predecessor) to
      the successor, both from one snapshot of the pointers. */
  function ClientLeave(p: PeerState): PeerState {
    p.(outbox := p.outbox + [Send(NewSuccessorJson(p.succ.ip, p.succ.port), p.pred),
                             Send(LeaveJson(p.pred.ip, p.pred.port), p.succ)])
  }

  /** Join sends one JOIN carrying the node's own alias and port to
      localhost:`port`, and moves only the successor's port. */
  lemma {:induction false} JoinAction(p: PeerState, port: int)
    ensures var q := ClientJoin(p, port);
      && q.pred == p.pred && q.succ == Addr(p.succ.ip, port) && q.log == p.log
      && |q.outbox| == |p.outbox| + 1 && q.outbox[..|p.outbox|] == p.outbox
      && Decode(q.outbox[|p.outbox|].payload) == Ok(Join(p.alias, p.myPort))
      && q.outbox[|p.outbox|].to == Addr(Localhost, port)
  {
    DecodeEncode(Join(p.alias, p.myPort));
  }

  /** Sending sends nothing exactly when the recipient is this node, and
      then shows the refusal; otherwise it sends one PUT to the successor
      and shows nothing. No pointer changes either way. */
  lemma {:induction false} PutAction(p: PeerState, recipient: string, message: string)
    ensures var q := ClientPut(p, recipient, message);
      && q.succ == p.succ && q.pred == p.pred
      && (q.outbox == p.outbox <==> recipient == p.alias)
      && (recipient == p.alias ==> q.log == p.log + [CannotMessageSelf])
      && (recipient != p.alias ==> q.log == p.log)
      && (recipient != p.alias ==>
            |q.outbox| == |p.outbox| + 1 && q.outbox[..|p.outbox|] == p.outbox
            && Decode(q.outbox[|p.outbox|].payload) == Ok(Put(p.alias, recipient, message))
            && q.outbox[|p.outbox|].to == p.succ)
  {
    DecodeEncode(Put(p.alias, recipient, message));
    if recipient != p.alias {
      var q := ClientPut(p, recipient, message);
      assert |q.outbox| != |p.outbox|;
    }
  }

  /** Leaving tells each neighbour about the other and changes no pointer. */
  lemma {:induction false} LeaveAction(p: PeerState)
    ensures var q := ClientLeave(p);
      && q.succ == p.succ && q.pred == p.pred && q.log == p.log
      && |q.outbox| == |p.outbox| + 2 && q.outbox[..|p.outbox|] == p.outbox
      && Decode(q.outbox[|p.outbox|].payload) == Ok(NewSuccessor(p.succ)) && q.outbox[|p.outbox|].to == p.pred
      && Decode(q.outbox[|p.outbox| + 1].payload) == Ok(Leave(p.pred)) && q.outbox[|p.outbox| + 1].to == p.succ
  {
    DecodeEncode(NewSuccessor(p.succ));
    DecodeEncode(Leave(p.pred));
  }

  /** Where the menu loop stops: the state, how many choices it took, and
      whether it stopped because the user left. */
  datatype Ran = Ran(state: PeerState, handled: nat, departed: bool)

  function ClientStep(p: PeerState, c: Choice): PeerState {
    match c
    case JoinAt(port) => ClientJoin(p, port)
    case SendChat(recipient, text) => ClientPut(p, recipient, text)
    case PrintInfo => p
    case LeaveRing => ClientLeave(p)
  }

  /** Client.run: act on each choice until one is leave. */
  function ClientLoop(p: PeerState, choices: seq<Choice>): (r: Ran)
    ensures r.handled <= |choices|
    ensures r.departed <==> LeaveRing in choices
    ensures r.departed ==> 0 < r.handled && choices[r.handled - 1] == LeaveRing && LeaveRing !in choices[..r.handled - 1]
    ensures !r.departed ==> r.handled == |choices|
    decreases |choices|
  {
    if choices == [] then Ran(p, 0, false)
    else if choices[0] == LeaveRing then Ran(ClientLeave(p), 1, true)
    else
      var r := ClientLoop(ClientStep(p, choices[0]), choices[1..]);
      assert choices == [choices[0]] + choices[1..];
      assert r.departed ==> choices[..r.handled + 1] == [choices[0]] + choices[1..][..r.handled];
      Ran(r.state, r.handled + 1, r.departed)
  }

  /** Leaving is terminal: whatever the user would choose after the first
      leave is never acted on. */
  lemma {:induction false} LeaveIsTerminal(p: PeerState, xs: seq<Choice>, ys: seq<Choice>)
    requires LeaveRing !in xs
    ensures ClientLoop(p, xs + [LeaveRing] + ys) == ClientLoop(p, xs + [LeaveRing])
    ensures ClientLoop(p, xs + [LeaveRing]).handled == |xs| + 1
    decreases |xs|
  {
    if xs == [] {
      assert xs + [LeaveRing] + ys == [LeaveRing] + ys;
      assert xs + [LeaveRing] == [LeaveRing];
    } else {
      assert (xs + [LeaveRing] + ys)[1..] == xs[1..] + [LeaveRing] + ys;
      assert (xs + [LeaveRing])[1..] == xs[1..] + [LeaveRing];
      assert xs[0] != LeaveRing;
      LeaveIsTerminal(ClientStep(p, xs[0]), xs[1..], ys);
    }
  }

  class Client {
    const chat: Chat

    constructor (chat: Chat)
      ensures this.chat == chat
    {
      this.chat := chat;
    }

    method Join(port: int)
      modifies chat
      ensures chat.State() == ClientJoin(old(chat.State()), port)
    {
      var joinJson := JoinJson(chat.alias, chat.port);
      chat.SendJson(joinJson, Localhost, port);
      chat.UpdatePortSuccessor(port);
    }

    method Put(recipient: string, message: string)
      modifies chat
      ensures chat.State() == ClientPut(old(chat.State()), recipient, message)
    {
      if recipient == chat.alias {
        chat.Show(CannotMessageSelf);
        return;
      }
      var putJson := PutJson(chat.alias, recipient, message);
      chat.SendJson(putJson, chat.ipSuccessor, chat.portSuccessor);
    }

    method Leave()
      modifies chat
      ensures chat.State() == ClientLeave(old(chat.State()))
    {
      var ipSuccessor, ipPredecessor := chat.ipSuccessor, chat.ipPredecessor;
      var portSuccessor, portPredecessor := chat.portSuccessor, chat.portPredecessor;
      var successorJson := NewSuccessorJson(ipSuccessor, portSuccessor);
      chat.SendJson(successorJson, ipPredecessor, portPredecessor);
      var leaveJson := LeaveJson(ipPredecessor, portPredecessor);
      chat.SendJson(leaveJson, ipSuccessor, portSuccessor);
    }

    /** Client.run: `alive` turns false on leave and the loop ends. */
    method Run(choices: seq<Choice>) returns (handled: nat, departed: bool)
      modifies chat
      ensures ClientLoop(old(chat.State()), choices) == Ran(chat.State(), handled, departed)
    {
      var alive := true;
      handled := 0;
      while alive && handled < |choices|
        invariant handled <= |choices|
        invariant !alive ==> ClientLoop(old(chat.State()), choices) == Ran(chat.State(), handled, true)
        invariant alive ==>
          var r := ClientLoop(chat.State(), choices[handled..]);
          ClientLoop(old(chat.State()), choices) == Ran(r.state, r.handled + handled, r.departed)
      {
        assert choices[handled..][0] == choices[handled];
        assert choices[handled..][1..] == choices[handled + 1..];
        match choices[handled] {
          case JoinAt(port) => Join(port);
          case SendChat(recipient, text) => Put(recipient, text);
          case PrintInfo =>
          case LeaveRing =>
            Leave();
            alive := false;
        }
        handled := handled + 1;
      }
      departed := !alive;
    }
  }
}
