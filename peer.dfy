/** The state one chat node holds, shared by both drafts of the node: its
    immutable identity, its two ring pointers, every object it has written
    to a socket and what it has shown the user. */
module Peer {
  import opened Wire

  /** What the node shows the user (the console lines that matter). */
  datatype Event =
    | Delivered(sender: string, text: string)
    | Unavailable(recipient: string)
    | CannotMessageSelf

  /** One object written to a one-shot connection to `to`. */
  datatype Send = Send(payload: Json, to: Addr)

  datatype PeerState = PeerState(
    alias: string,
    myPort: int,
    succ: Addr,
    pred: Addr,
    outbox: seq<Send>,
    log: seq<Event>)

  /** The address a node listens on; joiners are always reached on localhost. */
  function SelfAddr(p: PeerState): Addr {
    Addr(Localhost, p.myPort)
  }

  /** What one pass of a listener does with a received object: either it is
      handled, or the JSON library throws and the listener thread ends. */
  datatype Outcome = Handled(next: PeerState) | Threw {
    function After(p: PeerState): PeerState {
      if Handled? then next else p
    }
  }

  /** Where a listener loop over a sequence of arrivals stops: its state, how
      many objects it took, and whether the last one ended the thread. */
  datatype Served = Served(state: PeerState, handled: nat, crashed: bool)

  /** A step never changes identity and only appends sends and log lines. */
  ghost predicate Extends(p: PeerState, q: PeerState) {
    && q.alias == p.alias
    && q.myPort == p.myPort
    && p.outbox <= q.outbox
    && p.log <= q.log
  }

  /** The three ways a node can treat a chat message. */
  datatype Route = ReportUnavailable | DeliverHere | ForwardToSuccessor

  /** The PUT decision: a message back at its sender has gone all round the
      ring, so the recipient is absent; else it is for this node or passes on.
      The sender test comes first. */
  function PutRoute(own: string, sender: string, recipient: string): (r: Route)
    ensures r == ReportUnavailable <==> sender == own
    ensures r == DeliverHere <==> sender != own && recipient == own
    ensures r == ForwardToSuccessor <==> sender != own && recipient != own
  {
    if sender == own then ReportUnavailable
    else if recipient == own then DeliverHere
    else ForwardToSuccessor
  }

  /** A message whose sender and recipient both name this node is reported
      unavailable, never delivered. */
  lemma SelfAddressedIsNeverDelivered(own: string)
    ensures PutRoute(own, own, own) == ReportUnavailable
  {
  }

  /** Handling a decoded PUT: exactly one of report, deliver or forward the
      received object unchanged to the successor; no pointer changes. */
  function HandlePut(p: PeerState, j: Json, sender: string, recipient: string, text: string): (r: PeerState)
    ensures r.alias == p.alias && r.myPort == p.myPort && r.succ == p.succ && r.pred == p.pred
    ensures PutRoute(p.alias, sender, recipient) == ReportUnavailable ==>
              r.outbox == p.outbox && r.log == p.log + [Unavailable(recipient)]
    ensures PutRoute(p.alias, sender, recipient) == DeliverHere ==>
              r.outbox == p.outbox && r.log == p.log + [Delivered(sender, text)]
    ensures PutRoute(p.alias, sender, recipient) == ForwardToSuccessor ==>
              r.outbox == p.outbox + [Send(j, p.succ)] && r.log == p.log
  {
    match PutRoute(p.alias, sender, recipient)
    case ReportUnavailable => p.(log := p.log + [Unavailable(recipient)])
    case DeliverHere => p.(log := p.log + [Delivered(sender, text)])
    case ForwardToSuccessor => p.(outbox := p.outbox + [Send(j, p.succ)])
  }
}
