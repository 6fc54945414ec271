/** The Chat object that the standalone Server.java and Client.java share.
    The class they were written against is not part of this model; its
    accessors are modelled as plain field reads (the getters), single-field
    setters, and `sendJson` as appending one send to the outbox. */
module StandaloneChat {
  import opened Wire
  import opened Peer

  class Chat {
    const alias: string
    const port: int
    var ipSuccessor: string
    var portSuccessor: int
    var ipPredecessor: string
    var portPredecessor: int
    /** Every object handed to `sendJson`, with its destination, in order. */
    var outbox: seq<Send>
    /** Deliveries, unavailable-recipient reports and refusals shown to the user. */
    var log: seq<Event>

    function State(): PeerState
      reads this
    {
      PeerState(alias, port, Addr(ipSuccessor, portSuccessor), Addr(ipPredecessor, portPredecessor), outbox, log)
    }

    /** A new node is alone: both pointers name itself on localhost. */
    constructor (alias: string, port: int)
      ensures this.alias == alias && this.port == port
      ensures State().succ == State().pred == Addr(Localhost, port)
      ensures outbox == [] && log == []
    {
      this.alias := alias;
      this.port := port;
      ipSuccessor := Localhost;
      portSuccessor := port;
      ipPredecessor := Localhost;
      portPredecessor := port;
      outbox := [];
      log := [];
    }

    method UpdateIpPredecessor(ip: string)
      modifies this
      ensures State() == old(State()).(pred := old(State()).pred.(ip := ip))
    {
      ipPredecessor := ip;
    }

    method UpdatePortPredecessor(port: int)
      modifies this
      ensures State() == old(State()).(pred := old(State()).pred.(port := port))
    {
      portPredecessor := port;
    }

    method UpdateIpSuccessor(ip: string)
      modifies this
      ensures State() == old(State()).(succ := old(State()).succ.(ip := ip))
    {
      ipSuccessor := ip;
    }

    method UpdatePortSuccessor(port: int)
      modifies this
      ensures State() == old(State()).(succ := old(State()).succ.(port := port))
    {
      portSuccessor := port;
    }

    /** Open a connection to (ip, port), write `j`, close. */
    method SendJson(j: Json, ip: string, port: int)
      modifies this
      ensures State() == old(State()).(outbox := old(outbox) + [Send(j, Addr(ip, port))])
    {
      outbox := outbox + [Send(j, Addr(ip, port))];
    }

    /** A line shown to the user: the log-event stand-in for the console
        output that the server and client print directly (not through
        this class); the source's drafts have no such method. */
    method Show(e: Event)
      modifies this
      ensures State() == old(State()).(log := old(log) + [e])
    {
      log := log + [e];
    }
  }
}
