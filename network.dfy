/** A network of chat nodes, all running one of the two drafts: nodes by
    listen address, a delivery step that hands one sent object to the
    listener it was addressed to, and the ring-level consequences of the
    handlers: a JOIN splices the joiner in before the node it contacted, a
    LEAVE re-links the leaver's two neighbours, and a PUT is delivered at
    the first node that bears the recipient's alias or, failing that,
    comes back to its sender and is reported there. */
module Network {
  import opened Wire
  import opened Peer
  import SelfContained
  import ServerHandlers
  import ClientActions

  /** Which draft every node runs: Chat.java, or Server.java with Client.java. */
  datatype Draft = SelfContainedDraft | StandaloneDraft

  /** The nodes by listen address; `down` holds those whose listener thread
      has ended because a handler threw. */
  datatype Net = Net(peers: map<Addr, PeerState>, down: set<Addr>)

  /** One pass of a node's listener, as its draft does it. */
  function Receive(d: Draft, p: PeerState, j: Json): Outcome {
    match d
    case SelfContainedDraft => SelfContained.Listen(p, j)
    case StandaloneDraft => ServerHandlers.Dispatch(p, j)
  }

  predicate Up(net: Net, a: Addr) {
    a in net.peers && a !in net.down
  }

  /** The listener every node of draft `d` runs, as a function. */
  function Listener(d: Draft): (PeerState, Json) -> Outcome {
    (p, j) => Receive(d, p, j)
  }

  /** The listener at `s.to` takes `s`. An object sent where no listener
      runs is lost; a handler that throws takes its listener down. */
  function Deliver(listen: (PeerState, Json) -> Outcome, net: Net, s: Send): (r: Net)
    ensures r.peers.Keys == net.peers.Keys
    ensures net.down <= r.down
  {
    if !Up(net, s.to) then net
    else match listen(net.peers[s.to], s.payload)
      case Threw => net.(down := net.down + {s.to})
      case Handled(q) => net.(peers := net.peers[s.to := q])
  }

  /** Deliveries to two different nodes commute: each listener sees only
      its own node's state. */
  lemma {:induction false} DeliveriesCommute(listen: (PeerState, Json) -> Outcome, net: Net, s1: Send, s2: Send)
    requires s1.to != s2.to
    ensures Deliver(listen, Deliver(listen, net, s1), s2) == Deliver(listen, Deliver(listen, net, s2), s1)
  {
    var n1 := Deliver(listen, net, s1);
    var n2 := Deliver(listen, net, s2);
    assert Up(n1, s2.to) == Up(net, s2.to) && Up(n2, s1.to) == Up(net, s1.to);
    if Up(net, s2.to) {
      assert n1.peers[s2.to] == net.peers[s2.to];
    }
    if Up(net, s1.to) {
      assert n2.peers[s1.to] == net.peers[s1.to];
    }
    if Up(net, s1.to) && Up(net, s2.to) {
      var o1 := listen(net.peers[s1.to], s1.payload);
      var o2 := listen(net.peers[s2.to], s2.payload);
      if o1.Handled? && o2.Handled? {
        assert net.peers[s1.to := o1.next][s2.to := o2.next] == net.peers[s2.to := o2.next][s1.to := o1.next];
      } else if o1.Threw? && o2.Threw? {
        assert net.down + {s1.to} + {s2.to} == net.down + {s2.to} + {s1.to};
      }
    }
  }

  // The local actor's operations, as each draft does them.

  /** Join at `target`; the standalone draft asks only for the port. */
  function ActJoin(d: Draft, p: PeerState, target: Addr): (q: PeerState)
    ensures |q.outbox| == |p.outbox| + 1
  {
    match d
    case SelfContainedDraft => SelfContained.ClientJoin(p, target.ip, target.port)
    case StandaloneDraft => ClientActions.ClientJoin(p, target.port)
  }

  function ActPut(d: Draft, p: PeerState, recipient: string, text: string): PeerState {
    match d
    case SelfContainedDraft => SelfContained.ClientPut(p, recipient, text)
    case StandaloneDraft => ClientActions.ClientPut(p, recipient, text)
  }

  function ActLeave(d: Draft, p: PeerState): (q: PeerState)
    ensures |q.outbox| == |p.outbox| + 2
  {
    match d
    case SelfContainedDraft => SelfContained.ClientLeave(p)
    case StandaloneDraft => ClientActions.ClientLeave(p)
  }

  // How both drafts' listeners treat the objects the builders make.

  /** On a node whose predecessor is on localhost the drafts handle a JOIN
      alike: ACCEPT(old predecessor) to the joiner, NEWSUCCESSOR(joiner) to
      the old predecessor, predecessor := joiner. */
  lemma {:induction false} DraftsAgreeOnJoin(d: Draft, p: PeerState, alias: string, port: int)
    requires p.pred.ip == Localhost
    ensures Receive(d, p, JoinJson(alias, port)) ==
      Handled(p.(outbox := p.outbox + [Send(AcceptJson(p.pred.ip, p.pred.port), Addr(Localhost, port)),
                                       Send(NewSuccessorJson(Localhost, port), p.pred)],
                 pred := Addr(Localhost, port)))
  {
    var j := JoinJson(alias, port);
    match d
    case SelfContainedDraft =>
      DecodeEncode(Join(alias, port));
    case StandaloneDraft =>
      assert Kind(j) == Some("JOIN");
      assert ParamString(j, "myAlias") == Some(alias) && ParamInt(j, "myPort") == Some(port);
  }

  /** Where the predecessor is not on localhost the drafts part: the
      self-contained one resets the predecessor's host to localhost and
      sends NEWSUCCESSOR to localhost, the standalone one keeps the host. */
  lemma {:induction false} DraftsDifferOnRemotePredecessor(p: PeerState, alias: string, port: int)
    requires p.pred.ip != Localhost
    ensures Receive(SelfContainedDraft, p, JoinJson(alias, port)).next.pred == Addr(Localhost, port)
    ensures Receive(StandaloneDraft, p, JoinJson(alias, port)).next.pred == Addr(p.pred.ip, port)
    ensures Receive(SelfContainedDraft, p, JoinJson(alias, port)).next.outbox[|p.outbox| + 1].to == Addr(Localhost, p.pred.port)
    ensures Receive(StandaloneDraft, p, JoinJson(alias, port)).next.outbox[|p.outbox| + 1].to == p.pred
  {
    SelfContained.JoinHandling(p, alias, port);
    ServerHandlers.JoinHandling(p, alias, port);
  }

  lemma {:induction false} DraftsAgreeOnPointers(d: Draft, p: PeerState, a: Addr)
    ensures Receive(d, p, AcceptJson(a.ip, a.port)) == Handled(p.(pred := a))
    ensures Receive(d, p, LeaveJson(a.ip, a.port)) == Handled(p.(pred := a))
    ensures Receive(d, p, NewSuccessorJson(a.ip, a.port)) == Handled(p.(succ := a))
  {
    match d
    case SelfContainedDraft => SelfContained.PointerHandling(p, a);
    case StandaloneDraft => ServerHandlers.PointerHandling(p, a);
  }

  lemma {:induction false} DraftsAgreeOnPut(d: Draft, p: PeerState, sender: string, recipient: string, text: string)
    ensures var j := PutJson(sender, recipient, text);
      Receive(d, p, j) == Handled(HandlePut(p, j, sender, recipient, text))
  {
    match d
    case SelfContainedDraft => DecodeEncode(Put(sender, recipient, text));
    case StandaloneDraft => ServerHandlers.PutHandling(p, sender, recipient, text);
  }

  /** Both drafts' clients leave alike: one snapshot of the pointers, then
      NEWSUCCESSOR to the predecessor and LEAVE to the successor. */
  lemma DraftsAgreeOnLeave(d: Draft, p: PeerState)
    ensures ActLeave(d, p) == SelfContained.ClientLeave(p) == ClientActions.ClientLeave(p)
  {
  }

  /** With a successor on localhost, both drafts' clients join alike. */
  lemma DraftsAgreeOnClientJoin(d: Draft, p: PeerState, target: Addr)
    requires p.succ.ip == Localhost && target.ip == Localhost
    ensures ActJoin(d, p, target) == SelfContained.ClientJoin(p, target.ip, target.port)
  {
  }

  // Rings.

  function Next(i: nat, n: nat): nat
    requires i < n
  {
    if i + 1 == n then 0 else i + 1
  }

  function Prev(i: nat, n: nat): nat
    requires i < n
  {
    if i == 0 then n - 1 else i - 1
  }

  ghost predicate Distinct(ring: seq<Addr>) {
    forall i, k :: 0 <= i < k < |ring| ==> ring[i] != ring[k]
  }

  /** `ring` lists live nodes in successor order, each node's successor is
      the next one round the ring and its predecessor the one before. */
  ghost predicate RingOf(net: Net, ring: seq<Addr>) {
    && |ring| >= 1
    && Distinct(ring)
    && (forall i :: 0 <= i < |ring| ==> Up(net, ring[i]))
    && (forall i :: 0 <= i < |ring| ==> Linked(net, ring, i))
  }

  /** Member `i` points at its two neighbours in `ring`. */
  ghost predicate Linked(net: Net, ring: seq<Addr>, i: nat)
    requires i < |ring|
  {
    && ring[i] in net.peers
    && net.peers[ring[i]].succ == ring[Next(i, |ring|)]
    && net.peers[ring[i]].pred == ring[Prev(i, |ring|)]
  }

  /** Every node is keyed by its own listen address on localhost. */
  ghost predicate WellAddressed(net: Net) {
    forall a :: a in net.peers ==> a == SelfAddr(net.peers[a])
  }

  /** Following successors `k` times from `a`. */
  function SuccIter(net: Net, a: Addr, k: nat): Addr
    decreases k
  {
    if k == 0 || a !in net.peers then a else SuccIter(net, net.peers[a].succ, k - 1)
  }

  lemma {:induction false} SuccIterAdd(net: Net, a: Addr, k1: nat, k2: nat)
    requires forall i :: 0 <= i < k1 ==> SuccIter(net, a, i) in net.peers
    ensures SuccIter(net, a, k1 + k2) == SuccIter(net, SuccIter(net, a, k1), k2)
    decreases k1
  {
    if k1 > 0 {
      assert SuccIter(net, a, 0) in net.peers;
      forall i | 0 <= i < k1 - 1
        ensures SuccIter(net, net.peers[a].succ, i) in net.peers
      {
        assert SuccIter(net, a, i + 1) in net.peers;
      }
      SuccIterAdd(net, net.peers[a].succ, k1 - 1, k2);
    }
  }

  /** Walking forward from member `i` meets the members in ring order. */
  lemma {:induction false} RingWalk(net: Net, ring: seq<Addr>, i: nat, k: nat)
    requires RingOf(net, ring) && i + k < |ring|
    ensures SuccIter(net, ring[i], k) == ring[i + k]
    decreases k
  {
    if k > 0 {
      assert Linked(net, ring, i);
      RingWalk(net, ring, i + 1, k - 1);
    }
  }

  /** In a consistent ring of N live nodes, following successors from any
      member comes back to it after exactly N hops and not before. */
  lemma {:induction false} RingClosesAfterN(net: Net, ring: seq<Addr>, i: nat)
    requires RingOf(net, ring) && i < |ring|
    ensures SuccIter(net, ring[i], |ring|) == ring[i]
    ensures forall k :: 0 < k < |ring| ==> SuccIter(net, ring[i], k) != ring[i]
  {
    var n := |ring|;
    forall k | 0 <= k < n - i ensures SuccIter(net, ring[i], k) in net.peers {
      RingWalk(net, ring, i, k);
      assert Linked(net, ring, i + k);
    }
    SuccIterAdd(net, ring[i], n - 1 - i, 1);
    RingWalk(net, ring, i, n - 1 - i);
    assert Linked(net, ring, n - 1);
    assert SuccIter(net, ring[i], n - i) == ring[0];
    SuccIterAdd(net, ring[i], n - i, i);
    RingWalk(net, ring, 0, i);
    forall k | 0 < k < n ensures SuccIter(net, ring[i], k) != ring[i] {
      if i + k < n {
        RingWalk(net, ring, i, k);
      } else {
        SuccIterAdd(net, ring[i], n - i, k - (n - i));
        RingWalk(net, ring, 0, k - (n - i));
      }
    }
  }

  // JOIN and LEAVE handshakes.

  /** `listen` handles a JOIN at a node whose predecessor is on localhost as
      both drafts do: ACCEPT(old predecessor) to the joiner, NEWSUCCESSOR
      (joiner) to the old predecessor, predecessor := joiner. */
  ghost predicate TakesJoin(listen: (PeerState, Json) -> Outcome) {
    forall p: PeerState, alias: string, port: int | p.pred.ip == Localhost ::
      listen(p, JoinJson(alias, port)) ==
        Handled(p.(outbox := p.outbox + [Send(AcceptJson(p.pred.ip, p.pred.port), Addr(Localhost, port)),
                                         Send(NewSuccessorJson(Localhost, port), p.pred)],
                   pred := Addr(Localhost, port)))
  }

  /** `listen` handles ACCEPT, LEAVE and NEWSUCCESSOR as both drafts do. */
  ghost predicate TakesPointers(listen: (PeerState, Json) -> Outcome) {
    && (forall p: PeerState, a: Addr :: listen(p, AcceptJson(a.ip, a.port)) == Handled(p.(pred := a)))
    && (forall p: PeerState, a: Addr :: listen(p, LeaveJson(a.ip, a.port)) == Handled(p.(pred := a)))
    && (forall p: PeerState, a: Addr :: listen(p, NewSuccessorJson(a.ip, a.port)) == Handled(p.(succ := a)))
  }

  lemma {:induction false} ListenerTakesHandshakes(d: Draft)
    ensures TakesJoin(Listener(d)) && TakesPointers(Listener(d))
  {
    forall p: PeerState, alias: string, port: int | p.pred.ip == Localhost
      ensures Listener(d)(p, JoinJson(alias, port)) ==
        Handled(p.(outbox := p.outbox + [Send(AcceptJson(p.pred.ip, p.pred.port), Addr(Localhost, port)),
                                         Send(NewSuccessorJson(Localhost, port), p.pred)],
                   pred := Addr(Localhost, port)))
    {
      DraftsAgreeOnJoin(d, p, alias, port);
    }
    forall p: PeerState, a: Addr
      ensures Listener(d)(p, AcceptJson(a.ip, a.port)) == Handled(p.(pred := a))
      ensures Listener(d)(p, LeaveJson(a.ip, a.port)) == Handled(p.(pred := a))
      ensures Listener(d)(p, NewSuccessorJson(a.ip, a.port)) == Handled(p.(succ := a))
    {
      DraftsAgreeOnPointers(d, p, a);
    }
  }

  /** A delivery that the listener handles replaces the receiver's state. */
  lemma DeliverHandled(listen: (PeerState, Json) -> Outcome, net: Net, s: Send, q: PeerState)
    requires Up(net, s.to) && listen(net.peers[s.to], s.payload) == Handled(q)
    ensures Deliver(listen, net, s) == net.(peers := net.peers[s.to := q])
  {
  }

  /** `x` has sent a JOIN to `b` as its `sent`-th object: it is delivered,
      and if b queued two objects in reply, b's NEWSUCCESSOR to its old
      predecessor is delivered, then b's ACCEPT to x. b sends ACCEPT first;
      when the two go to different nodes (the old predecessor is not x, as
      the handshake lemmas require), the order of the two deliveries does
      not change the result (JoinRepliesInSendOrder). */
  function JoinReplies(listen: (PeerState, Json) -> Outcome, n1: Net, x: Addr, b: Addr, sent: nat): (r: Net)
    requires x in n1.peers && b in n1.peers && sent < |n1.peers[x].outbox|
    ensures r.peers.Keys == n1.peers.Keys
  {
    var n2 := Deliver(listen, n1, n1.peers[x].outbox[sent]);
    var k := |n1.peers[b].outbox|;
    if |n2.peers[b].outbox| >= k + 2 then
      var accept := n2.peers[b].outbox[k];
      var newSuccessor := n2.peers[b].outbox[k + 1];
      Deliver(listen, Deliver(listen, n2, newSuccessor), accept)
    else n2
  }

  /** `x` joins at `b` in draft `d` and the handshake runs: the JOIN and
      then b's two replies are each delivered once. */
  function JoinRun(d: Draft, net: Net, x: Addr, b: Addr): (r: Net)
    requires x in net.peers && b in net.peers
    ensures r.peers.Keys == net.peers.Keys
  {
    JoinRunWith(Listener(d), d, net, x, b)
  }

  /** JoinRun with the nodes' listener as a parameter, so that proofs about
      it need only the listener properties they use. */
  function JoinRunWith(listen: (PeerState, Json) -> Outcome, d: Draft, net: Net, x: Addr, b: Addr): (r: Net)
    requires x in net.peers && b in net.peers
    ensures r.peers.Keys == net.peers.Keys
  {
    JoinReplies(listen, net.(peers := net.peers[x := ActJoin(d, net.peers[x], b)]), x, b, |net.peers[x].outbox|)
  }

  /** Where the joiner's client leaves it in both drafts when its successor
      is on localhost: JOIN(alias, port) sent to b, and b as successor. */
  function Joining(p: PeerState, b: Addr): PeerState {
    SelfContained.ClientJoin(p, b.ip, b.port)
  }

  /** The JOIN reaches the contacted node b, which takes x as predecessor
      and queues ACCEPT(old predecessor) to x, then NEWSUCCESSOR(x) to the
      old predecessor; the rest of the run delivers those two. */
  lemma {:induction false} JoinReaches(listen: (PeerState, Json) -> Outcome, net: Net, x: Addr, b: Addr)
    requires TakesJoin(listen) && WellAddressed(net) && Up(net, x) && Up(net, b) && x != b
    requires Up(net, net.peers[b].pred)
    ensures var P := net.peers;
      var a := P[b].pred;
      var accept := Send(AcceptJson(a.ip, a.port), x);
      var newSuccessor := Send(NewSuccessorJson(x.ip, x.port), a);
      var qb := P[b].(outbox := P[b].outbox + [accept, newSuccessor], pred := x);
      JoinReplies(listen, net.(peers := P[x := Joining(P[x], b)]), x, b, |P[x].outbox|) ==
        Deliver(listen, Deliver(listen, net.(peers := P[x := Joining(P[x], b)][b := qb]), newSuccessor), accept)
  {
    var P := net.peers;
    var a := P[b].pred;
    assert b == SelfAddr(P[b]) && a == SelfAddr(P[a]) && x == SelfAddr(P[x]);
    var join := Send(JoinJson(P[x].alias, P[x].myPort), b);
    var n1 := net.(peers := P[x := Joining(P[x], b)]);
    assert n1.peers[x].outbox[|P[x].outbox|] == join && n1.peers[b] == P[b];
    var accept := Send(AcceptJson(a.ip, a.port), x);
    var newSuccessor := Send(NewSuccessorJson(x.ip, x.port), a);
    var qb := P[b].(outbox := P[b].outbox + [accept, newSuccessor], pred := x);
    assert listen(P[b], join.payload) == Handled(qb);
    DeliverHandled(listen, n1, join, qb);
    var n2 := n1.(peers := n1.peers[b := qb]);
    var k := |P[b].outbox|;
    assert n2.peers[b].outbox[k] == accept && n2.peers[b].outbox[k + 1] == newSuccessor;
  }

  /** Delivering b's two replies in the order b sent them, ACCEPT first,
      gives the same network as the run. */
  lemma {:induction false} JoinRepliesInSendOrder(listen: (PeerState, Json) -> Outcome, net: Net, x: Addr, b: Addr)
    requires TakesJoin(listen) && WellAddressed(net) && Up(net, x) && Up(net, b) && x != b
    requires Up(net, net.peers[b].pred) && net.peers[b].pred != x
    ensures var P := net.peers;
      var a := P[b].pred;
      var accept := Send(AcceptJson(a.ip, a.port), x);
      var newSuccessor := Send(NewSuccessorJson(x.ip, x.port), a);
      var qb := P[b].(outbox := P[b].outbox + [accept, newSuccessor], pred := x);
      JoinReplies(listen, net.(peers := P[x := Joining(P[x], b)]), x, b, |P[x].outbox|) ==
        Deliver(listen, Deliver(listen, net.(peers := P[x := Joining(P[x], b)][b := qb]), accept), newSuccessor)
  {
    var P := net.peers;
    var a := P[b].pred;
    var accept := Send(AcceptJson(a.ip, a.port), x);
    var newSuccessor := Send(NewSuccessorJson(x.ip, x.port), a);
    var qb := P[b].(outbox := P[b].outbox + [accept, newSuccessor], pred := x);
    JoinReaches(listen, net, x, b);
    DeliveriesCommute(listen, net.(peers := P[x := Joining(P[x], b)][b := qb]), newSuccessor, accept);
  }

  /** The JOIN handshake in pointer terms: the joiner's successor becomes
      the contacted node and its predecessor that node's old predecessor;
      the contacted node's predecessor and the old predecessor's successor
      both become the joiner; no other node changes. */
  lemma {:induction false} JoinHandshake(listen: (PeerState, Json) -> Outcome, net: Net, x: Addr, b: Addr)
    requires TakesJoin(listen) && TakesPointers(listen)
    requires WellAddressed(net) && Up(net, x) && Up(net, b) && x != b
    requires Up(net, net.peers[b].pred) && net.peers[b].pred != x
    ensures var r := JoinReplies(listen, net.(peers := net.peers[x := Joining(net.peers[x], b)]), x, b, |net.peers[x].outbox|);
      var P := net.peers;
      var a := P[b].pred;
      && r.down == net.down && r.peers.Keys == P.Keys
      && r.peers[x].succ == b && r.peers[x].pred == a
      && r.peers[b].pred == x && (a != b ==> r.peers[b].succ == P[b].succ)
      && r.peers[a].succ == x && (a != b ==> r.peers[a].pred == P[a].pred)
      && forall y :: y in P && y != x && y != a && y != b ==> r.peers[y] == P[y]
  {
    var P := net.peers;
    var a := P[b].pred;
    JoinReaches(listen, net, x, b);
    var accept := Send(AcceptJson(a.ip, a.port), x);
    var newSuccessor := Send(NewSuccessorJson(x.ip, x.port), a);
    var px := Joining(P[x], b);
    var qb := P[b].(outbox := P[b].outbox + [accept, newSuccessor], pred := x);
    var n2 := net.(peers := P[x := px][b := qb]);
    // a takes x as successor.
    var pa := n2.peers[a];
    assert listen(pa, newSuccessor.payload) == Handled(pa.(succ := x));
    DeliverHandled(listen, n2, newSuccessor, pa.(succ := x));
    var n3 := n2.(peers := n2.peers[a := pa.(succ := x)]);
    // x takes a as predecessor.
    assert n3.peers[x] == px;
    assert listen(px, accept.payload) == Handled(px.(pred := a));
    DeliverHandled(listen, n3, accept, px.(pred := a));
    JoinPointers(P, x, b, px, qb);
  }

  /** The three pointer updates of the JOIN handshake, on the node map
      alone: b and then a are updated after x, and x once more last. */
  lemma {:induction false} JoinPointers(P: map<Addr, PeerState>, x: Addr, b: Addr, px: PeerState, qb: PeerState)
    requires x in P && b in P && P[b].pred in P && x != b && P[b].pred != x
    requires px.succ == b && qb.pred == x && qb.succ == P[b].succ
    ensures var a := P[b].pred;
      var n2 := P[x := px][b := qb];
      var r := n2[a := n2[a].(succ := x)][x := px.(pred := a)];
      && r.Keys == P.Keys
      && r[x].succ == b && r[x].pred == a
      && r[b].pred == x && (a != b ==> r[b].succ == P[b].succ)
      && r[a].succ == x && (a != b ==> r[a].pred == P[a].pred)
      && forall y :: y in P && y != x && y != a && y != b ==> r[y] == P[y]
  {
  }

  /** A handled object never changes the receiver's listen port. */
  ghost predicate KeepsPorts(listen: (PeerState, Json) -> Outcome) {
    forall p: PeerState, j: Json :: listen(p, j).Handled? ==> listen(p, j).next.myPort == p.myPort
  }

  lemma {:induction false} ListenerKeepsPorts(d: Draft)
    ensures KeepsPorts(Listener(d))
  {
    forall p: PeerState, j: Json | Listener(d)(p, j).Handled?
      ensures Listener(d)(p, j).next.myPort == p.myPort
    {
      match d
      case SelfContainedDraft => assert Extends(p, SelfContained.Listen(p, j).next);
      case StandaloneDraft => assert Extends(p, ServerHandlers.Dispatch(p, j).next);
    }
  }

  /** A delivery keeps every node keyed by its own listen address. */
  lemma {:induction false} DeliverKeepsAddresses(listen: (PeerState, Json) -> Outcome, net: Net, s: Send)
    requires KeepsPorts(listen) && WellAddressed(net)
    ensures WellAddressed(Deliver(listen, net, s))
  {
    if Up(net, s.to) {
      var o := listen(net.peers[s.to], s.payload);
      if o.Handled? {
        assert o.next.myPort == net.peers[s.to].myPort;
      }
    }
  }

  /** A JOIN and its replies keep every node keyed by its own address. */
  lemma {:induction false} JoinRunKeepsAddresses(listen: (PeerState, Json) -> Outcome, d: Draft, net: Net, x: Addr, b: Addr)
    requires KeepsPorts(listen) && WellAddressed(net) && x in net.peers && b in net.peers
    ensures WellAddressed(JoinRunWith(listen, d, net, x, b))
  {
    var n1 := net.(peers := net.peers[x := ActJoin(d, net.peers[x], b)]);
    assert ActJoin(d, net.peers[x], b).myPort == net.peers[x].myPort;
    assert WellAddressed(n1);
    JoinRepliesKeepAddresses(listen, n1, x, b, |net.peers[x].outbox|);
  }

  lemma {:induction false} JoinRepliesKeepAddresses(listen: (PeerState, Json) -> Outcome, n1: Net, x: Addr, b: Addr, sent: nat)
    requires KeepsPorts(listen) && WellAddressed(n1)
    requires x in n1.peers && b in n1.peers && sent < |n1.peers[x].outbox|
    ensures WellAddressed(JoinReplies(listen, n1, x, b, sent))
  {
    var n2 := Deliver(listen, n1, n1.peers[x].outbox[sent]);
    DeliverKeepsAddresses(listen, n1, n1.peers[x].outbox[sent]);
    var k := |n1.peers[b].outbox|;
    if |n2.peers[b].outbox| >= k + 2 {
      var accept := n2.peers[b].outbox[k];
      var newSuccessor := n2.peers[b].outbox[k + 1];
      var n3 := Deliver(listen, n2, newSuccessor);
      DeliverKeepsAddresses(listen, n2, newSuccessor);
      DeliverKeepsAddresses(listen, n3, accept);
      assert JoinReplies(listen, n1, x, b, sent) == Deliver(listen, n3, accept);
    } else {
      assert JoinReplies(listen, n1, x, b, sent) == n2;
    }
  }

  /** The LEAVE notices keep every node keyed by its own address. */
  lemma {:induction false} LeaveRunKeepsAddresses(d: Draft, net: Net, x: Addr)
    requires WellAddressed(net) && x in net.peers
    ensures WellAddressed(LeaveRun(d, net, x))
  {
    ListenerKeepsPorts(d);
    var n1 := net.(peers := net.peers[x := ActLeave(d, net.peers[x])]);
    assert ActLeave(d, net.peers[x]).myPort == net.peers[x].myPort;
    assert WellAddressed(n1);
    LeaveNoticesKeepAddresses(Listener(d), n1, x, |net.peers[x].outbox|);
  }

  lemma {:induction false} LeaveNoticesKeepAddresses(listen: (PeerState, Json) -> Outcome, n1: Net, x: Addr, sent: nat)
    requires KeepsPorts(listen) && WellAddressed(n1)
    requires x in n1.peers && sent + 1 < |n1.peers[x].outbox|
    ensures WellAddressed(LeaveNotices(listen, n1, x, sent))
  {
    var n2 := Deliver(listen, n1, n1.peers[x].outbox[sent]);
    DeliverKeepsAddresses(listen, n1, n1.peers[x].outbox[sent]);
    DeliverKeepsAddresses(listen, n2, n1.peers[x].outbox[sent + 1]);
  }

  /** A JOIN splices the joiner in just before the node it contacted: from
      a consistent ring it yields a consistent ring with the joiner between
      that node's old predecessor and the node; nobody else changes, and
      every node stays keyed by its own address, so joins can be chained. */
  lemma {:induction false} JoinSplices(d: Draft, net: Net, ring: seq<Addr>, x: Addr)
    requires RingOf(net, ring) && WellAddressed(net)
    requires Up(net, x) && x !in ring
    requires net.peers[x].succ.ip == Localhost
    ensures ring[0] in net.peers
    ensures var r := JoinRun(d, net, x, ring[0]);
      && RingOf(r, ring + [x])
      && WellAddressed(r)
      && r.down == net.down
      && r.peers.Keys == net.peers.Keys
      && forall y :: y in net.peers && y != x && y != ring[0] && y != ring[|ring| - 1] ==> r.peers[y] == net.peers[y]
  {
    ListenerTakesHandshakes(d);
    ListenerKeepsPorts(d);
    SpliceWith(Listener(d), d, net, ring, x);
  }

  /** JoinSplices for any listener that takes the handshake's messages as
      both drafts do and keeps the receiver's port. */
  lemma {:induction false} SpliceWith(listen: (PeerState, Json) -> Outcome, d: Draft, net: Net, ring: seq<Addr>, x: Addr)
    requires TakesJoin(listen) && TakesPointers(listen) && KeepsPorts(listen)
    requires RingOf(net, ring) && WellAddressed(net)
    requires Up(net, x) && x !in ring
    requires net.peers[x].succ.ip == Localhost
    ensures ring[0] in net.peers
    ensures var r := JoinRunWith(listen, d, net, x, ring[0]);
      && RingOf(r, ring + [x])
      && WellAddressed(r)
      && r.down == net.down
      && r.peers.Keys == net.peers.Keys
      && forall y :: y in net.peers && y != x && y != ring[0] && y != ring[|ring| - 1] ==> r.peers[y] == net.peers[y]
  {
    var n := |ring|;
    var P := net.peers;
    assert Linked(net, ring, 0) && Linked(net, ring, n - 1);
    assert ring[0] == SelfAddr(P[ring[0]]);
    assert ActJoin(d, P[x], ring[0]) == Joining(P[x], ring[0]);
    JoinHandshake(listen, net, x, ring[0]);
    Spliced(net, JoinRunWith(listen, d, net, x, ring[0]), ring, x);
    JoinRunKeepsAddresses(listen, d, net, x, ring[0]);
  }

  /** Joiners `xs` each join through node `b`, one after the other, each
      handshake completing before the next client starts. */
  function JoinAll(d: Draft, net: Net, b: Addr, xs: seq<Addr>): (r: Net)
    requires b in net.peers && forall i :: 0 <= i < |xs| ==> xs[i] in net.peers
    ensures r.peers.Keys == net.peers.Keys
  {
    JoinAllWith(Listener(d), d, net, b, xs)
  }

  function JoinAllWith(listen: (PeerState, Json) -> Outcome, d: Draft, net: Net, b: Addr, xs: seq<Addr>): (r: Net)
    requires b in net.peers && forall i :: 0 <= i < |xs| ==> xs[i] in net.peers
    ensures r.peers.Keys == net.peers.Keys
    decreases |xs|
  {
    if |xs| == 0 then net
    else JoinAllWith(listen, d, JoinRunWith(listen, d, net, xs[0], b), b, xs[1..])
  }

  /** `ring` is a consistent, correctly addressed ring and the joiners `xs`
      are distinct live nodes outside it, each pointing at a local address. */
  ghost predicate ReadyToJoin(net: Net, ring: seq<Addr>, xs: seq<Addr>) {
    && RingOf(net, ring) && WellAddressed(net) && Distinct(xs)
    && forall i :: 0 <= i < |xs| ==> Up(net, xs[i]) && xs[i] !in ring && net.peers[xs[i]].succ.ip == Localhost
  }

  /** Joins chain: starting from a consistent, correctly addressed ring, the
      joiners contacting its first member one by one end up, in join order,
      between its last member and its first, and the network stays correctly
      addressed. */
  lemma {:induction false} JoinsGrowRing(d: Draft, net: Net, ring: seq<Addr>, xs: seq<Addr>)
    requires ReadyToJoin(net, ring, xs)
    ensures ring[0] in net.peers && forall i :: 0 <= i < |xs| ==> xs[i] in net.peers
    ensures var r := JoinAll(d, net, ring[0], xs);
      RingOf(r, ring + xs) && WellAddressed(r) && r.down == net.down
  {
    ListenerTakesHandshakes(d);
    ListenerKeepsPorts(d);
    GrowWith(Listener(d), d, net, ring, xs);
  }

  /** JoinsGrowRing for any listener that takes the handshake's messages as
      both drafts do and keeps the receiver's port. */
  lemma {:induction false} GrowWith(listen: (PeerState, Json) -> Outcome, d: Draft, net: Net, ring: seq<Addr>, xs: seq<Addr>)
    requires TakesJoin(listen) && TakesPointers(listen) && KeepsPorts(listen)
    requires ReadyToJoin(net, ring, xs)
    ensures ring[0] in net.peers && forall i :: 0 <= i < |xs| ==> xs[i] in net.peers
    ensures var r := JoinAllWith(listen, d, net, ring[0], xs);
      RingOf(r, ring + xs) && WellAddressed(r) && r.down == net.down
    decreases |xs|
  {
    assert Up(net, ring[0]);
    if |xs| == 0 {
      assert ring + xs == ring;
    } else {
      SpliceWith(listen, d, net, ring, xs[0]);
      var r := JoinRunWith(listen, d, net, xs[0], ring[0]);
      JoinersStillReady(net, r, ring, xs);
      var ring' := ring + [xs[0]];
      assert ring'[0] == ring[0];
      GrowWith(listen, d, r, ring', xs[1..]);
      assert JoinAllWith(listen, d, net, ring[0], xs) == JoinAllWith(listen, d, r, ring'[0], xs[1..]);
      AppendFirst(ring, xs);
    }
  }

  lemma {:induction false} AppendFirst(ring: seq<Addr>, xs: seq<Addr>)
    requires |xs| >= 1
    ensures ring + [xs[0]] + xs[1..] == ring + xs
  {
    assert [xs[0]] + xs[1..] == xs;
  }

  /** After the first joiner's handshake, which touches only the joiner, the
      contacted node and the last member, the remaining joiners are still
      live, still outside the ring and still point at a local address. */
  lemma {:induction false} JoinersStillReady(net: Net, r: Net, ring: seq<Addr>, xs: seq<Addr>)
    requires |ring| >= 1 && |xs| >= 1 && Distinct(xs)
    requires forall i :: 0 <= i < |xs| ==> Up(net, xs[i]) && xs[i] !in ring && net.peers[xs[i]].succ.ip == Localhost
    requires r.down == net.down && r.peers.Keys == net.peers.Keys
    requires forall y :: y in net.peers && y != xs[0] && y != ring[0] && y != ring[|ring| - 1] ==> r.peers[y] == net.peers[y]
    ensures Distinct(xs[1..])
    ensures forall i :: 0 <= i < |xs| - 1 ==>
      Up(r, xs[1..][i]) && xs[1..][i] !in ring + [xs[0]] && r.peers[xs[1..][i]].succ.ip == Localhost
  {
    forall i | 0 <= i < |xs| - 1
      ensures Up(r, xs[1..][i]) && xs[1..][i] !in ring + [xs[0]] && r.peers[xs[1..][i]].succ.ip == Localhost
    {
      var y := xs[i + 1];
      assert xs[1..][i] == y && y != xs[0];
      assert y != ring[0] && y != ring[|ring| - 1];
    }
  }

  /** The ring part of the splice: a network whose only pointer changes are
      the handshake's is a ring with `x` after the last member. */
  lemma {:induction false} Spliced(net: Net, r: Net, ring: seq<Addr>, x: Addr)
    requires RingOf(net, ring) && x !in ring && r.down == net.down && r.peers.Keys == net.peers.Keys
    requires var b, a := ring[0], ring[|ring| - 1];
      && Up(net, x) && b in net.peers && a in net.peers
      && r.peers[x].succ == b && r.peers[x].pred == a
      && r.peers[b].pred == x && (a != b ==> r.peers[b].succ == net.peers[b].succ)
      && r.peers[a].succ == x && (a != b ==> r.peers[a].pred == net.peers[a].pred)
      && forall y :: y in net.peers && y != x && y != a && y != b ==> r.peers[y] == net.peers[y]
    ensures RingOf(r, ring + [x])
  {
    var n := |ring|;
    var b, a := ring[0], ring[n - 1];
    var ring' := ring + [x];
    assert Distinct(ring') by {
      forall i, k | 0 <= i < k < n + 1 ensures ring'[i] != ring'[k] {
        if k == n { assert ring'[i] == ring[i]; }
      }
    }
    forall i | 0 <= i < n + 1 ensures Linked(r, ring', i) {
      if i < n {
        assert ring'[i] == ring[i] && Linked(net, ring, i);
        if i != 0 && i != n - 1 {
          assert ring[i] != a && ring[i] != b;
        }
      }
    }
  }

  /** `x`, having queued its two notifications as objects `sent` and
      `sent` + 1, has both delivered in that order. */
  function LeaveNotices(listen: (PeerState, Json) -> Outcome, n1: Net, x: Addr, sent: nat): (r: Net)
    requires x in n1.peers && sent + 1 < |n1.peers[x].outbox|
    ensures r.peers.Keys == n1.peers.Keys
  {
    Deliver(listen, Deliver(listen, n1, n1.peers[x].outbox[sent]), n1.peers[x].outbox[sent + 1])
  }

  /** `x` leaves in draft `d` and both notifications are delivered as sent:
      NEWSUCCESSOR to its predecessor, then LEAVE to its successor. */
  function LeaveRun(d: Draft, net: Net, x: Addr): (r: Net)
    requires x in net.peers
    ensures r.peers.Keys == net.peers.Keys
  {
    LeaveNotices(Listener(d), net.(peers := net.peers[x := ActLeave(d, net.peers[x])]), x, |net.peers[x].outbox|)
  }

  /** Where the leaver's client leaves it in both drafts: NEWSUCCESSOR
      (successor) sent to the predecessor, then LEAVE(predecessor) to the
      successor (see DraftsAgreeOnLeave). */
  function Leaving(p: PeerState): PeerState {
    SelfContained.ClientLeave(p)
  }

  /** The LEAVE notifications in pointer terms: the leaver's predecessor
      takes the leaver's successor as its successor, the successor takes the
      predecessor as its predecessor, and nothing else changes but the
      leaver's outbox. */
  lemma {:induction false} LeaveHandshake(listen: (PeerState, Json) -> Outcome, net: Net, x: Addr)
    requires TakesPointers(listen) && x in net.peers
    requires Up(net, net.peers[x].pred) && Up(net, net.peers[x].succ)
    requires net.peers[x].pred != x && net.peers[x].succ != x
    ensures var r := LeaveNotices(listen, net.(peers := net.peers[x := Leaving(net.peers[x])]), x, |net.peers[x].outbox|);
      var P := net.peers;
      var s, a := P[x].succ, P[x].pred;
      && r.down == net.down && r.peers.Keys == P.Keys
      && r.peers[x] == Leaving(P[x])
      && r.peers[x].succ == s && r.peers[x].pred == a
      && r.peers[a].succ == s && (a != s ==> r.peers[a].pred == P[a].pred)
      && r.peers[s].pred == a && (a != s ==> r.peers[s].succ == P[s].succ)
      && forall y :: y in P && y != x && y != a && y != s ==> r.peers[y] == P[y]
  {
    var P := net.peers;
    var s, a := P[x].succ, P[x].pred;
    var toPred := Send(NewSuccessorJson(s.ip, s.port), a);
    var toSucc := Send(LeaveJson(a.ip, a.port), s);
    var px := Leaving(P[x]);
    var n1 := net.(peers := P[x := px]);
    var k := |P[x].outbox|;
    assert n1.peers[x].outbox[k] == toPred && n1.peers[x].outbox[k + 1] == toSucc;
    assert listen(P[a], toPred.payload) == Handled(P[a].(succ := s));
    DeliverHandled(listen, n1, toPred, P[a].(succ := s));
    var n2 := n1.(peers := n1.peers[a := P[a].(succ := s)]);
    var ps := n2.peers[s];
    assert listen(ps, toSucc.payload) == Handled(ps.(pred := a));
    DeliverHandled(listen, n2, toSucc, ps.(pred := a));
    LeavePointers(P, x, px);
  }

  /** The two pointer updates of the LEAVE notifications, on the node map
      alone: the predecessor's and then the successor's. */
  lemma {:induction false} LeavePointers(P: map<Addr, PeerState>, x: Addr, px: PeerState)
    requires x in P && P[x].succ in P && P[x].pred in P && P[x].pred != x && P[x].succ != x
    requires px.succ == P[x].succ && px.pred == P[x].pred
    ensures var s, a := P[x].succ, P[x].pred;
      var n2 := P[x := px][a := P[a].(succ := s)];
      var r := n2[s := n2[s].(pred := a)];
      && r.Keys == P.Keys
      && r[x] == px
      && r[x].succ == s && r[x].pred == a
      && r[a].succ == s && (a != s ==> r[a].pred == P[a].pred)
      && r[s].pred == a && (a != s ==> r[s].succ == P[s].succ)
      && forall y :: y in P && y != x && y != a && y != s ==> r[y] == P[y]
  {
  }

  /** When a member of a consistent ring of two or more leaves, its two
      neighbours are linked to each other and the rest is a consistent
      ring without it; nobody else changes, and a correctly addressed
      network stays so. */
  lemma {:induction false} LeaveRelinks(d: Draft, net: Net, ring: seq<Addr>)
    requires RingOf(net, ring) && |ring| >= 2
    ensures ring[0] in net.peers
    ensures var r := LeaveRun(d, net, ring[0]);
      && RingOf(r, ring[1..])
      && (WellAddressed(net) ==> WellAddressed(r))
      && r.down == net.down
      && r.peers.Keys == net.peers.Keys
      && forall y :: y in net.peers && y != ring[0] && y != ring[1] && y != ring[|ring| - 1] ==> r.peers[y] == net.peers[y]
  {
    var n := |ring|;
    assert Linked(net, ring, 0) && Linked(net, ring, 1) && Linked(net, ring, n - 1);
    ListenerTakesHandshakes(d);
    assert ActLeave(d, net.peers[ring[0]]) == Leaving(net.peers[ring[0]]);
    LeaveHandshake(Listener(d), net, ring[0]);
    Unlinked(net, LeaveRun(d, net, ring[0]), ring);
    if WellAddressed(net) {
      LeaveRunKeepsAddresses(d, net, ring[0]);
    }
  }

  /** The ring part of a departure: a network whose only pointer changes are
      the notifications' is a ring of the remaining members. */
  lemma {:induction false} Unlinked(net: Net, r: Net, ring: seq<Addr>)
    requires RingOf(net, ring) && |ring| >= 2 && r.down == net.down && r.peers.Keys == net.peers.Keys
    requires var x, s, a := ring[0], ring[1], ring[|ring| - 1];
      && s in net.peers && a in net.peers
      && r.peers[a].succ == s && (a != s ==> r.peers[a].pred == net.peers[a].pred)
      && r.peers[s].pred == a && (a != s ==> r.peers[s].succ == net.peers[s].succ)
      && forall y :: y in net.peers && y != x && y != a && y != s ==> r.peers[y] == net.peers[y]
    ensures RingOf(r, ring[1..])
  {
    var n := |ring|;
    var x, s, a := ring[0], ring[1], ring[n - 1];
    var ring' := ring[1..];
    forall i | 0 <= i < n - 1 ensures Linked(r, ring', i) {
      assert ring'[i] == ring[i + 1] && Linked(net, ring, i + 1);
      if i != 0 && i != n - 2 {
        assert ring[i + 1] != a && ring[i + 1] != s;
      }
    }
  }

  /** Ring A -> B -> C -> A, all on localhost; D joins at B. Afterwards B's
      predecessor and A's successor are D, D sits between A and B, and C
      is untouched: read from B, the ring is B -> C -> A -> D -> B. */
  lemma {:induction false} JoinScenario(d: Draft, net: Net, a: Addr, b: Addr, c: Addr, x: Addr)
    requires RingOf(net, [a, b, c]) && WellAddressed(net)
    requires Up(net, x) && x != a && x != b && x != c
    requires net.peers[x].succ.ip == Localhost
    ensures a in net.peers && b in net.peers && c in net.peers
    ensures var r := JoinRun(d, net, x, b);
      && r.peers[b].pred == x && r.peers[a].succ == x
      && r.peers[x].succ == b && r.peers[x].pred == a
      && r.peers[c] == net.peers[c]
      && RingOf(r, [b, c, a, x])
  {
    assert [a, b, c][0] == a && [a, b, c][1] == b && [a, b, c][2] == c;
    RingRotate(net, [a, b, c], 1);
    assert [a, b, c][1..] + [a, b, c][..1] == [b, c, a];
    JoinSplices(d, net, [b, c, a], x);
    var r := JoinRun(d, net, x, b);
    assert [b, c, a] + [x] == [b, c, a, x];
    assert Linked(r, [b, c, a, x], 0) && Linked(r, [b, c, a, x], 2) && Linked(r, [b, c, a, x], 3);
  }

  /** Ring A -> B -> C -> A; B leaves. Afterwards A and C point at each
      other: the ring is A -> C -> A. */
  lemma {:induction false} LeaveScenario(d: Draft, net: Net, a: Addr, b: Addr, c: Addr)
    requires RingOf(net, [a, b, c])
    ensures a in net.peers && b in net.peers && c in net.peers
    ensures var r := LeaveRun(d, net, b);
      && r.peers[a].succ == c && r.peers[c].pred == a
      && RingOf(r, [a, c])
  {
    assert [a, b, c][0] == a && [a, b, c][1] == b && [a, b, c][2] == c;
    RingRotate(net, [a, b, c], 1);
    assert [a, b, c][1..] + [a, b, c][..1] == [b, c, a];
    LeaveRelinks(d, net, [b, c, a]);
    var r := LeaveRun(d, net, b);
    assert [b, c, a][1..] == [c, a];
    assert Linked(r, [c, a], 0) && Linked(r, [c, a], 1);
    RingRotate(r, [c, a], 1);
    assert [c, a][1..] + [c, a][..1] == [a, c];
  }

  /** Where position k of `ring` read from member i onwards lies in `ring`. */
  function Shift(i: nat, k: nat, n: nat): nat {
    if i + k < n then i + k else i + k - n
  }

  lemma {:induction false} Rotated(ring: seq<Addr>, i: nat, k: nat)
    requires i < |ring| && k < |ring|
    ensures Shift(i, k, |ring|) < |ring|
    ensures (ring[i..] + ring[..i])[k] == ring[Shift(i, k, |ring|)]
  {
  }

  lemma {:induction false} RotatedDistinct(ring: seq<Addr>, i: nat)
    requires Distinct(ring) && i < |ring|
    ensures Distinct(ring[i..] + ring[..i])
  {
    var n := |ring|;
    var rot := ring[i..] + ring[..i];
    forall k, k' | 0 <= k < k' < n ensures rot[k] != rot[k'] {
      Rotated(ring, i, k);
      Rotated(ring, i, k');
      var u, v := Shift(i, k, n), Shift(i, k', n);
      assert u != v;
      if u < v {} else {}
    }
  }

  lemma {:induction false} RotatedLinked(net: Net, ring: seq<Addr>, i: nat, k: nat)
    requires RingOf(net, ring) && i < |ring| && k < |ring|
    ensures Up(net, (ring[i..] + ring[..i])[k]) && Linked(net, ring[i..] + ring[..i], k)
  {
    var n := |ring|;
    var u := Shift(i, k, n);
    Rotated(ring, i, k);
    Rotated(ring, i, Next(k, n));
    Rotated(ring, i, Prev(k, n));
    assert Linked(net, ring, u);
    assert Shift(i, Next(k, n), n) == Next(u, n) && Shift(i, Prev(k, n), n) == Prev(u, n);
  }

  /** A ring read from any member onwards is the same ring. */
  lemma {:induction false} RingRotate(net: Net, ring: seq<Addr>, i: nat)
    requires RingOf(net, ring) && i < |ring|
    ensures RingOf(net, ring[i..] + ring[..i])
  {
    var rot := ring[i..] + ring[..i];
    RotatedDistinct(ring, i);
    forall k | 0 <= k < |rot| ensures Up(net, rot[k]) && Linked(net, rot, k) {
      RotatedLinked(net, ring, i, k);
    }
  }

  // PUT.

  /** Where a flooded PUT stops: the network after the last handling, how
      many listeners handled it, and which was last. */
  datatype Trip = Trip(net: Net, hops: nat, last: Addr)

  /** Deliver `s`, then whatever its handler forwards, and so on, until a
      handler forwards nothing or `fuel` deliveries have been made. */
  function Flood(listen: (PeerState, Json) -> Outcome, net: Net, s: Send, fuel: nat): (t: Trip)
    ensures t.net.peers.Keys == net.peers.Keys
    ensures t.hops <= fuel
    decreases fuel
  {
    if fuel == 0 || !Up(net, s.to) then Trip(net, 0, s.to)
    else
      var k := |net.peers[s.to].outbox|;
      var next := Deliver(listen, net, s);
      if |next.peers[s.to].outbox| > k then
        var t := Flood(listen, next, next.peers[s.to].outbox[k], fuel - 1);
        Trip(t.net, t.hops + 1, t.last)
      else Trip(next, 1, s.to)
  }

  /** No two members of `ring` share an alias. */
  ghost predicate UniqueAliases(net: Net, ring: seq<Addr>) {
    forall i, k :: 0 <= i < |ring| && 0 <= k < |ring| && ring[i] in net.peers && ring[k] in net.peers && ring[i] != ring[k] ==>
      net.peers[ring[i]].alias != net.peers[ring[k]].alias
  }

  /** Position `k` of a ring of `n`, where position `n` is the origin again. */
  function Wrap(k: nat, n: nat): nat
    requires k <= n
  {
    if k == n then 0 else k
  }

  /** The first position from `k` on whose node bears `recipient`'s alias,
      or |ring| when none does. */
  ghost function Holder(net: Net, ring: seq<Addr>, recipient: string, k: nat): (m: nat)
    requires RingOf(net, ring) && k <= |ring|
    ensures k <= m <= |ring|
    ensures forall i :: k <= i < m ==> net.peers[ring[i]].alias != recipient
    ensures m < |ring| ==> net.peers[ring[m]].alias == recipient
    decreases |ring| - k
  {
    if k == |ring| then k
    else
      assert Linked(net, ring, k);
      if net.peers[ring[k]].alias == recipient then k
      else
        var m := Holder(net, ring, recipient, k + 1);
        assert forall i :: k + 1 <= i < m ==> net.peers[ring[i]].alias != recipient;
        m
  }

  function Pushed(p: PeerState, s: Send): PeerState {
    p.(outbox := p.outbox + [s])
  }

  function Logged(p: PeerState, e: Event): PeerState {
    p.(log := p.log + [e])
  }

  /** `net` after members 1 .. k-1 of `ring` have each forwarded `j` once
      to the member after them. */
  ghost function Forwarded(net: Net, ring: seq<Addr>, j: Json, k: nat): (r: Net)
    requires RingOf(net, ring) && k <= |ring|
    ensures r.down == net.down && r.peers.Keys == net.peers.Keys
    decreases k
  {
    if k <= 1 then net
    else
      var f := Forwarded(net, ring, j, k - 1);
      var a := ring[k - 1];
      assert Linked(net, ring, k - 1);
      f.(peers := f.peers[a := Pushed(net.peers[a], Send(j, ring[Next(k - 1, |ring|)]))])
  }

  lemma {:induction false} ForwardedAt(net: Net, ring: seq<Addr>, j: Json, k: nat, i: nat)
    requires RingOf(net, ring) && k <= |ring| && i < |ring|
    ensures ring[i] in net.peers
    ensures 1 <= i < k ==>
      Forwarded(net, ring, j, k).peers[ring[i]] == Pushed(net.peers[ring[i]], Send(j, ring[Next(i, |ring|)]))
    ensures !(1 <= i < k) ==> Forwarded(net, ring, j, k).peers[ring[i]] == net.peers[ring[i]]
    decreases k
  {
    assert Up(net, ring[i]);
    if k > 1 {
      ForwardedAt(net, ring, j, k - 1, i);
      ForwardedStep(net, ring, j, k, i);
    }
  }

  /** Member k - 1 is the only one whose state the k-th step of Forwarded changes. */
  lemma {:induction false} ForwardedStep(net: Net, ring: seq<Addr>, j: Json, k: nat, i: nat)
    requires RingOf(net, ring) && 1 < k <= |ring| && i < |ring|
    ensures ring[i] in net.peers
    ensures Forwarded(net, ring, j, k).peers[ring[i]] ==
      if i == k - 1 then Pushed(net.peers[ring[i]], Send(j, ring[Next(i, |ring|)]))
      else Forwarded(net, ring, j, k - 1).peers[ring[i]]
  {
    assert Up(net, ring[i]);
    var f := Forwarded(net, ring, j, k - 1).peers;
    var a := ring[k - 1];
    var pushed := Pushed(net.peers[a], Send(j, ring[Next(k - 1, |ring|)]));
    assert Forwarded(net, ring, j, k).peers == f[a := pushed];
    if i != k - 1 {
      assert ring[i] != a;
    }
  }

  lemma {:induction false} ForwardedElsewhere(net: Net, ring: seq<Addr>, j: Json, k: nat, y: Addr)
    requires RingOf(net, ring) && k <= |ring| && y in net.peers && y !in ring
    ensures Forwarded(net, ring, j, k).peers[y] == net.peers[y]
    decreases k
  {
    if k > 1 {
      ForwardedElsewhere(net, ring, j, k - 1, y);
    }
  }

  /** The end of a PUT's trip: members 1 .. m-1 forwarded it and member m
      (the origin itself when m is |ring|) logged `e`. */
  ghost function Settled(net: Net, ring: seq<Addr>, j: Json, e: Event, m: nat): Net
    requires RingOf(net, ring) && 1 <= m <= |ring|
  {
    var f := Forwarded(net, ring, j, m);
    var a := ring[Wrap(m, |ring|)];
    assert Linked(net, ring, Wrap(m, |ring|));
    f.(peers := f.peers[a := Logged(net.peers[a], e)])
  }

  /** What the PUT's last handler logs: a delivery at the first bearer of
      the alias, else the report of an unavailable recipient at the origin. */
  function Ending(m: nat, n: nat, sender: string, recipient: string, text: string): Event {
    if m < n then Delivered(sender, text) else Unavailable(recipient)
  }

  /** Every listener of draft `d` treats `j` as the PUT (sender, recipient, text). */
  ghost predicate CarriesPut(listen: (PeerState, Json) -> Outcome, j: Json, sender: string, recipient: string, text: string) {
    forall x :: listen(x, j) == Handled(HandlePut(x, j, sender, recipient, text))
  }

  lemma {:induction false} PutJsonIsCarried(d: Draft, sender: string, recipient: string, text: string)
    ensures CarriesPut(Listener(d), PutJson(sender, recipient, text), sender, recipient, text)
  {
    forall x {
      DraftsAgreeOnPut(d, x, sender, recipient, text);
    }
  }

  /** One hop of a flood whose first delivery is handled. */
  lemma {:induction false} FloodStep(listen: (PeerState, Json) -> Outcome, net: Net, s: Send, fuel: nat, q: PeerState)
    requires fuel > 0 && Up(net, s.to) && listen(net.peers[s.to], s.payload) == Handled(q)
    ensures var k := |net.peers[s.to].outbox|;
      var next := net.(peers := net.peers[s.to := q]);
      Flood(listen, net, s, fuel) ==
        if |q.outbox| > k then
          var t := Flood(listen, next, q.outbox[k], fuel - 1);
          Trip(t.net, t.hops + 1, t.last)
        else Trip(next, 1, s.to)
  {
    DeliverHandled(listen, net, s, q);
  }

  /** The trip of `j` as it leaves member k, members 1 .. k-1 having
      already forwarded it. */
  ghost function TripFrom(listen: (PeerState, Json) -> Outcome, net: Net, ring: seq<Addr>, j: Json, k: nat, fuel: nat): Trip
    requires RingOf(net, ring) && k <= |ring|
  {
    Flood(listen, Forwarded(net, ring, j, k), Send(j, ring[Wrap(k, |ring|)]), fuel)
  }

  /** A member before the alias's first bearer forwards the PUT unchanged
      to its successor. */
  lemma {:induction false} ForwardHop(listen: (PeerState, Json) -> Outcome, net: Net, ring: seq<Addr>, j: Json, sender: string, recipient: string, text: string, k: nat)
    requires RingOf(net, ring) && sender == net.peers[ring[0]].alias && CarriesPut(listen, j, sender, recipient, text)
    requires forall i :: 0 < i < |ring| ==> net.peers[ring[i]].alias != sender
    requires 1 <= k < |ring| && net.peers[ring[k]].alias != recipient
    ensures HopFrom(listen, net, ring, j, k)
  {
    var n := |ring|;
    var fuel := n + 1 - k;
    var f := Forwarded(net, ring, j, k);
    var at := ring[k];
    ForwardedAt(net, ring, j, k, k);
    assert Linked(net, ring, k) && Linked(net, ring, 0);
    var p := net.peers[at];
    assert f.peers[at] == p && Up(f, at);
    assert p.alias != sender;
    assert listen(p, j) == Handled(HandlePut(p, j, sender, recipient, text));
    var q := Pushed(p, Send(j, ring[Next(k, n)]));
    assert HandlePut(p, j, sender, recipient, text) == q;
    FloodStep(listen, f, Send(j, at), fuel, q);
    assert f.(peers := f.peers[at := q]) == Forwarded(net, ring, j, k + 1);
    assert q.outbox[|p.outbox|] == Send(j, ring[Wrap(k + 1, |ring|)]);
    assert fuel - 1 == n - k;
  }

  /** The alias's first bearer, or failing that the origin, logs the outcome
      and forwards nothing. */
  lemma {:induction false} FinalHop(listen: (PeerState, Json) -> Outcome, net: Net, ring: seq<Addr>, j: Json, sender: string, recipient: string, text: string, fuel: nat)
    requires RingOf(net, ring) && sender == net.peers[ring[0]].alias && CarriesPut(listen, j, sender, recipient, text)
    requires forall i :: 0 < i < |ring| ==> net.peers[ring[i]].alias != sender
    requires fuel > 0
    ensures var n := |ring|;
      var m := Holder(net, ring, recipient, 1);
      var u := TripFrom(listen, net, ring, j, m, fuel);
      u.net == Settled(net, ring, j, Ending(m, n, sender, recipient, text), m) && u.hops == 1 && u.last == ring[Wrap(m, n)]
  {
    var n := |ring|;
    var m := Holder(net, ring, recipient, 1);
    var f := Forwarded(net, ring, j, m);
    var w := Wrap(m, n);
    var at := ring[w];
    ForwardedAt(net, ring, j, m, w);
    assert Linked(net, ring, w) && Linked(net, ring, 0);
    var p := net.peers[at];
    assert f.peers[at] == p && Up(f, at);
    if m < n {
      assert at != ring[0] && p.alias == recipient && p.alias != sender;
    } else {
      assert at == ring[0];
    }
    assert listen(p, j) == Handled(HandlePut(p, j, sender, recipient, text));
    var q := Logged(p, Ending(m, n, sender, recipient, text));
    assert HandlePut(p, j, sender, recipient, text) == q;
    FloodStep(listen, f, Send(j, at), fuel, q);
  }

  /** Member i, which does not bear the recipient's alias, forwards the PUT
      to member i + 1: the trip from i, with fuel for the rest of the ring,
      ends where the trip from i + 1 ends, one hop later. */
  ghost predicate HopFrom(listen: (PeerState, Json) -> Outcome, net: Net, ring: seq<Addr>, j: Json, i: nat)
    requires RingOf(net, ring) && 1 <= i < |ring|
  {
    var u := TripFrom(listen, net, ring, j, i, |ring| + 1 - i);
    var t := TripFrom(listen, net, ring, j, i + 1, |ring| - i);
    u.net == t.net && u.hops == t.hops + 1 && u.last == t.last
  }

  /** Every member before the alias's first bearer forwards the PUT. */
  lemma {:induction false} HopsAlong(listen: (PeerState, Json) -> Outcome, net: Net, ring: seq<Addr>, j: Json, sender: string, recipient: string, text: string)
    requires RingOf(net, ring) && sender == net.peers[ring[0]].alias && CarriesPut(listen, j, sender, recipient, text)
    requires forall i :: 0 < i < |ring| ==> net.peers[ring[i]].alias != sender
    ensures forall i :: 1 <= i < Holder(net, ring, recipient, 1) ==> HopFrom(listen, net, ring, j, i)
  {
    forall i | 1 <= i < Holder(net, ring, recipient, 1)
      ensures HopFrom(listen, net, ring, j, i)
    {
      ForwardHop(listen, net, ring, j, sender, recipient, text, i);
    }
  }

  /** The trip from i ends where the trip from i + 1 ends, one hop later. */
  ghost predicate Hop(t: nat -> Trip, i: nat) {
    t(i).net == t(i + 1).net && t(i).hops == t(i + 1).hops + 1 && t(i).last == t(i + 1).last
  }

  /** Trips that each end where the next one ends, one hop later, chain:
      the trip from k ends where the trip from m ends, m - k hops later. */
  lemma {:induction false} FloodFrom(t: nat -> Trip, k: nat, m: nat)
    requires k <= m
    requires forall i: nat :: k <= i < m ==> Hop(t, i)
    ensures t(k).net == t(m).net && t(k).hops == t(m).hops + (m - k) && t(k).last == t(m).last
    decreases m - k
  {
    if k < m {
      assert Hop(t, k);
      FloodFrom(t, k + 1, m);
    }
  }

  /** The trips of `j` leaving each member in turn, each with fuel for the
      rest of the ring. */
  ghost function Legs(listen: (PeerState, Json) -> Outcome, net: Net, ring: seq<Addr>, j: Json): nat -> Trip
    requires RingOf(net, ring)
  {
    (i: nat) => if i <= |ring| then TripFrom(listen, net, ring, j, i, |ring| + 1 - i) else Trip(net, 0, ring[0])
  }

  lemma {:induction false} LegAt(listen: (PeerState, Json) -> Outcome, net: Net, ring: seq<Addr>, j: Json, i: nat, fuel: nat)
    requires RingOf(net, ring) && i <= |ring| && fuel == |ring| + 1 - i
    ensures Legs(listen, net, ring, j)(i) == TripFrom(listen, net, ring, j, i, fuel)
  {
  }

  lemma {:induction false} LegsAt(listen: (PeerState, Json) -> Outcome, net: Net, ring: seq<Addr>, j: Json, i: nat)
    requires RingOf(net, ring) && 1 <= i < |ring|
    ensures Legs(listen, net, ring, j)(i) == TripFrom(listen, net, ring, j, i, |ring| + 1 - i)
    ensures Legs(listen, net, ring, j)(i + 1) == TripFrom(listen, net, ring, j, i + 1, |ring| - i)
  {
    assert |ring| + 1 - (i + 1) == |ring| - i;
  }

  lemma {:induction false} LegHop(listen: (PeerState, Json) -> Outcome, net: Net, ring: seq<Addr>, j: Json, i: nat)
    requires RingOf(net, ring) && 1 <= i < |ring| && HopFrom(listen, net, ring, j, i)
    ensures Hop(Legs(listen, net, ring, j), i)
  {
    LegsAt(listen, net, ring, j, i);
  }

  /** The PUT leaving member 1 is forwarded hop by hop until it reaches the
      first member m that bears the recipient's alias (or the sender, m = N):
      m - 1 hops, and then the same trip as the one leaving m. */
  lemma {:induction false} ReachHolder(listen: (PeerState, Json) -> Outcome, net: Net, ring: seq<Addr>, j: Json, recipient: string)
    requires RingOf(net, ring)
    requires forall i :: 1 <= i < Holder(net, ring, recipient, 1) ==> HopFrom(listen, net, ring, j, i)
    ensures var n := |ring|;
      var m := Holder(net, ring, recipient, 1);
      var u := TripFrom(listen, net, ring, j, 1, n);
      var v := TripFrom(listen, net, ring, j, m, n + 1 - m);
      u.net == v.net && u.hops == v.hops + (m - 1) && u.last == v.last
  {
    var m := Holder(net, ring, recipient, 1);
    var legs := Legs(listen, net, ring, j);
    forall i: nat | 1 <= i < m
      ensures Hop(legs, i)
    {
      LegHop(listen, net, ring, j, i);
    }
    FloodFrom(legs, 1, m);
    LegAt(listen, net, ring, j, 1, |ring|);
    LegAt(listen, net, ring, j, m, |ring| + 1 - m);
  }

  /** The trip leaving member 1 has m hops, where m is the alias's first
      bearer (or the origin, m = N): it ends at member m, having settled the
      network as `Settled` describes. */
  lemma {:induction false} PutTrip(listen: (PeerState, Json) -> Outcome, net: Net, ring: seq<Addr>, j: Json, sender: string, recipient: string, text: string)
    requires RingOf(net, ring) && sender == net.peers[ring[0]].alias && CarriesPut(listen, j, sender, recipient, text)
    requires forall i :: 0 < i < |ring| ==> net.peers[ring[i]].alias != sender
    ensures var n := |ring|;
      var m := Holder(net, ring, recipient, 1);
      var t := TripFrom(listen, net, ring, j, 1, n);
      t.net == Settled(net, ring, j, Ending(m, n, sender, recipient, text), m) && t.hops == m && t.last == ring[Wrap(m, n)]
  {
    var m := Holder(net, ring, recipient, 1);
    HopsAlong(listen, net, ring, j, sender, recipient, text);
    ReachHolder(listen, net, ring, j, recipient);
    FinalHop(listen, net, ring, j, sender, recipient, text, |ring| + 1 - m);
  }

  /** The trip leaving member 1 is the flood of the origin's first send. */
  lemma {:induction false} FirstLeg(listen: (PeerState, Json) -> Outcome, net: Net, ring: seq<Addr>, j: Json)
    requires RingOf(net, ring)
    ensures TripFrom(listen, net, ring, j, 1, |ring|) == Flood(listen, net, Send(j, ring[Next(0, |ring|)]), |ring|)
  {
    assert Forwarded(net, ring, j, 1) == net && Wrap(1, |ring|) == Next(0, |ring|);
  }

  /** Node by node, the end of a PUT's trip. */
  lemma {:induction false} SettledShape(net: Net, ring: seq<Addr>, j: Json, e: Event, m: nat)
    requires RingOf(net, ring) && 1 <= m <= |ring|
    ensures var t := Settled(net, ring, j, e, m);
      var n := |ring|;
      && t.down == net.down && t.peers.Keys == net.peers.Keys
      && (forall i :: 1 <= i < m ==> t.peers[ring[i]] == Pushed(net.peers[ring[i]], Send(j, ring[Next(i, n)])))
      && t.peers[ring[Wrap(m, n)]] == Logged(net.peers[ring[Wrap(m, n)]], e)
      && (forall i :: m < i < n ==> t.peers[ring[i]] == net.peers[ring[i]])
      && (forall y :: y in net.peers && y !in ring ==> t.peers[y] == net.peers[y])
  {
    var n := |ring|;
    var w := Wrap(m, n);
    forall i | 1 <= i < m
      ensures Settled(net, ring, j, e, m).peers[ring[i]] == Pushed(net.peers[ring[i]], Send(j, ring[Next(i, n)]))
    {
      ForwardedAt(net, ring, j, m, i);
    }
    forall i | m < i < n ensures Settled(net, ring, j, e, m).peers[ring[i]] == net.peers[ring[i]] {
      ForwardedAt(net, ring, j, m, i);
    }
    forall y | y in net.peers && y !in ring ensures Settled(net, ring, j, e, m).peers[y] == net.peers[y] {
      ForwardedElsewhere(net, ring, j, m, y);
    }
  }

  /** A PUT that ring member 0 sends to its successor travels round the
      ring in order. Each member before the first bearer of the recipient's
      alias forwards it exactly once, unchanged, to its successor; that
      bearer logs the delivery. If no member bears the alias, the PUT comes
      back to its sender after exactly |ring| hops and is reported
      unavailable there. Nothing else changes and no listener stops. */
  lemma {:induction false} PutFloods(d: Draft, net: Net, ring: seq<Addr>, recipient: string, text: string)
    requires RingOf(net, ring) && UniqueAliases(net, ring)
    ensures ring[0] in net.peers
    ensures var n := |ring|;
      var sender := net.peers[ring[0]].alias;
      var j := PutJson(sender, recipient, text);
      var m := Holder(net, ring, recipient, 1);
      var t := Flood(Listener(d), net, Send(j, ring[Next(0, n)]), n);
      && t.hops == m
      && t.last == ring[Wrap(m, n)]
      && t.net.down == net.down && t.net.peers.Keys == net.peers.Keys
      && (forall i :: 1 <= i < m ==> t.net.peers[ring[i]] == Pushed(net.peers[ring[i]], Send(j, ring[Next(i, n)])))
      && t.net.peers[ring[Wrap(m, n)]] == Logged(net.peers[ring[Wrap(m, n)]], Ending(m, n, sender, recipient, text))
      && (forall i :: m < i < n ==> t.net.peers[ring[i]] == net.peers[ring[i]])
      && (forall y :: y in net.peers && y !in ring ==> t.net.peers[y] == net.peers[y])
  {
    var n := |ring|;
    var sender := net.peers[ring[0]].alias;
    var j := PutJson(sender, recipient, text);
    var m := Holder(net, ring, recipient, 1);
    PutJsonIsCarried(d, sender, recipient, text);
    forall i | 0 < i < n ensures net.peers[ring[i]].alias != sender {
      assert ring[i] != ring[0];
    }
    PutTrip(Listener(d), net, ring, j, sender, recipient, text);
    FirstLeg(Listener(d), net, ring, j);
    SettledShape(net, ring, j, Ending(m, n, sender, recipient, text), m);
  }

  /** A PUT to an alias no other ring member bears is forwarded by every
      other member exactly once and comes back to its sender after exactly N
      hops, where it is reported unavailable; it does not circulate on. */
  lemma {:induction false} AbsentRecipientReturns(d: Draft, net: Net, ring: seq<Addr>, recipient: string, text: string)
    requires RingOf(net, ring) && UniqueAliases(net, ring)
    requires forall i :: 0 < i < |ring| ==> net.peers[ring[i]].alias != recipient
    ensures ring[0] in net.peers
    ensures var n := |ring|;
      var p := net.peers[ring[0]];
      var j := PutJson(p.alias, recipient, text);
      var t := Flood(Listener(d), net, Send(j, ring[Next(0, n)]), n);
      && t.hops == n && t.last == ring[0]
      && t.net.peers[ring[0]] == p.(log := p.log + [Unavailable(recipient)])
      && forall i :: 1 <= i < n ==> t.net.peers[ring[i]].outbox == net.peers[ring[i]].outbox + [Send(j, ring[Next(i, n)])]
  {
    var n := |ring|;
    PutFloods(d, net, ring, recipient, text);
  }

  /** In the self-contained draft a user may message their own alias; the
      PUT goes all round a ring of unique aliases and comes back reported
      unavailable after N hops. */
  lemma {:induction false} SelfMessageComesBack(net: Net, ring: seq<Addr>, text: string)
    requires RingOf(net, ring) && UniqueAliases(net, ring)
    ensures ring[0] in net.peers
    ensures var n := |ring|;
      var p := net.peers[ring[0]];
      var q := ActPut(SelfContainedDraft, p, p.alias, text);
      var t := Flood(Listener(SelfContainedDraft), net.(peers := net.peers[ring[0] := q]), q.outbox[|p.outbox|], n);
      && t.hops == n && t.last == ring[0]
      && t.net.peers[ring[0]].log == p.log + [Unavailable(p.alias)]
  {
    var n := |ring|;
    assert Linked(net, ring, 0);
    var p := net.peers[ring[0]];
    var q := ActPut(SelfContainedDraft, p, p.alias, text);
    var j := PutJson(p.alias, p.alias, text);
    assert q == Pushed(p, Send(j, ring[Next(0, n)]));
    var net' := net.(peers := net.peers[ring[0] := q]);
    forall i | 0 <= i < n ensures Linked(net', ring, i) {
      assert Linked(net, ring, i);
    }
    assert UniqueAliases(net', ring);
    AbsentRecipientReturns(SelfContainedDraft, net', ring, p.alias, text);
  }

  /** A user at ring member 0 sends to an alias other than their own: in
      both drafts the client queues one PUT to its successor, and the ring
      is as it was apart from that send. */
  lemma {:induction false} ClientPutStarts(d: Draft, net: Net, ring: seq<Addr>, recipient: string, text: string)
    requires RingOf(net, ring) && UniqueAliases(net, ring)
    requires recipient != net.peers[ring[0]].alias
    ensures var n := |ring|;
      var p := net.peers[ring[0]];
      var q := ActPut(d, p, recipient, text);
      var net' := net.(peers := net.peers[ring[0] := q]);
      && q == Pushed(p, Send(PutJson(p.alias, recipient, text), ring[Next(0, n)]))
      && RingOf(net', ring) && UniqueAliases(net', ring)
      && (forall i :: 0 < i < n ==> net'.peers[ring[i]] == net.peers[ring[i]])
  {
    var n := |ring|;
    assert Linked(net, ring, 0);
    var p := net.peers[ring[0]];
    var q := ActPut(d, p, recipient, text);
    assert q == Pushed(p, Send(PutJson(p.alias, recipient, text), ring[Next(0, n)]));
    var net' := net.(peers := net.peers[ring[0] := q]);
    forall i | 0 <= i < n ensures Linked(net', ring, i) {
      assert Linked(net, ring, i);
    }
    forall i | 0 < i < n ensures net'.peers[ring[i]] == net.peers[ring[i]] {
      assert ring[i] != ring[0];
    }
  }

  /** A chat line typed at ring member 0 for the alias of member h reaches
      it: members 1 .. h-1 each forward it once, unchanged, and member h
      shows it after h hops. */
  lemma {:induction false} ClientPutDelivered(d: Draft, net: Net, ring: seq<Addr>, h: nat, text: string)
    requires RingOf(net, ring) && UniqueAliases(net, ring) && 0 < h < |ring|
    ensures ring[0] in net.peers && ring[h] in net.peers
    ensures var p := net.peers[ring[0]];
      |ActPut(d, p, net.peers[ring[h]].alias, text).outbox| == |p.outbox| + 1
    ensures var n := |ring|;
      var p := net.peers[ring[0]];
      var recipient := net.peers[ring[h]].alias;
      var q := ActPut(d, p, recipient, text);
      var t := Flood(Listener(d), net.(peers := net.peers[ring[0] := q]), q.outbox[|p.outbox|], n);
      && t.hops == h && t.last == ring[h]
      && t.net.peers[ring[h]].log == net.peers[ring[h]].log + [Delivered(p.alias, text)]
      && forall i :: 1 <= i < h ==>
           t.net.peers[ring[i]].outbox == net.peers[ring[i]].outbox + [Send(PutJson(p.alias, recipient, text), ring[Next(i, n)])]
  {
    var n := |ring|;
    assert Up(net, ring[0]) && Up(net, ring[h]) && ring[h] != ring[0];
    var p := net.peers[ring[0]];
    var recipient := net.peers[ring[h]].alias;
    ClientPutStarts(d, net, ring, recipient, text);
    var q := ActPut(d, p, recipient, text);
    var net' := net.(peers := net.peers[ring[0] := q]);
    PutFloods(d, net', ring, recipient, text);
    var m := Holder(net', ring, recipient, 1);
    assert net'.peers[ring[h]] == net.peers[ring[h]];
    assert m == h;
  }

  /** A chat line typed at ring member 0 for an alias no member bears is
      forwarded once by every other member and comes back to its sender
      after N hops, where it is reported unavailable. */
  lemma {:induction false} ClientPutReturns(d: Draft, net: Net, ring: seq<Addr>, recipient: string, text: string)
    requires RingOf(net, ring) && UniqueAliases(net, ring)
    requires forall i :: 0 <= i < |ring| ==> net.peers[ring[i]].alias != recipient
    ensures ring[0] in net.peers
    ensures var p := net.peers[ring[0]];
      |ActPut(d, p, recipient, text).outbox| == |p.outbox| + 1
    ensures var n := |ring|;
      var p := net.peers[ring[0]];
      var q := ActPut(d, p, recipient, text);
      var t := Flood(Listener(d), net.(peers := net.peers[ring[0] := q]), q.outbox[|p.outbox|], n);
      && t.hops == n && t.last == ring[0]
      && t.net.peers[ring[0]].log == p.log + [Unavailable(recipient)]
      && forall i :: 1 <= i < n ==>
           t.net.peers[ring[i]].outbox == net.peers[ring[i]].outbox + [Send(PutJson(p.alias, recipient, text), ring[Next(i, n)])]
  {
    var n := |ring|;
    assert Up(net, ring[0]);
    var p := net.peers[ring[0]];
    ClientPutStarts(d, net, ring, recipient, text);
    var q := ActPut(d, p, recipient, text);
    var net' := net.(peers := net.peers[ring[0] := q]);
    forall i | 0 < i < n ensures net'.peers[ring[i]].alias != recipient {
      assert net'.peers[ring[i]] == net.peers[ring[i]];
    }
    AbsentRecipientReturns(d, net', ring, recipient, text);
  }
}
