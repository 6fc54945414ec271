# Distributed chat ring: membership and routing

This project models the core of a peer-to-peer chat node written in Java. Nodes form a ring. Each node knows only its successor and its predecessor, as an (ip, port) pair each, and it listens on its own port.

A node runs two loops:
- a **listener**, which takes one JSON object per connection;
- a **client**, which turns the user's menu choices into messages.

There are five message kinds, each a JSON object `{type, parameters}`:
- **JOIN** splices a newcomer in just before the node that receives it. That node answers with ACCEPT (its old predecessor) to the newcomer and NEWSUCCESSOR (the newcomer) to the old predecessor, then takes the newcomer as its predecessor.
- **ACCEPT** sets the receiver's predecessor.
- **NEWSUCCESSOR** sets the receiver's successor.
- **LEAVE** sets the receiver's predecessor.
- **PUT** is a chat line. The receiver reports it unavailable if it is back at its sender. Otherwise it delivers it if it is addressed here, and forwards the same object to its successor if not.

The repository has two drafts of the node, and both are modelled:
- `Chat.java`, a self-contained version whose inner `Server` and `Client` classes work directly on the four pointer fields;
- `Server.java` with `Client.java`, a standalone version that works through accessors of a shared `Chat` object.

Modules:
- `Wire` (wire.dfy): the JSON envelope as a map from member names to values, the five `createMessage_*` builders, and `Decode`, which reads each kind's parameters back as the listener does. A member that is missing or has the wrong kind is `Malformed`: the Java JSON library throws there.
- `Peer` (peer.dfy): the state both drafts hold (`PeerState`: alias, listen port, successor, predecessor, the outbox of sent objects, the user-visible log), and the three-way PUT decision.
- `SelfContained` (self_contained.dfy): `Chat.java`.
  - The listener pass and loop, and the client actions and loop, as functions.
  - The class `ChatNode`, whose methods are proved to match those functions.
- `StandaloneChat` (standalone_chat.dfy): the `Chat` object that `Server.java` and `Client.java` are written against. Its getters are field reads, its `update*` setters change one field each, and `sendJson` appends one send to the outbox.
- `ServerHandlers` (server_handlers.dfy): `Server.java`'s five handlers, the `switch` dispatch and the accept loop, and the class `Server`.
- `ClientActions` (client_actions.dfy): `Client.java`'s join, put and leave, the `alive` loop, and the class `Client`.
- `Network` (network.dfy): a map from listen address to node state, with a delivery step. Every node runs the same draft. On top of this it proves the ring-level facts:
  - a JOIN splices the joiner in;
  - a LEAVE re-links the leaver's neighbours;
  - a PUT is delivered at the first node bearing the recipient's alias;
  - a PUT to an absent alias comes back to its sender after exactly N hops and is reported there.

A handler that throws ends the listener thread. The network model records this by marking the node as down.

## Model

| member | source | states |
|---|---|---|
| Wire.Decode | Project/src/Chat.java:89-202 | A decoded message has the kind the type tag names. An object with a known tag but a missing or mistyped parameter is `Malformed`, and so is one without a string tag. An unknown tag gives `UnknownType`, and nothing else does. |
| Wire.DecodeEncode | Project/src/Chat.java:23-72 | Every builder writes its fields under the keys the listener reads them from, so decoding an encoded message gives back exactly that message. |
| Wire.DecodeSound | Project/src/Chat.java:23-72 | Each builder's envelope has exactly the members `type` and `parameters`. Any object that decodes to `m` carries the same tag and every parameter value that `Encode(m)` carries. |
| Peer.PutRoute | Project/src/Server.java:84-94 | It reports unavailable if and only if the sender is this node. It delivers if and only if the sender is not this node and the recipient is. It forwards if and only if neither is this node. Exactly one of the three holds. |
| Peer.SelfAddressedIsNeverDelivered | Project/src/Server.java:84-89 | A PUT whose sender and recipient both equal this node's alias is reported unavailable, never delivered. |
| Peer.HandlePut | Project/src/Chat.java:164-184 | No pointer or identity field changes. Report: one `Unavailable(recipient)` log line and no send. Deliver: one `Delivered(sender, text)` line and no send. Forward: the received object itself is sent to the current successor, and nothing is logged. |
| SelfContained.Listen | Project/src/Chat.java:86-202 | The listener throws exactly on `Malformed` objects. A handled object keeps the node's identity and only appends to the outbox and the log. A well-formed object with an unknown tag changes nothing. |
| SelfContained.JoinHandling | Project/src/Chat.java:94-126 | JOIN from port p: first ACCEPT(predecessor as it was) to localhost:p, then NEWSUCCESSOR(localhost, p) to localhost on the old predecessor's port. Then the predecessor becomes (localhost, p). The successor and the log are unchanged. |
| SelfContained.PointerHandling | Project/src/Chat.java:128-202 | ACCEPT and LEAVE set only the predecessor to the carried address. NEWSUCCESSOR sets only the successor. None of them sends or logs anything. |
| SelfContained.ServerLoop | Project/src/Chat.java:78-206 | The loop handles the arrivals in order. It stops right after the first malformed object: that is the last one taken, and no object before it is malformed. Without a crash it takes them all, and none is malformed. Identity is kept, and the outbox and log only grow. |
| SelfContained.UnknownTypeIsSkipped | Project/src/Chat.java:89-202 | An object with an unrecognised tag is consumed without effect, and the loop carries on with the next object. |
| SelfContained.MalformedEndsListener | Project/src/Chat.java:79-206 | A malformed object ends the listener. Nothing after it is handled and the state is unchanged. |
| SelfContained.ClientLoopAppend | Project/src/Chat.java:214-301 | The client loop never stops: running two batches of choices equals running their concatenation, leave included. |
| SelfContained.SendAfterLeave | Project/src/Chat.java:257-300 | After leave, a send still goes out as PUT to the unchanged successor. |
| SelfContained.ChatNode.constructor | Project/src/Chat.java:326-334 | A new node has successor = predecessor = (localhost, myPort), and nothing is sent or shown. |
| SelfContained.ChatNode.Receive | Project/src/Chat.java:86-202 | One listener pass over the four fields. It throws exactly when `Listen` does, and the new state is `Listen`'s result. |
| SelfContained.ChatNode.ServerRun | Project/src/Chat.java:78-207 | The loop over arrivals ends in the state, count and crash flag that `ServerLoop` gives. |
| SelfContained.ChatNode.Join | Project/src/Chat.java:228-245 | JOIN(alias, myPort) is sent to (ip, port), then the successor becomes (ip, port). The predecessor is untouched. |
| SelfContained.ChatNode.Put | Project/src/Chat.java:258-277 | PUT(alias, to, message) is sent to the current successor with no self check, and nothing else changes. |
| SelfContained.ChatNode.Leave | Project/src/Chat.java:279-300 | NEWSUCCESSOR(successor) is sent to the predecessor, then LEAVE(predecessor) to the successor. No field changes. |
| SelfContained.ChatNode.ClientRun | Project/src/Chat.java:214-301 | Every choice is acted on in order, and leave does not stop the loop. The final state is `ClientLoop`'s. |
| StandaloneChat.Chat.constructor | Project/src/Chat.java:326-334 | A new node has both pointers equal to (localhost, port) and an empty outbox and log. |
| StandaloneChat.Chat.UpdatePortPredecessor | Project/src/Server.java:44 | Only the predecessor's port changes. |
| StandaloneChat.Chat.UpdateIpPredecessor | Project/src/Server.java:57 | Only the predecessor's ip changes. |
| StandaloneChat.Chat.UpdateIpSuccessor | Project/src/Server.java:71 | Only the successor's ip changes. |
| StandaloneChat.Chat.UpdatePortSuccessor | Project/src/Client.java:28 | Only the successor's port changes. |
| StandaloneChat.Chat.Show | Project/src/Server.java:85-89 | Stand-in for a console line the user sees: exactly one event is appended to the log, and nothing else changes. |
| StandaloneChat.Chat.SendJson | Project/src/Server.java:37 | One send of the object to (ip, port) is appended to the outbox. Nothing else changes. |
| ServerHandlers.Dispatch | Project/src/Server.java:124-143 | An object without a string tag throws. An unknown tag changes nothing and sends nothing. A handled object keeps identity and only appends. |
| ServerHandlers.JoinHandling | Project/src/Server.java:28-45 | ACCEPT(the predecessor as it was on entry) is sent to localhost:clientPort. NEWSUCCESSOR(localhost, clientPort) is sent to that same old predecessor. Then only the predecessor's port becomes clientPort; its ip, the successor and the log are unchanged. |
| ServerHandlers.PointerHandling | Project/src/Server.java:51-109 | `accept` and `leave` set the predecessor to (ip, port), and `newSuccessor` sets the successor. The other pointer is unchanged and nothing is sent. |
| ServerHandlers.PutHandling | Project/src/Server.java:79-95 | A PUT takes exactly one of report, deliver or forward-unchanged-to-successor. A PUT from this node's own alias is reported, whoever the recipient is. |
| ServerHandlers.ForwardNeedsNoText | Project/src/Server.java:79-94 | `message` is read only on delivery: a PUT that lacks it and is only passing through is forwarded, while the self-contained listener throws on it. |
| ServerHandlers.ThrowsDependsOnAliasOnly | Project/src/Server.java:79-95 | Whether a handler throws on an object depends only on the node's alias, since the alias alone decides whether `put` reads `message`. So the loop's per-object clauses hold at every intermediate state. |
| ServerHandlers.ServerLoop | Project/src/Server.java:114-150 | The loop dispatches arrivals in order until a handler throws. That object is the last one taken, and every object before it is handled. Without a crash every object is handled. Identity is kept, and the outbox and log only grow. |
| ServerHandlers.Server.constructor | Project/src/Server.java:20-22 | The server works on the given chat object. |
| ServerHandlers.Server.Join | Project/src/Server.java:28-45 | The handler through the accessors throws exactly when `OnJoin` does, and leaves the state `OnJoin` gives. |
| ServerHandlers.Server.Accept | Project/src/Server.java:51-59 | Throws exactly when `OnAccept` does. The new state is its result. |
| ServerHandlers.Server.NewSuccessor | Project/src/Server.java:65-73 | Throws exactly when `OnNewSuccessor` does. The new state is its result. |
| ServerHandlers.Server.Put | Project/src/Server.java:79-95 | Throws exactly when `OnPut` does. The new state is its result. |
| ServerHandlers.Server.Leave | Project/src/Server.java:101-109 | Throws exactly when `OnLeave` does. The new state is its result. |
| ServerHandlers.Server.Receive | Project/src/Server.java:118-145 | The switch runs exactly the handler for the tag. It throws exactly when `Dispatch` does, and the new state is `Dispatch`'s. |
| ServerHandlers.Server.Run | Project/src/Server.java:114-150 | The accept loop ends in the state, count and crash flag that `ServerLoop` gives. |
| ClientActions.JoinAction | Project/src/Client.java:21-29 | One JOIN(own alias, own port) is sent to localhost:port. Only the successor's port becomes port; its ip, the predecessor and the log are unchanged. |
| ClientActions.PutAction | Project/src/Client.java:34-44 | Nothing is sent if and only if the recipient is this node, and then the refusal is shown (`CannotMessageSelf`). Otherwise one PUT(alias, recipient, message) goes to the current successor and nothing is shown. No pointer changes. |
| ClientActions.LeaveAction | Project/src/Client.java:49-60 | NEWSUCCESSOR(successor) is sent to the predecessor, then LEAVE(predecessor) to the successor. No pointer changes. |
| ClientActions.ClientLoop | Project/src/Client.java:65-87 | The loop departs if and only if some choice is leave. It then stops right after the first leave; otherwise it takes every choice. |
| ClientActions.LeaveIsTerminal | Project/src/Client.java:65-87 | Whatever follows the first leave is never acted on, and the loop has handled exactly the choices up to that leave. |
| ClientActions.Client.constructor | Project/src/Client.java:14-16 | The client works on the given chat object. |
| ClientActions.Client.Join | Project/src/Client.java:21-29 | Through the accessors, the new state is `ClientJoin`'s. |
| ClientActions.Client.Put | Project/src/Client.java:34-44 | Through the accessors, the new state is `ClientPut`'s. |
| ClientActions.Client.Leave | Project/src/Client.java:49-60 | Both pointers are read once, and the new state is `ClientLeave`'s. |
| ClientActions.Client.Run | Project/src/Client.java:65-87 | The `alive` loop ends in the state, count and departure flag that `ClientLoop` gives. |
| Network.Deliver | Project/src/Server.java:117-145 | Delivering one object never adds or removes a node, and a listener that has stopped never restarts. |
| Network.DraftsAgreeOnJoin | Project/src/Chat.java:94-126 | When the predecessor is on localhost, both drafts handle JOIN identically. |
| Network.DraftsDifferOnRemotePredecessor | Project/src/Server.java:35-44 | When the predecessor is elsewhere, the self-contained draft resets the predecessor's host to localhost and sends NEWSUCCESSOR to localhost. The standalone one keeps the host. |
| Network.DraftsAgreeOnPointers | Project/src/Server.java:51-109 | Both drafts handle ACCEPT, LEAVE and NEWSUCCESSOR identically. |
| Network.DraftsAgreeOnLeave | Project/src/Client.java:49-60 | The user's leave is the same in both drafts: the network's leave action, the self-contained client's and the standalone client's are equal. |
| Network.DraftsAgreeOnClientJoin | Project/src/Chat.java:228-245 | When the node's successor and the target are on localhost, the user's join is the same in both drafts. |
| Network.DraftsAgreeOnPut | Project/src/Server.java:79-95 | Both drafts handle a built PUT identically. |
| Network.RingClosesAfterN | Project/src/Server.java:83-85 | The ring property that the sender test relies on (a PUT back at its sender has been all round): in a consistent ring of N nodes, following successors from any member returns to it after exactly N steps and not before. |
| Network.JoinHandshake | Project/src/Server.java:28-73 | After x's JOIN at b and the two replies: x.succ = b and x.pred = b's old predecessor a; b.pred = x and a.succ = x. No other node changes. |
| Network.JoinSplices | Project/src/Server.java:28-73 | A JOIN at a member of a consistent ring gives a consistent ring with the joiner just before that member. Only the joiner, the contacted node and its old predecessor change. Every node stays keyed by its own address, so the result meets the lemma's own premise and joins can be chained. |
| Network.JoinRunKeepsAddresses | Project/src/Server.java:28-73 | For any listener that never changes a node's listen port, a JOIN and its replies leave every node keyed by its own address. |
| Network.JoinsGrowRing | Project/src/Client.java:21-29 | Distinct outside nodes joining one after another through the same member of a consistent ring end up, in join order, between its last member and that member. The ring stays consistent and correctly addressed. |
| Network.JoinRepliesInSendOrder | Project/src/Server.java:36-41 | Delivering the contacted node's two replies in the order it sent them, ACCEPT first, gives the same network as the handshake run, which delivers NEWSUCCESSOR first. |
| Network.JoinScenario | Project/src/Server.java:28-73 | In ring A→B→C→A, D joins at B. Afterwards B.pred = D, A.succ = D, D.succ = B, D.pred = A, C is unchanged, and the ring is B→C→A→D. |
| Network.LeaveHandshake | Project/src/Client.java:49-60 | After x's two notices, x's predecessor points forward to x's successor and vice versa. No other node changes except x's outbox. |
| Network.LeaveRelinks | Project/src/Client.java:49-60 | When a member of a consistent ring of two or more leaves, the other members form a consistent ring, and only its two neighbours change. A correctly addressed network stays correctly addressed. |
| Network.LeaveRunKeepsAddresses | Project/src/Client.java:49-60 | The two LEAVE notices leave every node keyed by its own address. |
| Network.LeaveScenario | Project/src/Client.java:49-60 | In ring A→B→C→A, B leaves. Afterwards A.succ = C and C.pred = A, and the ring is A→C→A. |
| Network.PutFloods | Project/src/Server.java:79-95 | A PUT from ring member 0 travels in ring order. Each member before the first bearer of the alias forwards it exactly once, unchanged, to its successor. That bearer logs the delivery. With no bearer, member 0 logs it unavailable after exactly N hops. Nothing else changes and no listener stops. |
| Network.AbsentRecipientReturns | Project/src/Server.java:79-95 | A PUT to an alias no other member bears is forwarded exactly once by each other member. It returns to its sender after exactly N hops and is reported unavailable there. |
| Network.ClientPutStarts | Project/src/Client.java:42-43 | In both drafts, a send to an alias other than one's own queues one PUT(alias, recipient, message) to the successor, and the ring is otherwise unchanged. |
| Network.ClientPutDelivered | Project/src/Client.java:34-44 | A chat line typed at ring member 0 for the alias of member h is forwarded once, unchanged, by members 1 to h-1. It is shown at member h after exactly h hops. This holds in both drafts. |
| Network.ClientPutReturns | Project/src/Client.java:34-44 | A chat line typed at ring member 0 for an alias no member bears is forwarded once by every other member. It comes back after exactly N hops and is reported unavailable at the sender. This holds in both drafts. |
| Network.SelfMessageComesBack | Project/src/Chat.java:258-273 | In the self-contained draft, a message to one's own alias goes all the way round and is reported unavailable after N hops. |

## Left out

- Sockets, object streams and connect/close are left out. Every send succeeds and is an append of (object, destination) to the outbox. A failed connection, which in `Chat.java`'s client skips the pointer update after a JOIN, is not modelled.
- JSON text is not parsed or written. An object is a map from member names to values. Any non-string tag, and any missing or mistyped parameter, is treated as the JSON library's runtime exception.
- The semaphore, the two threads and their interleavings are left out. Each handler or user action is one atomic step, and simultaneous JOINs are not modelled.
- Menus, prompts and `Scanner` input are left out. User choices are parameters (`Choice`), and the print-info option changes nothing.
- Console output is left out, except deliveries, unavailable-recipient reports and the standalone client's "can't message yourself". These are the log events.
- `main`'s argument parsing, and the `IOException` catch that ends the listener, are not modelled.
- Java's 32-bit `int` is not modelled. Ports are unbounded integers, since no handler does arithmetic on them.
- The standalone `Chat` class that `Server.java` and `Client.java` call is not among the source files, so its behaviour is assumed: `StandaloneChat.Chat` gives it the constructor of `Chat.java:326-334`, field reads as accessors, single-field setters, and `sendJson` as one append.
- Decode errors end the listener. Both listeners catch only `IOException` (Chat.java:204-206, Server.java:147-149), so a runtime exception from `getString`/`getInt`/`getJsonObject` on a missing or mistyped member ends the listener thread, and later objects are never served. The model does this (`Threw`, and the node is marked down). It does not model a listener that drops the bad object and goes on serving.
- Network.Flood: the flood of a PUT is bounded by a fuel count. The PUT theorems give it N deliveries for a ring of N, which is exactly what the trip needs. They say nothing about floods in networks that are not consistent rings.
- Network.JoinSplices: proved for networks where every node is keyed by its own localhost address, and where the joiner's successor is reached on localhost. This matches the replies, which both drafts always address to localhost. It is weaker than a statement about arbitrary hosts.
- Network.JoinsGrowRing: every joiner contacts the same member, and each handshake completes before the next user joins. Joins at different members, and joins whose handshakes overlap, are not stated.
- Network.LeaveRelinks: proved for a ring of two or more. A lone node leaving sends both notices to itself, and that case is not stated.
