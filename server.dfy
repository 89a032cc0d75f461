/** The server core: admission of accepted sockets, the connection registry,
    the routing of connection events to the handler or the queue, and
    shutdown. Sockets, threads and the worker pool are abstracted away: what
    the server does to them is recorded as a trace of effects. */
module TcpServer {
  import opened PigeonCommons
  import TcpServerBuilder

  /** The worker pool chosen at construction. */
  datatype Pool = Cached | Fixed(threads: Int32)

  /** Which pool a receiver thread count selects: a fixed pool has exactly
      that many (and at least one) threads; any other count gets the cached pool. */
  function SelectPool(receiverThreadsNumber: Int32): (p: Pool)
    ensures p.Fixed? ==> p.threads == receiverThreadsNumber && p.threads >= 1
    ensures p.Cached? <==> receiverThreadsNumber < 1
  {
    if receiverThreadsNumber <= 0 then Cached else Fixed(receiverThreadsNumber)
  }

  /** `fixedNumberOfThreads`: admission control is active exactly when the
      constructor chose a fixed pool. */
  predicate FixedNumberOfThreads(receiverThreadsNumber: Int32)
    ensures FixedNumberOfThreads(receiverThreadsNumber) <==> SelectPool(receiverThreadsNumber).Fixed?
  {
    receiverThreadsNumber > 0
  }

  /** What a `Connection` reports to the server (the `update` messages). */
  datatype Event = Disconnected(id: ConnId) | ReceivedPacket(packet: Packet)

  /** An observable action of the server on its collaborators. */
  datatype Effect =
    | Attach(conn: Connection)                                   // connection.attach(server)
    | Register(id: ConnId, conn: Connection)                     // connections.put
    | Execute(conn: Connection)                                  // executorService.execute
    | WriteByte(socket: SocketRef, value: Byte)                  // raw handshake byte
    | NewConnection(callback: CallbackHandler, conn: Connection) // onNewConnection
    | Unregister(id: ConnId)                                     // connections.remove
    | Disconnect(conn: Connection)                               // connection.disconnect
    | Handle(handler: PacketHandler, packet: Packet)             // packetHandler.handle
    | CloseServerSocket                                          // serverSocket.close
    | ShutdownPool                                               // executorService.shutdown

  /** The server's mutable state: the registry, the queue (null outside QUEUE
      mode), the effects so far and the exit flag. */
  datatype ServerState = ServerState(
    registry: map<ConnId, Connection>,
    queue: Option<seq<Packet>>,
    trace: seq<Effect>,
    exit: bool)

  /** How the dispatch mode wires handler and queue: QUEUE mode has a queue and
      no handler, HANDLER mode has a handler and no queue. */
  predicate Wired(mode: HandleMode, handler: Option<PacketHandler>, queue: Option<seq<Packet>>) {
    && (mode == Queue <==> queue.Some?)
    && (mode == Queue ==> handler.None?)
    && (mode == Handler ==> handler.Some?)
  }

  // ---------------------------------------------------------------------------
  // The accept loop's body

  /** How one pass of the accept loop ends for the socket. */
  datatype PassResult =
    | Sent(value: Byte)         // the handshake byte was written; the loop goes on
    | Silent                    // the connection was not ok: nothing was written
    | WriteFailed(value: Byte)  // writing the handshake byte threw: the loop ends

  /** One iteration of the accept loop after `accept` returned a socket. The
      pool's active count, the random UUID, the new connection's `isOk()` and
      whether writing to the socket throws are inputs. A throwing write leaves
      the loop through its `IOException` handler, whose `finally` closes the
      server socket; whatever was done before the write stays done.
      A pass only ever adds the entry `id`, never touches the queue or the
      exit flag, and only appends to the trace. */
  function Admit(receiverThreadsNumber: Int32, callback: Option<CallbackHandler>, st: ServerState,
                 activeCount: int, id: ConnId, socket: SocketRef, isOk: bool, writeFails: bool)
    : (r: (ServerState, PassResult))
    ensures r.0.registry.Keys <= st.registry.Keys + {id}
    ensures forall k :: k in st.registry && k != id ==> k in r.0.registry && r.0.registry[k] == st.registry[k]
    ensures r.0.queue == st.queue && r.0.exit == st.exit
    ensures st.trace <= r.0.trace
    ensures r.1.Silent? <==> r.0 == st
  {
    if FixedNumberOfThreads(receiverThreadsNumber) && activeCount >= receiverThreadsNumber then
      if writeFails then
        (st.(trace := st.trace + [CloseServerSocket]), WriteFailed(0))
      else
        (st.(trace := st.trace + [WriteByte(socket, 0)]), Sent(0))
    else if !isOk then
      (st, Silent)
    else
      var c := Connection(id, socket);
      var admitted := st.(registry := st.registry[id := c]);
      if writeFails then
        (admitted.(trace := st.trace + AdmissionSteps(id, c) + [CloseServerSocket]), WriteFailed(1))
      else
        (admitted.(trace := st.trace + AdmissionEffects(callback, id, c)), Sent(1))
  }

  /** Attach, put and execute: what happens to a healthy connection before
      the accept byte is written. */
  function AdmissionSteps(id: ConnId, c: Connection): seq<Effect> {
    [Attach(c), Register(id, c), Execute(c)]
  }

  /** The effects of admitting a healthy connection, in the order they happen. */
  function AdmissionEffects(callback: Option<CallbackHandler>, id: ConnId, c: Connection): seq<Effect> {
    AdmissionSteps(id, c) + [WriteByte(c.socket, 1)]
      + (if callback.Some? then [NewConnection(callback.value, c)] else [])
  }

  /** With a bounded pool that is saturated, the socket gets byte 0 and nothing
      else happens: no connection, no use of the id, the registry unchanged.
      If the write throws, the loop ends and the server socket is closed. */
  lemma RejectWhenSaturated(n: Int32, callback: Option<CallbackHandler>, st: ServerState,
                            activeCount: int, id: ConnId, socket: SocketRef, isOk: bool, writeFails: bool)
    requires n > 0 && activeCount >= n
    ensures var (st', r) := Admit(n, callback, st, activeCount, id, socket, isOk, writeFails);
      && r.value == 0
      && (r.WriteFailed? <==> writeFails)
      && st' == st.(trace := st.trace + [if writeFails then CloseServerSocket else WriteByte(socket, 0)])
  {
  }

  /** With a thread count of zero or less no connection is ever rejected. */
  lemma UnboundedNeverRejects(n: Int32, callback: Option<CallbackHandler>, st: ServerState,
                              activeCount: int, id: ConnId, socket: SocketRef, isOk: bool, writeFails: bool)
    requires n <= 0
    ensures var (st', r) := Admit(n, callback, st, activeCount, id, socket, isOk, writeFails);
      && (r.Silent? <==> !isOk)
      && (!r.Silent? ==> r.value == 1)
  {
  }

  /** An admitted healthy connection adds exactly the entry `id ↦ connection`,
      leaves every other entry alone and produces the admission effects in
      order: attach, put, execute, byte 1, then the callback if there is one.
      When the accept byte cannot be written, the entry stays registered and
      its worker stays scheduled, but no callback is made and the server
      socket is closed. */
  lemma AdmitRegistersOne(n: Int32, callback: Option<CallbackHandler>, st: ServerState,
                          activeCount: int, id: ConnId, socket: SocketRef, writeFails: bool)
    requires !(n > 0 && activeCount >= n)
    ensures var (st', r) := Admit(n, callback, st, activeCount, id, socket, true, writeFails);
      var c := Connection(id, socket);
      && r == (if writeFails then WriteFailed(1) else Sent(1))
      && id in st'.registry && st'.registry[id] == c
      && (forall k :: k != id ==> (k in st'.registry <==> k in st.registry))
      && (forall k :: k != id && k in st.registry ==> st'.registry[k] == st.registry[k])
      && st'.trace == st.trace + [Attach(c), Register(id, c), Execute(c)]
                    + (if writeFails then [CloseServerSocket]
                       else [WriteByte(socket, 1)]
                            + (if callback.Some? then [NewConnection(callback.value, c)] else []))
      && st'.queue == st.queue && st'.exit == st.exit
  {
  }

  /** A failed handshake write never reaches the callback, and it is the last
      thing the accept loop does: the server socket is closed right after. */
  lemma HandshakeWriteFailureEndsLoop(n: Int32, callback: Option<CallbackHandler>, st: ServerState,
                                      activeCount: int, id: ConnId, socket: SocketRef, isOk: bool)
    ensures var (st', r) := Admit(n, callback, st, activeCount, id, socket, isOk, true);
      && (r.WriteFailed? || r.Silent?)
      && (r.WriteFailed? ==> |st'.trace| > 0 && st'.trace[|st'.trace| - 1] == CloseServerSocket)
      && (forall e :: e in st'.trace[|st.trace|..] ==> !e.NewConnection? && !e.WriteByte?)
  {
  }

  /** A connection whose `isOk()` is false is dropped silently: no byte, no
      callback, no change at all. */
  lemma UnhealthyConnectionDropped(n: Int32, callback: Option<CallbackHandler>, st: ServerState,
                                   activeCount: int, id: ConnId, socket: SocketRef, writeFails: bool)
    requires !(n > 0 && activeCount >= n)
    ensures Admit(n, callback, st, activeCount, id, socket, false, writeFails) == (st, Silent)
  {
  }

  /** If each registered connection occupies one worker (the active count is at
      least the registry's size), a bounded server never registers more
      connections than it has threads. */
  lemma AdmissionRespectsBound(n: Int32, callback: Option<CallbackHandler>, st: ServerState,
                               activeCount: int, id: ConnId, socket: SocketRef, isOk: bool, writeFails: bool)
    requires n > 0 && |st.registry| <= n && activeCount >= |st.registry|
    ensures |Admit(n, callback, st, activeCount, id, socket, isOk, writeFails).0.registry| <= n
  {
    var st' := Admit(n, callback, st, activeCount, id, socket, isOk, writeFails).0;
    if !(activeCount >= n) && isOk {
      assert st'.registry.Keys == st.registry.Keys + {id};
      assert |st.registry.Keys + {id}| <= |st.registry.Keys| + |{id}|;
    }
  }

  /** The default thread count selects the cached pool, under which no
      connection is rejected. */
  lemma DefaultThreadsSelectCachedPool(callback: Option<CallbackHandler>, st: ServerState,
                                       activeCount: int, id: ConnId, socket: SocketRef, isOk: bool, writeFails: bool)
    ensures SelectPool(0) == Cached
    ensures var r := Admit(0, callback, st, activeCount, id, socket, isOk, writeFails).1;
      r.Silent? || r.value == 1
  {
  }

  // ---------------------------------------------------------------------------
  // The event router (`update`)

  /** `update`: a disconnect removes the registered connection and disconnects
      it; a packet goes to the queue or to the handler. */
  function Dispatch(mode: HandleMode, handler: Option<PacketHandler>, st: ServerState, ev: Event): (r: ServerState)
    requires Wired(mode, handler, st.queue)
    ensures Wired(mode, handler, r.queue)
    ensures r.exit == st.exit
  {
    match ev
    case Disconnected(id) =>
      if id in st.registry then
        st.(registry := st.registry - {id},
            trace := st.trace + [Unregister(id), Disconnect(st.registry[id])])
      else st
    case ReceivedPacket(p) =>
      if mode == Queue then st.(queue := Some(st.queue.value + [p]))
      else st.(trace := st.trace + [Handle(handler.value, p)])
  }

  /** A disconnect of a registered id removes that entry alone and calls
      `disconnect` once on the connection it held; an unknown id changes nothing. */
  lemma DisconnectRemovesOnlyThatEntry(mode: HandleMode, handler: Option<PacketHandler>,
                                       st: ServerState, id: ConnId)
    requires Wired(mode, handler, st.queue)
    ensures var st' := Dispatch(mode, handler, st, Disconnected(id));
      && (id in st.registry ==>
            && st'.registry.Keys == st.registry.Keys - {id}
            && (forall k :: k in st'.registry ==> st'.registry[k] == st.registry[k])
            && st'.trace == st.trace + [Unregister(id), Disconnect(st.registry[id])]
            && st'.queue == st.queue)
      && (id !in st.registry ==> st' == st)
  {
  }

  /** Repeated delivery of a disconnect is harmless: the second one is a no-op. */
  lemma DisconnectIdempotent(mode: HandleMode, handler: Option<PacketHandler>,
                             st: ServerState, id: ConnId)
    requires Wired(mode, handler, st.queue)
    ensures var once := Dispatch(mode, handler, st, Disconnected(id));
      Dispatch(mode, handler, once, Disconnected(id)) == once
  {
  }

  /** A received packet never touches the registry: in QUEUE mode it is
      appended to the queue, in HANDLER mode the handler is called once. */
  lemma PacketRouting(mode: HandleMode, handler: Option<PacketHandler>, st: ServerState, p: Packet)
    requires Wired(mode, handler, st.queue)
    ensures var st' := Dispatch(mode, handler, st, ReceivedPacket(p));
      && st'.registry == st.registry
      && (mode == Queue ==> st'.queue == Some(st.queue.value + [p]) && st'.trace == st.trace)
      && (mode == Handler ==> st'.queue == st.queue && st'.trace == st.trace + [Handle(handler.value, p)])
  {
  }

  /** A series of events delivered one after another. */
  function DeliverAll(mode: HandleMode, handler: Option<PacketHandler>, st: ServerState,
                      events: seq<Event>): (r: ServerState)
    requires Wired(mode, handler, st.queue)
    ensures Wired(mode, handler, r.queue)
    decreases |events|
  {
    if events == [] then st
    else DeliverAll(mode, handler, Dispatch(mode, handler, st, events[0]), events[1..])
  }

  /** The packet events carrying `packets`, in order. */
  function PacketEvents(packets: seq<Packet>): seq<Event>
  {
    if packets == [] then [] else [ReceivedPacket(packets[0])] + PacketEvents(packets[1..])
  }

  /** The disconnect events for `ids`, in order. */
  function DisconnectEvents(ids: seq<ConnId>): (evs: seq<Event>)
    ensures |evs| == |ids|
    ensures forall i :: 0 <= i < |ids| ==> evs[i] == Disconnected(ids[i])
  {
    if ids == [] then [] else [Disconnected(ids[0])] + DisconnectEvents(ids[1..])
  }

  /** The handler calls for `packets`, in order. */
  function HandleCalls(h: PacketHandler, packets: seq<Packet>): seq<Effect>
  {
    if packets == [] then [] else [Handle(h, packets[0])] + HandleCalls(h, packets[1..])
  }

  /** QUEUE mode is FIFO: packets end up in the queue in the order received,
      after what was already there. */
  lemma {:induction false} QueueModeIsFifo(st: ServerState, packets: seq<Packet>)
    requires Wired(Queue, None, st.queue)
    ensures DeliverAll(Queue, None, st, PacketEvents(packets))
         == st.(queue := Some(st.queue.value + packets))
    decreases |packets|
  {
    if packets != [] {
      var evs := PacketEvents(packets);
      assert evs[0] == ReceivedPacket(packets[0]);
      assert evs[1..] == PacketEvents(packets[1..]);
      var st1 := st.(queue := Some(st.queue.value + [packets[0]]));
      assert Dispatch(Queue, None, st, evs[0]) == st1;
      assert DeliverAll(Queue, None, st, evs) == DeliverAll(Queue, None, st1, evs[1..]);
      QueueModeIsFifo(st1, packets[1..]);
      assert st1.queue.value + packets[1..] == st.queue.value + packets;
    } else {
      assert st.queue.value + packets == st.queue.value;
    }
  }

  /** HANDLER mode calls the handler exactly once per packet, in order. */
  lemma {:induction false} HandlerModeHandlesEachOnce(h: PacketHandler, st: ServerState, packets: seq<Packet>)
    requires Wired(Handler, Some(h), st.queue)
    ensures DeliverAll(Handler, Some(h), st, PacketEvents(packets))
         == st.(trace := st.trace + HandleCalls(h, packets))
    decreases |packets|
  {
    if packets != [] {
      var evs := PacketEvents(packets);
      assert evs[0] == ReceivedPacket(packets[0]);
      assert evs[1..] == PacketEvents(packets[1..]);
      var st1 := st.(trace := st.trace + [Handle(h, packets[0])]);
      assert Dispatch(Handler, Some(h), st, evs[0]) == st1;
      assert DeliverAll(Handler, Some(h), st, evs) == DeliverAll(Handler, Some(h), st1, evs[1..]);
      HandlerModeHandlesEachOnce(h, st1, packets[1..]);
      assert HandleCalls(h, packets) == [Handle(h, packets[0])] + HandleCalls(h, packets[1..]);
      assert st1.trace + HandleCalls(h, packets[1..]) == st.trace + HandleCalls(h, packets);
    } else {
      assert st.trace + HandleCalls(h, packets) == st.trace;
    }
  }

  /** Disconnect events for `ids` remove exactly those ids from the registry. */
  lemma {:induction false} DisconnectEventsRemove(mode: HandleMode, handler: Option<PacketHandler>,
                                                  st: ServerState, ids: seq<ConnId>)
    requires Wired(mode, handler, st.queue)
    ensures var st' := DeliverAll(mode, handler, st, DisconnectEvents(ids));
      && st'.registry.Keys == st.registry.Keys - (set id | id in ids)
      && (forall k :: k in st'.registry ==> st'.registry[k] == st.registry[k])
      && st'.queue == st.queue
    decreases |ids|
  {
    if ids != [] {
      var evs := DisconnectEvents(ids);
      assert evs[1..] == DisconnectEvents(ids[1..]);
      var st1 := Dispatch(mode, handler, st, evs[0]);
      DisconnectEventsRemove(mode, handler, st1, ids[1..]);
      assert (set id | id in ids) == {ids[0]} + (set id | id in ids[1..]);
    }
  }

  // ---------------------------------------------------------------------------
  // Shutdown

  /** `order` lists every key of a registry once, in some iteration order. */
  ghost predicate Enumerates(order: seq<ConnId>, keys: set<ConnId>) {
    && (forall i, j :: 0 <= i < j < |order| ==> order[i] != order[j])
    && (forall id :: id in order <==> id in keys)
  }

  /** `disconnect` called on the registered connections in `order`. */
  function DisconnectCalls(registry: map<ConnId, Connection>, order: seq<ConnId>): (calls: seq<Effect>)
    requires forall id :: id in order ==> id in registry
    ensures |calls| == |order|
    ensures forall i :: 0 <= i < |order| ==> calls[i] == Disconnect(registry[order[i]])
  {
    if order == [] then [] else [Disconnect(registry[order[0]])] + DisconnectCalls(registry, order[1..])
  }

  /** Disconnecting one more connection extends the calls by one. */
  lemma DisconnectCallsAppend(registry: map<ConnId, Connection>, order: seq<ConnId>, id: ConnId)
    requires forall x :: x in order ==> x in registry
    requires id in registry
    ensures DisconnectCalls(registry, order + [id]) == DisconnectCalls(registry, order) + [Disconnect(registry[id])]
  {
  }

  /** `shutdown` with the registry iterated in `order`: disconnect every
      connection, close the server socket, and, only if the close did not
      throw, shut the pool down and set the exit flag. The registry is left
      as it was, and the trace only grows, by one disconnect per registered
      connection plus the close and, when it succeeded, the pool shutdown. */
  function AfterShutdown(st: ServerState, order: seq<ConnId>, closeFails: bool): (r: ServerState)
    requires Enumerates(order, st.registry.Keys)
    ensures r.registry == st.registry && r.queue == st.queue
    ensures |order| == |st.registry|
    ensures st.trace <= r.trace
    ensures |r.trace| == |st.trace| + |st.registry| + (if closeFails then 1 else 2)
    ensures r.trace[|r.trace| - 1] == (if closeFails then CloseServerSocket else ShutdownPool)
    ensures forall i :: 0 <= i < |order| ==> r.trace[|st.trace| + i] == Disconnect(st.registry[order[i]])
    ensures r.trace[|st.trace| + |order|] == CloseServerSocket
    ensures r.exit <==> st.exit || !closeFails
  {
    EnumerationSize(order, st.registry.Keys);
    st.(trace := st.trace + DisconnectCalls(st.registry, order) + [CloseServerSocket]
                 + (if closeFails then [] else [ShutdownPool]),
        exit := st.exit || !closeFails)
  }

  /** A state reached by the steps of `shutdown`, one at a time, is the one
      `AfterShutdown` describes. */
  lemma AfterShutdownSteps(st: ServerState, order: seq<ConnId>, closeFails: bool, st': ServerState)
    requires Enumerates(order, st.registry.Keys)
    requires st'.registry == st.registry && st'.queue == st.queue
    requires st'.trace == st.trace + DisconnectCalls(st.registry, order) + [CloseServerSocket]
                          + (if closeFails then [] else [ShutdownPool])
    requires st'.exit == (st.exit || !closeFails)
    ensures st' == AfterShutdown(st, order, closeFails)
  {
  }

  /** A duplicate-free listing of a set is as long as the set is large. */
  lemma {:induction false} EnumerationSize(order: seq<ConnId>, keys: set<ConnId>)
    requires Enumerates(order, keys)
    ensures |order| == |keys|
    decreases |order|
  {
    if order == [] {
      assert forall id :: id !in keys;
      assert keys == {};
    } else {
      var rest, smaller := order[1..], keys - {order[0]};
      forall id
        ensures id in rest <==> id in smaller
      {
        if id in rest {
          var k :| 0 <= k < |rest| && rest[k] == id;
          assert order[k + 1] == id;
        }
        if id in smaller {
          assert id in order;
          var k :| 0 <= k < |order| && order[k] == id;
          assert k != 0;
          assert rest[k - 1] == id;
        }
      }
      assert Enumerates(rest, smaller);
      EnumerationSize(rest, smaller);
    }
  }

  /** `shutdown` calls `disconnect` on every registered connection exactly
      once, closes the socket, and reaches the pool shutdown and the exit flag
      only when the close succeeds; the registry itself is not emptied. */
  lemma ShutdownDisconnectsEachOnce(st: ServerState, order: seq<ConnId>, closeFails: bool)
    requires Enumerates(order, st.registry.Keys)
    ensures var st' := AfterShutdown(st, order, closeFails);
      var calls := DisconnectCalls(st.registry, order);
      && st'.registry == st.registry && st'.queue == st.queue
      && |calls| == |st.registry|
      && (forall id :: id in st.registry ==>
            exists i :: 0 <= i < |calls| && order[i] == id && calls[i] == Disconnect(st.registry[id]))
      && st'.trace == st.trace + calls + [CloseServerSocket]
                    + (if closeFails then [] else [ShutdownPool])
      && (st'.exit <==> st.exit || !closeFails)
  {
    EnumerationSize(order, st.registry.Keys);
    assert |st.registry| == |st.registry.Keys|;
    forall id | id in st.registry
      ensures exists i :: 0 <= i < |order| && order[i] == id
                && DisconnectCalls(st.registry, order)[i] == Disconnect(st.registry[id])
    {
      var i :| 0 <= i < |order| && order[i] == id;
    }
  }

  /** The registry empties only through the connections' own disconnect
      reports: once each connection disconnected by `shutdown` reports back,
      the registry is empty. */
  lemma ShutdownThenReportsEmptyRegistry(mode: HandleMode, handler: Option<PacketHandler>,
                                         st: ServerState, order: seq<ConnId>, closeFails: bool)
    requires Wired(mode, handler, st.queue)
    requires Enumerates(order, st.registry.Keys)
    ensures DeliverAll(mode, handler, AfterShutdown(st, order, closeFails), DisconnectEvents(order)).registry
         == map[]
  {
    var st' := AfterShutdown(st, order, closeFails);
    DisconnectEventsRemove(mode, handler, st', order);
    EnumeratedKeys(order, st.registry.Keys);
  }

  /** The ids an enumeration lists are exactly the keys it enumerates. */
  lemma EnumeratedKeys(order: seq<ConnId>, keys: set<ConnId>)
    requires Enumerates(order, keys)
    ensures (set id | id in order) == keys
  {
  }

  /** The `for` loop of `shutdown`: walks the registry in some order and calls
      `disconnect` on each connection. Returns the order and the calls made. */
  method DisconnectEach(registry: map<ConnId, Connection>)
    returns (ghost order: seq<ConnId>, ghost calls: seq<Effect>)
    ensures Enumerates(order, registry.Keys)
    ensures calls == DisconnectCalls(registry, order)
  {
    var remaining := registry.Keys;
    order, calls := [], [];
    while remaining != {}
      invariant remaining <= registry.Keys
      invariant forall id :: id in order ==> id in registry && id !in remaining
      invariant forall id :: id in registry ==> id in order || id in remaining
      invariant forall i, j :: 0 <= i < j < |order| ==> order[i] != order[j]
      invariant calls == DisconnectCalls(registry, order)
      decreases remaining
    {
      var id :| id in remaining;
      DisconnectCallsAppend(registry, order, id);
      calls := calls + [Disconnect(registry[id])];
      order := order + [id];
      remaining := remaining - {id};
    }
  }

  // ---------------------------------------------------------------------------
  // The server object

  class PigeonTcpServer {
    const port: Int32
    const receiverThreadsNumber: Int32
    const packageToScan: Option<string>
    const handleMode: HandleMode
    const packetHandler: Option<PacketHandler>
    const callbackHandler: Option<CallbackHandler>
    const pool: Pool

    var connections: map<ConnId, Connection>
    var incomingPacketQueue: Option<seq<Packet>>
    ghost var trace: seq<Effect>
    var exit: bool

    ghost predicate Valid()
      reads this
    {
      && Wired(handleMode, packetHandler, incomingPacketQueue)
      && pool == SelectPool(receiverThreadsNumber)
    }

    ghost function State(): ServerState
      reads this
    {
      ServerState(connections, incomingPacketQueue, trace, exit)
    }

    /** The constructor, from a configuration that passed validation. The mode
        chooses between a queue (QUEUE) and the configured handler (HANDLER);
        the thread count chooses the pool. */
    constructor (config: TcpServerBuilder.ServerConfig)
      requires config.Consistent()
      ensures Valid()
      ensures port == config.port && receiverThreadsNumber == config.receiverThreadsNumber
      ensures packageToScan == config.packageToScan && callbackHandler == config.callbackHandler
      ensures handleMode == config.handleMode
      ensures handleMode == Queue ==> packetHandler.None? && incomingPacketQueue == Some([])
      ensures handleMode != Queue ==> packetHandler == config.packetHandler && incomingPacketQueue.None?
      ensures pool == (if config.receiverThreadsNumber <= 0 then Cached else Fixed(config.receiverThreadsNumber))
      ensures connections == map[] && trace == [] && !exit
    {
      port := config.port;
      receiverThreadsNumber := config.receiverThreadsNumber;
      handleMode := config.handleMode;
      callbackHandler := config.callbackHandler;
      packageToScan := config.packageToScan;
      if config.handleMode == Queue {
        packetHandler := None;
        incomingPacketQueue := Some([]);
      } else {
        packetHandler := config.packetHandler;
        incomingPacketQueue := None;
      }
      if config.receiverThreadsNumber <= 0 {
        pool := Cached;
      } else {
        pool := Fixed(config.receiverThreadsNumber);
      }
      connections := map[];
      trace := [];
      exit := false;
    }

    /** One pass of the accept loop for a socket `accept` returned;
        `writeFails` says whether writing the handshake byte throws. */
    method AcceptOne(activeCount: int, id: ConnId, socket: SocketRef, isOk: bool, writeFails: bool)
      returns (pass: PassResult)
      requires Valid()
      modifies this
      ensures Valid()
      ensures (State(), pass)
           == Admit(receiverThreadsNumber, callbackHandler, old(State()), activeCount, id, socket, isOk, writeFails)
    {
      if FixedNumberOfThreads(receiverThreadsNumber) {
        if activeCount >= receiverThreadsNumber {
          if writeFails {
            trace := trace + [CloseServerSocket];
            return WriteFailed(0);
          }
          trace := trace + [WriteByte(socket, 0)];
          return Sent(0);
        }
      }
      var connection := Connection(id, socket);
      if !isOk {
        return Silent;
      }
      ghost var before := trace;
      trace := trace + [Attach(connection)];
      connections := connections[id := connection];
      trace := trace + [Register(id, connection)];
      trace := trace + [Execute(connection)];
      if writeFails {
        trace := trace + [CloseServerSocket];
        assert trace == before + AdmissionSteps(id, connection) + [CloseServerSocket];
        return WriteFailed(1);
      }
      trace := trace + [WriteByte(socket, 1)];
      if callbackHandler.Some? {
        trace := trace + [NewConnection(callbackHandler.value, connection)];
      }
      assert trace == before + AdmissionEffects(callbackHandler, id, connection);
      pass := Sent(1);
    }

    /** `update`, as called by a connection. */
    method Update(ev: Event)
      requires Valid()
      modifies this
      ensures Valid()
      ensures State() == Dispatch(handleMode, packetHandler, old(State()), ev)
    {
      match ev
      case Disconnected(id) =>
        if id in connections {
          var connection := connections[id];
          connections := connections - {id};
          trace := trace + [Unregister(id)];
          trace := trace + [Disconnect(connection)];
        }
      case ReceivedPacket(p) =>
        if handleMode == Queue {
          incomingPacketQueue := Some(incomingPacketQueue.value + [p]);
        } else {
          trace := trace + [Handle(packetHandler.value, p)];
        }
    }

    /** `shutdown`; `closeFails` says whether closing the server socket throws.
        The registry is iterated in the order returned. */
    method Shutdown(closeFails: bool) returns (ghost order: seq<ConnId>)
      requires Valid()
      modifies this
      ensures Valid()
      ensures Enumerates(order, old(connections).Keys)
      ensures State() == AfterShutdown(old(State()), order, closeFails)
    {
      ghost var before := State();
      ghost var calls;
      order, calls := DisconnectEach(connections);
      trace := trace + calls;
      trace := trace + [CloseServerSocket];
      if !closeFails {
        trace := trace + [ShutdownPool];
        exit := true;
      }
      AfterShutdownSteps(before, order, closeFails, State());
    }

    /** `send` of one packet to a list of connections: stops at the first
        connection whose send throws. `sendSucceeds(k)` says whether the send to
        the connection at position `k` of the list goes through, so the same
        connection listed twice may fare differently. Returns the sends that
        went through and the connection that failed, if any. */
    method Send(packet: Packet, targets: seq<Connection>, sendSucceeds: nat -> bool)
      returns (sent: seq<Connection>, failure: Option<Connection>)
      ensures |sent| <= |targets| && sent == targets[..|sent|]
      ensures forall k :: 0 <= k < |sent| ==> sendSucceeds(k)
      ensures failure.None? ==> sent == targets
      ensures failure.Some? ==>
        |sent| < |targets| && failure.value == targets[|sent|] && !sendSucceeds(|sent|)
    {
      sent := [];
      var i := 0;
      while i < |targets|
        invariant 0 <= i <= |targets|
        invariant sent == targets[..i]
        invariant forall k :: 0 <= k < i ==> sendSucceeds(k)
      {
        if !sendSucceeds(i) {
          return sent, Some(targets[i]);
        }
        sent := sent + [targets[i]];
        i := i + 1;
      }
      failure := None;
    }
  }
}
