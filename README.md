# pigeon-tcp-server core, modelled in Dafny

This project models the core of the pigeon TCP server library. It covers two
sequential pieces of logic:

- **Configuration** (`PigeonTcpServerBuilder`, `TcpServerDefaults`). Each
  nullable field is resolved in a fixed precedence: an explicit `with*` value
  first, then the properties file, then the built-in default. An ordered chain
  of guards then validates the result, and `build` hands the configuration to
  the server.
- **The server** (`PigeonTcpServer`). This covers:
  - the connection registry (`map<ConnId, Connection>`);
  - one pass of the accept loop, with admission control and the raw 0/1
    handshake byte;
  - the `update` router for `DISCONNECTED` and `RECEIVED_PACKET`;
  - `shutdown`;
  - `send` to a list of connections.

Files:

- `commons.dfy`: the opaque types taken from pigeon-commons and the JDK (packet
  handler, packet, socket, connection, UUID), plus Java's 32-bit `int` and
  `Option`/`Result`.
- `defaults.dfy`: the constants of `TcpServerDefaults`.
- `builder.dfy`: the builder's fields as a `Settings` value, and the pure
  functions `Loaded` (`load`), `Validate` and `Built` (`build`) with lemmas
  about them. The `PigeonTcpServerBuilder` class has the same fields as the
  Java builder. Its setters update them in place, each replacing exactly its
  own field of the old `Settings` value; `Load` and `Build` update them in
  place and are proved equal to `Loaded` and `Built`. `Load` and `Build` read the properties of
  the file named by the builder's `propertiesFilename`.
- `server.dfy`: the server state as a `ServerState` value (registry, queue, a
  ghost trace of effects, exit flag). Pure step functions `Admit`, `Dispatch`
  and `AfterShutdown` describe one step each, and lemmas state what those steps
  guarantee. The `PigeonTcpServer` class keeps the configuration it was built
  with in `const` fields. `connections` and `incomingPacketQueue` are `final`
  references in Java whose contents change, so here they are `var` fields
  holding the current map and queue. `serverSocket` and `executorService` have
  no field: what the server does to them is a trace effect, and the chosen
  pool is the `const` field `pool`. The methods `AcceptOne`, `Update` and
  `Shutdown` are proved equal to the step functions.

What the server does to its collaborators is recorded in the trace. This
covers attach, registry put, executor submit, handshake byte write,
new-connection callback, registry remove, `disconnect`, `handle`, server-socket
close and pool shutdown. The order of effects is therefore a checkable property.

Three behaviours of the code that a reader might not expect:

- `shutdown` calls `disconnect` on every connection but does not remove any
  entry itself (`PigeonTcpServer.java:165-176`). The registry becomes empty only
  after every connection reports `DISCONNECTED`
  (`ShutdownThenReportsEmptyRegistry`).
- Admission compares the pool's active-thread count with the thread count, not
  the registry's size. The registry bound holds only if each registered
  connection occupies a worker (`AdmissionRespectsBound`).
- A malformed integer property throws the unchecked `NumberFormatException`
  out of `build`. It is not one of the validation errors. It leaves the fields
  already resolved in place (`BuildError.NumberFormat`).

## Model

| member | source | states |
|---|---|---|
| `TcpServerBuilder.Validate` | src/main/java/com/github/rskupnik/pigeon/tcpserver/PigeonTcpServerBuilder.java:111-123 | validation passes iff port, thread count and mode are non-null and not (HANDLER without handler); each error is reported exactly when all earlier guards pass and its own fails |
| `TcpServerBuilder.ResolveInt` | src/main/java/com/github/rskupnik/pigeon/tcpserver/PigeonTcpServerBuilder.java:129-133 | an integer field already set is kept; an unset one takes the parsed property, or the default when the property is absent; it fails, naming the property, exactly when the property is present and does not parse |
| `TcpServerBuilder.Loaded` | src/main/java/com/github/rskupnik/pigeon/tcpserver/PigeonTcpServerBuilder.java:125-144 | `load` stops with an error only for the port or thread-count property, and only when that property is present and does not parse |
| `TcpServerBuilder.Built` | src/main/java/com/github/rskupnik/pigeon/tcpserver/PigeonTcpServerBuilder.java:105-109 | every configuration that `load` and `validate` let through, before the server socket is created, is consistent: HANDLER mode always comes with a handler |
| `TcpServerBuilder.LoadKeepsExplicitValues` | src/main/java/com/github/rskupnik/pigeon/tcpserver/PigeonTcpServerBuilder.java:129-139 | `load` never overwrites a field already set; handler, callback handler and filename are untouched, whether or not `load` throws |
| `TcpServerBuilder.LoadResolvesPort` | src/main/java/com/github/rskupnik/pigeon/tcpserver/PigeonTcpServerBuilder.java:129-130 | an unset port becomes the parsed `port` property, or 9191 without one; a malformed property throws before anything is assigned |
| `TcpServerBuilder.LoadResolvesReceiverThreadsNumber` | src/main/java/com/github/rskupnik/pigeon/tcpserver/PigeonTcpServerBuilder.java:132-133 | an unset thread count becomes the parsed `receiver_threads_number` property, or 0 without one; a malformed one throws and leaves it null |
| `TcpServerBuilder.LoadResolvesModeAndPackage` | src/main/java/com/github/rskupnik/pigeon/tcpserver/PigeonTcpServerBuilder.java:135-139 | an unset mode becomes `fromString` of `packet_handle_mode`, or HANDLER; an unset package becomes `package_to_scan`, or stays null |
| `TcpServerBuilder.LoadCompletesIntegers` | src/main/java/com/github/rskupnik/pigeon/tcpserver/PigeonTcpServerBuilder.java:125-144 | a `load` that completes leaves port and thread count non-null |
| `TcpServerBuilder.BuildNeverReportsNullIntegers` | src/main/java/com/github/rskupnik/pigeon/tcpserver/PigeonTcpServerBuilder.java:105-116 | `build` never fails with "Port cannot be null" or "Receiver threads number cannot be null" |
| `TcpServerBuilder.BuildSucceedsIff` | src/main/java/com/github/rskupnik/pigeon/tcpserver/PigeonTcpServerBuilder.java:105-123 | `load` plus `validate` (the part of `build` before the server socket is created) succeeds iff `load` completes with a non-null mode that is QUEUE or has a handler |
| `TcpServerBuilder.QueueModeNeedsNoHandler` | src/test/java/com/github/rskupnik/pigeon/tcpserver/PigeonTcpServerBuilderTest.java:83-93 | a builder whose mode resolves to QUEUE builds in QUEUE mode without any packet handler |
| `TcpServerBuilder.DefaultModeRequiresHandler` | src/main/java/com/github/rskupnik/pigeon/tcpserver/TcpServerDefaults.java:30 | with no mode set or configured, the default HANDLER applies, so a builder without a handler fails with the missing-handler error |
| `TcpServerBuilder.DefaultsWithHandler` | src/test/java/com/github/rskupnik/pigeon/tcpserver/PigeonTcpServerBuilderTest.java:46-62 | a builder given only a handler, over an empty properties file, yields port 9191, thread count 0, no package, HANDLER mode |
| `TcpServerBuilder.ExplicitValuesWin` | src/test/java/com/github/rskupnik/pigeon/tcpserver/PigeonTcpServerBuilderTest.java:95-112 | explicit port, thread count and mode reach the configuration that `load` plus `validate` produce, whatever the properties say |
| `TcpServerBuilder.PigeonTcpServerBuilder.constructor` | src/main/java/com/github/rskupnik/pigeon/tcpserver/TcpServerDefaults.java:26 | a new builder has every field null and the properties filename `pigeon-tcp-server.properties` |
| `TcpServerBuilder.PigeonTcpServerBuilder.WithPort` | src/main/java/com/github/rskupnik/pigeon/tcpserver/PigeonTcpServerBuilder.java:46-49 | sets the port alone and returns the same builder |
| `TcpServerBuilder.PigeonTcpServerBuilder.WithReceiverThreadsNumber` | src/main/java/com/github/rskupnik/pigeon/tcpserver/PigeonTcpServerBuilder.java:51-54 | sets the thread count alone and returns the same builder |
| `TcpServerBuilder.PigeonTcpServerBuilder.WithIncomingPacketHandleMode` | src/main/java/com/github/rskupnik/pigeon/tcpserver/PigeonTcpServerBuilder.java:56-59 | sets (or clears, given null) the mode alone and returns the same builder |
| `TcpServerBuilder.PigeonTcpServerBuilder.WithPacketHandler` | src/main/java/com/github/rskupnik/pigeon/tcpserver/PigeonTcpServerBuilder.java:61-64 | sets the packet handler alone and returns the same builder |
| `TcpServerBuilder.PigeonTcpServerBuilder.WithServerCallbackHandler` | src/main/java/com/github/rskupnik/pigeon/tcpserver/PigeonTcpServerBuilder.java:66-69 | sets the callback handler alone and returns the same builder |
| `TcpServerBuilder.PigeonTcpServerBuilder.WithPackageToScan` | src/main/java/com/github/rskupnik/pigeon/tcpserver/PigeonTcpServerBuilder.java:71-74 | sets the package alone and returns the same builder |
| `TcpServerBuilder.PigeonTcpServerBuilder.WithPropertiesFilename` | src/main/java/com/github/rskupnik/pigeon/tcpserver/PigeonTcpServerBuilder.java:76-79 | sets the properties filename alone and returns the same builder |
| `TcpServerBuilder.PigeonTcpServerBuilder.Load` | src/main/java/com/github/rskupnik/pigeon/tcpserver/PigeonTcpServerBuilder.java:125-144 | the fields after the in-place `load` of the file named by `propertiesFilename`, and the exception that stopped it, are those of `Loaded` |
| `TcpServerBuilder.PigeonTcpServerBuilder.Build` | src/main/java/com/github/rskupnik/pigeon/tcpserver/PigeonTcpServerBuilder.java:105-109 | returns `Built` of the fields before the call and the file named by `propertiesFilename`, leaves the builder loaded, and any configuration it returns is consistent; the server socket is not created |
| `TcpServer.RejectWhenSaturated` | src/main/java/com/github/rskupnik/pigeon/tcpserver/PigeonTcpServer.java:92-98 | a bounded, saturated pool writes byte 0 and changes nothing else: no connection, no use of the id, the registry unchanged; if the write throws, the server socket is closed instead |
| `TcpServer.UnboundedNeverRejects` | src/main/java/com/github/rskupnik/pigeon/tcpserver/PigeonTcpServer.java:92-94 | with thread count 0 or less no socket is ever refused; byte 1 is attempted iff the connection is ok |
| `TcpServer.AdmitRegistersOne` | src/main/java/com/github/rskupnik/pigeon/tcpserver/PigeonTcpServer.java:101-114 | an admitted healthy connection adds exactly `id ↦ connection`, leaves other entries alone, and produces attach, put, execute, byte 1, then the callback if one exists, in that order; if writing byte 1 throws, the entry stays, no callback is made and the server socket is closed |
| `TcpServer.HandshakeWriteFailureEndsLoop` | src/main/java/com/github/rskupnik/pigeon/tcpserver/PigeonTcpServer.java:95-125 | a handshake write that throws ends the loop: the pass makes no callback and writes nothing, and its last effect is closing the server socket |
| `TcpServer.UnhealthyConnectionDropped` | src/main/java/com/github/rskupnik/pigeon/tcpserver/PigeonTcpServer.java:101-103 | a connection that is not ok leaves the state unchanged, with no byte and no callback |
| `TcpServer.AdmissionRespectsBound` | src/main/java/com/github/rskupnik/pigeon/tcpserver/PigeonTcpServer.java:92-105 | if each registered connection occupies a worker, a bounded server never holds more connections than its thread count |
| `TcpServer.SelectPool` | src/main/java/com/github/rskupnik/pigeon/tcpserver/PigeonTcpServer.java:66-70 | a thread count of 0 or less selects the cached pool; any other count selects a fixed pool of exactly that many threads |
| `TcpServer.FixedNumberOfThreads` | src/main/java/com/github/rskupnik/pigeon/tcpserver/PigeonTcpServer.java:208-210 | admission control is active exactly when the constructor chose a fixed pool |
| `TcpServer.Admit` | src/main/java/com/github/rskupnik/pigeon/tcpserver/PigeonTcpServer.java:88-125 | one accept-loop pass adds at most the entry for its own id, changes no other entry, the queue or the exit flag, and only appends to the trace; it changes nothing exactly when the connection is silently dropped |
| `TcpServer.DefaultThreadsSelectCachedPool` | src/main/java/com/github/rskupnik/pigeon/tcpserver/TcpServerDefaults.java:28 | the default thread count 0 selects the cached pool and never rejects a connection |
| `TcpServer.Dispatch` | src/main/java/com/github/rskupnik/pigeon/tcpserver/PigeonTcpServer.java:128-153 | `update` keeps the mode's wiring (queue in QUEUE mode, handler in HANDLER mode) and the exit flag |
| `TcpServer.DisconnectRemovesOnlyThatEntry` | src/main/java/com/github/rskupnik/pigeon/tcpserver/PigeonTcpServer.java:130-139 | a registered id is removed alone, then its connection is disconnected once; an unknown id changes nothing |
| `TcpServer.DisconnectIdempotent` | src/main/java/com/github/rskupnik/pigeon/tcpserver/PigeonTcpServer.java:132-133 | delivering the same disconnect twice has the effect of delivering it once |
| `TcpServer.PacketRouting` | src/main/java/com/github/rskupnik/pigeon/tcpserver/PigeonTcpServer.java:140-150 | a packet leaves the registry alone; QUEUE mode appends it to the queue, HANDLER mode calls `handle` once |
| `TcpServer.QueueModeIsFifo` | src/main/java/com/github/rskupnik/pigeon/tcpserver/PigeonTcpServer.java:143-145 | in QUEUE mode a series of packets lands in the queue in arrival order after what was there |
| `TcpServer.HandlerModeHandlesEachOnce` | src/main/java/com/github/rskupnik/pigeon/tcpserver/PigeonTcpServer.java:146-149 | in HANDLER mode each packet is handled exactly once, in arrival order |
| `TcpServer.DisconnectEventsRemove` | src/main/java/com/github/rskupnik/pigeon/tcpserver/PigeonTcpServer.java:130-139 | a series of disconnects removes exactly the reported ids and leaves the other entries unchanged |
| `TcpServer.DisconnectEach` | src/main/java/com/github/rskupnik/pigeon/tcpserver/PigeonTcpServer.java:167-169 | the loop visits every registered id exactly once and calls `disconnect` on its connection |
| `TcpServer.AfterShutdown` | src/main/java/com/github/rskupnik/pigeon/tcpserver/PigeonTcpServer.java:165-176 | `shutdown` keeps registry and queue and only appends to the trace: one disconnect per registered connection in iteration order, then the close, then, only if the close succeeded, the pool shutdown as the last effect; exit is set exactly when the close succeeds (or was already set) |
| `TcpServer.ShutdownDisconnectsEachOnce` | src/main/java/com/github/rskupnik/pigeon/tcpserver/PigeonTcpServer.java:165-176 | `shutdown` disconnects every registered connection exactly once and keeps the registry; it closes the socket, and only when the close succeeds does it shut the pool down and set exit |
| `TcpServer.ShutdownThenReportsEmptyRegistry` | src/main/java/com/github/rskupnik/pigeon/tcpserver/PigeonTcpServer.java:165-172 | once every connection disconnected by `shutdown` reports back, the registry is empty |
| `TcpServer.PigeonTcpServer.constructor` | src/main/java/com/github/rskupnik/pigeon/tcpserver/PigeonTcpServer.java:43-71 | QUEUE mode gets an empty queue and no handler, other modes get the builder's handler and no queue; thread count 0 or less selects the cached pool, else a fixed pool; the mode is a constant |
| `TcpServer.PigeonTcpServer.AcceptOne` | src/main/java/com/github/rskupnik/pigeon/tcpserver/PigeonTcpServer.java:88-125 | one accept-loop pass, with or without a failing handshake write, updates the server as `Admit` says and returns how the pass ended |
| `TcpServer.PigeonTcpServer.Update` | src/main/java/com/github/rskupnik/pigeon/tcpserver/PigeonTcpServer.java:128-153 | `update` changes the server as `Dispatch` says and keeps its wiring |
| `TcpServer.PigeonTcpServer.Shutdown` | src/main/java/com/github/rskupnik/pigeon/tcpserver/PigeonTcpServer.java:165-176 | `shutdown` changes the server as `AfterShutdown` says, in an iteration order that lists each registered id once |
| `TcpServer.PigeonTcpServer.Send` | src/main/java/com/github/rskupnik/pigeon/tcpserver/PigeonTcpServer.java:159-163 | sends to the connections in list order and stops at the first position whose send fails; the returned connections are exactly the prefix before the failure |

## Left out

- Socket I/O is recorded as trace effects, not real streams. This covers the
  server socket, `accept`, accept timeouts and the `SocketException` filter,
  and the `finally` close when the loop ends because `exit` was set. The close
  after a failed handshake write is a trace effect.
- Only one pass of the accept loop is modelled (`PigeonTcpServer.java:88-114`).
  The `while (!exit)` loop itself, the `onStarted` callback at the start of
  `run`, and the loop's exit on `exit` are not. A pass whose handshake write
  throws reports that the loop ended (`WriteFailed`).
- Creating the server socket in the constructor is not modelled. A bind that
  fails with an `IOException` becomes a `PigeonServerException`. A port
  outside 0-65535 makes `new ServerSocket` throw `IllegalArgumentException`,
  which is not caught and propagates out of `build` unchecked. Neither path is modelled.
  The builder's success results therefore cover `load` and `validate` only.
- `AnnotationsScanner.scan` (reflection over the package to scan) is not
  modelled. The package is only stored.
- Threads and the worker pool are not modelled. The pool's active count is an
  input, and `execute` and pool shutdown are trace effects.
- Concurrent access is not modelled. The unsynchronised `HashMap` and the
  non-volatile `exit` flag are shared between threads. Every event is a
  sequential method call.
- `Connection`, `Packet`, `PacketHandler`, `ServerCallbackHandler` and
  `IncomingPacketQueue` belong to pigeon-commons, which is not part of this
  model. They are opaque identities, and `isOk`, `disconnect` and `handle`
  are abstract calls. The queue is a `seq` of packets.
- Whether `Connection.disconnect` notifies the server synchronously is not
  known. If it did, `update` would change the map while `shutdown` iterates
  over it. That re-entrancy is not modelled.
- `UUID.randomUUID` is a parameter. A colliding id overwrites the existing
  entry, as `HashMap.put` does.
- The `Parrot` properties file is modelled as a map from key to value.
  `Integer.parseInt` and `IncomingPacketHandleMode.fromString` are
  function-typed parameters. The model does not say whether `fromString`
  throws on an unknown name; it is taken to return a mode or null.
- The `ClassCastException` handler in `load` is not modelled. Nothing visible
  can raise it.
- Log4j logging is not modelled.
- The getters, `send(Packet, Connection)`, `Pigeon.newServer` and the manual
  test harness are thin wrappers and are not modelled.
- TcpServer.PigeonTcpServer.constructor: requires a configuration that passed
  validation. In Java the constructor is public and reads the builder's
  getters. Called on an unvalidated builder, it throws `NullPointerException`
  when unboxing a null port. With HANDLER mode and no handler, `update` fails
  later. Neither path is modelled.
- TcpServer.AdmissionRespectsBound: assumes the active count is at least the
  registry's size. How the pool's threads relate to the registry is not
  modelled.
- TcpServer.PigeonTcpServer.Send: records which sends succeed, not what is
  written to each connection.
