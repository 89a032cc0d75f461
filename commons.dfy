/** Types the TCP server takes from the pigeon-commons library and the JDK.
    Their implementations are not part of this model: objects such as a
    packet handler or a socket are opaque identities here. */
module PigeonCommons {

  datatype Option<+T> = None | Some(value: T)

  datatype Result<+T, +E> = Ok(value: T) | Err(error: E)

  /** Java's 32-bit `int` (and the value of a non-null `Integer`). */
  type Int32 = x: int | -0x8000_0000 <= x < 0x8000_0000

  /** One byte as written by `OutputStream.write(int)`. */
  type Byte = b: int | 0 <= b < 256

  /** `IncomingPacketHandleMode`: how received packets reach the application. */
  datatype HandleMode = Handler | Queue

  /** A `PacketHandler` object supplied by the application. */
  datatype PacketHandler = PacketHandler(ref: nat)

  /** A `ServerCallbackHandler` object supplied by the application. */
  datatype CallbackHandler = CallbackHandler(ref: nat)

  /** A received `Packet`; its payload is never inspected by the server. */
  datatype Packet = Packet(ref: nat)

  /** A `java.util.UUID` naming one connection. */
  type ConnId = nat

  /** An accepted client `Socket`. */
  datatype SocketRef = SocketRef(ref: nat)

  /** The `Connection` object created for an accepted socket. */
  datatype Connection = Connection(id: ConnId, socket: SocketRef)
}
