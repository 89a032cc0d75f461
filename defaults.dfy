/** The built-in configuration values the builder falls back on. */
module TcpServerDefaults {
  import opened PigeonCommons

  /** Name of the properties file read by the builder. */
  const PropertiesFilename: string := "pigeon-tcp-server.properties"

  const Port: Int32 := 9191

  /** Zero selects an unbounded (cached) worker pool. */
  const ReceiverThreadsNumber: Int32 := 0

  /** No package is scanned for annotated handlers. */
  const PackageToScan: Option<string> := None

  const PacketHandleMode: HandleMode := Handler
}
