/** Configuration of the TCP server: explicit builder values layered over a
    properties source and the built-in defaults, then validated. */
module TcpServerBuilder {
  import opened PigeonCommons
  import TcpServerDefaults

  /** Keys looked up in the properties file. */
  const PropertyPort: string := "port"
  const PropertyReceiverThreadsNumber: string := "receiver_threads_number"
  const PropertyPackageToScan: string := "package_to_scan"
  const PropertyPacketHandleMode: string := "packet_handle_mode"

  /** Why `build` fails. The first four are the `PigeonException`s thrown by
      validation; `NumberFormat` is the unchecked exception `Integer.parseInt`
      throws on a malformed property, which `load` lets through. */
  datatype BuildError =
    | PortNull
    | ReceiverThreadsNumberNull
    | HandleModeNull
    | HandlerMissing
    | NumberFormat(property: string)

  /** `Integer.parseInt`: None when it throws. */
  type IntParser = string -> Option<Int32>

  /** `IncomingPacketHandleMode.fromString`: None when it yields null. */
  type ModeParser = string -> Option<HandleMode>

  /** The builder's fields, every nullable one as an Option. */
  datatype Settings = Settings(
    propertiesFilename: string,
    port: Option<Int32>,
    receiverThreadsNumber: Option<Int32>,
    handleMode: Option<HandleMode>,
    packetHandler: Option<PacketHandler>,
    callbackHandler: Option<CallbackHandler>,
    packageToScan: Option<string>)

  /** A fresh builder: only the properties filename has a value. */
  const Unset: Settings :=
    Settings(TcpServerDefaults.PropertiesFilename, None, None, None, None, None, None)

  /** What a successful `build` hands to the server's constructor. */
  datatype ServerConfig = ServerConfig(
    port: Int32,
    receiverThreadsNumber: Int32,
    handleMode: HandleMode,
    packetHandler: Option<PacketHandler>,
    callbackHandler: Option<CallbackHandler>,
    packageToScan: Option<string>)
  {
    /** A HANDLER-mode configuration names its handler. */
    predicate Consistent() {
      handleMode == Handler ==> packetHandler.Some?
    }
  }

  /** One integer field as `load` resolves it: the value already set, else the
      parsed property, else the default. */
  function ResolveInt(current: Option<Int32>, props: map<string, string>, key: string,
                      parseInt: IntParser, default: Int32): (r: Result<Int32, BuildError>)
    ensures current.Some? ==> r == Ok(current.value)
    ensures current.None? && key !in props ==> r == Ok(default)
    ensures current.None? && key in props ==>
      (r.Ok? <==> parseInt(props[key]).Some?) && (r.Err? ==> r.error == NumberFormat(key))
    ensures current.None? && key in props && parseInt(props[key]).Some? ==>
      r == Ok(parseInt(props[key]).value)
  {
    if current.Some? then Ok(current.value)
    else if key in props then
      match parseInt(props[key])
      case Some(v) => Ok(v)
      case None => Err(NumberFormat(key))
    else Ok(default)
  }

  /** `load` over the entries `props` of the properties file: the fields after
      resolution, and the exception that stopped it part-way, if any (fields
      assigned before the exception keep their values). The only exception is
      a malformed integer property that is actually present. */
  function Loaded(s: Settings, props: map<string, string>, parseInt: IntParser,
                  fromString: ModeParser): (r: (Settings, Option<BuildError>))
    ensures r.1.Some? ==>
      && r.1.value.NumberFormat?
      && r.1.value.property in {PropertyPort, PropertyReceiverThreadsNumber}
      && r.1.value.property in props
      && parseInt(props[r.1.value.property]).None?
  {
    match ResolveInt(s.port, props, PropertyPort, parseInt, TcpServerDefaults.Port)
    case Err(e) => (s, Some(e))
    case Ok(port) =>
      var s1 := s.(port := Some(port));
      match ResolveInt(s1.receiverThreadsNumber, props, PropertyReceiverThreadsNumber,
                       parseInt, TcpServerDefaults.ReceiverThreadsNumber)
      case Err(e) => (s1, Some(e))
      case Ok(threads) =>
        var s2 := s1.(receiverThreadsNumber := Some(threads));
        var s3 :=
          if s2.packageToScan.Some? then s2
          else if PropertyPackageToScan in props then s2.(packageToScan := Some(props[PropertyPackageToScan]))
          else s2.(packageToScan := TcpServerDefaults.PackageToScan);
        var s4 :=
          if s3.handleMode.Some? then s3
          else if PropertyPacketHandleMode in props then s3.(handleMode := fromString(props[PropertyPacketHandleMode]))
          else s3.(handleMode := Some(TcpServerDefaults.PacketHandleMode));
        (s4, None)
  }

  /** `validate`: the guards in source order; None when all pass. Each error is
      reported exactly when every earlier guard passed and its own fails. */
  function Validate(s: Settings): (r: Option<BuildError>)
    ensures r.None? <==>
      s.port.Some? && s.receiverThreadsNumber.Some? && s.handleMode.Some? &&
      !(s.handleMode == Some(Handler) && s.packetHandler.None?)
    ensures r == Some(PortNull) <==> s.port.None?
    ensures r == Some(ReceiverThreadsNumberNull) <==>
      s.port.Some? && s.receiverThreadsNumber.None?
    ensures r == Some(HandleModeNull) <==>
      s.port.Some? && s.receiverThreadsNumber.Some? && s.handleMode.None?
    ensures r == Some(HandlerMissing) <==>
      s.port.Some? && s.receiverThreadsNumber.Some? &&
      s.handleMode == Some(Handler) && s.packetHandler.None?
  {
    if s.port.None? then Some(PortNull)
    else if s.receiverThreadsNumber.None? then Some(ReceiverThreadsNumberNull)
    else if s.handleMode.None? then Some(HandleModeNull)
    else if s.handleMode.value == Handler && s.packetHandler.None? then Some(HandlerMissing)
    else None
  }

  /** `build`: load, then validate, then the configuration the server reads. */
  function Built(s: Settings, props: map<string, string>, parseInt: IntParser,
                 fromString: ModeParser): (r: Result<ServerConfig, BuildError>)
    ensures r.Ok? ==> r.value.Consistent()
  {
    var (loaded, err) := Loaded(s, props, parseInt, fromString);
    if err.Some? then Err(err.value)
    else match Validate(loaded)
      case Some(e) => Err(e)
      case None =>
        Ok(ServerConfig(loaded.port.value, loaded.receiverThreadsNumber.value,
                        loaded.handleMode.value, loaded.packetHandler,
                        loaded.callbackHandler, loaded.packageToScan))
  }

  // ---------------------------------------------------------------------------
  // Properties of load, validate and build

  /** `load` assigns a field only while it is still null: explicit values, and
      the fields it never touches, survive it whether or not it throws. */
  lemma LoadKeepsExplicitValues(s: Settings, props: map<string, string>,
                                parseInt: IntParser, fromString: ModeParser)
    ensures var l := Loaded(s, props, parseInt, fromString).0;
      && (s.port.Some? ==> l.port == s.port)
      && (s.receiverThreadsNumber.Some? ==> l.receiverThreadsNumber == s.receiverThreadsNumber)
      && (s.handleMode.Some? ==> l.handleMode == s.handleMode)
      && (s.packageToScan.Some? ==> l.packageToScan == s.packageToScan)
      && l.packetHandler == s.packetHandler
      && l.callbackHandler == s.callbackHandler
      && l.propertiesFilename == s.propertiesFilename
  {
  }

  /** An unset port becomes the parsed `port` property, or 9191 without one; a
      malformed property stops `load` before anything is assigned. */
  lemma LoadResolvesPort(s: Settings, props: map<string, string>,
                         parseInt: IntParser, fromString: ModeParser)
    requires s.port.None?
    ensures var (l, err) := Loaded(s, props, parseInt, fromString);
      && (PropertyPort !in props ==> l.port == Some(9191))
      && (PropertyPort in props && parseInt(props[PropertyPort]).Some? ==>
            l.port == parseInt(props[PropertyPort]))
      && (PropertyPort in props && parseInt(props[PropertyPort]).None? ==>
            l == s && err == Some(NumberFormat("port")))
  {
  }

  /** An unset receiver thread count becomes the parsed property, or 0 without
      one, once the port has been resolved. */
  lemma LoadResolvesReceiverThreadsNumber(s: Settings, props: map<string, string>,
                                          parseInt: IntParser, fromString: ModeParser)
    requires s.receiverThreadsNumber.None?
    requires ResolveInt(s.port, props, PropertyPort, parseInt, TcpServerDefaults.Port).Ok?
    ensures var (l, err) := Loaded(s, props, parseInt, fromString);
      var key := PropertyReceiverThreadsNumber;
      && (key !in props ==> l.receiverThreadsNumber == Some(0) && err.None?)
      && (key in props && parseInt(props[key]).Some? ==>
            l.receiverThreadsNumber == parseInt(props[key]) && err.None?)
      && (key in props && parseInt(props[key]).None? ==>
            l.receiverThreadsNumber.None? && err == Some(NumberFormat("receiver_threads_number")))
  {
  }

  /** An unset handle mode becomes `fromString` of its property, or HANDLER
      without one; an unset package becomes its property, or stays null. */
  lemma LoadResolvesModeAndPackage(s: Settings, props: map<string, string>,
                                   parseInt: IntParser, fromString: ModeParser)
    requires Loaded(s, props, parseInt, fromString).1.None?
    ensures var l := Loaded(s, props, parseInt, fromString).0;
      && (s.handleMode.None? && PropertyPacketHandleMode !in props ==> l.handleMode == Some(Handler))
      && (s.handleMode.None? && PropertyPacketHandleMode in props ==>
            l.handleMode == fromString(props[PropertyPacketHandleMode]))
      && (s.packageToScan.None? && PropertyPackageToScan !in props ==> l.packageToScan.None?)
      && (s.packageToScan.None? && PropertyPackageToScan in props ==>
            l.packageToScan == Some(props[PropertyPackageToScan]))
  {
  }

  /** A `load` that completes leaves port and receiver thread count non-null. */
  lemma LoadCompletesIntegers(s: Settings, props: map<string, string>,
                              parseInt: IntParser, fromString: ModeParser)
    ensures var (l, err) := Loaded(s, props, parseInt, fromString);
      err.None? ==> l.port.Some? && l.receiverThreadsNumber.Some?
  {
  }

  /** Hence `build` never fails with the first two validation errors. */
  lemma BuildNeverReportsNullIntegers(s: Settings, props: map<string, string>,
                                      parseInt: IntParser, fromString: ModeParser)
    ensures Built(s, props, parseInt, fromString) != Err(PortNull)
    ensures Built(s, props, parseInt, fromString) != Err(ReceiverThreadsNumberNull)
  {
    LoadCompletesIntegers(s, props, parseInt, fromString);
  }

  /** `build` succeeds exactly when `load` completes with a non-null mode and
      either QUEUE mode or a packet handler. */
  lemma BuildSucceedsIff(s: Settings, props: map<string, string>,
                         parseInt: IntParser, fromString: ModeParser)
    ensures var (l, err) := Loaded(s, props, parseInt, fromString);
      Built(s, props, parseInt, fromString).Ok? <==>
        err.None? && l.handleMode.Some? && (l.handleMode == Some(Queue) || s.packetHandler.Some?)
  {
    LoadCompletesIntegers(s, props, parseInt, fromString);
    LoadKeepsExplicitValues(s, props, parseInt, fromString);
  }

  /** A builder whose mode resolves to QUEUE builds without any packet handler. */
  lemma QueueModeNeedsNoHandler(s: Settings, props: map<string, string>,
                                parseInt: IntParser, fromString: ModeParser)
    requires Loaded(s, props, parseInt, fromString).1.None?
    requires Loaded(s, props, parseInt, fromString).0.handleMode == Some(Queue)
    ensures Built(s, props, parseInt, fromString).Ok?
    ensures Built(s, props, parseInt, fromString).value.handleMode == Queue
  {
    LoadCompletesIntegers(s, props, parseInt, fromString);
  }

  /** With no mode anywhere the mode is HANDLER, so a builder without a handler
      fails validation with exactly that error. */
  lemma DefaultModeRequiresHandler(s: Settings, props: map<string, string>,
                                   parseInt: IntParser, fromString: ModeParser)
    requires s.handleMode.None? && PropertyPacketHandleMode !in props
    requires s.packetHandler.None?
    requires Loaded(s, props, parseInt, fromString).1.None?
    ensures Built(s, props, parseInt, fromString) == Err(HandlerMissing)
  {
    LoadResolvesModeAndPackage(s, props, parseInt, fromString);
    LoadCompletesIntegers(s, props, parseInt, fromString);
    LoadKeepsExplicitValues(s, props, parseInt, fromString);
  }

  /** A builder given only a handler, over an empty properties source, yields
      every default: port 9191, thread count 0, no package, HANDLER mode. */
  lemma DefaultsWithHandler(h: PacketHandler, parseInt: IntParser, fromString: ModeParser)
    ensures Built(Unset.(packetHandler := Some(h)), map[], parseInt, fromString)
         == Ok(ServerConfig(9191, 0, Handler, Some(h), None, None))
  {
  }

  /** Explicit port, thread count and mode win over whatever the properties say. */
  lemma ExplicitValuesWin(s: Settings, port: Int32, threads: Int32, mode: HandleMode,
                          props: map<string, string>, parseInt: IntParser, fromString: ModeParser)
    requires s.port == Some(port) && s.receiverThreadsNumber == Some(threads)
    requires s.handleMode == Some(mode)
    requires mode == Queue || s.packetHandler.Some?
    ensures var r := Built(s, props, parseInt, fromString);
      && r.Ok?
      && r.value.port == port && r.value.receiverThreadsNumber == threads
      && r.value.handleMode == mode
  {
    LoadKeepsExplicitValues(s, props, parseInt, fromString);
  }

  // ---------------------------------------------------------------------------
  // The builder object

  class PigeonTcpServerBuilder {
    var propertiesFilename: string
    var port: Option<Int32>
    var receiverThreadsNumber: Option<Int32>
    var handleMode: Option<HandleMode>
    var packetHandler: Option<PacketHandler>
    var callbackHandler: Option<CallbackHandler>
    var packageToScan: Option<string>

    /** All fields as one value. */
    function Fields(): Settings
      reads this
    {
      Settings(propertiesFilename, port, receiverThreadsNumber, handleMode,
               packetHandler, callbackHandler, packageToScan)
    }

    constructor ()
      ensures Fields() == Unset
      ensures propertiesFilename == "pigeon-tcp-server.properties"
    {
      propertiesFilename := TcpServerDefaults.PropertiesFilename;
      port, receiverThreadsNumber, handleMode := None, None, None;
      packetHandler, callbackHandler, packageToScan := None, None, None;
    }

    method WithPort(p: Int32) returns (self: PigeonTcpServerBuilder)
      modifies this
      ensures self == this
      ensures Fields() == old(Fields()).(port := Some(p))
    {
      port := Some(p);
      self := this;
    }

    method WithReceiverThreadsNumber(n: Int32) returns (self: PigeonTcpServerBuilder)
      modifies this
      ensures self == this
      ensures Fields() == old(Fields()).(receiverThreadsNumber := Some(n))
    {
      receiverThreadsNumber := Some(n);
      self := this;
    }

    /** The argument may be null, which clears the field. */
    method WithIncomingPacketHandleMode(mode: Option<HandleMode>) returns (self: PigeonTcpServerBuilder)
      modifies this
      ensures self == this
      ensures Fields() == old(Fields()).(handleMode := mode)
    {
      handleMode := mode;
      self := this;
    }

    method WithPacketHandler(h: Option<PacketHandler>) returns (self: PigeonTcpServerBuilder)
      modifies this
      ensures self == this
      ensures Fields() == old(Fields()).(packetHandler := h)
    {
      packetHandler := h;
      self := this;
    }

    method WithServerCallbackHandler(c: Option<CallbackHandler>) returns (self: PigeonTcpServerBuilder)
      modifies this
      ensures self == this
      ensures Fields() == old(Fields()).(callbackHandler := c)
    {
      callbackHandler := c;
      self := this;
    }

    method WithPackageToScan(pkg: Option<string>) returns (self: PigeonTcpServerBuilder)
      modifies this
      ensures self == this
      ensures Fields() == old(Fields()).(packageToScan := pkg)
    {
      packageToScan := pkg;
      self := this;
    }

    method WithPropertiesFilename(name: string) returns (self: PigeonTcpServerBuilder)
      modifies this
      ensures self == this
      ensures Fields() == old(Fields()).(propertiesFilename := name)
    {
      propertiesFilename := name;
      self := this;
    }

    /** `load`: reads the properties file named by `propertiesFilename` from
        `files` (a missing file has no entries) and resolves the fields.
        Returns the exception that interrupted it, if any. */
    method Load(files: string -> map<string, string>, parseInt: IntParser, fromString: ModeParser)
      returns (err: Option<BuildError>)
      modifies this
      ensures (Fields(), err) == Loaded(old(Fields()), files(old(propertiesFilename)), parseInt, fromString)
    {
      var props := files(propertiesFilename);
      if port.None? {
        if PropertyPort in props {
          var parsed := parseInt(props[PropertyPort]);
          if parsed.None? {
            return Some(NumberFormat(PropertyPort));
          }
          port := parsed;
        } else {
          port := Some(TcpServerDefaults.Port);
        }
      }
      if receiverThreadsNumber.None? {
        if PropertyReceiverThreadsNumber in props {
          var parsed := parseInt(props[PropertyReceiverThreadsNumber]);
          if parsed.None? {
            return Some(NumberFormat(PropertyReceiverThreadsNumber));
          }
          receiverThreadsNumber := parsed;
        } else {
          receiverThreadsNumber := Some(TcpServerDefaults.ReceiverThreadsNumber);
        }
      }
      if packageToScan.None? {
        packageToScan :=
          if PropertyPackageToScan in props then Some(props[PropertyPackageToScan])
          else TcpServerDefaults.PackageToScan;
      }
      if handleMode.None? {
        handleMode :=
          if PropertyPacketHandleMode in props then fromString(props[PropertyPacketHandleMode])
          else Some(TcpServerDefaults.PacketHandleMode);
      }
      err := None;
    }

    /** `build`: the configuration for a new server, or the exception. */
    method Build(files: string -> map<string, string>, parseInt: IntParser, fromString: ModeParser)
      returns (r: Result<ServerConfig, BuildError>)
      modifies this
      ensures Fields() == Loaded(old(Fields()), files(old(propertiesFilename)), parseInt, fromString).0
      ensures r == Built(old(Fields()), files(old(propertiesFilename)), parseInt, fromString)
      ensures r.Ok? ==> r.value.Consistent()
    {
      var err := Load(files, parseInt, fromString);
      if err.Some? {
        return Err(err.value);
      }
      var invalid := Validate(Fields());
      if invalid.Some? {
        return Err(invalid.value);
      }
      r := Ok(ServerConfig(port.value, receiverThreadsNumber.value, handleMode.value,
                           packetHandler, callbackHandler, packageToScan));
    }
  }
}
