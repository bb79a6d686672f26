/** The `modbus` section of the configuration and the settings the reader derives from it. */
module Config {
  import opened Errors

  /** One entry of the register map: where a metric lives and how to read it. */
  datatype RegisterConfig = RegisterConfig(address: int, length: int, dataType: string, scale: Option<real>)

  /** Metric name to register entry; a name that is absent is simply not read. */
  type RegisterMap = map<string, RegisterConfig>

  /** The configuration as given: every key may be missing. */
  datatype ModbusConfig = ModbusConfig(
    connectionType: Option<string>,
    host: Option<string>,
    port: Option<int>,
    portName: Option<string>,
    baudrate: Option<int>,
    parity: Option<string>,
    stopbits: Option<int>,
    bytesize: Option<int>,
    unitId: Option<int>,
    timeout: Option<real>,
    registerMap: Option<RegisterMap>,
    wordOrder: Option<string>,
    byteOrder: Option<string>)

  /** The configuration with every missing key replaced by its default. */
  datatype Settings = Settings(
    connectionType: string,
    host: string,
    port: int,
    portName: string,
    baudrate: int,
    parity: string,
    stopbits: int,
    bytesize: int,
    unitId: int,
    timeout: real,
    registerMap: RegisterMap,
    wordOrder: string,
    byteOrder: string)

  const EMPTY_CONFIG := ModbusConfig(None, None, None, None, None, None, None, None, None, None, None, None, None)

  /** The register layout of the reference inverter, used when the configuration gives none. */
  const DEFAULT_REGISTER_MAP: RegisterMap := map[
    "total_energy_produced" := RegisterConfig(3000, 2, "uint32", Some(0.001)),
    "total_energy_consumed" := RegisterConfig(3004, 2, "uint32", Some(0.001)),
    "total_energy_fed_in" := RegisterConfig(3008, 2, "uint32", Some(0.001)),
    "current_power_produced" := RegisterConfig(3012, 1, "uint16", Some(0.001)),
    "current_power_consumed_grid" := RegisterConfig(3014, 1, "int16", Some(0.001)),
    "current_power_fed_in" := RegisterConfig(3016, 1, "uint16", Some(0.001))
  ]

  function GetOr<T>(o: Option<T>, default: T): T {
    match o
    case Some(v) => v
    case None => default
  }

  function Resolve(config: ModbusConfig): Settings {
    Settings(
      GetOr(config.connectionType, "tcp"),
      GetOr(config.host, "192.168.1.100"),
      GetOr(config.port, 502),
      GetOr(config.portName, "/dev/ttyUSB0"),
      GetOr(config.baudrate, 9600),
      GetOr(config.parity, "N"),
      GetOr(config.stopbits, 1),
      GetOr(config.bytesize, 8),
      GetOr(config.unitId, 1),
      GetOr(config.timeout, 3.0),
      GetOr(config.registerMap, DEFAULT_REGISTER_MAP),
      GetOr(config.wordOrder, "big"),
      GetOr(config.byteOrder, "big"))
  }

  /** An empty configuration selects a TCP connection to the reference inverter, big-endian. */
  lemma EmptyConfigDefaults()
    ensures var s := Resolve(EMPTY_CONFIG);
      && s.connectionType == "tcp" && s.host == "192.168.1.100" && s.port == 502
      && s.portName == "/dev/ttyUSB0" && s.baudrate == 9600 && s.parity == "N"
      && s.stopbits == 1 && s.bytesize == 8 && s.unitId == 1 && s.timeout == 3.0
      && s.registerMap == DEFAULT_REGISTER_MAP && s.wordOrder == "big" && s.byteOrder == "big"
  {
  }

  /** A register map that is given replaces the default one wholesale; nothing is merged. */
  lemma GivenRegisterMapReplacesDefault(config: ModbusConfig, m: RegisterMap)
    requires config.registerMap == Some(m)
    ensures Resolve(config).registerMap == m
    ensures "total_energy_produced" !in m ==> "total_energy_produced" !in Resolve(config).registerMap
  {
  }

  /** Every key that is given is used as given; every key that is missing takes its default. */
  lemma ResolveOverridesDefaults(config: ModbusConfig)
    ensures var s := Resolve(config);
      var d := Resolve(EMPTY_CONFIG);
      && s.connectionType == (if config.connectionType.Some? then config.connectionType.value else d.connectionType)
      && s.host == (if config.host.Some? then config.host.value else d.host)
      && s.port == (if config.port.Some? then config.port.value else d.port)
      && s.portName == (if config.portName.Some? then config.portName.value else d.portName)
      && s.baudrate == (if config.baudrate.Some? then config.baudrate.value else d.baudrate)
      && s.parity == (if config.parity.Some? then config.parity.value else d.parity)
      && s.stopbits == (if config.stopbits.Some? then config.stopbits.value else d.stopbits)
      && s.bytesize == (if config.bytesize.Some? then config.bytesize.value else d.bytesize)
      && s.unitId == (if config.unitId.Some? then config.unitId.value else d.unitId)
      && s.timeout == (if config.timeout.Some? then config.timeout.value else d.timeout)
      && s.registerMap == (if config.registerMap.Some? then config.registerMap.value else d.registerMap)
      && s.wordOrder == (if config.wordOrder.Some? then config.wordOrder.value else d.wordOrder)
      && s.byteOrder == (if config.byteOrder.Some? then config.byteOrder.value else d.byteOrder)
  {
  }
}
