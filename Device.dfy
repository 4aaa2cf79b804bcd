/** The surface of the `acond_heat_pump` client library that the integration
    uses. The library itself (Modbus framing, decoding) is not part of this
    model: its values are opaque and its calls are oracles. */
module Device {
  import opened Wrappers

  /** A decoded temperature reading or setpoint. The integration does no
      arithmetic on temperatures; it only passes them along. */
  type Temperature(==)

  /** The device-native operating mode (the library's `HeatPumpMode`). */
  datatype HeatPumpMode = Automatic | HeatPumpOnly | BivalentOnly | Cooling | Off

  /** The library's `RegulationMode`. */
  datatype RegulationMode = AcondTherm | Equithermal | Manual

  /** A mode field as the device reports it: a value of the enumeration, or a
      raw value the enumeration does not list. */
  datatype Reading<E> = Known(mode: E) | Unknown(raw: int)

  /** The library's `HeatPumpStatus`: the boolean flags of one snapshot. */
  datatype Status = Status(
    on: bool,
    running: bool,
    fault: bool,
    defrost: bool,
    heatingDhw: bool,
    pumpCircuit1: bool,
    pumpCircuit2: bool,
    summerMode: bool,
    solarPump: bool,
    poolPump: bool,
    bivalenceRunning: bool,
    brinePump: bool,
    coolingRunning: bool)

  /** The library's `HeatPumpResponse`, restricted to the fields the modelled
      entities read. */
  datatype Snapshot = Snapshot(
    status: Status,
    heatPumpMode: Reading<HeatPumpMode>,
    regulationMode: Reading<RegulationMode>,
    indoor1TempActual: Option<Temperature>,
    indoor1TempSet: Option<Temperature>,
    indoor2TempActual: Option<Temperature>,
    indoor2TempSet: Option<Temperature>,
    dhwTempActual: Option<Temperature>,
    dhwTempSet: Option<Temperature>)

  /** The client's write calls issued by the modelled entities. */
  datatype Command =
    | ChangeSetting(mode: HeatPumpMode)                        // client.change_setting(mode)
    | SetIndoorTemperature(target: Temperature, circuit: int)  // client.set_indoor_temperature(t, circuit)
    | SetRegulationMode(regulation: RegulationMode)            // client.set_regulation_mode(mode)
    | SetSummerMode(summer: bool)                              // client.set_summer_mode(summer)
    | SetDhwTemperature(target: Temperature)                   // client.set_dhw_temperature(t)

  /** The kinds of exception a client call can raise: the library's
      `HeatPumpConnectionError`, or any other `Exception`. */
  datatype Fault = ConnectionError | OtherError
}
