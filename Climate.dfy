/** The two climate entities (`AcondClimate` for circuit I and
    `AcondClimateCircuit2`): the device-mode translation tables, the state
    they report, and their two writes. */
module Climate {
  import opened Wrappers
  import opened Dict
  import opened Device
  import opened HomeAssistant
  import opened Coordinator

  /** `_MODE_TO_HVAC`: the read mapping. */
  const ModeToHvac: Dict<HeatPumpMode, HvacMode> := [
    (HeatPumpMode.Automatic, HvacMode.Auto),
    (HeatPumpMode.HeatPumpOnly, HvacMode.Heat),
    (HeatPumpMode.BivalentOnly, HvacMode.Heat),
    (HeatPumpMode.Off, HvacMode.Off),
    (HeatPumpMode.Cooling, HvacMode.Cool)
  ]

  /** `_HVAC_TO_MODE`: the write mapping. */
  const HvacToMode: Dict<HvacMode, HeatPumpMode> := [
    (HvacMode.Auto, HeatPumpMode.Automatic),
    (HvacMode.Heat, HeatPumpMode.HeatPumpOnly),
    (HvacMode.Cool, HeatPumpMode.Cooling),
    (HvacMode.Off, HeatPumpMode.Off)
  ]

  /** `_attr_hvac_modes`, the same for both circuits. */
  const HvacModes: seq<HvacMode> := [HvacMode.Auto, HvacMode.Heat, HvacMode.Cool, HvacMode.Off]

  datatype Circuit = Circuit1 | Circuit2

  /** The circuit number passed to `set_indoor_temperature`. */
  function CircuitNumber(circuit: Circuit): (n: int)
    ensures n in {1, 2}
  {
    match circuit
    case Circuit1 => 1
    case Circuit2 => 2
  }

  /** `hvac_mode`: the device mode read through `_MODE_TO_HVAC`, AUTO when the
      device reports a mode the table does not hold. */
  function CurrentHvacMode(data: Snapshot): (h: HvacMode)
    ensures h in HvacModes
    ensures data.heatPumpMode.Unknown? ==> h == HvacMode.Auto
    ensures data.heatPumpMode in {Known(HeatPumpMode.HeatPumpOnly), Known(HeatPumpMode.BivalentOnly)} <==>
              h == HvacMode.Heat
    ensures data.heatPumpMode == Known(HeatPumpMode.Automatic) ==> h == HvacMode.Auto
    ensures data.heatPumpMode == Known(HeatPumpMode.Cooling) ==> h == HvacMode.Cool
    ensures data.heatPumpMode == Known(HeatPumpMode.Off) ==> h == HvacMode.Off
  {
    match data.heatPumpMode
    case Known(m) => Get(ModeToHvac, m).GetOr(HvacMode.Auto)
    case Unknown(_) => HvacMode.Auto
  }

  /** `hvac_action`: the status flags decided in priority order: power,
      cooling, running, defrost. */
  function CurrentHvacAction(status: Status): (a: HvacAction)
    ensures a == HvacAction.Off <==> !status.on
    ensures a == HvacAction.Cooling <==> status.on && status.coolingRunning
    ensures a == HvacAction.Heating <==> status.on && !status.coolingRunning && status.running
    ensures a == HvacAction.Defrosting <==>
              status.on && !status.coolingRunning && !status.running && status.defrost
    ensures a == HvacAction.Idle <==>
              status.on && !status.coolingRunning && !status.running && !status.defrost
  {
    if !status.on then HvacAction.Off
    else if status.coolingRunning then HvacAction.Cooling
    else if status.running then HvacAction.Heating
    else if status.defrost then HvacAction.Defrosting
    else HvacAction.Idle
  }

  /** `supported_features`: temperature control is withdrawn exactly while
      data is present and the regulation mode is MANUAL ("Standard"). */
  function SupportedFeatures(data: Option<Snapshot>): (f: set<ClimateFeature>)
    ensures f == {} <==> data.Some? && data.value.regulationMode == Known(RegulationMode.Manual)
    ensures f != {} ==> f == {TargetTemperature}
  {
    if data.Some? && data.value.regulationMode == Known(RegulationMode.Manual) then {}
    else {TargetTemperature}
  }

  /** `current_temperature` */
  function CurrentTemperatureOf(circuit: Circuit, data: Snapshot): Option<Temperature> {
    match circuit
    case Circuit1 => data.indoor1TempActual
    case Circuit2 => data.indoor2TempActual
  }

  /** `target_temperature` */
  function TargetTemperatureOf(circuit: Circuit, data: Snapshot): Option<Temperature> {
    match circuit
    case Circuit1 => data.indoor1TempSet
    case Circuit2 => data.indoor2TempSet
  }

  /** Each circuit's entity reports its own circuit's readings, unchanged:
      snapshots that agree on a circuit's two fields read the same for it,
      whatever the other circuit holds. */
  lemma CircuitReadsOwnFields(circuit: Circuit, a: Snapshot, b: Snapshot)
    requires circuit == Circuit1 ==> a.indoor1TempActual == b.indoor1TempActual && a.indoor1TempSet == b.indoor1TempSet
    requires circuit == Circuit2 ==> a.indoor2TempActual == b.indoor2TempActual && a.indoor2TempSet == b.indoor2TempSet
    ensures CurrentTemperatureOf(circuit, a) == CurrentTemperatureOf(circuit, b)
    ensures TargetTemperatureOf(circuit, a) == TargetTemperatureOf(circuit, b)
    ensures CurrentTemperatureOf(circuit, a) ==
              if CircuitNumber(circuit) == 1 then a.indoor1TempActual else a.indoor2TempActual
    ensures TargetTemperatureOf(circuit, a) ==
              if CircuitNumber(circuit) == 1 then a.indoor1TempSet else a.indoor2TempSet
  {
  }

  /** `_MODE_TO_HVAC` entry by entry: the read mapping is total, and lossy:
      HEAT_PUMP_ONLY and BIVALENT_ONLY both read as HEAT. */
  lemma ModeToHvacTable()
    ensures Get(ModeToHvac, HeatPumpMode.Automatic) == Some(HvacMode.Auto)
    ensures Get(ModeToHvac, HeatPumpMode.HeatPumpOnly) == Some(HvacMode.Heat)
    ensures Get(ModeToHvac, HeatPumpMode.BivalentOnly) == Some(HvacMode.Heat)
    ensures Get(ModeToHvac, HeatPumpMode.Off) == Some(HvacMode.Off)
    ensures Get(ModeToHvac, HeatPumpMode.Cooling) == Some(HvacMode.Cool)
  {
    assert Distinct(Keys(ModeToHvac));
    GetAt(ModeToHvac, 0);
    GetAt(ModeToHvac, 1);
    GetAt(ModeToHvac, 2);
    GetAt(ModeToHvac, 3);
    GetAt(ModeToHvac, 4);
  }

  /** `_HVAC_TO_MODE` entry by entry. */
  lemma HvacToModeTable()
    ensures Get(HvacToMode, HvacMode.Auto) == Some(HeatPumpMode.Automatic)
    ensures Get(HvacToMode, HvacMode.Heat) == Some(HeatPumpMode.HeatPumpOnly)
    ensures Get(HvacToMode, HvacMode.Cool) == Some(HeatPumpMode.Cooling)
    ensures Get(HvacToMode, HvacMode.Off) == Some(HeatPumpMode.Off)
  {
    assert Distinct(Keys(HvacToMode));
    GetAt(HvacToMode, 0);
    GetAt(HvacToMode, 1);
    GetAt(HvacToMode, 2);
    GetAt(HvacToMode, 3);
  }

  /** The write mapping covers exactly the entity's four HVAC modes, and no
      HVAC mode leads to BIVALENT_ONLY. */
  lemma HvacToModeDomain(h: HvacMode)
    ensures Get(HvacToMode, h).Some? <==> h in HvacModes
    ensures Get(HvacToMode, h) != Some(HeatPumpMode.BivalentOnly)
  {
    HvacToModeTable();
    assert Keys(HvacToMode) == HvacModes;
    match h {
      case Auto =>
      case Heat =>
      case Cool =>
      case Off =>
      case HeatCool => GetSpec(HvacToMode, h);
      case Dry => GetSpec(HvacToMode, h);
      case FanOnly => GetSpec(HvacToMode, h);
    }
  }

  /** Writing an HVAC mode and reading the device mode back gives the same HVAC mode. */
  lemma HvacWriteThenRead(h: HvacMode)
    requires h in HvacModes
    ensures Get(ModeToHvac, Get(HvacToMode, h).value) == Some(h)
  {
    ModeToHvacTable();
    HvacToModeTable();
    match h {
      case Auto =>
      case Heat =>
      case Cool =>
      case Off =>
    }
  }

  /** Writing back the HVAC mode that is read restores every device mode
      except BIVALENT_ONLY, which is read-only here. */
  lemma HvacReadThenWrite(m: HeatPumpMode)
    ensures Get(HvacToMode, Get(ModeToHvac, m).value) == Some(m) <==> m != HeatPumpMode.BivalentOnly
  {
    ModeToHvacTable();
    HvacToModeTable();
  }

  /** The command `async_set_hvac_mode` issues for `h`. */
  function HvacModeCommand(h: HvacMode): Option<Command> {
    match Get(HvacToMode, h)
    case None => None
    case Some(m) => Some(ChangeSetting(m))
  }

  /** The command `async_set_temperature` issues for `kwargs`. */
  function TemperatureCommand(circuit: Circuit, kwargs: Kwargs): Option<Command> {
    match GetArg(kwargs, AttrTemperature)
    case None => None
    case Some(t) => Some(SetIndoorTemperature(t, CircuitNumber(circuit)))
  }

  /** Setting an HVAC mode the table does not map does nothing; a mapped one
      writes its device mode once and then requests one refresh. */
  lemma SetHvacModeCalls(h: HvacMode, answer: Outcome<Fault>)
    ensures WriteSpec(HvacModeCommand(h), answer).calls == [] <==> h !in HvacModes
    ensures h in HvacModes && answer.Pass? ==>
              WriteSpec(HvacModeCommand(h), answer).calls ==
                [Write(ChangeSetting(Get(HvacToMode, h).value)), RefreshRequested]
    ensures Write(ChangeSetting(HeatPumpMode.BivalentOnly)) !in WriteSpec(HvacModeCommand(h), answer).calls
  {
    HvacToModeDomain(h);
    HvacToModeTable();
  }

  /** Setting a temperature without one does nothing; with one, it writes that
      temperature to this entity's circuit once and then requests one refresh. */
  lemma SetTemperatureCalls(circuit: Circuit, kwargs: Kwargs, answer: Outcome<Fault>)
    ensures WriteSpec(TemperatureCommand(circuit, kwargs), answer).calls == [] <==>
              AttrTemperature !in kwargs || kwargs[AttrTemperature].None?
    ensures AttrTemperature in kwargs && kwargs[AttrTemperature].Some? && answer.Pass? ==>
              WriteSpec(TemperatureCommand(circuit, kwargs), answer).calls ==
                [Write(SetIndoorTemperature(kwargs[AttrTemperature].value, if circuit == Circuit1 then 1 else 2)),
                 RefreshRequested]
  {
  }

  /** A climate entity, for circuit I or circuit II. */
  class AcondClimate {
    const coordinator: AcondCoordinator
    const circuit: Circuit
    const uniqueId: string

    constructor (coordinator: AcondCoordinator, entryId: string, circuit: Circuit)
      ensures this.coordinator == coordinator && this.circuit == circuit
      ensures uniqueId == entryId + (if circuit == Circuit1 then "_climate_circuit1" else "_climate_circuit2")
    {
      this.coordinator := coordinator;
      this.circuit := circuit;
      uniqueId := entryId + (if circuit == Circuit1 then "_climate_circuit1" else "_climate_circuit2");
    }

    /** `async_set_temperature` */
    method SetTemperature(kwargs: Kwargs, answer: Outcome<Fault>) returns (r: Outcome<Fault>)
      modifies coordinator`trace
      ensures coordinator.trace == old(coordinator.trace) + WriteSpec(TemperatureCommand(circuit, kwargs), answer).calls
      ensures r == WriteSpec(TemperatureCommand(circuit, kwargs), answer).result
    {
      var temperature := GetArg(kwargs, AttrTemperature);
      if temperature.None? {
        return Pass;
      }
      r := coordinator.ClientWrite(SetIndoorTemperature(temperature.value, CircuitNumber(circuit)), answer);
      if r.Fail? {
        return;
      }
      coordinator.RequestRefresh();
    }

    /** `async_set_hvac_mode` */
    method SetHvacMode(hvacMode: HvacMode, answer: Outcome<Fault>) returns (r: Outcome<Fault>)
      modifies coordinator`trace
      ensures coordinator.trace == old(coordinator.trace) + WriteSpec(HvacModeCommand(hvacMode), answer).calls
      ensures r == WriteSpec(HvacModeCommand(hvacMode), answer).result
    {
      var mode := Get(HvacToMode, hvacMode);
      if mode.None? {
        return Pass;
      }
      r := coordinator.ClientWrite(ChangeSetting(mode.value), answer);
      if r.Fail? {
        return;
      }
      coordinator.RequestRefresh();
    }
  }
}
