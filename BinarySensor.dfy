/** The binary sensors: a registry of descriptions, each a key and the status
    flag it shows. */
module BinarySensor {
  import opened Device
  import Climate
  import Select
  import WaterHeater
  import HomeAssistant

  /** The attributes of `HeatPumpStatus`, one per flag. */
  datatype StatusFlag =
    | On | Running | Fault | Defrost | HeatingDhw | PumpCircuit1 | PumpCircuit2
    | SummerMode | SolarPump | PoolPump | BivalenceRunning | BrinePump | CoolingRunning

  /** `getattr(status, flag)` */
  function Flag(flag: StatusFlag, s: Status): bool {
    match flag
    case On => s.on
    case Running => s.running
    case Fault => s.fault
    case Defrost => s.defrost
    case HeatingDhw => s.heatingDhw
    case PumpCircuit1 => s.pumpCircuit1
    case PumpCircuit2 => s.pumpCircuit2
    case SummerMode => s.summerMode
    case SolarPump => s.solarPump
    case PoolPump => s.poolPump
    case BivalenceRunning => s.bivalenceRunning
    case BrinePump => s.brinePump
    case CoolingRunning => s.coolingRunning
  }

  /** The attribute's name in `HeatPumpStatus`. */
  function AttributeName(flag: StatusFlag): string {
    match flag
    case On => "on"
    case Running => "running"
    case Fault => "fault"
    case Defrost => "defrost"
    case HeatingDhw => "heating_dhw"
    case PumpCircuit1 => "pump_circuit1"
    case PumpCircuit2 => "pump_circuit2"
    case SummerMode => "summer_mode"
    case SolarPump => "solar_pump"
    case PoolPump => "pool_pump"
    case BivalenceRunning => "bivalence_running"
    case BrinePump => "brine_pump"
    case CoolingRunning => "cooling_running"
  }

  /** `AcondBinarySensorEntityDescription`, reduced to its key and to the
      status attribute its `value_fn` returns. */
  datatype Description = Description(key: string, flag: StatusFlag) {
    /** `value_fn` */
    function ValueFn(s: Status): bool {
      Flag(flag, s)
    }
  }

  /** `BINARY_SENSOR_DESCRIPTIONS`, in registration order. */
  const Descriptions: seq<Description> := [
    Description("running", Running),
    Description("fault", Fault),
    Description("defrost", Defrost),
    Description("dhw_heating", HeatingDhw),
    Description("pump_circuit1", PumpCircuit1),
    Description("summer_mode", SummerMode),
    Description("power", On),
    Description("pump_circuit2", PumpCircuit2),
    Description("solar_pump", SolarPump),
    Description("pool_pump", PoolPump),
    Description("bivalence_running", BivalenceRunning),
    Description("brine_pump", BrinePump),
    Description("cooling_running", CoolingRunning)
  ]

  /** The status attribute a sensor key is expected to show: the attribute of
      the same name, except for "power" and "dhw_heating". */
  function AttributeFor(key: string): string {
    if key == "power" then "on"
    else if key == "dhw_heating" then "heating_dhw"
    else key
  }

  /** `is_on` */
  function IsOn(description: Description, data: Snapshot): bool {
    description.ValueFn(data.status)
  }

  /** The entity's `unique_id`. */
  function UniqueId(entryId: string, description: Description): string {
    entryId + "_binary_sensor_" + description.key
  }

  /** The registry holds thirteen sensors with pairwise distinct keys. */
  lemma RegistryKeysDistinct()
    ensures |Descriptions| == 13
    ensures forall i, j :: 0 <= i < j < |Descriptions| ==> Descriptions[i].key != Descriptions[j].key
  {
  }

  /** No two sensors show the same status attribute. */
  lemma RegistryFlagsDistinct()
    ensures forall i, j :: 0 <= i < j < |Descriptions| ==> Descriptions[i].flag != Descriptions[j].flag
  {
  }

  /** Every sensor shows the status attribute its key names, and is on exactly
      when that attribute is set. */
  lemma IsOnProjectsStatus(i: nat, data: Snapshot)
    requires i < |Descriptions|
    ensures AttributeName(Descriptions[i].flag) == AttributeFor(Descriptions[i].key)
    ensures IsOn(Descriptions[i], data) == Flag(Descriptions[i].flag, data.status)
    ensures Descriptions[i].key == "power" ==> IsOn(Descriptions[i], data) == data.status.on
    ensures Descriptions[i].key == "dhw_heating" ==> IsOn(Descriptions[i], data) == data.status.heatingDhw
  {
  }

  lemma {:induction false} PrefixCancels(p: string, a: string, b: string)
    requires p + a == p + b
    ensures a == b
  {
    assert a == (p + a)[|p|..];
    assert b == (p + b)[|p|..];
  }

  /** Within one config entry, distinct sensors get distinct unique ids. */
  lemma UniqueIdsDistinct(entryId: string, i: nat, j: nat)
    requires i < j < |Descriptions|
    ensures UniqueId(entryId, Descriptions[i]) != UniqueId(entryId, Descriptions[j])
  {
    RegistryKeysDistinct();
    if UniqueId(entryId, Descriptions[i]) == UniqueId(entryId, Descriptions[j]) {
      PrefixCancels(entryId + "_binary_sensor_", Descriptions[i].key, Descriptions[j].key);
    }
  }

  /** The binary sensors agree with the entities that show the same flags:
      power with the climate action, DHW heating with the water heater, and
      summer mode with the operation select. */
  lemma AgreesWithOtherEntities(data: Snapshot)
    ensures Descriptions[6].key == "power" && Descriptions[3].key == "dhw_heating"
    ensures Descriptions[5].key == "summer_mode"
    ensures !IsOn(Descriptions[6], data) <==> Climate.CurrentHvacAction(data.status) == HomeAssistant.HvacAction.Off
    ensures IsOn(Descriptions[3], data) <==> WaterHeater.CurrentOperation(data) == "Heating"
    ensures IsOn(Descriptions[5], data) <==> Select.CurrentOperation(data) == "Summer"
  {
  }
}
