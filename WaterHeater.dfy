/** `AcondWaterHeater`: the domestic hot water (DHW) boiler entity. */
module WaterHeater {
  import opened Wrappers
  import opened Device
  import opened HomeAssistant
  import opened Coordinator

  /** `current_temperature` */
  function DhwCurrentTemperature(data: Snapshot): Option<Temperature> {
    data.dhwTempActual
  }

  /** `target_temperature` */
  function DhwTargetTemperature(data: Snapshot): Option<Temperature> {
    data.dhwTempSet
  }

  /** The water heater reports the snapshot's DHW readings unchanged, and
      nothing else in the snapshot affects them. */
  lemma ReadsDhwFieldsOnly(a: Snapshot, b: Snapshot)
    requires a.dhwTempActual == b.dhwTempActual && a.dhwTempSet == b.dhwTempSet
    ensures DhwCurrentTemperature(a) == DhwCurrentTemperature(b) == a.dhwTempActual
    ensures DhwTargetTemperature(a) == DhwTargetTemperature(b) == a.dhwTempSet
  {
  }

  /** `current_operation` */
  function CurrentOperation(data: Snapshot): (operation: string)
    ensures operation in ["Heating", "Idle"]
    ensures operation == "Heating" <==> data.status.heatingDhw
  {
    if data.status.heatingDhw then "Heating" else "Idle"
  }

  /** The command `async_set_temperature` issues for `kwargs`. */
  function DhwTemperatureCommand(kwargs: Kwargs): Option<Command> {
    match GetArg(kwargs, "temperature")
    case None => None
    case Some(t) => Some(SetDhwTemperature(t))
  }

  /** Without a "temperature" argument nothing is written and nothing refreshed;
      with one, that temperature is written once and one refresh requested. */
  lemma SetDhwTemperatureCalls(kwargs: Kwargs, answer: Outcome<Fault>)
    ensures WriteSpec(DhwTemperatureCommand(kwargs), answer).calls == [] <==>
              "temperature" !in kwargs || kwargs["temperature"].None?
    ensures "temperature" in kwargs && kwargs["temperature"].Some? && answer.Pass? ==>
              WriteSpec(DhwTemperatureCommand(kwargs), answer).calls ==
                [Write(SetDhwTemperature(kwargs["temperature"].value)), RefreshRequested]
  {
  }

  class AcondWaterHeater {
    const coordinator: AcondCoordinator
    const uniqueId: string

    constructor (coordinator: AcondCoordinator, entryId: string)
      ensures this.coordinator == coordinator && uniqueId == entryId + "_water_heater_dhw"
    {
      this.coordinator := coordinator;
      uniqueId := entryId + "_water_heater_dhw";
    }

    /** `async_set_temperature` */
    method SetTemperature(kwargs: Kwargs, answer: Outcome<Fault>) returns (r: Outcome<Fault>)
      modifies coordinator`trace
      ensures coordinator.trace == old(coordinator.trace) + WriteSpec(DhwTemperatureCommand(kwargs), answer).calls
      ensures r == WriteSpec(DhwTemperatureCommand(kwargs), answer).result
    {
      var temperature := GetArg(kwargs, "temperature");
      if temperature.None? {
        return Pass;
      }
      r := coordinator.ClientWrite(SetDhwTemperature(temperature.value), answer);
      if r.Fail? {
        return;
      }
      coordinator.RequestRefresh();
    }
  }
}
