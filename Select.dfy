/** The three select entities: the regime (device operating mode), the
    regulation mode, and the Winter/Summer operation mode. */
module Select {
  import opened Wrappers
  import opened Dict
  import opened Device
  import opened Const
  import opened Coordinator
  import Climate

  /** The regime select's `_attr_options`: `list(HEAT_PUMP_MODE_NAMES.values())`. */
  function RegimeOptions(): (options: seq<string>)
    ensures options == ["Automatic", "Heat Pump", "Bivalency Source", "Cooling", "Off"]
  {
    Values(HeatPumpModeNames)
  }

  /** The regulation select's `_attr_options`: `list(REGULATION_MODE_NAMES.values())`. */
  function RegulationOptions(): (options: seq<string>)
    ensures options == ["SmartTherm", "Ekviterm", "Standard"]
  {
    Values(RegulationModeNames)
  }

  /** The regime select's `current_option`: the display name of the device
      mode, or None for a mode the names table does not hold (there is no
      fallback). The name shown selects the mode back. */
  function CurrentRegime(data: Snapshot): (option: Option<string>)
    ensures option.None? <==> data.heatPumpMode.Unknown?
    ensures option.Some? ==> option.value in RegimeOptions()
    ensures option.Some? ==> Get(HeatPumpModeByName, option.value) == Some(data.heatPumpMode.mode)
  {
    match data.heatPumpMode
    case Known(m) =>
      HeatPumpModeNameRoundTrip(m);
      Get(HeatPumpModeNames, m)
    case Unknown(_) => None
  }

  /** The command the regime select's `async_select_option` issues for `option`. */
  function RegimeCommand(option: string): Option<Command> {
    match Get(HeatPumpModeByName, option)
    case None => None
    case Some(m) => Some(ChangeSetting(m))
  }

  /** Selecting a name the reverse table does not hold does nothing; selecting
      one of the five offered names writes its mode once and then requests one
      refresh. */
  lemma SelectRegimeCalls(option: string, answer: Outcome<Fault>)
    ensures WriteSpec(RegimeCommand(option), answer).calls == [] <==> option !in RegimeOptions()
    ensures option in RegimeOptions() && answer.Pass? ==>
              WriteSpec(RegimeCommand(option), answer).calls ==
                [Write(ChangeSetting(Get(HeatPumpModeByName, option).value)), RefreshRequested]
  {
    InvertKeys(HeatPumpModeNames, option);
  }

  /** Unlike the climate entity, the regime select can write BIVALENT_ONLY. */
  lemma BivalentIsSelectable()
    ensures RegimeCommand("Bivalency Source") == Some(ChangeSetting(HeatPumpMode.BivalentOnly))
    ensures forall h :: Climate.HvacModeCommand(h) != Some(ChangeSetting(HeatPumpMode.BivalentOnly))
  {
    forall h ensures Climate.HvacModeCommand(h) != Some(ChangeSetting(HeatPumpMode.BivalentOnly)) {
      Climate.HvacToModeDomain(h);
    }
    HeatPumpModeNamesTable();
    HeatPumpModeNameRoundTrip(HeatPumpMode.BivalentOnly);
  }

  /** Selecting the option the regime select shows writes the mode the device reports. */
  lemma SelectingCurrentRegimeRestoresMode(data: Snapshot)
    requires data.heatPumpMode.Known?
    ensures RegimeCommand(CurrentRegime(data).value) == Some(ChangeSetting(data.heatPumpMode.mode))
  {
  }

  /** The regulation select's `current_option`: `REGULATION_MODE_NAMES.get(mode)`;
      the name shown selects the mode back. */
  function CurrentRegulation(data: Snapshot): (option: Option<string>)
    ensures option.None? <==> data.regulationMode.Unknown?
    ensures option.Some? ==> option.value in RegulationOptions()
    ensures option.Some? ==> Get(RegulationModeByName, option.value) == Some(data.regulationMode.mode)
  {
    match data.regulationMode
    case Known(r) =>
      RegulationModeNameRoundTrip(r);
      Get(RegulationModeNames, r)
    case Unknown(_) => None
  }

  /** The command the regulation select's `async_select_option` issues for `option`. */
  function RegulationCommand(option: string): Option<Command> {
    match Get(RegulationModeByName, option)
    case None => None
    case Some(r) => Some(SetRegulationMode(r))
  }

  /** An unknown regulation name does nothing; a known one writes its mode once
      and then requests one refresh. */
  lemma SelectRegulationCalls(option: string, answer: Outcome<Fault>)
    ensures WriteSpec(RegulationCommand(option), answer).calls == [] <==> option !in RegulationOptions()
    ensures option in RegulationOptions() && answer.Pass? ==>
              WriteSpec(RegulationCommand(option), answer).calls ==
                [Write(SetRegulationMode(Get(RegulationModeByName, option).value)), RefreshRequested]
  {
    RegulationModeByNameRoundTrip(option);
  }

  /** The operation select's `current_option`. */
  function CurrentOperation(data: Snapshot): (option: string)
    ensures option in OperationModeOptions
    ensures option == "Summer" <==> data.status.summerMode
  {
    if data.status.summerMode then "Summer" else "Winter"
  }

  /** The command the operation select's `async_select_option` issues: there
      is no guard, and only the exact string "Summer" asks for summer mode. */
  function OperationCommand(option: string): Command {
    SetSummerMode(option == "Summer")
  }

  /** Every operation selection writes once; selecting what is shown writes the
      current summer flag back; anything but "Summer" writes false. */
  lemma SelectOperationCalls(option: string, answer: Outcome<Fault>, data: Snapshot)
    ensures WriteSpec(Some(OperationCommand(option)), answer).calls != []
    ensures answer.Pass? ==>
              WriteSpec(Some(OperationCommand(option)), answer).calls == [Write(OperationCommand(option)), RefreshRequested]
    ensures OperationCommand(CurrentOperation(data)) == SetSummerMode(data.status.summerMode)
    ensures option != OperationModeOptions[1] ==> OperationCommand(option) == SetSummerMode(false)
  {
  }

  /** `AcondRegimeSelect` */
  class AcondRegimeSelect {
    const coordinator: AcondCoordinator
    const uniqueId: string

    constructor (coordinator: AcondCoordinator, entryId: string)
      ensures this.coordinator == coordinator && uniqueId == entryId + "_select_regime"
    {
      this.coordinator := coordinator;
      uniqueId := entryId + "_select_regime";
    }

    /** `async_select_option` */
    method SelectOption(option: string, answer: Outcome<Fault>) returns (r: Outcome<Fault>)
      modifies coordinator`trace
      ensures coordinator.trace == old(coordinator.trace) + WriteSpec(RegimeCommand(option), answer).calls
      ensures r == WriteSpec(RegimeCommand(option), answer).result
    {
      var mode := Get(HeatPumpModeByName, option);
      if mode.None? {
        return Pass;
      }
      r := coordinator.ClientWrite(ChangeSetting(mode.value), answer);
      if r.Fail? {
        return;
      }
      coordinator.RequestRefresh();
    }
  }

  /** `AcondRegulationSelect` */
  class AcondRegulationSelect {
    const coordinator: AcondCoordinator
    const uniqueId: string

    constructor (coordinator: AcondCoordinator, entryId: string)
      ensures this.coordinator == coordinator && uniqueId == entryId + "_select_regulation"
    {
      this.coordinator := coordinator;
      uniqueId := entryId + "_select_regulation";
    }

    /** `async_select_option` */
    method SelectOption(option: string, answer: Outcome<Fault>) returns (r: Outcome<Fault>)
      modifies coordinator`trace
      ensures coordinator.trace == old(coordinator.trace) + WriteSpec(RegulationCommand(option), answer).calls
      ensures r == WriteSpec(RegulationCommand(option), answer).result
    {
      var mode := Get(RegulationModeByName, option);
      if mode.None? {
        return Pass;
      }
      r := coordinator.ClientWrite(SetRegulationMode(mode.value), answer);
      if r.Fail? {
        return;
      }
      coordinator.RequestRefresh();
    }
  }

  /** `AcondOperationSelect` */
  class AcondOperationSelect {
    const coordinator: AcondCoordinator
    const uniqueId: string

    constructor (coordinator: AcondCoordinator, entryId: string)
      ensures this.coordinator == coordinator && uniqueId == entryId + "_select_operation"
    {
      this.coordinator := coordinator;
      uniqueId := entryId + "_select_operation";
    }

    /** `async_select_option` */
    method SelectOption(option: string, answer: Outcome<Fault>) returns (r: Outcome<Fault>)
      modifies coordinator`trace
      ensures coordinator.trace == old(coordinator.trace) + WriteSpec(Some(OperationCommand(option)), answer).calls
      ensures r == answer
    {
      var summer := option == "Summer";
      r := coordinator.ClientWrite(SetSummerMode(summer), answer);
      if r.Fail? {
        return;
      }
      coordinator.RequestRefresh();
    }
  }
}
