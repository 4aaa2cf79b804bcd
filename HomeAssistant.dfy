/** The Home Assistant enumerations the entities translate to. */
module HomeAssistant {
  import opened Wrappers
  import opened Device

  /** `HVACMode`: every value Home Assistant defines. */
  datatype HvacMode = Off | Heat | Cool | HeatCool | Auto | Dry | FanOnly

  /** `HVACAction`: every value Home Assistant defines. */
  datatype HvacAction = Off | Preheating | Heating | Cooling | Drying | Fan | Idle | Defrosting

  /** `ClimateEntityFeature` flags; a feature value is the set of flags raised. */
  datatype ClimateFeature =
    | TargetTemperature | TargetTemperatureRange | TargetHumidity | FanMode
    | PresetMode | SwingMode | TurnOff | TurnOn

  /** `ATTR_TEMPERATURE`, the keyword argument carrying a new setpoint. */
  const AttrTemperature: string := "temperature"

  /** The keyword arguments of a setpoint call (`**kwargs`), as far as the
      entities read them: argument name to a temperature or `None`. */
  type Kwargs = map<string, Option<Temperature>>

  /** `kwargs.get(name)`: a missing argument and an explicit `None` read alike. */
  function GetArg(kwargs: Kwargs, name: string): (r: Option<Temperature>)
    ensures r.Some? <==> name in kwargs && kwargs[name].Some?
  {
    if name in kwargs then kwargs[name] else None
  }
}
