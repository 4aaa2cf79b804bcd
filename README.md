# Acond heat pump integration for Home Assistant: a Dafny model

This project models the core of the Home Assistant integration for Acond heat
pumps. It covers three parts and proves properties about each:

- **Translation tables.** Display names for the device operating mode
  (`HeatPumpMode`) and the regulation mode (`RegulationMode`), and their
  reverse lookups (`const.py`). The lossy read mapping from the five device
  modes to Home Assistant's `HVACMode`, and its partial inverse used for writes
  (`climate.py`).
- **Entity reads and writes.** Every entity read is a pure function of one
  device snapshot: the climate action and mode, the supported features, the
  select options, the water-heater operation and the binary sensors. Every
  entity write has the same shape. The climate, regime, regulation and water
  heater writes look their input up, and an unmapped or missing input does
  nothing. The operation select does no lookup and writes for every option.
  When a write is made, it is exactly one client write, and once it has
  returned, one refresh is requested.
- **Reconnect-on-failure fetch.** This is the coordinator's `_reconnect`,
  `_sync_read` and `_async_update_data`. One read is tried. If it raises, the
  old client is closed (an exception from `close()` is ignored), a new client
  is built for the configured host and port, and it is connected. If that
  works, exactly one more read is tried. Every exception that escapes becomes
  `UpdateFailed`.

Layout, one module per file:

- `Wrappers`: `Option`, `Outcome` and `Result`.
- `Dict`: Python's insertion-ordered `dict`, kept as a list of entries. It
  provides `.get`, `.keys()`, `.values()` and the reversing comprehension
  `{v: k for k, v in d.items()}`, with the lemmas that make a reversed table
  undo the original.
- `Device`: the client library's types. Temperatures are an opaque type.
- `HomeAssistant`: the Home Assistant enumerations the entities use.
- `Const`, `Coordinator`, `Climate`, `Select`, `WaterHeater` and
  `BinarySensor`: one module per source file.

The client library is an oracle. The outcome of each call made on a client is
a parameter. For a fetch, a `Link` record holds the answer of each of the four
client calls the fetch may make: the first read, `close()`, `connect()` and the
retry read. Building a new client is recorded but always succeeds (see
"Left out"). For a write, an `Outcome` says whether the setter returned or
raised.

The coordinator is a class. Its `client` field is replaced on reconnect by a
`fresh` object. Its `trace` field records every call made to a client and every
refresh request, in order. Each method's postcondition sets the new trace equal
to the old trace plus the calls of a specification function (`SyncReadSpec`,
`UpdateSpec`, `WriteSpec`). Lemmas about those functions state the bounds:
at most two reads per fetch, at most one reconnect, and at most one write and
one refresh per entity write.

A write that raises is not followed by a refresh. Each entity awaits the
client write before it calls `async_request_refresh()` (for example
`climate.py:122-129`), so the exception propagates first. `WriteSpec` models
this.

## Model

| member | source | states |
|---|---|---|
| `Dict.InvertUndoesGet` | custom_components/acond_heat_pump/const.py:29-31 | when keys and values are both distinct, the reversed dict maps each value back to its key |
| `Dict.GetUndoesInvert` | custom_components/acond_heat_pump/const.py:41-43 | every entry of a reversed dict (with distinct keys) leads back to the value it came from |
| `Const.NameTablesDistinct` | custom_components/acond_heat_pump/const.py:20-38 | in both name tables the modes are pairwise distinct and the display names are pairwise distinct |
| `Const.NameTablesComplete` | custom_components/acond_heat_pump/const.py:20-38 | the tables have five and three entries, and every device mode and every regulation mode has an entry |
| `Const.HeatPumpModeNamesTable` | custom_components/acond_heat_pump/const.py:20-26 | the five modes are named "Automatic", "Heat Pump", "Bivalency Source", "Cooling" and "Off" |
| `Const.HeatPumpModeNameRoundTrip` | custom_components/acond_heat_pump/const.py:20-31 | every mode has a name, and looking that name up in `HEAT_PUMP_MODE_BY_NAME` gives the mode back |
| `Const.HeatPumpModeByNameRoundTrip` | custom_components/acond_heat_pump/const.py:29-31 | every name in the reverse table maps to a mode whose display name is that name |
| `Const.HeatPumpModeTablesSized` | custom_components/acond_heat_pump/const.py:20-31 | both tables have five entries; the reverse table's keys are the five distinct names, in table order |
| `Const.RegulationModeNameRoundTrip` | custom_components/acond_heat_pump/const.py:34-43 | ACOND_THERM, EQUITHERMAL and MANUAL each have a name that leads back to them |
| `Const.RegulationModeByNameRoundTrip` | custom_components/acond_heat_pump/const.py:34-43 | the reverse table knows exactly "SmartTherm", "Ekviterm" and "Standard", and each leads back to its own name |
| `Coordinator.Port` | custom_components/acond_heat_pump/coordinator.py:49 | the configured port when one is given, otherwise the default 502 |
| `Coordinator.FetchIsBounded` | custom_components/acond_heat_pump/coordinator.py:57-63 | a fetch reads at most twice, closes and connects at most once, and builds clients only for the configured host and port |
| `Coordinator.FirstReadSucceeds` | custom_components/acond_heat_pump/coordinator.py:57-60 | a successful first read is delivered unchanged, with no other call made and no reconnect |
| `Coordinator.CloseFailureIsSwallowed` | custom_components/acond_heat_pump/coordinator.py:43-46 | an exception from `close()` changes neither the calls made nor the result |
| `Coordinator.FailedReadReconnectsOnce` | custom_components/acond_heat_pump/coordinator.py:61-63 | after a failed first read come exactly close, new client for the configured address, connect, and no second close |
| `Coordinator.RefusedConnectionStopsFetch` | custom_components/acond_heat_pump/coordinator.py:52-55 | when `connect()` returns false the update fails with `HeatPumpConnectionError` and no second read is made |
| `Coordinator.UpdateOutcome` | custom_components/acond_heat_pump/coordinator.py:65-72 | an update succeeds exactly when the first read succeeds, or the reconnect succeeds and the retry read succeeds; it then delivers that read's snapshot unchanged; otherwise it fails with the cause of the last call that raised |
| `Coordinator.WriteIsBounded` | custom_components/acond_heat_pump/climate.py:122-129 | an entity write makes no call and returns normally when its input is unmapped; otherwise its first call is the write of that command; a write that raises is the only call and its exception is the result; a write that returns is followed by exactly one refresh |
| `Coordinator.AcondCoordinator.constructor` | custom_components/acond_heat_pump/coordinator.py:25-39 | the coordinator keeps the client it is given and the configuration entry's data, and has made no call yet |
| `Coordinator.AcondCoordinator.Reconnect` | custom_components/acond_heat_pump/coordinator.py:41-55 | the client field is always replaced by a fresh client for the configured host and port, even when connecting fails; the calls are close, construct, connect; false or an exception from `connect()` becomes the result |
| `Coordinator.AcondCoordinator.SyncRead` | custom_components/acond_heat_pump/coordinator.py:57-63 | result and calls are those of `SyncReadSpec`; the client is unchanged after a successful first read and fresh otherwise |
| `Coordinator.AcondCoordinator.AsyncUpdateData` | custom_components/acond_heat_pump/coordinator.py:65-72 | result and calls are those of `UpdateSpec`: every escaping exception becomes one `UpdateFailed` carrying it |
| `Climate.CurrentHvacMode` | custom_components/acond_heat_pump/climate.py:93-97 | the HVAC mode is always one of the entity's four; a mode the table does not hold reads AUTO; AUTOMATIC reads AUTO, COOLING reads COOL, OFF reads OFF, and HEAT is shown exactly for HEAT_PUMP_ONLY and BIVALENT_ONLY |
| `Climate.CurrentHvacAction` | custom_components/acond_heat_pump/climate.py:99-111 | OFF iff not on; COOLING iff on and cooling runs (even if `running`); HEATING iff on, not cooling, running; DEFROSTING and IDLE for the remaining cases |
| `Climate.SupportedFeatures` | custom_components/acond_heat_pump/climate.py:73-81 | no features exactly when data is present and the regulation mode is MANUAL; otherwise exactly TARGET_TEMPERATURE |
| `Climate.CircuitReadsOwnFields` | custom_components/acond_heat_pump/climate.py:159-167 | each circuit's current and target temperatures are its own snapshot fields (`indoor1_*` or `indoor2_*`), unchanged and independent of the other circuit |
| `Climate.ModeToHvacTable` | custom_components/acond_heat_pump/climate.py:25-31 | the read mapping is total over the five modes, and both HEAT_PUMP_ONLY and BIVALENT_ONLY map to HEAT |
| `Climate.HvacToModeTable` | custom_components/acond_heat_pump/climate.py:34-39 | the write mapping is AUTO to AUTOMATIC, HEAT to HEAT_PUMP_ONLY, COOL to COOLING and OFF to OFF |
| `Climate.HvacToModeDomain` | custom_components/acond_heat_pump/climate.py:34-39 | exactly the entity's four HVAC modes are mapped, and none maps to BIVALENT_ONLY |
| `Climate.HvacWriteThenRead` | custom_components/acond_heat_pump/climate.py:25-39 | for each of the four HVAC modes, writing it and reading the device mode back gives the same HVAC mode |
| `Climate.HvacReadThenWrite` | custom_components/acond_heat_pump/climate.py:25-39 | writing back the HVAC mode that is read restores the device mode exactly when it is not BIVALENT_ONLY |
| `Climate.SetHvacModeCalls` | custom_components/acond_heat_pump/climate.py:122-129 | an unmapped HVAC mode issues no write and no refresh; a mapped one writes `change_setting` of its device mode, then one refresh; BIVALENT_ONLY is never written |
| `Climate.SetTemperatureCalls` | custom_components/acond_heat_pump/climate.py:113-120 | without a temperature nothing happens; with one, `set_indoor_temperature(t, 1)` (circuit II: 2) is written once, then one refresh |
| `Climate.AcondClimate.constructor` | custom_components/acond_heat_pump/climate.py:68-71 | unique id is the entry id followed by `_climate_circuit1` or `_climate_circuit2` |
| `Climate.AcondClimate.SetTemperature` | custom_components/acond_heat_pump/climate.py:189-196 | appends exactly the calls of the write shape for the circuit's temperature command |
| `Climate.AcondClimate.SetHvacMode` | custom_components/acond_heat_pump/climate.py:198-205 | appends exactly the calls of the write shape for the translated mode |
| `Select.RegimeOptions` | custom_components/acond_heat_pump/select.py:43 | the regime options are the five display names in table order |
| `Select.RegulationOptions` | custom_components/acond_heat_pump/select.py:71 | the regulation options are "SmartTherm", "Ekviterm", "Standard" |
| `Select.CurrentRegime` | custom_components/acond_heat_pump/select.py:50-54 | None exactly for a mode the table does not hold (no AUTO fallback); otherwise an offered option that selects the reported mode back |
| `Select.SelectRegimeCalls` | custom_components/acond_heat_pump/select.py:56-63 | an unknown name does nothing; a known one writes `change_setting` of its mode once, then one refresh |
| `Select.BivalentIsSelectable` | custom_components/acond_heat_pump/select.py:56-63 | "Bivalency Source" writes BIVALENT_ONLY, and no HVAC mode given to the climate entity writes it |
| `Select.SelectingCurrentRegimeRestoresMode` | custom_components/acond_heat_pump/select.py:50-63 | selecting the option shown writes the mode the device reports |
| `Select.CurrentRegulation` | custom_components/acond_heat_pump/select.py:78-82 | None exactly for an unknown regulation mode; otherwise an offered option that selects the mode back |
| `Select.SelectRegulationCalls` | custom_components/acond_heat_pump/select.py:84-91 | an unknown option does nothing; a known one writes `set_regulation_mode` once, then one refresh |
| `Select.CurrentOperation` | custom_components/acond_heat_pump/select.py:106-111 | one of `OPERATION_MODE_OPTIONS` (["Winter", "Summer"]); "Summer" iff the summer-mode flag is set |
| `Select.SelectOperationCalls` | custom_components/acond_heat_pump/select.py:113-119 | every option is written, unknown ones as `set_summer_mode(False)`; selecting the shown option writes the current flag back |
| `Select.AcondRegimeSelect.constructor` | custom_components/acond_heat_pump/select.py:45-48 | unique id is the entry id followed by `_select_regime` |
| `Select.AcondRegimeSelect.SelectOption` | custom_components/acond_heat_pump/select.py:56-63 | appends exactly the calls of the write shape for the looked-up mode |
| `Select.AcondRegulationSelect.constructor` | custom_components/acond_heat_pump/select.py:73-76 | unique id is the entry id followed by `_select_regulation` |
| `Select.AcondRegulationSelect.SelectOption` | custom_components/acond_heat_pump/select.py:84-91 | appends exactly the calls of the write shape for the looked-up regulation mode |
| `Select.AcondOperationSelect.constructor` | custom_components/acond_heat_pump/select.py:101-104 | unique id is the entry id followed by `_select_operation` |
| `Select.AcondOperationSelect.SelectOption` | custom_components/acond_heat_pump/select.py:113-119 | always writes `set_summer_mode(option == "Summer")`; the refresh follows when the write returned |
| `WaterHeater.ReadsDhwFieldsOnly` | custom_components/acond_heat_pump/water_heater.py:45-53 | current and target temperatures are the snapshot's DHW fields, unchanged, and depend on nothing else |
| `WaterHeater.CurrentOperation` | custom_components/acond_heat_pump/water_heater.py:55-60 | "Heating" iff the DHW-heating flag is set, otherwise "Idle" |
| `WaterHeater.SetDhwTemperatureCalls` | custom_components/acond_heat_pump/water_heater.py:62-69 | without a "temperature" argument nothing happens; with one, `set_dhw_temperature(t)` once, then one refresh |
| `WaterHeater.AcondWaterHeater.constructor` | custom_components/acond_heat_pump/water_heater.py:40-43 | unique id is the entry id followed by `_water_heater_dhw` |
| `WaterHeater.AcondWaterHeater.SetTemperature` | custom_components/acond_heat_pump/water_heater.py:62-69 | appends exactly the calls of the write shape for the DHW temperature command |
| `BinarySensor.RegistryKeysDistinct` | custom_components/acond_heat_pump/binary_sensor.py:31-116 | thirteen descriptions with pairwise distinct keys |
| `BinarySensor.RegistryFlagsDistinct` | custom_components/acond_heat_pump/binary_sensor.py:31-116 | no two sensors project the same status attribute |
| `BinarySensor.IsOnProjectsStatus` | custom_components/acond_heat_pump/binary_sensor.py:148-151 | `is_on` is the description's status attribute; "power" shows `on`, "dhw_heating" shows `heating_dhw`, every other key the attribute of its own name |
| `BinarySensor.UniqueIdsDistinct` | custom_components/acond_heat_pump/binary_sensor.py:146 | within one entry, distinct sensors have distinct unique ids |
| `BinarySensor.AgreesWithOtherEntities` | custom_components/acond_heat_pump/binary_sensor.py:36-114 | the sensors keyed "power", "dhw_heating" and "summer_mode" agree with the climate action, the water-heater operation and the operation select |

## Left out

- Building `AcondHeatPump(host, port)` (coordinator.py:50) is assumed not to
  raise. If it did, `self.client` would not be replaced and the update would
  fail with that exception. `Coordinator.AcondCoordinator.Reconnect`,
  `SyncRead` and `AsyncUpdateData` promise a fresh client after a failed first
  read only under this assumption.
- Home Assistant's `DataUpdateCoordinator` is not modelled. This covers the
  30-second schedule, the serialising of fetches, the debouncing inside
  `async_request_refresh()`, and keeping the last good data after
  `UpdateFailed`. That code lives in Home Assistant, not in this repository.
  A refresh request is recorded as one `RefreshRequested` event.
- Concurrency is not modelled. The `await` and executor hand-offs are not
  represented, and each call is one sequential step.
- The `acond_heat_pump` client library is not modelled: Modbus framing,
  decoding, and the behaviour of `connect`, `read_data`, `close` and the
  setters. The outcome of each call is a parameter.
- Only exceptions derived from `Exception` are modelled. A `BaseException`
  that is not an `Exception` passes through every `except Exception` in the
  source. The model has no such case.
- `__init__.py` and `config_flow.py` are not part of this model. They cover the
  initial connection that raises `ConfigEntryNotReady`, unloading, and the
  configuration form.
- `entity.py` (device-registry metadata), `sensor.py` and `number.py` are not
  part of this model. The last two pass floating-point readings and setpoints
  through.
- UI metadata is not modelled: icons, translation keys, units, minimum and
  maximum temperatures, and steps.
- Temperatures are opaque. The integration does no arithmetic on them.
- A snapshot holds only the fields the modelled entities read.
- The snapshot is assumed present. The read properties other than
  `supported_features` dereference `coordinator.data` directly, so in the
  source they would raise while no data is present. The model states them as
  functions of a present snapshot.
- `Climate.AcondClimate` models both `AcondClimate` and
  `AcondClimateCircuit2` as one class with a circuit parameter. The two source
  classes differ only in the circuit number, the fields they read and the
  unique-id suffix.
- The model does not cover keyword arguments of other types. Keyword arguments
  are modelled as a map from argument name to an optional temperature.
- A dict lookup returns the first entry with the key. Python returns the last
  value given for a repeated key. The two agree here because every table is
  proved to have distinct keys, and every reversed table distinct values.
- A device mode that is not a member of the enumeration is modelled as
  `Unknown(raw)`. The library's actual representation of such a value is not
  known to this model.
- `BinarySensor.IsOnProjectsStatus`: each `value_fn` lambda is represented by
  the status attribute it returns, not by an arbitrary function.
