/** The constant tables of `const.py`: display names for the device modes,
    their reverse lookups, the operation options and the default port. */
module Const {
  import opened Wrappers
  import opened Dict
  import opened Device

  /** The Modbus TCP port used when the configuration gives none. */
  const DefaultPort: int := 502

  /** `HEAT_PUMP_MODE_NAMES`: device mode to display name. */
  const HeatPumpModeNames: Dict<HeatPumpMode, string> := [
    (Automatic, "Automatic"),
    (HeatPumpOnly, "Heat Pump"),
    (BivalentOnly, "Bivalency Source"),
    (Cooling, "Cooling"),
    (Off, "Off")
  ]

  /** `HEAT_PUMP_MODE_BY_NAME`: the reverse lookup, built from the names table. */
  const HeatPumpModeByName: Dict<string, HeatPumpMode> := Invert(HeatPumpModeNames)

  /** `REGULATION_MODE_NAMES`: regulation mode to display name. */
  const RegulationModeNames: Dict<RegulationMode, string> := [
    (AcondTherm, "SmartTherm"),
    (Equithermal, "Ekviterm"),
    (Manual, "Standard")
  ]

  /** `REGULATION_MODE_BY_NAME`: the reverse lookup, built from the names table. */
  const RegulationModeByName: Dict<string, RegulationMode> := Invert(RegulationModeNames)

  /** `OPERATION_MODE_OPTIONS` */
  const OperationModeOptions: seq<string> := ["Winter", "Summer"]

  /** No mode appears twice in either mode-name table, and no display name is
      used twice. */
  lemma NameTablesDistinct()
    ensures Distinct(Keys(HeatPumpModeNames)) && Distinct(Values(HeatPumpModeNames))
    ensures Distinct(Keys(RegulationModeNames)) && Distinct(Values(RegulationModeNames))
  {
  }

  /** Both mode-name tables hold one entry per enumeration value. */
  lemma NameTablesComplete()
    ensures |HeatPumpModeNames| == 5 && |RegulationModeNames| == 3
    ensures forall m: HeatPumpMode :: m in Keys(HeatPumpModeNames)
    ensures forall r: RegulationMode :: r in Keys(RegulationModeNames)
  {
    var modes := Keys(HeatPumpModeNames);
    assert modes == [Automatic, HeatPumpOnly, BivalentOnly, Cooling, Off];
    forall m: HeatPumpMode ensures m in modes {
      match m
      case Automatic => assert modes[0] == m;
      case HeatPumpOnly => assert modes[1] == m;
      case BivalentOnly => assert modes[2] == m;
      case Cooling => assert modes[3] == m;
      case Off => assert modes[4] == m;
    }
    var regulations := Keys(RegulationModeNames);
    assert regulations == [AcondTherm, Equithermal, Manual];
    forall r: RegulationMode ensures r in regulations {
      match r
      case AcondTherm => assert regulations[0] == r;
      case Equithermal => assert regulations[1] == r;
      case Manual => assert regulations[2] == r;
    }
  }

  /** `HEAT_PUMP_MODE_NAMES` entry by entry. */
  lemma HeatPumpModeNamesTable()
    ensures Get(HeatPumpModeNames, Automatic) == Some("Automatic")
    ensures Get(HeatPumpModeNames, HeatPumpOnly) == Some("Heat Pump")
    ensures Get(HeatPumpModeNames, BivalentOnly) == Some("Bivalency Source")
    ensures Get(HeatPumpModeNames, Cooling) == Some("Cooling")
    ensures Get(HeatPumpModeNames, Off) == Some("Off")
  {
    NameTablesDistinct();
    GetAt(HeatPumpModeNames, 0);
    GetAt(HeatPumpModeNames, 1);
    GetAt(HeatPumpModeNames, 2);
    GetAt(HeatPumpModeNames, 3);
    GetAt(HeatPumpModeNames, 4);
  }

  /** Every device mode has a display name, and looking that name up gives the
      mode back. */
  lemma HeatPumpModeNameRoundTrip(m: HeatPumpMode)
    ensures Get(HeatPumpModeNames, m).Some?
    ensures Get(HeatPumpModeByName, Get(HeatPumpModeNames, m).value) == Some(m)
  {
    NameTablesDistinct();
    InvertUndoesGet(HeatPumpModeNames, m);
  }

  /** Every name the reverse table knows maps to a mode whose display name is that name. */
  lemma HeatPumpModeByNameRoundTrip(s: string)
    requires Get(HeatPumpModeByName, s).Some?
    ensures Get(HeatPumpModeNames, Get(HeatPumpModeByName, s).value) == Some(s)
  {
    NameTablesDistinct();
    GetUndoesInvert(HeatPumpModeNames, s);
  }

  /** The two heat-pump tables have the same five keys on each side: the five
      modes and the five names. */
  lemma HeatPumpModeTablesSized()
    ensures |HeatPumpModeNames| == |HeatPumpModeByName| == 5
    ensures Distinct(Keys(HeatPumpModeByName))
    ensures Keys(HeatPumpModeByName) == Values(HeatPumpModeNames)
    ensures Keys(HeatPumpModeByName) == ["Automatic", "Heat Pump", "Bivalency Source", "Cooling", "Off"]
  {
    NameTablesDistinct();
  }

  /** Every regulation mode has a name, and that name leads back to it. */
  lemma RegulationModeNameRoundTrip(r: RegulationMode)
    ensures Get(RegulationModeNames, r).Some?
    ensures Get(RegulationModeByName, Get(RegulationModeNames, r).value) == Some(r)
  {
    NameTablesDistinct();
    InvertUndoesGet(RegulationModeNames, r);
  }

  /** "SmartTherm", "Ekviterm" and "Standard" are exactly the names the reverse
      table knows, and each leads back to itself. */
  lemma RegulationModeByNameRoundTrip(s: string)
    ensures Get(RegulationModeByName, s).Some? <==> s in ["SmartTherm", "Ekviterm", "Standard"]
    ensures Get(RegulationModeByName, s).Some? ==>
              Get(RegulationModeNames, Get(RegulationModeByName, s).value) == Some(s)
  {
    NameTablesDistinct();
    InvertKeys(RegulationModeNames, s);
    assert Values(RegulationModeNames) == ["SmartTherm", "Ekviterm", "Standard"];
    if Get(RegulationModeByName, s).Some? {
      GetUndoesInvert(RegulationModeNames, s);
    }
  }
}
