/**
  The telemetry frame layout of a solar inverter: the kinds of quantity a
  frame carries, the descriptor of one measurement, the per-kind
  constructors that fix how a raw value is scaled and labelled, the fixed
  positions of the frame header, serial number and timestamp, and the
  ordered registry of the twenty measurements a frame holds.
 */
module Fields {
  import opened Sequences

  /** The closed set of physical quantity kinds. */
  datatype FieldType =
    | Charge
    | Current
    | Energy
    | Frequency
    | Power
    | StateOfCharge
    | Temperature
    | Voltage

  /** The scale factor, bias and display unit a descriptor attaches to the
      raw values of one kind. These are stored, not applied, here; the
      presumed conversion is `raw * scale + bias`. */
  datatype Conversion = Conversion(scale: real, bias: real, unit: string)

  /** The conversion rule of each quantity kind, as a reference table
      independent of the constructors below. Only temperatures carry a
      bias. */
  function ConversionOf(t: FieldType): Conversion
  {
    match t
    case Charge => Conversion(1.0, 0.0, "Ah")
    case Current => Conversion(0.01, 0.0, "A")
    case Energy => Conversion(0.1, 0.0, "kWh")
    case Frequency => Conversion(0.01, 0.0, "Hz")
    case Power => Conversion(1.0, 0.0, "W")
    case StateOfCharge => Conversion(1.0, 0.0, "%")
    case Temperature => Conversion(0.1, -100.0, "°C")
    case Voltage => Conversion(0.1, 0.0, "V")
  }

  /** One measurement of a frame: where its raw value starts, how it is
      grouped and named, its unique identifier and its conversion. */
  datatype Field = Field(
    fieldType: FieldType,
    offset: nat,
    group: string,
    name: string,
    id: string,
    scale: real,
    bias: real,
    unit: string)
  {
    /** The conversion this descriptor carries. */
    function Rule(): Conversion
    {
      Conversion(scale, bias, unit)
    }

    /** The descriptor's conversion is the one its kind prescribes. */
    predicate Canonical()
    {
      Rule() == ConversionOf(fieldType)
    }

    /** The descriptor is exactly what the constructor of its kind builds
        from its own offset, group, id and, where the constructor takes
        one, name. Both temperature constructors build through
        `TemperatureName`. */
    predicate MadeByConstructor()
    {
      match fieldType
      case Charge => this == Charge(offset, group, name, id)
      case Current => this == Current(offset, group, id)
      case Energy => this == Energy(offset, group, name, id)
      case Frequency => this == Frequency(offset, group, id)
      case Power => this == Power(offset, group, id)
      case StateOfCharge => this == StateOfCharge(offset, group, id)
      case Temperature => this == TemperatureName(offset, group, name, id)
      case Voltage => this == Voltage(offset, group, id)
    }

    /** The caller's offset, group and id are stored unchanged. */
    predicate PassesThrough(offset': nat, group': string, id': string)
    {
      offset == offset' && group == group' && id == id'
    }

    static function Power(offset: nat, group: string, id: string): (f: Field)
      ensures f.fieldType == FieldType.Power && f.name == "Power"
      ensures f.scale == 1.0 && f.bias == 0.0 && f.unit == "W"
      ensures f.PassesThrough(offset, group, id) && f.Canonical()
    {
      Field(FieldType.Power, offset, group, "Power", id, 1.0, 0.0, "W")
    }

    static function Voltage(offset: nat, group: string, id: string): (f: Field)
      ensures f.fieldType == FieldType.Voltage && f.name == "Voltage"
      ensures f.scale == 0.1 && f.bias == 0.0 && f.unit == "V"
      ensures f.PassesThrough(offset, group, id) && f.Canonical()
    {
      Field(FieldType.Voltage, offset, group, "Voltage", id, 0.1, 0.0, "V")
    }

    static function Current(offset: nat, group: string, id: string): (f: Field)
      ensures f.fieldType == FieldType.Current && f.name == "Current"
      ensures f.scale == 0.01 && f.bias == 0.0 && f.unit == "A"
      ensures f.PassesThrough(offset, group, id) && f.Canonical()
    {
      Field(FieldType.Current, offset, group, "Current", id, 0.01, 0.0, "A")
    }

    static function TemperatureName(offset: nat, group: string, name: string, id: string): (f: Field)
      ensures f.fieldType == FieldType.Temperature && f.name == name
      ensures f.scale == 0.1 && f.bias == -100.0 && f.unit == "°C"
      ensures f.PassesThrough(offset, group, id) && f.Canonical()
    {
      Field(FieldType.Temperature, offset, group, name, id, 0.1, -100.0, "°C")
    }

    /** A temperature under the default name. */
    static function Temperature(offset: nat, group: string, id: string): (f: Field)
      ensures f == TemperatureName(offset, group, "Temperature", id)
      ensures f.fieldType == FieldType.Temperature && f.name == "Temperature"
      ensures f.PassesThrough(offset, group, id) && f.Canonical()
    {
      TemperatureName(offset, group, "Temperature", id)
    }

    static function Frequency(offset: nat, group: string, id: string): (f: Field)
      ensures f.fieldType == FieldType.Frequency && f.name == "Frequency"
      ensures f.scale == 0.01 && f.bias == 0.0 && f.unit == "Hz"
      ensures f.PassesThrough(offset, group, id) && f.Canonical()
    {
      Field(FieldType.Frequency, offset, group, "Frequency", id, 0.01, 0.0, "Hz")
    }

    static function Energy(offset: nat, group: string, name: string, id: string): (f: Field)
      ensures f.fieldType == FieldType.Energy && f.name == name
      ensures f.scale == 0.1 && f.bias == 0.0 && f.unit == "kWh"
      ensures f.PassesThrough(offset, group, id) && f.Canonical()
    {
      Field(FieldType.Energy, offset, group, name, id, 0.1, 0.0, "kWh")
    }

    static function Charge(offset: nat, group: string, name: string, id: string): (f: Field)
      ensures f.fieldType == FieldType.Charge && f.name == name
      ensures f.scale == 1.0 && f.bias == 0.0 && f.unit == "Ah"
      ensures f.PassesThrough(offset, group, id) && f.Canonical()
    {
      Field(FieldType.Charge, offset, group, name, id, 1.0, 0.0, "Ah")
    }

    static function StateOfCharge(offset: nat, group: string, id: string): (f: Field)
      ensures f.fieldType == FieldType.StateOfCharge && f.name == "SOC"
      ensures f.scale == 1.0 && f.bias == 0.0 && f.unit == "%"
      ensures f.PassesThrough(offset, group, id) && f.Canonical()
    {
      Field(FieldType.StateOfCharge, offset, group, "SOC", id, 1.0, 0.0, "%")
    }
  }

  /** A descriptor built by a constructor carries its kind's conversion. */
  lemma ConstructedIsCanonical(f: Field)
    requires f.MadeByConstructor()
    ensures f.Canonical()
  {
  }

  /** Two canonical descriptors of the same kind convert identically. */
  lemma SameTypeSameConversion(a: Field, b: Field)
    requires a.Canonical() && b.Canonical()
    requires a.fieldType == b.fieldType
    ensures a.scale == b.scale && a.bias == b.bias && a.unit == b.unit
  {
  }

  /** Among canonical descriptors the unit names the kind: no two kinds
      share a unit. */
  lemma UnitIdentifiesType(a: Field, b: Field)
    requires a.Canonical() && b.Canonical()
    ensures a.unit == b.unit <==> a.fieldType == b.fieldType
  {
  }

  /** Temperature is the only biased kind, and its bias is -100. */
  lemma OnlyTemperatureIsBiased(f: Field)
    requires f.Canonical()
    ensures f.bias != 0.0 <==> f.fieldType == FieldType.Temperature
    ensures f.fieldType == FieldType.Temperature ==> f.bias == -100.0
  {
  }

  /** A byte of the frame. */
  type Byte = x: int | 0 <= x < 0x100

  /** A half-open range of byte positions, `start` included, `end` excluded. */
  datatype Range = Range(start: nat, end: nat)
  {
    predicate Contains(k: nat)
    {
      start <= k < end
    }
  }

  /** Number of bytes in a frame. */
  const MAGIC_LENGTH: nat := 292
  /** Value of the first byte of every frame. */
  const MAGIC_HEADER: Byte := 0xA5
  /** Byte positions of the device serial number. */
  const SERIAL_RANGE: Range := Range(11, 21)
  /** Byte position where the timestamp starts. */
  const DATETIME_OFFSET: nat := 37

  /** The serial number and the timestamp start lie inside the frame, after
      the header byte, and do not overlap. */
  lemma FixedPositionsInFrame()
    ensures 0 < SERIAL_RANGE.start < SERIAL_RANGE.end <= MAGIC_LENGTH
    ensures 0 < DATETIME_OFFSET < MAGIC_LENGTH
    ensures !SERIAL_RANGE.Contains(DATETIME_OFFSET)
  {
  }

  /** The measurements of a frame, in output order. */
  const FIELDS: seq<Field> := [
    Field.Energy(70, "Battery", "Total charge", "battery_charge_total"),
    Field.Energy(74, "Battery", "Total discharge", "battery_discharge_total"),
    Field.Energy(82, "Grid", "Total import", "grid_import_total"),
    Field.Energy(88, "Grid", "Total export", "grid_export_total"),
    Field.Frequency(84, "Grid", "grid_frequency"),
    Field.Energy(96, "Load", "Total consumption", "load_consumption_total"),
    Field.TemperatureName(106, "Inverter", "DC Temperature", "inverter_temperature_dc"),
    Field.TemperatureName(108, "Inverter", "AC Temperature", "inverter_temperature_ac"),
    Field.Energy(118, "PV", "Total production", "pv_production_total"),
    Field.Charge(140, "Battery", "Capacity", "battery_capacity"),
    Field.Voltage(176, "Grid", "grid_voltage"),
    Field.Voltage(184, "Load", "load_voltage"),
    Field.Power(216, "Grid", "grid_power"),
    Field.Power(228, "Load", "load_power"),
    Field.Temperature(240, "Battery", "battery_temperature"),
    Field.StateOfCharge(244, "Battery", "battery_soc"),
    Field.Power(248, "PV", "pv_power"),
    Field.Power(256, "Battery", "battery_power"),
    Field.Current(258, "Battery", "battery_current"),
    Field.Frequency(260, "Load", "load_frequency")
  ]

  /** The identifiers of `fields`, position by position. */
  function Ids(fields: seq<Field>): seq<string>
  {
    seq(|fields|, k requires 0 <= k < |fields| => fields[k].id)
  }

  /** The offsets of `fields`, position by position. */
  function Offsets(fields: seq<Field>): seq<nat>
  {
    seq(|fields|, k requires 0 <= k < |fields| => fields[k].offset)
  }

  lemma RegistrySize()
    ensures |FIELDS| == 20
  {
  }

  /** Every entry is exactly what the constructor of its kind builds, so
      its name is the fixed one where the constructor fixes a name. */
  lemma RegistryMadeByConstructors()
    ensures forall k :: 0 <= k < |FIELDS| ==> FIELDS[k].MadeByConstructor()
  {
  }

  /** Every entry carries the conversion its kind prescribes. */
  lemma RegistryCanonical()
    ensures forall k :: 0 <= k < |FIELDS| ==> FIELDS[k].Canonical()
  {
  }

  /** Entries of the same kind convert identically. */
  lemma RegistryConsistent()
    ensures forall i, j :: 0 <= i < |FIELDS| && 0 <= j < |FIELDS| && FIELDS[i].fieldType == FIELDS[j].fieldType ==>
      FIELDS[i].scale == FIELDS[j].scale && FIELDS[i].bias == FIELDS[j].bias && FIELDS[i].unit == FIELDS[j].unit
  {
    RegistryCanonical();
    forall i, j | 0 <= i < |FIELDS| && 0 <= j < |FIELDS| && FIELDS[i].fieldType == FIELDS[j].fieldType
      ensures FIELDS[i].scale == FIELDS[j].scale && FIELDS[i].bias == FIELDS[j].bias && FIELDS[i].unit == FIELDS[j].unit
    {
      SameTypeSameConversion(FIELDS[i], FIELDS[j]);
    }
  }

  /** Descriptors with pairwise distinct identifiers carry as many
      different identifiers as there are descriptors. */
  lemma DistinctIdsCount(fields: seq<Field>)
    requires forall i, j :: 0 <= i < j < |fields| ==> fields[i].id != fields[j].id
    ensures |Elements(Ids(fields))| == |fields|
  {
    var ids := Ids(fields);
    assert Distinct(ids) by {
      forall i, j | 0 <= i < j < |ids| ensures ids[i] != ids[j] {
        assert ids[i] == fields[i].id && ids[j] == fields[j].id;
      }
    }
    DistinctCardinality(ids);
  }

  /** Descriptors with pairwise distinct offsets start at as many different
      bytes as there are descriptors. */
  lemma DistinctOffsetsCount(fields: seq<Field>)
    requires forall i, j :: 0 <= i < j < |fields| ==> fields[i].offset != fields[j].offset
    ensures |Elements(Offsets(fields))| == |fields|
  {
    var offsets := Offsets(fields);
    assert Distinct(offsets) by {
      forall i, j | 0 <= i < j < |offsets| ensures offsets[i] != offsets[j] {
        assert offsets[i] == fields[i].offset && offsets[j] == fields[j].offset;
      }
    }
    DistinctCardinality(offsets);
  }

  /** No two entries share an identifier: the twenty entries carry twenty
      different identifiers. */
  lemma RegistryIdsUnique()
    ensures forall i, j :: 0 <= i < j < |FIELDS| ==> FIELDS[i].id != FIELDS[j].id
    ensures |Elements(Ids(FIELDS))| == |FIELDS| == 20
  {
    DistinctIdsCount(FIELDS);
  }

  /** No two entries start at the same byte: the frame holds twenty
      different measurement positions. */
  lemma RegistryOffsetsDistinct()
    ensures forall i, j :: 0 <= i < j < |FIELDS| ==> FIELDS[i].offset != FIELDS[j].offset
    ensures |Elements(Offsets(FIELDS))| == |FIELDS| == 20
  {
    DistinctOffsetsCount(FIELDS);
  }

  /** Every entry starts inside the frame, past the header byte, outside the
      serial number and not at the timestamp. */
  lemma RegistryOffsetsInFrame()
    ensures forall k :: 0 <= k < |FIELDS| ==>
      0 < FIELDS[k].offset < MAGIC_LENGTH
      && !SERIAL_RANGE.Contains(FIELDS[k].offset)
      && FIELDS[k].offset != DATETIME_OFFSET
  {
  }

  /** Every entry belongs to one of the five display groups. */
  lemma RegistryGroups()
    ensures forall k :: 0 <= k < |FIELDS| ==>
      FIELDS[k].group in {"Battery", "Grid", "Load", "PV", "Inverter"}
  {
  }

  /** The registry is not ordered by offset: the export total precedes the
      grid frequency but starts after it. */
  lemma RegistryNotSortedByOffset()
    ensures exists i, j :: 0 <= i < j < |FIELDS| && FIELDS[i].offset > FIELDS[j].offset
  {
    assert FIELDS[3].offset > FIELDS[4].offset;
  }
}
