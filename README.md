# Solar inverter telemetry frame layout

This project models the field registry of a solar inverter / battery
monitor's telemetry frame. It covers:

- the closed set of quantity kinds (`FieldType`);
- the measurement descriptor (`Field`: kind, byte offset, display group, name,
  unique id, scale, bias, unit);
- the nine per-kind constructors, which fix scale, bias, unit and sometimes the
  name, and pass the caller's offset, group, id and name through;
- the frame-layout constants: frame length 292, header byte 0xA5, serial
  number at bytes 11..21 (end excluded), timestamp at byte 37;
- the ordered, constant registry `FIELDS` of twenty descriptors, built only
  from those constructors.

Everything in the source here is pure constant data. The model follows that
form. `FieldType`, `Field` and the frame `Range` are datatypes. The
constructors are static functions of `Field`, just as they are associated
`const fn`s of the Rust struct. `FIELDS` is a constant `seq<Field>`, written
with the same constructor calls in the same order.

`ConversionOf` is a reference table giving each kind its conversion rule
(scale, bias, unit). It is separate from the constructors. A descriptor is
`Canonical` when its rule is the one its kind prescribes. Every constructor
ensures this. The consistency lemmas show what that guarantees:

- two canonical descriptors of the same kind convert the same way;
- the unit alone identifies the kind;
- only temperatures carry a nonzero bias.

The registry lemmas prove these facts about `FIELDS`:

- its size is 20;
- every entry is exactly what its kind's constructor builds, so the fixed
  names hold as well as the conversions;
- its ids are unique;
- its offsets are distinct;
- every offset lies inside the frame, after the header byte, outside the
  serial bytes and not at the timestamp;
- it is *not* sorted by offset.

Uniqueness is stated two ways: pairwise, and as a count of twenty distinct
values. The generic lemma `Sequences.DistinctCardinality` links the two.

Types: `usize` is `nat`, `u8` is the subset type `Byte`, `&str` is `string`,
and `f64` scale and bias are exact `real` literals (0.1, 0.01, 1.0, -100.0,
0.0). They are only stored and compared here, so they are never rounded.

## Model

| member | source | states |
|---|---|---|
| `Fields.Field.Power` | src/fields.rs:44-55 | kind Power, name "Power", scale 1.0, bias 0.0, unit "W"; offset, group and id passed through; canonical for its kind |
| `Fields.Field.Voltage` | src/fields.rs:57-68 | kind Voltage, name "Voltage", scale 0.1, bias 0.0, unit "V"; offset, group and id passed through; canonical |
| `Fields.Field.Current` | src/fields.rs:70-81 | kind Current, name "Current", scale 0.01, bias 0.0, unit "A"; offset, group and id passed through; canonical |
| `Fields.Field.TemperatureName` | src/fields.rs:83-99 | kind Temperature with the caller's name, scale 0.1, bias -100.0, unit "°C"; offset, group and id passed through; canonical |
| `Fields.Field.Temperature` | src/fields.rs:101-103 | equals `TemperatureName` with the name "Temperature", so it is a canonical Temperature descriptor under that name |
| `Fields.Field.Frequency` | src/fields.rs:105-116 | kind Frequency, name "Frequency", scale 0.01, bias 0.0, unit "Hz"; offset, group and id passed through; canonical |
| `Fields.Field.Energy` | src/fields.rs:118-131 | kind Energy with the caller's name, scale 0.1, bias 0.0, unit "kWh"; offset, group and id passed through; canonical |
| `Fields.Field.Charge` | src/fields.rs:133-144 | kind Charge with the caller's name, scale 1.0, bias 0.0, unit "Ah"; offset, group and id passed through; canonical |
| `Fields.Field.StateOfCharge` | src/fields.rs:146-157 | kind StateOfCharge, name "SOC", scale 1.0, bias 0.0, unit "%"; offset, group and id passed through; canonical |
| `Fields.ConstructedIsCanonical` | src/fields.rs:44-157 | a descriptor equal to what its kind's constructor builds from its own offset, group, name and id carries the scale, bias and unit the reference table gives that kind |
| `Fields.SameTypeSameConversion` | src/fields.rs:44-157 | any two descriptors made by the constructors that have the same kind have the same scale, bias and unit |
| `Fields.UnitIdentifiesType` | src/fields.rs:44-157 | for constructor-made descriptors, equal units hold exactly when the kinds are equal (no two kinds share a unit) |
| `Fields.OnlyTemperatureIsBiased` | src/fields.rs:44-157 | for a constructor-made descriptor, a nonzero bias holds exactly for Temperature, and that bias is -100.0 |
| `Fields.FixedPositionsInFrame` | src/fields.rs:160-163 | the serial range is non-empty, starts after the header byte and ends within the 292-byte frame; the timestamp offset lies in the frame and outside the serial range |
| `Fields.RegistrySize` | src/fields.rs:164-185 | the registry has exactly 20 entries |
| `Fields.RegistryMadeByConstructors` | src/fields.rs:164-185 | every registry entry is exactly its kind's constructor applied to its own offset, group, id and (for the name-taking kinds) name, so the fixed names hold, e.g. Power entries are named "Power" and the state-of-charge entry "SOC" |
| `Fields.RegistryCanonical` | src/fields.rs:164-185 | every registry entry carries the conversion its kind prescribes |
| `Fields.RegistryConsistent` | src/fields.rs:44-185 | any two registry entries of the same kind have identical scale, bias and unit |
| `Fields.RegistryIdsUnique` | src/fields.rs:164-185 | registry ids are pairwise distinct, so the twenty entries carry twenty different ids |
| `Fields.RegistryOffsetsDistinct` | src/fields.rs:164-185 | registry offsets are pairwise distinct, so the frame holds twenty different measurement positions |
| `Fields.RegistryOffsetsInFrame` | src/fields.rs:160-185 | every registry offset is below the frame length 292, is not the header byte 0, lies outside serial bytes 11..21 and is not the timestamp offset 37 |
| `Fields.RegistryGroups` | src/fields.rs:164-185 | every registry entry's group is one of Battery, Grid, Load, PV, Inverter |
| `Fields.RegistryNotSortedByOffset` | src/fields.rs:168-169 | some entry starts after a later entry (export total at 88 before grid frequency at 84), so the registry order is not offset order |

## Left out

- Frame validation (length and header check) and frame decoding are not part of this model. This covers reading raw integers at the offsets, converting them with the stored scale and bias (presumably `raw * scale + bias`), and extracting the serial number and the timestamp. None of that code is in `src/fields.rs`, and the file does not say how scale and bias are applied. So the model only stores the constants such code would use.
- Raw value width and byte order are not modelled, and no `offset + width <= 292` bound is stated. The source leaves both open in its TODO on the energy constructor (src/fields.rs:119-120).
- Floating-point arithmetic is not modelled. The `f64` scale and bias constants are exact reals, used only for equality.
- Rust details are not modelled: lifetimes, `&str` borrowing and the derived impls. `FieldType` derives `Clone`, `Copy`, `PartialEq`, `Eq` and `Debug` (src/fields.rs:19); its equality becomes datatype equality. `Field` derives only `Debug` (src/fields.rs:31). Equality on `Field` is something the model adds, with no Rust counterpart. The model uses it to state `Temperature` as `TemperatureName` with the default name, and to state `MadeByConstructor`.
- `usize` is modelled as unbounded `nat`. Every offset here is far below any machine limit, so width never matters.
