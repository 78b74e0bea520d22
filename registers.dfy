/** The EG4 WallMount 280Ah register layout and the decoding of one block of
    holding registers into a telemetry record.

    The block is the answer to a Modbus "Read Holding Registers" request
    (function code 0x03, section 6.3 of the Modbus Application Protocol
    Specification V1.1b3): a sequence of unsigned 16-bit words, word `k` being
    the register at offset `k`. Scaled quantities are exact rationals. */
module Registers {
  import opened Common

  /** One 16-bit register value, as the transport delivers it. */
  type Word = w: int | 0 <= w < 0x1_0000

  /** The fields the register map names. */
  datatype Field =
    | Soc | Soh | Voltage | Current | RemainingKwh | DesignCapacity | FullCapacity
    | RemainingAh | Temperature | SohAlt | MaxVoltage | MaxCurrent | CellMax | CellMin
    | CycleCount | Status | CellCount

  /** One row of the register map: the field the register feeds and the divisor
      that turns the raw word into the field's unit. */
  datatype RegisterEntry = RegisterEntry(field: Field, divisor: nat)

  /** `REGISTER_MAP`: register offset to field and scale divisor. */
  const RegisterMap: map<nat, RegisterEntry> := map[
    19 := RegisterEntry(Soc, 1),
    21 := RegisterEntry(Soh, 1),
    22 := RegisterEntry(Voltage, 100),
    24 := RegisterEntry(Current, 100),
    25 := RegisterEntry(RemainingKwh, 100),
    26 := RegisterEntry(DesignCapacity, 100),
    27 := RegisterEntry(FullCapacity, 100),
    28 := RegisterEntry(RemainingAh, 10),
    30 := RegisterEntry(Temperature, 10),
    32 := RegisterEntry(SohAlt, 1),
    33 := RegisterEntry(MaxVoltage, 100),
    35 := RegisterEntry(MaxCurrent, 100),
    37 := RegisterEntry(CellMax, 1000),
    38 := RegisterEntry(CellMin, 1000),
    39 := RegisterEntry(CycleCount, 1),
    40 := RegisterEntry(Status, 1),
    41 := RegisterEntry(CellCount, 1)
  ]

  /** The one register that holds a signed (two's-complement) quantity. */
  const CurrentRegister: nat := 24

  /** The main read asks for `MainBlockCount` registers from offset `MainBlockStart`. */
  const MainBlockStart: nat := 0
  const MainBlockCount: nat := 60

  /** Decoding reads registers up to offset 41 (`cell_count`). */
  const MainBlockMinimum: nat := 42

  /** `CELL_VOLTAGE_START`, `CELL_VOLTAGE_COUNT`: the second read, one word per cell. */
  const CellVoltageStart: nat := 113
  const CellVoltageCount: nat := 16

  /** `_signed16`: the two's-complement reading of a 16-bit word. For a word the
      result is the one value in [-32768, 32767] congruent to it modulo 65536. */
  function Signed16(value: int): (r: int)
    ensures 0 <= value < 0x1_0000 ==> -0x8000 <= r < 0x8000 && (value - r) % 0x1_0000 == 0
  {
    if value > 32767 then value - 65536 else value
  }

  /** The 16-bit two's-complement encoding of a signed quantity. */
  function Unsigned16(s: int): (w: Word)
    ensures (w - s) % 0x1_0000 == 0
  {
    s % 0x1_0000
  }

  /** `_signed16` inverts the two's-complement encoding, and the encoding inverts
      `_signed16`: words and signed 16-bit values correspond one to one. */
  lemma Signed16RoundTrip(w: Word, s: int)
    requires -0x8000 <= s < 0x8000
    ensures Unsigned16(Signed16(w)) == w
    ensures Signed16(Unsigned16(s)) == s
  {
  }

  /** The boundary values: 32767 stays positive, 32768 is the most negative value,
      and 65535 is -1. */
  lemma Signed16Boundaries()
    ensures Signed16(0) == 0 && Signed16(100) == 100 && Signed16(32767) == 32767
    ensures Signed16(32768) == -32768 && Signed16(65436) == -100 && Signed16(65535) == -1
  {
  }

  /** `BatteryData`: one telemetry snapshot of one battery. */
  datatype BatteryData = BatteryData(
    name: string,
    batteryId: string,
    timestamp: string,
    online: bool,
    // State
    soc: real,
    soh: real,
    cycleCount: int,
    status: int,
    // Electrical
    voltage: real,
    current: real,
    power: real,
    temperature: real,
    // Capacity
    designCapacity: real,
    fullCapacity: real,
    remainingAh: real,
    remainingKwh: real,
    // Limits
    maxVoltage: real,
    maxCurrent: real,
    // Cell data
    cellCount: int,
    cellMin: real,
    cellMax: real,
    cellDelta: real,
    cellVoltages: seq<real>,
    // Alarms
    alarmCount: int,
    alarms: seq<string>)

  /** `BatteryData(name=..., battery_id=..., timestamp=...)`: identity set,
      offline, everything else at its default. */
  function Blank(name: string, batteryId: string, timestamp: string): (d: BatteryData)
    ensures d.name == name && d.batteryId == batteryId && d.timestamp == timestamp
    ensures !d.online && AtDefaults(d)
  {
    BatteryData(name, batteryId, timestamp, false,
                0.0, 0.0, 0, 0,
                0.0, 0.0, 0.0, 0.0,
                0.0, 0.0, 0.0, 0.0,
                0.0, 0.0,
                0, 0.0, 0.0, 0.0, [],
                0, [])
  }

  /** Every numeric field at zero, no cell voltages and no alarms. */
  predicate AtDefaults(d: BatteryData) {
    && d.soc == 0.0 && d.soh == 0.0 && d.cycleCount == 0 && d.status == 0
    && d.voltage == 0.0 && d.current == 0.0 && d.power == 0.0 && d.temperature == 0.0
    && d.designCapacity == 0.0 && d.fullCapacity == 0.0 && d.remainingAh == 0.0 && d.remainingKwh == 0.0
    && d.maxVoltage == 0.0 && d.maxCurrent == 0.0
    && d.cellCount == 0 && d.cellMin == 0.0 && d.cellMax == 0.0 && d.cellDelta == 0.0
    && d.cellVoltages == [] && d.alarmCount == 0 && d.alarms == []
  }

  /** A raw word in the unit of its field. */
  function Scaled(raw: int, divisor: nat): real
    requires divisor > 0
  {
    raw as real / divisor as real
  }

  /** Decoding of the main block (the field-by-field assignments of `poll` after a
      successful read): the record is marked online and every register-backed
      field is set from its register; identity, cell voltages and alarms are kept. */
  function DecodeMain(d: BatteryData, regs: seq<Word>): (r: BatteryData)
    requires |regs| >= MainBlockMinimum
    ensures r.online
    ensures r.name == d.name && r.batteryId == d.batteryId && r.timestamp == d.timestamp
    ensures r.cellVoltages == d.cellVoltages && r.alarms == d.alarms && r.alarmCount == d.alarmCount
  {
    var voltage := Scaled(regs[22], 100);
    var current := Scaled(Signed16(regs[24]), 100);
    var cellMax := Scaled(regs[37], 1000);
    var cellMin := Scaled(regs[38], 1000);
    d.(online := true,
       soc := regs[19] as real,
       soh := regs[21] as real,
       voltage := voltage,
       current := current,
       power := voltage * current,
       remainingKwh := Scaled(regs[25], 100),
       designCapacity := Scaled(regs[26], 100),
       fullCapacity := Scaled(regs[27], 100),
       remainingAh := Scaled(regs[28], 10),
       temperature := Scaled(regs[30], 10),
       maxVoltage := Scaled(regs[33], 100),
       maxCurrent := Scaled(regs[35], 100),
       cellMax := cellMax,
       cellMin := cellMin,
       cycleCount := regs[39],
       status := regs[40],
       cellCount := regs[41],
       cellDelta := (cellMax - cellMin) * 1000.0)
  }

  /** `[v / 1000.0 for v in cell_regs]`: cell voltages in volts, in register order. */
  function CellVoltagesOf(cellRegs: seq<Word>): (vs: seq<real>)
    ensures |vs| == |cellRegs|
    ensures forall i :: 0 <= i < |cellRegs| ==> vs[i] == Scaled(cellRegs[i], 1000) && 0.0 <= vs[i] < 65.536
  {
    seq(|cellRegs|, i requires 0 <= i < |cellRegs| => Scaled(cellRegs[i], 1000))
  }

  /** The value a record holds for a register-map field, `None` for the one field
      (`soh_alt`) the record does not have. */
  function FieldValue(d: BatteryData, f: Field): Option<real> {
    match f
    case Soc => Some(d.soc)
    case Soh => Some(d.soh)
    case Voltage => Some(d.voltage)
    case Current => Some(d.current)
    case RemainingKwh => Some(d.remainingKwh)
    case DesignCapacity => Some(d.designCapacity)
    case FullCapacity => Some(d.fullCapacity)
    case RemainingAh => Some(d.remainingAh)
    case Temperature => Some(d.temperature)
    case SohAlt => None
    case MaxVoltage => Some(d.maxVoltage)
    case MaxCurrent => Some(d.maxCurrent)
    case CellMax => Some(d.cellMax)
    case CellMin => Some(d.cellMin)
    case CycleCount => Some(d.cycleCount as real)
    case Status => Some(d.status as real)
    case CellCount => Some(d.cellCount as real)
  }

  /** The raw reading of register `k`: signed for the current register, unsigned otherwise. */
  function RawReading(regs: seq<Word>, k: nat): int
    requires k < |regs|
  {
    if k == CurrentRegister then Signed16(regs[k]) else regs[k]
  }

  /** Every register the map lists lies inside the decoded block and has a positive divisor. */
  lemma RegisterMapInBlock()
    ensures forall k :: k in RegisterMap ==> k < MainBlockMinimum && RegisterMap[k].divisor > 0
  {
  }

  /** Every field of the register map that the record has is decoded as its register
      divided by the divisor the map lists; the sign conversion applies to the current
      register alone, so every other decoded field is non-negative. The map's
      `soh_alt` (register 32) has no field in the record and is not decoded. */
  lemma DecodeFollowsRegisterMap(d: BatteryData, regs: seq<Word>)
    requires |regs| >= MainBlockMinimum
    ensures forall k :: k in RegisterMap ==>
      k < |regs| && RegisterMap[k].divisor > 0 &&
      FieldValue(DecodeMain(d, regs), RegisterMap[k].field) ==
        if RegisterMap[k].field == SohAlt then None
        else Some(Scaled(RawReading(regs, k), RegisterMap[k].divisor))
    ensures forall k :: k in RegisterMap && k != CurrentRegister && RegisterMap[k].field != SohAlt ==>
      FieldValue(DecodeMain(d, regs), RegisterMap[k].field).value >= 0.0
  {
    RegisterMapInBlock();
    var r := DecodeMain(d, regs);
    forall k | k in RegisterMap
      ensures k < |regs| && RegisterMap[k].divisor > 0
      ensures FieldValue(r, RegisterMap[k].field) ==
        if RegisterMap[k].field == SohAlt then None
        else Some(Scaled(RawReading(regs, k), RegisterMap[k].divisor))
    {
      assert k in {19, 21, 22, 24, 25, 26, 27, 28, 30, 32, 33, 35, 37, 38, 39, 40, 41};
    }
  }

  /** The main-read properties of a decoded block: pack voltage is register 22 in
      centivolts, current is the signed register 24 in centiamps, power is their exact
      product, and the cell delta is the spread of registers 37 and 38 in millivolts. */
  lemma DecodedElectricals(d: BatteryData, regs: seq<Word>)
    requires |regs| >= MainBlockMinimum
    ensures var r := DecodeMain(d, regs);
      && r.voltage == regs[22] as real / 100.0
      && r.current == Signed16(regs[24]) as real / 100.0
      && r.power == r.voltage * r.current
      && r.cellMax == regs[37] as real / 1000.0
      && r.cellMin == regs[38] as real / 1000.0
      && r.cellDelta == (r.cellMax - r.cellMin) * 1000.0
      && r.cellDelta == (regs[37] as int - regs[38] as int) as real
      && -327.68 <= r.current <= 327.67
      && 0.0 <= r.voltage <= 655.35
  {
  }

  /** Decoding reads nothing past register 41: the rest of the 60-word block is ignored. */
  lemma DecodeReadsFirst42(d: BatteryData, regs: seq<Word>)
    requires |regs| >= MainBlockMinimum
    ensures DecodeMain(d, regs) == DecodeMain(d, regs[..MainBlockMinimum])
  {
  }

  /** The cell delta is not clamped: a block whose highest-cell register is below its
      lowest-cell register decodes to a negative delta. */
  lemma CellDeltaCanBeNegative(d: BatteryData)
    ensures var regs := seq(MainBlockMinimum, k => if k == 38 then 3300 else if k == 37 then 3250 else 0);
      DecodeMain(d, regs).cellDelta == -50.0
  {
  }
}
