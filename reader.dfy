/** `EG4ModbusReader`: one battery's Modbus session and its `poll`.

    The transport is not modelled. What it answers during one poll is a
    `Transport` value: whether the open client's socket is still open, whether
    a fresh connection attempt succeeds, and what the two holding-register reads
    return (`None` for a failed read). The clock is the `timestamp` argument. */
module Reader {
  import opened Common
  import opened Registers
  import opened AlarmCheck
  import opened Slug
  import opened Configuration

  /** The transport's answers during one poll. `mainRead` answers the request
      for `MainBlockCount` registers from offset `MainBlockStart`; `cellRead`
      answers the request for `CellVoltageCount` registers from offset
      `CellVoltageStart`. */
  datatype Transport = Transport(
    socketOpen: bool,
    connectOk: bool,
    mainRead: Option<seq<Word>>,
    cellRead: Option<seq<Word>>)

  /** A non-empty main read reaches register 41; a shorter one would make the
      decoding raise `IndexError`. */
  predicate MainReadSized(tr: Transport) {
    tr.mainRead.Some? && tr.mainRead.value != [] ==> |tr.mainRead.value| >= MainBlockMinimum
  }

  /** `if not regs`: the read failed or returned nothing. */
  predicate ReadFailed(read: Option<seq<Word>>) {
    read.None? || read.value == []
  }

  /** The session state: whether a client object exists, and the `_connected` flag. */
  datatype Session = Session(hasClient: bool, connected: bool)

  /** The `connected` property: the flag is set, a client exists and its socket is open. */
  predicate IsConnected(s: Session, socketOpen: bool) {
    s.connected && s.hasClient && socketOpen
  }

  /** The record one poll returns and the session it leaves behind. */
  datatype PollOutcome = PollOutcome(data: BatteryData, session: Session)

  /** The online record of a successful main read: the decoded block, the cell
      voltages when the cell read returned words, and the alarms of the result. */
  function Snapshot(blank: BatteryData, regs: seq<Word>, cellRead: Option<seq<Word>>): (r: BatteryData)
    requires |regs| >= MainBlockMinimum
    ensures r.online
    ensures r.name == blank.name && r.batteryId == blank.batteryId && r.timestamp == blank.timestamp
    ensures ReadFailed(cellRead) ==> r.cellVoltages == blank.cellVoltages
    ensures !ReadFailed(cellRead) ==> |r.cellVoltages| == |cellRead.value|
    ensures r.alarms == Alarms(AlarmThresholds, r) && r.alarmCount == |r.alarms|
  {
    var decoded := DecodeMain(blank, regs);
    var d := if ReadFailed(cellRead) then decoded else decoded.(cellVoltages := CellVoltagesOf(cellRead.value));
    var alarms := Alarms(AlarmThresholds, d);
    AlarmsIgnoreAlarmFields(d, alarms);
    d.(alarms := alarms, alarmCount := |alarms|)
  }

  /** What `poll` does: reconnect when not connected and give up offline if that
      fails; read the main block, and on failure clear the flag and give up
      offline; otherwise return the online snapshot. */
  function PollSpec(name: string, batteryId: string, timestamp: string, s: Session, tr: Transport): (o: PollOutcome)
    requires MainReadSized(tr)
    ensures o.data.name == name && o.data.batteryId == batteryId && o.data.timestamp == timestamp
    ensures !o.data.online ==> o.data == Blank(name, batteryId, timestamp) && !o.session.connected
    ensures o.data.online ==> o.session.connected && o.session.hasClient
  {
    var blank := Blank(name, batteryId, timestamp);
    var reconnect := !IsConnected(s, tr.socketOpen);
    var s1 := if reconnect then Session(true, tr.connectOk) else s;
    if reconnect && !tr.connectOk then PollOutcome(blank, s1)
    else if ReadFailed(tr.mainRead) then PollOutcome(blank, s1.(connected := false))
    else PollOutcome(Snapshot(blank, tr.mainRead.value, tr.cellRead), s1)
  }

  /** `slugify(battery_config.name)` on whatever the configuration holds: a string
      gives its slug, and anything else has no `lower()` and raises `AttributeError`. */
  function IdOf(name: Value): (r: Result<string, ConfigError>)
    ensures r.Ok? <==> name.VStr?
    ensures r.Ok? ==> IsSlug(r.value) && Alnums(r.value) == Alnums(Lower(name.s))
    ensures r.Err? ==> r.error == AttributeError
  {
    if name.VStr? then Ok(Slugify(name.s)) else Err(AttributeError)
  }

  class ModbusReader {
    const config: BatteryConfig
    const name: string
    const batteryId: string
    var hasClient: bool
    var connected: bool

    /** The session state of this reader. */
    function State(): Session
      reads this
    {
      Session(hasClient, connected)
    }

    /** `EG4ModbusReader(battery_config)`: the identifier is the slug of the name;
        there is no client yet and the reader is not connected. */
    constructor (battery: BatteryConfig)
      requires IdOf(battery.name).Ok?
      ensures config == battery && name == battery.name.s
      ensures batteryId == IdOf(battery.name).value
      ensures !hasClient && !connected
    {
      var n := battery.name.s;
      var id := Slugify(n);
      assert IsSlug(id);
      config := battery;
      name := n;
      batteryId := id;
      new;
      hasClient := false;
      connected := false;
    }

    /** The `connected` property, given whether the client's socket is open. */
    function Connected(socketOpen: bool): (r: bool)
      reads this
      ensures r == IsConnected(State(), socketOpen)
    {
      connected && hasClient && socketOpen
    }

    /** `connect()`: a fresh client is created, and the flag becomes the outcome
        of its connection attempt, which is also returned. */
    method Connect(connectOk: bool) returns (ok: bool)
      modifies this
      ensures hasClient && connected == connectOk && ok == connectOk
    {
      hasClient := true;
      connected := connectOk;
      ok := connected;
    }

    /** `disconnect()`: the client, if any, is closed and the flag cleared. */
    method Disconnect()
      modifies this
      ensures hasClient == old(hasClient) && !connected
    {
      connected := false;
    }

    /** `poll()`. */
    method Poll(timestamp: string, tr: Transport) returns (data: BatteryData)
      requires MainReadSized(tr)
      modifies this
      ensures var o := PollSpec(name, batteryId, timestamp, old(State()), tr);
        data == o.data && State() == o.session
    {
      data := Blank(name, batteryId, timestamp);

      // Ensure connection
      if !Connected(tr.socketOpen) {
        var ok := Connect(tr.connectOk);
        if !ok {
          return;
        }
      }

      // Read main registers
      var regs := tr.mainRead;
      if ReadFailed(regs) {
        connected := false;
        return;
      }
      data := DecodeMain(data, regs.value);

      // Read cell voltages
      var cellRegs := tr.cellRead;
      if !ReadFailed(cellRegs) {
        data := data.(cellVoltages := CellVoltagesOf(cellRegs.value));
      }

      // Check for alarms
      var alarms := CheckAlarms(data);
      data := data.(alarms := alarms, alarmCount := |alarms|);
    }
  }

  // ---------------------------------------------------------------------------
  // Properties of a poll

  /** A poll is offline exactly when the reconnection it needed failed or the main
      read failed, and an offline record is the blank record: identity set,
      everything else at its default, no alarms. */
  lemma OfflineExactlyOnFailure(name: string, batteryId: string, timestamp: string, s: Session, tr: Transport)
    requires MainReadSized(tr)
    ensures var o := PollSpec(name, batteryId, timestamp, s, tr);
      && (!o.data.online <==> (!IsConnected(s, tr.socketOpen) && !tr.connectOk) || ReadFailed(tr.mainRead))
      && (!o.data.online ==> o.data == Blank(name, batteryId, timestamp) && AtDefaults(o.data))
      && o.data.name == name && o.data.batteryId == batteryId && o.data.timestamp == timestamp
  {
  }

  /** After a poll that came back offline the reader is not connected, so the next
      poll reconnects before it reads. */
  lemma OfflineLeavesDisconnected(name: string, batteryId: string, timestamp: string, s: Session, tr: Transport, socketOpen: bool)
    requires MainReadSized(tr)
    ensures var o := PollSpec(name, batteryId, timestamp, s, tr);
      !o.data.online ==> !o.session.connected && !IsConnected(o.session, socketOpen)
  {
  }

  /** A reader that is not connected creates a fresh client before reading; one
      that is connected keeps its client; and the reader ends up connected exactly
      when the poll came back online. */
  lemma ReconnectBeforeRead(name: string, batteryId: string, timestamp: string, s: Session, tr: Transport)
    requires MainReadSized(tr)
    ensures var o := PollSpec(name, batteryId, timestamp, s, tr);
      && (!IsConnected(s, tr.socketOpen) ==> o.session.hasClient)
      && (IsConnected(s, tr.socketOpen) ==> o.session.hasClient == s.hasClient)
      && (o.session.connected <==> o.data.online)
  {
  }

  /** The online record of a poll: the decoded main block, with voltage, current,
      power and cell delta as the registers give them; the cell voltages of a
      successful cell read, one per word and in order, none otherwise; and the
      alarms the record's own readings raise, with their count. */
  lemma OnlineRecord(name: string, batteryId: string, timestamp: string, s: Session, tr: Transport)
    requires MainReadSized(tr)
    ensures var o := PollSpec(name, batteryId, timestamp, s, tr);
      o.data.online ==>
        && !ReadFailed(tr.mainRead)
        && var regs := tr.mainRead.value;
           && o.data.voltage == regs[22] as real / 100.0
           && o.data.current == Signed16(regs[24]) as real / 100.0
           && o.data.power == o.data.voltage * o.data.current
           && o.data.cellDelta == (o.data.cellMax - o.data.cellMin) * 1000.0
           && o.data.cellVoltages == (if ReadFailed(tr.cellRead) then [] else CellVoltagesOf(tr.cellRead.value))
           && o.data.alarms == Alarms(AlarmThresholds, o.data)
           && o.data.alarmCount == |o.data.alarms|
           && forall f :: FieldValue(o.data, f) == FieldValue(DecodeMain(Blank(name, batteryId, timestamp), regs), f)
  {
    var o := PollSpec(name, batteryId, timestamp, s, tr);
    if o.data.online {
      var regs := tr.mainRead.value;
      var blank := Blank(name, batteryId, timestamp);
      DecodedElectricals(blank, regs);
      var decoded := DecodeMain(blank, regs);
      var d := if ReadFailed(tr.cellRead) then decoded else decoded.(cellVoltages := CellVoltagesOf(tr.cellRead.value));
      AlarmsIgnoreAlarmFields(d, Alarms(AlarmThresholds, d));
    }
  }

  /** A 50 mV spread between registers 37 and 38 is exactly the imbalance limit,
      so the record raises no "Cell Imbalance", whatever else it reads. */
  lemma FiftyMillivoltSpreadIsNoImbalance(blank: BatteryData, regs: seq<Word>, cellRead: Option<seq<Word>>)
    requires |regs| >= MainBlockMinimum && regs[37] as int - regs[38] as int == 50
    ensures Snapshot(blank, regs, cellRead).cellDelta == 50.0
    ensures "Cell Imbalance" !in Snapshot(blank, regs, cellRead).alarms
  {
    var r := Snapshot(blank, regs, cellRead);
    DecodedElectricals(blank, regs);
    AtLimitRaisesNothing(AlarmThresholds, r, CellImbalance);
  }

  /** The alarms of a record do not depend on the alarms it already carries. */
  lemma AlarmsIgnoreAlarmFields(d: BatteryData, alarms: seq<string>)
    ensures Alarms(AlarmThresholds, d.(alarms := alarms, alarmCount := |alarms|)) == Alarms(AlarmThresholds, d)
  {
    var t := AlarmThresholds;
    var e := d.(alarms := alarms, alarmCount := |alarms|);
    forall k | 0 <= k <= CheckCount
      ensures AlarmsUpTo(t, e, k) == AlarmsUpTo(t, d, k)
    {
      AlarmsUpToIgnoresAlarmFields(d, alarms, k);
    }
  }

  lemma {:induction false} AlarmsUpToIgnoresAlarmFields(d: BatteryData, alarms: seq<string>, k: nat)
    requires k <= CheckCount
    ensures AlarmsUpTo(AlarmThresholds, d.(alarms := alarms, alarmCount := |alarms|), k)
         == AlarmsUpTo(AlarmThresholds, d, k)
  {
    if k > 0 {
      AlarmsUpToIgnoresAlarmFields(d, alarms, k - 1);
    }
  }

  /** What every record a poll returns satisfies: the alarm count is the number of
      alarms; an online record's power and cell delta are derived from its voltage,
      current and cell extremes and its alarms are those its readings raise; an
      offline record is at its defaults. */
  predicate WellFormed(d: BatteryData) {
    && d.alarmCount == |d.alarms|
    && (d.online ==>
          && d.power == d.voltage * d.current
          && d.cellDelta == (d.cellMax - d.cellMin) * 1000.0
          && d.alarms == Alarms(AlarmThresholds, d))
    && (!d.online ==> AtDefaults(d))
  }

  lemma PollIsWellFormed(name: string, batteryId: string, timestamp: string, s: Session, tr: Transport)
    requires MainReadSized(tr)
    ensures WellFormed(PollSpec(name, batteryId, timestamp, s, tr).data)
  {
    OnlineRecord(name, batteryId, timestamp, s, tr);
  }

  /** An offline record reports no alarm, although readings of zero would raise the
      under-voltage and low-charge alarms: the alarms are only evaluated online. */
  lemma OfflineRaisesNoAlarm(name: string, batteryId: string, timestamp: string)
    ensures Blank(name, batteryId, timestamp).alarms == []
    ensures Alarms(AlarmThresholds, Blank(name, batteryId, timestamp))
         == ["Pack Under-Voltage", "Cell Under-Voltage", "Critical Low SOC"]
  {
    var t := AlarmThresholds;
    var d := Blank(name, batteryId, timestamp);
    assert AlarmsUpTo(t, d, 1) == [];
    assert AlarmsUpTo(t, d, 2) == ["Pack Under-Voltage"];
    assert AlarmsUpTo(t, d, 3) == ["Pack Under-Voltage"];
    assert AlarmsUpTo(t, d, 4) == ["Pack Under-Voltage", "Cell Under-Voltage"];
    assert AlarmsUpTo(t, d, 5) == ["Pack Under-Voltage", "Cell Under-Voltage"];
    assert AlarmsUpTo(t, d, 6) == ["Pack Under-Voltage", "Cell Under-Voltage"];
    assert AlarmsUpTo(t, d, 7) == ["Pack Under-Voltage", "Cell Under-Voltage"];
    assert AlarmsUpTo(t, d, 8) == ["Pack Under-Voltage", "Cell Under-Voltage", "Critical Low SOC"];
    assert AlarmsUpTo(t, d, 9) == ["Pack Under-Voltage", "Cell Under-Voltage", "Critical Low SOC"];
  }
}
