/** `_check_alarms`: nine strict threshold comparisons on a decoded record,
    evaluated in a fixed order, each contributing one label when it holds. */
module AlarmCheck {
  import opened Registers

  /** The nine limits of `ALARM_THRESHOLDS`. */
  datatype Thresholds = Thresholds(
    packOvervoltage: real,
    packUndervoltage: real,
    cellOvervoltage: real,
    cellUndervoltage: real,
    cellImbalanceMv: real,
    highTemp: real,
    lowTemp: real,
    criticalSoc: real,
    overcurrent: real)

  /** `ALARM_THRESHOLDS`, the limits the monitor uses. */
  const AlarmThresholds: Thresholds := Thresholds(
    packOvervoltage := 57.6,
    packUndervoltage := 44.8,
    cellOvervoltage := 3.65,
    cellUndervoltage := 2.5,
    cellImbalanceMv := 50.0,
    highTemp := 55.0,
    lowTemp := -20.0,
    criticalSoc := 10.0,
    overcurrent := 200.0)

  /** Each lower limit lies below the matching upper limit. */
  predicate Coherent(t: Thresholds) {
    t.packUndervoltage <= t.packOvervoltage && t.lowTemp <= t.highTemp
  }

  function Abs(x: real): (r: real)
    ensures r >= 0.0 && (r == x || r == -x)
  {
    if x < 0.0 then -x else x
  }

  /** The nine checks, one per label. */
  datatype Check =
    | PackOverVoltage | PackUnderVoltage | CellOverVoltage | CellUnderVoltage | CellImbalance
    | HighTemperature | LowTemperature | CriticalLowSoc | OverCurrent
  {
    function Label(): string {
      match this
      case PackOverVoltage => "Pack Over-Voltage"
      case PackUnderVoltage => "Pack Under-Voltage"
      case CellOverVoltage => "Cell Over-Voltage"
      case CellUnderVoltage => "Cell Under-Voltage"
      case CellImbalance => "Cell Imbalance"
      case HighTemperature => "High Temperature"
      case LowTemperature => "Low Temperature"
      case CriticalLowSoc => "Critical Low SOC"
      case OverCurrent => "Over Current"
    }

    /** The position of the check in the evaluation order. */
    function Rank(): nat {
      match this
      case PackOverVoltage => 0
      case PackUnderVoltage => 1
      case CellOverVoltage => 2
      case CellUnderVoltage => 3
      case CellImbalance => 4
      case HighTemperature => 5
      case LowTemperature => 6
      case CriticalLowSoc => 7
      case OverCurrent => 8
    }

    /** The quantity of the record the check looks at. */
    function Reading(d: BatteryData): real {
      match this
      case PackOverVoltage => d.voltage
      case PackUnderVoltage => d.voltage
      case CellOverVoltage => d.cellMax
      case CellUnderVoltage => d.cellMin
      case CellImbalance => d.cellDelta
      case HighTemperature => d.temperature
      case LowTemperature => d.temperature
      case CriticalLowSoc => d.soc
      case OverCurrent => Abs(d.current)
    }

    /** The limit the check compares against. */
    function Limit(t: Thresholds): real {
      match this
      case PackOverVoltage => t.packOvervoltage
      case PackUnderVoltage => t.packUndervoltage
      case CellOverVoltage => t.cellOvervoltage
      case CellUnderVoltage => t.cellUndervoltage
      case CellImbalance => t.cellImbalanceMv
      case HighTemperature => t.highTemp
      case LowTemperature => t.lowTemp
      case CriticalLowSoc => t.criticalSoc
      case OverCurrent => t.overcurrent
    }

    /** Whether the check fires above its limit (rather than below it). */
    predicate IsUpper() {
      match this
      case PackOverVoltage | CellOverVoltage | CellImbalance | HighTemperature | OverCurrent => true
      case _ => false
    }

    /** The check's strict comparison. */
    predicate Fires(t: Thresholds, d: BatteryData) {
      if IsUpper() then Reading(d) > Limit(t) else Reading(d) < Limit(t)
    }
  }

  /** The number of checks. */
  const CheckCount: nat := 9

  /** The check evaluated at position `i` of the fixed order. */
  function CheckAt(i: nat): (c: Check)
    requires i < CheckCount
    ensures c.Rank() == i
  {
    if i == 0 then PackOverVoltage
    else if i == 1 then PackUnderVoltage
    else if i == 2 then CellOverVoltage
    else if i == 3 then CellUnderVoltage
    else if i == 4 then CellImbalance
    else if i == 5 then HighTemperature
    else if i == 6 then LowTemperature
    else if i == 7 then CriticalLowSoc
    else OverCurrent
  }

  /** The checks among the first `k` of the order that fire, in order. */
  function Fired(t: Thresholds, d: BatteryData, k: nat): (r: seq<Check>)
    requires k <= CheckCount
    ensures |r| <= k
  {
    if k == 0 then []
    else
      var c := CheckAt(k - 1);
      Fired(t, d, k - 1) + if c.Fires(t, d) then [c] else []
  }

  function Labels(cs: seq<Check>): (r: seq<string>)
    ensures |r| == |cs| && forall i :: 0 <= i < |cs| ==> r[i] == cs[i].Label()
  {
    seq(|cs|, i requires 0 <= i < |cs| => cs[i].Label())
  }

  /** The labels of the checks among the first `k` that fire, in evaluation order. */
  function AlarmsUpTo(t: Thresholds, d: BatteryData, k: nat): seq<string>
    requires k <= CheckCount
  {
    if k == 0 then [] else AlarmsUpTo(t, d, k - 1) + Emit(CheckAt(k - 1), t, d)
  }

  /** The labels of the checks that fire, in evaluation order. */
  function Alarms(t: Thresholds, d: BatteryData): (r: seq<string>)
    ensures |r| <= CheckCount
  {
    AlarmsUpToLength(t, d, CheckCount);
    AlarmsUpTo(t, d, CheckCount)
  }

  /** The first `k` checks report at most `k` labels. */
  lemma {:induction false} AlarmsUpToLength(t: Thresholds, d: BatteryData, k: nat)
    requires k <= CheckCount
    ensures |AlarmsUpTo(t, d, k)| <= k
  {
    if k > 0 {
      AlarmsUpToLength(t, d, k - 1);
    }
  }

  /** The labels are those of the checks that fire. */
  lemma {:induction false} AlarmsAreLabelsOfFired(t: Thresholds, d: BatteryData, k: nat)
    requires k <= CheckCount
    ensures AlarmsUpTo(t, d, k) == Labels(Fired(t, d, k))
  {
    if k > 0 {
      AlarmsAreLabelsOfFired(t, d, k - 1);
      var c := CheckAt(k - 1);
      LabelsOfConcat(Fired(t, d, k - 1), if c.Fires(t, d) then [c] else []);
    }
  }

  /** `_check_alarms(data)`: one `if` per check, appending its label when the
      comparison holds. */
  method CheckAlarms(d: BatteryData) returns (alarms: seq<string>)
    ensures alarms == Alarms(AlarmThresholds, d)
  {
    var t := AlarmThresholds;
    alarms := [];
    assert alarms == AlarmsUpTo(t, d, 0);
    // Voltage alarms
    ghost var before1 := alarms;
    if d.voltage > t.packOvervoltage {
      alarms := alarms + ["Pack Over-Voltage"];
    }
    AlarmsUpToStep(t, d, 0, PackOverVoltage, d.voltage > t.packOvervoltage, before1, alarms);
    ghost var before2 := alarms;
    if d.voltage < t.packUndervoltage {
      alarms := alarms + ["Pack Under-Voltage"];
    }
    AlarmsUpToStep(t, d, 1, PackUnderVoltage, d.voltage < t.packUndervoltage, before2, alarms);
    // Cell voltage alarms
    ghost var before3 := alarms;
    if d.cellMax > t.cellOvervoltage {
      alarms := alarms + ["Cell Over-Voltage"];
    }
    AlarmsUpToStep(t, d, 2, CellOverVoltage, d.cellMax > t.cellOvervoltage, before3, alarms);
    ghost var before4 := alarms;
    if d.cellMin < t.cellUndervoltage {
      alarms := alarms + ["Cell Under-Voltage"];
    }
    AlarmsUpToStep(t, d, 3, CellUnderVoltage, d.cellMin < t.cellUndervoltage, before4, alarms);
    // Cell imbalance
    ghost var before5 := alarms;
    if d.cellDelta > t.cellImbalanceMv {
      alarms := alarms + ["Cell Imbalance"];
    }
    AlarmsUpToStep(t, d, 4, CellImbalance, d.cellDelta > t.cellImbalanceMv, before5, alarms);
    // Temperature alarms
    ghost var before6 := alarms;
    if d.temperature > t.highTemp {
      alarms := alarms + ["High Temperature"];
    }
    AlarmsUpToStep(t, d, 5, HighTemperature, d.temperature > t.highTemp, before6, alarms);
    ghost var before7 := alarms;
    if d.temperature < t.lowTemp {
      alarms := alarms + ["Low Temperature"];
    }
    AlarmsUpToStep(t, d, 6, LowTemperature, d.temperature < t.lowTemp, before7, alarms);
    // SOC alarms
    ghost var before8 := alarms;
    if d.soc < t.criticalSoc {
      alarms := alarms + ["Critical Low SOC"];
    }
    AlarmsUpToStep(t, d, 7, CriticalLowSoc, d.soc < t.criticalSoc, before8, alarms);
    // Current alarms
    ghost var before9 := alarms;
    if Abs(d.current) > t.overcurrent {
      alarms := alarms + ["Over Current"];
    }
    AlarmsUpToStep(t, d, 8, OverCurrent, Abs(d.current) > t.overcurrent, before9, alarms);
  }

  /** One more check: the list grows by the check's label exactly when it fires. */
  lemma AlarmsUpToStep(t: Thresholds, d: BatteryData, k: nat, c: Check, fired: bool, before: seq<string>, after: seq<string>)
    requires k < CheckCount && c == CheckAt(k) && before == AlarmsUpTo(t, d, k)
    requires fired == c.Fires(t, d)
    requires after == if fired then before + [c.Label()] else before
    ensures after == AlarmsUpTo(t, d, k + 1)
  {
  }

  /** The label a check contributes: its own when it fires, nothing otherwise. */
  function Emit(c: Check, t: Thresholds, d: BatteryData): seq<string> {
    if c.Fires(t, d) then [c.Label()] else []
  }

  lemma LabelsOfConcat(a: seq<Check>, b: seq<Check>)
    ensures Labels(a + b) == Labels(a) + Labels(b)
  {
  }

  /** A check is among those fired from the first `k` exactly when its position
      is below `k` and its comparison holds. */
  lemma {:induction false} FiredMembers(t: Thresholds, d: BatteryData, k: nat, c: Check)
    requires k <= CheckCount
    ensures c in Fired(t, d, k) <==> c.Rank() < k && c.Fires(t, d)
  {
    if k > 0 {
      FiredMembers(t, d, k - 1, c);
      if c.Rank() == k - 1 {
        CheckAtRank(c);
      }
    }
  }

  /** The check at a check's own position is that check. */
  lemma CheckAtRank(c: Check)
    ensures c.Rank() < CheckCount && CheckAt(c.Rank()) == c
  {
  }

  /** Every check of `r` is below position `k`, and positions strictly increase. */
  predicate RanksBelowAndIncreasing(r: seq<Check>, k: nat) {
    (forall i :: 0 <= i < |r| ==> r[i].Rank() < k)
    && forall i, j :: 0 <= i < j < |r| ==> r[i].Rank() < r[j].Rank()
  }

  /** The checks that fire come in strictly increasing position, all below `k`. */
  lemma {:induction false} FiredInOrder(t: Thresholds, d: BatteryData, k: nat)
    requires k <= CheckCount
    ensures RanksBelowAndIncreasing(Fired(t, d, k), k)
  {
    if k > 0 {
      FiredInOrder(t, d, k - 1);
      var p := Fired(t, d, k - 1);
      var c := CheckAt(k - 1);
      var r := Fired(t, d, k);
      assert r == p + if c.Fires(t, d) then [c] else [];
      assert forall i :: 0 <= i < |p| ==> p[i].Rank() < k - 1;
      forall i | 0 <= i < |r| ensures r[i].Rank() < k {
        if i < |p| {
          assert r[i] == p[i];
        } else {
          assert r[i] == c;
        }
      }
      forall i, j | 0 <= i < j < |r| ensures r[i].Rank() < r[j].Rank() {
        assert r[i] == p[i];
        if j < |p| {
          assert r[j] == p[j];
        } else {
          assert r[j] == c;
        }
      }
    }
  }

  lemma LabelInjective(a: Check, b: Check)
    ensures a.Label() == b.Label() ==> a == b
  {
  }

  /** Labels are reported exactly for the checks whose comparison holds. */
  lemma AlarmsExactly(t: Thresholds, d: BatteryData, c: Check)
    ensures c.Label() in Alarms(t, d) <==> c.Fires(t, d)
  {
    AlarmsAreLabelsOfFired(t, d, CheckCount);
    var f := Fired(t, d, CheckCount);
    FiredMembers(t, d, CheckCount, c);
    if c.Label() in Alarms(t, d) {
      var i :| 0 <= i < |f| && Alarms(t, d)[i] == c.Label();
      LabelInjective(f[i], c);
    }
  }

  /** Every reported label is the label of a check whose comparison holds. */
  lemma AlarmsAreLabels(t: Thresholds, d: BatteryData)
    ensures forall l :: l in Alarms(t, d) ==> exists c: Check :: c.Label() == l && c.Fires(t, d)
  {
    AlarmsAreLabelsOfFired(t, d, CheckCount);
    var f := Fired(t, d, CheckCount);
    forall l | l in Alarms(t, d) ensures exists c: Check :: c.Label() == l && c.Fires(t, d) {
      var i :| 0 <= i < |f| && Alarms(t, d)[i] == l;
      FiredMembers(t, d, CheckCount, f[i]);
      assert f[i].Label() == l;
    }
  }

  /** The labels come in the fixed evaluation order, so none is repeated and there
      are at most nine. */
  lemma AlarmsInOrder(t: Thresholds, d: BatteryData)
    ensures |Alarms(t, d)| <= 9
    ensures Alarms(t, d) == Labels(Fired(t, d, CheckCount))
    ensures RanksBelowAndIncreasing(Fired(t, d, CheckCount), CheckCount)
    ensures forall i, j :: 0 <= i < j < |Alarms(t, d)| ==> Alarms(t, d)[i] != Alarms(t, d)[j]
  {
    AlarmsAreLabelsOfFired(t, d, CheckCount);
    FiredInOrder(t, d, CheckCount);
    var f := Fired(t, d, CheckCount);
    forall i, j | 0 <= i < j < |f| ensures Alarms(t, d)[i] != Alarms(t, d)[j] {
      LabelInjective(f[i], f[j]);
      assert Alarms(t, d)[i] == f[i].Label() && Alarms(t, d)[j] == f[j].Label();
    }
  }

  /** A reading equal to its limit raises nothing: every comparison is strict. */
  lemma AtLimitRaisesNothing(t: Thresholds, d: BatteryData, c: Check)
    requires c.Reading(d) == c.Limit(t)
    ensures c.Label() !in Alarms(t, d)
  {
    AlarmsExactly(t, d, c);
  }

  /** With coherent limits the pack is never reported both over- and under-voltage,
      nor both too hot and too cold; the monitor's own limits are coherent. */
  lemma OppositeAlarmsExclusive(t: Thresholds, d: BatteryData)
    requires Coherent(t)
    ensures !("Pack Over-Voltage" in Alarms(t, d) && "Pack Under-Voltage" in Alarms(t, d))
    ensures !("High Temperature" in Alarms(t, d) && "Low Temperature" in Alarms(t, d))
  {
    AlarmsExactly(t, d, PackOverVoltage);
    AlarmsExactly(t, d, PackUnderVoltage);
    AlarmsExactly(t, d, HighTemperature);
    AlarmsExactly(t, d, LowTemperature);
  }

  lemma DefaultThresholdsCoherent()
    ensures Coherent(AlarmThresholds)
  {
  }

  /** A healthy pack: 53.0 V, 50 % charge, 25 degrees, cells between 3.30 V and 3.35 V
      (a 50 mV spread, at the imbalance limit), no current. */
  function Healthy(): BatteryData {
    Blank("", "", "").(voltage := 53.0, soc := 50.0, temperature := 25.0,
                       cellMin := 3.3, cellMax := 3.35, cellDelta := 50.0)
  }

  /** The healthy pack raises nothing, also with the pack voltage exactly at its upper limit. */
  lemma HealthyRaisesNothing()
    ensures Alarms(AlarmThresholds, Healthy()) == []
    ensures Alarms(AlarmThresholds, Healthy().(voltage := 57.6)) == []
  {
    var t := AlarmThresholds;
    var d := Healthy();
    assert AlarmsUpTo(t, d, 5) == [];
    assert AlarmsUpTo(t, d, 9) == [];
    d := Healthy().(voltage := 57.6);
    assert AlarmsUpTo(t, d, 5) == [];
    assert AlarmsUpTo(t, d, 9) == [];
  }

  /** A low charge alone raises exactly the critical-charge alarm, and an over-voltage
      pack alone exactly the pack over-voltage alarm. */
  lemma SingleFaults()
    ensures Alarms(AlarmThresholds, Healthy().(soc := 5.0)) == ["Critical Low SOC"]
    ensures Alarms(AlarmThresholds, Healthy().(voltage := 58.0)) == ["Pack Over-Voltage"]
  {
    var t := AlarmThresholds;
    var d := Healthy().(soc := 5.0);
    assert AlarmsUpTo(t, d, 5) == [];
    assert AlarmsUpTo(t, d, 9) == ["Critical Low SOC"];
    d := Healthy().(voltage := 58.0);
    assert AlarmsUpTo(t, d, 5) == ["Pack Over-Voltage"];
    assert AlarmsUpTo(t, d, 9) == ["Pack Over-Voltage"];
  }

  /** Three simultaneous faults are all reported, in evaluation order. */
  lemma CombinedFaults()
    ensures Alarms(AlarmThresholds, Healthy().(voltage := 58.0, cellMin := 2.4, soc := 5.0))
         == ["Pack Over-Voltage", "Cell Under-Voltage", "Critical Low SOC"]
  {
    var t := AlarmThresholds;
    var d := Healthy().(voltage := 58.0, cellMin := 2.4, soc := 5.0);
    assert AlarmsUpTo(t, d, 5) == ["Pack Over-Voltage", "Cell Under-Voltage"];
    assert AlarmsUpTo(t, d, 9) == ["Pack Over-Voltage", "Cell Under-Voltage", "Critical Low SOC"];
  }
}
