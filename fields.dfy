/**
 * The metric records the exporter builds each poll, and the pure helpers that
 * derive thermostat state from the vendor's records: the equipment label, the
 * active program and the "any sensor occupied" check.
 */
module Fields {
  import opened Wrappers
  import Ecobee

  /** The thermostat's metric record; setpoints in degrees. */
  datatype ThermostatFields = ThermostatFields(
    coolingSetpoint: real, heatingSetpoint: real,
    program: string, equipmentStatus: string,
    heat1: bool, heat2: bool, heat3: bool,
    cool1: bool, cool2: bool,
    auxHeat1: bool, auxHeat2: bool, auxHeat3: bool,
    fan: bool, idle: bool)

  /** A sensor's metric record; a humidity of None is Go's nil pointer. */
  datatype SensorFields = SensorFields(temperature: real, occupancy: bool, humidity: Option<real>)

  datatype Sensor = Sensor(name: string, fields: SensorFields)

  /** Go's zero value of a Sensor: the content of a fresh slot of the sensors slice. */
  const ZeroSensor := Sensor("", SensorFields(0.0, false, None))

  /** The activity flags in the order the equipment label checks them. */
  function Flags(st: Ecobee.EquipmentStatus): (flags: seq<bool>)
    ensures |flags| == 9
  {
    [st.heatPump, st.heatPump2, st.heatPump3, st.compCool1, st.compCool2,
     st.auxHeat1, st.auxHeat2, st.auxHeat3, st.fan]
  }

  /** The label reported for each flag of Flags, position by position. */
  const Labels: seq<string> := ["Heat1", "Heat2", "Heat3", "Cool1", "Cool2", "Aux1", "Aux2", "Aux3", "Fan"]

  /** No activity flag is set. */
  predicate AllOff(st: Ecobee.EquipmentStatus) {
    forall k :: 0 <= k < 9 ==> !Flags(st)[k]
  }

  /** The text label of the equipment state; see EquipmentStatusPriority and IdleLabelIffAllOff. */
  function EquipmentStatus(st: Ecobee.EquipmentStatus): (text: string)
    ensures text in Labels || text == "Idle"
  {
    if st.heatPump then "Heat1"
    else if st.heatPump2 then "Heat2"
    else if st.heatPump3 then "Heat3"
    else if st.compCool1 then "Cool1"
    else if st.compCool2 then "Cool2"
    else if st.auxHeat1 then "Aux1"
    else if st.auxHeat2 then "Aux2"
    else if st.auxHeat3 then "Aux3"
    else if st.fan then "Fan"
    else "Idle"
  }

  /** When flag k is the first active one in priority order, the label is the k-th label. */
  lemma EquipmentStatusPriority(st: Ecobee.EquipmentStatus, k: nat)
    requires k < 9 && Flags(st)[k]
    requires forall j :: 0 <= j < k ==> !Flags(st)[j]
    ensures EquipmentStatus(st) == Labels[k]
  {
    var flags := Flags(st);
    if k >= 1 { assert !flags[0]; }
    if k >= 2 { assert !flags[1]; }
    if k >= 3 { assert !flags[2]; }
    if k >= 4 { assert !flags[3]; }
    if k >= 5 { assert !flags[4]; }
    if k >= 6 { assert !flags[5]; }
    if k >= 7 { assert !flags[6]; }
    if k >= 8 { assert !flags[7]; }
  }

  /** The label is "Idle" exactly when no activity flag is set. */
  lemma IdleLabelIffAllOff(st: Ecobee.EquipmentStatus)
    ensures EquipmentStatus(st) == "Idle" <==> AllOff(st)
  {
    var flags := Flags(st);
    if !AllOff(st) {
      var k :| 0 <= k < 9 && flags[k];
      assert EquipmentStatus(st) != "Idle" by {
        assert "Aux1"[0] != "Idle"[0] && "Aux2"[0] != "Idle"[0] && "Aux3"[0] != "Idle"[0];
      }
    } else {
      assert !flags[0] && !flags[1] && !flags[2] && !flags[3] && !flags[4];
      assert !flags[5] && !flags[6] && !flags[7] && !flags[8];
    }
  }

  /** A setpoint in degrees from the vendor's tenths of a degree. */
  function Degrees(tenths: int): (d: real)
    ensures d * 10.0 == tenths as real
  {
    tenths as real / 10.0
  }

  /** The thermostat record built from the full record and the summary's flags. */
  function ThermostatFieldsOf(t: Ecobee.Thermostat, s: Ecobee.ThermostatSummary): (r: ThermostatFields)
    ensures r.coolingSetpoint * 10.0 == t.runtime.desiredCool as real
    ensures r.heatingSetpoint * 10.0 == t.runtime.desiredHeat as real
    ensures r.program == Program(t)
    ensures r.equipmentStatus == EquipmentStatus(s.equipmentStatus)
    ensures [r.heat1, r.heat2, r.heat3, r.cool1, r.cool2, r.auxHeat1, r.auxHeat2, r.auxHeat3, r.fan]
         == Flags(s.equipmentStatus)
    ensures r.idle <==> AllOff(s.equipmentStatus)
    ensures r.idle <==> r.equipmentStatus == "Idle"
  {
    IdleLabelIffAllOff(s.equipmentStatus);
    var st := s.equipmentStatus;
    ThermostatFields(
      coolingSetpoint := Degrees(t.runtime.desiredCool),
      heatingSetpoint := Degrees(t.runtime.desiredHeat),
      program := Program(t),
      equipmentStatus := EquipmentStatus(st),
      heat1 := st.heatPump, heat2 := st.heatPump2, heat3 := st.heatPump3,
      cool1 := st.compCool1, cool2 := st.compCool2,
      auxHeat1 := st.auxHeat1, auxHeat2 := st.auxHeat2, auxHeat3 := st.auxHeat3,
      fan := st.fan,
      idle := !st.heatPump && !st.heatPump2 && !st.heatPump3 && !st.compCool1 && !st.compCool2 &&
              !st.auxHeat1 && !st.auxHeat2 && !st.auxHeat3 && !st.fan)
  }

  /** A running vacation or hold event overrides the configured climate. */
  predicate IsOverride(e: Ecobee.Event) {
    e.running && (e.eventType == "vacation" || e.eventType == "hold")
  }

  /**
   * The type of the first overriding event in list order, or the fallback when
   * there is none.
   */
  function FirstOverride(events: seq<Ecobee.Event>, fallback: string): (p: string)
    ensures (forall i :: 0 <= i < |events| ==> !IsOverride(events[i])) ==> p == fallback
    ensures forall i :: 0 <= i < |events| && IsOverride(events[i]) &&
                        (forall j :: 0 <= j < i ==> !IsOverride(events[j])) ==>
                          p == events[i].eventType
  {
    if events == [] then fallback
    else if IsOverride(events[0]) then events[0].eventType
    else FirstOverride(events[1..], fallback)
  }

  /** The active program: a running vacation or hold, else the current climate. */
  function Program(t: Ecobee.Thermostat): (p: string)
    ensures (forall i :: 0 <= i < |t.events| ==> !IsOverride(t.events[i])) ==> p == t.program.currentClimateRef
    ensures forall i :: 0 <= i < |t.events| && IsOverride(t.events[i]) &&
                        (forall j :: 0 <= j < i ==> !IsOverride(t.events[j])) ==>
                          p == t.events[i].eventType
  {
    FirstOverride(t.events, t.program.currentClimateRef)
  }

  /** Whether any sensor of the list reports occupancy. */
  function AllOccupancy(sensors: seq<Sensor>): (r: bool)
    ensures r <==> exists i :: 0 <= i < |sensors| && sensors[i].fields.occupancy
  {
    if sensors == [] then false
    else sensors[0].fields.occupancy || AllOccupancy(sensors[1..])
  }
}
