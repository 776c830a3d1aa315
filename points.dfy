/**
 * Converting a metric record into a time-series point: one "name" tag and one
 * field per attribute, leaving out attributes whose pointer is nil.
 */
module Points {
  import opened Wrappers
  import opened Fields

  datatype FieldValue = Float(r: real) | Bool(b: bool) | Text(s: string)

  /** One attribute of a record as the point builder sees it: a value, or a nil pointer. */
  datatype Attribute = Value(name: string, value: FieldValue) | NilPointer(name: string)

  datatype Point = Point(measurement: string, tags: map<string, string>, fields: map<string, FieldValue>, time: int)

  /**
   * The fields map built by visiting the attributes in order; a nil pointer is
   * skipped, and a later value for the same key overwrites an earlier one.
   */
  function FieldMap(attrs: seq<Attribute>): map<string, FieldValue> {
    if attrs == [] then map[]
    else
      var init := attrs[..|attrs| - 1];
      var last := attrs[|attrs| - 1];
      var m := FieldMap(init);
      match last
      case Value(name, v) => m[name := v]
      case NilPointer(_) => m
  }

  /**
   * The keys are exactly the names of the non-nil attributes, and a non-nil
   * attribute not followed by another of the same name is stored with its value.
   */
  lemma {:induction false} FieldMapContents(attrs: seq<Attribute>)
    ensures FieldMap(attrs).Keys == set i | 0 <= i < |attrs| && attrs[i].Value? :: attrs[i].name
    ensures forall i :: 0 <= i < |attrs| && attrs[i].Value? &&
                        (forall j :: i < j < |attrs| ==> attrs[j].name != attrs[i].name) ==>
                          FieldMap(attrs)[attrs[i].name] == attrs[i].value
  {
    if attrs != [] {
      var init := attrs[..|attrs| - 1];
      var last := attrs[|attrs| - 1];
      FieldMapContents(init);
      assert forall i :: 0 <= i < |attrs| - 1 ==> attrs[i] == init[i];
      var names := set i | 0 <= i < |attrs| && attrs[i].Value? :: attrs[i].name;
      var before := set i | 0 <= i < |init| && init[i].Value? :: init[i].name;
      assert names == before + (if last.Value? then {last.name} else {}) by {
        forall x | x in names ensures x in before + (if last.Value? then {last.name} else {}) {
          var i :| 0 <= i < |attrs| && attrs[i].Value? && attrs[i].name == x;
          if i < |attrs| - 1 { assert init[i].Value? && init[i].name == x; }
        }
        forall x | x in before ensures x in names {
          var i :| 0 <= i < |init| && init[i].Value? && init[i].name == x;
          assert attrs[i].Value? && attrs[i].name == x;
        }
        if last.Value? {
          assert attrs[|attrs| - 1].Value? && attrs[|attrs| - 1].name == last.name;
        }
      }
    }
  }

  /** A point of `measurement` tagged with `name`, with the non-nil attributes as fields. */
  function FieldsToPoint(attrs: seq<Attribute>, now: int, name: string, measurement: string): (p: Point)
    ensures p.tags.Keys == {"name"} && p.tags["name"] == name
    ensures p.measurement == measurement && p.time == now
    ensures p.fields.Keys == set i | 0 <= i < |attrs| && attrs[i].Value? :: attrs[i].name
    ensures p.fields == FieldMap(attrs)
  {
    FieldMapContents(attrs);
    Point(measurement, map["name" := name], FieldMap(attrs), now)
  }

  /** The attributes of a sensor record, in declaration order. */
  function SensorAttributes(f: SensorFields): (a: seq<Attribute>)
    ensures |a| == 3 && a[0].name == "Temperature" && a[1].name == "Occupancy" && a[2].name == "Humidity"
    ensures a[0] == Value("Temperature", Float(f.temperature)) && a[1] == Value("Occupancy", Bool(f.occupancy))
    ensures a[2].NilPointer? <==> f.humidity.None?
    ensures f.humidity.Some? ==> a[2].value == Float(f.humidity.value)
  {
    [Value("Temperature", Float(f.temperature)),
     Value("Occupancy", Bool(f.occupancy)),
     match f.humidity
     case Some(h) => Value("Humidity", Float(h))
     case None => NilPointer("Humidity")]
  }

  /** The attributes of a thermostat record, in declaration order. */
  function ThermostatAttributes(f: ThermostatFields): (a: seq<Attribute>)
    ensures |a| == 14
    ensures a[3] == Value("EquipmentStatus", Text(f.equipmentStatus)) && a[13] == Value("Idle", Bool(f.idle))
  {
    [Value("CoolingSetpoint", Float(f.coolingSetpoint)),
     Value("HeatingSetpoint", Float(f.heatingSetpoint)),
     Value("Program", Text(f.program)),
     Value("EquipmentStatus", Text(f.equipmentStatus)),
     Value("Heat1", Bool(f.heat1)),
     Value("Heat2", Bool(f.heat2)),
     Value("Heat3", Bool(f.heat3)),
     Value("Cool1", Bool(f.cool1)),
     Value("Cool2", Bool(f.cool2)),
     Value("AuxHeat1", Bool(f.auxHeat1)),
     Value("AuxHeat2", Bool(f.auxHeat2)),
     Value("AuxHeat3", Bool(f.auxHeat3)),
     Value("Fan", Bool(f.fan)),
     Value("Idle", Bool(f.idle))]
  }

  /** Extending a prefix by one attribute stores its value under its name, or changes nothing for a nil pointer. */
  lemma FieldMapPrefix(attrs: seq<Attribute>, k: nat)
    requires k < |attrs|
    ensures FieldMap(attrs[..k + 1]) ==
      if attrs[k].Value? then FieldMap(attrs[..k])[attrs[k].name := attrs[k].value] else FieldMap(attrs[..k])
  {
    assert attrs[..k + 1][..k] == attrs[..k];
  }

  /** A sensor's point: temperature and occupancy always, humidity only when present. */
  lemma SensorPointFields(f: SensorFields, now: int, name: string, measurement: string)
    ensures var p := FieldsToPoint(SensorAttributes(f), now, name, measurement);
      && p.fields.Keys == {"Temperature", "Occupancy"} + (if f.humidity.Some? then {"Humidity"} else {})
      && p.fields["Temperature"] == Float(f.temperature)
      && p.fields["Occupancy"] == Bool(f.occupancy)
      && (f.humidity.Some? ==> p.fields["Humidity"] == Float(f.humidity.value))
  {
    var a := SensorAttributes(f);
    assert FieldMap(a[..0]) == map[];
    FieldMapPrefix(a, 0);
    FieldMapPrefix(a, 1);
    FieldMapPrefix(a, 2);
    assert a[..3] == a;
  }

  /** The setpoints, program and label fill the map first. */
  lemma ThermostatFieldsUpToLabel(f: ThermostatFields)
    ensures FieldMap(ThermostatAttributes(f)[..4]) ==
      map["CoolingSetpoint" := Float(f.coolingSetpoint),
          "HeatingSetpoint" := Float(f.heatingSetpoint), "Program" := Text(f.program),
          "EquipmentStatus" := Text(f.equipmentStatus)]
  {
    var a := ThermostatAttributes(f);
    var m: map<string, FieldValue> := map[];
    assert FieldMap(a[..0]) == m;
    m := m["CoolingSetpoint" := Float(f.coolingSetpoint)];
    assert FieldMap(a[..1]) == m by { FieldMapPrefix(a, 0); }
    m := m["HeatingSetpoint" := Float(f.heatingSetpoint)];
    assert FieldMap(a[..2]) == m by { FieldMapPrefix(a, 1); }
    m := m["Program" := Text(f.program)];
    assert FieldMap(a[..3]) == m by { FieldMapPrefix(a, 2); }
    m := m["EquipmentStatus" := Text(f.equipmentStatus)];
    assert FieldMap(a[..4]) == m by { FieldMapPrefix(a, 3); }
  }

  /** The heat and cool stage flags follow. */
  lemma ThermostatFieldsUpToCool(f: ThermostatFields)
    ensures FieldMap(ThermostatAttributes(f)[..9]) ==
      map["CoolingSetpoint" := Float(f.coolingSetpoint),
          "HeatingSetpoint" := Float(f.heatingSetpoint), "Program" := Text(f.program),
          "EquipmentStatus" := Text(f.equipmentStatus), "Heat1" := Bool(f.heat1),
          "Heat2" := Bool(f.heat2), "Heat3" := Bool(f.heat3), "Cool1" := Bool(f.cool1),
          "Cool2" := Bool(f.cool2)]
  {
    var a := ThermostatAttributes(f);
    ThermostatFieldsUpToLabel(f);
    var m := map["CoolingSetpoint" := Float(f.coolingSetpoint),
               "HeatingSetpoint" := Float(f.heatingSetpoint), "Program" := Text(f.program),
               "EquipmentStatus" := Text(f.equipmentStatus)];
    m := m["Heat1" := Bool(f.heat1)];
    assert FieldMap(a[..5]) == m by { FieldMapPrefix(a, 4); }
    m := m["Heat2" := Bool(f.heat2)];
    assert FieldMap(a[..6]) == m by { FieldMapPrefix(a, 5); }
    m := m["Heat3" := Bool(f.heat3)];
    assert FieldMap(a[..7]) == m by { FieldMapPrefix(a, 6); }
    m := m["Cool1" := Bool(f.cool1)];
    assert FieldMap(a[..8]) == m by { FieldMapPrefix(a, 7); }
    m := m["Cool2" := Bool(f.cool2)];
    assert FieldMap(a[..9]) == m by { FieldMapPrefix(a, 8); }
  }

  /** A thermostat record has no pointer attributes, so its point carries all fourteen fields with their values. */
  lemma ThermostatPointFields(f: ThermostatFields, now: int, name: string, measurement: string)
    ensures FieldsToPoint(ThermostatAttributes(f), now, name, measurement).fields ==
      map["CoolingSetpoint" := Float(f.coolingSetpoint),
          "HeatingSetpoint" := Float(f.heatingSetpoint), "Program" := Text(f.program),
          "EquipmentStatus" := Text(f.equipmentStatus), "Heat1" := Bool(f.heat1),
          "Heat2" := Bool(f.heat2), "Heat3" := Bool(f.heat3), "Cool1" := Bool(f.cool1),
          "Cool2" := Bool(f.cool2), "AuxHeat1" := Bool(f.auxHeat1),
          "AuxHeat2" := Bool(f.auxHeat2), "AuxHeat3" := Bool(f.auxHeat3),
          "Fan" := Bool(f.fan), "Idle" := Bool(f.idle)]
  {
    var a := ThermostatAttributes(f);
    ThermostatFieldsUpToCool(f);
    var m := map["CoolingSetpoint" := Float(f.coolingSetpoint),
               "HeatingSetpoint" := Float(f.heatingSetpoint), "Program" := Text(f.program),
               "EquipmentStatus" := Text(f.equipmentStatus), "Heat1" := Bool(f.heat1),
               "Heat2" := Bool(f.heat2), "Heat3" := Bool(f.heat3), "Cool1" := Bool(f.cool1),
               "Cool2" := Bool(f.cool2)];
    m := m["AuxHeat1" := Bool(f.auxHeat1)];
    assert FieldMap(a[..10]) == m by { FieldMapPrefix(a, 9); }
    m := m["AuxHeat2" := Bool(f.auxHeat2)];
    assert FieldMap(a[..11]) == m by { FieldMapPrefix(a, 10); }
    m := m["AuxHeat3" := Bool(f.auxHeat3)];
    assert FieldMap(a[..12]) == m by { FieldMapPrefix(a, 11); }
    m := m["Fan" := Bool(f.fan)];
    assert FieldMap(a[..13]) == m by { FieldMapPrefix(a, 12); }
    m := m["Idle" := Bool(f.idle)];
    assert FieldMap(a[..14]) == m by { FieldMapPrefix(a, 13); }
    assert a[..14] == a;
  }
}
