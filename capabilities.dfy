/**
 * Building one remote sensor's record from its capability list: each capability
 * is visited in order and may overwrite the temperature, set occupancy, supply a
 * humidity reading, and (re)assign the sensor's display name.
 */
module Capabilities {
  import opened Wrappers
  import Ecobee
  import opened Fields

  /**
   * Number parsing is outside the model: `parse` stands for the decimal parser,
   * None meaning the text is malformed.
   */
  type Parser = string -> Option<real>

  function Last<T>(s: seq<T>): T
    requires s != []
  {
    s[|s| - 1]
  }

  function Init<T>(s: seq<T>): seq<T>
    requires s != []
  {
    s[..|s| - 1]
  }

  /**
   * The temperature one "temperature" capability yields: the parsed value in
   * degrees, or 0 when parsing failed (the parser's result for malformed text,
   * left unscaled).
   */
  function Reading(parsed: Option<real>): real {
    match parsed
    case Some(v) => v / 10.0
    case None => 0.0
  }

  predicate IsTemperature(c: Ecobee.Capability) { c.capType == "temperature" }

  predicate IsOccupied(c: Ecobee.Capability) { c.capType == "occupancy" && c.value == "true" }

  predicate IsParsedHumidity(c: Ecobee.Capability, parse: Parser) {
    c.capType == "humidity" && parse(c.value).Some?
  }

  /** The temperature after the scan of `caps`: set by every temperature capability. */
  function ScannedTemperature(caps: seq<Ecobee.Capability>, parse: Parser): real {
    if caps == [] then 0.0
    else if IsTemperature(Last(caps)) then Reading(parse(Last(caps).value))
    else ScannedTemperature(Init(caps), parse)
  }

  /** The occupancy after the scan of `caps`: set by an occupancy capability reading "true", never cleared. */
  function ScannedOccupancy(caps: seq<Ecobee.Capability>): bool {
    if caps == [] then false
    else IsOccupied(Last(caps)) || ScannedOccupancy(Init(caps))
  }

  /** The humidity after the scan of `caps`: set by every humidity capability that parses. */
  function ScannedHumidity(caps: seq<Ecobee.Capability>, parse: Parser): Option<real> {
    if caps == [] then None
    else if IsParsedHumidity(Last(caps), parse) then parse(Last(caps).value)
    else ScannedHumidity(Init(caps), parse)
  }

  /** The display name that one pass of the scan's body assigns, chosen by the id's prefix. */
  function PrefixName(s: Ecobee.RemoteSensor): (name: string)
    ensures "rs:" <= s.id ==> name == "EcobeeSensor: " + s.name + " (" + s.code + ")"
    ensures "ei:" <= s.id ==> name == "EcobeeSensor: " + s.name + " (Thermostat)"
    ensures !("rs:" <= s.id) && !("ei:" <= s.id) ==> name == ""
  {
    assert "ei:" <= s.id ==> s.id[0] == "ei:"[0] != "rs:"[0];
    if "ei:" <= s.id then "EcobeeSensor: " + s.name + " (Thermostat)"
    else if "rs:" <= s.id then "EcobeeSensor: " + s.name + " (" + s.code + ")"
    else ""
  }

  /**
   * The sensor's display name: the name is assigned inside the capability loop,
   * so a sensor without capabilities keeps the empty name.
   */
  function SensorName(s: Ecobee.RemoteSensor): (name: string)
    ensures s.capability == [] ==> name == ""
    ensures s.capability != [] ==> name == PrefixName(s)
  {
    if s.capability == [] then "" else PrefixName(s)
  }

  /** The record of one remote sensor, as the scan of its capabilities leaves it. */
  function RemoteSensorOf(s: Ecobee.RemoteSensor, parse: Parser): Sensor {
    Sensor(SensorName(s), SensorFields(
      ScannedTemperature(s.capability, parse),
      ScannedOccupancy(s.capability),
      ScannedHumidity(s.capability, parse)))
  }

  /** Scans one remote sensor's capabilities in order and builds its record. */
  method BuildSensor(s: Ecobee.RemoteSensor, parse: Parser) returns (sensor: Sensor)
    ensures sensor.name == SensorName(s)
    ensures sensor.fields.temperature == ScannedTemperature(s.capability, parse)
    ensures sensor.fields.occupancy == ScannedOccupancy(s.capability)
    ensures sensor.fields.humidity == ScannedHumidity(s.capability, parse)
  {
    var caps := s.capability;
    var temp := 0.0;
    var occ := false;
    var hum: Option<real> := None;
    var name := "";
    var i := 0;
    while i < |caps|
      invariant 0 <= i <= |caps|
      invariant temp == ScannedTemperature(caps[..i], parse)
      invariant occ == ScannedOccupancy(caps[..i])
      invariant hum == ScannedHumidity(caps[..i], parse)
      invariant name == if i == 0 then "" else PrefixName(s)
    {
      var c := caps[i];
      if c.capType == "temperature" {
        match parse(c.value)
        case Some(v) => temp := v / 10.0;
        case None => temp := 0.0;
      }
      if c.capType == "occupancy" {
        if c.value == "true" {
          occ := true;
        }
      }
      if c.capType == "humidity" {
        var h := parse(c.value);
        if h.Some? {
          hum := Some(h.value);
        }
      }
      if "rs:" <= s.id {
        name := "EcobeeSensor: " + s.name + " (" + s.code + ")";
      }
      if "ei:" <= s.id {
        name := "EcobeeSensor: " + s.name + " (Thermostat)";
      }
      assert Init(caps[..i + 1]) == caps[..i];
      i := i + 1;
    }
    assert caps[..i] == caps;
    sensor := Sensor(name, SensorFields(temp, occ, hum));
  }

  /** Occupancy holds exactly when some occupancy capability reads "true". */
  lemma {:induction false} OccupancyIffSomeTrue(caps: seq<Ecobee.Capability>)
    ensures ScannedOccupancy(caps) <==> exists i :: 0 <= i < |caps| && IsOccupied(caps[i])
  {
    if caps != [] {
      OccupancyIffSomeTrue(Init(caps));
      if IsOccupied(Last(caps)) {
        assert IsOccupied(caps[|caps| - 1]);
      } else if ScannedOccupancy(Init(caps)) {
        var i :| 0 <= i < |caps| - 1 && IsOccupied(Init(caps)[i]);
        assert IsOccupied(caps[i]);
      } else {
        forall i | 0 <= i < |caps| ensures !IsOccupied(caps[i]) {
          if i < |caps| - 1 { assert caps[i] == Init(caps)[i]; }
        }
      }
    }
  }

  /** Once occupancy is set, later capabilities never clear it. */
  lemma OccupancySticky(caps: seq<Ecobee.Capability>, more: seq<Ecobee.Capability>)
    requires ScannedOccupancy(caps)
    ensures ScannedOccupancy(caps + more)
  {
    OccupancyIffSomeTrue(caps);
    OccupancyIffSomeTrue(caps + more);
    var i :| 0 <= i < |caps| && IsOccupied(caps[i]);
    assert (caps + more)[i] == caps[i];
  }

  /** Without a temperature capability the temperature stays 0. */
  lemma {:induction false} TemperatureWithoutCapability(caps: seq<Ecobee.Capability>, parse: Parser)
    requires forall i :: 0 <= i < |caps| ==> !IsTemperature(caps[i])
    ensures ScannedTemperature(caps, parse) == 0.0
  {
    if caps != [] {
      assert !IsTemperature(caps[|caps| - 1]);
      forall i | 0 <= i < |caps| - 1 ensures !IsTemperature(Init(caps)[i]) {
        assert Init(caps)[i] == caps[i];
      }
      TemperatureWithoutCapability(Init(caps), parse);
    }
  }

  /** The temperature is the reading of the last temperature capability. */
  lemma {:induction false} TemperatureOfLast(caps: seq<Ecobee.Capability>, parse: Parser, k: nat)
    requires k < |caps| && IsTemperature(caps[k])
    requires forall j :: k < j < |caps| ==> !IsTemperature(caps[j])
    ensures ScannedTemperature(caps, parse) == Reading(parse(caps[k].value))
  {
    if k < |caps| - 1 {
      assert !IsTemperature(caps[|caps| - 1]);
      forall j | k < j < |caps| - 1 ensures !IsTemperature(Init(caps)[j]) {
        assert Init(caps)[j] == caps[j];
      }
      TemperatureOfLast(Init(caps), parse, k);
    }
  }

  /** A humidity is present exactly when some humidity capability parsed. */
  lemma {:induction false} HumidityPresentIff(caps: seq<Ecobee.Capability>, parse: Parser)
    ensures ScannedHumidity(caps, parse).Some? <==> exists i :: 0 <= i < |caps| && IsParsedHumidity(caps[i], parse)
  {
    if caps != [] {
      HumidityPresentIff(Init(caps), parse);
      if IsParsedHumidity(Last(caps), parse) {
        assert IsParsedHumidity(caps[|caps| - 1], parse);
      } else if ScannedHumidity(Init(caps), parse).Some? {
        var i :| 0 <= i < |caps| - 1 && IsParsedHumidity(Init(caps)[i], parse);
        assert IsParsedHumidity(caps[i], parse);
      } else {
        forall i | 0 <= i < |caps| ensures !IsParsedHumidity(caps[i], parse) {
          if i < |caps| - 1 { assert caps[i] == Init(caps)[i]; }
        }
      }
    }
  }

  /**
   * The humidity is the raw parsed value (not divided by 10) of the last
   * humidity capability that parsed.
   */
  lemma {:induction false} HumidityOfLastParsed(caps: seq<Ecobee.Capability>, parse: Parser, k: nat)
    requires k < |caps| && IsParsedHumidity(caps[k], parse)
    requires forall j :: k < j < |caps| ==> !IsParsedHumidity(caps[j], parse)
    ensures ScannedHumidity(caps, parse) == parse(caps[k].value)
  {
    if k < |caps| - 1 {
      assert !IsParsedHumidity(caps[|caps| - 1], parse);
      forall j | k < j < |caps| - 1 ensures !IsParsedHumidity(Init(caps)[j], parse) {
        assert Init(caps)[j] == caps[j];
      }
      HumidityOfLastParsed(Init(caps), parse, k);
    }
  }
}
