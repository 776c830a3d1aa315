/**
 * One poll cycle: fetch the summary and the thermostat, build the thermostat
 * record and one record per sensor, turn them into points, submit the batch, and
 * remember the summary's revision for the next cycle's log message.
 */
module Poll {
  import opened Wrappers
  import Ecobee
  import opened Fields
  import opened Capabilities
  import opened Points

  /** The configured measurement names. */
  datatype Measurements = Measurements(thermostat: string, sensor: string)

  /** How a cycle ended. `updated` selects the "updated data" log line over "No Update". */
  datatype Outcome =
    | SummaryFailed(error: string)
    | ThermostatFailed(error: string)
    | NoThermostat
    | Polled(updated: bool, batch: seq<Point>, writeFailed: bool)

  /** The summary for `id`; a missing id reads as Go's zero value. */
  function SummaryFor(summaries: map<string, Ecobee.ThermostatSummary>, id: string): (s: Ecobee.ThermostatSummary)
    ensures id !in summaries ==> s.runtimeRevision == "" && AllOff(s.equipmentStatus)
    ensures id in summaries ==> s == summaries[id]
  {
    if id in summaries then summaries[id] else Ecobee.ZeroSummary
  }

  /** The records of the remote sensors, in input order. */
  function RemoteSensors(t: Ecobee.Thermostat, parse: Parser): (ss: seq<Sensor>)
    ensures |ss| == |t.remoteSensors|
    ensures forall i :: 0 <= i < |ss| ==> ss[i] == RemoteSensorOf(t.remoteSensors[i], parse)
  {
    seq(|t.remoteSensors|, i requires 0 <= i < |t.remoteSensors| => RemoteSensorOf(t.remoteSensors[i], parse))
  }

  /** The synthetic sensor standing for the thermostat itself. */
  function ThermSensor(t: Ecobee.Thermostat, remote: seq<Sensor>): (sensor: Sensor)
    ensures sensor.name == "EcobeeTherm: " + t.name
    ensures sensor.fields.temperature * 10.0 == t.runtime.actualTemperature as real
    ensures sensor.fields.humidity == None
    ensures sensor.fields.occupancy <==> exists i :: 0 <= i < |remote| && remote[i].fields.occupancy
  {
    Sensor("EcobeeTherm: " + t.name,
           SensorFields(Degrees(t.runtime.actualTemperature), AllOccupancy(remote), None))
  }

  /** All sensor records: the remote ones in order, then the thermostat's own. */
  function Sensors(t: Ecobee.Thermostat, parse: Parser): seq<Sensor> {
    var remote := RemoteSensors(t, parse);
    remote + [ThermSensor(t, remote)]
  }

  function SensorPoint(s: Sensor, now: int, meas: Measurements): Point {
    FieldsToPoint(SensorAttributes(s.fields), now, s.name, meas.sensor)
  }

  function ThermostatPoint(t: Ecobee.Thermostat, s: Ecobee.ThermostatSummary, now: int, meas: Measurements): Point {
    FieldsToPoint(ThermostatAttributes(ThermostatFieldsOf(t, s)), now, t.name, meas.thermostat)
  }

  /** The batch a successful cycle submits: one point per sensor, then the thermostat's. */
  function Batch(t: Ecobee.Thermostat, s: Ecobee.ThermostatSummary, parse: Parser, now: int, meas: Measurements): seq<Point> {
    var ss := Sensors(t, parse);
    seq(|ss|, i requires 0 <= i < |ss| => SensorPoint(ss[i], now, meas)) + [ThermostatPoint(t, s, now, meas)]
  }

  /** The process state kept across cycles. */
  class Exporter {
    /** The revision seen by the last cycle that fetched both records. */
    var lastRevision: string

    constructor ()
      ensures lastRevision == ""
    {
      lastRevision := "";
    }

    /**
     * One poll cycle. The fetches and the sink's answer are inputs: `summaries`
     * and `thermostats` are the two vendor calls' results, `writeOk` the sink's
     * answer to the batch, `now` the time taken at the start of the cycle.
     */
    method Run(summaries: Result<map<string, Ecobee.ThermostatSummary>>,
               thermostats: Result<seq<Ecobee.Thermostat>>,
               id: string, parse: Parser, now: int, meas: Measurements, writeOk: bool)
      returns (outcome: Outcome)
      modifies this
      ensures summaries.Err? ==> outcome == SummaryFailed(summaries.error) && lastRevision == old(lastRevision)
      ensures summaries.Ok? && thermostats.Err? ==>
        outcome == ThermostatFailed(thermostats.error) && lastRevision == old(lastRevision)
      ensures summaries.Ok? && thermostats.Ok? && thermostats.value == [] ==>
        outcome == NoThermostat && lastRevision == old(lastRevision)
      ensures summaries.Ok? && thermostats.Ok? && thermostats.value != [] ==>
        var s := SummaryFor(summaries.value, id);
        var t := thermostats.value[0];
        && outcome == Polled(s.runtimeRevision != old(lastRevision), Batch(t, s, parse, now, meas), !writeOk)
        && lastRevision == s.runtimeRevision
    {
      if summaries.Err? {
        return SummaryFailed(summaries.error);
      }
      var s := SummaryFor(summaries.value, id);
      if thermostats.Err? {
        return ThermostatFailed(thermostats.error);
      }
      if thermostats.value == [] {
        // indexing an empty list: the cycle stops before any record is built
        return NoThermostat;
      }
      var t := thermostats.value[0];
      var updated := s.runtimeRevision != lastRevision;
      var therm := ThermostatFieldsOf(t, s);

      var sensors := BuildSensors(t, parse);
      var points := BuildPoints(sensors, t, therm, now, meas);
      BatchOfBuiltPoints(points, t, s, parse, now, meas);
      lastRevision := s.runtimeRevision;
      outcome := Polled(updated, points, !writeOk);
    }
  }

  /**
   * Fills a slice with one slot per remote sensor plus one for the thermostat,
   * the remote sensors by index, then the thermostat's slot last.
   */
  method BuildSensors(t: Ecobee.Thermostat, parse: Parser) returns (all: seq<Sensor>)
    ensures all == Sensors(t, parse)
  {
    var rs := t.remoteSensors;
    var sensors := new Sensor[|rs| + 1](_ => ZeroSensor);
    var i := 0;
    while i < |rs|
      invariant 0 <= i <= |rs|
      invariant forall j :: 0 <= j < i ==> sensors[j] == RemoteSensorOf(rs[j], parse)
      invariant forall j :: i <= j < sensors.Length ==> sensors[j] == ZeroSensor
    {
      var sensor := BuildSensor(rs[i], parse);
      sensors[i] := sensor;
      i := i + 1;
    }
    // the thermostat's occupancy is computed while its own slot still holds the zero value
    var remote := RemoteSensors(t, parse);
    assert sensors[..] == remote + [ZeroSensor];
    OccupancyIgnoresZeroSensor(remote);
    var thermSensor := Sensor("EcobeeTherm: " + t.name,
                              SensorFields(Degrees(t.runtime.actualTemperature), AllOccupancy(sensors[..]), None));
    sensors[sensors.Length - 1] := thermSensor;
    all := sensors[..];
    assert all == remote + [thermSensor];
  }

  /** Appends one point per sensor, in order, then the thermostat's point. */
  method BuildPoints(sensors: seq<Sensor>, t: Ecobee.Thermostat, therm: ThermostatFields, now: int, meas: Measurements)
    returns (points: seq<Point>)
    ensures |points| == |sensors| + 1
    ensures forall j :: 0 <= j < |sensors| ==> points[j] == SensorPoint(sensors[j], now, meas)
    ensures points[|sensors|] == FieldsToPoint(ThermostatAttributes(therm), now, t.name, meas.thermostat)
  {
    points := [];
    var k := 0;
    while k < |sensors|
      invariant 0 <= k <= |sensors|
      invariant |points| == k
      invariant forall j :: 0 <= j < k ==> points[j] == SensorPoint(sensors[j], now, meas)
    {
      points := points + [FieldsToPoint(SensorAttributes(sensors[k].fields), now, sensors[k].name, meas.sensor)];
      k := k + 1;
    }
    points := points + [FieldsToPoint(ThermostatAttributes(therm), now, t.name, meas.thermostat)];
  }

  /** A list shaped as BuildPoints promises, over all sensors, is the batch. */
  lemma BatchOfBuiltPoints(points: seq<Point>, t: Ecobee.Thermostat, s: Ecobee.ThermostatSummary,
                           parse: Parser, now: int, meas: Measurements)
    requires |points| == |Sensors(t, parse)| + 1
    requires forall j :: 0 <= j < |Sensors(t, parse)| ==> points[j] == SensorPoint(Sensors(t, parse)[j], now, meas)
    requires points[|Sensors(t, parse)|] == ThermostatPoint(t, s, now, meas)
    ensures points == Batch(t, s, parse, now, meas)
  {
  }

  /** A zero-valued slot at the end does not change whether any sensor is occupied. */
  lemma OccupancyIgnoresZeroSensor(sensors: seq<Sensor>)
    ensures AllOccupancy(sensors + [ZeroSensor]) == AllOccupancy(sensors)
  {
    var all := sensors + [ZeroSensor];
    assert forall i :: 0 <= i < |sensors| ==> all[i] == sensors[i];
    assert !all[|sensors|].fields.occupancy;
  }

  /**
   * The batch holds |remote sensors| + 2 points: the remote sensors' points in
   * input order, the thermostat sensor's point, then the thermostat's point; each
   * point carries exactly the tag "name" and the cycle's timestamp.
   */
  lemma BatchLayout(t: Ecobee.Thermostat, s: Ecobee.ThermostatSummary, parse: Parser, now: int, meas: Measurements)
    ensures var b := Batch(t, s, parse, now, meas);
      var n := |t.remoteSensors|;
      && |b| == n + 2
      && (forall i :: 0 <= i < |b| ==> b[i].time == now && b[i].tags.Keys == {"name"})
      && (forall i :: 0 <= i < n ==>
            b[i].measurement == meas.sensor && b[i].tags["name"] == SensorName(t.remoteSensors[i]))
      && b[n].measurement == meas.sensor && b[n].tags["name"] == "EcobeeTherm: " + t.name
      && b[n + 1].measurement == meas.thermostat && b[n + 1].tags["name"] == t.name
  {
  }

  /**
   * A sensor point has a humidity field exactly when that sensor's record has a
   * humidity; the thermostat sensor's point never has one.
   */
  lemma HumidityOmittedWhenNil(t: Ecobee.Thermostat, s: Ecobee.ThermostatSummary, parse: Parser, now: int, meas: Measurements)
    ensures var b := Batch(t, s, parse, now, meas);
      var ss := Sensors(t, parse);
      && |ss| == |t.remoteSensors| + 1
      && (forall i :: 0 <= i < |ss| ==> ("Humidity" in b[i].fields <==> ss[i].fields.humidity.Some?))
      && "Humidity" !in b[|t.remoteSensors|].fields
  {
  }

  /**
   * The thermostat sensor reads the thermostat's own temperature, has no
   * humidity, and is occupied exactly when some remote sensor has an occupancy
   * capability reading "true".
   */
  lemma ThermSensorOccupancy(t: Ecobee.Thermostat, parse: Parser)
    ensures var ss := Sensors(t, parse);
      var rs := t.remoteSensors;
      && |ss| == |rs| + 1
      && ss[|rs|].fields.temperature * 10.0 == t.runtime.actualTemperature as real
      && ss[|rs|].fields.humidity == None
      && (ss[|rs|].fields.occupancy <==>
            exists i, j :: 0 <= i < |rs| && 0 <= j < |rs[i].capability| && IsOccupied(rs[i].capability[j]))
  {
    var rs := t.remoteSensors;
    var remote := RemoteSensors(t, parse);
    if AllOccupancy(remote) {
      var i :| 0 <= i < |remote| && remote[i].fields.occupancy;
      OccupancyIffSomeTrue(rs[i].capability);
      var j :| 0 <= j < |rs[i].capability| && IsOccupied(rs[i].capability[j]);
    }
    if exists i, j :: 0 <= i < |rs| && 0 <= j < |rs[i].capability| && IsOccupied(rs[i].capability[j]) {
      var i, j :| 0 <= i < |rs| && 0 <= j < |rs[i].capability| && IsOccupied(rs[i].capability[j]);
      OccupancyIffSomeTrue(rs[i].capability);
      assert remote[i].fields.occupancy;
    }
  }
}
