# ecobeemetrics poll cycle, modelled in Dafny

This project models the recurring task of the ecobee exporter (`main.go`). Each
cycle fetches a thermostat summary and the full thermostat record. It then builds:

- a thermostat record: setpoints, the active program, an equipment label, nine
  activity flags and the derived idle flag;
- one record per remote sensor, built by scanning that sensor's capability list;
- one synthetic record for the thermostat's own sensor.

Each record becomes a time-series point, and all the points are submitted as one
batch. The cycle also keeps one piece of process state across cycles: the last
runtime revision seen. It is used only to choose between the "No Update" and the
"updated data" log lines.

Modules, leaf first:

- `Wrappers` (wrappers.dfy): `Option` for Go's nil pointer, `Result` for a call
  that returns an error.
- `Ecobee` (ecobee.dfy): the vendor's response records, reduced to the members
  the cycle reads.
- `Fields` (fields.dfy): the `ThermostatFields`, `SensorFields` and `Sensor`
  records, the equipment label (`EquipmentStatus`), the active program
  (`Program`) and the occupancy check (`AllOccupancy`).
- `Capabilities` (capabilities.dfy): the scan of one remote sensor's capability
  list. The imperative `BuildSensor` loop is proved equal to per-field
  specification functions. Lemmas characterise those functions: the last
  temperature wins, occupancy is sticky, humidity comes from the last parsed
  value and is not scaled.
- `Points` (points.dfy): record to point. Each record type has an explicit
  attribute list, and a nil pointer is left out of the point's fields.
- `Poll` (poll.dfy): the cycle itself. The class `Exporter` holds
  `lastRevision`, and its method `Run` holds the two fetch outcomes, the
  sensor slice filled by index, the point list and the revision update. Lemmas
  state the shape of the batch.

The exporter has no staleness threshold, no failure counter and no
self-observability point. Every cycle whose two fetches succeed builds and
submits all points, whether or not the revision changed. A fetch failure only
logs and returns.

## Model

| member | source | states |
|---|---|---|
| `Fields.EquipmentStatus` | main.go:226-248 | the label is one of the nine flag labels or "Idle" |
| `Fields.EquipmentStatusPriority` | main.go:226-248 | when flag k is the first active one in the order Heat1, Heat2, Heat3, Cool1, Cool2, Aux1, Aux2, Aux3, Fan, the label is the k-th label, for every flag combination |
| `Fields.IdleLabelIffAllOff` | main.go:226-248 | the label is "Idle" exactly when all nine flags are false |
| `Fields.ThermostatFieldsOf` | main.go:120-136 | setpoints are the tenths divided by 10; the nine flags are copied in order; the equipment label is `EquipmentStatus` of the summary's flags; idle holds iff all flags are false, and iff the equipment label is "Idle"; program is `Program(t)` |
| `Fields.FirstOverride` | main.go:251-261 | the result is the type of the first event that is running and of type "vacation" or "hold"; with no such event it is the fallback |
| `Fields.Program` | main.go:250-262 | the first running vacation/hold event in list order decides the program; non-running events and other running types are skipped; otherwise the current climate ref |
| `Fields.AllOccupancy` | main.go:264-271 | true iff some sensor of the list reports occupancy |
| `Capabilities.PrefixName` | main.go:166-171 | an id starting "rs:" gives "EcobeeSensor: <name> (<code>)", one starting "ei:" gives "EcobeeSensor: <name> (Thermostat)", any other id the empty name |
| `Capabilities.SensorName` | main.go:143-171 | a sensor with no capabilities keeps the empty name, since the name is assigned inside the capability loop; otherwise the prefix rule |
| `Capabilities.BuildSensor` | main.go:140-180 | the capability loop leaves the name, temperature, occupancy and humidity equal to the scan functions over the whole capability list |
| `Capabilities.OccupancyIffSomeTrue` | main.go:153-157 | occupancy is true iff some "occupancy" capability has value exactly "true" |
| `Capabilities.OccupancySticky` | main.go:153-157 | once occupancy is true, further capabilities never make it false |
| `Capabilities.TemperatureWithoutCapability` | main.go:140-152 | with no "temperature" capability the temperature stays 0 |
| `Capabilities.TemperatureOfLast` | main.go:145-152 | the temperature is set by the last "temperature" capability: its parsed value divided by 10, or 0 when it fails to parse |
| `Capabilities.HumidityPresentIff` | main.go:158-165 | humidity is present iff some "humidity" capability parsed |
| `Capabilities.HumidityOfLastParsed` | main.go:158-165 | the humidity is the raw parsed value, not divided by 10, of the last "humidity" capability that parsed |
| `Points.FieldMapContents` | main.go:211-222 | the keys are exactly the names of the non-nil attributes; a non-nil attribute whose name is not repeated later is stored with its value |
| `Points.FieldsToPoint` | main.go:209-224 | the point has the given measurement and timestamp, the single tag "name" set to the given name, and one field per non-nil attribute holding that attribute's value |
| `Points.SensorAttributes` | main.go:309-313 | a sensor record has the attributes Temperature, Occupancy and Humidity in declaration order; Humidity is a nil pointer exactly when the record has no humidity, the other two always carry the record's values |
| `Points.ThermostatAttributes` | main.go:292-307 | a thermostat record has fourteen attributes in declaration order, with the equipment label fourth and idle last, each carrying the record's value; `ThermostatPointFields` states every value |
| `Points.SensorPointFields` | main.go:209-224 | a sensor point carries temperature and occupancy, and humidity only when it is present |
| `Points.ThermostatPointFields` | main.go:209-224 | a thermostat point's fields are exactly the fourteen record fields, each mapped to the record's value |
| `Poll.SummaryFor` | main.go:99 | the summary looked up by id; a missing id gives the zero summary (empty revision, all flags false) |
| `Poll.RemoteSensors` | main.go:139-181 | one record per remote sensor, in input order, each as the capability scan builds it |
| `Poll.ThermSensor` | main.go:182-188 | the thermostat sensor is named "EcobeeTherm: " followed by the thermostat's name, has the actual temperature divided by 10, no humidity, and is occupied iff some of the given sensors is |
| `Poll.OccupancyIgnoresZeroSensor` | main.go:186-189 | the zero-valued last slot scanned by the occupancy check changes nothing |
| `Poll.BuildSensors` | main.go:138-189 | the filled slice is the remote sensors' records in order followed by the thermostat sensor, whose occupancy is that of the remote sensors |
| `Poll.BuildPoints` | main.go:191-200 | one point per sensor in sensor order, then the thermostat point last |
| `Poll.Exporter.constructor` | main.go:84 | the stored revision starts as the empty string |
| `Poll.Exporter.Run` | main.go:86-207 | a failed fetch ends the cycle with no batch and the stored revision unchanged; so does an empty thermostat list; otherwise the batch is submitted, "updated" means the revision differs from the stored one, and the stored revision becomes the summary's even when the write fails |
| `Poll.BatchLayout` | main.go:191-200 | the batch has two more points than there are remote sensors: remote sensor points in input order, the thermostat sensor point, then the thermostat point; every point's tags are exactly {"name"} and its time is the cycle's |
| `Poll.HumidityOmittedWhenNil` | main.go:209-222 | a sensor point has a humidity field iff its record has a humidity; the thermostat sensor's point never has one |
| `Poll.ThermSensorOccupancy` | main.go:182-189 | the thermostat sensor has the thermostat's temperature divided by 10, no humidity, and is occupied iff some remote sensor has an occupancy capability reading "true" |

## Left out

- `main` (main.go:24-82): flag parsing, YAML configuration, the PIN and token bootstrap, client construction and the cron scheduler. These are wiring around the cycle.
- The vendor calls `GetThermostatSummary` and `GetThermostats` are not modelled as calls. Their outcomes are the `Result` inputs of `Run`. The sink's `WritePoint` is not modelled either: its answer is the `writeOk` input, and the batch it receives is part of the outcome.
- When the thermostat list is empty, `ts[0]` panics in Go. The model ends the cycle there (`NoThermostat`) with no state change. What the scheduler does with the panic is not modelled.
- Number parsing is the `parse` parameter, which returns `None` on malformed text. ParseFloat's range errors (which return ±Inf) are not modelled, nor the texts "Inf", "+Inf", "-Inf" and "NaN", which it accepts without error and which yield infinite or NaN values that a `real` cannot hold.
- Arithmetic on `float64` is modelled as exact `real` arithmetic. Rounding is not modelled.
- Field names: the source derives each field key through reflection and a snake-case conversion from a library that is not part of this model. The model keys each field by the Go field identifier (`CoolingSetpoint` rather than its snake-case form). Only the rule that a nil pointer is skipped is modelled.
- Logging, `time.Now` and `context` are not modelled. The log lines for parse failures and write failures are not modelled, apart from the `writeFailed` flag and the `updated` flag that picks the update message. The timestamp is the `now` input.
- `BuildSensor`, `BuildSensors` and `BuildPoints` are pieces of `run` split into methods. The sensor slice is an array filled by index. The point list is a sequence appended to in order, in place of the closure `addPoint`.
