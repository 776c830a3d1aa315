/**
 * The vendor API's response records, reduced to the members the exporter reads.
 * Names follow the vendor client's Go structs.
 */
module Ecobee {

  /** The nine equipment-activity flags carried by a thermostat summary. */
  datatype EquipmentStatus = EquipmentStatus(
    heatPump: bool, heatPump2: bool, heatPump3: bool,
    compCool1: bool, compCool2: bool,
    auxHeat1: bool, auxHeat2: bool, auxHeat3: bool,
    fan: bool)

  /** One entry of the summary response: a revision token and the equipment flags. */
  datatype ThermostatSummary = ThermostatSummary(runtimeRevision: string, equipmentStatus: EquipmentStatus)

  /** Go's zero value of a summary, which a lookup of a missing thermostat id yields. */
  const ZeroSummary := ThermostatSummary("", EquipmentStatus(false, false, false, false, false, false, false, false, false))

  /** Runtime readings, in tenths of a degree. */
  datatype Runtime = Runtime(actualTemperature: int, desiredHeat: int, desiredCool: int)

  datatype Event = Event(eventType: string, running: bool)

  datatype ProgramSettings = ProgramSettings(currentClimateRef: string)

  /** One capability of a remote sensor: a type ("temperature", "occupancy", ...) and its raw text value. */
  datatype Capability = Capability(capType: string, value: string)

  datatype RemoteSensor = RemoteSensor(id: string, name: string, code: string, capability: seq<Capability>)

  /** The full thermostat record, as requested with runtime, program, events and sensors. */
  datatype Thermostat = Thermostat(
    name: string,
    runtime: Runtime,
    program: ProgramSettings,
    events: seq<Event>,
    remoteSensors: seq<RemoteSensor>)
}
