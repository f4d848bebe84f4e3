/** Values exchanged with the sensor feed: readings, source-status payloads
    and the two numeric fields the statistics can be taken over. */
module Sensor {

  /** `T | null`: a value that may be absent. */
  datatype Option<+T> = None | Some(value: T)

  /** One reading pushed by the feed. Numbers are modelled as reals and the
      timestamp as an uninterpreted string. */
  datatype SensorData = SensorData(temperature: real, humidity: real, time: string)

  /** A history entry has exactly the fields of a reading, and the handler
      stores the received reading itself, so the two are one type here. */
  type DataPoint = SensorData

  /** Payload of the source-status event. */
  datatype MqttStatus = MqttStatus(connected: bool)

  /** The key argument of the statistics: "temperature" | "humidity". */
  datatype Field = Temperature | Humidity

  /** `d[key]`: the selected numeric field of a data point. */
  function Value(d: DataPoint, key: Field): (v: real)
    ensures key == Temperature ==> v == d.temperature
    ensures key == Humidity ==> v == d.humidity
  {
    match key
    case Temperature => d.temperature
    case Humidity => d.humidity
  }
}
