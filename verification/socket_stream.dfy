/** The stream state owned by the socket hook: the transport link flag, the
    upstream (MQTT) source flag, the latest reading and the bounded history,
    each changed only by the handler of one incoming event. */
module SocketStream {
  import opened Sensor
  import opened SlidingWindow

  /** The four cells as the hook hands them to its consumers. */
  datatype Snapshot = Snapshot(
    isConnected: bool,
    mqttConnected: bool,
    currentData: Option<SensorData>,
    dataHistory: seq<DataPoint>)

  class StreamState {
    /** The history capacity (`MAX_DATA_POINTS`). */
    const capacity: nat
    var isConnected: bool
    var mqttConnected: bool
    var currentData: Option<SensorData>
    var dataHistory: seq<DataPoint>
    /** Every reading delivered so far, in delivery order. */
    ghost var received: seq<SensorData>

    /** The history is the window over everything received, and the current
        reading is the last one received. */
    ghost predicate Valid()
      reads this
      ensures Valid() ==> |dataHistory| == Min(|received|, capacity) <= capacity
      ensures Valid() ==> (currentData == None <==> dataHistory == [])
      ensures Valid() && currentData.Some? ==> dataHistory[|dataHistory| - 1] == currentData.value
    {
      capacity >= 1 &&
      dataHistory == Window(received, capacity) &&
      currentData == (if received == [] then None else Some(received[|received| - 1]))
    }

    /** Mounting: both flags down, no reading, empty history. */
    constructor (n: nat)
      requires n >= 1
      ensures Valid() && capacity == n
      ensures !isConnected && !mqttConnected
      ensures currentData == None && dataHistory == [] && received == []
    {
      capacity := n;
      isConnected, mqttConnected := false, false;
      currentData, dataHistory := None, [];
      received := [];
    }

    /** The `connect` handler raises the transport flag and nothing else. */
    method OnConnect()
      requires Valid()
      modifies this
      ensures Valid() && isConnected
      ensures mqttConnected == old(mqttConnected)
      ensures currentData == old(currentData) && dataHistory == old(dataHistory)
      ensures received == old(received)
    {
      isConnected := true;
    }

    /** The `disconnect` handler lowers the transport flag; the source flag,
        the last reading and the history stay as they were. */
    method OnDisconnect()
      requires Valid()
      modifies this
      ensures Valid() && !isConnected
      ensures mqttConnected == old(mqttConnected)
      ensures currentData == old(currentData) && dataHistory == old(dataHistory)
      ensures received == old(received)
    {
      isConnected := false;
    }

    /** The `sensorData` handler: the reading becomes current and is appended
        to the history, which then keeps only its last `capacity` entries. */
    method OnSensorData(data: SensorData)
      requires Valid()
      modifies this
      ensures Valid()
      ensures currentData == Some(data)
      ensures dataHistory == Ingest(old(dataHistory), data, capacity)
      ensures dataHistory == Window(received, capacity)
      ensures received == old(received) + [data]
      ensures isConnected == old(isConnected) && mqttConnected == old(mqttConnected)
    {
      IngestSlides(received, data, capacity);
      currentData := Some(data);
      dataHistory := Ingest(dataHistory, data, capacity);
      received := received + [data];
    }

    /** The `mqttStatus` handler copies the payload's flag into the source
        flag and changes nothing else. */
    method OnMqttStatus(status: MqttStatus)
      requires Valid()
      modifies this
      ensures Valid() && mqttConnected == status.connected
      ensures isConnected == old(isConnected)
      ensures currentData == old(currentData) && dataHistory == old(dataHistory)
      ensures received == old(received)
    {
      mqttConnected := status.connected;
    }

    /** The hook's return value. Its history is within capacity, is the tail
        of what was received, and ends with its current reading. */
    method Observe() returns (s: Snapshot)
      requires Valid()
      ensures s.isConnected == isConnected && s.mqttConnected == mqttConnected
      ensures s.currentData == currentData && s.dataHistory == dataHistory
      ensures |s.dataHistory| <= capacity
      ensures s.dataHistory == Window(received, capacity)
      ensures s.currentData == None <==> s.dataHistory == []
      ensures s.currentData.Some? ==> s.dataHistory[|s.dataHistory| - 1] == s.currentData.value
    {
      s := Snapshot(isConnected, mqttConnected, currentData, dataHistory);
    }
  }
}
