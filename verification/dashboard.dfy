/** The dashboard component: its own copy of the stream state with a
    history capacity of 20, and the statistics panel it computes inline over
    the history. */
module Dashboard {
  import opened Sensor
  import opened Calculations
  import opened SocketStream

  /** `MAX_DATA_POINTS`. */
  const MaxDataPoints: nat := 20

  /** The component's state cells when it mounts. Its event handlers are the
      same four as the hook's and act on this object. */
  method Mount() returns (s: StreamState)
    ensures fresh(s) && s.Valid() && s.capacity == MaxDataPoints == 20
    ensures !s.isConnected && !s.mqttConnected
    ensures s.currentData == None && s.dataHistory == [] && s.received == []
  {
    s := new StreamState(MaxDataPoints);
  }

  /** The average, minimum and maximum shown for one field. */
  datatype FieldStats = FieldStats(average: real, min: real, max: real)

  /** The two stat cards. */
  datatype StatsPanel = StatsPanel(temperature: FieldStats, humidity: FieldStats)

  /** The inline expressions for one field: the reduce divided by the
      length, and `Math.min`/`Math.max` over the mapped values. They agree
      with the shared helpers, whose empty-list branch is never reached here. */
  function InlineStats(history: seq<DataPoint>, key: Field): (st: FieldStats)
    requires |history| > 0
    ensures st.average == CalculateAverage(history, key)
    ensures st.min == CalculateMin(history, key) && st.max == CalculateMax(history, key)
    ensures st.min <= st.average <= st.max
  {
    AverageBetweenMinAndMax(history, key);
    FieldStats(Total(history, key) / (|history| as real), MinOf(Values(history, key)), MaxOf(Values(history, key)))
  }

  /** The statistics panel is rendered only when the history is non-empty,
      so the inline division never sees a zero length. */
  function StatisticsPanel(history: seq<DataPoint>): (p: Option<StatsPanel>)
    ensures p == None <==> history == []
    ensures p.Some? ==> p.value.temperature.average == CalculateAverage(history, Temperature)
    ensures p.Some? ==> p.value.temperature.min == CalculateMin(history, Temperature)
    ensures p.Some? ==> p.value.temperature.max == CalculateMax(history, Temperature)
    ensures p.Some? ==> p.value.humidity.average == CalculateAverage(history, Humidity)
    ensures p.Some? ==> p.value.humidity.min == CalculateMin(history, Humidity)
    ensures p.Some? ==> p.value.humidity.max == CalculateMax(history, Humidity)
  {
    if |history| > 0 then
      Some(StatsPanel(InlineStats(history, Temperature), InlineStats(history, Humidity)))
    else
      None
  }
}
