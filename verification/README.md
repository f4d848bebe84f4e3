# Sensor dashboard stream state, modelled in Dafny

The dashboard is a client that receives temperature and humidity readings
from a socket feed. This project models the part of it that has real logic:

- the stream state kept by the `useSocket` hook. It holds four cells: the
  transport flag `isConnected`, the upstream source flag `mqttConnected`,
  the latest reading `currentData` and the bounded history `dataHistory`.
  Four event handlers update them: `connect`, `disconnect`, `sensorData`
  and `mqttStatus`.
- the history update `[...prev, data].slice(-MAX_DATA_POINTS)`. It appends
  the new reading, then keeps only the last `MAX_DATA_POINTS` entries.
- the statistics helpers `calculateAverage`, `calculateMin` and
  `calculateMax` over the `temperature` or `humidity` field.
- the older inline copy of all this in the `Dashboard` component. Its
  capacity is 20. It computes the same statistics inline, inside a panel
  that is shown only when the history is non-empty.

Modules, one per source file or concern:

- `Sensor` (`sensor.dfy`): the payload types `SensorData` (also used as
  `DataPoint`, since the two interfaces have the same fields) and
  `MqttStatus`, the key type `Field`, and `Value`, which is `d[key]`.
  Numbers are `real` and the timestamp is an uninterpreted string.
- `SlidingWindow` (`sliding_window.dfy`): JavaScript's `slice(-k)`, the
  updater `Ingest`, and the intended window `Window(xs, n)`, which is the
  last `min(|xs|, n)` readings delivered. `Replay` is the history after a
  run of deliveries.
- `SocketStream` (`socket_stream.dfy`): class `StreamState`. Its fields
  are the four cells and the capacity, and it has one method per event.
  A ghost field `received` records every reading delivered. `Valid()` says
  that the history is `Window(received, capacity)` and that the current
  reading is the last one received.
- `Calculations` (`calculations.dfy`): the three statistics as recursive
  functions over `seq`. `reduce` is a left fold from 0. `Math.min` and
  `Math.max` over the mapped values are `MinOf` and `MaxOf`.
- `Dashboard` (`dashboard.dfy`): the capacity constant 20, the component's
  initial state, and the inline statistics panel.

The component's handlers (src/components/Dashboard.tsx:55-74) are the same
as the hook's (src/hooks/useSocket.ts:24-42). The only difference is a
`console.log` call. So the component's copy is modelled by the same
`StreamState` methods. `Dashboard.Mount` creates that state with
capacity 20.

JavaScript's `slice(-0)` is `slice(0)`. So a capacity of 0 would never
evict, and `Ingest`'s contract states this case. The stream state requires
a capacity of at least 1.

## Model

| member | source | states |
|---|---|---|
| `Sensor.Value` | src/utils/calculations.ts:8 | `d[key]`: the temperature for the temperature key, the humidity for the humidity key |
| `SlidingWindow.SliceLast` | src/hooks/useSocket.ts:36 | `xs.slice(-k)` never grows the list. With `k = 0` it keeps the whole list, because `-0` is `0`. With `k >= 1` it has `min(len, k)` elements; which elements is stated by `SliceLastIsWindow` |
| `SlidingWindow.SliceLastIsWindow` | src/hooks/useSocket.ts:36 | With `k >= 1`, `xs.slice(-k)` is exactly the last `min(len, k)` elements of `xs`, in order |
| `SlidingWindow.Ingest` | src/hooks/useSocket.ts:34-37 | The new reading is always the last entry. With capacity `n >= 1` the history has at most `n` entries. Below capacity (or with `n = 0`) the update is a plain append. At capacity, the oldest entry goes and the rest keep their order: `prev[len-n+1..] + [d]` |
| `SlidingWindow.IngestSlides` | src/hooks/useSocket.ts:34-37 | Applying the updater to the window over `xs` gives the window over `xs + [d]`, for every `n >= 1` |
| `SlidingWindow.Replay` | src/hooks/useSocket.ts:32-38 | The history after a run of `sensorData` events from an empty history: empty for no events, otherwise it ends with the last reading delivered, and with capacity `n >= 1` it has at most `n` entries |
| `SlidingWindow.ReplayIsWindow` | src/hooks/useSocket.ts:32-38 | After any run of readings delivered from an empty history, the history is the last `min(count, n)` readings in delivery order. Its length is `min(count, n) <= n` |
| `SlidingWindow.CapacityThreeExample` | src/hooks/useSocket.ts:34-37 | With capacity 3 and five readings in order, the history is the third, fourth and fifth reading |
| `SocketStream.StreamState.Valid` | src/hooks/useSocket.ts:14-17 | The state invariant. The history length is `min(received, capacity) <= capacity`. The current reading is absent exactly when the history is empty. Otherwise the current reading is the last entry of the history |
| `SocketStream.StreamState.constructor` | src/hooks/useSocket.ts:14-17 | The initial state: both flags false, no current reading, an empty history, and nothing received |
| `SocketStream.StreamState.OnConnect` | src/hooks/useSocket.ts:24-26 | Sets `isConnected` to true. `mqttConnected`, the current reading and the history are unchanged |
| `SocketStream.StreamState.OnDisconnect` | src/hooks/useSocket.ts:28-30 | Sets `isConnected` to false. `mqttConnected`, the current reading and the history are unchanged, so stale data stays visible |
| `SocketStream.StreamState.OnSensorData` | src/hooks/useSocket.ts:32-38 | The reading becomes current. The history is the updater applied to the old history, which equals the window over all readings received. Both flags are unchanged. The invariant is preserved |
| `SocketStream.StreamState.OnMqttStatus` | src/hooks/useSocket.ts:40-42 | Copies `status.connected` into `mqttConnected`. `isConnected`, the current reading and the history are unchanged |
| `SocketStream.StreamState.Observe` | src/hooks/useSocket.ts:49-54 | The returned cells are the state's own. The history is within capacity and is the tail of what was received. It ends with the current reading, and it is empty exactly when there is no current reading |
| `Calculations.Values` | src/utils/calculations.ts:16 | `data.map((d) => d[key])`: same length as the data, and entry `i` is the selected field of point `i` |
| `Calculations.Total` | src/utils/calculations.ts:8 | The reduce `(sum, d) => sum + d[key]` from 0: 0 on an empty list, the single value on a one-element list |
| `Calculations.TotalFromFront` | src/utils/calculations.ts:8 | The left-to-right reduce equals the first value plus the total of the rest, so the order of the additions does not matter |
| `Calculations.MinOf` | src/utils/calculations.ts:16 | `Math.min` over a non-empty list returns one of its elements, and that element is at most every element |
| `Calculations.MaxOf` | src/utils/calculations.ts:24 | `Math.max` over a non-empty list returns one of its elements, and that element is at least every element |
| `Calculations.CalculateAverage` | src/utils/calculations.ts:3-9 | Returns 0 on an empty list. Otherwise the result times the length equals the sum of the selected field |
| `Calculations.CalculateMin` | src/utils/calculations.ts:11-17 | Returns 0 on an empty list. Otherwise it returns the selected field of some element, and that value is at most the field of every element |
| `Calculations.CalculateMax` | src/utils/calculations.ts:19-25 | Returns 0 on an empty list. Otherwise it returns the selected field of some element, and that value is at least the field of every element |
| `Calculations.TotalBounds` | src/utils/calculations.ts:8 | If `lo` and `hi` bound every value, the reduce sum lies between `len * lo` and `len * hi` |
| `Calculations.AverageWithinBounds` | src/utils/calculations.ts:8 | On a non-empty list, any common bounds of the values also bound the average |
| `Calculations.AverageBetweenMinAndMax` | src/utils/calculations.ts:3-25 | On a non-empty list, `min <= average <= max` for the same key |
| `Calculations.TotalSelectedFieldOnly` | src/utils/calculations.ts:8 | Two lists that agree on the selected field have the same reduce sum |
| `Calculations.SelectedFieldOnly` | src/utils/calculations.ts:5-24 | Two lists that agree on the selected field have the same average, minimum and maximum. The other field and the timestamp do not matter |
| `Calculations.ThreeReadings` | src/utils/calculations.ts:3-25 | Take the readings (20, 50), (22, 55) and (18, 45). The average temperature is 20, the minimum 18 and the maximum 22. The average humidity is 50 |
| `Dashboard.Mount` | src/components/Dashboard.tsx:42-48 | The component starts with a fresh valid state of capacity 20, both flags false, no current reading and an empty history |
| `Dashboard.InlineStats` | src/components/Dashboard.tsx:234-285 | On a non-empty history, the inline average, min and max for a field equal `calculateAverage`, `calculateMin` and `calculateMax` for that key, and min <= average <= max |
| `Dashboard.StatisticsPanel` | src/components/Dashboard.tsx:226-292 | The panel is absent exactly when the history is empty, so the inline division never divides by zero. When present, all six figures agree with the shared helpers |

## Left out

- The socket.io transport is not modelled: `io(url)`, the `VITE_SOCKET_URL` lookup and its default, and `close()` on unmount. Events are modelled as method calls, processed one at a time in delivery order.
- React mechanics are not modelled: `useState`, `useEffect` and re-render scheduling. Each setter is a plain field assignment.
- Rendering is not modelled: the connection badges, the current-reading cards with the `'--'` fallback, the chart and its data mapping, `toFixed(1)` and `toLocaleTimeString()`. The presentational components, the chart configuration and the Chart.js registration are not part of this model.
- The `console.log` in the component's `mqttStatus` handler is output only, so it is left out.
- IEEE doubles are modelled as `real`. NaN and Infinity propagation and rounding are not captured. Nor is `Math.min`/`Math.max` of an empty spread, which the guards never reach.
- `SocketStream.StreamState.constructor`: takes the capacity as a parameter and requires it to be at least 1. The source's constants module is not part of this model. The component fixes the capacity at 20, and `Dashboard.Mount` uses that value.
- `SlidingWindow.SliceLast`: its own contract states only the length of the result; which elements it keeps (the last `min(len, k)`) is stated by the lemma `SliceLastIsWindow` beside it, to keep the solver's work on every caller small.
- Payloads are not validated, as in the source. A malformed event has no separate behaviour in the model.
