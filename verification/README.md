# Telemetry agent translation layers, in Dafny

This project models the sequential core of a small telemetry agent. Producer modules publish
`Event { module, inner }` values on a shared broadcast bus. `inner` is either
`Message(text)` or `Reading(reading)`. The model covers three translation layers:

- `ModuleCtx` (`src/module.rs`). Each send wraps a payload in an `Event` stamped with the
  context's name and publishes exactly one event.
- The hardware monitor (`src/modules/monitoring.rs`). It turns each sensor configuration into
  a WMI query string and turns the query's outcome into a `Reading` or an error text. One
  timer tick publishes one event per configured sensor, in configuration order. A failing
  sensor does not affect the others.
- The OPC UA ingester (`src/modules/opcua.rs`). It renders a data-change `DataValue` as text
  in one of three ways and publishes it as a message under the module's name. It creates
  one subscription with fixed parameters over the nodes `(2, "v1")` … `(2, "v5")`. Its
  `run` is a short sequence of client actions. On a subscription error that sequence
  disconnects and still returns `Ok(())`.

Modules: `Results` (Option/Result), `EventBus` (event shapes and the bus),
`ModuleContext`, `Monitoring`, `Opcua`.

How the model handles the parts it does not compute:

- The bus is a record: an append-only `published: seq<Event>` and a count of live receivers.
  The only broadcast-channel behaviour kept is that a send is refused, and nothing is
  published, when no receiver is alive.
- `f32` readings are `F32(bits)` and `SystemTime` is `SystemTime(nanos)`. Both are passed
  through unchanged.
- The WMI connection is an oracle `string -> Result<seq<WmiSensor>, WmiError>`.
- The clock is a parameter `nat -> SystemTime`. The sensor at position `i` of a tick is
  stamped with `clock(i)`.
- OPC UA `Variant` and `StatusCode` are type parameters. Their `{:?}` and `{}` renderings are
  passed in as a `Formatter`.
- What the OPC UA server answers (connect, create subscription, create monitored items,
  event-loop end) is a `ServerAnswers` input.

The source refers to a few names that the other files do not define. The model reads them
as follows:

- `send_log` (`src/modules/monitoring.rs:131`) is `send_message`.
- `EventKind::Log` (`src/modules/opcua.rs:73`) is `EventKind::Message`.
- `crate::reading::Reading` (`src/modules/monitoring.rs:9`) is the `Reading` of
  `src/event_bus.rs`.

Behaviour of the code worth knowing before reading the contracts:

- The code has no exact-match mode and only two sensor types. Every sensor, "CPU Total"
  and "Memory" included, is matched with `Name LIKE '%…%'`.
- `run` unwraps the connect result, so a failed connect panics (`Panicked`) instead of
  returning an error.
- A data change that carries only a status is forwarded as `"Error: "` followed by the
  status text.
- `ModuleCtx::send` unwraps the send result, so it is not a silent no-op when nobody
  listens. It cannot panic while the context lives, because the context owns a receiver.
  `Send` therefore requires a live receiver, and `NewContextCanSend` shows that a context
  built by `New` meets this requirement.
- `anyhow` shows only the outermost context when an error is formatted with `{e}`. A failed
  WMI query is therefore reported as exactly `"Failed to query sensor data"`, without the
  cause (`ErrorTextMeaning`).

## Model

| member | source | states |
|---|---|---|
| EventBus.New | src/event_bus.rs:46-49 | a new channel has published nothing, and its own handle is its one receiver |
| EventBus.Subscribe | src/event_bus.rs:51-53 | subscribing adds one live receiver and publishes nothing |
| EventBus.Publish | src/module.rs:36 | a send succeeds exactly when some receiver is alive; on success the event is appended and nothing else changes; on refusal the error hands the event back |
| ModuleContext.New | src/module.rs:19-28 | the context keeps `name` verbatim and adds one receiver to the bus; nothing is published |
| ModuleContext.Send | src/module.rs:30-37 | with the context's receiver alive, exactly one event is appended after everything already published; its `module` is the context's name and its `inner` is the payload unchanged; the receiver count is unchanged |
| ModuleContext.SendMessage | src/module.rs:39-41 | appends exactly one event, `Message(m)`, stamped with the context's name; earlier events are untouched |
| ModuleContext.SendReading | src/module.rs:43-45 | appends exactly one event, `Reading(r)`, stamped with the context's name; earlier events are untouched |
| ModuleContext.StartupContexts | src/main.rs:21-32 | the four contexts created at start-up on one fresh bus keep their names; nothing is published and five receivers are alive |
| ModuleContext.SendAll | src/module.rs:30-37 | n sends in a row append exactly n events, in payload order, all stamped with the context's name |
| ModuleContext.SendAllStampsEveryEvent | src/module.rs:30-34 | over any run of sends, the earlier log is a prefix of the new one and every new event carries the context's name |
| ModuleContext.NewContextCanSend | src/module.rs:19-36 | a context created by `new` can always send: its own receiver keeps the send from failing |
| Monitoring.SensorTypeName | src/modules/monitoring.rs:88 | a sensor type prints as its variant name: "Temperature" exactly for Temperature, otherwise "Load" |
| Monitoring.ParseSensorType | src/modules/monitoring.rs:12-17 | only the two variant names, "Temperature" and "Load", are sensor types, and each parses back to the type it names |
| Monitoring.SensorTypeNameRoundTrip | src/modules/monitoring.rs:12-17 | every sensor type's printed name parses back to that type |
| Monitoring.SensorConfigs | src/modules/monitoring.rs:59-83 | the default table has exactly three sensors, all in category "computer", with non-empty name, unit and query name; the first is a Temperature sensor and the other two are Load sensors |
| Monitoring.BuildQuery | src/modules/monitoring.rs:86-91 | the query starts with `SELECT * FROM Sensor WHERE SensorType = '` and ends with `%'` |
| Monitoring.BuildQueryRoundTrip | src/modules/monitoring.rs:86-91 | the query is `… SensorType = '<T>' AND Name LIKE '%<query_name>%'`: parsing it as that LIKE form recovers exactly the sensor type and the query name, so the name is never compared with `=` |
| Monitoring.BuildQueryInjective | src/modules/monitoring.rs:86-91 | two configurations give the same query if and only if they have the same sensor type and query name |
| Monitoring.DefaultQueriesDistinct | src/modules/monitoring.rs:59-91 | the three default sensors send three different queries |
| Monitoring.DefaultTemperatureQuery | src/modules/monitoring.rs:59-91 | the CPU temperature query is exactly `SELECT * FROM Sensor WHERE SensorType = 'Temperature' AND Name LIKE '%Core%'` |
| Monitoring.ErrorText | src/modules/monitoring.rs:99-107 | an error's displayed text is "Failed to query sensor data" exactly when the query itself failed; a no-data error's text starts with "No data found for " and the query name |
| Monitoring.ErrorTextMeaning | src/modules/monitoring.rs:96-107 | every failed query shows the same text, whatever the WMI error was; a "no data" text names exactly one query name |
| Monitoring.FetchReading | src/modules/monitoring.rs:94-117 | a failed query gives the error "Failed to query sensor data"; zero rows give "No data found for <query_name>. \t Is LibreHardwareMonitor Running?"; the fetch succeeds exactly when there is at least one row; a reading holds the first row's value, the config's name, unit and category verbatim, and the clock's time |
| Monitoring.FirstRowWins | src/modules/monitoring.rs:101-108 | rows after the first never change the fetched reading |
| Monitoring.ToEventKind | src/modules/monitoring.rs:129-132 | a fetch outcome becomes a Reading event exactly when the fetch succeeded; that event carries the fetched reading itself, and a failure's message is the error's displayed text |
| Monitoring.SendOutcome | src/modules/monitoring.rs:129-132 | a successful fetch goes out as exactly one Reading event and a failed one as exactly one message, both stamped with the module's name |
| Monitoring.TickKinds | src/modules/monitoring.rs:128-133 | one tick yields exactly one payload per configured sensor, in configuration order; payload i is sensor i's reading, or its error text |
| Monitoring.RunTick | src/modules/monitoring.rs:128-133 | the tick loop appends exactly those payloads to the bus, each stamped with the module's name, and leaves earlier events and the receiver count alone |
| Monitoring.TickReadingCount | src/modules/monitoring.rs:128-133 | a tick publishes exactly as many readings as there are successful fetches (the other sensors' payloads are messages) |
| Monitoring.TickIsolation | src/modules/monitoring.rs:128-133 | what a tick sends for a sensor depends only on that sensor's own query result, so failures elsewhere cannot affect it |
| Monitoring.PartialFailureTick | src/modules/monitoring.rs:94-133 | given one sensor with one row followed by one with zero rows, a tick yields one reading then one "no data" message |
| Opcua.DataValueToString | src/modules/opcua.rs:33-43 | a present value is rendered as the value's text, whether or not a status is also present; otherwise a present status is rendered as "Error: " followed by the status's text; otherwise the text is "No value or status" |
| Opcua.CallbackTextAgrees | src/modules/opcua.rs:61-67 | the callback's inline rendering equals `data_value_to_string` for every data value |
| Opcua.RenderingIdentifiesCase | src/modules/opcua.rs:33-43 | if no value renders like a status or like the placeholder, the text starts with "Error: " exactly when only a status is present, and is the placeholder exactly when neither is present |
| Opcua.OnDataChange | src/modules/opcua.rs:58-79 | with a live receiver, a data change appends exactly one message event: the rendering, under the captured module name; with none, the send fails and the bus is left unchanged; either way nothing is returned to the caller |
| Opcua.CallbackIsSendMessage | src/modules/opcua.rs:47-48 | with a live receiver, the callback has the same effect as `send_message` of the rendering on the ingester's own context |
| Opcua.OnDataChanges | src/modules/opcua.rs:58-79 | a run of n data changes appends n message events in arrival order; none is appended when no receiver is alive |
| Opcua.IngestPublishesOnlyMessages | src/modules/opcua.rs:71-74 | every event the ingester publishes is a message carrying its module name; it never publishes a Reading |
| Opcua.ValueThenStatusScenario | src/modules/opcua.rs:58-79 | a value notification then a status-only notification yield two messages under the module's name: the value's text, then "Error: " and the status's text |
| Opcua.ItemsToCreate | src/modules/opcua.rs:85-88 | the monitored-item request is exactly five node ids in namespace ns; item k is "v" followed by the digit k+1 |
| Opcua.ItemsToCreateDistinct | src/modules/opcua.rs:85-88 | the five monitored items are pairwise different |
| Opcua.SubscribeToVariables | src/modules/opcua.rs:45-94 | the subscription is always created first; monitored items are created only when it succeeds, against its id, with timestamps Both; the call fails exactly when either step fails |
| Opcua.Run | src/modules/opcua.rs:100-134 | `run` returns exactly when it connects and the event loop ends cleanly; a failed connect panics after the connect attempt alone; it disconnects exactly when subscribing failed; monitored items are created, with namespace 2, exactly when connected and the subscription succeeded; a connected run ends by joining the event loop |
| Opcua.RunSubscribesOnce | src/modules/opcua.rs:50-57 | a connected run creates exactly one subscription, with arguments 1 s, 10, 30, 0, 0, true |

## Left out

- Broadcast-channel internals in `src/event_bus.rs`: the capacity of 100, fan-out to several receivers, lag and the absence of replay. These belong to the channel library. The bus is an append-only log with a receiver count.
- Receiver drops are not modelled as operations. The receiver count of a given `Bus` is an input, so the zero-receiver branch can still be reached.
- `EventBus::clone`: in the model its effect on the channel is the same as `EventBus::Subscribe`.
- The async loops: the 1-second interval and `tokio::select!` in the monitor's `run`, `tokio::join!` supervision in `src/main.rs`, the Ctrl-C task, and spawning the OPC UA event loop. These are concurrency. Only one tick body is modelled, and `run` is modelled as a sequence of actions.
- COM/WMI initialisation in `Monitoring::new` and query execution. The query is an oracle. Its answer depends on the query text alone, not on when it is asked.
- The OPC UA `ClientBuilder`, the endpoint's security policy and identity, and the `Session` calls are foreign I/O. Only their answers (`ServerAnswers`) and the order in which `run` makes the calls are modelled.
- The `MonitoredItemCreateRequest` defaults produced by `NodeId::into()` are not modelled. A request is represented by its node id.
- `Debug` of `Variant` and `Display` of `StatusCode` are library formatting. They are passed in as functions.
- The `println!`/`eprintln!` diagnostics are not modelled: the per-change logging, the subscription id, and the subscribe error text.
- Logger (`src/modules/logger.rs`), the network heartbeat (`src/modules/network.rs`) and CLI parsing (`src/cli.rs`) are I/O or placeholders.
- Opcua.SubscriptionParams: the fields are named by argument position in the client library's `create_subscription` (publishing interval, lifetime count, keep-alive count, notifications per publish, priority, enabled). That library is not part of this model.
- ModuleContext.New: module names are not checked for being non-empty, in the code or in the model.
- Monitoring.SensorConfigs: the contract states the shape of the table. Its exact names, units and query names are stated only by the definition and by `DefaultTemperatureQuery`.
- Timestamps are copied from the clock. Monotonicity across ticks is a property of the clock and is not stated.
