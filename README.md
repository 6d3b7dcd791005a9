# Temperature monitoring: a verified model of its decision logic

The system watches temperature and humidity sensors through three services:

- **sensor-service** keeps a cache of the active sensors, which it fetches from the API.
  It synthesises one reading per cached sensor and publishes the readings to a RabbitMQ queue.
- **notification-service** consumes that queue. For each message it looks the sensor up,
  stores the reading, and compares the reading with the sensor's bounds. It stores one alert
  row per violated bound, then acks or nacks the message.
- **api-principal** is the HTTP API over the `sensors` table:
  - CRUD handlers and the `SensorModel` queries behind them;
  - a Zod request schema with its validation middleware;
  - the server-rendered dashboard and its stats endpoint;
  - the dashboard's browser script (HTML escaping, URL building, the card filter).

This project models the decision logic of each of those parts in Dafny and proves what
each one promises. One Dafny module stands for each source file:

- `Thresholds`, `AlertConsumer`: `notification-service/src/consumers/AlertConsumer.ts`
- `Amqp`, `NotificationBroker`: `notification-service/src/config/rabbitmq.ts`
- `Amqp`, `SensorBroker`: `sensor-service/src/config/rabbitmq.ts`
- `SensorSimulator`: `sensor-service/src/services/SensorSimulator.ts`
- `SensorSchemas`: `api-principal/src/validators/sensorSchemas.ts`
- `ValidateZod`: `api-principal/src/middlewares/validateZod.ts`
- `SensorModel`: `api-principal/src/models/Sensor.ts`
- `SensorController`: `api-principal/src/controllers/SensorController.ts`
- `DashboardController`: `api-principal/src/controllers/DashboardController.ts`
- `DashboardMain`: `api-principal/src/public/js/dashboard-main.js`

Shared modules hold the JavaScript semantics the source relies on:

- `JsValues`: JSON values, truthiness, property lookup and spread, `trim`, `toLowerCase`, `join`.
- `JsNumbers`: `Number()`, `parseFloat`, `parseInt`, and IEEE-style `NaN`/infinity arithmetic on exact reals.
- `Wrappers`: `Option` and `Result`.
- `Flattening`: concatenation of a sequence of sequences.

The models take the source's own form. Code that changes state step by step becomes a class
with `modifies` clauses:

- the notification service's store (`AlertConsumer.Database`);
- the broker modules' connection variables (`SensorBroker.Broker`, `NotificationBroker.Broker`);
- the simulator object (`SensorSimulator.Simulator`);
- the `sensors` table (`SensorModel.SensorTable`);
- the middleware's request/response pair (`ValidateZod.Exchange`);
- the dashboard cards (`DashboardMain.Card`).

Each such method is proved against a specification function, and the properties are lemmas about
that function. Loops in the source are loops in the model:

- `SimulateReadings` (the simulator's loop over sensors);
- `BuildUpdate` (the SET-clause builder);
- `BuildUrl` (the parameter updates);
- `ApplyFilterAndSearch` (the loop over cards).

Everything outside the program is an input:

- Database failures are inputs: in `AlertConsumer` the set of query numbers that throw, in `SensorModel` a flag per query, and in `SensorController` the number of the first query that throws (`failAt`).
- `Math.random()` draws, clock readings, HTTP fetch outcomes and broker send failures are parameters.
- `JSON.parse` is a parameter function.

## Model

| member | source | states |
|---|---|---|
| `Thresholds.EvaluateSpec` | services/notification-service/src/consumers/AlertConsumer.ts:54-114 | At most two alerts. LOW_TEMPERATURE iff t < min, HIGH_TEMPERATURE iff not LOW and t > max; the same for humidity. No alert iff both values lie within their inclusive bounds. The temperature alert comes before the humidity alert. Every alert carries the sensor id, both reading values and the bound it violated. (Specifies `Thresholds.Evaluate`.) |
| `Thresholds.BoundaryValuesRaiseNothing` | services/notification-service/src/consumers/AlertConsumer.ts:59-101 | Each bound on its own: a temperature equal to the minimum raises no LOW_TEMPERATURE, one equal to the maximum no HIGH_TEMPERATURE, and the same for humidity. With min ≤ max, a value on either bound of its metric raises neither alert of that metric. All four comparisons are strict. |
| `AlertConsumer.Database.SelectSensor` | services/notification-service/src/consumers/AlertConsumer.ts:24-27 | Issues one query. If it fails the result is that query's error; otherwise the result is the first sensor row with the id. The tables are unchanged. |
| `AlertConsumer.Database.InsertReading` | services/notification-service/src/consumers/AlertConsumer.ts:37-41 | Appends exactly the given row, or nothing when the query fails. |
| `AlertConsumer.Database.InsertAlert` | services/notification-service/src/consumers/AlertConsumer.ts:136-147 | Appends exactly the given alert, or nothing when the query fails. |
| `AlertConsumer.FindSensorSpec` | services/notification-service/src/consumers/AlertConsumer.ts:24-34 | The lookup finds nothing iff no sensor has the id. Otherwise it finds the earliest sensor with that id. |
| `AlertConsumer.MessageLines` | services/notification-service/src/consumers/AlertConsumer.ts:120 | Exactly one warn line per alert, in alert order. |
| `AlertConsumer.SummaryLines` | services/notification-service/src/consumers/AlertConsumer.ts:116-124 | The single "within normal range" line iff no alert was raised. Otherwise: a rule, the banner, one line per alert, and a closing rule. |
| `AlertConsumer.SaveAlert` | services/notification-service/src/consumers/AlertConsumer.ts:127-153 | The effect of the one insert: the alert is stored and logged, or the failure is logged and rethrown with nothing stored. |
| `AlertConsumer.CheckTemperature` | services/notification-service/src/consumers/AlertConsumer.ts:59-85 | Stores the temperature alert the evaluator raises, if any, through `saveAlert`, and rethrows its failure. |
| `AlertConsumer.CheckHumidity` | services/notification-service/src/consumers/AlertConsumer.ts:88-114 | The same for the humidity alert. |
| `AlertConsumer.CheckThresholds` | services/notification-service/src/consumers/AlertConsumer.ts:54-125 | Changes the store, the log and the result exactly as the threshold-check effect says. The sensors and readings tables are untouched. |
| `AlertConsumer.CheckEffectStoresEvaluate` | services/notification-service/src/consumers/AlertConsumer.ts:54-114 | The alerts stored are a prefix of the evaluator's alerts, in order, and no reading is written. All of them are stored iff the check returns normally. A failure carries the first failing insert, which is the last query issued. (Specifies `AlertConsumer.CheckEffect`.) |
| `AlertConsumer.CheckEffectEndsWithSummary` | services/notification-service/src/consumers/AlertConsumer.ts:116-124 | When the check returns normally, its log ends with the summary. |
| `AlertConsumer.ProcessReading` | services/notification-service/src/consumers/AlertConsumer.ts:21-52 | Runs the lookup, the reading insert and the threshold check. Store, log and result change exactly as the processing effect says, and the sensors table is untouched. |
| `AlertConsumer.UnknownSensorWritesNothing` | services/notification-service/src/consumers/AlertConsumer.ts:24-32 | When no sensor row matches, nothing is inserted and the call returns normally. |
| `AlertConsumer.ReadingStoredFirst` | services/notification-service/src/consumers/AlertConsumer.ts:37-46 | At most one reading row is stored. Any stored alert implies the reading row was stored, and that row holds the id, temperature and humidity but not the timestamp. |
| `AlertConsumer.KnownSensorRunsCheck` | services/notification-service/src/consumers/AlertConsumer.ts:34-46 | For a known sensor whose lookup and insert succeed, the reading is stored and then the threshold check runs. The call returns the check's result, and a failure is logged once more. (Specifies `AlertConsumer.Process`, with `UnknownSensorWritesNothing`, `FailureIsRethrown` and `AllStoredWhenNothingFails`.) |
| `AlertConsumer.AllStoredWhenNothingFails` | services/notification-service/src/consumers/AlertConsumer.ts:21-125 | When no query fails, a known sensor gets its reading and exactly the evaluator's alerts, and the call returns normally. |
| `AlertConsumer.CheckFailureIsFirst` | services/notification-service/src/consumers/AlertConsumer.ts:149-152 | A failing alert insert is rethrown: the check fails with the first failing insert, and every insert before it succeeded. |
| `AlertConsumer.FailureIsRethrown` | services/notification-service/src/consumers/AlertConsumer.ts:48-51 | Any failing query among those a known sensor's reading needs makes the call fail with the first failing query. |
| `AlertConsumer.FailureStoresPrefix` | services/notification-service/src/consumers/AlertConsumer.ts:21-52 | A failed call leaves a prefix of the raised alerts stored. Once the reading was stored, that prefix is a proper one. |
| `AlertConsumer.ReadingFailureStoresNoAlert` | services/notification-service/src/consumers/AlertConsumer.ts:37-46 | A failed reading insert prevents every alert insert. The call fails iff the sensor is known. |
| `AlertConsumer.BannerIffAlerts` | services/notification-service/src/consumers/AlertConsumer.ts:117-124 | When a known sensor's call returns normally, its log ends with the banner block iff an alert was raised, and otherwise with the all-clear line. |
| `Amqp.QueueName` | services/sensor-service/src/config/rabbitmq.ts:8 | The queue name is never empty. It is the override when one is set and not empty, and `sensor_data` otherwise. |
| `Amqp.Connect` | services/sensor-service/src/config/rabbitmq.ts:10-34 | A complete run leaves an open connection and an open channel with the durable queue (and the prefetch, where the service sets one), and registers the close handler. A failing run schedules exactly one reconnect. Each step's assignment survives a later failure. |
| `Amqp.ConnectionClosed` | services/sensor-service/src/config/rabbitmq.ts:25-28 | A close schedules one reconnect iff the connection's close handler was registered. Both variables still hold a connection and a channel iff they did before, with the same connection id, queue and prefetch. The closed connection, and the channel on it, are marked closed. A close of any other connection leaves both variables exactly as they were. |
| `Amqp.CloseAll` | services/sensor-service/src/config/rabbitmq.ts:59-67 | Closes the channel, then the connection. A rejected channel close leaves everything as it was, and neither variable is cleared. |
| `Amqp.RetriesNeverStop` | services/sensor-service/src/config/rabbitmq.ts:30-33 | While attempts keep failing, the number of pending reconnects never drops, whatever the sequence of events. There is no retry limit. |
| `Amqp.CloseLeadsToReconnect` | services/sensor-service/src/config/rabbitmq.ts:10-28 | A close of a fully set-up connection leaves one more timer pending. When that timer fires and the attempt succeeds, a new open connection and a ready channel are in place. |
| `SensorBroker.Send` | services/sensor-service/src/config/rabbitmq.ts:36-57 | At most one message is sent, and nothing without a channel. A message is sent iff the channel is open and the send does not throw. It goes to the queue as persistent `application/json`, stamped with the current time. |
| `SensorBroker.Broker.constructor` | services/sensor-service/src/config/rabbitmq.ts:4-8 | Both variables start null and nothing is pending. The queue name comes from the environment. |
| `SensorBroker.Broker.ConnectRabbitMQ` | services/sensor-service/src/config/rabbitmq.ts:10-34 | The new state is the connect step, with no prefetch. Nothing is published. |
| `SensorBroker.Broker.RetryFires` | services/sensor-service/src/config/rabbitmq.ts:30-33 | A pending reconnect timer runs another connect attempt. |
| `SensorBroker.Broker.ConnectionLost` | services/sensor-service/src/config/rabbitmq.ts:25-28 | The new state is the close step. |
| `SensorBroker.Broker.PublishMessage` | services/sensor-service/src/config/rabbitmq.ts:36-57 | Appends what `Send` sends, and returns true iff a message was sent. It never throws. |
| `SensorBroker.Broker.CloseRabbitMQ` | services/sensor-service/src/config/rabbitmq.ts:59-67 | The new state is the close-all step, and the call never throws. |
| `SensorBroker.ConnectedChannelReady` | services/sensor-service/src/config/rabbitmq.ts:12-17 | A successful connect declares the queue durable and sets no prefetch. |
| `SensorBroker.NoPublishAfterClose` | services/sensor-service/src/config/rabbitmq.ts:36-67 | Once the link is closed, publishing sends nothing. |
| `NotificationBroker.Broker.constructor` | services/notification-service/src/config/rabbitmq.ts:4-8 | Both variables start null, with no subscription and no settlements. |
| `NotificationBroker.Broker.ConnectRabbitMQ` | services/notification-service/src/config/rabbitmq.ts:10-36 | The new state is the connect step with prefetch 1. |
| `NotificationBroker.Broker.RetryFires` | services/notification-service/src/config/rabbitmq.ts:32-35 | A pending reconnect timer runs another connect attempt. |
| `NotificationBroker.Broker.ConnectionLost` | services/notification-service/src/config/rabbitmq.ts:27-30 | The new state is the close step. |
| `NotificationBroker.Broker.ConsumeMessages` | services/notification-service/src/config/rabbitmq.ts:38-74 | With no channel it fails with 'RabbitMQ channel not available' and registers nothing. It succeeds iff the channel is open and `consume` does not reject; the subscription is then on the queue with `noAck: false`. |
| `NotificationBroker.Broker.HandleMessage` | services/notification-service/src/config/rabbitmq.ts:48-65 | Records the handler's settlements. On a closed channel nothing is settled and the handler ends in `Err("Channel closed")`, because the ack and the catch block's nack both throw. The store changes exactly by the processor's effect when the processor ran, and not at all otherwise. |
| `NotificationBroker.Broker.CloseRabbitMQ` | services/notification-service/src/config/rabbitmq.ts:76-84 | The new state is the close-all step (channel first), and the call never throws. |
| `NotificationBroker.NullDeliveryIgnored` | services/notification-service/src/config/rabbitmq.ts:49 | A null delivery is neither acked nor nacked, and the processor does not run. |
| `NotificationBroker.SettledExactlyOnce` | services/notification-service/src/config/rabbitmq.ts:51-64 | With an open channel, every delivery is settled exactly once and the handler returns normally. It is acked iff the body parses and the processor returns normally, and otherwise nacked with requeue=false. (Specifies `NotificationBroker.Handle` with `NullDeliveryIgnored`, `UnparsableNacked` and `ClosedChannelSettlesNothing`.) |
| `NotificationBroker.ClosedChannelSettlesNothing` | services/notification-service/src/config/rabbitmq.ts:57-64 | If the channel closed while the delivery was being processed, nothing is acked or nacked and the handler's promise rejects. The processor still ran iff the body parses. |
| `NotificationBroker.UnparsableNacked` | services/notification-service/src/config/rabbitmq.ts:52-63 | On an open channel, a body that does not parse is nacked without requeue, and the processor does not run. |
| `NotificationBroker.UnknownSensorAcked` | services/notification-service/src/config/rabbitmq.ts:57-60 | End to end on an open channel, a reading for an unknown sensor is acked and writes nothing. |
| `NotificationBroker.StoreErrorNacked` | services/notification-service/src/config/rabbitmq.ts:57-63 | End to end on an open channel, a failing query in a known sensor's processing gets the message nacked without requeue. |
| `NotificationBroker.HealthyReadingAcked` | services/notification-service/src/config/rabbitmq.ts:57-60 | End to end on an open channel, with no failing query a known sensor's message is acked after the reading and exactly the raised alerts are stored. |
| `NotificationBroker.ConnectedChannelReady` | services/notification-service/src/config/rabbitmq.ts:12-19 | A successful connect declares the queue durable and sets prefetch 1. |
| `SensorSimulator.CacheEntryFields` | services/sensor-service/src/services/SensorSimulator.ts:33-39 | The spread keeps every field of the row, except that the four bounds hold `Number()` of the row's values. |
| `SensorSimulator.CacheEntrySensorId` | services/sensor-service/src/services/SensorSimulator.ts:33-34 | A cached sensor keeps its row's `sensor_id`. |
| `SensorSimulator.Converted` | services/sensor-service/src/services/SensorSimulator.ts:33-39 | One cache entry per kept item, in order. |
| `SensorSimulator.ActiveItemsAreActive` | services/sensor-service/src/services/SensorSimulator.ts:32 | The filter keeps only objects with a truthy `active`, and never more items than it got. (Specifies `SensorSimulator.ActiveItems` with the two lemmas below.) |
| `SensorSimulator.ActiveItemsAppend` | services/sensor-service/src/services/SensorSimulator.ts:32 | Filtering two lists one after the other gives the filtered first list followed by the filtered second. |
| `SensorSimulator.ActiveItemsKeepsEveryActive` | services/sensor-service/src/services/SensorSimulator.ts:32 | Every item with a truthy `active`, wherever it stands in mixed input, is kept by the filter. |
| `SensorSimulator.ActiveItemsOfActiveItems` | services/sensor-service/src/services/SensorSimulator.ts:32 | When every item is active, the filter keeps all of them, in order. |
| `SensorSimulator.InactiveFilteredOut` | services/sensor-service/src/services/SensorSimulator.ts:31-32 | When no item is active, the new cache is empty. |
| `SensorSimulator.CachedFieldsAreNumbers` | services/sensor-service/src/services/SensorSimulator.ts:35-38 | Every cached bound is a number (possibly NaN). |
| `SensorSimulator.CachedKeepsFields` | services/sensor-service/src/services/SensorSimulator.ts:31-34 | With all items active, the cache holds one entry per item, in order, and each entry keeps every field of its item other than the four converted bounds (its `sensor_id` among them). |
| `SensorSimulator.NormalValue` | services/sensor-service/src/services/SensorSimulator.ts:55-68 | On the normal path with finite bounds, the value is `NormalPoint`: the centre plus the draw's offset from 0.5 times 30% of the range. (Specifies `SensorSimulator.MetricValue` with `NormalValueInBand` and `ExceedValueNearBound`.) |
| `SensorSimulator.NormalValueInBand` | services/sensor-service/src/services/SensorSimulator.ts:55-68 | With min ≤ max and a draw in [0, 1), the normal-path value `NormalPoint` (which `NormalValue` shows the generator computes) lies within the centre ± 15% of the range, and so within [min, max]. |
| `SensorSimulator.ExceedValueNearBound` | services/sensor-service/src/services/SensorSimulator.ts:63-66 | On the exceed path the value lies in (min − margin, min] or in [max, max + margin). The margin is 5 for temperature and 10 for humidity. |
| `SensorSimulator.NaNTemperatureBoundThrows` | services/sensor-service/src/services/SensorSimulator.ts:48-53 | A NaN temperature bound makes the generator throw the invalid-configuration error naming the sensor. |
| `SensorSimulator.NaNHumidityBoundsNotChecked` | services/sensor-service/src/services/SensorSimulator.ts:47-93 | Humidity bounds are not checked: NaN humidity bounds still give a reading, with NaN humidity. |
| `SensorSimulator.ReadingCarriesSensorId` | services/sensor-service/src/services/SensorSimulator.ts:87-88 | A generated reading, and the message built from it, carry the sensor's own `sensor_id`. (Specifies `SensorSimulator.GenerateReading` with `NaNTemperatureBoundThrows` and `NaNHumidityBoundsNotChecked`.) |
| `SensorSimulator.Turns` | services/sensor-service/src/services/SensorSimulator.ts:101-113 | One turn per cached sensor, in cache order. |
| `SensorSimulator.TurnPublishes` | services/sensor-service/src/services/SensorSimulator.ts:101-109 | With sane temperature bounds and a working open channel, a turn publishes exactly one message to the queue, carrying the sensor's id. |
| `SensorSimulator.EverySensorPublished` | services/sensor-service/src/services/SensorSimulator.ts:95-114 | Under the same conditions, every cached sensor gets exactly one message, in cache order. |
| `SensorSimulator.FailingTurnSkipped` | services/sensor-service/src/services/SensorSimulator.ts:102-112 | A sensor whose generator throws publishes nothing and does not stop the loop. The result is the sensors before it followed by the sensors after it. |
| `SensorSimulator.NothingPublishedWithoutChannel` | services/sensor-service/src/services/SensorSimulator.ts:105 | Without a channel the loop publishes nothing. |
| `SensorSimulator.DefaultIntervalIs5000` | services/sensor-service/src/services/SensorSimulator.ts:23 | The default interval text parses to 5000. |
| `SensorSimulator.Simulator.constructor` | services/sensor-service/src/services/SensorSimulator.ts:21-24 | Starts with an empty cache and no interval. The URL is the environment's `API_PRINCIPAL_URL` when it is set and not empty, and `http://localhost:3000` otherwise. The interval is `parseInt` of `SENSOR_INTERVAL_MS` when it is set and not empty, and 5000 otherwise. |
| `SensorSimulator.Simulator.FetchActiveSensors` | services/sensor-service/src/services/SensorSimulator.ts:26-45 | The cache becomes the converted active sensors after a successful fetch. It is unchanged after a rejection, a falsy `success`, a non-array `data` or a null item. |
| `SensorSimulator.Simulator.SimulateReadings` | services/sensor-service/src/services/SensorSimulator.ts:95-114 | The loop appends exactly the concatenated publications of the turns, one turn per cached sensor in order. |
| `SensorSimulator.Simulator.RunTurn` | services/sensor-service/src/services/SensorSimulator.ts:102-112 | One sensor's turn appends what that turn publishes, or nothing when it throws. |
| `SensorSimulator.Simulator.Start` | services/sensor-service/src/services/SensorSimulator.ts:116-133 | Runs an initial fetch, starts one fetch interval, and starts the reading interval, whose id is kept. |
| `SensorSimulator.Simulator.Stop` | services/sensor-service/src/services/SensorSimulator.ts:135-141 | Clears the held reading interval and sets the id to null. A second call changes nothing. |
| `SensorSchemas.UnknownKeys` | services/api-principal/src/validators/sensorSchemas.ts:65 | Lists exactly the body's keys that the schema does not declare. |
| `SensorSchemas.SensorIdRule` | services/api-principal/src/validators/sensorSchemas.ts:37-42 | `sensor_id` is accepted iff it is a string whose trimmed text has 1–100 characters, all from [A-Za-z0-9_-]. The parsed value is the trimmed text, and issues are reported at `sensor_id`. |
| `SensorSchemas.LengthRule` | services/api-principal/src/validators/sensorSchemas.ts:40-41 | A length check passes iff the text has 1 to max UTF-16 code units, and reports at the field. |
| `SensorSchemas.NameRule` | services/api-principal/src/validators/sensorSchemas.ts:44-48 | `name` is accepted iff it is a string whose trimmed text has 1–255 characters. The parsed value is trimmed. |
| `SensorSchemas.LocationRule` | services/api-principal/src/validators/sensorSchemas.ts:50-55 | `location` is accepted iff it is absent or follows the rule for `name`. |
| `SensorSchemas.ActiveRule` | services/api-principal/src/validators/sensorSchemas.ts:63 | `active` is accepted iff it is absent or a boolean, and it is kept as given. |
| `SensorSchemas.NumberRule` | services/api-principal/src/validators/sensorSchemas.ts:4-27 | A numeric field is accepted iff, after coercion, it is a finite number within its bounds. The parsed value is the coerced number, and issues are reported at the field. |
| `SensorSchemas.NumberSchemaRule` | services/api-principal/src/validators/sensorSchemas.ts:5-17 | The same rule stated on the value after preprocessing. |
| `SensorSchemas.BlankNumberRejected` | services/api-principal/src/validators/sensorSchemas.ts:20-22 | A blank numeric string becomes NaN and is rejected as "must be a number". |
| `SensorSchemas.NumericStringCoerced` | services/api-principal/src/validators/sensorSchemas.ts:20-23 | The decimal text of a natural number is coerced to that number. |
| `SensorSchemas.FieldIssuesRule` | services/api-principal/src/validators/sensorSchemas.ts:36-63 | The fields raise no issue iff each passes its own schema. |
| `SensorSchemas.StrictRule` | services/api-principal/src/validators/sensorSchemas.ts:65 | There are no unknown keys iff every key is declared. |
| `SensorSchemas.OrderRule` | services/api-principal/src/validators/sensorSchemas.ts:66-82 | With every field acceptable, the refinement raises nothing iff min < max for both metrics. |
| `SensorSchemas.AcceptedFieldsParsed` | services/api-principal/src/validators/sensorSchemas.ts:36-64 | Acceptable fields parse to the trimmed strings and to the numbers given. |
| `SensorSchemas.FieldsAcceptedExactly` | services/api-principal/src/validators/sensorSchemas.ts:35-82 | The object step accepts iff there is no unknown key, every field is acceptable, and both minima are below their maxima. |
| `SensorSchemas.ParseCheckedOk` | services/api-principal/src/validators/sensorSchemas.ts:65-82 | The object step succeeds iff no field issue, no strict issue and no refinement issue arises. (Specifies `SensorSchemas.ParseChecked`.) |
| `SensorSchemas.AcceptedExactly` | services/api-principal/src/validators/sensorSchemas.ts:35-82 | The schema accepts a body iff it is an object with only declared keys, every field is acceptable, and each minimum is below its maximum. (Specifies `SensorSchemas.ParseCreateBody`.) |
| `SensorSchemas.NonObjectRejected` | services/api-principal/src/validators/sensorSchemas.ts:35-36 | A body that is not an object gets one issue, at the empty path. |
| `SensorSchemas.OrderIssuesReported` | services/api-principal/src/validators/sensorSchemas.ts:66-82 | min_temperature ≥ max_temperature yields an issue at `min_temperature`, and min_humidity ≥ max_humidity one at `min_humidity`. |
| `SensorSchemas.ParsedDataRule` | services/api-principal/src/validators/sensorSchemas.ts:35-64 | The parsed data holds the trimmed strings and the coerced numbers, and no undefined entry. |
| `SensorSchemas.FieldValuesKept` | services/api-principal/src/validators/sensorSchemas.ts:36-63 | Every declared field with a defined parsed value appears in the data under its key. |
| `SensorSchemas.SpaceInSensorIdRejected` | services/api-principal/tests/sensors.create.spec.ts:74-89 | "sensor 001" is rejected. |
| `SensorSchemas.EighteenCoerced` | services/api-principal/tests/sensors.create.spec.ts:125-158 | '18' is coerced to 18. |
| `ValidateZod.JoinSplit` | services/api-principal/src/middlewares/validateZod.ts:20 | Joining path segments that hold no '.' with '.' can be split back into the same segments. |
| `ValidateZod.DetailPath` | services/api-principal/src/middlewares/validateZod.ts:20 | The path is never empty. An empty issue path gives `body`, a single segment gives itself, and anything else other than `body` is the '.'-join. |
| `ValidateZod.Details` | services/api-principal/src/middlewares/validateZod.ts:19-22 | Exactly one detail per issue, in issue order, each with that issue's path and message. |
| `ValidateZod.FailureBody` | services/api-principal/src/middlewares/validateZod.ts:24-28 | `success: false`, `error: 'Validation error'`, and one detail per issue. |
| `ValidateZod.Exchange.ValidateBody` | services/api-principal/src/middlewares/validateZod.ts:14-35 | On failure: answers 400 with the failure body, leaves the body as it was, and does not call `next`. On success: replaces the body by the parsed data, answers nothing, and calls `next` exactly once. |
| `ValidateZod.NonObjectDetail` | services/api-principal/src/middlewares/validateZod.ts:19-22 | A body that is not an object gives a single detail at `body`. |
| `ValidateZod.StrictIssueAtBody` | services/api-principal/src/middlewares/validateZod.ts:20 | Unknown keys are reported as one detail at `body`. |
| `SensorModel.SetColumn` | services/api-principal/src/models/Sensor.ts:70-73 | An assignment is refused exactly when the key names no column, or when it would make a non-string value the `sensor_id`. Otherwise it sets exactly that column (any value for `id`, whose type errors Postgres reports as a failed query) and leaves every other column unchanged. |
| `SensorModel.CreateDefaults` | services/api-principal/src/models/Sensor.ts:18-37 | A falsy location is stored as null, and an undefined `active` as true. Any other `active` and the other columns are stored as given. |
| `SensorModel.EligibleEntries` | services/api-principal/src/models/Sensor.ts:57-58 | Keeps exactly the entries with a defined value and a key other than `sensor_id`, never more. |
| `SensorModel.EligibleExactly` | services/api-principal/src/models/Sensor.ts:58 | An entry is assigned iff it is in the updates, its value is defined, and its key is not `sensor_id`. |
| `SensorModel.BuildUpdate` | services/api-principal/src/models/Sensor.ts:52-68 | The numbering loop builds exactly the query the update specification describes, or none. |
| `SensorModel.UpdateNumbering` | services/api-principal/src/models/Sensor.ts:55-71 | For n eligible entries, entry i gets placeholder $(i+1) bound to its value. `updated_at = CURRENT_TIMESTAMP` comes last. The WHERE placeholder is $(n+1), bound to the sensor id, and there are n+1 values. |
| `SensorModel.PlaceholdersDistinct` | services/api-principal/src/models/Sensor.ts:59-71 | No two placeholders coincide. |
| `SensorModel.NothingToUpdate` | services/api-principal/src/models/Sensor.ts:65 | With no eligible entry, no query is built. |
| `SensorModel.ApplyAllSets` | services/api-principal/src/models/Sensor.ts:70-74 | After the UPDATE, every assigned column holds its value and every other column is unchanged. |
| `SensorModel.ApplyAllKeepsKey` | services/api-principal/src/models/Sensor.ts:58 | The UPDATE never changes the row's `sensor_id`, for update keys compared literally with the column names (see `SensorModel.SensorTable.Update` under Left out). |
| `SensorModel.SensorTable.Newest` | services/api-principal/src/models/Sensor.ts:39-42 | Every row, newest first. |
| `SensorModel.SensorTable.Create` | services/api-principal/src/models/Sensor.ts:18-37 | Inserts the row with its defaults and returns it. A failing query, a NOT NULL violation or a duplicate key leaves the table unchanged. |
| `SensorModel.SensorTable.FindAll` | services/api-principal/src/models/Sensor.ts:39-42 | Returns all rows, newest first, or the error. |
| `SensorModel.SensorTable.FindById` | services/api-principal/src/models/Sensor.ts:44-50 | Returns the row with the id, or null when there is none. |
| `SensorModel.SensorTable.Update` | services/api-principal/src/models/Sensor.ts:52-75 | Returns null and changes nothing when nothing is eligible or no row matches. Otherwise updates exactly that row's assigned columns and `updated_at`, and returns the new row. A failing query changes nothing. Conversely, a working query on an existing row, with eligible keys that are all columns and values they accept, always succeeds and returns the row. |
| `SensorModel.SensorTable.Delete` | services/api-principal/src/models/Sensor.ts:77-83 | Returns true iff a row was removed, and the id is then absent. A failing query changes nothing. |
| `SensorController.Limit` | services/api-principal/src/controllers/SensorController.ts:161 | The limit is never 0, and it is 50 when the parameter is absent. |
| `SensorController.LimitOfNumber` | services/api-principal/src/controllers/SensorController.ts:161 | A positive decimal limit is taken as given. |
| `SensorController.LimitDefaults` | services/api-principal/src/controllers/SensorController.ts:161 | "0", "" and any text `parseInt` reads as NaN give 50. |
| `SensorController.CreatedSensorActive` | services/api-principal/src/controllers/SensorController.ts:30-38 | A sensor created through the handler is always active, whatever the body says, and its bounds are the `parseFloat` of what was sent. |
| `SensorController.CompleteBodyInsertable` | services/api-principal/src/controllers/SensorController.ts:12-38 | A body that passes the missing-field check gives a row the table accepts. |
| `SensorController.CreateSensor` | services/api-principal/src/controllers/SensorController.ts:8-54 | 400 'Missing required fields' for a falsy id or name or an undefined bound. 409 for an existing id. 500 when a query throws. Otherwise 201 with the created row, which is then in the table. Every status other than 201 leaves the table unchanged. |
| `SensorController.GetAllSensors` | services/api-principal/src/controllers/SensorController.ts:56-71 | 200 with every row newest first and its count, or 500. |
| `SensorController.GetSensorById` | services/api-principal/src/controllers/SensorController.ts:73-97 | 404 for an unknown id, 200 with the row otherwise, 500 on a thrown query. |
| `SensorController.UpdateSensor` | services/api-principal/src/controllers/SensorController.ts:99-127 | Unless the first query throws, 404 iff the id is unknown. 200 with `data: null` when nothing is eligible. Both leave the table unchanged. Otherwise 200 with the updated row, stored in the table. Conversely, with no failing query, an existing id and an update the table accepts, the answer is 200. |
| `SensorController.DeleteSensor` | services/api-principal/src/controllers/SensorController.ts:129-156 | 404 for an unknown id. Otherwise 200 'Sensor deleted successfully', and the id is then gone. A status other than 200 leaves the table unchanged. |
| `SensorController.GetSensorList` | services/api-principal/src/controllers/SensorController.ts:158-216 | 404 for an unknown id. Otherwise 200 with the list fetched for the id and the defaulted limit, and its count. 500 when either query throws. |
| `DashboardController.FirstReading` | services/api-principal/src/controllers/DashboardController.ts:15 | The index `find` stops at: no reading before it has the sensor's id, and the reading at it does, if it is in range. |
| `DashboardController.SensorsWithData` | services/api-principal/src/controllers/DashboardController.ts:14-20 | One joined entry per sensor, in the sensors' order. |
| `DashboardController.JoinKeepsSensor` | services/api-principal/src/controllers/DashboardController.ts:16-19 | Every sensor column other than `latest_reading` survives the join unchanged, including `sensor_id`. (Specifies `DashboardController.WithLatest`.) |
| `DashboardController.JoinLatestReading` | services/api-principal/src/controllers/DashboardController.ts:15-18 | `latest_reading` is null iff no reading has the sensor's id. Otherwise it is the first reading that has it. (Specifies `DashboardController.LatestReading`.) |
| `DashboardController.RenderDashboard` | services/api-principal/src/controllers/DashboardController.ts:8-32 | 500 'Error loading dashboard' iff any query throws. Otherwise the `dashboard` view with its title, the joined sensors, the recent alerts and the timestamp. |
| `DashboardController.ActiveSensors` | services/api-principal/src/controllers/DashboardController.ts:37 | Keeps only sensors with a truthy `active`, keeps every such sensor, and never more than there are. |
| `DashboardController.ActiveSensorsAppend` | services/api-principal/src/controllers/DashboardController.ts:37 | The filter distributes over concatenation, so the kept sensors stay in input order. |
| `DashboardController.ActiveSensorsMultiplicity` | services/api-principal/src/controllers/DashboardController.ts:37 | Each active sensor occurs in the result exactly as often as in the input, and inactive ones never, so `active_sensors` is exactly the number of active sensors. |
| `DashboardController.AllActive` | services/api-principal/src/controllers/DashboardController.ts:37 | The active count equals the total iff every sensor is active. |
| `DashboardController.StatsDataKeys` | services/api-principal/src/controllers/DashboardController.ts:43-48 | The stats object holds each of the four counts under its own key. |
| `DashboardController.GetStats` | services/api-principal/src/controllers/DashboardController.ts:34-57 | 500 iff any query throws. Otherwise 200 with the sensor count, the active count (never above the total), the recent-alert count and the latest-reading count. |
| `DashboardMain.Entity` | services/api-principal/src/public/js/dashboard-main.js:37-41 | Each entity starts with '&', ends with ';', and holds no escaped character after its '&'. |
| `DashboardMain.EscapeHtmlCharwise` | services/api-principal/src/public/js/dashboard-main.js:35-42 | The five chained `replaceAll` calls escape each character on its own: the `&` pass runs first, so no entity is escaped twice. (Specifies `DashboardMain.EscapeHtml` with `EscapeHtmlSafe` and `EscapeRoundTrip`.) |
| `DashboardMain.EscapeNothing` | services/api-principal/src/public/js/dashboard-main.js:36 | null and undefined escape to ''. |
| `DashboardMain.EscapePlainText` | services/api-principal/src/public/js/dashboard-main.js:35-42 | Text without the five special characters is unchanged. |
| `DashboardMain.EscapeRoundTrip` | services/api-principal/src/public/js/dashboard-main.js:35-42 | Decoding the five entities, `&amp;` last, recovers the input. (Specifies `DashboardMain.UnescapeHtml`.) |
| `DashboardMain.EscapeHtmlSafe` | services/api-principal/src/public/js/dashboard-main.js:37-41 | The output holds no `<`, `>`, `"` or `'`, and every `&` in it begins one of the five entities. |
| `DashboardMain.ApplyNamed` | services/api-principal/src/public/js/dashboard-main.js:53-55 | After one update, the key has no pair (null, undefined or '') or exactly the one pair with the new value. Other keys are unchanged. |
| `DashboardMain.ApplyOthers` | services/api-principal/src/public/js/dashboard-main.js:53-55 | One update leaves the pairs of every other key in place and in order. |
| `DashboardMain.ApplyAllKeepsOthers` | services/api-principal/src/public/js/dashboard-main.js:52-56 | The existing parameters `buildUrl` is not asked to change are kept, in order. |
| `DashboardMain.ApplyAllNamed` | services/api-principal/src/public/js/dashboard-main.js:52-56 | Each key of `params` ends with no pair (null, undefined or '') or with exactly one pair holding its value. |
| `DashboardMain.FormEncode` | services/api-principal/src/public/js/dashboard-main.js:58 | The encoded name or value holds none of `& = ? #` or space, and is never shorter than its input. |
| `DashboardMain.SerializeEmpty` | services/api-principal/src/public/js/dashboard-main.js:58-59 | The query string is empty iff no parameter is left. |
| `DashboardMain.BuildUrl` | services/api-principal/src/public/js/dashboard-main.js:48-60 | The URL is the pathname alone when no parameter is left, and otherwise the pathname, '?' and the serialized parameters. |
| `DashboardMain.QueryParam` | services/api-principal/src/public/js/dashboard-main.js:196-198 | A given parameter is taken as it is, and a missing one becomes ''. |
| `DashboardMain.ReadRoute` | services/api-principal/src/public/js/dashboard-main.js:196-200 | The filter is always one of all/active/inactive: a valid one is kept and any other becomes 'all'. `q` and `sensor` come from the query. |
| `DashboardMain.FiltersPartition` | services/api-principal/src/public/js/dashboard-main.js:85-88 | 'active' and 'inactive' split what 'all' shows, and no other filter shows anything. A card the 'active' filter shows has `data-active` text "1", and one the 'inactive' filter shows does not. (Specifies `DashboardMain.Visible` and `DashboardMain.DataActive`.) |
| `DashboardMain.SearchIgnoresCase` | services/api-principal/src/public/js/dashboard-main.js:74 | The search ignores the case of the query. (Specifies `DashboardMain.SearchQuery` with `BlankSearch`.) |
| `DashboardMain.BlankSearch` | services/api-principal/src/public/js/dashboard-main.js:74-90 | A query of blanks searches for nothing, and the filter alone decides. |
| `DashboardMain.SearchFindsOwnId` | services/api-principal/src/public/js/dashboard-main.js:79-90 | A card the filter lets through is found by its own sensor id. |
| `DashboardMain.DataText` | services/api-principal/src/public/js/dashboard-main.js:79-83 | A card's text field reads as its attribute's own text or as '', and the text "1" is kept. |
| `DashboardMain.ApplyFilterAndSearch` | services/api-principal/src/public/js/dashboard-main.js:73-94 | Every card is shown iff the filter matches and the trimmed, lower-cased query is empty or occurs in its lower-cased "id name location". |
| `DashboardMain.HandleDashboardRoute` | services/api-principal/src/public/js/dashboard-main.js:195-217 | Reads the normalised route state and filters every card by it. |
| `JsValues.SetProp` | services/api-principal/src/controllers/DashboardController.ts:16-19 | A spread with one property: that key takes the new value and every other key keeps its own. A new key is appended. |
| `JsValues.Trim` | services/api-principal/src/validators/sensorSchemas.ts:21 | The result has no whitespace at either end and is no longer than the input. |
| `JsValues.TrimSpec` | services/api-principal/src/validators/sensorSchemas.ts:21 | The trimmed text is the input's middle slice: everything before it and everything after it is whitespace. |
| `JsValues.ToLower` | services/api-principal/src/public/js/dashboard-main.js:74 | Keeps the length. No ASCII capital is left. Every character that is not an ASCII capital is kept, and every ASCII capital becomes the small letter 32 code points above it. |
| `JsNumbers.ToNumber` | services/api-principal/src/validators/sensorSchemas.ts:23 | Blank text converts to 0. |
| `JsNumbers.ToNumberSigned` | services/api-principal/src/validators/sensorSchemas.ts:23 | A leading `-` negates what `Number` reads, and a leading `+` changes nothing. |
| `JsNumbers.ToNumberOfInfinity` | services/api-principal/src/validators/sensorSchemas.ts:23 | "Infinity" reads as +∞ and "-Infinity" as −∞ (which the schema then rejects as not finite). |
| `JsNumbers.ToNumberOfFraction` | services/api-principal/src/validators/sensorSchemas.ts:23 | A decimal fraction with digits on both sides of its point reads as its exact value: the integer part plus the fraction digits over the matching power of ten. |
| `JsNumbers.ParseIntOfNatToString` | services/api-principal/src/controllers/SensorController.ts:161 | `parseInt` reads back the decimal text of any natural number. (Specifies `JsNumbers.ParseInt` with `LimitOfNumber` and `LimitDefaults`.) |
| `JsNumbers.ToNumberOfNatToString` | services/api-principal/src/validators/sensorSchemas.ts:23 | `Number` reads back the decimal text of any natural number. |
| `JsNumbers.ParseFloatOfNatToString` | services/api-principal/src/controllers/SensorController.ts:34-37 | `parseFloat` reads back the decimal text of any natural number. (Specifies `JsNumbers.ParseFloat` with the two lemmas below.) |
| `JsNumbers.ParseFloatOfFraction` | services/api-principal/src/controllers/SensorController.ts:34-37 | `parseFloat` reads a decimal fraction with digits on both sides of its point as its exact value. |
| `JsNumbers.ParseFloatSkipsBlank` | services/api-principal/src/controllers/SensorController.ts:34-37 | A leading blank does not change what `parseFloat` reads. |

## Left out

- `routes/index.ts:12` wires `createSensor` without the validation middleware. The validator and the controller are modelled as separate components, and nothing here claims the route composes them.
- `JSON.parse` and `JSON.stringify`, Buffers and the amqplib transport are not modelled. Parsing is a parameter function, and the channel is a small datatype of connection id, queue declaration, prefetch and open flag.
- `NotificationBroker.Broker.HandleMessage`: the handler settles on whatever channel the variable holds when the processor returns. After a reconnect, that is the new channel, and the model records the old delivery tag as settled there. The broker's answer to an unknown delivery tag (it closes that channel) is not modelled.
- Timers are counted, not timed: the 5000 ms reconnect delay, the 30 s fetch interval and the reading interval.
- Logging is modelled only in `AlertConsumer`, as a list of line kinds without their free text. Elsewhere logging is left out.
- Floating point is not modelled: numbers are exact reals plus NaN and the two infinities, so double rounding, overflow to infinity and `toFixed(2)` are absent.
- `Math.random()` draws, `Date.now()` and `toISOString()` are parameters. `NormalValueInBand` and `ExceedValueNearBound` assume draws in [0, 1).
- `JsNumbers.ToNumber`: hexadecimal, octal and binary literals, signed and unsigned decimals with a fraction and an exponent, and the `Infinity` spellings are all modelled. Lemmas characterise blank text, natural numbers, fractions, signs and `Infinity`. No lemma characterises exponent forms (`1e3`) or a radix literal's value.
- `JsValues.ToLower` lower-cases ASCII letters only; the rest of Unicode case mapping is not modelled.
- Lone UTF-16 surrogates cannot occur in the model's strings. `FormEncode` therefore never meets them, and `Utf16Length` counts each character outside the BMP as two units.
- The Zod library is modelled only through the rules this schema uses. Two of its behaviours are assumed:
  - The refinement runs only when no field failed on its type.
  - Issues are collected field by field, in declaration order.
- Postgres types are simplified. Numeric columns come back as they were sent, with no `numeric`-to-string conversion. The table is keyed by `sensor_id`.
- `SensorController.CreateSensor`: a `sensor_id` that is a number, array or object is not converted to text. node-postgres sends such a value as text (`String(v)`, an array literal or JSON). The source therefore stores it and answers 201, or 409 when a row already has that text as its id. The model's table is keyed by strings, so it answers 500 and leaves the table unchanged.
- Ties in `created_at` are not modelled: rows are ordered by insertion. Foreign-key cascades from `sensors` to `sensor_readings` and `alerts` are not modelled.
- `SensorModel.SensorTable.Update` compares update keys literally with the column names. Postgres folds unquoted identifiers to lower case, so a key such as `SENSOR_ID` passes the `key !== 'sensor_id'` guard (Sensor.ts:58) and still names the primary key, and a key that is not an identifier alters the SQL text. The model rejects both as unknown columns, with the query's error. It does not capture that such a body can change a row's `sensor_id`.
- The alerts' `message` and `threshold_exceeded` texts (AlertConsumer.ts:60-112) are not stored as text. `Thresholds.AlertEvent` keeps the kind, the sensor id, both reading values and the violated bound, from which those texts are built. It does not keep the sensor's `name`, which the message also quotes. Number-to-text formatting and the emoji prefixes are not modelled.
- `SensorModel.findActive` (Sensor.ts:85-90) is not modelled; no handler in the modelled core calls it.
- `ReadingModel`, `AlertModel` and their SQL (latest reading per sensor, alerts of the last hour, per-sensor lists with a limit) are not part of this model. Their results are handler inputs.
- The DOM, jQuery, `fetch` and the router in `dashboard-main.js` are not modelled: `setActiveFilter`, the search box, `refreshStats`, `refreshLatestReadings`, `loadSensorDetail`, the drawer, `next()` and the click handlers.
- `DashboardMain.HandleDashboardRoute` models only the route reading and the card filtering.
- `DashboardMain.BuildUrl` takes the parameters as a list with distinct names, already converted with `String(v)`, and the parsed `location.search`. Parsing the search string is not modelled.
- `DashboardMain.EscapeHtml` models `String(str ?? '')` only for strings and null/undefined. `String()` of numbers and objects is not modelled.
- `DashboardMain.ApplyFilterAndSearch` models jQuery `data()` conversion for "true", "false", "null" and numeric text. JSON-looking attribute values (`{...}`, `[...]`) are not modelled.
- The three `server.ts` files, `app.ts`, `migrate.ts`, `logger.ts`, `safe.js` and the Jest configuration are not part of this model.
