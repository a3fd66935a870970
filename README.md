# Gap-filling sensor pipeline: estimators, registries and routing

A Dafny model of the estimation and routing core of a pipeline that receives
sensor readings, smooths and extrapolates them with Kalman filters, fills the
gaps when a reading is missing, and forwards the result on a publish/subscribe
bus. The transport (ZeroMQ sockets, polling, threads) is taken as input:
a received message is a `(topic, payload)` pair, or "nothing polled", or a
failed poll.

Modules, one per part of the system:

- `Matrix`, `Kalman`: 2 x 2 and 3 x 3 matrices entry by entry over `real`, and the
  predict/correct arithmetic of a Kalman filter whose observation selects the
  value component.
- `Filters`: the constant-velocity `KalmanFilter2D` and constant-acceleration
  `KalmanFilter3D` (filter/kalman_filter.py), as classes whose `state` and `P`
  fields `Predict` and `Update` overwrite. It also holds `AnyFilter`, a filter
  of either kind as the managers keep them, and `PredictThenUpdate`, the
  predict-then-update step that two managers run on a decoded value.
- `Confidence`: `compute_confidence`, the clamp of 1/(1+P[0][0]) into [0,1].
- `Predictors`: the imputation side's 3-state `KalmanFilter` predictor
  (app/imputation/predictors/Predictor.py).
- `FilterFactory`: `instantiate_filter` (app/utils/config_loader.py).
  - It dispatches on the "2D"/"3D" tag.
  - Keyword arguments are bound to the constructor's parameters and their
    defaults.
- `SensorConfigLoader`: `load_filters_from_config` (utils/config_loader.py),
  one filter per sensor, with the last sensor of an id winning.
- `Registries`: the file-backed `Registry` with a ghost `saved` snapshot
  standing for the file, and the validators of `FilterRegistry` and
  `StreamRegistry`.
- `Imputation`: `Imputer.consume_event` and `ImputerManager`'s
  `_create_predictor` / `_create_workers`.
- `Messaging`:
  - the partitioned event bus of app/messaging: `Client`, `StreamClient` and
    `EventStream`;
  - exact-topic consumers and wildcard consumers both receive a message;
  - consumers are recorded as a list of deliveries rather than called.
- `JavaMessaging`: the Java `EventStream`, where an exact handler wins and the
  wildcard handler is only a fallback.
- `TopicClient`: the prefix-routed `StreamClient` of
  app/messaging/ClientTypes/StreamClient.py.
- `ZmqFraming`: the `topic + " " + json` framing of publish/zmq_setup.py.
- The three stream-manager drafts:
  - `Processor` (processor/stream_manager.py);
  - `DatastreamManager` (datastream/StreamManager.py);
  - `AppStreamManager` (app/manager/StreamManager.py).
- `Values`, `Strings`: decoded JSON values, Python exceptions as a datatype, and
  `dict.get`, `d[k]`, truthiness, hashability and `str.split(c, 1)`.

Python exceptions are values: an operation that can raise returns
`Result<_, PyError>`. A constructor that can raise (`__init__` of the two
registry-backed managers) becomes a `Create` method returning
`Result<StreamManager, PyError>`. `json.loads`/`json.dumps` are
parameters (`string -> Option<Json>`, `Record -> string`).

## Model

| member | source | states |
|---|---|---|
| Confidence.Clamp01 | filter/confidence.py:10 | `max(0.0, min(1.0, x))` lies in [0,1], is x inside it, 0 below and 1 above |
| Confidence.ConfidenceOf | filter/confidence.py:8-10 | the confidence of any variance lies in [0,1] |
| Confidence.ComputeConfidence | filter/confidence.py:4-10 | ValueError with the source's message exactly when the matrix has no rows or no columns; otherwise a value in [0,1] |
| Confidence.OnlyTopLeftMatters | filter/confidence.py:8 | two matrices with the same [0][0] entry get the same confidence |
| Confidence.ConfidenceUnclamped | filter/confidence.py:9-10 | for variance >= 0 the result is exactly 1/(1+variance), and variance 0 gives 1.0 |
| Confidence.ConfidenceMonotone | filter/confidence.py:9 | more variance never gives more confidence (variances above -1) |
| Confidence.ConfidenceExtremes | filter/confidence.py:9-10 | variance 1000 gives less than 0.01; variance 0.01 gives more than 0.99 |
| Kalman.PredictKinematics2 | filter/kalman_filter.py:21-29 | F x is (value + dt rate, rate) |
| Kalman.PredictKinematics3 | filter/kalman_filter.py:87-95 | F x is (value + dt rate + dt^2/2 acc, rate + dt acc, acc) |
| Kalman.PredictCovSymmetric2 | filter/kalman_filter.py:31 | F P F^T + Q with Q diagonal is symmetric whenever P is |
| Kalman.PredictCovSymmetric3 | filter/kalman_filter.py:98 | the same for the 3 x 3 filter |
| Kalman.InnovationVarianceSelect | filter/kalman_filter.py:39 | S = H P H^T + R is P[0][0] + R when H selects component 0 |
| Kalman.CorrectClosedForm2 | filter/kalman_filter.py:34-48 | the 2D update in closed form: the gain is P's first column over S, and the new value and P are given entry by entry |
| Kalman.CorrectClosedForm3 | filter/kalman_filter.py:100-114 | the 3D update in closed form, as above |
| Kalman.GainSelect3 | filter/kalman_filter.py:105-108 | K = P H^T / S is P's first column divided by P[0][0] + R |
| Kalman.KeepMinusOuter3 | filter/kalman_filter.py:114 | (I - K H) P subtracts K times P's first row from P |
| Kalman.CorrectedValueBetween | filter/kalman_filter.py:36-45 | with R > 0 and P[0][0] > 0 the new value lies strictly between the prior value and the measurement |
| Kalman.CorrectedValueFixed | filter/kalman_filter.py:36-45 | measuring the current value leaves the value unchanged |
| Kalman.CorrectedVarianceShrinks | filter/kalman_filter.py:39-48 | the new P[0][0] is P[0][0] R / (P[0][0] + R), and never more than P[0][0] when P[0][0] + R > 0 |
| Kalman.CorrectedCovSymmetric2 | filter/kalman_filter.py:48 | the closed-form corrected 2 x 2 covariance is symmetric when P is |
| Kalman.CorrectedCovSymmetric3 | filter/kalman_filter.py:114 | the same for 3 x 3 |
| Kalman.CorrectSummary3 | filter/kalman_filter.py:100-114 | the 3D update moves the value as CorrectedValue, sets P[0][0] to CorrectedVariance, and keeps the state when the measurement equals the value |
| Kalman.CorrectCovSymmetric2 | filter/kalman_filter.py:39-48 | `update` keeps a symmetric 2 x 2 P symmetric |
| Kalman.CorrectCovSymmetric3 | filter/kalman_filter.py:105-114 | `update` keeps a symmetric 3 x 3 P symmetric |
| Matrix.Rows2 | filter/kalman_filter.py:59-60 | the covariance as rows is 2 x 2 with P[0][0] at the top left |
| Matrix.Rows3 | filter/kalman_filter.py:128-129 | the covariance as rows is 3 x 3 with P[0][0] at the top left |
| Matrix.CongruenceSymmetric2 | filter/kalman_filter.py:31 | F P F^T + Q is symmetric for symmetric P and Q |
| Matrix.CongruenceSymmetric3 | filter/kalman_filter.py:98 | the same for 3 x 3 |
| Filters.KalmanFilter2D.constructor | filter/kalman_filter.py:4-24 | the state is (value, rate), P = variance I, Q = noise I, R is the measurement noise, H selects the value, F is the constant-velocity transition |
| Filters.KalmanFilter2D.Predict | filter/kalman_filter.py:27-31 | value' = value + dt rate, rate' = rate, P' = F P F^T + Q; F, Q, H and R are unchanged and P stays symmetric |
| Filters.KalmanFilter2D.Update | filter/kalman_filter.py:34-48 | the state and P are the Kalman correction, the value lands at CorrectedValue, P[0][0] becomes CorrectedVariance, and measuring the current value changes nothing; it requires S = P[0][0] + R to be nonzero |
| Filters.KalmanFilter2D.GetCovariance | filter/kalman_filter.py:59-60 | `compute_confidence` of the returned matrix succeeds and reads P[0][0] |
| Filters.KalmanFilter3D.constructor | filter/kalman_filter.py:65-91 | the state is (value, rate, acceleration), P = variance I, Q = noise I, H selects the value, F is the constant-acceleration transition |
| Filters.KalmanFilter3D.Predict | filter/kalman_filter.py:93-98 | the constant-acceleration kinematics, and P' = F P F^T + Q |
| Filters.KalmanFilter3D.Update | filter/kalman_filter.py:100-114 | as the 2D update, on the 3-state model |
| Filters.KalmanFilter3D.GetCovariance | filter/kalman_filter.py:128-129 | `compute_confidence` of the returned matrix succeeds and reads P[0][0] |
| Filters.TypeOf | filter/kalman_filter.py:50-51 | `get_type` is "2D" exactly for the 2D filter and "3D" exactly for the 3D one |
| Filters.CovarianceOf | datastream/StreamManager.py:100 | the confidence of either kind of filter is that of its value variance |
| Filters.PredictAny | processor/stream_manager.py:64 | `kf.predict()` on either kind moves the value and its variance to the predicted ones |
| Filters.UpdateAny | processor/stream_manager.py:65 | `kf.update(m)` on either kind moves the value to CorrectedValue and the variance to CorrectedVariance |
| Filters.PredictThenUpdate | processor/stream_manager.py:63-65 | the prediction always happens. A non-numeric value raises TypeError and a zero S raises ZeroDivisionError; the filter then keeps its predicted value and variance. Otherwise the value and variance are CorrectedValue and CorrectedVariance of the prediction and the measurement. No other filter changes |
| Predictors.KalmanFilter.constructor | app/imputation/predictors/Predictor.py:22-44 | the name is "kalman", the state is the three initial values, P = variance I, Q = noise I, F is the constant-acceleration transition |
| Predictors.KalmanFilter.Predict | app/imputation/predictors/Predictor.py:46-49 | advances the constant-acceleration model, P' = F P F^T + Q, and returns the new value |
| Predictors.KalmanFilter.Update | app/imputation/predictors/Predictor.py:51-57 | raises, changing nothing, exactly for a non-numeric observation or S = 0; otherwise applies the correction and returns the new value, which equals `get_value()` |
| Predictors.KalmanFilter.Correct | app/imputation/predictors/Predictor.py:52-56 | the correction arithmetic, landing the value at CorrectedValue |
| Predictors.KalmanFilter.GetConfidence | app/imputation/predictors/Predictor.py:59-62 | lies in [0,1] and equals `compute_confidence` of the covariance |
| FilterFactory.BindValues | filter/kalman_filter.py:4-10 | each parameter takes its keyword argument's number when given, else its default; the arguments must already be numbers (see "## Left out") |
| FilterFactory.BindKeywords | app/utils/config_loader.py:28-30 | succeeds exactly when params is a dict whose keys all name parameters and whose values are all numbers or booleans; otherwise TypeError. The numeric condition is stricter than `Cls(**params)` (see "## Left out") |
| FilterFactory.Instantiate | app/utils/config_loader.py:23-32 | a missing "type" raises KeyError("type"); a missing "params" raises KeyError("params") before the tag is checked; an unknown tag raises ValueError; success builds the tagged kind from numeric params, and its value is params' initial_value |
| FilterFactory.InstantiateByTag | app/utils/config_loader.py:27-30 | "2D" with valid params builds a 2D filter and "3D" builds a 3D one |
| FilterFactory.Build | app/utils/config_loader.py:28-30 | allocates a fresh filter with the constructor arguments of the spec |
| FilterFactory.InstantiateFilter | app/utils/config_loader.py:23-32 | raises exactly what Instantiate says; otherwise returns a fresh filter built from Instantiate's spec |
| SensorConfigLoader.Positional | utils/config_loader.py:12-28 | all keys present and numeric gives one argument per key; the first absent key raises KeyError; a non-numeric value raises TypeError, which the source does not (see "## Left out") |
| SensorConfigLoader.SensorSpec | utils/config_loader.py:9-29 | a "2D" or "3D" sensor yields a spec with arguments in constructor order; any other tag yields none |
| SensorConfigLoader.Load | utils/config_loader.py:8-30 | every loaded spec is well formed |
| SensorConfigLoader.LoadKeepsLast | utils/config_loader.py:9-29 | an id has an entry exactly when some sensor with that id is tagged "2D"/"3D", and the entry comes from the last such sensor |
| SensorConfigLoader.LoadFilters | utils/config_loader.py:4-30 | the loop raises exactly when Load does; otherwise it returns fresh filters, one per key of Load, each built from its spec |
| SensorConfigLoader.LoadStaysFailed | utils/config_loader.py:8-29 | once a prefix of the sensors fails, the whole load fails with the same exception |
| Registries.Registry.constructor | app/registry/Registry.py:6-12 | holds what the file held, and is persisted |
| Registries.Registry.Get | app/registry/Registry.py:18-19 | the stored record for a known id, None otherwise |
| Registries.Registry.GetByValue | app/registry/Registry.py:18-19 | `get` with a decoded key: an unhashable key raises TypeError, a string key behaves as Get |
| Registries.Registry.IsRegistered | app/registry/Registry.py:21-22 | true exactly when `get` finds the id |
| Registries.Registry.GetAll | app/registry/Registry.py:24-25 | a copy holding exactly the registered ids |
| Registries.Registry.Update | app/registry/Registry.py:27-30 | afterwards `get(id)` is the data, other ids are unchanged, and the saved snapshot equals the registry |
| Registries.Registry.Remove | app/registry/Registry.py:32-36 | removes only that id and saves; for an absent id neither the registry nor the file changes |
| Registries.GetConstructor | app/registry/RegisterTypes/FilterRegistry.py:11-16 | None for an unknown or falsy entry; otherwise the class `entry["class"]` names in FILTER_TYPE_MAP, None for an unlisted class, KeyError without "class" |
| Registries.GetParams | app/registry/RegisterTypes/FilterRegistry.py:18-23 | {} for an unknown or falsy entry; otherwise `entry.get("params")` |
| Registries.Required | app/registry/RegisterTypes/FilterRegistry.py:52-64 | six base parameters, plus initial_acceleration exactly for "KalmanFilter3D" |
| Registries.RequiredSorted | app/registry/RegisterTypes/FilterRegistry.py:64 | the required list is in `sorted` order |
| Registries.MissingKeysSpec | app/registry/RegisterTypes/FilterRegistry.py:64-66 | exactly the absent keys are reported, in the order of the list |
| Registries.TopKeysMissing | app/registry/RegisterTypes/FilterRegistry.py:33-35 | the missing top-level keys, "type" before "params" |
| Registries.Validation | app/registry/RegisterTypes/FilterRegistry.py:25-68 | the verdict is true exactly when the error list is empty; an unhashable "type" raises TypeError |
| Registries.CheckTypeAndParams | app/registry/RegisterTypes/FilterRegistry.py:40-68 | the verdict is true exactly when the error list is empty |
| Registries.ValidationAccepts | app/registry/RegisterTypes/FilterRegistry.py:25-68 | accepts exactly an object with a known type and an object "params" holding every required parameter |
| Registries.ValidationTopKeys | app/registry/RegisterTypes/FilterRegistry.py:33-38 | a missing "type" and/or "params" gives one report per missing key, in that order, and nothing else |
| Registries.ValidationReportsMissing | app/registry/RegisterTypes/FilterRegistry.py:40-66 | an unknown type is reported, and checking goes on; a parameter is reported exactly when it is required and absent |
| Registries.ValidationOrdered | app/registry/RegisterTypes/FilterRegistry.py:64-66 | the parameter reports follow the sorted required list |
| Registries.ValidatedTemplateHasNoConstructor | app/registry/RegisterTypes/FilterRegistry.py:16 | a template `validate` accepts, with no "class" key, makes `get_constructor` raise KeyError("class") |
| Registries.Validate | app/registry/RegisterTypes/FilterRegistry.py:25-38 | the loop with its early returns computes Validation |
| Registries.CheckFields | app/registry/RegisterTypes/FilterRegistry.py:40-68 | the type check and the required-parameter loop compute CheckTypeAndParams |
| Registries.ReportMissing | app/registry/RegisterTypes/FilterRegistry.py:64-66 | the loop reports each missing key once, in order |
| Registries.StreamValidate | app/registry/RegisterTypes/StreamRegistry.py:4-5 | true exactly when "interval_sec" and "filter_template" are both keys, whatever their values |
| Registries.GetStreamType | app/registry/RegisterTypes/StreamRegistry.py:7-9 | None for an unregistered or falsy entry; otherwise the stored "stream_type", or None without one |
| Imputation.Extras | app/imputation/Imputer.py:53 | the event's "extras", or {} |
| Imputation.Processed | app/imputation/Imputer.py:36-54 | the copy keeps every other key. Observed: value = observation, confidence 1.0, method "observed", imputed_value None, imputation_flag False. Missing: value = imputed_value = prediction, method and confidence from the predictor. Missing with no predictor raises AttributeError on `.name`. That predictor is the only one without `confidence`, so the 0.5 fallback never reaches a record |
| Imputation.ObservationOverrides | app/imputation/Imputer.py:46-51 | an observed event's record depends neither on the prediction nor on the predictor |
| Imputation.ConfidenceInUnitRange | app/imputation/Imputer.py:42-49 | the confidence lies in [0,1] when the predictor's does |
| Imputation.CallsFor | app/imputation/Imputer.py:22-33 | predict is called once, then update only when the value is not None |
| Imputation.TraceCounts | app/imputation/Imputer.py:22-31 | over a run of events, one predict per event and one update per observed event |
| Imputation.BuildRecord | app/imputation/Imputer.py:36-54 | the successive assignments build Processed |
| Imputation.Imputer.constructor | app/imputation/Imputer.py:12-16 | the stream id, predictor and event stream as given; no prediction yet |
| Imputation.Imputer.Step | app/imputation/Imputer.py:22-33 | predict, then update when observed. A failing update keeps the predicted value; with no predictor the prediction is None |
| Imputation.Imputer.ConsumeEvent | app/imputation/Imputer.py:18-60 | the predictor predicts, then is corrected only when the event's value is present, numeric and S is nonzero; otherwise it keeps the predicted state and covariance. Returns Processed of the resulting prediction. It is published once on partition "imputed" under the imputer's stream id when an event stream is set; nothing is published otherwise |
| Imputation.PredictorFor | app/imputation/ImputersManager.py:22-28 | an unknown template makes `cfg["type"]` raise TypeError; a missing "type", then a missing "params", raises KeyError. Type "KalmanFilter" yields the bound constructor arguments or the binding's TypeError; any other type yields None |
| Imputation.WorkerPredictor | app/imputation/ImputersManager.py:31-32 | a stream entry that is not a dict raises AttributeError; otherwise its "filter_template" is looked up |
| Imputation.Outcomes | app/imputation/ImputersManager.py:31-32 | one lookup per configured stream |
| Imputation.WorkerMapSpec | app/imputation/ImputersManager.py:30-34 | the workers dict holds exactly the configured ids, each bound to its own worker |
| Imputation.WorkerMapKeys | app/imputation/ImputersManager.py:30-34 | the workers dict's keys are exactly the configured ids, whether or not they repeat |
| Imputation.WorkerMapValues | app/imputation/ImputersManager.py:30-34 | with distinct ids, each configured id is bound to the worker built for its own entry |
| Imputation.SubscribeAllRegisters | app/imputation/ImputersManager.py:37 | each worker is registered under "observed." + its own stream id |
| Imputation.ImputerManager.constructor | app/imputation/ImputersManager.py:11-15 | the assignments before `_create_workers`: both configurations as given and no workers; the streams configuration has distinct ids, as a dict's items do. CreateManager adds the call on line 16 |
| Imputation.ImputerManager.CreatePredictor | app/imputation/ImputersManager.py:22-28 | raises exactly what PredictorFor raises; otherwise a fresh predictor built from its arguments, or None |
| Imputation.ImputerManager.AddWorker | app/imputation/ImputersManager.py:31-37 | a fresh worker for the entry is recorded under its id and subscribed to "observed.<id>"; a raising lookup changes nothing |
| Imputation.ImputerManager.CreateWorkers | app/imputation/ImputersManager.py:30-38 | one fresh worker per stream up to the first raising lookup, whose exception is returned. Worker j carries stream j's id, the event stream and the predictor constants its lookup gave. The workers dict and the observed partition's table are as if each worker were added in turn; with the ids distinct, WorkerMapSpec turns the dict into exactly the ids before the failure, each bound to its own worker. The other partitions are untouched |
| Imputation.CreateManager | app/imputation/ImputersManager.py:11-38 | construction runs `_create_workers`. It raises exactly the first failing lookup's exception, and then no manager results. Otherwise the manager holds one fresh worker per configured stream, each with its own id, the event stream and its lookup's predictor constants. In both cases the observed partition keeps the subscriptions made before any failure, and the other partitions are untouched |
| Imputation.ImputerManager.ShapedAt | app/imputation/ImputersManager.py:31-34 | in a prefix built in turn, worker j has the shape that entry j and its lookup give |
| Messaging.FiltersAdmitPublished | app/messaging/Client.py:34-41 | the wildcard transport filter is a prefix of every topic published under the prefix; an exact filter is the topic itself |
| Messaging.Append | app/messaging/Client.py:43 | `setdefault(key, []).append(c)` adds c last under key and leaves other keys alone |
| Messaging.Deliver | app/messaging/Client.py:57-58 | the event goes to each consumer in order |
| Messaging.Fanout | app/messaging/StreamClient.py:54-55 | no error exactly when no consumer raises, and then all are delivered to |
| Messaging.FanoutLoop | app/messaging/Client.py:57-58 | the loop computes Fanout |
| Messaging.Stamp | app/messaging/Client.py:52-53 | a decoded object gets "__topic__" set to the received topic; a payload that does not decode raises ValueError |
| Messaging.RouteNoRaise | app/messaging/Client.py:55-64 | without a raising consumer, every exact consumer and then every wildcard consumer receives the event |
| Messaging.FanoutStops | app/messaging/StreamClient.py:53-64 | a raising consumer ends the deliveries right after it |
| Messaging.RouteStops | app/messaging/StreamClient.py:52-64 | what is delivered is a prefix of the full exact-then-wildcard delivery |
| Messaging.DispatchReachesBoth | app/messaging/Client.py:46-64 | a received object reaches exact and wildcard consumers (both, not either), each with "__topic__" stamped |
| Messaging.RaisingStopsEarly | app/messaging/StreamClient.py:45-64 | a raising consumer only shortens the deliveries, and the skipped part is a suffix |
| Messaging.Client.constructor | app/messaging/Client.py:11-25 | empty subscriber table, no filters, nothing sent |
| Messaging.Client.Publish | app/messaging/Client.py:27-32 | stamps prefix.stream_id into the event and sends it on that topic |
| Messaging.Client.SubscribeTo | app/messaging/Client.py:34-44 | appends the consumer under prefix.* for "*" and under prefix.id otherwise, and sets the matching transport filter |
| Messaging.Client.DispatchOnce | app/messaging/Client.py:46-64 | one dispatch as Dispatch; nothing polled delivers nothing |
| Messaging.StreamClient.constructor | app/messaging/StreamClient.py:9-12 | the prefix, an inner client, an empty table |
| Messaging.StreamClient.Publish | app/messaging/StreamClient.py:14-19 | the same topic and stamping as Client.publish, sent on the inner client |
| Messaging.StreamClient.SubscribeTo | app/messaging/StreamClient.py:22-34 | the same keys and append order as Client.subscribe_to |
| Messaging.StreamClient.DispatchOnce | app/messaging/StreamClient.py:37-64 | delivers what Dispatch delivers; a poll failure delivers nothing, and no exception escapes |
| Messaging.StreamClientInit | app/messaging/StreamClient.py:10 | `Client(...)` succeeds exactly with one argument; otherwise TypeError |
| Messaging.StreamClientInitFails | app/messaging/StreamClient.py:10 | `StreamClient.__init__`, calling `Client()` with no prefix, raises |
| Messaging.EventStream.Partition | app/messaging/EventStream.py:7-11 | exactly "observed", "imputed" and "matched" have a client, each with its own name as prefix |
| Messaging.EventStream.constructor | app/messaging/EventStream.py:6-12 | three fresh, empty partition clients; not running |
| Messaging.EventStream.AddEvent | app/messaging/EventStream.py:14-18 | an unknown partition raises ValueError and nothing is sent; otherwise that partition publishes under partition.stream_id and the other partitions are untouched |
| Messaging.EventStream.Subscribe | app/messaging/EventStream.py:20-23 | an unknown partition raises ValueError and nothing is registered; otherwise that partition's subscribe_to, and only that |
| Messaging.EventStream.DispatchOnce | app/messaging/EventStream.py:25-31 | sets running, then one dispatch per partition in the order observed, imputed, matched |
| Messaging.EventStream.Stop | app/messaging/EventStream.py:33-35 | clears the running flag |
| Messaging.PassInOrder | app/messaging/EventStream.py:28-29 | without raising consumers a pass delivers the observed, imputed and matched deliveries in that order |
| Messaging.NothingRaised | app/messaging/Client.py:48-53 | with no raising consumer, only a failed poll or a bad payload gives an error |
| JavaMessaging.EventStream.constructor | java/src/main/java/messaging/EventStream.java:16-19 | no subscribers, nothing published |
| JavaMessaging.EventStream.AddEvent | java/src/main/java/messaging/EventStream.java:21-25 | publishes on partition + "." + streamId |
| JavaMessaging.EventStream.Subscribe | java/src/main/java/messaging/EventStream.java:27-34 | one handler per (partition, id), replacing an earlier one; the transport prefix is partition + "." for "*" and partition.id otherwise |
| JavaMessaging.EventStream.DispatchEvent | java/src/main/java/messaging/EventStream.java:37-64 | a topic without "." is dropped; at most one handler receives the event, and only for a subscribed partition |
| JavaMessaging.EventStream.Stop | java/src/main/java/messaging/EventStream.java:72-75 | closes the client, nothing else changes |
| JavaMessaging.ExactHandlerWins | java/src/main/java/messaging/EventStream.java:49-54 | an exact handler receives the event, whatever wildcard exists |
| JavaMessaging.WildcardFallback | java/src/main/java/messaging/EventStream.java:56-63 | without an exact handler the wildcard receives it; without either it is dropped |
| JavaMessaging.UnknownPartitionDropped | java/src/main/java/messaging/EventStream.java:43-47 | a partition with no subscribers drops the event |
| JavaMessaging.RoutingDiffers | java/src/main/java/messaging/EventStream.java:49-60 | with an exact and a wildcard subscriber, the Java bus delivers once (exact) and the Python bus twice (exact, then wildcard) |
| TopicClient.SendTopic | app/messaging/ClientTypes/StreamClient.py:14-15 | a given nonempty topic is kept; None or "" falls back to "data." + name |
| TopicClient.StreamClient.constructor | app/messaging/ClientTypes/StreamClient.py:8-12 | the name, no subscriptions, no handlers |
| TopicClient.StreamClient.SendEvent | app/messaging/ClientTypes/StreamClient.py:14-17 | sends the event on SendTopic |
| TopicClient.StreamClient.SubscribeTo | app/messaging/ClientTypes/StreamClient.py:19-22 | adds to a set, so repeating it changes nothing |
| TopicClient.StreamClient.UnsubscribeFrom | app/messaging/ClientTypes/StreamClient.py:24-27 | discards; an absent topic is no error and no change |
| TopicClient.StreamClient.RegisterHandler | app/messaging/ClientTypes/StreamClient.py:29-33 | overwrites any handler for the prefix and reports whether one existed |
| TopicClient.StreamClient.DeregisterHandler | app/messaging/ClientTypes/StreamClient.py:35-40 | removes a present prefix; otherwise the handlers are unchanged |
| TopicClient.StreamClient.SubscriberAction | app/messaging/ClientTypes/StreamClient.py:43-74 | a handler is called exactly for a message of two or more frames with valid JSON whose first segment has a handler; it is that prefix's handler, with the topic and the decoded event |
| TopicClient.RoutedByFirstSegment | app/messaging/ClientTypes/StreamClient.py:60-69 | `prefix.rest` and a bare `prefix` both go to prefix's handler |
| TopicClient.DefaultTopicReachesDataHandler | app/messaging/ClientTypes/StreamClient.py:14-16 | an event sent without a topic reaches the receiver's "data" handler |
| ZmqFraming.Receive | publish/zmq_setup.py:26-29 | a frame with no space fails to unpack; otherwise the topic before the first space, or a decode error |
| ZmqFraming.ReceiveFrame | publish/zmq_setup.py:26-28 | a space-free topic comes back unchanged with the message, spaces in the message included |
| ZmqFraming.SpacedTopicSplits | publish/zmq_setup.py:27 | a topic with a space is cut at it, the rest moving into the message |
| ZmqFraming.Publisher.constructor | publish/zmq_setup.py:4-8 | no frames sent yet |
| ZmqFraming.Publisher.Publish | publish/zmq_setup.py:10-12 | sends topic + " " + the encoded data |
| ZmqFraming.PublishReceiveRoundTrip | publish/zmq_setup.py:10-29 | with a space-free topic and a decoder inverse to the encoder, receive gives back the topic and the data |
| Processor.SensorMetadata | processor/stream_manager.py:18-25 | units, stream_type and sampling_interval_sec, defaulting to "unknown", "unspecified" and 1 |
| Processor.MetadataTable | processor/stream_manager.py:18-25 | one entry per configured sensor id |
| Processor.MetadataFromLast | processor/stream_manager.py:18-25 | each id's entry comes from the last sensor with that id |
| Processor.EndpointTable | processor/stream_manager.py:14-17 | one endpoint per configured sensor id |
| Processor.EndpointFromLast | processor/stream_manager.py:14-17 | each id's endpoint comes from the last sensor with that id |
| Processor.Endpoints | processor/stream_manager.py:14-17 | a sensor without "source_endpoint" raises KeyError; otherwise one endpoint per configured sensor id |
| Processor.Create | processor/stream_manager.py:11-26 | `load_filters_from_config` raises first; then a missing "source_endpoint" raises KeyError; otherwise a fresh manager with the loaded filters, the endpoint and metadata tables, last_seen at 0 and an empty publisher |
| Processor.LastSeenInit | processor/stream_manager.py:26 | 0 for every configured sensor, nothing else |
| Processor.Fields | processor/stream_manager.py:51-53 | "sensor_id", "value", "timestamp" read in order, the first missing one raising KeyError |
| Processor.FilteredEventShape | processor/stream_manager.py:68-81 | the published event is not imputed, names the filter kind, and its confidence lies in [0,1] |
| Processor.StreamManager.constructor | processor/stream_manager.py:14-30 | the endpoint table as built by Create, the metadata table, last_seen at 0, the loaded filters, an empty publisher |
| Processor.StreamManager.ProcessEvent | processor/stream_manager.py:50-61 | last_seen is updated before the filter check, even for unknown sensors. A sensor without a filter publishes nothing and no filter changes; otherwise FilterAndPublish, and only that sensor's filter changes |
| Processor.StreamManager.FilterAndPublish | processor/stream_manager.py:63-84 | predict, then update. On success the filter holds the corrected value and variance. The event carries the corrected value, its confidence and `get_type()`, and is published once under the sensor id. A non-number raises TypeError and a zero S raises ZeroDivisionError; then the filter keeps its predicted value and variance and nothing is published. No other sensor's filter changes |
| DatastreamManager.TemplateSpec | datastream/StreamManager.py:37 | `instantiate_filter` on a stored template: it fails as Instantiate does, and succeeds with Instantiate's spec |
| DatastreamManager.InitialSpec | datastream/StreamManager.py:34-42 | a stream gets a filter exactly when its truthy template id is a loaded template; a non-dict entry raises |
| DatastreamManager.DataEventShape | datastream/StreamManager.py:101-115 | the event comes from "StreamManager", is not imputed, names the filter kind, and has confidence in [0,1] |
| DatastreamManager.InitialSpecs | datastream/StreamManager.py:33-42 | one spec per stream of the metadata |
| DatastreamManager.BuildFilters | datastream/StreamManager.py:33-42 | raises exactly when some stream's spec does; on success every stream with a spec has a fresh filter built from it, and no other stream has one |
| DatastreamManager.Create | datastream/StreamManager.py:10-31 | `__init__` raises exactly when some stream's spec does. On success: a fresh client subscribed to "data.", "command." and "config.", the loaded files, and a filter for exactly the streams with a spec |
| DatastreamManager.NewClient | datastream/StreamManager.py:11-18 | a client named "StreamManager" subscribed to the three prefixes |
| DatastreamManager.StreamManager.constructor | datastream/StreamManager.py:25-31 | the loaded files and the built filters |
| DatastreamManager.StreamManager.Install | datastream/StreamManager.py:54 | the stream gets a fresh filter built from the spec, replacing any previous one |
| DatastreamManager.StreamManager.RegisterFilterTemplate | datastream/StreamManager.py:46-48 | inserts or overwrites the template; nothing else changes |
| DatastreamManager.StreamManager.RegisterFilterForStream | datastream/StreamManager.py:50-55 | an unknown template changes nothing; a known one installs a fresh filter built from it |
| DatastreamManager.StreamManager.DeregisterFilterForStream | datastream/StreamManager.py:57-62 | removes a present filter and reports it; otherwise no change |
| DatastreamManager.StreamManager.RegisterStream | datastream/StreamManager.py:66-70 | stores the metadata; assigns a filter only when "filter_template" is a key |
| DatastreamManager.StreamManager.DeregisterStream | datastream/StreamManager.py:72-75 | removes metadata and filter; an absent id changes nothing |
| DatastreamManager.StreamManager.Route | datastream/StreamManager.py:79-94 | a topic without "data." raises IndexError. A message whose sensor_id is missing, empty or unregistered, or whose stream has no filter, is dropped, and an unhashable one raises TypeError. For a registered stream with a filter, a missing "value" or "timestamp" raises KeyError, and a complete message is routed with its value and timestamp |
| DatastreamManager.StreamManager.HandleData | datastream/StreamManager.py:79-118 | drops or raises as Route says, publishing nothing and changing no filter; otherwise FilterAndPublish on the routed stream, and only that stream's filter changes |
| DatastreamManager.StreamManager.FilterAndPublish | datastream/StreamManager.py:97-118 | predict, then update. A non-number raises TypeError and a zero S raises ZeroDivisionError; then the filter keeps its predicted value and variance. Otherwise the filter holds the corrected value and variance. Metadata that is not an object then raises AttributeError. On success the event carries the corrected value, its confidence and the stream's metadata, and is sent on "CEP." + id; a raising step sends nothing. No other stream's filter changes |
| AppStreamManager.Unpack | app/manager/StreamManager.py:49 | `ok, errors = v` works only for a pair; a bare bool raises TypeError |
| AppStreamManager.NewStream | app/manager/StreamManager.py:31-33 | the stream has the filter entry of a truthy, registered template id, and None otherwise |
| AppStreamManager.BuildStreams | app/manager/StreamManager.py:29-34 | one stream per registered record, each as NewStream builds it; raises exactly when one of them does |
| AppStreamManager.Create | app/manager/StreamManager.py:11-27 | a client subscribed to "data" and "command.", the two registries as loaded, and the streams BuildStreams gives |
| AppStreamManager.NewClient | app/manager/StreamManager.py:12-22 | a client named "StreamManager" subscribed to "data" and "command." |
| AppStreamManager.Target | app/manager/StreamManager.py:69-73 | the stream named by "stream_id", or none for an unknown id |
| AppStreamManager.StreamManager.constructor | app/manager/StreamManager.py:16-18 | the two registries are distinct objects, and the streams are as given |
| AppStreamManager.StreamManager.RegisterFilterTemplate | app/manager/StreamManager.py:37-42 | the entry is written only when `validate` accepts it; streams are untouched |
| AppStreamManager.StreamManager.DeregisterFilterTemplate | app/manager/StreamManager.py:44-45 | removes the registry entry; existing streams are untouched |
| AppStreamManager.StreamManager.RegisterStream | app/manager/StreamManager.py:48-56 | as written it always raises TypeError and changes nothing |
| AppStreamManager.StreamManager.RegisterValidStream | app/manager/StreamManager.py:48-56 | invalid metadata changes nothing; valid metadata is written to the registry and gets the stream NewStream builds |
| AppStreamManager.StreamManager.DeregisterStream | app/manager/StreamManager.py:58-61 | removes the registry entry and the stream; an absent id changes nothing |
| AppStreamManager.StreamManager.HandleData | app/manager/StreamManager.py:67-76 | an unknown stream processes and publishes nothing; a known one is processed once and the result sent on "cep." + id |
| AppStreamManager.AcceptedStreamStillRaises | app/manager/StreamManager.py:49 | metadata that `StreamRegistry.validate` accepts still raises TypeError at the unpacking |

## Left out

- Sockets, contexts, polling loops, `join`, `close`, threads and the
  `run`/`start`/`stop` lifecycles of the managers are not modelled, because
  their point is concurrency and I/O.
  - A received message is an input.
  - `EventStream.dispatch` is modelled with `once=True` only.
- Loading and saving files (`_load_registry`, `save_registry`,
  `load_filter_templates`, `load_stream_metadata`, `_load_json`) is not
  modelled. The decoded contents are parameters, and the registry's file
  is a ghost `saved` snapshot.
- `json.loads` and `json.dumps` are parameters. No JSON round trip is proved
  except under the assumption, stated as a precondition, that the decoder
  inverts the encoder.
- Numbers are `real`: IEEE rounding, NaN and infinity are not modelled.
  - Where numpy would divide by a zero S and give inf/NaN, the model raises
    ZeroDivisionError. Filter `Update` requires S to be nonzero.
  - JSON integers and floats are one kind of number. numpy's in-place `+=`
    on an integer state array is not modelled.
- Logging and `print` are not modelled. The timestamp `time.time()` is a
  parameter.
- Dict iteration order is not modelled. `_initialize_filters` and
  `_initialize_streams` visit the streams in an unspecified order, so a
  raising stream may be met before others are built.
  - `BuildFilters` and `BuildStreams` state which error they return, not
    which streams were built before it.
- The DataStream of app/manager/StreamManager.py is opaque:
  - `process_event` is a function parameter, and its effect on the stream
    object is not modelled;
  - app/datastream/Datastream.py is an unrelated abstract class, and the
    imported constructor is not part of this model.
- Handler registration in the managers (`register_handler("data",
  self.handle_data)` and the command and config handlers) is not modelled;
  handlers are opaque objects. `handle_command` and `handle_config` are
  TODO stubs.
- `validate_event` (jsonschema) before publishing in
  processor/stream_manager.py is not modelled; the event is published as
  built.
- `validate_config` is not modelled: `load_filters_from_config` takes the
  validated sensor list, with its string "sensor_id" and object "filter"
  as a precondition.
- `_setup_subscribers` and `process_once` of processor/stream_manager.py
  are socket plumbing and are not modelled.
- `Imputation.ImputerManager.CreateWorkers` states each worker's stream id,
  event stream and predictor constants, not its predictor's initial state
  and covariance. `AddWorker` states those for each worker it builds.
- `BasePredictor` is not modelled separately. Its one implementation is
  `Predictors.KalmanFilter`, and a worker without a predictor holds None.
- `FilterRegistry.validate` requires "type" while `get_constructor` reads
  "class". This is modelled as written; `ValidatedTemplateHasNoConstructor`
  shows the consequence.
- app/messaging/StreamClient.py calls `Client()` without the prefix
  argument, so `StreamClient.__init__` always raises (`StreamClientInit`).
  The class is modelled around an inner client that already exists.
- datastream/StreamManager.py imports `instantiate_filter` from
  utils/config_loader.py, which does not define it. It is modelled with the
  "2D"/"3D" `instantiate_filter` of app/utils/config_loader.py.

- `FilterFactory.BindKeywords` raises TypeError when a parameter value is
  not a number or boolean, which the source does not do at construction.
  The model's filter state is a vector of reals, so a filter holding a
  string or null cannot be represented.
  - `KalmanFilter2D` wraps any value in `np.array`, so a string or null
    still builds a filter, and its first predict or update raises.
  - `KalmanFilter3D` and the predictor `KalmanFilter` raise at construction
    only for a non-numeric `dt`, `initial_variance` or `process_noise`;
    other non-numeric values fail at predict or update.
  - So `DatastreamManager.Create`, `SensorConfigLoader.LoadFilters` and
    `ImputerManager.CreateWorkers` fail at start-up where the source starts
    and then raises per event (the imputer catches it, so its prediction is
    None). numpy broadcasting of list values is not modelled either.
- `FilterFactory.BindValues` takes only numeric keyword values, for the same
  reason.
- `FilterFactory.Instantiate` returns that TypeError where
  `instantiate_filter` returns a filter.
- `SensorConfigLoader.Positional` raises TypeError for a non-numeric value,
  where the positional constructor calls accept it as described above.
- `Imputation.PredictorFor` returns the TypeError of `BindKeywords`, where
  `KalmanFilter(**params)` raises only for the three parameters above.
- `Processor.StreamManager.ProcessEvent` keys `last_seen` by the decoded
  sensor id. A Python dict treats `True` and `1` as one key, but the model
  keeps `JBool(true)` and `JNum(1.0)` apart.

## Findings

| source | as written | input that shows it | evidently intended | confidence | as-written member | corrected member |
|---|---|---|---|---|---|---|
| app/manager/StreamManager.py:49 | `validation_result, errors = self.stream_registry.validate(metadata)` unpacks the bare bool that `StreamRegistry.validate` returns, so `register_stream` raises TypeError for every input | metadata {"interval_sec": 1, "filter_template": "kf"}: validate returns True, and unpacking it raises | store the metadata and build the stream when validate returns True, and log an error otherwise | high, not executed | AppStreamManager.StreamManager.RegisterStream | AppStreamManager.StreamManager.RegisterValidStream |
