# Capacity-limitation event pipeline (ditm-openadr-bl), modelled in Dafny

The business-logic job of this OpenADR3 demand-response component predicts the load on
a grid asset for the next window and derives one capacity-limitation event from it.
This project models the pure pipeline at its core:

- predicted loads (`PredictedGridAssetLoad`) and the flex capacity each requires
  (`flex_capacity_required`);
- one event interval per load, with one `IMPORT_CAPACITY_LIMIT` payload per interval,
  and the event carrying those intervals, one payload descriptor and two targets;
- the workflow step `get_capacity_limitation_event`, which fetches predictions through an
  abstract actions interface, returns nothing for an empty prediction list, and otherwise
  audits the predictions and builds the event;
- the stub prediction source, which walks the window in 15-minute steps drawing random
  loads, and its no-op audit;
- the Azure ML inference payload (`as_json`, the 0..n-1 index) and the pairing of the
  endpoint's predictions with the feature rows, including the length-mismatch error.

Modelling choices:

- Loads are exact `real`s in kW. Timestamps and durations are `int` minutes (UTC).
- The settings `MAX_CAPACITY`, `PROGRAM_ID`, `VEN_NAME` and `MOCK_EAN_NUMBER` are the
  fields of a `Config` value. The current date is a `Date` parameter.
- `flex_capacity_required` is declared to return `float | None`. It is modelled as
  returning `Option<real>`, and its contract proves it always returns a value.
- The interval payload value is `flex or 22` in Python. It is modelled with Python
  truthiness, so a zero flex becomes 22. The docstring of `flex_capacity_required` says
  `None` is returned when there is no excess. The model follows the code: the function
  returns 0, and the payload carries 22.
- `PredictionActionsBase` is a datatype of two functions. One fetches the loads for a
  window and the other audits them. Each may raise, which is modelled as
  `Result`/`Outcome` with an `Exception`. A run returns its result together with the
  sequence of calls it made on the actions, so "audit is never called" is a statement
  about that sequence.
- The stub's `random.randint(20, 150)` is a nondeterministic choice of an integer in
  [20, 150].
- The HTTP call to the inference endpoint is outside the model. The request body is
  `InferenceRequest(features)`, and the predictions in the response are an input
  sequence of `GetPredictionsForFeatures`.
- `strftime('%d-%m-%Y')` is modelled for years 1000 to 9999. In that range the year
  renders as exactly four digits.

Files: `wrappers.dfy` (Option/Result/Outcome), `errors.dfy` (exceptions), `indices.dfy`
(`range`), `predicted_load.dfy`, `date_format.dfy`, `generate_events.dfy`,
`predictions_stub.dfy`, `azureml_predictions.dfy`.

## Model

| member | source | states |
|---|---|---|
| `PredictedLoad.Equals` | src/models/predicted_load.py:23-36 | `==` holds exactly when the other object is a predicted load with the same time, load and duration; it is false against an object of any other type |
| `PredictedLoad.EqualsIsEquivalence` | src/models/predicted_load.py:23-36 | value equality is reflexive, symmetric and transitive |
| `PredictedLoad.DefaultDurationIsQuarterHour` | src/models/predicted_load.py:9-21 | a load built without a duration lasts 15 minutes |
| `PredictedLoad.FlexCapacityRequired` | src/models/predicted_load.py:38-71 | always returns a value, never `None`; the value is 0 exactly when the load does not exceed the maximum capacity; above it the value lies in (4, 22]; every value is in [0, 22]; an excess of 50 kW or more gives exactly 22 |
| `PredictedLoad.FlexLinearSegment` | src/models/predicted_load.py:55-71 | for an excess strictly between 0 and 50 the value is 4 + 18·excess/50, strictly between 4 and 22, and the excess can be recovered from the value |
| `PredictedLoad.FlexMonotonic` | src/models/predicted_load.py:61-71 | for a fixed maximum capacity, a larger load never requires less flex capacity |
| `Indices.Range` | src/infrastructure/azureml/predictions.py:93 | `range(lo, hi)` has hi − lo elements (none if hi ≤ lo), the i-th being lo + i |
| `DateFormat.PadDigits` | src/application/generate_events.py:121 | a zero-padded decimal field has exactly the requested width and only digit characters |
| `DateFormat.ParsePadDigits` | src/application/generate_events.py:121 | a zero-padded decimal field reads back as the number it renders |
| `DateFormat.FormatDate` | src/application/generate_events.py:121 | `%d-%m-%Y` gives ten characters with dashes at positions 2 and 5 |
| `DateFormat.ParseFormatDate` | src/application/generate_events.py:121 | a date rendered as dd-mm-yyyy can be read back as the same date |
| `DateFormat.FormatDateInjective` | src/application/generate_events.py:121 | two dates render the same exactly when they are equal |
| `GenerateEvents.CapacityLimitValue` | src/application/generate_events.py:84-92 | the payload value lies in (4, 22]; it is 22 when the load does not exceed the maximum capacity (zero flex is falsy), and otherwise the required flex capacity |
| `GenerateEvents.CapacityLimitationInterval` | src/application/generate_events.py:63-93 | the interval has the given id and the load's start time and duration, and exactly one `IMPORT_CAPACITY_LIMIT` payload with one value in (4, 22], namely the load's payload value |
| `GenerateEvents.EnumerateIntervals` | src/application/generate_events.py:108-117 | one interval per load, in input order; interval i is the interval for load i with id firstId + i |
| `GenerateEvents.EnumeratedIdsAreRange` | src/application/generate_events.py:108-117 | the interval ids, read in order, are exactly firstId, …, firstId + n − 1 |
| `GenerateEvents.EventName` | src/application/generate_events.py:121 | the event name is "bl-generated-event-" followed by ten characters of date |
| `GenerateEvents.EventNameRoundTrip` | src/application/generate_events.py:121 | the date the event was generated on can be read back from its name |
| `GenerateEvents.EventNamesCollideOnlyOnSameDay` | src/application/generate_events.py:121 | two runs produce the same event name exactly when they run on the same day |
| `GenerateEvents.CapacityLimitationEvent` | src/application/generate_events.py:96-132 | the event carries the configured program id; its name records today's date; it has exactly one descriptor (`IMPORT_CAPACITY_LIMIT`, kW) and exactly two targets, `VEN_NAME` and `POWER_SERVICE_LOCATION`, with the configured values; it has one interval per load with ids 0..n−1; interval i copies load i's start and duration and carries that load's capacity-limit value |
| `GenerateEvents.GetCapacityLimitationEvent` | src/application/generate_events.py:135-165 | a run first gets the query session and fetches the window; a fetch error propagates, and then no further call is made; an empty prediction list yields no event, and then neither the write session nor audit is requested; a non-empty list is followed by exactly a write-session request and one audit; an exception raised by the audit propagates; a non-empty list is audited exactly once, with the same list; an event is returned exactly when the predictions are non-empty and the audit does not raise, and it is built with the configured maximum capacity |
| `PredictionsStub.StubGetPredictedGridAssetLoad` | src/infrastructure/predictions_actions_stub_impl.py:31-60 | returns ceil((to − from)/15) loads for a non-empty window and none otherwise; the first starts at from; consecutive times are 15 minutes apart; every time lies in [from, to); every load lasts 15 minutes and is an integer in [20, 150] |
| `PredictionsStub.SlotCount` | src/infrastructure/predictions_actions_stub_impl.py:49-59 | a step count that reaches the end of the window, with its last step starting before the end, is the ceiling of the window length over 15 minutes |
| `PredictionsStub.StubAuditPredictedGridAssetLoads` | src/infrastructure/predictions_actions_stub_impl.py:62-74 | the stub audit does nothing and never raises |
| `PredictionsStub.StubRun` | src/infrastructure/predictions_actions_stub_impl.py:44-74 | a run over the stub's output succeeds; an empty window gives no event and no audit; otherwise the event has one interval per quarter hour, the first starting at the window start |
| `AzureMlPredictions.DecodeEncodeList` | src/infrastructure/azureml/predictions.py:34-44 | encoding a list element by element into JSON loses nothing when each element reads back |
| `AzureMlPredictions.DecodeEncodeRow` | src/infrastructure/azureml/predictions.py:34-44 | a data row of floats reads back from its JSON array unchanged |
| `AzureMlPredictions.AsJson` | src/infrastructure/azureml/predictions.py:34-44 | the JSON object has exactly the keys `input_data` and `params`; `params` is the parameter dict; `input_data` has exactly the keys `columns`, `index` and `data` |
| `AzureMlPredictions.AsJsonRoundTrip` | src/infrastructure/azureml/predictions.py:34-44 | columns, index, data and params are carried through unchanged: the payload can be read back exactly from its JSON form |
| `AzureMlPredictions.InferencePayload` | src/infrastructure/azureml/predictions.py:64-96 | the payload has the 26 model columns, the index 0..n−1 for n feature rows, one data row per feature row holding its values without the timestamp, and empty params |
| `AzureMlPredictions.InferenceRequest` | src/infrastructure/azureml/predictions.py:64-100 | the body posted to the endpoint decodes back to exactly the payload built for the feature table |
| `AzureMlPredictions.GetPredictionsForFeatures` | src/infrastructure/azureml/predictions.py:102-120 | a prediction count that differs from the feature-row count raises `ValueError` and returns no loads; otherwise there is one load per prediction, load i has value predictions[i] and the timestamp of feature row i, so order is preserved, and every load lasts 15 minutes |

## Left out

- src/main.py: the timer wiring, the OAuth client construction, and the listing,
  deleting and creating of events on the coordination server. These are I/O through a
  foreign client, with catch-and-log control flow. The Amsterdam-time window needs
  time-zone and DST rules.
- function_app.py and src/config.py: host registration and environment loading. The
  settings the core uses are the `Config` parameter instead.
- src/infrastructure/azureml/feature_generation.py: pandas date ranges, the holiday
  calendar and the lag lookups over database results. The feature table is an input
  here.
- src/infrastructure/weather_data/weather_forecast.py and src/infrastructure/influxdb/:
  HTTP and database calls and pandas interpolation, all over external libraries.
- src/infrastructure/_auth/http/authenticated_session.py: the HTTP session and token
  handling.
- src/infrastructure/prediction_actions_impl.py: the InfluxDB-backed actions only
  compose feature fetching with inference. They appear only as some `PredictionActions`
  value.
- `get_query_api` / `get_write_api`: the sessions carry no data in the model. The calls
  are recorded in the run's call sequence, and the sessions themselves are not modelled.
- predictions.py: the HTTP post and the link between request and response, `fillna(0)`,
  `reset_index`, dropping the `datetime` column from the frame, the `float(x)`
  conversion of the response, and the UTC conversion of timestamps. Row i's timestamp is
  modelled as the row's `datetime` field. The source indexes it with `[0]`, which
  depends on how pandas stores that column.
- `datetime.now()` in the event name: the date is a parameter.
- IEEE floating point: loads and flex values are exact reals. So NaN loads, for which
  Python's `==` is not reflexive, are not modelled.
- DateFormat.FormatDate: years before 1000 are excluded, because the padding `%Y` gives
  them differs between platforms.
- The docstring of `get_capacity_limitation_event` calls `to_date` inclusive, while the
  actions interface and the stub treat it as exclusive. The model follows the stub's
  `current_time < to_date`.
