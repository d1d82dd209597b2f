# Smart MAIC exporter, modelled in Dafny

A Prometheus exporter for the Smart MAIC power meter. It reads the meter's JSON
payload and writes each reading into a fixed set of gauges. There are six
per-line gauges (voltage, current, power, energy, power factor, frequency), each
with a child per line "1", "2", "3". There are four device-wide scalars (total
current, total power, total energy, temperature) and a status gauge.

The repository has three revisions of the update step, and the model covers all
three:

- **Go, current** (`metrics.go`, `model.go`, `smart_maic_exporter.go`):
  - a browser renders the data page;
  - `extractJSON` peels the HTML wrapper off the JSON text;
  - the decoded payload goes to `SetMetrics`;
  - `SetMetrics` sets the status to OK, then converts and writes the 22
    readings. A reading is converted by stripping its spaces and parsing it; a
    reading that does not parse panics.
- **Go, earlier** (`main.go`, commented out): a start-up check on the data URL,
  and `fetchAndUpdateMetrics`. That function is a chain of early returns turning
  the HTTP outcome into the status values 0, 1 and 2, and it ends in
  `SetMetrics`.
- **Python** (`smart_maic_exporter.py`): `fetch_and_update_metrics` does a GET,
  `raise_for_status` and `.json()`. It then reads `data`, sets `request_status`
  to 1, and writes the readings phase by phase, then the totals. Only
  `RequestException` is caught; it sets the status to 0.

Each revision's writes are proved against one specification, `Writes.Run`. It
applies a list of writes in order, each from a source that converts or fails,
and stops at the first failure with the earlier writes in place. The failing
write's per-line child has been created by then (see below). The update
methods are imperative and keep the source's order:
- `Metrics.Registry.SetMetrics` is 22 straight-line calls;
- `PyExporter.PyMetrics.FetchAndUpdateMetrics` is a `for` loop over the phases
  followed by the totals.

Each of these methods threads a ghost index through a one-step helper and ends
with `ensures Applied(gauges, panic) == Run(old(gauges), writes, zero)`. Lemmas about
`Run` then give the concrete facts:
- which gauge holds which field after a full payload;
- which gauges a mid-way failure leaves untouched, and which child it creates.

Some inputs are parameters of the model:
- float values are a type parameter `F`;
- `strconv.ParseFloat` and Python's `float()` are partial functions passed in;
- so are JSON decoding and everything the browser and the network deliver.

Four behaviours of the code are easy to miss:
- A reading that does not convert is not a handled failure.
  - In Go it panics. The earlier writes stay and the status stays OK.
  - In Python the `KeyError`, `TypeError` or `ValueError` is not caught. The
    earlier writes stay and `request_status` stays 1.
- A missing `data` object in Python does not set a failure status. It reads as
  `{}`, and the first lookup raises `KeyError('V1')`.
- The Python revision has no separate rate-limited value. A 429 is an
  `HTTPError` from `raise_for_status`, so `request_status` becomes 0.
- A failing write still creates its per-line child. Go evaluates
  `voltage.WithLabelValues("1")` before `data.V1.MustGetFloat64Value()`, and
  Python evaluates `.labels(phase="1")` before `float(...)`. Both calls create
  the child at 0. So on a fresh registry a first failed update exports a 0
  reading for that line. `Writes.Run` models this: each write creates the
  target's series first, then converts.

## Model

| member | source | states |
|---|---|---|
| Model.StripSpacesSpec | model.go:66 | the stripped reading is the input with every space filtered out in order: no space is left, every other character keeps its count |
| Model.StripSpacesIdempotent | model.go:66 | stripping spaces twice gives the same string as stripping once |
| Model.MustGetSpec | model.go:65-74 | a reading converts exactly when the parser accepts it with its spaces removed, and then to the parser's value; otherwise it panics with "value <raw value> is not float64" |
| Model.MustGetIgnoresSpaces | model.go:66-68 | two readings that differ only in spaces convert alike, to the same number |
| Model.StatusValues | model.go:76-82 | Offline, OK and TooManyRequests are 0, 1 and 2, pairwise distinct |
| Gauges.Snapshot.Set | metrics.go:37-64 | setting one gauge gives it the value and leaves every other gauge as it was |
| Gauges.Snapshot.Touch | metrics.go:37 | `WithLabelValues` makes the gauge's child exist: a missing child appears at zero, an existing value is kept, every other gauge is unchanged |
| Gauges.TagRoundTrip | model.go:18-53 | each gauge's field code (`V1`…`Fr3`, `A`, `W`, `TWh`, `T`) reads back to that gauge |
| Gauges.TagInjective | model.go:18-53 | no two gauges are fed by the same field code |
| Gauges.FamilyNames | metrics.go:11-23 | every family name starts with `smart_maic_` and names one family only |
| Metrics.RegisteredNames | metrics.go:11-29 | `init` registers 11 names, all prefixed `smart_maic_`, no two alike |
| Metrics.RegisteredOnce | metrics.go:27-30 | every measurement family appears exactly once in the registration list |
| Metrics.GoIndex | metrics.go:37-64 | every gauge is written by one of the 22 `Set` calls, at a known position |
| Metrics.GoOrderIsPermutation | metrics.go:37-64 | the 22 `Set` calls write 22 different gauges, covering all of them |
| Metrics.GoTableVoltageCurrent | metrics.go:37-43 | writes 0-5 set voltage and current on lines 1-3 from V1..V3 and A1..A3 |
| Metrics.GoTablePowerEnergy | metrics.go:45-51 | writes 6-11 set power and energy on lines 1-3 from W1..W3 and Wh1..Wh3 |
| Metrics.GoTableFactorFrequency | metrics.go:53-59 | writes 12-17 set power factor and frequency on lines 1-3 from PF1..PF3 and Fr1..Fr3 |
| Metrics.GoTableTotals | metrics.go:61-64 | writes 18-21 set total current, total power, total energy and temperature from A, W, TWh, T |
| Metrics.GoWritesDistinct | metrics.go:37-64 | no two writes of `SetMetrics` target the same gauge |
| Metrics.SetMetricsFullPayload | metrics.go:37-64 | when every field converts, nothing panics and every gauge holds its own field's converted value |
| Metrics.SetMetricsPanics | metrics.go:35-64 | when field k is the first that fails: the panic carries its message, the gauges written before it hold their values, gauge k keeps its value or, if it had no child, holds the zero `WithLabelValues` created, and the later gauges are unchanged |
| Metrics.Registry.constructor | metrics.go:13-24 | a fresh registry has no per-line children, scalars at zero, status 0 |
| Metrics.Registry.SetDeviceAPIStatus | metrics.go:67-69 | the status gauge holds the status's numeric value; no measurement changes |
| Metrics.Registry.SetFrom | metrics.go:37 | one `WithLabelValues(l).Set(field.MustGetFloat64Value())`: the child is created, then one more step of the run, or a panic that leaves only the new child behind |
| Metrics.Registry.SetMetrics | metrics.go:32-65 | status becomes OK; the gauges and the panic are exactly `Run` of the 22 writes in source order from the old gauges |
| Writes.RunFault | metrics.go:35-64 | a run fails exactly when some write fails, with the first failing write's error |
| Writes.RunCreatesFailing | metrics.go:37-59 | the failing write's gauge ends holding its old value, or zero if it had no child: the child is created before the conversion fails |
| Writes.RunDistinct | metrics.go:37-64 | with distinct targets: each completed write's gauge holds its value, the failing write's gauge holds its old value or the zero of its new child, every other gauge keeps its value |
| Writes.RunStopsAt | metrics.go:35-64 | when write k is the first failure: earlier gauges hold their values, gauge k holds its old value or the zero of its new child, later gauges are untouched |
| Writes.RunToDone | smart_maic_exporter.py:55-67 | the run one write at a time, stopped at a failure or at the end, equals the whole run |
| Scraper.ExtractJSON | smart_maic_exporter.go:128-132 | the extracted text is never longer than the HTML |
| Scraper.ExtractJSONAbsent | smart_maic_exporter.go:128-132 | HTML containing neither wrapper piece comes back unchanged |
| Scraper.DropOpening | smart_maic_exporter.go:129 | removing `<body><pre>` from a wrapped page leaves the JSON text and the closing |
| Scraper.DropClosing | smart_maic_exporter.go:130 | removing the closing `</pre><div class="json-formatter-container"></div></body>` leaves the JSON text |
| Scraper.ExtractJSONUnwraps | smart_maic_exporter.go:128-132 | `extractJSON(opening + s + closing) == s` for any `s` containing neither piece |
| Scraper.ScrapeDurationNameFree | smart_maic_exporter.go:17-33 | `page_scrape_duration_seconds` has no `smart_maic_` prefix and clashes with none of the 11 other registered names |
| Scraper.DurationGauge.constructor | smart_maic_exporter.go:17-22 | the duration gauge starts at zero |
| Scraper.ScrapePage | smart_maic_exporter.go:91-125 | login runs iff the title is "Login" or "MAIC Login"; a payload that fails to decode changes nothing; otherwise the outcome is `SetMetrics`, and the duration is set only if no panic occurred |
| Fetch.CheckURL | main.go:14-16 | on the URL's bytes, the written check panics exactly on URLs of 1-6 bytes and 7-byte ones other than "http://" |
| Fetch.CheckURLIntended | main.go:14-16 | where the written check does not panic it accepts exactly the URLs starting with "http://" or "https://"; every URL it panics on is one the intended check rejects |
| Fetch.CheckURLShortPanics | main.go:14 | "ftp" and "https:/" panic in the slice instead of getting the rejection message |
| Fetch.CheckURLCountsBytes | main.go:14-15 | "ftp://é" (7 characters, 8 bytes) has both slices in range and is rejected with the message |
| Fetch.FinalStatusCauses | main.go:38-69 | final status is OK iff a 200 whose body decodes; TooManyRequests iff 429; Offline iff transport error, any other code, or undecodable body |
| Fetch.DecideUpdates | main.go:54-69 | only a decoded 200 reaches `SetMetrics`, with the decoded payload |
| Fetch.FetchAndUpdateMetrics | main.go:30-72 | the status ends as `FinalStatus`; every early return leaves the measurements unchanged; a decoded 200 gives exactly `SetMetrics`' run |
| PyExporter.MetricNames | smart_maic_exporter.py:26-39 | the 11 metric names are prefixed `smart_maic_`, pairwise distinct, and the ten measurement names equal the Go names |
| PyExporter.PyIndex | smart_maic_exporter.py:55-67 | every gauge is set by one of the 22 `set` calls, at a known position |
| PyExporter.PyOrderIsPermutation | smart_maic_exporter.py:55-67 | the 22 `set` calls write 22 different gauges, covering all of them |
| PyExporter.PyPhaseWrite | smart_maic_exporter.py:55-61 | write 6p+j sets metric j of phase p from key stem + phase label |
| PyExporter.PyTablePhase | smart_maic_exporter.py:56-58 | the loop body's voltage, current and power writes read keys `V<phase>`, `A<phase>`, `W<phase>` |
| PyExporter.PyTablePhaseRest | smart_maic_exporter.py:59-61 | the loop body's energy, power factor and frequency writes read keys `Wh<phase>`, `PF<phase>`, `Fr<phase>` |
| PyExporter.PyTableTotals | smart_maic_exporter.py:64-67 | the four totals read keys `A`, `W`, `TWh`, `T` |
| PyExporter.PyWritesDistinct | smart_maic_exporter.py:55-67 | no two writes target the same gauge |
| PyExporter.PyFullPayload | smart_maic_exporter.py:55-67 | when every key is present and converts, nothing is raised and every gauge holds its own key's value |
| PyExporter.PyStopsAt | smart_maic_exporter.py:55-67 | when key k is the first missing or unconvertible one: its exception is raised, earlier gauges hold their values, gauge k keeps its value or holds the zero child `labels()` created, later ones are untouched |
| PyExporter.PyMissingData | smart_maic_exporter.py:49-56 | a document without `data` reads as `{}`; the first lookup raises `KeyError('V1')`; `voltage{phase="1"}` then exists (at zero if new) and no other gauge changed |
| PyExporter.PyMetrics.constructor | smart_maic_exporter.py:27-39 | fresh gauges: no per-phase children, scalars at zero, status 0 |
| PyExporter.PyMetrics.SetFrom | smart_maic_exporter.py:56 | one `labels(phase=p).set(float(device_data[key]["value"]))`: the child is created, then one more step of the run, or an exception that leaves only the new child behind |
| PyExporter.PyMetrics.FetchAndUpdateMetrics | smart_maic_exporter.py:43-72 | a `RequestException` sets status 0 and changes no gauge; a non-object document raises `AttributeError` with nothing changed; otherwise status 1 and the gauges and exception are exactly `Run` of the 22 writes in source order |

## Left out

- The Prometheus client libraries are not modelled: gauge internals, registration mechanics, and text rendering (`promhttp`, `generate_latest`). A gauge is a map entry or a field.
- The HTTP servers are not modelled: the `/metrics` handlers, the panic recovery in the Go handler (smart_maic_exporter.go:60-73), Flask, and `flask_caching`. They are framework I/O. A panic or uncaught exception is returned as a value instead.
- Browser automation is not modelled: launching Chrome, navigation, typing the PIN, and waiting (smart_maic_exporter.go:35-58, 86-111). It is foreign I/O. `ScrapePage` takes the first page's title and the data page's HTML as parameters, and only reports whether the login branch ran.
- Floating point is not modelled. `strconv.ParseFloat` and Python's `float()` are partial-function parameters, and gauge values have an opaque type. The Go status is `float64(status)`, modelled as the integer 0, 1 or 2.
- JSON decoding is not modelled: Go's `json.Decoder` into `T` and Python's `response.json()` are parameters. Go zero-fills a missing key (a `V` with empty `Value`), which then fails to parse; the model captures this only through `decode` and `parse`.
- Time is not modelled: the scrape's elapsed seconds is a parameter, and the fetch timing in main.go is only logged.
- The mutex in main.go is not modelled (concurrency), and neither is logging (zap, `log`, `logging`).
- Environment variables, ports, and start-up are not modelled: `getEnv`, `os.getenv`, and the server start in main.go. The URL check is modelled on its own.
- The `br0`..`br3` fields of `Data` are not modelled: they are decoded but never read.
- PyExporter.Prepare: this assumes `response.json()`'s decode error is a `RequestException`, as it is from requests 2.27 on. The model does not follow redirects; the reply is the final one.
- PyExporter.Field: `float()`'s `ValueError`, `TypeError` and `OverflowError` are one `ConversionError`, because the conversion itself is a parameter.
- Scraper.ScrapePage: states nothing about the pages the browser visits or closes, because they are given as values.

## Findings

| source | as written | input that shows it | evidently intended | confidence | as-written member | corrected member |
|---|---|---|---|---|---|---|
| main.go:14 | `dataSourceURL[:7]` and `dataSourceURL[:8]` are sliced with no length check | `DATA_SOURCE_URL=ftp` (or `https:/`): the slice is out of range and panics before the message | reject the URL with "Must start with 'http://' or 'https://'", as for any other bad URL | high (not executed) | Fetch.CheckURLShortPanics | Fetch.ValidURL |
