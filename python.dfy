/**
  The Python revision (smart_maic_exporter.py): eleven gauges in their own
  registry, and `fetch_and_update_metrics`, which GETs the device's JSON and
  writes its readings phase by phase, then the totals. Only
  `requests.RequestException` is caught; it sets `request_status` to 0.
*/
module PyExporter {
  import opened Wrappers
  import opened Strings
  import opened Gauges
  import opened Writes
  import opened Metrics

  /** The keys of the `metrics` dictionary; each gauge is named `smart_maic_` and its key. */
  const MetricKeys: seq<string> := [
    "voltage", "current", "power", "energy", "power_factor", "frequency",
    "total_current", "total_power", "total_energy", "temperature", "request_status"]

  /**
    The eleven gauge names are prefixed and distinct, and the ten measurement
    gauges carry the same names as in the Go revision, in the same order.
  */
  lemma MetricNames()
    ensures |MetricKeys| == 11
    ensures forall i :: 0 <= i < |MetricKeys| ==> StartsWith(Prefix + MetricKeys[i], Prefix)
    ensures forall i :: 0 <= i < |Registered| ==> Prefix + MetricKeys[i] == FamilyName(Registered[i])
    ensures forall i, j :: 0 <= i < j < |MetricKeys| ==> Prefix + MetricKeys[i] != Prefix + MetricKeys[j]
  {
  }

  /** What `response.json()` can return. Numbers keep their text; `float` is a parameter. */
  datatype Json =
    | Null
    | Bool(b: bool)
    | Number(text: string)
    | Str(s: string)
    | Array(items: seq<Json>)
    | Object(members: map<string, Json>)

  /**
    The exceptions `fetch_and_update_metrics` can raise. `ConversionError` is
    whatever `float()` raises for a value it cannot convert.
  */
  datatype PyError =
    | RequestException
    | AttributeError
    | KeyError(key: string)
    | TypeError
    | ConversionError(value: Json)

  /** What `requests.get` gives: a connection failure, or a response with its status code and body. */
  datatype Reply = ConnectionError | Reply(statusCode: int, body: string)

  /** `raise_for_status`: a 4xx or 5xx code raises `HTTPError`, a `RequestException`. */
  predicate RaisesForStatus(code: int) {
    400 <= code < 600
  }

  /** `data.get("data", {})`: a missing `data` member is an empty object; a document that is not an object has no `get`. */
  function DeviceData(doc: Json): Result<Json, PyError> {
    if !doc.Object? then Failure(AttributeError)
    else if "data" in doc.members then Success(doc.members["data"])
    else Success(Object(map[]))
  }

  /**
    Everything before `request_status` is set to 1: the GET, `raise_for_status`,
    `response.json()` (whose decode error is a `RequestException`), and the
    `data` lookup. `json` decodes a body, `None` meaning invalid JSON.
  */
  function Prepare(reply: Reply, json: string -> Option<Json>): Result<Json, PyError> {
    if reply.ConnectionError? then Failure(RequestException)
    else if RaisesForStatus(reply.statusCode) then Failure(RequestException)
    else match json(reply.body)
      case None => Failure(RequestException)
      case Some(doc) => DeviceData(doc)
  }

  /** `float(device_data[key]["value"])`, with the exception each step can raise. */
  function Field<F>(deviceData: Json, key: string, toFloat: Json -> Option<F>): Result<F, PyError> {
    if !deviceData.Object? then Failure(TypeError)
    else if key !in deviceData.members then Failure(KeyError(key))
    else
      var entry := deviceData.members[key];
      if !entry.Object? then Failure(TypeError)
      else if "value" !in entry.members then Failure(KeyError("value"))
      else match toFloat(entry.members["value"])
        case None => Failure(ConversionError(entry.members["value"]))
        case Some(x) => Success(x)
  }

  /** The per-phase metrics in the order the loop body sets them. */
  const PhaseMetrics: seq<Metric> := [Voltage, Current, Power, Energy, PowerFactor, Frequency]

  /** How many gauges `fetch_and_update_metrics` sets. */
  const PyCount: nat := 22

  /** The gauge of the `k`-th `set`: phase by phase, six metrics each, then the four totals. */
  function PyGauge(k: nat): Gauge
    requires k < PyCount
  {
    if k < 18 then
      var p := if k < 6 then 0 else if k < 12 then 1 else 2;
      PerLine(PhaseMetrics[k - 6 * p], Lines[p])
    else Total(match k case 18 => TotalCurrent case 19 => TotalPower case 20 => TotalEnergy case _ => Temperature)
  }

  /** The position of gauge `g` among the `set` calls. */
  function PyIndex(g: Gauge): (k: nat)
    ensures k < PyCount && PyGauge(k) == g
  {
    match g
    case PerLine(m, l) =>
      var i := match m
        case Voltage => 0 case Current => 1 case Power => 2
        case Energy => 3 case PowerFactor => 4 case Frequency => 5;
      var j := match l case L1 => 0 case L2 => 1 case L3 => 2;
      6 * j + i
    case Total(TotalCurrent) => 18
    case Total(TotalPower) => 19
    case Total(TotalEnergy) => 20
    case Total(Temperature) => 21
  }

  /** `fetch_and_update_metrics` sets each of the 22 gauges exactly once. */
  lemma PyOrderIsPermutation()
    ensures forall g :: PyGauge(PyIndex(g)) == g
    ensures forall i, j :: 0 <= i < j < PyCount ==> PyGauge(i) != PyGauge(j)
  {
    forall i, j | 0 <= i < j < PyCount
      ensures PyGauge(i) != PyGauge(j)
    {
    }
  }

  /** The `set` calls as writes; each gauge reads the key that is its field code. */
  function PyWrites<F>(deviceData: Json, toFloat: Json -> Option<F>): (ws: seq<Write<F, PyError>>)
    ensures |ws| == PyCount
  {
    seq(PyCount, k requires 0 <= k < PyCount => Write(PyGauge(k), Field(deviceData, Tag(PyGauge(k)), toFloat)))
  }

  /** Write `j` of the loop body for phase `Label(Lines[p])`: metric `j` on that line. */
  lemma PyPhaseWrite<F>(deviceData: Json, toFloat: Json -> Option<F>, p: nat, j: nat)
    requires p < 3 && j < 6
    ensures PyWrites(deviceData, toFloat)[6 * p + j] ==
              Write(PerLine(PhaseMetrics[j], Lines[p]), Field(deviceData, Code(PhaseMetrics[j]) + Label(Lines[p]), toFloat))
  {
  }

  /** The first three writes of the loop body for phase `Label(Lines[p])`, with the keys as the source spells them. */
  lemma PyTablePhase<F>(deviceData: Json, toFloat: Json -> Option<F>, p: nat)
    requires p < 3
    ensures PyWrites(deviceData, toFloat)[6 * p] ==
              Write(PerLine(Voltage, Lines[p]), Field(deviceData, "V" + Label(Lines[p]), toFloat))
    ensures PyWrites(deviceData, toFloat)[6 * p + 1] ==
              Write(PerLine(Current, Lines[p]), Field(deviceData, "A" + Label(Lines[p]), toFloat))
    ensures PyWrites(deviceData, toFloat)[6 * p + 2] ==
              Write(PerLine(Power, Lines[p]), Field(deviceData, "W" + Label(Lines[p]), toFloat))
  {
    PyPhaseWrite(deviceData, toFloat, p, 0);
    assert PhaseMetrics[0] == Voltage;
    PyPhaseWrite(deviceData, toFloat, p, 1);
    assert PhaseMetrics[1] == Current;
    PyPhaseWrite(deviceData, toFloat, p, 2);
    assert PhaseMetrics[2] == Power;
  }

  /** The last three writes of the loop body for phase `Label(Lines[p])`. */
  lemma PyTablePhaseRest<F>(deviceData: Json, toFloat: Json -> Option<F>, p: nat)
    requires p < 3
    ensures PyWrites(deviceData, toFloat)[6 * p + 3] ==
              Write(PerLine(Energy, Lines[p]), Field(deviceData, "Wh" + Label(Lines[p]), toFloat))
    ensures PyWrites(deviceData, toFloat)[6 * p + 4] ==
              Write(PerLine(PowerFactor, Lines[p]), Field(deviceData, "PF" + Label(Lines[p]), toFloat))
    ensures PyWrites(deviceData, toFloat)[6 * p + 5] ==
              Write(PerLine(Frequency, Lines[p]), Field(deviceData, "Fr" + Label(Lines[p]), toFloat))
  {
    PyPhaseWrite(deviceData, toFloat, p, 3);
    assert PhaseMetrics[3] == Energy;
    PyPhaseWrite(deviceData, toFloat, p, 4);
    assert PhaseMetrics[4] == PowerFactor;
    PyPhaseWrite(deviceData, toFloat, p, 5);
    assert PhaseMetrics[5] == Frequency;
  }

  /** The four writes after the loop. */
  lemma PyTableTotals<F>(deviceData: Json, toFloat: Json -> Option<F>)
    ensures PyWrites(deviceData, toFloat)[18] == Write(Total(TotalCurrent), Field(deviceData, "A", toFloat))
    ensures PyWrites(deviceData, toFloat)[19] == Write(Total(TotalPower), Field(deviceData, "W", toFloat))
    ensures PyWrites(deviceData, toFloat)[20] == Write(Total(TotalEnergy), Field(deviceData, "TWh", toFloat))
    ensures PyWrites(deviceData, toFloat)[21] == Write(Total(Temperature), Field(deviceData, "T", toFloat))
  {
  }

  lemma PyWritesDistinct<F>(deviceData: Json, toFloat: Json -> Option<F>)
    ensures DistinctTargets(PyWrites(deviceData, toFloat))
  {
  }

  /**
    Every key is present with a convertible `value`: every gauge ends up
    holding its own field's value and nothing is raised.
  */
  lemma PyFullPayload<F>(m: Snapshot<F>, deviceData: Json, toFloat: Json -> Option<F>, zero: F)
    requires forall g :: Field(deviceData, Tag(g), toFloat).Success?
    ensures Run(m, PyWrites(deviceData, toFloat), zero).fault == None
    ensures forall g :: Run(m, PyWrites(deviceData, toFloat), zero).gauges.Get(g) ==
              Some(Field(deviceData, Tag(g), toFloat).value)
  {
    var ws := PyWrites(deviceData, toFloat);
    forall k | 0 <= k < |ws|
      ensures ws[k].source.Success?
    {
      assert ws[k].source == Field(deviceData, Tag(PyGauge(k)), toFloat);
    }
    assert Completed(ws) == |ws|;
    PyWritesDistinct(deviceData, toFloat);
    RunDistinct(m, ws, zero);
    forall g
      ensures Run(m, ws, zero).gauges.Get(g) == Some(Field(deviceData, Tag(g), toFloat).value)
    {
      assert ws[PyIndex(g)].target == g;
    }
  }

  /**
    The key at position `k` is the first missing or unconvertible one: its
    exception is raised, the gauges before it hold their values, its own gauge
    keeps its value or, on a phase with no child yet, shows the child
    `labels()` created at `zero`, and the gauges after it are untouched.
  */
  lemma PyStopsAt<F>(m: Snapshot<F>, deviceData: Json, toFloat: Json -> Option<F>, zero: F, k: nat)
    requires k < PyCount
    requires forall j :: 0 <= j < k ==> Field(deviceData, Tag(PyGauge(j)), toFloat).Success?
    requires Field(deviceData, Tag(PyGauge(k)), toFloat).Failure?
    ensures Run(m, PyWrites(deviceData, toFloat), zero).fault == Some(Field(deviceData, Tag(PyGauge(k)), toFloat).error)
    ensures forall j :: 0 <= j < k ==>
              Run(m, PyWrites(deviceData, toFloat), zero).gauges.Get(PyGauge(j)) ==
                Some(Field(deviceData, Tag(PyGauge(j)), toFloat).value)
    ensures Run(m, PyWrites(deviceData, toFloat), zero).gauges.Get(PyGauge(k)) ==
              if m.Get(PyGauge(k)).None? then Some(zero) else m.Get(PyGauge(k))
    ensures forall j :: k < j < PyCount ==>
              Run(m, PyWrites(deviceData, toFloat), zero).gauges.Get(PyGauge(j)) == m.Get(PyGauge(j))
  {
    var ws := PyWrites(deviceData, toFloat);
    assert forall j :: 0 <= j < PyCount ==> ws[j].target == PyGauge(j);
    assert forall j :: 0 <= j < PyCount ==> ws[j].source == Field(deviceData, Tag(PyGauge(j)), toFloat);
    PyWritesDistinct(deviceData, toFloat);
    RunStopsAt(m, ws, zero, k);
  }

  /**
    A document without `data` reads as an empty object, and the very first
    lookup raises `KeyError('V1')`. By then `labels(phase="1")` has run, so
    `voltage{phase="1"}` exists, at `zero` if it did not before; no other
    gauge changes.
  */
  lemma PyMissingData<F>(m: Snapshot<F>, members: map<string, Json>, toFloat: Json -> Option<F>, zero: F)
    requires "data" !in members
    ensures DeviceData(Object(members)) == Success(Object(map[]))
    ensures Run(m, PyWrites(Object(map[]), toFloat), zero).fault == Some(KeyError("V1"))
    ensures Run(m, PyWrites(Object(map[]), toFloat), zero).gauges.Get(PerLine(Voltage, L1)) ==
              if m.Get(PerLine(Voltage, L1)).None? then Some(zero) else m.Get(PerLine(Voltage, L1))
    ensures forall g :: g != PerLine(Voltage, L1) ==>
              Run(m, PyWrites(Object(map[]), toFloat), zero).gauges.Get(g) == m.Get(g)
  {
    var ws := PyWrites(Object(map[]), toFloat);
    PyTablePhase(Object(map[]), toFloat, 0);
    assert "V" + Label(Lines[0]) == "V1";
    assert ws[0].source == Failure(KeyError("V1"));
  }

  /** The `metrics` gauges: the ten measurement gauges and `request_status`. */
  class PyMetrics<F> {
    /** The value a gauge or a newly created child starts at. */
    const zero: F
    var gauges: Snapshot<F>
    var requestStatus: int

    constructor (zero: F)
      ensures this.zero == zero
      ensures forall m, l :: gauges.Get(PerLine(m, l)) == None
      ensures forall s :: gauges.Get(Total(s)) == Some(zero)
      ensures requestStatus == 0
    {
      this.zero := zero;
      gauges := Snapshot(map[], zero, zero, zero, zero);
      requestStatus := 0;
    }

    /**
      `metrics[...].labels(phase=phase).set(float(device_data[key]["value"]))`
      as write `k` of `ws`, reached with nothing raised so far. Python
      evaluates `labels()` before the argument, so a per-phase child is
      created first; then gauge `g` takes the value, or the lookup or `float()`
      raises with the new child left in place. A scalar's `set` has no child
      to create.
    */
    method SetFrom(g: Gauge, deviceData: Json, key: string, toFloat: Json -> Option<F>,
                   ghost m: Snapshot<F>, ghost ws: seq<Write<F, PyError>>, ghost k: nat)
      returns (raised: Option<PyError>)
      requires k < |ws| && ws[k] == Write(g, Field(deviceData, key, toFloat))
      requires Applied(gauges, None) == RunTo(m, ws, zero, k)
      modifies this
      ensures requestStatus == old(requestStatus)
      ensures Applied(gauges, raised) == RunTo(m, ws, zero, k + 1)
    {
      gauges := gauges.Touch(g, zero);
      match Field(deviceData, key, toFloat)
      case Failure(e) =>
        raised := Some(e);
      case Success(x) =>
        gauges := gauges.Set(g, x);
        raised := None;
    }

    /**
      `fetch_and_update_metrics`, given the GET's outcome `reply`; `json` is
      `response.json()` on a body and `toFloat` is `float()`. A
      `RequestException` sets `request_status` to 0 and changes no measurement.
      Once the device data is in hand `request_status` is 1 before any
      measurement is written, and the writes run in order until one raises;
      that exception is not caught and is returned as `raised`.
    */
    method FetchAndUpdateMetrics(reply: Reply, json: string -> Option<Json>, toFloat: Json -> Option<F>)
      returns (raised: Option<PyError>)
      modifies this
      ensures Prepare(reply, json) == Failure(RequestException) ==>
                raised == None && requestStatus == 0 && gauges == old(gauges)
      ensures Prepare(reply, json) == Failure(AttributeError) ==>
                raised == Some(AttributeError) && requestStatus == old(requestStatus) && gauges == old(gauges)
      ensures Prepare(reply, json).Success? ==>
                requestStatus == 1 &&
                Applied(gauges, raised) == Run(old(gauges), PyWrites(Prepare(reply, json).value, toFloat), zero)
    {
      if reply.ConnectionError? || RaisesForStatus(reply.statusCode) {
        requestStatus := 0;
        return None;
      }
      var data := json(reply.body);
      if data.None? {
        requestStatus := 0;
        return None;
      }
      var fetched := DeviceData(data.value);
      if fetched.Failure? {
        return Some(fetched.error);
      }
      var deviceData := fetched.value;
      assert Prepare(reply, json) == Success(deviceData);
      requestStatus := 1;

      ghost var m := gauges;
      ghost var ws := PyWrites(deviceData, toFloat);
      for p := 0 to 3
        invariant requestStatus == 1
        invariant Applied(gauges, None) == RunTo(m, ws, zero, 6 * p)
      {
        var line := Lines[p];
        var phase := Label(line);
        PyTablePhase(deviceData, toFloat, p);
        PyTablePhaseRest(deviceData, toFloat, p);
        raised := SetFrom(PerLine(Voltage, line), deviceData, "V" + phase, toFloat, m, ws, 6 * p);
        if raised.Some? { RunToDone(m, ws, zero, 6 * p + 1); return; }
        raised := SetFrom(PerLine(Current, line), deviceData, "A" + phase, toFloat, m, ws, 6 * p + 1);
        if raised.Some? { RunToDone(m, ws, zero, 6 * p + 2); return; }
        raised := SetFrom(PerLine(Power, line), deviceData, "W" + phase, toFloat, m, ws, 6 * p + 2);
        if raised.Some? { RunToDone(m, ws, zero, 6 * p + 3); return; }
        raised := SetFrom(PerLine(Energy, line), deviceData, "Wh" + phase, toFloat, m, ws, 6 * p + 3);
        if raised.Some? { RunToDone(m, ws, zero, 6 * p + 4); return; }
        raised := SetFrom(PerLine(PowerFactor, line), deviceData, "PF" + phase, toFloat, m, ws, 6 * p + 4);
        if raised.Some? { RunToDone(m, ws, zero, 6 * p + 5); return; }
        raised := SetFrom(PerLine(Frequency, line), deviceData, "Fr" + phase, toFloat, m, ws, 6 * p + 5);
        if raised.Some? { RunToDone(m, ws, zero, 6 * p + 6); return; }
      }

      PyTableTotals(deviceData, toFloat);
      raised := SetFrom(Total(TotalCurrent), deviceData, "A", toFloat, m, ws, 18);
      if raised.Some? { RunToDone(m, ws, zero, 19); return; }
      raised := SetFrom(Total(TotalPower), deviceData, "W", toFloat, m, ws, 19);
      if raised.Some? { RunToDone(m, ws, zero, 20); return; }
      raised := SetFrom(Total(TotalEnergy), deviceData, "TWh", toFloat, m, ws, 20);
      if raised.Some? { RunToDone(m, ws, zero, 21); return; }
      raised := SetFrom(Total(Temperature), deviceData, "T", toFloat, m, ws, 21);
      RunToDone(m, ws, zero, 22);
    }
  }
}
