/**
  The Go revision's gauge registry (metrics.go): the eleven registered gauges,
  `SetDeviceAPIStatus`, and `SetMetrics`, which copies the 22 readings of a
  decoded payload into the gauges in a fixed order.
*/
module Metrics {
  import opened Wrappers
  import opened Strings
  import opened Model
  import opened Gauges
  import opened Writes

  const StatusName: string := Prefix + "device_api_status"

  /** The measurement families in the order `init` registers them; the status gauge follows them. */
  const Registered: seq<Family> := [
    Vec(Voltage), Vec(Current), Vec(Power), Vec(Energy), Vec(PowerFactor), Vec(Frequency),
    Plain(TotalCurrent), Plain(TotalPower), Plain(TotalEnergy), Plain(Temperature)]

  /** The names of everything `init` registers, status last. */
  function RegisteredNames(): (names: seq<string>)
    ensures |names| == 11
    ensures forall i :: 0 <= i < |names| ==> StartsWith(names[i], Prefix)
    ensures forall i, j :: 0 <= i < j < |names| ==> names[i] != names[j]
  {
    var names := seq(|Registered|, i requires 0 <= i < |Registered| => FamilyName(Registered[i])) + [StatusName];
    forall i | 0 <= i < |names|
      ensures StartsWith(names[i], Prefix)
    {
      if i < |Registered| {
        FamilyNames(Registered[i], Registered[i]);
      }
    }
    forall i, j | 0 <= i < j < |names|
      ensures names[i] != names[j]
    {
      if j < |Registered| {
        FamilyNames(Registered[i], Registered[j]);
      } else {
        assert names[i][|Prefix|..] != StatusName[|Prefix|..];
      }
    }
    names
  }

  /** Every measurement family is registered exactly once. */
  lemma RegisteredOnce(f: Family)
    ensures exists i :: 0 <= i < |Registered| && Registered[i] == f
    ensures forall i, j :: 0 <= i < j < |Registered| ==> Registered[i] != Registered[j]
  {
    match f
    case Vec(Voltage) => assert Registered[0] == f;
    case Vec(Current) => assert Registered[1] == f;
    case Vec(Power) => assert Registered[2] == f;
    case Vec(Energy) => assert Registered[3] == f;
    case Vec(PowerFactor) => assert Registered[4] == f;
    case Vec(Frequency) => assert Registered[5] == f;
    case Plain(TotalCurrent) => assert Registered[6] == f;
    case Plain(TotalPower) => assert Registered[7] == f;
    case Plain(TotalEnergy) => assert Registered[8] == f;
    case Plain(Temperature) => assert Registered[9] == f;
  }

  /** The payload field `SetMetrics` reads for gauge `g`. */
  function Source(d: Data, g: Gauge): V {
    match g
    case PerLine(Voltage, L1) => d.V1
    case PerLine(Voltage, L2) => d.V2
    case PerLine(Voltage, L3) => d.V3
    case PerLine(Current, L1) => d.A1
    case PerLine(Current, L2) => d.A2
    case PerLine(Current, L3) => d.A3
    case PerLine(Power, L1) => d.W1
    case PerLine(Power, L2) => d.W2
    case PerLine(Power, L3) => d.W3
    case PerLine(Energy, L1) => d.Wh1
    case PerLine(Energy, L2) => d.Wh2
    case PerLine(Energy, L3) => d.Wh3
    case PerLine(PowerFactor, L1) => d.PF1
    case PerLine(PowerFactor, L2) => d.PF2
    case PerLine(PowerFactor, L3) => d.PF3
    case PerLine(Frequency, L1) => d.Fr1
    case PerLine(Frequency, L2) => d.Fr2
    case PerLine(Frequency, L3) => d.Fr3
    case Total(TotalCurrent) => d.A
    case Total(TotalPower) => d.W
    case Total(TotalEnergy) => d.TWh
    case Total(Temperature) => d.T
  }

  /** How many `Set` calls `SetMetrics` makes. */
  const GoCount: nat := 22

  /** The gauge of the `k`-th `Set` call in `SetMetrics`: each quantity on lines 1, 2, 3, then the scalars. */
  function GoGauge(k: nat): Gauge
    requires k < GoCount
  {
    if k < 18 then
      var m := match k / 3
        case 0 => Voltage case 1 => Current case 2 => Power
        case 3 => Energy case 4 => PowerFactor case _ => Frequency;
      var l := match k % 3 case 0 => L1 case 1 => L2 case _ => L3;
      PerLine(m, l)
    else
      Total(match k case 18 => TotalCurrent case 19 => TotalPower case 20 => TotalEnergy case _ => Temperature)
  }

  /** The position of gauge `g` among the `Set` calls. */
  function GoIndex(g: Gauge): (k: nat)
    ensures k < GoCount && GoGauge(k) == g
  {
    match g
    case PerLine(m, l) =>
      var i := match m
        case Voltage => 0 case Current => 1 case Power => 2
        case Energy => 3 case PowerFactor => 4 case Frequency => 5;
      var j := match l case L1 => 0 case L2 => 1 case L3 => 2;
      3 * i + j
    case Total(TotalCurrent) => 18
    case Total(TotalPower) => 19
    case Total(TotalEnergy) => 20
    case Total(Temperature) => 21
  }

  /** `SetMetrics` writes each of the 22 gauges exactly once. */
  lemma GoOrderIsPermutation()
    ensures forall g :: GoGauge(GoIndex(g)) == g
    ensures forall i, j :: 0 <= i < j < GoCount ==> GoGauge(i) != GoGauge(j)
  {
  }

  /** The `k`-th `Set` call: gauge `GoGauge(k)` from its field, converted. */
  function GoWrite<F>(d: Data, parse: string -> Option<F>, k: nat): Write<F, string>
    requires k < GoCount
  {
    Write(GoGauge(k), MustGetFloat64Value(Source(d, GoGauge(k)), parse))
  }

  /** `SetMetrics` as a write sequence. */
  function GoWrites<F>(d: Data, parse: string -> Option<F>): (ws: seq<Write<F, string>>)
    ensures |ws| == GoCount
  {
    seq(GoCount, k requires 0 <= k < GoCount => GoWrite(d, parse, k))
  }

  /** The 22 writes of `SetMetrics`, one per line of the source, in four blocks. */
  lemma GoTableVoltageCurrent<F>(d: Data, parse: string -> Option<F>)
    ensures GoWrites(d, parse)[0] == Write(PerLine(Voltage, L1), MustGetFloat64Value(d.V1, parse))
    ensures GoWrites(d, parse)[1] == Write(PerLine(Voltage, L2), MustGetFloat64Value(d.V2, parse))
    ensures GoWrites(d, parse)[2] == Write(PerLine(Voltage, L3), MustGetFloat64Value(d.V3, parse))
    ensures GoWrites(d, parse)[3] == Write(PerLine(Current, L1), MustGetFloat64Value(d.A1, parse))
    ensures GoWrites(d, parse)[4] == Write(PerLine(Current, L2), MustGetFloat64Value(d.A2, parse))
    ensures GoWrites(d, parse)[5] == Write(PerLine(Current, L3), MustGetFloat64Value(d.A3, parse))
  {
  }

  lemma GoTablePowerEnergy<F>(d: Data, parse: string -> Option<F>)
    ensures GoWrites(d, parse)[6] == Write(PerLine(Power, L1), MustGetFloat64Value(d.W1, parse))
    ensures GoWrites(d, parse)[7] == Write(PerLine(Power, L2), MustGetFloat64Value(d.W2, parse))
    ensures GoWrites(d, parse)[8] == Write(PerLine(Power, L3), MustGetFloat64Value(d.W3, parse))
    ensures GoWrites(d, parse)[9] == Write(PerLine(Energy, L1), MustGetFloat64Value(d.Wh1, parse))
    ensures GoWrites(d, parse)[10] == Write(PerLine(Energy, L2), MustGetFloat64Value(d.Wh2, parse))
    ensures GoWrites(d, parse)[11] == Write(PerLine(Energy, L3), MustGetFloat64Value(d.Wh3, parse))
  {
  }

  lemma GoTableFactorFrequency<F>(d: Data, parse: string -> Option<F>)
    ensures GoWrites(d, parse)[12] == Write(PerLine(PowerFactor, L1), MustGetFloat64Value(d.PF1, parse))
    ensures GoWrites(d, parse)[13] == Write(PerLine(PowerFactor, L2), MustGetFloat64Value(d.PF2, parse))
    ensures GoWrites(d, parse)[14] == Write(PerLine(PowerFactor, L3), MustGetFloat64Value(d.PF3, parse))
    ensures GoWrites(d, parse)[15] == Write(PerLine(Frequency, L1), MustGetFloat64Value(d.Fr1, parse))
    ensures GoWrites(d, parse)[16] == Write(PerLine(Frequency, L2), MustGetFloat64Value(d.Fr2, parse))
    ensures GoWrites(d, parse)[17] == Write(PerLine(Frequency, L3), MustGetFloat64Value(d.Fr3, parse))
  {
  }

  lemma GoTableTotals<F>(d: Data, parse: string -> Option<F>)
    ensures GoWrites(d, parse)[18] == Write(Total(TotalCurrent), MustGetFloat64Value(d.A, parse))
    ensures GoWrites(d, parse)[19] == Write(Total(TotalPower), MustGetFloat64Value(d.W, parse))
    ensures GoWrites(d, parse)[20] == Write(Total(TotalEnergy), MustGetFloat64Value(d.TWh, parse))
    ensures GoWrites(d, parse)[21] == Write(Total(Temperature), MustGetFloat64Value(d.T, parse))
  {
  }

  lemma GoWritesDistinct<F>(d: Data, parse: string -> Option<F>)
    ensures DistinctTargets(GoWrites(d, parse))
  {
  }

  /**
    Every field converts: `SetMetrics` completes, and afterwards every gauge,
    per-line or scalar, holds the converted value of its own payload field.
  */
  lemma SetMetricsFullPayload<F>(m: Snapshot<F>, d: Data, parse: string -> Option<F>, zero: F)
    requires forall g :: MustGetFloat64Value(Source(d, g), parse).Success?
    ensures Run(m, GoWrites(d, parse), zero).fault == None
    ensures forall g :: Run(m, GoWrites(d, parse), zero).gauges.Get(g) ==
              Some(MustGetFloat64Value(Source(d, g), parse).value)
  {
    var ws := GoWrites(d, parse);
    forall k | 0 <= k < |ws| ensures ws[k].source.Success? {
      assert ws[k].source == MustGetFloat64Value(Source(d, GoGauge(k)), parse);
    }
    assert Completed(ws) == |ws|;
    GoWritesDistinct(d, parse);
    RunDistinct(m, ws, zero);
    forall g
      ensures Run(m, ws, zero).gauges.Get(g) == Some(MustGetFloat64Value(Source(d, g), parse).value)
    {
      assert ws[GoIndex(g)].target == g;
    }
  }

  /**
    The field at position `k` of the write order fails to convert after all the
    earlier ones converted: the panic carries that field's message, the gauges
    written before it hold their values, its own gauge keeps its value or, on
    a line with no child yet, shows the child `WithLabelValues` created at
    `zero`, and every later gauge is untouched.
  */
  lemma SetMetricsPanics<F>(m: Snapshot<F>, d: Data, parse: string -> Option<F>, zero: F, k: nat)
    requires k < GoCount
    requires forall j :: 0 <= j < k ==> MustGetFloat64Value(Source(d, GoGauge(j)), parse).Success?
    requires MustGetFloat64Value(Source(d, GoGauge(k)), parse).Failure?
    ensures Run(m, GoWrites(d, parse), zero).fault == Some(NotFloatMessage(Source(d, GoGauge(k)).Value))
    ensures forall j :: 0 <= j < k ==>
              Run(m, GoWrites(d, parse), zero).gauges.Get(GoGauge(j)) ==
                Some(MustGetFloat64Value(Source(d, GoGauge(j)), parse).value)
    ensures Run(m, GoWrites(d, parse), zero).gauges.Get(GoGauge(k)) ==
              if m.Get(GoGauge(k)).None? then Some(zero) else m.Get(GoGauge(k))
    ensures forall j :: k < j < GoCount ==>
              Run(m, GoWrites(d, parse), zero).gauges.Get(GoGauge(j)) == m.Get(GoGauge(j))
  {
    var ws := GoWrites(d, parse);
    assert forall j :: 0 <= j < GoCount ==> ws[j].target == GoGauge(j);
    assert forall j :: 0 <= j < GoCount ==> ws[j].source == MustGetFloat64Value(Source(d, GoGauge(j)), parse);
    GoWritesDistinct(d, parse);
    RunStopsAt(m, ws, zero, k);
  }

  /**
    The gauges of metrics.go. Per-line gauges are label-keyed children that
    `WithLabelValues` creates at `zero` the first time a line is named; the
    scalars start at `zero`, as does the status gauge, which holds
    `float64(status)`.
  */
  class Registry<F> {
    /** The value a gauge or a newly created child starts at. */
    const zero: F
    var gauges: Snapshot<F>
    var status: int

    constructor (zero: F)
      ensures this.zero == zero
      ensures forall m, l :: gauges.Get(PerLine(m, l)) == None
      ensures forall s :: gauges.Get(Total(s)) == Some(zero)
      ensures status == Offline.Value()
    {
      this.zero := zero;
      gauges := Snapshot(map[], zero, zero, zero, zero);
      status := 0;
    }

    /** `SetDeviceAPIStatus`: the status gauge takes the status's value; nothing else changes. */
    method SetDeviceAPIStatus(s: DeviceAPIStatus)
      modifies this
      ensures status == s.Value()
      ensures gauges == old(gauges)
    {
      status := s.Value();
    }

    /**
      `g.WithLabelValues(l).Set(v.MustGetFloat64Value())` as write `k` of
      `ws`, reached with no panic so far. Go evaluates the receiver first, so a
      per-line child is created before the conversion runs; then gauge `g`
      takes the converted value, or the conversion panics with the new child
      left in place. A scalar's `Set` has no child to create.
    */
    method SetFrom(g: Gauge, v: V, parse: string -> Option<F>,
                   ghost m: Snapshot<F>, ghost ws: seq<Write<F, string>>, ghost k: nat)
      returns (panic: Option<string>)
      requires k < |ws| && ws[k] == Write(g, MustGetFloat64Value(v, parse))
      requires Applied(gauges, None) == RunTo(m, ws, zero, k)
      modifies this
      ensures status == old(status)
      ensures Applied(gauges, panic) == RunTo(m, ws, zero, k + 1)
    {
      gauges := gauges.Touch(g, zero);
      match MustGetFloat64Value(v, parse)
      case Failure(msg) =>
        panic := Some(msg);
      case Success(f) =>
        gauges := gauges.Set(g, f);
        panic := None;
    }

    /**
      `SetMetrics`: status OK first, then the 22 conversions and writes in
      source order. A conversion that panics ends the call with the earlier
      writes in place, the failing line's child created, and the status left
      at OK.
    */
    method SetMetrics(v: T, parse: string -> Option<F>) returns (panic: Option<string>)
      modifies this
      ensures status == OK.Value()
      ensures Applied(gauges, panic) == Run(old(gauges), GoWrites(v.Data, parse), zero)
    {
      var data := v.Data;
      SetDeviceAPIStatus(OK);
      ghost var m := gauges;
      ghost var ws := GoWrites(data, parse);
      GoTableVoltageCurrent(data, parse);
      GoTablePowerEnergy(data, parse);
      GoTableFactorFrequency(data, parse);
      GoTableTotals(data, parse);

      panic := SetFrom(PerLine(Voltage, L1), data.V1, parse, m, ws, 0);
      if panic.Some? { RunToDone(m, ws, zero, 1); return; }
      panic := SetFrom(PerLine(Voltage, L2), data.V2, parse, m, ws, 1);
      if panic.Some? { RunToDone(m, ws, zero, 2); return; }
      panic := SetFrom(PerLine(Voltage, L3), data.V3, parse, m, ws, 2);
      if panic.Some? { RunToDone(m, ws, zero, 3); return; }

      panic := SetFrom(PerLine(Current, L1), data.A1, parse, m, ws, 3);
      if panic.Some? { RunToDone(m, ws, zero, 4); return; }
      panic := SetFrom(PerLine(Current, L2), data.A2, parse, m, ws, 4);
      if panic.Some? { RunToDone(m, ws, zero, 5); return; }
      panic := SetFrom(PerLine(Current, L3), data.A3, parse, m, ws, 5);
      if panic.Some? { RunToDone(m, ws, zero, 6); return; }

      panic := SetFrom(PerLine(Power, L1), data.W1, parse, m, ws, 6);
      if panic.Some? { RunToDone(m, ws, zero, 7); return; }
      panic := SetFrom(PerLine(Power, L2), data.W2, parse, m, ws, 7);
      if panic.Some? { RunToDone(m, ws, zero, 8); return; }
      panic := SetFrom(PerLine(Power, L3), data.W3, parse, m, ws, 8);
      if panic.Some? { RunToDone(m, ws, zero, 9); return; }

      panic := SetFrom(PerLine(Energy, L1), data.Wh1, parse, m, ws, 9);
      if panic.Some? { RunToDone(m, ws, zero, 10); return; }
      panic := SetFrom(PerLine(Energy, L2), data.Wh2, parse, m, ws, 10);
      if panic.Some? { RunToDone(m, ws, zero, 11); return; }
      panic := SetFrom(PerLine(Energy, L3), data.Wh3, parse, m, ws, 11);
      if panic.Some? { RunToDone(m, ws, zero, 12); return; }

      panic := SetFrom(PerLine(PowerFactor, L1), data.PF1, parse, m, ws, 12);
      if panic.Some? { RunToDone(m, ws, zero, 13); return; }
      panic := SetFrom(PerLine(PowerFactor, L2), data.PF2, parse, m, ws, 13);
      if panic.Some? { RunToDone(m, ws, zero, 14); return; }
      panic := SetFrom(PerLine(PowerFactor, L3), data.PF3, parse, m, ws, 14);
      if panic.Some? { RunToDone(m, ws, zero, 15); return; }

      panic := SetFrom(PerLine(Frequency, L1), data.Fr1, parse, m, ws, 15);
      if panic.Some? { RunToDone(m, ws, zero, 16); return; }
      panic := SetFrom(PerLine(Frequency, L2), data.Fr2, parse, m, ws, 16);
      if panic.Some? { RunToDone(m, ws, zero, 17); return; }
      panic := SetFrom(PerLine(Frequency, L3), data.Fr3, parse, m, ws, 17);
      if panic.Some? { RunToDone(m, ws, zero, 18); return; }

      panic := SetFrom(Total(TotalCurrent), data.A, parse, m, ws, 18);
      if panic.Some? { RunToDone(m, ws, zero, 19); return; }
      panic := SetFrom(Total(TotalPower), data.W, parse, m, ws, 19);
      if panic.Some? { RunToDone(m, ws, zero, 20); return; }
      panic := SetFrom(Total(TotalEnergy), data.TWh, parse, m, ws, 20);
      if panic.Some? { RunToDone(m, ws, zero, 21); return; }
      panic := SetFrom(Total(Temperature), data.T, parse, m, ws, 21);
      RunToDone(m, ws, zero, 22);
    }
  }
}
