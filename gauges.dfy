/**
  The fixed gauge set both revisions export: six per-line gauges for lines
  "1", "2", "3", four device-wide scalars, and the naming of the device fields
  that feed them.
*/
module Gauges {
  import opened Wrappers
  import opened Strings

  datatype Metric = Voltage | Current | Power | Energy | PowerFactor | Frequency

  datatype Line = L1 | L2 | L3

  datatype Scalar = TotalCurrent | TotalPower | TotalEnergy | Temperature

  /** One measurement gauge: a labelled child of a per-line gauge, or a scalar. */
  datatype Gauge = PerLine(metric: Metric, line: Line) | Total(scalar: Scalar)

  /**
    The values of the measurement gauges: the label-keyed children of the
    per-line gauges that have been set so far, and the four scalar gauges.
  */
  datatype Snapshot<F> = Snapshot(
    lines: map<(Metric, Line), F>, totalCurrent: F, totalPower: F, totalEnergy: F, temperature: F)
  {
    /** The value gauge `g` exports, if it has one yet. */
    function Get(g: Gauge): Option<F> {
      match g
      case PerLine(m, l) => if (m, l) in lines then Some(lines[(m, l)]) else None
      case Total(TotalCurrent) => Some(totalCurrent)
      case Total(TotalPower) => Some(totalPower)
      case Total(TotalEnergy) => Some(totalEnergy)
      case Total(Temperature) => Some(temperature)
    }

    /** Gauge `g` set to `v`; every other gauge keeps its value. */
    function Set(g: Gauge, v: F): (r: Snapshot<F>)
      ensures r.Get(g) == Some(v)
      ensures forall h :: h != g ==> r.Get(h) == Get(h)
    {
      match g
      case PerLine(m, l) => this.(lines := lines[(m, l) := v])
      case Total(TotalCurrent) => this.(totalCurrent := v)
      case Total(TotalPower) => this.(totalPower := v)
      case Total(TotalEnergy) => this.(totalEnergy := v)
      case Total(Temperature) => this.(temperature := v)
    }

    /**
      Gauge `g`'s series made to exist, as `WithLabelValues` and `labels()` do
      before anything is set: a per-line child without a value is created at
      `zero`; a value already there is kept, and so is every other gauge.
    */
    function Touch(g: Gauge, zero: F): (r: Snapshot<F>)
      ensures r.Get(g) == if Get(g).None? then Some(zero) else Get(g)
      ensures forall h :: h != g ==> r.Get(h) == Get(h)
    {
      match g
      case PerLine(m, l) => if (m, l) in lines then this else this.(lines := lines[(m, l) := zero])
      case Total(_) => this
    }
  }

  /** A registered metric family: a per-line gauge vector or a scalar gauge. */
  datatype Family = Vec(metric: Metric) | Plain(scalar: Scalar)

  const Prefix: string := "smart_maic_"

  const Lines: seq<Line> := [L1, L2, L3]

  /** The label value of a line, as in `WithLabelValues("1")` and `labels(phase="1")`. */
  function Label(l: Line): string {
    match l
    case L1 => "1"
    case L2 => "2"
    case L3 => "3"
  }

  /** The device's field-code stem for a per-line quantity. */
  function Code(m: Metric): string {
    match m
    case Voltage => "V"
    case Current => "A"
    case Power => "W"
    case Energy => "Wh"
    case PowerFactor => "PF"
    case Frequency => "Fr"
  }

  /** The device field code that feeds gauge `g`: stem and line label, or a scalar's own code. */
  function Tag(g: Gauge): string {
    match g
    case PerLine(m, l) => Code(m) + Label(l)
    case Total(TotalCurrent) => "A"
    case Total(TotalPower) => "W"
    case Total(TotalEnergy) => "TWh"
    case Total(Temperature) => "T"
  }

  function LineOfLabel(s: string): Option<Line> {
    if s == "1" then Some(L1) else if s == "2" then Some(L2) else if s == "3" then Some(L3) else None
  }

  function MetricOfCode(s: string): Option<Metric> {
    if s == "V" then Some(Voltage)
    else if s == "A" then Some(Current)
    else if s == "W" then Some(Power)
    else if s == "Wh" then Some(Energy)
    else if s == "PF" then Some(PowerFactor)
    else if s == "Fr" then Some(Frequency)
    else None
  }

  /** Reads a field code back: the gauge it feeds, if any. */
  function GaugeOfTag(t: string): Option<Gauge> {
    if t == "A" then Some(Total(TotalCurrent))
    else if t == "W" then Some(Total(TotalPower))
    else if t == "TWh" then Some(Total(TotalEnergy))
    else if t == "T" then Some(Total(Temperature))
    else if |t| < 2 then None
    else
      match (MetricOfCode(t[..|t| - 1]), LineOfLabel(t[|t| - 1..]))
      case (Some(m), Some(l)) => Some(PerLine(m, l))
      case _ => None
  }

  /** Field codes read back to the gauge they name, so no two gauges share a field. */
  lemma TagRoundTrip(g: Gauge)
    ensures GaugeOfTag(Tag(g)) == Some(g)
  {
    match g
    case PerLine(m, l) =>
      var t := Tag(g);
      assert t[..|t| - 1] == Code(m);
      assert t[|t| - 1..] == Label(l);
    case Total(_) =>
  }

  lemma TagInjective(g: Gauge, h: Gauge)
    ensures Tag(g) == Tag(h) ==> g == h
  {
    TagRoundTrip(g);
    TagRoundTrip(h);
  }

  /** The metric name of a family, `smart_maic_` and the family's own suffix. */
  function FamilyName(f: Family): string {
    Prefix +
      match f
      case Vec(Voltage) => "voltage"
      case Vec(Current) => "current"
      case Vec(Power) => "power"
      case Vec(Energy) => "energy"
      case Vec(PowerFactor) => "power_factor"
      case Vec(Frequency) => "frequency"
      case Plain(TotalCurrent) => "total_current"
      case Plain(TotalPower) => "total_power"
      case Plain(TotalEnergy) => "total_energy"
      case Plain(Temperature) => "temperature"
  }

  /** Every family name carries the prefix and names exactly one family. */
  lemma FamilyNames(f: Family, h: Family)
    ensures StartsWith(FamilyName(f), Prefix)
    ensures FamilyName(f) == FamilyName(h) ==> f == h
  {
  }
}
