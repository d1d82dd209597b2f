/**
  The device payload as the Go revision decodes it (model.go): the record `T`,
  its `Data` block of readings, one reading `V`, the conversion of a reading to
  a number, and the device-API status values.

  Floating-point numbers are left abstract: `F` stands for float64 and the
  decimal parser `strconv.ParseFloat(_, 64)` is a partial function passed in as
  `parse`.
*/
module Model {
  import opened Wrappers
  import opened Strings

  /** One reading: `{"name": …, "unit": …, "value": …}`. */
  datatype V = V(Name: string, Unit: string, Value: string)

  /**
    The `data` block; each field is decoded from the JSON key of the same name.
    A key missing from the JSON leaves its field at Go's zero value, a `V`
    whose `Value` is the empty string. The four `br0`..`br3` name fields are
    never read and are not modelled.
  */
  datatype Data = Data(
    A: V, W: V, TWh: V,
    V1: V, V2: V, V3: V,
    A1: V, A2: V, A3: V,
    W1: V, W2: V, W3: V,
    Wh1: V, Wh2: V, Wh3: V,
    PF1: V, PF2: V, PF3: V,
    Fr1: V, Fr2: V, Fr3: V,
    T: V)

  /** The whole response document; only `Data` is ever read. */
  datatype T = T(Devid: string, Time: string, Pout: string, Powset: string, Data: Data)

  /** `strings.ReplaceAll(value, " ", "")`: the reading with every space removed. */
  function StripSpaces(s: string): string {
    RemoveAll(s, " ")
  }

  /**
    Stripping spaces is filtering them out: none is left, and every other
    character keeps its count.
  */
  lemma StripSpacesSpec(s: string)
    ensures StripSpaces(s) == Without(s, ' ')
    ensures ' ' !in StripSpaces(s)
    ensures multiset(StripSpaces(s)) == multiset(s)[' ' := 0]
  {
    RemoveCharIsWithout(s, ' ');
    WithoutCounts(s, ' ');
    assert multiset(Without(s, ' '))[' '] == 0;
  }

  /** Stripping spaces twice is stripping them once. */
  lemma StripSpacesIdempotent(s: string)
    ensures StripSpaces(StripSpaces(s)) == StripSpaces(s)
  {
    StripSpacesSpec(s);
    StripSpacesSpec(StripSpaces(s));
    WithoutIdempotent(s, ' ');
  }

  /** The panic message of `MustGetFloat64Value`; it quotes the raw value, spaces included. */
  function NotFloatMessage(value: string): string {
    "value " + value + " is not float64"
  }

  /**
    `V.MustGetFloat64Value`: strip the spaces, then parse. A parse error is a
    panic carrying `NotFloatMessage` of the raw value; no number is returned.
  */
  function MustGetFloat64Value<F>(v: V, parse: string -> Option<F>): Result<F, string> {
    match parse(StripSpaces(v.Value))
    case None => Failure(NotFloatMessage(v.Value))
    case Some(f) => Success(f)
  }

  /**
    A reading converts exactly when the parser accepts it with its spaces
    filtered out, to what the parser returns; otherwise the panic quotes the
    raw value.
  */
  lemma MustGetSpec<F>(v: V, parse: string -> Option<F>)
    ensures MustGetFloat64Value(v, parse).Success? <==> parse(Without(v.Value, ' ')).Some?
    ensures MustGetFloat64Value(v, parse).Success? ==>
              MustGetFloat64Value(v, parse).value == parse(Without(v.Value, ' ')).value
    ensures MustGetFloat64Value(v, parse).Failure? ==>
              MustGetFloat64Value(v, parse).error == NotFloatMessage(v.Value)
  {
    StripSpacesSpec(v.Value);
  }

  /** Spaces inside a reading never change what it converts to. */
  lemma MustGetIgnoresSpaces<F>(a: V, b: V, parse: string -> Option<F>)
    requires Without(a.Value, ' ') == Without(b.Value, ' ')
    ensures MustGetFloat64Value(a, parse).Success? == MustGetFloat64Value(b, parse).Success?
    ensures MustGetFloat64Value(a, parse).Success? ==>
              MustGetFloat64Value(a, parse).value == MustGetFloat64Value(b, parse).value
  {
    MustGetSpec(a, parse);
    MustGetSpec(b, parse);
  }

  /** `DeviceAPIStatus`: the value the status gauge reports for the last fetch. */
  datatype DeviceAPIStatus = Offline | OK | TooManyRequests
  {
    function Value(): int {
      match this
      case Offline => 0
      case OK => 1
      case TooManyRequests => 2
    }
  }

  /** The three status values are 0, 1 and 2 and tell the outcomes apart. */
  lemma StatusValues(s: DeviceAPIStatus, t: DeviceAPIStatus)
    ensures 0 <= s.Value() <= 2
    ensures s.Value() == t.Value() ==> s == t
  {
  }
}
