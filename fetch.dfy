/**
  The earlier, HTTP-polling revision of the Go exporter, kept commented out in
  main.go: the start-up check on the data source URL, and
  `fetchAndUpdateMetrics`, which turns the outcome of one GET into the device
  API status and, on success, into a `SetMetrics` call.
*/
module Fetch {
  import opened Wrappers
  import opened Strings
  import opened Model
  import opened Writes
  import opened Metrics

  /** A byte: a Go string is a sequence of bytes, and `len` and slicing count bytes. */
  newtype byte = b: int | 0 <= b < 0x100

  /** "http://" and "https://" in ASCII. */
  const HttpScheme: seq<byte> := [0x68, 0x74, 0x74, 0x70, 0x3A, 0x2F, 0x2F]
  const HttpsScheme: seq<byte> := [0x68, 0x74, 0x74, 0x70, 0x73, 0x3A, 0x2F, 0x2F]

  /** How the start-up URL check ends: the program goes on, exits with its message, or panics on a slice. */
  datatype URLCheck = Accepted | Rejected | SlicePanic

  /**
    The URL check as written, on the URL's UTF-8 bytes:
    `len(url) > 0 && (url[:7] == "http://" || url[:8] == "https://")`.
    A Go string slice past the end panics, so a URL of one to six bytes, or a
    seven-byte one other than "http://", panics before any message.
  */
  function CheckURL(url: seq<byte>): (r: URLCheck)
    ensures r == SlicePanic <==> 0 < |url| < 7 || (|url| == 7 && url != HttpScheme)
  {
    if |url| == 0 then Rejected
    else if |url| < 7 then SlicePanic
    else if url[..7] == HttpScheme then Accepted
    else if |url| < 8 then SlicePanic
    else if url[..8] == HttpsScheme then Accepted
    else Rejected
  }

  /** The check the message asks for: the URL starts with "http://" or with "https://". */
  predicate ValidURL(url: seq<byte>) {
    StartsWith(url, HttpScheme) || StartsWith(url, HttpsScheme)
  }

  /**
    Wherever the written check does not panic it agrees with `ValidURL`, and
    every URL on which it panics is one `ValidURL` rejects: `ValidURL` is the
    written check with each panic turned into the intended rejection.
  */
  lemma CheckURLIntended(url: seq<byte>)
    ensures CheckURL(url) == Accepted <==> ValidURL(url)
    ensures CheckURL(url) == SlicePanic ==> !ValidURL(url)
    ensures ValidURL(url) ==> |url| >= 7
  {
  }

  /** A short URL such as "ftp" does not get the rejection message: the slice panics first. */
  lemma CheckURLShortPanics()
    ensures CheckURL([0x66, 0x74, 0x70]) == SlicePanic && !ValidURL([0x66, 0x74, 0x70])
    ensures CheckURL(HttpsScheme[..7]) == SlicePanic && !ValidURL(HttpsScheme[..7])
  {
    assert HttpsScheme[..7][4] != HttpScheme[4];
  }

  /**
    Lengths are byte counts: "ftp://é" has seven characters but eight bytes
    (é is 0xC3 0xA9), so both slices are in range and the URL is rejected with
    the message.
  */
  lemma CheckURLCountsBytes()
    ensures CheckURL([0x66, 0x74, 0x70, 0x3A, 0x2F, 0x2F, 0xC3, 0xA9]) == Rejected
  {
    var url: seq<byte> := [0x66, 0x74, 0x70, 0x3A, 0x2F, 0x2F, 0xC3, 0xA9];
    assert url[..7][0] != HttpScheme[0];
    assert url[..8][0] != HttpsScheme[0];
  }

  /** What `http.Get` returns: a transport error, or a response with its status code and body. */
  datatype Response = TransportError | Response(statusCode: int, body: string)

  const StatusOK: int := 200
  const StatusTooManyRequests: int := 429

  /** Where `fetchAndUpdateMetrics` ends: with a status alone, or with a payload for `SetMetrics`. */
  datatype Step = Report(status: DeviceAPIStatus) | Update(payload: T)

  /** The chain of early returns in `fetchAndUpdateMetrics`, in source order. */
  function Decide(resp: Response, decode: string -> Option<T>): Step {
    if resp.TransportError? then Report(Offline)
    else if resp.statusCode == StatusTooManyRequests then Report(TooManyRequests)
    else if resp.statusCode != StatusOK then Report(Offline)
    else match decode(resp.body)
      case None => Report(Offline)
      case Some(v) => Update(v)
  }

  /** The device API status once `fetchAndUpdateMetrics` returns (`SetMetrics` sets OK). */
  function FinalStatus(resp: Response, decode: string -> Option<T>): DeviceAPIStatus {
    match Decide(resp, decode)
    case Report(s) => s
    case Update(_) => OK
  }

  /**
    Each status names its cause: OK exactly for a 200 whose body decodes,
    TooManyRequests exactly for a 429, Offline for a transport error, any other
    code, or a body that does not decode. In particular a 429 is never Offline.
  */
  lemma FinalStatusCauses(resp: Response, decode: string -> Option<T>)
    ensures FinalStatus(resp, decode) == OK <==>
              resp.Response? && resp.statusCode == 200 && decode(resp.body).Some?
    ensures FinalStatus(resp, decode) == TooManyRequests <==>
              resp.Response? && resp.statusCode == 429
    ensures FinalStatus(resp, decode) == Offline <==>
              resp.TransportError? ||
              (resp.statusCode != 200 && resp.statusCode != 429) ||
              (resp.statusCode == 200 && decode(resp.body).None?)
  {
  }

  /** Only a decoded 200 reaches `SetMetrics`, with the payload the body decodes to. */
  lemma DecideUpdates(resp: Response, decode: string -> Option<T>)
    ensures Decide(resp, decode).Update? <==> resp.Response? && resp.statusCode == 200 && decode(resp.body).Some?
    ensures Decide(resp, decode).Update? ==> Decide(resp, decode).payload == decode(resp.body).value
  {
  }

  /**
    `fetchAndUpdateMetrics` after the GET, given its outcome `resp`; JSON
    decoding of the body is `decode`. Every early return sets the status alone;
    a decoded payload goes to `SetMetrics`, whose panic is passed on.
  */
  method FetchAndUpdateMetrics<F>(registry: Registry<F>, resp: Response,
                                  decode: string -> Option<T>, parse: string -> Option<F>)
    returns (panic: Option<string>)
    modifies registry
    ensures registry.status == FinalStatus(resp, decode).Value()
    ensures Decide(resp, decode).Report? ==>
              panic == None && registry.gauges == old(registry.gauges)
    ensures Decide(resp, decode).Update? ==>
              Applied(registry.gauges, panic) ==
                Run(old(registry.gauges), GoWrites(Decide(resp, decode).payload.Data, parse), registry.zero)
  {
    panic := None;
    if resp.TransportError? {
      registry.SetDeviceAPIStatus(Offline);
      return;
    }
    if resp.statusCode == StatusTooManyRequests {
      registry.SetDeviceAPIStatus(TooManyRequests);
      return;
    }
    if resp.statusCode != StatusOK {
      registry.SetDeviceAPIStatus(Offline);
      return;
    }
    var responseData := decode(resp.body);
    if responseData.None? {
      registry.SetDeviceAPIStatus(Offline);
      return;
    }
    panic := registry.SetMetrics(responseData.value, parse);
  }
}
