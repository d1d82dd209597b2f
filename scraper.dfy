/**
  The browser-scraping revision (smart_maic_exporter.go): the device's data page
  is rendered in a browser, its body's HTML is peeled down to the JSON text by
  `extractJSON`, and a decoded payload goes to `SetMetrics`, after which the
  scrape duration gauge is set.
*/
module Scraper {
  import opened Wrappers
  import opened Strings
  import opened Model
  import opened Gauges
  import opened Writes
  import opened Metrics

  /** The opening the browser wraps around the JSON text. */
  const BodyPre: string := "<body><pre>"

  /** The closing the browser's JSON viewer leaves after the JSON text. */
  const PreDivBody: string :=
    "</pre>" + "<div class=\"json-formatter-container\">" + "</div>" + "</body>"

  /** `extractJSON`: every `BodyPre` removed, then every `PreDivBody`. */
  function ExtractJSON(html: string): (r: string)
    ensures |r| <= |html|
  {
    RemoveAll(RemoveAll(html, BodyPre), PreDivBody)
  }

  /** Where 'b' and '<' sit in the closing. */
  lemma PreDivBodyChars(i: int)
    requires 0 <= i < |PreDivBody|
    ensures PreDivBody[i] == 'b' ==> i == 52
    ensures PreDivBody[i] == '<' ==> i == 0 || i == 6 || i == 44 || i == 50
  {
  }

  /** The opening does not occur in the closing. */
  lemma OpeningNotInClosing()
    ensures !Contains(PreDivBody, BodyPre)
  {
    forall i | 0 <= i <= |PreDivBody|
      ensures !Occurs(PreDivBody, BodyPre, i)
    {
      if i + 1 < |PreDivBody| {
        PreDivBodyChars(i);
        PreDivBodyChars(i + 1);
        assert BodyPre[1] == 'b';
      }
    }
  }

  /** No occurrence of the opening can end inside the closing. */
  lemma OpeningNotAcross()
    ensures forall k :: 0 < k < |BodyPre| ==> !StartsWith(PreDivBody, BodyPre[k..])
  {
    forall k | 0 < k < |BodyPre|
      ensures !StartsWith(PreDivBody, BodyPre[k..])
    {
      assert BodyPre[k..][0] == BodyPre[k];
      if k == 6 {
        assert BodyPre[k..][1] == 'p';
      }
    }
  }

  /** No occurrence of the closing can end inside another closing. */
  lemma ClosingNotAcross()
    ensures forall k :: 0 < k < |PreDivBody| ==> !StartsWith(PreDivBody, PreDivBody[k..])
  {
    forall k | 0 < k < |PreDivBody|
      ensures !StartsWith(PreDivBody, PreDivBody[k..])
    {
      PreDivBodyChars(k);
      assert PreDivBody[k..][0] == PreDivBody[k];
      if k == 6 || k == 44 || k == 50 {
        assert PreDivBody[k..][1] == PreDivBody[k + 1];
        assert PreDivBody[k..][2] == PreDivBody[k + 2];
      }
    }
  }

  /** Text with neither wrapper piece in it passes through `extractJSON` unchanged. */
  lemma ExtractJSONAbsent(html: string)
    requires !Contains(html, BodyPre) && !Contains(html, PreDivBody)
    ensures ExtractJSON(html) == html
  {
    RemoveAllAbsent(html, BodyPre);
    RemoveAllAbsent(html, PreDivBody);
  }

  /** The first removal drops the opening and keeps the rest. */
  lemma DropOpening(s: string)
    requires !Contains(s, BodyPre)
    ensures RemoveAll(BodyPre + s + PreDivBody, BodyPre) == s + PreDivBody
  {
    assert BodyPre + s + PreDivBody == BodyPre + (s + PreDivBody);
    RemoveAllLeading(BodyPre, s + PreDivBody);
    OpeningNotAcross();
    RemoveAllBefore(s, PreDivBody, BodyPre);
    OpeningNotInClosing();
    RemoveAllAbsent(PreDivBody, BodyPre);
  }

  /** The second removal drops the closing. */
  lemma DropClosing(s: string)
    requires !Contains(s, PreDivBody)
    ensures RemoveAll(s + PreDivBody, PreDivBody) == s
  {
    ClosingNotAcross();
    RemoveAllBefore(s, PreDivBody, PreDivBody);
    assert PreDivBody == PreDivBody + [];
    RemoveAllLeading(PreDivBody, []);
    assert s + [] == s;
  }

  /** The page the browser shows for JSON text `s` is unwrapped back to `s`. */
  lemma ExtractJSONUnwraps(s: string)
    requires !Contains(s, BodyPre) && !Contains(s, PreDivBody)
    ensures ExtractJSON(BodyPre + s + PreDivBody) == s
  {
    DropOpening(s);
    DropClosing(s);
  }

  /** The page titles on which `scrapePage` types in the PIN and submits it. */
  predicate IsLoginTitle(title: string) {
    title == "Login" || title == "MAIC Login"
  }

  /** The duration gauge's name: registered next to the others, but without their prefix. */
  const ScrapeDurationName: string := "page_scrape_duration_seconds"

  /** Registering the duration gauge with the other eleven cannot clash with any of them. */
  lemma ScrapeDurationNameFree()
    ensures !StartsWith(ScrapeDurationName, Prefix)
    ensures forall i :: 0 <= i < |RegisteredNames()| ==> RegisteredNames()[i] != ScrapeDurationName
  {
    assert ScrapeDurationName[..|Prefix|][0] != Prefix[0];
    var names := RegisteredNames();
    forall i | 0 <= i < |names|
      ensures names[i] != ScrapeDurationName
    {
      assert names[i][..|Prefix|] == Prefix;
    }
  }

  /** The `page_scrape_duration_seconds` gauge. */
  class DurationGauge<F> {
    var seconds: F

    constructor (zero: F)
      ensures seconds == zero
    {
      seconds := zero;
    }
  }

  /**
    `scrapePage`, from the login check on. The browser's work is given: the
    first page's `title`, the data page's body `html`, and the `elapsed`
    seconds. JSON decoding is `decode`. `login` says whether the PIN was typed
    in. A payload that does not decode changes nothing at all; otherwise
    `SetMetrics` runs, and only if it does not panic is the duration set.
  */
  method ScrapePage<F>(registry: Registry<F>, duration: DurationGauge<F>, title: string, html: string,
                       decode: string -> Option<T>, parse: string -> Option<F>, elapsed: F)
    returns (login: bool, panic: Option<string>)
    modifies registry, duration
    ensures login <==> IsLoginTitle(title)
    ensures decode(ExtractJSON(html)).None? ==>
              panic == None && registry.status == old(registry.status) &&
              registry.gauges == old(registry.gauges) &&
              duration.seconds == old(duration.seconds)
    ensures decode(ExtractJSON(html)).Some? ==>
              registry.status == OK.Value() &&
              Applied(registry.gauges, panic) ==
                Run(old(registry.gauges), GoWrites(decode(ExtractJSON(html)).value.Data, parse), registry.zero) &&
              duration.seconds == (if panic == None then elapsed else old(duration.seconds))
  {
    login := IsLoginTitle(title);
    var decoded := decode(ExtractJSON(html));
    if decoded.None? {
      return login, None;
    }
    panic := registry.SetMetrics(decoded.value, parse);
    if panic.None? {
      duration.seconds := elapsed;
    }
  }
}
