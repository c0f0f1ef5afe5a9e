/** The data-URL split inside `fileToBase64`: a `FileReader` hands back
    `data:<mime>;base64,<payload>`, which is cut into the media type and the
    payload with three JavaScript `split` calls. The read itself is browser
    I/O and arrives here as a `FileRead` value. */
module Encoder {
  import opened Wrappers
  import opened Text

  /** Outcome of the string handling in the reader's `onload` callback.
      `data` is `None` when the URL holds no comma: destructuring a
      one-element array leaves the second name `undefined`. `Throws` is
      the `TypeError` raised when the header holds no colon. */
  datatype Parse = Resolved(mimeType: string, data: Option<string>) | Throws

  /** What `readAsDataURL` delivered: an error event, or the data URL. */
  datatype FileRead = ReadFailed | ReadDataUrl(url: string)

  /** The settled promise of `fileToBase64`. A throw inside `onload` neither
      resolves nor rejects the promise, so it stays pending forever. */
  datatype Encoding = EncodeRejected | EncodeStalled | Encoded(mimeType: string, data: Option<string>)

  /** The data URL a `FileReader` produces for a base64 payload. */
  function FormatDataUrl(mime: string, payload: string): string
  {
    "data:" + mime + ";base64," + payload
  }

  /** A media type and payload that survive the three splits unchanged. */
  predicate Splittable(mime: string, payload: string)
  {
    ':' !in mime && ';' !in mime && ',' !in mime && ',' !in payload
  }

  /** The three splits of the `onload` callback. They throw exactly when the
      header, the text before the first comma, holds no colon. */
  function ParseDataUrl(url: string): (r: Parse)
    ensures r.Throws? <==> ':' !in Split(url, ',')[0]
    ensures r.Resolved? ==> ':' !in r.mimeType && ';' !in r.mimeType && ',' !in r.mimeType
    ensures r.Resolved? ==> (r.data.Some? <==> ',' in url)
    ensures r.Resolved? && r.data.Some? ==> ',' !in r.data.value
  {
    var pieces := Split(url, ',');
    var meta := pieces[0];
    var base64 := if |pieces| >= 2 then Some(pieces[1]) else None;
    var metaPieces := Split(meta, ':');
    if |metaPieces| < 2 then Throws
    else
      var mimeType := Split(metaPieces[1], ';')[0];
      assert ',' !in mimeType by {
        assert forall c :: c in mimeType ==> c in metaPieces[1];
        assert forall c :: c in metaPieces[1] ==> c in meta by {
          assert Join(metaPieces, ':') == metaPieces[0] + [':'] + Join(metaPieces[1..], ':');
          assert metaPieces[1..][0] == metaPieces[1];
          JoinHeadContained(metaPieces[1..], ':');
        }
      }
      Resolved(mimeType, base64)
  }

  /** Every character of the first piece occurs in the joined string. */
  lemma {:induction false} JoinHeadContained(pieces: seq<string>, sep: char)
    requires |pieces| >= 1
    ensures forall c :: c in pieces[0] ==> c in Join(pieces, sep)
  {
  }

  /** `fileToBase64`: a read error rejects, a header without a colon stalls,
      anything else resolves with the split-out media type and payload. */
  function FileToBase64(read: FileRead): (e: Encoding)
    ensures read.ReadFailed? <==> e.EncodeRejected?
    ensures e.Encoded? ==> ParseDataUrl(read.url) == Resolved(e.mimeType, e.data)
    ensures read.ReadDataUrl? && ParseDataUrl(read.url).Throws? ==> e.EncodeStalled?
    ensures read.ReadDataUrl? && ParseDataUrl(read.url).Resolved? ==>
      e == Encoded(ParseDataUrl(read.url).mimeType, ParseDataUrl(read.url).data)
  {
    match read
    case ReadFailed => EncodeRejected
    case ReadDataUrl(url) =>
      match ParseDataUrl(url)
      case Throws => EncodeStalled
      case Resolved(m, d) => Encoded(m, d)
  }

  /** Splitting two separator-free pieces joined by the separator. */
  lemma SplitPair(a: string, sep: char, b: string)
    requires sep !in a && sep !in b
    ensures Split(a + [sep] + b, sep) == [a, b]
  {
    SplitAtFirstSep(a, sep, b);
    SplitWithoutSep(b, sep);
  }

  /** A URL whose first two comma-pieces are a well-formed header and a
      payload parses to that header's media type and that payload. */
  lemma ParseWellFormedHeader(url: string, mime: string, payload: string)
    requires ':' !in mime && ';' !in mime && ',' !in mime
    requires |Split(url, ',')| >= 2
    requires Split(url, ',')[0] == "data" + [':'] + (mime + [';'] + "base64")
    requires Split(url, ',')[1] == payload
    ensures ParseDataUrl(url) == Resolved(mime, Some(payload))
  {
    var tail := mime + [';'] + "base64";
    assert ':' !in tail;
    SplitPair("data", ':', tail);
    SplitPair(mime, ';', "base64");
  }

  /** Round trip: the split recovers exactly the media type and payload the
      reader put into the URL, as long as neither contains a separator. */
  lemma ParseFormatRoundTrip(mime: string, payload: string)
    requires Splittable(mime, payload)
    ensures ParseDataUrl(FormatDataUrl(mime, payload)) == Resolved(mime, Some(payload))
  {
    var meta := "data" + [':'] + (mime + [';'] + "base64");
    assert FormatDataUrl(mime, payload) == meta + [','] + payload;
    SplitPair(meta, ',', payload);
    ParseWellFormedHeader(FormatDataUrl(mime, payload), mime, payload);
  }

  /** A comma inside the payload is not tolerated: only the text before the
      first comma comes back, so the precondition of the round trip is
      needed. */
  lemma PayloadCommaTruncates(mime: string, payload: string, rest: string)
    requires Splittable(mime, payload)
    ensures ParseDataUrl(FormatDataUrl(mime, payload + [','] + rest)) == Resolved(mime, Some(payload))
  {
    var meta := "data" + [':'] + (mime + [';'] + "base64");
    var url := FormatDataUrl(mime, payload + [','] + rest);
    assert url == meta + [','] + (payload + [','] + rest);
    SplitAtFirstSep(meta, ',', payload + [','] + rest);
    SplitAtFirstSep(payload, ',', rest);
    ParseWellFormedHeader(url, mime, payload);
  }

  /** A header without a colon makes the callback throw, and the promise
      never settles, even when a colon appears after the first comma. */
  lemma HeaderWithoutColonStalls(url: string)
    requires ':' !in Split(url, ',')[0]
    ensures FileToBase64(ReadDataUrl(url)).EncodeStalled?
  {
  }
}
