/** The string split `fileToBase64` applies to the data URL the browser's
    FileReader produces (section 3 of RFC 2397: `data:<mime>;base64,<data>`).
    Both client services contain the same two lines. */
module DataUrl {
  import opened Wrappers
  import opened JsStrings

  /** What `fileToBase64` resolves with; either field is `undefined` (`None`)
      when the separators it looks for are missing. */
  datatype ImagePayload = ImagePayload(mimeType: Option<string>, data: Option<string>)

  /** `{ mimeType: url.split(';')[0].split(':')[1], data: url.split(',')[1] }`. */
  function SplitDataUrl(url: string): ImagePayload
  {
    var head := Split(url, ';')[0];
    ImagePayload(SplitField(head, ':', 1), SplitField(url, ',', 1))
  }

  /** A well-formed base64 data URL splits into its media type and its payload.
      The media type must not contain `,` either: the data field is taken after
      the first comma of the whole URL. */
  lemma SplitDataUrlRoundTrip(m: string, d: string)
    requires ';' !in m && ':' !in m && ',' !in m
    requires ',' !in d
    ensures SplitDataUrl("data:" + m + ";base64," + d) == ImagePayload(Some(m), Some(d))
  {
    var url := "data:" + m + ";base64," + d;
    assert url == ("data:" + m) + [';'] + ("base64," + d);
    SplitFirst("data:" + m, ';', "base64," + d);
    assert "data:" + m == "data" + [':'] + m;
    SplitFirst("data", ':', m);
    SplitWithout(m, ':');
    assert url == ("data:" + m + ";base64") + [','] + d;
    SplitFirst("data:" + m + ";base64", ',', d);
    SplitWithout(d, ',');
  }

  /** Without a comma the data field is `undefined`. */
  lemma SplitDataUrlNoComma(url: string)
    requires ',' !in url
    ensures SplitDataUrl(url).data == None
  {
    SplitWithout(url, ',');
  }
}
