/** The reading of the download API's answer in `download_instagram_media`
    (bot.py:204-231). The HTTP request itself is not modelled: its outcome is an input,
    either a decoded JSON body or a failure (a request exception, an error status or a
    body that is not JSON). */
module MediaApi {
  import opened Common
  import opened Json

  /** `HttpOk`: the request, `raise_for_status()` (which raises only for a final
      status from 400 to 599) and `.json()` all returned; `HttpFailed`: one raised. */
  datatype ApiResponse = HttpOk(body: Json) | HttpFailed

  /** The pair `(media_url, media_type)` the function returns; Python's `None` is
      `JNull`. */
  datatype MediaPair = MediaPair(url: Json, kind: Json)

  const NoMedia: MediaPair := MediaPair(JNull, JNull)
  const UnknownKind: Json := JStr("unknown")

  /** The first element of a non-empty list body, when it is an object with a truthy
      `url`: the element the function reads its answer from. Any other body (an empty
      list, a dict, a first element without `url`, or one that has no `.get` and so
      raises) gives nothing. */
  function FirstMedia(body: Json): (r: Option<map<string, Json>>)
    ensures r.Some? <==>
      && body.JArr? && |body.items| > 0
      && body.items[0].JObj? && "url" in body.items[0].fields
      && PyTruthy(body.items[0].fields["url"])
    ensures r.Some? ==> r.value == body.items[0].fields
  {
    if body.JArr? && |body.items| > 0 && body.items[0].JObj? then
      match Field(body.items[0], "url")
      case Some(u) => if PyTruthy(u) then Some(body.items[0].fields) else None
      case None => None
    else None
  }

  /** `download_instagram_media`'s answer: the first element's `url`, and its `type`
      or `"unknown"` when it has none (a `type` that is present but null stays null). */
  function ParseMedia(response: ApiResponse): (r: MediaPair)
    ensures PyTruthy(r.url) <==> response.HttpOk? && FirstMedia(response.body).Some?
    ensures !PyTruthy(r.url) ==> r == NoMedia
    ensures PyTruthy(r.url) ==>
      var fields := FirstMedia(response.body).value;
      && r.url == fields["url"]
      && r.kind == (if "type" in fields then fields["type"] else UnknownKind)
  {
    match response
    case HttpFailed => NoMedia
    case HttpOk(body) =>
      match FirstMedia(body)
      case None => NoMedia
      case Some(fields) =>
        MediaPair(fields["url"], if "type" in fields then fields["type"] else UnknownKind)
  }

  /** Only the first element of the list is ever read: whatever follows it changes
      nothing. */
  lemma OnlyFirstElementCounts(first: Json, rest: seq<Json>)
    ensures ParseMedia(HttpOk(JArr([first] + rest))) == ParseMedia(HttpOk(JArr([first])))
  {
    assert ([first] + rest)[0] == first;
  }

  /** A one-element answer naming a media URL and its type is read back as that pair,
      and without a type the kind is `"unknown"`. */
  lemma ReadsBackUrlAndType(url: string, kind: Json)
    requires url != ""
    ensures ParseMedia(HttpOk(JArr([JObj(map["url" := JStr(url), "type" := kind])]))) == MediaPair(JStr(url), kind)
    ensures ParseMedia(HttpOk(JArr([JObj(map["url" := JStr(url)])]))) == MediaPair(JStr(url), UnknownKind)
  {
    var withType := map["url" := JStr(url), "type" := kind];
    assert "url" in withType && "type" in withType;
    var withoutType := map["url" := JStr(url)];
    assert "type" !in withoutType;
  }

  /** An empty URL, a dict body or an empty list yields no media. */
  lemma FalsyUrlIsNoMedia(fields: map<string, Json>, rest: seq<Json>)
    requires "url" in fields && !PyTruthy(fields["url"])
    ensures ParseMedia(HttpOk(JArr([JObj(fields)] + rest))) == NoMedia
    ensures ParseMedia(HttpOk(JObj(fields))) == NoMedia
    ensures ParseMedia(HttpOk(JArr([]))) == NoMedia
  {
    assert ([JObj(fields)] + rest)[0] == JObj(fields);
  }
}
