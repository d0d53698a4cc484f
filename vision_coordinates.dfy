/** The vision experiment script (test_vision_coordinates.py): ask a vision
    model for label positions on a chart, clean its reply up before decoding
    it, and choose a marker, a label and a colour for every returned point.
    The HTTP call and json.loads are parameters; drawing is left out. */
module VisionCoordinates {
  import opened Wrappers
  import opened Text
  import opened JsonValues

  const Fence := "```"

  const Url := "https://openrouter.ai/api/v1/chat/completions"

  const PromptHead :=
    "Проанализируй это изображение с несколькими графиками.\n"
    + "Размер изображения: "

  const PromptTail :=
    " пикселей.\n\n"
    + "Найди 3-5 интересных мест на графиках где можно разместить текстовые подписи:\n"
    + "- Места с резкими движениями цены\n"
    + "- Горизонтальные уровни (линии)\n"
    + "- Области выделенные цветом (прямоугольники, зоны)\n"
    + "- Стрелки или маркеры если есть\n\n"
    + "Для каждого места укажи координаты (x, y) в пикселях от левого верхнего угла.\n"
    + "Подпись должна быть рядом с элементом, но не перекрывать его.\n\n"
    + "Ответь ТОЛЬКО валидным JSON без markdown:\n"
    + "{\n  \"key_points\": [\n    {\n      \"x\": число,\n      \"y\": число, \n"
    + "      \"element\": \"описание элемента\",\n      \"suggested_label\": \"короткая подпись\"\n    }\n  ]\n}"

  /** The instruction sent with the picture; it names the picture's size. */
  function Prompt(width: nat, height: nat): string
  {
    PromptHead + NatToString(width) + "x" + NatToString(height) + PromptTail
  }

  datatype VisionRequest = VisionRequest(
    url: string,
    authorization: string,
    model: string,
    prompt: string,
    imageUrl: string,
    temperature: int,
    maxTokens: nat,
    timeout: nat)

  /** The model the request names: the caller's choice, unless it is absent
      or empty, in which case the configured one. */
  function UseModel(model: Option<string>, configured: string): (r: string)
    ensures model.Some? && model.value != "" ==> r == model.value
    ensures model.None? || model.value == "" ==> r == configured
  {
    if model.Some? && model.value != "" then model.value else configured
  }

  /** What ask_for_coordinates starts from: the key from the configuration,
      the model argument, the configured model, and the picture's size and
      base64 encoding (reading the file is left out). */
  datatype Query = Query(
    apiKey: string,
    model: Option<string>,
    configured: string,
    width: nat,
    height: nat,
    imageBase64: string)

  /** The request sent for a query: the bearer key, the chosen model, the
      prompt naming the picture's size, and the picture as a JPEG data URL,
      at temperature 0 with at most 500 tokens and a 60 second timeout. */
  function RequestFor(q: Query): (r: VisionRequest)
    ensures r.url == Url && r.authorization == "Bearer " + q.apiKey
    ensures r.model == UseModel(q.model, q.configured) && r.prompt == Prompt(q.width, q.height)
    ensures StartsWith(r.imageUrl, "data:image/jpeg;base64,") && r.imageUrl[23..] == q.imageBase64
    ensures r.temperature == 0 && r.maxTokens == 500 && r.timeout == 60
  {
    VisionRequest(Url, "Bearer " + q.apiKey, UseModel(q.model, q.configured), Prompt(q.width, q.height),
                  "data:image/jpeg;base64," + q.imageBase64, 0, 500, 60)
  }

  /** What requests.post gives back: a transport failure (a timeout or a
      connection error, which the script does not catch), or the status code
      and the first choice's message content when the body has one and it is
      a string (None: the lookup, or stripping a content that is not a
      string, raises). */
  datatype VisionReply = RequestFailed | Response(status: int, content: Option<string>)

  /** A returned dictionary, or an exception the function does not catch. */
  datatype Answer = Returned(data: JsonObject) | Raised

  /** The fence handling applied to the stripped reply: a reply opening with
      a fence loses its first line and everything from its last fence on.
      None is the IndexError of a fenced reply without a line break. */
  function Unfence(clean: string): (r: Option<string>)
    ensures r.None? <==> StartsWith(clean, Fence) && '\n' !in clean
    ensures !StartsWith(clean, Fence) ==> r == Some(clean)
    ensures r.Some? ==> |r.value| <= |clean|
  {
    if !StartsWith(clean, Fence) then Some(clean)
    else match FindChar(clean, '\n')
      case None => None
      case Some(n) =>
        var rest := clean[n + 1..];
        match FindLast(rest, Fence)
        case None => Some(rest)
        case Some(k) => Some(rest[..k])
  }

  /** The text that is decoded: the reply stripped, then unfenced. */
  function CleanReply(answer: string): (r: Option<string>)
    ensures r.None? <==> StartsWith(Strip(answer), Fence) && '\n' !in Strip(answer)
    ensures r.Some? ==> |r.value| <= |answer|
  {
    StripSpec(answer);
    Unfence(Strip(answer))
  }

  /** ask_for_coordinates: the request fails outright or {} for a non-200
      status, the decoded text when it decodes, and otherwise
      {"raw": answer} with the reply as it came. */
  function AskForCoordinates(q: Query, post: VisionRequest -> VisionReply, loads: Decoder): (r: Answer)
    ensures post(RequestFor(q)).Response? && post(RequestFor(q)).status != 200 ==> r == Returned(map[])
    ensures r == Raised <==>
      var reply := post(RequestFor(q));
      || reply.RequestFailed?
      || (reply.status == 200 && (reply.content.None? || CleanReply(reply.content.value).None?))
    ensures r.Returned? && post(RequestFor(q)).status == 200 ==>
      var answer := post(RequestFor(q)).content.value;
      CleanReply(answer).Some? &&
      (r.data == loads(CleanReply(answer).value).GetOr(map["raw" := JString(answer)]))
  {
    var reply := post(RequestFor(q));
    if reply.RequestFailed? then Raised
    else if reply.status != 200 then Returned(map[])
    else match reply.content
      case None => Raised
      case Some(answer) =>
        match CleanReply(answer)
        case None => Raised
        case Some(clean) =>
          match loads(clean)
          case Some(obj) => Returned(obj)
          case None => Returned(map["raw" := JString(answer)])
  }

  /** A reply that does not open with a fence is decoded as stripped. */
  lemma UnfencedReply(answer: string)
    requires !StartsWith(Strip(answer), Fence)
    ensures CleanReply(answer) == Some(Strip(answer))
  {
  }

  /** A first line without a line break: fence plus language tag. */
  predicate FenceLine(tag: string) {
    '\n' !in tag
  }

  lemma FirstLineEnds(tag: string, rest: string)
    requires FenceLine(tag)
    ensures FindChar(Fence + tag + "\n" + rest, '\n') == Some(|Fence| + |tag|)
  {
    var s := Fence + tag + "\n" + rest;
    var k := |Fence| + |tag|;
    assert s[k] == '\n';
    assert s[..k] == Fence + tag;
    forall m | k < m <= |s|
      ensures '\n' in s[..m]
    {
      assert s[..m][k] == '\n';
    }
  }

  /** Round trip of a fenced block: wrapping a body in a fence line with any
      language tag and a closing fence gives the body back, whatever the body
      holds, provided nothing after the closing fence is a backtick. */
  lemma {:induction false} FencedBlock(tag: string, body: string, after: string)
    requires FenceLine(tag) && '`' !in after
    ensures Unfence(Fence + tag + "\n" + body + Fence + after) == Some(body)
  {
    var clean := Fence + tag + "\n" + body + Fence + after;
    var rest := body + Fence + after;
    assert clean == Fence + tag + "\n" + rest;
    assert clean[..|Fence|] == Fence;
    FirstLineEnds(tag, rest);
    assert clean[|Fence| + |tag| + 1..] == rest;
    assert OccursAt(rest, Fence, |body|) by {
      assert rest[|body|..|body| + 3] == Fence;
    }
    forall j | |body| < j <= |rest|
      ensures !OccursAt(rest, Fence, j)
    {
      if j + 3 <= |rest| {
        assert rest[j..j + 3][2] == rest[j + 2] == after[j + 2 - |body| - 3];
      }
    }
    var k := FindLast(rest, Fence);
    assert k == Some(|body|);
    assert rest[..|body|] == body;
  }

  /** Without a closing fence everything after the first line is kept. */
  lemma UnclosedFence(tag: string, rest: string)
    requires FenceLine(tag)
    requires forall j :: 0 <= j <= |rest| ==> !OccursAt(rest, Fence, j)
    ensures Unfence(Fence + tag + "\n" + rest) == Some(rest)
  {
    var clean := Fence + tag + "\n" + rest;
    assert clean[..|Fence|] == Fence;
    FirstLineEnds(tag, rest);
    assert clean[|Fence| + |tag| + 1..] == rest;
  }

  /** A fenced reply on one line raises instead of being decoded. */
  lemma FenceWithoutNewline(answer: string, q: Query,
                            post: VisionRequest -> VisionReply, loads: Decoder)
    requires StartsWith(Strip(answer), Fence) && '\n' !in Strip(answer)
    requires post(RequestFor(q)) == Response(200, Some(answer))
    ensures CleanReply(answer).None?
    ensures AskForCoordinates(q, post, loads) == Raised
  {
  }

  /** Whitespace around the reply does not change what is decoded. */
  lemma PaddingIgnored(p: string, answer: string, q: string)
    requires AllSpace(p) && AllSpace(q)
    ensures CleanReply(p + answer + q) == CleanReply(answer)
  {
    StripPadded(p, answer, q);
  }

  /** A model that answers with its JSON inside a ```json block still yields
      the decoded object. */
  lemma FencedJsonDecoded(body: string, q: Query,
                          post: VisionRequest -> VisionReply, loads: Decoder)
    requires post(RequestFor(q)) == Response(200, Some(Fence + "json\n" + body + Fence))
    requires loads(body).Some?
    ensures AskForCoordinates(q, post, loads) == Returned(loads(body).value)
  {
    var answer := Fence + "json\n" + body + Fence;
    assert answer == Fence + "json" + "\n" + body + Fence + "";
    assert Trimmed(answer) by {
      assert answer[0] == '`' && answer[|answer| - 1] == '`';
    }
    StripTrimmed(answer);
    FencedBlock("json", body, "");
  }

  /** A reply that does not decode is kept whole, unstripped, under "raw". */
  lemma UndecodableKeptRaw(answer: string, q: Query,
                           post: VisionRequest -> VisionReply, loads: Decoder)
    requires post(RequestFor(q)) == Response(200, Some(answer))
    requires CleanReply(answer).Some? && loads(CleanReply(answer).value).None?
    ensures AskForCoordinates(q, post, loads) == Returned(map["raw" := JString(answer)])
  {
  }

  // ---- visualize_coordinates ----

  datatype Colour = Colour(r: nat, g: nat, b: nat)

  const Palette: seq<Colour> := [
    Colour(255, 50, 50), Colour(50, 255, 50), Colour(50, 150, 255),
    Colour(255, 255, 50), Colour(255, 50, 255)]

  /** The points to draw: key_points when it is truthy, otherwise free_zones
      when that is truthy, otherwise an empty list. */
  function Points(data: JsonObject): (r: Json)
    ensures "key_points" in data && Truthy(data["key_points"]) ==> r == data["key_points"]
    ensures ("key_points" !in data || !Truthy(data["key_points"])) ==>
      r == if "free_zones" in data && Truthy(data["free_zones"]) then data["free_zones"] else JArray([])
    ensures Truthy(r) <==> Truthy(Get(data, "key_points", JNull)) || Truthy(Get(data, "free_zones", JNull))
  {
    var keyPoints := Get(data, "key_points", JNull);
    if Truthy(keyPoints) then keyPoints
    else
      var freeZones := Get(data, "free_zones", JNull);
      if Truthy(freeZones) then freeZones else JArray([])
  }

  /** One point as drawn: its position, its label, the element it
      describes and the marker colour. */
  datatype Marker = Marker(x: Json, y: Json, text: Json, element: Json, colour: Colour)

  function FallbackLabel(i: nat): string
  {
    "Point " + NatToString(i + 1)
  }

  /** The marker for the i-th point (counted from 0). */
  function MarkerFor(i: nat, point: JsonObject): (m: Marker)
    ensures m.colour == Palette[i % 5]
    ensures Truthy(m.text)
    ensures m.x == if "x" in point then point["x"] else JNumber(0)
    ensures m.y == if "y" in point then point["y"] else JNumber(0)
  {
    var suggested := Get(point, "suggested_label", JNull);
    var suggestedText := Get(point, "suggested_text", JNull);
    var text :=
      if Truthy(suggested) then suggested
      else if Truthy(suggestedText) then suggestedText
      else JString(FallbackLabel(i));
    var element := Get(point, "element", JNull);
    var description := Get(point, "description", JNull);
    Marker(
      Get(point, "x", JNumber(0)),
      Get(point, "y", JNumber(0)),
      text,
      if Truthy(element) then element else if Truthy(description) then description else JString(""),
      Palette[i % |Palette|])
  }

  /** The outcome: nothing to draw, every marker drawn (and the picture
      saved), or an exception because the points are not a list of objects. */
  datatype Visualisation = NoPoints | Drawn(markers: seq<Marker>) | Crashed

  predicate AllObjects(items: seq<Json>) {
    forall k :: 0 <= k < |items| ==> items[k].JObject?
  }

  /** visualize_coordinates: the loop over the points. */
  method VisualizeCoordinates(data: JsonObject) returns (v: Visualisation)
    ensures !Truthy(Points(data)) ==> v == NoPoints
    ensures Truthy(Points(data)) && Points(data).JArray? && AllObjects(Points(data).items) ==>
      var items := Points(data).items;
      && v.Drawn?
      && |v.markers| == |items|
      && forall k :: 0 <= k < |items| ==> v.markers[k] == MarkerFor(k, items[k].fields)
    ensures Truthy(Points(data)) && !(Points(data).JArray? && AllObjects(Points(data).items)) ==> v == Crashed
  {
    var points := Points(data);
    if !Truthy(points) {
      return NoPoints;
    }
    if !points.JArray? {
      // a string, number or dictionary: iterating it does not give
      // dictionaries, so the first `.get` (or the iteration) raises
      return Crashed;
    }
    var items := points.items;
    var markers: seq<Marker> := [];
    var i := 0;
    while i < |items|
      invariant 0 <= i <= |items|
      invariant |markers| == i
      invariant AllObjects(items[..i])
      invariant forall k :: 0 <= k < i ==> markers[k] == MarkerFor(k, items[k].fields)
    {
      if !items[i].JObject? {
        return Crashed;
      }
      markers := markers + [MarkerFor(i, items[i].fields)];
      i := i + 1;
    }
    assert items[..i] == items;
    return Drawn(markers);
  }

  /** Every marker has a non-empty label: the fallbacks end in "Point n". */
  lemma LabelNeverEmpty(i: nat, point: JsonObject)
    ensures Truthy(MarkerFor(i, point).text)
    ensures !Truthy(Get(point, "suggested_label", JNull)) && !Truthy(Get(point, "suggested_text", JNull)) ==>
      MarkerFor(i, point).text == JString(FallbackLabel(i))
  {
  }

  /** The label prefers suggested_label, then suggested_text. */
  lemma LabelPreference(i: nat, point: JsonObject)
    ensures "suggested_label" in point && Truthy(point["suggested_label"]) ==>
      MarkerFor(i, point).text == point["suggested_label"]
    ensures
      (&& ("suggested_label" !in point || !Truthy(point["suggested_label"]))
       && "suggested_text" in point && Truthy(point["suggested_text"]))
      ==> MarkerFor(i, point).text == point["suggested_text"]
  {
  }

  /** Fallback labels of different points differ ("Point 1", "Point 2", ...). */
  lemma FallbackLabelsDistinct(i: nat, j: nat)
    requires i != j
    ensures FallbackLabel(i) != FallbackLabel(j)
  {
    NatToStringRoundTrip(i + 1);
    NatToStringRoundTrip(j + 1);
    assert NatToString(i + 1) == FallbackLabel(i)[6..];
    assert NatToString(j + 1) == FallbackLabel(j)[6..];
  }

  /** Colours repeat every five points and neighbouring points always get
      different colours. */
  lemma ColourCycle(i: nat, p: JsonObject, q: JsonObject)
    ensures MarkerFor(i + 5, p).colour == MarkerFor(i, q).colour
    ensures MarkerFor(i + 1, p).colour != MarkerFor(i, q).colour
  {
    assert (i + 5) % 5 == i % 5;
    assert (i + 1) % 5 == if i % 5 == 4 then 0 else i % 5 + 1;
  }

  /** Missing coordinates are drawn at 0 and a missing element is empty. */
  lemma Defaults(i: nat)
    ensures MarkerFor(i, map[]) == Marker(JNumber(0), JNumber(0), JString(FallbackLabel(i)), JString(""), Palette[i % 5])
  {
  }
}
