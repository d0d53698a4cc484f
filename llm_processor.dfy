/** Extraction of a trade record from free text through a language model
    (services/llm_processor.py). The HTTP request and json.loads are external
    and are parameters; the fallback search and the field defaults are
    modelled exactly. */
module LlmProcessor {
  import opened Wrappers
  import opened JsonValues

  /** TradeInfo: the three fields are copied from the reply as they are. */
  datatype TradeInfo = TradeInfo(asset: Json, scenario: Json, date: Json, rawText: string)

  const AssetMissing := "Не указан"
  const ScenarioMissing := "Не указан"
  const DateMissing := "Не указана"

  const Url := "https://openrouter.ai/api/v1/chat/completions"

  const SystemPrompt :=
    "Ты помощник криптовалютного трейдера. Твоя задача — извлечь из текста информацию о сделке.\n\n"
    + "Извлеки:\n"
    + "1. Актив (тикер) — формат: BTC/USDT, ETH/USDT и т.д.\n"
    + "2. Сценарий — тип входа: ЛП, ЛПП, Пробой, Ретест, или другое\n"
    + "3. Дата — формат: DD.MM.YYYY\n\n"
    + "Если информация не указана явно, попробуй определить из контекста.\n"
    + "Если дата не указана, используй \"не указана\".\n\n"
    + "Ответь ТОЛЬКО валидным JSON без markdown:\n"
    + "{\"asset\": \"BTC/USDT\", \"scenario\": \"ЛП\", \"date\": \"03.10.2025\"}"

  const UserPrefix := "Извлеки данные из этого описания сделки:\n\n"

  predicate IsBrace(c: char) {
    c == '{' || c == '}'
  }

  /** s[i..j] is a match of the pattern \{[^{}]+\}. */
  predicate MatchAt(s: string, i: int, j: int) {
    && 0 <= i && i + 3 <= j <= |s|
    && s[i] == '{' && s[j - 1] == '}'
    && forall k :: i < k < j - 1 ==> !IsBrace(s[k])
  }

  /** The pattern needs one character between the braces: "{}" never matches. */
  lemma EmptyBracesNeverMatch(s: string, i: int)
    ensures !MatchAt(s, i, i + 2)
  {
  }

  /** From a given start a match can end in one place only: at the first
      brace after the opening one. */
  lemma MatchEndUnique(s: string, i: int, j: int, j': int)
    requires MatchAt(s, i, j) && MatchAt(s, i, j')
    ensures j == j'
  {
  }

  /** The first brace at or after position k. */
  function FirstBrace(s: string, k: nat): (r: Option<nat>)
    requires k <= |s|
    ensures r.Some? ==> k <= r.value < |s| && IsBrace(s[r.value])
                        && forall m :: k <= m < r.value ==> !IsBrace(s[m])
    ensures r.None? ==> forall m :: k <= m < |s| ==> !IsBrace(s[m])
    decreases |s| - k
  {
    if k == |s| then None
    else if IsBrace(s[k]) then Some(k)
    else FirstBrace(s, k + 1)
  }

  /** The leftmost match starting at or after `from`, as (start, end): the
      regular-expression search for a braced run without inner braces. */
  function Search(s: string, from: nat): (r: Option<(nat, nat)>)
    requires from <= |s|
    ensures r.Some? ==> from <= r.value.0 && MatchAt(s, r.value.0, r.value.1)
    ensures r.Some? ==> forall i, j :: from <= i < r.value.0 ==> !MatchAt(s, i, j)
    ensures r.None? ==> forall i, j :: from <= i ==> !MatchAt(s, i, j)
    decreases |s| - from
  {
    if from == |s| then None
    else
      var close := if s[from] == '{' then FirstBrace(s, from + 1) else None;
      if close.Some? && s[close.value] == '}' && close.value > from + 1 then
        Some((from, close.value + 1))
      else
        var r := Search(s, from + 1);
        assert forall j :: !MatchAt(s, from, j) by {
          forall j | MatchAt(s, from, j) ensures false {
            assert s[from] == '{';
            assert IsBrace(s[j - 1]);
          }
        }
        r
  }

  /** _parse_json_response: the whole reply if it decodes, otherwise the first
      brace-delimited substring if that decodes, otherwise None. */
  function ParseJsonResponse(text: string, loads: Decoder): (r: Option<JsonObject>)
    ensures loads(text).Some? ==> r == loads(text)
    ensures loads(text).None? && (forall i, j :: !MatchAt(text, i, j)) ==> r.None?
    ensures forall i, j ::
      loads(text).None? && MatchAt(text, i, j) && (forall i', j' :: MatchAt(text, i', j') ==> i <= i')
      ==> r == loads(text[i..j])
    ensures r.Some? ==> r == loads(text) || exists i, j :: MatchAt(text, i, j) && r == loads(text[i..j])
  {
    match loads(text)
    case Some(v) => Some(v)
    case None =>
      match Search(text, 0)
      case None => None
      case Some(m) =>
        forall i, j | MatchAt(text, i, j) && (forall i', j' :: MatchAt(text, i', j') ==> i <= i')
          ensures i == m.0 && j == m.1
        {
          MatchEndUnique(text, m.0, j, m.1);
        }
        loads(text[m.0..m.1])
  }

  /** The chat-completion request the extractor sends. */
  datatype ChatRequest = ChatRequest(
    url: string,
    authorization: string,
    model: string,
    systemPrompt: string,
    userContent: string,
    temperature: int,
    maxTokens: int,
    timeoutSeconds: int)

  /** The request for a description: the bearer key, the fixed system prompt,
      and a user message that ends with the description itself. */
  function RequestFor(apiKey: string, llmModel: string, text: string): (r: ChatRequest)
    ensures r.url == Url && r.authorization == "Bearer " + apiKey && r.model == llmModel
    ensures r.systemPrompt == SystemPrompt
    ensures |r.userContent| == |UserPrefix| + |text| && r.userContent[|UserPrefix|..] == text
    ensures r.temperature == 0 && r.maxTokens == 200 && r.timeoutSeconds == 30
  {
    ChatRequest(Url, "Bearer " + apiKey, llmModel, SystemPrompt, UserPrefix + text, 0, 200, 30)
  }

  /** What looking up choices[0].message.content in a reply body gives:
      - Content: a string;
      - Unreadable: the body is not JSON, or a dictionary on the way lacks its
        key; the except clause for KeyError and JSONDecodeError catches it;
      - Uncaught: an exception no except clause names. That is an empty
        choices list (IndexError), a body or message that is not a dictionary,
        or content that is not a string, which json.loads rejects with a
        TypeError. */
  datatype ReplyContent = Content(text: string) | Unreadable | Uncaught

  /** What the external call gives back: a transport failure
      (requests.RequestException), or a status and the reply's content. */
  datatype HttpReply = RequestFailed | Reply(status: int, content: ReplyContent)

  type Transport = ChatRequest -> HttpReply

  /** The extracted record, if any, the request sent, if any, and whether
      the call ends in an exception instead of returning. */
  datatype Extraction = Extraction(info: Option<TradeInfo>, request: Option<ChatRequest>, raised: bool)

  /** The record built from a parsed reply: the three fields with their
      placeholders, and the description as it was given. */
  function ToTradeInfo(data: JsonObject, text: string): (t: TradeInfo)
    ensures t.rawText == text
    ensures t.asset.JString? || "asset" in data
    ensures t.scenario.JString? || "scenario" in data
    ensures t.date.JString? || "date" in data
  {
    TradeInfo(
      Get(data, "asset", JString(AssetMissing)),
      Get(data, "scenario", JString(ScenarioMissing)),
      Get(data, "date", JString(DateMissing)),
      text)
  }

  /** extract_trade_info. */
  function ExtractTradeInfo(apiKey: string, llmModel: string, text: string, post: Transport, loads: Decoder)
    : (r: Extraction)
    ensures apiKey == "" ==> r == Extraction(None, None, false)
    ensures apiKey != "" ==> r.request == Some(RequestFor(apiKey, llmModel, text))
    ensures r.raised <==>
      && apiKey != ""
      && var reply := post(RequestFor(apiKey, llmModel, text));
      && reply.Reply? && reply.status == 200 && reply.content.Uncaught?
    ensures r.raised ==> r.info.None?
    ensures r.info.Some? <==>
      && apiKey != ""
      && var reply := post(RequestFor(apiKey, llmModel, text));
      && reply.Reply? && reply.status == 200 && reply.content.Content?
      && var data := ParseJsonResponse(reply.content.text, loads);
      && data.Some? && data.value != map[]
    ensures r.info.Some? ==> r.info.value.rawText == text
  {
    if apiKey == "" then Extraction(None, None, false)
    else
      var request := RequestFor(apiKey, llmModel, text);
      match post(request)
      case RequestFailed => Extraction(None, Some(request), false)
      case Reply(status, content) =>
        if status != 200 then Extraction(None, Some(request), false)
        else
          match content
          case Unreadable => Extraction(None, Some(request), false)
          case Uncaught => Extraction(None, Some(request), true)
          case Content(answer) =>
            var data := ParseJsonResponse(answer, loads);
            var info := if data.Some? && data.value != map[] then Some(ToTradeInfo(data.value, text)) else None;
            Extraction(info, Some(request), false)
  }

  /** A record carries each reply field verbatim when the reply has it, and
      the field's placeholder otherwise. */
  lemma TradeInfoFields(data: JsonObject, text: string)
    ensures var t := ToTradeInfo(data, text);
      && ("asset" in data ==> t.asset == data["asset"])
      && ("asset" !in data ==> t.asset == JString("Не указан"))
      && ("scenario" in data ==> t.scenario == data["scenario"])
      && ("scenario" !in data ==> t.scenario == JString("Не указан"))
      && ("date" in data ==> t.date == data["date"])
      && ("date" !in data ==> t.date == JString("Не указана"))
      && t.rawText == text
  {
  }

  /** A successful extraction is the parsed reply with the placeholders filled. */
  lemma ExtractedRecord(apiKey: string, llmModel: string, text: string, post: Transport, loads: Decoder)
    requires ExtractTradeInfo(apiKey, llmModel, text, post, loads).info.Some?
    ensures var reply := post(RequestFor(apiKey, llmModel, text));
      && reply.Reply? && reply.content.Content?
      && var data := ParseJsonResponse(reply.content.text, loads);
      && data.Some?
      && ExtractTradeInfo(apiKey, llmModel, text, post, loads).info.value == ToTradeInfo(data.value, text)
  {
  }

  /** An object reply is returned without searching inside it, even an empty
      one, which the extractor then turns into no record. */
  lemma EmptyObjectGivesNoRecord(apiKey: string, llmModel: string, text: string, post: Transport, loads: Decoder)
    requires apiKey != ""
    requires post(RequestFor(apiKey, llmModel, text)) == Reply(200, Content("{}"))
    requires loads("{}") == Some(map[])
    ensures ExtractTradeInfo(apiKey, llmModel, text, post, loads).info.None?
  {
  }
}
