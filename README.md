# TradeMind Assistant: a verified model of the trade-capture core

TradeMind Assistant is a Telegram bot for a crypto trader. The user opens a
new trade, uploads chart screenshots and presses "✅ Готово". The bot
downloads the screenshots in order, stitches them into one vertical JPEG
collage and sends it back. It then waits for a voice or text description of
the trade. Around this conversation sit several smaller parts, each modelled
here:

- an access middleware that drops updates from users outside an allow-list;
- the configuration, which parses the allow-list from an environment
  variable;
- a language-model extractor that turns a description into asset, scenario
  and date;
- a cached Whisper speech recogniser;
- a header band with the trade's details, which can be drawn over the
  collage;
- an experiment script that asks a vision model where labels could go on a
  chart, cleans up its reply and picks a label and a colour for every point.

The project is written in Dafny. Each source file becomes one module:

| module | file | source |
|---|---|---|
| `Handlers` | `handlers.dfy` | `bot/handlers.py` |
| `ImageProcessor` | `image_processor.dfy` | `services/image_processor.py` |
| `LlmProcessor` | `llm_processor.dfy` | `services/llm_processor.py` |
| `SpeechToText` | `speech_to_text.dfy` | `services/speech_to_text.py` |
| `Config` | `config.dfy` | `utils/config.py` |
| `Middlewares` | `middlewares.dfy` | `bot/middlewares.py` |
| `VisionCoordinates` | `vision_coordinates.dfy` | `test_vision_coordinates.py` |

Three support modules model the Python built-ins the code relies on:

- `Text` (`text.dfy`): `str.strip`, `str.split`, `str.join`, `str.isdigit`,
  `str(n)`, and the first word that `str.split(maxsplit=1)` gives, which
  aiogram's command filter reads. The vision script's `split("\n", 1)` and
  `rsplit("```", 1)` are expressed through a search for the first line
  break and the last fence (`FindChar`, `FindLast`);
- `JsonValues` (`json.dfy`): decoded JSON values, Python truthiness and
  `dict.get`;
- `Wrappers` (`wrappers.dfy`): `Option` and `Result`.

Each part is modelled in the source's own form:

- **Conversation.** The FSM state of one user is a `Session` object. Its
  fields are the phase, the two data keys the handlers use (`screenshots`,
  `collage`) and the replies sent so far. Every handler is a method on it.
  `Session.Valid()` is the invariant all handlers keep:
  - the confirmation phase is never entered;
  - a cleared session has no data;
  - the description phase always has a non-empty screenshot list and a
    collage.
- **Compositor.** `_stitch_images` and `_add_header` work on a mutable
  `array2` canvas: they allocate it and paste into it in a loop. Each is
  proved to produce the picture that a pure function describes (`Stitched`
  and `WithHeaderBand`). Lemmas about those functions state the layout.
- **Whisper cache.** The globals `_model` and `_model_cfg` are the fields of
  a `ModelCache` object.
- **Purely functional parts.** Fence stripping, reply parsing, the access
  decision and configuration validation are functions. Their postconditions
  state their behaviour, and fence stripping and reply parsing also have
  lemmas about particular reply shapes.

Everything outside the process takes part only through function-valued
parameters:

- Telegram file downloads (`download`);
- the collage builder as the conversation sees it (`build`);
- Pillow's decoder, colour conversion, font metrics and JPEG renderer;
- `json.loads` (a `Decoder` that gives back a JSON object or fails);
- the OpenRouter HTTP call;
- the Whisper model loader and recogniser;
- the environment.

A failure of any of these is `None`.

Points where the code does less than its names and services suggest, or
where a reader could expect otherwise; the model follows the code:

- **Description phase.** The repository contains voice transcription
  (`transcribe_audio`), trade extraction (`extract_trade_info`) and a
  header collage (`create_collage_with_header`), but `bot/handlers.py`
  imports none of them. `handle_description` (`bot/handlers.py:198-217`) is
  marked as a stub with a TODO: it only acknowledges the message and clears
  the session.
- **Collage builder.** The bot builds its collage with
  `create_vertical_collage` (the only service `bot/handlers.py:15` imports)
  and never calls the header variant.
- **New trade keeps the collage.** `cmd_new_trade` merges
  `screenshots=[]` into the FSM data instead of clearing it, so a stored
  collage survives a new trade (`Session.CmdNewTrade`).
- **Cancel routing.** Cancel reaches the cancel handler in every phase only
  because that handler is registered before the description handler
  (`Handlers.CancelAlwaysRouted`).
- **Model id.** `services/llm_processor.py:65` and
  `test_vision_coordinates.py:73` read `config.LLM_MODEL`, but
  `utils/config.py` defines no such attribute. The model id is therefore a
  parameter (`llmModel`, `configured`).
- **Config import.** `bot/middlewares.py` imports `config` from a top-level
  module rather than from `utils.config`. The allow-list is a parameter.

## Model

| member | source | states |
|---|---|---|
| `Config.ParseUserIds` | utils/config.py:13-23 | The loop over the comma-separated items computes exactly `UserIds(value)`, and an empty value gives the empty set. |
| `Config.IdsOfSnoc` | utils/config.py:19-22 | Handling one more item adds exactly that item's ids to the set. |
| `Config.IdsOfMembership` | utils/config.py:18-22 | An id is in the parsed set if and only if some item contributed it. |
| `Config.UserIdsSound` | utils/config.py:13-23 | Every parsed id is non-negative and comes from an item that is all digits after stripping. |
| `Config.EmptyValueRedundant` | utils/config.py:15-16 | The early return for an empty value agrees with what the loop would compute. |
| `Config.IdsOfConcat` | utils/config.py:19-22 | The ids of two item lists placed one after the other are the union of their ids. |
| `Config.ItemIds` | utils/config.py:20-22 | An item contributes at most one id: the value of the stripped item, exactly when that is all digits. |
| `Config.IdsOf` | utils/config.py:18-22 | No collected id is negative. |
| `Config.UserIds` | utils/config.py:13-23 | The parsed set holds no negative id, and an empty value gives the empty set. |
| `Config.UserIdsConcat` | utils/config.py:13-23 | For any two values, joining them with a comma gives the union of their id sets. |
| `Config.SplitWithoutSeparator` | utils/config.py:19 | A value without a comma splits into itself alone. |
| `Config.UserIdsPadded` | utils/config.py:15-21 | Whitespace around any value without a comma, the empty one included, does not change the parsed ids. |
| `Config.NonNumericItemsDropped` | utils/config.py:20-22 | A signed number, two numbers separated by a space and an empty item all contribute nothing. |
| `Config.FromEnvironment` | utils/config.py:30-43 | The allow-list is parsed from `ALLOWED_USER_IDS`, and missing variables take the source's defaults (the token is empty, the service account file is `service-account.json`). |
| `Config.Validate` | utils/config.py:46-52 | Validation succeeds if and only if both the token and the allow-list are non-empty. A missing token is reported first, then a missing allow-list. |
| `Middlewares.UserIdOf` | bot/middlewares.py:29-34 | Only a message or a callback query that has a sender yields an id, and the id is the sender's. |
| `Middlewares.Decide` | bot/middlewares.py:29-43 | An event is forwarded if and only if it has a sender whose id is allowed. It is dropped for lack of a sender exactly when there is none. |
| `Middlewares.AccessMiddleware` | bot/middlewares.py:22-46 | There is a result if and only if the user id is present and allowed, and that result is the handler's on the unchanged event and data. |
| `Handlers.CancelAlwaysRouted` | bot/handlers.py:93-95 | The cancel button reaches the cancel handler in every phase. |
| `Handlers.NotSlashNotCommand` | bot/handlers.py:51-52 | A text that starts with neither `/` nor whitespace matches no command filter. |
| `Handlers.Route` | bot/handlers.py:36-199 | The photo and done handlers are reached only in the screenshot phase, by a photo with at least one size and by the done button respectively. The description handler is reached only in its phase, and in that phase no message is left unhandled. A message without text reaches no command or button handler. |
| `Handlers.CommandWithArguments` | bot/handlers.py:36-95 | A command is recognised after leading whitespace, alone or followed by any whitespace character and arguments. |
| `Handlers.NewTradeRouted` | bot/handlers.py:60-61 | The new-trade button reaches the new-trade handler in every phase. |
| `Handlers.PhotoRouted` | bot/handlers.py:113 | While collecting, a photo reaches the screenshot handler. |
| `Handlers.DoneRouted` | bot/handlers.py:133 | While collecting, the done button reaches the finishing handler. |
| `Handlers.PlainTextIsDescription` | bot/handlers.py:198 | In the description phase, a text that starts with neither `/` nor whitespace and is no menu button reaches the description handler. |
| `Handlers.DescriptionTakesEverythingElse` | bot/handlers.py:198-199 | In the description phase a message without text, such as a voice message, goes to the description handler. With no phase it is left unhandled. |
| `Handlers.Fetched` | bot/handlers.py:151-157 | A successful download of the list gives one buffer per id, the last being the last id's bytes. |
| `Handlers.FetchedInOrder` | bot/handlers.py:153-157 | The downloads succeed if and only if every single download does, and buffer k is then the bytes of screenshot k, in list order. |
| `Handlers.FetchedStep` | bot/handlers.py:154-157 | Each loop step appends the bytes of the next id or fails. |
| `Handlers.FetchedFails` | bot/handlers.py:151-157 | A failure part-way fails the whole download. |
| `Handlers.Session.constructor` | bot/handlers.py:97-99 | A new session has no phase and no data, and satisfies the invariant. |
| `Handlers.Session.Clear` | bot/handlers.py:106 | `state.clear()` removes the phase and both data keys. |
| `Handlers.Session.CmdStart` | bot/handlers.py:36-48 | /start always clears the session, then greets the user. |
| `Handlers.Session.CmdHelp` | bot/handlers.py:51-57 | Help only replies: the phase and the data are unchanged. |
| `Handlers.Session.CmdStats` | bot/handlers.py:78-90 | Stats only replies: the phase and the data are unchanged. |
| `Handlers.Session.CmdNewTrade` | bot/handlers.py:60-75 | From any phase, the phase becomes screenshot collection and the list becomes empty. A stored collage is kept. |
| `Handlers.Session.CmdCancel` | bot/handlers.py:93-108 | With no phase nothing changes and the user is told there is nothing to cancel. Otherwise the session is cleared and the cancellation confirmed, followed in both cases by the main menu. |
| `Handlers.Session.HandleScreenshot` | bot/handlers.py:113-130 | Exactly one id is appended, that of the last (largest) size, and the earlier ids are kept. The acknowledgement carries the new length. |
| `Handlers.Session.FinishScreenshots` | bot/handlers.py:133-193 | An empty list only warns and changes nothing. Otherwise the screenshots are downloaded in order and built into a collage. On success the collage is stored, sent with the count, and the phase becomes the description phase. Any failure clears the whole session. |
| `Handlers.Session.Fail` | bot/handlers.py:189-193 | The error path edits the progress message, clears the session and shows the menu. |
| `Handlers.Session.HandleDescription` | bot/handlers.py:198-217 | A voice or text message is acknowledged, and the session always ends cleared. |
| `Handlers.Session.Dispatch` | bot/handlers.py:36-217 | Routing keeps the session invariant, and for every route the new phase, data and replies are those of the handler the router picks: unhandled messages change nothing, help and stats only reply, /start, cancel and descriptions end cleared, a new trade starts an empty list, a photo appends its largest size, and done downloads and builds the collage or fails and clears. |
| `Handlers.FullCapture` | bot/handlers.py:60-217 | Sent through the router, the new-trade button, two photos, done and a description that the router gives to the description handler produce the exact replies message by message, including the collage of the two screenshots in upload order, and end with a cleared session. |
| `Handlers.CollectTwo` | bot/handlers.py:60-130 | Through the router, the new-trade button and two photos leave both ids in the list in upload order, acknowledged with counts 1 and 2. |
| `Handlers.FetchedPair` | bot/handlers.py:153-157 | Two successful downloads give their bytes in list order. |
| `Handlers.DoneWithoutScreenshots` | bot/handlers.py:60-144 | Through the router, done right after a new trade warns and stays in collection, and the cancel button then clears everything. |
| `ImageProcessor.ConvertToRgb` | services/image_processor.py:100-101 | Conversion gives an RGB picture of the same size. |
| `ImageProcessor.Normalise` | services/image_processor.py:100-101 | Only RGBA and palette images are converted to RGB. Every other mode is kept unchanged, and the size never changes. |
| `ImageProcessor.Decoded` | services/image_processor.py:93-108 | There is one picture per input buffer. |
| `ImageProcessor.LoadImages` | services/image_processor.py:93-108 | Loading succeeds if and only if every buffer decodes, giving the normalised pictures in order. Otherwise it fails at the first buffer that does not decode, with nothing produced. |
| `ImageProcessor.Stitched` | services/image_processor.py:111-127 | The collage is RGB, as wide as the widest image and as tall as all images together. |
| `ImageProcessor.MaxWidthIsMaximum` | services/image_processor.py:113 | The canvas width bounds every image's width and equals the width of some image. |
| `ImageProcessor.OffsetStep` | services/image_processor.py:121-125 | Each image starts where the previous one ends. |
| `ImageProcessor.BandsInOrder` | services/image_processor.py:121-125 | Images are stacked in input order without overlap, inside the canvas height. |
| `ImageProcessor.OffsetMonotone` | services/image_processor.py:121-125 | The running `y_offset` never decreases. |
| `ImageProcessor.ImageFits` | services/image_processor.py:123 | Every image lies within the canvas horizontally, centred: the right margin equals the left one or exceeds it by one pixel. |
| `ImageProcessor.StitchedBand` | services/image_processor.py:119-125 | Inside the band of image i the collage shows image i, centred, with white to either side. |
| `ImageProcessor.ImagePlacement` | services/image_processor.py:122-125 | Pixel (r, c) of image i appears at (its y offset + r, its x offset + c) in the collage. |
| `ImageProcessor.UncoveredIsWhite` | services/image_processor.py:119-124 | The part of a band beside a narrower image keeps the white background. |
| `ImageProcessor.Paste` | services/image_processor.py:124 | Pasting overwrites exactly the canvas pixels the image covers, clipped to the canvas, and leaves the rest unchanged. |
| `ImageProcessor.StitchImages` | services/image_processor.py:111-127 | The canvas built by the paste loop has the collage's size and every pixel of the stitched collage. |
| `ImageProcessor.Frozen` | services/image_processor.py:127 | Reading the canvas back as a picture keeps its size and every pixel. |
| `ImageProcessor.FrozenStitched` | services/image_processor.py:111-127 | A canvas that agrees with the stitched collage pixel by pixel is that collage. |
| `ImageProcessor.CreateVerticalCollage` | services/image_processor.py:47-63 | An empty list fails before decoding. Otherwise the call succeeds if and only if all images decode, a failure names the first bad image, and success encodes the stitched collage. |
| `ImageProcessor.HeaderOps` | services/image_processor.py:130-213 | The header draws five elements. |
| `ImageProcessor.TitleCentred` | services/image_processor.py:153-163 | The title "Сделка <asset>" is drawn first, at y = 12, horizontally centred. |
| `ImageProcessor.ScenarioPill` | services/image_processor.py:176-201 | The scenario pill is 40 px wider than the scenario text, centred, with its top at y = 60. The text sits 20 px inside both of its ends. |
| `ImageProcessor.SecondRowAligned` | services/image_processor.py:165-213 | The "Сценарий" label starts 30 px from the left edge and the date text ends 30 px from the right edge, both at y = 65. |
| `ImageProcessor.WithHeaderBand` | services/image_processor.py:135-143 | The framed picture keeps the width and is 110 px taller. |
| `ImageProcessor.HeaderShiftsCollage` | services/image_processor.py:139-143 | Every collage pixel moves down by 110 rows, and the band above it has the dark fill. |
| `ImageProcessor.AddHeader` | services/image_processor.py:130-217 | The new canvas is the collage under the dark 110 px band, and the drawing operations are the header layout for the collage's width. |
| `ImageProcessor.CreateCollageWithHeader` | services/image_processor.py:66-90 | The errors are those of the plain collage. Success encodes the stitched collage under the header band, with the header drawn for its width. |
| `LlmProcessor.EmptyBracesNeverMatch` | services/llm_processor.py:114 | The pattern needs at least one character between the braces. |
| `LlmProcessor.MatchEndUnique` | services/llm_processor.py:114 | From a given start, a match can end in one place only. |
| `LlmProcessor.FirstBrace` | services/llm_processor.py:114 | Finds the first brace at or after a position, or reports that there is none. |
| `LlmProcessor.Search` | services/llm_processor.py:114 | `re.search` finds the leftmost match of `\{[^{}]+\}`, or reports that there is none. |
| `LlmProcessor.ParseJsonResponse` | services/llm_processor.py:105-122 | A reply that decodes as a whole is taken as it is. Otherwise the leftmost brace group is decoded. With no group, or a group that does not decode, the result is none. |
| `LlmProcessor.RequestFor` | services/llm_processor.py:58-75 | The request carries the bearer key, the model, the fixed system prompt and a user message ending with the description, at temperature 0 with at most 200 tokens and a 30 second timeout. |
| `LlmProcessor.ToTradeInfo` | services/llm_processor.py:87-93 | The record keeps the description as given, and a field that is not a string comes from the reply. |
| `LlmProcessor.ExtractTradeInfo` | services/llm_processor.py:42-102 | With no API key nothing is sent and there is no record. Otherwise the request is the documented one. The call raises if and only if a 200 reply holds an empty `choices` list, a non-dictionary on the way, or a content that is not a string; it then gives no record. A record is returned if and only if the reply has status 200, has string content, and parses to a non-empty object. The record keeps the original text. |
| `LlmProcessor.TradeInfoFields` | services/llm_processor.py:87-93 | Each field is copied from the reply when present and takes its placeholder ("Не указан", "Не указана") otherwise. |
| `LlmProcessor.ExtractedRecord` | services/llm_processor.py:81-93 | A record is always the parsed reply with the placeholders filled in. |
| `LlmProcessor.EmptyObjectGivesNoRecord` | services/llm_processor.py:87-95 | A reply `{}` decodes strictly and, being falsy, gives no record. |
| `SpeechToText.DefaultRunsOnCpu` | services/speech_to_text.py:16-23 | Without a configuration the model runs on the CPU with int8, in Russian, with a beam of five and VAD filtering. |
| `SpeechToText.DeviceFor` | services/speech_to_text.py:43-48 | The GPU flag selects CUDA with float16, and its absence selects the CPU with int8. |
| `SpeechToText.ModelCache.constructor` | services/speech_to_text.py:26-28 | The cache starts empty. |
| `SpeechToText.ModelCache.GetModel` | services/speech_to_text.py:31-54 | A request for the cached configuration returns the cached model without loading. Any other request loads once with the mapped device, then caches the model and its configuration. |
| `SpeechToText.ModelCache.RepeatedRequest` | services/speech_to_text.py:31-39 | When the first of two requests for the same configuration gives a model, the second returns that same model, and a load happens only if the first request missed the cache. |
| `SpeechToText.ModelCache.TranscribeAudio` | services/speech_to_text.py:57-89 | Transcription uses the cached model and the configuration's VAD, beam size and language. The text is the segment texts, stripped, joined by spaces and stripped again. |
| `SpeechToText.KeptPiecesConcat` | services/speech_to_text.py:84 | Segment filtering distributes over concatenation. |
| `SpeechToText.KeptPieces` | services/speech_to_text.py:84 | Filtering keeps at most one piece per segment, and every kept piece is stripped. |
| `SpeechToText.SegmentText` | services/speech_to_text.py:84-85 | The transcript never starts or ends with whitespace, and no segments give an empty transcript. |
| `SpeechToText.JoinTrimmed` | services/speech_to_text.py:84-85 | Joining trimmed, non-empty pieces with spaces is trimmed and non-empty. |
| `SpeechToText.SegmentTextJoinsPieces` | services/speech_to_text.py:84 | For segments that are all non-empty after stripping, the final strip changes nothing: the transcript is exactly the stripped pieces joined by single spaces. |
| `VisionCoordinates.UseModel` | test_vision_coordinates.py:73 | An explicit, non-empty model id wins; an absent or empty one falls back to the configured id. |
| `VisionCoordinates.RequestFor` | test_vision_coordinates.py:30-100 | The request carries the bearer key, the chosen model, the prompt for the picture's size and the picture as a JPEG data URL, at temperature 0 with at most 500 tokens and a 60 second timeout. |
| `VisionCoordinates.Unfence` | test_vision_coordinates.py:114-116 | The fence handling fails if and only if the text opens with a fence and has no line break. Text without an opening fence is kept, and the result is never longer than the input. |
| `VisionCoordinates.CleanReply` | test_vision_coordinates.py:113-116 | Cleaning fails if and only if the stripped reply opens with a fence and has no line break, and it never lengthens the reply. |
| `VisionCoordinates.AskForCoordinates` | test_vision_coordinates.py:30-121 | The request is built from the query. A non-200 status gives `{}`. The call raises if and only if the request itself fails (the post is outside any try block), or a 200 reply has no string content or cleaning it fails. A returned result is the decoded cleaned reply, or otherwise `{"raw": answer}`. |
| `VisionCoordinates.UnfencedReply` | test_vision_coordinates.py:113-118 | A reply not opening with a fence is decoded as stripped. |
| `VisionCoordinates.FirstLineEnds` | test_vision_coordinates.py:115 | The first line break of a fenced reply ends its fence line. |
| `VisionCoordinates.FencedBlock` | test_vision_coordinates.py:113-116 | Wrapping any body in a fence line with any language tag and a closing fence gives the body back, whatever the body contains, when no backtick follows the closing fence. |
| `VisionCoordinates.UnclosedFence` | test_vision_coordinates.py:114-116 | Without a closing fence everything after the first line is kept whole. |
| `VisionCoordinates.FenceWithoutNewline` | test_vision_coordinates.py:114-121 | A fenced reply on one line raises an index error that the function does not catch. |
| `VisionCoordinates.PaddingIgnored` | test_vision_coordinates.py:113 | Whitespace around the reply does not change what is decoded. |
| `VisionCoordinates.FencedJsonDecoded` | test_vision_coordinates.py:113-118 | A JSON object inside a json code block comes back as the decoded object. |
| `VisionCoordinates.UndecodableKeptRaw` | test_vision_coordinates.py:119-121 | A reply that does not decode is returned whole, unstripped, under "raw". |
| `VisionCoordinates.Points` | test_vision_coordinates.py:129 | The points are `key_points` when truthy, else `free_zones` when truthy, else an empty list. They are truthy exactly when one of the two is. |
| `VisionCoordinates.VisualizeCoordinates` | test_vision_coordinates.py:129-150 | With no points nothing is drawn. A list of objects gives one marker per point, in order, each `MarkerFor` its index. Anything else raises. |
| `VisionCoordinates.MarkerFor` | test_vision_coordinates.py:143-150 | Point i gets colour i mod 5 and a truthy label, and its coordinates are those of the point, 0 where one is missing. |
| `VisionCoordinates.LabelNeverEmpty` | test_vision_coordinates.py:148 | Every label is truthy. Without suggestions it is "Point i+1". |
| `VisionCoordinates.LabelPreference` | test_vision_coordinates.py:148 | A truthy `suggested_label` wins. Otherwise a truthy `suggested_text` is used. |
| `VisionCoordinates.FallbackLabelsDistinct` | test_vision_coordinates.py:148 | Fallback labels of different points differ. |
| `VisionCoordinates.ColourCycle` | test_vision_coordinates.py:143-150 | Colours repeat every five points, and neighbouring points never share a colour. |
| `VisionCoordinates.Defaults` | test_vision_coordinates.py:146-149 | A point with no fields is drawn at (0, 0) with the fallback label, an empty element and colour i mod 5. |
| `Text.LStripSpec` | utils/config.py:20 | `lstrip` removes a whitespace-only prefix and leaves a suffix that starts with non-whitespace. |
| `Text.RStripSpec` | utils/config.py:20 | `rstrip` removes a whitespace-only suffix and leaves a prefix that ends with non-whitespace. |
| `Text.StripSpec` | utils/config.py:20 | `strip` leaves no whitespace at either end and never lengthens the text. |
| `Text.LStripSkipsSpace` | utils/config.py:20 | Leading whitespace does not affect the result of `lstrip`. |
| `Text.RStripSkipsSpace` | utils/config.py:20 | Trailing whitespace does not affect the result of `rstrip`. |
| `Text.LStripAppend` | utils/config.py:20 | Text appended after a non-space start survives `lstrip`. |
| `Text.StripPadded` | utils/config.py:20 | Padding with whitespace on both sides does not change the result of `strip`. |
| `Text.StripTrimmed` | utils/config.py:20 | `strip` leaves text without outer whitespace unchanged. |
| `Text.NatToStringRoundTrip` | test_vision_coordinates.py:148 | `str(n)` is all digits, and reading it back gives n. |
| `Text.Split` | utils/config.py:19 | `split` always gives at least one piece. |
| `Text.SplitPiecesFree` | utils/config.py:19 | No piece contains the separator. |
| `Text.JoinSplit` | utils/config.py:19 | Joining the pieces with the separator restores the text. |
| `Text.SplitConcat` | utils/config.py:19 | Splitting `a + sep + b` gives the pieces of a followed by the pieces of b. |
| `Text.FindChar` | test_vision_coordinates.py:115 | The result is the first occurrence of the character, or none if it does not occur. |
| `Text.FindLast` | test_vision_coordinates.py:116 | The result is the last occurrence of the pattern, or none if it does not occur. |
| `Text.FirstWord` | bot/handlers.py:36-95 | The first word is a prefix of the text without whitespace, ending at the text's end or at a whitespace character. |
| `Text.FirstWordBeforeSpace` | bot/handlers.py:36-95 | A whitespace-free word followed by whitespace is the first word, whatever follows. |
| `Text.FirstWordWhole` | bot/handlers.py:36-95 | A text without whitespace is its own first word. |
| `JsonValues.Get` | services/llm_processor.py:89-91 | `dict.get` returns the stored value for a present key and the default for a missing one. |

## Left out

- **Telegram transport.** Message sending, editing, deleting and file
  download are not modelled, nor keyboards (`bot/keyboards.py`),
  aiogram's dispatcher and polling (`main.py`), or parse modes. Replies are
  recorded by meaning in `Session.outbox`, and a download is a function that
  may fail.
- **Reply texts.** Only each reply's meaning and its data (counts, the
  collage, the echoed text) are recorded.
- **Send failures.** The model does not cover a send failing inside the
  try block of `finish_screenshots`.
- **Command filters.** A command is the first whitespace-separated word of
  the text, as `text.split(maxsplit=1)` gives it: "/name" alone or
  "/name@mention". Checking the mention against the bot's user name, the
  deep-link arguments of /start and commands in a photo's caption are not
  modelled; a message here has no caption.
- **Logging.** `utils/logger.py` and every `logger` call are left out; they
  have no effect on the modelled behaviour.
- **Pillow.** Pixel decoding, colour conversion, font loading (`_get_font`),
  text metrics, rounded-rectangle and text rasterisation, and JPEG encoding
  at quality 95 are parameters. The header text is a list of drawing
  operations, and `_save_to_bytes` is the `Renderer` parameter.
- **Lazy decoding.** Pillow opens images lazily, so a truncated image may
  fail only when it is pasted. In the model, decoding happens at
  `Image.open`.
- **Mixed modes.** The conversion Pillow applies when pasting an image of
  another mode (for example L or CMYK) onto the RGB canvas is not modelled.
- **JSON decoding.** `json.loads` is an abstract function that gives back
  objects only. A top-level value of another kind would reach `data.get`
  in `services/llm_processor.py:88`; in the vision script it would be
  returned as it is. Neither path is modelled.
- **Numbers.** JSON numbers are integers; floating point is not modelled.
- **LlmProcessor.ExtractTradeInfo: crashing replies.** Which body gives
  which outcome is an input to the model (`ReplyContent`), not derived from
  a decoded body: `Unreadable` stands for a missing key or an undecodable
  body (caught), `Uncaught` for an empty `choices` list, a non-dictionary on
  the way or a content that is not a string (not caught).
- **Model id.** `config.LLM_MODEL` does not exist in `utils/config.py`, so
  as written `extract_trade_info` would raise AttributeError once it had an
  API key. The model id is a parameter instead.
- **Digits.** `str.isdigit` on non-ASCII digits such as superscripts is not
  modelled. Only ASCII digits count as digits.
- **Whisper cache concurrency.** Concurrent access to the cache is not
  modelled, and no lock exists in the code. The WhisperModel constructor and
  `transcribe` are parameters. The detected language in the log line is
  left out.
- **Vision script I/O.** The file read, base64 encoding, image size probe,
  printing and saving are parameters or left out. Drawing the marker
  geometry (ellipse, background rectangle, text) is left out too.
- **VisionCoordinates.VisualizeCoordinates: type errors.** Markers keep
  coordinates and labels as JSON values. The model does not state which
  non-numeric coordinates or non-string labels Pillow would reject while
  drawing.
- **VisionCoordinates.AskForCoordinates: printing.** The printed output is
  not modelled. A reply whose content is null or not a string raises in
  `answer.strip()`; the model treats it as a reply without content, which
  raises too.
- **Description sub-flow.** No handler calls `transcribe_audio`,
  `extract_trade_info` or `create_collage_with_header`. Those services are
  modelled on their own, and no conversation step connects them.
