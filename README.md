# The farm-advisory back end (कृषि साथी), modelled in Dafny

A model of the conversational farm-advisory back end. The assistant answers farmers over a voice
line (IVR) and over WhatsApp, in Hindi. A voice query goes through these steps:

- validate the caller and fetch or create the caller's session record;
- transcribe a recording when no text came with it;
- re-prompt when nothing was said;
- otherwise record the query and classify it into an intent with an ordered keyword rule table;
- resolve the crop and the location;
- run the handler of the intent: crop advice by growth stage, diagnosis from symptoms, loan
  eligibility, insurance, mandi prices with a forecast, buyer linkage (with an SMS to the
  caller), weather, general questions, or a clarification;
- speak the reply and hang up.

A WhatsApp message is answered with the image analysis, an acknowledgement of the text, or a
greeting. The reply is sent back through the delivery gateway.

Modules (one file each):

| file | module | models |
|---|---|---|
| text.dfy | `Text` | the string primitives the source uses: `in`, ASCII `lower`, `join`, `startswith`, `endswith`, `rstrip`, `str(int)`, `{n:,}`, `int(float)` |
| rules.dfy | `Rules` | an ordered keyword rule table and its first match, the shape of every classifier in the system |
| language.dfy | `Language` | `speech_to_text` and `understand_intent` in src/core/language.py |
| disease.dfy | `Disease` | `diagnose_from_symptoms` in src/core/disease_detection.py |
| advisory.dfy | `Advisory` | the crop calendar, `get_crop_advice` and `get_general_qna_answer` in src/core/advisory.py |
| finance.dfy | `Finance` | `check_loan_eligibility` and `get_insurance_info` in src/core/finance.py |
| market.dfy | `Market` | `get_market_prices`, `get_price_forecast` and `find_buyers` in src/core/market.py |
| weather.dfy | `Weather` | `get_weather_forecast` in src/core/weather.py |
| telephony.dfy | `Telephony` | `send_sms` and `send_whatsapp_message` in src/integrations/telephony.py |
| routes.dfy | `Routes` | the session store and the three request handlers in src/api/routes.py |

Each file follows the form of its source:

- **Pure functions.** The classifiers and the template texts become Dafny functions.
  Each keyword chain is also restated as a `Rules` table, and a lemma proves that the chain
  and the table agree.
- **Loops.** The loops of the source become methods with loop invariants, proved against a
  specification function: the stage scan of `get_crop_advice`, the mandi loop of
  `get_market_prices` and the day loop of `get_weather_forecast`.
- **Mutable state.** The process-wide session dictionary becomes a `Router` class. Its `db`
  field is a `map` that the handlers update in place. A `clock` field stands for the
  wall-clock reading on each session access. A `deliveries` field logs every call into the
  SMS/WhatsApp gateway.
- **Randomness.** Every `random` draw of the source is a parameter, constrained to the
  draw's range (`Routes.DrawsFit`).

Where the code departs from the system's documented design, the model follows the code:

- Updating an unknown caller is silently ignored (`Routes.Updated`). The design has it fail with a not-found error.
- The simulated transcription never returns an empty text (`Language.SpeechToText`). So a recording always reaches the classifier, and the re-prompt happens only when neither text nor a recording came (`Routes.UtteranceEmptyIff`).
- The eligible loan amount is the capped product truncated to whole rupees (`Finance.CheckLoanEligibility`), not the capped product itself.
- A sowing date in the future selects no stage. The advice is then the default text under the "Unknown" stage (`Advisory.FutureSowingKeepsDefault`).

## Model

| member | source | states |
|---|---|---|
| Rules.FirstMatchEarliest | src/core/language.py:61-95 | in an ordered keyword table, the first rule that fires decides, whatever later rules say |
| Rules.FirstMatchNone | src/core/language.py:89-97 | when no rule fires, the classifier's default decides |
| Rules.FirstMatchInRange | src/core/language.py:56-97 | a classifier's outcome is always its default or the outcome of one of its rules |
| Rules.FirstMatchSomeRule | src/core/language.py:61-95 | when some rule fires, the outcome is that of a rule that fires (at or before it), never the default |
| Language.UnderstandIntent | src/core/language.py:48-99 | never answers CROP_ADVISORY_GENERAL; UNKNOWN carries no entities; the symptoms or query_text entity is the whole text for a disease or general-question intent; a crop entity is one of the three crops and occurs only with the water, fertilizer, disease, price and sell intents; a water question that names wheat carries the wheat entity; the topic entity is "seed", and it is present exactly when the intent is GENERAL_QNA and the text names "बीज" or "seed" (the seed rule, never the question-word fallback) |
| Language.UnderstandIntentFollowsTable | src/core/language.py:61-95 | the classified intent is the outcome of the first rule of the water, fertilizer, disease, loan, insurance, price, sell, weather, seed, question-word table that fires, UNKNOWN when none does |
| Language.MiddleRulesFollowTable | src/core/language.py:72-75 | the same agreement, for a text that none of the first three rules matches |
| Language.LaterRulesFollowTable | src/core/language.py:76-84 | the same agreement, for a text that none of the first five rules matches |
| Language.LastRulesFollowTable | src/core/language.py:85-95 | the same agreement, for a text that none of the first eight rules matches |
| Language.IntentPriority | src/core/language.py:61-95 | when rule k fires and no earlier rule does, the intent is rule k's |
| Language.UnknownIffNoRuleFires | src/core/language.py:56-97 | UNKNOWN is answered exactly when no rule fires, the question-word fallback included |
| Language.SpeechToText | src/core/language.py:6-31 | the transcript is never empty; it is the default utterance or one of the five keyword transcripts |
| Language.SpeechToTextFollowsTable | src/core/language.py:17-28 | the transcript is the outcome of the first keyword rule on the lowered reference that fires, the default utterance when none does |
| Disease.FindingFollowsTable | src/core/disease_detection.py:103-115 | the finding is that of the first of the yellowing, powder, rust and insect rules that fires, undetermined when none does |
| Disease.VerdictsNonEmpty | src/core/disease_detection.py:99-115 | every outcome has a non-empty diagnosis and a non-empty advice text |
| Disease.DiagnosisFollowsTable | src/core/disease_detection.py:91-119 | the result is the verdict of the first symptom rule that fires, both texts non-empty, whatever the crop and the location |
| Disease.OrangePowderIsMildew | src/core/disease_detection.py:107-112 | a description with "नारंगी पाउडर" and no yellowing keyword is diagnosed as powdery mildew, because it also contains "पाउडर" |
| Disease.OrangePowderNeverRust | src/core/disease_detection.py:110-112 | the rust rule's "नारंगी पाउडर" keyword never yields the rust diagnosis |
| Advisory.ChooseFromWindows | src/core/advisory.py:82-92 | a scan started after the earlier stages' end selects the stage whose window holds the day count, or past harvest exactly when the count exceeds the season |
| Advisory.ChooseStageWindows | src/core/advisory.py:79-92 | stage windows are contiguous with inclusive upper ends: no stage exactly for a negative count, stage k exactly when the count lies in its window, past harvest exactly when the count exceeds the total duration |
| Advisory.WeatherCaveat | src/core/advisory.py:96-101 | the caveat is empty exactly when the outlook is normal or the advice does not mention irrigation; otherwise it is the rain caveat or the dry-spell caveat according to the outlook |
| Advisory.CropAdvice | src/core/advisory.py:48-106 | an unknown crop gets the default text under the "Unknown" stage; a known crop's advice starts with the crop and stage prefix of the stage it reports |
| Advisory.ScanStages | src/core/advisory.py:79-92 | the accumulating loop over the stages yields the stage name and text that the window-based stage selection gives |
| Advisory.GetCropAdvice | src/core/advisory.py:40-106 | the handler returns the advice of the day count taken from the sowing date, or from the early or late guess in or out of a sowing month |
| Advisory.SeasonLengths | src/core/advisory.py:9-38 | the calendar's seasons last 120 days for wheat, 110 for pearl millet and 130 for paddy |
| Advisory.WheatStageBoundaries | src/core/advisory.py:79-92 | day 0 and day 15 are germination, day 16 tillering, day 120 still maturity, day 121 past harvest |
| Advisory.GuessedDaysSelectStage | src/core/advisory.py:68-92 | without a sowing date, the guessed day count always names a real growth stage of a known crop, never "Unknown" or the harvest text |
| Advisory.FutureSowingKeepsDefault | src/core/advisory.py:48-103 | a sowing date in the future keeps the default text under the "Unknown" stage, with no weather caveat |
| Advisory.DefaultAdviceSkipsIrrigation | src/core/advisory.py:48-49 | the default text of a calendar crop does not mention irrigation, so it never draws a caveat |
| Advisory.GeneralQnaAnswer | src/core/advisory.py:109-131 | the answer is never empty; for a seed question and a named crop it starts with the crop |
| Advisory.GeneralQnaFollowsTable | src/core/advisory.py:116-128 | the topic is the first of the seed, pesticide/weed, weather and soil-test rules that fires, and the answer is that topic's text |
| Finance.LendersDistinct | src/core/finance.py:30 | the three lenders are different institutions |
| Finance.PickedLenders | src/core/finance.py:30 | a sample without replacement names distinct lenders from the list |
| Finance.EligibleMessageNamesLenders | src/core/finance.py:31-32 | the eligible message starts with its fixed opening, states the amount with thousands separators and names every suggested lender |
| Finance.EligibleAmountBounds | src/core/finance.py:25-28 | more than half an acre at 8000 to 15000 per acre, capped at 150000 and truncated, gives between 4000 and 150000 |
| Finance.EligibleResult | src/core/finance.py:25-32 | an eligible farmer's amount is `int(min(land * rate, 150000))`, between 4000 and 150000; the lenders are the drawn ones; the message opens with the fixed text, states the amount and names every lender |
| Finance.CheckLoanEligibility | src/core/finance.py:4-45 | eligible exactly when the land (0 if missing) exceeds half an acre and the crop is known; then the amount is `int(min(land * rate, 150000))`, between 4000 and 150000, the lenders are the one or two distinct drawn ones, and the message states the amount and names each lender; otherwise the amount is 0, no lender is named and the message says whether the land is too small or the information is missing |
| Finance.GetInsuranceInfo | src/core/finance.py:48-67 | always the PMFBY scheme; the text starts with "<crop> के लिए" and names the scheme |
| Market.MandisDistinct | src/core/market.py:20 | the four mandis have distinct names |
| Market.BasePrice | src/core/market.py:24 | a crop's base price lies between 1850 and 4500, 2000 for a crop outside the table |
| Market.VariationIsTenth | src/core/market.py:25 | the price spread is a tenth of the base, rounded down |
| Market.ClampPrice | src/core/market.py:30 | a price is at least 500, and is the drawn price unless that is below 500 |
| Market.PricesText | src/core/market.py:15-35 | the unavailable text exactly when there are no prices; otherwise the opening followed by every mandi's line |
| Market.MarketPrices | src/core/market.py:20-37 | one price per sampled mandi, in sample order, each at least 500, with distinct mandi names, and the spoken text of those prices |
| Market.MarketPricesWithinSpread | src/core/market.py:24-31 | with offsets drawn within the spread, the floor never binds: each price is the base plus its offset, within a tenth of the base |
| Market.GetMarketPrices | src/core/market.py:7-39 | the handler's loop appends one price per sampled mandi and returns the prices and text above |
| Market.PredictedPrice | src/core/market.py:66-67 | the predicted price is never below 500 |
| Market.GetPriceForecast | src/core/market.py:42-83 | the forecast is the wording of the trend's direction around a predicted price of at least 500; that price is the first sampled mandi's price when the trend is 0, and over a non-negative horizon at least it when rising and at most it when falling |
| Market.ForecastAgreesWithMovement | src/core/market.py:65-74 | a rising forecast names at least the base, a falling one at most the base, a steady one exactly the base; of the five trends only 0 reads as steady |
| Market.ForecastBaseAboveFloor | src/core/market.py:59-63 | the forecast's base is always a price of at least 500 |
| Market.FindBuyers | src/core/market.py:86-122 | name and contact come from the same chosen buyer; the message opens with the quantity and the crop, and ends with the SMS clause for a number or with the visit instruction for the government centre |
| Market.BuyerMessageShape | src/core/market.py:112-117 | a buyer message opens with the quantity and crop and ends with the SMS clause or the visit instruction |
| Market.OnlyGovernmentCentreIsDirect | src/core/market.py:100-105 | only the government purchase centre says to visit; every known buyer has a contact |
| Weather.ForecastDay | src/core/weather.py:27-43 | one loop step builds the day's entry from its draw and its spoken part under the day's label |
| Weather.GetWeatherForecast | src/core/weather.py:7-53 | the loop builds the day-by-day entries and the joined text of the forecast for the draws |
| Weather.ForecastShape | src/core/weather.py:20-45 | one entry per requested day, dated today onwards in increasing order; each day's precipitation belongs to its condition; each maximum exceeds its minimum; with no day the text is the bare heading |
| Weather.PrecipitationPercents | src/core/weather.py:20-21 | the six conditions rain with 5, 10, 20, 40, 60 and 75 percent, rising with severity |
| Telephony.NormalizeWhatsapp | src/integrations/telephony.py:64-65 | the address always starts with the WhatsApp prefix, which is added only when missing |
| Telephony.NormalizeIdempotent | src/integrations/telephony.py:64-65 | normalising twice is normalising once |
| Telephony.SendSms | src/integrations/telephony.py:24-54 | reports success exactly when the gateway is configured and the provider accepts the message |
| Telephony.SendWhatsappMessage | src/integrations/telephony.py:57-95 | sends to the normalised address; reports success exactly when the gateway is configured and the provider accepts the message |
| Telephony.NothingSentAsLoaded | src/integrations/telephony.py:9-21 | with the configuration as loaded (no client is ever created), no SMS or WhatsApp message is ever reported as sent |
| Routes.Fetched | src/api/routes.py:19-40 | the returned record carries the fresh interaction time; an unknown caller gets the default record; a known caller's record is otherwise unchanged |
| Routes.FetchIdempotent | src/api/routes.py:19-40 | a second lookup returns the first record with only the time changed; the keys stay and no other caller's record changes |
| Routes.ApplyFacts | src/api/routes.py:47 | a merge update is idempotent; the handlers' update changes only the last query; an empty update changes nothing |
| Routes.Updated | src/api/routes.py:42-49 | the keys stay; no other caller's record changes; a known caller's record gets the merge; an unknown caller is ignored |
| Routes.CallbackUrl | src/api/routes.py:98 | the callback address ends with the handle-query path |
| Routes.UtteranceEmptyIff | src/api/routes.py:156-163 | the caller is re-prompted exactly when neither text nor a recording came |
| Routes.RoutingTable | src/api/routes.py:192-230 | the three advisory intents share the advice branch, every other intent has its own branch, and only UNKNOWN gets the clarification |
| Routes.BranchOutcomeFacts | src/api/routes.py:189-234 | a raising handler yields the fixed error text and sends nothing; at most one gateway call, only from buyer linkage, an SMS to the caller; UNKNOWN gets the clarification |
| Routes.LinkageOutcomeSendsSms | src/api/routes.py:211-220 | buyer linkage texts the buyer's contact to the caller once and always says so in the reply |
| Routes.LinkageAlwaysSendsSms | src/api/routes.py:211-220 | the routed linkage branch sends exactly one SMS; its reply opens with the buyer message and ends with the SMS clause |
| Routes.MarketReplyShape | src/api/routes.py:207-210 | the market reply is the price text, a space and the forecast; the price text is never the unavailable text |
| Routes.ImageTakesPrecedence | src/api/routes.py:286-337 | the reply to an image message does not depend on the text; a media URL without a type counts as a JPEG image |
| Routes.Router.constructor | src/api/routes.py:12 | the store starts empty and nothing has been sent |
| Routes.Router.GetFarmerContext | src/api/routes.py:19-40 | the clock advances once; the caller's entry is created or touched and no other entry changes |
| Routes.Router.UpdateFarmerContext | src/api/routes.py:42-49 | the store becomes the merge-updated store |
| Routes.Router.IvrWelcome | src/api/routes.py:58-121 | a request without caller id is refused and leaves the store alone; otherwise the session is fetched and the welcome is spoken in its language with the callback and the 5-second timeout |
| Routes.Router.Dispatch | src/api/routes.py:189-234 | the reply and the gateway calls are those of the routed branch |
| Routes.Router.DispatchMarketAndInfo | src/api/routes.py:207-230 | the same for the market, linkage, weather, question and clarification branches |
| Routes.Router.DispatchInfo | src/api/routes.py:221-230 | the weather, question and clarification branches reply without calling the gateway |
| Routes.Router.WeatherReport | src/api/routes.py:221-223 | the weather branch speaks the three-day forecast |
| Routes.Router.PricesReply | src/api/routes.py:207-210 | the market branch speaks the prices and the week's forecast |
| Routes.Router.LinkageReply | src/api/routes.py:211-220 | the linkage branch's reply and SMS are those of the linkage outcome |
| Routes.Router.HandleQuery | src/api/routes.py:124-253 | no caller id: refused, nothing changes; no utterance: the session is touched and the caller is re-prompted; otherwise the query is recorded as the last query, classified, routed, and the branch's reply is spoken before hanging up, with exactly the branch's gateway calls |
| Routes.Router.HandleWhatsappMessage | src/api/routes.py:264-345 | a non-JSON body or a missing sender is refused and nothing changes; otherwise the session is fetched, a text message is recorded as the last query, and the reply is returned and sent by WhatsApp exactly once |
| Routes.Router.AnswerSender | src/api/routes.py:296-345 | for a known sender: the session fetch, the last-query update on the text path only, the reply, and one WhatsApp delivery |

## Left out

- HTTP transport: Flask routing, JSON parsing and status codes are records here (`IvrBadRequest`, `WhatsappBadRequest`). The outer `except` handlers that answer 500 are not modelled, because no modelled step raises.
- src/core/language.py:33-46 `text_to_speech`: it returns a reference made from a salted hash of its input, and the handlers never call it.
- src/core/disease_detection.py:30-89 `detect_disease_from_image`: its random verdict and the media download become the `imageResult` parameter of the WhatsApp handler. `None` stands for an analysis that raised.
- src/integrations/external_apis.py, src/utils/helpers.py, src/utils/logger.py, src/config.py and src/app.py are not part of this model. All logging is left out, and the configured default language is a constructor parameter of `Routes.Router`.
- Randomness: every `random.randint`, `choice`, `sample` and `uniform` draw is a parameter constrained to its range. Nothing about their distribution is modelled.
- Dates: the sowing date is a day number (`Option<int>`, `None` for a missing or unparsable date), and `strptime` is not modelled. The weather's `strftime` labels are a `dateText` parameter.
- Floats: land size and the forecast trend are `real`. `int()` is truncation toward zero (`Text.Trunc`). `{:.0f}` on the six precipitation percentages is rendered as the whole number, which the exact values give.
- Text.Lower: only ASCII capitals are lowered. Python's full Unicode `str.lower` is not modelled, so non-ASCII capitals that lower to ASCII letters are missed: "MANDİ" (with U+0130) lowers to a text containing "mandi" in the source, which answers MARKET_PRICE_QUERY, while `Language.UnderstandIntent` answers UNKNOWN for it.
- Routes.Router: concurrency between requests and the aliasing of the session dictionary are not modelled. The session record holds exactly the keys the handlers write.
- Routes.ResolveCrop: the `"गेहूं"` fallback for a missing `current_crop` and the `"Bundelkhand"` fallback for a missing location are not modelled, because every stored record has both keys.
- Routes.Router.Dispatch: `branchRaises` stands for a handler that raises before it produces a reply. A handler raising after the SMS was sent is not modelled, since no modelled handler can raise.
- Routes.LinkageOutcome: the quantity is always 10, because `typical_yield_quintals` is never stored in a session.
- Market.GetPriceForecast: the `except` branch, which answers "मूल्य पूर्वानुमान गणना में त्रुटि हुई।", is not modelled because nothing in its `try` block can raise.
- Weather.GetWeatherForecast: the `except` branch, which answers "मौसम पूर्वानुमान प्राप्त करने में त्रुटि हुई।" with the entries built so far, is not modelled. It is reached only when a day count carries `date.today() + timedelta(days=i)` past the year 9999, about 2.9 million days; `Weather.Forecast` accepts any day count and keeps producing days there. The handlers ask for 3 days.
- The `language_code` parameters of the language functions are ignored by the source and are left out.
