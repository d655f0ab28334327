/** The per-caller session store and the request handlers of the voice
    (IVR) and WhatsApp channels (src/api/routes.py). One `Router` object holds
    the process-wide session map, a clock that stands for the wall clock read
    on every session access, and the log of calls into the delivery gateway.
    Requests and responses are records rather than HTTP messages. */
module Routes {
  import opened Text
  import Language
  import Advisory
  import Disease
  import Finance
  import Market
  import Weather
  import Telephony

  /** A caller's session record. `sowingDate` is the sowing day number when
      a valid date is recorded; `lastInteractionTime` is a clock reading. */
  datatype Session = Session(id: string, language: string, location: string, currentCrop: string,
                             landSizeAcres: real, sowingDate: Option<int>, lastInteractionTime: nat,
                             lastQuery: Option<string>)

  const DefaultLocation := "Unknown"
  const DefaultCrop := "गेहूं"
  const DefaultLandSize: real := 2.0

  /** The record created for a caller seen for the first time. */
  function NewSession(callerId: string, language: string, now: nat): Session
  {
    Session(callerId, language, DefaultLocation, DefaultCrop, DefaultLandSize, None, now, None)
  }

  /** The record a session lookup returns: the stored one with a fresh
      interaction time, or a new one. */
  function Fetched(db: map<string, Session>, callerId: string, language: string, now: nat): (s: Session)
    ensures s.lastInteractionTime == now
    ensures callerId !in db ==> s == NewSession(callerId, language, now)
    ensures callerId in db ==> s.(lastInteractionTime := 0) == db[callerId].(lastInteractionTime := 0)
  {
    if callerId in db then db[callerId].(lastInteractionTime := now) else NewSession(callerId, language, now)
  }

  /** Looking a caller up twice gives the same record apart from the
      interaction time, and no other caller's record changes. */
  lemma FetchIdempotent(db: map<string, Session>, callerId: string, language: string, t1: nat, t2: nat)
    ensures var s1 := Fetched(db, callerId, language, t1);
            var db1 := db[callerId := s1];
            var s2 := Fetched(db1, callerId, language, t2);
            s2 == s1.(lastInteractionTime := t2)
            && db1[callerId := s2].Keys == db1.Keys
            && forall other :: other in db && other != callerId ==> db1[callerId := s2][other] == db[other]
  {
  }

  /** The keys a session update writes: each field is either left alone
      (`None`) or given a new value. */
  datatype SessionUpdate = SessionUpdate(id: Option<string>, language: Option<string>, location: Option<string>,
                                         currentCrop: Option<string>, landSizeAcres: Option<real>,
                                         sowingDate: Option<Option<int>>, lastInteractionTime: Option<nat>,
                                         lastQuery: Option<Option<string>>)

  function Pick<T>(given: Option<T>, current: T): T
  {
    if given.Some? then given.value else current
  }

  /** `dict.update`: the given keys are overwritten, every other key is kept. */
  function Apply(s: Session, u: SessionUpdate): Session
  {
    Session(Pick(u.id, s.id), Pick(u.language, s.language), Pick(u.location, s.location),
            Pick(u.currentCrop, s.currentCrop), Pick(u.landSizeAcres, s.landSizeAcres),
            Pick(u.sowingDate, s.sowingDate), Pick(u.lastInteractionTime, s.lastInteractionTime),
            Pick(u.lastQuery, s.lastQuery))
  }

  /** The update the voice and WhatsApp handlers make: the last query only. */
  function LastQueryUpdate(q: string): SessionUpdate
  {
    SessionUpdate(None, None, None, None, None, None, None, Some(Some(q)))
  }

  /** Applying an update twice is applying it once, and the handlers' update
      changes the last query and nothing else. */
  lemma ApplyFacts(s: Session, u: SessionUpdate, q: string)
    ensures Apply(Apply(s, u), u) == Apply(s, u)
    ensures Apply(s, LastQueryUpdate(q)) == s.(lastQuery := Some(q))
    ensures Apply(s, SessionUpdate(None, None, None, None, None, None, None, None)) == s
  {
  }

  /** The store after an update: only a known caller's record changes. */
  function Updated(db: map<string, Session>, callerId: string, u: SessionUpdate): (r: map<string, Session>)
    ensures r.Keys == db.Keys
    ensures forall other :: other in db && other != callerId ==> r[other] == db[other]
    ensures callerId in db ==> r[callerId] == Apply(db[callerId], u)
  {
    if callerId in db then db[callerId := Apply(db[callerId], u)] else db
  }

  /** Python's truthiness of an optional request field. */
  predicate Truthy(field: Option<string>)
  {
    field.Some? && field.value != ""
  }

  datatype Action = SpeakAndListen | SpeakAndHangup

  /** A voice-channel response: an instruction for the IVR, or a 400 error. */
  datatype IvrResponse =
    | Speak(action: Action, text: string, language: string, callbackUrl: Option<string>, speechTimeout: Option<int>)
    | IvrBadRequest(error: string)

  const MissingCaller := "Missing caller_id"
  const WelcomeText := "कृषि साथी में आपका स्वागत है। आप क्या जानना चाहते हैं? फसल सलाह, मंडी भाव, या कुछ और?"
  const RepromptText := "मुझे आपकी बात समझ नहीं आई। कृपया फिर से कहें।"
  const DefaultResponse := "माफ़ कीजिए, मैं अभी इस बारे में सहायता नहीं कर सकता।"
  const PhotoHint := " सटीक निदान के लिए, आप व्हाट्सएप पर फसल की फोटो भेज सकते हैं।"
  const SmsSentClause := " खरीदार का संपर्क विवरण आपके मोबाइल पर SMS कर दिया गया है।"
  const ClarificationText := "आपकी बात पूरी तरह समझ नहीं आई। क्या आप फसल सलाह, मंडी भाव, लोन या मौसम के बारे में पूछ रहे हैं?"
  const ErrorText := "जानकारी प्राप्त करने में एक समस्या हुई है। कृपया बाद में प्रयास करें।"
  const HandleQueryPath := "/api/ivr/handle-query"
  const SpeechTimeout := 5
  const DefaultQuantity := 10

  /** The callback the IVR calls with the caller's speech. */
  function CallbackUrl(hostUrl: string): (r: string)
    ensures EndsWith(r, HandleQueryPath)
  {
    EndsWithConcat(RStrip(hostUrl, '/'), HandleQueryPath);
    RStrip(hostUrl, '/') + HandleQueryPath
  }

  /** The request fields of a voice callback: caller id, the recognised text
      if the IVR transcribed it, and a recording to transcribe otherwise. */
  datatype IvrRequest = IvrRequest(callerId: Option<string>, spokenText: Option<string>, audioUrl: Option<string>)

  /** The caller's utterance: the given text, or the transcription of the
      recording when no text was given; empty when there is neither. */
  function Utterance(req: IvrRequest): string
  {
    var spoken := if req.spokenText.Some? then req.spokenText.value else "";
    if spoken == "" && Truthy(req.audioUrl) then Language.SpeechToText("simulated_audio_from_" + req.audioUrl.value)
    else spoken
  }

  /** A recording is transcribed to a non-empty text, so the caller is only
      asked again when neither text nor a recording came. */
  lemma UtteranceEmptyIff(req: IvrRequest)
    ensures Utterance(req) == "" <==> !Truthy(req.spokenText) && !Truthy(req.audioUrl)
  {
  }

  /** The crop a query is about: the one named in the utterance, else the
      session's current crop. */
  function ResolveCrop(entities: map<string, string>, session: Session): string
  {
    if Language.CropKey in entities then entities[Language.CropKey] else session.currentCrop
  }

  /** The handler branch of each intent. */
  datatype Branch = AdviceBranch | DiagnosisBranch | LoanBranch | InsuranceBranch | PricesBranch
                  | LinkageBranch | WeatherBranch | QnaBranch | ClarifyBranch

  function RouteOf(intent: Language.Intent): Branch
  {
    match intent
    case CropAdvisoryWater => AdviceBranch
    case CropAdvisoryFertilizer => AdviceBranch
    case CropAdvisoryGeneral => AdviceBranch
    case DiseaseQuerySymptoms => DiagnosisBranch
    case FinanceLoanRequest => LoanBranch
    case FinanceInsuranceQuery => InsuranceBranch
    case MarketPriceQuery => PricesBranch
    case MarketLinkageRequest => LinkageBranch
    case WeatherQuery => WeatherBranch
    case GeneralQna => QnaBranch
    case Unknown => ClarifyBranch
  }

  /** The routing table: the three crop-advisory intents share the advice
      branch, every other intent has a branch of its own, and only the
      unknown intent gets the clarification. */
  lemma RoutingTable(i: Language.Intent, j: Language.Intent)
    ensures RouteOf(i) == AdviceBranch <==>
              i in {Language.CropAdvisoryWater, Language.CropAdvisoryFertilizer, Language.CropAdvisoryGeneral}
    ensures RouteOf(i) == ClarifyBranch <==> i == Language.Unknown
    ensures RouteOf(i) == RouteOf(j) && RouteOf(i) != AdviceBranch ==> i == j
  {
  }

  /** Every simulated draw a voice query may consume, and whether the chosen
      handler raises. */
  datatype Draws = Draws(earlyGuess: int, lateGuess: int, outlook: Advisory.Outlook,
                         rate: int, lenderPicks: seq<nat>,
                         mandiPicks: seq<nat>, deltas: seq<int>,
                         forecastPicks: seq<nat>, forecastDeltas: seq<int>, trend: real,
                         buyerPick: nat,
                         baseMin: int, spread: int, weatherDraws: seq<Weather.DayDraw>, dateText: nat -> string,
                         smsError: bool, branchRaises: bool)

  predicate DeltasFit(picks: seq<nat>, deltas: seq<int>, crop: string)
  {
    1 <= |picks| <= 3 && DistinctIndices(picks, |Market.Mandis|) && |deltas| == |picks|
    && forall i :: 0 <= i < |deltas| ==>
         -Market.PriceVariation(Market.BasePrice(crop)) <= deltas[i] <= Market.PriceVariation(Market.BasePrice(crop))
  }

  /** Each draw lies in its range; the price offsets depend on the crop. */
  predicate DrawsFit(d: Draws, crop: string)
  {
    5 <= d.earlyGuess <= 25 && 30 <= d.lateGuess <= 90
    && 8000 <= d.rate <= 15000 && 1 <= |d.lenderPicks| <= 2 && DistinctIndices(d.lenderPicks, |Finance.Lenders|)
    && DeltasFit(d.mandiPicks, d.deltas, crop) && DeltasFit(d.forecastPicks, d.forecastDeltas, crop)
    && d.trend in Market.Trends
    && d.buyerPick < |Market.BuyersDb|
    && 15 <= d.baseMin <= 25 && 5 <= d.spread <= 12 && |d.weatherDraws| == Weather.DefaultDays
    && forall i :: 0 <= i < |d.weatherDraws| ==> Weather.ValidDraw(d.weatherDraws[i])
  }

  /** Days since sowing: elapsed days from the recorded sowing day to `today`. */
  function SowingElapsed(session: Session, today: int): Option<int>
  {
    if session.sowingDate.Some? then Some(today - session.sowingDate.value) else None
  }

  function NameText(name: Option<string>): string
  {
    if name.Some? then name.value else "None"
  }

  /** The buyer's contact as sent by SMS. */
  function SmsText(crop: string, b: Market.BuyerResult): string
    requires b.contact.Some?
  {
    "कृषि साथी: " + crop + " खरीदार - " + NameText(b.name) + ", संपर्क: " + b.contact.value
  }

  /** What a branch produces: the reply text and the gateway calls it made. */
  datatype Outcome = Outcome(text: string, sent: seq<Telephony.Delivery>)

  /** The advice branch: the advice of the session's sowing date and the
      resolved crop. */
  function AdviceReply(crop: string, session: Session, today: int, currentMonth: int, d: Draws): string
    requires 5 <= d.earlyGuess <= 25 && 30 <= d.lateGuess <= 90
  {
    Advisory.CropAdvice(crop, SowingElapsed(session, today), currentMonth, d.earlyGuess, d.lateGuess, d.outlook).advice
  }

  /** The diagnosis branch: the named symptoms, else the whole utterance,
      diagnosed, with the hint to send a photo. */
  function DiagnosisReply(entities: map<string, string>, spokenText: string, crop: string, location: string): string
  {
    var symptoms := if Language.SymptomsKey in entities then entities[Language.SymptomsKey] else spokenText;
    var r := Disease.DiagnoseFromSymptoms(symptoms, crop, location);
    r.diagnosis + " " + r.advice + PhotoHint
  }

  /** The loan branch judges the session's land and crop. */
  function LoanReply(session: Session, d: Draws): string
    requires 8000 <= d.rate <= 15000 && 1 <= |d.lenderPicks| <= 2 && DistinctIndices(d.lenderPicks, |Finance.Lenders|)
  {
    Finance.CheckLoanEligibility(Some(session.landSizeAcres), Some(session.currentCrop), d.rate, d.lenderPicks).message
  }

  /** The market branch: the current prices, then the week's forecast. */
  function PricesReplyText(crop: string, location: string, d: Draws): string
    requires DeltasFit(d.mandiPicks, d.deltas, crop) && DeltasFit(d.forecastPicks, d.forecastDeltas, crop)
    requires d.trend in Market.Trends
  {
    Market.MarketPrices(crop, d.mandiPicks, d.deltas).pricesText + " "
    + Market.GetPriceForecast(crop, location, d.forecastPicks, d.forecastDeltas, d.trend, 7)
  }

  /** The linkage branch: a buyer for the default quantity, whose contact is
      texted to the caller when there is one. */
  function LinkageOutcome(crop: string, location: string, session: Session, d: Draws, config: Telephony.Config)
    : Outcome
    requires d.buyerPick < |Market.BuyersDb|
  {
    var b := Market.FindBuyers(crop, location, DefaultQuantity, d.buyerPick);
    if Truthy(b.contact) then
      Outcome(b.message + SmsSentClause, [Telephony.SendSms(config, session.id, SmsText(crop, b), d.smsError)])
    else Outcome(b.message, [])
  }

  /** The weather branch: the three-day forecast at the session's location. */
  function WeatherReply(d: Draws): string
    requires 15 <= d.baseMin <= 25 && 5 <= d.spread <= 12 && |d.weatherDraws| == Weather.DefaultDays
    requires forall i :: 0 <= i < |d.weatherDraws| ==> Weather.ValidDraw(d.weatherDraws[i])
  {
    Weather.Forecast(Weather.DefaultDays, d.baseMin, d.baseMin + d.spread, d.weatherDraws, d.dateText).forecast
  }

  /** The question branch: the named query, else the whole utterance. */
  function QnaReply(entities: map<string, string>, spokenText: string, crop: string, location: string): string
  {
    var query := if Language.QueryTextKey in entities then entities[Language.QueryTextKey] else spokenText;
    Advisory.GeneralQnaAnswer(query, crop, location)
  }

  /** The reply of the routed branch for a classified utterance. */
  function BranchOutcome(intent: Language.Intent, entities: map<string, string>, spokenText: string, crop: string,
                         location: string, session: Session, today: int, currentMonth: int, d: Draws,
                         config: Telephony.Config): Outcome
    requires DrawsFit(d, crop)
  {
    if d.branchRaises then Outcome(ErrorText, [])
    else match RouteOf(intent)
      case AdviceBranch => Outcome(AdviceReply(crop, session, today, currentMonth, d), [])
      case DiagnosisBranch => Outcome(DiagnosisReply(entities, spokenText, crop, location), [])
      case LoanBranch => Outcome(LoanReply(session, d), [])
      case InsuranceBranch => Outcome(Finance.GetInsuranceInfo(crop, location).info, [])
      case PricesBranch => Outcome(PricesReplyText(crop, location, d), [])
      case LinkageBranch => LinkageOutcome(crop, location, session, d, config)
      case WeatherBranch => Outcome(WeatherReply(d), [])
      case QnaBranch => Outcome(QnaReply(entities, spokenText, crop, location), [])
      case ClarifyBranch => Outcome(ClarificationText, [])
  }

  /** A raising handler's reply is the fixed error text and nothing is sent;
      only the buyer-linkage branch calls the gateway, once; the unknown
      intent gets the clarification. */
  lemma BranchOutcomeFacts(intent: Language.Intent, entities: map<string, string>, spokenText: string, crop: string,
                           location: string, session: Session, today: int, currentMonth: int, d: Draws,
                           config: Telephony.Config)
    requires DrawsFit(d, crop)
    ensures var o := BranchOutcome(intent, entities, spokenText, crop, location, session, today, currentMonth, d, config);
            (d.branchRaises ==> o == Outcome(ErrorText, []))
            && |o.sent| <= 1
            && (o.sent != [] ==> RouteOf(intent) == LinkageBranch && o.sent[0].channel == Telephony.Sms
                                 && o.sent[0].to == session.id)
            && (!d.branchRaises && intent == Language.Unknown ==> o.text == ClarificationText)
  {
  }

  /** The linkage outcome texts the buyer's contact by SMS (every known buyer
      has a contact) and says so, whether or not the gateway delivered it. */
  lemma LinkageOutcomeSendsSms(crop: string, location: string, session: Session, d: Draws, config: Telephony.Config)
    requires d.buyerPick < |Market.BuyersDb|
    ensures var o := LinkageOutcome(crop, location, session, d, config);
            |o.sent| == 1 && EndsWith(o.text, SmsSentClause)
            && StartsWith(o.text, Market.BuyerOpening(crop, DefaultQuantity))
  {
    var b := Market.FindBuyers(crop, location, DefaultQuantity, d.buyerPick);
    Market.OnlyGovernmentCentreIsDirect(d.buyerPick);
    EndsWithConcat(b.message, SmsSentClause);
    assert (b.message + SmsSentClause)[..|Market.BuyerOpening(crop, DefaultQuantity)|]
        == b.message[..|Market.BuyerOpening(crop, DefaultQuantity)|];
  }

  /** Buyer linkage always sends the buyer's contact by SMS and always says
      so, whether or not the gateway delivered it. */
  lemma LinkageAlwaysSendsSms(entities: map<string, string>, spokenText: string, crop: string, location: string,
                              session: Session, today: int, currentMonth: int, d: Draws, config: Telephony.Config)
    requires DrawsFit(d, crop) && !d.branchRaises
    ensures var o := BranchOutcome(Language.MarketLinkageRequest, entities, spokenText, crop, location, session,
                                   today, currentMonth, d, config);
            |o.sent| == 1 && EndsWith(o.text, SmsSentClause)
            && StartsWith(o.text, Market.BuyerOpening(crop, DefaultQuantity))
  {
    LinkageOutcomeSendsSms(crop, location, session, d, config);
    assert BranchOutcome(Language.MarketLinkageRequest, entities, spokenText, crop, location, session,
                         today, currentMonth, d, config) == LinkageOutcome(crop, location, session, d, config);
  }

  /** The market reply is the price text, a space and the forecast text;
      the price text is never the unavailable text, as one to three mandis
      are always sampled. */
  lemma MarketReplyShape(entities: map<string, string>, spokenText: string, crop: string, location: string,
                         session: Session, today: int, currentMonth: int, d: Draws, config: Telephony.Config)
    requires DrawsFit(d, crop) && !d.branchRaises
    ensures var o := BranchOutcome(Language.MarketPriceQuery, entities, spokenText, crop, location, session,
                                   today, currentMonth, d, config);
            var prices := Market.MarketPrices(crop, d.mandiPicks, d.deltas).pricesText;
            o.text == prices + " " + Market.GetPriceForecast(crop, location, d.forecastPicks, d.forecastDeltas, d.trend, 7)
            && prices != Market.PricesUnavailable
            && StartsWith(o.text, Market.PricesOpening(crop))
  {
    var prices := Market.MarketPrices(crop, d.mandiPicks, d.deltas).pricesText;
    var rest := " " + Market.GetPriceForecast(crop, location, d.forecastPicks, d.forecastDeltas, d.trend, 7);
    assert (prices + rest)[..|Market.PricesOpening(crop)|] == prices[..|Market.PricesOpening(crop)|];
  }

  /** A WhatsApp request: not JSON at all, or its JSON fields. `mediaType` is
      `None` when the key is absent and `Some(None)` when it is null. */
  datatype WhatsappRequest =
    | NotJson
    | WhatsappJson(senderId: Option<string>, messageBody: Option<string>, mediaUrl: Option<string>,
                   mediaType: Option<Option<string>>)

  datatype WhatsappResponse = Received(replySimulated: string) | WhatsappBadRequest(error: string)

  const NotJsonError := "Request must be JSON"
  const MissingSender := "Missing sender_id"
  const WhatsappGreeting := "नमस्ते! फसल रोग निदान के लिए कृपया फोटो भेजें। अन्य जानकारी के लिए अपना सवाल लिखें।"
  const ImageErrorText := "क्षमा करें, छवि का विश्लेषण करने में एक त्रुटि हुई।"
  const DefaultMediaType := "image/jpeg"

  /** The media type: as sent, or image/jpeg when a media URL came without one. */
  function EffectiveMediaType(mediaUrl: Option<string>, mediaType: Option<Option<string>>): Option<string>
  {
    if mediaType.Some? then mediaType.value
    else if Truthy(mediaUrl) then Some(DefaultMediaType)
    else None
  }

  /** The image path is taken for a media URL whose type is an image type. */
  predicate IsImageMessage(mediaUrl: Option<string>, mediaType: Option<Option<string>>)
  {
    var t := EffectiveMediaType(mediaUrl, mediaType);
    Truthy(mediaUrl) && Truthy(t) && StartsWith(t.value, "image/")
  }

  /** The WhatsApp reply. `imageResult` is the image analysis, or `None`
      when the analysis raised. */
  function WhatsappReply(messageBody: Option<string>, mediaUrl: Option<string>, mediaType: Option<Option<string>>,
                         imageResult: Option<Disease.Diagnosis>): string
  {
    if IsImageMessage(mediaUrl, mediaType) then
      if imageResult.Some? then imageResult.value.diagnosis + "\nसलाह: " + imageResult.value.advice
      else ImageErrorText
    else if Truthy(messageBody) then
      "आपने लिखा: '" + messageBody.value + "'. रोग निदान के लिए फोटो भेजें या विशिष्ट सलाह के लिए कॉल करें।"
    else WhatsappGreeting
  }

  /** An image takes precedence over text: the reply to an image message
      does not depend on the text; a media URL without a type counts as a
      JPEG image. */
  lemma ImageTakesPrecedence(body1: Option<string>, body2: Option<string>, mediaUrl: Option<string>,
                             mediaType: Option<Option<string>>, imageResult: Option<Disease.Diagnosis>)
    ensures IsImageMessage(mediaUrl, mediaType) ==>
              WhatsappReply(body1, mediaUrl, mediaType, imageResult) == WhatsappReply(body2, mediaUrl, mediaType, imageResult)
    ensures Truthy(mediaUrl) && mediaType.None? ==> IsImageMessage(mediaUrl, mediaType)
  {
    if Truthy(mediaUrl) && mediaType.None? {
      assert DefaultMediaType[..6] == "image/";
    }
  }

  class Router {
    /** The session store, by caller id. */
    var db: map<string, Session>
    /** Wall-clock readings, one per session access. */
    var clock: nat
    /** Every call into the delivery gateway, in order. */
    var deliveries: seq<Telephony.Delivery>
    const config: Telephony.Config
    const defaultLanguage: string

    constructor(config: Telephony.Config, defaultLanguage: string)
      ensures db == map[] && clock == 0 && deliveries == []
      ensures this.config == config && this.defaultLanguage == defaultLanguage
    {
      db := map[];
      clock := 0;
      deliveries := [];
      this.config := config;
      this.defaultLanguage := defaultLanguage;
    }

    /** Get-or-create: a known caller's record gets a fresh interaction time,
        an unknown caller gets the default record; nothing else changes. */
    method GetFarmerContext(callerId: string) returns (s: Session)
      modifies this`db, this`clock
      ensures clock == old(clock) + 1
      ensures s == Fetched(old(db), callerId, defaultLanguage, clock)
      ensures db == old(db)[callerId := s]
    {
      clock := clock + 1;
      if callerId !in db {
        db := db[callerId := NewSession(callerId, defaultLanguage, clock)];
      } else {
        db := db[callerId := db[callerId].(lastInteractionTime := clock)];
      }
      s := db[callerId];
    }

    /** Merge-update a known caller's record; an unknown caller is ignored. */
    method UpdateFarmerContext(callerId: string, updates: SessionUpdate)
      modifies this`db
      ensures db == Updated(old(db), callerId, updates)
    {
      if callerId in db {
        db := db[callerId := Apply(db[callerId], updates)];
      }
    }

    /** A call's first request: greet the caller and listen, with the
        callback for the answer. */
    method IvrWelcome(callerId: Option<string>, hostUrl: string) returns (resp: IvrResponse)
      modifies this`db, this`clock
      ensures !Truthy(callerId) ==> resp == IvrBadRequest(MissingCaller) && db == old(db) && clock == old(clock)
      ensures Truthy(callerId) ==>
                var s := Fetched(old(db), callerId.value, defaultLanguage, clock);
                clock == old(clock) + 1 && db == old(db)[callerId.value := s]
                && resp == Speak(SpeakAndListen, WelcomeText, s.language, Some(CallbackUrl(hostUrl)), Some(SpeechTimeout))
    {
      if !Truthy(callerId) {
        return IvrBadRequest(MissingCaller);
      }
      var farmerContext := GetFarmerContext(callerId.value);
      var lang := farmerContext.language;
      resp := Speak(SpeakAndListen, WelcomeText, lang, Some(CallbackUrl(hostUrl)), Some(SpeechTimeout));
    }

    /** The crop the dispatcher will resolve for a request, read from the
        store before the request. */
    function ExpectedCrop(req: IvrRequest): string
      requires Truthy(req.callerId)
      reads this
    {
      var s := Fetched(db, req.callerId.value, defaultLanguage, clock + 1);
      ResolveCrop(Language.UnderstandIntent(Utterance(req)).entities, s)
    }

    /** Runs the branch routed for the intent; a raising handler's reply is
        replaced by the fixed error text. */
    method Dispatch(intent: Language.Intent, entities: map<string, string>, spokenText: string, crop: string,
                    location: string, farmerContext: Session, today: int, currentMonth: int, d: Draws)
      returns (responseText: string)
      modifies this`deliveries
      requires DrawsFit(d, crop)
      ensures var o := BranchOutcome(intent, entities, spokenText, crop, location, farmerContext, today, currentMonth,
                                     d, config);
              responseText == o.text && deliveries == old(deliveries) + o.sent
    {
      responseText := DefaultResponse;
      if d.branchRaises {
        responseText := ErrorText;
        return;
      }
      if intent == Language.CropAdvisoryWater || intent == Language.CropAdvisoryFertilizer
         || intent == Language.CropAdvisoryGeneral {
        assert RouteOf(intent) == AdviceBranch;
        var adviceResult := Advisory.GetCropAdvice(crop, location, SowingElapsed(farmerContext, today), currentMonth,
                                                   d.earlyGuess, d.lateGuess, d.outlook);
        responseText := adviceResult.advice;
      } else if intent == Language.DiseaseQuerySymptoms {
        assert RouteOf(intent) == DiagnosisBranch;
        var symptomText := if Language.SymptomsKey in entities then entities[Language.SymptomsKey] else spokenText;
        var diagnosisResult := Disease.DiagnoseFromSymptoms(symptomText, crop, location);
        responseText := diagnosisResult.diagnosis + " " + diagnosisResult.advice;
        responseText := responseText + PhotoHint;
      } else if intent == Language.FinanceLoanRequest {
        assert RouteOf(intent) == LoanBranch;
        var eligibilityResult := Finance.CheckLoanEligibility(Some(farmerContext.landSizeAcres),
                                                              Some(farmerContext.currentCrop), d.rate, d.lenderPicks);
        responseText := eligibilityResult.message;
      } else if intent == Language.FinanceInsuranceQuery {
        assert RouteOf(intent) == InsuranceBranch;
        var insuranceInfo := Finance.GetInsuranceInfo(crop, location);
        responseText := insuranceInfo.info;
      } else {
        responseText := DispatchMarketAndInfo(intent, entities, spokenText, crop, location, farmerContext, today,
                                              currentMonth, d);
      }
    }

    /** The rest of the dispatch chain: market prices and buyer linkage,
        then the informational branches. */
    method DispatchMarketAndInfo(intent: Language.Intent, entities: map<string, string>, spokenText: string,
                                 crop: string, location: string, farmerContext: Session, today: int,
                                 currentMonth: int, d: Draws)
      returns (responseText: string)
      modifies this`deliveries
      requires DrawsFit(d, crop) && !d.branchRaises
      requires RouteOf(intent) in {PricesBranch, LinkageBranch, WeatherBranch, QnaBranch, ClarifyBranch}
      ensures var o := BranchOutcome(intent, entities, spokenText, crop, location, farmerContext, today, currentMonth,
                                     d, config);
              responseText == o.text && deliveries == old(deliveries) + o.sent
    {
      if intent == Language.MarketPriceQuery {
        assert RouteOf(intent) == PricesBranch;
        responseText := PricesReply(crop, location, d);
      } else if intent == Language.MarketLinkageRequest {
        assert RouteOf(intent) == LinkageBranch;
        responseText := LinkageReply(crop, location, farmerContext, d);
      } else {
        responseText := DispatchInfo(intent, entities, spokenText, crop, location, farmerContext, today,
                                     currentMonth, d);
      }
    }

    /** The end of the dispatch chain: weather, general questions and the
        clarification; none of them calls the gateway. */
    method DispatchInfo(intent: Language.Intent, entities: map<string, string>, spokenText: string,
                        crop: string, location: string, farmerContext: Session, today: int,
                        currentMonth: int, d: Draws)
      returns (responseText: string)
      requires DrawsFit(d, crop) && !d.branchRaises
      requires RouteOf(intent) in {WeatherBranch, QnaBranch, ClarifyBranch}
      ensures var o := BranchOutcome(intent, entities, spokenText, crop, location, farmerContext, today, currentMonth,
                                     d, config);
              responseText == o.text && o.sent == []
    {
      if intent == Language.WeatherQuery {
        assert RouteOf(intent) == WeatherBranch;
        responseText := WeatherReport(location, d);
      } else if intent == Language.GeneralQna {
        assert RouteOf(intent) == QnaBranch;
        var query := if Language.QueryTextKey in entities then entities[Language.QueryTextKey] else spokenText;
        responseText := Advisory.GeneralQnaAnswer(query, crop, location);
      } else {
        assert RouteOf(intent) == ClarifyBranch;
        responseText := ClarificationText;
      }
    }

    /** The weather branch: the forecast for the default number of days. */
    method WeatherReport(location: string, d: Draws) returns (responseText: string)
      requires 15 <= d.baseMin <= 25 && 5 <= d.spread <= 12 && |d.weatherDraws| == Weather.DefaultDays
      requires forall i :: 0 <= i < |d.weatherDraws| ==> Weather.ValidDraw(d.weatherDraws[i])
      ensures responseText == WeatherReply(d)
    {
      var weatherInfo := Weather.GetWeatherForecast(location, Weather.DefaultDays, d.baseMin, d.spread,
                                                    d.weatherDraws, d.dateText);
      responseText := weatherInfo.forecast;
    }

    /** The market branch: the current prices, then the week's forecast. */
    method PricesReply(crop: string, location: string, d: Draws) returns (responseText: string)
      requires DeltasFit(d.mandiPicks, d.deltas, crop) && DeltasFit(d.forecastPicks, d.forecastDeltas, crop)
      requires d.trend in Market.Trends
      ensures responseText == PricesReplyText(crop, location, d)
    {
      var pricesResult := Market.GetMarketPrices(crop, location, d.mandiPicks, d.deltas);
      var forecastText := Market.GetPriceForecast(crop, location, d.forecastPicks, d.forecastDeltas, d.trend, 7);
      responseText := pricesResult.pricesText + " " + forecastText;
    }

    /** The buyer-linkage branch: find a buyer for the default quantity and,
        when the buyer has a contact, text it to the caller and say so. */
    method LinkageReply(crop: string, location: string, farmerContext: Session, d: Draws)
      returns (responseText: string)
      modifies this`deliveries
      requires d.buyerPick < |Market.BuyersDb|
      ensures var o := LinkageOutcome(crop, location, farmerContext, d, config);
              responseText == o.text && deliveries == old(deliveries) + o.sent
    {
      var quantity := DefaultQuantity;
      var buyerResult := Market.FindBuyers(crop, location, quantity, d.buyerPick);
      responseText := buyerResult.message;
      if Truthy(buyerResult.contact) {
        var smsText := SmsText(crop, buyerResult);
        var delivery := Telephony.SendSms(config, farmerContext.id, smsText, d.smsError);
        deliveries := deliveries + [delivery];
        responseText := responseText + SmsSentClause;
      }
    }

    /** The voice query pipeline: validate the caller, fetch the session,
        transcribe if needed, re-prompt when nothing was said; otherwise
        record the query, classify it, resolve crop and location, run the
        routed branch and hang up after speaking its reply. */
    method HandleQuery(req: IvrRequest, hostUrl: string, today: int, currentMonth: int, d: Draws)
      returns (resp: IvrResponse)
      modifies this`db, this`clock, this`deliveries
      requires Truthy(req.callerId) ==> DrawsFit(d, ExpectedCrop(req))
      ensures !Truthy(req.callerId) ==>
                resp == IvrBadRequest(MissingCaller) && db == old(db) && clock == old(clock)
                && deliveries == old(deliveries)
      ensures Truthy(req.callerId) && Utterance(req) == "" ==>
                var s := Fetched(old(db), req.callerId.value, defaultLanguage, clock);
                clock == old(clock) + 1 && db == old(db)[req.callerId.value := s] && deliveries == old(deliveries)
                && resp == Speak(SpeakAndListen, RepromptText, s.language, Some(CallbackUrl(hostUrl)), None)
      ensures Truthy(req.callerId) && Utterance(req) != "" ==>
                var s := Fetched(old(db), req.callerId.value, defaultLanguage, clock);
                var text := Utterance(req);
                var nlu := Language.UnderstandIntent(text);
                var crop := ResolveCrop(nlu.entities, s);
                DrawsFit(d, crop) &&
                var o := BranchOutcome(nlu.intent, nlu.entities, text, crop, s.location, s, today, currentMonth, d, config);
                clock == old(clock) + 1 && db == old(db)[req.callerId.value := s.(lastQuery := Some(text))]
                && resp == Speak(SpeakAndHangup, o.text, s.language, None, None)
                && deliveries == old(deliveries) + o.sent
    {
      if !Truthy(req.callerId) {
        return IvrBadRequest(MissingCaller);
      }
      var callerId := req.callerId.value;
      ghost var expectedCrop := ExpectedCrop(req);
      var farmerContext := GetFarmerContext(callerId);
      var lang := farmerContext.language;
      var spokenText := if req.spokenText.Some? then req.spokenText.value else "";
      if spokenText == "" && Truthy(req.audioUrl) {
        spokenText := Language.SpeechToText("simulated_audio_from_" + req.audioUrl.value);
      }
      assert spokenText == Utterance(req);
      if spokenText == "" {
        return Speak(SpeakAndListen, RepromptText, lang, Some(CallbackUrl(hostUrl)), None);
      }
      UpdateFarmerContext(callerId, LastQueryUpdate(spokenText));
      ApplyFacts(farmerContext, LastQueryUpdate(spokenText), spokenText);
      assert db == old(db)[callerId := farmerContext.(lastQuery := Some(spokenText))];
      var intentData := Language.UnderstandIntent(spokenText);
      var intent := intentData.intent;
      var entities := intentData.entities;
      var crop := ResolveCrop(entities, farmerContext);
      assert crop == expectedCrop;
      var location := farmerContext.location;
      var responseText := Dispatch(intent, entities, spokenText, crop, location, farmerContext, today, currentMonth, d);
      resp := Speak(SpeakAndHangup, responseText, lang, None, None);
    }

    /** The WhatsApp handler: validate the request, fetch the session, answer
        an image with its analysis, a text with an acknowledgement (recording
        it as the last query) and anything else with the greeting, and send
        the reply through the gateway exactly once. */
    method HandleWhatsappMessage(req: WhatsappRequest, imageResult: Option<Disease.Diagnosis>, sendError: bool)
      returns (resp: WhatsappResponse)
      modifies this`db, this`clock, this`deliveries
      ensures req.NotJson? ==>
                resp == WhatsappBadRequest(NotJsonError) && db == old(db) && clock == old(clock)
                && deliveries == old(deliveries)
      ensures req.WhatsappJson? && !Truthy(req.senderId) ==>
                resp == WhatsappBadRequest(MissingSender) && db == old(db) && clock == old(clock)
                && deliveries == old(deliveries)
      ensures req.WhatsappJson? && Truthy(req.senderId) ==>
                var s := Fetched(old(db), req.senderId.value, defaultLanguage, clock);
                var reply := WhatsappReply(req.messageBody, req.mediaUrl, req.mediaType, imageResult);
                var textPath := !IsImageMessage(req.mediaUrl, req.mediaType) && Truthy(req.messageBody);
                clock == old(clock) + 1
                && db == old(db)[req.senderId.value := if textPath then s.(lastQuery := req.messageBody) else s]
                && resp == Received(reply)
                && deliveries == old(deliveries) + [Telephony.SendWhatsappMessage(config, req.senderId.value, reply, sendError)]
    {
      if req.NotJson? {
        return WhatsappBadRequest(NotJsonError);
      }
      var senderId := req.senderId;
      if !Truthy(senderId) {
        return WhatsappBadRequest(MissingSender);
      }
      var responseText := AnswerSender(senderId.value, req.messageBody, req.mediaUrl, req.mediaType, imageResult,
                                       sendError);
      resp := Received(responseText);
    }

    /** The WhatsApp handler once the sender is known: fetch the session,
        compose the reply (recording a text message as the last query) and
        send it through the gateway. */
    method AnswerSender(senderId: string, messageBody: Option<string>, mediaUrl: Option<string>,
                        requestedType: Option<Option<string>>, imageResult: Option<Disease.Diagnosis>, sendError: bool)
      returns (responseText: string)
      modifies this`db, this`clock, this`deliveries
      ensures var s := Fetched(old(db), senderId, defaultLanguage, clock);
              var textPath := !IsImageMessage(mediaUrl, requestedType) && Truthy(messageBody);
              clock == old(clock) + 1
              && db == old(db)[senderId := if textPath then s.(lastQuery := messageBody) else s]
              && responseText == WhatsappReply(messageBody, mediaUrl, requestedType, imageResult)
              && deliveries == old(deliveries) + [Telephony.SendWhatsappMessage(config, senderId, responseText, sendError)]
    {
      var mediaType := EffectiveMediaType(mediaUrl, requestedType);
      var farmerContext := GetFarmerContext(senderId);
      ghost var reply := WhatsappReply(messageBody, mediaUrl, requestedType, imageResult);
      responseText := WhatsappGreeting;
      if Truthy(mediaUrl) && Truthy(mediaType) && StartsWith(mediaType.value, "image/") {
        assert IsImageMessage(mediaUrl, requestedType);
        if imageResult.Some? {
          responseText := imageResult.value.diagnosis + "\nसलाह: " + imageResult.value.advice;
        } else {
          responseText := ImageErrorText;
        }
        assert responseText == reply;
      } else if Truthy(messageBody) {
        assert !IsImageMessage(mediaUrl, requestedType);
        UpdateFarmerContext(senderId, LastQueryUpdate(messageBody.value));
        ApplyFacts(farmerContext, LastQueryUpdate(messageBody.value), messageBody.value);
        assert db == old(db)[senderId := farmerContext.(lastQuery := messageBody)];
        responseText := "आपने लिखा: '" + messageBody.value + "'. रोग निदान के लिए फोटो भेजें या विशिष्ट सलाह के लिए कॉल करें।";
        assert responseText == reply;
      } else {
        assert !IsImageMessage(mediaUrl, requestedType);
      }
      var delivery := Telephony.SendWhatsappMessage(config, senderId, responseText, sendError);
      deliveries := deliveries + [delivery];
    }
  }
}
