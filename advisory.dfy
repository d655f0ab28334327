/** Crop advice by growth stage, and rule-based answers to general questions
    (src/core/advisory.py). */
module Advisory {
  import opened Text
  import opened Rules

  datatype Stage = Stage(name: string, durationDays: nat, advice: string)

  /** A crop's sowing months and its ordered growth stages. */
  datatype CropPlan = CropPlan(sowingMonths: seq<int>, stages: seq<Stage>)

  /** The reference calendar: wheat, pearl millet and paddy. */
  const CropCalendar: map<string, CropPlan> := map[
    "गेहूं" := CropPlan([10, 11], [
      Stage("germination", 15, "अंकुरण का समय। हल्की सिंचाई करें यदि मिट्टी सूखी हो।"),
      Stage("tillering", 30, "कल्ले निकलने का समय। पहली नाइट्रोजन (यूरिया) डालें। सिंचाई आवश्यकतानुसार।"),
      Stage("jointing", 25, "पौधे की बढ़वार। सिंचाई का ध्यान रखें। खरपतवार नियंत्रण करें।"),
      Stage("heading", 20, "बालियाँ निकल रही हैं। पोटाश दे सकते हैं। पानी की कमी न होने दें।"),
      Stage("maturity", 30, "दाना पक रहा है। सिंचाई बंद करें। कटाई की तैयारी करें।")]),
    "बाजरा" := CropPlan([6, 7], [
      Stage("seedling", 20, "नर्सरी या सीधी बुवाई के बाद। हल्की सिंचाई।"),
      Stage("vegetative", 35, "बढ़वार का समय। नाइट्रोजन खाद दें। निराई-गुड़ाई करें।"),
      Stage("flowering", 25, "फूल आने का समय। सिंचाई महत्वपूर्ण है।"),
      Stage("grain_filling", 30, "दाना भरने का समय। नमी बनाए रखें। पक्षियों से बचाव करें।")]),
    "धान" := CropPlan([6, 7], [
      Stage("nursery", 25, "नर्सरी तैयार करें या सीधी बुवाई करें।"),
      Stage("transplanting/tillering", 40, "रोपाई के बाद कल्ले निकलने का समय। पानी का स्तर बनाए रखें। नाइट्रोजन दें।"),
      Stage("panicle_initiation", 30, "बालियाँ बनने की शुरुआत। पानी महत्वपूर्ण। पोटाश दें।"),
      Stage("flowering_maturity", 35, "फूल आने से पकने तक। खेत को धीरे-धीरे सुखाएं (कटाई से 10-15 दिन पहले)।")])
  ]

  /** The simulated weather outlook drawn for the caveat. */
  datatype Outlook = RainSoon | DrySpell | Normal

  datatype AdviceResult = AdviceResult(advice: string, stage: string)

  const UnknownStage := "Unknown"
  const HarvestStage := "Harvest/Post-Harvest"
  const Irrigation := "सिंचाई"
  const RainCaveat := " अगले 2-3 दिनों में बारिश की संभावना है, इसलिए सिंचाई अभी टाल सकते हैं।"
  const DryCaveat := " मौसम शुष्क रहने की संभावना है, सिंचाई का विशेष ध्यान दें।"

  function DefaultAdvice(crop: string): string
  {
    crop + " के लिए अभी कोई विशेष सलाह उपलब्ध नहीं है।"
  }

  function HarvestAdvice(crop: string): string
  {
    crop + " की फसल संभवतः कटाई के लिए तैयार है या कट चुकी है।"
  }

  function StagePrefix(crop: string, stage: string): string
  {
    "(" + crop + " - अवस्था: " + stage + ") "
  }

  /** Days covered by the first `n` stages: the end of stage `n - 1`'s window. */
  function Elapsed(stages: seq<Stage>, n: nat): nat
    requires n <= |stages|
  {
    if n == 0 then 0 else Elapsed(stages, n - 1) + stages[n - 1].durationDays
  }

  /** Stage `k`'s window: from just after the previous stage's end (from day 0
      for the first stage) up to and including its own cumulative end. */
  predicate InWindow(stages: seq<Stage>, days: int, k: nat)
    requires k < |stages|
  {
    (k == 0 || Elapsed(stages, k) < days) && days <= Elapsed(stages, k + 1)
  }

  /** Which stage a day count falls in. */
  datatype StageChoice = NoStage | AtStage(index: nat) | PastHarvest

  /** The first stage from `i` on whose cumulative end is at least `days`. */
  function ChooseFrom(stages: seq<Stage>, days: int, i: nat): StageChoice
    requires i <= |stages|
    decreases |stages| - i
  {
    if i == |stages| then PastHarvest
    else if days <= Elapsed(stages, i + 1) then AtStage(i)
    else ChooseFrom(stages, days, i + 1)
  }

  /** Stage selection: none for a negative day count, else the first stage
      whose cumulative end reaches the day count, else past harvest. */
  function ChooseStage(stages: seq<Stage>, days: int): StageChoice
  {
    if days < 0 then NoStage else ChooseFrom(stages, days, 0)
  }

  lemma {:induction false} ElapsedMonotone(stages: seq<Stage>, m: nat, n: nat)
    requires m <= n <= |stages|
    ensures Elapsed(stages, m) <= Elapsed(stages, n)
    decreases n - m
  {
    if m < n {
      ElapsedMonotone(stages, m, n - 1);
    }
  }

  lemma {:induction false} ChooseFromWindows(stages: seq<Stage>, days: int, i: nat)
    requires i <= |stages|
    requires i == 0 || Elapsed(stages, i) < days
    ensures ChooseFrom(stages, days, i) != NoStage
    ensures forall k: nat :: ChooseFrom(stages, days, i) == AtStage(k) <==> i <= k < |stages| && InWindow(stages, days, k)
    ensures ChooseFrom(stages, days, i) == PastHarvest <==> (|stages| == 0 || Elapsed(stages, |stages|) < days)
    decreases |stages| - i
  {
    if i < |stages| {
      if days <= Elapsed(stages, i + 1) {
        forall k | i < k < |stages|
          ensures !InWindow(stages, days, k)
        {
          ElapsedMonotone(stages, i + 1, k);
        }
        ElapsedMonotone(stages, i + 1, |stages|);
      } else {
        ChooseFromWindows(stages, days, i + 1);
      }
    }
  }

  /** Stage windows are contiguous, disjoint and have inclusive upper ends:
      a negative day count selects nothing, stage `k` is selected exactly when
      the day count lies in its window, and past harvest exactly when the day
      count exceeds the total duration. */
  lemma ChooseStageWindows(stages: seq<Stage>, days: int)
    ensures ChooseStage(stages, days) == NoStage <==> days < 0
    ensures forall k: nat :: ChooseStage(stages, days) == AtStage(k) <==> 0 <= days && k < |stages| && InWindow(stages, days, k)
    ensures ChooseStage(stages, days) == PastHarvest <==>
              0 <= days && (|stages| == 0 || Elapsed(stages, |stages|) < days)
  {
    if days >= 0 {
      ChooseFromWindows(stages, days, 0);
    }
  }

  /** The caveat appended to stage advice that mentions irrigation, when rain
      or a dry spell is expected; the two caveats differ and a normal outlook
      adds nothing. */
  function WeatherCaveat(outlook: Outlook, adviceText: string): (r: string)
    ensures r == "" <==> outlook == Normal || !Contains(adviceText, Irrigation)
    ensures r != "" ==> r == (if outlook == RainSoon then RainCaveat else DryCaveat)
  {
    assert |RainCaveat| > 0 && |DryCaveat| > 0;
    if outlook == RainSoon && Contains(adviceText, Irrigation) then RainCaveat
    else if outlook == DrySpell && Contains(adviceText, Irrigation) then DryCaveat
    else assert outlook.Normal? || !Contains(adviceText, Irrigation); ""
  }

  /** The day count the advice is based on: the elapsed days since the
      recorded sowing date, or a simulated guess, early in the season when the
      current month is a sowing month and later otherwise. */
  function DaysSinceSowing(plan: CropPlan, sowingElapsed: Option<int>, month: int, earlyGuess: int, lateGuess: int): int
  {
    match sowingElapsed
    case Some(d) => d
    case None => if month in plan.sowingMonths then earlyGuess else lateGuess
  }

  /** The stage name and stage text for a day count. */
  function StageText(crop: string, stages: seq<Stage>, days: int): (string, string)
  {
    match ChooseStage(stages, days)
    case NoStage => (UnknownStage, DefaultAdvice(crop))
    case AtStage(k) => if k < |stages| then (stages[k].name, stages[k].advice) else (UnknownStage, DefaultAdvice(crop))
    case PastHarvest => (HarvestStage, HarvestAdvice(crop))
  }

  /** The advice for a crop. An unknown crop gets the default text with stage
      "Unknown" and nothing else; a known crop's advice starts with the
      "(crop - अवस्था: stage) " prefix whose stage is the result's stage. */
  function CropAdvice(crop: string, sowingElapsed: Option<int>, month: int, earlyGuess: int, lateGuess: int,
                      outlook: Outlook): (r: AdviceResult)
    ensures crop !in CropCalendar ==> r == AdviceResult(DefaultAdvice(crop), UnknownStage)
    ensures crop in CropCalendar ==> StartsWith(r.advice, StagePrefix(crop, r.stage))
  {
    if crop !in CropCalendar then AdviceResult(DefaultAdvice(crop), UnknownStage)
    else
      var plan := CropCalendar[crop];
      var days := DaysSinceSowing(plan, sowingElapsed, month, earlyGuess, lateGuess);
      var (name, text) := StageText(crop, plan.stages, days);
      AdviceResult(StagePrefix(crop, name) + text + WeatherCaveat(outlook, text), name)
  }

  /** The handler's stage scan: it accumulates the stage durations and stops
      at the first stage whose end reaches the day count; a negative day count
      keeps the default text and past the last stage the harvest text is
      chosen. */
  method ScanStages(cropName: string, stages: seq<Stage>, daysSinceSowing: int)
    returns (currentStageName: string, adviceText: string)
    ensures (currentStageName, adviceText) == StageText(cropName, stages, daysSinceSowing)
  {
    adviceText := DefaultAdvice(cropName);
    currentStageName := UnknownStage;
    if daysSinceSowing >= 0 {
      var elapsedDays := 0;
      var stageFound := false;
      var i := 0;
      while i < |stages|
        invariant 0 <= i <= |stages|
        invariant elapsedDays == Elapsed(stages, i)
        invariant ChooseStage(stages, daysSinceSowing) == ChooseFrom(stages, daysSinceSowing, i)
        invariant !stageFound
      {
        var stageEndDay := elapsedDays + stages[i].durationDays;
        if daysSinceSowing <= stageEndDay {
          assert ChooseStage(stages, daysSinceSowing) == AtStage(i);
          adviceText := stages[i].advice;
          currentStageName := stages[i].name;
          stageFound := true;
          break;
        }
        elapsedDays := stageEndDay;
        i := i + 1;
      }
      if !stageFound {
        assert ChooseStage(stages, daysSinceSowing) == PastHarvest;
        adviceText := HarvestAdvice(cropName);
        currentStageName := HarvestStage;
      }
    }
  }

  /** The handler: the day count from the sowing date or the guess, the
      stage scan, then the stage prefix and the weather caveat. */
  method GetCropAdvice(cropName: string, location: string, sowingElapsed: Option<int>, currentMonth: int,
                       earlyGuess: int, lateGuess: int, outlook: Outlook) returns (r: AdviceResult)
    requires 5 <= earlyGuess <= 25 && 30 <= lateGuess <= 90
    ensures r == CropAdvice(cropName, sowingElapsed, currentMonth, earlyGuess, lateGuess, outlook)
  {
    if cropName !in CropCalendar {
      return AdviceResult(DefaultAdvice(cropName), UnknownStage);
    }
    var calendar := CropCalendar[cropName];
    var daysSinceSowing: int;
    if sowingElapsed.Some? {
      daysSinceSowing := sowingElapsed.value;
    } else if currentMonth in calendar.sowingMonths {
      daysSinceSowing := earlyGuess;
    } else {
      daysSinceSowing := lateGuess;
    }
    var currentStageName, adviceText := ScanStages(cropName, calendar.stages, daysSinceSowing);
    var weatherAdvice := WeatherCaveat(outlook, adviceText);
    r := AdviceResult(StagePrefix(cropName, currentStageName) + adviceText + weatherAdvice, currentStageName);
  }

  /** The calendar's season lengths: 120 days for wheat, 110 for pearl
      millet and 130 for paddy. */
  lemma SeasonLengths()
    ensures Elapsed(CropCalendar["गेहूं"].stages, 5) == 120
    ensures Elapsed(CropCalendar["बाजरा"].stages, 4) == 110
    ensures Elapsed(CropCalendar["धान"].stages, 4) == 130
  {
    var w := CropCalendar["गेहूं"].stages;
    assert Elapsed(w, 2) == 45;
    assert Elapsed(w, 4) == 90;
    var m := CropCalendar["बाजरा"].stages;
    assert Elapsed(m, 2) == 55;
    var p := CropCalendar["धान"].stages;
    assert Elapsed(p, 2) == 65;
  }

  /** Wheat's stage boundaries are inclusive: day 0 and day 15 are
      germination, day 16 is tillering, day 120 is still maturity and day 121
      is past harvest. */
  lemma WheatStageBoundaries()
    ensures ChooseStage(CropCalendar["गेहूं"].stages, 0) == AtStage(0)
    ensures ChooseStage(CropCalendar["गेहूं"].stages, 15) == AtStage(0)
    ensures ChooseStage(CropCalendar["गेहूं"].stages, 16) == AtStage(1)
    ensures ChooseStage(CropCalendar["गेहूं"].stages, 120) == AtStage(4)
    ensures ChooseStage(CropCalendar["गेहूं"].stages, 121) == PastHarvest
  {
    var w := CropCalendar["गेहूं"].stages;
    SeasonLengths();
    assert Elapsed(w, 1) == 15;
    assert Elapsed(w, 4) == 90;
    ChooseStageWindows(w, 0);
    ChooseStageWindows(w, 15);
    ChooseStageWindows(w, 16);
    ChooseStageWindows(w, 120);
    ChooseStageWindows(w, 121);
    assert InWindow(w, 0, 0) && InWindow(w, 15, 0) && InWindow(w, 16, 1) && InWindow(w, 120, 4);
  }

  /** Without a recorded sowing date the guessed day count (5 to 25 days in a
      sowing month, 30 to 90 otherwise) always falls inside the season of a
      known crop: the advice names a real growth stage, never "Unknown" and
      never the harvest text. */
  lemma GuessedDaysSelectStage(crop: string, month: int, earlyGuess: int, lateGuess: int, outlook: Outlook)
    requires crop in CropCalendar
    requires 5 <= earlyGuess <= 25 && 30 <= lateGuess <= 90
    ensures exists k :: 0 <= k < |CropCalendar[crop].stages| &&
              CropAdvice(crop, None, month, earlyGuess, lateGuess, outlook).stage == CropCalendar[crop].stages[k].name
  {
    var stages := CropCalendar[crop].stages;
    var days := DaysSinceSowing(CropCalendar[crop], None, month, earlyGuess, lateGuess);
    SeasonLengths();
    ChooseStageWindows(stages, days);
    match ChooseStage(stages, days)
    case AtStage(k) =>
      assert StageText(crop, stages, days).0 == stages[k].name;
  }

  /** A sowing date in the future (a negative day count) selects no stage:
      the advice is the default text under the "Unknown" stage, with no
      weather caveat since the default text does not mention irrigation. */
  lemma FutureSowingKeepsDefault(crop: string, days: int, month: int, earlyGuess: int, lateGuess: int,
                                 outlook: Outlook)
    requires crop in CropCalendar && days < 0
    ensures CropAdvice(crop, Some(days), month, earlyGuess, lateGuess, outlook)
            == AdviceResult(StagePrefix(crop, UnknownStage) + DefaultAdvice(crop), UnknownStage)
  {
    var stages := CropCalendar[crop].stages;
    assert ChooseStage(stages, days) == NoStage;
    DefaultAdviceSkipsIrrigation(crop);
  }

  /** The default text of a calendar crop does not mention irrigation: no
      crop name and not the fixed tail contains the letter "च". */
  lemma DefaultAdviceSkipsIrrigation(crop: string)
    requires crop == "गेहूं" || crop == "बाजरा" || crop == "धान"
    ensures !Contains(DefaultAdvice(crop), Irrigation)
  {
    var tail := " के लिए अभी कोई विशेष सलाह उपलब्ध नहीं है।";
    assert 'च' !in tail;
    assert 'च' !in crop;
    assert DefaultAdvice(crop) == crop + tail;
    MissingChar(DefaultAdvice(crop), Irrigation, 'च');
  }

  /** The topics of the general question answerer. */
  datatype QnaTopic = Seeds | Pesticides | WeatherTopic | SoilTest | NoTopic

  const DefaultAnswer := "इस प्रश्न का उत्तर देने के लिए मेरे पास अभी पर्याप्त जानकारी नहीं है। आप कृषि विशेषज्ञ से संपर्क कर सकते हैं।"
  const SeedAnswer := "उन्नत किस्मों के बीज के लिए अपने नजदीकी कृषि विज्ञान केंद्र (KVK) या प्रमाणित बीज विक्रेता से संपर्क करें।"
  const PesticideAnswer := "किसी भी कीटनाशक या खरपतवारनाशक का प्रयोग करने से पहले कृषि विशेषज्ञ से सलाह अवश्य लें। सही दवा और मात्रा का प्रयोग महत्वपूर्ण है।"
  const WeatherAnswer := "मौसम की विस्तृत जानकारी के लिए आप मौसम संबंधी प्रश्न पूछ सकते हैं।"
  const SoilTestAnswer := "मिट्टी की जांच कराना बहुत फायदेमंद है। इससे पोषक तत्वों की सही जानकारी मिलती है। आप अपने ब्लॉक के कृषि विभाग या KVK में संपर्क कर सकते हैं।"

  /** The answer text of a topic; only the seed answer names the crop, and
      only when a crop is given. */
  function TopicAnswer(topic: QnaTopic, crop: string): string
  {
    match topic
    case Seeds => (if crop != "" then crop + " के " else "") + SeedAnswer
    case Pesticides => PesticideAnswer
    case WeatherTopic => WeatherAnswer
    case SoilTest => SoilTestAnswer
    case NoTopic => DefaultAnswer
  }

  /** The topic of a general question: seeds, then pesticides or weeds, then
      the weather, then soil testing; otherwise none. */
  function QuestionTopic(queryText: string): QnaTopic
  {
    var queryLower := Lower(queryText);
    if Contains(queryText, "बीज") || Contains(queryLower, "seed") then Seeds
    else if Contains(queryText, "दवा") || Contains(queryLower, "pesticide") || Contains(queryText, "खरपतवार")
         || Contains(queryLower, "weed") then Pesticides
    else if Contains(queryText, "मौसम") || Contains(queryLower, "weather") then WeatherTopic
    else if Contains(queryText, "मिट्टी जांच") || Contains(queryLower, "soil test") then SoilTest
    else NoTopic
  }

  /** Answers a general question with the answer of its topic; the location
      takes no part. A seed question's answer starts with "<crop> के " when a
      crop is given. */
  function GeneralQnaAnswer(queryText: string, crop: string, location: string): (r: string)
    ensures r != ""
    ensures crop != "" && QuestionTopic(queryText) == Seeds ==> StartsWith(r, crop + " के ")
  {
    StartsWithConcat(crop + " के ", SeedAnswer);
    TopicAnswer(QuestionTopic(queryText), crop)
  }

  const SeedRule := Rule(Seeds, ["बीज"], ["seed"])
  const PesticideRule := Rule(Pesticides, ["दवा", "खरपतवार"], ["pesticide", "weed"])
  const WeatherRule := Rule(WeatherTopic, ["मौसम"], ["weather"])
  const SoilTestRule := Rule(SoilTest, ["मिट्टी जांच"], ["soil test"])

  /** The question rules in priority order. */
  const QnaRules: seq<Rule<QnaTopic>> := [SeedRule, PesticideRule, WeatherRule, SoilTestRule]

  /** The answer is that of the first question rule that fires, and the
      location takes no part in it. */
  lemma GeneralQnaFollowsTable(queryText: string, crop: string, location: string)
    ensures QuestionTopic(queryText) == FirstMatch(QnaRules, queryText, NoTopic)
    ensures GeneralQnaAnswer(queryText, crop, location) == TopicAnswer(FirstMatch(QnaRules, queryText, NoTopic), crop)
  {
    var rs := QnaRules;
    var low := Lower(queryText);
    assert Fires(SeedRule, queryText) <==> Contains(queryText, "बीज") || Contains(low, "seed");
    if Fires(SeedRule, queryText) { FirstMatchEarliest(rs, queryText, NoTopic, 0); return; }
    assert Fires(PesticideRule, queryText) <==>
      Contains(queryText, "दवा") || Contains(queryText, "खरपतवार") || Contains(low, "pesticide") || Contains(low, "weed");
    if Fires(PesticideRule, queryText) { FirstMatchEarliest(rs, queryText, NoTopic, 1); return; }
    assert Fires(WeatherRule, queryText) <==> Contains(queryText, "मौसम") || Contains(low, "weather");
    if Fires(WeatherRule, queryText) { FirstMatchEarliest(rs, queryText, NoTopic, 2); return; }
    assert Fires(SoilTestRule, queryText) <==> Contains(queryText, "मिट्टी जांच") || Contains(low, "soil test");
    if Fires(SoilTestRule, queryText) { FirstMatchEarliest(rs, queryText, NoTopic, 3); return; }
    FirstMatchNone(rs, queryText, NoTopic);
  }
}
