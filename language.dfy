/** The language gateway's simulated capabilities: speech-to-text and intent
    classification, both ordered keyword rules (src/core/language.py). */
module Language {
  import opened Text
  import opened Rules

  /** The closed intent taxonomy. */
  datatype Intent =
    | CropAdvisoryWater
    | CropAdvisoryFertilizer
    | CropAdvisoryGeneral
    | DiseaseQuerySymptoms
    | FinanceLoanRequest
    | FinanceInsuranceQuery
    | MarketPriceQuery
    | MarketLinkageRequest
    | WeatherQuery
    | GeneralQna
    | Unknown

  /** An intent with the entities extracted from the utterance. */
  datatype NluResult = NluResult(intent: Intent, entities: map<string, string>)

  const Wheat := "गेहूं"
  const Paddy := "धान"
  const PearlMillet := "बाजरा"

  const CropKey := "crop"
  const SymptomsKey := "symptoms"
  const QueryTextKey := "query_text"
  const TopicKey := "topic"

  const QuestionWords: seq<string> := ["क्या", "कब", "कैसे", "क्यों", "what", "when", "how", "why"]

  /** Simulated natural-language understanding: the first keyword rule that
      matches decides the intent; entities are filled per branch. */
  function UnderstandIntent(text: string): (r: NluResult)
    ensures r.intent != CropAdvisoryGeneral
    ensures r.intent == Unknown ==> r.entities == map[]
    ensures r.intent == DiseaseQuerySymptoms ==> SymptomsKey in r.entities && r.entities[SymptomsKey] == text
    ensures r.intent == GeneralQna ==> QueryTextKey in r.entities && r.entities[QueryTextKey] == text
    ensures r.entities.Keys <= {CropKey, SymptomsKey, QueryTextKey, TopicKey}
    ensures CropKey in r.entities ==>
              && r.entities[CropKey] in {Wheat, Paddy, PearlMillet}
              && r.intent in {CropAdvisoryWater, CropAdvisoryFertilizer, DiseaseQuerySymptoms,
                              MarketPriceQuery, MarketLinkageRequest}
    ensures r.intent == CropAdvisoryWater && Contains(text, Wheat) ==>
              CropKey in r.entities && r.entities[CropKey] == Wheat
    ensures TopicKey in r.entities ==> r.entities[TopicKey] == "seed" && r.intent == GeneralQna
    ensures TopicKey in r.entities <==>
              r.intent == GeneralQna && (Contains(text, "बीज") || Contains(Lower(text), "seed"))
  {
    var low := Lower(text);
    if Contains(text, "पानी") || Contains(low, "water") || Contains(text, "सिंचाई") then
      NluResult(CropAdvisoryWater,
        if Contains(text, Wheat) || Contains(low, "wheat") then map[CropKey := Wheat]
        else if Contains(text, Paddy) || Contains(low, "paddy") then map[CropKey := Paddy]
        else map[])
    else if Contains(text, "खाद") || Contains(low, "fertilizer") || Contains(text, "यूरिया") then
      NluResult(CropAdvisoryFertilizer, if Contains(text, Wheat) then map[CropKey := Wheat] else map[])
    else if Contains(text, "रोग") || Contains(text, "बीमारी") || Contains(low, "disease")
         || Contains(text, "धब्बे") || Contains(low, "spots") then
      NluResult(DiseaseQuerySymptoms,
        (if Contains(text, Wheat) then map[CropKey := Wheat] else map[])[SymptomsKey := text])
    else if Contains(text, "लोन") || Contains(low, "loan") || Contains(text, "ऋण") then
      NluResult(FinanceLoanRequest, map[])
    else if Contains(text, "बीमा") || Contains(low, "insurance") then
      NluResult(FinanceInsuranceQuery, map[])
    else if Contains(text, "भाव") || Contains(low, "price") || Contains(text, "मंडी") || Contains(low, "mandi") then
      NluResult(MarketPriceQuery,
        if Contains(text, Wheat) then map[CropKey := Wheat]
        else if Contains(text, PearlMillet) then map[CropKey := PearlMillet]
        else map[])
    else if Contains(text, "बेचना") || Contains(low, "sell") then
      NluResult(MarketLinkageRequest, if Contains(text, Wheat) then map[CropKey := Wheat] else map[])
    else if Contains(text, "मौसम") || Contains(low, "weather") || Contains(text, "बारिश") then
      NluResult(WeatherQuery, map[])
    else if Contains(text, "बीज") || Contains(low, "seed") then
      NluResult(GeneralQna, map[QueryTextKey := text, TopicKey := "seed"])
    else if exists q | q in QuestionWords :: Contains(low, q) then
      NluResult(GeneralQna, map[QueryTextKey := text])
    else
      NluResult(Unknown, map[])
  }

  const WaterRule := Rule(CropAdvisoryWater, ["पानी", "सिंचाई"], ["water"])
  const FertilizerRule := Rule(CropAdvisoryFertilizer, ["खाद", "यूरिया"], ["fertilizer"])
  const DiseaseRule := Rule(DiseaseQuerySymptoms, ["रोग", "बीमारी", "धब्बे"], ["disease", "spots"])
  const LoanRule := Rule(FinanceLoanRequest, ["लोन", "ऋण"], ["loan"])
  const InsuranceRule := Rule(FinanceInsuranceQuery, ["बीमा"], ["insurance"])
  const PriceRule := Rule(MarketPriceQuery, ["भाव", "मंडी"], ["price", "mandi"])
  const SellRule := Rule(MarketLinkageRequest, ["बेचना"], ["sell"])
  const WeatherRule := Rule(WeatherQuery, ["मौसम", "बारिश"], ["weather"])
  const SeedRule := Rule(GeneralQna, ["बीज"], ["seed"])
  const QuestionRule := Rule(GeneralQna, [], QuestionWords)

  /** The intent rules as a priority table: water, fertilizer, disease, loan,
      insurance, market price, sell, weather, seed, then the question-word
      fallback; no match means UNKNOWN. */
  const IntentRules: seq<Rule<Intent>> :=
    [WaterRule, FertilizerRule, DiseaseRule, LoanRule, InsuranceRule,
     PriceRule, SellRule, WeatherRule, SeedRule, QuestionRule]

  /** What it means for the water rule to fire, keyword by keyword. */
  lemma WaterRuleFires(text: string)
    ensures Fires(WaterRule, text) <==> Contains(text, "पानी") || Contains(Lower(text), "water") || Contains(text, "सिंचाई")
  {
  }

  /** What it means for the fertilizer rule to fire, keyword by keyword. */
  lemma FertilizerRuleFires(text: string)
    ensures Fires(FertilizerRule, text) <==> Contains(text, "खाद") || Contains(Lower(text), "fertilizer") || Contains(text, "यूरिया")
  {
  }

  /** What it means for the disease rule to fire, keyword by keyword. */
  lemma DiseaseRuleFires(text: string)
    ensures Fires(DiseaseRule, text) <==> Contains(text, "रोग") || Contains(text, "बीमारी") || Contains(Lower(text), "disease")
                                             || Contains(text, "धब्बे") || Contains(Lower(text), "spots")
  {
  }

  /** What it means for the loan rule to fire, keyword by keyword. */
  lemma LoanRuleFires(text: string)
    ensures Fires(LoanRule, text) <==> Contains(text, "लोन") || Contains(Lower(text), "loan") || Contains(text, "ऋण")
  {
  }

  /** What it means for the insurance rule to fire, keyword by keyword. */
  lemma InsuranceRuleFires(text: string)
    ensures Fires(InsuranceRule, text) <==> Contains(text, "बीमा") || Contains(Lower(text), "insurance")
  {
  }

  /** What it means for the price rule to fire, keyword by keyword. */
  lemma PriceRuleFires(text: string)
    ensures Fires(PriceRule, text) <==> Contains(text, "भाव") || Contains(Lower(text), "price") || Contains(text, "मंडी")
                                             || Contains(Lower(text), "mandi")
  {
  }

  /** What it means for the sell rule to fire, keyword by keyword. */
  lemma SellRuleFires(text: string)
    ensures Fires(SellRule, text) <==> Contains(text, "बेचना") || Contains(Lower(text), "sell")
  {
  }

  /** What it means for the weather rule to fire, keyword by keyword. */
  lemma WeatherRuleFires(text: string)
    ensures Fires(WeatherRule, text) <==> Contains(text, "मौसम") || Contains(Lower(text), "weather") || Contains(text, "बारिश")
  {
  }

  /** What it means for the seed rule to fire, keyword by keyword. */
  lemma SeedRuleFires(text: string)
    ensures Fires(SeedRule, text) <==> Contains(text, "बीज") || Contains(Lower(text), "seed")
  {
  }

  /** What it means for the question rule to fire, keyword by keyword. */
  lemma QuestionRuleFires(text: string)
    ensures Fires(QuestionRule, text) <==> exists q | q in QuestionWords :: Contains(Lower(text), q)
  {
  }

  /** The classifier's intent is the outcome of the first rule of the table that fires. */
  lemma UnderstandIntentFollowsTable(text: string)
    ensures UnderstandIntent(text).intent == FirstMatch(IntentRules, text, Unknown)
  {
    var rs := IntentRules;
    WaterRuleFires(text);
    if Fires(WaterRule, text) { FirstMatchEarliest(rs, text, Unknown, 0); return; }
    FertilizerRuleFires(text);
    if Fires(FertilizerRule, text) { FirstMatchEarliest(rs, text, Unknown, 1); return; }
    DiseaseRuleFires(text);
    if Fires(DiseaseRule, text) { FirstMatchEarliest(rs, text, Unknown, 2); return; }
    MiddleRulesFollowTable(text);
  }

  /** The loan and insurance rules, for a text on which none of the first three rules fires. */
  lemma MiddleRulesFollowTable(text: string)
    requires !Fires(WaterRule, text) && !Fires(FertilizerRule, text) && !Fires(DiseaseRule, text)
    ensures UnderstandIntent(text).intent == FirstMatch(IntentRules, text, Unknown)
  {
    var rs := IntentRules;
    WaterRuleFires(text);
    FertilizerRuleFires(text);
    DiseaseRuleFires(text);
    LoanRuleFires(text);
    if Fires(LoanRule, text) { FirstMatchEarliest(rs, text, Unknown, 3); return; }
    InsuranceRuleFires(text);
    if Fires(InsuranceRule, text) { FirstMatchEarliest(rs, text, Unknown, 4); return; }
    LaterRulesFollowTable(text);
  }

  /** The middle of the table, for a text on which none of the first five rules fires. */
  lemma LaterRulesFollowTable(text: string)
    requires !Fires(WaterRule, text) && !Fires(FertilizerRule, text) && !Fires(DiseaseRule, text)
    requires !Fires(LoanRule, text) && !Fires(InsuranceRule, text)
    ensures UnderstandIntent(text).intent == FirstMatch(IntentRules, text, Unknown)
  {
    var rs := IntentRules;
    WaterRuleFires(text);
    FertilizerRuleFires(text);
    DiseaseRuleFires(text);
    LoanRuleFires(text);
    InsuranceRuleFires(text);
    PriceRuleFires(text);
    if Fires(PriceRule, text) { FirstMatchEarliest(rs, text, Unknown, 5); return; }
    SellRuleFires(text);
    if Fires(SellRule, text) { FirstMatchEarliest(rs, text, Unknown, 6); return; }
    WeatherRuleFires(text);
    if Fires(WeatherRule, text) { FirstMatchEarliest(rs, text, Unknown, 7); return; }
    LastRulesFollowTable(text);
  }

  /** The end of the table, for a text on which none of the first eight rules fires. */
  lemma LastRulesFollowTable(text: string)
    requires !Fires(WaterRule, text) && !Fires(FertilizerRule, text) && !Fires(DiseaseRule, text)
    requires !Fires(LoanRule, text) && !Fires(InsuranceRule, text) && !Fires(PriceRule, text)
    requires !Fires(SellRule, text) && !Fires(WeatherRule, text)
    ensures UnderstandIntent(text).intent == FirstMatch(IntentRules, text, Unknown)
  {
    var rs := IntentRules;
    WaterRuleFires(text);
    FertilizerRuleFires(text);
    DiseaseRuleFires(text);
    LoanRuleFires(text);
    InsuranceRuleFires(text);
    PriceRuleFires(text);
    SellRuleFires(text);
    WeatherRuleFires(text);
    SeedRuleFires(text);
    if Fires(SeedRule, text) { FirstMatchEarliest(rs, text, Unknown, 8); return; }
    QuestionRuleFires(text);
    if Fires(QuestionRule, text) { FirstMatchEarliest(rs, text, Unknown, 9); return; }
    FirstMatchNone(rs, text, Unknown);
  }

  /** Priority of the intent rules: when rule `k` of the table fires and no
      earlier one does, the classifier answers with rule `k`'s intent; for
      instance a text with both "पानी" and "लोन" is a water question. */
  lemma IntentPriority(text: string, k: nat)
    requires k < |IntentRules| && Fires(IntentRules[k], text)
    requires forall j :: 0 <= j < k ==> !Fires(IntentRules[j], text)
    ensures UnderstandIntent(text).intent == IntentRules[k].outcome
  {
    UnderstandIntentFollowsTable(text);
    FirstMatchEarliest(IntentRules, text, Unknown, k);
  }

  /** UNKNOWN is answered exactly when no rule of the table fires, the
      question-word fallback included. */
  lemma UnknownIffNoRuleFires(text: string)
    ensures UnderstandIntent(text).intent == Unknown
        <==> forall j :: 0 <= j < |IntentRules| ==> !Fires(IntentRules[j], text)
  {
    UnderstandIntentFollowsTable(text);
    if forall j :: 0 <= j < |IntentRules| ==> !Fires(IntentRules[j], text) {
      FirstMatchNone(IntentRules, text, Unknown);
    } else {
      var j :| 0 <= j < |IntentRules| && Fires(IntentRules[j], text);
      FirstMatchSomeRule(IntentRules, text, Unknown, j);
      var i :| 0 <= i <= j && Fires(IntentRules[i], text) && FirstMatch(IntentRules, text, Unknown) == IntentRules[i].outcome;
      NoRuleAnswersUnknown(i);
    }
  }

  /** No rule of the table has UNKNOWN as its outcome. */
  lemma NoRuleAnswersUnknown(i: nat)
    requires i < |IntentRules|
    ensures IntentRules[i].outcome != Unknown
  {
  }

  const DefaultUtterance := "फसल में क्या समस्या है?"

  /** The five keyword rules of the simulated transcription; every keyword is
      looked for in the lowered audio reference. */
  const WaterSpeech := Rule("गेहूं में पानी कब देना है?", [], ["pani", "water"])
  const LoanSpeech := Rule("मुझे लोन चाहिए", [], ["loan", "लोन"])
  const SeedSpeech := Rule("गेहूं का कौन सा बीज अच्छा है?", [], ["beej", "seed"])
  const MandiSpeech := Rule("आज मंडी का भाव क्या है?", [], ["mandi", "भाव"])
  const DiseaseSpeech := Rule("पत्तियों पर सफेद धब्बे हैं", [], ["rog", "बीमारी", "spots"])
  const SpeechRules: seq<Rule<string>> := [WaterSpeech, LoanSpeech, SeedSpeech, MandiSpeech, DiseaseSpeech]

  /** Simulated speech-to-text: the transcript is picked by the first keyword
      found in the lowered audio reference. It is never empty. */
  function SpeechToText(audioRef: string): (r: string)
    ensures r != ""
    ensures r == DefaultUtterance || r in {SpeechRules[0].outcome, SpeechRules[1].outcome, SpeechRules[2].outcome,
                                            SpeechRules[3].outcome, SpeechRules[4].outcome}
  {
    var low := Lower(audioRef);
    if Contains(low, "pani") || Contains(low, "water") then "गेहूं में पानी कब देना है?"
    else if Contains(low, "loan") || Contains(low, "लोन") then "मुझे लोन चाहिए"
    else if Contains(low, "beej") || Contains(low, "seed") then "गेहूं का कौन सा बीज अच्छा है?"
    else if Contains(low, "mandi") || Contains(low, "भाव") then "आज मंडी का भाव क्या है?"
    else if Contains(low, "rog") || Contains(low, "बीमारी") || Contains(low, "spots") then "पत्तियों पर सफेद धब्बे हैं"
    else DefaultUtterance
  }

  /** What it means for the first two transcription rules to fire, keyword by keyword. */
  lemma WaterLoanSpeechFire(audioRef: string)
    ensures Fires(WaterSpeech, audioRef) <==> Contains(Lower(audioRef), "pani") || Contains(Lower(audioRef), "water")
    ensures Fires(LoanSpeech, audioRef) <==> Contains(Lower(audioRef), "loan") || Contains(Lower(audioRef), "लोन")
  {
  }

  /** What it means for the seed and mandi transcription rules to fire, keyword by keyword. */
  lemma SeedMandiSpeechFire(audioRef: string)
    ensures Fires(SeedSpeech, audioRef) <==> Contains(Lower(audioRef), "beej") || Contains(Lower(audioRef), "seed")
    ensures Fires(MandiSpeech, audioRef) <==> Contains(Lower(audioRef), "mandi") || Contains(Lower(audioRef), "भाव")
  {
  }

  /** What it means for the last transcription rule to fire, keyword by keyword. */
  lemma DiseaseSpeechFires(audioRef: string)
    ensures Fires(DiseaseSpeech, audioRef) <==>
              Contains(Lower(audioRef), "rog") || Contains(Lower(audioRef), "बीमारी") || Contains(Lower(audioRef), "spots")
  {
  }

  /** The transcript is the outcome of the first transcription rule that fires. */
  lemma SpeechToTextFollowsTable(audioRef: string)
    ensures SpeechToText(audioRef) == FirstMatch(SpeechRules, audioRef, DefaultUtterance)
  {
    var rs := SpeechRules;
    WaterLoanSpeechFire(audioRef);
    SeedMandiSpeechFire(audioRef);
    DiseaseSpeechFires(audioRef);
    if Fires(WaterSpeech, audioRef) { FirstMatchEarliest(rs, audioRef, DefaultUtterance, 0); }
    else if Fires(LoanSpeech, audioRef) { FirstMatchEarliest(rs, audioRef, DefaultUtterance, 1); }
    else if Fires(SeedSpeech, audioRef) { FirstMatchEarliest(rs, audioRef, DefaultUtterance, 2); }
    else if Fires(MandiSpeech, audioRef) { FirstMatchEarliest(rs, audioRef, DefaultUtterance, 3); }
    else if Fires(DiseaseSpeech, audioRef) { FirstMatchEarliest(rs, audioRef, DefaultUtterance, 4); }
    else { FirstMatchNone(rs, audioRef, DefaultUtterance); }
  }
}
