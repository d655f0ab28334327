/** Diagnosis from a spoken symptom description: an ordered keyword rule list
    (src/core/disease_detection.py). */
module Disease {
  import opened Text
  import opened Rules

  /** The handler's result: exactly a diagnosis and an advice text. */
  datatype Diagnosis = Diagnosis(diagnosis: string, advice: string)

  /** The five findings the symptom rules can reach. */
  datatype Finding = Undetermined | NutrientOrWater | PowderyMildew | Rust | Pests

  const UndeterminedText := "लक्षणों के आधार पर सटीक रोग बताना मुश्किल है।"
  const UndeterminedAdvice := "कृपया नजदीकी कृषि विशेषज्ञ से संपर्क करें या अधिक स्पष्ट लक्षण बताएं या फसल की साफ फोटो भेजें।"
  const NutrientOrWaterText := "संभावित पोषक तत्व की कमी या पानी की समस्या"
  const NutrientOrWaterAdvice := "मिट्टी की जांच कराने और सिंचाई का प्रबंधन करने की सलाह दी जाती है।"
  const PowderyMildewText := "संभावित पाउडरी मिल्ड्यू (Powdery Mildew) फफूंद संक्रमण"
  const PowderyMildewAdvice := "विशेषज्ञ की सलाह पर उचित फफूंदनाशक का प्रयोग करें।"
  const RustText := "संभावित रतुआ रोग (Rust)"
  const RustAdvice := "यह गंभीर हो सकता है। तुरंत कृषि विशेषज्ञ से संपर्क करें और अनुशंसित फफूंदनाशक का प्रयोग करें।"
  const PestsText := "संभावित कीट प्रकोप"
  const PestsAdvice := "कीट की पहचान के लिए फोटो भेजें या विशेषज्ञ को दिखाएं। सही कीटनाशक का प्रयोग करें।"

  /** The diagnosis and advice texts returned for each finding. */
  function Verdict(f: Finding): Diagnosis
  {
    match f
    case Undetermined => Diagnosis(UndeterminedText, UndeterminedAdvice)
    case NutrientOrWater => Diagnosis(NutrientOrWaterText, NutrientOrWaterAdvice)
    case PowderyMildew => Diagnosis(PowderyMildewText, PowderyMildewAdvice)
    case Rust => Diagnosis(RustText, RustAdvice)
    case Pests => Diagnosis(PestsText, PestsAdvice)
  }

  /** The finding for a symptom description: yellowing, then white spots or
      powder, then rust, then insects or holes; otherwise undetermined. */
  function SymptomFinding(description: string): Finding
  {
    var low := Lower(description);
    if Contains(description, "पीलापन") || Contains(low, "yellowing") || Contains(description, "पीली पत्तियां") then
      NutrientOrWater
    else if Contains(description, "सफेद धब्बे") || Contains(low, "white spots") || Contains(low, "पाउडर") then
      PowderyMildew
    else if Contains(description, "रतुआ") || Contains(low, "rust") || Contains(description, "नारंगी पाउडर") then
      Rust
    else if Contains(description, "कीड़े") || Contains(low, "insect") || Contains(description, "छेद")
         || Contains(low, "hole") then
      Pests
    else
      Undetermined
  }

  /** The handler: the texts of the description's finding. The crop and the
      location take no part in the decision. */
  function DiagnoseFromSymptoms(description: string, crop: string, location: string): Diagnosis
  {
    Verdict(SymptomFinding(description))
  }

  const YellowingRule := Rule(NutrientOrWater, ["पीलापन", "पीली पत्तियां"], ["yellowing"])
  const PowderRule := Rule(PowderyMildew, ["सफेद धब्बे"], ["white spots", "पाउडर"])
  const RustRule := Rule(Rust, ["रतुआ", "नारंगी पाउडर"], ["rust"])
  const InsectRule := Rule(Pests, ["कीड़े", "छेद"], ["insect", "hole"])

  /** The symptom rules in priority order. */
  const SymptomRules: seq<Rule<Finding>> := [YellowingRule, PowderRule, RustRule, InsectRule]

  /** What it means for the yellowing and powder rules to fire, keyword by keyword. */
  lemma YellowingPowderFire(description: string)
    ensures Fires(YellowingRule, description) <==>
              Contains(description, "पीलापन") || Contains(Lower(description), "yellowing")
              || Contains(description, "पीली पत्तियां")
    ensures Fires(PowderRule, description) <==>
              Contains(description, "सफेद धब्बे") || Contains(Lower(description), "white spots")
              || Contains(Lower(description), "पाउडर")
  {
  }

  /** What it means for the rust and insect rules to fire, keyword by keyword. */
  lemma RustInsectFire(description: string)
    ensures Fires(RustRule, description) <==>
              Contains(description, "रतुआ") || Contains(Lower(description), "rust")
              || Contains(description, "नारंगी पाउडर")
    ensures Fires(InsectRule, description) <==>
              Contains(description, "कीड़े") || Contains(Lower(description), "insect") || Contains(description, "छेद")
              || Contains(Lower(description), "hole")
  {
  }

  /** The finding is the outcome of the first symptom rule that fires on the
      description, and undetermined when none fires. */
  lemma FindingFollowsTable(description: string)
    ensures SymptomFinding(description) == FirstMatch(SymptomRules, description, Undetermined)
  {
    var rs := SymptomRules;
    YellowingPowderFire(description);
    RustInsectFire(description);
    if Fires(YellowingRule, description) { FirstMatchEarliest(rs, description, Undetermined, 0); }
    else if Fires(PowderRule, description) { FirstMatchEarliest(rs, description, Undetermined, 1); }
    else if Fires(RustRule, description) { FirstMatchEarliest(rs, description, Undetermined, 2); }
    else if Fires(InsectRule, description) { FirstMatchEarliest(rs, description, Undetermined, 3); }
    else { FirstMatchNone(rs, description, Undetermined); }
  }

  /** Every verdict has a diagnosis and an advice text, both non-empty. */
  lemma VerdictsNonEmpty(f: Finding)
    ensures Verdict(f).diagnosis != "" && Verdict(f).advice != ""
  {
  }

  /** The handler answers with the texts of the first symptom rule that fires,
      both non-empty, whatever the crop and the location. */
  lemma DiagnosisFollowsTable(description: string, crop: string, location: string)
    ensures DiagnoseFromSymptoms(description, crop, location) == Verdict(FirstMatch(SymptomRules, description, Undetermined))
    ensures DiagnoseFromSymptoms(description, crop, location).diagnosis != ""
            && DiagnoseFromSymptoms(description, crop, location).advice != ""
  {
    FindingFollowsTable(description);
    VerdictsNonEmpty(SymptomFinding(description));
  }

  /** A description that mentions "नारंगी पाउडर" (orange powder) also mentions
      "पाउडर", which the earlier powdery-mildew rule tests: without a
      yellowing keyword it is diagnosed as powdery mildew. */
  lemma OrangePowderIsMildew(description: string)
    requires Contains(description, "नारंगी पाउडर")
    requires !Fires(YellowingRule, description)
    ensures SymptomFinding(description) == PowderyMildew
  {
    assert OccursAt("नारंगी पाउडर", "पाउडर", 7);
    ContainsTrans(description, "नारंगी पाउडर", "पाउडर");
    LowerFixes("पाउडर");
    LowerKeepsContains(description, "पाउडर");
  }

  /** The rust rule's "नारंगी पाउडर" keyword can never lead to the rust
      diagnosis: a description that mentions it is never diagnosed as rust. */
  lemma OrangePowderNeverRust(description: string)
    requires Contains(description, "नारंगी पाउडर")
    ensures SymptomFinding(description) != Rust
  {
    if !Fires(YellowingRule, description) {
      OrangePowderIsMildew(description);
    } else {
      assert Contains(description, "पीलापन") || Contains(Lower(description), "yellowing")
          || Contains(description, "पीली पत्तियां");
    }
  }
}
