/** Loan eligibility and crop insurance information (src/core/finance.py). */
module Finance {
  import opened Text

  /** The handler's result: eligibility, the whole-rupee amount, the message
      and the suggested lenders. */
  datatype LoanResult = LoanResult(eligible: bool, maxEligibleAmount: int, message: string,
                                   potentialLenders: seq<string>)

  const Lenders: seq<string> := ["स्थानीय सहकारी बैंक", "निकटतम राष्ट्रीयकृत बैंक", "एबीसी माइक्रोफाइनेंस"]
  const AmountCap: real := 150000.0
  const MinLand: real := 0.5
  const UnknownCrop := "unknown"
  const SmallHoldingMessage := "किसान क्रेडिट कार्ड जैसी योजनाओं के लिए आमतौर पर अधिक भूमि की आवश्यकता हो सकती है। स्वयं सहायता समूह या माइक्रोफाइनेंस योजनाओं के बारे में पता करें।"
  const MissingInfoMessage := "आपकी लोन पात्रता जांचने के लिए फसल और भूमि की जानकारी आवश्यक है।"
  const EligibleOpening := "अनुमानित पात्रता: आप लगभग ₹"

  /** The three lenders are different institutions. */
  lemma LendersDistinct()
    ensures forall i, j :: 0 <= i < j < |Lenders| ==> Lenders[i] != Lenders[j]
  {
    assert Lenders[0][0] == 'स' && Lenders[1][0] == 'न' && Lenders[2][0] == 'ए';
  }

  /** The lenders at distinct positions of the list are distinct. */
  function PickedLenders(picks: seq<nat>): (r: seq<string>)
    requires DistinctIndices(picks, |Lenders|)
    ensures |r| == |picks| && forall i :: 0 <= i < |r| ==> r[i] == Lenders[picks[i]]
    ensures forall i, j :: 0 <= i < j < |r| ==> r[i] != r[j]
  {
    LendersDistinct();
    seq(|picks|, i requires 0 <= i < |picks| => Lenders[picks[i]])
  }

  const EligibleMiddle := " तक के कृषि लोन (जैसे किसान क्रेडिट कार्ड) के लिए पात्र हो सकते हैं। अधिक जानकारी और आवेदन के लिए "
  const EligibleClosing := " से संपर्क करें।"

  function EligibleMessage(amount: int, lenders: seq<string>): string
  {
    EligibleOpening + GroupThousands(if amount < 0 then 0 else amount) + EligibleMiddle
    + Join(lenders, " या ") + EligibleClosing
  }

  /** The eligible message starts with its fixed opening, states the amount
      with thousands separators and names every lender. */
  lemma EligibleMessageNamesLenders(amount: int, lenders: seq<string>)
    ensures StartsWith(EligibleMessage(amount, lenders), EligibleOpening)
    ensures amount >= 0 ==> Contains(EligibleMessage(amount, lenders), GroupThousands(amount))
    ensures forall i :: 0 <= i < |lenders| ==> Contains(EligibleMessage(amount, lenders), lenders[i])
  {
    var head := EligibleOpening + GroupThousands(if amount < 0 then 0 else amount) + EligibleMiddle;
    assert EligibleMessage(amount, lenders) == head + Join(lenders, " या ") + EligibleClosing;
    if amount >= 0 {
      ContainsMiddle(EligibleOpening, GroupThousands(amount), EligibleMiddle + Join(lenders, " या ") + EligibleClosing);
      assert EligibleOpening + GroupThousands(amount) + (EligibleMiddle + Join(lenders, " या ") + EligibleClosing)
          == EligibleMessage(amount, lenders);
    }
    StartsWithConcat(EligibleOpening, GroupThousands(if amount < 0 then 0 else amount) + EligibleMiddle
                     + Join(lenders, " या ") + EligibleClosing);
    forall i | 0 <= i < |lenders|
      ensures Contains(EligibleMessage(amount, lenders), lenders[i])
    {
      JoinContainsPart(lenders, " या ", i);
      ContainsInfix(head, Join(lenders, " या "), EligibleClosing, lenders[i]);
    }
  }

  /** `int(min(land_size * rate, 150000))`: the per-acre amount times the
      land, capped, in whole rupees. */
  function CappedAmount(land: real, rate: int): int
  {
    var product := land * rate as real;
    Trunc(if product < AmountCap then product else AmountCap)
  }

  /** The capped amount of an eligible farmer: more than half an acre at 8000
      or more per acre gives more than 4000, and the cap bounds it above. */
  lemma EligibleAmountBounds(land: real, rate: int)
    requires land > MinLand && 8000 <= rate <= 15000
    ensures 4000 <= CappedAmount(land, rate) <= 150000
  {
    var product := land * rate as real;
    assert product > MinLand * rate as real by {
      assert (land - MinLand) * rate as real > 0.0;
    }
    var capped := if product < AmountCap then product else AmountCap;
    assert 4000.0 < capped <= AmountCap;
    assert 4000 <= capped.Floor;
  }

  /** The result for an eligible farmer: the capped product truncated to
      whole rupees, the drawn lenders, and the message stating both. */
  function EligibleResult(land: real, rate: int, picks: seq<nat>): (r: LoanResult)
    requires land > MinLand && 8000 <= rate <= 15000
    requires 1 <= |picks| <= 2 && DistinctIndices(picks, |Lenders|)
    ensures r.eligible && r.maxEligibleAmount == CappedAmount(land, rate)
            && 4000 <= r.maxEligibleAmount <= 150000
            && r.potentialLenders == PickedLenders(picks)
    ensures StartsWith(r.message, EligibleOpening) && Contains(r.message, GroupThousands(r.maxEligibleAmount))
    ensures forall i :: 0 <= i < |r.potentialLenders| ==> Contains(r.message, r.potentialLenders[i])
  {
    var lenders := PickedLenders(picks);
    EligibleAmountBounds(land, rate);
    EligibleMessageNamesLenders(CappedAmount(land, rate), lenders);
    LoanResult(true, CappedAmount(land, rate), EligibleMessage(CappedAmount(land, rate), lenders), lenders)
  }

  /** Loan eligibility from the session's land size (0 when missing) and crop
      ("unknown" when missing). `rate` is the simulated per-acre amount and
      `picks` the simulated choice of one or two lenders.
      The farmer is eligible exactly when the land exceeds half an acre and
      the crop is known; the amount is then the land times the rate, capped
      at 150000 and truncated to whole rupees, which lies between 4000 and
      the cap; the lenders are the drawn ones, one or two and distinct, and
      the message states the amount and names each lender;
      otherwise the amount is 0, no lender is named and the message says
      whether the land is too small or information is missing. */
  function CheckLoanEligibility(landSize: Option<real>, crop: Option<string>, rate: int, picks: seq<nat>)
    : (r: LoanResult)
    requires 8000 <= rate <= 15000
    requires 1 <= |picks| <= 2 && DistinctIndices(picks, |Lenders|)
    ensures var land := if landSize.Some? then landSize.value else 0.0;
            var c := if crop.Some? then crop.value else UnknownCrop;
            (r.eligible <==> land > MinLand && c != UnknownCrop)
            && (!r.eligible && land <= MinLand ==> r.message == SmallHoldingMessage)
            && (!r.eligible && land > MinLand ==> r.message == MissingInfoMessage)
    ensures r.eligible ==> 4000 <= r.maxEligibleAmount <= 150000 && StartsWith(r.message, EligibleOpening)
    ensures r.eligible ==> 1 <= |r.potentialLenders| <= 2
                           && (forall i :: 0 <= i < |r.potentialLenders| ==> r.potentialLenders[i] in Lenders)
                           && (forall i, j :: 0 <= i < j < |r.potentialLenders| ==>
                                 r.potentialLenders[i] != r.potentialLenders[j])
                           && (forall i :: 0 <= i < |r.potentialLenders| ==> Contains(r.message, r.potentialLenders[i]))
    ensures var land := if landSize.Some? then landSize.value else 0.0;
            r.eligible ==> r.maxEligibleAmount == CappedAmount(land, rate)
                           && r.potentialLenders == PickedLenders(picks)
                           && Contains(r.message, GroupThousands(r.maxEligibleAmount))
    ensures !r.eligible ==> r.maxEligibleAmount == 0 && r.potentialLenders == []
  {
    var land := if landSize.Some? then landSize.value else 0.0;
    var c := if crop.Some? then crop.value else UnknownCrop;
    if land > MinLand && c != UnknownCrop then
      EligibleResult(land, rate, picks)
    else if land <= MinLand then
      LoanResult(false, 0, SmallHoldingMessage, [])
    else
      LoanResult(false, 0, MissingInfoMessage, [])
  }

  datatype InsuranceInfo = InsuranceInfo(schemeName: string, info: string)

  const Pmfby := "प्रधानमंत्री फसल बीमा योजना (PMFBY)"
  const InsuranceDetails := " उपलब्ध हो सकती है।"
    + " इस योजना के तहत, प्राकृतिक आपदाओं, कीटों और रोगों से फसल को होने वाले नुकसान के लिए बीमा कवरेज मिलता है।"
    + " आवेदन करने की अंतिम तिथि आमतौर पर बुवाई के मौसम (खरीफ/रबी) के अनुसार निर्धारित होती है।"
    + " अधिक जानकारी, प्रीमियम और आवेदन प्रक्रिया के लिए कृपया अपने बैंक, सहकारी समिति, कॉमन सर्विस सेंटर (CSC) या कृषि विभाग से तुरंत संपर्क करें।"

  /** Insurance information: always the PMFBY scheme, and an info text that
      starts with "<crop> के लिए" and names the scheme. */
  function GetInsuranceInfo(crop: string, location: string): (r: InsuranceInfo)
    ensures r.schemeName == Pmfby
    ensures StartsWith(r.info, crop + " के लिए") && Contains(r.info, Pmfby)
  {
    var info := crop + " के लिए" + " " + Pmfby + InsuranceDetails;
    StartsWithConcat4(crop + " के लिए", " ", Pmfby, InsuranceDetails);
    ContainsMiddle(crop + " के लिए" + " ", Pmfby, InsuranceDetails);
    InsuranceInfo(Pmfby, info)
  }
}
