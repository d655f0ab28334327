/** Simulated mandi prices, a price forecast and buyer linkage
    (src/core/market.py). */
module Market {
  import opened Text

  datatype MandiPrice = MandiPrice(mandiName: string, pricePerQuintal: int)

  /** The handler's result: the spoken text and the per-mandi prices. */
  datatype PricesResult = PricesResult(pricesText: string, priceData: seq<MandiPrice>)

  const Mandis: seq<string> := ["कानपुर मंडी", "लखनऊ मंडी", "झाँसी मंडी", "बांदा मंडी"]
  const PriceFloor := 500
  const PricesUnavailable := "अभी मंडी भाव उपलब्ध नहीं हैं।"

  /** The four mandis have distinct names: their first letters differ. */
  lemma MandisDistinct()
    ensures forall a, b :: 0 <= a < b < |Mandis| ==> Mandis[a] != Mandis[b]
  {
    assert Mandis[0][0] == 'क' && Mandis[1][0] == 'ल' && Mandis[2][0] == 'झ' && Mandis[3][0] == 'ब';
  }

  /** The base price per quintal of a crop, 2000 for a crop outside the table. */
  function BasePrice(crop: string): (r: int)
    ensures 1850 <= r <= 4500
    ensures crop !in {"गेहूं", "बाजरा", "धान", "चना"} ==> r == 2000
  {
    var table := map["गेहूं" := 2100, "बाजरा" := 1900, "धान" := 1850, "चना" := 4500];
    if crop in table then table[crop] else 2000
  }

  /** The spread of the simulated price draw: `int(base * 0.1)`. */
  function PriceVariation(base: int): int
  {
    Trunc(base as real * 0.1)
  }

  /** For a non-negative base the spread is a tenth of the base, rounded down. */
  lemma VariationIsTenth(base: nat)
    ensures PriceVariation(base) == base / 10
  {
    var q := base / 10;
    assert q as real <= base as real * 0.1 < q as real + 1.0;
  }

  /** `max(500, price)`. */
  function ClampPrice(price: int): (r: int)
    ensures r >= PriceFloor
    ensures r == price || (price < PriceFloor && r == PriceFloor)
  {
    if price < PriceFloor then PriceFloor else price
  }

  function PriceLine(m: MandiPrice): string
  {
    m.mandiName + " में ~₹" + IntToString(m.pricePerQuintal) + "/क्विंटल"
  }

  function PriceLines(data: seq<MandiPrice>): (r: seq<string>)
    ensures |r| == |data| && forall i :: 0 <= i < |data| ==> r[i] == PriceLine(data[i])
  {
    seq(|data|, i requires 0 <= i < |data| => PriceLine(data[i]))
  }

  function PricesOpening(crop: string): string
  {
    crop + " का वर्तमान भाव: "
  }

  /** The spoken price text: the unavailable text exactly when there are no
      prices, else the opening followed by every mandi's line. */
  function PricesText(crop: string, data: seq<MandiPrice>): (r: string)
    ensures r == PricesUnavailable <==> |data| == 0
    ensures |data| > 0 ==> StartsWith(r, PricesOpening(crop))
                           && forall i :: 0 <= i < |data| ==> Contains(r, PriceLine(data[i]))
  {
    if |data| == 0 then PricesUnavailable
    else
      var joined := Join(PriceLines(data), ", ");
      var r := PricesOpening(crop) + joined + ".";
      assert r[|r| - 1] == '.' && PricesUnavailable[|PricesUnavailable| - 1] == '।';
      StartsWithConcat(PricesOpening(crop), joined + ".");
      assert PricesOpening(crop) + (joined + ".") == r;
      forall i | 0 <= i < |data|
        ensures Contains(r, PriceLine(data[i]))
      {
        JoinContainsPart(PriceLines(data), ", ", i);
        ContainsInfix(PricesOpening(crop), joined, ".", PriceLine(data[i]));
      }
      r
  }

  /** Prices for the sampled mandis `picks`, in sample order, each the base
      price plus its drawn offset and never below 500. */
  function MarketPrices(crop: string, picks: seq<nat>, deltas: seq<int>): (r: PricesResult)
    requires |deltas| == |picks| && DistinctIndices(picks, |Mandis|)
    ensures |r.priceData| == |picks|
    ensures forall i :: 0 <= i < |picks| ==>
              r.priceData[i].mandiName == Mandis[picks[i]] && r.priceData[i].pricePerQuintal >= PriceFloor
    ensures forall i, j :: 0 <= i < j < |picks| ==> r.priceData[i].mandiName != r.priceData[j].mandiName
    ensures r.pricesText == PricesText(crop, r.priceData)
  {
    var base := BasePrice(crop);
    var data := seq(|picks|, i requires 0 <= i < |picks| => MandiPrice(Mandis[picks[i]], ClampPrice(base + deltas[i])));
    MandisDistinct();
    PricesResult(PricesText(crop, data), data)
  }

  /** With offsets drawn within the spread, the floor of 500 never binds for
      a crop of the table or the default: every price is the base plus its
      offset, within a tenth of the base. */
  lemma MarketPricesWithinSpread(crop: string, picks: seq<nat>, deltas: seq<int>)
    requires |deltas| == |picks| && DistinctIndices(picks, |Mandis|)
    requires forall i :: 0 <= i < |deltas| ==>
               -PriceVariation(BasePrice(crop)) <= deltas[i] <= PriceVariation(BasePrice(crop))
    ensures var r := MarketPrices(crop, picks, deltas);
            (forall i :: 0 <= i < |picks| ==>
               r.priceData[i].pricePerQuintal == BasePrice(crop) + deltas[i]
               && BasePrice(crop) - BasePrice(crop) / 10 <= r.priceData[i].pricePerQuintal
                  <= BasePrice(crop) + BasePrice(crop) / 10)
  {
    var base := BasePrice(crop);
    VariationIsTenth(base);
    var r := MarketPrices(crop, picks, deltas);
    forall i | 0 <= i < |picks|
      ensures r.priceData[i].pricePerQuintal == base + deltas[i]
    {
      assert base + deltas[i] >= base - base / 10 >= PriceFloor;
    }
  }

  /** The handler: one price per sampled mandi, appended in sample order.
      `picks` is the simulated sample of one to three distinct mandis and
      `deltas` the simulated offsets within the spread. */
  method GetMarketPrices(crop: string, location: string, picks: seq<nat>, deltas: seq<int>) returns (r: PricesResult)
    requires 1 <= |picks| <= 3 && DistinctIndices(picks, |Mandis|)
    requires |deltas| == |picks|
    requires forall i :: 0 <= i < |deltas| ==>
               -PriceVariation(BasePrice(crop)) <= deltas[i] <= PriceVariation(BasePrice(crop))
    ensures r == MarketPrices(crop, picks, deltas)
  {
    var simulatedPrices: seq<MandiPrice> := [];
    var basePrice := BasePrice(crop);
    var i := 0;
    while i < |picks|
      invariant 0 <= i <= |picks|
      invariant simulatedPrices == MarketPrices(crop, picks, deltas).priceData[..i]
    {
      var price := basePrice + deltas[i];
      price := ClampPrice(price);
      simulatedPrices := simulatedPrices + [MandiPrice(Mandis[picks[i]], price)];
      i := i + 1;
    }
    assert MarketPrices(crop, picks, deltas).priceData[..i] == MarketPrices(crop, picks, deltas).priceData;
    r := PricesResult(PricesText(crop, simulatedPrices), simulatedPrices);
  }

  /** The simulated weekly trends. */
  const Trends: set<real> := {-0.03, -0.01, 0.0, 0.01, 0.04}

  /** The forecast's base: the first mandi's price, or the table price when
      there is none. */
  function ForecastBase(crop: string, data: seq<MandiPrice>): int
  {
    if |data| > 0 then data[0].pricePerQuintal else BasePrice(crop)
  }

  /** `max(500, int(base * (1 + trend * days / 7)))`. */
  function PredictedPrice(base: int, trend: real, daysAhead: int): (p: int)
    ensures p >= PriceFloor
  {
    ClampPrice(Trunc(base as real * (1.0 + trend * (daysAhead as real / 7.0))))
  }

  datatype Movement = Rising | Falling | Steady

  /** Trends above half a percent read as rising, below minus half a percent
      as falling, and the rest as steady. */
  function MovementOf(trend: real): Movement
  {
    if trend > 0.005 then Rising else if trend < -0.005 then Falling else Steady
  }

  function ForecastText(daysAhead: int, m: Movement, price: int): string
  {
    var days := IntToString(daysAhead);
    var p := IntToString(price);
    match m
    case Rising => "पूर्वानुमान: अगले " + days + " दिनों में भाव थोड़ा बढ़कर ₹" + p + "/क्विंटल के आसपास जा सकता है।"
    case Falling => "पूर्वानुमान: अगले " + days + " दिनों में भाव थोड़ा गिरकर ₹" + p + "/क्विंटल के आसपास रह सकता है।"
    case Steady => "पूर्वानुमान: अगले " + days + " दिनों में भाव लगभग स्थिर (₹" + p + "/क्विंटल) रहने की संभावना है।"
  }

  /** The price forecast. It draws its own mandi prices (`picks`, `deltas`)
      and a weekly `trend`, predicts from the first mandi's price and words
      the prediction by the trend's direction. The text names a price of at
      least 500: the first mandi's price when the trend is 0, and over a
      non-negative horizon at least that price when rising and at most it
      when falling. */
  function GetPriceForecast(crop: string, location: string, picks: seq<nat>, deltas: seq<int>, trend: real,
                            daysAhead: int): (r: string)
    requires 1 <= |picks| <= 3 && DistinctIndices(picks, |Mandis|) && |deltas| == |picks|
    requires trend in Trends
    ensures var base := MarketPrices(crop, picks, deltas).priceData[0].pricePerQuintal;
            exists p :: p >= PriceFloor && r == ForecastText(daysAhead, MovementOf(trend), p)
                        && (trend == 0.0 ==> p == base)
                        && (daysAhead >= 0 && MovementOf(trend) == Rising ==> p >= base)
                        && (daysAhead >= 0 && MovementOf(trend) == Falling ==> p <= base)
  {
    var data := MarketPrices(crop, picks, deltas).priceData;
    var p := PredictedPrice(ForecastBase(crop, data), trend, daysAhead);
    ForecastBaseAboveFloor(crop, picks, deltas);
    if daysAhead >= 0 then
      ForecastAgreesWithMovement(ForecastBase(crop, data), trend, daysAhead);
      ForecastText(daysAhead, MovementOf(trend), p)
    else
      ForecastText(daysAhead, MovementOf(trend), p)
  }

  /** The prediction agrees with the wording: over a non-negative horizon a
      rising forecast names at least the base price, a falling one at most
      the base price and a steady one exactly the base price; of the five
      simulated trends only 0 is steady. */
  lemma ForecastAgreesWithMovement(base: int, trend: real, daysAhead: int)
    requires base >= PriceFloor && daysAhead >= 0 && trend in Trends
    ensures MovementOf(trend) == Rising ==> PredictedPrice(base, trend, daysAhead) >= base
    ensures MovementOf(trend) == Falling ==> PredictedPrice(base, trend, daysAhead) <= base
    ensures MovementOf(trend) == Steady <==> trend == 0.0
    ensures MovementOf(trend) == Steady ==> PredictedPrice(base, trend, daysAhead) == base
  {
    var f := 1.0 + trend * (daysAhead as real / 7.0);
    var x := base as real * f;
    if trend > 0.0 {
      assert trend * (daysAhead as real / 7.0) >= 0.0;
      assert x >= base as real by {
        assert x - base as real == base as real * (f - 1.0);
      }
    } else if trend < 0.0 {
      assert trend * (daysAhead as real / 7.0) <= 0.0;
      assert x <= base as real by {
        assert base as real - x == base as real * (1.0 - f);
      }
    } else {
      assert f == 1.0;
    }
  }

  /** The forecast's base is a real price, so the lemma above applies to
      every forecast the handler words. */
  lemma ForecastBaseAboveFloor(crop: string, picks: seq<nat>, deltas: seq<int>)
    requires |deltas| == |picks| && DistinctIndices(picks, |Mandis|)
    ensures ForecastBase(crop, MarketPrices(crop, picks, deltas).priceData) >= PriceFloor
  {
  }

  datatype Buyer = Buyer(name: string, contact: string, kind: string, location: string)

  const BuyersDb: seq<Buyer> := [
    Buyer("प्रगति किसान उत्पादक संगठन (FPO)", "98xxxxxx01", "FPO", "Nearby"),
    Buyer("अग्रवाल अनाज भंडार", "99xxxxxx02", "Local Trader", "Nearby"),
    Buyer("सरकारी खरीद केंद्र (MSPC)", "स्थानीय केंद्र पर संपर्क करें", "Government", "Nearby"),
    Buyer("विकास फूड प्रोसेसिंग यूनिट", "97xxxxxx03", "Processor", "District")
  ]

  /** The handler's result; name and contact stay unset only when no buyer is known. */
  datatype BuyerResult = BuyerResult(message: string, name: Option<string>, contact: Option<string>)

  const DirectMarker := "संपर्क करें"
  const SmsClause := " संपर्क विवरण SMS द्वारा भेजा जाएगा।"

  function BuyerOpening(crop: string, quantity: int): string
  {
    IntToString(quantity) + " क्विंटल " + crop + " के लिए एक संभावित खरीदार: "
  }

  /** Buyer linkage: `pick` is the simulated choice among the known buyers.
      Name and contact come from the same buyer; the message opens with the
      quantity and the crop, and ends with the SMS clause when the contact is
      a number, or tells the farmer to contact the buyer directly when the
      contact says to visit. */
  function FindBuyers(crop: string, location: string, quantity: int, pick: nat): (r: BuyerResult)
    requires pick < |BuyersDb|
    ensures r.name == Some(BuyersDb[pick].name) && r.contact == Some(BuyersDb[pick].contact)
    ensures StartsWith(r.message, BuyerOpening(crop, quantity))
    ensures !Contains(BuyersDb[pick].contact, DirectMarker) ==> EndsWith(r.message, SmsClause)
    ensures Contains(BuyersDb[pick].contact, DirectMarker) ==>
              EndsWith(r.message, " आप सीधे " + BuyersDb[pick].contact + "।")
  {
    var found := BuyersDb[pick];
    OnlyGovernmentCentreIsDirect(pick);
    BuyerMessageShape(crop, quantity, found);
    BuyerResult(BuyerMessage(crop, quantity, found), Some(found.name), Some(found.contact))
  }

  /** The message about one buyer. */
  function BuyerMessage(crop: string, quantity: int, b: Buyer): string
  {
    BuyerOpening(crop, quantity) + b.name + " (" + b.kind + ")।"
    + if b.contact != "" && !Contains(b.contact, DirectMarker) then SmsClause else " आप सीधे " + b.contact + "।"
  }

  lemma BuyerMessageShape(crop: string, quantity: int, b: Buyer)
    requires b.contact != ""
    ensures StartsWith(BuyerMessage(crop, quantity, b), BuyerOpening(crop, quantity))
    ensures !Contains(b.contact, DirectMarker) ==> EndsWith(BuyerMessage(crop, quantity, b), SmsClause)
    ensures Contains(b.contact, DirectMarker) ==> EndsWith(BuyerMessage(crop, quantity, b), " आप सीधे " + b.contact + "।")
  {
    var mid := b.name + " (" + b.kind + ")।";
    var tail := if !Contains(b.contact, DirectMarker) then SmsClause else " आप सीधे " + b.contact + "।";
    assert BuyerMessage(crop, quantity, b) == BuyerOpening(crop, quantity) + (mid + tail);
    assert BuyerMessage(crop, quantity, b) == (BuyerOpening(crop, quantity) + mid) + tail;
    StartsWithConcat(BuyerOpening(crop, quantity), mid + tail);
    EndsWithConcat(BuyerOpening(crop, quantity) + mid, tail);
  }

  /** Only the government purchase centre's contact says to visit; every
      other buyer's contact is a number, sent by SMS. */
  lemma OnlyGovernmentCentreIsDirect(pick: nat)
    requires pick < |BuyersDb|
    ensures Contains(BuyersDb[pick].contact, DirectMarker) <==> pick == 2
    ensures BuyersDb[pick].contact != ""
  {
    if pick == 2 {
      assert OccursAt(BuyersDb[2].contact, DirectMarker, 18);
    } else {
      assert 'स' !in BuyersDb[pick].contact;
      MissingChar(BuyersDb[pick].contact, DirectMarker, 'स');
    }
  }
}
