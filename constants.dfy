/** The fallback fixture `MOCK_IPOS` (constants.ts): three listings whose
    dates are fixed offsets from the day the module was loaded. */
module Constants {
  import opened Wrappers
  import opened Json
  import opened Types

  /** `dateMinus(n)`: the text of the day `n` days before `today`, written
      as a record stores a day. */
  function DateMinus(today: Day, n: int): (s: string)
    ensures ReadDay(JStr(s)) == Some(today - n)
  {
    ReadDayString(today - n);
    DayString(today - n)
  }

  /** `datePlus(n)`: the text of the day `n` days after `today`. */
  function DatePlus(today: Day, n: int): (s: string)
    ensures ReadDay(JStr(s)) == Some(today + n)
  {
    ReadDayString(today + n);
    DayString(today + n)
  }

  function Metric(l: string, v: string, t: Option<Trend>): FinancialMetric {
    FinancialMetric(l, TextValue(v), t)
  }

  const TechVedaCompanyName: string := "TechVeda Solutions Ltd"
  const TechVedaIssueSize: string := "₹1,250 Cr"
  const TechVedaPriceBand: string := "₹420 - ₹441"
  const TechVedaGmp: string := "+₹85 (19%)"
  const TechVedaDescription: string := "Leading provider of enterprise digital transformation services with a focus on AI and Cloud infrastructure."
  const TechVedaRegistrar: string := "Link Intime India Pvt Ltd"
  const TechVedaLeadManager: string := "ICICI Securities"
  const TechVedaSector: string := "Technology"

  function TechVeda(today: Day): IPO {
    IPO(
      id := "1",
      companyName := TechVedaCompanyName,
      symbol := "TECHVEDA",
      status := Closed,
      ipoType := Mainboard,
      issueSize := TechVedaIssueSize,
      priceBand := TechVedaPriceBand,
      lotSize := 34,
      openDate := today - 25,
      closeDate := today - 22,
      listingDate := today - 15,
      gmp := TechVedaGmp,
      listingGainEstimate := None,
      description := TechVedaDescription,
      riskScore := 35.0,
      riskLevel := Low,
      subscription := Some(SubscriptionData(12.5, 4.2, 2.1, 6.8, DateMinus(today, 22))),
      financials := [
        Metric("Revenue Growth", "28% YoY", Some(Up)),
        Metric("EBITDA Margin", "18.5%", Some(Up)),
        Metric("Debt/Equity", "0.12", Some(Neutral))
      ],
      valuation := [
        Metric("P/E Ratio", "24.5", None),
        Metric("Market Cap", "₹5,400 Cr", None)
      ],
      registrar := TechVedaRegistrar,
      leadManager := TechVedaLeadManager,
      sector := TechVedaSector,
      sources := None
    )
  }

  const NexGenCompanyName: string := "NexGen FinTech"
  const NexGenIssueSize: string := "₹850 Cr"
  const NexGenPriceBand: string := "₹180 - ₹195"
  const NexGenGmp: string := "+₹42 (22%)"
  const NexGenDescription: string := "Digital-first banking platform revolutionizing micro-lending for small businesses."
  const NexGenRegistrar: string := "KFin Technologies Ltd"
  const NexGenLeadManager: string := "HDFC Bank"
  const NexGenSector: string := "Finance"

  function NexGen(today: Day): IPO {
    IPO(
      id := "2",
      companyName := NexGenCompanyName,
      symbol := "NXGN",
      status := Live,
      ipoType := SME,
      issueSize := NexGenIssueSize,
      priceBand := NexGenPriceBand,
      lotSize := 75,
      openDate := today - 1,
      closeDate := today + 2,
      listingDate := today + 8,
      gmp := NexGenGmp,
      listingGainEstimate := None,
      description := NexGenDescription,
      riskScore := 45.0,
      riskLevel := Moderate,
      subscription := Some(SubscriptionData(5.2, 2.1, 8.5, 4.8, "Today, 10:00 AM")),
      financials := [
        Metric("CASA Ratio", "42%", Some(Up)),
        Metric("NPA", "1.2%", Some(Down))
      ],
      valuation := [Metric("P/B Ratio", "3.2", None)],
      registrar := NexGenRegistrar,
      leadManager := NexGenLeadManager,
      sector := NexGenSector,
      sources := None
    )
  }

  const GreenGridCompanyName: string := "GreenGrid Renewables"
  const GreenGridIssueSize: string := "₹2,100 Cr"
  const GreenGridPriceBand: string := "₹550 - ₹575"
  const GreenGridGmp: string := "N/A"
  const GreenGridDescription: string := "Sustainable energy infrastructure focusing on solar-wind hybrid projects."
  const GreenGridRegistrar: string := "Link Intime India Pvt Ltd"
  const GreenGridLeadManager: string := "Kotak Mahindra Capital"
  const GreenGridSector: string := "Energy"

  function GreenGrid(today: Day): IPO {
    IPO(
      id := "3",
      companyName := GreenGridCompanyName,
      symbol := "GGRID",
      status := Upcoming,
      ipoType := Mainboard,
      issueSize := GreenGridIssueSize,
      priceBand := GreenGridPriceBand,
      lotSize := 26,
      openDate := today + 15,
      closeDate := today + 18,
      listingDate := today + 25,
      gmp := GreenGridGmp,
      listingGainEstimate := None,
      description := GreenGridDescription,
      riskScore := 25.0,
      riskLevel := Low,
      subscription := None,
      financials := [
        Metric("Capacity", "2.5 GW", Some(Up)),
        Metric("Debt", "₹400 Cr", Some(Neutral))
      ],
      valuation := [Metric("EV/EBITDA", "12.4", None)],
      registrar := GreenGridRegistrar,
      leadManager := GreenGridLeadManager,
      sector := GreenGridSector,
      sources := None
    )
  }

  /** `MOCK_IPOS`, for the day `today` on which the module was loaded. */
  function MockIpos(today: Day): seq<IPO> {
    [TechVeda(today), NexGen(today), GreenGrid(today)]
  }

  /** Three records, ids '1', '2', '3', pairwise distinct symbols. */
  lemma MockIposShape(today: Day)
    ensures |MockIpos(today)| == 3
    ensures MockIpos(today)[0].id == "1" && MockIpos(today)[1].id == "2" && MockIpos(today)[2].id == "3"
    ensures MockIpos(today)[0].symbol == "TECHVEDA" && MockIpos(today)[1].symbol == "NXGN"
            && MockIpos(today)[2].symbol == "GGRID"
    ensures forall j, k :: 0 <= j < k < 3 ==> MockIpos(today)[j].symbol != MockIpos(today)[k].symbol
  {
    var m := MockIpos(today);
    assert m[0].symbol == "TECHVEDA" && m[1].symbol == "NXGN" && m[2].symbol == "GGRID";
    assert "TECHVEDA" != "NXGN" && "TECHVEDA" != "GGRID" && "NXGN" != "GGRID" by {
      assert "TECHVEDA"[0] != "NXGN"[0] && "TECHVEDA"[0] != "GGRID"[0] && "NXGN"[0] != "GGRID"[0];
    }
  }

  /** In every record the offering opens, then closes, then lists; the offsets
      from the load day are (-25, -22, -15), (-1, +2, +8) and (+15, +18, +25). */
  lemma MockIposDates(today: Day)
    ensures forall k :: 0 <= k < |MockIpos(today)| ==>
      MockIpos(today)[k].openDate < MockIpos(today)[k].closeDate < MockIpos(today)[k].listingDate
    ensures MockIpos(today)[0].openDate - today == -25 && MockIpos(today)[0].closeDate - today == -22
            && MockIpos(today)[0].listingDate - today == -15
    ensures MockIpos(today)[1].openDate - today == -1 && MockIpos(today)[1].closeDate - today == 2
            && MockIpos(today)[1].listingDate - today == 8
    ensures MockIpos(today)[2].openDate - today == 15 && MockIpos(today)[2].closeDate - today == 18
            && MockIpos(today)[2].listingDate - today == 25
  {
    var m := MockIpos(today);
    var a, b, c := TechVeda(today), NexGen(today), GreenGrid(today);
    assert a.openDate == today - 25 && a.closeDate == today - 22 && a.listingDate == today - 15;
    assert b.openDate == today - 1 && b.closeDate == today + 2 && b.listingDate == today + 8;
    assert c.openDate == today + 15 && c.closeDate == today + 18 && c.listingDate == today + 25;
    assert m == [a, b, c];
    forall k | 0 <= k < |m| ensures m[k].openDate < m[k].closeDate < m[k].listingDate {
      assert m[k] == a || m[k] == b || m[k] == c;
    }
  }

  /** A record holds its dates as days and stores each one as its text; the
      stored texts are exactly what `dateMinus` and `datePlus` return for
      the offsets of the fixture. */
  lemma MockIposDateTexts(today: Day)
    ensures |MockIpos(today)| == 3
    ensures DayString(MockIpos(today)[0].openDate) == DateMinus(today, 25)
            && DayString(MockIpos(today)[0].closeDate) == DateMinus(today, 22)
            && DayString(MockIpos(today)[0].listingDate) == DateMinus(today, 15)
    ensures DayString(MockIpos(today)[1].openDate) == DateMinus(today, 1)
            && DayString(MockIpos(today)[1].closeDate) == DatePlus(today, 2)
            && DayString(MockIpos(today)[1].listingDate) == DatePlus(today, 8)
    ensures DayString(MockIpos(today)[2].openDate) == DatePlus(today, 15)
            && DayString(MockIpos(today)[2].closeDate) == DatePlus(today, 18)
            && DayString(MockIpos(today)[2].listingDate) == DatePlus(today, 25)
    ensures MockIpos(today)[0].subscription.Some?
            && MockIpos(today)[0].subscription.value.updatedAt == DateMinus(today, 22)
  {
    MockIposDates(today);
    FallbackRecordFacts(today);
    assert MockIpos(today)[0] == TechVeda(today);
  }

  /** Only GreenGrid (GGRID) has no subscription snapshot. */
  lemma OnlyGreenGridLacksSubscription(today: Day)
    ensures forall k :: 0 <= k < |MockIpos(today)| ==>
      (MockIpos(today)[k].subscription.None? <==> MockIpos(today)[k].symbol == "GGRID")
  {
    var m := MockIpos(today);
    assert m[0] == TechVeda(today) && m[1] == NexGen(today) && m[2] == GreenGrid(today);
    assert "TECHVEDA"[0] != "GGRID"[0] && "NXGN"[0] != "GGRID"[0];
  }

  /** The fallback record, TechVeda, is scored 35 and has a subscription
      snapshot, which GreenGrid, the third record, lacks. */
  lemma FallbackRecordFacts(today: Day)
    ensures |MockIpos(today)| == 3
    ensures MockIpos(today)[0].riskScore == 35.0 && MockIpos(today)[0].subscription.Some?
    ensures MockIpos(today)[2].subscription.None?
  {
    var m := MockIpos(today);
    assert m[0] == TechVeda(today) && m[2] == GreenGrid(today);
  }
}
