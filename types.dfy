/** The dashboard's domain types (types.ts). Calendar dates are day numbers:
    an `int` counting days, compared and shifted by plain arithmetic. */
module Types {
  import opened Wrappers
  import opened Json
  import opened JsText

  type Day = int

  datatype RiskLevel = Low | Moderate | High
  datatype IPOType = Mainboard | SME
  datatype Status = Live | Upcoming | Closed

  /** The channel of a community message. */
  datatype MessageType = Suggestion | Feedback | General

  datatype GroundingSource = GroundingSource(title: string, uri: string)

  datatype Trend = Up | Down | Neutral

  /** A financial metric's value is a string or a number. */
  datatype MetricValue = TextValue(text: string) | NumberValue(number: real)

  datatype FinancialMetric = FinancialMetric(labelText: string, value: MetricValue, trend: Option<Trend>)

  /** `updatedAt` is free text: the fixture writes a date for one record and
      `'Today, 10:00 AM'` for another. */
  datatype SubscriptionData = SubscriptionData(qib: real, nii: real, retail: real, total: real, updatedAt: string)

  datatype IPO = IPO(
    id: string,
    companyName: string,
    symbol: string,
    status: Status,
    ipoType: IPOType,
    issueSize: string,
    priceBand: string,
    lotSize: int,
    openDate: Day,
    closeDate: Day,
    listingDate: Day,
    gmp: string,
    listingGainEstimate: Option<string>,
    description: string,
    riskScore: real,
    riskLevel: RiskLevel,
    subscription: Option<SubscriptionData>,
    financials: seq<FinancialMetric>,
    valuation: seq<FinancialMetric>,
    registrar: string,
    leadManager: string,
    sector: string,
    sources: Option<seq<GroundingSource>>
  )

  datatype MarketNews = MarketNews(id: string, title: string, url: string, source: string, time: string)

  datatype WeightPreferences = WeightPreferences(fundamentals: int, valuation: int, sentiment: int)

  datatype CommunityMessage = CommunityMessage(id: string, text: string, timestamp: string, msgType: MessageType)

  function RiskLevelName(l: RiskLevel): string {
    match l
    case Low => "Low"
    case Moderate => "Moderate"
    case High => "High"
  }

  function StatusName(s: Status): string {
    match s
    case Live => "Live"
    case Upcoming => "Upcoming"
    case Closed => "Closed"
  }

  function IPOTypeName(t: IPOType): string {
    match t
    case Mainboard => "Mainboard"
    case SME => "SME"
  }

  /** A risk analysis as `getRiskAnalysis` returns it. types.ts declares the
      levels as `RiskLevel` and the texts as strings, but the service casts the
      parsed JSON without checking it, so every AI-supplied field is kept as
      the JSON value the model produced. */
  datatype RiskAnalysis = RiskAnalysis(
    fundamentals: JValue,
    stability: JValue,
    pricing: JValue,
    sentiment: JValue,
    summary: JValue,
    redFlags: seq<JValue>,
    strengths: seq<JValue>,
    sources: seq<GroundingSource>,
    suitabilityScore: JValue,
    investorPersona: JValue,
    sectorOutlook: JValue,
    listingStrategy: JValue
  )

  // ----------------------------------------------- IPO records as JS objects

  /** A listing as the JavaScript object the dashboard holds: spreading an
      AI item over a fixture record keeps whatever values the item carried. */
  type Record = map<string, JValue>

  /** How a day number is written into a record. The fixture's `formatDate`
      writes an ISO date; the model writes the day number in decimal. */
  function DayString(d: Day): string {
    IntToString(d)
  }

  /** A date reader that understands `DayString`; None is an invalid date. */
  function ReadDay(v: JValue): Option<Day> {
    if v.JStr? then ParseInt(v.s) else None
  }

  lemma ReadDayString(d: Day)
    ensures ReadDay(JStr(DayString(d))) == Some(d)
  {
    IntToStringRoundTrip(d);
  }

  function TrendName(t: Trend): string {
    match t
    case Up => "up"
    case Down => "down"
    case Neutral => "neutral"
  }

  function MetricObject(m: FinancialMetric): JValue {
    var value := match m.value
      case TextValue(t) => JStr(t)
      case NumberValue(n) => JNum(n);
    var base := map["label" := JStr(m.labelText), "value" := value];
    JObj(if m.trend.Some? then base["trend" := JStr(TrendName(m.trend.value))] else base)
  }

  function MetricObjects(ms: seq<FinancialMetric>): seq<JValue>
    decreases |ms|
  {
    if |ms| == 0 then [] else [MetricObject(ms[0])] + MetricObjects(ms[1..])
  }

  function MetricArray(ms: seq<FinancialMetric>): JValue {
    JArr(MetricObjects(ms))
  }

  function SubscriptionObject(d: SubscriptionData): JValue {
    JObj(map["qib" := JNum(d.qib), "nii" := JNum(d.nii), "retail" := JNum(d.retail),
             "total" := JNum(d.total), "updatedAt" := JStr(d.updatedAt)])
  }

  function SourceObject(g: GroundingSource): JValue {
    JObj(map["title" := JStr(g.title), "uri" := JStr(g.uri)])
  }

  function SourceObjects(gs: seq<GroundingSource>): seq<JValue>
    decreases |gs|
  {
    if |gs| == 0 then [] else [SourceObject(gs[0])] + SourceObjects(gs[1..])
  }

  /** The keys of the optional fields of an IPO that are present. */
  function OptionalFields(i: IPO): Record {
    (if i.listingGainEstimate.Some? then map["listingGainEstimate" := JStr(i.listingGainEstimate.value)] else map[])
    + (if i.subscription.Some? then map["subscription" := SubscriptionObject(i.subscription.value)] else map[])
    + (if i.sources.Some? then
         map["sources" := JArr(SourceObjects(i.sources.value))]
       else map[])
  }

  /** The object literal for an IPO: one key per field of the interface, the
      optional ones only when present. The keys are distinct, so their order
      in the display does not matter; the ones read back most often come
      last. */
  function IpoRecord(i: IPO): Record {
    var required := map[
      "companyName" := JStr(i.companyName),
      "ipoType" := JStr(IPOTypeName(i.ipoType)),
      "issueSize" := JStr(i.issueSize),
      "priceBand" := JStr(i.priceBand),
      "lotSize" := JNum(i.lotSize as real),
      "listingDate" := JStr(DayString(i.listingDate)),
      "gmp" := JStr(i.gmp),
      "description" := JStr(i.description),
      "financials" := MetricArray(i.financials),
      "valuation" := MetricArray(i.valuation),
      "registrar" := JStr(i.registrar),
      "leadManager" := JStr(i.leadManager),
      "sector" := JStr(i.sector),
      "openDate" := JStr(DayString(i.openDate)),
      "closeDate" := JStr(DayString(i.closeDate)),
      "riskScore" := JNum(i.riskScore),
      "symbol" := JStr(i.symbol),
      "status" := JStr(StatusName(i.status)),
      "riskLevel" := JStr(RiskLevelName(i.riskLevel)),
      "id" := JStr(i.id)
    ];
    required + OptionalFields(i)
  }
}
