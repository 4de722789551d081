/** The risk panel (components/RiskEngine.tsx): the three weight sliders,
    the loading lifecycle of an analysis, and the choices the panel makes
    when it shows an analysis. The analysis call is outside the model: a
    start hands back what is asked, and the settled result is an input. */
module RiskEngine {
  import opened Wrappers
  import opened Json
  import opened Types
  import opened GeminiService
  import App

  // ---------------------------------------------------------------- weights

  const InitialWeights: WeightPreferences := WeightPreferences(40, 40, 20)

  datatype WeightKey = FundamentalsKey | ValuationKey | SentimentKey

  function WeightOf(w: WeightPreferences, key: WeightKey): int {
    match key
    case FundamentalsKey => w.fundamentals
    case ValuationKey => w.valuation
    case SentimentKey => w.sentiment
  }

  /** `{ ...weights, [key]: value }`. */
  function WithWeight(w: WeightPreferences, key: WeightKey, value: int): (r: WeightPreferences)
    ensures WeightOf(r, key) == value
    ensures forall other :: other != key ==> WeightOf(r, other) == WeightOf(w, other)
  {
    match key
    case FundamentalsKey => w.(fundamentals := value)
    case ValuationKey => w.(valuation := value)
    case SentimentKey => w.(sentiment := value)
  }

  /** Every weight is a slider position. */
  predicate InRange(w: WeightPreferences) {
    forall key :: 0 <= WeightOf(w, key) <= 100
  }

  /** Moving the same slider twice keeps only the last position; moving two
      different sliders gives the same weights in either order. */
  lemma WithWeightLastWins(w: WeightPreferences, key: WeightKey, a: int, b: int)
    ensures WithWeight(WithWeight(w, key, a), key, b) == WithWeight(w, key, b)
  {
  }

  lemma WithWeightCommutes(w: WeightPreferences, k1: WeightKey, k2: WeightKey, a: int, b: int)
    requires k1 != k2
    ensures WithWeight(WithWeight(w, k1, a), k2, b) == WithWeight(WithWeight(w, k2, b), k1, a)
  {
  }

  /** What a run of the analysis asks for: the listing and the weights. */
  datatype AnalysisRequest = AnalysisRequest(ipo: IPO, weights: WeightPreferences)

  class Panel {
    var ipo: IPO
    var weights: WeightPreferences
    var analysis: Option<RiskAnalysis>
    var loading: bool

    /** Sliders stay between 0 and 100. */
    predicate Valid()
      reads this
    {
      InRange(weights)
    }

    constructor (selected: IPO)
      ensures Valid()
      ensures ipo == selected && weights == InitialWeights && analysis.None? && !loading
    {
      ipo := selected;
      weights := InitialWeights;
      analysis := None;
      loading := false;
    }

    /** A slider change: the moved key takes the slider's position (the
        range input yields an integer from 0 to 100), the others stay. */
    method SetWeight(key: WeightKey, value: int)
      modifies this
      requires Valid()
      requires 0 <= value <= 100
      ensures Valid()
      ensures weights == WithWeight(old(weights), key, value)
      ensures ipo == old(ipo) && analysis == old(analysis) && loading == old(loading)
    {
      weights := WithWeight(weights, key, value);
    }

    /** The first half of `performAnalysis`: loading starts and the current
        listing and weights are sent; the shown analysis stays. */
    method Start() returns (request: AnalysisRequest)
      modifies this
      requires Valid()
      ensures Valid()
      ensures loading && request == AnalysisRequest(ipo, weights)
      ensures ipo == old(ipo) && weights == old(weights) && analysis == old(analysis)
    {
      loading := true;
      request := AnalysisRequest(ipo, weights);
    }

    /** The second half: a result replaces the analysis, a failure keeps the
        previous one, and loading always ends. */
    method Finish(result: Option<RiskAnalysis>)
      modifies this
      requires Valid()
      ensures Valid()
      ensures !loading
      ensures analysis == if result.Some? then result else old(analysis)
      ensures ipo == old(ipo) && weights == old(weights)
    {
      if result.Some? {
        analysis := result;
      }
      loading := false;
    }

    /** The launch button, disabled while loading. */
    method Launch() returns (request: Option<AnalysisRequest>)
      modifies this
      requires Valid()
      ensures Valid()
      ensures old(loading) ==> request.None? && loading
      ensures !old(loading) ==> loading && request == Some(AnalysisRequest(ipo, weights))
      ensures ipo == old(ipo) && weights == old(weights) && analysis == old(analysis)
    {
      if loading {
        return None;
      }
      var r := Start();
      request := Some(r);
    }

    /** The effect on a new listing: the analysis reruns for it, whether or
        not a run is in flight. */
    method IpoChanged(selected: IPO) returns (request: AnalysisRequest)
      modifies this
      requires Valid()
      ensures Valid()
      ensures ipo == selected && loading && request == AnalysisRequest(selected, old(weights))
      ensures weights == old(weights) && analysis == old(analysis)
    {
      ipo := selected;
      request := Start();
    }
  }

  // ------------------------------------------------------------ the display

  const UnavailableSummary: JValue := JStr("Analysis unavailable.")
  const PendingOutlook: JValue := JStr("Sector evaluation pending real-time industry benchmark comparison.")

  datatype SummaryView = Quoted(summary: JValue) | SummaryPlaceholder

  /** The verdict: the summary in quotes when it is truthy and not the
      service's "unavailable" text; otherwise the placeholder sentence. */
  function ShowSummary(a: RiskAnalysis): (r: SummaryView)
    ensures r.Quoted? <==> Truthy(a.summary) && a.summary != UnavailableSummary
    ensures r.Quoted? ==> r.summary == a.summary
  {
    if Truthy(a.summary) && a.summary != UnavailableSummary then Quoted(a.summary) else SummaryPlaceholder
  }

  const RingLength: real := 502.0

  /** `502 - (502 * (score || 50)) / 100`; None stands for NaN. */
  function RingOffset(score: JValue): Option<real> {
    match App.ToNumber(Or(score, JNum(50.0)))
    case None => None
    case Some(s) => Some(RingLength - RingLength * s / 100.0)
  }

  /** For a score from 0 to 100 the ring offset stays within the circle;
      a higher score fills more of it. */
  lemma RingOffsetInCircle(s: real)
    requires 0.0 <= s <= 100.0
    ensures RingOffset(JNum(s)).Some?
    ensures 0.0 <= RingOffset(JNum(s)).value <= RingLength
  {
  }

  lemma RingOffsetDecreases(s: real, t: real)
    requires 0.0 < s <= t
    ensures RingOffset(JNum(t)).value <= RingOffset(JNum(s)).value
  {
  }

  /** The label next to the ring: `score || 0`. */
  function ScoreLabel(score: JValue): JValue {
    Or(score, JNum(0.0))
  }

  /** A zero score draws a half ring yet is labelled 0. */
  lemma ZeroScoreRingAndLabelDisagree()
    ensures RingOffset(JNum(0.0)) == Some(RingLength / 2.0)
    ensures ScoreLabel(JNum(0.0)) == JNum(0.0)
  {
  }

  /** The sector outlook, or a pending sentence when it is falsy. */
  function ShowOutlook(a: RiskAnalysis): (r: JValue)
    ensures Truthy(a.sectorOutlook) ==> r == a.sectorOutlook
    ensures !Truthy(a.sectorOutlook) ==> r == PendingOutlook
    ensures Truthy(r)
  {
    Or(a.sectorOutlook, PendingOutlook)
  }

  datatype ListView = Listed(items: seq<JValue>) | ListPlaceholder(note: string)

  /** A list is shown item by item when it is non-empty, else a note. */
  function ShowList(items: seq<JValue>, note: string): (r: ListView)
    ensures r.Listed? <==> |items| > 0
    ensures r.Listed? ==> r.items == items
    ensures r.ListPlaceholder? ==> r.note == note
  {
    if |items| > 0 then Listed(items) else ListPlaceholder(note)
  }

  function ShowStrengths(a: RiskAnalysis): ListView {
    ShowList(a.strengths, "Scan Incomplete")
  }

  function ShowRedFlags(a: RiskAnalysis): ListView {
    ShowList(a.redFlags, "No Flags Detected")
  }

  /** The grounding block appears only when there are sources. */
  function ShowSources(a: RiskAnalysis): (r: Option<seq<GroundingSource>>)
    ensures r.Some? <==> |a.sources| > 0
    ensures r.Some? ==> r.value == a.sources
  {
    if |a.sources| > 0 then Some(a.sources) else None
  }

  /** Anything the service returns shows both lists and the outlook in full,
      with no placeholder; the error result shows no sources. */
  lemma ServiceAnalysisShowsLists(call: CallOutcome<Response>, parse: string -> Option<JValue>)
    ensures var a := GetRiskAnalysis(call, parse);
      && ShowStrengths(a) == Listed(a.strengths)
      && ShowRedFlags(a) == Listed(a.redFlags)
      && ShowOutlook(a) == a.sectorOutlook
      && (call.Threw? ==> ShowSources(a).None?)
  {
  }

  /** The service's summary is truthy, so the placeholder appears only if
      the summary is exactly "Analysis unavailable.", which the service
      returns only when the model wrote it. */
  lemma ServiceSummaryQuoted(call: CallOutcome<Response>, parse: string -> Option<JValue>)
    ensures var a := GetRiskAnalysis(call, parse);
      ShowSummary(a).SummaryPlaceholder? <==> a.summary == UnavailableSummary
    ensures call.Threw? ==> ShowSummary(GetRiskAnalysis(call, parse)).Quoted?
  {
  }

  /** A full run on a new panel: the service's analysis is stored, loading
      ends, and the lists are shown. */
  method Analyse(selected: IPO, call: CallOutcome<Response>, parse: string -> Option<JValue>)
    returns (request: AnalysisRequest, shown: Option<RiskAnalysis>, loading: bool)
    ensures request == AnalysisRequest(selected, InitialWeights)
    ensures shown == Some(GetRiskAnalysis(call, parse)) && !loading
    ensures ShowStrengths(shown.value).Listed? && ShowRedFlags(shown.value).Listed?
  {
    var panel := new Panel(selected);
    request := panel.IpoChanged(selected);
    panel.Finish(Some(GetRiskAnalysis(call, parse)));
    shown := panel.analysis;
    loading := panel.loading;
    ServiceAnalysisShowsLists(call, parse);
  }
}
