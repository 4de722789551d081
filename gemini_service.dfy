/** The response normaliser (services/geminiService.ts): it turns the text and
    grounding metadata of a generative-AI reply into grounding sources, a
    parsed JSON value, a list of raw IPO items and a fully populated risk
    analysis. The network call is a parameter (`CallOutcome`), and so is
    `JSON.parse` (`parse`, where None means that it throws). */
module GeminiService {
  import opened Wrappers
  import opened Json
  import opened JsText
  import opened Types

  // ------------------------------------------------------ the reply's shape

  datatype Web = Web(uri: Option<string>, title: Option<string>)

  /** One grounding chunk; `web` is absent for non-web citations. */
  datatype Chunk = Chunk(web: Option<Web>)

  /** What the service reads of a reply: `response.text` and
      `response.candidates?.[0]?.groundingMetadata?.groundingChunks`. */
  datatype Response = Response(text: Option<string>, groundingChunks: Option<seq<Chunk>>)

  /** An awaited external call: it returns a value or throws. */
  datatype CallOutcome<T> = Returned(value: T) | Threw

  // ------------------------------------------------------- extractSources

  /** `chunk.web && chunk.web.uri`: the chunk has a web citation with a
      non-empty URI. */
  predicate HasUri(c: Chunk) {
    c.web.Some? && c.web.value.uri.Some? && c.web.value.uri.value != ""
  }

  /** The source for a chunk: the URI as it is, the title or else 'Source'. */
  function SourceOf(c: Chunk): GroundingSource
    requires HasUri(c)
  {
    var w := c.web.value;
    GroundingSource(if w.title.Some? && w.title.value != "" then w.title.value else "Source", w.uri.value)
  }

  /** `chunks.filter(...).map(...)`. */
  function SourcesOf(cs: seq<Chunk>): seq<GroundingSource> {
    if |cs| == 0 then []
    else if HasUri(cs[0]) then [SourceOf(cs[0])] + SourcesOf(cs[1..])
    else SourcesOf(cs[1..])
  }

  /** `extractSources(response)`: no chunks give no sources. */
  function ExtractSources(r: Response): seq<GroundingSource> {
    if r.groundingChunks.None? then [] else SourcesOf(r.groundingChunks.value)
  }

  /** The positions, in increasing order, of the chunks that carry a URI. */
  function KeptIndices(cs: seq<Chunk>, from: nat): seq<nat>
    requires from <= |cs|
    decreases |cs| - from
  {
    if from == |cs| then []
    else if HasUri(cs[from]) then [from] + KeptIndices(cs, from + 1)
    else KeptIndices(cs, from + 1)
  }

  lemma {:induction false} KeptIndicesSpec(cs: seq<Chunk>, from: nat)
    requires from <= |cs|
    ensures forall k :: 0 <= k < |KeptIndices(cs, from)| ==> from <= KeptIndices(cs, from)[k] < |cs|
    ensures forall k :: 0 <= k < |KeptIndices(cs, from)| ==> HasUri(cs[KeptIndices(cs, from)[k]])
    ensures forall k, m :: 0 <= k < m < |KeptIndices(cs, from)| ==> KeptIndices(cs, from)[k] < KeptIndices(cs, from)[m]
    ensures forall j :: from <= j < |cs| && HasUri(cs[j]) ==> j in KeptIndices(cs, from)
    decreases |cs| - from
  {
    if from < |cs| {
      KeptIndicesSpec(cs, from + 1);
      var rest := KeptIndices(cs, from + 1);
      var ix := KeptIndices(cs, from);
      if HasUri(cs[from]) {
        assert ix == [from] + rest;
        forall k | 0 <= k < |ix| ensures from <= ix[k] < |cs| && HasUri(cs[ix[k]]) {
          if k > 0 { assert ix[k] == rest[k - 1]; }
        }
        forall k, m | 0 <= k < m < |ix| ensures ix[k] < ix[m] {
          assert ix[m] == rest[m - 1];
          if k > 0 { assert ix[k] == rest[k - 1]; }
        }
      } else {
        assert ix == rest;
      }
    }
  }

  lemma {:induction false} SourcesOfFrom(cs: seq<Chunk>, from: nat)
    requires from <= |cs|
    ensures var ix := KeptIndices(cs, from);
      && |SourcesOf(cs[from..])| == |ix|
      && (forall k :: 0 <= k < |ix| ==> from <= ix[k] < |cs|)
      && (forall k :: 0 <= k < |ix| ==> HasUri(cs[ix[k]]))
      && (forall k :: 0 <= k < |ix| ==> SourcesOf(cs[from..])[k] == SourceOf(cs[ix[k]]))
    decreases |cs| - from
  {
    KeptIndicesSpec(cs, from);
    if from < |cs| {
      SourcesOfFrom(cs, from + 1);
      assert cs[from..][1..] == cs[from + 1..];
      var ix := KeptIndices(cs, from);
      var rest := KeptIndices(cs, from + 1);
      if HasUri(cs[from]) {
        assert ix == [from] + rest;
        assert SourcesOf(cs[from..]) == [SourceOf(cs[from])] + SourcesOf(cs[from + 1..]);
        forall k | 0 <= k < |ix| ensures SourcesOf(cs[from..])[k] == SourceOf(cs[ix[k]]) {
          if k > 0 { assert ix[k] == rest[k - 1]; }
        }
      } else {
        assert ix == rest;
        assert SourcesOf(cs[from..]) == SourcesOf(cs[from + 1..]);
      }
    }
  }

  /** `extractSources` keeps, in their order, exactly the chunks with a URI:
      the k-th source comes from the k-th such chunk, its URI copied and its
      title the chunk's title or 'Source'. */
  lemma ExtractSourcesKeepsUriChunks(r: Response)
    requires r.groundingChunks.Some?
    ensures var cs := r.groundingChunks.value;
      var ix := KeptIndices(cs, 0);
      && |ExtractSources(r)| == |ix|
      && (forall k :: 0 <= k < |ix| ==> ix[k] < |cs|)
      && (forall k :: 0 <= k < |ix| ==> HasUri(cs[ix[k]]))
      && (forall k, m :: 0 <= k < m < |ix| ==> ix[k] < ix[m])
      && (forall j :: 0 <= j < |cs| ==> (j in ix <==> HasUri(cs[j])))
      && (forall k :: 0 <= k < |ix| ==>
            && ExtractSources(r)[k].uri == cs[ix[k]].web.value.uri.value
            && ExtractSources(r)[k].title ==
                 (if cs[ix[k]].web.value.title.Some? && cs[ix[k]].web.value.title.value != ""
                  then cs[ix[k]].web.value.title.value else "Source"))
  {
    var cs := r.groundingChunks.value;
    KeptIndicesSpec(cs, 0);
    SourcesOfFrom(cs, 0);
    assert cs[0..] == cs;
  }

  // -------------------------------------------------------- the two searches

  /** The opening fence of the first pattern, three backticks, `json` and a newline. */
  const FenceOpen: string := "```json\n"
  /** The closing fence: a newline and three backticks. */
  const FenceClose: string := "\n```"

  /** The first position at or after `from` where `pat` occurs. */
  function FindFrom(text: string, pat: string, from: nat): (r: Option<nat>)
    ensures r.Some? ==> from <= r.value && OccursAt(text, pat, r.value)
    ensures r.Some? ==> forall m :: from <= m < r.value ==> !OccursAt(text, pat, m)
    ensures r.None? ==> forall m :: from <= m ==> !OccursAt(text, pat, m)
    decreases |text| - from
  {
    if from + |pat| > |text| then None
    else if OccursAt(text, pat, from) then Some(from)
    else FindFrom(text, pat, from + 1)
  }

  /** `/```json\n([\s\S]*?)\n```/` matches at `i` with the closing fence at `j`. */
  predicate FenceMatch(text: string, i: int, j: int) {
    OccursAt(text, FenceOpen, i) && i + |FenceOpen| <= j && OccursAt(text, FenceClose, j)
  }

  /** The first match of the fence pattern, as (start, position of the closing fence). */
  function FindFence(text: string): Option<(nat, nat)> {
    match FindFrom(text, FenceOpen, 0)
    case None => None
    case Some(i) =>
      match FindFrom(text, FenceClose, i + |FenceOpen|)
      case None => None
      case Some(j) => Some((i, j))
  }

  /** `FindFence` gives what a backtracking regex engine gives: the leftmost
      start, and from it the shortest (lazy) interior; None when the pattern
      matches nowhere. */
  lemma FindFenceIsLeftmostShortest(text: string)
    ensures FindFence(text).Some? ==>
      var (i, j) := FindFence(text).value;
      && FenceMatch(text, i, j)
      && (forall i', j' :: 0 <= i' < i ==> !FenceMatch(text, i', j'))
      && (forall j' :: i + |FenceOpen| <= j' < j ==> !OccursAt(text, FenceClose, j'))
    ensures FindFence(text).None? ==> forall i, j :: !FenceMatch(text, i, j)
  {
    match FindFrom(text, FenceOpen, 0)
    case None =>
    case Some(i) =>
      match FindFrom(text, FenceClose, i + |FenceOpen|)
      case None =>
      case Some(j) =>
  }

  /** The last position of `c` in `text`. */
  function LastIndex(text: string, c: char): (r: Option<nat>)
    ensures r.Some? ==> r.value < |text| && text[r.value] == c
    ensures r.Some? ==> forall m :: r.value < m < |text| ==> text[m] != c
    ensures r.None? ==> forall m :: 0 <= m < |text| ==> text[m] != c
    decreases |text|
  {
    if |text| == 0 then None
    else if text[|text| - 1] == c then Some(|text| - 1)
    else LastIndex(text[..|text| - 1], c)
  }

  /** `({[\s\S]*})|(\[[\s\S]*\])` can match `text[p..q+1]`: a brace pair or a
      bracket pair. */
  predicate BracketMatch(text: string, p: int, q: int) {
    0 <= p < q < |text| && ((text[p] == '{' && text[q] == '}') || (text[p] == '[' && text[q] == ']'))
  }

  /** Where a match starting at `p` ends: the greedy `[\s\S]*` runs to the
      LAST closing character after `p`. */
  function SpanEnd(text: string, p: nat): (r: Option<nat>)
    requires p < |text|
    ensures r.Some? ==> p < r.value < |text|
  {
    var close := if text[p] == '{' then LastIndex(text, '}') else if text[p] == '[' then LastIndex(text, ']') else None;
    if close.Some? && close.value > p then close else None
  }

  /** The first match of the bracket pattern at or after `from`. */
  function FindBracketFrom(text: string, from: nat): (r: Option<(nat, nat)>)
    ensures r.Some? ==> from <= r.value.0 < r.value.1 < |text|
    decreases |text| - from
  {
    if from >= |text| then None
    else
      var e := SpanEnd(text, from);
      if e.Some? then Some((from, e.value)) else FindBracketFrom(text, from + 1)
  }

  lemma {:induction false} FindBracketFromSpec(text: string, from: nat)
    ensures FindBracketFrom(text, from).Some? ==>
      var (p, q) := FindBracketFrom(text, from).value;
      && from <= p && BracketMatch(text, p, q)
      && (forall q' :: BracketMatch(text, p, q') ==> q' <= q)
      && (forall p', q' :: from <= p' < p ==> !BracketMatch(text, p', q'))
    ensures FindBracketFrom(text, from).None? ==> forall p, q :: from <= p ==> !BracketMatch(text, p, q)
    decreases |text| - from
  {
    if from < |text| {
      FindBracketFromSpec(text, from + 1);
    }
  }

  /** The bracket search gives the leftmost start and, from it, the longest
      (greedy) span; None when no brace or bracket pair exists. */
  lemma FindBracketIsLeftmostLongest(text: string)
    ensures FindBracketFrom(text, 0).Some? ==>
      var (p, q) := FindBracketFrom(text, 0).value;
      && BracketMatch(text, p, q)
      && (forall q' :: BracketMatch(text, p, q') ==> q' <= q)
      && (forall p', q' :: 0 <= p' < p ==> !BracketMatch(text, p', q'))
    ensures FindBracketFrom(text, 0).None? ==> forall p, q :: !BracketMatch(text, p, q)
  {
    FindBracketFromSpec(text, 0);
  }

  // ---------------------------------------------------- parseJsonFromText

  /** The slice of `text` handed to `JSON.parse`: the fence interior when it
      is non-empty (`jsonMatch[1]`), the whole fence when the interior is ""
      (`jsonMatch[0]`), else the bracket span, else all of `text`. */
  function CandidateBounds(text: string): (b: (nat, nat))
    ensures b.0 <= b.1 <= |text|
  {
    match FindFence(text)
    case Some((i, j)) =>
      if j > i + |FenceOpen| then (i + |FenceOpen|, j) else (i, j + |FenceClose|)
    case None =>
      match FindBracketFrom(text, 0)
      case Some((p, q)) => (p, q + 1)
      case None => (0, |text|)
  }

  function Candidate(text: string): string {
    var b := CandidateBounds(text);
    text[b.0..b.1]
  }

  /** `parseJsonFromText(text)`: it never throws; a failed parse is `null`. */
  function ParseJsonFromText(text: string, parse: string -> Option<JValue>): (r: JValue)
    ensures parse(Candidate(text)).None? ==> r == JNull
    ensures parse(Candidate(text)).Some? ==> r == parse(Candidate(text)).value
  {
    parse(Candidate(text)).GetOr(JNull)
  }

  /** The first fence match as the regex engine picks it: no match starts
      earlier, and the interior holds no closing fence. */
  ghost predicate FirstFence(text: string, i: int, j: int) {
    && FenceMatch(text, i, j)
    && (forall i', j' :: 0 <= i' < i ==> !FenceMatch(text, i', j'))
    && (forall j' :: i + |FenceOpen| <= j' < j ==> !OccursAt(text, FenceClose, j'))
  }

  /** The bracket match the regex engine picks: leftmost, then longest. */
  ghost predicate FirstBracket(text: string, p: int, q: int) {
    && BracketMatch(text, p, q)
    && (forall p', q' :: 0 <= p' < p ==> !BracketMatch(text, p', q'))
    && (forall q' :: BracketMatch(text, p, q') ==> q' <= q)
  }

  /** What `parseJsonFromText` parses, stated against the two patterns: the
      interior of the first fence when it is non-empty, the whole fence when
      it is empty; with no fence, the first bracket span; with neither, the
      whole text. A failed parse gives `null`. */
  lemma ParseJsonFromTextSpec(text: string, parse: string -> Option<JValue>)
    ensures forall i, j :: FirstFence(text, i, j) ==>
      ParseJsonFromText(text, parse) ==
        parse(if j > i + |FenceOpen| then text[i + |FenceOpen|..j] else text[i..j + |FenceClose|]).GetOr(JNull)
    ensures (forall i, j :: !FenceMatch(text, i, j)) ==>
      forall p, q :: FirstBracket(text, p, q) ==> ParseJsonFromText(text, parse) == parse(text[p..q + 1]).GetOr(JNull)
    ensures (forall i, j :: !FenceMatch(text, i, j)) && (forall p, q :: !BracketMatch(text, p, q)) ==>
      ParseJsonFromText(text, parse) == parse(text).GetOr(JNull)
    ensures (exists i, j :: FenceMatch(text, i, j)) ==> exists i, j :: FirstFence(text, i, j)
    ensures (exists p, q :: BracketMatch(text, p, q)) ==> exists p, q :: FirstBracket(text, p, q)
  {
    FirstMatchesExist(text);
    forall i, j | FirstFence(text, i, j)
      ensures ParseJsonFromText(text, parse) ==
        parse(if j > i + |FenceOpen| then text[i + |FenceOpen|..j] else text[i..j + |FenceClose|]).GetOr(JNull)
    {
      FirstFenceIsFound(text, i, j);
    }
    if forall i, j :: !FenceMatch(text, i, j) {
      NoFenceIsNotFound(text);
      forall p, q | FirstBracket(text, p, q)
        ensures ParseJsonFromText(text, parse) == parse(text[p..q + 1]).GetOr(JNull)
      {
        FirstBracketIsFound(text, p, q);
      }
      if forall p, q :: !BracketMatch(text, p, q) {
        NoBracketIsNotFound(text);
        assert text[0..|text|] == text;
      }
    }
  }

  /** Wherever either pattern matches, it has a first match. */
  lemma FirstMatchesExist(text: string)
    ensures (exists i, j :: FenceMatch(text, i, j)) ==> exists i, j :: FirstFence(text, i, j)
    ensures (exists p, q :: BracketMatch(text, p, q)) ==> exists p, q :: FirstBracket(text, p, q)
  {
    FindFenceIsLeftmostShortest(text);
    FindBracketIsLeftmostLongest(text);
    if FindFence(text).Some? {
      var (i, j) := FindFence(text).value;
      assert FirstFence(text, i, j);
    }
    if FindBracketFrom(text, 0).Some? {
      var (p, q) := FindBracketFrom(text, 0).value;
      assert FirstBracket(text, p, q);
    }
  }

  /** The fence search finds the regex engine's first fence. */
  lemma FirstFenceIsFound(text: string, i: int, j: int)
    requires FirstFence(text, i, j)
    ensures FindFence(text) == Some((i, j))
  {
    FindFenceIsLeftmostShortest(text);
    var (i0, j0) := FindFence(text).value;
    assert !(i0 < i) && !(i < i0);
    assert !(j0 < j) && !(j < j0);
  }

  lemma NoFenceIsNotFound(text: string)
    requires forall i, j :: !FenceMatch(text, i, j)
    ensures FindFence(text).None?
  {
    FindFenceIsLeftmostShortest(text);
  }

  /** The bracket search finds the regex engine's bracket span. */
  lemma FirstBracketIsFound(text: string, p: int, q: int)
    requires FirstBracket(text, p, q)
    ensures FindBracketFrom(text, 0) == Some((p, q))
  {
    FindBracketIsLeftmostLongest(text);
    var (p0, q0) := FindBracketFrom(text, 0).value;
    assert !(p0 < p) && !(p < p0);
  }

  lemma NoBracketIsNotFound(text: string)
    requires forall p, q :: !BracketMatch(text, p, q)
    ensures FindBracketFrom(text, 0).None?
  {
    FindBracketIsLeftmostLongest(text);
  }

  /** A fenced block with a non-empty interior is parsed on its own, whatever
      prose surrounds it, provided no earlier fence opens and the interior
      holds no closing fence. */
  lemma FencedBlockIsParsed(pre: string, body: string, post: string, parse: string -> Option<JValue>)
    requires body != ""
    requires forall m :: 0 <= m < |pre| ==> !OccursAt(pre + FenceOpen + body + FenceClose + post, FenceOpen, m)
    requires forall m :: 0 <= m < |body| ==> !OccursAt(body + FenceClose, FenceClose, m)
    ensures Candidate(pre + FenceOpen + body + FenceClose + post) == body
    ensures ParseJsonFromText(pre + FenceOpen + body + FenceClose + post, parse) == parse(body).GetOr(JNull)
  {
    var text := pre + FenceOpen + body + FenceClose + post;
    var i := |pre|;
    var j := |pre| + |FenceOpen| + |body|;
    OccursBetween(pre, FenceOpen, body + FenceClose + post);
    assert text == pre + FenceOpen + (body + FenceClose + post);
    FirstOccurrence(text, FenceOpen, 0, i);
    OccursBetween(pre + FenceOpen + body, FenceClose, post);
    InteriorHasNoCloseFence(pre + FenceOpen, body, post);
    FirstOccurrence(text, FenceClose, i + |FenceOpen|, j);
    assert FindFence(text) == Some((i, j));
    assert text[i + |FenceOpen|..j] == body;
  }

  /** `pat` occurs where it is placed between two strings. */
  lemma OccursBetween(a: string, pat: string, b: string)
    ensures OccursAt(a + pat + b, pat, |a|)
  {
    assert (a + pat + b)[|a|..|a| + |pat|] == pat;
  }

  /** An occurrence with none before it, from `from` on, is what `FindFrom`
      finds. */
  lemma FirstOccurrence(text: string, pat: string, from: nat, at: nat)
    requires from <= at && OccursAt(text, pat, at)
    requires forall m :: from <= m < at ==> !OccursAt(text, pat, m)
    ensures FindFrom(text, pat, from) == Some(at)
  {
  }

  /** A closing fence that does not occur in `body + FenceClose` before its
      end does not occur in the interior of a whole fenced text either. */
  lemma InteriorHasNoCloseFence(head: string, body: string, post: string)
    requires forall m :: 0 <= m < |body| ==> !OccursAt(body + FenceClose, FenceClose, m)
    ensures forall m :: |head| <= m < |head| + |body| ==> !OccursAt(head + body + FenceClose + post, FenceClose, m)
  {
    var text := head + body + FenceClose + post;
    forall m | |head| <= m < |head| + |body| ensures !OccursAt(text, FenceClose, m) {
      var k := m - |head|;
      assert text[m..m + |FenceClose|] == (body + FenceClose)[k..k + |FenceClose|];
      assert !OccursAt(body + FenceClose, FenceClose, k);
    }
  }

  /** An empty fence interior is falsy, so the whole fence, backticks and all,
      is what gets parsed. */
  lemma EmptyFenceParsesWholeFence(pre: string, post: string)
    requires forall m :: 0 <= m < |pre| ==> !OccursAt(pre + FenceOpen + FenceClose + post, FenceOpen, m)
    ensures Candidate(pre + FenceOpen + FenceClose + post) == FenceOpen + FenceClose
  {
    var text := pre + FenceOpen + FenceClose + post;
    var i := |pre|;
    assert OccursAt(text, FenceOpen, i) by { assert text[i..i + |FenceOpen|] == FenceOpen; }
    assert OccursAt(text, FenceClose, i + |FenceOpen|) by {
      assert text[i + |FenceOpen|..i + |FenceOpen| + |FenceClose|] == FenceClose;
    }
    assert FindFence(text) == Some((i, i + |FenceOpen|));
    assert text[i..i + |FenceOpen| + |FenceClose|] == FenceOpen + FenceClose;
  }

  /** Without a fence the bracket span wins; with neither, the whole text is
      parsed, so text that is not JSON gives `null`. */
  lemma UnfencedCandidate(text: string, parse: string -> Option<JValue>)
    requires forall i, j :: !FenceMatch(text, i, j)
    ensures (exists p, q :: BracketMatch(text, p, q)) <==> FindBracketFrom(text, 0).Some?
    ensures FindBracketFrom(text, 0).Some? ==>
      var (p, q) := FindBracketFrom(text, 0).value;
      && Candidate(text) == text[p..q + 1]
      && BracketMatch(text, p, q)
      && (forall p', q' :: 0 <= p' < p ==> !BracketMatch(text, p', q'))
      && (forall q' :: BracketMatch(text, p, q') ==> q' <= q)
    ensures (forall p, q :: !BracketMatch(text, p, q)) ==> Candidate(text) == text
    ensures (forall p, q :: !BracketMatch(text, p, q)) && parse(text).None? ==>
      ParseJsonFromText(text, parse) == JNull
  {
    FindFenceIsLeftmostShortest(text);
    FindBracketIsLeftmostLongest(text);
    assert FindFence(text).None?;
  }

  // ------------------------------------------------------- getLiveIPOData

  /** What `getLiveIPOData` resolves to. */
  datatype LiveData = LiveData(data: seq<JValue>, sources: seq<GroundingSource>)

  /** `response.text || fallback`. */
  function TextOr(r: Response, fallback: string): string {
    if r.text.Some? && r.text.value != "" then r.text.value else fallback
  }

  /** The list a parsed reply stands for: an array as it is; else an
      object's array `ipos`, tried before its array `data`; else []. */
  function ItemsOf(parsed: JValue): seq<JValue> {
    match parsed
    case JArr(items) => items
    case JObj(f) =>
      if "ipos" in f && f["ipos"].JArr? then f["ipos"].items
      else if "data" in f && f["data"].JArr? then f["data"].items
      else []
    case _ => []
  }

  /** The items `getLiveIPOData` resolves to: none when the call throws. */
  function LiveItems(call: CallOutcome<Response>, parse: string -> Option<JValue>): seq<JValue> {
    if call.Threw? then [] else ItemsOf(ParseJsonFromText(TextOr(call.value, "[]"), parse))
  }

  /** `getLiveIPOData()`: the sources of the reply and the parsed value
      coerced to an array (an array as it is; else an object's array `ipos`,
      tried before its array `data`; else []). A thrown call gives two empty lists. */
  method GetLiveIpoData(call: CallOutcome<Response>, parse: string -> Option<JValue>) returns (r: LiveData)
    ensures call.Threw? ==> r == LiveData([], [])
    ensures call.Returned? ==> r.sources == ExtractSources(call.value)
    ensures r.data == LiveItems(call, parse)
    ensures call.Returned? ==>
      var parsed := ParseJsonFromText(TextOr(call.value, "[]"), parse);
      && (parsed.JArr? ==> r.data == parsed.items)
      && (parsed.JObj? && "ipos" in parsed.fields && parsed.fields["ipos"].JArr? ==>
            r.data == parsed.fields["ipos"].items)
      && (parsed.JObj? && !("ipos" in parsed.fields && parsed.fields["ipos"].JArr?)
            && "data" in parsed.fields && parsed.fields["data"].JArr? ==>
            r.data == parsed.fields["data"].items)
      && (!parsed.JArr? && !(parsed.JObj? && "ipos" in parsed.fields && parsed.fields["ipos"].JArr?)
            && !(parsed.JObj? && "data" in parsed.fields && parsed.fields["data"].JArr?) ==>
            r.data == [])
  {
    if call.Threw? {
      return LiveData([], []);
    }
    var sources := ExtractSources(call.value);
    var data := ParseJsonFromText(TextOr(call.value, "[]"), parse);
    if Truthy(data) && !data.JArr? {
      var ipos := Field(data, "ipos");
      var inner := Field(data, "data");
      if data.JObj? && TruthyField(ipos) && ipos.value.JArr? {
        data := ipos.value;
      } else if data.JObj? && TruthyField(inner) && inner.value.JArr? {
        data := inner.value;
      } else {
        data := JArr([]);
      }
    } else if !Truthy(data) {
      data := JArr([]);
    }
    return LiveData(data.items, sources);
  }

  // ------------------------------------------------------ getRiskAnalysis

  const DefaultLevel: JValue := JStr("Moderate")
  const DefaultSummary: JValue := JStr("Formulating detailed market assessment based on real-time volatility indices and sector specific fundamentals...")
  const DefaultRedFlags: seq<JValue> := [JStr("Potential market volatility impact"), JStr("Evaluating sector-specific liquidity risks")]
  const DefaultStrengths: seq<JValue> := [JStr("Strong sector tailwinds observed"), JStr("Healthy subscription interest indicators")]
  const DefaultScore: JValue := JNum(50.0)
  const DefaultPersona: JValue := JStr("Diversified Retail Investor")
  const DefaultOutlook: JValue := JStr("The sector shows long-term resilience with emerging tailwinds in digital adoption and infrastructure spend.")
  const DefaultStrategy: JValue := JStr("Wait for listing day volume assessment before making final allocation moves.")

  const ErrorLevel: JValue := JStr("Moderate")
  const ErrorSummary: JValue := JStr("Automated assessment in progress. Currently aggregating secondary market signals and fundamental metrics...")
  const ErrorRedFlag: JValue := JStr("System processing real-time signals...")
  const ErrorStrength: JValue := JStr("Historical sector performance is supportive")
  const ErrorScore: JValue := JNum(50.0)
  const ErrorPersona: JValue := JStr("General Portfolio Builder")
  const ErrorOutlook: JValue := JStr("Neutral to Positive outlook pending final subscription tally.")
  const ErrorStrategy: JValue := JStr("Dynamic entry/exit strategy based on listing day GMP variance.")

  /** The fixed result when the call throws. */
  const ErrorAnalysis: RiskAnalysis := RiskAnalysis(
    fundamentals := ErrorLevel,
    stability := ErrorLevel,
    pricing := ErrorLevel,
    sentiment := ErrorLevel,
    summary := ErrorSummary,
    redFlags := [ErrorRedFlag],
    strengths := [ErrorStrength],
    sources := [],
    suitabilityScore := ErrorScore,
    investorPersona := ErrorPersona,
    sectorOutlook := ErrorOutlook,
    listingStrategy := ErrorStrategy
  )

  /** The parsed field is kept when truthy, else the named default is used;
      the default is itself truthy. */
  predicate KeptOrDefault(parsed: Option<JValue>, result: JValue, default: JValue) {
    (TruthyField(parsed) ==> result == parsed.value) && (!TruthyField(parsed) ==> result == default)
  }

  predicate IsNonEmptyArray(v: Option<JValue>) {
    v.Some? && v.value.JArr? && |v.value.items| > 0
  }

  /** `Array.isArray(a?.key) && a.key.length > 0 ? a.key : fallback`. */
  function NonEmptyListOr(analysis: JValue, key: string, fallback: seq<JValue>): seq<JValue> {
    var v := Field(analysis, key);
    if v.Some? && v.value.JArr? && |v.value.items| > 0 then v.value.items else fallback
  }

  /** Every field of the analysis can be rendered: each text or score is
      truthy and both lists are non-empty. */
  predicate FullyPopulated(a: RiskAnalysis) {
    && Truthy(a.fundamentals) && Truthy(a.stability) && Truthy(a.pricing) && Truthy(a.sentiment)
    && Truthy(a.summary) && |a.redFlags| > 0 && |a.strengths| > 0
    && Truthy(a.suitabilityScore) && Truthy(a.investorPersona)
    && Truthy(a.sectorOutlook) && Truthy(a.listingStrategy)
  }

  /** The field-by-field defaulting of a parsed analysis. */
  function Defaulted(analysis: JValue, sources: seq<GroundingSource>): (r: RiskAnalysis)
    ensures FullyPopulated(r) && r.sources == sources
    ensures && KeptOrDefault(Field(analysis, "fundamentals"), r.fundamentals, DefaultLevel)
            && KeptOrDefault(Field(analysis, "stability"), r.stability, DefaultLevel)
            && KeptOrDefault(Field(analysis, "pricing"), r.pricing, DefaultLevel)
            && KeptOrDefault(Field(analysis, "sentiment"), r.sentiment, DefaultLevel)
            && KeptOrDefault(Field(analysis, "summary"), r.summary, DefaultSummary)
            && KeptOrDefault(Field(analysis, "suitabilityScore"), r.suitabilityScore, DefaultScore)
            && KeptOrDefault(Field(analysis, "investorPersona"), r.investorPersona, DefaultPersona)
            && KeptOrDefault(Field(analysis, "sectorOutlook"), r.sectorOutlook, DefaultOutlook)
            && KeptOrDefault(Field(analysis, "listingStrategy"), r.listingStrategy, DefaultStrategy)
    ensures IsNonEmptyArray(Field(analysis, "redFlags")) ==> JArr(r.redFlags) == Field(analysis, "redFlags").value
    ensures !IsNonEmptyArray(Field(analysis, "redFlags")) ==> r.redFlags == DefaultRedFlags
    ensures IsNonEmptyArray(Field(analysis, "strengths")) ==> JArr(r.strengths) == Field(analysis, "strengths").value
    ensures !IsNonEmptyArray(Field(analysis, "strengths")) ==> r.strengths == DefaultStrengths
  {
    RiskAnalysis(
      fundamentals := OrDefault(Field(analysis, "fundamentals"), DefaultLevel),
      stability := OrDefault(Field(analysis, "stability"), DefaultLevel),
      pricing := OrDefault(Field(analysis, "pricing"), DefaultLevel),
      sentiment := OrDefault(Field(analysis, "sentiment"), DefaultLevel),
      summary := OrDefault(Field(analysis, "summary"), DefaultSummary),
      redFlags := NonEmptyListOr(analysis, "redFlags", DefaultRedFlags),
      strengths := NonEmptyListOr(analysis, "strengths", DefaultStrengths),
      sources := sources,
      suitabilityScore := OrDefault(Field(analysis, "suitabilityScore"), DefaultScore),
      investorPersona := OrDefault(Field(analysis, "investorPersona"), DefaultPersona),
      sectorOutlook := OrDefault(Field(analysis, "sectorOutlook"), DefaultOutlook),
      listingStrategy := OrDefault(Field(analysis, "listingStrategy"), DefaultStrategy)
    )
  }

  /** `getRiskAnalysis(ipo, weights)`: never throws and is always fully
      populated; on a reply, the sources are the extracted ones and a parsed
      field survives exactly when it is truthy (lists: non-empty arrays). */
  function GetRiskAnalysis(call: CallOutcome<Response>, parse: string -> Option<JValue>): (r: RiskAnalysis)
    ensures FullyPopulated(r)
    ensures call.Threw? ==> r == ErrorAnalysis
    ensures call.Returned? ==> r.sources == ExtractSources(call.value)
    ensures call.Returned? ==>
      var a := ParseJsonFromText(TextOr(call.value, "{}"), parse);
      && KeptOrDefault(Field(a, "fundamentals"), r.fundamentals, DefaultLevel)
      && KeptOrDefault(Field(a, "stability"), r.stability, DefaultLevel)
      && KeptOrDefault(Field(a, "pricing"), r.pricing, DefaultLevel)
      && KeptOrDefault(Field(a, "sentiment"), r.sentiment, DefaultLevel)
      && KeptOrDefault(Field(a, "summary"), r.summary, DefaultSummary)
      && KeptOrDefault(Field(a, "suitabilityScore"), r.suitabilityScore, DefaultScore)
      && KeptOrDefault(Field(a, "investorPersona"), r.investorPersona, DefaultPersona)
      && KeptOrDefault(Field(a, "sectorOutlook"), r.sectorOutlook, DefaultOutlook)
      && KeptOrDefault(Field(a, "listingStrategy"), r.listingStrategy, DefaultStrategy)
      && (if IsNonEmptyArray(Field(a, "redFlags")) then JArr(r.redFlags) == Field(a, "redFlags").value
          else r.redFlags == DefaultRedFlags)
      && (if IsNonEmptyArray(Field(a, "strengths")) then JArr(r.strengths) == Field(a, "strengths").value
          else r.strengths == DefaultStrengths)
  {
    match call
    case Threw => ErrorAnalysis
    case Returned(resp) =>
      Defaulted(ParseJsonFromText(TextOr(resp, "{}"), parse), ExtractSources(resp))
  }

  /** A reply whose text parses to `{}` gets every named default. */
  lemma EmptyObjectGetsDefaults(resp: Response, parse: string -> Option<JValue>)
    requires parse(Candidate(TextOr(resp, "{}"))) == Some(JObj(map[]))
    ensures var r := GetRiskAnalysis(Returned(resp), parse);
      && r.fundamentals == JStr("Moderate") && r.stability == JStr("Moderate")
      && r.pricing == JStr("Moderate") && r.sentiment == JStr("Moderate")
      && r.suitabilityScore == JNum(50.0)
      && r.investorPersona == JStr("Diversified Retail Investor")
      && r.summary == DefaultSummary && r.redFlags == DefaultRedFlags && r.strengths == DefaultStrengths
      && r.sectorOutlook == DefaultOutlook && r.listingStrategy == DefaultStrategy
  {
  }

  /** A parsed suitability score of 0 is falsy and becomes 50. */
  lemma ZeroScoreBecomesFifty(resp: Response, parse: string -> Option<JValue>, fields: map<string, JValue>)
    requires "suitabilityScore" in fields && fields["suitabilityScore"] == JNum(0.0)
    requires parse(Candidate(TextOr(resp, "{}"))) == Some(JObj(fields))
    ensures GetRiskAnalysis(Returned(resp), parse).suitabilityScore == JNum(50.0)
  {
  }
}
