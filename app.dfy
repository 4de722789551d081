/** The dashboard's record reconciler and listing filter (App.tsx). A fetch
    overlays every AI item on the first fixture record, recomputes its status
    and risk level, appends the processed fixture and keeps the first record
    per symbol; the listing shows the records that match the search term and
    the status and type filters. Dates are day numbers: `today` and the
    fixture's load day are parameters, and so is the date reader `toDay`
    (`new Date(v)`, where None is an invalid date). */
module App {
  import opened Wrappers
  import opened Json
  import opened JsText
  import opened Types
  import opened Constants
  import opened GeminiService

  // ------------------------------------------------------ field look-ups

  /** `r.key` on a record; None is `undefined`. */
  function Get(r: Record, key: string): Option<JValue> {
    if key in r then Some(r[key]) else None
  }

  lemma RecordId(i: IPO)
    ensures "id" in IpoRecord(i) && IpoRecord(i)["id"] == JStr(i.id)
  {
  }

  lemma RecordSymbol(i: IPO)
    ensures "symbol" in IpoRecord(i) && IpoRecord(i)["symbol"] == JStr(i.symbol)
  {
  }

  lemma RecordStatus(i: IPO)
    ensures "status" in IpoRecord(i) && IpoRecord(i)["status"] == JStr(StatusName(i.status))
  {
  }

  lemma RecordRiskLevel(i: IPO)
    ensures "riskLevel" in IpoRecord(i) && IpoRecord(i)["riskLevel"] == JStr(RiskLevelName(i.riskLevel))
  {
  }

  lemma RecordRiskScore(i: IPO)
    ensures "riskScore" in IpoRecord(i) && IpoRecord(i)["riskScore"] == JNum(i.riskScore)
  {
  }

  lemma RecordOpenDate(i: IPO)
    ensures IpoRecord(i)["openDate"] == JStr(DayString(i.openDate))
  {
  }

  lemma RecordCloseDate(i: IPO)
    ensures IpoRecord(i)["closeDate"] == JStr(DayString(i.closeDate))
  {
  }

  lemma RecordSubscription(i: IPO)
    requires i.subscription.Some?
    ensures "subscription" in IpoRecord(i)
    ensures IpoRecord(i)["subscription"] == SubscriptionObject(i.subscription.value)
  {
  }

  lemma RecordLacksSubscription(i: IPO)
    requires i.subscription.None?
    ensures "subscription" !in IpoRecord(i)
  {
  }

  // ---------------------------------------------------- calculateStatus

  /** `item.key ? new Date(item.key) : null`: a date only for a truthy field. */
  function DateIfTruthy(v: Option<JValue>, toDay: JValue -> Option<Day>): Option<Day> {
    if TruthyField(v) then toDay(v.value) else None
  }

  /** `calculateStatus(item)`: Closed once today is past a valid close date;
      else Upcoming while today is before a valid open date; else Live. */
  function CalculateStatus(item: JValue, today: Day, toDay: JValue -> Option<Day>): Status {
    var open := DateIfTruthy(Field(item, "openDate"), toDay);
    var close := DateIfTruthy(Field(item, "closeDate"), toDay);
    if close.Some? && today > close.value then Closed
    else if open.Some? && today < open.value then Upcoming
    else Live
  }

  /** The status of an offering that opens on `open` and closes on `close`,
      as a position of `today` relative to that window. */
  function WindowStatus(open: Day, close: Day, today: Day): Status {
    if today < open then Upcoming else if today <= close then Live else Closed
  }

  /** A past close date makes the item Closed whatever its open date says,
      even one still in the future. */
  lemma ClosedWins(item: JValue, today: Day, toDay: JValue -> Option<Day>)
    requires TruthyField(Field(item, "closeDate"))
    requires toDay(Field(item, "closeDate").value).Some?
    requires today > toDay(Field(item, "closeDate").value).value
    ensures CalculateStatus(item, today, toDay) == Closed
  {
  }

  /** Without usable dates (missing, falsy or invalid) an item is Live. */
  lemma MissingDatesAreLive(item: JValue, today: Day, toDay: JValue -> Option<Day>)
    requires DateIfTruthy(Field(item, "openDate"), toDay).None?
    requires DateIfTruthy(Field(item, "closeDate"), toDay).None?
    ensures CalculateStatus(item, today, toDay) == Live
  {
  }

  /** For valid dates with `open <= close + 1`, the rule order agrees with
      the position of today in the window [open, close]. */
  lemma StatusFollowsWindow(item: JValue, today: Day, toDay: JValue -> Option<Day>)
    requires DateIfTruthy(Field(item, "openDate"), toDay).Some?
    requires DateIfTruthy(Field(item, "closeDate"), toDay).Some?
    requires DateIfTruthy(Field(item, "openDate"), toDay).value <= DateIfTruthy(Field(item, "closeDate"), toDay).value + 1
    ensures CalculateStatus(item, today, toDay) ==
      WindowStatus(DateIfTruthy(Field(item, "openDate"), toDay).value, DateIfTruthy(Field(item, "closeDate"), toDay).value, today)
  {
  }

  /** A fixture record read back with `ReadDay` gets the status of its window. */
  lemma RecordStatusIsWindow(i: IPO, today: Day)
    requires i.openDate <= i.closeDate
    ensures CalculateStatus(JObj(IpoRecord(i)), today, ReadDay) == WindowStatus(i.openDate, i.closeDate, today)
  {
    RecordOpenDate(i);
    RecordCloseDate(i);
    ReadDayString(i.openDate);
    ReadDayString(i.closeDate);
    assert |DayString(i.openDate)| > 0 && |DayString(i.closeDate)| > 0;
    StatusFollowsWindow(JObj(IpoRecord(i)), today, ReadDay);
  }

  // -------------------------------------------------------- the risk level

  /** `Number(v)` for a JSON value; None is NaN. Strings are read as optionally
      signed decimal integers after trimming, and "" as 0; an array converts
      through its string form. */
  function ToNumber(v: JValue): Option<real> {
    match v
    case JNull => Some(0.0)
    case JBool(b) => Some(if b then 1.0 else 0.0)
    case JNum(n) => Some(n)
    case JStr(s) =>
      if Trim(s) == "" then Some(0.0)
      else if ParseInt(Trim(s)).Some? then Some(ParseInt(Trim(s)).value as real)
      else None
    case JArr(items) =>
      if |items| == 0 then Some(0.0)
      else if |items| == 1 && (items[0].JNull? || items[0].JNum? || items[0].JStr? || items[0].JArr?) then ToNumber(items[0])
      else None
    case JObj(_) => None
  }

  /** The level for a score: below 40 Low, below 70 Moderate, else High.
      Both comparisons with NaN are false, so NaN is High. */
  function LevelForScore(s: Option<real>): RiskLevel {
    if s.Some? && s.value < 40.0 then Low
    else if s.Some? && s.value < 70.0 then Moderate
    else High
  }

  /** The score `item.riskScore || 50` stands for. */
  function ScoreOf(item: JValue): Option<real> {
    ToNumber(OrDefault(Field(item, "riskScore"), JNum(50.0)))
  }

  /** `riskLevel` of a processed item, computed from the raw item. */
  function RiskLevelOf(item: JValue): RiskLevel {
    LevelForScore(ScoreOf(item))
  }

  /** The breakpoints: 39 is Low, 40 and 69 are Moderate, 70 is High. */
  lemma RiskBreakpoints()
    ensures LevelForScore(Some(39.0)) == Low
    ensures LevelForScore(Some(40.0)) == Moderate
    ensures LevelForScore(Some(69.0)) == Moderate
    ensures LevelForScore(Some(70.0)) == High
  {
  }

  function LevelRank(l: RiskLevel): nat {
    match l
    case Low => 0
    case Moderate => 1
    case High => 2
  }

  /** A higher score never gives a lower level. */
  lemma LevelIsMonotone(x: real, y: real)
    requires x <= y
    ensures LevelRank(LevelForScore(Some(x))) <= LevelRank(LevelForScore(Some(y)))
  {
  }

  /** Each level is exactly one band of scores. */
  lemma LevelBands(x: real)
    ensures LevelForScore(Some(x)) == Low <==> x < 40.0
    ensures LevelForScore(Some(x)) == Moderate <==> 40.0 <= x < 70.0
    ensures LevelForScore(Some(x)) == High <==> 70.0 <= x
  {
  }

  /** An item with no score, or a score of 0, is Moderate (the default 50). */
  lemma MissingOrZeroScoreIsModerate(item: JValue)
    requires Field(item, "riskScore").None? || Field(item, "riskScore") == Some(JNum(0.0))
    ensures RiskLevelOf(item) == Moderate
  {
  }

  // ------------------------------------------------------------ processItems

  /** The own enumerable properties an array contributes to a spread: one per
      index, keyed by its decimal form. */
  function IndexKeys(items: seq<JValue>): map<string, JValue>
    decreases |items|
  {
    if |items| == 0 then map[]
    else IndexKeys(items[..|items| - 1])[NatToString(|items| - 1) := items[|items| - 1]]
  }

  /** The spread of an array has exactly one key per index, the index in
      decimal, holding the element at that index. */
  lemma {:induction false} IndexKeysSpec(items: seq<JValue>)
    ensures forall k :: 0 <= k < |items| ==> NatToString(k) in IndexKeys(items) && IndexKeys(items)[NatToString(k)] == items[k]
    ensures forall key :: key in IndexKeys(items) ==> exists k :: 0 <= k < |items| && key == NatToString(k)
    decreases |items|
  {
    if |items| > 0 {
      var n := |items| - 1;
      var prefix := items[..n];
      var m := IndexKeys(prefix);
      IndexKeysSpec(prefix);
      assert IndexKeys(items) == m[NatToString(n) := items[n]];
      forall k | 0 <= k < |items|
        ensures NatToString(k) in IndexKeys(items) && IndexKeys(items)[NatToString(k)] == items[k]
      {
        if k < n {
          if NatToString(k) == NatToString(n) { NatToStringInjective(k, n); }
          assert prefix[k] == items[k];
        }
      }
      forall key | key in IndexKeys(items) ensures exists k :: 0 <= k < |items| && key == NatToString(k) {
        if key != NatToString(n) {
          var k :| 0 <= k < n && key == NatToString(k);
        }
      }
    }
  }

  /** The one-character strings of `s`, in order. */
  function CharStrings(s: string): seq<JValue>
    decreases |s|
  {
    if |s| == 0 then [] else [JStr([s[0]])] + CharStrings(s[1..])
  }

  /** `...item`: an object's own fields; an array's or a string's indices
      (a string spreads one-character strings); nothing for the rest. */
  function Spread(item: JValue): map<string, JValue> {
    match item
    case JObj(f) => f
    case JArr(items) => IndexKeys(items)
    case JStr(s) => IndexKeys(CharStrings(s))
    case _ => map[]
  }

  /** The three keys the reconciler writes last. */
  predicate Computed(key: string) {
    key == "id" || key == "status" || key == "riskLevel"
  }

  /** One item of `processItems`: `{...fallback, ...item, id, status,
      riskLevel}`. A null item throws (None): `item.id` is read on null. */
  function ProcessItem(item: JValue, token: string, fallback: Record, today: Day, toDay: JValue -> Option<Day>): Option<Record> {
    if item.JNull? then None
    else Some(fallback + Spread(item) + map[
      "id" := OrDefault(Field(item, "id"), JStr(token)),
      "status" := JStr(StatusName(CalculateStatus(item, today, toDay))),
      "riskLevel" := JStr(RiskLevelName(RiskLevelOf(item)))])
  }

  /** `{...base, ...top, ...last}` for three records, with `last` holding only
      the computed keys. */
  lemma OverlayOfThree(base: Record, top: Record, last: Record)
    requires forall key :: key in last ==> Computed(key)
    ensures (base + top + last).Keys == base.Keys + top.Keys + last.Keys
    ensures forall key :: key in top && !Computed(key) ==> (base + top + last)[key] == top[key]
    ensures forall key :: key in base && key !in top && !Computed(key) ==> (base + top + last)[key] == base[key]
  {
  }

  /** The item's own fields override the fallback record and the fallback
      fills in every other field. */
  lemma ProcessedRecordOverlay(item: JValue, token: string, fallback: Record, today: Day, toDay: JValue -> Option<Day>)
    requires !item.JNull?
    ensures ProcessItem(item, token, fallback, today, toDay).Some?
    ensures ProcessItem(item, token, fallback, today, toDay).value.Keys == fallback.Keys + Spread(item).Keys + {"id", "status", "riskLevel"}
    ensures forall key :: key in Spread(item) && !Computed(key) ==>
      ProcessItem(item, token, fallback, today, toDay).value[key] == Spread(item)[key]
    ensures forall key :: key in fallback && key !in Spread(item) && !Computed(key) ==>
      ProcessItem(item, token, fallback, today, toDay).value[key] == fallback[key]
  {
    var last := map[
      "id" := OrDefault(Field(item, "id"), JStr(token)),
      "status" := JStr(StatusName(CalculateStatus(item, today, toDay))),
      "riskLevel" := JStr(RiskLevelName(RiskLevelOf(item)))];
    assert last.Keys == {"id", "status", "riskLevel"};
    OverlayOfThree(fallback, Spread(item), last);
  }

  /** The id is the item's own when truthy, else the generated token; the
      status and the level are the ones computed from the raw item. */
  lemma ProcessedRecordComputed(item: JValue, token: string, fallback: Record, today: Day, toDay: JValue -> Option<Day>)
    requires !item.JNull?
    ensures var r := ProcessItem(item, token, fallback, today, toDay).value;
      && (TruthyField(Field(item, "id")) ==> r["id"] == Field(item, "id").value)
      && (!TruthyField(Field(item, "id")) ==> r["id"] == JStr(token))
      && r["status"] == JStr(StatusName(CalculateStatus(item, today, toDay)))
      && r["riskLevel"] == JStr(RiskLevelName(RiskLevelOf(item)))
  {
  }

  /** `items.map(f)` for a callback that may throw (None): the whole map
      throws when one call does; the call on the k-th item gets `base + k`. */
  function MapOrThrow(items: seq<JValue>, base: nat, f: (JValue, nat) -> Option<Record>): (r: Option<seq<Record>>)
    ensures r.Some? ==> |r.value| == |items|
    decreases |items|
  {
    if |items| == 0 then Some([])
    else
      var head := f(items[0], base);
      var tail := MapOrThrow(items[1..], base + 1, f);
      if head.None? || tail.None? then None else Some([head.value] + tail.value)
  }

  /** The map throws exactly when some call throws; otherwise its k-th
      element is the k-th call's result. */
  lemma {:induction false} MapOrThrowSpec(items: seq<JValue>, base: nat, f: (JValue, nat) -> Option<Record>)
    ensures MapOrThrow(items, base, f).None? <==> exists k :: 0 <= k < |items| && f(items[k], base + k).None?
    ensures MapOrThrow(items, base, f).Some? ==>
      forall k :: 0 <= k < |items| ==> Some(MapOrThrow(items, base, f).value[k]) == f(items[k], base + k)
    decreases |items|
  {
    if |items| > 0 {
      MapOrThrowSpec(items[1..], base + 1, f);
      var tail := MapOrThrow(items[1..], base + 1, f);
      forall k | 1 <= k < |items| ensures f(items[k], base + k) == f(items[1..][k - 1], (base + 1) + (k - 1)) {
        assert items[k] == items[1..][k - 1];
      }
      if tail.None? {
        var k :| 0 <= k < |items[1..]| && f(items[1..][k], base + 1 + k).None?;
        assert f(items[k + 1], base + (k + 1)).None?;
      }
      if MapOrThrow(items, base, f).Some? {
        var r := MapOrThrow(items, base, f).value;
        forall k | 0 <= k < |items| ensures Some(r[k]) == f(items[k], base + k) {
          if k > 0 { assert r[k] == tail.value[k - 1]; }
        }
      }
    }
  }

  /** The callback `processItems` maps over its items. */
  function Processor(tokens: nat -> string, fallback: Record, today: Day, toDay: JValue -> Option<Day>): (JValue, nat) -> Option<Record> {
    (item: JValue, k: nat) => ProcessItem(item, tokens(k), fallback, today, toDay)
  }

  /** `processItems(items)`: [] for a non-array; each element overlaid by
      `ProcessItem`, the k-th taking `tokens(k)` as its generated id. */
  function ProcessItems(items: JValue, tokens: nat -> string, fallback: Record, today: Day, toDay: JValue -> Option<Day>): (r: Option<seq<Record>>)
    ensures !items.JArr? ==> r == Some([])
    ensures items.JArr? && r.Some? ==> |r.value| == |items.items|
  {
    if !items.JArr? then Some([])
    else MapOrThrow(items.items, 0, Processor(tokens, fallback, today, toDay))
  }

  /** `processItems` throws exactly when an element is null; otherwise its
      k-th record is the k-th item overlaid on the fallback. */
  lemma ProcessItemsSpec(items: seq<JValue>, tokens: nat -> string, fallback: Record, today: Day, toDay: JValue -> Option<Day>)
    ensures ProcessItems(JArr(items), tokens, fallback, today, toDay).None? <==> JNull in items
    ensures ProcessItems(JArr(items), tokens, fallback, today, toDay).Some? ==>
      forall k :: 0 <= k < |items| ==>
        Some(ProcessItems(JArr(items), tokens, fallback, today, toDay).value[k]) == ProcessItem(items[k], tokens(k), fallback, today, toDay)
  {
    var f := Processor(tokens, fallback, today, toDay);
    MapOrThrowSpec(items, 0, f);
    forall k | 0 <= k < |items| ensures f(items[k], 0 + k) == ProcessItem(items[k], tokens(k), fallback, today, toDay) {
      assert 0 + k == k;
    }
  }

  /** A listing whose stored fields agree with what the reconciler derives
      on `day`: its level is the band of its (non-zero) score, its status the
      position of `day` in its window, and its id is non-empty. */
  predicate Consistent(i: IPO, day: Day) {
    && i.openDate <= i.closeDate && i.id != "" && i.riskScore != 0.0
    && LevelForScore(Some(i.riskScore)) == i.riskLevel
    && WindowStatus(i.openDate, i.closeDate, day) == i.status
  }

  /** Every fixture record is consistent on the fixture's load day: the
      stored levels Low, Moderate and Low are the bands of 35, 45 and 25, and
      the stored statuses Closed, Live and Upcoming are those of the windows. */
  lemma FixtureIsConsistent(loadDay: Day)
    ensures forall k :: 0 <= k < |MockIpos(loadDay)| ==> Consistent(MockIpos(loadDay)[k], loadDay)
  {
    MockIposDates(loadDay);
    MockIposShape(loadDay);
  }

  /** A record read back from its stored form gets its stored level. */
  lemma RecordLevelAgrees(i: IPO)
    requires i.riskScore != 0.0 && LevelForScore(Some(i.riskScore)) == i.riskLevel
    ensures RiskLevelOf(JObj(IpoRecord(i))) == i.riskLevel
  {
    RecordRiskScore(i);
  }

  /** Processing a consistent record on `day` keeps every stored field: the
      recomputed id, status and level equal the stored ones. */
  lemma ProcessingKeepsConsistentRecord(i: IPO, day: Day, token: string, fallback: Record)
    requires Consistent(i, day)
    ensures ProcessItem(JObj(IpoRecord(i)), token, fallback, day, ReadDay).Some?
    ensures forall key :: key in IpoRecord(i) ==>
      key in ProcessItem(JObj(IpoRecord(i)), token, fallback, day, ReadDay).value
      && ProcessItem(JObj(IpoRecord(i)), token, fallback, day, ReadDay).value[key] == IpoRecord(i)[key]
  {
    RecordId(i);
    RecordStatus(i);
    RecordRiskLevel(i);
    RecordStatusIsWindow(i, day);
    RecordLevelAgrees(i);
    ProcessingKeepsAgreeingRecord(IpoRecord(i), token, fallback, day, ReadDay);
  }

  /** A stored record whose id is truthy and whose status and level are the
      ones computed from it comes out of processing unchanged (plus the
      fallback's other fields). */
  lemma ProcessingKeepsAgreeingRecord(stored: Record, token: string, fallback: Record, day: Day, toDay: JValue -> Option<Day>)
    requires "id" in stored && Truthy(stored["id"])
    requires "status" in stored && stored["status"] == JStr(StatusName(CalculateStatus(JObj(stored), day, toDay)))
    requires "riskLevel" in stored && stored["riskLevel"] == JStr(RiskLevelName(RiskLevelOf(JObj(stored))))
    ensures ProcessItem(JObj(stored), token, fallback, day, toDay).Some?
    ensures forall key :: key in stored ==>
      key in ProcessItem(JObj(stored), token, fallback, day, toDay).value
      && ProcessItem(JObj(stored), token, fallback, day, toDay).value[key] == stored[key]
  {
    var item := JObj(stored);
    ProcessedRecordOverlay(item, token, fallback, day, toDay);
    ProcessedRecordComputed(item, token, fallback, day, toDay);
  }

  /** `MOCK_IPOS[0]`, the record every item is overlaid on. */
  function Fallback(fixture: seq<IPO>): Record {
    if |fixture| == 0 then map[] else IpoRecord(fixture[0])
  }

  /** An AI item without a score carries the fallback's stored score but the
      level Moderate, because the level is computed from the raw item. */
  lemma MissingScoreKeepsFallbackScore(fields: map<string, JValue>, fixture: seq<IPO>, token: string, today: Day, toDay: JValue -> Option<Day>)
    requires |fixture| > 0 && "riskScore" !in fields
    ensures var r := ProcessItem(JObj(fields), token, Fallback(fixture), today, toDay);
      && r.Some? && r.value["riskScore"] == JNum(fixture[0].riskScore) && r.value["riskLevel"] == JStr("Moderate")
  {
    RecordRiskScore(fixture[0]);
    ScoreFromFallback(fields, token, Fallback(fixture), today, toDay);
  }

  /** Without a score of its own, an item takes the fallback's score and is
      rated Moderate. */
  lemma ScoreFromFallback(fields: map<string, JValue>, token: string, fallback: Record, today: Day, toDay: JValue -> Option<Day>)
    requires "riskScore" !in fields && "riskScore" in fallback
    ensures var r := ProcessItem(JObj(fields), token, fallback, today, toDay);
      && r.Some? && r.value["riskScore"] == fallback["riskScore"] && r.value["riskLevel"] == JStr("Moderate")
  {
    var item := JObj(fields);
    assert !Computed("riskScore") by { assert "riskScore"[4] != "riskLevel"[4]; }
    MissingOrZeroScoreIsModerate(item);
    ProcessedRecordOverlay(item, token, fallback, today, toDay);
    ProcessedRecordComputed(item, token, fallback, today, toDay);
  }

  /** A listing without a subscription snapshot borrows the fallback's. */
  lemma MissingSubscriptionIsBorrowed(i: IPO, fixture: seq<IPO>, token: string, today: Day, toDay: JValue -> Option<Day>)
    requires |fixture| > 0 && fixture[0].subscription.Some? && i.subscription.None?
    ensures var r := ProcessItem(JObj(IpoRecord(i)), token, Fallback(fixture), today, toDay);
      && r.Some? && "subscription" in r.value
      && r.value["subscription"] == SubscriptionObject(fixture[0].subscription.value)
  {
    var fallback := Fallback(fixture);
    RecordSubscription(fixture[0]);
    assert "subscription" in fallback && fallback["subscription"] == SubscriptionObject(fixture[0].subscription.value);
    RecordLacksSubscription(i);
    assert "subscription" !in Spread(JObj(IpoRecord(i)));
    assert !Computed("subscription");
    ProcessedRecordOverlay(JObj(IpoRecord(i)), token, fallback, today, toDay);
  }

  // ------------------------------------------------------ dedup by symbol

  /** `r.symbol`. */
  function SymbolOf(r: Record): Option<JValue> {
    Get(r, "symbol")
  }

  /** `===` compares `undefined` and primitives by value. */
  predicate ComparesByValue(v: Option<JValue>) {
    v.None? || !(v.value.JArr? || v.value.JObj?)
  }

  /** `a[j].symbol === a[i].symbol`. An array or object symbol is an object
      of its own (each comes from a distinct parsed item), equal only to itself. */
  predicate SameSymbol(a: seq<Record>, j: nat, i: nat)
    requires j < |a| && i < |a|
  {
    SymbolOf(a[j]) == SymbolOf(a[i]) && (j == i || ComparesByValue(SymbolOf(a[i])))
  }

  /** `a.findIndex(t => t.symbol === a[i].symbol)`, searching from `from`:
      the first match, at the latest `i` itself. */
  function FindIndex(a: seq<Record>, i: nat, from: nat): (j: nat)
    requires from <= i < |a|
    ensures from <= j <= i && SameSymbol(a, j, i)
    ensures forall m :: from <= m < j ==> !SameSymbol(a, m, i)
    decreases i - from
  {
    if SameSymbol(a, from, i) then from else FindIndex(a, i, from + 1)
  }

  /** The positions from `from` on that the filter keeps: those whose
      `findIndex` is the position itself. */
  function Kept(a: seq<Record>, from: nat): (ix: seq<nat>)
    requires from <= |a|
    ensures forall k :: 0 <= k < |ix| ==> from <= ix[k] < |a|
    decreases |a| - from
  {
    if from == |a| then []
    else if FindIndex(a, from, 0) == from then [from] + Kept(a, from + 1)
    else Kept(a, from + 1)
  }

  /** `a.filter((v, i, a) => a.findIndex(t => t.symbol === v.symbol) === i)`. */
  function Dedup(a: seq<Record>): seq<Record> {
    var ix := Kept(a, 0);
    seq(|ix|, k requires 0 <= k < |ix| => a[ix[k]])
  }

  lemma {:induction false} KeptSpec(a: seq<Record>, from: nat)
    requires from <= |a|
    ensures forall k, m :: 0 <= k < m < |Kept(a, from)| ==> Kept(a, from)[k] < Kept(a, from)[m]
    ensures forall k :: 0 <= k < |Kept(a, from)| ==> FindIndex(a, Kept(a, from)[k], 0) == Kept(a, from)[k]
    ensures forall i :: from <= i < |a| && FindIndex(a, i, 0) == i ==> i in Kept(a, from)
    decreases |a| - from
  {
    if from < |a| {
      KeptSpec(a, from + 1);
      var rest := Kept(a, from + 1);
      var ix := Kept(a, from);
      if FindIndex(a, from, 0) == from {
        assert ix == [from] + rest;
        forall k | 0 <= k < |ix| ensures FindIndex(a, ix[k], 0) == ix[k] {
          if k > 0 { assert ix[k] == rest[k - 1]; }
        }
        forall k, m | 0 <= k < m < |ix| ensures ix[k] < ix[m] {
          assert ix[m] == rest[m - 1];
          if k > 0 { assert ix[k] == rest[k - 1]; }
        }
        forall i | from <= i < |a| && FindIndex(a, i, 0) == i ensures i in ix {
          if i == from { assert ix[0] == i; } else { assert i in rest; }
        }
      } else {
        assert ix == rest;
      }
    }
  }

  /** The first record with a given symbol is the one `findIndex` reaches
      from any later record with that symbol. */
  lemma FindIndexIsFirst(a: seq<Record>, i: nat)
    requires i < |a|
    ensures FindIndex(a, FindIndex(a, i, 0), 0) == FindIndex(a, i, 0)
  {
    var j := FindIndex(a, i, 0);
    var j' := FindIndex(a, j, 0);
    if j' < j {
      assert SameSymbol(a, j', i);
      assert false;
    }
  }

  /** No two kept records share a symbol that `===` compares by value. */
  lemma DedupSymbolsAreUnique(a: seq<Record>)
    ensures forall p, q :: 0 <= p < q < |Dedup(a)| && ComparesByValue(SymbolOf(Dedup(a)[q])) ==>
      SymbolOf(Dedup(a)[p]) != SymbolOf(Dedup(a)[q])
  {
    KeptSpec(a, 0);
    var ix := Kept(a, 0);
    forall p, q | 0 <= p < q < |Dedup(a)| && ComparesByValue(SymbolOf(Dedup(a)[q]))
      ensures SymbolOf(Dedup(a)[p]) != SymbolOf(Dedup(a)[q])
    {
      assert ix[p] < ix[q];
      assert FindIndex(a, ix[q], 0) == ix[q];
      assert !SameSymbol(a, ix[p], ix[q]);
    }
  }

  /** Every input record is represented: the first record with its symbol is
      kept, so the kept list is order-preserving and loses no symbol. */
  lemma DedupKeepsFirstOccurrences(a: seq<Record>)
    ensures |Dedup(a)| == |Kept(a, 0)|
    ensures forall k :: 0 <= k < |Dedup(a)| ==> Dedup(a)[k] == a[Kept(a, 0)[k]]
    ensures forall k, m :: 0 <= k < m < |Kept(a, 0)| ==> Kept(a, 0)[k] < Kept(a, 0)[m]
    ensures forall i :: 0 <= i < |a| ==>
      FindIndex(a, i, 0) in Kept(a, 0) && SymbolOf(a[FindIndex(a, i, 0)]) == SymbolOf(a[i])
  {
    KeptSpec(a, 0);
    forall i | 0 <= i < |a|
      ensures FindIndex(a, i, 0) in Kept(a, 0)
    {
      FindIndexIsFirst(a, i);
    }
  }

  lemma {:induction false} FindIndexOfPrefix(a: seq<Record>, b: seq<Record>, i: nat, from: nat)
    requires from <= i < |a|
    ensures FindIndex(a + b, i, from) == FindIndex(a, i, from)
    decreases i - from
  {
    assert (a + b)[from] == a[from] && (a + b)[i] == a[i];
    if !SameSymbol(a, from, i) {
      FindIndexOfPrefix(a, b, i, from + 1);
    }
  }

  lemma {:induction false} KeptOfAppend(a: seq<Record>, b: seq<Record>, from: nat)
    requires from <= |a|
    ensures Kept(a + b, from) == Kept(a, from) + Kept(a + b, |a|)
    decreases |a| - from
  {
    if from < |a| {
      KeptOfAppend(a, b, from + 1);
      FindIndexOfPrefix(a, b, from, 0);
    }
  }

  /** De-duplicating `a + b` keeps the de-duplicated `a` as it is, in front. */
  lemma DedupOfAppendKeepsPrefix(a: seq<Record>, b: seq<Record>)
    ensures |Dedup(a)| <= |Dedup(a + b)|
    ensures Dedup(a + b)[..|Dedup(a)|] == Dedup(a)
  {
    KeptOfAppend(a, b, 0);
    var ix := Kept(a, 0);
    assert Kept(a + b, 0)[..|ix|] == ix;
    forall k | 0 <= k < |ix| ensures Dedup(a + b)[k] == Dedup(a)[k] {
      assert Kept(a + b, 0)[k] == ix[k];
    }
  }

  /** A record kept after the de-duplicated AI prefix is a fixture record
      whose by-value symbol no AI record has. */
  lemma DedupTailElement(ai: seq<Record>, mock: seq<Record>, k: nat)
    requires |Dedup(ai)| <= k < |Dedup(ai + mock)|
    ensures Dedup(ai + mock)[k] in mock
    ensures ComparesByValue(SymbolOf(Dedup(ai + mock)[k])) ==>
      forall x :: x in ai ==> SymbolOf(x) != SymbolOf(Dedup(ai + mock)[k])
  {
    var a := ai + mock;
    KeptOfAppend(ai, mock, 0);
    KeptSpec(a, 0);
    var q := Kept(a, 0)[k];
    assert q == Kept(a, |ai|)[k - |Kept(ai, 0)|];
    assert Dedup(a)[k] == a[q] == mock[q - |ai|];
    if ComparesByValue(SymbolOf(a[q])) {
      FirstOfItsSymbol(a, q);
      forall x | x in ai ensures SymbolOf(x) != SymbolOf(a[q]) {
        var j :| 0 <= j < |ai| && ai[j] == x;
        assert a[j] == x;
      }
    }
  }

  /** A kept record whose symbol compares by value has no earlier record
      with that symbol. */
  lemma FirstOfItsSymbol(a: seq<Record>, q: nat)
    requires q < |a| && FindIndex(a, q, 0) == q && ComparesByValue(SymbolOf(a[q]))
    ensures forall j :: 0 <= j < q ==> SymbolOf(a[j]) != SymbolOf(a[q])
  {
    forall j | 0 <= j < q ensures SymbolOf(a[j]) != SymbolOf(a[q]) {
      assert !SameSymbol(a, j, q);
    }
  }

  /** The AI records win: de-duplicating `ai + mock` keeps the de-duplicated
      AI list in front, and after it only fixture records whose symbol
      (compared by value) no AI record has. */
  lemma AiRecordsWin(ai: seq<Record>, mock: seq<Record>)
    ensures |Dedup(ai)| <= |Dedup(ai + mock)|
    ensures Dedup(ai + mock)[..|Dedup(ai)|] == Dedup(ai)
    ensures forall k :: |Dedup(ai)| <= k < |Dedup(ai + mock)| ==>
      Dedup(ai + mock)[k] in mock
      && (ComparesByValue(SymbolOf(Dedup(ai + mock)[k])) ==> forall x :: x in ai ==> SymbolOf(x) != SymbolOf(Dedup(ai + mock)[k]))
  {
    DedupOfAppendKeepsPrefix(ai, mock);
    forall k | |Dedup(ai)| <= k < |Dedup(ai + mock)|
      ensures Dedup(ai + mock)[k] in mock
      ensures ComparesByValue(SymbolOf(Dedup(ai + mock)[k])) ==> forall x :: x in ai ==> SymbolOf(x) != SymbolOf(Dedup(ai + mock)[k])
    {
      DedupTailElement(ai, mock, k);
    }
  }

  // ----------------------------------------------------------------- fetch

  /** The fixture as the list of objects `processItems(MOCK_IPOS)` receives. */
  function AsObjects(fixture: seq<IPO>): (r: seq<JValue>)
    ensures |r| == |fixture|
    ensures forall k :: 0 <= k < |r| ==> r[k] == JObj(IpoRecord(fixture[k]))
    decreases |fixture|
  {
    if |fixture| == 0 then [] else [JObj(IpoRecord(fixture[0]))] + AsObjects(fixture[1..])
  }

  /** The catch path: the fixture with each status recomputed and every
      other stored field, the risk level included, kept. */
  function CatchPath(fixture: seq<IPO>, today: Day, toDay: JValue -> Option<Day>): (r: seq<Record>)
    ensures |r| == |fixture|
    decreases |fixture|
  {
    if |fixture| == 0 then []
    else
      var i := fixture[0];
      [IpoRecord(i)["status" := JStr(StatusName(CalculateStatus(JObj(IpoRecord(i)), today, toDay)))]]
        + CatchPath(fixture[1..], today, toDay)
  }

  /** `{...stored, status}`: the stored record with only its status
      replaced by the one computed from it. */
  predicate StatusRecomputed(r: Record, stored: Record, today: Day, toDay: JValue -> Option<Day>) {
    && r.Keys == stored.Keys
    && "status" in r && r["status"] == JStr(StatusName(CalculateStatus(JObj(stored), today, toDay)))
    && forall key :: key in r && key != "status" ==> r[key] == stored[key]
  }

  /** Overwriting a key a record already has keeps its keys and every other
      value. */
  lemma OverwriteKeepsOthers(stored: Record, key: string, v: JValue)
    requires key in stored
    ensures stored[key := v].Keys == stored.Keys && stored[key := v][key] == v
    ensures forall other :: other in stored && other != key ==> stored[key := v][other] == stored[other]
  {
  }

  /** Replacing a record's status by the one computed from it is
      `{...stored, status}`. */
  lemma HeadRecomputed(stored: Record, today: Day, toDay: JValue -> Option<Day>)
    requires "status" in stored
    ensures StatusRecomputed(stored["status" := JStr(StatusName(CalculateStatus(JObj(stored), today, toDay)))], stored, today, toDay)
  {
    OverwriteKeepsOthers(stored, "status", JStr(StatusName(CalculateStatus(JObj(stored), today, toDay))));
  }

  /** `{...r, status}` for each stored record `r`, the status computed
      from `r`. */
  function Recompute(stored: seq<Record>, today: Day, toDay: JValue -> Option<Day>): (r: seq<Record>)
    ensures |r| == |stored|
    decreases |stored|
  {
    if |stored| == 0 then []
    else
      [stored[0]["status" := JStr(StatusName(CalculateStatus(JObj(stored[0]), today, toDay)))]]
        + Recompute(stored[1..], today, toDay)
  }

  lemma {:induction false} RecomputeSpec(stored: seq<Record>, today: Day, toDay: JValue -> Option<Day>)
    requires forall k :: 0 <= k < |stored| ==> "status" in stored[k]
    ensures forall k :: 0 <= k < |stored| ==> StatusRecomputed(Recompute(stored, today, toDay)[k], stored[k], today, toDay)
    decreases |stored|
  {
    if |stored| > 0 {
      RecomputeSpec(stored[1..], today, toDay);
      HeadRecomputed(stored[0], today, toDay);
      forall k | 1 <= k < |stored|
        ensures StatusRecomputed(Recompute(stored, today, toDay)[k], stored[k], today, toDay)
      {
        assert Recompute(stored, today, toDay)[k] == Recompute(stored[1..], today, toDay)[k - 1];
        assert stored[k] == stored[1..][k - 1];
      }
    }
  }

  /** The fixture's records as stored. */
  function Records(fixture: seq<IPO>): (r: seq<Record>)
    ensures |r| == |fixture|
  {
    seq(|fixture|, k requires 0 <= k < |fixture| => IpoRecord(fixture[k]))
  }

  lemma {:induction false} CatchPathIsRecompute(fixture: seq<IPO>, today: Day, toDay: JValue -> Option<Day>)
    ensures CatchPath(fixture, today, toDay) == Recompute(Records(fixture), today, toDay)
    decreases |fixture|
  {
    if |fixture| > 0 {
      CatchPathIsRecompute(fixture[1..], today, toDay);
      assert Records(fixture)[1..] == Records(fixture[1..]);
    }
  }

  /** Whatever the day, each record of the catch path is its stored fixture
      record with the status recomputed; every other field, the risk level
      included, is the stored one. */
  lemma CatchPathSpec(fixture: seq<IPO>, today: Day, toDay: JValue -> Option<Day>)
    ensures |CatchPath(fixture, today, toDay)| == |fixture|
    ensures forall k :: 0 <= k < |fixture| ==>
      StatusRecomputed(CatchPath(fixture, today, toDay)[k], IpoRecord(fixture[k]), today, toDay)
  {
    CatchPathIsRecompute(fixture, today, toDay);
    forall k | 0 <= k < |fixture| ensures "status" in Records(fixture)[k] {
      RecordStatus(fixture[k]);
    }
    RecomputeSpec(Records(fixture), today, toDay);
  }

  /** On a day where every fixture record is consistent, and with the
      fixture's own date format, the catch path is the fixture as stored. */
  lemma {:induction false} CatchPathIsStoredFixture(fixture: seq<IPO>, day: Day)
    requires forall k :: 0 <= k < |fixture| ==> Consistent(fixture[k], day)
    ensures CatchPath(fixture, day, ReadDay) == Records(fixture)
    decreases |fixture|
  {
    if |fixture| > 0 {
      var i := fixture[0];
      assert Consistent(fixture[0], day);
      assert forall k :: 0 <= k < |fixture[1..]| ==> fixture[1..][k] == fixture[k + 1];
      CatchPathIsStoredFixture(fixture[1..], day);
      RecordStatusIsWindow(i, day);
      RecordStatus(i);
      assert IpoRecord(i)["status" := JStr(StatusName(i.status))] == IpoRecord(i);
    }
  }

  /** The list `fetchData` stores for the items of a reply: the processed AI
      items followed by the processed fixture, one record per symbol; the
      catch path when processing throws. */
  function Reconcile(data: seq<JValue>, tokens: nat -> string, fixture: seq<IPO>, today: Day, toDay: JValue -> Option<Day>): seq<Record> {
    var ai := ProcessItems(JArr(data), tokens, Fallback(fixture), today, toDay);
    var mock := ProcessItems(JArr(AsObjects(fixture)), tokens, Fallback(fixture), today, toDay);
    if ai.Some? && mock.Some? then Dedup(ai.value + mock.value) else CatchPath(fixture, today, toDay)
  }

  /** A null among the reply's items sends the fetch to the catch path; with
      no null the stored list is the de-duplicated merge. */
  lemma ReconcileCatchesNull(data: seq<JValue>, tokens: nat -> string, fixture: seq<IPO>, today: Day, toDay: JValue -> Option<Day>)
    ensures JNull in data ==> Reconcile(data, tokens, fixture, today, toDay) == CatchPath(fixture, today, toDay)
    ensures JNull !in data ==>
      var ai := ProcessItems(JArr(data), tokens, Fallback(fixture), today, toDay);
      var mock := ProcessItems(JArr(AsObjects(fixture)), tokens, Fallback(fixture), today, toDay);
      ai.Some? && mock.Some? && Reconcile(data, tokens, fixture, today, toDay) == Dedup(ai.value + mock.value)
  {
    ProcessItemsSpec(data, tokens, Fallback(fixture), today, toDay);
    ProcessItemsSpec(AsObjects(fixture), tokens, Fallback(fixture), today, toDay);
  }

  /** With pairwise distinct symbols, every position is its own first
      occurrence, so every position is kept. */
  lemma {:induction false} KeptAll(a: seq<Record>, from: nat)
    requires from <= |a|
    requires forall j, i :: 0 <= j < i < |a| ==> SymbolOf(a[j]) != SymbolOf(a[i])
    ensures |Kept(a, from)| == |a| - from
    ensures forall k :: 0 <= k < |a| - from ==> Kept(a, from)[k] == from + k
    decreases |a| - from
  {
    if from < |a| {
      KeptAll(a, from + 1);
      assert FindIndex(a, from, 0) == from;
      assert Kept(a, from) == [from] + Kept(a, from + 1);
    }
  }

  /** De-duplicating records whose symbols are pairwise distinct changes
      nothing. */
  lemma DedupOfDistinct(a: seq<Record>)
    requires forall j, i :: 0 <= j < i < |a| ==> SymbolOf(a[j]) != SymbolOf(a[i])
    ensures Dedup(a) == a
  {
    KeptAll(a, 0);
  }

  /** `r` holds every key of `stored` with the stored value. */
  predicate KeepsStored(r: Record, stored: Record) {
    forall key :: key in stored ==> key in r && r[key] == stored[key]
  }

  /** Processing the fixture on a day where it is consistent throws for no
      record and keeps every stored field of each. */
  lemma ProcessedFixture(fixture: seq<IPO>, tokens: nat -> string, day: Day)
    requires forall k :: 0 <= k < |fixture| ==> Consistent(fixture[k], day)
    ensures ProcessItems(JArr(AsObjects(fixture)), tokens, Fallback(fixture), day, ReadDay).Some?
    ensures var m := ProcessItems(JArr(AsObjects(fixture)), tokens, Fallback(fixture), day, ReadDay).value;
      && |m| == |fixture|
      && forall k :: 0 <= k < |fixture| ==>
        && Some(m[k]) == ProcessItem(JObj(IpoRecord(fixture[k])), tokens(k), Fallback(fixture), day, ReadDay)
        && KeepsStored(m[k], IpoRecord(fixture[k]))
        && SymbolOf(m[k]) == Some(JStr(fixture[k].symbol))
  {
    var fallback := Fallback(fixture);
    var objects := AsObjects(fixture);
    ProcessItemsSpec(objects, tokens, fallback, day, ReadDay);
    assert JNull !in objects by {
      forall k | 0 <= k < |objects| ensures objects[k] != JNull { }
    }
    var m := ProcessItems(JArr(objects), tokens, fallback, day, ReadDay).value;
    forall k | 0 <= k < |fixture|
      ensures Some(m[k]) == ProcessItem(JObj(IpoRecord(fixture[k])), tokens(k), fallback, day, ReadDay)
      ensures KeepsStored(m[k], IpoRecord(fixture[k]))
      ensures SymbolOf(m[k]) == Some(JStr(fixture[k].symbol))
    {
      ProcessingKeepsConsistentRecord(fixture[k], day, tokens(k), fallback);
      RecordSymbol(fixture[k]);
    }
  }

  /** An empty reply leaves only the processed fixture: with consistent
      records and distinct symbols, nothing is dropped, the order is the
      fixture's, and each record keeps every stored field. */
  lemma EmptyReplyShowsProcessedFixture(fixture: seq<IPO>, tokens: nat -> string, day: Day)
    requires forall k :: 0 <= k < |fixture| ==> Consistent(fixture[k], day)
    requires forall j, k :: 0 <= j < k < |fixture| ==> fixture[j].symbol != fixture[k].symbol
    ensures |Reconcile([], tokens, fixture, day, ReadDay)| == |fixture|
    ensures forall k :: 0 <= k < |fixture| ==>
      && Some(Reconcile([], tokens, fixture, day, ReadDay)[k])
           == ProcessItem(JObj(IpoRecord(fixture[k])), tokens(k), Fallback(fixture), day, ReadDay)
      && KeepsStored(Reconcile([], tokens, fixture, day, ReadDay)[k], IpoRecord(fixture[k]))
      && SymbolOf(Reconcile([], tokens, fixture, day, ReadDay)[k]) == Some(JStr(fixture[k].symbol))
  {
    ProcessedFixture(fixture, tokens, day);
    var m := ProcessItems(JArr(AsObjects(fixture)), tokens, Fallback(fixture), day, ReadDay).value;
    assert ProcessItems(JArr([]), tokens, Fallback(fixture), day, ReadDay) == Some([]);
    forall j, i | 0 <= j < i < |m| ensures SymbolOf(m[j]) != SymbolOf(m[i]) { }
    DedupOfDistinct(m);
    assert [] + m == m;
  }

  /** When the service call throws, the dashboard shows the three fixture
      records, TECHVEDA, NXGN and GGRID in that order, each with every
      stored field, and GGRID borrows TECHVEDA's subscription. */
  lemma FailedFetchShowsFixture(loadDay: Day, tokens: nat -> string, parse: string -> Option<JValue>)
    ensures var fixture := MockIpos(loadDay);
      var shown := Reconcile(LiveItems(Threw, parse), tokens, fixture, loadDay, ReadDay);
      && |shown| == 3
      && SymbolOf(shown[0]) == Some(JStr("TECHVEDA"))
      && SymbolOf(shown[1]) == Some(JStr("NXGN"))
      && SymbolOf(shown[2]) == Some(JStr("GGRID"))
      && (forall k :: 0 <= k < 3 ==> KeepsStored(shown[k], IpoRecord(fixture[k])))
      && Get(shown[2], "subscription") == Some(SubscriptionObject(fixture[0].subscription.value))
  {
    var fixture := MockIpos(loadDay);
    FixtureIsConsistent(loadDay);
    MockIposShape(loadDay);
    FallbackRecordFacts(loadDay);
    OnlyGreenGridLacksSubscription(loadDay);
    EmptyReplyShowsProcessedFixture(fixture, tokens, loadDay);
    MissingSubscriptionIsBorrowed(fixture[2], fixture, tokens(2), loadDay, ReadDay);
  }

  /** How `await getLiveIPOData()` ends: it settles with the service's
      own outcome (a reply, or a throw caught inside the service), or it
      rejects because the client constructor, which runs before the
      service's `try`, threw. */
  datatype LiveFetch = Settled(call: CallOutcome<Response>) | Rejected

  /** `lastRefreshed || 'Syncing...'`: the header's refresh label. */
  function PulseLabel(lastRefreshed: string): (r: string)
    ensures r != ""
    ensures lastRefreshed != "" ==> r == lastRefreshed
  {
    if lastRefreshed != "" then lastRefreshed else "Syncing..."
  }

  /** The dashboard's fetched state. */
  class Dashboard {
    /** `MOCK_IPOS`, built once when the module loads. */
    const fixture: seq<IPO>
    var ipos: seq<Record>
    var dashboardSources: seq<GroundingSource>
    var loading: bool
    var lastRefreshed: string

    /** The initial state: nothing fetched, loading; the fixture is the one
        built on `loadDay`. */
    constructor (loadDay: Day)
      ensures fixture == MockIpos(loadDay)
      ensures ipos == [] && dashboardSources == [] && loading && lastRefreshed == ""
    {
      fixture := MockIpos(loadDay);
      ipos := [];
      dashboardSources := [];
      loading := true;
      lastRefreshed := "";
    }

    /** `fetchData()`: sources and the refresh label are set once the reply
        arrives, then the reconciled list (or the catch path); loading ends.
        When the service call rejects, only the catch path runs. */
    method FetchData(fetch: LiveFetch, parse: string -> Option<JValue>, clockLabel: string,
                     tokens: nat -> string, today: Day, toDay: JValue -> Option<Day>)
      modifies this
      ensures !loading
      ensures fetch.Rejected? ==>
        && dashboardSources == old(dashboardSources)
        && lastRefreshed == old(lastRefreshed)
        && ipos == CatchPath(fixture, today, toDay)
      ensures fetch.Settled? ==>
        && dashboardSources == (if fetch.call.Threw? then [] else ExtractSources(fetch.call.value))
        && lastRefreshed == clockLabel
        && ipos == Reconcile(LiveItems(fetch.call, parse), tokens, fixture, today, toDay)
    {
      loading := true;
      if fetch.Rejected? {
        ipos := CatchPath(fixture, today, toDay);
        loading := false;
        return;
      }
      var call := fetch.call;
      var live := GetLiveIpoData(call, parse);
      dashboardSources := live.sources;
      lastRefreshed := clockLabel;
      var ai := ProcessItems(JArr(live.data), tokens, Fallback(fixture), today, toDay);
      var mock := ProcessItems(JArr(AsObjects(fixture)), tokens, Fallback(fixture), today, toDay);
      if ai.Some? && mock.Some? {
        ipos := Dedup(ai.value + mock.value);
      } else {
        ipos := CatchPath(fixture, today, toDay);
      }
      loading := false;
    }
  }

  // ------------------------------------------------------------- the filter

  datatype StatusFilter = AnyStatus | StatusIs(status: Status)
  datatype TypeFilter = AnyType | TypeIs(ipoType: IPOType)

  /** `v.toLowerCase()`; None when `v` is not a string (a TypeError). */
  function LowerOf(v: Option<JValue>): Option<string> {
    if v.Some? && v.value.JStr? then Some(ToLower(v.value.s)) else None
  }

  /** `matchesSearch`: the lower-cased term occurs in the lower-cased company
      name, symbol or sector, tried in that order; None when a field that
      gets read is not a string. */
  function MatchesSearch(r: Record, term: string): Option<bool> {
    var q := ToLower(term);
    var name := LowerOf(Get(r, "companyName"));
    if name.None? then None
    else if Includes(name.value, q) then Some(true)
    else
      var symbol := LowerOf(Get(r, "symbol"));
      if symbol.None? then None
      else if Includes(symbol.value, q) then Some(true)
      else
        var sector := LowerOf(Get(r, "sector"));
        if sector.None? then None else Some(Includes(sector.value, q))
  }

  /** `new Date(v)`: undefined is an invalid date. */
  function NewDate(v: Option<JValue>, toDay: JValue -> Option<Day>): Option<Day> {
    if v.None? then None else toDay(v.value)
  }

  /** `diffDays > 30` is false: the close date is at most 30 days from
      today, or invalid (NaN compares false). */
  predicate WithinThirtyDays(close: Option<Day>, today: Day) {
    close.None? || (-30 <= today - close.value <= 30)
  }

  predicate PassesStatus(r: Record, f: StatusFilter, today: Day, toDay: JValue -> Option<Day>) {
    match f
    case AnyStatus => true
    case StatusIs(s) =>
      Get(r, "status") == Some(JStr(StatusName(s)))
      && (s == Closed ==> WithinThirtyDays(NewDate(Get(r, "closeDate"), toDay), today))
  }

  predicate PassesType(r: Record, f: TypeFilter) {
    f.AnyType? || Get(r, "ipoType") == Some(JStr(IPOTypeName(f.ipoType)))
  }

  /** The filter callback: search first (it may throw), then status, then type. */
  function Shown(r: Record, term: string, sf: StatusFilter, tf: TypeFilter, today: Day, toDay: JValue -> Option<Day>): Option<bool> {
    match MatchesSearch(r, term)
    case None => None
    case Some(hit) => Some(hit && PassesStatus(r, sf, today, toDay) && PassesType(r, tf))
  }

  /** `filteredIpos`: the shown records in order; None when the callback
      throws on some record. */
  function FilteredIpos(ipos: seq<Record>, term: string, sf: StatusFilter, tf: TypeFilter, today: Day, toDay: JValue -> Option<Day>): Option<seq<Record>>
    decreases |ipos|
  {
    if |ipos| == 0 then Some([])
    else
      var head := Shown(ipos[0], term, sf, tf, today, toDay);
      var tail := FilteredIpos(ipos[1..], term, sf, tf, today, toDay);
      if head.None? || tail.None? then None
      else if head.value then Some([ipos[0]] + tail.value)
      else Some(tail.value)
  }

  /** The filter throws exactly when the callback throws on some record;
      otherwise it keeps exactly the records the callback accepts. */
  lemma {:induction false} FilteredIposSpec(ipos: seq<Record>, term: string, sf: StatusFilter, tf: TypeFilter, today: Day, toDay: JValue -> Option<Day>)
    ensures FilteredIpos(ipos, term, sf, tf, today, toDay).None? <==>
      exists k :: 0 <= k < |ipos| && Shown(ipos[k], term, sf, tf, today, toDay).None?
    ensures FilteredIpos(ipos, term, sf, tf, today, toDay).Some? ==>
      |FilteredIpos(ipos, term, sf, tf, today, toDay).value| <= |ipos|
    ensures FilteredIpos(ipos, term, sf, tf, today, toDay).Some? ==>
      forall x :: x in FilteredIpos(ipos, term, sf, tf, today, toDay).value <==>
        x in ipos && Shown(x, term, sf, tf, today, toDay) == Some(true)
    decreases |ipos|
  {
    if |ipos| > 0 {
      var tail := ipos[1..];
      FilteredIposSpec(tail, term, sf, tf, today, toDay);
      assert ipos == [ipos[0]] + tail;
      assert forall k :: 1 <= k < |ipos| ==> ipos[k] == tail[k - 1];
      if FilteredIpos(tail, term, sf, tf, today, toDay).None? {
        var k :| 0 <= k < |tail| && Shown(tail[k], term, sf, tf, today, toDay).None?;
        assert Shown(ipos[k + 1], term, sf, tf, today, toDay).None?;
      }
    }
  }

  /** The filter is order-preserving: filtering a concatenation is the
      concatenation of the filtered parts. */
  lemma {:induction false} FilterOfAppend(a: seq<Record>, b: seq<Record>, term: string, sf: StatusFilter, tf: TypeFilter, today: Day, toDay: JValue -> Option<Day>)
    requires FilteredIpos(a + b, term, sf, tf, today, toDay).Some?
    ensures FilteredIpos(a, term, sf, tf, today, toDay).Some?
    ensures FilteredIpos(b, term, sf, tf, today, toDay).Some?
    ensures FilteredIpos(a + b, term, sf, tf, today, toDay).value ==
      FilteredIpos(a, term, sf, tf, today, toDay).value + FilteredIpos(b, term, sf, tf, today, toDay).value
    decreases |a|
  {
    if |a| == 0 {
      assert a + b == b;
    } else {
      assert (a + b)[0] == a[0];
      assert (a + b)[1..] == a[1..] + b;
      FilterOfAppend(a[1..], b, term, sf, tf, today, toDay);
    }
  }

  /** An empty search term with no status or type filter shows every record
      whose company name is a string. */
  lemma EmptySearchShowsAll(r: Record, today: Day, toDay: JValue -> Option<Day>)
    requires Get(r, "companyName").Some? && Get(r, "companyName").value.JStr?
    ensures Shown(r, "", AnyStatus, AnyType, today, toDay) == Some(true)
  {
    var name := ToLower(Get(r, "companyName").value.s);
    assert OccursAt(name, ToLower(""), 0);
  }

  /** A record without a string company name makes the whole filter throw. */
  lemma NonStringNameThrows(r: Record, term: string, sf: StatusFilter, tf: TypeFilter, today: Day, toDay: JValue -> Option<Day>)
    requires Get(r, "companyName").None? || !Get(r, "companyName").value.JStr?
    ensures FilteredIpos([r], term, sf, tf, today, toDay).None?
  {
    assert Shown([r][0], term, sf, tf, today, toDay).None?;
  }

  /** Under the Closed filter, a Closed record with a valid close date is
      shown exactly when the close date is at most 30 days away; one with an
      invalid close date is always shown. */
  lemma ClosedWindow(r: Record, term: string, today: Day, toDay: JValue -> Option<Day>)
    requires MatchesSearch(r, term) == Some(true)
    requires Get(r, "status") == Some(JStr("Closed"))
    ensures NewDate(Get(r, "closeDate"), toDay).Some? ==>
      ((Shown(r, term, StatusIs(Closed), AnyType, today, toDay) == Some(true))
         <==> (-30 <= today - NewDate(Get(r, "closeDate"), toDay).value <= 30))
    ensures NewDate(Get(r, "closeDate"), toDay).None? ==>
      Shown(r, term, StatusIs(Closed), AnyType, today, toDay) == Some(true)
  {
  }

  /** The Live, Upcoming and type filters are exact comparisons. */
  lemma ExactFilters(r: Record, term: string, s: Status, t: IPOType, today: Day, toDay: JValue -> Option<Day>)
    requires MatchesSearch(r, term) == Some(true)
    requires s != Closed
    ensures Shown(r, term, StatusIs(s), TypeIs(t), today, toDay) == Some(true) <==>
      Get(r, "status") == Some(JStr(StatusName(s))) && Get(r, "ipoType") == Some(JStr(IPOTypeName(t)))
  {
  }
}
