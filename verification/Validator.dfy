/** The joint output validator (daybreak_contracts/validation/invariants.py, checks 1, 3, 4, 5, 14,
    17, 67 and 77), and the proof that together these checks pin the output down. */
module Validator {
  import opened Orders
  import opened Ranking
  import opened Replay
  import opened Results

  datatype TradeEcho = TradeEcho(referencePrice: real, atr: real, premarketLow: real)

  datatype Approved = Approved(
    ticker: string, conviction: int, score: Score, age: real, flags: seq<RiskFlag>, trade: TradeEcho)

  datatype Qualified = Qualified(
    ticker: string, rank: int, conviction: int, score: Score, age: real, flags: seq<RiskFlag>)

  datatype Excluded = Excluded(
    ticker: string, primary: ReasonObject, additional: seq<ReasonObject>, score: Score, flags: seq<RiskFlag>)

  /** `schemaFailures` keeps the tickers of ticker-scoped failures. */
  datatype Output = Output(
    status: RunStatus,
    approved: seq<Approved>,
    qualified: seq<Qualified>,
    excluded: seq<Excluded>,
    schemaFailures: seq<string>)

  // ---------- views of the input and output ----------

  function InputByTicker(tickers: seq<TickerInput>): (m: map<string, TickerInput>)
    ensures forall t :: t in m ==> m[t] in tickers && m[t].ticker == t
    ensures forall e :: e in tickers ==> e.ticker in m
  {
    if tickers == [] then map[]
    else
      var last := tickers[|tickers| - 1];
      assert tickers == tickers[..|tickers| - 1] + [last];
      InputByTicker(tickers[..|tickers| - 1])[last.ticker := last]
  }

  function InputTickers(payload: Payload): seq<string> {
    Map((e: TickerInput) => e.ticker, payload.tickers)
  }

  ghost predicate ValidInput(payload: Payload) {
    Distinct(InputTickers(payload))
  }

  lemma LookupIsEntry(payload: Payload, e: TickerInput)
    requires ValidInput(payload) && e in payload.tickers
    ensures e.ticker in InputByTicker(payload.tickers) && InputByTicker(payload.tickers)[e.ticker] == e
  {
    var m := InputByTicker(payload.tickers);
    var i :| 0 <= i < |payload.tickers| && payload.tickers[i] == e;
    var j :| 0 <= j < |payload.tickers| && payload.tickers[j] == m[e.ticker];
    assert InputTickers(payload)[i] == InputTickers(payload)[j];
  }

  function ApprovedTickers(o: Output): seq<string> {
    Map((x: Approved) => x.ticker, o.approved)
  }

  function QualifiedTickers(o: Output): seq<string> {
    Map((x: Qualified) => x.ticker, o.qualified)
  }

  function ExcludedTickers(o: Output): seq<string> {
    Map((x: Excluded) => x.ticker, o.excluded)
  }

  function TerminalSymbols(o: Output): seq<string> {
    ApprovedTickers(o) + QualifiedTickers(o) + ExcludedTickers(o) + o.schemaFailures
  }

  function ApprovedRecord(x: Approved): PassingRecord {
    PassingRecord(x.ticker, x.conviction, x.age, x.score.raw, x.score.volumePoints, x.score.technicalPoints)
  }

  function QualifiedRecord(x: Qualified): PassingRecord {
    PassingRecord(x.ticker, x.conviction, x.age, x.score.raw, x.score.volumePoints, x.score.technicalPoints)
  }

  function PassingRecords(o: Output): seq<PassingRecord> {
    Map(ApprovedRecord, o.approved) + Map(QualifiedRecord, o.qualified)
  }

  // ---------- the checks ----------

  ghost predicate Check1(o: Output) {
    Distinct(TerminalSymbols(o))
  }

  predicate ExclusionOk(m: map<string, TickerInput>, x: Excluded) {
    && x.ticker in m
    && FailedGates(m[x.ticker], x.score.raw) != []
    && [x.primary] + x.additional == FailedGates(m[x.ticker], x.score.raw)
  }

  predicate PassOk(m: map<string, TickerInput>, ticker: string, raw: int) {
    ticker in m && PassesGates(m[ticker], raw)
  }

  predicate ScoreOk(payload: Payload, m: map<string, TickerInput>, ticker: string, score: Score, flags: seq<RiskFlag>) {
    ticker in m ==>
      && score == ExpectedScore(payload, m[ticker], score.bucket)
      && flags == RiskFlags(m[ticker])
  }

  function EchoOf(e: TickerInput): TradeEcho {
    TradeEcho(e.currentPrice, e.atr, e.premarketLow)
  }

  ghost predicate Check3(payload: Payload, o: Output) {
    forall i :: 0 <= i < |o.excluded| ==> ExclusionOk(InputByTicker(payload.tickers), o.excluded[i])
  }

  ghost predicate Check4(payload: Payload, o: Output) {
    var m := InputByTicker(payload.tickers);
    forall i :: 0 <= i < |PassingRecords(o)| ==>
      PassOk(m, PassingRecords(o)[i].ticker, PassingRecords(o)[i].catalystRaw)
  }

  predicate Check5(payload: Payload, o: Output) {
    o.status in {ApprovedRun, NoSetups} ==>
      |o.approved| + |o.qualified| + |o.excluded| == |payload.tickers|
  }

  predicate Check14(payload: Payload, o: Output) {
    o.status ==
      if payload.marketStatus != Normal then BlockedMarket
      else if payload.ageSeconds > 180 then StalePayload
      else if o.approved != [] then ApprovedRun
      else NoSetups
  }

  predicate ApprovedOk(payload: Payload, m: map<string, TickerInput>, x: Approved) {
    && ScoreOk(payload, m, x.ticker, x.score, x.flags)
    && (x.ticker in m ==> x.conviction == Conviction(x.score) && x.trade == EchoOf(m[x.ticker]))
  }

  predicate QualifiedOk(payload: Payload, m: map<string, TickerInput>, x: Qualified) {
    && ScoreOk(payload, m, x.ticker, x.score, x.flags)
    && (x.ticker in m ==> x.conviction == Conviction(x.score))
  }

  ghost predicate Check17(payload: Payload, o: Output) {
    var m := InputByTicker(payload.tickers);
    && (forall i :: 0 <= i < |o.approved| ==> ApprovedOk(payload, m, o.approved[i]))
    && (forall i :: 0 <= i < |o.qualified| ==> QualifiedOk(payload, m, o.qualified[i]))
    && (forall i :: 0 <= i < |o.excluded| ==>
          ScoreOk(payload, m, o.excluded[i].ticker, o.excluded[i].score, o.excluded[i].flags))
  }

  function FindQualified(s: seq<Qualified>, ticker: string): (r: Option<Qualified>)
    ensures r.Some? ==> r.value in s && r.value.ticker == ticker
    ensures r.None? ==> forall x :: x in s ==> x.ticker != ticker
  {
    if s == [] then None
    else if s[0].ticker == ticker then Some(s[0])
    else FindQualified(s[1..], ticker)
  }

  /** Where rank `index` (counted from one) must have been routed. */
  predicate RouteOk(o: Output, ticker: string, index: int) {
    && (index <= 3 ==> ticker in ApprovedTickers(o))
    && (index >= 4 ==>
          var item := FindQualified(o.qualified, ticker);
          item.Some? && item.value.rank == index)
  }

  ghost predicate RoutesOk(o: Output, order: seq<string>) {
    forall i :: 0 <= i < |order| ==> RouteOk(o, order[i], i + 1)
  }

  function ObservedOrder(o: Output): seq<string> {
    ApprovedTickers(o) + QualifiedTickers(o)
  }

  function RankOrder(o: Output): seq<string> {
    Tickers(Ranked(PassingRecords(o)))
  }

  ghost predicate Check67(o: Output) {
    && ObservedOrder(o) == RankOrder(o)
    && RoutesOk(o, RankOrder(o))
  }

  predicate Check77(o: Output) {
    ObservedOrder(o) == RankOrder(o)
  }

  // ---------- the checks as the validator runs them ----------

  method Invariant001(o: Output) returns (errors: set<string>)
    ensures errors == {} <==> Check1(o)
  {
    var symbols := TerminalSymbols(o);
    var occurrences: map<string, nat> := map[];
    errors := {};
    for i := 0 to |symbols|
      invariant forall t :: t in occurrences <==> t in symbols[..i]
      invariant forall t :: t in occurrences ==> occurrences[t] >= 1
      invariant errors == {} ==> Distinct(symbols[..i])
      invariant errors != {} ==> !Distinct(symbols)
    {
      var t := symbols[i];
      assert symbols[..i + 1] == symbols[..i] + [t];
      if t in occurrences {
        occurrences := occurrences[t := occurrences[t] + 1];
        errors := errors + {t};
        assert t in symbols[..i];
        ghost var k :| 0 <= k < i && symbols[k] == t;
      } else {
        occurrences := occurrences[t := 1];
      }
    }
    assert symbols[..|symbols|] == symbols;
  }

  method Invariant003(payload: Payload, o: Output) returns (errors: seq<string>)
    ensures errors == [] <==> Check3(payload, o)
  {
    var mapping := InputByTicker(payload.tickers);
    errors := [];
    for i := 0 to |o.excluded|
      invariant errors == [] <==> forall k :: 0 <= k < i ==> ExclusionOk(mapping, o.excluded[k])
    {
      var item := o.excluded[i];
      if item.ticker !in mapping {
        errors := errors + [item.ticker];
      } else {
        var expected := ExpectedFailedGates(mapping[item.ticker], item.score.raw);
        if expected == [] {
          errors := errors + [item.ticker];
        } else if [item.primary] + item.additional != expected {
          errors := errors + [item.ticker];
        }
      }
    }
  }

  method Invariant004(payload: Payload, o: Output) returns (errors: seq<string>)
    ensures errors == [] <==> Check4(payload, o)
  {
    var mapping := InputByTicker(payload.tickers);
    var passing := PassingRecords(o);
    errors := [];
    for i := 0 to |passing|
      invariant errors == [] <==> forall k :: 0 <= k < i ==> PassOk(mapping, passing[k].ticker, passing[k].catalystRaw)
    {
      if passing[i].ticker !in mapping {
        errors := errors + [passing[i].ticker];
      } else {
        var failures := ExpectedFailedGates(mapping[passing[i].ticker], passing[i].catalystRaw);
        if failures != [] {
          errors := errors + [passing[i].ticker];
        }
      }
    }
  }

  method ScoreErrors(payload: Payload, entry: TickerInput, ticker: string, score: Score, flags: seq<RiskFlag>)
    returns (errors: seq<string>)
    ensures errors == [] <==> score == ExpectedScore(payload, entry, score.bucket) && flags == RiskFlags(entry)
  {
    errors := [];
    if score != ExpectedScore(payload, entry, score.bucket) {
      errors := errors + [ticker];
    }
    var expected := ExpectedRiskFlags(entry, ExpectedTechnical(entry));
    if flags != expected {
      errors := errors + [ticker];
    }
  }

  method ApprovedErrors(payload: Payload, mapping: map<string, TickerInput>, x: Approved) returns (errors: seq<string>)
    ensures errors == [] <==> ApprovedOk(payload, mapping, x)
  {
    errors := [];
    if x.ticker in mapping {
      errors := ScoreErrors(payload, mapping[x.ticker], x.ticker, x.score, x.flags);
      if x.conviction != Conviction(x.score) {
        errors := errors + [x.ticker];
      }
      var entry := mapping[x.ticker];
      if x.trade.referencePrice != entry.currentPrice || x.trade.atr != entry.atr || x.trade.premarketLow != entry.premarketLow {
        errors := errors + [x.ticker];
      }
    }
  }

  method QualifiedErrors(payload: Payload, mapping: map<string, TickerInput>, x: Qualified) returns (errors: seq<string>)
    ensures errors == [] <==> QualifiedOk(payload, mapping, x)
  {
    errors := [];
    if x.ticker in mapping {
      errors := ScoreErrors(payload, mapping[x.ticker], x.ticker, x.score, x.flags);
      if x.conviction != Conviction(x.score) {
        errors := errors + [x.ticker];
      }
    }
  }

  method Invariant017(payload: Payload, o: Output) returns (errors: seq<string>)
    ensures errors == [] <==> Check17(payload, o)
  {
    var mapping := InputByTicker(payload.tickers);
    var approved, qualified, excluded := [], [], [];
    for i := 0 to |o.approved|
      invariant approved == [] <==> forall k :: 0 <= k < i ==> ApprovedOk(payload, mapping, o.approved[k])
    {
      var found := ApprovedErrors(payload, mapping, o.approved[i]);
      approved := approved + found;
    }
    for i := 0 to |o.qualified|
      invariant qualified == [] <==> forall k :: 0 <= k < i ==> QualifiedOk(payload, mapping, o.qualified[k])
    {
      var found := QualifiedErrors(payload, mapping, o.qualified[i]);
      qualified := qualified + found;
    }
    for i := 0 to |o.excluded|
      invariant excluded == [] <==> forall k :: 0 <= k < i ==>
        ScoreOk(payload, mapping, o.excluded[k].ticker, o.excluded[k].score, o.excluded[k].flags)
    {
      var x := o.excluded[i];
      if x.ticker in mapping {
        var found := ScoreErrors(payload, mapping[x.ticker], x.ticker, x.score, x.flags);
        excluded := excluded + found;
      }
    }
    errors := approved + qualified + excluded;
  }

  method Invariant067(o: Output) returns (errors: seq<string>)
    ensures errors == [] <==> Check67(o)
  {
    var ordered := ExpectedPassingOrder(PassingRecords(o));
    var routing := RouteErrors(o, ordered);
    errors := (if ObservedOrder(o) != ordered then ["passing order"] else []) + routing;
  }

  method RouteErrors(o: Output, ordered: seq<string>) returns (errors: seq<string>)
    ensures errors == [] <==> RoutesOk(o, ordered)
  {
    var approved := ApprovedTickers(o);
    errors := [];
    for i := 0 to |ordered|
      invariant errors == [] <==> RoutesOk(o, ordered[..i])
    {
      RoutesSnoc(o, ordered[..i], ordered[i]);
      assert ordered[..i + 1] == ordered[..i] + [ordered[i]];
      var index, ticker := i + 1, ordered[i];
      if index <= 3 && ticker !in approved {
        errors := errors + [ticker];
      }
      if index >= 4 {
        var item := FindQualified(o.qualified, ticker);
        if item.None? || item.value.rank != index {
          errors := errors + [ticker];
        }
      }
    }
    assert ordered[..|ordered|] == ordered;
  }

  lemma RoutesSnoc(o: Output, order: seq<string>, ticker: string)
    ensures RoutesOk(o, order + [ticker]) <==> RoutesOk(o, order) && RouteOk(o, ticker, |order| + 1)
  {
    var all := order + [ticker];
    if RoutesOk(o, all) {
      assert RouteOk(o, all[|order|], |order| + 1);
      forall i | 0 <= i < |order| ensures RouteOk(o, order[i], i + 1) {
        assert all[i] == order[i];
      }
    }
  }
}
