/** Performance analytics (daybreak_analytics/analytics.py). Prices and fees are exact; a reported amount is an
    integer number of quanta of 1e-10. */
module Analytics {
  import opened Orders
  import opened Results
  import opened Rounding

  const SCALE := 10_000_000_000

  /** The trade model admits positive planned prices only. */
  type Price = p: real | p > 0.0 witness 1.0

  /** Flags are unique within a trade. */
  datatype Trade = Trade(
    quantity: nat, plannedEntry: Price, entry: real, plannedStop: real, exit: real, fees: real,
    source: string, structure: string, flags: seq<string>, exitReason: string)

  ghost predicate Valid(t: Trade) {
    t.quantity > 0 && t.fees >= 0.0 && Distinct(t.flags)
  }

  function Scaled(x: real): real {
    x * 10000000000.0
  }

  function Quanta(x: real): int {
    NearestEven(Scaled(x))
  }

  // ---------- one trade ----------

  /** The value of some shares. */
  function Worth(price: real, quantity: nat): (w: real)
    ensures w == quantity as real * price
  {
    price * quantity as real
  }

  function Gross(t: Trade): real {
    Worth(t.exit - t.entry, t.quantity)
  }

  function Net(t: Trade): real {
    Gross(t) - t.fees
  }

  function Risk(t: Trade): real {
    Worth(t.plannedEntry - t.plannedStop, t.quantity)
  }

  function GrossQuanta(t: Trade): int {
    Quanta(Gross(t))
  }

  function NetQuanta(t: Trade): int {
    Quanta(Net(t))
  }

  function RQuanta(t: Trade): int {
    Quanta(if Risk(t) > 0.0 then Net(t) / Risk(t) else 0.0)
  }

  /** What the entry cost more than planned. */
  function Slippage(t: Trade): real {
    Worth(t.entry - t.plannedEntry, t.quantity)
  }

  function SlippageQuanta(t: Trade): int {
    Quanta(Slippage(t))
  }

  /** The same in basis points of the planned price. */
  function SlippageRate(t: Trade): int {
    Quanta((t.entry - t.plannedEntry) / t.plannedEntry * 10000.0)
  }

  // ---------- sums ----------

  function Total(values: seq<int>): int {
    if values == [] then 0 else Total(values[..|values| - 1]) + values[|values| - 1]
  }

  function Fees(ts: seq<Trade>): real {
    if ts == [] then 0.0 else Fees(ts[..|ts| - 1]) + ts[|ts| - 1].fees
  }

  function Nets(ts: seq<Trade>): seq<int> {
    Map(NetQuanta, ts)
  }

  function Wins(values: seq<int>): seq<int> {
    Filter((v: int) => v > 0, values)
  }

  function Losses(values: seq<int>): seq<int> {
    Filter((v: int) => v < 0, values)
  }

  /** A rounded quotient, zero over an empty population. */
  function Average(total: int, count: nat): int {
    if count == 0 then 0 else HalfEven(total, count)
  }

  // ---------- drawdown ----------

  /** The profit after each number of values, from none. */
  ghost function Prefixes(values: seq<int>): (points: seq<int>)
    ensures |points| == |values| + 1
    ensures forall i :: 0 <= i <= |values| ==> points[i] == Total(values[..i])
  {
    seq(|values| + 1, i requires 0 <= i <= |values| => Total(values[..i]))
  }

  ghost predicate IsPeak(points: seq<int>, peak: int) {
    peak in points && forall i :: 0 <= i < |points| ==> points[i] <= peak
  }

  /** The largest fall from a point to a later one. */
  ghost predicate LargestFall(points: seq<int>, d: int) {
    && (forall i, j :: 0 <= i <= j < |points| ==> points[i] - points[j] <= d)
    && (exists i, j :: 0 <= i <= j < |points| && points[i] - points[j] == d)
  }

  /** The drawdown: over every earlier number of values, none included, and every later one. */
  ghost predicate IsDrawdown(values: seq<int>, d: int) {
    LargestFall(Prefixes(values), d)
  }

  lemma LargestFallIsUnique(points: seq<int>, d: int, e: int)
    requires LargestFall(points, d) && LargestFall(points, e)
    ensures d == e && d >= 0
  {
    var i, j :| 0 <= i <= j < |points| && points[i] - points[j] == d;
    var k, l :| 0 <= k <= l < |points| && points[k] - points[l] == e;
    assert points[i] - points[i] <= d;
  }

  function Larger(a: int, b: int): int {
    if a >= b then a else b
  }

  lemma NextPoint(points: seq<int>, peak: int, d: int, x: int)
    requires IsPeak(points, peak) && LargestFall(points, d)
    ensures IsPeak(points + [x], Larger(peak, x))
    ensures LargestFall(points + [x], Larger(d, Larger(peak, x) - x))
  {
    var next, fall := points + [x], Larger(d, Larger(peak, x) - x);
    var top :| 0 <= top < |points| && points[top] == peak;
    var i, j :| 0 <= i <= j < |points| && points[i] - points[j] == d;
    assert next[top] == peak && next[|points|] == x && next[i] - next[j] == d;
    forall k, l | 0 <= k <= l < |next| ensures next[k] - next[l] <= fall {
      if l < |points| {
        assert points[k] - points[l] <= d;
      }
    }
    assert d >= 0 by { assert points[i] - points[i] <= d; }
  }

  lemma PrefixesNext(values: seq<int>, k: nat)
    requires k < |values|
    ensures Prefixes(values[..k + 1]) == Prefixes(values[..k]) + [Total(values[..k]) + values[k]]
    ensures Total(values[..k + 1]) == Total(values[..k]) + values[k]
  {
    var longer, shorter := values[..k + 1], values[..k];
    assert longer[..k] == shorter;
    forall i | 0 <= i <= k ensures Prefixes(longer)[i] == Prefixes(shorter)[i] {
      assert longer[..i] == shorter[..i];
    }
    assert longer[..k + 1] == longer;
  }

  /** What the loop knows after `k` values. */
  ghost predicate Tracks(values: seq<int>, k: nat, cumulative: int, peak: int, d: int)
    requires k <= |values|
  {
    var points := Prefixes(values[..k]);
    cumulative == Total(values[..k]) && IsPeak(points, peak) && LargestFall(points, d)
  }

  lemma TracksNext(values: seq<int>, k: nat, cumulative: int, peak: int, d: int)
    requires k < |values| && Tracks(values, k, cumulative, peak, d)
    ensures var next := cumulative + values[k];
            Tracks(values, k + 1, next, Larger(peak, next), Larger(d, Larger(peak, next) - next))
  {
    PrefixesNext(values, k);
    NextPoint(Prefixes(values[..k]), peak, d, cumulative + values[k]);
  }

  lemma TracksStart(values: seq<int>)
    ensures Tracks(values, 0, 0, 0, 0)
  {
    var points := Prefixes(values[..0]);
    assert points[0] == 0;
  }

  /** The one-pass loop. */
  method MaximumDrawdown(values: seq<int>) returns (d: int)
    ensures IsDrawdown(values, d)
  {
    var cumulative, peak := 0, 0;
    d := 0;
    TracksStart(values);
    for k := 0 to |values|
      invariant Tracks(values, k, cumulative, peak, d)
    {
      TracksNext(values, k, cumulative, peak, d);
      cumulative := cumulative + values[k];
      peak := Larger(peak, cumulative);
      d := Larger(d, peak - cumulative);
    }
    assert values[..|values|] == values;
  }

  // ---------- a summary ----------

  datatype Ratios = Ratios(
    winRate: int, profitFactor: Option<int>, expectancy: int, averageWin: int, averageLoss: int, averageR: int)

  datatype Summary = Summary(
    count: nat, wins: nat, losses: nat, breakeven: int, gross: int, fees: int, net: int, ratios: Ratios, drawdown: int,
    slippage: int, slippageRate: int)

  function RatiosOf(nets: seq<int>, rs: seq<int>): Ratios {
    var wins, losses := Wins(nets), Losses(nets);
    Ratios(Average(|wins| * SCALE, |nets|), ProfitFactor(Total(wins), -Total(losses)), Average(Total(nets), |nets|),
           Average(Total(wins), |wins|), Average(Total(losses), |losses|), Average(Total(rs), |nets|))
  }

  function ProfitFactor(profit: int, loss: int): Option<int> {
    if loss > 0 then Some(HalfEven(profit * SCALE, loss)) else None
  }

  ghost predicate Summarizes(s: Summary, ts: seq<Trade>) {
    && s.count == |ts|
    && s.gross == Total(Map(GrossQuanta, ts)) && s.net == Total(Nets(ts)) && s.fees == Quanta(Fees(ts))
    && s.wins == |Wins(Nets(ts))| && s.losses == |Losses(Nets(ts))| && s.breakeven == s.count - s.wins - s.losses
    && s.ratios == RatiosOf(Nets(ts), Map(RQuanta, ts))
    && IsDrawdown(Nets(ts), s.drawdown)
    && s.slippage == Total(Map(SlippageQuanta, ts)) && s.slippageRate == Average(Total(Map(SlippageRate, ts)), |ts|)
  }

  method Summarize(ts: seq<Trade>) returns (s: Summary)
    ensures Summarizes(s, ts)
  {
    var nets := Nets(ts);
    var wins, losses := |Wins(nets)|, |Losses(nets)|;
    var drawdown := MaximumDrawdown(nets);
    s := Summary(|ts|, wins, losses, |ts| - wins - losses, Total(Map(GrossQuanta, ts)), Quanta(Fees(ts)), Total(nets),
                 RatiosOf(nets, Map(RQuanta, ts)), drawdown,
                 Total(Map(SlippageQuanta, ts)), Average(Total(Map(SlippageRate, ts)), |ts|));
  }

  lemma SummaryIsUnique(s: Summary, s': Summary, ts: seq<Trade>)
    requires Summarizes(s, ts) && Summarizes(s', ts)
    ensures s == s' && s.drawdown >= 0
  {
    LargestFallIsUnique(Prefixes(Nets(ts)), s.drawdown, s'.drawdown);
  }

  lemma {:induction false} TotalConcat(a: seq<int>, b: seq<int>)
    ensures Total(a + b) == Total(a) + Total(b)
  {
    if b == [] {
      assert a + b == a;
    } else {
      assert (a + b)[..|a + b| - 1] == a + b[..|b| - 1];
      TotalConcat(a, b[..|b| - 1]);
    }
  }

  lemma FilterTotal(p: int -> bool, values: seq<int>, x: int)
    ensures Total(Filter(p, values + [x])) == Total(Filter(p, values)) + if p(x) then x else 0
    ensures |Filter(p, values + [x])| == |Filter(p, values)| + if p(x) then 1 else 0
  {
    FilterSnoc(p, values, x);
    TotalConcat(Filter(p, values), Kept(p, x));
    assert p(x) ==> [x][..0] == [];
  }

  /** The net is what was won less what was lost, and breakeven trades are the rest. */
  lemma {:induction false} WinsAndLosses(values: seq<int>)
    ensures Total(values) == Total(Wins(values)) + Total(Losses(values))
    ensures |Wins(values)| + |Losses(values)| <= |values|
    ensures Total(Wins(values)) >= |Wins(values)| && Total(Losses(values)) <= -|Losses(values)|
  {
    if values != [] {
      var front, last := values[..|values| - 1], values[|values| - 1];
      assert values == front + [last];
      WinsAndLosses(front);
      FilterTotal((v: int) => v > 0, front, last);
      FilterTotal((v: int) => v < 0, front, last);
    }
  }

  // ---------- what the amounts mean ----------

  /** An integer number of quanta nearest to an exact amount. */
  ghost predicate Nearest(quanta: int, x: real) {
    -0.5 <= quanta as real - Scaled(x) <= 0.5
  }

  /** What a trade is reported with, in its own prices, shares and fees. */
  lemma TradeAmounts(t: Trade)
    ensures Nearest(GrossQuanta(t), Worth(t.exit - t.entry, t.quantity))
    ensures Nearest(NetQuanta(t), Worth(t.exit - t.entry, t.quantity) - t.fees)
    ensures Nearest(SlippageQuanta(t), Worth(t.entry - t.plannedEntry, t.quantity))
  {
    NearestEvenIsNearest(Scaled(Worth(t.exit - t.entry, t.quantity)));
    NearestEvenIsNearest(Scaled(Worth(t.exit - t.entry, t.quantity) - t.fees));
    NearestEvenIsNearest(Scaled(Worth(t.entry - t.plannedEntry, t.quantity)));
  }

  /** A trade is a win exactly when its prices earn more than its fees and half a quantum, and a loss exactly when they
      earn that much less. */
  lemma WinsExactly(t: Trade)
    ensures NetQuanta(t) > 0 <==> Scaled(Worth(t.exit - t.entry, t.quantity) - t.fees) > 0.5
    ensures NetQuanta(t) < 0 <==> Scaled(Worth(t.exit - t.entry, t.quantity) - t.fees) < -0.5
  {
    var x := Scaled(Worth(t.exit - t.entry, t.quantity) - t.fees);
    assert NetQuanta(t) == NearestEven(x);
    SignOfNearest(x);
  }

  lemma SignOfNearest(x: real)
    ensures NearestEven(x) > 0 <==> x > 0.5
    ensures NearestEven(x) < 0 <==> x < -0.5
  {
    NearestEvenIsNearest(x);
  }

  predicate Earns(t: Trade) {
    Scaled(Worth(t.exit - t.entry, t.quantity) - t.fees) > 0.5
  }

  predicate Loses(t: Trade) {
    Scaled(Worth(t.exit - t.entry, t.quantity) - t.fees) < -0.5
  }

  /** The reported wins are the trades that earn more than half a quantum after fees, the losses those that lose it. */
  lemma CountsExactly(s: Summary, ts: seq<Trade>)
    requires Summarizes(s, ts)
    ensures s.wins == |Filter(Earns, ts)| && s.losses == |Filter(Loses, ts)|
  {
    forall t | t in ts ensures (Earns(t) <==> NetQuanta(t) > 0) && (Loses(t) <==> NetQuanta(t) < 0) {
      WinsExactly(t);
    }
    FilterOfMap(NetQuanta, (v: int) => v > 0, Earns, ts);
    FilterOfMap(NetQuanta, (v: int) => v < 0, Loses, ts);
  }

  /** Sold at their entry prices, trades with at least one quantum of fees each are reported as losses, all of them. */
  lemma FlatTradesLose(s: Summary, ts: seq<Trade>)
    requires Summarizes(s, ts)
    requires forall t :: t in ts ==> t.exit == t.entry && Scaled(t.fees) >= 1.0
    ensures s.losses == s.count && s.wins == 0
  {
    CountsExactly(s, ts);
    WinsAndLosses(Nets(ts));
    forall t | t in ts ensures Loses(t) {
      FlatTradeLoses(t);
    }
    FilterFirst(Loses, ts, |ts|);
  }

  lemma FlatTradeLoses(t: Trade)
    requires t.exit == t.entry && Scaled(t.fees) >= 1.0
    ensures Loses(t)
  {
    assert Worth(t.exit - t.entry, t.quantity) == 0.0;
    assert Scaled(0.0 - t.fees) == -Scaled(t.fees);
  }

  /** What a trade earns by its prices. */
  function Earned(ts: seq<Trade>): real {
    if ts == [] then 0.0
    else
      var last := ts[|ts| - 1];
      Earned(ts[..|ts| - 1]) + Worth(last.exit - last.entry, last.quantity)
  }

  ghost predicate Whole(x: real) {
    Scaled(x) == Scaled(x).Floor as real
  }

  /** The trade's earnings and its fees are whole quanta. */
  ghost predicate WholeTrade(t: Trade) {
    Whole(Worth(t.exit - t.entry, t.quantity)) && Whole(t.fees)
  }

  lemma WholeDifference(x: real, y: real)
    requires x == x.Floor as real && y == y.Floor as real
    ensures x - y == (x.Floor - y.Floor) as real
  {
  }

  lemma WholeAmounts(t: Trade)
    requires WholeTrade(t)
    ensures GrossQuanta(t) as real == Scaled(Worth(t.exit - t.entry, t.quantity))
    ensures NetQuanta(t) as real == Scaled(Worth(t.exit - t.entry, t.quantity) - t.fees)
  {
    var gross, fees := Scaled(Worth(t.exit - t.entry, t.quantity)), Scaled(t.fees);
    assert Scaled(Worth(t.exit - t.entry, t.quantity) - t.fees) == gross - fees;
    WholeDifference(gross, fees);
    NearestEvenOfWhole(gross.Floor);
    NearestEvenOfWhole(gross.Floor - fees.Floor);
  }

  lemma ScaledSumOf(x: real, y: real)
    ensures Scaled(x + y) == Scaled(x) + Scaled(y) && Scaled(x - y) == Scaled(x) - Scaled(y)
  {
  }

  lemma WholeSum(x: real, y: real)
    requires Whole(x) && Whole(y)
    ensures Whole(x + y)
  {
    hide Scaled;
    ScaledSumOf(x, y);
    IntegerSum(Scaled(x), Scaled(y));
  }

  lemma IntegerSum(x: real, y: real)
    requires x == x.Floor as real && y == y.Floor as real
    ensures x + y == (x + y).Floor as real
  {
    IntegersAdd(x.Floor, y.Floor);
  }

  lemma IntegersAdd(a: int, b: int)
    ensures a as real + b as real == (a + b) as real && ((a + b) as real).Floor == a + b
  {
  }

  /** Over some trades the reported gross and net are half a quantum per trade off the exact amounts at most. */
  lemma {:induction false} TotalsNear(ts: seq<Trade>)
    ensures -(|ts| as real) <= 2.0 * (Total(Map(GrossQuanta, ts)) as real - Scaled(Earned(ts))) <= |ts| as real
    ensures -(|ts| as real) <= 2.0 * (Total(Nets(ts)) as real - (Scaled(Earned(ts)) - Scaled(Fees(ts)))) <= |ts| as real
  {
    if ts == [] {
      assert Scaled(0.0) == 0.0;
    } else {
      var front, last := ts[..|ts| - 1], ts[|ts| - 1];
      var gross, fee := Worth(last.exit - last.entry, last.quantity), last.fees;
      TotalsNear(front);
      TradeAmounts(last);
      ScaledSumOf(Earned(front), gross);
      ScaledSumOf(Fees(front), fee);
      ScaledSumOf(gross, fee);
      TotalsNext(front, last);
      hide Scaled, GrossQuanta, NetQuanta, Worth, Total;
      assert ts == front + [last];
    }
  }

  lemma TotalsNext(front: seq<Trade>, last: Trade)
    ensures Total(Map(GrossQuanta, front + [last])) == Total(Map(GrossQuanta, front)) + GrossQuanta(last)
    ensures Total(Nets(front + [last])) == Total(Nets(front)) + NetQuanta(last)
    ensures Earned(front + [last]) == Earned(front) + Worth(last.exit - last.entry, last.quantity)
    ensures Fees(front + [last]) == Fees(front) + last.fees
  {
    TotalMapNext(GrossQuanta, front, last);
    TotalMapNext(NetQuanta, front, last);
    assert (front + [last])[..|front|] == front;
  }

  /** And nothing when the trades' amounts are whole quanta. */
  lemma {:induction false} WholeTotals(ts: seq<Trade>)
    requires forall t :: t in ts ==> WholeTrade(t)
    ensures Total(Map(GrossQuanta, ts)) as real == Scaled(Earned(ts))
    ensures Total(Nets(ts)) as real == Scaled(Earned(ts)) - Scaled(Fees(ts)) && Whole(Fees(ts))
  {
    if ts == [] {
      assert Scaled(0.0) == 0.0;
    } else {
      var front, last := ts[..|ts| - 1], ts[|ts| - 1];
      hide Scaled, GrossQuanta, NetQuanta, Worth, Total, Whole, Fees, Earned;
      var gross := Worth(last.exit - last.entry, last.quantity);
      WholeTotals(front);
      assert WholeTrade(last);
      WholeAmounts(last);
      ScaledSumOf(Earned(front), gross);
      ScaledSumOf(Fees(front), last.fees);
      ScaledSumOf(gross, last.fees);
      WholeSum(Fees(front), last.fees);
      TotalsNext(front, last);
      assert ts == front + [last];
    }
  }

  lemma SummaryAmounts(s: Summary, ts: seq<Trade>)
    requires Summarizes(s, ts)
    ensures s.count == |ts| && s.gross == Total(Map(GrossQuanta, ts)) && s.net == Total(Nets(ts)) && s.fees == Quanta(Fees(ts))
  {
  }

  /** The reported net is the reported gross less the reported fees: to one quantum per trade, and exactly when the
      trades' amounts are whole quanta. */
  lemma NetIsGrossLessFees(s: Summary, ts: seq<Trade>)
    requires Summarizes(s, ts)
    ensures -|ts| <= s.net - (s.gross - s.fees) <= |ts|
    ensures (forall t :: t in ts ==> WholeTrade(t)) ==> s.net == s.gross - s.fees
  {
    SummaryAmounts(s, ts);
    TotalsNear(ts);
    NearestEvenIsNearest(Scaled(Fees(ts)));
    hide Summarizes, Scaled, Total, Fees, Earned, NearestEven, WholeTrade;
    if forall t :: t in ts ==> WholeTrade(t) {
      WholeTotals(ts);
      NearestEvenOfWhole(Scaled(Fees(ts)).Floor);
    }
  }

  lemma QuotientTimes(q: int, net: real, risk: real)
    requires risk > 0.0 && -0.5 <= q as real - Scaled(net / risk) <= 0.5
    ensures -risk <= 2.0 * (q as real * risk - Scaled(net)) <= risk
  {
    var x := net / risk;
    assert x * risk == net;
    assert Scaled(x) * risk == Scaled(net);
    var off := q as real - Scaled(x);
    assert q as real * risk - Scaled(net) == off * risk;
    OffTimes(off, risk);
  }

  lemma OffTimes(off: real, risk: real)
    requires risk > 0.0 && -0.5 <= off <= 0.5
    ensures -risk <= 2.0 * (off * risk) <= risk
  {
  }

  /** The R of a trade times what it planned to risk is its net, to the rounding; without a planned risk it is zero. The
      slippage rate times the planned price is the slippage of a share in basis points. */
  lemma RatesOfTrade(t: Trade)
    ensures var risk := Worth(t.plannedEntry - t.plannedStop, t.quantity);
            if risk > 0.0
            then -risk <= 2.0 * (RQuanta(t) as real * risk - Scaled(Worth(t.exit - t.entry, t.quantity) - t.fees)) <= risk
            else RQuanta(t) == 0
    ensures var price: real := t.plannedEntry;
            -price <= 2.0 * (SlippageRate(t) as real * price - Scaled((t.entry - price) * 10000.0)) <= price
  {
    if Risk(t) > 0.0 {
      NearestEvenIsNearest(Scaled(Net(t) / Risk(t)));
      QuotientTimes(RQuanta(t), Net(t), Risk(t));
    } else {
      assert Scaled(0.0) == 0.0;
      NearestEvenOfWhole(0);
    }
    RateOfPrice(t);
  }

  lemma RateOfPrice(t: Trade)
    ensures var price: real := t.plannedEntry;
            -price <= 2.0 * (SlippageRate(t) as real * price - Scaled((t.entry - price) * 10000.0)) <= price
  {
    var x := (t.entry - t.plannedEntry) / t.plannedEntry * 10000.0;
    assert x == (t.entry - t.plannedEntry) * 10000.0 / t.plannedEntry;
    NearestEvenIsNearest(Scaled(x));
    QuotientTimes(SlippageRate(t), (t.entry - t.plannedEntry) * 10000.0, t.plannedEntry);
  }

  /** `mean` times `count` is the total, to half a quantum per item. */
  ghost predicate IsMean(mean: int, total: int, count: int) {
    if count == 0 then mean == 0 else -count <= 2 * (mean * count - total) <= count
  }

  lemma AverageIsMean(total: int, count: nat)
    ensures IsMean(Average(total, count), total, count)
  {
    if count > 0 {
      HalfEvenIsNearest(total, count);
    }
  }

  /** The ratios of a summary: shares and means of its own counts and amounts. */
  lemma RatiosAreMeans(s: Summary, ts: seq<Trade>)
    requires Summarizes(s, ts)
    ensures IsMean(s.ratios.winRate, s.wins * SCALE, s.count) && IsMean(s.ratios.expectancy, s.net, s.count)
    ensures IsMean(s.ratios.averageWin, Total(Wins(Nets(ts))), s.wins)
    ensures IsMean(s.ratios.averageLoss, Total(Losses(Nets(ts))), s.losses)
    ensures IsMean(s.ratios.averageR, RTotal(ts), s.count)
    ensures s.wins + s.losses + s.breakeven == s.count
  {
    AverageIsMean(s.wins * SCALE, s.count);
    AverageIsMean(s.net, s.count);
    AverageIsMean(Total(Wins(Nets(ts))), s.wins);
    AverageIsMean(Total(Losses(Nets(ts))), s.losses);
    AverageIsMean(RTotal(ts), s.count);
  }

  /** There is a profit factor exactly when something was lost: won over lost, so one quantum for one at break-even and
      on the side of the net otherwise. */
  lemma ProfitFactorMeans(s: Summary, ts: seq<Trade>)
    requires Summarizes(s, ts)
    ensures s.ratios.profitFactor.Some? <==> s.losses > 0
    ensures s.ratios.profitFactor.Some? ==>
              && IsMean(s.ratios.profitFactor.value, Total(Wins(Nets(ts))) * SCALE, -Total(Losses(Nets(ts))))
              && (s.net == 0 ==> s.ratios.profitFactor.value == SCALE)
              && (s.net >= 0 ==> s.ratios.profitFactor.value >= SCALE)
              && (s.net <= 0 ==> s.ratios.profitFactor.value <= SCALE)
  {
    var won, lost := Total(Wins(Nets(ts))), -Total(Losses(Nets(ts)));
    WinsAndLosses(Nets(ts));
    NoLosses(Nets(ts));
    if lost > 0 {
      HalfEvenIsNearest(won * SCALE, lost);
      FactorSide(HalfEven(won * SCALE, lost), won, lost);
    }
  }

  lemma NoLosses(values: seq<int>)
    ensures Losses(values) == [] ==> Total(Losses(values)) == 0
  {
  }

  lemma FactorSide(f: int, won: int, lost: int)
    requires lost > 0 && -lost <= 2 * (f * lost - won * SCALE) <= lost
    ensures won >= lost ==> f >= SCALE
    ensures won <= lost ==> f <= SCALE
  {
    if won >= lost && f < SCALE {
      MulMonotone(f, SCALE - 1, lost);
    }
    if won <= lost && f > SCALE {
      MulMonotone(SCALE + 1, f, lost);
    }
  }

  // ---------- attribution ----------

  datatype Dimension = ChartStructure | ExitReason | RiskFlag | SourceType

  datatype Label = Label(dimension: Dimension, key: string)

  /** The dimensions' names are in alphabetical order. */
  function Rank(d: Dimension): nat {
    match d
    case ChartStructure => 0
    case ExitReason => 1
    case RiskFlag => 2
    case SourceType => 3
  }

  predicate LabelLe(a: Label, b: Label) {
    if a.dimension != b.dimension then Rank(a.dimension) < Rank(b.dimension) else LexLe(a.key, b.key)
  }

  /** The groups a trade is put in. */
  function LabelsOf(t: Trade): seq<Label> {
    [Label(SourceType, t.source), Label(ChartStructure, t.structure), Label(ExitReason, t.exitReason)]
    + Map((flag: string) => Label(RiskFlag, flag), t.flags)
  }

  function In(l: Label): Trade -> bool {
    (t: Trade) => l in LabelsOf(t)
  }

  function Group(ts: seq<Trade>, l: Label): seq<Trade> {
    Filter(In(l), ts)
  }

  datatype Bucket = Bucket(name: Label, count: nat, net: int, winRate: int, expectancy: int, averageR: int)

  ghost predicate Describes(b: Bucket, group: seq<Trade>) {
    exists s :: Summarizes(s, group) && b == Bucket(b.name, s.count, s.net, s.ratios.winRate, s.ratios.expectancy, s.ratios.averageR)
  }

  /** One bucket per label in use, in label order, each the summary of its trades. */
  ghost predicate Attributes(buckets: seq<Bucket>, ts: seq<Trade>) {
    && (forall i, j :: 0 <= i < j < |buckets| ==>
          LabelLe(buckets[i].name, buckets[j].name) && buckets[i].name != buckets[j].name)
    && (forall l :: Group(ts, l) != [] <==> exists i :: 0 <= i < |buckets| && buckets[i].name == l)
    && (forall i :: 0 <= i < |buckets| ==> Describes(buckets[i], Group(ts, buckets[i].name)))
  }

  /** The buckets come by chart structure, then exit reason, then risk flag, then source type, each by ascending key. */
  lemma BucketsInOrder(buckets: seq<Bucket>, ts: seq<Trade>, i: nat, j: nat)
    requires Attributes(buckets, ts) && i < j < |buckets|
    ensures var a, b := buckets[i].name, buckets[j].name;
            && (a.dimension.ExitReason? ==> !b.dimension.ChartStructure?)
            && (a.dimension.RiskFlag? ==> b.dimension.RiskFlag? || b.dimension.SourceType?)
            && (a.dimension.SourceType? ==> b.dimension.SourceType?)
            && (a.dimension == b.dimension ==> LexLe(a.key, b.key) && a.key != b.key)
  {
    hide LexLe, Group, Describes;
    assert LabelLe(buckets[i].name, buckets[j].name) && buckets[i].name != buckets[j].name;
  }

  /** Exactly the groups of the trades. */
  ghost predicate Grouped(groups: map<Label, seq<Trade>>, ts: seq<Trade>) {
    && (forall l :: l in groups <==> Group(ts, l) != [])
    && (forall l :: l in groups ==> groups[l] == Group(ts, l))
  }

  function Extended(group: seq<Trade>, t: Trade, yes: bool): seq<Trade> {
    if yes then group + [t] else group
  }

  /** The groups of the trades, with one more trade put in some of its groups. */
  ghost predicate Adding(groups: map<Label, seq<Trade>>, ts: seq<Trade>, t: Trade, done: seq<Label>) {
    && (forall l :: l in groups <==> Extended(Group(ts, l), t, l in done) != [])
    && (forall l :: l in groups ==> groups[l] == Extended(Group(ts, l), t, l in done))
  }

  lemma AddingDone(groups: map<Label, seq<Trade>>, ts: seq<Trade>, t: Trade)
    requires Adding(groups, ts, t, LabelsOf(t))
    ensures Grouped(groups, ts + [t])
  {
    forall l ensures Group(ts + [t], l) == Extended(Group(ts, l), t, l in LabelsOf(t)) {
      FilterSnoc(In(l), ts, t);
    }
  }

  lemma LabelsDistinct(t: Trade)
    requires Distinct(t.flags)
    ensures Distinct(LabelsOf(t))
  {
  }

  function Put(groups: map<Label, seq<Trade>>, l: Label, t: Trade): map<Label, seq<Trade>> {
    groups[l := (if l in groups then groups[l] else []) + [t]]
  }

  lemma PutAdds(groups: map<Label, seq<Trade>>, ts: seq<Trade>, t: Trade, done: seq<Label>, l: Label)
    requires Adding(groups, ts, t, done) && l !in done
    ensures Adding(Put(groups, l, t), ts, t, done + [l])
  {
    forall x ensures x in Put(groups, l, t) <==> Extended(Group(ts, x), t, x in done + [l]) != [] {
      assert x in done + [l] <==> x in done || x == l;
    }
  }

  lemma NextLabel(labels: seq<Label>, j: nat)
    requires Distinct(labels) && j < |labels|
    ensures labels[j] !in labels[..j] && labels[..j + 1] == labels[..j] + [labels[j]]
  {
  }

  method AddTrade(groups: map<Label, seq<Trade>>, ghost ts: seq<Trade>, t: Trade) returns (groups': map<Label, seq<Trade>>)
    requires Grouped(groups, ts) && Distinct(t.flags)
    ensures Grouped(groups', ts + [t])
  {
    LabelsDistinct(t);
    groups' := AddLabels(groups, ts, t, LabelsOf(t));
    AddingDone(groups', ts, t);
  }

  method AddLabels(groups: map<Label, seq<Trade>>, ghost ts: seq<Trade>, t: Trade, labels: seq<Label>)
    returns (groups': map<Label, seq<Trade>>)
    requires Grouped(groups, ts) && Distinct(labels)
    ensures Adding(groups', ts, t, labels)
  {
    groups' := groups;
    for j := 0 to |labels|
      invariant Adding(groups', ts, t, labels[..j])
    {
      NextLabel(labels, j);
      PutAdds(groups', ts, t, labels[..j], labels[j]);
      groups' := Put(groups', labels[j], t);
    }
    assert labels[..|labels|] == labels;
  }

  method GroupTrades(ts: seq<Trade>) returns (groups: map<Label, seq<Trade>>)
    requires forall t :: t in ts ==> Valid(t)
    ensures Grouped(groups, ts)
  {
    groups := map[];
    for k := 0 to |ts|
      invariant Grouped(groups, ts[..k])
    {
      assert ts[k] in ts;
      groups := AddTrade(groups, ts[..k], ts[k]);
      assert ts[..k + 1] == ts[..k] + [ts[k]];
    }
    assert ts[..|ts|] == ts;
  }

  method SortedLabels(keys: set<Label>) returns (labels: seq<Label>)
    ensures Distinct(labels) && Sorted(LabelLe, labels)
    ensures forall l :: l in labels <==> l in keys
  {
    var listed: seq<Label> := [];
    var rest := keys;
    while rest != {}
      invariant rest <= keys && Distinct(listed)
      invariant forall l :: l in listed <==> l in keys && l !in rest
    {
      var l :| l in rest;
      listed := listed + [l];
      rest := rest - {l};
    }
    labels := SortBy(LabelLe, listed);
    LexLaws();
    SortSorted(LabelLe, listed);
    SameElements(labels, listed);
    assert (set l | l in labels) == (set l | l in listed);
    DistinctCardinality(listed);
    DistinctCardinality(labels);
  }

  method DescribeGroup(name: Label, group: seq<Trade>) returns (b: Bucket)
    ensures b.name == name && Describes(b, group)
  {
    var s := Summarize(group);
    b := Bucket(name, s.count, s.net, s.ratios.winRate, s.ratios.expectancy, s.ratios.averageR);
  }

  method Attributions(ts: seq<Trade>) returns (buckets: seq<Bucket>)
    requires forall t :: t in ts ==> Valid(t)
    ensures Attributes(buckets, ts)
  {
    var groups := GroupTrades(ts);
    var labels := SortedLabels(groups.Keys);
    buckets := DescribeAll(labels, groups, ts);
    NamesCover(buckets, labels, ts);
  }

  /** The bucket of a label. */
  ghost predicate IsBucketOf(b: Bucket, l: Label, ts: seq<Trade>) {
    b.name == l && Describes(b, Group(ts, l))
  }

  ghost predicate AreBucketsOf(buckets: seq<Bucket>, labels: seq<Label>, ts: seq<Trade>) {
    |buckets| <= |labels| && forall i :: 0 <= i < |buckets| ==> IsBucketOf(buckets[i], labels[i], ts)
  }

  lemma OneMoreBucket(buckets: seq<Bucket>, b: Bucket, labels: seq<Label>, ts: seq<Trade>)
    requires AreBucketsOf(buckets, labels, ts) && |buckets| < |labels| && IsBucketOf(b, labels[|buckets|], ts)
    ensures AreBucketsOf(buckets + [b], labels, ts)
  {
    forall i | 0 <= i < |buckets + [b]| ensures IsBucketOf((buckets + [b])[i], labels[i], ts) {
      assert i < |buckets| ==> IsBucketOf(buckets[i], labels[i], ts);
    }
  }

  method DescribeAll(labels: seq<Label>, groups: map<Label, seq<Trade>>, ghost ts: seq<Trade>) returns (buckets: seq<Bucket>)
    requires Grouped(groups, ts) && forall l :: l in labels ==> l in groups
    ensures |buckets| == |labels| && AreBucketsOf(buckets, labels, ts)
  {
    buckets := [];
    for k := 0 to |labels|
      invariant |buckets| == k && AreBucketsOf(buckets, labels, ts)
    {
      var name := labels[k];
      assert name in groups && groups[name] == Group(ts, name);
      var b := DescribeGroup(name, groups[name]);
      assert IsBucketOf(b, name, ts);
      OneMoreBucket(buckets, b, labels, ts);
      buckets := buckets + [b];
    }
  }

  lemma NamesCover(buckets: seq<Bucket>, labels: seq<Label>, ts: seq<Trade>)
    requires |buckets| == |labels| && AreBucketsOf(buckets, labels, ts)
    requires forall l :: l in labels <==> Group(ts, l) != []
    ensures forall l :: Group(ts, l) != [] <==> exists i :: 0 <= i < |buckets| && buckets[i].name == l
  {
    forall l ensures l in labels <==> exists i :: 0 <= i < |buckets| && buckets[i].name == l {
      NameCovered(buckets, labels, ts, l);
    }
  }

  lemma NameCovered(buckets: seq<Bucket>, labels: seq<Label>, ts: seq<Trade>, l: Label)
    requires |buckets| == |labels| && AreBucketsOf(buckets, labels, ts)
    ensures l in labels <==> exists i :: 0 <= i < |buckets| && buckets[i].name == l
  {
    if l in labels {
      var i :| 0 <= i < |labels| && labels[i] == l;
      assert IsBucketOf(buckets[i], l, ts);
    }
    forall i | 0 <= i < |buckets| && buckets[i].name == l ensures l in labels {
      assert IsBucketOf(buckets[i], labels[i], ts) && labels[i] in labels;
    }
  }

  // ---------- the buckets add up ----------

  /** The sum of `value` over the buckets of a dimension. */
  function Over(buckets: seq<Bucket>, d: Dimension, value: Bucket -> int): int {
    if buckets == [] then 0
    else
      var b := buckets[|buckets| - 1];
      Over(buckets[..|buckets| - 1], d, value) + if b.name.dimension == d then value(b) else 0
  }

  function Names(buckets: seq<Bucket>): seq<Label> {
    Map((b: Bucket) => b.name, buckets)
  }

  /** The weight of the trades of a label. */
  function Weight(ts: seq<Trade>, l: Label, w: Trade -> int): int {
    Total(Map(w, Group(ts, l)))
  }

  function OverLabels(labels: seq<Label>, ts: seq<Trade>, d: Dimension, w: Trade -> int): int {
    if labels == [] then 0
    else
      var l := labels[|labels| - 1];
      OverLabels(labels[..|labels| - 1], ts, d, w) + if l.dimension == d then Weight(ts, l, w) else 0
  }

  /** A trade's one label in a dimension other than the risk flags. */
  function KeyOf(t: Trade, d: Dimension): Label {
    match d
    case SourceType => Label(d, t.source)
    case ChartStructure => Label(d, t.structure)
    case ExitReason => Label(d, t.exitReason)
    case RiskFlag => Label(d, "")
  }

  lemma OneLabel(t: Trade, l: Label)
    requires l.dimension != RiskFlag
    ensures In(l)(t) <==> l == KeyOf(t, l.dimension)
  {
    var labels := LabelsOf(t);
    assert labels[0] == Label(SourceType, t.source) && labels[1] == Label(ChartStructure, t.structure)
           && labels[2] == Label(ExitReason, t.exitReason);
  }

  lemma WeightNext(ts: seq<Trade>, t: Trade, l: Label, w: Trade -> int)
    ensures Weight(ts + [t], l, w) == Weight(ts, l, w) + if In(l)(t) then w(t) else 0
  {
    hide Total;
    FilterSnoc(In(l), ts, t);
    var group := Group(ts, l);
    if In(l)(t) {
      assert Group(ts + [t], l) == group + [t];
      TotalMapNext(w, group, t);
    } else {
      assert Group(ts + [t], l) == group + [] == group;
    }
  }

  lemma TotalMapNext(w: Trade -> int, ts: seq<Trade>, t: Trade)
    ensures Total(Map(w, ts + [t])) == Total(Map(w, ts)) + w(t)
  {
    assert Map(w, ts + [t])[..|ts|] == Map(w, ts);
  }

  /** One more trade counts once, under its own label. */
  lemma {:induction false} OverLabelsNext(labels: seq<Label>, ts: seq<Trade>, t: Trade, d: Dimension, w: Trade -> int)
    requires Distinct(labels) && d != RiskFlag
    ensures OverLabels(labels, ts + [t], d, w) == OverLabels(labels, ts, d, w) + if KeyOf(t, d) in labels then w(t) else 0
  {
    if labels != [] {
      var front, l := labels[..|labels| - 1], labels[|labels| - 1];
      OverLabelsNext(front, ts, t, d, w);
      WeightNext(ts, t, l, w);
      if l.dimension == d {
        OneLabel(t, l);
      }
      assert labels == front + [l];
      assert l !in front;
    }
  }

  lemma {:induction false} OverLabelsTotal(labels: seq<Label>, ts: seq<Trade>, d: Dimension, w: Trade -> int)
    requires Distinct(labels) && d != RiskFlag && forall t :: t in ts ==> KeyOf(t, d) in labels
    ensures OverLabels(labels, ts, d, w) == Total(Map(w, ts))
  {
    if ts == [] {
      OverNothing(labels, d, w);
    } else {
      var front, t := ts[..|ts| - 1], ts[|ts| - 1];
      assert ts == front + [t];
      OverLabelsTotal(labels, front, d, w);
      OverLabelsNext(labels, front, t, d, w);
      assert Map(w, ts)[..|front|] == Map(w, front);
    }
  }

  lemma {:induction false} OverNothing(labels: seq<Label>, d: Dimension, w: Trade -> int)
    ensures OverLabels(labels, [], d, w) == 0
  {
    if labels != [] {
      OverNothing(labels[..|labels| - 1], d, w);
    }
  }

  lemma {:induction false} OverIsOverLabels(buckets: seq<Bucket>, ts: seq<Trade>, d: Dimension, value: Bucket -> int, w: Trade -> int)
    requires forall i :: 0 <= i < |buckets| ==> value(buckets[i]) == Weight(ts, buckets[i].name, w)
    ensures Over(buckets, d, value) == OverLabels(Names(buckets), ts, d, w)
  {
    if buckets != [] {
      var last := |buckets| - 1;
      OverIsOverLabels(buckets[..last], ts, d, value, w);
      assert Names(buckets)[..last] == Names(buckets[..last]);
    }
  }

  lemma {:induction false} CountIsTotal(ts: seq<Trade>)
    ensures Total(Map((t: Trade) => 1, ts)) == |ts|
  {
    if ts != [] {
      var front := ts[..|ts| - 1];
      CountIsTotal(front);
      assert Map((t: Trade) => 1, ts)[..|front|] == Map((t: Trade) => 1, front);
    }
  }

  /** The source, structure and exit buckets each sum to the session's net and trade count. */
  lemma BucketsAddUp(buckets: seq<Bucket>, ts: seq<Trade>, d: Dimension)
    requires Attributes(buckets, ts) && d != RiskFlag
    ensures Over(buckets, d, (b: Bucket) => b.net) == Total(Nets(ts))
    ensures Over(buckets, d, (b: Bucket) => b.count) == |ts|
  {
    var labels := Names(buckets);
    forall t | t in ts ensures KeyOf(t, d) in labels {
      OneLabel(t, KeyOf(t, d));
      assert t in Group(ts, KeyOf(t, d));
      var i :| 0 <= i < |buckets| && buckets[i].name == KeyOf(t, d);
      assert labels[i] == KeyOf(t, d);
    }
    forall i | 0 <= i < |buckets|
      ensures buckets[i].net == Weight(ts, buckets[i].name, NetQuanta)
      ensures buckets[i].count == Weight(ts, buckets[i].name, (t: Trade) => 1)
    {
      assert Describes(buckets[i], Group(ts, buckets[i].name));
      CountIsTotal(Group(ts, buckets[i].name));
    }
    OverIsOverLabels(buckets, ts, d, (b: Bucket) => b.net, NetQuanta);
    OverIsOverLabels(buckets, ts, d, (b: Bucket) => b.count, (t: Trade) => 1);
    OverLabelsTotal(labels, ts, d, NetQuanta);
    OverLabelsTotal(labels, ts, d, (t: Trade) => 1);
    CountIsTotal(ts);
  }

  // ---------- several sessions ----------

  /** `profitFactor` is only known on the path that has the trades. */
  datatype Overall = Overall(
    sessions: nat, count: int, gross: int, fees: int, net: int, winRate: int, profitFactor: Option<int>, expectancy: int,
    drawdown: int, averageR: int)

  ghost predicate FromTrades(o: Overall, sessions: nat, ts: seq<Trade>) {
    exists s :: Summarizes(s, ts)
      && o == Overall(sessions, s.count, s.gross, s.fees, s.net, s.ratios.winRate, s.ratios.profitFactor,
                      s.ratios.expectancy, s.drawdown, s.ratios.averageR)
  }

  function CountOf(values: seq<Summary>): int {
    Total(Map((s: Summary) => s.count, values))
  }

  function WinsOf(values: seq<Summary>): int {
    Total(Map((s: Summary) => s.wins, values))
  }

  function GrossOf(values: seq<Summary>): int {
    Total(Map((s: Summary) => s.gross, values))
  }

  function FeesOf(values: seq<Summary>): int {
    Total(Map((s: Summary) => s.fees, values))
  }

  function SessionNets(values: seq<Summary>): seq<int> {
    Map((s: Summary) => s.net, values)
  }

  function WeightOf(s: Summary): int {
    s.ratios.averageR * s.count
  }

  function WeightedR(values: seq<Summary>): int {
    Total(Map(WeightOf, values))
  }

  /** A rounded quotient of session totals. */
  function Mean(total: int, count: int): int {
    if count > 0 then HalfEven(total, count) else 0
  }

  ghost predicate FromSessions(o: Overall, values: seq<Summary>) {
    && o.sessions == |values| && o.count == CountOf(values) && o.gross == GrossOf(values) && o.fees == FeesOf(values)
    && o.net == Total(SessionNets(values)) && o.profitFactor == None
    && o.winRate == Mean(WinsOf(values) * SCALE, CountOf(values)) && o.expectancy == Mean(o.net, CountOf(values))
    && o.averageR == Mean(WeightedR(values), CountOf(values))
    && IsDrawdown(SessionNets(values), o.drawdown)
  }

  method SummarizeSessions(values: seq<Summary>, trades: Option<seq<Trade>>) returns (o: Overall)
    ensures if trades.Some? then FromTrades(o, |values|, trades.value) else FromSessions(o, values)
  {
    if trades.Some? {
      var s := Summarize(trades.value);
      return Overall(|values|, s.count, s.gross, s.fees, s.net, s.ratios.winRate, s.ratios.profitFactor,
                     s.ratios.expectancy, s.drawdown, s.ratios.averageR);
    }
    var nets := SessionNets(values);
    var net, count := Total(nets), CountOf(values);
    var drawdown := MaximumDrawdown(nets);
    o := Overall(|values|, count, GrossOf(values), FeesOf(values), net, Mean(WinsOf(values) * SCALE, count), None,
                 Mean(net, count), drawdown, Mean(WeightedR(values), count));
  }

  // ---------- the two paths agree ----------

  function AllTrades(sessions: seq<seq<Trade>>): seq<Trade> {
    if sessions == [] then [] else AllTrades(sessions[..|sessions| - 1]) + sessions[|sessions| - 1]
  }

  ghost predicate Reported(values: seq<Summary>, sessions: seq<seq<Trade>>) {
    |values| == |sessions| && forall i :: 0 <= i < |values| ==> Summarizes(values[i], sessions[i])
  }

  lemma TotalMapConcat(f: Trade -> int, a: seq<Trade>, b: seq<Trade>)
    ensures Map(f, a + b) == Map(f, a) + Map(f, b)
    ensures Total(Map(f, a + b)) == Total(Map(f, a)) + Total(Map(f, b))
  {
    assert Map(f, a + b) == Map(f, a) + Map(f, b);
    TotalConcat(Map(f, a), Map(f, b));
  }

  lemma {:induction false} FilterConcat(p: int -> bool, a: seq<int>, b: seq<int>)
    ensures |Filter(p, a + b)| == |Filter(p, a)| + |Filter(p, b)|
  {
    if b == [] {
      assert a + b == a;
    } else {
      var front, x := b[..|b| - 1], b[|b| - 1];
      assert b == front + [x] && a + b == (a + front) + [x];
      FilterConcat(p, a, front);
      FilterSnoc(p, a + front, x);
      FilterSnoc(p, front, x);
    }
  }

  /** The parts of a summary that add up over sessions. */
  ghost predicate Adds(s: Summary, ts: seq<Trade>) {
    s.count == |ts| && s.gross == Total(Map(GrossQuanta, ts)) && s.net == Total(Nets(ts)) && s.wins == |Wins(Nets(ts))|
  }

  ghost predicate AllAdd(values: seq<Summary>, sessions: seq<seq<Trade>>) {
    |values| == |sessions| && forall i :: 0 <= i < |values| ==> Adds(values[i], sessions[i])
  }

  lemma SummaryAdds(s: Summary, ts: seq<Trade>)
    requires Summarizes(s, ts)
    ensures Adds(s, ts)
  {
  }

  lemma ReportedAdd(values: seq<Summary>, sessions: seq<seq<Trade>>)
    requires Reported(values, sessions)
    ensures AllAdd(values, sessions)
  {
    forall i | 0 <= i < |values| ensures Adds(values[i], sessions[i]) {
      SummaryAdds(values[i], sessions[i]);
    }
  }

  lemma {:induction false} SessionTotals(values: seq<Summary>, sessions: seq<seq<Trade>>)
    requires AllAdd(values, sessions)
    ensures CountOf(values) == |AllTrades(sessions)|
    ensures GrossOf(values) == Total(Map(GrossQuanta, AllTrades(sessions)))
    ensures Total(SessionNets(values)) == Total(Nets(AllTrades(sessions)))
    ensures WinsOf(values) == |Wins(Nets(AllTrades(sessions)))|
  {
    if values != [] {
      var n := |values| - 1;
      var all, last := AllTrades(sessions[..n]), sessions[n];
      SessionTotals(values[..n], sessions[..n]);
      assert Adds(values[n], last);
      TotalMapConcat(GrossQuanta, all, last);
      TotalMapConcat(NetQuanta, all, last);
      FilterConcat((v: int) => v > 0, Nets(all), Nets(last));
      FrontMaps(values);
    }
  }

  lemma FrontMaps(values: seq<Summary>)
    requires values != []
    ensures var front := values[..|values| - 1];
            && CountOf(values) == CountOf(front) + values[|values| - 1].count
            && GrossOf(values) == GrossOf(front) + values[|values| - 1].gross
            && FeesOf(values) == FeesOf(front) + values[|values| - 1].fees
            && WinsOf(values) == WinsOf(front) + values[|values| - 1].wins
            && Total(SessionNets(values)) == Total(SessionNets(front)) + values[|values| - 1].net
  {
    var n := |values| - 1;
    assert Map((s: Summary) => s.count, values)[..n] == Map((s: Summary) => s.count, values[..n]);
    assert Map((s: Summary) => s.gross, values)[..n] == Map((s: Summary) => s.gross, values[..n]);
    assert Map((s: Summary) => s.fees, values)[..n] == Map((s: Summary) => s.fees, values[..n]);
    assert Map((s: Summary) => s.wins, values)[..n] == Map((s: Summary) => s.wins, values[..n]);
    assert SessionNets(values)[..n] == SessionNets(values[..n]);
  }

  lemma {:induction false} AllTradesPrefix(sessions: seq<seq<Trade>>, m: nat)
    requires m <= |sessions|
    ensures AllTrades(sessions[..m]) <= AllTrades(sessions)
    decreases |sessions|
  {
    if m == |sessions| {
      assert sessions[..m] == sessions;
    } else {
      var front := sessions[..|sessions| - 1];
      assert front[..m] == sessions[..m];
      AllTradesPrefix(front, m);
    }
  }

  lemma ReportedPart(values: seq<Summary>, sessions: seq<seq<Trade>>, m: nat)
    requires Reported(values, sessions) && m <= |sessions|
    ensures Total(SessionNets(values)[..m]) == Total(Nets(AllTrades(sessions[..m])))
  {
    ReportedAdd(values, sessions);
    AddPart(values, sessions, m);
    SessionTotals(values[..m], sessions[..m]);
    NetsOfPart(values, m);
  }

  lemma AddPart(values: seq<Summary>, sessions: seq<seq<Trade>>, m: nat)
    requires AllAdd(values, sessions) && m <= |sessions|
    ensures AllAdd(values[..m], sessions[..m])
  {
    forall i | 0 <= i < m ensures Adds(values[..m][i], sessions[..m][i]) {
      assert Adds(values[i], sessions[i]);
    }
  }

  lemma NetsOfPart(values: seq<Summary>, m: nat)
    requires m <= |values|
    ensures SessionNets(values)[..m] == SessionNets(values[..m])
  {
  }

  /** The profit after some sessions is the profit after their trades. */
  lemma SessionPoint(values: seq<Summary>, sessions: seq<seq<Trade>>, m: nat)
    requires Reported(values, sessions) && m <= |sessions|
    ensures |AllTrades(sessions[..m])| <= |AllTrades(sessions)|
    ensures Prefixes(SessionNets(values))[m] == Prefixes(Nets(AllTrades(sessions)))[|AllTrades(sessions[..m])|]
  {
    var all, part := AllTrades(sessions), AllTrades(sessions[..m]);
    AllTradesPrefix(sessions, m);
    ReportedPart(values, sessions, m);
    NetsOfPrefix(all, part);
  }

  lemma NetsOfPrefix(all: seq<Trade>, part: seq<Trade>)
    requires part <= all
    ensures Nets(all)[..|part|] == Nets(part)
  {
  }

  lemma LaterPart(sessions: seq<seq<Trade>>, i: nat, j: nat)
    requires i <= j <= |sessions|
    ensures |AllTrades(sessions[..i])| <= |AllTrades(sessions[..j])|
  {
    AllTradesPrefix(sessions[..j], i);
    assert sessions[..j][..i] == sessions[..i];
  }

  /** Sessions see only some of the points the trades see, so their drawdown is no larger. */
  lemma SessionDrawdownIsNoLarger(values: seq<Summary>, sessions: seq<seq<Trade>>, d: int, e: int)
    requires Reported(values, sessions)
    requires IsDrawdown(SessionNets(values), d) && IsDrawdown(Nets(AllTrades(sessions)), e)
    ensures d <= e
  {
    var points, finer := Prefixes(SessionNets(values)), Prefixes(Nets(AllTrades(sessions)));
    var i, j :| 0 <= i <= j < |points| && points[i] - points[j] == d;
    SessionPoint(values, sessions, i);
    SessionPoint(values, sessions, j);
    LaterPart(sessions, i, j);
    var a, b := |AllTrades(sessions[..i])|, |AllTrades(sessions[..j])|;
    assert finer[a] - finer[b] <= e;
  }

  /** Both ways of summarizing the same sessions agree on everything but the profit factor, the rounding of the fees
      and of the average R, and the drawdown, which by session is no larger. */
  lemma PathsAgree(byTrade: Overall, bySession: Overall, values: seq<Summary>, sessions: seq<seq<Trade>>)
    requires Reported(values, sessions)
    requires FromTrades(byTrade, |values|, AllTrades(sessions)) && FromSessions(bySession, values)
    ensures byTrade.sessions == bySession.sessions && byTrade.count == bySession.count
    ensures byTrade.gross == bySession.gross && byTrade.net == bySession.net
    ensures byTrade.winRate == bySession.winRate && byTrade.expectancy == bySession.expectancy
    ensures bySession.drawdown <= byTrade.drawdown
  {
    var all := AllTrades(sessions);
    var s :| Summarizes(s, all) && byTrade.count == s.count && byTrade.gross == s.gross && byTrade.net == s.net
             && byTrade.drawdown == s.drawdown && byTrade.winRate == s.ratios.winRate
             && byTrade.expectancy == s.ratios.expectancy;
    ReportedAdd(values, sessions);
    SessionTotals(values, sessions);
    SessionDrawdownIsNoLarger(values, sessions, bySession.drawdown, byTrade.drawdown);
  }

  // ---------- the average R ----------

  function RTotal(ts: seq<Trade>): int {
    Total(Map(RQuanta, ts))
  }

  /** A session's average leaves out at most half a quantum per trade. */
  lemma WeightNearTotal(s: Summary, ts: seq<Trade>)
    requires Summarizes(s, ts)
    ensures -|ts| <= 2 * (WeightOf(s) - RTotal(ts)) <= |ts|
  {
    if ts != [] {
      HalfEvenIsNearest(RTotal(ts), |ts|);
    }
  }

  lemma {:induction false} WeightsNearTotal(values: seq<Summary>, sessions: seq<seq<Trade>>)
    requires Reported(values, sessions)
    ensures -|AllTrades(sessions)| <= 2 * (WeightedR(values) - RTotal(AllTrades(sessions))) <= |AllTrades(sessions)|
  {
    if values != [] {
      var n := |values| - 1;
      ReportedFront(values, sessions);
      WeightsNearTotal(values[..n], sessions[..n]);
      WeightNearTotal(values[n], sessions[n]);
      TotalMapConcat(RQuanta, AllTrades(sessions[..n]), sessions[n]);
      assert Map(WeightOf, values)[..n] == Map(WeightOf, values[..n]);
    }
  }

  /** An error of `off` in the numerator is rounded away at the integer `n`. */
  predicate RoundedAway(off: int, d: int, n: int) {
    -d < 2 * off < d || ((2 * off == d || 2 * off == -d) && n % 2 == 0)
  }

  lemma Multiples(x: int, y: int, d: int)
    requires d > 0
    ensures x * d - y * d == (x - y) * d
    ensures (x - y) * d >= 2 * d ==> x - y >= 2
    ensures x - y >= 2 ==> (x - y) * d >= 2 * d
    ensures x - y >= 1 ==> (x - y) * d >= d
  {
    if x - y < 2 {
      MulMonotone(x - y, 1, d);
    } else {
      MulMonotone(2, x - y, d);
    }
    if x - y >= 1 {
      MulMonotone(1, x - y, d);
    }
  }

  /** Numerators half a unit apart round to neighbours at most. */
  lemma HalfEvenNear(a: int, b: int, d: int)
    requires d > 0 && -d <= 2 * (a - b) <= d
    ensures -1 <= HalfEven(a, d) - HalfEven(b, d) <= 1
  {
    hide HalfEven;
    HalfEvenIsNearest(a, d);
    HalfEvenIsNearest(b, d);
    var x, y := HalfEven(a, d), HalfEven(b, d);
    Multiples(x, y, d);
    Multiples(y, x, d);
  }

  lemma HalfEvenExactly(a: int, d: int, n: int)
    requires d > 0
    ensures HalfEven(a, d) == n <==> RoundedAway(a - n * d, d, n)
  {
    hide HalfEven;
    HalfEvenIsNearest(a, d);
    var x := HalfEven(a, d);
    Multiples(x, n, d);
    Multiples(n, x, d);
  }

  lemma AveragesOf(byTrade: Overall, bySession: Overall, values: seq<Summary>, sessions: seq<seq<Trade>>)
    requires Reported(values, sessions)
    requires FromTrades(byTrade, |values|, AllTrades(sessions)) && FromSessions(bySession, values)
    ensures byTrade.averageR == Mean(RTotal(AllTrades(sessions)), |AllTrades(sessions)|)
    ensures bySession.averageR == Mean(WeightedR(values), |AllTrades(sessions)|)
  {
    ReportedAdd(values, sessions);
    SessionTotals(values, sessions);
  }

  /** The average R differs by at most one quantum between the two paths, and agrees exactly when the total over the
      trades rounds to what the sessions' averages give. */
  lemma AverageRNearlyAgrees(byTrade: Overall, bySession: Overall, values: seq<Summary>, sessions: seq<seq<Trade>>)
    requires Reported(values, sessions) && AllTrades(sessions) != []
    requires FromTrades(byTrade, |values|, AllTrades(sessions)) && FromSessions(bySession, values)
    ensures -1 <= byTrade.averageR - bySession.averageR <= 1
    ensures var n, count := HalfEven(WeightedR(values), |AllTrades(sessions)|), |AllTrades(sessions)|;
            byTrade.averageR == bySession.averageR <==> RoundedAway(RTotal(AllTrades(sessions)) - n * count, count, n)
  {
    hide HalfEven, FromTrades, FromSessions, Reported, WeightedR, RTotal, AllTrades, RoundedAway;
    AveragesOf(byTrade, bySession, values, sessions);
    WeightsNearTotal(values, sessions);
    HalfEvenNear(RTotal(AllTrades(sessions)), WeightedR(values), |AllTrades(sessions)|);
    HalfEvenExactly(RTotal(AllTrades(sessions)), |AllTrades(sessions)|, bySession.averageR);
  }

  /** They do differ: two trades with one quantum in total and one trade with one more average to one quantum over the
      trades, and to none over the sessions. */
  lemma AverageRDiffers(byTrade: Overall, bySession: Overall, values: seq<Summary>, sessions: seq<seq<Trade>>)
    requires Reported(values, sessions)
    requires FromTrades(byTrade, |values|, AllTrades(sessions)) && FromSessions(bySession, values)
    requires |sessions| == 2 && |sessions[0]| == 2 && |sessions[1]| == 1 && RTotal(sessions[0]) == RTotal(sessions[1]) == 1
    ensures byTrade.averageR == 1 && bySession.averageR == 0
  {
    hide FromTrades, FromSessions, Reported, Summarizes, WeightedR, RTotal, AllTrades;
    AveragesOf(byTrade, bySession, values, sessions);
    TwoSessions(sessions);
    TwoWeights(values, sessions);
  }

  lemma TwoSessions(sessions: seq<seq<Trade>>)
    requires |sessions| == 2 && |sessions[0]| == 2 && |sessions[1]| == 1 && RTotal(sessions[0]) == RTotal(sessions[1]) == 1
    ensures |AllTrades(sessions)| == 3 && RTotal(AllTrades(sessions)) == 2
  {
    var first := sessions[..1];
    assert first[..0] == [] && AllTrades(first) == sessions[0];
    TotalMapConcat(RQuanta, sessions[0], sessions[1]);
  }

  lemma TwoWeights(values: seq<Summary>, sessions: seq<seq<Trade>>)
    requires Reported(values, sessions)
    requires |sessions| == 2 && |sessions[0]| == 2 && |sessions[1]| == 1 && RTotal(sessions[0]) == RTotal(sessions[1]) == 1
    ensures WeightedR(values) == 1
  {
    hide Total;
    assert Summarizes(values[0], sessions[0]) && Summarizes(values[1], sessions[1]);
    assert WeightOf(values[0]) == 0 && WeightOf(values[1]) == 1;
    TotalOfTwo(Map(WeightOf, values));
  }

  lemma TotalOfTwo(values: seq<int>)
    requires |values| == 2
    ensures Total(values) == values[0] + values[1]
  {
    assert values[..1][..0] == [] && Total(values[..1]) == values[0];
  }

  // ---------- net, gross and fees over sessions ----------

  /** Both aggregation paths: the net is the gross less the fees, to one quantum per trade, and exactly when the trades'
      amounts are whole quanta. */
  lemma OverallNetIsGrossLessFees(o: Overall, sessions: nat, ts: seq<Trade>)
    requires FromTrades(o, sessions, ts)
    ensures -|ts| <= o.net - (o.gross - o.fees) <= |ts|
    ensures (forall t :: t in ts ==> WholeTrade(t)) ==> o.net == o.gross - o.fees
  {
    var s :| Summarizes(s, ts) && o.gross == s.gross && o.fees == s.fees && o.net == s.net;
    NetIsGrossLessFees(s, ts);
  }

  lemma {:induction false} SessionsNetIsGrossLessFees(values: seq<Summary>, sessions: seq<seq<Trade>>)
    requires Reported(values, sessions)
    ensures -|AllTrades(sessions)| <= Total(SessionNets(values)) - (GrossOf(values) - FeesOf(values)) <= |AllTrades(sessions)|
    ensures (forall t :: t in AllTrades(sessions) ==> WholeTrade(t)) ==>
              Total(SessionNets(values)) == GrossOf(values) - FeesOf(values)
  {
    if values != [] {
      var n := |values| - 1;
      ReportedFront(values, sessions);
      SessionsNetIsGrossLessFees(values[..n], sessions[..n]);
      FrontMaps(values);
      assert Summarizes(values[n], sessions[n]);
      NetIsGrossLessFees(values[n], sessions[n]);
      hide Summarizes, WholeTrade, GrossOf, FeesOf, SessionNets, Total, Reported;
      assert AllTrades(sessions) == AllTrades(sessions[..n]) + sessions[n];
      assert forall t :: t in AllTrades(sessions[..n]) || t in sessions[n] ==> t in AllTrades(sessions);
    }
  }

  lemma BothNetsAreGrossLessFees(byTrade: Overall, bySession: Overall, values: seq<Summary>, sessions: seq<seq<Trade>>)
    requires Reported(values, sessions)
    requires FromTrades(byTrade, |values|, AllTrades(sessions)) && FromSessions(bySession, values)
    ensures -|AllTrades(sessions)| <= byTrade.net - (byTrade.gross - byTrade.fees) <= |AllTrades(sessions)|
    ensures -|AllTrades(sessions)| <= bySession.net - (bySession.gross - bySession.fees) <= |AllTrades(sessions)|
    ensures (forall t :: t in AllTrades(sessions) ==> WholeTrade(t)) ==>
              byTrade.net == byTrade.gross - byTrade.fees && bySession.net == bySession.gross - bySession.fees
  {
    OverallNetIsGrossLessFees(byTrade, |values|, AllTrades(sessions));
    SessionsNetIsGrossLessFees(values, sessions);
  }

  // ---------- fees ----------

  lemma {:induction false} FeesConcat(a: seq<Trade>, b: seq<Trade>)
    ensures Fees(a + b) == Fees(a) + Fees(b)
  {
    if b == [] {
      assert a + b == a;
    } else {
      assert (a + b)[..|a + b| - 1] == a + b[..|b| - 1];
      FeesConcat(a, b[..|b| - 1]);
    }
  }

  lemma FeesReported(values: seq<Summary>, sessions: seq<seq<Trade>>, i: nat)
    requires Reported(values, sessions) && i < |values|
    ensures values[i].fees == Quanta(Fees(sessions[i]))
  {
    assert Summarizes(values[i], sessions[i]);
  }

  lemma ReportedFront(values: seq<Summary>, sessions: seq<seq<Trade>>)
    requires Reported(values, sessions) && values != []
    ensures Reported(values[..|values| - 1], sessions[..|values| - 1])
  {
  }

  /** The sum of the sessions' rounded fees. */
  function RoundedTotal(sessions: seq<seq<Trade>>): int {
    if sessions == [] then 0 else RoundedTotal(sessions[..|sessions| - 1]) + Quanta(Fees(sessions[|sessions| - 1]))
  }

  /** What the rounding of one session's fees leaves out. */
  function Remainder(ts: seq<Trade>): real {
    Scaled(Fees(ts)) - Quanta(Fees(ts)) as real
  }

  /** What it leaves out over all sessions. */
  function Residue(sessions: seq<seq<Trade>>): real {
    if sessions == [] then 0.0 else Residue(sessions[..|sessions| - 1]) + Remainder(sessions[|sessions| - 1])
  }

  lemma ScaledSum(x: real, y: real)
    ensures Scaled(x + y) == Scaled(x) + Scaled(y)
  {
  }

  /** The exact fees of all trades are the rounded fees of the sessions and what their rounding left out. */
  lemma {:induction false} ExactFees(sessions: seq<seq<Trade>>)
    ensures Scaled(Fees(AllTrades(sessions))) == RoundedTotal(sessions) as real + Residue(sessions)
  {
    if sessions == [] {
      assert Scaled(0.0) == 0.0;
    } else {
      var front, last := sessions[..|sessions| - 1], sessions[|sessions| - 1];
      ExactFees(front);
      FeesConcat(AllTrades(front), last);
      ScaledSum(Fees(AllTrades(front)), Fees(last));
    }
  }

  lemma {:induction false} SessionFees(values: seq<Summary>, sessions: seq<seq<Trade>>)
    requires Reported(values, sessions)
    ensures FeesOf(values) == RoundedTotal(sessions)
  {
    if values != [] {
      var n := |values| - 1;
      ReportedFront(values, sessions);
      SessionFees(values[..n], sessions[..n]);
      FeesReported(values, sessions, n);
      FeesOfFront(values);
    }
  }

  lemma FeesOfFront(values: seq<Summary>)
    requires values != []
    ensures FeesOf(values) == FeesOf(values[..|values| - 1]) + values[|values| - 1].fees
  {
    FrontMaps(values);
  }

  /** A session's fees are a whole number of quanta. */
  ghost predicate WholeFees(ts: seq<Trade>) {
    Scaled(Fees(ts)) == Scaled(Fees(ts)).Floor as real
  }

  /** Half a quantum is left out per session at most, and nothing when the fees are whole. */
  lemma {:induction false} ResidueBound(sessions: seq<seq<Trade>>)
    ensures -(|sessions| as real) <= 2.0 * Residue(sessions) <= |sessions| as real
    ensures (forall i :: 0 <= i < |sessions| ==> WholeFees(sessions[i])) ==> Residue(sessions) == 0.0
  {
    if sessions != [] {
      var front, last := sessions[..|sessions| - 1], sessions[|sessions| - 1];
      ResidueBound(front);
      NearestEvenIsNearest(Scaled(Fees(last)));
      if WholeFees(last) {
        NearestEvenOfWhole(Scaled(Fees(last)).Floor);
      }
    }
  }

  lemma FromTradesFees(o: Overall, sessions: nat, ts: seq<Trade>)
    requires FromTrades(o, sessions, ts)
    ensures o.fees == Quanta(Fees(ts))
  {
  }

  /** The two paths report the same fees exactly when what the sessions' rounding leaves out in total is rounded away
      when all trades are summed: it is below half a quantum, or half a quantum at an even sum. */
  lemma FeesAgreeExactly(byTrade: Overall, bySession: Overall, values: seq<Summary>, sessions: seq<seq<Trade>>)
    requires Reported(values, sessions)
    requires FromTrades(byTrade, |values|, AllTrades(sessions)) && FromSessions(bySession, values)
    ensures byTrade.fees == bySession.fees <==> RoundsAway(Residue(sessions), RoundedTotal(sessions))
  {
    FromTradesFees(byTrade, |values|, AllTrades(sessions));
    SessionFees(values, sessions);
    ExactFees(sessions);
    NearestEvenExactly(Scaled(Fees(AllTrades(sessions))), RoundedTotal(sessions));
  }

  /** So the fees differ by at most half a quantum per session and one half more, and not at all when the sessions'
      fees are whole quanta. */
  lemma FeesNearlyAgree(byTrade: Overall, bySession: Overall, values: seq<Summary>, sessions: seq<seq<Trade>>)
    requires Reported(values, sessions)
    requires FromTrades(byTrade, |values|, AllTrades(sessions)) && FromSessions(bySession, values)
    ensures -|values| - 1 <= 2 * (byTrade.fees - bySession.fees) <= |values| + 1
    ensures (forall i :: 0 <= i < |sessions| ==> WholeFees(sessions[i])) ==> byTrade.fees == bySession.fees
  {
    FeesAgreeExactly(byTrade, bySession, values, sessions);
    FromTradesFees(byTrade, |values|, AllTrades(sessions));
    SessionFees(values, sessions);
    FeesWithin(sessions);
    ResidueBound(sessions);
  }

  lemma FeesWithin(sessions: seq<seq<Trade>>)
    ensures -|sessions| - 1 <= 2 * (Quanta(Fees(AllTrades(sessions))) - RoundedTotal(sessions)) <= |sessions| + 1
  {
    ExactFees(sessions);
    ResidueBound(sessions);
    NearestEvenIsNearest(Scaled(Fees(AllTrades(sessions))));
  }

  /** Fees below a quantum do disagree: of two sessions with half a quantum each, the report by session has none, the
      report by trade has one. */
  lemma SmallFeesDisagree(byTrade: Overall, bySession: Overall, values: seq<Summary>, sessions: seq<seq<Trade>>)
    requires Reported(values, sessions)
    requires FromTrades(byTrade, |values|, AllTrades(sessions)) && FromSessions(bySession, values)
    requires |sessions| == 2 && Fees(sessions[0]) == Fees(sessions[1]) == 0.00000000005
    ensures bySession.fees == 0 && byTrade.fees == 1
  {
    FromTradesFees(byTrade, |values|, AllTrades(sessions));
    SessionFees(values, sessions);
    HalfQuanta(sessions);
    ExactFees(sessions);
  }

  lemma HalfQuanta(sessions: seq<seq<Trade>>)
    requires |sessions| == 2 && Fees(sessions[0]) == Fees(sessions[1]) == 0.00000000005
    ensures RoundedTotal(sessions) == 0 && Residue(sessions) == 1.0
  {
    var first := sessions[..1];
    assert first[..0] == [];
    assert Scaled(0.00000000005) == 0.5 && Quanta(0.00000000005) == 0;
    assert RoundedTotal(first) == 0 && Residue(first) == 0.5;
  }
}
