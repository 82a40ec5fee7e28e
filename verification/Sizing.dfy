/** Deterministic position sizing (daybreak_risk/engine.py, size_position). Money and prices are integers in
    quanta of 1e-10, timestamps are microseconds. */
module Sizing {
  import opened Rounding

  datatype Flag = Parabolic | LowFloat | SpikyVolume | SecondarySource | HardToBorrow | UnknownBorrow

  datatype Policy = Policy(
    riskPerTrade: Rate, maxOpenRisk: Rate, maxPositionNotional: Rate, maxGrossExposure: Rate, buyingPowerReserve: Rate,
    maxConcurrent: nat, maxNewEntries: nat, softLoss: Rate, hardLoss: Rate, maxLosses: nat,
    slippageAtr: Rate, slippageSpread: Rate, maxAdv: Rate, maxPremarket: Rate,
    maxAccountAgeMs: int, maxQuoteAgeMs: int, maxTradeAgeMs: int,
    maxSpread: Rate, maxSpreadAtr: Rate, maxDrift: Rate, maxDriftAtr: Rate, pnlTolerance: int)

  datatype Account = Account(
    at: int, active: bool, blocked: bool, tradingBlocked: bool, suspended: bool,
    equity: int, lastEquity: int, buyingPower: int, nonMarginable: int, maintenanceMargin: int, pendingOut: int)

  datatype Quote = Quote(
    at: int, tradeAt: int, bid: int, ask: int, bidSize: int, askSize: int, last: int, nbboConfirmed: bool)

  datatype Session = Session(
    referenceEquity: int, startEquity: int, cashFlow: int, realized: int, unrealized: int,
    openRisk: int, reservedNotional: int, longValue: int, openCount: nat, reservedCount: nat,
    completedEntries: nat, closedLosses: nat, traded: set<string>,
    reconciled: bool, streamsHealthy: bool, databaseHealthy: bool, killSwitch: bool)

  datatype Request = Request(
    ticker: string, referencePrice: int, atr: int, premarketLow: int, flags: seq<Flag>,
    policy: Policy, account: Account, quote: Quote, session: Session,
    premarketVolume: nat, adv20: nat, tradable: bool, assetActive: bool,
    plannedEntry: int, tick: int, calculatedAt: int, cutoff: int, marketNormal: bool, halted: bool)

  /** What the request model has already enforced. */
  ghost predicate Valid(r: Request) {
    && r.tick > 0 && r.plannedEntry > 0
    && r.session.referenceEquity > 0 && r.session.openRisk >= 0
    && r.session.reservedNotional >= 0 && r.session.longValue >= 0
    && r.policy.buyingPowerReserve.num < r.policy.buyingPowerReserve.den
  }

  datatype Code =
    | AccountNotActive | AccountBlocked | TradingBlocked | SuspendedByUser | AccountStale | InvalidAccountValue
    | PendingTransferOut | Unreconciled | StreamFailure | DatabaseFailure | KillSwitchActive
    | MarketNotNormal | SymbolHalted | CutoffExceeded | QuoteStale | TradeStale | InvalidQuote | NbboNotConfirmed
    | InvalidLiquidity | PnlMismatch | HardLoss | SoftLoss | MaxLosses | MaxNewEntries | DuplicateTicker | MaxConcurrent
    | NotMarketable | InvalidGeometry | StopAboveLow | LowBroken | SpreadTooWide | DriftTooLarge
    | NoBuyingPower | NoOpenRisk | NoDailyLoss | NoGrossExposure | BelowMinimum

  datatype Cap =
    | TradeRisk | OpenRisk | DailyLoss | BuyingPower | PositionNotional | GrossExposure | AdvLiquidity | PremarketLiquidity

  // ---------- the amounts ----------

  function Min(a: int, b: int): (m: int)
    ensures m <= a && m <= b && (m == a || m == b)
  {
    if a <= b then a else b
  }

  function Max(a: int, b: int): (m: int)
    ensures a <= m && b <= m && (m == a || m == b)
  {
    if a >= b then a else b
  }

  function Abs(a: int): int {
    if a < 0 then -a else a
  }

  /** `int(total_seconds * 1000)`: whole milliseconds, toward zero. */
  function AgeMs(now: int, at: int): int {
    if now >= at then (now - at) / 1000 else -((at - now) / 1000)
  }

  function BrokerPnl(r: Request): int {
    r.account.equity - r.session.startEquity - r.session.cashFlow
  }

  function InternalPnl(r: Request): int {
    r.session.realized + r.session.unrealized
  }

  function RiskPnl(r: Request): int {
    Min(BrokerPnl(r), InternalPnl(r))
  }

  function Share(r: Request, rate: Rate): int {
    FloorToCent(r.session.referenceEquity * rate.num, rate.den)
  }

  function HardLossLimit(r: Request): int {
    Share(r, r.policy.hardLoss)
  }

  function SoftLossLimit(r: Request): int {
    Share(r, r.policy.softLoss)
  }

  function CurrentLoss(r: Request): int {
    Max(0, -RiskPnl(r))
  }

  function UsableBuyingPower(r: Request): int {
    var reserve := r.policy.buyingPowerReserve;
    FloorToCent(Min(r.account.nonMarginable, r.account.buyingPower) * (reserve.den - reserve.num)
                - r.session.reservedNotional * reserve.den, reserve.den)
  }

  function Entry(r: Request): int
    requires r.tick > 0
  {
    RoundUpToIncrement(r.plannedEntry, r.tick)
  }

  /** The stop and target multiples are fixed at one and two. */
  function StopPrice(r: Request): int
    requires r.tick > 0
  {
    RoundDownToIncrement(r.referencePrice - r.atr, r.tick)
  }

  function TargetPrice(r: Request): int
    requires r.tick > 0
  {
    RoundDownToIncrement(r.referencePrice + 2 * r.atr, r.tick)
  }

  function Spread(r: Request): int {
    r.quote.ask - r.quote.bid
  }

  function StructuralRisk(r: Request): int
    requires r.tick > 0
  {
    Entry(r) - StopPrice(r)
  }

  function ExecutionBuffer(r: Request): int {
    Max(HalfEven(r.policy.slippageAtr.num * r.atr, r.policy.slippageAtr.den),
        HalfEven(r.policy.slippageSpread.num * Spread(r), r.policy.slippageSpread.den))
  }

  function ModeledRisk(r: Request): int
    requires r.tick > 0
  {
    StructuralRisk(r) + ExecutionBuffer(r)
  }

  /** Percent. */
  function FlagMultiplier(f: Flag): int {
    match f
    case Parabolic => 50
    case LowFloat => 50
    case SpikyVolume => 60
    case SecondarySource => 75
    case HardToBorrow => 100
    case UnknownBorrow => 100
  }

  function Multiplier(flags: seq<Flag>): (m: int)
    ensures 50 <= m <= 100
    ensures forall f :: f in flags ==> m <= FlagMultiplier(f)
    ensures m == 100 || exists f :: f in flags && m == FlagMultiplier(f)
  {
    if flags == [] then 100 else Min(FlagMultiplier(flags[0]), Multiplier(flags[1..]))
  }

  function AdjustedBudget(r: Request): int {
    FloorToCent(Share(r, r.policy.riskPerTrade) * Multiplier(r.flags), 100)
  }

  function OpenRiskCap(r: Request): int {
    Share(r, r.policy.maxOpenRisk)
  }

  function RemainingOpenRisk(r: Request): int {
    FloorToCent(OpenRiskCap(r) - r.session.openRisk, 1)
  }

  function RemainingHardLoss(r: Request): int {
    FloorToCent(HardLossLimit(r) - CurrentLoss(r) - r.session.openRisk, 1)
  }

  function GrossCap(r: Request): int {
    Share(r, r.policy.maxGrossExposure)
  }

  function RemainingGross(r: Request): int {
    FloorToCent(GrossCap(r) - (r.session.longValue + r.session.reservedNotional), 1)
  }

  function MaxNotional(r: Request): int {
    Share(r, r.policy.maxPositionNotional)
  }

  // ---------- the rejection table ----------

  predicate BadAccount(a: Account) {
    a.equity <= 0 || a.lastEquity <= 0 || a.buyingPower < 0 || a.nonMarginable < 0 || a.maintenanceMargin < 0
  }

  predicate BadQuote(q: Quote) {
    q.bid <= 0 || q.ask <= 0 || q.ask < q.bid || q.last <= 0 || q.bidSize <= 0 || q.askSize <= 0
  }

  predicate BadPrices(r: Request)
    requires r.tick > 0
  {
    StopPrice(r) <= 0 || TargetPrice(r) <= Entry(r) || Entry(r) <= StopPrice(r)
  }

  predicate NoRiskPerShare(r: Request)
    requires r.tick > 0
  {
    StructuralRisk(r) <= 0 || ModeledRisk(r) <= 0
  }

  /** a/b > rate, read as 999 when b is not positive. */
  predicate RatioAbove(a: int, b: int, rate: Rate) {
    if b > 0 then a * rate.den > rate.num * b else 999 * rate.den > rate.num
  }

  predicate SpreadWide(r: Request) {
    || RatioAbove(2 * Spread(r), r.quote.bid + r.quote.ask, r.policy.maxSpread)
    || RatioAbove(Spread(r), r.atr, r.policy.maxSpreadAtr)
  }

  predicate DriftLarge(r: Request)
    requires r.tick > 0
  {
    var drift := Abs(Entry(r) - r.referencePrice);
    RatioAbove(drift, r.referencePrice, r.policy.maxDrift) || RatioAbove(drift, r.atr, r.policy.maxDriftAtr)
  }

  predicate Stale(now: int, at: int, limit: int) {
    AgeMs(now, at) < 0 || AgeMs(now, at) > limit
  }

  predicate AccountFails(r: Request, c: Code) {
    match c
    case AccountNotActive => !r.account.active
    case AccountBlocked => r.account.blocked
    case TradingBlocked => r.account.tradingBlocked
    case SuspendedByUser => r.account.suspended
    case AccountStale => Stale(r.calculatedAt, r.account.at, r.policy.maxAccountAgeMs)
    case InvalidAccountValue => BadAccount(r.account)
    case PendingTransferOut => r.account.pendingOut > 0
    case _ => false
  }

  predicate HealthFails(r: Request, c: Code) {
    match c
    case Unreconciled => !r.session.reconciled
    case StreamFailure => !r.session.streamsHealthy
    case DatabaseFailure => !r.session.databaseHealthy
    case KillSwitchActive => r.session.killSwitch
    case _ => false
  }

  predicate MarketFails(r: Request, c: Code) {
    match c
    case MarketNotNormal => !r.marketNormal
    case SymbolHalted => r.halted
    case CutoffExceeded => r.calculatedAt > r.cutoff
    case QuoteStale => Stale(r.calculatedAt, r.quote.at, r.policy.maxQuoteAgeMs)
    case TradeStale => Stale(r.calculatedAt, r.quote.tradeAt, r.policy.maxTradeAgeMs)
    case InvalidQuote => BadQuote(r.quote)
    case NbboNotConfirmed => !r.quote.nbboConfirmed
    case InvalidLiquidity => !r.tradable || !r.assetActive
    case _ => false
  }

  predicate LossFails(r: Request, c: Code) {
    match c
    case PnlMismatch => Abs(BrokerPnl(r) - InternalPnl(r)) > r.policy.pnlTolerance
    case HardLoss => RiskPnl(r) <= -HardLossLimit(r)
    case SoftLoss => !(RiskPnl(r) <= -HardLossLimit(r)) && RiskPnl(r) <= -SoftLossLimit(r)
    case _ => false
  }

  predicate SessionFails(r: Request, c: Code) {
    match c
    case MaxLosses => r.session.closedLosses >= r.policy.maxLosses
    case MaxNewEntries => r.session.completedEntries >= r.policy.maxNewEntries
    case DuplicateTicker => r.ticker in r.session.traded
    case MaxConcurrent => r.session.openCount + r.session.reservedCount >= r.policy.maxConcurrent
    case _ => false
  }

  predicate PriceFails(r: Request, c: Code)
    requires r.tick > 0
  {
    match c
    case NotMarketable => Entry(r) < r.quote.ask
    case InvalidGeometry => BadPrices(r) || NoRiskPerShare(r)
    case StopAboveLow => StopPrice(r) > r.premarketLow
    case LowBroken => Min(r.quote.last, r.quote.bid) < r.premarketLow
    case SpreadTooWide => SpreadWide(r)
    case DriftTooLarge => DriftLarge(r)
    case _ => false
  }

  predicate CapacityFails(r: Request, c: Code) {
    match c
    case NoBuyingPower => UsableBuyingPower(r) <= 0
    case NoOpenRisk => RemainingOpenRisk(r) <= 0
    case NoDailyLoss => RemainingHardLoss(r) <= 0
    case NoGrossExposure => RemainingGross(r) <= 0
    case _ => false
  }

  /** Whether the request must be rejected for the reason. */
  predicate Fails(r: Request, c: Code)
    requires r.tick > 0
  {
    || AccountFails(r, c) || HealthFails(r, c) || MarketFails(r, c)
    || LossFails(r, c) || SessionFails(r, c) || PriceFails(r, c) || CapacityFails(r, c)
  }

  ghost predicate Admitted(r: Request)
    requires r.tick > 0
  {
    forall c: Code :: !Fails(r, c)
  }

  // ---------- caps and the decision ----------

  function CapValue(r: Request, cap: Cap): int
    requires Valid(r) && Admitted(r)
  {
    assert !Fails(r, InvalidGeometry);
    EntryPositive(r);
    match cap
    case TradeRisk => AdjustedBudget(r) / ModeledRisk(r)
    case OpenRisk => RemainingOpenRisk(r) / ModeledRisk(r)
    case DailyLoss => RemainingHardLoss(r) / ModeledRisk(r)
    case BuyingPower => UsableBuyingPower(r) / Entry(r)
    case PositionNotional => MaxNotional(r) / Entry(r)
    case GrossExposure => RemainingGross(r) / Entry(r)
    case AdvLiquidity => (r.adv20 * r.policy.maxAdv.num) / r.policy.maxAdv.den
    case PremarketLiquidity => (r.premarketVolume * r.policy.maxPremarket.num) / r.policy.maxPremarket.den
  }

  lemma EntryPositive(r: Request)
    requires Valid(r)
    ensures Entry(r) > 0
  {
    IncrementsBracket(r.plannedEntry, r.tick);
  }

  /** The minimum of the eight caps. */
  function FinalQuantity(r: Request): (q: int)
    requires Valid(r) && Admitted(r)
    ensures forall c: Cap :: q <= CapValue(r, c)
    ensures exists c: Cap :: q == CapValue(r, c)
  {
    var a := Min(Min(CapValue(r, TradeRisk), CapValue(r, OpenRisk)), Min(CapValue(r, DailyLoss), CapValue(r, BuyingPower)));
    var b := Min(Min(CapValue(r, PositionNotional), CapValue(r, GrossExposure)),
                 Min(CapValue(r, AdvLiquidity), CapValue(r, PremarketLiquidity)));
    Min(a, b)
  }

  datatype Decision =
    | Approved(quantity: int, binding: Cap, reservedRisk: int, reservedNotional: int)
    | Rejected(reasons: seq<Code>, killSwitch: bool)

  /** The order in which caps are reported. */
  const CAP_ORDER: seq<Cap> :=
    [TradeRisk, OpenRisk, DailyLoss, BuyingPower, PositionNotional, GrossExposure, AdvLiquidity, PremarketLiquidity]

  /** The reported cap is the first that equals the quantity. */
  function Binding(r: Request): (c: Cap)
    requires Valid(r) && Admitted(r)
    ensures CapValue(r, c) == FinalQuantity(r)
    ensures forall k, before :: 0 <= before < k < |CAP_ORDER| && c == CAP_ORDER[k] ==>
              CapValue(r, CAP_ORDER[before]) > FinalQuantity(r)
  {
    var q := FinalQuantity(r);
    if CapValue(r, TradeRisk) == q then TradeRisk
    else if CapValue(r, OpenRisk) == q then OpenRisk
    else if CapValue(r, DailyLoss) == q then DailyLoss
    else if CapValue(r, BuyingPower) == q then BuyingPower
    else if CapValue(r, PositionNotional) == q then PositionNotional
    else if CapValue(r, GrossExposure) == q then GrossExposure
    else if CapValue(r, AdvLiquidity) == q then AdvLiquidity
    else PremarketLiquidity
  }

  /** What sizing must decide. The order of the reasons is left open; their set is not. */
  datatype Verdict =
    | Grant(quantity: int, binding: Cap, reservedRisk: int, reservedNotional: int)
    | Deny(reasons: set<Code>, killSwitch: bool)

  ghost function Size(r: Request): Verdict
    requires Valid(r)
  {
    if !Admitted(r) then Deny((set c: Code | Fails(r, c)), Fails(r, KillSwitchActive) || Fails(r, HardLoss))
    else if FinalQuantity(r) < 1 then Deny({BelowMinimum}, false)
    else Grant(FinalQuantity(r), Binding(r), ModeledRisk(r) * FinalQuantity(r), Entry(r) * FinalQuantity(r))
  }

  ghost predicate Decides(d: Decision, v: Verdict) {
    match (d, v)
    case (Approved(q, b, risk, notional), Grant(q', b', risk', notional')) =>
      q == q' && b == b' && risk == risk' && notional == notional'
    case (Rejected(reasons, k), Deny(reasons', k')) =>
      (forall c :: c in reasons <==> c in reasons') && k == k'
      && forall i, j :: 0 <= i < j < |reasons| ==> reasons[i] != reasons[j]
    case _ => false
  }

  // ---------- sizing, step by step ----------

  method Note(reasons: seq<Code>, fires: bool, code: Code) returns (noted: seq<Code>)
    ensures forall c :: c in noted <==> c in reasons || (fires && c == code)
  {
    noted := reasons;
    if fires {
      noted := noted + [code];
    }
  }

  method UniqueReasons(reasons: seq<Code>) returns (result: seq<Code>)
    ensures forall c :: c in result <==> c in reasons
    ensures forall i, j :: 0 <= i < j < |result| ==> result[i] != result[j]
  {
    result := [];
    var seen: set<Code> := {};
    for k := 0 to |reasons|
      invariant forall c :: c in seen <==> c in reasons[..k]
      invariant forall c :: c in result <==> c in seen
      invariant forall i, j :: 0 <= i < j < |result| ==> result[i] != result[j]
    {
      assert reasons[..k + 1] == reasons[..k] + [reasons[k]];
      if reasons[k] !in seen {
        result := result + [reasons[k]];
        seen := seen + {reasons[k]};
      }
    }
    assert reasons[..|reasons|] == reasons;
  }

  method AccountReasons(r: Request) returns (reasons: seq<Code>)
    requires Valid(r)
    ensures forall c :: c in reasons <==> AccountFails(r, c)
  {
    reasons := [];
    reasons := Note(reasons, !r.account.active, AccountNotActive);
    reasons := Note(reasons, r.account.blocked, AccountBlocked);
    reasons := Note(reasons, r.account.tradingBlocked, TradingBlocked);
    reasons := Note(reasons, r.account.suspended, SuspendedByUser);
    reasons := Note(reasons, Stale(r.calculatedAt, r.account.at, r.policy.maxAccountAgeMs), AccountStale);
    reasons := Note(reasons, BadAccount(r.account), InvalidAccountValue);
    reasons := Note(reasons, r.account.pendingOut > 0, PendingTransferOut);
  }

  method HealthReasons(r: Request) returns (reasons: seq<Code>)
    requires Valid(r)
    ensures forall c :: c in reasons <==> HealthFails(r, c)
  {
    reasons := [];
    reasons := Note(reasons, !r.session.reconciled, Unreconciled);
    reasons := Note(reasons, !r.session.streamsHealthy, StreamFailure);
    reasons := Note(reasons, !r.session.databaseHealthy, DatabaseFailure);
    reasons := Note(reasons, r.session.killSwitch, KillSwitchActive);
  }

  method MarketReasons(r: Request) returns (reasons: seq<Code>)
    requires Valid(r)
    ensures forall c :: c in reasons <==> MarketFails(r, c)
  {
    reasons := [];
    reasons := Note(reasons, !r.marketNormal, MarketNotNormal);
    reasons := Note(reasons, r.halted, SymbolHalted);
    reasons := Note(reasons, r.calculatedAt > r.cutoff, CutoffExceeded);
    var quote := QuoteReasons(r);
    reasons := Note(reasons + quote, !r.tradable || !r.assetActive, InvalidLiquidity);
  }

  method QuoteReasons(r: Request) returns (reasons: seq<Code>)
    ensures forall c :: c in reasons <==> MarketFails(r, c) && c in {QuoteStale, TradeStale, InvalidQuote, NbboNotConfirmed}
  {
    reasons := [];
    reasons := Note(reasons, Stale(r.calculatedAt, r.quote.at, r.policy.maxQuoteAgeMs), QuoteStale);
    reasons := Note(reasons, Stale(r.calculatedAt, r.quote.tradeAt, r.policy.maxTradeAgeMs), TradeStale);
    reasons := Note(reasons, BadQuote(r.quote), InvalidQuote);
    reasons := Note(reasons, !r.quote.nbboConfirmed, NbboNotConfirmed);
  }

  method LossReasons(r: Request) returns (reasons: seq<Code>)
    requires Valid(r)
    ensures forall c :: c in reasons <==> LossFails(r, c)
  {
    reasons := [];
    reasons := Note(reasons, Abs(BrokerPnl(r) - InternalPnl(r)) > r.policy.pnlTolerance, PnlMismatch);
    if RiskPnl(r) <= -HardLossLimit(r) {
      reasons := Note(reasons, true, HardLoss);
    } else {
      reasons := Note(reasons, RiskPnl(r) <= -SoftLossLimit(r), SoftLoss);
    }
  }

  method SessionReasons(r: Request) returns (reasons: seq<Code>)
    requires Valid(r)
    ensures forall c :: c in reasons <==> SessionFails(r, c)
  {
    reasons := [];
    reasons := Note(reasons, r.session.closedLosses >= r.policy.maxLosses, MaxLosses);
    reasons := Note(reasons, r.session.completedEntries >= r.policy.maxNewEntries, MaxNewEntries);
    reasons := Note(reasons, r.ticker in r.session.traded, DuplicateTicker);
    reasons := Note(reasons, r.session.openCount + r.session.reservedCount >= r.policy.maxConcurrent, MaxConcurrent);
  }

  /** Invalid geometry can be noted twice: by price and by risk per share. */
  method PriceReasons(r: Request) returns (reasons: seq<Code>)
    requires Valid(r)
    ensures forall c :: c in reasons <==> PriceFails(r, c)
  {
    reasons := [];
    reasons := Note(reasons, Entry(r) < r.quote.ask, NotMarketable);
    reasons := Note(reasons, BadPrices(r), InvalidGeometry);
    var levels := LevelReasons(r);
    reasons := Note(reasons + levels, NoRiskPerShare(r), InvalidGeometry);
  }

  method LevelReasons(r: Request) returns (reasons: seq<Code>)
    requires Valid(r)
    ensures forall c :: c in reasons <==> PriceFails(r, c) && c in {StopAboveLow, LowBroken, SpreadTooWide, DriftTooLarge}
  {
    reasons := [];
    reasons := Note(reasons, StopPrice(r) > r.premarketLow, StopAboveLow);
    reasons := Note(reasons, Min(r.quote.last, r.quote.bid) < r.premarketLow, LowBroken);
    reasons := Note(reasons, SpreadWide(r), SpreadTooWide);
    reasons := Note(reasons, DriftLarge(r), DriftTooLarge);
  }

  method CapacityReasons(r: Request) returns (reasons: seq<Code>)
    requires Valid(r)
    ensures forall c :: c in reasons <==> CapacityFails(r, c)
  {
    reasons := [];
    reasons := Note(reasons, UsableBuyingPower(r) <= 0, NoBuyingPower);
    reasons := Note(reasons, RemainingOpenRisk(r) <= 0, NoOpenRisk);
    reasons := Note(reasons, RemainingHardLoss(r) <= 0, NoDailyLoss);
    reasons := Note(reasons, RemainingGross(r) <= 0, NoGrossExposure);
  }

  method AllReasons(r: Request) returns (reasons: seq<Code>)
    requires Valid(r)
    ensures forall c :: c in reasons <==> Fails(r, c)
  {
    var account := AccountReasons(r);
    var health := HealthReasons(r);
    var market := MarketReasons(r);
    var losses := LossReasons(r);
    var session := SessionReasons(r);
    var price := PriceReasons(r);
    var capacity := CapacityReasons(r);
    reasons := account + health + market + losses + session + price + capacity;
  }

  method SizePosition(r: Request) returns (d: Decision)
    requires Valid(r)
    ensures Decides(d, Size(r))
  {
    var reasons := AllReasons(r);
    if reasons != [] {
      assert Fails(r, reasons[0]);
      var unique := UniqueReasons(reasons);
      return Rejected(unique, r.session.killSwitch || RiskPnl(r) <= -HardLossLimit(r));
    }
    assert Admitted(r);
    var quantity := FinalQuantity(r);
    if quantity < 1 {
      return Rejected([BelowMinimum], false);
    }
    d := Approved(quantity, Binding(r), ModeledRisk(r) * quantity, Entry(r) * quantity);
  }

  // ---------- what the quantity means ----------

  /** `n` shares respect the limit behind the cap, stated on the exact amounts. */
  ghost predicate Respects(r: Request, n: int, cap: Cap)
    requires r.tick > 0
  {
    match cap
    case TradeRisk => n * ModeledRisk(r) <= AdjustedBudget(r)
    case OpenRisk => n * ModeledRisk(r) <= RemainingOpenRisk(r)
    case DailyLoss => n * ModeledRisk(r) <= RemainingHardLoss(r)
    case BuyingPower => n * Entry(r) <= UsableBuyingPower(r)
    case PositionNotional => n * Entry(r) <= MaxNotional(r)
    case GrossExposure => n * Entry(r) <= RemainingGross(r)
    case AdvLiquidity => n * r.policy.maxAdv.den <= r.adv20 * r.policy.maxAdv.num
    case PremarketLiquidity => n * r.policy.maxPremarket.den <= r.premarketVolume * r.policy.maxPremarket.num
  }

  lemma CapIsLimit(r: Request, n: int, cap: Cap)
    requires Valid(r) && Admitted(r)
    ensures n <= CapValue(r, cap) <==> Respects(r, n, cap)
  {
    assert !Fails(r, InvalidGeometry);
    EntryPositive(r);
    match cap {
      case TradeRisk => FloorDivision(AdjustedBudget(r), ModeledRisk(r), n);
      case OpenRisk => FloorDivision(RemainingOpenRisk(r), ModeledRisk(r), n);
      case DailyLoss => FloorDivision(RemainingHardLoss(r), ModeledRisk(r), n);
      case BuyingPower => FloorDivision(UsableBuyingPower(r), Entry(r), n);
      case PositionNotional => FloorDivision(MaxNotional(r), Entry(r), n);
      case GrossExposure => FloorDivision(RemainingGross(r), Entry(r), n);
      case AdvLiquidity => FloorDivision(r.adv20 * r.policy.maxAdv.num, r.policy.maxAdv.den, n);
      case PremarketLiquidity => FloorDivision(r.premarketVolume * r.policy.maxPremarket.num, r.policy.maxPremarket.den, n);
    }
  }

  /** The quantity is the greatest integer respecting all eight limits; one more share breaks the reported one. */
  lemma QuantityIsGreatest(r: Request, n: int)
    requires Valid(r) && Admitted(r)
    ensures (forall cap: Cap :: Respects(r, n, cap)) <==> n <= FinalQuantity(r)
    ensures !Respects(r, FinalQuantity(r) + 1, Binding(r))
  {
    var q := FinalQuantity(r);
    forall cap: Cap ensures n <= q ==> Respects(r, n, cap) {
      CapIsLimit(r, n, cap);
    }
    CapIsLimit(r, n, Binding(r));
    CapIsLimit(r, q + 1, Binding(r));
  }

  // ---------- what the amounts mean, on the fields of the request ----------

  /** `cents` is the greatest whole number of cents not above `n / d`. */
  ghost predicate GreatestCents(cents: int, n: int, d: int) {
    cents % CENT == 0 && forall c :: c * CENT <= cents <==> c * CENT * d <= n
  }

  lemma FloorIsGreatest(n: int, d: int)
    requires d > 0
    ensures GreatestCents(FloorToCent(n, d), n, d)
  {
    forall c ensures c * CENT <= FloorToCent(n, d) <==> c * CENT * d <= n {
      FloorToCentIsGreatest(n, d, c);
    }
    FloorToCentIsGreatest(n, d, 0);
  }

  /** Every limit is a share of the reference equity, floored to the cent. */
  lemma LimitsAreShares(r: Request)
    ensures GreatestCents(HardLossLimit(r), r.session.referenceEquity * r.policy.hardLoss.num, r.policy.hardLoss.den)
    ensures GreatestCents(SoftLossLimit(r), r.session.referenceEquity * r.policy.softLoss.num, r.policy.softLoss.den)
    ensures GreatestCents(OpenRiskCap(r), r.session.referenceEquity * r.policy.maxOpenRisk.num, r.policy.maxOpenRisk.den)
    ensures GreatestCents(GrossCap(r), r.session.referenceEquity * r.policy.maxGrossExposure.num,
                          r.policy.maxGrossExposure.den)
    ensures GreatestCents(MaxNotional(r), r.session.referenceEquity * r.policy.maxPositionNotional.num,
                          r.policy.maxPositionNotional.den)
  {
    FloorIsGreatest(r.session.referenceEquity * r.policy.hardLoss.num, r.policy.hardLoss.den);
    FloorIsGreatest(r.session.referenceEquity * r.policy.softLoss.num, r.policy.softLoss.den);
    FloorIsGreatest(r.session.referenceEquity * r.policy.maxOpenRisk.num, r.policy.maxOpenRisk.den);
    FloorIsGreatest(r.session.referenceEquity * r.policy.maxGrossExposure.num, r.policy.maxGrossExposure.den);
    FloorIsGreatest(r.session.referenceEquity * r.policy.maxPositionNotional.num, r.policy.maxPositionNotional.den);
  }

  /** An age is acceptable from less than a millisecond ahead of the clock to the limit's last full millisecond. */
  lemma StaleExactly(now: int, at: int, limit: int)
    requires limit >= 0
    ensures !Stale(now, at, limit) <==> -1000 < now - at < 1000 * (limit + 1)
  {
  }

  ghost predicate SoundAccount(r: Request) {
    var a := r.account;
    && a.active && !a.blocked && !a.tradingBlocked && !a.suspended
    && -1000 < r.calculatedAt - a.at < 1000 * (r.policy.maxAccountAgeMs + 1)
    && a.equity > 0 && a.lastEquity > 0 && a.buyingPower >= 0 && a.nonMarginable >= 0 && a.maintenanceMargin >= 0
    && a.pendingOut <= 0
  }

  ghost predicate SoundMarket(r: Request) {
    var q := r.quote;
    && r.marketNormal && !r.halted && r.calculatedAt <= r.cutoff && r.tradable && r.assetActive
    && -1000 < r.calculatedAt - q.at < 1000 * (r.policy.maxQuoteAgeMs + 1)
    && -1000 < r.calculatedAt - q.tradeAt < 1000 * (r.policy.maxTradeAgeMs + 1)
    && 0 < q.bid <= q.ask && q.last > 0 && q.bidSize > 0 && q.askSize > 0 && q.nbboConfirmed
  }

  /** Both the broker's and the session's own profit are within the tolerance of each other and above the limits. */
  ghost predicate SoundSession(r: Request) {
    var s, broker, own := r.session, r.account.equity - r.session.startEquity - r.session.cashFlow,
                          r.session.realized + r.session.unrealized;
    && s.reconciled && s.streamsHealthy && s.databaseHealthy && !s.killSwitch
    && -r.policy.pnlTolerance <= broker - own <= r.policy.pnlTolerance
    && broker > -HardLossLimit(r) && own > -HardLossLimit(r) && broker > -SoftLossLimit(r) && own > -SoftLossLimit(r)
    && s.closedLosses < r.policy.maxLosses && s.completedEntries < r.policy.maxNewEntries
    && r.ticker !in s.traded && s.openCount + s.reservedCount < r.policy.maxConcurrent
  }

  /** The entry is the planned one rounded up to the tick; the stop lies one average range below the reference price
      and the target two above it, both rounded down. */
  ghost predicate Priced(r: Request, entry: int, stop: int, target: int)
    requires r.tick > 0
  {
    && entry % r.tick == 0 && entry - r.tick < r.plannedEntry <= entry
    && stop % r.tick == 0 && stop <= r.referencePrice - r.atr < stop + r.tick
    && target % r.tick == 0 && target <= r.referencePrice + 2 * r.atr < target + r.tick
  }

  lemma OneMultiple(a: int, b: int, tick: int)
    requires tick > 0 && a % tick == 0 && b % tick == 0 && -tick < a - b < tick
    ensures a == b
  {
    var x, y := a / tick, b / tick;
    assert a == x * tick && b == y * tick;
    assert (x + 1) * tick == x * tick + tick && (y + 1) * tick == y * tick + tick;
    if x < y {
      MulMonotone(x + 1, y, tick);
    } else if y < x {
      MulMonotone(y + 1, x, tick);
    }
  }

  lemma MultipleOf(n: int, tick: int)
    requires tick > 0
    ensures (n * tick) % tick == 0
  {
    FloorDivision(n * tick, tick, n);
    FloorDivision(n * tick, tick, n + 1);
    assert (n + 1) * tick == n * tick + tick;
  }

  lemma IncrementsAreMultiples(value: int, increment: int)
    requires increment > 0
    ensures RoundDownToIncrement(value, increment) % increment == 0 && RoundUpToIncrement(value, increment) % increment == 0
  {
    MultipleOf(value / increment, increment);
    MultipleOf(-((-value) / increment), increment);
  }

  lemma PricesArePriced(r: Request)
    requires r.tick > 0
    ensures Priced(r, Entry(r), StopPrice(r), TargetPrice(r))
  {
    hide RoundDownToIncrement, RoundUpToIncrement;
    IncrementsBracket(r.plannedEntry, r.tick);
    IncrementsBracket(r.referencePrice - r.atr, r.tick);
    IncrementsBracket(r.referencePrice + 2 * r.atr, r.tick);
    IncrementsAreMultiples(r.plannedEntry, r.tick);
    IncrementsAreMultiples(r.referencePrice - r.atr, r.tick);
    IncrementsAreMultiples(r.referencePrice + 2 * r.atr, r.tick);
  }

  lemma PricedExactly(r: Request, entry: int, stop: int, target: int)
    requires r.tick > 0
    ensures Priced(r, entry, stop, target) <==> entry == Entry(r) && stop == StopPrice(r) && target == TargetPrice(r)
  {
    hide Entry, StopPrice, TargetPrice;
    PricesArePriced(r);
    if Priced(r, entry, stop, target) {
      OneMultiple(entry, Entry(r), r.tick);
      OneMultiple(stop, StopPrice(r), r.tick);
      OneMultiple(target, TargetPrice(r), r.tick);
    }
  }

  /** `a / b` is at most the rate, and where `b` is not positive the rate is 999 at least. */
  ghost predicate RatioWithin(a: int, b: int, rate: Rate) {
    (b > 0 ==> a * rate.den <= rate.num * b) && (b <= 0 ==> rate.num >= 999 * rate.den)
  }

  /** The prices are ordered and marketable, the day's low holds, and spread and drift are within their limits. */
  ghost predicate SoundPrices(r: Request, entry: int, stop: int, target: int) {
    && 0 < stop < entry < target && entry >= r.quote.ask
    && stop <= r.premarketLow && r.quote.last >= r.premarketLow && r.quote.bid >= r.premarketLow
    && RatioWithin(2 * (r.quote.ask - r.quote.bid), r.quote.bid + r.quote.ask, r.policy.maxSpread)
    && RatioWithin(r.quote.ask - r.quote.bid, r.atr, r.policy.maxSpreadAtr)
    && var drift := if entry < r.referencePrice then r.referencePrice - entry else entry - r.referencePrice;
       RatioWithin(drift, r.referencePrice, r.policy.maxDrift) && RatioWithin(drift, r.atr, r.policy.maxDriftAtr)
  }

  /** What is left of the daily loss: whole cents that fit under the hard limit together with the open risk, with and
      without the broker's profit, and with and without the session's own. */
  lemma RemainingHardLossExactly(r: Request, c: int)
    ensures RemainingHardLoss(r) % CENT == 0
    ensures c * CENT <= RemainingHardLoss(r) <==>
            && r.session.openRisk + c * CENT <= HardLossLimit(r)
            && r.session.openRisk + c * CENT <= HardLossLimit(r) + r.account.equity - r.session.startEquity - r.session.cashFlow
            && r.session.openRisk + c * CENT <= HardLossLimit(r) + r.session.realized + r.session.unrealized
  {
    FloorToCentIsGreatest(HardLossLimit(r) - CurrentLoss(r) - r.session.openRisk, 1, c);
  }

  /** Without a loss on either account the whole limit is left, less the open risk, to the cent. */
  lemma NoLossLeavesTheLimit(r: Request)
    requires r.account.equity - r.session.startEquity - r.session.cashFlow >= 0
    requires r.session.realized + r.session.unrealized >= 0
    ensures GreatestCents(RemainingHardLoss(r), HardLossLimit(r) - r.session.openRisk, 1)
  {
    FloorIsGreatest(HardLossLimit(r) - CurrentLoss(r) - r.session.openRisk, 1);
  }

  /** The usable buying power: whole cents that fit, with the reserved notional, into both buying powers less the
      reserve. */
  lemma UsableBuyingPowerExactly(r: Request, c: int)
    requires r.policy.buyingPowerReserve.num < r.policy.buyingPowerReserve.den
    ensures UsableBuyingPower(r) % CENT == 0
    ensures
      var den, num := r.policy.buyingPowerReserve.den, r.policy.buyingPowerReserve.num;
      c * CENT <= UsableBuyingPower(r) <==>
      && c * CENT * den + r.session.reservedNotional * den <= r.account.nonMarginable * (den - num)
      && c * CENT * den + r.session.reservedNotional * den <= r.account.buyingPower * (den - num)
  {
    var den, num := r.policy.buyingPowerReserve.den, r.policy.buyingPowerReserve.num;
    var a, b := r.account.nonMarginable, r.account.buyingPower;
    FloorToCentIsGreatest(Min(a, b) * (den - num) - r.session.reservedNotional * den, den, c);
    MulMonotone(Min(a, b), a, den - num);
    MulMonotone(Min(a, b), b, den - num);
  }

  /** A cent of every capacity is left. */
  ghost predicate HasRoom(r: Request) {
    var s, den, num := r.session, r.policy.buyingPowerReserve.den, r.policy.buyingPowerReserve.num;
    && s.openRisk + CENT <= OpenRiskCap(r) && s.openRisk + CENT <= HardLossLimit(r)
    && s.openRisk + CENT <= HardLossLimit(r) + r.account.equity - s.startEquity - s.cashFlow
    && s.openRisk + CENT <= HardLossLimit(r) + s.realized + s.unrealized
    && s.longValue + s.reservedNotional + CENT <= GrossCap(r)
    && CENT * den + s.reservedNotional * den <= r.account.nonMarginable * (den - num)
    && CENT * den + s.reservedNotional * den <= r.account.buyingPower * (den - num)
  }

  lemma PositiveCents(cents: int)
    requires cents % CENT == 0
    ensures cents > 0 <==> 1 * CENT <= cents
  {
  }

  lemma RoomExactly(r: Request)
    requires Valid(r)
    ensures (forall c :: !CapacityFails(r, c)) <==> HasRoom(r)
  {
    RemainingHardLossExactly(r, 1);
    UsableBuyingPowerExactly(r, 1);
    FloorToCentIsGreatest(OpenRiskCap(r) - r.session.openRisk, 1, 1);
    FloorToCentIsGreatest(GrossCap(r) - (r.session.longValue + r.session.reservedNotional), 1, 1);
    PositiveCents(RemainingHardLoss(r));
    PositiveCents(UsableBuyingPower(r));
    PositiveCents(RemainingOpenRisk(r));
    PositiveCents(RemainingGross(r));
    assert HasRoom(r) <==> !CapacityFails(r, NoBuyingPower) && !CapacityFails(r, NoOpenRisk)
                           && !CapacityFails(r, NoDailyLoss) && !CapacityFails(r, NoGrossExposure);
  }

  ghost predicate PositiveAgeLimits(p: Policy) {
    p.maxAccountAgeMs >= 0 && p.maxQuoteAgeMs >= 0 && p.maxTradeAgeMs >= 0
  }

  lemma AccountExactly(r: Request)
    requires PositiveAgeLimits(r.policy)
    ensures (forall c :: !AccountFails(r, c)) <==> SoundAccount(r)
  {
    StaleExactly(r.calculatedAt, r.account.at, r.policy.maxAccountAgeMs);
    assert SoundAccount(r) <==>
           !AccountFails(r, AccountNotActive) && !AccountFails(r, AccountBlocked) && !AccountFails(r, TradingBlocked)
           && !AccountFails(r, SuspendedByUser) && !AccountFails(r, AccountStale) && !AccountFails(r, InvalidAccountValue)
           && !AccountFails(r, PendingTransferOut);
  }

  lemma MarketExactly(r: Request)
    requires PositiveAgeLimits(r.policy)
    ensures (forall c :: !MarketFails(r, c)) <==> SoundMarket(r)
  {
    StaleExactly(r.calculatedAt, r.quote.at, r.policy.maxQuoteAgeMs);
    StaleExactly(r.calculatedAt, r.quote.tradeAt, r.policy.maxTradeAgeMs);
    assert SoundMarket(r) <==>
           !MarketFails(r, MarketNotNormal) && !MarketFails(r, SymbolHalted) && !MarketFails(r, CutoffExceeded)
           && !MarketFails(r, QuoteStale) && !MarketFails(r, TradeStale) && !MarketFails(r, InvalidQuote)
           && !MarketFails(r, NbboNotConfirmed) && !MarketFails(r, InvalidLiquidity);
  }

  lemma SessionExactly(r: Request)
    ensures (forall c :: !HealthFails(r, c) && !LossFails(r, c) && !SessionFails(r, c)) <==> SoundSession(r)
  {
    hide HardLossLimit, SoftLossLimit;
    LossExactly(r);
    assert (forall c :: !HealthFails(r, c)) <==>
           !HealthFails(r, Unreconciled) && !HealthFails(r, StreamFailure) && !HealthFails(r, DatabaseFailure)
           && !HealthFails(r, KillSwitchActive);
    assert (forall c :: !SessionFails(r, c)) <==>
           !SessionFails(r, MaxLosses) && !SessionFails(r, MaxNewEntries) && !SessionFails(r, DuplicateTicker)
           && !SessionFails(r, MaxConcurrent);
    hide LossFails;
  }

  lemma LossExactly(r: Request)
    ensures
      var broker, own := r.account.equity - r.session.startEquity - r.session.cashFlow, r.session.realized + r.session.unrealized;
      (forall c :: !LossFails(r, c)) <==>
      && -r.policy.pnlTolerance <= broker - own <= r.policy.pnlTolerance
      && broker > -HardLossLimit(r) && own > -HardLossLimit(r) && broker > -SoftLossLimit(r) && own > -SoftLossLimit(r)
  {
    hide HardLossLimit, SoftLossLimit;
    assert (forall c :: !LossFails(r, c)) <==>
           !LossFails(r, PnlMismatch) && !LossFails(r, HardLoss) && !LossFails(r, SoftLoss);
  }

  lemma HalfEvenNonnegative(n: int, d: int)
    requires d > 0 && n >= 0
    ensures HalfEven(n, d) >= 0
  {
    FloorDivision(n, d, 0);
  }

  lemma PricesExactly(r: Request)
    requires Valid(r) && SoundMarket(r)
    ensures (forall c :: !PriceFails(r, c)) <==> SoundPrices(r, Entry(r), StopPrice(r), TargetPrice(r))
  {
    hide Entry, StopPrice, TargetPrice, HalfEven;
    MulMonotone(0, r.policy.slippageSpread.num, Spread(r));
    HalfEvenNonnegative(r.policy.slippageSpread.num * Spread(r), r.policy.slippageSpread.den);
    assert ExecutionBuffer(r) >= 0;
    assert SoundPrices(r, Entry(r), StopPrice(r), TargetPrice(r)) <==>
           && !PriceFails(r, NotMarketable) && !PriceFails(r, InvalidGeometry) && !PriceFails(r, StopAboveLow)
           && !PriceFails(r, LowBroken) && !PriceFails(r, SpreadTooWide) && !PriceFails(r, DriftTooLarge);
  }

  /** A request is admitted exactly when its account, market and session are sound, its prices are, and there is room. */
  lemma AdmittedExactly(r: Request, entry: int, stop: int, target: int)
    requires Valid(r) && PositiveAgeLimits(r.policy) && Priced(r, entry, stop, target)
    ensures Admitted(r) <==>
            SoundAccount(r) && SoundMarket(r) && SoundSession(r) && SoundPrices(r, entry, stop, target) && HasRoom(r)
  {
    PricedExactly(r, entry, stop, target);
    AccountExactly(r);
    MarketExactly(r);
    SessionExactly(r);
    RoomExactly(r);
    if SoundMarket(r) {
      PricesExactly(r);
    }
    hide AccountFails, MarketFails, HealthFails, LossFails, SessionFails, CapacityFails, PriceFails, SoundAccount, SoundMarket,
      SoundSession, SoundPrices, HasRoom, Entry, StopPrice, TargetPrice;
    if Admitted(r) {
      forall c ensures !AccountFails(r, c) && !MarketFails(r, c) && !HealthFails(r, c) && !LossFails(r, c)
                       && !SessionFails(r, c) && !CapacityFails(r, c) && !PriceFails(r, c) {
        assert !Fails(r, c);
      }
    }
  }

  /** The least multiplier of the flags, by flag. */
  lemma {:induction false} MultiplierByFlag(flags: seq<Flag>)
    ensures Multiplier(flags) == if Parabolic in flags || LowFloat in flags then 50
                                 else if SpikyVolume in flags then 60
                                 else if SecondarySource in flags then 75
                                 else 100
  {
    if flags != [] {
      MultiplierByFlag(flags[1..]);
      assert flags == [flags[0]] + flags[1..];
    }
  }

  /** The trade's budget: its share of the reference equity to the cent, cut by the multiplier to the cent again. */
  lemma BudgetIs(r: Request)
    ensures
      var share := Share(r, r.policy.riskPerTrade);
      && GreatestCents(share, r.session.referenceEquity * r.policy.riskPerTrade.num, r.policy.riskPerTrade.den)
      && GreatestCents(AdjustedBudget(r), share * Multiplier(r.flags), 100)
  {
    FloorIsGreatest(r.session.referenceEquity * r.policy.riskPerTrade.num, r.policy.riskPerTrade.den);
    FloorIsGreatest(Share(r, r.policy.riskPerTrade) * Multiplier(r.flags), 100);
  }

  /** `x` is at least `n / d`, to the nearest quantum. */
  ghost predicate Reaches(x: int, n: int, d: int) {
    2 * (x * d - n) >= -d
  }

  /** `x` is `n / d` to the nearest quantum. */
  ghost predicate Nearest(x: int, n: int, d: int) {
    Reaches(x, n, d) && 2 * (x * d - n) <= d
  }

  lemma LargerReaches(x: int, y: int, n: int, d: int)
    requires d > 0 && Reaches(x, n, d) && x <= y
    ensures Reaches(y, n, d)
  {
    MulMonotone(x, y, d);
  }

  /** The execution buffer is the larger of a share of the average range and a share of the spread. */
  lemma BufferIs(r: Request)
    ensures
      var n, m := r.policy.slippageAtr.num * r.atr, r.policy.slippageSpread.num * (r.quote.ask - r.quote.bid);
      var d, e := r.policy.slippageAtr.den, r.policy.slippageSpread.den;
      && Reaches(ExecutionBuffer(r), n, d) && Reaches(ExecutionBuffer(r), m, e)
      && (Nearest(ExecutionBuffer(r), n, d) || Nearest(ExecutionBuffer(r), m, e))
  {
    hide HalfEven;
    var n, m := r.policy.slippageAtr.num * r.atr, r.policy.slippageSpread.num * Spread(r);
    var d, e := r.policy.slippageAtr.den, r.policy.slippageSpread.den;
    HalfEvenIsNearest(n, d);
    HalfEvenIsNearest(m, e);
    LargerReaches(HalfEven(n, d), ExecutionBuffer(r), n, d);
    LargerReaches(HalfEven(m, e), ExecutionBuffer(r), m, e);
  }

  /** What a grant reserves: per share the entry as notional, and the distance to the stop with the buffer as risk. */
  lemma GrantReserves(r: Request, entry: int, stop: int, target: int)
    requires Valid(r) && Size(r).Grant? && Priced(r, entry, stop, target)
    ensures Size(r).quantity >= 1 && Size(r).reservedNotional == entry * Size(r).quantity
    ensures Size(r).reservedRisk == (entry - stop + ExecutionBuffer(r)) * Size(r).quantity
    ensures 0 < stop < entry < target
  {
    PricedExactly(r, entry, stop, target);
    hide Priced, Entry, StopPrice, TargetPrice, ExecutionBuffer, FinalQuantity, Binding;
    assert !Fails(r, InvalidGeometry);
    assert ModeledRisk(r) == entry - stop + ExecutionBuffer(r);
  }

  /** A rejection asks for the kill switch exactly when it is on, or either account has lost the hard limit. */
  lemma KillSwitchAskedExactly(r: Request)
    requires Valid(r) && Size(r).Deny?
    ensures Size(r).killSwitch <==>
            || r.session.killSwitch
            || r.account.equity - r.session.startEquity - r.session.cashFlow <= -HardLossLimit(r)
            || r.session.realized + r.session.unrealized <= -HardLossLimit(r)
  {
    assert Fails(r, KillSwitchActive) <==> r.session.killSwitch;
    assert Fails(r, HardLoss) <==> RiskPnl(r) <= -HardLossLimit(r);
    if Admitted(r) {
      assert !Fails(r, KillSwitchActive) && !Fails(r, HardLoss);
    }
  }
}
