/** Deterministic replay of scores, risk flags and hard gates
    (daybreak_contracts/logic/replay.py). */
module Replay {
  import opened Results

  datatype SourceType = Primary | Secondary | Unconfirmed
  datatype VolumeProfile = Clean | Spiky
  datatype BorrowStatus = Easy | HardToBorrow | UnknownBorrow
  datatype ChartStructure = BlueSky | CleanShortTerm | ModerateRoom | Capped
  datatype Disqualifier = PaidPromotion | ReverseSplitOnly | UnconfirmedRumor | NonOperatingPromotion | OtherCatalyst
  datatype Bucket = MajorConcrete | MaterialPartiallyQuantified | CredibleUnquantified | WeakOrPreliminary | NoDriver
  datatype ZeroReason = DisqualifierFlag | UnconfirmedSource | StaleCatalyst | NoValidDriver
  datatype Grade = APlus | A | B | C
  datatype RiskFlag = Parabolic | HardBorrow | UnknownBorrowFlag | LowFloat | SpikyVolume | SecondarySource
  datatype MarketStatus = Normal | LimitUpDown | CircuitBreaker
  datatype RunStatus = ApprovedRun | NoSetups | BlockedMarket | StalePayload | SchemaFailure

  datatype ReasonCode =
    | Halted
    | CatalystScoreTooLow
    | UncorroboratedCatalyst
    | GapTooSmall
    | PremarketVolumeTooLow
    | RvolTooLow
    | ResistanceTooClose
    | CappedChart

  /** An observed value before it is rendered as text. */
  datatype Observed = Flag(flag: bool) | Whole(whole: int) | Number(number: real) | Chart(chart: ChartStructure)

  /** Field name, condition and explanation are fixed texts of the code. */
  datatype ReasonObject = ReasonObject(code: ReasonCode, observed: Observed)

  datatype TickerInput = TickerInput(
    ticker: string,
    halted: bool,
    sourceType: SourceType,
    ageHours: real,
    corroborated: bool,
    disqualifiers: seq<Disqualifier>,
    gapPct: real,
    premarketVolume: nat,
    rvol: real,
    floatShares: nat,
    volumeProfile: VolumeProfile,
    borrowStatus: BorrowStatus,
    resistanceAtr: real,
    vwapAtr: real,
    structure: ChartStructure,
    currentPrice: real,
    atr: real,
    premarketLow: real)

  datatype Payload = Payload(
    freshnessHours: real,
    marketStatus: MarketStatus,
    ageSeconds: nat,
    tickers: seq<TickerInput>)

  datatype Score = Score(
    sourceQuality: int,
    bucket: Bucket,
    magnitudePoints: int,
    zeroOverride: bool,
    zeroReason: Option<ZeroReason>,
    raw: int,
    catalystPoints: int,
    volumePoints: int,
    grade: Grade,
    basePoints: int,
    technicalPoints: int,
    parabolic: bool)

  datatype Technical = Technical(grade: Grade, basePoints: int, points: int, parabolic: bool)

  function MagnitudePoints(bucket: Bucket): int {
    match bucket
    case MajorConcrete => 4
    case MaterialPartiallyQuantified => 3
    case CredibleUnquantified => 2
    case WeakOrPreliminary => 1
    case NoDriver => 0
  }

  function SourceQuality(entry: TickerInput): int {
    match entry.sourceType
    case Primary => 6
    case Secondary => if entry.corroborated then 4 else 2
    case Unconfirmed => 0
  }

  function ExpectedZeroReason(payload: Payload, entry: TickerInput, bucket: Bucket): Option<ZeroReason> {
    if entry.disqualifiers != [] then Some(DisqualifierFlag)
    else if entry.sourceType == Unconfirmed then Some(UnconfirmedSource)
    else if entry.ageHours > payload.freshnessHours then Some(StaleCatalyst)
    else if bucket == NoDriver then Some(NoValidDriver)
    else None
  }

  function VolumePoints(entry: TickerInput): int {
    if entry.volumeProfile == Spiky then 15
    else if entry.rvol < 5.0 then 0
    else if entry.rvol <= 10.0 then 25
    else 35
  }

  function ExpectedTechnical(entry: TickerInput): Technical {
    if entry.resistanceAtr < 1.0 || entry.structure == Capped then Technical(C, 0, 0, false)
    else
      var (grade, base) := match entry.structure
        case BlueSky => (APlus, 25)
        case CleanShortTerm => (A, 22)
        case _ => (B, 13);
      var adjusted := entry.vwapAtr > 3.0;
      Technical(grade, base, if adjusted then base - 6 else base, adjusted)
  }

  function ExpectedScore(payload: Payload, entry: TickerInput, bucket: Bucket): Score {
    var zero := ExpectedZeroReason(payload, entry, bucket);
    var raw := if zero == None then SourceQuality(entry) + MagnitudePoints(bucket) else 0;
    var technical := ExpectedTechnical(entry);
    Score(
      SourceQuality(entry), bucket, MagnitudePoints(bucket),
      zero != None, zero, raw, raw * 4,
      VolumePoints(entry),
      technical.grade, technical.basePoints, technical.points, technical.parabolic)
  }

  function Conviction(score: Score): int {
    score.catalystPoints + score.volumePoints + score.technicalPoints
  }

  /** When a risk flag must be reported. */
  predicate FlagHolds(entry: TickerInput, flag: RiskFlag) {
    match flag
    case Parabolic => ExpectedTechnical(entry).parabolic
    case HardBorrow => entry.borrowStatus == HardToBorrow
    case UnknownBorrowFlag => entry.borrowStatus == UnknownBorrow
    case LowFloat => entry.floatShares < 50_000_000
    case SpikyVolume => entry.volumeProfile == Spiky
    case SecondarySource => entry.sourceType == Secondary
  }

  function FlagStep(entry: TickerInput, flag: RiskFlag): seq<RiskFlag> {
    if FlagHolds(entry, flag) then [flag] else []
  }

  /** The flags that hold, in canonical order. */
  function RiskFlags(entry: TickerInput): seq<RiskFlag> {
    FlagStep(entry, Parabolic) + FlagStep(entry, HardBorrow) + FlagStep(entry, UnknownBorrowFlag)
    + FlagStep(entry, LowFloat) + FlagStep(entry, SpikyVolume) + FlagStep(entry, SecondarySource)
  }

  /** The position of a flag in the canonical order. */
  function FlagRank(flag: RiskFlag): nat {
    match flag
    case Parabolic => 0
    case HardBorrow => 1
    case UnknownBorrowFlag => 2
    case LowFloat => 3
    case SpikyVolume => 4
    case SecondarySource => 5
  }

  ghost predicate Canonical(flags: seq<RiskFlag>) {
    forall i, j :: 0 <= i < j < |flags| ==> FlagRank(flags[i]) < FlagRank(flags[j])
  }

  /** Two canonical lists with the same members are the same list. */
  lemma {:induction false} CanonicalIsUnique(a: seq<RiskFlag>, b: seq<RiskFlag>)
    requires Canonical(a) && Canonical(b)
    requires forall f :: f in a <==> f in b
    ensures a == b
  {
    if a == [] {
      assert forall k :: 0 <= k < |b| ==> b[k] in b;
    } else {
      assert a[0] in b;
      assert b[0] in a;
      assert FlagRank(a[0]) == FlagRank(b[0]);
      forall f ensures f in a[1..] <==> f in b[1..] {
        assert f in a <==> f == a[0] || f in a[1..];
        assert f in b <==> f == b[0] || f in b[1..];
      }
      CanonicalIsUnique(a[1..], b[1..]);
    }
  }

  /** The first `n` flags of the canonical order, as far as they hold. */
  ghost predicate ListsFirst(entry: TickerInput, flags: seq<RiskFlag>, n: nat) {
    && Canonical(flags)
    && forall f :: f in flags <==> FlagHolds(entry, f) && FlagRank(f) < n
  }

  lemma FlagStepLists(entry: TickerInput, flags: seq<RiskFlag>, flag: RiskFlag)
    requires ListsFirst(entry, flags, FlagRank(flag))
    ensures ListsFirst(entry, flags + FlagStep(entry, flag), FlagRank(flag) + 1)
  {
    forall f ensures f in flags + FlagStep(entry, flag) <==> FlagHolds(entry, f) && FlagRank(f) < FlagRank(flag) + 1 {
      assert f in flags <==> FlagHolds(entry, f) && FlagRank(f) < FlagRank(flag);
      assert FlagRank(f) == FlagRank(flag) <==> f == flag;
    }
  }

  lemma RiskFlagsList(entry: TickerInput)
    ensures ListsFirst(entry, RiskFlags(entry), 6)
  {
    var flags := FlagStep(entry, Parabolic);
    assert [] + flags == flags;
    FlagStepLists(entry, [], Parabolic);
    FlagStepLists(entry, flags, HardBorrow);
    flags := flags + FlagStep(entry, HardBorrow);
    FlagStepLists(entry, flags, UnknownBorrowFlag);
    flags := flags + FlagStep(entry, UnknownBorrowFlag);
    FlagStepLists(entry, flags, LowFloat);
    flags := flags + FlagStep(entry, LowFloat);
    FlagStepLists(entry, flags, SpikyVolume);
    flags := flags + FlagStep(entry, SpikyVolume);
    FlagStepLists(entry, flags, SecondarySource);
  }

  /** The risk flags are the one list that holds the flags in force, each once, in canonical order. */
  lemma RiskFlagsAreExactly(entry: TickerInput, flags: seq<RiskFlag>)
    ensures flags == RiskFlags(entry) <==> Canonical(flags) && forall f :: f in flags <==> FlagHolds(entry, f)
  {
    hide RiskFlags, FlagHolds, Canonical;
    RiskFlagsList(entry);
    if Canonical(flags) && forall f :: f in flags <==> FlagHolds(entry, f) {
      CanonicalIsUnique(flags, RiskFlags(entry));
    }
  }

  method ExpectedRiskFlags(entry: TickerInput, technical: Technical) returns (flags: seq<RiskFlag>)
    requires technical == ExpectedTechnical(entry)
    ensures Canonical(flags)
    ensures forall f :: f in flags <==> FlagHolds(entry, f)
    ensures flags == RiskFlags(entry)
  {
    RiskFlagsAreExactly(entry, RiskFlags(entry));
    flags := [];
    if technical.parabolic { flags := flags + [Parabolic]; }
    ghost var want := FlagStep(entry, Parabolic);
    assert flags == want;
    if entry.borrowStatus == HardToBorrow { flags := flags + [HardBorrow]; }
    want := want + FlagStep(entry, HardBorrow);
    assert flags == want;
    if entry.borrowStatus == UnknownBorrow { flags := flags + [UnknownBorrowFlag]; }
    want := want + FlagStep(entry, UnknownBorrowFlag);
    assert flags == want;
    if entry.floatShares < 50_000_000 { flags := flags + [LowFloat]; }
    want := want + FlagStep(entry, LowFloat);
    assert flags == want;
    if entry.volumeProfile == Spiky { flags := flags + [SpikyVolume]; }
    want := want + FlagStep(entry, SpikyVolume);
    assert flags == want;
    if entry.sourceType == Secondary { flags := flags + [SecondarySource]; }
    assert flags == want + FlagStep(entry, SecondarySource);
  }

  // ---------- hard gates ----------

  predicate GateFails(entry: TickerInput, raw: int, code: ReasonCode) {
    match code
    case Halted => entry.halted
    case CatalystScoreTooLow => raw < 7
    case UncorroboratedCatalyst => !entry.corroborated && raw < 9
    case GapTooSmall => entry.gapPct < 4.0
    case PremarketVolumeTooLow => entry.premarketVolume < 500_000
    case RvolTooLow => entry.rvol < 5.0
    case ResistanceTooClose => entry.resistanceAtr < 1.0
    case CappedChart => entry.structure == Capped
  }

  function GateReason(entry: TickerInput, raw: int, code: ReasonCode): ReasonObject {
    ReasonObject(code,
      match code
      case Halted => Flag(entry.halted)
      case CatalystScoreTooLow => Whole(raw)
      case UncorroboratedCatalyst => Flag(entry.corroborated)
      case GapTooSmall => Number(entry.gapPct)
      case PremarketVolumeTooLow => Whole(entry.premarketVolume)
      case RvolTooLow => Number(entry.rvol)
      case ResistanceTooClose => Number(entry.resistanceAtr)
      case CappedChart => Chart(entry.structure))
  }

  function GateStep(entry: TickerInput, raw: int, code: ReasonCode): seq<ReasonObject> {
    if GateFails(entry, raw, code) then [GateReason(entry, raw, code)] else []
  }

  const GATE_COUNT := 8

  /** The gates in the order they are applied. */
  function GateAt(k: nat): ReasonCode
    requires k < GATE_COUNT
  {
    match k
    case 0 => Halted
    case 1 => CatalystScoreTooLow
    case 2 => UncorroboratedCatalyst
    case 3 => GapTooSmall
    case 4 => PremarketVolumeTooLow
    case 5 => RvolTooLow
    case 6 => ResistanceTooClose
    case _ => CappedChart
  }

  /** The failures among the first `k` gates, in gate order. */
  function FailuresAmong(entry: TickerInput, raw: int, k: nat): seq<ReasonObject>
    requires k <= GATE_COUNT
    decreases k, raw
  {
    if k == 0 then [] else FailuresAmong(entry, raw, k - 1) + GateStep(entry, raw, GateAt(k - 1))
  }

  function FailedGates(entry: TickerInput, raw: int): seq<ReasonObject> {
    FailuresAmong(entry, raw, GATE_COUNT)
  }

  /** Appends one failure when its gate fails. */
  method Add(failures: seq<ReasonObject>, fails: bool, code: ReasonCode, observed: Observed)
    returns (extended: seq<ReasonObject>)
    ensures extended == failures + if fails then [ReasonObject(code, observed)] else []
  {
    extended := failures;
    if fails {
      extended := extended + [ReasonObject(code, observed)];
    }
  }

  method ExpectedFailedGates(entry: TickerInput, raw: int) returns (failures: seq<ReasonObject>)
    ensures failures == FailedGates(entry, raw)
  {
    hide FailuresAmong;
    failures := [];
    NoFailures(entry, raw);
    FailuresNext(entry, raw, 0);
    failures := Add(failures, entry.halted, Halted, Flag(entry.halted));
    FailuresNext(entry, raw, 1);
    failures := Add(failures, raw < 7, CatalystScoreTooLow, Whole(raw));
    FailuresNext(entry, raw, 2);
    failures := Add(failures, !entry.corroborated && raw < 9, UncorroboratedCatalyst, Flag(entry.corroborated));
    FailuresNext(entry, raw, 3);
    failures := Add(failures, entry.gapPct < 4.0, GapTooSmall, Number(entry.gapPct));
    FailuresNext(entry, raw, 4);
    failures := Add(failures, entry.premarketVolume < 500_000, PremarketVolumeTooLow, Whole(entry.premarketVolume));
    FailuresNext(entry, raw, 5);
    failures := Add(failures, entry.rvol < 5.0, RvolTooLow, Number(entry.rvol));
    FailuresNext(entry, raw, 6);
    failures := Add(failures, entry.resistanceAtr < 1.0, ResistanceTooClose, Number(entry.resistanceAtr));
    FailuresNext(entry, raw, 7);
    failures := Add(failures, entry.structure == Capped, CappedChart, Chart(entry.structure));
  }

  lemma NoFailures(entry: TickerInput, raw: int)
    ensures FailuresAmong(entry, raw, 0) == []
  {
  }

  lemma FailuresNext(entry: TickerInput, raw: int, k: nat)
    requires k < GATE_COUNT
    ensures FailuresAmong(entry, raw, k + 1) == FailuresAmong(entry, raw, k) + GateStep(entry, raw, GateAt(k))
  {
  }

  /** Every failing gate is reported, with its own observation, and nothing else is. */
  lemma {:induction false} FailuresAreExactly(entry: TickerInput, raw: int, k: nat, r: ReasonObject)
    requires k <= GATE_COUNT
    ensures r in FailuresAmong(entry, raw, k) <==>
            && GateFails(entry, raw, r.code) && r == GateReason(entry, raw, r.code)
            && exists j: nat :: j < k && GateAt(j) == r.code
  {
    if k > 0 {
      FailuresAreExactly(entry, raw, k - 1, r);
    }
  }

  lemma GatesAreExactly(entry: TickerInput, raw: int, r: ReasonObject)
    ensures r in FailedGates(entry, raw) <==>
            GateFails(entry, raw, r.code) && r == GateReason(entry, raw, r.code)
  {
    FailuresAreExactly(entry, raw, GATE_COUNT, r);
    assert GateAt(0) == Halted && GateAt(1) == CatalystScoreTooLow && GateAt(2) == UncorroboratedCatalyst;
    assert GateAt(3) == GapTooSmall && GateAt(4) == PremarketVolumeTooLow && GateAt(5) == RvolTooLow;
    assert GateAt(6) == ResistanceTooClose && GateAt(7) == CappedChart;
  }

  predicate PassesGates(entry: TickerInput, raw: int) {
    FailedGates(entry, raw) == []
  }

  lemma PassingMeansNoGateFails(entry: TickerInput, raw: int)
    ensures PassesGates(entry, raw) <==> forall c: ReasonCode :: !GateFails(entry, raw, c)
  {
    forall c: ReasonCode | GateFails(entry, raw, c) ensures FailedGates(entry, raw) != [] {
      GatesAreExactly(entry, raw, GateReason(entry, raw, c));
    }
    if FailedGates(entry, raw) != [] {
      GatesAreExactly(entry, raw, FailedGates(entry, raw)[0]);
    }
  }

  /** A ticker that passes every gate was not zeroed, is not graded C, and scores at least 50 of 100. */
  lemma PassingScoreFloor(payload: Payload, entry: TickerInput, bucket: Bucket)
    ensures
      var score := ExpectedScore(payload, entry, bucket);
      && 0 <= Conviction(score) <= 100
      && (PassesGates(entry, score.raw) ==>
          score.zeroReason == None && score.grade != C && Conviction(score) >= 50)
  {
    var score := ExpectedScore(payload, entry, bucket);
    PassingMeansNoGateFails(entry, score.raw);
    if PassesGates(entry, score.raw) {
      assert !GateFails(entry, score.raw, CatalystScoreTooLow);
      assert !GateFails(entry, score.raw, RvolTooLow);
      assert !GateFails(entry, score.raw, ResistanceTooClose);
      assert !GateFails(entry, score.raw, CappedChart);
    }
  }

  /** An uncorroborated secondary source can never pass, whatever the bucket. */
  lemma UncorroboratedSecondaryNeverPasses(payload: Payload, entry: TickerInput, bucket: Bucket)
    requires entry.sourceType == Secondary && !entry.corroborated
    ensures !PassesGates(entry, ExpectedScore(payload, entry, bucket).raw)
  {
    var raw := ExpectedScore(payload, entry, bucket).raw;
    PassingMeansNoGateFails(entry, raw);
    assert GateFails(entry, raw, CatalystScoreTooLow);
  }

  // ---------- the rules on the fields of the input ----------

  /** The catalyst counts: nothing disqualifies it, its source is known, it is fresh, and there is a driver. */
  predicate Credible(payload: Payload, entry: TickerInput, bucket: Bucket) {
    && entry.disqualifiers == [] && entry.sourceType != Unconfirmed
    && entry.ageHours <= payload.freshnessHours && bucket != NoDriver
  }

  /** A primary source needs corroboration or a quantified catalyst, a secondary one both. */
  predicate Supported(entry: TickerInput, bucket: Bucket) {
    var quantified := bucket in {MajorConcrete, MaterialPartiallyQuantified};
    match entry.sourceType
    case Primary => entry.corroborated || quantified
    case Secondary => entry.corroborated && quantified
    case Unconfirmed => false
  }

  /** A ticker passes all gates exactly when its catalyst counts and is supported, it is not halted, and gap, volume,
      relative volume, room and chart are good enough. */
  lemma PassesExactly(payload: Payload, entry: TickerInput, bucket: Bucket)
    ensures PassesGates(entry, ExpectedScore(payload, entry, bucket).raw) <==>
            && Credible(payload, entry, bucket) && Supported(entry, bucket) && !entry.halted
            && entry.gapPct >= 4.0 && entry.premarketVolume >= 500_000 && entry.rvol >= 5.0
            && entry.resistanceAtr >= 1.0 && entry.structure != Capped
  {
    var raw := ExpectedScore(payload, entry, bucket).raw;
    PassingMeansNoGateFails(entry, raw);
    assert (forall c: ReasonCode :: !GateFails(entry, raw, c)) <==>
           && !GateFails(entry, raw, Halted) && !GateFails(entry, raw, CatalystScoreTooLow)
           && !GateFails(entry, raw, UncorroboratedCatalyst) && !GateFails(entry, raw, GapTooSmall)
           && !GateFails(entry, raw, PremarketVolumeTooLow) && !GateFails(entry, raw, RvolTooLow)
           && !GateFails(entry, raw, ResistanceTooClose) && !GateFails(entry, raw, CappedChart);
  }

  /** The catalyst score: zeroed for the first reason that applies, otherwise source and magnitude, each times four. */
  lemma CatalystExactly(payload: Payload, entry: TickerInput, bucket: Bucket)
    ensures
      var score := ExpectedScore(payload, entry, bucket);
      && (score.zeroOverride <==> !Credible(payload, entry, bucket)) && (score.zeroOverride <==> score.zeroReason != None)
      && (score.zeroReason == Some(DisqualifierFlag) <==> entry.disqualifiers != [])
      && (score.zeroReason == Some(UnconfirmedSource) <==> entry.disqualifiers == [] && entry.sourceType == Unconfirmed)
      && (score.zeroReason == Some(StaleCatalyst) <==>
            entry.disqualifiers == [] && entry.sourceType != Unconfirmed && entry.ageHours > payload.freshnessHours)
      && (score.zeroOverride ==> score.raw == 0)
      && score.catalystPoints == 4 * score.raw
      && (!score.zeroOverride ==> score.raw == score.sourceQuality + score.magnitudePoints)
  {
  }

  /** The points of the source and of the magnitude; each better source and each larger bucket scores more. */
  lemma PointTables(payload: Payload, entry: TickerInput, bucket: Bucket)
    ensures
      var score := ExpectedScore(payload, entry, bucket);
      && (score.sourceQuality == 6 <==> entry.sourceType == Primary)
      && (score.sourceQuality == 4 <==> entry.sourceType == Secondary && entry.corroborated)
      && (score.sourceQuality == 2 <==> entry.sourceType == Secondary && !entry.corroborated)
      && (score.sourceQuality == 0 <==> entry.sourceType == Unconfirmed)
      && (score.magnitudePoints == 4 <==> bucket == MajorConcrete)
      && (score.magnitudePoints == 3 <==> bucket == MaterialPartiallyQuantified)
      && (score.magnitudePoints == 2 <==> bucket == CredibleUnquantified)
      && (score.magnitudePoints == 1 <==> bucket == WeakOrPreliminary)
      && (score.magnitudePoints == 0 <==> bucket == NoDriver)
      && (score.volumePoints == 35 <==> entry.volumeProfile == Clean && entry.rvol > 10.0)
      && (score.volumePoints == 25 <==> entry.volumeProfile == Clean && 5.0 <= entry.rvol <= 10.0)
      && (score.volumePoints == 15 <==> entry.volumeProfile == Spiky)
      && (score.volumePoints == 0 <==> entry.volumeProfile == Clean && entry.rvol < 5.0)
  {
  }

  /** The technical score: nothing for a capped chart or one too close to resistance; otherwise the chart's points, six
      less when the price is more than three ranges off its average, which is also what raises the parabolic flag. */
  lemma TechnicalExactly(payload: Payload, entry: TickerInput, bucket: Bucket)
    ensures
      var score := ExpectedScore(payload, entry, bucket);
      var open := entry.resistanceAtr >= 1.0 && entry.structure != Capped;
      && (score.grade == C <==> !open) && (score.grade == APlus <==> open && entry.structure == BlueSky)
      && (score.grade == A <==> open && entry.structure == CleanShortTerm)
      && (score.grade == B <==> open && entry.structure == ModerateRoom)
      && (score.basePoints == 25 <==> score.grade == APlus) && (score.basePoints == 22 <==> score.grade == A)
      && (score.basePoints == 13 <==> score.grade == B) && (score.basePoints == 0 <==> score.grade == C)
      && (score.parabolic <==> open && entry.vwapAtr > 3.0)
      && score.technicalPoints == score.basePoints - if score.parabolic then 6 else 0
  {
  }

  /** The risk flags, each by its field. */
  lemma FlagsExactly(entry: TickerInput)
    ensures
      var flags := RiskFlags(entry);
      && (Parabolic in flags <==> entry.resistanceAtr >= 1.0 && entry.structure != Capped && entry.vwapAtr > 3.0)
      && (HardBorrow in flags <==> entry.borrowStatus == HardToBorrow)
      && (UnknownBorrowFlag in flags <==> entry.borrowStatus == UnknownBorrow)
      && (LowFloat in flags <==> entry.floatShares < 50_000_000)
      && (SpikyVolume in flags <==> entry.volumeProfile == Spiky)
      && (SecondarySource in flags <==> entry.sourceType == Secondary)
  {
    RiskFlagsAreExactly(entry, RiskFlags(entry));
  }

  /** The conviction is the three scores together, and the perfect one needs the best of everything. */
  lemma PerfectConviction(payload: Payload, entry: TickerInput, bucket: Bucket)
    ensures Conviction(ExpectedScore(payload, entry, bucket)) == 100 <==>
            && Credible(payload, entry, bucket) && entry.sourceType == Primary && bucket == MajorConcrete
            && entry.volumeProfile == Clean && entry.rvol > 10.0
            && entry.resistanceAtr >= 1.0 && entry.structure == BlueSky && entry.vwapAtr <= 3.0
  {
  }
}
