/** The persistent kill switch (daybreak_orchestration/kill_switch.py) and the in-memory session repository
    (daybreak_orchestration/persistence.py). */
module KillSwitch {
  import opened Results

  datatype Reason =
    | Manual | HardDailyLoss | AccountBlocked | TradingBlocked | MarketCircuitBreaker | ClockUnsynced | DatabaseUnhealthy
    | RecorderUnhealthy | MarketDataUnhealthy | TradeUpdateStreamUnhealthy | BrokerUnhealthy | LeadershipLost
    | ConfigurationMismatch | ReconciliationFailure | UnprotectedPosition | ExecutionCutoffExceeded
    | FlattenDeadlineExceeded | UnknownFailure

  datatype SessionId = SessionId(text: string)

  /** An active switch carries its time, reason and details; an inactive one carries nothing. */
  datatype State = Inactive(session: SessionId) | Active(session: SessionId, at: int, reason: Reason, details: string)

  // ---------- health ----------

  datatype Health = Health(
    configuration: string, clockSynchronized: bool, skewMs: int, database: bool, recorder: bool, marketData: bool,
    tradeUpdates: bool, broker: bool, accountActive: bool, accountBlocked: bool, tradingBlocked: bool, marketNormal: bool)

  function HealthKillReason(h: Health, configuration: string, maxSkewMs: int): Option<Reason> {
    if h.configuration != configuration then Some(ConfigurationMismatch)
    else if !h.clockSynchronized || (if h.skewMs < 0 then -h.skewMs else h.skewMs) > maxSkewMs then Some(ClockUnsynced)
    else if !h.database then Some(DatabaseUnhealthy)
    else if !h.recorder then Some(RecorderUnhealthy)
    else if !h.marketData then Some(MarketDataUnhealthy)
    else if !h.tradeUpdates then Some(TradeUpdateStreamUnhealthy)
    else if !h.broker || !h.accountActive then Some(BrokerUnhealthy)
    else if h.accountBlocked then Some(AccountBlocked)
    else if h.tradingBlocked then Some(TradingBlocked)
    else if !h.marketNormal then Some(MarketCircuitBreaker)
    else None
  }

  /** The snapshot is of this configuration, with the clock in step, everything up, and an account and a market that
      may trade. */
  predicate Sound(h: Health, configuration: string, maxSkewMs: int) {
    && h.configuration == configuration && h.clockSynchronized && -maxSkewMs <= h.skewMs <= maxSkewMs
    && h.database && h.recorder && h.marketData && h.tradeUpdates && h.broker
    && h.accountActive && !h.accountBlocked && !h.tradingBlocked && h.marketNormal
  }

  /** The fault a reason stands for. */
  predicate Faulty(h: Health, configuration: string, maxSkewMs: int, reason: Reason) {
    match reason
    case ConfigurationMismatch => h.configuration != configuration
    case ClockUnsynced => !(h.clockSynchronized && -maxSkewMs <= h.skewMs <= maxSkewMs)
    case DatabaseUnhealthy => !h.database
    case RecorderUnhealthy => !h.recorder
    case MarketDataUnhealthy => !h.marketData
    case TradeUpdateStreamUnhealthy => !h.tradeUpdates
    case BrokerUnhealthy => !(h.broker && h.accountActive)
    case AccountBlocked => h.accountBlocked
    case TradingBlocked => h.tradingBlocked
    case MarketCircuitBreaker => !h.marketNormal
    case _ => false
  }

  /** The order in which faults are looked for. */
  const HEALTH_ORDER := [
    ConfigurationMismatch, ClockUnsynced, DatabaseUnhealthy, RecorderUnhealthy, MarketDataUnhealthy,
    TradeUpdateStreamUnhealthy, BrokerUnhealthy, AccountBlocked, TradingBlocked, MarketCircuitBreaker]

  /** No reason to kill exactly when the snapshot is sound. */
  lemma HealthyExactly(h: Health, configuration: string, maxSkewMs: int)
    ensures HealthKillReason(h, configuration, maxSkewMs) == None <==> Sound(h, configuration, maxSkewMs)
  {
  }

  /** The reason is the first fault in the order of the tests. */
  lemma FirstFaultWins(h: Health, configuration: string, maxSkewMs: int, k: nat)
    requires k < |HEALTH_ORDER|
    ensures HealthKillReason(h, configuration, maxSkewMs) == Some(HEALTH_ORDER[k]) <==>
            && Faulty(h, configuration, maxSkewMs, HEALTH_ORDER[k])
            && forall j :: 0 <= j < k ==> !Faulty(h, configuration, maxSkewMs, HEALTH_ORDER[j])
  {
    var order := HEALTH_ORDER;
    assert order[0] == ConfigurationMismatch && order[1] == ClockUnsynced && order[2] == DatabaseUnhealthy;
    assert order[3] == RecorderUnhealthy && order[4] == MarketDataUnhealthy && order[5] == TradeUpdateStreamUnhealthy;
    assert order[6] == BrokerUnhealthy && order[7] == AccountBlocked && order[8] == TradingBlocked;
    assert order[9] == MarketCircuitBreaker;
  }

  // ---------- reasons as text ----------

  function Name(reason: Reason): string {
    match reason
    case Manual => "MANUAL"
    case HardDailyLoss => "HARD_DAILY_LOSS"
    case AccountBlocked => "ACCOUNT_BLOCKED"
    case TradingBlocked => "TRADING_BLOCKED"
    case MarketCircuitBreaker => "MARKET_CIRCUIT_BREAKER"
    case ClockUnsynced => "CLOCK_UNSYNCED"
    case DatabaseUnhealthy => "DATABASE_UNHEALTHY"
    case RecorderUnhealthy => "RECORDER_UNHEALTHY"
    case MarketDataUnhealthy => "MARKET_DATA_UNHEALTHY"
    case TradeUpdateStreamUnhealthy => "TRADE_UPDATE_STREAM_UNHEALTHY"
    case BrokerUnhealthy => "BROKER_UNHEALTHY"
    case LeadershipLost => "LEADERSHIP_LOST"
    case ConfigurationMismatch => "CONFIGURATION_MISMATCH"
    case ReconciliationFailure => "RECONCILIATION_FAILURE"
    case UnprotectedPosition => "UNPROTECTED_POSITION"
    case ExecutionCutoffExceeded => "EXECUTION_CUTOFF_EXCEEDED"
    case FlattenDeadlineExceeded => "FLATTEN_DEADLINE_EXCEEDED"
    case UnknownFailure => "UNKNOWN_FAILURE"
  }

  /** Upper case of ASCII letters; every other character is kept. */
  function UpperChar(c: char): char {
    if 'a' <= c <= 'z' then c - 'a' + 'A' else c
  }

  function Upper(text: string): (r: string)
    ensures |r| == |text| && forall i :: 0 <= i < |r| ==> r[i] == UpperChar(text[i])
  {
    seq(|text|, i requires 0 <= i < |text| => UpperChar(text[i]))
  }

  predicate MatchesAt(text: string, part: string, i: nat) {
    i + |part| <= |text| && text[i..i + |part|] == part
  }

  /** `part in text` */
  predicate Contains(text: string, part: string) {
    exists i: nat :: i <= |text| && MatchesAt(text, part, i)
  }

  /** The reason a failure's message is read as: the first of these texts it contains decides. */
  function ReasonFromError(message: string): Reason {
    ReasonIn(Upper(message))
  }

  function ReasonIn(upper: string): Reason {
    if Contains(upper, "LEADERSHIP") then LeadershipLost
    else if Contains(upper, "EVALUATOR CUTOFF") || Contains(upper, "ENTRY CUTOFF") then ExecutionCutoffExceeded
    else if Contains(upper, "CLOCK_UNSYNCED") then ClockUnsynced
    else if Contains(upper, "DATABASE_UNHEALTHY") then DatabaseUnhealthy
    else if Contains(upper, "RECORDER_UNHEALTHY") then RecorderUnhealthy
    else if Contains(upper, "MARKET_DATA_UNHEALTHY") then MarketDataUnhealthy
    else if Contains(upper, "TRADE_UPDATE_STREAM_UNHEALTHY") then TradeUpdateStreamUnhealthy
    else if Contains(upper, "ACCOUNT_BLOCKED") then AccountBlocked
    else if Contains(upper, "TRADING_BLOCKED") then TradingBlocked
    else if Contains(upper, "MARKET_CIRCUIT_BREAKER") then MarketCircuitBreaker
    else if Contains(upper, "CONFIGURATION_MISMATCH") then ConfigurationMismatch
    else UnknownFailure
  }

  const PREFLIGHT_FAILED := "RuntimeError: preflight failed:"

  /** How the reason of a failed health check is read back when the run is killed. */
  function ReadBack(reason: Reason): Reason {
    ReasonFromError(PREFLIGHT_FAILED + " " + Name(reason))
  }

  lemma PartChar(text: string, part: string, i: nat, k: nat)
    requires MatchesAt(text, part, i) && k < |part|
    ensures text[i + k] == part[k]
  {
    assert text[i..i + |part|][k] == text[i + k];
  }

  /** A text lacking a character of `part` does not contain it. */
  lemma AbsentChar(text: string, part: string, c: char)
    requires c in part && c !in text
    ensures !Contains(text, part)
  {
    var k :| 0 <= k < |part| && part[k] == c;
    forall i: nat | i <= |text| ensures !MatchesAt(text, part, i) {
      if MatchesAt(text, part, i) {
        PartChar(text, part, i, k);
      }
    }
  }

  /** A part without a space that occurs in two words joined by a space occurs in one of them. */
  lemma InOneWord(left: string, right: string, part: string)
    requires ' ' !in part && Contains(left + " " + right, part)
    ensures Contains(left, part) || Contains(right, part)
  {
    var text := left + " " + right;
    var i: nat :| i <= |text| && MatchesAt(text, part, i);
    forall k | 0 <= k < |part| ensures part[k] != ' ' {
      assert part[k] in part;
    }
    if i <= |left| < i + |part| {
      PartChar(text, part, i, |left| - i);
    }
    if i + |part| <= |left| {
      assert text[i..i + |part|] == left[i..i + |part|];
      assert MatchesAt(left, part, i);
    } else {
      var j: nat := i - |left| - 1;
      assert text[i..i + |part|] == right[j..j + |part|];
      assert MatchesAt(right, part, j);
    }
  }

  lemma ContainsShorter(text: string, part: string, from: nat)
    requires from <= |part| && Contains(text, part)
    ensures Contains(text, part[from..])
  {
    var i: nat :| i <= |text| && MatchesAt(text, part, i);
    assert text[i + from..i + |part|] == text[i..i + |part|][from..];
    assert MatchesAt(text, part[from..], i + from);
  }

  lemma UpperConcat(a: string, b: string)
    ensures Upper(a + b) == Upper(a) + Upper(b)
  {
  }

  lemma UpperKeeps(text: string)
    requires forall c :: c in text ==> !('a' <= c <= 'z')
    ensures Upper(text) == text
  {
    forall i | 0 <= i < |text| ensures Upper(text)[i] == text[i] {
      assert text[i] in text;
    }
  }

  lemma UpperLacks(text: string, c: char)
    requires forall d :: d in text ==> UpperChar(d) != c
    ensures c !in Upper(text)
  {
    forall i | 0 <= i < |text| ensures Upper(text)[i] != c {
      assert text[i] in text;
    }
  }

  /** The characters that tell the texts apart do not occur before the reason's name. */
  lemma PrefixLacks(c: char)
    requires c in {'S', 'C', 'V', 'Y', '_'}
    ensures c !in Upper(PREFLIGHT_FAILED)
  {
    forall d | d in PREFLIGHT_FAILED ensures UpperChar(d) != c {
      assert d in "RuntimeError: preflight failed:";
    }
    UpperLacks(PREFLIGHT_FAILED, c);
  }

  /** The upper-cased message of a failed preflight. */
  function Shouted(name: string): string {
    Upper(PREFLIGHT_FAILED) + " " + name
  }

  /** The characters of the names of failed checks. */
  function Letters(reason: Reason): (letters: set<char>)
    ensures forall c :: c in letters ==> c == '_' || 'A' <= c <= 'Z'
  {
    match reason
    case ClockUnsynced => {'C', 'L', 'O', 'K', '_', 'U', 'N', 'S', 'Y', 'E', 'D'}
    case DatabaseUnhealthy => {'D', 'A', 'T', 'B', 'S', 'E', '_', 'U', 'N', 'H', 'L', 'Y'}
    case RecorderUnhealthy => {'R', 'E', 'C', 'O', 'D', '_', 'U', 'N', 'H', 'A', 'L', 'T', 'Y'}
    case MarketDataUnhealthy => {'M', 'A', 'R', 'K', 'E', 'T', '_', 'D', 'U', 'N', 'H', 'L', 'Y'}
    case TradeUpdateStreamUnhealthy => {'T', 'R', 'A', 'D', 'E', '_', 'U', 'P', 'S', 'M', 'N', 'H', 'L', 'Y'}
    case AccountBlocked => {'A', 'C', 'O', 'U', 'N', 'T', '_', 'B', 'L', 'K', 'E', 'D'}
    case TradingBlocked => {'T', 'R', 'A', 'D', 'I', 'N', 'G', '_', 'B', 'L', 'O', 'C', 'K', 'E'}
    case MarketCircuitBreaker => {'M', 'A', 'R', 'K', 'E', 'T', '_', 'C', 'I', 'U', 'B'}
    case ConfigurationMismatch => {'C', 'O', 'N', 'F', 'I', 'G', 'U', 'R', 'A', 'T', '_', 'M', 'S', 'H'}
    case BrokerUnhealthy => {'B', 'R', 'O', 'K', 'E', '_', 'U', 'N', 'H', 'A', 'L', 'T', 'Y'}
    case _ => {}
  }

  const UNHEALTHY := {DatabaseUnhealthy, RecorderUnhealthy, MarketDataUnhealthy, TradeUpdateStreamUnhealthy, BrokerUnhealthy}

  lemma UnhealthyLetters(reason: Reason, c: char)
    requires reason in UNHEALTHY && c in Name(reason)
    ensures c in Letters(reason)
  {
  }

  lemma OtherLetters(reason: Reason, c: char)
    requires reason in HEALTH_REASONS - UNHEALTHY && c in Name(reason)
    ensures c in Letters(reason)
  {
  }

  lemma NameLacks(reason: Reason, c: char)
    requires reason in HEALTH_REASONS && c !in Letters(reason)
    ensures c !in Name(reason)
  {
    if c in Name(reason) {
      if reason in UNHEALTHY {
        UnhealthyLetters(reason, c);
      } else {
        OtherLetters(reason, c);
      }
    }
  }

  lemma ShoutedMessage(reason: Reason)
    requires reason in HEALTH_REASONS
    ensures Upper(PREFLIGHT_FAILED + " " + Name(reason)) == Shouted(Name(reason))
  {
    var name := Name(reason);
    forall c | 'a' <= c <= 'z' ensures c !in name {
      NameLacks(reason, c);
    }
    ShoutedAround(name);
  }

  lemma ShoutedAround(name: string)
    requires forall c :: 'a' <= c <= 'z' ==> c !in name
    ensures Upper(PREFLIGHT_FAILED + " " + name) == Shouted(name)
  {
    UpperConcat(PREFLIGHT_FAILED + " ", name);
    UpperConcat(PREFLIGHT_FAILED, " ");
    assert Upper(" ") == " ";
    UpperKeeps(name);
  }

  /** A text with an underscore occurs in the message exactly when it occurs in the reason's name. */
  lemma OnlyInName(name: string, part: string)
    requires '_' in part && ' ' !in part
    ensures Contains(Shouted(name), part) <==> Contains(name, part)
  {
    if Contains(Shouted(name), part) {
      InOneWord(Upper(PREFLIGHT_FAILED), name, part);
      PrefixLacks('_');
      if Contains(Upper(PREFLIGHT_FAILED), part) {
        AbsentChar(Upper(PREFLIGHT_FAILED), part, '_');
      }
    }
    if Contains(name, part) {
      var i: nat :| i <= |name| && MatchesAt(name, part, i);
      var k := |PREFLIGHT_FAILED| + 1;
      assert Shouted(name)[k + i..k + i + |part|] == name[i..i + |part|];
      assert MatchesAt(Shouted(name), part, k + i);
    }
  }

  lemma NoLeadershipWord(name: string, c: char)
    requires c in "LEADERSHIP" && c !in name
    ensures !Contains(Shouted(name), "LEADERSHIP")
  {
    AbsentChar(name, "LEADERSHIP", c);
    PrefixLacks('S');
    AbsentChar(Upper(PREFLIGHT_FAILED), "LEADERSHIP", 'S');
    if Contains(Shouted(name), "LEADERSHIP") {
      InOneWord(Upper(PREFLIGHT_FAILED), name, "LEADERSHIP");
    }
  }

  /** None of the three texts tested first occurs in a preflight message. */
  lemma NotLeadership(reason: Reason)
    requires reason in HEALTH_REASONS
    ensures !Contains(Shouted(Name(reason)), "LEADERSHIP")
  {
    var c := if reason == TradeUpdateStreamUnhealthy then 'I' else 'P';
    NameLacks(reason, c);
    NoLeadershipWord(Name(reason), c);
  }

  lemma ShoutedLacks(name: string, c: char)
    requires c in {'S', 'C', 'V', 'Y', '_'} && c !in name
    ensures c !in Shouted(name)
  {
    PrefixLacks(c);
  }

  lemma NotEvaluatorCutoff(reason: Reason)
    requires reason in HEALTH_REASONS
    ensures !Contains(Shouted(Name(reason)), "EVALUATOR CUTOFF")
  {
    NameLacks(reason, 'V');
    ShoutedLacks(Name(reason), 'V');
    AbsentChar(Shouted(Name(reason)), "EVALUATOR CUTOFF", 'V');
  }

  lemma NotEntryCutoff(reason: Reason)
    requires reason in HEALTH_REASONS
    ensures !Contains(Shouted(Name(reason)), "ENTRY CUTOFF")
  {
    if 'F' !in Letters(reason) {
      NameLacks(reason, 'F');
      NoCutoffWord(Name(reason));
    } else {
      var c := if 'C' !in Letters(reason) then 'C' else 'Y';
      NameLacks(reason, c);
      ShoutedLacks(Name(reason), c);
      AbsentChar(Shouted(Name(reason)), "ENTRY CUTOFF", c);
    }
  }

  lemma NoCutoffWord(name: string)
    requires 'F' !in name
    ensures !Contains(Shouted(name), "ENTRY CUTOFF")
  {
    PrefixLacks('C');
    AbsentChar(Upper(PREFLIGHT_FAILED), "CUTOFF", 'C');
    AbsentChar(name, "CUTOFF", 'F');
    assert "ENTRY CUTOFF"[6..] == "CUTOFF";
    if Contains(Shouted(name), "ENTRY CUTOFF") {
      ContainsShorter(Shouted(name), "ENTRY CUTOFF", 6);
      InOneWord(Upper(PREFLIGHT_FAILED), name, "CUTOFF");
    }
  }

  const HEALTH_REASONS := {ConfigurationMismatch, ClockUnsynced, DatabaseUnhealthy, RecorderUnhealthy, MarketDataUnhealthy,
    TradeUpdateStreamUnhealthy, BrokerUnhealthy, AccountBlocked, TradingBlocked, MarketCircuitBreaker}

  /** The nine texts in the order they are tested. */
  function Tested(k: nat): Reason
    requires k < 9
  {
    match k
    case 0 => ClockUnsynced
    case 1 => DatabaseUnhealthy
    case 2 => RecorderUnhealthy
    case 3 => MarketDataUnhealthy
    case 4 => TradeUpdateStreamUnhealthy
    case 5 => AccountBlocked
    case 6 => TradingBlocked
    case 7 => MarketCircuitBreaker
    case _ => ConfigurationMismatch
  }

  /** A character of the tested text that a later reason's name lacks. */
  function Telling(k: nat, reason: Reason): char
    requires k < 9
  {
    match k
    case 0 => if reason in {AccountBlocked, RecorderUnhealthy, TradingBlocked} then 'S'
              else if reason in {MarketCircuitBreaker, ConfigurationMismatch} then 'L' else 'C'
    case 1 => if reason in {AccountBlocked, TradingBlocked} then 'H'
              else if reason in {MarketCircuitBreaker, ConfigurationMismatch, BrokerUnhealthy} then 'D' else 'B'
    case 2 => if reason in {AccountBlocked, TradingBlocked} then 'H'
              else if reason in {MarketCircuitBreaker, ConfigurationMismatch, BrokerUnhealthy} then 'D' else 'C'
    case 3 => if reason == TradeUpdateStreamUnhealthy then 'K'
              else if reason in {AccountBlocked, TradingBlocked} then 'M' else 'D'
    case 4 => 'P'
    case 5 => if reason == TradingBlocked then 'U' else 'D'
    case 6 => 'D'
    case 7 => if reason == ConfigurationMismatch then 'K' else 'M'
    case _ => 'F'
  }

  /** The place of a reason's text among the tested ones. */
  function Place(reason: Reason): nat {
    match reason
    case ClockUnsynced => 0
    case DatabaseUnhealthy => 1
    case RecorderUnhealthy => 2
    case MarketDataUnhealthy => 3
    case TradeUpdateStreamUnhealthy => 4
    case AccountBlocked => 5
    case TradingBlocked => 6
    case MarketCircuitBreaker => 7
    case ConfigurationMismatch => 8
    case _ => 9
  }

  lemma TellingIsIn(k: nat, reason: Reason)
    requires k < Place(reason) && reason in HEALTH_REASONS
    ensures Telling(k, reason) in Name(Tested(k))
  {
  }

  lemma TellingIsOut(k: nat, reason: Reason)
    requires k < Place(reason) && reason in HEALTH_REASONS
    ensures Telling(k, reason) !in Name(reason)
  {
    NameLacks(reason, Telling(k, reason));
  }

  /** No tested text occurs in the name of a reason tested later, or never. */
  lemma LaterNamesDiffer(k: nat, reason: Reason)
    requires k < Place(reason) && reason in HEALTH_REASONS
    ensures !Contains(Name(reason), Name(Tested(k)))
  {
    TellingIsIn(k, reason);
    TellingIsOut(k, reason);
    AbsentChar(Name(reason), Name(Tested(k)), Telling(k, reason));
  }

  /** Up to a reason's own place, the message contains a tested text only if it is the reason's own. */
  lemma FoundAtItsPlace(k: nat, reason: Reason)
    requires k < 9 && k <= Place(reason) && reason in HEALTH_REASONS
    ensures Contains(Upper(PREFLIGHT_FAILED + " " + Name(reason)), Name(Tested(k))) <==> k == Place(reason)
  {
    ShoutedMessage(reason);
    TestedIsOneWord(k);
    OnlyInName(Name(reason), Name(Tested(k)));
    if k < Place(reason) {
      LaterNamesDiffer(k, reason);
    } else {
      assert MatchesAt(Name(reason), Name(reason), 0);
    }
  }

  lemma TestedIsOneWord(k: nat)
    requires k < 9
    ensures '_' in Name(Tested(k)) && ' ' !in Name(Tested(k))
  {
    NameLacks(Tested(k), ' ');
  }

  /** The first tested text that occurs decides. */
  lemma FirstTextDecides(upper: string, place: nat)
    requires !Contains(upper, "LEADERSHIP") && !Contains(upper, "EVALUATOR CUTOFF") && !Contains(upper, "ENTRY CUTOFF")
    requires forall k: nat :: k < 9 && k <= place ==> (Contains(upper, Name(Tested(k))) <==> k == place)
    ensures ReasonIn(upper) == if place < 9 then Tested(place) else UnknownFailure
  {
    assert Name(Tested(0)) == "CLOCK_UNSYNCED" && Name(Tested(1)) == "DATABASE_UNHEALTHY";
    assert Name(Tested(2)) == "RECORDER_UNHEALTHY" && Name(Tested(3)) == "MARKET_DATA_UNHEALTHY";
    assert Name(Tested(4)) == "TRADE_UPDATE_STREAM_UNHEALTHY" && Name(Tested(5)) == "ACCOUNT_BLOCKED";
    assert Name(Tested(6)) == "TRADING_BLOCKED" && Name(Tested(7)) == "MARKET_CIRCUIT_BREAKER";
    assert Name(Tested(8)) == "CONFIGURATION_MISMATCH";
  }

  lemma ReadBackExactly(reason: Reason)
    requires reason in HEALTH_REASONS
    ensures ReadBack(reason) == if reason == BrokerUnhealthy then UnknownFailure else reason
  {
    ShoutedMessage(reason);
    NotLeadership(reason);
    NotEvaluatorCutoff(reason);
    NotEntryCutoff(reason);
    forall k: nat | k < 9 && k <= Place(reason)
      ensures Contains(Upper(PREFLIGHT_FAILED + " " + Name(reason)), Name(Tested(k))) <==> k == Place(reason)
    {
      FoundAtItsPlace(k, reason);
    }
    FirstTextDecides(Upper(PREFLIGHT_FAILED + " " + Name(reason)), Place(reason));
  }

  /** The reason of a failed health check survives the way through its message into the stored kill switch, except an
      unhealthy broker, which is stored as an unknown failure. */
  lemma ReasonSurvivesExactly(h: Health, configuration: string, maxSkewMs: int)
    ensures var reason := HealthKillReason(h, configuration, maxSkewMs);
            reason.Some? ==>
              && (ReadBack(reason.value) == reason.value <==> reason.value != BrokerUnhealthy)
              && (reason.value == BrokerUnhealthy ==> ReadBack(reason.value) == UnknownFailure)
  {
    var reason := HealthKillReason(h, configuration, maxSkewMs);
    if reason.Some? {
      ReadBackExactly(reason.value);
    }
  }

  lemma UpperContains(before: string, word: string, after: string)
    ensures Contains(Upper(before + word + after), Upper(word))
  {
    UpperConcat(before + word, after);
    UpperConcat(before, word);
    assert MatchesAt(Upper(before + word + after), Upper(word), |before|);
  }

  /** The run's own lost-leadership and cutoff errors are read as what they are. */
  lemma OwnErrorsAreRead(after: string)
    ensures ReasonFromError("RuntimeError: " + "leadership" + after) == LeadershipLost
    ensures ReasonFromError("RuntimeError: " + "evaluator cutoff" + " exceeded") == ExecutionCutoffExceeded
    ensures ReasonFromError("RuntimeError: new-" + "entry cutoff" + " exceeded") == ExecutionCutoffExceeded
  {
    ShoutedWords();
    UpperContains("RuntimeError: ", "leadership", after);
    CutoffIsRead("RuntimeError: ", "evaluator cutoff");
    CutoffIsRead("RuntimeError: new-", "entry cutoff");
  }

  lemma ShoutedWords()
    ensures Upper("leadership") == "LEADERSHIP"
    ensures Upper("evaluator cutoff") == "EVALUATOR CUTOFF"
    ensures Upper("entry cutoff") == "ENTRY CUTOFF"
  {
    assert Upper("leadership") == "LEADERSHIP";
    assert Upper("evaluator cutoff") == "EVALUATOR CUTOFF";
    assert Upper("entry cutoff") == "ENTRY CUTOFF";
  }

  lemma CutoffIsRead(before: string, word: string)
    requires before in {"RuntimeError: ", "RuntimeError: new-"}
    requires word in {"evaluator cutoff", "entry cutoff"}
    ensures ReasonFromError(before + word + " exceeded") == ExecutionCutoffExceeded
  {
    NoLeadership(before, word);
    ShoutedWords();
    UpperContains(before, word, " exceeded");
  }

  lemma NoLeadership(before: string, word: string)
    requires before in {"RuntimeError: ", "RuntimeError: new-"} && word in {"evaluator cutoff", "entry cutoff"}
    ensures !Contains(Upper(before + word + " exceeded"), "LEADERSHIP")
  {
    UpperLacks(before + word + " exceeded", 'S');
    AbsentChar(Upper(before + word + " exceeded"), "LEADERSHIP", 'S');
  }

  // ---------- the stored states ----------

  /** The most recently inserted state of a session. */
  function Latest(states: seq<State>, session: SessionId): Option<State> {
    if states == [] then None
    else
      var last := states[|states| - 1];
      if last.session == session then Some(last) else Latest(states[..|states| - 1], session)
  }

  ghost predicate LatestActive(states: seq<State>, session: SessionId) {
    Latest(states, session).Some? && Latest(states, session).value.Active?
  }

  /** The dictionary is keyed by the state's hash and keeps insertion order: writing a key that is present leaves
      the order alone. */
  ghost predicate DistinctHashes(states: seq<State>, hash: State -> int) {
    forall i, j :: 0 <= i < j < |states| ==> hash(states[i]) != hash(states[j])
  }

  function Find(states: seq<State>, hash: State -> int, key: int): (found: Option<State>)
    ensures found.Some? ==> found.value in states && hash(found.value) == key
    ensures found.None? ==> forall s :: s in states ==> hash(s) != key
  {
    if states == [] then None
    else if hash(states[0]) == key then Some(states[0])
    else
      assert states == [states[0]] + states[1..];
      Find(states[1..], hash, key)
  }

  /** The states after a save that does not collide. */
  function Put(states: seq<State>, hash: State -> int, s: State): seq<State> {
    if Find(states, hash, hash(s)).Some? then states else states + [s]
  }

  predicate Collides(states: seq<State>, hash: State -> int, s: State) {
    Find(states, hash, hash(s)).Some? && Find(states, hash, hash(s)).value != s
  }

  lemma LatestAfter(states: seq<State>, s: State, session: SessionId)
    ensures Latest(states + [s], session) == if s.session == session then Some(s) else Latest(states, session)
  {
    assert (states + [s])[..|states|] == states;
  }

  /** A save turns the latest state of a session inactive exactly when it inserts an inactive state of that session. */
  lemma LatchBreaksExactly(states: seq<State>, hash: State -> int, s: State, session: SessionId)
    requires LatestActive(states, session)
    ensures !LatestActive(Put(states, hash, s), session) <==>
            s == Inactive(session) && Find(states, hash, hash(s)).None?
  {
    LatestAfter(states, s, session);
  }

  /** No inactive state of the session follows an active one: what every writer of states keeps. */
  ghost predicate Latching(states: seq<State>, session: SessionId) {
    forall i, j :: 0 <= i < j < |states| && states[i].session == session && states[j].session == session ==>
      (states[i].Active? ==> states[j].Active?)
  }

  ghost predicate LastAt(states: seq<State>, session: SessionId, k: int) {
    && 0 <= k < |states| && states[k].session == session
    && forall i :: k < i < |states| ==> states[i].session != session
  }

  lemma {:induction false} LatestIs(states: seq<State>, session: SessionId) returns (k: int)
    ensures Latest(states, session).None? ==> forall i :: 0 <= i < |states| ==> states[i].session != session
    ensures Latest(states, session).Some? ==> LastAt(states, session, k) && states[k] == Latest(states, session).value
  {
    k := |states| - 1;
    if states != [] && states[k].session != session {
      k := LatestIs(states[..k], session);
    }
  }

  /** Storing an active state leaves the latest state active exactly when the state is new, or the latest one was
      active already. In a latching history the latter holds whenever it is not new, so storing always latches. */
  lemma SavingActiveLatches(states: seq<State>, hash: State -> int, s: State)
    requires s.Active? && !Collides(states, hash, s)
    ensures LatestActive(Put(states, hash, s), s.session) <==>
            Find(states, hash, hash(s)).None? || LatestActive(states, s.session)
    ensures Latching(states, s.session) ==>
              Latching(Put(states, hash, s), s.session) && LatestActive(Put(states, hash, s), s.session)
  {
    LatestAfter(states, s, s.session);
    if Find(states, hash, hash(s)).Some? && Latching(states, s.session) {
      var k := LatestIs(states, s.session);
      var j :| 0 <= j < |states| && states[j] == s;
    }
  }

  lemma SavingInactiveStarts(states: seq<State>, hash: State -> int, session: SessionId)
    requires Latest(states, session).None? && !Collides(states, hash, Inactive(session))
    ensures Put(states, hash, Inactive(session)) == states + [Inactive(session)]
    ensures Latching(Put(states, hash, Inactive(session)), session)
    ensures Latest(Put(states, hash, Inactive(session)), session) == Some(Inactive(session))
  {
    var k := LatestIs(states, session);
    LatestAfter(states, Inactive(session), session);
  }

  /** A save for one session leaves every other session alone. */
  lemma OtherSessionsStay(states: seq<State>, hash: State -> int, s: State, session: SessionId)
    requires s.session != session
    ensures Latest(Put(states, hash, s), session) == Latest(states, session)
    ensures Latching(states, session) ==> Latching(Put(states, hash, s), session)
  {
    LatestAfter(states, s, session);
  }
}
