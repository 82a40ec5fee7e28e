/** The execution coordinator: idempotent order submission and partial-fill protection against a broker
    that may fail before or after taking effect (daybreak_execution/service.py, order_builder.py,
    persistence.py). Prices are integers in quanta, times are milliseconds. */
module Execution {
  import opened Orders
  import opened Results

  datatype Side = Buy | Sell
  datatype OrderType = Limit | Stop
  datatype OrderClass = Bracket | Simple
  datatype OrderStatus =
    | Accepted | AcceptedForBidding | PendingNew | New | PartiallyFilled | Filled | DoneForDay | Canceled
    | Expired | Replaced | PendingCancel | PendingReplace | Stopped | BrokerRejected | Suspended | Calculated

  datatype ReservationStatus = Reserved | ReservationSubmitted | ReservationClosed

  datatype Reservation = Reservation(clientOrderId: string, status: ReservationStatus, expiresAt: int, quantity: int)

  datatype Decision = Decision(
    approved: bool, ticker: string, quantity: int, reservation: Option<Reservation>,
    entryLimit: Option<int>, stopPrice: Option<int>, targetPrice: Option<int>)

  datatype Policy = Policy(paper: bool, allowLive: bool, maxRequestAgeMs: int, protectPartialFills: bool)

  datatype Request = Request(executionId: string, requestedAt: int, cutoff: int, decision: Decision, policy: Policy)

  /** The command id and hash are functions of the other fields and are left implicit. */
  datatype Command = Command(
    executionId: string, clientOrderId: string, symbol: string, quantity: int,
    side: Side, orderType: OrderType, orderClass: OrderClass,
    limitPrice: Option<int>, stopPrice: Option<int>, takeProfit: Option<int>, stopLoss: Option<int>,
    parent: Option<string>)

  /** A stop leg is of the stop or the stop-limit type. */
  datatype LegKind = LimitLeg | StopLeg | OtherLeg

  datatype Leg = Leg(sell: bool, kind: LegKind, quantity: real, limitPrice: Option<int>, stopPrice: Option<int>)

  datatype Snapshot = Snapshot(
    snapshotId: string, brokerOrderId: string, clientOrderId: string, symbol: string,
    side: Side, orderType: OrderType, day: bool, orderClass: OrderClass,
    status: OrderStatus, quantity: real, filled: real,
    limitPrice: Option<int>, stopPrice: Option<int>, legs: seq<Leg>, updatedAt: int, rawHash: string)

  datatype TradeUpdate = TradeUpdate(eventId: string, at: int, order: Snapshot, rawHash: string)

  datatype EventType =
    | RequestAccepted | CommandPersisted | BrokerLookup | SubmitStarted | BrokerAcknowledged | TradeUpdated
    | CancelRequested | ProtectiveStopStarted | ProtectiveStopAcknowledged | RejectedEvent | ReconciliationEvent

  datatype Event = Event(sequence: int, kind: EventType)

  datatype Code =
    | PaperModeRequired | DecisionNotApproved | ReservationMissing | ReservationExpired | CutoffExceeded
    | RequestStale | InvalidGeometry | IdentityConflict | OrderMismatch | RejectedByBroker
    | TimeoutUnknownState | TransportFailure | ProtectionFailed

  datatype Outcome = Submitted | ExistingReconciled | PartialFillProtected | Rejected | ReconciliationRequired

  datatype ExecResult = ExecResult(
    outcome: Outcome, reason: Option<Code>, command: Option<Command>, order: Option<Snapshot>,
    protective: Option<Snapshot>, reconcile: bool)

  /** `Crashed` is an exception that leaves the service: a collision in the repository. */
  datatype Reply = Returned(result: ExecResult) | Crashed

  // ---------- building commands ----------

  datatype BuildError =
    | NotApproved | NoReservation | NotReserved | PastCutoff | PastExpiry | QuantityDiffers | NoPrices | BadShape

  datatype Built = BuiltCommand(command: Command) | Failed(error: BuildError)

  predicate ValidCommand(c: Command) {
    && 1 <= |c.clientOrderId| <= 48
    && c.quantity > 0
    && (c.limitPrice.Some? ==> c.limitPrice.value > 0) && (c.stopPrice.Some? ==> c.stopPrice.value > 0)
    && (c.takeProfit.Some? ==> c.takeProfit.value > 0) && (c.stopLoss.Some? ==> c.stopLoss.value > 0)
    && match c.orderClass
       case Bracket =>
         && c.side == Buy && c.orderType == Limit
         && c.limitPrice.Some? && c.takeProfit.Some? && c.stopLoss.Some?
         && c.stopLoss.value < c.limitPrice.value < c.takeProfit.value
       case Simple =>
         c.orderType == Stop && c.side == Sell && c.stopPrice.Some? && c.limitPrice.None?
  }

  function Checked(c: Command): Built {
    if ValidCommand(c) then BuiltCommand(c) else Failed(BadShape)
  }

  /** The decision is approved, its reservation holds its shares and is in time, and its prices make a bracket. */
  predicate Orderable(request: Request, now: int) {
    var d := request.decision;
    && d.approved && d.reservation.Some? && d.reservation.value.status == Reserved
    && now <= request.cutoff && now < d.reservation.value.expiresAt
    && d.quantity == d.reservation.value.quantity && d.quantity > 0
    && 1 <= |d.reservation.value.clientOrderId| <= 48
    && d.entryLimit.Some? && d.stopPrice.Some? && d.targetPrice.Some?
    && 0 < d.stopPrice.value < d.entryLimit.value < d.targetPrice.value
  }

  /** A limit bracket for exactly the shares and prices of the decision, under the id of its reservation. */
  predicate AsDecided(request: Request, c: Command) {
    var d := request.decision;
    && c.executionId == request.executionId
    && d.reservation.Some? && c.clientOrderId == d.reservation.value.clientOrderId
    && c.symbol == d.ticker && c.quantity == d.quantity
    && c.side == Buy && c.orderType == Limit && c.orderClass == Bracket
    && d.entryLimit.Some? && d.targetPrice.Some? && d.stopPrice.Some?
    && c.limitPrice == d.entryLimit && c.takeProfit == d.targetPrice && c.stopLoss == d.stopPrice && c.stopPrice == None
    && c.parent == None
  }

  function EntryCommand(request: Request, now: int): (r: Built)
    ensures r.BuiltCommand? <==> Orderable(request, now)
    ensures r.BuiltCommand? ==> AsDecided(request, r.command)
  {
    var d := request.decision;
    if !d.approved then Failed(NotApproved)
    else if d.reservation.None? then Failed(NoReservation)
    else if d.reservation.value.status != Reserved then Failed(NotReserved)
    else if now > request.cutoff then Failed(PastCutoff)
    else if now >= d.reservation.value.expiresAt then Failed(PastExpiry)
    else if d.quantity != d.reservation.value.quantity then Failed(QuantityDiffers)
    else if d.entryLimit.None? || d.stopPrice.None? || d.targetPrice.None? then Failed(NoPrices)
    else
      Checked(Command(request.executionId, d.reservation.value.clientOrderId, d.ticker, d.quantity, Buy, Limit, Bracket,
                      d.entryLimit, None, d.targetPrice, d.stopPrice, None))
  }

  /** The service reads the reason off the words of the message: "cutoff", then "expired", then "approved",
      then "reservation". A missing reservation therefore reports the decision as not approved. */
  function RejectionFor(error: BuildError): Code {
    match error
    case PastCutoff => CutoffExceeded
    case PastExpiry => ReservationExpired
    case NotApproved => DecisionNotApproved
    case NoReservation => DecisionNotApproved
    case NotReserved => ReservationMissing
    case QuantityDiffers => ReservationMissing
    case NoPrices => InvalidGeometry
    case BadShape => InvalidGeometry
  }

  function ProtectiveId(parent: string): string {
    (if |parent| > 46 then parent[..46] else parent) + "-P"
  }

  /** A sell stop for the given shares at the decided stop price, under an id derived from the entry's. */
  predicate StopsAt(request: Request, c: Command, filled: int) {
    var d := request.decision;
    && c.executionId == request.executionId && c.symbol == d.ticker && c.quantity == filled
    && c.side == Sell && c.orderType == Stop && c.orderClass == Simple
    && d.stopPrice.Some? && c.stopPrice == d.stopPrice && c.limitPrice == None
    && d.reservation.Some? && c.parent == Some(d.reservation.value.clientOrderId)
    && 2 <= |c.clientOrderId| <= 48 && "-P" == c.clientOrderId[|c.clientOrderId| - 2..]
    && c.clientOrderId[..|c.clientOrderId| - 2] <= d.reservation.value.clientOrderId
    && (|c.clientOrderId| < 48 ==> c.clientOrderId[..|c.clientOrderId| - 2] == d.reservation.value.clientOrderId)
  }

  function ProtectiveStop(request: Request, filled: int): (r: Built)
    ensures r.BuiltCommand? <==> filled > 0 && request.decision.reservation.Some? && request.decision.stopPrice.Some?
                                 && request.decision.stopPrice.value > 0
    ensures r.BuiltCommand? ==> StopsAt(request, r.command, filled)
  {
    var d := request.decision;
    if filled <= 0 || d.stopPrice.None? || d.reservation.None? then Failed(BadShape)
    else
      var parent := d.reservation.value.clientOrderId;
      Checked(Command(request.executionId, ProtectiveId(parent), d.ticker, filled, Sell, Stop, Simple,
                      None, d.stopPrice, None, None, Some(parent)))
  }

  // ---------- comparing an order with its command ----------

  function CountLegs(legs: seq<Leg>, p: Leg -> bool): nat {
    |Filter(p, legs)|
  }

  predicate Matches(c: Command, o: Snapshot) {
    && (c.limitPrice.Some? ==> o.limitPrice == c.limitPrice)
    && (c.stopPrice.Some? ==> o.stopPrice == c.stopPrice)
    && c.clientOrderId == o.clientOrderId && c.symbol == o.symbol && c.side == o.side
    && c.orderType == o.orderType && o.day && c.orderClass == o.orderClass
    && c.quantity as real == o.quantity
    && (c.orderClass == Bracket ==>
          && |o.legs| == 2
          && CountLegs(o.legs, TakeProfitLeg(c)) == 1
          && CountLegs(o.legs, StopLossLeg(c)) == 1)
  }

  function TakeProfitLeg(c: Command): Leg -> bool {
    (l: Leg) => l.sell && l.kind == LimitLeg && l.limitPrice == c.takeProfit && l.quantity == c.quantity as real
  }

  function StopLossLeg(c: Command): Leg -> bool {
    (l: Leg) => l.sell && l.kind == StopLeg && l.stopPrice == c.stopLoss && l.quantity == c.quantity as real
  }

  /** An order matches a bracket exactly when its fields are the command's and it has two legs, both selling the full
      quantity, one at each protective price, in either order. */
  lemma MatchedBracketIsProtected(c: Command, o: Snapshot)
    requires c.orderClass == Bracket
    ensures Matches(c, o) <==>
            && o.clientOrderId == c.clientOrderId && o.symbol == c.symbol && o.side == c.side && o.orderType == c.orderType
            && o.day && o.orderClass == Bracket && o.quantity == c.quantity as real
            && (c.limitPrice.Some? ==> o.limitPrice == c.limitPrice) && (c.stopPrice.Some? ==> o.stopPrice == c.stopPrice)
            && |o.legs| == 2
            && ((TakeProfitLeg(c)(o.legs[0]) && StopLossLeg(c)(o.legs[1]))
                || (StopLossLeg(c)(o.legs[0]) && TakeProfitLeg(c)(o.legs[1])))
  {
    if |o.legs| == 2 {
      var a, b := o.legs[0], o.legs[1];
      assert o.legs == [a, b];
      TwoLegs(a, b, TakeProfitLeg(c));
      TwoLegs(a, b, StopLossLeg(c));
    }
  }

  lemma TwoLegs(a: Leg, b: Leg, p: Leg -> bool)
    ensures CountLegs([a, b], p) == (if p(a) then 1 else 0) + (if p(b) then 1 else 0)
  {
    assert Filter(p, [b]) == if p(b) then [b] else [];
    assert [a, b][1..] == [b];
  }

  const STANDING := {Accepted, AcceptedForBidding, PendingNew, New, PartiallyFilled, Filled, Replaced, PendingCancel, Calculated}

  /** The states in which an order was neither refused nor ended, nor is to be reconciled. */
  lemma StandingStates(o: Snapshot)
    ensures !TerminalRejection(o) && !NeedsReconciliation(o) <==> o.status in STANDING
  {
    match o.status {
      case Accepted | AcceptedForBidding | PendingNew | New | PartiallyFilled | Filled =>
      case Replaced | PendingCancel | Calculated =>
      case DoneForDay | Canceled | Expired | PendingReplace | Stopped | BrokerRejected | Suspended =>
    }
  }

  /** What the broker shows of an order that is the decision's: its fields, its two legs, and a state in which it was
      neither refused nor ended without a fill, nor is it in one the service does not understand. */
  predicate ShowsDecided(request: Request, o: Snapshot) {
    var d := request.decision;
    && d.reservation.Some? && o.clientOrderId == d.reservation.value.clientOrderId
    && o.symbol == d.ticker && o.quantity == d.quantity as real && o.day
    && o.side == Buy && o.orderType == Limit && o.orderClass == Bracket && d.entryLimit.Some? && o.limitPrice == d.entryLimit
    && |o.legs| == 2
    && ((TakesProfit(d, o.legs[0]) && StopsLoss(d, o.legs[1])) || (TakesProfit(d, o.legs[1]) && StopsLoss(d, o.legs[0])))
    && o.status in STANDING
  }

  predicate TakesProfit(d: Decision, l: Leg) {
    l.sell && l.kind == LimitLeg && l.quantity == d.quantity as real && l.limitPrice == d.targetPrice
  }

  predicate StopsLoss(d: Decision, l: Leg) {
    l.sell && l.kind == StopLeg && l.quantity == d.quantity as real && l.stopPrice == d.stopPrice
  }

  /** An order stands for the decision's entry exactly when it shows what was decided. */
  lemma StandingShowsDecided(request: Request, c: Command, o: Snapshot)
    requires AsDecided(request, c)
    ensures Standing(c, o) <==> ShowsDecided(request, o)
  {
    MatchedBracketIsProtected(c, o);
    StandingStates(o);
  }

  predicate TerminalRejection(o: Snapshot) {
    o.status in {BrokerRejected, Canceled, Expired}
  }

  predicate NeedsReconciliation(o: Snapshot) {
    o.status in {DoneForDay, Suspended, Stopped, PendingReplace}
  }

  /** The order is as commanded and neither rejected nor in a state the service does not understand. */
  predicate Standing(c: Command, o: Snapshot) {
    Matches(c, o) && !TerminalRejection(o) && !NeedsReconciliation(o)
  }

  // ---------- the broker ----------

  datatype Lookup = Found(order: Snapshot) | NotFound | Unreachable

  datatype PostReply = Acknowledged(order: Snapshot) | PostFailed(transient: bool)

  /** One POST: its command and the command store at that moment. */
  datatype Posting = Posting(command: Command, stored: map<string, Command>)

  /** An order read back by its broker id, and the cancellations requested by then. */
  datatype ReadBack = ReadBack(brokerOrderId: string, order: Snapshot, cancels: seq<string>)

  /** `orders` lists every order that ever came into existence, in order; the broker itself drops no duplicates. */
  class Broker {
    var orders: seq<Command>
    ghost var postings: seq<Posting>
    ghost var cancels: seq<string>
    ghost var fetched: seq<ReadBack>

    constructor ()
      ensures orders == [] && postings == [] && cancels == [] && fetched == []
    {
      orders, postings, cancels, fetched := [], [], [], [];
    }

    predicate Exists(clientOrderId: string)
      reads this`orders
    {
      exists k :: 0 <= k < |orders| && orders[k].clientOrderId == clientOrderId
    }

    /** Truthful: it may be unreachable, but what it answers about existence is so. */
    method ByClientId(clientOrderId: string) returns (r: Lookup)
      ensures r.Found? ==> Exists(clientOrderId) && r.order.clientOrderId == clientOrderId
      ensures r.NotFound? ==> !Exists(clientOrderId)
    {
      var reachable: bool := *;
      var snapshot: Snapshot := *;
      if !reachable {
        return Unreachable;
      }
      if Exists(clientOrderId) {
        r := Found(snapshot.(clientOrderId := clientOrderId));
      } else {
        r := NotFound;
      }
    }

    /** Atomic, but it may report failure after the order came into existence. */
    method Post(command: Command, ghost stored: map<string, Command>) returns (r: PostReply)
      modifies this`orders, this`postings
      ensures postings == old(postings) + [Posting(command, stored)]
      ensures orders == old(orders) + [command] || (r.PostFailed? && orders == old(orders))
    {
      var snapshot: Snapshot, effective: bool, reported: bool, transient: bool := *, *, *, *;
      postings := postings + [Posting(command, stored)];
      if effective {
        orders := orders + [command];
      }
      if effective && reported {
        r := Acknowledged(snapshot);
      } else {
        r := PostFailed(transient);
      }
    }

    method CancelOrder(brokerOrderId: string) returns (ok: bool)
      modifies this`cancels
      ensures cancels == old(cancels) + [brokerOrderId]
    {
      cancels := cancels + [brokerOrderId];
      ok := *;
    }

    method GetOrder(brokerOrderId: string) returns (r: Lookup)
      modifies this`fetched
      ensures r.Found? ==> fetched == old(fetched) + [ReadBack(brokerOrderId, r.order, cancels)]
      ensures !r.Found? ==> fetched == old(fetched)
    {
      var reachable: bool := *;
      var snapshot: Snapshot := *;
      if reachable {
        fetched := fetched + [ReadBack(brokerOrderId, snapshot, cancels)];
        r := Found(snapshot);
      } else {
        r := Unreachable;
      }
    }
  }

  // ---------- the repository ----------

  function EventsOf(events: map<string, seq<Event>>, executionId: string): seq<Event> {
    if executionId in events then events[executionId] else []
  }

  ghost predicate Contiguous(events: map<string, seq<Event>>) {
    forall e, k :: e in events && 0 <= k < |events[e]| ==> events[e][k].sequence == k + 1
  }

  /** In-memory repository; a method that returns false raised. */
  class Repository {
    var requests: map<string, Request>
    var commands: map<string, Command>
    var events: map<string, seq<Event>>
    var claims: map<string, (string, string)>

    constructor ()
      ensures requests == map[] && commands == map[] && events == map[] && claims == map[]
    {
      requests, commands, events, claims := map[], map[], map[], map[];
    }

    method SaveRequest(request: Request) returns (ok: bool)
      modifies this`requests
      ensures ok <==> request.executionId in old(requests) ==> old(requests)[request.executionId] == request
      ensures requests == if ok then old(requests)[request.executionId := request] else old(requests)
    {
      if request.executionId in requests && requests[request.executionId] != request {
        return false;
      }
      requests := requests[request.executionId := request];
      ok := true;
    }

    method SaveCommand(command: Command) returns (ok: bool)
      modifies this`commands
      ensures ok <==> command.clientOrderId in old(commands) ==> old(commands)[command.clientOrderId] == command
      ensures commands == if ok then old(commands)[command.clientOrderId := command] else old(commands)
    {
      if command.clientOrderId in commands && commands[command.clientOrderId] != command {
        return false;
      }
      commands := commands[command.clientOrderId := command];
      ok := true;
    }

    function GetCommand(clientOrderId: string): Option<Command>
      reads this`commands
    {
      if clientOrderId in commands then Some(commands[clientOrderId]) else None
    }

    method AppendEvent(executionId: string, event: Event) returns (ok: bool)
      modifies this`events
      ensures ok <==> event.sequence ==
                      var items := EventsOf(old(events), executionId);
                      if items == [] then 1 else items[|items| - 1].sequence + 1
      ensures events == if ok then old(events)[executionId := EventsOf(old(events), executionId) + [event]] else old(events)
    {
      var items := EventsOf(events, executionId);
      if items != [] && event.sequence != items[|items| - 1].sequence + 1 {
        return false;
      }
      if items == [] && event.sequence != 1 {
        return false;
      }
      events := events[executionId := items + [event]];
      ok := true;
    }

    function NextEventSequence(executionId: string): int
      reads this`events
    {
      |EventsOf(events, executionId)| + 1
    }

    /** None: the id was claimed for a different update. */
    method ClaimTradeUpdate(eventId: string, executionId: string, rawHash: string) returns (r: Option<bool>)
      modifies this`claims
      ensures r == if eventId !in old(claims) then Some(true)
                   else if old(claims)[eventId] == (executionId, rawHash) then Some(false) else None
      ensures claims == if eventId !in old(claims) then old(claims)[eventId := (executionId, rawHash)] else old(claims)
    {
      if eventId in claims {
        if claims[eventId] != (executionId, rawHash) {
          return None;
        }
        return Some(false);
      }
      claims := claims[eventId := (executionId, rawHash)];
      r := Some(true);
    }
  }

  // ---------- the coordinator ----------

  ghost predicate Once(orders: seq<Command>) {
    forall i, j :: 0 <= i < j < |orders| ==> orders[i].clientOrderId != orders[j].clientOrderId
  }

  ghost predicate IsStored(c: Command, commands: map<string, Command>) {
    c.clientOrderId in commands && commands[c.clientOrderId] == c
  }

  ghost predicate AllStored(orders: seq<Command>, commands: map<string, Command>) {
    forall k :: 0 <= k < |orders| ==> IsStored(orders[k], commands)
  }

  ghost predicate StoredFirst(postings: seq<Posting>) {
    forall k :: 0 <= k < |postings| ==> IsStored(postings[k].command, postings[k].stored)
  }

  ghost predicate Keeps<K(!new), V>(a: map<K, V>, b: map<K, V>) {
    forall k :: k in a ==> k in b && b[k] == a[k]
  }

  ghost predicate Lengthens(a: map<string, seq<Event>>, b: map<string, seq<Event>>) {
    forall e :: e in a ==> e in b && a[e] <= b[e]
  }

  /** With at most one order per client id, an order is the only one carrying its id. */
  lemma {:induction false} OnceMeansAtMostOne(orders: seq<Command>, id: string)
    requires Once(orders)
    ensures |Filter((c: Command) => c.clientOrderId == id, orders)| <= 1
  {
    if orders != [] {
      var rest := orders[1..];
      forall i, j | 0 <= i < j < |rest| ensures rest[i].clientOrderId != rest[j].clientOrderId {
        assert orders[i + 1].clientOrderId != orders[j + 1].clientOrderId;
      }
      OnceMeansAtMostOne(rest, id);
      if orders[0].clientOrderId == id {
        forall c | c in rest ensures c.clientOrderId != id {
          var k :| 0 <= k < |rest| && rest[k] == c;
          assert orders[0].clientOrderId != orders[k + 1].clientOrderId;
        }
        EmptyOrInhabited(Filter((c: Command) => c.clientOrderId == id, rest));
      }
    }
  }

  class ExecutionService {
    const broker: Broker
    const repository: Repository

    constructor (broker: Broker, repository: Repository)
      ensures this.broker == broker && this.repository == repository
    {
      this.broker, this.repository := broker, repository;
    }

    /** At most one order per client id ever exists, each order's command is stored, each was stored before
        its POST, and every execution's events are numbered from one without gaps. */
    ghost predicate Valid()
      reads broker, repository
    {
      && Once(broker.orders)
      && AllStored(broker.orders, repository.commands)
      && StoredFirst(broker.postings)
      && Contiguous(repository.events)
    }

    /** Nothing recorded is ever changed or removed. */
    twostate predicate Grows()
      reads broker, repository
    {
      && old(broker.orders) <= broker.orders
      && old(broker.postings) <= broker.postings
      && Keeps(old(repository.requests), repository.requests)
      && Keeps(old(repository.commands), repository.commands)
      && Keeps(old(repository.claims), repository.claims)
      && Lengthens(old(repository.events), repository.events)
    }

    twostate predicate BrokerUntouched()
      reads broker
    {
      broker.orders == old(broker.orders) && broker.postings == old(broker.postings)
      && broker.cancels == old(broker.cancels) && broker.fetched == old(broker.fetched)
    }

    /** The next number always fits: an event append never raises. */
    method LogEvent(request: Request, kind: EventType)
      requires Contiguous(repository.events)
      modifies repository`events
      ensures Contiguous(repository.events) && Lengthens(old(repository.events), repository.events)
      ensures EventsOf(repository.events, request.executionId) ==
              old(EventsOf(repository.events, request.executionId)) +
              [Event(|old(EventsOf(repository.events, request.executionId))| + 1, kind)]
    {
      var sequence := repository.NextEventSequence(request.executionId);
      var ok := repository.AppendEvent(request.executionId, Event(sequence, kind));
      assert ok;
    }

    /** A POST that a truthful lookup just found unused, for a stored command. */
    method PostOnce(command: Command) returns (r: PostReply)
      requires Valid() && IsStored(command, repository.commands) && !broker.Exists(command.clientOrderId)
      modifies broker`orders, broker`postings
      ensures Valid() && old(broker.orders) <= broker.orders
      ensures broker.orders == old(broker.orders) || broker.orders == old(broker.orders) + [command]
      ensures r.Acknowledged? ==> broker.orders == old(broker.orders) + [command]
      ensures broker.postings == old(broker.postings) + [Posting(command, repository.commands)]
    {
      ghost var before := broker.orders;
      r := broker.Post(command, repository.commands);
      forall k | 0 <= k < |before| ensures before[k].clientOrderId != command.clientOrderId {
        assert old(broker.Exists(command.clientOrderId)) == false;
      }
    }

    function Reject(code: Code): Reply {
      Returned(ExecResult(Rejected, Some(code), None, None, None, false))
    }

    function Reconcile(code: Code, command: Option<Command>, order: Option<Snapshot>): Reply {
      Returned(ExecResult(ReconciliationRequired, Some(code), command, order, None, true))
    }

    function Done(outcome: Outcome, command: Command, order: Snapshot): Reply {
      Returned(ExecResult(outcome, None, Some(command), Some(order), None, false))
    }

    ghost predicate PartialFill(request: Request, order: Snapshot) {
      order.status == PartiallyFilled && order.filled > 0.0 && request.policy.protectPartialFills
    }

    method Submit(request: Request, now: int) returns (r: Reply)
      requires Valid()
      modifies broker, repository
      ensures Valid() && Grows()
      // only this execution's own commands are posted: first the decision's entry, at most once, and then only sells
      ensures OwnPostings(request, |old(broker.postings)|) && BuysAsDecided(request, |old(broker.postings)|)
      // a request that is late, stale, unapproved or not for paper reaches no broker call and is told why
      ensures !Admissible(request, now) ==> BrokerUntouched()
      ensures !Admissible(request, now) ==> r == if Differs(request, old(repository.requests)) then Crashed
                                                 else Reject(RejectionOf(request, now))
      // nor is the entry posted against another stored command or once an order with its id exists
      ensures Taken(request, old(repository.commands)) ==>
                broker.orders == old(broker.orders) && broker.postings == old(broker.postings)
      ensures old(HasOrder(request)) ==>
                forall k :: |old(broker.postings)| <= k < |broker.postings| ==> broker.postings[k].command.side == Sell
      // success means the order exists and stands as decided
      ensures r.Returned? && r.result.outcome in {Submitted, ExistingReconciled} ==>
                && r.result.command.Some? && AsDecided(request, r.result.command.value)
                && Succeeds(request, r.result.command.value, r.result, old(repository.claims))
                && ShowsDecided(request, r.result.order.value)
      ensures r.Returned? && r.result.outcome == PartialFillProtected ==> Protected(request, r.result)
    {
      hide Protected, Once, AllStored, StoredFirst, RejectionFor, ValidCommand, EntryCommand, Matches, ShowsDecided,
        TerminalRejection, NeedsReconciliation, PartialFill;
      var saved := repository.SaveRequest(request);
      if !saved {
        return Crashed;
      }
      LogEvent(request, RequestAccepted);
      if !request.policy.paper || request.policy.allowLive {
        LogEvent(request, RejectedEvent);
        return Reject(PaperModeRequired);
      }
      var age := now - request.requestedAt;
      if age < 0 || age > request.policy.maxRequestAgeMs {
        LogEvent(request, RejectedEvent);
        return Reject(RequestStale);
      }
      var built := EntryCommand(request, now);
      if built.Failed? {
        RejectionReads(request, now);
        LogEvent(request, RejectedEvent);
        return Reject(RejectionFor(built.error));
      }
      var command := built.command;
      var existingLocal := repository.GetCommand(command.clientOrderId);
      if existingLocal.Some? && existingLocal.value != command {
        return Reconcile(IdentityConflict, Some(command), None);
      }
      r := Execute(request, command, now);
      if r.Returned? && r.result.outcome in {Submitted, ExistingReconciled} {
        StandingShowsDecided(request, command, r.result.order.value);
      }
    }

    lemma RejectionReads(request: Request, now: int)
      requires EntryCommand(request, now).Failed?
      requires request.policy.paper && !request.policy.allowLive
      requires 0 <= now - request.requestedAt <= request.policy.maxRequestAgeMs
      ensures !Admissible(request, now) && RejectionFor(EntryCommand(request, now).error) == RejectionOf(request, now)
    {
    }

    /** Persists the command, looks it up at the broker, and posts it only if the lookup found nothing. */
    method Execute(request: Request, command: Command, now: int) returns (r: Reply)
      requires Valid() && !Conflicts(command, repository.commands)
      requires AsDecided(request, command)
      modifies broker, repository`commands, repository`events, repository`claims
      ensures Valid() && Grows() && OwnPostings(request, |old(broker.postings)|)
      ensures BuysAsDecided(request, |old(broker.postings)|)
      ensures old(broker.Exists(command.clientOrderId)) ==>
                forall k :: |old(broker.postings)| <= k < |broker.postings| ==> broker.postings[k].command.side == Sell
      ensures r.Returned? && r.result.outcome in {Submitted, ExistingReconciled} ==>
                Succeeds(request, command, r.result, old(repository.claims))
      ensures r.Returned? && r.result.outcome == PartialFillProtected ==> Protected(request, r.result)
    {
      Persist(request, command);
      var existing := broker.ByClientId(command.clientOrderId);
      match existing {
        case Unreachable =>
          r := Reconcile(TransportFailure, Some(command), None);
        case Found(order) =>
          OnlyMyOrder(command);
          r := Settle(request, command, order, now, ExistingReconciled);
        case NotFound =>
          r := PostAndSettle(request, command, now);
      }
    }

    method Persist(request: Request, command: Command)
      requires Valid() && !Conflicts(command, repository.commands)
      modifies repository`commands, repository`events
      ensures Valid() && IsStored(command, repository.commands)
      ensures Keeps(old(repository.commands), repository.commands)
      ensures Lengthens(old(repository.events), repository.events)
    {
      var stored := repository.SaveCommand(command);
      assert stored;
      LogEvent(request, CommandPersisted);
      LogEvent(request, BrokerLookup);
    }

    method PostAndSettle(request: Request, command: Command, now: int) returns (r: Reply)
      requires Valid() && IsStored(command, repository.commands) && !broker.Exists(command.clientOrderId)
      requires AsDecided(request, command)
      modifies broker, repository`commands, repository`events, repository`claims
      ensures Valid() && Grows() && OwnPostings(request, |old(broker.postings)|)
      ensures BuysAsDecided(request, |old(broker.postings)|)
      ensures r.Returned? && r.result.outcome in {Submitted, ExistingReconciled} ==>
                Succeeds(request, command, r.result, old(repository.claims))
      ensures r.Returned? && r.result.outcome == PartialFillProtected ==> Protected(request, r.result)
    {
      hide Protected, StoredFirst, Once, AllStored, Succeeds;
      LogEvent(request, SubmitStarted);
      var posted := PostOnce(command);
      var order: Snapshot;
      if posted.PostFailed? {
        if !posted.transient {
          return Returned(ExecResult(Rejected, Some(RejectedByBroker), Some(command), None, None, false));
        }
        var second := broker.ByClientId(command.clientOrderId);
        if !second.Found? {
          LogEvent(request, ReconciliationEvent);
          return Reconcile(TimeoutUnknownState, Some(command), None);
        }
        order := second.order;
        OnlyMyOrder(command);
      } else {
        order := posted.order;
        assert command == broker.orders[|broker.orders| - 1];
      }
      r := Settle(request, command, order, now, Submitted);
    }

    /** An order with the id of a stored command is that command's order. */
    lemma OnlyMyOrder(command: Command)
      requires Valid() && IsStored(command, repository.commands) && broker.Exists(command.clientOrderId)
      ensures command in broker.orders
    {
      var k :| 0 <= k < |broker.orders| && broker.orders[k].clientOrderId == command.clientOrderId;
      assert IsStored(broker.orders[k], repository.commands);
    }

    /** What follows once the broker has shown an order for the command. */
    method Settle(request: Request, command: Command, order: Snapshot, now: int, success: Outcome) returns (r: Reply)
      requires Valid() && IsStored(command, repository.commands) && success in {Submitted, ExistingReconciled}
      requires command.executionId == request.executionId && command in broker.orders
      modifies broker, repository`commands, repository`events, repository`claims
      ensures Valid() && Grows() && OwnPostings(request, |old(broker.postings)|)
      ensures forall k :: |old(broker.postings)| <= k < |broker.postings| ==> broker.postings[k].command.side == Sell
      ensures r.Returned? && r.result.outcome == Submitted ==> success == Submitted && r.result.order == Some(order)
      ensures r.Returned? && r.result.outcome in {Submitted, ExistingReconciled} ==>
                Succeeds(request, command, r.result, old(repository.claims))
      ensures r.Returned? && r.result.outcome == PartialFillProtected ==> Protected(request, r.result)
    {
      hide Protected, StoredFirst, Once, AllStored;
      LogEvent(request, BrokerAcknowledged);
      if !Matches(command, order) {
        return Reconcile(OrderMismatch, Some(command), Some(order));
      }
      if TerminalRejection(order) {
        return Returned(ExecResult(Rejected, Some(RejectedByBroker), Some(command), Some(order), None, false));
      }
      if NeedsReconciliation(order) {
        return Reconcile(TransportFailure, Some(command), Some(order));
      }
      if order.status == PartiallyFilled && order.filled > 0.0 && request.policy.protectPartialFills {
        var update := TradeUpdate("initial-" + order.snapshotId, order.updatedAt, order, order.rawHash);
        r := HandleTradeUpdate(request, update);
        return;
      }
      r := Done(success, command, order);
    }

    method HandleTradeUpdate(request: Request, update: TradeUpdate) returns (r: Reply)
      requires Valid()
      modifies broker, repository`commands, repository`events, repository`claims
      ensures Valid() && Grows() && OwnPostings(request, |old(broker.postings)|)
      // a delivered update is acted on once, and only a partial fill of a known order is: it is canceled
      ensures if update.eventId !in old(repository.claims) && update.order.clientOrderId in old(repository.commands)
                 && PartialFill(request, update.order)
              then broker.cancels == old(broker.cancels) + [update.order.brokerOrderId]
              else BrokerUntouched()
      ensures r.Returned? ==> update.eventId in repository.claims
      // the only thing ever posted is the protective stop for a confirmed-canceled parent, for exactly its fill
      ensures broker.postings == old(broker.postings) ||
              (|broker.postings| == |old(broker.postings)| + 1
               && ProtectsParent(request, update, broker.postings[|old(broker.postings)|].command))
      ensures r.Returned? ==> r.result.outcome != Submitted
      ensures r.Returned? && r.result.outcome == PartialFillProtected ==>
                Protected(request, r.result) && Confirmed(update, r.result.order.value)
      // otherwise the update needs no protection, or its parent turned out to be filled as commanded
      ensures r.Returned? && r.result.outcome == ExistingReconciled ==>
                && update.order.clientOrderId in repository.commands
                && Reconciled(request, repository.commands[update.order.clientOrderId], update, r.result, old(repository.claims))
    {
      var claimed := repository.ClaimTradeUpdate(update.eventId, request.executionId, update.rawHash);
      if claimed.None? {
        return Crashed;
      }
      var command := repository.GetCommand(update.order.clientOrderId);
      if command.None? {
        return Reconcile(IdentityConflict, None, Some(update.order));
      }
      if !claimed.value {
        return Done(ExistingReconciled, command.value, update.order);
      }
      LogEvent(request, TradeUpdated);
      if update.order.status == PartiallyFilled && update.order.filled > 0.0 && request.policy.protectPartialFills {
        LogEvent(request, CancelRequested);
        r := Protect(request, command.value, update);
      } else {
        r := Done(ExistingReconciled, command.value, update.order);
      }
    }

    /** Cancels the parent and, once that is confirmed, replaces its lost bracket by a stop for the final fill. */
    method Protect(request: Request, command: Command, update: TradeUpdate) returns (r: Reply)
      requires Valid()
      modifies broker, repository`commands, repository`events, repository`claims
      ensures Valid() && Grows() && OwnPostings(request, |old(broker.postings)|)
      ensures repository.claims == old(repository.claims)
      ensures broker.cancels == old(broker.cancels) + [update.order.brokerOrderId]
      ensures broker.postings == old(broker.postings) ||
              (|broker.postings| == |old(broker.postings)| + 1
               && ProtectsParent(request, update, broker.postings[|old(broker.postings)|].command))
      ensures r.Returned? ==> r.result.outcome != Submitted
      ensures r.Returned? && r.result.outcome == PartialFillProtected ==>
                Protected(request, r.result) && Confirmed(update, r.result.order.value)
      ensures r.Returned? && r.result.outcome == ExistingReconciled ==> FilledInstead(command, update, r.result)
      ensures Keeps(old(repository.commands), repository.commands)
    {
      var failed := Reconcile(ProtectionFailed, Some(command), Some(update.order));
      var canceled := broker.CancelOrder(update.order.brokerOrderId);
      if !canceled {
        return failed;
      }
      var final := broker.GetOrder(update.order.brokerOrderId);
      if !final.Found? {
        return failed;
      }
      var parent := final.order;
      if parent.status == Filled {
        return if Matches(command, parent) then Done(ExistingReconciled, command, parent) else failed;
      }
      if parent.status != Canceled || parent.filled <= 0.0 || parent.filled != parent.filled.Floor as real {
        return failed;
      }
      r := PlaceStop(request, command, parent, failed);
    }

    method PlaceStop(request: Request, command: Command, parent: Snapshot, failed: Reply) returns (r: Reply)
      requires Valid() && parent.status == Canceled && parent.filled == parent.filled.Floor as real
      requires failed.Returned? && failed.result.outcome == ReconciliationRequired
      modifies broker`orders, broker`postings, repository`commands, repository`events
      ensures Valid() && Grows()
      ensures broker.postings == old(broker.postings) ||
              (|broker.postings| == |old(broker.postings)| + 1
               && StopFor(request, parent, broker.postings[|old(broker.postings)|].command))
      ensures r.Returned? ==> r.result.outcome in {ReconciliationRequired, PartialFillProtected}
      ensures r.Returned? && r.result.outcome == PartialFillProtected ==>
                Protected(request, r.result) && r.result.order == Some(parent)
    {
      var built := ProtectiveStop(request, parent.filled.Floor);
      if built.Failed? {
        return failed;
      }
      var stop := built.command;
      var stored := repository.SaveCommand(stop);
      if !stored {
        return Crashed;
      }
      LogEvent(request, ProtectiveStopStarted);
      r := ConfirmStop(request, command, parent, stop, failed);
    }

    /** Finds the stored stop at the broker or posts it, and confirms that the order is the stop. */
    method ConfirmStop(request: Request, command: Command, parent: Snapshot, stop: Command, failed: Reply) returns (r: Reply)
      requires Valid() && IsStored(stop, repository.commands) && parent.status == Canceled
      requires StopFor(request, parent, stop)
      requires failed.Returned? && failed.result.outcome == ReconciliationRequired
      modifies broker`orders, broker`postings, repository`events
      ensures Valid() && old(broker.orders) <= broker.orders && Lengthens(old(repository.events), repository.events)
      ensures broker.postings == old(broker.postings) ||
              broker.postings == old(broker.postings) + [Posting(stop, repository.commands)]
      ensures r.Returned? && r.result.outcome in {ReconciliationRequired, PartialFillProtected}
      ensures r.result.outcome == PartialFillProtected ==> Protected(request, r.result) && r.result.order == Some(parent)
    {
      var existing := broker.ByClientId(stop.clientOrderId);
      var protective: Snapshot;
      if existing.Unreachable? {
        return failed;
      } else if existing.Found? {
        protective := existing.order;
        OnlyMyOrder(stop);
      } else {
        var posted := PostOnce(stop);
        if posted.PostFailed? {
          return failed;
        }
        protective := posted.order;
        assert stop == broker.orders[|broker.orders| - 1];
      }
      if !Matches(stop, protective) {
        return failed;
      }
      LogEvent(request, ProtectiveStopAcknowledged);
      r := Returned(ExecResult(PartialFillProtected, None, Some(command), Some(parent), Some(protective), true));
    }

    // ---------- the words of the contracts ----------

    /** Another request was saved under this execution's id. */
    predicate Differs(request: Request, requests: map<string, Request>) {
      request.executionId in requests && requests[request.executionId] != request
    }

    /** Why a request is rejected that is not admissible: the first of these that applies. */
    function RejectionOf(request: Request, now: int): Code
      requires !Admissible(request, now)
    {
      var d := request.decision;
      if !request.policy.paper || request.policy.allowLive then PaperModeRequired
      else if !(0 <= now - request.requestedAt <= request.policy.maxRequestAgeMs) then RequestStale
      else if !d.approved || d.reservation.None? then DecisionNotApproved
      else if d.reservation.value.status != Reserved then ReservationMissing
      else if now > request.cutoff then CutoffExceeded
      else if now >= d.reservation.value.expiresAt then ReservationExpired
      else if d.quantity != d.reservation.value.quantity then ReservationMissing
      else InvalidGeometry
    }

    predicate Admissible(request: Request, now: int) {
      && request.policy.paper && !request.policy.allowLive
      && 0 <= now - request.requestedAt <= request.policy.maxRequestAgeMs
      && Orderable(request, now)
    }

    /** Another command is stored under the id of the reservation. */
    predicate Taken(request: Request, commands: map<string, Command>) {
      && request.decision.reservation.Some? && request.decision.reservation.value.clientOrderId in commands
      && !AsDecided(request, commands[request.decision.reservation.value.clientOrderId])
    }

    /** The broker has an order with the id of the reservation. */
    predicate HasOrder(request: Request)
      reads broker
    {
      request.decision.reservation.Some? && broker.Exists(request.decision.reservation.value.clientOrderId)
    }

    /** Of what was posted since `from` only the first may buy, and then it is the decision's entry. */
    ghost predicate BuysAsDecided(request: Request, from: nat)
      reads broker
    {
      forall k :: from <= k < |broker.postings| && broker.postings[k].command.side == Buy ==>
        k == from && AsDecided(request, broker.postings[k].command)
    }

    predicate Conflicts(command: Command, commands: map<string, Command>) {
      command.clientOrderId in commands && commands[command.clientOrderId] != command
    }

    /** Everything posted since `from` carries this execution's id. */
    ghost predicate OwnPostings(request: Request, from: nat)
      reads broker
    {
      forall k :: from <= k < |broker.postings| ==> broker.postings[k].command.executionId == request.executionId
    }

    /** The last order read back is that of the update, after its cancellation was requested. */
    ghost predicate Confirmed(update: TradeUpdate, order: Snapshot)
      reads broker
    {
      && broker.fetched != []
      && var last := broker.fetched[|broker.fetched| - 1];
      && last.brokerOrderId == update.order.brokerOrderId && last.order == order
      && update.order.brokerOrderId in last.cancels
    }

    /** The command is the stop for the update's order, read back as canceled with exactly that many shares filled. */
    ghost predicate ProtectsParent(request: Request, update: TradeUpdate, command: Command)
      reads broker
    {
      exists parent :: Confirmed(update, parent) && parent.status == Canceled && StopFor(request, parent, command)
    }

    /** The update's order was read back as filled, and as commanded. */
    ghost predicate FilledInstead(command: Command, update: TradeUpdate, result: ExecResult)
      reads broker
    {
      && result.command == Some(command) && result.order.Some?
      && Confirmed(update, result.order.value) && result.order.value.status == Filled && Matches(command, result.order.value)
    }

    /** The update was delivered before or needs no protection, or its order turned out to be filled. */
    ghost predicate Reconciled(request: Request, command: Command, update: TradeUpdate, result: ExecResult,
                               claims: map<string, (string, string)>)
      reads broker
    {
      || (&& result.command == Some(command) && result.order == Some(update.order)
          && (update.eventId in claims || !PartialFill(request, update.order)))
      || FilledInstead(command, update, result)
    }

    /** The id of the update that the service itself makes of a partially filled order. */
    ghost function InitialId(order: Snapshot): string {
      "initial-" + order.snapshotId
    }

    /** The command's order exists and stands as commanded; if it is partially filled, that was acted on before. */
    ghost predicate Succeeds(request: Request, command: Command, result: ExecResult, claims: map<string, (string, string)>)
      reads broker
    {
      && result.command == Some(command) && command in broker.orders
      && result.order.Some? && Standing(command, result.order.value)
      && (PartialFill(request, result.order.value) ==>
            result.outcome == ExistingReconciled && InitialId(result.order.value) in claims)
    }

    /** A sell stop of this execution, at the decided stop price, for exactly the shares the parent filled. */
    predicate StopFor(request: Request, parent: Snapshot, command: Command) {
      command.quantity as real == parent.filled && StopsAt(request, command, command.quantity)
    }

    /** A protected fill: the parent is canceled and a live stop order covers exactly the filled shares. */
    ghost predicate Protected(request: Request, result: ExecResult)
      reads broker
    {
      && result.order.Some? && result.protective.Some?
      && result.order.value.status == Canceled
      && ShowsStop(request, result.protective.value, result.order.value.filled)
      && exists c :: c in broker.orders && c.clientOrderId == result.protective.value.clientOrderId
                     && StopFor(request, result.order.value, c)
    }

    /** What the broker shows is a day stop that sells the given shares at the decided stop price. */
    predicate ShowsStop(request: Request, o: Snapshot, filled: real) {
      && o.symbol == request.decision.ticker && o.side == Sell && o.orderType == Stop && o.orderClass == Simple && o.day
      && o.quantity == filled && o.stopPrice.Some? && o.stopPrice == request.decision.stopPrice
    }
  }
}
