/** Correction-aware trade materialization (daybreak_features/ledger.py): one pass over the events with a dictionary
    of active trades and one of aliases. */
module TradeLedger {
  import opened Orders
  import opened Results

  datatype Id = Id(text: string)

  /** The event model admits positive sizes only. */
  type Size = n: int | n > 0 witness 1

  datatype Terms = Terms(price: real, size: Size)

  datatype Action = New(terms: Terms) | Correction(original: Id, terms: Terms) | Cancel(original: Id)

  datatype Event = Event(seqNo: int, id: Id, at: int, eligible: bool, action: Action)

  datatype Trade = Trade(id: Id, at: int, price: real, size: Size, seqNo: int)

  datatype Error = DuplicateIngestSequence | DuplicateTradeId(id: Id) | UnknownOriginalTrade(original: Id)

  datatype Ledger = Ledger(active: map<Id, Trade>, aliases: map<Id, Id>)

  const EMPTY := Ledger(map[], map[])

  function TradeOf(e: Event, terms: Terms): Trade {
    Trade(e.id, e.at, terms.price, terms.size, e.seqNo)
  }

  function Resolve(aliases: map<Id, Id>, id: Id): Id {
    if id in aliases then aliases[id] else id
  }

  // ---------- one event ----------

  function Apply(l: Ledger, e: Event): Result<Ledger, Error> {
    match e.action
    case New(terms) => Open(l, e, terms)
    case Correction(original, terms) => Replace(l, e, original, if e.eligible then Some(TradeOf(e, terms)) else None)
    case Cancel(original) => Replace(l, e, original, None)
  }

  function Open(l: Ledger, e: Event, terms: Terms): Result<Ledger, Error> {
    if e.id in l.active || e.id in l.aliases then Err(DuplicateTradeId(e.id))
    else Ok(Ledger(if e.eligible then l.active[e.id := TradeOf(e, terms)] else l.active, l.aliases[e.id := e.id]))
  }

  function Replace(l: Ledger, e: Event, original: Id, next: Option<Trade>): Result<Ledger, Error> {
    var root := Resolve(l.aliases, original);
    if root !in l.active then Err(UnknownOriginalTrade(original))
    else
      var rest := l.active - {root};
      Ok(Ledger(if next.Some? then rest[e.id := next.value] else rest, l.aliases[e.id := e.id][original := e.id]))
  }

  /** The events in order, stopping at the first error. */
  function Run(events: seq<Event>): Result<Ledger, Error> {
    if events == [] then Ok(EMPTY)
    else
      var before := Run(events[..|events| - 1]);
      if before.Err? then before else Apply(before.value, events[|events| - 1])
  }

  lemma {:induction false} ErrorsStick(events: seq<Event>, n: nat)
    requires n <= |events| && Run(events[..n]).Err?
    ensures Run(events) == Run(events[..n])
    decreases |events|
  {
    if n < |events| {
      var front := events[..|events| - 1];
      assert front[..n] == events[..n];
      ErrorsStick(front, n);
    } else {
      assert events[..n] == events;
    }
  }

  // ---------- the ordered input and output ----------

  predicate BySeq(a: Event, b: Event) {
    a.seqNo <= b.seqNo
  }

  predicate ByTime(a: Trade, b: Trade) {
    if a.at != b.at then a.at < b.at
    else if a.seqNo != b.seqNo then a.seqNo < b.seqNo
    else LexLe(a.id.text, b.id.text)
  }

  predicate DistinctSeqs(events: seq<Event>) {
    forall i, j :: 0 <= i < j < |events| ==> events[i].seqNo != events[j].seqNo
  }

  /** The values of the dictionary in time order, each once. */
  ghost predicate Lists(trades: seq<Trade>, active: map<Id, Trade>) {
    && Sorted(ByTime, trades) && Distinct(trades)
    && forall t :: t in trades <==> t in active.Values
  }

  ghost predicate Meets(r: Result<seq<Trade>, Error>, events: seq<Event>) {
    var ordered := SortBy(BySeq, events);
    if !DistinctSeqs(ordered) then r == Err(DuplicateIngestSequence)
    else if Run(ordered).Err? then r == Err(Run(ordered).error)
    else r.Ok? && Lists(r.value, Run(ordered).value.active)
  }

  /** A trade is stored under its own id. */
  ghost predicate OwnKeys(active: map<Id, Trade>) {
    forall id :: id in active ==> active[id].id == id
  }

  lemma {:induction false} RunOwnKeys(events: seq<Event>)
    requires Run(events).Ok?
    ensures OwnKeys(Run(events).value.active)
  {
    if events != [] {
      RunOwnKeys(events[..|events| - 1]);
    }
  }

  lemma ByTimeLaws()
    ensures TotalPreorder(ByTime)
    ensures forall a, b :: ByTime(a, b) && ByTime(b, a) ==> a.id == b.id
  {
    LexLaws();
  }

  /** sorted(active.values(), ...) */
  method SortedValues(active: map<Id, Trade>) returns (trades: seq<Trade>)
    requires OwnKeys(active)
    ensures Lists(trades, active)
  {
    var listed: seq<Trade> := [];
    var keys := active.Keys;
    while keys != {}
      invariant keys <= active.Keys
      invariant Distinct(listed)
      invariant forall t :: t in listed <==> exists id :: id in active && id !in keys && active[id] == t
    {
      var id :| id in keys;
      assert active[id] !in listed;
      listed := listed + [active[id]];
      keys := keys - {id};
    }
    trades := SortBy(ByTime, listed);
    ByTimeLaws();
    SortSorted(ByTime, listed);
    SameElements(trades, listed);
    assert (set t | t in trades) == (set t | t in listed);
    DistinctCardinality(listed);
    DistinctCardinality(trades);
  }

  // ---------- the loop ----------

  method MaterializeTrades(events: seq<Event>) returns (r: Result<seq<Trade>, Error>)
    ensures Meets(r, events)
  {
    var ordered := SortBy(BySeq, events);
    if !DistinctSeqs(ordered) {
      return Err(DuplicateIngestSequence);
    }
    var active: map<Id, Trade>, aliases: map<Id, Id> := map[], map[];
    for k := 0 to |ordered|
      invariant Run(ordered[..k]) == Ok(Ledger(active, aliases))
    {
      var event := ordered[k];
      ghost var before := Ledger(active, aliases);
      RunNext(ordered, k);
      if event.action.New? {
        if event.id in active || event.id in aliases {
          return Err(DuplicateTradeId(event.id));
        }
        if !event.eligible {
          aliases := aliases[event.id := event.id];
          continue;
        }
        active := active[event.id := TradeOf(event, event.action.terms)];
        aliases := aliases[event.id := event.id];
        continue;
      }
      var original := event.action.original;
      var root := if original in aliases then aliases[original] else original;
      if root !in active {
        return Err(UnknownOriginalTrade(original));
      }
      active := active - {root};
      aliases := aliases[event.id := event.id];
      aliases := aliases[original := event.id];
      if event.action.Cancel? || !event.eligible {
        continue;
      }
      active := active[event.id := TradeOf(event, event.action.terms)];
    }
    assert ordered[..|ordered|] == ordered;
    RunOwnKeys(ordered);
    var trades := SortedValues(active);
    r := Ok(trades);
  }

  /** The trade carries the fields of an eligible event that states terms. */
  predicate Stems(t: Trade, e: Event) {
    && e.eligible && !e.action.Cancel? && t.id == e.id && t.at == e.at && t.seqNo == e.seqNo
    && t.price == e.action.terms.price && t.size == e.action.terms.size
  }

  lemma {:induction false} ActiveStems(events: seq<Event>, id: Id) returns (e: Event)
    requires Run(events).Ok? && id in Run(events).value.active
    ensures e in events && Stems(Run(events).value.active[id], e)
    decreases |events|
  {
    var n := |events| - 1;
    var before, last := Run(events[..n]).value, events[n];
    var t := Run(events).value.active[id];
    if id in before.active && before.active[id] == t {
      e := ActiveStems(events[..n], id);
    } else {
      e := last;
    }
  }

  /** The events are taken by ascending sequence number. */
  lemma TakenInSequence(events: seq<Event>)
    ensures var ordered := SortBy(BySeq, events);
            multiset(ordered) == multiset(events)
            && forall i, j :: 0 <= i < j < |ordered| ==> ordered[i].seqNo <= ordered[j].seqNo
  {
    SortSorted(BySeq, events);
    var ordered := SortBy(BySeq, events);
    forall i, j | 0 <= i < j < |ordered| ensures ordered[i].seqNo <= ordered[j].seqNo {
      assert BySeq(ordered[i], ordered[j]);
    }
  }

  /** Every trade listed stems from one of the events, and the trades ascend in time and, at one time, in sequence. */
  lemma ListedTrades(events: seq<Event>, trades: seq<Trade>)
    requires Meets(Ok(trades), events)
    ensures forall t :: t in trades ==> exists e :: e in events && Stems(t, e)
    ensures forall i, j :: 0 <= i < j < |trades| ==>
              trades[i].at < trades[j].at || (trades[i].at == trades[j].at && trades[i].seqNo <= trades[j].seqNo)
  {
    var ordered := SortBy(BySeq, events);
    SameElements(ordered, events);
    forall t | t in trades ensures exists e :: e in events && Stems(t, e) {
      var id :| id in Run(ordered).value.active && Run(ordered).value.active[id] == t;
      var e := ActiveStems(ordered, id);
    }
    forall i, j | 0 <= i < j < |trades|
      ensures trades[i].at < trades[j].at || (trades[i].at == trades[j].at && trades[i].seqNo <= trades[j].seqNo) {
      assert ByTime(trades[i], trades[j]);
    }
  }

  lemma RunNext(events: seq<Event>, k: nat)
    requires k < |events| && Run(events[..k]).Ok?
    ensures Run(events[..k + 1]) == Apply(Run(events[..k]).value, events[k])
    ensures Apply(Run(events[..k]).value, events[k]).Err? ==> Run(events) == Apply(Run(events[..k]).value, events[k])
  {
    assert events[..k + 1][..k] == events[..k];
    if Run(events[..k + 1]).Err? {
      ErrorsStick(events, k + 1);
    }
  }

  // ---------- the order of the input is irrelevant ----------

  lemma ListingIsUnique(a: seq<Trade>, b: seq<Trade>, active: map<Id, Trade>)
    requires Lists(a, active) && Lists(b, active) && OwnKeys(active)
    ensures a == b
  {
    ByTimeLaws();
    SameMembersSameElements(a, b);
    SortedUnique(ByTime, a, b);
  }

  /** The same events in any order give the same trades or the same error. */
  lemma InputOrderIsIrrelevant(a: seq<Event>, b: seq<Event>, ra: Result<seq<Trade>, Error>, rb: Result<seq<Trade>, Error>)
    requires multiset(a) == multiset(b) && Meets(ra, a) && Meets(rb, b)
    ensures ra == rb
  {
    var oa, ob := SortBy(BySeq, a), SortBy(BySeq, b);
    SortSorted(BySeq, a);
    SortSorted(BySeq, b);
    if DistinctSeqs(oa) {
      SortedSeqsAreUnique(oa, ob);
      if Run(oa).Ok? {
        RunOwnKeys(oa);
        ListingIsUnique(ra.value, rb.value, Run(oa).value.active);
      }
    } else if DistinctSeqs(ob) {
      SortedSeqsAreUnique(ob, oa);
    }
  }

  lemma SortedSeqsAreUnique(a: seq<Event>, b: seq<Event>)
    requires multiset(a) == multiset(b) && DistinctSeqs(a) && Sorted(BySeq, a) && Sorted(BySeq, b)
    ensures a == b
  {
    forall x, y | x in a && y in a && BySeq(x, y) && BySeq(y, x) ensures x == y {
      var i :| 0 <= i < |a| && a[i] == x;
      var j :| 0 <= j < |a| && a[j] == y;
    }
    SortedUnique(BySeq, a, b);
  }

  // ---------- chains ----------

  /** A live chain: its current trade, and the id the last replacement named (at first, its own). */
  datatype Live = Live(trade: Trade, named: Id)

  /** Every id belongs to the chain of one original trade; a chain has at most one live trade. */
  datatype Chains = Chains(chainOf: map<Id, Id>, live: map<Id, Live>)

  predicate Answers(s: Chains, chain: Id, id: Id) {
    chain in s.live && (id == s.live[chain].trade.id || id == s.live[chain].named)
  }

  /** The specification: an original opens a chain, and a reference reaches a chain only through its current trade or
      the id that trade replaced by name. */
  function ApplyToChains(s: Chains, e: Event): Result<Chains, Error> {
    match e.action
    case New(terms) =>
      if e.id in s.chainOf then Err(DuplicateTradeId(e.id))
      else Ok(Chains(s.chainOf[e.id := e.id],
                     if e.eligible then s.live[e.id := Live(TradeOf(e, terms), e.id)] else s.live))
    case Correction(original, terms) =>
      if original !in s.chainOf || !Answers(s, s.chainOf[original], original) then Err(UnknownOriginalTrade(original))
      else
        var chain := s.chainOf[original];
        Ok(Chains(s.chainOf[e.id := chain],
                  if e.eligible then s.live[chain := Live(TradeOf(e, terms), original)] else s.live - {chain}))
    case Cancel(original) =>
      if original !in s.chainOf || !Answers(s, s.chainOf[original], original) then Err(UnknownOriginalTrade(original))
      else Ok(Chains(s.chainOf[e.id := s.chainOf[original]], s.live - {s.chainOf[original]}))
  }

  function RunChains(events: seq<Event>): Result<Chains, Error> {
    if events == [] then Ok(Chains(map[], map[]))
    else
      var before := RunChains(events[..|events| - 1]);
      if before.Err? then before else ApplyToChains(before.value, events[|events| - 1])
  }

  /** No correction or cancel reuses the id of an earlier event. */
  ghost predicate FreshIds(events: seq<Event>) {
    forall j, k :: 0 <= j < k < |events| && !events[k].action.New? ==> events[j].id != events[k].id
  }

  /** Where an id leads: to the current trade of its chain when the chain answers to it, else nowhere. */
  ghost predicate Leads(l: Ledger, s: Chains, id: Id)
    requires id in s.chainOf && id in l.aliases
  {
    if Answers(s, s.chainOf[id], id) then l.aliases[id] == s.live[s.chainOf[id]].trade.id
    else l.aliases[id] !in l.active
  }

  /** The two dictionaries are the chains. */
  ghost predicate Represents(l: Ledger, s: Chains) {
    l.aliases.Keys == s.chainOf.Keys && AllLead(l, s) && AllLive(l, s) && AllCurrent(l, s)
  }

  ghost predicate AllLead(l: Ledger, s: Chains) {
    forall id :: id in l.aliases ==> id in s.chainOf && l.aliases[id] in l.aliases && Leads(l, s, id)
  }

  ghost predicate AllLive(l: Ledger, s: Chains) {
    forall c :: c in s.live ==> IsLive(l, s, c)
  }

  ghost predicate AllCurrent(l: Ledger, s: Chains) {
    forall id :: id in l.active ==> IsCurrent(l, s, id)
  }

  ghost predicate IsLive(l: Ledger, s: Chains, chain: Id)
    requires chain in s.live
  {
    var t := s.live[chain].trade;
    && chain in s.chainOf && t.id in s.chainOf && s.chainOf[t.id] == chain && t.id in l.active && l.active[t.id] == t
  }

  ghost predicate IsCurrent(l: Ledger, s: Chains, id: Id)
    requires id in l.active
  {
    && id in s.chainOf && s.chainOf[id] in s.live && s.live[s.chainOf[id]].trade == l.active[id]
    && l.active[id].id == id
  }

  /** One event, with a fresh id unless it is new: both machines accept and stay in step, or fail alike. */
  lemma StepRefines(l: Ledger, s: Chains, e: Event)
    requires Represents(l, s) && (e.action.New? || e.id !in s.chainOf)
    ensures Apply(l, e).Ok? <==> ApplyToChains(s, e).Ok?
    ensures Apply(l, e).Err? ==> Apply(l, e).error == ApplyToChains(s, e).error
    ensures Apply(l, e).Ok? ==> Represents(Apply(l, e).value, ApplyToChains(s, e).value)
  {
    match e.action {
      case New(terms) => OpenRefines(l, s, e, terms);
      case Correction(original, terms) =>
        ReferenceRefines(l, s, original);
        if original in s.chainOf && Answers(s, s.chainOf[original], original) {
          ReplaceRefines(l, s, e, original, if e.eligible then Some(TradeOf(e, terms)) else None);
        }
      case Cancel(original) =>
        ReferenceRefines(l, s, original);
        if original in s.chainOf && Answers(s, s.chainOf[original], original) {
          ReplaceRefines(l, s, e, original, None);
        }
    }
  }

  /** A reference resolves to the live trade of its own chain, or fails. */
  lemma ReferenceRefines(l: Ledger, s: Chains, original: Id)
    requires Represents(l, s)
    ensures Resolve(l.aliases, original) in l.active <==> original in s.chainOf && Answers(s, s.chainOf[original], original)
    ensures Resolve(l.aliases, original) in l.active ==>
              Resolve(l.aliases, original) == s.live[s.chainOf[original]].trade.id
  {
    if original in s.chainOf {
      assert Leads(l, s, original);
    } else {
      assert original in l.active ==> IsCurrent(l, s, original);
    }
  }

  ghost function OpenedChains(s: Chains, e: Event, terms: Terms): Chains {
    Chains(s.chainOf[e.id := e.id], if e.eligible then s.live[e.id := Live(TradeOf(e, terms), e.id)] else s.live)
  }

  lemma OpenRefines(l: Ledger, s: Chains, e: Event, terms: Terms)
    requires Represents(l, s)
    ensures Open(l, e, terms).Ok? <==> e.id !in s.chainOf
    ensures e.id !in s.chainOf ==> Represents(Open(l, e, terms).value, OpenedChains(s, e, terms))
  {
    assert e.id in l.active ==> IsCurrent(l, s, e.id);
    if e.id !in s.chainOf {
      OpenedLeads(l, s, e, terms);
      OpenedIsLive(l, s, e, terms);
      OpenedIsCurrent(l, s, e, terms);
    }
  }

  lemma OpenedLeads(l: Ledger, s: Chains, e: Event, terms: Terms)
    requires Represents(l, s) && e.id !in s.chainOf && Open(l, e, terms).Ok?
    ensures AllLead(Open(l, e, terms).value, OpenedChains(s, e, terms))
  {
    var l', s' := Open(l, e, terms).value, OpenedChains(s, e, terms);
    forall id | id in l'.aliases ensures l'.aliases[id] in l'.aliases && Leads(l', s', id) {
      NotYetLive(l, s, e.id);
      if id != e.id {
        assert Leads(l, s, id);
      }
    }
  }

  lemma OpenedIsLive(l: Ledger, s: Chains, e: Event, terms: Terms)
    requires Represents(l, s) && e.id !in s.chainOf && Open(l, e, terms).Ok?
    ensures AllLive(Open(l, e, terms).value, OpenedChains(s, e, terms))
  {
    var l', s' := Open(l, e, terms).value, OpenedChains(s, e, terms);
    forall c | c in s'.live ensures IsLive(l', s', c) {
      if c != e.id {
        assert IsLive(l, s, c);
        OpenedStillLive(l, s, e, terms, c);
      }
    }
  }

  lemma OpenedStillLive(l: Ledger, s: Chains, e: Event, terms: Terms, c: Id)
    requires e.id !in s.chainOf && Open(l, e, terms).Ok? && c in s.live && c != e.id && IsLive(l, s, c)
    ensures IsLive(Open(l, e, terms).value, OpenedChains(s, e, terms), c)
  {
  }

  lemma OpenedIsCurrent(l: Ledger, s: Chains, e: Event, terms: Terms)
    requires Represents(l, s) && e.id !in s.chainOf && Open(l, e, terms).Ok?
    ensures AllCurrent(Open(l, e, terms).value, OpenedChains(s, e, terms))
  {
    var l', s' := Open(l, e, terms).value, OpenedChains(s, e, terms);
    NotYetLive(l, s, e.id);
    forall id | id in l'.active ensures IsCurrent(l', s', id) {
      assert id != e.id ==> IsCurrent(l, s, id);
    }
  }

  lemma NotYetLive(l: Ledger, s: Chains, id: Id)
    requires AllLive(l, s) && id !in s.chainOf
    ensures id !in s.live
  {
    assert id in s.live ==> IsLive(l, s, id);
  }

  ghost function ReplacedChains(s: Chains, e: Event, original: Id, next: Option<Trade>): Chains
    requires original in s.chainOf
  {
    var chain := s.chainOf[original];
    Chains(s.chainOf[e.id := chain], if next.Some? then s.live[chain := Live(next.value, original)] else s.live - {chain})
  }

  ghost predicate Replaceable(l: Ledger, s: Chains, e: Event, original: Id, next: Option<Trade>) {
    && Represents(l, s) && e.id !in l.aliases && (next.Some? ==> next.value.id == e.id)
    && original in s.chainOf && Answers(s, s.chainOf[original], original)
  }

  lemma ReplaceRefines(l: Ledger, s: Chains, e: Event, original: Id, next: Option<Trade>)
    requires Replaceable(l, s, e, original, next)
    ensures Replace(l, e, original, next).Ok?
    ensures Represents(Replace(l, e, original, next).value, ReplacedChains(s, e, original, next))
  {
    ReferenceRefines(l, s, original);
    ReplacedLeads(l, s, e, original, next);
    ReplacedIsLive(l, s, e, original, next);
    ReplacedIsCurrent(l, s, e, original, next);
  }

  /** Only the new id and the named original lead anywhere in the replaced chain; other chains are untouched. */
  lemma ReplacedLeads(l: Ledger, s: Chains, e: Event, original: Id, next: Option<Trade>)
    requires Replaceable(l, s, e, original, next) && Replace(l, e, original, next).Ok?
    ensures AllLead(Replace(l, e, original, next).value, ReplacedChains(s, e, original, next))
  {
    ReferenceRefines(l, s, original);
    var l', s' := Replace(l, e, original, next).value, ReplacedChains(s, e, original, next);
    forall id | id in l'.aliases ensures id in s'.chainOf && l'.aliases[id] in l'.aliases && Leads(l', s', id) {
      if id != e.id && id != original {
        assert Leads(l, s, id);
        ChainsDiffer(l, s, s.chainOf[original], s.chainOf[id]);
        StillLeads(l, s, e, original, next, id);
      }
    }
  }

  /** Two chains have different live trades. */
  lemma ChainsDiffer(l: Ledger, s: Chains, a: Id, b: Id)
    requires AllLive(l, s)
    ensures a in s.live && b in s.live && a != b ==> s.live[a].trade.id != s.live[b].trade.id
  {
    assert a in s.live ==> IsLive(l, s, a);
    assert b in s.live ==> IsLive(l, s, b);
  }

  lemma StillLeads(l: Ledger, s: Chains, e: Event, original: Id, next: Option<Trade>, id: Id)
    requires original in s.chainOf && Answers(s, s.chainOf[original], original)
    requires Resolve(l.aliases, original) == s.live[s.chainOf[original]].trade.id && Replace(l, e, original, next).Ok?
    requires id in l.aliases && id in s.chainOf && id != e.id && id != original && l.aliases[id] != e.id && Leads(l, s, id)
    requires next.Some? ==> next.value.id == e.id
    requires s.chainOf[id] in s.live && s.chainOf[id] != s.chainOf[original] ==>
               s.live[s.chainOf[id]].trade.id != s.live[s.chainOf[original]].trade.id
    ensures Leads(Replace(l, e, original, next).value, ReplacedChains(s, e, original, next), id)
  {
  }

  lemma ReplacedIsLive(l: Ledger, s: Chains, e: Event, original: Id, next: Option<Trade>)
    requires Replaceable(l, s, e, original, next) && Replace(l, e, original, next).Ok?
    ensures AllLive(Replace(l, e, original, next).value, ReplacedChains(s, e, original, next))
  {
    ReferenceRefines(l, s, original);
    var chain := s.chainOf[original];
    assert IsLive(l, s, chain);
    var l', s' := Replace(l, e, original, next).value, ReplacedChains(s, e, original, next);
    forall c | c in s'.live ensures IsLive(l', s', c) {
      ChainsDiffer(l, s, chain, c);
      if c != chain {
        assert IsLive(l, s, c);
        StillLive(l, s, e, original, next, c);
      }
    }
  }

  lemma StillLive(l: Ledger, s: Chains, e: Event, original: Id, next: Option<Trade>, c: Id)
    requires original in s.chainOf && s.chainOf[original] in s.live && c in s.live && c != s.chainOf[original]
    requires Resolve(l.aliases, original) == s.live[s.chainOf[original]].trade.id && Replace(l, e, original, next).Ok?
    requires IsLive(l, s, c) && s.live[c].trade.id != s.live[s.chainOf[original]].trade.id && s.live[c].trade.id != e.id
    requires c != e.id
    ensures IsLive(Replace(l, e, original, next).value, ReplacedChains(s, e, original, next), c)
  {
  }

  lemma ReplacedIsCurrent(l: Ledger, s: Chains, e: Event, original: Id, next: Option<Trade>)
    requires Replaceable(l, s, e, original, next) && Replace(l, e, original, next).Ok?
    ensures AllCurrent(Replace(l, e, original, next).value, ReplacedChains(s, e, original, next))
  {
    ReferenceRefines(l, s, original);
    assert IsLive(l, s, s.chainOf[original]);
    var l', s' := Replace(l, e, original, next).value, ReplacedChains(s, e, original, next);
    forall id | id in l'.active ensures IsCurrent(l', s', id) {
      if id != e.id {
        assert id in l.active && IsCurrent(l, s, id);
        StillCurrent(l, s, e, original, next, id);
      }
    }
  }

  lemma StillCurrent(l: Ledger, s: Chains, e: Event, original: Id, next: Option<Trade>, id: Id)
    requires original in s.chainOf && s.chainOf[original] in s.live
    requires Resolve(l.aliases, original) == s.live[s.chainOf[original]].trade.id && Replace(l, e, original, next).Ok?
    requires id in l.active && IsCurrent(l, s, id) && id != e.id && id != Resolve(l.aliases, original)
    ensures IsCurrent(Replace(l, e, original, next).value, ReplacedChains(s, e, original, next), id)
  {
  }

  // ---------- whole runs ----------

  lemma {:induction false} ChainIds(events: seq<Event>)
    requires RunChains(events).Ok?
    ensures forall id :: id in RunChains(events).value.chainOf ==> exists k :: 0 <= k < |events| && events[k].id == id
  {
    if events != [] {
      ChainIds(events[..|events| - 1]);
    }
  }

  lemma FreshAt(events: seq<Event>)
    requires FreshIds(events) && events != [] && RunChains(events[..|events| - 1]).Ok? && !events[|events| - 1].action.New?
    ensures events[|events| - 1].id !in RunChains(events[..|events| - 1]).value.chainOf
  {
    ChainIds(events[..|events| - 1]);
  }

  lemma {:induction false} RunsStayInStep(events: seq<Event>)
    requires FreshIds(events)
    ensures Run(events).Ok? <==> RunChains(events).Ok?
    ensures Run(events).Err? ==> Run(events).error == RunChains(events).error
    ensures Run(events).Ok? ==> Represents(Run(events).value, RunChains(events).value)
  {
    if events != [] {
      var n := |events| - 1;
      RunsStayInStep(events[..n]);
      if Run(events[..n]).Ok? {
        if !events[n].action.New? {
          FreshAt(events);
        }
        StepRefines(Run(events[..n]).value, RunChains(events[..n]).value, events[n]);
      }
    }
  }

  ghost function LiveTrades(s: Chains): set<Trade> {
    set c | c in s.live :: s.live[c].trade
  }

  /** Without reused replacement ids the pass computes the chains: the same error at the same event, or exactly the
      live trades, one per live chain. */
  lemma LedgerIsChains(events: seq<Event>)
    requires FreshIds(events)
    ensures Run(events).Err? ==> RunChains(events) == Err(Run(events).error)
    ensures Run(events).Ok? ==> RunChains(events).Ok?
    ensures Run(events).Ok? ==> Run(events).value.active.Values == LiveTrades(RunChains(events).value)
  {
    RunsStayInStep(events);
    if Run(events).Ok? {
      var l, s := Run(events).value, RunChains(events).value;
      forall t ensures t in l.active.Values <==> t in LiveTrades(s) {
        if t in l.active.Values {
          var id :| id in l.active && l.active[id] == t;
          assert IsCurrent(l, s, id);
        }
        if t in LiveTrades(s) {
          var c :| c in s.live && s.live[c].trade == t;
          assert IsLive(l, s, c);
        }
      }
    }
  }

  /** A chain that is no longer live never lives again. */
  lemma {:induction false} DeadChainsStayDead(events: seq<Event>, n: nat, chain: Id)
    requires n <= |events| && RunChains(events[..n]).Ok? && RunChains(events).Ok?
    requires chain in RunChains(events[..n]).value.chainOf && chain !in RunChains(events[..n]).value.live
    ensures chain in RunChains(events).value.chainOf && chain !in RunChains(events).value.live
    decreases |events|
  {
    if n == |events| {
      assert events[..n] == events;
    } else {
      var front := events[..|events| - 1];
      assert front[..n] == events[..n];
      DeadChainsStayDead(front, n, chain);
    }
  }

  // ---------- conservation ----------

  /** The trades an event adds to the active ones, without looking at the ledger. */
  function Net(e: Event): int {
    match e.action
    case New(_) => if e.eligible then 1 else 0
    case Correction(_, _) => if e.eligible then 0 else -1
    case Cancel(_) => -1
  }

  function NetOf(events: seq<Event>): int {
    if events == [] then 0 else NetOf(events[..|events| - 1]) + Net(events[|events| - 1])
  }

  /** A replacement whose id is already another active trade's overwrites that trade. */
  predicate Overwrites(l: Ledger, e: Event) {
    e.action.Correction? && e.eligible && e.id in l.active && e.id != Resolve(l.aliases, e.action.original)
  }

  /** The number of active trades changes by the event's net, exactly when nothing is overwritten. */
  lemma CountConservedExactly(l: Ledger, e: Event)
    requires Apply(l, e).Ok?
    ensures |Apply(l, e).value.active| == |l.active| + Net(e) <==> !Overwrites(l, e)
    ensures Overwrites(l, e) ==> |Apply(l, e).value.active| == |l.active| - 1
  {
    match e.action {
      case New(terms) => CountWith(l.active, e.id, TradeOf(e, terms));
      case Correction(original, terms) =>
        CountWithout(l.active, Resolve(l.aliases, original));
        CountWith(l.active - {Resolve(l.aliases, original)}, e.id, TradeOf(e, terms));
      case Cancel(original) => CountWithout(l.active, Resolve(l.aliases, original));
    }
  }

  lemma CountWith(active: map<Id, Trade>, id: Id, t: Trade)
    ensures |active[id := t]| == |active| + if id in active then 0 else 1
  {
    assert |active| == |active.Keys| && |active[id := t]| == |active[id := t].Keys|;
    assert active[id := t].Keys == active.Keys + {id};
  }

  lemma CountWithout(active: map<Id, Trade>, id: Id)
    requires id in active
    ensures |active - {id}| == |active| - 1
  {
    assert |active| == |active.Keys| && |active - {id}| == |(active - {id}).Keys|;
    assert (active - {id}).Keys == active.Keys - {id};
  }

  ghost function Weight(active: map<Id, Trade>): Id -> real {
    (id: Id) => if id in active then active[id].size as real else 0.0
  }

  ghost function TotalSize(active: map<Id, Trade>): real {
    Sum(active.Keys, Weight(active))
  }

  lemma SizeWith(active: map<Id, Trade>, id: Id, t: Trade)
    ensures TotalSize(active[id := t]) == TotalSize(active) - Weight(active)(id) + t.size as real
  {
    var after, others := active[id := t], active.Keys - {id};
    assert after.Keys == others + {id};
    SumInsert(others, Weight(after), id);
    SumCongruent(others, Weight(after), Weight(active));
    if id in active {
      SumRemove(active.Keys, Weight(active), id);
    } else {
      assert others == active.Keys;
    }
  }

  lemma SizeWithout(active: map<Id, Trade>, id: Id)
    requires id in active
    ensures TotalSize(active - {id}) == TotalSize(active) - Weight(active)(id)
  {
    var after := active - {id};
    assert after.Keys == active.Keys - {id};
    SumRemove(active.Keys, Weight(active), id);
    SumCongruent(after.Keys, Weight(after), Weight(active));
  }

  /** The size an event brings in. */
  function Offered(e: Event): real {
    if e.eligible && !e.action.Cancel? then e.action.terms.size as real else 0.0
  }

  /** The size of the active trade an event refers to, which it takes out. */
  ghost function TakenOut(l: Ledger, e: Event): real {
    if e.action.New? then 0.0 else Weight(l.active)(Resolve(l.aliases, e.action.original))
  }

  /** The size of the trade an event overwrites. */
  ghost function LostTo(l: Ledger, e: Event): real {
    if Overwrites(l, e) then Weight(l.active)(e.id) else 0.0
  }

  /** Every accepted event adds the size it brings in less the size it refers to, and nothing else changes the total,
      exactly when it overwrites no trade. What it overwrites is lost. */
  lemma SizeConservedExactly(l: Ledger, e: Event)
    requires Apply(l, e).Ok?
    ensures TotalSize(Apply(l, e).value.active) == TotalSize(l.active) + Offered(e) - TakenOut(l, e) - LostTo(l, e)
    ensures TotalSize(Apply(l, e).value.active) == TotalSize(l.active) + Offered(e) - TakenOut(l, e) <==> !Overwrites(l, e)
  {
    match e.action {
      case New(terms) => SizeWith(l.active, e.id, TradeOf(e, terms));
      case Correction(original, terms) =>
        SizeWithout(l.active, Resolve(l.aliases, original));
        SizeWith(l.active - {Resolve(l.aliases, original)}, e.id, TradeOf(e, terms));
      case Cancel(original) => SizeWithout(l.active, Resolve(l.aliases, original));
    }
  }

  /** What the events of a run bring in less what they take out. */
  ghost function SizeNetOf(events: seq<Event>): real
    requires Run(events).Ok?
  {
    if events == [] then 0.0
    else
      var front, e := events[..|events| - 1], events[|events| - 1];
      SizeNetOf(front) + Offered(e) - TakenOut(Run(front).value, e)
  }

  ghost function LostIn(events: seq<Event>): real
    requires Run(events).Ok?
  {
    if events == [] then 0.0
    else
      var front, e := events[..|events| - 1], events[|events| - 1];
      LostIn(front) + LostTo(Run(front).value, e)
  }

  /** The size account of any run without error: overwritten trades are the only loss. */
  lemma {:induction false} SizeOfRun(events: seq<Event>)
    requires Run(events).Ok?
    ensures TotalSize(Run(events).value.active) == SizeNetOf(events) - LostIn(events)
  {
    if events == [] {
      assert EMPTY.active.Keys == {};
    } else {
      var front, e := events[..|events| - 1], events[|events| - 1];
      SizeOfRun(front);
      SizeConservedExactly(Run(front).value, e);
    }
  }

  /** In the chain reading an event takes out the live trade of the chain it reaches. */
  ghost function ChainTakesOut(s: Chains, e: Event): real {
    if e.action.New? || e.action.original !in s.chainOf || s.chainOf[e.action.original] !in s.live then 0.0
    else s.live[s.chainOf[e.action.original]].trade.size as real
  }

  ghost function ChainSizeOf(events: seq<Event>): real
    requires RunChains(events).Ok?
  {
    if events == [] then 0.0
    else
      var front, e := events[..|events| - 1], events[|events| - 1];
      ChainSizeOf(front) + Offered(e) - ChainTakesOut(RunChains(front).value, e)
  }

  lemma NothingOverwritten(l: Ledger, s: Chains, e: Event)
    requires AllCurrent(l, s) && e.id !in s.chainOf
    ensures !Overwrites(l, e)
  {
    assert e.id in l.active ==> IsCurrent(l, s, e.id);
  }

  /** Without reused ids the active trades are the eligible originals minus the cancelled or disqualified ones. */
  lemma {:induction false} FreshRunConserves(events: seq<Event>)
    requires FreshIds(events) && Run(events).Ok?
    ensures |Run(events).value.active| == NetOf(events)
  {
    if events != [] {
      var n := |events| - 1;
      var front, e := events[..n], events[n];
      var l := Run(front).value;
      FreshRunConserves(front);
      RunsStayInStep(front);
      if !e.action.New? {
        FreshAt(events);
        NothingOverwritten(l, RunChains(front).value, e);
      }
      CountConservedExactly(l, e);
    }
  }

  lemma TakesOutAlike(l: Ledger, s: Chains, e: Event)
    requires Represents(l, s) && Apply(l, e).Ok?
    ensures TakenOut(l, e) == ChainTakesOut(s, e)
  {
    if !e.action.New? {
      ReferenceRefines(l, s, e.action.original);
      assert IsLive(l, s, s.chainOf[e.action.original]);
    }
  }

  lemma FreshEventLosesNothing(events: seq<Event>)
    requires events != [] && FreshIds(events) && Run(events).Ok?
    ensures Run(events[..|events| - 1]).Ok? && RunChains(events[..|events| - 1]).Ok?
    ensures LostTo(Run(events[..|events| - 1]).value, events[|events| - 1]) == 0.0
    ensures TakenOut(Run(events[..|events| - 1]).value, events[|events| - 1])
            == ChainTakesOut(RunChains(events[..|events| - 1]).value, events[|events| - 1])
  {
    var front, e := events[..|events| - 1], events[|events| - 1];
    RunsStayInStep(front);
    var l, s := Run(front).value, RunChains(front).value;
    TakesOutAlike(l, s, e);
    if !e.action.New? {
      FreshAt(events);
      NothingOverwritten(l, s, e);
    }
  }

  /** Without reused ids nothing is lost: the active size is what was brought in less the live trades the references
      reached, chain by chain. */
  lemma {:induction false} FreshRunConservesSize(events: seq<Event>)
    requires FreshIds(events) && Run(events).Ok?
    ensures RunChains(events).Ok? && LostIn(events) == 0.0
    ensures TotalSize(Run(events).value.active) == ChainSizeOf(events)
  {
    RunsStayInStep(events);
    SizeOfRun(events);
    SizeNetIsChainSize(events);
  }

  lemma {:induction false} SizeNetIsChainSize(events: seq<Event>)
    requires FreshIds(events) && Run(events).Ok? && RunChains(events).Ok?
    ensures LostIn(events) == 0.0 && SizeNetOf(events) == ChainSizeOf(events)
  {
    if events == [] {
    } else {
      FreshEventLosesNothing(events);
      SizeNetIsChainSize(events[..|events| - 1]);
    }
  }

  /** Reused ids: a correction of B under the id of A silently drops A's trade. */
  lemma ReusedIdDropsTrade(a: Id, b: Id, terms: Terms)
    requires a != b
    ensures var events := [Event(1, a, 0, true, New(terms)), Event(2, b, 0, true, New(terms)),
                           Event(3, a, 0, true, Correction(b, terms))];
            && !FreshIds(events) && Run(events).Ok?
            && |Run(events).value.active| == 1 && NetOf(events) == 2
  {
    var e1, e2, e3 := Event(1, a, 0, true, New(terms)), Event(2, b, 0, true, New(terms)), Event(3, a, 0, true, Correction(b, terms));
    var events := [e1, e2, e3];
    assert events[..2] == [e1, e2] && [e1, e2][..1] == [e1] && [e1][..0] == [];
    assert Run([e1]) == Ok(Ledger(map[a := TradeOf(e1, terms)], map[a := a]));
    assert Run([e1, e2]) == Ok(Ledger(map[a := TradeOf(e1, terms), b := TradeOf(e2, terms)], map[a := a, b := b]));
    assert Run(events).value.active == map[a := TradeOf(e3, terms)];
    assert NetOf([e1, e2]) == NetOf([e1]) + 1;
    assert events[0].id == events[2].id;
  }
}
