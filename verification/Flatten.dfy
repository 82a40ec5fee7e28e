/** End-of-day flatten: target merging, the polling close loop and the clamped position listing
    (daybreak_orchestration/flatten.py; list_positions in daybreak_orchestration/alpaca_ops.py). */
module Flatten {
  import opened Orders

  type Quantity = q: real | q > 0.0 witness 1.0

  datatype Source = ExecutionLedger | BrokerReconstruction | Combined

  datatype Target = Target(symbol: string, quantity: Quantity, source: Source)

  datatype Position = Position(symbol: string, quantity: Quantity)

  datatype Result<+T> = Ok(value: T) | Raised

  datatype Failure =
    | DiscoverFailed
    | CancelFailed
    | ListFailed
    | CloseFailed(symbol: string)
    | VerifyFailed

  datatype FlattenResult = FlattenResult(
    startedAt: int,
    completedAt: int,
    canceled: nat,
    initial: seq<Position>,
    closeOrders: seq<Position>,
    remaining: seq<Position>,
    complete: bool,
    errors: seq<Failure>)

  // ---------- the account ----------

  /** Cumulative share counts per symbol: entry fills (with the position at the start), executed closes
      and submitted closes. */
  datatype Book = Book(filled: map<string, real>, executed: map<string, real>, submitted: map<string, real>)

  function Get(m: map<string, real>, s: string): real {
    if s in m then m[s] else 0.0
  }

  function Live(b: Book, s: string): real {
    Get(b.filled, s) - Get(b.executed, s)
  }

  function Outstanding(b: Book, s: string): real {
    Get(b.submitted, s) - Get(b.executed, s)
  }

  /** Executing everything outstanding would not sell more than is held. */
  ghost predicate NeverShort(b: Book) {
    forall s :: 0.0 <= Outstanding(b, s) <= Live(b, s)
  }

  function Symbols(b: Book): set<string> {
    b.filled.Keys + b.executed.Keys + b.submitted.Keys
  }

  /** Entry fills arrive and outstanding closes execute; nothing else moves the position. */
  predicate Moves(a: Book, b: Book) {
    && b.submitted == a.submitted
    && forall s | s in Symbols(a) + Symbols(b) ::
         && Get(a.filled, s) <= Get(b.filled, s)
         && Get(a.executed, s) <= Get(b.executed, s)
         && (Get(b.executed, s) <= Get(a.submitted, s) || Get(b.executed, s) == Get(a.executed, s))
  }

  lemma MovesEverywhere(a: Book, b: Book, s: string)
    requires Moves(a, b)
    ensures Get(a.filled, s) <= Get(b.filled, s) && Get(a.executed, s) <= Get(b.executed, s)
    ensures Get(b.executed, s) <= Get(a.submitted, s) || Get(b.executed, s) == Get(a.executed, s)
    ensures Get(b.submitted, s) == Get(a.submitted, s)
  {
    if s !in Symbols(a) + Symbols(b) {
      assert Get(a.filled, s) == Get(b.filled, s) == Get(a.executed, s) == Get(b.executed, s) == 0.0;
    }
  }

  ghost predicate FillsGrow(a: Book, b: Book) {
    forall s :: Get(a.filled, s) <= Get(b.filled, s) && Get(a.executed, s) <= Get(b.executed, s)
  }

  lemma MovesGrow(a: Book, b: Book)
    requires Moves(a, b)
    ensures FillsGrow(a, b)
    ensures forall s :: Get(a.submitted, s) == Get(b.submitted, s)
  {
    forall s ensures Get(a.filled, s) <= Get(b.filled, s) && Get(a.executed, s) <= Get(b.executed, s) {
      MovesEverywhere(a, b, s);
    }
  }

  function Submit(b: Book, p: Position): Book {
    b.(submitted := b.submitted[p.symbol := Get(b.submitted, p.symbol) + p.quantity])
  }

  function Absolute(x: real): (size: real)
    ensures size >= 0.0 && (size == x || size == -x)
  {
    if x < 0.0 then -x else x
  }

  /** What a listing shows of a symbol: the shares held, clamped to the target. */
  function Observed(b: Book, s: string, target: Quantity): real {
    var held := Absolute(Live(b, s));
    if held < target then held else target
  }

  /** The part of an observed quantity that was not asked for yet. */
  function Uncovered(submitted: map<string, real>, s: string, quantity: real): real {
    var rest := quantity - Get(submitted, s);
    if rest <= 0.0 then 0.0 else rest
  }

  /** The shares a poll asks to close when it finds the account in state `b`. */
  function PollCloses(b: Book, submitted: map<string, real>, s: string, target: Quantity): real {
    Uncovered(submitted, s, Observed(b, s, target))
  }

  /** Every close is backed by shares filled so far: the same as never being short. */
  ghost predicate Backed(b: Book) {
    forall s :: 0.0 <= Get(b.executed, s) <= Get(b.submitted, s) <= Get(b.filled, s)
  }

  lemma BackedIsNeverShort(b: Book)
    requires forall s :: 0.0 <= Get(b.executed, s)
    ensures Backed(b) <==> NeverShort(b)
  {
    forall s | NeverShort(b) ensures Get(b.executed, s) <= Get(b.submitted, s) <= Get(b.filled, s) {
      assert 0.0 <= Outstanding(b, s) <= Live(b, s);
    }
  }

  lemma MovesKeepBacked(a: Book, b: Book)
    requires Backed(a) && Moves(a, b)
    ensures Backed(b)
  {
    forall s ensures 0.0 <= Get(b.executed, s) <= Get(b.submitted, s) <= Get(b.filled, s) {
      MovesEverywhere(a, b, s);
    }
  }

  /** A call and its reply; it began when the account had passed through `at` states and the broker had accepted the
      closes `asked`. */
  datatype Call<T> = Call(at: nat, asked: seq<Position>, reply: Result<T>)

  datatype Raise = Discovering | Canceling | Listing | Closing(symbol: string)

  /** Everything the broker answered: the calls of each kind in order, the closes it accepted, and the calls that
      raised. */
  datatype Log = Log(
    discoveries: seq<Call<seq<Target>>>,
    cancellations: seq<Call<nat>>,
    listings: seq<Call<seq<Position>>>,
    accepted: seq<Position>,
    raises: seq<Raise>)

  function Raising<T>(raises: seq<Raise>, reply: Result<T>, kind: Raise): seq<Raise> {
    if reply.Raised? then raises + [kind] else raises
  }

  function Found<T>(reply: Result<seq<T>>): seq<T> {
    if reply.Ok? then reply.value else []
  }

  /** A paper account that keeps moving between calls. `history` is every state it passes through. */
  class Broker {
    var book: Book
    ghost var history: seq<Book>
    ghost var log: Log

    /** Whether a raising close is guaranteed to have had no effect. */
    const inert: bool

    ghost predicate AllBacked()
      reads this
    {
      Backed(book) && forall k :: 0 <= k < |history| ==> Backed(history[k])
    }

    constructor (book: Book, inert: bool)
      ensures this.book == book && this.inert == inert && history == [book] && log == Log([], [], [], [], [])
    {
      this.book, this.inert := book, inert;
      history, log := [book], Log([], [], [], [], []);
    }

    /** Time passes. */
    method Drift()
      modifies this`book, this`history
      ensures Moves(old(book), book) && history == old(history) + [book]
      ensures old(AllBacked()) ==> AllBacked()
    {
      ghost var before := book;
      var after: Book := *;
      if Moves(book, after) {
        book := after;
      }
      history := history + [book];
      if old(AllBacked()) {
        MovesKeepBacked(before, book);
      }
    }

    method Discover() returns (r: Result<seq<Target>>)
      modifies this
      ensures Moves(old(book), book) && old(history) < history
      ensures log == old(log).(discoveries := old(log).discoveries + [Call(|old(history)|, old(log).accepted, r)],
                               raises := Raising(old(log).raises, r, Discovering))
      ensures old(AllBacked()) ==> AllBacked()
    {
      ghost var at := |history|;
      Drift();
      var found: seq<Target> := *;
      var raised: bool := *;
      r := if raised then Raised else Ok(found);
      log := log.(discoveries := log.discoveries + [Call(at, log.accepted, r)], raises := Raising(log.raises, r, Discovering));
    }

    method Cancel() returns (r: Result<nat>)
      modifies this
      ensures Moves(old(book), book) && old(history) < history
      ensures log == old(log).(cancellations := old(log).cancellations + [Call(|old(history)|, old(log).accepted, r)],
                               raises := Raising(old(log).raises, r, Canceling))
      ensures old(AllBacked()) ==> AllBacked()
    {
      ghost var at := |history|;
      Drift();
      var count: nat := *;
      var raised: bool := *;
      r := if raised then Raised else Ok(count);
      log := log.(cancellations := log.cancellations + [Call(at, log.accepted, r)], raises := Raising(log.raises, r, Canceling));
    }

    /** GET of one position; a missing position reads as zero shares. */
    method Fetch(symbol: string) returns (r: Result<real>)
      modifies this`book, this`history
      ensures Moves(old(book), book) && history == old(history) + [book]
      ensures r.Ok? ==> r.value == Absolute(Live(book, symbol))
      ensures old(AllBacked()) ==> AllBacked()
    {
      Drift();
      var raised: bool := *;
      r := if raised then Raised else Ok(Absolute(Live(book, symbol)));
    }

    /** DELETE of `p.quantity` shares, reaching the account in state `moved`. */
    method Close(p: Position) returns (r: Result<Position>, ghost moved: Book)
      modifies this
      ensures history == old(history) + [moved, book]
      ensures log == old(log).(accepted := old(log).accepted + if r.Ok? then [p] else [],
                               raises := Raising(old(log).raises, r, Closing(p.symbol)))
      ensures r.Ok? ==> r.value == p
      ensures Moves(old(book), moved)
      ensures if r.Ok? then book == Submit(moved, p) else book == moved || (!inert && book == Submit(moved, p))
      ensures old(AllBacked()) && Backed(book) ==> AllBacked()
    {
      Drift();
      moved := book;
      var raised: bool := *;
      var takesEffect: bool := *;
      if !raised || (!inert && takesEffect) {
        book := Submit(book, p);
      }
      history := history + [book];
      assert history == old(history) + [moved, book];
      r := if raised then Raised else Ok(p);
      log := log.(accepted := log.accepted + if r.Ok? then [p] else [],
                  raises := Raising(log.raises, r, Closing(p.symbol)));
    }

    /** One position clamped to its target: at most what is held, and zero only if nothing is held. */
    method Observe(target: Target) returns (r: Result<real>)
      modifies this`book, this`history
      ensures history == old(history) + [book]
      ensures book.submitted == old(book.submitted) && FillsGrow(old(book), book)
      ensures r.Ok? ==> r.value == Observed(book, target.symbol, target.quantity)
      ensures old(AllBacked()) ==> AllBacked()
    {
      ghost var before := book;
      var shares := Fetch(target.symbol);
      MovesGrow(before, book);
      if shares.Raised? {
        return Raised;
      }
      r := Ok(if shares.value < target.quantity then shares.value else target.quantity);
    }

    /** Lists the targets in symbol order, each clamped to its target quantity. */
    method ListPositions(targets: seq<Target>) returns (r: Result<seq<Position>>)
      modifies this
      ensures old(history) <= history
      ensures log == old(log).(listings := old(log).listings + [Call(|old(history)|, old(log).accepted, r)],
                               raises := Raising(old(log).raises, r, Listing))
      ensures book.submitted == old(book.submitted) && FillsGrow(old(book), book)
      ensures r.Ok? ==> ListsAll(r.value, targets, history, |old(history)|)
      ensures old(AllBacked()) ==> AllBacked()
      ensures r.Ok? && old(AllBacked()) ==> Held(r.value, old(book), book)
    {
      ghost var at := |history|;
      var ordered := SortBy((a: Target, b: Target) => LexLe(a.symbol, b.symbol), targets);
      SameElements(ordered, targets);
      var positions: seq<Position> := [];
      for i := 0 to |ordered|
        invariant old(history) <= history && log == old(log)
        invariant book.submitted == old(book.submitted) && FillsGrow(old(book), book)
        invariant ListsFirst(positions, ordered, i, history, |old(history)|)
        invariant old(AllBacked()) ==> AllBacked()
        invariant old(AllBacked()) ==> Held(positions, old(book), book)
      {
        ghost var seen, start, before, target := history, book, positions, ordered[i];
        var quantity := Observe(ordered[i]);
        if quantity.Raised? {
          log := log.(listings := log.listings + [Call(at, log.accepted, Raised)], raises := log.raises + [Listing]);
          return Raised;
        }
        if quantity.value > 0.0 {
          positions := positions + [Position(ordered[i].symbol, quantity.value)];
        }
        ListsOneMore(before, positions, ordered, i, seen, book, |old(history)|);
        if old(AllBacked()) {
          HeldOneMore(before, positions, target, old(book), start, book);
        }
      }
      r := Ok(positions);
      log := log.(listings := log.listings + [Call(at, log.accepted, r)]);
    }
  }

  ghost predicate Clamped(p: Position, targets: seq<Target>) {
    exists t :: t in targets && t.symbol == p.symbol && p.quantity <= t.quantity
  }

  ghost predicate Mentions(positions: seq<Position>, symbol: string) {
    exists k :: 0 <= k < |positions| && positions[k].symbol == symbol
  }

  /** The observations leave room: each is at most the fills so far less the closes executed at `start`. */
  ghost predicate Held(positions: seq<Position>, start: Book, now: Book) {
    forall p :: p in positions ==> p.quantity <= Get(now.filled, p.symbol) - Get(start.executed, p.symbol)
  }

  /** In one of the states from `since` on the account held no shares of the symbol. */
  ghost predicate WasFlat(states: seq<Book>, since: nat, symbol: string) {
    exists k :: since <= k < |states| && Live(states[k], symbol) == 0.0
  }

  /** The position is what some target shows in one of the states from `since` on. */
  ghost predicate Shows(p: Position, targets: seq<Target>, states: seq<Book>, since: nat) {
    exists t, k :: t in targets && since <= k < |states| && t.symbol == p.symbol
                   && p.quantity == Observed(states[k], p.symbol, t.quantity)
  }

  /** A symbol is listed, or it was found flat. */
  ghost predicate Answers(positions: seq<Position>, states: seq<Book>, since: nat, symbol: string) {
    Mentions(positions, symbol) || WasFlat(states, since, symbol)
  }

  ghost predicate ListsFirst(positions: seq<Position>, targets: seq<Target>, n: nat, states: seq<Book>, since: nat) {
    && n <= |targets|
    && (forall p :: p in positions ==> Shows(p, targets, states, since))
    && (forall k :: 0 <= k < n ==> Answers(positions, states, since, targets[k].symbol))
  }

  /** A listing shows nothing but targets, and passes over a target only if it is flat. */
  ghost predicate ListsAll(positions: seq<Position>, targets: seq<Target>, states: seq<Book>, since: nat) {
    && (forall p :: p in positions ==> Shows(p, targets, states, since))
    && (forall t :: t in targets ==> Answers(positions, states, since, t.symbol))
  }

  lemma ListsOneMore(before: seq<Position>, positions: seq<Position>, targets: seq<Target>, i: nat,
                     seen: seq<Book>, book: Book, since: nat)
    requires i < |targets| && since <= |seen|
    requires ListsFirst(before, targets, i, seen, since)
    requires var shown := Observed(book, targets[i].symbol, targets[i].quantity);
             positions == before + if shown > 0.0 then [Position(targets[i].symbol, shown)] else []
    ensures ListsFirst(positions, targets, i + 1, seen + [book], since)
  {
    var states, t := seen + [book], targets[i];
    assert states[|seen|] == book && t in targets;
    forall p | p in positions ensures Shows(p, targets, states, since) {
      if p in before {
        var u, k :| u in targets && since <= k < |seen| && u.symbol == p.symbol
                    && p.quantity == Observed(seen[k], p.symbol, u.quantity);
        assert states[k] == seen[k];
      } else {
        assert p.quantity == Observed(states[|seen|], p.symbol, t.quantity);
      }
    }
    forall k | 0 <= k < i + 1 ensures Answers(positions, states, since, targets[k].symbol) {
      if k < i {
        AnswersStay(before, positions, seen, states, since, targets[k].symbol);
      } else if |positions| > |before| {
        assert positions[|before|].symbol == t.symbol;
      } else {
        assert Live(states[|seen|], t.symbol) == 0.0;
      }
    }
  }

  lemma AnswersStay(a: seq<Position>, b: seq<Position>, x: seq<Book>, y: seq<Book>, since: nat, symbol: string)
    requires a <= b && x <= y && Answers(a, x, since, symbol)
    ensures Answers(b, y, since, symbol)
  {
    if Mentions(a, symbol) {
      var k :| 0 <= k < |a| && a[k].symbol == symbol;
      assert b[k] == a[k];
    } else {
      FlatStays(x, y, since, symbol);
    }
  }

  lemma HeldOneMore(before: seq<Position>, positions: seq<Position>, target: Target, start: Book, middle: Book, now: Book)
    requires Held(before, start, middle) && FillsGrow(middle, now) && FillsGrow(start, now) && Backed(now)
    requires var shown := Observed(now, target.symbol, target.quantity);
             positions == before + if shown > 0.0 then [Position(target.symbol, shown)] else []
    ensures Held(positions, start, now)
  {
    assert Get(now.executed, target.symbol) <= Get(now.filled, target.symbol);
  }

  lemma ListsAllStays(positions: seq<Position>, targets: seq<Target>, a: seq<Book>, b: seq<Book>, since: nat)
    requires ListsAll(positions, targets, a, since) && a <= b
    ensures ListsAll(positions, targets, b, since)
  {
    forall p | p in positions ensures Shows(p, targets, b, since) {
      assert Shows(p, targets, a, since);
      var t, k :| t in targets && since <= k < |a| && t.symbol == p.symbol
                  && p.quantity == Observed(a[k], p.symbol, t.quantity);
      assert b[k] == a[k];
    }
    forall t | t in targets ensures Answers(positions, b, since, t.symbol) {
      AnswersStay(positions, positions, a, b, since, t.symbol);
    }
  }

  lemma ShowsClamped(positions: seq<Position>, targets: seq<Target>, states: seq<Book>, since: nat)
    requires forall p :: p in positions ==> Shows(p, targets, states, since)
    ensures forall p :: p in positions ==> Clamped(p, targets)
  {
    forall p | p in positions ensures Clamped(p, targets) {
      assert Shows(p, targets, states, since);
    }
  }

  lemma FlatStays(a: seq<Book>, b: seq<Book>, since: nat, symbol: string)
    requires a <= b && WasFlat(a, since, symbol)
    ensures WasFlat(b, since, symbol)
  {
    var k :| since <= k < |a| && Live(a[k], symbol) == 0.0;
    assert b[k] == a[k];
  }

  // ---------- merging the targets ----------

  datatype Claim = Claim(symbol: string, quantity: Quantity, source: Source)

  /** What asks for a symbol to be flattened: every discovered target, then every positive ledger quantity. */
  function LedgerClaims(managed: seq<(string, real)>): seq<Claim> {
    if managed == [] then []
    else
      var last := managed[|managed| - 1];
      LedgerClaims(managed[..|managed| - 1])
      + if last.1 > 0.0 then [Claim(last.0, last.1, ExecutionLedger)] else []
  }

  function Claims(discovered: seq<Target>, managed: seq<(string, real)>): seq<Claim> {
    DiscoveredClaims(discovered) + LedgerClaims(managed)
  }

  function DiscoveredClaims(discovered: seq<Target>): (r: seq<Claim>)
    ensures |r| == |discovered|
    ensures forall i :: 0 <= i < |r| ==> r[i] == Claim(discovered[i].symbol, discovered[i].quantity, discovered[i].source)
  {
    Map((t: Target) => Claim(t.symbol, t.quantity, t.source), discovered)
  }

  ghost predicate LargestClaim(claims: seq<Claim>, symbol: string, quantity: real) {
    && (exists k :: 0 <= k < |claims| && claims[k].symbol == symbol && claims[k].quantity == quantity)
    && (forall k :: 0 <= k < |claims| && claims[k].symbol == symbol ==> claims[k].quantity <= quantity)
  }

  function SourcesOf(claims: seq<Claim>, symbol: string): set<Source> {
    set k | 0 <= k < |claims| && claims[k].symbol == symbol :: claims[k].source
  }

  /** Insertion-ordered dictionaries of quantities and sources. */
  datatype Table = Table(keys: seq<string>, quantities: map<string, Quantity>, sources: map<string, set<Source>>)

  ghost predicate Tabulates(t: Table, claims: seq<Claim>) {
    && Distinct(t.keys)
    && (forall s :: s in t.keys <==> s in t.quantities)
    && (forall s :: s in t.keys <==> s in t.sources)
    && (forall k :: 0 <= k < |claims| ==> claims[k].symbol in t.keys)
    && (forall s :: s in t.keys ==> TabulatesKey(t, claims, s))
  }

  function Put(t: Table, c: Claim): Table {
    Table(
      if c.symbol in t.quantities then t.keys else t.keys + [c.symbol],
      t.quantities[c.symbol := if c.symbol in t.quantities && t.quantities[c.symbol] > c.quantity
                               then t.quantities[c.symbol] else c.quantity],
      t.sources[c.symbol := (if c.symbol in t.sources then t.sources[c.symbol] else {}) + {c.source}])
  }

  ghost predicate TabulatesKey(t: Table, claims: seq<Claim>, s: string)
    requires s in t.quantities && s in t.sources
  {
    LargestClaim(claims, s, t.quantities[s]) && t.sources[s] == SourcesOf(claims, s) && t.sources[s] != {}
  }

  lemma PutTabulates(t: Table, claims: seq<Claim>, c: Claim)
    requires Tabulates(t, claims)
    ensures Tabulates(Put(t, c), claims + [c])
  {
    var all, n := claims + [c], Put(t, c);
    forall s | s in n.keys ensures TabulatesKey(n, all, s) {
      PutTabulatesKey(t, claims, c, s);
    }
    forall k | 0 <= k < |all| ensures all[k].symbol in n.keys {
      assert k < |claims| ==> claims[k].symbol in t.keys;
    }
  }

  lemma PutTabulatesKey(t: Table, claims: seq<Claim>, c: Claim, s: string)
    requires Tabulates(t, claims)
    requires s in t.keys || s == c.symbol
    ensures s in Put(t, c).quantities && s in Put(t, c).sources && TabulatesKey(Put(t, c), claims + [c], s)
  {
    SourcesSnoc(claims, c, s);
    if s in t.keys {
      LargestSnoc(claims, c, s, t.quantities[s]);
    } else {
      assert SourcesOf(claims, s) == {} && (claims + [c])[|claims|] == c;
    }
  }

  lemma LargestSnoc(claims: seq<Claim>, c: Claim, s: string, q: real)
    requires LargestClaim(claims, s, q)
    ensures LargestClaim(claims + [c], s, if c.symbol == s && c.quantity >= q then c.quantity else q)
  {
    var all := claims + [c];
    var k :| 0 <= k < |claims| && claims[k].symbol == s && claims[k].quantity == q;
    assert all[k] == claims[k] && all[|claims|] == c;
  }

  lemma SourcesSnoc(claims: seq<Claim>, c: Claim, s: string)
    ensures SourcesOf(claims + [c], s) == SourcesOf(claims, s) + if c.symbol == s then {c.source} else {}
  {
    var all := claims + [c];
    assert all[|claims|] == c;
    forall x | x in SourcesOf(claims, s) ensures x in SourcesOf(all, s) {
      var k :| 0 <= k < |claims| && claims[k].symbol == s && claims[k].source == x;
      assert all[k] == claims[k];
    }
  }

  /** One target per claimed symbol, in symbol order, with the largest claim and its sources. */
  ghost predicate Merges(targets: seq<Target>, claims: seq<Claim>) {
    && (forall i, j :: 0 <= i < j < |targets| ==>
          LexLe(targets[i].symbol, targets[j].symbol) && targets[i].symbol != targets[j].symbol)
    && (forall c :: c in claims ==> exists t :: t in targets && t.symbol == c.symbol)
    && (forall t :: t in targets ==>
          && LargestClaim(claims, t.symbol, t.quantity)
          && (|SourcesOf(claims, t.symbol)| > 1 ==> t.source == Combined)
          && (|SourcesOf(claims, t.symbol)| <= 1 ==> SourcesOf(claims, t.symbol) == {t.source}))
  }

  method MergeTargets(discovered: seq<Target>, managed: seq<(string, real)>) returns (targets: seq<Target>)
    ensures Merges(targets, Claims(discovered, managed))
  {
    var table := AddDiscovered(discovered);
    table := AddManaged(table, DiscoveredClaims(discovered), managed);
    targets := TabulatedTargets(table, Claims(discovered, managed));
  }

  method AddDiscovered(discovered: seq<Target>) returns (table: Table)
    ensures Tabulates(table, DiscoveredClaims(discovered))
  {
    table := Table([], map[], map[]);
    ghost var found := DiscoveredClaims(discovered);
    for i := 0 to |discovered|
      invariant Tabulates(table, found[..i])
    {
      assert found[..i + 1] == found[..i] + [found[i]];
      PutTabulates(table, found[..i], found[i]);
      table := Put(table, Claim(discovered[i].symbol, discovered[i].quantity, discovered[i].source));
    }
    assert found[..|discovered|] == found;
  }

  method AddManaged(start: Table, ghost found: seq<Claim>, managed: seq<(string, real)>) returns (table: Table)
    requires Tabulates(start, found)
    ensures Tabulates(table, found + LedgerClaims(managed))
  {
    table := start;
    assert found + LedgerClaims(managed[..0]) == found;
    for i := 0 to |managed|
      invariant Tabulates(table, found + LedgerClaims(managed[..i]))
    {
      LedgerStep(found, managed, i);
      if managed[i].1 > 0.0 {
        var c := Claim(managed[i].0, managed[i].1, ExecutionLedger);
        PutTabulates(table, found + LedgerClaims(managed[..i]), c);
        table := Put(table, c);
      }
    }
    assert managed[..|managed|] == managed;
  }

  lemma LedgerStep(found: seq<Claim>, managed: seq<(string, real)>, i: nat)
    requires i < |managed|
    ensures found + LedgerClaims(managed[..i + 1]) ==
            if managed[i].1 > 0.0
            then (found + LedgerClaims(managed[..i])) + [Claim(managed[i].0, managed[i].1, ExecutionLedger)]
            else found + LedgerClaims(managed[..i])
  {
    assert managed[..i + 1][..i] == managed[..i];
  }

  method TabulatedTargets(table: Table, ghost claims: seq<Claim>) returns (targets: seq<Target>)
    requires Tabulates(table, claims)
    ensures Merges(targets, claims)
  {
    var keys := SortBy(LexLe, table.keys);
    SortedKeys(table.keys);
    targets := [];
    for i := 0 to |keys|
      invariant |targets| == i && forall k :: 0 <= k < i ==> targets[k].symbol == keys[k]
      invariant forall t :: t in targets ==>
              && LargestClaim(claims, t.symbol, t.quantity)
              && (|SourcesOf(claims, t.symbol)| > 1 ==> t.source == Combined)
              && (|SourcesOf(claims, t.symbol)| <= 1 ==> SourcesOf(claims, t.symbol) == {t.source})
    {
      var s := keys[i];
      assert s in keys;
      var only :| only in table.sources[s];
      Singleton(table.sources[s], only);
      targets := targets + [Target(s, table.quantities[s], if |table.sources[s]| > 1 then Combined else only)];
    }
    forall c | c in claims ensures exists t :: t in targets && t.symbol == c.symbol {
      assert c.symbol in keys;
      var k :| 0 <= k < |keys| && keys[k] == c.symbol;
      assert targets[k] in targets;
    }
  }

  lemma Singleton<T>(s: set<T>, x: T)
    requires x in s
    ensures |s| <= 1 ==> s == {x}
  {
    assert |s - {x}| == |s| - 1;
    if |s| <= 1 {
      assert s - {x} == {};
      assert s == {x};
    }
  }

  // ---------- the flatten run ----------

  function ClosedTotal(orders: seq<Position>, s: string): real {
    if orders == [] then 0.0
    else
      var last := orders[|orders| - 1];
      ClosedTotal(orders[..|orders| - 1], s) + if last.symbol == s then last.quantity else 0.0
  }

  /** The largest of the observed positions whose close succeeded. */
  function LargestClosed(closed: seq<Position>, s: string): real {
    if closed == [] then 0.0
    else
      var last := closed[|closed| - 1];
      var before := LargestClosed(closed[..|closed| - 1], s);
      if last.symbol == s && last.quantity > before then last.quantity else before
  }

  lemma ClosedTotalSnoc(orders: seq<Position>, p: Position, s: string)
    ensures ClosedTotal(orders + [p], s) == ClosedTotal(orders, s) + if p.symbol == s then p.quantity else 0.0
  {
    assert (orders + [p])[..|orders|] == orders;
  }

  lemma LargestClosedSnoc(closed: seq<Position>, p: Position, s: string)
    ensures LargestClosed(closed + [p], s) ==
            if p.symbol == s && p.quantity > LargestClosed(closed, s) then p.quantity else LargestClosed(closed, s)
  {
    assert (closed + [p])[..|closed|] == closed;
  }

  /** It is one of the closed observations, or zero when the symbol was never closed. */
  lemma {:induction false} LargestClosedIsObserved(closed: seq<Position>, s: string)
    ensures LargestClosed(closed, s) == 0.0 ||
            exists k :: 0 <= k < |closed| && closed[k].symbol == s && closed[k].quantity == LargestClosed(closed, s)
    ensures forall k :: 0 <= k < |closed| && closed[k].symbol == s ==> closed[k].quantity <= LargestClosed(closed, s)
  {
    if closed != [] {
      LargestClosedIsObserved(closed[..|closed| - 1], s);
    }
  }

  ghost predicate NothingOutstanding(b: Book) {
    forall s :: Outstanding(b, s) == 0.0
  }

  /** Per symbol, what was asked for is the sum of the close orders and the largest closed observation. */
  ghost predicate Tallies(orders: seq<Position>, submitted: map<string, real>, closed: seq<Position>) {
    forall s :: Get(submitted, s) == ClosedTotal(orders, s) == LargestClosed(closed, s)
  }

  lemma CloseTallies(orders: seq<Position>, submitted: map<string, real>, closed: seq<Position>, p: Position, order: Position)
    requires Tallies(orders, submitted, closed)
    requires order.symbol == p.symbol && order.quantity == p.quantity - Get(submitted, p.symbol)
    ensures Tallies(orders + [order], submitted[p.symbol := p.quantity], closed + [p])
  {
    forall s ensures Get(submitted[p.symbol := p.quantity], s) == ClosedTotal(orders + [order], s)
    ensures Get(submitted[p.symbol := p.quantity], s) == LargestClosed(closed + [p], s) {
      ClosedTotalSnoc(orders, order, s);
      LargestClosedSnoc(closed, p, s);
    }
  }

  /** The account received the closes the service counts as submitted, and no others if raising closes are inert. */
  ghost predicate Reaches(base: Book, book: Book, submitted: map<string, real>, inert: bool) {
    forall s ::
      && Get(book.submitted, s) >= Get(base.submitted, s) + Get(submitted, s)
      && (inert ==> Get(book.submitted, s) == Get(base.submitted, s) + Get(submitted, s))
  }

  /** The account's submitted closes are those of `base` plus the service's own, and `base` was fully executed. */
  ghost predicate OwnCloses(base: Book, book: Book, submitted: map<string, real>) {
    && Backed(book)
    && (forall s :: Get(book.submitted, s) == Get(base.submitted, s) + Get(submitted, s))
    && (forall s :: Get(base.submitted, s) <= Get(book.executed, s))
  }

  lemma MovesKeepOwn(base: Book, a: Book, b: Book, submitted: map<string, real>)
    requires OwnCloses(base, a, submitted) && Moves(a, b)
    ensures OwnCloses(base, b, submitted)
  {
    MovesKeepBacked(a, b);
    MovesGrow(a, b);
  }

  lemma FreshTallies(base: Book, b: Book, inert: bool)
    requires Moves(base, b)
    ensures Tallies([], map[], []) && Reaches(base, b, map[], inert)
  {
    MovesGrow(base, b);
  }

  lemma FreshOwns(b: Book)
    requires Backed(b) && NothingOutstanding(b)
    ensures OwnCloses(b, b, map[])
  {
    forall s ensures Get(b.submitted, s) <= Get(b.executed, s) {
      assert Outstanding(b, s) == 0.0;
    }
  }

  /** Closing the uncovered part of an observation that is within the fills keeps every close backed. */
  lemma CloseKeepsOwn(base: Book, b: Book, submitted: map<string, real>, p: Position, order: Position)
    requires OwnCloses(base, b, submitted)
    requires order.symbol == p.symbol && order.quantity == p.quantity - Get(submitted, p.symbol)
    requires p.quantity <= Get(b.filled, p.symbol) - Get(base.submitted, p.symbol)
    ensures OwnCloses(base, Submit(b, order), submitted[p.symbol := p.quantity])
  {
    var n := Submit(b, order);
    forall s ensures 0.0 <= Get(n.executed, s) <= Get(n.submitted, s) <= Get(n.filled, s) {
      assert 0.0 <= Get(b.executed, s) <= Get(b.submitted, s) <= Get(b.filled, s);
    }
    forall s ensures Get(n.submitted, s) == Get(base.submitted, s) + Get(submitted[p.symbol := p.quantity], s) {
      assert Get(b.submitted, s) == Get(base.submitted, s) + Get(submitted, s);
    }
  }

  /** The position is asked for in full, or closing its symbol raised. */
  predicate Covers(submitted: map<string, real>, errors: seq<Failure>, p: Position) {
    p.quantity <= Get(submitted, p.symbol) || CloseFailed(p.symbol) in errors
  }

  /** One of the listings showed the position. */
  ghost predicate Listed(p: Position, listings: seq<Call<seq<Position>>>) {
    exists k :: 0 <= k < |listings| && p in Found(listings[k].reply)
  }

  lemma ListedNext(p: Position, listings: seq<Call<seq<Position>>>, c: Call<seq<Position>>)
    ensures Listed(p, listings + [c]) <==> Listed(p, listings) || p in Found(c.reply)
  {
    var all := listings + [c];
    assert all[|listings|] == c;
    if Listed(p, listings) {
      var k :| 0 <= k < |listings| && p in Found(listings[k].reply);
      assert all[k] == listings[k];
    }
    if Listed(p, all) {
      var k :| 0 <= k < |all| && p in Found(all[k].reply);
      assert k < |listings| ==> all[k] == listings[k];
    }
  }

  ghost predicate AllCovered(listings: seq<Call<seq<Position>>>, submitted: map<string, real>, errors: seq<Failure>) {
    forall p :: Listed(p, listings) ==> Covers(submitted, errors, p)
  }

  lemma CoversMore(listings: seq<Call<seq<Position>>>, c: Call<seq<Position>>, submitted: map<string, real>,
                   errors: seq<Failure>, next: map<string, real>, all: seq<Failure>)
    requires AllCovered(listings, submitted, errors)
    requires errors <= all && forall s :: Get(submitted, s) <= Get(next, s)
    requires forall p :: p in Found(c.reply) ==> Covers(next, all, p)
    ensures AllCovered(listings + [c], next, all)
  {
    forall p | Listed(p, listings + [c]) ensures Covers(next, all, p) {
      ListedNext(p, listings, c);
      assert Listed(p, listings) ==> Covers(submitted, errors, p);
    }
  }

  /** Every listed position was asked for in full, or closing its symbol raised. */
  ghost predicate CoveredBy(listings: seq<Call<seq<Position>>>, orders: seq<Position>, errors: seq<Failure>) {
    forall p :: Listed(p, listings) ==> p.quantity <= ClosedTotal(orders, p.symbol) || CloseFailed(p.symbol) in errors
  }

  lemma Covered(listings: seq<Call<seq<Position>>>, orders: seq<Position>, closed: seq<Position>,
                submitted: map<string, real>, errors: seq<Failure>)
    requires AllCovered(listings, submitted, errors) && Tallies(orders, submitted, closed)
    ensures CoveredBy(listings, orders, errors)
  {
  }

  /** Before each listing the positions of all earlier ones were asked for in full, or closing their symbols raised. */
  ghost predicate Prompt(listings: seq<Call<seq<Position>>>, accepted: seq<Position>, errors: seq<Failure>) {
    forall k :: 0 <= k < |listings| ==> PromptAt(listings[..k], listings[k].asked, accepted, errors)
  }

  ghost predicate PromptAt(before: seq<Call<seq<Position>>>, asked: seq<Position>, accepted: seq<Position>, errors: seq<Failure>) {
    exists orders, failed :: asked == accepted + orders && failed <= errors && CoveredBy(before, orders, failed)
  }

  lemma PromptNow(before: seq<Call<seq<Position>>>, asked: seq<Position>, accepted: seq<Position>, orders: seq<Position>,
                  errors: seq<Failure>)
    requires asked == accepted + orders && CoveredBy(before, orders, errors)
    ensures PromptAt(before, asked, accepted, errors)
  {
  }

  lemma PromptMore(listings: seq<Call<seq<Position>>>, c: Call<seq<Position>>, accepted: seq<Position>, errors: seq<Failure>,
                   all: seq<Failure>)
    requires Prompt(listings, accepted, errors) && PromptAt(listings, c.asked, accepted, errors) && errors <= all
    ensures Prompt(listings + [c], accepted, all)
  {
    var longer := listings + [c];
    forall k | 0 <= k < |longer| ensures PromptAt(longer[..k], longer[k].asked, accepted, all) {
      assert longer[..k] == listings[..k];
      assert PromptAt(listings[..k], longer[k].asked, accepted, errors);
    }
  }

  /** Every closed observation was listed and is within a target of its symbol. */
  ghost predicate FromListings(closed: seq<Position>, listings: seq<Call<seq<Position>>>, targets: seq<Target>) {
    forall p :: p in closed ==> Listed(p, listings) && Clamped(p, targets)
  }

  lemma ListingsMore(closed: seq<Position>, next: seq<Position>, listings: seq<Call<seq<Position>>>,
                     c: Call<seq<Position>>, targets: seq<Target>, states: seq<Book>)
    requires FromListings(closed, listings, targets) && Tells(c, targets, states)
    requires forall p :: p in next ==> p in closed || p in Found(c.reply)
    ensures FromListings(next, listings + [c], targets)
  {
    forall p | p in next ensures Listed(p, listings + [c]) && Clamped(p, targets) {
      ListedNext(p, listings, c);
      if p !in closed {
        ShowsClamped(c.reply.value, targets, states, c.at);
      }
    }
  }

  /** A listing that did not raise shows what the account held since it began. */
  ghost predicate Tells(c: Call<seq<Position>>, targets: seq<Target>, states: seq<Book>) {
    c.reply.Ok? ==> ListsAll(c.reply.value, targets, states, c.at)
  }

  ghost predicate Truthful(listings: seq<Call<seq<Position>>>, targets: seq<Target>, states: seq<Book>, since: nat) {
    forall k :: 0 <= k < |listings| ==> since <= listings[k].at && Tells(listings[k], targets, states)
  }

  lemma NothingListed(targets: seq<Target>, states: seq<Book>, since: nat, accepted: seq<Position>, errors: seq<Failure>)
    ensures FromListings([], [], targets) && AllCovered([], map[], errors) && Prompt([], accepted, errors)
    ensures Truthful([], targets, states, since)
  {
  }

  lemma TruthfulSooner(listings: seq<Call<seq<Position>>>, targets: seq<Target>, states: seq<Book>, since: nat, sooner: nat)
    requires Truthful(listings, targets, states, since) && sooner <= since
    ensures Truthful(listings, targets, states, sooner)
  {
  }

  lemma TellsStill(c: Call<seq<Position>>, targets: seq<Target>, states: seq<Book>, later: seq<Book>)
    requires Tells(c, targets, states) && states <= later
    ensures Tells(c, targets, later)
  {
    if c.reply.Ok? {
      ListsAllStays(c.reply.value, targets, states, later, c.at);
    }
  }

  lemma TruthfulMore(listings: seq<Call<seq<Position>>>, c: Call<seq<Position>>, targets: seq<Target>,
                     states: seq<Book>, mid: seq<Book>, later: seq<Book>, since: nat)
    requires Truthful(listings, targets, states, since) && states <= mid <= later
    requires since <= c.at && Tells(c, targets, mid)
    ensures Truthful(listings + [c], targets, later, since)
  {
    var all := listings + [c];
    forall k | 0 <= k < |all| ensures since <= all[k].at && Tells(all[k], targets, later) {
      TellsStill(all[k], targets, if k < |listings| then states else mid, later);
    }
  }

  function KindOf(f: Failure): Raise {
    match f
    case DiscoverFailed => Discovering
    case CancelFailed => Canceling
    case ListFailed => Listing
    case VerifyFailed => Listing
    case CloseFailed(symbol) => Closing(symbol)
  }

  /** The errors are the calls that raised after `before`, in order. */
  ghost predicate Reported(errors: seq<Failure>, raises: seq<Raise>, before: seq<Raise>) {
    && before <= raises && |raises| == |before| + |errors|
    && forall i :: 0 <= i < |errors| ==> raises[|before| + i] == KindOf(errors[i])
  }

  lemma EmptyMeansFlat(targets: seq<Target>, states: seq<Book>, since: nat, t: Target)
    requires ListsAll([], targets, states, since) && t in targets
    ensures WasFlat(states, since, t.symbol)
  {
    assert Answers([], states, since, t.symbol);
  }

  /** The service's variables as one value. */
  datatype Books = Books(closeOrders: seq<Position>, submitted: map<string, real>, errors: seq<Failure>, closed: seq<Position>)

  function Accepted(was: Books, p: Position, asked: Quantity): Books {
    Books(was.closeOrders + [Position(p.symbol, asked)], was.submitted[p.symbol := p.quantity], was.errors, was.closed + [p])
  }

  function Refused(was: Books, p: Position): Books {
    was.(errors := was.errors + [CloseFailed(p.symbol)])
  }

  /** What one position makes the service ask for: nothing when it is covered, otherwise one order over exactly its
      uncovered part, recorded as asked for only if the broker accepts it. */
  predicate AsksFor(was: Books, now: Books, p: Position) {
    var asked := Uncovered(was.submitted, p.symbol, p.quantity);
    if asked <= 0.0 then now == was else now == Accepted(was, p, asked) || now == Refused(was, p)
  }

  /** What the account goes through meanwhile: nothing, or that order once unless it is refused without effect. */
  ghost predicate Receives(was: Books, now: Books, before: Book, path: seq<Book>, p: Position, inert: bool) {
    var asked := Uncovered(was.submitted, p.symbol, p.quantity);
    if asked <= 0.0 then path == []
    else
      && |path| == 2 && Moves(before, path[0])
      && (if now.errors == was.errors then path[1] == Submit(path[0], Position(p.symbol, asked))
          else path[1] == path[0] || (!inert && path[1] == Submit(path[0], Position(p.symbol, asked))))
  }

  /** What the broker logs meanwhile. */
  ghost predicate Logged(was: Books, now: Books, before: Log, after: Log, p: Position) {
    var asked := Uncovered(was.submitted, p.symbol, p.quantity);
    after == if asked <= 0.0 then before
             else if now.errors == was.errors then before.(accepted := before.accepted + [Position(p.symbol, asked)])
             else before.(raises := before.raises + [Closing(p.symbol)])
  }

  /** The errors are the raises since `start`, and the close orders the closes the broker accepted since. */
  ghost predicate Booked(b: Books, log: Log, start: Log) {
    Reported(b.errors, log.raises, start.raises) && log.accepted == start.accepted + b.closeOrders
  }

  lemma AskingKeeps(was: Books, now: Books, before: Log, after: Log, p: Position, start: Log)
    requires Booked(was, before, start) && AsksFor(was, now, p) && Logged(was, now, before, after, p)
    ensures Booked(now, after, start)
  {
  }

  function Last(before: Book, path: seq<Book>): Book {
    if path == [] then before else path[|path| - 1]
  }

  lemma AskingGrows(was: Books, now: Books, p: Position)
    requires AsksFor(was, now, p)
    ensures was.errors <= now.errors && was.closed <= now.closed
    ensures forall s :: Get(was.submitted, s) <= Get(now.submitted, s)
    ensures Covers(now.submitted, now.errors, p)
    ensures Tallies(was.closeOrders, was.submitted, was.closed) ==> Tallies(now.closeOrders, now.submitted, now.closed)
  {
    var asked := Uncovered(was.submitted, p.symbol, p.quantity);
    if asked > 0.0 && now == Accepted(was, p, asked) && Tallies(was.closeOrders, was.submitted, was.closed) {
      CloseTallies(was.closeOrders, was.submitted, was.closed, p, Position(p.symbol, asked));
    }
  }

  lemma ReceivingGrows(was: Books, now: Books, before: Book, path: seq<Book>, p: Position, inert: bool)
    requires Receives(was, now, before, path, p, inert)
    ensures FillsGrow(before, Last(before, path))
  {
    if path != [] {
      MovesGrow(before, path[0]);
    }
  }

  lemma AskingReaches(base: Book, was: Books, now: Books, before: Book, path: seq<Book>, p: Position, inert: bool)
    requires Reaches(base, before, was.submitted, inert)
    requires AsksFor(was, now, p) && Receives(was, now, before, path, p, inert)
    ensures Reaches(base, Last(before, path), now.submitted, inert)
  {
    if path != [] {
      MovesGrow(before, path[0]);
    }
  }

  /** One close, accepted or refused without effect, leaves the account's closes the service's own. */
  lemma AskingStaysOwn(base: Book, was: Books, now: Books, before: Book, path: seq<Book>, p: Position)
    requires OwnCloses(base, before, was.submitted)
    requires p.quantity <= Get(before.filled, p.symbol) - Get(base.submitted, p.symbol)
    requires AsksFor(was, now, p) && Receives(was, now, before, path, p, true)
    ensures OwnCloses(base, Last(before, path), now.submitted)
  {
    if path != [] {
      MovesKeepOwn(base, before, path[0], was.submitted);
      MovesGrow(before, path[0]);
      CloseKeepsOwn(base, path[0], was.submitted, p, Position(p.symbol, Uncovered(was.submitted, p.symbol, p.quantity)));
    }
  }

  /** The service with the variables its close loop captures, and the listings of the current run. */
  class FlattenService {
    const broker: Broker
    var closeOrders: seq<Position>
    var submitted: map<string, real>
    var errors: seq<Failure>
    ghost var closed: seq<Position>
    ghost var listings: seq<Call<seq<Position>>>

    constructor (broker: Broker)
      ensures this.broker == broker
    {
      this.broker := broker;
      closeOrders, submitted, errors, closed, listings := [], map[], [], [], [];
    }

    ghost function CurrentBooks(): Books
      reads this
    {
      Books(closeOrders, submitted, errors, closed)
    }

    /** The books agree with each other, with the broker's log and with the account. */
    ghost predicate Accounted(start: Start)
      reads this, broker
    {
      && Tallies(closeOrders, submitted, closed)
      && Booked(CurrentBooks(), broker.log, start.log)
      && Reaches(start.book, broker.book, submitted, broker.inert)
    }

    /** No state of the account was ever short, and its closes since `base` are the service's. */
    ghost predicate Safe(base: Book)
      reads this, broker
    {
      broker.inert && broker.AllBacked() && OwnCloses(base, broker.book, submitted)
    }

    /** The fills since `base` cover the whole position. */
    ghost predicate HasRoom(base: Book, p: Position)
      reads broker
    {
      p.quantity <= Get(broker.book.filled, p.symbol) - Get(base.submitted, p.symbol)
    }

    ghost predicate Coverable(base: Book, positions: seq<Position>)
      reads broker
    {
      forall p :: p in positions ==> HasRoom(base, p)
    }

    predicate CoveredOrFailed(p: Position)
      reads this
    {
      Covers(submitted, errors, p)
    }

    /** Closes only add, and make no other call. */
    twostate predicate Grows()
      reads this, broker
    {
      && old(errors) <= errors && listings == old(listings)
      && old(broker.history) <= broker.history
      && broker.log == old(broker.log).(accepted := broker.log.accepted, raises := broker.log.raises)
      && forall s :: Get(old(submitted), s) <= Get(submitted, s)
    }

    method CloseUncovered(positions: seq<Position>, ghost start: Start)
      requires Accounted(start)
      modifies this, broker
      ensures Accounted(start) && Grows()
      ensures forall c :: c in closed ==> c in old(closed) || c in positions
      ensures forall p :: p in positions ==> CoveredOrFailed(p)
      ensures old(Safe(start.book) && Coverable(start.book, positions)) ==> Safe(start.book)
    {
      hide Accounted, Safe;
      for i := 0 to |positions|
        invariant Accounted(start) && Grows()
        invariant forall c :: c in closed ==> c in old(closed) || c in positions
        invariant forall k :: 0 <= k < i ==> CoveredOrFailed(positions[k])
        invariant old(Safe(start.book) && Coverable(start.book, positions)) ==>
                    Safe(start.book) && Coverable(start.book, positions)
      {
        CloseKeeping(positions[i], start);
      }
    }

    /** Closes one observed position and keeps every invariant of the run. */
    method CloseKeeping(position: Position, ghost start: Start)
      requires Accounted(start)
      modifies this, broker
      ensures Accounted(start) && Grows()
      ensures closed == old(closed) || closed == old(closed) + [position]
      ensures CoveredOrFailed(position)
      ensures FillsGrow(old(broker.book), broker.book)
      ensures old(Safe(start.book) && HasRoom(start.book, position)) ==> Safe(start.book)
    {
      ghost var was, before, log := CurrentBooks(), broker.book, broker.log;
      ghost var path := CloseOne(position);
      AskingGrows(was, CurrentBooks(), position);
      AskingKeeps(was, CurrentBooks(), log, broker.log, position, start.log);
      AskingReaches(start.book, was, CurrentBooks(), before, path, position, broker.inert);
      ReceivingGrows(was, CurrentBooks(), before, path, position, broker.inert);
      if old(Safe(start.book) && HasRoom(start.book, position)) {
        AskingStaysOwn(start.book, was, CurrentBooks(), before, path, position);
      }
    }

    /** One position of the close loop; `path` is what the account goes through meanwhile. */
    method CloseOne(position: Position) returns (ghost path: seq<Book>)
      modifies this, broker
      ensures AsksFor(old(CurrentBooks()), CurrentBooks(), position) && listings == old(listings)
      ensures Receives(old(CurrentBooks()), CurrentBooks(), old(broker.book), path, position, broker.inert)
      ensures Logged(old(CurrentBooks()), CurrentBooks(), old(broker.log), broker.log, position)
      ensures broker.history == old(broker.history) + path && broker.book == Last(old(broker.book), path)
      ensures old(broker.AllBacked()) && Backed(broker.book) ==> broker.AllBacked()
    {
      path := [];
      var alreadySubmitted := Get(submitted, position.symbol);
      var uncovered := position.quantity - alreadySubmitted;
      if uncovered <= 0.0 {
        return;
      }
      var closeTarget := Position(position.symbol, uncovered);
      var order, moved := broker.Close(closeTarget);
      path := [moved, broker.book];
      if order.Ok? {
        closeOrders := closeOrders + [order.value];
        submitted := submitted[position.symbol := alreadySubmitted + uncovered];
        closed := closed + [position];
      } else {
        errors := errors + [CloseFailed(position.symbol)];
      }
    }

    /** What holds throughout a run whose listings begin at `start` and flatten `targets`. */
    ghost predicate Running(start: Start, targets: seq<Target>)
      reads this, broker
    {
      && Accounted(start)
      && start.history <= broker.history
      && broker.log == start.log.(listings := start.log.listings + listings, accepted := broker.log.accepted,
                                  raises := broker.log.raises)
      && FromListings(closed, listings, targets)
      && AllCovered(listings, submitted, errors) && Prompt(listings, start.log.accepted, errors)
      && Truthful(listings, targets, broker.history, |start.history|)
      && (start.safe ==> Safe(start.book))
    }

    /** Discovery, merging and cancellation; the listings begin at `ready`. */
    method Prepare(managed: seq<(string, real)>, ghost start: Start)
      returns (targets: seq<Target>, canceled: nat, ghost ready: Start,
               ghost discovery: Call<seq<Target>>, ghost cancellation: Call<nat>)
      requires start == Start(broker.book, broker.history, broker.log, start.safe)
      requires start.safe ==> broker.inert && broker.AllBacked() && NothingOutstanding(broker.book)
      modifies this, broker
      ensures Running(ready, targets) && listings == [] && Prepares(start, ready, discovery, cancellation)
      ensures Merges(targets, Claims(Found(discovery.reply), managed)) && canceled == Counted(cancellation.reply)
    {
      hide Merges, Claims, Moves, Backed, Tallies, Reaches, FromListings, AllCovered, Prompt, Truthful, OwnCloses;
      closeOrders, submitted, errors, closed, listings := [], map[], [], [], [];
      var found := broker.Discover();
      FreshTallies(start.book, broker.book, broker.inert);
      if start.safe {
        FreshOwns(start.book);
        MovesKeepOwn(start.book, start.book, broker.book, submitted);
      }
      if found.Raised? {
        errors := errors + [DiscoverFailed];
      }
      targets := MergeTargets(if found.Ok? then found.value else [], managed);
      NothingListed(targets, broker.history, |broker.history|, start.log.accepted, errors);
      discovery := Call(|start.history|, start.log.accepted, found);
      ghost var middle := start.(history := broker.history,
                                 log := start.log.(discoveries := start.log.discoveries + [discovery]));
      canceled, ready, cancellation := CancelOrders(targets, middle);
    }

    method CancelOrders(ghost targets: seq<Target>, ghost start: Start)
      returns (canceled: nat, ghost ready: Start, ghost cancellation: Call<nat>)
      requires Running(start, targets) && broker.history == start.history && listings == []
      modifies this, broker
      ensures Running(ready, targets) && listings == []
      ensures ready == start.(history := broker.history,
                              log := start.log.(cancellations := start.log.cancellations + [cancellation]))
      ensures start.history < ready.history && cancellation.at == |start.history|
      ensures canceled == Counted(cancellation.reply)
    {
      hide Moves, Backed, Tallies;
      ghost var before, asked := broker.book, broker.log.accepted;
      var r := broker.Cancel();
      MovesGrow(before, broker.book);
      if start.safe {
        MovesKeepOwn(start.book, before, broker.book, submitted);
      }
      if r.Raised? {
        errors := errors + [CancelFailed];
      }
      canceled := if r.Ok? then r.value else 0;
      cancellation := Call(|start.history|, asked, r);
      ready := start.(history := broker.history,
                      log := start.log.(cancellations := start.log.cancellations + [cancellation]));
    }

    /** A listing, followed at once by closing what it shows uncovered. */
    method ListAndClose(targets: seq<Target>, failure: Failure, ghost start: Start) returns (r: Result<seq<Position>>)
      requires Running(start, targets) && KindOf(failure) == Listing
      modifies this, broker
      ensures Running(start, targets)
      ensures old(errors) <= errors && (r.Raised? ==> errors != [])
      ensures listings == old(listings) + [Call(|old(broker.history)|, old(broker.log).accepted, r)]
    {
      hide FromListings, AllCovered, Truthful, Tallies, ListsAll, Backed, CoveredBy, Prompt, PromptAt;
      ghost var book, before, states, failed := broker.book, listings, broker.history, errors;
      ghost var asked := broker.log.accepted;
      Covered(before, closeOrders, closed, submitted, errors);
      PromptNow(before, asked, start.log.accepted, closeOrders, errors);
      r := broker.ListPositions(targets);
      ghost var call := Call(|states|, asked, r);
      listings := listings + [call];
      if start.safe {
        ListKeepsOwn(start.book, book, broker.book, submitted);
      }
      if r.Raised? {
        errors := errors + [failure];
      }
      ghost var later, was, submits := broker.history, closed, submitted;
      if r.Ok? {
        CloseUncovered(r.value, start);
      }
      TruthfulMore(before, call, targets, states, later, broker.history, |start.history|);
      CoversMore(before, call, submits, failed, submitted, errors);
      PromptMore(before, call, start.log.accepted, failed, errors);
      ListingsMore(was, closed, before, call, targets, later);
    }

    /** The verification loop. */
    method Poll(targets: seq<Target>, initial: seq<Position>, clock: nat -> int, deadline: int, ghost horizon: nat,
                ghost start: Start)
      returns (remaining: seq<Position>, completedAt: int)
      requires Running(start, targets) && (forall i :: i >= horizon ==> clock(i) >= deadline)
      requires |listings| == 1 && initial == Found(listings[0].reply) && (listings[0].reply.Raised? ==> errors != [])
      modifies this, broker
      ensures Running(start, targets) && old(listings) <= listings
      ensures Polls(listings, clock, deadline, completedAt) && remaining == Remaining(listings)
      ensures remaining == [] && errors == [] ==> EndsEmpty(listings)
    {
      hide Accounted, Safe, FromListings, AllCovered, Truthful, Prompt;
      remaining := initial;
      var reading, ticks := clock(0), 1;
      while reading < deadline
        invariant Running(start, targets) && old(listings) <= listings
        invariant ticks >= 1 && reading == clock(ticks - 1)
        invariant Polling(listings, clock, deadline, ticks) && remaining == Remaining(listings)
        invariant listings[ticks - 1].reply.Raised? ==> errors != []
        decreases if ticks <= horizon then horizon + 1 - ticks else 0
      {
        var verification := ListAndClose(targets, VerifyFailed, start);
        if verification.Raised? {
          return remaining, clock(ticks);
        }
        remaining := verification.value;
        if remaining == [] {
          return remaining, clock(ticks);
        }
        reading := clock(ticks);
        ticks := ticks + 1;
      }
      completedAt := clock(ticks);
    }

    /** `clock` may read anything before it finally stays past the deadline at reading `horizon`. */
    method Flatten(plan: Plan, now: int, managed: seq<(string, real)>, clock: nat -> int, ghost horizon: nat)
      returns (r: FlattenResult, ghost targets: seq<Target>, ghost discovery: Call<seq<Target>>,
               ghost cancellation: Call<nat>)
      requires forall i :: i >= horizon ==> clock(i) >= plan.finalFlattenDeadline
      modifies this, broker
      // the calls: a discovery, a cancellation, then listings that show exactly the merged targets, and the closes
      ensures Called(old(broker.log), broker.log, discovery, cancellation, listings, r.closeOrders)
      ensures |old(broker.history)| <= discovery.at < cancellation.at
      ensures Merges(targets, Claims(Found(discovery.reply), managed))
      ensures Truthful(listings, targets, broker.history, cancellation.at + 1)
      ensures Polls(listings, clock, Deadline(plan, now), r.completedAt)
      // the closes: exactly the largest closed observation, never more than the target, and they reach the account
      ensures ClosesExactly(r.closeOrders, closed, targets) && FromListings(closed, listings, targets)
      ensures Receiving(old(broker.book), broker.book, r.closeOrders, broker.inert)
      // every position listed during the run is covered, unless closing its symbol raised
      ensures CoveredBy(listings, r.closeOrders, r.errors) && Prompt(listings, old(broker.log.accepted), r.errors)
      // the report
      ensures r.startedAt == now && r.canceled == Counted(cancellation.reply)
      ensures r.initial == Found(listings[0].reply) && r.remaining == Remaining(listings)
      ensures Reported(r.errors, broker.log.raises, old(broker.log.raises))
      // `complete`: nothing raised, the last listing is empty, and since it began every target was flat
      ensures r.complete <==> r.remaining == [] && r.errors == []
      ensures r.complete ==> EndsEmpty(listings) && AllFlat(targets, broker.history, LastBegan(listings))
      // the account is never oversold
      ensures broker.inert && old(broker.AllBacked() && NothingOutstanding(broker.book)) ==> AllNeverShort(broker.history)
    {
      hide Merges, Truthful, FromListings, AllCovered, Prompt, Polls, Remaining, EndsEmpty, AllFlat, CoveredBy, ClosesExactly, Receiving,
        Tallies, Reaches, LastBegan, AllNeverShort;
      ghost var start := Start(broker.book, broker.history, broker.log,
                               broker.inert && broker.AllBacked() && NothingOutstanding(broker.book));
      var merged, canceled;
      ghost var ready;
      merged, canceled, ready, discovery, cancellation := Prepare(managed, start);
      targets := merged;
      var listing := ListAndClose(merged, ListFailed, ready);
      var initial := if listing.Ok? then listing.value else [];
      var remaining, completedAt := Poll(merged, initial, clock, Deadline(plan, now), horizon, ready);
      r := FlattenResult(now, completedAt, canceled, initial, closeOrders, remaining,
                         remaining == [] && errors == [], errors);
      TruthfulSooner(listings, merged, broker.history, |ready.history|, cancellation.at + 1);
      EndsFlat(listings, merged, broker.history, cancellation.at + 1);
      Covered(listings, closeOrders, closed, submitted, errors);
      AllWithin(closed, listings, merged, closeOrders, submitted, Claims(Found(discovery.reply), managed));
      ReceivingAll(start.book, broker.book, closeOrders, closed, submitted, broker.inert);
      if start.safe {
        BackedNeverShort(broker.history);
      }
    }
  }

  /** The account and the broker's log at some point; `safe` is the hypothesis of the oversell guarantee. */
  datatype Start = Start(book: Book, history: seq<Book>, log: Log, safe: bool)

  datatype Plan = Plan(finalFlattenDeadline: int, flattenVerificationTimeout: int)

  /** Whichever comes first, the session's deadline or the timeout from the start of the run. */
  function Deadline(plan: Plan, now: int): (deadline: int)
    ensures deadline <= plan.finalFlattenDeadline && deadline - now <= plan.flattenVerificationTimeout
    ensures deadline == plan.finalFlattenDeadline || deadline - now == plan.flattenVerificationTimeout
  {
    var timeout := now + plan.flattenVerificationTimeout;
    if plan.finalFlattenDeadline < timeout then plan.finalFlattenDeadline else timeout
  }

  function Counted(reply: Result<nat>): nat {
    if reply.Ok? then reply.value else 0
  }

  /** One discovery and one cancellation after it. */
  ghost predicate Prepares(start: Start, ready: Start, discovery: Call<seq<Target>>, cancellation: Call<nat>) {
    && ready == Start(start.book, ready.history,
                      start.log.(discoveries := start.log.discoveries + [discovery],
                                 cancellations := start.log.cancellations + [cancellation]), start.safe)
    && start.history <= ready.history && |start.history| <= discovery.at < cancellation.at < |ready.history|
  }

  /** What a run adds to the broker's log, apart from the raises. */
  ghost predicate Called(before: Log, after: Log, discovery: Call<seq<Target>>, cancellation: Call<nat>,
                         listings: seq<Call<seq<Position>>>, orders: seq<Position>) {
    after == Log(before.discoveries + [discovery], before.cancellations + [cancellation], before.listings + listings,
                 before.accepted + orders, after.raises)
  }

  /** The latest listing that did not raise. */
  function Remaining(listings: seq<Call<seq<Position>>>): seq<Position> {
    if listings == [] then []
    else if |listings| > 1 && listings[|listings| - 1].reply.Raised? then Found(listings[|listings| - 2].reply)
    else Found(listings[|listings| - 1].reply)
  }

  /** So far one listing per reading, all readings before the deadline and all polls showing something. */
  ghost predicate Polling(listings: seq<Call<seq<Position>>>, clock: nat -> int, deadline: int, ticks: nat) {
    && |listings| == ticks && ticks >= 1
    && (forall j: nat :: j < ticks - 1 ==> clock(j) < deadline)
    && (forall k :: 0 < k < ticks ==> Found(listings[k].reply) != [])
  }

  /** After the first listing one poll per reading before the deadline, until a poll raises or shows nothing or a
      reading is past the deadline; the next reading is the completion time. */
  ghost predicate Polls(listings: seq<Call<seq<Position>>>, clock: nat -> int, deadline: int, completedAt: int) {
    && listings != []
    && var polls: nat := |listings| - 1;
       && (forall j: nat :: j < polls ==> clock(j) < deadline)
       && (forall k :: 0 < k < polls ==> Found(listings[k].reply) != [])
       && (if polls > 0 && Found(listings[polls].reply) == [] then completedAt == clock(polls)
           else clock(polls) >= deadline && completedAt == clock(polls + 1))
  }

  ghost predicate EndsEmpty(listings: seq<Call<seq<Position>>>) {
    listings != [] && listings[|listings| - 1].reply == Ok([])
  }

  ghost predicate AllFlat(targets: seq<Target>, states: seq<Book>, since: nat) {
    forall t :: t in targets ==> WasFlat(states, since, t.symbol)
  }

  function LastBegan(listings: seq<Call<seq<Position>>>): nat {
    if listings == [] then 0 else listings[|listings| - 1].at
  }

  lemma EndsFlat(listings: seq<Call<seq<Position>>>, targets: seq<Target>, states: seq<Book>, since: nat)
    requires Truthful(listings, targets, states, since)
    ensures EndsEmpty(listings) ==> AllFlat(targets, states, LastBegan(listings))
  {
    if EndsEmpty(listings) {
      var last := listings[|listings| - 1];
      assert Tells(last, targets, states);
      forall t | t in targets ensures WasFlat(states, last.at, t.symbol) {
        EmptyMeansFlat(targets, states, last.at, t);
      }
    }
  }

  /** The account's submitted closes grew by the orders, and by nothing else if raising closes are inert. */
  ghost predicate Receiving(before: Book, after: Book, orders: seq<Position>, inert: bool) {
    forall s ::
      && Get(after.submitted, s) >= Get(before.submitted, s) + ClosedTotal(orders, s)
      && (inert ==> Get(after.submitted, s) == Get(before.submitted, s) + ClosedTotal(orders, s))
  }

  lemma ReceivingAll(before: Book, after: Book, orders: seq<Position>, closed: seq<Position>, submitted: map<string, real>,
                     inert: bool)
    requires Tallies(orders, submitted, closed) && Reaches(before, after, submitted, inert)
    ensures Receiving(before, after, orders, inert)
  {
    forall s ensures Get(submitted, s) == ClosedTotal(orders, s) {}
  }

  /** Per symbol the orders total the largest closed observation, and never more than the target. */
  ghost predicate ClosesExactly(orders: seq<Position>, closed: seq<Position>, targets: seq<Target>) {
    && (forall s :: ClosedTotal(orders, s) == LargestClosed(closed, s))
    && (forall t :: t in targets ==> ClosedTotal(orders, t.symbol) <= t.quantity)
  }

  lemma AllWithin(closed: seq<Position>, listings: seq<Call<seq<Position>>>, targets: seq<Target>, orders: seq<Position>,
                  submitted: map<string, real>, claims: seq<Claim>)
    requires Tallies(orders, submitted, closed) && FromListings(closed, listings, targets) && Merges(targets, claims)
    ensures ClosesExactly(orders, closed, targets)
  {
    forall t | t in targets ensures ClosedTotal(orders, t.symbol) <= t.quantity {
      WithinTarget(closed, targets, t);
    }
  }

  ghost predicate AllNeverShort(states: seq<Book>) {
    forall k :: 0 <= k < |states| ==> NeverShort(states[k])
  }

  lemma BackedNeverShort(states: seq<Book>)
    requires forall k :: 0 <= k < |states| ==> Backed(states[k])
    ensures AllNeverShort(states)
  {
    forall k | 0 <= k < |states| ensures NeverShort(states[k]) {
      BackedIsNeverShort(states[k]);
    }
  }

  lemma ListKeepsOwn(base: Book, a: Book, b: Book, submitted: map<string, real>)
    requires OwnCloses(base, a, submitted) && FillsGrow(a, b) && b.submitted == a.submitted && Backed(b)
    ensures OwnCloses(base, b, submitted)
  {
  }

  /** Target symbols are distinct, so an observation within some target of its symbol is within this one. */
  lemma WithinTarget(closed: seq<Position>, targets: seq<Target>, t: Target)
    requires forall i, j :: 0 <= i < j < |targets| ==> targets[i].symbol != targets[j].symbol
    requires forall c :: c in closed ==> Clamped(c, targets)
    requires t in targets
    ensures LargestClosed(closed, t.symbol) <= t.quantity
  {
    LargestClosedIsObserved(closed, t.symbol);
    if LargestClosed(closed, t.symbol) > 0.0 {
      var k :| 0 <= k < |closed| && closed[k].symbol == t.symbol && closed[k].quantity == LargestClosed(closed, t.symbol);
      assert closed[k] in closed;
      var u :| u in targets && u.symbol == t.symbol && closed[k].quantity <= u.quantity;
      assert u == t;
    }
  }

  // ---------- where the guarantees end ----------

  /** A further close keeps the account safe exactly when it fits into the shares not yet under a close. */
  lemma CloseSafeExactly(b: Book, p: Position)
    requires NeverShort(b)
    ensures NeverShort(Submit(b, p)) <==> p.quantity <= Live(b, p.symbol) - Outstanding(b, p.symbol)
  {
    var n := Submit(b, p);
    assert Outstanding(n, p.symbol) == Outstanding(b, p.symbol) + p.quantity && Live(n, p.symbol) == Live(b, p.symbol);
    if p.quantity <= Live(b, p.symbol) - Outstanding(b, p.symbol) {
      forall s ensures 0.0 <= Outstanding(n, s) <= Live(n, s) {
        assert 0.0 <= Outstanding(b, s) <= Live(b, s);
      }
    }
  }

  /** A close that raises after taking effect is not recorded as asked for, so the next poll asks for the same
      shares again. That is safe exactly when the position covers the outstanding closes and the order twice. */
  lemma RaisingCloseSafeExactly(b: Book, submitted: map<string, real>, s: string, target: Quantity)
    requires NeverShort(b) && PollCloses(b, submitted, s, target) > 0.0
    ensures
      var order := Position(s, PollCloses(b, submitted, s, target));
      var raised := Submit(b, order);
      && PollCloses(raised, submitted, s, target) == order.quantity
      && (NeverShort(Submit(raised, order)) <==> Outstanding(b, s) + 2.0 * order.quantity <= Live(b, s))
  {
    var order := Position(s, PollCloses(b, submitted, s, target));
    var raised := Submit(b, order);
    assert Live(raised, s) == Live(b, s);
    CloseSafeExactly(b, order);
    if NeverShort(raised) {
      CloseSafeExactly(raised, order);
    } else {
      var x :| !(0.0 <= Outstanding(raised, x) <= Live(raised, x));
      assert 0.0 <= Outstanding(b, x) <= Live(b, x);
      assert x == s;
      assert Outstanding(Submit(raised, order), s) > Live(Submit(raised, order), s);
    }
  }

  /** So a first close of a whole position that raises after taking effect oversells when repeated. */
  lemma RaisingCloseOversells(b: Book, s: string, target: Quantity)
    requires NeverShort(b) && 0.0 < Live(b, s) <= target
    ensures
      var order := Position(s, Live(b, s));
      && PollCloses(b, map[], s, target) == order.quantity
      && PollCloses(Submit(b, order), map[], s, target) == order.quantity
      && !NeverShort(Submit(Submit(b, order), order))
  {
    RaisingCloseSafeExactly(b, map[], s, target);
    assert 0.0 <= Outstanding(b, s);
  }

  /** A new run knows nothing of closes an earlier run left outstanding. The first close of a held target keeps
      the account safe exactly when none is outstanding in the symbol, or the target leaves room for them. */
  lemma FreshRunSafeExactly(b: Book, s: string, target: Quantity)
    requires NeverShort(b) && Live(b, s) > 0.0
    ensures PollCloses(b, map[], s, target) == if Live(b, s) < target then Live(b, s) else target
    ensures NeverShort(Submit(b, Position(s, PollCloses(b, map[], s, target))))
            <==> Outstanding(b, s) == 0.0 || target + Outstanding(b, s) <= Live(b, s)
  {
    assert 0.0 <= Outstanding(b, s) <= Live(b, s);
    CloseSafeExactly(b, Position(s, PollCloses(b, map[], s, target)));
  }

  /** The shares held and not under a close of this or an earlier run. */
  function NotUnderClose(b: Book, s: string): real {
    Live(b, s) - Outstanding(b, s)
  }

  /** The poll subtracts every close the run ever submitted, executed ones included, from the clamped position. So
      it never closes more than the shares not yet under a close, and it closes all of them exactly when there are
      none, or none of the run's own closes has executed and the target covers the position. */
  lemma LateFillClosedExactly(base: Book, b: Book, submitted: map<string, real>, s: string, target: Quantity)
    requires OwnCloses(base, b, submitted)
    ensures 0.0 <= PollCloses(b, submitted, s, target) <= NotUnderClose(b, s)
    ensures PollCloses(b, submitted, s, target) == NotUnderClose(b, s)
            <==> NotUnderClose(b, s) == 0.0
                 || (Get(b.executed, s) == Get(base.submitted, s) && Live(b, s) <= target)
  {
    assert Get(b.submitted, s) == Get(base.submitted, s) + Get(submitted, s);
    assert Get(base.submitted, s) <= Get(b.executed, s) <= Get(b.submitted, s) <= Get(b.filled, s);
  }

  /** A late fill left open: of ten shares bought, four were closed at once and sold. The six that fill afterwards
      are under no close, and every later poll asks for two of them at most. */
  lemma LateFillLeftOpen(s: string)
    ensures
      var early := Book(map[s := 4.0], map[], map[]);
      var late := Book(map[s := 10.0], map[s := 4.0], map[s := 4.0]);
      && PollCloses(early, map[], s, 10.0) == 4.0
      && Moves(Submit(early, Position(s, 4.0)), late) && OwnCloses(early, late, map[s := 4.0])
      && NotUnderClose(late, s) == 6.0 && PollCloses(late, map[s := 4.0], s, 10.0) == 2.0
  {
    var early := Book(map[s := 4.0], map[], map[]);
    var late := Book(map[s := 10.0], map[s := 4.0], map[s := 4.0]);
    assert Submit(early, Position(s, 4.0)).submitted == map[s := 4.0];
    assert OwnCloses(early, late, map[s := 4.0]);
  }
}
