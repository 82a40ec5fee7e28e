/** Net-position reconstruction from broker order listings
    (discover_daybreak_targets in daybreak_orchestration/alpaca_ops.py). */
module NetFills {
  import opened Orders

  datatype Leg = Leg(id: string, symbol: string, side: string, filled: real)

  datatype Order = Order(
    id: string, clientId: string, parentId: string, symbol: string, side: string, filled: real, legs: seq<Leg>)

  datatype NetTarget = NetTarget(symbol: string, quantity: real)

  // ---------- the orders behind a listing ----------

  /** One broker order; `parent` is empty for a parent order. */
  datatype Fill = Fill(prefixed: bool, parent: string, symbol: string, side: string, filled: real)

  type World = map<string, Fill>

  /** Brackets are one level deep, and only parent orders carry the session prefix. */
  ghost predicate OneLevel(w: World) {
    && "" !in w
    && (forall i :: i in w && w[i].prefixed ==> w[i].parent == "")
    && forall i :: i in w && w[i].parent != "" ==> w[i].parent in w && w[w[i].parent].parent == ""
  }

  /** An order is owned when its client id, or its parent's, carries the session prefix. */
  predicate Owned(w: World, i: string) {
    i in w && (w[i].prefixed || (w[i].parent in w && w[w[i].parent].prefixed))
  }

  function Signed(f: Fill): real {
    if f.side == "buy" then f.filled else -f.filled
  }

  function Contribution(w: World, s: string): string -> real {
    (i: string) => if i in w && w[i].symbol == s then Signed(w[i]) else 0.0
  }

  ghost function OwnedIds(w: World): set<string> {
    set i | i in w && Owned(w, i)
  }

  /** Buys minus sells over the distinct owned orders. */
  ghost function Net(w: World, s: string): real {
    Sum(OwnedIds(w), Contribution(w, s))
  }

  /** The owned buys of a symbol: by an order with the session prefix, or by a leg of one. */
  ghost function Bought(w: World, s: string): set<string> {
    set i | i in w && w[i].symbol == s && w[i].side == "buy"
            && (w[i].prefixed || (w[i].parent in w && w[w[i].parent].prefixed))
  }

  ghost function Sold(w: World, s: string): set<string> {
    set i | i in w && w[i].symbol == s && w[i].side != "buy"
            && (w[i].prefixed || (w[i].parent in w && w[w[i].parent].prefixed))
  }

  function FilledAt(w: World): string -> real {
    (i: string) => if i in w then w[i].filled else 0.0
  }

  lemma {:induction false} SplitsBySide(w: World, s: string, ids: set<string>)
    requires ids <= OwnedIds(w)
    ensures Sum(ids, Contribution(w, s)) == Sum(ids * Bought(w, s), FilledAt(w)) - Sum(ids * Sold(w, s), FilledAt(w))
    decreases ids
  {
    if ids != {} {
      var i :| i in ids;
      var rest := ids - {i};
      SplitsBySide(w, s, rest);
      SumRemove(ids, Contribution(w, s), i);
      if i in Bought(w, s) {
        SumRemove(ids * Bought(w, s), FilledAt(w), i);
        assert ids * Bought(w, s) - {i} == rest * Bought(w, s) && ids * Sold(w, s) == rest * Sold(w, s);
      } else if i in Sold(w, s) {
        SumRemove(ids * Sold(w, s), FilledAt(w), i);
        assert ids * Sold(w, s) - {i} == rest * Sold(w, s) && ids * Bought(w, s) == rest * Bought(w, s);
      } else {
        assert ids * Sold(w, s) == rest * Sold(w, s) && ids * Bought(w, s) == rest * Bought(w, s);
      }
    }
  }

  /** The net of a symbol is what the owned orders bought of it less what they sold. */
  lemma NetIsBoughtLessSold(w: World, s: string)
    ensures Net(w, s) == Sum(Bought(w, s), FilledAt(w)) - Sum(Sold(w, s), FilledAt(w))
  {
    SplitsBySide(w, s, OwnedIds(w));
    assert OwnedIds(w) * Bought(w, s) == Bought(w, s) && OwnedIds(w) * Sold(w, s) == Sold(w, s);
  }

  ghost predicate OrderAgrees(w: World, prefix: string, o: Order) {
    && o.id in w && o.symbol != ""
    && w[o.id] == Fill(prefix <= o.clientId, w[o.id].parent, o.symbol, o.side, o.filled)
    && (o.parentId == "" || o.parentId == w[o.id].parent)
    && forall k :: 0 <= k < |o.legs| ==> LegAgrees(w, o, o.legs[k])
  }

  /** A nested leg may leave its symbol out when it is the parent's. */
  ghost predicate LegAgrees(w: World, o: Order, l: Leg) {
    && l.id in w && w[l.id].parent == o.id
    && w[l.id].symbol == (if l.symbol != "" then l.symbol else o.symbol)
    && w[l.id].side == l.side && w[l.id].filled == l.filled
  }

  ghost predicate Shown(orders: seq<Order>, w: World, i: string)
    requires i in w
  {
    exists k :: 0 <= k < |orders| &&
      ((orders[k].id == i && orders[k].parentId == w[i].parent)
       || (w[i].parent != "" && orders[k].id == w[i].parent && exists j :: 0 <= j < |orders[k].legs| && orders[k].legs[j].id == i))
  }

  /** The listing shows the orders of `w`, each at least once, nested or flat, and its records agree. */
  ghost predicate Represents(orders: seq<Order>, w: World, prefix: string) {
    && OneLevel(w)
    && (forall k :: 0 <= k < |orders| ==> OrderAgrees(w, prefix, orders[k]))
    && (forall i :: i in w ==> Shown(orders, w, i))
    && (forall i :: i in w && w[i].parent != "" ==> Shown(orders, w, w[i].parent))
  }

  /** Exactly the symbols with a positive net, in symbol order. */
  ghost predicate IsTargets(w: World, targets: seq<NetTarget>) {
    && (forall k :: 0 <= k < |targets| ==> targets[k].quantity == Net(w, targets[k].symbol) > 0.0)
    && (forall s :: Net(w, s) > 0.0 ==> exists k :: 0 <= k < |targets| && targets[k].symbol == s)
    && (forall i, j :: 0 <= i < j < |targets| ==>
          LexLe(targets[i].symbol, targets[j].symbol) && targets[i].symbol != targets[j].symbol)
  }

  /** `net` holds, per symbol, the signed fills of the orders `seen`. */
  ghost predicate Sums(w: World, seen: set<string>, net: map<string, real>) {
    forall s :: (if s in net then net[s] else 0.0) == Sum(seen, Contribution(w, s))
  }

  lemma AddFill(w: World, seen: set<string>, net: map<string, real>, id: string)
    requires Sums(w, seen, net) && id in w && id !in seen
    ensures
      var name := w[id].symbol;
      Sums(w, seen + {id}, net[name := (if name in net then net[name] else 0.0) + Signed(w[id])])
  {
    var name := w[id].symbol;
    var after := net[name := (if name in net then net[name] else 0.0) + Signed(w[id])];
    forall s ensures (if s in after then after[s] else 0.0) == Sum(seen + {id}, Contribution(w, s)) {
      SumInsert(seen, Contribution(w, s), id);
    }
  }

  // ---------- the reconstruction ----------

  class Reconstruction {
    var owned: set<string>
    var seen: set<string>
    var net: map<string, real>
    var symbols: seq<string>

    constructor ()
      ensures owned == {} && seen == {} && net == map[] && symbols == []
    {
      owned, seen, net, symbols := {}, {}, map[], [];
    }

    /** `symbols` lists the dictionary's keys. */
    ghost predicate Keyed()
      reads this
    {
      Distinct(symbols) && forall s :: s in symbols <==> s in net
    }

    ghost predicate Tallied(w: World)
      reads this
    {
      seen <= OwnedIds(w) && Sums(w, seen, net)
    }

    /** The orders that carry the prefix themselves. */
    method OwnPrefixed(orders: seq<Order>, prefix: string, ghost w: World)
      modifies this`owned
      ensures PrefixedIn(orders, prefix, owned)
      ensures Represents(orders, w, prefix) ==> owned <= OwnedIds(w)
    {
      owned := set k | 0 <= k < |orders| && orders[k].id != "" && prefix <= orders[k].clientId :: orders[k].id;
      if Represents(orders, w, prefix) {
        forall i | i in owned ensures i in OwnedIds(w) {
          var k :| 0 <= k < |orders| && orders[k].id == i && prefix <= orders[k].clientId;
          assert OrderAgrees(w, prefix, orders[k]);
        }
      }
    }

    /** The legs nested under an owned order. */
    method OwnLegs(orders: seq<Order>, prefix: string, ghost w: World)
      requires PrefixedIn(orders, prefix, owned)
      requires Represents(orders, w, prefix) ==> owned <= OwnedIds(w)
      modifies this`owned
      ensures PrefixedIn(orders, prefix, owned) && LegsIn(orders, prefix, owned, |orders|)
      ensures Represents(orders, w, prefix) ==> owned <= OwnedIds(w)
    {
      for k := 0 to |orders|
        invariant PrefixedIn(orders, prefix, owned) && LegsIn(orders, prefix, owned, k)
        invariant Represents(orders, w, prefix) ==> owned <= OwnedIds(w)
      {
        var order := orders[k];
        if order.id in owned {
          var added := set j | 0 <= j < |order.legs| && order.legs[j].id != "" :: order.legs[j].id;
          if Represents(orders, w, prefix) {
            LegsOfOwned(orders, w, prefix, k);
          }
          owned := owned + added;
        }
      }
    }

    /** Orders listed flat under an owned parent. */
    method OwnChildren(orders: seq<Order>, prefix: string, ghost w: World)
      requires PrefixedIn(orders, prefix, owned) && LegsIn(orders, prefix, owned, |orders|)
      requires Represents(orders, w, prefix) ==> owned <= OwnedIds(w)
      modifies this`owned
      ensures Represents(orders, w, prefix) ==> owned == OwnedIds(w)
    {
      for k := 0 to |orders|
        invariant PrefixedIn(orders, prefix, owned) && LegsIn(orders, prefix, owned, |orders|)
        invariant ChildrenIn(orders, prefix, owned, k)
        invariant Represents(orders, w, prefix) ==> owned <= OwnedIds(w)
      {
        var order := orders[k];
        if order.id != "" && order.parentId in owned {
          if Represents(orders, w, prefix) {
            assert OrderAgrees(w, prefix, order);
          }
          owned := owned + {order.id};
        }
      }
      if Represents(orders, w, prefix) {
        forall i | i in OwnedIds(w) ensures i in owned {
          OwnedIsFound(orders, w, prefix, owned, i);
        }
      }
    }
  
    /** The record describes the order `id` of `w`; a leg without a symbol takes its parent's. */
    ghost predicate RecordAgrees(w: World, id: string, symbol: string, side: string, filled: real, parentSymbol: string)
    {
      && id in w && w[id].symbol == (if symbol != "" then symbol else parentSymbol) && w[id].symbol != ""
      && w[id].side == side && w[id].filled == filled
    }

    method ApplyFill(id: string, symbol: string, side: string, filled: real, parentSymbol: string, ghost w: World)
      requires Keyed()
      modifies this`seen, this`net, this`symbols
      ensures Keyed()
      ensures seen == old(seen) + if id != "" && id in owned then {id} else {}
      ensures old(Tallied(w)) && owned == OwnedIds(w) && RecordAgrees(w, id, symbol, side, filled, parentSymbol) ==> Tallied(w)
      ensures old(Tallied(w)) && (id == "" || id !in owned) ==> Tallied(w)
    {
      if id == "" || id in seen || id !in owned {
        return;
      }
      if Tallied(w) && owned == OwnedIds(w) && RecordAgrees(w, id, symbol, side, filled, parentSymbol) {
        AddFill(w, seen, net, id);
      }
      seen := seen + {id};
      var name := if symbol != "" then symbol else parentSymbol;
      if name == "" {
        return;
      }
      var change := if side == "buy" then filled else -filled;
      if name !in net {
        assert name !in symbols;
        symbols := symbols + [name];
      }
      net := net[name := (if name in net then net[name] else 0.0) + change];
    }

    /** One listed order and its nested legs. */
    method TallyOrder(order: Order, prefix: string, ghost w: World)
      requires Keyed()
      modifies this`seen, this`net, this`symbols
      ensures Keyed() && old(seen) <= seen && OrderSeen(order, owned, seen)
      ensures old(Tallied(w)) && owned == OwnedIds(w) && OrderAgrees(w, prefix, order) && "" !in w ==> Tallied(w)
    {
      ghost var good := Tallied(w) && owned == OwnedIds(w) && OrderAgrees(w, prefix, order) && "" !in w;
      ApplyFill(order.id, order.symbol, order.side, order.filled, "", w);
      for j := 0 to |order.legs|
        invariant Keyed() && old(seen) <= seen && (good ==> Tallied(w))
        invariant order.id != "" && order.id in owned ==> order.id in seen
        invariant forall n :: 0 <= n < j && order.legs[n].id != "" && order.legs[n].id in owned ==> order.legs[n].id in seen
      {
        var leg := order.legs[j];
        if good {
          assert LegAgrees(w, order, leg);
        }
        ApplyFill(leg.id, leg.symbol, leg.side, leg.filled, order.symbol, w);
      }
    }

    method Tally(orders: seq<Order>, prefix: string, ghost w: World)
      requires Keyed() && seen == {} && net == map[]
      modifies this`seen, this`net, this`symbols
      ensures Keyed()
      ensures Represents(orders, w, prefix) && owned == OwnedIds(w) ==> Tallied(w) && seen == OwnedIds(w)
    {
      ghost var good := Represents(orders, w, prefix) && owned == OwnedIds(w);
      for k := 0 to |orders|
        invariant Keyed() && (good ==> Tallied(w))
        invariant forall n :: 0 <= n < k ==> OrderSeen(orders[n], owned, seen)
      {
        TallyOrder(orders[k], prefix, w);
      }
      if good {
        forall i | i in OwnedIds(w) ensures i in seen {
          ShownIsSeen(orders, w, prefix, owned, seen, i);
        }
      }
    }

    /** The positive nets, in symbol order. */
    method Targets(ghost w: World) returns (targets: seq<NetTarget>)
      requires Keyed()
      ensures Tallied(w) && seen == OwnedIds(w) ==> IsTargets(w, targets)
    {
      var ordered := SortBy(LexLe, symbols);
      SortedKeys(symbols);
      ghost var positive;
      targets, positive := KeepPositive(ordered, net);
      if Tallied(w) && seen == OwnedIds(w) {
        PositiveNets(ordered, positive, net, w, targets);
      }
    }
  }

  method KeepPositive(ordered: seq<string>, net: map<string, real>)
    returns (targets: seq<NetTarget>, ghost positive: string -> bool)
    requires forall s :: s in ordered ==> s in net
    ensures forall s :: positive(s) <==> s in net && net[s] > 0.0
    ensures |targets| == |Filter(positive, ordered)|
    ensures forall n :: 0 <= n < |targets| ==>
              targets[n].symbol == Filter(positive, ordered)[n] && targets[n].symbol in net
              && targets[n].quantity == net[targets[n].symbol]
  {
    positive := (s: string) => s in net && net[s] > 0.0;
    targets := [];
    for k := 0 to |ordered|
      invariant |targets| == |Filter(positive, ordered[..k])|
      invariant forall n :: 0 <= n < |targets| ==>
        targets[n].symbol == Filter(positive, ordered[..k])[n] && targets[n].symbol in net
        && targets[n].quantity == net[targets[n].symbol]
    {
      var s := ordered[k];
      assert ordered[..k + 1] == ordered[..k] + [s];
      FilterSnoc(positive, ordered[..k], s);
      assert s in ordered;
      if net[s] > 0.0 {
        targets := targets + [NetTarget(s, net[s])];
      }
    }
    assert ordered[..|ordered|] == ordered;
  }

  lemma PositiveNets(ordered: seq<string>, positive: string -> bool, net: map<string, real>, w: World, targets: seq<NetTarget>)
    requires forall i, j :: 0 <= i < j < |ordered| ==> LexLe(ordered[i], ordered[j]) && ordered[i] != ordered[j]
    requires forall s :: s in ordered <==> s in net
    requires forall s :: positive(s) <==> s in net && net[s] > 0.0
    requires forall s :: (if s in net then net[s] else 0.0) == Net(w, s)
    requires |targets| == |Filter(positive, ordered)|
    requires forall n :: 0 <= n < |targets| ==>
               targets[n].symbol == Filter(positive, ordered)[n] && targets[n].symbol in net
               && targets[n].quantity == net[targets[n].symbol]
    ensures IsTargets(w, targets)
  {
    var kept := Filter(positive, ordered);
    var less := (a: string, b: string) => LexLe(a, b) && a != b;
    FilterSorted(less, positive, ordered);
    forall n | 0 <= n < |targets| ensures targets[n].quantity == Net(w, targets[n].symbol) > 0.0 {
      assert kept[n] in kept;
    }
    forall s | Net(w, s) > 0.0 ensures exists k :: 0 <= k < |targets| && targets[k].symbol == s {
      assert s in kept;
      var k :| 0 <= k < |kept| && kept[k] == s;
      assert targets[k].symbol == s;
    }
    forall i, j | 0 <= i < j < |targets|
      ensures LexLe(targets[i].symbol, targets[j].symbol) && targets[i].symbol != targets[j].symbol
    {
      assert less(kept[i], kept[j]);
    }
  }

  ghost predicate OrderSeen(order: Order, owned: set<string>, seen: set<string>) {
    && (order.id != "" && order.id in owned ==> order.id in seen)
    && forall n :: 0 <= n < |order.legs| && order.legs[n].id != "" && order.legs[n].id in owned ==> order.legs[n].id in seen
  }

  lemma ShownIsSeen(orders: seq<Order>, w: World, prefix: string, owned: set<string>, seen: set<string>, i: string)
    requires Represents(orders, w, prefix) && owned == OwnedIds(w) && i in owned
    requires forall n :: 0 <= n < |orders| ==> OrderSeen(orders[n], owned, seen)
    ensures i in seen
  {
    assert Shown(orders, w, i);
    var k :| 0 <= k < |orders| &&
      ((orders[k].id == i && orders[k].parentId == w[i].parent)
       || (w[i].parent != "" && orders[k].id == w[i].parent && exists j :: 0 <= j < |orders[k].legs| && orders[k].legs[j].id == i));
    assert OrderSeen(orders[k], owned, seen);
    if orders[k].id != i {
      var j :| 0 <= j < |orders[k].legs| && orders[k].legs[j].id == i;
    }
  }

  /** For any orders the listing represents, the targets are the positive nets over the distinct owned orders. */
  method DiscoverTargets(orders: seq<Order>, prefix: string, ghost w: World) returns (targets: seq<NetTarget>)
    ensures Represents(orders, w, prefix) ==> IsTargets(w, targets)
  {
    var r := new Reconstruction();
    r.OwnPrefixed(orders, prefix, w);
    r.OwnLegs(orders, prefix, w);
    r.OwnChildren(orders, prefix, w);
    r.Tally(orders, prefix, w);
    targets := r.Targets(w);
  }

  /** Listing order, repetition and nesting make no difference: two listings of the same orders have one answer. */
  lemma TargetsAreUnique(w: World, a: seq<NetTarget>, b: seq<NetTarget>)
    requires IsTargets(w, a) && IsTargets(w, b)
    ensures a == b
  {
    var le := (x: NetTarget, y: NetTarget) => LexLe(x.symbol, y.symbol);
    LexLaws();
    forall x ensures x in a <==> x in b {
      if x in a { SameMember(w, a, b, x); }
      if x in b { SameMember(w, b, a, x); }
    }
    assert Distinct(a) && Distinct(b);
    SameMembersSameElements(a, b);
    SortedUnique(le, a, b);
  }

  lemma SameMember(w: World, a: seq<NetTarget>, b: seq<NetTarget>, x: NetTarget)
    requires IsTargets(w, a) && IsTargets(w, b) && x in a
    ensures x in b
  {
    var k :| 0 <= k < |b| && b[k].symbol == x.symbol;
  }

  ghost predicate PrefixedIn(orders: seq<Order>, prefix: string, owned: set<string>) {
    forall k :: 0 <= k < |orders| && orders[k].id != "" && prefix <= orders[k].clientId ==> orders[k].id in owned
  }

  ghost predicate LegsIn(orders: seq<Order>, prefix: string, owned: set<string>, n: int) {
    forall k, j :: 0 <= k < n <= |orders| && 0 <= j < |orders[k].legs| ==>
      orders[k].id != "" && prefix <= orders[k].clientId && orders[k].legs[j].id != "" ==>
      orders[k].legs[j].id in owned
  }

  ghost predicate ChildrenIn(orders: seq<Order>, prefix: string, owned: set<string>, n: int) {
    forall k, p :: 0 <= k < n <= |orders| && 0 <= p < |orders| ==>
      orders[p].id != "" && prefix <= orders[p].clientId && orders[k].id != "" && orders[k].parentId == orders[p].id ==>
      orders[k].id in owned
  }

  lemma LegsOfOwned(orders: seq<Order>, w: World, prefix: string, k: nat)
    requires Represents(orders, w, prefix) && k < |orders| && orders[k].id in OwnedIds(w)
    ensures forall j :: 0 <= j < |orders[k].legs| ==> orders[k].legs[j].id in OwnedIds(w)
  {
    assert OrderAgrees(w, prefix, orders[k]);
    forall j | 0 <= j < |orders[k].legs| ensures orders[k].legs[j].id in OwnedIds(w) {
      assert LegAgrees(w, orders[k], orders[k].legs[j]);
    }
  }

  /** A prefixed order is in the listing at top level. */
  lemma PrefixedIsListed(orders: seq<Order>, w: World, prefix: string, i: string) returns (k: nat)
    requires Represents(orders, w, prefix) && i in w && w[i].prefixed
    ensures k < |orders| && orders[k].id == i && prefix <= orders[k].clientId
  {
    assert Shown(orders, w, i);
    k :| 0 <= k < |orders| && orders[k].id == i;
    assert OrderAgrees(w, prefix, orders[k]);
  }

  lemma OwnedIsFound(orders: seq<Order>, w: World, prefix: string, owned: set<string>, i: string)
    requires Represents(orders, w, prefix) && i in OwnedIds(w)
    requires PrefixedIn(orders, prefix, owned) && LegsIn(orders, prefix, owned, |orders|)
    requires ChildrenIn(orders, prefix, owned, |orders|)
    ensures i in owned
  {
    if w[i].prefixed {
      var k := PrefixedIsListed(orders, w, prefix, i);
    } else {
      var p := PrefixedIsListed(orders, w, prefix, w[i].parent);
      assert Shown(orders, w, i);
      var k :| 0 <= k < |orders| &&
        ((orders[k].id == i && orders[k].parentId == w[i].parent)
         || (w[i].parent != "" && orders[k].id == w[i].parent && exists j :: 0 <= j < |orders[k].legs| && orders[k].legs[j].id == i));
      assert OrderAgrees(w, prefix, orders[k]);
      if orders[k].id == i && orders[k].parentId == w[i].parent {
        assert orders[k].parentId == orders[p].id;
      } else {
        var j :| 0 <= j < |orders[k].legs| && orders[k].legs[j].id == i;
        assert LegAgrees(w, orders[k], orders[k].legs[j]);
      }
    }
  }
}
