/** Sizing the approved setups one after another (daybreak_risk/engine.py, size_approved_batch). Every approval
    reserves risk, notional and a position slot that the later requests must respect. */
module Batch {
  import opened Rounding
  import opened Sizing

  // ---------- what the decisions reserve ----------

  function ReservedRisk(d: Decision): int {
    if d.Approved? then d.reservedRisk else 0
  }

  function ReservedNotional(d: Decision): int {
    if d.Approved? then d.reservedNotional else 0
  }

  function TotalRisk(ds: seq<Decision>): int {
    if ds == [] then 0 else TotalRisk(ds[..|ds| - 1]) + ReservedRisk(ds[|ds| - 1])
  }

  function TotalNotional(ds: seq<Decision>): int {
    if ds == [] then 0 else TotalNotional(ds[..|ds| - 1]) + ReservedNotional(ds[|ds| - 1])
  }

  function Approvals(ds: seq<Decision>): nat {
    if ds == [] then 0 else Approvals(ds[..|ds| - 1]) + if ds[|ds| - 1].Approved? then 1 else 0
  }

  /** The session with the reservations of the decisions, and nothing else, added. */
  function WithReservations(s: Session, ds: seq<Decision>): Session {
    s.(openRisk := s.openRisk + TotalRisk(ds),
       reservedNotional := s.reservedNotional + TotalNotional(ds),
       reservedCount := s.reservedCount + Approvals(ds))
  }

  function Facing(r: Request, s: Session, earlier: seq<Decision>): Request {
    r.(session := WithReservations(s, earlier))
  }

  /** Every request is sized against the initial session plus all reservations approved before it. */
  ghost predicate IsBatch(rs: seq<Request>, s: Session, ds: seq<Decision>) {
    && |ds| == |rs|
    && forall k :: 0 <= k < |rs| ==> DecidedAt(rs, s, ds, k)
  }

  ghost predicate DecidedAt(rs: seq<Request>, s: Session, ds: seq<Decision>, k: nat)
    requires k < |rs| && k < |ds|
  {
    var r := Facing(rs[k], s, ds[..k]);
    Valid(r) && Decides(ds[k], Size(r))
  }

  /** What the batch model demands of its requests. */
  ghost predicate SharedContext(rs: seq<Request>, s: Session) {
    forall k :: 0 <= k < |rs| ==>
      && Valid(rs[k]) && rs[k].session == s
      && rs[k].policy == rs[0].policy && rs[k].account == rs[0].account
  }

  // ---------- the loop ----------

  datatype Outcome = EmptyBatch | Sized(decisions: seq<Decision>, ending: Session)

  /** A reservation is positive. */
  lemma ReservationIsPositive(r: Request)
    requires Valid(r) && Size(r).Grant?
    ensures Size(r).reservedRisk > 0 && Size(r).reservedNotional > 0
  {
    assert !Fails(r, InvalidGeometry);
    EntryPositive(r);
    MulPositive(ModeledRisk(r), FinalQuantity(r));
    MulPositive(Entry(r), FinalQuantity(r));
  }

  lemma ApprovedIsPositive(r: Request, d: Decision)
    requires Valid(r) && Decides(d, Size(r)) && d.Approved?
    ensures d.reservedRisk > 0 && d.reservedNotional > 0
  {
    ReservationIsPositive(r);
  }

  lemma NextReservations(s: Session, ds: seq<Decision>, d: Decision)
    ensures WithReservations(s, ds + [d]) == if d.Approved?
              then AfterGrant(WithReservations(s, ds), d.reservedRisk, d.reservedNotional)
              else WithReservations(s, ds)
  {
    assert (ds + [d])[..|ds|] == ds;
  }

  function AfterGrant(s: Session, risk: int, notional: int): Session {
    s.(openRisk := s.openRisk + risk, reservedNotional := s.reservedNotional + notional, reservedCount := s.reservedCount + 1)
  }

  /** A decision on the next request leaves the earlier ones standing. */
  lemma DecisionsStand(rs: seq<Request>, s: Session, ds: seq<Decision>, d: Decision)
    requires |ds| < |rs|
    requires forall i :: 0 <= i < |ds| ==> DecidedAt(rs, s, ds, i)
    requires Valid(Facing(rs[|ds|], s, ds)) && Decides(d, Size(Facing(rs[|ds|], s, ds)))
    ensures forall i :: 0 <= i <= |ds| ==> DecidedAt(rs, s, ds + [d], i)
    ensures (ds + [d])[..|ds|] == ds
  {
    assert (ds + [d])[..|ds|] == ds;
    forall i | 0 <= i < |ds| ensures DecidedAt(rs, s, ds + [d], i) {
      assert (ds + [d])[..i] == ds[..i];
      assert DecidedAt(rs, s, ds, i);
    }
  }

  method SizeApprovedBatch(rs: seq<Request>) returns (outcome: Outcome)
    requires forall k :: 0 <= k < |rs| ==> Valid(rs[k])
    ensures outcome.EmptyBatch? <==> rs == []
    ensures outcome.Sized? ==> IsBatch(rs, rs[0].session, outcome.decisions)
    ensures outcome.Sized? ==> outcome.ending == WithReservations(rs[0].session, outcome.decisions)
  {
    if rs == [] {
      return EmptyBatch;
    }
    var state := rs[0].session;
    var decisions: seq<Decision> := [];
    for k := 0 to |rs|
      invariant |decisions| == k
      invariant state == WithReservations(rs[0].session, decisions)
      invariant state.openRisk >= 0 && state.reservedNotional >= 0
      invariant forall i :: 0 <= i < k ==> DecidedAt(rs, rs[0].session, decisions, i)
    {
      var request := rs[k].(session := state);
      var decision := SizePosition(request);
      DecisionsStand(rs, rs[0].session, decisions, decision);
      NextReservations(rs[0].session, decisions, decision);
      decisions := decisions + [decision];
      if decision.Approved? {
        ApprovedIsPositive(request, decision);
        state := state.(openRisk := state.openRisk + decision.reservedRisk,
                        reservedNotional := state.reservedNotional + decision.reservedNotional,
                        reservedCount := state.reservedCount + 1);
      }
    }
    outcome := Sized(decisions, state);
  }

  // ---------- safety ----------

  /** The bounds a session must stay within, on the exact amounts: if everything at risk were lost, neither the
      broker's nor the session's own profit would fall below the hard limit. */
  ghost predicate Safe(r: Request, s: Session) {
    var reserve := r.policy.buyingPowerReserve;
    && s.openRisk <= OpenRiskCap(r) && s.openRisk <= HardLossLimit(r)
    && (r.account.equity - s.startEquity - s.cashFlow) - s.openRisk >= -HardLossLimit(r)
    && (s.realized + s.unrealized) - s.openRisk >= -HardLossLimit(r)
    && s.reservedNotional * reserve.den <= r.account.nonMarginable * (reserve.den - reserve.num)
    && s.reservedNotional * reserve.den <= r.account.buyingPower * (reserve.den - reserve.num)
    && s.longValue + s.reservedNotional <= GrossCap(r)
    && s.openCount + s.reservedCount <= r.policy.maxConcurrent
  }

  /** The caps are shares of the reference equity, so within them the exact shares are respected. */
  lemma SafeWithinShares(r: Request, s: Session)
    requires Safe(r, s)
    ensures s.openRisk * r.policy.maxOpenRisk.den <= r.session.referenceEquity * r.policy.maxOpenRisk.num
    ensures (s.openRisk - (r.account.equity - s.startEquity - s.cashFlow)) * r.policy.hardLoss.den
            <= r.session.referenceEquity * r.policy.hardLoss.num
    ensures (s.openRisk - (s.realized + s.unrealized)) * r.policy.hardLoss.den
            <= r.session.referenceEquity * r.policy.hardLoss.num
    ensures (s.longValue + s.reservedNotional) * r.policy.maxGrossExposure.den
            <= r.session.referenceEquity * r.policy.maxGrossExposure.num
  {
    WithinShare(r, s.openRisk, r.policy.maxOpenRisk);
    WithinShare(r, s.openRisk - (r.account.equity - s.startEquity - s.cashFlow), r.policy.hardLoss);
    WithinShare(r, s.openRisk - (s.realized + s.unrealized), r.policy.hardLoss);
    WithinShare(r, s.longValue + s.reservedNotional, r.policy.maxGrossExposure);
  }

  lemma WithinShare(r: Request, amount: int, rate: Rate)
    requires amount <= Share(r, rate)
    ensures amount * rate.den <= r.session.referenceEquity * rate.num
  {
    FloorToCentIsGreatest(r.session.referenceEquity * rate.num, rate.den, 0);
    MulMonotone(amount, Share(r, rate), rate.den);
  }

  /** One approval leaves the session it was sized against within every bound. */
  lemma ApprovalIsSafe(r: Request)
    requires Valid(r) && Size(r).Grant?
    ensures Safe(r, AfterGrant(r.session, Size(r).reservedRisk, Size(r).reservedNotional))
  {
    var v := Size(r);
    GrantRespectsLimits(r);
    RiskBound(r, v.reservedRisk);
    BuyingPowerBound(r, v.reservedNotional);
    GrossBound(r, v.reservedNotional);
    assert !Fails(r, MaxConcurrent);
  }

  lemma GrantRespectsLimits(r: Request)
    requires Valid(r) && Size(r).Grant?
    ensures Size(r).reservedRisk <= RemainingOpenRisk(r) && Size(r).reservedRisk <= RemainingHardLoss(r)
    ensures Size(r).reservedNotional <= UsableBuyingPower(r) && Size(r).reservedNotional <= RemainingGross(r)
  {
    var q := FinalQuantity(r);
    QuantityIsGreatest(r, q);
    assert Respects(r, q, OpenRisk) && Respects(r, q, DailyLoss) && Respects(r, q, BuyingPower) && Respects(r, q, GrossExposure);
  }

  lemma RiskBound(r: Request, risk: int)
    requires risk <= RemainingOpenRisk(r) && risk <= RemainingHardLoss(r)
    ensures r.session.openRisk + risk <= OpenRiskCap(r)
    ensures r.session.openRisk + risk <= HardLossLimit(r)
    ensures r.session.openRisk + risk <= HardLossLimit(r) + r.account.equity - r.session.startEquity - r.session.cashFlow
    ensures r.session.openRisk + risk <= HardLossLimit(r) + r.session.realized + r.session.unrealized
  {
    FloorToCentIsGreatest(OpenRiskCap(r) - r.session.openRisk, 1, 0);
    FloorToCentIsGreatest(HardLossLimit(r) - CurrentLoss(r) - r.session.openRisk, 1, 0);
  }

  lemma GrossBound(r: Request, notional: int)
    requires notional <= RemainingGross(r)
    ensures r.session.longValue + r.session.reservedNotional + notional <= GrossCap(r)
  {
    FloorToCentIsGreatest(GrossCap(r) - (r.session.longValue + r.session.reservedNotional), 1, 0);
  }

  lemma BuyingPowerBound(r: Request, notional: int)
    requires Valid(r) && notional <= UsableBuyingPower(r)
    ensures (r.session.reservedNotional + notional) * r.policy.buyingPowerReserve.den
            <= r.account.nonMarginable * (r.policy.buyingPowerReserve.den - r.policy.buyingPowerReserve.num)
    ensures (r.session.reservedNotional + notional) * r.policy.buyingPowerReserve.den
            <= r.account.buyingPower * (r.policy.buyingPowerReserve.den - r.policy.buyingPowerReserve.num)
  {
    var den, num := r.policy.buyingPowerReserve.den, r.policy.buyingPowerReserve.num;
    MulMonotone(Min(r.account.nonMarginable, r.account.buyingPower), r.account.nonMarginable, den - num);
    MulMonotone(Min(r.account.nonMarginable, r.account.buyingPower), r.account.buyingPower, den - num);
    var power := Min(r.account.nonMarginable, r.account.buyingPower) * (den - num) - r.session.reservedNotional * den;
    FloorToCentIsGreatest(power, den, 0);
    MulMonotone(notional, UsableBuyingPower(r), den);
    assert (r.session.reservedNotional + notional) * den == r.session.reservedNotional * den + notional * den;
  }

  /** Safety over the whole batch, of any length: from the first approval on, every intermediate session and the
      ending one satisfy every bound. */
  lemma {:induction false} BatchIsSafe(rs: seq<Request>, s: Session, ds: seq<Decision>, n: nat)
    requires SharedContext(rs, s) && IsBatch(rs, s, ds) && n <= |ds|
    requires exists k :: 0 <= k < n && ds[k].Approved?
    ensures Safe(rs[0], WithReservations(s, ds[..n]))
  {
    var last := n - 1;
    assert ds[..n] == ds[..last] + [ds[last]];
    NextReservations(s, ds[..last], ds[last]);
    if ds[last].Approved? {
      ApprovedIsSafe(rs, s, ds, last);
    } else {
      BatchIsSafe(rs, s, ds, last);
    }
  }

  lemma ApprovedIsSafe(rs: seq<Request>, s: Session, ds: seq<Decision>, k: nat)
    requires SharedContext(rs, s) && IsBatch(rs, s, ds) && k < |ds| && ds[k].Approved?
    ensures Safe(rs[0], AfterGrant(WithReservations(s, ds[..k]), ds[k].reservedRisk, ds[k].reservedNotional))
  {
    assert DecidedAt(rs, s, ds, k);
    var r := Facing(rs[k], s, ds[..k]);
    ApprovalIsSafe(r);
    SafeForAll(r, rs[0], AfterGrant(r.session, Size(r).reservedRisk, Size(r).reservedNotional));
  }

  /** The bounds depend on the policy, the account and the parts of the session that no reservation changes. */
  lemma SafeForAll(r: Request, other: Request, s: Session)
    requires Safe(r, s) && other.policy == r.policy && other.account == r.account
    requires r.session == other.session.(openRisk := r.session.openRisk, reservedNotional := r.session.reservedNotional,
                                         reservedCount := r.session.reservedCount)
    ensures Safe(other, s)
  {
  }

  // ---------- monotonicity ----------

  /** `t` is `s` with further reservations. */
  ghost predicate Heavier(s: Session, t: Session) {
    && t.openRisk >= s.openRisk && t.reservedNotional >= s.reservedNotional && t.reservedCount >= s.reservedCount
    && t == s.(openRisk := t.openRisk, reservedNotional := t.reservedNotional, reservedCount := t.reservedCount)
  }

  lemma CapacitiesShrink(r: Request, t: Session)
    requires Valid(r) && Heavier(r.session, t)
    ensures RemainingOpenRisk(r.(session := t)) <= RemainingOpenRisk(r)
    ensures RemainingHardLoss(r.(session := t)) <= RemainingHardLoss(r)
    ensures UsableBuyingPower(r.(session := t)) <= UsableBuyingPower(r)
    ensures RemainingGross(r.(session := t)) <= RemainingGross(r)
  {
    var r' := r.(session := t);
    var den, num := r.policy.buyingPowerReserve.den, r.policy.buyingPowerReserve.num;
    var power := Min(r.account.nonMarginable, r.account.buyingPower) * (den - num);
    FloorToCentMonotone(OpenRiskCap(r') - t.openRisk, OpenRiskCap(r) - r.session.openRisk, 1);
    FloorToCentMonotone(HardLossLimit(r') - CurrentLoss(r') - t.openRisk,
                        HardLossLimit(r) - CurrentLoss(r) - r.session.openRisk, 1);
    MulMonotone(r.session.reservedNotional, t.reservedNotional, den);
    FloorToCentMonotone(power - t.reservedNotional * den, power - r.session.reservedNotional * den, den);
    FloorToCentMonotone(GrossCap(r') - (t.longValue + t.reservedNotional),
                        GrossCap(r) - (r.session.longValue + r.session.reservedNotional), 1);
  }

  lemma LoadFreeReasonsStay(r: Request, t: Session, c: Code)
    requires Valid(r) && Heavier(r.session, t)
    ensures AccountFails(r.(session := t), c) == AccountFails(r, c)
    ensures HealthFails(r.(session := t), c) == HealthFails(r, c)
    ensures MarketFails(r.(session := t), c) == MarketFails(r, c)
  {
  }

  lemma LossReasonsStay(r: Request, t: Session, c: Code)
    requires Valid(r) && Heavier(r.session, t)
    ensures LossFails(r.(session := t), c) == LossFails(r, c)
  {
  }

  lemma PriceReasonsStay(r: Request, t: Session, c: Code)
    requires Valid(r)
    ensures PriceFails(r.(session := t), c) == PriceFails(r, c)
  {
  }

  lemma CapacityReasonsGrow(r: Request, t: Session, c: Code)
    requires Valid(r) && Heavier(r.session, t)
    ensures SessionFails(r, c) ==> SessionFails(r.(session := t), c)
    ensures CapacityFails(r, c) ==> CapacityFails(r.(session := t), c)
  {
    CapacitiesShrink(r, t);
  }

  lemma ReasonsOnlyGrow(r: Request, t: Session)
    requires Valid(r) && Heavier(r.session, t)
    ensures forall c :: Fails(r, c) ==> Fails(r.(session := t), c)
  {
    forall c: Code ensures Fails(r, c) ==> Fails(r.(session := t), c) {
      LoadFreeReasonsStay(r, t, c);
      LossReasonsStay(r, t, c);
      PriceReasonsStay(r, t, c);
      CapacityReasonsGrow(r, t, c);
    }
  }

  lemma CapsShrink(r: Request, t: Session, cap: Cap)
    requires Valid(r) && Heavier(r.session, t)
    requires Admitted(r) && Admitted(r.(session := t))
    ensures CapValue(r.(session := t), cap) <= CapValue(r, cap)
  {
    CapacitiesShrink(r, t);
    var r' := r.(session := t);
    var n := CapValue(r', cap);
    CapIsLimit(r', n, cap);
    CapIsLimit(r, n, cap);
  }

  /** More reservations can only lower the quantity or reject. */
  lemma SizingIsMonotone(r: Request, t: Session)
    requires Valid(r) && Heavier(r.session, t)
    ensures Size(r.(session := t)).Grant? ==> Size(r).Grant? && Size(r.(session := t)).quantity <= Size(r).quantity
  {
    var r' := r.(session := t);
    if Size(r').Grant? {
      ReasonsOnlyGrow(r, t);
      CapsShrink(r, t, Binding(r));
    }
  }

  lemma {:induction false} ReservationsAccumulate(rs: seq<Request>, s: Session, ds: seq<Decision>, n: nat)
    requires IsBatch(rs, s, ds) && n <= |ds|
    ensures Heavier(s, WithReservations(s, ds[..n]))
  {
    if n > 0 {
      ReservationsAccumulate(rs, s, ds, n - 1);
      assert ds[..n][..n - 1] == ds[..n - 1];
      assert DecidedAt(rs, s, ds, n - 1);
      if ds[n - 1].Approved? {
        ReservationIsPositive(Facing(rs[n - 1], s, ds[..n - 1]));
      }
    }
  }

  /** A batch never gives a request more than it would get alone, and gives the first exactly that. */
  lemma BatchNeverGivesMore(rs: seq<Request>, s: Session, ds: seq<Decision>, k: nat)
    requires SharedContext(rs, s) && IsBatch(rs, s, ds) && k < |rs|
    ensures ds[k].Approved? ==> Size(rs[k]).Grant? && ds[k].quantity <= Size(rs[k]).quantity
    ensures k == 0 ==> Decides(ds[k], Size(rs[k]))
  {
    ReservationsAccumulate(rs, s, ds, k);
    assert DecidedAt(rs, s, ds, k);
    SizingIsMonotone(rs[k], WithReservations(s, ds[..k]));
    if k == 0 {
      assert Facing(rs[0], s, ds[..0]) == rs[0];
    }
  }
}
