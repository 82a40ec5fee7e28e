/** One trading session from leadership to flatten (daybreak_orchestration/service.py), over an adversarial clock,
    health probe, leadership service, flatten service and session hooks. */
module Orchestrator {
  import opened KillSwitch
  import opened Results

  type Interval = i: int | i > 0 witness 1

  /** Times are microseconds. */
  datatype Plan = Plan(
    session: SessionId, warmupAt: int, windowAt: int, snapshotAt: int, evaluatorCutoff: int, lockAt: int, openAt: int,
    entryCutoff: int, flattenAt: int, renewInterval: Interval, leaseTtl: int, configuration: string, maxSkewMs: int)

  datatype Phase =
    | Preflight | LeadershipAcquired | RecorderWarmup | Recording | FeatureFreeze | Evaluation | EligibilityLock
    | Execution | Monitoring | Flattening | Reconciliation | Completed | Failed | Killed | Created

  datatype SessionOutcome = CompletedSession | NoSetups | Blocked | FailedSession | KilledSession | FlattenIncomplete

  /** Any other exception carries the reason its message is read as. */
  datatype Failure = LeadershipUnavailable | PersistentKillSwitchActive | Error(reason: Reason)

  datatype Result<+T> = Done(value: T) | Raised(failure: Failure) {
    predicate IsFailure() {
      Raised?
    }

    function PropagateFailure<U>(): Result<U>
      requires Raised?
    {
      Raised(failure)
    }

    function Extract(): T
      requires Done?
    {
      value
    }
  }

  datatype RunStatus = Approved | NoneApproved | BlockedMarket | StalePayload | SchemaFailure

  datatype Summary = Summary(status: RunStatus, approved: nat)

  /** The evaluator's contract with the orchestrator. */
  predicate Coherent(s: Summary) {
    s.approved <= 3 && (s.status == Approved <==> s.approved > 0)
  }

  type Managed = seq<(string, real)>

  /** What a hook returns, as far as the orchestrator looks into it; a managed position may have an invalid quantity. */
  datatype Details = Details(summary: Option<Summary>, managed: seq<(string, Option<real>)>, killSwitchRequired: bool)

  datatype Hook = Warmup | Freeze | Evaluate | SizeAndExecute | Reconcile

  /** What a run does and sees. A lease is granted or renewed at a reading, or a renewal is refused or raises. */
  datatype Step =
    | Read(now: int)
    | SwitchRead(active: bool)
    | Leased(token: int, since: int)
    | LeaseLost
    | Checked(health: Health, at: int)
    | Called(hook: Hook, at: int, token: int)
    | Evaluated(status: RunStatus)
    | Reported(positions: seq<(string, Option<real>)>, killRequested: bool)
    | FlattenTried(managed: Managed)
    | Flattened(complete: bool)

  datatype Lease = Lease(token: int)

  /** `flattened`: whether the last flatten that returned was complete. */
  datatype Report = Report(
    outcome: SessionOutcome, finalPhase: Phase, killSwitch: State, flattened: Option<bool>, failure: Option<Failure>)

  // ---------- the repository ----------

  ghost predicate Contiguous(records: seq<(nat, Phase)>) {
    forall i :: 0 <= i < |records| ==> records[i].0 == i + 1
  }

  function Names(records: seq<(nat, Phase)>): seq<Phase> {
    seq(|records|, i requires 0 <= i < |records| => records[i].1)
  }

  class MemoryOrchestrationRepository {
    const hash: State -> int
    var plans: map<SessionId, Plan>
    var phases: map<SessionId, seq<(nat, Phase)>>
    var states: seq<State>

    constructor (hash: State -> int)
      ensures Valid() && states == [] && phases == map[] && plans == map[] && this.hash == hash
    {
      this.hash := hash;
      plans, phases, states := map[], map[], [];
    }

    ghost predicate Valid()
      reads this
    {
      DistinctHashes(states, hash) && forall s :: s in phases ==> Contiguous(phases[s])
    }

    /** The phases recorded for a session, in order. */
    ghost function Phases(session: SessionId): seq<Phase>
      reads this`phases
    {
      if session in phases then Names(phases[session]) else []
    }

    method SavePlan(plan: Plan) returns (ok: bool)
      modifies this`plans
      ensures ok <==> !(plan.session in old(plans) && old(plans)[plan.session] != plan)
      ensures plans == if ok then old(plans)[plan.session := plan] else old(plans)
    {
      if plan.session in plans {
        ok := plans[plan.session] == plan;
      } else {
        ok := true;
        plans := plans[plan.session := plan];
      }
    }

    /** Sequences are contiguous from one. */
    method AppendPhase(session: SessionId, sequence: nat, phase: Phase) returns (ok: bool)
      requires Valid()
      modifies this`phases
      ensures Valid()
      ensures var items := if session in old(phases) then old(phases)[session] else [];
              && (ok <==> sequence == |items| + 1)
              && phases == old(phases)[session := if ok then items + [(sequence, phase)] else items]
      ensures ok ==> Phases(session) == old(Phases(session)) + [phase]
    {
      if session !in phases {
        phases := phases[session := []];
      }
      var items := phases[session];
      if items != [] && sequence != items[|items| - 1].0 + 1 {
        return false;
      }
      if items == [] && sequence != 1 {
        return false;
      }
      phases := phases[session := items + [(sequence, phase)]];
      ok := true;
    }

    method SaveKillSwitch(s: State) returns (ok: bool)
      requires Valid()
      modifies this`states
      ensures Valid()
      ensures ok <==> !Collides(old(states), hash, s)
      ensures states == if ok then Put(old(states), hash, s) else old(states)
    {
      var existing := Find(states, hash, hash(s));
      if existing.Some? && existing.value != s {
        return false;
      }
      if existing.None? {
        states := states + [s];
      }
      ok := true;
    }
  }

  // ---------- what a run may do ----------

  /** The last grant or renewal of the lease. */
  ghost function LastLease(steps: seq<Step>): Option<Step> {
    if steps == [] then None
    else
      var last := steps[|steps| - 1];
      if last.Leased? then Some(last) else LastLease(steps[..|steps| - 1])
  }

  /** After these steps leadership was never lost, and the token was granted or renewed less than the renewal interval
      before `at`, and none since. */
  ghost predicate HeldAt(before: seq<Step>, at: int, token: int, plan: Plan) {
    && LeaseLost !in before
    && exists since :: LastLease(before) == Some(Leased(token, since)) && at - since < plan.renewInterval
  }

  /** Whatever is done under a lease is done under one held at its reading. */
  ghost predicate Leads(before: seq<Step>, s: Step, plan: Plan) {
    match s
    case Called(_, at, token) => HeldAt(before, at, token, plan)
    case Checked(_, at) => exists token :: HeldAt(before, at, token, plan)
    case _ => true
  }

  /** Every hook is called, and every health check made, under a lease held at the reading it is given. */
  ghost predicate Fenced(steps: seq<Step>, plan: Plan) {
    forall k :: 0 <= k < |steps| ==> Leads(steps[..k], steps[k], plan)
  }

  lemma FencedMore(steps: seq<Step>, s: Step, plan: Plan)
    requires Fenced(steps, plan) && Leads(steps, s, plan)
    ensures Fenced(steps + [s], plan)
  {
    var all := steps + [s];
    forall k | 0 <= k < |all| ensures Leads(all[..k], all[k], plan) {
      assert all[..k] == steps[..k];
      assert k < |steps| ==> Leads(steps[..k], steps[k], plan);
    }
  }

  ghost predicate LeasedLast(steps: seq<Step>, g: int) {
    0 <= g < |steps| && steps[g].Leased? && forall j :: g < j < |steps| ==> !steps[j].Leased?
  }

  lemma {:induction false} LastLeaseIsStep(steps: seq<Step>)
    requires LastLease(steps).Some?
    ensures exists g :: LeasedLast(steps, g) && LastLease(steps) == Some(steps[g])
  {
    var n := |steps| - 1;
    if steps[n].Leased? {
      assert LeasedLast(steps, n);
    } else {
      LastLeaseIsStep(steps[..n]);
      var g :| LeasedLast(steps[..n], g) && LastLease(steps[..n]) == Some(steps[..n][g]);
      assert steps[g] == steps[..n][g] && forall j :: 0 <= j < n ==> steps[j] == steps[..n][j];
      assert LeasedLast(steps, g);
    }
  }

  /** No hook is called once leadership is lost, and every hook is called under the last lease granted, which is
      unexpired at the reading the hook is given. */
  lemma HooksAreUnderLiveLeases(steps: seq<Step>, k: int, plan: Plan)
    requires Fenced(steps, plan) && Chronological(plan) && 0 <= k < |steps| && steps[k].Called?
    ensures forall j :: 0 <= j < k ==> steps[j] != LeaseLost
    ensures exists g :: LeasedLast(steps[..k], g) && steps[g].token == steps[k].token
                        && steps[k].at < steps[g].since + plan.leaseTtl
  {
    var before := steps[..k];
    assert Leads(before, steps[k], plan);
    LastLeaseIsStep(before);
    var g :| LeasedLast(before, g) && LastLease(before) == Some(before[g]);
    assert steps[g] == before[g] && forall j :: 0 <= j < k ==> steps[j] == before[j];
  }

  /** More was done, but no hook was called, no position reported and no flatten tried. */
  ghost predicate Quiet(before: seq<Step>, after: seq<Step>) {
    before <= after
    && forall k :: |before| <= k < |after| ==> !after[k].Called? && !after[k].Reported? && !after[k].FlattenTried?
  }

  lemma QuietHere(steps: seq<Step>)
    ensures Quiet(steps, steps)
  {
  }

  lemma QuietOn(a: seq<Step>, b: seq<Step>, c: seq<Step>)
    requires Quiet(a, b) && Quiet(b, c)
    ensures Quiet(a, c) && a <= b <= c
  {
    assert forall k :: 0 <= k < |b| ==> c[k] == b[k];
  }

  /** More was done, but nothing was executed or reported and no flatten tried. */
  ghost predicate Idle(before: seq<Step>, after: seq<Step>) {
    before <= after
    && forall k :: |before| <= k < |after| ==> !IsExecution(after[k]) && !after[k].Reported? && !after[k].FlattenTried?
  }

  /** More was done, but nothing was executed and no flatten tried. */
  ghost predicate Unexecuted(before: seq<Step>, after: seq<Step>) {
    before <= after && forall k :: |before| <= k < |after| ==> !IsExecution(after[k]) && !after[k].FlattenTried?
  }

  ghost predicate IsExecution(s: Step) {
    s.Called? && s.hook == SizeAndExecute
  }

  /** The hook was called once, at step `k`, with a reading taken since `before`. */
  ghost predicate CalledAt(before: seq<Step>, after: seq<Step>, k: int, hook: Hook) {
    && |before| < k < |after| && Quiet(before, after[..k]) && Quiet(after[..k + 1], after)
    && after[k].Called? && after[k].hook == hook
    && exists r :: |before| <= r < k && after[r] == Read(after[k].at)
  }

  /** The conditions of an execution after the given steps: an inactive kill switch, two checks that found everything
      sound, an approved evaluation right after a reading not past the evaluator cutoff, and a reading at or after the
      open and a later one not after the entry cutoff, both before the reading the hook is given. */
  ghost predicate GateOpen(before: seq<Step>, at: int, plan: Plan) {
    && SwitchRead(false) in before && ApprovedInTime(before, plan)
    && CheckedTwice(before, plan) && OnTime(before, at, plan)
  }

  ghost predicate ApprovedInTime(before: seq<Step>, plan: Plan) {
    exists v :: 0 < v < |before| && before[v] == Evaluated(Approved) && ReadBy(before[v - 1], plan.evaluatorCutoff)
  }

  ghost predicate ReadBy(s: Step, time: int) {
    s.Read? && s.now <= time
  }

  ghost predicate ReadFrom(s: Step, time: int) {
    s.Read? && s.now >= time
  }

  /** Every report of the execution asks for no kill switch and has only valid quantities, and the next step is a
      reading not past the entry cutoff. */
  ghost predicate Cleared(before: seq<Step>, after: seq<Step>, plan: Plan) {
    before <= after && forall m :: |before| <= m < |after| && after[m].Reported? ==> Clears(after, m, plan)
  }

  ghost predicate Clears(steps: seq<Step>, m: int, plan: Plan)
    requires 0 <= m < |steps| && steps[m].Reported?
  {
    && !steps[m].killRequested && m + 1 < |steps| && ReadBy(steps[m + 1], plan.entryCutoff)
    && forall i :: 0 <= i < |steps[m].positions| ==> steps[m].positions[i].1.Some?
  }

  /** No flatten is tried before a reading at or past its time. */
  ghost predicate Waited(before: seq<Step>, after: seq<Step>, plan: Plan) {
    before <= after && forall j :: |before| <= j < |after| && after[j].FlattenTried? ==> WaitedAt(before, after, j, plan)
  }

  ghost predicate WaitedAt(before: seq<Step>, after: seq<Step>, j: int, plan: Plan) {
    exists w :: |before| <= w < j < |after| && ReadFrom(after[w], plan.flattenAt)
  }

  /** The health check found everything sound. */
  predicate Healthy(s: Step, plan: Plan) {
    s.Checked? && Sound(s.health, plan.configuration, plan.maxSkewMs)
  }

  ghost predicate CheckedTwice(before: seq<Step>, plan: Plan) {
    exists a, b :: 0 <= a < b < |before| && Healthy(before[a], plan) && Healthy(before[b], plan)
  }

  ghost predicate OnTime(before: seq<Step>, at: int, plan: Plan) {
    exists o, c, r :: 0 <= o < c < r < |before| && InWindow(before[o], before[c], plan) && before[r] == Read(at)
  }

  ghost predicate CheckedSince(before: seq<Step>, after: seq<Step>, plan: Plan) {
    exists k :: |before| <= k < |after| && Healthy(after[k], plan)
  }

  ghost predicate WindowSince(before: seq<Step>, after: seq<Step>, plan: Plan) {
    exists o, c :: |before| <= o < c < |after| && InWindow(after[o], after[c], plan)
  }

  ghost predicate Gated(steps: seq<Step>, k: int, plan: Plan) {
    0 <= k < |steps| && IsExecution(steps[k]) && GateOpen(steps[..k], steps[k].at, plan)
  }

  ghost predicate InWindow(open: Step, cutoff: Step, plan: Plan) {
    ReadFrom(open, plan.openAt) && ReadBy(cutoff, plan.entryCutoff)
  }

  /** The one execution since `before` is step `k`. */
  ghost predicate ExecutedAt(before: seq<Step>, after: seq<Step>, k: int) {
    && |before| < k < |after| && Idle(before, after[..k]) && IsExecution(after[k]) && Unexecuted(after[..k + 1], after)
    && exists r :: |before| <= r < k && after[r] == Read(after[k].at)
  }

  /** The execution was step `k`, or nothing was executed. */
  ghost predicate ExecutedOrQuiet(before: seq<Step>, after: seq<Step>, k: int) {
    if k >= 0 then ExecutedAt(before, after, k) else Quiet(before, after)
  }

  // ---------- the orchestrator ----------

  ghost predicate Chronological(plan: Plan) {
    && plan.warmupAt < plan.windowAt < plan.snapshotAt < plan.evaluatorCutoff < plan.lockAt < plan.openAt
       < plan.entryCutoff < plan.flattenAt
    && plan.renewInterval < plan.leaseTtl
  }

  /** The clock finally stays past the plan, so waiting ends. */
  ghost predicate PassesBy(clock: nat -> int, horizon: nat, target: int) {
    forall i :: i >= horizon ==> clock(i) >= target
  }

  const PREPARED := [Preflight, RecorderWarmup, Recording, FeatureFreeze, Evaluation]
  const TRADED := [EligibilityLock, Execution, Monitoring]
  const CONCLUDED := [Flattening, Reconciliation, Completed]

  /** The phases of a session that ends without a failure. */
  function Script(outcome: SessionOutcome): seq<Phase> {
    [LeadershipAcquired] + PREPARED + (if outcome == CompletedSession then TRADED else []) + CONCLUDED
  }

  /** The outcome before the flatten is the evaluator's verdict. */
  ghost predicate Decided(steps: seq<Step>, outcome: SessionOutcome) {
    match outcome
    case CompletedSession => Evaluated(Approved) in steps
    case NoSetups => Evaluated(NoneApproved) in steps
    case Blocked => Evaluated(BlockedMarket) in steps || Evaluated(StalePayload) in steps || Evaluated(SchemaFailure) in steps
    case _ => true
  }

  function FinalPhase(outcome: SessionOutcome, failure: Option<Failure>): Phase {
    if failure == Some(LeadershipUnavailable) then Failed
    else if outcome in {KilledSession, FlattenIncomplete} then Killed
    else Completed
  }

  /** The reported positions, up to an invalid quantity. */
  ghost predicate Collected(managed: Managed, raw: seq<(string, Option<real>)>) {
    && |managed| <= |raw| && (|managed| < |raw| ==> raw[|managed|].1.None?)
    && forall i :: 0 <= i < |managed| ==> raw[i] == (managed[i].0, Some(managed[i].1))
  }

  ghost predicate NoReports(before: seq<Step>, after: seq<Step>) {
    before <= after && forall k :: |before| <= k < |after| ==> !after[k].Reported?
  }

  ghost predicate HandedSince(before: seq<Step>, after: seq<Step>, managed: Managed) {
    || (managed == [] && NoReports(before, after))
    || (before <= after && exists k :: |before| <= k < |after| && after[k].Reported? && Collected(managed, after[k].positions))
  }

  /** Every flatten tried is handed these positions. */
  ghost predicate TriesCarry(before: seq<Step>, after: seq<Step>, managed: Managed) {
    before <= after && forall k :: |before| <= k < |after| && after[k].FlattenTried? ==> after[k].managed == managed
  }

  /** The variables the handlers read. */
  datatype Progress = Progress(
    outcome: SessionOutcome, finalPhase: Phase, killSwitch: State, flattened: Option<bool>, managed: Managed)

  /** What a save for one session does to the stored states: other sessions keep their latest state, and in no session
      a latching history or an active latest state is lost. */
  ghost predicate Keeps(before: seq<State>, after: seq<State>, session: SessionId) {
    && (forall s :: s != session ==> Latest(after, s) == Latest(before, s))
    && (forall s :: Latching(before, s) ==> Latching(after, s))
    && (forall s :: LatestActive(before, s) ==> LatestActive(after, s))
  }

  /** A save of an active state: in a latching history it leaves the session's latest state active. */
  ghost predicate Activates(before: seq<State>, after: seq<State>, session: SessionId) {
    Keeps(before, after, session) && (Latching(before, session) ==> LatestActive(after, session))
  }

  lemma KeepsOn(a: seq<State>, b: seq<State>, c: seq<State>, session: SessionId)
    requires Keeps(a, b, session) && Keeps(b, c, session)
    ensures Keeps(a, c, session)
  {
    forall s | s != session ensures Latest(c, s) == Latest(a, s) {
      assert Latest(b, s) == Latest(a, s);
    }
  }

  lemma ActiveSaveActivates(states: seq<State>, hash: State -> int, s: State)
    requires s.Active? && !Collides(states, hash, s)
    ensures Activates(states, Put(states, hash, s), s.session)
  {
    SavingActiveLatches(states, hash, s);
    forall other | other != s.session
      ensures Latest(Put(states, hash, s), other) == Latest(states, other)
      ensures Latching(states, other) ==> Latching(Put(states, hash, s), other)
    {
      OtherSessionsStay(states, hash, s, other);
    }
  }

  lemma FirstSaveKeeps(states: seq<State>, hash: State -> int, session: SessionId)
    requires Latest(states, session).None? && !Collides(states, hash, Inactive(session))
    ensures Keeps(states, Put(states, hash, Inactive(session)), session)
    ensures Latest(Put(states, hash, Inactive(session)), session) == Some(Inactive(session))
  {
    SavingInactiveStarts(states, hash, session);
    forall other | other != session
      ensures Latest(Put(states, hash, Inactive(session)), other) == Latest(states, other)
      ensures Latching(states, other) ==> Latching(Put(states, hash, Inactive(session)), other)
    {
      OtherSessionsStay(states, hash, Inactive(session), other);
    }
  }

  class SessionOrchestrator {
    const repository: MemoryOrchestrationRepository
    const clock: nat -> int
    var ticks: nat
    var lease: Option<Lease>
    var lastRenewed: Option<int>
    /** What the current run has done so far. */
    ghost var steps: seq<Step>

    constructor (repository: MemoryOrchestrationRepository, clock: nat -> int)
      ensures this.repository == repository && this.clock == clock && lease == None
    {
      this.repository, this.clock := repository, clock;
      ticks, lease, lastRenewed, steps := 0, None, None, [];
    }

    /** Leadership was not lost, and the lease held is the last one granted. */
    ghost predicate Held()
      reads this
    {
      && LeaseLost !in steps
      && (lease.Some? ==> lastRenewed.Some? && LastLease(steps) == Some(Leased(lease.value.token, lastRenewed.value)))
    }

    ghost method Log(s: Step, plan: Plan)
      requires Fenced(steps, plan) && Leads(steps, s, plan)
      modifies this`steps
      ensures steps == old(steps) + [s] && Fenced(steps, plan)
      ensures LastLease(steps) == if s.Leased? then Some(s) else LastLease(old(steps))
      ensures old(Held()) && !s.Leased? && s != LeaseLost ==> Held()
    {
      FencedMore(steps, s, plan);
      steps := steps + [s];
      assert steps[..|steps| - 1] == old(steps);
    }

    method Now(ghost plan: Plan) returns (now: int)
      requires Fenced(steps, plan)
      modifies this`ticks, this`steps
      ensures now == clock(old(ticks)) && ticks == old(ticks) + 1
      ensures steps == old(steps) + [Read(now)] && LastLease(steps) == LastLease(old(steps)) && Fenced(steps, plan)
      ensures (old(Held()) ==> Held()) && Quiet(old(steps), steps)
    {
      now := clock(ticks);
      ticks := ticks + 1;
      Log(Read(now), plan);
    }

    /** `_phase`: building the record may fail, appending it does not. */
    method RecordPhase(plan: Plan, phase: Phase) returns (r: Result<()>)
      requires repository.Valid()
      modifies repository`phases
      ensures repository.Valid()
      ensures r.Raised? ==> r.failure.Error?
      ensures r.Done? ==> repository.Phases(plan.session) == old(repository.Phases(plan.session)) + [phase]
    {
      var unserializable: bool, reason: Reason := *, *;
      if unserializable {
        return Raised(Error(reason));
      }
      var n := if plan.session in repository.phases then |repository.phases[plan.session]| else 0;
      var ok := repository.AppendPhase(plan.session, n + 1, phase);
      assert ok;
      r := Done(());
    }

    /** A lease is renewed once the interval has passed since the last reading it was granted or renewed at; a renewal
        that is refused or raises fails. */
    method RenewLeadership(plan: Plan, now: int) returns (r: Result<()>)
      requires Held() && Fenced(steps, plan)
      modifies this`lease, this`lastRenewed, this`steps
      ensures Fenced(steps, plan) && Quiet(old(steps), steps)
      ensures r.Done? <==> lease.Some? && LeaseLost !in steps
      ensures r.Done? ==> Held() && now - lastRenewed.value < plan.renewInterval && HeldAt(steps, now, lease.value.token, plan)
      ensures old(Due(plan, now)) ==> steps == old(steps) + [if r.Done? then Leased(lease.value.token, now) else LeaseLost]
      ensures !old(Due(plan, now)) ==> steps == old(steps) && lease == old(lease) && lastRenewed == old(lastRenewed)
      ensures r.Raised? ==> r.failure.Error?
    {
      hide Fenced;
      if lease.None? {
        return Raised(Error(LeadershipLost));
      }
      if lastRenewed.Some? && now - lastRenewed.value < plan.renewInterval {
        return Done(());
      }
      r := AskRenewal(plan, now);
    }

    /** The call of the leadership service. */
    method AskRenewal(plan: Plan, now: int) returns (r: Result<()>)
      requires Fenced(steps, plan)
      modifies this`lease, this`lastRenewed, this`steps
      ensures Fenced(steps, plan)
      ensures r.Done? ==> lease.Some? && lastRenewed == Some(now) && LastLease(steps) == Some(Leased(lease.value.token, now))
      ensures r.Done? ==> steps == old(steps) + [Leased(lease.value.token, now)]
      ensures r.Raised? ==> r.failure.Error? && steps == old(steps) + [LeaseLost]
    {
      hide Fenced;
      var renewed: Option<Lease>, fails: bool, reason: Reason := *, *, *;
      if fails {
        Log(LeaseLost, plan);
        return Raised(Error(reason));
      }
      if renewed.None? {
        Log(LeaseLost, plan);
        return Raised(Error(LeadershipLost));
      }
      lease := renewed;
      lastRenewed := Some(now);
      Log(Leased(renewed.value.token, now), plan);
      r := Done(());
    }

    ghost predicate Due(plan: Plan, now: int)
      reads this
    {
      lease.Some? && (lastRenewed.None? || now - lastRenewed.value >= plan.renewInterval)
    }

    method WaitUntil(plan: Plan, target: int, ghost horizon: nat) returns (r: Result<()>)
      requires Held() && Fenced(steps, plan) && PassesBy(clock, horizon, target)
      modifies this
      ensures Fenced(steps, plan) && (r.Done? ==> Held()) && Quiet(old(steps), steps)
      ensures r.Raised? ==> r.failure.Error?
      ensures r.Done? ==> exists o :: |old(steps)| <= o < |steps| && ReadFrom(steps[o], target)
    {
      hide Fenced, HeldAt, Held, Quiet;
      QuietHere(steps);
      while true
        invariant Held() && Fenced(steps, plan) && Quiet(old(steps), steps)
        decreases horizon - ticks
      {
        ghost var waited := steps;
        var now := Now(plan);
        QuietOn(old(steps), waited, steps);
        if target - now <= 0 {
          assert ReadFrom(steps[|steps| - 1], target);
          return Done(());
        }
        ghost var slept := steps;
        var again := Now(plan);
        QuietOn(old(steps), slept, steps);
        ghost var woken := steps;
        r := RenewLeadership(plan, again);
        QuietOn(old(steps), woken, steps);
        if r.Raised? {
          return;
        }
      }
    }

    method RunPreflight(plan: Plan, phase: Phase) returns (r: Result<()>)
      requires Held() && Fenced(steps, plan) && repository.Valid()
      modifies this, repository`phases
      ensures Fenced(steps, plan) && (r.Done? ==> Held()) && repository.Valid() && Quiet(old(steps), steps)
      ensures r.Raised? ==> r.failure.Error?
      ensures r.Done? ==> CheckedSince(old(steps), steps, plan)
      ensures r.Done? ==> repository.Phases(plan.session) == old(repository.Phases(plan.session)) + [phase]
    {
      hide Fenced, Held, Quiet, CheckedSince;
      var _ :- Probe(plan);
      r := RecordPhase(plan, phase);
    }

    /** The health check. */
    method Probe(plan: Plan) returns (r: Result<()>)
      requires Held() && Fenced(steps, plan)
      modifies this`ticks, this`lease, this`lastRenewed, this`steps
      ensures Fenced(steps, plan) && (r.Done? ==> Held()) && Quiet(old(steps), steps)
      ensures r.Raised? ==> r.failure.Error?
      ensures r.Done? ==> CheckedSince(old(steps), steps, plan)
    {
      hide Fenced, Held, HeldAt, Quiet, CheckedSince, HealthKillReason, ReasonFromError;
      ghost var begun := steps;
      var now := Now(plan);
      ghost var looked := steps;
      var renewed := RenewLeadership(plan, now);
      QuietOn(begun, looked, steps);
      if renewed.Raised? {
        return renewed;
      }
      looked := steps;
      var health: Health, fails: bool, why: Reason := *, *, *;
      if fails {
        return Raised(Error(why));
      }
      var reason := HealthKillReason(health, plan.configuration, plan.maxSkewMs);
      HealthyExactly(health, plan.configuration, plan.maxSkewMs);
      Log(Checked(health, now), plan);
      CheckLogged(begun, looked, steps, plan);
      r := if reason.Some? then Raised(Error(ReasonFromError(PREFLIGHT_FAILED + " " + Name(reason.value)))) else Done(());
    }

    method CallHook(plan: Plan, hook: Hook, now: int, token: int) returns (r: Result<Details>)
      requires Fenced(steps, plan) && HeldAt(steps, now, token, plan)
      modifies this`steps
      ensures steps == old(steps) + [Called(hook, now, token)] && LastLease(steps) == LastLease(old(steps))
      ensures Fenced(steps, plan) && (old(Held()) ==> Held())
      ensures r.Raised? ==> r.failure.Error?
    {
      Log(Called(hook, now, token), plan);
      var details: Details, fails: bool, reason: Reason := *, *, *;
      r := if fails then Raised(Error(reason)) else Done(details);
    }

    method StartPhase(plan: Plan, hook: Option<Hook>) returns (r: Result<Details>, ghost k: int)
      requires Held() && Fenced(steps, plan)
      modifies this`ticks, this`lease, this`lastRenewed, this`steps
      ensures Fenced(steps, plan) && (r.Done? ==> Held())
      ensures r.Raised? ==> r.failure.Error?
      ensures k >= 0 ==> hook.Some? && CalledAt(old(steps), steps, k, hook.value)
      ensures k < 0 ==> Quiet(old(steps), steps) && (hook.Some? ==> r.Raised?)
    {
      hide Fenced, Held, HeldAt;
      k := -1;
      ghost var s := |steps|;
      var started := Now(plan);
      assert steps[s] == Read(started);
      var renewed := RenewLeadership(plan, started);
      if renewed.Raised? {
        return Raised(renewed.failure), k;
      }
      if hook.None? {
        return Done(Details(None, [], false)), k;
      }
      k := |steps|;
      ghost var before := steps;
      r := CallHook(plan, hook.value, started, lease.value.token);
      assert steps[..k] == before && steps[s] == Read(started);
    }

    /** `_run_phase`; the recording phase has no session hook. `k` is the step of the call, or -1. */
    method RunPhase(plan: Plan, phase: Phase, hook: Option<Hook>) returns (r: Result<Details>, ghost k: int)
      requires Held() && Fenced(steps, plan) && repository.Valid()
      modifies this, repository`phases
      ensures Fenced(steps, plan) && (r.Done? ==> Held()) && repository.Valid()
      ensures r.Raised? ==> r.failure.Error?
      ensures k >= 0 ==> hook.Some? && CalledAt(old(steps), steps, k, hook.value)
      ensures k < 0 ==> Quiet(old(steps), steps) && (hook.Some? ==> r.Raised?)
      ensures r.Done? ==> repository.Phases(plan.session) == old(repository.Phases(plan.session)) + [phase]
    {
      r, k := StartPhase(plan, hook);
      if r.Raised? {
        return;
      }
      ghost var called := steps;
      var ended := EndPhase(plan, phase);
      if k >= 0 {
        CalledStays(old(steps), called, steps, k, hook.value);
      }
      r := if ended.Raised? then Raised(ended.failure) else r;
    }

    method EndPhase(plan: Plan, phase: Phase) returns (r: Result<()>)
      requires Held() && Fenced(steps, plan) && repository.Valid()
      modifies this, repository`phases
      ensures Fenced(steps, plan) && (r.Done? ==> Held()) && repository.Valid() && Quiet(old(steps), steps)
      ensures r.Raised? ==> r.failure.Error?
      ensures r.Done? ==> repository.Phases(plan.session) == old(repository.Phases(plan.session)) + [phase]
    {
      hide Fenced, Held, HeldAt, Quiet;
      ghost var begun := steps;
      var ended := Now(plan);
      ghost var looked := steps;
      var renewed := RenewLeadership(plan, ended);
      QuietOn(begun, looked, steps);
      if renewed.Raised? {
        return renewed;
      }
      r := RecordPhase(plan, phase);
    }

    /** `_run_flatten`: the service reads the clock on its own. */
    method RunFlatten(plan: Plan, at: Option<int>, managed: Managed) returns (r: Result<bool>)
      requires repository.Valid() && Fenced(steps, plan)
      modifies this`ticks, this`steps, repository`phases
      ensures repository.Valid() && Fenced(steps, plan)
      ensures r.Raised? ==> r.failure.Error?
      ensures NoCalls(old(steps), steps) && TriesCarry(old(steps), steps, managed)
      ensures Tried(old(steps), steps, managed)
      ensures r.Done? ==> steps[|steps| - 1] == Flattened(r.value)
      ensures r.Done? ==> repository.Phases(plan.session) == old(repository.Phases(plan.session)) + [Flattening]
    {
      hide Fenced, NoCalls, TriesCarry, Tried;
      var complete :- CallFlatten(plan, at, managed);
      var recorded := RecordPhase(plan, Flattening);
      r := if recorded.Raised? then Raised(recorded.failure) else Done(complete);
    }

    /** The call of the flatten service. */
    method CallFlatten(plan: Plan, at: Option<int>, managed: Managed) returns (r: Result<bool>)
      requires Fenced(steps, plan)
      modifies this`ticks, this`steps
      ensures Fenced(steps, plan) && NoCalls(old(steps), steps)
      ensures TriesCarry(old(steps), steps, managed) && Tried(old(steps), steps, managed)
      ensures r.Raised? ==> r.failure.Error?
      ensures r.Done? ==> steps[|steps| - 1] == Flattened(r.value)
    {
      hide Fenced, Held, Quiet, NoCalls, TriesCarry, Tried;
      ghost var begun := steps;
      QuietHere(begun);
      if at.None? {
        var now := Now(plan);
      }
      ghost var looked := steps;
      Log(FlattenTried(managed), plan);
      FlattenCalled(begun, looked, steps, managed, []);
      var readings: nat, complete: bool, fails: bool, reason: Reason := *, *, *, *;
      ticks := ticks + readings;
      if fails {
        return Raised(Error(reason));
      }
      Log(Flattened(complete), plan);
      FlattenCalled(begun, looked, steps, managed, [Flattened(complete)]);
      r := Done(complete);
    }

    /** `activate_kill_switch` and the save. */
    method Activate(plan: Plan, at: int, reason: Reason) returns (r: Result<State>)
      requires repository.Valid()
      modifies repository`states
      ensures repository.Valid() && Keeps(old(repository.states), repository.states, plan.session)
      ensures r.Raised? ==> r.failure.Error?
      ensures r.Done? ==> r.value.Active? && Activates(old(repository.states), repository.states, plan.session)
    {
      var details: string := *;
      var s := Active(plan.session, at, reason, details);
      ghost var before := repository.states;
      var ok := repository.SaveKillSwitch(s);
      if !ok {
        return Raised(Error(UnknownFailure));
      }
      ActiveSaveActivates(before, repository.hash, s);
      r := Done(s);
    }

    /** Alert delivery may fail. */
    method EmitCritical() returns (r: Result<()>)
      ensures r.Raised? ==> r.failure.Error?
    {
      var fails: bool, reason: Reason := *, *;
      r := if fails then Raised(Error(reason)) else Done(());
    }

    method WaitAndRun(plan: Plan, phase: Phase, at: int, hook: Option<Hook>, ghost horizon: nat) returns (r: Result<Details>)
      requires Held() && Fenced(steps, plan) && repository.Valid() && PassesBy(clock, horizon, at)
      modifies this, repository`phases
      ensures Fenced(steps, plan) && (r.Done? ==> Held()) && repository.Valid()
      ensures hook != Some(SizeAndExecute) ==> Idle(old(steps), steps)
      ensures r.Raised? ==> r.failure.Error?
      ensures r.Done? ==> repository.Phases(plan.session) == old(repository.Phases(plan.session)) + [phase]
    {
      var _ :- WaitUntil(plan, at, horizon);
      ghost var waited, k := steps, -1;
      r, k := RunPhase(plan, phase, hook);
      if k >= 0 && hook.value != SizeAndExecute {
        CalledIsIdle(waited, steps, k, hook.value);
      }
    }

    /** From preflight to the frozen features. */
    method FreezeFeatures(plan: Plan, ghost horizon: nat) returns (r: Result<()>)
      requires Held() && Fenced(steps, plan) && repository.Valid() && Chronological(plan) && PassesBy(clock, horizon, plan.flattenAt)
      modifies this, repository`phases
      ensures Fenced(steps, plan) && (r.Done? ==> Held()) && repository.Valid() && Idle(old(steps), steps)
      ensures r.Raised? ==> r.failure.Error?
      ensures r.Done? ==> CheckedSince(old(steps), steps, plan)
      ensures r.Done? ==> repository.Phases(plan.session) == old(repository.Phases(plan.session)) + [Preflight, RecorderWarmup, Recording, FeatureFreeze]
    {
      hide Held, Fenced;
      ghost var before := repository.Phases(plan.session);
      var _ :- RunPreflight(plan, Preflight);
      ghost var k :| |old(steps)| <= k < |steps| && Healthy(steps[k], plan);
      var _ :- WaitAndRun(plan, RecorderWarmup, plan.warmupAt, Some(Warmup), horizon);
      assert repository.Phases(plan.session) == before + [Preflight, RecorderWarmup];
      var _ :- WaitAndRun(plan, Recording, plan.windowAt, None, horizon);
      assert repository.Phases(plan.session) == before + [Preflight, RecorderWarmup, Recording];
      var _ :- WaitAndRun(plan, FeatureFreeze, plan.snapshotAt, Some(Freeze), horizon);
      assert Healthy(steps[k], plan);
      r := Done(());
    }

    /** From preflight to the evaluator's verdict. */
    method Prepare(plan: Plan, ghost horizon: nat) returns (r: Result<Summary>)
      requires Held() && Fenced(steps, plan) && repository.Valid() && Chronological(plan) && PassesBy(clock, horizon, plan.flattenAt)
      modifies this, repository`phases
      ensures Fenced(steps, plan) && (r.Done? ==> Held()) && repository.Valid() && Idle(old(steps), steps)
      ensures r.Raised? ==> r.failure.Error?
      ensures r.Done? ==> r.value.approved <= 3 && (r.value.status == Approved <==> r.value.approved > 0)
      ensures r.Done? ==> CheckedSince(old(steps), steps, plan) && ReadBy(steps[|steps| - 1], plan.evaluatorCutoff)
      ensures r.Done? ==> repository.Phases(plan.session) == old(repository.Phases(plan.session)) + PREPARED
    {
      hide Fenced, Held, Healthy, Sound;
      var _ :- FreezeFeatures(plan, horizon);
      ghost var k :| |old(steps)| <= k < |steps| && Healthy(steps[k], plan);
      var details :- WaitAndRun(plan, Evaluation, plan.snapshotAt, Some(Evaluate), horizon);
      var now := Now(plan);
      assert Healthy(steps[k], plan);
      if now > plan.evaluatorCutoff {
        return Raised(Error(ExecutionCutoffExceeded));
      }
      if details.summary.None? || !Coherent(details.summary.value) {
        var reason: Reason := *;
        return Raised(Error(reason));
      }
      r := Done(details.summary.value);
    }

    /** The wait to the open, the second health check and the entry cutoff. */
    method OpenGate(plan: Plan, ghost horizon: nat) returns (r: Result<()>)
      requires Held() && Fenced(steps, plan) && repository.Valid() && Chronological(plan) && PassesBy(clock, horizon, plan.flattenAt)
      modifies this, repository`phases
      ensures Fenced(steps, plan) && (r.Done? ==> Held()) && repository.Valid() && Quiet(old(steps), steps)
      ensures r.Raised? ==> r.failure.Error?
      ensures r.Done? ==> CheckedSince(old(steps), steps, plan)
      ensures r.Done? ==> WindowSince(old(steps), steps, plan)
      ensures r.Done? ==> repository.Phases(plan.session) == old(repository.Phases(plan.session)) + [EligibilityLock]
    {
      hide Fenced, Held, Quiet, CheckedSince, WindowSince;
      ghost var begun := steps;
      var _ :- WaitUntil(plan, plan.lockAt, horizon);
      ghost var locked := steps;
      var preflight := RunPreflight(plan, EligibilityLock);
      QuietOn(begun, locked, steps);
      if preflight.Raised? {
        return preflight;
      }
      ghost var checked := steps;
      CheckedOn(begun, locked, checked, checked, plan);
      var wait := WaitUntil(plan, plan.openAt, horizon);
      QuietOn(begun, checked, steps);
      if wait.Raised? {
        return wait;
      }
      ghost var waited := steps;
      var now := Now(plan);
      QuietOn(begun, waited, steps);
      CheckedOn(begun, begun, checked, steps, plan);
      if now > plan.entryCutoff {
        return Raised(Error(ExecutionCutoffExceeded));
      }
      WindowOpens(begun, checked, waited, steps, plan);
      r := Done(());
    }

    /** The managed positions the execution reports, up to an invalid quantity. */
    method Collect(raw: seq<(string, Option<real>)>) returns (managed: Managed, valid: bool)
      ensures valid <==> |managed| == |raw|
      ensures Collected(managed, raw)
    {
      managed, valid := [], true;
      for i := 0 to |raw|
        invariant |managed| == i
        invariant forall j :: 0 <= j < i ==> raw[j] == (managed[j].0, Some(managed[j].1))
      {
        if raw[i].1.None? {
          valid := false;
          return;
        }
        managed := managed + [(raw[i].0, raw[i].1.value)];
      }
    }

    /** After the execution hook: its managed positions, the cutoff again, and the monitoring phase. */
    method Monitor(plan: Plan, details: Details) returns (r: Result<()>, managed: Managed, monitored: bool)
      requires Held() && Fenced(steps, plan) && repository.Valid()
      modifies this, repository`phases
      ensures Fenced(steps, plan) && (r.Done? ==> Held()) && repository.Valid() && Idle(old(steps), steps)
      ensures r.Raised? ==> r.failure.Error?
      ensures r.Done? ==> monitored && !details.killSwitchRequired && |managed| == |details.managed|
      ensures r.Done? ==> |old(steps)| < |steps| && ReadBy(steps[|old(steps)|], plan.entryCutoff)
      ensures r.Done? ==> repository.Phases(plan.session) == old(repository.Phases(plan.session)) + [Monitoring]
      ensures Collected(managed, details.managed)
    {
      monitored := false;
      var valid;
      managed, valid := Collect(details.managed);
      if !valid {
        var reason: Reason := *;
        return Raised(Error(reason)), managed, monitored;
      }
      var now := Now(plan);
      if now > plan.entryCutoff {
        return Raised(Error(ExecutionCutoffExceeded)), managed, monitored;
      }
      ghost var before, m := steps, -1;
      var reconciled;
      reconciled, m := RunPhase(plan, Monitoring, Some(Reconcile));
      if m >= 0 {
        CalledIsIdle(before, steps, m, Reconcile);
      }
      if reconciled.Raised? {
        return Raised(reconciled.failure), managed, monitored;
      }
      monitored := true;
      if details.killSwitchRequired {
        var reason: Reason := *;
        return Raised(Error(reason)), managed, monitored;
      }
      r := Done(());
    }

    /** Execution and monitoring. `k` is the step of the execution, or -1; `monitored` says both phases ended. */
    method Execute(plan: Plan) returns (r: Result<()>, managed: Managed, monitored: bool, ghost k: int)
      requires Held() && Fenced(steps, plan) && repository.Valid()
      modifies this, repository`phases
      ensures Fenced(steps, plan) && (r.Done? ==> Held()) && repository.Valid()
      ensures r.Raised? ==> r.failure.Error?
      ensures r.Done? ==> monitored && Cleared(old(steps), steps, plan)
      ensures k < 0 ==> r.Raised? && !monitored
      ensures ExecutedOrQuiet(old(steps), steps, k)
      ensures HandedSince(old(steps), steps, managed)
      ensures r.Done? ==> repository.Phases(plan.session) == old(repository.Phases(plan.session)) + [Execution, Monitoring]
    {
      hide Held, Fenced, CalledAt, Idle, Cleared, HandedSince, Quiet, Collected, ExecutedAt;
      managed, monitored := [], false;
      var details;
      details, k := RunPhase(plan, Execution, Some(SizeAndExecute));
      ExecutionCalled(old(steps), steps, k);
      if details.Raised? {
        return Raised(details.failure), managed, monitored, k;
      }
      ghost var executed, phases := steps, repository.Phases(plan.session);
      Log(Reported(details.value.managed, details.value.killSwitchRequired), plan);
      r, managed, monitored := Monitor(plan, details.value);
      ReportedStays(old(steps), executed, steps, k, details.value, managed);
      if r.Done? {
        ReportClears(old(steps), executed, steps, k, details.value, managed, plan);
      }
      assert r.Done? ==> repository.Phases(plan.session) == phases + [Monitoring];
    }

    /** The mandatory flatten and its consequences. */
    method Conclude(plan: Plan, p: Progress, ghost horizon: nat) returns (r: Result<()>, p': Progress)
      requires Held() && Fenced(steps, plan) && repository.Valid() && PassesBy(clock, horizon, plan.flattenAt)
      requires p.outcome in {CompletedSession, NoSetups, Blocked}
      modifies this, repository`phases, repository`states
      ensures repository.Valid() && Keeps(old(repository.states), repository.states, plan.session) && Fenced(steps, plan)
      ensures NoCalls(old(steps), steps) && TriesCarry(old(steps), steps, p.managed) && Waited(old(steps), steps, plan)
      ensures r.Raised? ==> r.failure.Error?
      ensures p'.managed == p.managed
      ensures r.Done? ==> p'.finalPhase == FinalPhase(p'.outcome, None)
      ensures r.Done? && p'.flattened == Some(true) ==>
                repository.Phases(plan.session) == old(repository.Phases(plan.session)) + CONCLUDED
      ensures r.Done? ==> Tried(old(steps), steps, p.managed) && p'.flattened.Some? && Ended(old(steps), steps, p'.flattened.value)
      ensures r.Done? && p'.flattened == Some(true) ==> p'.outcome == p.outcome && p'.killSwitch == p.killSwitch
      ensures r.Done? && p'.flattened == Some(false) ==> p'.outcome == FlattenIncomplete
      ensures r.Done? && p'.outcome == FlattenIncomplete && Latching(old(repository.states), plan.session)
              ==> LatestActive(repository.states, plan.session)
    {
      hide Fenced, Held, Waited, NoCalls, TriesCarry, Tried, Ended;
      p' := p;
      ghost var begun, phases := steps, repository.Phases(plan.session);
      var complete :- FlattenAtClose(plan, p.managed, horizon);
      ghost var flattened := steps;
      p' := p'.(flattened := Some(complete), finalPhase := Flattening);
      if !complete {
        var completedAt: int := *;
        var active :- Activate(plan, completedAt, FlattenDeadlineExceeded);
        p' := p'.(killSwitch := active);
        var _ :- EmitCritical();
        p' := p'.(outcome := FlattenIncomplete, finalPhase := Killed);
        return Done(()), p';
      }
      var completed := CompletePhases(plan);
      WaitedStays(begun, flattened, steps, plan);
      FlattenStays(begun, flattened, steps, p.managed, complete);
      if completed.Raised? {
        return Raised(completed.failure), p';
      }
      ConcludedPhases(phases);
      p' := p'.(finalPhase := Completed);
      r := Done(());
    }

    method FlattenAtClose(plan: Plan, managed: Managed, ghost horizon: nat) returns (r: Result<bool>)
      requires Held() && Fenced(steps, plan) && repository.Valid() && PassesBy(clock, horizon, plan.flattenAt)
      modifies this, repository`phases
      ensures repository.Valid() && Fenced(steps, plan)
      ensures NoCalls(old(steps), steps) && TriesCarry(old(steps), steps, managed) && Waited(old(steps), steps, plan)
      ensures r.Raised? ==> r.failure.Error?
      ensures r.Done? ==> Tried(old(steps), steps, managed) && Ended(old(steps), steps, r.value)
      ensures r.Done? ==> repository.Phases(plan.session) == old(repository.Phases(plan.session)) + [Flattening]
    {
      ghost var begun := steps;
      var _ :- WaitUntil(plan, plan.flattenAt, horizon);
      ghost var waited := steps;
      r := RunFlatten(plan, None, managed);
      WaitingWaited(begun, waited, steps, plan);
      assert r.Done? ==> steps[|steps| - 1] == Flattened(r.value);
    }

    method CompletePhases(plan: Plan) returns (r: Result<()>)
      requires repository.Valid() && Fenced(steps, plan)
      modifies this`ticks, this`steps, repository`phases
      ensures repository.Valid() && Fenced(steps, plan)
      ensures r.Raised? ==> r.failure.Error?
      ensures NoCalls(old(steps), steps) && Unflattened(old(steps), steps)
      ensures r.Done? ==> repository.Phases(plan.session) == old(repository.Phases(plan.session)) + [Reconciliation, Completed]
    {
      var _ :- RecordPhase(plan, Reconciliation);
      var now := Now(plan);
      r := RecordPhase(plan, Completed);
    }

    /** Leadership: granted, refused, or an error. */
    method Acquire(plan: Plan, started: int) returns (r: Result<()>)
      requires Fenced(steps, plan) && LeaseLost !in steps
      modifies this`lease, this`lastRenewed, this`steps
      ensures Quiet(old(steps), steps) && Fenced(steps, plan)
      ensures r.Done? ==> Held()
      ensures r.Raised? ==> r.failure != PersistentKillSwitchActive
    {
      var granted: Option<Lease>, fails: bool, reason: Reason := *, *, *;
      if fails {
        return Raised(Error(reason));
      }
      if granted.None? {
        return Raised(LeadershipUnavailable);
      }
      lease := granted;
      lastRenewed := Some(started);
      Log(Leased(granted.value.token, started), plan);
      r := Done(());
    }

    /** An approved session: the gate, then execution. `a` and `c` are the steps of the inactive kill switch and of the
        first healthy check. */
    method Trade(plan: Plan, ghost a: int, ghost c: int, ghost horizon: nat)
      returns (r: Result<()>, managed: Managed, monitored: bool, ghost k: int)
      requires Held() && Fenced(steps, plan) && repository.Valid() && Chronological(plan) && PassesBy(clock, horizon, plan.flattenAt)
      requires |steps| > 1 && steps[|steps| - 1] == Evaluated(Approved)
      requires ReadBy(steps[|steps| - 2], plan.evaluatorCutoff)
      requires 0 <= a < |steps| - 1 && steps[a] == SwitchRead(false)
      requires 0 <= c < |steps| - 1 && Healthy(steps[c], plan)
      modifies this, repository`phases
      ensures Fenced(steps, plan) && (r.Done? ==> Held()) && repository.Valid()
      ensures r.Raised? ==> r.failure.Error?
      ensures r.Done? ==> monitored && Cleared(old(steps), steps, plan)
      ensures monitored ==> k >= 0
      ensures Traded(old(steps), steps, k, managed, plan)
      ensures r.Done? ==> repository.Phases(plan.session) == old(repository.Phases(plan.session)) + TRADED
    {
      managed, monitored, k := [], false, -1;
      ghost var verdict, phases := steps, repository.Phases(plan.session);
      var gate := OpenGate(plan, horizon);
      ghost var ready := steps;
      if gate.Raised? {
        NothingTraded(verdict, steps, plan);
        return Raised(gate.failure), managed, monitored, k;
      }
      r, managed, monitored, k := Execute(plan);
      TradeSettles(verdict, ready, steps, a, c, k, managed, plan);
      if r.Done? {
        ClearedSince(verdict, ready, steps, plan);
      }
      TradedPhases(phases);
    }

    /** Preparation and, when approved, execution. `k` is the step of the execution, or -1. */
    method Proceed(plan: Plan, p: Progress, ghost a: int, ghost horizon: nat)
      returns (r: Result<()>, p': Progress, ghost k: int)
      requires Held() && Fenced(steps, plan) && repository.Valid() && Chronological(plan) && PassesBy(clock, horizon, plan.flattenAt)
      requires 0 <= a < |steps| && steps[a] == SwitchRead(false) && p.managed == []
      modifies this, repository`phases
      ensures Fenced(steps, plan) && (r.Done? ==> Held()) && repository.Valid()
      ensures r.Raised? ==> r.failure.Error?
      ensures Traded(old(steps), steps, k, p'.managed, plan)
      ensures p'.killSwitch == p.killSwitch && p'.flattened == p.flattened
      ensures r.Done? ==> p'.outcome in {CompletedSession, NoSetups, Blocked}
      ensures r.Done? && p'.outcome == CompletedSession ==> k >= 0
      ensures r.Done? ==> Decided(steps, p'.outcome) && Cleared(old(steps), steps, plan)
      ensures r.Done? ==> repository.Phases(plan.session) == old(repository.Phases(plan.session)) + PREPARED
                          + if p'.outcome == CompletedSession then TRADED else []
    {
      hide Held, Fenced, Cleared, ReadBy, Traded, Idle, Decided;
      p', k := p, -1;
      ghost var begun, phases := steps, repository.Phases(plan.session);
      var summary, c := Judge(plan, horizon);
      NothingTraded(begun, steps, plan);
      if summary.Raised? {
        return Raised(summary.failure), p', k;
      }
      ghost var judged := steps;
      DecidedNow(steps);
      if summary.value.status in {BlockedMarket, StalePayload, SchemaFailure} {
        p' := p'.(outcome := Blocked, finalPhase := Evaluation);
      } else if summary.value.status == NoneApproved || summary.value.approved == 0 {
        p' := p'.(outcome := NoSetups, finalPhase := Evaluation);
      } else {
        var managed, monitored;
        r, managed, monitored, k := Trade(plan, a, c, horizon);
        TradedSince(begun, judged, steps, k, managed, plan);
        DecidedStays(judged, steps, CompletedSession);
        p' := p'.(managed := managed);
        if monitored {
          p' := p'.(outcome := CompletedSession, finalPhase := Monitoring);
        }
        if r.Raised? {
          return;
        }
        ClearedSince(begun, judged, steps, plan);
        Follows(phases, PREPARED, TRADED);
      }
      r := Done(());
    }

    /** Preparation up to the verdict; `c` is the step of the healthy check. */
    method Judge(plan: Plan, ghost horizon: nat) returns (r: Result<Summary>, ghost c: int)
      requires Held() && Fenced(steps, plan) && repository.Valid() && Chronological(plan) && PassesBy(clock, horizon, plan.flattenAt)
      modifies this, repository`phases
      ensures Fenced(steps, plan) && (r.Done? ==> Held()) && repository.Valid()
      ensures Idle(old(steps), steps) && NoReports(old(steps), steps)
      ensures r.Raised? ==> r.failure.Error?
      ensures r.Done? ==> r.value.approved <= 3 && (r.value.status == Approved <==> r.value.approved > 0)
      ensures r.Done? ==> |steps| > 1 && steps[|steps| - 1] == Evaluated(r.value.status)
                          && ReadBy(steps[|steps| - 2], plan.evaluatorCutoff)
      ensures r.Done? ==> |old(steps)| <= c < |steps| - 1 && Healthy(steps[c], plan) && old(steps) <= steps
      ensures r.Done? ==> repository.Phases(plan.session) == old(repository.Phases(plan.session)) + PREPARED
    {
      hide Fenced, Held, ReadBy, Healthy;
      c := -1;
      r := Prepare(plan, horizon);
      if r.Done? {
        ghost var prepared := steps;
        c :| |old(steps)| <= c < |steps| && Healthy(steps[c], plan);
        Log(Evaluated(r.value.status), plan);
        assert steps[c] == prepared[c] && steps[|steps| - 2] == prepared[|prepared| - 1];
      }
    }

    /** The body of the run's `try`. */
    method Attempt(plan: Plan, started: int, p: Progress, ghost a: int, ghost horizon: nat)
      returns (r: Result<()>, acquired: bool, p': Progress, ghost k: int)
      requires repository.Valid() && Chronological(plan) && PassesBy(clock, horizon, plan.flattenAt)
      requires Quiet([], steps) && Fenced(steps, plan) && LeaseLost !in steps
      requires 0 <= a < |steps| && steps[a] == SwitchRead(p.killSwitch.Active?) && p.managed == []
      modifies this, repository`phases, repository`states
      ensures repository.Valid() && Keeps(old(repository.states), repository.states, plan.session)
      ensures Settled(old(steps), steps, k, p'.managed, plan) && Fenced(steps, plan)
      ensures p.killSwitch.Active? ==> r.Raised? && NoCalls(old(steps), steps)
      ensures r.Raised? && r.failure.LeadershipUnavailable? ==> k < 0 && p' == p
      ensures r.Raised? && r.failure.PersistentKillSwitchActive? ==> p.killSwitch.Active? && p' == p
      ensures r.Done? ==> Concluded(steps, k, p', None, plan)
      ensures r.Done? && p'.outcome == CompletedSession ==> p'.killSwitch == p.killSwitch
      ensures r.Done? && p'.outcome == FlattenIncomplete && Latching(old(repository.states), plan.session)
              ==> LatestActive(repository.states, plan.session)
      ensures r.Done? && p'.flattened == Some(true) ==>
                repository.Phases(plan.session) == old(repository.Phases(plan.session)) + Script(p'.outcome)
    {
      hide Fenced, Waited, Cleared;
      p', k, acquired := p, -1, false;
      ghost var begun, phases := steps, repository.Phases(plan.session);
      r := Acquire(plan, started);
      QuietSettles(begun, steps, plan);
      if r.Raised? {
        return;
      }
      acquired := true;
      r := RecordPhase(plan, LeadershipAcquired);
      if r.Raised? {
        return;
      }
      if p.killSwitch.Active? {
        return Raised(PersistentKillSwitchActive), acquired, p', k;
      }
      ghost var held := steps;
      r, p', k := Proceed(plan, p, a, horizon);
      TradedSince(begun, held, steps, k, p'.managed, plan);
      if r.Raised? {
        return;
      }
      ghost var proceeded, outcome := steps, p'.outcome;
      r, p' := Conclude(plan, p', horizon);
      Settles(begun, proceeded, steps, k, p'.managed, plan);
      if r.Done? {
        Unbegun(begun, held, proceeded, plan);
        Concludes(proceeded, steps, k, p', outcome, plan);
        ScriptPhases(phases, outcome);
      }
    }

    /** The handler of any other exception. */
    method Recover(plan: Plan, reason: Reason, p: Progress) returns (r: Result<()>, p': Progress)
      requires repository.Valid() && Fenced(steps, plan)
      modifies this`ticks, this`steps, repository`phases, repository`states
      ensures repository.Valid() && Keeps(old(repository.states), repository.states, plan.session) && Fenced(steps, plan)
      ensures NoCalls(old(steps), steps) && TriesCarry(old(steps), steps, p.managed) && p'.managed == p.managed
      ensures r.Done? ==> Tried(old(steps), steps, p.managed) && p'.outcome == KilledSession && p'.killSwitch.Active?
      ensures r.Done? ==> p'.finalPhase == Killed
      ensures r.Done? && Latching(old(repository.states), plan.session) ==> LatestActive(repository.states, plan.session)
    {
      hide Fenced, Held, Keeps;
      p' := p;
      var now := Now(plan);
      var active :- Activate(plan, now, reason);
      p' := p'.(killSwitch := active);
      var _ :- EmitCritical();
      p' := p'.(outcome := KilledSession, finalPhase := Killed);
      var flattened := RunFlatten(plan, Some(now), p.managed);
      if flattened.Done? {
        p' := p'.(flattened := Some(flattened.value));
      }
      r := Done(());
    }

    /** The handler of an active persistent kill switch. */
    method StayKilled(plan: Plan, p: Progress) returns (r: Result<()>, p': Progress)
      requires repository.Valid() && Fenced(steps, plan)
      modifies this`ticks, this`steps, repository`phases
      ensures repository.Valid() && Fenced(steps, plan) && NoCalls(old(steps), steps) && TriesCarry(old(steps), steps, p.managed)
      ensures r.Done? ==> Tried(old(steps), steps, p.managed)
      ensures p'.outcome == KilledSession && p'.killSwitch == p.killSwitch
      ensures p'.managed == p.managed && p'.finalPhase == Killed
    {
      var now := Now(plan);
      p' := p.(outcome := KilledSession, finalPhase := Killed);
      var _ :- EmitCritical();
      var flattened := RunFlatten(plan, Some(now), p.managed);
      if flattened.Done? {
        p' := p'.(flattened := Some(flattened.value));
      }
      r := Done(());
    }

    /** The `finally` block: releasing the lease may fail. */
    method Finish(acquired: bool, ghost plan: Plan) returns (r: Result<()>)
      requires Fenced(steps, plan)
      modifies this`ticks, this`steps
      ensures steps == old(steps) + [Read(clock(old(ticks)))] && Fenced(steps, plan)
    {
      var completedAt := Now(plan);
      var fails: bool, reason: Reason := *, *;
      r := if acquired && fails then Raised(Error(reason)) else Done(());
    }

    /** The exception handlers. */
    method Handle(plan: Plan, failure: Failure, p: Progress) returns (r: Result<()>, p': Progress)
      requires repository.Valid() && Fenced(steps, plan)
      modifies this`ticks, this`steps, repository`phases, repository`states
      ensures repository.Valid() && Keeps(old(repository.states), repository.states, plan.session) && Fenced(steps, plan)
      ensures NoCalls(old(steps), steps) && TriesCarry(old(steps), steps, p.managed) && p'.managed == p.managed
      ensures r.Done? ==> p'.outcome == if failure.LeadershipUnavailable? then Blocked else KilledSession
      ensures r.Done? ==> p'.finalPhase == FinalPhase(p'.outcome, Some(failure))
      ensures r.Done? && !failure.LeadershipUnavailable? ==> Tried(old(steps), steps, p.managed)
      ensures r.Done? && failure.Error? && Latching(old(repository.states), plan.session)
              ==> LatestActive(repository.states, plan.session)
      ensures r.Done? ==> (p'.killSwitch.Active? <==> p.killSwitch.Active? || failure.Error?)
    {
      match failure {
        case LeadershipUnavailable =>
          p' := p.(outcome := Blocked, finalPhase := Failed);
          r := EmitCritical();
        case PersistentKillSwitchActive =>
          r, p' := StayKilled(plan, p);
        case Error(reason) =>
          r, p' := Recover(plan, reason, p);
      }
    }

    /** The latest stored state, or an inactive one stored now. */
    method ReadSwitch(plan: Plan) returns (r: Result<State>)
      requires repository.Valid()
      modifies repository`states
      ensures repository.Valid() && Keeps(old(repository.states), repository.states, plan.session)
      ensures LatestActive(old(repository.states), plan.session) ==>
                repository.states == old(repository.states) && r.Done? && r.value.Active?
      ensures r.Raised? ==> repository.states == old(repository.states)
      ensures r.Done? ==> Latest(repository.states, plan.session) == Some(r.value)
      ensures r.Done? && r.value.Active? ==> LatestActive(old(repository.states), plan.session)
    {
      ghost var before := repository.states;
      var latest := Latest(repository.states, plan.session);
      if latest.Some? {
        return Done(latest.value);
      }
      var s := Inactive(plan.session);
      var ok := repository.SaveKillSwitch(s);
      if !ok {
        return Raised(Error(UnknownFailure));
      }
      FirstSaveKeeps(before, repository.hash, plan.session);
      r := Done(s);
    }

    /** The `try` with its handlers. */
    method Guarded(plan: Plan, started: int, p: Progress, ghost a: int, ghost horizon: nat)
      returns (r: Result<()>, acquired: bool, failure: Option<Failure>, p': Progress, ghost k: int)
      requires repository.Valid() && Chronological(plan) && PassesBy(clock, horizon, plan.flattenAt)
      requires Quiet([], steps) && Fenced(steps, plan) && LeaseLost !in steps
      requires 0 <= a < |steps| && steps[a] == SwitchRead(p.killSwitch.Active?) && p.managed == []
      modifies this, repository`phases, repository`states
      ensures repository.Valid() && Keeps(old(repository.states), repository.states, plan.session)
      ensures Settled(old(steps), steps, k, p'.managed, plan) && Fenced(steps, plan)
      ensures p.killSwitch.Active? ==> NoCalls(old(steps), steps)
      ensures r.Done? ==> Concluded(steps, k, p', failure, plan)
      ensures r.Done? && p.killSwitch.Active? ==> p'.outcome in {KilledSession, Blocked}
      ensures r.Done? && !p.killSwitch.Active? && p'.outcome == CompletedSession ==> p'.killSwitch.Inactive?
      ensures r.Done? && p'.outcome in {KilledSession, FlattenIncomplete} && !p.killSwitch.Active? ==>
                Latching(old(repository.states), plan.session) ==> LatestActive(repository.states, plan.session)
      ensures r.Done? && failure == None && p'.flattened == Some(true) ==>
                repository.Phases(plan.session) == old(repository.Phases(plan.session)) + Script(p'.outcome)
    {
      r, acquired, p', k := Attempt(plan, started, p, a, horizon);
      ghost var attempted := steps;
      failure := None;
      if r.Raised? {
        failure := Some(r.failure);
        r, p' := Handle(plan, failure.value, p');
        Settles(old(steps), attempted, steps, k, p'.managed, plan);
      }
    }

    /** One run. `k` is the step of the execution, or -1. */
    method Run(plan: Plan, startAt: Option<int>, ghost horizon: nat) returns (r: Result<Report>, ghost k: int)
      requires repository.Valid() && Chronological(plan) && PassesBy(clock, horizon, plan.flattenAt)
      modifies this, repository
      ensures repository.Valid() && Keeps(old(repository.states), repository.states, plan.session)
      ensures Safe(RunRecord(plan, old(repository.states), repository.states, steps, r), k)
      // a session that ends without a failure recorded exactly its phases, in order
      ensures r.Done? && r.value.failure == None && r.value.flattened == Some(true) ==>
                repository.Phases(plan.session) == old(repository.Phases(plan.session)) + Script(r.value.outcome)
    {
      steps, k := [], -1;
      ghost var before := repository.states;
      var started;
      if startAt.Some? {
        started := startAt.value;
      } else {
        started := Now(plan);
      }
      var read := Begin(plan);
      if read.Raised? {
        NotBegunIsSafe(plan, before, steps, read.failure);
        return Raised(read.failure), k;
      }
      r, k := RunSession(plan, started, read.value, before, horizon);
    }

    /** The plan saved and the kill switch read. */
    method Begin(plan: Plan) returns (r: Result<State>)
      requires repository.Valid()
      modifies repository`plans, repository`states
      ensures repository.Valid() && Keeps(old(repository.states), repository.states, plan.session)
      ensures r.Raised? || LatestActive(old(repository.states), plan.session) ==> repository.states == old(repository.states)
      ensures r.Done? ==> (r.value.Active? <==> LatestActive(old(repository.states), plan.session))
    {
      var ok := repository.SavePlan(plan);
      if !ok {
        return Raised(Error(UnknownFailure));
      }
      r := ReadSwitch(plan);
    }

    /** The run from the kill switch on. */
    method RunSession(plan: Plan, started: int, killSwitch: State, ghost before: seq<State>, ghost horizon: nat)
      returns (r: Result<Report>, ghost k: int)
      requires repository.Valid() && Chronological(plan) && PassesBy(clock, horizon, plan.flattenAt)
      requires Quiet([], steps) && Fenced(steps, plan) && LeaseLost !in steps
      requires LatestActive(before, plan.session) <==> killSwitch.Active?
      requires Keeps(before, repository.states, plan.session)
      requires LatestActive(before, plan.session) ==> before == repository.states
      modifies this, repository`phases, repository`states
      ensures repository.Valid() && Keeps(before, repository.states, plan.session)
      ensures Safe(RunRecord(plan, before, repository.states, steps, r), k)
      ensures r.Done? && r.value.failure == None && r.value.flattened == Some(true) ==>
                repository.Phases(plan.session) == old(repository.Phases(plan.session)) + Script(r.value.outcome)
    {
      hide Fenced, Settled, Concluded, Safe;
      Log(SwitchRead(killSwitch.Active?), plan);
      ghost var begun, states := steps, repository.states;
      var p := Progress(FailedSession, Created, killSwitch, None, []);
      var result, acquired, failure;
      result, acquired, failure, p, k := Guarded(plan, started, p, |steps| - 1, horizon);
      ghost var guarded := steps;
      var finished := Finish(acquired, plan);
      KeepsOn(before, states, repository.states, plan.session);
      if result.Raised? {
        r := Raised(if finished.Raised? then finished.failure else result.failure);
      } else if finished.Raised? {
        r := Raised(finished.failure);
      } else {
        r := Done(Report(p.outcome, p.finalPhase, p.killSwitch, p.flattened, failure));
      }
      SessionIsSafe(begun, guarded, RunRecord(plan, before, repository.states, steps, r), k, p, failure);
    }
  }

  lemma SessionIsSafe(begun: seq<Step>, guarded: seq<Step>, run: RunRecord, k: int, p: Progress, failure: Option<Failure>)
    requires Quiet([], begun) && Settled(begun, guarded, k, p.managed, run.plan) && Fenced(run.steps, run.plan)
    requires guarded <= run.steps && |run.steps| == |guarded| + 1 && run.steps[|guarded|].Read?
    requires LatestActive(run.before, run.plan.session) ==> NoCalls(begun, guarded)
    requires run.result.Done? ==>
               && run.result.value == Report(p.outcome, p.finalPhase, p.killSwitch, p.flattened, failure)
               && Concluded(guarded, k, p, failure, run.plan) && Latches(run, run.result.value)
    ensures Safe(run, k)
  {
    ReadingAfter(begun, guarded, run.steps, k, run.plan, p, failure);
  }

  lemma NotBegunIsSafe(plan: Plan, states: seq<State>, steps: seq<Step>, failure: Failure)
    requires Quiet([], steps) && Fenced(steps, plan)
    ensures Safe(RunRecord(plan, states, states, steps, Raised(failure)), -1)
  {
    QuietSettles([], steps, plan);
  }

  /** A flatten was tried, after any execution, unless leadership was never had; the outcome, the final phase and the
      flatten's result fit together; and what a completed session means. */
  ghost predicate Concluded(steps: seq<Step>, k: int, p: Progress, failure: Option<Failure>, plan: Plan) {
    && (failure != Some(LeadershipUnavailable) ==> TriedSince(steps, k))
    && (failure == Some(LeadershipUnavailable) ==> k < 0 && p.outcome == Blocked)
    && (failure == None ==> p.outcome in {CompletedSession, NoSetups, Blocked, FlattenIncomplete}
                            && Decided(steps, p.outcome) && p.flattened == Some(p.outcome != FlattenIncomplete)
                            && Cleared([], steps, plan) && Waited([], steps, plan))
    && (failure.Some? && failure != Some(LeadershipUnavailable) ==> p.outcome == KilledSession)
    && p.finalPhase == FinalPhase(p.outcome, failure)
    && (p.outcome == CompletedSession ==>
          k >= 0 && k <= |steps| && Ended(steps[..k], steps, true) && p.flattened == Some(true) && failure == None)
  }

  ghost predicate TriedSince(steps: seq<Step>, k: int) {
    exists j :: 0 <= j < |steps| && k < j && steps[j].FlattenTried?
  }

  lemma Concludes(proceeded: seq<Step>, after: seq<Step>, k: int, p: Progress, outcome: SessionOutcome, plan: Plan)
    requires k < |proceeded| && NoCalls(proceeded, after) && Tried(proceeded, after, p.managed)
    requires outcome in {CompletedSession, NoSetups, Blocked} && Decided(proceeded, outcome)
    requires outcome == CompletedSession ==> k >= 0
    requires p.flattened.Some? && Ended(proceeded, after, p.flattened.value)
    requires p.outcome == if p.flattened.value then outcome else FlattenIncomplete
    requires p.finalPhase == FinalPhase(p.outcome, None)
    requires Cleared([], proceeded, plan) && Unflattened([], proceeded) && Waited(proceeded, after, plan)
    ensures Concluded(after, k, p, None, plan)
  {
    var t :| |proceeded| <= t < |after| && after[t] == FlattenTried(p.managed);
    var e :| |proceeded| <= e < |after| && after[e] == Flattened(p.flattened.value);
    DecidedStays(proceeded, after, outcome);
    ClearedStays([], proceeded, after, plan);
    WaitedSince([], proceeded, after, plan);
  }

  lemma DecidedNow(steps: seq<Step>)
    requires steps != [] && steps[|steps| - 1].Evaluated?
    ensures
      match steps[|steps| - 1].status
      case Approved => Decided(steps, CompletedSession)
      case NoneApproved => Decided(steps, NoSetups)
      case _ => Decided(steps, Blocked)
  {
  }

  /** What was cleared since the lease was granted was cleared since the run began. */
  lemma Unbegun(begun: seq<Step>, held: seq<Step>, proceeded: seq<Step>, plan: Plan)
    requires Quiet([], begun) && Quiet(begun, held) && Cleared(held, proceeded, plan) && Unflattened(held, proceeded)
    ensures Cleared([], proceeded, plan) && Unflattened([], proceeded)
  {
    forall m | 0 <= m < |held| ensures !held[m].Reported? && !held[m].FlattenTried? {
      assert m < |begun| ==> held[m] == begun[m];
    }
    ClearedSince([], held, proceeded, plan);
    forall m | 0 <= m < |proceeded| ensures !proceeded[m].FlattenTried? {
      assert m < |held| ==> proceeded[m] == held[m];
    }
  }

  lemma DecidedStays(before: seq<Step>, after: seq<Step>, outcome: SessionOutcome)
    requires before <= after && Decided(before, outcome)
    ensures Decided(after, outcome)
  {
    forall s | s in before ensures s in after {
      var i :| 0 <= i < |before| && before[i] == s;
      assert after[i] == s;
    }
  }

  lemma ScriptPhases(phases: seq<Phase>, outcome: SessionOutcome)
    ensures phases + [LeadershipAcquired] + PREPARED + (if outcome == CompletedSession then TRADED else []) + CONCLUDED
            == phases + Script(outcome)
  {
  }

  lemma ReadingAfter(begun: seq<Step>, guarded: seq<Step>, after: seq<Step>, k: int, plan: Plan, p: Progress, failure: Option<Failure>)
    requires Quiet([], begun) && Settled(begun, guarded, k, p.managed, plan)
    requires guarded <= after && |after| == |guarded| + 1 && after[|guarded|].Read?
    ensures Settled([], after, k, p.managed, plan)
    ensures NoCalls(begun, guarded) ==> NoCalls([], after)
    ensures Concluded(guarded, k, p, failure, plan) ==> Concluded(after, k, p, failure, plan)
  {
    hide Settled, Concluded;
    SettledSince([], begun, guarded, k, p.managed, plan);
    Settles([], guarded, after, k, p.managed, plan);
    if Concluded(guarded, k, p, failure, plan) {
      ConcludedStays(guarded, after, k, p, failure, plan);
    }
  }

  lemma ConcludedStays(guarded: seq<Step>, after: seq<Step>, k: int, p: Progress, failure: Option<Failure>, plan: Plan)
    requires guarded <= after && |after| == |guarded| + 1 && after[|guarded|].Read?
    requires Concluded(guarded, k, p, failure, plan)
    ensures Concluded(after, k, p, failure, plan)
  {
    hide Cleared, Waited;
    DecidedStays(guarded, after, if failure == None then p.outcome else FailedSession);
    assert k >= 0 ==> after[..k] == guarded[..k];
    if failure == None {
      ClearedStays([], guarded, after, plan);
      WaitedStays([], guarded, after, plan);
    }
  }

  // ---------- whole runs ----------

  /** What one run leaves: the stored kill-switch states before and after it, its steps and its result. */
  datatype RunRecord = RunRecord(
    plan: Plan, before: seq<State>, after: seq<State>, steps: seq<Step>, result: Result<Report>)

  ghost predicate Safe(run: RunRecord, k: int) {
    && (exists managed :: Settled([], run.steps, k, managed, run.plan)) && Fenced(run.steps, run.plan)
    && (LatestActive(run.before, run.plan.session) ==> NoCalls([], run.steps))
    && (run.result.Done? ==> SafeReport(run, run.result.value, k))
  }

  ghost predicate SafeReport(run: RunRecord, report: Report, k: int) {
    && Concluded(run.steps, k, Progress(report.outcome, report.finalPhase, report.killSwitch, report.flattened, []), report.failure,
                 run.plan)
    && Latches(run, report)
  }

  /** The kill switch latches. */
  ghost predicate Latches(run: RunRecord, report: Report) {
    && (report.outcome == CompletedSession ==> report.killSwitch.Inactive?)
    && (LatestActive(run.before, run.plan.session) ==> report.outcome in {KilledSession, Blocked})
    && (report.outcome in {KilledSession, FlattenIncomplete} && Latching(run.before, run.plan.session) ==>
          LatestActive(run.after, run.plan.session))
  }

  /** At most one execution since `before`, behind the gate; and every flatten tried is handed the positions reported. */
  ghost predicate Settled(before: seq<Step>, after: seq<Step>, k: int, managed: Managed, plan: Plan) {
    && OnlyExecution(before, after, k) && (k >= 0 ==> Gated(after, k, plan))
    && HandedSince(before, after, managed) && TriesCarry(before, after, managed)
  }

  lemma QuietSettles(before: seq<Step>, after: seq<Step>, plan: Plan)
    requires Quiet(before, after)
    ensures Settled(before, after, -1, [], plan)
  {
  }

  /** After the execution only flattens with the reported positions follow. */
  lemma Settles(before: seq<Step>, proceeded: seq<Step>, after: seq<Step>, k: int, managed: Managed, plan: Plan)
    requires Settled(before, proceeded, k, managed, plan) || Traded(before, proceeded, k, managed, plan)
    requires NoCalls(proceeded, after) && TriesCarry(proceeded, after, managed)
    ensures Settled(before, after, k, managed, plan)
  {
    forall j | |before| <= j < |proceeded| ensures after[j] == proceeded[j] {
    }
    if k >= 0 {
      GatedStays(proceeded, after, k, plan);
    }
    HandedExtends(before, proceeded, after, managed);
  }

  lemma HandedExtends(before: seq<Step>, proceeded: seq<Step>, after: seq<Step>, managed: Managed)
    requires HandedSince(before, proceeded, managed) && NoCalls(proceeded, after)
    ensures HandedSince(before, after, managed)
  {
    if !(managed == [] && NoReports(before, proceeded)) {
      var k :| |before| <= k < |proceeded| && proceeded[k].Reported? && Collected(managed, proceeded[k].positions);
      assert after[k] == proceeded[k];
    } else {
      forall k | |before| <= k < |after| ensures !after[k].Reported? {
        assert k < |proceeded| ==> after[k] == proceeded[k];
      }
    }
  }

  lemma SettledSince(before: seq<Step>, begun: seq<Step>, after: seq<Step>, k: int, managed: Managed, plan: Plan)
    requires Quiet(before, begun) && Settled(begun, after, k, managed, plan)
    ensures Settled(before, after, k, managed, plan)
  {
    OnlyStays(before, begun, after, k);
    HandedStays(before, begun, after, managed);
    forall j | |before| <= j < |begun| ensures !after[j].FlattenTried? {
      assert after[j] == begun[j];
    }
  }

  lemma GatedStays(before: seq<Step>, after: seq<Step>, k: int, plan: Plan)
    requires before <= after && Gated(before, k, plan)
    ensures Gated(after, k, plan)
  {
    assert after[..k] == before[..k];
  }

  /** No flatten was tried. */
  ghost predicate Unflattened(before: seq<Step>, after: seq<Step>) {
    before <= after && forall k :: |before| <= k < |after| ==> !after[k].FlattenTried?
  }

  lemma HandedStays(before: seq<Step>, middle: seq<Step>, after: seq<Step>, managed: Managed)
    requires NoReports(before, middle) && HandedSince(middle, after, managed)
    ensures HandedSince(before, after, managed)
  {
    if managed == [] && NoReports(middle, after) {
      forall k | |before| <= k < |after| ensures !after[k].Reported? {
        assert k < |middle| ==> after[k] == middle[k];
      }
    }
  }

  lemma OnlyStays(before: seq<Step>, middle: seq<Step>, after: seq<Step>, k: int)
    requires Idle(before, middle) && OnlyExecution(middle, after, k)
    ensures OnlyExecution(before, after, k)
  {
    forall j | |before| <= j < |middle| ensures !IsExecution(after[j]) {
      assert after[j] == middle[j];
    }
  }

  lemma ExecutedIsOnly(before: seq<Step>, ready: seq<Step>, after: seq<Step>, k: int)
    requires Quiet(before, ready)
    requires ExecutedOrQuiet(ready, after, k)
    ensures OnlyExecution(before, after, k) && Unflattened(before, after)
  {
    forall j | |before| <= j < |after| ensures (j != k ==> !IsExecution(after[j])) && !after[j].FlattenTried? {
      if j < |ready| {
        assert after[j] == ready[j];
      } else if j < k {
        assert after[j] == after[..k][j];
      }
    }
  }

  /** Nothing was called or reported. */
  ghost predicate NoCalls(before: seq<Step>, after: seq<Step>) {
    before <= after && forall k :: |before| <= k < |after| ==> !after[k].Called? && !after[k].Reported?
  }

  ghost predicate Tried(before: seq<Step>, after: seq<Step>, managed: Managed) {
    exists k :: |before| <= k < |after| && after[k] == FlattenTried(managed)
  }

  ghost predicate Ended(before: seq<Step>, after: seq<Step>, complete: bool) {
    exists k :: |before| <= k < |after| && after[k] == Flattened(complete)
  }

  /** At most one execution since `before`, at step `k`. */
  ghost predicate OnlyExecution(before: seq<Step>, after: seq<Step>, k: int) {
    && before <= after && (k >= 0 ==> |before| <= k < |after| && IsExecution(after[k]))
    && forall j :: |before| <= j < |after| && IsExecution(after[j]) ==> j == k
  }

  /** At most one execution since `before`, behind the gate, no flatten, and the positions reported. */
  ghost predicate Traded(before: seq<Step>, after: seq<Step>, k: int, managed: Managed, plan: Plan) {
    && OnlyExecution(before, after, k) && (k >= 0 ==> Gated(after, k, plan))
    && Unflattened(before, after) && HandedSince(before, after, managed)
  }

  lemma Follows(a: seq<Phase>, b: seq<Phase>, c: seq<Phase>)
    ensures a + b + c == a + (b + c)
  {
  }

  lemma ConcludedPhases(phases: seq<Phase>)
    ensures phases + [Flattening] + [Reconciliation, Completed] == phases + CONCLUDED
  {
  }

  lemma FlattenStays(before: seq<Step>, flattened: seq<Step>, after: seq<Step>, managed: Managed, complete: bool)
    requires NoCalls(before, flattened) && TriesCarry(before, flattened, managed)
    requires Tried(before, flattened, managed) && Ended(before, flattened, complete)
    requires NoCalls(flattened, after) && Unflattened(flattened, after)
    ensures NoCalls(before, after) && TriesCarry(before, after, managed)
    ensures Tried(before, after, managed) && Ended(before, after, complete)
  {
    var t :| |before| <= t < |flattened| && flattened[t] == FlattenTried(managed);
    var e :| |before| <= e < |flattened| && flattened[e] == Flattened(complete);
    assert after[t] == flattened[t] && after[e] == flattened[e];
    forall j | |before| <= j < |after|
      ensures !after[j].Called? && !after[j].Reported? && (after[j].FlattenTried? ==> after[j].managed == managed)
    {
      assert j < |flattened| ==> after[j] == flattened[j];
    }
  }

  lemma TradedPhases(phases: seq<Phase>)
    ensures phases + [EligibilityLock] + [Execution, Monitoring] == phases + TRADED
  {
  }

  lemma NothingTraded(before: seq<Step>, after: seq<Step>, plan: Plan)
    requires Idle(before, after)
    ensures Traded(before, after, -1, [], plan) && Cleared(before, after, plan)
  {
  }

  lemma TradedSince(before: seq<Step>, middle: seq<Step>, after: seq<Step>, k: int, managed: Managed, plan: Plan)
    requires Idle(before, middle) && Traded(middle, after, k, managed, plan)
    ensures Traded(before, after, k, managed, plan) && middle <= after
  {
    OnlyStays(before, middle, after, k);
    HandedStays(before, middle, after, managed);
    forall j | |before| <= j < |after| ensures !after[j].FlattenTried? {
      assert j < |middle| ==> after[j] == middle[j];
    }
  }

  /** What the gate and the execution leave in the steps. */
  lemma TradeSettles(verdict: seq<Step>, ready: seq<Step>, after: seq<Step>, a: int, c: int, k: int, managed: Managed, plan: Plan)
    requires |verdict| > 1 && verdict[|verdict| - 1] == Evaluated(Approved) && Quiet(verdict, ready)
    requires ReadBy(verdict[|verdict| - 2], plan.evaluatorCutoff)
    requires 0 <= a < |verdict| - 1 && verdict[a] == SwitchRead(false)
    requires 0 <= c < |verdict| - 1 && Healthy(verdict[c], plan)
    requires CheckedSince(verdict, ready, plan)
    requires WindowSince(verdict, ready, plan)
    requires ExecutedOrQuiet(ready, after, k)
    requires HandedSince(ready, after, managed)
    ensures Traded(verdict, after, k, managed, plan)
  {
    ExecutedIsOnly(verdict, ready, after, k);
    HandedStays(verdict, ready, after, managed);
    if k >= 0 {
      GatesOpen(verdict[..|verdict| - 1], verdict, ready, after, a, c, k, plan);
    }
  }

  lemma GatesOpen(prepared: seq<Step>, verdict: seq<Step>, ready: seq<Step>, after: seq<Step>, a: int, c: int, k: int, plan: Plan)
    requires 0 <= a < |prepared| && prepared[a] == SwitchRead(false)
    requires 0 <= c < |prepared| && Healthy(prepared[c], plan)
    requires verdict == prepared + [Evaluated(Approved)] && verdict <= ready
    requires ReadBy(prepared[|prepared| - 1], plan.evaluatorCutoff)
    requires CheckedSince(verdict, ready, plan)
    requires WindowSince(verdict, ready, plan)
    requires ExecutedAt(ready, after, k)
    ensures Gated(after, k, plan)
  {
    var gate := after[..k];
    assert ready <= gate;
    assert SwitchRead(false) in gate by { assert gate[a] == SwitchRead(false); }
    assert gate[|prepared|] == verdict[|prepared|] && gate[|prepared| - 1] == prepared[|prepared| - 1];
    assert ApprovedInTime(gate, plan);
    SecondCheck(prepared, verdict, ready, gate, c, plan);
    var r :| |ready| <= r < k && after[r] == Read(after[k].at);
    assert gate[r] == Read(after[k].at);
    ReadingInTime(verdict, ready, gate, r, plan);
  }

  lemma CheckLogged(begun: seq<Step>, looked: seq<Step>, after: seq<Step>, plan: Plan)
    requires Quiet(begun, looked) && |after| == |looked| + 1 && looked <= after && after[|looked|].Checked?
    ensures Quiet(begun, after) && (Healthy(after[|looked|], plan) ==> CheckedSince(begun, after, plan))
  {
    assert forall k :: 0 <= k < |looked| ==> after[k] == looked[k];
  }

  lemma CheckedOn(begun: seq<Step>, locked: seq<Step>, checked: seq<Step>, after: seq<Step>, plan: Plan)
    requires |begun| <= |locked| && CheckedSince(locked, checked, plan) && checked <= after
    ensures CheckedSince(begun, after, plan)
  {
    var k :| |locked| <= k < |checked| && Healthy(checked[k], plan);
    assert after[k] == checked[k];
  }

  lemma WindowOpens(begun: seq<Step>, checked: seq<Step>, waited: seq<Step>, after: seq<Step>, plan: Plan)
    requires |begun| <= |checked| && waited <= after && |waited| < |after| && ReadBy(after[|after| - 1], plan.entryCutoff)
    requires exists o :: |checked| <= o < |waited| && ReadFrom(waited[o], plan.openAt)
    ensures WindowSince(begun, after, plan)
  {
    var o :| |checked| <= o < |waited| && ReadFrom(waited[o], plan.openAt);
    assert after[o] == waited[o] && InWindow(after[o], after[|after| - 1], plan);
  }

  lemma FlattenCalled(begun: seq<Step>, looked: seq<Step>, after: seq<Step>, managed: Managed, answer: seq<Step>)
    requires Quiet(begun, looked) && after == looked + [FlattenTried(managed)] + answer
    requires forall s :: s in answer ==> s.Flattened?
    ensures NoCalls(begun, after) && TriesCarry(begun, after, managed) && Tried(begun, after, managed)
  {
    assert after[|looked|] == FlattenTried(managed);
    assert forall k :: 0 <= k < |looked| ==> after[k] == looked[k];
    assert forall k :: |looked| < k < |after| ==> after[k] in answer;
  }

  lemma SecondCheck(prepared: seq<Step>, verdict: seq<Step>, ready: seq<Step>, gate: seq<Step>, c: int, plan: Plan)
    requires 0 <= c < |prepared| <= |verdict| && Healthy(prepared[c], plan) && prepared <= gate && ready <= gate
    requires CheckedSince(verdict, ready, plan)
    ensures CheckedTwice(gate, plan)
  {
    var d :| |verdict| <= d < |ready| && Healthy(ready[d], plan);
    assert Healthy(gate[c], plan) && Healthy(gate[d], plan);
  }

  lemma ReadingInTime(verdict: seq<Step>, ready: seq<Step>, gate: seq<Step>, r: int, plan: Plan)
    requires ready <= gate && |ready| <= r < |gate| && gate[r].Read?
    requires WindowSince(verdict, ready, plan)
    ensures OnTime(gate, gate[r].now, plan)
  {
    var o, w :| |verdict| <= o < w < |ready| && InWindow(ready[o], ready[w], plan);
    assert InWindow(gate[o], gate[w], plan);
  }

  lemma ExecutionCalled(before: seq<Step>, executed: seq<Step>, k: int)
    requires if k >= 0 then CalledAt(before, executed, k, SizeAndExecute) else Quiet(before, executed)
    ensures ExecutedOrQuiet(before, executed, k) && HandedSince(before, executed, [])
  {
    if k >= 0 {
      assert forall m :: 0 <= m < k ==> executed[m] == executed[..k][m];
    }
  }

  lemma ReportedStays(before: seq<Step>, executed: seq<Step>, after: seq<Step>, k: int, details: Details, managed: Managed)
    requires ExecutedAt(before, executed, k) && Idle(executed + [ReportOf(details)], after)
    requires Collected(managed, details.managed)
    ensures ExecutedAt(before, after, k) && HandedSince(before, after, managed)
  {
    assert after[|executed|] == (executed + [ReportOf(details)])[|executed|];
    assert after[..|executed|] == executed;
    ExecutedStays(before, executed, after, k);
  }

  function ReportOf(details: Details): Step {
    Reported(details.managed, details.killSwitchRequired)
  }

  lemma ReportClears(before: seq<Step>, executed: seq<Step>, after: seq<Step>, k: int, details: Details, managed: Managed, plan: Plan)
    requires CalledAt(before, executed, k, SizeAndExecute) && Idle(executed + [ReportOf(details)], after)
    requires Collected(managed, details.managed) && |managed| == |details.managed| && !details.killSwitchRequired
    requires |executed| + 1 < |after| && ReadBy(after[|executed| + 1], plan.entryCutoff)
    ensures Cleared(before, after, plan)
  {
    assert after[|executed|] == (executed + [ReportOf(details)])[|executed|];
    assert forall m :: 0 <= m < k ==> after[m] == executed[..k][m];
    assert forall m :: 0 <= m < |executed| ==> after[m] == executed[m];
  }

  lemma ClearedSince(before: seq<Step>, middle: seq<Step>, after: seq<Step>, plan: Plan)
    requires NoReports(before, middle) && Cleared(middle, after, plan)
    ensures Cleared(before, after, plan)
  {
    assert forall m :: 0 <= m < |middle| ==> after[m] == middle[m];
    assert forall m :: |before| <= m < |after| && after[m].Reported? ==> Clears(after, m, plan);
  }

  lemma ClearedStays(before: seq<Step>, middle: seq<Step>, after: seq<Step>, plan: Plan)
    requires Cleared(before, middle, plan) && NoCalls(middle, after)
    ensures Cleared(before, after, plan)
  {
    forall m | |before| <= m < |after| && after[m].Reported? ensures Clears(after, m, plan) {
      assert m < |middle| && after[m] == middle[m];
      assert Clears(middle, m, plan);
      assert after[m + 1] == middle[m + 1];
    }
  }

  lemma WaitingWaited(before: seq<Step>, waited: seq<Step>, after: seq<Step>, plan: Plan)
    requires Quiet(before, waited) && waited <= after
    requires exists w :: |before| <= w < |waited| && ReadFrom(waited[w], plan.flattenAt)
    ensures Waited(before, after, plan)
  {
    var w :| |before| <= w < |waited| && ReadFrom(waited[w], plan.flattenAt);
    assert forall j :: 0 <= j < |waited| ==> after[j] == waited[j];
    assert forall j :: w < j < |after| ==> WaitedAt(before, after, j, plan);
  }

  lemma WaitedSince(before: seq<Step>, middle: seq<Step>, after: seq<Step>, plan: Plan)
    requires Unflattened(before, middle) && Waited(middle, after, plan)
    ensures Waited(before, after, plan)
  {
    assert forall j :: 0 <= j < |middle| ==> after[j] == middle[j];
    forall j | |before| <= j < |after| && after[j].FlattenTried? ensures WaitedAt(before, after, j, plan) {
      assert WaitedAt(middle, after, j, plan);
    }
  }

  lemma WaitedStays(before: seq<Step>, middle: seq<Step>, after: seq<Step>, plan: Plan)
    requires Waited(before, middle, plan) && Unflattened(middle, after)
    ensures Waited(before, after, plan)
  {
    forall j | |before| <= j < |after| && after[j].FlattenTried? ensures WaitedAt(before, after, j, plan) {
      assert j < |middle| && after[j] == middle[j];
      assert WaitedAt(before, middle, j, plan);
      var w :| |before| <= w < j && ReadFrom(middle[w], plan.flattenAt);
      assert after[w] == middle[w];
    }
  }

  lemma ExecutedStays(before: seq<Step>, executed: seq<Step>, after: seq<Step>, k: int)
    requires ExecutedAt(before, executed, k) && Unexecuted(executed, after)
    ensures ExecutedAt(before, after, k)
  {
    assert after[..k] == executed[..k] && after[..k + 1] == executed[..k + 1];
  }

  lemma CalledStays(before: seq<Step>, called: seq<Step>, after: seq<Step>, k: int, hook: Hook)
    requires CalledAt(before, called, k, hook) && Quiet(called, after)
    ensures CalledAt(before, after, k, hook)
  {
    assert after[..k] == called[..k] && after[..k + 1] == called[..k + 1];
    var r :| |before| <= r < k && called[r] == Read(called[k].at);
    assert after[r] == called[r];
  }

  lemma CalledIsIdle(before: seq<Step>, after: seq<Step>, k: int, hook: Hook)
    requires CalledAt(before, after, k, hook) && hook != SizeAndExecute
    ensures Idle(before, after)
  {
    forall j | |before| <= j < |after| ensures !IsExecution(after[j]) && !after[j].Reported? && !after[j].FlattenTried? {
      if j < k {
        assert after[j] == after[..k][j];
      }
    }
  }

  /** With a clock that never goes back, an execution is preceded by a reading between the open and the entry cutoff,
      and the hook is not given an earlier time than that. */
  lemma SteadyClockExecutesInWindow(steps: seq<Step>, k: int, plan: Plan)
    requires Gated(steps, k, plan)
    requires forall i, j :: 0 <= i < j < |steps| && steps[i].Read? && steps[j].Read? ==> steps[i].now <= steps[j].now
    ensures exists c :: 0 <= c < k && steps[c].Read? && plan.openAt <= steps[c].now <= plan.entryCutoff
                        && steps[c].now <= steps[k].at
  {
    var gate := steps[..k];
    var o, c, r :| 0 <= o < c < r < |gate| && InWindow(gate[o], gate[c], plan) && gate[r] == Read(steps[k].at);
    assert steps[o] == gate[o] && steps[c] == gate[c] && steps[r] == gate[r];
    SteadyWindow(steps, o, c, r, plan);
  }

  lemma SteadyWindow(steps: seq<Step>, o: int, c: int, r: int, plan: Plan)
    requires 0 <= o < c < r < |steps| && InWindow(steps[o], steps[c], plan) && steps[r].Read?
    requires forall i, j :: 0 <= i < j < |steps| && steps[i].Read? && steps[j].Read? ==> steps[i].now <= steps[j].now
    ensures plan.openAt <= steps[c].now <= plan.entryCutoff && steps[c].now <= steps[r].now
  {
  }

  // ---------- the kill switch over histories ----------

  /** What `Run` ensures. */
  ghost predicate Ran(run: RunRecord) {
    Keeps(run.before, run.after, run.plan.session) && exists k :: Safe(run, k)
  }

  /** The emergency command stores an active manual state on its own, before it flattens: in an in-memory repository of
      its own or the relational one (daybreak/cli.py). Sharing the repository with runs is up to the caller. */
  method EmergencyKill(repository: MemoryOrchestrationRepository, plan: Plan, now: int) returns (ok: bool)
    requires repository.Valid()
    modifies repository
    ensures repository.Valid()
    ensures if ok then Activates(old(repository.states), repository.states, plan.session)
            else repository.states == old(repository.states)
  {
    ok := repository.SavePlan(plan);
    if !ok {
      return;
    }
    var s := Active(plan.session, now, Manual, "paper-emergency-flatten CLI");
    ghost var before := repository.states;
    ok := repository.SaveKillSwitch(s);
    if ok {
      ActiveSaveActivates(before, repository.hash, s);
    }
  }

  /** What writes kill-switch states: a run, or the emergency command. */
  datatype Episode = ByRun(run: RunRecord) | ByCommand(session: SessionId, from: seq<State>, to: seq<State>)

  function Before(e: Episode): seq<State> {
    if e.ByRun? then e.run.before else e.from
  }

  function After(e: Episode): seq<State> {
    if e.ByRun? then e.run.after else e.to
  }

  ghost predicate Happened(e: Episode) {
    match e
    case ByRun(run) => Ran(run)
    case ByCommand(session, from, to) => Activates(from, to, session)
  }

  /** Consecutive episodes, of any sessions, over one repository. */
  ghost predicate Consecutive(episodes: seq<Episode>) {
    && (forall i :: 0 <= i < |episodes| ==> Happened(episodes[i]))
    && (forall i :: 0 < i < |episodes| ==> Before(episodes[i]) == After(episodes[i - 1]))
  }

  /** The episode killed the session: the command was given for it, or a run of it ended killed or with an incomplete
      flatten. */
  predicate Kills(e: Episode, session: SessionId) {
    match e
    case ByRun(run) =>
      run.plan.session == session && run.result.Done? && run.result.value.outcome in {KilledSession, FlattenIncomplete}
    case ByCommand(killed, _, _) => killed == session
  }

  /** An episode while the session's latest state is active: a run of the session calls no hook and, if it returns,
      ends killed or blocked. */
  ghost predicate StaysDown(e: Episode, session: SessionId) {
    && LatestActive(Before(e), session) && LatestActive(After(e), session)
    && (e.ByRun? && e.run.plan.session == session ==>
          && NoCalls([], e.run.steps)
          && (e.run.result.Done? ==> e.run.result.value.outcome in {KilledSession, Blocked}))
  }

  lemma EpisodeKeeps(e: Episode, session: SessionId)
    requires Happened(e)
    ensures LatestActive(Before(e), session) ==> StaysDown(e, session)
    ensures Latching(Before(e), session) ==> Latching(After(e), session)
    ensures Latching(Before(e), session) && Kills(e, session) ==> LatestActive(After(e), session)
  {
  }

  lemma {:induction false} EpisodesKeepLatching(episodes: seq<Episode>, n: nat, session: SessionId)
    requires Consecutive(episodes) && n < |episodes| && Latching(Before(episodes[0]), session)
    ensures Latching(Before(episodes[n]), session)
  {
    if n > 0 {
      EpisodesKeepLatching(episodes, n - 1, session);
      EpisodeKeeps(episodes[n - 1], session);
    }
  }

  /** From any repository: once a session's latest state is active, it stays active over every later run and command
      of any session, and every later run of the session calls no hook and, if it returns, ends killed or blocked. */
  lemma {:induction false} KillSwitchLatches(episodes: seq<Episode>, i: nat, j: nat, session: SessionId)
    requires Consecutive(episodes) && i <= j < |episodes|
    requires LatestActive(Before(episodes[i]), session)
    ensures StaysDown(episodes[j], session)
    decreases j
  {
    if i < j {
      KillSwitchLatches(episodes, i, j - 1, session);
    }
    EpisodeKeeps(episodes[j], session);
  }

  /** From a repository in which the session has no inactive state after an active one, such as one without states of
      the session: killing the session, by the command or by a run that ends killed or with an incomplete flatten,
      keeps it down for good. */
  lemma KilledStaysKilled(episodes: seq<Episode>, i: nat, j: nat, session: SessionId)
    requires Consecutive(episodes) && i < j < |episodes|
    requires Latching(Before(episodes[0]), session) && Kills(episodes[i], session)
    ensures StaysDown(episodes[j], session)
  {
    EpisodesKeepLatching(episodes, i, session);
    EpisodeKeeps(episodes[i], session);
    KillSwitchLatches(episodes, i + 1, j, session);
  }
}
