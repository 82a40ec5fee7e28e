/** Fenced session leases (daybreak_orchestration/leadership.py): the in-memory repository, the
    PostgreSQL row updates, and the proof that the two agree. Times are integers. */
module Leases {

  /** `Raised` is a check of the lease table that fails (migrations/versions/0006_phase6_orchestration.py). */
  datatype Reply = Denied | Granted(lease: Lease) | Raised

  /** The policy only admits positive lease lifetimes. */
  type Ttl = t: int | t > 0 witness 1

  /** A holder's name is not empty. */
  type Holder = h: string | h != "" witness "h"

  datatype Lease = Lease(
    session: string,
    holder: Holder,
    acquiredAt: int,
    renewedAt: int,
    expiresAt: int,
    token: int)

  datatype EventKind = Acquired | Renewed | Released

  datatype Event = Event(kind: EventKind, session: string, holder: Holder, at: int, token: int, expiresAt: int)

  function EventOf(kind: EventKind, lease: Lease, now: int): Event {
    Event(kind, lease.session, lease.holder, now, lease.token, lease.expiresAt)
  }

  // ---------- in-memory repository ----------

  datatype MemState = MemState(leases: map<string, Lease>, token: int, events: seq<Event>)

  function MemAcquire(s: MemState, session: string, holder: Holder, now: int, ttl: Ttl): (MemState, Reply) {
    if session in s.leases && s.leases[session].expiresAt > now then (s, Denied)
    else
      var lease := Lease(session, holder, now, now, now + ttl, s.token + 1);
      (MemState(s.leases[session := lease], s.token + 1, s.events + [EventOf(Acquired, lease, now)]), Granted(lease))
  }

  predicate MemHolds(s: MemState, lease: Lease) {
    && lease.session in s.leases
    && s.leases[lease.session].holder == lease.holder
    && s.leases[lease.session].token == lease.token
  }

  function MemRenew(s: MemState, lease: Lease, now: int, ttl: Ttl): (MemState, Reply) {
    if !MemHolds(s, lease) || s.leases[lease.session].expiresAt <= now then (s, Denied)
    else
      var renewed := s.leases[lease.session].(renewedAt := now, expiresAt := now + ttl);
      (s.(leases := s.leases[lease.session := renewed], events := s.events + [EventOf(Renewed, renewed, now)]),
       Granted(renewed))
  }

  function MemRelease(s: MemState, lease: Lease, now: int): MemState {
    if !MemHolds(s, lease) then s
    else
      s.(leases := s.leases - {lease.session},
         events := s.events + [EventOf(Released, s.leases[lease.session], now)])
  }

  class MemoryLeadershipRepository {
    var leases: map<string, Lease>
    var token: int
    var events: seq<Event>

    function State(): MemState
      reads this
    {
      MemState(leases, token, events)
    }

    constructor ()
      ensures State() == MemState(map[], 0, [])
    {
      leases, token, events := map[], 0, [];
    }

    method AppendLeaseEvent(lease: Lease, kind: EventKind, now: int)
      modifies this`events
      ensures events == old(events) + [EventOf(kind, lease, now)]
    {
      events := events + [Event(kind, lease.session, lease.holder, now, lease.token, lease.expiresAt)];
    }

    method Acquire(session: string, holder: Holder, now: int, ttl: Ttl) returns (r: Reply)
      modifies this
      ensures (State(), r) == MemAcquire(old(State()), session, holder, now, ttl)
    {
      if session in leases && leases[session].expiresAt > now {
        return Denied;
      }
      token := token + 1;
      var lease := Lease(session, holder, now, now, now + ttl, token);
      leases := leases[session := lease];
      AppendLeaseEvent(lease, Acquired, now);
      return Granted(lease);
    }

    method Renew(lease: Lease, now: int, ttl: Ttl) returns (r: Reply)
      modifies this
      ensures (State(), r) == MemRenew(old(State()), lease, now, ttl)
    {
      if lease.session !in leases {
        return Denied;
      }
      var current := leases[lease.session];
      if current.holder != lease.holder || current.token != lease.token {
        return Denied;
      }
      if current.expiresAt <= now {
        return Denied;
      }
      var renewed := current.(renewedAt := now, expiresAt := now + ttl);
      leases := leases[lease.session := renewed];
      AppendLeaseEvent(renewed, Renewed, now);
      return Granted(renewed);
    }

    method Release(lease: Lease, now: int)
      modifies this
      ensures State() == MemRelease(old(State()), lease, now)
    {
      if lease.session !in leases {
        return;
      }
      var current := leases[lease.session];
      if current.holder == lease.holder && current.token == lease.token {
        leases := leases - {lease.session};
        AppendLeaseEvent(current, Released, now);
      }
    }
  }

  // ---------- PostgreSQL rows ----------

  /** One row per session; `active` is the soft-release flag. */
  datatype Row = Row(lease: Lease, active: bool)

  /** The rows and the events emitted so far. */
  datatype PgState = PgState(rows: map<string, Row>, events: seq<Event>)

  /** What the event table holds of the events emitted: each once, at its first place. */
  function Stored(emitted: seq<Event>): seq<Event> {
    if emitted == [] then []
    else
      var n := |emitted| - 1;
      if emitted[n] in emitted[..n] then Stored(emitted[..n]) else Stored(emitted[..n]) + [emitted[n]]
  }

  lemma StoredNext(emitted: seq<Event>, e: Event)
    ensures Stored(emitted + [e]) == if e in emitted then Stored(emitted) else Stored(emitted) + [e]
  {
    assert (emitted + [e])[..|emitted|] == emitted;
  }

  lemma {:induction false} StoredElements(emitted: seq<Event>)
    ensures forall e :: e in Stored(emitted) <==> e in emitted
  {
    if emitted != [] {
      var n := |emitted| - 1;
      StoredElements(emitted[..n]);
      assert emitted == emitted[..n] + [emitted[n]];
    }
  }

  function PgAcquire(s: PgState, session: string, holder: Holder, now: int, ttl: Ttl): (PgState, Reply) {
    if session !in s.rows then
      var lease := Lease(session, holder, now, now, now + ttl, 1);
      (PgState(s.rows[session := Row(lease, true)], s.events + [EventOf(Acquired, lease, now)]), Granted(lease))
    else if !s.rows[session].active || s.rows[session].lease.expiresAt <= now then
      var lease := Lease(session, holder, now, now, now + ttl, s.rows[session].lease.token + 1);
      (PgState(s.rows[session := Row(lease, true)], s.events + [EventOf(Acquired, lease, now)]), Granted(lease))
    else (s, Denied)
  }

  predicate PgMatches(s: PgState, lease: Lease) {
    && lease.session in s.rows
    && s.rows[lease.session].lease.holder == lease.holder
    && s.rows[lease.session].lease.token == lease.token
    && s.rows[lease.session].active
  }

  /** The table refuses a renewal before the acquisition. */
  function PgRenew(s: PgState, lease: Lease, now: int, ttl: Ttl): (PgState, Reply) {
    if PgMatches(s, lease) && s.rows[lease.session].lease.expiresAt > now then
      var renewed := s.rows[lease.session].lease.(renewedAt := now, expiresAt := now + ttl);
      if now < renewed.acquiredAt then (s, Raised)
      else (PgState(s.rows[lease.session := Row(renewed, true)], s.events + [EventOf(Renewed, renewed, now)]), Granted(renewed))
    else (s, Denied)
  }

  /** The event carries the caller's lease, not the row. A release that returns replies nothing, like a denial; the
      table refuses one before the acquisition. */
  function PgRelease(s: PgState, lease: Lease, now: int): (PgState, Reply) {
    if PgMatches(s, lease) then
      var ended := s.rows[lease.session].lease.(renewedAt := now, expiresAt := now);
      if now < ended.acquiredAt then (s, Raised)
      else (PgState(s.rows[lease.session := Row(ended, false)], s.events + [EventOf(Released, lease, now)]), Denied)
    else (s, Denied)
  }

  class PostgresLeadershipRepository {
    var rows: map<string, Row>
    var events: seq<Event>
    ghost var emitted: seq<Event>

    ghost function State(): PgState
      reads this
    {
      PgState(rows, emitted)
    }

    ghost predicate Valid()
      reads this
    {
      events == Stored(emitted)
    }

    constructor ()
      ensures Valid() && State() == PgState(map[], [])
    {
      rows, events, emitted := map[], [], [];
    }

    /** INSERT ... ON CONFLICT (event_hash) DO NOTHING */
    method SaveEvent(e: Event)
      requires Valid()
      modifies this`events, this`emitted
      ensures Valid() && emitted == old(emitted) + [e]
    {
      StoredNext(emitted, e);
      StoredElements(emitted);
      if e !in events {
        events := events + [e];
      }
      emitted := emitted + [e];
    }

    /** INSERT ... ON CONFLICT DO UPDATE ... WHERE NOT active OR expires_at <= now RETURNING ... */
    method Acquire(session: string, holder: Holder, now: int, ttl: Ttl) returns (r: Reply)
      requires Valid()
      modifies this
      ensures Valid() && (State(), r) == PgAcquire(old(State()), session, holder, now, ttl)
    {
      var token := 1;
      if session in rows {
        if rows[session].active && rows[session].lease.expiresAt > now {
          return Denied;
        }
        token := rows[session].lease.token + 1;
      }
      var lease := Lease(session, holder, now, now, now + ttl, token);
      rows := rows[session := Row(lease, true)];
      SaveEvent(EventOf(Acquired, lease, now));
      return Granted(lease);
    }

    /** UPDATE ... WHERE session, holder, token match AND active AND expires_at > now RETURNING ... */
    method Renew(lease: Lease, now: int, ttl: Ttl) returns (r: Reply)
      requires Valid()
      modifies this
      ensures Valid() && (State(), r) == PgRenew(old(State()), lease, now, ttl)
    {
      if lease.session !in rows {
        return Denied;
      }
      var row := rows[lease.session];
      if row.lease.holder != lease.holder || row.lease.token != lease.token || !row.active || row.lease.expiresAt <= now {
        return Denied;
      }
      var renewed := row.lease.(renewedAt := now, expiresAt := now + ttl);
      if renewed.renewedAt < renewed.acquiredAt {
        return Raised;
      }
      rows := rows[lease.session := Row(renewed, true)];
      SaveEvent(EventOf(Renewed, renewed, now));
      return Granted(renewed);
    }

    /** UPDATE ... SET active=FALSE WHERE session, holder, token match AND active RETURNING ... */
    method Release(lease: Lease, now: int) returns (r: Reply)
      requires Valid()
      modifies this
      ensures Valid() && (State(), r) == PgRelease(old(State()), lease, now)
    {
      if lease.session in rows {
        var row := rows[lease.session];
        if row.lease.holder == lease.holder && row.lease.token == lease.token && row.active {
          var ended := row.lease.(renewedAt := now, expiresAt := now);
          if ended.renewedAt < ended.acquiredAt {
            return Raised;
          }
          rows := rows[lease.session := Row(ended, false)];
          SaveEvent(EventOf(Released, lease, now));
        }
      }
      return Denied;
    }
  }

  // ---------- runs of operations ----------

  /** A client names the lease it holds by the operation that granted it. */
  datatype Op =
    | DoAcquire(session: string, holder: Holder, now: int, ttl: Ttl)
    | DoRenew(handle: nat, now: int, ttl: Ttl)
    | DoRelease(handle: nat, now: int)

  datatype MemRun = MemRun(state: MemState, replies: seq<Reply>)
  datatype PgRun = PgRun(state: PgState, replies: seq<Reply>)

  predicate HasLease(replies: seq<Reply>, handle: nat) {
    handle < |replies| && replies[handle].Granted?
  }

  /** A renew or release without a lease in hand is not a call; its reply is a denial. */
  function MemStep(r: MemRun, op: Op): MemRun {
    match op
    case DoAcquire(session, holder, now, ttl) =>
      var (state, reply) := MemAcquire(r.state, session, holder, now, ttl);
      MemRun(state, r.replies + [reply])
    case DoRenew(handle, now, ttl) =>
      if !HasLease(r.replies, handle) then r.(replies := r.replies + [Denied])
      else
        var (state, reply) := MemRenew(r.state, r.replies[handle].lease, now, ttl);
        MemRun(state, r.replies + [reply])
    case DoRelease(handle, now) =>
      if !HasLease(r.replies, handle) then r.(replies := r.replies + [Denied])
      else MemRun(MemRelease(r.state, r.replies[handle].lease, now), r.replies + [Denied])
  }

  function PgStep(r: PgRun, op: Op): PgRun {
    match op
    case DoAcquire(session, holder, now, ttl) =>
      var (state, reply) := PgAcquire(r.state, session, holder, now, ttl);
      PgRun(state, r.replies + [reply])
    case DoRenew(handle, now, ttl) =>
      if !HasLease(r.replies, handle) then r.(replies := r.replies + [Denied])
      else
        var (state, reply) := PgRenew(r.state, r.replies[handle].lease, now, ttl);
        PgRun(state, r.replies + [reply])
    case DoRelease(handle, now) =>
      if !HasLease(r.replies, handle) then r.(replies := r.replies + [Denied])
      else
        var (state, reply) := PgRelease(r.state, r.replies[handle].lease, now);
        PgRun(state, r.replies + [reply])
  }

  function MemOf(ops: seq<Op>): (r: MemRun)
    ensures |r.replies| == |ops|
  {
    if ops == [] then MemRun(MemState(map[], 0, []), []) else MemStep(MemOf(ops[..|ops| - 1]), ops[|ops| - 1])
  }

  function PgOf(ops: seq<Op>): (r: PgRun)
    ensures |r.replies| == |ops|
  {
    if ops == [] then PgRun(PgState(map[], []), []) else PgStep(PgOf(ops[..|ops| - 1]), ops[|ops| - 1])
  }

  ghost predicate Chronological(ops: seq<Op>) {
    forall i, j :: 0 <= i < j < |ops| ==> ops[i].now <= ops[j].now
  }

  // ---------- fencing ----------

  /** Every token handed out so far is at most the counter; a stored lease carries its session's newest token. */
  ghost predicate Fenced(r: MemRun) {
    && (forall i :: 0 <= i < |r.replies| ==> !r.replies[i].Raised?)
    && (forall i :: 0 <= i < |r.replies| && r.replies[i].Granted? ==> r.replies[i].lease.token <= r.state.token)
    && (forall i, s :: 0 <= i < |r.replies| && r.replies[i].Granted? && s in r.state.leases ==>
          r.replies[i].lease.session == s ==> r.replies[i].lease.token <= r.state.leases[s].token)
    && (forall s :: s in r.state.leases ==> r.state.leases[s].session == s && r.state.leases[s].token <= r.state.token)
  }

  lemma {:induction false} RunsAreFenced(ops: seq<Op>)
    ensures Fenced(MemOf(ops))
  {
    if ops != [] {
      RunsAreFenced(ops[..|ops| - 1]);
      StepIsFenced(MemOf(ops[..|ops| - 1]), ops[|ops| - 1]);
    }
  }

  lemma StepIsFenced(r: MemRun, op: Op)
    requires Fenced(r)
    ensures Fenced(MemStep(r, op))
  {
  }

  lemma {:induction false} RepliesArePrefix(ops: seq<Op>, n: nat)
    requires n <= |ops|
    ensures MemOf(ops).replies[..n] == MemOf(ops[..n]).replies
  {
    if n < |ops| {
      RepliesArePrefix(ops[..|ops| - 1], n);
      assert ops[..|ops| - 1][..n] == ops[..n];
      assert MemOf(ops).replies[..n] == MemOf(ops[..|ops| - 1]).replies[..n];
    } else {
      assert ops[..n] == ops;
    }
  }

  lemma AcquireTakesNextToken(r: MemRun, op: Op)
    requires Fenced(r) && op.DoAcquire? && HasLease(MemStep(r, op).replies, |r.replies|)
    ensures forall i :: 0 <= i < |r.replies| && HasLease(r.replies, i) ==>
              r.replies[i].lease.token < MemStep(r, op).replies[|r.replies|].lease.token
  {
  }

  /** Each successful acquire gets a token above every token handed out before, in any session. */
  lemma AcquireTokensIncrease(ops: seq<Op>, i: nat, j: nat)
    requires i < j < |ops| && ops[j].DoAcquire?
    requires HasLease(MemOf(ops).replies, i) && HasLease(MemOf(ops).replies, j)
    ensures MemOf(ops).replies[i].lease.token < MemOf(ops).replies[j].lease.token
  {
    hide Fenced, MemStep;
    var upTo := ops[..j + 1];
    RepliesArePrefix(ops, j + 1);
    RepliesArePrefix(ops, j);
    assert upTo[..|upTo| - 1] == ops[..j];
    assert MemOf(upTo) == MemStep(MemOf(ops[..j]), ops[j]);
    assert MemOf(ops).replies[i] == MemOf(ops).replies[..j][i] && MemOf(ops).replies[j] == MemOf(ops).replies[..j + 1][j];
    RunsAreFenced(ops[..j]);
    AcquireTakesNextToken(MemOf(ops[..j]), ops[j]);
  }

  /** Once a later acquire of the session succeeded, renewing or releasing an earlier lease changes nothing. */
  lemma LaterAcquireFencesOut(ops: seq<Op>, handle: nat, j: nat, op: Op)
    requires (op.DoRenew? && op.handle == handle) || (op.DoRelease? && op.handle == handle)
    requires handle < j < |ops| && ops[j].DoAcquire?
    requires HasLease(MemOf(ops).replies, handle) && HasLease(MemOf(ops).replies, j)
    requires MemOf(ops).replies[j].lease.session == MemOf(ops).replies[handle].lease.session
    ensures MemOf(ops + [op]) == MemRun(MemOf(ops).state, MemOf(ops).replies + [Denied])
  {
    AcquireTokensIncrease(ops, handle, j);
    RunsAreFenced(ops);
    assert (ops + [op])[..|ops|] == ops;
  }

  /** The grant carries the lifetime asked for, and the next call meets it: an acquire of the session is refused for
      exactly that long, and a renewal by the holder is granted for exactly that long. */
  ghost predicate GrantedFor(r: MemRun, grant: Op, next: Op)
    requires !grant.DoRelease? && HasLease(MemStep(r, grant).replies, |r.replies|)
  {
    var after := MemStep(r, grant);
    var lease := after.replies[|r.replies|].lease;
    && lease.renewedAt == grant.now && lease.expiresAt - grant.now == grant.ttl
    && (grant.DoAcquire? ==> lease.session == grant.session && lease.holder == grant.holder && lease.acquiredAt == grant.now)
    && (next.DoAcquire? && next.session == lease.session ==>
          (HasLease(MemStep(after, next).replies, |r.replies| + 1) <==> next.now - grant.now >= grant.ttl))
    && (next.DoRenew? && next.handle == |r.replies| ==>
          (HasLease(MemStep(after, next).replies, |r.replies| + 1) <==> next.now - grant.now < grant.ttl))
  }

  lemma GrantLasts(r: MemRun, grant: Op, next: Op)
    requires Fenced(r) && !grant.DoRelease? && HasLease(MemStep(r, grant).replies, |r.replies|)
    ensures GrantedFor(r, grant, next)
  {
  }

  /** After any run, a granted acquire or renewal holds for exactly its lifetime. */
  lemma GrantLastsItsLifetime(ops: seq<Op>, r: MemRun, grant: Op, next: Op)
    requires r == MemOf(ops) && !grant.DoRelease? && HasLease(MemStep(r, grant).replies, |r.replies|)
    ensures GrantedFor(r, grant, next)
  {
    hide *;
    RunsAreFenced(ops);
    GrantLasts(r, grant, next);
  }

  lemma ReleaseFrees(r: MemRun, grant: Op, release: Op, next: Op)
    requires Fenced(r) && !grant.DoRelease? && HasLease(MemStep(r, grant).replies, |r.replies|)
    requires release.DoRelease? && release.handle == |r.replies|
    requires next.DoAcquire? && next.session == MemStep(r, grant).replies[|r.replies|].lease.session
    ensures HasLease(MemStep(MemStep(MemStep(r, grant), release), next).replies, |r.replies| + 2)
  {
  }

  /** The holder's release frees the session at once. */
  lemma ReleaseFreesTheSession(ops: seq<Op>, r: MemRun, grant: Op, release: Op, next: Op)
    requires r == MemOf(ops) && !grant.DoRelease? && HasLease(MemStep(r, grant).replies, |r.replies|)
    requires release.DoRelease? && release.handle == |r.replies|
    requires next.DoAcquire? && next.session == MemStep(r, grant).replies[|r.replies|].lease.session
    ensures HasLease(MemStep(MemStep(MemStep(r, grant), release), next).replies, |r.replies| + 2)
  {
    hide *;
    RunsAreFenced(ops);
    ReleaseFrees(r, grant, release, next);
  }

  // ---------- exclusion ----------

  /** The events promise that `token` holds session `s` at time `t`. */
  ghost predicate LiveAt(events: seq<Event>, s: string, token: int, t: int) {
    && (exists i :: 0 <= i < |events| && Promises(events[i], s, token, t))
    && (forall i :: 0 <= i < |events| ==> !Ends(events[i], s, token, t))
  }

  predicate Promises(e: Event, s: string, token: int, t: int) {
    e.kind != Released && e.session == s && e.token == token && e.at <= t < e.expiresAt
  }

  predicate Ends(e: Event, s: string, token: int, t: int) {
    e.kind == Released && e.session == s && e.token == token && e.at <= t
  }

  ghost predicate Exclusive(events: seq<Event>) {
    forall s, a, b, t :: LiveAt(events, s, a, t) && LiveAt(events, s, b, t) ==> a == b
  }

  /** What a run keeps: only the stored token of a session can be live from `clock` on. */
  ghost predicate Excluding(m: MemState, clock: int) {
    && (forall i :: 0 <= i < |m.events| ==> m.events[i].at <= clock && m.events[i].token <= m.token)
    && (forall s :: s in m.leases ==>
          m.leases[s].session == s && m.leases[s].token <= m.token)
    && (forall i :: 0 <= i < |m.events| && Current(m, m.events[i]) ==>
          m.events[i].kind != Released && m.events[i].expiresAt <= m.leases[m.events[i].session].expiresAt)
    && (forall i, t :: 0 <= i < |m.events| && t >= clock && !Current(m, m.events[i]) ==>
          !LiveAt(m.events, m.events[i].session, m.events[i].token, t))
    && Exclusive(m.events)
  }

  predicate Current(m: MemState, e: Event) {
    e.session in m.leases && m.leases[e.session].token == e.token
  }

  /** Appending an event can only make its own token live, from the event on, and ends nothing else. */
  lemma LiveAfterAppend(events: seq<Event>, e: Event, s: string, token: int, t: int)
    requires LiveAt(events + [e], s, token, t)
    ensures LiveAt(events, s, token, t) || Promises(e, s, token, t)
  {
    var all := events + [e];
    forall i | 0 <= i < |events| ensures !Ends(events[i], s, token, t) {
      assert !Ends(all[i], s, token, t);
    }
    var i :| 0 <= i < |all| && Promises(all[i], s, token, t);
    if i < |events| {
      assert Promises(events[i], s, token, t);
    }
  }

  /** A promise event by the stored holder keeps exclusion: at its time no other token is live any more. */
  lemma PromiseKeepsExclusive(events: seq<Event>, e: Event)
    requires Exclusive(events) && e.kind != Released
    requires forall a, t :: t >= e.at && LiveAt(events, e.session, a, t) ==> a == e.token
    ensures Exclusive(events + [e])
  {
    var all := events + [e];
    forall s, a, b, t | LiveAt(all, s, a, t) && LiveAt(all, s, b, t) ensures a == b {
      LiveAfterAppend(events, e, s, a, t);
      LiveAfterAppend(events, e, s, b, t);
    }
  }

  lemma ReleaseKeepsExclusive(events: seq<Event>, e: Event)
    requires Exclusive(events) && e.kind == Released
    ensures Exclusive(events + [e])
  {
    var all := events + [e];
    forall s, a, b, t | LiveAt(all, s, a, t) && LiveAt(all, s, b, t) ensures a == b {
      LiveAfterAppend(events, e, s, a, t);
      LiveAfterAppend(events, e, s, b, t);
    }
  }

  /** Once the stored lease of `s` has run out, nothing is live in `s`. */
  lemma QuietSession(m: MemState, clock: int, s: string, a: int, t: int)
    requires Excluding(m, clock) && t >= clock
    requires s in m.leases ==> m.leases[s].expiresAt <= t
    ensures !LiveAt(m.events, s, a, t)
  {
    forall i | 0 <= i < |m.events| && Promises(m.events[i], s, a, t) ensures !Current(m, m.events[i]) {}
  }

  /** Apart from the stored token, nothing is live in `s` from `clock` on. */
  lemma OnlyStoredToken(m: MemState, clock: int, s: string, a: int, t: int)
    requires Excluding(m, clock) && t >= clock && LiveAt(m.events, s, a, t)
    ensures s in m.leases && m.leases[s].token == a
  {
    var i :| 0 <= i < |m.events| && Promises(m.events[i], s, a, t);
    assert Current(m, m.events[i]);
  }

  lemma AcquireKeepsExcluding(m: MemState, clock: int, session: string, holder: Holder, now: int, ttl: Ttl)
    requires Excluding(m, clock) && clock <= now
    ensures Excluding(MemAcquire(m, session, holder, now, ttl).0, now)
  {
    var n := MemAcquire(m, session, holder, now, ttl).0;
    if n != m {
      var e := n.events[|m.events|];
      assert n.events == m.events + [e];
      forall a, t | t >= e.at ensures !LiveAt(m.events, session, a, t) {
        QuietSession(m, clock, session, a, t);
      }
      PromiseKeepsExclusive(m.events, e);
      forall i, t | 0 <= i < |n.events| && t >= now && !Current(n, n.events[i])
        ensures !LiveAt(n.events, n.events[i].session, n.events[i].token, t)
      {
        var past := n.events[i];
        if LiveAt(n.events, past.session, past.token, t) {
          LiveAfterAppend(m.events, e, past.session, past.token, t);
          assert !Promises(e, past.session, past.token, t);
          if past.session == session {
            QuietSession(m, clock, session, past.token, t);
          } else {
            OnlyStoredToken(m, clock, past.session, past.token, t);
          }
        }
      }
    } else {
      LaterClock(m, clock, now);
    }
  }

  lemma LaterClock(m: MemState, clock: int, now: int)
    requires Excluding(m, clock) && clock <= now
    ensures Excluding(m, now)
  {
  }

  lemma RenewKeepsExcluding(m: MemState, clock: int, lease: Lease, now: int, ttl: Ttl)
    requires Excluding(m, clock) && clock <= now && !ShortensLease(m, lease, now, ttl)
    ensures Excluding(MemRenew(m, lease, now, ttl).0, now)
  {
    var n := MemRenew(m, lease, now, ttl).0;
    if n != m {
      var e := n.events[|m.events|];
      assert n.events == m.events + [e];
      forall a, t | t >= e.at && LiveAt(m.events, e.session, a, t) ensures a == e.token {
        OnlyStoredToken(m, clock, e.session, a, t);
      }
      PromiseKeepsExclusive(m.events, e);
      forall i, t | 0 <= i < |n.events| && t >= now && !Current(n, n.events[i])
        ensures !LiveAt(n.events, n.events[i].session, n.events[i].token, t)
      {
        var past := n.events[i];
        if LiveAt(n.events, past.session, past.token, t) {
          LiveAfterAppend(m.events, e, past.session, past.token, t);
          OnlyStoredToken(m, clock, past.session, past.token, t);
        }
      }
      forall i | 0 <= i < |m.events| && Current(n, m.events[i])
        ensures m.events[i].kind != Released && m.events[i].expiresAt <= n.leases[m.events[i].session].expiresAt
      {
        assert Current(m, m.events[i]);
      }
    } else {
      LaterClock(m, clock, now);
    }
  }

  lemma ReleaseKeepsExcluding(m: MemState, clock: int, lease: Lease, now: int)
    requires Excluding(m, clock) && clock <= now
    ensures Excluding(MemRelease(m, lease, now), now)
  {
    var n := MemRelease(m, lease, now);
    if MemHolds(m, lease) {
      var e := EventOf(Released, m.leases[lease.session], now);
      assert n.events == m.events + [e];
      ReleaseKeepsExclusive(m.events, e);
      forall t | t >= now ensures !LiveAt(n.events, e.session, e.token, t) {
        assert Ends(n.events[|m.events|], e.session, e.token, t);
      }
      forall i, t | 0 <= i < |n.events| && t >= now && !Current(n, n.events[i])
        ensures !LiveAt(n.events, n.events[i].session, n.events[i].token, t)
      {
        var past := n.events[i];
        if LiveAt(n.events, past.session, past.token, t) {
          LiveAfterAppend(m.events, e, past.session, past.token, t);
          OnlyStoredToken(m, clock, past.session, past.token, t);
        }
      }
      forall i | 0 <= i < |m.events| && Current(n, m.events[i])
        ensures m.events[i].kind != Released && m.events[i].expiresAt <= n.leases[m.events[i].session].expiresAt
      {
        assert Current(m, m.events[i]);
      }
    } else {
      LaterClock(m, clock, now);
    }
  }

  /** A renewal is granted and sets an expiry before the stored one. */
  predicate ShortensLease(m: MemState, lease: Lease, now: int, ttl: Ttl) {
    MemHolds(m, lease) && now + ttl < m.leases[lease.session].expiresAt
  }

  predicate Shortens(r: MemRun, op: Op) {
    op.DoRenew? && HasLease(r.replies, op.handle) && ShortensLease(r.state, r.replies[op.handle].lease, op.now, op.ttl)
  }

  ghost predicate NeverShortens(ops: seq<Op>) {
    forall i :: 0 <= i < |ops| ==> !Shortens(MemOf(ops[..i]), ops[i])
  }

  lemma NeverShortensPrefix(ops: seq<Op>, n: nat)
    requires NeverShortens(ops) && n <= |ops|
    ensures NeverShortens(ops[..n])
  {
    forall i | 0 <= i < n ensures !Shortens(MemOf(ops[..n][..i]), ops[..n][i]) {
      assert ops[..n][..i] == ops[..i];
      assert !Shortens(MemOf(ops[..i]), ops[i]);
    }
  }

  lemma {:induction false} RunsExclude(ops: seq<Op>)
    requires ops != [] && Chronological(ops) && NeverShortens(ops)
    ensures Excluding(MemOf(ops).state, ops[|ops| - 1].now)
  {
    var before, op := ops[..|ops| - 1], ops[|ops| - 1];
    var m := MemOf(before).state;
    var clock := if before == [] then op.now else before[|before| - 1].now;
    NeverShortensPrefix(ops, |ops| - 1);
    if before != [] {
      RunsExclude(before);
    }
    assert Excluding(m, clock) && !Shortens(MemOf(before), op);
    match op
    case DoAcquire(session, holder, now, ttl) =>
      AcquireKeepsExcluding(m, clock, session, holder, now, ttl);
    case DoRenew(handle, now, ttl) =>
      if HasLease(MemOf(before).replies, handle) {
        RenewKeepsExcluding(m, clock, MemOf(before).replies[handle].lease, now, ttl);
      } else {
        LaterClock(m, clock, now);
      }
    case DoRelease(handle, now) =>
      if HasLease(MemOf(before).replies, handle) {
        ReleaseKeepsExcluding(m, clock, MemOf(before).replies[handle].lease, now);
      } else {
        LaterClock(m, clock, now);
      }
  }

  /** With a clock that never goes back and no renewal that moves an expiry forward in time, two tokens of a session
      are never live together. Lifetimes may differ. */
  lemma LeasesExclude(ops: seq<Op>)
    requires Chronological(ops) && NeverShortens(ops)
    ensures Exclusive(MemOf(ops).state.events)
  {
    if ops != [] {
      RunsExclude(ops);
    }
  }

  /** A stored lease was promised up to its expiry and has not been released. */
  ghost predicate StoredIsPromised(m: MemState, clock: int) {
    && (forall i :: 0 <= i < |m.events| ==> m.events[i].token <= m.token)
    && (forall s :: s in m.leases ==>
          && m.leases[s].session == s && m.leases[s].token <= m.token
          && IsPromised(m.events, m.leases[s], clock)
          && forall i :: 0 <= i < |m.events| && m.events[i].kind == Released && m.events[i].session == s ==>
               m.events[i].token != m.leases[s].token)
  }

  ghost predicate IsPromised(events: seq<Event>, lease: Lease, clock: int) {
    exists i :: 0 <= i < |events| && events[i].at <= clock && events[i].kind != Released
                && events[i].session == lease.session && events[i].token == lease.token
                && events[i].expiresAt == lease.expiresAt
  }

  lemma PromisedStays(events: seq<Event>, e: Event, lease: Lease, clock: int, now: int)
    requires IsPromised(events, lease, clock) && clock <= now
    ensures IsPromised(events + [e], lease, now)
  {
    var i :| 0 <= i < |events| && events[i].at <= clock && events[i].kind != Released
             && events[i].session == lease.session && events[i].token == lease.token
             && events[i].expiresAt == lease.expiresAt;
    assert (events + [e])[i] == events[i];
  }

  /** One operation by one event: `lease` is stored with its promise, or removed with its release. */
  lemma EventKeepsPromised(m: MemState, n: MemState, e: Event, clock: int)
    requires StoredIsPromised(m, clock) && clock <= e.at && n.events == m.events + [e]
    requires m.token <= n.token && e.token <= n.token
    requires forall s :: s != e.session && s in n.leases ==> s in m.leases && n.leases[s] == m.leases[s]
    requires e.kind == Released ==> e.session !in n.leases
    requires e.session in n.leases ==>
               && n.leases[e.session].session == e.session && n.leases[e.session].token == e.token
               && n.leases[e.session].expiresAt == e.expiresAt
               && (e.token > m.token || (e.session in m.leases && e.token == m.leases[e.session].token))
    ensures StoredIsPromised(n, e.at)
  {
    assert n.events[|m.events|] == e;
    forall s | s in n.leases ensures IsPromised(n.events, n.leases[s], e.at) {
      if s != e.session {
        PromisedStays(m.events, e, n.leases[s], clock, e.at);
      }
    }
  }

  lemma {:induction false} RunsPromise(ops: seq<Op>)
    requires ops != [] && Chronological(ops)
    ensures StoredIsPromised(MemOf(ops).state, ops[|ops| - 1].now)
  {
    var before, op := ops[..|ops| - 1], ops[|ops| - 1];
    var m, n := MemOf(before).state, MemOf(ops).state;
    var clock := if before == [] then op.now else before[|before| - 1].now;
    if before != [] {
      RunsPromise(before);
    }
    assert StoredIsPromised(m, clock);
    if n.events == m.events {
      assert n == m;
      PromiseClock(m, clock, op.now);
    } else {
      EventKeepsPromised(m, n, n.events[|m.events|], clock);
    }
  }

  lemma PromiseClock(m: MemState, clock: int, now: int)
    requires StoredIsPromised(m, clock) && clock <= now
    ensures StoredIsPromised(m, now)
  {
    forall s | s in m.leases ensures IsPromised(m.events, m.leases[s], now) {
      assert IsPromised(m.events, m.leases[s], clock);
    }
  }

  /** After a renewal that shortened a lease, an acquire by anyone between the new expiry and the stored one is
      granted and overlaps what had been promised. */
  lemma ShorteningOverlaps(ops: seq<Op>, op: Op, holder: Holder, at: int, ttl: Ttl)
    requires Chronological(ops + [op]) && Shortens(MemOf(ops), op)
    requires op.now + op.ttl <= at < MemOf(ops).state.leases[MemOf(ops).replies[op.handle].lease.session].expiresAt
    ensures
      var next := DoAcquire(MemOf(ops).replies[op.handle].lease.session, holder, at, ttl);
      Chronological(ops + [op] + [next]) && !Exclusive(MemOf(ops + [op] + [next]).state.events)
  {
    var r := MemOf(ops);
    var lease := r.replies[op.handle].lease;
    var next := DoAcquire(lease.session, holder, at, ttl);
    ChronologicalMore(ops + [op], next);
    ChronologicalPrefix(ops + [op], |ops|);
    assert (ops + [op])[..|ops|] == ops;
    TwoMore(ops, op, next);
    RunsPromise(ops);
    assert (ops + [op])[|ops| - 1] == ops[|ops| - 1];
    PromiseClock(r.state, ops[|ops| - 1].now, op.now);
    OverlapsStored(r.state, lease, op.now, op.ttl, holder, at, ttl);
  }

  lemma ChronologicalPrefix(ops: seq<Op>, n: nat)
    requires Chronological(ops) && n <= |ops|
    ensures Chronological(ops[..n])
  {
    forall i, j | 0 <= i < j < n ensures ops[..n][i].now <= ops[..n][j].now {
      assert ops[i].now <= ops[j].now;
    }
  }

  lemma TwoMore(ops: seq<Op>, op: Op, next: Op)
    ensures MemOf(ops + [op]) == MemStep(MemOf(ops), op)
    ensures MemOf(ops + [op] + [next]) == MemStep(MemStep(MemOf(ops), op), next)
  {
    var longer := ops + [op];
    assert longer[..|ops|] == ops && (longer + [next])[..|longer|] == longer;
  }

  /** For example: acquired for longer, renewed for shorter, and taken over in between. */
  lemma ShorterRenewalOverlaps(session: string, holder: Holder, other: Holder, now: int, longer: Ttl, shorter: Ttl)
    requires shorter < longer
    ensures
      var ops := [DoAcquire(session, holder, now, longer)] + [DoRenew(0, now, shorter)]
                 + [DoAcquire(session, other, now + shorter, longer)];
      Chronological(ops) && !Exclusive(MemOf(ops).state.events)
  {
    var first, op: Op := [DoAcquire(session, holder, now, longer)], DoRenew(0, now, shorter);
    assert first[..0] == [];
    ShorteningOverlaps(first, op, other, now + shorter, longer);
  }

  lemma OverlapsStored(m: MemState, lease: Lease, now: int, shorter: Ttl, holder: Holder, at: int, ttl: Ttl)
    requires StoredIsPromised(m, now) && ShortensLease(m, lease, now, shorter)
    requires now + shorter <= at < m.leases[lease.session].expiresAt
    ensures !Exclusive(MemAcquire(MemRenew(m, lease, now, shorter).0, lease.session, holder, at, ttl).0.events)
  {
    var s, token := lease.session, lease.token;
    var n := MemRenew(m, lease, now, shorter).0;
    var last := MemAcquire(n, s, holder, at, ttl).0;
    var renewed, acquired := n.events[|m.events|], last.events[|n.events|];
    assert last.events == m.events + [renewed] + [acquired];
    assert IsPromised(m.events, m.leases[s], now);
    var i :| 0 <= i < |m.events| && m.events[i].at <= now && m.events[i].kind != Released
             && m.events[i].session == s && m.events[i].token == token
             && m.events[i].expiresAt == m.leases[s].expiresAt;
    BothLive(m.events, i, renewed, acquired, at);
  }

  lemma BothLive(events: seq<Event>, i: nat, renewed: Event, acquired: Event, at: int)
    requires i < |events| && renewed.kind == Renewed && acquired.kind == Acquired
    requires events[i].session == acquired.session && events[i].token != acquired.token
    requires Promises(events[i], events[i].session, events[i].token, at)
    requires Promises(acquired, acquired.session, acquired.token, at)
    requires forall k :: 0 <= k < |events| && events[k].kind == Released && events[k].session == acquired.session ==>
               events[k].token != events[i].token && events[k].token != acquired.token
    ensures !Exclusive(events + [renewed] + [acquired])
  {
    var all, s := events + [renewed] + [acquired], acquired.session;
    assert all[i] == events[i] && all[|events| + 1] == acquired;
    forall k | 0 <= k < |all|
      ensures !Ends(all[k], s, events[i].token, at) && !Ends(all[k], s, acquired.token, at)
    {
      assert k < |events| ==> all[k] == events[k];
      assert k == |events| ==> all[k] == renewed;
    }
    assert LiveAt(all, s, events[i].token, at) && LiveAt(all, s, acquired.token, at);
  }

  /** Cutting the run after `n` operations and acquiring at will keeps exclusion. */
  ghost predicate AnyAcquireExcludes(ops: seq<Op>, n: nat)
    requires n <= |ops|
  {
    forall next: Op :: next.DoAcquire? && Chronological(ops[..n] + [next]) ==> Exclusive(MemOf(ops[..n] + [next]).state.events)
  }

  /** On a clock that never goes back, no acquire at any point can ever overlap exactly when no granted renewal
      shortened a lease. */
  lemma ExclusionIsExactlyNoShortening(ops: seq<Op>)
    requires Chronological(ops)
    ensures (forall n :: 0 <= n <= |ops| ==> AnyAcquireExcludes(ops, n)) <==> NeverShortens(ops)
  {
    if NeverShortens(ops) {
      forall n | 0 <= n <= |ops| ensures AnyAcquireExcludes(ops, n) {
        NoShorteningExcludes(ops, n);
      }
    } else {
      var i :| 0 <= i < |ops| && Shortens(MemOf(ops[..i]), ops[i]);
      ShorteningBreaks(ops, i);
    }
  }

  lemma NoShorteningExcludes(ops: seq<Op>, n: nat)
    requires n <= |ops| && NeverShortens(ops)
    ensures AnyAcquireExcludes(ops, n)
  {
    forall next: Op | next.DoAcquire? && Chronological(ops[..n] + [next])
      ensures Exclusive(MemOf(ops[..n] + [next]).state.events)
    {
      AcquireNeverShortens(ops, n, next);
      LeasesExclude(ops[..n] + [next]);
    }
  }

  lemma ShorteningBreaks(ops: seq<Op>, i: nat)
    requires Chronological(ops) && i < |ops| && Shortens(MemOf(ops[..i]), ops[i])
    ensures !AnyAcquireExcludes(ops, i + 1)
  {
    var upTo, op := ops[..i], ops[i];
    assert ops[..i + 1] == upTo + [op];
    ChronologicalPrefix(ops, i + 1);
    var next := DoAcquire(MemOf(upTo).replies[op.handle].lease.session, "h", op.now + op.ttl, 1);
    ChronologicalMore(upTo + [op], next);
    ShorteningOverlaps(upTo, op, "h", op.now + op.ttl, 1);
    assert next.DoAcquire? && Chronological(ops[..i + 1] + [next]);
  }

  lemma ChronologicalMore(ops: seq<Op>, next: Op)
    requires ops != [] && Chronological(ops) && ops[|ops| - 1].now <= next.now
    ensures Chronological(ops + [next])
  {
    forall i | 0 <= i < |ops| ensures ops[i].now <= next.now {
      assert i < |ops| - 1 ==> ops[i].now <= ops[|ops| - 1].now;
    }
  }

  lemma AcquireNeverShortens(ops: seq<Op>, n: nat, next: Op)
    requires NeverShortens(ops) && n <= |ops| && next.DoAcquire?
    ensures NeverShortens(ops[..n] + [next])
  {
    var longer := ops[..n] + [next];
    forall i | 0 <= i < |longer| ensures !Shortens(MemOf(longer[..i]), longer[i]) {
      if i < n {
        assert longer[..i] == ops[..i];
        assert !Shortens(MemOf(ops[..i]), ops[i]);
      }
    }
  }

  ghost predicate FixedTtl(ops: seq<Op>, ttl: Ttl) {
    forall i :: 0 <= i < |ops| && !ops[i].DoRelease? ==> ops[i].ttl == ttl
  }

  ghost predicate ExpiresWithin(m: MemState, limit: int) {
    forall s :: s in m.leases ==> m.leases[s].expiresAt <= limit
  }

  lemma {:induction false} FixedTtlExpiry(ops: seq<Op>, ttl: Ttl)
    requires ops != [] && Chronological(ops) && FixedTtl(ops, ttl)
    ensures ExpiresWithin(MemOf(ops).state, ops[|ops| - 1].now + ttl)
  {
    var before := ops[..|ops| - 1];
    if before != [] {
      FixedTtlExpiry(before, ttl);
      assert ExpiresWithin(MemOf(before).state, ops[|ops| - 1].now + ttl);
    }
  }

  /** One lifetime throughout, as every session of the policy has, never shortens a lease. */
  lemma FixedTtlNeverShortens(ops: seq<Op>, ttl: Ttl)
    requires Chronological(ops) && FixedTtl(ops, ttl)
    ensures NeverShortens(ops)
  {
    forall i | 0 <= i < |ops| ensures !Shortens(MemOf(ops[..i]), ops[i]) {
      if i > 0 {
        FixedTtlExpiry(ops[..i], ttl);
        assert ops[i - 1].now <= ops[i].now;
      }
    }
  }

  // ---------- the latest grant decides ----------

  /** Seen at time `t`, the token holds session `s`: its latest event up to then promises it. */
  ghost predicate HoldsAt(events: seq<Event>, s: string, token: int, t: int) {
    exists i :: Latest(events, i, s, token, t) && Promises(events[i], s, token, t)
  }

  predicate Concerns(e: Event, s: string, token: int, t: int) {
    e.session == s && e.token == token && e.at <= t
  }

  ghost predicate Latest(events: seq<Event>, i: int, s: string, token: int, t: int) {
    0 <= i < |events| && Concerns(events[i], s, token, t) && forall j :: i < j < |events| ==> !Concerns(events[j], s, token, t)
  }

  ghost predicate OneHolder(events: seq<Event>) {
    forall s, a, b, t :: HoldsAt(events, s, a, t) && HoldsAt(events, s, b, t) ==> a == b
  }

  lemma HoldsAfterAppend(events: seq<Event>, e: Event, s: string, token: int, t: int)
    ensures HoldsAt(events + [e], s, token, t)
            <==> if Concerns(e, s, token, t) then Promises(e, s, token, t) else HoldsAt(events, s, token, t)
  {
    var all, n := events + [e], |events|;
    assert all[n] == e && forall j :: 0 <= j < n ==> all[j] == events[j];
    if Concerns(e, s, token, t) {
      assert forall i :: Latest(all, i, s, token, t) ==> i == n;
      assert Latest(all, n, s, token, t);
    } else {
      forall i ensures Latest(all, i, s, token, t) <==> Latest(events, i, s, token, t) {
        if Latest(all, i, s, token, t) {
          forall j | i < j < n ensures !Concerns(events[j], s, token, t) {
            assert !Concerns(all[j], s, token, t);
          }
        }
      }
    }
  }

  /** What a run keeps: from `clock` on only a session's stored token holds, and no longer than it is stored for. */
  ghost predicate HeldByStored(m: MemState, clock: int) {
    && (forall s :: s in m.leases ==> m.leases[s].session == s && m.leases[s].token <= m.token)
    && (forall i :: 0 <= i < |m.events| ==> m.events[i].at <= clock && m.events[i].token <= m.token)
    && (forall s, a, t :: t >= clock && HoldsAt(m.events, s, a, t) ==>
          s in m.leases && m.leases[s].token == a && t < m.leases[s].expiresAt)
    && OneHolder(m.events)
  }

  lemma HeldLater(m: MemState, clock: int, now: int)
    requires HeldByStored(m, clock) && clock <= now
    ensures HeldByStored(m, now)
  {
  }

  /** One operation by one event: either the session's stored token goes on, with the event's expiry or released, or
      a token never seen is stored once nothing holds the session. */
  lemma EventKeepsHeld(m: MemState, n: MemState, e: Event, clock: int)
    requires HeldByStored(m, clock) && clock <= e.at && n.events == m.events + [e]
    requires m.token <= n.token && e.token <= n.token
    requires forall s :: s != e.session ==> (s in m.leases <==> s in n.leases) && (s in n.leases ==> n.leases[s] == m.leases[s])
    requires e.kind == Released ==> e.session !in n.leases
    requires e.kind != Released ==> e.session in n.leases && n.leases[e.session].session == e.session
                                    && n.leases[e.session].token == e.token && n.leases[e.session].expiresAt == e.expiresAt
    requires (e.session in m.leases && m.leases[e.session].token == e.token)
             || (e.kind != Released && (e.session in m.leases ==> m.leases[e.session].expiresAt <= e.at))
    ensures HeldByStored(n, e.at)
  {
    assert n.events[|m.events|] == e;
    forall s, a, t | t >= e.at && HoldsAt(n.events, s, a, t)
      ensures s in n.leases && n.leases[s].token == a && t < n.leases[s].expiresAt
    {
      HoldsAfterAppend(m.events, e, s, a, t);
    }
    forall s, a, b, t | HoldsAt(n.events, s, a, t) && HoldsAt(n.events, s, b, t) ensures a == b {
      HoldsAfterAppend(m.events, e, s, a, t);
      HoldsAfterAppend(m.events, e, s, b, t);
    }
  }

  lemma {:induction false} RunsHold(ops: seq<Op>)
    requires ops != [] && Chronological(ops)
    ensures HeldByStored(MemOf(ops).state, ops[|ops| - 1].now)
  {
    var before, op := ops[..|ops| - 1], ops[|ops| - 1];
    var m, n := MemOf(before).state, MemOf(ops).state;
    var clock := if before == [] then op.now else before[|before| - 1].now;
    if before != [] {
      RunsHold(before);
    }
    assert HeldByStored(m, clock);
    if n.events == m.events {
      assert n == m;
      HeldLater(m, clock, op.now);
    } else {
      EventKeepsHeld(m, n, n.events[|m.events|], clock);
    }
  }

  /** With a clock that never goes back and any lifetimes, renewals that shorten a lease included: at no time do two
      tokens hold a session by their latest grants. */
  lemma LatestGrantsExclude(ops: seq<Op>)
    requires Chronological(ops)
    ensures OneHolder(MemOf(ops).state.events)
  {
    if ops != [] {
      RunsHold(ops);
    }
  }

  // ---------- the two repositories agree ----------

  /** `tok[k]` is the in-memory token of the session's acquisition number `k + 1`, its row token. */
  ghost predicate Increasing(tok: seq<int>) {
    forall i, j :: 0 <= i < j < |tok| ==> tok[i] < tok[j]
  }

  ghost predicate TokenLinked(tok: seq<int>, memToken: int, pgToken: int) {
    1 <= pgToken <= |tok| && memToken == tok[pgToken - 1]
  }

  ghost predicate Linked(toks: map<string, seq<int>>, m: Lease, g: Lease) {
    && m == g.(token := m.token)
    && m.session in toks && TokenLinked(toks[m.session], m.token, g.token)
  }

  ghost predicate SameReply(toks: map<string, seq<int>>, m: Reply, g: Reply) {
    (m.Denied? && g.Denied?) || (m.Granted? && g.Granted? && Linked(toks, m.lease, g.lease))
  }

  /** A release event may carry a different expiry: the row version reports the caller's lease. */
  ghost predicate SameEvent(toks: map<string, seq<int>>, m: Event, g: Event) {
    && m.kind == g.kind && m.session == g.session && m.holder == g.holder && m.at == g.at
    && (m.kind != Released ==> m.expiresAt == g.expiresAt)
    && m.session in toks && TokenLinked(toks[m.session], m.token, g.token)
  }

  ghost predicate SameRow(toks: map<string, seq<int>>, m: MemState, g: PgState, s: string, clock: int) {
    && (s in toks <==> s in g.rows)
    && (s in m.leases <==> s in g.rows && g.rows[s].active)
    && (s in g.rows ==>
          && g.rows[s].lease.session == s && g.rows[s].lease.acquiredAt <= clock
          && |toks[s]| == g.rows[s].lease.token && Increasing(toks[s])
          && forall k :: 0 <= k < |toks[s]| ==> toks[s][k] <= m.token)
    && (s in m.leases ==> m.leases[s].session == s && Linked(toks, m.leases[s], g.rows[s].lease))
  }

  ghost predicate Agree(mr: MemRun, pr: PgRun, toks: map<string, seq<int>>, clock: int) {
    && |mr.replies| == |pr.replies|
    && (forall i :: 0 <= i < |mr.replies| ==> SameReply(toks, mr.replies[i], pr.replies[i]))
    && (forall s :: SameRow(toks, mr.state, pr.state, s, clock))
    && |mr.state.events| == |pr.state.events|
    && (forall i :: 0 <= i < |mr.state.events| ==> SameEvent(toks, mr.state.events[i], pr.state.events[i]))
  }

  lemma Injective(tok: seq<int>, a: int, b: int, x: int, y: int)
    requires Increasing(tok) && TokenLinked(tok, a, x) && TokenLinked(tok, b, y)
    ensures a == b <==> x == y
    ensures a < b <==> x < y
  {
  }

  /** A new acquisition of `s` extends the token map and keeps every earlier link. */
  lemma AcquireAgrees(mr: MemRun, pr: PgRun, toks: map<string, seq<int>>, clock: int, op: Op)
    returns (toks': map<string, seq<int>>)
    requires Agree(mr, pr, toks, clock) && op.DoAcquire? && clock <= op.now
    ensures Agree(MemStep(mr, op), PgStep(pr, op), toks', op.now)
  {
    var s, n := op.session, mr.state.token + 1;
    assert SameRow(toks, mr.state, pr.state, s, clock);
    var granted := !(s in mr.state.leases && mr.state.leases[s].expiresAt > op.now);
    toks' := AcquireTokens(mr, toks, op);
    var mr', pr' := MemStep(mr, op), PgStep(pr, op);
    if granted {
      TokensExtend(mr, pr, toks, toks', clock);
      assert toks'[s][|toks'[s]| - 1] == n;
    }
    forall x ensures SameRow(toks', mr'.state, pr'.state, x, op.now) {
      AcquireRow(mr, pr, toks, clock, op, x);
    }
  }

  /** The token map after an acquire. */
  ghost function AcquireTokens(mr: MemRun, toks: map<string, seq<int>>, op: Op): map<string, seq<int>>
    requires op.DoAcquire?
  {
    var s := op.session;
    if s in mr.state.leases && mr.state.leases[s].expiresAt > op.now then toks
    else toks[s := (if s in toks then toks[s] else []) + [mr.state.token + 1]]
  }

  lemma AcquireRow(mr: MemRun, pr: PgRun, toks: map<string, seq<int>>, clock: int, op: Op, x: string)
    requires op.DoAcquire? && clock <= op.now
    requires SameRow(toks, mr.state, pr.state, x, clock) && SameRow(toks, mr.state, pr.state, op.session, clock)
    ensures SameRow(AcquireTokens(mr, toks, op), MemStep(mr, op).state, PgStep(pr, op).state, x, op.now)
  {
  }

  lemma TokensExtend(mr: MemRun, pr: PgRun, toks: map<string, seq<int>>, toks': map<string, seq<int>>, clock: int)
    requires Agree(mr, pr, toks, clock)
    requires forall s :: s in toks ==> s in toks' && toks[s] <= toks'[s]
    ensures forall i :: 0 <= i < |mr.replies| ==> SameReply(toks', mr.replies[i], pr.replies[i])
    ensures forall i :: 0 <= i < |mr.state.events| ==> SameEvent(toks', mr.state.events[i], pr.state.events[i])
  {
    forall i | 0 <= i < |mr.replies| ensures SameReply(toks', mr.replies[i], pr.replies[i]) {
      assert SameReply(toks, mr.replies[i], pr.replies[i]);
    }
    forall i | 0 <= i < |mr.state.events| ensures SameEvent(toks', mr.state.events[i], pr.state.events[i]) {
      assert SameEvent(toks, mr.state.events[i], pr.state.events[i]);
    }
  }

  lemma RenewAgrees(mr: MemRun, pr: PgRun, toks: map<string, seq<int>>, clock: int, op: Op)
    requires Agree(mr, pr, toks, clock) && op.DoRenew? && clock <= op.now
    ensures Agree(MemStep(mr, op), PgStep(pr, op), toks, op.now)
  {
    var mr', pr' := MemStep(mr, op), PgStep(pr, op);
    if op.handle < |mr.replies| {
      assert SameReply(toks, mr.replies[op.handle], pr.replies[op.handle]);
      if mr.replies[op.handle].Granted? {
        SameHolder(mr, pr, toks, clock, op.handle);
        var m := mr.replies[op.handle].lease;
        assert SameRow(toks, mr.state, pr.state, m.session, clock);
        if MemHolds(mr.state, m) && mr.state.leases[m.session].expiresAt > op.now {
          var k := |mr.state.events|;
          assert SameReply(toks, mr'.replies[|mr.replies|], pr'.replies[|mr.replies|]);
          assert SameEvent(toks, mr'.state.events[k], pr'.state.events[k]);
        }
      }
    }
    forall x ensures SameRow(toks, mr'.state, pr'.state, x, op.now) {
      assert SameRow(toks, mr.state, pr.state, x, clock);
    }
  }

  lemma SameHolder(mr: MemRun, pr: PgRun, toks: map<string, seq<int>>, clock: int, handle: nat)
    requires Agree(mr, pr, toks, clock) && HasLease(mr.replies, handle)
    ensures HasLease(pr.replies, handle) && Linked(toks, mr.replies[handle].lease, pr.replies[handle].lease)
    ensures MemHolds(mr.state, mr.replies[handle].lease) <==> PgMatches(pr.state, pr.replies[handle].lease)
  {
    var m, g := mr.replies[handle].lease, pr.replies[handle].lease;
    assert SameReply(toks, mr.replies[handle], pr.replies[handle]);
    var s := m.session;
    assert SameRow(toks, mr.state, pr.state, s, clock);
    if s in mr.state.leases {
      Injective(toks[s], m.token, mr.state.leases[s].token, g.token, pr.state.rows[s].lease.token);
    }
  }

  lemma ReleaseAgrees(mr: MemRun, pr: PgRun, toks: map<string, seq<int>>, clock: int, op: Op)
    requires Agree(mr, pr, toks, clock) && op.DoRelease? && clock <= op.now
    ensures Agree(MemStep(mr, op), PgStep(pr, op), toks, op.now)
  {
    var mr', pr' := MemStep(mr, op), PgStep(pr, op);
    if op.handle < |mr.replies| {
      assert SameReply(toks, mr.replies[op.handle], pr.replies[op.handle]);
      if mr.replies[op.handle].Granted? {
        SameHolder(mr, pr, toks, clock, op.handle);
        var m := mr.replies[op.handle].lease;
        assert SameRow(toks, mr.state, pr.state, m.session, clock);
        if MemHolds(mr.state, m) {
          var k := |mr.state.events|;
          assert SameEvent(toks, mr'.state.events[k], pr'.state.events[k]);
        }
      }
    }
    forall x ensures SameRow(toks, mr'.state, pr'.state, x, op.now) {
      assert SameRow(toks, mr.state, pr.state, x, clock);
    }
  }

  /** Any chronological operation sequence: same grants and denials, same leases up to the token
      numbering, same event kinds in the same order. */
  lemma {:induction false} RepositoriesAgree(ops: seq<Op>) returns (toks: map<string, seq<int>>)
    requires Chronological(ops)
    ensures Agree(MemOf(ops), PgOf(ops), toks, if ops == [] then 0 else ops[|ops| - 1].now)
  {
    if ops == [] {
      toks := map[];
    } else {
      var before, op := ops[..|ops| - 1], ops[|ops| - 1];
      toks := RepositoriesAgree(before);
      var clock := if before == [] then op.now else before[|before| - 1].now;
      assert Agree(MemOf(before), PgOf(before), toks, clock);
      match op
      case DoAcquire(_, _, _, _) => toks := AcquireAgrees(MemOf(before), PgOf(before), toks, clock, op);
      case DoRenew(_, _, _) => RenewAgrees(MemOf(before), PgOf(before), toks, clock, op);
      case DoRelease(_, _) => ReleaseAgrees(MemOf(before), PgOf(before), toks, clock, op);
    }
  }

  /** The issued tokens are order-isomorphic within each session. */
  lemma TokensAreIsomorphic(ops: seq<Op>, i: nat, j: nat)
    requires Chronological(ops)
    requires HasLease(MemOf(ops).replies, i) && HasLease(MemOf(ops).replies, j)
    requires MemOf(ops).replies[i].lease.session == MemOf(ops).replies[j].lease.session
    ensures HasLease(PgOf(ops).replies, i) && HasLease(PgOf(ops).replies, j)
    ensures MemOf(ops).replies[i].lease.token < MemOf(ops).replies[j].lease.token
            <==> PgOf(ops).replies[i].lease.token < PgOf(ops).replies[j].lease.token
  {
    var toks := RepositoriesAgree(ops);
    var m, g := MemOf(ops), PgOf(ops);
    var clock := if ops == [] then 0 else ops[|ops| - 1].now;
    assert SameReply(toks, m.replies[i], g.replies[i]) && SameReply(toks, m.replies[j], g.replies[j]);
    var s := m.replies[i].lease.session;
    assert SameRow(toks, m.state, g.state, s, clock);
    Injective(toks[s], m.replies[i].lease.token, m.replies[j].lease.token, g.replies[i].lease.token, g.replies[j].lease.token);
  }

  lemma LiveInBoth(mr: MemRun, pr: PgRun, toks: map<string, seq<int>>, clock: int, s: string, b: int, t: int)
    returns (a: int)
    requires Agree(mr, pr, toks, clock) && LiveAt(pr.state.events, s, b, t)
    ensures LiveAt(mr.state.events, s, a, t) && s in toks && TokenLinked(toks[s], a, b)
  {
    var me, pe := mr.state.events, pr.state.events;
    var k :| 0 <= k < |pe| && Promises(pe[k], s, b, t);
    assert SameEvent(toks, me[k], pe[k]);
    a := me[k].token;
    assert Promises(me[k], s, a, t);
    assert SameRow(toks, mr.state, pr.state, s, clock);
    forall i | 0 <= i < |me| ensures !Ends(me[i], s, a, t) {
      assert SameEvent(toks, me[i], pe[i]);
      if me[i].session == s {
        Injective(toks[s], me[i].token, a, pe[i].token, b);
      }
      assert !Ends(pe[i], s, b, t);
    }
  }

  lemma LiveInRows(mr: MemRun, pr: PgRun, toks: map<string, seq<int>>, clock: int, s: string, a: int, t: int)
    returns (b: int)
    requires Agree(mr, pr, toks, clock) && LiveAt(mr.state.events, s, a, t)
    ensures LiveAt(pr.state.events, s, b, t) && s in toks && TokenLinked(toks[s], a, b)
  {
    var me, pe := mr.state.events, pr.state.events;
    var k :| 0 <= k < |me| && Promises(me[k], s, a, t);
    assert SameEvent(toks, me[k], pe[k]);
    b := pe[k].token;
    assert Promises(pe[k], s, b, t);
    assert SameRow(toks, mr.state, pr.state, s, clock);
    forall i | 0 <= i < |pe| ensures !Ends(pe[i], s, b, t) {
      assert SameEvent(toks, me[i], pe[i]);
      if pe[i].session == s {
        Injective(toks[s], me[i].token, a, pe[i].token, b);
      }
      assert !Ends(me[i], s, a, t);
    }
  }

  lemma RowsExclude(mr: MemRun, pr: PgRun, toks: map<string, seq<int>>, clock: int)
    requires Agree(mr, pr, toks, clock) && Exclusive(mr.state.events)
    ensures Exclusive(pr.state.events)
  {
    forall s, x, y, t | LiveAt(pr.state.events, s, x, t) && LiveAt(pr.state.events, s, y, t) ensures x == y {
      var a := LiveInBoth(mr, pr, toks, clock, s, x, t);
      var b := LiveInBoth(mr, pr, toks, clock, s, y, t);
      assert a == b && SameRow(toks, mr.state, pr.state, s, clock);
      Injective(toks[s], a, b, x, y);
    }
  }

  lemma RowsExcludeOnlyThen(mr: MemRun, pr: PgRun, toks: map<string, seq<int>>, clock: int)
    requires Agree(mr, pr, toks, clock) && Exclusive(pr.state.events)
    ensures Exclusive(mr.state.events)
  {
    forall s, a, b, t | LiveAt(mr.state.events, s, a, t) && LiveAt(mr.state.events, s, b, t) ensures a == b {
      var x := LiveInRows(mr, pr, toks, clock, s, a, t);
      var y := LiveInRows(mr, pr, toks, clock, s, b, t);
      assert x == y;
    }
  }

  /** The rows exclude exactly when the in-memory leases do, so whenever no renewal shortens a lease. */
  lemma RowLeasesExclude(ops: seq<Op>)
    requires Chronological(ops)
    ensures Exclusive(PgOf(ops).state.events) <==> Exclusive(MemOf(ops).state.events)
    ensures Exclusive(Stored(PgOf(ops).state.events)) <==> Exclusive(MemOf(ops).state.events)
    ensures NeverShortens(ops) ==> Exclusive(PgOf(ops).state.events)
  {
    hide Agree, Exclusive, NeverShortens, Stored;
    var toks := RepositoriesAgree(ops);
    var clock := if ops == [] then 0 else ops[|ops| - 1].now;
    var mr, pr := MemOf(ops), PgOf(ops);
    StoredExcludes(pr.state.events);
    if Exclusive(mr.state.events) {
      RowsExclude(mr, pr, toks, clock);
    }
    if Exclusive(pr.state.events) {
      RowsExcludeOnlyThen(mr, pr, toks, clock);
    }
    if NeverShortens(ops) {
      LeasesExclude(ops);
    }
  }

  lemma HoldsInBoth(mr: MemRun, pr: PgRun, toks: map<string, seq<int>>, clock: int, s: string, b: int, t: int)
    returns (a: int)
    requires Agree(mr, pr, toks, clock) && HoldsAt(pr.state.events, s, b, t)
    ensures HoldsAt(mr.state.events, s, a, t) && s in toks && TokenLinked(toks[s], a, b)
  {
    var me, pe := mr.state.events, pr.state.events;
    var k :| Latest(pe, k, s, b, t) && Promises(pe[k], s, b, t);
    assert SameEvent(toks, me[k], pe[k]) && SameRow(toks, mr.state, pr.state, s, clock);
    a := me[k].token;
    forall j | k < j < |me| ensures !Concerns(me[j], s, a, t) {
      assert SameEvent(toks, me[j], pe[j]) && !Concerns(pe[j], s, b, t);
      if me[j].session == s {
        Injective(toks[s], me[j].token, a, pe[j].token, b);
      }
    }
    assert Latest(me, k, s, a, t) && Promises(me[k], s, a, t);
  }

  /** Nor do they in the rows. */
  lemma LatestRowGrantsExclude(ops: seq<Op>)
    requires Chronological(ops)
    ensures OneHolder(PgOf(ops).state.events)
  {
    var toks := RepositoriesAgree(ops);
    var clock := if ops == [] then 0 else ops[|ops| - 1].now;
    var mr, pr := MemOf(ops), PgOf(ops);
    LatestGrantsExclude(ops);
    forall s, x, y, t | HoldsAt(pr.state.events, s, x, t) && HoldsAt(pr.state.events, s, y, t) ensures x == y {
      var a := HoldsInBoth(mr, pr, toks, clock, s, x, t);
      var b := HoldsInBoth(mr, pr, toks, clock, s, y, t);
      assert a == b && SameRow(toks, mr.state, pr.state, s, clock);
      Injective(toks[s], a, b, x, y);
    }
  }

  /** Keeping each event once changes nothing about what was promised. */
  lemma StoredExcludes(emitted: seq<Event>)
    ensures Exclusive(Stored(emitted)) <==> Exclusive(emitted)
  {
    StoredElements(emitted);
    forall s, token, t ensures LiveAt(Stored(emitted), s, token, t) <==> LiveAt(emitted, s, token, t) {
      if LiveAt(emitted, s, token, t) {
        SameElementsLive(emitted, Stored(emitted), s, token, t);
      }
      if LiveAt(Stored(emitted), s, token, t) {
        SameElementsLive(Stored(emitted), emitted, s, token, t);
      }
    }
  }

  lemma SameElementsLive(a: seq<Event>, b: seq<Event>, s: string, token: int, t: int)
    requires forall e :: e in a <==> e in b
    requires LiveAt(a, s, token, t)
    ensures LiveAt(b, s, token, t)
  {
    var i :| 0 <= i < |a| && Promises(a[i], s, token, t);
    assert a[i] in b;
    forall j | 0 <= j < |b| ensures !Ends(b[j], s, token, t) {
      assert b[j] in a;
    }
  }

  /** On agreeing states a renewal gets different replies exactly when the clock precedes the acquisition
      of a lease that is otherwise renewable: the row version then fails its validation. */
  lemma RenewDisagreesExactly(mr: MemRun, pr: PgRun, toks: map<string, seq<int>>, clock: int, handle: nat, now: int, ttl: Ttl)
    requires Agree(mr, pr, toks, clock) && HasLease(mr.replies, handle)
    ensures HasLease(pr.replies, handle)
    ensures
      var m := MemRenew(mr.state, mr.replies[handle].lease, now, ttl).1;
      var g := PgRenew(pr.state, pr.replies[handle].lease, now, ttl).1;
      SameReply(toks, m, g) <==>
        !(MemHolds(mr.state, mr.replies[handle].lease)
          && now < mr.state.leases[mr.replies[handle].lease.session].acquiredAt
          && now < mr.state.leases[mr.replies[handle].lease.session].expiresAt)
  {
    SameHolder(mr, pr, toks, clock, handle);
    assert SameRow(toks, mr.state, pr.state, mr.replies[handle].lease.session, clock);
  }

  /** And a release raises instead of ending the lease exactly when the clock precedes the acquisition. */
  lemma ReleaseDisagreesExactly(mr: MemRun, pr: PgRun, toks: map<string, seq<int>>, clock: int, handle: nat, now: int)
    requires Agree(mr, pr, toks, clock) && HasLease(mr.replies, handle)
    ensures HasLease(pr.replies, handle)
    ensures
      var s := mr.replies[handle].lease.session;
      var m := MemRelease(mr.state, mr.replies[handle].lease, now);
      var (g, reply) := PgRelease(pr.state, pr.replies[handle].lease, now);
      && (reply.Raised? <==> MemHolds(mr.state, mr.replies[handle].lease) && now < mr.state.leases[s].acquiredAt)
      && ((s in m.leases <==> s in g.rows && g.rows[s].active) <==> !reply.Raised?)
  {
    SameHolder(mr, pr, toks, clock, handle);
    assert SameRow(toks, mr.state, pr.state, mr.replies[handle].lease.session, clock);
  }
}
