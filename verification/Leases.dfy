/**
 The sweep lease: one row per sweep, claimed by a conditional upsert, kept by a heartbeat, never
 released. Workers read their own clocks, crash at any moment, and ignore whether a heartbeat
 succeeded. Times are integers in any unit.
 */
module Leases {
  import opened Common

  type Holder = string   // host:pid
  datatype Lease = Lease(holder: Holder, expiresAt: int)
  type Table = map<string, Lease>

  // ---------------------------------------------------------------------------------------
  // The conditional upsert
  // ---------------------------------------------------------------------------------------

  /** INSERT, or UPDATE ... WHERE expires_at <= now OR holder = holder: does it write a row? */
  predicate Claims(rows: Table, name: string, holder: Holder, now: int) {
    name !in rows || rows[name].expiresAt <= now || rows[name].holder == holder
  }

  function Claimed(rows: Table, name: string, holder: Holder, now: int, ttl: int): Table {
    if Claims(rows, name, holder, now) then rows[name := Lease(holder, now + ttl)] else rows
  }

  class LeaseTable {
    var rows: Table

    constructor ()
      ensures rows == map[]
    {
      rows := map[];
    }

    /** `now` is the claimant's own clock. True iff the claimant owns the lease afterwards. */
    method ClaimLease(name: string, holder: Holder, now: int, ttlSeconds: int) returns (owned: bool)
      modifies this
      ensures rows == Claimed(old(rows), name, holder, now, ttlSeconds)
      ensures owned == Claims(old(rows), name, holder, now)
      ensures owned ==> name in rows && rows[name] == Lease(holder, now + ttlSeconds)
      ensures !owned ==> name in rows && rows[name].holder != holder && rows[name].expiresAt > now
      ensures forall other :: other != name ==> (other in rows <==> other in old(rows))
      ensures forall other :: other != name && other in rows ==> rows[other] == old(rows)[other]
    {
      var expiresAt := now + ttlSeconds;
      if name !in rows {
        rows := rows[name := Lease(holder, expiresAt)];
        owned := true;
      } else if rows[name].expiresAt <= now || rows[name].holder == holder {
        rows := rows[name := Lease(holder, expiresAt)];
        owned := true;
      } else {
        owned := false;
      }
    }
  }

  // ---------------------------------------------------------------------------------------
  // Workers racing for one sweep
  // ---------------------------------------------------------------------------------------

  const SWEEP_TTL := 3600
  const SWEEP_JOB_TIMEOUT := 900
  const RECONCILE_LEASE_TTL := 180
  const RECONCILE_HEARTBEAT := 60

  /**
   stay: how long a worker may be in the sweep's body (the job timeout).
   beat: the longest time between two heartbeats, cadence and delay together, if the sweep has one.
   raises: whether a heartbeat's claim may raise, which ends the heartbeat and leaves the worker in the body.
   skew: how far a worker's clock may be from real time, either way.
   lag: how long a claim may take from reading the clock to taking effect in the database.
   */
  datatype Params = Params(name: string, ttl: int, stay: nat, beat: Option<nat>, raises: bool, skew: nat, lag: nat)

  type SessionId = nat

  /**
   One execution of the sweep's body. `refreshed` is the real time of its last successful claim;
   `beating` says whether its heartbeat is running.
   */
  datatype Session = Session(holder: Holder, entered: int, refreshed: int, beating: bool)

  /** `written` is the real time of the last write to this sweep's row. */
  datatype State = State(now: int, rows: Table, active: map<SessionId, Session>, written: int)

  datatype Step =
    | Tick(elapsed: nat)
    | Enter(id: SessionId, holder: Holder, reading: int)      // claim; enter the body if it succeeds
    | Heartbeat(id: SessionId, reading: int)                  // self-refresh; the result is not looked at
    | HeartbeatDies(id: SessionId)                            // the claim raises, and nobody notices
    | Leave(id: SessionId)                                    // finish, time out, or crash
    | Elsewhere(name: string, holder: Holder, reading: int, ttl: int)   // a claim on another sweep

  /** A clock reading that can be behind a claim taking effect at real time `now`. */
  ghost predicate Plausible(p: Params, now: int, reading: int) {
    now - p.lag - p.skew <= reading <= now + p.skew
  }

  /** No worker outstays its job timeout, and a running heartbeat keeps its cadence. */
  ghost predicate OnTime(p: Params, now: int, session: Session) {
    now - session.entered <= p.stay && (session.beating && p.beat.Some? ==> now - session.refreshed <= p.beat.value)
  }

  ghost predicate Next(p: Params, s: State, step: Step, s': State) {
    match step
    case Tick(elapsed) =>
      && (forall id :: id in s.active ==> OnTime(p, s.now + elapsed, s.active[id]))
      && s' == s.(now := s.now + elapsed)
    case Enter(id, holder, reading) =>
      && id !in s.active && Plausible(p, s.now, reading)
      && s' == if Claims(s.rows, p.name, holder, reading) then
           s.(rows := Claimed(s.rows, p.name, holder, reading, p.ttl),
              active := s.active[id := Session(holder, s.now, s.now, p.beat.Some?)],
              written := s.now)
         else s
    case Heartbeat(id, reading) =>
      && id in s.active && s.active[id].beating && Plausible(p, s.now, reading)
      && var holder := s.active[id].holder;
         s' == if Claims(s.rows, p.name, holder, reading) then
           s.(rows := Claimed(s.rows, p.name, holder, reading, p.ttl),
              active := s.active[id := s.active[id].(refreshed := s.now)],
              written := s.now)
         else s
    case HeartbeatDies(id) =>
      && id in s.active && p.raises
      && s' == s.(active := s.active[id := s.active[id].(beating := false)])
    case Leave(id) =>
      s' == s.(active := s.active - {id})
    case Elsewhere(name, holder, reading, ttl) =>
      name != p.name && s' == s.(rows := Claimed(s.rows, name, holder, reading, ttl))
  }

  ghost predicate Init(p: Params, s: State) {
    s.active == map[] && p.name !in s.rows
  }

  ghost predicate IsRun(p: Params, states: seq<State>, steps: seq<Step>) {
    && |states| == |steps| + 1
    && Init(p, states[0])
    && forall i :: 0 <= i < |steps| ==> Next(p, states[i], steps[i], states[i + 1])
  }

  /** No two different holders are in the sweep's body. */
  ghost predicate Exclusive(s: State) {
    forall a, b :: a in s.active && b in s.active ==> s.active[a].holder == s.active[b].holder
  }

  ghost predicate AlwaysExclusive(p: Params) {
    forall states, steps, i :: IsRun(p, states, steps) && 0 <= i < |states| ==> Exclusive(states[i])
  }

  /** How long a worker may stay in the body after its last successful claim. */
  function Gap(p: Params): nat {
    if p.beat.Some? && !p.raises && p.beat.value < p.stay then p.beat.value else p.stay
  }

  // ---------------------------------------------------------------------------------------
  // Safety
  // ---------------------------------------------------------------------------------------

  /** Whoever is in the body has kept to its times. */
  ghost predicate Timely(p: Params, s: State) {
    forall id :: id in s.active ==>
      && OnTime(p, s.now, s.active[id])
      && s.active[id].entered <= s.active[id].refreshed <= s.now
      && (if s.active[id].beating then p.beat.Some? else p.beat.None? || p.raises)
  }

  /** How long a worker whose heartbeat runs may go without a claim. */
  function BeatGap(p: Params): nat {
    if p.beat.Some? && p.beat.value < p.stay then p.beat.value else p.stay
  }

  /** The workers of interest: all of them, or those whose heartbeat is running. */
  datatype Concern = Everyone | Beating

  function GapOf(p: Params, who: Concern): nat {
    if who == Beating then BeatGap(p) else Gap(p)
  }

  predicate Concerns(who: Concern, session: Session) {
    who == Everyone || session.beating
  }

  /** Whoever of them is in the body holds the row, and the row expires late enough. */
  ghost predicate Invariant(p: Params, who: Concern, s: State) {
    && Timely(p, s)
    && (forall id :: id in s.active && Concerns(who, s.active[id]) ==>
          && p.name in s.rows && s.rows[p.name].holder == s.active[id].holder
          && s.rows[p.name].expiresAt >= s.active[id].refreshed - p.lag - p.skew + p.ttl
          && 0 <= s.now - s.active[id].refreshed <= GapOf(p, who))
  }

  /** The TTL outlasts the longest stay without a claim, even with the clocks as far apart as they can be. */
  predicate Covers(p: Params, who: Concern) {
    GapOf(p, who) + p.lag + 2 * p.skew < p.ttl
  }

  /** While someone is in the body every other holder's claim fails. */
  lemma BodyBlocksOthers(p: Params, who: Concern, s: State, id: SessionId, holder: Holder, reading: int)
    requires Covers(p, who) && Invariant(p, who, s) && id in s.active && Concerns(who, s.active[id])
    requires holder != s.active[id].holder && Plausible(p, s.now, reading)
    ensures !Claims(s.rows, p.name, holder, reading)
  {
  }

  lemma NextKeepsTimely(p: Params, s: State, step: Step, s': State)
    requires Timely(p, s) && Next(p, s, step, s')
    ensures Timely(p, s')
  {
  }

  lemma NextKeepsInvariant(p: Params, who: Concern, s: State, step: Step, s': State)
    requires Covers(p, who) && Invariant(p, who, s) && Next(p, s, step, s')
    ensures Invariant(p, who, s')
  {
    NextKeepsTimely(p, s, step, s');
  }

  lemma {:induction false} RunIsTimely(p: Params, states: seq<State>, steps: seq<Step>, i: nat)
    requires IsRun(p, states, steps) && i < |states|
    ensures Timely(p, states[i])
  {
    if i > 0 {
      RunIsTimely(p, states, steps, i - 1);
      NextKeepsTimely(p, states[i - 1], steps[i - 1], states[i]);
    }
  }

  /** While the TTL covers the stay, whoever is in the body holds a row that outlives it. */
  lemma {:induction false} RunKeepsInvariant(p: Params, who: Concern, states: seq<State>, steps: seq<Step>, i: nat)
    requires Covers(p, who) && IsRun(p, states, steps) && i < |states|
    ensures Invariant(p, who, states[i])
  {
    if i > 0 {
      RunKeepsInvariant(p, who, states, steps, i - 1);
      NextKeepsInvariant(p, who, states[i - 1], steps[i - 1], states[i]);
    }
  }

  /** The earliest reading behind a claim that takes effect at `now`. */
  function SlowReading(p: Params, now: int): int { now - (p.lag + p.skew) }

  /**
   Two workers a and b: a claims with a slow clock, loses its heartbeat if it can, and stays as
   long as it may; b claims with a fast clock; if a still has a heartbeat, it fires.
   */
  ghost function OverlapStates(p: Params): seq<State> {
    var rowA := Lease("a", SlowReading(p, 0) + p.ttl);
    var rowB := Lease("b", Gap(p) + p.skew + p.ttl);
    var a, b := Session("a", 0, 0, p.beat.Some?), Session("b", Gap(p), Gap(p), p.beat.Some?);
    var a' := if p.raises then a.(beating := false) else a;
    [State(0, map[], map[], 0),
     State(0, map[p.name := rowA], map[0 := a], 0),
     State(0, map[p.name := rowA], map[0 := a'], 0),
     State(Gap(p), map[p.name := rowA], map[0 := a'], 0),
     State(Gap(p), map[p.name := rowB], map[0 := a', 1 := b], Gap(p))]
  }

  ghost function OverlapSteps(p: Params): seq<Step> {
    [Enter(0, "a", SlowReading(p, 0)),
     if p.raises then HeartbeatDies(0) else Tick(0),
     Tick(Gap(p)),
     Enter(1, "b", Gap(p) + p.skew)]
  }

  /** A TTL that does not cover the stay lets two different holders in: this run shows it. */
  lemma TtlTooShortOverlaps(p: Params)
    requires !Covers(p, Everyone)
    ensures IsRun(p, OverlapStates(p), OverlapSteps(p))
    ensures !Exclusive(OverlapStates(p)[4])
  {
    var states, steps := OverlapStates(p), OverlapSteps(p);
    assert Next(p, states[0], steps[0], states[1]);
    assert Next(p, states[1], steps[1], states[2]) by {
      assert p.raises ==> states[2].active == states[1].active[0 := states[1].active[0].(beating := false)];
    }
    assert Next(p, states[2], steps[2], states[3]);
    SecondEnters(p);
    assert "a" != "b" by { assert "a"[0] != "b"[0]; }
    assert 0 in states[4].active && 1 in states[4].active;
    assert states[4].active[0].holder == "a" && states[4].active[1].holder == "b";
  }

  lemma SecondEnters(p: Params)
    requires !Covers(p, Everyone)
    ensures Next(p, OverlapStates(p)[3], OverlapSteps(p)[3], OverlapStates(p)[4])
  {
    var s, s' := OverlapStates(p)[3], OverlapStates(p)[4];
    assert s.rows[p.name].expiresAt <= Gap(p) + p.skew;
    assert s.rows[p.name := Lease("b", Gap(p) + p.skew + p.ttl)] == s'.rows;
    assert s.active[1 := Session("b", Gap(p), Gap(p), p.beat.Some?)] == s'.active;
  }

  /**
   The lease excludes different holders in every run exactly when the TTL exceeds the longest
   unrefreshed stay plus the claim's lag plus twice the clock skew.
   */
  lemma ExclusionIffTtlCovers(p: Params)
    ensures Covers(p, Everyone) <==> AlwaysExclusive(p)
  {
    if Covers(p, Everyone) {
      forall states, steps, i | IsRun(p, states, steps) && 0 <= i < |states|
        ensures Exclusive(states[i])
      {
        RunKeepsInvariant(p, Everyone, states, steps, i);
      }
    } else {
      TtlTooShortOverlaps(p);
      assert |OverlapStates(p)| == 5;
    }
  }

  /** A sweep with a fixed lease: it is killed at the job timeout and never refreshes. */
  lemma FixedSweepExclusion(name: string, skew: nat, lag: nat)
    ensures lag + 2 * skew < SWEEP_TTL - SWEEP_JOB_TIMEOUT <==>
      AlwaysExclusive(Params(name, SWEEP_TTL, SWEEP_JOB_TIMEOUT, None, false, skew, lag))
  {
    ExclusionIffTtlCovers(Params(name, SWEEP_TTL, SWEEP_JOB_TIMEOUT, None, false, skew, lag));
  }

  /** The reconcile sweep: short lease, refreshed on the heartbeat's cadence give or take `delay`. */
  function Reconcile(name: string, delay: nat, raises: bool, skew: nat, lag: nat): Params {
    Params(name, RECONCILE_LEASE_TTL, SWEEP_JOB_TIMEOUT, Some(RECONCILE_HEARTBEAT + delay), raises, skew, lag)
  }

  /**
   While heartbeats never raise, the reconcile sweep excludes exactly when their delay, the
   claim's lag and twice the skew stay below two minutes. One that may raise leaves the worker
   in the body without a refresh, and no delay is small enough.
   */
  lemma ReconcileExclusion(name: string, delay: nat, skew: nat, lag: nat)
    ensures delay + lag + 2 * skew < RECONCILE_LEASE_TTL - RECONCILE_HEARTBEAT <==>
      AlwaysExclusive(Reconcile(name, delay, false, skew, lag))
    ensures !AlwaysExclusive(Reconcile(name, delay, true, skew, lag))
  {
    ExclusionIffTtlCovers(Reconcile(name, delay, false, skew, lag));
    ExclusionIffTtlCovers(Reconcile(name, delay, true, skew, lag));
  }

  // ---------------------------------------------------------------------------------------
  // Heartbeats
  // ---------------------------------------------------------------------------------------

  /** The claim behind a heartbeat goes through. */
  ghost predicate Refreshes(p: Params, s: State, step: Step)
    requires step.Heartbeat? && step.id in s.active
  {
    Claims(s.rows, p.name, s.active[step.id].holder, step.reading)
  }

  /** Every heartbeat of every run refreshes its worker's lease, so its result need not be looked at. */
  ghost predicate HeartbeatsAlwaysSucceed(p: Params) {
    forall states: seq<State>, steps: seq<Step>, i ::
      IsRun(p, states, steps) && 0 <= i < |steps| && steps[i].Heartbeat? ==>
      steps[i].id in states[i].active && Refreshes(p, states[i], steps[i])
  }

  /** Where a lease is over before the next clock reading, every claim goes through, whoever makes it. */
  predicate LeasesAreVoid(p: Params) {
    p.ttl + p.lag + 2 * p.skew <= 0
  }

  lemma RunGoesOn(p: Params, states: seq<State>, steps: seq<Step>, step: Step, s': State)
    requires IsRun(p, states, steps) && Next(p, states[|steps|], step, s')
    ensures IsRun(p, states + [s'], steps + [step])
  {
  }

  /** Nothing a run does without raising is ruled out by heartbeats that may raise. */
  lemma RaisingOnlyAdds(p: Params, states: seq<State>, steps: seq<Step>)
    requires IsRun(p.(raises := false), states, steps)
    ensures IsRun(p, states, steps)
  {
    forall i | 0 <= i < |steps|
      ensures Next(p, states[i], steps[i], states[i + 1])
    {
      assert Next(p.(raises := false), states[i], steps[i], states[i + 1]);
    }
  }

  /** In the overlap of a and b a heartbeat of a is refused: b holds the lease. */
  lemma OverlapRefusesHeartbeat(p: Params) returns (states: seq<State>, steps: seq<Step>)
    requires p.beat.Some? && !Covers(p, Beating) && !LeasesAreVoid(p)
    ensures IsRun(p, states, steps) && |steps| == 5 && steps[4].Heartbeat?
    ensures steps[4].id in states[4].active && !Refreshes(p, states[4], steps[4])
  {
    var q, beat := p.(raises := false), Heartbeat(0, SlowReading(p, BeatGap(p)));
    var s := OverlapStates(q)[4];
    TtlTooShortOverlaps(q);
    assert "a" != "b" by { assert "a"[0] != "b"[0]; }
    assert s.rows[p.name] == Lease("b", Gap(q) + p.skew + p.ttl) && s.active[0].holder == "a" && s.active[0].beating;
    assert Next(q, s, beat, s);
    RunGoesOn(q, OverlapStates(q), OverlapSteps(q), beat, s);
    states, steps := OverlapStates(q) + [s], OverlapSteps(q) + [beat];
    RaisingOnlyAdds(p, states, steps);
  }

  /** Where leases are void the row has always expired by the time of the next reading. */
  lemma VoidLeaseIsOver(p: Params, states: seq<State>, steps: seq<Step>, i: nat)
    requires LeasesAreVoid(p) && IsRun(p, states, steps) && i < |steps| && steps[i].Heartbeat?
    ensures steps[i].id in states[i].active && Refreshes(p, states[i], steps[i])
  {
    RunBoundsExpiry(p, states, steps, i);
    assert Next(p, states[i], steps[i], states[i + 1]);
  }

  /**
   Heartbeats always succeed exactly when the TTL outlasts the time between two of them plus the
   lag plus twice the skew, or there are none, or no lease lasts at all.
   */
  lemma HeartbeatAlwaysSucceeds(p: Params)
    ensures HeartbeatsAlwaysSucceed(p) <==> p.beat.None? || Covers(p, Beating) || LeasesAreVoid(p)
  {
    if p.beat.None? || Covers(p, Beating) || LeasesAreVoid(p) {
      forall states: seq<State>, steps: seq<Step>, i |
        IsRun(p, states, steps) && 0 <= i < |steps| && steps[i].Heartbeat?
        ensures steps[i].id in states[i].active && Refreshes(p, states[i], steps[i])
      {
        assert Next(p, states[i], steps[i], states[i + 1]);
        if LeasesAreVoid(p) {
          VoidLeaseIsOver(p, states, steps, i);
        } else if p.beat.Some? {
          RunKeepsInvariant(p, Beating, states, steps, i);
        } else {
          RunIsTimely(p, states, steps, i);
        }
      }
    } else {
      var states, steps := OverlapRefusesHeartbeat(p);
    }
  }

  // ---------------------------------------------------------------------------------------
  // Recovery
  // ---------------------------------------------------------------------------------------

  /** The row never promises more than one TTL past its last write, as a fast clock sees it. */
  ghost predicate BoundedExpiry(p: Params, s: State) {
    p.name in s.rows ==> s.written <= s.now && s.rows[p.name].expiresAt <= s.written + p.skew + p.ttl
  }

  lemma {:induction false} RunBoundsExpiry(p: Params, states: seq<State>, steps: seq<Step>, i: nat)
    requires IsRun(p, states, steps) && i < |states|
    ensures BoundedExpiry(p, states[i])
  {
    if i > 0 {
      RunBoundsExpiry(p, states, steps, i - 1);
      assert Next(p, states[i - 1], steps[i - 1], states[i]);
    }
  }

  /** How long after the last write any claim goes through. */
  function RecoveryTime(p: Params): int {
    p.ttl + p.lag + 2 * p.skew
  }

  /**
   A crashed holder cannot wedge a sweep: once the row has not been written for a TTL plus the
   lag plus twice the skew, the next claim succeeds, whoever makes it.
   */
  lemma CrashedHolderIsSuperseded(p: Params, states: seq<State>, steps: seq<Step>, i: nat)
    requires IsRun(p, states, steps) && i < |steps| && steps[i].Enter?
    requires states[i].now >= states[i].written + RecoveryTime(p)
    ensures var now := states[i].now;
      states[i + 1].active == states[i].active[steps[i].id := Session(steps[i].holder, now, now, p.beat.Some?)]
  {
    RunBoundsExpiry(p, states, steps, i);
    assert Next(p, states[i], steps[i], states[i + 1]);
  }

  /** a enters with its clock ahead and crashes; b claims with its clock behind, one unit too early. */
  function CrashSteps(p: Params): seq<Step>
    requires RecoveryTime(p) > 0
  {
    [Enter(0, "a", p.skew), Leave(0), Tick(RecoveryTime(p) - 1), Enter(1, "b", p.ttl + p.skew - 1)]
  }

  function CrashStates(p: Params): seq<State>
    requires RecoveryTime(p) > 0
  {
    var row := map[p.name := Lease("a", p.skew + p.ttl)];
    var late := State(RecoveryTime(p) - 1, row, map[], 0);
    [State(0, map[], map[], 0), State(0, row, map[0 := Session("a", 0, 0, p.beat.Some?)], 0), State(0, row, map[], 0),
     late, late]
  }

  /** The wait is exact: in this run the claim of another worker, one unit of time before it is over, is refused. */
  lemma WaitIsExact(p: Params)
    requires RecoveryTime(p) > 0
    ensures IsRun(p, CrashStates(p), CrashSteps(p))
    ensures var s := CrashStates(p)[3];
      && s.now == s.written + RecoveryTime(p) - 1
      && CrashSteps(p)[3].Enter? && !Claims(s.rows, p.name, "b", CrashSteps(p)[3].reading)
      && CrashStates(p)[4].active == map[]
  {
    var states, steps := CrashStates(p), CrashSteps(p);
    assert "a" != "b" by { assert "a"[0] != "b"[0]; }
    assert map[][p.name := Lease("a", p.skew + p.ttl)] == states[1].rows;
    assert map[][0 := Session("a", 0, 0, p.beat.Some?)] == states[1].active;
    assert Next(p, states[0], steps[0], states[1]);
    assert states[1].active - {0} == map[];
    assert Next(p, states[1], steps[1], states[2]);
    assert Next(p, states[2], steps[2], states[3]);
    assert Next(p, states[3], steps[3], states[4]);
  }
}
