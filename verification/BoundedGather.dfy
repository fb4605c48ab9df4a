/**
 The fleet sweeps: per-repository tasks run under a semaphore, a rate gate shared by the tasks
 stops new fetches once the API budget runs low, and failures are dropped from the result.
 */
module BoundedGather {
  import opened Common

  /** How a task ended: a value, an exception that is logged and dropped, or one that must propagate. */
  datatype Outcome = Value(v: int) | Error | Cancelled

  datatype Pc =
    | Queued                  // waiting for the semaphore
    | Entered                 // admitted, has not looked at the gate
    | Cleared                 // found the gate open, has not fetched yet
    | Fetched                 // fetched, has not reported the budget
    | Noted                   // reported the budget, still writing
    | Ended(outcome: Outcome)

  /** `free` is the semaphore's value; `lateFetches` counts fetches made after the gate tripped. */
  datatype State = State(limit: nat, free: nat, tripped: bool, tasks: seq<Pc>, lateFetches: nat)

  datatype Step =
    | Admit(t: nat)
    | LookAtGate(t: nat)
    | Fetch(t: nat)
    | Note(t: nat, below: bool)
    | Finish(t: nat, outcome: Outcome)   // return, raise or be cancelled, from wherever the task stands
    | Cancel(t: nat)                     // be cancelled while still waiting for the semaphore

  predicate Running(pc: Pc) { !pc.Queued? && !pc.Ended? }

  function Moved(s: State, t: nat, pc: Pc): State
    requires t < |s.tasks|
  {
    s.(tasks := s.tasks[t := pc])
  }

  ghost predicate Next(s: State, step: Step, s': State) {
    && step.t < |s.tasks|
    && var t, pc := step.t, s.tasks[step.t];
       match step
       case Admit(_) => pc.Queued? && s.free > 0 && s' == Moved(s, t, Entered).(free := s.free - 1)
       case LookAtGate(_) =>
         && pc.Entered?
         && s' == if s.tripped then Moved(s, t, Ended(Value(0))).(free := s.free + 1) else Moved(s, t, Cleared)
       case Fetch(_) =>
         && pc.Cleared?
         && s' == Moved(s, t, Fetched).(lateFetches := s.lateFetches + if s.tripped then 1 else 0)
       case Note(_, below) => pc.Fetched? && s' == Moved(s, t, Noted).(tripped := s.tripped || below)
       case Cancel(_) => pc.Queued? && s' == Moved(s, t, Ended(Cancelled))
       case Finish(_, outcome) => Running(pc) && s' == Moved(s, t, Ended(outcome)).(free := s.free + 1)
  }

  ghost predicate Init(s: State) {
    && s.limit >= 1 && s.free == s.limit && !s.tripped && s.lateFetches == 0
    && forall t :: 0 <= t < |s.tasks| ==> s.tasks[t].Queued?
  }

  ghost predicate IsRun(states: seq<State>, steps: seq<Step>) {
    && |states| == |steps| + 1
    && Init(states[0])
    && forall i :: 0 <= i < |steps| ==> Next(states[i], steps[i], states[i + 1])
  }

  // ---------------------------------------------------------------------------------------
  // Counting tasks
  // ---------------------------------------------------------------------------------------

  function Count(tasks: seq<Pc>, p: Pc -> bool): nat {
    if tasks == [] then 0 else (if p(tasks[0]) then 1 else 0) + Count(tasks[1..], p)
  }

  lemma {:induction false} CountUpdate(tasks: seq<Pc>, p: Pc -> bool, t: nat, pc: Pc)
    requires t < |tasks|
    ensures Count(tasks[t := pc], p) + (if p(tasks[t]) then 1 else 0) == Count(tasks, p) + (if p(pc) then 1 else 0)
  {
    var after := tasks[t := pc];
    if t == 0 {
      assert after[1..] == tasks[1..];
    } else {
      assert after[1..] == tasks[1..][t - 1 := pc];
      CountUpdate(tasks[1..], p, t - 1, pc);
    }
  }

  lemma {:induction false} CountIsSmaller(tasks: seq<Pc>, p: Pc -> bool, q: Pc -> bool)
    requires forall pc :: p(pc) ==> q(pc)
    ensures Count(tasks, p) <= Count(tasks, q)
    ensures (exists t :: 0 <= t < |tasks| && q(tasks[t]) && !p(tasks[t])) ==> Count(tasks, p) < Count(tasks, q)
  {
    if tasks != [] {
      CountIsSmaller(tasks[1..], p, q);
      if t :| 0 <= t < |tasks| && q(tasks[t]) && !p(tasks[t]) {
        assert t > 0 ==> tasks[1..][t - 1] == tasks[t];
      }
    }
  }

  lemma {:induction false} CountNone(tasks: seq<Pc>, p: Pc -> bool)
    requires forall t :: 0 <= t < |tasks| ==> !p(tasks[t])
    ensures Count(tasks, p) == 0
  {
    if tasks != [] {
      CountNone(tasks[1..], p);
    }
  }

  function RunningCount(s: State): nat { Count(s.tasks, Running) }

  predicate IsCleared(pc: Pc) { pc.Cleared? }

  function ClearedCount(s: State): nat { Count(s.tasks, IsCleared) }

  // ---------------------------------------------------------------------------------------
  // The bounds
  // ---------------------------------------------------------------------------------------

  /** Permits are conserved; once the gate has tripped, fetches made and still to come stay below the limit. */
  ghost predicate Invariant(s: State) {
    && s.limit >= 1
    && s.free + RunningCount(s) == s.limit
    && (!s.tripped ==> s.lateFetches == 0)
    && (s.tripped ==> s.lateFetches + ClearedCount(s) <= s.limit - 1)
  }

  lemma NextKeepsInvariant(s: State, step: Step, s': State)
    requires Invariant(s) && Next(s, step, s')
    ensures Invariant(s')
    ensures s'.limit == s.limit && |s'.tasks| == |s.tasks|
  {
    var t := step.t;
    CountUpdate(s.tasks, Running, t, s'.tasks[t]);
    CountUpdate(s.tasks, IsCleared, t, s'.tasks[t]);
    if step.Note? {
      CountIsSmaller(s.tasks, IsCleared, Running);
    }
  }

  lemma {:induction false} RunKeepsInvariant(states: seq<State>, steps: seq<Step>, i: nat)
    requires IsRun(states, steps) && i < |states|
    ensures Invariant(states[i])
    ensures states[i].limit == states[0].limit && |states[i].tasks| == |states[0].tasks|
  {
    if i == 0 {
      CountNone(states[0].tasks, Running);
    } else {
      RunKeepsInvariant(states, steps, i - 1);
      NextKeepsInvariant(states[i - 1], steps[i - 1], states[i]);
    }
  }

  /** In every schedule at most `limit` tasks run at once. */
  lemma NeverMoreThanLimit(states: seq<State>, steps: seq<Step>, i: nat)
    requires IsRun(states, steps) && i < |states|
    ensures RunningCount(states[i]) <= states[0].limit
  {
    RunKeepsInvariant(states, steps, i);
  }

  /** After the gate trips, at most limit - 1 further repositories are fetched. */
  lemma FewLateFetches(states: seq<State>, steps: seq<Step>, i: nat)
    requires IsRun(states, steps) && i < |states|
    ensures states[i].lateFetches <= states[0].limit - 1
  {
    RunKeepsInvariant(states, steps, i);
  }

  /** How many repositories are fetched in a stretch of a run. */
  function Fetches(steps: seq<Step>): nat {
    if steps == [] then 0 else Fetches(steps[..|steps| - 1]) + if steps[|steps| - 1].Fetch? then 1 else 0
  }

  lemma OneMoreFetch(steps: seq<Step>, from: nat, n: nat)
    requires from < n <= |steps|
    ensures Fetches(steps[from..n]) == Fetches(steps[from..n - 1]) + if steps[n - 1].Fetch? then 1 else 0
  {
    assert steps[from..n][..n - from - 1] == steps[from..n - 1];
  }

  lemma {:induction false} LateIsCounted(states: seq<State>, steps: seq<Step>, i: nat, n: nat)
    requires IsRun(states, steps) && i < n <= |steps| && steps[i].Note? && steps[i].below
    ensures states[n].tripped && states[n].lateFetches == states[i + 1].lateFetches + Fetches(steps[i + 1..n])
  {
    hide Fetches;
    if n == i + 1 {
      assert Next(states[i], steps[i], states[i + 1]);
      NoFetches();
      assert steps[i + 1..n] == [];
    } else {
      LateIsCounted(states, steps, i, n - 1);
      assert Next(states[n - 1], steps[n - 1], states[n]);
      OneMoreFetch(steps, i + 1, n);
    }
  }

  lemma NoFetches()
    ensures Fetches([]) == 0
  {
  }

  /** Once a task has reported a budget below the floor, at most limit - 1 further repositories are fetched. */
  lemma FewFetchesAfterReport(states: seq<State>, steps: seq<Step>, i: nat, n: nat)
    requires IsRun(states, steps) && i < n <= |steps| && steps[i].Note? && steps[i].below
    ensures Fetches(steps[i + 1..n]) <= states[0].limit - 1
  {
    LateIsCounted(states, steps, i, n);
    FewLateFetches(states, steps, n);
  }

  /** A task that is no longer queued never is again. */
  lemma {:induction false} NeverRequeued(states: seq<State>, steps: seq<Step>, i: nat, j: nat, t: nat)
    requires IsRun(states, steps) && i <= j < |states|
    requires t < |states[i].tasks| && !states[i].tasks[t].Queued?
    ensures t < |states[j].tasks| && !states[j].tasks[t].Queued?
  {
    if i < j {
      NeverRequeued(states, steps, i, j - 1, t);
      assert Next(states[j - 1], steps[j - 1], states[j]);
    }
  }

  /** A task that is not waiting any more was admitted at some step before, or cancelled as it waited. */
  lemma {:induction false} EndedWasStarted(states: seq<State>, steps: seq<Step>, i: nat, t: nat) returns (k: nat)
    requires IsRun(states, steps) && i < |states|
    requires t < |states[i].tasks| && !states[i].tasks[t].Queued?
    ensures k < i && (steps[k] == Admit(t) || (steps[k] == Cancel(t) && states[i].tasks[t] == Ended(Cancelled)))
  {
    assert i > 0;
    assert Next(states[i - 1], steps[i - 1], states[i]);
    if states[i - 1].tasks[t].Queued? {
      k := i - 1;
    } else {
      k := EndedWasStarted(states, steps, i - 1, t);
    }
  }

  /** No task is started twice. */
  lemma StartedOnce(states: seq<State>, steps: seq<Step>, i: nat, j: nat)
    requires IsRun(states, steps) && i < |steps| && j < |steps|
    requires steps[i].Admit? && steps[j].Admit? && steps[i].t == steps[j].t
    ensures i == j
  {
    var a, b := if i <= j then i else j, if i <= j then j else i;
    assert Next(states[a], steps[a], states[a + 1]);
    assert Next(states[b], steps[b], states[b + 1]);
    if a < b {
      NeverRequeued(states, steps, a + 1, b, steps[a].t);
    }
  }

  // ---------------------------------------------------------------------------------------
  // The sweep drains
  // ---------------------------------------------------------------------------------------

  /** How many steps a task can still take. */
  function Left(pc: Pc): nat {
    match pc
    case Queued => 5
    case Entered => 4
    case Cleared => 3
    case Fetched => 2
    case Noted => 1
    case Ended(_) => 0
  }

  function TotalLeft(tasks: seq<Pc>): nat {
    if tasks == [] then 0 else Left(tasks[0]) + TotalLeft(tasks[1..])
  }

  lemma {:induction false} LeftUpdate(tasks: seq<Pc>, t: nat, pc: Pc)
    requires t < |tasks|
    ensures TotalLeft(tasks[t := pc]) + Left(tasks[t]) == TotalLeft(tasks) + Left(pc)
  {
    var after := tasks[t := pc];
    if t == 0 {
      assert after[1..] == tasks[1..];
    } else {
      assert after[1..] == tasks[1..][t - 1 := pc];
      LeftUpdate(tasks[1..], t - 1, pc);
    }
  }

  lemma {:induction false} LeftAtMost(tasks: seq<Pc>)
    ensures TotalLeft(tasks) <= 5 * |tasks|
  {
    if tasks != [] {
      LeftAtMost(tasks[1..]);
    }
  }

  lemma {:induction false} StepsUseUp(states: seq<State>, steps: seq<Step>, i: nat)
    requires IsRun(states, steps) && i < |states|
    ensures i + TotalLeft(states[i].tasks) <= TotalLeft(states[0].tasks)
  {
    if i > 0 {
      StepsUseUp(states, steps, i - 1);
      var s, step := states[i - 1], steps[i - 1];
      assert Next(s, step, states[i]);
      LeftUpdate(s.tasks, step.t, states[i].tasks[step.t]);
    }
  }

  /** No schedule takes more than five steps a task, and none gets stuck before every task has ended. */
  lemma SweepDrains(states: seq<State>, steps: seq<Step>)
    requires IsRun(states, steps)
    ensures |steps| <= 5 * |states[0].tasks|
    ensures var last := states[|steps|];
      (forall t :: 0 <= t < |last.tasks| ==> last.tasks[t].Ended?) || exists step, s' :: Next(last, step, s')
  {
    var last := states[|steps|];
    StepsUseUp(states, steps, |steps|);
    LeftAtMost(states[0].tasks);
    RunKeepsInvariant(states, steps, |steps|);
    if t :| 0 <= t < |last.tasks| && !last.tasks[t].Ended? {
      if last.tasks[t].Queued? {
        if last.free > 0 {
          assert Next(last, Admit(t), Moved(last, t, Entered).(free := last.free - 1));
        } else {
          var r := SomeoneRuns(last.tasks);
          assert Next(last, Finish(r, Error), Moved(last, r, Ended(Error)).(free := last.free + 1));
        }
      } else {
        assert Next(last, Finish(t, Error), Moved(last, t, Ended(Error)).(free := last.free + 1));
      }
    }
  }

  lemma SomeoneRuns(tasks: seq<Pc>) returns (t: nat)
    requires Count(tasks, Running) > 0
    ensures t < |tasks| && Running(tasks[t])
  {
    if forall i :: 0 <= i < |tasks| ==> !Running(tasks[i]) {
      CountNone(tasks, Running);
    }
    t :| 0 <= t < |tasks| && Running(tasks[t]);
  }

  // ---------------------------------------------------------------------------------------
  // The result
  // ---------------------------------------------------------------------------------------

  /** The values of the tasks that succeeded, in input order. */
  function Successes(results: seq<Outcome>): seq<int> {
    if results == [] then []
    else
      var last := results[|results| - 1];
      Successes(results[..|results| - 1]) + if last.Value? then [last.v] else []
  }

  /** Failures are dropped; anything else that was raised propagates. */
  method Collect(results: seq<Outcome>) returns (r: Result<seq<int>>)
    ensures r.Raised? <==> Cancelled in results
    ensures r.Ok? ==> r.value == Successes(results)
  {
    var out: seq<int> := [];
    assert results[..|results|] == results;
    for k := 0 to |results|
      invariant Cancelled !in results[..k]
      invariant out == Successes(results[..k])
    {
      assert results[..k + 1][..k] == results[..k];
      match results[k]
      case Error =>
      case Cancelled => return Raised;
      case Value(v) => out := out + [v];
    }
    return Ok(out);
  }

  /** The positions of the successes. */
  function Positions(results: seq<Outcome>): seq<nat> {
    if results == [] then []
    else Positions(results[..|results| - 1]) + if results[|results| - 1].Value? then [|results| - 1] else []
  }

  /** vs are the values at ps, which lists the positions of all successes in increasing order. */
  ghost predicate Lists(results: seq<Outcome>, ps: seq<nat>, vs: seq<int>) {
    && |ps| == |vs|
    && (forall k :: 0 <= k < |ps| ==> ps[k] < |results| && results[ps[k]] == Value(vs[k]))
    && (forall j, k :: 0 <= j < k < |ps| ==> ps[j] < ps[k])
    && (forall i :: 0 <= i < |results| && results[i].Value? ==> i in ps)
  }

  lemma FailureKeepsList(before: seq<Outcome>, last: Outcome, ps: seq<nat>, vs: seq<int>)
    requires Lists(before, ps, vs) && !last.Value?
    ensures Lists(before + [last], ps, vs)
  {
  }

  lemma SuccessExtendsList(before: seq<Outcome>, v: int, ps: seq<nat>, vs: seq<int>)
    requires Lists(before, ps, vs)
    ensures Lists(before + [Value(v)], ps + [|before|], vs + [v])
  {
    var after, qs := before + [Value(v)], ps + [|before|];
    forall i | 0 <= i < |after| && after[i].Value?
      ensures i in qs
    {
      if i < |before| {
        assert before[i].Value? && i in ps;
      } else {
        assert qs[|ps|] == i;
      }
    }
  }

  /** Input order: the successes are the values at a strictly increasing list of positions, all of them. */
  lemma {:induction false} SuccessesKeepOrder(results: seq<Outcome>)
    ensures Lists(results, Positions(results), Successes(results))
  {
    if results != [] {
      var before, last := results[..|results| - 1], results[|results| - 1];
      SuccessesKeepOrder(before);
      assert results == before + [last];
      if last.Value? {
        SuccessExtendsList(before, last.v, Positions(before), Successes(before));
      } else {
        FailureKeepsList(before, last, Positions(before), Successes(before));
        assert Positions(results) == Positions(before) && Successes(results) == Successes(before);
      }
    }
  }

  // ---------------------------------------------------------------------------------------
  // The result of a sweep
  // ---------------------------------------------------------------------------------------

  predicate AllEnded(tasks: seq<Pc>) {
    forall t :: 0 <= t < |tasks| ==> tasks[t].Ended?
  }

  /** What gather returns: the outcome of each task, in the order the tasks were given. */
  function Gathered(tasks: seq<Pc>): seq<Outcome>
    requires AllEnded(tasks)
  {
    seq(|tasks|, t requires 0 <= t < |tasks| => tasks[t].outcome)
  }

  /** The step a task ended in, from the state it ended in on. */
  lemma {:induction false} OutcomeOf(states: seq<State>, steps: seq<Step>, i: nat, t: nat) returns (k: nat)
    requires IsRun(states, steps) && i < |states| && t < |states[i].tasks| && states[i].tasks[t].Ended?
    ensures k < i && steps[k].t == t && t < |states[k].tasks| && !states[k].tasks[t].Ended?
    ensures match steps[k]
      case Finish(_, outcome) => states[i].tasks[t] == Ended(outcome)
      case Cancel(_) => states[i].tasks[t] == Ended(Cancelled)
      case LookAtGate(_) => states[k].tripped && states[i].tasks[t] == Ended(Value(0))
      case _ => false
  {
    assert i > 0;
    assert Next(states[i - 1], steps[i - 1], states[i]);
    if states[i - 1].tasks[t].Ended? {
      k := OutcomeOf(states, steps, i - 1, t);
    } else {
      k := i - 1;
    }
  }

  /**
   The result of a sweep, in every schedule: one value for each task that finished with one or
   found the gate tripped, in the order the tasks were given; it is raised instead exactly if
   some task was cancelled.
   */
  lemma SweepResult(states: seq<State>, steps: seq<Step>, t: nat)
    requires IsRun(states, steps) && AllEnded(states[|steps|].tasks) && t < |states[0].tasks|
    ensures var results := Gathered(states[|steps|].tasks);
      && |results| == |states[0].tasks| && Lists(results, Positions(results), Successes(results))
      && (t in Positions(results) <==>
            exists k :: 0 <= k < |steps| && steps[k].t == t && EndsWithValue(states[k], steps[k]))
      && (results[t] == Cancelled <==>
            exists k :: 0 <= k < |steps| && (steps[k] == Cancel(t) || steps[k] == Finish(t, Cancelled)))
  {
    var results := Gathered(states[|steps|].tasks);
    RunKeepsInvariant(states, steps, |steps|);
    SuccessesKeepOrder(results);
    var k := OutcomeOf(states, steps, |steps|, t);
    forall j | 0 <= j < |steps| && steps[j].t == t && Ends(states[j], steps[j])
      ensures j == k
    {
      EndsOnce(states, steps, if j <= k then j else k, if j <= k then k else j, t);
    }
    assert Next(states[k], steps[k], states[k + 1]);
  }

  /** The step ends its task. */
  predicate Ends(s: State, step: Step) {
    match step
    case Finish(_, _) => true
    case Cancel(_) => true
    case LookAtGate(_) => s.tripped
    case _ => false
  }

  predicate EndsWithValue(s: State, step: Step) {
    (step.Finish? && step.outcome.Value?) || (step.LookAtGate? && s.tripped)
  }

  lemma {:induction false} StaysEnded(states: seq<State>, steps: seq<Step>, i: nat, j: nat, t: nat)
    requires IsRun(states, steps) && i <= j < |states| && t < |states[i].tasks| && states[i].tasks[t].Ended?
    ensures t < |states[j].tasks| && states[j].tasks[t] == states[i].tasks[t]
  {
    if i < j {
      StaysEnded(states, steps, i, j - 1, t);
      assert Next(states[j - 1], steps[j - 1], states[j]);
    }
  }

  lemma EndsOnce(states: seq<State>, steps: seq<Step>, i: nat, j: nat, t: nat)
    requires IsRun(states, steps) && i <= j < |steps| && steps[i].t == t && steps[j].t == t
    requires Ends(states[i], steps[i]) && Ends(states[j], steps[j])
    ensures i == j
  {
    assert Next(states[i], steps[i], states[i + 1]);
    assert Next(states[j], steps[j], states[j + 1]);
    if i < j {
      StaysEnded(states, steps, i + 1, j, t);
    }
  }
}
