/**
 Webhook intake: look the delivery id up, enqueue a job under that id, record the id,
 acknowledge. Handlers run concurrently, crash between any two steps, and GitHub redelivers
 whatever was not acknowledged. The queue refuses the id of a job that is waiting or running, and
 that of a finished job as long as it keeps the result.
 */
module Delivery {
  import opened Common

  type DeliveryId = string
  type Handler = nat

  const KEEP_RESULT := 3600

  datatype Job = Job(id: DeliveryId, at: int)

  datatype Response = Accepted | Duplicate | ServerError

  datatype Pc =
    | Received(id: DeliveryId)              // validated, about to look the id up
    | Unseen(id: DeliveryId)                // not recorded, about to enqueue
    | Enqueued(id: DeliveryId)              // about to record
    | Recorded(id: DeliveryId)              // about to answer
    | Responded(id: DeliveryId, response: Response)

  /**
   `jobs` are all the jobs the queue ever took, in order; `unfinished` the ids of those still
   waiting or running; `results` when a job finished, while its result is kept.
   */
  datatype State = State(now: int, jobs: seq<Job>, unfinished: set<DeliveryId>, results: map<DeliveryId, int>,
                         recorded: set<DeliveryId>, acked: set<DeliveryId>, handlers: map<Handler, Pc>)

  datatype Queueing = Unreached | ReachedButRaised | Reached

  datatype Step =
    | Tick(elapsed: nat)
    | Deliver(h: Handler, id: DeliveryId)
    | LookUp(h: Handler)
    | Enqueue(h: Handler, queueing: Queueing)
    | Record(h: Handler)
    | Answer(h: Handler)
    | Crash(h: Handler)                     // the handler dies or its database call raises
    | Work(id: DeliveryId)                  // a worker finishes the job and leaves its result
    | Expire(id: DeliveryId)                // the queue drops a result it has kept for its time
    | Prune(ids: set<DeliveryId>)           // the retention sweep deletes old records

  function Moved(s: State, h: Handler, pc: Pc): State {
    s.(handlers := s.handlers[h := pc])
  }

  predicate Refuses(s: State, id: DeliveryId) {
    id in s.unfinished || id in s.results
  }

  /** The queue takes a job unless it refuses the id. */
  function Taken(s: State, id: DeliveryId): State {
    if Refuses(s, id) then s
    else s.(jobs := s.jobs + [Job(id, s.now)], unfinished := s.unfinished + {id})
  }

  ghost predicate Next(s: State, step: Step, s': State) {
    match step
    case Tick(elapsed) => s' == s.(now := s.now + elapsed)
    case Deliver(h, id) =>
      && (h in s.handlers ==> s.handlers[h].Responded?)
      && s' == Moved(s, h, Received(id))
    case LookUp(h) =>
      && h in s.handlers && s.handlers[h].Received?
      && var id := s.handlers[h].id;
         s' == if id in s.recorded then Moved(s, h, Responded(id, Duplicate)).(acked := s.acked + {id})
               else Moved(s, h, Unseen(id))
    case Enqueue(h, queueing) =>
      && h in s.handlers && s.handlers[h].Unseen?
      && var id := s.handlers[h].id;
         s' == (match queueing
                case Unreached => Moved(s, h, Responded(id, ServerError))
                case ReachedButRaised => Moved(Taken(s, id), h, Responded(id, ServerError))
                case Reached => Moved(Taken(s, id), h, Enqueued(id)))
    case Record(h) =>
      && h in s.handlers && s.handlers[h].Enqueued?
      && var id := s.handlers[h].id;
         s' == Moved(s, h, Recorded(id)).(recorded := s.recorded + {id})
    case Answer(h) =>
      && h in s.handlers && s.handlers[h].Recorded?
      && var id := s.handlers[h].id;
         s' == Moved(s, h, Responded(id, Accepted)).(acked := s.acked + {id})
    case Crash(h) => s' == s.(handlers := s.handlers - {h})
    case Work(id) =>
      id in s.unfinished && s' == s.(unfinished := s.unfinished - {id}, results := s.results[id := s.now])
    case Expire(id) =>
      && id in s.results && s.now >= s.results[id] + KEEP_RESULT
      && s' == s.(results := s.results - {id})
    case Prune(ids) => s' == s.(recorded := s.recorded - ids)
  }

  ghost predicate Init(s: State) {
    s.jobs == [] && s.unfinished == {} && s.results == map[] && s.recorded == {} && s.acked == {} && s.handlers == map[]
  }

  ghost predicate IsRun(states: seq<State>, steps: seq<Step>) {
    && |states| == |steps| + 1
    && Init(states[0])
    && forall i :: 0 <= i < |steps| ==> Next(states[i], steps[i], states[i + 1])
  }

  // ---------------------------------------------------------------------------------------
  // Safety
  // ---------------------------------------------------------------------------------------

  predicate WasEnqueued(s: State, id: DeliveryId) {
    exists i :: 0 <= i < |s.jobs| && s.jobs[i].id == id
  }

  ghost predicate EnqueuedFirst(s: State) {
    && (forall id :: Refuses(s, id) || id in s.recorded || id in s.acked ==> WasEnqueued(s, id))
    && (forall h :: h in s.handlers && (s.handlers[h].Enqueued? || s.handlers[h].Recorded?) ==>
          WasEnqueued(s, s.handlers[h].id))
  }

  /** A job is unfinished, or its result is kept, or it is older than results are kept. */
  predicate Remembered(s: State, job: Job) {
    || job.id in s.unfinished
    || (job.id in s.results && s.results[job.id] >= job.at)
    || s.now >= job.at + KEEP_RESULT
  }

  ghost predicate Spaced(s: State) {
    && (forall job :: job in s.jobs ==> job.at <= s.now && Remembered(s, job))
    && (forall i, j :: 0 <= i < j < |s.jobs| && s.jobs[i].id == s.jobs[j].id ==>
          s.jobs[j].at >= s.jobs[i].at + KEEP_RESULT)
  }

  lemma TakenEnqueues(s: State, id: DeliveryId)
    requires EnqueuedFirst(s)
    ensures WasEnqueued(Taken(s, id), id)
    ensures forall x :: WasEnqueued(s, x) ==> WasEnqueued(Taken(s, id), x)
  {
    var t := Taken(s, id);
    if !Refuses(s, id) {
      assert t.jobs[|s.jobs|].id == id;
      forall x | WasEnqueued(s, x)
        ensures WasEnqueued(t, x)
      {
        var i :| 0 <= i < |s.jobs| && s.jobs[i].id == x;
        assert t.jobs[i].id == x;
      }
    }
  }

  lemma TakenKeeps(s: State, id: DeliveryId)
    requires Spaced(s)
    ensures Spaced(Taken(s, id))
  {
  }

  /** Outside the queue a step leaves jobs and results alone. */
  lemma QueueSteps(s: State, step: Step, s': State)
    requires Next(s, step, s')
    ensures s'.now >= s.now
    ensures !step.Enqueue? ==> s'.jobs == s.jobs
    ensures step.Enqueue? ==> step.h in s.handlers && s.handlers[step.h].Unseen? && s'.now == s.now
    ensures step.Enqueue? ==>
      (s'.jobs, s'.unfinished, s'.results) == (s.jobs, s.unfinished, s.results)
      || (var t := Taken(s, s.handlers[step.h].id);
          (s'.jobs, s'.unfinished, s'.results) == (t.jobs, t.unfinished, t.results))
    ensures !step.Enqueue? && !step.Work? && !step.Expire? ==> (s'.unfinished, s'.results) == (s.unfinished, s.results)
  {
  }

  lemma NextKeepsSpaced(s: State, step: Step, s': State)
    requires Spaced(s) && Next(s, step, s')
    ensures Spaced(s')
  {
    QueueSteps(s, step, s');
    if step.Enqueue? {
      TakenKeeps(s, s.handlers[step.h].id);
    } else {
      RememberedStays(s, step, s');
    }
  }

  lemma RememberedStays(s: State, step: Step, s': State)
    requires Next(s, step, s') && !step.Enqueue?
    ensures forall job: Job :: job.at <= s.now && Remembered(s, job) ==> Remembered(s', job)
  {
  }

  lemma NextKeepsFirst(s: State, step: Step, s': State)
    requires EnqueuedFirst(s) && Next(s, step, s')
    ensures EnqueuedFirst(s')
  {
    hide WasEnqueued;
    StaysEnqueued(s, step, s');
  }

  /** What was enqueued stays so, and a step that reaches the queue enqueues. */
  lemma StaysEnqueued(s: State, step: Step, s': State)
    requires EnqueuedFirst(s) && Next(s, step, s')
    ensures forall x :: WasEnqueued(s, x) ==> WasEnqueued(s', x)
    ensures step.Enqueue? && step.queueing != Unreached ==> WasEnqueued(s', s.handlers[step.h].id)
  {
    QueueSteps(s, step, s');
    if step.Enqueue? {
      TakenEnqueues(s, s.handlers[step.h].id);
    }
  }

  lemma NextKeepsSafety(s: State, step: Step, s': State)
    requires EnqueuedFirst(s) && Spaced(s) && Next(s, step, s')
    ensures EnqueuedFirst(s') && Spaced(s')
  {
    NextKeepsFirst(s, step, s');
    NextKeepsSpaced(s, step, s');
  }

  lemma {:induction false} RunIsSafe(states: seq<State>, steps: seq<Step>, i: nat)
    requires IsRun(states, steps) && i < |states|
    ensures EnqueuedFirst(states[i]) && Spaced(states[i])
  {
    if i > 0 {
      RunIsSafe(states, steps, i - 1);
      NextKeepsSafety(states[i - 1], steps[i - 1], states[i]);
    }
  }

  /** No event is lost: whatever was recorded or acknowledged had been enqueued. */
  lemma NothingIsLost(states: seq<State>, steps: seq<Step>, i: nat, id: DeliveryId)
    requires IsRun(states, steps) && i < |states|
    requires id in states[i].recorded || id in states[i].acked
    ensures WasEnqueued(states[i], id)
  {
    RunIsSafe(states, steps, i);
  }

  /** Two jobs of one delivery are a full retention apart. */
  lemma OneJobPerRetention(states: seq<State>, steps: seq<Step>, n: nat, i: nat, j: nat)
    requires IsRun(states, steps) && n < |states| && i < j < |states[n].jobs|
    requires states[n].jobs[i].id == states[n].jobs[j].id
    ensures states[n].jobs[j].at >= states[n].jobs[i].at + KEEP_RESULT
  {
    RunIsSafe(states, steps, n);
  }

  /**
   A redelivery can go through: from any state in which the id is not recorded, a handler that is given
   the delivery and does not fail leaves the id enqueued and recorded, and makes no second job
   while the queue refuses the id.
   */
  lemma RedeliveryGoesThrough(s: State, h: Handler, id: DeliveryId) returns (after: seq<State>, steps: seq<Step>)
    requires EnqueuedFirst(s) && id !in s.recorded
    requires h in s.handlers ==> s.handlers[h].Responded?
    ensures |after| == 6 && |steps| == 5 && after[0] == s && steps[0] == Deliver(h, id)
    ensures forall k :: 0 <= k < 5 ==> Next(after[k], steps[k], after[k + 1])
    ensures WasEnqueued(after[5], id) && id in after[5].recorded
    ensures h in after[5].handlers && after[5].handlers[h] == Responded(id, Accepted)
    ensures Refuses(s, id) ==> after[5].jobs == s.jobs
    ensures !Refuses(s, id) ==> after[5].jobs == s.jobs + [Job(id, s.now)]
  {
    var s1 := Moved(s, h, Received(id));
    var s2 := Moved(s1, h, Unseen(id));
    var s3 := Moved(Taken(s2, id), h, Enqueued(id));
    var s4 := Moved(s3, h, Recorded(id)).(recorded := s3.recorded + {id});
    var s5 := Moved(s4, h, Responded(id, Accepted)).(acked := s4.acked + {id});
    after := [s, s1, s2, s3, s4, s5];
    steps := [Deliver(h, id), LookUp(h), Enqueue(h, Reached), Record(h), Answer(h)];
    assert Next(s, steps[0], s1) && Next(s1, steps[1], s2) && Next(s2, steps[2], s3);
    assert Next(s3, steps[3], s4) && Next(s4, steps[4], s5);
    if !Refuses(s, id) {
      assert s5.jobs[|s.jobs|].id == id;
    }
  }

  function HandlerOf(step: Step): Option<Handler> {
    match step
    case Deliver(h, _) => Some(h)
    case LookUp(h) => Some(h)
    case Enqueue(h, _) => Some(h)
    case Record(h) => Some(h)
    case Answer(h) => Some(h)
    case Crash(h) => Some(h)
    case _ => None
  }

  /** Where a handler stands, it was put by its own last step. */
  lemma {:induction false} LastStepOf(states: seq<State>, steps: seq<Step>, n: nat, h: Handler) returns (k: nat)
    requires IsRun(states, steps) && n < |states| && h in states[n].handlers
    ensures k < n && HandlerOf(steps[k]) == Some(h)
    ensures h in states[k + 1].handlers && states[k + 1].handlers[h] == states[n].handlers[h]
    ensures forall m :: k < m < n ==> HandlerOf(steps[m]) != Some(h)
  {
    k := n - 1;
    assert Next(states[k], steps[k], states[k + 1]);
    if HandlerOf(steps[k]) != Some(h) {
      k := LastStepOf(states, steps, n - 1, h);
    }
  }

  /** One step of a handler at a time, back from where it stands. */
  lemma CameFrom(states: seq<State>, steps: seq<Step>, n: nat, h: Handler) returns (k: nat)
    requires IsRun(states, steps) && n < |states| && h in states[n].handlers
    ensures k < n && forall m :: k < m < n ==> HandlerOf(steps[m]) != Some(h)
    ensures var (pc, s) := (states[n].handlers[h], states[k]);
      match pc
      case Received(id) => steps[k] == Deliver(h, id)
      case Unseen(id) => steps[k] == LookUp(h) && h in s.handlers && s.handlers[h] == Received(id) && id !in s.recorded
      case Enqueued(id) => steps[k] == Enqueue(h, Reached) && h in s.handlers && s.handlers[h] == Unseen(id)
      case Recorded(id) => steps[k] == Record(h) && h in s.handlers && s.handlers[h] == Enqueued(id)
      case Responded(_, _) => true
    ensures Next(states[k], steps[k], states[k + 1])
  {
    k := LastStepOf(states, steps, n, h);
    assert Next(states[k], steps[k], states[k + 1]);
  }

  /**
   Redelivery repairs, whatever else goes on: a handler about to accept a delivery looked it up
   and did not find it, then enqueued it, then recorded it, and did nothing else since it was
   given it. It made a job exactly if the queue did not refuse the id.
   */
  lemma RedeliveryRepairs(states: seq<State>, steps: seq<Step>, n: nat, h: Handler, id: DeliveryId)
      returns (given: nat, looked: nat, enqueued: nat, recorded: nat)
    requires IsRun(states, steps) && n < |steps| && steps[n] == Answer(h)
    requires h in states[n].handlers && states[n].handlers[h] == Recorded(id)
    ensures given < looked < enqueued < recorded < n
    ensures steps[given] == Deliver(h, id) && steps[looked] == LookUp(h) && id !in states[looked].recorded
    ensures steps[enqueued] == Enqueue(h, Reached) && steps[recorded] == Record(h)
    ensures forall m :: given < m < n && HandlerOf(steps[m]) == Some(h) ==> m in {looked, enqueued, recorded}
    ensures WasEnqueued(states[enqueued + 1], id) && id in states[recorded + 1].recorded
    ensures states[enqueued + 1].jobs == states[enqueued].jobs +
      if Refuses(states[enqueued], id) then [] else [Job(id, states[enqueued].now)]
  {
    recorded := CameFrom(states, steps, n, h);
    enqueued := CameFrom(states, steps, recorded, h);
    looked := CameFrom(states, steps, enqueued, h);
    given := CameFrom(states, steps, looked, h);
    RunIsSafe(states, steps, enqueued + 1);
    assert states[enqueued + 1].handlers[h] == Enqueued(id);
  }

  /** No handler ever waits for another: until it has responded, its next step is open to it in any state. */
  lemma HandlerIsNeverStuck(s: State, h: Handler) returns (step: Step, s': State)
    requires h in s.handlers && !s.handlers[h].Responded?
    ensures Next(s, step, s') && HandlerOf(step) == Some(h) && !step.Crash?
    ensures h in s'.handlers && s'.handlers[h].id == s.handlers[h].id
    ensures s'.handlers[h].Responded? ==> s'.handlers[h].response != ServerError
  {
    var id := s.handlers[h].id;
    match s.handlers[h] {
      case Received(_) =>
        step := LookUp(h);
        s' := if id in s.recorded then Moved(s, h, Responded(id, Duplicate)).(acked := s.acked + {id})
              else Moved(s, h, Unseen(id));
      case Unseen(_) =>
        step, s' := Enqueue(h, Reached), Moved(Taken(s, id), h, Enqueued(id));
      case Enqueued(_) =>
        step, s' := Record(h), Moved(s, h, Recorded(id)).(recorded := s.recorded + {id});
      case Recorded(_) =>
        step, s' := Answer(h), Moved(s, h, Responded(id, Accepted)).(acked := s.acked + {id});
    }
  }

  /** Nobody is between the lookup and the queue with this id. */
  ghost predicate NoneInFlight(s: State, id: DeliveryId) {
    forall h :: h in s.handlers ==> s.handlers[h] != Unseen(id)
  }

  function JobsOf(jobs: seq<Job>, id: DeliveryId): seq<Job> {
    if jobs == [] then []
    else JobsOf(jobs[..|jobs| - 1], id) + if jobs[|jobs| - 1].id == id then [jobs[|jobs| - 1]] else []
  }

  lemma JobsOfTaken(s: State, id: DeliveryId, other: DeliveryId)
    requires id != other
    ensures JobsOf(Taken(s, other).jobs, id) == JobsOf(s.jobs, id)
  {
  }

  /**
   Exactly once from then on: once an id is recorded with no handler between its lookup and the
   queue, redeliveries never enqueue it again, until the retention sweep deletes the record.
   */
  lemma {:induction false} RecordedIsFinal(states: seq<State>, steps: seq<Step>, i: nat, j: nat, id: DeliveryId)
    requires IsRun(states, steps) && i <= j < |states|
    requires id in states[i].recorded && NoneInFlight(states[i], id)
    requires forall k :: i <= k < j && steps[k].Prune? ==> id !in steps[k].ids
    ensures id in states[j].recorded && NoneInFlight(states[j], id)
    ensures JobsOf(states[j].jobs, id) == JobsOf(states[i].jobs, id)
  {
    if i < j {
      RecordedIsFinal(states, steps, i, j - 1, id);
      var s, step := states[j - 1], steps[j - 1];
      assert Next(s, step, states[j]);
      if step.Enqueue? {
        assert s.handlers[step.h].id != id;
        JobsOfTaken(s, id, s.handlers[step.h].id);
      }
    }
  }
}
