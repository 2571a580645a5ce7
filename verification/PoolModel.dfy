/**
  The bounded worker pool as a machine of atomic steps.

  Producers run `enqueue`, workers run the constructor's loop, one winning caller runs
  `shutdown`. Every access to a shared location is one step and steps interleave freely
  (sequential consistency). A worker's critical section is several steps, because `shutdown`
  changes `stop_` and notifies without the mutex; a producer's is one, its push.
 */
module PoolModel {
  import opened Wrappers

  const SIZE_MAX: nat := 0xFFFF_FFFF_FFFF_FFFF

  type Task = nat  // which callable

  /** Where a producer stands inside `enqueue`. */
  datatype Producer =
    | Idle
    | Admitted(task: Task)  // stop_ was false
    | Cleared(task: Task)   // the queue was not saturated
    | Counted(task: Task)   // pending_tasks_ was incremented
    | Pushed                // tasks_ holds the task, notify_one is still to come

  /** Where a worker stands inside its loop; a ticket is a position in the order of pushes. */
  datatype Worker =
    | Contending            // about to lock mutex_, at first or after a wake-up
    | Testing               // owns mutex_, about to evaluate the wait predicate
    | Blocking              // owns mutex_, the predicate was false, about to block
    | Blocked               // asleep on the condition variable
    | Taking                // owns mutex_, the predicate was true
    | Holding(ticket: nat, task: Task)
    | Ran                   // the callable has returned
    | Tallied               // completed_tasks_ was incremented
    | Exited

  datatype Phase = Running | Stopping | Joining | Returned

  datatype Pool = Pool(
    max: nat,                   // max_queue_size_
    stop: bool,                 // stop_
    tasks: seq<Task>,           // tasks_
    pending: nat,               // pending_tasks_
    completed: nat,             // completed_tasks_
    mutex: Option<nat>,         // the worker that owns mutex_
    producers: seq<Producer>,
    workers: seq<Worker>,
    phase: Phase,               // the winning shutdown call
    // what has happened so far
    pushed: seq<Task>,          // every push, in order
    popped: nat,                // how many were popped
    ran: multiset<nat>,         // the tickets of callables that ran to their end
    counted: nat,               // how often pending_tasks_ was incremented
    stopMark: nat,              // |pushed| when stop_ was set
    exitMark: nat,              // |pushed| when a worker last exited
    missed: Option<nat>)        // the worker about to block when notify_all was sent

  datatype Action =
    | CheckStop(p: nat, task: Task)
    | CheckCapacity(p: nat)
    | Count(p: nat)
    | Push(p: nat)
    | NotifyOne(p: nat, woken: Option<nat>)
    | Lock(w: nat)
    | Test(w: nat)
    | Block(w: nat)
    | Wake(w: nat)              // spurious
    | Take(w: nat)
    | RunTask(w: nat)
    | Tally(w: nat)
    | Release(w: nat)
    | Shutdown                  // compare_exchange on stop_
    | NotifyAll
    | Join

  function Init(producers: nat, workers: nat, max: nat): Pool {
    Pool(max, false, [], 0, 0, None,
         seq(producers, i => Idle), seq(workers, i => Contending), Running,
         [], 0, multiset{}, 0, 0, 0, None)
  }

  predicate NoneBlocked(s: Pool) {
    forall w | 0 <= w < |s.workers| :: !s.workers[w].Blocked?
  }

  predicate AllExited(s: Pool) {
    forall w | 0 <= w < |s.workers| :: s.workers[w].Exited?
  }

  predicate Enabled(s: Pool, a: Action) {
    match a
    case CheckStop(p, _) => p < |s.producers| && s.producers[p].Idle?
    case CheckCapacity(p) => p < |s.producers| && s.producers[p].Admitted?
    case Count(p) => p < |s.producers| && s.producers[p].Cleared?
    case Push(p) => p < |s.producers| && s.producers[p].Counted? && s.mutex.None?
    case NotifyOne(p, woken) =>
      && p < |s.producers| && s.producers[p].Pushed?
      && (match woken
          case None => NoneBlocked(s)
          case Some(w) => w < |s.workers| && s.workers[w].Blocked?)
    case Lock(w) => w < |s.workers| && s.workers[w].Contending? && s.mutex.None?
    case Test(w) => w < |s.workers| && s.workers[w].Testing?
    case Block(w) => w < |s.workers| && s.workers[w].Blocking?
    case Wake(w) => w < |s.workers| && s.workers[w].Blocked?
    case Take(w) => w < |s.workers| && s.workers[w].Taking? && (s.stop || s.tasks != [])
    case RunTask(w) => w < |s.workers| && s.workers[w].Holding?
    case Tally(w) => w < |s.workers| && s.workers[w].Ran?
    case Release(w) => w < |s.workers| && s.workers[w].Tallied?
    case Shutdown => true
    case NotifyAll => s.phase == Stopping
    case Join => s.phase == Joining && AllExited(s)
  }

  function SetProducer(s: Pool, p: nat, pc: Producer): Pool
    requires p < |s.producers|
  {
    s.(producers := s.producers[p := pc])
  }

  function SetWorker(s: Pool, w: nat, pc: Worker): Pool
    requires w < |s.workers|
  {
    s.(workers := s.workers[w := pc])
  }

  /** fetch_add and fetch_sub on a size_t. */
  function Increment(n: nat): nat {
    if n == SIZE_MAX then 0 else n + 1
  }

  function Decrement(n: nat): nat {
    if n == 0 then SIZE_MAX else n - 1
  }

  function Awoken(workers: seq<Worker>): (r: seq<Worker>)
    ensures |r| == |workers|
    ensures forall w | 0 <= w < |r| :: r[w] == if workers[w].Blocked? then Contending else workers[w]
  {
    seq(|workers|, w requires 0 <= w < |workers| => if workers[w].Blocked? then Contending else workers[w])
  }

  function Next(s: Pool, a: Action): Pool
    requires Enabled(s, a)
  {
    match a
    case CheckStop(p, task) => if s.stop then s else SetProducer(s, p, Admitted(task))
    case CheckCapacity(p) =>
      SetProducer(s, p, if s.pending >= s.max then Idle else Cleared(s.producers[p].task))
    case Count(p) =>
      SetProducer(s, p, Counted(s.producers[p].task)).(pending := Increment(s.pending), counted := s.counted + 1)
    case Push(p) =>
      var task := s.producers[p].task;
      SetProducer(s, p, Pushed).(tasks := s.tasks + [task], pushed := s.pushed + [task])
    case NotifyOne(p, woken) =>
      var s' := SetProducer(s, p, Idle);
      if woken.Some? then SetWorker(s', woken.value, Contending) else s'
    case Lock(w) => SetWorker(s, w, Testing).(mutex := Some(w))
    case Test(w) => SetWorker(s, w, if s.stop || s.tasks != [] then Taking else Blocking)
    case Block(w) => SetWorker(s, w, Blocked).(mutex := None)
    case Wake(w) => SetWorker(s, w, Contending)
    case Take(w) =>
      if s.stop && s.tasks == [] then
        SetWorker(s, w, Exited).(mutex := None, exitMark := |s.pushed|)
      else
        SetWorker(s, w, Holding(s.popped, s.tasks[0])).(mutex := None, tasks := s.tasks[1..], popped := s.popped + 1)
    case RunTask(w) => SetWorker(s, w, Ran).(ran := s.ran + multiset{s.workers[w].ticket})
    case Tally(w) => SetWorker(s, w, Tallied).(completed := s.completed + 1)
    case Release(w) => SetWorker(s, w, Contending).(pending := Decrement(s.pending))
    case Shutdown => if s.stop then s else s.(stop := true, phase := Stopping, stopMark := |s.pushed|)
    case NotifyAll =>
      s.(workers := Awoken(s.workers), phase := Joining,
         missed := if s.mutex.Some? && s.mutex.value < |s.workers| && s.workers[s.mutex.value].Blocking?
                   then s.mutex else None)
    case Join => s.(phase := Returned)
  }

  /** The state after a schedule, if every step of it is enabled in turn. */
  function Exec(s: Pool, actions: seq<Action>): Option<Pool>
    decreases |actions|
  {
    if actions == [] then Some(s)
    else if Enabled(s, actions[0]) then Exec(Next(s, actions[0]), actions[1..])
    else None
  }

  /** `s` is what some schedule makes of a fresh pool. */
  ghost predicate RunsTo(producers: nat, workers: nat, max: nat, actions: seq<Action>, s: Pool) {
    Exec(Init(producers, workers, max), actions) == Some(s)
  }
}
