/** How far the pool's threads get by themselves: stuck states, and a bound on the steps to one. */
module PoolProgress {
  import opened Wrappers
  import opened Counting
  import opened PoolModel
  import opened PoolSafety

  /** Steps that a thread must take when it can; the rest is spurious, a new call, or a losing shutdown. */
  predicate Progress(a: Action) {
    !a.Wake? && !a.Shutdown? && !a.CheckStop?
  }

  ghost predicate ProgressOnly(actions: seq<Action>) {
    forall i | 0 <= i < |actions| :: Progress(actions[i])
  }

  // ----- stuck states -----

  ghost predicate Stuck(s: Pool) {
    forall a | Progress(a) :: !Enabled(s, a)
  }

  ghost predicate AllIdle(s: Pool) {
    forall p | 0 <= p < |s.producers| :: s.producers[p].Idle?
  }

  lemma StuckWorkerSteps(s: Pool, w: nat)
    requires Stuck(s)
    ensures !Enabled(s, Lock(w)) && !Enabled(s, Test(w)) && !Enabled(s, Block(w)) && !Enabled(s, Take(w))
    ensures !Enabled(s, RunTask(w)) && !Enabled(s, Tally(w)) && !Enabled(s, Release(w))
  {
  }

  lemma StuckMutexFree(s: Pool)
    requires Shape(s) && Stuck(s)
    ensures s.mutex.None?
  {
    if s.mutex.Some? {
      var w := s.mutex.value;
      assert WorkerOk(s, w);
      StuckWorkerSteps(s, w);
    }
  }

  lemma StuckProducer(s: Pool, p: nat)
    requires Stuck(s) && s.mutex.None? && p < |s.producers|
    ensures s.producers[p].Idle?
  {
    assert !Enabled(s, CheckCapacity(p)) && !Enabled(s, Count(p)) && !Enabled(s, Push(p));
    assert !Enabled(s, NotifyOne(p, None));
    if !NoneBlocked(s) {
      var w :| 0 <= w < |s.workers| && s.workers[w].Blocked?;
      assert !Enabled(s, NotifyOne(p, Some(w)));
    }
  }

  lemma StuckWorker(s: Pool, w: nat)
    requires Shape(s) && Stuck(s) && s.mutex.None? && w < |s.workers|
    ensures s.workers[w].Exited? || s.workers[w].Blocked?
  {
    assert WorkerOk(s, w);
    StuckWorkerSteps(s, w);
  }

  /** Where no thread can move, producers are done and workers are asleep or gone. */
  lemma StuckMeansAsleep(s: Pool)
    requires Shape(s) && Stuck(s)
    ensures s.mutex.None? && AllIdle(s)
    ensures forall w | 0 <= w < |s.workers| :: s.workers[w].Exited? || s.workers[w].Blocked?
  {
    StuckMutexFree(s);
    forall p | 0 <= p < |s.producers| ensures s.producers[p].Idle? {
      StuckProducer(s, p);
    }
    forall w | 0 <= w < |s.workers| ensures s.workers[w].Exited? || s.workers[w].Blocked? {
      StuckWorker(s, w);
    }
  }

  // ----- the work that is left -----

  function ProducerWork(p: Producer): nat {
    match p
    case Idle => 0
    case Admitted(_) => 13
    case Cleared(_) => 12
    case Counted(_) => 11
    case Pushed => 4
  }

  function WorkerWork(w: Worker): nat {
    match w
    case Holding(_, _) => 6
    case Ran => 5
    case Tallied => 4
    case Contending => 3
    case Testing => 2
    case Taking => 1
    case Blocking => 1
    case Blocked => 0
    case Exited => 0
  }

  function PhaseWork(phase: Phase): nat {
    if phase == Returned then 0 else 1
  }

  /** An upper bound on the steps that are left, notify_all apart. */
  function Work(s: Pool): nat {
    Sum(s.producers, ProducerWork) + 6 * |s.tasks| + Sum(s.workers, WorkerWork) + PhaseWork(s.phase)
  }

  predicate MovesProducer(a: Action) {
    a.CheckCapacity? || a.Count? || a.Push? || a.NotifyOne?
  }

  lemma ProducerStepWorks(s: Pool, a: Action)
    requires Enabled(s, a) && MovesProducer(a)
    ensures Work(Next(s, a)) < Work(s)
  {
    ProducerSumStep(s, a, ProducerWork);
    WorkerSumStep(s, a, WorkerWork);
    hide Sum;
  }

  lemma WorkerStepWorks(s: Pool, a: Action)
    requires Enabled(s, a) && MovesWorker(a) && !a.Wake?
    ensures Work(Next(s, a)) < Work(s)
  {
    WorkerSumStep(s, a, WorkerWork);
    hide Sum;
  }

  /** Every step that must be taken uses up some of the work. */
  lemma StepWorks(s: Pool, a: Action)
    requires Enabled(s, a) && Progress(a) && a != NotifyAll
    ensures Work(Next(s, a)) < Work(s)
  {
    if MovesProducer(a) {
      ProducerStepWorks(s, a);
    } else if MovesWorker(a) {
      WorkerStepWorks(s, a);
    }
  }

  // ----- while the pool is in service -----

  lemma RunningStays(s: Pool, a: Action)
    requires Shape(s) && s.phase == Running && Enabled(s, a) && Progress(a)
    ensures Next(s, a).phase == Running && a != NotifyAll
  {
  }

  /** In service, a schedule without new calls is no longer than the work there is. */
  lemma {:induction false} ServiceIsBounded(s: Pool, actions: seq<Action>)
    requires Inv(s) && s.phase == Running && ProgressOnly(actions) && Exec(s, actions).Some?
    ensures |actions| <= Work(s) && Exec(s, actions).value.phase == Running
    decreases |actions|
  {
    if actions != [] {
      assert Progress(actions[0]);
      ShapeOf(s);
      RunningStays(s, actions[0]);
      StepWorks(s, actions[0]);
      InvStep(s, actions[0]);
      hide Inv, Enabled, Next, Work;
      ServiceIsBounded(Next(s, actions[0]), actions[1..]);
    }
  }

  lemma ShapeOf(s: Pool)
    requires Inv(s)
    ensures Shape(s)
  {
  }

  /**
    And where it ends, a pool with a worker has run everything: the queue is empty, nothing is
    pending, and every task that was ever counted is completed.
   */
  lemma ServiceDrainsQueue(producers: nat, workers: nat, max: nat, actions: seq<Action>, s: Pool)
    requires 0 < workers && max + producers <= SIZE_MAX + 1
    requires RunsTo(producers, workers, max, actions, s)
    requires s.phase == Running && Stuck(s)
    ensures s.tasks == [] && s.pending == 0 && s.completed == s.counted
    ensures forall ticket: nat :: s.ran[ticket] == if ticket < |s.pushed| then 1 else 0
  {
    Reached(producers, workers, max, actions, s);
    StuckMeansAsleep(s);
    forall w | 0 <= w < |s.workers| ensures s.workers[w].Blocked? {
      assert WorkerOk(s, w);
    }
    assert s.workers[0].Blocked?;
    SumNone(s.workers, Heading);
    SumNone(s.workers, Unfinished);
    SumNone(s.workers, BetweenCounters);
    SumNone(s.producers, OwesNotify);
    SumNone(s.producers, OwesPush);
    NothingHeld(s);
    forall ticket: nat ensures s.ran[ticket] == if ticket < |s.pushed| then 1 else 0 {
      assert Once(s, ticket);
    }
  }

  // ----- after stop_ is set -----

  function UnderWay(p: Producer): nat {
    if p.Admitted? || p.Cleared? || p.Counted? then 1 else 0
  }

  /** Every producer can get one more task in after stop_ is set, if it had passed that check before. */
  ghost predicate FewLate(s: Pool) {
    s.stop ==> |s.pushed| + Sum(s.producers, UnderWay) <= s.stopMark + |s.producers|
  }

  lemma FewLateStep(s: Pool, a: Action)
    requires FewLate(s) && Enabled(s, a)
    ensures FewLate(Next(s, a))
  {
    ProducerSumStep(s, a, UnderWay);
    SumAtMost(s.producers, UnderWay, 1);
    hide Sum;
  }

  lemma {:induction false} FewLateExec(s: Pool, actions: seq<Action>)
    requires FewLate(s) && Exec(s, actions).Some?
    ensures FewLate(Exec(s, actions).value)
    decreases |actions|
  {
    hide FewLate, Enabled, Next;
    if actions != [] {
      FewLateStep(s, actions[0]);
      FewLateExec(Next(s, actions[0]), actions[1..]);
    }
  }

  /** After stop_ is set no more tasks get into the queue than there are producers, whatever they try. */
  lemma FewTasksAfterStop(producers: nat, workers: nat, max: nat, actions: seq<Action>, s: Pool)
    requires RunsTo(producers, workers, max, actions, s) && s.stop
    ensures |s.pushed| <= s.stopMark + producers
  {
    FewLateExec(Init(producers, workers, max), actions);
    SizesExec(Init(producers, workers, max), actions);
  }

  /** So a shutdown that has returned strands at most one task for each producer. */
  lemma FewTasksStranded(producers: nat, workers: nat, max: nat, actions: seq<Action>, s: Pool)
    requires 0 < workers && max + producers <= SIZE_MAX + 1
    requires RunsTo(producers, workers, max, actions, s) && s.phase == Returned
    ensures |s.tasks| <= producers
  {
    DrainedOnShutdown(producers, workers, max, actions, s);
    Reached(producers, workers, max, actions, s);
    ShapeOf(s);
    FewTasksAfterStop(producers, workers, max, actions, s);
  }
}
