/** What every interleaving of the pool's threads keeps. */
module PoolSafety {
  import opened Wrappers
  import opened Counting
  import opened PoolModel

  // ----- mutual exclusion -----

  predicate InCritical(w: Worker) {
    w.Testing? || w.Blocking? || w.Taking?
  }

  /** What a worker's program counter says about the shared fields. */
  ghost predicate WorkerOk(s: Pool, w: nat)
    requires w < |s.workers|
  {
    var pc := s.workers[w];
    && (InCritical(pc) <==> s.mutex == Some(w))
    && (pc.Blocking? ==> s.tasks == [])
    && (pc.Taking? ==> s.stop || s.tasks != [])
    && (pc.Exited? ==> s.stop)
  }

  ghost predicate Shape(s: Pool) {
    && (forall w | 0 <= w < |s.workers| :: WorkerOk(s, w))
    && (s.mutex.Some? ==> s.mutex.value < |s.workers|)
    && (s.stop <==> s.phase != Running)
  }

  lemma WorkerOkStep(s: Pool, a: Action, w: nat)
    requires Enabled(s, a) && w < |s.workers| && WorkerOk(s, w)
    requires MovesWorker(a) ==> WorkerOk(s, a.w)
    ensures WorkerOk(Next(s, a), w)
  {
  }

  lemma ShapeStep(s: Pool, a: Action)
    requires Shape(s) && Enabled(s, a)
    ensures Shape(Next(s, a))
  {
    var s' := Next(s, a);
    assert s'.stop <==> s'.phase != Running;
    assert |s'.workers| == |s.workers| && (s'.mutex.Some? ==> s'.mutex.value < |s'.workers|);
    hide Next;
    forall w | 0 <= w < |s'.workers| ensures WorkerOk(s', w) {
      assert WorkerOk(s, w);
      assert MovesWorker(a) ==> WorkerOk(s, a.w);
      WorkerOkStep(s, a, w);
    }
  }

  // ----- the counters -----

  function OwesPush(p: Producer): nat {
    if p.Counted? then 1 else 0
  }

  function MayCount(p: Producer): nat {
    if p.Cleared? then 1 else 0
  }

  function Unfinished(w: Worker): nat {
    if w.Holding? || w.Ran? || w.Tallied? then 1 else 0
  }

  function BetweenCounters(w: Worker): nat {
    if w.Tallied? then 1 else 0
  }

  ghost predicate PendingExact(s: Pool) {
    s.pending == Sum(s.producers, OwesPush) + |s.tasks| + Sum(s.workers, Unfinished)
  }

  ghost predicate Conserved(s: Pool) {
    && PendingExact(s)
    && s.completed + s.pending == s.counted + Sum(s.workers, BetweenCounters)
  }

  /** The producers past the capacity check are charged in advance. */
  ghost predicate Bounded(s: Pool) {
    if s.max == 0 then s.pending == 0 && Sum(s.producers, MayCount) == 0
    else |s.producers| > 0 ==> s.pending + Sum(s.producers, MayCount) <= s.max + |s.producers| - 1
  }

  ghost predicate Countable(s: Pool) {
    s.max + |s.producers| <= SIZE_MAX + 1
  }

  /** How one step changes a sum over the producers. */
  lemma ProducerSumStep(s: Pool, a: Action, weight: Producer -> nat)
    requires Enabled(s, a)
    ensures var s' := Next(s, a);
            if a.CheckStop? || a.CheckCapacity? || a.Count? || a.Push? || a.NotifyOne?
            then Sum(s'.producers, weight) + weight(s.producers[a.p]) == Sum(s.producers, weight) + weight(s'.producers[a.p])
            else s'.producers == s.producers
  {
    if a.CheckStop? || a.CheckCapacity? || a.Count? || a.Push? || a.NotifyOne? {
      var s' := Next(s, a);
      SumUpdate(s.producers, a.p, s'.producers[a.p], weight);
      assert s'.producers == s.producers[a.p := s'.producers[a.p]];
    }
  }

  predicate MovesWorker(a: Action) {
    a.Lock? || a.Test? || a.Block? || a.Wake? || a.Take? || a.RunTask? || a.Tally? || a.Release?
  }

  /** How one step changes a sum over the workers, notify_all excepted. */
  lemma WorkerSumStep(s: Pool, a: Action, weight: Worker -> nat)
    requires Enabled(s, a) && a != NotifyAll
    ensures var s' := Next(s, a);
            if MovesWorker(a) then
              Sum(s'.workers, weight) + weight(s.workers[a.w]) == Sum(s.workers, weight) + weight(s'.workers[a.w])
            else if a.NotifyOne? && a.woken.Some? then
              Sum(s'.workers, weight) + weight(Blocked) == Sum(s.workers, weight) + weight(Contending)
            else s'.workers == s.workers
  {
    var s' := Next(s, a);
    if MovesWorker(a) {
      SumUpdate(s.workers, a.w, s'.workers[a.w], weight);
      assert s'.workers == s.workers[a.w := s'.workers[a.w]];
    } else if a.NotifyOne? && a.woken.Some? {
      SumUpdate(s.workers, a.woken.value, Contending, weight);
    }
  }

  lemma CountersStep(s: Pool, a: Action)
    requires Conserved(s) && Bounded(s) && Countable(s) && Enabled(s, a)
    ensures Conserved(Next(s, a)) && Bounded(Next(s, a)) && Countable(Next(s, a))
  {
    ConservedStep(s, a);
    BoundedStep(s, a);
  }

  lemma NoOverflow(s: Pool, a: Action)
    requires Conserved(s) && Bounded(s) && Countable(s) && Enabled(s, a)
    ensures a.Count? ==> s.pending < SIZE_MAX
    ensures a.Release? ==> s.pending > 0
  {
    if a.Count? {
      SumAtLeast(s.producers, a.p, MayCount);
    }
    if a.Release? {
      SumAtLeast(s.workers, a.w, Unfinished);
    }
  }

  lemma ConservedStep(s: Pool, a: Action)
    requires Conserved(s) && Bounded(s) && Countable(s) && Enabled(s, a)
    ensures Conserved(Next(s, a))
  {
    NoOverflow(s, a);
    PendingStep(s, a);
    CompletedStep(s, a);
  }

  lemma PendingStep(s: Pool, a: Action)
    requires PendingExact(s)
    requires Enabled(s, a) && (a.Count? ==> s.pending < SIZE_MAX) && (a.Release? ==> s.pending > 0)
    ensures PendingExact(Next(s, a))
  {
    if a == NotifyAll {
      SumPointwise(s.workers, Next(s, a).workers, Unfinished);
    } else if MovesWorker(a) {
      hide PendingExact;
      PendingWorkerStep(s, a);
    } else {
      hide PendingExact;
      PendingProducerStep(s, a);
    }
  }

  lemma PendingWorkerStep(s: Pool, a: Action)
    requires PendingExact(s) && Enabled(s, a) && MovesWorker(a) && (a.Release? ==> s.pending > 0)
    ensures PendingExact(Next(s, a))
  {
    WorkerSumStep(s, a, Unfinished);
    hide Sum;
  }

  lemma PendingProducerStep(s: Pool, a: Action)
    requires PendingExact(s) && Enabled(s, a) && !MovesWorker(a) && a != NotifyAll
    requires a.Count? ==> s.pending < SIZE_MAX
    ensures PendingExact(Next(s, a))
  {
    ProducerSumStep(s, a, OwesPush);
    WorkerSumStep(s, a, Unfinished);
    hide Sum;
  }

  lemma CompletedStep(s: Pool, a: Action)
    requires s.completed + s.pending == s.counted + Sum(s.workers, BetweenCounters)
    requires Enabled(s, a) && (a.Count? ==> s.pending < SIZE_MAX) && (a.Release? ==> s.pending > 0)
    ensures var s' := Next(s, a);
            s'.completed + s'.pending == s'.counted + Sum(s'.workers, BetweenCounters)
  {
    if a == NotifyAll {
      SumPointwise(s.workers, Next(s, a).workers, BetweenCounters);
    } else {
      WorkerSumStep(s, a, BetweenCounters);
    }
  }

  lemma BoundedStep(s: Pool, a: Action)
    requires Conserved(s) && Bounded(s) && Countable(s) && Enabled(s, a)
    ensures Bounded(Next(s, a))
  {
    NoOverflow(s, a);
    ProducerSumStep(s, a, MayCount);
    if a.CheckCapacity? {
      SumOthers(s.producers, a.p, MayCount);
    }
  }

  // ----- wake-ups -----

  /** Workers on their way to look at the queue. */
  function Heading(w: Worker): nat {
    if w.Contending? || w.Testing? || w.Taking? then 1 else 0
  }

  function OwesNotify(p: Producer): nat {
    if p.Pushed? then 1 else 0
  }

  /** While a worker sleeps, every queued task has a worker heading for it or a notification due. */
  ghost predicate WorkConserving(s: Pool) {
    NoneBlocked(s) || |s.tasks| <= Sum(s.workers, Heading) + Sum(s.producers, OwesNotify)
  }

  lemma WorkConservingStep(s: Pool, a: Action)
    requires Shape(s) && WorkConserving(s) && Enabled(s, a)
    ensures WorkConserving(Next(s, a))
  {
    if MovesWorker(a) {
      WorkConservingWorker(s, a);
    } else if a != NotifyAll {
      WorkConservingOther(s, a);
    }
  }

  lemma WorkConservingWorker(s: Pool, a: Action)
    requires Shape(s) && WorkConserving(s) && Enabled(s, a) && MovesWorker(a)
    ensures WorkConserving(Next(s, a))
  {
    WorkerSumStep(s, a, Heading);
    assert WorkerOk(s, a.w);
    hide Sum, Shape, WorkerOk;
    var s' := Next(s, a);
    if !NoneBlocked(s') && !a.Block? {
      var b :| 0 <= b < |s'.workers| && s'.workers[b].Blocked?;
      assert s.workers[b].Blocked?;
    }
  }

  lemma WorkConservingOther(s: Pool, a: Action)
    requires WorkConserving(s) && Enabled(s, a) && !MovesWorker(a) && a != NotifyAll
    ensures WorkConserving(Next(s, a))
  {
    ProducerSumStep(s, a, OwesNotify);
    WorkerSumStep(s, a, Heading);
    hide Sum;
    var s' := Next(s, a);
    if !NoneBlocked(s') {
      var b :| 0 <= b < |s'.workers| && s'.workers[b].Blocked?;
      assert s.workers[b].Blocked?;
    }
  }

  // ----- order and exactly-once -----

  /** Does a worker hold this ticket, its callable not yet run to the end? */
  function Holds(ticket: nat): Worker -> nat {
    (w: Worker) => if w.Holding? && w.ticket == ticket then 1 else 0
  }

  ghost predicate HoldsItsTask(s: Pool, w: nat)
    requires w < |s.workers|
  {
    var pc := s.workers[w];
    pc.Holding? ==> pc.ticket < s.popped <= |s.pushed| && pc.task == s.pushed[pc.ticket]
  }

  ghost predicate Fifo(s: Pool) {
    && s.popped <= |s.pushed|
    && s.tasks == s.pushed[s.popped..]
    && (forall w | 0 <= w < |s.workers| :: HoldsItsTask(s, w))
  }

  /** A popped ticket has been run or is in one worker's hand; any other ticket neither. */
  ghost predicate Once(s: Pool, ticket: nat) {
    s.ran[ticket] + Sum(s.workers, Holds(ticket)) == if ticket < s.popped then 1 else 0
  }

  ghost predicate OnceEach(s: Pool) {
    forall ticket: nat :: Once(s, ticket)
  }

  lemma HoldsItsTaskStep(s: Pool, a: Action, w: nat)
    requires s.popped <= |s.pushed| && s.tasks == s.pushed[s.popped..]
    requires Enabled(s, a) && w < |s.workers| && HoldsItsTask(s, w)
    ensures HoldsItsTask(Next(s, a), w)
  {
  }

  lemma QueueStep(s: Pool, a: Action)
    requires s.popped <= |s.pushed| && s.tasks == s.pushed[s.popped..] && Enabled(s, a)
    ensures var s' := Next(s, a);
            s'.popped <= |s'.pushed| && s'.tasks == s'.pushed[s'.popped..] && |s'.workers| == |s.workers|
  {
  }

  lemma FifoStep(s: Pool, a: Action)
    requires Fifo(s) && Enabled(s, a)
    ensures Fifo(Next(s, a))
  {
    hide Next, Enabled, HoldsItsTask;
    QueueStep(s, a);
    forall w | 0 <= w < |Next(s, a).workers| ensures HoldsItsTask(Next(s, a), w) {
      HoldsItsTaskStep(s, a, w);
    }
  }

  lemma OnceEachStep(s: Pool, a: Action)
    requires OnceEach(s) && Enabled(s, a)
    ensures OnceEach(Next(s, a))
  {
    forall ticket: nat ensures Once(Next(s, a), ticket) {
      assert Once(s, ticket);
      OnceStep(s, a, ticket);
    }
  }

  lemma OnceStep(s: Pool, a: Action, ticket: nat)
    requires Once(s, ticket) && Enabled(s, a)
    ensures Once(Next(s, a), ticket)
  {
    if a == NotifyAll {
      SumPointwise(s.workers, Next(s, a).workers, Holds(ticket));
    } else {
      WorkerSumStep(s, a, Holds(ticket));
    }
  }

  // ----- the winning shutdown call -----

  ghost predicate SomeExited(s: Pool) {
    exists w :: 0 <= w < |s.workers| && s.workers[w].Exited?
  }

  ghost predicate Marked(s: Pool) {
    && (s.stop ==> s.stopMark <= |s.pushed|)
    && s.exitMark <= s.popped
    && (SomeExited(s) ==> s.stopMark <= s.exitMark)
    && (AllExited(s) && |s.workers| > 0 ==> s.popped == s.exitMark)
    && (s.phase == Returned ==> AllExited(s))
  }

  lemma MarkedStep(s: Pool, a: Action)
    requires Shape(s) && Fifo(s) && Marked(s) && Enabled(s, a)
    ensures Marked(Next(s, a))
  {
    if a.Take? {
      MarkedTake(s, a.w);
    } else {
      MarkedOther(s, a);
    }
  }

  lemma MarkedTake(s: Pool, w: nat)
    requires Shape(s) && Fifo(s) && Marked(s) && Enabled(s, Take(w))
    ensures Marked(Next(s, Take(w)))
  {
    var s' := Next(s, Take(w));
    assert WorkerOk(s, w);
    assert !AllExited(s) && s.phase != Returned;
    hide WorkerOk, Shape;
    if s'.workers[w].Exited? {
      assert s.popped == |s.pushed|;
    } else {
      assert !AllExited(s');
      if SomeExited(s') {
        var x :| 0 <= x < |s'.workers| && s'.workers[x].Exited?;
        assert s.workers[x].Exited?;
      }
    }
  }

  lemma ExitedKept(s: Pool, a: Action)
    requires Enabled(s, a) && !a.Take?
    ensures SomeExited(Next(s, a)) == SomeExited(s) && AllExited(Next(s, a)) == AllExited(s)
    ensures |Next(s, a).workers| == |s.workers|
  {
    var s' := Next(s, a);
    assert forall x | 0 <= x < |s.workers| :: s'.workers[x].Exited? <==> s.workers[x].Exited?;
    hide Next;
    if SomeExited(s) {
      var x :| 0 <= x < |s.workers| && s.workers[x].Exited?;
      assert s'.workers[x].Exited?;
    }
  }

  lemma MarkedOther(s: Pool, a: Action)
    requires Shape(s) && Marked(s) && Enabled(s, a) && !a.Take?
    ensures Marked(Next(s, a))
  {
    ExitedKept(s, a);
    assert SomeExited(s) ==> s.stop by {
      if x :| 0 <= x < |s.workers| && s.workers[x].Exited? {
        assert WorkerOk(s, x);
      }
    }
    hide Shape, SomeExited, AllExited;
  }

  /** Once notify_all is out, only the worker that was about to block then can be asleep. */
  ghost predicate OneMissed(s: Pool) {
    s.phase == Joining || s.phase == Returned ==>
      forall w | 0 <= w < |s.workers| :: s.workers[w].Blocking? || s.workers[w].Blocked? ==> s.missed == Some(w)
  }

  lemma OneMissedStep(s: Pool, a: Action)
    requires Shape(s) && OneMissed(s) && Enabled(s, a)
    ensures OneMissed(Next(s, a))
  {
    var s' := Next(s, a);
    if s'.phase == Joining || s'.phase == Returned {
      assert |s'.workers| == |s.workers|;
      forall w | 0 <= w < |s'.workers| && (s'.workers[w].Blocking? || s'.workers[w].Blocked?)
        ensures s'.missed == Some(w)
      {
        OneMissedWorker(s, a, w);
      }
    }
  }

  lemma OneMissedWorker(s: Pool, a: Action, w: nat)
    requires Shape(s) && OneMissed(s) && Enabled(s, a) && w < |s.workers|
    requires Next(s, a).phase == Joining || Next(s, a).phase == Returned
    requires Next(s, a).workers[w].Blocking? || Next(s, a).workers[w].Blocked?
    ensures Next(s, a).missed == Some(w)
  {
    assert WorkerOk(s, w);
  }

  // ----- every reachable state -----

  ghost predicate Inv(s: Pool) {
    && Shape(s) && Conserved(s) && Bounded(s) && Countable(s) && WorkConserving(s)
    && Fifo(s) && OnceEach(s) && Marked(s) && OneMissed(s)
  }

  lemma InvStep(s: Pool, a: Action)
    requires Inv(s) && Enabled(s, a)
    ensures Inv(Next(s, a))
  {
    hide Shape, Conserved, Bounded, Countable, WorkConserving, Fifo, OnceEach, Marked, OneMissed, Enabled, Next;
    ShapeStep(s, a);
    CountersStep(s, a);
    WorkConservingStep(s, a);
    FifoStep(s, a);
    OnceEachStep(s, a);
    MarkedStep(s, a);
    OneMissedStep(s, a);
  }

  lemma {:induction false} SumNone<T>(xs: seq<T>, weight: T -> nat)
    requires forall x | x in xs :: weight(x) == 0
    ensures Sum(xs, weight) == 0
  {
    SumAtMost(xs, weight, 0);
  }

  lemma InvInit(producers: nat, workers: nat, max: nat)
    requires max + producers <= SIZE_MAX + 1
    ensures Inv(Init(producers, workers, max))
  {
    var s := Init(producers, workers, max);
    SumNone(s.producers, OwesPush);
    SumNone(s.producers, MayCount);
    SumNone(s.workers, Unfinished);
    SumNone(s.workers, BetweenCounters);
    NothingHeld(s);
    if workers > 0 {
      assert !s.workers[0].Exited?;
    }
  }

  lemma NothingHeld(s: Pool)
    requires forall w | w in s.workers :: !w.Holding?
    ensures forall ticket: nat :: Sum(s.workers, Holds(ticket)) == 0
  {
    forall ticket: nat ensures Sum(s.workers, Holds(ticket)) == 0 {
      SumNone(s.workers, Holds(ticket));
    }
  }

  lemma {:induction false} InvExec(s: Pool, actions: seq<Action>)
    requires Inv(s) && Exec(s, actions).Some?
    ensures Inv(Exec(s, actions).value)
    decreases |actions|
  {
    hide Inv, Enabled, Next;
    if actions != [] {
      InvStep(s, actions[0]);
      InvExec(Next(s, actions[0]), actions[1..]);
    }
  }

  lemma {:induction false} SizesExec(s: Pool, actions: seq<Action>)
    requires Exec(s, actions).Some?
    ensures var s' := Exec(s, actions).value;
            |s'.producers| == |s.producers| && |s'.workers| == |s.workers| && s'.max == s.max
    decreases |actions|
  {
    if actions != [] {
      SizesExec(Next(s, actions[0]), actions[1..]);
    }
  }

  lemma Reached(producers: nat, workers: nat, max: nat, actions: seq<Action>, s: Pool)
    requires max + producers <= SIZE_MAX + 1 && RunsTo(producers, workers, max, actions, s)
    ensures Inv(s) && |s.producers| == producers && |s.workers| == workers && s.max == max
  {
    InvInit(producers, workers, max);
    InvExec(Init(producers, workers, max), actions);
    SizesExec(Init(producers, workers, max), actions);
  }

  // ----- main results -----

  /** pending_tasks_ and completed_tasks_ account for every task exactly and never wrap. */
  lemma CountersConserved(producers: nat, workers: nat, max: nat, actions: seq<Action>, s: Pool)
    requires max + producers <= SIZE_MAX + 1 && RunsTo(producers, workers, max, actions, s)
    ensures s.pending == Sum(s.producers, OwesPush) + |s.tasks| + Sum(s.workers, Unfinished)
    ensures s.completed + s.pending == s.counted + Sum(s.workers, BetweenCounters)
    ensures forall a | Enabled(s, a) && a.Release? :: s.pending > 0
    ensures forall a | Enabled(s, a) && a.Count? :: s.pending < SIZE_MAX
  {
    Reached(producers, workers, max, actions, s);
    forall a | Enabled(s, a) ensures (a.Release? ==> s.pending > 0) && (a.Count? ==> s.pending < SIZE_MAX) {
      NoOverflow(s, a);
    }
  }

  /** P producers can overshoot the capacity by at most P - 1, although check and count are apart. */
  lemma BackpressureBound(producers: nat, workers: nat, max: nat, actions: seq<Action>, s: Pool)
    requires 0 < producers && max + producers <= SIZE_MAX + 1
    requires RunsTo(producers, workers, max, actions, s)
    ensures s.pending <= if max == 0 then 0 else max + producers - 1
  {
    Reached(producers, workers, max, actions, s);
  }

  /** A worker sleeps only while the tasks queued do not outnumber the workers and notifications on their way. */
  lemma NoWorkerSleepsOverWork(producers: nat, workers: nat, max: nat, actions: seq<Action>, s: Pool)
    requires max + producers <= SIZE_MAX + 1 && RunsTo(producers, workers, max, actions, s)
    requires exists w :: 0 <= w < |s.workers| && s.workers[w].Blocked?
    ensures |s.tasks| <= Sum(s.workers, Heading) + Sum(s.producers, OwesNotify)
  {
    Reached(producers, workers, max, actions, s);
  }

  /** No wake-up of enqueue is lost. */
  lemma NoLostWakeUp(producers: nat, workers: nat, max: nat, actions: seq<Action>, s: Pool)
    requires max + producers <= SIZE_MAX + 1 && RunsTo(producers, workers, max, actions, s)
    requires s.tasks != [] && exists w :: 0 <= w < |s.workers| && s.workers[w].Blocked?
    ensures || (exists w :: 0 <= w < |s.workers| && Heading(s.workers[w]) == 1)
            || (exists p :: 0 <= p < |s.producers| && s.producers[p].Pushed?)
  {
    NoWorkerSleepsOverWork(producers, workers, max, actions, s);
    if forall w | 0 <= w < |s.workers| :: Heading(s.workers[w]) == 0 {
      SumNone(s.workers, Heading);
      if forall p | 0 <= p < |s.producers| :: !s.producers[p].Pushed? {
        SumNone(s.producers, OwesNotify);
      }
    }
  }

  /**
    When the winning shutdown call returns, exactly the tasks pushed before the last worker
    exited have run to their end, once each, and that covers all pushed before stop_ was set;
    what is left in the queue was pushed later.
   */
  lemma DrainedOnShutdown(producers: nat, workers: nat, max: nat, actions: seq<Action>, s: Pool)
    requires 0 < workers && max + producers <= SIZE_MAX + 1
    requires RunsTo(producers, workers, max, actions, s)
    requires s.phase == Returned
    ensures s.stopMark <= s.exitMark <= |s.pushed|
    ensures forall ticket: nat :: s.ran[ticket] == if ticket < s.exitMark then 1 else 0
    ensures s.tasks == s.pushed[s.exitMark..]
  {
    Reached(producers, workers, max, actions, s);
    DrainedWhenReturned(s);
  }

  lemma DrainedWhenReturned(s: Pool)
    requires Inv(s) && s.phase == Returned && |s.workers| > 0
    ensures s.stopMark <= s.exitMark <= |s.pushed|
    ensures forall ticket: nat :: s.ran[ticket] == if ticket < s.exitMark then 1 else 0
    ensures s.tasks == s.pushed[s.exitMark..]
  {
    assert s.workers[0].Exited?;
    NothingHeld(s);
    forall ticket: nat ensures s.ran[ticket] == if ticket < s.exitMark then 1 else 0 {
      assert Once(s, ticket);
    }
  }

  /** At any time a worker holds the task pushed with its ticket, tickets are popped in push order, none twice. */
  lemma PoppedInPushOrder(producers: nat, workers: nat, max: nat, actions: seq<Action>, s: Pool)
    requires max + producers <= SIZE_MAX + 1 && RunsTo(producers, workers, max, actions, s)
    ensures s.popped <= |s.pushed| && s.tasks == s.pushed[s.popped..]
    ensures forall w | 0 <= w < |s.workers| && s.workers[w].Holding? ::
              && s.workers[w].ticket < s.popped
              && s.workers[w].task == s.pushed[s.workers[w].ticket]
              && s.ran[s.workers[w].ticket] == 0
    ensures forall ticket: nat :: s.ran[ticket] <= if ticket < s.popped then 1 else 0
  {
    Reached(producers, workers, max, actions, s);
    forall ticket: nat ensures s.ran[ticket] <= if ticket < s.popped then 1 else 0 {
      assert Once(s, ticket);
    }
    forall w | 0 <= w < |s.workers| && s.workers[w].Holding?
      ensures s.workers[w].ticket < s.popped && s.workers[w].task == s.pushed[s.workers[w].ticket]
      ensures s.ran[s.workers[w].ticket] == 0
    {
      assert HoldsItsTask(s, w);
      assert Once(s, s.workers[w].ticket);
      SumAtLeast(s.workers, w, Holds(s.workers[w].ticket));
    }
  }
}
