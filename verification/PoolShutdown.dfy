/**
  Does the winning shutdown call return?

  stop_ is set and notify_all is sent without mutex_, so a worker that has just found the
  wait predicate false can go to sleep after the notification. This module proves that this
  is the only way shutdown can hang, that at most one worker can be caught like that, and
  that without it every schedule is short and ends with shutdown returning.
 */
module PoolShutdown {
  import opened Wrappers
  import opened Counting
  import opened PoolModel
  import opened PoolSafety
  import opened PoolProgress

  ghost predicate NoSpuriousWake(actions: seq<Action>) {
    forall i | 0 <= i < |actions| :: !actions[i].Wake?
  }

  ghost predicate AfterNotify(s: Pool) {
    s.phase == Joining || s.phase == Returned
  }

  // ----- a stalled shutdown -----

  ghost predicate Stalled(s: Pool) {
    s.phase == Joining && Stuck(s)
  }

  /**
    If shutdown is waiting and no thread can move, exactly one worker is asleep: the one that
    was about to block when notify_all was sent. Everyone else is done.
   */
  lemma OnlyTheMissedWorkerStalls(producers: nat, workers: nat, max: nat, actions: seq<Action>, s: Pool)
    requires max + producers <= SIZE_MAX + 1 && RunsTo(producers, workers, max, actions, s)
    requires Stalled(s)
    ensures s.missed.Some? && s.missed.value < |s.workers| && s.workers[s.missed.value].Blocked?
    ensures forall w | 0 <= w < |s.workers| && s.missed != Some(w) :: s.workers[w].Exited?
    ensures AllIdle(s)
    ensures s.mutex.None?
  {
    Reached(producers, workers, max, actions, s);
    StalledNeedsMissed(s);
  }

  lemma StalledNeedsMissed(s: Pool)
    requires Inv(s) && Stalled(s)
    ensures s.missed.Some? && s.missed.value < |s.workers| && s.workers[s.missed.value].Blocked?
    ensures forall w | 0 <= w < |s.workers| && s.missed != Some(w) :: s.workers[w].Exited?
    ensures AllIdle(s)
    ensures s.mutex.None?
  {
    StuckMeansAsleep(s);
    assert !Enabled(s, Join);
  }

  // ----- how long it can take -----

  lemma AfterNotifyStep(s: Pool, a: Action)
    requires Shape(s) && AfterNotify(s) && Enabled(s, a)
    ensures AfterNotify(Next(s, a)) && s.stop && Next(s, a).stop
    ensures a != NotifyAll
  {
  }

  /** After notify_all every schedule of real steps is short. */
  lemma {:induction false} ShutdownIsBounded(s: Pool, actions: seq<Action>)
    requires Inv(s) && AfterNotify(s) && ProgressOnly(actions) && Exec(s, actions).Some?
    ensures |actions| <= Work(s)
    decreases |actions|
  {
    if actions != [] {
      hide Inv, Enabled, Next, Work, Exec;
      ExecFirst(s, actions);
      ShapeOf(s);
      AfterNotifyStep(s, actions[0]);
      StepWorks(s, actions[0]);
      InvStep(s, actions[0]);
      ShutdownIsBounded(Next(s, actions[0]), actions[1..]);
    }
  }

  lemma ExecFirst(s: Pool, actions: seq<Action>)
    requires actions != [] && Exec(s, actions).Some?
    ensures Enabled(s, actions[0]) && Exec(s, actions) == Exec(Next(s, actions[0]), actions[1..])
  {
  }

  lemma ExecCons(s: Pool, a: Action, rest: seq<Action>)
    requires Enabled(s, a)
    ensures Exec(s, [a] + rest) == Exec(Next(s, a), rest)
  {
    assert ([a] + rest)[1..] == rest;
  }

  // ----- who can still wake the missed worker -----

  /** A producer whose push and notification are bound to come while worker `w` is asleep. */
  predicate Rescuer(s: Pool, p: nat, w: nat)
    requires p < |s.producers| && w < |s.workers|
  {
    match s.producers[p]
    case Idle => false
    case Admitted(_) => s.pending < s.max
    case Cleared(_) => true
    case Counted(_) => true
    case Pushed => s.workers[w].Blocked?
  }

  ghost predicate HasRescuer(s: Pool, w: nat)
    requires w < |s.workers|
  {
    exists p :: 0 <= p < |s.producers| && Rescuer(s, p, w)
  }

  predicate Caught(w: Worker) {
    w.Blocking? || w.Blocked?
  }

  /** Every worker that is asleep, or about to be, will be notified. */
  ghost predicate AllRescued(s: Pool) {
    forall w | 0 <= w < |s.workers| && Caught(s.workers[w]) :: HasRescuer(s, w)
  }

  /** A rescuer stays one until its worker is awake, or hands over to another. */
  lemma RescuerStep(s: Pool, a: Action, p: nat, w: nat)
    requires Shape(s) && Conserved(s) && OneMissed(s) && AfterNotify(s) && Enabled(s, a)
    requires p < |s.producers| && w < |s.workers| && Caught(s.workers[w]) && Rescuer(s, p, w)
    ensures Caught(Next(s, a).workers[w]) ==> HasRescuer(Next(s, a), w)
  {
    var s' := Next(s, a);
    assert WorkerOk(s, w);
    if Caught(s'.workers[w]) {
      if a.Count? {
        assert Rescuer(s', a.p, w);
      } else {
        if a.Release? {
          SumAtLeastOne(s, a.w);
        }
        if a == CheckCapacity(p) || a == Push(p) {
          assert Rescuer(s', p, w);
        } else if a.NotifyOne? && s.workers[w].Blocked? {
          assert false;
        } else {
          assert Rescuer(s', p, w);
        }
      }
    }
  }

  lemma SumAtLeastOne(s: Pool, w: nat)
    requires Conserved(s) && w < |s.workers| && s.workers[w].Tallied?
    ensures s.pending > 0
  {
    SumAtLeast(s.workers, w, Unfinished);
  }

  lemma AllRescuedStep(s: Pool, a: Action)
    requires Shape(s) && Conserved(s) && OneMissed(s) && AfterNotify(s) && AllRescued(s) && Enabled(s, a)
    ensures AllRescued(Next(s, a))
  {
    var s' := Next(s, a);
    forall w | 0 <= w < |s'.workers| && Caught(s'.workers[w]) ensures HasRescuer(s', w) {
      assert WorkerOk(s, w);
      assert Caught(s.workers[w]);
      var p :| 0 <= p < |s.producers| && Rescuer(s, p, w);
      RescuerStep(s, a, p, w);
    }
  }

  lemma PartsOf(s: Pool)
    requires Inv(s)
    ensures Shape(s) && Conserved(s) && OneMissed(s)
  {
  }

  /** If no worker was caught, or whoever was will be notified, shutdown returns by real steps alone. */
  lemma {:induction false} ShutdownCompletes(s: Pool) returns (actions: seq<Action>)
    requires Inv(s) && AfterNotify(s) && AllRescued(s)
    ensures ProgressOnly(actions) && Exec(s, actions).Some? && Exec(s, actions).value.phase == Returned
    decreases Work(s)
  {
    if s.phase == Returned {
      actions := [];
    } else {
      NotStalledIfRescued(s);
      var a :| Progress(a) && Enabled(s, a);
      PartsOf(s);
      AfterNotifyStep(s, a);
      StepWorks(s, a);
      AllRescuedStep(s, a);
      hide Enabled, Next, Inv, AllRescued, Work;
      InvStep(s, a);
      var rest := ShutdownCompletes(Next(s, a));
      ExecCons(s, a, rest);
      actions := [a] + rest;
    }
  }

  lemma NotStalledIfRescued(s: Pool)
    requires Inv(s) && AllRescued(s) && s.phase == Joining
    ensures !Stalled(s)
  {
    if Stalled(s) {
      StalledNeedsMissed(s);
      IdleCannotRescue(s, s.missed.value);
    }
  }

  lemma IdleCannotRescue(s: Pool, w: nat)
    requires AllIdle(s) && w < |s.workers|
    ensures !HasRescuer(s, w)
  {
  }

  // ----- when it hangs -----

  /** No schedule without a spurious wake-up lets shutdown return from here. */
  ghost predicate Hung(s: Pool) {
    forall actions | NoSpuriousWake(actions) && Exec(s, actions).Some? :: Exec(s, actions).value.phase != Returned
  }

  /** Some schedule from here leaves shutdown waiting for ever. */
  ghost predicate CanHang(s: Pool) {
    exists actions :: NoSpuriousWake(actions) && Exec(s, actions).Some? && Hung(Exec(s, actions).value)
  }

  lemma {:induction false} AsleepForEver(s: Pool, w: nat, actions: seq<Action>)
    requires s.phase == Joining && s.stop && AllIdle(s) && w < |s.workers| && s.workers[w].Blocked?
    requires NoSpuriousWake(actions) && Exec(s, actions).Some?
    ensures Exec(s, actions).value.phase == Joining
    decreases |actions|
  {
    if actions != [] {
      var a := actions[0];
      assert !a.Wake?;
      AsleepForEver(Next(s, a), w, actions[1..]);
    }
  }

  lemma {:induction false} AllRescuedExec(s: Pool, actions: seq<Action>)
    requires Inv(s) && AfterNotify(s) && AllRescued(s) && Exec(s, actions).Some?
    ensures var s' := Exec(s, actions).value; Inv(s') && AfterNotify(s') && AllRescued(s')
    decreases |actions|
  {
    if actions != [] {
      PartsOf(s);
      AfterNotifyStep(s, actions[0]);
      AllRescuedStep(s, actions[0]);
      InvStep(s, actions[0]);
      hide Inv, AllRescued, Enabled, Next;
      AllRescuedExec(Next(s, actions[0]), actions[1..]);
    }
  }

  lemma NoHangIfRescued(s: Pool)
    requires Inv(s) && AfterNotify(s) && AllRescued(s)
    ensures !CanHang(s)
  {
    forall actions | NoSpuriousWake(actions) && Exec(s, actions).Some? ensures !Hung(Exec(s, actions).value) {
      AllRescuedExec(s, actions);
      hide Inv, AllRescued, Enabled, Next;
      var rest := ShutdownCompletes(Exec(s, actions).value);
      assert NoSpuriousWake(rest);
    }
  }

  /** The enqueue of `p` is over, refused, or has only its notification left. */
  predicate Harmless(s: Pool, p: nat)
    requires p < |s.producers|
  {
    match s.producers[p]
    case Idle => true
    case Admitted(_) => s.pending >= s.max
    case Cleared(_) => false
    case Counted(_) => false
    case Pushed => true
  }

  /** While worker `w` is about to block, the harmless producers retire one by one. */
  lemma {:induction false} HarmlessRetire(s: Pool, w: nat, k: nat) returns (actions: seq<Action>)
    requires s.phase == Joining && s.stop && NoneBlocked(s) && w < |s.workers| && s.workers[w].Blocking?
    requires k <= |s.producers|
    requires forall p | 0 <= p < |s.producers| :: if p < k then s.producers[p].Idle? else Harmless(s, p)
    ensures NoSpuriousWake(actions) && Exec(s, actions).Some?
    ensures var s' := Exec(s, actions).value;
            s'.phase == Joining && s'.stop && AllIdle(s') && s'.workers == s.workers
    decreases |s.producers| - k
  {
    if k == |s.producers| {
      actions := [];
    } else if s.producers[k].Idle? {
      actions := HarmlessRetire(s, w, k + 1);
    } else {
      var a := if s.producers[k].Pushed? then NotifyOne(k, None) else CheckCapacity(k);
      var s1 := Next(s, a);
      assert forall p | 0 <= p < |s1.producers| && p != k :: s1.producers[p] == s.producers[p];
      var rest := HarmlessRetire(s1, w, k + 1);
      ExecCons(s, a, rest);
      actions := [a] + rest;
    }
  }

  lemma HangIfNoRescuer(s: Pool, w: nat)
    requires s.phase == Joining && s.stop && NoneBlocked(s) && w < |s.workers| && s.workers[w].Blocking?
    requires forall p | 0 <= p < |s.producers| :: Harmless(s, p)
    ensures CanHang(s)
  {
    var actions := HarmlessRetire(s, w, 0);
    var s1 := Exec(s, actions).value;
    var s2 := Next(s1, Block(w));
    ExecThen(s, actions, Block(w));
    assert Hung(s2) by {
      forall more | NoSpuriousWake(more) && Exec(s2, more).Some? ensures Exec(s2, more).value.phase != Returned {
        AsleepForEver(s2, w, more);
      }
    }
    assert NoSpuriousWake(actions + [Block(w)]);
  }

  lemma {:induction false} ExecThen(s: Pool, actions: seq<Action>, a: Action)
    requires Exec(s, actions).Some? && Enabled(Exec(s, actions).value, a)
    ensures Exec(s, actions + [a]) == Some(Next(Exec(s, actions).value, a))
    decreases |actions|
  {
    if actions == [] {
      ExecCons(s, a, []);
      assert [a] + [] == [a];
    } else {
      ExecThen(Next(s, actions[0]), actions[1..], a);
      ExecCons(s, actions[0], actions[1..] + [a]);
      assert [actions[0]] + (actions[1..] + [a]) == actions + [a];
    }
  }

  /**
    Shutdown can hang exactly if, when notify_all is sent, some worker is between its failed
    predicate and its wait, and every enqueue under way is over, about to be refused, or has
    already pushed.
   */
  lemma ShutdownCanHangIff(s: Pool)
    requires Inv(s) && s.phase == Stopping
    ensures CanHang(Next(s, NotifyAll)) <==>
            && (exists w :: 0 <= w < |s.workers| && s.workers[w].Blocking?)
            && (forall p | 0 <= p < |s.producers| :: Harmless(s, p))
  {
    PartsOf(s);
    var s1 := Next(s, NotifyAll);
    if (exists w :: 0 <= w < |s.workers| && s.workers[w].Blocking?)
       && (forall p | 0 <= p < |s.producers| :: Harmless(s, p)) {
      var w :| 0 <= w < |s.workers| && s.workers[w].Blocking?;
      assert forall p | 0 <= p < |s1.producers| :: Harmless(s, p) ==> Harmless(s1, p);
      HangIfNoRescuer(s1, w);
    } else {
      InvStep(s, NotifyAll);
      RescuedAtNotify(s);
      NoHangIfRescued(s1);
    }
  }

  lemma RescuedAtNotify(s: Pool)
    requires Shape(s) && s.phase == Stopping
    requires !((exists w :: 0 <= w < |s.workers| && s.workers[w].Blocking?)
               && (forall p | 0 <= p < |s.producers| :: Harmless(s, p)))
    ensures AllRescued(Next(s, NotifyAll))
  {
    var s1 := Next(s, NotifyAll);
    forall w | 0 <= w < |s1.workers| && Caught(s1.workers[w]) ensures HasRescuer(s1, w) {
      assert s.workers[w].Blocking?;
      var p :| 0 <= p < |s.producers| && !Harmless(s, p);
      assert Rescuer(s1, p, w);
    }
  }

  /** Unless some worker is about to block when notify_all is sent, shutdown can always still return. */
  lemma NoHangWithoutMissedWorker(s: Pool)
    requires Inv(s) && s.phase == Stopping
    requires forall w | 0 <= w < |s.workers| :: !s.workers[w].Blocking?
    ensures !CanHang(Next(s, NotifyAll))
  {
    ShutdownCanHangIff(s);
  }

  /** And a fresh pool of one worker can get there. */
  lemma ShutdownHangIsReachable() returns (actions: seq<Action>, s: Pool)
    ensures RunsTo(1, 1, 100000, actions, s) && s.phase == Stopping && CanHang(Next(s, NotifyAll))
  {
    var s0 := Init(1, 1, 100000);
    var s1 := Next(s0, Lock(0));
    var s2 := Next(s1, Test(0));
    s := Next(s2, Shutdown);
    ExecCons(s2, Shutdown, []);
    ExecCons(s1, Test(0), [Shutdown] + []);
    ExecCons(s0, Lock(0), [Test(0)] + ([Shutdown] + []));
    actions := [Lock(0)] + ([Test(0)] + ([Shutdown] + []));
    Reached(1, 1, 100000, actions, s);
    assert s.workers[0].Blocking?;
    ShutdownCanHangIff(s);
  }
}
