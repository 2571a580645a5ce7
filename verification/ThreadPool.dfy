/**
  The pool object itself, in place on the shared fields; program counters and history are
  ghost. `View` is the state of the machine in `PoolModel`. A step method takes exactly one
  atomic step of the machine; `Enqueue`, `ServeOne`, `FinishTask`, `BeginShutdown` and
  `FinishShutdown` are whole calls made of them. All keep `Valid`, the machine's invariant.
 */
module ThreadPools {
  import opened Wrappers
  import opened PoolModel
  import opened PoolSafety

  datatype EnqueueResult = Accepted | Stopped | Saturated

  class ThreadPool {
    const maxQueueSize: nat
    var stop: bool
    var tasks: seq<Task>
    var pendingTasks: nat
    var completedTasks: nat

    ghost var mutex: Option<nat>
    ghost var producers: seq<Producer>
    ghost var workers: seq<Worker>
    ghost var phase: Phase
    ghost var pushed: seq<Task>
    ghost var popped: nat
    ghost var ran: multiset<nat>
    ghost var counted: nat
    ghost var stopMark: nat
    ghost var exitMark: nat
    ghost var missed: Option<nat>

    ghost function View(): Pool
      reads this
    {
      Pool(maxQueueSize, stop, tasks, pendingTasks, completedTasks, mutex, producers, workers, phase,
           pushed, popped, ran, counted, stopMark, exitMark, missed)
    }

    /** What every reachable pool satisfies. */
    ghost predicate Valid()
      reads this
    {
      Inv(View())
    }

    constructor (threads: nat, maxQueueSize: nat := 100000, ghost callers: nat)
      requires maxQueueSize + callers <= SIZE_MAX + 1
      ensures Valid()
      ensures View() == Init(callers, threads, maxQueueSize)
    {
      this.maxQueueSize := maxQueueSize;
      stop, tasks, pendingTasks, completedTasks := false, [], 0, 0;
      mutex, phase, missed := None, Running, None;
      producers, workers := seq(callers, i => Idle), seq(threads, i => Contending);
      pushed, popped, ran, counted, stopMark, exitMark := [], 0, multiset{}, 0, 0, 0;
      new;
      InvInit(callers, threads, maxQueueSize);
    }

    // ----- the steps of enqueue -----

    method LoadStop(ghost p: nat, task: Task) returns (throws: bool)
      requires Valid() && Enabled(View(), CheckStop(p, task))
      modifies this`producers
      ensures Valid() && View() == Next(old(View()), CheckStop(p, task))
      ensures throws == old(stop)
    {
      hide Inv;
      InvStep(View(), CheckStop(p, task));
      throws := stop;
      if !stop {
        producers := producers[p := Admitted(task)];
      }
    }

    method LoadPending(ghost p: nat) returns (throws: bool)
      requires Valid() && Enabled(View(), CheckCapacity(p))
      modifies this`producers
      ensures Valid() && View() == Next(old(View()), CheckCapacity(p))
      ensures throws == (old(pendingTasks) >= maxQueueSize)
    {
      hide Inv;
      InvStep(View(), CheckCapacity(p));
      throws := pendingTasks >= maxQueueSize;
      producers := producers[p := if pendingTasks >= maxQueueSize then Idle else Cleared(producers[p].task)];
    }

    method FetchAddPending(ghost p: nat)
      requires Valid() && Enabled(View(), Count(p))
      modifies this`producers, this`pendingTasks, this`counted
      ensures Valid() && View() == Next(old(View()), Count(p))
    {
      hide Inv;
      InvStep(View(), Count(p));
      pendingTasks := Increment(pendingTasks);
      producers, counted := producers[p := Counted(producers[p].task)], counted + 1;
    }

    method Emplace(ghost p: nat, task: Task)
      requires Valid() && Enabled(View(), Push(p)) && producers[p].task == task
      modifies this`producers, this`tasks, this`pushed
      ensures Valid() && View() == Next(old(View()), Push(p))
    {
      hide Inv;
      InvStep(View(), Push(p));
      tasks := tasks + [task];
      producers, pushed := producers[p := Pushed], pushed + [task];
    }

    /** The condition variable wakes one sleeper, if there is any. */
    method CvNotifyOne(ghost p: nat, ghost woken: Option<nat>)
      requires Valid() && Enabled(View(), PoolModel.NotifyOne(p, woken))
      modifies this`producers, this`workers
      ensures Valid() && View() == Next(old(View()), PoolModel.NotifyOne(p, woken))
    {
      hide Inv;
      InvStep(View(), PoolModel.NotifyOne(p, woken));
      producers := producers[p := Idle];
      if woken.Some? {
        workers := workers[woken.value := Contending];
      }
    }

    /** The whole call, when no other thread moves meanwhile. */
    method Enqueue(ghost p: nat, task: Task, ghost woken: Option<nat>) returns (result: EnqueueResult)
      requires Valid() && p < |producers| && producers[p].Idle? && mutex.None?
      requires match woken
               case None => NoneBlocked(View())
               case Some(w) => w < |workers| && workers[w].Blocked?
      modifies this`producers, this`workers, this`tasks, this`pendingTasks, this`counted, this`pushed
      ensures Valid()
      ensures result == if old(stop) then Stopped else if old(pendingTasks) >= maxQueueSize then Saturated else Accepted
      ensures result != Accepted ==> View() == old(View())
      ensures result == Accepted ==>
                && tasks == old(tasks) + [task] && pendingTasks == old(pendingTasks) + 1
                && producers == old(producers)
                && (woken.Some? ==> workers == old(workers)[woken.value := Contending])
                && (woken.None? ==> workers == old(workers))
    {
      hide Inv;
      ghost var before := producers;
      var throws := LoadStop(p, task);
      if throws {
        return Stopped;
      }
      throws := LoadPending(p);
      if throws {
        assert producers == before;
        return Saturated;
      }
      CountFits(View(), p);
      FetchAddPending(p);
      Emplace(p, task);
      CvNotifyOne(p, woken);
      assert producers == before;
      return Accepted;
    }

    // ----- the steps of a worker -----

    ghost method Acquire(w: nat)
      requires Valid() && Enabled(View(), PoolModel.Lock(w))
      modifies this`workers, this`mutex
      ensures Valid() && View() == Next(old(View()), PoolModel.Lock(w))
    {
      hide Inv;
      InvStep(View(), PoolModel.Lock(w));
      workers, mutex := workers[w := Testing], Some(w);
    }

    method EvaluatePredicate(ghost w: nat) returns (mayGo: bool)
      requires Valid() && Enabled(View(), PoolModel.Test(w))
      modifies this`workers
      ensures Valid() && View() == Next(old(View()), PoolModel.Test(w))
      ensures mayGo == (stop || tasks != [])
    {
      hide Inv;
      InvStep(View(), PoolModel.Test(w));
      mayGo := stop || tasks != [];
      workers := workers[w := if stop || tasks != [] then Taking else Blocking];
    }

    ghost method FallAsleep(w: nat)
      requires Valid() && Enabled(View(), PoolModel.Block(w))
      modifies this`workers, this`mutex
      ensures Valid() && View() == Next(old(View()), PoolModel.Block(w))
    {
      hide Inv;
      InvStep(View(), PoolModel.Block(w));
      workers, mutex := workers[w := Blocked], None;
    }

    ghost method WakeSpuriously(w: nat)
      requires Valid() && Enabled(View(), PoolModel.Wake(w))
      modifies this`workers
      ensures Valid() && View() == Next(old(View()), PoolModel.Wake(w))
    {
      hide Inv;
      InvStep(View(), PoolModel.Wake(w));
      workers := workers[w := Contending];
    }

    /** Returns no task when the worker's loop ends. */
    method TakeFront(ghost w: nat) returns (task: Option<Task>)
      requires Valid() && Enabled(View(), PoolModel.Take(w))
      modifies this`workers, this`mutex, this`tasks, this`popped, this`exitMark
      ensures Valid() && View() == Next(old(View()), PoolModel.Take(w))
      ensures task == if old(tasks) == [] then None else Some(old(tasks)[0])
    {
      hide Inv;
      InvStep(View(), PoolModel.Take(w));
      if stop && tasks == [] {
        workers, mutex, exitMark := workers[w := Exited], None, |pushed|;
        return None;
      }
      task := Some(tasks[0]);
      workers, mutex, popped := workers[w := Holding(popped, tasks[0])], None, popped + 1;
      tasks := tasks[1..];
    }

    ghost method RunToEnd(w: nat)
      requires Valid() && Enabled(View(), PoolModel.RunTask(w))
      modifies this`workers, this`ran
      ensures Valid() && View() == Next(old(View()), PoolModel.RunTask(w))
    {
      hide Inv;
      InvStep(View(), PoolModel.RunTask(w));
      ran := ran + multiset{workers[w].ticket};
      workers := workers[w := Ran];
    }

    method FetchAddCompleted(ghost w: nat)
      requires Valid() && Enabled(View(), PoolModel.Tally(w))
      modifies this`workers, this`completedTasks
      ensures Valid() && View() == Next(old(View()), PoolModel.Tally(w))
    {
      hide Inv;
      InvStep(View(), PoolModel.Tally(w));
      completedTasks := completedTasks + 1;
      workers := workers[w := Tallied];
    }

    method FetchSubPending(ghost w: nat)
      requires Valid() && Enabled(View(), PoolModel.Release(w))
      modifies this`workers, this`pendingTasks
      ensures Valid() && View() == Next(old(View()), PoolModel.Release(w))
    {
      hide Inv;
      InvStep(View(), PoolModel.Release(w));
      pendingTasks := Decrement(pendingTasks);
      workers := workers[w := Contending];
    }

    /**
      One turn of the worker loop, when no other thread moves meanwhile. With a task queued the
      front task is run and both counters move once; otherwise the worker leaves the loop if
      the pool is stopped and falls asleep if it is not.
     */
    method ServeOne(ghost w: nat) returns (more: bool)
      requires Valid() && w < |workers| && workers[w].Contending? && mutex.None?
      modifies this`workers, this`mutex, this`tasks, this`popped, this`exitMark, this`ran, this`completedTasks, this`pendingTasks
      ensures Valid() && mutex.None?
      ensures more == !(old(stop) && old(tasks) == [])
      ensures if old(tasks) == [] then
                && workers == old(workers)[w := if old(stop) then Exited else Blocked]
                && tasks == [] && popped == old(popped) && ran == old(ran)
                && completedTasks == old(completedTasks) && pendingTasks == old(pendingTasks)
              else
                && workers == old(workers) && tasks == old(tasks)[1..]
                && popped == old(popped) + 1 && ran == old(ran) + multiset{old(popped)}
                && completedTasks == old(completedTasks) + 1 && pendingTasks == old(pendingTasks) - 1
    {
      hide Inv;
      Acquire(w);
      var mayGo := EvaluatePredicate(w);
      more := true;
      if !mayGo {
        FallAsleep(w);
      } else {
        var task := TakeFront(w);
        if task.None? {
          more := false;
        } else {
          FinishTask(w);
        }
      }
    }

    /** The task wrapper: the callable, then the two counters. */
    method FinishTask(ghost w: nat)
      requires Valid() && w < |workers| && workers[w].Holding?
      modifies this`workers, this`ran, this`completedTasks, this`pendingTasks
      ensures Valid() && workers == old(workers)[w := Contending]
      ensures ran == old(ran) + multiset{old(workers)[w].ticket}
      ensures completedTasks == old(completedTasks) + 1 && pendingTasks == old(pendingTasks) - 1
    {
      hide Inv;
      RunToEnd(w);
      FetchAddCompleted(w);
      ReleaseFits(View(), w);
      FetchSubPending(w);
    }

    // ----- shutdown -----

    /** compare_exchange: only the winner goes on. */
    method CompareExchangeStop() returns (won: bool)
      requires Valid()
      modifies this`stop, this`phase, this`stopMark
      ensures Valid() && View() == Next(old(View()), PoolModel.Shutdown)
      ensures won == !old(stop)
    {
      hide Inv;
      InvStep(View(), PoolModel.Shutdown);
      won := !stop;
      if !stop {
        stop, phase, stopMark := true, Stopping, |pushed|;
      }
    }

    ghost method CvNotifyAll()
      requires Valid() && Enabled(View(), PoolModel.NotifyAll)
      modifies this`workers, this`phase, this`missed
      ensures Valid() && View() == Next(old(View()), PoolModel.NotifyAll)
    {
      hide Inv;
      InvStep(View(), PoolModel.NotifyAll);
      missed := if mutex.Some? && mutex.value < |workers| && workers[mutex.value].Blocking? then mutex else None;
      workers, phase := Awoken(workers), Joining;
    }

    ghost method JoinWorkers()
      requires Valid() && Enabled(View(), PoolModel.Join)
      modifies this`phase
      ensures Valid() && View() == Next(old(View()), PoolModel.Join)
    {
      hide Inv;
      InvStep(View(), PoolModel.Join);
      phase := Returned;
    }

    /** The first half of a call, when no other thread moves meanwhile: a winner leaves nobody asleep. */
    method BeginShutdown() returns (won: bool)
      requires Valid()
      modifies this`stop, this`phase, this`stopMark, this`workers, this`missed
      ensures Valid() && stop && won == !old(stop)
      ensures won ==> phase == Joining && NoneBlocked(View()) && workers == Awoken(old(workers)) && stopMark == |pushed|
      ensures !won ==> View() == old(View())
    {
      hide Inv;
      won := CompareExchangeStop();
      if won {
        CvNotifyAll();
      }
    }

    /** The second half: it returns once all workers have exited, and if there were any, they have drained the queue. */
    ghost method FinishShutdown()
      requires Valid() && phase == Joining && AllExited(View())
      modifies this`phase
      ensures Valid() && phase == Returned
      ensures |workers| > 0 ==>
                && stopMark <= exitMark <= |pushed| && tasks == pushed[exitMark..]
                && forall ticket: nat :: ran[ticket] == if ticket < exitMark then 1 else 0
    {
      JoinWorkers();
      if |workers| > 0 {
        DrainedWhenReturned(View());
      }
    }
  }

  lemma CountFits(s: Pool, p: nat)
    requires Inv(s) && Enabled(s, PoolModel.Count(p))
    ensures Increment(s.pending) == s.pending + 1
  {
    NoOverflow(s, PoolModel.Count(p));
  }

  lemma ReleaseFits(s: Pool, w: nat)
    requires Inv(s) && Enabled(s, PoolModel.Release(w))
    ensures Decrement(s.pending) == s.pending - 1
  {
    NoOverflow(s, PoolModel.Release(w));
  }
}
