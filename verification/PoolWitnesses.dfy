/** Schedules that show how far the pool's guarantees go. */
module PoolWitnesses {
  import opened Wrappers
  import opened PoolModel
  import opened PoolSafety

  lemma {:induction false} ExecConcat(s: Pool, a: seq<Action>, b: seq<Action>)
    requires Exec(s, a).Some?
    ensures Exec(s, a + b) == Exec(Exec(s, a).value, b)
    decreases |a|
  {
    if a == [] {
      assert a + b == b;
    } else {
      assert (a + b)[1..] == a[1..] + b;
      ExecConcat(Next(s, a[0]), a[1..], b);
    }
  }

  lemma ExecSnoc(s0: Pool, actions: seq<Action>, s: Pool, a: Action)
    requires Exec(s0, actions) == Some(s) && Enabled(s, a)
    ensures Exec(s0, actions + [a]) == Some(Next(s, a))
  {
    ExecConcat(s0, actions, [a]);
    assert Exec(Next(s, a), []) == Some(Next(s, a));
    assert [a][1..] == [];
  }

  /** Extend a schedule by one step. */
  lemma Then(s0: Pool, actions: seq<Action>, s: Pool, a: Action) returns (actions': seq<Action>, s': Pool)
    requires Exec(s0, actions) == Some(s) && Enabled(s, a)
    ensures Exec(s0, actions') == Some(s') && s' == Next(s, a)
  {
    ExecSnoc(s0, actions, s, a);
    actions', s' := actions + [a], Next(s, a);
  }

  // ----- the backpressure bound is attained -----

  /** Nobody blocks, nobody owns the mutex, stop_ is clear. */
  ghost predicate Calm(s: Pool) {
    !s.stop && s.mutex.None? && NoneBlocked(s)
  }

  /** One uninterrupted enqueue by a producer. */
  lemma EnqueueOnce(s0: Pool, actions: seq<Action>, s: Pool, p: nat) returns (actions': seq<Action>, s': Pool)
    requires Exec(s0, actions) == Some(s) && Calm(s)
    requires p < |s.producers| && s.producers[p].Idle? && s.pending < s.max <= SIZE_MAX
    ensures Exec(s0, actions') == Some(s') && Calm(s') && s'.max == s.max
    ensures s'.producers == s.producers && s'.pending == s.pending + 1
  {
    hide Exec;
    actions', s' := Then(s0, actions, s, CheckStop(p, 0));
    actions', s' := Then(s0, actions', s', CheckCapacity(p));
    actions', s' := Then(s0, actions', s', Count(p));
    actions', s' := Then(s0, actions', s', Push(p));
    actions', s' := Then(s0, actions', s', NotifyOne(p, None));
    assert s'.producers == s.producers;
  }

  lemma {:induction false} Fill(s0: Pool, actions: seq<Action>, s: Pool, n: nat) returns (actions': seq<Action>, s': Pool)
    requires Exec(s0, actions) == Some(s) && Calm(s)
    requires 0 < |s.producers| && s.producers[0].Idle? && s.pending + n <= s.max <= SIZE_MAX
    ensures Exec(s0, actions') == Some(s') && Calm(s') && s'.max == s.max
    ensures s'.producers == s.producers && s'.pending == s.pending + n
    decreases n
  {
    hide Exec, Calm;
    if n == 0 {
      actions', s' := actions, s;
    } else {
      actions', s' := EnqueueOnce(s0, actions, s, 0);
      actions', s' := Fill(s0, actions', s', n - 1);
    }
  }

  ghost predicate FirstAre(s: Pool, k: nat, counted: bool) {
    && k <= |s.producers|
    && (forall p | 0 <= p < k :: if counted then s.producers[p].Counted? else s.producers[p].Cleared?)
    && (forall p | k <= p < |s.producers| :: if counted then s.producers[p].Cleared? else s.producers[p].Idle?)
  }

  /** Every producer passes both checks before any of them counts. */
  lemma {:induction false} AllPassChecks(s0: Pool, actions: seq<Action>, s: Pool, k: nat)
    returns (actions': seq<Action>, s': Pool)
    requires Exec(s0, actions) == Some(s) && !s.stop && s.pending < s.max && FirstAre(s, k, false)
    ensures Exec(s0, actions') == Some(s') && FirstAre(s', |s.producers|, false)
    ensures |s'.producers| == |s.producers| && s'.pending == s.pending
    decreases |s.producers| - k
  {
    if k == |s.producers| {
      actions', s' := actions, s;
    } else {
      hide Exec;
      actions', s' := Then(s0, actions, s, CheckStop(k, 0));
      actions', s' := Then(s0, actions', s', CheckCapacity(k));
      actions', s' := AllPassChecks(s0, actions', s', k + 1);
    }
  }

  lemma {:induction false} AllCount(s0: Pool, actions: seq<Action>, s: Pool, k: nat)
    returns (actions': seq<Action>, s': Pool)
    requires Exec(s0, actions) == Some(s) && FirstAre(s, k, true)
    requires s.pending + (|s.producers| - k) <= SIZE_MAX
    ensures Exec(s0, actions') == Some(s') && s'.pending == s.pending + (|s.producers| - k)
    decreases |s.producers| - k
  {
    if k == |s.producers| {
      actions', s' := actions, s;
    } else {
      hide Exec;
      actions', s' := Then(s0, actions, s, Count(k));
      actions', s' := AllCount(s0, actions', s', k + 1);
    }
  }

  /** The bound of `BackpressureBound` is tight for every number of producers and every capacity. */
  lemma BoundIsAttained(producers: nat, workers: nat, max: nat) returns (actions: seq<Action>, s: Pool)
    requires 0 < producers && 0 < max && max + producers <= SIZE_MAX + 1
    ensures RunsTo(producers, workers, max, actions, s)
    ensures s.pending == max + producers - 1
  {
    var s0 := Init(producers, workers, max);
    actions, s := Fill(s0, [], s0, max - 1);
    actions, s := AllPassChecks(s0, actions, s, 0);
    actions, s := AllCount(s0, actions, s, 0);
  }

  // ----- an accepted task need not run -----

  /**
    A producer that passed the stop check before shutdown can push after the last worker has
    exited: its enqueue returns normally and the task never runs.
   */
  lemma AcceptedTaskCanBeStranded() returns (actions: seq<Action>, s: Pool)
    ensures RunsTo(1, 1, 100000, actions, s)
    ensures s.phase == Returned && s.producers == [Idle] && s.tasks == [42] && s.ran[0] == 0
  {
    var s0 := Init(1, 1, 100000);
    actions, s := Then(s0, [], s0, CheckStop(0, 42));
    hide Exec;
    actions, s := Then(s0, actions, s, CheckCapacity(0));
    actions, s := Then(s0, actions, s, Count(0));
    actions, s := Then(s0, actions, s, Shutdown);
    actions, s := Then(s0, actions, s, NotifyAll);
    assert s.producers == [Counted(42)] && s.workers == [Contending];
    actions, s := LateProducer(s0, actions, s);
  }

  lemma LateProducer(s0: Pool, actions: seq<Action>, s: Pool) returns (actions': seq<Action>, s': Pool)
    requires Exec(s0, actions) == Some(s)
    requires s.stop && s.tasks == [] && s.mutex.None? && s.phase == Joining && s.ran[0] == 0
    requires s.workers == [Contending] && s.producers == [Counted(42)]
    ensures Exec(s0, actions') == Some(s')
    ensures s'.phase == Returned && s'.producers == [Idle] && s'.tasks == [42] && s'.ran[0] == 0
  {
    hide Exec;
    actions', s' := Then(s0, actions, s, Lock(0));
    actions', s' := Then(s0, actions', s', Test(0));
    actions', s' := Then(s0, actions', s', Take(0));
    assert s'.workers == [Exited];
    actions', s' := Then(s0, actions', s', Join);
    actions', s' := Then(s0, actions', s', Push(0));
    actions', s' := Then(s0, actions', s', NotifyOne(0, None));
  }
}
