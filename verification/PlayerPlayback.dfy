/**
  Which runs play every track asked for to its end, in order: exactly those without a
  disturbance, and a disturbance can be told from the chat just before the command.
 */
module PlayerPlayback {
  import opened Wrappers
  import opened PlayerModel
  import opened PlayerSafety
  import opened PlayerLiveness

  /**
    A /skip or /stop that finds something to play, or a /play that starts a track at once while
    an auto-advance is scheduled.
   */
  predicate Disturbs(c: Chat, e: Event) {
    || (e.Skip? && StateOf(c) != Idle && Upcoming(c) != [])
    || (e.Stop? && Upcoming(c) != [])
    || (e.Play? && e.query != "" && StateOf(c) == Idle && c.pending > 0)
  }

  // ----- one step -----

  /** What a step contributes to the records that `InOrder` compares. */
  ghost predicate KeepsOrder(c: Chat, e: Event, o: Outcome) {
    && Tokens(o.chat) <= 1
    && Pick(o.obs, CutIn) == []
    && Current(c) + c.queue + Asked(e) == Pick(o.obs, FinishedIn) + Current(o.chat) + o.chat.queue
  }

  lemma UndisturbedStep(c: Chat, e: Event)
    requires Coherent(c) && Enabled(c, e) && Tokens(c) <= 1 && !Disturbs(c, e)
    ensures KeepsOrder(c, e, Step(c, e))
  {
    hide KeepsOrder, Step, Coherent;
    match e {
      case Play(_, _, _) => PlayKeepsOrder(c, e);
      case StreamEof => EofKeepsOrder(c);
      case Advance => AdvanceKeepsOrder(c);
      case Skip => HarmlessSkip(c);
      case Stop => HarmlessStop(c);
      case Pause => ControlKeepsOrder(c, e);
      case Resume => ControlKeepsOrder(c, e);
      case Volume(_) => ControlKeepsOrder(c, e);
    }
  }

  lemma PlayKeepsOrder(c: Chat, e: Event)
    requires Coherent(c) && Tokens(c) <= 1 && e.Play?
    requires e.query != "" && StateOf(c) == Idle ==> c.pending == 0
    ensures KeepsOrder(c, e, Step(c, e))
  {
    PickNone(CutIn);
    PickNone(FinishedIn);
    if e.query != "" {
      PlayUndisturbed(c, e);
      hide Pick, Step;
      PickSingle(Started(Requested(e)), CutIn);
      PickSingle(Started(Requested(e)), FinishedIn);
      PickSingle(Queued(Requested(e)), CutIn);
      PickSingle(Queued(Requested(e)), FinishedIn);
    }
  }

  lemma EofKeepsOrder(c: Chat)
    requires Enabled(c, StreamEof) && Tokens(c) <= 1
    ensures KeepsOrder(c, StreamEof, Step(c, StreamEof))
  {
    hide Pick;
    PickSingle(Finished(c.session.value.current), CutIn);
    PickSingle(Finished(c.session.value.current), FinishedIn);
  }

  lemma AdvanceKeepsOrder(c: Chat)
    requires Coherent(c) && Enabled(c, Advance) && Tokens(c) <= 1
    ensures KeepsOrder(c, Advance, Step(c, Advance))
  {
    AdvanceUndisturbed(c);
    hide Pick, Step;
  }

  lemma ControlKeepsOrder(c: Chat, e: Event)
    requires Coherent(c) && Tokens(c) <= 1 && (e.Pause? || e.Resume? || e.Volume?)
    ensures KeepsOrder(c, e, Step(c, e))
  {
    PickNone(CutIn);
    PickNone(FinishedIn);
  }

  lemma HarmlessSkip(c: Chat)
    requires Coherent(c) && Tokens(c) <= 1 && !Disturbs(c, Skip)
    ensures KeepsOrder(c, Skip, Step(c, Skip))
  {
    assert Step(c, Skip).obs == [] && Current(Step(c, Skip).chat) == Current(c) && Step(c, Skip).chat.queue == c.queue;
    assert Tokens(Step(c, Skip).chat) <= 1;
    hide Step;
    PickNone(CutIn);
    PickNone(FinishedIn);
  }

  lemma HarmlessStop(c: Chat)
    requires Coherent(c) && Tokens(c) <= 1 && !Disturbs(c, Stop)
    ensures KeepsOrder(c, Stop, Step(c, Stop))
  {
    var o := Step(c, Stop);
    assert o.obs == [Cleared([])] && Current(o.chat) == Current(c) == [] && o.chat.queue == c.queue == [] && Tokens(o.chat) <= 1;
    hide Step, Pick;
    PickSingle(Cleared([]), CutIn);
    PickSingle(Cleared([]), FinishedIn);
  }

  lemma PlayUndisturbed(c: Chat, e: Event)
    requires Coherent(c) && e.Play? && e.query != ""
    requires StateOf(c) == Idle ==> c.pending == 0
    ensures var o := Step(c, e);
            if StateOf(c) == Idle
            then c.session.None? && c.queue == [] && o.obs == [Started(Requested(e))]
                 && Current(o.chat) == [Requested(e)] && o.chat.queue == [] && o.chat.pending == 0
            else o.obs == [Queued(Requested(e))] && Current(o.chat) == Current(c) && Tokens(o.chat) == Tokens(c)
                 && o.chat.queue == c.queue + [Requested(e)]
  {
  }

  lemma AdvanceUndisturbed(c: Chat)
    requires Coherent(c) && Enabled(c, Advance) && Tokens(c) <= 1
    ensures var o := Step(c, Advance);
            && !Live(c) && o.chat.pending == 0
            && Current(c) + c.queue == Current(o.chat) + o.chat.queue
            && Tokens(o.chat) <= 1
            && Pick(o.obs, CutIn) == [] && Pick(o.obs, FinishedIn) == []
  {
    AdvanceInPeace(c);
    hide Pick, Step;
    if c.queue != [] {
      PickAdvance(c.queue[0], CutIn);
      PickAdvance(c.queue[0], FinishedIn);
      assert c.queue == [c.queue[0]] + c.queue[1..];
    } else {
      PickSingle(Advanced, CutIn);
      PickSingle(Advanced, FinishedIn);
    }
  }

  lemma AdvanceInPeace(c: Chat)
    requires Coherent(c) && Enabled(c, Advance) && Tokens(c) <= 1
    ensures var o := Step(c, Advance);
            && !Live(c) && o.chat.pending == 0
            && if c.queue == [] then o.obs == [Advanced] && o.chat.queue == [] && !Live(o.chat)
               else o.obs == [Advanced, Popped(c.queue[0]), Started(c.queue[0])]
                    && Current(o.chat) == [c.queue[0]] && o.chat.queue == c.queue[1..]
  {
  }

  lemma PickAdvance(t: TrackItem, tracks: Obs -> seq<TrackItem>)
    requires tracks(Advanced) == [] && tracks(Popped(t)) == [] && tracks(Started(t)) == []
    ensures Pick([Advanced, Popped(t), Started(t)], tracks) == []
  {
    assert [Advanced, Popped(t), Started(t)] == [Advanced] + [Popped(t), Started(t)];
    PickAppend([Advanced], [Popped(t), Started(t)], tracks);
    PickSingle(Advanced, tracks);
    PickPair(Popped(t), Started(t), tracks);
  }

  // ----- who can lose a track -----

  /** What is observed along some events. */
  function Observed(c: Chat, events: seq<Event>): seq<Obs>
    requires Exec(c, events).Some?
    decreases |events|
  {
    if events == [] then [] else Step(c, events[0]).obs + Observed(Step(c, events[0]).chat, events[1..])
  }

  /** Left to itself, the chat can have a running track cut on some schedule. */
  ghost predicate CanCut(c: Chat) {
    exists events :: AllAutonomous(events) && Exec(c, events).Some? && Pick(Observed(c, events), CutIn) != []
  }

  lemma {:induction false} PeacefulCutsNothing(c: Chat, events: seq<Event>)
    requires Coherent(c) && Tokens(c) <= 1 && AllAutonomous(events) && Exec(c, events).Some?
    ensures Pick(Observed(c, events), CutIn) == []
    decreases |events|
  {
    if events == [] {
      PickNone(CutIn);
    } else {
      assert Autonomous(events[0]);
      PeacefulStep(c, events[0]);
      UndisturbedStep(c, events[0]);
      var o := Step(c, events[0]);
      PeacefulCutsNothing(o.chat, events[1..]);
      PickAppend(o.obs, Observed(o.chat, events[1..]), CutIn);
    }
  }

  lemma {:induction false} NoStreamCutsNothing(c: Chat, events: seq<Event>)
    requires Coherent(c) && !Live(c) && c.queue == [] && AllAutonomous(events) && Exec(c, events).Some?
    ensures Pick(Observed(c, events), CutIn) == []
    decreases |events|
  {
    if events == [] {
      PickNone(CutIn);
    } else {
      assert Autonomous(events[0]);
      var o := Step(c, events[0]);
      CoherentStep(c, events[0]);
      assert o.obs == [Advanced];
      PickSingle(Advanced, CutIn);
      NoStreamCutsNothing(o.chat, events[1..]);
      PickAppend(o.obs, Observed(o.chat, events[1..]), CutIn);
    }
  }

  lemma AdvanceCutsLive(c: Chat)
    requires Live(c) && c.pending > 0
    ensures Pick(Step(c, Advance).obs, CutIn) != []
  {
    var o := Step(c, Advance);
    var cut := Cut(c.session.value.current);
    if c.queue == [] {
      assert o.obs == [Advanced, cut];
      PickPair(Advanced, cut, CutIn);
    } else {
      assert o.obs == [Advanced] + [Popped(c.queue[0])] + [cut, Started(c.queue[0])];
      hide Pick;
      PickPair(cut, Started(c.queue[0]), CutIn);
      PickAppend([Advanced] + [Popped(c.queue[0])], [cut, Started(c.queue[0])], CutIn);
    }
  }

  /** Left to itself a chat can lose a running track exactly if it has two tokens and anything to play. */
  lemma CanCutIff(c: Chat)
    requires Coherent(c)
    ensures CanCut(c) <==> Tokens(c) >= 2 && Upcoming(c) != []
  {
    if Tokens(c) >= 2 && Upcoming(c) != [] {
      CutsOnSomeSchedule(c);
    } else {
      forall events | AllAutonomous(events) && Exec(c, events).Some?
        ensures Pick(Observed(c, events), CutIn) == []
      {
        if Tokens(c) <= 1 {
          PeacefulCutsNothing(c, events);
        } else {
          NoStreamCutsNothing(c, events);
        }
      }
    }
  }

  lemma CutsOnSomeSchedule(c: Chat)
    requires Coherent(c) && Tokens(c) >= 2 && Upcoming(c) != []
    ensures CanCut(c)
  {
    if Live(c) {
      assert c.pending > 0;
      hide Step, Pick;
      AdvanceCutsLive(c);
      ObservedFirst(c, [Advance]);
      assert AllAutonomous([Advance]) && Exec(c, [Advance]).Some?;
    } else {
      assert c.pending >= 2 && c.queue != [];
      var c' := Step(c, Advance).chat;
      assert Live(c') && c'.pending > 0;
      hide Step, Pick;
      AdvanceCutsLive(c');
      ObservedFirst(c', [Advance]);
      assert [Advance, Advance][1..] == [Advance];
      PickAppend(Step(c, Advance).obs, Observed(c', [Advance]), CutIn);
      assert AllAutonomous([Advance, Advance]) && Exec(c, [Advance, Advance]).Some?;
    }
  }

  lemma ObservedFirst(c: Chat, events: seq<Event>)
    requires |events| == 1 && Enabled(c, events[0])
    ensures Exec(c, events).Some? && Observed(c, events) == Step(c, events[0]).obs
  {
    assert Observed(Step(c, events[0]).chat, events[1..]) == [];
  }

  // ----- whole runs -----

  ghost predicate Undisturbed(events: seq<Event>)
    requires Run(events).Some?
  {
    if events == [] then true
    else
      var before, e := events[..|events| - 1], events[|events| - 1];
      && Run(before).Some? && Undisturbed(before)
      && !Disturbs(Run(before).value.chat, e)
  }

  /** Nothing has been cut, and the requests are the finished tracks, the running one, and the queue, in order. */
  ghost predicate InOrder(events: seq<Event>, w: World) {
    && Pick(w.log, CutIn) == []
    && Requests(events) == Pick(w.log, FinishedIn) + Current(w.chat) + w.chat.queue
  }

  /** At every point of the run that holds, and no schedule of the chat left to itself would cut a track. */
  ghost predicate Peaceful(events: seq<Event>)
    requires Run(events).Some?
  {
    && InOrder(events, Run(events).value)
    && !CanCut(Run(events).value.chat)
    && (events != [] ==> Run(events[..|events| - 1]).Some? && Peaceful(events[..|events| - 1]))
  }

  lemma {:induction false} UndisturbedPlaysInOrder(events: seq<Event>)
    requires Run(events).Some? && Undisturbed(events)
    ensures InOrder(events, Run(events).value) && Tokens(Run(events).value.chat) <= 1
  {
    if events != [] {
      var before, e := events[..|events| - 1], events[|events| - 1];
      UndisturbedPlaysInOrder(before);
      RunIsCoherent(before);
      var w := Run(before).value;
      UndisturbedStep(w.chat, e);
      hide Step, Enabled, Pick, Coherent, Tokens, Current;
      var o := Step(w.chat, e);
      PickAppend(w.log, o.obs, CutIn);
      PickAppend(w.log, o.obs, FinishedIn);
      Regroup(Pick(w.log, FinishedIn), Current(w.chat), w.chat.queue, Asked(e),
              Pick(o.obs, FinishedIn), Current(o.chat), o.chat.queue);
    }
  }

  lemma Regroup<T>(f: seq<T>, c: seq<T>, q: seq<T>, r: seq<T>, f': seq<T>, c': seq<T>, q': seq<T>)
    requires c + q + r == f' + c' + q'
    ensures (f + c + q) + r == (f + f') + c' + q'
  {
    assert (f + c + q) + r == f + (c + q + r);
    assert (f + f') + c' + q' == f + (f' + c' + q');
  }

  /** A disturbance cuts a track, makes a later cut possible, or drops a request. */
  ghost predicate Shows(c: Chat, e: Event, o: Outcome) {
    || Pick(o.obs, CutIn) != []
    || CanCut(o.chat)
    || |Upcoming(c)| + |Asked(e)| > |Pick(o.obs, FinishedIn)| + |Upcoming(o.chat)|
  }

  lemma DisturbanceShows(c: Chat, e: Event)
    requires Coherent(c) && Tokens(c) <= 1 && Disturbs(c, e)
    ensures Shows(c, e, Step(c, e))
  {
    CoherentStep(c, e);
    var o := Step(c, e);
    if e.Stop? {
      if Live(c) {
        var cut := Cut(c.session.value.current);
        assert o.obs == [Cleared(c.queue), cut];
        PickPair(Cleared(c.queue), cut, CutIn);
      } else {
        assert o.obs == [Cleared(c.queue)];
        PickSingle(Cleared(c.queue), FinishedIn);
        assert Upcoming(o.chat) == [];
      }
    } else if e.Skip? && c.queue == [] {
      var cut := Cut(c.session.value.current);
      assert o.obs == [cut];
      PickSingle(cut, CutIn);
    } else {
      assert Tokens(o.chat) >= 2 && Upcoming(o.chat) != [];
      CanCutIff(o.chat);
    }
  }

  lemma ShownInRun(before: seq<Event>, e: Event)
    requires Run(before).Some? && InOrder(before, Run(before).value)
    requires Enabled(Run(before).value.chat, e) && Shows(Run(before).value.chat, e, Step(Run(before).value.chat, e))
    ensures var r := Run(before + [e]);
            r.Some? && !(InOrder(before + [e], r.value) && !CanCut(r.value.chat))
  {
    var w := Run(before).value;
    var o := Step(w.chat, e);
    RunOn(before, e, w, o);
    hide Run, Step, Enabled, Pick, CanCut, Current, Asked;
    PickAppend(w.log, o.obs, CutIn);
    PickAppend(w.log, o.obs, FinishedIn);
    RequestsSnoc(before, e);
  }

  lemma DisturbanceBreaksPeace(before: seq<Event>, e: Event)
    requires Run(before).Some? && InOrder(before, Run(before).value) && Tokens(Run(before).value.chat) <= 1
    requires Enabled(Run(before).value.chat, e) && Disturbs(Run(before).value.chat, e)
    ensures var r := Run(before + [e]);
            r.Some? && !(InOrder(before + [e], r.value) && !CanCut(r.value.chat))
  {
    RunIsCoherent(before);
    DisturbanceShows(Run(before).value.chat, e);
    ShownInRun(before, e);
  }

  lemma {:induction false} PeacefulIsUndisturbed(events: seq<Event>)
    requires Run(events).Some? && Peaceful(events)
    ensures Undisturbed(events)
  {
    hide Step, Enabled, Disturbs, CanCut, InOrder, Tokens;
    if events != [] {
      var before, e := events[..|events| - 1], events[|events| - 1];
      PeacefulIsUndisturbed(before);
      UndisturbedPlaysInOrder(before);
      assert before + [e] == events;
      if Disturbs(Run(before).value.chat, e) {
        DisturbanceBreaksPeace(before, e);
      }
    }
  }

  lemma RequestsSnoc(events: seq<Event>, e: Event)
    ensures Requests(events + [e]) == Requests(events) + Asked(e)
  {
    assert (events + [e])[..|events + [e]| - 1] == events;
  }

  lemma {:induction false} UndisturbedIsPeaceful(events: seq<Event>)
    requires Run(events).Some? && Undisturbed(events)
    ensures Peaceful(events)
  {
    UndisturbedPlaysInOrder(events);
    RunIsCoherent(events);
    CanCutIff(Run(events).value.chat);
    if events != [] {
      UndisturbedIsPeaceful(events[..|events| - 1]);
    }
  }

  /**
    A run keeps the peace exactly if it is undisturbed: at every point nothing has been cut,
    nothing can be cut by the chat left to itself, and the requests are, in order, the tracks
    that ran to their end, the running one, and the queue.
   */
  lemma PeacefulIff(events: seq<Event>)
    requires Run(events).Some?
    ensures Peaceful(events) <==> Undisturbed(events)
  {
    if Peaceful(events) {
      PeacefulIsUndisturbed(events);
    }
    if Undisturbed(events) {
      UndisturbedIsPeaceful(events);
    }
  }

  lemma AutonomousHarmless(c: Chat, e: Event)
    requires Autonomous(e) && Enabled(c, e)
    ensures !Disturbs(c, e) && Asked(e) == []
    ensures PausedLive(Step(c, e).chat) ==> PausedLive(c)
  {
  }

  /** Being left alone disturbs nothing, asks for nothing, and pauses nothing. */
  lemma {:induction false} LeftAlone(events: seq<Event>, more: seq<Event>)
    requires AllAutonomous(more) && Run(events).Some? && Run(events + more).Some? && Undisturbed(events)
    ensures Undisturbed(events + more) && Requests(events + more) == Requests(events)
    ensures PausedLive(Run(events + more).value.chat) ==> PausedLive(Run(events).value.chat)
    decreases |more|
  {
    if more == [] {
      assert events + more == events;
    } else {
      var n := |more| - 1;
      assert (events + more)[..|events + more| - 1] == events + more[..n];
      assert (events + more)[|events + more| - 1] == more[n];
      hide Step, Enabled, PausedLive, Disturbs, Asked;
      assert Autonomous(more[n]);
      LeftAlone(events, more[..n]);
      AutonomousHarmless(Run(events + more[..n]).value.chat, more[n]);
      assert Requests(events + more[..n]) + [] == Requests(events + more[..n]);
    }
  }

  /**
    Left alone after an undisturbed run until nothing can happen by itself, a chat that was not
    paused has played every request to its end, in order, and is as new.
   */
  lemma UndisturbedPlaysEverything(events: seq<Event>, more: seq<Event>)
    requires Run(events).Some? && Undisturbed(events) && !PausedLive(Run(events).value.chat)
    requires AllAutonomous(more) && Run(events + more).Some? && Quiet(Run(events + more).value.chat)
    ensures Pick(Run(events + more).value.log, FinishedIn) == Requests(events)
    ensures Run(events + more).value.chat == FRESH
  {
    LeftAlone(events, more);
    UndisturbedPlaysInOrder(events + more);
    QuietMeansPausedOrOver(events + more);
  }
}
