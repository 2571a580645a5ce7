/**
  What becomes of a chat that is left to itself, and what one command leads to once the
  auto-advances it scheduled have run.
 */
module PlayerLiveness {
  import opened Wrappers
  import opened PlayerModel
  import opened PlayerSafety

  predicate Autonomous(e: Event) {
    e.StreamEof? || e.Advance?
  }

  ghost predicate AllAutonomous(events: seq<Event>) {
    forall i | 0 <= i < |events| :: Autonomous(events[i])
  }

  /** Nothing is scheduled and no running stream can run out by itself. */
  predicate Quiet(c: Chat) {
    c.pending == 0 && (Live(c) ==> PausedLive(c))
  }

  function Remaining(c: Chat): nat {
    2 * |c.queue| + 2 * LiveCount(c) + c.pending
  }

  /** A paused reader does not look for the end of its stream, so a paused stream cannot be waited for. */
  predicate PausedLive(c: Chat) {
    Live(c) && c.session.value.pipeline.value.paused
  }

  // ----- every autonomous run ends -----

  lemma AutonomousStepDecreases(c: Chat, e: Event)
    requires Autonomous(e) && Enabled(c, e)
    ensures Remaining(Step(c, e).chat) < Remaining(c)
  {
  }

  /** Without commands a chat takes at most `Remaining` more steps. */
  lemma {:induction false} AutoPlayTerminates(c: Chat, events: seq<Event>)
    requires AllAutonomous(events) && Exec(c, events).Some?
    ensures |events| <= Remaining(c)
    decreases |events|
  {
    if events != [] {
      assert Autonomous(events[0]);
      AutonomousStepDecreases(c, events[0]);
      AutoPlayTerminates(Step(c, events[0]).chat, events[1..]);
    }
  }

  /** And one run takes exactly that many: every stream runs out before anything else happens. */
  lemma {:induction false} LongestAutoPlay(c: Chat) returns (events: seq<Event>)
    requires Coherent(c) && !PausedLive(c)
    ensures AllAutonomous(events) && |events| == Remaining(c) && Exec(c, events) == Some(FRESH)
    decreases Remaining(c)
  {
    if Live(c) || c.pending > 0 {
      var e := if Live(c) then StreamEof else Advance;
      var c' := Step(c, e).chat;
      CoherentStep(c, e);
      assert Remaining(c') == Remaining(c) - 1 && !PausedLive(c');
      var rest := LongestAutoPlay(c');
      events := [e] + rest;
      assert events[1..] == rest;
    } else {
      events := [];
    }
  }

  /** Where nothing can happen by itself, a paused stream is waiting or the chat is as new. */
  lemma QuietMeansPausedOrOver(events: seq<Event>)
    requires Run(events).Some? && Quiet(Run(events).value.chat)
    ensures var c := Run(events).value.chat;
            (PausedLive(c) && c.inCall) || c == FRESH
  {
    RunIsCoherent(events);
  }

  // ----- tokens -----

  /** Streams running plus auto-advances scheduled: 1 while a chat plays its queue in peace. */
  function Tokens(c: Chat): nat {
    LiveCount(c) + c.pending
  }

  /** Does this event put one more generation into circulation? */
  predicate AddsToken(c: Chat, e: Event) {
    || (e.Play? && e.query != "" && StateOf(c) == Idle)
    || (e.Skip? && StateOf(c) != Idle && c.queue != [])
  }

  predicate DropsToken(c: Chat, e: Event) {
    e.Advance? && c.queue == []
  }

  /** Only a direct /play and a /skip to a queued track add a token; only an advance on an empty queue drops one. */
  lemma TokensConserved(c: Chat, e: Event)
    requires Coherent(c) && Enabled(c, e)
    ensures Tokens(Step(c, e).chat) + (if DropsToken(c, e) then 1 else 0)
            == Tokens(c) + if AddsToken(c, e) then 1 else 0
  {
  }

  // ----- what scheduled advances lead to, on every schedule -----

  /** How many streams run out. */
  function Ends(events: seq<Event>): nat {
    if events == [] then 0 else (if events[0].StreamEof? then 1 else 0) + Ends(events[1..])
  }

  /** The running track, then the queue. */
  function Upcoming(c: Chat): seq<TrackItem> {
    Current(c) + c.queue
  }

  /** The first of these tracks is running, the others are queued, nothing is scheduled; or all is over. */
  predicate Reaches(d: Chat, upcoming: seq<TrackItem>) {
    if upcoming == [] then d == FRESH
    else Live(d) && d.inCall && d.pending == 0 && Upcoming(d) == upcoming
  }

  /** A session that is doomed: more streams and advances around than one, or gone already. */
  ghost predicate Doomed(c: Chat) {
    Coherent(c) && (Tokens(c) >= 2 || c.session.None?)
  }

  lemma DoomedStep(c: Chat, e: Event)
    requires Doomed(c) && Autonomous(e) && Enabled(c, e)
    ensures Doomed(Step(c, e).chat)
  {
    CoherentStep(c, e);
  }

  /** A doomed chat, whatever streams end in between, ends torn down: queue, session and membership are gone. */
  lemma {:induction false} DoomedEndsTornDown(c: Chat, events: seq<Event>, d: Chat)
    requires Doomed(c) && AllAutonomous(events) && Exec(c, events) == Some(d) && d.pending == 0
    ensures d == FRESH
    decreases |events|
  {
    if events != [] {
      assert Autonomous(events[0]);
      DoomedStep(c, events[0]);
      DoomedEndsTornDown(Step(c, events[0]).chat, events[1..], d);
    }
  }

  lemma PeacefulStep(c: Chat, e: Event)
    requires Coherent(c) && Tokens(c) <= 1 && Autonomous(e) && Enabled(c, e)
    ensures var c' := Step(c, e).chat;
            && Coherent(c') && Tokens(c') <= 1
            && (e.StreamEof? ==> Upcoming(c) != [])
            && Upcoming(c') == if e.StreamEof? then Upcoming(c)[1..] else Upcoming(c)
  {
    CoherentStep(c, e);
    if e.Advance? && c.queue != [] {
      assert c.queue == [c.queue[0]] + c.queue[1..];
    }
  }

  /** With at most one token every end of a stream takes exactly one track off, and nothing else does. */
  lemma {:induction false} PeacefulOutcome(c: Chat, events: seq<Event>, d: Chat)
    requires Coherent(c) && Tokens(c) <= 1
    requires AllAutonomous(events) && Exec(c, events) == Some(d) && d.pending == 0
    ensures Ends(events) <= |Upcoming(c)| && Reaches(d, Upcoming(c)[Ends(events)..])
    decreases |events|
  {
    if events != [] {
      assert Autonomous(events[0]);
      PeacefulStep(c, events[0]);
      PeacefulOutcome(Step(c, events[0]).chat, events[1..], d);
    }
  }

  /**
    Where a chat is once every scheduled auto-advance has run, on every schedule and whatever
    streams end meanwhile: with at most one token it has moved on by exactly the streams that
    ended; with more its queue, its session and its membership are gone.
   */
  lemma SettledOutcome(c: Chat, events: seq<Event>, d: Chat)
    requires Coherent(c)
    requires AllAutonomous(events) && Exec(c, events) == Some(d) && d.pending == 0
    ensures if Tokens(c) <= 1
            then Ends(events) <= |Upcoming(c)| && Reaches(d, Upcoming(c)[Ends(events)..])
            else d == FRESH
  {
    if Tokens(c) <= 1 {
      PeacefulOutcome(c, events, d);
    } else {
      DoomedEndsTornDown(c, events, d);
    }
  }

  /** There is always such a schedule in which no stream ends at all. */
  lemma {:induction false} SettlingSchedule(c: Chat) returns (events: seq<Event>, d: Chat)
    ensures AllAutonomous(events) && Ends(events) == 0 && Exec(c, events) == Some(d) && d.pending == 0
    decreases Remaining(c)
  {
    if c.pending == 0 {
      events, d := [], c;
    } else {
      AutonomousStepDecreases(c, Advance);
      var rest;
      rest, d := SettlingSchedule(Step(c, Advance).chat);
      events := [Advance] + rest;
      assert events[1..] == rest;
    }
  }

  /** A stream that ends with nothing else scheduled moves on by exactly one track, as does every later end. */
  lemma StreamEndAdvancesOneTrack(c: Chat, events: seq<Event>, d: Chat)
    requires Coherent(c) && Live(c) && c.pending == 0
    requires AllAutonomous(events) && Exec(Step(c, StreamEof).chat, events) == Some(d) && d.pending == 0
    ensures Ends(events) <= |c.queue| && Reaches(d, c.queue[Ends(events)..])
  {
    CoherentStep(c, StreamEof);
    assert Upcoming(Step(c, StreamEof).chat) == c.queue;
    SettledOutcome(Step(c, StreamEof).chat, events, d);
  }

  /**
    A /skip that is not refused never settles on the next track, on any schedule: the stream it
    stops schedules an auto-advance, which stops the next one, and so on, until the queue is
    used up and the chat has left the call. A refused skip changes nothing.
   */
  lemma SkipUsesUpTheQueue(c: Chat, events: seq<Event>, d: Chat)
    requires Coherent(c)
    requires AllAutonomous(events) && Exec(Step(c, Skip).chat, events) == Some(d) && d.pending == 0
    ensures StateOf(c) != Idle ==> d == FRESH
    ensures StateOf(c) == Idle ==> Step(c, Skip).chat == c
  {
    CoherentStep(c, Skip);
    if StateOf(c) != Idle {
      DoomedEndsTornDown(Step(c, Skip).chat, events, d);
    }
  }

  /** A chat in the call that plays `t`. */
  function PlayingChat(t: TrackItem, queue: seq<TrackItem>, pending: nat): Chat {
    Chat(Some(Session(Playing, 100, t, Some(Pipeline(true, false)))), queue, true, pending)
  }

  /** A run goes on with one event. */
  lemma RunOn(events: seq<Event>, e: Event, w: World, o: Outcome)
    requires Run(events) == Some(w) && Enabled(w.chat, e) && Step(w.chat, e) == o
    ensures Run(events + [e]) == Some(World(o.chat, w.log + o.obs))
  {
    assert (events + [e])[..|events + [e]| - 1] == events;
  }

  lemma StepsOfSkipRun(a: Event, b: Event)
    requires a.Play? && a.query != "" && b.Play? && b.query != ""
    ensures var ta, tb := Requested(a), Requested(b);
            && Step(FRESH, a) == Outcome(PlayingChat(ta, [], 0), [Started(ta)])
            && Step(PlayingChat(ta, [], 0), b) == Outcome(PlayingChat(ta, [tb], 0), [Queued(tb)])
            && Step(PlayingChat(ta, [tb], 0), Skip) == Outcome(PlayingChat(tb, [], 1), [Popped(tb), Cut(ta), Started(tb)])
            && Step(PlayingChat(tb, [], 1), Advance) == Outcome(Chat(None, [], false, 1), [Advanced, Cut(tb)])
            && Step(Chat(None, [], false, 1), Advance) == Outcome(FRESH, [Advanced])
  {
    var ta, tb := Requested(a), Requested(b);
    assert [] + [tb] == [tb] && [tb][1..] == [] && [] + [Started(ta)] == [Started(ta)];
    assert [Popped(tb)] + ([Cut(ta)] + [Started(tb)]) == [Popped(tb), Cut(ta), Started(tb)];
    assert [Advanced] + [Cut(tb)] == [Advanced, Cut(tb)] && [Advanced] + [] == [Advanced];
  }

  lemma SkipRun(a: Event, b: Event)
    requires a.Play? && a.query != "" && b.Play? && b.query != ""
    ensures var ta, tb := Requested(a), Requested(b);
            Run([] + [a] + [b] + [Skip] + [Advance] + [Advance]) ==
            Some(World(FRESH, [] + [Started(ta)] + [Queued(tb)] + [Popped(tb), Cut(ta), Started(tb)]
                              + [Advanced, Cut(tb)] + [Advanced]))
  {
    var ta, tb := Requested(a), Requested(b);
    StepsOfSkipRun(a, b);
    assert Run([]) == Some(World(FRESH, []));
    hide Run, Step;
    var w := World(FRESH, []);
    RunOn([], a, w, Step(w.chat, a));
    w := World(PlayingChat(ta, [], 0), w.log + [Started(ta)]);
    RunOn([] + [a], b, w, Step(w.chat, b));
    w := World(PlayingChat(ta, [tb], 0), w.log + [Queued(tb)]);
    RunOn([] + [a] + [b], Skip, w, Step(w.chat, Skip));
    w := World(PlayingChat(tb, [], 1), w.log + [Popped(tb), Cut(ta), Started(tb)]);
    RunOn([] + [a] + [b] + [Skip], Advance, w, Step(w.chat, Advance));
    w := World(Chat(None, [], false, 1), w.log + [Advanced, Cut(tb)]);
    RunOn([] + [a] + [b] + [Skip] + [Advance], Advance, w, Step(w.chat, Advance));
  }

  /** Two requests and a /skip, and neither track is played to its end. */
  lemma SkipPlaysNothing(a: Event, b: Event)
    requires a.Play? && a.query != "" && b.Play? && b.query != ""
    ensures var r := Run([a, b, Skip, Advance, Advance]);
            && r.Some? && r.value.chat == FRESH
            && Pick(r.value.log, FinishedIn) == [] && Pick(r.value.log, CutIn) == [Requested(a), Requested(b)]
  {
    var ta, tb := Requested(a), Requested(b);
    hide Run, Pick;
    SkipRun(a, b);
    assert [] + [a] + [b] + [Skip] + [Advance] + [Advance] == [a, b, Skip, Advance, Advance];
    assert [] + [Started(ta)] + [Queued(tb)] == [Started(ta), Queued(tb)];
    PickOfSkipRun(ta, tb, FinishedIn);
    PickOfSkipRun(ta, tb, CutIn);
  }

  lemma PickOfSkipRun(ta: TrackItem, tb: TrackItem, tracks: Obs -> seq<TrackItem>)
    ensures Pick([Started(ta), Queued(tb)] + [Popped(tb), Cut(ta), Started(tb)] + [Advanced, Cut(tb)] + [Advanced], tracks)
            == tracks(Started(ta)) + tracks(Queued(tb)) + (tracks(Popped(tb)) + (tracks(Cut(ta)) + tracks(Started(tb))))
               + (tracks(Advanced) + tracks(Cut(tb))) + tracks(Advanced)
  {
    hide Pick;
    var l0, o1, o2, o3 := [Started(ta), Queued(tb)], [Popped(tb), Cut(ta), Started(tb)], [Advanced, Cut(tb)], [Advanced];
    PickPair(Started(ta), Queued(tb), tracks);
    assert o1 == [Popped(tb)] + [Cut(ta), Started(tb)];
    PickCons(Popped(tb), [Cut(ta), Started(tb)], tracks);
    PickPair(Cut(ta), Started(tb), tracks);
    PickPair(Advanced, Cut(tb), tracks);
    PickSingle(Advanced, tracks);
    PickAppend(l0, o1, tracks);
    PickAppend(l0 + o1, o2, tracks);
    PickAppend(l0 + o1 + o2, o3, tracks);
  }

  /**
    A track that /play starts at once is still running when every scheduled auto-advance has
    run, exactly if none was scheduled when it was started and its stream has not ended.
   */
  lemma DirectPlaySurvivesIff(c: Chat, e: Event, events: seq<Event>, d: Chat)
    requires Coherent(c) && e.Play? && e.query != "" && StateOf(c) == Idle
    requires AllAutonomous(events) && Exec(Step(c, e).chat, events) == Some(d) && d.pending == 0
    ensures Reaches(d, [Requested(e)]) <==> c.pending == 0 && Ends(events) == 0
    ensures !Reaches(d, [Requested(e)]) ==> d == FRESH
  {
    CoherentStep(c, e);
    var c' := Step(c, e).chat;
    SettledOutcome(c', events, d);
    if c.pending == 0 {
      assert Upcoming(c') == [Requested(e)];
      assert [Requested(e)][0..] == [Requested(e)] && [Requested(e)][1..] == [];
    }
  }

  lemma {:induction false} TornDownStays(c: Chat, events: seq<Event>, d: Chat)
    requires Coherent(c) && c.session.None? && AllAutonomous(events) && Exec(c, events) == Some(d)
    ensures Coherent(d) && d.session.None?
    decreases |events|
  {
    if events != [] {
      assert Autonomous(events[0]);
      CoherentStep(c, events[0]);
      TornDownStays(Step(c, events[0]).chat, events[1..], d);
    }
  }

  /** So a new /play some time after /stop works out exactly if all scheduled advances have run in between. */
  lemma StopThenPlay(c: Chat, between: seq<Event>, s: Chat, e: Event, events: seq<Event>, d: Chat)
    requires Coherent(c) && e.Play? && e.query != ""
    requires AllAutonomous(between) && Exec(Step(c, Stop).chat, between) == Some(s)
    requires AllAutonomous(events) && Exec(Step(s, e).chat, events) == Some(d) && d.pending == 0
    ensures Reaches(d, [Requested(e)]) <==> s.pending == 0 && Ends(events) == 0
    ensures !Reaches(d, [Requested(e)]) ==> d == FRESH
  {
    CoherentStep(c, Stop);
    TornDownStays(Step(c, Stop).chat, between, s);
    DirectPlaySurvivesIff(s, e, events, d);
  }
}
