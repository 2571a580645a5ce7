/**
  What the commands and the streams have last said of a chat's session is what the session
  is: its state, its track, its volume, and the flags of its pipeline, over every run.
 */
module PlayerHistory {
  import opened Wrappers
  import opened PlayerModel
  import opened PlayerSafety

  // ----- single steps -----

  /** A request carries its query and who asked for it when. */
  lemma RequestCarriesQuery(c: Chat, query: string, userId: int, now: int)
    requires query != ""
    ensures var c' := Step(c, Play(query, userId, now)).chat;
            var asked := if StateOf(c) == Idle then c'.session.value.current else c'.queue[|c.queue|];
            && (StateOf(c) == Idle ==> c'.session.Some? && c'.queue == c.queue)
            && (StateOf(c) != Idle ==> |c'.queue| == |c.queue| + 1 && c'.queue[..|c.queue|] == c.queue && c'.session == c.session)
            && asked.title == query && asked.url == query && asked.requesterId == userId && asked.addedAt == now
  {
  }

  /** A track that is started plays on a fresh pipeline that is not paused, whatever was there before. */
  lemma StartedTrackPlays(c: Chat, e: Event, t: TrackItem)
    requires Enabled(c, e) && Started(t) in Step(c, e).obs
    ensures Step(c, e).chat.session == Some(Session(Playing, VolumeOf(c), t, Some(Pipeline(true, false))))
  {
  }

  /** A stream that has run out leaves its session idle, with its track and its volume. */
  lemma EndedStreamTurnsIdle(c: Chat)
    requires Live(c)
    ensures var c', s := Step(c, StreamEof).chat, c.session.value;
            && c'.session == Some(Session(Idle, s.volume, s.current, Some(Pipeline(false, s.pipeline.value.paused))))
            && c'.pending == c.pending + 1 && c'.queue == c.queue && c'.inCall == c.inCall
  {
  }

  predicate Controls(e: Event) {
    e.Pause? || e.Resume?
  }

  /** /pause pauses and /resume resumes, whatever the state was, and nothing else changes. */
  lemma ControlsAreAbsolute(c: Chat, e: Event)
    requires Coherent(c) && Controls(e)
    ensures Step(c, e).obs == []
    ensures c.session.None? ==> Step(c, e).chat == c
    ensures c.session.Some? ==>
              var s := c.session.value;
              Step(c, e).chat == c.(session := Some(Session(if e.Pause? then Paused else Playing, s.volume, s.current,
                                                            Some(Pipeline(s.pipeline.value.running, e.Pause?)))))
  {
  }

  /** So of several in a row the last one decides. */
  lemma {:induction false} LastControlDecides(c: Chat, events: seq<Event>, last: Event)
    requires Coherent(c) && Controls(last) && forall i | 0 <= i < |events| :: Controls(events[i])
    ensures Exec(c, events + [last]) == Some(Step(c, last).chat)
    decreases |events|
  {
    if events == [] {
      assert [] + [last] == [last] && [last][1..] == [];
    } else {
      var first := events[0];
      assert (events + [last])[1..] == events[1..] + [last];
      CoherentStep(c, first);
      ControlsAreAbsolute(c, first);
      ControlsAreAbsolute(c, last);
      ControlsAreAbsolute(Step(c, first).chat, last);
      assert Enabled(c, first) && Step(Step(c, first).chat, last).chat == Step(c, last).chat;
      LastControlDecides(Step(c, first).chat, events[1..], last);
    }
  }

  // ----- the history of a run -----

  datatype Moment = Moment(before: Chat, event: Event, obs: seq<Obs>)

  function History(events: seq<Event>): seq<Moment>
    requires Run(events).Some?
  {
    if events == [] then []
    else
      var before, e := events[..|events| - 1], events[|events| - 1];
      var c := Run(before).value.chat;
      History(before) + [Moment(c, e, Step(c, e).obs)]
  }

  /** What the latest moment that says anything says. */
  function Latest<T>(history: seq<Moment>, says: Moment -> Option<T>): Option<T> {
    if history == [] then None
    else
      var last := says(history[|history| - 1]);
      if last.Some? then last else Latest(history[..|history| - 1], says)
  }

  /** The track that a moment starts. */
  function SaysTrack(m: Moment): Option<TrackItem> {
    var started := Pick(m.obs, StartedIn);
    if started == [] then None else Some(started[|started| - 1])
  }

  predicate Starts(m: Moment) {
    SaysTrack(m).Some?
  }

  function SaysState(m: Moment): Option<PlayerState> {
    if Starts(m) then Some(Playing)
    else
      match m.event
      case StreamEof => Some(Idle)
      case Pause => Some(Paused)
      case Resume => Some(Playing)
      case _ => None
  }

  function SaysPaused(m: Moment): Option<bool> {
    if Starts(m) then Some(false)
    else if m.event.Pause? then Some(true)
    else if m.event.Resume? then Some(false)
    else None
  }

  function SaysRunning(m: Moment): Option<bool> {
    if Starts(m) then Some(true) else if m.event.StreamEof? then Some(false) else None
  }

  /** A session begins at 100 and takes the values in range that /volume gives it. */
  function SaysVolume(m: Moment): Option<int> {
    if Starts(m) && m.before.session.None? then Some(100)
    else if SetsVolume(m.event) && m.before.session.Some? then m.event.parsed
    else None
  }

  /** A session is there from a start until a /stop, or a skip or an advance that starts nothing. */
  function SaysPresent(m: Moment): Option<bool> {
    if Starts(m) then Some(true)
    else if m.event.Stop? || m.event.Advance? || (m.event.Skip? && StateOf(m.before) != Idle) then Some(false)
    else None
  }

  /** A value after a moment, from the value before it. */
  ghost predicate Follows<T(!new)>(m: Moment, says: Moment -> Option<T>, before: Option<T>, after: T) {
    says(m) == Some(after) || (says(m).None? && before == Some(after))
  }

  ghost predicate SessionFollows(m: Moment, before: Option<Session>, s: Session) {
    && s.pipeline.Some?
    && (before.Some? ==> before.value.pipeline.Some?)
    && Follows(m, SaysTrack, if before.Some? then Some(before.value.current) else None, s.current)
    && Follows(m, SaysState, if before.Some? then Some(before.value.state) else None, s.state)
    && Follows(m, SaysVolume, if before.Some? then Some(before.value.volume) else None, s.volume)
    && Follows(m, SaysPaused, if before.Some? then Some(before.value.pipeline.value.paused) else None, s.pipeline.value.paused)
    && Follows(m, SaysRunning, if before.Some? then Some(before.value.pipeline.value.running) else None, s.pipeline.value.running)
  }

  /** The track that a step starts, if any. */
  function StartedBy(c: Chat, e: Event): Option<TrackItem> {
    match e
    case Play(query, _, _) => if query != "" && StateOf(c) == Idle then Some(Requested(e)) else None
    case Skip => if StateOf(c) != Idle && c.queue != [] then Some(c.queue[0]) else None
    case Advance => if c.queue != [] then Some(c.queue[0]) else None
    case _ => None
  }

  lemma PlayTrackSays(c: Chat, t: TrackItem, first: seq<Obs>)
    requires first == [] || (|first| == 1 && !first[0].Started?) || (|first| == 2 && !first[0].Started? && !first[1].Started?)
    ensures Pick(first + PlayTrack(c, t).obs, StartedIn) == [t]
  {
    hide PlayTrack, Pick;
    PlayTrackPairs(c, t);
    PickAppend(first, PlayTrack(c, t).obs, StartedIn);
    PickNone(StartedIn);
    if |first| == 1 {
      PickSingle(first[0], StartedIn);
      assert first == [first[0]];
    } else if |first| == 2 {
      PickPair(first[0], first[1], StartedIn);
      assert first == [first[0], first[1]];
    }
  }

  lemma StopPlayerSays(c: Chat, first: seq<Obs>)
    requires first == [] || (|first| == 1 && !first[0].Started?)
    ensures Pick(first + StopPlayer(c).obs, StartedIn) == []
  {
    hide StopPlayer, Pick;
    StopPlayerPairs(c);
    PickAppend(first, StopPlayer(c).obs, StartedIn);
    PickNone(StartedIn);
    if |first| == 1 {
      PickSingle(first[0], StartedIn);
      assert first == [first[0]];
    }
  }

  lemma StepStarts(c: Chat, e: Event)
    requires Enabled(c, e)
    ensures SaysTrack(Moment(c, e, Step(c, e).obs)) == StartedBy(c, e)
  {
    var o := Step(c, e);
    hide Pick, PlayTrack, StopPlayer;
    PickNone(StartedIn);
    match e {
      case Play(_, _, _) =>
        PickSingle(Queued(Requested(e)), StartedIn);
        PlayTrackSays(c.(inCall := true), Requested(e), []);
        assert [] + PlayTrack(c.(inCall := true), Requested(e)).obs == PlayTrack(c.(inCall := true), Requested(e)).obs;
      case Skip =>
        if StateOf(c) != Idle {
          NextStarts(c, []);
          assert [] + PlayNextInQueue(c).obs == PlayNextInQueue(c).obs;
        }
      case Stop => StopPlayerSays(c.(queue := []), [Cleared(c.queue)]);
      case StreamEof => PickSingle(Finished(c.session.value.current), StartedIn);
      case Advance => NextStarts(c.(pending := c.pending - 1), [Advanced]);
      case _ =>
    }
  }

  lemma NextStarts(c: Chat, first: seq<Obs>)
    requires first == [] || first == [Advanced]
    ensures Pick(first + PlayNextInQueue(c).obs, StartedIn) == if c.queue != [] then [c.queue[0]] else []
  {
    hide Pick, PlayTrack, StopPlayer;
    if c.queue != [] {
      var c', pop := c.(queue := c.queue[1..]), [Popped(c.queue[0])];
      PlayTrackSays(c', c.queue[0], first + pop);
      assert first + PlayNextInQueue(c).obs == (first + pop) + PlayTrack(c', c.queue[0]).obs;
    } else {
      StopPlayerSays(c, first);
    }
  }

  /** The session after a step that starts no track. */
  lemma SessionAfter(c: Chat, e: Event)
    requires Coherent(c) && Enabled(c, e) && StartedBy(c, e).None?
    ensures var c' := Step(c, e).chat;
            if e.Stop? || e.Advance? || (e.Skip? && StateOf(c) != Idle) || c.session.None? then c'.session.None?
            else
              var s := c.session.value;
              match e
              case StreamEof => c'.session == Some(s.(state := Idle, pipeline := Some(s.pipeline.value.(running := false))))
              case Pause => c'.session == Some(s.(state := Paused, pipeline := Some(s.pipeline.value.(paused := true))))
              case Resume => c'.session == Some(s.(state := Playing, pipeline := Some(s.pipeline.value.(paused := false))))
              case Volume(_) => c'.session == Some(if SetsVolume(e) then s.(volume := e.parsed.value) else s)
              case _ => c'.session == c.session
  {
  }

  lemma SessionStarted(c: Chat, e: Event)
    requires Coherent(c) && Enabled(c, e) && StartedBy(c, e).Some?
    ensures Step(c, e).chat.session == Some(Session(Playing, VolumeOf(c), StartedBy(c, e).value, Some(Pipeline(true, false))))
    ensures !SetsVolume(e)
  {
  }

  lemma StartFollows(c: Chat, e: Event, m: Moment, c': Chat)
    requires c.session.Some? ==> c.session.value.pipeline.Some?
    requires m.before == c && m.event == e && SaysTrack(m).Some? && !SetsVolume(e)
    requires c'.session == Some(Session(Playing, VolumeOf(c), SaysTrack(m).value, Some(Pipeline(true, false))))
    ensures SessionFollows(m, c.session, c'.session.value) && SaysPresent(m) == Some(true)
  {
    hide SaysTrack, SetsVolume;
  }

  lemma StepFollows(c: Chat, e: Event)
    requires Coherent(c) && Enabled(c, e)
    ensures var m, c' := Moment(c, e, Step(c, e).obs), Step(c, e).chat;
            && (c'.session.Some? ==> SessionFollows(m, c.session, c'.session.value))
            && (c'.session.Some? <==> if SaysPresent(m).Some? then SaysPresent(m).value else c.session.Some?)
  {
    StepStarts(c, e);
    var m := Moment(c, e, Step(c, e).obs);
    if StartedBy(c, e).Some? {
      SessionStarted(c, e);
      hide *;
      StartFollows(c, e, m, Step(c, e).chat);
    } else {
      SessionAfter(c, e);
      hide SaysTrack, Step, Enabled, StartedBy;
    }
  }

  /**
    After every run: there is a session exactly if the last start came after the last step that
    ends one, the chat is in its call exactly then, and each part of the session is what the
    run has last said of it.
   */
  lemma {:induction false} SessionIsItsHistory(events: seq<Event>)
    requires Run(events).Some?
    ensures var c, h := Run(events).value.chat, History(events);
            && (c.session.Some? <==> Latest(h, SaysPresent) == Some(true))
            && (c.inCall <==> c.session.Some?)
            && (c.session.Some? ==>
                  var s := c.session.value;
                  && Latest(h, SaysTrack) == Some(s.current)
                  && Latest(h, SaysState) == Some(s.state)
                  && Latest(h, SaysVolume) == Some(s.volume)
                  && s.pipeline.Some?
                  && Latest(h, SaysPaused) == Some(s.pipeline.value.paused)
                  && Latest(h, SaysRunning) == Some(s.pipeline.value.running))
  {
    RunIsCoherent(events);
    if events != [] {
      var before, e := events[..|events| - 1], events[|events| - 1];
      SessionIsItsHistory(before);
      RunIsCoherent(before);
      var c := Run(before).value.chat;
      StepFollows(c, e);
      hide Step, Enabled, SaysTrack, SaysState, SaysVolume, SaysPaused, SaysRunning, SaysPresent, Coherent;
      var m := Moment(c, e, Step(c, e).obs);
      assert History(events) == History(before) + [m];
      LatestSnoc(History(before), m, SaysPresent);
      LatestSnoc(History(before), m, SaysTrack);
      LatestSnoc(History(before), m, SaysState);
      LatestSnoc(History(before), m, SaysVolume);
      LatestSnoc(History(before), m, SaysPaused);
      LatestSnoc(History(before), m, SaysRunning);
    }
  }

  lemma LatestSnoc<T>(h: seq<Moment>, m: Moment, says: Moment -> Option<T>)
    ensures Latest(h + [m], says) == if says(m).Some? then says(m) else Latest(h, says)
  {
    assert (h + [m])[..|h + [m]| - 1] == h;
  }

  // ----- the end of a stream -----

  /** The session, if there is one whose stream has ended, is idle. */
  predicate IdleOnceEnded(c: Chat) {
    c.session.Some? && !Live(c) ==> c.session.value.state == Idle
  }

  lemma IdleOnceEndedStep(c: Chat, e: Event)
    requires Coherent(c) && Enabled(c, e) && IdleOnceEnded(c) && !Controls(e)
    ensures IdleOnceEnded(Step(c, e).chat)
  {
  }

  /**
    After a stream has ended its session stays idle until another track starts, unless a /pause
    or /resume comes in between: the next /play starts its track at once and a /skip is refused.
   */
  lemma {:induction false} IdleUntilNextStart(events: seq<Event>, more: seq<Event>)
    requires Run(events + [StreamEof] + more).Some? && forall i | 0 <= i < |more| :: !Controls(more[i])
    ensures IdleOnceEnded(Run(events + [StreamEof] + more).value.chat)
    decreases |more|
  {
    var all := events + [StreamEof] + more;
    if more == [] {
      assert all == events + [StreamEof] && all[..|all| - 1] == events;
    } else {
      var n := |more| - 1;
      assert all[..|all| - 1] == events + [StreamEof] + more[..n];
      IdleUntilNextStart(events, more[..n]);
      RunIsCoherent(all[..|all| - 1]);
      IdleOnceEndedStep(Run(all[..|all| - 1]).value.chat, more[n]);
    }
  }
}
