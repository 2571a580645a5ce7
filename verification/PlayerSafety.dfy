/** What every run of the player keeps: coherence of its four stores, and its books. */
module PlayerSafety {
  import opened Wrappers
  import opened PlayerModel

  // ----- coherence -----

  ghost predicate SessionOk(c: Chat, s: Session) {
    && s.pipeline.Some?
    && (s.pipeline.value.running || c.pending > 0)
    && (s.state == Idle ==> !s.pipeline.value.running)
    && (s.state == Paused ==> s.pipeline.value.paused)
    && (s.state == Playing ==> !s.pipeline.value.paused)
    && s.state != Buffering
    && 1 <= s.volume <= 200
  }

  /** Chats in the call are the chats with a session, and only those have a queue. */
  ghost predicate Coherent(c: Chat) {
    && (c.inCall <==> c.session.Some?)
    && (c.queue != [] ==> c.session.Some?)
    && (c.session.Some? ==> SessionOk(c, c.session.value))
  }

  lemma CoherentStep(c: Chat, e: Event)
    requires Coherent(c) && Enabled(c, e)
    ensures Coherent(Step(c, e).chat)
  {
  }

  lemma {:induction false} RunIsCoherent(events: seq<Event>)
    requires Run(events).Some?
    ensures Coherent(Run(events).value.chat)
  {
    if events != [] {
      RunIsCoherent(events[..|events| - 1]);
      CoherentStep(Run(events[..|events| - 1]).value.chat, events[|events| - 1]);
    }
  }

  /** A queued track always has a stream or a scheduled auto-advance that will lead to it. */
  lemma NoStalledQueue(events: seq<Event>)
    requires Run(events).Some? && Run(events).value.chat.queue != []
    ensures Live(Run(events).value.chat) || Run(events).value.chat.pending > 0
  {
    RunIsCoherent(events);
  }

  /** No event ever starts a track in a chat that has not joined its call, although auto-advance never joins. */
  lemma StartsOnlyInCall(events: seq<Event>, e: Event, t: TrackItem)
    requires Run(events).Some? && Enabled(Run(events).value.chat, e)
    requires Started(t) in Step(Run(events).value.chat, e).obs
    ensures Step(Run(events).value.chat, e).chat.inCall
    ensures e.Advance? || e.Skip? ==> Run(events).value.chat.inCall
  {
    RunIsCoherent(events);
    CoherentStep(Run(events).value.chat, e);
  }

  /** In every run the gain stays in 1..200. */
  lemma VolumeInRange(events: seq<Event>)
    requires Run(events).Some? && Run(events).value.chat.session.Some?
    ensures 1 <= Run(events).value.chat.session.value.volume <= 200
  {
    RunIsCoherent(events);
  }

  function VolumeOf(c: Chat): int {
    if c.session.Some? then c.session.value.volume else 100
  }

  predicate SetsVolume(e: Event) {
    e.Volume? && e.parsed.Some? && 1 <= e.parsed.value <= 200
  }

  /** A volume stays with the session through every track, pause and end of stream until it is set again. */
  lemma VolumeFollowsSession(c: Chat, e: Event)
    requires Coherent(c) && Enabled(c, e) && Step(c, e).chat.session.Some?
    ensures VolumeOf(Step(c, e).chat) == if SetsVolume(e) && c.session.Some? then e.parsed.value else VolumeOf(c)
    ensures e.Volume? ==> Step(c, e).obs == [] && Step(c, e).chat.(session := c.session) == c
                          && Step(c, e).chat.session.value.(volume := VolumeOf(c)) == c.session.value
  {
  }

  /** /resume undoes /pause on a playing stream, and a paused stream still counts as the running one. */
  lemma ResumeUndoesPause(c: Chat)
    requires Coherent(c) && Live(c) && StateOf(c) == Playing
    ensures var paused := Step(c, Pause).chat;
            StateOf(paused) == Paused && Live(paused) && paused.session.value.pipeline.value.paused
            && Step(paused, Resume).chat == c
  {
  }

  // ----- counting observations -----

  function Pick(log: seq<Obs>, tracks: Obs -> seq<TrackItem>): seq<TrackItem> {
    if log == [] then [] else Pick(log[..|log| - 1], tracks) + tracks(log[|log| - 1])
  }

  function Count(log: seq<Obs>, kind: Obs -> bool): nat {
    if log == [] then 0 else Count(log[..|log| - 1], kind) + if kind(log[|log| - 1]) then 1 else 0
  }

  lemma {:induction false} PickAppend(a: seq<Obs>, b: seq<Obs>, tracks: Obs -> seq<TrackItem>)
    ensures Pick(a + b, tracks) == Pick(a, tracks) + Pick(b, tracks)
  {
    if b == [] {
      assert a + b == a;
    } else {
      assert (a + b)[..|a + b| - 1] == a + b[..|b| - 1];
      PickAppend(a, b[..|b| - 1], tracks);
    }
  }

  lemma PickSingle(o: Obs, tracks: Obs -> seq<TrackItem>)
    ensures Pick([o], tracks) == tracks(o) && Pick([], tracks) == []
  {
  }

  lemma PickPair(a: Obs, b: Obs, tracks: Obs -> seq<TrackItem>)
    ensures Pick([a, b], tracks) == tracks(a) + tracks(b)
  {
    assert [a, b] == [a] + [b];
    PickAppend([a], [b], tracks);
  }

  lemma PickCons(o: Obs, log: seq<Obs>, tracks: Obs -> seq<TrackItem>)
    ensures Pick([o] + log, tracks) == tracks(o) + Pick(log, tracks)
    ensures tracks(o) == [] ==> Pick([o] + log, tracks) == Pick(log, tracks)
  {
    PickAppend([o], log, tracks);
    PickSingle(o, tracks);
  }

  lemma PickNone(tracks: Obs -> seq<TrackItem>)
    ensures Pick([], tracks) == []
  {
  }

  lemma {:induction false} CountAppend(a: seq<Obs>, b: seq<Obs>, kind: Obs -> bool)
    ensures Count(a + b, kind) == Count(a, kind) + Count(b, kind)
  {
    if b == [] {
      assert a + b == a;
    } else {
      assert (a + b)[..|a + b| - 1] == a + b[..|b| - 1];
      CountAppend(a, b[..|b| - 1], kind);
    }
  }

  function StartedIn(o: Obs): seq<TrackItem> { if o.Started? then [o.track] else [] }
  function FinishedIn(o: Obs): seq<TrackItem> { if o.Finished? then [o.track] else [] }
  function CutIn(o: Obs): seq<TrackItem> { if o.Cut? then [o.track] else [] }
  function QueuedIn(o: Obs): seq<TrackItem> { if o.Queued? then [o.track] else [] }
  function PoppedIn(o: Obs): seq<TrackItem> { if o.Popped? then [o.track] else [] }

  function EndedIn(o: Obs): seq<TrackItem> { if IsEnd(o) then [o.track] else [] }
  function DroppedIn(o: Obs): seq<TrackItem> { if o.Cleared? then o.dropped else [] }

  /** The track that is running. */
  function Current(c: Chat): seq<TrackItem> {
    if Live(c) then [c.session.value.current] else []
  }

  /** The track that an event asks for. */
  function Asked(e: Event): seq<TrackItem> {
    if e.Play? && e.query != "" then [Requested(e)] else []
  }

  /** The tracks asked for, in order. */
  function Requests(events: seq<Event>): seq<TrackItem> {
    if events == [] then []
    else Requests(events[..|events| - 1]) + Asked(events[|events| - 1])
  }

  predicate IsStart(o: Obs) { o.Started? }
  predicate IsEnd(o: Obs) { o.Finished? || o.Cut? }
  predicate IsAdvance(o: Obs) { o.Advanced? }
  predicate IsPop(o: Obs) { o.Popped? }

  function LiveCount(c: Chat): nat { if Live(c) then 1 else 0 }

  /** How often the user asked to skip. */
  function Skips(events: seq<Event>): nat {
    if events == [] then 0
    else Skips(events[..|events| - 1]) + if events[|events| - 1].Skip? then 1 else 0
  }

  lemma CountShort(kind: Obs -> bool, a: Obs, b: Obs, c: Obs, d: Obs)
    ensures Count([], kind) == 0
    ensures Count([a], kind) == if kind(a) then 1 else 0
    ensures Count([a, b], kind) == Count([a], kind) + if kind(b) then 1 else 0
    ensures Count([a, b, c], kind) == Count([a, b], kind) + if kind(c) then 1 else 0
    ensures Count([a, b, c, d], kind) == Count([a, b, c], kind) + if kind(d) then 1 else 0
  {
    assert [a, b][..1] == [a] && [a, b, c][..2] == [a, b] && [a, b, c, d][..3] == [a, b, c] && [a][..0] == [];
  }

  lemma PlayTrackBooks(c: Chat, t: TrackItem)
    ensures var o := PlayTrack(c, t);
            && Count(o.obs, IsStart) == 1 && Count(o.obs, IsEnd) == LiveCount(c)
            && Count(o.obs, IsAdvance) == 0 && Count(o.obs, IsPop) == 0
            && Live(o.chat) && o.chat.pending == c.pending + LiveCount(c)
            && o.chat.queue == c.queue && o.chat.inCall == c.inCall
  {
    var o := PlayTrack(c, t);
    if Live(c) {
      var cut := Cut(c.session.value.current);
      assert o.obs == [cut, Started(t)];
      forall kind: Obs -> bool ensures Count(o.obs, kind) == (if kind(cut) then 1 else 0) + if kind(Started(t)) then 1 else 0 {
        CountShort(kind, cut, Started(t), cut, cut);
      }
    } else {
      assert o.obs == [Started(t)];
      forall kind: Obs -> bool ensures Count(o.obs, kind) == if kind(Started(t)) then 1 else 0 {
        CountShort(kind, Started(t), Started(t), Started(t), Started(t));
      }
    }
  }

  lemma StopPlayerBooks(c: Chat)
    ensures var o := StopPlayer(c);
            && Count(o.obs, IsStart) == 0 && Count(o.obs, IsEnd) == LiveCount(c)
            && Count(o.obs, IsAdvance) == 0 && Count(o.obs, IsPop) == 0
            && !Live(o.chat) && o.chat.pending == c.pending + LiveCount(c)
            && o.chat.queue == c.queue
  {
    if Live(c) {
      var cut := Cut(c.session.value.current);
      CountShort(IsStart, cut, cut, cut, cut);
      CountShort(IsEnd, cut, cut, cut, cut);
      CountShort(IsAdvance, cut, cut, cut, cut);
      CountShort(IsPop, cut, cut, cut, cut);
    }
  }

  lemma CountCons(o: Obs, log: seq<Obs>, kind: Obs -> bool)
    ensures Count([o] + log, kind) == (if kind(o) then 1 else 0) + Count(log, kind)
  {
    CountAppend([o], log, kind);
    CountShort(kind, o, o, o, o);
  }

  /** The books of one play_next_in_queue. */
  lemma PlayNextBooks(c: Chat)
    ensures var o := PlayNextInQueue(c);
            && Count(o.obs, IsStart) + LiveCount(c) == Count(o.obs, IsEnd) + LiveCount(o.chat)
            && Count(o.obs, IsEnd) + c.pending == o.chat.pending
            && Count(o.obs, IsAdvance) == 0
            && Count(o.obs, IsPop) == if c.queue == [] then 0 else 1
  {
    hide Count, PlayTrack, StopPlayer;
    if c.queue != [] {
      var c' := c.(queue := c.queue[1..]);
      PlayTrackBooks(c', c.queue[0]);
      ConsCounts(Popped(c.queue[0]), PlayTrack(c', c.queue[0]).obs);
    } else {
      StopPlayerBooks(c);
    }
  }

  lemma StepBooks(c: Chat, e: Event)
    requires Coherent(c) && Enabled(c, e)
    ensures var o := Step(c, e);
            && Count(o.obs, IsStart) + LiveCount(c) == Count(o.obs, IsEnd) + LiveCount(o.chat)
            && Count(o.obs, IsEnd) + c.pending == Count(o.obs, IsAdvance) + o.chat.pending
            && Count(o.obs, IsPop) <= (if e.Skip? then 1 else 0) + Count(o.obs, IsAdvance)
  {
    hide Count, PlayTrack, PlayNextInQueue, StopPlayer;
    CountNone(IsStart);
    CountNone(IsEnd);
    CountNone(IsAdvance);
    CountNone(IsPop);
    match e {
      case Play(_, _, _) =>
        PlayTrackBooks(c.(inCall := true), Requested(e));
        SingleCounts(Queued(Requested(e)));
      case Skip =>
        PlayNextBooks(c);
      case Stop =>
        var o := StopPlayer(c.(queue := []));
        StopPlayerBooks(c.(queue := []));
        ConsCounts(Cleared(c.queue), o.obs);
      case StreamEof =>
        SingleCounts(Finished(c.session.value.current));
      case Advance =>
        var c' := c.(pending := c.pending - 1);
        PlayNextBooks(c');
        ConsCounts(Advanced, PlayNextInQueue(c').obs);
      case _ =>
    }
  }

  lemma CountNone(kind: Obs -> bool)
    ensures Count([], kind) == 0
  {
  }

  lemma SingleCounts(o: Obs)
    ensures Count([o], IsStart) == if IsStart(o) then 1 else 0
    ensures Count([o], IsEnd) == if IsEnd(o) then 1 else 0
    ensures Count([o], IsAdvance) == if IsAdvance(o) then 1 else 0
    ensures Count([o], IsPop) == if IsPop(o) then 1 else 0
  {
    CountShort(IsStart, o, o, o, o);
    CountShort(IsEnd, o, o, o, o);
    CountShort(IsAdvance, o, o, o, o);
    CountShort(IsPop, o, o, o, o);
  }

  lemma ConsCounts(o: Obs, log: seq<Obs>)
    ensures Count([o] + log, IsStart) == Count(log, IsStart) + if IsStart(o) then 1 else 0
    ensures Count([o] + log, IsEnd) == Count(log, IsEnd) + if IsEnd(o) then 1 else 0
    ensures Count([o] + log, IsAdvance) == Count(log, IsAdvance) + if IsAdvance(o) then 1 else 0
    ensures Count([o] + log, IsPop) == Count(log, IsPop) + if IsPop(o) then 1 else 0
  {
    CountCons(o, log, IsStart);
    CountCons(o, log, IsEnd);
    CountCons(o, log, IsAdvance);
    CountCons(o, log, IsPop);
  }

  // ----- starts and ends, in order -----

  /** The track that was running, then those a step starts, are those it ends, then the one that is running. */
  ghost predicate Pairs(c: Chat, o: Outcome) {
    Current(c) + Pick(o.obs, StartedIn) == Pick(o.obs, EndedIn) + Current(o.chat)
  }

  lemma PlayTrackPairs(c: Chat, t: TrackItem)
    ensures Pairs(c, PlayTrack(c, t))
    ensures Pick(PlayTrack(c, t).obs, StartedIn) == [t] && Pick(PlayTrack(c, t).obs, EndedIn) == Current(c)
    ensures Pick(PlayTrack(c, t).obs, DroppedIn) == [] && Current(PlayTrack(c, t).chat) == [t]
  {
    assert Current(PlayTrack(c, t).chat) == [t];
    if Live(c) {
      var cut := Cut(c.session.value.current);
      assert PlayTrack(c, t).obs == [cut, Started(t)] && Current(c) == [cut.track];
      hide Pick, PlayTrack, Current;
      PickPair(cut, Started(t), StartedIn);
      PickPair(cut, Started(t), EndedIn);
      PickPair(cut, Started(t), DroppedIn);
    } else {
      assert PlayTrack(c, t).obs == [Started(t)] && Current(c) == [];
      hide Pick, PlayTrack, Current;
      PickSingle(Started(t), StartedIn);
      PickSingle(Started(t), EndedIn);
      PickSingle(Started(t), DroppedIn);
    }
  }

  lemma StopPlayerPairs(c: Chat)
    ensures Pairs(c, StopPlayer(c))
    ensures Pick(StopPlayer(c).obs, StartedIn) == [] && Pick(StopPlayer(c).obs, EndedIn) == Current(c)
    ensures Pick(StopPlayer(c).obs, DroppedIn) == [] && Current(StopPlayer(c).chat) == []
  {
    hide Pick;
    PickNone(StartedIn);
    PickNone(EndedIn);
    PickNone(DroppedIn);
    if Live(c) {
      var cut := Cut(c.session.value.current);
      PickSingle(cut, StartedIn);
      PickSingle(cut, EndedIn);
      PickSingle(cut, DroppedIn);
    }
  }

  lemma PlayNextPairs(c: Chat)
    ensures Pairs(c, PlayNextInQueue(c))
    ensures Pick(PlayNextInQueue(c).obs, EndedIn) == Current(c) && Pick(PlayNextInQueue(c).obs, DroppedIn) == []
    ensures Current(PlayNextInQueue(c).chat) + PlayNextInQueue(c).chat.queue == c.queue
  {
    hide Pick, PlayTrack, StopPlayer;
    if c.queue != [] {
      var c', pop := c.(queue := c.queue[1..]), Popped(c.queue[0]);
      var o := PlayTrack(c', c.queue[0]);
      PlayTrackPairs(c', c.queue[0]);
      PlayTrackBooks(c', c.queue[0]);
      PickCons(pop, o.obs, StartedIn);
      PickCons(pop, o.obs, EndedIn);
      PickCons(pop, o.obs, DroppedIn);
      assert c.queue == [c.queue[0]] + c.queue[1..];
    } else {
      StopPlayerPairs(c);
      StopPlayerBooks(c);
    }
  }

  lemma StepPairs(c: Chat, e: Event)
    requires Coherent(c) && Enabled(c, e)
    ensures Pairs(c, Step(c, e))
  {
    hide Pick, PlayTrack, StopPlayer, PlayNextInQueue;
    PickNone(StartedIn);
    PickNone(EndedIn);
    match e {
      case Play(_, _, _) =>
        PlayTrackPairs(c.(inCall := true), Requested(e));
        PickSingle(Queued(Requested(e)), StartedIn);
        PickSingle(Queued(Requested(e)), EndedIn);
      case Skip =>
        PlayNextPairs(c);
      case Stop =>
        var o := StopPlayer(c.(queue := []));
        StopPlayerPairs(c.(queue := []));
        PickCons(Cleared(c.queue), o.obs, StartedIn);
        PickCons(Cleared(c.queue), o.obs, EndedIn);
      case StreamEof =>
        PickSingle(Finished(c.session.value.current), StartedIn);
        PickSingle(Finished(c.session.value.current), EndedIn);
      case Advance =>
        var c' := c.(pending := c.pending - 1);
        PlayNextPairs(c');
        PickCons(Advanced, PlayNextInQueue(c').obs, StartedIn);
        PickCons(Advanced, PlayNextInQueue(c').obs, EndedIn);
      case _ =>
    }
  }

  /** Over every run the tracks started are, in order, those that ended and the one that is running. */
  lemma {:induction false} EachGenerationEndsOnce(events: seq<Event>)
    requires Run(events).Some?
    ensures var w := Run(events).value;
            Pick(w.log, StartedIn) == Pick(w.log, EndedIn) + Current(w.chat)
  {
    if events != [] {
      var before, e := events[..|events| - 1], events[|events| - 1];
      EachGenerationEndsOnce(before);
      RunIsCoherent(before);
      var w := Run(before).value;
      StepPairs(w.chat, e);
      hide Pick, Step, Enabled, Coherent;
      var o := Step(w.chat, e);
      PickAppend(w.log, o.obs, StartedIn);
      PickAppend(w.log, o.obs, EndedIn);
      Reassociate(Pick(w.log, EndedIn), Current(w.chat), Pick(o.obs, StartedIn),
                  Pick(o.obs, EndedIn), Current(o.chat));
    }
  }

  // ----- no track is lost -----

  /** Where all tracks asked for are: ended, dropped with a cleared queue, running, or queued. */
  function Whereabouts(log: seq<Obs>, c: Chat): multiset<TrackItem> {
    multiset(Pick(log, EndedIn)) + multiset(Pick(log, DroppedIn)) + multiset(Current(c)) + multiset(c.queue)
  }

  /** Nothing is lost or doubled by a step. */
  ghost predicate KeepsTracks(c: Chat, e: Event, o: Outcome) {
    multiset(Current(c)) + multiset(c.queue) + multiset(Asked(e)) == Whereabouts(o.obs, o.chat)
  }

  lemma PlayKeepsTracks(c: Chat, e: Event)
    requires Coherent(c) && e.Play? && e.query != ""
    ensures KeepsTracks(c, e, Step(c, e))
  {
    hide Pick, PlayTrack;
    var c', t := c.(inCall := true), Requested(e);
    if StateOf(c) == Idle {
      PlayTrackPairs(c', t);
      PlayTrackBooks(c', t);
    } else {
      PickSingle(Queued(t), EndedIn);
      PickSingle(Queued(t), DroppedIn);
    }
  }

  lemma StopKeepsTracks(c: Chat)
    requires Coherent(c)
    ensures KeepsTracks(c, Stop, Step(c, Stop))
  {
    hide Pick, StopPlayer;
    var o := StopPlayer(c.(queue := []));
    StopPlayerPairs(c.(queue := []));
    StopPlayerBooks(c.(queue := []));
    PickCons(Cleared(c.queue), o.obs, EndedIn);
    PickCons(Cleared(c.queue), o.obs, DroppedIn);
    assert c.queue + [] == c.queue;
  }

  lemma EofKeepsTracks(c: Chat)
    requires Enabled(c, StreamEof)
    ensures KeepsTracks(c, StreamEof, Step(c, StreamEof))
  {
    hide Pick;
    PickSingle(Finished(c.session.value.current), EndedIn);
    PickSingle(Finished(c.session.value.current), DroppedIn);
  }

  /** Moving on ends the running track and takes the next from the queue, if there is one. */
  lemma MovingOnKeepsTracks(c: Chat, e: Event, o: Outcome)
    requires Asked(e) == [] && Pick(o.obs, EndedIn) == Current(c) && Pick(o.obs, DroppedIn) == []
    requires Current(o.chat) + o.chat.queue == c.queue
    ensures KeepsTracks(c, e, o)
  {
    hide Pick, Current;
    assert multiset(c.queue) == multiset(Current(o.chat)) + multiset(o.chat.queue) by {
      assert c.queue == Current(o.chat) + o.chat.queue;
    }
  }

  lemma AdvanceKeepsTracks(c: Chat)
    requires Enabled(c, Advance)
    ensures KeepsTracks(c, Advance, Step(c, Advance))
  {
    hide Pick, PlayNextInQueue, KeepsTracks;
    var c' := c.(pending := c.pending - 1);
    PlayNextPairs(c');
    PickCons(Advanced, PlayNextInQueue(c').obs, EndedIn);
    PickCons(Advanced, PlayNextInQueue(c').obs, DroppedIn);
    MovingOnKeepsTracks(c, Advance, Step(c, Advance));
  }

  lemma SkipKeepsTracks(c: Chat)
    requires StateOf(c) != Idle
    ensures KeepsTracks(c, Skip, Step(c, Skip))
  {
    hide Pick, PlayNextInQueue, KeepsTracks;
    PlayNextPairs(c);
    MovingOnKeepsTracks(c, Skip, Step(c, Skip));
  }

  lemma SilentKeepsTracks(c: Chat, e: Event)
    requires Enabled(c, e) && Step(c, e).obs == [] && Asked(e) == []
    requires Current(Step(c, e).chat) == Current(c) && Step(c, e).chat.queue == c.queue
    ensures KeepsTracks(c, e, Step(c, e))
  {
    hide Step, Pick;
    PickNone(EndedIn);
    PickNone(DroppedIn);
  }

  lemma StepKeepsTracks(c: Chat, e: Event)
    requires Coherent(c) && Enabled(c, e)
    ensures KeepsTracks(c, e, Step(c, e))
  {
    hide KeepsTracks;
    match e {
      case Play(query, _, _) =>
        if query == "" {
          SilentKeepsTracks(c, e);
        } else {
          PlayKeepsTracks(c, e);
        }
      case Skip =>
        if StateOf(c) == Idle {
          SilentKeepsTracks(c, e);
        } else {
          SkipKeepsTracks(c);
        }
      case Stop => StopKeepsTracks(c);
      case StreamEof => EofKeepsTracks(c);
      case Advance => AdvanceKeepsTracks(c);
      case Pause => SilentKeepsTracks(c, e);
      case Resume => SilentKeepsTracks(c, e);
      case Volume(_) => SilentKeepsTracks(c, e);
    }
  }

  lemma WhereaboutsAppend(log: seq<Obs>, c: Chat, obs: seq<Obs>, c': Chat, asked: multiset<TrackItem>)
    requires multiset(Current(c)) + multiset(c.queue) + asked == Whereabouts(obs, c')
    ensures Whereabouts(log, c) + asked == Whereabouts(log + obs, c')
  {
    hide Pick, Current;
    PickAppend(log, obs, EndedIn);
    PickAppend(log, obs, DroppedIn);
    assert multiset(Pick(log + obs, EndedIn)) == multiset(Pick(log, EndedIn)) + multiset(Pick(obs, EndedIn));
    assert multiset(Pick(log + obs, DroppedIn)) == multiset(Pick(log, DroppedIn)) + multiset(Pick(obs, DroppedIn));
    RegroupBags(multiset(Pick(log, EndedIn)), multiset(Pick(log, DroppedIn)), multiset(Current(c)), multiset(c.queue), asked,
                multiset(Pick(obs, EndedIn)), multiset(Pick(obs, DroppedIn)), multiset(Current(c')), multiset(c'.queue));
  }

  lemma RegroupBags<T>(e: multiset<T>, d: multiset<T>, c: multiset<T>, q: multiset<T>, a: multiset<T>,
                       e': multiset<T>, d': multiset<T>, c': multiset<T>, q': multiset<T>)
    requires c + q + a == e' + d' + c' + q'
    ensures (e + d + c + q) + a == (e + e') + (d + d') + c' + q'
  {
    assert (e + d + c + q) + a == (e + d) + (c + q + a);
    assert (e + e') + (d + d') + c' + q' == (e + d) + (e' + d' + c' + q');
  }

  /** Over every run, each request has ended, was dropped with the queue, is running, or is queued, once. */
  lemma {:induction false} NoTrackIsLost(events: seq<Event>)
    requires Run(events).Some?
    ensures multiset(Requests(events)) == Whereabouts(Run(events).value.log, Run(events).value.chat)
  {
    if events != [] {
      var before, e := events[..|events| - 1], events[|events| - 1];
      NoTrackIsLost(before);
      RunIsCoherent(before);
      var w := Run(before).value;
      StepKeepsTracks(w.chat, e);
      hide Pick, Step, Enabled, Coherent, Current, Asked, Whereabouts;
      var o := Step(w.chat, e);
      WhereaboutsAppend(w.log, w.chat, o.obs, o.chat, multiset(Asked(e)));
      assert multiset(Requests(events)) == multiset(Requests(before)) + multiset(Asked(e));
    }
  }

  /**
    The tracks started are, in order, those that ended and the one that is running; every end
    schedules exactly one auto-advance, run or still pending; no more tracks are popped
    than skips were asked for and generations have ended.
   */
  lemma {:induction false} GenerationAccounting(events: seq<Event>)
    requires Run(events).Some?
    ensures var w := Run(events).value;
            && Count(w.log, IsStart) == Count(w.log, IsEnd) + LiveCount(w.chat)
            && Count(w.log, IsEnd) == Count(w.log, IsAdvance) + w.chat.pending
            && Count(w.log, IsPop) <= Skips(events) + Count(w.log, IsAdvance) <= Skips(events) + Count(w.log, IsEnd)
            && Pick(w.log, StartedIn) == Pick(w.log, EndedIn) + Current(w.chat)
  {
    EachGenerationEndsOnce(events);
    if events != [] {
      var before, e := events[..|events| - 1], events[|events| - 1];
      GenerationAccounting(before);
      RunIsCoherent(before);
      var w := Run(before).value;
      StepBooks(w.chat, e);
      hide Count, Step, Enabled, Coherent;
      var o := Step(w.chat, e);
      CountAppend(w.log, o.obs, IsStart);
      CountAppend(w.log, o.obs, IsEnd);
      CountAppend(w.log, o.obs, IsAdvance);
      CountAppend(w.log, o.obs, IsPop);
    }
  }

  // ----- the queue -----

  /** The part of the log after the last clearing of the queue. */
  function SinceClear(log: seq<Obs>): seq<Obs> {
    if log == [] || log[|log| - 1].Cleared? then []
    else SinceClear(log[..|log| - 1]) + [log[|log| - 1]]
  }

  lemma {:induction false} SinceClearAppend(a: seq<Obs>, b: seq<Obs>)
    requires forall o | o in b :: !o.Cleared?
    ensures SinceClear(a + b) == SinceClear(a) + b
  {
    if b == [] {
      assert a + b == a;
    } else {
      assert (a + b)[..|a + b| - 1] == a + b[..|b| - 1];
      assert b[|b| - 1] in b;
      SinceClearAppend(a, b[..|b| - 1]);
      assert b == b[..|b| - 1] + [b[|b| - 1]];
    }
  }

  /** What a step other than /stop does to the queue is what it reports. */
  ghost predicate QueueBooks(c: Chat, o: Outcome) {
    && (forall x | x in o.obs :: !x.Cleared?)
    && c.queue + Pick(o.obs, QueuedIn) == Pick(o.obs, PoppedIn) + o.chat.queue
  }

  lemma PlayTrackQueue(c: Chat, t: TrackItem)
    ensures var o := PlayTrack(c, t);
            && Pick(o.obs, QueuedIn) == [] && Pick(o.obs, PoppedIn) == [] && o.chat.queue == c.queue
            && (forall x | x in o.obs :: !x.Cleared?)
  {
    if Live(c) {
      PickPair(Cut(c.session.value.current), Started(t), QueuedIn);
      PickPair(Cut(c.session.value.current), Started(t), PoppedIn);
    } else {
      assert PlayTrack(c, t).obs == [Started(t)];
      PickSingle(Started(t), QueuedIn);
      PickSingle(Started(t), PoppedIn);
    }
  }

  lemma PlayNextQueue(c: Chat)
    ensures QueueBooks(c, PlayNextInQueue(c))
  {
    hide Pick, PlayTrack;
    PickSingle(Advanced, QueuedIn);
    PickSingle(Advanced, PoppedIn);
    if c.queue != [] {
      var c', pop := c.(queue := c.queue[1..]), Popped(c.queue[0]);
      var o := PlayTrack(c', c.queue[0]);
      PlayTrackQueue(c', c.queue[0]);
      PickCons(pop, o.obs, QueuedIn);
      PickCons(pop, o.obs, PoppedIn);
      assert c.queue == [c.queue[0]] + c.queue[1..];
    } else if Live(c) {
      PickSingle(Cut(c.session.value.current), QueuedIn);
      PickSingle(Cut(c.session.value.current), PoppedIn);
    }
  }

  lemma StepQueue(c: Chat, e: Event)
    requires Enabled(c, e) && !e.Stop?
    ensures QueueBooks(c, Step(c, e))
  {
    hide Pick, PlayTrack, PlayNextInQueue;
    PickSingle(Advanced, QueuedIn);
    PickSingle(Advanced, PoppedIn);
    match e {
      case Play(_, _, _) =>
        PlayTrackQueue(c.(inCall := true), Requested(e));
        PickSingle(Queued(Requested(e)), QueuedIn);
        PickSingle(Queued(Requested(e)), PoppedIn);
      case Skip =>
        PlayNextQueue(c);
      case StreamEof =>
        PickSingle(Finished(c.session.value.current), QueuedIn);
        PickSingle(Finished(c.session.value.current), PoppedIn);
      case Advance =>
        var c' := c.(pending := c.pending - 1);
        PlayNextQueue(c');
        PickCons(Advanced, PlayNextInQueue(c').obs, QueuedIn);
        PickCons(Advanced, PlayNextInQueue(c').obs, PoppedIn);
      case _ =>
    }
  }

  lemma StopQueue(c: Chat)
    ensures var o := Step(c, Stop);
            o.chat.queue == [] && Pick(SinceClear(o.obs), QueuedIn) == [] && Pick(SinceClear(o.obs), PoppedIn) == []
            && o.obs != [] && o.obs[0] == Cleared(c.queue) && forall x | x in o.obs[1..] :: !x.Cleared?
  {
    var o := Step(c, Stop);
    SinceClearAppend([Cleared(c.queue)], o.obs[1..]);
    assert o.obs == [Cleared(c.queue)] + o.obs[1..];
    if Live(c) {
      assert o.obs[1..] == [Cut(c.session.value.current)];
      PickSingle(Cut(c.session.value.current), QueuedIn);
      PickSingle(Cut(c.session.value.current), PoppedIn);
    }
  }

  /** Per chat, the tracks queued since the last clear are those popped since then, then the queue, in order. */
  lemma {:induction false} QueueIsFifo(events: seq<Event>)
    requires Run(events).Some?
    ensures var w := Run(events).value;
            Pick(SinceClear(w.log), QueuedIn) == Pick(SinceClear(w.log), PoppedIn) + w.chat.queue
  {
    if events != [] {
      var before, e := events[..|events| - 1], events[|events| - 1];
      QueueIsFifo(before);
      var w := Run(before).value;
      hide Step, Enabled, Pick, SinceClear;
      var o := Step(w.chat, e);
      if e.Stop? {
        StopQueue(w.chat);
        SinceClearFrom(w.log, o.obs);
      } else {
        StepQueue(w.chat, e);
        SinceClearAppend(w.log, o.obs);
        PickAppend(SinceClear(w.log), o.obs, QueuedIn);
        PickAppend(SinceClear(w.log), o.obs, PoppedIn);
        Reassociate(Pick(SinceClear(w.log), PoppedIn), w.chat.queue, Pick(o.obs, QueuedIn),
                    Pick(o.obs, PoppedIn), o.chat.queue);
      }
    }
  }

  lemma Reassociate<T>(a: seq<T>, b: seq<T>, c: seq<T>, d: seq<T>, e: seq<T>)
    requires b + c == d + e
    ensures (a + b) + c == (a + d) + e
  {
    assert (a + b) + c == a + (b + c);
    assert (a + d) + e == a + (d + e);
  }

  lemma SinceClearFrom(log: seq<Obs>, obs: seq<Obs>)
    requires obs != [] && obs[0].Cleared? && forall x | x in obs[1..] :: !x.Cleared?
    ensures SinceClear(log + obs) == SinceClear(obs)
  {
    assert log + obs == (log + [obs[0]]) + obs[1..];
    assert obs == [obs[0]] + obs[1..];
    SinceClearAppend(log + [obs[0]], obs[1..]);
    SinceClearAppend([obs[0]], obs[1..]);
  }

  /** A /play with a query starts its track at once or queues it once, and never both. */
  lemma EveryRequestIsKept(c: Chat, e: Event)
    requires e.Play? && e.query != ""
    ensures var o := Step(c, e);
            && Pick(o.obs, StartedIn) + Pick(o.obs, QueuedIn) == [Requested(e)]
            && (Pick(o.obs, StartedIn) == [Requested(e)] <==> StateOf(c) == Idle)
  {
    var c', t := c.(inCall := true), Requested(e);
    if StateOf(c) == Idle {
      PlayTrackQueue(c', t);
      if Live(c) {
        PickPair(Cut(c.session.value.current), Started(t), StartedIn);
      } else {
        assert PlayTrack(c', t).obs == [Started(t)];
        PickSingle(Started(t), StartedIn);
      }
    } else {
      PickSingle(Queued(t), StartedIn);
      PickSingle(Queued(t), QueuedIn);
    }
  }
}
