/**
  The per-chat player as a machine: the session of the audio streamer, the track queue, the
  call membership and the auto-advances that ended streams have scheduled.

  Every command handler is one step. A stream that runs out (`StreamEof`) and a scheduled
  auto-advance that gets its turn in the pool (`Advance`) are steps of their own.
 */
module PlayerModel {
  import opened Numbers
  import opened Wrappers

  datatype TrackItem = TrackItem(title: string, url: string, requesterId: int, addedAt: int)

  datatype PlayerState = Idle | Playing | Paused | Buffering

  /** `running` until the reader thread has fired its end-of-stream callback. */
  datatype Pipeline = Pipeline(running: bool, paused: bool)

  datatype Session = Session(state: PlayerState, volume: int, current: TrackItem, pipeline: Option<Pipeline>)

  datatype Chat = Chat(
    session: Option<Session>,
    queue: seq<TrackItem>,
    inCall: bool,
    pending: nat)  // auto-advances scheduled and not yet run

  const FRESH := Chat(None, [], false, 0)

  /** What a step does, for the record. */
  datatype Obs =
    | Started(track: TrackItem)
    | Finished(track: TrackItem)  // the stream ran out
    | Cut(track: TrackItem)       // the stream was stopped while it ran
    | Queued(track: TrackItem)
    | Popped(track: TrackItem)
    | Cleared(dropped: seq<TrackItem>)
    | Advanced

  datatype Outcome = Outcome(chat: Chat, obs: seq<Obs>)

  datatype Event =
    | Play(query: string, userId: int, now: int)
    | Skip
    | Pause
    | Resume
    | Stop
    | Volume(parsed: Option<int>)  // None when the argument is missing or not a number
    | StreamEof
    | Advance

  predicate Live(c: Chat) {
    c.session.Some? && c.session.value.pipeline.Some? && c.session.value.pipeline.value.running
  }

  function StateOf(c: Chat): PlayerState {
    if c.session.Some? then c.session.value.state else Idle
  }

  /** on_stream_eof: the session, if still registered, turns idle, and an auto-advance is scheduled. */
  function OnStreamEof(c: Chat): Chat {
    c.(session := if c.session.Some? then Some(c.session.value.(state := Idle)) else None,
       pending := c.pending + 1)
  }

  /** AudioStreamer::play. Stopping the old pipeline joins its reader, which fires on_stream_eof. */
  function PlayTrack(c: Chat, t: TrackItem): Outcome {
    var volume := if c.session.Some? then c.session.value.volume else 100;
    var stopped := if Live(c) then OnStreamEof(c) else c;
    Outcome(stopped.(session := Some(Session(Playing, volume, t, Some(Pipeline(true, false))))),
            (if Live(c) then [Cut(c.session.value.current)] else []) + [Started(t)])
  }

  /** AudioStreamer::stop. The session is unregistered before its pipeline is stopped. */
  function StopPlayer(c: Chat): Outcome {
    if c.session.None? then Outcome(c, [])
    else if Live(c) then
      Outcome(OnStreamEof(c.(session := None)).(inCall := false), [Cut(c.session.value.current)])
    else
      Outcome(c.(session := None, inCall := false), [])
  }

  function PlayNextInQueue(c: Chat): Outcome {
    if c.queue != [] then
      var o := PlayTrack(c.(queue := c.queue[1..]), c.queue[0]);
      Outcome(o.chat, [Popped(c.queue[0])] + o.obs)
    else
      var o := StopPlayer(c);
      Outcome(o.chat.(inCall := false), o.obs)
  }

  function Requested(e: Event): TrackItem
    requires e.Play?
  {
    TrackItem(e.query, e.query, e.userId, e.now)
  }

  function HandlePlay(c: Chat, e: Event): Outcome
    requires e.Play?
  {
    if e.query == "" then Outcome(c, [])
    else if StateOf(c) == Idle then PlayTrack(c.(inCall := true), Requested(e))
    else Outcome(c.(queue := c.queue + [Requested(e)]), [Queued(Requested(e))])
  }

  function SetPaused(c: Chat, paused: bool): Chat {
    if c.session.Some? && c.session.value.pipeline.Some? then
      var s := c.session.value;
      c.(session := Some(s.(state := if paused then Paused else Playing,
                            pipeline := Some(s.pipeline.value.(paused := paused)))))
    else c
  }

  function HandleVolume(c: Chat, parsed: Option<int>): Chat {
    if parsed.None? || parsed.value < 1 || parsed.value > 200 || c.session.None? then c
    else c.(session := Some(c.session.value.(volume := Clamp(parsed.value, 0, 200))))
  }

  function HandleStop(c: Chat): Outcome {
    var o := StopPlayer(c.(queue := []));
    Outcome(o.chat.(inCall := false), [Cleared(c.queue)] + o.obs)
  }

  /** The reader thread runs out of bytes. */
  function EndStream(c: Chat): Outcome
    requires Live(c)
  {
    var s := c.session.value;
    Outcome(OnStreamEof(c.(session := Some(s.(pipeline := Some(s.pipeline.value.(running := false)))))),
            [Finished(s.current)])
  }

  predicate Enabled(c: Chat, e: Event) {
    && (e.StreamEof? ==> Live(c))
    && (e.Advance? ==> c.pending > 0)
  }

  function Step(c: Chat, e: Event): Outcome
    requires Enabled(c, e)
  {
    match e
    case Play(_, _, _) => HandlePlay(c, e)
    case Skip => if StateOf(c) == Idle then Outcome(c, []) else PlayNextInQueue(c)
    case Pause => Outcome(SetPaused(c, true), [])
    case Resume => Outcome(SetPaused(c, false), [])
    case Stop => HandleStop(c)
    case Volume(parsed) => Outcome(HandleVolume(c, parsed), [])
    case StreamEof => EndStream(c)
    case Advance =>
      var o := PlayNextInQueue(c.(pending := c.pending - 1));
      Outcome(o.chat, [Advanced] + o.obs)
  }

  // ----- runs -----

  datatype World = World(chat: Chat, log: seq<Obs>)

  /** A fresh chat after a run of events, with all that was observed, if every event was possible in turn. */
  function Run(events: seq<Event>): Option<World> {
    if events == [] then Some(World(FRESH, []))
    else
      var e := events[|events| - 1];
      match Run(events[..|events| - 1])
      case None => None
      case Some(w) =>
        if Enabled(w.chat, e) then
          var o := Step(w.chat, e);
          Some(World(o.chat, w.log + o.obs))
        else None
  }

  /** The chat after some events, from any state. */
  function Exec(c: Chat, events: seq<Event>): Option<Chat>
    decreases |events|
  {
    if events == [] then Some(c)
    else if Enabled(c, events[0]) then Exec(Step(c, events[0]).chat, events[1..])
    else None
  }
}
