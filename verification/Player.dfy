/**
  The four objects that hold a chat's player state, updated in place, and the dispatcher whose
  handlers drive them. `CommandDispatcher.ChatOf` collects what they hold for one chat; every
  handler is proved to move that by the machine's step and to leave all other chats alone.
 */
module Database {
  import opened Wrappers
  import opened PlayerModel

  class MongoClient {
    var queues: map<int, seq<TrackItem>>

    function QueueOf(chatId: int): seq<TrackItem>
      reads this
    {
      if chatId in queues then queues[chatId] else []
    }

    constructor ()
      ensures forall c :: QueueOf(c) == []
    {
      queues := map[];
    }

    method EnqueueTrack(chatId: int, track: TrackItem) returns (ok: bool)
      modifies this
      ensures ok
      ensures QueueOf(chatId) == old(QueueOf(chatId)) + [track]
      ensures forall c | c != chatId :: QueueOf(c) == old(QueueOf(c))
    {
      queues := queues[chatId := QueueOf(chatId) + [track]];
      return true;
    }

    method GetQueue(chatId: int) returns (tracks: seq<TrackItem>)
      ensures tracks == QueueOf(chatId)
    {
      if chatId in queues {
        return queues[chatId];
      }
      return [];
    }

    method PopNextTrack(chatId: int) returns (track: Option<TrackItem>)
      modifies this
      ensures match track
              case None => old(QueueOf(chatId)) == [] == QueueOf(chatId)
              case Some(t) => old(QueueOf(chatId)) == [t] + QueueOf(chatId)
      ensures forall c | c != chatId :: QueueOf(c) == old(QueueOf(c))
    {
      if chatId in queues && queues[chatId] != [] {
        track := Some(queues[chatId][0]);
        queues := queues[chatId := queues[chatId][1..]];
      } else {
        track := None;
      }
    }

    method ClearQueue(chatId: int) returns (ok: bool)
      modifies this
      ensures ok
      ensures QueueOf(chatId) == []
      ensures forall c | c != chatId :: QueueOf(c) == old(QueueOf(c))
    {
      queues := queues[chatId := []];
      return true;
    }
  }
}

module Calls {
  /** Call membership only; the media bridge behind it is not part of this model. */
  class NTgCallsClient {
    var activeChats: set<int>

    constructor ()
      ensures activeChats == {}
    {
      activeChats := {};
    }

    /** `created` is false exactly if the bridge is loaded and fails to create the call. */
    method JoinGroupCall(chatId: int, created: bool) returns (joined: bool)
      modifies this
      ensures joined == created
      ensures activeChats == if joined then old(activeChats) + {chatId} else old(activeChats)
    {
      if !created {
        return false;
      }
      activeChats := activeChats + {chatId};
      return true;
    }

    method LeaveGroupCall(chatId: int) returns (left: bool)
      modifies this
      ensures left == (chatId in old(activeChats)) && activeChats == old(activeChats) - {chatId}
    {
      if chatId !in activeChats {
        return false;
      }
      activeChats := activeChats - {chatId};
      return true;
    }

    /** A frame gets through exactly for a chat in the call. */
    method SendPcmFrame(chatId: int, frame: seq<int>) returns (sent: bool)
      ensures sent == (chatId in activeChats)
    {
      return chatId in activeChats;
    }
  }
}

module Streaming {
  import opened Numbers
  import opened Wrappers
  import opened PlayerModel
  import opened Calls

  const NO_TRACK := TrackItem("", "", 0, 0)

  class AudioStreamer {
    const calls: NTgCallsClient
    var sessions: map<int, Session>
    var scheduled: multiset<int>  // chats for which on_track_ended has queued an auto-advance

    constructor (calls: NTgCallsClient)
      ensures this.calls == calls && sessions == map[] && scheduled == multiset{}
    {
      this.calls := calls;
      sessions, scheduled := map[], multiset{};
    }

    /** This object's share of a chat's state. */
    function View(chatId: int, queue: seq<TrackItem>): Chat
      reads this, calls
    {
      Chat(if chatId in sessions then Some(sessions[chatId]) else None,
           queue, chatId in calls.activeChats, scheduled[chatId])
    }

    twostate predicate OthersKept(chatId: int)
      reads this, calls
    {
      forall c | c != chatId :: View(c, []) == old(View(c, []))
    }

    method OnStreamEof(chatId: int)
      modifies this
      ensures forall q :: View(chatId, q) == PlayerModel.OnStreamEof(old(View(chatId, q)))
      ensures chatId in sessions <==> chatId in old(sessions)
      ensures chatId in sessions ==> sessions[chatId] == old(sessions)[chatId].(state := Idle)
      ensures scheduled == old(scheduled) + multiset{chatId}
      ensures OthersKept(chatId)
    {
      if chatId in sessions {
        sessions := sessions[chatId := sessions[chatId].(state := Idle)];
      }
      scheduled := scheduled + multiset{chatId};
    }

    /** FFmpegPipeline::stop: the reader thread is joined, and it fires the callback if it has not yet. */
    method StopPipeline(chatId: int, pipeline: Pipeline)
      modifies this
      ensures forall q :: View(chatId, q) ==
                if pipeline.running then PlayerModel.OnStreamEof(old(View(chatId, q))) else old(View(chatId, q))
      ensures OthersKept(chatId)
    {
      if pipeline.running {
        OnStreamEof(chatId);
      }
    }

    method Play(chatId: int, track: TrackItem) returns (started: bool)
      modifies this
      ensures started
      ensures forall q :: View(chatId, q) == PlayTrack(old(View(chatId, q)), track).chat
      ensures chatId in sessions
      ensures sessions[chatId].state == Playing && sessions[chatId].current == track
      ensures sessions[chatId].pipeline == Some(Pipeline(true, false))
      ensures OthersKept(chatId)
    {
      if chatId !in sessions {
        sessions := sessions[chatId := Session(Idle, 100, NO_TRACK, None)];
      }
      var pipeline := sessions[chatId].pipeline;
      if pipeline.Some? {
        StopPipeline(chatId, pipeline.value);
        assert View(chatId, []).session.Some?;
        sessions := sessions[chatId := sessions[chatId].(pipeline := None)];
      }
      sessions := sessions[chatId := sessions[chatId].(current := track, state := Buffering)];
      sessions := sessions[chatId := sessions[chatId].(pipeline := Some(Pipeline(true, false)))];
      started := true;
      sessions := sessions[chatId := sessions[chatId].(state := Playing)];
    }

    method SetPaused(chatId: int, paused: bool) returns (ok: bool)
      modifies this
      ensures forall q :: View(chatId, q) == PlayerModel.SetPaused(old(View(chatId, q)), paused)
      ensures ok == (chatId in old(sessions) && old(sessions)[chatId].pipeline.Some?)
      ensures ok ==> chatId in sessions && sessions[chatId].state == (if paused then Paused else Playing)
                     && sessions[chatId].pipeline == Some(old(sessions)[chatId].pipeline.value.(paused := paused))
      ensures !ok ==> sessions == old(sessions)
      ensures OthersKept(chatId)
    {
      ok := chatId in sessions && sessions[chatId].pipeline.Some?;
      if ok {
        var s := sessions[chatId];
        sessions := sessions[chatId := s.(pipeline := Some(s.pipeline.value.(paused := paused)),
                                          state := if paused then Paused else Playing)];
      }
    }

    method Stop(chatId: int) returns (stopped: bool)
      modifies this, calls
      ensures forall q :: View(chatId, q) == StopPlayer(old(View(chatId, q))).chat
      ensures stopped == (chatId in old(sessions))
      ensures OthersKept(chatId)
    {
      stopped := chatId in sessions;
      if stopped {
        var s := sessions[chatId];
        sessions := sessions - {chatId};
        assert forall q :: View(chatId, q) == old(View(chatId, q)).(session := None);
        assert OthersKept(chatId);
        if s.pipeline.Some? {
          StopPipeline(chatId, s.pipeline.value);
        }
        assert OthersKept(chatId);
        var left := calls.LeaveGroupCall(chatId);
      }
    }

    method SetVolume(chatId: int, volume: int) returns (ok: bool)
      modifies this
      ensures ok == (chatId in old(sessions))
      ensures sessions == if ok then old(sessions)[chatId := old(sessions)[chatId].(volume := Clamp(volume, 0, 200))] else old(sessions)
      ensures scheduled == old(scheduled)
    {
      ok := chatId in sessions;
      if ok {
        sessions := sessions[chatId := sessions[chatId].(volume := Clamp(volume, 0, 200))];
      }
    }

    method GetState(chatId: int) returns (state: PlayerState)
      ensures forall q :: state == StateOf(View(chatId, q))
    {
      if chatId in sessions {
        return sessions[chatId].state;
      }
      return Idle;
    }

    /** The reader thread of a running pipeline finds no more bytes. */
    method StreamRunsOut(chatId: int)
      requires Live(View(chatId, []))
      modifies this
      ensures forall q :: View(chatId, q) == EndStream(old(View(chatId, q))).chat
      ensures OthersKept(chatId)
    {
      var s := sessions[chatId];
      sessions := sessions[chatId := s.(pipeline := Some(s.pipeline.value.(running := false)))];
      OnStreamEof(chatId);
    }
  }
}

module Dispatching {
  import opened Wrappers
  import opened PlayerModel
  import opened PlayerSafety
  import opened Database
  import opened Calls
  import opened Streaming

  class CommandDispatcher {
    const db: MongoClient
    const calls: NTgCallsClient
    const streamer: AudioStreamer

    ghost predicate Valid() {
      streamer.calls == calls
    }

    constructor ()
      ensures Valid() && fresh(db) && fresh(calls) && fresh(streamer)
      ensures forall c :: ChatOf(c) == FRESH
    {
      var bridge := new NTgCallsClient();
      calls := bridge;
      db := new MongoClient();
      streamer := new AudioStreamer(bridge);
    }

    function ChatOf(chatId: int): Chat
      reads db, streamer, streamer.calls
    {
      streamer.View(chatId, db.QueueOf(chatId))
    }

    twostate predicate Moved(chatId: int, e: Event)
      requires Valid() && old(Enabled(ChatOf(chatId), e))
      reads db, streamer, calls
    {
      && ChatOf(chatId) == Step(old(ChatOf(chatId)), e).chat
      && forall c | c != chatId :: ChatOf(c) == old(ChatOf(c))
    }

    twostate lemma OthersMove(chatId: int)
      requires Valid() && streamer.OthersKept(chatId)
      requires forall c | c != chatId :: db.QueueOf(c) == old(db.QueueOf(c))
      ensures forall c | c != chatId :: ChatOf(c) == old(ChatOf(c))
    {
      forall c | c != chatId ensures ChatOf(c) == old(ChatOf(c)) {
        assert streamer.View(c, []) == old(streamer.View(c, []));
      }
    }

    method HandlePlay(chatId: int, userId: int, query: string, now: int)
      requires Valid()
      modifies db, calls, streamer
      ensures Moved(chatId, Play(query, userId, now))
      ensures query != "" ==>
                var track := TrackItem(query, query, userId, now);
                if old(StateOf(ChatOf(chatId))) == Idle
                then ChatOf(chatId).session.Some? && ChatOf(chatId).session.value.current == track
                else ChatOf(chatId).queue == old(ChatOf(chatId).queue) + [track]
    {
      if query == "" {
        return;
      }
      var track := TrackItem(query, query, userId, now);
      var state := streamer.GetState(chatId);
      assert state == StateOf(ChatOf(chatId));
      if state == Idle {
        var joined := calls.JoinGroupCall(chatId, true);
        assert ChatOf(chatId) == old(ChatOf(chatId)).(inCall := true) && streamer.OthersKept(chatId);
        var started := streamer.Play(chatId, track);
      } else {
        var ok := db.EnqueueTrack(chatId, track);
        var queue := db.GetQueue(chatId);
      }
      OthersMove(chatId);
    }

    method PlayNextInQueue(chatId: int)
      requires Valid()
      modifies db, calls, streamer
      ensures ChatOf(chatId) == PlayerModel.PlayNextInQueue(old(ChatOf(chatId))).chat
      ensures forall c | c != chatId :: ChatOf(c) == old(ChatOf(c))
    {
      var next := db.PopNextTrack(chatId);
      assert ChatOf(chatId) == old(ChatOf(chatId)).(queue := db.QueueOf(chatId));
      assert streamer.OthersKept(chatId);
      if next.Some? {
        assert old(db.QueueOf(chatId))[1..] == db.QueueOf(chatId);
        var started := streamer.Play(chatId, next.value);
      } else {
        var stopped := streamer.Stop(chatId);
        assert ChatOf(chatId) == StopPlayer(old(ChatOf(chatId))).chat && streamer.OthersKept(chatId);
        var left := calls.LeaveGroupCall(chatId);
      }
      assert streamer.OthersKept(chatId);
      OthersMove(chatId);
    }

    method HandleSkip(chatId: int)
      requires Valid()
      modifies db, calls, streamer
      ensures Moved(chatId, Skip)
    {
      var state := streamer.GetState(chatId);
      assert state == StateOf(ChatOf(chatId));
      if state == Idle {
        return;
      }
      PlayNextInQueue(chatId);
    }

    method HandlePause(chatId: int)
      requires Valid()
      modifies streamer
      ensures Moved(chatId, Pause)
    {
      var ok := streamer.SetPaused(chatId, true);
      OthersMove(chatId);
    }

    method HandleResume(chatId: int)
      requires Valid()
      modifies streamer
      ensures Moved(chatId, Resume)
    {
      var ok := streamer.SetPaused(chatId, false);
      OthersMove(chatId);
    }

    method HandleStop(chatId: int)
      requires Valid()
      modifies db, calls, streamer
      ensures Moved(chatId, Stop)
    {
      var cleared := db.ClearQueue(chatId);
      assert ChatOf(chatId) == old(ChatOf(chatId)).(queue := []) && streamer.OthersKept(chatId);
      var stopped := streamer.Stop(chatId);
      assert ChatOf(chatId) == StopPlayer(old(ChatOf(chatId)).(queue := [])).chat && streamer.OthersKept(chatId);
      var left := calls.LeaveGroupCall(chatId);
      assert streamer.OthersKept(chatId);
      OthersMove(chatId);
    }

    /** `parsed` is what std::stoi makes of the argument, None if it is empty or stoi throws. */
    method HandleVolume(chatId: int, parsed: Option<int>)
      requires Valid()
      modifies streamer
      ensures Moved(chatId, Volume(parsed))
    {
      if parsed.None? || parsed.value < 1 || parsed.value > 200 {
        return;
      }
      var ok := streamer.SetVolume(chatId, parsed.value);
      OthersMove(chatId);
    }

    method StreamEnds(chatId: int)
      requires Valid() && Live(ChatOf(chatId))
      modifies streamer
      ensures Moved(chatId, StreamEof)
    {
      streamer.StreamRunsOut(chatId);
      OthersMove(chatId);
    }

    /** A scheduled auto-advance gets its turn in the pool. */
    method RunAdvance(chatId: int)
      requires Valid() && ChatOf(chatId).pending > 0
      modifies db, calls, streamer
      ensures Moved(chatId, Advance)
    {
      streamer.scheduled := streamer.scheduled - multiset{chatId};
      PlayNextInQueue(chatId);
    }

    /** Any event, as the machine sees it. */
    method Dispatch(chatId: int, e: Event)
      requires Valid() && Enabled(ChatOf(chatId), e)
      requires forall c :: Coherent(ChatOf(c))
      modifies db, calls, streamer
      ensures Moved(chatId, e)
      ensures forall c :: Coherent(ChatOf(c))
    {
      CoherentStep(ChatOf(chatId), e);
      match e
      case Play(query, userId, now) => HandlePlay(chatId, userId, query, now);
      case Skip => HandleSkip(chatId);
      case Pause => HandlePause(chatId);
      case Resume => HandleResume(chatId);
      case Stop => HandleStop(chatId);
      case Volume(parsed) => HandleVolume(chatId, parsed);
      case StreamEof => StreamEnds(chatId);
      case Advance => RunAdvance(chatId);
    }
  }
}
