/**
  The reader loop of the media pipeline: it fills one frame buffer from a pipe that may hand
  over any number of bytes at a time, while other threads may pause or stop it at any look.
 */
module PipelineReading {
  import opened Pcm

  /** The read end of the pipe: every read yields at least one byte until the end, then none. */
  class ByteSource {
    const data: seq<byte>
    const offer: nat -> nat  // how many bytes are ready at the k-th read
    var position: nat
    var readCount: nat

    ghost predicate Valid()
      reads this
    {
      position <= |data|
    }

    constructor (data: seq<byte>, offer: nat -> nat)
      ensures Valid() && this.data == data && this.offer == offer && position == 0
    {
      this.data, this.offer, position, readCount := data, offer, 0, 0;
    }

    method Read(buffer: array<byte>, from: nat, room: nat) returns (got: nat)
      requires Valid() && room > 0 && from + room <= buffer.Length
      modifies this, buffer
      ensures Valid() && got <= room && position == old(position) + got
      ensures got == 0 <==> old(position) == |data|
      ensures buffer[..from] == old(buffer[..from])
      ensures buffer[from..from + got] == data[old(position)..position]
    {
      var left := |data| - position;
      got := if offer(readCount) == 0 then 1 else offer(readCount);
      if got > room {
        got := room;
      }
      if got > left {
        got := left;
      }
      forall k | 0 <= k < got {
        buffer[from + k] := data[position + k];
      }
      position, readCount := position + got, readCount + 1;
    }
  }

  /**
    The flags as the reader sees them: look number `stopAt` at is_running_ is the first that
    finds it false; `clear` counts the looks at is_paused_ that find it false.
   */
  class Controls {
    const stopAt: nat
    const paused: nat -> bool
    var looks: nat
    ghost var clear: nat

    constructor (stopAt: nat, paused: nat -> bool)
      ensures this.stopAt == stopAt && this.paused == paused && looks == 0 && clear == 0
    {
      this.stopAt, this.paused, looks, clear := stopAt, paused, 0, 0;
    }

    method IsRunning() returns (running: bool)
      modifies this`looks
      ensures looks == old(looks) + 1 && running == (old(looks) < stopAt)
    {
      running := looks < stopAt;
      looks := looks + 1;
    }

    method IsPaused() returns (isPaused: bool)
      modifies this`clear
      ensures isPaused == paused(looks)
      ensures clear == old(clear) + if isPaused then 0 else 1
    {
      isPaused := paused(looks);
      if !isPaused {
        clear := clear + 1;
      }
    }
  }

  /** The frame callback, which notes how many looks at is_running_ came before each frame. */
  class FrameSink {
    var frames: seq<seq<byte>>
    ghost var looksBefore: seq<nat>

    ghost predicate Valid()
      reads this
    {
      |looksBefore| == |frames|
    }

    constructor ()
      ensures Valid() && frames == []
    {
      frames, looksBefore := [], [];
    }

    method OnFrame(frame: seq<byte>, ghost controls: Controls)
      requires Valid()
      modifies this
      ensures Valid() && frames == old(frames) + [frame] && looksBefore == old(looksBefore) + [controls.looks]
    {
      frames, looksBefore := frames + [frame], looksBefore + [controls.looks];
    }
  }

  /** The inner loop: fill the buffer from position `start` of the stream. */
  method FillFrame(source: ByteSource, controls: Controls, buffer: array<byte>) returns (total: nat)
    requires source.Valid() && buffer.Length == PCM_FRAME_BYTES
    modifies source, controls`looks, buffer
    ensures source.Valid() && controls.looks > old(controls.looks)
    ensures total <= PCM_FRAME_BYTES && source.position == old(source.position) + total
    ensures buffer[..total] == source.data[old(source.position)..source.position]
    ensures controls.looks <= controls.stopAt ==> total == PCM_FRAME_BYTES || source.position == |source.data|
  {
    total := 0;
    var more := controls.IsRunning();
    while more
      invariant source.Valid() && controls.looks > old(controls.looks)
      invariant total <= PCM_FRAME_BYTES && source.position == old(source.position) + total
      invariant buffer[..total] == source.data[old(source.position)..source.position]
      invariant more ==> total < PCM_FRAME_BYTES && controls.looks <= controls.stopAt
      invariant !more && controls.looks <= controls.stopAt ==> total == PCM_FRAME_BYTES
      decreases PCM_FRAME_BYTES - total, more
    {
      var got := source.Read(buffer, total, PCM_FRAME_BYTES - total);
      if got == 0 {
        break;
      }
      assert buffer[..total + got] == buffer[..total] + buffer[total..total + got];
      total := total + got;
      more := false;
      if total < PCM_FRAME_BYTES {
        more := controls.IsRunning();
      }
    }
  }

  lemma NextChunk(data: seq<byte>, from: nat, to: nat)
    requires from < to <= |data|
    requires to - from == PCM_FRAME_BYTES || (to == |data| && to - from <= PCM_FRAME_BYTES)
    ensures Chunks(data[from..]) == [data[from..to]] + Chunks(data[to..])
  {
    var s := data[from..];
    if |s| <= PCM_FRAME_BYTES {
      assert to == |data| && data[from..to] == s && data[to..] == [];
    } else {
      assert s[..PCM_FRAME_BYTES] == data[from..to] && s[PCM_FRAME_BYTES..] == data[to..];
    }
  }

  /** The frames are the framing of the first `delivered` bytes, and go on with that of the others. */
  ghost predicate Framed(frames: seq<seq<byte>>, data: seq<byte>, delivered: nat) {
    && delivered <= |data|
    && frames + Chunks(data[delivered..]) == Chunks(data)
    && Concat(frames) == data[..delivered]
  }

  lemma NothingFramed(data: seq<byte>)
    ensures Framed([], data, 0)
  {
    assert data[0..] == data;
  }

  /** Delivering the bytes up to `to` as the next frame. */
  lemma NextFrame(frames: seq<seq<byte>>, data: seq<byte>, from: nat, to: nat)
    requires from < to <= |data|
    requires to - from == PCM_FRAME_BYTES || (to == |data| && to - from <= PCM_FRAME_BYTES)
    requires Framed(frames, data, from)
    ensures Framed(frames + [data[from..to]], data, to)
  {
    var frame := data[from..to];
    NextChunk(data, from, to);
    hide Chunks;
    assert frames + ([frame] + Chunks(data[to..])) == (frames + [frame]) + Chunks(data[to..]);
    ConcatAppend(frames, [frame]);
    assert Concat([frame]) == frame;
    assert data[..to] == data[..from] + frame;
  }

  /** Frames of 3840 bytes, 20 ms of 48 kHz stereo, but for the last one, which is not empty. */
  ghost predicate FrameSizes(frames: seq<seq<byte>>) {
    && (forall i | 0 <= i < |frames| :: 0 < |frames[i]| <= 3840)
    && (forall i | 0 <= i < |frames| - 1 :: |frames[i]| == 3840)
  }

  lemma FramedSoFar(frames: seq<seq<byte>>, data: seq<byte>, delivered: nat)
    requires Framed(frames, data, delivered)
    ensures frames <= Chunks(data) && FrameSizes(frames)
    ensures Concat(frames) == data[..delivered] && |Concat(frames)| == delivered
    ensures delivered == |data| ==> frames == Chunks(data)
  {
    ChunksAreCanonical(data);
    assert delivered == |data| ==> data[delivered..] == [];
    hide Concat;
    forall i | 0 <= i < |frames|
      ensures 0 < |frames[i]| <= 3840 && (i < |frames| - 1 ==> |frames[i]| == 3840)
    {
      assert frames[i] == Chunks(data)[i];
    }
  }

  /**
    However the bytes arrive and whenever the reader is paused: if it is never stopped, the
    frames delivered are the canonical framing of the whole stream. If it is stopped, they are
    the first frames of it, and at most one frame's worth of the bytes read is dropped.
    Every look that finds the reader not paused lets it read and deliver one frame at most, and
    all but the last of them do; a frame is delivered only after a look that finds it running.
   */
  method ReaderLoop(source: ByteSource, controls: Controls, sink: FrameSink)
    requires source.Valid() && source.position == 0 && sink.Valid() && sink.frames == [] && controls.clear == 0
    modifies source, controls, sink
    ensures source.Valid() && sink.Valid()
    ensures controls.looks <= controls.stopAt ==> sink.frames == Chunks(source.data) && source.position == |source.data|
    ensures sink.frames <= Chunks(source.data) && FrameSizes(sink.frames)
    ensures |Concat(sink.frames)| <= source.position <= |Concat(sink.frames)| + PCM_FRAME_BYTES
    ensures |Concat(sink.frames)| <= |source.data| && Concat(sink.frames) == source.data[..|Concat(sink.frames)|]
    ensures |sink.frames| <= controls.clear <= |sink.frames| + 1
    ensures source.position <= 3840 * controls.clear
    ensures (forall k: nat :: controls.paused(k)) ==> sink.frames == [] && source.position == 0
    ensures forall i | 0 <= i < |sink.frames| :: 0 < sink.looksBefore[i] <= controls.stopAt
  {
    ghost var delivered: nat := 0;  // bytes in frames
    var buffer := new byte[PCM_FRAME_BYTES];
    NothingFramed(source.data);
    hide Framed, Chunks, Concat, FrameSizes;
    var running := controls.IsRunning();
    while running
      invariant source.Valid() && sink.Valid() && controls.looks > old(controls.looks)
      invariant delivered <= source.position <= |source.data| && source.position <= delivered + PCM_FRAME_BYTES
      invariant controls.looks <= controls.stopAt ==> delivered == source.position
      invariant running <==> controls.looks <= controls.stopAt
      invariant Framed(sink.frames, source.data, delivered)
      invariant running ==> controls.clear == |sink.frames|
      invariant |sink.frames| <= controls.clear <= |sink.frames| + 1
      invariant source.position <= PCM_FRAME_BYTES * controls.clear
      invariant (forall k: nat :: controls.paused(k)) ==> controls.clear == 0
      invariant forall i | 0 <= i < |sink.frames| :: 0 < sink.looksBefore[i] <= controls.stopAt
      decreases controls.stopAt + 1 - controls.looks
    {
      var isPaused := controls.IsPaused();
      if isPaused {
        running := controls.IsRunning();
        continue;
      }
      var total := FillFrame(source, controls, buffer);
      if total == 0 {
        break;
      }
      running := controls.IsRunning();
      if running {
        NextFrame(sink.frames, source.data, delivered, source.position);
        sink.OnFrame(buffer[..total], controls);
        delivered := source.position;
      }
      running := controls.IsRunning();
    }
    FramedSoFar(sink.frames, source.data, delivered);
  }
}
