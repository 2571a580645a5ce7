/** Bytes, 16-bit samples, and the canonical framing of a byte stream. */
module Pcm {

  type byte = b: int | 0 <= b < 256
  type int16 = x: int | -32768 <= x < 32768

  const PCM_FRAME_BYTES: nat := 3840

  // ----- framing -----

  /** Full frames as long as they last, then what is left. */
  function Chunks(s: seq<byte>): seq<seq<byte>> {
    if |s| == 0 then []
    else if |s| <= PCM_FRAME_BYTES then [s]
    else [s[..PCM_FRAME_BYTES]] + Chunks(s[PCM_FRAME_BYTES..])
  }

  function Concat(frames: seq<seq<byte>>): seq<byte> {
    if frames == [] then [] else frames[0] + Concat(frames[1..])
  }

  /** Every frame is full but for the last, and none is empty. */
  ghost predicate Canonical(frames: seq<seq<byte>>) {
    && (forall i | 0 <= i < |frames| - 1 :: |frames[i]| == PCM_FRAME_BYTES)
    && (frames != [] ==> 0 < |frames[|frames| - 1]| <= PCM_FRAME_BYTES)
  }

  lemma {:induction false} ChunksAreCanonical(s: seq<byte>)
    ensures Canonical(Chunks(s)) && Concat(Chunks(s)) == s
    decreases |s|
  {
    if |s| > PCM_FRAME_BYTES {
      ChunksAreCanonical(s[PCM_FRAME_BYTES..]);
      assert s == s[..PCM_FRAME_BYTES] + s[PCM_FRAME_BYTES..];
    } else if |s| > 0 {
      assert Chunks(s)[1..] == [];
    }
  }

  /** There is no other canonical framing. */
  lemma {:induction false} CanonicalIsUnique(frames: seq<seq<byte>>)
    requires Canonical(frames)
    ensures frames == Chunks(Concat(frames))
  {
    if |frames| > 1 {
      var rest := frames[1..];
      assert rest[|rest| - 1] == frames[|frames| - 1];
      CanonicalIsUnique(rest);
      assert Concat(rest) == rest[0] + Concat(rest[1..]);
      assert |rest[0]| > 0;
      var s := Concat(frames);
      assert s[..PCM_FRAME_BYTES] == frames[0] && s[PCM_FRAME_BYTES..] == Concat(rest);
      assert frames == [frames[0]] + rest;
    } else if |frames| == 1 {
      assert frames[1..] == [];
      assert Concat(frames) == frames[0];
    }
  }

  lemma {:induction false} ConcatAppend(a: seq<seq<byte>>, b: seq<seq<byte>>)
    ensures Concat(a + b) == Concat(a) + Concat(b)
  {
    if a == [] {
      assert a + b == b;
    } else {
      assert (a + b)[1..] == a[1..] + b;
      ConcatAppend(a[1..], b);
    }
  }

  // ----- samples -----

  /** Two's complement, low byte first. */
  function Sample(lo: byte, hi: byte): int16 {
    var u := lo + 256 * hi;
    if u >= 32768 then u - 65536 else u
  }

  function Low(x: int16): byte {
    (if x < 0 then x + 65536 else x) % 256
  }

  function High(x: int16): byte {
    (if x < 0 then x + 65536 else x) / 256
  }

  function Decode(pcm: seq<byte>): seq<int16>
    requires |pcm| % 2 == 0
  {
    seq(|pcm| / 2, i requires 0 <= i < |pcm| / 2 => Sample(pcm[2 * i], pcm[2 * i + 1]))
  }

  function Encode(samples: seq<int16>): seq<byte> {
    seq(2 * |samples|, i requires 0 <= i < 2 * |samples| =>
      if i % 2 == 0 then Low(samples[i / 2]) else High(samples[i / 2]))
  }

  lemma SampleRoundTrip(lo: byte, hi: byte)
    ensures Low(Sample(lo, hi)) == lo && High(Sample(lo, hi)) == hi
  {
  }

  /** Reinterpreting bytes as samples and back is lossless, in both directions. */
  lemma EncodeDecode(pcm: seq<byte>)
    requires |pcm| % 2 == 0
    ensures Encode(Decode(pcm)) == pcm
  {
    forall i | 0 <= i < |pcm| ensures Encode(Decode(pcm))[i] == pcm[i] {
      SampleRoundTrip(pcm[2 * (i / 2)], pcm[2 * (i / 2) + 1]);
    }
  }

  lemma DecodeEncode(samples: seq<int16>)
    ensures Decode(Encode(samples)) == samples
  {
    forall i | 0 <= i < |samples| ensures Decode(Encode(samples))[i] == samples[i] {
      assert (2 * i) / 2 == i && (2 * i + 1) / 2 == i;
    }
  }
}
