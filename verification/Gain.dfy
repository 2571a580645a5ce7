/** The software gain that the streamer applies to every frame. */
module Gain {
  import opened Numbers
  import opened Pcm
  import PlayerModel
  import PlayerSafety

  /** Division as in C++: the quotient is truncated toward zero. */
  function TruncatedQuotient(a: int, b: int): int
    requires b > 0
  {
    if a >= 0 then a / b else -((-a) / b)
  }

  function Scale(x: int16, vol: int): int16 {
    Clamp(TruncatedQuotient(x * vol, 100), -32768, 32767)
  }

  lemma ProductAtMost(m: nat, vol: int, top: int)
    requires 0 <= vol <= top
    ensures 0 <= m * vol <= m * top
  {
    assert m * (top - vol) >= 0;
    assert m * (top - vol) == m * top - m * vol;
    assert m * vol >= 0;
  }

  lemma ProductBounds(x: int, vol: int)
    requires -32768 <= x <= 32767 && 0 <= vol <= 200
    ensures -6_553_600 <= x * vol <= 6_553_400
    ensures x >= 0 ==> x * vol >= 0
    ensures x <= 0 ==> x * vol <= 0
  {
    if x >= 0 {
      ProductAtMost(x, vol, 200);
    } else {
      ProductAtMost(-x, vol, 200);
      assert x * vol == -((-x) * vol);
    }
  }

  /**
    With the volumes a session can have, the intermediate product fits a 32-bit int, and the
    result is the exact quotient truncated toward zero, except that it saturates at the ends
    of the 16-bit range, and only there.
   */
  lemma ScaleIsFaithful(x: int16, vol: int)
    requires 0 <= vol <= 200
    ensures -0x8000_0000 <= x * vol < 0x8000_0000
    ensures var y := Scale(x, vol);
            || (x >= 0 && 100 * y <= x * vol < 100 * (y + 1))
            || (x <= 0 && 100 * (y - 1) < x * vol <= 100 * y)
            || (y == 32767 && x * vol >= 100 * 32768)
            || (y == -32768 && x * vol <= -100 * 32769)
  {
    ProductBounds(x, vol);
  }

  /** Whatever commands a chat has seen, scaling any sample by its volume stays within a 32-bit int. */
  lemma GainNeverOverflows(events: seq<PlayerModel.Event>, x: int16)
    requires PlayerModel.Run(events).Some? && PlayerModel.Run(events).value.chat.session.Some?
    ensures -0x8000_0000 <= x * PlayerModel.Run(events).value.chat.session.value.volume < 0x8000_0000
  {
    PlayerSafety.VolumeInRange(events);
    ScaleIsFaithful(x, PlayerModel.Run(events).value.chat.session.value.volume);
  }

  lemma ScaleIsMonotone(x: int16, y: int16, vol: int)
    requires 0 <= vol <= 200 && x <= y
    ensures Scale(x, vol) <= Scale(y, vol)
  {
    assert x * vol <= y * vol by {
      assert (y - x) * vol >= 0;
      assert (y - x) * vol == y * vol - x * vol;
    }
  }

  /** A volume of at most 100 never saturates and never makes a sample louder. */
  lemma QuietVolumesNeverSaturate(x: int16, vol: int)
    requires 0 <= vol <= 100
    ensures Scale(x, vol) == TruncatedQuotient(x * vol, 100)
    ensures if x >= 0 then 0 <= Scale(x, vol) <= x else x <= Scale(x, vol) <= 0
  {
    var m: int := x;
    if m >= 0 {
      ProductAtMost(m, vol, 100);
    } else {
      ProductAtMost(-m, vol, 100);
      assert m * vol == -((-m) * vol);
    }
  }

  lemma FullVolumeIsIdentity(x: int16)
    ensures Scale(x, 100) == x
  {
  }

  function Scaled(samples: seq<int16>, vol: int): seq<int16> {
    seq(|samples|, i requires 0 <= i < |samples| => Scale(samples[i], vol))
  }

  /** At volume 100 the slow path would send the very bytes that the fast path sends. */
  lemma {:induction false} SlowPathAgreesAtFullVolume(pcm: seq<byte>)
    requires |pcm| % 2 == 0
    ensures Encode(Scaled(Decode(pcm), 100)) == pcm
  {
    var samples := Decode(pcm);
    forall i | 0 <= i < |samples| ensures Scaled(samples, 100)[i] == samples[i] {
      FullVolumeIsIdentity(samples[i]);
    }
    assert Scaled(samples, 100) == samples;
    EncodeDecode(pcm);
  }

  /** The part of a frame that consists of whole samples. */
  function WholeSamples(pcm: seq<byte>): (r: seq<byte>)
    ensures |r| % 2 == 0 && r <= pcm && |pcm| - 1 <= |r|
  {
    pcm[..2 * (|pcm| / 2)]
  }

  /** The two's complement value of 16 bits. */
  function Signed(lo: int, hi: int): int {
    lo + 256 * hi - if hi >= 128 then 65536 else 0
  }

  /** The sample whose two bytes are at `2 * i`: two's complement, low byte first. */
  lemma DecodedAt(pcm: seq<byte>, i: nat)
    requires |pcm| % 2 == 0 && 2 * i + 1 < |pcm|
    ensures Decode(pcm)[i] == Signed(pcm[2 * i], pcm[2 * i + 1])
    ensures pcm[2 * i] == Decode(pcm)[i] % 256 && pcm[2 * i + 1] == (Decode(pcm)[i] / 256) % 256
  {
    assert Decode(pcm)[i] == Sample(pcm[2 * i], pcm[2 * i + 1]);
  }

  predicate ScaledTo(lo: byte, hi: byte, vol: int, lo': byte, hi': byte) {
    var y := Scale(Signed(lo, hi), vol);
    lo' == y % 256 && hi' == (y / 256) % 256
  }

  /** What the bytes of a scaled frame are: 16-bit two's complement, low byte first, in and out. */
  ghost predicate ScaledBytes(pcm: seq<byte>, vol: int, sent: seq<byte>)
    requires |sent| == |pcm|
  {
    forall i: nat | 2 * i + 1 < |pcm| ::
      ScaledTo(pcm[2 * i], pcm[2 * i + 1], vol, sent[2 * i], sent[2 * i + 1])
  }

  lemma ScaledSamplesToBytes(pcm: seq<byte>, vol: int, sent: seq<byte>)
    requires |sent| == |pcm|
    requires Decode(WholeSamples(sent)) == Scaled(Decode(WholeSamples(pcm)), vol)
    ensures ScaledBytes(pcm, vol, sent)
  {
    forall i: nat | 2 * i + 1 < |pcm|
      ensures ScaledTo(pcm[2 * i], pcm[2 * i + 1], vol, sent[2 * i], sent[2 * i + 1])
    {
      hide Scale, Decode;
      assert 2 * i + 1 < 2 * (|pcm| / 2);
      DecodedAt(WholeSamples(pcm), i);
      DecodedAt(WholeSamples(sent), i);
      assert |Decode(WholeSamples(sent))| == |Decode(WholeSamples(pcm))|;
    }
  }

  /**
    What is sent on for one frame. The slow path fills a buffer of whole samples but passes on
    the length of the frame, so of an odd frame the last byte sent is `stray`, whatever lies
    behind the buffer; the fast path sends the byte that came.
   */
  method OnFrameReceived(pcm: seq<byte>, vol: int, stray: byte) returns (sent: seq<byte>)
    ensures |sent| == |pcm|
    ensures ScaledBytes(pcm, vol, sent)
    ensures |pcm| % 2 == 1 ==> sent[|pcm| - 1] == if vol == 100 then pcm[|pcm| - 1] else stray
    ensures vol == 100 ==> sent == pcm
  {
    var whole := WholeSamples(pcm);
    if vol == 100 {
      SlowPathAgreesAtFullVolume(whole);
      DecodeEncode(Scaled(Decode(whole), 100));
      ScaledSamplesToBytes(pcm, vol, pcm);
      return pcm;
    }
    var input := Decode(whole);
    var samples := new int16[|input|];
    for i := 0 to |input|
      invariant forall k | 0 <= k < i :: samples[k] == Scale(input[k], vol)
    {
      var scaled := TruncatedQuotient(input[i] * vol, 100);
      samples[i] := Clamp(scaled, -32768, 32767);
    }
    assert samples[..] == Scaled(input, vol);
    sent := Encode(samples[..]) + if |pcm| % 2 == 1 then [stray] else [];
    assert WholeSamples(sent) == Encode(samples[..]);
    DecodeEncode(samples[..]);
    ScaledSamplesToBytes(pcm, vol, sent);
  }
}
