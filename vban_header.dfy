/**
 * vbantest.py: the stand-alone VBAN receiver's header class and payload
 * conversion. Unlike the two listeners, this decoder refuses a packet without
 * the magic, fails on a rate index past its 21-entry table, and takes the
 * channel count from byte 6.
 */
module VbanHeader {
  import opened Outcome
  import Pcm
  import VbanDetector

  type Byte = Pcm.Byte

  /** The fields `VBANHeader.__init__` sets. */
  datatype Header = Header(protocol: nat, sampleRateIndex: nat, samplesPerFrame: nat,
                           nbChannels: nat, dataFormat: nat, sampleRate: nat)

  /** The exceptions the constructor raises. */
  datatype HeaderError =
    | InvalidMagic          // the ValueError of a packet not starting with "VBAN"
    | Truncated             // the IndexError of reading byte 4, 5, 6 or 7 of a shorter packet
    | RateIndexOutOfRange   // the IndexError of `sr_table[index]` for an index past the table

  /** The 21-entry table: the 20 of the VBAN protocol and 705600 Hz at index 20. */
  const SrTable: seq<nat> := [6000, 12000, 24000, 48000, 96000, 192000, 384000, 8000, 16000,
                              32000, 64000, 128000, 256000, 512000, 11025, 22050, 44100, 88200,
                              176400, 352800, 705600]

  const HeaderSize: nat := 28

  /** `data[4] & 0xE0`: byte 4 with its low five bits cleared. */
  function Protocol(b4: Byte): (p: nat)
    ensures p % 32 == 0 && p <= b4 < p + 32
  {
    (b4 / 32) * 32
  }

  /** `(data[6] & 0x1F) + 1`. */
  function NbChannels(b6: Byte): (c: nat)
    ensures 1 <= c <= 32
  {
    b6 % 32 + 1
  }

  /** `data[7] >> 5`: the top three bits of byte 7. */
  function DataFormat(b7: Byte): (f: nat)
    ensures f < 8
  {
    b7 / 32
  }

  /** The arithmetic above is the source's bit masks and shifts. */
  lemma FieldMasks(x: bv8)
    ensures Protocol(x as int) == (x & 0xE0) as int
    ensures VbanDetector.RateIndex(x as int) == (x & 0x1F) as int
    ensures NbChannels(x as int) == (x & 0x1F) as int + 1
    ensures DataFormat(x as int) == (x >> 5) as int
  {
    VbanDetector.MaskLow(x);
    ProtocolMask(x);
    ShiftFive(x);
  }

  lemma ProtocolMask(x: bv8)
    ensures (x & 0xE0) as int == (x as int / 32) * 32
  {
  }

  lemma ShiftFive(x: bv8)
    ensures (x >> 5) as int == x as int / 32
  {
  }

  /**
   * `VBANHeader(data)`: the magic check, then the four header bytes, then the
   * table lookup, each failing as the source does.
   */
  function ParseHeader(data: seq<Byte>): (r: Result<Header, HeaderError>)
    ensures r == Err(InvalidMagic) <==> !(|data| >= 4 && data[..4] == VbanDetector.Magic)
    ensures r == Err(Truncated) <==> |data| >= 4 && data[..4] == VbanDetector.Magic && |data| < 8
    ensures r == Err(RateIndexOutOfRange) <==> |data| >= 8 && data[..4] == VbanDetector.Magic && data[4] % 32 >= |SrTable|
    ensures r.Ok? ==> && |data| >= 8
                      && r.value.protocol + r.value.sampleRateIndex == data[4]
                      && r.value.sampleRateIndex < |SrTable|
                      && r.value.sampleRate == SrTable[r.value.sampleRateIndex]
                      && r.value.samplesPerFrame == data[5]
                      && 1 <= r.value.nbChannels <= 32 && r.value.nbChannels - 1 == data[6] % 32
                      && r.value.dataFormat == data[7] / 32
  {
    if |data| < 4 || data[..4] != VbanDetector.Magic then Err(InvalidMagic)
    else if |data| < 8 then Err(Truncated)
    else
      var index := VbanDetector.RateIndex(data[4]);
      if index >= |SrTable| then Err(RateIndexOutOfRange)
      else Ok(Header(Protocol(data[4]), index, data[5], NbChannels(data[6]), DataFormat(data[7]), SrTable[index]))
  }

  /** A header with its fields in range: what a sender can put on the wire. */
  predicate WellFormed(h: Header)
  {
    && h.protocol % 32 == 0 && h.protocol < 256
    && h.sampleRateIndex < |SrTable| && h.sampleRate == SrTable[h.sampleRateIndex]
    && h.samplesPerFrame < 256
    && 1 <= h.nbChannels <= 32
    && h.dataFormat < 8
  }

  /** The eight bytes a sender writes for `h` (codec bits of byte 7 left at zero). */
  function EncodeHeader(h: Header): (b: seq<Byte>)
    requires WellFormed(h)
    ensures |b| == 8 && b[..4] == VbanDetector.Magic
  {
    VbanDetector.Magic + [h.protocol + h.sampleRateIndex, h.samplesPerFrame, h.nbChannels - 1, h.dataFormat * 32]
  }

  /** Parsing a header a sender wrote, followed by anything, gives back the header. */
  lemma ParseEncode(h: Header, rest: seq<Byte>)
    requires WellFormed(h)
    ensures ParseHeader(EncodeHeader(h) + rest) == Ok(h)
  {
    var data := EncodeHeader(h) + rest;
    assert data[..4] == VbanDetector.Magic;
    assert data[4] == h.protocol + h.sampleRateIndex;
    assert VbanDetector.RateIndex(data[4]) == h.sampleRateIndex;
    assert Protocol(data[4]) == h.protocol;
  }

  /** A parsed header is well formed, and writing it out and parsing again gives the same header. */
  lemma ParseThenEncode(data: seq<Byte>)
    requires ParseHeader(data).Ok?
    ensures WellFormed(ParseHeader(data).value)
    ensures ParseHeader(EncodeHeader(ParseHeader(data).value)) == ParseHeader(data)
  {
    var h := ParseHeader(data).value;
    ParseEncode(h, []);
    assert EncodeHeader(h) + [] == EncodeHeader(h);
  }

  /**
   * On the rate the three decoders part ways: this one agrees with the detector
   * below index 20, reads 705600 Hz at 20 where the detector reads 44100, and
   * fails above, where the detector again reads 44100.
   */
  lemma RateAgainstDetector(data: seq<Byte>)
    requires |data| >= 8 && data[..4] == VbanDetector.Magic
    ensures VbanDetector.RateIndex(data[4]) < 20 ==>
      ParseHeader(data).Ok? && ParseHeader(data).value.sampleRate == VbanDetector.SampleRate(VbanDetector.RateIndex(data[4]))
    ensures VbanDetector.RateIndex(data[4]) == 20 ==>
      ParseHeader(data).Ok? && ParseHeader(data).value.sampleRate == 705600 && VbanDetector.SampleRate(20) == 44100
    ensures VbanDetector.RateIndex(data[4]) > 20 ==> ParseHeader(data) == Err(RateIndexOutOfRange)
  {
  }

  /**
   * The samples of a packet, as lines 68-70 compute them: the bytes after the
   * header (none when the packet is shorter) read as int16 and divided by
   * 32768, or the error numpy raises on an odd byte count.
   */
  function PacketAudio(data: seq<Byte>): (r: Result<seq<real>, Pcm.PcmError>)
    ensures var payload := if |data| <= HeaderSize then 0 else |data| - HeaderSize;
      && (r.Err? <==> payload % 2 == 1)
      && (r.Ok? ==> |r.value| == payload / 2 && forall i :: 0 <= i < |r.value| ==> -1.0 <= r.value[i] < 1.0)
  {
    Pcm.DecodeFloat(if |data| <= HeaderSize then [] else data[HeaderSize..])
  }

  /** A packet carrying the samples `samples` after its header yields exactly those samples, scaled by 1/32768. */
  lemma PacketAudioRoundTrip(header: seq<Byte>, samples: seq<int>)
    requires |header| == HeaderSize
    requires forall k :: 0 <= k < |samples| ==> -32768 <= samples[k] < 32768
    ensures PacketAudio(header + Pcm.EncodeInt16(samples)) == Ok(Pcm.Normalise(samples))
  {
    var data := header + Pcm.EncodeInt16(samples);
    Pcm.DecodeEncode(samples);
    if |data| <= HeaderSize {
      assert Pcm.EncodeInt16(samples) == [];
    } else {
      assert data[HeaderSize..] == Pcm.EncodeInt16(samples);
    }
  }
}
