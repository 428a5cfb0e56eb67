/**
 * 16-bit signed PCM payloads, as `np.frombuffer(data, dtype=np.int16)` reads
 * them on a little-endian host, and their normalisation to floats by dividing
 * by 32768 (vbantest.py, vban_processor.py `_process_vban_stream`).
 */
module Pcm {
  import opened Outcome

  /** One octet of a datagram. */
  type Byte = b: int | 0 <= b < 256

  /** `np.frombuffer` refuses a buffer whose size is not a multiple of the element size. */
  datatype PcmError = OddByteCount

  /** The signed value of the little-endian word `lo`, `hi`. */
  function Int16At(lo: Byte, hi: Byte): (v: int)
    ensures -32768 <= v < 32768
    ensures (v >= 0) == (hi < 0x80)
  {
    var u := lo + 256 * hi;
    if u >= 32768 then u - 65536 else u
  }

  /** The two bytes a sender writes for the sample `v`, low byte first. */
  function Int16Bytes(v: int): (b: seq<Byte>)
    requires -32768 <= v < 32768
    ensures |b| == 2
  {
    var u := if v < 0 then v + 65536 else v;
    [u % 256, u / 256]
  }

  lemma Int16RoundTrip(v: int)
    requires -32768 <= v < 32768
    ensures Int16At(Int16Bytes(v)[0], Int16Bytes(v)[1]) == v
  {
    var u := if v < 0 then v + 65536 else v;
  }

  /** The samples of a payload, or the error numpy raises on an odd byte count. */
  function Int16Samples(payload: seq<Byte>): (r: Result<seq<int>, PcmError>)
    ensures r.Err? <==> |payload| % 2 == 1
    ensures r.Ok? ==> |r.value| == |payload| / 2
    ensures r.Ok? ==> forall i :: 0 <= i < |r.value| ==> -32768 <= r.value[i] < 32768
  {
    if |payload| % 2 == 1 then Err(OddByteCount)
    else Ok(seq(|payload| / 2, i requires 0 <= i < |payload| / 2 => Int16At(payload[2 * i], payload[2 * i + 1])))
  }

  /** The bytes of a sample sequence, as a sender encodes it. */
  function EncodeInt16(samples: seq<int>): (b: seq<Byte>)
    requires forall i :: 0 <= i < |samples| ==> -32768 <= samples[i] < 32768
    ensures |b| == 2 * |samples|
  {
    if samples == [] then [] else Int16Bytes(samples[0]) + EncodeInt16(samples[1..])
  }

  lemma {:induction false} EncodeInt16At(samples: seq<int>, i: nat)
    requires forall k :: 0 <= k < |samples| ==> -32768 <= samples[k] < 32768
    requires i < |samples|
    ensures EncodeInt16(samples)[2 * i] == Int16Bytes(samples[i])[0]
    ensures EncodeInt16(samples)[2 * i + 1] == Int16Bytes(samples[i])[1]
  {
    if i > 0 {
      EncodeInt16At(samples[1..], i - 1);
    }
  }

  /** Decoding what a sender encoded gives back its samples. */
  lemma DecodeEncode(samples: seq<int>)
    requires forall k :: 0 <= k < |samples| ==> -32768 <= samples[k] < 32768
    ensures Int16Samples(EncodeInt16(samples)) == Ok(samples)
  {
    var b := EncodeInt16(samples);
    forall i | 0 <= i < |samples| ensures Int16At(b[2 * i], b[2 * i + 1]) == samples[i] {
      DecodeEncodeAt(samples, i);
    }
    DecodeWords(b, samples);
  }

  /** A payload whose words read as `samples` decodes to `samples`. */
  lemma DecodeWords(b: seq<Byte>, samples: seq<int>)
    requires |b| == 2 * |samples|
    requires forall i :: 0 <= i < |samples| ==> Int16At(b[2 * i], b[2 * i + 1]) == samples[i]
    ensures Int16Samples(b) == Ok(samples)
  {
    assert |b| % 2 == 0 && |b| / 2 == |samples|;
    var r := Int16Samples(b);
    assert r.Ok? && |r.value| == |samples|;
    forall i | 0 <= i < |samples| ensures r.value[i] == samples[i] {
      assert r.value[i] == Int16At(b[2 * i], b[2 * i + 1]);
    }
    assert r.value == samples;
  }

  lemma DecodeEncodeAt(samples: seq<int>, i: nat)
    requires forall k :: 0 <= k < |samples| ==> -32768 <= samples[k] < 32768
    requires i < |samples|
    ensures Int16At(EncodeInt16(samples)[2 * i], EncodeInt16(samples)[2 * i + 1]) == samples[i]
  {
    EncodeInt16At(samples, i);
    Int16RoundTrip(samples[i]);
  }

  /** `astype(np.float32) / 32768.0`, elementwise; every int16 value is exact in float32. */
  function Normalise(samples: seq<int>): (r: seq<real>)
    ensures |r| == |samples|
    ensures forall i :: 0 <= i < |r| ==> r[i] * 32768.0 == samples[i] as real
  {
    seq(|samples|, i requires 0 <= i < |samples| => samples[i] as real / 32768.0)
  }

  /** A payload decoded to floats: the elementwise map of vbantest.py:70 and vban_processor.py:269-272. */
  function DecodeFloat(payload: seq<Byte>): (r: Result<seq<real>, PcmError>)
    ensures r.Err? <==> |payload| % 2 == 1
    ensures r.Ok? ==> |r.value| == |payload| / 2
    ensures r.Ok? ==> forall i :: 0 <= i < |r.value| ==> -1.0 <= r.value[i] < 1.0
  {
    match Int16Samples(payload)
    case Err(e) => Err(e)
    case Ok(s) => Ok(Normalise(s))
  }

  /** Negative samples, and only those, come out negative; -32768 is the one sample that reaches -1. */
  lemma DecodeFloatSign(payload: seq<Byte>, i: nat)
    requires |payload| % 2 == 0 && i < |payload| / 2
    ensures var v := Int16At(payload[2 * i], payload[2 * i + 1]);
      && (DecodeFloat(payload).value[i] < 0.0 <==> v < 0)
      && (DecodeFloat(payload).value[i] == -1.0 <==> v == -32768)
  {
  }
}
