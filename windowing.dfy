/**
 * Sample-window shaping shared by the detectors: the fixed classifier window,
 * the 48 kHz to 16 kHz decimation, the bounded deque, and the length the
 * resampler is asked for.
 */
module Windowing {

  /** The classifier's sample rate. */
  const TargetRate: nat := 16000

  /** `int(0.975 * 16000)`: the window the classifier is fed, about 975 ms at 16 kHz. */
  const WindowSamples: nat := 15600

  /**
   * The window `preprocess_audio` and the VBAN callback build: the first `size`
   * samples of a longer input, or the input followed by zeros up to `size`.
   */
  function FitWindow(data: seq<real>, size: nat): (w: seq<real>)
    ensures |w| == size
    ensures |data| >= size ==> w == data[..size]
    ensures |data| <= size ==> w[..|data|] == data
    ensures forall i :: |data| <= i < size ==> w[i] == 0.0
  {
    if |data| > size then data[..size]
    else if |data| < size then data + seq(size - |data|, _ => 0.0)
    else data
  }

  /** A window that already has the right size is left alone, so fitting twice is fitting once. */
  lemma FitWindowIdempotent(data: seq<real>, size: nat)
    ensures FitWindow(FitWindow(data, size), size) == FitWindow(data, size)
  {
  }

  /** `data[::3]`: every third sample, starting with the first. */
  function Decimate3(data: seq<real>): (r: seq<real>)
    ensures |r| == (|data| + 2) / 3
    ensures forall i :: 0 <= i < |r| ==> 3 * i < |data| && r[i] == data[3 * i]
  {
    if data == [] then []
    else if |data| <= 3 then [data[0]]
    else [data[0]] + Decimate3(data[3..])
  }

  /**
   * The newest `n` elements of `s` (all of them when there are fewer): what
   * `deque(maxlen=n).extend(xs)` keeps of the old contents followed by `xs`, and
   * what a ring buffer of `n` frames holds after a run of writes.
   */
  function LastN<T>(s: seq<T>, n: nat): (r: seq<T>)
    ensures |r| == if |s| < n then |s| else n
    ensures r == s[|s| - |r|..]
  {
    if |s| <= n then s else s[|s| - n..]
  }

  /** `int(n * 16000 / rate)`, the length the resampler is asked for. */
  function ResampledLength(n: nat, rate: nat): nat
    requires rate > 0
  {
    (n * TargetRate) / rate
  }

  /** The requested length is the largest whose duration at `rate` does not exceed that of `n` samples at 16 kHz. */
  lemma ResampledLengthFloor(n: nat, rate: nat)
    requires rate > 0
    ensures ResampledLength(n, rate) * rate <= n * TargetRate < (ResampledLength(n, rate) + 1) * rate
  {
    var q := n * TargetRate;
    assert q == (q / rate) * rate + q % rate;
  }

  /** From 48 kHz the resampler is asked for a third of the samples, from 16 kHz for all of them. */
  lemma ResampledLengthExamples(n: nat)
    ensures ResampledLength(n, 48000) == n / 3
    ensures ResampledLength(n, TargetRate) == n
  {
    var a := ResampledLength(n, 48000);
    ResampledLengthFloor(n, 48000);
    assert a * 48000 <= n * 16000 < (a + 1) * 48000;
    assert 3 * a <= n < 3 * (a + 1);
    ResampledLengthFloor(n, TargetRate);
  }
}
