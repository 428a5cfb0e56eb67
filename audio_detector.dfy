/**
 * audio_detector.py: `AudioDetector`, the stream detector with a fixed gate.
 * Results arrive through `_handle_result`; audio goes to the classifier through
 * `process_audio`, decimated when it is longer than the buffer. The classifier
 * itself, the clock and the user callbacks are parameters or logs.
 */
module AudioDetector {
  import opened Outcome
  import opened Scoring
  import Windowing

  /** The gate `_handle_result` applies: the score must beat 0.5 and more than 1.0 s must have passed. */
  const GateThreshold: real := 0.5
  const GateDelay: real := 1.0

  /** Python's `int(x)` on a real: truncation toward zero. */
  function Truncate(x: real): (n: int)
    ensures x >= 0.0 ==> n as real <= x < n as real + 1.0
    ensures x < 0.0 ==> n as real - 1.0 < x <= n as real
  {
    if x >= 0.0 then x.Floor else -((-x).Floor)
  }

  /**
   * `int(buffer_duration * sample_rate)`, or `None` when it is negative and the
   * `deque(maxlen=...)` built from it raises.
   */
  function BufferSizeFor(duration: real, rate: nat): (r: Option<nat>)
    ensures r.Some? <==> duration * rate as real > -1.0
    ensures r.Some? && duration >= 0.0 ==> r.value as real <= duration * rate as real < r.value as real + 1.0
    ensures r.Some? && duration < 0.0 ==> r.value == 0
  {
    var n := Truncate(duration * rate as real);
    if n < 0 then None else Some(n)
  }

  /** The defaults, one second at 16 kHz, size the buffer to 16000 samples. */
  lemma DefaultBufferSize()
    ensures BufferSizeFor(1.0, 16000) == Some(16000)
  {
  }

  /**
   * What `process_audio` hands the classifier: every third sample of an input
   * longer than the buffer (48 kHz VBAN audio brought to 16 kHz), the input
   * itself otherwise.
   */
  function Prepared(data: seq<real>, bufferSize: nat): (r: seq<real>)
    ensures |data| > bufferSize ==> |r| == (|data| + 2) / 3 && forall i :: 0 <= i < |r| ==> r[i] == data[3 * i]
    ensures |data| <= bufferSize ==> r == data
  {
    if |data| > bufferSize then Windowing.Decimate3(data) else data
  }

  /** Decimating one second of 48 kHz audio for a one-second 16 kHz buffer gives exactly the buffer's length. */
  lemma PreparedFromVban(data: seq<real>)
    requires |data| == 48000
    ensures |Prepared(data, 16000)| == 16000
  {
  }

  /** A call of the detection callback: the time and the score. */
  datatype Detection = Detection(timestamp: real, score: real)

  /** When a detection was reported. */
  function DetectionTime(d: Detection): real
  {
    d.timestamp
  }

  class Detector {
    const modelPath: string
    const sampleRate: nat
    const bufferSize: nat
    /** the `deque(maxlen=buffer_size)`; nothing in this class appends to it */
    var buffer: seq<real>
    var classifierLoaded: bool
    var running: bool
    var lastDetectionTime: real
    var hasDetectionCallback: bool
    var hasLabelsCallback: bool
    /** what the labels callback received, call by call */
    var labelsSent: seq<seq<Category>>
    /** what the detection callback received, call by call */
    var detections: seq<Detection>
    /** what was handed to the classifier, call by call */
    var classified: seq<seq<real>>

    /** The buffer respects its bound, and the detections are more than a second apart and none later than the last detection time. */
    ghost predicate Valid()
      reads this
    {
      |buffer| <= bufferSize && ClapLog(Stamps(detections, DetectionTime), lastDetectionTime, GateDelay)
    }

    constructor (modelPath: string, sampleRate: nat, bufferDuration: real)
      requires BufferSizeFor(bufferDuration, sampleRate).Some?
      ensures Valid()
      ensures this.modelPath == modelPath && this.sampleRate == sampleRate
      ensures bufferSize == BufferSizeFor(bufferDuration, sampleRate).value
      ensures buffer == [] && !classifierLoaded && !running && lastDetectionTime == 0.0
      ensures !hasDetectionCallback && !hasLabelsCallback && labelsSent == [] && detections == [] && classified == []
    {
      this.modelPath := modelPath;
      this.sampleRate := sampleRate;
      bufferSize := BufferSizeFor(bufferDuration, sampleRate).value;
      buffer := [];
      classifierLoaded := false;
      running := false;
      lastDetectionTime := 0.0;
      hasDetectionCallback := false;
      hasLabelsCallback := false;
      labelsSent := [];
      detections := [];
      classified := [];
    }

    /** `set_detection_callback` / `set_labels_callback` */
    method SetCallbacks(detection: bool, labels: bool)
      requires Valid()
      modifies this
      ensures Valid() && hasDetectionCallback == detection && hasLabelsCallback == labels
      ensures buffer == old(buffer) && classifierLoaded == old(classifierLoaded) && running == old(running)
      ensures lastDetectionTime == old(lastDetectionTime)
      ensures labelsSent == old(labelsSent) && detections == old(detections) && classified == old(classified)
    {
      hasDetectionCallback := detection;
      hasLabelsCallback := labels;
    }

    /**
     * `_handle_result` at clock `now`: a missing result or one without
     * classifications has no effect. Otherwise the three best labels go to the
     * labels callback, if any; then, when the fixed gate fires, the detection
     * callback, if any, gets the time and score, and the last detection time
     * moves to `now` whether or not a callback is set.
     */
    method HandleResult(result: Option<ClassifierResult>, now: real)
      requires Valid()
      modifies this
      ensures Valid()
      ensures result.None? || result.value.classifications == [] ==> unchanged(this)
      ensures result.Some? && result.value.classifications != [] ==>
        var cats := result.value.classifications[0];
        var score := CompositeScore(cats);
        var fired := Fires(score, GateThreshold, now, old(lastDetectionTime), GateDelay);
        && labelsSent == old(labelsSent) + (if hasLabelsCallback then [Top3(cats)] else [])
        && lastDetectionTime == NextLastEvent(score, GateThreshold, now, old(lastDetectionTime), GateDelay)
        && detections == old(detections) + (if fired && hasDetectionCallback then [Detection(now, score)] else [])
      ensures buffer == old(buffer) && classifierLoaded == old(classifierLoaded) && running == old(running)
      ensures classified == old(classified)
    {
      if result.None? || result.value.classifications == [] {
        return;
      }
      var cats := result.value.classifications[0];
      var score := CompositeScore(cats);
      if hasLabelsCallback {
        labelsSent := labelsSent + [Top3(cats)];
      }
      if score > GateThreshold && now - lastDetectionTime > GateDelay {
        ClapLogStep(Stamps(detections, DetectionTime), score, GateThreshold, now, lastDetectionTime, GateDelay, hasDetectionCallback);
        if hasDetectionCallback {
          assert Stamps(detections + [Detection(now, score)], DetectionTime) == Stamps(detections, DetectionTime) + [now];
          detections := detections + [Detection(now, score)];
        }
        lastDetectionTime := now;
      }
    }

    /**
     * `process_audio`: with a classifier loaded, the prepared audio is handed to
     * it. Empty input never reaches it: the debug line's `np.min` raises first.
     */
    method ProcessAudio(data: seq<real>)
      requires Valid()
      modifies this
      ensures Valid()
      ensures classified == old(classified) + (if classifierLoaded && data != [] then [Prepared(data, bufferSize)] else [])
      ensures buffer == old(buffer) && classifierLoaded == old(classifierLoaded) && running == old(running)
      ensures lastDetectionTime == old(lastDetectionTime) && labelsSent == old(labelsSent) && detections == old(detections)
    {
      var audio := data;
      if |audio| > bufferSize {
        audio := Windowing.Decimate3(audio);
      }
      if audio == [] {
        return;
      }
      if classifierLoaded {
        classified := classified + [audio];
      }
    }

    /** `start`: loads the classifier when none is loaded (`loads` says whether that succeeds; a failure propagates) and sets the flag. */
    method Start(loads: bool) returns (raised: bool)
      requires Valid()
      modifies this
      ensures Valid()
      ensures raised <==> !old(classifierLoaded) && !loads
      ensures raised ==> unchanged(this)
      ensures !raised ==> running && classifierLoaded
      ensures buffer == old(buffer) && lastDetectionTime == old(lastDetectionTime)
      ensures labelsSent == old(labelsSent) && detections == old(detections) && classified == old(classified)
    {
      if !classifierLoaded {
        if !loads {
          return true;
        }
        classifierLoaded := true;
      }
      running := true;
      raised := false;
    }

    /** `stop`: not running, no classifier, and an empty buffer. */
    method Stop()
      requires Valid()
      modifies this
      ensures Valid()
      ensures !running && !classifierLoaded && buffer == []
      ensures lastDetectionTime == old(lastDetectionTime)
      ensures labelsSent == old(labelsSent) && detections == old(detections) && classified == old(classified)
    {
      running := false;
      classifierLoaded := false;
      buffer := [];
    }
  }
}
