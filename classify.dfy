/**
 * classify.py: the detection service. The module globals `detection_running`,
 * `current_audio_source` and `_socketio` are the state of `Detection`; the
 * locals of `run_detection` that its loop and its VBAN callback update
 * (`last_inference_time`, `last_clap_time`, `classification_result_list`)
 * are the state of `InferenceLoop`. Clock readings, the classifier's results
 * and the reloaded settings file are parameters; socket emits and webhook
 * posts are recorded in an emitted-event log.
 */
module Classify {
  import opened Outcome
  import opened Json
  import opened Scoring
  import Windowing
  import Text

  /** `int(duration * sample_rate * num_channels)` for 0.1 s of 16 kHz mono. */
  const BufferSize: nat := 1600
  const SampleRate: nat := 16000

  /**
   * `interval_between_inference`: the input length in seconds times
   * `1 - overlapping_factor`. For an accepted overlap it lies strictly between
   * zero and the input length, and a larger overlap infers more often.
   */
  function InferenceInterval(overlap: real): (r: real)
    ensures 0.0 < overlap < 1.0 ==> 0.0 < r < BufferSize as real / SampleRate as real
  {
    (BufferSize as real / SampleRate as real) * (1.0 - overlap)
  }

  lemma InferenceIntervalMonotone(o1: real, o2: real)
    requires o1 < o2
    ensures InferenceInterval(o2) < InferenceInterval(o1)
    ensures InferenceInterval(o1) - InferenceInterval(o2) == (o2 - o1) / 10.0
  {
  }

  /**
   * The audio source `start_detection` settles on: the one in a freshly read
   * settings file when its microphone section is enabled, the argument
   * otherwise. `None` is the exception of calling `.get` on a file whose content
   * is truthy but not an object.
   */
  function ReloadedSource(reloaded: Option<Json>, audioSource: Json): (r: Option<Json>)
    ensures r.None? <==> reloaded.Some? && PyTruthy(reloaded.value) && !reloaded.value.JObj?
    ensures r.Some? && r.value != audioSource ==>
      reloaded.Some? && reloaded.value.JObj? && "microphone" in reloaded.value.fields
      && reloaded.value.fields["microphone"].JObj?
      && PyTruthy(Get(reloaded.value.fields["microphone"].fields, "enabled"))
      && r.value == Get(reloaded.value.fields["microphone"].fields, "audio_source")
  {
    if reloaded.None? || !PyTruthy(reloaded.value) then Some(audioSource)
    else if !reloaded.value.JObj? then None
    else
      var mic := if "microphone" in reloaded.value.fields then reloaded.value.fields["microphone"] else JObj(map[]);
      if mic.JObj? && PyTruthy(Get(mic.fields, "enabled")) then Some(Get(mic.fields, "audio_source"))
      else Some(audioSource)
  }

  /** The arguments `start_detection` accepts: an overlap in (0, 1) and a threshold in [0, 1]. */
  predicate AcceptedArguments(scoreThreshold: real, overlap: real)
  {
    0.0 < overlap < 1.0 && 0.0 <= scoreThreshold <= 1.0
  }

  /** The module-level state of the detection service. */
  class Detection {
    /** `detection_running` */
    var detectionRunning: bool
    /** `current_audio_source` (`None` is `JNull`) */
    var currentAudioSource: Json
    /** whether `_socketio` holds an instance */
    var socketio: bool
    /** the `status` of each `detection_status` event emitted, in order */
    var statusEmits: seq<string>

    constructor ()
      ensures !detectionRunning && currentAudioSource == JNull && !socketio && statusEmits == []
    {
      detectionRunning := false;
      currentAudioSource := JNull;
      socketio := false;
      statusEmits := [];
    }

    /**
     * `start_detection`: refused while running; otherwise the flag goes up, the
     * source and socket are stored, and a bad overlap or threshold brings the
     * flag down again and refuses. The detection thread it starts is not part of
     * this model.
     */
    method StartDetection(scoreThreshold: real, overlap: real, socket: bool, audioSource: Json, reloaded: Option<Json>)
      returns (started: bool)
      modifies this
      ensures old(detectionRunning) ==> !started && unchanged(this)
      ensures !old(detectionRunning) && ReloadedSource(reloaded, audioSource).None? ==> !started && unchanged(this)
      ensures !old(detectionRunning) && ReloadedSource(reloaded, audioSource).Some? ==>
        && started == AcceptedArguments(scoreThreshold, overlap)
        && detectionRunning == started
        && currentAudioSource == ReloadedSource(reloaded, audioSource).value
        && socketio == socket
        && statusEmits == old(statusEmits)
    {
      if detectionRunning {
        return false;
      }
      var source := audioSource;
      if reloaded.Some? && PyTruthy(reloaded.value) {
        if !reloaded.value.JObj? {
          // `.get` on a list, string or number: the exception handler clears the (already clear) flag
          detectionRunning := false;
          return false;
        }
        var mic := if "microphone" in reloaded.value.fields then reloaded.value.fields["microphone"] else JObj(map[]);
        if mic.JObj? && PyTruthy(Get(mic.fields, "enabled")) {
          source := Get(mic.fields, "audio_source");
        }
      }
      assert Some(source) == ReloadedSource(reloaded, audioSource);
      detectionRunning := true;
      currentAudioSource := source;
      socketio := socket;
      if overlap <= 0.0 || overlap >= 1.0 {
        detectionRunning := false;
        return false;
      }
      if scoreThreshold < 0.0 || scoreThreshold > 1.0 {
        detectionRunning := false;
        return false;
      }
      started := true;
    }

    /**
     * `stop_detection`: the flag always goes down. When a VBAN detector instance
     * exists, its missing `cleanup` method raises before anything is emitted,
     * and the call reports failure with the source still set; otherwise a
     * `detection_status` "stopped" event goes out when a socket is stored, the
     * source is reset and it succeeds. `get_vban_detector` creates the detector
     * when there is none (vban_manager.py:19-23), so `detectorExists` is false
     * only when constructing it failed: in practice every call fails.
     */
    method StopDetection(detectorExists: bool) returns (ok: bool)
      modifies this
      ensures !detectionRunning && socketio == old(socketio)
      ensures ok <==> !detectorExists
      ensures currentAudioSource == if ok then JNull else old(currentAudioSource)
      ensures statusEmits == old(statusEmits) + if ok && socketio then ["stopped"] else []
    {
      detectionRunning := false;
      if detectorExists {
        return false;
      }
      if socketio {
        statusEmits := statusEmits + ["stopped"];
      }
      currentAudioSource := JNull;
      ok := true;
    }
  }

  /** What the detection loop emits: the labels, the clap event, the webhook post. */
  datatype Emitted =
    | Labels(detected: seq<Category>)
    | Clap(sourceId: string, timestamp: real, score: real)
    | Webhook(url: string)

  /** The `source_id` of a clap event: `rtsp-<url>` for an RTSP source, `microphone` otherwise. */
  function SourceId(audioSource: string, rtspUrl: string): string
  {
    if Text.StartsWith(audioSource, "rtsp") then "rtsp-" + rtspUrl else "microphone"
  }

  /** The result of handling the pending results once. */
  datatype Handled = Handled(emitted: seq<Emitted>, lastClapTime: real, results: seq<ClassifierResult>)

  /** The labels event: the three best labels, sent only when a socket is set. */
  function LabelsOut(socketio: bool, cats: seq<Category>): seq<Emitted>
  {
    if socketio then [Labels(Top3(cats))] else []
  }

  /** The clap notification block: the clap event when a socket is set, then the webhook post when a URL is configured. */
  function Notify(socketio: bool, webhookUrl: string, sourceId: string, clapTime: real, score: real): seq<Emitted>
  {
    (if socketio then [Clap(sourceId, clapTime, score)] else []) + (if webhookUrl != "" then [Webhook(webhookUrl)] else [])
  }

  /**
   * One pass of the loop over `classification_result_list`: score the first
   * classification of the first result, emit its three best labels, fire through
   * the debounce gate, and clear the list. A first result without
   * classifications raises before the list is cleared.
   */
  function Handle(results: seq<ClassifierResult>, socketio: bool, webhookUrl: string, sourceId: string,
                  threshold: real, delay: real, lastClapTime: real, clapTime: real): Handled
  {
    if results == [] || results[0].classifications == [] then Handled([], lastClapTime, results)
    else
      var cats := results[0].classifications[0];
      var score := CompositeScore(cats);
      if Fires(score, threshold, clapTime, lastClapTime, delay) then
        Handled(LabelsOut(socketio, cats) + Notify(socketio, webhookUrl, sourceId, clapTime, score), clapTime, [])
      else Handled(LabelsOut(socketio, cats), lastClapTime, [])
  }

  /** A result is consumed exactly when it has a classification; only the first pending result is ever scored. */
  lemma HandleConsumes(results: seq<ClassifierResult>, socketio: bool, webhookUrl: string, sourceId: string,
                       threshold: real, delay: real, lastClapTime: real, clapTime: real)
    ensures var h := Handle(results, socketio, webhookUrl, sourceId, threshold, delay, lastClapTime, clapTime);
      && (h.results == [] <==> results == [] || results[0].classifications != [])
      && (h.results != [] ==> h.results == results && h.emitted == [] && h.lastClapTime == lastClapTime)
      && (forall r :: 0 < r < |results| ==>
            Handle(results[..r] + [results[r].(classifications := [])] + results[r + 1..],
                   socketio, webhookUrl, sourceId, threshold, delay, lastClapTime, clapTime).emitted == h.emitted)
  {
  }

  /**
   * The clap and the new `last_clap_time` follow the debounce gate on the first
   * classification's composite score: a clap event, timed at `clapTime`, goes out
   * exactly when the gate fires and a socket is set, the webhook exactly when it
   * fires and a URL is set.
   */
  lemma HandleGate(results: seq<ClassifierResult>, socketio: bool, webhookUrl: string, sourceId: string,
                   threshold: real, delay: real, lastClapTime: real, clapTime: real)
    requires results != [] && results[0].classifications != []
    ensures var cats := results[0].classifications[0];
      var h := Handle(results, socketio, webhookUrl, sourceId, threshold, delay, lastClapTime, clapTime);
      var fired := Fires(CompositeScore(cats), threshold, clapTime, lastClapTime, delay);
      && h.lastClapTime == NextLastEvent(CompositeScore(cats), threshold, clapTime, lastClapTime, delay)
      && ClapTimes(h.emitted) == (if socketio && fired then [clapTime] else [])
      && (Clap(sourceId, clapTime, CompositeScore(cats)) in h.emitted <==> socketio && fired)
      && (Webhook(webhookUrl) in h.emitted <==> webhookUrl != "" && fired)
  {
    var cats := results[0].classifications[0];
    var score := CompositeScore(cats);
    var labels := LabelsOut(socketio, cats);
    var notes := Notify(socketio, webhookUrl, sourceId, clapTime, score);
    ClapTimesAppend(labels, notes);
    ClapTimesOut(socketio, webhookUrl, sourceId, clapTime, score, cats);
  }

  /** The labels are emitted on every scored result when a socket is set, fired or not: at most three, best first. */
  lemma HandleLabels(results: seq<ClassifierResult>, socketio: bool, webhookUrl: string, sourceId: string,
                     threshold: real, delay: real, lastClapTime: real, clapTime: real)
    requires results != [] && results[0].classifications != []
    ensures var cats := results[0].classifications[0];
      var h := Handle(results, socketio, webhookUrl, sourceId, threshold, delay, lastClapTime, clapTime);
      && (socketio <==> |h.emitted| > 0 && h.emitted[0] == Labels(Top3(cats)))
      && (forall e :: e in h.emitted && e.Labels? ==> |e.detected| <= 3 && NonIncreasing(e.detected))
  {
  }

  /** The timestamps of the clap events in a log, oldest first. */
  function ClapTimes(es: seq<Emitted>): (ts: seq<real>)
    ensures |ts| <= |es|
  {
    if es == [] then []
    else ClapTimes(es[..|es| - 1]) + (if es[|es| - 1].Clap? then [es[|es| - 1].timestamp] else [])
  }

  lemma {:induction false} ClapTimesAppend(a: seq<Emitted>, b: seq<Emitted>)
    ensures ClapTimes(a + b) == ClapTimes(a) + ClapTimes(b)
    decreases |b|
  {
    if b == [] {
      assert a + b == a;
    } else {
      var b' := b[..|b| - 1];
      assert (a + b)[..|a + b| - 1] == a + b';
      ClapTimesAppend(a, b');
    }
  }

  /** The labels carry no clap; a notification carries its one clap exactly when a socket is set. */
  lemma ClapTimesOut(socketio: bool, webhookUrl: string, sourceId: string, clapTime: real, score: real, cats: seq<Category>)
    ensures ClapTimes(LabelsOut(socketio, cats)) == []
    ensures ClapTimes(Notify(socketio, webhookUrl, sourceId, clapTime, score)) == if socketio then [clapTime] else []
  {
    var c: seq<Emitted> := if socketio then [Clap(sourceId, clapTime, score)] else [];
    var w: seq<Emitted> := if webhookUrl != "" then [Webhook(webhookUrl)] else [];
    ClapTimesAppend(c, w);
    if socketio {
      assert c[..0] == [];
    }
    if webhookUrl != "" {
      assert w[..0] == [];
    }
    if socketio {
      assert LabelsOut(socketio, cats)[..0] == [];
    }
  }

  /** Handling results keeps the clap log well spaced, for any non-negative cooldown. */
  lemma HandleKeepsLog(log: seq<Emitted>, results: seq<ClassifierResult>, socketio: bool, webhookUrl: string,
                       sourceId: string, threshold: real, delay: real, lastClapTime: real, clapTime: real)
    requires delay >= 0.0 && ClapLog(ClapTimes(log), lastClapTime, delay)
    ensures var h := Handle(results, socketio, webhookUrl, sourceId, threshold, delay, lastClapTime, clapTime);
      ClapLog(ClapTimes(log + h.emitted), h.lastClapTime, delay)
  {
    var h := Handle(results, socketio, webhookUrl, sourceId, threshold, delay, lastClapTime, clapTime);
    ClapTimesAppend(log, h.emitted);
    if results == [] || results[0].classifications == [] {
      assert h.emitted == [] && h.lastClapTime == lastClapTime;
      assert log + h.emitted == log;
    } else {
      var score := CompositeScore(results[0].classifications[0]);
      HandleGate(results, socketio, webhookUrl, sourceId, threshold, delay, lastClapTime, clapTime);
      ClapLogStep(ClapTimes(log), score, threshold, clapTime, lastClapTime, delay, socketio);
      assert ClapTimes(h.emitted) == if socketio && Fires(score, threshold, clapTime, lastClapTime, delay) then [clapTime] else [];
    }
  }

  /**
   * The VBAN callback's handling of the pending results, as written: the labels
   * go out, but reading `last_clap_time` raises once the score beats the
   * threshold (it is local to the callback), so no clap fires and the list is
   * not cleared.
   */
  function HandleVbanAsWritten(results: seq<ClassifierResult>, socketio: bool, threshold: real, lastClapTime: real): Handled
  {
    if results == [] || results[0].classifications == [] then Handled([], lastClapTime, results)
    else
      var cats := results[0].classifications[0];
      if CompositeScore(cats) > threshold then Handled(LabelsOut(socketio, cats), lastClapTime, results)
      else Handled(LabelsOut(socketio, cats), lastClapTime, [])
  }

  /**
   * As written, a VBAN clap never fires, and a result that beats the threshold
   * stays first in the list, so every later callback scores that same result.
   */
  lemma VbanNeverClaps(results: seq<ClassifierResult>, socketio: bool, threshold: real, lastClapTime: real, more: seq<ClassifierResult>)
    ensures var h := HandleVbanAsWritten(results, socketio, threshold, lastClapTime);
      && ClapTimes(h.emitted) == [] && h.lastClapTime == lastClapTime
      && (results != [] && results[0].classifications != [] && CompositeScore(results[0].classifications[0]) > threshold ==>
            h.results == results
            && HandleVbanAsWritten(h.results + more, socketio, threshold, lastClapTime).results == results + more)
  {
    if results != [] && results[0].classifications != [] {
      ClapTimesOut(socketio, "", "", 0.0, 0.0, results[0].classifications[0]);
    }
  }

  /** The input that shows it: a 0.9 Clapping score against a 0.5 threshold, long after the last clap. */
  lemma VbanClapLost()
    ensures var rs := [ClassifierResult([[Category("Clapping", 0.9)]])];
      && Clap("vban-10.0.0.2", 10.0, 0.9) in Handle(rs, true, "", "vban-10.0.0.2", 0.5, 1.0, 0.0, 10.0).emitted
      && ClapTimes(HandleVbanAsWritten(rs, true, 0.5, 0.0).emitted) == []
  {
    var rs := [ClassifierResult([[Category("Clapping", 0.9)]])];
    var cats := [Category("Clapping", 0.9)];
    assert CompositeScore(cats) == 0.9 by {
      assert cats[1..] == [];
    }
    VbanNeverClaps(rs, true, 0.5, 0.0, []);
  }

  /**
   * The VBAN gate and window: data from an IP missing from the active sources is
   * ignored; otherwise the classifier gets exactly `int(0.975 * 16000)` samples,
   * the prefix of a longer input or the input padded with zeros.
   */
  function VbanWindow(audio: seq<real>, activeIps: set<string>, vbanIp: string): (w: Option<seq<real>>)
    ensures w.None? <==> vbanIp !in activeIps
    ensures w.Some? ==> |w.value| == Windowing.WindowSamples
    ensures w.Some? && |audio| >= Windowing.WindowSamples ==> w.value == audio[..Windowing.WindowSamples]
    ensures w.Some? && |audio| < Windowing.WindowSamples ==>
      w.value[..|audio|] == audio && forall i :: |audio| <= i < |w.value| ==> w.value[i] == 0.0
  {
    if vbanIp !in activeIps then None else Some(Windowing.FitWindow(audio, Windowing.WindowSamples))
  }

  /** `run_detection`'s loop state. */
  class InferenceLoop {
    const threshold: real
    const delay: real
    /** `interval_between_inference` */
    const interval: real
    const sourceId: string
    const webhookUrl: string
    /** whether `_socketio` holds an instance */
    const socketio: bool
    var lastInferenceTime: real
    var lastClapTime: real
    /** `classification_result_list` */
    var results: seq<ClassifierResult>
    var emitted: seq<Emitted>

    /** For a non-negative cooldown, the claps emitted so far are well spaced and none is later than `last_clap_time`. */
    ghost predicate Valid()
      reads this
    {
      delay >= 0.0 ==> ClapLog(ClapTimes(emitted), lastClapTime, delay)
    }

    constructor (threshold: real, delay: real, overlap: real, sourceId: string, webhookUrl: string, socketio: bool, now: real)
      ensures Valid()
      ensures this.threshold == threshold && this.delay == delay && interval == InferenceInterval(overlap)
      ensures this.sourceId == sourceId && this.webhookUrl == webhookUrl && this.socketio == socketio
      ensures lastInferenceTime == now && lastClapTime == 0.0 && results == [] && emitted == []
    {
      this.threshold := threshold;
      this.delay := delay;
      interval := InferenceInterval(overlap);
      this.sourceId := sourceId;
      this.webhookUrl := webhookUrl;
      this.socketio := socketio;
      lastInferenceTime := now;
      lastClapTime := 0.0;
      results := [];
      emitted := [];
    }

    /** `save_result`: the classifier's callback appends its result. */
    method SaveResult(r: ClassifierResult)
      requires Valid()
      modifies this
      ensures Valid()
      ensures results == old(results) + [r]
      ensures lastInferenceTime == old(lastInferenceTime) && lastClapTime == old(lastClapTime) && emitted == old(emitted)
    {
      results := results + [r];
    }

    /**
     * One turn of the `while detection_running` loop at time `now`; `clapTime` is
     * the clock read again when the score beats the threshold. Too early a turn
     * only sleeps; otherwise the inference time moves to `now` and the pending
     * results are handled.
     */
    method Tick(now: real, clapTime: real) returns (inferred: bool)
      requires Valid()
      modifies this
      ensures Valid()
      ensures inferred <==> now - old(lastInferenceTime) >= interval
      ensures !inferred ==> unchanged(this)
      ensures inferred ==>
        var h := Handle(old(results), socketio, webhookUrl, sourceId, threshold, delay, old(lastClapTime), clapTime);
        && lastInferenceTime == now
        && emitted == old(emitted) + h.emitted && lastClapTime == h.lastClapTime && results == h.results
    {
      if now - lastInferenceTime < interval {
        return false;
      }
      inferred := true;
      lastInferenceTime := now;
      HandlePending(clapTime);
    }

    /** Handles the pending results once, as `Handle` describes; `clapTime` is the clock at the gate. */
    method HandlePending(clapTime: real)
      requires Valid()
      modifies this
      ensures Valid()
      ensures var h := Handle(old(results), socketio, webhookUrl, sourceId, threshold, delay, old(lastClapTime), clapTime);
        && emitted == old(emitted) + h.emitted && lastClapTime == h.lastClapTime && results == h.results
        && lastInferenceTime == old(lastInferenceTime)
    {
      if delay >= 0.0 {
        HandleKeepsLog(emitted, results, socketio, webhookUrl, sourceId, threshold, delay, lastClapTime, clapTime);
      }
      if results == [] || results[0].classifications == [] {
        return;
      }
      var cats := results[0].classifications[0];
      var score := CompositeScore(cats);
      var out := LabelsOut(socketio, cats);
      if score > threshold && clapTime - lastClapTime > delay {
        out := out + Notify(socketio, webhookUrl, sourceId, clapTime, score);
        lastClapTime := clapTime;
      }
      emitted := emitted + out;
      results := [];
    }

    /**
     * The VBAN `audio_callback`, as written: gate on the active sources, hand the
     * classifier its window (returned here), then handle the pending results the
     * way `HandleVbanAsWritten` describes.
     */
    method VbanCallback(audio: seq<real>, activeIps: set<string>, vbanIp: string) returns (window: Option<seq<real>>)
      requires Valid()
      modifies this
      ensures Valid()
      ensures window == VbanWindow(audio, activeIps, vbanIp)
      ensures window.None? ==> unchanged(this)
      ensures window.Some? ==>
        var h := HandleVbanAsWritten(old(results), socketio, threshold, old(lastClapTime));
        && emitted == old(emitted) + h.emitted && lastClapTime == old(lastClapTime) && results == h.results
        && lastInferenceTime == old(lastInferenceTime)
    {
      window := VbanWindow(audio, activeIps, vbanIp);
      if window.None? {
        return;
      }
      HandlePendingAsWritten();
    }

    /** The VBAN callback's pass over the pending results, as `HandleVbanAsWritten` describes. */
    method HandlePendingAsWritten()
      requires Valid()
      modifies this
      ensures Valid()
      ensures var h := HandleVbanAsWritten(old(results), socketio, threshold, old(lastClapTime));
        && emitted == old(emitted) + h.emitted && lastClapTime == old(lastClapTime) && results == h.results
        && lastInferenceTime == old(lastInferenceTime)
    {
      VbanNeverClaps(results, socketio, threshold, lastClapTime, []);
      ClapTimesAppend(emitted, HandleVbanAsWritten(results, socketio, threshold, lastClapTime).emitted);
      if results == [] || results[0].classifications == [] {
        return;
      }
      var cats := results[0].classifications[0];
      emitted := emitted + LabelsOut(socketio, cats);
      if CompositeScore(cats) > threshold {
        // reading the callback's own, still unassigned, `last_clap_time` raises here
        return;
      }
      results := [];
    }

    /**
     * The VBAN callback as evidently intended: the same gate and window, then the
     * pending results handled exactly as the main loop handles them.
     */
    method VbanCallbackIntended(audio: seq<real>, activeIps: set<string>, vbanIp: string, clapTime: real)
      returns (window: Option<seq<real>>)
      requires Valid()
      modifies this
      ensures Valid()
      ensures window == VbanWindow(audio, activeIps, vbanIp)
      ensures window.None? ==> unchanged(this)
      ensures window.Some? ==>
        var h := Handle(old(results), socketio, webhookUrl, sourceId, threshold, delay, old(lastClapTime), clapTime);
        && emitted == old(emitted) + h.emitted && lastClapTime == h.lastClapTime && results == h.results
        && lastInferenceTime == old(lastInferenceTime)
    {
      window := VbanWindow(audio, activeIps, vbanIp);
      if window.None? {
        return;
      }
      HandlePending(clapTime);
    }
  }
}
