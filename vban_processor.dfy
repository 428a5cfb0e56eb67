/**
 * vban_processor.py: `VBANAudioProcessor`, which windows incoming VBAN audio for
 * the classifier, scores each result and notifies a clap through the debounce
 * gate. The classifier is a function parameter, the clock a real parameter,
 * and the socket and webhook notifications are recorded in a log.
 */
module VbanProcessor {
  import opened Scoring
  import Windowing

  /** One `notify_clap` call: the score and time, and which of the two channels it used. */
  datatype Notification = Notification(score: real, timestamp: real, socket: bool, webhook: bool)

  /** When a notification was sent. */
  function NotificationTime(n: Notification): real
  {
    n.timestamp
  }

  class Processor {
    const ip: string
    const port: int
    const streamName: string
    /** `webhook_url`; the empty string stands for a missing or empty URL, both falsy. */
    const webhookUrl: string
    const scoreThreshold: real
    const delay: real
    /** `buffer_size`: `int(0.975 * 16000)` samples. */
    const bufferSize: nat
    var isRunning: bool
    var lastClapTime: real
    /** whether `self.detector` holds an instance */
    var hasDetector: bool
    /** whether `self._socketio` holds an instance */
    var socketio: bool
    var notifications: seq<Notification>

    /** For a non-negative cooldown, the notified claps are well spaced and none is later than `last_clap_time`. */
    ghost predicate Valid()
      reads this
    {
      delay >= 0.0 ==> ClapLog(Stamps(notifications, NotificationTime), lastClapTime, delay)
    }

    constructor (ip: string, port: int, streamName: string, webhookUrl: string, scoreThreshold: real, delay: real)
      ensures Valid()
      ensures this.ip == ip && this.port == port && this.streamName == streamName && this.webhookUrl == webhookUrl
      ensures this.scoreThreshold == scoreThreshold && this.delay == delay && bufferSize == Windowing.WindowSamples
      ensures !isRunning && lastClapTime == 0.0 && !hasDetector && !socketio && notifications == []
    {
      this.ip := ip;
      this.port := port;
      this.streamName := streamName;
      this.webhookUrl := webhookUrl;
      this.scoreThreshold := scoreThreshold;
      this.delay := delay;
      bufferSize := Windowing.WindowSamples;
      isRunning := false;
      lastClapTime := 0.0;
      hasDetector := false;
      socketio := false;
      notifications := [];
    }

    /** `set_socketio` */
    method SetSocketio(s: bool)
      requires Valid()
      modifies this
      ensures Valid() && socketio == s
      ensures isRunning == old(isRunning) && lastClapTime == old(lastClapTime) && notifications == old(notifications)
      ensures hasDetector == old(hasDetector)
    {
      socketio := s;
    }

    /**
     * `start`: refused while running. Otherwise the detector is fetched (`detector`
     * says whether one came back) and the callback registered (`registered` says
     * whether that call succeeded); the flag goes up only when both did.
     */
    method Start(detector: bool, registered: bool) returns (ok: bool)
      requires Valid()
      modifies this
      ensures Valid()
      ensures old(isRunning) ==> !ok && unchanged(this)
      ensures !old(isRunning) ==> ok == (detector && registered) && isRunning == ok && hasDetector == detector
      ensures lastClapTime == old(lastClapTime) && notifications == old(notifications) && socketio == old(socketio)
    {
      if isRunning {
        return false;
      }
      hasDetector := detector;
      if !detector {
        return false;
      }
      if !registered {
        return false;
      }
      isRunning := true;
      ok := true;
    }

    /**
     * `stop`: refused when not running. With a detector, unregistering the
     * callback must succeed (`unregistered`), or the call fails and the flag stays
     * up; otherwise the flag goes down.
     */
    method Stop(unregistered: bool) returns (ok: bool)
      requires Valid()
      modifies this
      ensures Valid()
      ensures !old(isRunning) ==> !ok && unchanged(this)
      ensures old(isRunning) ==> ok == (!hasDetector || unregistered) && isRunning == !ok
      ensures hasDetector == old(hasDetector)
      ensures lastClapTime == old(lastClapTime) && notifications == old(notifications) && socketio == old(socketio)
    {
      if !isRunning {
        return false;
      }
      if hasDetector && !unregistered {
        return false;
      }
      isRunning := false;
      ok := true;
    }

    /**
     * `detect_claps` (and `_classification_callback`, the same code): the first
     * classification's composite score goes through the debounce gate with the
     * clock `clapTime`; a firing notifies and moves `last_clap_time`. A result
     * without classifications raises, which is logged and ignored.
     */
    method DetectClaps(result: ClassifierResult, clapTime: real)
      requires Valid()
      modifies this
      ensures Valid()
      ensures result.classifications == [] ==> unchanged(this)
      ensures result.classifications != [] ==>
        var score := CompositeScore(result.classifications[0]);
        && lastClapTime == NextLastEvent(score, scoreThreshold, clapTime, old(lastClapTime), delay)
        && notifications == old(notifications) +
             (if Fires(score, scoreThreshold, clapTime, old(lastClapTime), delay)
              then [Notification(score, clapTime, socketio, webhookUrl != "")] else [])
      ensures isRunning == old(isRunning) && socketio == old(socketio) && hasDetector == old(hasDetector)
    {
      if result.classifications == [] {
        return;
      }
      var score := CompositeScore(result.classifications[0]);
      if delay >= 0.0 {
        ClapLogStep(Stamps(notifications, NotificationTime), score, scoreThreshold, clapTime, lastClapTime, delay, true);
        assert Stamps(notifications + [Notification(score, clapTime, socketio, webhookUrl != "")], NotificationTime)
            == Stamps(notifications, NotificationTime) + [clapTime];
      }
      if score > scoreThreshold && clapTime - lastClapTime > delay {
        notifications := notifications + [Notification(score, clapTime, socketio, webhookUrl != "")];
        lastClapTime := clapTime;
      }
    }

    /**
     * `audio_callback`: the data is fitted to the classifier's window (returned
     * here) and the classifier's result on that window goes through `DetectClaps`.
     */
    method AudioCallback(data: seq<real>, classify: seq<real> -> ClassifierResult, clapTime: real)
      returns (window: seq<real>)
      requires Valid()
      modifies this
      ensures Valid()
      ensures window == Windowing.FitWindow(data, bufferSize) && |window| == bufferSize
      ensures classify(window).classifications == [] ==> unchanged(this)
      ensures classify(window).classifications != [] ==>
        var score := CompositeScore(classify(window).classifications[0]);
        && lastClapTime == NextLastEvent(score, scoreThreshold, clapTime, old(lastClapTime), delay)
        && notifications == old(notifications) +
             (if Fires(score, scoreThreshold, clapTime, old(lastClapTime), delay)
              then [Notification(score, clapTime, socketio, webhookUrl != "")] else [])
    {
      window := Windowing.FitWindow(data, bufferSize);
      DetectClaps(classify(window), clapTime);
    }
  }
}
