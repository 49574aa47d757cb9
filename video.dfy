/**
 * The webcam component (frontend/components/VideoStream.tsx): the rate-limited frame
 * loop `predictWebcam` that hands detected landmarks to the channel, the inbound
 * prediction handler, the camera start-up guards and the status line.
 * The hand detector, the camera and the clock are inputs: each invocation of the loop
 * is described by a `Tick` holding what it observes.
 */
module VideoStream {
  import opened Wrappers
  import opened Wire

  const FrameRate: real := 60.0
  /** Minimum milliseconds between two frames handed to the channel. */
  const FrameInterval: real := 1000.0 / FrameRate

  /** What one invocation of `predictWebcam` observes. */
  datatype Tick = Tick(
    refsReady: bool,   // video element, canvas element and hand landmarker are all present
    now: real,         // `performance.now()` at the rate check
    hasContext: bool,  // the canvas yields a 2-D context
    videoSized: bool,  // the video reports a non-zero width and height
    hands: Outbound,   // the landmarks the detector returns for this frame
    running: bool)     // `webcamRunning` as this invocation reads it

  /** A frame handed to `sendMessage`, with the timestamp of its rate check. */
  datatype SentFrame = SentFrame(time: real, hands: Outbound)

  /** What one invocation does: frames sent, the new `lastProcessedTime`, whether it reschedules. */
  datatype StepResult = StepResult(sent: seq<SentFrame>, last: real, reschedule: bool)

  /** Frames sent by a run of the loop, the final `lastProcessedTime`, and whether the loop ended. */
  datatype Outcome = Outcome(sent: seq<SentFrame>, last: real, stopped: bool)

  /**
   * One invocation of `predictWebcam` with `lastProcessedTime == last`. It sends at most
   * one frame: only past the rate gate and only with at least one hand, and then moves
   * `lastProcessedTime` to the check's timestamp; it ends the loop only when a reference,
   * the landmarker or the 2-D context is missing, or the camera is not running.
   */
  function Step(last: real, t: Tick): (r: StepResult)
    ensures |r.sent| <= 1
    ensures |r.sent| == 1 <==>
      t.refsReady && t.now - last >= FrameInterval && t.hasContext && t.videoSized && |t.hands| > 0
    ensures |r.sent| == 1 ==> r.sent[0] == SentFrame(t.now, t.hands) && r.last == t.now
    ensures |r.sent| == 0 ==> r.last == last
    ensures !r.reschedule <==>
      !t.refsReady || (t.now - last >= FrameInterval && (!t.hasContext || (t.videoSized && !t.running)))
  {
    if !t.refsReady then StepResult([], last, false)
    else if t.now - last < FrameInterval then StepResult([], last, true)
    else if !t.hasContext then StepResult([], last, false)
    else if !t.videoSized then StepResult([], last, true)
    else if |t.hands| > 0 then StepResult([SentFrame(t.now, t.hands)], t.now, t.running)
    else StepResult([], last, t.running)
  }

  /** The loop over successive invocations, until one does not reschedule or the ticks run out. */
  function Run(ticks: seq<Tick>, last: real): (r: Outcome)
    decreases |ticks|
  {
    if |ticks| == 0 then Outcome([], last, false)
    else
      var s := Step(last, ticks[0]);
      if !s.reschedule then Outcome(s.sent, s.last, true)
      else
        var rest := Run(ticks[1..], s.last);
        Outcome(s.sent + rest.sent, rest.last, rest.stopped)
  }

  /**
   * `predictWebcam` driven by `requestAnimationFrame`: the frames it hands to the channel,
   * the final `lastProcessedTime`, and whether the loop ended itself.
   */
  method PredictLoop(ticks: seq<Tick>, last0: real) returns (sent: seq<SentFrame>, last: real, stopped: bool)
    ensures Outcome(sent, last, stopped) == Run(ticks, last0)
  {
    sent, last, stopped := [], last0, false;
    var i := 0;
    while i < |ticks|
      invariant 0 <= i <= |ticks|
      invariant var rest := Run(ticks[i..], last);
                Run(ticks, last0) == Outcome(sent + rest.sent, rest.last, rest.stopped)
    {
      assert ticks[i..][0] == ticks[i];
      assert ticks[i..][1..] == ticks[i + 1..];
      var s := Step(last, ticks[i]);
      sent := sent + s.sent;
      last := s.last;
      if !s.reschedule {
        stopped := true;
        return;
      }
      i := i + 1;
    }
  }

  /**
   * The rate limit: the first frame sent is at least `FrameInterval` after the starting
   * `lastProcessedTime`, and any two consecutive frames sent are at least `FrameInterval`
   * apart, whatever the clock does.
   */
  lemma {:induction false} RunSpacing(ticks: seq<Tick>, last: real)
    ensures var r := Run(ticks, last);
      && (|r.sent| > 0 ==> r.sent[0].time - last >= FrameInterval)
      && (forall k :: 0 <= k < |r.sent| - 1 ==> r.sent[k + 1].time - r.sent[k].time >= FrameInterval)
  {
    if |ticks| > 0 {
      var s := Step(last, ticks[0]);
      if s.reschedule {
        RunSpacing(ticks[1..], s.last);
        var rest := Run(ticks[1..], s.last);
        var all := s.sent + rest.sent;
        if |s.sent| == 1 {
          forall k | 0 <= k < |all| - 1
            ensures all[k + 1].time - all[k].time >= FrameInterval
          {
            if k > 0 {
              assert all[k] == rest.sent[k - 1] && all[k + 1] == rest.sent[k];
            }
          }
        }
      }
    }
  }

  /** `lastProcessedTime` only moves on a send, to the timestamp of the last frame sent. */
  lemma {:induction false} RunLast(ticks: seq<Tick>, last: real)
    ensures var r := Run(ticks, last);
      r.last == if |r.sent| == 0 then last else r.sent[|r.sent| - 1].time
  {
    if |ticks| > 0 {
      var s := Step(last, ticks[0]);
      if s.reschedule {
        RunLast(ticks[1..], s.last);
      }
    }
  }

  /**
   * Every frame sent carries at least one hand and is the detector output of a tick
   * that passed the rate gate; so a tick with no hand sends nothing.
   */
  lemma {:induction false} RunSendsOnlyHands(ticks: seq<Tick>, last: real)
    ensures |Run(ticks, last).sent| <= |ticks|
    ensures forall f :: f in Run(ticks, last).sent ==>
      |f.hands| > 0 && exists t :: t in ticks && f == SentFrame(t.now, t.hands)
  {
    if |ticks| > 0 {
      var s := Step(last, ticks[0]);
      if s.reschedule {
        RunSendsOnlyHands(ticks[1..], s.last);
        forall f | f in Run(ticks, last).sent
          ensures |f.hands| > 0 && exists t :: t in ticks && f == SentFrame(t.now, t.hands)
        {
          if f !in s.sent {
            var t :| t in ticks[1..] && f == SentFrame(t.now, t.hands);
            assert t in ticks;
          } else {
            assert f == SentFrame(ticks[0].now, ticks[0].hands);
          }
        }
      }
    }
  }

  /** Past a first invocation that reschedules, a prefix of the run ends as the rest of it does. */
  lemma RunPrefixAfterStep(ticks: seq<Tick>, last: real, k: nat)
    requires 1 <= k <= |ticks| && Step(last, ticks[0]).reschedule
    ensures Run(ticks[..k], last).stopped == Run(ticks[1..][..k - 1], Step(last, ticks[0]).last).stopped
  {
    assert ticks[..k][0] == ticks[0];
    assert ticks[..k][1..] == ticks[1..][..k - 1];
  }

  /**
   * The loop ends itself only at an invocation that lacks a reference, the landmarker or
   * the 2-D context, or that sees the camera stopped: there is an invocation i such that
   * the loop was still running after the invocations before it and ended at it.
   */
  lemma {:induction false} RunStopsOnlyWhenTold(ticks: seq<Tick>, last: real)
    ensures Run(ticks, last).stopped ==>
      exists i :: 0 <= i < |ticks| && !Run(ticks[..i], last).stopped && Run(ticks[..i + 1], last).stopped
        && (!ticks[i].refsReady || !ticks[i].hasContext || !ticks[i].running)
  {
    if |ticks| > 0 && Run(ticks, last).stopped {
      var s := Step(last, ticks[0]);
      if s.reschedule {
        RunStopsOnlyWhenTold(ticks[1..], s.last);
        var j :| 0 <= j < |ticks[1..]| && !Run(ticks[1..][..j], s.last).stopped
          && Run(ticks[1..][..j + 1], s.last).stopped
          && (!ticks[1..][j].refsReady || !ticks[1..][j].hasContext || !ticks[1..][j].running);
        RunPrefixAfterStep(ticks, last, j + 1);
        RunPrefixAfterStep(ticks, last, j + 2);
        assert ticks[j + 1] == ticks[1..][j];
      } else {
        assert ticks[..1][0] == ticks[0];
        assert !Run(ticks[..0], last).stopped && Run(ticks[..1], last).stopped;
      }
    }
  }

  const WaitMessage: string := "Please wait for the system to initialize..."
  const CameraError: string := "Failed to access camera. Please check permissions."

  /** What `getUserMedia` yields: a stream, or a rejection (permission denied, no device). */
  datatype CameraResult = StreamGranted | AccessFailed

  /** An `onPrediction(prediction, confidence)` call. */
  datatype PredictionCall = PredictionCall(prediction: string, confidence: Option<real>)

  /** The component's state: its error and prediction slots, the camera flags, and the callbacks made. */
  class VideoStreamState {
    var error: Option<string>
    var prediction: Option<Inbound>
    var webcamRunning: bool
    var landmarkerLoaded: bool
    /** Whether a camera stream is attached to the video element. */
    var streamAttached: bool
    /** Whether the parent passed an `onPrediction` callback. */
    const hasCallback: bool
    /** Every `onPrediction` call, oldest first. */
    var calls: seq<PredictionCall>

    constructor (hasCallback: bool)
      ensures this.hasCallback == hasCallback
      ensures error.None? && prediction.None? && !webcamRunning && !landmarkerLoaded && !streamAttached
      ensures calls == []
    {
      this.hasCallback := hasCallback;
      error := None;
      prediction := None;
      webcamRunning := false;
      landmarkerLoaded := false;
      streamAttached := false;
      calls := [];
    }

    /**
     * The registered message handler: a message with a truthy `error` fills the error slot
     * and nothing else; any other message replaces the prediction, and `onPrediction` is
     * called only when it exists and the message's `prediction` is truthy.
     */
    method HandleMessage(data: Inbound)
      modifies this`error, this`prediction, this`calls
      ensures Truthy(data.error) ==>
        error == data.error && prediction == old(prediction) && calls == old(calls)
      ensures !Truthy(data.error) ==> prediction == Some(data) && error == old(error)
      ensures !Truthy(data.error) && hasCallback && Truthy(data.prediction) ==>
        calls == old(calls) + [PredictionCall(data.prediction.value, data.confidence)]
      ensures !(!Truthy(data.error) && hasCallback && Truthy(data.prediction)) ==> calls == old(calls)
    {
      if Truthy(data.error) {
        error := data.error;
      } else {
        prediction := Some(data);
        if hasCallback && Truthy(data.prediction) {
          calls := calls + [PredictionCall(data.prediction.value, data.confidence)];
        }
      }
    }

    /** The hand landmarker finished loading. */
    method LandmarkerReady()
      modifies this`landmarkerLoaded
      ensures landmarkerLoaded
    {
      landmarkerLoaded := true;
    }

    /**
     * `enableCam`: refuse with the wait message unless the landmarker is loaded and the
     * channel is connected; otherwise ask for the camera, and mark the camera running only
     * once a stream is attached to a present video element; a failure sets the permission error.
     */
    method EnableCam(isConnected: bool, camera: CameraResult, videoPresent: bool)
      modifies this`error, this`webcamRunning, this`streamAttached
      ensures !(old(landmarkerLoaded) && isConnected) ==>
        error == Some(WaitMessage) && webcamRunning == old(webcamRunning) && streamAttached == old(streamAttached)
      ensures old(landmarkerLoaded) && isConnected && camera == AccessFailed ==>
        error == Some(CameraError) && webcamRunning == old(webcamRunning) && streamAttached == old(streamAttached)
      ensures old(landmarkerLoaded) && isConnected && camera == StreamGranted && videoPresent ==>
        error.None? && webcamRunning && streamAttached
      ensures old(landmarkerLoaded) && isConnected && camera == StreamGranted && !videoPresent ==>
        error == old(error) && webcamRunning == old(webcamRunning) && streamAttached == old(streamAttached)
      ensures webcamRunning && !old(webcamRunning) ==> streamAttached
    {
      if !landmarkerLoaded || !isConnected {
        error := Some(WaitMessage);
        return;
      }
      match camera
      case AccessFailed =>
        error := Some(CameraError);
      case StreamGranted =>
        if videoPresent {
          streamAttached := true;
          webcamRunning := true;
          error := None;
        }
    }

    /**
     * The auto-start effect: `enableCam` runs only when the channel is connected, the
     * landmarker is loaded and the camera is not yet running; it never takes the
     * wait-message refusal then: a camera failure sets the permission error, a stream on a
     * present video element starts the camera, and with no video element nothing changes.
     */
    method AutoStart(isConnected: bool, camera: CameraResult, videoPresent: bool) returns (started: bool)
      modifies this`error, this`webcamRunning, this`streamAttached
      ensures started <==> isConnected && old(landmarkerLoaded) && !old(webcamRunning)
      ensures !started ==> error == old(error) && webcamRunning == old(webcamRunning)
      ensures !started ==> streamAttached == old(streamAttached)
      ensures started && camera == AccessFailed ==>
        error == Some(CameraError) && webcamRunning == old(webcamRunning) && streamAttached == old(streamAttached)
      ensures started && camera == StreamGranted && videoPresent ==> webcamRunning && streamAttached && error.None?
      ensures started && camera == StreamGranted && !videoPresent ==>
        error == old(error) && webcamRunning == old(webcamRunning) && streamAttached == old(streamAttached)
    {
      started := isConnected && landmarkerLoaded && !webcamRunning;
      if started {
        EnableCam(isConnected, camera, videoPresent);
      }
    }
  }

  const ConnectingStatus: string := "Connecting to server..."
  const LoadingStatus: string := "Loading hand detection..."
  const StartingStatus: string := "Starting camera..."
  const ActiveStatus: string := "Camera active"

  /**
   * The status line: the first unmet readiness condition, in the order connection,
   * hand detection, camera; "Camera active" only when all three hold.
   */
  function StatusLine(isConnected: bool, landmarkerLoaded: bool, webcamRunning: bool): (s: string)
    ensures s == ConnectingStatus <==> !isConnected
    ensures s == LoadingStatus <==> isConnected && !landmarkerLoaded
    ensures s == StartingStatus <==> isConnected && landmarkerLoaded && !webcamRunning
    ensures s == ActiveStatus <==> isConnected && landmarkerLoaded && webcamRunning
  {
    assert ConnectingStatus[0] != LoadingStatus[0] && ConnectingStatus[0] != StartingStatus[0];
    assert ConnectingStatus[1] != ActiveStatus[1] && LoadingStatus[0] != StartingStatus[0];
    assert LoadingStatus[0] != ActiveStatus[0] && StartingStatus[0] != ActiveStatus[0];
    if !isConnected then ConnectingStatus
    else if !landmarkerLoaded then LoadingStatus
    else if !webcamRunning then StartingStatus
    else ActiveStatus
  }

  /**
   * The error banner `error || wsError`: the component's own error when it is truthy,
   * else the channel's, and no banner when neither is truthy.
   */
  function ShownError(local: Option<string>, wsError: Option<string>): (shown: Option<string>)
    ensures shown.Some? <==> Truthy(local) || Truthy(wsError)
    ensures Truthy(local) ==> shown == local
    ensures !Truthy(local) && Truthy(wsError) ==> shown == wsError
  {
    if Truthy(local) then local
    else if Truthy(wsError) then wsError
    else None
  }
}
