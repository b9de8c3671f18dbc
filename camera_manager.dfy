/**
 * CameraManager's gesture capture controller as a class whose fields are
 * updated in place, one method per entry point.  Each method is proved to
 * move the fields exactly as the transition function of the same name in
 * module Controller does, and to keep its invariant.
 */
module Manager {
  import opened Wrappers
  import opened HandPose
  import opened Controller

  class CameraManager {
    var showTimer: bool
    var isRecording: bool
    var timerCount: int
    var timerTotal: int
    var recordingDuration: int
    var timerPurpose: Option<TimerPurpose>
    var isDetecting: bool
    var gestureLock: bool
    var gestureStartTime: Option<int>
    var currentGesture: Option<Gesture>
    /** The scheduled repeating countdown timer, by kind. */
    var timer: Countdown
    /** Every command issued to the photo and movie outputs, in order. */
    ghost var commands: seq<Command>

    ghost function Snapshot(): State
      reads this
    {
      State(isDetecting, gestureLock, currentGesture, gestureStartTime, showTimer, timerCount,
            timerTotal, timerPurpose, timer, isRecording, recordingDuration, commands)
    }

    /**
     * The controller's invariant.  Every method keeps it but none requires
     * it: the frame handler calls StopTimerOrRecording, CapturePhotoWithDelay
     * and StartRecording just after hiding the timer, while the old countdown
     * may still be scheduled, so they must accept a state that is not valid.
     */
    ghost predicate Valid()
      reads this
    {
      Inv(Snapshot())
    }

    constructor ()
      ensures Valid() && Snapshot() == Initial()
    {
      showTimer, isRecording, timerCount, timerTotal, recordingDuration := false, false, 0, 0, 0;
      timerPurpose, isDetecting, gestureLock := None, false, false;
      gestureStartTime, currentGesture, timer := None, None, NoCountdown;
      commands := [];
    }

    /** `startRecording(after:)`: schedule the recording countdown, replacing any other. */
    method StartRecording(delay: int)
      modifies this
      ensures Snapshot() == StartCountdown(old(Snapshot()), RecordCountdown, delay)
      ensures old(Valid()) ==> Valid()
    {
      timer := RecordCountdown;
      timerTotal, timerCount := delay, delay;
      showTimer := true;
      timerPurpose := Some(CaptureDelay);
    }

    /** `capturePhotoWithDelay(seconds:)`: schedule the photo countdown, replacing any other. */
    method CapturePhotoWithDelay(seconds: int)
      modifies this
      ensures Snapshot() == StartCountdown(old(Snapshot()), PhotoCountdown, seconds)
      ensures old(Valid()) ==> Valid()
    {
      timer := PhotoCountdown;
      timerTotal, timerCount := seconds, seconds;
      showTimer := true;
      timerPurpose := Some(CaptureDelay);
    }

    /** `triggerCountdownAndCapture`, the capture button: a 3-second recording countdown. */
    method TriggerCountdownAndCapture()
      modifies this
      ensures Snapshot() == StartCountdown(old(Snapshot()), RecordCountdown, RecordDelaySeconds)
      ensures old(Valid()) ==> Valid()
    {
      StartRecording(RecordDelaySeconds);
    }

    /** `stopTimerOrRecording`: cancel the countdown, and stop the video if one is recording. */
    method StopTimerOrRecording()
      modifies this
      ensures Snapshot() == Stop(old(Snapshot()))
      ensures old(Valid()) ==> Valid()
    {
      timer := NoCountdown;
      showTimer := false;
      timerPurpose := None;
      recordingDuration := 0;
      if isRecording {
        commands := commands + [StopVideo];
      }
      isRecording := false;
      timerCount := 0;
    }

    /** One firing of the scheduled countdown timer's closure. */
    method Tick()
      modifies this
      ensures Snapshot() == Controller.Tick(old(Snapshot()))
      ensures old(Valid()) ==> Valid()
    {
      if timer == NoCountdown {
        return;
      }
      if timerCount > 1 {
        timerCount := timerCount - 1;
      } else {
        var kind := timer;
        timer := NoCountdown;
        showTimer := false;
        timerCount := 0;
        timerPurpose := None;
        if kind == PhotoCountdown {
          commands := commands + [TakePhoto];
        } else {
          isRecording := true;
          recordingDuration := 0;
          commands := commands + [StartVideo];
        }
      }
    }

    /** `startHandDetection`. */
    method StartHandDetection()
      modifies this
      ensures Snapshot() == StartDetection(old(Snapshot()))
      ensures old(Valid()) ==> Valid()
    {
      isDetecting := true;
    }

    /** `captureOutput(_:didOutput:from:)` for a frame observed at `nowMs`. */
    method OnFrame(frame: Option<Observation>, nowMs: int)
      modifies this
      ensures Snapshot() == FrameStep(old(Snapshot()), frame, nowMs)
      ensures old(Valid()) ==> Valid()
    {
      if !isDetecting || frame.None? {
        return;
      }
      var tips := Gate(frame.value);
      if gestureLock {
        if tips.None? || !IsFist(tips.value) {
          return;
        }
      }
      if tips.None? {
        return;
      }
      var gesture := Classify(tips.value);
      if currentGesture != Some(gesture) {
        currentGesture := Some(gesture);
        gestureStartTime := Some(nowMs);
      } else if gestureStartTime.Some? {
        var elapsedMs := nowMs - gestureStartTime.value;
        timerCount := HoldCount(elapsedMs);
        timerTotal := HoldSeconds;
        timerPurpose := Some(GestureHold);
        showTimer := true;
        if elapsedMs >= HoldMs {
          showTimer := false;
          timerCount := 0;
          timerPurpose := None;
          match gesture {
            case Fist =>
              StopTimerOrRecording();
              gestureLock := false;
            case Peace =>
              gestureLock := true;
              CapturePhotoWithDelay(PhotoDelaySeconds);
            case Palm =>
              gestureLock := true;
              timerTotal := RecordDelaySeconds;
              StartRecording(RecordDelaySeconds);
          }
          currentGesture := None;
          gestureStartTime := None;
        }
      }
    }
  }
}
