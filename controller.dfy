/**
 * The gesture capture controller of CameraManager as transition functions on
 * a snapshot of its fields: the confidence gate and lock filter, the 2-second
 * debouncer, the dispatch of a confirmed gesture, the once-per-second
 * countdown and `stopTimerOrRecording`.  The class in camera_manager.dfy runs
 * these steps in place and is proved to agree with them.
 */
module Controller {
  import opened Wrappers
  import opened HandPose

  /** What the published timer is counting for. */
  datatype TimerPurpose = GestureHold | CaptureDelay

  /** Which repeating countdown timer is scheduled, if any. */
  datatype Countdown = NoCountdown | PhotoCountdown | RecordCountdown

  /** A command issued to the camera sink. */
  datatype Command = TakePhoto | StartVideo | StopVideo

  /** The controller's fields; `log` records every command sent to the sink. */
  datatype State = State(
    isDetecting: bool,
    gestureLock: bool,
    currentGesture: Option<Gesture>,
    gestureStartMs: Option<int>,
    showTimer: bool,
    timerCount: int,
    timerTotal: int,
    timerPurpose: Option<TimerPurpose>,
    timer: Countdown,
    isRecording: bool,
    recordingDuration: int,
    log: seq<Command>)

  /** How long a gesture must be held before it is confirmed. */
  const HoldMs: int := 2000
  /** The hold countdown as published, in whole seconds. */
  const HoldSeconds: int := 2
  /** A confirmed peace sign takes a photo after this many ticks. */
  const PhotoDelaySeconds: int := 5
  /** A confirmed palm starts recording after this many ticks. */
  const RecordDelaySeconds: int := 3

  /** The fields as the initializer leaves them: no command issued yet, and the invariant holds. */
  function Initial(): (r: State)
    ensures Inv(r) && r.log == []
  {
    State(false, false, None, None, false, 0, 0, None, NoCountdown, false, 0, [])
  }

  /**
   * The invariant every step keeps: the debounce fields are set together, the
   * timer is shown exactly when it has a purpose, and a scheduled countdown is
   * always shown.
   */
  predicate Inv(s: State)
  {
    (s.currentGesture.None? <==> s.gestureStartMs.None?) &&
    (s.showTimer <==> s.timerPurpose.Some?) &&
    (s.timer != NoCountdown ==> s.showTimer)
  }


  function Max(a: int, b: int): int
  {
    if a < b then b else a
  }

  /** Swift's `Int(elapsed)` for an interval of `ms` milliseconds: truncation toward zero. */
  function WholeSeconds(ms: int): (r: int)
    ensures 0 <= ms ==> 0 <= r && r * 1000 <= ms < r * 1000 + 1000
    ensures ms < 0 ==> r <= 0 && r * 1000 - 1000 < ms <= r * 1000
  {
    if ms >= 0 then ms / 1000 else -((-ms) / 1000)
  }

  /** The published hold countdown `max(0, 2 - Int(elapsed))`. */
  function HoldCount(elapsedMs: int): (r: int)
    ensures 0 <= r
    ensures 0 <= elapsedMs ==> r <= HoldSeconds
    ensures 0 <= elapsedMs < HoldMs ==> 1 <= r
    ensures HoldMs <= elapsedMs ==> r == 0
  {
    Max(0, HoldSeconds - WholeSeconds(elapsedMs))
  }

  // ---------------------------------------------------------------------------
  // Countdown: startRecording(after:), capturePhotoWithDelay(seconds:), the
  // timer closure, and stopTimerOrRecording
  // ---------------------------------------------------------------------------

  /** Invalidate any scheduled countdown and schedule `kind` from `seconds`. */
  function StartCountdown(s: State, kind: Countdown, seconds: int): (r: State)
    requires kind != NoCountdown
    ensures Inv(s) ==> Inv(r)
  {
    s.(timerTotal := seconds, timerCount := seconds, showTimer := true,
       timerPurpose := Some(CaptureDelay), timer := kind)
  }

  /** The command a countdown of this kind issues when it runs out. */
  function ActionOf(kind: Countdown): Command
    requires kind != NoCountdown
  {
    if kind == PhotoCountdown then TakePhoto else StartVideo
  }

  /** The timer's last firing: invalidate it, clear the display and act. */
  function Fire(s: State): (r: State)
    requires s.timer != NoCountdown
    ensures Inv(s) ==> Inv(r)
  {
    var cleared := s.(timer := NoCountdown, showTimer := false, timerCount := 0, timerPurpose := None);
    if s.timer == PhotoCountdown then
      cleared.(log := s.log + [TakePhoto])
    else
      cleared.(isRecording := true, recordingDuration := 0, log := s.log + [StartVideo])
  }

  /** One firing of the repeating one-second countdown timer. */
  function Tick(s: State): (r: State)
    ensures Inv(s) ==> Inv(r)
  {
    match s.timer
    case NoCountdown => s
    case _ => if s.timerCount > 1 then s.(timerCount := s.timerCount - 1) else Fire(s)
  }

  /** `stopTimerOrRecording`: cancel the countdown and any recording. */
  function Stop(s: State): (r: State)
    ensures Inv(s) ==> Inv(r)
  {
    s.(timer := NoCountdown, showTimer := false, timerPurpose := None, recordingDuration := 0,
       isRecording := false, timerCount := 0,
       log := if s.isRecording then s.log + [StopVideo] else s.log)
  }

  /** `startHandDetection`. */
  function StartDetection(s: State): (r: State)
    ensures Inv(s) ==> Inv(r)
  {
    s.(isDetecting := true)
  }

  lemma FireSpec(s: State)
    requires s.timer != NoCountdown
    ensures Fire(s).log == s.log + [ActionOf(s.timer)]
    ensures Fire(s).timer == NoCountdown && Fire(s).timerCount == 0 && Fire(s).timerPurpose == None
    ensures Fire(s).isRecording == (s.isRecording || s.timer == RecordCountdown)
    ensures s.timer == RecordCountdown ==> Fire(s).recordingDuration == 0
    ensures Fire(s).gestureLock == s.gestureLock
    ensures Fire(s).currentGesture == s.currentGesture && Fire(s).gestureStartMs == s.gestureStartMs
  {
  }

  // ---------------------------------------------------------------------------
  // The frame handler: captureOutput(_:didOutput:from:)
  // ---------------------------------------------------------------------------

  /**
   * What reaches the debouncer from a frame: nothing while detection is off,
   * when no hand was observed, when the gate fails, or, under the lock, when
   * the tips are not close enough for a fist.
   */
  function Admitted(s: State, frame: Option<Observation>): (r: Option<Gesture>)
    ensures r.Some? <==>
      s.isDetecting && frame.Some? && Usable(frame.value) && (s.gestureLock ==> IsFist(TipsOf(frame.value)))
    ensures r.Some? ==> r.value == Classify(TipsOf(frame.value))
  {
    if !s.isDetecting then None
    else match frame
      case None => None
      case Some(obs) =>
        match Gate(obs)
        case None => None
        case Some(tips) => if s.gestureLock && !IsFist(tips) then None else Some(Classify(tips))
  }

  /** The published hold countdown after `elapsedMs` of the same gesture. */
  function ShowHold(s: State, elapsedMs: int): (r: State)
    ensures Inv(s) ==> Inv(r)
  {
    s.(timerCount := HoldCount(elapsedMs), timerTotal := HoldSeconds,
       timerPurpose := Some(GestureHold), showTimer := true)
  }

  /** The switch on a confirmed gesture. */
  function Dispatch(s: State, g: Gesture): (r: State)
    ensures Inv(s) ==> Inv(r)
  {
    match g
    case Fist => Stop(s).(gestureLock := false)
    case Peace => StartCountdown(s.(gestureLock := true), PhotoCountdown, PhotoDelaySeconds)
    case Palm => StartCountdown(s.(gestureLock := true, timerTotal := RecordDelaySeconds), RecordCountdown, RecordDelaySeconds)
  }

  /** Confirmation: hide the hold countdown, dispatch, clear the debounce state. */
  function Confirm(shown: State, g: Gesture): (r: State)
    ensures Inv(r)
    ensures r.currentGesture == None && r.gestureStartMs == None
  {
    Dispatch(shown.(showTimer := false, timerCount := 0, timerPurpose := None), g)
      .(currentGesture := None, gestureStartMs := None)
  }

  /** The debouncer, run on a gesture that was admitted at time `nowMs`. */
  function Debounce(s: State, g: Gesture, nowMs: int): (r: State)
    ensures Inv(s) ==> Inv(r)
  {
    if s.currentGesture != Some(g) then
      s.(currentGesture := Some(g), gestureStartMs := Some(nowMs))
    else match s.gestureStartMs
      case None => s
      case Some(start) =>
        var shown := ShowHold(s, nowMs - start);
        if nowMs - start >= HoldMs then Confirm(shown, g) else shown
  }

  /** One camera frame, observed at `nowMs`. */
  function FrameStep(s: State, frame: Option<Observation>, nowMs: int): (r: State)
    ensures Inv(s) ==> Inv(r)
  {
    match Admitted(s, frame)
    case None => s
    case Some(g) => Debounce(s, g, nowMs)
  }

  // ---------------------------------------------------------------------------
  // Properties of one frame
  // ---------------------------------------------------------------------------

  /** The tips of a frame that passed the gate. */
  function TipsOf(o: Observation): Tips
    requires Usable(o)
  {
    Tips(o.indexTip.value, o.middleTip.value)
  }

  /**
   * Exactly the confident frames of a detecting controller reach the debouncer,
   * carrying their classification, and under the lock only fists do.
   */
  lemma AdmittedSpec(s: State, frame: Option<Observation>, g: Gesture)
    ensures Admitted(s, frame) == Some(g) <==>
      s.isDetecting && frame.Some? && Usable(frame.value) &&
      Classify(TipsOf(frame.value)) == g && (s.gestureLock ==> g == Fist)
  {
  }

  /** A frame with a missing or unsure tip, or any frame while detection is off, changes nothing. */
  lemma UngatedFrameChangesNothing(s: State, frame: Option<Observation>, nowMs: int)
    requires !s.isDetecting || frame.None? || !Usable(frame.value)
    ensures FrameStep(s, frame, nowMs) == s
  {
  }

  /** Under the lock, a confident frame whose tips are not close enough for a fist changes nothing. */
  lemma LockedNonFistChangesNothing(s: State, frame: Option<Observation>, nowMs: int)
    requires s.gestureLock && frame.Some? && Usable(frame.value)
    requires SquaredDistance(frame.value.indexTip.value, frame.value.middleTip.value) >= FistDistance * FistDistance
    ensures FrameStep(s, frame, nowMs) == s
  {
  }

  /**
   * A gesture other than the current one restarts the hold at `nowMs` and does
   * nothing else: no credit for the previous gesture, no command, no countdown.
   */
  lemma SwitchRestartsHold(s: State, frame: Option<Observation>, nowMs: int, g: Gesture)
    requires Admitted(s, frame) == Some(g) && s.currentGesture != Some(g)
    ensures FrameStep(s, frame, nowMs) == s.(currentGesture := Some(g), gestureStartMs := Some(nowMs))
  {
  }

  /**
   * A repeat of the current gesture before the dwell time shows a hold
   * countdown of one or two seconds out of two, and changes nothing else.
   */
  lemma HoldShowsCountdown(s: State, frame: Option<Observation>, nowMs: int, g: Gesture)
    requires Inv(s) && Admitted(s, frame) == Some(g) && s.currentGesture == Some(g)
    requires s.gestureStartMs.value <= nowMs < s.gestureStartMs.value + HoldMs
    ensures var r := FrameStep(s, frame, nowMs);
      1 <= r.timerCount <= HoldSeconds && r.timerTotal == HoldSeconds &&
      r == s.(timerCount := r.timerCount, timerTotal := HoldSeconds,
              timerPurpose := Some(GestureHold), showTimer := true)
  {
  }

  /** The frame confirms the current gesture: it repeats and has been held 2 s. */
  predicate Confirms(s: State, frame: Option<Observation>, nowMs: int)
  {
    s.currentGesture.Some? && s.gestureStartMs.Some? &&
    Admitted(s, frame) == s.currentGesture && nowMs - s.gestureStartMs.value >= HoldMs
  }

  /**
   * A confirming frame clears the debounce state and dispatches: a fist stops
   * everything and unlocks; a peace sign locks and arms the 5-second photo
   * countdown; a palm locks and arms the 3-second recording countdown.
   */
  lemma ConfirmDispatches(s: State, frame: Option<Observation>, nowMs: int)
    requires Confirms(s, frame, nowMs)
    ensures var r := FrameStep(s, frame, nowMs);
      r.currentGesture == None && r.gestureStartMs == None &&
      r.isDetecting == s.isDetecting &&
      match s.currentGesture.value
      case Fist =>
        !r.gestureLock && r.timer == NoCountdown && !r.isRecording && !r.showTimer &&
        r.timerCount == 0 && r.timerPurpose == None &&
        r.log == (if s.isRecording then s.log + [StopVideo] else s.log)
      case Peace =>
        r.gestureLock && r.timer == PhotoCountdown && r.timerCount == PhotoDelaySeconds &&
        r.timerTotal == PhotoDelaySeconds && r.timerPurpose == Some(CaptureDelay) && r.showTimer &&
        r.isRecording == s.isRecording && r.log == s.log
      case Palm =>
        r.gestureLock && r.timer == RecordCountdown && r.timerCount == RecordDelaySeconds &&
        r.timerTotal == RecordDelaySeconds && r.timerPurpose == Some(CaptureDelay) && r.showTimer &&
        r.isRecording == s.isRecording && r.log == s.log
  {
  }

  /**
   * A frame that does not confirm leaves the lock, the countdown, the recording
   * and the command log as they were.
   */
  lemma OnlyConfirmationDispatches(s: State, frame: Option<Observation>, nowMs: int)
    requires !Confirms(s, frame, nowMs)
    ensures var r := FrameStep(s, frame, nowMs);
      r.gestureLock == s.gestureLock && r.timer == s.timer && r.isRecording == s.isRecording &&
      r.recordingDuration == s.recordingDuration && r.log == s.log
  {
  }

  /**
   * Right after a confirmation the next frame cannot confirm again: whatever it
   * carries, it at most starts a fresh hold.
   */
  lemma NoImmediateReconfirm(s: State, f1: Option<Observation>, t1: int, f2: Option<Observation>, t2: int)
    requires Confirms(s, f1, t1)
    ensures !Confirms(FrameStep(s, f1, t1), f2, t2)
    ensures var r := FrameStep(s, f1, t1);
      FrameStep(r, f2, t2) == r ||
      (Admitted(r, f2).Some? && FrameStep(r, f2, t2) == r.(currentGesture := Admitted(r, f2), gestureStartMs := Some(t2)))
  {
    ConfirmDispatches(s, f1, t1);
  }

  /**
   * A frame never takes a photo or starts a video; the one command it can
   * issue is stopping a video that is being recorded.
   */
  lemma FrameIssuesNoCapture(s: State, frame: Option<Observation>, nowMs: int)
    ensures var r := FrameStep(s, frame, nowMs);
      r.log == s.log || (s.isRecording && r.log == s.log + [StopVideo])
  {
  }
}
