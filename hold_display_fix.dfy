/**
 * The hold countdown and the capture countdown share `timerCount`.  Under the
 * lock only fists reach the debouncer, and while a fist is being held its hold
 * countdown overwrites the capture count with 2 and then 1, so the next timer
 * firing acts at once: holding the cancel gesture during a photo countdown
 * takes the photo early.  This module exhibits that run on the model as
 * written and proves that leaving the display alone while a countdown is
 * scheduled keeps every frame from advancing it.
 */
module HoldDisplayFix {
  import opened Wrappers
  import opened HandPose
  import opened Controller
  import opened Traces

  /**
   * As written, one fist frame under the lock rewrites a scheduled count of 4
   * to 1 and relabels it as a hold countdown, so the next firing acts.
   */
  lemma FistFrameRewritesCountdown()
    ensures var s := Detecting.(gestureLock := true, timer := PhotoCountdown, timerCount := 4,
                                timerTotal := 5, timerPurpose := Some(CaptureDelay), showTimer := true,
                                currentGesture := Some(Fist), gestureStartMs := Some(3100));
      var r := FrameStep(s, FistFrame, 4100);
      Inv(s) && r.timer == PhotoCountdown && r.timerCount == 1 && r.timerPurpose == Some(GestureHold) &&
      Tick(r).log == [TakePhoto]
  {
    SampleFramesClassify();
  }

  /**
   * As written, the whole run: a peace sign held 2 s arms the 5-second photo
   * countdown; one firing later the user starts holding a fist to cancel; the
   * third firing takes the photo, before the fist is confirmed 2 s after it
   * began.  The confirmation then finds nothing left to cancel.
   */
  lemma FistDuringCountdownTakesPhoto()
    ensures var armed := HeldTwoSeconds(Detecting, PeaceFrame, 0);
      var r := Run(armed, [TimerTick, Frame(FistFrame, 3100), Frame(FistFrame, 3200), TimerTick,
                           Frame(FistFrame, 4100), TimerTick]);
      armed.timer == PhotoCountdown && armed.timerCount == 5 &&
      r.log == [TakePhoto] && r.timer == NoCountdown && r.currentGesture == Some(Fist) &&
      FrameStep(r, FistFrame, 5100).log == [TakePhoto]
  {
    SampleFramesClassify();
    HeldTwoSecondsSteps(Detecting, PeaceFrame, 0);
    var armed := HeldTwoSeconds(Detecting, PeaceFrame, 0);
    assert armed.timer == PhotoCountdown && armed.timerCount == 5 && armed.gestureLock;
    var s1 := Tick(armed);
    var s2 := FrameStep(s1, FistFrame, 3100);
    assert s2.currentGesture == Some(Fist) && s2.gestureStartMs == Some(3100) && s2.timerCount == 4;
    var s3 := FrameStep(s2, FistFrame, 3200);
    assert s3.timerCount == 2;
    var s4 := Tick(s3);
    assert s4.timerCount == 1 && s4.timer == PhotoCountdown;
    var s5 := FrameStep(s4, FistFrame, 4100);
    assert s5.timerCount == 1;
    var s6 := Tick(s5);
    assert s6.log == [TakePhoto];
    assert Run(armed, [TimerTick, Frame(FistFrame, 3100), Frame(FistFrame, 3200), TimerTick,
                       Frame(FistFrame, 4100), TimerTick])
        == Run(s1, [Frame(FistFrame, 3100), Frame(FistFrame, 3200), TimerTick, Frame(FistFrame, 4100), TimerTick]);
    assert Run(s1, [Frame(FistFrame, 3100), Frame(FistFrame, 3200), TimerTick, Frame(FistFrame, 4100), TimerTick])
        == Run(s2, [Frame(FistFrame, 3200), TimerTick, Frame(FistFrame, 4100), TimerTick]);
    assert Run(s2, [Frame(FistFrame, 3200), TimerTick, Frame(FistFrame, 4100), TimerTick])
        == Run(s3, [TimerTick, Frame(FistFrame, 4100), TimerTick]);
    assert Run(s3, [TimerTick, Frame(FistFrame, 4100), TimerTick]) == Run(s4, [Frame(FistFrame, 4100), TimerTick]);
    assert Run(s4, [Frame(FistFrame, 4100), TimerTick]) == Run(s5, [TimerTick]);
    assert Run(s5, [TimerTick]) == Run(s6, []);
  }

  /** The debouncer with the hold countdown shown only when no capture countdown is scheduled. */
  function DebounceFixed(s: State, g: Gesture, nowMs: int): (r: State)
    ensures Inv(s) ==> Inv(r)
  {
    if s.currentGesture != Some(g) then
      s.(currentGesture := Some(g), gestureStartMs := Some(nowMs))
    else match s.gestureStartMs
      case None => s
      case Some(start) =>
        var shown := if s.timer == NoCountdown then ShowHold(s, nowMs - start) else s;
        if nowMs - start >= HoldMs then Confirm(shown, g) else shown
  }

  function FrameStepFixed(s: State, frame: Option<Observation>, nowMs: int): (r: State)
    ensures Inv(s) ==> Inv(r)
  {
    match Admitted(s, frame)
    case None => s
    case Some(g) => DebounceFixed(s, g, nowMs)
  }

  /**
   * With the correction, a frame under the lock either leaves a scheduled
   * countdown exactly as it was, with no command, or cancels it and unlocks,
   * issuing at most a stop command: it never advances the countdown.
   */
  lemma FixedFrameKeepsCountdown(s: State, frame: Option<Observation>, nowMs: int)
    requires s.gestureLock && s.timer != NoCountdown
    ensures var r := FrameStepFixed(s, frame, nowMs);
      (r.timer == s.timer && r.timerCount == s.timerCount && r.timerTotal == s.timerTotal &&
       r.timerPurpose == s.timerPurpose && r.showTimer == s.showTimer && r.gestureLock && r.log == s.log) ||
      (r.timer == NoCountdown && !r.gestureLock && !r.isRecording &&
       r.log == (if s.isRecording then s.log + [StopVideo] else s.log))
  {
  }

  /** While no countdown is scheduled, the correction agrees with the code on every frame. */
  lemma FixedAgreesWhenIdle(s: State, frame: Option<Observation>, nowMs: int)
    requires s.timer == NoCountdown
    ensures FrameStepFixed(s, frame, nowMs) == FrameStep(s, frame, nowMs)
  {
  }

  /**
   * With the correction, the run of FistDuringCountdownTakesPhoto counts down
   * untouched by the fist frames and the confirmed fist cancels it: no photo.
   */
  lemma FixedFistCancelsPhoto()
    ensures var armed := HeldTwoSeconds(Detecting, PeaceFrame, 0);
      var s2 := FrameStepFixed(FrameStepFixed(Tick(armed), FistFrame, 3100), FistFrame, 3200);
      var s6 := Tick(FrameStepFixed(Tick(s2), FistFrame, 4100));
      var r := FrameStepFixed(s6, FistFrame, 5100);
      s6.timer == PhotoCountdown && s6.timerCount == 2 &&
      r.timer == NoCountdown && !r.gestureLock && r.log == []
  {
    SampleFramesClassify();
    HeldTwoSecondsSteps(Detecting, PeaceFrame, 0);
    var armed := HeldTwoSeconds(Detecting, PeaceFrame, 0);
    assert armed.timer == PhotoCountdown && armed.timerCount == 5 && armed.gestureLock && armed.log == [];
    var s1 := Tick(armed);
    var s2a := FrameStepFixed(s1, FistFrame, 3100);
    assert s2a.currentGesture == Some(Fist) && s2a.gestureStartMs == Some(3100) && s2a.timerCount == 4;
    var s2 := FrameStepFixed(s2a, FistFrame, 3200);
    assert s2.timerCount == 4;
    var s5 := FrameStepFixed(Tick(s2), FistFrame, 4100);
    assert s5.timerCount == 3 && s5.currentGesture == Some(Fist) && s5.gestureStartMs == Some(3100);
    var s6 := Tick(s5);
    assert s6.timerCount == 2 && s6.timer == PhotoCountdown && s6.log == [];
  }
}
