/**
 * Sequences of events delivered to the controller in one serial order:
 * camera frames, firings of the countdown timer, the stop and capture buttons
 * and the start of hand detection.  Properties of whole countdowns and runs.
 */
module Traces {
  import opened Wrappers
  import opened HandPose
  import opened Controller

  datatype Event =
    | Frame(frame: Option<Observation>, nowMs: int)
    | TimerTick
    | StopPressed
    | CapturePressed
    | DetectionStarted

  function Apply(s: State, e: Event): (r: State)
    ensures Inv(s) ==> Inv(r)
  {
    match e
    case Frame(frame, nowMs) => FrameStep(s, frame, nowMs)
    case TimerTick => Tick(s)
    case StopPressed => Stop(s)
    case CapturePressed => StartCountdown(s, RecordCountdown, RecordDelaySeconds)
    case DetectionStarted => StartDetection(s)
  }

  function Run(s: State, es: seq<Event>): State
    decreases |es|
  {
    if es == [] then s else Run(Apply(s, es[0]), es[1..])
  }

  /** `n` consecutive firings of the countdown timer with nothing in between. */
  function Ticks(s: State, n: nat): State
    decreases n
  {
    if n == 0 then s else Ticks(Tick(s), n - 1)
  }

  /** The number of firings after which a scheduled countdown acts. */
  function TicksToFire(s: State): nat
  {
    if s.timerCount > 1 then s.timerCount else 1
  }

  /** Every step keeps the invariant, so every run from a valid state does. */
  lemma {:induction false} RunKeepsInv(s: State, es: seq<Event>)
    requires Inv(s)
    ensures Inv(Run(s, es))
    decreases |es|
  {
    if es != [] {
      RunKeepsInv(Apply(s, es[0]), es[1..]);
    }
  }

  /** The command log only grows: no step takes a command back. */
  lemma {:induction false} RunExtendsLog(s: State, es: seq<Event>)
    ensures |s.log| <= |Run(s, es).log| && Run(s, es).log[..|s.log|] == s.log
    decreases |es|
  {
    if es != [] {
      var t := Apply(s, es[0]);
      assert |s.log| <= |t.log| && t.log[..|s.log|] == s.log;
      RunExtendsLog(t, es[1..]);
      assert Run(s, es).log[..|t.log|] == t.log;
    }
  }

  /** Without a scheduled countdown the timer does nothing. */
  lemma {:induction false} IdleTicksChangeNothing(s: State, n: nat)
    requires s.timer == NoCountdown
    ensures Ticks(s, n) == s
    decreases n
  {
    if n > 0 {
      IdleTicksChangeNothing(Tick(s), n - 1);
    }
  }

  /**
   * A scheduled countdown counts down once per firing while its count is above
   * one and acts on the next firing: after `n` firings it has acted exactly
   * once if `n` reached TicksToFire, and not at all before.  It never touches
   * the lock or the debounce state.
   */
  lemma {:induction false} CountdownActsOnce(s: State, n: nat)
    requires s.timer != NoCountdown
    ensures var r := Ticks(s, n);
      r.gestureLock == s.gestureLock &&
      r.currentGesture == s.currentGesture && r.gestureStartMs == s.gestureStartMs &&
      (n < TicksToFire(s) ==> r == s.(timerCount := s.timerCount - n)) &&
      (n >= TicksToFire(s) ==> r == Fire(s) && r.log == s.log + [ActionOf(s.timer)])
    decreases n
  {
    FireSpec(s);
    if n > 0 {
      if s.timerCount > 1 {
        var t := Tick(s);
        CountdownActsOnce(t, n - 1);
        assert Fire(t) == Fire(s);
      } else {
        IdleTicksChangeNothing(Fire(s), n - 1);
      }
    }
  }

  /**
   * After a stop no countdown is scheduled, nothing is recorded, and no number
   * of timer firings issues any command; a stop command was sent only if a
   * video was being recorded.
   */
  lemma StopCancels(s: State, n: nat)
    ensures Stop(s).timer == NoCountdown && !Stop(s).isRecording
    ensures Ticks(Stop(s), n) == Stop(s)
    ensures Stop(s).log == if s.isRecording then s.log + [StopVideo] else s.log
  {
    IdleTicksChangeNothing(Stop(s), n);
  }

  /** Starting a countdown replaces whatever countdown was scheduled: only the new one can act. */
  lemma StartReplacesCountdown(s: State, kind: Countdown, seconds: int, n: nat)
    requires kind != NoCountdown
    ensures var r := StartCountdown(s, kind, seconds);
      r.timer == kind && r.timerCount == seconds && r.timerTotal == seconds &&
      (n >= TicksToFire(r) ==> Ticks(r, n).log == s.log + [ActionOf(kind)]) &&
      (n < TicksToFire(r) ==> Ticks(r, n).log == s.log)
  {
    CountdownActsOnce(StartCountdown(s, kind, seconds), n);
  }

  // ---------------------------------------------------------------------------
  // Concrete runs
  // ---------------------------------------------------------------------------

  /** A confident hand with the index tip at (ix, iy) and the middle tip at (mx, my). */
  function Seen(ix: real, iy: real, mx: real, my: real): Option<Observation>
  {
    Some(Observation(Some(Landmark(0.4, 0.7, 0.9)), Some(Landmark(ix, iy, 0.9)), Some(Landmark(mx, my, 0.9))))
  }

  /** Tips 0.2 apart vertically. */
  const PeaceFrame: Option<Observation> := Seen(0.5, 0.3, 0.5, 0.5)
  /** Tips 0.1 apart horizontally. */
  const PalmFrame: Option<Observation> := Seen(0.5, 0.5, 0.6, 0.5)
  /** Tips 0.01 apart. */
  const FistFrame: Option<Observation> := Seen(0.5, 0.5, 0.51, 0.5)
  /** The controller once the preview has appeared. */
  const Detecting: State := StartDetection(Initial())

  /** The three sample frames pass the gate and classify as their names say. */
  lemma SampleFramesClassify()
    ensures Gate(PeaceFrame.value) == Some(Tips(Landmark(0.5, 0.3, 0.9), Landmark(0.5, 0.5, 0.9)))
    ensures Gate(PalmFrame.value) == Some(Tips(Landmark(0.5, 0.5, 0.9), Landmark(0.6, 0.5, 0.9)))
    ensures Gate(FistFrame.value) == Some(Tips(Landmark(0.5, 0.5, 0.9), Landmark(0.51, 0.5, 0.9)))
    ensures Classify(Gate(PeaceFrame.value).value) == Peace && !IsFist(Gate(PeaceFrame.value).value)
    ensures Classify(Gate(PalmFrame.value).value) == Palm && !IsFist(Gate(PalmFrame.value).value)
    ensures Classify(Gate(FistFrame.value).value) == Fist && IsFist(Gate(FistFrame.value).value)
  {
  }

  /**
   * A peace sign seen at 0 ms, 1000 ms and 2000 ms is confirmed once, locks,
   * arms the 5-second photo countdown, and the fifth timer firing takes exactly
   * one photo; the lock is still set afterwards.
   */
  lemma PeaceHeldTakesOnePhoto()
    ensures var armed := Run(Detecting, [Frame(PeaceFrame, 0), Frame(PeaceFrame, 1000), Frame(PeaceFrame, 2000)]);
      armed.timer == PhotoCountdown && armed.timerCount == 5 && armed.gestureLock && armed.log == [] &&
      armed.currentGesture == None &&
      Ticks(armed, 4).log == [] && Ticks(armed, 5).log == [TakePhoto] &&
      Ticks(armed, 5).timer == NoCountdown && Ticks(armed, 5).gestureLock
  {
    SampleFramesClassify();
    var s1 := FrameStep(Detecting, PeaceFrame, 0);
    assert s1 == Detecting.(currentGesture := Some(Peace), gestureStartMs := Some(0));
    var s2 := FrameStep(s1, PeaceFrame, 1000);
    assert s2.timerCount == 1 && s2.timer == NoCountdown;
    var armed := FrameStep(s2, PeaceFrame, 2000);
    assert armed.timer == PhotoCountdown && armed.timerCount == 5;
    assert Run(Detecting, [Frame(PeaceFrame, 0), Frame(PeaceFrame, 1000), Frame(PeaceFrame, 2000)])
        == Run(s1, [Frame(PeaceFrame, 1000), Frame(PeaceFrame, 2000)]);
    assert Run(s1, [Frame(PeaceFrame, 1000), Frame(PeaceFrame, 2000)]) == Run(s2, [Frame(PeaceFrame, 2000)]);
    assert Run(s2, [Frame(PeaceFrame, 2000)]) == Run(armed, []);
    CountdownActsOnce(armed, 4);
    CountdownActsOnce(armed, 5);
  }

  /**
   * Switching from a peace sign held 1.5 s to a palm held 1.9 s confirms
   * neither: no countdown, no lock, no command.
   */
  lemma SwitchBeforeDwellNeverCommits()
    ensures var r := Run(Detecting, [Frame(PeaceFrame, 0), Frame(PeaceFrame, 1500), Frame(PalmFrame, 1900), Frame(PalmFrame, 3800)]);
      r.timer == NoCountdown && !r.gestureLock && r.log == [] &&
      r.currentGesture == Some(Palm) && r.gestureStartMs == Some(1900)
  {
    SampleFramesClassify();
    var s1 := FrameStep(Detecting, PeaceFrame, 0);
    var s2 := FrameStep(s1, PeaceFrame, 1500);
    assert s2.currentGesture == Some(Peace) && s2.timer == NoCountdown && !s2.gestureLock;
    var s3 := FrameStep(s2, PalmFrame, 1900);
    assert s3 == s2.(currentGesture := Some(Palm), gestureStartMs := Some(1900));
    var s4 := FrameStep(s3, PalmFrame, 3800);
    assert s4.timer == NoCountdown && s4.currentGesture == Some(Palm) && s4.gestureStartMs == Some(1900);
    assert Run(Detecting, [Frame(PeaceFrame, 0), Frame(PeaceFrame, 1500), Frame(PalmFrame, 1900), Frame(PalmFrame, 3800)])
        == Run(s1, [Frame(PeaceFrame, 1500), Frame(PalmFrame, 1900), Frame(PalmFrame, 3800)]);
    assert Run(s1, [Frame(PeaceFrame, 1500), Frame(PalmFrame, 1900), Frame(PalmFrame, 3800)])
        == Run(s2, [Frame(PalmFrame, 1900), Frame(PalmFrame, 3800)]);
    assert Run(s2, [Frame(PalmFrame, 1900), Frame(PalmFrame, 3800)]) == Run(s3, [Frame(PalmFrame, 3800)]);
    assert Run(s3, [Frame(PalmFrame, 3800)]) == Run(s4, []);
  }

  /** The run of a frame seen at `t0` and again at `t0 + 2000`. */
  function HeldTwoSeconds(s: State, frame: Option<Observation>, t0: int): State
  {
    Run(s, [Frame(frame, t0), Frame(frame, t0 + HoldMs)])
  }

  /** Proof helper: unfolds HeldTwoSeconds into its two frame steps. */
  lemma HeldTwoSecondsSteps(s: State, frame: Option<Observation>, t0: int)
    ensures HeldTwoSeconds(s, frame, t0) == FrameStep(FrameStep(s, frame, t0), frame, t0 + HoldMs)
  {
    var es := [Frame(frame, t0), Frame(frame, t0 + HoldMs)];
    var t := FrameStep(s, frame, t0);
    assert es[0] == Frame(frame, t0) && es[1..] == [Frame(frame, t0 + HoldMs)];
    assert Run(s, es) == Run(t, [Frame(frame, t0 + HoldMs)]);
    assert [Frame(frame, t0 + HoldMs)][1..] == [];
    assert Run(t, [Frame(frame, t0 + HoldMs)]) == Run(FrameStep(t, frame, t0 + HoldMs), []);
  }

  /**
   * After the photo the lock is still set, so a second peace sign held for
   * 2 s is ignored; only a fist held for 2 s unlocks.
   */
  lemma LockOutlivesPhoto()
    ensures var done := Ticks(HeldTwoSeconds(Detecting, PeaceFrame, 0), 5);
      done.gestureLock && done.log == [TakePhoto] &&
      HeldTwoSeconds(done, PeaceFrame, 10000) == done &&
      !HeldTwoSeconds(done, FistFrame, 10000).gestureLock
  {
    SampleFramesClassify();
    HeldTwoSecondsSteps(Detecting, PeaceFrame, 0);
    var armed := HeldTwoSeconds(Detecting, PeaceFrame, 0);
    assert armed.timer == PhotoCountdown && armed.timerCount == 5 && armed.gestureLock && armed.log == [];
    CountdownActsOnce(armed, 5);
    var done := Ticks(armed, 5);
    HeldTwoSecondsSteps(done, PeaceFrame, 10000);
    HeldTwoSecondsSteps(done, FistFrame, 10000);
    assert FrameStep(done, FistFrame, 10000).currentGesture == Some(Fist);
  }

  /**
   * A palm held 2 s starts a video after three firings; a fist held 2 s then
   * stops it and unlocks.
   */
  lemma PalmRecordsFistStops()
    ensures var armed := HeldTwoSeconds(Detecting, PalmFrame, 0);
      var recording := Ticks(armed, 3);
      armed.timer == RecordCountdown && armed.timerTotal == 3 &&
      recording.isRecording && recording.log == [StartVideo] && recording.gestureLock &&
      var stopped := HeldTwoSeconds(recording, FistFrame, 6000);
      !stopped.isRecording && !stopped.gestureLock && stopped.log == [StartVideo, StopVideo]
  {
    SampleFramesClassify();
    HeldTwoSecondsSteps(Detecting, PalmFrame, 0);
    var armed := HeldTwoSeconds(Detecting, PalmFrame, 0);
    assert armed.timer == RecordCountdown && armed.timerCount == 3 && armed.gestureLock && armed.log == [];
    CountdownActsOnce(armed, 3);
    var recording := Ticks(armed, 3);
    HeldTwoSecondsSteps(recording, FistFrame, 6000);
    assert FrameStep(recording, FistFrame, 6000).currentGesture == Some(Fist);
  }
}
