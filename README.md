# Gesture capture controller of CameraManager

A Dafny model of the hands-free capture logic in `CameraManager`
(Camera/CameraManager.swift). The camera delivers one hand-pose observation per
frame. The controller does five things with it:

- It gates the observation on three fingertips (thumb, index, middle), each
  present with confidence above 0.3.
- It classifies the hand as a fist, a peace sign or an open palm.
- While `gestureLock` is set, it drops every frame that is not a fist.
- It debounces the gesture: a gesture counts once it has been held for 2 s, and
  a 2-second hold countdown is published meanwhile.
- It dispatches the confirmed gesture. A fist stops everything and unlocks. A
  peace sign locks and starts a 5-second photo countdown. A palm locks and
  starts a 3-second recording countdown.

A repeating one-second timer counts the countdown down and issues exactly one
command to the camera sink. `stopTimerOrRecording` cancels the countdown and any
recording.

Layout:

- `wrappers.dfy` — `Option`.
- `hand_pose.dfy` (module `HandPose`) — landmarks, the confidence gate and the
  classification. The classification is proved to agree with its statement in
  terms of the Euclidean distance that `hypot` computes.
- `controller.dfy` (module `Controller`) — the controller's fields as a `State`
  value. Each entry point is a transition function on it. The module also holds
  the invariant every transition keeps and the properties of single frames.
- `traces.dfy` (module `Traces`) — runs of events, repeated timer firings, the
  countdown and cancellation theorems, and concrete runs.
- `hold_display_fix.dfy` (module `HoldDisplayFix`) — the defect described under
  Findings, exhibited and corrected.
- `camera_manager.dfy` (module `Manager`) — class `CameraManager`. Its fields are
  updated in place, with one method per entry point. Each method is proved to
  change the fields exactly as its transition function does, and to keep the
  invariant. Sink commands go into the ghost field `commands`.

Modelling choices:

- Time is a parameter `nowMs` in integer milliseconds. `Int(elapsed)` becomes
  truncation toward zero of `ms / 1000` (`WholeSeconds`).
- Coordinates and confidences are `real`. `hypot(dx, dy) < 0.05` is compared as
  `dx² + dy² < 0.05²`.
- Each `DispatchQueue.main.async` block runs at once, in program order.
- One firing of the repeating countdown timer is one call of `Tick`.
- The `timer` field says which countdown closure is scheduled: none, photo or
  recording.
- The observation is `Option<Observation>`. Each of its tips is an
  `Option<Landmark>`. `None` stands for every way a frame yields no observation:
  - no pixel buffer;
  - no hand found;
  - a Vision request that throws (the catch block only prints).

Facts about the code that shape the model:

- There is one confidence threshold, 0.3, for all three tips (Camera/CameraManager.swift:198, 216). No count of failed frames is kept.
- After confirmation there is one capture countdown: 5 s for a photo (Camera/CameraManager.swift:253) and 3 s for a recording (Camera/CameraManager.swift:257-258).
- When a countdown completes, `gestureLock` stays set, because the timer closures never write it (Camera/CameraManager.swift:80-104, 306-322). Only a confirmed fist clears it (Camera/CameraManager.swift:249). So after a photo, a second held peace sign takes no photo until a fist has unlocked the controller (`Traces.LockOutlivesPhoto`).
- Every gated frame classifies as a fist, a peace sign or a palm (Camera/CameraManager.swift:222-227), so the `default` branch of the switch (Camera/CameraManager.swift:259-260) is never taken and the model has no fourth gesture.

## Model

| member | source | states |
|---|---|---|
| HandPose.Classify | Camera/CameraManager.swift:217-227 | a fist always has the tips less than 0.05 apart vertically; a peace sign always has them more than 0.1 apart |
| HandPose.ClassifyMatchesHypot | Camera/CameraManager.swift:217-227 | with `d` the Euclidean tip distance: fist iff d < 0.05; peace iff d ≥ 0.05 and vertical separation > 0.1; palm iff d ≥ 0.05 and separation ≤ 0.1 — total and exclusive |
| HandPose.Gate | Camera/CameraManager.swift:211-216 | the gate passes iff all three tips are present with confidence > 0.3, and then yields the index and middle tips |
| HandPose.IsFistMatchesHypot | Camera/CameraManager.swift:199-201 | the fist test holds iff the Euclidean distance of the index and middle tips, as `hypot` computes it, is below 0.05 |
| Controller.WholeSeconds | Camera/CameraManager.swift:234-235 | `Int(elapsed)` truncates toward zero: bounded by the interval's whole seconds from below for non-negative, from above for negative intervals |
| Controller.HoldCount | Camera/CameraManager.swift:235 | the published hold count is never negative, at most 2 for a non-negative elapsed time, at least 1 before 2 s, and 0 from 2 s on |
| Controller.Initial | Camera/CameraManager.swift:14-24 | the initial fields satisfy the invariant and no command has been issued |
| Controller.StartCountdown | Camera/CameraManager.swift:71-78 | scheduling a countdown keeps the invariant |
| Controller.Tick | Camera/CameraManager.swift:80-104 | a timer firing keeps the invariant |
| Controller.Fire | Camera/CameraManager.swift:306-322 | the final firing keeps the invariant |
| Controller.FireSpec | Camera/CameraManager.swift:86-103 | the final firing issues exactly one command (photo or video start), unschedules the timer, clears count and purpose, starts recording with duration 0 for a recording countdown, and leaves the lock and debounce state alone |
| Controller.Stop | Camera/CameraManager.swift:107-121 | stopping keeps the invariant |
| Controller.StartDetection | Camera/CameraManager.swift:164-168 | enabling detection keeps the invariant |
| Controller.ShowHold | Camera/CameraManager.swift:235-238 | publishing the hold countdown keeps the invariant |
| Controller.Dispatch | Camera/CameraManager.swift:245-261 | dispatching a confirmed gesture keeps the invariant |
| Controller.Confirm | Camera/CameraManager.swift:240-264 | confirmation always ends in a state satisfying the invariant, with the current gesture and its start time both cleared |
| Controller.Debounce | Camera/CameraManager.swift:229-265 | the debouncer keeps the invariant: current gesture and start time are set or cleared together, so the elapsed-time branch always has a start time |
| Controller.FrameStep | Camera/CameraManager.swift:182-271 | a frame keeps the invariant |
| Controller.Admitted | Camera/CameraManager.swift:183-216 | a frame gets through iff detection is on, a hand was observed, all three tips are confident, and under the lock the tips pass the fist test; what gets through is the frame's classification |
| Controller.AdmittedSpec | Camera/CameraManager.swift:183-216 | a frame reaches the debouncer with gesture g iff detection is on, a hand was observed, all tips are confident, it classifies as g, and g is a fist whenever the lock is set |
| Controller.UngatedFrameChangesNothing | Camera/CameraManager.swift:183-216 | with detection off, no observation, a missing tip or a tip of confidence ≤ 0.3, every field is unchanged |
| Controller.LockedNonFistChangesNothing | Camera/CameraManager.swift:192-206 | under the lock a confident frame whose tips are at least 0.05 apart changes nothing |
| Controller.SwitchRestartsHold | Camera/CameraManager.swift:229-232 | a gesture other than the current one sets it as current with start time now and changes nothing else: no credit, no confirmation, no command |
| Controller.HoldShowsCountdown | Camera/CameraManager.swift:233-239 | a repeat before 2 s publishes a hold count in [1, 2] out of a total of 2 with purpose gestureHold, and changes nothing else |
| Controller.ConfirmDispatches | Camera/CameraManager.swift:240-264 | a repeat at 2 s or later clears the debounce state; a fist stops the countdown and recording (stop command only if recording) and unlocks; a peace sign locks and schedules a photo countdown of 5 out of 5; a palm locks and schedules a recording countdown of 3 out of 3 |
| Controller.OnlyConfirmationDispatches | Camera/CameraManager.swift:229-265 | a frame that does not confirm leaves lock, countdown, recording and command log unchanged |
| Controller.NoImmediateReconfirm | Camera/CameraManager.swift:262-263 | the frame after a confirmation cannot confirm; it at most starts a fresh hold |
| Controller.FrameIssuesNoCapture | Camera/CameraManager.swift:229-265 | a frame never takes a photo or starts a video; its only possible command is stopping an active recording |
| Traces.Apply | Camera/CameraManager.swift:107-126 | every event (frame, timer firing, stop button, capture button, detection start) keeps the invariant |
| Traces.RunKeepsInv | Camera/CameraManager.swift:182-271 | every run of events from a valid state ends in a valid state |
| Traces.RunExtendsLog | Camera/CameraManager.swift:80-121 | the command log of a run extends the initial log: no command is ever withdrawn |
| Traces.IdleTicksChangeNothing | Camera/CameraManager.swift:80-81 | with no countdown scheduled, any number of firings change nothing |
| Traces.CountdownActsOnce | Camera/CameraManager.swift:80-104 | a scheduled countdown decrements once per firing while above 1; after n firings it has acted exactly once (one command) if n reached the count, not at all before; it never touches the lock or debounce state |
| Traces.StopCancels | Camera/CameraManager.swift:107-121 | after a stop nothing is scheduled or recording, no number of firings issues a command, and a stop command was issued iff a video was recording |
| Traces.StartReplacesCountdown | Camera/CameraManager.swift:297-306 | starting a countdown replaces whatever was scheduled: only the new kind's command is ever issued, after the new count |
| Traces.SampleFramesClassify | Camera/CameraManager.swift:215-227 | the sample peace, palm and fist frames pass the gate and classify as named |
| Traces.PeaceHeldTakesOnePhoto | Camera/CameraManager.swift:250-253 | a peace sign held 2 s arms a 5-second photo countdown and locks; 4 firings issue nothing, the 5th takes exactly one photo, and the lock stays set |
| Traces.SwitchBeforeDwellNeverCommits | Camera/CameraManager.swift:230-240 | peace for 1.5 s then palm for 1.9 s confirms neither: no countdown, no lock, no command |
| Traces.LockOutlivesPhoto | Camera/CameraManager.swift:245-263 | after the photo the lock stays set, a second held peace sign changes nothing, and a held fist unlocks |
| Traces.PalmRecordsFistStops | Camera/CameraManager.swift:245-258 | a palm held 2 s starts a video on the 3rd firing; a fist held 2 s then stops it and unlocks |
| HoldDisplayFix.FistFrameRewritesCountdown | Camera/CameraManager.swift:233-238 | as written, one fist frame under the lock rewrites a scheduled photo count of 4 to 1, so the next firing takes the photo |
| HoldDisplayFix.FistDuringCountdownTakesPhoto | Camera/CameraManager.swift:233-240 | as written, holding a fist to cancel a 5-second photo countdown makes its third firing take the photo, before the fist is confirmed |
| HoldDisplayFix.DebounceFixed | Camera/CameraManager.swift:229-265 | the corrected debouncer keeps the invariant |
| HoldDisplayFix.FrameStepFixed | Camera/CameraManager.swift:182-271 | the corrected frame step keeps the invariant |
| HoldDisplayFix.FixedFrameKeepsCountdown | Camera/CameraManager.swift:233-261 | corrected: under the lock a frame either leaves a scheduled countdown and the log exactly as they were, or cancels it and unlocks with at most a stop command |
| HoldDisplayFix.FixedAgreesWhenIdle | Camera/CameraManager.swift:229-265 | with no countdown scheduled the correction and the code agree on every frame |
| HoldDisplayFix.FixedFistCancelsPhoto | Camera/CameraManager.swift:240-249 | corrected: in the same run the count goes 5, 4, 3, 2 untouched and the confirmed fist cancels it, taking no photo |
| Manager.CameraManager.constructor | Camera/CameraManager.swift:14-24 | the fields start as in the initial state, which is valid |
| Manager.CameraManager.StartRecording | Camera/CameraManager.swift:71-105 | the fields change exactly as in StartCountdown for a recording countdown |
| Manager.CameraManager.CapturePhotoWithDelay | Camera/CameraManager.swift:297-323 | the fields change exactly as in StartCountdown for a photo countdown |
| Manager.CameraManager.TriggerCountdownAndCapture | Camera/CameraManager.swift:124-126 | a 3-second recording countdown is scheduled |
| Manager.CameraManager.StopTimerOrRecording | Camera/CameraManager.swift:107-121 | the fields change exactly as in Stop |
| Manager.CameraManager.Tick | Camera/CameraManager.swift:80-104 | the fields change exactly as in Controller.Tick, for either countdown closure |
| Manager.CameraManager.StartHandDetection | Camera/CameraManager.swift:164-168 | detection is switched on and nothing else changes |
| Manager.CameraManager.OnFrame | Camera/CameraManager.swift:182-271 | the fields change exactly as in FrameStep |

## Left out

- Capture session setup, `startSession`, and the camera input and outputs (Camera/CameraManager.swift:39-69, 157-163): platform I/O.
- The Vision hand-pose request itself (Camera/CameraManager.swift:186-190, 268-270): its result is the `Option<Observation>` parameter.
- Movie file naming, photo capture settings, photo-library authorization and saving, and the recording delegates (Camera/CameraManager.swift:133-155, 171-179, 274-292, 325-328): foreign calls. They appear only as `TakePhoto`, `StartVideo` and `StopVideo` entries in the command log.
- `stopRecordingVideo` asks the movie output whether it is recording. The model uses the controller's own `isRecording` flag for this.
- The `recordingTimer` that adds one to `recordingDuration` each second (Camera/CameraManager.swift:95-100): a trivial tick. Only its reset to 0 is modelled.
- The empty `switchCamera` stub (Camera/CameraManager.swift:129-131).
- Threading:
  - The delegate runs on the session queue. The lock filter reads `gestureLock` there, while the main queue writes it.
  - `DispatchQueue.main.async` hops are deferred in the code.
  - The model runs one serial order of events with every async block run at once. Interleavings between the queues are not modelled.
- `print` logging, the `objectWillChange` publisher and the `[weak self]` guard of the timer closure.
- Floating point:
  - Coordinates, confidences and `hypot` are modelled on exact reals, so rounding is not modelled.
  - Time is exact integer milliseconds.
  - The one-second timer cadence is the order of `Tick` events, not a clock.
- Manager.CameraManager.StartRecording: takes the delay as whole seconds, so `Int(delay)` truncating a fractional `TimeInterval` is not modelled. Both callers pass 3.
- Swift's 64-bit `Int` overflow of `timerCount`, `timerTotal` and `recordingDuration`: unbounded integers, since the values stay small.
- The SwiftUI views (CameraPreviewView, TimerTestView, CircularTimerView, TimerOverlayView, CameraView, SettingsView, ContentView): rendering and floating-point progress, with no decisions.

## Findings

| source | as written | input that shows it | evidently intended | confidence | as-written member | corrected member |
|---|---|---|---|---|---|---|
| Camera/CameraManager.swift:233-238 | Each repeated frame of the held gesture writes the hold countdown into `timerCount`, `timerTotal` and `timerPurpose`. It does so even while a capture countdown is scheduled, and the countdown timer decides when to act by reading that same `timerCount`. Under the lock only fists get through, so holding the cancel gesture sets the count to 2 and then 1. | Peace at 0 ms and 2000 ms. Then a firing, a fist at 3100 ms and 3200 ms, a firing, a fist at 4100 ms, and a firing. The third firing takes the photo. The fist is only confirmed at 5100 ms, when nothing is left to cancel. | A fist held during a countdown should not advance it. The countdown should run its full 5 firings, or be cancelled once the fist is confirmed. | high; not executed | HoldDisplayFix.FistDuringCountdownTakesPhoto | HoldDisplayFix.FixedFrameKeepsCountdown |
