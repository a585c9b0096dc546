# DracoViLoc: a verified model

DracoViLoc finds a drone by ear and camera and points two robot arms at it. This project models the logic that runs
forever between its inputs and outputs and proves what that logic keeps on every run: the streaming audio front ends
and the classifiers behind them, the direction filter, the arm tracker, the recorders, the log pipeline and the remote
control of the agent. `dafny verify dfyconfig.toml` checks everything.

Where the program changes state step by step, the model has a class with the program's fields and methods; each method
is proved against a specification function or against the history of what happened, and the properties are theorems
about those. Clocks, engines, the controller manager, Ruckig, disks, writers and event-loop scheduling are
unconstrained: the theorems hold for all their answers.

| file | what it models |
|---|---|
| `Prelude.dfy` | optional values, bytes, vectors, bounded deques, a few facts about division |
| `Resampling.dfy` | chunked overlap-save resampling at any rate, used by both classifiers |
| `ChannelState.dfy` | windows with 50 % overlap, votes and identity resets of one channel |
| `Hearing.dfy` | what a channel may hear, vote on and publish: stretches of audio, windows, clock readings and the books they are entered in |
| `Classifier.dfy` | the MobileNetV2 node's callbacks, proved against that: which audio leads to which published direction |
| `Gre.dfy` | the GRE node's slots: buffers, track changes and the detector behind a cooldown |
| `BearingGate.dfy` | the gate that holds back jumps of the published direction |
| `Matrix.dfy`, `Ekf.dfy` | the 6x6 Kalman filter, literally and as three numbers |
| `ArmSolve.dfy`, `ArmProtocol.dfy`, `ArmSafety.dfy`, `ArmTracker.dfy` | the search for joint targets; homing, tracking sessions and two-arm coordination as a state machine; what every run keeps; the node's methods |
| `VideoTimeline.dfy`, `ChannelRecorder.dfy` | the video recorder's constant-rate timeline; the per-channel WAV recorder |
| `LineRecorder.dfy`, `Tailer.dfy`, `Terminal.dfy` | from a command's output to the log file, to the supervisor, to rich text |
| `ControlLease.dfy`, `Protocol.dfy` | who may steer the remote agent; its framed messages |

## Where the code and its documentation differ

The model follows the code.

- **Detector isolation** (src/dracoviloc_gre/gre/gre_classifier_node.py:28-38, 316-329). The file header promises that a
  detector forgets everything when its track ends. Inside the reset cooldown the detector is kept, so only the resampling
  buffers are isolated. `Gre.DetectorIsolationCondition` and `Gre.DetectorIsolationOverRuns` give the exact condition,
  `Gre.QuickChangeLeaks` a run that violates the promise.
- **Reach of the filter** (src/dracoviloc_gre/gre/gre_classifier_node.py:119-121). The comment says that an output sample
  depends on about 1470 raw samples on either side. The filter's half-length is 10 * 147 steps of the upsampled grid, which
  is fewer than 19 raw samples (28 for the other classifier). The claim of exact agreement with one continuous call is
  proved either way.
- **Rejected directions in the log** (src/dracoviloc_gre/gre/gre_classifier_node.py:407-410). The log line formats the
  last rejection angle; when the first direction ever offered is invalid there is none, and formatting raises `TypeError`
  (`Gre.Publish` says when, `Gre.ZeroDirectionRaises` gives the zero vector as an instance).
- **Gaps in the video** (src/dracoviloc_recording/src/multimodal_recorder.cpp:189-192, 228-241). The comment says that a
  gap repeats the previous image. The code fills it with copies of the new one
  (`VideoTimeline.GapRepeatsPreviousIff`; `VideoTimeline.GapShowsNext` is an instance).
- **Rejected measurements** (src/dracoviloc_ekf/src/ekf_node.cpp:208, 229). A measurement that a gate rejects has already
  run the prediction, which splits one long prediction into two (`Ekf.RejectionWidens`).
- **Unchecked noise** (src/dracoviloc_ekf/src/ekf_node.cpp:23-24, 210-213, 254-256). The process noise and the measurement
  noise are taken as they come. `Ekf.NoiseCondition` is the exact condition under which the covariance stays positive
  definite. Without measurement noise two accepted measurements that share the time stamp of the first one make mean and
  covariance NaN (`Ekf.ZeroNoiseBreaks`; `Ekf.ZeroNoiseNode` runs a new node into it); no NIS that is NaN exceeds the gate, so everything is accepted and published
  from then on, and only a reacquisition helps (`Ekf.NotANumberStays`).
- **Homing not required** (src/dracoviloc_tracking/src/arm_tracker.cpp:445-459, 570-619). With `require_home` off, a
  session may begin while a home request is pending, and its fixed pose then changes in mid-session
  (`ArmSafety.PoseChangesMidSession`; `ArmSafety.PoseChangesOnlyAtHome` says exactly when a pose changes).
- **Failed switches** (src/dracoviloc_tracking/src/arm_tracker.cpp:318-343). The node takes a switch that timed out for one
  that did not happen. If it does take effect, commands go to the wrong controller: `ArmSafety.LateSwitchMisdirects` is
  such a run, `ArmSafety.OwnershipCondition` the exact condition on a step and `ArmSafety.CommandsReachTheOwnerIff` the
  one on a run.
- **Lines in the panel** (gui/dracoviloc_gui/units.py:279). `splitlines` breaks at nine more characters than the newline
  that ends a record. A progress line with an inner carriage return is therefore delivered as several lines, the later
  ones without a time stamp (`Tailer.LinesComeBackIff`, with the instance `Tailer.InnerReturnSplits`), and the panel's rule to keep only the last redraw
  (gui/dracoviloc_gui/terminal.py:44) never sees such a line whole.
- **Empty colour parameters** (gui/dracoviloc_gui/terminal.py:68). ECMA-48 gives an empty parameter its default value, 0.
  The panel drops it (`Terminal.CodesFollowStandardIff`, `Terminal.EmptyParameterIsDropped`). Often that makes no
  difference: `ESC [ ; m` resets the style either way (`Terminal.EmptyParametersAgree`).
- **Colours with arguments** (gui/dracoviloc_gui/terminal.py:70-86). Only `38;5;n` is taken together. The arguments of a
  background or of an RGB colour are read as codes of their own: `48;5;1` is bold (`Terminal.BackgroundIsBold`) and
  `38;2;0;0;0` resets the style (`Terminal.ForegroundResets`). `Terminal.StylesFollowStandardIff` is the exact condition
  under which a sequence has the effect that the standard gives it on a display of 16 foreground colours and bold.
- **Row notifications** (gui/dracoviloc_gui/terminal.py:124-128). When no row is added, or none is there to be removed,
  the view is told of an empty span whose last row lies before its first (`Terminal.TerminalModel.AppendLines`).
- **Two readers of one log** (gui/dracoviloc_gui/units.py:263, 301). Nothing keeps the two threads from reading the same
  log at once, and a thread calls back only some time after it moved the offset. Once everything is delivered, the
  panel got every byte once and in order exactly if no thread's move of the offset was overtaken by another's and the
  callbacks came in the order of the moves (`Tailer.DeliveredContiguouslyIff`). `Tailer.OverlapSkipsBytes` is a schedule
  that loses bytes for good, `Tailer.LateCallbackReorders` one in which nobody is overtaken and the later bytes come first.
- **Leases after the cleanup** (remote_agent/dracoviloc_agent/server.py:115-140). Nothing in the code ties a handler task to
  the life of its connection. In the model a task may start at any time after its request was read; one that takes the
  lease after the connection's cleanup has ended leaves it to a session that can never return it
  (`ControlLease.LateAcquireRun`, `ControlLease.OrphanedIffLateAcquire`, `ControlLease.OrphanIsForever`). An event loop that runs tasks in the order of
  their creation makes such a late start unlikely, and the model makes no claim about how often it occurs.
- **Who controls, as the clients see it** (remote_agent/dracoviloc_agent/server.py:79-107). Broadcasts are not ordered
  among each other, and a client is told who controls before it is registered for broadcasts. Two announcements may
  overtake each other (`ControlLease.OvertakingRun`) and a change may be missed (`ControlLease.MissedChangeRun`), after
  which a client with nothing on its way to it believes what is not true. `ControlLease.ChangeIsLearntIff` is the exact
  condition on a change, `ControlLease.StaysRightIff` the one on a state.

## Model

| member | source | states |
|---|---|---|
| Resampling.StreamingResampler.Push | src/dracoviloc_mobilenetv2/mobilenetv2/processing.py:34-44 | each push returns exactly the output that its samples made final: finalized output of everything fed so far = what was returned before + what is returned now, and less than two blocks stay pending |
| Resampling.ResampleChunks | src/dracoviloc_mobilenetv2/mobilenetv2/processing.py:28-44 | for every way of cutting a stream into chunks, at any rate, the concatenated output equals the first max(0, N/block - 1) hops of resampling the whole stream in one call |
| Resampling.WindowSample | src/dracoviloc_mobilenetv2/mobilenetv2/processing.py:38-41 | the middle third of three converted blocks is sample for sample what the continuous conversion yields at that place, for every filter with the support of resample_poly's |
| Resampling.NextBlock | src/dracoviloc_mobilenetv2/mobilenetv2/processing.py:37-43 | converting history, block and lookahead extends the final output by exactly one hop |
| Resampling.FinalBlocksStable | src/dracoviloc_gre/gre/gre_classifier_node.py:114-126 | samples that arrive after the lookahead never change output that is already final |
| Resampling.RatesInUse | src/dracoviloc_mobilenetv2/mobilenetv2/processing.py:8-12 | the theorem covers 160/441 with blocks 4410 to 1600 and 80/147 with blocks 1470 to 800, and the block counts are max(0, N/4410 - 1) and max(0, N/1470 - 1) |
| ChannelState.ChannelState.Reset | src/dracoviloc_mobilenetv2/mobilenetv2/processing.py:59-64 | a reset forgets all audio, windows and votes and keeps the identity |
| ChannelState.ChannelState.SetIdentity | src/dracoviloc_mobilenetv2/mobilenetv2/processing.py:66-69 | the same identity changes nothing, a different one forgets everything |
| ChannelState.ChannelState.Push | src/dracoviloc_mobilenetv2/mobilenetv2/processing.py:71-74 | the buffer is the resampled stream from the window offset on; only the first start time of a stretch counts |
| ChannelState.ChannelState.NextWindow | src/dracoviloc_mobilenetv2/mobilenetv2/processing.py:75-80 | window w is resampled[8000w..8000w+16000] ending at start + (8000w+16000)/16000, and it is withheld exactly while fewer than 16000 samples are left |
| ChannelState.ChannelState.PushAll | src/dracoviloc_mobilenetv2/mobilenetv2/processing.py:71-80 | a push run to exhaustion yields consecutive windows of the resampled stream and leaves less than one window |
| ChannelState.ChannelState.Vote | src/dracoviloc_mobilenetv2/mobilenetv2/processing.py:82-86 | an answer outside [0, 1] raises and changes nothing; otherwise the decision counts the positive votes among the last vote_window answers |
| ChannelState.WindowsOfChunks | src/dracoviloc_mobilenetv2/mobilenetv2/processing.py:71-80 | for every chunking, K resampled blocks yield exactly 0 windows if K < 10 and (K-10)/5+1 otherwise, and they are windows of the stream resampled in one call |
| ChannelState.WindowsPerBlock | src/dracoviloc_mobilenetv2/mobilenetv2/processing.py:11-14 | the number of complete windows in K hops of 1600 samples is 0 below ten blocks, then one per five blocks |
| ChannelState.WindowsTaken | src/dracoviloc_mobilenetv2/mobilenetv2/processing.py:75-80 | emptying the buffer window by window takes exactly the windows that fit, whatever the chunking |
| ChannelState.UnanimousDecision | src/dracoviloc_mobilenetv2/mobilenetv2/processing.py:82-86 | when all votes are required, a decision is positive exactly if that many answers exist and the last ones are all positive |
| Hearing.Column | src/dracoviloc_mobilenetv2/mobilenetv2/processing.py:17-25 | decoding fails exactly for a message that does not have the declared shape, and a column has one sample per frame |
| Hearing.DriftBound | src/dracoviloc_mobilenetv2/mobilenetv2/classifier_node.py:116-121 | over n+1 contiguous callbacks, audio time and message time drift apart by at most n times the timeout |
| Hearing.VerdictsExtend | src/dracoviloc_mobilenetv2/mobilenetv2/classifier_node.py:130-147 | audio that arrives later does not change the answer to a window that is complete |
| Hearing.ReleasesJustified | src/dracoviloc_mobilenetv2/mobilenetv2/classifier_node.py:141-174 | every direction that a channel's windows publish is the unit direction of that channel's track, rests on enough positive votes for windows of one isolated stretch of that very track, and was fresh by the clock |
| Hearing.EnteredGrows | src/dracoviloc_mobilenetv2/mobilenetv2/classifier_node.py:122-174 | what the visits to all channels do to the node's books never takes back a publication or a clock reading |
| Classifier.Classifier.constructor | src/dracoviloc_mobilenetv2/mobilenetv2/classifier_node.py:32-45 | the node keeps the configuration it is given and starts with nothing: no tracks, no audio stamp, no stretch, no publication, no counted window or drop, channels without identity that share no state |
| Classifier.Classifier.SstCallback | src/dracoviloc_mobilenetv2/mobilenetv2/classifier_node.py:84-87 | a track message gives every channel its new identity and ends the stretch of exactly those channels whose identity changed |
| Classifier.Classifier.ResetAudio | src/dracoviloc_mobilenetv2/mobilenetv2/classifier_node.py:89-92 | every channel forgets its stretch and its votes and keeps its identity, and no audio stamp is remembered |
| Classifier.Classifier.Drop | src/dracoviloc_mobilenetv2/mobilenetv2/classifier_node.py:110-114 | a message that is malformed or untimely counts as one drop and makes every channel forget |
| Classifier.Classifier.Accept | src/dracoviloc_mobilenetv2/mobilenetv2/classifier_node.py:116-121 | a message whose stamp does not continue the last one within the timeout makes every channel forget, and its stamp is remembered |
| Classifier.Classifier.AudioCallback | src/dracoviloc_mobilenetv2/mobilenetv2/classifier_node.py:102-139 | by the clock's one reading a message is dropped or every channel is visited; the visits fix, channel by channel, the stretch that is left, the windows voted on, the clock readings, the gate, the drops and every publication; publications only grow and all of them are justified; the node ends in an exception exactly if a visit ended at an answer that is no probability; otherwise every channel holds the samples of one stretch of consecutive accepted callbacks under one identity, contiguous and fresh unless always_classify is set |
| Classifier.Classifier.ClassifyAll | src/dracoviloc_mobilenetv2/mobilenetv2/classifier_node.py:122-139 | the loop visits the channels in order, each with its own column, until all are done or one visit ends in the exception; the books are those after exactly these visits |
| Classifier.Classifier.ClassifyChannel | src/dracoviloc_mobilenetv2/mobilenetv2/classifier_node.py:123-139 | a channel that is not fresh forgets its stretch and publishes nothing; otherwise its stretch, or nothing if the identity changed, grows by this callback, its complete windows are voted on, and it fails exactly if an answer is no probability |
| Classifier.Classifier.Hear | src/dracoviloc_mobilenetv2/mobilenetv2/classifier_node.py:130 | one more callback extends a stretch without changing the votes already cast on it |
| Classifier.Classifier.IdentifyChannel | src/dracoviloc_mobilenetv2/mobilenetv2/classifier_node.py:124 | the channel hears under the new identity, with its old stretch exactly if the identity did not change |
| Classifier.Classifier.ClassifyWindows | src/dracoviloc_mobilenetv2/mobilenetv2/classifier_node.py:130-139 | every complete window is voted on, in order, until none is left, or one was too old or from the future by the clock, which counts a drop and ends the stretch, or its answer was no probability; what is published is what exactly these windows release |
| Classifier.Classifier.ClassifyNext | src/dracoviloc_mobilenetv2/mobilenetv2/classifier_node.py:130-139 | one window is too old or from the future by the clock's reading, or is voted on; the books record exactly that |
| Classifier.Classifier.ClassifyWindow | src/dracoviloc_mobilenetv2/mobilenetv2/classifier_node.py:139-174 | one direction, the unit direction of the track, is published if and only if the votes of this stretch suffice, the identity still holds, the track is fresh and the window not too old by the clock's readings, and the gate opens; it fails if and only if the answer is no probability, and then nothing is published |
| Classifier.Classifier.VoteOn | src/dracoviloc_mobilenetv2/mobilenetv2/classifier_node.py:137-140 | the votes of a stretch are the engine's answers to its windows in order; there is no decision exactly if the answer is no probability, and otherwise it is whether enough of the last votes are positive |
| Classifier.Classifier.Approve | src/dracoviloc_mobilenetv2/mobilenetv2/classifier_node.py:151-166 | the clock is read once per check until one fails; the track's direction over its length is released exactly if all pass and the gate, asked once, opens |
| Gre.GreSlot.ResetChannel | src/dracoviloc_gre/gre/gre_classifier_node.py:316-329 | the buffers are always cleared, the detector only outside the cooldown |
| Gre.GreSlot.Hear | src/dracoviloc_gre/gre/gre_classifier_node.py:348-390 | one callback resets on a lost or different track, feeds the slot's column, and hands the detector exactly the audio that became final in this visit |
| Gre.NewAudioFinal | src/dracoviloc_gre/gre/gre_classifier_node.py:362-380 | what is handed over is what was missing from the final output of the visit |
| Gre.BuffersAreIsolated | src/dracoviloc_gre/gre/gre_classifier_node.py:316-381 | on every run, the resampling buffers hold only audio of the present visit of one track, and the audio handed over in a visit is the final resampling of that visit's samples alone |
| Gre.DetectorIsolationCondition | src/dracoviloc_gre/gre/gre_classifier_node.py:28-38 | the promise that a detector carries nothing of an earlier track survives a callback if and only if the callback does not forget a track inside the cooldown that the detector has heard |
| Gre.DetectorIsolationOverRuns | src/dracoviloc_gre/gre/gre_classifier_node.py:316-329 | over a whole run the promise holds throughout if and only if every callback met that condition |
| Gre.QuickChangeLeaks | src/dracoviloc_gre/gre/gre_classifier_node.py:322-323 | three tracks within the cooldown, each with audio: the third inherits what the second left in the detector |
| Gre.Publish | src/dracoviloc_gre/gre/gre_classifier_node.py:401-411 | a detection is published exactly if the gate lets it through; the log line of one held back raises exactly if the direction is invalid and no rejection angle is remembered |
| Gre.ZeroDirectionRaises | src/dracoviloc_gre/gre/gre_classifier_node.py:401-411 | offering a new gate the zero vector raises |
| BearingGate.NormalizeIsUnit | src/dracoviloc_mobilenetv2/mobilenetv2/processing.py:116-121 | a direction that passes normalization is a unit vector along the one that was given |
| BearingGate.BearingGate.Accept | src/dracoviloc_mobilenetv2/mobilenetv2/processing.py:127-166 | the method refines the gate's decision function; a valid direction held back leaves its angle to the anchor, a published one clears it, an invalid one changes nothing |
| BearingGate.StreakStep | src/dracoviloc_mobilenetv2/mobilenetv2/processing.py:152-166 | every call keeps the pending challengers beyond max_jump of the anchor and inside the cone of the first of them |
| BearingGate.PendingChallengers | src/dracoviloc_mobilenetv2/mobilenetv2/processing.py:127-166 | on every run, the pending count is the length of a run of last valid candidates that challenge one unchanged anchor |
| BearingGate.RetargetIsConfirmed | src/dracoviloc_mobilenetv2/mobilenetv2/processing.py:152-164 | a retarget means that the last confirm valid candidates were all beyond max_jump of one unchanged anchor and all within 15 degrees of the first |
| BearingGate.ChallengerCountBounded | src/dracoviloc_mobilenetv2/mobilenetv2/processing.py:152-166 | between calls 0 <= reject_count < confirm, and it is positive exactly while a rejected direction is remembered |
| BearingGate.PersistentDirectionPublishes | src/dracoviloc_mobilenetv2/mobilenetv2/processing.py:127-166 | from every state, at any times, confirm calls with the same valid direction publish at least one of them, fewer if it already agrees with the pending ones |
| BearingGate.DisagreementStartsOver | src/dracoviloc_mobilenetv2/mobilenetv2/processing.py:153-158 | a challenger outside the cone never confirms and starts the count again |
| BearingGate.AnchorBisects | src/dracoviloc_mobilenetv2/mobilenetv2/processing.py:143-151 | after a small step the anchor is the unit bisector: equally close to the old anchor and the candidate, and no further from either than they were from each other |
| Matrix.LiftMul | src/dracoviloc_ekf/src/ekf_node.cpp:145-146 | block-scalar matrices multiply like their small counterparts, for all sizes |
| Matrix.LiftApply | src/dracoviloc_ekf/src/ekf_node.cpp:146 | a block-scalar matrix acts on every axis alike |
| Matrix.LiftInverse | src/dracoviloc_ekf/src/ekf_node.cpp:211-213 | the determinant of s times the identity is the cube of s, so it is zero exactly if s is; otherwise the cofactor inverse is 1/s times the identity |
| Matrix.LiftInvertibleIff | src/dracoviloc_ekf/src/ekf_node.cpp:211-213 | a matrix that times s I gives the identity exists if and only if s is not zero |
| Ekf.PredictRefines | src/dracoviloc_ekf/src/ekf_node.cpp:141-150 | F P F^T + I q dt on the block form [[aI,bI],[bI,cI]] keeps the form, with three scalars in place of 36 entries |
| Ekf.InnovationRefines | src/dracoviloc_ekf/src/ekf_node.cpp:209-211 | the innovation covariance is (a + r) I |
| Ekf.GainRefines | src/dracoviloc_ekf/src/ekf_node.cpp:254 | the gain is a/(a+r) on every position axis and b/(a+r) on every velocity axis |
| Ekf.CorrectRefines | src/dracoviloc_ekf/src/ekf_node.cpp:254-255 | (I - K H) P keeps the block form |
| Ekf.NisIs | src/dracoviloc_ekf/src/ekf_node.cpp:211-213 | the innovation covariance is invertible when a + r is not zero, and the normalized innovation squared is its squared length over a + r |
| Ekf.PredictXIs | src/dracoviloc_ekf/src/ekf_node.cpp:146 | position moves by velocity times dt on every axis, velocity stays |
| Ekf.InnovationIs | src/dracoviloc_ekf/src/ekf_node.cpp:212 | the innovation is measurement minus position, axis by axis |
| Ekf.CorrectXIs | src/dracoviloc_ekf/src/ekf_node.cpp:254 | the correction moves position and velocity of each axis along that axis' innovation only |
| Ekf.CorrectedMean | src/dracoviloc_ekf/src/ekf_node.cpp:254-256 | each position component is pulled towards the measurement by a factor strictly between 0 and 1, then the position is normalized |
| Ekf.PositiveDefiniteIff | src/dracoviloc_ekf/src/ekf_node.cpp:86 | vT P v > 0 for every six-vector v that is not all zero if and only if a > 0 and a c - b^2 > 0 |
| Ekf.PredictHealthy | src/dracoviloc_ekf/src/ekf_node.cpp:141-150 | prediction keeps a, c and a c - b^2 positive and b >= 0, and lowers none of a, b, c |
| Ekf.CorrectHealthy | src/dracoviloc_ekf/src/ekf_node.cpp:254-255 | an accepted measurement makes the position variance a r/(a + r), strictly below both a and r, and keeps a, c and a c - b^2 positive |
| Ekf.StepHealthy | src/dracoviloc_ekf/src/ekf_node.cpp:151-266 | every outcome of a measurement keeps a, c and a c - b^2 positive and the innovation covariance invertible; a rejected one lowers nothing |
| Ekf.HealthyOverRuns | src/dracoviloc_ekf/src/ekf_node.cpp:141-266 | with process noise >= 0 and measurement noise > 0, on every run of initializations, predictions, updates, rejections and reacquisitions nothing becomes NaN, the 6x6 covariance is positive definite and every innovation covariance positive |
| Ekf.NoiseCondition | src/dracoviloc_ekf/src/ekf_node.cpp:23-24 | the 6x6 covariance stays free of NaN and positive definite on all runs if and only if the process noise is >= 0 and the measurement noise > 0; the parameters are not validated |
| Ekf.ZeroNoiseBreaks | src/dracoviloc_ekf/src/ekf_node.cpp:210-256 | with no measurement noise, two accepted measurements with the first one's time stamp make the filter NaN |
| Ekf.ZeroNoiseNode | src/dracoviloc_ekf/src/ekf_node.cpp:86-256 | a new node without measurement noise, whatever its NIS gate >= 0 and process noise, that gets one direction three times with one time stamp and is not held up by the other gates initializes, accepts twice and is NaN |
| Ekf.NotANumberStays | src/dracoviloc_ekf/src/ekf_node.cpp:211-256 | and so it stays on every run without a reacquisition |
| Ekf.FilterClock | src/dracoviloc_ekf/src/ekf_node.cpp:143-149 | the filter clock never goes back, and the time predicted over is at most the time passed, with equality exactly if no forward gap exceeds 0.5 s |
| Ekf.RejectionWidens | src/dracoviloc_ekf/src/ekf_node.cpp:208-253 | a rejected measurement splits a prediction in two, which adds q d e^2 and q d e to a and b; exactly when it makes no difference |
| Ekf.DirectionEkf.constructor | src/dracoviloc_ekf/src/ekf_node.cpp:86 | the node starts at zero mean with half the identity |
| Ekf.DirectionEkf.Predict | src/dracoviloc_ekf/src/ekf_node.cpp:141-150 | the matrix code refines the scalar prediction with dt clamped to [0, 0.5] |
| Ekf.DirectionEkf.StartOver | src/dracoviloc_ekf/src/ekf_node.cpp:231-247 | reacquisition restarts mean and covariance, clears the output history and keeps the clock monotone |
| Ekf.DirectionEkf.Correct | src/dracoviloc_ekf/src/ekf_node.cpp:249-256 | for any noise, a measurement is rejected exactly if its NIS is a number above the gate, and then changes nothing; an accepted one corrects mean and covariance, or makes them NaN exactly if the innovation covariance is singular or they were NaN before |
| Ekf.DirectionEkf.Update | src/dracoviloc_ekf/src/ekf_node.cpp:151-266 | one measurement ends as the gates and the NIS decide, for any noise, with the mean, covariance, clock and published history that this outcome has in the run model |
| Ekf.DirectionEkf.Publish | src/dracoviloc_ekf/src/ekf_node.cpp:267-283 | the output is the normalized average of the last output_average_window estimates since the last start |
| ArmSolve.ConfigureFixedPose | src/dracoviloc_tracking/src/arm_tracker.cpp:630-644 | the table loop ends with 158 samples from -pi/2 on, one step apart and all in range, with the normals of the fixed pose |
| ArmSolve.Refine | src/dracoviloc_tracking/src/arm_tracker.cpp:684-695 | the ternary search stays in its interval for every cost, and for a unimodal one ends within half the interval times (2/3)^16 of the minimum |
| ArmSolve.BestSampleNearMinimum | src/dracoviloc_tracking/src/arm_tracker.cpp:674-682 | for a unimodal cost, the best sample lies within one table step of the minimum |
| ArmSolve.RefinedNearMinimum | src/dracoviloc_tracking/src/arm_tracker.cpp:684-695 | so the refined joint 4 lies within 0.025 (2/3)^16 of the minimum |
| ArmSolve.FindBestSample | src/dracoviloc_tracking/src/arm_tracker.cpp:674-682 | the lookup loop finds a sample of least cost, with its joints |
| ArmSolve.Solve | src/dracoviloc_tracking/src/arm_tracker.cpp:646-700 | joint 4 in [-pi/2, pi/2], joint 1 within its limit, the other joints those of the fixed pose, a cost no greater than any sample's, and near-optimal if the cost is unimodal |
| ArmSafety.StepKeepsSession | src/dracoviloc_tracking/src/arm_tracker.cpp:379-460 | in every state outside Trajectory joints are known, home is reached and not requested if required, and targets stay in range |
| ArmSafety.PoseChangesOnlyAtHome | src/dracoviloc_tracking/src/arm_tracker.cpp:570-619 | outside Trajectory a fixed pose changes exactly when a complete joint report finds a pending home request fulfilled |
| ArmSafety.NextKeepsPose | src/dracoviloc_tracking/src/arm_tracker.cpp:838-865 | every servo command of a session has joints 2, 3, 5 and 6 of the pose the session began with, if homing is required |
| ArmSafety.Arm2FollowsLock | src/dracoviloc_tracking/src/arm_tracker.cpp:799-836 | Arm 2's target is solved again only with a usable target and, under first_arm_lead, only if some tick since the target was last lost had Arm 1 within tolerance and every tick since then was usable |
| ArmSafety.TrackedDirectionIsFresh | src/dracoviloc_tracking/src/arm_tracker.cpp:749-751 | a tick works towards a direction only if one was heard in this session within the timeout |
| ArmSafety.StepStage | src/dracoviloc_tracking/src/arm_tracker.cpp:318-905 | the outputs of every step take an observer from what it knew before the step to what the node knows after it; strictly so unless a command is sent from a state in which the joints have another owner |
| ArmSafety.TrackerRuns | src/dracoviloc_tracking/src/arm_tracker.cpp:379-905 | on every run, whatever the environment does: sessions, poses, Arm 2's lock, direction freshness, and control states that only cycle Trajectory, Tracking, Stopping |
| ArmSafety.CommandsReachTheOwner | src/dracoviloc_tracking/src/arm_tracker.cpp:318-343 | if no switch takes effect after the node gave up on it, home trajectories are sent only while the trajectory controller owns the joints and servo commands only while the tracking controller does |
| ArmSafety.CommandsReachTheOwnerIff | src/dracoviloc_tracking/src/arm_tracker.cpp:318-343 | over every run from the initial state, all home trajectories and servo commands go to the owner of the joints if and only if none is sent from a state that a late switch has left with another owner |
| ArmSafety.OwnershipCondition | src/dracoviloc_tracking/src/arm_tracker.cpp:318-343 | a step loses track of the owner if and only if it attempts a switch that times out and takes effect |
| ArmSafety.LateSwitchMisdirects | src/dracoviloc_tracking/src/arm_tracker.cpp:318-343 | under every configuration: the node homes, gives up on the switch to the tracking controller, the switch takes effect, and the next home trajectory goes out while the tracking controller owns the joints |
| ArmSafety.ResetBetweenStarts | src/dracoviloc_tracking/src/arm_tracker.cpp:867-875 | between two arm2_started events there is always a reset |
| ArmSafety.PoseChangesMidSession | src/dracoviloc_tracking/src/arm_tracker.cpp:445-459 | with the homing requirement off, a concrete run in which the pose changes during a session |
| ArmTracker.ArmTracker.JointCallback | src/dracoviloc_tracking/src/arm_tracker.cpp:570-619 | the callback refines its step: an incomplete message changes nothing, a pending home request ends within tolerance |
| ArmTracker.ArmTracker.RequestHome | src/dracoviloc_tracking/src/arm_tracker.cpp:379-422 | a home trajectory is sent exactly when the service reports success |
| ArmTracker.ArmTracker.SwitchControllers | src/dracoviloc_tracking/src/arm_tracker.cpp:318-343 | the joints change hands exactly if the controller manager switches, whatever the node learns of it |
| ArmTracker.ArmTracker.StartTracking | src/dracoviloc_tracking/src/arm_tracker.cpp:424-512 | tracking begins exactly if every condition is met and the switch is reported done |
| ArmTracker.ArmTracker.StopTracking | src/dracoviloc_tracking/src/arm_tracker.cpp:460-481 | a stop brings the arms to rest and forgets the target |
| ArmTracker.ArmTracker.DirectionCallback | src/dracoviloc_tracking/src/arm_tracker.cpp:544-554 | a direction is taken up or blended with the present one |
| ArmTracker.ArmTracker.ValidCallback | src/dracoviloc_tracking/src/arm_tracker.cpp:150-155 | the operator's veto follows the message |
| ArmTracker.ArmTracker.CheckTrackingError | src/dracoviloc_tracking/src/arm_tracker.cpp:758-779 | an arm that falls behind Ruckig stops the session |
| ArmTracker.ArmTracker.CoordinateArm2 | src/dracoviloc_tracking/src/arm_tracker.cpp:799-828 | Arm 2 takes a solved target only as the policy allows |
| ArmTracker.ArmTracker.SetTargets | src/dracoviloc_tracking/src/arm_tracker.cpp:784-836 | targets are solved in range for the fixed poses, or the arms are brought to rest |
| ArmTracker.ArmTracker.DriveArms | src/dracoviloc_tracking/src/arm_tracker.cpp:838-876 | one Ruckig cycle per arm and one command that freezes the fixed joints |
| ArmTracker.ArmTracker.FinishStop | src/dracoviloc_tracking/src/arm_tracker.cpp:713-729 | the joints are handed back only after both arms came to rest |
| ArmTracker.ArmTracker.Update | src/dracoviloc_tracking/src/arm_tracker.cpp:731-905 | the timer callback refines the tick of the state machine with a solver that keeps its promise |
| VideoTimeline.HighestIsMaximum | src/dracoviloc_recording/src/multimodal_recorder.cpp:199 | the highest slot is the maximum over all processed frames of floor((t - t0) fps + 1/2) |
| VideoTimeline.Extend | src/dracoviloc_recording/src/multimodal_recorder.cpp:228-241 | appending the due copies of a frame keeps every slot showing the first arrival at or past it, and the length 1 + the highest slot |
| VideoTimeline.TimelineIsUnique | src/dracoviloc_recording/src/multimodal_recorder.cpp:193-241 | the arrivals decide the whole timeline, in any order and with any gaps |
| VideoTimeline.DurationBound | src/dracoviloc_recording/src/multimodal_recorder.cpp:189-199 | before closing, the video is more than 0.5 and at most 1.5 frame periods longer than the span of the stamps |
| VideoTimeline.StaleFramesChangeNothing | src/dracoviloc_recording/src/multimodal_recorder.cpp:200-202 | a frame leaves the timeline as it was exactly if its slot is already filled |
| VideoTimeline.GapRepeatsPreviousIff | src/dracoviloc_recording/src/multimodal_recorder.cpp:189-192 | a gap shows the previous image, as the comment says, if and only if the new frame equals it |
| VideoTimeline.GapShowsNext | src/dracoviloc_recording/src/multimodal_recorder.cpp:228-241 | two different images two seconds apart at one frame per second: the slot between them shows the second |
| VideoTimeline.VideoRecorder.FramesDue | src/dracoviloc_recording/src/multimodal_recorder.cpp:193-208 | the number of copies due, or the exception if more than an hour of frames would be |
| VideoTimeline.VideoRecorder.WriteCopies | src/dracoviloc_recording/src/multimodal_recorder.cpp:355-360 | the write loop adds copies of one frame and stops at the first that FFmpeg does not take |
| VideoTimeline.VideoRecorder.Record | src/dracoviloc_recording/src/multimodal_recorder.cpp:313-371 | while nothing fails, FFmpeg has been given the one timeline of all arrivals, and frames = frames placed + frames repeated; it fails exactly on an unusable frame, a failed start or write, or too long a jump |
| VideoTimeline.VideoRecorder.Close | src/dracoviloc_recording/src/multimodal_recorder.cpp:476-498 | padding holds the last frame until now, within half a frame of the time since the first, and keeps the count |
| ChannelRecorder.ScaledSaturates | src/dracoviloc_recording/src/sss_channel_recorder.cpp:135-140 | scaling saturates at the ends of the int16 range and otherwise loses less than one step, towards zero |
| ChannelRecorder.ScaledMonotone | src/dracoviloc_recording/src/sss_channel_recorder.cpp:135-140 | scaling never turns a louder sample into a quieter one |
| ChannelRecorder.ChannelOfConcat | src/dracoviloc_recording/src/sss_channel_recorder.cpp:134-148 | splitting frame by frame is splitting the whole stream |
| ChannelRecorder.InterleavingRestores | src/dracoviloc_recording/src/sss_channel_recorder.cpp:134-148 | at gain 1 the channel files interleaved again are the original stream |
| ChannelRecorder.Recorder.Deinterleave | src/dracoviloc_recording/src/sss_channel_recorder.cpp:134-145 | the scratch buffer holds every channels-th sample starting at c, scaled and saturated |
| ChannelRecorder.Recorder.WriteFrame | src/dracoviloc_recording/src/sss_channel_recorder.cpp:134-151 | every channel gets its share of the frame, or a write fails: the channels before it have the whole share, it has a part, the others nothing |
| ChannelRecorder.Recorder.Begin | src/dracoviloc_recording/src/sss_channel_recorder.cpp:78-104 | the first usable frame fixes the shape of the recording and creates empty channels |
| ChannelRecorder.Recorder.RecordAudio | src/dracoviloc_recording/src/sss_channel_recorder.cpp:112-158 | a frame is rejected exactly if its format, shape or payload does not fit, and then every channel stops at the same sample; otherwise each channel continues its share of the stream |
| ChannelRecorder.Recorder.RecordingRestores | src/dracoviloc_recording/src/sss_channel_recorder.cpp:112-158 | while nothing failed, all files have audio_samples samples and at gain 1 interleave to everything that was accepted |
| ChannelRecorder.BrokenChannelsAgreeIff | src/dracoviloc_recording/src/sss_channel_recorder.cpp:146-150 | after a failed write the channels have equal lengths if and only if there is one channel, or the first one kept nothing, or the last one kept everything |
| ChannelRecorder.WriteLittleEndian | src/dracoviloc_recording/src/sss_channel_recorder.cpp:70-76 | the loop of shifts writes the low-order bytes, lowest first |
| ChannelRecorder.LittleEndianRoundTrip | src/dracoviloc_recording/src/sss_channel_recorder.cpp:70-76 | reading the bytes back gives the value modulo 256 to the number of bytes |
| ChannelRecorder.HeaderReadsBack | src/dracoviloc_recording/src/sss_channel_recorder.cpp:167-189 | the header fills the 44 placeholder bytes exactly; rate, byte rate (modulo 2^32) and sizes read back, and the sample count is right if and only if it fits in 2^32 - 37 bytes |
| ChannelRecorder.Recorder.CloseAudio | src/dracoviloc_recording/src/sss_channel_recorder.cpp:160-191 | every channel that still takes writes gets a header for its own length; a channel in error keeps the placeholder |
| LineRecorder.LinesConcat | gui/dracoviloc_gui/logged_exec.py:69-70 | splitting a stream in steps, carrying the rest over, is splitting it at once |
| LineRecorder.LinesRejoin | gui/dracoviloc_gui/logged_exec.py:70 | splitting loses no byte |
| LineRecorder.RecordedConserves | gui/dracoviloc_gui/logged_exec.py:66-91 | for every chunking and every timing of flushes, written texts and pending bytes hold all bytes but CR and LF once and in order; with no partial flush the texts are exactly the newline-split output without trailing CRs |
| LineRecorder.FileReadsBack | gui/dracoviloc_gui/logged_exec.py:85-86 | the log file split at newlines is the list of stamped entries, if no marker spans lines |
| LineRecorder.Recorder.WriteLine | gui/dracoviloc_gui/logged_exec.py:85-86 | one stamped line is appended, its trailing CRs stripped |
| LineRecorder.Recorder.Feed | gui/dracoviloc_gui/logged_exec.py:66-74 | complete lines are written, the rest is pending and shorter than 4096 bytes, or was flushed exactly if it was not; the age of the rest counts from the feed that found nothing pending |
| LineRecorder.Recorder.Tick | gui/dracoviloc_gui/logged_exec.py:76-78 | a flush happens exactly if something is pending and 0.5 s old |
| LineRecorder.Recorder.FlushPartial | gui/dracoviloc_gui/logged_exec.py:80-83 | a flush acts like a newline in the output, and only if something is pending |
| LineRecorder.Recorder.Marker | gui/dracoviloc_gui/logged_exec.py:63-64 | a marker is one more entry between dashes; it changes neither the command's lines nor what is pending |
| LineRecorder.Recorder.Close | gui/dracoviloc_gui/logged_exec.py:88-91 | at the end the texts hold every visible byte of the output |
| Tailer.SplitLinesConcat | gui/dracoviloc_gui/units.py:279 | text that ends with a newline can be split into lines on its own |
| Tailer.Complete | gui/dracoviloc_gui/units.py:275 | the part up to the last newline ends a record, and no newline follows it |
| Tailer.Managed.ReadNewLines | gui/dracoviloc_gui/units.py:266-281 | whatever the moments of the reads, the lines delivered so far are exactly those of the log from the start to the last newline seen: each complete byte range once and in order |
| Tailer.LinesComeBackIff | gui/dracoviloc_gui/units.py:279 | logged lines are delivered one for one if and only if none holds a character at which splitlines breaks |
| Tailer.InnerReturnSplits | gui/dracoviloc_gui/units.py:279 | the logged line `a CR b` is delivered as two lines |
| Tailer.EntriesAreDeliveredIff | gui/dracoviloc_gui/units.py:275-281 | from log wrapper to callback: a whole log is delivered entry by entry if and only if no decoded entry holds such a character |
| Tailer.MovedContiguously | gui/dracoviloc_gui/units.py:271-278 | over every schedule of the threads' steps, the ranges in the order in which the offset was moved past them follow one another up to the offset if no move by another thread lies between a thread's read and its own move, and otherwise some byte is in two of them |
| Tailer.DeliveredContiguouslyIff | gui/dracoviloc_gui/units.py:266-281 | over every schedule of reads, loads, stores and callbacks after which nothing is left to deliver, the delivered ranges follow one another from the start to the offset if and only if nobody was overtaken and the callbacks came in the order of the stores |
| Tailer.OverlapSkipsBytes | gui/dracoviloc_gui/units.py:263-301 | two overlapping reads of the same bytes deliver them twice and skip as many that follow |
| Tailer.LateCallbackReorders | gui/dracoviloc_gui/units.py:278-281 | one thread moves the offset past the first bytes, another one past the next and calls back first: nobody is overtaken, and the panel gets the later bytes before the earlier ones |
| Terminal.ApplyCodes | gui/dracoviloc_gui/terminal.py:68-86 | the loop over the codes is the fold of the single codes, 38;5;n taking three |
| Terminal.ParseChar | gui/dracoviloc_gui/terminal.py:63 | an escaped character, whatever it is, reads back as itself in the style of the open tags |
| Terminal.StyledMeansRendered | gui/dracoviloc_gui/terminal.py:42-90 | for every text, the rich text is well formed and reads back as every visible character in the style of the sequences before it |
| Terminal.RenderStripped | gui/dracoviloc_gui/terminal.py:38-39 | the characters shown are exactly those that strip_ansi leaves |
| Terminal.StyledRun | gui/dracoviloc_gui/terminal.py:62-64 | text between two matches is escaped as a whole |
| Terminal.AnsiToStyled | gui/dracoviloc_gui/terminal.py:42-90 | the translation preserves meaning for every string: tags nested and closed, each character in the style folded from the preceding codes, and the plain text that of strip_ansi |
| Terminal.LastRedraw | gui/dracoviloc_gui/terminal.py:44 | what follows the last carriage return |
| Terminal.CodesFollowStandardIff | gui/dracoviloc_gui/terminal.py:68 | the codes are those of ECMA-48 if and only if there are no parameters at all or none is empty |
| Terminal.EmptyParameterIsDropped | gui/dracoviloc_gui/terminal.py:68 | `ESC [ ; 3 1 m` on bold text: the standard ends the bold, the panel keeps it |
| Terminal.StylesFollowStandardIff | gui/dracoviloc_gui/terminal.py:66-86 | for every parameter text: the panel's codes act on every style as the standard's reading does, if and only if by both readings the last operation on the colour leaves the same colour and the last one on the weight the same weight |
| Terminal.FoldIs | gui/dracoviloc_gui/terminal.py:70-86 | of a list of codes, only the last operation on the colour and the last one on the weight matter |
| Terminal.PlainCodesAgree | gui/dracoviloc_gui/terminal.py:70-86 | both readings of a list without 38 and 48 are the same |
| Terminal.EmptyParametersAgree | gui/dracoviloc_gui/terminal.py:68 | `ESC [ ; m`: other codes than the standard's, the same effect |
| Terminal.BackgroundIsBold | gui/dracoviloc_gui/terminal.py:70-86 | `ESC [ 48;5;1 m` makes the text bold and should leave it as it is |
| Terminal.ForegroundResets | gui/dracoviloc_gui/terminal.py:70-86 | `ESC [ 38;2;0;0;0 m` resets the style and should leave it as it is |
| Terminal.SplitLineReadsStamp | gui/dracoviloc_gui/terminal.py:30-35 | a line that the log wrapper wrote is taken apart into its time of day and its text |
| Terminal.TerminalModel.AppendLines | gui/dracoviloc_gui/terminal.py:116-130 | the rows are the last 5000 of the old and the new ones, the announced spans add up to the change, and exactly when a span is empty |
| Terminal.LastConcat | gui/dracoviloc_gui/terminal.py:121-129 | dropping old rows call by call keeps the same rows as dropping them at the end |
| Terminal.TerminalModel.Clear | gui/dracoviloc_gui/terminal.py:132-136 | no row is left |
| ControlLease.InvariantStep | remote_agent/dracoviloc_agent/server.py:86-189 | every step of every coroutine keeps the server's invariant: who is registered is serving, broadcasts go to clients that were welcomed, the holder was let in |
| ControlLease.HelloComesFirst | remote_agent/dracoviloc_agent/server.py:96-107 | on every interleaving, a client's wire starts with its hello and its first status, before any broadcast |
| ControlLease.ControlIsFreeInBetween | remote_agent/dracoviloc_agent/server.py:136-146 | control never passes from one session to another without being free in between |
| ControlLease.HowALeaseEnds | remote_agent/dracoviloc_agent/server.py:115-146 | the only two steps that can end a lease: the holder's own release, or the end of a grace sleep of at least five seconds for a holder that went away and still holds it |
| ControlLease.WhenGraceBegins | remote_agent/dracoviloc_agent/server.py:120-121 | the grace sleep begins only for a session that holds the lease when its connection is closed |
| ControlLease.LostLeaseHadGrace | remote_agent/dracoviloc_agent/server.py:115-129 | over every run: if c loses the lease at a step that is not its own release, then c's connection was closed at an earlier step, c held the lease then, and at least five seconds passed in between |
| ControlLease.GraceBeganAtClose | remote_agent/dracoviloc_agent/server.py:120-121 | over every run, whoever is in its grace period had its connection closed at an earlier step, at the time the grace counts from, holding the lease |
| ControlLease.StartsHadControl | remote_agent/dracoviloc_agent/server.py:148-180 | every control command that began did so at a step at which its session held the lease |
| ControlLease.OrphanStep | remote_agent/dracoviloc_agent/server.py:120-138 | a lease is left to a finished connection exactly by a handler that takes it after the connection's cleanup |
| ControlLease.OrphanedIffLateAcquire | remote_agent/dracoviloc_agent/server.py:115-140 | on every interleaving, a lease is orphaned at some point if and only if some handler came that late |
| ControlLease.LateAcquireRun | remote_agent/dracoviloc_agent/server.py:115-140 | a run from the start in which that happens |
| ControlLease.OrphanIsForever | remote_agent/dracoviloc_agent/server.py:136-146 | once orphaned with no release on its way, nobody can ever take control again |
| ControlLease.StaysRightIff | remote_agent/dracoviloc_agent/server.py:79-129 | in every state the server can be in: whatever happens until the controller changes again, every client is right once nothing is on its way to it, if and only if no broadcast on its way to a served client says otherwise and every client that listens knows already or is being told |
| ControlLease.ChangeIsLearntIff | remote_agent/dracoviloc_agent/server.py:79-129 | a change of the controller is bound to be learnt by every client if and only if no client between hello and registration was told otherwise and no broadcast on its way to a served client says otherwise |
| ControlLease.ClientsKnowTheController | remote_agent/dracoviloc_agent/server.py:79-129 | on every run whose changes all meet that condition, every client is and stays right once nothing is on its way to it |
| ControlLease.OlderBroadcastWins | remote_agent/dracoviloc_agent/server.py:79-84 | of two overlapping announcements, a client believes the one delivered last, so it is right exactly if both say the same |
| ControlLease.ChangeBeforeEntryIsMissed | remote_agent/dracoviloc_agent/server.py:96-107 | a change between a client's hello and its registration is never announced to it |
| ControlLease.OvertakingRun | remote_agent/dracoviloc_agent/server.py:79-84 | a run from the start in which two announcements overtake each other and a client ends up wrong with nothing on its way to it |
| ControlLease.MissedChangeRun | remote_agent/dracoviloc_agent/server.py:96-107 | a run of ten steps from the start in which a client misses a change and ends up wrong with nothing on its way to it |
| ControlLease.AgentServer.Welcome | remote_agent/dracoviloc_agent/server.py:96-100 | the hello carries who controls at that moment |
| ControlLease.AgentServer.Add | remote_agent/dracoviloc_agent/server.py:107 | registration is the step that exposes a client to broadcasts |
| ControlLease.AgentServer.Discard | remote_agent/dracoviloc_agent/server.py:116 | a connection that ends gets no new broadcasts |
| ControlLease.AgentServer.CheckHolder | remote_agent/dracoviloc_agent/server.py:120-121 | the cleanup sleeps exactly if the session holds the lease |
| ControlLease.AgentServer.EndGrace | remote_agent/dracoviloc_agent/server.py:122-124 | the lease is cleared and announced exactly if the session still holds it |
| ControlLease.AgentServer.HandleRequest | remote_agent/dracoviloc_agent/server.py:131-184 | the first part of a handler refines its step; a lease is granted if free or one's own, a control command needs the lease, queries and releases are granted, and an unknown command is refused |
| Protocol.BigEndianRoundTrip | remote_agent/dracoviloc_agent/protocol.py:27-32 | the length prefix reads back |
| Protocol.EncodeMessage | remote_agent/dracoviloc_agent/protocol.py:20-27 | a message that is sent fits in 4 + 1 MiB + 8 MiB |
| Protocol.ReadOne | remote_agent/dracoviloc_agent/protocol.py:30-42 | what one read consumes: a message is a proper part of the stream, a cut one uses it up, and nothing makes the reader take more than the limits |
| Protocol.StreamReader.ReadMessage | remote_agent/dracoviloc_agent/protocol.py:30-42 | the reader, step by step, refines that function with all its errors |
| Protocol.ReadFrame | remote_agent/dracoviloc_agent/protocol.py:20-42 | a message in front of anything else is read back with its version and length filled in, and the rest is left alone |
| Protocol.StreamDelivers | remote_agent/dracoviloc_agent/protocol.py:20-42 | any list of messages is delivered exactly, in order, whatever follows |
| Protocol.CutMessageIsIncomplete | remote_agent/dracoviloc_agent/protocol.py:31-42 | every proper prefix of a message is seen as incomplete |
| Protocol.CutStreamDeliversPrefix | remote_agent/dracoviloc_agent/protocol.py:20-42 | a connection cut anywhere delivers a prefix of the messages and then ends as incomplete |
| Protocol.LimitsAgree | remote_agent/dracoviloc_agent/protocol.py:25-41 | the sender refuses exactly the messages that the reader would refuse |
| Protocol.TrueIsOneByte | remote_agent/dracoviloc_agent/protocol.py:39-42 | a body length of JSON true counts as 1, because Python's booleans are integers |

## Left out

- Floating point: sums, products, angles and clocks are real numbers; rounding, NaN and infinities are not modelled, except that a classifier answer may be no finite number and that the filter knows whether its mean and covariance are NaN.
- Filter design: a filter is any function on the upsampled grid that vanishes beyond 10 * DOWN, as the default filter of scipy's resample_poly does.
- Neural networks, feature extractors and TensorRT: an engine is any function from a window to an answer; the GRE detector is the list of audio it was given.
- Time stamps, transforms and parameters of ROS: callbacks get values; TF lookups and frame checks are one yes or no.
- The bearing-continuity gate and the first-arrival gate of the filter: their decisions are inputs, and so is the arc cosine of the bearing gate.
- Trigonometry and kinematics of the arms: the angle between normals, the normal of a pose and the wrapping of angles are functions of the geometry; so is the yaw that a pose needs before it is clamped.
- Ruckig: the next position, the velocity and the status of a cycle are arbitrary; nothing is proved about trajectories.
- The controller manager: a switch succeeds, is refused or times out with or without effect; a switch that takes effect after the time-out does so at once; deactivation of other controllers is not modelled.
- Pixel formats: repacking a raw image row by row, FFmpeg's process and pipe, and the audio, track and metadata streams of the first recorder.
- ChannelRecorder.Recorder.WriteFrame: a failed write keeps a whole number of samples, where a stream may keep half a sample.
- ChannelRecorder.Samples: the payload is read as low byte first, which is how the hosts it runs on do.
- LineRecorder.Recorder.Feed: calls do not overlap, so a marker written by a signal handler in the middle of a feed is not modelled.
- LineRecorder.FileReadsBack: requires that no entry holds a newline, which a marker made from command arguments could.
- Tailer.Managed.ReadNewLines: is about reads that do not overlap on a log that only grows; overlapping ones are modelled by the schedules of Tailer.DeliveredContiguouslyIff, in which no callback raises.
- Reattaching to a running unit: a tailer may start anywhere in a log, so that the supervisor's 256 KiB are one case; its first line may then be the end of one.
- Tailer.EntriesAreDeliveredIff: UTF-8 decoding is a parameter that treats a newline byte as a newline wherever it stands, so that a log decodes line by line.
- Terminal.SplitLineReadsStamp: digits are the ASCII digits, where the pattern takes any Unicode digit.
- Terminal.Number: takes any number of digits, where CPython's int raises ValueError beyond 4300 of them.
- Terminal.StylesFollowStandardIff: colours beyond the first 16, backgrounds and RGB colours have no effect in the reference, since the panel has nothing to show them with.
- Terminal rows: the words that make a row an error or a warning are in the model, but nothing is proved about them.
- Responses to requests, the commands themselves, timeouts of the handshake and the closing of the whole server.
- Protocol.StreamDelivers: the JSON library is a parameter whose reader inverts its writer and rejects the empty text.
- The AST classifier (a copy of the bearing gate with a window buffer of its own), the first-arrival statistics, the monitor, joystick, keyboard and preview nodes, launch files, the GUI around the panels, the SSH client and the exporters.
