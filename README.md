# SitSmartCoach posture pipeline in Dafny

SitSmartCoach watches a webcam. A worker thread (`PostureWorker.run`) turns
each frame's pose landmarks into up to three status lines:
- an elbow-angle line;
- a distance-to-screen line;
- a gaze line.

Each metric is smoothed over the last `SMOOTH_N` = 7 samples. The elbow angle
and the distance use the median of their samples. The gaze uses a majority
vote. The worker hands each frame's lines to a floating popup through a
`queue.Queue`. Before it puts a new item, it drops every item still pending.
The popup's timer (`_pump_queue`) drains the queue and shows the last item it
took.

This project models that core and proves properties of it:

- `signals.dfy` (module `Signals`):
  - the fold step of `calculate_angle`, which maps the absolute atan2
    difference into [0, 180];
  - the pinhole estimate `estimate_distance_cm`, including the 1e-6 guard;
  - the nose-versus-shoulder-centre label `center_gaze_label`, with its 0.03
    deadband.
- `smoothing.dfy` (module `Smoothing`):
  - the sliding window (`append`, then `pop(0)` past `SMOOTH_N`);
  - `np.median`, exactly: for an even count it takes the mean of the two
    middle samples;
  - the majority vote `max(set(g), key=g.count)`.
- `posture.dfy` (module `Posture`):
  - one frame as a pure function `Process` from the three windows and the
    pose result to the new windows and the status lines;
  - the classification thresholds;
  - `Run`, which processes a sequence of frames;
  - the properties of all of these.
- `handoff.dfy` (module `Handoff`):
  - the bounded `queue.Queue` as a class over a `seq`, reduced to the
    non-blocking calls the two threads use: `empty`, `get_nowait` and
    `put_nowait`.
- `worker.dfy` (module `Worker`):
  - `PostureWorker` as a class whose `angles`, `dists` and `gazes` fields are
    updated in place, as in the source;
  - its frame body, proved to agree with `Process`;
  - its drop-oldest push to the queue;
  - `FloatingPopup` with the drain loop of `_pump_queue`.
- `wrappers.dfy` (module `Wrappers`): `Option`.

Floats are modelled as mathematical reals. A pose result is an
`Option<Landmarks>`. `None` stands for a frame where `res.pose_landmarks` is
missing, and the attribute access then raises. `Landmarks` carries the values
the frame body reads:
- the raw difference of the two `arctan2` angles at the left elbow, in
  degrees;
- the pixel distance between the shoulders;
- the normalised x of the nose and of both shoulders.

The text of a status line is replaced by a `Status` value that carries the
smoothed number shown in the text.

The frame's own `except` (lines 229-230) turns any exception raised in the
frame body into the single line "Move into Frame". Only failures outside the
frame body reach the outer handler, which ends the worker.

## Model

| member | source | states |
|---|---|---|
| `Signals.FoldAngle` | SitSmartCoach.py:63-66 | for any difference of two atan2 angles the folded angle lies in [0, 180]; it is the absolute value when that is at most 180, and 360 minus it otherwise |
| `Signals.FoldAngleSymmetric` | SitSmartCoach.py:63-66 | the folded angle does not depend on the sign of the raw difference |
| `Signals.FoldAnglePeriodic` | SitSmartCoach.py:62-66 | for a raw difference in (-360, 0], adding a full turn gives the same folded angle, so either of the two atan2 differences that describe the same geometry folds alike |
| `Signals.FoldAngleIdempotent` | SitSmartCoach.py:63-66 | folding an already folded angle changes nothing |
| `Signals.EstimateDistanceCm` | SitSmartCoach.py:68-78 | the estimate is 0 exactly when the shoulder gap is at most 1e-6 pixels, and positive otherwise |
| `Signals.Pinhole` | SitSmartCoach.py:73-76 | above the guard, estimate times pixel gap equals FOCAL_LENGTH_PX times AVG_SHOULDER_WIDTH_CM (650 * 30) |
| `Signals.DistanceDecreasing` | SitSmartCoach.py:68-78 | a wider shoulder gap gives a strictly smaller, still positive, distance |
| `Signals.CenterGazeLabel` | SitSmartCoach.py:80-90 | Left exactly when the nose is more than 0.03 left of the shoulder centre, Right exactly when more than 0.03 right of it, Center exactly otherwise |
| `Signals.GazeMirror` | SitSmartCoach.py:80-90 | mirroring the image horizontally swaps Left and Right and keeps Center |
| `Signals.GazeExamples` | SitSmartCoach.py:80-90 | offsets 0, +-0.01 give Center; -0.05 gives Left; +0.05 gives Right |
| `Signals.GazeMonotone` | SitSmartCoach.py:80-90 | moving the nose to the right never moves the label towards Left |
| `Smoothing.LastN` | SitSmartCoach.py:184-186 | the last min(length, n) elements of a sequence, in order |
| `Smoothing.Slide` | SitSmartCoach.py:184-186 | a window of at most SMOOTH_N stays within SMOOTH_N after a push, and the pushed sample is its newest element |
| `Smoothing.SlideKeepsNewest` | SitSmartCoach.py:184-186 | append-then-pop(0) keeps exactly the last SMOOTH_N samples of the old window plus the new sample |
| `Smoothing.SlideMembers` | SitSmartCoach.py:184-186 | every sample in the new window was in the old window or is the new sample |
| `Smoothing.Fill` | SitSmartCoach.py:184-186 | pushing samples one by one keeps a window of at most SMOOTH_N within SMOOTH_N; its contents are given by FillKeepsLastSamples |
| `Smoothing.FillKeepsLastSamples` | SitSmartCoach.py:184-186 | pushing any number of samples one by one leaves exactly the last SMOOTH_N of the old window followed by the samples |
| `Smoothing.FillFromEmpty` | SitSmartCoach.py:184-186 | from an empty window, the window holds the last min(k, 7) of the k samples pushed |
| `Smoothing.Insert` | SitSmartCoach.py:187 | insertion adds exactly one element; order and contents are given by InsertSorted |
| `Smoothing.InsertSorted` | SitSmartCoach.py:187 | inserting into a sorted sequence keeps it sorted and adds exactly the new element to its multiset |
| `Smoothing.Sort` | SitSmartCoach.py:187 | the sorted copy has the window's length; order and contents are given by SortSorted |
| `Smoothing.SortSorted` | SitSmartCoach.py:187 | the sorted copy is sorted and a permutation of the window |
| `Smoothing.MiddleOf` | SitSmartCoach.py:187 | the middle of a sorted copy, by stripping the smallest and largest sample; MiddleOfIsMiddle gives its closed form |
| `Smoothing.Median` | SitSmartCoach.py:187 | np.median of the window: MiddleOf of the sorted copy; its meaning is given by MiddleOfIsMiddle, MedianBounds and MedianOfMajority |
| `Smoothing.MiddleOfIsMiddle` | SitSmartCoach.py:187 | the median of a sorted window is its middle element for an odd length, and the mean of the two middle elements for an even length, as np.median computes it |
| `Smoothing.MedianBounds` | SitSmartCoach.py:187 | the median lies between the smallest and the largest sample of the window |
| `Smoothing.MedianOfMajority` | SitSmartCoach.py:187 | a value held by more than half of the window is its median, so isolated outliers are ignored |
| `Smoothing.MedianIgnoresOneOutlier` | SitSmartCoach.py:208 | a window of six 10 cm samples and one 170 cm spike has median 10 |
| `Smoothing.Count` | SitSmartCoach.py:226 | list.count: at most the length of the list, and positive exactly when the label is in the list |
| `Smoothing.CountIsMultiplicity` | SitSmartCoach.py:226 | list.count of a label is its multiplicity in the window |
| `Smoothing.Mode` | SitSmartCoach.py:226 | the vote returns a label that is in the window; ModeIsMajority and MajorityWinsVote give which |
| `Smoothing.ModeFrom` | SitSmartCoach.py:226 | the vote returns a label of the window whose count is at least that of every label at the positions it scanned |
| `Smoothing.ModeIsMajority` | SitSmartCoach.py:226 | the voted label is in the window, and no label occurs in the window more often than it |
| `Smoothing.CountTwo` | SitSmartCoach.py:226 | two different labels together occur at most as often as the window is long |
| `Smoothing.MajorityWinsVote` | SitSmartCoach.py:226 | a label held by more than half of the window has a strictly larger count than every other label, so `max` picks it whatever order the set is visited in; the model's vote returns it |
| `Posture.ElbowStatus` | SitSmartCoach.py:189-192 | the elbow line shows the smoothed angle, and says OK exactly when the angle is within [ELBOW_MIN, ELBOW_MAX] |
| `Posture.DistanceStatus` | SitSmartCoach.py:210-215 | exactly one of Distance OK (inside [70, 100]), Too Close (below 70) and Too Far (above 100), showing the smoothed distance |
| `Posture.DistanceStep` | SitSmartCoach.py:201-215 | a non-positive estimate leaves the distance window alone and asks to re-center; a positive one is pushed and the new window's median classified |
| `Posture.Process` | SitSmartCoach.py:171-230 | one frame: without landmarks the windows stay as they were and the only line is Move into Frame; with landmarks exactly three lines, an elbow line, a distance line and a gaze line; ProcessSome gives them in full |
| `Posture.ProcessWindows` | SitSmartCoach.py:184-224 | after a frame with landmarks the angle and gaze windows slide, and the distance window slides only for a positive estimate |
| `Posture.NoLandmarksFrame` | SitSmartCoach.py:171-230 | a frame without landmarks leaves every window unchanged and yields the single line Move into Frame |
| `Posture.ProcessSome` | SitSmartCoach.py:171-227 | a frame with landmarks yields the elbow, distance and gaze lines in that order, each read off its window after the new sample went in |
| `Posture.PushKeepsValid` | SitSmartCoach.py:184-224 | pushing a folded angle, an estimate (only if positive) and a label keeps every window within SMOOTH_N, every angle in [0, 180] and every distance positive |
| `Posture.ProcessKeepsValid` | SitSmartCoach.py:171-230 | processing any frame keeps those window invariants |
| `Posture.LandmarksFrame` | SitSmartCoach.py:171-227 | a frame with landmarks yields exactly three lines; the angle shown is in [0, 180], a distance shown is positive, and the gaze shown is in the window and occurs there at least as often as any other label |
| `Posture.LinesFromValidWindows` | SitSmartCoach.py:187-215 | medians of valid windows give an elbow angle in [0, 180] and a positive distance |
| `Posture.ElbowAdjustOnlyWhenBelowMin` | SitSmartCoach.py:189-192 | because folded angles never exceed ELBOW_MAX = 180, Adjust Elbow Angle appears exactly when the smoothed angle is below ELBOW_MIN |
| `Posture.GazeVoteExample` | SitSmartCoach.py:222-227 | a window of four Left, two Center and one Right votes Left |
| `Posture.DistanceGuard` | SitSmartCoach.py:199-208 | Re-center for distance appears exactly when the shoulder gap is at most 1e-6, and only then is the distance window left alone |
| `Posture.Run` | SitSmartCoach.py:171-230 | processing frames one after another keeps every window within SMOOTH_N; RunKeepsLastSamples gives their contents |
| `Posture.RunKeepsLastSamples` | SitSmartCoach.py:171-227 | after any sequence of frames each window holds exactly the last SMOOTH_N of its old contents followed by the samples those frames produced |
| `Posture.SteadySamples` | SitSmartCoach.py:182-222 | k identical frames with landmarks contribute k identical samples to the angle and gaze windows, and to the distance window k identical samples when the shoulder gap is above 1e-6 and none otherwise |
| `Posture.SteadyFramesForgetHistory` | SitSmartCoach.py:184-227 | after seven or more identical frames the lines depend on that frame alone, whatever the windows held before: the elbow line of its folded angle, the distance line of its estimate (or Re-center for distance on every such frame when the gap is at most 1e-6), and its own gaze label |
| `Posture.EightSteadyFrames` | SitSmartCoach.py:171-227 | eight frames with a 90 degree elbow, a 195 pixel shoulder gap and a centred nose yield Elbow OK (90), Distance OK (100 cm) and Looking Center |
| `Handoff.BoundedQueue.constructor` | SitSmartCoach.py:344 | a new queue is empty and keeps its positive maxsize |
| `Handoff.BoundedQueue.Empty` | SitSmartCoach.py:234 | q.empty(): true exactly when no item is pending, the case in which GetNowait returns None |
| `Handoff.BoundedQueue.GetNowait` | SitSmartCoach.py:235 | returns and removes the oldest item; on an empty queue it returns None (queue.Empty) and changes nothing |
| `Handoff.BoundedQueue.PutNowait` | SitSmartCoach.py:236-238 | reports full (queue.Full) exactly when the queue holds maxsize items and then changes nothing; otherwise appends the item |
| `Handoff.LastOf` | SitSmartCoach.py:318-323 | what a drain leaves in hand: None exactly for an empty queue, otherwise the newest item |
| `Worker.PostureWorker.constructor` | SitSmartCoach.py:127-137 | a new worker starts with three empty windows on the given queue |
| `Worker.PostureWorker.ElbowLine` | SitSmartCoach.py:184-192 | the angle list becomes the slid window and the line is the elbow status of its median |
| `Worker.PostureWorker.DistanceLine` | SitSmartCoach.py:201-215 | given the estimate of line 199, the distance list changes only when it is positive, and the line is Re-center or the distance status of the new median |
| `Worker.PostureWorker.GazeLine` | SitSmartCoach.py:217-227 | the gaze list becomes the slid window and the line is the vote over it |
| `Worker.PostureWorker.ProcessLandmarks` | SitSmartCoach.py:173-227 | the in-place updates of the three lists and the three lines, as ProcessSome states them |
| `Worker.PostureWorker.ProcessFrame` | SitSmartCoach.py:171-230 | the in-place frame body yields exactly the lines and windows of Process, and keeps the window invariants |
| `Worker.PostureWorker.Publish` | SitSmartCoach.py:232-238 | after the drop-oldest push the queue holds exactly the new lines |
| `Worker.PostureWorker.Step` | SitSmartCoach.py:171-238 | one loop iteration: Process's lines and windows, and the queue holding those lines alone |
| `Worker.FloatingPopup.constructor` | SitSmartCoach.py:263-279 | a new popup shows nothing yet (Initializing) |
| `Worker.FloatingPopup.PumpQueue` | SitSmartCoach.py:316-325 | the drain empties the queue; the label then shows the newest item taken if there was one with at least one line, and is otherwise unchanged |
| `Worker.StepThenPump` | SitSmartCoach.py:232-238 | whatever was pending, a worker step followed by a popup refresh shows exactly the lines of that step |

## Left out

- Camera capture, the MediaPipe pose model and the image colour conversion (lines 145-169) are outside the model. Their result enters as an `Option<Landmarks>`.
- The trigonometry and the norm (the `arctan2` and `degrees` of line 62, `np.linalg.norm` of line 71) are left out, because they are floating-point library calls. The raw angle difference and the pixel gap are inputs. The angle difference is restricted to (-360, 360), the range of a difference of two atan2 angles.
- Floating point is modelled as exact reals. NaN and infinity are not modelled, so the `isinf` and `isnan` tests of line 201 are always false here, and the `except` branch of `estimate_distance_cm` (lines 77-78) cannot be reached.
- The `int()` truncation and the emoji text of each line are not modelled. A `Status` carries the smoothed value itself.
- Smoothing.ModeFrom: where several labels tie for the most votes, Python's pick depends on set iteration order, which depends on string hashing. The model takes the tied label that comes first in the window. Its contract, and ModeIsMajority, promise only what Python guarantees: a most frequent label of the window.
- Threads run one after the other here. The model does not cover concurrent interleavings of the worker's drain-and-put with the popup's drain. It also leaves out the blocking `put` calls for camera failures and the crash message (lines 149, 161, 245), `stop`, the sleeps and the Tk timer rescheduling.
- Handoff.BoundedQueue.constructor requires a positive maxsize. The program builds its queue with maxsize 2 (line 344), and the unbounded case of Python's `maxsize <= 0` is not modelled.
- Logging, the startup-shortcut helpers, window dragging, the buttons, DPI awareness and the single-instance lock are not part of this model.
