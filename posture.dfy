/** One frame of PostureWorker.run as a function of the three smoothing
    windows and the pose result: classification of the smoothed metrics, the
    status lines produced and the new windows. The class in worker.dfy runs
    the same step in place and is proved to agree with Process. */
module Posture {

  import opened Wrappers
  import opened Signals
  import opened Smoothing

  /** Thresholds: ELBOW_MIN/ELBOW_MAX degrees and DIST_MIN_CM/DIST_MAX_CM. */
  const ElbowMin: real := 50.0
  const ElbowMax: real := 180.0
  const DistMinCm: real := 70.0
  const DistMaxCm: real := 100.0

  /** What the pose model yields for one frame, already reduced to the values
      the pipeline reads: the raw atan2 difference at the left elbow (degrees),
      the pixel distance between the shoulders, and the normalised x of the
      nose and of both shoulders. */
  datatype Landmarks = Landmarks(
    angleDiff: AngleDiff,
    shoulderGapPx: real,
    noseX: real,
    leftShoulderX: real,
    rightShoulderX: real)

  /** One status line; the numbers are the smoothed values shown in the text. */
  datatype Status =
    | ElbowOk(degrees: real)
    | AdjustElbow(degrees: real)
    | RecenterForDistance
    | DistanceOk(cm: real)
    | TooClose(cm: real)
    | TooFar(cm: real)
    | Gaze(direction: GazeLabel)
    | MoveIntoFrame

  predicate IsElbowLine(s: Status)
  {
    s.ElbowOk? || s.AdjustElbow?
  }

  predicate IsDistanceLine(s: Status)
  {
    s.RecenterForDistance? || s.DistanceOk? || s.TooClose? || s.TooFar?
  }

  /** The elbow line for a smoothed angle: OK inside [ELBOW_MIN, ELBOW_MAX]. */
  function ElbowStatus(angSm: real): (st: Status)
    ensures IsElbowLine(st) && st.degrees == angSm
    ensures st.ElbowOk? <==> ElbowMin <= angSm <= ElbowMax
  {
    if ElbowMin <= angSm <= ElbowMax then ElbowOk(angSm) else AdjustElbow(angSm)
  }

  /** The distance line for a smoothed distance: exactly one of Too Close,
      OK and Too Far, split at DIST_MIN_CM and DIST_MAX_CM. */
  function DistanceStatus(zSm: real): (st: Status)
    ensures IsDistanceLine(st) && !st.RecenterForDistance? && st.cm == zSm
    ensures st.DistanceOk? <==> DistMinCm <= zSm <= DistMaxCm
    ensures st.TooClose? <==> zSm < DistMinCm
    ensures st.TooFar? <==> zSm > DistMaxCm
  {
    if DistMinCm <= zSm <= DistMaxCm then DistanceOk(zSm)
    else if zSm < DistMinCm then TooClose(zSm)
    else TooFar(zSm)
  }

  /** The three smoothing windows: self.angles, self.dists, self.gazes. */
  datatype Windows = Windows(angles: seq<real>, dists: seq<real>, gazes: seq<GazeLabel>)

  const EmptyWindows := Windows([], [], [])

  /** What holds of the windows at all times: none exceeds SMOOTH_N, every
      angle is a folded angle and every distance is a positive estimate. */
  ghost predicate WindowsValid(w: Windows)
  {
    && |w.angles| <= SmoothN && |w.dists| <= SmoothN && |w.gazes| <= SmoothN
    && (forall a :: a in w.angles ==> 0.0 <= a <= 180.0)
    && (forall z :: z in w.dists ==> z > 0.0)
  }

  datatype FrameResult = FrameResult(windows: Windows, msgs: seq<Status>)

  /** The distance half of a frame: a non-positive estimate means the
      geometry is unusable, so the window is left alone and the line asks the
      user to re-center; otherwise the estimate is pushed and the window's
      median classified. */
  function DistanceStep(dists: seq<real>, zCm: real): (r: (seq<real>, Status))
    ensures zCm <= 0.0 ==> r == (dists, RecenterForDistance)
    ensures zCm > 0.0 ==> r.0 == Slide(dists, zCm) && r.1 == DistanceStatus(Median(r.0))
  {
    if zCm <= 0.0 then (dists, RecenterForDistance)
    else
      var pushed := Slide(dists, zCm);
      (pushed, DistanceStatus(Median(pushed)))
  }

  /** The body of the frame loop from `msgs = []` to the end of the try block.
      No landmarks: the attribute access raises before any window is touched
      and the frame reports "Move into Frame" alone. Otherwise the elbow,
      distance and gaze lines in that order, each from its window after the
      new sample went in. */
  function Process(w: Windows, frame: Option<Landmarks>): (r: FrameResult)
    ensures frame.None? ==> r.windows == w && r.msgs == [MoveIntoFrame]
    ensures frame.Some? ==> |r.msgs| == 3 && IsElbowLine(r.msgs[0])
                            && IsDistanceLine(r.msgs[1]) && r.msgs[2].Gaze?
  {
    match frame
    case None => FrameResult(w, [MoveIntoFrame])
    case Some(lm) =>
      var angles := Slide(w.angles, FoldAngle(lm.angleDiff));
      var (dists, distLine) := DistanceStep(w.dists, EstimateDistanceCm(lm.shoulderGapPx));
      var gazes := Slide(w.gazes, CenterGazeLabel(lm.noseX, lm.leftShoulderX, lm.rightShoulderX));
      FrameResult(Windows(angles, dists, gazes), [ElbowStatus(Median(angles)), distLine, Gaze(Mode(gazes))])
  }

  /** The windows after a frame with landmarks: every window slides, except the
      distance window when the estimate is zero. */
  lemma ProcessWindows(w: Windows, lm: Landmarks)
    ensures var z := EstimateDistanceCm(lm.shoulderGapPx);
      Process(w, Some(lm)).windows == Windows(
        Slide(w.angles, FoldAngle(lm.angleDiff)),
        if z > 0.0 then Slide(w.dists, z) else w.dists,
        Slide(w.gazes, CenterGazeLabel(lm.noseX, lm.leftShoulderX, lm.rightShoulderX)))
  {
  }

  /** A frame without landmarks leaves every window as it was and yields the
      single line "Move into Frame". */
  lemma NoLandmarksFrame(w: Windows)
    ensures Process(w, None).windows == w
    ensures Process(w, None).msgs == [MoveIntoFrame]
  {
  }

  /** A frame with landmarks, spelled out: every window slides, except the
      distance window when the estimate is zero, and the lines are read off
      the new windows. */
  lemma ProcessSome(w: Windows, lm: Landmarks)
    ensures var z := EstimateDistanceCm(lm.shoulderGapPx);
      var angles := Slide(w.angles, FoldAngle(lm.angleDiff));
      var dists := if z > 0.0 then Slide(w.dists, z) else w.dists;
      var gazes := Slide(w.gazes, CenterGazeLabel(lm.noseX, lm.leftShoulderX, lm.rightShoulderX));
      Process(w, Some(lm)) == FrameResult(Windows(angles, dists, gazes),
        [ ElbowStatus(Median(angles)),
          if z <= 0.0 then RecenterForDistance else DistanceStatus(Median(dists)),
          Gaze(Mode(gazes)) ])
  {
  }

  lemma PushKeepsValid(w: Windows, a: real, z: real, g: GazeLabel)
    requires WindowsValid(w) && 0.0 <= a <= 180.0
    ensures WindowsValid(Windows(Slide(w.angles, a), if z > 0.0 then Slide(w.dists, z) else w.dists, Slide(w.gazes, g)))
  {
    SlideMembers(w.angles, a);
    SlideMembers(w.dists, z);
  }

  /** Processing a frame keeps the windows valid. */
  lemma ProcessKeepsValid(w: Windows, frame: Option<Landmarks>)
    requires WindowsValid(w)
    ensures WindowsValid(Process(w, frame).windows)
  {
    if frame.Some? {
      var lm := frame.value;
      ProcessWindows(w, lm);
      PushKeepsValid(w, FoldAngle(lm.angleDiff), EstimateDistanceCm(lm.shoulderGapPx),
                     CenterGazeLabel(lm.noseX, lm.leftShoulderX, lm.rightShoulderX));
    }
  }

  /** A frame with landmarks yields exactly three lines, elbow then distance
      then gaze; the angle shown lies in [0, 180], a distance shown is
      positive and the gaze shown is one the window holds at least as often as
      any other. */
  lemma LandmarksFrame(w: Windows, lm: Landmarks)
    requires WindowsValid(w)
    ensures var r := Process(w, Some(lm));
      && |r.msgs| == 3
      && IsElbowLine(r.msgs[0]) && 0.0 <= r.msgs[0].degrees <= 180.0
      && IsDistanceLine(r.msgs[1]) && (!r.msgs[1].RecenterForDistance? ==> r.msgs[1].cm > 0.0)
      && r.msgs[2].Gaze? && r.msgs[2].direction in r.windows.gazes
      && (forall g :: multiset(r.windows.gazes)[g] <= multiset(r.windows.gazes)[r.msgs[2].direction])
  {
    ProcessKeepsValid(w, Some(lm));
    ProcessSome(w, lm);
    var r := Process(w, Some(lm));
    LinesFromValidWindows(r.windows, EstimateDistanceCm(lm.shoulderGapPx) > 0.0);
    ModeIsMajority(r.windows.gazes);
  }

  lemma LinesFromValidWindows(w: Windows, hasDistance: bool)
    requires WindowsValid(w) && |w.angles| > 0 && |w.gazes| > 0
    requires hasDistance ==> |w.dists| > 0
    ensures 0.0 <= ElbowStatus(Median(w.angles)).degrees <= 180.0
    ensures hasDistance ==> DistanceStatus(Median(w.dists)).cm > 0.0
  {
    MedianBounds(w.angles);
    var m := Median(w.angles);
    var lo :| lo in w.angles && lo <= m;
    var hi :| hi in w.angles && m <= hi;
    if hasDistance {
      MedianBounds(w.dists);
      var md := Median(w.dists);
      var dlo :| dlo in w.dists && dlo <= md;
    }
  }

  /** Folded angles never exceed ELBOW_MAX, so the only way to get "Adjust
      Elbow Angle" is a smoothed angle below ELBOW_MIN. */
  lemma ElbowAdjustOnlyWhenBelowMin(w: Windows, lm: Landmarks)
    requires WindowsValid(w)
    ensures var line := Process(w, Some(lm)).msgs[0];
      line.AdjustElbow? <==> line.degrees < ElbowMin
  {
    LandmarksFrame(w, lm);
  }

  /** The worked case of a seven-sample gaze window: four Left, two Center,
      one Right vote Left. */
  lemma GazeVoteExample()
    ensures Mode([LookingLeft, LookingLeft, LookingCenter, LookingLeft,
                  LookingRight, LookingLeft, LookingCenter]) == LookingLeft
  {
    var g := [LookingLeft, LookingLeft, LookingCenter, LookingLeft,
              LookingRight, LookingLeft, LookingCenter];
    assert Count(g, LookingLeft) == 4;
    MajorityWinsVote(g, LookingLeft);
  }

  /** The distance guard: a zero estimate (no usable shoulder gap) gives
      "Re-center for distance" and leaves the distance window alone; any other
      estimate is pushed and its window's median classified. */
  lemma DistanceGuard(w: Windows, lm: Landmarks)
    ensures var r := Process(w, Some(lm));
      var zCm := EstimateDistanceCm(lm.shoulderGapPx);
      && (r.msgs[1] == RecenterForDistance <==> lm.shoulderGapPx <= MinGapPx)
      && (lm.shoulderGapPx <= MinGapPx ==> r.windows.dists == w.dists)
      && (lm.shoulderGapPx > MinGapPx ==>
            r.windows.dists == Slide(w.dists, zCm)
            && r.msgs[1] == DistanceStatus(Median(r.windows.dists)))
  {
  }

  // ------------------------------------------------------- many frames

  /** The windows after the frames have been processed in order. */
  function Run(w: Windows, frames: seq<Option<Landmarks>>): (r: Windows)
    ensures |w.angles| <= SmoothN && |w.dists| <= SmoothN && |w.gazes| <= SmoothN
            ==> |r.angles| <= SmoothN && |r.dists| <= SmoothN && |r.gazes| <= SmoothN
  {
    if frames == [] then w
    else Process(Run(w, frames[..|frames| - 1]), frames[|frames| - 1]).windows
  }

  /** The angle samples the frames contribute: one per frame with landmarks. */
  function AngleSamples(frames: seq<Option<Landmarks>>): seq<real>
  {
    if frames == [] then []
    else
      var f := frames[|frames| - 1];
      AngleSamples(frames[..|frames| - 1]) + (if f.Some? then [FoldAngle(f.value.angleDiff)] else [])
  }

  /** The distance samples: one per frame with landmarks and a positive estimate. */
  function DistSamples(frames: seq<Option<Landmarks>>): seq<real>
  {
    if frames == [] then []
    else
      var f := frames[|frames| - 1];
      DistSamples(frames[..|frames| - 1])
        + (if f.Some? && EstimateDistanceCm(f.value.shoulderGapPx) > 0.0
           then [EstimateDistanceCm(f.value.shoulderGapPx)] else [])
  }

  /** The gaze samples: one label per frame with landmarks. */
  function GazeSamples(frames: seq<Option<Landmarks>>): seq<GazeLabel>
  {
    if frames == [] then []
    else
      var f := frames[|frames| - 1];
      GazeSamples(frames[..|frames| - 1])
        + (if f.Some? then [CenterGazeLabel(f.value.noseX, f.value.leftShoulderX, f.value.rightShoulderX)] else [])
  }

  lemma FillOne<T>(w: seq<T>, xs: seq<T>, extra: seq<T>)
    requires |extra| <= 1
    ensures Fill(w, xs + extra) == if extra == [] then Fill(w, xs) else Slide(Fill(w, xs), extra[0])
  {
    if extra == [] {
      assert xs + extra == xs;
    } else {
      assert (xs + extra)[..|xs + extra| - 1] == xs;
    }
  }

  /** Each window is the samples the frames produced pushed one by one. */
  lemma {:induction false} RunFills(w: Windows, frames: seq<Option<Landmarks>>)
    ensures Run(w, frames).angles == Fill(w.angles, AngleSamples(frames))
    ensures Run(w, frames).dists == Fill(w.dists, DistSamples(frames))
    ensures Run(w, frames).gazes == Fill(w.gazes, GazeSamples(frames))
  {
    if frames != [] {
      var front := frames[..|frames| - 1];
      var f := frames[|frames| - 1];
      RunFills(w, front);
      if f.Some? {
        var lm := f.value;
        var z := EstimateDistanceCm(lm.shoulderGapPx);
        ProcessWindows(Run(w, front), lm);
        FillOne(w.angles, AngleSamples(front), [FoldAngle(lm.angleDiff)]);
        FillOne(w.dists, DistSamples(front), if z > 0.0 then [z] else []);
        FillOne(w.gazes, GazeSamples(front), [CenterGazeLabel(lm.noseX, lm.leftShoulderX, lm.rightShoulderX)]);
      } else {
        FillOne(w.angles, AngleSamples(front), []);
        FillOne(w.dists, DistSamples(front), []);
        FillOne(w.gazes, GazeSamples(front), []);
      }
    }
  }

  /** After any frames, each window holds exactly the last SMOOTH_N samples of
      its old contents followed by the new samples, oldest first; from empty
      windows that is the last min(k, 7) of the k samples produced. */
  lemma RunKeepsLastSamples(w: Windows, frames: seq<Option<Landmarks>>)
    requires |w.angles| <= SmoothN && |w.dists| <= SmoothN && |w.gazes| <= SmoothN
    ensures Run(w, frames).angles == LastN(w.angles + AngleSamples(frames), SmoothN)
    ensures Run(w, frames).dists == LastN(w.dists + DistSamples(frames), SmoothN)
    ensures Run(w, frames).gazes == LastN(w.gazes + GazeSamples(frames), SmoothN)
    ensures |Run(w, frames).angles| <= SmoothN && |Run(w, frames).dists| <= SmoothN
    ensures |Run(w, frames).gazes| <= SmoothN
  {
    RunFills(w, frames);
    FillKeepsLastSamples(w.angles, AngleSamples(frames));
    FillKeepsLastSamples(w.dists, DistSamples(frames));
    FillKeepsLastSamples(w.gazes, GazeSamples(frames));
  }

  // ------------------------------------------------- a steady user

  function Repeat<T>(x: T, k: nat): (r: seq<T>)
    ensures |r| == k && forall i :: 0 <= i < k ==> r[i] == x
  {
    seq(k, _ => x)
  }

  /** k identical frames with landmarks contribute k identical samples to the
      angle and gaze windows, and to the distance window k identical samples
      when the shoulder gap is usable and none when it is not. */
  lemma {:induction false} SteadySamples(lm: Landmarks, k: nat)
    ensures AngleSamples(Repeat(Some(lm), k)) == Repeat(FoldAngle(lm.angleDiff), k)
    ensures DistSamples(Repeat(Some(lm), k))
         == if lm.shoulderGapPx > MinGapPx then Repeat(EstimateDistanceCm(lm.shoulderGapPx), k) else []
    ensures GazeSamples(Repeat(Some(lm), k))
         == Repeat(CenterGazeLabel(lm.noseX, lm.leftShoulderX, lm.rightShoulderX), k)
  {
    if k > 0 {
      assert Repeat(Some(lm), k)[..k - 1] == Repeat(Some(lm), k - 1);
      SteadySamples(lm, k - 1);
    }
  }

  lemma LastNOfSteady<T>(prefix: seq<T>, x: T, k: nat)
    requires k >= SmoothN
    ensures LastN(prefix + Repeat(x, k), SmoothN) == Repeat(x, SmoothN)
  {
  }

  lemma MedianOfSteady(v: real)
    ensures Median(Repeat(v, SmoothN)) == v
  {
    var s := Repeat(v, SmoothN);
    assert s == [v, v, v, v, v, v, v];
    MedianOfMajority(s, v);
  }

  /** Seven identical frames wipe out the history: whatever the windows held
      before, the status lines then depend on the frame alone. With a usable
      shoulder gap the distance line classifies that frame's estimate; with an
      unusable one it is "Re-center for distance" on every frame. */
  lemma SteadyFramesForgetHistory(w: Windows, lm: Landmarks, k: nat)
    requires |w.angles| <= SmoothN && |w.dists| <= SmoothN && |w.gazes| <= SmoothN
    requires k >= SmoothN
    ensures var frames := Repeat(Some(lm), k);
      Process(Run(w, frames[..k - 1]), Some(lm)).msgs
        == [ ElbowStatus(FoldAngle(lm.angleDiff)),
             if lm.shoulderGapPx <= MinGapPx then RecenterForDistance
             else DistanceStatus(EstimateDistanceCm(lm.shoulderGapPx)),
             Gaze(CenterGazeLabel(lm.noseX, lm.leftShoulderX, lm.rightShoulderX)) ]
  {
    var frames := Repeat(Some(lm), k);
    var a := FoldAngle(lm.angleDiff);
    var z := EstimateDistanceCm(lm.shoulderGapPx);
    var g := CenterGazeLabel(lm.noseX, lm.leftShoulderX, lm.rightShoulderX);
    assert frames[..k - 1] + [frames[k - 1]] == frames;
    assert Run(w, frames).angles == Process(Run(w, frames[..k - 1]), Some(lm)).windows.angles;
    RunKeepsLastSamples(w, frames);
    SteadySamples(lm, k);
    LastNOfSteady(w.angles, a, k);
    LastNOfSteady(w.gazes, g, k);
    MedianOfSteady(a);
    ModeIsMajority(Repeat(g, SmoothN));
    if lm.shoulderGapPx > MinGapPx {
      LastNOfSteady(w.dists, z, k);
      MedianOfSteady(z);
    }
  }

  /** The worked scenario: eight frames with a 90 degree elbow, a 195 pixel
      shoulder gap (650 * 30 / 195 = 100 cm, the upper edge of the band) and a
      centred nose end with "Elbow Angle OK (90)", "Distance OK (100 cm)" and
      "Looking Center". */
  lemma EightSteadyFrames()
    ensures var lm := Landmarks(90.0, 195.0, 0.5, 0.4, 0.6);
      Process(Run(EmptyWindows, Repeat(Some(lm), 8)[..7]), Some(lm)).msgs
        == [ElbowOk(90.0), DistanceOk(100.0), Gaze(LookingCenter)]
  {
    var lm := Landmarks(90.0, 195.0, 0.5, 0.4, 0.6);
    SteadyFramesForgetHistory(EmptyWindows, lm, 8);
    assert EstimateDistanceCm(195.0) == 100.0;
  }
}
