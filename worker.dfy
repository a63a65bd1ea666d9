/** The two ends of SitSmartCoach.py's pipeline as objects: PostureWorker, whose
    smoothing lists are updated in place frame after frame and which hands each
    frame's lines to the queue dropping whatever was still pending, and
    FloatingPopup, whose timer drains the queue and shows the last item. */
module Worker {

  import opened Wrappers
  import opened Signals
  import opened Smoothing
  import opened Posture
  import opened Handoff

  class PostureWorker {
    var angles: seq<real>
    var dists: seq<real>
    var gazes: seq<GazeLabel>
    const q: BoundedQueue<seq<Status>>

    ghost predicate Valid()
      reads this, q
    {
      WindowsValid(State()) && q.Valid()
    }

    /** The three smoothing lists as a value. */
    function State(): Windows
      reads this
    {
      Windows(angles, dists, gazes)
    }

    constructor (outQueue: BoundedQueue<seq<Status>>)
      requires outQueue.Valid()
      ensures Valid() && q == outQueue && State() == EmptyWindows
    {
      q := outQueue;
      angles := [];
      dists := [];
      gazes := [];
    }

    /** `self.angles.append(ang)`, the `pop(0)` when it has grown past
        SMOOTH_N, the median of what is left and its elbow line. */
    method ElbowLine(ang: real) returns (line: Status)
      modifies this`angles
      ensures angles == Slide(old(angles), ang)
      ensures line == ElbowStatus(Median(angles))
    {
      angles := angles + [ang];
      if |angles| > SmoothN {
        angles := angles[1..];
      }
      var angSm := Median(angles);
      if ElbowMin <= angSm <= ElbowMax {
        line := ElbowOk(angSm);
      } else {
        line := AdjustElbow(angSm);
      }
    }

    /** The distance block: a non-positive estimate asks the user to
        recenter; otherwise the estimate is smoothed in self.dists and the
        median classified. */
    method DistanceLine(zCm: real) returns (line: Status)
      modifies this`dists
      ensures dists == (if zCm > 0.0 then Slide(old(dists), zCm) else old(dists))
      ensures line == (if zCm <= 0.0 then RecenterForDistance else DistanceStatus(Median(dists)))
    {
      if zCm <= 0.0 {
        line := RecenterForDistance;
      } else {
        dists := dists + [zCm];
        if |dists| > SmoothN {
          dists := dists[1..];
        }
        var zSm := Median(dists);
        if DistMinCm <= zSm <= DistMaxCm {
          line := DistanceOk(zSm);
        } else if zSm < DistMinCm {
          line := TooClose(zSm);
        } else {
          line := TooFar(zSm);
        }
      }
    }

    /** The gaze block: label the frame, keep it in self.gazes and vote. */
    method GazeLine(noseX: real, leftShoulderX: real, rightShoulderX: real) returns (line: Status)
      modifies this`gazes
      ensures gazes == Slide(old(gazes), CenterGazeLabel(noseX, leftShoulderX, rightShoulderX))
      ensures line == Gaze(Mode(gazes))
    {
      var gaze := CenterGazeLabel(noseX, leftShoulderX, rightShoulderX);
      gazes := gazes + [gaze];
      if |gazes| > SmoothN {
        gazes := gazes[1..];
      }
      line := Gaze(Mode(gazes));
    }

    /** The lines of the try block after the landmarks were found: the elbow
        line, then the distance line, then the gaze line. */
    method ProcessLandmarks(lm: Landmarks) returns (msgs: seq<Status>)
      modifies this
      ensures var z := EstimateDistanceCm(lm.shoulderGapPx);
        && angles == Slide(old(angles), FoldAngle(lm.angleDiff))
        && dists == (if z > 0.0 then Slide(old(dists), z) else old(dists))
        && gazes == Slide(old(gazes), CenterGazeLabel(lm.noseX, lm.leftShoulderX, lm.rightShoulderX))
        && msgs == [ ElbowStatus(Median(angles)),
                     if z <= 0.0 then RecenterForDistance else DistanceStatus(Median(dists)),
                     Gaze(Mode(gazes)) ]
    {
      msgs := [];
      var elbow := ElbowLine(FoldAngle(lm.angleDiff));
      msgs := msgs + [elbow];
      var zCm := EstimateDistanceCm(lm.shoulderGapPx);
      var distance := DistanceLine(zCm);
      msgs := msgs + [distance];
      var gaze := GazeLine(lm.noseX, lm.leftShoulderX, lm.rightShoulderX);
      msgs := msgs + [gaze];
      assert msgs == [elbow, distance, gaze];
    }

    /** The try block of one loop iteration, exactly as Process describes: a
        result without landmarks fails at the first attribute access and
        yields "Move into Frame" alone. */
    method ProcessFrame(frame: Option<Landmarks>) returns (msgs: seq<Status>)
      requires Valid()
      modifies this
      ensures Valid()
      ensures Process(old(State()), frame) == FrameResult(State(), msgs)
    {
      ghost var w0 := State();
      match frame {
        case None =>
          msgs := [MoveIntoFrame];
        case Some(lm) =>
          msgs := ProcessLandmarks(lm);
          ProcessSome(w0, lm);
      }
      ProcessKeepsValid(w0, frame);
    }

    /** Push to the UI without blocking: drop everything still pending, then
        put the new lines. Afterwards they are the only item in the queue. */
    method Publish(msgs: seq<Status>)
      requires Valid()
      modifies q
      ensures Valid() && q.items == [msgs]
    {
      while !q.Empty()
        invariant q.Valid()
        decreases |q.items|
      {
        var dropped := q.GetNowait();
      }
      var full := q.PutNowait(msgs);
    }

    /** One sampling cycle with a pose result. */
    method Step(frame: Option<Landmarks>) returns (msgs: seq<Status>)
      requires Valid()
      modifies this, q
      ensures Valid()
      ensures Process(old(State()), frame) == FrameResult(State(), msgs)
      ensures q.items == [msgs]
    {
      msgs := ProcessFrame(frame);
      Publish(msgs);
    }
  }

  class FloatingPopup {
    const q: BoundedQueue<seq<Status>>
    /** The lines on the label; None while it still reads "Initializing". */
    var shown: Option<seq<Status>>

    constructor (q: BoundedQueue<seq<Status>>)
      ensures this.q == q && shown == None
    {
      this.q := q;
      shown := None;
    }

    /** _pump_queue: take items until the queue is empty, keeping the last one,
        and show it if one was taken and it has at least one line. */
    method PumpQueue()
      requires q.Valid()
      modifies this, q
      ensures q.Valid() && q.items == []
      ensures var last := LastOf(old(q.items));
        shown == if last != None && last.value != [] then last else old(shown)
    {
      var msgs: Option<seq<Status>> := None;
      var drained := false;
      ghost var taken := 0;
      while !drained
        invariant q.Valid()
        invariant 0 <= taken <= |old(q.items)| && q.items == old(q.items)[taken..]
        invariant msgs == LastOf(old(q.items)[..taken])
        invariant drained ==> q.items == []
        invariant shown == old(shown)
        decreases |q.items| + (if drained then 0 else 1)
      {
        var r := q.GetNowait();
        match r {
          case None =>
            drained := true;
          case Some(m) =>
            assert old(q.items)[..taken + 1] == old(q.items)[..taken] + [m];
            msgs := Some(m);
            taken := taken + 1;
        }
      }
      assert old(q.items)[..taken] == old(q.items);
      if msgs.Some? && msgs.value != [] {
        shown := msgs;
      }
    }
  }

  /** A frame's lines are never empty, so the popup's next refresh shows
      exactly what the worker produced last, whatever was pending before. */
  method StepThenPump(worker: PostureWorker, popup: FloatingPopup, frame: Option<Landmarks>)
      returns (msgs: seq<Status>)
    requires worker.Valid() && popup.q == worker.q
    modifies worker, worker.q, popup
    ensures worker.Valid() && worker.q.items == []
    ensures popup.shown == Some(msgs)
    ensures Process(old(worker.State()), frame) == FrameResult(worker.State(), msgs)
  {
    msgs := worker.Step(frame);
    if frame.Some? {
      LandmarksFrame(old(worker.State()), frame.value);
    }
    popup.PumpQueue();
  }
}
