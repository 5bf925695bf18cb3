/**
 * Properties of the posture-assessment model: visibility and labelling,
 * side-selection precedence, the classification rule, retention of the
 * remembered verdict across calls, and the coordinate mapping.
 */
module AssessProperties {
  import opened Options
  import opened Assess

  // ----- Visibility filter and labels -----

  /** The visible indices are exactly those below `n` that pass the threshold, strictly increasing. */
  lemma {:induction false} VisibleIndicesSpec(scores: seq<real>, n: nat)
    requires n <= |scores|
    ensures forall k: nat :: k in VisibleIndices(scores, n) <==> k < n && Visible(scores[k])
    ensures forall a, b :: 0 <= a < b < |VisibleIndices(scores, n)| ==>
              VisibleIndices(scores, n)[a] < VisibleIndices(scores, n)[b]
  {
    if n > 0 {
      VisibleIndicesSpec(scores, n - 1);
      var before := VisibleIndices(scores, n - 1);
      forall j | 0 <= j < |before| ensures before[j] < n - 1 {
        assert before[j] in before;
      }
    }
  }

  /** The label draws are, in order, one `LabelOp` per visible index. */
  lemma {:induction false} LabelOpsSpec(keypoints: seq<Point>, scores: seq<real>, width: int, height: int, n: nat)
    requires n <= |keypoints| <= |scores|
    ensures |LabelOps(keypoints, scores, width, height, n)| == |VisibleIndices(scores, n)|
    ensures forall j :: 0 <= j < |VisibleIndices(scores, n)| ==>
              VisibleIndices(scores, n)[j] < |keypoints| &&
              LabelOps(keypoints, scores, width, height, n)[j]
                == LabelOp(VisibleIndices(scores, n)[j], keypoints[VisibleIndices(scores, n)[j]], width, height)
  {
    VisibleIndicesSpec(scores, n);
    var vis := VisibleIndices(scores, n);
    forall j | 0 <= j < |vis| ensures vis[j] < n {
      assert vis[j] in vis;
    }
    if n > 0 {
      LabelOpsSpec(keypoints, scores, width, height, n - 1);
    }
  }

  /**
   * Every visible keypoint gets exactly one label draw and an invisible one
   * none; a score equal to the threshold counts as visible.
   */
  lemma OneLabelPerVisibleKeypoint(keypoints: seq<Point>, scores: seq<real>, width: int, height: int, k: nat)
    requires k < |keypoints| <= |scores|
    ensures var vis := VisibleIndices(scores, |keypoints|);
            var ops := LabelOps(keypoints, scores, width, height, |keypoints|);
            && |ops| == |vis|
            && (scores[k] >= Threshold ==>
                  exists j :: 0 <= j < |vis| && vis[j] == k && ops[j] == LabelOp(k, keypoints[k], width, height)
                              && forall j' :: 0 <= j' < |vis| && vis[j'] == k ==> j' == j)
            && (scores[k] < Threshold ==> forall j :: 0 <= j < |vis| ==> vis[j] != k)
  {
    var n := |keypoints|;
    VisibleIndicesSpec(scores, n);
    LabelOpsSpec(keypoints, scores, width, height, n);
    var vis := VisibleIndices(scores, n);
    if scores[k] >= Threshold {
      assert k in vis;
      var j :| 0 <= j < |vis| && vis[j] == k;
      assert forall j' :: 0 <= j' < |vis| && vis[j'] == k ==> j' == j;
    } else {
      forall j | 0 <= j < |vis| ensures vis[j] != k {
        assert vis[j] in vis;
      }
    }
  }

  /**
   * A label is drawn at the keypoint's pixel position, at the label scale;
   * right-side landmarks (6, 12) in red, left-side ones (5, 11) in yellow,
   * every other index as an empty label in black.
   */
  lemma LabelStyle(i: nat, p: Point, width: int, height: int)
    ensures var op := LabelOp(i, p, width, height);
            && (op.x, op.y) == MapKeypointToImageCoords(p, (width, height))
            && op.scale == LabelScale
            && (op.colour == Red <==> i == RightShoulderIndex || i == RightHipIndex)
            && (op.colour == Yellow <==> i == LeftShoulderIndex || i == LeftHipIndex)
            && (op.colour == Black <==> op.text == "")
            && (op.text == "" <==> i !in {RightShoulderIndex, RightHipIndex, LeftShoulderIndex, LeftHipIndex})
            && (i == RightShoulderIndex ==> op.text == "right shoulder")
            && (i == RightHipIndex ==> op.text == "right hip")
            && (i == LeftShoulderIndex ==> op.text == "left shoulder")
            && (i == LeftHipIndex ==> op.text == "left hip")
  {
  }

  /** Changing an invisible keypoint changes none of the label draws. */
  lemma {:induction false} InvisibleKeypointNotLabelled(keypoints: seq<Point>, scores: seq<real>, width: int, height: int,
                                                       k: nat, p: Point, n: nat)
    requires n <= |keypoints| <= |scores| && k < |keypoints|
    requires scores[k] < Threshold
    ensures LabelOps(keypoints[k := p], scores, width, height, n) == LabelOps(keypoints, scores, width, height, n)
  {
    if n > 0 {
      InvisibleKeypointNotLabelled(keypoints, scores, width, height, k, p, n - 1);
    }
  }

  /**
   * A keypoint below the threshold is never recorded in a landmark slot, and
   * its coordinates influence neither the labels nor the comparison.
   */
  lemma InvisibleKeypointIgnored(keypoints: seq<Point>, scores: seq<real>, width: int, height: int, k: nat, p: Point)
    requires k < |keypoints| <= |scores|
    requires scores[k] < Threshold
    ensures forall l: Landmark :: l.Index() == k ==> SlotAt(keypoints, scores, l, |keypoints|) == None
    ensures FrameCheck(keypoints[k := p], scores) == FrameCheck(keypoints, scores)
    ensures LabelOps(keypoints[k := p], scores, width, height, |keypoints|)
         == LabelOps(keypoints, scores, width, height, |keypoints|)
  {
    InvisibleKeypointNotLabelled(keypoints, scores, width, height, k, p, |keypoints|);
  }

  // ----- Side selection -----

  /** Complete left pair first, then complete right pair, then each part on its own. */
  lemma SelectionPrecedence(s: Slots)
    ensures s.leftShoulder.Some? && s.leftHip.Some? ==>
              Select(s) == Selection(Value(s.leftShoulder.value), Value(s.leftHip.value))
    ensures !(s.leftShoulder.Some? && s.leftHip.Some?) && s.rightShoulder.Some? && s.rightHip.Some? ==>
              Select(s) == Selection(Value(s.rightShoulder.value), Value(s.rightHip.value))
    ensures !(s.leftShoulder.Some? && s.leftHip.Some?) && !(s.rightShoulder.Some? && s.rightHip.Some?) ==>
              && (s.leftShoulder.Some? && s.rightShoulder.None? ==> Select(s).shoulder == Value(s.leftShoulder.value))
              && (s.leftShoulder.None? && s.rightShoulder.Some? ==> Select(s).shoulder == Value(s.rightShoulder.value))
              && (s.leftHip.Some? && s.rightHip.None? ==> Select(s).hip == Value(s.leftHip.value))
              && (s.leftHip.None? && s.rightHip.Some? ==> Select(s).hip == Value(s.rightHip.value))
  {
  }

  /**
   * The mixed fallback: one shoulder and one hip on opposite sides form a
   * pair; two shoulders and no hip leave `shoulder` unassigned and `hip`
   * None, so nothing is compared; two hips and no shoulder leave `hip`
   * unassigned, and the guard raises on reading it.
   */
  lemma MixedFallbackOutcomes(s: Slots)
    ensures s.leftShoulder.Some? && s.rightHip.Some? && s.rightShoulder.None? && s.leftHip.None? ==>
              Guard(Select(s)) == Compare(s.leftShoulder.value, s.rightHip.value)
    ensures s.rightShoulder.Some? && s.leftHip.Some? && s.leftShoulder.None? && s.rightHip.None? ==>
              Guard(Select(s)) == Compare(s.rightShoulder.value, s.leftHip.value)
    ensures s.leftShoulder.Some? && s.rightShoulder.Some? && s.leftHip.None? && s.rightHip.None? ==>
              Select(s) == Selection(Unbound, NoneValue) && Guard(Select(s)) == Skip
    ensures s.leftHip.Some? && s.rightHip.Some? && s.leftShoulder.None? && s.rightShoulder.None? ==>
              Select(s) == Selection(NoneValue, Unbound) && Guard(Select(s)) == Raise("hip")
  {
  }

  /**
   * Over all 16 presence combinations: the guard raises exactly when both
   * hips and no shoulder are present (and then on `hip`), compares exactly
   * when some shoulder and some hip are present, and otherwise skips; a
   * compared point always comes from a recorded slot of the right part.
   */
  lemma GuardCases(s: Slots)
    ensures var c := Guard(Select(s));
            && (c.Raise? <==> s.leftHip.Some? && s.rightHip.Some? && s.leftShoulder.None? && s.rightShoulder.None?)
            && (c.Raise? ==> c.variable == "hip")
            && (c.Compare? <==> (s.leftShoulder.Some? || s.rightShoulder.Some?) && (s.leftHip.Some? || s.rightHip.Some?))
            && (c.Compare? ==> Some(c.shoulder) in {s.leftShoulder, s.rightShoulder}
                               && Some(c.hip) in {s.leftHip, s.rightHip})
  {
  }

  // ----- Classification -----

  /** Facing right: Bad exactly when the shoulder's x exceeds the hip's x minus the offset. */
  lemma RightRule(shoulder: Point, hip: Point)
    ensures Classify("right", shoulder, hip).Some?
    ensures Classify("right", shoulder, hip).value.posture == Bad <==> shoulder.x > hip.x - Offset
    ensures shoulder.x == hip.x - Offset ==> Classify("right", shoulder, hip).value.posture == Good
  {
  }

  /** Facing left: Bad exactly when the shoulder's x is below the hip's x plus the offset. */
  lemma LeftRule(shoulder: Point, hip: Point)
    ensures Classify("left", shoulder, hip).Some?
    ensures Classify("left", shoulder, hip).value.posture == Bad <==> shoulder.x < hip.x + Offset
    ensures shoulder.x == hip.x + Offset ==> Classify("left", shoulder, hip).value.posture == Good
  {
  }

  function Mirror(p: Point): Point {
    Point(-p.x, p.y)
  }

  /** The left rule is the right rule applied to horizontally mirrored points. */
  lemma LeftMirrorsRight(shoulder: Point, hip: Point)
    ensures Classify("left", shoulder, hip) == Classify("right", Mirror(shoulder), Mirror(hip))
  {
  }

  /** Only the x components take part in the comparison. */
  lemma OnlyXCompared(direction: string, shoulder: Point, hip: Point, shoulder': Point, hip': Point)
    requires shoulder.x == shoulder'.x && hip.x == hip'.x
    ensures Classify(direction, shoulder, hip) == Classify(direction, shoulder', hip')
  {
  }

  // ----- The remembered verdict -----

  /**
   * One call keeps both fields when the pair does not resolve or the
   * direction is unrecognised, and otherwise overwrites both consistently;
   * a set verdict is never cleared.
   */
  lemma NextRetainsOrOverwrites(direction: string, st: State, c: Check)
    ensures !c.Compare? ==> Next(direction, st, c) == st
    ensures direction != "right" && direction != "left" ==> Next(direction, st, c) == st
    ensures c.Compare? && (direction == "right" || direction == "left") ==>
              Next(direction, st, c).posture.Some? && Consistent(Next(direction, st, c))
    ensures Consistent(st) ==> Consistent(Next(direction, st, c))
    ensures st.posture.Some? ==> Next(direction, st, c).posture.Some?
  {
  }

  /** One call's inputs: the first person's keypoints and scores. */
  datatype Observation = Observation(keypoints: seq<Point>, scores: seq<real>) {
    predicate WellFormed() {
      |keypoints| <= |scores|
    }

    function GuardOutcome(): Check
      requires WellFormed()
    {
      FrameCheck(keypoints, scores)
    }
  }

  predicate AllWellFormed(frames: seq<Observation>) {
    forall i :: 0 <= i < |frames| ==> frames[i].WellFormed()
  }

  /** The fields after a sequence of calls, one per observation, starting from `st`. */
  function Replay(direction: string, st: State, frames: seq<Observation>): State
    requires AllWellFormed(frames)
    decreases |frames|
  {
    if frames == [] then st
    else Replay(direction, Next(direction, st, frames[0].GuardOutcome()), frames[1..])
  }

  /** The assessment of the latest observation that produced one, if any. */
  function LastAssessment(direction: string, frames: seq<Observation>): Option<Assessment>
    requires AllWellFormed(frames)
  {
    if frames == [] then None
    else
      match CheckAssessment(direction, frames[|frames| - 1].GuardOutcome())
      case Some(a) => Some(a)
      case None => LastAssessment(direction, frames[..|frames| - 1])
  }

  /** The fields that show assessment `a`, or `st` when there is none. */
  function Shown(st: State, a: Option<Assessment>): State {
    match a
    case Some(v) => State(Some(v.posture), Some(v.shoulderBeforeHip))
    case None => st
  }

  /** The latest assessment of a sequence is that of its tail, or failing that, of its head. */
  lemma {:induction false} LastAssessmentCons(direction: string, frames: seq<Observation>)
    requires AllWellFormed(frames) && |frames| > 0
    ensures LastAssessment(direction, frames)
         == match LastAssessment(direction, frames[1..])
            case Some(a) => Some(a)
            case None => CheckAssessment(direction, frames[0].GuardOutcome())
    decreases |frames|
  {
    if |frames| > 1 {
      var init := frames[..|frames| - 1];
      assert frames[1..][..|frames[1..]| - 1] == init[1..];
      assert frames[1..][|frames[1..]| - 1] == frames[|frames| - 1];
      assert init[0] == frames[0];
      LastAssessmentCons(direction, init);
    } else {
      assert frames[..0] == [];
    }
  }

  /**
   * Stale-state retention: after any sequence of calls the fields show the
   * assessment of the latest call that produced one, or are exactly as they
   * were before the first call.
   */
  lemma {:induction false} ReplayShowsLastAssessment(direction: string, st: State, frames: seq<Observation>)
    requires AllWellFormed(frames)
    ensures Replay(direction, st, frames) == Shown(st, LastAssessment(direction, frames))
    decreases |frames|
  {
    if frames != [] {
      var st' := Next(direction, st, frames[0].GuardOutcome());
      ReplayShowsLastAssessment(direction, st', frames[1..]);
      LastAssessmentCons(direction, frames);
    }
  }

  /**
   * From the initial state, the verdict is unset exactly when no call so
   * far produced an assessment, and the two fields always agree.
   */
  lemma ReplayFromInitial(direction: string, frames: seq<Observation>)
    requires AllWellFormed(frames)
    ensures Replay(direction, Initial, frames).posture.None? <==> LastAssessment(direction, frames).None?
    ensures Consistent(Replay(direction, Initial, frames))
  {
    ReplayShowsLastAssessment(direction, Initial, frames);
    var a := LastAssessment(direction, frames);
    if a.Some? {
      LastAssessmentIsConsistent(direction, frames);
    }
  }

  /** Every recorded assessment sets shoulder-before-hip exactly when the verdict is Bad. */
  lemma {:induction false} LastAssessmentIsConsistent(direction: string, frames: seq<Observation>)
    requires AllWellFormed(frames)
    ensures LastAssessment(direction, frames).Some? ==>
              (LastAssessment(direction, frames).value.shoulderBeforeHip <==> LastAssessment(direction, frames).value.posture == Bad)
    decreases |frames|
  {
    if frames != [] {
      LastAssessmentIsConsistent(direction, frames[..|frames| - 1]);
    }
  }

  // ----- The verdict draw -----

  /** The verdict draw shows "None" exactly while no verdict has been set. */
  lemma VerdictDraw(posture: Option<Verdict>)
    ensures VerdictOp(posture).x == 50 && VerdictOp(posture).y == 50
    ensures VerdictOp(posture).colour == Black && VerdictOp(posture).scale == 1.0
    ensures VerdictOp(posture).text == "Posture: None" <==> posture.None?
    ensures posture == Some(Bad) ==> VerdictOp(posture).text == "Posture: Bad :("
    ensures posture == Some(Good) ==> VerdictOp(posture).text == "Posture: Good :)"
  {
  }

  // ----- Coordinate mapping -----

  /** Mapping a normalised keypoint to pixels and back loses less than one pixel. */
  lemma PixelRoundTrip(keypoint: Point, width: int, height: int)
    requires 0.0 <= keypoint.x <= 1.0 && 0.0 <= keypoint.y <= 1.0
    requires 0 < width && 0 < height
    ensures var pos := MapKeypointToImageCoords(keypoint, (width, height));
            && pos.0 as real / width as real <= keypoint.x < (pos.0 + 1) as real / width as real
            && pos.1 as real / height as real <= keypoint.y < (pos.1 + 1) as real / height as real
  {
  }

  // ----- Worked scenarios -----

  /** Left pair (0.40, 0.3) and (0.42, 0.7) facing right: 0.40 > 0.39, so Bad. */
  lemma LeftPairSlouching()
    ensures Classify(DefaultDirection, Point(0.40, 0.3), Point(0.42, 0.7)) == Some(Assessment(true, Bad))
    ensures Classify(DefaultDirection, Point(0.40, 0.3), Point(0.30, 0.7)) == Some(Assessment(true, Bad))
    ensures Classify(DefaultDirection, Point(0.20, 0.3), Point(0.30, 0.7)) == Some(Assessment(false, Good))
  {
  }

  /**
   * A node on two frames: a visible left pair gives Bad; then a frame whose
   * right hip is below threshold resolves no pair, and Bad is shown again.
   */
  method StaleVerdictScenario() {
    var node := new Node(DefaultDirection);
    var img := new Frame(640, 480);
    var keypoints := seq(13, i => Point(0.5, 0.5))[LeftShoulderIndex := Point(0.40, 0.3)][LeftHipIndex := Point(0.42, 0.7)];
    var scores := seq(13, i => if i == LeftShoulderIndex || i == LeftHipIndex then 0.9 else 0.0);
    assert Tracked(keypoints, scores) == Slots(None, None, Some(Point(0.40, 0.3)), Some(Point(0.42, 0.7)));
    var outcome := node.Run(img, keypoints, scores);
    assert outcome == Returned && node.posture == Some(Bad);

    var scores' := seq(13, i => if i == RightShoulderIndex then 0.5 else if i == RightHipIndex then 0.05 else 0.0);
    assert Tracked(keypoints, scores') == Slots(Some(Point(0.5, 0.5)), None, None, None);
    outcome := node.Run(img, keypoints, scores');
    assert outcome == Returned && node.posture == Some(Bad);
    assert img.ops[|img.ops| - 1] == VerdictOp(Some(Bad));
  }
}
