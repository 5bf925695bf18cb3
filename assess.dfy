/**
 * The posture-assessment node: it labels the visible keypoints of one person
 * on a frame, picks a shoulder and a hip, compares their horizontal positions
 * and draws the resulting "Good"/"Bad" verdict, which it remembers between
 * frames.
 *
 * Coordinates and scores are reals; a frame is the list of text draws made
 * on it, not its pixels.
 */
module Assess {
  import opened Options

  // ----- Configuration constants of the node -----

  /** Keypoints whose confidence score is below this are ignored. */
  const Threshold: real := 0.1
  /** Tolerance, in normalised x units, between shoulder and hip. */
  const Offset: real := 0.03
  /** The facing direction the node is configured with. */
  const DefaultDirection: string := "right"

  /** Indices of the tracked landmarks in the 17-point skeletal layout. */
  const RightShoulderIndex: nat := 6
  const RightHipIndex: nat := 12
  const LeftShoulderIndex: nat := 5
  const LeftHipIndex: nat := 11

  /** Label and verdict font scales. */
  const LabelScale: real := 0.7
  const VerdictScale: real := 1.0

  // ----- Data model -----

  /** A normalised keypoint: (0,0) is the top-left corner, (1,1) the bottom-right. */
  datatype Point = Point(x: real, y: real)

  /** A colour as the channel triple handed to the drawing library. */
  datatype Colour = Colour(c0: int, c1: int, c2: int)

  // The colour constants keep the node's own names and triples.

  const Red := Colour(255, 0, 0)
  const Yellow := Colour(0, 255, 255)
  const Black := Colour(51, 0, 0)

  /** One text draw on a frame: origin, text, colour and font scale. */
  datatype DrawOp = DrawOp(x: int, y: int, text: string, colour: Colour, scale: real)

  /** The posture verdict the node stores and displays. */
  datatype Verdict = Good | Bad {
    function Text(): string {
      match this
      case Good => "Good :)"
      case Bad => "Bad :("
    }
  }

  /** The four landmarks the node tracks. */
  datatype Landmark = RightShoulder | RightHip | LeftShoulder | LeftHip {
    function Index(): nat {
      match this
      case RightShoulder => RightShoulderIndex
      case RightHip => RightHipIndex
      case LeftShoulder => LeftShoulderIndex
      case LeftHip => LeftHipIndex
    }

    function Name(): string {
      match this
      case RightShoulder => "right shoulder"
      case RightHip => "right hip"
      case LeftShoulder => "left shoulder"
      case LeftHip => "left hip"
    }

    predicate IsRightSide() {
      this == RightShoulder || this == RightHip
    }

    /** Right-side landmarks are labelled in red, left-side ones in yellow. */
    function LabelColour(): Colour {
      if IsRightSide() then Red else Yellow
    }
  }

  /** The landmark, if any, that sits at skeletal index `i`. */
  function LandmarkAt(i: nat): (l: Option<Landmark>)
    ensures l.Some? ==> l.value.Index() == i
    ensures l.None? <==> forall m: Landmark :: m.Index() != i
  {
    if i == RightShoulderIndex then Some(RightShoulder)
    else if i == RightHipIndex then Some(RightHip)
    else if i == LeftShoulderIndex then Some(LeftShoulder)
    else if i == LeftHipIndex then Some(LeftHip)
    else None
  }

  // ----- Coordinate mapping -----

  /** Conversion of a real to an integer by truncation toward zero. */
  function Trunc(r: real): (t: int)
    ensures 0.0 <= r ==> t as real <= r < t as real + 1.0
    ensures r < 0.0 ==> t as real - 1.0 < r <= t as real
    ensures 0.0 <= r ==> t == r.Floor
  {
    if r >= 0.0 then r.Floor else -((-r).Floor)
  }

  /** For 0 <= v <= 1 and a non-negative size, v * size lies in [0, size]. */
  lemma ScaledWithin(v: real, size: int)
    ensures 0.0 <= v <= 1.0 && 0 <= size ==> 0.0 <= v * size as real <= size as real
  {
  }

  /**
   * The pixel position of a normalised keypoint in an image of the given
   * width and height: each coordinate scaled and truncated.
   */
  function MapKeypointToImageCoords(keypoint: Point, imageSize: (int, int)): (r: (int, int))
    ensures 0.0 <= keypoint.x <= 1.0 && 0 <= imageSize.0 ==>
              0 <= r.0 <= imageSize.0 && r.0 == (keypoint.x * imageSize.0 as real).Floor
    ensures 0.0 <= keypoint.y <= 1.0 && 0 <= imageSize.1 ==>
              0 <= r.1 <= imageSize.1 && r.1 == (keypoint.y * imageSize.1 as real).Floor
  {
    var width, height := imageSize.0, imageSize.1;
    var x, y := keypoint.x * width as real, keypoint.y * height as real;
    ScaledWithin(keypoint.x, width);
    ScaledWithin(keypoint.y, height);
    (Trunc(x), Trunc(y))
  }

  // ----- Visibility and labelling -----

  predicate Visible(score: real) {
    score >= Threshold
  }

  /** The indices below `n` whose score passes the visibility threshold, in order. */
  function VisibleIndices(scores: seq<real>, n: nat): seq<nat>
    requires n <= |scores|
  {
    if n == 0 then []
    else VisibleIndices(scores, n - 1) + (if Visible(scores[n - 1]) then [n - 1] else [])
  }

  /**
   * The label drawn for the visible keypoint `p` at index `i`: the landmark's
   * name in its side's colour, or an empty black label for any other index.
   */
  function LabelOp(i: nat, p: Point, width: int, height: int): DrawOp {
    var pos := MapKeypointToImageCoords(p, (width, height));
    match LandmarkAt(i)
    case Some(l) => DrawOp(pos.0, pos.1, l.Name(), l.LabelColour(), LabelScale)
    case None => DrawOp(pos.0, pos.1, "", Black, LabelScale)
  }

  /** The label draws made while visiting the first `n` keypoints, in index order. */
  function LabelOps(keypoints: seq<Point>, scores: seq<real>, width: int, height: int, n: nat): seq<DrawOp>
    requires n <= |keypoints| <= |scores|
  {
    if n == 0 then []
    else
      LabelOps(keypoints, scores, width, height, n - 1)
      + (if Visible(scores[n - 1]) then [LabelOp(n - 1, keypoints[n - 1], width, height)] else [])
  }

  /** The value the loop leaves in the slot of landmark `l` after visiting the first `n` keypoints. */
  function SlotAt(keypoints: seq<Point>, scores: seq<real>, l: Landmark, n: nat): Option<Point>
    requires n <= |keypoints| <= |scores|
  {
    var k := l.Index();
    if k < n && Visible(scores[k]) then Some(keypoints[k]) else None
  }

  /** The four recorded landmark slots. */
  datatype Slots = Slots(rightShoulder: Option<Point>, rightHip: Option<Point>,
                         leftShoulder: Option<Point>, leftHip: Option<Point>)

  function Tracked(keypoints: seq<Point>, scores: seq<real>): Slots
    requires |keypoints| <= |scores|
  {
    var n := |keypoints|;
    Slots(SlotAt(keypoints, scores, RightShoulder, n), SlotAt(keypoints, scores, RightHip, n),
          SlotAt(keypoints, scores, LeftShoulder, n), SlotAt(keypoints, scores, LeftHip, n))
  }

  // ----- Side selection -----

  /** The state of a local variable after the selection block: a point, None, or never assigned. */
  datatype Binding = Value(point: Point) | NoneValue | Unbound

  datatype Selection = Selection(shoulder: Binding, hip: Binding)

  /**
   * The selection block: the complete left pair, else the complete right
   * pair, else each part on its own, assigned only when at most one side of
   * it is present.
   */
  function Select(s: Slots): (r: Selection)
    ensures r.shoulder.NoneValue? <==> s.leftShoulder.None? && s.rightShoulder.None?
    ensures r.hip.NoneValue? <==> s.leftHip.None? && s.rightHip.None?
    ensures r.shoulder.Unbound? <==>
              s.leftShoulder.Some? && s.rightShoulder.Some? && s.leftHip.None? && s.rightHip.None?
    ensures r.hip.Unbound? <==>
              s.leftHip.Some? && s.rightHip.Some? && s.leftShoulder.None? && s.rightShoulder.None?
  {
    if s.leftShoulder.Some? && s.leftHip.Some? then
      Selection(Value(s.leftShoulder.value), Value(s.leftHip.value))
    else if s.rightShoulder.Some? && s.rightHip.Some? then
      Selection(Value(s.rightShoulder.value), Value(s.rightHip.value))
    else
      var shoulder :=
        if s.leftShoulder.None? && s.rightShoulder.None? then NoneValue
        else if s.leftShoulder.None? then Value(s.rightShoulder.value)
        else if s.rightShoulder.None? then Value(s.leftShoulder.value)
        else Unbound;
      var hip :=
        if s.leftHip.None? && s.rightHip.None? then NoneValue
        else if s.leftHip.None? then Value(s.rightHip.value)
        else if s.rightHip.None? then Value(s.leftHip.value)
        else Unbound;
      Selection(shoulder, hip)
  }

  /** What the test `hip is not None and shoulder is not None` does. */
  datatype Check = Compare(shoulder: Point, hip: Point) | Skip | Raise(variable: string)

  /** The comparison guard, evaluated left to right with short-circuit: `hip` is read first. */
  function Guard(sel: Selection): (c: Check)
    ensures c.Raise? <==> sel.hip.Unbound? || (sel.hip.Value? && sel.shoulder.Unbound?)
    ensures c.Compare? <==> sel.hip.Value? && sel.shoulder.Value?
    ensures c.Compare? ==> sel == Selection(Value(c.shoulder), Value(c.hip))
  {
    match sel.hip
    case Unbound => Raise("hip")
    case NoneValue => Skip
    case Value(h) =>
      match sel.shoulder
      case Unbound => Raise("shoulder")
      case NoneValue => Skip
      case Value(s) => Compare(s, h)
  }

  /** The guard's outcome on one person's keypoints. */
  function FrameCheck(keypoints: seq<Point>, scores: seq<real>): (c: Check)
    requires |keypoints| <= |scores|
    ensures c.Raise? ==> c.variable == "hip"
  {
    Guard(Select(Tracked(keypoints, scores)))
  }

  // ----- Classification and state -----

  /** The two fields the node sets together on a successful comparison. */
  datatype Assessment = Assessment(shoulderBeforeHip: bool, posture: Verdict)

  /**
   * The comparison of the x components for the given facing direction;
   * None when the direction is neither "right" nor "left".
   */
  function Classify(direction: string, shoulder: Point, hip: Point): (a: Option<Assessment>)
    ensures a.Some? <==> direction == "right" || direction == "left"
    ensures a.Some? ==> (a.value.shoulderBeforeHip <==> a.value.posture == Bad)
  {
    if direction == "right" then
      if shoulder.x > hip.x - Offset then Some(Assessment(true, Bad))
      else Some(Assessment(false, Good))
    else if direction == "left" then
      if shoulder.x < hip.x + Offset then Some(Assessment(true, Bad))
      else Some(Assessment(false, Good))
    else None
  }

  /** The node's remembered fields. */
  datatype State = State(posture: Option<Verdict>, shoulderBeforeHip: Option<bool>)

  const Initial := State(None, None)

  /** The two fields are either both unset or agree: shoulder before hip exactly when Bad. */
  predicate Consistent(st: State) {
    && (st.posture.None? <==> st.shoulderBeforeHip.None?)
    && (st.posture.Some? ==> (st.shoulderBeforeHip.value <==> st.posture.value == Bad))
  }

  /** The assessment one frame produces, if its guard leads to a comparison in a known direction. */
  function CheckAssessment(direction: string, c: Check): (a: Option<Assessment>)
    ensures a.Some? <==> c.Compare? && (direction == "right" || direction == "left")
  {
    if c.Compare? then Classify(direction, c.shoulder, c.hip) else None
  }

  /** The fields after one call: overwritten by a fresh assessment, otherwise kept. */
  function Next(direction: string, st: State, c: Check): (st': State)
    ensures Consistent(st) ==> Consistent(st')
    ensures st.posture.Some? ==> st'.posture.Some?
    ensures !c.Compare? ==> st' == st
  {
    match CheckAssessment(direction, c)
    case Some(a) => State(Some(a.posture), Some(a.shoulderBeforeHip))
    case None => st
  }

  /** The text shown for the stored verdict; Python renders an unset one as "None". */
  function PostureText(posture: Option<Verdict>): (text: string)
    ensures text == "None" <==> posture.None?
  {
    match posture
    case None => "None"
    case Some(v) => v.Text()
  }

  /** The final draw of every completed call. */
  function VerdictOp(posture: Option<Verdict>): DrawOp {
    DrawOp(50, 50, "Posture: " + PostureText(posture), Black, VerdictScale)
  }

  // ----- The frame and the node -----

  /** An image buffer, seen as the text draws made on it so far. */
  class Frame {
    const width: nat
    const height: nat
    var ops: seq<DrawOp>

    constructor (width: nat, height: nat)
      ensures this.width == width && this.height == height && ops == []
    {
      this.width := width;
      this.height := height;
      ops := [];
    }
  }

  /** Draws `text` at (x, y) on the frame, in place. */
  method DrawText(img: Frame, x: int, y: int, text: string, colour: Colour, fontScale: real)
    modifies img
    ensures img.ops == old(img.ops) + [DrawOp(x, y, text, colour, fontScale)]
  {
    img.ops := img.ops + [DrawOp(x, y, text, colour, fontScale)];
  }

  /** How a call ends: it returns, or it raises because a local variable was never assigned. */
  datatype Outcome = Returned | UnboundLocalError(variable: string)

  class Node {
    const direction: string
    var shoulderBeforeHip: Option<bool>
    var posture: Option<Verdict>

    ghost predicate Valid()
      reads this
    {
      Consistent(State(posture, shoulderBeforeHip))
    }

    /** A node in its initial state; the source's node is `new Node(DefaultDirection)`. */
    constructor (direction: string)
      ensures this.direction == direction
      ensures posture == None && shoulderBeforeHip == None
      ensures Valid()
    {
      this.direction := direction;
      shoulderBeforeHip := None;
      posture := None;
    }

    /**
     * Processes one person's keypoints and scores on `img`: draws one label
     * per visible keypoint, then, unless the guard raises, updates the
     * remembered verdict and draws it.
     */
    method Run(img: Frame, keypoints: seq<Point>, scores: seq<real>) returns (outcome: Outcome)
      requires Valid()
      requires |keypoints| <= |scores|
      modifies this, img
      ensures Valid()
      ensures var check := FrameCheck(keypoints, scores);
              && State(posture, shoulderBeforeHip) == Next(direction, old(State(posture, shoulderBeforeHip)), check)
              && outcome == (if check.Raise? then UnboundLocalError(check.variable) else Returned)
              && img.ops == old(img.ops) + LabelOps(keypoints, scores, img.width, img.height, |keypoints|)
                            + (if check.Raise? then [] else [VerdictOp(posture)])
    {
      var imgSize := (img.width as int, img.height as int);
      var rightShoulder: Option<Point> := None;
      var rightHip: Option<Point> := None;
      var leftShoulder: Option<Point> := None;
      var leftHip: Option<Point> := None;

      for i := 0 to |keypoints|
        modifies img
        invariant img.ops == old(img.ops) + LabelOps(keypoints, scores, img.width, img.height, i)
        invariant rightShoulder == SlotAt(keypoints, scores, RightShoulder, i)
        invariant rightHip == SlotAt(keypoints, scores, RightHip, i)
        invariant leftShoulder == SlotAt(keypoints, scores, LeftShoulder, i)
        invariant leftHip == SlotAt(keypoints, scores, LeftHip, i)
      {
        var keypointScore := scores[i];
        if keypointScore >= Threshold {
          var pos := MapKeypointToImageCoords(keypoints[i], imgSize);
          var theColour, kpName;
          if i == RightShoulderIndex {
            rightShoulder := Some(keypoints[i]);
            theColour, kpName := Red, "right shoulder";
          } else if i == RightHipIndex {
            rightHip := Some(keypoints[i]);
            theColour, kpName := Red, "right hip";
          } else if i == LeftShoulderIndex {
            leftShoulder := Some(keypoints[i]);
            theColour, kpName := Yellow, "left shoulder";
          } else if i == LeftHipIndex {
            leftHip := Some(keypoints[i]);
            theColour, kpName := Yellow, "left hip";
          } else {
            theColour, kpName := Black, "";
          }
          DrawText(img, pos.0, pos.1, kpName, theColour, LabelScale);
        }
      }

      // assign shoulder and hip, then compare them; reading an unassigned variable raises
      var check := Guard(Select(Slots(rightShoulder, rightHip, leftShoulder, leftHip)));
      if check.Raise? {
        return UnboundLocalError(check.variable);
      }
      if check.Compare? {
        var assessment := Classify(direction, check.shoulder, check.hip);
        if assessment.Some? {
          shoulderBeforeHip := Some(assessment.value.shoulderBeforeHip);
          posture := Some(assessment.value.posture);
        }
      }

      var postureStr := "Posture: " + PostureText(posture);
      DrawText(img, 50, 50, postureStr, Black, VerdictScale);
      outcome := Returned;
    }
  }
}
