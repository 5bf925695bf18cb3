# Posture assessment node, modelled in Dafny

The system judges seated posture from the keypoints of one person. A
pose-estimation model produces the keypoints, and the node draws on the
video frame. For each frame the node:

1. labels every keypoint whose confidence score is at least the threshold
   (0.1), and records the right and left shoulders (indices 6, 5) and hips
   (indices 12, 11);
2. picks a shoulder and a hip: the complete left pair first, then the
   complete right pair, then a mixed fallback that settles each part alone;
3. compares their x coordinates for the configured facing direction, with a
   tolerance of 0.03, and stores "Good :)" or "Bad :(", together with a
   `shoulder_before_hip` flag;
4. draws "Posture: <stored verdict>" at (50, 50).

The verdict persists between calls. A frame that resolves no pair, or a
direction other than "right" or "left", leaves the previous verdict in
place. Before the first verdict, "None" is shown.

Files:

- `options.dfy`: module `Options`, the optional value used for Python's `None`.
- `assess.dfy`: module `Assess`, the model.
  - The constants, the data types (`Point`, `Colour`, `DrawOp`, `Verdict`, `Landmark`) and the coordinate mapping.
  - The specification functions: visible indices, label draws, landmark slots, `Select`, the guard, `Classify`, `Next`.
  - The classes. `Frame` is an image seen as the list of text draws made on it. `Node` has the fields `posture` and `shoulderBeforeHip`, and its `Run` method keeps the source's loop over keypoints.
- `properties.dfy`: module `AssessProperties`. Lemmas about the model, a pure replay of several calls, and a worked two-frame scenario that drives a `Node`.

How the source's behaviour is represented:

- `Run` keeps the source's loop over keypoints, the four slot variables and
  the field updates. The selection block, the guard and the comparison have
  no loops and no effects, so they are the functions `Select`, `Guard` and
  `Classify`, and `Run` calls them.
- The local variables `shoulder` and `hip` of the selection block are
  modelled as a `Binding`, which is one of: bound to a point, bound to `None`,
  or never assigned. The mixed fallback assigns a part only when at most one
  side of it is present.
- With both shoulders and no hip, `shoulder` stays unassigned. The guard
  `hip is not None and shoulder is not None` stops at `hip` (None), so nothing
  is compared.
- With both hips and no shoulder, `hip` stays unassigned, and the guard reads it
  first. The source then raises `UnboundLocalError`. The model keeps this.
  `Run` returns `UnboundLocalError("hip")`. The label draws already made stay on
  the frame, the stored fields are unchanged, and no verdict is drawn.
- The docstring of `run` (lines 73-81) mentions no error. The model keeps
  the exception, as the code raises it.
- The facing direction is a module-level constant in the source with the
  value "right". Here it is a constant field of `Node`, given to the
  constructor. The source's node is `new Node(DefaultDirection)`; the
  parameter makes "left" and an unrecognised direction expressible.
- `int()` on the scaled coordinates truncates toward zero (`Trunc`). For
  coordinates in [0, 1] this equals the floor.

## Model

| member | source | states |
|---|---|---|
| `Assess.MapKeypointToImageCoords` | pose_estimation/src/custom_nodes/dabble/assess.py:23-42 | for x, y in [0,1] and a non-negative width and height, the pixel lies in [0,width]×[0,height] and each coordinate is the floor of the scaled value |
| `Assess.Trunc` | pose_estimation/src/custom_nodes/dabble/assess.py:42 | `int()` on a real: within one unit of it and on the zero side (toward zero), the floor for non-negative values |
| `AssessProperties.PixelRoundTrip` | pose_estimation/src/custom_nodes/dabble/assess.py:38-42 | dividing the pixel back by the image size recovers the normalised coordinate to within one pixel: px/w <= x < (px+1)/w |
| `Assess.LandmarkAt` | pose_estimation/src/custom_nodes/dabble/assess.py:18-21 | the landmark at an index has that index, and there is none exactly when no tracked landmark has it |
| `AssessProperties.VisibleIndicesSpec` | pose_estimation/src/custom_nodes/dabble/assess.py:97-101 | the visited indices that pass the filter are exactly those with score >= 0.1, in strictly increasing order |
| `AssessProperties.LabelOpsSpec` | pose_estimation/src/custom_nodes/dabble/assess.py:97-126 | the loop's label draws are, in index order, one label per visible index, for that index's keypoint |
| `AssessProperties.OneLabelPerVisibleKeypoint` | pose_estimation/src/custom_nodes/dabble/assess.py:99-126 | a keypoint with score >= 0.1 (0.1 included) gets exactly one label draw; one with a lower score gets none |
| `AssessProperties.LabelStyle` | pose_estimation/src/custom_nodes/dabble/assess.py:102-126 | a label is drawn at the keypoint's mapped pixel at scale 0.7; red exactly for 6 and 12, yellow exactly for 5 and 11, each with its landmark name; an empty black label for every other index |
| `AssessProperties.InvisibleKeypointNotLabelled` | pose_estimation/src/custom_nodes/dabble/assess.py:97-126 | replacing the coordinates of a keypoint below the threshold changes none of the label draws |
| `AssessProperties.InvisibleKeypointIgnored` | pose_estimation/src/custom_nodes/dabble/assess.py:99-120 | a keypoint below the threshold is never recorded as a shoulder or hip, and its coordinates change neither the labels nor the comparison outcome |
| `AssessProperties.SelectionPrecedence` | pose_estimation/src/custom_nodes/dabble/assess.py:129-148 | the complete left pair wins whatever the right side holds, then the complete right pair; otherwise a part takes the side that alone is present |
| `AssessProperties.MixedFallbackOutcomes` | pose_estimation/src/custom_nodes/dabble/assess.py:135-152 | one shoulder and one hip on opposite sides form a mixed pair; two shoulders and no hip compare nothing; two hips and no shoulder leave `hip` unassigned and the guard raises |
| `AssessProperties.GuardCases` | pose_estimation/src/custom_nodes/dabble/assess.py:129-152 | over all 16 presence combinations, the guard raises exactly for "both hips, no shoulder" (on `hip`), and compares exactly when some shoulder and some hip are present. A compared point always comes from a recorded slot of its part |
| `Assess.Classify` | pose_estimation/src/custom_nodes/dabble/assess.py:152-166 | there is a verdict exactly when the direction is "right" or "left", and the shoulder-before-hip flag is set exactly when the verdict is Bad |
| `AssessProperties.RightRule` | pose_estimation/src/custom_nodes/dabble/assess.py:153-159 | facing right: Bad exactly when shoulder.x > hip.x - 0.03; equality gives Good |
| `AssessProperties.LeftRule` | pose_estimation/src/custom_nodes/dabble/assess.py:160-166 | facing left: Bad exactly when shoulder.x < hip.x + 0.03; equality gives Good |
| `AssessProperties.LeftMirrorsRight` | pose_estimation/src/custom_nodes/dabble/assess.py:153-166 | the left rule equals the right rule applied to horizontally mirrored points |
| `AssessProperties.OnlyXCompared` | pose_estimation/src/custom_nodes/dabble/assess.py:152-166 | points that agree in x give the same result whatever their y |
| `AssessProperties.NextRetainsOrOverwrites` | pose_estimation/src/custom_nodes/dabble/assess.py:152-166 | without a comparison, or with an unrecognised direction, both fields are kept; otherwise both are overwritten consistently; a set verdict is never cleared |
| `AssessProperties.ReplayShowsLastAssessment` | pose_estimation/src/custom_nodes/dabble/assess.py:152-166 | after any sequence of calls the fields show the assessment of the latest call that produced one, or are as they were before the first call |
| `AssessProperties.LastAssessmentCons` | pose_estimation/src/custom_nodes/dabble/assess.py:152-166 | the latest assessment of a sequence of calls is that of its tail, or failing that that of its first call |
| `AssessProperties.LastAssessmentIsConsistent` | pose_estimation/src/custom_nodes/dabble/assess.py:155-165 | every recorded assessment has the flag set exactly when the verdict is Bad |
| `AssessProperties.ReplayFromInitial` | pose_estimation/src/custom_nodes/dabble/assess.py:69-70 | starting from the unset fields, the verdict stays unset exactly while no call has produced an assessment, and the two fields always agree |
| `AssessProperties.VerdictDraw` | pose_estimation/src/custom_nodes/dabble/assess.py:168-169 | the verdict draw is at (50,50) in black at scale 1. It reads "Posture: None" exactly while no verdict is set, and otherwise "Posture: Bad :(" or "Posture: Good :)" |
| `AssessProperties.LeftPairSlouching` | pose_estimation/src/custom_nodes/dabble/assess.py:153-159 | worked examples: left pair 0.40 vs 0.42 and 0.40 vs 0.30 are Bad, 0.20 vs 0.30 is Good |
| `Assess.VisibleIndices` | pose_estimation/src/custom_nodes/dabble/assess.py:97-101 | the indices the loop lets through the score filter; proved in `AssessProperties.VisibleIndicesSpec` to be exactly those with score >= 0.1, in increasing order |
| `Assess.LabelOp` | pose_estimation/src/custom_nodes/dabble/assess.py:102-126 | the one label drawn for a visible keypoint; its position, scale, colour and text are proved in `AssessProperties.LabelStyle` |
| `Assess.LabelOps` | pose_estimation/src/custom_nodes/dabble/assess.py:97-126 | the label draws of the loop over the first n keypoints; proved in `AssessProperties.LabelOpsSpec` to be one `LabelOp` per visible index in order. `Run`'s loop invariant ties the frame to it |
| `Assess.SlotAt` | pose_estimation/src/custom_nodes/dabble/assess.py:92-120 | the value the loop leaves in one of the four landmark variables: the keypoint when its index was visited and is visible, else None. `Run`'s loop invariants tie the four variables to it, and `AssessProperties.InvisibleKeypointIgnored` proves an invisible keypoint leaves it None |
| `Assess.Tracked` | pose_estimation/src/custom_nodes/dabble/assess.py:92-126 | the four landmark variables after the whole loop; see `Assess.SlotAt` |
| `Assess.Select` | pose_estimation/src/custom_nodes/dabble/assess.py:129-148 | `shoulder` is None exactly when neither shoulder is present, and unassigned exactly when both shoulders and no hip are present; the same holds for `hip` with the parts swapped. Precedence is proved in `AssessProperties.SelectionPrecedence` |
| `Assess.Guard` | pose_estimation/src/custom_nodes/dabble/assess.py:152 | the short-circuit test `hip is not None and shoulder is not None`. It raises exactly when `hip` is unassigned, or `hip` is set and `shoulder` is unassigned. It compares exactly when both hold points, and then compares those points |
| `Assess.FrameCheck` | pose_estimation/src/custom_nodes/dabble/assess.py:129-152 | the guard outcome on one person's keypoints. On real keypoints a raise is always on `hip`, never on `shoulder`; all 16 cases are proved in `AssessProperties.GuardCases` |
| `Assess.CheckAssessment` | pose_estimation/src/custom_nodes/dabble/assess.py:152-166 | there is a fresh assessment exactly when the guard compares and the direction is "right" or "left" |
| `Assess.Next` | pose_estimation/src/custom_nodes/dabble/assess.py:152-166 | the fields after one call keep their consistency, a set verdict stays set, and without a comparison they are unchanged. The full rule is in `AssessProperties.NextRetainsOrOverwrites` |
| `Assess.PostureText` | pose_estimation/src/custom_nodes/dabble/assess.py:168 | the formatted verdict is "None" exactly when no verdict is set |
| `Assess.VerdictOp` | pose_estimation/src/custom_nodes/dabble/assess.py:168-169 | the final verdict draw; its position, colour, scale and text are proved in `AssessProperties.VerdictDraw` |
| `Assess.Frame.constructor` | pose_estimation/src/custom_nodes/dabble/assess.py:83-87 | the `img` buffer a call draws on, with its width and height and no draws yet |
| `Assess.DrawText` | pose_estimation/src/custom_nodes/dabble/assess.py:44-56 | appends one draw record (origin, text, colour, scale) to the frame, in place |
| `Assess.Node.constructor` | pose_estimation/src/custom_nodes/dabble/assess.py:66-70 | `posture` and `shoulderBeforeHip` both start unset |
| `Assess.Node.Run` | pose_estimation/src/custom_nodes/dabble/assess.py:72-171 | The new fields are `Next` of the old ones and the guard outcome, and they stay consistent. The call raises exactly when the guard does. Then the frame gains the label draws followed by the verdict draw; on a raise it gains only the labels |

## Left out

- Rendering through OpenCV is left out: `cv2.putText`, the font face, the stroke thickness and what the colour channels mean. A draw is recorded as its origin, text, colour and font scale only.
- The unused `WHITE` and `FONT` constants are left out.
- The base node class and its configuration are left out, and so are the pipeline's input and output dictionaries (lines 7, 67, 83-87, 171). `Run` takes the frame and the first person's keypoints and scores directly.
- Taking the first person (`keypoints[0]`, `keypoint_scores[0]`, lines 90-91) is left out. On an empty detection list the source raises `IndexError`; the model does not cover that case.
- Assess.Node.Run: requires at least as many scores as keypoints. Line 99 raises `IndexError` otherwise, and that error path is not modelled.
- Coordinates, scores and the 0.03 tolerance are exact reals, not IEEE doubles. A boundary comparison on floats may round differently.
- numpy arrays and `.tolist()` are left out. A keypoint is a pair of reals, so the unpacking `x, y = keypoint` cannot fail in the model.
- The stale-state rule over several calls is stated on a pure replay of `Next` (`AssessProperties.Replay`). There is no loop of `Node.Run` over a video stream; `Run`'s contract ties each single call to `Next`.
- Concurrency is left out. The source is single-threaded per node.
