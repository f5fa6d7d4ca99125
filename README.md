# LSE gesture classifier

A model of the core of a small Spanish Sign Language (LSE) recogniser. For each hand that
an external landmark detector reports, the program reads 21 keypoints. From them it
derives four finger flags (index, middle, ring, pinky: 1 when the tip lies above its
joint) and a thumb flag (1 when the thumb tip lies left of joint 3). It then runs a
fixed chain of rules, and the first rule that holds names the sign. The label is looked
up in a table of meanings (`SENIAS_LSE`); unknown labels get the placeholder
"Seña desconocida".

Files:

- `option.dfy`: module `Wrappers`, the `Option` type of the classifier's result.
- `vocabulary.dfy`: module `Vocabulary`. It holds the 22 labels, the table `SeniasLse`, the
  label-to-key map `Key` and its inverse `LabelOf`, and the defaulting lookup `Describe`.
- `landmarks.dfy`: module `Landmarks`. It holds `Landmark` with exact real coordinates and
  the finger flags. `FingerFlags` is the specification function. `FingerStates` is the
  appending loop of the source, proved equal to it.
- `gestures.dfy`: module `Gestures`. `Rules` is the rule chain, rule by rule, including the
  rules that can never fire. `Classify` is the classifier on a hand, and `Detect` is the
  classifier run as the source runs it (loop, then rules). The heart rule's `cv2.line`
  call is an optional `LineRequest` in the result, not a write into an image. `Caption` is
  the meaning shown for a hand.
- `properties.dfy`: module `GestureProperties`. `Decision` is an independent decision table
  with the dead rules removed. `ClassifyMatchesDecision` proves that the rule chain
  computes it. The other lemmas prove the shadowing facts and show that exactly nine
  labels are produced.

What the proofs establish:

- Only "mano_abierta", "pulgar_arriba", "seña_paz", "seña_ok", "señalar", "tres",
  "seis", "siete" and "nueve" are ever returned.
- Each of these nine is returned for some hand, and some hand gets no label.
- "uno", "dos", "cuatro", "cinco", "ocho", "diez" and "corazón" are dead. So are the
  letters and phrases, since no rule names them.
- The heart branch, together with its line drawing, is dead code. Its pose forces the
  flags [1,0,0,0], which the pointing rule (or the earlier "ok" rule) already takes.

The hand is a `seq<Landmark>` with the precondition `|hand| >= 21`. The source indexes
landmarks 0 to 20 and does no length check of its own. A description of this system
says a hand of the wrong length is rejected with an InvalidInput error. The code has no
such check, so the model follows the code.

## Model

| member | source | states |
|---|---|---|
| `Vocabulary.Key` | mediapipe_test.py:5-32 | the string key of every label is a key of the meaning table |
| `Vocabulary.LabelOf` | mediapipe_test.py:5-32 | a string that parses to a label is that label's key |
| `Vocabulary.TableKeysAreLabels` | mediapipe_test.py:5-32 | a string is a key of the table exactly when it is the key of some label |
| `Vocabulary.KeyRoundTrip` | mediapipe_test.py:5-32 | parsing a label's key gives the label back, so distinct labels have distinct keys |
| `Vocabulary.Describe` | mediapipe_test.py:132 | the lookup is total and never empty; a key in the table yields its meaning; the result is "Seña desconocida" exactly for strings not in the table |
| `Landmarks.FingerFlags` | mediapipe_test.py:54-55 | one flag per (tip, base) pair, in order, each 0 or 1, and 1 exactly when the tip's y is strictly less than the base's y |
| `Landmarks.FingerStates` | mediapipe_test.py:53-55 | the appending loop over (8,6), (12,10), (16,14), (20,18) yields four flags, each 1 exactly when that tip is above its base |
| `Landmarks.FingerStateMeaning` | mediapipe_test.py:53-57 | the four flags and the thumb flag spelled out landmark by landmark: the thumb flag is 1 exactly when landmark 4's x is below landmark 3's x |
| `Gestures.Detect` | mediapipe_test.py:48-106 | running the finger loop, the thumb test and the rule chain gives the classifier's result |
| `GestureProperties.SumOfFlags` | mediapipe_test.py:54-60 | the sum of a list of flags lies between 0 and its length; it equals the length exactly when all flags are 1, and 0 exactly when all are 0 |
| `GestureProperties.ClassifyMatchesDecision` | mediapipe_test.py:60-106 | the rule chain as written equals the nine-row decision table on the raw landmark comparisons, and never requests a line |
| `GestureProperties.OpenHandWins` | mediapipe_test.py:60 | all four fingertips above their joints gives "mano_abierta", whatever the thumb and the thumb–index distance |
| `GestureProperties.OkSignWins` | mediapipe_test.py:60-64 | thumb tip and index tip closer than 0.03 on both axes gives "seña_ok" whenever the open-hand, thumbs-up and peace rules do not hold, whatever the other fingers do |
| `GestureProperties.FingerCountBounded` | mediapipe_test.py:54-55 | the finger count lies in 0..4 (so the count-of-five rule never holds) and is 4 exactly when the flags are [1,1,1,1] |
| `GestureProperties.DeadLabels` | mediapipe_test.py:68-104 | "uno", "dos", "cuatro", "cinco", "ocho", "diez" and "corazón" are never returned |
| `GestureProperties.HeartIsShadowed` | mediapipe_test.py:86-104 | the heart pose forces the flags [1,0,0,0], and such a hand is classified as "seña_ok" or "señalar" with no line request |
| `GestureProperties.ResultRange` | mediapipe_test.py:60-106 | every result is no label or one of the nine produced labels; each of those is in the table with a meaning other than the placeholder; no line is ever requested |
| `GestureProperties.CaptionIsKnown` | mediapipe_test.py:131-132 | a meaning is shown exactly when a label was returned, and it is never "Seña desconocida" |
| `GestureProperties.ThumbsUpMeansBien` | mediapipe_test.py:61 | no finger extended and thumb extended gives "pulgar_arriba", shown as "Bien" |
| `GestureProperties.PeaceMeansPaz` | mediapipe_test.py:62 | index and middle extended with ring and pinky bent gives "seña_paz", shown as "Paz" |
| `GestureProperties.ProducedIsReachable` | mediapipe_test.py:60-80 | each of the nine produced labels is returned for some 21-landmark hand |
| `GestureProperties.NoLabelIsReachable` | mediapipe_test.py:106 | some 21-landmark hand gets no label |
| `GestureProperties.ProducedExactly` | mediapipe_test.py:60-106 | a label is returned for some hand exactly when it is one of the nine |

## Left out

- The camera loop (mediapipe_test.py:108-151) is I/O and user interface: frame capture, colour conversion, `manos.process`, `imshow`, `waitKey` and resource release.
- The MediaPipe `Hands` configuration and its drawing utilities (mediapipe_test.py:35-43, 126-127) are calls into a library outside this model.
- All `cv2` drawing and text output (mediapipe_test.py:100-103, 120-122, 135-144) is left out. The heart rule's line appears only as a `LineRequest` value in normalized coordinates. Its conversion to pixels (`int(… * imagen.shape)`) is not modelled.
- Floating point is not modelled. Coordinates are exact reals, and the thresholds 0.03 and 0.05 are the exact fractions 3/100 and 5/100. NaN and rounding are not represented.
- The depth coordinate `z` of a landmark is never read by the classifier and is not modelled.
- Hands shorter than 21 landmarks are excluded by a precondition. In the source they would raise an index error, not a typed InvalidInput result.
- `Gestures.Rules`: in the dead "cuatro" rule (mediapipe_test.py:71), the two pure conjuncts are written in the opposite order. This has no effect on the result.
