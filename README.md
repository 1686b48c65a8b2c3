# PoseGenerator, modelled in Dafny

This project models the `PoseGenerator` class of `tools/src/poseGenerator.cpp`. The class
plans the camera perturbations ("poses") used to augment a labelled video trace:

- The constructor turns configuration rules of the form (label string, `perturbParams`) into
  an ordered rule table. It rejects a rule whose label conditions are on a numeric field or
  are not valid labels.
- `getRandom` draws one bounded value from a Gaussian ("gaussian"/"normal") or uniform
  distribution on [-max, max]. The Gaussian draw is redrawn until it lies in range.
- `generateOnePose` draws shift, rotation and forward, then yaw, pitch and roll for every
  sensor name. `flipPose` mirrors a pose.
- `generatePoses4oneFrame` selects the first rule whose conditions match the frame's labels
  and produces `useCount` poses, flipping every second one when the rule asks for it.
- `generatePoses4vecFrames` does this for every frame of the trace.
- `generateShuffledPoses` flattens all frames' poses, shuffles them, and reshuffles until
  the first pose is not flipped.

Files:

- `outcomes.dfy` (module `Outcomes`): the exceptions as a `Result`, and the `Follows`
  relation between a method's result and its specification.
- `std_random.dfy` (module `StdRandom`): the `std::mt19937_64` engine as a stream of draws.
  It also holds the bounded Gaussian and uniform draws, and `std::shuffle` both as a function
  on sequences and as an in-place method on an array.
- `proj_meta_data.dfy` (module `ProjMetaData`): the label schema and the label trace, whose
  functions are parameters of the model.
- `augmenter.dfy` (module `Augmenter`): the `Augmenter::Pose` record.
- `pose_spec.dfy` (module `PoseSpec`): what each member of the class computes. These are
  functions of the random stream and of the stream position at the call. The module also
  holds the lemmas about them.
- `pose_generator.dfy` (module `PoseGenerator`): the class itself.
  - `pos` is the engine's state: the number of distribution calls made on `m_generator`. It is not the number of raw engine outputs. For example, libstdc++'s `normal_distribution` uses two or more engine outputs per fresh pair and none when it returns its cached second value.
  - Each method is proved to return what its specification function returns.
  - When a method returns normally, it leaves `pos` where the specification says the engine stands afterwards.
  - Exactly these exceptions are proved to leave `pos` unchanged:
    - an unknown distribution in `getRandom`;
    - an unknown `shift` distribution in `generateOnePose`;
    - a frame that matches no rule, in `generatePoses4oneFrame`;
    - a trace-length mismatch in `generatePoses4vecFrames` and `generateShuffledPoses`.
  - After any other exception, `pos` is unspecified.

The engine is a `Stream` of three total functions: the k-th draw seen through
`normal_distribution(0, stdDev)`, as a canonical variate in [0, 1), and as a raw integer.
Each distribution call consumes one position. The stream and the start position determine
every result of a call that returns normally. Except in the cases listed above, the contracts do not
fix the engine position after an exception. So if a caller catches such an exception and
keeps using the generator, the contracts do not determine its later draws.

The rejection loop of `genGaussianRV` and the reshuffle loop of `generateShuffledPoses`
end only with probability 1. The model states that as two fairness predicates on the
stream, which the class keeps as its invariant `Valid()`:

- `Fair`: every canonical variate lies in [0, 1). Also, for parameters satisfying
  `GaussianTerminates` (max > 0, or max >= 0 with stdDev = 0), some later Gaussian draw lies
  in [-max, max].
- `ShuffleFair`: reshuffling a sequence that holds an unflipped pose eventually puts one
  first.

Both predicates hold with probability 1. A Gaussian field with max = 0 and stdDev != 0 is
excluded by `Drawable`. The source's loop at lines 208-211 would then need a draw of
exactly 0. That has probability 0 for real-valued draws and about 2^-54 per draw for
doubles, so in practice the loop never ends. A Gaussian field with max = 0 and stdDev = 0,
as in the test fixture, stays allowed.

The loops are proved to terminate against the first position or round at which they stop.

A field is `Drawable` when a known distribution has max >= 0 and its Gaussian draw satisfies
`GaussianTerminates`. With max < 0 the Gaussian loop never ends and the uniform interval
[-max, max] is empty. The members require this only of the fields and frames the source
actually reaches:

- `PoseDrawable`: shift, rotation and forward in that order, each only if the earlier ones
  name known distributions (an unknown one throws before the next draw). The sensor fields
  count only if all three name known distributions and there is at least one sensor name.
- `SensorsDrawable`: the same rule for yaw, pitch and roll within one sensor iteration.
- `RunDrawable`: the selected rule of a frame must be `PoseDrawable` only if the frame needs
  poses and the frame loop reaches it, that is, every earlier frame can be planned
  (`Reaches`). A frame that fails ends the loop, so later frames are unconstrained.
- `PlanDrawable`: nothing when the trace length differs from the frame count, since the
  method then throws before drawing; otherwise `RunDrawable` over all frames.

## Model

| member | source | states |
|---|---|---|
| `StdRandom.UniformValue` | tools/src/poseGenerator.cpp:216-223 | `uniform_real_distribution(-max, max)` applied to a variate in [0, 1) gives a value in [-max, max] |
| `StdRandom.FirstGaussianExists` | tools/src/poseGenerator.cpp:207-211 | if some draw at or after p is in range, there is a first such draw |
| `StdRandom.GaussianIndex` | tools/src/poseGenerator.cpp:207-211 | the position where the rejection loop stops: its draw is in [-max, max] and every earlier draw from p on is not |
| `StdRandom.SwapRunPermutes` | tools/src/poseGenerator.cpp:93 | `SwapRun` models the swaps of `std::shuffle` from index i on: element i is exchanged with the element at raw % (i + 1). The lemma proves they give a permutation and use one draw per swap |
| `StdRandom.ShufflePermutes` | tools/src/poseGenerator.cpp:93 | `ShuffleSeq` models `std::shuffle`. The lemma proves it gives a permutation of the same length and advances the engine by length - 1 draws |
| `StdRandom.ReshuffledPermutes` | tools/src/poseGenerator.cpp:95-98 | `Reshuffled` models m passes of the reshuffle loop, one shuffle each. The lemma proves any number of them gives a permutation |
| `StdRandom.ShuffleInPlace` | tools/src/poseGenerator.cpp:93 | the in-place shuffle of an array leaves it holding exactly the shuffled sequence, with the engine at the position after its draws |
| `PoseSpec.Sample` | tools/src/poseGenerator.cpp:181-198 | `getRandom` succeeds if and only if the name is "gaussian", "normal" or "uniform", and otherwise throws `invalid_argument`; a value it returns lies in [-max, max]; the engine advances |
| `PoseSpec.InsertFirst` | tools/src/poseGenerator.cpp:159-163 | `std::map::insert` adds the key, keeps every existing value, and stores the new value only when the key was absent |
| `PoseSpec.SensorTriple` | tools/src/poseGenerator.cpp:158-163 | one sensor iteration draws yaw, pitch and roll in order, each within its max, and fails exactly when one of the three distributions is unknown |
| `PoseSpec.SensorDraws` | tools/src/poseGenerator.cpp:156-164 | the sensor loop succeeds if and only if there are no sensors or all three sensor distributions are known; it takes at least three draws per sensor |
| `PoseSpec.SensorDrawsKeys` | tools/src/poseGenerator.cpp:156-164 | the sensor loop adds exactly the sensor names as keys of the yaw, pitch and roll maps |
| `PoseSpec.SensorDrawsValues` | tools/src/poseGenerator.cpp:156-164 | the sensor loop never overwrites a value already in a map, and keeps every value within its field's max |
| `PoseSpec.RepeatedSensorKeepsFirstDraw` | tools/src/poseGenerator.cpp:156-164 | a sensor named twice keeps its first iteration's three values; the second iteration still draws three values |
| `PoseSpec.Sensors` | tools/src/poseGenerator.cpp:156-164 | the sensor loop from empty maps succeeds exactly when there are no sensor names or all three sensor distributions are known; each map then has exactly the sensor names as keys, with every value within its field's max |
| `PoseSpec.OnePose` | tools/src/poseGenerator.cpp:146-168 | `generateOnePose` succeeds if and only if every distribution it draws from is known; the pose is unflipped, its three sensor maps have exactly the sensor names as keys, and every value is within its field's max |
| `PoseSpec.FlipPose` | tools/src/poseGenerator.cpp:170-179 | `flipPose` sets `flip`, negates shift and rotation, and leaves forward, the sensor maps and the source frame unchanged |
| `PoseSpec.FlipKeepsBounds` | tools/src/poseGenerator.cpp:170-179 | a flipped pose is within bounds and carries the sensor names exactly when the original does |
| `PoseSpec.FirstMatch` | tools/src/poseGenerator.cpp:113-118 | `find_if` gives the first rule, in stored order, whose conditions match the frame, or none exactly when no rule matches |
| `PoseSpec.PoseRun` | tools/src/poseGenerator.cpp:122-135 | the pose loop yields `useCount` poses; pose i has the frame index as source frame and is flipped exactly when the rule flips and i is odd |
| `PoseSpec.FramePoses` | tools/src/poseGenerator.cpp:102-144 | a frame with `useCount` 0 gets no poses without consulting the rules; otherwise no matching rule throws `runtime_error`, and success means `useCount` poses from the first matching rule with the flip parity above |
| `PoseSpec.NumFrames` | tools/src/poseGenerator.cpp:48 | the frame count is the use-count vector's size truncated to 32 bits, and equals it below 2^32 |
| `PoseSpec.FrameRun` | tools/src/poseGenerator.cpp:59-65 | on success the frame loop yields one list per frame, with the lists of the frames already done left in front unchanged |
| `PoseSpec.FrameRunOutcome` | tools/src/poseGenerator.cpp:59-65 | the frame loop succeeds exactly when every remaining frame can be planned (`Reaches`), and fails only with a frame's own exception: no matching rule or an unknown distribution |
| `PoseSpec.FrameRunPlanned` | tools/src/poseGenerator.cpp:59-65 | on success each frame's list is `FramePlanned` for that frame: `useCount` poses from its first matching rule, from that frame, with the flip parity of `generatePoses4oneFrame` |
| `PoseSpec.AllFrames` | tools/src/poseGenerator.cpp:44-71 | `generatePoses4vecFrames` fails with the count-mismatch `invalid_argument` (`FrameCountMismatch`) if and only if the trace length differs from the frame count; any other failure comes from a frame (an unknown distribution or a frame with no rule); on success, one list per frame, each planned for its frame, none starting with a flipped pose; the `runtime_error` at line 68 is never thrown |
| `PoseSpec.FlattenHasUnflipped` | tools/src/poseGenerator.cpp:80-87 | flattening lists that never start with a flipped pose gives, when not empty, a sequence holding an unflipped pose |
| `PoseSpec.PermutationKeepsUnflipped` | tools/src/poseGenerator.cpp:93-98 | a permutation of a sequence holding an unflipped pose holds one too |
| `PoseSpec.FirstReshuffleExists` | tools/src/poseGenerator.cpp:95-98 | if some number of reshuffles puts an unflipped pose first, there is a least such number |
| `PoseSpec.ReshuffleCount` | tools/src/poseGenerator.cpp:95-98 | the number of reshuffles the loop performs: after it the front pose is unflipped, and after fewer it is not |
| `PoseSpec.ShuffleUntilFrontUnflipped` | tools/src/poseGenerator.cpp:93-98 | shuffling and then reshuffling while the first pose is flipped gives a permutation whose first pose is unflipped |
| `PoseSpec.ShuffledPoses` | tools/src/poseGenerator.cpp:73-100 | `generateShuffledPoses` fails exactly when `generatePoses4vecFrames` does, with the same exception; it returns a permutation of the frame-by-frame flattened poses whose first pose, if any, is unflipped |
| `PoseGenerator.ParseConfigRules` | tools/src/poseGenerator.cpp:19-41 | `Acceptable` is the check at lines 25-37: every condition is on a non-numeric field and is a valid label. The rule loop succeeds if and only if every rule is `Acceptable`, and otherwise throws `invalid_argument`; on success one rule per entry, in input order, pairing the parsed conditions with the entry's params |
| `PoseGenerator.FlattenFrames` | tools/src/poseGenerator.cpp:80-87 | `Flatten` is the frames' poses concatenated in frame order, each frame in its own order. The nested flattening loop is proved to yield exactly that |
| `PoseGenerator.PoseGenerator.constructor` | tools/src/poseGenerator.cpp:15-18 | the generator stores the rules and the sensor names, with its engine at the start of the stream |
| `PoseGenerator.PoseGenerator.Create` | tools/src/poseGenerator.cpp:15-41 | the constructor throws exactly when the rule loop does; otherwise the new generator holds the parsed rules in order and the sensor names |
| `PoseGenerator.PoseGenerator.GetRandom` | tools/src/poseGenerator.cpp:181-198 | `getRandom` returns what `Sample` specifies and leaves the engine where `Sample` says; an unknown distribution throws without drawing |
| `PoseGenerator.PoseGenerator.GenGaussianRV` | tools/src/poseGenerator.cpp:200-214 | the rejection loop returns the first in-range Gaussian draw and leaves the engine just after it |
| `PoseGenerator.ReshuffleInPlace` | tools/src/poseGenerator.cpp:95-98 | the `while (flattenedPoses.at(0).flip)` loop reshuffles the array in place exactly `ReshuffleCount` times, the least number after which the first pose is unflipped |
| `PoseGenerator.PoseGenerator.GenUniformRV` | tools/src/poseGenerator.cpp:216-223 | one draw, scaled to [-max, max] |
| `PoseGenerator.PoseGenerator.GenerateOnePose` | tools/src/poseGenerator.cpp:146-168 | `generateOnePose` returns what `OnePose` specifies, with the engine where `OnePose` says; an unknown `shift` distribution throws without drawing |
| `PoseGenerator.PoseGenerator.GeneratePosesForOneFrame` | tools/src/poseGenerator.cpp:102-144 | `generatePoses4oneFrame` returns what `FramePoses` specifies; a frame matching no rule throws without drawing |
| `PoseGenerator.PoseGenerator.GeneratePosesForAllFrames` | tools/src/poseGenerator.cpp:44-71 | `generatePoses4vecFrames` returns what `AllFrames` specifies; a trace-length mismatch throws without drawing |
| `PoseGenerator.PoseGenerator.ShuffleUntilFront` | tools/src/poseGenerator.cpp:93-98 | the in-place shuffle and reshuffle loop leave the array holding what `ShuffleUntilFrontUnflipped` specifies |
| `PoseGenerator.PoseGenerator.GenerateShuffledPoses` | tools/src/poseGenerator.cpp:73-100 | `generateShuffledPoses` returns what `ShuffledPoses` specifies; a trace-length mismatch throws without drawing |

## Left out

- The internals of `std::mt19937_64`, and the exact shapes of `normal_distribution` and `uniform_real_distribution`. The engine is an arbitrary stream of draws. Only the in-range guarantee and the advance of the engine are modelled. The seed is not modelled: the stream stands for what the seeded engine produces.
- Floating point. `double` and `float` are `real`, so the double-to-float narrowing of `getRandom` and the `genXxxRV` returns is not modelled. The [-max, max] bound is proved for the real-valued model. The source can exceed it by up to half a float ulp when max is not a float value. For example, with max 0.8, a double in (0.79999998, 0.8] rounds to 0.8f, which is about 0.80000001.
- Termination of the Gaussian rejection loop and of the reshuffle loop holds only with probability 1. It is assumed through the fairness predicates `Fair` and `ShuffleFair`, which the constructor requires.
- `std::shuffle` is modelled as the textbook forward Fisher–Yates shuffle: element i is swapped with the element at index raw % (i + 1), one draw per swap. The library's exact way of turning engine output into indices is not modelled; only the permutation and the dependence on the engine matter here.
- The generator position after most exceptions. Examples are an unknown sensor distribution after shift, rotation and forward were drawn, or a later frame that fails. A C++ caller may catch the exception and keep using the generator. Its `m_generator` has then advanced by the draws made, and the contracts do not state by how many. Only the cases listed at the top of this file are proved to leave the position unchanged.
- Label-trace loading. `generatePoses4vecFrames` and `generateShuffledPoses` take the loaded trace (a datapoint count and a label-matching predicate) instead of the CSV file name. A failure to load the file is not modelled.
- `stringMapFromSplitString`, `isFieldNumeric`, `isLabelValid` and `doLabelsMatch` are not part of this model. They are parameters, whose behaviour is whatever the caller supplies.
- Exception message text, including the `"... for frame " + index` expression at line 140, which adds the index to the string literal's address instead of appending it.
- PoseGenerator.ParseConfigRules: a numeric-field condition and an invalid label throw the same `invalid_argument` in the model. Which of the two fires first depends on `std::map` key order, and only the message differs.
- PoseGenerator.PoseGenerator.GenGaussianRV: requires `GaussianTerminates`. This excludes a Gaussian field with max = 0 and stdDev != 0, because the loop at lines 208-211 would then need a draw of exactly 0.
- PoseGenerator.PoseGenerator.GetRandom: a Gaussian field with max = 0 and stdDev != 0 is excluded, as for GenGaussianRV.
- PoseSpec.Sample: a Gaussian field with max = 0 and stdDev != 0 is excluded, as for GenGaussianRV.
- PoseSpec.SensorTriple: a reached Gaussian field with max = 0 and stdDev != 0 is excluded, as for GenGaussianRV.
- PoseSpec.SensorDraws: a reached Gaussian field with max = 0 and stdDev != 0 is excluded, as for GenGaussianRV.
- PoseSpec.Sensors: a reached Gaussian field with max = 0 and stdDev != 0 is excluded, as for GenGaussianRV.
- PoseSpec.OnePose: a reached Gaussian field with max = 0 and stdDev != 0 is excluded, as for GenGaussianRV.
- PoseSpec.PoseRun: a reached Gaussian field with max = 0 and stdDev != 0 is excluded, as for GenGaussianRV.
- PoseSpec.FramePoses: a reached Gaussian field with max = 0 and stdDev != 0 is excluded, as for GenGaussianRV.
- PoseSpec.FrameRun: a reached Gaussian field with max = 0 and stdDev != 0 is excluded, as for GenGaussianRV.
- PoseSpec.AllFrames: a reached Gaussian field with max = 0 and stdDev != 0 is excluded, as for GenGaussianRV.
- PoseSpec.ShuffledPoses: a reached Gaussian field with max = 0 and stdDev != 0 is excluded, as for GenGaussianRV.
- PoseGenerator.PoseGenerator.GenerateOnePose: a reached Gaussian field with max = 0 and stdDev != 0 is excluded, as for GenGaussianRV.
- PoseGenerator.PoseGenerator.GeneratePosesForOneFrame: a reached Gaussian field with max = 0 and stdDev != 0 is excluded, as for GenGaussianRV.
- PoseGenerator.PoseGenerator.GeneratePosesForAllFrames: a reached Gaussian field with max = 0 and stdDev != 0 is excluded, as for GenGaussianRV.
- PoseGenerator.PoseGenerator.GenerateShuffledPoses: a reached Gaussian field with max = 0 and stdDev != 0 is excluded, as for GenGaussianRV.
- The `Augmenter` that consumes the poses, and the test harness with its CSV fixture.
