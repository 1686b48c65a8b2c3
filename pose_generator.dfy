/** The `PoseGenerator` class of tools/src/poseGenerator.cpp. Each method is proved to agree
    with its specification function in PoseSpec, given the generator position before the call. */
module PoseGenerator {
  import opened Outcomes
  import opened StdRandom
  import opened ProjMetaData
  import opened Augmenter
  import opened PoseSpec

  /** The rule loop of the constructor: parse each rule's label string, reject it if one of
      its conditions is on a numeric field or is not a valid label, and keep the rules in
      configuration order. */
  method ParseConfigRules(configRules: seq<ConfigRule>, schema: LabelSchema) returns (r: Result<seq<Rule>>)
    ensures r.Ok? <==> forall i :: 0 <= i < |configRules| ==> Acceptable(schema, schema.parse(configRules[i].labels))
    ensures r.Err? ==> r.error == BadLabelCondition
    ensures r.Ok? ==> |r.value| == |configRules|
    ensures r.Ok? ==> forall i :: 0 <= i < |configRules| ==>
                        r.value[i] == Rule(schema.parse(configRules[i].labels), configRules[i].params)
  {
    var perturbRules: seq<Rule> := [];
    for i := 0 to |configRules|
      invariant |perturbRules| == i
      invariant forall k :: 0 <= k < i ==>
                  && perturbRules[k] == Rule(schema.parse(configRules[k].labels), configRules[k].params)
                  && Acceptable(schema, schema.parse(configRules[k].labels))
    {
      var labelConditions := schema.parse(configRules[i].labels);
      var unchecked := labelConditions.Keys;
      while unchecked != {}
        invariant unchecked <= labelConditions.Keys
        invariant forall field :: field in labelConditions && field !in unchecked ==>
                    !schema.isFieldNumeric(field) && schema.isLabelValid(field, labelConditions[field])
        decreases unchecked
      {
        var field :| field in unchecked;
        if schema.isFieldNumeric(field) {
          return Err(BadLabelCondition);
        }
        if !schema.isLabelValid(field, labelConditions[field]) {
          return Err(BadLabelCondition);
        }
        unchecked := unchecked - {field};
      }
      perturbRules := perturbRules + [Rule(labelConditions, configRules[i].params)];
    }
    return Ok(perturbRules);
  }

  /** The nested loop of `generateShuffledPoses` that appends every frame's poses in order. */
  method FlattenFrames(frames: seq<seq<Pose>>) returns (flat: seq<Pose>)
    ensures flat == Flatten(frames)
  {
    flat := [];
    for i := 0 to |frames|
      invariant flat == Flatten(frames[..i])
    {
      for j := 0 to |frames[i]|
        invariant flat == Flatten(frames[..i]) + frames[i][..j]
      {
        flat := flat + [frames[i][j]];
      }
      assert frames[..i + 1][..i] == frames[..i];
    }
    assert frames[..|frames|] == frames;
  }

  /** The `while (flattenedPoses.at(0).flip)` loop: reshuffle the array in place, drawing
      from the stream at position p, until its first pose is unflipped. */
  method ReshuffleInPlace(a: array<Pose>, st: Stream, p: nat) returns (next: nat)
    requires ShuffleFair(st) && a.Length > 0 && ReshuffleEnds(st, a[..], p)
    modifies a
    ensures Drawn(a[..], next) == Reshuffled(st, old(a[..]), p, ReshuffleCount(st, old(a[..]), p))
  {
    ghost var start := a[..];
    ghost var m := ReshuffleCount(st, start, p);
    ghost var done := 0;
    next := p;
    while a[0].flip
      invariant a.Length == |start| && done <= m
      invariant Reshuffled(st, start, p, done) == Drawn(a[..], next)
      decreases m - done
    {
      next := ShuffleInPlace(a, st, next);
      done := done + 1;
    }
  }

  class PoseGenerator {
    const rules: seq<Rule>          // m_perturbRules
    const sensorNames: seq<string>  // m_sensorNames
    const stream: Stream            // the draws m_generator makes from its seed
    var pos: nat                    // the number of distribution calls made on m_generator

    ghost predicate Valid() {
      Fair(stream) && ShuffleFair(stream)
    }

    constructor (rules: seq<Rule>, sensorNames: seq<string>, stream: Stream)
      requires Fair(stream) && ShuffleFair(stream)
      ensures Valid()
      ensures this.rules == rules && this.sensorNames == sensorNames && this.stream == stream && pos == 0
    {
      this.rules := rules;
      this.sensorNames := sensorNames;
      this.stream := stream;
      pos := 0;
    }

    /** The C++ constructor: a generator, or the exception its rule loop throws. */
    static method Create(configRules: seq<ConfigRule>, schema: LabelSchema, sensorNames: seq<string>, stream: Stream)
      returns (r: Result<PoseGenerator>)
      requires Fair(stream) && ShuffleFair(stream)
      ensures r.Ok? <==> forall i :: 0 <= i < |configRules| ==> Acceptable(schema, schema.parse(configRules[i].labels))
      ensures r.Err? ==> r.error == BadLabelCondition
      ensures r.Ok? ==>
        && fresh(r.value) && r.value.Valid()
        && r.value.sensorNames == sensorNames && r.value.stream == stream && r.value.pos == 0
        && |r.value.rules| == |configRules|
        && forall i :: 0 <= i < |configRules| ==>
             r.value.rules[i] == Rule(schema.parse(configRules[i].labels), configRules[i].params)
    {
      var perturbRules :- ParseConfigRules(configRules, schema);
      var generator := new PoseGenerator(perturbRules, sensorNames, stream);
      return Ok(generator);
    }

    /** `getRandom`: dispatch on the distribution name. */
    method GetRandom(rp: RandParams) returns (r: Result<real>)
      requires Valid() && Drawable(rp)
      modifies this
      ensures Follows(Sample(stream, rp, old(pos)), r, pos)
      ensures r.Err? ==> pos == old(pos)
    {
      if rp.distribution == "gaussian" || rp.distribution == "normal" {
        var num := GenGaussianRV(rp);
        r := Ok(num);
      } else if rp.distribution == "uniform" {
        var num := GenUniformRV(rp);
        r := Ok(num);
      } else {
        r := Err(UnknownDistribution);
      }
    }

    /** `genGaussianRV`: draw from N(0, stdDev) until the value lies in [-max, max]. */
    method GenGaussianRV(rp: RandParams) returns (v: real)
      requires Valid() && GaussianTerminates(rp.stdDev, rp.max)
      modifies this
      ensures pos == GaussianIndex(stream, rp.stdDev, rp.max, old(pos)) + 1
      ensures v == stream.normal(rp.stdDev, pos - 1) && InBounds(v, rp.max)
    {
      ghost var k := GaussianIndex(stream, rp.stdDev, rp.max, pos);
      var numGauss := stream.normal(rp.stdDev, pos);
      pos := pos + 1;
      while numGauss < -rp.max || numGauss > rp.max
        invariant old(pos) < pos <= k + 1
        invariant numGauss == stream.normal(rp.stdDev, pos - 1)
        decreases k + 1 - pos
      {
        numGauss := stream.normal(rp.stdDev, pos);
        pos := pos + 1;
      }
      v := numGauss;
    }

    /** `genUniformRV`: one draw from the uniform distribution on [-max, max). */
    method GenUniformRV(rp: RandParams) returns (v: real)
      requires Valid() && rp.max >= 0.0
      modifies this
      ensures pos == old(pos) + 1
      ensures v == UniformValue(stream.unit(old(pos)), rp.max) && InBounds(v, rp.max)
    {
      v := UniformValue(stream.unit(pos), rp.max);
      pos := pos + 1;
    }

    /** `generateOnePose`. */
    method GenerateOnePose(pp: PerturbParams) returns (r: Result<Pose>)
      requires Valid() && PoseDrawable(pp, sensorNames)
      modifies this
      ensures Follows(OnePose(stream, pp, sensorNames, old(pos)), r, pos)
      ensures !IsKnown(pp.shift.distribution) ==> pos == old(pos)
    {
      var shift :- GetRandom(pp.shift);
      var rotation :- GetRandom(pp.rotation);
      var forward :- GetRandom(pp.forward);
      var sensors := SensorMaps(map[], map[], map[]);
      ghost var start := pos;
      for i := 0 to |sensorNames|
        invariant SensorDraws(stream, pp, sensorNames[i..], pos, sensors)
               == SensorDraws(stream, pp, sensorNames, start, SensorMaps(map[], map[], map[]))
      {
        var yaw :- GetRandom(pp.sensorYaw);
        var pitch :- GetRandom(pp.sensorPitch);
        var roll :- GetRandom(pp.sensorRoll);
        sensors := InsertSensor(sensors, sensorNames[i], yaw, pitch, roll);
      }
      r := Ok(Pose(shift, rotation, forward, sensors.yaw, sensors.pitch, sensors.roll, false, 0));
    }

    /** `generatePoses4oneFrame`. */
    method GeneratePosesForOneFrame(useCount: uint32, index: uint32, trace: Trace) returns (r: Result<seq<Pose>>)
      requires Valid() && (useCount > 0 ==> SelectedDrawable(rules, sensorNames, trace, index))
      modifies this
      ensures Follows(FramePoses(stream, rules, sensorNames, trace, useCount, index, old(pos)), r, pos)
      ensures FirstMatch(rules, trace, index).None? ==> pos == old(pos)
    {
      var poses: seq<Pose> := [];
      if useCount == 0 {
        return Ok(poses);
      }
      var firstRule := FirstMatch(rules, trace, index);
      if firstRule.Some? {
        var pp := rules[firstRule.value].params;
        ghost var start := pos;
        for i := 0 to useCount
          invariant |poses| == i
          invariant PoseRun(stream, pp, sensorNames, index, i, useCount, pos, poses)
                 == PoseRun(stream, pp, sensorNames, index, 0, useCount, start, [])
        {
          var onePose :- GenerateOnePose(pp);
          onePose := onePose.(srcFrame := index);
          if pp.flip && i % 2 == 1 {
            poses := poses + [FlipPose(onePose)];
          } else {
            poses := poses + [onePose];
          }
        }
      }
      if |poses| == 0 {
        return Err(NoRuleForFrame);
      }
      return Ok(poses);
    }

    /** `generatePoses4vecFrames`, with the label trace already loaded. */
    method GeneratePosesForAllFrames(useCounts: seq<uint32>, trace: Trace) returns (r: Result<seq<seq<Pose>>>)
      requires Valid() && PlanDrawable(rules, sensorNames, trace, useCounts)
      modifies this
      ensures Follows(AllFrames(stream, rules, sensorNames, trace, useCounts, old(pos)), r, pos)
      ensures trace.numDatapoints != NumFrames(useCounts) ==> pos == old(pos)
    {
      var numFrames := NumFrames(useCounts);
      if trace.numDatapoints != numFrames {
        return Err(FrameCountMismatch);
      }
      var vecVecPoses: seq<seq<Pose>> := [];
      ghost var start := pos;
      for i := 0 to numFrames
        invariant |vecVecPoses| == i
        invariant RunDrawable(rules, sensorNames, trace, useCounts, i, numFrames)
        invariant FrameRun(stream, rules, sensorNames, trace, useCounts, i, numFrames, pos, vecVecPoses)
               == FrameRun(stream, rules, sensorNames, trace, useCounts, 0, numFrames, start, [])
      {
        var poses :- GeneratePosesForOneFrame(useCounts[i], i, trace);
        vecVecPoses := vecVecPoses + [poses];
      }
      if |vecVecPoses| != numFrames {
        return Err(NotAllFramesReceivedPoses);
      }
      return Ok(vecVecPoses);
    }

    /** The shuffle of `generateShuffledPoses` and its `while (flattenedPoses.at(0).flip)`
        reshuffle loop, on a sequence holding an unflipped pose. */
    method ShuffleUntilFront(a: array<Pose>)
      requires Valid() && HasUnflipped(a[..])
      modifies this, a
      ensures Drawn(a[..], pos) == ShuffleUntilFrontUnflipped(stream, old(a[..]), old(pos))
    {
      ghost var flat, beforeShuffle := a[..], pos;
      pos := ShuffleInPlace(a, stream, pos);
      ShufflePermutes(flat, stream, beforeShuffle);
      PermutationKeepsUnflipped(flat, a[..]);
      pos := ReshuffleInPlace(a, stream, pos);
    }

    /** `generateShuffledPoses`, with the label trace already loaded. */
    method GenerateShuffledPoses(useCounts: seq<uint32>, trace: Trace) returns (r: Result<seq<Pose>>)
      requires Valid() && PlanDrawable(rules, sensorNames, trace, useCounts)
      modifies this
      ensures Follows(ShuffledPoses(stream, rules, sensorNames, trace, useCounts, old(pos)), r, pos)
      ensures trace.numDatapoints != NumFrames(useCounts) ==> pos == old(pos)
    {
      var unshuffledPoses :- GeneratePosesForAllFrames(useCounts, trace);
      var flattenedPoses := FlattenFrames(unshuffledPoses);
      if |flattenedPoses| == 0 {
        return Ok([]);
      }
      FlattenHasUnflipped(unshuffledPoses);
      var a := new Pose[|flattenedPoses|](k requires 0 <= k < |flattenedPoses| => flattenedPoses[k]);
      assert a[..] == flattenedPoses;
      ShuffleUntilFront(a);
      return Ok(a[..]);
    }
  }
}
