/** The pose record the generator hands to the augmenter (`Augmenter::Pose`). */
module Augmenter {

  /** One perturbation of a frame. Doubles and floats are modelled as reals. */
  datatype Pose = Pose(
    shift: real,
    rotation: real,
    forward: real,
    sensorYaw: map<string, real>,
    sensorPitch: map<string, real>,
    sensorRoll: map<string, real>,
    flip: bool,
    srcFrame: nat)
}
