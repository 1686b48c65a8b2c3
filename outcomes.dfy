/** Results of the pose generator's operations: either a value or the exception the
    C++ code throws instead of returning. */
module Outcomes {

  /** The exceptions the generator throws. The comment names the C++ exception type. */
  datatype Error =
    | BadLabelCondition          // std::invalid_argument: a rule conditions on a numeric field or an invalid label
    | UnknownDistribution        // std::invalid_argument: distribution is not gaussian, normal or uniform
    | FrameCountMismatch         // std::invalid_argument: trace length differs from the number of use counts
    | NoRuleForFrame             // std::runtime_error: a frame that needs poses matches no rule
    | NotAllFramesReceivedPoses  // std::runtime_error: defensive check after planning all frames

  datatype Option<+T> = None | Some(value: T)

  datatype Result<+T> = Ok(value: T) | Err(error: Error) {
    predicate IsFailure() { Err? }

    function PropagateFailure<U>(): Result<U>
      requires Err?
    {
      Err(error)
    }

    function Extract(): T
      requires Ok?
    {
      value
    }
  }

  /** A value produced from the random stream, with the stream position after it. */
  datatype Drawn<+T> = Drawn(value: T, next: nat)

  /** A method's result `r` and final generator position `pos` agree with the
      specification `spec`: on success both the value and the position; on an
      exception, the same exception (the position is then left unspecified). */
  ghost predicate Follows<T>(spec: Result<Drawn<T>>, r: Result<T>, pos: nat) {
    match spec
    case Ok(d) => r == Ok(d.value) && pos == d.next
    case Err(e) => r == Err(e)
  }
}
