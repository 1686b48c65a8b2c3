/** The label code the generator consults but does not define (the `projMetaData` library).
    Its functions are parameters of the model: their behaviour is whatever the caller supplies. */
module ProjMetaData {

  /** A rule's label conditions: label field -> expected value. */
  type Conditions = map<string, string>

  /** The label-string parser and label validators. */
  datatype LabelSchema = LabelSchema(
    parse: string -> Conditions,             // stringMapFromSplitString("key1=val1 key2=val2 ..")
    isFieldNumeric: string -> bool,          // isFieldNumeric(field)
    isLabelValid: (string, string) -> bool)  // isLabelValid(field, value)

  /** A loaded per-frame label trace (`projMetaTrace`). */
  datatype Trace = Trace(
    numDatapoints: nat,                         // getNumDatapoints()
    labelsMatch: (nat, Conditions) -> bool)     // doLabelsMatch(frameIndex, conditions)
}
