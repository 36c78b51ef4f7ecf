/** `LabeledBox`: a box with a class label (src/classes/LabeledBox.ts). */
module LabeledBoxes {
  import opened Common
  import opened Geometry
  import opened JsValues

  /**
   * The helpers the box classes call that are not part of this model:
   * - `assertIsValidBox`:   `Box.assertIsValidBox(box, callee)`
   * - `newBox`:             the `Box` constructor reached through `super(box)`
   * - `isValidNumber`:      `isValidNumber` from the utilities
   * - `isValidProbability`: `isValidProbablitiy` from the utilities
   */
  datatype Collaborators = Collaborators(
    assertIsValidBox: (Value, string) -> Outcome,
    newBox: Value -> Result<Box, Error>,
    isValidNumber: Value -> bool,
    isValidProbability: Value -> bool)

  const LABEL: string := "label"

  /** A constructed `LabeledBox`: the `Box` part and the label exactly as given. */
  datatype LabeledBox = LabeledBox(box: Box, classLabel: JsNumber)

  /** The message thrown for an invalid label. */
  function LabelError(callee: string, classLabel: Value): Error {
    Thrown([Text(callee + " - expected property label ("), Interpolated(classLabel), Text(") to be a number")])
  }

  /**
   * `LabeledBox.assertIsValidLabeledBox`: the `Box` assertion runs first, then
   * the label is read and checked.
   */
  function AssertIsValidLabeledBox(box: Value, callee: string, c: Collaborators): (r: Outcome)
    ensures c.assertIsValidBox(box, callee).Fail? ==> r == c.assertIsValidBox(box, callee)
    ensures r.Pass? <==>
      && c.assertIsValidBox(box, callee).Pass?
      && !box.Undefined? && !box.Null?
      && c.isValidNumber(Get(box, LABEL))
    ensures c.assertIsValidBox(box, callee).Pass? && !box.Undefined? && !box.Null?
            && !c.isValidNumber(Get(box, LABEL)) ==>
              r == Fail(LabelError(callee, Get(box, LABEL)))
    ensures c.assertIsValidBox(box, callee).Pass? && (box.Undefined? || box.Null?) ==> r == Fail(TypeError)
  {
    match c.assertIsValidBox(box, callee)
    case Fail(e) => Fail(e)
    case Pass =>
      match ReadProperty(box, LABEL)
      case Err(e) => Fail(e)
      case Ok(classLabel) => if !c.isValidNumber(classLabel) then Fail(LabelError(callee, classLabel)) else Pass
  }

  /**
   * `new LabeledBox(box, label)`: builds the `Box` part (which may throw) and
   * stores the label without checking it.
   */
  function NewLabeledBox(box: Value, classLabel: JsNumber, c: Collaborators): (r: Result<LabeledBox, Error>)
    ensures r.Ok? <==> c.newBox(box).Ok?
    ensures r.Err? ==> r.error == c.newBox(box).error
    ensures r.Ok? ==> r.value.box == c.newBox(box).value && r.value.classLabel == classLabel
  {
    match c.newBox(box)
    case Err(e) => Err(e)
    case Ok(b) => Ok(LabeledBox(b, classLabel))
  }
}
