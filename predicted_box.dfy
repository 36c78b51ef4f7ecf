/** `PredictedBox`: a labeled box with two scores (src/classes/PredictedBox.ts). */
module PredictedBoxes {
  import opened Common
  import opened JsValues
  import opened LabeledBoxes

  const SCORE: string := "score"
  const CLASS_SCORE: string := "classScore"

  /** A constructed `PredictedBox`: its `LabeledBox` part and both scores exactly as given. */
  datatype PredictedBox = PredictedBox(labeled: LabeledBox, score: JsNumber, classScore: JsNumber) {
    /** The `label` getter inherited from `LabeledBox`. */
    function Label(): JsNumber {
      labeled.classLabel
    }
  }

  /** The message thrown when a score is not a probability. */
  function ScoresError(callee: string, score: Value, classScore: Value): Error {
    Thrown([
      Text(callee + " - expected properties score ("), Interpolated(score),
      Text(") and ("), Interpolated(classScore),
      Text(") to be a number between [0, 1]")])
  }

  /**
   * `PredictedBox.assertIsValidPredictedBox`: the `LabeledBox` assertion runs
   * first, then both scores must be probabilities.
   */
  function AssertIsValidPredictedBox(box: Value, callee: string, c: Collaborators): (r: Outcome)
    ensures AssertIsValidLabeledBox(box, callee, c).Fail? ==> r == AssertIsValidLabeledBox(box, callee, c)
    ensures r.Pass? <==>
      && AssertIsValidLabeledBox(box, callee, c).Pass?
      && c.isValidProbability(Get(box, SCORE))
      && c.isValidProbability(Get(box, CLASS_SCORE))
    ensures AssertIsValidLabeledBox(box, callee, c).Pass?
            && !(c.isValidProbability(Get(box, SCORE)) && c.isValidProbability(Get(box, CLASS_SCORE))) ==>
              r == Fail(ScoresError(callee, Get(box, SCORE), Get(box, CLASS_SCORE)))
  {
    match AssertIsValidLabeledBox(box, callee, c)
    case Fail(e) => Fail(e)
    case Pass =>
      var score := Get(box, SCORE);
      var classScore := Get(box, CLASS_SCORE);
      if !c.isValidProbability(score) || !c.isValidProbability(classScore) then
        Fail(ScoresError(callee, score, classScore))
      else
        Pass
  }

  /** The whole chain: a predicted box passes iff its box, its label and both scores are valid. */
  lemma AssertIsValidPredictedBoxIff(box: Value, callee: string, c: Collaborators)
    ensures AssertIsValidPredictedBox(box, callee, c).Pass? <==>
      && c.assertIsValidBox(box, callee).Pass?
      && !box.Undefined? && !box.Null?
      && c.isValidNumber(Get(box, LABEL))
      && c.isValidProbability(Get(box, SCORE))
      && c.isValidProbability(Get(box, CLASS_SCORE))
  {
  }

  /**
   * `new PredictedBox(box, label, score, classScore)`: the label goes to the
   * `LabeledBox` constructor; the scores are stored without checking.
   */
  function NewPredictedBox(box: Value, classLabel: JsNumber, score: JsNumber, classScore: JsNumber, c: Collaborators)
    : (r: Result<PredictedBox, Error>)
    ensures r.Ok? <==> c.newBox(box).Ok?
    ensures r.Err? ==> r.error == c.newBox(box).error
    ensures r.Ok? ==>
      && r.value.labeled == NewLabeledBox(box, classLabel, c).value
      && r.value.Label() == classLabel
      && r.value.score == score
      && r.value.classScore == classScore
  {
    match NewLabeledBox(box, classLabel, c)
    case Err(e) => Err(e)
    case Ok(labeled) => Ok(PredictedBox(labeled, score, classScore))
  }
}
