/** The `expressions` capability of a face result (src/factories/WithFaceExpressions.ts). */
module WithFaceExpressions {
  import opened Geometry
  import opened JsValues

  const EXPRESSIONS: string := "expressions"

  /** `isWithFaceExpressions`: a non-null object whose `expressions` is a `FaceExpressions`. */
  predicate IsWithFaceExpressions(obj: Value): (b: bool)
    ensures b <==> obj.Record? && EXPRESSIONS in obj.props && obj.props[EXPRESSIONS].Expressions?
  {
    IsNonNullObject(obj) && Get(obj, EXPRESSIONS).Expressions?
  }

  /** `extendWithFaceExpressions`: a copy of the source with `expressions` set. */
  function ExtendWithFaceExpressions(source: Props, expressions: FaceExpressions): (r: Props)
    ensures r.Keys == source.Keys + {EXPRESSIONS}
    ensures r[EXPRESSIONS] == Expressions(expressions)
    ensures forall k :: k in source && k != EXPRESSIONS ==> r[k] == source[k]
  {
    Assign(source, map[EXPRESSIONS := Expressions(expressions)])
  }

  /** Extending with a `FaceExpressions` makes the object satisfy `isWithFaceExpressions`. */
  lemma ExtendWithFaceExpressionsIsWithFaceExpressions(source: Props, expressions: FaceExpressions)
    ensures IsWithFaceExpressions(Record(ExtendWithFaceExpressions(source, expressions)))
  {
  }
}
