/** The `age` capability of a face result (src/factories/WithAge.ts). */
module WithAge {
  import opened JsValues

  const AGE: string := "age"

  /** `isWithAge`: a non-null object whose `age` is of type number (NaN included). */
  predicate IsWithAge(obj: Value): (b: bool)
    ensures b <==> obj.Record? && AGE in obj.props && obj.props[AGE].Number?
  {
    IsNonNullObject(obj) && TypeOf(Get(obj, AGE)) == "number"
  }

  /** `extendWithAge`: a copy of the source with `age` set; nothing else differs. */
  function ExtendWithAge(source: Props, age: JsNumber): (r: Props)
    ensures r.Keys == source.Keys + {AGE}
    ensures r[AGE] == Number(age)
    ensures forall k :: k in source && k != AGE ==> r[k] == source[k]
  {
    Assign(source, map[AGE := Number(age)])
  }

  /** Extending any object with an age makes it satisfy `isWithAge`. */
  lemma ExtendWithAgeIsWithAge(source: Props, age: JsNumber)
    ensures IsWithAge(Record(ExtendWithAge(source, age)))
  {
  }
}
