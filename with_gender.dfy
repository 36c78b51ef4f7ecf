/** The `gender` capability of a face result (src/factories/WithGender.ts). */
module WithGender {
  import opened JsValues

  /** The two members of the `Gender` string enum. */
  datatype Gender = Male | Female

  const GENDER: string := "gender"
  const GENDER_PROBABILITY: string := "genderProbability"

  /** The JavaScript value of an enum member. */
  function GenderValue(g: Gender): Value {
    match g
    case Male => String("male")
    case Female => String("female")
  }

  /**
   * `isWithGender`: a non-null object whose `gender` is one of the two enum
   * members and whose `genderProbability` passes `isValidProbablitiy`, given
   * here as `isValidProbability`.
   */
  predicate IsWithGender(obj: Value, isValidProbability: Value -> bool): (b: bool)
    ensures b <==>
      && obj.Record?
      && (Get(obj, GENDER) == GenderValue(Male) || Get(obj, GENDER) == GenderValue(Female))
      && isValidProbability(Get(obj, GENDER_PROBABILITY))
  {
    && IsNonNullObject(obj)
    && (Get(obj, GENDER) == GenderValue(Male) || Get(obj, GENDER) == GenderValue(Female))
    && isValidProbability(Get(obj, GENDER_PROBABILITY))
  }

  /**
   * `extendWithGender`: a copy of the source with both gender fields set.  No
   * check is made: an invalid probability is stored as given.
   */
  function ExtendWithGender(source: Props, gender: Gender, genderProbability: JsNumber): (r: Props)
    ensures r.Keys == source.Keys + {GENDER, GENDER_PROBABILITY}
    ensures r[GENDER] == GenderValue(gender)
    ensures r[GENDER_PROBABILITY] == Number(genderProbability)
    ensures forall k :: k in source && k != GENDER && k != GENDER_PROBABILITY ==> r[k] == source[k]
  {
    Assign(source, map[GENDER := GenderValue(gender), GENDER_PROBABILITY := Number(genderProbability)])
  }

  /** The extended object satisfies `isWithGender` exactly when the probability is valid. */
  lemma ExtendWithGenderIsWithGender(
    source: Props, gender: Gender, genderProbability: JsNumber, isValidProbability: Value -> bool)
    ensures IsWithGender(Record(ExtendWithGender(source, gender, genderProbability)), isValidProbability)
            <==> isValidProbability(Number(genderProbability))
  {
  }
}
