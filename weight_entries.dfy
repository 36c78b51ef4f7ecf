/** Weight lookup with parameter-mapping bookkeeping (src/common/extractWeightEntryFactory.ts). */
module WeightEntries {
  import opened Common
  import opened JsValues

  /** `{ originalPath, paramPath }`: which weight-file entry backs which network parameter. */
  datatype ParamMapping = ParamMapping(originalPath: string, paramPath: string)

  /** A caller-owned `ParamMapping[]` that extractors append to. */
  class ParamMappingList {
    var items: seq<ParamMapping>

    constructor ()
      ensures items == []
    {
      items := [];
    }
  }

  /** No path occurs twice. */
  predicate Distinct(paths: seq<string>) {
    forall i, j :: 0 <= i < j < |paths| ==> paths[i] != paths[j]
  }

  /** A `tf.NamedTensorMap`: its keys in `Object.keys` order and the tensor under each. */
  datatype TensorMap = TensorMap(keys: seq<string>, tensors: map<string, Tensor>) {
    /** Object keys are distinct and are exactly the entries. */
    predicate WellFormed() {
      && Distinct(keys)
      && (forall i :: 0 <= i < |keys| ==> keys[i] in tensors)
      && (forall k :: k in tensors ==> k in keys)
    }
  }

  type NamedTensorMap = m: TensorMap | m.WellFormed() witness TensorMap([], map[])

  /** `weightMap[path]`: the tensor stored there, or `undefined`. */
  function Lookup(weightMap: NamedTensorMap, path: string): (v: Value)
    ensures v.TensorObject? <==> path in weightMap.keys
    ensures v.TensorObject? ==> v.tensor == weightMap.tensors[path]
    ensures !v.TensorObject? ==> v.Undefined?
  {
    if path in weightMap.tensors then TensorObject(weightMap.tensors[path]) else Undefined
  }

  /** `mappedPath || originalPath`: an absent or empty mapped path falls back to the original one. */
  function ParamPath(originalPath: string, mappedPath: Option<string>): (p: string)
    ensures mappedPath.Some? && mappedPath.value != "" ==> p == mappedPath.value
    ensures mappedPath.None? || mappedPath.value == "" ==> p == originalPath
  {
    if mappedPath.Some? && mappedPath.value != "" then mappedPath.value else originalPath
  }

  /** The message thrown when an entry is missing or has the wrong rank. */
  function WeightEntryError(originalPath: string, paramRank: int, found: Value): Error {
    Thrown([
      Text("expected weightMap[" + originalPath + "] to be a Tensor"),
      Interpolated(Number(Finite(paramRank as real))),
      Text("D, instead have "),
      Interpolated(found)])
  }

  /** The closure `extractWeightEntryFactory(weightMap, paramMappings)` returns. */
  class WeightEntryExtractor {
    const weightMap: NamedTensorMap
    const paramMappings: ParamMappingList
    /** `isTensor(value, rank)` from the utilities. */
    const isTensor: (Value, int) -> bool

    /** `extractWeightEntryFactory`: captures the map and the caller's mapping list. */
    constructor (weightMap: NamedTensorMap, paramMappings: ParamMappingList, isTensor: (Value, int) -> bool)
      ensures this.weightMap == weightMap && this.paramMappings == paramMappings && this.isTensor == isTensor
    {
      this.weightMap := weightMap;
      this.paramMappings := paramMappings;
      this.isTensor := isTensor;
    }

    /**
     * `(originalPath, paramRank, mappedPath?) => T`: the entry if it is a tensor
     * of that rank, recorded by appending one mapping; otherwise a throw, before
     * anything is appended.  The weight map itself is a value and never changes.
     */
    method ExtractWeightEntry(originalPath: string, paramRank: int, mappedPath: Option<string>)
      returns (r: Result<Value, Error>)
      modifies paramMappings
      ensures var tensor := Lookup(weightMap, originalPath);
              if isTensor(tensor, paramRank) then
                && r == Ok(tensor)
                && paramMappings.items
                   == old(paramMappings.items) + [ParamMapping(originalPath, ParamPath(originalPath, mappedPath))]
              else
                && r == Err(WeightEntryError(originalPath, paramRank, tensor))
                && paramMappings.items == old(paramMappings.items)
    {
      var tensor := Lookup(weightMap, originalPath);
      if !isTensor(tensor, paramRank) {
        return Err(WeightEntryError(originalPath, paramRank, tensor));
      }
      paramMappings.items := paramMappings.items + [ParamMapping(originalPath, ParamPath(originalPath, mappedPath))];
      return Ok(tensor);
    }
  }
}
