/** Loading one convolution's parameters (src/common/loadConvParamsFactory.ts). */
module ConvParamsLoader {
  import opened Common
  import opened JsValues
  import opened WeightEntries
  import opened WeightDisposal

  /** `{ filters, bias }`. */
  datatype ConvParams = ConvParams(filters: Value, bias: Value)

  function FiltersPath(prefix: string): string {
    prefix + "/filters"
  }

  function BiasPath(prefix: string): string {
    prefix + "/bias"
  }

  /**
   * The loader `loadConvParamsFactory(extractWeightEntry)` returns, run with
   * the factory extractor: `prefix/filters` at rank 4 first, then `prefix/bias`
   * at rank 1, stopping at the first throw.
   */
  method LoadConvParams(extractor: WeightEntryExtractor, prefix: string) returns (r: Result<ConvParams, Error>)
    modifies extractor.paramMappings
    ensures var filters := Lookup(extractor.weightMap, FiltersPath(prefix));
            var bias := Lookup(extractor.weightMap, BiasPath(prefix));
            var before := old(extractor.paramMappings.items);
            if !extractor.isTensor(filters, 4) then
              r == Err(WeightEntryError(FiltersPath(prefix), 4, filters))
              && extractor.paramMappings.items == before
            else if !extractor.isTensor(bias, 1) then
              r == Err(WeightEntryError(BiasPath(prefix), 1, bias))
              && extractor.paramMappings.items == before + [ParamMapping(FiltersPath(prefix), FiltersPath(prefix))]
            else
              r == Ok(ConvParams(filters, bias))
              && extractor.paramMappings.items
                 == before + [ParamMapping(FiltersPath(prefix), FiltersPath(prefix)),
                              ParamMapping(BiasPath(prefix), BiasPath(prefix))]
  {
    var filters := extractor.ExtractWeightEntry(FiltersPath(prefix), 4, None);
    if filters.Err? {
      return Err(filters.error);
    }
    var bias := extractor.ExtractWeightEntry(BiasPath(prefix), 1, None);
    if bias.Err? {
      return Err(bias.error);
    }
    return Ok(ConvParams(filters.value, bias.value));
  }

  /**
   * After a successful load, disposing unused weights keeps both entries of the
   * convolution and otherwise disposes exactly what it did before.
   */
  lemma LoadedConvParamsAreKept(keys: seq<string>, mappings: seq<ParamMapping>, prefix: string)
    ensures var loaded := mappings + [ParamMapping(FiltersPath(prefix), FiltersPath(prefix)),
                                      ParamMapping(BiasPath(prefix), BiasPath(prefix))];
            forall p :: p in UnusedPaths(keys, loaded) <==>
              p in UnusedPaths(keys, mappings) && p != FiltersPath(prefix) && p != BiasPath(prefix)
  {
    var withFilters := mappings + [ParamMapping(FiltersPath(prefix), FiltersPath(prefix))];
    RecordedPathIsKept(keys, mappings, ParamMapping(FiltersPath(prefix), FiltersPath(prefix)));
    RecordedPathIsKept(keys, withFilters, ParamMapping(BiasPath(prefix), BiasPath(prefix)));
    assert withFilters + [ParamMapping(BiasPath(prefix), BiasPath(prefix))]
           == mappings + [ParamMapping(FiltersPath(prefix), FiltersPath(prefix)),
                          ParamMapping(BiasPath(prefix), BiasPath(prefix))];
  }
}
