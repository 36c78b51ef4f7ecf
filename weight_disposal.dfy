/** Releasing weight tensors no parameter uses (src/common/disposeUnusedWeightTensors.ts). */
module WeightDisposal {
  import opened JsValues
  import opened Runtime
  import opened WeightEntries

  /** `paramMappings.some(pm => pm.originalPath === path)`. */
  predicate IsReferenced(path: string, mappings: seq<ParamMapping>)
    ensures IsReferenced(path, mappings) <==> exists m :: m in mappings && m.originalPath == path
  {
    exists i :: 0 <= i < |mappings| && mappings[i].originalPath == path
  }

  /** `xs` is `ys` with some elements left out, the rest kept in order. */
  predicate Subsequence(xs: seq<string>, ys: seq<string>) {
    if xs == [] then true
    else if ys == [] then false
    else (xs[0] == ys[0] && Subsequence(xs[1..], ys[1..])) || Subsequence(xs, ys[1..])
  }

  /** The keys, in key order, that no mapping's `originalPath` names. */
  function UnusedPaths(keys: seq<string>, mappings: seq<ParamMapping>): (paths: seq<string>)
    ensures forall p :: p in paths <==> p in keys && !IsReferenced(p, mappings)
    ensures Subsequence(paths, keys)
  {
    if keys == [] then []
    else
      var rest := UnusedPaths(keys[1..], mappings);
      if IsReferenced(keys[0], mappings) then
        rest
      else
        assert ([keys[0]] + rest)[1..] == rest;
        [keys[0]] + rest
  }

  /** One `dispose()` per path, in order, on the tensor stored under it. */
  function DisposalsOf(weightMap: NamedTensorMap, paths: seq<string>): (events: seq<Event>)
    requires forall p :: p in paths ==> p in weightMap.tensors
    ensures |events| == |paths|
    ensures forall i :: 0 <= i < |paths| ==> events[i] == Disposed(weightMap.tensors[paths[i]])
  {
    if paths == [] then [] else [Disposed(weightMap.tensors[paths[0]])] + DisposalsOf(weightMap, paths[1..])
  }

  /**
   * `disposeUnusedWeightTensors`: one pass over the keys disposing every entry
   * no mapping references.  Neither the map nor the mapping list changes.
   */
  method DisposeUnusedWeightTensors(env: Environment, weightMap: NamedTensorMap, paramMappings: ParamMappingList)
    modifies env
    ensures env.trace == old(env.trace) + DisposalsOf(weightMap, UnusedPaths(weightMap.keys, paramMappings.items))
  {
    var keys := weightMap.keys;
    var mappings := paramMappings.items;
    var i := 0;
    while i < |keys|
      invariant 0 <= i <= |keys|
      invariant env.trace == old(env.trace) + DisposedSoFar(weightMap, i, mappings)
    {
      DisposedSoFarStep(weightMap, i, mappings);
      UnusedPrefixStored(weightMap, i, mappings);
      var key := keys[i];
      var referenced := IsReferenced(key, mappings);
      if !referenced {
        env.Dispose(weightMap.tensors[key]);
      }
      i := i + 1;
    }
    assert keys[..|keys|] == keys;
  }

  /** The disposals made while visiting the first `i` keys. */
  function DisposedSoFar(weightMap: NamedTensorMap, i: nat, mappings: seq<ParamMapping>): seq<Event>
    requires i <= |weightMap.keys|
  {
    DisposalsOf(weightMap, UnusedPaths(weightMap.keys[..i], mappings))
  }

  lemma DisposedSoFarStep(weightMap: NamedTensorMap, i: nat, mappings: seq<ParamMapping>)
    requires i < |weightMap.keys|
    ensures var key := weightMap.keys[i];
            DisposedSoFar(weightMap, i + 1, mappings)
            == DisposedSoFar(weightMap, i, mappings)
               + (if IsReferenced(key, mappings) then [] else [Disposed(weightMap.tensors[key])])
  {
    var keys := weightMap.keys;
    var key := keys[i];
    var done := UnusedPaths(keys[..i], mappings);
    var more := if IsReferenced(key, mappings) then [] else [key];
    assert keys[..i + 1] == keys[..i] + [key];
    UnusedPathsAppend(keys[..i], key, mappings);
    UnusedPrefixStored(weightMap, i, mappings);
    DisposalsOfAppend(weightMap, done, more);
    assert DisposalsOf(weightMap, more)
           == (if IsReferenced(key, mappings) then [] else [Disposed(weightMap.tensors[key])]);
  }

  /** Every path left unused among the first `i` keys has a tensor stored under it. */
  lemma UnusedPrefixStored(weightMap: NamedTensorMap, i: nat, mappings: seq<ParamMapping>)
    requires i < |weightMap.keys|
    ensures forall p :: p in UnusedPaths(weightMap.keys[..i], mappings) ==> p in weightMap.tensors
    ensures weightMap.keys[i] in weightMap.tensors
  {
    var keys := weightMap.keys;
    forall p | p in UnusedPaths(keys[..i], mappings)
      ensures p in weightMap.tensors
    {
      var j :| 0 <= j < i && keys[..i][j] == p;
      assert keys[j] == p;
    }
  }

  lemma {:induction false} UnusedPathsAppend(keys: seq<string>, key: string, mappings: seq<ParamMapping>)
    ensures UnusedPaths(keys + [key], mappings)
            == UnusedPaths(keys, mappings) + (if IsReferenced(key, mappings) then [] else [key])
  {
    if keys == [] {
      assert [key][1..] == [];
    } else {
      assert (keys + [key])[1..] == keys[1..] + [key];
      UnusedPathsAppend(keys[1..], key, mappings);
    }
  }

  lemma {:induction false} DisposalsOfAppend(weightMap: NamedTensorMap, paths: seq<string>, more: seq<string>)
    requires forall p :: p in paths ==> p in weightMap.tensors
    requires forall p :: p in more ==> p in weightMap.tensors
    ensures DisposalsOf(weightMap, paths + more) == DisposalsOf(weightMap, paths) + DisposalsOf(weightMap, more)
  {
    if paths != [] {
      assert (paths + more)[1..] == paths[1..] + more;
      DisposalsOfAppend(weightMap, paths[1..], more);
    }
  }

  /** A single pass over distinct keys disposes each entry at most once. */
  lemma {:induction false} UnusedPathsDistinct(keys: seq<string>, mappings: seq<ParamMapping>)
    requires Distinct(keys)
    ensures Distinct(UnusedPaths(keys, mappings))
  {
    if keys != [] {
      assert Distinct(keys[1..]) by {
        forall i, j | 0 <= i < j < |keys[1..]|
          ensures keys[1..][i] != keys[1..][j]
        {
          assert keys[1..][i] == keys[i + 1] && keys[1..][j] == keys[j + 1];
        }
      }
      UnusedPathsDistinct(keys[1..], mappings);
      var rest := UnusedPaths(keys[1..], mappings);
      assert keys[0] !in keys[1..] by {
        forall j | 0 <= j < |keys[1..]|
          ensures keys[1..][j] != keys[0]
        {
          assert keys[1..][j] == keys[j + 1];
        }
      }
      assert keys[0] !in rest;
      var paths := UnusedPaths(keys, mappings);
      if !IsReferenced(keys[0], mappings) {
        assert paths == [keys[0]] + rest;
        forall i, j | 0 <= i < j < |paths|
          ensures paths[i] != paths[j]
        {
          assert paths[j] == rest[j - 1];
          if i == 0 {
            assert rest[j - 1] in rest;
          } else {
            assert paths[i] == rest[i - 1];
          }
        }
      } else {
        assert paths == rest;
      }
    }
  }

  /** Only `originalPath` decides: mappings that differ in `paramPath` alone dispose the same entries. */
  lemma {:induction false} ParamPathIrrelevant(keys: seq<string>, mappings: seq<ParamMapping>, others: seq<ParamMapping>)
    requires |mappings| == |others|
    requires forall i :: 0 <= i < |mappings| ==> mappings[i].originalPath == others[i].originalPath
    ensures UnusedPaths(keys, mappings) == UnusedPaths(keys, others)
  {
    if keys != [] {
      ParamPathIrrelevant(keys[1..], mappings, others);
      assert IsReferenced(keys[0], mappings) <==> IsReferenced(keys[0], others);
    }
  }

  /**
   * Recording a mapping (as a successful weight extraction does) exactly
   * protects its `originalPath` from disposal and changes nothing else.
   */
  lemma RecordedPathIsKept(keys: seq<string>, mappings: seq<ParamMapping>, m: ParamMapping)
    ensures forall p :: p in UnusedPaths(keys, mappings + [m]) <==> p in UnusedPaths(keys, mappings) && p != m.originalPath
  {
    forall p
      ensures IsReferenced(p, mappings + [m]) <==> IsReferenced(p, mappings) || p == m.originalPath
    {
      if IsReferenced(p, mappings) {
        var i :| 0 <= i < |mappings| && mappings[i].originalPath == p;
        assert (mappings + [m])[i] == mappings[i];
      }
      if p == m.originalPath {
        assert (mappings + [m])[|mappings|] == m;
      }
    }
  }
}
