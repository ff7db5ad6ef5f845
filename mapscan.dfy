/**
 * The two loops every in-memory store runs over its Go map: collect the records that
 * satisfy a filter, and return the first record that does. Go visits map entries in an
 * unspecified order; the loops pick the next key nondeterministically to model that.
 */
module MapScan {
  import opened Wrappers

  /** The keys whose records satisfy `keep`. */
  function Selected<R>(data: map<string, R>, keep: R -> bool): set<string>
  {
    set k | k in data && keep(data[k])
  }

  /** A sequence without repetitions has as many elements as its set. */
  lemma {:induction false} DistinctCardinality(ids: seq<string>)
    requires forall i, j :: 0 <= i < j < |ids| ==> ids[i] != ids[j]
    ensures |set x | x in ids| == |ids|
  {
    if ids != [] {
      var rest := ids[1..];
      DistinctCardinality(rest);
      assert (set x | x in ids) == (set x | x in rest) + {ids[0]};
      assert ids[0] !in (set x | x in rest);
    }
  }

  /**
   * `for _, r := range data { if keep(r) { result = append(result, r) } }`.
   * `ids` names, for each collected record, the key it was stored under.
   */
  method Collect<R>(data: map<string, R>, keep: R -> bool) returns (result: seq<R>, ghost ids: seq<string>)
    ensures |ids| == |result|
    ensures forall i :: 0 <= i < |ids| ==> ids[i] in data && data[ids[i]] == result[i] && keep(result[i])
    ensures forall i, j :: 0 <= i < j < |ids| ==> ids[i] != ids[j]
    ensures forall k :: k in Selected(data, keep) ==> k in ids
    ensures |result| == |Selected(data, keep)|
  {
    var keys := data.Keys;
    result, ids := [], [];
    while keys != {}
      invariant keys <= data.Keys
      invariant |ids| == |result|
      invariant forall i :: 0 <= i < |ids| ==> ids[i] in data && ids[i] !in keys && data[ids[i]] == result[i] && keep(result[i])
      invariant forall i, j :: 0 <= i < j < |ids| ==> ids[i] != ids[j]
      invariant forall k :: k in data && k !in keys && keep(data[k]) ==> k in ids
      decreases keys
    {
      var k :| k in keys;
      if keep(data[k]) {
        result, ids := result + [data[k]], ids + [k];
      }
      keys := keys - {k};
    }
    DistinctCardinality(ids);
    assert (set x | x in ids) == Selected(data, keep);
  }

  /** `for _, r := range data { if keep(r) { return &r } }; return nil`. */
  method Find<R>(data: map<string, R>, keep: R -> bool) returns (r: Option<R>, ghost id: string)
    ensures r.Some? ==> id in data && data[id] == r.value && keep(r.value)
    ensures r.None? <==> Selected(data, keep) == {}
  {
    var keys := data.Keys;
    while keys != {}
      invariant keys <= data.Keys
      invariant forall k :: k in data && k !in keys ==> !keep(data[k])
      decreases keys
    {
      var k :| k in keys;
      if keep(data[k]) {
        assert k in Selected(data, keep);
        return Some(data[k]), k;
      }
      keys := keys - {k};
    }
    assert Selected(data, keep) == {};
    return None, "";
  }
}
