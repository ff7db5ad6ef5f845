/** The in-memory region store of providers/region/memory/memory.go. */
module RegionMemory {
  import opened Wrappers
  import opened Webx
  import MapScan

  /** A map from region ID to region; each method is one atomic step (the mutex is left out). */
  class Store {
    var data: map<string, Region>

    /** Every region is stored under its own ID, as `Create` does. */
    ghost predicate Valid()
      reads this
    {
      forall id :: id in data ==> data[id].id == id
    }

    /** `New()`: an empty store. */
    constructor ()
      ensures Valid() && data == map[]
    {
      data := map[];
    }

    /** The IDs of the regions of one provider. */
    function ProviderIds(providerId: string): set<string>
      reads this
    {
      set id | id in data && data[id].providerId == providerId
    }

    /** A duplicate ID fails and leaves the store unchanged; otherwise the region is added. */
    method Create(r: Region) returns (o: Outcome<StoreError>)
      requires Valid()
      modifies this
      ensures Valid()
      ensures r.id in old(data) ==> o == Fail(AlreadyExists("region", r.id)) && data == old(data)
      ensures r.id !in old(data) ==> o == Pass && data == old(data)[r.id := r]
    {
      if r.id in data {
        return Fail(AlreadyExists("region", r.id));
      }
      data := data[r.id := r];
      return Pass;
    }

    /** A missing ID yields None with no error. */
    function Get(id: string): (r: Option<Region>)
      reads this
      ensures r.Some? <==> id in data
      ensures r.Some? ==> r.value == data[id]
    {
      if id in data then Some(data[id]) else None
    }

    /** Exactly the regions of `providerId`, each once; empty for an unknown provider. */
    method ListByProvider(providerId: string) returns (result: seq<Region>)
      requires Valid()
      ensures forall r :: r in result ==> r.id in data && data[r.id] == r && r.providerId == providerId
      ensures forall id :: id in ProviderIds(providerId) ==> data[id] in result
      ensures forall i, j :: 0 <= i < j < |result| ==> result[i].id != result[j].id
      ensures |result| == |ProviderIds(providerId)|
    {
      var keep := (r: Region) => r.providerId == providerId;
      ghost var ids;
      result, ids := MapScan.Collect(data, keep);
      assert MapScan.Selected(data, keep) == ProviderIds(providerId);
      forall id | id in ProviderIds(providerId) ensures data[id] in result {
        var i :| 0 <= i < |ids| && ids[i] == id;
        assert result[i] == data[id];
      }
    }

    /** After `Delete(id)`, `Get(id)` is None and every other region is untouched. */
    method Delete(id: string) returns (o: Outcome<StoreError>)
      requires Valid()
      modifies this
      ensures Valid()
      ensures o == Pass && data == old(data) - {id} && Get(id) == None
    {
      data := data - {id};
      return Pass;
    }
  }
}
