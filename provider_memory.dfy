/** The in-memory provider store of providers/provider/memory/memory.go. */
module ProviderMemory {
  import opened Wrappers
  import opened Webx
  import MapScan

  /** A map from provider ID to provider; each method is one atomic step (the mutex is left out). */
  class Store {
    var data: map<string, Provider>

    /** Every provider is stored under its own ID, as `Create` and `Update` do. */
    ghost predicate Valid()
      reads this
    {
      forall id :: id in data ==> data[id].id == id
    }

    /** `New()`: an empty store. */
    constructor ()
      ensures Valid() && data == map[]
    {
      data := map[];
    }

    /** The IDs of the providers of one type. */
    function TypeIds(t: ProviderType): set<string>
      reads this
    {
      set id | id in data && data[id].providerType == t
    }

    /** The IDs of the providers of one owner. */
    function OwnerIds(ownerId: string): set<string>
      reads this
    {
      set id | id in data && data[id].ownerId == ownerId
    }

    /** A duplicate ID fails and leaves the store unchanged; otherwise the provider is added. */
    method Create(p: Provider) returns (o: Outcome<StoreError>)
      requires Valid()
      modifies this
      ensures Valid()
      ensures p.id in old(data) ==> o == Fail(AlreadyExists("provider", p.id)) && data == old(data)
      ensures p.id !in old(data) ==> o == Pass && data == old(data)[p.id := p]
    {
      if p.id in data {
        return Fail(AlreadyExists("provider", p.id));
      }
      data := data[p.id := p];
      return Pass;
    }

    /** A missing ID yields None with no error. */
    function Get(id: string): (r: Option<Provider>)
      reads this
      ensures r.Some? <==> id in data
      ensures r.Some? ==> r.value == data[id]
    {
      if id in data then Some(data[id]) else None
    }

    /** Every stored provider exactly once. */
    method List() returns (result: seq<Provider>)
      requires Valid()
      ensures forall p :: p in result ==> p.id in data && data[p.id] == p
      ensures forall id :: id in data ==> data[id] in result
      ensures forall i, j :: 0 <= i < j < |result| ==> result[i].id != result[j].id
      ensures |result| == |data|
    {
      var keep := (p: Provider) => true;
      ghost var ids;
      result, ids := MapScan.Collect(data, keep);
      assert MapScan.Selected(data, keep) == data.Keys;
      forall id | id in data ensures data[id] in result {
        assert id in MapScan.Selected(data, keep);
        var i :| 0 <= i < |ids| && ids[i] == id;
        assert result[i] == data[id];
      }
    }

    /** Exactly the providers whose type is `t`, each once. */
    method ListByType(t: ProviderType) returns (result: seq<Provider>)
      requires Valid()
      ensures forall p :: p in result ==> p.id in data && data[p.id] == p && p.providerType == t
      ensures forall id :: id in TypeIds(t) ==> data[id] in result
      ensures forall i, j :: 0 <= i < j < |result| ==> result[i].id != result[j].id
      ensures |result| == |TypeIds(t)|
    {
      var keep := (p: Provider) => p.providerType == t;
      ghost var ids;
      result, ids := MapScan.Collect(data, keep);
      assert MapScan.Selected(data, keep) == TypeIds(t);
      forall id | id in TypeIds(t) ensures data[id] in result {
        var i :| 0 <= i < |ids| && ids[i] == id;
        assert result[i] == data[id];
      }
    }

    /** Exactly the providers owned by `ownerId`, each once. */
    method ListByOwner(ownerId: string) returns (result: seq<Provider>)
      requires Valid()
      ensures forall p :: p in result ==> p.id in data && data[p.id] == p && p.ownerId == ownerId
      ensures forall id :: id in OwnerIds(ownerId) ==> data[id] in result
      ensures forall i, j :: 0 <= i < j < |result| ==> result[i].id != result[j].id
      ensures |result| == |OwnerIds(ownerId)|
    {
      var keep := (p: Provider) => p.ownerId == ownerId;
      ghost var ids;
      result, ids := MapScan.Collect(data, keep);
      assert MapScan.Selected(data, keep) == OwnerIds(ownerId);
      forall id | id in OwnerIds(ownerId) ensures data[id] in result {
        var i :| 0 <= i < |ids| && ids[i] == id;
        assert result[i] == data[id];
      }
    }

    /** A missing ID fails; otherwise `Get` afterwards returns the new value. */
    method Update(p: Provider) returns (o: Outcome<StoreError>)
      requires Valid()
      modifies this
      ensures Valid()
      ensures p.id !in old(data) ==> o == Fail(NotFound("provider", p.id)) && data == old(data)
      ensures p.id in old(data) ==> o == Pass && data == old(data)[p.id := p] && Get(p.id) == Some(p)
    {
      if p.id !in data {
        return Fail(NotFound("provider", p.id));
      }
      data := data[p.id := p];
      return Pass;
    }

    /** After `Delete(id)`, `Get(id)` is None; a missing ID is a successful no-op. */
    method Delete(id: string) returns (o: Outcome<StoreError>)
      requires Valid()
      modifies this
      ensures Valid()
      ensures o == Pass && data == old(data) - {id} && Get(id) == None
    {
      data := data - {id};
      return Pass;
    }
  }
}
