/** The in-memory workspace store of providers/workspace/memory/memory.go. */
module WorkspaceMemory {
  import opened Wrappers
  import opened Webx
  import MapScan

  /** A map from workspace ID to workspace; each method is one atomic step (the mutex is left out). */
  class Store {
    var data: map<string, Workspace>

    /** Every workspace is stored under its own ID, as `Create` and `Update` do. */
    ghost predicate Valid()
      reads this
    {
      forall id :: id in data ==> data[id].id == id
    }

    /** `New()`: an empty store. */
    constructor ()
      ensures Valid() && data == map[]
    {
      data := map[];
    }

    /** A duplicate ID fails and leaves the store unchanged; otherwise the workspace is added. */
    method Create(ws: Workspace) returns (o: Outcome<StoreError>)
      requires Valid()
      modifies this
      ensures Valid()
      ensures ws.id in old(data) ==> o == Fail(AlreadyExists("workspace", ws.id)) && data == old(data)
      ensures ws.id !in old(data) ==> o == Pass && data == old(data)[ws.id := ws]
    {
      if ws.id in data {
        return Fail(AlreadyExists("workspace", ws.id));
      }
      data := data[ws.id := ws];
      return Pass;
    }

    /** A missing ID yields None with no error. */
    function Get(id: string): (r: Option<Workspace>)
      reads this
      ensures r.Some? <==> id in data
      ensures r.Some? ==> r.value == data[id]
    {
      if id in data then Some(data[id]) else None
    }

    /** Every stored workspace exactly once: as many as the map holds. */
    method List() returns (result: seq<Workspace>)
      requires Valid()
      ensures forall w :: w in result ==> w.id in data && data[w.id] == w
      ensures forall id :: id in data ==> data[id] in result
      ensures forall i, j :: 0 <= i < j < |result| ==> result[i].id != result[j].id
      ensures |result| == |data|
    {
      var keep := (w: Workspace) => true;
      ghost var ids;
      result, ids := MapScan.Collect(data, keep);
      assert MapScan.Selected(data, keep) == data.Keys;
      forall id | id in data ensures data[id] in result {
        assert id in MapScan.Selected(data, keep);
        var i :| 0 <= i < |ids| && ids[i] == id;
        assert result[i] == data[id];
      }
    }

    /** A missing ID fails; otherwise only that entry is replaced. */
    method Update(ws: Workspace) returns (o: Outcome<StoreError>)
      requires Valid()
      modifies this
      ensures Valid()
      ensures ws.id !in old(data) ==> o == Fail(NotFound("workspace", ws.id)) && data == old(data)
      ensures ws.id in old(data) ==> o == Pass && data == old(data)[ws.id := ws]
    {
      if ws.id !in data {
        return Fail(NotFound("workspace", ws.id));
      }
      data := data[ws.id := ws];
      return Pass;
    }

    /** Removes that ID and nothing else; a missing ID is a successful no-op. */
    method Delete(id: string) returns (o: Outcome<StoreError>)
      requires Valid()
      modifies this
      ensures Valid()
      ensures o == Pass && data == old(data) - {id}
    {
      data := data - {id};
      return Pass;
    }
  }
}
