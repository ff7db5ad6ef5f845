/** The in-memory role store of providers/role/memory/memory.go. */
module RoleMemory {
  import opened Wrappers
  import opened Webx
  import MapScan

  /** A map from role ID to role; each method is one atomic step (the mutex is left out). */
  class Store {
    var data: map<string, Role>

    /** Every role is stored under its own ID, as `Create` and `Update` do. */
    ghost predicate Valid()
      reads this
    {
      forall id :: id in data ==> data[id].id == id
    }

    /** `New()`: an empty store. */
    constructor ()
      ensures Valid() && data == map[]
    {
      data := map[];
    }

    /** The IDs of the roles scoped to one workspace. */
    function WorkspaceIds(workspaceId: string): set<string>
      reads this
    {
      set id | id in data && data[id].workspaceId == workspaceId
    }

    /** A duplicate ID fails and leaves the store unchanged; otherwise the role is added. */
    method Create(r: Role) returns (o: Outcome<StoreError>)
      requires Valid()
      modifies this
      ensures Valid()
      ensures r.id in old(data) ==> o == Fail(AlreadyExists("role", r.id)) && data == old(data)
      ensures r.id !in old(data) ==> o == Pass && data == old(data)[r.id := r]
    {
      if r.id in data {
        return Fail(AlreadyExists("role", r.id));
      }
      data := data[r.id := r];
      return Pass;
    }

    /** A missing ID yields None, not an error. */
    function Get(id: string): (r: Option<Role>)
      reads this
      ensures r.Some? <==> id in data
      ensures r.Some? ==> r.value == data[id]
    {
      if id in data then Some(data[id]) else None
    }

    /** Some role with that name in that workspace, or None when there is none. */
    method GetByNameAndWorkspace(name: string, workspaceId: string) returns (r: Option<Role>)
      requires Valid()
      ensures r.Some? ==> r.value.id in data && data[r.value.id] == r.value
      ensures r.Some? ==> r.value.name == name && r.value.workspaceId == workspaceId
      ensures r.None? <==> forall id :: id in data ==> !(data[id].name == name && data[id].workspaceId == workspaceId)
    {
      var keep := (x: Role) => x.name == name && x.workspaceId == workspaceId;
      ghost var id;
      r, id := MapScan.Find(data, keep);
      if r.None? {
        forall k | k in data ensures !keep(data[k]) {
          assert k !in MapScan.Selected(data, keep);
        }
      }
    }

    /** Exactly the roles scoped to `workspaceId`, each once. */
    method ListByWorkspace(workspaceId: string) returns (result: seq<Role>)
      requires Valid()
      ensures forall x :: x in result ==> x.id in data && data[x.id] == x && x.workspaceId == workspaceId
      ensures forall id :: id in WorkspaceIds(workspaceId) ==> data[id] in result
      ensures forall i, j :: 0 <= i < j < |result| ==> result[i].id != result[j].id
      ensures |result| == |WorkspaceIds(workspaceId)|
    {
      var keep := (x: Role) => x.workspaceId == workspaceId;
      ghost var ids;
      result, ids := MapScan.Collect(data, keep);
      assert MapScan.Selected(data, keep) == WorkspaceIds(workspaceId);
      forall id | id in WorkspaceIds(workspaceId) ensures data[id] in result {
        var i :| 0 <= i < |ids| && ids[i] == id;
        assert result[i] == data[id];
      }
    }

    /** A missing ID fails; otherwise only that entry is replaced. */
    method Update(r: Role) returns (o: Outcome<StoreError>)
      requires Valid()
      modifies this
      ensures Valid()
      ensures r.id !in old(data) ==> o == Fail(NotFound("role", r.id)) && data == old(data)
      ensures r.id in old(data) ==> o == Pass && data == old(data)[r.id := r]
    {
      if r.id !in data {
        return Fail(NotFound("role", r.id));
      }
      data := data[r.id := r];
      return Pass;
    }

    /** A stored system role cannot be deleted; any other ID, present or not, ends up absent. */
    method Delete(id: string) returns (o: Outcome<StoreError>)
      requires Valid()
      modifies this
      ensures Valid()
      ensures id in old(data) && old(data)[id].system ==> o == Fail(SystemRoleProtected(id)) && data == old(data)
      ensures !(id in old(data) && old(data)[id].system) ==> o == Pass && data == old(data) - {id}
    {
      if id in data && data[id].system {
        return Fail(SystemRoleProtected(id));
      }
      data := data - {id};
      return Pass;
    }
  }
}
