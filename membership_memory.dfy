/** The in-memory membership store of providers/membership/memory/memory.go. */
module MembershipMemory {
  import opened Wrappers
  import opened Webx
  import MapScan

  /** A map from membership ID to membership; each method is one atomic step (the mutex is left out). */
  class Store {
    var data: map<string, Membership>

    /** Every membership is stored under its own ID, as `Create` does. */
    ghost predicate Valid()
      reads this
    {
      forall id :: id in data ==> data[id].id == id
    }

    /** `New()`: an empty store. */
    constructor ()
      ensures Valid() && data == map[]
    {
      data := map[];
    }

    /** The IDs of the memberships of one user, across all workspaces. */
    function UserIds(userId: string): set<string>
      reads this
    {
      set id | id in data && data[id].userId == userId
    }

    /** The IDs of the memberships of one workspace. */
    function WorkspaceIds(workspaceId: string): set<string>
      reads this
    {
      set id | id in data && data[id].workspaceId == workspaceId
    }

    /** A duplicate ID fails and leaves the store unchanged; otherwise the membership is added. */
    method Create(m: Membership) returns (o: Outcome<StoreError>)
      requires Valid()
      modifies this
      ensures Valid()
      ensures m.id in old(data) ==> o == Fail(AlreadyExists("membership", m.id)) && data == old(data)
      ensures m.id !in old(data) ==> o == Pass && data == old(data)[m.id := m]
    {
      if m.id in data {
        return Fail(AlreadyExists("membership", m.id));
      }
      data := data[m.id := m];
      return Pass;
    }

    /** A missing ID yields None (Go: a nil pointer and a nil error). */
    function Get(id: string): (r: Option<Membership>)
      reads this
      ensures r.Some? <==> id in data
      ensures r.Some? ==> r.value == data[id]
    {
      if id in data then Some(data[id]) else None
    }

    /**
     * Some membership of `userId` in `workspaceId` if there is one, else None. With several
     * matches Go's map order decides which; the model leaves the choice open.
     */
    method GetByUserAndWorkspace(userId: string, workspaceId: string) returns (r: Option<Membership>)
      requires Valid()
      ensures r.Some? ==> r.value.id in data && data[r.value.id] == r.value
      ensures r.Some? ==> r.value.userId == userId && r.value.workspaceId == workspaceId
      ensures r.None? <==> forall id :: id in data ==> !(data[id].userId == userId && data[id].workspaceId == workspaceId)
    {
      var keep := (m: Membership) => m.userId == userId && m.workspaceId == workspaceId;
      ghost var id;
      r, id := MapScan.Find(data, keep);
      if r.None? {
        forall k | k in data ensures !keep(data[k]) {
          assert k !in MapScan.Selected(data, keep);
        }
      }
    }

    /** Exactly the memberships of `workspaceId`, each once. */
    method ListByWorkspace(workspaceId: string) returns (result: seq<Membership>)
      requires Valid()
      ensures forall m :: m in result ==> m.id in data && data[m.id] == m && m.workspaceId == workspaceId
      ensures forall id :: id in WorkspaceIds(workspaceId) ==> data[id] in result
      ensures forall i, j :: 0 <= i < j < |result| ==> result[i].id != result[j].id
      ensures |result| == |WorkspaceIds(workspaceId)|
    {
      var keep := (m: Membership) => m.workspaceId == workspaceId;
      ghost var ids;
      result, ids := MapScan.Collect(data, keep);
      assert MapScan.Selected(data, keep) == WorkspaceIds(workspaceId);
      forall id | id in WorkspaceIds(workspaceId) ensures data[id] in result {
        var i :| 0 <= i < |ids| && ids[i] == id;
        assert result[i] == data[id];
      }
    }

    /** Exactly the memberships of `userId`, each once. */
    method ListByUser(userId: string) returns (result: seq<Membership>)
      requires Valid()
      ensures forall m :: m in result ==> m.id in data && data[m.id] == m && m.userId == userId
      ensures forall id :: id in UserIds(userId) ==> data[id] in result
      ensures forall i, j :: 0 <= i < j < |result| ==> result[i].id != result[j].id
      ensures |result| == |UserIds(userId)|
    {
      var keep := (m: Membership) => m.userId == userId;
      ghost var ids;
      result, ids := MapScan.Collect(data, keep);
      assert MapScan.Selected(data, keep) == UserIds(userId);
      forall id | id in UserIds(userId) ensures data[id] in result {
        var i :| 0 <= i < |ids| && ids[i] == id;
        assert result[i] == data[id];
      }
    }

    /** Removes that ID and nothing else; a missing ID is a successful no-op. */
    method Delete(id: string) returns (o: Outcome<StoreError>)
      requires Valid()
      modifies this
      ensures Valid()
      ensures o == Pass && data == old(data) - {id}
    {
      data := data - {id};
      return Pass;
    }
  }
}
