/** The in-memory subscription store of providers/subscription/memory/memory.go. */
module SubscriptionMemory {
  import opened Wrappers
  import opened Webx
  import MapScan

  /** A map from subscription ID to subscription; each method is one atomic step (the mutex is left out). */
  class Store {
    var data: map<string, Subscription>

    /** Every subscription is stored under its own ID, as `Create` and `Update` do. */
    ghost predicate Valid()
      reads this
    {
      forall id :: id in data ==> data[id].id == id
    }

    /** `New()`: an empty store. */
    constructor ()
      ensures Valid() && data == map[]
    {
      data := map[];
    }

    /** A duplicate ID fails and leaves the store unchanged; otherwise the subscription is added. */
    method Create(sub: Subscription) returns (o: Outcome<StoreError>)
      requires Valid()
      modifies this
      ensures Valid()
      ensures sub.id in old(data) ==> o == Fail(AlreadyExists("subscription", sub.id)) && data == old(data)
      ensures sub.id !in old(data) ==> o == Pass && data == old(data)[sub.id := sub]
    {
      if sub.id in data {
        return Fail(AlreadyExists("subscription", sub.id));
      }
      data := data[sub.id := sub];
      return Pass;
    }

    /** A missing ID yields None. */
    function Get(id: string): (r: Option<Subscription>)
      reads this
      ensures r.Some? <==> id in data
      ensures r.Some? ==> r.value == data[id]
    {
      if id in data then Some(data[id]) else None
    }

    /** Some subscription of `workspaceId`, or None when the workspace has none. */
    method GetByWorkspace(workspaceId: string) returns (r: Option<Subscription>)
      requires Valid()
      ensures r.Some? ==> r.value.id in data && data[r.value.id] == r.value && r.value.workspaceId == workspaceId
      ensures r.None? <==> forall id :: id in data ==> data[id].workspaceId != workspaceId
    {
      var keep := (s: Subscription) => s.workspaceId == workspaceId;
      ghost var id;
      r, id := MapScan.Find(data, keep);
      if r.None? {
        forall k | k in data ensures !keep(data[k]) {
          assert k !in MapScan.Selected(data, keep);
        }
      }
    }

    /** A missing ID fails; otherwise only that entry is replaced. */
    method Update(sub: Subscription) returns (o: Outcome<StoreError>)
      requires Valid()
      modifies this
      ensures Valid()
      ensures sub.id !in old(data) ==> o == Fail(NotFound("subscription", sub.id)) && data == old(data)
      ensures sub.id in old(data) ==> o == Pass && data == old(data)[sub.id := sub]
    {
      if sub.id !in data {
        return Fail(NotFound("subscription", sub.id));
      }
      data := data[sub.id := sub];
      return Pass;
    }

    /** Removes that ID and nothing else; a missing ID is a successful no-op. */
    method Delete(id: string) returns (o: Outcome<StoreError>)
      requires Valid()
      modifies this
      ensures Valid()
      ensures o == Pass && data == old(data) - {id}
    {
      data := data - {id};
      return Pass;
    }
  }
}
