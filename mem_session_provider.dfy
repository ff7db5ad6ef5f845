/** The dashboard's in-memory user-session provider, cmd/dashboard/internal/session/mem_session_provider.go. */
module DashboardSession {
  import opened Wrappers

  /** A logged-in user's session record (session.go); `CreatedAt` is dropped. */
  datatype UserSession = UserSession(userId: string, email: string, displayName: string,
                                     controlPlaneRoles: seq<string>, consentComplete: bool)

  /** The failures of the provider: `randomID` failing, or a missing session on `Update`. */
  datatype SessionError = IdGenerationFailed | SessionNotFound(id: string)

  /** The IDs of the sessions with email `email` in `store`. */
  function EmailIds(store: map<string, UserSession>, email: string): set<string>
  {
    set id | id in store && store[id].email == email
  }

  /** A map from session ID to session; each method is one atomic step (the mutex is left out). */
  class MemSessionProvider {
    var store: map<string, UserSession>

    /** `NewMemSessionProvider()`: an empty provider. */
    constructor ()
      ensures store == map[]
    {
      store := map[];
    }

    /**
     * Stores `data` under a freshly generated ID and returns it. `generated` is what
     * `randomID` produced: None stands for its failure, which writes nothing. A generated
     * ID that is already in use overwrites, as the Go map assignment does.
     */
    method Create(data: UserSession, generated: Option<string>) returns (r: Result<string, SessionError>)
      modifies this
      ensures generated.None? ==> r == Failure(IdGenerationFailed) && store == old(store)
      ensures generated.Some? ==> r == Success(generated.value) && store == old(store)[generated.value := data]
      ensures r.Success? ==> Get(r.value) == Some(data)
    {
      if generated.None? {
        return Failure(IdGenerationFailed);
      }
      var id := generated.value;
      store := store[id := data];
      return Success(id);
    }

    /** A missing ID yields None with no error. */
    function Get(id: string): (r: Option<UserSession>)
      reads this
      ensures r.Some? <==> id in store
      ensures r.Some? ==> r.value == store[id]
    {
      if id in store then Some(store[id]) else None
    }

    /** A missing ID fails; otherwise only that entry is replaced. */
    method Update(id: string, data: UserSession) returns (o: Outcome<SessionError>)
      modifies this
      ensures id !in old(store) ==> o == Fail(SessionNotFound(id)) && store == old(store)
      ensures id in old(store) ==> o == Pass && store == old(store)[id := data]
    {
      if id !in store {
        return Fail(SessionNotFound(id));
      }
      store := store[id := data];
      return Pass;
    }

    /** Removes that ID; a missing ID is a no-op. */
    method Delete(id: string)
      modifies this
      ensures store == old(store) - {id}
    {
      store := store - {id};
    }

    /** Removes exactly the sessions with that email and returns how many it removed. */
    method DeleteByEmail(email: string) returns (count: nat)
      modifies this
      ensures store == map id | id in old(store) && old(store)[id].email != email :: old(store)[id]
      ensures count == |EmailIds(old(store), email)|
    {
      count := 0;
      var keys := store.Keys;
      ghost var removed: set<string> := {};
      while keys != {}
        invariant keys <= old(store).Keys
        invariant store == map id | id in old(store) && (id in keys || old(store)[id].email != email) :: old(store)[id]
        invariant forall id :: id in removed <==> id in old(store) && id !in keys && old(store)[id].email == email
        invariant count == |removed|
        decreases keys
      {
        var id :| id in keys;
        if store[id].email == email {
          store := store - {id};
          removed := removed + {id};
          count := count + 1;
        }
        keys := keys - {id};
      }
      assert removed == EmailIds(old(store), email);
    }

    /** A copy of the whole store. */
    method ListAll() returns (result: map<string, UserSession>)
      ensures result == store
    {
      result := map[];
      var keys := store.Keys;
      while keys != {}
        invariant keys <= store.Keys
        invariant result == map id | id in store && id !in keys :: store[id]
        decreases keys
      {
        var id :| id in keys;
        result := result[id := store[id]];
        keys := keys - {id};
      }
    }
  }
}
