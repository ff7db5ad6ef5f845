/**
 * The in-memory session key/value store of providers/session/memory/memory.go. Every
 * value lives in one flat map under the joined slot `sessionID + ":" + key`.
 */
module SessionMemory {
  import opened Strings

  /** `sessionKey`: the storage slot of a session's key. */
  function SessionKey(sessionId: string, key: string): (slot: string)
    ensures |slot| == |sessionId| + 1 + |key| && slot[|sessionId|] == ':'
    ensures slot[..|sessionId|] == sessionId && slot[|sessionId| + 1..] == key
  {
    sessionId + ":" + key
  }

  /** The slot is a plain join: a colon inside the key is indistinguishable from the separator. */
  lemma SlotsCollide()
    ensures SessionKey("a", "b:c") == SessionKey("a:b", "c")
  {
  }

  /** The slot of every key of a session starts with the session's sweep prefix. */
  lemma SlotHasSessionPrefix(sessionId: string, key: string)
    ensures HasPrefix(SessionKey(sessionId, key), sessionId + ":")
  {
    assert SessionKey(sessionId, key)[..|sessionId + ":"|] == sessionId + ":";
  }

  /** A map of joined slots to values; each method is one atomic step (the mutex is left out). */
  class Store {
    var data: map<string, string>

    /** `New()`: an empty store. */
    constructor ()
      ensures data == map[]
    {
      data := map[];
    }

    /** An unset key reads as `""` with no error. */
    function Get(sessionId: string, key: string): (v: string)
      reads this
      ensures SessionKey(sessionId, key) !in data ==> v == ""
      ensures SessionKey(sessionId, key) in data ==> v == data[SessionKey(sessionId, key)]
    {
      var slot := SessionKey(sessionId, key);
      if slot in data then data[slot] else ""
    }

    /** Writes (or overwrites) one slot; `Get` of the same pair then returns `value`. */
    method Set(sessionId: string, key: string, value: string)
      modifies this
      ensures data == old(data)[SessionKey(sessionId, key) := value]
      ensures Get(sessionId, key) == value
    {
      data := data[SessionKey(sessionId, key) := value];
    }

    /** Removes exactly the slots that start with `sessionId + ":"` and keeps all others. */
    method Delete(sessionId: string)
      modifies this
      ensures data == map k | k in old(data) && !HasPrefix(k, sessionId + ":") :: old(data)[k]
      ensures forall key :: Get(sessionId, key) == ""
    {
      var prefix := sessionId + ":";
      var keys := data.Keys;
      while keys != {}
        invariant keys <= old(data).Keys
        invariant data == map k | k in old(data) && (k in keys || !HasPrefix(k, prefix)) :: old(data)[k]
        decreases keys
      {
        var k :| k in keys;
        if |k| >= |prefix| && k[..|prefix|] == prefix {
          data := data - {k};
        }
        keys := keys - {k};
      }
      forall key ensures Get(sessionId, key) == "" {
        SlotHasSessionPrefix(sessionId, key);
      }
    }
  }

  /** `Delete("a")` also sweeps the slots of a session called `"a:b"`, whose slots start with `"a:"`. */
  lemma DeleteReachesNestedSession(key: string)
    ensures HasPrefix(SessionKey("a:b", key), "a" + ":")
  {
    assert SessionKey("a:b", key)[..2] == "a:";
  }
}
