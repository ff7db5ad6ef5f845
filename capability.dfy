/**
 * The capability matcher of capability/capability.go. A capability set is a list of
 * strings; `"*"` grants everything, a string grants itself, and `"res:*"` grants every
 * `"res:<action>"`, where the resource is the text before the first colon.
 *
 * `Can`, `CanAny` and `CanAll` state the meaning of the three checks on values; the methods
 * `SetCan`, `SetCanAny` and `SetCanAll` are the `for` loops of `Set.Can`, `Set.CanAny` and
 * `Set.CanAll`, each proved to return exactly what its function states.
 */
module Capability {
  import opened Wrappers

  /** `strings.Cut(s, ":")`: the text before the first colon, or None when there is none. */
  function BeforeColon(s: string): (r: Option<string>)
    ensures r.None? <==> ':' !in s
    ensures r.Some? ==> |r.value| < |s| && s[..|r.value|] == r.value && s[|r.value|] == ':'
    ensures r.Some? ==> ':' !in r.value
  {
    if s == [] then None
    else if s[0] == ':' then Some("")
    else match BeforeColon(s[1..])
      case None => None
      case Some(p) => Some([s[0]] + p)
  }

  /** `strings.CutSuffix(c, ":*")`: the resource of a wildcard entry `"res:*"`. */
  function WildcardResource(c: string): (r: Option<string>)
    ensures r.Some? <==> |c| >= 2 && c[|c| - 2..] == ":*"
    ensures r.Some? ==> c == r.value + ":*"
  {
    if |c| >= 2 && c[|c| - 2..] == ":*" then Some(c[..|c| - 2]) else None
  }

  /** What one loop iteration of `Set.Can` checks for a single entry `c`. */
  predicate Grants(c: string, required: string)
  {
    || c == "*"
    || c == required
    || (WildcardResource(c).Some? && BeforeColon(required) == WildcardResource(c))
  }

  /** `Set.Can`: the first entry that grants `required` ends the search with true. */
  function Can(s: seq<string>, required: string): (b: bool)
    ensures b <==> exists i :: 0 <= i < |s| && Grants(s[i], required)
  {
    if s == [] then false else Grants(s[0], required) || Can(s[1..], required)
  }

  /** `Set.CanAny`: some required capability is granted. */
  function CanAny(s: seq<string>, required: seq<string>): (b: bool)
    ensures b <==> exists j :: 0 <= j < |required| && Can(s, required[j])
  {
    if required == [] then false else Can(s, required[0]) || CanAny(s, required[1..])
  }

  /** `Set.CanAll`: every required capability is granted. */
  function CanAll(s: seq<string>, required: seq<string>): (b: bool)
    ensures b <==> forall j :: 0 <= j < |required| ==> Can(s, required[j])
  {
    if required == [] then true else Can(s, required[0]) && CanAll(s, required[1..])
  }

  /** The loop of `Set.Can`: the entries in order, stopping at the first that grants `required`. */
  method SetCan(s: seq<string>, required: string) returns (b: bool)
    ensures b == Can(s, required)
  {
    var i := 0;
    while i < |s|
      invariant i <= |s|
      invariant forall j :: 0 <= j < i ==> !Grants(s[j], required)
    {
      var c := s[i];
      if c == "*" || c == required {
        return true;
      }
      var prefix := WildcardResource(c);
      if prefix.Some? {
        var res := BeforeColon(required);
        if res.Some? && res.value == prefix.value {
          return true;
        }
      }
      i := i + 1;
    }
    return false;
  }

  /** The loop of `Set.CanAny`: true at the first required capability the set grants. */
  method SetCanAny(s: seq<string>, required: seq<string>) returns (b: bool)
    ensures b == CanAny(s, required)
  {
    for i := 0 to |required|
      invariant forall j :: 0 <= j < i ==> !Can(s, required[j])
    {
      var ok := SetCan(s, required[i]);
      if ok {
        return true;
      }
    }
    return false;
  }

  /** The loop of `Set.CanAll`: false at the first required capability the set refuses. */
  method SetCanAll(s: seq<string>, required: seq<string>) returns (b: bool)
    ensures b == CanAll(s, required)
  {
    for i := 0 to |required|
      invariant forall j :: 0 <= j < i ==> Can(s, required[j])
    {
      var ok := SetCan(s, required[i]);
      if !ok {
        return false;
      }
    }
    return true;
  }

  /** The resource split: a colon-free prefix followed by a colon is exactly what `Cut` returns. */
  lemma {:induction false} BeforeColonOf(p: string, rest: string)
    requires ':' !in p
    ensures BeforeColon(p + ":" + rest) == Some(p)
  {
    if p != [] {
      assert (p + ":" + rest)[1..] == p[1..] + ":" + rest;
      BeforeColonOf(p[1..], rest);
      assert [p[0]] + p[1..] == p;
    }
  }

  /** Both directions of the split: `BeforeColon(r) == Some(p)` iff `r` is `p`, a colon, and anything. */
  lemma BeforeColonIff(r: string, p: string)
    ensures BeforeColon(r) == Some(p) <==> ':' !in p && exists rest :: r == p + ":" + rest
  {
    if BeforeColon(r) == Some(p) {
      assert r == p + ":" + r[|p| + 1..];
    }
    if ':' !in p && exists rest :: r == p + ":" + rest {
      var rest :| r == p + ":" + rest;
      BeforeColonOf(p, rest);
    }
  }

  /** A set containing `"*"` grants every string, including `""` and multi-colon strings. */
  lemma SuperadminGrantsAll(s: seq<string>, required: string)
    requires "*" in s
    ensures Can(s, required)
  {
    var i :| 0 <= i < |s| && s[i] == "*";
    assert Grants(s[i], required);
  }

  /** A set containing `required` verbatim grants it. */
  lemma ExactEntryGrants(s: seq<string>, required: string)
    requires required in s
    ensures Can(s, required)
  {
    var i :| 0 <= i < |s| && s[i] == required;
    assert Grants(s[i], required);
  }

  /**
   * A wildcard entry `p + ":*"` with a colon-free resource `p` grants `required` iff
   * `required` contains a colon and its text before the first colon is `p`.
   */
  lemma WildcardEntryGrants(p: string, required: string)
    requires ':' !in p
    ensures Grants(p + ":*", required) <==> ':' in required && BeforeColon(required) == Some(p)
  {
    var c := p + ":*";
    assert c[|c| - 2..] == ":*";
    assert c[..|c| - 2] == p;
    assert WildcardResource(c) == Some(p);
    assert c != "*" by { assert |c| >= 2; }
    if required == c {
      assert c == p + ":" + "*";
      BeforeColonOf(p, "*");
    }
  }

  /** A string without a colon is granted only by `"*"` or by itself: wildcards never match it. */
  lemma ColonFreeNeedsExactOrSuperadmin(c: string, required: string)
    requires ':' !in required
    ensures Grants(c, required) <==> c == "*" || c == required
  {
  }

  /** `Set{"invoices:*"}.Can("invoices")` is false. */
  lemma WildcardDoesNotMatchBareResource()
    ensures !Can(["invoices:*"], "invoices")
  {
    ColonFreeNeedsExactOrSuperadmin("invoices:*", "invoices");
  }

  /** Empty (and nil) sets grant nothing. */
  lemma EmptySetGrantsNothing(required: string)
    ensures !Can([], required)
  {
  }

  /** The empty required string is granted only by `"*"` or by an empty entry. */
  lemma EmptyRequired(s: seq<string>)
    ensures Can(s, "") <==> "*" in s || "" in s
  {
    if Can(s, "") {
      var i :| 0 <= i < |s| && Grants(s[i], "");
      assert s[i] == "*" || s[i] == "";
    }
    if "*" in s { SuperadminGrantsAll(s, ""); }
    if "" in s { ExactEntryGrants(s, ""); }
  }

  /** `Can` depends only on which entries occur: neither order nor duplicates matter. */
  lemma {:induction false} CanDependsOnlyOnEntries(s: seq<string>, t: seq<string>, required: string)
    requires forall c :: c in s <==> c in t
    ensures Can(s, required) == Can(t, required)
  {
    if Can(s, required) {
      var i :| 0 <= i < |s| && Grants(s[i], required);
      assert s[i] in t;
      var j :| 0 <= j < |t| && t[j] == s[i];
      assert Grants(t[j], required);
    }
    if Can(t, required) {
      var j :| 0 <= j < |t| && Grants(t[j], required);
      assert t[j] in s;
      var i :| 0 <= i < |s| && s[i] == t[j];
      assert Grants(s[i], required);
    }
  }

  /** Adding entries never takes a capability away. */
  lemma CanMonotonic(s: seq<string>, t: seq<string>, required: string)
    requires forall c :: c in s ==> c in t
    requires Can(s, required)
    ensures Can(t, required)
  {
    var i :| 0 <= i < |s| && Grants(s[i], required);
    assert s[i] in t;
    var j :| 0 <= j < |t| && t[j] == s[i];
    assert Grants(t[j], required);
  }

  /** With no arguments, `CanAny` is false and `CanAll` is true, whatever the set. */
  lemma NoRequirements(s: seq<string>)
    ensures !CanAny(s, []) && CanAll(s, [])
  {
  }

  /** An entry that does not end in `*` is not a wildcard. */
  lemma NotWildcard(c: string)
    requires |c| >= 1 && c[|c| - 1] != '*'
    ensures WildcardResource(c) == None
  {
  }

  /** A set whose entries are all plain (none ends in '*') grants exactly its own entries. */
  lemma PlainEntriesGrantExactly(s: seq<string>, required: string)
    requires forall i :: 0 <= i < |s| ==> |s[i]| >= 1 && s[i][|s[i]| - 1] != '*'
    ensures Can(s, required) <==> required in s
  {
    forall i | 0 <= i < |s|
      ensures Grants(s[i], required) <==> s[i] == required
    {
      NotWildcard(s[i]);
    }
  }

  /** The exact-match test: `{"invoices:read", "users:write"}` grants both and refuses "invoices:write". */
  lemma ExactMatchScenario()
    ensures var s := ["invoices:read", "users:write"];
      && Can(s, "invoices:read")
      && Can(s, "users:write")
      && !Can(s, "invoices:write")
  {
    var s := ["invoices:read", "users:write"];
    PlainEntriesGrantExactly(s, "invoices:write");
    assert "invoices:write" != s[0] by { assert "invoices:write"[9] != s[0][9]; }
    assert "invoices:write" != s[1] by { assert "invoices:write"[0] != s[1][0]; }
    ExactEntryGrants(s, "invoices:read");
    ExactEntryGrants(s, "users:write");
  }

  /** Plain entries that all differ from `required` in their first character grant nothing. */
  lemma NoEntryGrants(s: seq<string>, required: string)
    requires |required| >= 1
    requires forall i :: 0 <= i < |s| ==> |s[i]| >= 1 && s[i][|s[i]| - 1] != '*' && s[i][0] != required[0]
    ensures !Can(s, required)
  {
    PlainEntriesGrantExactly(s, required);
    assert forall i :: 0 <= i < |s| ==> s[i] != required;
  }

  /** The `CanAny` test on `{"invoices:read", "reports:read"}`. */
  lemma CanAnyScenario()
    ensures var s := ["invoices:read", "reports:read"];
      && CanAny(s, ["invoices:read", "users:write"])
      && !CanAny(s, ["users:write", "billing:read"])
  {
    var s := ["invoices:read", "reports:read"];
    var some: seq<string> := ["invoices:read", "users:write"];
    ExactEntryGrants(s, some[0]);
    var none: seq<string> := ["users:write", "billing:read"];
    NoEntryGrants(s, none[0]);
    NoEntryGrants(s, none[1]);
  }

  /** The `CanAll` test on `{"invoices:read", "reports:read", "users:write"}`. */
  lemma CanAllScenario()
    ensures var s := ["invoices:read", "reports:read", "users:write"];
      && CanAll(s, ["invoices:read", "reports:read"])
      && !CanAll(s, ["invoices:read", "billing:read"])
  {
    var s := ["invoices:read", "reports:read", "users:write"];
    var both: seq<string> := ["invoices:read", "reports:read"];
    ExactEntryGrants(s, both[0]);
    ExactEntryGrants(s, both[1]);
    var missing: seq<string> := ["invoices:read", "billing:read"];
    NoEntryGrants(s, missing[1]);
  }

  /** The reader role of the test scenario: read access to invoices and reports. */
  function ReaderRole(): seq<string>
  {
    ["invoices:read", "reports:read"]
  }

  /** Neither entry of the reader role is a wildcard, so it grants only its own two strings. */
  lemma ReaderGrantsExactly(required: string)
    ensures Can(ReaderRole(), required) <==> required == "invoices:read" || required == "reports:read"
  {
    var s := ReaderRole();
    NotWildcard(s[0]);
    NotWildcard(s[1]);
    assert s == [s[0]] + [s[1]];
    assert Can(s, required) <==> Grants(s[0], required) || Can([s[1]], required);
  }

  /** The test scenario over the reader role: both reads pass, a write and a billing read do not. */
  lemma ReaderScenario()
    ensures var s := ReaderRole();
      && Can(s, "invoices:read")
      && !Can(s, "invoices:write")
      && CanAny(s, ["invoices:write", "reports:read"])
      && CanAll(s, ["invoices:read", "reports:read"])
      && !CanAll(s, ["invoices:read", "billing:read"])
  {
    ReaderGrantsExactly("invoices:read");
    ReaderGrantsExactly("reports:read");
    ReaderGrantsExactly("invoices:write");
    ReaderGrantsExactly("billing:read");
    assert "invoices:write" != "invoices:read" by { assert "invoices:write"[9] != "invoices:read"[9]; }
    assert "invoices:write" != "reports:read" by { assert "invoices:write"[0] != "reports:read"[0]; }
    assert "billing:read" != "invoices:read" by { assert "billing:read"[0] != "invoices:read"[0]; }
    assert "billing:read" != "reports:read" by { assert "billing:read"[0] != "reports:read"[0]; }
    var w1: seq<string> := ["invoices:write", "reports:read"];
    assert CanAny(ReaderRole(), w1) by { assert Can(ReaderRole(), w1[1]); }
    var w2: seq<string> := ["invoices:read", "reports:read"];
    assert CanAll(ReaderRole(), w2) by { assert Can(ReaderRole(), w2[0]) && Can(ReaderRole(), w2[1]); }
    var w3: seq<string> := ["invoices:read", "billing:read"];
    assert !Can(ReaderRole(), w3[1]);
  }

  /** `"invoices:*"` is the wildcard entry for the resource `invoices`. */
  lemma InvoicesWildcard()
    ensures WildcardResource("invoices:*") == Some("invoices")
  {
    var c := "invoices:*";
    assert c[|c| - 2..] == ":*";
    assert c[..|c| - 2] == "invoices";
  }

  /** The wildcard scenario of the tests: `invoices:*` grants an invoices action... */
  lemma ResourceWildcardGrants()
    ensures Can(["invoices:*"], "invoices:read")
  {
    InvoicesWildcard();
    assert "invoices:read" == "invoices" + ":" + "read";
    BeforeColonOf("invoices", "read");
    assert Grants(["invoices:*"][0], "invoices:read");
  }

  /** A wildcard entry refuses every action on another colon-free resource. */
  lemma WildcardRefusesOtherResource(p: string, q: string, action: string)
    requires ':' !in p && ':' !in q && p != q
    ensures !Grants(p + ":*", q + ":" + action)
  {
    WildcardEntryGrants(p, q + ":" + action);
    BeforeColonOf(q, action);
  }

  /** ... and nothing on another resource. */
  lemma ResourceWildcardRefuses()
    ensures !Can(["invoices:*"], "users:read")
  {
    WildcardRefusesOtherResource("invoices", "users", "read");
    assert "invoices" + ":*" == "invoices:*";
    assert "users" + ":" + "read" == "users:read";
  }
}
