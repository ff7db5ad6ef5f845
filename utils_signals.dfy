/**
 * The signal namespace helper of utils/signals.go. The `Signals` and `DataSignals` fields,
 * which hold the caller's struct and its JSON encoding, are not part of this model.
 */
module UtilsSignals {
  import opened Strings

  /** `strings.ReplaceAll(id, "-", "_")`. */
  function Sanitize(id: string): (r: string)
    ensures |r| == |id|
    ensures forall i :: 0 <= i < |id| ==> r[i] == if id[i] == '-' then '_' else id[i]
    ensures '-' !in r
  {
    if id == [] then [] else [if id[0] == '-' then '_' else id[0]] + Sanitize(id[1..])
  }

  /** Sanitising twice is sanitising once. */
  lemma SanitizeIdempotent(id: string)
    ensures Sanitize(Sanitize(id)) == Sanitize(id)
  {
  }

  /** An ID is left as it is exactly when it has no hyphen. */
  lemma SanitizeFixpoint(id: string)
    ensures Sanitize(id) == id <==> '-' !in id
  {
    if '-' in id {
      var i :| 0 <= i < |id| && id[i] == '-';
      assert Sanitize(id)[i] == '_';
    }
  }

  /** `SignalManager`, reduced to its namespace ID. */
  datatype SignalManager = SignalManager(id: string)

  /** `Signals(id, …)`: the manager of a sanitised ID. */
  function Signals(id: string): (sm: SignalManager)
    ensures sm.id == Sanitize(id) && '-' !in sm.id
  {
    SignalManager(Sanitize(id))
  }

  /** `Signal`: the reference `$<id>.<property>`. */
  function Signal(sm: SignalManager, property: string): (ref: string)
    ensures |ref| == |sm.id| + |property| + 2
    ensures ref[0] == '$' && ref[1..1 + |sm.id|] == sm.id && ref[1 + |sm.id|] == '.' && ref[2 + |sm.id|..] == property
  {
    "$" + sm.id + "." + property
  }

  /** `Toggle`: the reference, " = !", and the reference again. */
  function Toggle(sm: SignalManager, property: string): (r: string)
    ensures var ref := Signal(sm, property);
      && |r| == 2 * |ref| + 4
      && r[..|ref|] == ref && r[|ref|..|ref| + 4] == " = !" && r[|ref| + 4..] == ref
  {
    var ref := Signal(sm, property);
    ref + " = !" + ref
  }

  /** `Set`: the reference, " = ", and the value as written. */
  function Set(sm: SignalManager, property: string, value: string): (r: string)
    ensures var ref := Signal(sm, property);
      && |r| == |ref| + 3 + |value|
      && r[..|ref|] == ref && r[|ref|..|ref| + 3] == " = " && r[|ref| + 3..] == value
  {
    Signal(sm, property) + " = " + value
  }

  /** `SetString`: the reference, " = ", and the value between single quotes. */
  function SetString(sm: SignalManager, property: string, value: string): (r: string)
    ensures var ref := Signal(sm, property);
      && |r| == |ref| + 5 + |value|
      && r[..|ref|] == ref && r[|ref|..|ref| + 4] == " = '"
      && r[|ref| + 4..|r| - 1] == value && r[|r| - 1] == '\''
  {
    Signal(sm, property) + " = '" + value + "'"
  }

  /** `Equals`: the reference, " === ", and the value between single quotes. */
  function Equals(sm: SignalManager, property: string, value: string): (r: string)
    ensures var ref := Signal(sm, property);
      && |r| == |ref| + 7 + |value|
      && r[..|ref|] == ref && r[|ref|..|ref| + 6] == " === '"
      && r[|ref| + 6..|r| - 1] == value && r[|r| - 1] == '\''
  {
    Signal(sm, property) + " === '" + value + "'"
  }

  /** `NotEquals`: the reference, " !== ", and the value between single quotes. */
  function NotEquals(sm: SignalManager, property: string, value: string): (r: string)
    ensures var ref := Signal(sm, property);
      && |r| == |ref| + 7 + |value|
      && r[..|ref|] == ref && r[|ref|..|ref| + 6] == " !== '"
      && r[|ref| + 6..|r| - 1] == value && r[|r| - 1] == '\''
  {
    Signal(sm, property) + " !== '" + value + "'"
  }

  /** `Conditional`: a ternary on the reference, the true branch before " : ", the false branch after. */
  function Conditional(sm: SignalManager, property: string, trueValue: string, falseValue: string): (r: string)
    ensures var ref := Signal(sm, property); var colon := |ref| + 3 + |trueValue|;
      && |r| == colon + 3 + |falseValue|
      && r[..|ref|] == ref && r[|ref|..|ref| + 3] == " ? "
      && r[|ref| + 3..colon] == trueValue && r[colon..colon + 3] == " : " && r[colon + 3..] == falseValue
  {
    Signal(sm, property) + " ? " + trueValue + " : " + falseValue
  }

  /** `ConditionalAction`: the condition, then `Set` in parentheses, else `void 0`. */
  function ConditionalAction(sm: SignalManager, condition: string, property: string, value: string): (r: string)
    ensures var assign := Set(sm, property, value); var close := |condition| + 4 + |assign|;
      && |r| == close + 10
      && r[..|condition|] == condition && r[|condition|..|condition| + 4] == " ? ("
      && r[|condition| + 4..close] == assign && r[close..] == ") : void 0"
  {
    condition + " ? (" + Set(sm, property, value) + ") : void 0"
  }

  /** The first |p| characters of `s` are the first |p| characters of any longer prefix of `s`. */
  lemma PrefixOfPrefix(s: string, ref: string, p: string)
    requires |p| <= |ref| <= |s| && s[..|ref|] == ref && ref[..|p|] == p
    ensures s[..|p|] == p
  {
    assert s[..|p|] == s[..|ref|][..|p|];
  }

  /**
   * Every expression helper names `$<sanitised id>.` at the start of its signal reference
   * (`ConditionalAction` inside its parentheses), and that namespace has no hyphen.
   */
  lemma ExpressionsReferenceSignal(id: string, property: string, value: string, other: string, condition: string)
    ensures var sm := Signals(id); var ns := "$" + Sanitize(id) + ".";
      && Toggle(sm, property)[..|ns|] == ns
      && Set(sm, property, value)[..|ns|] == ns
      && SetString(sm, property, value)[..|ns|] == ns
      && Equals(sm, property, value)[..|ns|] == ns
      && NotEquals(sm, property, value)[..|ns|] == ns
      && Conditional(sm, property, value, other)[..|ns|] == ns
      && ConditionalAction(sm, condition, property, value)[|condition| + 4..|condition| + 4 + |ns|] == ns
      && '-' !in ns[1..|ns| - 1]
  {
    var sm := Signals(id);
    var ns := "$" + Sanitize(id) + ".";
    var ref := Signal(sm, property);
    assert ref[..|ns|] == ns;
    PrefixOfPrefix(Toggle(sm, property), ref, ns);
    PrefixOfPrefix(Set(sm, property, value), ref, ns);
    PrefixOfPrefix(SetString(sm, property, value), ref, ns);
    PrefixOfPrefix(Equals(sm, property, value), ref, ns);
    PrefixOfPrefix(NotEquals(sm, property, value), ref, ns);
    PrefixOfPrefix(Conditional(sm, property, value, other), ref, ns);
    var r := ConditionalAction(sm, condition, property, value);
    var assign := Set(sm, property, value);
    var inner := r[|condition| + 4..|condition| + 4 + |assign|];
    assert inner == assign;
    assert r[|condition| + 4..|condition| + 4 + |ns|] == inner[..|ns|];
    assert ns[1..|ns| - 1] == Sanitize(id);
  }
}
