/** The data-class object builder of utils/data_class.go. */
module UtilsDataClass {
  import opened Strings

  /** `dataClassEntry`. */
  datatype Entry = Entry(className: string, condition: string)

  /** One `'class': condition` property. */
  function Property(e: Entry): string
  {
    "'" + e.className + "': " + e.condition
  }

  /** The properties of the entries, in order. */
  function Properties(entries: seq<Entry>): (parts: seq<string>)
    ensures |parts| == |entries|
    ensures forall i :: 0 <= i < |entries| ==> parts[i] == Property(entries[i])
  {
    seq(|entries|, i requires 0 <= i < |entries| => Property(entries[i]))
  }

  /** The object text: "{}" without entries, else the properties joined by ", " inside braces. */
  function ObjectText(entries: seq<Entry>): (s: string)
    ensures entries == [] ==> s == "{}"
    ensures |s| >= 2 && s[0] == '{' && s[|s| - 1] == '}'
  {
    if entries == [] then "{}" else "{" + Join(Properties(entries), ", ") + "}"
  }

  /** One more entry adds its property at the end. */
  lemma PropertiesSnoc(entries: seq<Entry>, e: Entry)
    ensures Properties(entries + [e]) == Properties(entries) + [Property(e)]
  {
    var ps2 := Properties(entries + [e]);
    assert forall i :: 0 <= i < |ps2| ==> ps2[i] == (Properties(entries) + [Property(e)])[i];
  }

  /** Without its closing brace the object text is the brace and the joined properties. */
  lemma ObjectTextOpen(entries: seq<Entry>)
    requires entries != []
    ensures ObjectText(entries)[..|ObjectText(entries)| - 1] == "{" + Join(Properties(entries), ", ")
  {
    var open := "{" + Join(Properties(entries), ", ");
    KeepsPrefix(open, open, "}");
  }

  /** One more entry appends ", " and its property inside the braces. */
  lemma ObjectTextAppend(entries: seq<Entry>, e: Entry)
    requires entries != []
    ensures ObjectText(entries + [e]) == ObjectText(entries)[..|ObjectText(entries)| - 1] + ", " + Property(e) + "}"
  {
    var ps := Properties(entries);
    var p := Property(e);
    PropertiesSnoc(entries, e);
    JoinSnoc(ps, p, ", ");
    ObjectTextOpen(entries);
    var j := Join(ps, ", ");
    AppendAssoc("{", j + ", ", p);
    AppendAssoc("{", j, ", ");
  }

  /** `DataClass`: the entries added so far, duplicates included. */
  class DataClass {
    var classes: seq<Entry>

    /** `NewDataClass()`. */
    constructor ()
      ensures classes == []
    {
      classes := [];
    }

    /** `Add`: one entry at the end; the builder itself is returned. */
    method Add(className: string, condition: string) returns (self: DataClass)
      modifies this
      ensures self == this
      ensures classes == old(classes) + [Entry(className, condition)]
    {
      classes := classes + [Entry(className, condition)];
      return this;
    }

    /** `Build`: formats each entry into a fresh slice, then joins; the entries are left as they are. */
    method Build() returns (s: string)
      ensures s == ObjectText(classes)
    {
      if |classes| == 0 {
        return "{}";
      }
      var parts := new string[|classes|];
      for i := 0 to |classes|
        invariant forall j :: 0 <= j < i ==> parts[j] == Property(classes[j])
      {
        parts[i] := "'" + classes[i].className + "': " + classes[i].condition;
      }
      assert parts[..] == Properties(classes);
      s := "{" + Join(parts[..], ", ") + "}";
    }
  }
}
