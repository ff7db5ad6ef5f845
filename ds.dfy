/**
 * The Datastar attribute helpers of ds/ds.go. `templ.Attributes` is a map from attribute
 * name to value; every helper here puts a string value in it.
 */
module Ds {
  import opened Strings

  type Attributes = map<string, string>

  // Parameterised attributes: "data-<plugin>:<name>".

  /** `On`: the handler for one event. */
  function On(event: string, expr: string): (a: Attributes)
    ensures Parameterized(a, "on", event, expr)
  {
    assert "data-on:" + event == "data-" + "on" + ":" + event;
    map["data-on:" + event := expr]
  }

  /** `OnClick`: `On` for the click event. */
  function OnClick(expr: string): (a: Attributes)
    ensures a == On("click", expr) && Parameterized(a, "on", "click", expr)
  {
    On("click", expr)
  }

  /** `Bind`: two-way binding of a signal, with an empty value. */
  function Bind(signal: string): (a: Attributes)
    ensures Parameterized(a, "bind", signal, "")
  {
    assert "data-bind:" + signal == "data-" + "bind" + ":" + signal;
    map["data-bind:" + signal := ""]
  }

  /** `ClassToggle`: one class switched by an expression. */
  function ClassToggle(name: string, expr: string): (a: Attributes)
    ensures Parameterized(a, "class", name, expr)
  {
    assert "data-class:" + name == "data-" + "class" + ":" + name;
    map["data-class:" + name := expr]
  }

  /** `Attr`: one HTML attribute bound to an expression. */
  function Attr(name: string, expr: string): (a: Attributes)
    ensures Parameterized(a, "attr", name, expr)
  {
    assert "data-attr:" + name == "data-" + "attr" + ":" + name;
    map["data-attr:" + name := expr]
  }

  /** `Style`: one CSS property bound to an expression. */
  function Style(prop: string, expr: string): (a: Attributes)
    ensures Parameterized(a, "style", prop, expr)
  {
    assert "data-style:" + prop == "data-" + "style" + ":" + prop;
    map["data-style:" + prop := expr]
  }

  /** `Computed`: a signal derived from an expression. */
  function Computed(name: string, expr: string): (a: Attributes)
    ensures Parameterized(a, "computed", name, expr)
  {
    assert "data-computed:" + name == "data-" + "computed" + ":" + name;
    map["data-computed:" + name := expr]
  }

  /** `Indicator`: a request-in-flight signal, with an empty value. */
  function Indicator(name: string): (a: Attributes)
    ensures Parameterized(a, "indicator", name, "")
  {
    assert "data-indicator:" + name == "data-" + "indicator" + ":" + name;
    map["data-indicator:" + name := ""]
  }

  /** `Ref`: an element reference, with an empty value. */
  function Ref(name: string): (a: Attributes)
    ensures Parameterized(a, "ref", name, "")
  {
    assert "data-ref:" + name == "data-" + "ref" + ":" + name;
    map["data-ref:" + name := ""]
  }

  // Standalone attributes: one fixed name "data-<plugin>".

  function Signals(value: string): (a: Attributes)
    ensures Standalone(a, "signals", value)
  {
    assert "data-" + "signals" == "data-signals";
    map["data-signals" := value]
  }

  function Show(expr: string): (a: Attributes)
    ensures Standalone(a, "show", expr)
  {
    assert "data-" + "show" == "data-show";
    map["data-show" := expr]
  }

  function Text(expr: string): (a: Attributes)
    ensures Standalone(a, "text", expr)
  {
    assert "data-" + "text" == "data-text";
    map["data-text" := expr]
  }

  function Class(value: string): (a: Attributes)
    ensures Standalone(a, "class", value)
  {
    assert "data-" + "class" == "data-class";
    map["data-class" := value]
  }

  function Init(expr: string): (a: Attributes)
    ensures Standalone(a, "init", expr)
  {
    assert "data-" + "init" == "data-init";
    map["data-init" := expr]
  }

  function Effect(expr: string): (a: Attributes)
    ensures Standalone(a, "effect", expr)
  {
    assert "data-" + "effect" == "data-effect";
    map["data-effect" := expr]
  }

  /** A single attribute `data-<plugin>:<name>` with this value. */
  predicate Parameterized(a: Attributes, plugin: string, name: string, value: string)
  {
    a == map["data-" + plugin + ":" + name := value]
  }

  /** A single attribute `data-<plugin>` with this value. */
  predicate Standalone(a: Attributes, plugin: string, value: string)
  {
    a == map["data-" + plugin := value]
  }

  /** Datastar reads a name as parameterised when it starts with "data-" and has a colon after that. */
  predicate ColonSeparated(key: string)
  {
    HasPrefix(key, "data-") && ':' in key[5..]
  }

  /** A parameterised name is colon-separated, and its plugin is the text between "data-" and the first colon. */
  lemma ParameterizedKeyShape(plugin: string, name: string)
    requires ':' !in plugin
    ensures ColonSeparated("data-" + plugin + ":" + name)
    ensures ("data-" + plugin + ":" + name)[5..5 + |plugin|] == plugin
    ensures ("data-" + plugin + ":" + name)[5 + |plugin|] == ':'
  {
    var key := "data-" + plugin + ":" + name;
    assert key[..5] == "data-";
    assert key[5 + |plugin|] == ':';
  }

  /** No parameterised helper can produce a hyphen-separated name such as "data-on-click". */
  lemma ParameterizedHelpersAreColonSeparated(name: string, expr: string)
    ensures forall key :: (key in On(name, expr) || key in Bind(name) || key in ClassToggle(name, expr)
      || key in Attr(name, expr) || key in Style(name, expr) || key in Computed(name, expr)
      || key in Indicator(name) || key in Ref(name)) ==> ColonSeparated(key)
  {
    ParameterizedKeyShape("on", name);
    ParameterizedKeyShape("bind", name);
    ParameterizedKeyShape("class", name);
    ParameterizedKeyShape("attr", name);
    ParameterizedKeyShape("style", name);
    ParameterizedKeyShape("computed", name);
    ParameterizedKeyShape("indicator", name);
    ParameterizedKeyShape("ref", name);
  }

  /** A standalone plugin name: `data-` and then no colon. */
  predicate StandaloneName(key: string)
  {
    HasPrefix(key, "data-") && ':' !in key
  }

  /** The names the standalone helpers write are all standalone names. */
  lemma StandaloneNames(v: string)
    ensures forall key :: (key in Signals(v) || key in Show(v) || key in Text(v) || key in Class(v)
      || key in Init(v) || key in Effect(v)) ==> StandaloneName(key)
  {
    forall key | key in Signals(v) || key in Show(v) || key in Text(v) || key in Class(v)
      || key in Init(v) || key in Effect(v)
      ensures StandaloneName(key)
    {
      if key == "data-signals" {
        assert "data-signals"[..5] == "data-";
      } else if key == "data-show" {
        assert "data-show"[..5] == "data-";
      } else if key == "data-text" {
        assert "data-text"[..5] == "data-";
      } else if key == "data-class" {
        assert "data-class"[..5] == "data-";
      } else if key == "data-init" {
        assert "data-init"[..5] == "data-";
      } else {
        assert key == "data-effect";
        assert "data-effect"[..5] == "data-";
      }
    }
  }

  /** Each standalone helper maps one colon-free name to its argument. */
  lemma StandaloneHelpers(v: string)
    ensures forall key :: (key in Signals(v) || key in Show(v) || key in Text(v) || key in Class(v)
      || key in Init(v) || key in Effect(v)) ==> HasPrefix(key, "data-") && ':' !in key
    ensures Signals(v)["data-signals"] == v && Show(v)["data-show"] == v && Text(v)["data-text"] == v
    ensures Class(v)["data-class"] == v && Init(v)["data-init"] == v && Effect(v)["data-effect"] == v
    ensures |Signals(v)| == |Show(v)| == |Text(v)| == |Class(v)| == |Init(v)| == |Effect(v)| == 1
  {
    StandaloneNames(v);
  }

  /** `Merge` as a fold: each argument's entries overwrite what came before. */
  function MergeAll(attrs: seq<Attributes>): (merged: Attributes)
    ensures attrs != [] ==> forall k :: k in attrs[|attrs| - 1] ==> k in merged && merged[k] == attrs[|attrs| - 1][k]
  {
    if attrs == [] then map[] else MergeAll(attrs[..|attrs| - 1]) + attrs[|attrs| - 1]
  }

  /** The merged names are exactly the names of the arguments. */
  lemma {:induction false} MergeKeys(attrs: seq<Attributes>)
    ensures forall k :: k in MergeAll(attrs) <==> exists i :: 0 <= i < |attrs| && k in attrs[i]
  {
    if attrs != [] {
      var init := attrs[..|attrs| - 1];
      MergeKeys(init);
      forall k | exists i :: 0 <= i < |attrs| && k in attrs[i]
        ensures k in MergeAll(attrs)
      {
        var i :| 0 <= i < |attrs| && k in attrs[i];
        if i < |attrs| - 1 {
          assert init[i] == attrs[i];
        }
      }
    }
  }

  /** A merged name keeps the value of the last argument that has it. */
  lemma {:induction false} MergeLastWins(attrs: seq<Attributes>, i: nat, k: string)
    requires i < |attrs| && k in attrs[i]
    requires forall j :: i < j < |attrs| ==> k !in attrs[j]
    ensures k in MergeAll(attrs) && MergeAll(attrs)[k] == attrs[i][k]
  {
    if i < |attrs| - 1 {
      var init := attrs[..|attrs| - 1];
      MergeLastWins(init, i, k);
    }
  }

  /** `Merge()` is empty and `Merge(a)` is `a`. */
  lemma MergeEmptyAndSingle(a: Attributes)
    ensures MergeAll([]) == map[]
    ensures MergeAll([a]) == a
  {
    assert [a][..0] == [];
  }

  /** `Merge`: every argument in order, and each argument's entries in Go's map order. */
  method Merge(attrs: seq<Attributes>) returns (merged: Attributes)
    ensures merged == MergeAll(attrs)
  {
    merged := map[];
    var i := 0;
    while i < |attrs|
      invariant i <= |attrs|
      invariant merged == MergeAll(attrs[..i])
    {
      var attr := attrs[i];
      var pending := attr.Keys;
      while pending != {}
        invariant pending <= attr.Keys
        invariant merged == MergeAll(attrs[..i]) + map k | k in attr && k !in pending :: attr[k]
        decreases pending
      {
        var k :| k in pending;
        merged := merged[k := attr[k]];
        pending := pending - {k};
      }
      assert (map k | k in attr && k !in pending :: attr[k]) == attr;
      assert attrs[..i + 1][..i] == attrs[..i];
      i := i + 1;
    }
    assert attrs[..|attrs|] == attrs;
  }
}
