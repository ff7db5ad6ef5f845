/** The multi-statement expression builder of utils/expressions.go. */
module UtilsExpressions {
  import opened Strings

  /** `BuildConditional`: the ternary text, with "null" standing in for an empty false branch. */
  function BuildConditional(condition: string, trueExpr: string, falseExpr: string): (s: string)
    ensures falseExpr != "" ==> s == condition + " ? " + trueExpr + " : " + falseExpr
    ensures falseExpr == "" ==> s == condition + " ? " + trueExpr + " : null"
  {
    var f := if falseExpr == "" then "null" else falseExpr;
    condition + " ? " + trueExpr + " : " + f
  }

  /** The `"$signal = value"` statement `SetSignal` adds. */
  function Assignment(signal: string, value: string): (s: string)
    ensures |s| == 1 + |signal| + 3 + |value| && s[0] == '$' && s[1..1 + |signal|] == signal
  {
    "$" + signal + " = " + value
  }

  /** `DatastarExpression`: the statements added so far, none of them empty. */
  class Expression {
    var statements: seq<string>

    /** No statement is empty: `Statement` drops empty ones. */
    ghost predicate Valid()
      reads this
    {
      forall i :: 0 <= i < |statements| ==> statements[i] != ""
    }

    /** `NewExpression()`. */
    constructor ()
      ensures Valid() && statements == []
    {
      statements := [];
    }

    /** `Statement`: a non-empty statement goes at the end; an empty one is ignored. The builder itself is returned. */
    method Statement(stmt: string) returns (self: Expression)
      requires Valid()
      modifies this
      ensures Valid() && self == this
      ensures statements == if stmt == "" then old(statements) else old(statements) + [stmt]
      ensures Build() == if stmt == "" then old(Build()) else if old(statements) == [] then stmt else old(Build()) + "; " + stmt
    {
      if stmt != "" {
        JoinSnoc(statements, stmt, "; ");
        statements := statements + [stmt];
      }
      return this;
    }

    /** `SetSignal`: adds `Assignment(signal, value)`. */
    method SetSignal(signal: string, value: string) returns (self: Expression)
      requires Valid()
      modifies this
      ensures Valid() && self == this
      ensures statements == old(statements) + [Assignment(signal, value)]
    {
      self := Statement("$" + signal + " = " + value);
    }

    /** `Conditional`: adds the same ternary `BuildConditional` writes. */
    method Conditional(condition: string, trueExpr: string, falseExpr: string) returns (self: Expression)
      requires Valid()
      modifies this
      ensures Valid() && self == this
      ensures statements == old(statements) + [BuildConditional(condition, trueExpr, falseExpr)]
    {
      var f := falseExpr;
      if f == "" {
        f := "null";
      }
      self := Statement(condition + " ? " + trueExpr + " : " + f);
    }

    /** `Build`: the statements joined by "; " in the order they were added; "" when there are none. */
    function Build(): (s: string)
      reads this
      ensures statements == [] ==> s == ""
      ensures |statements| == 1 ==> s == statements[0]
    {
      if |statements| == 0 then "" else Join(statements, "; ")
    }
  }
}
