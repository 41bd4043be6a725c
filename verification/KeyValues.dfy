// The placement constraint and environment variable translators of
// app/docker/helpers/serviceHelper.js.
module KeyValues {
  import opened Collections

  // ----- JavaScript strings -----

  predicate At(s: string, i: int, pattern: string) {
    0 <= i && i + |pattern| <= |s| && s[i..i + |pattern|] == pattern
  }

  ghost predicate Contains(s: string, pattern: string) {
    exists i :: At(s, i, pattern)
  }

  // The first position of a pattern, or -1.
  function IndexOf(s: string, pattern: string): (r: int)
    ensures r == -1 || At(s, r, pattern)
    ensures forall j :: 0 <= j && (r == -1 || j < r) ==> !At(s, j, pattern)
  {
    IndexFrom(s, pattern, 0)
  }

  function IndexFrom(s: string, pattern: string, from: nat): (r: int)
    ensures r == -1 || (from <= r && At(s, r, pattern))
    ensures forall j :: from <= j && (r == -1 || j < r) ==> !At(s, j, pattern)
    decreases |s| - from
  {
    if from + |pattern| > |s| then -1
    else if At(s, from, pattern) then from
    else if from < |s| then IndexFrom(s, pattern, from + 1)
    else -1
  }

  lemma FirstIndex(s: string, pattern: string, i: int)
    requires At(s, i, pattern)
    requires forall j :: 0 <= j < i ==> !At(s, j, pattern)
    ensures IndexOf(s, pattern) == i
  {
  }

  // A bound of String.slice: negative bounds count from the end.
  function Bound(n: nat, i: int): (b: nat)
    ensures b <= n
  {
    if i < 0 then if n + i < 0 then 0 else n + i else if i > n then n else i
  }

  function SliceTo(s: string, end: int): string {
    s[..Bound(|s|, end)]
  }

  function SliceFrom(s: string, start: int): string {
    s[Bound(|s|, start)..]
  }

  // ----- Placement constraints -----

  datatype Constraint = Constraint(key: string, operator: string, value: string)

  // The position of the operator and the operator: equality is looked for first.
  function GetOperator(constraint: string): (int, string) {
    var indexEquals := IndexOf(constraint, "==");
    if indexEquals >= 0 then (indexEquals, "==") else (IndexOf(constraint, "!="), "!=")
  }

  function ParseConstraint(constraint: string): Constraint {
    var (index, operator) := GetOperator(constraint);
    Constraint(SliceTo(constraint, index), operator, SliceFrom(constraint, index + 2))
  }

  function PrintConstraint(c: Constraint): Option<string> {
    if c.key != "" && c.value != "" then Some(c.key + c.operator + c.value) else None
  }

  function ParseConstraints(constraints: seq<string>): seq<Constraint> {
    seq(|constraints|, i requires 0 <= i < |constraints| => ParseConstraint(constraints[i]))
  }

  function PrintConstraints(cs: seq<Constraint>): (printed: seq<string>)
    ensures |printed| <= |cs|
  {
    if cs == [] then [] else
      PrintConstraints(cs[..|cs| - 1]) +
      match PrintConstraint(cs[|cs| - 1])
      case Some(s) => [s]
      case None => []
  }

  method TranslateConstraintsToKeyValue(constraints: seq<string>) returns (keyValues: seq<Constraint>)
    ensures keyValues == ParseConstraints(constraints)
  {
    keyValues := [];
    for i := 0 to |constraints|
      invariant keyValues == ParseConstraints(constraints)[..i]
    {
      var constraint := constraints[i];
      var operatorIndices := GetOperator(constraint);
      var key := SliceTo(constraint, operatorIndices.0);
      var value := SliceFrom(constraint, operatorIndices.0 + 2);
      keyValues := keyValues + [Constraint(key, operatorIndices.1, value)];
    }
  }

  method TranslateKeyValueToPlacementConstraints(keyValues: seq<Constraint>) returns (constraints: seq<string>)
    ensures constraints == PrintConstraints(keyValues)
  {
    constraints := [];
    for i := 0 to |keyValues|
      invariant constraints == PrintConstraints(keyValues[..i])
    {
      assert keyValues[..i + 1][..i] == keyValues[..i];
      var constraint := keyValues[i];
      if constraint.key != "" && constraint.value != "" {
        constraints := constraints + [constraint.key + constraint.operator + constraint.value];
      }
    }
    assert keyValues[..|keyValues|] == keyValues;
  }

  // Equality wins over inequality, and of each the first occurrence.
  lemma OperatorMeans(constraint: string)
    ensures var (index, operator) := GetOperator(constraint);
            && (Contains(constraint, "==") ==>
                  && operator == "==" && At(constraint, index, "==")
                  && forall j :: 0 <= j < index ==> !At(constraint, j, "=="))
            && (!Contains(constraint, "==") ==> operator == "!=")
            && (!Contains(constraint, "==") && Contains(constraint, "!=") ==>
                  At(constraint, index, "!=") && forall j :: 0 <= j < index ==> !At(constraint, j, "!="))
            && (!Contains(constraint, "==") && !Contains(constraint, "!=") ==> index == -1)
  {
    if i :| At(constraint, i, "==") {
      assert IndexOf(constraint, "==") != -1;
    }
    if i :| At(constraint, i, "!=") {
      assert IndexOf(constraint, "!=") != -1;
    }
  }

  // A constraint is what is before its operator, the operator, and what is behind it. Without
  // an operator the slices count from the end: all but the last character, and all but the first.
  lemma ParseMeans(constraint: string)
    ensures var (index, operator) := GetOperator(constraint);
            && (index >= 0 ==>
                  && index + 2 <= |constraint|
                  && ParseConstraint(constraint) == Constraint(constraint[..index], operator, constraint[index + 2..]))
            && (index < 0 && constraint != "" ==>
                  ParseConstraint(constraint) == Constraint(constraint[..|constraint| - 1], "!=", constraint[1..]))
            && (constraint == "" ==> ParseConstraint(constraint) == Constraint("", "!=", ""))
  {
  }

  // Likewise for a variable, which without an equals sign loses its last character as a key and
  // stays whole as a value.
  lemma VariableMeans(variable: string)
    ensures var idx := IndexOf(variable, "=");
            && (idx >= 0 ==> ParseVariable(variable) == Variable(variable[..idx], variable[idx + 1..]))
            && (idx < 0 && variable != "" ==>
                  ParseVariable(variable) == Variable(variable[..|variable| - 1], variable))
  {
  }

  // The texts of a list of constraints, and of a list of variables, where there are any.
  function Printed(cs: seq<Constraint>): (texts: seq<Option<string>>)
    ensures |texts| == |cs|
    ensures forall i :: 0 <= i < |cs| ==>
              texts[i] == if cs[i].key != "" && cs[i].value != "" then Some(cs[i].key + cs[i].operator + cs[i].value)
                          else None
  {
    seq(|cs|, i requires 0 <= i < |cs| => PrintConstraint(cs[i]))
  }

  // Printing keeps those with a key and a value, in their order.
  lemma PrintMeans(cs: seq<Constraint>)
    ensures PrintConstraints(cs) == Present(Printed(cs), |cs|)
  {
    PrintsPrefix(cs, |cs|);
    assert cs[..|cs|] == cs;
  }

  lemma {:induction false} PrintsPrefix(cs: seq<Constraint>, n: nat)
    requires n <= |cs|
    ensures PrintConstraints(cs[..n]) == Present(Printed(cs), n)
  {
    if n > 0 {
      PrintsPrefix(cs, n - 1);
      assert cs[..n][..n - 1] == cs[..n - 1];
    }
  }

  // The text has an operator that is neither at its start nor at its end.
  predicate WellFormed(constraint: string) {
    0 < GetOperator(constraint).0 && GetOperator(constraint).0 + 2 < |constraint|
  }

  // A constraint survives being parsed and printed exactly when it is well formed.
  lemma PrintAfterParse(constraint: string)
    ensures PrintConstraint(ParseConstraint(constraint)) == Some(constraint) <==> WellFormed(constraint)
  {
    var (index, operator) := GetOperator(constraint);
    var c := ParseConstraint(constraint);
    if index >= 0 {
      assert constraint == constraint[..index] + constraint[index..index + 2] + constraint[index + 2..];
    } else if PrintConstraint(c).Some? {
      assert |c.key + c.operator + c.value| == |c.key| + 2 + |c.value|;
    }
  }

  // A whole list survives exactly when all its constraints are well formed.
  lemma {:induction false} PrintAfterParseAll(constraints: seq<string>)
    ensures PrintConstraints(ParseConstraints(constraints)) == constraints <==>
              forall i :: 0 <= i < |constraints| ==> WellFormed(constraints[i])
  {
    if constraints != [] {
      var n := |constraints| - 1;
      PrintAfterParseAll(constraints[..n]);
      PrintAfterParse(constraints[n]);
      var parsed := ParseConstraints(constraints);
      assert parsed[..n] == ParseConstraints(constraints[..n]);
      LastSurvives(PrintConstraints(parsed[..n]), PrintConstraint(parsed[n]), constraints);
      assert forall i :: 0 <= i < n ==> constraints[..n][i] == constraints[i];
    }
  }

  lemma LastSurvives(before: seq<string>, last: Option<string>, constraints: seq<string>)
    requires constraints != [] && |before| < |constraints|
    ensures var n := |constraints| - 1;
            before + (match last case Some(s) => [s] case None => []) == constraints <==>
            before == constraints[..n] && last == Some(constraints[n])
  {
  }

  predicate EndsWith(s: string, c: char) {
    s != "" && s[|s| - 1] == c
  }

  predicate StartsWith(s: string, c: char) {
    s != "" && s[0] == c
  }

  // No operator is found before or across the one that was printed.
  ghost predicate ReadsBack(c: Constraint) {
    if c.operator == "==" then
      !Contains(c.key, "==") && !EndsWith(c.key, '=')
    else
      !Contains(c.key, "==") && !Contains(c.key, "!=") && !Contains(c.value, "==") && !StartsWith(c.value, '=')
  }

  // Where a two-character pattern can be in key + operator + value.
  lemma AtConcat(key: string, operator: string, value: string, i: int, pattern: string)
    requires |operator| == 2 && |pattern| == 2
    ensures At(key + operator + value, i, pattern) <==>
              || At(key, i, pattern)
              || (i == |key| - 1 && i >= 0 && pattern == [key[i], operator[0]])
              || (i == |key| && pattern == operator)
              || (i == |key| + 1 && value != "" && pattern == [operator[1], value[0]])
              || (i >= |key| + 2 && At(value, i - |key| - 2, pattern))
  {
    var s := key + operator + value;
    if 0 <= i && i + 2 <= |s| {
      TwoCharacters(s, i);
      assert pattern == [pattern[0], pattern[1]];
      if i + 2 <= |key| {
        TwoCharacters(key, i);
      } else if i == |key| - 1 {
        assert s[i] == key[i] && s[i + 1] == operator[0];
      } else if i == |key| {
        assert operator == [operator[0], operator[1]];
      } else if i == |key| + 1 {
        assert s[i] == operator[1] && s[i + 1] == value[0];
      } else {
        TwoCharacters(value, i - |key| - 2);
      }
    }
  }

  lemma TwoCharacters(s: string, i: int)
    requires 0 <= i && i + 2 <= |s|
    ensures s[i..i + 2] == [s[i], s[i + 1]]
  {
  }

  // A printed constraint is read back as it was exactly when no operator precedes or straddles
  // the one it has; for inequality the value must not bring an equality of its own either.
  lemma ParseAfterPrint(c: Constraint)
    requires c.operator == "==" || c.operator == "!="
    ensures ParseConstraint(c.key + c.operator + c.value) == c <==> ReadsBack(c)
  {
    var s := c.key + c.operator + c.value;
    var n := |c.key|;
    assert "=="[0] == '=' && "=="[1] == '=' && "!="[0] == '!' && "!="[1] == '=';
    AtConcat(c.key, c.operator, c.value, n, c.operator);
    OperatorFound(c);
    assert s[..n] == c.key && s[n + 2..] == c.value;
    var (index, operator) := GetOperator(s);
    assert |SliceTo(s, index)| == index;
  }

  lemma OperatorFound(c: Constraint)
    requires c.operator == "==" || c.operator == "!="
    ensures GetOperator(c.key + c.operator + c.value) == (|c.key|, c.operator) <==> ReadsBack(c)
    ensures GetOperator(c.key + c.operator + c.value).0 >= 0
  {
    var s := c.key + c.operator + c.value;
    var n := |c.key|;
    assert "=="[0] == '=' && "=="[1] == '=' && "!="[0] == '!' && "!="[1] == '=';
    AtConcat(c.key, c.operator, c.value, n, c.operator);
    assert At(s, n, c.operator);
    if ReadsBack(c) {
      forall j | 0 <= j && (c.operator == "!=" || j < n)
        ensures !At(s, j, "==")
      {
        AtConcat(c.key, c.operator, c.value, j, "==");
      }
      forall j | 0 <= j < n && c.operator == "!="
        ensures !At(s, j, "!=")
      {
        AtConcat(c.key, c.operator, c.value, j, "!=");
      }
      FirstIndex(s, c.operator, n);
    } else if c.operator == "==" {
      EarlierEquality(c);
    } else {
      if !Contains(c.key, "==") && !Contains(c.value, "==") && !StartsWith(c.value, '=') {
        var j :| At(c.key, j, "!=");
        AtConcat(c.key, c.operator, c.value, j, "!=");
      } else {
        StrayEquality(c);
      }
    }
  }

  lemma EarlierEquality(c: Constraint)
    requires c.operator == "==" && !ReadsBack(c)
    ensures exists j :: 0 <= j < |c.key| && At(c.key + c.operator + c.value, j, "==")
  {
    assert "=="[0] == '=' && "=="[1] == '=';
    var j := |c.key| - 1;
    if Contains(c.key, "==") {
      j :| At(c.key, j, "==");
    }
    AtConcat(c.key, c.operator, c.value, j, "==");
    assert At(c.key + c.operator + c.value, j, "==");
  }

  lemma StrayEquality(c: Constraint)
    requires c.operator == "!="
    requires Contains(c.key, "==") || Contains(c.value, "==") || StartsWith(c.value, '=')
    ensures exists j :: At(c.key + c.operator + c.value, j, "==")
  {
    assert "!="[0] == '!' && "!="[1] == '=' && "==" == ['=', '='];
    var j := |c.key| + 1;
    if Contains(c.key, "==") {
      j :| At(c.key, j, "==");
    } else if Contains(c.value, "==") {
      var i :| At(c.value, i, "==");
      j := i + |c.key| + 2;
    }
    AtConcat(c.key, c.operator, c.value, j, "==");
    assert At(c.key + c.operator + c.value, j, "==");
  }

  // ----- Environment variables -----

  datatype Variable = Variable(key: string, value: string)

  function ParseVariable(variable: string): Variable {
    var idx := IndexOf(variable, "=");
    Variable(SliceTo(variable, idx), SliceFrom(variable, idx + 1))
  }

  function PrintVariable(v: Variable): Option<string> {
    if v.key != "" then Some(v.key + "=" + v.value) else None
  }

  function ParseVariables(env: seq<string>): seq<Variable> {
    seq(|env|, i requires 0 <= i < |env| => ParseVariable(env[i]))
  }

  function PrintVariables(vs: seq<Variable>): seq<string> {
    if vs == [] then [] else
      PrintVariables(vs[..|vs| - 1]) +
      match PrintVariable(vs[|vs| - 1])
      case Some(s) => [s]
      case None => []
  }

  method TranslateEnvironmentVariables(env: seq<string>) returns (variables: seq<Variable>)
    ensures variables == ParseVariables(env)
  {
    variables := [];
    for i := 0 to |env|
      invariant variables == ParseVariables(env)[..i]
    {
      var idx := IndexOf(env[i], "=");
      variables := variables + [Variable(SliceTo(env[i], idx), SliceFrom(env[i], idx + 1))];
    }
  }

  method TranslateEnvironmentVariablesToEnv(env: seq<Variable>) returns (variables: seq<string>)
    ensures variables == PrintVariables(env)
  {
    variables := [];
    for i := 0 to |env|
      invariant variables == PrintVariables(env[..i])
    {
      assert env[..i + 1][..i] == env[..i];
      if env[i].key != "" {
        variables := variables + [env[i].key + "=" + env[i].value];
      }
    }
    assert env[..|env|] == env;
  }

  // A variable survives being parsed and printed exactly when it has a '=' after its start,
  // and being printed and parsed exactly when its key has none.
  lemma VariableRoundTrips(variable: string, v: Variable)
    ensures PrintVariable(ParseVariable(variable)) == Some(variable) <==> IndexOf(variable, "=") > 0
    ensures ParseVariable(v.key + "=" + v.value) == v <==> !Contains(v.key, "=")
  {
    var idx := IndexOf(variable, "=");
    if idx >= 0 {
      assert variable == variable[..idx] + variable[idx..idx + 1] + variable[idx + 1..];
    }
    KeyReadsBack(v);
  }

  lemma KeyReadsBack(v: Variable)
    ensures ParseVariable(v.key + "=" + v.value) == v <==> !Contains(v.key, "=")
  {
    var s, n := v.key + "=" + v.value, |v.key|;
    assert s[..n] == v.key && s[n + 1..] == v.value;
    OneCharacter(s, n);
    forall j | 0 <= j < n
      ensures At(s, j, "=") <==> At(v.key, j, "=")
    {
      OneCharacter(s, j);
      OneCharacter(v.key, j);
    }
    var idx := IndexOf(s, "=");
    if Contains(v.key, "=") {
      var j :| At(v.key, j, "=");
      assert At(s, j, "=");
      assert 0 <= idx <= j;
      assert |SliceTo(s, idx)| == idx;
    } else {
      FirstIndex(s, "=", n);
    }
  }

  lemma OneCharacter(s: string, i: int)
    requires 0 <= i < |s|
    ensures At(s, i, "=") <==> s[i] == '='
  {
    assert s[i..i + 1] == [s[i]];
  }

  function PrintedVariables(vs: seq<Variable>): (texts: seq<Option<string>>)
    ensures |texts| == |vs|
    ensures forall i :: 0 <= i < |vs| ==>
              texts[i] == if vs[i].key != "" then Some(vs[i].key + "=" + vs[i].value) else None
  {
    seq(|vs|, i requires 0 <= i < |vs| => PrintVariable(vs[i]))
  }

  // Printing keeps the variables with a key, in their order.
  lemma PrintVariablesMeans(vs: seq<Variable>)
    ensures PrintVariables(vs) == Present(PrintedVariables(vs), |vs|)
  {
    PrintsVariablesPrefix(vs, |vs|);
    assert vs[..|vs|] == vs;
  }

  lemma {:induction false} PrintsVariablesPrefix(vs: seq<Variable>, n: nat)
    requires n <= |vs|
    ensures PrintVariables(vs[..n]) == Present(PrintedVariables(vs), n)
  {
    if n > 0 {
      PrintsVariablesPrefix(vs, n - 1);
      assert vs[..n][..n - 1] == vs[..n - 1];
    }
  }
}
