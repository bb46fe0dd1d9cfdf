/**
  * What the script hands to the ninja file writer: variables, rule templates,
  * build statements and the default target, in the order it writes them.
  * The writer's text layout (line wrapping, `$` escaping) is not modelled.
  */
module Ninja {
  import opened Results
  import opened Sequences

  /** One `ninja.build(output, rule, inputs, implicit, order_only)` call. */
  datatype Build = Build(
    output: string,
    rule: string,
    inputs: seq<string>,
    implicit: seq<string>,
    orderOnly: seq<string>)

  /** One `ninja.rule(name, command, ...)` call; absent keyword arguments are `None`. */
  datatype Rule = Rule(
    name: string,
    command: string,
    description: string,
    depfile: Option<string>,
    deps: Option<string>,
    generator: bool)

  /** One `ninja.variable(key, value)` call. */
  datatype Variable = Variable(key: string, value: string)

  /** Everything written to `build.ninja`, in order of kind. */
  datatype BuildFile = BuildFile(
    variables: seq<Variable>,
    rules: seq<Rule>,
    builds: seq<Build>,
    defaults: seq<string>)

  /** `phony` is built into ninja; every other rule a build uses must be declared. */
  const Phony := "phony"

  /** The build statements that use `rule`, in order. */
  function WithRule(builds: seq<Build>, rule: string): seq<Build> {
    if builds == [] then []
    else
      var last := builds[|builds| - 1];
      WithRule(builds[..|builds| - 1], rule) + (if last.rule == rule then [last] else [])
  }

  /** Selecting by rule distributes over concatenation, so the order of the statements is kept. */
  lemma {:induction false} WithRuleAppend(a: seq<Build>, b: seq<Build>, rule: string)
    ensures WithRule(a + b, rule) == WithRule(a, rule) + WithRule(b, rule)
  {
    if b == [] {
      AppendEmpty(a);
      AppendEmpty(WithRule(a, rule));
    } else {
      var init, last := b[..|b| - 1], b[|b| - 1];
      WithRuleAppend(a, init, rule);
      AppendDropLast(a, b);
      AppendAssoc(WithRule(a, rule), WithRule(init, rule), if last.rule == rule then [last] else []);
    }
  }

  /** A single statement is selected exactly when it uses the rule. */
  lemma WithRuleSingle(b: Build, rule: string)
    ensures WithRule([b], rule) == if b.rule == rule then [b] else []
  {
    assert [b][..0] == [];
  }

  /** Three statements with distinct rules: the one using `rule`, if any. */
  lemma WithRuleTriple(x: Build, y: Build, z: Build, rule: string)
    requires x.rule != y.rule && x.rule != z.rule && y.rule != z.rule
    ensures WithRule([x, y, z], rule) ==
      if rule == x.rule then [x] else if rule == y.rule then [y] else if rule == z.rule then [z] else []
  {
    assert [x, y, z][..2] == [x, y];
    assert [x, y][..1] == [x];
    assert [x][..0] == [];
    var sx, sy, sz := if x.rule == rule then [x] else [], if y.rule == rule then [y] else [], if z.rule == rule then [z] else [];
    assert WithRule([x], rule) == [] + sx;
    assert WithRule([x, y], rule) == [] + sx + sy;
    assert WithRule([x, y, z], rule) == [] + sx + sy + sz;
    if rule == x.rule {
      assert [] + sx + sy + sz == [x];
    } else if rule == y.rule {
      assert [] + sx + sy + sz == [y];
    } else if rule == z.rule {
      assert [] + sx + sy + sz == [z];
    }
  }

  /** Every statement is among those selected by its own rule. */
  lemma {:induction false} WithRuleMember(builds: seq<Build>, b: Build)
    requires b in builds
    ensures b in WithRule(builds, b.rule)
  {
    var init := builds[..|builds| - 1];
    if b != builds[|builds| - 1] {
      assert builds == init + [builds[|builds| - 1]];
      WithRuleMember(init, b);
    }
  }

  /** The outputs of a list of build statements. */
  function Outputs(builds: seq<Build>): (r: set<string>)
    ensures forall k :: 0 <= k < |builds| ==> builds[k].output in r
    ensures forall x :: x in r ==> exists k :: 0 <= k < |builds| && builds[k].output == x
  {
    if builds == [] then {}
    else
      var init := builds[..|builds| - 1];
      var r := Outputs(init) + {builds[|builds| - 1].output};
      assert forall k :: 0 <= k < |init| ==> init[k] == builds[k];
      r
  }

  /** The outputs of a concatenation are the union of the outputs of its parts. */
  lemma OutputsAppend(a: seq<Build>, b: seq<Build>)
    ensures Outputs(a + b) == Outputs(a) + Outputs(b)
  {
    forall x | x in Outputs(a + b) ensures x in Outputs(a) + Outputs(b) {
      var k :| 0 <= k < |a + b| && (a + b)[k].output == x;
      if k < |a| { assert a[k] == (a + b)[k]; } else { assert b[k - |a|] == (a + b)[k]; }
    }
    forall x | x in Outputs(a) + Outputs(b) ensures x in Outputs(a + b) {
      if x in Outputs(a) {
        var k :| 0 <= k < |a| && a[k].output == x;
        assert (a + b)[k] == a[k];
      } else {
        var k :| 0 <= k < |b| && b[k].output == x;
        assert (a + b)[|a| + k] == b[k];
      }
    }
  }

  /** The names of the declared rules. */
  function RuleNames(rules: seq<Rule>): (r: set<string>)
    ensures forall k :: 0 <= k < |rules| ==> rules[k].name in r
  {
    set k | 0 <= k < |rules| :: rules[k].name
  }

  /** A build file whose every statement uses a declared rule or `phony`. */
  predicate RulesDeclared(file: BuildFile) {
    forall b :: b in file.builds ==> b.rule == Phony || b.rule in RuleNames(file.rules)
  }

  /** A statement that links, archives or only groups; unlike a compile, it does not read source files. */
  predicate Aggregating(b: Build) {
    b.rule in {"link", "lib", Phony}
  }

  /** Every aggregating statement of `builds` names as inputs only things in `universe` (used with the outputs of `builds`). */
  predicate InputsProduced(builds: seq<Build>, universe: set<string>) {
    forall b :: b in builds && Aggregating(b) ==> forall x :: x in b.inputs ==> x in universe
  }
}
