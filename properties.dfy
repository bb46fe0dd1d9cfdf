/**
  * Properties of the build graph a run of the script writes: where it stops,
  * which statements each rule gets and in what order, the aliases, the
  * default target, and that nothing is linked, archived or aliased that no
  * statement produces.
  */
module GraphProperties {
  import opened Results
  import opened Strings
  import opened Paths
  import opened Flags
  import opened Ninja
  import opened Bootstrap
  import opened Sequences

  /** The link statements of the examples, in order. */
  function ExampleLinks(files: seq<string>, libs: seq<string>): seq<Build> {
    if files == [] then [] else ExampleLinks(files[..|files| - 1], libs) + [ExampleLink(files[|files| - 1], libs)]
  }

  /** The aliases of the examples, in order. */
  function ExampleAliases(files: seq<string>): seq<Build> {
    if files == [] then [] else ExampleAliases(files[..|files| - 1]) + [ExampleAlias(files[|files| - 1])]
  }

  /** The file handed to the writer, whether the run finishes or stops. */
  function FileOf(r: Result<BuildFile, Abort>): BuildFile {
    match r
    case Success(file) => file
    case Failure(abort) => abort.written
  }

  // ---------------------------------------------------------------------
  // Index forms of the per-source lists

  lemma {:induction false} CompileEdgesAt(files: seq<string>)
    ensures |CompileEdges(files)| == |files|
    ensures forall k :: 0 <= k < |files| ==> CompileEdges(files)[k] == CxxEdge(files[k])
  {
    if files != [] {
      CompileEdgesAt(files[..|files| - 1]);
    }
  }

  lemma {:induction false} ExampleLinksAt(files: seq<string>, libs: seq<string>, k: nat)
    requires k < |files|
    ensures |ExampleLinks(files, libs)| == |files|
    ensures ExampleLinks(files, libs)[k] == ExampleLink(files[k], libs)
  {
    var init := files[..|files| - 1];
    if k < |init| {
      ExampleLinksAt(init, libs, k);
      assert init[k] == files[k];
    } else if init != [] {
      ExampleLinksAt(init, libs, 0);
    }
  }

  lemma {:induction false} ExampleAliasesAt(files: seq<string>, k: nat)
    requires k < |files|
    ensures |ExampleAliases(files)| == |files|
    ensures ExampleAliases(files)[k] == ExampleAlias(files[k])
  {
    var init := files[..|files| - 1];
    if k < |init| {
      ExampleAliasesAt(init, k);
      assert init[k] == files[k];
    } else if init != [] {
      ExampleAliasesAt(init, 0);
    }
  }

  lemma {:induction false} ExampleNamesAt(files: seq<string>, k: nat)
    requires k < |files|
    ensures |ExampleNames(files)| == |files|
    ensures ExampleNames(files)[k] == ExampleName(files[k])
  {
    var init := files[..|files| - 1];
    if k < |init| {
      ExampleNamesAt(init, k);
      assert init[k] == files[k];
    } else if init != [] {
      ExampleNamesAt(init, 0);
    }
  }

  /** Compiling two lists one after the other is compiling their concatenation. */
  lemma {:induction false} CompileEdgesAppend(a: seq<string>, b: seq<string>)
    ensures CompileEdges(a + b) == CompileEdges(a) + CompileEdges(b)
  {
    if b == [] {
      AppendEmpty(a);
      AppendEmpty(CompileEdges(a));
    } else {
      var init := b[..|b| - 1];
      CompileEdgesAppend(a, init);
      AppendDropLast(a, b);
      AppendAssoc(CompileEdges(a), CompileEdges(init), [CxxEdge(b[|b| - 1])]);
    }
  }

  // ---------------------------------------------------------------------
  // Selection by rule, part by part

  lemma WithRulePair(x: Build, y: Build, rule: string)
    ensures WithRule([x, y], rule) == WithRule([x], rule) + WithRule([y], rule)
  {
    WithRuleAppend([x], [y], rule);
    assert [x] + [y] == [x, y];
  }

  lemma {:induction false} CompileEdgesByRule(files: seq<string>, rule: string)
    ensures WithRule(CompileEdges(files), rule) == if rule == "cxx" then CompileEdges(files) else []
  {
    if files != [] {
      var init := files[..|files| - 1];
      CompileEdgesByRule(init, rule);
      WithRuleAppend(CompileEdges(init), [CxxEdge(files[|files| - 1])], rule);
      WithRuleSingle(CxxEdge(files[|files| - 1]), rule);
    }
  }

  lemma {:induction false} ExampleEdgesByRule(files: seq<string>, libs: seq<string>, rule: string)
    ensures WithRule(ExampleEdges(files, libs), rule) ==
      if rule == "cxx" then CompileEdges(files)
      else if rule == "link" then ExampleLinks(files, libs)
      else if rule == Phony then ExampleAliases(files)
      else []
  {
    if files != [] {
      var init := files[..|files| - 1];
      var fn := files[|files| - 1];
      ExampleEdgesByRule(init, libs, rule);
      var c, l, a := CxxEdge(fn), ExampleLink(fn, libs), ExampleAlias(fn);
      WithRuleAppend(ExampleEdges(init, libs), [c, l, a], rule);
      WithRuleTriple(c, l, a, rule);
    }
  }

  lemma LibraryEdgesByRule(src: seq<string>, rule: string)
    ensures WithRule(LibraryEdges(src), rule) ==
      if src == [] then []
      else if rule == Phony then [Build("lib", Phony, [LibNonius], [], [])]
      else if rule == "lib" then [Build(LibNonius, "lib", ObjectFiles(src), [], [])]
      else []
  {
    if src != [] {
      var alias, archive := Build("lib", Phony, [LibNonius], [], []), Build(LibNonius, "lib", ObjectFiles(src), [], []);
      WithRulePair(alias, archive, rule);
      WithRuleSingle(alias, rule);
      WithRuleSingle(archive, rule);
    }
  }

  lemma TestEdgesByRule(test: seq<string>, libs: seq<string>, rule: string)
    ensures WithRule(TestEdges(test, libs), rule) ==
      if rule == "link" then [TestLink(test, libs)]
      else if rule == Phony then [TestAlias()]
      else []
  {
    var link, alias := TestLink(test, libs), TestAlias();
    WithRulePair(link, alias, rule);
    WithRuleSingle(link, rule);
    WithRuleSingle(alias, rule);
  }

  lemma HeaderEdgesByRule(rule: string)
    ensures WithRule(HeaderEdges(), rule) ==
      if rule == "stringize" then [HeaderEdges()[0]]
      else if rule == "header" then [HeaderEdges()[2]]
      else if rule == Phony then [HeaderEdges()[1], HeaderEdges()[3]]
      else []
  {
    var h := HeaderEdges();
    WithRuleAlternating(h[0], h[1], h[2], h[3], rule);
  }

  /** Two statements with rules of their own, each followed by one with a shared rule. */
  lemma WithRuleAlternating(w: Build, x: Build, y: Build, z: Build, rule: string)
    requires x.rule == z.rule && w.rule != x.rule && y.rule != x.rule && w.rule != y.rule
    ensures WithRule([w, x, y, z], rule) ==
      if rule == w.rule then [w] else if rule == y.rule then [y] else if rule == x.rule then [x, z] else []
  {
    assert [w, x, y, z][..3] == [w, x, y];
    WithRuleTriple(w, x, y, rule);
  }

  lemma HeadByRule(script: string, src: seq<string>, rule: string)
    ensures WithRule(Head(script, src), rule) ==
      (if rule == "bootstrap" then [BootstrapEdge(script)] else []) + (if rule == "cxx" then CompileEdges(src) else [])
  {
    WithRuleAppend([BootstrapEdge(script)], CompileEdges(src), rule);
    WithRuleSingle(BootstrapEdge(script), rule);
    CompileEdgesByRule(src, rule);
  }

  lemma TestsAndHeadersByRule(test: seq<string>, libs: seq<string>, rule: string)
    ensures WithRule(TestsAndHeaders(test, libs), rule) ==
      (if rule == "cxx" then CompileEdges(test) else []) + WithRule(TestEdges(test, libs), rule) + WithRule(HeaderEdges(), rule)
  {
    WithRuleAppend(CompileEdges(test), TestEdges(test, libs), rule);
    WithRuleAppend(CompileEdges(test) + TestEdges(test, libs), HeaderEdges(), rule);
    CompileEdgesByRule(test, rule);
  }

  lemma ExamplesPartByRule(files: seq<string>, libs: seq<string>, rule: string)
    ensures WithRule(ExamplesPart(files, libs), rule) ==
      WithRule(ExampleEdges(files, libs), rule) + (if rule == Phony then [ExamplesAlias(files)] else [])
  {
    WithRuleAppend(ExampleEdges(files, libs), [ExamplesAlias(files)], rule);
    WithRuleSingle(ExamplesAlias(files), rule);
  }

  /** Selecting a rule's statements part by part, in the order the script writes the parts. */
  lemma ByRule(script: string, s: Sources, rule: string)
    ensures WithRule(AllStatements(script, s), rule) ==
      WithRule(Head(script, s.src), rule) + (WithRule(LibraryEdges(s.src), rule)
      + (WithRule(TestsAndHeaders(s.test, BuiltLibs(s.src)), rule)
      + WithRule(ExamplesPart(s.examples, BuiltLibs(s.src)), rule)))
  {
    var libs := BuiltLibs(s.src);
    var h, l, t, e := Head(script, s.src), LibraryEdges(s.src), TestsAndHeaders(s.test, libs), ExamplesPart(s.examples, libs);
    assert AllStatements(script, s) == h + (l + (t + e));
    WithRuleAppend(t, e, rule);
    WithRuleAppend(l, t + e, rule);
    WithRuleAppend(h, l + (t + e), rule);
  }

  // ---------------------------------------------------------------------
  // Where a run stops

  /**
    * As written, a run stops with a `NameError` for `libnonius` exactly when
    * `src/` holds a source; by then the writer has the preamble, the rules,
    * the regeneration statement and the library's compile statements, and no
    * default target.
    */
  lemma NameErrorExactly(rules: seq<Rule>, script: string, s: Sources)
    ensures Written(rules, script, s, AsWritten).Failure? <==> s.src != []
    ensures s.src != [] ==>
      Written(rules, script, s, AsWritten).error ==
      NameError("libnonius", BuildFile(Preamble(), rules, [BootstrapEdge(script)] + CompileEdges(s.src), []))
  {
  }

  /** With the assignment moved first every run finishes, and a run without library sources is unchanged. */
  lemma DeviationAgrees(rules: seq<Rule>, script: string, s: Sources)
    ensures Written(rules, script, s, AssignBeforeUse).Success?
    ensures s.src == [] ==> Written(rules, script, s, AsWritten) == Written(rules, script, s, AssignBeforeUse)
  {
  }

  /** A finished run writes the preamble, the rules, every statement, and `examples` as the only default. */
  lemma FinishedRun(rules: seq<Rule>, script: string, s: Sources, variant: Variant)
    requires Written(rules, script, s, variant).Success?
    ensures Written(rules, script, s, variant).value ==
      BuildFile(Preamble(), rules, AllStatements(script, s), ["examples"])
  {
  }

  // ---------------------------------------------------------------------
  // The statements of each rule
  //
  // A finished run is one that gets past line 120 and writes `AllStatements`:
  // as written, only a run whose `src/` is empty; with `AssignBeforeUse`,
  // every run.

  /** Compiling three lists one after the other is compiling their concatenation. */
  lemma CompileEdgesAppendThree(a: seq<string>, b: seq<string>, c: seq<string>)
    ensures CompileEdges(a + b + c) == CompileEdges(a) + (CompileEdges(b) + CompileEdges(c))
  {
    CompileEdgesAppend(a, b);
    CompileEdgesAppend(a + b, c);
    AppendAssoc(CompileEdges(a), CompileEdges(b), CompileEdges(c));
  }

  /** The compile statements of each part of a finished run. */
  lemma CompileParts(script: string, s: Sources)
    ensures WithRule(Head(script, s.src), "cxx") == CompileEdges(s.src)
    ensures WithRule(LibraryEdges(s.src), "cxx") == []
    ensures WithRule(TestsAndHeaders(s.test, BuiltLibs(s.src)), "cxx") == CompileEdges(s.test)
    ensures WithRule(ExamplesPart(s.examples, BuiltLibs(s.src)), "cxx") == CompileEdges(s.examples)
  {
    var libs := BuiltLibs(s.src);
    HeadByRule(script, s.src, "cxx");
    LibraryEdgesByRule(s.src, "cxx");
    assert WithRule(TestsAndHeaders(s.test, libs), "cxx") == CompileEdges(s.test) by {
      TestsAndHeadersByRule(s.test, libs, "cxx");
      TestEdgesByRule(s.test, libs, "cxx");
      HeaderEdgesByRule("cxx");
    }
    assert WithRule(ExamplesPart(s.examples, libs), "cxx") == CompileEdges(s.examples) by {
      ExamplesPartByRule(s.examples, libs, "cxx");
      ExampleEdgesByRule(s.examples, libs, "cxx");
    }
  }

  /**
    * In a finished run, exactly one compile statement per source: `src/`,
    * then `test/`, then `examples/`, each in walk order.
    */
  lemma CompileStatements(script: string, s: Sources)
    ensures WithRule(AllStatements(script, s), "cxx") == CompileEdges(s.src + s.test + s.examples)
  {
    ByRule(script, s, "cxx");
    CompileParts(script, s);
    CompileEdgesAppendThree(s.src, s.test, s.examples);
  }

  /** The archive statements of each part of a finished run. */
  lemma ArchiveParts(script: string, s: Sources)
    ensures WithRule(Head(script, s.src), "lib") == []
    ensures WithRule(LibraryEdges(s.src), "lib") == if s.src == [] then [] else [Build(LibNonius, "lib", ObjectFiles(s.src), [], [])]
    ensures WithRule(TestsAndHeaders(s.test, BuiltLibs(s.src)), "lib") == []
    ensures WithRule(ExamplesPart(s.examples, BuiltLibs(s.src)), "lib") == []
  {
    var libs := BuiltLibs(s.src);
    HeadByRule(script, s.src, "lib");
    LibraryEdgesByRule(s.src, "lib");
    assert WithRule(TestsAndHeaders(s.test, libs), "lib") == [] by {
      TestsAndHeadersByRule(s.test, libs, "lib");
      TestEdgesByRule(s.test, libs, "lib");
      HeaderEdgesByRule("lib");
    }
    assert WithRule(ExamplesPart(s.examples, libs), "lib") == [] by {
      ExamplesPartByRule(s.examples, libs, "lib");
      ExampleEdgesByRule(s.examples, libs, "lib");
    }
  }

  /**
    * In a finished run, the archive is built, from the library's objects,
    * exactly when `src/` holds a source, and `built_libs` is empty without
    * it and names exactly its output with it. As written, a run with
    * library sources never gets this far.
    */
  lemma ArchiveStatements(script: string, s: Sources)
    ensures WithRule(AllStatements(script, s), "lib") ==
      if s.src == [] then [] else [Build(LibNonius, "lib", ObjectFiles(s.src), [], [])]
    ensures BuiltLibs(s.src) == if s.src == [] then [] else [WithRule(AllStatements(script, s), "lib")[0].output]
  {
    ByRule(script, s, "lib");
    ArchiveParts(script, s);
  }

  /** The link statements of each part of a finished run. */
  lemma LinkParts(script: string, s: Sources)
    ensures WithRule(Head(script, s.src), "link") == []
    ensures WithRule(LibraryEdges(s.src), "link") == []
    ensures WithRule(TestsAndHeaders(s.test, BuiltLibs(s.src)), "link") == [TestLink(s.test, BuiltLibs(s.src))]
    ensures WithRule(ExamplesPart(s.examples, BuiltLibs(s.src)), "link") == ExampleLinks(s.examples, BuiltLibs(s.src))
  {
    var libs := BuiltLibs(s.src);
    HeadByRule(script, s.src, "link");
    LibraryEdgesByRule(s.src, "link");
    TestsAndHeadersLinks(s.test, libs);
    ExamplesPartLinks(s.examples, libs);
  }

  lemma TestsAndHeadersLinks(test: seq<string>, libs: seq<string>)
    ensures WithRule(TestsAndHeaders(test, libs), "link") == [TestLink(test, libs)]
  {
    TestsAndHeadersByRule(test, libs, "link");
    TestEdgesByRule(test, libs, "link");
    HeaderEdgesByRule("link");
  }

  lemma ExamplesPartLinks(files: seq<string>, libs: seq<string>)
    ensures WithRule(ExamplesPart(files, libs), "link") == ExampleLinks(files, libs)
  {
    ExamplesPartByRule(files, libs, "link");
    ExampleEdgesByRule(files, libs, "link");
  }

  /**
    * The link statements of a finished run: the test runner first, always,
    * even with no test sources and no archive, then one per example, in order.
    */
  lemma LinkStatements(script: string, s: Sources)
    ensures WithRule(AllStatements(script, s), "link") == [TestLink(s.test, BuiltLibs(s.src))] + ExampleLinks(s.examples, BuiltLibs(s.src))
  {
    ByRule(script, s, "link");
    LinkParts(script, s);
  }

  /** The fixed aliases: `test`, `templates` and `header`. */
  function FixedAliases(): seq<Build> {
    [TestAlias(), TemplatesAlias(), HeaderAlias()]
  }

  /** The aliases of each part of a finished run. */
  lemma PhonyParts(script: string, s: Sources)
    ensures WithRule(Head(script, s.src), Phony) == []
    ensures WithRule(LibraryEdges(s.src), Phony) == if s.src == [] then [] else [Build("lib", Phony, [LibNonius], [], [])]
    ensures WithRule(TestsAndHeaders(s.test, BuiltLibs(s.src)), Phony) == FixedAliases()
    ensures WithRule(ExamplesPart(s.examples, BuiltLibs(s.src)), Phony) ==
      ExampleAliases(s.examples) + [Build("examples", Phony, ExampleNames(s.examples), [], [])]
  {
    var libs := BuiltLibs(s.src);
    HeadByRule(script, s.src, Phony);
    LibraryEdgesByRule(s.src, Phony);
    TestsAndHeadersAliases(s.test, libs);
    ExamplesPartAliases(s.examples, libs);
  }

  lemma TestsAndHeadersAliases(test: seq<string>, libs: seq<string>)
    ensures WithRule(TestsAndHeaders(test, libs), Phony) == FixedAliases()
  {
    TestsAndHeadersByRule(test, libs, Phony);
    TestEdgesByRule(test, libs, Phony);
    HeaderEdgesByRule(Phony);
    var t, h := WithRule(TestEdges(test, libs), Phony), WithRule(HeaderEdges(), Phony);
    assert t == [TestAlias()];
    assert h == [TemplatesAlias(), HeaderAlias()];
    assert WithRule(TestsAndHeaders(test, libs), Phony) == [] + t + h;
  }

  lemma ExamplesPartAliases(files: seq<string>, libs: seq<string>)
    ensures WithRule(ExamplesPart(files, libs), Phony) == ExampleAliases(files) + [ExamplesAlias(files)]
  {
    ExamplesPartByRule(files, libs, Phony);
    ExampleEdgesByRule(files, libs, Phony);
  }

  /**
    * The aliases of a finished run: `lib` when there is an archive, `test`,
    * `templates`, `header`, one per example, and last `examples` over the
    * example names.
    */
  lemma PhonyStatements(script: string, s: Sources)
    ensures WithRule(AllStatements(script, s), Phony) ==
      (if s.src == [] then [] else [Build("lib", Phony, [LibNonius], [], [])])
      + (FixedAliases() + (ExampleAliases(s.examples) + [Build("examples", Phony, ExampleNames(s.examples), [], [])]))
  {
    ByRule(script, s, Phony);
    PhonyParts(script, s);
    var libs := BuiltLibs(s.src);
    var rest := WithRule(LibraryEdges(s.src), Phony)
      + (WithRule(TestsAndHeaders(s.test, libs), Phony) + WithRule(ExamplesPart(s.examples, libs), Phony));
    assert [] + rest == rest;
  }

  /** The statements of each part of a finished run that generate a header. */
  lemma HeaderParts(script: string, s: Sources, rule: string)
    requires rule == "stringize" || rule == "header"
    ensures WithRule(Head(script, s.src), rule) == []
    ensures WithRule(LibraryEdges(s.src), rule) == []
    ensures WithRule(TestsAndHeaders(s.test, BuiltLibs(s.src)), rule) == WithRule(HeaderEdges(), rule)
    ensures WithRule(ExamplesPart(s.examples, BuiltLibs(s.src)), rule) == []
  {
    var libs := BuiltLibs(s.src);
    HeadByRule(script, s.src, rule);
    LibraryEdgesByRule(s.src, rule);
    assert WithRule(TestsAndHeaders(s.test, libs), rule) == WithRule(HeaderEdges(), rule) by {
      TestsAndHeadersByRule(s.test, libs, rule);
      TestEdgesByRule(s.test, libs, rule);
    }
    assert WithRule(ExamplesPart(s.examples, libs), rule) == [] by {
      ExamplesPartByRule(s.examples, libs, rule);
      ExampleEdgesByRule(s.examples, libs, rule);
    }
  }

  /** In a finished run, the report template and the single header are each generated by exactly one statement. */
  lemma GeneratedHeaders(script: string, s: Sources)
    ensures WithRule(AllStatements(script, s), "stringize") == [TemplateBuild()]
    ensures WithRule(AllStatements(script, s), "header") == [SingleHeaderBuild()]
  {
    ByRule(script, s, "stringize");
    HeaderParts(script, s, "stringize");
    HeaderEdgesByRule("stringize");
    ByRule(script, s, "header");
    HeaderParts(script, s, "header");
    HeaderEdgesByRule("header");
  }

  // ---------------------------------------------------------------------
  // Each example

  /**
    * Example `k` has, `k`-th among the example links (which follow the test
    * runner's), a link statement building `bin/examples/<name>` from its
    * object and the archive when there is one; `k`-th among the example
    * aliases, an alias `<name>` for that program; and `<name>` as the `k`-th
    * input of `examples`.
    */
  lemma PerExample(files: seq<string>, libs: seq<string>, k: nat)
    requires k < |files|
    ensures k < |ExampleLinks(files, libs)| && ExampleLinks(files, libs)[k] ==
      Build("bin/examples/" + ExampleName(files[k]), "link", [ObjectFile(files[k])] + libs, [], [])
    ensures k < |ExampleAliases(files)| && ExampleAliases(files)[k] ==
      Build(ExampleName(files[k]), Phony, ["bin/examples/" + ExampleName(files[k])], [], [])
    ensures k < |ExampleNames(files)| && ExampleNames(files)[k] == ExampleName(files[k])
  {
    ExampleLinksAt(files, libs, k);
    ExampleAliasesAt(files, k);
    ExampleNamesAt(files, k);
    ExampleProgramPath(files[k]);
  }

  // ---------------------------------------------------------------------
  // Distinct object files

  /** Distinct sources, all ending in `.c++`, are compiled to distinct object files. */
  lemma CompileOutputsDistinct(files: seq<string>)
    requires forall k :: 0 <= k < |files| ==> EndsWith(files[k], ".c++")
    requires forall i, j :: 0 <= i < j < |files| ==> files[i] != files[j]
    ensures forall i, j :: 0 <= i < j < |CompileEdges(files)| ==> CompileEdges(files)[i].output != CompileEdges(files)[j].output
  {
    CompileEdgesAt(files);
    forall i, j | 0 <= i < j < |files|
      ensures CompileEdges(files)[i].output != CompileEdges(files)[j].output
    {
      ObjectFileInjective(files[i], files[j]);
    }
  }

  // ---------------------------------------------------------------------
  // Declared rules

  /** The names of the six rule templates. */
  lemma RuleNamesOf(opts: Options, script: string, args: seq<string>)
    ensures RuleNames(Rules(opts, script, args)) == {"bootstrap", "cxx", "link", "lib", "stringize", "header"}
  {
    var rules := Rules(opts, script, args);
    RuleNamesSix(rules[0], rules[1], rules[2], rules[3], rules[4], rules[5]);
    assert rules == [rules[0], rules[1], rules[2], rules[3], rules[4], rules[5]];
  }

  lemma RuleNamesSix(r0: Rule, r1: Rule, r2: Rule, r3: Rule, r4: Rule, r5: Rule)
    ensures RuleNames([r0, r1, r2, r3, r4, r5]) == {r0.name, r1.name, r2.name, r3.name, r4.name, r5.name}
  {
    var rules := [r0, r1, r2, r3, r4, r5];
    forall x | x in RuleNames(rules)
      ensures x in {r0.name, r1.name, r2.name, r3.name, r4.name, r5.name}
    {
      var k :| 0 <= k < |rules| && rules[k].name == x;
    }
    assert rules[0] == r0 && rules[1] == r1 && rules[2] == r2 && rules[3] == r3 && rules[4] == r4 && rules[5] == r5;
  }

  /** A rule none of the parts uses selects nothing from any of them. */
  lemma UnknownRuleParts(script: string, s: Sources, rule: string)
    requires rule !in {"bootstrap", "cxx", "link", "lib", "stringize", "header", Phony}
    ensures WithRule(Head(script, s.src), rule) == []
    ensures WithRule(LibraryEdges(s.src), rule) == []
    ensures WithRule(TestsAndHeaders(s.test, BuiltLibs(s.src)), rule) == []
    ensures WithRule(ExamplesPart(s.examples, BuiltLibs(s.src)), rule) == []
  {
    HeadByRule(script, s.src, rule);
    LibraryEdgesByRule(s.src, rule);
    UnknownRuleTestsAndHeaders(s.test, BuiltLibs(s.src), rule);
    UnknownRuleExamples(s.examples, BuiltLibs(s.src), rule);
  }

  lemma UnknownRuleTestsAndHeaders(test: seq<string>, libs: seq<string>, rule: string)
    requires rule !in {"cxx", "link", "stringize", "header", Phony}
    ensures WithRule(TestsAndHeaders(test, libs), rule) == []
  {
    TestsAndHeadersByRule(test, libs, rule);
    TestEdgesByRule(test, libs, rule);
    HeaderEdgesByRule(rule);
  }

  lemma UnknownRuleExamples(files: seq<string>, libs: seq<string>, rule: string)
    requires rule !in {"cxx", "link", Phony}
    ensures WithRule(ExamplesPart(files, libs), rule) == []
  {
    ExamplesPartByRule(files, libs, rule);
    ExampleEdgesByRule(files, libs, rule);
  }

  /** Every statement of a finished run uses one of the six rule templates or `phony`. */
  lemma StatementRule(script: string, s: Sources, b: Build)
    requires b in AllStatements(script, s)
    ensures b.rule in {"bootstrap", "cxx", "link", "lib", "stringize", "header", Phony}
  {
    WithRuleMember(AllStatements(script, s), b);
    if b.rule !in {"bootstrap", "cxx", "link", "lib", "stringize", "header", Phony} {
      ByRule(script, s, b.rule);
      UnknownRuleParts(script, s, b.rule);
      assert false;
    }
  }

  /** Every statement the script writes before it stops is the regeneration statement or a compile statement. */
  lemma HeadRule(script: string, src: seq<string>, b: Build)
    requires b in Head(script, src)
    ensures b.rule == "bootstrap" || b.rule == "cxx"
  {
    WithRuleMember(Head(script, src), b);
    HeadByRule(script, src, b.rule);
  }

  /**
    * Whether the run finishes or stops, every statement handed to the
    * writer uses a rule it has declared, or `phony`.
    */
  lemma RulesAreDeclared(opts: Options, script: string, args: seq<string>, s: Sources, variant: Variant)
    ensures RulesDeclared(FileOf(Written(Rules(opts, script, args), script, s, variant)))
  {
    var file := FileOf(Written(Rules(opts, script, args), script, s, variant));
    RuleNamesOf(opts, script, args);
    assert file.rules == Rules(opts, script, args);
    forall b | b in file.builds
      ensures b.rule == Phony || b.rule in RuleNames(file.rules)
    {
      if s.src != [] && variant == AsWritten {
        HeadRule(script, s.src, b);
      } else {
        StatementRule(script, s, b);
      }
    }
  }

  // ---------------------------------------------------------------------
  // Nothing dangles

  /** The compile statements produce every object file named for their sources. */
  lemma {:induction false} ObjectFilesProduced(files: seq<string>, x: string)
    requires x in ObjectFiles(files)
    ensures x in Outputs(CompileEdges(files))
  {
    var init, last := files[..|files| - 1], files[|files| - 1];
    OutputsAppend(CompileEdges(init), [CxxEdge(last)]);
    if x in ObjectFiles(init) {
      ObjectFilesProduced(init, x);
    } else {
      assert [CxxEdge(last)][0].output == x;
    }
  }

  /** Compile statements only compile. */
  lemma CompileRule(files: seq<string>, b: Build)
    requires b in CompileEdges(files)
    ensures b.rule == "cxx"
  {
    WithRuleMember(CompileEdges(files), b);
    CompileEdgesByRule(files, b.rule);
  }

  /** `built_libs` names only the archive, which the library's statements produce. */
  lemma LibsProduced(src: seq<string>, x: string)
    requires x in BuiltLibs(src)
    ensures x in Outputs(LibraryEdges(src))
  {
    assert LibraryEdges(src)[1].output == LibNonius;
  }

  /** The library's alias and archive use only the archive and the library's objects. */
  lemma LibraryInputs(src: seq<string>, b: Build, x: string)
    requires b in LibraryEdges(src) && x in b.inputs
    ensures x in Outputs(LibraryEdges(src)) || x in Outputs(CompileEdges(src))
  {
    if b.rule == "lib" {
      ObjectFilesProduced(src, x);
    } else {
      LibsProduced(src, x);
    }
  }

  /** The test runner's link and alias use only test objects, the runner, or the archive. */
  lemma TestInputs(test: seq<string>, libs: seq<string>, b: Build, x: string)
    requires b in TestEdges(test, libs) && x in b.inputs
    ensures x in Outputs(CompileEdges(test)) || x in Outputs(TestEdges(test, libs)) || x in libs
  {
    var t := TestEdges(test, libs);
    assert t[0].output == TestRunner;
    if b == t[0] && x in ObjectFiles(test) {
      ObjectFilesProduced(test, x);
    }
  }

  /** The aliases of the report template and the single header name what those statements produce. */
  lemma HeaderInputs(b: Build, x: string)
    requires b in HeaderEdges() && Aggregating(b) && x in b.inputs
    ensures x in Outputs(HeaderEdges())
  {
    var h := HeaderEdges();
    assert h[0].output == HtmlReportTemplate && h[2].output == SingleHeader;
  }

  /** The test runner, the report template, the single header and their aliases use only what this part produces, or the archive. */
  lemma TestsAndHeadersInputs(test: seq<string>, libs: seq<string>, b: Build, x: string)
    requires b in TestsAndHeaders(test, libs) && Aggregating(b) && x in b.inputs
    ensures x in Outputs(TestsAndHeaders(test, libs)) || x in libs
  {
    var c, t, h := CompileEdges(test), TestEdges(test, libs), HeaderEdges();
    OutputsAppend(c, t);
    OutputsAppend(c + t, h);
    if b in c {
      CompileRule(test, b);
    } else if b in t {
      TestInputs(test, libs, b, x);
    } else {
      HeaderInputs(b, x);
    }
  }

  /** Each example's link and alias use only what the example statements produce, or the archive. */
  lemma {:induction false} ExampleInputs(files: seq<string>, libs: seq<string>, b: Build, x: string)
    requires b in ExampleEdges(files, libs) && Aggregating(b) && x in b.inputs
    ensures x in Outputs(ExampleEdges(files, libs)) || x in libs
  {
    var init, fn := files[..|files| - 1], files[|files| - 1];
    var t := [CxxEdge(fn), ExampleLink(fn, libs), ExampleAlias(fn)];
    OutputsAppend(ExampleEdges(init, libs), t);
    if b in ExampleEdges(init, libs) {
      ExampleInputs(init, libs, b, x);
    } else {
      ExampleTripleInputs(fn, libs, b, x);
    }
  }

  /** One example's link uses its object or the archive, and its alias uses its program. */
  lemma ExampleTripleInputs(fn: string, libs: seq<string>, b: Build, x: string)
    requires b in [CxxEdge(fn), ExampleLink(fn, libs), ExampleAlias(fn)] && Aggregating(b) && x in b.inputs
    ensures x in Outputs([CxxEdge(fn), ExampleLink(fn, libs), ExampleAlias(fn)]) || x in libs
  {
    var t := [CxxEdge(fn), ExampleLink(fn, libs), ExampleAlias(fn)];
    assert t[0].output == ObjectFile(fn);
    assert t[1].output == ExampleProgram(fn);
  }

  /** The `examples` alias names only the examples' aliases. */
  lemma {:induction false} ExampleNamesProduced(files: seq<string>, libs: seq<string>, x: string)
    requires x in ExampleNames(files)
    ensures x in Outputs(ExampleEdges(files, libs))
  {
    var init, fn := files[..|files| - 1], files[|files| - 1];
    var c, l, a := CxxEdge(fn), ExampleLink(fn, libs), ExampleAlias(fn);
    OutputsAppend(ExampleEdges(init, libs), [c, l, a]);
    if x in ExampleNames(init) {
      ExampleNamesProduced(init, libs, x);
    } else {
      assert [c, l, a][2].output == ExampleName(fn);
    }
  }

  lemma ExamplesPartInputs(files: seq<string>, libs: seq<string>, b: Build, x: string)
    requires b in ExamplesPart(files, libs) && Aggregating(b) && x in b.inputs
    ensures x in Outputs(ExamplesPart(files, libs)) || x in libs
  {
    OutputsAppend(ExampleEdges(files, libs), [ExamplesAlias(files)]);
    if b in ExampleEdges(files, libs) {
      ExampleInputs(files, libs, b, x);
    } else {
      ExampleNamesProduced(files, libs, x);
    }
  }

  /** One input of one aggregating statement of a finished run is produced by some statement of the run. */
  lemma InputProduced(script: string, s: Sources, b: Build, x: string)
    requires b in AllStatements(script, s) && Aggregating(b) && x in b.inputs
    ensures x in Outputs(AllStatements(script, s))
  {
    var libs := BuiltLibs(s.src);
    var h, l, t, e := Head(script, s.src), LibraryEdges(s.src), TestsAndHeaders(s.test, libs), ExamplesPart(s.examples, libs);
    assert AllStatements(script, s) == h + (l + (t + e));
    OutputsAppend(t, e);
    OutputsAppend(l, t + e);
    OutputsAppend(h, l + (t + e));
    if b in h {
      HeadRule(script, s.src, b);
    } else if b in l {
      LibraryInputs(s.src, b, x);
      OutputsAppend([BootstrapEdge(script)], CompileEdges(s.src));
    } else if b in t {
      TestsAndHeadersInputs(s.test, libs, b, x);
      if x in libs {
        LibsProduced(s.src, x);
      }
    } else {
      ExamplesPartInputs(s.examples, libs, b, x);
      if x in libs {
        LibsProduced(s.src, x);
      }
    }
  }

  /**
    * No link, archive or alias statement of a finished run names an input
    * that no statement of the run produces.
    */
  lemma NoDanglingInputs(script: string, s: Sources)
    ensures InputsProduced(AllStatements(script, s), Outputs(AllStatements(script, s)))
  {
    forall b, x | b in AllStatements(script, s) && Aggregating(b) && x in b.inputs
      ensures x in Outputs(AllStatements(script, s))
    {
      InputProduced(script, s, b, x);
    }
  }

  /** Whether the run finishes or stops, nothing handed to the writer links, archives or aliases an input no statement produces. */
  lemma InputsAreProduced(rules: seq<Rule>, script: string, s: Sources, variant: Variant)
    ensures var file := FileOf(Written(rules, script, s, variant)); InputsProduced(file.builds, Outputs(file.builds))
  {
    if s.src != [] && variant == AsWritten {
      forall b | b in Head(script, s.src)
        ensures !Aggregating(b)
      {
        HeadRule(script, s.src, b);
      }
    } else {
      NoDanglingInputs(script, s);
    }
  }
}
