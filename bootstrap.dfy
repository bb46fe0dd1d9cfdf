/**
  * The body of bootstrap.py: the preamble, the rule templates and the build
  * statements it writes to `build.ninja`, in the order it writes them, from
  * the command-line options, the script's own command line and the listings
  * of the four source roots.
  *
  * `Written` says what a run writes; `Generate` is the script's straight-line
  * run with its loops, proved to write exactly that.
  *
  * As written the script reads the name `libnonius` (line 120) before it
  * assigns it (line 121), so any run whose `src/` holds a `.c++` file stops
  * with a `NameError` after the library's compile statements. `AsWritten`
  * models that; `AssignBeforeUse` is a deviation from the source that moves
  * the assignment first, the evident intent.
  */
module Bootstrap {
  import opened Results
  import opened Strings
  import opened Paths
  import opened Flags
  import opened Discovery
  import opened Ninja
  import opened Sequences

  datatype Variant = AsWritten | AssignBeforeUse

  /** The listings `os.walk` gives of `include/`, `src/`, `test/` and `examples/`. */
  datatype Tree = Tree(headers: seq<WalkEntry>, src: seq<WalkEntry>, test: seq<WalkEntry>, examples: seq<WalkEntry>)

  /** The `.c++` files found under `src/`, `test/` and `examples/`, in walk order. */
  datatype Sources = Sources(src: seq<string>, test: seq<string>, examples: seq<string>)

  /** Why a run stops: the unbound name, and what had been handed to the writer by then. */
  datatype Abort = NameError(name: string, written: BuildFile)

  function Discovered(tree: Tree): Sources {
    Sources(Discover(tree.src, SourceEnding), Discover(tree.test, SourceEnding), Discover(tree.examples, SourceEnding))
  }

  /** `os.path.join('bin', 'libnonius.a')` */
  const LibNonius := "bin/libnonius.a"
  /** `os.path.join('bin', 'test')` */
  const TestRunner := "bin/test"
  const StringizeTool := "tools/stringize.py"
  const SingleHeaderTool := "tools/single_header.py"
  const HtmlReportTemplate := "include/nonius/detail/html_report_template.g.h++"
  const HtmlReportSource := "tpl/html_report.tpl"
  /** `os.path.join('include', 'nonius', 'nonius_single.h++')` */
  const SingleHeaderSource := "include/nonius/nonius_single.h++"
  /** `os.path.join('dist', 'nonius.h++')` */
  const SingleHeader := "dist/nonius.h++"

  /** The two variables written first (`os.sep` is `/`). */
  function Preamble(): seq<Variable> {
    [Variable("ninja_required_version", "1.3"), Variable("builddir", "obj/")]
  }

  /** The rule templates, built from the flag variables; `argv` is `[script] + args`. */
  function Rules(opts: Options, script: string, args: seq<string>): seq<Rule> {
    var v := VariablesOf(opts);
    [ Rule("bootstrap", JoinWords(["python", script] + args), "BOOTSTRAP", None, None, true),
      Rule("cxx", JoinWords([opts.cxx, "-MMD", "-MF $out.d", "-c", v.cxxFlags, v.warningFlags,
                             v.includeFlags, v.defineFlags, "$in", "-o $out"]),
           "C++ $in", Some("$out.d"), Some("gcc"), false),
      Rule("link", JoinWords([opts.cxx, v.cxxFlags, v.warningFlags, v.ldFlags, "$in", "-o $out", v.libFlags]),
           "LINK $in", None, None, false),
      Rule("lib", JoinWords(["ar", "rcs", "$out", "$in"]), "AR $in", None, None, false),
      Rule("stringize", JoinWords(["python", StringizeTool, "$in", "$out"]), "STRINGIZE $in", None, None, false),
      Rule("header", JoinWords(["python", SingleHeaderTool, "$in", "$out"]), "HEADER $in", None, None, false) ]
  }

  /** The statement that regenerates `build.ninja` when the script changes. */
  function BootstrapEdge(script: string): Build {
    Build("build.ninja", "bootstrap", [], [script], [])
  }

  /** The statement compiling one source to its object file. */
  function CxxEdge(fn: string): Build {
    Build(ObjectFile(fn), "cxx", [fn], [], [])
  }

  /** One compile statement per source, in order. */
  function CompileEdges(files: seq<string>): seq<Build> {
    if files == [] then [] else CompileEdges(files[..|files| - 1]) + [CxxEdge(files[|files| - 1])]
  }

  /** `[object_file(fn) for fn in files]` */
  function ObjectFiles(files: seq<string>): seq<string> {
    if files == [] then [] else ObjectFiles(files[..|files| - 1]) + [ObjectFile(files[|files| - 1])]
  }

  lemma {:induction false} ObjectFilesAt(files: seq<string>)
    ensures |ObjectFiles(files)| == |files|
    ensures forall k :: 0 <= k < |files| ==> ObjectFiles(files)[k] == ObjectFile(files[k])
  {
    if files != [] {
      ObjectFilesAt(files[..|files| - 1]);
    }
  }

  /** `built_libs`: the archive, once there are library objects to put in it. */
  function BuiltLibs(src: seq<string>): seq<string> {
    if src == [] then [] else [LibNonius]
  }

  /** The `lib` alias and the archive statement, written only when there are library objects. */
  function LibraryEdges(src: seq<string>): seq<Build> {
    if src == [] then []
    else [Build("lib", Phony, [LibNonius], [], []), Build(LibNonius, "lib", ObjectFiles(src), [], [])]
  }

  /** The test runner, linked from the test objects and `built_libs`. */
  function TestLink(test: seq<string>, libs: seq<string>): Build {
    Build(TestRunner, "link", ObjectFiles(test) + libs, [], [])
  }

  /** The `test` alias for the test runner. */
  function TestAlias(): Build {
    Build("test", Phony, [TestRunner], [], [])
  }

  /** The report template, generated from its `.tpl` source by the stringize tool. */
  function TemplateBuild(): Build {
    Build(HtmlReportTemplate, "stringize", [HtmlReportSource], [StringizeTool], [])
  }

  /** The `templates` alias for the report template. */
  function TemplatesAlias(): Build {
    Build("templates", Phony, [HtmlReportTemplate], [], [])
  }

  /** The single header, generated once the templates exist. */
  function SingleHeaderBuild(): Build {
    Build(SingleHeader, "header", [SingleHeaderSource], [SingleHeaderTool], ["templates"])
  }

  /** The `header` alias for the single header. */
  function HeaderAlias(): Build {
    Build("header", Phony, [SingleHeader], [], [])
  }

  /** The test runner's link statement and its `test` alias. */
  function TestEdges(test: seq<string>, libs: seq<string>): seq<Build> {
    [TestLink(test, libs), TestAlias()]
  }

  /** The report template and the single header, each with its alias. */
  function HeaderEdges(): seq<Build> {
    [TemplateBuild(), TemplatesAlias(), SingleHeaderBuild(), HeaderAlias()]
  }

  function ExampleLink(fn: string, libs: seq<string>): Build {
    Build(ExampleProgram(fn), "link", [ObjectFile(fn)] + libs, [], [])
  }

  function ExampleAlias(fn: string): Build {
    Build(ExampleName(fn), Phony, [ExampleProgram(fn)], [], [])
  }

  /** Per example: compile, link, alias. */
  function ExampleEdges(files: seq<string>, libs: seq<string>): seq<Build> {
    if files == [] then []
    else
      var fn := files[|files| - 1];
      ExampleEdges(files[..|files| - 1], libs) + [CxxEdge(fn), ExampleLink(fn, libs), ExampleAlias(fn)]
  }

  /** `examples`: the example names, in order. */
  function ExampleNames(files: seq<string>): seq<string> {
    if files == [] then [] else ExampleNames(files[..|files| - 1]) + [ExampleName(files[|files| - 1])]
  }

  function ExamplesAlias(files: seq<string>): Build {
    Build("examples", Phony, ExampleNames(files), [], [])
  }

  /** The tests' compile statements, the test runner with its alias, and the generated headers. */
  function TestsAndHeaders(test: seq<string>, libs: seq<string>): seq<Build> {
    CompileEdges(test) + TestEdges(test, libs) + HeaderEdges()
  }

  /** The examples' statements and the `examples` alias over them. */
  function ExamplesPart(examples: seq<string>, libs: seq<string>): seq<Build> {
    ExampleEdges(examples, libs) + [ExamplesAlias(examples)]
  }

  /** The statements after the library's: tests, headers, examples and the `examples` alias. */
  function AfterLibrary(test: seq<string>, examples: seq<string>, libs: seq<string>): seq<Build> {
    TestsAndHeaders(test, libs) + ExamplesPart(examples, libs)
  }

  /** The statements after the library's compile statements, when the run gets past line 120. */
  function Rest(s: Sources): seq<Build> {
    LibraryEdges(s.src) + AfterLibrary(s.test, s.examples, BuiltLibs(s.src))
  }

  /**
    * The build statements of a run, in order; a failure carries those handed
    * to the writer before line 120 stops the run.
    */
  function Statements(script: string, s: Sources, variant: Variant): Result<seq<Build>, seq<Build>> {
    if s.src != [] && variant == AsWritten then Failure(Head(script, s.src)) else Success(AllStatements(script, s))
  }

  /** The regeneration statement and the library's compile statements, written before line 120. */
  function Head(script: string, src: seq<string>): seq<Build> {
    [BootstrapEdge(script)] + CompileEdges(src)
  }

  /** Every statement of a run that gets past line 120. */
  function AllStatements(script: string, s: Sources): seq<Build> {
    Head(script, s.src) + Rest(s)
  }

  lemma StatementsStop(script: string, s: Sources, variant: Variant)
    requires s.src != [] && variant == AsWritten
    ensures Statements(script, s, variant) == Failure(Head(script, s.src))
  {
  }

  lemma StatementsFinish(script: string, s: Sources, variant: Variant, head: seq<Build>, library: seq<Build>)
    requires s.src == [] || variant == AssignBeforeUse
    requires head == Head(script, s.src)
    requires library == head + LibraryEdges(s.src)
    ensures Statements(script, s, variant) == Success(library + AfterLibrary(s.test, s.examples, BuiltLibs(s.src)))
  {
    var after := AfterLibrary(s.test, s.examples, BuiltLibs(s.src));
    assert Rest(s) == LibraryEdges(s.src) + after;
    AppendAssoc(head, LibraryEdges(s.src), after);
  }

  /** What a run with rule templates `rules` writes, or where it stops. */
  function Written(rules: seq<Rule>, script: string, s: Sources, variant: Variant): Result<BuildFile, Abort> {
    match Statements(script, s, variant)
    case Failure(partial) => Failure(NameError("libnonius", BuildFile(Preamble(), rules, partial, [])))
    case Success(builds) => Success(BuildFile(Preamble(), rules, builds, ["examples"]))
  }

  /** A `for fn in files` loop appending each source's compile statement. */
  method AppendCompiles(builds: seq<Build>, files: seq<string>) returns (out: seq<Build>)
    ensures out == builds + CompileEdges(files)
  {
    out := builds;
    var i := 0;
    while i < |files|
      invariant 0 <= i <= |files|
      invariant out == builds + CompileEdges(files[..i])
    {
      assert files[..i + 1][..i] == files[..i];
      out := out + [CxxEdge(files[i])];
      i := i + 1;
    }
    assert files[..i] == files;
  }

  /** One more example: its compile, link and alias statements, and its name. */
  lemma ExampleStep(files: seq<string>, libs: seq<string>, i: nat)
    requires i < |files|
    ensures ExampleEdges(files[..i + 1], libs) ==
      ExampleEdges(files[..i], libs) + [CxxEdge(files[i]), ExampleLink(files[i], libs), ExampleAlias(files[i])]
    ensures ExampleNames(files[..i + 1]) == ExampleNames(files[..i]) + [ExampleName(files[i])]
  {
    PrefixStep(files, i);
  }

  /**
    * The loop over the examples: for each, its compile, link and alias
    * statements, and its name appended to `examples`.
    */
  method AppendExamples(builds: seq<Build>, files: seq<string>, builtLibs: seq<string>)
    returns (out: seq<Build>, examples: seq<string>)
    ensures out == builds + ExampleEdges(files, builtLibs)
    ensures examples == ExampleNames(files)
  {
    out := builds;
    examples := [];
    var i := 0;
    while i < |files|
      invariant 0 <= i <= |files|
      invariant out == builds + ExampleEdges(files[..i], builtLibs)
      invariant examples == ExampleNames(files[..i])
    {
      var fn := files[i];
      ghost var before := out;
      out := out + [CxxEdge(fn)];
      var name := ExampleName(fn);
      var example := ExampleProgram(fn);
      out := out + [Build(example, "link", [ObjectFile(fn)] + builtLibs, [], [])];
      out := out + [Build(name, Phony, [example], [], [])];
      examples := examples + [name];
      AppendThree(before, CxxEdge(fn), ExampleLink(fn, builtLibs), ExampleAlias(fn));
      ExampleStep(files, builtLibs, i);
      AppendAssoc(builds, ExampleEdges(files[..i], builtLibs), [CxxEdge(fn), ExampleLink(fn, builtLibs), ExampleAlias(fn)]);
      i := i + 1;
    }
    PrefixAll(files);
  }

  /**
    * The test objects' compile statements, the test runner's link
    * statement and alias, then the report template and single header with
    * their aliases.
    */
  method AppendTestsAndHeaders(builds: seq<Build>, testFiles: seq<string>, builtLibs: seq<string>)
    returns (out: seq<Build>)
    ensures out == builds + TestsAndHeaders(testFiles, builtLibs)
  {
    var testObjFiles := ObjectFiles(testFiles);
    out := AppendCompiles(builds, testFiles);
    ghost var testsCompiled := out;
    out := out + [Build(TestRunner, "link", testObjFiles + builtLibs, [], [])];
    out := out + [Build("test", Phony, [TestRunner], [], [])];
    assert out == testsCompiled + TestEdges(testFiles, builtLibs);
    ghost var testsDone := out;
    out := out + [Build(HtmlReportTemplate, "stringize", [HtmlReportSource], [StringizeTool], [])];
    out := out + [Build("templates", Phony, [HtmlReportTemplate], [], [])];
    assert out == testsDone + HeaderEdges()[..2];
    out := out + [Build(SingleHeader, "header", [SingleHeaderSource], [SingleHeaderTool], ["templates"])];
    out := out + [Build("header", Phony, [SingleHeader], [], [])];
    assert out == testsDone + HeaderEdges()[..2] + HeaderEdges()[2..];
    assert HeaderEdges()[..2] + HeaderEdges()[2..] == HeaderEdges();
    assert out == testsCompiled + TestEdges(testFiles, builtLibs) + HeaderEdges();
  }

  /** Lines 128 to the end: everything written after the library's statements. */
  method AppendAfterLibrary(builds: seq<Build>, testFiles: seq<string>, exampleFiles: seq<string>, builtLibs: seq<string>)
    returns (out: seq<Build>)
    ensures out == builds + AfterLibrary(testFiles, exampleFiles, builtLibs)
  {
    out := AppendTestsAndHeaders(builds, testFiles, builtLibs);
    ghost var headersDone := out;
    var examples;
    out, examples := AppendExamples(out, exampleFiles, builtLibs);
    out := out + [Build("examples", Phony, examples, [], [])];
    assert out == headersDone + ExamplesPart(exampleFiles, builtLibs);
    AppendAssoc(builds, TestsAndHeaders(testFiles, builtLibs), ExamplesPart(exampleFiles, builtLibs));
  }

  /**
    * Lines 107 to the end: walks the source roots and appends each build
    * statement in turn, or stops at line 120.
    */
  method EmitStatements(script: string, tree: Tree, variant: Variant) returns (r: Result<seq<Build>, seq<Build>>)
    ensures r == Statements(script, Discovered(tree), variant)
  {
    var builds := [BootstrapEdge(script)];

    var hdrFiles := GetFiles(tree.headers, HeaderEnding);
    var srcFiles := GetFiles(tree.src, SourceEnding);
    var objFiles := ObjectFiles(srcFiles);
    builds := AppendCompiles(builds, srcFiles);
    ghost var head := builds;

    var builtLibs: seq<string> := [];
    if |objFiles| > 0 {
      if variant == AsWritten {
        // line 120 reads `libnonius`, which line 121 has not yet bound
        r := Failure(builds);
        StatementsStop(script, Discovered(tree), variant);
        return;
      }
      builds := builds + [Build("lib", Phony, [LibNonius], [], [])];
      builds := builds + [Build(LibNonius, "lib", objFiles, [], [])];
      builtLibs := [LibNonius];
    }
    assert builds == head + LibraryEdges(srcFiles);
    assert builtLibs == BuiltLibs(srcFiles);

    var testFiles := GetFiles(tree.test, SourceEnding);
    var exampleFiles := GetFiles(tree.examples, SourceEnding);
    StatementsFinish(script, Discovered(tree), variant, head, builds);
    builds := AppendAfterLibrary(builds, testFiles, exampleFiles, builtLibs);
    r := Success(builds);
  }

  /**
    * The script from line 55 to the end: the flag variables and rules, then
    * the build statements, handed to the writer with `examples` as the
    * default target.
    */
  method Generate(opts: Options, script: string, args: seq<string>, tree: Tree, variant: Variant)
    returns (r: Result<BuildFile, Abort>)
    ensures r == Written(Rules(opts, script, args), script, Discovered(tree), variant)
  {
    var variables := Preamble();
    var rules := Rules(opts, script, args);
    var statements := EmitStatements(script, tree, variant);
    match statements
    case Failure(partial) =>
      r := Failure(NameError("libnonius", BuildFile(variables, rules, partial, [])));
    case Success(builds) =>
      r := Success(BuildFile(variables, rules, builds, ["examples"]));
  }
}
