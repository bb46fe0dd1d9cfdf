/**
  * The compiler-flag helpers of bootstrap.py and the flag variables the script
  * derives from its command-line options before it writes any rule.
  */
module Flags {
  import opened Strings
  import opened Paths
  import opened Results

  /** `flags(*iterables)`: all the words of all the lists, joined by single spaces. */
  function Flags(lists: seq<seq<string>>): string {
    JoinWords(Concat(lists))
  }

  /** `include(d)`: the `-I` flag for directory `d`. */
  function Include(d: string): (r: string)
    ensures StartsWith(r, "-I") && r[2..] == d
  {
    "-I" + d
  }

  /** `warning(d)`: the `-W` flag turning warning `d` on. */
  function Warning(d: string): (r: string)
    ensures StartsWith(r, "-W") && r[2..] == d
  {
    "-W" + d
  }

  /** `no_warning(d)`: the `-Wno-` flag turning warning `d` off. */
  function NoWarning(d: string): (r: string)
    ensures StartsWith(r, "-Wno-") && r[5..] == d
  {
    "-Wno-" + d
  }

  /** `define(d)`: the `-D` flag defining macro `d`. */
  function Define(d: string): (r: string)
    ensures StartsWith(r, "-D") && r[2..] == d
  {
    "-D" + d
  }

  /** `library(l)`: the `-l` flag linking library `l`. */
  function Library(l: string): (r: string)
    ensures StartsWith(r, "-l") && r[2..] == l
  {
    "-l" + l
  }

  /**
    * `dependency_include(d)`: `-isystem ` and the `include` directory of
    * dependency `d`, which is looked for under `deps/` when `d` is relative
    * and taken as it is when `d` is absolute.
    */
  function DependencyInclude(d: string): string {
    "-isystem " + Join(Join("deps", d), "include")
  }

  /**
    * The directory searched: `deps/include` for the empty name, `deps/<d>/include`
    * for a relative name and `<d>/include` for an absolute one.
    */
  lemma DependencyIncludeShape(d: string)
    ensures d == "" ==> DependencyInclude(d) == "-isystem deps/include"
    ensures d != "" && d[|d| - 1] != '/' && !IsAbsolute(d) ==> DependencyInclude(d) == "-isystem deps/" + d + "/include"
    ensures d != "" && d[|d| - 1] != '/' && IsAbsolute(d) ==> DependencyInclude(d) == "-isystem " + d + "/include"
  {
    var inner := Join("deps", d);
    if d == "" {
      assert inner == "deps/";
    } else if d[|d| - 1] != '/' {
      if IsAbsolute(d) {
        assert inner == d;
      } else {
        assert inner == "deps/" + d;
        assert inner[|inner| - 1] == d[|d| - 1];
      }
      assert Join(inner, "include") == inner + "/" + "include";
    }
  }

  /** The command-line options of the script, as argparse leaves them. */
  datatype Options = Options(debug: bool, cxx: string, boostDir: Option<string>, noLto: bool)

  /** `map(dependency_include, ds)` */
  function DependencyIncludes(ds: seq<string>): (r: seq<string>)
    ensures |r| == |ds| && forall k :: 0 <= k < |ds| ==> r[k] == DependencyInclude(ds[k])
  {
    if ds == [] then [] else [DependencyInclude(ds[0])] + DependencyIncludes(ds[1..])
  }

  lemma DependencyIncludesValue()
    ensures DependencyIncludes(Dependencies) == ["-isystem deps/catch/include", "-isystem deps/wheels/include"]
  {
    DependencyIncludeLiterals();
    var r := DependencyIncludes(Dependencies);
    assert |r| == 2 && r[0] == DependencyInclude("catch") && r[1] == DependencyInclude("wheels");
  }

  lemma DependencyIncludeLiterals()
    ensures DependencyInclude("catch") == "-isystem deps/catch/include"
    ensures DependencyInclude("wheels") == "-isystem deps/wheels/include"
  {
    DependencyIncludeShape("catch");
    DependencyIncludeShape("wheels");
    assert "-isystem deps/" + "catch" + "/include" == "-isystem deps/catch/include";
    assert "-isystem deps/" + "wheels" + "/include" == "-isystem deps/wheels/include";
  }

  lemma ConcatThree(a: seq<string>, b: seq<string>, c: seq<string>)
    ensures Concat([a, b, c]) == a + b + c
  {
    assert [a, b, c][..2] == [a, b];
    assert [a, b][..1] == [a];
    assert [a][..0] == [];
    assert Concat([a]) == [] + a;
    assert Concat([a, b]) == Concat([a]) + b;
    assert Concat([a, b, c]) == Concat([a, b]) + c;
  }

  /** Python truthiness of `args.boost_dir`: given, and not the empty text. */
  predicate BoostGiven(boostDir: Option<string>) {
    boostDir.Some? && boostDir.value != ""
  }

  /** `dependencies`: the bundled dependencies whose headers are searched. */
  const Dependencies: seq<string> := ["catch", "wheels"]

  /** The include flags before the Boost directory is considered. */
  function BaseIncludeFlags(): string {
    Flags([[Include("include")],
           DependencyIncludes(Dependencies),
           ["-isystemdeps/cpptemplate"]])
  }

  /** The words of the base include flags. */
  lemma BaseIncludeWords()
    ensures Concat([[Include("include")], DependencyIncludes(Dependencies), ["-isystemdeps/cpptemplate"]])
      == ["-Iinclude", "-isystem deps/catch/include", "-isystem deps/wheels/include", "-isystemdeps/cpptemplate"]
  {
    DependencyIncludesValue();
    ConcatThree([Include("include")], DependencyIncludes(Dependencies), ["-isystemdeps/cpptemplate"]);
    assert Include("include") == "-Iinclude";
  }

  /**
    * `include_flags`: the project's own headers, the two bundled
    * dependencies and cpptemplate, then, when a Boost directory is given,
    * its `-isystem` flag. Appending `' ' + flag` to the joined text, as the
    * script does, gives the join of the longer word list.
    */
  function IncludeFlags(boostDir: Option<string>): string {
    var base := BaseIncludeFlags();
    if BoostGiven(boostDir) then base + " " + DependencyInclude(boostDir.value) else base
  }

  lemma IncludeFlagsWords(boostDir: Option<string>)
    ensures IncludeFlags(boostDir) == JoinWords(
      ["-Iinclude", "-isystem deps/catch/include", "-isystem deps/wheels/include", "-isystemdeps/cpptemplate"]
      + (if BoostGiven(boostDir) then [DependencyInclude(boostDir.value)] else []))
  {
    var words := ["-Iinclude", "-isystem deps/catch/include", "-isystem deps/wheels/include", "-isystemdeps/cpptemplate"];
    BaseIncludeWords();
    assert BaseIncludeFlags() == JoinWords(words);
    if BoostGiven(boostDir) {
      JoinWordsAppend(words, [DependencyInclude(boostDir.value)]);
    } else {
      assert words + [] == words;
    }
  }

  /** The optimisation word of `cxx_flags`: `-g` in a debug build, `-O3` otherwise. */
  function OptimisationFlag(debug: bool): string {
    if debug then "-g" else "-O3"
  }

  /** `cxx_flags` */
  function CxxFlags(debug: bool): string {
    Flags([["-pedantic", "-std=c++11", "-pthread", OptimisationFlag(debug)]])
  }

  /** `cxx_flags` is pedantic C++11 with threads, then the optimisation word, which ends it. */
  lemma CxxFlagsWords(debug: bool)
    ensures EndsWith(CxxFlags(debug), OptimisationFlag(debug))
    ensures SplitWords(CxxFlags(debug)) == ["-pedantic", "-std=c++11", "-pthread", OptimisationFlag(debug)]
  {
    var words := ["-pedantic", "-std=c++11", "-pthread", OptimisationFlag(debug)];
    assert Concat([words]) == words;
    JoinFour("-pedantic", "-std=c++11", "-pthread", OptimisationFlag(debug));
    SplitJoinWords(words);
  }

  /** `map(warning, names)` */
  function Warnings(names: seq<string>): (r: seq<string>)
    ensures |r| == |names| && forall k :: 0 <= k < |names| ==> r[k] == Warning(names[k])
  {
    if names == [] then [] else [Warning(names[0])] + Warnings(names[1..])
  }

  /** `map(no_warning, names)` */
  function NoWarnings(names: seq<string>): (r: seq<string>)
    ensures |r| == |names| && forall k :: 0 <= k < |names| ==> r[k] == NoWarning(names[k])
  {
    if names == [] then [] else [NoWarning(names[0])] + NoWarnings(names[1..])
  }

  /** `warning_flags`: all, extra, and warnings as errors. */
  function WarningFlags(): string {
    Flags([Warnings(["all", "extra", "error"])])
  }

  /** `warning_flags` is the three words `-Wall`, `-Wextra` and `-Werror`, in that order. */
  lemma WarningFlagsValue()
    ensures WarningFlags() == JoinWords(["-Wall", "-Wextra", "-Werror"])
    ensures WarningFlags() == "-Wall -Wextra -Werror"
  {
    WarningWords();
    ConcatOne(["-Wall", "-Wextra", "-Werror"]);
    JoinThree("-Wall", "-Wextra", "-Werror");
    assert "-Wall" + " " + "-Wextra" + " " + "-Werror" == "-Wall -Wextra -Werror";
  }

  lemma WarningWords()
    ensures Warnings(["all", "extra", "error"]) == ["-Wall", "-Wextra", "-Werror"]
  {
    assert Warning("all") == "-Wall";
    assert Warning("extra") == "-Wextra";
    assert Warning("error") == "-Werror";
  }

  /** Chaining a single list gives that list. */
  lemma ConcatOne(w: seq<string>)
    ensures Concat([w]) == w
  {
    assert [w][..0] == [];
  }

  /** `ignored_warning_flags`: no warning is switched off, so the text is empty. */
  function IgnoredWarningFlags(): (r: string)
    ensures r == ""
  {
    var words := NoWarnings([]);
    assert Concat([words]) == [];
    Flags([words])
  }

  /**
    * `ld_flags`. The source line parses as `(['-pthread'] + []) if cond else ['-flto']`,
    * so the result is `-pthread` alone when LTO is off or the build is a debug
    * build, and `-flto` alone otherwise, never both.
    */
  function LdFlags(opts: Options): string {
    Flags([if opts.noLto || opts.debug then ["-pthread"] + [] else ["-flto"]])
  }

  /** `ld_flags` is `-pthread` alone or `-flto` alone. */
  lemma LdFlagsValue(opts: Options)
    ensures LdFlags(opts) == "-pthread" <==> (opts.noLto || opts.debug)
    ensures LdFlags(opts) == "-flto" <==> !(opts.noLto || opts.debug)
  {
    var words := if opts.noLto || opts.debug then ["-pthread"] + [] else ["-flto"];
    assert Concat([words]) == words;
  }

  /** Joining three words: two single spaces between them. */
  lemma JoinThree(a: string, b: string, c: string)
    ensures JoinWords([a, b, c]) == a + " " + b + " " + c
  {
    assert [a, b, c][1..] == [b, c];
    assert [b, c][1..] == [c];
    assert JoinWords([b, c]) == b + " " + c;
  }

  /** Joining four words: three single spaces between them. */
  lemma JoinFour(a: string, b: string, c: string, d: string)
    ensures JoinWords([a, b, c, d]) == a + " " + b + " " + c + " " + d
  {
    assert [a, b, c, d][1..] == [b, c, d];
    assert [b, c, d][1..] == [c, d];
    assert [c, d][1..] == [d];
    assert JoinWords([c, d]) == c + " " + d;
    assert JoinWords([b, c, d]) == b + " " + (c + " " + d);
  }

  /** The flag variables of the script, in the order it defines them. */
  datatype Variables = Variables(
    includeFlags: string,
    cxxFlags: string,
    warningFlags: string,
    ignoredWarningFlags: string,
    defineFlags: string,
    libFlags: string,
    ldFlags: string)

  function VariablesOf(opts: Options): Variables {
    Variables(IncludeFlags(opts.boostDir), CxxFlags(opts.debug), WarningFlags(),
              IgnoredWarningFlags(), "", "", LdFlags(opts))
  }
}
