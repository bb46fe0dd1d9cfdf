# nonius `bootstrap.py`, modelled in Dafny

`bootstrap.py` is the build-file generator of the nonius benchmarking library.
It reads four command-line options. It derives the compiler and linker flag
strings from them. It declares six ninja rule templates. It then walks the
source roots `include/`, `src/`, `test/` and `examples/` and hands the
`build.ninja` writer these statements, in this order:
- a regeneration statement;
- one compile statement per library source;
- the `lib` alias and the static library `bin/libnonius.a`;
- the test objects, the test runner `bin/test` and its `test` alias;
- the generated report template and the single header, each with an alias;
- per example, its compile, link and alias statements;
- the `examples` alias, which is also the default target.

The model has one module per part of the script:

- `Strings` (`strings.dfy`) covers Python's `' '.join`, `str.split(' ')` and `itertools.chain`.
- `Paths` (`paths.dfy`) covers the POSIX forms of `os.path.join` and `os.path.basename`. It also covers the substitution `re.sub(r'\.c\+\+$', …)`, `object_file` and the example names derived from a source.
- `Flags` (`flags.dfy`) covers the helpers `flags`, `include`, `warning`, `no_warning`, `define`, `library` and `dependency_include`, and the flag variables.
- `Discovery` (`discovery.dfy`) covers `get_files`. It is written as a method with the script's two nested loops and proved equal to the function `Discover`.
- `Ninja` (`ninja.dfy`) holds what the writer receives: variables, rules, build statements and defaults. It also has the selection of statements by rule and the set of outputs.
- `Bootstrap` (`bootstrap.dfy`) has the preamble, the rules, and `Written`, the statements a run writes or where it stops. `Generate` is the script's straight-line run, with its loops. It is proved to hand the writer exactly `Written`.
- `GraphProperties` (`properties.dfy`) proves properties of the written graph:
  - where a run stops;
  - which statements each rule gets, in order;
  - that every rule used is declared;
  - that nothing is linked, archived or aliased unless a statement produces it.
- `Sequences` (`sequences.dfy`) and `Results` (`results.dfy`) are generic helpers.

As written, line 120 of the script reads the name `libnonius`, but line 121 is the first to assign it. So a run whose `src/` holds a source stops with a `NameError`. By then it has written the preamble, the rules, the regeneration statement and the library's compile statements, and no default target. `Variant.AsWritten` models this. `Variant.AssignBeforeUse` is a deliberate deviation from the source that moves the assignment first, which is the evident intent (see Findings).

Several properties below are about a *finished run*: one that gets past line 120 and writes every statement (`Bootstrap.AllStatements`). As written, only a run whose `src/` is empty finishes. With `AssignBeforeUse`, every run does. In particular, as written the script never builds `bin/libnonius.a` or writes the `lib` alias.

A missing or unreadable source root does not abort the run: the code calls `os.walk` without an error handler, so such a root yields nothing. The model follows the code. The walk's listing is an input, and an empty listing stands for a missing root.

## Model

| member | source | states |
|---|---|---|
| Flags.Include | bootstrap.py:16-17 | the flag is `-I` followed by exactly the directory |
| Flags.Warning | bootstrap.py:19-20 | the flag is `-W` followed by exactly the warning name |
| Flags.NoWarning | bootstrap.py:22-23 | the flag is `-Wno-` followed by exactly the warning name |
| Flags.Define | bootstrap.py:25-26 | the flag is `-D` followed by exactly the macro |
| Flags.Library | bootstrap.py:28-29 | the flag is `-l` followed by exactly the library |
| Flags.DependencyIncludeShape | bootstrap.py:31-32 | the directory searched is `deps/include` for an empty name, `deps/<d>/include` for a relative name and `<d>/include` for an absolute one |
| Flags.DependencyIncludes | bootstrap.py:56 | `map(dependency_include, ds)` has one flag per dependency, in order |
| Flags.DependencyIncludesValue | bootstrap.py:55-56 | the two bundled dependencies give `-isystem deps/catch/include` and `-isystem deps/wheels/include` |
| Flags.BaseIncludeWords | bootstrap.py:56 | the base include words are the project headers, catch, wheels and cpptemplate, in that order |
| Flags.IncludeFlagsWords | bootstrap.py:55-58 | `include_flags` is the join of the base words, plus the Boost flag exactly when a non-empty Boost directory is given |
| Flags.CxxFlagsWords | bootstrap.py:59 | `cxx_flags` splits back into `-pedantic -std=c++11 -pthread` and then `-g` for a debug build or `-O3` otherwise, and it ends with that word |
| Flags.Warnings | bootstrap.py:60 | `map(warning, names)` gives one `-W` flag per name, in order |
| Flags.WarningFlagsValue | bootstrap.py:60 | `warning_flags` is the join of `-Wall`, `-Wextra` and `-Werror`, that is, `-Wall -Wextra -Werror` |
| Flags.NoWarnings | bootstrap.py:61 | `map(no_warning, names)` gives one `-Wno-` flag per name, in order |
| Flags.IgnoredWarningFlags | bootstrap.py:61 | with no warning switched off, `ignored_warning_flags` is empty |
| Flags.LdFlagsValue | bootstrap.py:64 | `ld_flags` is `-pthread` exactly when LTO is off or the build is a debug build, and `-flto` exactly otherwise |
| Strings.SplitJoinWords | bootstrap.py:13-14 | splitting the space-join of one or more space-free words gives the words back |
| Strings.JoinWordsAppend | bootstrap.py:57-58 | appending `' ' + flag` to a joined text is the join of the longer list |
| Paths.JoinKeepsParts | bootstrap.py:39 | a joined path ends with the name; an absolute name replaces the directory; otherwise the path starts with the directory |
| Paths.ObjectFileShape | bootstrap.py:41-42 | the object file is `obj/` and the source name with its final `.c++` turned into `.o`. This also holds before a final newline. Names without the ending only gain the prefix, and absolute names gain no prefix |
| Paths.ObjectFileInjective | bootstrap.py:41-42 | two `.c++` sources share an object file if and only if they are the same source |
| Paths.BasenameShape | bootstrap.py:162 | the basename holds no `/`, ends the path, and is either the whole path or follows a `/` |
| Paths.BasenameKeepsEnding | bootstrap.py:162 | a path ending in a slash-free text has a basename with that same ending |
| Paths.ExampleNameHasNoSlash | bootstrap.py:162 | an example's name never holds a `/` |
| Paths.ExampleNameStripsEnding | bootstrap.py:162 | an example's name followed by `.c++` is the basename of its source |
| Paths.ExampleProgramPath | bootstrap.py:163 | an example's program is `bin/examples/<name>` |
| Discovery.Keep | bootstrap.py:37-38 | the kept names all match the pattern, and there are no more of them than listed names |
| Discovery.JoinAll | bootstrap.py:39 | each kept name is joined to its directory, in order |
| Discovery.GetFiles | bootstrap.py:34-39 | the two nested loops yield exactly `Discover` of the walk |
| Discovery.KeepMembers | bootstrap.py:37-38 | a name is kept if and only if it is listed and matches |
| Discovery.KeepAppend | bootstrap.py:37-38 | the filter keeps the order of the names |
| Discovery.KeepAllMatching | bootstrap.py:37-38 | a list of matching names passes through unchanged |
| Discovery.DiscoverAppend | bootstrap.py:36-39 | the result follows the walk's order of directories |
| Discovery.EntryMembers | bootstrap.py:37-39 | a path comes from one directory if and only if it is a matching name there joined to that directory |
| Discovery.DiscoverMembers | bootstrap.py:34-39 | a path is yielded if and only if some walked directory lists a matching name that, joined to it, is the path |
| Discovery.DiscoveredPaths | bootstrap.py:34-39 | every yielded path ends with the pattern's ending and lies under the root |
| Bootstrap.ObjectFilesAt | bootstrap.py:112 | `obj_files` has one object file per source, in order, so it is non-empty exactly when `src/` holds a source |
| Bootstrap.StatementsStop | bootstrap.py:118-120 | as written, a non-empty `src/` ends the statements after the library's compile statements |
| Bootstrap.StatementsFinish | bootstrap.py:117-124 | a run that gets past line 120 continues with the library statements and then everything after them |
| Bootstrap.AppendCompiles | bootstrap.py:113-115 | the loop appends one compile statement per source, in order |
| Bootstrap.ExampleStep | bootstrap.py:159-168 | one more example adds its compile, link and alias statements and its name |
| Bootstrap.AppendExamples | bootstrap.py:157-168 | the examples loop appends each example's three statements in order and collects the names in `examples` |
| Bootstrap.AppendTestsAndHeaders | bootstrap.py:126-153 | the tests' compile statements come first, then the test runner and its alias, then the template and header statements with their aliases |
| Bootstrap.AppendAfterLibrary | bootstrap.py:126-171 | everything after the library's statements, ending with the `examples` alias |
| Bootstrap.EmitStatements | bootstrap.py:107-171 | the statements handed to the writer are exactly `Statements`, including the early stop at line 120 |
| Bootstrap.Generate | bootstrap.py:73-173 | a run hands the writer exactly `Written`: the preamble, the six rules, the statements and the `examples` default, or the `NameError` with what was written before it |
| GraphProperties.NameErrorExactly | bootstrap.py:118-121 | as written, a run stops with a `NameError` for `libnonius` exactly when `src/` holds a source. What was written by then is the preamble, the rules, the regeneration statement and the library's compile statements, with no default |
| GraphProperties.DeviationAgrees | bootstrap.py:117-124 | with the assignment first, every run finishes. Without library sources, both variants write the same file |
| GraphProperties.FinishedRun | bootstrap.py:73-173 | a finished run writes the preamble, the rules, every statement and `examples` as the only default |
| GraphProperties.CompileEdgesAt | bootstrap.py:113-115 | compile statement `k` compiles source `k` |
| GraphProperties.ExampleLinksAt | bootstrap.py:164-165 | example link `k` belongs to example `k` |
| GraphProperties.ExampleAliasesAt | bootstrap.py:166-167 | example alias `k` belongs to example `k` |
| GraphProperties.ExampleNamesAt | bootstrap.py:162-168 | entry `k` of `examples` is example `k`'s name |
| GraphProperties.CompileEdgesAppend | bootstrap.py:113-130 | compiling two lists one after the other is compiling their concatenation |
| GraphProperties.CompileEdgesByRule | bootstrap.py:113-115 | compile statements use only the `cxx` rule |
| GraphProperties.ExampleEdgesByRule | bootstrap.py:159-168 | the examples' statements give, by rule: their compiles, their links and their aliases, in order, and nothing else |
| GraphProperties.LibraryEdgesByRule | bootstrap.py:118-124 | the library part is one `lib` alias and one archive of the library's objects, or nothing |
| GraphProperties.TestEdgesByRule | bootstrap.py:132-136 | the test part is one link and one alias |
| GraphProperties.HeaderEdgesByRule | bootstrap.py:138-153 | the header part is one stringize statement, one header statement and two aliases |
| GraphProperties.ByRule | bootstrap.py:107-171 | selecting one rule's statements keeps the order of the script's parts |
| GraphProperties.CompileStatements | bootstrap.py:110-161 | in a finished run (as written: `src/` empty; otherwise with `AssignBeforeUse`), there is exactly one compile statement per source: `src/`, then `test/`, then `examples/`, each in walk order |
| GraphProperties.ArchiveStatements | bootstrap.py:117-124 | in a finished run (as written: `src/` empty, so no archive; otherwise with `AssignBeforeUse`), the archive is built from the library's objects exactly when `src/` holds a source; `built_libs` is empty without an archive and names exactly the archive statement's output with one |
| GraphProperties.LinkStatements | bootstrap.py:132-134 | in a finished run (as written: `src/` empty; otherwise with `AssignBeforeUse`), the test runner is linked first, always, from the test objects and the archive if there is one. Then each example is linked, in order |
| GraphProperties.PhonyStatements | bootstrap.py:119-171 | in a finished run (as written: `src/` empty, so no `lib`; otherwise with `AssignBeforeUse`), the aliases, in order: `lib` when there is an archive, `test`, `templates`, `header`, one per example, and last `examples` |
| GraphProperties.GeneratedHeaders | bootstrap.py:138-153 | in a finished run (as written: `src/` empty; otherwise with `AssignBeforeUse`), the report template and the single header are each generated by exactly one statement, with their tools as implicit inputs |
| GraphProperties.PerExample | bootstrap.py:159-168 | example `k` links `bin/examples/<name>` from its object followed by `built_libs` (the archive only when `src/` holds a source, which as written means only with `AssignBeforeUse`), has the alias `<name>`, and is the `k`-th entry of `examples` |
| GraphProperties.CompileOutputsDistinct | bootstrap.py:112-115 | distinct `.c++` sources get compile statements with distinct outputs |
| GraphProperties.RuleNamesOf | bootstrap.py:78-103 | the rules declared are `bootstrap`, `cxx`, `link`, `lib`, `stringize` and `header` |
| GraphProperties.StatementRule | bootstrap.py:107-171 | every statement of a finished run uses one of the six rules or `phony` |
| GraphProperties.HeadRule | bootstrap.py:107-115 | every statement written before line 120 regenerates or compiles |
| GraphProperties.RulesAreDeclared | bootstrap.py:78-173 | whether the run finishes or stops, every statement uses a declared rule or `phony` |
| GraphProperties.ObjectFilesProduced | bootstrap.py:112-115 | every object file the archive or the test runner names has a compile statement |
| GraphProperties.LibraryInputs | bootstrap.py:118-124 | the library alias and the archive use only the archive and the library's objects |
| GraphProperties.TestInputs | bootstrap.py:132-136 | the test runner and its alias use only test objects, the runner, or the archive |
| GraphProperties.HeaderInputs | bootstrap.py:143-153 | the `templates` and `header` aliases name what the header statements produce |
| GraphProperties.ExampleInputs | bootstrap.py:159-168 | each example's link and alias use only what the examples' statements produce, or the archive |
| GraphProperties.ExampleNamesProduced | bootstrap.py:166-171 | every name in `examples` is an alias some statement produces |
| GraphProperties.NoDanglingInputs | bootstrap.py:107-171 | no link, archive or alias statement of a finished run names an input that no statement produces |
| GraphProperties.InputsAreProduced | bootstrap.py:107-173 | whether the run finishes or stops, nothing written links, archives or aliases an unproduced input |

## Left out

- The directory walk is an input. Its order and contents depend on the platform and the filesystem, so one `WalkEntry` per directory is given in walk order. Walk errors are not modelled either: `os.walk` ignores them, as the code calls it.
- `fnmatch.translate` in general is not modelled. The script uses only the patterns `*.c++` and `*.h++`, and for those a name matches exactly when it ends with the text after the `*`.
- The writer `ninja_syntax.Writer` is not part of this model. Neither is the text it produces (escaping, line wrapping) nor the opening of `build.ninja`. The model stops at the calls made to the writer.
- `argparse` is not modelled. The parsed options are a value (`Flags.Options`), and command-line errors are argparse's. `sys.argv` is given as the script name and its arguments.
- The external tools (`python`, the compiler, `ar` and the two scripts under `tools/`) are not run. Their commands appear only as text in the rules.
- `hdr_files` (line 110) is computed and discarded, as in the script. Nothing proved depends on it.
- Duplicate outputs are not ruled out. An example named `test`, `header`, `templates` or `examples` gives a second statement with that output, as the script does. So does one named `lib`, but only with `AssignBeforeUse`: as written, a run that writes the `lib` alias never reaches the examples. Only the object files are proved distinct.
- Flags.DependencyIncludeShape: does not spell out a dependency name that ends in `/`. For such a name `os.path.join` adds no separator; `Flags.DependencyInclude` computes that case, and the lemma does not restate it.
- GraphProperties.CompileOutputsDistinct: requires every source to end in `.c++`. `get_files` only yields such names (`Discovery.DiscoveredPaths`).

## Findings

| source | as written | input that shows it | evidently intended | confidence | as-written member | corrected member |
|---|---|---|---|---|---|---|
| bootstrap.py:119-121 | the `lib` alias reads `libnonius` on line 120, but line 121 is the first to assign it, so the run stops with a `NameError` after the library's compile statements | any `src/` holding one file `a.c++` | assign `libnonius = bin/libnonius.a` first, so that `lib` is an alias of the archive and the run goes on to the tests, headers and examples | not executed | GraphProperties.NameErrorExactly | GraphProperties.DeviationAgrees |
