/**
  * Path helpers of bootstrap.py: POSIX `os.path.join` and `os.path.basename`,
  * the substitution `re.sub(r'\.c\+\+$', repl, s)`, and the two names derived
  * from a source file with it: its object file and, for an example, its name.
  */
module Paths {
  import opened Strings
  import opened Sequences

  predicate IsAbsolute(p: string) {
    |p| > 0 && p[0] == '/'
  }

  /**
    * POSIX `os.path.join(a, b)`: an absolute `b` discards `a`; otherwise one
    * `/` is put between them unless `a` is empty or already ends with one.
    */
  function Join(a: string, b: string): (r: string)
  {
    if IsAbsolute(b) then b
    else if a == "" || a[|a| - 1] == '/' then a + b
    else a + "/" + b
  }

  /**
    * What joining keeps: the result always ends with `b`; an absolute `b` is
    * the whole result, and a relative `b` is appended to `a`.
    */
  lemma JoinKeepsParts(a: string, b: string)
    ensures EndsWith(Join(a, b), b)
    ensures IsAbsolute(b) ==> Join(a, b) == b
    ensures !IsAbsolute(b) ==> StartsWith(Join(a, b), a)
  {
  }

  /**
    * POSIX `os.path.basename(p)`: what follows the last `/` (all of `p` when
    * it holds none).
    */
  function Basename(p: string): string {
    if p == "" || p[|p| - 1] == '/' then "" else Basename(p[..|p| - 1]) + [p[|p| - 1]]
  }

  /**
    * The basename holds no `/`, ends `p`, and is either all of `p` or
    * follows a `/` in it.
    */
  lemma {:induction false} BasenameShape(p: string)
    ensures '/' !in Basename(p)
    ensures EndsWith(p, Basename(p))
    ensures Basename(p) == p || (|Basename(p)| < |p| && p[|p| - |Basename(p)| - 1] == '/')
  {
    if p != "" && p[|p| - 1] != '/' {
      var q := p[..|p| - 1];
      BasenameShape(q);
      var b := Basename(q);
      assert Basename(p) == b + [p[|p| - 1]];
      assert p == q + [p[|p| - 1]];
      assert Basename(p)[..|b|] == b;
    }
  }

  /** A file name ending without a `/` in its last characters keeps that ending in its basename. */
  lemma {:induction false} BasenameKeepsEnding(p: string, ending: string)
    requires EndsWith(p, ending) && '/' !in ending
    ensures EndsWith(Basename(p), ending)
  {
    if ending != "" {
      var q := p[..|p| - 1];
      assert p[|p| - 1] == ending[|ending| - 1];
      assert EndsWith(q, ending[..|ending| - 1]) by {
        assert q[|q| - (|ending| - 1)..] == p[|p| - |ending|..|p| - 1];
      }
      BasenameKeepsEnding(q, ending[..|ending| - 1]);
      var b := Basename(q);
      assert Basename(p) == b + [p[|p| - 1]];
      assert Basename(p)[|Basename(p)| - |ending|..] == b[|b| - (|ending| - 1)..] + [p[|p| - 1]];
      assert ending == ending[..|ending| - 1] + [ending[|ending| - 1]];
    }
  }

  /**
    * `re.sub(r'\.c\+\+$', repl, s)`. Python's `$` matches at the very end and
    * also just before a final newline, so a name ending in `.c++` followed by
    * a newline has its `.c++` replaced too, the newline kept.
    */
  function ReplaceCxx(s: string, repl: string): string {
    if EndsWith(s, ".c++") then s[..|s| - 4] + repl
    else if EndsWith(s, ".c++\n") then s[..|s| - 5] + repl + "\n"
    else s
  }

  /** `object_file(fn)`: `os.path.join('obj', re.sub(r'\.c\+\+$', '.o', fn))`. */
  function ObjectFile(fn: string): string {
    Join("obj", ReplaceCxx(fn, ".o"))
  }

  /**
    * The object file is `obj/` in front of the source name with its final
    * `.c++` turned into `.o`; all the rest of the name, directories included,
    * is kept. A name without that ending only gains the `obj/` prefix. An
    * absolute name gains no prefix, since joining onto it discards `obj`.
    */
  lemma ObjectFileShape(fn: string)
    ensures EndsWith(fn, ".c++") ==>
      ObjectFile(fn) == (if IsAbsolute(fn) then "" else "obj/") + fn[..|fn| - 4] + ".o"
    ensures EndsWith(fn, ".c++\n") ==>
      ObjectFile(fn) == (if IsAbsolute(fn) then "" else "obj/") + fn[..|fn| - 5] + ".o\n"
    ensures !EndsWith(fn, ".c++") && !EndsWith(fn, ".c++\n") ==>
      ObjectFile(fn) == (if IsAbsolute(fn) then "" else "obj/") + fn
  {
    var stem := ReplaceCxx(fn, ".o");
    var prefix := if IsAbsolute(fn) then "" else "obj/";
    ReplaceCxxStem(fn, ".o");
    assert ObjectFile(fn) == prefix + stem;
    if EndsWith(fn, ".c++") {
      assert fn[|fn| - 1] == '+';
      AppendAssoc(prefix, fn[..|fn| - 4], ".o");
    } else if EndsWith(fn, ".c++\n") {
      assert ".o" + "\n" == ".o\n";
      AppendAssoc(prefix, fn[..|fn| - 5], ".o\n");
    }
  }

  /** The substituted name starts like the original, so it is absolute exactly when the original is. */
  lemma ReplaceCxxStem(s: string, repl: string)
    requires !IsAbsolute(repl)
    ensures EndsWith(s, ".c++") ==> ReplaceCxx(s, repl) == s[..|s| - 4] + repl
    ensures !EndsWith(s, ".c++") && EndsWith(s, ".c++\n") ==> ReplaceCxx(s, repl) == s[..|s| - 5] + (repl + "\n")
    ensures IsAbsolute(ReplaceCxx(s, repl)) <==> IsAbsolute(s)
  {
    if EndsWith(s, ".c++") {
      assert s[..|s| - 4] != [] ==> ReplaceCxx(s, repl)[0] == s[0];
    } else if EndsWith(s, ".c++\n") {
      AppendAssoc(s[..|s| - 5], repl, "\n");
      assert s[..|s| - 5] != [] ==> ReplaceCxx(s, repl)[0] == s[0];
    }
  }

  /** Two sources ending in `.c++` share an object file only when they are the same source. */
  lemma ObjectFileInjective(a: string, b: string)
    requires EndsWith(a, ".c++") && EndsWith(b, ".c++")
    ensures ObjectFile(a) == ObjectFile(b) <==> a == b
  {
    if ObjectFile(a) == ObjectFile(b) {
      ObjectFileShape(a);
      ObjectFileShape(b);
      var o := ObjectFile(a);
      assert IsAbsolute(a) <==> IsAbsolute(o);
      assert IsAbsolute(b) <==> IsAbsolute(o);
      var p := if IsAbsolute(a) then "" else "obj/";
      assert o == p + a[..|a| - 4] + ".o" == p + b[..|b| - 4] + ".o";
      assert |a| == |b|;
      assert a[..|a| - 4] == o[|p|..|o| - 2] == b[..|b| - 4];
      assert a == a[..|a| - 4] + ".c++";
      assert b == b[..|b| - 4] + ".c++";
    }
  }

  /**
    * The example name `re.sub(r'\.c\+\+$', '', os.path.basename(fn))`.
    */
  function ExampleName(fn: string): string {
    ReplaceCxx(Basename(fn), "")
  }

  /** `os.path.join('bin', 'examples', name)`: where an example's program is linked. */
  function ExampleProgram(fn: string): string {
    Join(Join("bin", "examples"), ExampleName(fn))
  }

  /** An example's name holds no `/`. */
  lemma ExampleNameHasNoSlash(fn: string)
    ensures '/' !in ExampleName(fn)
  {
    BasenameShape(fn);
    ReplaceCxxKeepsOut(Basename(fn), "", '/');
  }

  /** The substitution adds no character that is neither in the name, in the replacement nor a newline. */
  lemma ReplaceCxxKeepsOut(s: string, repl: string, c: char)
    requires c !in s && c !in repl && c != '\n'
    ensures c !in ReplaceCxx(s, repl)
  {
    if EndsWith(s, ".c++") {
      assert c !in s[..|s| - 4];
    } else if EndsWith(s, ".c++\n") {
      assert c !in s[..|s| - 5];
    }
  }

  /** An example's name is the basename of its source without the `.c++` ending. */
  lemma ExampleNameStripsEnding(fn: string)
    requires EndsWith(fn, ".c++")
    ensures ExampleName(fn) + ".c++" == Basename(fn)
  {
    var base := Basename(fn);
    BasenameKeepsEnding(fn, ".c++");
    assert base == base[..|base| - 4] + ".c++";
  }

  /** An example's program lies directly in `bin/examples/`. */
  lemma ExampleProgramPath(fn: string)
    ensures ExampleProgram(fn) == "bin/examples/" + ExampleName(fn)
  {
    ExampleNameHasNoSlash(fn);
    var name := ExampleName(fn);
    assert !IsAbsolute(name);
    assert Join("bin", "examples") == "bin/examples";
  }
}
