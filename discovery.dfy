/**
  * `get_files(root, pattern)`: the files that `os.walk(root)` lists whose
  * names match `pattern`, each joined to the directory it was found in.
  *
  * The walk itself (its order depends on the platform) is an input: one
  * `WalkEntry` per directory, in the order the walk yields them. The script
  * only uses the patterns `*.c++` and `*.h++`; `fnmatch.translate` turns such a
  * pattern into a regular expression that `re.match` accepts exactly on the
  * names ending with the text after the `*`, so a pattern is modelled by
  * that ending.
  */
module Discovery {
  import opened Strings
  import opened Paths
  import opened Sequences

  /** One triple `(dirpath, dirnames, filenames)` of `os.walk`. */
  datatype WalkEntry = WalkEntry(dir: string, subdirs: seq<string>, files: seq<string>)

  /** The ending of the pattern `*.c++` (sources). */
  const SourceEnding := ".c++"
  /** The ending of the pattern `*.h++` (headers). */
  const HeaderEnding := ".h++"

  /** The names among `files` that match the pattern, in their order. */
  function Keep(files: seq<string>, ending: string): (r: seq<string>)
    ensures |r| <= |files|
    ensures forall k :: 0 <= k < |r| ==> EndsWith(r[k], ending)
  {
    if files == [] then []
    else
      var last := files[|files| - 1];
      Keep(files[..|files| - 1], ending) + (if EndsWith(last, ending) then [last] else [])
  }

  /** `os.path.join(dir, f)` for each name `f`, in order. */
  function JoinAll(dir: string, names: seq<string>): (r: seq<string>)
    ensures |r| == |names|
    ensures forall k :: 0 <= k < |names| ==> r[k] == Join(dir, names[k])
  {
    if names == [] then []
    else JoinAll(dir, names[..|names| - 1]) + [Join(dir, names[|names| - 1])]
  }

  /** What the generator yields over a whole walk: directory by directory, the kept names joined to it. */
  function Discover(walk: seq<WalkEntry>, ending: string): seq<string> {
    if walk == [] then []
    else
      var entry := walk[|walk| - 1];
      Discover(walk[..|walk| - 1], ending) + JoinAll(entry.dir, Keep(entry.files, ending))
  }

  /** `get_files`, with its two nested loops; it yields exactly `Discover`. */
  method GetFiles(walk: seq<WalkEntry>, ending: string) returns (paths: seq<string>)
    ensures paths == Discover(walk, ending)
  {
    paths := [];
    var i := 0;
    while i < |walk|
      invariant 0 <= i <= |walk|
      invariant paths == Discover(walk[..i], ending)
    {
      var entry := walk[i];
      ghost var before := paths;
      var j := 0;
      while j < |entry.files|
        invariant 0 <= j <= |entry.files|
        invariant paths == before + JoinAll(entry.dir, Keep(entry.files[..j], ending))
      {
        var f := entry.files[j];
        KeepStep(entry.files, ending, j);
        if EndsWith(f, ending) {
          JoinAllStep(entry.dir, Keep(entry.files[..j], ending), f);
          AppendAssoc(before, JoinAll(entry.dir, Keep(entry.files[..j], ending)), [Join(entry.dir, f)]);
          paths := paths + [Join(entry.dir, f)];
        } else {
          AppendEmpty(Keep(entry.files[..j], ending));
        }
        j := j + 1;
      }
      PrefixAll(entry.files);
      DiscoverStep(walk, ending, i);
      i := i + 1;
    }
    PrefixAll(walk);
  }

  /** One more name: the filter keeps it exactly when it matches. */
  lemma KeepStep(files: seq<string>, ending: string, j: nat)
    requires j < |files|
    ensures Keep(files[..j + 1], ending) == Keep(files[..j], ending) + (if EndsWith(files[j], ending) then [files[j]] else [])
  {
    PrefixStep(files, j);
  }

  lemma JoinAllStep(dir: string, names: seq<string>, f: string)
    ensures JoinAll(dir, names + [f]) == JoinAll(dir, names) + [Join(dir, f)]
  {
    AppendDropLast(names, [f]);
  }

  /** One more directory: its kept names, joined to it, follow what was found before. */
  lemma DiscoverStep(walk: seq<WalkEntry>, ending: string, i: nat)
    requires i < |walk|
    ensures Discover(walk[..i + 1], ending) == Discover(walk[..i], ending) + JoinAll(walk[i].dir, Keep(walk[i].files, ending))
  {
    PrefixStep(walk, i);
  }

  /** The filter keeps a name exactly when it is among the input names and matches. */
  lemma {:induction false} KeepMembers(files: seq<string>, ending: string, x: string)
    ensures x in Keep(files, ending) <==> x in files && EndsWith(x, ending)
  {
    if files != [] {
      var init := files[..|files| - 1];
      KeepMembers(init, ending, x);
      assert files == init + [files[|files| - 1]];
    }
  }

  /** The filter preserves order: filtering a concatenation concatenates the filtered parts. */
  lemma {:induction false} KeepAppend(a: seq<string>, b: seq<string>, ending: string)
    ensures Keep(a + b, ending) == Keep(a, ending) + Keep(b, ending)
  {
    if b == [] {
      AppendEmpty(a);
      AppendEmpty(Keep(a, ending));
    } else {
      var init, last := b[..|b| - 1], b[|b| - 1];
      KeepAppend(a, init, ending);
      AppendDropLast(a, b);
      AppendAssoc(Keep(a, ending), Keep(init, ending), if EndsWith(last, ending) then [last] else []);
    }
  }

  /** Names that all match pass through the filter unchanged. */
  lemma {:induction false} KeepAllMatching(files: seq<string>, ending: string)
    requires forall k :: 0 <= k < |files| ==> EndsWith(files[k], ending)
    ensures Keep(files, ending) == files
  {
    if files != [] {
      KeepAllMatching(files[..|files| - 1], ending);
      assert files == files[..|files| - 1] + [files[|files| - 1]];
    }
  }

  /** The walk's order is kept: discovering over two parts of a walk concatenates the results. */
  lemma {:induction false} DiscoverAppend(w1: seq<WalkEntry>, w2: seq<WalkEntry>, ending: string)
    ensures Discover(w1 + w2, ending) == Discover(w1, ending) + Discover(w2, ending)
  {
    if w2 == [] {
      AppendEmpty(w1);
      AppendEmpty(Discover(w1, ending));
    } else {
      var init, last := w2[..|w2| - 1], w2[|w2| - 1];
      DiscoverAppend(w1, init, ending);
      AppendDropLast(w1, w2);
      AppendAssoc(Discover(w1, ending), Discover(init, ending), JoinAll(last.dir, Keep(last.files, ending)));
    }
  }

  /** Directory `entry` lists a matching name that, joined to the directory, is `p`. */
  predicate FoundIn(entry: WalkEntry, ending: string, p: string) {
    exists j :: 0 <= j < |entry.files| && EndsWith(entry.files[j], ending) && p == Join(entry.dir, entry.files[j])
  }

  /** A path is found in one directory exactly when it is a matching name there joined to the directory. */
  lemma EntryMembers(entry: WalkEntry, ending: string, p: string)
    ensures p in JoinAll(entry.dir, Keep(entry.files, ending)) <==> FoundIn(entry, ending, p)
  {
    var kept := Keep(entry.files, ending);
    var here := JoinAll(entry.dir, kept);
    if p in here {
      var k :| 0 <= k < |here| && here[k] == p;
      KeepMembers(entry.files, ending, kept[k]);
      var j :| 0 <= j < |entry.files| && entry.files[j] == kept[k];
    }
    if FoundIn(entry, ending, p) {
      var j :| 0 <= j < |entry.files| && EndsWith(entry.files[j], ending) && p == Join(entry.dir, entry.files[j]);
      KeepMembers(entry.files, ending, entry.files[j]);
      var k :| 0 <= k < |kept| && kept[k] == entry.files[j];
      assert here[k] == p;
    }
  }

  /**
    * A path is discovered exactly when some directory of the walk lists a
    * matching name and the path is that name joined to the directory.
    */
  lemma {:induction false} DiscoverMembers(walk: seq<WalkEntry>, ending: string, p: string)
    ensures p in Discover(walk, ending) <==> exists i :: 0 <= i < |walk| && FoundIn(walk[i], ending, p)
  {
    if walk != [] {
      var n := |walk| - 1;
      var init := walk[..n];
      DiscoverMembers(init, ending, p);
      EntryMembers(walk[n], ending, p);
      if exists i :: 0 <= i < |walk| && FoundIn(walk[i], ending, p) {
        var i :| 0 <= i < |walk| && FoundIn(walk[i], ending, p);
        if i < n {
          assert init[i] == walk[i];
        }
      }
      if p in Discover(init, ending) {
        var i :| 0 <= i < |init| && FoundIn(init[i], ending, p);
        assert walk[i] == init[i];
      }
    }
  }

  /**
    * Every discovered path ends with the pattern's ending, and lies under
    * `root` when every walked directory does (names listed by the walk never
    * start with `/`).
    */
  lemma DiscoveredPaths(walk: seq<WalkEntry>, ending: string, root: string, p: string)
    requires forall i :: 0 <= i < |walk| ==> StartsWith(walk[i].dir, root)
    requires forall i, j :: 0 <= i < |walk| && 0 <= j < |walk[i].files| ==> !IsAbsolute(walk[i].files[j])
    requires p in Discover(walk, ending)
    ensures EndsWith(p, ending)
    ensures StartsWith(p, root)
  {
    DiscoverMembers(walk, ending, p);
    var i :| 0 <= i < |walk| && FoundIn(walk[i], ending, p);
    var j :| 0 <= j < |walk[i].files| && EndsWith(walk[i].files[j], ending) && p == Join(walk[i].dir, walk[i].files[j]);
    var f := walk[i].files[j];
    JoinKeepsParts(walk[i].dir, f);
    EndsWithTransitive(p, f, ending);
    StartsWithTransitive(p, walk[i].dir, root);
  }
}
