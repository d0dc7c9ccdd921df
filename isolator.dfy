/**
 * The environment isolator's bookkeeping: classifying file changes between
 * two path-to-content snapshots, truncating diffs, building the combined
 * diff text, the tar exclusion filter and the one-shot cleanup of an
 * isolated environment. Globbing, file reads, `difflib` and `tarfile` are
 * not modelled: the snapshots and the raw unified diff are inputs.
 */
module Isolator {
  import opened Wrappers
  import opened Text
  import opened Models

  // ---------------------------------------------------------------------
  // Snapshots
  // ---------------------------------------------------------------------

  /** A `dict[str, str]` from relative path to content, in insertion order. */
  type Files = seq<(string, string)>

  /** Python keeps the keys of a dictionary distinct. */
  predicate DistinctPaths(f: Files)
  {
    forall i, j :: 0 <= i < j < |f| ==> f[i].0 != f[j].0
  }

  /** `f.get(path)`. */
  function Lookup(f: Files, path: string): Option<string>
  {
    if f == [] then None
    else if f[|f| - 1].0 == path then Some(f[|f| - 1].1)
    else Lookup(f[..|f| - 1], path)
  }

  /** A path that is found is some entry's key. */
  lemma {:induction false} LookupWitness(f: Files, path: string)
    ensures Lookup(f, path).Some? ==> exists i :: 0 <= i < |f| && f[i] == (path, Lookup(f, path).value)
  {
    if f != [] && f[|f| - 1].0 != path {
      var init := f[..|f| - 1];
      LookupWitness(init, path);
      if Lookup(f, path).Some? {
        var i :| 0 <= i < |init| && init[i] == (path, Lookup(init, path).value);
        assert f[i] == init[i];
      }
    }
  }

  /** With distinct keys, the entry of a key is what the lookup finds. */
  lemma {:induction false} LookupAt(f: Files, i: nat)
    requires DistinctPaths(f) && i < |f|
    ensures Lookup(f, f[i].0) == Some(f[i].1)
  {
    if i < |f| - 1 {
      var init := f[..|f| - 1];
      assert init[i] == f[i];
      LookupAt(init, i);
    }
  }

  /** The key appended last was not there before. */
  lemma LastKeyIsNew(f: Files)
    requires DistinctPaths(f) && f != []
    ensures Lookup(f[..|f| - 1], f[|f| - 1].0).None?
    ensures DistinctPaths(f[..|f| - 1])
  {
    LookupWitness(f[..|f| - 1], f[|f| - 1].0);
  }

  // ---------------------------------------------------------------------
  // Diffs
  // ---------------------------------------------------------------------

  /** `difflib.unified_diff` joined, on the old content, the new content and the path. */
  type Differ = (string, string, string) -> string

  const DiffLimit := 10000

  /** The truncation of `_compute_diff`. */
  function Truncate(diff: string): string
  {
    if |diff| > DiffLimit then diff[..DiffLimit] + "\n... (truncated)" else diff
  }

  /** A diff within the limit is kept; a longer one keeps its first 10000 characters and gains the marker. */
  lemma TruncateRule(diff: string)
    ensures |diff| <= DiffLimit ==> Truncate(diff) == diff
    ensures |diff| > DiffLimit ==>
      && StartsWith(Truncate(diff), diff[..DiffLimit])
      && EndsWith(Truncate(diff), "\n... (truncated)")
      && |Truncate(diff)| == DiffLimit + 16
  {
    if |diff| > DiffLimit {
      var t := Truncate(diff);
      assert t[..DiffLimit] == diff[..DiffLimit];
      assert t[DiffLimit..] == "\n... (truncated)";
    }
  }

  /** `_compute_diff`. */
  function ComputeDiff(before: string, after: string, path: string, differ: Differ): string
  {
    Truncate(differ(before, after, path))
  }

  // ---------------------------------------------------------------------
  // Change classification
  // ---------------------------------------------------------------------

  /** The change the first loop of `diff_files` records for one current file. */
  function ChangeFor(path: string, content: string, before: Files, differ: Differ): seq<FileChange>
  {
    match Lookup(before, path)
    case None => [FileChange(path, Created, None, Some(Take(content, DiffLimit)))]
    case Some(previous) =>
      if previous != content then [FileChange(path, Modified, Some(ComputeDiff(previous, content, path, differ)), None)] else []
  }

  /** The created and modified files, in the order of the current snapshot. */
  function CreatedAndModified(after: Files, before: Files, differ: Differ): seq<FileChange>
  {
    if after == [] then []
    else
      var last := after[|after| - 1];
      CreatedAndModified(after[..|after| - 1], before, differ) + ChangeFor(last.0, last.1, before, differ)
  }

  /** The deleted files, in the order of the earlier snapshot. */
  function Deletions(before: Files, after: Files): seq<FileChange>
  {
    if before == [] then []
    else
      var last := before[|before| - 1];
      Deletions(before[..|before| - 1], after)
        + (if Lookup(after, last.0).None? then [FileChange(last.0, Deleted, None, None)] else [])
  }

  /** What `diff_files` returns. */
  function FileChanges(before: Files, after: Files, differ: Differ): seq<FileChange>
  {
    CreatedAndModified(after, before, differ) + Deletions(before, after)
  }

  /** `diff_files` on the earlier snapshot and the current one. */
  method DiffFiles(before: Files, after: Files, differ: Differ) returns (changes: seq<FileChange>)
    ensures changes == FileChanges(before, after, differ)
  {
    changes := [];
    for i := 0 to |after|
      invariant changes == CreatedAndModified(after[..i], before, differ)
    {
      var (path, content) := after[i];
      assert after[..i + 1][..i] == after[..i];
      match Lookup(before, path) {
        case None =>
          changes := changes + [FileChange(path, Created, None, Some(if |content| > DiffLimit then content[..DiffLimit] else content))];
        case Some(previous) =>
          if previous != content {
            var diff := ComputeDiff(previous, content, path, differ);
            changes := changes + [FileChange(path, Modified, Some(diff), None)];
          }
      }
    }
    assert after[..|after|] == after;
    ghost var created := changes;
    for i := 0 to |before|
      invariant changes == created + Deletions(before[..i], after)
    {
      var path := before[i].0;
      assert before[..i + 1][..i] == before[..i];
      if Lookup(after, path).None? {
        changes := changes + [FileChange(path, Deleted, None, None)];
      }
    }
    assert before[..|before|] == before;
  }

  /** A current file that is new, or whose content differs from before; these are the ones the first loop records. */
  predicate Changed(before: Files, after: Files, path: string)
  {
    Lookup(after, path).Some? && Lookup(before, path) != Lookup(after, path)
  }

  /** Some record of `changes` is about `path`. */
  predicate HasPath(changes: seq<FileChange>, path: string)
  {
    exists i :: 0 <= i < |changes| && changes[i].path == path
  }

  /** The record of a change agrees with the two snapshots. */
  predicate Classified(c: FileChange, before: Files, after: Files, differ: Differ)
  {
    match c.action
    case Created =>
      && Lookup(before, c.path).None? && Lookup(after, c.path).Some?
      && c.contentAfter == Some(Take(Lookup(after, c.path).value, DiffLimit)) && c.diff.None?
    case Modified =>
      && Lookup(before, c.path).Some? && Lookup(after, c.path).Some?
      && Lookup(before, c.path) != Lookup(after, c.path)
      && c.diff == Some(ComputeDiff(Lookup(before, c.path).value, Lookup(after, c.path).value, c.path, differ))
      && c.contentAfter.None?
    case Deleted =>
      Lookup(before, c.path).Some? && Lookup(after, c.path).None? && c.diff.None? && c.contentAfter.None?
  }

  /** The first loop records only changed current files, correctly classified, each once. */
  lemma {:induction false} CreatedAndModifiedSound(after: Files, before: Files, differ: Differ)
    requires DistinctPaths(after)
    ensures forall j :: 0 <= j < |CreatedAndModified(after, before, differ)| ==>
      Lookup(after, CreatedAndModified(after, before, differ)[j].path).Some?
    ensures forall j :: 0 <= j < |CreatedAndModified(after, before, differ)| ==>
      && CreatedAndModified(after, before, differ)[j].action != Deleted
      && Classified(CreatedAndModified(after, before, differ)[j], before, after, differ)
    ensures forall j, k :: 0 <= j < k < |CreatedAndModified(after, before, differ)| ==>
      CreatedAndModified(after, before, differ)[j].path != CreatedAndModified(after, before, differ)[k].path
  {
    if after != [] {
      var init, last := after[..|after| - 1], after[|after| - 1];
      LastKeyIsNew(after);
      CreatedAndModifiedSound(init, before, differ);
      var cm0 := CreatedAndModified(init, before, differ);
      var extra := ChangeFor(last.0, last.1, before, differ);
      var cm := CreatedAndModified(after, before, differ);
      assert cm == cm0 + extra;
      assert Lookup(after, last.0) == Some(last.1);
      assert forall j :: 0 <= j < |extra| ==>
        extra[j].path == last.0 && extra[j].action != Deleted && Classified(extra[j], before, after, differ);
      forall j | 0 <= j < |cm0|
        ensures cm0[j].path != last.0 && Lookup(after, cm0[j].path) == Lookup(init, cm0[j].path)
      {
        assert Lookup(init, cm0[j].path).Some?;
      }
      forall j | 0 <= j < |cm|
        ensures Lookup(after, cm[j].path).Some? && cm[j].action != Deleted && Classified(cm[j], before, after, differ)
      {
        if j < |cm0| { assert cm[j] == cm0[j]; } else { assert cm[j] == extra[j - |cm0|]; }
      }
      forall j, k | 0 <= j < k < |cm| ensures cm[j].path != cm[k].path {
        if k >= |cm0| {
          assert cm[k] == extra[k - |cm0|];
          assert cm[j] == cm0[j];
        } else {
          assert cm[j] == cm0[j] && cm[k] == cm0[k];
        }
      }
    }
  }

  /** A current file gets a record from the first loop exactly when it is changed. */
  lemma {:induction false} CreatedAndModifiedComplete(after: Files, before: Files, differ: Differ, path: string)
    requires DistinctPaths(after)
    ensures Changed(before, after, path) <==> HasPath(CreatedAndModified(after, before, differ), path)
  {
    if after != [] {
      var init, last := after[..|after| - 1], after[|after| - 1];
      LastKeyIsNew(after);
      CreatedAndModifiedComplete(init, before, differ, path);
      var cm0 := CreatedAndModified(init, before, differ);
      var extra := ChangeFor(last.0, last.1, before, differ);
      assert CreatedAndModified(after, before, differ) == cm0 + extra;
      ConcatHasPath(cm0, extra, path);
      if extra != [] {
        assert extra[0].path == last.0;
      }
      if last.0 == path {
        assert !Changed(before, init, path);
      }
    }
  }


  /** The second loop records only earlier files that are gone, each once. */
  lemma {:induction false} DeletionsSound(before: Files, after: Files)
    requires DistinctPaths(before)
    ensures forall j :: 0 <= j < |Deletions(before, after)| ==>
      && Deletions(before, after)[j] == FileChange(Deletions(before, after)[j].path, Deleted, None, None)
      && Lookup(before, Deletions(before, after)[j].path).Some?
      && Lookup(after, Deletions(before, after)[j].path).None?
    ensures forall j, k :: 0 <= j < k < |Deletions(before, after)| ==>
      Deletions(before, after)[j].path != Deletions(before, after)[k].path
  {
    if before != [] {
      var init, last := before[..|before| - 1], before[|before| - 1];
      LastKeyIsNew(before);
      DeletionsSound(init, after);
      var del0 := Deletions(init, after);
      var extra := if Lookup(after, last.0).None? then [FileChange(last.0, Deleted, None, None)] else [];
      var del := Deletions(before, after);
      assert del == del0 + extra;
      forall j | 0 <= j < |del0| ensures del0[j].path != last.0 && Lookup(before, del0[j].path).Some? {
        assert Lookup(init, del0[j].path).Some?;
      }
      forall j, k | 0 <= j < k < |del| ensures del[j].path != del[k].path {
        if k >= |del0| {
          assert del[k] == extra[k - |del0|];
          if j < |del0| { assert del[j] == del0[j]; }
        } else {
          assert del[j] == del0[j] && del[k] == del0[k];
        }
      }
      forall j | 0 <= j < |del| ensures Lookup(before, del[j].path).Some? {
        if j < |del0| { assert del[j] == del0[j]; }
      }
    }
  }

  /** Every earlier file that is gone is recorded as deleted. */
  lemma {:induction false} DeletionsComplete(before: Files, after: Files, path: string)
    requires Lookup(before, path).Some? && Lookup(after, path).None?
    ensures exists j :: 0 <= j < |Deletions(before, after)| && Deletions(before, after)[j].path == path
  {
    var init, last := before[..|before| - 1], before[|before| - 1];
    var del := Deletions(before, after);
    var del0 := Deletions(init, after);
    if last.0 == path {
      assert del == del0 + [FileChange(path, Deleted, None, None)];
      assert del[|del0|].path == path;
    } else {
      DeletionsComplete(init, after, path);
      var j :| 0 <= j < |del0| && del0[j].path == path;
      assert del[j] == del0[j];
    }
  }

  /**
   * `diff_files` classifies every path of either snapshot correctly: each
   * record agrees with the snapshots, no path is recorded twice, and the
   * deletions come after all creations and modifications.
   */
  lemma FileChangesCorrect(before: Files, after: Files, differ: Differ)
    requires DistinctPaths(before) && DistinctPaths(after)
    ensures forall i :: 0 <= i < |FileChanges(before, after, differ)| ==>
      Classified(FileChanges(before, after, differ)[i], before, after, differ)
    ensures forall i, j :: 0 <= i < j < |FileChanges(before, after, differ)| ==>
      FileChanges(before, after, differ)[i].path != FileChanges(before, after, differ)[j].path
    ensures forall i, j :: 0 <= i < j < |FileChanges(before, after, differ)| ==>
      (FileChanges(before, after, differ)[i].action == Deleted ==> FileChanges(before, after, differ)[j].action == Deleted)
  {
    var cm := CreatedAndModified(after, before, differ);
    var del := Deletions(before, after);
    CreatedAndModifiedSound(after, before, differ);
    DeletionsSound(before, after);
    var ch := cm + del;
    forall i | 0 <= i < |ch| ensures Classified(ch[i], before, after, differ) {
      if i >= |cm| {
        assert ch[i] == del[i - |cm|];
      } else {
        assert ch[i] == cm[i];
      }
    }
    forall i, j | 0 <= i < j < |ch| ensures ch[i].path != ch[j].path {
      if j >= |cm| {
        assert ch[j] == del[j - |cm|];
        if i < |cm| {
          assert ch[i] == cm[i];
          assert Lookup(after, ch[i].path).Some? && Lookup(after, ch[j].path).None?;
        } else {
          assert ch[i] == del[i - |cm|];
        }
      } else {
        assert ch[i] == cm[i] && ch[j] == cm[j];
      }
    }
    forall i, j | 0 <= i < j < |ch| ensures ch[i].action == Deleted ==> ch[j].action == Deleted {
      assert ch[i] == (if i < |cm| then cm[i] else del[i - |cm|]);
      assert ch[j] == (if j < |cm| then cm[j] else del[j - |cm|]);
    }
  }

  /** A path gets a record exactly when it is a changed current file or an earlier file that is gone. */
  lemma FileChangesCover(before: Files, after: Files, differ: Differ, path: string)
    requires DistinctPaths(before) && DistinctPaths(after)
    ensures HasPath(FileChanges(before, after, differ), path)
      <==> Changed(before, after, path) || (Lookup(before, path).Some? && Lookup(after, path).None?)
  {
    var cm := CreatedAndModified(after, before, differ);
    var del := Deletions(before, after);
    assert cm + del == FileChanges(before, after, differ);
    ConcatHasPath(cm, del, path);
    CreatedAndModifiedComplete(after, before, differ, path);
    DeletionsCover(before, after, path);
  }

  /** The second loop records a path exactly when it is an earlier file that is gone. */
  lemma DeletionsCover(before: Files, after: Files, path: string)
    requires DistinctPaths(before)
    ensures HasPath(Deletions(before, after), path) <==> Lookup(before, path).Some? && Lookup(after, path).None?
  {
    DeletionsSound(before, after);
    if Lookup(before, path).Some? && Lookup(after, path).None? {
      DeletionsComplete(before, after, path);
    }
  }

  lemma ConcatHasPath(cm: seq<FileChange>, del: seq<FileChange>, path: string)
    ensures HasPath(cm + del, path) <==> HasPath(cm, path) || HasPath(del, path)
  {
    var ch := cm + del;
    if exists j :: 0 <= j < |del| && del[j].path == path {
      var j :| 0 <= j < |del| && del[j].path == path;
      assert ch[|cm| + j] == del[j];
    }
    if exists j :: 0 <= j < |cm| && cm[j].path == path {
      var j :| 0 <= j < |cm| && cm[j].path == path;
      assert ch[j] == cm[j];
    }
    if exists i :: 0 <= i < |ch| && ch[i].path == path {
      var i :| 0 <= i < |ch| && ch[i].path == path;
      if i >= |cm| {
        assert ch[i] == del[i - |cm|];
      } else {
        assert ch[i] == cm[i];
      }
    }
  }

  // ---------------------------------------------------------------------
  // Combined diff
  // ---------------------------------------------------------------------

  /** Each line with a one-character marker in front. */
  function Marked(marker: string, lines: seq<string>): (r: seq<string>)
    ensures |r| == |lines|
  {
    seq(|lines|, i requires 0 <= i < |lines| => marker + lines[i])
  }

  /** The lines `_generate_combined_diff` emits for one change. */
  function ChangeBlock(before: Files, c: FileChange): seq<string>
  {
    match c.action
    case Created =>
      ["--- /dev/null", "+++ b/" + c.path]
      + (if Truthy(c.contentAfter) then Marked("+", SplitLines(c.contentAfter.value)) else [])
      + [""]
    case Deleted =>
      ["--- a/" + c.path, "+++ /dev/null"]
      + (if Lookup(before, c.path).Some? then Marked("-", SplitLines(Lookup(before, c.path).value)) else [])
      + [""]
    case Modified =>
      if Truthy(c.diff) then [c.diff.value, ""] else []
  }

  function DiffParts(before: Files, changes: seq<FileChange>): seq<string>
  {
    if changes == [] then []
    else DiffParts(before, changes[..|changes| - 1]) + ChangeBlock(before, changes[|changes| - 1])
  }

  /** A block opens with the two header lines of its kind and ends with an empty line; a modification without a diff has none. */
  lemma ChangeBlockShape(before: Files, c: FileChange)
    ensures var b := ChangeBlock(before, c);
      && (c.action == Created ==> |b| >= 3 && b[0] == "--- /dev/null" && b[1] == "+++ b/" + c.path)
      && (c.action == Deleted ==> |b| >= 3 && b[0] == "--- a/" + c.path && b[1] == "+++ /dev/null")
      && (c.action == Modified ==> (b == [] <==> !Truthy(c.diff)))
      && (b != [] ==> b[|b| - 1] == "")
  {
  }

  /** The body of a creation is the new content's lines marked "+"; of a deletion, the old content's lines marked "-". */
  lemma ChangeBlockBody(before: Files, c: FileChange)
    ensures c.action == Created && Truthy(c.contentAfter) ==>
      var b := ChangeBlock(before, c); var lines := SplitLines(c.contentAfter.value);
      |b| == |lines| + 3 && forall k :: 0 <= k < |lines| ==> b[k + 2] == "+" + lines[k]
    ensures c.action == Deleted && Lookup(before, c.path).Some? ==>
      var b := ChangeBlock(before, c); var lines := SplitLines(Lookup(before, c.path).value);
      |b| == |lines| + 3 && forall k :: 0 <= k < |lines| ==> b[k + 2] == "-" + lines[k]
  {
    match c.action
    case Created =>
      if Truthy(c.contentAfter) {
        MarkedBlock(["--- /dev/null", "+++ b/" + c.path], "+", SplitLines(c.contentAfter.value));
      }
    case Deleted =>
      if Lookup(before, c.path).Some? {
        MarkedBlock(["--- a/" + c.path, "+++ /dev/null"], "-", SplitLines(Lookup(before, c.path).value));
      }
    case Modified =>
  }

  /** Two header lines, the marked lines, then an empty line. */
  lemma MarkedBlock(head: seq<string>, marker: string, lines: seq<string>)
    requires |head| == 2
    ensures var b := head + Marked(marker, lines) + [""];
      |b| == |lines| + 3 && forall k :: 0 <= k < |lines| ==> b[k + 2] == marker + lines[k]
  {
  }

  /** The marked lines of one block. */
  method AppendMarked(parts: seq<string>, marker: string, content: string) returns (r: seq<string>)
    ensures r == parts + Marked(marker, SplitLines(content))
  {
    var lines := SplitLines(content);
    r := parts;
    for k := 0 to |lines|
      invariant r == parts + Marked(marker, lines[..k])
    {
      assert Marked(marker, lines[..k + 1]) == Marked(marker, lines[..k]) + [marker + lines[k]];
      r := r + [marker + lines[k]];
    }
    assert lines[..|lines|] == lines;
  }

  /** One iteration of `_generate_combined_diff`: the block of one change. */
  method AppendBlock(parts: seq<string>, before: Files, change: FileChange) returns (r: seq<string>)
    ensures r == parts + ChangeBlock(before, change)
  {
    if change.action == Created {
      var head := ["--- /dev/null", "+++ b/" + change.path];
      r := parts + head;
      if Truthy(change.contentAfter) {
        r := AppendMarked(r, "+", change.contentAfter.value);
      } else {
        assert r == parts + head + [];
      }
      r := r + [""];
      BlockAssociates(parts, head, if Truthy(change.contentAfter) then Marked("+", SplitLines(change.contentAfter.value)) else []);
    } else if change.action == Deleted {
      var head := ["--- a/" + change.path, "+++ /dev/null"];
      r := parts + head;
      var earlier := Lookup(before, change.path);
      if earlier.Some? {
        r := AppendMarked(r, "-", earlier.value);
      } else {
        assert r == parts + head + [];
      }
      r := r + [""];
      BlockAssociates(parts, head, if earlier.Some? then Marked("-", SplitLines(earlier.value)) else []);
    } else if Truthy(change.diff) {
      r := parts + [change.diff.value, ""];
    } else {
      r := parts;
    }
  }

  lemma BlockAssociates(parts: seq<string>, head: seq<string>, body: seq<string>)
    ensures parts + head + body + [""] == parts + (head + body + [""])
  {
  }

  /** `_generate_combined_diff`: the blocks of all changes, in order, joined by newlines. */
  method CombinedDiff(before: Files, changes: seq<FileChange>) returns (text: string)
    ensures text == Join(DiffParts(before, changes), "\n")
  {
    var diffParts: seq<string> := [];
    for i := 0 to |changes|
      invariant diffParts == DiffParts(before, changes[..i])
    {
      assert changes[..i + 1][..i] == changes[..i];
      assert DiffParts(before, changes[..i + 1]) == DiffParts(before, changes[..i]) + ChangeBlock(before, changes[i]);
      diffParts := AppendBlock(diffParts, before, changes[i]);
    }
    assert changes[..|changes|] == changes;
    text := Join(diffParts, "\n");
  }

  // ---------------------------------------------------------------------
  // Tar filter
  // ---------------------------------------------------------------------

  const DefaultExcludes: seq<string> := ["__pycache__", ".git", ".venv", "node_modules", "*.pyc", "*.pyo"]

  /** `filter_func`: a member is dropped when some pattern occurs in its name, literally. */
  method KeepMember(name: string, patterns: seq<string>) returns (keep: bool)
    ensures keep <==> forall i :: 0 <= i < |patterns| ==> !Contains(name, patterns[i])
  {
    for i := 0 to |patterns|
      invariant forall k :: 0 <= k < i ==> !Contains(name, patterns[k])
    {
      if Contains(name, patterns[i]) {
        return false;
      }
    }
    return true;
  }

  /** A pattern with a `*` never matches a name without one: the patterns are substrings, not globs. */
  lemma StarPatternNeedsStar(name: string, pattern: string)
    requires '*' in pattern && '*' !in name
    ensures !Contains(name, pattern)
  {
    ContainsAt(name, pattern);
  }

  /** With the default exclusions, `*.pyc` and `*.pyo` drop nothing that has no `*` in its name. */
  lemma DefaultGlobsInert(name: string)
    requires '*' !in name
    ensures (forall i :: 0 <= i < |DefaultExcludes| ==> !Contains(name, DefaultExcludes[i]))
      <==> (forall i :: 0 <= i < 4 ==> !Contains(name, DefaultExcludes[i]))
  {
    assert DefaultExcludes[4][0] == '*' && DefaultExcludes[5][0] == '*';
    StarPatternNeedsStar(name, DefaultExcludes[4]);
    StarPatternNeedsStar(name, DefaultExcludes[5]);
  }

  // ---------------------------------------------------------------------
  // Cleanup
  // ---------------------------------------------------------------------

  /** An isolated environment; `rootExists` is whether its temporary root is on disk, `removals` counts `rmtree` calls. */
  class IsolatedEnv {
    const path: string
    const tempRoot: string
    var cleanedUp: bool
    var rootExists: bool
    var removals: nat

    /** The root is removed at most once, and exactly when the environment is marked cleaned up. */
    predicate Valid()
      reads this
    {
      removals <= 1 && (cleanedUp <==> removals == 1) && (cleanedUp ==> !rootExists)
    }

    constructor (path: string, tempRoot: string)
      ensures Valid() && this.path == path && this.tempRoot == tempRoot
      ensures !cleanedUp && rootExists && removals == 0
    {
      this.path := path;
      this.tempRoot := tempRoot;
      cleanedUp := false;
      rootExists := true;
      removals := 0;
    }

    /** `IsolatedEnv.cleanup`: remove the root unless already cleaned up or gone. */
    method Cleanup()
      requires Valid()
      modifies this
      ensures Valid()
      ensures if !old(cleanedUp) && old(rootExists)
        then !rootExists && cleanedUp && removals == old(removals) + 1
        else rootExists == old(rootExists) && cleanedUp == old(cleanedUp) && removals == old(removals)
    {
      if !cleanedUp && rootExists {
        rootExists := false;
        removals := removals + 1;
        cleanedUp := true;
      }
    }

    /** `__exit__`. */
    method Exit()
      requires Valid()
      modifies this
      ensures Valid() && !rootExists
      ensures removals <= old(removals) + 1
      ensures if !old(cleanedUp) && old(rootExists)
        then !rootExists && cleanedUp && removals == old(removals) + 1
        else rootExists == old(rootExists) && cleanedUp == old(cleanedUp) && removals == old(removals)
    {
      Cleanup();
    }
  }

  /** Cleaning up twice removes the root once: the second call does nothing. */
  method CleanupIsIdempotent(env: IsolatedEnv)
    requires env.Valid() && !env.cleanedUp && env.rootExists
    modifies env
    ensures env.Valid() && env.cleanedUp && !env.rootExists && env.removals == 1
  {
    env.Cleanup();
    env.Cleanup();
  }
}
