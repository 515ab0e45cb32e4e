/**
 * The pure pair that both git-history strategies are parameterised by: `clean_diff`, which drops
 * git's metadata lines from a diff, and `reject_file_types`, which filters out binary and data
 * files by the extension of their path.
 */
module GitInterfaceStrategies {
  import opened Wrappers
  import opened Text

  /** Lines starting with one of these are git metadata, not content. */
  const MetadataPrefixes: seq<string> := ["diff --git", "index ", "@@ ", "+++ ", "--- "]

  /** The marker line git prints after a last line that has no newline. */
  const NoNewlineSentinel: string := "\\ No newline at end of file"

  /** Extensions (lower case, with the dot) of the files a changelog ignores. */
  const RejectFileTypes: seq<string> :=
    [".png", ".jpg", ".jpeg", ".gif", ".svg", ".ico", ".webp", ".mp4", ".mp3", ".wav", ".ogg",
     ".webm", ".pdf", ".doc", ".docx", ".xls", ".xlsx", ".ppt", ".pptx", ".json", ".txt"]

  predicate KeepLine(ln: string) {
    !StartsWithAny(ln, MetadataPrefixes) && ln != NoNewlineSentinel
  }

  /** The lines `clean_diff` keeps: every line that is neither metadata nor the sentinel. */
  function KeptLines(lines: seq<string>): (kept: seq<string>)
    ensures |kept| <= |lines|
    ensures forall k :: 0 <= k < |kept| ==> KeepLine(kept[k])
    ensures AllNoBreak(lines) ==> AllNoBreak(kept)
    decreases |lines|
  {
    if lines == [] then []
    else (if KeepLine(lines[0]) then [lines[0]] else []) + KeptLines(lines[1..])
  }

  /** Filtering keeps order: the lines kept from a concatenation are those kept from each part. */
  lemma {:induction false} KeptLinesAppend(a: seq<string>, b: seq<string>)
    ensures KeptLines(a + b) == KeptLines(a) + KeptLines(b)
    decreases |a|
  {
    if a != [] {
      assert (a + b)[1..] == a[1..] + b;
      KeptLinesAppend(a[1..], b);
    } else {
      assert a + b == b;
    }
  }

  /** Every occurrence of a kept line survives and nothing else does. */
  lemma {:induction false} KeptLinesCount(lines: seq<string>, ln: string)
    ensures multiset(KeptLines(lines))[ln] == if KeepLine(ln) then multiset(lines)[ln] else 0
    decreases |lines|
  {
    if lines != [] {
      KeptLinesCount(lines[1..], ln);
      assert lines == [lines[0]] + lines[1..];
    }
  }

  /** The text `clean_diff` returns: the kept lines joined by `"\n"`. */
  function CleanedDiff(raw: string): string {
    Join("\n", KeptLines(SplitLines(raw)))
  }

  /** Reading the cleaned text back line by line gives the kept lines (less a final empty one). */
  lemma CleanedDiffLines(raw: string)
    ensures SplitLines(CleanedDiff(raw)) == DropTrailingEmpty(KeptLines(SplitLines(raw)))
  {
    SplitLinesOfJoin(KeptLines(SplitLines(raw)));
  }

  /** `clean_diff` (git_interface_strategies/__init__.py) */
  method CleanDiff(raw: string) returns (r: string)
    ensures r == CleanedDiff(raw)
    ensures forall ln :: ln in SplitLines(r) ==> !StartsWithAny(ln, MetadataPrefixes)
    ensures NoNewlineSentinel !in SplitLines(r)
    ensures |SplitLines(r)| <= |SplitLines(raw)|
    ensures raw == "" ==> r == ""
  {
    var lines := SplitLines(raw);
    var cleaned: seq<string> := [];
    for i := 0 to |lines|
      invariant cleaned == KeptLines(lines[..i])
    {
      var ln := lines[i];
      KeptLinesAppend(lines[..i], [ln]);
      assert lines[..i + 1] == lines[..i] + [ln];
      if StartsWithAny(ln, MetadataPrefixes) {
        continue;
      }
      if ln == NoNewlineSentinel {
        continue;
      }
      cleaned := cleaned + [ln];
    }
    assert lines[..|lines|] == lines;
    r := Join("\n", cleaned);
    CleanedDiffLines(raw);
    var kept := KeptLines(lines);
    forall ln | ln in SplitLines(r) ensures KeepLine(ln) {
      var k :| 0 <= k < |SplitLines(r)| && SplitLines(r)[k] == ln;
      assert ln == kept[k];
    }
  }

  // ---- reject_file_types ----

  function Part(c: string): seq<string> {
    if c == "" || c == "." then [] else [c]
  }

  /** The components pathlib keeps for a POSIX path: split at `/`, without empty and `.` parts. */
  function Components(p: string): seq<string>
    decreases |p|
  {
    match IndexOf(p, '/')
    case None => Part(p)
    case Some(i) => Part(p[..i]) + Components(p[i + 1..])
  }

  /** `PurePosixPath(p).name`: the last component, or `""`. */
  function Name(p: string): string {
    var cs := Components(p);
    if cs == [] then "" else cs[|cs| - 1]
  }

  /** The shape of a non-empty suffix: a dot followed by at least one character and no dot. */
  predicate IsExtension(ext: string) {
    |ext| >= 2 && ext[0] == '.' && Lacks(ext[1..], '.')
  }

  /**
   * `PurePath.suffix` of a file name: from the last dot on, provided that dot is neither the
   * first nor the last character of the name; otherwise empty.
   */
  function Suffix(name: string): (r: string)
    ensures r == "" || (IsExtension(r) && |r| < |name| && EndsWith(name, r))
  {
    match LastIndexOf(name, '.')
    case None => ""
    case Some(i) =>
      if 0 < i < |name| - 1 then
        assert forall j :: 0 <= j < |name[i..][1..]| ==> name[i..][1..][j] == name[i + 1 + j];
        name[i..]
      else ""
  }

  /** Conversely, a name made of a non-empty stem and an extension has that extension as suffix. */
  lemma SuffixOfStemAndExtension(stem: string, ext: string)
    requires stem != [] && IsExtension(ext)
    ensures Suffix(stem + ext) == ext
  {
    var name := stem + ext;
    assert name[|stem|] == '.';
    forall j | |stem| < j < |name| ensures name[j] != '.' {
      assert name[j] == ext[1..][j - |stem| - 1];
    }
    var r := LastIndexOf(name, '.');
    assert r.Some? && r.value == |stem|;
    assert name[|stem|..] == ext;
  }

  /** `reject_file_types`: the lower-cased suffix is one of the rejected extensions. */
  predicate RejectFileType(path: string) {
    Lower(Suffix(Name(path))) in RejectFileTypes
  }

  lemma NameOfPlainFile(p: string)
    requires p != "" && p != "." && Lacks(p, '/')
    ensures Name(p) == p
  {
  }

  lemma {:induction false} ComponentsLackChar(p: string, c: char)
    requires Lacks(p, c)
    ensures forall k :: 0 <= k < |Components(p)| ==> Lacks(Components(p)[k], c)
    decreases |p|
  {
    match IndexOf(p, '/')
    case None =>
    case Some(i) =>
      LacksSlice(p, c, 0, i);
      LacksSlice(p, c, i + 1, |p|);
      ComponentsLackChar(p[i + 1..], c);
  }

  /** A path without any dot has no suffix, so it is never rejected. */
  lemma NoDotNeverRejected(p: string)
    requires Lacks(p, '.')
    ensures Suffix(Name(p)) == ""
    ensures !RejectFileType(p)
  {
    ComponentsLackChar(p, '.');
    assert Lacks(Name(p), '.');
  }

  /** Lower-casing moves no slash and no dot. */
  lemma IndexOfLower(s: string, c: char)
    requires c == '/' || c == '.'
    ensures IndexOf(Lower(s), c) == IndexOf(s, c)
    ensures LastIndexOf(Lower(s), c) == LastIndexOf(s, c)
  {
    assert forall j :: 0 <= j < |s| ==> (Lower(s)[j] == c <==> s[j] == c);
    var a, b := IndexOf(Lower(s), c), IndexOf(s, c);
    if a.Some? && b.Some? {
      assert !(a.value < b.value) && !(b.value < a.value);
    }
    var x, y := LastIndexOf(Lower(s), c), LastIndexOf(s, c);
    if x.Some? && y.Some? {
      assert !(x.value < y.value) && !(y.value < x.value);
    }
  }

  function LowerAll(xs: seq<string>): seq<string> {
    if xs == [] then [] else [Lower(xs[0])] + LowerAll(xs[1..])
  }

  lemma PartLower(x: string)
    ensures Part(Lower(x)) == LowerAll(Part(x))
  {
    if |x| == 1 {
      assert Lower(x)[0] == LowerChar(x[0]);
      assert Lower(x) == "." <==> x == ".";
    }
  }

  lemma LowerAllAppend(a: seq<string>, b: seq<string>)
    ensures LowerAll(a + b) == LowerAll(a) + LowerAll(b)
  {
    if a == [] {
      assert a + b == b;
    } else {
      assert (a + b)[1..] == a[1..] + b;
      LowerAllAppend(a[1..], b);
    }
  }

  lemma {:induction false} ComponentsLower(p: string)
    ensures Components(Lower(p)) == LowerAll(Components(p))
    decreases |p|
  {
    var lp := Lower(p);
    IndexOfLower(p, '/');
    match IndexOf(p, '/')
    case None =>
      PartLower(p);
    case Some(i) =>
      var head, tail := p[..i], p[i + 1..];
      LowerSlice(p, 0, i);
      LowerSlice(p, i + 1, |p|);
      assert lp[..i] == Lower(head);
      assert lp[i + 1..] == Lower(tail);
      assert Components(lp) == Part(Lower(head)) + Components(Lower(tail));
      PartLower(head);
      ComponentsLower(tail);
      LowerAllAppend(Part(head), Components(tail));
  }

  lemma LowerAllLast(xs: seq<string>)
    requires xs != []
    ensures |LowerAll(xs)| == |xs| && LowerAll(xs)[|xs| - 1] == Lower(xs[|xs| - 1])
  {
    if |xs| > 1 {
      LowerAllLast(xs[1..]);
    }
  }

  lemma LowerAllEmpty(xs: seq<string>)
    ensures LowerAll(xs) == [] <==> xs == []
  {
  }

  lemma NameLower(p: string)
    ensures Name(Lower(p)) == Lower(Name(p))
  {
    ComponentsLower(p);
    LowerAllEmpty(Components(p));
    if Components(p) != [] {
      LowerAllLast(Components(p));
    }
  }

  lemma SuffixLower(n: string)
    ensures Suffix(Lower(n)) == Lower(Suffix(n))
  {
    IndexOfLower(n, '.');
    match LastIndexOf(n, '.')
    case None =>
    case Some(i) =>
      if 0 < i < |n| - 1 {
        LowerSlice(n, i, |n|);
        assert n[i..] == n[i..|n|];
        assert Lower(n)[i..] == Lower(n)[i..|n|];
      }
  }

  /** `reject_file_types` does not depend on the case of the path: `a.PNG` fares as `a.png`. */
  lemma RejectIgnoresCase(p: string)
    ensures RejectFileType(Lower(p)) == RejectFileType(p)
  {
    NameLower(p);
    SuffixLower(Name(p));
    LowerIdempotent(Suffix(Name(p)));
  }

  /**
   * For a bare file name only the last extension counts: `x.py.json` is rejected as a `.json`
   * file and `x.json.py` is kept as a `.py` file.
   */
  lemma RejectByLastExtension(stem: string, ext: string)
    requires stem != "" && IsExtension(ext) && Lacks(stem + ext, '/')
    ensures RejectFileType(stem + ext) <==> Lower(ext) in RejectFileTypes
  {
    NameOfPlainFile(stem + ext);
    SuffixOfStemAndExtension(stem, ext);
  }

  /** Any path whose last component has no suffix (`foo.`, `a.b/c`, `.env`) is kept. */
  lemma NoSuffixNeverRejected(p: string)
    ensures Suffix(Name(p)) == "" ==> !RejectFileType(p)
  {
    assert Lower("") == "";
  }

  lemma ComponentsOfPlainName(name: string)
    requires name != "" && name != "." && Lacks(name, '/')
    ensures Components(name) == [name]
  {
    assert IndexOf(name, '/').None?;
  }

  lemma LastOfConcat(xs: seq<string>, ys: seq<string>)
    requires ys != []
    ensures var zs := xs + ys; zs != [] && zs[|zs| - 1] == ys[|ys| - 1]
  {
  }

  /** In `dir/name` with `name` free of `/`, the first `/` is inside `dir` or the one before `name`. */
  lemma FirstSlash(dir: string, name: string, p: string)
    requires Lacks(name, '/') && p == dir + "/" + name
    ensures IndexOf(p, '/').Some?
    ensures var i := IndexOf(p, '/').value;
      i <= |dir|
      && (i == |dir| ==> p[i + 1..] == name)
      && (i < |dir| ==> p[i + 1..] == dir[i + 1..] + "/" + name)
  {
    assert p[|dir|] == '/';
  }

  lemma ComponentsUnfold(p: string, i: nat)
    requires IndexOf(p, '/') == Some(i)
    ensures Components(p) == Part(p[..i]) + Components(p[i + 1..])
  {
  }

  /** The components of `dir/name` end with `name` when `name` is a plain file name. */
  lemma {:induction false} ComponentsEndWithName(dir: string, name: string)
    requires name != "" && name != "." && Lacks(name, '/')
    ensures var cs := Components(dir + "/" + name);
      cs != [] && cs[|cs| - 1] == name
    decreases |dir|
  {
    var p := dir + "/" + name;
    FirstSlash(dir, name, p);
    var i := IndexOf(p, '/').value;
    ComponentsUnfold(p, i);
    if i == |dir| {
      ComponentsOfPlainName(name);
    } else {
      ComponentsEndWithName(dir[i + 1..], name);
    }
    LastOfConcat(Part(p[..i]), Components(p[i + 1..]));
  }

  /** Inside a directory too, only the file's last extension decides: `a.json/x.py` is kept. */
  lemma RejectByLastExtensionInDir(dir: string, stem: string, ext: string)
    requires stem != "" && IsExtension(ext) && Lacks(stem + ext, '/')
    ensures RejectFileType(dir + "/" + stem + ext) <==> Lower(ext) in RejectFileTypes
  {
    var n := stem + ext;
    var p := dir + "/" + stem + ext;
    assert p == dir + "/" + n;
    assert |n| >= 3;
    ComponentsEndWithName(dir, n);
    assert Name(p) == n;
    SuffixOfStemAndExtension(stem, ext);
  }

  /** A dot file such as `.json` has no suffix, so it is kept. */
  lemma KeepDotFile(name: string)
    requires name != "" && name[0] == '.' && Lacks(name[1..], '.') && Lacks(name, '/')
    ensures !RejectFileType(name)
  {
    if name != "." {
      NameOfPlainFile(name);
    }
    assert LastIndexOf(name, '.') == Some(0);
  }
}
