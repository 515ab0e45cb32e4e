/**
 * The commit-by-commit history reader: it lists the last commits with `git log`, asks
 * `git diff-tree` for the files of each, and records each file's previous content (`git show`)
 * and its cleaned diff (`git diff`). The git processes are not modelled; their outputs are the
 * fields of a `Git` value, `None` standing for a non-zero exit status.
 */
module ExtractGitCommits {
  import opened Wrappers
  import opened Text
  import opened Dicts
  import GitInterfaceStrategies

  /** This file's own copy of the metadata prefixes. */
  const MetadataPrefixes: seq<string> := ["diff --git", "index ", "@@ ", "+++ ", "--- "]

  const NoNewlineSentinel: string := "\\ No newline at end of file"

  /**
   * This file's copy of `clean_diff`. It computes, on every input, the same text as the copy
   * next to `reject_file_types`, so every property proved of that one holds here as well.
   */
  method CleanDiff(raw: string) returns (r: string)
    ensures r == GitInterfaceStrategies.CleanedDiff(raw)
  {
    var lines := SplitLines(raw);
    var cleaned: seq<string> := [];
    for i := 0 to |lines|
      invariant cleaned == GitInterfaceStrategies.KeptLines(lines[..i])
    {
      var ln := lines[i];
      GitInterfaceStrategies.KeptLinesAppend(lines[..i], [ln]);
      assert lines[..i + 1] == lines[..i] + [ln];
      if StartsWithAny(ln, MetadataPrefixes) {
        continue;
      }
      if ln == NoNewlineSentinel {
        continue;
      }
      cleaned := cleaned + [ln];
    }
    assert lines[..|lines|] == lines;
    r := Join("\n", cleaned);
  }

  /** The byte `%x01` that the log format puts between a commit hash and its subject. */
  const LogSeparator: char := '\U{01}'

  /** What the model knows of the repository: the output of each git command, if it succeeded. */
  datatype Git = Git(
    log: Option<string>,                      // git log -n<n> --pretty=format:%H%x01%s
    diffTree: string -> Option<string>,       // git diff-tree --name-only -r <hash>
    show: (string, string) -> Option<string>, // git show <hash>^:<path>
    diff: (string, string) -> Option<string>) // git diff --unified=0 <hash>^ <hash> -- <path>

  /** `(old_content, diff)` of one changed file. */
  datatype FileChange = FileChange(oldContent: string, diff: string)

  /** `{"desc": message, "files": {...}}` of one commit. */
  datatype CommitInfo = CommitInfo(desc: string, files: Dict<string, FileChange>)

  datatype GitError =
    | GitLogFailed                 // git log failed: the process exits with status 1
    | MalformedLogLine(line: string) // tuple unpacking of a line without `\x01` raises
    | NoCommitsFound               // RuntimeError("No commits found.")

  /** `line.split("\x01", 1)` unpacked into two names, or `None` where the unpacking raises. */
  function SplitCommitLine(line: string): (r: Option<(string, string)>)
    ensures r.None? <==> Lacks(line, LogSeparator)
    ensures r.Some? ==> line == r.value.0 + [LogSeparator] + r.value.1
    ensures r.Some? ==> Lacks(r.value.0, LogSeparator)
  {
    match IndexOf(line, LogSeparator)
    case None => None
    case Some(i) =>
      assert line == line[..i] + [LogSeparator] + line[i + 1..];
      Some((line[..i], line[i + 1..]))
  }

  /** The split is at the first separator: a hash without one and any message come back intact. */
  lemma SplitAtFirstSeparator(hash: string, message: string)
    requires Lacks(hash, LogSeparator)
    ensures SplitCommitLine(hash + [LogSeparator] + message) == Some((hash, message))
  {
    var line := hash + [LogSeparator] + message;
    assert line[|hash|] == LogSeparator;
    var i := IndexOf(line, LogSeparator);
    assert i.Some? && i.value == |hash| by {
      assert forall j :: 0 <= j < |hash| ==> line[j] == hash[j];
    }
    assert line[..|hash|] == hash;
    assert line[|hash| + 1..] == message;
  }

  /** The files of a commit: the lines `diff-tree` printed, or none when it failed. */
  function FilesOf(git: Git, hash: string): seq<string> {
    match git.diffTree(hash)
    case None => []
    case Some(out) => SplitLines(out)
  }

  /** What is recorded for one file: missing content and missing diffs become `""`. */
  function FileChangeFor(git: Git, hash: string, path: string): FileChange {
    FileChange(
      git.show(hash, path).GetOr(""),
      match git.diff(hash, path)
      case None => ""
      case Some(raw) => GitInterfaceStrategies.CleanedDiff(raw))
  }

  /** Failed lookups fall back to empty values; a diff that is there is always cleaned. */
  lemma FailedLookupsDefault(git: Git, hash: string, path: string)
    ensures git.diffTree(hash).None? ==> FilesOf(git, hash) == []
    ensures git.show(hash, path).None? ==> FileChangeFor(git, hash, path).oldContent == ""
    ensures git.show(hash, path).Some? ==>
      FileChangeFor(git, hash, path).oldContent == git.show(hash, path).value
    ensures git.diff(hash, path).None? ==> FileChangeFor(git, hash, path).diff == ""
    ensures forall ln :: ln in SplitLines(FileChangeFor(git, hash, path).diff) ==>
      !StartsWithAny(ln, MetadataPrefixes) && ln != NoNewlineSentinel
  {
    var d := FileChangeFor(git, hash, path).diff;
    match git.diff(hash, path)
    case None =>
    case Some(raw) =>
      GitInterfaceStrategies.CleanedDiffLines(raw);
      var kept := GitInterfaceStrategies.KeptLines(SplitLines(raw));
      forall ln | ln in SplitLines(d) ensures GitInterfaceStrategies.KeepLine(ln) {
        var k :| 0 <= k < |SplitLines(d)| && SplitLines(d)[k] == ln;
        assert ln == kept[k];
      }
  }

  /** The `files` dict of a commit after its first `|paths|` files have been recorded. */
  function CommitFiles(git: Git, hash: string, paths: seq<string>): Dict<string, FileChange>
    decreases |paths|
  {
    if paths == [] then []
    else
      var n := |paths| - 1;
      Put(CommitFiles(git, hash, paths[..n]), paths[n], FileChangeFor(git, hash, paths[n]))
  }

  /** Every listed file is recorded once, with its looked-up change, and nothing else is. */
  lemma {:induction false} CommitFilesGet(git: Git, hash: string, paths: seq<string>, p: string)
    ensures Get(CommitFiles(git, hash, paths), p)
      == if p in paths then Some(FileChangeFor(git, hash, p)) else None
    ensures DistinctKeys(CommitFiles(git, hash, paths))
    decreases |paths|
  {
    if paths != [] {
      var n := |paths| - 1;
      CommitFilesGet(git, hash, paths[..n], p);
      PutGet(CommitFiles(git, hash, paths[..n]), paths[n], FileChangeFor(git, hash, paths[n]), p);
      PutDistinct(CommitFiles(git, hash, paths[..n]), paths[n], FileChangeFor(git, hash, paths[n]));
      assert paths == paths[..n] + [paths[n]];
    }
  }

  /** The commit recorded for a log line with hash `hash` and subject `message`. */
  function CommitFor(git: Git, hash: string, message: string): CommitInfo {
    CommitInfo(message, CommitFiles(git, hash, FilesOf(git, hash)))
  }

  /** A log line that makes the unpacking raise: not blank, yet without a separator. */
  predicate Malformed(line: string) {
    !IsBlank(line) && Lacks(line, LogSeparator)
  }

  /** One iteration of the loop over the log lines. */
  function Step(git: Git, acc: Result<Dict<string, CommitInfo>, GitError>, line: string)
    : Result<Dict<string, CommitInfo>, GitError>
  {
    match acc
    case Err(e) => Err(e)
    case Ok(commits) =>
      if IsBlank(line) then Ok(commits)
      else match SplitCommitLine(line)
        case None => Err(MalformedLogLine(line))
        case Some(hm) => Ok(Put(commits, hm.0, CommitFor(git, hm.0, hm.1)))
  }

  /** The `commits` dict after the given log lines, or the error one of them raised. */
  function ParseLog(git: Git, lines: seq<string>): Result<Dict<string, CommitInfo>, GitError>
    decreases |lines|
  {
    if lines == [] then Ok([])
    else Step(git, ParseLog(git, lines[..|lines| - 1]), lines[|lines| - 1])
  }

  /** `get_git_commits`: the parsed commits, or the way it fails. */
  function GitCommits(git: Git): Result<Dict<string, CommitInfo>, GitError> {
    match git.log
    case None => Err(GitLogFailed)
    case Some(raw) =>
      match ParseLog(git, SplitLines(raw))
      case Err(e) => Err(e)
      case Ok(commits) => if commits == [] then Err(NoCommitsFound) else Ok(commits)
  }

  /** The loop over the log lines, one line at a time. */
  lemma ParseLogLast(git: Git, lines: seq<string>)
    requires lines != []
    ensures ParseLog(git, lines) == Step(git, ParseLog(git, lines[..|lines| - 1]), lines[|lines| - 1])
  {
  }

  /** A line read after an error changes nothing. */
  lemma ParseLogAfterError(git: Git, lines: seq<string>)
    requires lines != [] && ParseLog(git, lines[..|lines| - 1]).Err?
    ensures ParseLog(git, lines) == ParseLog(git, lines[..|lines| - 1])
  {
  }

  /** Once a line has raised, the later lines change nothing. */
  lemma {:induction false} ParseLogErrorSticks(git: Git, lines: seq<string>, n: nat)
    requires n <= |lines| && ParseLog(git, lines[..n]).Err?
    ensures ParseLog(git, lines) == ParseLog(git, lines[..n])
    decreases |lines|
  {
    if n < |lines| {
      var prefix := lines[..|lines| - 1];
      assert prefix[..n] == lines[..n];
      ParseLogErrorSticks(git, prefix, n);
      ParseLogAfterError(git, lines);
    } else {
      assert lines[..n] == lines;
    }
  }

  /**
   * Parsing fails exactly when some line is malformed, and the error names the first such line.
   */
  lemma {:induction false} ParseLogFails(git: Git, lines: seq<string>)
    ensures ParseLog(git, lines).Err? <==> exists k :: 0 <= k < |lines| && Malformed(lines[k])
    ensures ParseLog(git, lines).Err? ==>
      exists k :: 0 <= k < |lines| && Malformed(lines[k])
        && ParseLog(git, lines).error == MalformedLogLine(lines[k])
        && forall j :: 0 <= j < k ==> !Malformed(lines[j])
    decreases |lines|
  {
    if lines != [] {
      var n := |lines| - 1;
      var prefix := lines[..n];
      ParseLogFails(git, prefix);
      assert forall k :: 0 <= k < n ==> prefix[k] == lines[k];
      if ParseLog(git, prefix).Err? {
        var k :| 0 <= k < n && Malformed(prefix[k])
          && ParseLog(git, prefix).error == MalformedLogLine(prefix[k])
          && forall j :: 0 <= j < k ==> !Malformed(prefix[j]);
        assert Malformed(lines[k]);
      } else if Malformed(lines[n]) {
        assert forall j :: 0 <= j < n ==> !Malformed(lines[j]);
      } else {
        assert forall k :: 0 <= k <= n ==> !Malformed(lines[k]);
      }
    }
  }

  /** A blank log line changes nothing. */
  lemma BlankLineSkipped(git: Git, lines: seq<string>, line: string)
    requires IsBlank(line)
    ensures ParseLog(git, lines + [line]) == ParseLog(git, lines)
  {
    assert (lines + [line])[..|lines|] == lines;
  }

  /** The hashes of the non-blank, well-formed log lines, in log order. */
  function Hashes(lines: seq<string>): seq<string>
    decreases |lines|
  {
    if lines == [] then []
    else
      var n := |lines| - 1;
      var rest := Hashes(lines[..n]);
      if IsBlank(lines[n]) then rest
      else match SplitCommitLine(lines[n])
        case None => rest
        case Some(hm) => rest + [hm.0]
  }

  /** After a successful parse the commits are keyed by exactly the hashes of the log, once each. */
  lemma {:induction false} ParseLogKeys(git: Git, lines: seq<string>, h: string)
    requires ParseLog(git, lines).Ok?
    ensures h in Keys(ParseLog(git, lines).value) <==> h in Hashes(lines)
    ensures DistinctKeys(ParseLog(git, lines).value)
    decreases |lines|
  {
    if lines != [] {
      var n := |lines| - 1;
      var prefix := lines[..n];
      assert ParseLog(git, prefix).Ok?;
      ParseLogKeys(git, prefix, h);
      var commits := ParseLog(git, prefix).value;
      if !IsBlank(lines[n]) {
        var hm := SplitCommitLine(lines[n]).value;
        PutKeys(commits, hm.0, CommitFor(git, hm.0, hm.1));
        PutDistinct(commits, hm.0, CommitFor(git, hm.0, hm.1));
      }
    }
  }

  /** Each element once, where it first occurs: the key order of a dict assigned in this order. */
  function FirstOccurrences(xs: seq<string>): seq<string>
    decreases |xs|
  {
    if xs == [] then []
    else
      var n := |xs| - 1;
      var r := FirstOccurrences(xs[..n]);
      if xs[n] in r then r else r + [xs[n]]
  }

  /**
   * The commits are in the order their hashes first appear in the log: a duplicate line keeps
   * the place of the first one.
   */
  lemma {:induction false} ParseLogKeyOrder(git: Git, lines: seq<string>)
    requires ParseLog(git, lines).Ok?
    ensures Keys(ParseLog(git, lines).value) == FirstOccurrences(Hashes(lines))
    decreases |lines|
  {
    if lines != [] {
      var n := |lines| - 1;
      var prefix := lines[..n];
      assert ParseLog(git, prefix).Ok?;
      ParseLogKeyOrder(git, prefix);
      var commits := ParseLog(git, prefix).value;
      if !IsBlank(lines[n]) {
        var hm := SplitCommitLine(lines[n]).value;
        var hs := Hashes(prefix) + [hm.0];
        assert hs[..|hs| - 1] == Hashes(prefix);
        PutKeys(commits, hm.0, CommitFor(git, hm.0, hm.1));
      }
    }
  }

  /** `shas = list(commits.keys())` lists the hashes of `git log` in the order they first appear. */
  lemma GitCommitsKeyOrder(git: Git)
    requires GitCommits(git).Ok?
    ensures git.log.Some?
    ensures Keys(GitCommits(git).value) == FirstOccurrences(Hashes(SplitLines(git.log.value)))
  {
    GitCommitsNonEmpty(git);
    ParseLogKeyOrder(git, SplitLines(git.log.value));
  }

  /**
   * A commit holds the subject from the last log line with its hash and the files git reports
   * for it: a later line with the same hash overwrites an earlier one.
   */
  lemma {:induction false} LastLineWins(git: Git, lines: seq<string>, k: nat, hash: string,
                                        message: string)
    requires ParseLog(git, lines).Ok?
    requires k < |lines| && !IsBlank(lines[k]) && SplitCommitLine(lines[k]) == Some((hash, message))
    requires forall j :: k < j < |lines| && !IsBlank(lines[j]) ==>
      SplitCommitLine(lines[j]).None? || SplitCommitLine(lines[j]).value.0 != hash
    ensures Get(ParseLog(git, lines).value, hash) == Some(CommitFor(git, hash, message))
    decreases |lines|
  {
    var n := |lines| - 1;
    var prefix := lines[..n];
    ParseLogLast(git, lines);
    assert ParseLog(git, prefix).Ok?;
    var commits := ParseLog(git, prefix).value;
    if k < n {
      assert forall j :: k < j < n ==> prefix[j] == lines[j];
      assert prefix[k] == lines[k];
      LastLineWins(git, prefix, k, hash, message);
      if !IsBlank(lines[n]) {
        var hm := SplitCommitLine(lines[n]).value;
        assert hm.0 != hash;
        assert ParseLog(git, lines).value == Put(commits, hm.0, CommitFor(git, hm.0, hm.1));
        PutGet(commits, hm.0, CommitFor(git, hm.0, hm.1), hash);
      } else {
        assert ParseLog(git, lines).value == commits;
      }
    } else {
      assert ParseLog(git, lines).value == Put(commits, hash, CommitFor(git, hash, message));
      PutGet(commits, hash, CommitFor(git, hash, message), hash);
    }
  }

  /** A successful `get_git_commits` returns at least one commit. */
  lemma GitCommitsNonEmpty(git: Git)
    ensures GitCommits(git).Ok? ==> GitCommits(git).value != []
    ensures GitCommits(git).Ok? ==> git.log.Some? && ParseLog(git, SplitLines(git.log.value)).Ok?
    ensures git.log.Some? && ParseLog(git, SplitLines(git.log.value)) == Ok([]) ==>
      GitCommits(git) == Err(NoCommitsFound)
  {
  }

  /** An empty or all-blank log yields "No commits found." rather than an empty result. */
  lemma {:induction false} BlankLogHasNoCommits(git: Git, lines: seq<string>)
    requires forall k :: 0 <= k < |lines| ==> IsBlank(lines[k])
    ensures ParseLog(git, lines) == Ok([])
    decreases |lines|
  {
    if lines != [] {
      var n := |lines| - 1;
      assert forall k :: 0 <= k < n ==> lines[..n][k] == lines[k];
      BlankLogHasNoCommits(git, lines[..n]);
    }
  }

  /** `get_git_commits`, with the git processes replaced by their recorded outputs. */
  method GetGitCommits(git: Git) returns (r: Result<Dict<string, CommitInfo>, GitError>)
    ensures r == GitCommits(git)
  {
    if git.log.None? {
      return Err(GitLogFailed);
    }
    var lines := SplitLines(git.log.value);
    var commits: Dict<string, CommitInfo> := [];
    for i := 0 to |lines|
      invariant ParseLog(git, lines[..i]) == Ok(commits)
    {
      var line := lines[i];
      assert lines[..i + 1][..i] == lines[..i];
      if IsBlank(line) {
        continue;
      }
      var parts := SplitCommitLine(line);
      if parts.None? {
        ParseLogErrorSticks(git, lines, i + 1);
        return Err(MalformedLogLine(line));
      }
      var hash, message := parts.value.0, parts.value.1;
      var before := commits;
      commits := Put(commits, hash, CommitInfo(message, []));
      var files := FilesOf(git, hash);
      for j := 0 to |files|
        invariant commits == Put(before, hash, CommitInfo(message, CommitFiles(git, hash, files[..j])))
      {
        var fpath := files[j];
        var oldContent := git.show(hash, fpath).GetOr("");
        var diff := "";
        match git.diff(hash, fpath) {
          case None =>
          case Some(raw) =>
            diff := CleanDiff(raw);
        }
        var info := CommitInfo(message, CommitFiles(git, hash, files[..j]));
        PutGet(before, hash, info, hash);
        info := Get(commits, hash).value;
        commits := Put(commits, hash, info.(files := Put(info.files, fpath, FileChange(oldContent, diff))));
        PutTwice(before, hash, CommitInfo(message, CommitFiles(git, hash, files[..j])), info.(files := Put(info.files, fpath, FileChange(oldContent, diff))));
        assert files[..j + 1][..j] == files[..j];
      }
      assert files[..|files|] == files;
    }
    assert lines[..|lines|] == lines;
    if commits == [] {
      return Err(NoCommitsFound);
    }
    return Ok(commits);
  }
}
