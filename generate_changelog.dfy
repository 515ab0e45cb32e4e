/**
 * The sequential pipeline: per commit, turn the changed files into summary prompts, ask the model
 * for a summary of each, combine them into one commit changelog, and finally combine the
 * commit changelogs into one release changelog.
 */
module GenerateChangelog {
  import opened Wrappers
  import opened Text
  import opened Dicts
  import opened ChangelogPromptFormatters
  import ExtractGitCommits
  import ModelInterface

  type FileChange = ExtractGitCommits.FileChange
  type CommitInfo = ExtractGitCommits.CommitInfo

  // ---- _lines ----

  /** How many of the lines have something besides whitespace. */
  function CountNonBlank(lines: seq<string>): (n: nat)
    ensures n <= |lines|
    ensures n == 0 <==> forall k :: 0 <= k < |lines| ==> IsBlank(lines[k])
    decreases |lines|
  {
    if lines == [] then 0
    else (if IsBlank(lines[0]) then 0 else 1) + CountNonBlank(lines[1..])
  }

  /** `_lines(diff)`: the number of lines of `diff` whose `strip()` is not empty. */
  function LineCount(diff: string): nat {
    CountNonBlank(SplitLines(diff))
  }

  /** `_lines` never exceeds the line count, and is 0 exactly for a text of blank lines. */
  lemma LineCountBounds(diff: string)
    ensures LineCount(diff) <= |SplitLines(diff)|
    ensures LineCount(diff) == 0 <==> forall k :: 0 <= k < |SplitLines(diff)| ==> IsBlank(SplitLines(diff)[k])
    ensures LineCount("") == 0
  {
  }

  // ---- build_file_change_prompts ----

  /** Files with fewer non-blank lines than this are skipped. */
  const SkipBelow: nat := 5
  /** Files with fewer lines than this (and at least `SkipBelow`) are carried over. */
  const CarryBelow: nat := 10
  /** The carried files are flushed once their lines exceed this total. */
  const FlushAbove: nat := 1000

  /** `carry_over`: the paths and the diffs of the files waiting to be combined. */
  datatype Carry = Carry(paths: seq<string>, diffs: seq<string>)

  /** The state of the loop: the prompts so far and the carried files. */
  datatype Plan = Plan(prompts: seq<string>, carry: Carry)

  const Fresh: Plan := Plan([], Carry([], []))

  /** `sum(_lines(i) for i in carry_over[1])` */
  function CarriedLines(diffs: seq<string>): nat
    decreases |diffs|
  {
    if diffs == [] then 0
    else CarriedLines(diffs[..|diffs| - 1]) + LineCount(diffs[|diffs| - 1])
  }

  /** The combined prompt: the carried paths and diffs joined by newlines, with no changes. */
  function Flush(c: Carry): string {
    FileChangeSummaryPrompt(Join("\n", c.paths), Join("\n", c.diffs), "")
  }

  /** One iteration of the loop over a commit's files. */
  function PlanStep(p: Plan, path: string, fc: FileChange): Plan {
    var n := LineCount(fc.diff);
    if n < SkipBelow then p
    else if n < CarryBelow then
      var c := Carry(p.carry.paths + [path], p.carry.diffs + [fc.diff]);
      if CarriedLines(c.diffs) > FlushAbove then Plan(p.prompts + [Flush(c)], Carry([], []))
      else Plan(p.prompts, c)
    else Plan(p.prompts + [FileChangeSummaryPrompt(path, fc.oldContent, fc.diff)], p.carry)
  }

  /** The loop run from state `p` over `files`, in dict order. */
  function Run(p: Plan, files: Dict<string, FileChange>): Plan
    decreases |files|
  {
    if files == [] then p
    else
      var n := |files| - 1;
      PlanStep(Run(p, files[..n]), files[n].0, files[n].1)
  }

  /** What `build_file_change_prompts` returns: the prompts; whatever is still carried is lost. */
  function FilePrompts(files: Dict<string, FileChange>): seq<string> {
    Run(Fresh, files).prompts
  }

  lemma RunLast(p: Plan, files: Dict<string, FileChange>, path: string, fc: FileChange)
    ensures Run(p, files + [(path, fc)]) == PlanStep(Run(p, files), path, fc)
  {
    assert (files + [(path, fc)])[..|files|] == files;
  }

  /** Running over two parts runs over the first and continues from there with the second. */
  lemma {:induction false} RunAppend(p: Plan, a: Dict<string, FileChange>, b: Dict<string, FileChange>)
    ensures Run(p, a + b) == Run(Run(p, a), b)
    decreases |b|
  {
    if b == [] {
      assert a + b == a;
    } else {
      var n := |b| - 1;
      RunAppend(p, a, b[..n]);
      assert a + b == (a + b[..n]) + [b[n]];
      assert b == b[..n] + [b[n]];
      RunLast(p, a + b[..n], b[n].0, b[n].1);
      RunLast(Run(p, a), b[..n], b[n].0, b[n].1);
    }
  }

  /** A file with fewer than five non-blank lines contributes nothing, wherever it is. */
  lemma SkippedFileIgnored(p: Plan, a: Dict<string, FileChange>, path: string, fc: FileChange,
                           b: Dict<string, FileChange>)
    requires LineCount(fc.diff) < SkipBelow
    ensures Run(p, a + [(path, fc)] + b) == Run(p, a + b)
  {
    RunAppend(p, a + [(path, fc)], b);
    RunAppend(p, a, b);
    RunLast(p, a, path, fc);
  }

  /** A file with ten or more lines adds its own prompt at the end and leaves the carry alone. */
  lemma LargeFileOwnPrompt(p: Plan, a: Dict<string, FileChange>, path: string, fc: FileChange)
    requires LineCount(fc.diff) >= CarryBelow
    ensures Run(p, a + [(path, fc)]) == Plan(
      Run(p, a).prompts + [FileChangeSummaryPrompt(path, fc.oldContent, fc.diff)], Run(p, a).carry)
  {
    RunLast(p, a, path, fc);
  }

  /** A file of five to nine lines. */
  predicate InBand(diff: string) {
    SkipBelow <= LineCount(diff) < CarryBelow
  }

  /** What holds of the carry between iterations. */
  predicate CarryOk(c: Carry) {
    && |c.paths| == |c.diffs|
    && (forall k :: 0 <= k < |c.diffs| ==> InBand(c.diffs[k]))
    && CarriedLines(c.diffs) <= FlushAbove
  }

  /** Between two iterations the carry holds only five-to-nine-line files, at most 1000 lines. */
  lemma {:induction false} CarryStaysOk(files: Dict<string, FileChange>)
    ensures CarryOk(Run(Fresh, files).carry)
    decreases |files|
  {
    if files != [] {
      var n := |files| - 1;
      CarryStaysOk(files[..n]);
      var c := Run(Fresh, files[..n]).carry;
      var d := files[n].1.diff;
      if InBand(d) {
        var ds := c.diffs + [d];
        assert ds[..|ds| - 1] == c.diffs;
        assert forall k :: 0 <= k < |ds| ==> InBand(ds[k]);
      }
    }
  }

  /** Carried files have between five and nine lines each. */
  lemma {:induction false} CarriedLinesBand(diffs: seq<string>)
    requires forall k :: 0 <= k < |diffs| ==> InBand(diffs[k])
    ensures SkipBelow * |diffs| <= CarriedLines(diffs) <= (CarryBelow - 1) * |diffs|
    decreases |diffs|
  {
    if diffs != [] {
      var n := |diffs| - 1;
      assert forall k :: 0 <= k < n ==> diffs[..n][k] == diffs[k];
      CarriedLinesBand(diffs[..n]);
      assert InBand(diffs[n]);
    }
  }

  /** A carry that one more five-to-nine-line file takes over 1000 lines holds at least 111 files. */
  lemma FlushNeedsManyFiles(p: Plan, path: string, fc: FileChange)
    requires CarryOk(p.carry) && InBand(fc.diff)
    requires CarriedLines(p.carry.diffs + [fc.diff]) > FlushAbove
    ensures |p.carry.diffs| + 1 >= 112
  {
    var ds := p.carry.diffs + [fc.diff];
    assert forall k :: 0 <= k < |ds| ==> InBand(ds[k]);
    CarriedLinesBand(ds);
  }

  /**
   * A five-to-nine-line file that takes the carried total over 1000 lines appends the combined
   * prompt of the carried files and itself, and empties the carry; at least 112 files go in.
   */
  lemma FlushOnOverflow(a: Dict<string, FileChange>, path: string, fc: FileChange)
    requires InBand(fc.diff)
    requires CarriedLines(Run(Fresh, a).carry.diffs + [fc.diff]) > FlushAbove
    ensures var p := Run(Fresh, a);
      && Run(Fresh, a + [(path, fc)]) == Plan(
        p.prompts + [Flush(Carry(p.carry.paths + [path], p.carry.diffs + [fc.diff]))], Carry([], []))
      && |p.carry.paths| + 1 >= 112
  {
    RunLast(Fresh, a, path, fc);
    CarryStaysOk(a);
    FlushNeedsManyFiles(Run(Fresh, a), path, fc);
  }

  /** A five-to-nine-line file that keeps the total at most 1000 lines is carried, with no prompt. */
  lemma CarriedWithoutOverflow(a: Dict<string, FileChange>, path: string, fc: FileChange)
    requires InBand(fc.diff)
    requires CarriedLines(Run(Fresh, a).carry.diffs + [fc.diff]) <= FlushAbove
    ensures var p := Run(Fresh, a);
      Run(Fresh, a + [(path, fc)])
        == Plan(p.prompts, Carry(p.carry.paths + [path], p.carry.diffs + [fc.diff]))
  {
    RunLast(Fresh, a, path, fc);
  }

  /**
   * A file under ten lines adds a prompt only as a flush: it is a five-to-nine-line file, the
   * prompt combines it with the carried files, the carry is left empty, and at least 112 files
   * went into the prompt.
   */
  lemma BandPromptIsFlush(a: Dict<string, FileChange>, path: string, fc: FileChange)
    requires LineCount(fc.diff) < CarryBelow
    requires |Run(Fresh, a + [(path, fc)]).prompts| > |Run(Fresh, a).prompts|
    ensures var p := Run(Fresh, a);
      && InBand(fc.diff)
      && Run(Fresh, a + [(path, fc)]) == Plan(
        p.prompts + [Flush(Carry(p.carry.paths + [path], p.carry.diffs + [fc.diff]))], Carry([], []))
      && |p.carry.paths| + 1 >= 112
  {
    RunLast(Fresh, a, path, fc);
    BandStepAddsOnlyFlush(Run(Fresh, a), path, fc);
    FlushOnOverflow(a, path, fc);
  }

  lemma BandStepAddsOnlyFlush(p: Plan, path: string, fc: FileChange)
    requires LineCount(fc.diff) < CarryBelow
    requires |PlanStep(p, path, fc).prompts| > |p.prompts|
    ensures InBand(fc.diff) && CarriedLines(p.carry.diffs + [fc.diff]) > FlushAbove
  {
  }

  /**
   * Every prompt uses up at least one file that is not still carried, so there are never more
   * prompts than files; earlier prompts are never changed.
   */
  lemma {:induction false} PromptBound(p: Plan, files: Dict<string, FileChange>)
    ensures |Run(p, files).prompts| + |Run(p, files).carry.paths|
      <= |p.prompts| + |p.carry.paths| + |files|
    ensures p.prompts <= Run(p, files).prompts
    decreases |files|
  {
    if files != [] {
      PromptBound(p, files[..|files| - 1]);
    }
  }

  lemma PromptsFewerThanFiles(files: Dict<string, FileChange>)
    ensures |FilePrompts(files)| <= |files|
  {
    PromptBound(Fresh, files);
  }

  // A reference description for the case where no combined prompt is due.

  /** The prompts of the files with ten or more lines, in order. */
  function LargePrompts(files: Dict<string, FileChange>): seq<string>
    decreases |files|
  {
    if files == [] then []
    else
      var n := |files| - 1;
      var fc := files[n].1;
      LargePrompts(files[..n])
        + if LineCount(fc.diff) >= CarryBelow
          then [FileChangeSummaryPrompt(files[n].0, fc.oldContent, fc.diff)] else []
  }

  /** The paths and diffs of the five-to-nine-line files, in order. */
  function BandFiles(files: Dict<string, FileChange>): Carry
    decreases |files|
  {
    if files == [] then Carry([], [])
    else
      var n := |files| - 1;
      var c := BandFiles(files[..n]);
      if InBand(files[n].1.diff) then Carry(c.paths + [files[n].0], c.diffs + [files[n].1.diff])
      else c
  }

  /**
   * As long as the five-to-nine-line files total at most 1000 lines, they are all carried and
   * every larger file has its own prompt, in order.
   */
  lemma {:induction false} PlanWithoutFlush(files: Dict<string, FileChange>)
    requires CarriedLines(BandFiles(files).diffs) <= FlushAbove
    ensures Run(Fresh, files) == Plan(LargePrompts(files), BandFiles(files))
    decreases |files|
  {
    if files != [] {
      var n := |files| - 1;
      var c := BandFiles(files[..n]);
      if InBand(files[n].1.diff) {
        var ds := c.diffs + [files[n].1.diff];
        assert ds[..|ds| - 1] == c.diffs;
      }
      PlanWithoutFlush(files[..n]);
    }
  }

  lemma {:induction false} NoLargePrompts(files: Dict<string, FileChange>)
    requires forall k :: 0 <= k < |files| ==> InBand(files[k].1.diff)
    ensures LargePrompts(files) == []
    decreases |files|
  {
    if files != [] {
      var n := |files| - 1;
      var prefix := files[..n];
      assert forall k :: 0 <= k < n ==> InBand(prefix[k].1.diff) by {
        assert forall k :: 0 <= k < n ==> prefix[k] == files[k];
      }
      NoLargePrompts(prefix);
      assert InBand(files[n].1.diff);
    }
  }

  lemma BandFilesLast(files: Dict<string, FileChange>)
    requires files != [] && InBand(files[|files| - 1].1.diff)
    ensures BandFiles(files).paths == BandFiles(files[..|files| - 1]).paths + [files[|files| - 1].0]
  {
  }

  lemma {:induction false} AllCarried(files: Dict<string, FileChange>)
    requires forall k :: 0 <= k < |files| ==> InBand(files[k].1.diff)
    ensures BandFiles(files).paths == Keys(files)
    decreases |files|
  {
    if files != [] {
      var n := |files| - 1;
      var prefix := files[..n];
      assert forall k :: 0 <= k < n ==> InBand(prefix[k].1.diff) by {
        assert forall k :: 0 <= k < n ==> prefix[k] == files[k];
      }
      AllCarried(prefix);
      assert InBand(files[n].1.diff);
      BandFilesLast(files);
      KeysLast(files);
    }
  }

  /** Carried files that never reach the flush total produce no prompt at all. */
  lemma LeftoverCarryDropped(files: Dict<string, FileChange>)
    requires forall k :: 0 <= k < |files| ==> InBand(files[k].1.diff)
    requires CarriedLines(BandFiles(files).diffs) <= FlushAbove
    ensures FilePrompts(files) == []
    ensures Run(Fresh, files).carry.paths == Keys(files)
  {
    PlanWithoutFlush(files);
    NoLargePrompts(files);
    AllCarried(files);
  }

  /** The three cases of one iteration, each on its own. */
  lemma PlanStepCases(p: Plan, path: string, fc: FileChange)
    ensures LineCount(fc.diff) < SkipBelow ==> PlanStep(p, path, fc) == p
    ensures SkipBelow <= LineCount(fc.diff) < CarryBelow ==>
      var c := Carry(p.carry.paths + [path], p.carry.diffs + [fc.diff]);
      PlanStep(p, path, fc) ==
        if CarriedLines(c.diffs) > FlushAbove then Plan(p.prompts + [Flush(c)], Carry([], []))
        else Plan(p.prompts, c)
    ensures CarryBelow <= LineCount(fc.diff) ==>
      PlanStep(p, path, fc)
        == Plan(p.prompts + [FileChangeSummaryPrompt(path, fc.oldContent, fc.diff)], p.carry)
  {
  }

  /** `build_file_change_prompts(commit)` */
  method BuildFileChangePrompts(commit: CommitInfo) returns (prompts: seq<string>)
    ensures prompts == FilePrompts(commit.files)
  {
    var files := commit.files;
    prompts := [];
    var carryPaths: seq<string>, carryDiffs: seq<string> := [], [];
    for i := 0 to |files|
      invariant Run(Fresh, files[..i]) == Plan(prompts, Carry(carryPaths, carryDiffs))
    {
      var f, oldContent, diff := files[i].0, files[i].1.oldContent, files[i].1.diff;
      ghost var before := Plan(prompts, Carry(carryPaths, carryDiffs));
      assert files[..i + 1] == files[..i] + [(f, files[i].1)];
      RunLast(Fresh, files[..i], f, files[i].1);
      PlanStepCases(before, f, files[i].1);
      if LineCount(diff) < SkipBelow {
        continue;
      }
      if LineCount(diff) < CarryBelow {
        carryPaths := carryPaths + [f];
        carryDiffs := carryDiffs + [diff];
        if CarriedLines(carryDiffs) > FlushAbove {
          prompts := prompts + [FileChangeSummaryPrompt(Join("\n", carryPaths), Join("\n", carryDiffs), "")];
          carryPaths, carryDiffs := [], [];
        }
        continue;
      }
      prompts := prompts + [FileChangeSummaryPrompt(f, oldContent, diff)];
    }
    assert files[..|files|] == files;
  }

  // ---- call_model ----

  /** What the model's `call_model` does with a prompt and a token limit: return text or raise. */
  datatype Reply = Returned(text: Option<string>) | Raised(message: string)

  /** The model behind the `ModelInterface` value, as a function of prompt and `max_tokens`. */
  type LanguageModel = (string, nat) -> Reply

  const DefaultMaxTokens: nat := 4096
  const BatchMaxTokens: nat := 8192

  /** `call_model(model, prompt, max_tokens)`: the model's text, or `None` on any failure. */
  function CallModel(llm: LanguageModel, prompt: string, maxTokens: nat): (r: Option<string>)
    ensures r.Some? <==> llm(prompt, maxTokens).Returned? && llm(prompt, maxTokens).text.Some?
    ensures r.Some? ==> r.value == llm(prompt, maxTokens).text.value
  {
    match llm(prompt, maxTokens)
    case Raised(_) => None
    case Returned(text) => text
  }

  // ---- create_commit_changelog, sequential branch ----

  /**
   * `file_summaries` after the first `|prompts|` prompts: the summary of prompt `idx` is stored
   * under `file_paths[idx]`, and failed calls store nothing.
   */
  function FileSummaries(llm: LanguageModel, prompts: seq<string>, paths: seq<string>)
    : Dict<string, string>
    requires |prompts| <= |paths|
    decreases |prompts|
  {
    if prompts == [] then []
    else
      var n := |prompts| - 1;
      var rest := FileSummaries(llm, prompts[..n], paths);
      match CallModel(llm, prompts[n], DefaultMaxTokens)
      case None => rest
      case Some(summary) => Put(rest, paths[n], summary)
  }

  /** Prompt `idx` got an answer, which is stored under `path`. */
  predicate AnsweredFor(llm: LanguageModel, prompts: seq<string>, paths: seq<string>, path: string,
                        idx: int)
  {
    0 <= idx < |prompts| && idx < |paths| && paths[idx] == path
    && CallModel(llm, prompts[idx], DefaultMaxTokens).Some?
  }

  /** A path has a summary exactly when some prompt with that index got an answer. */
  lemma {:induction false} FileSummariesKeys(llm: LanguageModel, prompts: seq<string>,
                                             paths: seq<string>, path: string)
    requires |prompts| <= |paths|
    ensures path in Keys(FileSummaries(llm, prompts, paths)) <==>
      exists idx :: AnsweredFor(llm, prompts, paths, path, idx)
    decreases |prompts|
  {
    if prompts != [] {
      var n := |prompts| - 1;
      var prefix := prompts[..n];
      FileSummariesKeys(llm, prefix, paths, path);
      var rest := FileSummaries(llm, prefix, paths);
      var answer := CallModel(llm, prompts[n], DefaultMaxTokens);
      var all := FileSummaries(llm, prompts, paths);
      assert all == if answer.Some? then Put(rest, paths[n], answer.value) else rest;
      if answer.Some? {
        PutKeys(rest, paths[n], answer.value);
      }
      assert path in Keys(all) <==> path in Keys(rest) || (answer.Some? && path == paths[n]);
      if path in Keys(all) {
        if path in Keys(rest) {
          var idx :| AnsweredFor(llm, prefix, paths, path, idx);
          assert prefix[idx] == prompts[idx];
          assert AnsweredFor(llm, prompts, paths, path, idx);
        } else {
          assert AnsweredFor(llm, prompts, paths, path, n);
        }
      }
      if exists idx :: AnsweredFor(llm, prompts, paths, path, idx) {
        var idx :| AnsweredFor(llm, prompts, paths, path, idx);
        if idx < n {
          assert prefix[idx] == prompts[idx];
          assert AnsweredFor(llm, prefix, paths, path, idx);
        }
      }
    }
  }

  /** The summary stored under `paths[idx]` is the answer to prompt `idx`, unless a later one wins. */
  lemma {:induction false} FileSummaryAt(llm: LanguageModel, prompts: seq<string>,
                                         paths: seq<string>, idx: nat, summary: string)
    requires |prompts| <= |paths| && idx < |prompts|
    requires CallModel(llm, prompts[idx], DefaultMaxTokens) == Some(summary)
    requires forall j :: idx < j < |prompts| && paths[j] == paths[idx] ==>
      CallModel(llm, prompts[j], DefaultMaxTokens).None?
    ensures Get(FileSummaries(llm, prompts, paths), paths[idx]) == Some(summary)
    decreases |prompts|
  {
    var n := |prompts| - 1;
    var rest := FileSummaries(llm, prompts[..n], paths);
    if idx < n {
      assert forall j :: idx < j < n ==> prompts[..n][j] == prompts[j];
      FileSummaryAt(llm, prompts[..n], paths, idx, summary);
      match CallModel(llm, prompts[n], DefaultMaxTokens)
      case None =>
      case Some(s) =>
        PutGet(rest, paths[n], s, paths[idx]);
    } else {
      PutGet(rest, paths[n], summary, paths[idx]);
    }
  }

  /**
   * Summaries are keyed by prompt index, not by the file the prompt was built from: when the
   * first file is skipped, the second file's summary is filed under the first file's path.
   */
  lemma SummaryKeyedByPromptIndex(llm: LanguageModel, a: string, small: FileChange, b: string,
                                  large: FileChange, summary: string)
    requires LineCount(small.diff) < SkipBelow && LineCount(large.diff) >= CarryBelow
    requires CallModel(llm, FileChangeSummaryPrompt(b, large.oldContent, large.diff),
                       DefaultMaxTokens) == Some(summary)
    ensures FilePrompts([(a, small), (b, large)])
      == [FileChangeSummaryPrompt(b, large.oldContent, large.diff)]
    ensures FileSummaries(llm, FilePrompts([(a, small), (b, large)]), Keys([(a, small), (b, large)]))
      == [(a, summary)]
  {
    var files := [(a, small), (b, large)];
    RunLast(Fresh, [], a, small);
    assert [(a, small)] == [] + [(a, small)];
    assert Run(Fresh, [(a, small)]) == Fresh;
    RunLast(Fresh, [(a, small)], b, large);
    assert files == [(a, small)] + [(b, large)];
    var prompts := FilePrompts(files);
    assert Keys(files)[0] == a;
    assert prompts[..0] == [];
  }

  /** What the sequential `create_commit_changelog` returns. */
  function CommitChangelog(llm: LanguageModel, info: CommitInfo): Option<string> {
    var prompts := FilePrompts(info.files);
    PromptsFewerThanFiles(info.files);
    CallModel(llm, ChangelogPrompt(FileSummaries(llm, prompts, Keys(info.files))), DefaultMaxTokens)
  }

  /** A file written to disk: its name (relative to its output directory) and its text. */
  datatype Written = Written(path: string, content: string)

  /**
   * `create_commit_changelog(..., concurrency=False, ...)`: the commit's changelog, and the
   * `<sha>.md` file written for it unless writing is disabled.
   */
  method CreateCommitChangelog(llm: LanguageModel, info: CommitInfo, sha: string,
                               disableCommitWriting: bool)
    returns (r: Option<string>, write: Option<Written>)
    ensures r == CommitChangelog(llm, info)
    ensures write.Some? <==> r.Some? && !disableCommitWriting
    ensures write.Some? ==> write.value == Written(sha + ".md", r.value)
  {
    var prompts := BuildFileChangePrompts(info);
    var fileSummaries: Dict<string, string> := [];
    var filePaths := Keys(info.files);
    PromptsFewerThanFiles(info.files);
    for idx := 0 to |prompts|
      invariant fileSummaries == FileSummaries(llm, prompts[..idx], filePaths)
    {
      assert prompts[..idx + 1][..idx] == prompts[..idx];
      var summary := CallModel(llm, prompts[idx], DefaultMaxTokens);
      if summary.Some? {
        fileSummaries := Put(fileSummaries, filePaths[idx], summary.value);
      }
    }
    assert prompts[..|prompts|] == prompts;
    var commitPrompt := ChangelogPrompt(fileSummaries);
    r := CallModel(llm, commitPrompt, DefaultMaxTokens);
    write := None;
    if r.Some? && !disableCommitWriting {
      write := Some(Written(sha + ".md", r.value));
    }
  }

  // ---- create_changelog, sequential branch ----

  /** The outcome of a run: the commit changelogs in commit order and the files written. */
  datatype ChangelogRun = ChangelogRun(commitSummaries: seq<string>, writes: seq<Written>)

  datatype ChangelogError =
    | FetchFailed(gitError: ExtractGitCommits.GitError)
    | ModelRejected(modelError: ModelInterface.ModelError)
    // write_text(None) raises when the batch call failed, after the commit files were written
    | BatchSummaryMissing(written: seq<Written>)

  /** The changelog of one commit, as the loop over `shas` sees it. */
  type Summarizer = CommitInfo -> Option<string>

  function CommitSummarizer(llm: LanguageModel): Summarizer {
    info => CommitChangelog(llm, info)
  }

  /**
   * The loop over `shas`: each commit's changelog is appended when it is not `None`, and its
   * `<sha>.md` is written (the call leaves `disable_commit_writing` at its default, `False`).
   */
  function CommitsRun(summarize: Summarizer, commits: Dict<string, CommitInfo>): ChangelogRun
    decreases |commits|
  {
    if commits == [] then ChangelogRun([], [])
    else
      var n := |commits| - 1;
      var rest := CommitsRun(summarize, commits[..n]);
      match summarize(commits[n].1)
      case None => rest
      case Some(s) =>
        ChangelogRun(rest.commitSummaries + [s], rest.writes + [Written(commits[n].0 + ".md", s)])
  }

  /**
   * The commit changelogs come in the order of the commits, one per commit whose changelog did
   * not fail, and each is written to the file named after its commit.
   */
  lemma {:induction false} CommitsRunOrder(summarize: Summarizer, commits: Dict<string, CommitInfo>)
    ensures var run := CommitsRun(summarize, commits);
      && |run.commitSummaries| == |run.writes| <= |commits|
      && forall k :: 0 <= k < |run.writes| ==>
        && run.writes[k].content == run.commitSummaries[k]
        && (exists i :: 0 <= i < |commits| && run.writes[k].path == commits[i].0 + ".md"
              && summarize(commits[i].1) == Some(run.commitSummaries[k]))
    decreases |commits|
  {
    if commits != [] {
      var n := |commits| - 1;
      var prefix := commits[..n];
      CommitsRunOrder(summarize, prefix);
      var rest := CommitsRun(summarize, prefix);
      var run := CommitsRun(summarize, commits);
      forall k | 0 <= k < |run.writes|
        ensures run.writes[k].content == run.commitSummaries[k]
        ensures exists i :: (0 <= i < |commits| && run.writes[k].path == commits[i].0 + ".md"
          && summarize(commits[i].1) == Some(run.commitSummaries[k]))
      {
        if k < |rest.writes| {
          var i :| 0 <= i < |prefix| && rest.writes[k].path == prefix[i].0 + ".md"
            && summarize(prefix[i].1) == Some(rest.commitSummaries[k]);
          assert prefix[i] == commits[i];
          assert run.writes[k] == rest.writes[k] && run.commitSummaries[k] == rest.commitSummaries[k];
        } else {
          assert run.writes[k].path == commits[n].0 + ".md";
        }
      }
    }
  }

  /** One commit gives its changelog and its `<sha>.md` file when it got one, and nothing else. */
  lemma CommitsRunSingle(summarize: Summarizer, sha: string, info: CommitInfo)
    ensures CommitsRun(summarize, [(sha, info)]) == match summarize(info)
      case None => ChangelogRun([], [])
      case Some(s) => ChangelogRun([s], [Written(sha + ".md", s)])
  {
    assert [(sha, info)][..0] == [];
  }

  /**
   * The loop follows `shas`: the run over two parts of the commits is the run over the first part
   * followed by the run over the second, for the changelogs and the files written alike.
   */
  lemma {:induction false} CommitsRunAppend(summarize: Summarizer, a: Dict<string, CommitInfo>,
                                            b: Dict<string, CommitInfo>)
    ensures CommitsRun(summarize, a + b) == ChangelogRun(
      CommitsRun(summarize, a).commitSummaries + CommitsRun(summarize, b).commitSummaries,
      CommitsRun(summarize, a).writes + CommitsRun(summarize, b).writes)
    decreases |b|
  {
    if b == [] {
      assert a + b == a;
    } else {
      var n := |b| - 1;
      var ab := a + b;
      assert ab[..|ab| - 1] == a + b[..n];
      assert ab[|ab| - 1] == b[n];
      CommitsRunAppend(summarize, a, b[..n]);
      var ra, rp := CommitsRun(summarize, a), CommitsRun(summarize, b[..n]);
      match summarize(b[n].1)
      case None =>
      case Some(s) =>
        assert ra.commitSummaries + (rp.commitSummaries + [s])
          == (ra.commitSummaries + rp.commitSummaries) + [s];
        assert ra.writes + (rp.writes + [Written(b[n].0 + ".md", s)])
          == (ra.writes + rp.writes) + [Written(b[n].0 + ".md", s)];
    }
  }

  /** The end of `create_changelog` once commits and model are there: commit loop, then batch. */
  function ChangelogFrom(llm: LanguageModel, commits: Dict<string, CommitInfo>,
                         disableBatchWriting: bool, batchOverride: Option<string>)
    : Result<ChangelogRun, ChangelogError>
    requires commits != []
  {
    var run := CommitsRun(CommitSummarizer(llm), commits);
    if disableBatchWriting then Ok(run)
    else
      var shas := Keys(commits);
      match CallModel(llm, BatchChangelogPrompt(run.commitSummaries), BatchMaxTokens)
      case None => Err(BatchSummaryMissing(run.writes))
      case Some(batch) =>
        var path := batchOverride.GetOr(shas[0] + "-" + shas[|shas| - 1] + ".md");
        Ok(ChangelogRun(run.commitSummaries, run.writes + [Written(path, batch)]))
  }

  /** What the sequential `create_changelog` does, or the error it ends with. */
  function Changelog(git: ExtractGitCommits.Git, apiUrl: string, apiKey: string, model: string,
                     llm: LanguageModel, disableBatchWriting: bool, batchOverride: Option<string>)
    : Result<ChangelogRun, ChangelogError>
  {
    match ExtractGitCommits.GitCommits(git)
    case Err(e) => Err(FetchFailed(e))
    case Ok(commits) =>
      match ModelInterface.GetModel(Some(apiUrl), Some(apiKey), Some(model))
      case Err(e) => Err(ModelRejected(e))
      case Ok(_) =>
        ExtractGitCommits.GitCommitsNonEmpty(git);
        ChangelogFrom(llm, commits, disableBatchWriting, batchOverride)
  }

  /**
   * The batch step: with batch writing off, the commit loop alone; otherwise no answer to the batch
   * prompt is an error that comes after every commit file has been written, and an answer is one
   * more file, named by the override or by the first and last of `shas`.
   */
  lemma ChangelogFromOutcome(llm: LanguageModel, commits: Dict<string, CommitInfo>,
                             disableBatchWriting: bool, batchOverride: Option<string>)
    requires commits != []
    ensures var r := ChangelogFrom(llm, commits, disableBatchWriting, batchOverride);
      var run := CommitsRun(CommitSummarizer(llm), commits);
      var batch := CallModel(llm, BatchChangelogPrompt(run.commitSummaries), BatchMaxTokens);
      var shas := Keys(commits);
      var name := shas[0] + "-" + shas[|shas| - 1] + ".md";
      && (disableBatchWriting ==> r == Ok(run))
      && (!disableBatchWriting && batch.None? ==> r == Err(BatchSummaryMissing(run.writes)))
      && (!disableBatchWriting && batch.Some? ==>
            r == Ok(ChangelogRun(run.commitSummaries,
                                 run.writes + [Written(batchOverride.GetOr(name), batch.value)])))
  {
  }

  /**
   * Fetching fails before the model is chosen and an unsupported model is refused; past those two,
   * the run ends as `ChangelogFromOutcome` says, on a non-empty commits dict. The run succeeds
   * exactly when fetching succeeds, the model is supported, and batch writing is off or the batch
   * prompt got an answer.
   */
  lemma ChangelogOutcome(git: ExtractGitCommits.Git, apiUrl: string, apiKey: string,
                         model: string, llm: LanguageModel, disableBatchWriting: bool,
                         batchOverride: Option<string>)
    ensures var r := Changelog(git, apiUrl, apiKey, model, llm, disableBatchWriting, batchOverride);
      var fetched := ExtractGitCommits.GitCommits(git);
      var supported := Contains(Lower(model), ModelInterface.ClaudeFamily);
      && (fetched.Err? ==> r == Err(FetchFailed(fetched.error)))
      && (fetched.Ok? && !supported ==> r == Err(ModelRejected(ModelInterface.UnsupportedModel(model))))
      && (fetched.Ok? && supported ==>
            fetched.value != [] && r == ChangelogFrom(llm, fetched.value, disableBatchWriting, batchOverride))
    ensures var r := Changelog(git, apiUrl, apiKey, model, llm, disableBatchWriting, batchOverride);
      var fetched := ExtractGitCommits.GitCommits(git);
      r.Ok? <==> (
        && fetched.Ok?
        && Contains(Lower(model), ModelInterface.ClaudeFamily)
        && (disableBatchWriting || CallModel(llm,
              BatchChangelogPrompt(CommitsRun(CommitSummarizer(llm), fetched.value).commitSummaries),
              BatchMaxTokens).Some?))
  {
    ModelInterface.GetModelOutcome(Some(apiUrl), Some(apiKey), Some(model));
    ExtractGitCommits.GitCommitsNonEmpty(git);
    var fetched := ExtractGitCommits.GitCommits(git);
    if fetched.Ok? {
      ChangelogFromOutcome(llm, fetched.value, disableBatchWriting, batchOverride);
    }
  }

  /** The commit loop after one more commit. */
  lemma CommitsRunStep(summarize: Summarizer, commits: Dict<string, CommitInfo>, i: nat)
    requires i < |commits|
    ensures var rest := CommitsRun(summarize, commits[..i]);
      CommitsRun(summarize, commits[..i + 1]) == match summarize(commits[i].1)
        case None => rest
        case Some(s) =>
          ChangelogRun(rest.commitSummaries + [s], rest.writes + [Written(commits[i].0 + ".md", s)])
  {
    assert commits[..i + 1][..i] == commits[..i];
  }

  /** The sequential loop of `create_changelog` over `shas = list(commits.keys())`. */
  method SummarizeCommits(llm: LanguageModel, commits: Dict<string, CommitInfo>)
    returns (run: ChangelogRun)
    requires DistinctKeys(commits)
    ensures run == CommitsRun(CommitSummarizer(llm), commits)
  {
    var shas := Keys(commits);
    var commitSummaries: seq<string> := [];
    var writes: seq<Written> := [];
    for i := 0 to |shas|
      invariant CommitsRun(CommitSummarizer(llm), commits[..i]) == ChangelogRun(commitSummaries, writes)
    {
      var sha := shas[i];
      GetAt(commits, i);
      var info := Get(commits, sha).value;
      CommitsRunStep(CommitSummarizer(llm), commits, i);
      var commitSummary, write := CreateCommitChangelog(llm, info, sha, false);
      assert CommitSummarizer(llm)(commits[i].1) == commitSummary;
      if commitSummary.Some? {
        commitSummaries := commitSummaries + [commitSummary.value];
        writes := writes + [write.value];
      }
    }
    assert commits[..|commits|] == commits;
    run := ChangelogRun(commitSummaries, writes);
  }

  /** The commit loop and the batch summary of `create_changelog`. */
  method FinishChangelog(llm: LanguageModel, commits: Dict<string, CommitInfo>,
                         disableBatchWriting: bool, batchOverride: Option<string>)
    returns (r: Result<ChangelogRun, ChangelogError>)
    requires commits != [] && DistinctKeys(commits)
    ensures r == ChangelogFrom(llm, commits, disableBatchWriting, batchOverride)
  {
    var shas := Keys(commits);
    var run := SummarizeCommits(llm, commits);
    if !disableBatchWriting {
      var firstSha, lastSha := shas[0], shas[|shas| - 1];
      var batchPrompt := BatchChangelogPrompt(run.commitSummaries);
      var batchSummary := CallModel(llm, batchPrompt, BatchMaxTokens);
      if batchSummary.None? {
        return Err(BatchSummaryMissing(run.writes));
      }
      var batchFile := batchOverride.GetOr(firstSha + "-" + lastSha + ".md");
      run := ChangelogRun(run.commitSummaries, run.writes + [Written(batchFile, batchSummary.value)]);
    }
    return Ok(run);
  }

  /** `create_changelog(..., concurrency=False, ...)` */
  method CreateChangelog(git: ExtractGitCommits.Git, apiUrl: string, apiKey: string,
                         model: string, llm: LanguageModel, disableBatchWriting: bool,
                         batchOverride: Option<string>)
    returns (r: Result<ChangelogRun, ChangelogError>)
    ensures r == Changelog(git, apiUrl, apiKey, model, llm, disableBatchWriting, batchOverride)
  {
    var fetched := ExtractGitCommits.GetGitCommits(git);
    if fetched.Err? {
      return Err(FetchFailed(fetched.error));
    }
    var commits := fetched.value;
    var handle := ModelInterface.GetModel(Some(apiUrl), Some(apiKey), Some(model));
    if handle.Err? {
      return Err(ModelRejected(handle.error));
    }
    ExtractGitCommits.GitCommitsNonEmpty(git);
    ExtractGitCommits.ParseLogKeys(git, SplitLines(git.log.value), "");
    r := FinishChangelog(llm, commits, disableBatchWriting, batchOverride);
  }
}
