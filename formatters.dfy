/**
 * The three prompt builders. They are exact string constructions; in the two aggregate ones,
 * Python joins adjacent string literals before `.join` is applied, so the whole instruction text
 * (and the example changelog) becomes the separator between entries rather than a preamble.
 */
module ChangelogPromptFormatters {
  import opened Text
  import opened Dicts

  /** `CHANGELOG_EXAMPLE` (formatters/__init__.py): a sample changelog shown to the model. */
  const ChangelogExample: string :=
    "\n" +
    "MCP server generator  \n" +
    "Generate MCP servers so that AI applications can interact with your docs or APIs. " +
    "Written content is automatically generated as an MCP server, and you can generate an MCP " +
    "server from your OpenAPI spec with one click. Check out docs on getting started with MCP.\n" +
    "\n" +
    "### Improvements\n" +
    "- Tag changelog updates so end users can filter updates  \n" +
    "- Sonnet-3.7 supported for AI Chat. Configure your preferred model through the dashboard  \n" +
    "- Change your deployment name directly in dashboard settings  \n" +
    "\n" +
    "### Bug fixes\n" +
    "- OG images fixed  \n" +
    "- Fixed icon style inconsistency for anchors without container  \n" +
    "- Improved styling nits for dashboard border for mobile-tablet-desktop responsiveness  \n" +
    "- Show code examples even when in simple mode for API playground  \n" +
    "- Support \U{201C}command + k\U{201D} shortcut for search in web editor  \n" +
    "- Codeblocks within callouts expand to fill the width of the callout area  \n" +
    "    "

  /** The words every instruction text starts with. */
  const ReleaseManager: string := "You are a release manager."

  /** The instructions of the per-file prompt; no separator follows the final full stop. */
  const SummaryInstructions: string :=
    ReleaseManager + " Given the following changes to your given file, " +
    "generate a user\U{2011}friendly high level changelog grouped by type (e.g., Features, Fixes):\n\n" +
    "Be very terse and concise. Only include the most important changes in the changelog."

  const FileChangedLabel: string := "File changed: "
  const ChangesLabel: string := "\n\nChanges:\n"
  const ChangelogTail: string := " Changelog:"

  /** `build_file_change_summary_prompt(file_name, full_file, changes)` */
  function FileChangeSummaryPrompt(fileName: string, fullFile: string, changes: string): (p: string)
  {
    SummaryInstructions + FileChangedLabel + fileName + "\n" + fullFile + ChangesLabel + changes
      + "\n\n" + ChangelogTail
  }

  /**
   * The per-file prompt is the instructions, then (with nothing in between) the file name, the
   * full file and the changes at fixed places, closed by "Changelog:".
   */
  lemma SummaryPromptLayout(fileName: string, fullFile: string, changes: string)
    ensures var p := FileChangeSummaryPrompt(fileName, fullFile, changes);
      var start := |SummaryInstructions + FileChangedLabel|;
      && StartsWith(p, SummaryInstructions + FileChangedLabel)
      && p[start..start + |fileName|] == fileName
      && p[start + |fileName|] == '\n'
      && p[start + |fileName| + 1..start + |fileName| + 1 + |fullFile|] == fullFile
      && EndsWith(p, ChangesLabel + changes + "\n\n" + ChangelogTail)
      && |p| == |SummaryInstructions| + |fileName| + |fullFile| + |changes| + 39
  {
    var head := SummaryInstructions + FileChangedLabel;
    var tail := ChangesLabel + changes + "\n\n" + ChangelogTail;
    var p := FileChangeSummaryPrompt(fileName, fullFile, changes);
    assert p == head + fileName + "\n" + fullFile + tail;
    assert |tail| == |changes| + 24;
  }

  /**
   * The shape shared by the two aggregate prompts: the entries joined by `sep`, then
   * "Changelog:". The separators are long constants, so facts are proved here for any `sep`.
   */
  function Aggregate(sep: string, entries: seq<string>): (p: string)
    ensures EndsWith(p, ChangelogTail)
    ensures entries == [] ==> p == ChangelogTail
    ensures entries != [] && entries[0] != [] ==> p[0] == entries[0][0]
  {
    var body := Join(sep, entries);
    assert (body + ChangelogTail)[|body|..] == ChangelogTail;
    assert entries != [] ==> StartsWith(body, entries[0]) by {
      if entries != [] {
        JoinStartsWithFirst(sep, entries);
      }
    }
    body + ChangelogTail
  }

  lemma AggregateAppend(sep: string, entries: seq<string>, e: string)
    requires entries != []
    ensures Aggregate(sep, entries + [e]) == Join(sep, entries) + sep + e + ChangelogTail
  {
    JoinAppend(sep, entries, e);
  }

  lemma AggregateLength(sep: string, entries: seq<string>)
    requires entries != []
    ensures |Aggregate(sep, entries)| == TotalLength(entries) + (|entries| - 1) * |sep| + 11
  {
    JoinLength(sep, entries);
  }

  /** The common instructions of the two aggregate prompts, ending at the example. */
  const CombineInstructions: string :=
    ReleaseManager + " Given the following changelogs of files, build a comprehensive changelog" +
    " for all of the changes in the repo done by this commit. Please include a high level summary" +
    " of the changes in a form mimicking this example: "

  /** The separator `build_changelog_prompt` joins its entries with. */
  const ChangelogSeparator: string := CombineInstructions + ChangelogExample + "\n"

  /** `f"File changed: {k}\nChanges: {v}"` */
  function ChangeEntry(k: string, v: string): string {
    FileChangedLabel + k + "\nChanges: " + v
  }

  /** The entries of a summary dict, in its iteration order. */
  function ChangeEntries(changesLog: Dict<string, string>): (es: seq<string>)
    ensures |es| == |changesLog|
    ensures forall i :: 0 <= i < |es| ==> es[i] == ChangeEntry(changesLog[i].0, changesLog[i].1)
  {
    if changesLog == [] then []
    else [ChangeEntry(changesLog[0].0, changesLog[0].1)] + ChangeEntries(changesLog[1..])
  }

  lemma ChangeEntriesAppend(changesLog: Dict<string, string>, k: string, v: string)
    ensures ChangeEntries(changesLog + [(k, v)]) == ChangeEntries(changesLog) + [ChangeEntry(k, v)]
  {
  }

  /** `build_changelog_prompt(changes_log)` */
  function ChangelogPrompt(changesLog: Dict<string, string>): (p: string)
    ensures EndsWith(p, ChangelogTail)
    ensures changesLog == [] <==> p == ChangelogTail
  {
    var es := ChangeEntries(changesLog);
    assert es != [] ==> es[0][0] == 'F';
    Aggregate(ChangelogSeparator, es)
  }

  /** With n entries, the instructions and the example occur n - 1 times: once between each two. */
  lemma ChangelogPromptLength(changesLog: Dict<string, string>)
    requires changesLog != []
    ensures |ChangelogPrompt(changesLog)| == TotalLength(ChangeEntries(changesLog))
      + (|changesLog| - 1) * |ChangelogSeparator| + |ChangelogTail|
  {
    AggregateLength(ChangelogSeparator, ChangeEntries(changesLog));
  }

  /** One more summary adds one separator and its entry just before "Changelog:". */
  lemma ChangelogPromptAppend(changesLog: Dict<string, string>, k: string, v: string)
    requires changesLog != []
    ensures ChangelogPrompt(changesLog + [(k, v)]) ==
      Join(ChangelogSeparator, ChangeEntries(changesLog)) + ChangelogSeparator + ChangeEntry(k, v)
        + ChangelogTail
  {
    ChangeEntriesAppend(changesLog, k, v);
    AggregateAppend(ChangelogSeparator, ChangeEntries(changesLog), ChangeEntry(k, v));
  }

  /** A single summary gets no instructions at all: the prompt starts with its entry. */
  lemma ChangelogPromptSingle(k: string, v: string)
    ensures ChangelogPrompt([(k, v)]) == ChangeEntry(k, v) + ChangelogTail
    ensures !StartsWith(ChangelogPrompt([(k, v)]), ReleaseManager)
  {
    var p := ChangelogPrompt([(k, v)]);
    assert ChangeEntries([(k, v)]) == [ChangeEntry(k, v)];
    assert p[0] == 'F';
  }

  /** The separator `build_full_commit_batch_changelog_prompt` joins its entries with. */
  const BatchSeparator: string :=
    CombineInstructions + ChangelogExample +
    " Join the following sub release change logs into a single release change log, only include" +
    " the most important changes:" + "\n"

  /** `f"sub release change log: {v}"` */
  function BatchEntry(v: string): string {
    "sub release change log: " + v
  }

  function BatchEntries(changelogs: seq<string>): (es: seq<string>)
    ensures |es| == |changelogs|
    ensures forall i :: 0 <= i < |es| ==> es[i] == BatchEntry(changelogs[i])
  {
    if changelogs == [] then [] else [BatchEntry(changelogs[0])] + BatchEntries(changelogs[1..])
  }

  lemma BatchEntriesAppend(changelogs: seq<string>, v: string)
    ensures BatchEntries(changelogs + [v]) == BatchEntries(changelogs) + [BatchEntry(v)]
  {
  }

  /** `build_full_commit_batch_changelog_prompt(commits_changelogs)` */
  function BatchChangelogPrompt(changelogs: seq<string>): (p: string)
    ensures EndsWith(p, ChangelogTail)
    ensures changelogs == [] <==> p == ChangelogTail
  {
    var es := BatchEntries(changelogs);
    assert es != [] ==> es[0][0] == 's';
    Aggregate(BatchSeparator, es)
  }

  /** With n sub-changelogs the instructions occur n - 1 times. */
  lemma BatchPromptLength(changelogs: seq<string>)
    requires changelogs != []
    ensures |BatchChangelogPrompt(changelogs)| == TotalLength(BatchEntries(changelogs))
      + (|changelogs| - 1) * |BatchSeparator| + |ChangelogTail|
  {
    AggregateLength(BatchSeparator, BatchEntries(changelogs));
  }

  /** One more sub-changelog adds one separator and its entry, keeping list order. */
  lemma BatchPromptAppend(changelogs: seq<string>, v: string)
    requires changelogs != []
    ensures BatchChangelogPrompt(changelogs + [v]) ==
      Join(BatchSeparator, BatchEntries(changelogs)) + BatchSeparator + BatchEntry(v) + ChangelogTail
  {
    BatchEntriesAppend(changelogs, v);
    AggregateAppend(BatchSeparator, BatchEntries(changelogs), BatchEntry(v));
  }

  /** A single sub-changelog gets no instructions. */
  lemma BatchPromptSingle(v: string)
    ensures BatchChangelogPrompt([v]) == BatchEntry(v) + ChangelogTail
    ensures !StartsWith(BatchChangelogPrompt([v]), ReleaseManager)
  {
    var p := BatchChangelogPrompt([v]);
    assert BatchEntries([v]) == [BatchEntry(v)];
    assert p[0] == 's';
  }
}
