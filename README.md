# cli_git_changelog, modelled in Dafny

`cli_git_changelog` writes changelogs from git history with a language model. It reads the last
commits with `git log`. For each commit it records every changed file's previous content and
cleaned diff. It turns the files into summary prompts and asks the model to summarise each one.
It combines the file summaries into a changelog per commit, and finally combines the commit
changelogs into one release changelog. The package also defines a rate-limited task dispatcher
(a token bucket in front of a FIFO queue), which none of this code calls: model calls go to the
language model directly.

This project models the sequential core of that pipeline and proves properties of it:

- `git_strategies.dfy` (`GitInterfaceStrategies`): `clean_diff` as a line filter, and
  `reject_file_types` together with the parts of `pathlib` it relies on (`name`, `suffix`).
- `extract_commits.dfy` (`ExtractGitCommits`): `get_git_commits`. Each git process is replaced
  by its recorded output, so the repository is a value of type `Git`. The log-line parse and the
  file lookups are modelled as in the code, including that module's own copy of `clean_diff`.
- `formatters.dfy` (`ChangelogPromptFormatters`): the three prompt builders, character for
  character. In the two aggregate builders, Python joins the adjacent string literals before
  `.join` is applied. The instruction text (with the example changelog) therefore becomes the
  separator between entries rather than a preamble: an empty input gives just `" Changelog:"`,
  and a single entry gets no instructions at all.
- `model_interface.dfy` (`ModelInterface`): `classify_model_name` and `get_model` over
  `model_map`.
- `generate_changelog.dfy` (`GenerateChangelog`):
  - `_lines` and the prompt planner `build_file_change_prompts`;
  - `call_model`, with the model as a function from prompt and token limit to a reply;
  - the sequential branches of `create_commit_changelog` and `create_changelog`.
- `dispatcher.dfy` (`RateLimitedDispatcher`): `RateLimitedTaskDispatcher` as a class with
  `tokens`, `capacity`, `queue` and a shutdown flag. One method stands for each loop iteration
  of its threads.
- `text.dfy`, `dicts.dfy`, `wrappers.dfy`: the Python behaviour the model relies on.
  - `str.splitlines` ends lines at `\n`, `\r`, `\r\n`, `\v`, `\f`, `\x1c`, `\x1d`, `\x1e`,
    `\x85`, U+2028 and U+2029, and gives no trailing empty piece.
  - `str.strip()` whitespace follows CPython's set.
  - `lower` is ASCII only.
  - `dict` is an insertion-ordered list of pairs: assigning to a present key keeps its position.

The loops of `clean_diff`, `get_git_commits`, `build_file_change_prompts` and the sequential
branches of `create_commit_changelog` and `create_changelog` are Dafny methods proved equal to a
reference function (`ensures r == GitCommits(git)`, `ensures prompts == FilePrompts(commit.files)`,
and so on). The properties the code promises are lemmas about those functions. The dispatcher's
`_refill` loop is modelled one iteration at a time (`RefillStep`); its `_run` loop is the method
`Run`, whose contract states the order of execution and the resolved futures directly.

## Model

| member | source | states |
|---|---|---|
| GitInterfaceStrategies.CleanedDiff | src/cli_git_changelog/git_interface_strategies/__init__.py:11-21 | the text `clean_diff` returns, the kept lines joined by newlines; `CleanedDiffLines` and the `CleanDiff` method state what it holds |
| GitInterfaceStrategies.KeptLines | src/cli_git_changelog/git_interface_strategies/__init__.py:13-20 | the kept lines are at most as many as the input lines, each is neither metadata nor the sentinel, and none contains a line break when the input lines have none |
| GitInterfaceStrategies.KeptLinesAppend | src/cli_git_changelog/git_interface_strategies/__init__.py:13-20 | the filter keeps order: filtering a concatenation is the concatenation of the filtered parts |
| GitInterfaceStrategies.KeptLinesCount | src/cli_git_changelog/git_interface_strategies/__init__.py:13-20 | every kept line occurs in the output exactly as often as in the input, and a dropped line never occurs |
| GitInterfaceStrategies.CleanedDiffLines | src/cli_git_changelog/git_interface_strategies/__init__.py:11-21 | splitting the cleaned text into lines again gives back exactly the kept lines, except for a final empty one |
| GitInterfaceStrategies.CleanDiff | src/cli_git_changelog/git_interface_strategies/__init__.py:11-21 | the loop computes the kept lines joined by newlines; no output line starts with a metadata prefix or is the sentinel; the output has no more lines than the input; an empty diff cleans to an empty string |
| GitInterfaceStrategies.Name | src/cli_git_changelog/git_interface_strategies/__init__.py:25 | `Path(p).name`, the last component left after dropping empty and `.` components; `NameOfPlainFile` and `NameLower` state its use here |
| GitInterfaceStrategies.NameOfPlainFile | src/cli_git_changelog/git_interface_strategies/__init__.py:25 | a name without a slash, other than `""` and `.`, is its own last component |
| GitInterfaceStrategies.NameLower | src/cli_git_changelog/git_interface_strategies/__init__.py:25 | lower-casing a path lower-cases its last component and changes nothing else about it |
| GitInterfaceStrategies.SuffixLower | src/cli_git_changelog/git_interface_strategies/__init__.py:25 | the suffix of the lower-cased name is the lower-cased suffix |
| GitInterfaceStrategies.Suffix | src/cli_git_changelog/git_interface_strategies/__init__.py:24-25 | a suffix is empty, or a dot followed by at least one character and no dot, strictly shorter than the name and ending it |
| GitInterfaceStrategies.SuffixOfStemAndExtension | src/cli_git_changelog/git_interface_strategies/__init__.py:24-25 | a non-empty stem followed by an extension has exactly that extension as its suffix |
| GitInterfaceStrategies.RejectFileType | src/cli_git_changelog/git_interface_strategies/__init__.py:8-25 | `reject_file_types`: the lower-cased suffix of the last component is in the reject list; its properties are the four lemmas below |
| GitInterfaceStrategies.NoDotNeverRejected | src/cli_git_changelog/git_interface_strategies/__init__.py:24-25 | a path without a dot has an empty suffix and is never rejected |
| GitInterfaceStrategies.RejectIgnoresCase | src/cli_git_changelog/git_interface_strategies/__init__.py:24-25 | lower-casing the path does not change whether it is rejected |
| GitInterfaceStrategies.RejectByLastExtension | src/cli_git_changelog/git_interface_strategies/__init__.py:8-25 | a file name is rejected exactly when its last extension, lower-cased, is in the reject list, whatever extensions the stem holds |
| GitInterfaceStrategies.NoSuffixNeverRejected | src/cli_git_changelog/git_interface_strategies/__init__.py:24-25 | any path whose file name has an empty suffix is never rejected |
| GitInterfaceStrategies.ComponentsEndWithName | src/cli_git_changelog/git_interface_strategies/__init__.py:24 | the components pathlib keeps for `dir/name` are non-empty and end with `name`, whatever `dir` is |
| GitInterfaceStrategies.RejectByLastExtensionInDir | src/cli_git_changelog/git_interface_strategies/__init__.py:8-25 | inside any directory, a file is rejected exactly when its last extension, lower-cased, is in the reject list; extensions in directory names do not count |
| GitInterfaceStrategies.KeepDotFile | src/cli_git_changelog/git_interface_strategies/__init__.py:24-25 | a dot file such as `.json` has no suffix and is kept |
| ExtractGitCommits.CleanDiff | src/cli_git_changelog/extract_git_commits_diff.py:10-23 | this copy of `clean_diff` returns, on every input, the same text as the copy beside `reject_file_types` |
| ExtractGitCommits.SplitCommitLine | src/cli_git_changelog/extract_git_commits_diff.py:50 | unpacking fails exactly when the line has no `\x01`; otherwise hash, `\x01` and message rebuild the line, and the hash holds no `\x01` |
| ExtractGitCommits.SplitAtFirstSeparator | src/cli_git_changelog/extract_git_commits_diff.py:50 | the split is at the first `\x01`: the message comes back whole, any later `\x01` included |
| ExtractGitCommits.FailedLookupsDefault | src/cli_git_changelog/extract_git_commits_diff.py:53-90 | a `diff-tree` that exits with an error gives no files, a `show` that exits with an error gives `""` as old content, a `diff` that exits with an error gives `""`; a successful `show` is kept as is, and a recorded diff never holds a metadata or sentinel line |
| ExtractGitCommits.CommitFilesGet | src/cli_git_changelog/extract_git_commits_diff.py:63-92 | a commit's `files` holds each listed path once, with its looked-up change, and no other path |
| ExtractGitCommits.ParseLogErrorSticks | src/cli_git_changelog/extract_git_commits_diff.py:47-50 | once a log line has raised, the later lines change nothing |
| ExtractGitCommits.ParseLogFails | src/cli_git_changelog/extract_git_commits_diff.py:47-50 | parsing fails exactly when some line is non-blank and has no `\x01`, and the error names the first such line |
| ExtractGitCommits.BlankLineSkipped | src/cli_git_changelog/extract_git_commits_diff.py:48-49 | a whitespace-only log line changes nothing |
| ExtractGitCommits.ParseLogKeyOrder | src/cli_git_changelog/extract_git_commits_diff.py:47-51 | after a successful parse the commit keys are the hashes of the log lines in the order each first appears; a later duplicate keeps the first one's place |
| ExtractGitCommits.GitCommitsKeyOrder | src/cli_git_changelog/generate_changelog.py:121 | `shas = list(commits.keys())` of a successful fetch is the log's hashes in first-appearance order, which fixes the commit loop's order and the `shas[0]-shas[-1]` batch file name |
| ExtractGitCommits.ParseLogKeys | src/cli_git_changelog/extract_git_commits_diff.py:47-51 | after a successful parse the commits are keyed by exactly the hashes of the well-formed lines, each once |
| ExtractGitCommits.LastLineWins | src/cli_git_changelog/extract_git_commits_diff.py:51-92 | a commit holds the message of the last line with its hash and the files git reports for that hash, so a later duplicate overwrites an earlier one |
| ExtractGitCommits.GitCommitsNonEmpty | src/cli_git_changelog/extract_git_commits_diff.py:94-96 | a successful result has at least one commit and comes from a successful `git log` and parse; a parse with no commits fails with "No commits found." |
| ExtractGitCommits.BlankLogHasNoCommits | src/cli_git_changelog/extract_git_commits_diff.py:47-49 | a log of blank lines parses to no commits at all |
| ExtractGitCommits.GitCommits | src/cli_git_changelog/extract_git_commits_diff.py:26-96 | the reference result of `get_git_commits`: `GitLogFailed`, the error of a malformed line, `NoCommitsFound`, or the commits dict; stated by the lemmas above |
| ExtractGitCommits.GetGitCommits | src/cli_git_changelog/extract_git_commits_diff.py:26-96 | the nested loops compute the parse result: `GitLogFailed` when `git log` fails, the first malformed line's error, `NoCommitsFound`, or the commits dict |
| ChangelogPromptFormatters.FileChangeSummaryPrompt | src/cli_git_changelog/formatters/changelog_prompt_formatters.py:5-11 | `build_file_change_summary_prompt`, written out; `SummaryPromptLayout` states its layout |
| ChangelogPromptFormatters.SummaryPromptLayout | src/cli_git_changelog/formatters/changelog_prompt_formatters.py:5-11 | the per-file prompt is the instructions, immediately followed by "File changed: ", the file name, a newline and the full file at fixed offsets; it ends with the changes and " Changelog:", and its length is the sum of its parts |
| ChangelogPromptFormatters.Aggregate | src/cli_git_changelog/formatters/changelog_prompt_formatters.py:14-21 | an aggregate prompt ends with " Changelog:", is exactly that for no entries, and starts with the first entry's first character |
| ChangelogPromptFormatters.ChangeEntries | src/cli_git_changelog/formatters/changelog_prompt_formatters.py:18 | one entry `File changed: k\nChanges: v` per summary, in dict order |
| ChangelogPromptFormatters.ChangelogPrompt | src/cli_git_changelog/formatters/changelog_prompt_formatters.py:14-21 | the commit prompt always ends with " Changelog:", and it is exactly " Changelog:" if and only if there are no summaries |
| ChangelogPromptFormatters.ChangelogPromptLength | src/cli_git_changelog/formatters/changelog_prompt_formatters.py:14-21 | with n summaries the instructions and example occur n - 1 times, once between each two entries |
| ChangelogPromptFormatters.ChangelogPromptAppend | src/cli_git_changelog/formatters/changelog_prompt_formatters.py:18-20 | one more summary adds one separator and its entry just before " Changelog:" |
| ChangelogPromptFormatters.ChangelogPromptSingle | src/cli_git_changelog/formatters/changelog_prompt_formatters.py:14-21 | a single summary's prompt is its entry and " Changelog:", without the instructions |
| ChangelogPromptFormatters.BatchEntries | src/cli_git_changelog/formatters/changelog_prompt_formatters.py:30 | one entry `sub release change log: v` per commit changelog, in list order |
| ChangelogPromptFormatters.BatchChangelogPrompt | src/cli_git_changelog/formatters/changelog_prompt_formatters.py:24-32 | the batch prompt always ends with " Changelog:", and it is exactly that if and only if the list is empty |
| ChangelogPromptFormatters.BatchPromptLength | src/cli_git_changelog/formatters/changelog_prompt_formatters.py:24-32 | with n commit changelogs the instructions occur n - 1 times |
| ChangelogPromptFormatters.BatchPromptAppend | src/cli_git_changelog/formatters/changelog_prompt_formatters.py:29-31 | one more commit changelog adds one separator and its entry at the end, keeping list order |
| ChangelogPromptFormatters.BatchPromptSingle | src/cli_git_changelog/formatters/changelog_prompt_formatters.py:24-32 | a single commit changelog's prompt is its entry and " Changelog:", without the instructions |
| ModelInterface.ClassifyModelName | src/cli_git_changelog/model_interface/__init__.py:11-15 | `classify_model_name`; the four lemmas below state what it returns |
| ModelInterface.ClassifyCases | src/cli_git_changelog/model_interface/__init__.py:11-15 | a name containing "claude" in any case classifies as "claude"; any other name classifies as itself lower-cased; the result is always lower case |
| ModelInterface.ClassifyIdempotent | src/cli_git_changelog/model_interface/__init__.py:11-15 | classifying a classified name changes nothing |
| ModelInterface.ClassifyIgnoresCase | src/cli_git_changelog/model_interface/__init__.py:11-15 | classifying the lower-cased name gives the same family |
| ModelInterface.SupportedExactlyClaude | src/cli_git_changelog/model_interface/__init__.py:6-15 | a classified name is a key of `model_map` if and only if the name contains "claude" in some case |
| ModelInterface.GetModel | src/cli_git_changelog/model_interface/__init__.py:18-25 | `get_model`, with the constructor call described rather than made; `GetModelOutcome` states its outcomes |
| ModelInterface.GetModelOutcome | src/cli_git_changelog/model_interface/__init__.py:18-25 | no name gives "Model is required"; a name is accepted if and only if it mentions "claude"; an accepted name reaches the constructor un-lowercased, with the url and the key; any other name gives "Unsupported model" naming it |
| GenerateChangelog.CountNonBlank | src/cli_git_changelog/generate_changelog.py:23 | the count is at most the number of lines, and zero if and only if every line is blank |
| GenerateChangelog.LineCount | src/cli_git_changelog/generate_changelog.py:21-23 | `_lines`: the non-blank lines of the diff counted; `LineCountBounds` states its bounds |
| GenerateChangelog.LineCountBounds | src/cli_git_changelog/generate_changelog.py:21-23 | `_lines` never exceeds the line count, is 0 exactly for all-blank text, and `_lines("")` is 0 |
| GenerateChangelog.FilePrompts | src/cli_git_changelog/generate_changelog.py:26-40 | the prompts the planner leaves after the last file, the carry being dropped; `SkippedFileIgnored`, `LargeFileOwnPrompt`, `CarriedWithoutOverflow` and `FlushOnOverflow` state what each file adds, `RunAppend` chains them |
| GenerateChangelog.RunAppend | src/cli_git_changelog/generate_changelog.py:29-39 | the planner walks the files in dict order: running over two parts is running over the first, then from there over the second |
| GenerateChangelog.SkippedFileIgnored | src/cli_git_changelog/generate_changelog.py:30-31 | a file under five non-blank lines contributes nothing, wherever it is |
| GenerateChangelog.LargeFileOwnPrompt | src/cli_git_changelog/generate_changelog.py:39 | a file of ten or more lines appends exactly its own prompt, built from path, old content and diff, and leaves the carry alone |
| GenerateChangelog.CarryStaysOk | src/cli_git_changelog/generate_changelog.py:32-38 | between iterations the carry holds paths and diffs in step, only five-to-nine-line files, and at most 1000 lines in total |
| GenerateChangelog.CarriedLinesBand | src/cli_git_changelog/generate_changelog.py:32-35 | carried files count between 5 and 9 lines each |
| GenerateChangelog.FlushNeedsManyFiles | src/cli_git_changelog/generate_changelog.py:35-37 | carry arithmetic: a valid carry that one more five-to-nine-line file takes over 1000 lines already holds at least 111 files |
| GenerateChangelog.FlushOnOverflow | src/cli_git_changelog/generate_changelog.py:32-38 | a five-to-nine-line file that takes the carried total over 1000 lines appends exactly the combined prompt of the carried paths and diffs followed by its own, and leaves the carry empty; at least 112 files go into that prompt |
| GenerateChangelog.CarriedWithoutOverflow | src/cli_git_changelog/generate_changelog.py:32-35 | a five-to-nine-line file that keeps the total at most 1000 lines is appended to the carry and adds no prompt |
| GenerateChangelog.BandPromptIsFlush | src/cli_git_changelog/generate_changelog.py:32-38 | a file under ten lines adds a prompt only as a flush: it has five to nine lines, the prompt is the combined one, the carry is then empty, and a combined prompt is emitted only after at least 112 files have been carried |
| GenerateChangelog.PromptBound | src/cli_git_changelog/generate_changelog.py:26-40 | prompts plus carried files never exceed the files seen, and earlier prompts are never changed |
| GenerateChangelog.PromptsFewerThanFiles | src/cli_git_changelog/generate_changelog.py:26-40 | there are never more prompts than files, so every prompt index is a valid index into the file paths |
| GenerateChangelog.PlanWithoutFlush | src/cli_git_changelog/generate_changelog.py:26-40 | while the carried files total at most 1000 lines, every large file has its own prompt in order and every five-to-nine-line file is carried in order |
| GenerateChangelog.LeftoverCarryDropped | src/cli_git_changelog/generate_changelog.py:26-40 | files all carried and never flushed produce no prompt: the carry left at the end is lost |
| GenerateChangelog.BuildFileChangePrompts | src/cli_git_changelog/generate_changelog.py:26-40 | the loop with its carry lists computes the planner's prompts |
| GenerateChangelog.CallModel | src/cli_git_changelog/generate_changelog.py:43-56 | the result is the model's text exactly when the model returns text, and `None` when it returns `None` or raises |
| GenerateChangelog.FileSummaries | src/cli_git_changelog/generate_changelog.py:94-98 | `file_summaries` after the first prompts, given at most as many prompts as paths; `FileSummariesKeys` and `FileSummaryAt` state its keys and values |
| GenerateChangelog.FileSummariesKeys | src/cli_git_changelog/generate_changelog.py:94-98 | a path has a summary if and only if some prompt index with that path got an answer |
| GenerateChangelog.FileSummaryAt | src/cli_git_changelog/generate_changelog.py:94-98 | the summary under `file_paths[idx]` is the answer to prompt idx unless a later prompt with the same path was answered |
| GenerateChangelog.SummaryKeyedByPromptIndex | src/cli_git_changelog/generate_changelog.py:74-98 | summaries are keyed by prompt index: when the first file is skipped, the second file's summary is filed under the first file's path |
| GenerateChangelog.CommitChangelog | src/cli_git_changelog/generate_changelog.py:74-108 | the reference result of the sequential `create_commit_changelog`: the answer to the changelog prompt of the file summaries, asked with 4096 tokens |
| GenerateChangelog.CreateCommitChangelog | src/cli_git_changelog/generate_changelog.py:73-108 | the commit changelog is the answer to the prompt built from the file summaries; `<sha>.md` is written with it exactly when there is one and writing is enabled |
| GenerateChangelog.CommitsRun | src/cli_git_changelog/generate_changelog.py:139-143 | the reference run of the loop over `shas`: the commit changelogs that are not `None` and their `<sha>.md` files; its meaning is stated by the three lemmas below |
| GenerateChangelog.CommitsRunSingle | src/cli_git_changelog/generate_changelog.py:140-143 | one commit contributes its changelog and the file `<sha>.md` holding it when it got one, and nothing otherwise |
| GenerateChangelog.CommitsRunAppend | src/cli_git_changelog/generate_changelog.py:139-143 | the loop follows `shas` order: the run over two parts of the commits is the run over the first followed by the run over the second |
| GenerateChangelog.CommitsRunOrder | src/cli_git_changelog/generate_changelog.py:139-143 | there are as many changelogs as files written, at most one per commit; each file holds the changelog at the same position and is named after a commit whose changelog that is |
| GenerateChangelog.ChangelogFrom | src/cli_git_changelog/generate_changelog.py:139-157 | the reference result once commits and model are there; `ChangelogFromOutcome` states its cases |
| GenerateChangelog.Changelog | src/cli_git_changelog/generate_changelog.py:111-161 | the reference result of the sequential `create_changelog` with `disable_commit_writing=False`; `ChangelogOutcome` states its cases and when it succeeds |
| GenerateChangelog.SummarizeCommits | src/cli_git_changelog/generate_changelog.py:139-143 | the loop over `shas` computes the reference run of commit changelogs and writes |
| GenerateChangelog.FinishChangelog | src/cli_git_changelog/generate_changelog.py:145-157 | with batch writing off, only the commit run; otherwise one more file holding the answer to the batch prompt, or, when the batch call failed, the error carrying the commit files already written |
| GenerateChangelog.ChangelogFromOutcome | src/cli_git_changelog/generate_changelog.py:145-157 | with batch writing off the run is the commit loop alone; otherwise no answer to the batch prompt (asked with 8192 tokens) ends the run with `BatchSummaryMissing` carrying every `<sha>.md` write already made, and an answer is written as one more file, at the override path or at `shas[0]-shas[-1].md` |
| GenerateChangelog.ChangelogOutcome | src/cli_git_changelog/generate_changelog.py:111-161 | a failed fetch fails before the model is chosen; an unsupported model is refused; past both, the commits are non-empty and the batch step decides; the run succeeds if and only if fetching succeeds, the model is supported, and batch writing is off or the batch prompt got an answer |
| GenerateChangelog.CreateChangelog | src/cli_git_changelog/generate_changelog.py:111-161 | the sequential `create_changelog` computes the reference outcome |
| RateLimitedDispatcher.TakeToken | src/cli_git_changelog/global_rate_limited_dispatcher.py:39-45 | `_consume_token` on the counter alone; `TokenSteps` and `ConsecutiveConsumes` state what it does |
| RateLimitedDispatcher.RefillOnce | src/cli_git_changelog/global_rate_limited_dispatcher.py:34-36 | one `_refill` iteration on the counter alone; `TokenSteps` states what it does |
| RateLimitedDispatcher.TokenSteps | src/cli_git_changelog/global_rate_limited_dispatcher.py:32-45 | a consume succeeds and removes exactly one token if and only if a token is left; a refill adds exactly one token if and only if the bucket is below capacity; both stay in range |
| RateLimitedDispatcher.OpsStayInRange | src/cli_git_changelog/global_rate_limited_dispatcher.py:18-45 | any interleaving of consumes and refills keeps the counter in range |
| RateLimitedDispatcher.FullBucketInRange | src/cli_git_changelog/global_rate_limited_dispatcher.py:18-45 | from a full bucket the counter stays in range, between 0 and the capacity when that is not negative |
| RateLimitedDispatcher.ConsecutiveConsumes | src/cli_git_changelog/global_rate_limited_dispatcher.py:39-45 | with t tokens and no refill, k consumes succeed min(k, t) times |
| RateLimitedDispatcher.Dispatcher.constructor | src/cli_git_changelog/global_rate_limited_dispatcher.py:13-30 | a full bucket, an empty queue, not shut down |
| RateLimitedDispatcher.Dispatcher.ConsumeToken | src/cli_git_changelog/global_rate_limited_dispatcher.py:39-45 | takes a token exactly when one is left, and leaves the queue alone |
| RateLimitedDispatcher.Dispatcher.RefillStep | src/cli_git_changelog/global_rate_limited_dispatcher.py:32-37 | while not shut down, adds a token exactly when below capacity, and leaves the queue alone |
| RateLimitedDispatcher.Dispatcher.Submit | src/cli_git_changelog/global_rate_limited_dispatcher.py:64-67 | appends exactly one task with a fresh pending future at the tail, returns that future, and leaves the tokens alone |
| RateLimitedDispatcher.Dispatcher.RunStep | src/cli_git_changelog/global_rate_limited_dispatcher.py:47-62 | once shut down nothing happens; an empty queue shuts the dispatcher down; otherwise the oldest task is removed, a token is spent and its future is resolved with the task's outcome |
| RateLimitedDispatcher.Dispatcher.Run | src/cli_git_changelog/global_rate_limited_dispatcher.py:47-62 | the queued tasks run in submission order, each future resolved once with its outcome, then the dispatcher shuts down; once shut down nothing runs and queued tasks stay unresolved |

## Left out

- Threads, locks, sleeps and timeouts are not modelled. The dispatcher's threads become one method per loop iteration. The `concurrency=True` branches of `create_commit_changelog` and `create_changelog` (thread pools, completion order) are not modelled.
- RateLimitedDispatcher.Dispatcher.RunStep: requires a positive capacity whenever a task is waiting, because with no token ever available the source's wait loop never ends.
- RateLimitedDispatcher.Dispatcher.RunStep: the refiller's work while the dispatcher waits is modelled as one refill between failed consumes; other interleavings are covered only by `OpsStayInRange`.
- RateLimitedDispatcher.Dispatcher.Run: the idle timeout is modelled as an empty queue when the dispatcher looks, so a task submitted during the wait is not modelled.
- The git subprocesses are not executed. Each one's output as text, or its exit with an error status, is a field of `Git`. `sys.exit(1)` after a failed `git log` is the error `GitLogFailed`.
- ExtractGitCommits.GitCommits: output that is not valid text is not modelled. `check_output(..., text=True)` then raises `UnicodeDecodeError` (for example `git show <sha>^:logo.png` for a changed binary file), which no `except` catches, so `get_git_commits` and `create_changelog` end with that exception. The model only knows text or an error exit.
- The `except Exception` fallback around `clean_diff` in `get_git_commits` is not modelled: on a string input `clean_diff` does not raise.
- The language model is a deterministic function of prompt and `max_tokens`. Its temperature, the HTTP client and `AnthropicModel`'s constructor are not part of this model.
- `ModelInterface.GetModel` describes the constructor call instead of performing it.
- `configure_output_dirs`, the timestamped directories and `write_text` are not modelled: each write is a `Written(path, content)` record, with its path relative to its output directory. A batch override path is kept as given.
- GenerateChangelog.SummarizeCommits: the sequential branch passes `disable_commit_writing` positionally into the `concurrency` parameter of `create_commit_changelog`. The model takes that argument as `False` (no thread pool). The inner `disable_commit_writing` keeps its default `False` either way, so every commit changelog is written whatever the flag says. When the flag is set, the commits directory is never created (generate_changelog.py:66-67), so the first `<sha>.md` write (:105) raises out of `create_changelog`; that failure is not modelled. `ChangelogOutcome`, `Changelog` and `CreateChangelog` therefore describe the run with `disable_commit_writing=False`, and their "succeeds if and only if" does not hold when the flag is set.
- GenerateChangelog.FinishChangelog: writing `None` raises (as a `TypeError` for the default path at generate_changelog.py:151, re-raised as a `RuntimeError` for the override at :154-157), so a failed batch call ends the run with `BatchSummaryMissing`, which carries the `<sha>.md` files written before it; the exception type is not modelled.
- GenerateChangelog.ChangelogOutcome (and so `Changelog` and `CreateChangelog`): with a batch override and batch writing on, the code writes the batch file and then logs `batch_file` at generate_changelog.py:159, which is unbound on that path, so every such run ends in an `UnboundLocalError` after all files are written. The model reports that run as `Ok`, so its "succeeds if and only if" does not hold for override runs.
- `Lower` lower-cases ASCII letters only. Python's `str.lower` also maps non-ASCII letters, so rejecting non-ASCII extensions and classifying non-ASCII model names are not modelled.
- Logging is not modelled.
- `__main__`, argument parsing, `get_git_history_configured`, and the batch-diff and commit-diff strategies under `git_interface_strategies/` are not part of this model.
- `AnthropicModel.call_model` retries once over raw HTTP when the SDK call fails (src/cli_git_changelog/model_interface/anthropic_model.py:45-77); that fallback lies inside the abstracted language model `llm`. The code has no other retry or back-off, and a dispatcher that has shut down stays shut down; the model does the same.
