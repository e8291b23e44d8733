# checkmark core, modelled in Dafny

checkmark checks Markdown documents. It runs formatting, link, grammar, spelling and lint
passes over each file and reports every finding as one position-annotated list of issues. This
project models six parts of that system and proves what each one promises:

- **MD003** (heading style). A heading is ATX when its source span starts with `#`, and SetExt
  otherwise. The preferred style is either the configured one or, in `consistent` mode, the
  style of the first heading. Every heading of another style is reported as a violation. The
  module is `Md003`.
- **MD019** (multiple spaces after the hash of an ATX heading). The file is split into lines the
  way `str::lines` does. The regex `^#+\s\s+\b` is modelled twice: as an independent existential
  pattern, and as the scanning predicate the rule uses, with a proof that the two agree. Each
  flagged line becomes a violation spanning from the start of the line to just past its first
  space. The module is `Md019`.
- **Link collection**. The collected links are deduplicated by URI. Any link whose URI, with one
  trailing `/` removed, matches a glob ignore pattern is dropped. The module is
  `LinkCollector`, and its glob matcher is `WildMatch`.
- **Command-line merge**. `read_config` first loads the configuration, then applies the
  command-line options field by field. This is the part modelled, as module `Config`.
- **The check orchestrator**. Five passes run in a fixed order. The grammar pass runs only when
  an API key is set. The first failing pass ends the check; otherwise the issues are
  concatenated. The module is `Checker`.
- **OpenAI issue assembly**. The grammar check pushes one issue per suggestion. The review
  pushes a summary issue and then one issue per suggestion. The module is `OpenAi`.

Shared modules:

- `Common` holds positions, the `CheckIssue` record and the `MarkDownFile` class (path,
  content, accumulated issues).
- `Violation` holds the lint violation record.
- `Seqs` holds the order-preserving `filter`/`map`/`enumerate` of Rust iterators, with their
  characterising lemmas.
- `Wrappers` holds `Option` and `Result`.

The imperative parts of the source keep their form:

- **MD003 heading collection**: a loop over the visited nodes.
- **Link dedup**: a loop that inserts into a map.
- **Command-line merge**: a chain of conditional field updates.
- **Orchestrator**: a sequence of guarded appends.
- **Grammar and review**: loops that push onto the `issues` field of a `MarkDownFile` object,
  with `modifies file`issues`.

The methods of MD003, link dedup, the orchestrator, grammar and review are each proved
against a specification function, and the properties are then proved about that function.
The `Config` merge methods instead give every merged field in closed form in their `ensures`,
together with a frame saying which fields are left alone.

Two consequences of the code are worth noting:

- **Link dedup keeps the last link for a URI.** The links are inserted into a `HashMap`, and
  `HashMap::insert` overwrites (src/checkmark_link_checker/src/link_collector.rs:49). So the
  stored link is the last one collected. `LinkCollector.StoredLinkIsLastOccurrence` states
  this.
- **MD019 line numbers start at 0.** MD019 reports the 0-based `enumerate()` index as its line,
  together with column 1
  (src/checkmark_lint/src/md019_multiple_spaces_after_hash_in_atx_heading.rs:28-36), and its
  test expects `Position::new(0, 1, 0, 0, 1, 2)` (line 67 of that file). Parser positions, as
  used by MD003, count lines from 1.

## Model

| member | source | states |
|---|---|---|
| Md003.AsStr | src/checkmark_lint/src/md003_heading_style.rs:23-29 | No contract of its own; characterised by `Md003.ViolationFields`, whose message and fix clauses use these names, and by `Md003.ExampleConsistent`, whose message names "ATX" and "SetExt". |
| Md003.StyleOf | src/checkmark_lint/src/md003_heading_style.rs:46-55 | A heading is ATX exactly when its span is non-empty, lies inside the source and starts with `#`. An out-of-range span counts as SetExt. The result is never `Consistent`. |
| Md003.PreferredStyle | src/checkmark_lint/src/md003_heading_style.rs:57-67 | The preferred style is never `Consistent`. A configured ATX or SetExt is kept. In `consistent` mode it is the style of the first heading, or ATX when there are no headings. |
| Md003.CheckHeadingStyle | src/checkmark_lint/src/md003_heading_style.rs:32-43 | Collecting the headings in visiting order, then filtering and mapping them, gives exactly the specification's violations of those headings. |
| Md003.Violations | src/checkmark_lint/src/md003_heading_style.rs:79-104 | No contract of its own; characterised by `Md003.ViolationsAreOffendingHeadings`, `Md003.NoViolationsIffAllPreferred` and `Md003.ViolationFields`: one violation per heading whose style differs from the preferred one, in heading order. |
| Md003.ViolationsAreOffendingHeadings | src/checkmark_lint/src/md003_heading_style.rs:79-104 | The violations are an in-order subsequence of the headings, one per heading whose style differs from the preferred one and no others. There are never more violations than headings. |
| Md003.NoViolationsIffAllPreferred | src/checkmark_lint/src/md003_heading_style.rs:79-81 | There are no violations exactly when every heading has the preferred style. So no headings means no violations. |
| Md003.ConsistentFirstNeverFlagged | src/checkmark_lint/src/md003_heading_style.rs:57-81 | In `consistent` mode the first heading is never reported. So there are strictly fewer violations than headings. |
| Md003.ConsistentUniformStyleNoViolations | src/checkmark_lint/src/md003_heading_style.rs:57-81 | In `consistent` mode, headings that all share one style give no violations, whichever style that is. |
| Md003.ViolationFields | src/checkmark_lint/src/md003_heading_style.rs:82-102 | Each violation has code MD003, the MD003 doc link and the fmt-fixable flag. Its fixes are the three fixes in order, the first naming the preferred style. Its position is that of one of the headings. Its message names the preferred or configured style and the observed, opposite style. |
| Md003.MakeViolationFields | src/checkmark_lint/src/md003_heading_style.rs:82-102 | The violation built for one offending heading is well formed in the sense above and carries that heading's position. |
| Md003.ConsistentAtxThenSetExt | src/checkmark_lint/src/md003_heading_style.rs:57-104 | In `consistent` mode, an ATX heading followed by a SetExt heading gives exactly one violation, for the second. |
| Md003.ExampleConsistent | src/checkmark_lint/src/md003_heading_style.rs:113-130 | The source's first test input gives one violation, with the "Inconsistent headings style … \"ATX\" … \"SetExt\"" message, at `Position::new(3, 1, 14, 4, 6, 22)`. |
| Md003.ExampleSetExt | src/checkmark_lint/src/md003_heading_style.rs:132-144 | `"# H1"` checked against SetExt gives one violation: expected "setext", got "ATX", at `Position::new(1, 1, 0, 1, 5, 4)`. |
| Md003.ExampleAtx | src/checkmark_lint/src/md003_heading_style.rs:146-160 | An underlined `H1` checked against ATX gives one violation: expected "atx", got "SetExt", at `Position::new(1, 1, 0, 2, 12, 14)`. |
| Md019.PredicateMatchesPattern | src/checkmark_lint/src/md019_multiple_spaces_after_hash_in_atx_heading.rs:18-23 | The scanning predicate (the longest run of leading `#`, then at least two white-space characters, then a word character) holds exactly when the line matches `^#+\s\s+\b`, read as: some run of `#`, then some run of two or more white-space characters, then a word boundary. |
| Md019.FindSpace | src/checkmark_lint/src/md019_multiple_spaces_after_hash_in_atx_heading.rs:27 | `line.find(' ')` returns the index of the first space, or `None` exactly when the line has no space. |
| Md019.StartsWithAtxHeadingWithoutSpace | src/checkmark_lint/src/md019_multiple_spaces_after_hash_in_atx_heading.rs:18-23 | No contract of its own; characterised by `Md019.PredicateMatchesPattern`: it holds exactly when the line matches the pattern `^#+\s\s+\b`. |
| Md019.Lines | src/checkmark_lint/src/md019_multiple_spaces_after_hash_in_atx_heading.rs:45 | No contract of its own; characterised by `Md019.LineAtOffset`: line `n` is the text of the file found at the offset of line `n`. |
| Md019.ToIssue | src/checkmark_lint/src/md019_multiple_spaces_after_hash_in_atx_heading.rs:25-38 | No contract of its own; characterised by `Md019.ViolationFields` and `Md019.SpanInsideLine`: the fixed code, message, doc link and fix, and a span from the line's start to one past its first space. |
| Md019.Violations | src/checkmark_lint/src/md019_multiple_spaces_after_hash_in_atx_heading.rs:40-50 | No contract of its own; characterised by `Md019.ViolationsAreFlaggedLines`: one violation per flagged line, in line order. |
| Md019.ViolationsAreFlaggedLines | src/checkmark_lint/src/md019_multiple_spaces_after_hash_in_atx_heading.rs:40-50 | There is one violation per flagged line, in ascending line order. The k-th violation is `to_issue` of the k-th flagged line with its 0-based index. |
| Md019.ViolationFields | src/checkmark_lint/src/md019_multiple_spaces_after_hash_in_atx_heading.rs:5-38 | Each violation carries the rule's code, message, doc link, single fix and fmt-fixable flag. Its position is on its own line at column 1, starts at that line's offset and ends one past the line's first space (or one past the start). So the end is always after the start. |
| Md019.LineAtOffset | src/checkmark_lint/src/md019_multiple_spaces_after_hash_in_atx_heading.rs:26 | Line `n` of the file sits at the offset that `find_offset_by_line_number` gives for `n`. |
| Md019.SpanInsideLine | src/checkmark_lint/src/md019_multiple_spaces_after_hash_in_atx_heading.rs:25-38 | A flagged line's span is non-empty and lies inside the file and inside its line. The file text at the span is the line's prefix, and that prefix starts with `#`. |
| Md019.ExamplePredicate | src/checkmark_lint/src/md019_multiple_spaces_after_hash_in_atx_heading.rs:14-23 | `"# fff"` is not flagged; `"#   fff"` is flagged. |
| Md019.ExampleFile | src/checkmark_lint/src/md019_multiple_spaces_after_hash_in_atx_heading.rs:57-71 | The file `"#   fff"` gives exactly one violation, for line 0, at `Position::new(0, 1, 0, 0, 1, 2)`. |
| WildMatch.Matches | src/checkmark_link_checker/src/link_collector.rs:43-45 | No contract of its own; characterised by the three `WildMatch` lemmas below: a literal pattern matches only itself, `*` matches every text, and a literal prefix followed by `*` matches every text with that prefix. |
| WildMatch.LiteralMatchesItselfOnly | src/checkmark_link_checker/src/link_collector.rs:43-45 | A pattern without `*` or `?` matches a text exactly when the text equals it. |
| WildMatch.StarMatchesEverything | src/checkmark_link_checker/src/link_collector.rs:43-45 | The pattern `*` matches every text. |
| WildMatch.PrefixStarMatches | src/checkmark_link_checker/src/link_collector.rs:43-45 | A literal prefix followed by `*` matches every text that starts with that prefix. |
| LinkCollector.IsIgnored | src/checkmark_link_checker/src/link_collector.rs:40-47 | No contract of its own; characterised by `LinkCollector.SlashVariantsIgnoredTogether` and `LinkCollector.MatchedUriExcludedWithSlash`: a URI is ignored when some pattern matches it with one trailing `/` removed. |
| LinkCollector.DedupMap | src/checkmark_link_checker/src/link_collector.rs:37-51 | No contract of its own; characterised by `LinkCollector.KeysAreKeptUris` and `LinkCollector.StoredLinkIsLastOccurrence`: the keys are the kept URIs, and each stores the last link collected with it. |
| LinkCollector.CollectLinks | src/checkmark_link_checker/src/link_collector.rs:37-54 | A failed collection is passed on unchanged. Otherwise the loop's map equals the specification map: each non-ignored link inserted by URI, in collection order. |
| LinkCollector.KeysAreKeptUris | src/checkmark_link_checker/src/link_collector.rs:38-50 | A URI is a key exactly when some collected link has it and no pattern matches it with one trailing `/` removed. Keys are the full, unstripped URIs, and every key was collected. |
| LinkCollector.StoredLinkIsLastOccurrence | src/checkmark_link_checker/src/link_collector.rs:37-51 | The link stored under a URI is a collected link with that URI, and no later collected link has it. |
| LinkCollector.EmptyIgnoreListKeepsAll | src/checkmark_link_checker/src/link_collector.rs:40-41 | With no ignore patterns, the key set is exactly the set of collected URIs. |
| LinkCollector.SlashVariantsIgnoredTogether | src/checkmark_link_checker/src/link_collector.rs:42-46 | A URI without a trailing `/` is ignored exactly when its `/`-terminated variant is. |
| LinkCollector.MatchedUriExcludedWithSlash | src/checkmark_link_checker/src/link_collector.rs:40-50 | A pattern matching `u` keeps both `u` and `u/` out of the result. |
| Config.ParseHeadingStyleExact | src/checkmark_cli/src/config.rs:117-127 | A string names a heading style exactly when it equals that style's name (consistent, atx, setext), compared case-sensitively. |
| Config.ParseUnorderedListStyleExact | src/checkmark_cli/src/config.rs:128-140 | A string names an unordered-list style exactly when it equals consistent, dash, asterisk or plus. |
| Config.ParseBoldStyleExact | src/checkmark_cli/src/config.rs:141-151 | A string names a bold style exactly when it equals consistent, asterisk or underscore. |
| Config.MergeSubcommand | src/checkmark_cli/src/config.rs:55-107 | Only the given subcommand's own section is written, and Spellcheck and GenerateConfig write nothing. The per-section rules are listed below the table. |
| Config.MergeGlobal | src/checkmark_cli/src/config.rs:108-116 | A non-empty `--exclude` replaces the excludes. `--no-proxy`, when given, wins over `--proxy`. Only `global` changes. |
| Config.MergeHeadingStyle | src/checkmark_cli/src/config.rs:117-127 | A recognised `--style-headings` value sets the heading style. An absent or unknown value leaves it unchanged. Nothing else changes. |
| Config.MergeUnorderedListStyle | src/checkmark_cli/src/config.rs:128-140 | Likewise for `--style-unordered-lists`. |
| Config.MergeBoldStyle | src/checkmark_cli/src/config.rs:141-151 | Likewise for `--style-bold`. |
| Config.MergeCli | src/checkmark_cli/src/config.rs:54-151 | The whole merge. Only the subcommand's section, `global.exclude`, `global.proxy` and the three style fields are written, each as stated for the members above. `location` and every other section keep their values. |
| Checker.RunPasses | src/checker.rs:18-44 | No contract of its own; characterised by `Checker.RunPassesSucceedsIffAll`, `Checker.FirstFailureWins` and `Checker.PassesInOrder`: the first failing pass's error, otherwise all issues concatenated in pass order. |
| Checker.Passes | src/checker.rs:27-35 | The grammar pass is included, with the key, exactly when `SAPLING_API_KEY` is set. It sits between the link and spelling passes. |
| Checker.Check | src/checker.rs:17-45 | The sequence of guarded appends and early returns gives exactly the specification outcome of the active passes. So the `is_empty` guards make no difference. |
| Checker.PassesInOrder | src/checker.rs:18-44 | The outcome is the error of the first failing pass, in the order format, link, grammar (when a key is set), spelling, lint. Otherwise it is the concatenation of their issues in that order. |
| Checker.RunPassesSucceedsIffAll | src/checker.rs:19-44 | The check succeeds exactly when every active pass succeeds. |
| Checker.FirstFailureWins | src/checker.rs:19-43 | The first failing pass gives the result, and passes after it make no difference, whatever they would return. |
| Checker.AbsentKeySkipsGrammar | src/checker.rs:27-35 | Without a key, the result equals that of the four other passes, whatever the grammar pass would answer. |
| OpenAi.GrammarIssue | src/checkmark_open_ai/src/lib.rs:8-38 | A grammar issue has category Grammar, severity Warning, the file path, the fixed message and the single fix "Consider changing to: \n" + suggestion. It carries the node's position fields, or zeros when the node has no position. |
| OpenAi.GrammarIssues | src/checkmark_open_ai/src/lib.rs:5-42 | No contract of its own; characterised by `OpenAi.GrammarIssuesPerSuggestion` and `OpenAi.NoGrammarIssuesIffNoSuggestion`: one grammar issue per suggested node, in node order. |
| OpenAi.FirstFailure | src/checkmark_open_ai/src/lib.rs:5-6 | Returns the index of the first failed remote call, with every earlier call succeeding, or the number of nodes when none failed. |
| OpenAi.CheckGrammar | src/checkmark_open_ai/src/lib.rs:3-44 | The issues pushed are those of the suggested nodes before the first failed call, in node order, after the issues already present. The first failed call's error is returned; otherwise `Ok(())`. |
| OpenAi.GrammarIssuesPerSuggestion | src/checkmark_open_ai/src/lib.rs:5-42 | There is exactly one Grammar/Warning issue per node answered with `Suggestion`, in node order, built from that node and its suggestion. |
| OpenAi.NoGrammarIssuesIffNoSuggestion | src/checkmark_open_ai/src/lib.rs:5-42 | No grammar issue is pushed exactly when no node got a suggestion. |
| OpenAi.SummaryIssue | src/checkmark_open_ai/src/lib.rs:58-72 | The review summary is a Review/Help issue at rows and columns 0, spanning offsets 0 to the content length, with the summary as its single fix. |
| OpenAi.SuggestionIssue | src/checkmark_open_ai/src/lib.rs:74-92 | A suggestion becomes a Review/Note issue: rows 1 to the content length, columns 1, offsets from `find_index` of its passage. Its message is its description. It has one fix ("Consider following change: \n" + replacement) when suggestions are included, and none otherwise. |
| OpenAi.SuggestionIssues | src/checkmark_open_ai/src/lib.rs:73-93 | There is one suggestion issue per suggestion, in order. |
| OpenAi.ReviewIssues | src/checkmark_open_ai/src/lib.rs:52-93 | No contract of its own; characterised by `OpenAi.ReviewIssuesShape`: the summary issue, then one issue per suggestion. |
| OpenAi.MakeAReview | src/checkmark_open_ai/src/lib.rs:46-101 | A failed review returns its error and leaves the issues unchanged. A review without suggestions leaves them unchanged and returns `Ok(())`. Otherwise it appends the summary issue, then the suggestion issues, after the existing ones. |
| OpenAi.PushSuggestionIssues | src/checkmark_open_ai/src/lib.rs:73-93 | The loop appends exactly the suggestion issues of the suggestions, in order, after the existing issues. |
| OpenAi.ReviewIssuesShape | src/checkmark_open_ai/src/lib.rs:52-93 | A review with n > 0 suggestions adds exactly 1 + n issues. The summary comes first. Then suggestion k is a Note with its description and `find_index` offsets, and has exactly one fix iff suggestions are included. |

`Config.MergeSubcommand` states the following for each section:

- `fmt`: `check` and `show_diff` become the old value OR the command-line flag.
- `linkcheck`: the wildcards are replaced only by a non-empty list. The timeout and retry
  count are replaced only by a present value.
- `lint`: the allowed tags are replaced only by a non-empty list.
- `review`: `no_suggestions` is always overwritten. The prompt is replaced only when present.
  The creativity is replaced only when present and at most 100.
- `compose`: the creativity is replaced only when present and at most 100.
- Spellcheck and GenerateConfig change nothing.
- No other section is written.

## Left out

- Byte offsets: strings are sequences of characters, and offsets and lengths count characters.
  Rust counts UTF-8 bytes, and `source.get(start..end)` also yields `None` for a range that
  does not fall on character boundaries. The model is exact for ASCII text.
- Md019.PredicateMatchesPattern: `\b` and the word-character class consider ASCII letters,
  digits and `_` only. The regex crate's Unicode `\w` is wider.
- Md019.LineAtOffset: `find_offset_by_line_number` is in the `common` crate, which is not part
  of this model. It is modelled as the offset just after the n-th `\n`, or the end of the file
  when there are fewer. The lemma states what the model promises of that stand-in.
- OpenAi.SuggestionIssue: `common::find_index` is not part of this model. It is a function
  parameter, and the issue's offsets are stated to be whatever it returns.
- Parsing: Markdown parsing (`to_mdast`), the traversal (`for_each`) and `filter_text_nodes`
  are foreign. Their output is an input: the visited nodes for MD003, the text nodes with
  their answers for the grammar check. Heading nodes always carry a position, so the
  `unwrap` on a missing one is not modelled.
- Builders: the violation and issue builders live in the `violation` and `common` crates,
  outside this model. The records are built directly.
- Link collection: the lychee collection itself (`collect_links` up to line 33) is
  filesystem and async work. Its result is an input `Result`. `Request` keeps only the URI
  and an opaque stand-in for the rest of its metadata.
- Configuration loading: finding and loading the configuration file (`read_config` before
  line 54) is filesystem work, and the CLI argument parser is foreign. `Config` and `Cli`
  hold only the fields the merge reads or writes. A creativity, timeout or retry count is a
  `nat`, without the width of the Rust integer type.
- Warnings: the warnings logged for an out-of-range creativity or an unknown style string are
  not modelled. They have no effect on the result. The same holds for all `log::debug!`
  output.
- Checker.Check: that later passes are "not run" after a failure is stated as their results
  making no difference. The passes' results are inputs; their execution, `async` and
  `SAPLING_API_KEY` as an environment variable (here an `Option`) are left out.
- OpenAI calls: the HTTP requests of the `open_ai` module are not part of this model.
  Each grammar answer and the review are inputs.
- Formatter: `src/legacy/prettier.rs` (the JavaScript formatter and its file I/O) is foreign.
- Spelling: the spelling tests concern a checker whose implementation is not part of this
  model.
- Violation equality: the MD003 tests build their expected violations without the three
  fixes. The equality those tests use lives in the `violation` crate, outside this model. The
  examples therefore state the count, message and position, and `Md003.ViolationFields`
  states the fixes.
