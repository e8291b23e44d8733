/** The command-line half of `read_config`: options given on the command line override the
    configuration read from file. */
module Config {
  import opened Wrappers

  datatype HeadingStyle = Consistent | Atx | Setext
  datatype UnorderedListStyle = Consistent | Dash | Asterisk | Plus
  datatype BoldStyle = Consistent | Asterisk | Underscore

  datatype FmtConfig = FmtConfig(check: bool, showDiff: bool)
  datatype LinkCheckerConfig = LinkCheckerConfig(ignoreWildcards: seq<string>, timeout: Option<nat>, maxRetries: Option<nat>)
  datatype LinterConfig = LinterConfig(allowedHtmlTags: seq<string>)
  datatype ReviewConfig = ReviewConfig(noSuggestions: bool, prompt: Option<string>, creativity: Option<nat>)
  datatype ComposeConfig = ComposeConfig(creativity: Option<nat>)
  datatype GlobalConfig = GlobalConfig(exclude: seq<string>, proxy: Option<string>)
  datatype StyleConfig = StyleConfig(headings: HeadingStyle, unorderedLists: UnorderedListStyle, bold: BoldStyle)

  /** The configuration sections the command line can touch; `location` is where the file was found. */
  datatype Config = Config(
    location: Option<string>,
    global: GlobalConfig,
    fmt: FmtConfig,
    linkChecker: LinkCheckerConfig,
    linter: LinterConfig,
    review: ReviewConfig,
    compose: ComposeConfig,
    style: StyleConfig)

  /** The subcommand given on the command line, with the options the merge reads. */
  datatype Subcommand =
    | Fmt(check: bool, showDiff: bool)
    | Linkcheck(ignoreWildcards: seq<string>, timeout: Option<nat>, maxRetries: Option<nat>)
    | Lint(allowedHtmlTags: seq<string>)
    | Review(noSuggestions: bool, prompt: Option<string>, creativity: Option<nat>)
    | Compose(creativity: Option<nat>)
    | Spellcheck
    | GenerateConfig

  datatype Cli = Cli(
    subcommands: Subcommand,
    exclude: seq<string>,
    proxy: Option<string>,
    noProxy: Option<string>,
    styleHeadings: Option<string>,
    styleUnorderedLists: Option<string>,
    styleBold: Option<string>)

  /** The largest creativity the merge accepts. */
  const MaxCreativity := 100

  function HeadingStyleName(style: HeadingStyle): string {
    match style
    case Consistent => "consistent"
    case Atx => "atx"
    case Setext => "setext"
  }

  function UnorderedListStyleName(style: UnorderedListStyle): string {
    match style
    case Consistent => "consistent"
    case Dash => "dash"
    case Asterisk => "asterisk"
    case Plus => "plus"
  }

  function BoldStyleName(style: BoldStyle): string {
    match style
    case Consistent => "consistent"
    case Asterisk => "asterisk"
    case Underscore => "underscore"
  }

  /** The heading style a command-line string names, compared exactly and case-sensitively. */
  function ParseHeadingStyle(s: string): Option<HeadingStyle> {
    if s == "consistent" then Some(HeadingStyle.Consistent)
    else if s == "atx" then Some(HeadingStyle.Atx)
    else if s == "setext" then Some(HeadingStyle.Setext)
    else None
  }

  function ParseUnorderedListStyle(s: string): Option<UnorderedListStyle> {
    if s == "consistent" then Some(UnorderedListStyle.Consistent)
    else if s == "dash" then Some(UnorderedListStyle.Dash)
    else if s == "asterisk" then Some(UnorderedListStyle.Asterisk)
    else if s == "plus" then Some(UnorderedListStyle.Plus)
    else None
  }

  function ParseBoldStyle(s: string): Option<BoldStyle> {
    if s == "consistent" then Some(BoldStyle.Consistent)
    else if s == "asterisk" then Some(BoldStyle.Asterisk)
    else if s == "underscore" then Some(BoldStyle.Underscore)
    else None
  }

  /** A string parses to a heading style exactly when it is that style's name. */
  lemma ParseHeadingStyleExact(s: string, style: HeadingStyle)
    ensures ParseHeadingStyle(s) == Some(style) <==> s == HeadingStyleName(style)
  {
  }

  /** A string parses to an unordered-list style exactly when it is that style's name. */
  lemma ParseUnorderedListStyleExact(s: string, style: UnorderedListStyle)
    ensures ParseUnorderedListStyle(s) == Some(style) <==> s == UnorderedListStyleName(style)
  {
  }

  /** A string parses to a bold style exactly when it is that style's name. */
  lemma ParseBoldStyleExact(s: string, style: BoldStyle)
    ensures ParseBoldStyle(s) == Some(style) <==> s == BoldStyleName(style)
  {
  }

  /** Applies the subcommand's own options to its section of `config`. */
  method MergeSubcommand(config: Config, sub: Subcommand) returns (merged: Config)
    // the subcommand's own section is the only one written
    ensures merged.(fmt := config.fmt, linkChecker := config.linkChecker, linter := config.linter,
                    review := config.review, compose := config.compose) == config
    ensures sub.Spellcheck? || sub.GenerateConfig? ==> merged == config
    ensures !sub.Fmt? ==> merged.fmt == config.fmt
    ensures !sub.Linkcheck? ==> merged.linkChecker == config.linkChecker
    ensures !sub.Lint? ==> merged.linter == config.linter
    ensures !sub.Review? ==> merged.review == config.review
    ensures !sub.Compose? ==> merged.compose == config.compose
    // `fmt`: a flag given on the command line forces the option on and never clears it
    ensures sub.Fmt? ==>
      merged.fmt == FmtConfig(config.fmt.check || sub.check, config.fmt.showDiff || sub.showDiff)
    // `linkcheck`: a non-empty list or a present value replaces the configured one
    ensures sub.Linkcheck? ==>
      && merged.linkChecker.ignoreWildcards
         == (if |sub.ignoreWildcards| > 0 then sub.ignoreWildcards else config.linkChecker.ignoreWildcards)
      && merged.linkChecker.timeout
         == (if sub.timeout.Some? then sub.timeout else config.linkChecker.timeout)
      && merged.linkChecker.maxRetries
         == (if sub.maxRetries.Some? then sub.maxRetries else config.linkChecker.maxRetries)
    ensures sub.Lint? ==>
      merged.linter.allowedHtmlTags
        == (if |sub.allowedHtmlTags| > 0 then sub.allowedHtmlTags else config.linter.allowedHtmlTags)
    // `review`: `no_suggestions` is always taken; a creativity above 100 is ignored
    ensures sub.Review? ==>
      && merged.review.noSuggestions == sub.noSuggestions
      && merged.review.prompt == (if sub.prompt.Some? then sub.prompt else config.review.prompt)
      && merged.review.creativity
         == (if sub.creativity.Some? && sub.creativity.value <= MaxCreativity
             then sub.creativity else config.review.creativity)
    ensures sub.Compose? ==>
      merged.compose.creativity
        == (if sub.creativity.Some? && sub.creativity.value <= MaxCreativity
            then sub.creativity else config.compose.creativity)
  {
    merged := config;
    match sub {
      case Fmt(check, showDiff) =>
        if check && !merged.fmt.check {
          merged := merged.(fmt := merged.fmt.(check := true));
        }
        if showDiff && !merged.fmt.showDiff {
          merged := merged.(fmt := merged.fmt.(showDiff := true));
        }
      case Linkcheck(ignoreWildcards, timeout, maxRetries) =>
        if |ignoreWildcards| > 0 {
          merged := merged.(linkChecker := merged.linkChecker.(ignoreWildcards := ignoreWildcards));
        }
        if timeout.Some? {
          merged := merged.(linkChecker := merged.linkChecker.(timeout := Some(timeout.value)));
        }
        if maxRetries.Some? {
          merged := merged.(linkChecker := merged.linkChecker.(maxRetries := Some(maxRetries.value)));
        }
      case Lint(allowedHtmlTags) =>
        if |allowedHtmlTags| > 0 {
          merged := merged.(linter := merged.linter.(allowedHtmlTags := allowedHtmlTags));
        }
      case Review(noSuggestions, prompt, creativity) =>
        merged := merged.(review := merged.review.(noSuggestions := noSuggestions));
        if prompt.Some? {
          merged := merged.(review := merged.review.(prompt := Some(prompt.value)));
        }
        if creativity.Some? {
          if creativity.value > MaxCreativity {
            // out of range: warned about and ignored
          } else {
            merged := merged.(review := merged.review.(creativity := Some(creativity.value)));
          }
        }
      case Compose(creativity) =>
        if creativity.Some? {
          if creativity.value > MaxCreativity {
            // out of range: warned about and ignored
          } else {
            merged := merged.(compose := merged.compose.(creativity := Some(creativity.value)));
          }
        }
      case Spellcheck =>
      case GenerateConfig =>
    }
  }

  /** Applies `--exclude`, `--proxy` and `--no-proxy`; the last wins over `--proxy`. */
  method MergeGlobal(config: Config, cli: Cli) returns (merged: Config)
    ensures merged.(global := config.global) == config
    ensures merged.global.exclude == (if |cli.exclude| > 0 then cli.exclude else config.global.exclude)
    ensures merged.global.proxy
      == (if cli.noProxy.Some? then cli.noProxy else if cli.proxy.Some? then cli.proxy else config.global.proxy)
  {
    merged := config;
    if |cli.exclude| > 0 {
      merged := merged.(global := merged.global.(exclude := cli.exclude));
    }
    if cli.proxy.Some? {
      merged := merged.(global := merged.global.(proxy := Some(cli.proxy.value)));
    }
    if cli.noProxy.Some? {
      merged := merged.(global := merged.global.(proxy := Some(cli.noProxy.value)));
    }
  }

  /** Applies `--style-headings`; a string that names no style leaves the configured one. */
  method MergeHeadingStyle(config: Config, option: Option<string>) returns (merged: Config)
    ensures merged.(style := config.style) == config
    ensures merged.style.(headings := config.style.headings) == config.style
    ensures merged.style.headings
      == (if option.Some? && ParseHeadingStyle(option.value).Some?
          then ParseHeadingStyle(option.value).value else config.style.headings)
  {
    merged := config;
    if option.Some? {
      var s := option.value;
      if s == "consistent" {
        merged := merged.(style := merged.style.(headings := HeadingStyle.Consistent));
      } else if s == "atx" {
        merged := merged.(style := merged.style.(headings := HeadingStyle.Atx));
      } else if s == "setext" {
        merged := merged.(style := merged.style.(headings := HeadingStyle.Setext));
      } else {
        // unknown heading style: warned about and ignored
      }
    }
  }

  /** Applies `--style-unordered-lists`; a string that names no style leaves the configured one. */
  method MergeUnorderedListStyle(config: Config, option: Option<string>) returns (merged: Config)
    ensures merged.(style := config.style) == config
    ensures merged.style.(unorderedLists := config.style.unorderedLists) == config.style
    ensures merged.style.unorderedLists
      == (if option.Some? && ParseUnorderedListStyle(option.value).Some?
          then ParseUnorderedListStyle(option.value).value else config.style.unorderedLists)
  {
    merged := config;
    if option.Some? {
      var s := option.value;
      if s == "consistent" {
        merged := merged.(style := merged.style.(unorderedLists := UnorderedListStyle.Consistent));
      } else if s == "dash" {
        merged := merged.(style := merged.style.(unorderedLists := UnorderedListStyle.Dash));
      } else if s == "asterisk" {
        merged := merged.(style := merged.style.(unorderedLists := UnorderedListStyle.Asterisk));
      } else if s == "plus" {
        merged := merged.(style := merged.style.(unorderedLists := UnorderedListStyle.Plus));
      } else {
        // unknown unordered list style: warned about and ignored
      }
    }
  }

  /** Applies `--style-bold`; a string that names no style leaves the configured one. */
  method MergeBoldStyle(config: Config, option: Option<string>) returns (merged: Config)
    ensures merged.(style := config.style) == config
    ensures merged.style.(bold := config.style.bold) == config.style
    ensures merged.style.bold
      == (if option.Some? && ParseBoldStyle(option.value).Some?
          then ParseBoldStyle(option.value).value else config.style.bold)
  {
    merged := config;
    if option.Some? {
      var s := option.value;
      if s == "consistent" {
        merged := merged.(style := merged.style.(bold := BoldStyle.Consistent));
      } else if s == "asterisk" {
        merged := merged.(style := merged.style.(bold := BoldStyle.Asterisk));
      } else if s == "underscore" {
        merged := merged.(style := merged.style.(bold := BoldStyle.Underscore));
      } else {
        // unknown bold style: warned about and ignored
      }
    }
  }

  /** Applies every command-line option to `config`, in the order the options are read. */
  method MergeCli(config: Config, cli: Cli) returns (merged: Config)
    // the subcommand's own section, `global` and `style` are the only ones written
    ensures merged.location == config.location
    ensures !cli.subcommands.Fmt? ==> merged.fmt == config.fmt
    ensures !cli.subcommands.Linkcheck? ==> merged.linkChecker == config.linkChecker
    ensures !cli.subcommands.Lint? ==> merged.linter == config.linter
    ensures !cli.subcommands.Review? ==> merged.review == config.review
    ensures !cli.subcommands.Compose? ==> merged.compose == config.compose
    ensures cli.subcommands.Fmt? ==>
      merged.fmt == FmtConfig(config.fmt.check || cli.subcommands.check,
                              config.fmt.showDiff || cli.subcommands.showDiff)
    ensures cli.subcommands.Linkcheck? ==>
      && merged.linkChecker.ignoreWildcards
         == (if |cli.subcommands.ignoreWildcards| > 0 then cli.subcommands.ignoreWildcards
             else config.linkChecker.ignoreWildcards)
      && merged.linkChecker.timeout
         == (if cli.subcommands.timeout.Some? then cli.subcommands.timeout else config.linkChecker.timeout)
      && merged.linkChecker.maxRetries
         == (if cli.subcommands.maxRetries.Some? then cli.subcommands.maxRetries else config.linkChecker.maxRetries)
    ensures cli.subcommands.Lint? ==>
      merged.linter.allowedHtmlTags
        == (if |cli.subcommands.allowedHtmlTags| > 0 then cli.subcommands.allowedHtmlTags
            else config.linter.allowedHtmlTags)
    ensures cli.subcommands.Review? ==>
      && merged.review.noSuggestions == cli.subcommands.noSuggestions
      && merged.review.prompt == (if cli.subcommands.prompt.Some? then cli.subcommands.prompt else config.review.prompt)
      && merged.review.creativity
         == (if cli.subcommands.creativity.Some? && cli.subcommands.creativity.value <= MaxCreativity
             then cli.subcommands.creativity else config.review.creativity)
    ensures cli.subcommands.Compose? ==>
      merged.compose.creativity
        == (if cli.subcommands.creativity.Some? && cli.subcommands.creativity.value <= MaxCreativity
            then cli.subcommands.creativity else config.compose.creativity)
    ensures merged.global.exclude == (if |cli.exclude| > 0 then cli.exclude else config.global.exclude)
    ensures merged.global.proxy
      == (if cli.noProxy.Some? then cli.noProxy else if cli.proxy.Some? then cli.proxy else config.global.proxy)
    ensures merged.style.headings
      == (if cli.styleHeadings.Some? && ParseHeadingStyle(cli.styleHeadings.value).Some?
          then ParseHeadingStyle(cli.styleHeadings.value).value else config.style.headings)
    ensures merged.style.unorderedLists
      == (if cli.styleUnorderedLists.Some? && ParseUnorderedListStyle(cli.styleUnorderedLists.value).Some?
          then ParseUnorderedListStyle(cli.styleUnorderedLists.value).value else config.style.unorderedLists)
    ensures merged.style.bold
      == (if cli.styleBold.Some? && ParseBoldStyle(cli.styleBold.value).Some?
          then ParseBoldStyle(cli.styleBold.value).value else config.style.bold)
  {
    merged := MergeSubcommand(config, cli.subcommands);
    merged := MergeGlobal(merged, cli);
    merged := MergeHeadingStyle(merged, cli.styleHeadings);
    merged := MergeUnorderedListStyle(merged, cli.styleUnorderedLists);
    merged := MergeBoldStyle(merged, cli.styleBold);
  }
}
