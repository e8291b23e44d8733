/** Issue assembly for the OpenAI-backed checks: grammar suggestions per text node, and a document
    review with a summary and per-passage suggestions. The remote answers are inputs. */
module OpenAi {
  import opened Wrappers
  import opened Common
  import Seqs

  datatype OpenAIError = OpenAIError(message: string)

  /** The remote grammar answer for one text. */
  datatype OpenAISuggestion = Suggestion(text: string) | NoSuggestion

  /** A text node of the parsed document, with the position the parser may attach. */
  datatype TextNode = TextNode(value: string, position: Option<Position>)

  /** A text node together with the remote answer obtained for its text. */
  datatype GrammarQuery = GrammarQuery(node: TextNode, answer: Result<OpenAISuggestion, OpenAIError>)

  const GrammarMessage := "Statement/sentence does not look like standard English"
  const GrammarFixPrefix := "Consider changing to: \n"
  const ReviewMessage := "Consider review of your document"
  const ReviewFixPrefix := "Consider following change: \n"

  /** The grammar issue for a node the remote service suggested `suggestion` for; a node without
      a position is reported at row, column and offset 0. */
  function GrammarIssue(path: string, node: TextNode, suggestion: string): (issue: CheckIssue)
    ensures issue.category == Grammar && issue.severity == Warning && issue.filePath == path
    ensures issue.message == GrammarMessage && issue.fixes == [GrammarFixPrefix + suggestion]
    ensures node.position.None? ==>
      && issue.rowNumStart == 0 && issue.rowNumEnd == 0
      && issue.colNumStart == 0 && issue.colNumEnd == 0
      && issue.offsetStart == 0 && issue.offsetEnd == 0
    ensures node.position.Some? ==>
      && issue.rowNumStart == node.position.value.start.line
      && issue.rowNumEnd == node.position.value.end.line
      && issue.colNumStart == node.position.value.start.column
      && issue.colNumEnd == node.position.value.end.column
      && issue.offsetStart == node.position.value.start.offset
      && issue.offsetEnd == node.position.value.end.offset
  {
    var p := node.position.UnwrapOr(Position(Point(0, 0, 0), Point(0, 0, 0)));
    CheckIssue(Grammar, Warning, path, p.start.line, p.end.line, p.start.column, p.end.column,
               p.start.offset, p.end.offset, GrammarMessage, [GrammarFixPrefix + suggestion])
  }

  predicate Suggested(q: GrammarQuery) {
    q.answer.Success? && q.answer.value.Suggestion?
  }

  /** The issue for a query; only applied to queries the service made a suggestion for. */
  function QueryIssue(path: string, q: GrammarQuery): CheckIssue {
    match q.answer
    case Success(Suggestion(text)) => GrammarIssue(path, q.node, text)
    case _ => GrammarIssue(path, q.node, "")
  }

  /** The issues the grammar check reports for `queries`, none of which failed. */
  function GrammarIssues(path: string, queries: seq<GrammarQuery>): seq<CheckIssue> {
    Seqs.FilterMap(queries, Suggested, (q: GrammarQuery) => QueryIssue(path, q))
  }

  /** The index of the first query whose remote call failed, or the number of queries. */
  function FirstFailure(queries: seq<GrammarQuery>): (n: nat)
    ensures n <= |queries|
    ensures forall i :: 0 <= i < n ==> queries[i].answer.Success?
    ensures n < |queries| ==> queries[n].answer.Failure?
  {
    if |queries| == 0 then 0
    else if queries[0].answer.Failure? then 0
    else 1 + FirstFailure(queries[1..])
  }

  /** Asks for a suggestion per text node, in node order, and pushes a grammar issue for every
      suggestion; the first failed call ends the check with its error, keeping what was pushed. */
  method CheckGrammar(file: MarkDownFile, queries: seq<GrammarQuery>) returns (r: Result<(), OpenAIError>)
    modifies file`issues
    ensures var n := FirstFailure(queries);
      && file.issues == old(file.issues) + GrammarIssues(file.path, queries[..n])
      && (n < |queries| ==> r == Failure(queries[n].answer.error))
      && (n == |queries| ==> r == Success(()))
  {
    var i := 0;
    while i < |queries|
      invariant 0 <= i <= |queries|
      invariant forall j :: 0 <= j < i ==> queries[j].answer.Success?
      invariant file.issues == old(file.issues) + GrammarIssues(file.path, queries[..i])
    {
      var q := queries[i];
      assert queries[..i + 1][..i] == queries[..i];
      match q.answer {
        case Failure(e) =>
          assert FirstFailure(queries) == i;
          return Failure(e);
        case Success(answer) =>
          match answer {
            case Suggestion(suggestion) =>
              var rowNumStart, rowNumEnd, colNumStart, colNumEnd, offsetStart, offsetEnd := 0, 0, 0, 0, 0, 0;
              if q.node.position.Some? {
                var position := q.node.position.value;
                rowNumStart := position.start.line;
                rowNumEnd := position.end.line;
                colNumStart := position.start.column;
                colNumEnd := position.end.column;
                offsetStart := position.start.offset;
                offsetEnd := position.end.offset;
              }
              var issue := CheckIssue(Grammar, Warning, file.path, rowNumStart, rowNumEnd, colNumStart, colNumEnd,
                                      offsetStart, offsetEnd, GrammarMessage, [GrammarFixPrefix + suggestion]);
              assert issue == QueryIssue(file.path, q);
              file.issues := file.issues + [issue];
            case NoSuggestion =>
          }
      }
      i := i + 1;
    }
    assert queries[..i] == queries;
    return Success(());
  }

  /** The grammar issues are one Grammar/Warning issue per suggested query, in query order. */
  lemma GrammarIssuesPerSuggestion(path: string, queries: seq<GrammarQuery>)
    ensures var issues, idx := GrammarIssues(path, queries), Seqs.Indices(queries, Suggested);
      && |issues| == |idx| <= |queries|
      && (forall i :: 0 <= i < |queries| && Suggested(queries[i]) ==> i in idx)
      && (forall k :: 0 <= k < |idx| ==> Suggested(queries[idx[k]]))
      && forall k :: 0 <= k < |issues| ==>
           && issues[k] == GrammarIssue(path, queries[idx[k]].node, queries[idx[k]].answer.value.text)
           && issues[k].category == Grammar && issues[k].severity == Warning
  {
    Seqs.FilterMapByIndices(queries, Suggested, (q: GrammarQuery) => QueryIssue(path, q));
  }

  /** Without any suggestion there is no grammar issue, and conversely. */
  lemma NoGrammarIssuesIffNoSuggestion(path: string, queries: seq<GrammarQuery>)
    ensures GrammarIssues(path, queries) == [] <==> forall i :: 0 <= i < |queries| ==> !Suggested(queries[i])
  {
    Seqs.FilterMapEmpty(queries, Suggested, (q: GrammarQuery) => QueryIssue(path, q));
  }

  /** One suggestion of a review: the passage, its replacement and why. */
  datatype ReviewSuggestion = ReviewSuggestion(original: string, replacement: string, description: string)

  /** The remote review of a whole document. */
  datatype Review = Review(summary: string, suggestions: seq<ReviewSuggestion>)

  /** The Help issue carrying the review summary, spanning the whole content. */
  function SummaryIssue(path: string, content: string, summary: string): (issue: CheckIssue)
    ensures issue.category == IssueCategory.Review && issue.severity == Help && issue.filePath == path
    ensures issue.rowNumStart == 0 && issue.rowNumEnd == 0 && issue.colNumStart == 0 && issue.colNumEnd == 0
    ensures issue.offsetStart == 0 && issue.offsetEnd == |content|
    ensures issue.message == ReviewMessage && issue.fixes == [summary]
  {
    CheckIssue(IssueCategory.Review, Help, path, 0, 0, 0, 0, 0, |content|, ReviewMessage, [summary])
  }

  /** The Note issue for one suggestion, at the offsets `findIndex` gives for its passage; it carries
      the replacement as a fix only when suggestions are to be included. */
  function SuggestionIssue(path: string, content: string, s: ReviewSuggestion,
                           findIndex: (string, string) -> (nat, nat), includeSuggestions: bool): (issue: CheckIssue)
    ensures issue.category == IssueCategory.Review && issue.severity == Note && issue.filePath == path
    ensures issue.rowNumStart == 1 && issue.rowNumEnd == |content| && issue.colNumStart == 1 && issue.colNumEnd == 1
    ensures (issue.offsetStart, issue.offsetEnd) == findIndex(content, s.original)
    ensures issue.message == s.description
    ensures includeSuggestions ==> issue.fixes == [ReviewFixPrefix + s.replacement]
    ensures !includeSuggestions ==> issue.fixes == []
  {
    var offset := findIndex(content, s.original);
    CheckIssue(IssueCategory.Review, Note, path, 1, |content|, 1, 1, offset.0, offset.1, s.description,
               if includeSuggestions then [ReviewFixPrefix + s.replacement] else [])
  }

  /** The Note issues for `suggestions`, one per suggestion, in order. */
  function SuggestionIssues(path: string, content: string, suggestions: seq<ReviewSuggestion>,
                            findIndex: (string, string) -> (nat, nat), includeSuggestions: bool): (issues: seq<CheckIssue>)
    ensures |issues| == |suggestions|
    ensures forall k :: 0 <= k < |issues| ==>
      issues[k] == SuggestionIssue(path, content, suggestions[k], findIndex, includeSuggestions)
  {
    if |suggestions| == 0 then []
    else
      SuggestionIssues(path, content, suggestions[..|suggestions| - 1], findIndex, includeSuggestions)
      + [SuggestionIssue(path, content, suggestions[|suggestions| - 1], findIndex, includeSuggestions)]
  }

  /** Extending the suggestions by one extends their issues by that suggestion's issue. */
  lemma SuggestionIssuesStep(path: string, content: string, suggestions: seq<ReviewSuggestion>, i: nat,
                             findIndex: (string, string) -> (nat, nat), includeSuggestions: bool)
    requires i < |suggestions|
    ensures SuggestionIssues(path, content, suggestions[..i + 1], findIndex, includeSuggestions)
      == SuggestionIssues(path, content, suggestions[..i], findIndex, includeSuggestions)
         + [SuggestionIssue(path, content, suggestions[i], findIndex, includeSuggestions)]
  {
    assert suggestions[..i + 1][..i] == suggestions[..i];
  }

  /** The issues a review adds: none without suggestions, else the summary and one per suggestion. */
  function ReviewIssues(path: string, content: string, review: Review,
                        findIndex: (string, string) -> (nat, nat), includeSuggestions: bool): seq<CheckIssue>
  {
    if |review.suggestions| == 0 then []
    else [SummaryIssue(path, content, review.summary)]
         + SuggestionIssues(path, content, review.suggestions, findIndex, includeSuggestions)
  }

  /** Pushes the review's issues onto the file: the summary first, then one issue per suggestion.
      A failed review is returned as is; a review without suggestions adds nothing. */
  method MakeAReview(file: MarkDownFile, review: Result<Review, OpenAIError>,
                     findIndex: (string, string) -> (nat, nat), includeSuggestions: bool)
    returns (r: Result<(), OpenAIError>)
    modifies file`issues
    ensures review.Failure? ==> r == Failure(review.error) && file.issues == old(file.issues)
    ensures review.Success? ==>
      && r == Success(())
      && file.issues == old(file.issues)
                        + ReviewIssues(file.path, file.content, review.value, findIndex, includeSuggestions)
  {
    match review {
      case Failure(err) =>
        return Failure(err);
      case Success(rv) =>
        if |rv.suggestions| == 0 {
          return Success(());
        }
        file.issues := file.issues + [SummaryIssue(file.path, file.content, rv.summary)];
        PushSuggestionIssues(file, rv.suggestions, findIndex, includeSuggestions);
        return Success(());
    }
  }

  /** The loop of `make_a_review` over the suggestions: one Note issue pushed per suggestion. */
  method PushSuggestionIssues(file: MarkDownFile, suggestions: seq<ReviewSuggestion>,
                              findIndex: (string, string) -> (nat, nat), includeSuggestions: bool)
    modifies file`issues
    ensures file.issues
      == old(file.issues) + SuggestionIssues(file.path, file.content, suggestions, findIndex, includeSuggestions)
  {
    var path, content := file.path, file.content;
    for i := 0 to |suggestions|
      invariant file.issues
        == old(file.issues) + SuggestionIssues(path, content, suggestions[..i], findIndex, includeSuggestions)
    {
      var suggestion := suggestions[i];
      var offset := findIndex(content, suggestion.original);
      var fixes: seq<string> := [];
      if includeSuggestions {
        fixes := fixes + [ReviewFixPrefix + suggestion.replacement];
      }
      var issue := CheckIssue(IssueCategory.Review, Note, path, 1, |content|, 1, 1,
                              offset.0, offset.1, suggestion.description, fixes);
      assert issue == SuggestionIssue(path, content, suggestion, findIndex, includeSuggestions);
      SuggestionIssuesStep(path, content, suggestions, i, findIndex, includeSuggestions);
      file.issues := file.issues + [issue];
    }
    assert suggestions[..|suggestions|] == suggestions;
  }

  /** A review with n > 0 suggestions adds exactly 1 + n issues: the summary, then the suggestions
      in order, each fixed by its replacement exactly when suggestions are included. */
  lemma ReviewIssuesShape(path: string, content: string, review: Review,
                          findIndex: (string, string) -> (nat, nat), includeSuggestions: bool)
    ensures var issues, n := ReviewIssues(path, content, review, findIndex, includeSuggestions), |review.suggestions|;
      && |issues| == (if n == 0 then 0 else 1 + n)
      && (n > 0 ==> issues[0] == SummaryIssue(path, content, review.summary))
      && forall k :: 1 <= k < |issues| ==>
           && issues[k].severity == Note
           && issues[k].message == review.suggestions[k - 1].description
           && (issues[k].offsetStart, issues[k].offsetEnd) == findIndex(content, review.suggestions[k - 1].original)
           && (|issues[k].fixes| == 1 <==> includeSuggestions)
           && (|issues[k].fixes| == 0 <==> !includeSuggestions)
  {
    if |review.suggestions| > 0 {
      var issues := ReviewIssues(path, content, review, findIndex, includeSuggestions);
      var rest := SuggestionIssues(path, content, review.suggestions, findIndex, includeSuggestions);
      assert forall k :: 1 <= k < |issues| ==> issues[k] == rest[k - 1];
    }
  }
}
