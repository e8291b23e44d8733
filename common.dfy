/** Shared types of the checker: source positions, the externally visible issue record, and a
    Markdown file with the issues accumulated for it. */
module Common {

  /** One end of a span: line, column and character offset. */
  datatype Point = Point(line: nat, column: nat, offset: nat)

  /** A source span, as carried by every parsed node and every violation. */
  datatype Position = Position(start: Point, end: Point)

  /** `Position::new(start_line, start_column, start_offset, end_line, end_column, end_offset)` */
  function NewPosition(startLine: nat, startColumn: nat, startOffset: nat,
                       endLine: nat, endColumn: nat, endOffset: nat): (p: Position)
    ensures p.start == Point(startLine, startColumn, startOffset)
    ensures p.end == Point(endLine, endColumn, endOffset)
  {
    Position(Point(startLine, startColumn, startOffset), Point(endLine, endColumn, endOffset))
  }

  datatype IssueCategory = Formatting | LinkChecking | Grammar | Spelling | Review | Linting

  datatype IssueSeverity = Error | Warning | Help | Note

  /** One reported problem, as assembled by the issue builder. */
  datatype CheckIssue = CheckIssue(
    category: IssueCategory,
    severity: IssueSeverity,
    filePath: string,
    rowNumStart: nat,
    rowNumEnd: nat,
    colNumStart: nat,
    colNumEnd: nat,
    offsetStart: nat,
    offsetEnd: nat,
    message: string,
    fixes: seq<string>)

  /** A Markdown file being checked; passes push their findings onto `issues`. */
  class MarkDownFile {
    var path: string
    var content: string
    var issues: seq<CheckIssue>
  }
}
