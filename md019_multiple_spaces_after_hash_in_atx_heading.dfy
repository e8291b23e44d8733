/** Lint rule MD019: an ATX heading line must not have more than one whitespace character
    between its hashes and its text. The rule scans the raw lines, because the parser
    normalises that whitespace away. */
module Md019 {
  import opened Wrappers
  import opened Common
  import opened Violation
  import Seqs

  const Code := "MD019"
  const Message := "Multiple spaces after hash on atx style heading"
  const DocLink := "https://github.com/DavidAnson/markdownlint/blob/v0.32.1/doc/md019.md"
  const Fix := "Separate the heading text from the hash character by a single space"

  /** `\s`: a character with the Unicode White_Space property. */
  predicate IsWhitespace(c: char) {
    || '\t' <= c <= '\r' || c == ' ' || c == '\U{85}' || c == '\U{A0}' || c == '\U{1680}'
    || '\U{2000}' <= c <= '\U{200A}' || c == '\U{2028}' || c == '\U{2029}' || c == '\U{202F}'
    || c == '\U{205F}' || c == '\U{3000}'
  }

  /** `\w`, for ASCII text: a letter, a digit or `_`. */
  predicate IsWordChar(c: char) {
    'a' <= c <= 'z' || 'A' <= c <= 'Z' || '0' <= c <= '9' || c == '_'
  }

  predicate WordAt(line: string, i: int) {
    0 <= i < |line| && IsWordChar(line[i])
  }

  /** `\b` before position `i`: a word character on exactly one side. */
  predicate WordBoundary(line: string, i: int) {
    WordAt(line, i - 1) != WordAt(line, i)
  }

  ghost predicate HashRun(line: string, k: nat) {
    k <= |line| && forall i :: 0 <= i < k ==> line[i] == '#'
  }

  ghost predicate WhitespaceRun(line: string, k: nat, m: nat) {
    k + m <= |line| && forall i :: k <= i < k + m ==> IsWhitespace(line[i])
  }

  /** What the regular expression `^#+\s\s+\b` accepts: one or more hashes, then at least two
      whitespace characters, then a word boundary. */
  ghost predicate MatchesPattern(line: string) {
    exists k: nat, m: nat :: 1 <= k && 2 <= m && HashRun(line, k) && WhitespaceRun(line, k, m) && WordBoundary(line, k + m)
  }

  /** The number of leading `#` characters of `s`. */
  function LeadingHashes(s: string): (n: nat)
    ensures n <= |s|
    ensures forall i :: 0 <= i < n ==> s[i] == '#'
    ensures n < |s| ==> s[n] != '#'
  {
    if s == [] || s[0] != '#' then 0 else 1 + LeadingHashes(s[1..])
  }

  /** The number of whitespace characters of `s` from position `from` on. */
  function WhitespaceFrom(s: string, from: nat): (n: nat)
    requires from <= |s|
    ensures from + n <= |s|
    ensures forall i :: from <= i < from + n ==> IsWhitespace(s[i])
    ensures from + n < |s| ==> !IsWhitespace(s[from + n])
    decreases |s| - from
  {
    if from == |s| || !IsWhitespace(s[from]) then 0 else 1 + WhitespaceFrom(s, from + 1)
  }

  /** `start_with_atx_heading_without_space`: the longest run of hashes is followed by a longest
      run of at least two whitespace characters, and that by a word character. */
  predicate StartsWithAtxHeadingWithoutSpace(line: string) {
    var k := LeadingHashes(line);
    var m := WhitespaceFrom(line, k);
    k >= 1 && m >= 2 && k + m < |line| && IsWordChar(line[k + m])
  }

  /** The scan accepts exactly the lines the regular expression matches. */
  lemma PredicateMatchesPattern(line: string)
    ensures StartsWithAtxHeadingWithoutSpace(line) <==> MatchesPattern(line)
  {
    var k := LeadingHashes(line);
    if StartsWithAtxHeadingWithoutSpace(line) {
      var m := WhitespaceFrom(line, k);
      assert IsWhitespace(line[k + m - 1]);
      assert HashRun(line, k) && WhitespaceRun(line, k, m) && WordBoundary(line, k + m);
    }
    if MatchesPattern(line) {
      var k', m' :| 1 <= k' && 2 <= m' && HashRun(line, k') && WhitespaceRun(line, k', m') && WordBoundary(line, k' + m');
      assert IsWhitespace(line[k']);
      assert k' == k;
      assert IsWhitespace(line[k' + m' - 1]);
      assert WordAt(line, k' + m');
      assert WhitespaceFrom(line, k) >= m';
      assert WhitespaceFrom(line, k) == m';
    }
  }

  /** The position of the first `\n` of `s` at or after `from`, or `|s|` when there is none. */
  function NewlineFrom(s: string, from: nat): (i: nat)
    requires from <= |s|
    ensures from <= i <= |s|
    ensures i < |s| ==> s[i] == '\n'
    decreases |s| - from
  {
    if from == |s| || s[from] == '\n' then from else NewlineFrom(s, from + 1)
  }

  /** A line's terminator is `\n` or `\r\n`; this drops the `\r` of the latter. */
  function StripCr(line: string): string {
    if |line| > 0 && line[|line| - 1] == '\r' then line[..|line| - 1] else line
  }

  /** The lines of `s` from offset `from` on, each without its terminator. */
  function LinesFrom(s: string, from: nat): seq<string>
    requires from <= |s|
    decreases |s| - from
  {
    if from == |s| then []
    else
      var i := NewlineFrom(s, from);
      if i == |s| then [s[from..]] else [StripCr(s[from..i])] + LinesFrom(s, i + 1)
  }

  /** `str::lines`: the lines of `s` without their terminators; a final line need not be
      terminated, and a terminator at the very end starts no new line. */
  function Lines(s: string): seq<string> {
    LinesFrom(s, 0)
  }

  /** The offset of the `n`-th line counted from the line that starts at `from`. */
  function OffsetFrom(file: string, from: nat, n: nat): nat
    requires from <= |file|
    decreases n
  {
    if n == 0 then from
    else
      var i := NewlineFrom(file, from);
      if i == |file| then |file| else OffsetFrom(file, i + 1, n - 1)
  }

  /** `find_offset_by_line_number`: the offset of the first character of the 0-based line `n`,
      that is, the offset just after the `n`-th `\n` (the end of the file if there are fewer). */
  function FindOffsetByLineNumber(file: string, n: nat): nat {
    OffsetFrom(file, 0, n)
  }

  /** `line.find(' ')` */
  function FindSpace(line: string): (r: Option<nat>)
    ensures r.Some? ==> r.value < |line| && line[r.value] == ' '
    ensures forall j :: 0 <= j < |line| && (r.None? || j < r.value) ==> line[j] != ' '
  {
    if line == [] then None
    else if line[0] == ' ' then Some(0)
    else match FindSpace(line[1..])
      case None => None
      case Some(i) => Some(i + 1)
  }

  /** `to_issue`: the violation for the 0-based line `lineNumber`, spanning from the line's start
      to just past its first space. */
  function ToIssue(lineNumber: nat, line: string, file: string): Violation {
    var offsetStart := FindOffsetByLineNumber(file, lineNumber);
    var offsetEnd := offsetStart + FindSpace(line).UnwrapOr(0) + 1;
    Violation(Code, Message, DocLink, [Fix], true,
              Some(NewPosition(lineNumber, 1, offsetStart, lineNumber, 1, offsetEnd)))
  }

  /** `md019_multiple_spaces_after_hash_on_atx_style_heading` */
  function Violations(file: string): seq<Violation> {
    Seqs.FilterMap(Seqs.Enumerate(Lines(file)), (e: (nat, string)) => StartsWithAtxHeadingWithoutSpace(e.1),
                   (e: (nat, string)) => ToIssue(e.0, e.1, file))
  }

  /** One violation per flagged line, in ascending line order: the k-th violation is the
      issue of the k-th line that starts with hashes followed by several whitespace characters. */
  lemma ViolationsAreFlaggedLines(file: string)
    ensures var lines := Lines(file);
            var idx := Seqs.Indices(lines, StartsWithAtxHeadingWithoutSpace);
            var vs := Violations(file);
            && |vs| == |idx|
            && (forall k, l :: 0 <= k < l < |idx| ==> idx[k] < idx[l])
            && (forall i :: 0 <= i < |lines| ==> (i in idx <==> StartsWithAtxHeadingWithoutSpace(lines[i])))
            && (forall k :: 0 <= k < |idx| ==> vs[k] == ToIssue(idx[k], lines[idx[k]], file))
  {
    var lines := Lines(file);
    var p := (e: (nat, string)) => StartsWithAtxHeadingWithoutSpace(e.1);
    var f := (e: (nat, string)) => ToIssue(e.0, e.1, file);
    Seqs.FilterMapByIndices(Seqs.Enumerate(lines), p, f);
    Seqs.IndicesOfEnumerate(lines, StartsWithAtxHeadingWithoutSpace, p);
  }

  /** Every violation has the rule's fixed code, message, link, single fix and fixable flag; its
      span starts and ends on its line, at column 1, and ends past its start by one more than
      the position of the line's first space (or by one when there is none). */
  lemma ViolationFields(file: string)
    ensures var lines := Lines(file);
            var idx := Seqs.Indices(lines, StartsWithAtxHeadingWithoutSpace);
            var vs := Violations(file);
            |vs| == |idx| &&
            forall k :: 0 <= k < |vs| ==>
              vs[k].position.Some? &&
              var p := vs[k].position.value;
              && vs[k].code == "MD019"
              && vs[k].message == "Multiple spaces after hash on atx style heading"
              && vs[k].docLink == "https://github.com/DavidAnson/markdownlint/blob/v0.32.1/doc/md019.md"
              && vs[k].fixes == ["Separate the heading text from the hash character by a single space"]
              && vs[k].isFmtFixable
              && p.start.line == p.end.line == idx[k]
              && p.start.column == p.end.column == 1
              && p.start.offset == FindOffsetByLineNumber(file, idx[k])
              && p.end.offset == p.start.offset + FindSpace(lines[idx[k]]).UnwrapOr(0) + 1
              && p.end.offset > p.start.offset
  {
    ViolationsAreFlaggedLines(file);
  }

  /** Each line sits in the file at the offset `find_offset_by_line_number` gives for it. */
  lemma LineAtOffset(file: string, n: nat)
    requires n < |Lines(file)|
    ensures FindOffsetByLineNumber(file, n) + |Lines(file)[n]| <= |file|
    ensures file[FindOffsetByLineNumber(file, n)..FindOffsetByLineNumber(file, n) + |Lines(file)[n]|] == Lines(file)[n]
  {
    LineAtOffsetFrom(file, 0, n);
  }

  lemma {:induction false} LineAtOffsetFrom(file: string, from: nat, n: nat)
    requires from <= |file| && n < |LinesFrom(file, from)|
    ensures OffsetFrom(file, from, n) + |LinesFrom(file, from)[n]| <= |file|
    ensures file[OffsetFrom(file, from, n)..OffsetFrom(file, from, n) + |LinesFrom(file, from)[n]|] == LinesFrom(file, from)[n]
    decreases n
  {
    var i := NewlineFrom(file, from);
    if n == 0 {
      if i < |file| {
        var line := file[from..i];
        StripCrIsPrefix(line);
        assert file[from..from + |StripCr(line)|] == line[..|StripCr(line)|];
      }
    } else {
      LineAtOffsetFrom(file, i + 1, n - 1);
    }
  }

  lemma StripCrIsPrefix(line: string)
    ensures |StripCr(line)| <= |line| && line[..|StripCr(line)|] == StripCr(line)
  {
  }

  /** The span of a violation lies inside its line: it is non-empty, within the file, and starts
      at the line's first `#`. */
  lemma SpanInsideLine(file: string, n: nat)
    requires n < |Lines(file)| && StartsWithAtxHeadingWithoutSpace(Lines(file)[n])
    ensures var p := ToIssue(n, Lines(file)[n], file).position.value;
            var line := Lines(file)[n];
            && p.start.offset < p.end.offset <= p.start.offset + |line| <= |file|
            && file[p.start.offset..p.end.offset] == line[..p.end.offset - p.start.offset]
            && file[p.start.offset] == '#'
  {
    var line := Lines(file)[n];
    var off := FindOffsetByLineNumber(file, n);
    LineAtOffset(file, n);
    assert file[off..off + |line|] == line;
    var len := FindSpace(line).UnwrapOr(0) + 1;
    assert len <= |line|;
    assert file[off..off + len] == line[..len];
    assert file[off] == line[0];
  }

  /** "# fff" has a single space after its hash and is not flagged; "#   fff" is. */
  lemma ExamplePredicate()
    ensures !StartsWithAtxHeadingWithoutSpace("# fff")
    ensures StartsWithAtxHeadingWithoutSpace("#   fff")
  {
    assert LeadingHashes("# fff") == 1;
    assert WhitespaceFrom("# fff", 1) == 1;
    assert LeadingHashes("#   fff") == 1;
    assert WhitespaceFrom("#   fff", 4) == 0;
    assert WhitespaceFrom("#   fff", 1) == 3;
  }

  /** The file "#   fff" gives exactly one violation, on line 0, spanning offsets 0 to 2. */
  lemma ExampleFile()
    ensures Violations("#   fff") == [ToIssue(0, "#   fff", "#   fff")]
    ensures ToIssue(0, "#   fff", "#   fff").position == Some(NewPosition(0, 1, 0, 0, 1, 2))
  {
    var file := "#   fff";
    assert NewlineFrom(file, 0) == |file|;
    assert Lines(file) == [file];
    ExamplePredicate();
    var e := Seqs.Enumerate([file]);
    assert e == [(0, file)];
    assert e[..0] == [];
    assert FindSpace(file[1..]) == Some(0);
    assert FindSpace(file) == Some(1);
  }
}
