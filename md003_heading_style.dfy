/** Lint rule MD003: all headings of a document use one heading style, either the configured
    one or, in `Consistent` mode, the style of the document's first heading. */
module Md003 {
  import opened Wrappers
  import opened Common
  import opened Violation
  import Seqs

  const Code := "MD003"
  const DocLink := "https://github.com/DavidAnson/markdownlint/blob/v0.32.1/doc/md003.md"
  const PinStyleFix := "Alternatively, you can enforce specific heading style via either \"headings\" option from the \"[style]\" section in config file or via \"--style-headings\" CLI option"
  const ReferenceFix := "See Markdown headings reference: https://www.markdownguide.org/basic-syntax/#headings"

  datatype HeadingStyle = Consistent | Atx | SetExt

  /** `HeadingStyle::as_str` */
  function AsStr(style: HeadingStyle): string {
    match style
    case Consistent => "consistent"
    case Atx => "ATX"
    case SetExt => "SetExt"
  }

  /** The configured style as the user spells it in the configuration. */
  function InputStyleString(style: HeadingStyle): string {
    match style
    case Consistent => "consistent"
    case Atx => "atx"
    case SetExt => "setext"
  }

  /** The other one of the two concrete heading styles. */
  function Opposite(style: HeadingStyle): HeadingStyle {
    if style == Atx then SetExt else Atx
  }

  /** Rust's `{:#?}` of a string holding no quote, backslash or control character. */
  function Debug(s: string): string {
    "\"" + s + "\""
  }

  /** `source.get(start..end).unwrap_or("")` */
  function Slice(source: string, start: nat, end: nat): string {
    if start <= end <= |source| then source[start..end] else ""
  }

  /** A heading is ATX exactly when the source text it spans starts with `#`; a span that does
      not lie inside the source reads as the empty text and so counts as SetExt. */
  function StyleOf(source: string, h: Position): (style: HeadingStyle)
    ensures style != Consistent
    ensures style == Atx <==>
      h.start.offset < h.end.offset <= |source| && source[h.start.offset] == '#'
  {
    var text := Slice(source, h.start.offset, h.end.offset);
    if |text| > 0 && text[0] == '#' then Atx else SetExt
  }

  /** The style every heading should have: the configured one, or in `Consistent` mode the
      style of the first heading (ATX when there is none). */
  function PreferredStyle(source: string, headings: seq<Position>, style: HeadingStyle): (preferred: HeadingStyle)
    ensures preferred != Consistent
    ensures style != Consistent ==> preferred == style
    ensures style == Consistent && headings == [] ==> preferred == Atx
    ensures style == Consistent && headings != [] ==> preferred == StyleOf(source, headings[0])
  {
    match style
    case Consistent => if |headings| > 0 then StyleOf(source, headings[0]) else Atx
    case Atx => Atx
    case SetExt => SetExt
  }

  function Message(style: HeadingStyle, preferred: HeadingStyle, observed: HeadingStyle): string {
    if style == Consistent then
      "Inconsistent headings style. First heading in this file is " + Debug(AsStr(preferred))
        + ", but this one is " + Debug(AsStr(observed))
    else
      "Wrong heading style. Expected " + Debug(InputStyleString(style)) + ", got " + Debug(AsStr(observed))
  }

  function Fixes(preferred: HeadingStyle): seq<string> {
    ["Change heading style to " + Debug(AsStr(preferred)), PinStyleFix, ReferenceFix]
  }

  /** The violation reported for heading `h`. */
  function MakeViolation(source: string, h: Position, style: HeadingStyle, preferred: HeadingStyle): Violation {
    Violation(Code, Message(style, preferred, StyleOf(source, h)), DocLink, Fixes(preferred), true, Some(h))
  }

  /** The rule on a document's headings, in document order: one violation for every heading
      whose style is not the preferred one. */
  function Violations(source: string, headings: seq<Position>, style: HeadingStyle): seq<Violation> {
    var preferred := PreferredStyle(source, headings, style);
    Seqs.FilterMap(headings, h => StyleOf(source, h) != preferred,
                   h => MakeViolation(source, h, style, preferred))
  }

  /** A node of the parsed document, as the pre-order traversal visits it. */
  datatype NodeKind = HeadingNode | OtherNode
  datatype Node = Node(kind: NodeKind, position: Position)

  predicate IsHeading(n: Node) {
    n.kind == HeadingNode
  }

  function PositionOf(n: Node): Position {
    n.position
  }

  /** The headings among the visited nodes, in visiting order. */
  function Headings(nodes: seq<Node>): seq<Position> {
    Seqs.FilterMap(nodes, IsHeading, PositionOf)
  }

  /** `md003_heading_style`: collects the headings while visiting the nodes, then reports the
      ones whose style differs from the preferred one. */
  method CheckHeadingStyle(source: string, nodes: seq<Node>, style: HeadingStyle) returns (violations: seq<Violation>)
    ensures violations == Violations(source, Headings(nodes), style)
  {
    var headings: seq<Position> := [];
    for i := 0 to |nodes|
      invariant headings == Headings(nodes[..i])
    {
      assert nodes[..i + 1][..i] == nodes[..i];
      if nodes[i].kind == HeadingNode {
        headings := headings + [nodes[i].position];
      }
    }
    assert nodes[..|nodes|] == nodes;
    violations := Violations(source, headings, style);
  }

  /** The violations are the offending headings, as an in-order subsequence: the k-th violation
      is built from the k-th heading whose style differs from the preferred one. */
  lemma ViolationsAreOffendingHeadings(source: string, headings: seq<Position>, style: HeadingStyle)
    ensures var preferred := PreferredStyle(source, headings, style);
            var idx := Seqs.Indices(headings, h => StyleOf(source, h) != preferred);
            var vs := Violations(source, headings, style);
            && |vs| == |idx| <= |headings|
            && (forall k, l :: 0 <= k < l < |idx| ==> idx[k] < idx[l])
            && (forall i :: 0 <= i < |headings| ==> (i in idx <==> StyleOf(source, headings[i]) != preferred))
            && (forall k :: 0 <= k < |idx| ==> vs[k] == MakeViolation(source, headings[idx[k]], style, preferred))
  {
    var preferred := PreferredStyle(source, headings, style);
    Seqs.FilterMapByIndices(headings, h => StyleOf(source, h) != preferred,
                            h => MakeViolation(source, h, style, preferred));
  }

  /** No violation is reported exactly when every heading has the preferred style; in particular
      a document without headings has none. */
  lemma NoViolationsIffAllPreferred(source: string, headings: seq<Position>, style: HeadingStyle)
    ensures Violations(source, headings, style) == [] <==>
      forall i :: 0 <= i < |headings| ==> StyleOf(source, headings[i]) == PreferredStyle(source, headings, style)
  {
    var preferred := PreferredStyle(source, headings, style);
    Seqs.FilterMapEmpty(headings, h => StyleOf(source, h) != preferred,
                        h => MakeViolation(source, h, style, preferred));
  }

  /** In `Consistent` mode the first heading sets the style and is never reported. */
  lemma ConsistentFirstNeverFlagged(source: string, headings: seq<Position>)
    requires headings != []
    ensures 0 !in Seqs.Indices(headings, h => StyleOf(source, h) != StyleOf(source, headings[0]))
    ensures |Violations(source, headings, Consistent)| < |headings|
  {
    ViolationsAreOffendingHeadings(source, headings, Consistent);
    var idx := Seqs.Indices(headings, h => StyleOf(source, h) != StyleOf(source, headings[0]));
    if |idx| == |headings| {
      // |headings| ascending indices below |headings| must include 0
      IncreasingStartsAtZero(idx, |headings|);
    }
  }

  /** `n` strictly increasing naturals below `n` start at 0. */
  lemma IncreasingStartsAtZero(idx: seq<nat>, n: nat)
    requires |idx| == n > 0
    requires forall k :: 0 <= k < n ==> idx[k] < n
    requires forall a, b :: 0 <= a < b < n ==> idx[a] < idx[b]
    ensures idx[0] == 0
  {
    var k := n - 1;
    while k > 0
      invariant 0 <= k < n
      invariant idx[k] <= k
    {
      k := k - 1;
    }
  }

  /** In `Consistent` mode a document whose headings all share one style has no violation. */
  lemma ConsistentUniformStyleNoViolations(source: string, headings: seq<Position>)
    requires forall i :: 0 <= i < |headings| ==> StyleOf(source, headings[i]) == StyleOf(source, headings[0])
    ensures Violations(source, headings, Consistent) == []
  {
    NoViolationsIffAllPreferred(source, headings, Consistent);
  }

  /** Every violation carries code MD003, the rule's documentation link, the fixable flag, the
      position of one of the headings and three fixes, the first naming the preferred style; its
      message names the preferred (or configured) style and the opposite, observed style. */
  lemma ViolationFields(source: string, headings: seq<Position>, style: HeadingStyle)
    ensures var preferred := PreferredStyle(source, headings, style);
            forall v :: v in Violations(source, headings, style) ==>
              && v.position.Some? && v.position.value in headings
              && WellFormed(v, style, preferred)
  {
    var preferred := PreferredStyle(source, headings, style);
    var idx := Seqs.Indices(headings, h => StyleOf(source, h) != preferred);
    var vs := Violations(source, headings, style);
    ViolationsAreOffendingHeadings(source, headings, style);
    forall v | v in vs
      ensures v.position.Some? && v.position.value in headings && WellFormed(v, style, preferred)
    {
      var k :| 0 <= k < |vs| && vs[k] == v;
      MakeViolationFields(source, headings[idx[k]], style, preferred);
    }
  }

  /** The fixed fields of an MD003 violation, and its message: the preferred (or configured)
      style against the opposite style, which is the one observed. */
  ghost predicate WellFormed(v: Violation, style: HeadingStyle, preferred: HeadingStyle) {
    && v.code == "MD003"
    && v.docLink == "https://github.com/DavidAnson/markdownlint/blob/v0.32.1/doc/md003.md"
    && v.isFmtFixable
    && v.fixes == ["Change heading style to " + Debug(AsStr(preferred)), PinStyleFix, ReferenceFix]
    && v.message == (
         if style == Consistent then
           "Inconsistent headings style. First heading in this file is " + Debug(AsStr(preferred))
             + ", but this one is " + Debug(AsStr(Opposite(preferred)))
         else
           "Wrong heading style. Expected " + Debug(InputStyleString(style))
             + ", got " + Debug(AsStr(Opposite(style))))
  }

  /** A heading reported against a preferred style gets a well-formed violation at its position. */
  lemma MakeViolationFields(source: string, h: Position, style: HeadingStyle, preferred: HeadingStyle)
    requires preferred != Consistent && StyleOf(source, h) != preferred
    requires style != Consistent ==> preferred == style
    ensures MakeViolation(source, h, style, preferred).position == Some(h)
    ensures WellFormed(MakeViolation(source, h, style, preferred), style, preferred)
  {
    assert StyleOf(source, h) == Opposite(preferred);
  }

  /** "# H1", a blank line, then "H2" underlined: in `Consistent` mode only the second heading
      is reported. */
  lemma ExampleConsistent(source: string, hs: seq<Position>)
    requires source == "# H1\n        \nH2\n-----"
    requires hs == [NewPosition(1, 1, 0, 1, 5, 4), NewPosition(3, 1, 14, 4, 6, 22)]
    ensures var vs := Violations(source, hs, Consistent);
            && |vs| == 1
            && vs[0].message == "Inconsistent headings style. First heading in this file is \"ATX\", but this one is \"SetExt\""
            && vs[0].position == Some(hs[1])
  {
    ExampleConsistentStyles(source, hs);
    ConsistentAtxThenSetExt(source, hs[0], hs[1]);
    assert Message(Consistent, Atx, SetExt)
      == "Inconsistent headings style. First heading in this file is \"ATX\", but this one is \"SetExt\"";
  }

  /** In `Consistent` mode, an ATX heading followed by a SetExt one reports the second only. */
  lemma ConsistentAtxThenSetExt(source: string, first: Position, second: Position)
    requires StyleOf(source, first) == Atx && StyleOf(source, second) == SetExt
    ensures Violations(source, [first, second], Consistent) == [MakeViolation(source, second, Consistent, Atx)]
  {
    var hs := [first, second];
    var p := h => StyleOf(source, h) != Atx;
    var f := h => MakeViolation(source, h, Consistent, Atx);
    assert hs[..1][..0] == [];
    assert Seqs.FilterMap(hs[..1], p, f) == [];
  }

  lemma ExampleConsistentStyles(source: string, hs: seq<Position>)
    requires source == "# H1\n        \nH2\n-----"
    requires hs == [NewPosition(1, 1, 0, 1, 5, 4), NewPosition(3, 1, 14, 4, 6, 22)]
    ensures StyleOf(source, hs[0]) == Atx && StyleOf(source, hs[1]) == SetExt
    ensures PreferredStyle(source, hs, Consistent) == Atx
  {
    assert source[0] == '#' && source[14] == 'H';
  }

  /** "# H1" checked against a configured SetExt style is reported. */
  lemma ExampleSetExt()
    ensures var vs := Violations("# H1", [NewPosition(1, 1, 0, 1, 5, 4)], SetExt);
            && |vs| == 1
            && vs[0].message == "Wrong heading style. Expected \"setext\", got \"ATX\""
            && vs[0].position == Some(NewPosition(1, 1, 0, 1, 5, 4))
  {
    assert StyleOf("# H1", NewPosition(1, 1, 0, 1, 5, 4)) == Atx;
    assert Message(SetExt, SetExt, Atx) == "Wrong heading style. Expected \"setext\", got \"ATX\"";
  }

  /** An underlined "H1" checked against a configured ATX style is reported. */
  lemma ExampleAtx()
    ensures var vs := Violations("H1\n===========", [NewPosition(1, 1, 0, 2, 12, 14)], Atx);
            && |vs| == 1
            && vs[0].message == "Wrong heading style. Expected \"atx\", got \"SetExt\""
            && vs[0].position == Some(NewPosition(1, 1, 0, 2, 12, 14))
  {
    assert StyleOf("H1\n===========", NewPosition(1, 1, 0, 2, 12, 14)) == SetExt;
    assert Message(Atx, Atx, SetExt) == "Wrong heading style. Expected \"atx\", got \"SetExt\"";
  }
}
