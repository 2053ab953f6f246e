/** The C++ syntax highlighter of the editor pane: an ordered table of pattern rules,
    each painting its matches into the line's per-character format buffer, followed by
    a scan for block comments that carries one bit of state from line to line.

    The regular expressions themselves are not interpreted: for every rule of the table
    the spans it matches in the line are an input of `HighlightBlock`. */
module Highlighting {
  import opened Text

  /** The character formats of the highlighter. `Plain` is the default format a line
      starts with before any rule is applied. */
  datatype Format =
    | Plain | Keyword | ClassName | FunctionCall | Number | Operator
    | Preprocessor | LineComment | Quotation | BlockComment

  /** `length` characters starting at `start`, as a match or a `setFormat` call gives them. */
  datatype Span = Span(start: nat, length: nat)

  /** One entry of the rule table: the pattern (kept as text) and the format of its matches. */
  datatype Rule = Rule(pattern: string, format: Format)

  predicate Covers(span: Span, i: int) {
    span.start <= i < span.start + span.length
  }

  /** Some span of `spans` covers character `i`. */
  predicate CoveredBy(spans: seq<Span>, i: int) {
    exists k :: 0 <= k < |spans| && Covers(spans[k], i)
  }

  // ---------------------------------------------------------------------------
  // The rule table built by the constructor
  // ---------------------------------------------------------------------------

  /** The keywords, in the order the constructor adds their rules. */
  const Keywords: seq<string> := [
    "class", "const", "enum", "explicit", "friend", "inline", "namespace", "operator",
    "private", "protected", "public", "signals", "signed", "slots", "static", "struct",
    "template", "typedef", "typename", "union", "unsigned", "virtual", "volatile", "using",
    "if", "else", "for", "while", "do", "switch", "case", "break", "return", "continue",
    "new", "delete", "try", "catch", "throw", "this", "true", "false", "nullptr", "void",
    "int", "float", "double", "char", "bool", "string", "auto", "override"]

  /** The whole-word rule for one keyword. */
  function KeywordRule(word: string): Rule {
    Rule("\\b" + word + "\\b", Keyword)
  }

  /** One whole-word rule per keyword, in keyword order. */
  function KeywordRules(): (r: seq<Rule>)
    ensures |r| == |Keywords|
    ensures forall i :: 0 <= i < |Keywords| ==> r[i] == KeywordRule(Keywords[i])
  {
    seq(|Keywords|, i requires 0 <= i < |Keywords| => KeywordRule(Keywords[i]))
  }

  /** The rules that follow the keyword rules, in table order. */
  const TrailingRules: seq<Rule> := [
    Rule("\\bQ[A-Za-z]+\\b", ClassName),
    Rule("\\b[A-Za-z0-9_]+(?=\\()", FunctionCall),
    Rule("\\b\\d+(\\.\\d+)?\\b", Number),
    Rule("[\\+\\-\\*\\/\\=\\<\\>\\!\\&\\|\\^\\~\\%]+", Operator),
    Rule("#[a-zA-Z]+\\b", Preprocessor),
    Rule("//[^\n]*", LineComment),
    Rule("\".*\"", Quotation)]

  /** The rule table: one keyword rule per keyword, then the class-name, function-call,
      number, operator, preprocessor, line-comment and string rules, in that order. */
  function DefaultRules(): (r: seq<Rule>)
    ensures |r| == |Keywords| + 7 == 59
    ensures forall i :: 0 <= i < |Keywords| ==> r[i] == KeywordRule(Keywords[i])
    ensures forall i :: 0 <= i < |Keywords| ==> r[i].format == Keyword
    ensures r[52].format == ClassName && r[53].format == FunctionCall && r[54].format == Number
    ensures r[55].format == Operator && r[56].format == Preprocessor
    ensures r[57].format == LineComment && r[58].format == Quotation
  {
    KeywordRules() + TrailingRules
  }

  // ---------------------------------------------------------------------------
  // Painting formats
  // ---------------------------------------------------------------------------

  /** A line of `n` characters before highlighting. */
  function Blank(n: nat): seq<Format> {
    seq(n, _ => Plain)
  }

  /** QSyntaxHighlighter::setFormat: the characters of `span` that lie in the line get
      format `f`; the part of the span past the end of the line is ignored. */
  function Paint(fmts: seq<Format>, span: Span, f: Format): seq<Format> {
    seq(|fmts|, i requires 0 <= i < |fmts| => if Covers(span, i) then f else fmts[i])
  }

  /** `setFormat` called for each span of `spans` in turn, with the same format. */
  function PaintAll(fmts: seq<Format>, spans: seq<Span>, f: Format): (r: seq<Format>)
    ensures |r| == |fmts|
  {
    if spans == [] then fmts
    else Paint(PaintAll(fmts, spans[..|spans| - 1], f), spans[|spans| - 1], f)
  }

  /** After painting a list of spans, a character has format `f` exactly when one of the
      spans covers it; every other character keeps its format. */
  lemma {:induction false} PaintAllAt(fmts: seq<Format>, spans: seq<Span>, f: Format, i: int)
    requires 0 <= i < |fmts|
    ensures PaintAll(fmts, spans, f)[i] == if CoveredBy(spans, i) then f else fmts[i]
  {
    if spans != [] {
      var init := spans[..|spans| - 1];
      PaintAllAt(fmts, init, f, i);
      if CoveredBy(spans, i) && !Covers(spans[|spans| - 1], i) {
        var k :| 0 <= k < |spans| && Covers(spans[k], i);
        assert init[k] == spans[k];
      }
      if CoveredBy(init, i) {
        var k :| 0 <= k < |init| && Covers(init[k], i);
        assert spans[k] == init[k];
      }
    }
  }

  /** Every rule in table order paints every one of its matches; `matches[j]` holds the
      spans rule `j` matches in the line. */
  function ApplyRules(fmts: seq<Format>, rules: seq<Rule>, matches: seq<seq<Span>>): (r: seq<Format>)
    requires |matches| == |rules|
    ensures |r| == |fmts|
  {
    if rules == [] then fmts
    else
      var n := |rules| - 1;
      PaintAll(ApplyRules(fmts, rules[..n], matches[..n]), matches[n], rules[n].format)
  }

  /** Later rules overwrite earlier ones: a character gets the format of the last rule in
      the table that matches it. */
  lemma {:induction false} LastMatchingRuleWins(fmts: seq<Format>, rules: seq<Rule>, matches: seq<seq<Span>>, i: int, k: nat)
    requires |matches| == |rules| && 0 <= i < |fmts|
    requires k < |rules| && CoveredBy(matches[k], i)
    requires forall j :: k < j < |rules| ==> !CoveredBy(matches[j], i)
    ensures ApplyRules(fmts, rules, matches)[i] == rules[k].format
  {
    var n := |rules| - 1;
    PaintAllAt(ApplyRules(fmts, rules[..n], matches[..n]), matches[n], rules[n].format, i);
    if k < n {
      LastMatchingRuleWins(fmts, rules[..n], matches[..n], i, k);
    }
  }

  /** A character that no rule matches keeps the format it had. */
  lemma {:induction false} UnmatchedKeepsFormat(fmts: seq<Format>, rules: seq<Rule>, matches: seq<seq<Span>>, i: int)
    requires |matches| == |rules| && 0 <= i < |fmts|
    requires forall j :: 0 <= j < |rules| ==> !CoveredBy(matches[j], i)
    ensures ApplyRules(fmts, rules, matches)[i] == fmts[i]
  {
    if rules != [] {
      var n := |rules| - 1;
      PaintAllAt(ApplyRules(fmts, rules[..n], matches[..n]), matches[n], rules[n].format, i);
      UnmatchedKeepsFormat(fmts, rules[..n], matches[..n], i);
    }
  }

  // ---------------------------------------------------------------------------
  // Block comments
  // ---------------------------------------------------------------------------

  const CommentStart := "/*"
  const CommentEnd := "*/"

  /** The comment spans found in a line, and whether the last of them is left open. */
  datatype Scan = Scan(spans: seq<Span>, open: bool)

  function SpanEnd(span: Span): nat {
    span.start + span.length
  }

  /** The block-comment loop of `highlightBlock`, started at `start` (-1: nothing to scan).
      From a start position it looks for the first `CommentEnd` at or after that position;
      if there is one, the span ends right after it and the loop goes on from the next
      `CommentStart`; if not, the span runs to the end of the line and the comment is left
      open. A scan started at a position has a first span starting there. */
  function ScanFrom(text: string, start: int): (r: Scan)
    requires start <= |text|
    ensures start < 0 <==> r.spans == []
    ensures start >= 0 ==> r.spans[0].start == start
    ensures r.open ==> r.spans != []
    decreases if start < 0 then 0 else |text| + 1 - start
  {
    if start < 0 then Scan([], false)
    else
      var end := IndexOf(text, CommentEnd, start);
      if end == -1 then Scan([Span(start, |text| - start)], true)
      else
        var length := end - start + |CommentEnd|;
        var rest := ScanFrom(text, IndexOf(text, CommentStart, start + length));
        Scan([Span(start, length)] + rest.spans, rest.open)
  }

  /** One turn of the block-comment loop: the span found at `start`, then the scan from
      the next `CommentStart` after it (none after a span that runs to the end of the line). */
  lemma ScanStep(text: string, start: nat, end: int, length: nat, next: int)
    requires start <= |text| && end == IndexOf(text, CommentEnd, start)
    requires length == if end == -1 then |text| - start else end - start + |CommentEnd|
    requires next == IndexOf(text, CommentStart, start + length)
    ensures next <= |text|
    ensures ScanFrom(text, start).spans == [Span(start, length)] + ScanFrom(text, next).spans
    ensures ScanFrom(text, start).open == (end == -1 || ScanFrom(text, next).open)
    ensures end == -1 ==> ScanFrom(text, start) == Scan([Span(start, length)], true)
  {
    if end == -1 {
      assert next == -1;
      assert ScanFrom(text, start) == Scan([Span(start, length)], true);
    } else {
      assert ScanFrom(text, start) == Scan([Span(start, length)] + ScanFrom(text, next).spans, ScanFrom(text, next).open);
    }
  }

  /** The spans of a scan lie inside the line, and an open scan ends at the end of the
      line. */
  lemma {:induction false} ScanSpansInLine(text: string, start: int)
    requires start <= |text|
    ensures var r := ScanFrom(text, start);
      (forall k :: 0 <= k < |r.spans| ==> SpanEnd(r.spans[k]) <= |text|)
      && (r.open ==> SpanEnd(r.spans[|r.spans| - 1]) == |text|)
    decreases if start < 0 then 0 else |text| + 1 - start
  {
    if start >= 0 {
      var end := IndexOf(text, CommentEnd, start);
      var length := if end == -1 then |text| - start else end - start + |CommentEnd|;
      var next := IndexOf(text, CommentStart, start + length);
      ScanStep(text, start, end, length, next);
      ScanSpansInLine(text, next);
      var r, rest := ScanFrom(text, start), ScanFrom(text, next);
      forall k | 0 < k < |r.spans|
        ensures r.spans[k] == rest.spans[k - 1]
      {
      }
    }
  }

  /** Each span ends no later than the next one starts, and every span but the last is
      at least two characters long. */
  predicate Increasing(spans: seq<Span>) {
    |spans| <= 1
    || (spans[0].length >= 2 && SpanEnd(spans[0]) <= spans[1].start && Increasing(spans[1..]))
  }

  /** In an increasing list of spans any earlier span ends before any later one starts. */
  lemma {:induction false} IncreasingPairs(spans: seq<Span>, k: nat, l: nat)
    requires Increasing(spans) && k < l < |spans|
    ensures SpanEnd(spans[k]) <= spans[l].start && spans[k].length >= 2
  {
    if k > 0 {
      IncreasingPairs(spans[1..], k - 1, l - 1);
    } else if l > 1 {
      IncreasingPairs(spans[1..], 0, l - 1);
    }
  }

  /** The spans of a scan come in increasing order without overlap, and every span but
      the last is at least two characters long, so the loop always moves on. */
  lemma {:induction false} ScanSpansIncreasing(text: string, start: int)
    requires start <= |text|
    ensures Increasing(ScanFrom(text, start).spans)
    decreases if start < 0 then 0 else |text| + 1 - start
  {
    if start >= 0 {
      var end := IndexOf(text, CommentEnd, start);
      var length := if end == -1 then |text| - start else end - start + |CommentEnd|;
      var next := IndexOf(text, CommentStart, start + length);
      ScanStep(text, start, end, length, next);
      ScanSpansIncreasing(text, next);
      assert ScanFrom(text, start).spans[1..] == ScanFrom(text, next).spans;
    }
  }

  /** Where the scan of a line begins: at 0 when the previous line left a comment open
      (block state 1), otherwise at the first `CommentStart` of the line. */
  function ScanStart(text: string, previousBlockState: int): int {
    if previousBlockState == 1 then 0 else IndexOf(text, CommentStart, 0)
  }

  /** The block comments of a line entered with the given previous block state. */
  function CommentSpans(text: string, previousBlockState: int): Scan {
    ScanFrom(text, ScanStart(text, previousBlockState))
  }

  /** The block state the line hands to the next one: 1 when a comment is left open. */
  function NextBlockState(text: string, previousBlockState: int): (r: int)
    ensures r == 0 || r == 1
  {
    if CommentSpans(text, previousBlockState).open then 1 else 0
  }

  /** The formats of a highlighted line: the rules first, the block comments on top. */
  function Highlight(text: string, previousBlockState: int, rules: seq<Rule>, matches: seq<seq<Span>>): (r: seq<Format>)
    requires |matches| == |rules|
    ensures |r| == |text|
  {
    PaintAll(ApplyRules(Blank(|text|), rules, matches), CommentSpans(text, previousBlockState).spans, BlockComment)
  }

  /** `span` is a closed comment: it ends right after the first `CommentEnd` at or
      after its start. */
  predicate ClosedComment(text: string, span: Span) {
    span.length >= 2 && OccursAt(text, CommentEnd, SpanEnd(span) - 2)
    && forall j :: span.start <= j < SpanEnd(span) - 2 ==> !OccursAt(text, CommentEnd, j)
  }

  /** A span from a start position to just after the first `CommentEnd` found there is
      a closed comment. */
  lemma FoundEndIsClosed(text: string, start: nat, end: int)
    requires end == IndexOf(text, CommentEnd, start) && end != -1
    ensures ClosedComment(text, Span(start, end - start + |CommentEnd|))
  {
  }

  /** Every span of `spans` is a closed comment, except the last one when `open`. */
  predicate ClosedUpToOpen(text: string, spans: seq<Span>, open: bool) {
    spans == []
    || (((|spans| > 1 || !open) ==> ClosedComment(text, spans[0])) && ClosedUpToOpen(text, spans[1..], open))
  }

  /** `ClosedUpToOpen` read at one index. */
  lemma {:induction false} ClosedUpToOpenAt(text: string, spans: seq<Span>, open: bool, k: nat)
    requires ClosedUpToOpen(text, spans, open) && k < |spans| && !(open && k == |spans| - 1)
    ensures ClosedComment(text, spans[k])
  {
    if k > 0 {
      ClosedUpToOpenAt(text, spans[1..], open, k - 1);
    }
  }

  /** The spans of a scan are closed comments, except an open last one. */
  lemma {:induction false} ScanClosedUpToOpen(text: string, start: int)
    requires start <= |text|
    ensures ClosedUpToOpen(text, ScanFrom(text, start).spans, ScanFrom(text, start).open)
    decreases if start < 0 then 0 else |text| + 1 - start
  {
    if start >= 0 {
      var end := IndexOf(text, CommentEnd, start);
      var length := if end == -1 then |text| - start else end - start + |CommentEnd|;
      var next := IndexOf(text, CommentStart, start + length);
      ScanStep(text, start, end, length, next);
      ScanClosedUpToOpen(text, next);
      assert ScanFrom(text, start).spans[1..] == ScanFrom(text, next).spans;
      if end != -1 {
        FoundEndIsClosed(text, start, end);
      }
    }
  }

  /** Every span of a scan but an open last one is a closed comment (so a slash, a star
      and a slash make a whole comment: the search starts at the `CommentStart` itself). */
  lemma ScanClosedSpan(text: string, start: int, k: nat)
    requires start <= |text|
    requires k < |ScanFrom(text, start).spans|
    requires !(ScanFrom(text, start).open && k == |ScanFrom(text, start).spans| - 1)
    ensures ClosedComment(text, ScanFrom(text, start).spans[k])
  {
    ScanClosedUpToOpen(text, start);
    ClosedUpToOpenAt(text, ScanFrom(text, start).spans, ScanFrom(text, start).open, k);
  }

  /** The open span of a scan is its last: it runs to the end of the line and no
      `CommentEnd` follows its start. */
  lemma {:induction false} ScanOpenSpan(text: string, start: int)
    requires start <= |text|
    requires ScanFrom(text, start).open
    ensures var r := ScanFrom(text, start); var s := r.spans[|r.spans| - 1];
      SpanEnd(s) == |text| && forall j :: s.start <= j ==> !OccursAt(text, CommentEnd, j)
    decreases if start < 0 then 0 else |text| + 1 - start
  {
    var end := IndexOf(text, CommentEnd, start);
    var length := if end == -1 then |text| - start else end - start + |CommentEnd|;
    var next := IndexOf(text, CommentStart, start + length);
    ScanStep(text, start, end, length, next);
    if end != -1 {
      ScanOpenSpan(text, next);
    }
  }

  /** `at` is the first `CommentStart` at or after `from`. */
  predicate NextOpener(text: string, from: int, at: int) {
    OccursAt(text, CommentStart, at) && forall j :: from <= j < at ==> !OccursAt(text, CommentStart, j)
  }

  /** Each span after the first starts at the first `CommentStart` after the span before it. */
  predicate Chained(text: string, spans: seq<Span>) {
    |spans| <= 1 || (NextOpener(text, SpanEnd(spans[0]), spans[1].start) && Chained(text, spans[1..]))
  }

  /** `Chained` read at one index. */
  lemma {:induction false} ChainedAt(text: string, spans: seq<Span>, k: nat)
    requires Chained(text, spans) && 0 < k < |spans|
    ensures NextOpener(text, SpanEnd(spans[k - 1]), spans[k].start)
  {
    if k > 1 {
      ChainedAt(text, spans[1..], k - 1);
    }
  }

  /** The spans of a scan are chained by the start markers. */
  lemma {:induction false} ScanChained(text: string, start: int)
    requires start <= |text|
    ensures Chained(text, ScanFrom(text, start).spans)
    decreases if start < 0 then 0 else |text| + 1 - start
  {
    if start >= 0 {
      var end := IndexOf(text, CommentEnd, start);
      var length := if end == -1 then |text| - start else end - start + |CommentEnd|;
      var next := IndexOf(text, CommentStart, start + length);
      ScanStep(text, start, end, length, next);
      ScanChained(text, next);
      assert ScanFrom(text, start).spans[1..] == ScanFrom(text, next).spans;
    }
  }

  /** Every span after the first starts at the first `CommentStart` after the end of the
      span before it. */
  lemma ScanSpanStart(text: string, start: int, k: nat)
    requires start <= |text|
    requires 0 < k < |ScanFrom(text, start).spans|
    ensures NextOpener(text, SpanEnd(ScanFrom(text, start).spans[k - 1]), ScanFrom(text, start).spans[k].start)
  {
    ScanChained(text, start);
    ChainedAt(text, ScanFrom(text, start).spans, k);
  }

  /** The state the line hands on is 1 exactly when some span finds no `CommentEnd`: then that span
      is the last and covers the rest of the line. */
  lemma NextStateIsOpenComment(text: string, previousBlockState: int)
    ensures NextBlockState(text, previousBlockState) == 1 <==>
      exists k :: 0 <= k < |CommentSpans(text, previousBlockState).spans|
        && forall j :: CommentSpans(text, previousBlockState).spans[k].start <= j ==> !OccursAt(text, CommentEnd, j)
  {
    var r := CommentSpans(text, previousBlockState);
    var start := ScanStart(text, previousBlockState);
    if r.open {
      ScanOpenSpan(text, start);
    } else {
      forall k | 0 <= k < |r.spans|
        ensures exists j :: r.spans[k].start <= j && OccursAt(text, CommentEnd, j)
      {
        ScanClosedSpan(text, start, k);
      }
    }
  }

  /** A line entered inside a comment is comment up to and including its first `CommentEnd`, or
      entirely comment (and the comment stays open) when it has none; an empty line
      entered inside a comment therefore keeps the state at 1. */
  lemma ContinuedComment(text: string)
    ensures var r := CommentSpans(text, 1); var end := IndexOf(text, CommentEnd, 0);
      r.spans != [] && r.spans[0].start == 0
      && (end == -1 ==> r.spans == [Span(0, |text|)] && r.open)
      && (end != -1 ==> r.spans[0] == Span(0, end + 2))
    ensures NextBlockState([], 1) == 1
  {
  }

  /** A line entered outside a comment that contains no `CommentStart` has no comment and hands on
      state 0. */
  lemma NoOpenerNoComment(text: string, previousBlockState: int)
    requires previousBlockState != 1
    requires forall j :: !OccursAt(text, CommentStart, j)
    ensures CommentSpans(text, previousBlockState) == Scan([], false)
    ensures NextBlockState(text, previousBlockState) == 0
  {
  }

  /** A two-character marker occurs where its two characters stand. */
  lemma OccursAtPair(s: string, pat: string, i: nat)
    requires |pat| == 2 && i + 2 <= |s|
    ensures OccursAt(s, pat, i) <==> s[i] == pat[0] && s[i + 1] == pat[1]
  {
    assert s[i..i + 2] == [s[i], s[i + 1]];
  }

  /** `CommentStart` followed by `/` is already a closed three-character comment. */
  lemma SlashStarSlash()
    ensures CommentSpans("/*/", 0) == Scan([Span(0, 3)], false)
  {
    var t := "/*/";
    OccursAtPair(t, CommentStart, 0);
    OccursAtPair(t, CommentEnd, 1);
    OccursAtPair(t, CommentEnd, 0);
    assert IndexOf(t, CommentEnd, 0) == 1;
  }

  /** A comment opened on a first line that reads "slash star space start" covers that
      whole line and stays open; on a second line that reads "end star slash int x;" only
      its first six characters are comment. */
  lemma TwoLineComment()
    ensures CommentSpans("/* start", 0) == Scan([Span(0, 8)], true)
    ensures CommentSpans("end */ int x;", 1) == Scan([Span(0, 6)], false)
  {
    OpeningLine();
    ClosingLine();
  }

  /** The first line of `TwoLineComment`: a start marker and no end marker. */
  lemma OpeningLine()
    ensures CommentSpans("/* start", 0) == Scan([Span(0, 8)], true)
  {
    var t1 := "/* start";
    OccursAtPair(t1, CommentStart, 0);
    forall j | 0 <= j ensures !OccursAt(t1, CommentEnd, j) {
      if j + 2 <= |t1| { OccursAtPair(t1, CommentEnd, j); }
    }
  }

  /** The second line of `TwoLineComment`: entered inside the comment, closed at index 4. */
  lemma ClosingLine()
    ensures CommentSpans("end */ int x;", 1) == Scan([Span(0, 6)], false)
  {
    var t2 := "end */ int x;";
    OccursAtPair(t2, CommentEnd, 0);
    OccursAtPair(t2, CommentEnd, 1);
    OccursAtPair(t2, CommentEnd, 2);
    OccursAtPair(t2, CommentEnd, 3);
    OccursAtPair(t2, CommentEnd, 4);
    assert IndexOf(t2, CommentEnd, 0) == IndexOf(t2, CommentEnd, 2);
    assert t2[4] == CommentEnd[0] && t2[5] == CommentEnd[1];
    assert IndexOf(t2, CommentEnd, 2) == IndexOf(t2, CommentEnd, 4) == 4;
    forall j | 6 <= j ensures !OccursAt(t2, CommentStart, j) {
      if j + 2 <= |t2| { OccursAtPair(t2, CommentStart, j); }
    }
  }


  /** Inside a comment span the comment format replaces whatever a rule wrote. */
  lemma CommentOverridesRules(text: string, previousBlockState: int, rules: seq<Rule>, matches: seq<seq<Span>>, i: int)
    requires |matches| == |rules| && 0 <= i < |text|
    requires CoveredBy(CommentSpans(text, previousBlockState).spans, i)
    ensures Highlight(text, previousBlockState, rules, matches)[i] == BlockComment
  {
    PaintAllAt(ApplyRules(Blank(|text|), rules, matches), CommentSpans(text, previousBlockState).spans, BlockComment, i);
  }

  /** Outside the comment spans a character has the format the rules gave it. */
  lemma OutsideCommentsRulesDecide(text: string, previousBlockState: int, rules: seq<Rule>, matches: seq<seq<Span>>, i: int)
    requires |matches| == |rules| && 0 <= i < |text|
    requires !CoveredBy(CommentSpans(text, previousBlockState).spans, i)
    ensures Highlight(text, previousBlockState, rules, matches)[i] == ApplyRules(Blank(|text|), rules, matches)[i]
  {
    PaintAllAt(ApplyRules(Blank(|text|), rules, matches), CommentSpans(text, previousBlockState).spans, BlockComment, i);
  }

  /** Painting one more span paints on top of the spans before it. */
  lemma PaintAllSnoc(fmts: seq<Format>, done: seq<Span>, span: Span, f: Format)
    ensures PaintAll(fmts, done + [span], f) == Paint(PaintAll(fmts, done, f), span, f)
  {
    assert (done + [span])[..|done|] == done;
  }

  /** Moving the first span of the rest of a scan to the spans already done. */
  lemma SpliceStep(done: seq<Span>, span: Span, rest: seq<Span>)
    ensures (done + [span]) + rest == done + ([span] + rest)
  {
  }

  // ---------------------------------------------------------------------------
  // The highlighter object
  // ---------------------------------------------------------------------------

  class Highlighter {
    /** The rule table, in the order the constructor appends to it. */
    var rules: seq<Rule>
    /** The format buffer of the line being highlighted, one entry per character. */
    var formats: array<Format>
    /** The block state of the line being highlighted (`setCurrentBlockState`). */
    var blockState: int

    constructor ()
      ensures rules == DefaultRules()
      ensures formats.Length == 0 && blockState == -1
    {
      rules := [];
      formats := new Format[0];
      blockState := -1;
      new;
      for i := 0 to |Keywords|
        invariant formats.Length == 0 && blockState == -1
        invariant rules == KeywordRules()[..i]
      {
        rules := rules + [KeywordRule(Keywords[i])];
      }
      assert rules == KeywordRules();
      // the class-name, function-call, number, operator, preprocessor,
      // line-comment and string rules, appended in that order
      rules := rules + TrailingRules;
    }

    /** QSyntaxHighlighter::setFormat on the current line's buffer. */
    method SetFormat(start: nat, count: nat, f: Format)
      modifies formats
      ensures formats[..] == Paint(old(formats[..]), Span(start, count), f)
    {
      if start >= formats.Length {
        return;
      }
      var end := if start + count < formats.Length then start + count else formats.Length;
      for i := start to end
        invariant forall j :: 0 <= j < formats.Length ==>
          formats[j] == if start <= j < i then f else old(formats[j])
      {
        formats[i] := f;
      }
    }

    /** Paints every match of one rule, in order. */
    method ApplyRule(spans: seq<Span>, f: Format)
      modifies formats
      ensures formats[..] == PaintAll(old(formats[..]), spans, f)
    {
      for m := 0 to |spans|
        invariant formats[..] == PaintAll(old(formats[..]), spans[..m], f)
      {
        SetFormat(spans[m].start, spans[m].length, f);
        assert spans[..m + 1][..m] == spans[..m];
      }
      assert spans[..|spans|] == spans;
    }

    /** Every rule of the table, in table order, paints every one of its matches. */
    method ApplyRuleTable(matches: seq<seq<Span>>)
      requires |matches| == |rules|
      modifies formats
      ensures formats[..] == ApplyRules(old(formats[..]), rules, matches)
    {
      for r := 0 to |rules|
        invariant formats[..] == ApplyRules(old(formats[..]), rules[..r], matches[..r])
      {
        ApplyRule(matches[r], rules[r].format);
        assert rules[..r + 1][..r] == rules[..r];
        assert matches[..r + 1][..r] == matches[..r];
      }
      assert rules[..|rules|] == rules && matches[..|matches|] == matches;
    }

    /** The block-comment loop: paints the comment spans of the line and sets the block
        state to 1 exactly when the line leaves a comment open, to 0 otherwise. */
    method HighlightComments(text: string, previousBlockState: int)
      modifies this`blockState, formats
      ensures formats[..] == PaintAll(old(formats[..]), CommentSpans(text, previousBlockState).spans, BlockComment)
      ensures blockState == NextBlockState(text, previousBlockState)
    {
      ghost var scan := CommentSpans(text, previousBlockState);
      ghost var done: seq<Span> := [];
      ghost var initial := formats[..];

      blockState := 0;
      var startIndex := 0;
      if previousBlockState != 1 {
        startIndex := IndexOf(text, CommentStart, 0);
      }
      while startIndex >= 0
        invariant startIndex <= |text|
        invariant scan.spans == done + ScanFrom(text, startIndex).spans
        invariant scan.open == (blockState == 1 || ScanFrom(text, startIndex).open)
        invariant blockState == 0 || (blockState == 1 && startIndex < 0)
        invariant formats[..] == PaintAll(initial, done, BlockComment)
        decreases if startIndex < 0 then 0 else |text| + 1 - startIndex
      {
        var endIndex := IndexOf(text, CommentEnd, startIndex);
        var commentLength := 0;
        if endIndex == -1 {
          blockState := 1;
          commentLength := |text| - startIndex;
        } else {
          commentLength := endIndex - startIndex + |CommentEnd|;
        }
        SetFormat(startIndex, commentLength, BlockComment);
        var next := IndexOf(text, CommentStart, startIndex + commentLength);
        ScanStep(text, startIndex, endIndex, commentLength, next);
        PaintAllSnoc(initial, done, Span(startIndex, commentLength), BlockComment);
        SpliceStep(done, Span(startIndex, commentLength), ScanFrom(text, next).spans);
        done := done + [Span(startIndex, commentLength)];
        startIndex := next;
      }
      assert scan.spans == done;
    }

    /** Highlights one line: every rule of the table paints its matches in table order,
        then the block comments are painted on top, and the block state handed to the
        next line is 1 exactly when the line leaves a comment open. */
    method HighlightBlock(text: string, previousBlockState: int, matches: seq<seq<Span>>)
      requires |matches| == |rules|
      modifies this
      ensures rules == old(rules) && fresh(formats)
      ensures formats[..] == Highlight(text, previousBlockState, rules, matches)
      ensures blockState == NextBlockState(text, previousBlockState)
    {
      formats := new Format[|text|](_ => Plain);
      assert formats[..] == Blank(|text|);
      ApplyRuleTable(matches);
      HighlightComments(text, previousBlockState);
    }
  }
}
