/**
 * Comment-block content: line breaks normalised to `\n`, the
 * `{{linked_type 'X'}}` directive rewritten to `{X}`, and one ` * ` line
 * per segment. The caller writes the `/**` and ` */` lines.
 */
module WriterExtensions {
  import opened Wrappers
  import opened Strings
  import opened WriterState

  /** `Replace("\r\n", "\n")`. */
  function ReplaceCrLf(s: string): string
    decreases |s|
  {
    if StartsWith(s, "\r\n") then "\n" + ReplaceCrLf(s[2..])
    else if s == [] then []
    else [s[0]] + ReplaceCrLf(s[1..])
  }

  /** `Replace("\r", "\n")`. */
  function ReplaceCr(s: string): (r: string)
    ensures |r| == |s|
    ensures forall k :: 0 <= k < |s| ==> r[k] == if s[k] == '\r' then '\n' else s[k]
  {
    seq(|s|, k requires 0 <= k < |s| => if s[k] == '\r' then '\n' else s[k])
  }

  function NormalizeLineBreaks(s: string): string {
    ReplaceCr(ReplaceCrLf(s))
  }

  /** After normalisation no carriage return is left. */
  lemma NoCarriageReturnLeft(s: string)
    ensures '\r' !in NormalizeLineBreaks(s)
  {
    var r := NormalizeLineBreaks(s);
    forall k | 0 <= k < |r| ensures r[k] != '\r' {
    }
  }

  /** A prefix free of carriage returns passes through the first rewrite. */
  lemma {:induction false} CrLfPrefix(x: string, rest: string)
    requires '\r' !in x
    ensures ReplaceCrLf(x + rest) == x + ReplaceCrLf(rest)
    decreases |x|
  {
    if x == [] {
      assert x + rest == rest;
    } else {
      assert (x + rest)[0] == x[0];
      assert (x + rest)[1..] == x[1..] + rest;
      CrLfPrefix(x[1..], rest);
    }
  }

  /** Text without carriage returns is left as it is. */
  lemma NoCarriageReturnUnchanged(s: string)
    requires '\r' !in s
    ensures NormalizeLineBreaks(s) == s
  {
    CrLfPrefix(s, []);
    assert s + [] == s;
  }

  lemma ReplaceCrAppend(a: string, b: string)
    ensures ReplaceCr(a + b) == ReplaceCr(a) + ReplaceCr(b)
  {
  }

  lemma ReplaceCrKeeps(x: string)
    requires '\r' !in x
    ensures ReplaceCr(x) == x
  {
  }

  /** Both `\r\n` and a lone `\r` become `\n`. */
  lemma BreakForms(x: string, y: string)
    requires '\r' !in x
    ensures NormalizeLineBreaks(x + "\r\n" + y) == x + "\n" + NormalizeLineBreaks(y)
    ensures (y == [] || y[0] != '\n') ==> NormalizeLineBreaks(x + "\r" + y) == x + "\n" + NormalizeLineBreaks(y)
  {
    CrLfBreak(x, y);
    if y == [] || y[0] != '\n' {
      CrBreak(x, y);
    }
  }

  lemma CrLfBreak(x: string, y: string)
    requires '\r' !in x
    ensures NormalizeLineBreaks(x + "\r\n" + y) == x + "\n" + NormalizeLineBreaks(y)
  {
    ReplaceCrKeeps(x);
    var ry := ReplaceCrLf(y);
    assert x + "\r\n" + y == x + ("\r\n" + y);
    CrLfPrefix(x, "\r\n" + y);
    assert ("\r\n" + y)[2..] == y;
    assert ReplaceCrLf(x + "\r\n" + y) == x + ("\n" + ry);
    ReplaceCrAppend(x, "\n" + ry);
    ReplaceCrAppend("\n", ry);
  }

  lemma CrBreak(x: string, y: string)
    requires '\r' !in x
    requires y == [] || y[0] != '\n'
    ensures NormalizeLineBreaks(x + "\r" + y) == x + "\n" + NormalizeLineBreaks(y)
  {
    ReplaceCrKeeps(x);
    var ry := ReplaceCrLf(y);
    assert x + "\r" + y == x + ("\r" + y);
    CrLfPrefix(x, "\r" + y);
    assert ("\r" + y)[1..] == y;
    assert ReplaceCrLf(x + "\r" + y) == x + ("\r" + ry);
    ReplaceCrAppend(x, "\r" + ry);
    ReplaceCrAppend("\r", ry);
  }

  const LinkOpen := "{{linked_type '"

  /** The first quote at or after `k`, or `|s|`. */
  function QuoteFrom(s: string, k: nat): (q: nat)
    requires k <= |s|
    ensures k <= q <= |s|
    ensures forall t :: k <= t < q ==> s[t] != '\''
    ensures q < |s| ==> s[q] == '\''
    decreases |s| - k
  {
    if k == |s| || s[k] == '\'' then k else QuoteFrom(s, k + 1)
  }

  /** If `s` starts with a complete directive, where it ends. The greedy
      `[^']+` runs to the first quote, which must open `'}}`. */
  function DirectiveEnd(s: string): (e: Option<nat>)
    ensures e.Some? ==> 19 <= e.value <= |s|
    ensures e.Some? ==> StartsWith(s, LinkOpen) && s[e.value - 3..e.value] == "'}}"
  {
    if !StartsWith(s, LinkOpen) then None
    else
      var q := QuoteFrom(s, 15);
      if q > 15 && q + 3 <= |s| && s[q..q + 3] == "'}}" then Some(q + 3) else None
  }

  /** `ProcessCodeComment`: a left-to-right, non-overlapping replacement of
      each directive by its type name in braces. */
  function ProcessCodeComment(s: string): string
    decreases |s|
  {
    match DirectiveEnd(s)
    case Some(e) => "{" + s[15..e - 3] + "}" + ProcessCodeComment(s[e..])
    case None => if s == [] then [] else [s[0]] + ProcessCodeComment(s[1..])
  }

  /** A directive with a non-empty, quote-free type name becomes `{X}`. */
  lemma DirectiveRewritten(x: string, rest: string)
    requires x != [] && '\'' !in x
    ensures ProcessCodeComment(LinkOpen + x + "'}}" + rest) == "{" + x + "}" + ProcessCodeComment(rest)
  {
    var s := LinkOpen + x + "'}}" + rest;
    var e := 18 + |x|;
    DirectiveSpan(x, rest);
    assert ProcessCodeComment(s) == "{" + s[15..e - 3] + "}" + ProcessCodeComment(s[e..]);
  }

  /** Where the directive `{{linked_type 'x'}}` ends and what it names. */
  lemma DirectiveSpan(x: string, rest: string)
    requires x != [] && '\'' !in x
    ensures var s := LinkOpen + x + "'}}" + rest; var e := 18 + |x|;
      DirectiveEnd(s) == Some(e) && s[15..e - 3] == x && s[e..] == rest
  {
    var s := LinkOpen + x + "'}}" + rest;
    assert s[..15] == LinkOpen;
    assert QuoteFrom(s, 15) == 15 + |x| by {
      assert s[15 + |x|] == '\'';
      forall t | 15 <= t < 15 + |x| ensures s[t] != '\'' {
        assert s[t] == x[t - 15];
      }
    }
    assert s[15 + |x|..18 + |x|] == "'}}";
    assert s[15..15 + |x|] == x;
    assert s[18 + |x|..] == rest;
  }

  /** Text without the directive's opening is unchanged. */
  lemma {:induction false} NoDirectiveUnchanged(s: string)
    requires forall i: nat :: !OccursAt(s, LinkOpen, i)
    ensures ProcessCodeComment(s) == s
    decreases |s|
  {
    if s != [] {
      assert !OccursAt(s, LinkOpen, 0);
      forall i: nat ensures !OccursAt(s[1..], LinkOpen, i) {
        assert !OccursAt(s, LinkOpen, i + 1);
        if i + 15 <= |s| - 1 {
          assert s[1..][i..i + 15] == s[i + 1..i + 16];
        }
      }
      NoDirectiveUnchanged(s[1..]);
    }
  }

  function LineFeeds(s: string): nat {
    Count(s, '\n')
  }

  lemma DirectiveLineFeeds(s: string, e: nat)
    requires 19 <= e <= |s| && '\n' !in s[..15] && '\n' !in s[e - 3..e]
    ensures LineFeeds(s) == LineFeeds(s[15..e - 3]) + LineFeeds(s[e..])
  {
    var a, x, q, r := s[..15], s[15..e - 3], s[e - 3..e], s[e..];
    assert s == a + (x + (q + r));
    CountAppend(q, r, '\n');
    CountAppend(x, q + r, '\n');
    CountAppend(a, x + (q + r), '\n');
  }

  /** The rewrite neither adds nor removes line feeds. */
  lemma {:induction false} LineFeedsKept(s: string)
    ensures LineFeeds(ProcessCodeComment(s)) == LineFeeds(s)
    decreases |s|
  {
    match DirectiveEnd(s)
    case Some(e) =>
      LineFeedsKept(s[e..]);
      DirectiveStep(s, e);
    case None =>
      if s != [] {
        LineFeedsKept(s[1..]);
        CountAppend([s[0]], ProcessCodeComment(s[1..]), '\n');
        assert s == [s[0]] + s[1..];
        CountAppend([s[0]], s[1..], '\n');
      }
  }

  /** A rewritten directive keeps the line feeds its type name holds. */
  lemma DirectiveStep(s: string, e: nat)
    requires DirectiveEnd(s) == Some(e)
    requires LineFeeds(ProcessCodeComment(s[e..])) == LineFeeds(s[e..])
    ensures LineFeeds(ProcessCodeComment(s)) == LineFeeds(s)
  {
    DirectiveFramesFree(s, e);
    var x := s[15..e - 3];
    var rest := ProcessCodeComment(s[e..]);
    assert ProcessCodeComment(s) == "{" + x + "}" + rest;
    DirectiveLineFeeds(s, e);
    BracedLineFeeds(x, rest);
  }

  /** The directive's opening and closing hold no line feed. */
  lemma DirectiveFramesFree(s: string, e: nat)
    requires DirectiveEnd(s) == Some(e)
    ensures '\n' !in s[..15] && '\n' !in s[e - 3..e]
  {
    assert s[..15] == LinkOpen;
  }

  /** Braces around a type name add no line feed. */
  lemma BracedLineFeeds(x: string, rest: string)
    ensures LineFeeds("{" + x + "}" + rest) == LineFeeds(x) + LineFeeds(rest)
  {
    assert "{" + x + "}" + rest == "{" + (x + ("}" + rest));
    CountAppend(x, "}" + rest, '\n');
    CountAppend("{", x + ("}" + rest), '\n');
  }

  /** ` * ` before each segment. */
  function Prefixed(segments: seq<string>): (r: seq<string>)
    ensures |r| == |segments|
    ensures forall i :: 0 <= i < |r| ==> r[i] == " * " + segments[i]
  {
    seq(|segments|, i requires 0 <= i < |segments| => " * " + segments[i])
  }

  /** The segments of a non-blank comment, after normalisation and rewrite. */
  function Segments(comment: string): seq<string> {
    SplitLines(ProcessCodeComment(NormalizeLineBreaks(comment)))
  }

  /** The lines `WriteCommentBlockContent` emits, before indentation. */
  function CommentBlockLines(comment: Option<string>): seq<string> {
    if Blank(comment) then [] else Prefixed(Segments(comment.value))
  }

  /** A blank comment emits nothing; otherwise one line per line break plus
      one, empty segments included. Joining the segments with `\n` gives the
      rewritten comment back, so nothing is lost or reordered. */
  lemma CommentBlockShape(comment: Option<string>)
    ensures Blank(comment) ==> CommentBlockLines(comment) == []
    ensures !Blank(comment) ==>
      |CommentBlockLines(comment)| == LineFeeds(NormalizeLineBreaks(comment.value)) + 1 &&
      Join("\n", Segments(comment.value)) == ProcessCodeComment(NormalizeLineBreaks(comment.value))
  {
    if !Blank(comment) {
      var text := ProcessCodeComment(NormalizeLineBreaks(comment.value));
      SplitLinesCount(text);
      LineFeedsKept(NormalizeLineBreaks(comment.value));
      SplitLinesJoin(text);
    }
  }

  /** Every emitted line starts with ` * `, so none is an opening or
      closing marker. */
  lemma NoMarkers(comment: Option<string>)
    ensures forall i :: 0 <= i < |CommentBlockLines(comment)| ==>
      StartsWith(CommentBlockLines(comment)[i], " * ") &&
      CommentBlockLines(comment)[i] != "/**" && CommentBlockLines(comment)[i] != " */"
  {
    var ls := CommentBlockLines(comment);
    forall i | 0 <= i < |ls|
      ensures StartsWith(ls[i], " * ") && ls[i] != "/**" && ls[i] != " */"
    {
      assert ls[i][..3] == " * ";
      assert ls[i][2] == ' ';
    }
  }

  /** `WriteCommentBlockContent`: nothing for a blank comment, otherwise a
      loop that writes ` * segment` for each segment at the writer's level. */
  method WriteCommentBlockContent(writer: DefinitionWriterState, comment: Option<string>)
    modifies writer
    ensures writer.lines == old(writer.lines) + Indented(old(writer.level), CommentBlockLines(comment))
    ensures writer.level == old(writer.level)
  {
    if Blank(comment) {
      return;
    }
    var text := NormalizeLineBreaks(comment.value);
    text := ProcessCodeComment(text);
    var segments := SplitLines(text);
    var i := 0;
    while i < |segments|
      invariant 0 <= i <= |segments|
      invariant writer.level == old(writer.level)
      invariant writer.lines == old(writer.lines) + Indented(writer.level, Prefixed(segments[..i]))
    {
      ghost var before := writer.lines;
      writer.WriteLine(" * " + segments[i]);
      assert Prefixed(segments[..i + 1]) == Prefixed(segments[..i]) + [" * " + segments[i]];
      assert writer.lines == before + Indented(writer.level, [" * " + segments[i]]);
      WrittenInTurn(old(writer.lines), before, writer.lines, writer.level, Prefixed(segments[..i]), [" * " + segments[i]]);
      i := i + 1;
    }
    assert segments[..i] == segments;
  }

  /** The `/**`, content, ` */` triple the renderers write around a
      non-blank description; nothing for a blank one. */
  function DocBlock(description: Option<string>): seq<string> {
    if Blank(description) then [] else ["/**"] + CommentBlockLines(description) + [" */"]
  }

  /** The block is empty iff the description is blank; otherwise the
      content sits between the two markers. */
  lemma DocBlockShape(description: Option<string>)
    ensures Blank(description) <==> DocBlock(description) == []
    ensures var r := DocBlock(description);
      !Blank(description) ==> |r| >= 2 && r[0] == "/**" && r[|r| - 1] == " */" && r[1..|r| - 1] == CommentBlockLines(description)
  {
    var r := DocBlock(description);
    if !Blank(description) {
      assert r[1..|r| - 1] == CommentBlockLines(description);
    }
  }

  method WriteDocBlock(writer: DefinitionWriterState, description: Option<string>)
    modifies writer
    ensures writer.lines == old(writer.lines) + Indented(old(writer.level), DocBlock(description))
    ensures writer.level == old(writer.level)
  {
    if !Blank(description) {
      ghost var level := writer.level;
      ghost var body := CommentBlockLines(description);
      writer.WriteLine("/**");
      ghost var mid := writer.lines;
      WriteCommentBlockContent(writer, description);
      ghost var filled := writer.lines;
      writer.WriteLine(" */");
      BlockAssembled(level, old(writer.lines), mid, filled, writer.lines, body);
    }
  }

  /** The opening marker, the content and the closing marker, written in
      turn at one level, are the indented block. */
  lemma BlockAssembled(level: int, before: seq<string>, mid: seq<string>, filled: seq<string>,
                       after: seq<string>, body: seq<string>)
    requires mid == before + [Indent(level) + "/**"]
    requires filled == mid + Indented(level, body)
    requires after == filled + [Indent(level) + " */"]
    ensures after == before + Indented(level, ["/**"] + body + [" */"])
  {
    IndentedAppend(level, ["/**"] + body, [" */"]);
    IndentedAppend(level, ["/**"], body);
    OneLine(level, "/**");
    OneLine(level, " */");
  }
}
