/**
 * The older renderer, kept beside the current one but no longer called:
 * every class becomes an interface (a class with a base extends it), every
 * class, property and method gets a `/** */` block even when there is nothing
 * to say, `@param` lines carry no braces, comments are not rewritten, no
 * appender runs, and the caster chain has no Unknown caster.
 */
module DefinitionsGenerator {
  import opened Wrappers
  import opened Strings
  import opened Models
  import opened WriterState
  import TypeProjection
  import MethodParameterRendering
  import WriterExtensions
  import DefinitionGeneration
  import UnknownTypeCaster
  import OrTypeCaster
  import ArrayTypeCaster
  import FunctionToLambdaCaster
  import NullBackTickCaster
  import EventSystemAppender

  type Caster = TypeProjection.Caster

  // ----- Type projection -----

  /** The older chain: Or, Array, weapon name, FunctionToLambda, NullBackTick. */
  function LegacyCasters(weapn: Caster): (r: seq<Caster>)
    ensures |r| == 5
  {
    [OrTypeCaster.Execute, ArrayTypeCaster.Execute, weapn,
     FunctionToLambdaCaster.Execute, NullBackTickCaster.Execute]
  }

  function Projected(weapn: Caster, t: Option<string>): string {
    TypeProjection.Projected(LegacyCasters(weapn), t)
  }

  /** The older projection is the casters applied left to right in the
      order Or, Array, weapon name, FunctionToLambda, NullBackTick. */
  lemma ChainOrder(weapn: Caster, t: Option<string>)
    requires !Blank(t)
    ensures Projected(weapn, t) ==
      NullBackTickCaster.Execute(FunctionToLambdaCaster.Execute(weapn(
        ArrayTypeCaster.Execute(OrTypeCaster.Execute(t.value)))))
  {
    var cs := LegacyCasters(weapn);
    var s0 := t.value;
    var s1 := OrTypeCaster.Execute(s0);
    var s2 := ArrayTypeCaster.Execute(s1);
    var s3 := weapn(s2);
    var s4 := FunctionToLambdaCaster.Execute(s3);
    assert TypeProjection.Fold(cs, s0) == TypeProjection.Fold(cs[1..], s1);
    assert TypeProjection.Fold(cs[1..], s1) == TypeProjection.Fold(cs[2..], s2) by { assert cs[1..][1..] == cs[2..]; }
    assert TypeProjection.Fold(cs[2..], s2) == TypeProjection.Fold(cs[3..], s3) by { assert cs[2..][1..] == cs[3..]; }
    assert TypeProjection.Fold(cs[3..], s3) == TypeProjection.Fold(cs[4..], s4) by { assert cs[3..][1..] == cs[4..]; }
    assert TypeProjection.Fold(cs[4..], s4) == TypeProjection.Fold([], NullBackTickCaster.Execute(s4)) by {
      assert cs[4..][1..] == [];
    }
  }

  /** The two renderers project every type alike except `unknown`: the older
      chain hands it to the remaining casters untouched, the current one
      has turned it into `any` first. */
  lemma AgreesExceptUnknown(weapn: Caster, t: Option<string>)
    ensures t != Some("unknown") ==>
      Projected(weapn, t) == TypeProjection.Projected(TypeProjection.TypeCasters(weapn), t)
    ensures t == Some("unknown") ==>
      Projected(weapn, t) == NullBackTickCaster.Execute(FunctionToLambdaCaster.Execute(weapn("unknown"))) &&
      TypeProjection.Projected(TypeProjection.TypeCasters(weapn), t) ==
      NullBackTickCaster.Execute(FunctionToLambdaCaster.Execute(weapn("any")))
  {
    if t == Some("unknown") {
      PassesThrough(weapn, "unknown");
      TypeProjection.UnknownFirst(weapn, t);
    } else if !Blank(t) {
      var cs := TypeProjection.TypeCasters(weapn);
      assert cs[1..] == LegacyCasters(weapn);
      assert TypeProjection.Fold(cs, t.value) == TypeProjection.Fold(cs[1..], UnknownTypeCaster.Execute(t.value));
    }
  }

  /** A type free of white space, `|` and `A` passes the Or and Array
      casters unchanged. */
  lemma PassesThrough(weapn: Caster, t: string)
    requires t != [] && NoWs(t) && '|' !in t && 'A' !in t
    ensures Projected(weapn, Some(t)) == NullBackTickCaster.Execute(FunctionToLambdaCaster.Execute(weapn(t)))
  {
    assert !IsWs(t[0]);
    ChainOrder(weapn, Some(t));
    OrTypeCaster.NoSeparatorChars(t);
    ArrayTypeCaster.NoCapitalAUnchanged(t);
  }

  /** `ProjectType`: the blank guard, then each caster in turn. */
  method ProjectType(returnType: Option<string>, weapn: Caster) returns (r: string)
    ensures r == Projected(weapn, returnType)
  {
    if Blank(returnType) {
      return "any";
    }
    var casters := LegacyCasters(weapn);
    r := returnType.value;
    var i := 0;
    while i < |casters|
      invariant 0 <= i <= |casters|
      invariant TypeProjection.Fold(casters[i..], r) == TypeProjection.Fold(casters, returnType.value)
    {
      assert casters[i..][1..] == casters[i + 1..];
      r := casters[i](r);
      i := i + 1;
    }
  }

  /** `ProjectTypeAsArray`: the projection wrapped as an array type. */
  method ProjectTypeAsArray(returnType: Option<string>, weapn: Caster) returns (r: string)
    ensures r == "Array<" + Projected(weapn, returnType) + ">"
  {
    var t := ProjectType(returnType, weapn);
    r := "Array<" + t + ">";
  }

  // ----- Parameter lists -----

  /** The older `RenderMethodParameter` renders a parameter exactly as the
      shared helper does over the older chain: `...` names get an array
      type and never `?`. */
  method RenderMethodParameter(p: Parameter, weapn: Caster) returns (r: string)
    ensures r == MethodParameterRendering.RenderMethodParameter(p, LegacyCasters(weapn))
  {
    var isParamsParameter := StartsWith(p.name, "...");
    var returnType;
    if isParamsParameter {
      returnType := ProjectTypeAsArray(p.rawType, weapn);
    } else {
      returnType := ProjectType(p.rawType, weapn);
    }
    var optionalSpecifier := if !isParamsParameter && p.optional then "?" else "";
    r := p.name + optionalSpecifier + ": " + returnType;
  }

  /** The older `RenderMethodParameters`: the same list, in order, as the
      shared helper renders it over the older chain. */
  method RenderMethodParameters(ps: seq<Parameter>, weapn: Caster) returns (r: string)
    ensures r == MethodParameterRendering.RenderMethodParameters(ps, LegacyCasters(weapn))
  {
    ghost var chain := LegacyCasters(weapn);
    var rendered: seq<string> := [];
    var i := 0;
    while i < |ps|
      invariant 0 <= i <= |ps|
      invariant rendered == MethodParameterRendering.RenderedEach(ps[..i], chain)
    {
      var one := RenderMethodParameter(ps[i], weapn);
      EachExtended(ps, i, chain);
      rendered := rendered + [one];
      i := i + 1;
    }
    assert ps[..i] == ps;
    r := "(" + Join(", ", rendered) + ")";
  }

  /** Rendering one more parameter appends its rendering to the list. */
  lemma EachExtended(ps: seq<Parameter>, i: nat, chain: seq<Caster>)
    requires i < |ps|
    ensures MethodParameterRendering.RenderedEach(ps[..i + 1], chain)
      == MethodParameterRendering.RenderedEach(ps[..i], chain) + [MethodParameterRendering.RenderMethodParameter(ps[i], chain)]
  {
    assert ps[..i + 1] == ps[..i] + [ps[i]];
    MethodParameterRendering.RenderedEachAppend(ps[..i], [ps[i]], chain);
  }

  // ----- Comments -----

  /** What the older `WriteCommentBlockContent` emits: nothing for a blank
      comment, otherwise ` * ` and each line of the normalised comment, with
      no directive rewriting. */
  function CommentLines(comment: Option<string>): seq<string> {
    if Blank(comment) then []
    else WriterExtensions.Prefixed(SplitLines(WriterExtensions.NormalizeLineBreaks(comment.value)))
  }

  /** One line per line feed plus one, and the segments join back to the
      normalised comment itself. */
  lemma CommentShape(comment: Option<string>)
    ensures Blank(comment) ==> CommentLines(comment) == []
    ensures !Blank(comment) ==>
      var text := WriterExtensions.NormalizeLineBreaks(comment.value);
      |CommentLines(comment)| == Count(text, '\n') + 1 &&
      Join("\n", SplitLines(text)) == text &&
      forall i :: 0 <= i < |CommentLines(comment)| ==> CommentLines(comment)[i] == " * " + SplitLines(text)[i]
  {
    if !Blank(comment) {
      var text := WriterExtensions.NormalizeLineBreaks(comment.value);
      SplitLinesCount(text);
      SplitLinesJoin(text);
    }
  }

  /** A one-line `{{linked_type 'X'}}` is kept verbatim (see
      `DirectiveRewrittenNow` for the current renderer). */
  lemma DirectiveKept(x: string)
    requires x != [] && '\'' !in x && '\n' !in x && '\r' !in x
    ensures CommentLines(Some(WriterExtensions.LinkOpen + x + "'}}")) == [" * " + WriterExtensions.LinkOpen + x + "'}}"]
  {
    var s := WriterExtensions.LinkOpen + x + "'}}";
    DirectiveChars(x);
    WriterExtensions.NoCarriageReturnUnchanged(s);
    assert WriterExtensions.NormalizeLineBreaks(s) == s;
    SingleSegment(s);
    assert SplitLines(s) == [s];
    assert !Blank(Some(s));
    assert CommentLines(Some(s)) == WriterExtensions.Prefixed([s]);
    assert WriterExtensions.Prefixed([s]) == [" * " + s];
    assert " * " + s == " * " + WriterExtensions.LinkOpen + x + "'}}";
  }

  /** The current renderer writes the same comment as `{X}`. */
  lemma DirectiveRewrittenNow(x: string)
    requires x != [] && '\'' !in x && '\n' !in x && '\r' !in x
    ensures WriterExtensions.CommentBlockLines(Some(WriterExtensions.LinkOpen + x + "'}}")) == [" * {" + x + "}"]
  {
    var s := WriterExtensions.LinkOpen + x + "'}}";
    var y := "{" + x + "}";
    assert !Blank(Some(s)) && '\r' !in s by {
      DirectiveChars(x);
    }
    assert WriterExtensions.NormalizeLineBreaks(s) == s by {
      WriterExtensions.NoCarriageReturnUnchanged(s);
    }
    assert WriterExtensions.ProcessCodeComment(s) == y by {
      WriterExtensions.DirectiveRewritten(x, []);
      assert s + [] == s;
    }
    assert SplitLines(y) == [y] by {
      assert y == "{" + (x + "}");
      SingleSegment(y);
    }
    CommentOfOneLine(s, y);
    StarBraced(x);
  }

  /** Regrouping the starred line. Kept as a lemma of its own: stated inline,
      the step has the comment's whole rewrite in scope and comes close to
      the resource limit. */
  lemma StarBraced(x: string)
    ensures " * " + ("{" + x + "}") == " * {" + x + "}"
  {
    assert " * " + "{" == " * {";
  }

  /** A comment the current renderer rewrites to one line-feed-free line. */
  lemma CommentOfOneLine(s: string, y: string)
    requires !Blank(Some(s)) && WriterExtensions.NormalizeLineBreaks(s) == s
    requires WriterExtensions.ProcessCodeComment(s) == y && SplitLines(y) == [y]
    ensures WriterExtensions.CommentBlockLines(Some(s)) == [" * " + y]
  {
    assert WriterExtensions.Segments(s) == [y];
  }

  lemma DirectiveChars(x: string)
    requires '\n' !in x && '\r' !in x
    ensures var s := WriterExtensions.LinkOpen + x + "'}}";
      !Blank(Some(s)) && '\n' !in s && '\r' !in s
  {
    var s := WriterExtensions.LinkOpen + x + "'}}";
    assert s == WriterExtensions.LinkOpen + (x + "'}}");
    assert s[0] == '{';
  }

  /** A string without line feeds is a single segment. */
  lemma SingleSegment(s: string)
    requires '\n' !in s
    ensures SplitLines(s) == [s]
  {
    SplitLinesCount(s);
    SplitLinesJoin(s);
  }

  /** `/**`, the comment, ` */`: written whatever the description. */
  function DocLines(description: Option<string>): (r: seq<string>)
    ensures |r| >= 2 && r[0] == "/**" && r[|r| - 1] == " */"
    ensures r[1..|r| - 1] == CommentLines(description)
  {
    ["/**"] + CommentLines(description) + [" */"]
  }

  method WriteCommentBlockContent(comment: Option<string>, writer: DefinitionWriterState)
    modifies writer
    ensures writer.lines == old(writer.lines) + Indented(old(writer.level), CommentLines(comment))
    ensures writer.level == old(writer.level)
  {
    if Blank(comment) {
      return;
    }
    var text := WriterExtensions.NormalizeLineBreaks(comment.value);
    var segments := SplitLines(text);
    var i := 0;
    while i < |segments|
      invariant 0 <= i <= |segments|
      invariant writer.level == old(writer.level)
      invariant writer.lines == old(writer.lines) + Indented(writer.level, WriterExtensions.Prefixed(segments[..i]))
    {
      ghost var before := writer.lines;
      writer.WriteLine(" * " + segments[i]);
      assert WriterExtensions.Prefixed(segments[..i + 1]) == WriterExtensions.Prefixed(segments[..i]) + [" * " + segments[i]];
      OneLine(writer.level, " * " + segments[i]);
      WrittenInTurn(old(writer.lines), before, writer.lines, writer.level,
        WriterExtensions.Prefixed(segments[..i]), [" * " + segments[i]]);
      i := i + 1;
    }
    assert segments[..i] == segments;
  }

  method WriteDocLines(description: Option<string>, writer: DefinitionWriterState)
    modifies writer
    ensures writer.lines == old(writer.lines) + Indented(old(writer.level), DocLines(description))
    ensures writer.level == old(writer.level)
  {
    var level := writer.level;
    ghost var start := writer.lines;
    writer.WriteLine("/**");
    OneLine(level, "/**");
    ghost var l1 := writer.lines;
    WriteCommentBlockContent(description, writer);
    WrittenInTurn(start, l1, writer.lines, level, ["/**"], CommentLines(description));
    ghost var l2 := writer.lines;
    writer.WriteLine(" */");
    OneLine(level, " */");
    WrittenInTurn(start, l2, writer.lines, level, ["/**"] + CommentLines(description), [" */"]);
  }

  // ----- Parameter documentation -----

  /** ` * @param T name`, without braces and without any `...`. */
  function ParamDocLine(p: Parameter, weapn: Caster): string {
    " * @param " + Projected(weapn, p.rawType) + " " + DefinitionGeneration.RemoveEllipsis(p.name)
  }

  function ParamDocLines(ps: seq<Parameter>, weapn: Caster): (r: seq<string>)
    ensures |r| == |ps|
    ensures forall i :: 0 <= i < |ps| ==> r[i] == ParamDocLine(ps[i], weapn)
  {
    seq(|ps|, i requires 0 <= i < |ps| => ParamDocLine(ps[i], weapn))
  }

  function ParamsCommentLines(ps: seq<Parameter>, weapn: Caster): seq<string> {
    if ps == [] then [] else ParamDocLines(ps, weapn) + [" *"]
  }

  /** The separator follows iff there is a parameter; each line names the
      type without braces and the name without `...`. */
  lemma ParamsCommentShape(ps: seq<Parameter>, weapn: Caster)
    ensures ps == [] <==> ParamsCommentLines(ps, weapn) == []
    ensures ps != [] ==> (|ParamsCommentLines(ps, weapn)| == |ps| + 1 &&
                          ParamsCommentLines(ps, weapn)[|ps|] == " *")
    ensures forall i :: 0 <= i < |ps| ==>
      ParamsCommentLines(ps, weapn)[i] ==
      " * @param " + Projected(weapn, ps[i].rawType) + " " + DefinitionGeneration.RemoveEllipsis(ps[i].name)
  {
  }

  /** Removing `...` keeps only characters of the name. */
  lemma {:induction false} RemoveEllipsisChars(s: string, c: char)
    requires c !in s
    ensures c !in DefinitionGeneration.RemoveEllipsis(s)
    decreases |s|
  {
    if StartsWith(s, "...") {
      RemoveEllipsisChars(s[3..], c);
    } else if s != [] {
      RemoveEllipsisChars(s[1..], c);
    }
  }

  /** No brace is added: with a brace-free type and name the older line has
      none, where the current line puts the type in braces. */
  lemma NoBraces(p: Parameter, weapn: Caster)
    requires '{' !in Projected(weapn, p.rawType) && '{' !in p.name
    ensures '{' !in ParamDocLine(p, weapn)
    ensures DefinitionGeneration.ParamDocLine(p, TypeProjection.TypeCasters(weapn))[10] == '{'
  {
    RemoveEllipsisChars(p.name, '{');
    var line := ParamDocLine(p, weapn);
    assert line == " * @param " + (Projected(weapn, p.rawType) + (" " + DefinitionGeneration.RemoveEllipsis(p.name)));
  }

  method WriteParametersCommentBlockParameter(p: Parameter, writer: DefinitionWriterState, weapn: Caster)
    modifies writer
    ensures writer.lines == old(writer.lines) + [Indent(old(writer.level)) + ParamDocLine(p, weapn)]
    ensures writer.level == old(writer.level)
  {
    var t := ProjectType(p.rawType, weapn);
    writer.WriteLine(" * @param " + t + " " + DefinitionGeneration.RemoveEllipsis(p.name));
  }

  method WriteParametersCommentBlock(ps: seq<Parameter>, writer: DefinitionWriterState, weapn: Caster)
    modifies writer
    ensures writer.lines == old(writer.lines) + Indented(old(writer.level), ParamsCommentLines(ps, weapn))
    ensures writer.level == old(writer.level)
  {
    if ps == [] {
      return;
    }
    var level := writer.level;
    var i := 0;
    while i < |ps|
      invariant 0 <= i <= |ps|
      invariant writer.level == level
      invariant writer.lines == old(writer.lines) + Indented(level, ParamDocLines(ps[..i], weapn))
    {
      ghost var before := writer.lines;
      WriteParametersCommentBlockParameter(ps[i], writer, weapn);
      OneLine(level, ParamDocLine(ps[i], weapn));
      assert ParamDocLines(ps[..i + 1], weapn) == ParamDocLines(ps[..i], weapn) + [ParamDocLine(ps[i], weapn)];
      WrittenInTurn(old(writer.lines), before, writer.lines, level, ParamDocLines(ps[..i], weapn), [ParamDocLine(ps[i], weapn)]);
      i := i + 1;
    }
    assert ps[..i] == ps;
    ghost var before := writer.lines;
    writer.WriteLine(" *");
    OneLine(level, " *");
    WrittenInTurn(old(writer.lines), before, writer.lines, level, ParamDocLines(ps, weapn), [" *"]);
  }

  // ----- Methods -----

  function ExampleLines(f: Function): seq<string> {
    if Blank(f.example) then [] else CommentLines(Some("@example " + f.example.value))
  }

  /** The doc block of a method: written whatever the method documents. */
  function MethodDocLines(f: Function, weapn: Caster): seq<string> {
    ["/**"] + CommentLines(f.description) + ParamsCommentLines(f.parameters, weapn) + ExampleLines(f) + [" */"]
  }

  /** What the older `WriteClassMethod` emits; the signature line is the
      current renderer's over the older chain. */
  function MethodLines(f: Function, weapn: Caster): seq<string> {
    MethodDocLines(f, weapn) + [DefinitionGeneration.MethodLine(f, LegacyCasters(weapn)), ""]
  }

  /** The markers are always there, followed by the signature and a blank
      line. */
  lemma MethodShape(f: Function, weapn: Caster)
    ensures var r := MethodLines(f, weapn);
      |r| >= 4 && r[0] == "/**" && r[|r| - 3] == " */" &&
      r[|r| - 2] == DefinitionGeneration.MethodLine(f, LegacyCasters(weapn)) && r[|r| - 1] == ""
  {
  }

  /** A method with nothing to document still gets an empty block, which
      the current renderer leaves out. */
  lemma UndocumentedMethod(f: Function, weapn: Caster)
    requires Blank(f.description) && f.parameters == [] && Blank(f.example)
    ensures MethodLines(f, weapn) == ["/**", " */", DefinitionGeneration.MethodLine(f, LegacyCasters(weapn)), ""]
    ensures DefinitionGeneration.MethodLines(f, LegacyCasters(weapn)) == [DefinitionGeneration.MethodLine(f, LegacyCasters(weapn)), ""]
  {
  }

  method WriteClassMethod(f: Function, writer: DefinitionWriterState, weapn: Caster)
    modifies writer
    ensures writer.lines == old(writer.lines) + Indented(old(writer.level), MethodLines(f, weapn))
    ensures writer.level == old(writer.level)
  {
    var level := writer.level;
    ghost var start := writer.lines;
    WriteMethodDoc(f, writer, weapn);
    ghost var mid := writer.lines;
    var ps := RenderMethodParameters(f.parameters, weapn);
    var t := ProjectType(f.returnType, weapn);
    var line := f.name + ps + ": " + t;
    writer.WriteLine(line);
    writer.WriteBlankLine();
    LineThenBlank(level, line);
    WrittenInTurn(start, mid, writer.lines, level, MethodDocLines(f, weapn), [line, ""]);
  }

  /** The doc block `WriteClassMethod` writes. */
  method WriteMethodDoc(f: Function, writer: DefinitionWriterState, weapn: Caster)
    modifies writer
    ensures writer.lines == old(writer.lines) + Indented(old(writer.level), MethodDocLines(f, weapn))
    ensures writer.level == old(writer.level)
  {
    var level := writer.level;
    ghost var start := writer.lines;
    writer.WriteLine("/**");
    OneLine(level, "/**");
    ghost var l1 := writer.lines;
    WriteCommentBlockContent(f.description, writer);
    WrittenInTurn(start, l1, writer.lines, level, ["/**"], CommentLines(f.description));
    ghost var l2 := writer.lines;
    WriteParametersCommentBlock(f.parameters, writer, weapn);
    ghost var d2 := ["/**"] + CommentLines(f.description);
    WrittenInTurn(start, l2, writer.lines, level, d2, ParamsCommentLines(f.parameters, weapn));
    ghost var l3 := writer.lines;
    ghost var d3 := d2 + ParamsCommentLines(f.parameters, weapn);
    if !Blank(f.example) {
      WriteCommentBlockContent(Some("@example " + f.example.value), writer);
    }
    WrittenInTurn(start, l3, writer.lines, level, d3, ExampleLines(f));
    ghost var l4 := writer.lines;
    writer.WriteLine(" */");
    OneLine(level, " */");
    WrittenInTurn(start, l4, writer.lines, level, d3 + ExampleLines(f), [" */"]);
  }

  function MethodsLines(fs: seq<Function>, weapn: Caster): seq<string>
    decreases |fs|
  {
    if fs == [] then [] else MethodLines(fs[0], weapn) + MethodsLines(fs[1..], weapn)
  }

  lemma {:induction false} MethodsLinesSnoc(fs: seq<Function>, f: Function, weapn: Caster)
    ensures MethodsLines(fs + [f], weapn) == MethodsLines(fs, weapn) + MethodLines(f, weapn)
    decreases |fs|
  {
    if fs == [] {
      assert fs + [f] == [f];
      assert [f][1..] == [];
    } else {
      assert (fs + [f])[1..] == fs[1..] + [f];
      MethodsLinesSnoc(fs[1..], f, weapn);
    }
  }

  lemma MethodsLinesPrefix(fs: seq<Function>, i: int, weapn: Caster)
    requires 0 <= i < |fs|
    ensures MethodsLines(fs[..i + 1], weapn) == MethodsLines(fs[..i], weapn) + MethodLines(fs[i], weapn)
  {
    assert fs[..i + 1] == fs[..i] + [fs[i]];
    MethodsLinesSnoc(fs[..i], fs[i], weapn);
  }

  method WriteClassMethods(fs: seq<Function>, writer: DefinitionWriterState, weapn: Caster)
    modifies writer
    ensures writer.lines == old(writer.lines) + Indented(old(writer.level), MethodsLines(fs, weapn))
    ensures writer.level == old(writer.level)
  {
    var level := writer.level;
    var i := 0;
    while i < |fs|
      invariant 0 <= i <= |fs|
      invariant writer.level == level
      invariant writer.lines == old(writer.lines) + Indented(level, MethodsLines(fs[..i], weapn))
    {
      ghost var before := writer.lines;
      WriteClassMethod(fs[i], writer, weapn);
      MethodsLinesPrefix(fs, i, weapn);
      WrittenInTurn(old(writer.lines), before, writer.lines, level, MethodsLines(fs[..i], weapn), MethodLines(fs[i], weapn));
      i := i + 1;
    }
    assert fs[..i] == fs;
  }

  // ----- Properties -----

  /** What the older `WriteClassProperty` emits; the property line is the
      current renderer's over the older chain. */
  function PropertyLines(p: Property, weapn: Caster): seq<string> {
    DocLines(p.description) + [DefinitionGeneration.PropertyLine(p, LegacyCasters(weapn)), ""]
  }

  /** A property without a description still gets an empty block, which
      the current renderer leaves out. */
  lemma UndocumentedProperty(p: Property, weapn: Caster)
    requires Blank(p.description)
    ensures PropertyLines(p, weapn) == ["/**", " */", DefinitionGeneration.PropertyLine(p, LegacyCasters(weapn)), ""]
    ensures DefinitionGeneration.PropertyLines(p, LegacyCasters(weapn)) ==
      [DefinitionGeneration.PropertyLine(p, LegacyCasters(weapn)), ""]
  {
    WriterExtensions.DocBlockShape(p.description);
  }

  method WriteClassProperty(p: Property, writer: DefinitionWriterState, weapn: Caster)
    modifies writer
    ensures writer.lines == old(writer.lines) + Indented(old(writer.level), PropertyLines(p, weapn))
    ensures writer.level == old(writer.level)
  {
    var level := writer.level;
    ghost var start := writer.lines;
    WriteDocLines(p.description, writer);
    ghost var mid := writer.lines;
    var propertyBuilder := BuildProperty(p, weapn);
    writer.WriteLine(propertyBuilder);
    writer.WriteBlankLine();
    LineThenBlank(level, propertyBuilder);
    WrittenInTurn(start, mid, writer.lines, level, DocLines(p.description), [propertyBuilder, ""]);
  }

  /** The `propertyBuilder` accumulation inside `WriteClassProperty`. */
  method BuildProperty(p: Property, weapn: Caster) returns (propertyBuilder: string)
    ensures propertyBuilder == DefinitionGeneration.PropertyLine(p, LegacyCasters(weapn))
  {
    ghost var chain := LegacyCasters(weapn);
    propertyBuilder := "";
    if p.readOnly {
      propertyBuilder := propertyBuilder + "readonly ";
    }
    ghost var head := propertyBuilder;
    propertyBuilder := propertyBuilder + p.name;
    ghost var named := propertyBuilder;
    if p.hasParameters == Some(true) && p.parameters.Some? {
      var ps := RenderMethodParameters(p.parameters.value, weapn);
      propertyBuilder := propertyBuilder + ps;
    }
    ghost var indexed := propertyBuilder;
    var t := ProjectType(EffectiveType(p), weapn);
    propertyBuilder := propertyBuilder + ": " + t + ";";
    DefinitionGeneration.PropertyLineParts(p, chain, head, named, indexed, t, propertyBuilder);
  }

  function PropertiesLines(ps: seq<Property>, weapn: Caster): seq<string>
    decreases |ps|
  {
    if ps == [] then [] else PropertyLines(ps[0], weapn) + PropertiesLines(ps[1..], weapn)
  }

  lemma {:induction false} PropertiesLinesSnoc(ps: seq<Property>, p: Property, weapn: Caster)
    ensures PropertiesLines(ps + [p], weapn) == PropertiesLines(ps, weapn) + PropertyLines(p, weapn)
    decreases |ps|
  {
    if ps == [] {
      assert ps + [p] == [p];
      assert [p][1..] == [];
    } else {
      assert (ps + [p])[1..] == ps[1..] + [p];
      PropertiesLinesSnoc(ps[1..], p, weapn);
    }
  }

  lemma PropertiesLinesPrefix(ps: seq<Property>, i: int, weapn: Caster)
    requires 0 <= i < |ps|
    ensures PropertiesLines(ps[..i + 1], weapn) == PropertiesLines(ps[..i], weapn) + PropertyLines(ps[i], weapn)
  {
    assert ps[..i + 1] == ps[..i] + [ps[i]];
    PropertiesLinesSnoc(ps[..i], ps[i], weapn);
  }

  method WriteClassProperties(ps: seq<Property>, writer: DefinitionWriterState, weapn: Caster)
    modifies writer
    ensures writer.lines == old(writer.lines) + Indented(old(writer.level), PropertiesLines(ps, weapn))
    ensures writer.level == old(writer.level)
  {
    var level := writer.level;
    var i := 0;
    while i < |ps|
      invariant 0 <= i <= |ps|
      invariant writer.level == level
      invariant writer.lines == old(writer.lines) + Indented(level, PropertiesLines(ps[..i], weapn))
    {
      ghost var before := writer.lines;
      WriteClassProperty(ps[i], writer, weapn);
      PropertiesLinesPrefix(ps, i, weapn);
      WrittenInTurn(old(writer.lines), before, writer.lines, level, PropertiesLines(ps[..i], weapn), PropertyLines(ps[i], weapn));
      i := i + 1;
    }
    assert ps[..i] == ps;
  }

  // ----- Classes -----

  /** `declare interface Name[ extends Base] {`. */
  function HeaderLine(c: Class): string {
    "declare interface " + c.className + (if Blank(c.instanceOf) then "" else " extends " + c.instanceOf.value) + " {"
  }

  /** A class with a base extends it and is still an interface, never a
      `declare const`; without one the header is the current renderer's. */
  lemma HeaderForms(c: Class)
    ensures StartsWith(HeaderLine(c), "declare interface ")
    ensures IsAlias(c) ==> HeaderLine(c) == "declare interface " + c.className + " extends " + c.instanceOf.value + " {"
    ensures !IsAlias(c) ==> HeaderLine(c) == DefinitionGeneration.HeaderLine(c)
  {
    var h := HeaderLine(c);
    assert h == "declare interface " + (c.className + (if Blank(c.instanceOf) then "" else " extends " + c.instanceOf.value) + " {");
  }

  method WriteInterfaceDeclaration(c: Class, writer: DefinitionWriterState)
    modifies writer
    ensures writer.lines == old(writer.lines) + [Indent(old(writer.level)) + HeaderLine(c)]
    ensures writer.level == old(writer.level)
  {
    var interfaceDeclarationBuilder := "declare interface " + c.className;
    if !Blank(c.instanceOf) {
      interfaceDeclarationBuilder := interfaceDeclarationBuilder + " extends " + c.instanceOf.value;
      assert interfaceDeclarationBuilder + " {" ==
        "declare interface " + c.className + (" extends " + c.instanceOf.value) + " {";
    } else {
      assert interfaceDeclarationBuilder + " {" == "declare interface " + c.className + "" + " {";
    }
    writer.WriteLine(interfaceDeclarationBuilder + " {");
  }

  method WriteClassConstructor(c: Class, writer: DefinitionWriterState, weapn: Caster)
    requires WellFormed(c)
    modifies writer
    ensures writer.lines == old(writer.lines) + Indented(old(writer.level), DefinitionGeneration.CtorLines(c, LegacyCasters(weapn)))
    ensures writer.level == old(writer.level)
  {
    if !c.hasConstructor {
      return;
    }
    var ps := RenderMethodParameters(c.ctor.value.parameters, weapn);
    var line := "constructor" + ps + ";";
    writer.WriteLine(line);
    writer.WriteBlankLine();
    LineThenBlank(writer.level, line);
  }

  /** The body, in order: properties, constructor, methods; no appender. */
  function BodyLines(c: Class, weapn: Caster): seq<string>
    requires WellFormed(c)
  {
    PropertiesLines(c.properties, weapn) + DefinitionGeneration.CtorLines(c, LegacyCasters(weapn)) +
    MethodsLines(c.functions, weapn)
  }

  /** What the older `GenerateClassDefinition` writes for a class at `level`. */
  function ClassLines(c: Class, level: int, weapn: Caster): seq<string>
    requires WellFormed(c)
  {
    Indented(level, DocLines(c.description) + [HeaderLine(c)]) +
    Indented(level + 1, BodyLines(c, weapn)) +
    Indented(level, ["}", ""])
  }

  /** No appender: for `EventSystem` with no members of its own the older
      body is empty whatever the events, while the current body holds the
      overload of every event. */
  lemma NoAppenders(api: ApiDefinition, c: Class, weapn: Caster)
    requires WellFormed(c) && !IsAlias(c) && c.className == EventSystemAppender.EventSystemClassName
    requires c.properties == [] && c.functions == [] && !c.hasConstructor
    ensures BodyLines(c, weapn) == []
    ensures var chain := LegacyCasters(weapn);
      var b := DefinitionGeneration.BodyLines(api, c, chain);
      |b| >= 2 * |api.events| &&
      forall i :: 0 <= i < |api.events| ==> EventSystemAppender.AddLine(EventSystemAppender.SanitizedEvent(api.events[i]), chain) in b
  {
    var chain := LegacyCasters(weapn);
    EventSystemAppender.EventsLinesCover(api.events, chain);
    assert DefinitionGeneration.BodyLines(api, c, chain) == EventSystemAppender.EventsLines(api.events, chain);
  }

  /** The doc markers and the header at the outer level, the body one level
      deeper, the closing brace and blank line at the outer level. */
  lemma ClassLayout(c: Class, level: int, weapn: Caster)
    requires WellFormed(c)
    ensures var r := ClassLines(c, level, weapn);
      var d := |DocLines(c.description)|;
      var b := |BodyLines(c, weapn)|;
      |r| == d + b + 3 &&
      r[0] == Indent(level) + "/**" && r[d - 1] == Indent(level) + " */" &&
      r[d] == Indent(level) + HeaderLine(c) &&
      r[d + 1..d + 1 + b] == Indented(level + 1, BodyLines(c, weapn)) &&
      r[|r| - 2] == Indent(level) + "}" && r[|r| - 1] == Indent(level)
  {
    LayoutOf(level, DocLines(c.description), HeaderLine(c), BodyLines(c, weapn));
  }

  /** `ClassLayout` for any doc block, header and body. */
  lemma LayoutOf(level: int, doc: seq<string>, header: string, body: seq<string>)
    requires |doc| >= 2 && doc[0] == "/**" && doc[|doc| - 1] == " */"
    ensures var r := Indented(level, doc + [header]) + Indented(level + 1, body) + Indented(level, ["}", ""]);
      var d := |doc|;
      |r| == d + |body| + 3 &&
      r[0] == Indent(level) + "/**" && r[d - 1] == Indent(level) + " */" &&
      r[d] == Indent(level) + header &&
      r[d + 1..d + 1 + |body|] == Indented(level + 1, body) &&
      r[|r| - 2] == Indent(level) + "}" && r[|r| - 1] == Indent(level)
  {
    var head := doc + [header];
    var a := Indented(level, head);
    var b := Indented(level + 1, body);
    var z := Indented(level, ["}", ""]);
    IndentedAt(level, head, 0);
    IndentedAt(level, head, |head| - 2);
    IndentedAt(level, head, |head| - 1);
    LineThenBlank(level, "}");
    assert var r := a + b + z;
      |r| == |a| + |b| + 2 &&
      (forall i :: 0 <= i < |a| ==> r[i] == a[i]) &&
      r[|a|..|a| + |b|] == b && r[|r| - 2] == z[0] && r[|r| - 1] == z[1];
  }

  lemma ClassAssembled(start: seq<string>, head: seq<string>, now: seq<string>, level: int, inner: int,
                       c: Class, weapn: Caster)
    requires WellFormed(c) && inner == level + 1
    requires head == start + Indented(level, DocLines(c.description) + [HeaderLine(c)])
    requires now == head + Indented(inner, BodyLines(c, weapn)) + [Indent(level) + "}"] + [Indent(level)]
    ensures now == start + ClassLines(c, level, weapn)
  {
    var a := Indented(level, DocLines(c.description) + [HeaderLine(c)]);
    var b := Indented(inner, BodyLines(c, weapn));
    var z := Indented(level, ["}", ""]);
    assert ClassLines(c, level, weapn) == a + b + z;
    LineThenBlank(level, "}");
    DefinitionGeneration.Assembled(start, head, now, a, b, z, Indent(level) + "}", Indent(level));
  }

  method GenerateClassDefinition(c: Class, writer: DefinitionWriterState, weapn: Caster)
    requires WellFormed(c)
    modifies writer
    ensures writer.lines == old(writer.lines) + ClassLines(c, old(writer.level), weapn)
    ensures writer.level == old(writer.level)
  {
    OpenInterface(c, writer);
    ghost var head := writer.lines;
    ghost var inner := writer.level;
    WriteMembersAndClose(c, writer, weapn);
    ClassAssembled(old(writer.lines), head, writer.lines, writer.level, inner, c, weapn);
  }

  /** The doc block and the header, then one level deeper. */
  method OpenInterface(c: Class, writer: DefinitionWriterState)
    modifies writer
    ensures writer.lines == old(writer.lines) + Indented(old(writer.level), DocLines(c.description) + [HeaderLine(c)])
    ensures writer.level == old(writer.level) + 1
  {
    var level := writer.level;
    ghost var start := writer.lines;
    WriteDocLines(c.description, writer);
    ghost var l1 := writer.lines;
    WriteInterfaceDeclaration(c, writer);
    OneLine(level, HeaderLine(c));
    WrittenInTurn(start, l1, writer.lines, level, DocLines(c.description), [HeaderLine(c)]);
    writer.IncreaseIndentation();
  }

  /** The members one level deeper, then the closing brace one level out. */
  method WriteMembersAndClose(c: Class, writer: DefinitionWriterState, weapn: Caster)
    requires WellFormed(c)
    modifies writer
    ensures writer.level == old(writer.level) - 1
    ensures writer.lines == old(writer.lines) + Indented(old(writer.level), BodyLines(c, weapn)) +
      [Indent(writer.level) + "}"] + [Indent(writer.level)]
  {
    WriteMembers(c, writer, weapn);
    writer.DecreaseIndentation();
    writer.WriteLine("}");
    writer.WriteBlankLine();
  }

  /** The middle of `GenerateClassDefinition`, one level deeper. */
  method WriteMembers(c: Class, writer: DefinitionWriterState, weapn: Caster)
    requires WellFormed(c)
    modifies writer
    ensures writer.lines == old(writer.lines) + Indented(old(writer.level), BodyLines(c, weapn))
    ensures writer.level == old(writer.level)
  {
    var level := writer.level;
    ghost var head := writer.lines;
    WriteClassProperties(c.properties, writer, weapn);
    ghost var b1 := writer.lines;
    WriteClassConstructor(c, writer, weapn);
    WrittenInTurn(head, b1, writer.lines, level, PropertiesLines(c.properties, weapn),
      DefinitionGeneration.CtorLines(c, LegacyCasters(weapn)));
    ghost var b2 := writer.lines;
    WriteClassMethods(c.functions, writer, weapn);
    WrittenInTurn(head, b2, writer.lines, level,
      PropertiesLines(c.properties, weapn) + DefinitionGeneration.CtorLines(c, LegacyCasters(weapn)),
      MethodsLines(c.functions, weapn));
  }

  /** The classes in list order. */
  function RenderedClasses(cs: seq<Class>, level: int, weapn: Caster): seq<string>
    requires DefinitionGeneration.AllWellFormed(cs)
    decreases |cs|
  {
    if cs == [] then []
    else RenderedClasses(cs[..|cs| - 1], level, weapn) + ClassLines(cs[|cs| - 1], level, weapn)
  }

  lemma RenderedClassesPrefix(cs: seq<Class>, i: int, level: int, weapn: Caster)
    requires DefinitionGeneration.AllWellFormed(cs) && 0 <= i < |cs|
    ensures DefinitionGeneration.AllWellFormed(cs[..i]) && DefinitionGeneration.AllWellFormed(cs[..i + 1])
    ensures RenderedClasses(cs[..i + 1], level, weapn) == RenderedClasses(cs[..i], level, weapn) + ClassLines(cs[i], level, weapn)
  {
    var p := cs[..i + 1];
    assert p[..i] == cs[..i];
    assert p[i] == cs[i];
  }

  lemma ClassRendered(cs: seq<Class>, i: int, level: int, weapn: Caster, before: seq<string>, now: seq<string>,
                      start: seq<string>)
    requires DefinitionGeneration.AllWellFormed(cs) && 0 <= i < |cs|
    requires DefinitionGeneration.AllWellFormed(cs[..i]) && before == start + RenderedClasses(cs[..i], level, weapn)
    requires now == before + ClassLines(cs[i], level, weapn)
    ensures DefinitionGeneration.AllWellFormed(cs[..i + 1])
    ensures now == start + RenderedClasses(cs[..i + 1], level, weapn)
  {
    RenderedClassesPrefix(cs, i, level, weapn);
    var r := RenderedClasses(cs[..i], level, weapn);
    var x := ClassLines(cs[i], level, weapn);
    assert now == (start + r) + x;
    DefinitionGeneration.SeqAssoc3(start, r, x);
  }

  /** `GenerateForDefinition`: every class in list order. */
  method GenerateForDefinition(definition: ApiDefinition, writer: DefinitionWriterState, weapn: Caster)
    requires DefinitionGeneration.AllWellFormed(definition.classes)
    modifies writer
    ensures writer.lines == old(writer.lines) + RenderedClasses(definition.classes, old(writer.level), weapn)
    ensures writer.level == old(writer.level)
  {
    var classes := definition.classes;
    var level := writer.level;
    ghost var start := writer.lines;
    var i := 0;
    while i < |classes|
      invariant 0 <= i <= |classes|
      invariant DefinitionGeneration.AllWellFormed(classes[..i])
      invariant writer.level == level
      invariant writer.lines == start + RenderedClasses(classes[..i], level, weapn)
    {
      ghost var before := writer.lines;
      GenerateClassDefinition(classes[i], writer, weapn);
      ClassRendered(classes, i, level, weapn, before, writer.lines, start);
      i := i + 1;
    }
    assert classes[..i] == classes;
  }
}
