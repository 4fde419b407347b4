/**
 * The class renderer: an alias class becomes a `declare const`, any other
 * class a `declare interface` with its properties, constructor, methods and
 * appended members one level deeper.
 */
module DefinitionGeneration {
  import opened Wrappers
  import opened Strings
  import opened Models
  import opened TypeProjection
  import opened MethodParameterRendering
  import opened WriterState
  import opened WriterExtensions
  import opened EventSystemAppender

  // ----- Parameter documentation -----

  /** `name.Replace("...", "")`: every non-overlapping `...`, scanned left
      to right, removed. */
  function RemoveEllipsis(s: string): (r: string)
    ensures |r| <= |s|
    decreases |s|
  {
    if StartsWith(s, "...") then RemoveEllipsis(s[3..])
    else if s == [] then []
    else [s[0]] + RemoveEllipsis(s[1..])
  }

  /** A name that does not start with a dot keeps no leading dot. */
  lemma NoLeadingDot(s: string)
    requires s == [] || s[0] != '.'
    ensures RemoveEllipsis(s) == [] || RemoveEllipsis(s)[0] != '.'
  {
    if s != [] {
      assert !StartsWith(s, "...") by {
        if |s| >= 3 {
          assert s[..3][0] == s[0];
        }
      }
    }
  }

  /** A name that does not start with two dots keeps no two leading dots. */
  lemma NoLeadingDots(s: string)
    requires !(|s| >= 2 && s[0] == '.' && s[1] == '.')
    ensures !(|RemoveEllipsis(s)| >= 2 && RemoveEllipsis(s)[0] == '.' && RemoveEllipsis(s)[1] == '.')
  {
    if s != [] {
      assert !StartsWith(s, "...") by {
        if |s| >= 3 {
          assert s[..3][0] == s[0] && s[..3][1] == s[1];
        }
      }
      var rest := RemoveEllipsis(s[1..]);
      assert RemoveEllipsis(s) == [s[0]] + rest;
      if s[0] == '.' {
        NoLeadingDot(s[1..]);
      }
    }
  }

  /** A name that does not start with `...` keeps no leading `...`. */
  lemma NoLeadingEllipsis(s: string)
    requires s != [] && !StartsWith(s, "...")
    ensures !OccursAt(RemoveEllipsis(s), "...", 0)
  {
    var r := RemoveEllipsis(s);
    var rest := RemoveEllipsis(s[1..]);
    assert r == [s[0]] + rest;
    if |r| >= 3 {
      if s[0] == '.' {
        assert !(|s[1..]| >= 2 && s[1..][0] == '.' && s[1..][1] == '.') by {
          assert |s| >= 3 ==> s[..3] == [s[0], s[1], s[2]];
        }
        NoLeadingDots(s[1..]);
        assert r[1] == rest[0] && r[2] == rest[1];
      }
      assert r[..3][0] == r[0] && r[..3][1] == r[1] && r[..3][2] == r[2];
    }
  }

  /** No `...` is left: a run of n dots keeps n mod 3 of them. */
  lemma {:induction false} NoEllipsisLeft(s: string)
    ensures forall i: nat :: !OccursAt(RemoveEllipsis(s), "...", i)
    decreases |s|
  {
    if StartsWith(s, "...") {
      NoEllipsisLeft(s[3..]);
    } else if s != [] {
      NoEllipsisLeft(s[1..]);
      var r := RemoveEllipsis(s);
      var rest := RemoveEllipsis(s[1..]);
      forall i: nat ensures !OccursAt(r, "...", i) {
        if i == 0 {
          NoLeadingEllipsis(s);
        } else if i + 3 <= |r| {
          assert r[i..i + 3] == rest[i - 1..i + 2];
          assert !OccursAt(rest, "...", i - 1);
        }
      }
    }
  }

  /** A name without dots is kept as it is. */
  lemma {:induction false} DotFreeUnchanged(s: string)
    requires '.' !in s
    ensures RemoveEllipsis(s) == s
    decreases |s|
  {
    if s != [] {
      assert s[0] != '.';
      DotFreeUnchanged(s[1..]);
    }
  }

  /** A leading `...` is dropped. */
  lemma LeadingEllipsisDropped(name: string)
    requires '.' !in name
    ensures RemoveEllipsis("..." + name) == name
  {
    assert ("..." + name)[3..] == name;
    DotFreeUnchanged(name);
  }

  /** ` * @param {T} name` for one parameter. */
  function ParamDocLine(p: Parameter, chain: seq<Caster>): string {
    " * @param {" + Projected(chain, p.rawType) + "} " + RemoveEllipsis(p.name)
  }

  function ParamDocLines(ps: seq<Parameter>, chain: seq<Caster>): (r: seq<string>)
    ensures |r| == |ps|
    decreases |ps|
  {
    if ps == [] then [] else [ParamDocLine(ps[0], chain)] + ParamDocLines(ps[1..], chain)
  }

  lemma {:induction false} ParamDocLinesAt(ps: seq<Parameter>, chain: seq<Caster>, i: int)
    requires 0 <= i < |ps|
    ensures ParamDocLines(ps, chain)[i] == ParamDocLine(ps[i], chain)
    decreases |ps|
  {
    if i > 0 {
      ParamDocLinesAt(ps[1..], chain, i - 1);
    }
  }

  lemma {:induction false} ParamDocLinesSnoc(ps: seq<Parameter>, p: Parameter, chain: seq<Caster>)
    ensures ParamDocLines(ps + [p], chain) == ParamDocLines(ps, chain) + [ParamDocLine(p, chain)]
    decreases |ps|
  {
    if ps == [] {
      assert ps + [p] == [p];
    } else {
      assert (ps + [p])[1..] == ps[1..] + [p];
      ParamDocLinesSnoc(ps[1..], p, chain);
    }
  }

  lemma ParamDocLinesPrefix(ps: seq<Parameter>, i: int, chain: seq<Caster>)
    requires 0 <= i < |ps|
    ensures ParamDocLines(ps[..i + 1], chain) == ParamDocLines(ps[..i], chain) + [ParamDocLine(ps[i], chain)]
  {
    assert ps[..i + 1] == ps[..i] + [ps[i]];
    ParamDocLinesSnoc(ps[..i], ps[i], chain);
  }

  /** What `WriteParametersCommentBlock` emits: nothing for no parameters,
      otherwise one line per parameter and a ` *` separator. */
  function ParamsCommentLines(ps: seq<Parameter>, chain: seq<Caster>): seq<string> {
    if ps == [] then [] else ParamDocLines(ps, chain) + [" *"]
  }

  /** The separator follows iff there is at least one parameter, and each
      parameter line names its projected type in braces and its name
      without any `...`. */
  lemma ParamsCommentShape(ps: seq<Parameter>, chain: seq<Caster>)
    ensures ps == [] <==> ParamsCommentLines(ps, chain) == []
    ensures ps != [] ==> (|ParamsCommentLines(ps, chain)| == |ps| + 1 &&
                          ParamsCommentLines(ps, chain)[|ps|] == " *")
    ensures forall i :: 0 <= i < |ps| ==>
      ParamsCommentLines(ps, chain)[i] == " * @param {" + Projected(chain, ps[i].rawType) + "} " + RemoveEllipsis(ps[i].name)
  {
    forall i | 0 <= i < |ps|
      ensures ParamsCommentLines(ps, chain)[i] == ParamDocLine(ps[i], chain)
    {
      ParamDocLinesAt(ps, chain, i);
    }
  }

  // ----- Methods -----

  /** The condition under which a method gets a doc block. */
  predicate MethodHasDoc(f: Function) {
    !Blank(f.description) || f.parameters != [] || !Blank(f.example)
  }

  function ExampleLines(f: Function): seq<string> {
    if Blank(f.example) then [] else CommentBlockLines(Some("@example " + f.example.value))
  }

  function MethodDocLines(f: Function, chain: seq<Caster>): seq<string> {
    if MethodHasDoc(f) then
      ["/**"] + CommentBlockLines(f.description) + ParamsCommentLines(f.parameters, chain) + ExampleLines(f) + [" */"]
    else []
  }

  /** `name(params): T`, with no semicolon. */
  function MethodLine(f: Function, chain: seq<Caster>): string {
    f.name + RenderMethodParameters(f.parameters, chain) + ": " + Projected(chain, f.returnType)
  }

  /** What `WriteClassMethod` emits, before indentation. */
  function MethodLines(f: Function, chain: seq<Caster>): seq<string> {
    MethodDocLines(f, chain) + [MethodLine(f, chain), ""]
  }

  /** The doc block is there iff the description or the example is not
      blank or there are parameters; it is framed by the markers, and the
      method line and a blank line always close the method. */
  lemma MethodShape(f: Function, chain: seq<Caster>)
    ensures var r := MethodLines(f, chain);
      |r| >= 2 && r[|r| - 2] == MethodLine(f, chain) && r[|r| - 1] == ""
    ensures MethodHasDoc(f) <==> |MethodLines(f, chain)| > 2
    ensures MethodHasDoc(f) ==>
      (MethodLines(f, chain)[0] == "/**" && MethodLines(f, chain)[|MethodLines(f, chain)| - 3] == " */")
    ensures !MethodHasDoc(f) ==> MethodLines(f, chain) == [MethodLine(f, chain), ""]
  {
  }

  function MethodsLines(fs: seq<Function>, chain: seq<Caster>): seq<string>
    decreases |fs|
  {
    if fs == [] then [] else MethodLines(fs[0], chain) + MethodsLines(fs[1..], chain)
  }

  lemma {:induction false} MethodsLinesSnoc(fs: seq<Function>, f: Function, chain: seq<Caster>)
    ensures MethodsLines(fs + [f], chain) == MethodsLines(fs, chain) + MethodLines(f, chain)
    decreases |fs|
  {
    if fs == [] {
      assert fs + [f] == [f];
      assert [f][1..] == [];
    } else {
      assert (fs + [f])[1..] == fs[1..] + [f];
      MethodsLinesSnoc(fs[1..], f, chain);
    }
  }

  lemma MethodsLinesPrefix(fs: seq<Function>, i: int, chain: seq<Caster>)
    requires 0 <= i < |fs|
    ensures MethodsLines(fs[..i + 1], chain) == MethodsLines(fs[..i], chain) + MethodLines(fs[i], chain)
  {
    assert fs[..i + 1] == fs[..i] + [fs[i]];
    MethodsLinesSnoc(fs[..i], fs[i], chain);
  }

  // ----- Properties -----

  /** `[readonly ]name[(params)]: T;`. */
  function PropertyLine(p: Property, chain: seq<Caster>): string {
    (if p.readOnly then "readonly " else "") + p.name +
    (if IsIndexed(p) then RenderMethodParameters(p.parameters.value, chain) else "") +
    ": " + Projected(chain, EffectiveType(p)) + ";"
  }

  /** The builder's four appends put together `PropertyLine`. */
  lemma PropertyLineParts(p: Property, chain: seq<Caster>, head: string, named: string, indexed: string,
                          t: string, line: string)
    requires head == (if p.readOnly then "readonly " else "")
    requires named == head + p.name
    requires indexed == named + (if IsIndexed(p) then RenderMethodParameters(p.parameters.value, chain) else "")
    requires t == Projected(chain, EffectiveType(p))
    requires line == indexed + ": " + t + ";"
    ensures line == PropertyLine(p, chain)
  {
  }

  /** What `WriteClassProperty` emits, before indentation. */
  function PropertyLines(p: Property, chain: seq<Caster>): seq<string> {
    DocBlock(p.description) + [PropertyLine(p, chain), ""]
  }

  /** A property ends with its line and a blank line; the lines before
      them are a doc block, present iff the description is not blank. */
  lemma PropertyShape(p: Property, chain: seq<Caster>)
    ensures var r := PropertyLines(p, chain);
      |r| >= 2 && r[|r| - 2] == PropertyLine(p, chain) && r[|r| - 1] == "" &&
      r[..|r| - 2] == DocBlock(p.description)
    ensures Blank(p.description) <==> PropertyLines(p, chain) == [PropertyLine(p, chain), ""]
  {
    var r := PropertyLines(p, chain);
    DocBlockShape(p.description);
    assert r[..|r| - 2] == DocBlock(p.description);
  }

  /** Only an explicit `true` with a non-null list adds the parameter
      list: a null flag and `false` render alike, and so does a null list. */
  lemma NullableFlag(p: Property, chain: seq<Caster>)
    ensures PropertyLine(p.(hasParameters := None), chain) == PropertyLine(p.(hasParameters := Some(false)), chain)
    ensures PropertyLine(p.(parameters := None), chain) == PropertyLine(p.(hasParameters := None), chain)
  {
  }

  /** A null `Type` falls back to `ReturnType`; a non-null one hides it. */
  lemma TypeFallback(p: Property, chain: seq<Caster>, other: Option<string>)
    ensures p.rawType.None? ==> PropertyLine(p, chain) == PropertyLine(p.(rawType := p.returnType), chain)
    ensures p.rawType.Some? ==> PropertyLine(p.(returnType := other), chain) == PropertyLine(p, chain)
  {
  }

  /** `readonly ` is prefixed to exactly the read-only properties. */
  lemma ReadOnlyPrefix(p: Property, chain: seq<Caster>)
    ensures p.readOnly ==> PropertyLine(p, chain) == "readonly " + PropertyLine(p.(readOnly := false), chain)
  {
  }

  /** With the indexed form on, the parameters sit between name and colon. */
  lemma IndexedProperty(p: Property, chain: seq<Caster>)
    requires IsIndexed(p) && !p.readOnly
    ensures PropertyLine(p, chain) ==
      p.name + RenderMethodParameters(p.parameters.value, chain) + ": " + Projected(chain, EffectiveType(p)) + ";"
  {
  }

  function PropertiesLines(ps: seq<Property>, chain: seq<Caster>): seq<string>
    decreases |ps|
  {
    if ps == [] then [] else PropertyLines(ps[0], chain) + PropertiesLines(ps[1..], chain)
  }

  lemma {:induction false} PropertiesLinesSnoc(ps: seq<Property>, p: Property, chain: seq<Caster>)
    ensures PropertiesLines(ps + [p], chain) == PropertiesLines(ps, chain) + PropertyLines(p, chain)
    decreases |ps|
  {
    if ps == [] {
      assert ps + [p] == [p];
      assert [p][1..] == [];
    } else {
      assert (ps + [p])[1..] == ps[1..] + [p];
      PropertiesLinesSnoc(ps[1..], p, chain);
    }
  }

  lemma PropertiesLinesPrefix(ps: seq<Property>, i: int, chain: seq<Caster>)
    requires 0 <= i < |ps|
    ensures PropertiesLines(ps[..i + 1], chain) == PropertiesLines(ps[..i], chain) + PropertyLines(ps[i], chain)
  {
    assert ps[..i + 1] == ps[..i] + [ps[i]];
    PropertiesLinesSnoc(ps[..i], ps[i], chain);
  }

  // ----- Classes -----

  /** `constructor(params);` and a blank line iff the class has one. */
  function CtorLines(c: Class, chain: seq<Caster>): (r: seq<string>)
    requires WellFormed(c)
    ensures c.hasConstructor <==> r != []
  {
    if c.hasConstructor then ["constructor" + RenderMethodParameters(c.ctor.value.parameters, chain) + ";", ""] else []
  }

  function HeaderLine(c: Class): string {
    "declare interface " + c.className + " {"
  }

  /** What `DeclareClassInstance` emits, before indentation. */
  function AliasLines(c: Class): seq<string>
    requires IsAlias(c)
  {
    DocBlock(c.description) + ["declare const " + c.className + ": " + c.instanceOf.value, ""]
  }

  /** The interface body, in order: properties, constructor, methods and
      what the appender adds. */
  function BodyLines(api: ApiDefinition, c: Class, chain: seq<Caster>): seq<string>
    requires WellFormed(c)
  {
    PropertiesLines(c.properties, chain) + CtorLines(c, chain) + MethodsLines(c.functions, chain) +
    AppendedLines(api, c, chain)
  }

  /** The classes this renderer can write without dereferencing null: an
      alias never reaches the constructor, so only an interface needs one
      when it says it has one. */
  predicate Renderable(c: Class) {
    IsAlias(c) || WellFormed(c)
  }

  /** What `GenerateClassDefinition` writes for a class at `level`. */
  function ClassLines(api: ApiDefinition, c: Class, level: int, chain: seq<Caster>): seq<string>
    requires Renderable(c)
  {
    if IsAlias(c) then Indented(level, AliasLines(c))
    else
      Indented(level, DocBlock(c.description) + [HeaderLine(c)]) +
      Indented(level + 1, BodyLines(api, c, chain)) +
      Indented(level, ["}", ""])
  }

  /** The definition once a class is rendered: only the appender renames. */
  function AfterClass(api: ApiDefinition, c: Class): ApiDefinition {
    if IsAlias(c) then api else AfterAppend(api, c)
  }

  /** An alias renders its description and the const line only: members,
      constructor and the appender play no part and nothing is renamed. */
  lemma AliasIgnoresMembers(api: ApiDefinition, c: Class, level: int, chain: seq<Caster>,
                            ps: seq<Property>, fs: seq<Function>)
    requires IsAlias(c)
    ensures ClassLines(api, c, level, chain) ==
      ClassLines(api.(events := []), c.(properties := ps, functions := fs, hasConstructor := false), level, chain)
    ensures AfterClass(api, c) == api
    ensures var r := ClassLines(api, c, level, chain);
      |r| >= 2 && r[|r| - 2] == Indent(level) + "declare const " + c.className + ": " + c.instanceOf.value &&
      r[|r| - 1] == Indent(level)
  {
    var xs := AliasLines(c);
    IndentedAt(level, xs, |xs| - 2);
    IndentedAt(level, xs, |xs| - 1);
  }

  /** The interface layout: the header at the outer level right after the
      doc block, the closing brace and blank line at the outer level at the
      end, and the body, one level deeper, in between. */
  lemma InterfaceLayout(api: ApiDefinition, c: Class, level: int, chain: seq<Caster>)
    requires !IsAlias(c) && WellFormed(c)
    ensures var r := ClassLines(api, c, level, chain);
      var d := |DocBlock(c.description)|;
      var b := |BodyLines(api, c, chain)|;
      |r| == d + b + 3 &&
      r[d] == Indent(level) + HeaderLine(c) &&
      r[d + 1..d + 1 + b] == Indented(level + 1, BodyLines(api, c, chain)) &&
      r[|r| - 2] == Indent(level) + "}" && r[|r| - 1] == Indent(level)
  {
    var head := DocBlock(c.description) + [HeaderLine(c)];
    IndentedAt(level, head, |head| - 1);
    LineThenBlank(level, "}");
  }

  /** The doc block precedes the header iff the description is not blank. */
  lemma ClassDocBlock(api: ApiDefinition, c: Class, level: int, chain: seq<Caster>)
    requires Renderable(c)
    ensures Blank(c.description) ==>
      ClassLines(api, c, level, chain)[0] ==
      Indent(level) + (if IsAlias(c) then "declare const " + c.className + ": " + c.instanceOf.value else HeaderLine(c))
    ensures !Blank(c.description) ==> ClassLines(api, c, level, chain)[0] == Indent(level) + "/**"
  {
    if IsAlias(c) {
      IndentedAt(level, AliasLines(c), 0);
    } else {
      IndentedAt(level, DocBlock(c.description) + [HeaderLine(c)], 0);
    }
  }

  predicate AllWellFormed(cs: seq<Class>) {
    forall i :: 0 <= i < |cs| ==> WellFormed(cs[i])
  }

  predicate AllRenderable(cs: seq<Class>) {
    forall i :: 0 <= i < |cs| ==> Renderable(cs[i])
  }

  /** The classes in list order, each against the definition as the
      classes before it have left it. */
  function RenderedClasses(api: ApiDefinition, cs: seq<Class>, level: int, chain: seq<Caster>): seq<string>
    requires AllRenderable(cs)
    decreases |cs|
  {
    if cs == [] then []
    else
      var n := |cs| - 1;
      RenderedClasses(api, cs[..n], level, chain) + ClassLines(Threaded(api, cs[..n]), cs[n], level, chain)
  }

  /** The definition once the classes are rendered in order. */
  function Threaded(api: ApiDefinition, cs: seq<Class>): ApiDefinition
    decreases |cs|
  {
    if cs == [] then api else AfterClass(Threaded(api, cs[..|cs| - 1]), cs[|cs| - 1])
  }

  lemma RenderedClassesPrefix(api: ApiDefinition, cs: seq<Class>, i: int, level: int, chain: seq<Caster>)
    requires AllRenderable(cs) && 0 <= i < |cs|
    ensures AllRenderable(cs[..i]) && AllRenderable(cs[..i + 1])
    ensures RenderedClasses(api, cs[..i + 1], level, chain) ==
      RenderedClasses(api, cs[..i], level, chain) + ClassLines(Threaded(api, cs[..i]), cs[i], level, chain)
    ensures Threaded(api, cs[..i + 1]) == AfterClass(Threaded(api, cs[..i]), cs[i])
  {
    var p := cs[..i + 1];
    assert p[..i] == cs[..i];
    assert p[i] == cs[i];
  }

  /** No event parameter of the definition is renamed to the handle
      expression itself (see `HandleAsLastSegment`). */
  predicate RenameStable(api: ApiDefinition) {
    forall i :: 0 <= i < |api.events| ==> NoHandleAfterRename(api.events[i].parameters)
  }

  /** A second rename of already renamed parameters never yields the
      handle expression. */
  lemma RenamedStaysStable(es: seq<Event>)
    requires forall i :: 0 <= i < |es| ==> NoHandleAfterRename(es[i].parameters)
    ensures forall i :: 0 <= i < |es| ==> NoHandleAfterRename(SanitizedEvents(es)[i].parameters)
  {
    forall i | 0 <= i < |es|
      ensures NoHandleAfterRename(SanitizedEvents(es)[i].parameters)
    {
      var ps := es[i].parameters;
      forall k | 0 <= k < |ps|
        ensures SanitizeEventParameterName(SanitizedParameters(ps)[k].name) != VehicleHandleName
      {
        SanitizeIdempotent(ps[k].name);
      }
    }
  }

  /** A class's lines depend on the definition only through the events'
      lines. */
  lemma EventsOnly(api: ApiDefinition, other: ApiDefinition, d: Class, level: int, chain: seq<Caster>)
    requires Renderable(d) && EventsLines(api.events, chain) == EventsLines(other.events, chain)
    ensures ClassLines(api, d, level, chain) == ClassLines(other, d, level, chain)
  {
    assert AppendedLines(api, d, chain) == AppendedLines(other, d, chain);
  }

  lemma AfterClassStable(api: ApiDefinition, c: Class)
    requires RenameStable(api)
    ensures RenameStable(AfterClass(api, c))
    ensures AfterClass(api, c).classes == api.classes
    ensures forall d: Class, level: int, chain: seq<Caster> | Renderable(d) ::
      ClassLines(AfterClass(api, c), d, level, chain) == ClassLines(api, d, level, chain)
  {
    if !IsAlias(c) && c.className == EventSystemClassName {
      var es := api.events;
      RenamedStaysStable(es);
      forall d: Class, level: int, chain: seq<Caster> | Renderable(d)
        ensures ClassLines(AfterClass(api, c), d, level, chain) == ClassLines(api, d, level, chain)
      {
        RenamingIsStable(es, chain);
        EventsOnly(AfterClass(api, c), api, d, level, chain);
      }
    }
  }

  /** Every class rendered against the definition as it was at the start. */
  function RenderedAgainst(api: ApiDefinition, cs: seq<Class>, level: int, chain: seq<Caster>): seq<string>
    requires AllRenderable(cs)
    decreases |cs|
  {
    if cs == [] then []
    else
      var n := |cs| - 1;
      RenderedAgainst(api, cs[..n], level, chain) + ClassLines(api, cs[n], level, chain)
  }

  /** However many classes are rendered, the definition stays stable and
      renders every class as the original does. */
  lemma {:induction false} ThreadedStable(api: ApiDefinition, cs: seq<Class>)
    requires RenameStable(api)
    ensures RenameStable(Threaded(api, cs))
    ensures forall d: Class, level: int, chain: seq<Caster> | Renderable(d) ::
      ClassLines(Threaded(api, cs), d, level, chain) == ClassLines(api, d, level, chain)
    decreases |cs|
  {
    if cs != [] {
      var n := |cs| - 1;
      ThreadedStable(api, cs[..n]);
      AfterClassStable(Threaded(api, cs[..n]), cs[n]);
    }
  }

  /** The renames written back by the appender never change what a later
      class renders: the threaded output equals rendering every class
      against the original definition. */
  lemma {:induction false} RenamesDoNotLeak(api: ApiDefinition, cs: seq<Class>, level: int, chain: seq<Caster>)
    requires AllRenderable(cs) && RenameStable(api)
    ensures RenderedClasses(api, cs, level, chain) == RenderedAgainst(api, cs, level, chain)
    decreases |cs|
  {
    if cs != [] {
      var n := |cs| - 1;
      RenamesDoNotLeak(api, cs[..n], level, chain);
      ThreadedStable(api, cs[..n]);
    }
  }

  /** The interface branch's three writes make up `ClassLines`. */
  lemma InterfaceAssembled(start: seq<string>, head: seq<string>, now: seq<string>,
                           level: int, inner: int, api: ApiDefinition, c: Class, chain: seq<Caster>)
    requires !IsAlias(c) && WellFormed(c) && inner == level + 1
    requires head == start + Indented(level, DocBlock(c.description) + [HeaderLine(c)])
    requires now == head + Indented(inner, BodyLines(api, c, chain)) + [Indent(level) + "}"] + [Indent(level)]
    ensures now == start + ClassLines(api, c, level, chain)
  {
    var a := Indented(level, DocBlock(c.description) + [HeaderLine(c)]);
    var b := Indented(inner, BodyLines(api, c, chain));
    var z := Indented(level, ["}", ""]);
    assert ClassLines(api, c, level, chain) == a + b + z;
    LineThenBlank(level, "}");
    Assembled(start, head, now, a, b, z, Indent(level) + "}", Indent(level));
  }

  /** Three pieces written in turn, the last as two lines. */
  lemma Assembled(start: seq<string>, head: seq<string>, now: seq<string>,
                  a: seq<string>, b: seq<string>, z: seq<string>, x: string, y: string)
    requires head == start + a && now == head + b + [x] + [y] && z == [x, y]
    ensures now == start + (a + b + z)
  {
    assert [x] + [y] == z;
  }

  /** Regrouping a concatenation. Kept as a lemma of its own: stated inline,
      the step has the whole of `Generate`'s invariant in scope and is far
      more expensive to prove. */
  lemma SeqAssoc3(s: seq<string>, a: seq<string>, b: seq<string>)
    ensures s + a + b == s + (a + b)
  {
  }

  /** One turn of `Generate`: rendering class `i` against the threaded
      definition extends the rendered prefix by one class. */
  lemma ClassRendered(orig: ApiDefinition, cs: seq<Class>, i: int, level: int, chain: seq<Caster>,
                      api: ApiDefinition, before: seq<string>, after: ApiDefinition, now: seq<string>,
                      start: seq<string>)
    requires AllRenderable(cs) && 0 <= i < |cs|
    requires api == Threaded(orig, cs[..i])
    requires AllRenderable(cs[..i]) && before == start + RenderedClasses(orig, cs[..i], level, chain)
    requires after == AfterClass(api, cs[i])
    requires now == before + ClassLines(api, cs[i], level, chain)
    ensures AllRenderable(cs[..i + 1])
    ensures after == Threaded(orig, cs[..i + 1])
    ensures now == start + RenderedClasses(orig, cs[..i + 1], level, chain)
  {
    RenderedClassesPrefix(orig, cs, i, level, chain);
    var r := RenderedClasses(orig, cs[..i], level, chain);
    var x := ClassLines(api, cs[i], level, chain);
    assert now == (start + r) + x;
    SeqAssoc3(start, r, x);
  }

  /** The generator: the definition it renders (whose event parameters the
      appender renames), the writer, and the weapon-name caster. */
  class DefinitionGenerator {
    var definition: ApiDefinition
    const writer: DefinitionWriterState
    const weapn: Caster

    constructor (definition: ApiDefinition, writer: DefinitionWriterState, weapn: Caster)
      ensures this.definition == definition && this.writer == writer && this.weapn == weapn
    {
      this.definition := definition;
      this.writer := writer;
      this.weapn := weapn;
    }

    /** `WriteClassProperty`: the doc block, the accumulated property line,
        a blank line. */
    method WriteClassProperty(p: Property)
      modifies writer
      ensures writer.lines == old(writer.lines) + Indented(old(writer.level), PropertyLines(p, TypeCasters(weapn)))
      ensures writer.level == old(writer.level)
    {
      var level := writer.level;
      ghost var start := writer.lines;
      WriteDocBlock(writer, p.description);
      ghost var mid := writer.lines;
      ghost var chain := TypeCasters(weapn);
      var propertyBuilder := "";
      if p.readOnly {
        propertyBuilder := propertyBuilder + "readonly ";
      }
      ghost var head := propertyBuilder;
      propertyBuilder := propertyBuilder + p.name;
      ghost var named := propertyBuilder;
      if p.hasParameters == Some(true) && p.parameters.Some? {
        propertyBuilder := propertyBuilder + RenderMethodParameters(p.parameters.value, TypeCasters(weapn));
      }
      ghost var indexed := propertyBuilder;
      var t := ProjectType(EffectiveType(p), weapn);
      propertyBuilder := propertyBuilder + ": " + t + ";";
      PropertyLineParts(p, chain, head, named, indexed, t, propertyBuilder);
      writer.WriteLine(propertyBuilder);
      writer.WriteBlankLine();
      LineThenBlank(level, propertyBuilder);
      WrittenInTurn(start, mid, writer.lines, level, DocBlock(p.description), [propertyBuilder, ""]);
    }

    /** `WriteParametersCommentBlockParameter`. */
    method WriteParametersCommentBlockParameter(p: Parameter)
      modifies writer
      ensures writer.lines == old(writer.lines) + [Indent(old(writer.level)) + ParamDocLine(p, TypeCasters(weapn))]
      ensures writer.level == old(writer.level)
    {
      var t := ProjectType(p.rawType, weapn);
      writer.WriteLine(" * @param {" + t + "} " + RemoveEllipsis(p.name));
    }

    /** `WriteParametersCommentBlock`: nothing for no parameters, otherwise
        a line per parameter and the ` *` separator. */
    method WriteParametersCommentBlock(ps: seq<Parameter>)
      modifies writer
      ensures writer.lines == old(writer.lines) + Indented(old(writer.level), ParamsCommentLines(ps, TypeCasters(weapn)))
      ensures writer.level == old(writer.level)
    {
      if ps == [] {
        return;
      }
      var level := writer.level;
      ghost var chain := TypeCasters(weapn);
      var i := 0;
      while i < |ps|
        invariant 0 <= i <= |ps|
        invariant writer.level == level
        invariant writer.lines == old(writer.lines) + Indented(level, ParamDocLines(ps[..i], chain))
      {
        ghost var before := writer.lines;
        WriteParametersCommentBlockParameter(ps[i]);
        OneLine(level, ParamDocLine(ps[i], chain));
        ParamDocLinesPrefix(ps, i, chain);
        WrittenInTurn(old(writer.lines), before, writer.lines, level, ParamDocLines(ps[..i], chain), [ParamDocLine(ps[i], chain)]);
        i := i + 1;
      }
      assert ps[..i] == ps;
      ghost var before := writer.lines;
      writer.WriteLine(" *");
      OneLine(level, " *");
      WrittenInTurn(old(writer.lines), before, writer.lines, level, ParamDocLines(ps, chain), [" *"]);
    }

    /** `WriteClassMethod`: the doc block when there is something to
        document, then the signature and a blank line. */
    method WriteClassMethod(f: Function)
      modifies writer
      ensures writer.lines == old(writer.lines) + Indented(old(writer.level), MethodLines(f, TypeCasters(weapn)))
      ensures writer.level == old(writer.level)
    {
      var level := writer.level;
      ghost var chain := TypeCasters(weapn);
      ghost var start := writer.lines;
      WriteMethodDoc(f);
      ghost var mid := writer.lines;
      var t := ProjectType(f.returnType, weapn);
      var line := f.name + RenderMethodParameters(f.parameters, TypeCasters(weapn)) + ": " + t;
      writer.WriteLine(line);
      writer.WriteBlankLine();
      LineThenBlank(level, line);
      WrittenInTurn(start, mid, writer.lines, level, MethodDocLines(f, chain), [line, ""]);
    }

    /** The doc block `WriteClassMethod` writes when the method has one. */
    method WriteMethodDoc(f: Function)
      modifies writer
      ensures writer.lines == old(writer.lines) + Indented(old(writer.level), MethodDocLines(f, TypeCasters(weapn)))
      ensures writer.level == old(writer.level)
    {
      var level := writer.level;
      ghost var chain := TypeCasters(weapn);
      ghost var start := writer.lines;
      if !Blank(f.description) || f.parameters != [] || !Blank(f.example) {
        writer.WriteLine("/**");
        OneLine(level, "/**");
        ghost var l1 := writer.lines;
        WriteCommentBlockContent(writer, f.description);
        WrittenInTurn(start, l1, writer.lines, level, ["/**"], CommentBlockLines(f.description));
        ghost var l2 := writer.lines;
        WriteParametersCommentBlock(f.parameters);
        WrittenInTurn(start, l2, writer.lines, level, ["/**"] + CommentBlockLines(f.description),
          ParamsCommentLines(f.parameters, chain));
        ghost var l3 := writer.lines;
        ghost var d3 := ["/**"] + CommentBlockLines(f.description) + ParamsCommentLines(f.parameters, chain);
        if !Blank(f.example) {
          WriteCommentBlockContent(writer, Some("@example " + f.example.value));
        }
        WrittenInTurn(start, l3, writer.lines, level, d3, ExampleLines(f));
        ghost var l4 := writer.lines;
        writer.WriteLine(" */");
        OneLine(level, " */");
        WrittenInTurn(start, l4, writer.lines, level, d3 + ExampleLines(f), [" */"]);
      }
    }

    /** `WriteClassConstructor`. */
    method WriteClassConstructor(c: Class)
      requires WellFormed(c)
      modifies writer
      ensures writer.lines == old(writer.lines) + Indented(old(writer.level), CtorLines(c, TypeCasters(weapn)))
      ensures writer.level == old(writer.level)
    {
      if !c.hasConstructor {
        return;
      }
      var line := "constructor" + RenderMethodParameters(c.ctor.value.parameters, TypeCasters(weapn)) + ";";
      writer.WriteLine(line);
      writer.WriteBlankLine();
      LineThenBlank(writer.level, line);
    }

    /** `WriteInterfaceDeclaration`. */
    method WriteInterfaceDeclaration(c: Class)
      modifies writer
      ensures writer.lines == old(writer.lines) + [Indent(old(writer.level)) + HeaderLine(c)]
      ensures writer.level == old(writer.level)
    {
      var interfaceDeclarationBuilder := "declare interface " + c.className;
      writer.WriteLine(interfaceDeclarationBuilder + " {");
    }

    /** `DeclareClassInstance`. */
    method DeclareClassInstance(c: Class)
      requires IsAlias(c)
      modifies writer
      ensures writer.lines == old(writer.lines) + Indented(old(writer.level), AliasLines(c))
      ensures writer.level == old(writer.level)
    {
      var level := writer.level;
      ghost var start := writer.lines;
      WriteDocBlock(writer, c.description);
      ghost var mid := writer.lines;
      var line := "declare const " + c.className + ": " + c.instanceOf.value;
      writer.WriteLine(line);
      writer.WriteBlankLine();
      LineThenBlank(level, line);
      WrittenInTurn(start, mid, writer.lines, level, DocBlock(c.description), [line, ""]);
    }

    /** `GenerateClassDefinition`: the alias branch, or the interface with
        its members one level deeper and the appender's additions. */
    method GenerateClassDefinition(c: Class)
      requires Renderable(c)
      modifies this, writer
      ensures definition == AfterClass(old(definition), c)
      ensures writer.lines == old(writer.lines) + ClassLines(old(definition), c, old(writer.level), TypeCasters(weapn))
      ensures writer.level == old(writer.level)
    {
      if !Blank(c.instanceOf) {
        DeclareClassInstance(c);
        return;
      }
      WriteInterface(c);
    }

    /** `GenerateClassDefinition` past the alias check: the doc block and
        header, the members one level deeper, the closing brace. */
    method WriteInterface(c: Class)
      requires WellFormed(c) && !IsAlias(c)
      modifies this, writer
      ensures definition == AfterAppend(old(definition), c)
      ensures writer.lines == old(writer.lines) + ClassLines(old(definition), c, old(writer.level), TypeCasters(weapn))
      ensures writer.level == old(writer.level)
    {
      OpenInterface(c);
      ghost var head := writer.lines;
      ghost var inner := writer.level;
      WriteMembersAndClose(c);
      InterfaceAssembled(old(writer.lines), head, writer.lines, writer.level, inner, old(definition), c,
                         TypeCasters(weapn));
    }

    /** The members one level deeper, then the closing brace one level out. */
    method WriteMembersAndClose(c: Class)
      requires WellFormed(c)
      modifies this, writer
      ensures definition == AfterAppend(old(definition), c)
      ensures writer.level == old(writer.level) - 1
      ensures writer.lines == old(writer.lines) + Indented(old(writer.level), BodyLines(old(definition), c, TypeCasters(weapn))) +
        [Indent(writer.level) + "}"] + [Indent(writer.level)]
    {
      WriteMembers(c);
      CloseInterface();
    }

    /** The doc block and the header, then one level deeper. */
    method OpenInterface(c: Class)
      modifies writer
      ensures writer.lines == old(writer.lines) + Indented(old(writer.level), DocBlock(c.description) + [HeaderLine(c)])
      ensures writer.level == old(writer.level) + 1
    {
      var level := writer.level;
      ghost var start := writer.lines;
      WriteDocBlock(writer, c.description);
      ghost var l1 := writer.lines;
      WriteInterfaceDeclaration(c);
      OneLine(level, HeaderLine(c));
      WrittenInTurn(start, l1, writer.lines, level, DocBlock(c.description), [HeaderLine(c)]);
      writer.IncreaseIndentation();
    }

    /** Back one level, the closing brace and a blank line. */
    method CloseInterface()
      modifies writer
      ensures writer.level == old(writer.level) - 1
      ensures writer.lines == old(writer.lines) + [Indent(writer.level) + "}"] + [Indent(writer.level)]
    {
      writer.DecreaseIndentation();
      writer.WriteLine("}");
      writer.WriteBlankLine();
    }

    /** The middle of `GenerateClassDefinition`, one level deeper:
        properties, constructor, methods, then the appender, which may
        rename event parameters in the definition. */
    method WriteMembers(c: Class)
      requires WellFormed(c)
      modifies this, writer
      ensures definition == AfterAppend(old(definition), c)
      ensures writer.lines == old(writer.lines) + Indented(old(writer.level), BodyLines(old(definition), c, TypeCasters(weapn)))
      ensures writer.level == old(writer.level)
    {
      var level := writer.level;
      ghost var chain := TypeCasters(weapn);
      ghost var head := writer.lines;
      WriteClassProperties(c.properties);
      ghost var b1 := writer.lines;
      WriteClassConstructor(c);
      WrittenInTurn(head, b1, writer.lines, level, PropertiesLines(c.properties, chain), CtorLines(c, chain));
      ghost var b2 := writer.lines;
      WriteClassMethods(c.functions);
      WrittenInTurn(head, b2, writer.lines, level,
        PropertiesLines(c.properties, chain) + CtorLines(c, chain), MethodsLines(c.functions, chain));
      ghost var b3 := writer.lines;
      definition := AppendDefinition(definition, c, writer, weapn);
      WrittenInTurn(head, b3, writer.lines, level,
        PropertiesLines(c.properties, chain) + CtorLines(c, chain) + MethodsLines(c.functions, chain),
        AppendedLines(old(definition), c, chain));
    }

    /** `Properties.ToList().ForEach(WriteClassProperty)`. */
    method WriteClassProperties(ps: seq<Property>)
      modifies writer
      ensures writer.lines == old(writer.lines) + Indented(old(writer.level), PropertiesLines(ps, TypeCasters(weapn)))
      ensures writer.level == old(writer.level)
    {
      var level := writer.level;
      ghost var chain := TypeCasters(weapn);
      var i := 0;
      while i < |ps|
        invariant 0 <= i <= |ps|
        invariant writer.level == level
        invariant writer.lines == old(writer.lines) + Indented(level, PropertiesLines(ps[..i], chain))
      {
        ghost var before := writer.lines;
        WriteClassProperty(ps[i]);
        PropertiesLinesPrefix(ps, i, chain);
        WrittenInTurn(old(writer.lines), before, writer.lines, level, PropertiesLines(ps[..i], chain), PropertyLines(ps[i], chain));
        i := i + 1;
      }
      assert ps[..i] == ps;
    }

    /** `Functions.ToList().ForEach(WriteClassMethod)`. */
    method WriteClassMethods(fs: seq<Function>)
      modifies writer
      ensures writer.lines == old(writer.lines) + Indented(old(writer.level), MethodsLines(fs, TypeCasters(weapn)))
      ensures writer.level == old(writer.level)
    {
      var level := writer.level;
      ghost var chain := TypeCasters(weapn);
      var i := 0;
      while i < |fs|
        invariant 0 <= i <= |fs|
        invariant writer.level == level
        invariant writer.lines == old(writer.lines) + Indented(level, MethodsLines(fs[..i], chain))
      {
        ghost var before := writer.lines;
        WriteClassMethod(fs[i]);
        MethodsLinesPrefix(fs, i, chain);
        WrittenInTurn(old(writer.lines), before, writer.lines, level, MethodsLines(fs[..i], chain), MethodLines(fs[i], chain));
        i := i + 1;
      }
      assert fs[..i] == fs;
    }

    /** `Generate` without the file handling: every class in list order. */
    method Generate()
      requires AllRenderable(definition.classes)
      modifies this, writer
      ensures definition == Threaded(old(definition), old(definition.classes))
      ensures writer.lines == old(writer.lines) +
        RenderedClasses(old(definition), old(definition.classes), old(writer.level), TypeCasters(weapn))
      ensures writer.level == old(writer.level)
    {
      var classes := definition.classes;
      var level := writer.level;
      ghost var orig := definition;
      ghost var start := writer.lines;
      ghost var chain := TypeCasters(weapn);
      var i := 0;
      while i < |classes|
        invariant 0 <= i <= |classes|
        invariant AllRenderable(classes[..i])
        invariant definition == Threaded(orig, classes[..i])
        invariant writer.level == level
        invariant writer.lines == start + RenderedClasses(orig, classes[..i], level, chain)
      {
        ghost var api := definition;
        ghost var before := writer.lines;
        GenerateClassDefinition(classes[i]);
        ClassRendered(orig, classes, i, level, chain, api, before, definition, writer.lines, start);
        i := i + 1;
      }
      assert classes[..i] == classes;
    }
  }
}
