/** Renders a parameter list as `(a: T, b?: U, ...rest: Array<V>)`. */
module MethodParameterRendering {
  import opened Wrappers
  import opened Strings
  import opened Models
  import opened TypeProjection

  /** A name starting with `...` denotes a rest parameter. */
  predicate IsVariadic(p: Parameter) {
    StartsWith(p.name, "...")
  }

  /** `RenderMethodParameter`: the name verbatim, `?` for an optional
      non-rest parameter, then `: ` and the projected type, which for a rest
      parameter is wrapped as an array. */
  function RenderMethodParameter(p: Parameter, chain: seq<Caster>): (r: string)
    ensures |r| > |p.name| && r[..|p.name|] == p.name
    ensures r[|p.name|] == '?' <==> p.optional && !IsVariadic(p)
    ensures IsVariadic(p) ==> r[|p.name|..] == ": " + ProjectTypeAsArray(chain, p.rawType)
    ensures !IsVariadic(p) && !p.optional ==> r[|p.name|..] == ": " + Projected(chain, p.rawType)
    ensures !IsVariadic(p) && p.optional ==> r[|p.name|..] == "?: " + Projected(chain, p.rawType)
  {
    var isParamsParameter := StartsWith(p.name, "...");
    var returnType := if isParamsParameter then ProjectTypeAsArray(chain, p.rawType) else Projected(chain, p.rawType);
    var optionalSpecifier := if !isParamsParameter && p.optional then "?" else "";
    p.name + optionalSpecifier + ": " + returnType
  }

  /** Each parameter rendered, in list order. */
  function RenderedEach(ps: seq<Parameter>, chain: seq<Caster>): (r: seq<string>)
    ensures |r| == |ps|
    ensures forall i :: 0 <= i < |ps| ==> r[i] == RenderMethodParameter(ps[i], chain)
  {
    seq(|ps|, i requires 0 <= i < |ps| => RenderMethodParameter(ps[i], chain))
  }

  /** `RenderMethodParameters`: the rendered parameters joined by `, `
      inside parentheses. */
  function RenderMethodParameters(ps: seq<Parameter>, chain: seq<Caster>): (r: string)
    ensures |r| >= 2 && r[0] == '(' && r[|r| - 1] == ')'
    ensures r[1..|r| - 1] == Join(", ", RenderedEach(ps, chain))
  {
    "(" + Join(", ", RenderedEach(ps, chain)) + ")"
  }

  /** An empty list renders as `()`. */
  lemma Empty(chain: seq<Caster>)
    ensures RenderMethodParameters([], chain) == "()"
  {
  }

  /** A single parameter renders alone between the parentheses. */
  lemma Single(p: Parameter, chain: seq<Caster>)
    ensures RenderMethodParameters([p], chain) == "(" + RenderMethodParameter(p, chain) + ")"
  {
  }

  /** Order is preserved: rendering a concatenation puts the first list's
      parameters, a `, `, then the second list's. */
  lemma Append(ps: seq<Parameter>, qs: seq<Parameter>, chain: seq<Caster>)
    requires ps != [] && qs != []
    ensures var inner := RenderMethodParameters(ps + qs, chain);
      inner == "(" + Join(", ", RenderedEach(ps, chain)) + ", " + Join(", ", RenderedEach(qs, chain)) + ")"
  {
    var xs := RenderedEach(ps, chain);
    var ys := RenderedEach(qs, chain);
    RenderedEachAppend(ps, qs, chain);
    JoinAppend(", ", xs, ys);
    Parenthesised(Join(", ", xs), Join(", ", ys));
  }

  lemma RenderedEachAppend(ps: seq<Parameter>, qs: seq<Parameter>, chain: seq<Caster>)
    ensures RenderedEach(ps + qs, chain) == RenderedEach(ps, chain) + RenderedEach(qs, chain)
  {
    var xs := RenderedEach(ps, chain);
    var ys := RenderedEach(qs, chain);
    forall i | 0 <= i < |ps| + |qs|
      ensures RenderedEach(ps + qs, chain)[i] == (xs + ys)[i]
    {
      if i < |ps| {
        assert (ps + qs)[i] == ps[i];
      } else {
        assert (ps + qs)[i] == qs[i - |ps|];
      }
    }
  }

  lemma Parenthesised(a: string, b: string)
    ensures "(" + (a + ", " + b) + ")" == "(" + a + ", " + b + ")"
  {
  }

  /** A rest parameter never carries `?`, even when marked optional, and its
      element type becomes the array element type. */
  lemma Variadic(p: Parameter, chain: seq<Caster>, t: string)
    requires IsVariadic(p) && p.rawType == Some(t) && Projected(chain, p.rawType) == t
    ensures RenderMethodParameter(p, chain) == p.name + ": Array<" + t + ">"
    ensures RenderMethodParameter(p.(optional := true), chain) == RenderMethodParameter(p.(optional := false), chain)
  {
  }

  /** `...items` of type `Foo` renders as `...items: Array<Foo>`. */
  lemma VariadicItems(weapn: Caster, p: Parameter)
    requires p.name == "...items" && p.rawType == Some("Foo") && weapn("Foo") == "Foo"
    ensures RenderMethodParameter(p, TypeCasters(weapn)) == "...items: Array<Foo>"
  {
    var chain := TypeCasters(weapn);
    assert Projected(chain, p.rawType) == "Foo" by {
      PlainTypeUnchanged(weapn, "Foo");
    }
    assert IsVariadic(p) by {
      assert p.name[..3] == "...";
    }
    Variadic(p, chain, "Foo");
    assert "...items" + ": Array<" + "Foo" + ">" == "...items: Array<Foo>";
  }

  /** An optional `x` of type `Foo` renders as `x?: Foo`. */
  lemma OptionalParameter(weapn: Caster, p: Parameter)
    requires p.name == "x" && p.optional && p.rawType == Some("Foo") && weapn("Foo") == "Foo"
    ensures RenderMethodParameter(p, TypeCasters(weapn)) == "x?: Foo"
  {
    PlainTypeUnchanged(weapn, "Foo");
  }
}
