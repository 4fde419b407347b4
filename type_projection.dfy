/**
 * Type projection: a blank type is `any`; any other type string is threaded
 * through a fixed, ordered chain of casters.
 */
module TypeProjection {
  import opened Wrappers
  import opened Strings
  import UnknownTypeCaster
  import OrTypeCaster
  import ArrayTypeCaster
  import FunctionToLambdaCaster
  import NullBackTickCaster

  /** One caster: a total rewrite of a type string. */
  type Caster = string -> string

  /** The chain in its fixed order. `weapn` stands for the caster that
      corrects the misspelt weapon type, which is not part of this model. */
  function TypeCasters(weapn: Caster): (r: seq<Caster>)
    ensures |r| == 6
  {
    [UnknownTypeCaster.Execute, OrTypeCaster.Execute, ArrayTypeCaster.Execute,
     weapn, FunctionToLambdaCaster.Execute, NullBackTickCaster.Execute]
  }

  /** Each caster in turn receives what the previous one returned. */
  function Fold(chain: seq<Caster>, s: string): string
    decreases |chain|
  {
    if chain == [] then s else Fold(chain[1..], chain[0](s))
  }

  /** What projecting `t` through `chain` yields. */
  function Projected(chain: seq<Caster>, t: Option<string>): string {
    if Blank(t) then "any" else Fold(chain, t.value)
  }

  /** `ProjectType`: the blank guard, then a loop that reassigns the type
      with each caster's result. */
  method ProjectType(returnType: Option<string>, weapn: Caster) returns (r: string)
    ensures r == Projected(TypeCasters(weapn), returnType)
  {
    if Blank(returnType) {
      return "any";
    }
    var casters := TypeCasters(weapn);
    r := returnType.value;
    var i := 0;
    while i < |casters|
      invariant 0 <= i <= |casters|
      invariant Fold(casters[i..], r) == Fold(casters, returnType.value)
    {
      assert casters[i..][1..] == casters[i + 1..];
      r := casters[i](r);
      i := i + 1;
    }
  }

  /** `ProjectTypeAsArray`: the projection wrapped as an array type. */
  function ProjectTypeAsArray(chain: seq<Caster>, t: Option<string>): string {
    "Array<" + Projected(chain, t) + ">"
  }

  /** A null or white-space-only type is `any` whatever the chain: no
      caster runs. */
  lemma BlankIsAny(chain: seq<Caster>, t: Option<string>)
    requires Blank(t)
    ensures Projected(chain, t) == "any"
    ensures ProjectTypeAsArray(chain, t) == "Array<any>"
  {
  }

  /** The projection is the casters applied left to right in the order
      Unknown, Or, Array, weapon name, FunctionToLambda, NullBackTick. */
  lemma ChainOrder(weapn: Caster, t: Option<string>)
    requires !Blank(t)
    ensures Projected(TypeCasters(weapn), t) ==
      NullBackTickCaster.Execute(FunctionToLambdaCaster.Execute(weapn(
        ArrayTypeCaster.Execute(OrTypeCaster.Execute(UnknownTypeCaster.Execute(t.value))))))
  {
    var cs := TypeCasters(weapn);
    var s0 := t.value;
    var s1 := UnknownTypeCaster.Execute(s0);
    var s2 := OrTypeCaster.Execute(s1);
    var s3 := ArrayTypeCaster.Execute(s2);
    var s4 := weapn(s3);
    var s5 := FunctionToLambdaCaster.Execute(s4);
    assert Fold(cs, s0) == Fold(cs[1..], s1);
    assert Fold(cs[1..], s1) == Fold(cs[2..], s2) by { assert cs[1..][1..] == cs[2..]; }
    assert Fold(cs[2..], s2) == Fold(cs[3..], s3) by { assert cs[2..][1..] == cs[3..]; }
    assert Fold(cs[3..], s3) == Fold(cs[4..], s4) by { assert cs[3..][1..] == cs[4..]; }
    assert Fold(cs[4..], s4) == Fold(cs[5..], s5) by { assert cs[4..][1..] == cs[5..]; }
    assert Fold(cs[5..], s5) == Fold([], NullBackTickCaster.Execute(s5)) by { assert cs[5..][1..] == []; }
  }

  /** The Unknown caster runs first, so the later casters see `any`. */
  lemma UnknownFirst(weapn: Caster, t: Option<string>)
    requires t == Some("unknown")
    ensures Projected(TypeCasters(weapn), t) ==
      NullBackTickCaster.Execute(FunctionToLambdaCaster.Execute(weapn("any")))
  {
    assert !IsWs(t.value[0]);
    ChainOrder(weapn, t);
    OrTypeCaster.NoSeparatorChars("any");
    ArrayTypeCaster.NoCapitalAUnchanged("any");
  }

  /** The Or caster runs before NullBackTick: `Foo|`null`` is split into
      the union `Foo | `null`` before the back-ticks are stripped. */
  lemma OrBeforeNullBackTick(weapn: Caster, a: string, b: string)
    requires a != [] && b != [] && NoWs(a) && NoWs(b) && '|' !in b
    requires 'A' !in a && 'A' !in b
    ensures Projected(TypeCasters(weapn), Some(a + "|" + b)) ==
      NullBackTickCaster.Execute(FunctionToLambdaCaster.Execute(weapn(a + " | " + b)))
  {
    var u := a + "|" + b;
    var o := a + " | " + b;
    assert !IsWs(u[0]);
    assert UnknownTypeCaster.Execute(u) == u by {
      assert u[|a|] == '|';
      assert '|' !in "unknown";
    }
    assert OrTypeCaster.Execute(u) == o by {
      OrTypeCaster.PipeForm(a, b);
    }
    assert ArrayTypeCaster.Execute(o) == o by {
      ArrayTypeCaster.NoCapitalAUnchanged(o);
    }
    ChainOrder(weapn, Some(u));
  }

  /** A plain type name that no caster recognises projects to itself. */
  lemma PlainTypeUnchanged(weapn: Caster, t: string)
    requires t != [] && NoWs(t) && '|' !in t && 'A' !in t && '`' !in t
    requires t != "unknown" && t != "function" && weapn(t) == t
    ensures Projected(TypeCasters(weapn), Some(t)) == t
  {
    assert !IsWs(t[0]);
    ChainOrder(weapn, Some(t));
    OrTypeCaster.NoSeparatorChars(t);
    ArrayTypeCaster.NoCapitalAUnchanged(t);
    NullBackTickCaster.NoBackTickUnchanged(t);
  }
}
