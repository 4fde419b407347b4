/**
 * The declaration writer: an indentation counter and an append-only sink
 * of lines. The sink is the sequence of strings handed to `WriteLine`.
 */
module WriterState {

  const IndentationString := "    "

  /** The indentation prefix: four spaces per level, nothing at level 0 or
      below (the counter is never clamped, but a negative level indents by
      nothing). */
  function Indent(level: int): string
    decreases level
  {
    if level <= 0 then "" else Indent(level - 1) + IndentationString
  }

  /** Four spaces per positive level, and nothing but spaces. */
  lemma {:induction false} IndentShape(level: int)
    ensures |Indent(level)| == if level <= 0 then 0 else 4 * level
    ensures forall k :: 0 <= k < |Indent(level)| ==> Indent(level)[k] == ' '
    decreases level
  {
    if level > 0 {
      IndentShape(level - 1);
    }
  }

  /** A deeper level extends the shallower prefix. */
  lemma {:induction false} IndentPrefix(level: int, deeper: int)
    requires level <= deeper
    ensures StartsWithPrefix(Indent(deeper), Indent(level))
    decreases deeper - level
  {
    if level < deeper && deeper > 0 {
      IndentPrefix(level, deeper - 1);
    }
  }

  predicate StartsWithPrefix(s: string, p: string) {
    |p| <= |s| && s[..|p|] == p
  }

  /** Lines written at `level`: each gets the indentation prefix. */
  function Indented(level: int, xs: seq<string>): (r: seq<string>)
    ensures |r| == |xs|
    decreases |xs|
  {
    if xs == [] then [] else [Indent(level) + xs[0]] + Indented(level, xs[1..])
  }

  /** Each written line is the prefix followed by the line handed over. */
  lemma {:induction false} IndentedAt(level: int, xs: seq<string>, i: int)
    requires 0 <= i < |xs|
    ensures Indented(level, xs)[i] == Indent(level) + xs[i]
    decreases |xs|
  {
    if i > 0 {
      IndentedAt(level, xs[1..], i - 1);
    }
  }

  /** Lines written one after another at the same level. */
  lemma {:induction false} IndentedAppend(level: int, a: seq<string>, b: seq<string>)
    ensures Indented(level, a + b) == Indented(level, a) + Indented(level, b)
    decreases |a|
  {
    if a == [] {
      assert a + b == b;
    } else {
      assert (a + b)[0] == a[0];
      assert (a + b)[1..] == a[1..] + b;
      IndentedAppend(level, a[1..], b);
    }
  }

  lemma OneLine(level: int, x: string)
    ensures Indented(level, [x]) == [Indent(level) + x]
  {
    assert [x][1..] == [];
  }

  /** A line followed by a blank line, which holds only the prefix. */
  lemma LineThenBlank(level: int, x: string)
    ensures Indented(level, [x, ""]) == [Indent(level) + x, Indent(level)]
  {
    assert [x, ""][1..] == [""];
    assert [""][1..] == [];
    assert Indent(level) + "" == Indent(level);
  }

  /** Writing `done` and then `next` at one level is writing `done + next`. */
  lemma WrittenInTurn(start: seq<string>, mid: seq<string>, now: seq<string>, level: int, done: seq<string>, next: seq<string>)
    requires mid == start + Indented(level, done)
    requires now == mid + Indented(level, next)
    ensures now == start + Indented(level, done + next)
  {
    IndentedAppend(level, done, next);
  }

  class DefinitionWriterState {
    /** Every line written so far, oldest first. */
    var lines: seq<string>
    var level: int

    /** A fresh writer: nothing written, level 0. */
    constructor ()
      ensures lines == [] && level == 0
    {
      lines := [];
      level := 0;
    }

    /** `GetIndentationString`: the prefix built by a loop that appends the
        indentation unit once per level. */
    method GetIndentationString() returns (r: string)
      ensures r == Indent(level)
    {
      r := "";
      var i := 0;
      while i < level
        invariant 0 <= i && (level >= 0 ==> i <= level) && (level < 0 ==> i == 0)
        invariant r == Indent(i)
      {
        r := r + IndentationString;
        i := i + 1;
      }
    }

    /** Appends exactly one line: the prefix, then `line`. */
    method WriteLine(line: string)
      modifies this
      ensures lines == old(lines) + [Indent(level) + line]
      ensures level == old(level)
    {
      var indentation := GetIndentationString();
      lines := lines + [indentation + line];
    }

    /** `WriteLine("")`: a line holding only the prefix. */
    method WriteBlankLine()
      modifies this
      ensures lines == old(lines) + [Indent(level)]
      ensures level == old(level)
    {
      WriteLine("");
      assert Indent(level) + "" == Indent(level);
    }

    method IncreaseIndentation(amount: int := 1)
      modifies this
      ensures level == old(level) + amount
      ensures lines == old(lines)
    {
      level := level + amount;
    }

    /** Subtracts one, with no clamping at zero. */
    method DecreaseIndentation()
      modifies this
      ensures level == old(level) - 1
      ensures lines == old(lines)
    {
      level := level - 1;
    }
  }

  /** Increasing then decreasing restores the level and writes nothing. */
  method IncreaseThenDecrease(w: DefinitionWriterState)
    modifies w
    ensures w.level == old(w.level) && w.lines == old(w.lines)
  {
    w.IncreaseIndentation();
    w.DecreaseIndentation();
  }
}
