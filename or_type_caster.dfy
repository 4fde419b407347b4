/**
 * Rewrites the first union written as `A or B` or `A|B` into `A | B`.
 *
 * The pattern is `(?<first>[^\s]+)(?:\sor\s|\|)(?<second>[^\s]+)`, matched
 * once. Written out: the match starts at the leftmost index that admits one;
 * from there the greedy `first` takes the longest white-space-free run that
 * is followed by a separator (one white-space char, `or`, one white-space
 * char; or a pipe) and then by at least one non-white-space char; `second`
 * is the maximal white-space-free run after the separator. On a match the
 * whole result is `first + " | " + second`.
 */
module OrTypeCaster {
  import opened Wrappers
  import opened Strings

  /** The end of the white-space-free run that starts at `i`. */
  function RunEnd(s: string, i: nat): (e: nat)
    requires i <= |s|
    ensures i <= e <= |s|
    ensures forall k :: i <= k < e ==> !IsWs(s[k])
    ensures e < |s| ==> IsWs(s[e])
    decreases |s| - i
  {
    if i == |s| || IsWs(s[i]) then i else RunEnd(s, i + 1)
  }

  /** If a separator sits at `j` and a non-white-space char follows it,
      the index where `second` starts. At any `j` at most one of the two
      alternatives can apply, because the first needs white space at `j`
      and the second a pipe. */
  function SecondStart(s: string, j: nat): (k: Option<nat>)
    ensures k.Some? ==> j < k.value < |s| && !IsWs(s[k.value])
    ensures k.Some? ==> k.value == j + 1 || k.value == j + 4
  {
    if j + 4 < |s| && IsWs(s[j]) && s[j + 1] == 'o' && s[j + 2] == 'r' && IsWs(s[j + 3]) && !IsWs(s[j + 4])
    then Some(j + 4)
    else if j + 1 < |s| && s[j] == '|' && !IsWs(s[j + 1])
    then Some(j + 1)
    else None
  }

  /** `first` can be `s[i..j]`: a non-empty white-space-free run followed
      by a separator and a non-white-space char. */
  predicate IsSplit(s: string, i: nat, j: nat) {
    i < j <= |s| && (forall k :: i <= k < j ==> !IsWs(s[k])) && SecondStart(s, j).Some?
  }

  /** The greedy group backing off: the largest `j` in `(i, hi]` with a
      separator at `j`. */
  function LastSplit(s: string, i: nat, hi: nat): (j: Option<nat>)
    requires i <= hi <= |s|
    ensures j.Some? ==> i < j.value <= hi && SecondStart(s, j.value).Some?
    ensures j.Some? ==> forall k :: j.value < k <= hi ==> SecondStart(s, k).None?
    ensures j.None? ==> forall k :: i < k <= hi ==> SecondStart(s, k).None?
    decreases hi
  {
    if hi <= i then None
    else if SecondStart(s, hi).Some? then Some(hi)
    else LastSplit(s, i, hi - 1)
  }

  /** The positions of one match: `first` is `s[start..split]`,
      `second` is `s[second..end]`. */
  datatype Match = Match(start: nat, split: nat, second: nat, end: nat)

  predicate WellPlaced(s: string, m: Match) {
    m.start < m.split < m.second < m.end <= |s|
  }

  /** The leftmost match starting at or after `i`. */
  function MatchFrom(s: string, i: nat): (m: Option<Match>)
    requires i <= |s|
    ensures m.Some? ==> WellPlaced(s, m.value) && i <= m.value.start
    ensures m.Some? ==> IsSplit(s, m.value.start, m.value.split)
    ensures m.Some? ==> SecondStart(s, m.value.split) == Some(m.value.second)
    ensures m.Some? ==> m.value.end == RunEnd(s, m.value.second)
    ensures m.Some? ==> forall a, b :: i <= a < m.value.start && IsSplit(s, a, b) ==> false
    ensures m.Some? ==> forall b :: m.value.split < b && IsSplit(s, m.value.start, b) ==> false
    ensures m.None? ==> forall a, b :: i <= a && IsSplit(s, a, b) ==> false
    decreases |s| - i
  {
    if i == |s| then None
    else
      match LastSplit(s, i, RunEnd(s, i))
      case Some(j) =>
        var k := SecondStart(s, j).value;
        Some(Match(i, j, k, RunEnd(s, k)))
      case None => MatchFrom(s, i + 1)
  }

  /** The captured groups, if the pattern matches anywhere. */
  function Groups(s: string): Option<(string, string)> {
    match MatchFrom(s, 0)
    case None => None
    case Some(m) => Some((s[m.start..m.split], s[m.second..m.end]))
  }

  function Execute(s: string): string {
    match Groups(s)
    case None => s
    case Some((first, second)) => first + " | " + second
  }

  /** Where the input has no split at all the caster is the identity. */
  lemma NoSplitUnchanged(s: string)
    requires forall a: nat, b: nat :: !IsSplit(s, a, b)
    ensures Execute(s) == s
  {
  }

  /** Where the input has a split, the captured groups are non-empty and
      white-space-free, and the output is exactly `first + " | " + second`:
      text before `first` and after `second` is dropped. */
  lemma MatchedShape(s: string, a: nat, b: nat)
    requires IsSplit(s, a, b)
    ensures Groups(s).Some?
    ensures Groups(s).value.0 != [] && NoWs(Groups(s).value.0)
    ensures Groups(s).value.1 != [] && NoWs(Groups(s).value.1)
    ensures Execute(s) == Groups(s).value.0 + " | " + Groups(s).value.1
  {
    var m := MatchFrom(s, 0);
    assert m.Some?;
  }

  /** In a rewritten output the white space is exactly the two spaces
      around the pipe. */
  lemma OutputWhitespace(s: string)
    requires Groups(s).Some?
    ensures var r := Execute(s); var n := |Groups(s).value.0|;
      |r| > n + 2 && r[n..n + 3] == " | " &&
      forall k :: 0 <= k < |r| && IsWs(r[k]) ==> k == n || k == n + 2
  {
  }

  /** A white-space-free string without pipes has no split. */
  lemma NoSeparatorChars(s: string)
    requires NoWs(s) && '|' !in s
    ensures Execute(s) == s
  {
  }

  /** Helper: the run starting at `i` ends exactly at `e`. */
  lemma RunEndAt(s: string, i: nat, e: nat)
    requires i <= e <= |s|
    requires forall k :: i <= k < e ==> !IsWs(s[k])
    requires e == |s| || IsWs(s[e])
    ensures RunEnd(s, i) == e
  {
  }

  /** `A or B` becomes `A | B`. */
  lemma {:induction false} WordForm(a: string, b: string)
    requires a != [] && b != [] && NoWs(a) && NoWs(b)
    ensures Execute(a + " or " + b) == a + " | " + b
  {
    var s := a + " or " + b;
    RunEndAt(s, 0, |a|);
    assert SecondStart(s, |a|) == Some(|a| + 4);
    RunEndAt(s, |a| + 4, |s|);
    assert s[0..|a|] == a;
    assert s[|a| + 4..|s|] == b;
  }

  /** `A|B` becomes `A | B` when B holds no further pipe. */
  lemma {:induction false} PipeForm(a: string, b: string)
    requires a != [] && b != [] && NoWs(a) && NoWs(b) && '|' !in b
    ensures Execute(a + "|" + b) == a + " | " + b
  {
    var s := a + "|" + b;
    RunEndAt(s, 0, |s|);
    assert SecondStart(s, |a|) == Some(|a| + 1);
    var j := LastSplit(s, 0, |s|);
    assert j == Some(|a|);
    RunEndAt(s, |a| + 1, |s|);
    assert s[0..|a|] == a;
    assert s[|a| + 1..|s|] == b;
  }

  /** An already normalised `X | Y` is returned unchanged. */
  lemma {:induction false} NormalisedUnchanged(x: string, y: string)
    requires x != [] && y != [] && NoWs(x) && NoWs(y) && '|' !in x && '|' !in y
    ensures Execute(x + " | " + y) == x + " | " + y
  {
    var s := x + " | " + y;
    NoSplitUnchanged(s);
  }

  /** Only the first pair is rewritten: in `A|B|C` the greedy `first`
      swallows `A|B`. */
  lemma {:induction false} LeftmostPairOnly(a: string, b: string, c: string)
    requires a != [] && b != [] && c != []
    requires NoWs(a) && NoWs(b) && NoWs(c) && '|' !in c
    ensures Execute(a + "|" + b + "|" + c) == a + "|" + b + " | " + c
  {
    assert a + "|" + b + "|" + c == (a + "|" + b) + "|" + c;
    PipeForm(a + "|" + b, c);
  }

  /** Text after `second` is dropped: a three-way `or` keeps two members. */
  lemma {:induction false} ThirdMemberDropped(a: string, b: string, c: string)
    requires a != [] && b != [] && c != [] && NoWs(a) && NoWs(b) && NoWs(c)
    ensures Execute(a + " or " + b + " or " + c) == a + " | " + b
  {
    var s := a + " or " + b + " or " + c;
    RunEndAt(s, 0, |a|);
    assert SecondStart(s, |a|) == Some(|a| + 4);
    RunEndAt(s, |a| + 4, |a| + 4 + |b|);
    assert s[0..|a|] == a;
    assert s[|a| + 4..|a| + 4 + |b|] == b;
  }

  /** Helper for the counterexample below: `A|B | C` loses `C`. */
  lemma {:induction false} PipeThenSpacedPipe(a: string, b: string, c: string)
    requires a != [] && b != [] && NoWs(a) && NoWs(b) && '|' !in a && '|' !in b
    ensures Execute(a + "|" + b + " | " + c) == a + " | " + b
  {
    var s := a + "|" + b + " | " + c;
    var e := |a| + 1 + |b|;
    RunEndAt(s, 0, e);
    assert SecondStart(s, |a|) == Some(|a| + 1);
    assert SecondStart(s, e).None? by { assert s[e + 1] == '|'; }
    forall k | |a| < k < e ensures SecondStart(s, k).None? {
      assert s[k] == b[k - |a| - 1];
    }
    assert LastSplit(s, 0, e) == Some(|a|);
    RunEndAt(s, |a| + 1, e);
    assert s[0..|a|] == a;
    assert s[|a| + 1..e] == b;
  }

  /** Not idempotent: a second run rewrites the already rewritten `A|B | C`
      and drops `C`. */
  lemma {:induction false} NotIdempotent(a: string, b: string, c: string)
    requires a != [] && b != [] && c != []
    requires NoWs(a) && NoWs(b) && NoWs(c) && '|' !in a && '|' !in b && '|' !in c
    ensures Execute(a + "|" + b + "|" + c) == a + "|" + b + " | " + c
    ensures Execute(Execute(a + "|" + b + "|" + c)) == a + " | " + b
    ensures Execute(Execute(a + "|" + b + "|" + c)) != Execute(a + "|" + b + "|" + c)
  {
    LeftmostPairOnly(a, b, c);
    PipeThenSpacedPipe(a, b, c);
  }
}
