/**
 * Rewrites a bare `Array` type to `Array<any>`.
 *
 * The pattern is `(?!.*<\w+>)(?=Array)(Array)`: it matches at an occurrence
 * of `Array` from which no `<word>` can be reached by `.*`. Because `.` does
 * not match a line feed, the look-ahead sees only up to the next line feed.
 * On a match the WHOLE string is replaced, not just the token.
 */
module ArrayTypeCaster {
  import opened Strings

  const ArrayOfAny := "Array<any>"

  /** `Array` occurs at `p`. */
  predicate ArrayAt(s: string, p: nat) {
    OccursAt(s, "Array", p)
  }

  /** The end of the run of word characters that starts at `k`. */
  function WordRunEnd(s: string, k: nat): (e: nat)
    requires k <= |s|
    ensures k <= e <= |s|
    ensures forall t :: k <= t < e ==> IsWordChar(s[t])
    ensures e < |s| ==> !IsWordChar(s[e])
    decreases |s| - k
  {
    if k == |s| || !IsWordChar(s[k]) then k else WordRunEnd(s, k + 1)
  }

  /** `<\w+>` matches at `q`. Backing off the greedy `\w+` cannot help,
      since a shorter run ends before a word char, never before `>`. */
  predicate AngleWordAt(s: string, q: nat) {
    q + 1 < |s| && s[q] == '<' &&
    var e := WordRunEnd(s, q + 1);
    q + 1 < e < |s| && s[e] == '>'
  }

  /** `.*<\w+>` matches at `p`: a `<word>` starts at some `q >= p` and no
      line feed lies in `s[p..q]`. */
  predicate AngleAhead(s: string, p: nat)
    decreases |s| - p
  {
    p < |s| && (AngleWordAt(s, p) || (s[p] != '\n' && AngleAhead(s, p + 1)))
  }

  /** The whole pattern matches at `p`. */
  predicate MatchAt(s: string, p: nat) {
    ArrayAt(s, p) && !AngleAhead(s, p)
  }

  /** The regex search: some `q >= p` is a match. */
  predicate MatchFrom(s: string, p: nat)
    decreases |s| - p
  {
    p < |s| && (MatchAt(s, p) || MatchFrom(s, p + 1))
  }

  function Execute(s: string): (r: string)
    ensures r == s || r == ArrayOfAny
  {
    if MatchFrom(s, 0) then ArrayOfAny else s
  }

  /** The search finds a match iff one exists. */
  lemma {:induction false} MatchFromExists(s: string, p: nat)
    ensures MatchFrom(s, p) <==> exists q: nat :: p <= q && MatchAt(s, q)
    decreases |s| - p
  {
    if p < |s| {
      MatchFromExists(s, p + 1);
      if exists q: nat :: p <= q && MatchAt(s, q) {
        var q: nat :| p <= q && MatchAt(s, q);
        if q > p { assert p + 1 <= q; }
      }
    }
  }

  /** The caster rewrites the whole string to `Array<any>` iff some
      occurrence of `Array` has no reachable `<word>`, and otherwise leaves
      it as it is. */
  lemma Characterised(s: string)
    ensures (exists q: nat :: MatchAt(s, q)) ==> Execute(s) == ArrayOfAny
    ensures (forall q: nat :: !MatchAt(s, q)) ==> Execute(s) == s
  {
    MatchFromExists(s, 0);
  }

  /** A string in which `Array` does not occur is unchanged. */
  lemma NoArrayUnchanged(s: string)
    requires forall q: nat :: !ArrayAt(s, q)
    ensures Execute(s) == s
  {
    Characterised(s);
  }

  /** A string without a capital `A` cannot contain `Array`. */
  lemma NoCapitalAUnchanged(s: string)
    requires 'A' !in s
    ensures Execute(s) == s
  {
    forall q: nat ensures !ArrayAt(s, q) {
      if q + 5 <= |s| {
        assert s[q..q + 5][0] == s[q];
      }
    }
    NoArrayUnchanged(s);
  }

  /** Idempotent: `Array<any>` is where every rewrite lands. */
  lemma Idempotent(s: string)
    ensures Execute(Execute(s)) == Execute(s)
  {
  }

  /** With no `<` at or after `p`, no `<word>` is ahead. */
  lemma {:induction false} NoAngleNoneAhead(s: string, p: nat)
    requires forall k :: p <= k < |s| ==> s[k] != '<'
    ensures !AngleAhead(s, p)
    decreases |s| - p
  {
    if p < |s| {
      NoAngleNoneAhead(s, p + 1);
    }
  }

  /** A `<word>` at `q` is seen from every `p <= q` with no line feed between. */
  lemma {:induction false} AngleSeen(s: string, p: nat, q: nat)
    requires p <= q && AngleWordAt(s, q)
    requires forall k :: p <= k < q ==> s[k] != '\n'
    ensures AngleAhead(s, p)
    decreases q - p
  {
    if p < q {
      AngleSeen(s, p + 1, q);
    }
  }

  /** Without line feeds a `<word>` seen from `q` is seen from every
      `p <= q`. */
  lemma {:induction false} AngleAheadReachesBack(s: string, p: nat, q: nat)
    requires '\n' !in s
    requires p <= q && AngleAhead(s, q)
    ensures AngleAhead(s, p)
    decreases q - p
  {
    if p < q {
      AngleAheadReachesBack(s, p + 1, q);
      assert s[p] in s;
    }
  }

  /** Every occurrence of `Array` is followed by a last one. */
  lemma {:induction false} LastArrayExists(s: string, p: nat)
    requires ArrayAt(s, p)
    ensures exists l: nat :: p <= l && ArrayAt(s, l) && forall q: nat :: l < q ==> !ArrayAt(s, q)
    decreases |s| - p
  {
    if exists q: nat :: p < q && ArrayAt(s, q) {
      var q: nat :| p < q && ArrayAt(s, q);
      LastArrayExists(s, q);
    } else {
      assert forall q: nat :: p < q ==> !ArrayAt(s, q);
    }
  }

  /** On a line-free string the search succeeds iff the LAST occurrence of
      `Array` has no `<word>` after it. */
  lemma {:induction false} LastOccurrence(s: string)
    requires '\n' !in s
    ensures MatchFrom(s, 0) <==>
      exists p: nat :: ArrayAt(s, p) && (forall q: nat :: p < q ==> !ArrayAt(s, q)) && !AngleAhead(s, p)
  {
    MatchFromExists(s, 0);
    if MatchFrom(s, 0) {
      var m: nat :| MatchAt(s, m);
      LastArrayExists(s, m);
      var l: nat :| m <= l && ArrayAt(s, l) && forall q: nat :: l < q ==> !ArrayAt(s, q);
      if AngleAhead(s, l) {
        AngleAheadReachesBack(s, m, l);
      }
      assert MatchAt(s, l);
    }
    if exists p: nat :: ArrayAt(s, p) && (forall q: nat :: p < q ==> !ArrayAt(s, q)) && !AngleAhead(s, p) {
      var p: nat :| ArrayAt(s, p) && !AngleAhead(s, p);
      assert MatchAt(s, p);
    }
  }

  /** A bare `Array` becomes `Array<any>`. */
  lemma Bare(s: string)
    requires s == "Array"
    ensures Execute(s) == ArrayOfAny
  {
    assert ArrayAt(s, 0);
    NoAngleNoneAhead(s, 0);
    Characterised(s);
  }

  /** `Array<Foo>` with `Foo` a word is unchanged: its only `Array` sees
      the `<Foo>` after it. */
  lemma {:induction false} Parameterised(w: string)
    requires w != [] && forall k :: 0 <= k < |w| ==> IsWordChar(w[k])
    requires forall q: nat :: !ArrayAt(w, q)
    ensures Execute("Array<" + w + ">") == "Array<" + w + ">"
  {
    var s := "Array<" + w + ">";
    assert WordRunEnd(s, 6) == 6 + |w| by {
      assert s[6 + |w|] == '>';
    }
    assert AngleWordAt(s, 5);
    AngleSeen(s, 0, 5);
    forall q: nat | ArrayAt(s, q) ensures q == 0 {
      if q > 5 && q + 5 <= 6 + |w| {
        assert w[q - 6..q - 1] == s[q..q + 5];
        assert ArrayAt(w, q - 6);
      }
    }
    Characterised(s);
  }

  /** An element type that itself contains `Array` is lost: the inner
      occurrence has no `<word>` after it. */
  lemma {:induction false} InnerArrayRewritten(w: string)
    ensures Execute("Array<" + w + "Array>") == ArrayOfAny
  {
    var s := "Array<" + w + "Array>";
    var q := 6 + |w|;
    assert s[q..q + 5] == "Array";
    NoAngleNoneAhead(s, q);
    assert MatchAt(s, q);
    Characterised(s);
  }

  /** The look-ahead stops at a line feed: the first `Array` below does
      not see the `<x>` on the next line, so the string is rewritten. */
  lemma {:induction false} LineFeedHidesElementType(w: string)
    ensures Execute("Array\n" + w) == ArrayOfAny
  {
    var s := "Array\n" + w;
    assert ArrayAt(s, 0);
    assert s[5] == '\n';
    assert !AngleAhead(s, 5);
    assert !AngleAhead(s, 4);
    assert !AngleAhead(s, 3);
    assert !AngleAhead(s, 2);
    assert !AngleAhead(s, 1);
    assert !AngleAhead(s, 0);
    Characterised(s);
  }
}
