/**
 * `Regex.Replace(type, "`null`", "null")`: every occurrence of the quoted
 * null, scanned left to right without overlap, loses its two back-ticks.
 */
module NullBackTickCaster {
  import opened Strings

  const Quoted := "`null`"

  /** The number of occurrences a left-to-right scan replaces. */
  function Occurrences(s: string): nat
    decreases |s|
  {
    if StartsWith(s, Quoted) then 1 + Occurrences(s[6..])
    else if s == [] then 0
    else Occurrences(s[1..])
  }

  function Execute(s: string): (r: string)
    ensures |r| == |s| - 2 * Occurrences(s)
    decreases |s|
  {
    if StartsWith(s, Quoted) then "null" + Execute(s[6..])
    else if s == [] then []
    else [s[0]] + Execute(s[1..])
  }

  /** `s` with every back-tick deleted. */
  function WithoutBackTicks(s: string): (r: string)
    ensures '`' !in r
    decreases |s|
  {
    if s == [] then [] else (if s[0] == '`' then [] else [s[0]]) + WithoutBackTicks(s[1..])
  }

  lemma {:induction false} WithoutBackTicksAppend(a: string, b: string)
    ensures WithoutBackTicks(a + b) == WithoutBackTicks(a) + WithoutBackTicks(b)
    decreases |a|
  {
    if a == [] {
      assert a + b == b;
    } else {
      assert (a + b)[0] == a[0];
      assert (a + b)[1..] == a[1..] + b;
      WithoutBackTicksAppend(a[1..], b);
    }
  }

  /** Every character other than a back-tick is kept, in order: only
      back-ticks are removed. */
  lemma {:induction false} KeepsOtherChars(s: string)
    ensures WithoutBackTicks(Execute(s)) == WithoutBackTicks(s)
    decreases |s|
  {
    if StartsWith(s, Quoted) {
      KeepsOtherChars(s[6..]);
      KeepsStep(s);
    } else if s != [] {
      KeepsOtherChars(s[1..]);
      assert s == [s[0]] + s[1..];
      WithoutBackTicksAppend([s[0]], s[1..]);
      WithoutBackTicksAppend([s[0]], Execute(s[1..]));
    }
  }

  lemma QuotedFacts()
    ensures WithoutBackTicks(Quoted) == WithoutBackTicks("null") == "null"
    ensures Count(Quoted, '`') == 2 && Count("null", '`') == 0
  {
    var tick := "`";
    var word := "null";
    assert Quoted == tick + (word + tick);
    assert WithoutBackTicks(word) == word && Count(word, '`') == 0 by {
      NoTick(word);
    }
    assert WithoutBackTicks(tick) == [] && Count(tick, '`') == 1 by {
      assert tick[1..] == [];
    }
    assert Count(tick + (word + tick), '`') == 2 by {
      CountAppend(tick, word + tick, '`');
      CountAppend(word, tick, '`');
    }
    assert WithoutBackTicks(tick + (word + tick)) == word by {
      WithoutBackTicksAppend(tick, word + tick);
      WithoutBackTicksAppend(word, tick);
    }
  }

  lemma {:induction false} NoTick(s: string)
    requires '`' !in s
    ensures WithoutBackTicks(s) == s && Count(s, '`') == 0
    decreases |s|
  {
    if s != [] {
      NoTick(s[1..]);
      assert s == [s[0]] + s[1..];
    }
  }

  lemma KeepsStep(s: string)
    requires StartsWith(s, Quoted)
    requires WithoutBackTicks(Execute(s[6..])) == WithoutBackTicks(s[6..])
    ensures WithoutBackTicks(Execute(s)) == WithoutBackTicks(s)
  {
    var t := s[6..];
    var e := Execute(t);
    assert s == Quoted + t;
    assert Execute(s) == "null" + e;
    WithoutBackTicksAppend(Quoted, t);
    WithoutBackTicksAppend("null", e);
    QuotedFacts();
  }

  /** Exactly two back-ticks per replaced occurrence disappear. */
  lemma {:induction false} BackTicksRemoved(s: string)
    ensures Count(Execute(s), '`') + 2 * Occurrences(s) == Count(s, '`')
    decreases |s|
  {
    if StartsWith(s, Quoted) {
      BackTicksRemoved(s[6..]);
      RemovedStep(s);
    } else if s != [] {
      BackTicksRemoved(s[1..]);
      var e := Execute(s[1..]);
      assert Execute(s) == [s[0]] + e;
      assert ([s[0]] + e)[1..] == e;
    }
  }

  lemma RemovedStep(s: string)
    requires StartsWith(s, Quoted)
    requires Count(Execute(s[6..]), '`') + 2 * Occurrences(s[6..]) == Count(s[6..], '`')
    ensures Count(Execute(s), '`') + 2 * Occurrences(s) == Count(s, '`')
  {
    var t := s[6..];
    var e := Execute(t);
    assert s == Quoted + t;
    assert Execute(s) == "null" + e;
    assert Occurrences(s) == 1 + Occurrences(t);
    CountAppend(Quoted, t, '`');
    CountAppend("null", e, '`');
    QuotedFacts();
  }

  /** A string with no quoted null is unchanged. */
  lemma {:induction false} NoOccurrenceUnchanged(s: string)
    requires forall i: nat :: !OccursAt(s, Quoted, i)
    ensures Execute(s) == s
    decreases |s|
  {
    if s != [] {
      assert !OccursAt(s, Quoted, 0);
      forall i: nat ensures !OccursAt(s[1..], Quoted, i) {
        assert !OccursAt(s, Quoted, i + 1);
      }
      NoOccurrenceUnchanged(s[1..]);
    }
  }

  /** A string without back-ticks is unchanged. */
  lemma NoBackTickUnchanged(s: string)
    requires '`' !in s
    ensures Execute(s) == s
  {
    forall i: nat ensures !OccursAt(s, Quoted, i) {
      if i + 6 <= |s| {
        assert s[i..i + 6][0] == s[i];
      }
    }
    NoOccurrenceUnchanged(s);
  }

  /** The quoted null on its own becomes the keyword. */
  lemma Single(s: string)
    requires s == Quoted
    ensures Execute(s) == "null"
  {
    assert StartsWith(s, Quoted);
    assert s[6..] == [];
  }

  /** Not idempotent: one pass over ``` ``null`` ``` uncovers a new
      occurrence. */
  lemma NotIdempotent(s: string)
    requires s == "``null``"
    ensures Execute(s) == Quoted
    ensures Execute(Execute(s)) == "null"
  {
    assert s[..6][1] == '`' && Quoted[1] == 'n';
    assert !StartsWith(s, Quoted);
    assert s[1..] == Quoted + "`";
    assert StartsWith(s[1..], Quoted);
    assert s[1..][6..] == "`";
    assert Execute("`") == "`" by {
      assert !StartsWith("`", Quoted);
      assert "`"[1..] == [];
    }
    Single(Quoted);
  }
}
