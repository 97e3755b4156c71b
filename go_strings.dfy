/**
 * The two operations of Go's `strings` package that the startup-script
 * rendering relies on, over Dafny strings, with the lemmas that
 * characterise them.
 */
module GoStrings {

  /** Number of positions at which `t` starts inside `s` (overlapping ones included). */
  function Occurrences(s: string, t: string): nat
    requires |t| > 0
    decreases |s|
  {
    if |s| < |t| then 0
    else (if s[..|t|] == t then 1 else 0) + Occurrences(s[1..], t)
  }

  /**
   * `strings.Replace(s, pattern, with, 1)`: the first occurrence of `pattern`
   * is replaced by `with`; an empty pattern matches at the very start.
   */
  function ReplaceOnce(s: string, pattern: string, with: string): string
    decreases |s|
  {
    if |pattern| == 0 then with + s
    else if |s| < |pattern| then s
    else if s[..|pattern|] == pattern then with + s[|pattern|..]
    else [s[0]] + ReplaceOnce(s[1..], pattern, with)
  }

  /** No two adjacent underscores anywhere in `s`. */
  predicate NoDoubleUnderscore(s: string)
  {
    forall i | 0 <= i < |s| - 1 :: !(s[i] == '_' && s[i + 1] == '_')
  }

  /** Gluing two double-free strings is double-free unless an underscore meets an underscore. */
  lemma DoubleFreeAppend(a: string, b: string)
    requires NoDoubleUnderscore(a) && NoDoubleUnderscore(b)
    requires |a| == 0 || a[|a| - 1] != '_'
    ensures NoDoubleUnderscore(a + b)
  {
    forall i | 0 <= i < |a + b| - 1
      ensures !((a + b)[i] == '_' && (a + b)[i + 1] == '_')
    {
      if i + 1 < |a| {
        assert (a + b)[i] == a[i] && (a + b)[i + 1] == a[i + 1];
      } else if i >= |a| {
        assert (a + b)[i] == b[i - |a|] && (a + b)[i + 1] == b[i + 1 - |a|];
      } else {
        assert (a + b)[i] == a[|a| - 1];
      }
    }
  }

  /** The occurrence at position 0 is counted first; the rest are those of `s[1..]`. */
  lemma OccurrencesHead(s: string, t: string)
    requires |t| > 0 && |s| >= |t|
    ensures Occurrences(s, t) == (if s[..|t|] == t then 1 else 0) + Occurrences(s[1..], t)
  {
  }

  /**
   * A pattern that opens with two underscores cannot start where no two
   * adjacent underscores do.
   */
  lemma {:induction false} NoPairNoOccurrence(s: string, t: string)
    requires |t| >= 2 && t[0] == '_' && t[1] == '_'
    requires forall i | 0 <= i && i + |t| <= |s| :: !(s[i] == '_' && s[i + 1] == '_')
    ensures Occurrences(s, t) == 0
    decreases |s|
  {
    if |s| >= |t| {
      assert s[..|t|][0] == s[0] && s[..|t|][1] == s[1];
      forall i | 0 <= i && i + |t| <= |s[1..]|
        ensures !(s[1..][i] == '_' && s[1..][i + 1] == '_')
      {
        assert s[1..][i] == s[i + 1] && s[1..][i + 1] == s[i + 2];
      }
      NoPairNoOccurrence(s[1..], t);
    }
  }

  lemma DoubleFreeNoOccurrence(s: string, t: string)
    requires |t| >= 2 && t[0] == '_' && t[1] == '_'
    requires NoDoubleUnderscore(s)
    ensures Occurrences(s, t) == 0
  {
    NoPairNoOccurrence(s, t);
  }

  /**
   * A character that is not part of the pattern separates: occurrences in
   * `a + [c] + b` are exactly those of `a` and those of `b`.
   */
  lemma {:induction false} OccurrencesSplit(a: string, c: char, b: string, t: string)
    requires |t| > 0 && c !in t
    ensures Occurrences(a + [c] + b, t) == Occurrences(a, t) + Occurrences(b, t)
    decreases |a|
  {
    var s := a + [c] + b;
    if |a| == 0 {
      assert s == [c] + b;
      if |s| >= |t| {
        assert s[..|t|][0] == c;
        assert s[..|t|] != t;
        assert s[1..] == b;
      }
    } else {
      OccurrencesSplit(a[1..], c, b, t);
      assert s[1..] == a[1..] + [c] + b;
      if |s| >= |t| {
        if |a| >= |t| {
          assert s[..|t|] == a[..|t|];
        } else {
          assert s[..|t|][|a|] == c;
          assert s[..|t|] != t;
        }
      }
    }
  }

  /** Without any occurrence nothing is replaced. */
  lemma {:induction false} ReplaceOnceAbsent(s: string, t: string, v: string)
    requires |t| > 0 && Occurrences(s, t) == 0
    ensures ReplaceOnce(s, t, v) == s
    decreases |s|
  {
    if |s| >= |t| {
      ReplaceOnceAbsent(s[1..], t, v);
      assert [s[0]] + s[1..] == s;
    }
  }

  /** A pattern at the very start is the one replaced. */
  lemma ReplaceOnceAtStart(t: string, b: string, v: string)
    requires |t| > 0
    ensures ReplaceOnce(t + b, t, v) == v + b
  {
    assert (t + b)[..|t|] == t;
    assert (t + b)[|t|..] == b;
  }

  /** Before the occurrence after a non-empty `a`, the text reads as `a` followed by the pattern's first part. */
  lemma PrefixAgrees(a: string, t: string, b: string)
    requires |a| > 0 && |t| > 0
    ensures |a + t[..|t| - 1]| >= |t|
    ensures (a + t + b)[..|t|] == (a + t[..|t| - 1])[..|t|]
  {
    var s := a + t + b;
    var p := a + t[..|t| - 1];
    forall i | 0 <= i < |t| ensures s[i] == p[i] {
      if i >= |a| {
        assert s[i] == t[i - |a|] && p[i] == t[..|t| - 1][i - |a|];
      }
    }
  }

  /**
   * The general case: when the pattern does not start anywhere before its
   * occurrence after `a`, that occurrence is the one replaced.
   */
  lemma {:induction false} ReplaceOnceFirst(a: string, t: string, b: string, v: string)
    requires |t| > 0 && Occurrences(a + t[..|t| - 1], t) == 0
    ensures ReplaceOnce(a + t + b, t, v) == a + v + b
    decreases |a|
  {
    if |a| == 0 {
      assert a + t + b == t + b;
      ReplaceOnceAtStart(t, b, v);
    } else {
      var s := a + t + b;
      var p := a + t[..|t| - 1];
      OccurrencesHead(p, t);
      PrefixAgrees(a, t, b);
      assert s[..|t|] != t;
      assert ReplaceOnce(s, t, v) == [s[0]] + ReplaceOnce(s[1..], t, v);
      assert s[1..] == a[1..] + t + b;
      assert p[1..] == a[1..] + t[..|t| - 1];
      ReplaceOnceFirst(a[1..], t, b, v);
      assert s[0] == a[0] && a == [a[0]] + a[1..];
    }
  }

  /**
   * A pattern-free prefix closed by a character the pattern lacks cannot
   * be where the pattern starts.
   */
  lemma NotAtStart(a: string, c: char, b: string, t: string)
    requires |t| > 0 && c !in t && Occurrences(a, t) == 0
    ensures |a + [c] + b| < |t| || (a + [c] + b)[..|t|] != t
  {
    var s := a + [c] + b;
    if |s| >= |t| {
      if |a| >= |t| {
        assert s[..|t|] == a[..|t|];
        OccurrencesHead(a, t);
      } else {
        assert s[..|t|][|a|] == c;
      }
    }
  }

  /**
   * A prefix free of the pattern, closed by a character the pattern does
   * not contain, is left alone: replacement happens in what follows.
   */
  lemma {:induction false} ReplaceOnceSkip(a: string, c: char, b: string, t: string, v: string)
    requires |t| > 0 && c !in t && Occurrences(a, t) == 0
    ensures ReplaceOnce(a + [c] + b, t, v) == a + [c] + ReplaceOnce(b, t, v)
    decreases |a|
  {
    var s := a + [c] + b;
    if |s| < |t| {
      ReplaceOnceAbsent(b, t, v);
    } else {
      NotAtStart(a, c, b, t);
      assert ReplaceOnce(s, t, v) == [s[0]] + ReplaceOnce(s[1..], t, v);
      if |a| == 0 {
        assert s[1..] == b;
      } else {
        if |a| >= |t| {
          OccurrencesHead(a, t);
        }
        assert Occurrences(a[1..], t) == 0;
        ReplaceOnceSkip(a[1..], c, b, t, v);
        assert s[1..] == a[1..] + [c] + b;
        assert s[0] == a[0] && a == [a[0]] + a[1..];
      }
    }
  }
}
