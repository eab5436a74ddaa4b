/**
 * The few JavaScript string operations the core relies on, for a
 * one-character separator: `split`, `Array.prototype.join`, `endsWith`
 * and `includes`.
 */
module Strings {

  /**
   * `s.split(sep)`: the pieces between separators, in order. There is
   * always at least one piece (`"".split("/")` is `[""]`), and there are
   * exactly as many pieces beyond the first as separators in `s`.
   */
  function Split(s: string, sep: char): (parts: seq<string>)
    ensures |parts| >= 1
    ensures forall i :: 0 <= i < |parts| ==> sep !in parts[i]
    ensures |parts| == 1 <==> sep !in s
    ensures parts[0] <= s
  {
    if s == [] then [""]
    else
      var rest := Split(s[1..], sep);
      if s[0] == sep then [""] + rest
      else [[s[0]] + rest[0]] + rest[1..]
  }

  /** `parts.join(sep)`: the pieces with one separator between neighbours. */
  function Join(parts: seq<string>, sep: char): string
  {
    if |parts| == 0 then ""
    else if |parts| == 1 then parts[0]
    else parts[0] + [sep] + Join(parts[1..], sep)
  }

  /** Joining the pieces of a split gives back the original string. */
  lemma {:induction false} JoinSplit(s: string, sep: char)
    ensures Join(Split(s, sep), sep) == s
  {
    if s != [] {
      var rest := Split(s[1..], sep);
      JoinSplit(s[1..], sep);
      if s[0] == sep {
        assert Split(s, sep) == [""] + rest;
        assert ([""] + rest)[1..] == rest;
        assert s == [sep] + s[1..];
      } else if |rest| == 1 {
        assert Split(s, sep) == [[s[0]] + rest[0]];
        assert s == [s[0]] + s[1..];
      } else {
        var parts := Split(s, sep);
        assert parts == [[s[0]] + rest[0]] + rest[1..];
        assert parts[1..] == rest[1..];
        assert Join(rest, sep) == rest[0] + [sep] + Join(rest[1..], sep);
        assert s == [s[0]] + s[1..];
      }
    }
  }

  /** A string free of the separator splits into itself alone. */
  lemma {:induction false} SplitNoSeparator(s: string, sep: char)
    requires sep !in s
    ensures Split(s, sep) == [s]
  {
    if s != [] {
      SplitNoSeparator(s[1..], sep);
      assert s == [s[0]] + s[1..];
    }
  }

  /** Splitting `a + sep + b`, with no separator in `a`, gives `a` and then the pieces of `b`. */
  lemma {:induction false} SplitAfterField(a: string, sep: char, b: string)
    requires sep !in a
    ensures Split(a + [sep] + b, sep) == [a] + Split(b, sep)
  {
    if a == [] {
      assert a + [sep] + b == [sep] + b;
      assert ([sep] + b)[1..] == b;
    } else {
      SplitAfterField(a[1..], sep, b);
      var s := a + [sep] + b;
      assert s[1..] == a[1..] + [sep] + b;
      assert s[0] == a[0] && s[0] != sep;
      var rest := Split(s[1..], sep);
      assert rest == [a[1..]] + Split(b, sep);
      assert [a[0]] + a[1..] == a;
    }
  }

  /** `s.endsWith(suffix)`. */
  predicate EndsWith(s: string, suffix: string)
  {
    |suffix| <= |s| && s[|s| - |suffix|..] == suffix
  }

  /** `needle` occurs in `s` starting at index `i`. */
  predicate OccursAt(s: string, needle: string, i: nat)
  {
    i + |needle| <= |s| && s[i..i + |needle|] == needle
  }

  /** `s.includes(needle)`: whether `needle` occurs somewhere in `s`. */
  predicate Includes(s: string, needle: string)
  {
    exists i :: 0 <= i <= |s| && OccursAt(s, needle, i)
  }

  /** A string lacking some character of `needle` cannot include `needle`. */
  lemma MissingCharacterExcludes(s: string, needle: string, c: char)
    requires c in needle && c !in s
    ensures !Includes(s, needle)
  {
    var j :| 0 <= j < |needle| && needle[j] == c;
    forall i | 0 <= i <= |s|
      ensures !OccursAt(s, needle, i)
    {
      if i + |needle| <= |s| {
        assert s[i..i + |needle|][j] == s[i + j];
        assert s[i + j] in s;
      }
    }
  }

  /**
   * `a + b` cannot include `needle` when, for some neighbouring pair of
   * its characters, the first is absent from `b`, the second is absent
   * from `a`, and `a` does not end with the first.
   */
  lemma StraddlingPairExcludes(a: string, b: string, needle: string, k: nat)
    requires k + 1 < |needle|
    requires needle[k] !in b && needle[k + 1] !in a
    requires a == [] || a[|a| - 1] != needle[k]
    ensures !Includes(a + b, needle)
  {
    var s := a + b;
    forall i | 0 <= i <= |s|
      ensures !OccursAt(s, needle, i)
    {
      if i + |needle| <= |s| {
        assert s[i..i + |needle|][k] == s[i + k];
        assert s[i..i + |needle|][k + 1] == s[i + k + 1];
        PairAt(a, b, needle, k, i);
      }
    }
  }

  /** At any offset, one character of that pair of `needle` misses its place in `a + b`. */
  lemma PairAt(a: string, b: string, needle: string, k: nat, i: nat)
    requires k + 1 < |needle| && i + k + 1 < |a + b|
    requires needle[k] !in b && needle[k + 1] !in a
    requires a == [] || a[|a| - 1] != needle[k]
    ensures (a + b)[i + k] != needle[k] || (a + b)[i + k + 1] != needle[k + 1]
  {
    var s := a + b;
    if i + k + 1 < |a| {
      assert s[i + k + 1] == a[i + k + 1];
    } else if i + k + 1 == |a| {
      assert s[i + k] == a[|a| - 1];
    } else {
      assert s[i + k] == b[i + k - |a|];
    }
  }

  /** A suffix free of the separator, ending `a + sep + b`, already ends `b`. */
  lemma SuffixAfterSeparator(a: string, sep: char, b: string, suffix: string)
    requires sep !in suffix
    requires EndsWith(a + [sep] + b, suffix)
    ensures EndsWith(b, suffix)
  {
    var s := a + [sep] + b;
    SeparatorInLongSuffix(a, sep, b, |suffix|);
    assert s[|s| - |suffix|..] == b[|b| - |suffix|..];
  }

  /** Any final stretch of `a + sep + b` longer than `b` holds the separator. */
  lemma SeparatorInLongSuffix(a: string, sep: char, b: string, n: nat)
    requires n <= |a| + 1 + |b|
    ensures n > |b| ==> sep in (a + [sep] + b)[|a| + 1 + |b| - n..]
  {
    var s := a + [sep] + b;
    if n > |b| {
      assert s[|s| - n..][n - |b| - 1] == s[|a|] == sep;
    }
  }
}
