/**
 * The few string operations of Python the service relies on:
 * truthiness of an optional string, `str.lower()`, the substring test
 * `needle in hay` and `str.replace(pattern, substitute)`.
 */
module Strings {
  import opened Wrappers

  /** Python truthiness of `Optional[str]`: neither `None` nor the empty string. */
  predicate Truthy(s: Option<string>)
  {
    s.Some? && s.value != ""
  }

  /** `str.lower()` on one character; only the ASCII letters are mapped. */
  function LowerChar(c: char): char
  {
    if 'A' <= c <= 'Z' then (c as int + 32) as char else c
  }

  /** `str.lower()`: the string with every ASCII upper-case letter lowered. */
  function Lower(s: string): string
  {
    seq(|s|, i requires 0 <= i < |s| => LowerChar(s[i]))
  }

  /** `needle in hay`: some contiguous slice of `hay` equals `needle`. */
  predicate Contains(hay: string, needle: string)
    decreases |hay|
  {
    needle <= hay || (hay != [] && Contains(hay[1..], needle))
  }

  /** `needle` occurs in `hay` starting at index `i`. */
  ghost predicate OccursAt(hay: string, needle: string, i: int)
  {
    0 <= i && i + |needle| <= |hay| && hay[i..i + |needle|] == needle
  }

  /** The scan `Contains` finds exactly the positions where the needle occurs. */
  lemma {:induction false} ContainsIff(hay: string, needle: string)
    ensures Contains(hay, needle) <==> exists i :: OccursAt(hay, needle, i)
    decreases |hay|
  {
    if needle <= hay {
      assert OccursAt(hay, needle, 0);
    } else if hay != [] {
      ContainsIff(hay[1..], needle);
      if Contains(hay[1..], needle) {
        var i :| OccursAt(hay[1..], needle, i);
        assert hay[1..][i..i + |needle|] == hay[i + 1..i + 1 + |needle|];
        assert OccursAt(hay, needle, i + 1);
      }
      if exists i :: OccursAt(hay, needle, i) {
        var i :| OccursAt(hay, needle, i);
        assert i != 0;
        assert hay[1..][i - 1..i - 1 + |needle|] == hay[i..i + |needle|];
        assert OccursAt(hay[1..], needle, i - 1);
      }
    }
  }

  /**
   * `s.replace(pattern, substitute)` for a non-empty pattern: occurrences are
   * found left to right and never overlap.
   */
  function ReplaceAll(s: string, pattern: string, substitute: string): string
    requires pattern != []
    decreases |s|
  {
    if pattern <= s then substitute + ReplaceAll(s[|pattern|..], pattern, substitute)
    else if s == [] then []
    else [s[0]] + ReplaceAll(s[1..], pattern, substitute)
  }

  /** Replacing a pattern by itself changes nothing. */
  lemma {:induction false} ReplaceBySelf(s: string, pattern: string)
    requires pattern != []
    ensures ReplaceAll(s, pattern, pattern) == s
    decreases |s|
  {
    if pattern <= s {
      ReplaceBySelf(s[|pattern|..], pattern);
      assert s == pattern + s[|pattern|..];
    } else if s != [] {
      ReplaceBySelf(s[1..], pattern);
      assert s == [s[0]] + s[1..];
    }
  }

  /** A string in which the pattern does not occur is returned unchanged. */
  lemma {:induction false} ReplaceAbsent(s: string, pattern: string, substitute: string)
    requires pattern != []
    requires !Contains(s, pattern)
    ensures ReplaceAll(s, pattern, substitute) == s
    decreases |s|
  {
    if s != [] {
      ReplaceAbsent(s[1..], pattern, substitute);
      assert s == [s[0]] + s[1..];
    }
  }

  /** A substitute no longer than the pattern never makes the string longer. */
  lemma {:induction false} ReplaceNotLonger(s: string, pattern: string, substitute: string)
    requires pattern != [] && |substitute| <= |pattern|
    ensures |ReplaceAll(s, pattern, substitute)| <= |s|
    decreases |s|
  {
    if pattern <= s {
      ReplaceNotLonger(s[|pattern|..], pattern, substitute);
    } else if s != [] {
      ReplaceNotLonger(s[1..], pattern, substitute);
    }
  }
}
