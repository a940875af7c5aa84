/**
 * The two JavaScript string operations the chat handler relies on:
 * `String.prototype.trim` and `String.prototype.substring(0, n)`.
 * Strings are sequences of characters; JavaScript counts UTF-16 code units,
 * which coincide with characters outside the astral planes.
 */
module JsText {
  import opened Wrappers

  /** JavaScript truthiness of a string that may be undefined or null: present and not "". */
  predicate Truthy(s: Option<string>)
  {
    s.Some? && s.value != ""
  }

  /** ECMAScript WhiteSpace and LineTerminator code points: exactly what `trim` strips. */
  predicate IsWhiteSpace(c: char)
  {
    || c == '\t' || c == '\n' || c == '\U{B}' || c == '\U{C}' || c == '\r' || c == ' '
    || c == '\U{A0}' || c == '\U{1680}' || ('\U{2000}' <= c <= '\U{200A}')
    || c == '\U{2028}' || c == '\U{2029}' || c == '\U{202F}' || c == '\U{205F}'
    || c == '\U{3000}' || c == '\U{FEFF}'
  }

  predicate AllWhiteSpace(s: string)
  {
    forall i :: 0 <= i < |s| ==> IsWhiteSpace(s[i])
  }

  /**
   * `s.trim()`: white space is dropped from both ends until a character
   * that is not white space stands at each end, or nothing is left.
   */
  function Trim(s: string): (r: string)
    ensures |r| <= |s|
    ensures r == [] || (!IsWhiteSpace(r[0]) && !IsWhiteSpace(r[|r| - 1]))
    decreases |s|
  {
    if s == [] then s
    else if IsWhiteSpace(s[0]) then Trim(s[1..])
    else if IsWhiteSpace(s[|s| - 1]) then Trim(s[..|s| - 1])
    else s
  }

  /** `s` is `k` white-space characters, then `r`, then white space to the end. */
  ghost predicate Surrounds(s: string, r: string, k: int)
  {
    && 0 <= k <= |s| - |r|
    && AllWhiteSpace(s[..k])
    && s[k..k + |r|] == r
    && AllWhiteSpace(s[k + |r|..])
  }

  lemma SurroundsAfterLeading(s: string, r: string, k: int)
    requires s != [] && IsWhiteSpace(s[0]) && Surrounds(s[1..], r, k)
    ensures Surrounds(s, r, k + 1)
  {
    var t := s[1..];
    assert s[..k + 1] == [s[0]] + t[..k];
    assert s[k + 1..k + 1 + |r|] == t[k..k + |r|];
    assert s[k + 1 + |r|..] == t[k + |r|..];
  }

  lemma SurroundsBeforeTrailing(s: string, r: string, k: int)
    requires s != [] && IsWhiteSpace(s[|s| - 1]) && Surrounds(s[..|s| - 1], r, k)
    ensures Surrounds(s, r, k)
  {
    var t := s[..|s| - 1];
    assert s[..k] == t[..k];
    assert s[k..k + |r|] == t[k..k + |r|];
    assert s[k + |r|..] == t[k + |r|..] + [s[|s| - 1]];
  }

  /**
   * `trim` drops white space and nothing else, and only from the ends: the
   * string is some white space, then the result, then some white space.
   */
  lemma {:induction false} TrimDropsOnlyWhiteSpace(s: string)
    ensures exists k :: Surrounds(s, Trim(s), k)
    decreases |s|
  {
    if s == [] || (!IsWhiteSpace(s[0]) && !IsWhiteSpace(s[|s| - 1])) {
      assert s[..0] == [] && s[0..|s|] == s && s[|s|..] == [];
      assert Surrounds(s, Trim(s), 0);
    } else if IsWhiteSpace(s[0]) {
      TrimDropsOnlyWhiteSpace(s[1..]);
      var k :| Surrounds(s[1..], Trim(s[1..]), k);
      SurroundsAfterLeading(s, Trim(s), k);
    } else {
      TrimDropsOnlyWhiteSpace(s[..|s| - 1]);
      var k :| Surrounds(s[..|s| - 1], Trim(s[..|s| - 1]), k);
      SurroundsBeforeTrailing(s, Trim(s), k);
    }
  }

  /** A string trims to nothing exactly when every character of it is white space. */
  lemma {:induction false} TrimEmptyIffBlank(s: string)
    ensures Trim(s) == [] <==> AllWhiteSpace(s)
    decreases |s|
  {
    if s == [] {
    } else if IsWhiteSpace(s[0]) {
      TrimEmptyIffBlank(s[1..]);
      assert AllWhiteSpace(s) <==> AllWhiteSpace(s[1..]) by {
        if AllWhiteSpace(s[1..]) {
          forall i | 0 <= i < |s|
            ensures IsWhiteSpace(s[i])
          {
            if i > 0 { assert s[i] == s[1..][i - 1]; }
          }
        }
      }
    } else if IsWhiteSpace(s[|s| - 1]) {
      // s[0] stays, so neither side holds
      TrimEmptyIffBlank(s[..|s| - 1]);
      assert s[..|s| - 1][0] == s[0];
    }
  }

  function Min(a: int, b: int): int
  {
    if a <= b then a else b
  }

  /** `s.substring(0, n)` for n >= 0: the first min(n, |s|) characters of `s`. */
  function Prefix(s: string, n: nat): (r: string)
    ensures |r| == Min(n, |s|)
    ensures r <= s
  {
    if |s| <= n then s else s[..n]
  }
}
