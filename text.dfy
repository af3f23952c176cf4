/**
 * The string operations the pages rely on: whitespace trimming (Python's
 * `str.strip()`, JavaScript's `String.prototype.trim()`), substring tests
 * (`in`, `includes`) and replacing every occurrence of a word (Python's
 * `str.replace`, JavaScript's `replace` with a global pattern).
 */
module Text {

  /** Which language's notion of whitespace is meant. */
  datatype Flavor = Python | JavaScript

  /**
   * Whitespace as `str.isspace()` (Python) or the ECMAScript WhiteSpace and
   * LineTerminator productions (JavaScript) define it.
   */
  predicate IsSpace(c: char, f: Flavor)
  {
    ('\t' <= c <= '\r') || c == ' ' || c == '\U{00A0}' || c == '\U{1680}'
    || ('\U{2000}' <= c <= '\U{200A}') || c == '\U{2028}' || c == '\U{2029}'
    || c == '\U{202F}' || c == '\U{205F}' || c == '\U{3000}'
    || (f == Python && (('\U{001C}' <= c <= '\U{001F}') || c == '\U{0085}'))
    || (f == JavaScript && c == '\U{FEFF}')
  }

  /** Every character of `s` is whitespace (the empty string included). */
  predicate IsBlank(s: string, f: Flavor)
  {
    forall i :: 0 <= i < |s| ==> IsSpace(s[i], f)
  }

  /** `s` with its leading whitespace removed. */
  function TrimStart(s: string, f: Flavor): (r: string)
    ensures |r| <= |s| && r == s[|s| - |r|..]
    ensures IsBlank(s[..|s| - |r|], f)
    ensures r == [] || !IsSpace(r[0], f)
    decreases |s|
  {
    if s != [] && IsSpace(s[0], f) then
      var r := TrimStart(s[1..], f);
      assert s[..|s| - |r|] == [s[0]] + s[1..][..|s| - 1 - |r|];
      r
    else
      s
  }

  /** `s` with its trailing whitespace removed. */
  function TrimEnd(s: string, f: Flavor): (r: string)
    ensures |r| <= |s| && r == s[..|r|]
    ensures IsBlank(s[|r|..], f)
    ensures r == [] || !IsSpace(r[|r| - 1], f)
    decreases |s|
  {
    if s != [] && IsSpace(s[|s| - 1], f) then
      var r := TrimEnd(s[..|s| - 1], f);
      assert s[|r|..] == s[..|s| - 1][|r|..] + [s[|s| - 1]];
      r
    else
      s
  }

  /**
   * `r` is `s` with a blank prefix and a blank suffix cut off: what is left
   * is a contiguous piece of `s`.
   */
  predicate StrippedFrom(s: string, r: string, f: Flavor)
  {
    exists i :: 0 <= i <= |s| - |r| && r <= s[i..] && IsBlank(s[..i], f) && IsBlank(s[i + |r|..], f)
  }

  /** Python's `s.strip()` / JavaScript's `s.trim()`. */
  function Strip(s: string, f: Flavor): (r: string)
    ensures |r| <= |s|
    ensures r != [] ==> !IsSpace(r[0], f) && !IsSpace(r[|r| - 1], f)
  {
    TrimEnd(TrimStart(s, f), f)
  }

  /** Stripping cuts a blank prefix and a blank suffix and leaves no whitespace at either end. */
  lemma StripTrims(s: string, f: Flavor)
    ensures StrippedFrom(s, Strip(s, f), f)
    ensures var r := Strip(s, f); r == [] || (!IsSpace(r[0], f) && !IsSpace(r[|r| - 1], f))
  {
    var t := TrimStart(s, f);
    var r := TrimEnd(t, f);
    var i := |s| - |t|;
    assert s[i..] == t;
    assert r <= s[i..];
    assert s[i + |r|..] == t[|r|..];
    assert r != [] ==> r[0] == t[0];
  }

  /** A string strips to nothing exactly when it is blank. */
  lemma {:induction false} StripEmptyIffBlank(s: string, f: Flavor)
    ensures Strip(s, f) == [] <==> IsBlank(s, f)
  {
    var t := TrimStart(s, f);
    if Strip(s, f) == [] {
      assert t[0..] == t;
      assert s[..|s| - |t|] == s;
    }
  }

  /** Stripping twice is stripping once. */
  lemma {:induction false} StripIdempotent(s: string, f: Flavor)
    ensures Strip(Strip(s, f), f) == Strip(s, f)
  {
    var r := Strip(s, f);
    if r != [] {
      assert TrimStart(r, f) == r;
      assert TrimEnd(r, f) == r;
    }
  }

  /** `p` occurs in `s` (Python's `p in s`, JavaScript's `s.includes(p)`). */
  predicate Contains(s: string, p: string)
  {
    exists i :: 0 <= i <= |s| && p <= s[i..]
  }

  /** An occurrence inside a piece of `s` is an occurrence in `s`. */
  lemma ContainsInSlice(s: string, i: nat, j: nat, p: string)
    requires i <= j <= |s|
    requires Contains(s[i..j], p)
    ensures Contains(s, p)
  {
    var k :| 0 <= k <= j - i && p <= s[i..j][k..];
    assert s[i..j][k..] <= s[i + k..];
  }

  /** An occurrence is either at the front or in the tail. */
  lemma ContainsCons(s: string, p: string)
    requires s != []
    ensures Contains(s, p) <==> (p <= s || Contains(s[1..], p))
  {
    if Contains(s, p) && !(p <= s) {
      var k :| 0 <= k <= |s| && p <= s[k..];
      assert k != 0;
      assert s[1..][k - 1..] == s[k..];
    }
    if Contains(s[1..], p) {
      var k :| 0 <= k <= |s| - 1 && p <= s[1..][k..];
      assert s[1..][k..] == s[k + 1..];
    }
    if p <= s {
      assert s[0..] == s;
    }
  }

  /**
   * Every occurrence of `pat` in `s` replaced by `rep`, scanning left to
   * right and never rescanning inserted text; an empty `pat` inserts `rep`
   * before every character and at the end, as Python and JavaScript do.
   */
  function ReplaceAll(s: string, pat: string, rep: string): (r: string)
    ensures pat != [] && |rep| == |pat| ==> |r| == |s|
    ensures pat != [] && |rep| <= |pat| ==> |r| <= |s|
    decreases |s|
  {
    if pat == [] then
      if s == [] then rep else rep + [s[0]] + ReplaceAll(s[1..], pat, rep)
    else if s == [] then
      []
    else if pat <= s then
      rep + ReplaceAll(s[|pat|..], pat, rep)
    else
      [s[0]] + ReplaceAll(s[1..], pat, rep)
  }

  /** Replacing a word that does not occur changes nothing. */
  lemma {:induction false} ReplaceAbsent(s: string, pat: string, rep: string)
    requires !Contains(s, pat)
    ensures ReplaceAll(s, pat, rep) == s
    decreases |s|
  {
    if s == [] {
      assert [] <= s[0..];
    } else {
      ContainsCons(s, pat);
      ReplaceAbsent(s[1..], pat, rep);
    }
  }

  /** Replacing a word by itself changes nothing. */
  lemma {:induction false} ReplaceBySelf(s: string, pat: string)
    ensures ReplaceAll(s, pat, pat) == s
    decreases |s|
  {
    if s == [] {
    } else if pat == [] {
      ReplaceBySelf(s[1..], pat);
      assert s == [s[0]] + s[1..];
    } else if pat <= s {
      ReplaceBySelf(s[|pat|..], pat);
      assert s == s[..|pat|] + s[|pat|..];
    } else {
      ReplaceBySelf(s[1..], pat);
      assert s == [s[0]] + s[1..];
    }
  }

  /** The Markdown code fence a reply may be wrapped in. */
  const Fence: string := "```"

  /** Deleting fences from text that does not start with a backtick leaves text that does not either. */
  lemma NoTickAfterDeletingFences(s: string)
    requires s == [] || s[0] != '`'
    ensures var r := ReplaceAll(s, Fence, []); r == [] || r[0] != '`'
  {
    if s != [] {
      assert !(Fence <= s);
    }
  }

  /** Deleting fences from text that does not start with two backticks leaves text that does not either. */
  lemma NoTwoTicksAfterDeletingFences(s: string)
    requires !("``" <= s)
    ensures !("``" <= ReplaceAll(s, Fence, []))
  {
    if s != [] {
      assert !(Fence <= s);
      if s[0] == '`' {
        assert s[1..] == [] || s[1..][0] != '`';
        NoTickAfterDeletingFences(s[1..]);
      }
    }
  }

  /** Deleting every fence leaves no fence behind, even where deletions bring backticks together. */
  lemma {:induction false} DeletingFencesLeavesNone(s: string)
    ensures !Contains(ReplaceAll(s, Fence, []), Fence)
    decreases |s|
  {
    var r := ReplaceAll(s, Fence, []);
    if s == [] {
      assert !(Fence <= r[0..]);
    } else if Fence <= s {
      assert r == ReplaceAll(s[|Fence|..], Fence, []);
      DeletingFencesLeavesNone(s[|Fence|..]);
    } else {
      var t := ReplaceAll(s[1..], Fence, []);
      DeletingFencesLeavesNone(s[1..]);
      assert r == [s[0]] + t;
      ContainsCons(r, Fence);
      assert r[1..] == t;
      if s[0] == '`' {
        assert !("``" <= s[1..]);
        NoTwoTicksAfterDeletingFences(s[1..]);
      }
    }
  }
}
