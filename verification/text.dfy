/**
 * The pieces of Kotlin's string library that the screens rely on:
 * `String.trim()`, `String.contains(other, ignoreCase = true)` and the
 * rendering of a nullable string inside a string template.
 */
module Text {

  import opened Wrappers

  /** Kotlin's `Char.isWhitespace()`: Java's whitespace and space characters. */
  predicate IsWhitespace(c: char)
  {
    var n := c as int;
    (0x09 <= n <= 0x0D) || (0x1C <= n <= 0x20) || n == 0xA0 || n == 0x1680
    || (0x2000 <= n <= 0x200A) || n == 0x2028 || n == 0x2029 || n == 0x202F
    || n == 0x205F || n == 0x3000
  }

  /** Kotlin's `isBlank()`: every character is whitespace. */
  predicate IsBlank(s: string)
  {
    forall k :: 0 <= k < |s| ==> IsWhitespace(s[k])
  }

  /** Drops the leading whitespace. */
  function TrimStart(s: string): string
  {
    if s != [] && IsWhitespace(s[0]) then TrimStart(s[1..]) else s
  }

  /** Drops the trailing whitespace. */
  function TrimEnd(s: string): string
  {
    if s != [] && IsWhitespace(s[|s| - 1]) then TrimEnd(s[..|s| - 1]) else s
  }

  /** `TrimStart` keeps the longest suffix that does not start with whitespace. */
  lemma {:induction false} TrimStartSpec(s: string)
    ensures var r := TrimStart(s);
            && |r| <= |s| && r == s[|s| - |r|..]
            && IsBlank(s[..|s| - |r|])
            && (r != [] ==> !IsWhitespace(r[0]))
  {
    if s != [] && IsWhitespace(s[0]) {
      TrimStartSpec(s[1..]);
      var r := TrimStart(s[1..]);
      assert s[1..][..|s| - 1 - |r|] == s[1..|s| - |r|];
    }
  }

  /** `TrimEnd` keeps the longest prefix that does not end with whitespace. */
  lemma {:induction false} TrimEndSpec(s: string)
    ensures var r := TrimEnd(s);
            && |r| <= |s| && r == s[..|r|]
            && IsBlank(s[|r|..])
            && (r != [] ==> !IsWhitespace(r[|r| - 1]))
  {
    if s != [] && IsWhitespace(s[|s| - 1]) {
      TrimEndSpec(s[..|s| - 1]);
      var r := TrimEnd(s[..|s| - 1]);
      assert s[..|s| - 1][|r|..] == s[|r|..|s| - 1];
      assert s[|r|..] == s[|r|..|s| - 1] + [s[|s| - 1]];
    }
  }

  /** Kotlin's `String.trim()`: the text between the leading and the trailing whitespace. */
  function Trim(s: string): (r: string)
    ensures |r| <= |s|
    ensures r == [] <==> IsBlank(s)
    ensures r != [] ==> !IsWhitespace(r[0]) && !IsWhitespace(r[|r| - 1])
  {
    var t := TrimStart(s);
    TrimStartSpec(s);
    TrimEndSpec(t);
    var r := TrimEnd(t);
    assert r == [] ==> IsBlank(s) by {
      if r == [] {
        assert t == [];
        forall k | 0 <= k < |s| ensures IsWhitespace(s[k]) {
          assert s[k] == s[..|s| - |t|][k];
        }
      }
    }
    assert r != [] ==> !IsBlank(s) by {
      if r != [] {
        assert t[0] == s[|s| - |t|];
      }
    }
    r
  }

  lemma {:induction false} TrimStartSkipsBlank(pre: string, s: string)
    requires IsBlank(pre)
    ensures TrimStart(pre + s) == TrimStart(s)
  {
    if pre == [] {
      assert pre + s == s;
    } else {
      assert (pre + s)[0] == pre[0];
      assert (pre + s)[1..] == pre[1..] + s;
      TrimStartSkipsBlank(pre[1..], s);
    }
  }

  lemma {:induction false} TrimEndSkipsBlank(s: string, post: string)
    requires IsBlank(post)
    ensures TrimEnd(s + post) == TrimEnd(s)
  {
    if post == [] {
      assert s + post == s;
    } else {
      assert (s + post)[|s + post| - 1] == post[|post| - 1];
      assert (s + post)[..|s + post| - 1] == s + post[..|post| - 1];
      TrimEndSkipsBlank(s, post[..|post| - 1]);
    }
  }

  lemma {:induction false} TrimStartKeepsTail(s: string, post: string)
    requires !IsBlank(s)
    ensures TrimStart(s + post) == TrimStart(s) + post
  {
    assert s != [];
    assert (s + post)[0] == s[0];
    if IsWhitespace(s[0]) {
      assert (s + post)[1..] == s[1..] + post;
      assert !IsBlank(s[1..]) by {
        var k :| 0 <= k < |s| && !IsWhitespace(s[k]);
        assert s[1..][k - 1] == s[k];
      }
      TrimStartKeepsTail(s[1..], post);
    }
  }

  /** Surrounding whitespace never changes what `trim()` returns. */
  lemma TrimIgnoresPadding(pre: string, s: string, post: string)
    requires IsBlank(pre) && IsBlank(post)
    ensures Trim(pre + s + post) == Trim(s)
  {
    assert pre + s + post == pre + (s + post);
    TrimStartSkipsBlank(pre, s + post);
    if IsBlank(s) {
      assert IsBlank(s + post);
      TrimStartSkipsBlank(s + post, []);
      assert s + post + [] == s + post;
      assert TrimStart(s + post) == [];
      assert Trim(s) == [];
    } else {
      TrimStartKeepsTail(s, post);
      TrimEndSkipsBlank(TrimStart(s), post);
    }
  }

  /**
   * `trim()` keeps a contiguous slice of its input: everything before it
   * and everything after it is whitespace.
   */
  lemma {:induction false} TrimKeepsMiddle(s: string)
    ensures var i := |s| - |TrimStart(s)|;
            && 0 <= i && i + |Trim(s)| <= |s|
            && Trim(s) == s[i..i + |Trim(s)|]
            && IsBlank(s[..i]) && IsBlank(s[i + |Trim(s)|..])
  {
    var t := TrimStart(s);
    TrimStartSpec(s);
    TrimEndSpec(t);
    var i := |s| - |t|;
    var r := TrimEnd(t);
    assert Trim(s) == r;
    assert t == s[i..];
    assert r == t[..|r|];
    assert t[..|r|] == s[i..i + |r|];
    assert t[|r|..] == s[i + |r|..];
  }

  /**
   * Kotlin's `String.length`: the number of UTF-16 code units, so a
   * character outside the Basic Multilingual Plane counts twice.
   */
  function Utf16Length(s: string): (n: nat)
    ensures |s| <= n <= 2 * |s|
  {
    if s == [] then 0
    else (if s[0] as int > 0xFFFF then 2 else 1) + Utf16Length(s[1..])
  }

  /** The UTF-16 length is the character count exactly when no character needs a surrogate pair. */
  lemma {:induction false} Utf16LengthOfBmp(s: string)
    ensures Utf16Length(s) == |s| <==> forall k :: 0 <= k < |s| ==> s[k] as int <= 0xFFFF
  {
    if s != [] {
      Utf16LengthOfBmp(s[1..]);
      if forall k :: 0 <= k < |s| ==> s[k] as int <= 0xFFFF {
        assert forall k :: 0 <= k < |s| - 1 ==> s[1..][k] == s[k + 1];
      } else {
        var k :| 0 <= k < |s| && s[k] as int > 0xFFFF;
        if k > 0 {
          assert s[1..][k - 1] == s[k];
        }
      }
    }
  }

  /** ASCII upper-casing; other characters are left unchanged. */
  function UpperAscii(c: char): char
  {
    if 'a' <= c <= 'z' then (c as int - 32) as char else c
  }

  /** Kotlin's `Char.equals(other, ignoreCase = true)`, with ASCII case folding. */
  predicate CharEqualsIgnoreCase(a: char, b: char)
  {
    a == b || UpperAscii(a) == UpperAscii(b)
  }

  /** Kotlin's `regionMatches(..., ignoreCase = true)` of `pattern` against `s` at `start`. */
  predicate RegionMatchesIgnoreCase(s: string, start: nat, pattern: string)
    requires start + |pattern| <= |s|
  {
    forall k :: 0 <= k < |pattern| ==> CharEqualsIgnoreCase(s[start + k], pattern[k])
  }

  /**
   * Kotlin's `indexOf(pattern, from, ignoreCase = true)`: the first match at
   * or after `from`, or -1. Positions count characters, not UTF-16 units.
   */
  function IndexOfIgnoreCase(s: string, pattern: string, from: nat): (r: int)
    ensures -1 <= r
    ensures r >= 0 ==> from <= r && r + |pattern| <= |s| && RegionMatchesIgnoreCase(s, r, pattern)
    ensures forall i :: from <= i && i + |pattern| <= |s| && (r < 0 || i < r) ==>
              !RegionMatchesIgnoreCase(s, i, pattern)
    decreases |s| - from
  {
    if from + |pattern| > |s| then -1
    else if RegionMatchesIgnoreCase(s, from, pattern) then from
    else IndexOfIgnoreCase(s, pattern, from + 1)
  }

  /** Kotlin's `contains(pattern, ignoreCase = true)`. */
  predicate ContainsIgnoreCase(s: string, pattern: string)
  {
    IndexOfIgnoreCase(s, pattern, 0) >= 0
  }

  lemma ContainsIgnoreCaseAt(s: string, pattern: string, i: nat)
    requires i + |pattern| <= |s| && RegionMatchesIgnoreCase(s, i, pattern)
    ensures ContainsIgnoreCase(s, pattern)
  {
  }

  /**
   * Whatever contains "PERMISSION_DENIED" (ignoring case) already
   * contains "permission" (ignoring case).
   */
  lemma PermissionDeniedMentionsPermission(s: string)
    ensures ContainsIgnoreCase(s, "PERMISSION_DENIED") ==> ContainsIgnoreCase(s, "permission")
  {
    if ContainsIgnoreCase(s, "PERMISSION_DENIED") {
      var i := IndexOfIgnoreCase(s, "PERMISSION_DENIED", 0);
      var long, short := "PERMISSION_DENIED", "permission";
      forall k | 0 <= k < |short|
        ensures CharEqualsIgnoreCase(s[i + k], short[k])
      {
        assert CharEqualsIgnoreCase(s[i + k], long[k]);
        assert UpperAscii(short[k]) == long[k] == UpperAscii(long[k]);
      }
      ContainsIgnoreCaseAt(s, short, i);
    }
  }

  /** A nullable string inside a Kotlin string template: `null` renders as "null". */
  function Interpolate(s: Option<string>): string
  {
    match s
    case Some(v) => v
    case None => "null"
  }
}
