/**
 * The two string operations of ECMAScript that the adapter relies on:
 * `String.prototype.trim` and `String.prototype.substring(0, n)`.
 */
module JsText {

  /** ECMAScript WhiteSpace and LineTerminator code points, the set `trim` removes. */
  const Whitespace: set<char> := {
    '\t', '\n', '\U{000B}', '\U{000C}', '\r', ' ', '\U{00A0}', '\U{1680}',
    '\U{2000}', '\U{2001}', '\U{2002}', '\U{2003}', '\U{2004}', '\U{2005}',
    '\U{2006}', '\U{2007}', '\U{2008}', '\U{2009}', '\U{200A}',
    '\U{2028}', '\U{2029}', '\U{202F}', '\U{205F}', '\U{3000}', '\U{FEFF}'
  }

  predicate IsWhitespace(c: char)
  {
    c in Whitespace
  }

  predicate AllWhitespace(s: string)
  {
    forall k :: 0 <= k < |s| ==> IsWhitespace(s[k])
  }

  /** Drops leading whitespace: the result is a suffix of `s` that does not start with whitespace. */
  function TrimStart(s: string): (r: string)
    ensures |r| <= |s| && r == s[|s| - |r|..]
    ensures r != [] ==> !IsWhitespace(r[0])
    decreases |s|
  {
    if |s| > 0 && IsWhitespace(s[0]) then TrimStart(s[1..]) else s
  }

  /** Everything `TrimStart` cuts away is whitespace. */
  lemma {:induction false} TrimStartCut(s: string)
    ensures AllWhitespace(s[..|s| - |TrimStart(s)|])
    decreases |s|
  {
    if |s| > 0 && IsWhitespace(s[0]) {
      TrimStartCut(s[1..]);
      var cut := s[..|s| - |TrimStart(s)|];
      var rest := s[1..][..|s| - 1 - |TrimStart(s)|];
      forall k | 0 <= k < |cut| ensures IsWhitespace(cut[k]) {
        if k > 0 { assert cut[k] == rest[k - 1]; }
      }
    }
  }

  /** Drops trailing whitespace: the result is a prefix of `s` that does not end with whitespace. */
  function TrimEnd(s: string): (r: string)
    ensures |r| <= |s| && r == s[..|r|]
    ensures r != [] ==> !IsWhitespace(r[|r| - 1])
    decreases |s|
  {
    if |s| > 0 && IsWhitespace(s[|s| - 1]) then TrimEnd(s[..|s| - 1]) else s
  }

  /** Everything `TrimEnd` cuts away is whitespace. */
  lemma {:induction false} TrimEndCut(s: string)
    ensures AllWhitespace(s[|TrimEnd(s)|..])
    decreases |s|
  {
    if |s| > 0 && IsWhitespace(s[|s| - 1]) {
      TrimEndCut(s[..|s| - 1]);
      var n := |TrimEnd(s)|;
      var cut := s[n..];
      var rest := s[..|s| - 1][n..];
      forall k | 0 <= k < |cut| ensures IsWhitespace(cut[k]) {
        if k < |cut| - 1 { assert cut[k] == rest[k]; }
      }
    }
  }

  /** `s.trim()`. */
  function Trim(s: string): (r: string)
    ensures |r| <= |s|
    ensures r != [] ==> !IsWhitespace(r[0]) && !IsWhitespace(r[|r| - 1])
  {
    var t := TrimStart(s);
    var r := TrimEnd(t);
    assert r != [] ==> r[0] == t[0];
    r
  }

  /** Where the trimmed body starts in the input. */
  function TrimFrom(s: string): nat
  {
    |s| - |TrimStart(s)|
  }

  lemma TrimSliceBounds(s: string)
    ensures TrimFrom(s) + |Trim(s)| <= |s|
    ensures Trim(s) == s[TrimFrom(s)..TrimFrom(s) + |Trim(s)|]
  {
    var t := TrimStart(s);
    var r := TrimEnd(t);
    assert t == s[TrimFrom(s)..];
    assert r == t[..|r|];
  }

  lemma TrimTailIsWhitespace(s: string)
    ensures TrimFrom(s) + |Trim(s)| <= |s|
    ensures AllWhitespace(s[TrimFrom(s) + |Trim(s)|..])
  {
    var t := TrimStart(s);
    var r := TrimEnd(t);
    var j := TrimFrom(s) + |r|;
    TrimEndCut(t);
    assert t == s[TrimFrom(s)..];
    assert t[|r|..] == s[j..];
  }

  lemma TrimBorders(s: string)
    ensures Trim(s) != [] ==> !IsWhitespace(Trim(s)[0]) && !IsWhitespace(Trim(s)[|Trim(s)| - 1])
  {
    var t := TrimStart(s);
    var r := TrimEnd(t);
    if r != [] {
      assert r == t[..|r|];
      assert r[0] == t[0];
    }
  }

  /**
   * What `trim` returns, stated without reference to how it is computed:
   * a contiguous slice of the input, with only whitespace cut away on either
   * side and no whitespace left at either border.
   */
  lemma TrimIsSlice(s: string) returns (i: nat, j: nat)
    ensures i <= j <= |s| && Trim(s) == s[i..j]
    ensures AllWhitespace(s[..i]) && AllWhitespace(s[j..])
    ensures Trim(s) != [] ==> !IsWhitespace(Trim(s)[0]) && !IsWhitespace(Trim(s)[|Trim(s)| - 1])
  {
    i := TrimFrom(s);
    j := i + |Trim(s)|;
    TrimSliceBounds(s);
    TrimStartCut(s);
    TrimTailIsWhitespace(s);
    TrimBorders(s);
  }

  /** The trimmed body is empty exactly when the input was all whitespace. */
  lemma TrimEmptyIff(s: string)
    ensures Trim(s) == [] <==> AllWhitespace(s)
  {
    var i, j := TrimIsSlice(s);
    if Trim(s) == [] {
      assert i == j;
      forall k | 0 <= k < |s| ensures IsWhitespace(s[k]) {
        if k < i { assert s[..i][k] == s[k]; } else { assert s[j..][k - j] == s[k]; }
      }
    } else {
      assert s[i] == Trim(s)[0];
    }
  }

  /** `TrimStart` removes exactly a whitespace prefix in front of a string that does not start with whitespace. */
  lemma {:induction false} TrimStartDropsPadding(pre: string, rest: string)
    requires AllWhitespace(pre)
    requires rest != [] ==> !IsWhitespace(rest[0])
    ensures TrimStart(pre + rest) == rest
  {
    if pre == [] {
      assert pre + rest == rest;
    } else {
      assert (pre + rest)[0] == pre[0];
      assert (pre + rest)[1..] == pre[1..] + rest;
      var tail := pre[1..];
      assert AllWhitespace(tail) by {
        forall k | 0 <= k < |tail| ensures IsWhitespace(tail[k]) {
          assert tail[k] == pre[k + 1];
        }
      }
      TrimStartDropsPadding(tail, rest);
    }
  }

  /** `TrimEnd` removes exactly a whitespace suffix behind a string that does not end with whitespace. */
  lemma {:induction false} TrimEndDropsPadding(rest: string, post: string)
    requires AllWhitespace(post)
    requires rest != [] ==> !IsWhitespace(rest[|rest| - 1])
    ensures TrimEnd(rest + post) == rest
  {
    if post == [] {
      assert rest + post == rest;
    } else {
      var s := rest + post;
      assert s[|s| - 1] == post[|post| - 1];
      assert s[..|s| - 1] == rest + post[..|post| - 1];
      var init := post[..|post| - 1];
      assert AllWhitespace(init) by {
        forall k | 0 <= k < |init| ensures IsWhitespace(init[k]) {
          assert init[k] == post[k];
        }
      }
      TrimEndDropsPadding(rest, init);
    }
  }

  /** Whitespace padding on either side of a clean string is removed exactly. */
  lemma TrimPadding(pre: string, body: string, post: string)
    requires AllWhitespace(pre) && AllWhitespace(post)
    requires body != [] ==> !IsWhitespace(body[0]) && !IsWhitespace(body[|body| - 1])
    ensures Trim(pre + body + post) == body
  {
    assert pre + body + post == pre + (body + post);
    if body == [] {
      assert body + post == post;
      TrimStartDropsPadding(pre + post, []);
      assert pre + post + [] == pre + post;
      assert AllWhitespace(pre + post) by {
        forall k | 0 <= k < |pre + post| ensures IsWhitespace((pre + post)[k]) {
          if k < |pre| { assert (pre + post)[k] == pre[k]; } else { assert (pre + post)[k] == post[k - |pre|]; }
        }
      }
    } else {
      assert (body + post)[0] == body[0];
      TrimStartDropsPadding(pre, body + post);
      TrimEndDropsPadding(body, post);
    }
  }

  /** A string without whitespace at its borders is left unchanged. */
  lemma TrimKeepsClean(s: string)
    requires s != [] ==> !IsWhitespace(s[0]) && !IsWhitespace(s[|s| - 1])
    ensures Trim(s) == s
  {
    assert [] + s + [] == s;
    TrimPadding([], s, []);
  }

  /** Trimming twice is the same as trimming once. */
  lemma TrimIdempotent(s: string)
    ensures Trim(Trim(s)) == Trim(s)
  {
    var t := Trim(s);
    TrimKeepsClean(t);
  }

  lemma TrimExample()
    ensures Trim("  hi  ") == "hi"
  {
    TrimPadding("  ", "hi", "  ");
    assert "  " + "hi" + "  " == "  hi  ";
  }

  function Min(a: int, b: int): int { if a <= b then a else b }

  /** `s.substring(0, n)` for a non-negative `n`: the first min(|s|, n) characters. */
  function Substring0(s: string, n: nat): (r: string)
    ensures |r| == Min(|s|, n)
    ensures r <= s
    ensures |s| <= n ==> r == s
  {
    if |s| <= n then s else s[..n]
  }
}
