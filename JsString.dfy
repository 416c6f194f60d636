/**
 * The two JavaScript string operations the repository relies on:
 * `String.prototype.trim` and the field `key.split(':')[1]`.
 */
module JsString {

  /**
   * ECMAScript WhiteSpace and LineTerminator code points, the characters
   * `trim` removes: TAB, LF, VT, FF, CR, SPACE, NBSP, OGHAM SPACE MARK,
   * the spaces U+2000..U+200A, LINE and PARAGRAPH SEPARATOR, NARROW NBSP,
   * MEDIUM MATHEMATICAL SPACE, IDEOGRAPHIC SPACE and the BOM.
   */
  predicate IsWhitespace(c: char) {
    var n := c as int;
    || (0x09 <= n <= 0x0D)
    || n == 0x20 || n == 0xA0 || n == 0x1680
    || (0x2000 <= n <= 0x200A)
    || n == 0x2028 || n == 0x2029 || n == 0x202F || n == 0x205F
    || n == 0x3000 || n == 0xFEFF
  }

  /** Drops the leading whitespace of `s`. */
  function TrimStart(s: string): (r: string)
    ensures |r| <= |s| && r == s[|s| - |r|..]
    ensures r == [] || !IsWhitespace(r[0])
    ensures forall i :: 0 <= i < |s| - |r| ==> IsWhitespace(s[i])
  {
    if |s| > 0 && IsWhitespace(s[0]) then TrimStart(s[1..]) else s
  }

  /** Drops the trailing whitespace of `s`. */
  function TrimEnd(s: string): (r: string)
    ensures |r| <= |s| && r == s[..|r|]
    ensures r == [] || !IsWhitespace(r[|r| - 1])
    ensures forall i :: |r| <= i < |s| ==> IsWhitespace(s[i])
  {
    if |s| > 0 && IsWhitespace(s[|s| - 1]) then TrimEnd(s[..|s| - 1]) else s
  }

  /** `s.trim()`: `s` without its leading and trailing whitespace. */
  function Trim(s: string): (r: string)
    ensures |r| <= |s|
    ensures r == [] || (!IsWhitespace(r[0]) && !IsWhitespace(r[|r| - 1]))
    ensures exists k {:trigger s[k..]} ::
              && 0 <= k <= |s| - |r|
              && r == s[k..][..|r|]
              && (forall j :: 0 <= j < k ==> IsWhitespace(s[j]))
              && (forall j :: k + |r| <= j < |s| ==> IsWhitespace(s[j]))
  {
    var r := TrimEnd(TrimStart(s));
    TrimIsInnerSlice(s, |s| - |TrimStart(s)|);
    r
  }

  /** `trim` keeps the slice of `s` from `k`, the end of its leading whitespace, up to its trailing whitespace. */
  lemma TrimIsInnerSlice(s: string, k: nat)
    requires k == |s| - |TrimStart(s)|
    ensures var r := TrimEnd(TrimStart(s));
      && k + |r| <= |s|
      && r == s[k..][..|r|]
      && (forall j :: 0 <= j < k ==> IsWhitespace(s[j]))
      && (forall j :: k + |r| <= j < |s| ==> IsWhitespace(s[j]))
  {
    var t := TrimStart(s);
    var r := TrimEnd(t);
    assert t == s[k..];
    forall j | k + |r| <= j < |s| ensures IsWhitespace(s[j]) {
      assert IsWhitespace(t[j - k]);
      assert t[j - k] == s[j];
    }
  }

  /** Trimming a string that has no whitespace at either end changes nothing. */
  lemma {:induction false} TrimNoEdgeWhitespace(s: string)
    requires s == [] || (!IsWhitespace(s[0]) && !IsWhitespace(s[|s| - 1]))
    ensures Trim(s) == s
  {
    assert TrimStart(s) == s;
    assert TrimEnd(s) == s;
  }

  /** `trim` is idempotent. */
  lemma TrimIdempotent(s: string)
    ensures Trim(Trim(s)) == Trim(s)
  {
    TrimNoEdgeWhitespace(Trim(s));
  }

  /** The prefix of `s` before its first `:`; all of `s` when it has none. */
  function UntilColon(s: string): (r: string)
    ensures r <= s
    ensures ':' !in r
    ensures |r| < |s| ==> s[|r|] == ':'
  {
    if s == [] || s[0] == ':' then [] else [s[0]] + UntilColon(s[1..])
  }

  /**
   * `key.split(':')[1]` for a key that starts with `head + ":"` where `head`
   * holds no colon: the text between the first and the second colon.
   */
  function SecondField(key: string, head: string): (r: string)
    requires head + ":" <= key
    ensures ':' !in r
    ensures head + ":" + r <= key
    ensures |head| + 1 + |r| < |key| ==> key[|head| + 1 + |r|] == ':'
  {
    var rest := key[|head| + 1..];
    var r := UntilColon(rest);
    assert key == head + ":" + rest;
    r
  }

  /** A colon-free code is its own second field. */
  lemma {:induction false} UntilColonOfColonFree(s: string)
    requires ':' !in s
    ensures UntilColon(s) == s
  {
    if s != [] {
      UntilColonOfColonFree(s[1..]);
    }
  }
}
