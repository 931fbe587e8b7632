/** `String.isEmptyOrWhitespace`: WhatsAppClone/Extensions/String+Extensions.swift. */
module StringExtensions {

  /**
   * Membership in Foundation's `CharacterSet.whitespacesAndNewlines`:
   * the Unicode separators (categories Zs, Zl and Zp), the controls
   * U+0009 to U+000D, and U+0085.
   */
  predicate IsWhitespaceOrNewline(c: char)
  {
    || '\U{0009}' <= c <= '\U{000D}'
    || c == ' '
    || c == '\U{0085}'
    || c == '\U{00A0}'
    || c == '\U{1680}'
    || '\U{2000}' <= c <= '\U{200A}'
    || c == '\U{2028}'
    || c == '\U{2029}'
    || c == '\U{202F}'
    || c == '\U{205F}'
    || c == '\U{3000}'
  }

  predicate AllWhitespace(s: string)
  {
    forall i :: 0 <= i < |s| ==> IsWhitespaceOrNewline(s[i])
  }

  /** Drops the leading whitespace: the result is a suffix of `s` that starts with a visible character, if any. */
  function TrimStart(s: string): (r: string)
    ensures |r| <= |s| && r == s[|s| - |r|..]
    ensures AllWhitespace(s[..|s| - |r|])
    ensures r != [] ==> !IsWhitespaceOrNewline(r[0])
  {
    if s != [] && IsWhitespaceOrNewline(s[0]) then TrimStart(s[1..]) else s
  }

  /** Drops the trailing whitespace: the result is a prefix of `s` that ends with a visible character, if any. */
  function TrimEnd(s: string): (r: string)
    ensures |r| <= |s| && r == s[..|r|]
    ensures AllWhitespace(s[|r|..])
    ensures r != [] ==> !IsWhitespaceOrNewline(r[|r| - 1])
  {
    if s != [] && IsWhitespaceOrNewline(s[|s| - 1]) then
      var r := TrimEnd(s[..|s| - 1]);
      assert s[|r|..] == s[..|s| - 1][|r|..] + [s[|s| - 1]];
      r
    else
      s
  }

  /**
   * `trimmingCharacters(in: .whitespacesAndNewlines)`: `TrimStart` then
   * `TrimEnd`. What is left starts and ends with a visible character, and
   * nothing is left exactly when `s` is all whitespace.
   */
  function Trim(s: string): (r: string)
    ensures |r| <= |s|
    ensures r != [] ==> !IsWhitespaceOrNewline(r[0]) && !IsWhitespaceOrNewline(r[|r| - 1])
    ensures r == [] <==> AllWhitespace(s)
  {
    TrimEmpty(s);
    TrimEnd(TrimStart(s))
  }

  /** Nothing is left after trimming exactly when every character is whitespace. */
  lemma TrimEmpty(s: string)
    ensures TrimEnd(TrimStart(s)) == [] <==> AllWhitespace(s)
  {
    var t := TrimStart(s);
    if t == [] {
      assert s[..|s|] == s;
    } else {
      // TrimEnd keeps a prefix of `t`, and the first character of `t` is visible.
      assert TrimEnd(t) != [];
      assert !IsWhitespaceOrNewline(s[|s| - |t|]);
    }
  }

  /** `isEmptyOrWhitespace`: nothing is left once the whitespace at both ends is trimmed. */
  predicate IsEmptyOrWhitespace(s: string): (b: bool)
    ensures b <==> AllWhitespace(s)
  {
    Trim(s) == []
  }

  /** The empty string counts as empty-or-whitespace. */
  lemma EmptyIsEmptyOrWhitespace()
    ensures IsEmptyOrWhitespace("")
  {
  }

  /** One visible character anywhere makes the string not empty-or-whitespace. */
  lemma VisibleCharacter(s: string, i: nat)
    requires i < |s| && !IsWhitespaceOrNewline(s[i])
    ensures !IsEmptyOrWhitespace(s)
  {
  }

  /** Padding a string with whitespace on either side does not change the answer. */
  lemma PaddingIrrelevant(pre: string, s: string, post: string)
    requires AllWhitespace(pre) && AllWhitespace(post)
    ensures IsEmptyOrWhitespace(pre + s + post) == IsEmptyOrWhitespace(s)
  {
    var p := pre + s + post;
    if AllWhitespace(s) {
      forall i | 0 <= i < |p| ensures IsWhitespaceOrNewline(p[i]) {
        if i < |pre| { assert p[i] == pre[i]; }
        else if i < |pre| + |s| { assert p[i] == s[i - |pre|]; }
        else { assert p[i] == post[i - |pre| - |s|]; }
      }
    } else {
      var j :| 0 <= j < |s| && !IsWhitespaceOrNewline(s[j]);
      assert p[|pre| + j] == s[j];
    }
  }
}
