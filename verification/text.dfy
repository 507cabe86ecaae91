/**
 * `String.prototype.trim` and the blank-input test `!input.trim()` of the chat
 * page. JavaScript strings are UTF-16; every character `trim` removes lies in
 * the Basic Multilingual Plane, so modelling characters as Unicode scalar
 * values loses nothing here.
 */
module Text {

  /** The ECMAScript WhiteSpace and LineTerminator code points. */
  predicate IsJsWhitespace(c: char) {
    || c == '\t' || c == '\n' || c == '\U{B}' || c == '\U{C}' || c == '\r'
    || c == ' ' || c == '\U{A0}' || c == '\U{1680}'
    || ('\U{2000}' <= c <= '\U{200A}')
    || c == '\U{2028}' || c == '\U{2029}' || c == '\U{202F}' || c == '\U{205F}'
    || c == '\U{3000}' || c == '\U{FEFF}'
  }

  /** Every character of `s` is whitespace (so the empty string is blank). */
  ghost predicate IsBlank(s: string) {
    forall i :: 0 <= i < |s| ==> IsJsWhitespace(s[i])
  }

  /** Drops leading whitespace. */
  function TrimStart(s: string): string {
    if |s| == 0 || !IsJsWhitespace(s[0]) then s else TrimStart(s[1..])
  }

  /** Drops trailing whitespace. */
  function TrimEnd(s: string): string {
    if |s| == 0 || !IsJsWhitespace(s[|s| - 1]) then s else TrimEnd(s[..|s| - 1])
  }

  /** `s.trim()`. */
  function Trim(s: string): string {
    TrimEnd(TrimStart(s))
  }

  /** `TrimStart` removes a blank prefix and stops at the first non-whitespace character. */
  lemma {:induction false} TrimStartRemovesBlankPrefix(s: string)
    ensures var r := TrimStart(s);
            && |r| <= |s| && r == s[|s| - |r|..]
            && IsBlank(s[..|s| - |r|])
            && (r == "" || !IsJsWhitespace(r[0]))
  {
    if |s| > 0 && IsJsWhitespace(s[0]) {
      var back := s[1..];
      TrimStartRemovesBlankPrefix(back);
      var r := TrimStart(s);
      assert r == TrimStart(back);
      assert r == back[|back| - |r|..] == s[|s| - |r|..];
      forall i | 0 <= i < |s| - |r| ensures IsJsWhitespace(s[i]) {
        if i > 0 {
          assert s[i] == back[..|back| - |r|][i - 1];
        }
      }
    }
  }

  /** `TrimEnd` removes a blank suffix and stops at the last non-whitespace character. */
  lemma {:induction false} TrimEndRemovesBlankSuffix(s: string)
    ensures var r := TrimEnd(s);
            && |r| <= |s| && r == s[..|r|]
            && IsBlank(s[|r|..])
            && (r == "" || !IsJsWhitespace(r[|r| - 1]))
  {
    if |s| > 0 && IsJsWhitespace(s[|s| - 1]) {
      var front := s[..|s| - 1];
      TrimEndRemovesBlankSuffix(front);
      var r := TrimEnd(s);
      assert r == TrimEnd(front);
      assert r == front[..|r|] == s[..|r|];
      forall i | |r| <= i < |s| ensures IsJsWhitespace(s[i]) {
        if i < |s| - 1 {
          assert s[i] == front[|r|..][i - |r|];
        }
      }
    }
  }

  /**
   * `s.trim()` is the empty string (the falsy case of `!input.trim()`)
   * exactly when every character of `s` is whitespace.
   */
  lemma {:induction false} TrimEmptyIffBlank(s: string)
    ensures Trim(s) == "" <==> IsBlank(s)
  {
    var t := TrimStart(s);
    TrimStartRemovesBlankPrefix(s);
    TrimEndRemovesBlankSuffix(t);
    if Trim(s) == "" {
      assert IsBlank(t[0..]);
      assert t == "";
      assert s[..|s| - |t|] == s;
    } else {
      var r := Trim(s);
      assert !IsJsWhitespace(r[0]);
      assert r[0] == t[0] == s[|s| - |t|];
    }
  }
}
