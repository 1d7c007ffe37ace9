/** Python's notion of whitespace and `str.strip()`, as far as the debugger's
    query guard relies on them. Strings are sequences of Unicode scalar
    values, so `|s|` is Python's `len(s)` for every `str` without lone
    surrogates. */
module PyText {

  /** `c.isspace()` for a single code point: the characters Python treats as
      whitespace when `str.strip()` is called without arguments. */
  predicate IsSpace(c: char) {
    || ('\U{0009}' <= c && c <= '\U{000D}')
    || ('\U{001C}' <= c && c <= '\U{0020}')
    || c == '\U{0085}'
    || c == '\U{00A0}'
    || c == '\U{1680}'
    || ('\U{2000}' <= c && c <= '\U{200A}')
    || c == '\U{2028}'
    || c == '\U{2029}'
    || c == '\U{202F}'
    || c == '\U{205F}'
    || c == '\U{3000}'
  }

  /** `s.lstrip()`: drops the leading whitespace and nothing else. */
  function TrimStart(s: string): (r: string)
    ensures |r| <= |s| && r == s[|s| - |r|..]
    ensures forall i :: 0 <= i < |s| - |r| ==> IsSpace(s[i])
    ensures r == [] || !IsSpace(r[0])
  {
    if s != [] && IsSpace(s[0]) then TrimStart(s[1..]) else s
  }

  /** `s.rstrip()`: drops the trailing whitespace and nothing else. */
  function TrimEnd(s: string): (r: string)
    ensures |r| <= |s| && r == s[..|r|]
    ensures forall i :: |r| <= i < |s| ==> IsSpace(s[i])
    ensures r == [] || !IsSpace(r[|r| - 1])
  {
    if s != [] && IsSpace(s[|s| - 1]) then TrimEnd(s[..|s| - 1]) else s
  }

  /** `s.strip()`: a slice of `s`, the one left after dropping whitespace at
      both ends. It is empty exactly when every character of `s` is whitespace;
      otherwise it starts and ends with a non-space. */
  function Strip(s: string): (r: string)
    ensures |r| <= |s|
    ensures exists a, b ::
              && 0 <= a <= b <= |s| && r == s[a..b]
              && (forall i :: 0 <= i < a ==> IsSpace(s[i]))
              && (forall i :: b <= i < |s| ==> IsSpace(s[i]))
    ensures r == [] <==> forall i :: 0 <= i < |s| ==> IsSpace(s[i])
    ensures r != [] ==> !IsSpace(r[0]) && !IsSpace(r[|r| - 1])
  {
    var left := TrimStart(s);
    var r := TrimEnd(left);
    assert left == [] ==> forall i :: 0 <= i < |s| ==> IsSpace(s[i]);
    var a := |s| - |left|;
    var b := a + |r|;
    assert r == s[a..b] by {
      assert left == s[a..];
      assert r == left[..|r|];
    }
    r
  }

  /** A query the guard in front of the tracer turns away: `not query.strip()`. */
  predicate IsBlank(query: string) {
    Strip(query) == []
  }
}
