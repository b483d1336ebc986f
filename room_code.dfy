/** The only pure piece of the join page: whether a room code is blank,
    that is, empty once `String.prototype.trim` has removed leading and
    trailing white space. */
module RoomCode {

  /** White space and line terminators removed by `trim`: tab, line tab,
      form feed, space, no-break space, byte order mark, line feed, carriage
      return, line separator and paragraph separator. */
  const Whitespace: set<char> :=
    {'\t', '\U{B}', '\U{C}', ' ', '\U{A0}', '\U{FEFF}', '\n', '\r', '\U{2028}', '\U{2029}'}

  /** Whether `trim` removes `c` at either end of a string. The common
      separators are removed; no letter, digit, `-` or `_`, the characters a
      peer id is made of, ever is. */
  predicate IsWhitespace(c: char): (w: bool)
    ensures c == ' ' || c == '\t' || c == '\n' || c == '\r' ==> w
    ensures w ==> !('0' <= c <= '9' || 'a' <= c <= 'z' || 'A' <= c <= 'Z' || c == '-' || c == '_')
  {
    c in Whitespace
  }

  /** `s` without its leading white space. */
  function TrimStart(s: string): (r: string)
    ensures |r| <= |s| && r == s[|s| - |r|..]
    ensures forall i :: 0 <= i < |s| - |r| ==> IsWhitespace(s[i])
    ensures r != [] ==> !IsWhitespace(r[0])
  {
    if s != [] && IsWhitespace(s[0]) then TrimStart(s[1..]) else s
  }

  /** `s` without its trailing white space. */
  function TrimEnd(s: string): (r: string)
    ensures |r| <= |s| && r == s[..|r|]
    ensures forall i :: |r| <= i < |s| ==> IsWhitespace(s[i])
    ensures r != [] ==> !IsWhitespace(r[|r| - 1])
  {
    if s != [] && IsWhitespace(s[|s| - 1]) then TrimEnd(s[..|s| - 1]) else s
  }

  /** Trimming both ends leaves nothing exactly when every character is
      white space. */
  lemma {:induction false} TrimBothEmpty(s: string)
    ensures TrimEnd(TrimStart(s)) == [] <==> forall i :: 0 <= i < |s| ==> IsWhitespace(s[i])
  {
    var t := TrimStart(s);
    var r := TrimEnd(t);
    var lo := |s| - |t|;
    if r == [] {
      forall i | 0 <= i < |s|
        ensures IsWhitespace(s[i])
      {
        if lo <= i {
          assert s[i] == t[i - lo];
        }
      }
    } else {
      var k := |r| - 1;
      assert r[k] == t[k] == s[lo + k];
      assert !IsWhitespace(s[lo + k]);
    }
  }

  /** `s.trim()`: white space removed from both ends. The contract fixes
      when the result is empty and that its ends are clean, which is all the
      page observes of it (`!code.trim()`); which characters remain in
      between is given by the body. */
  function Trim(s: string): (r: string)
    ensures |r| <= |s|
    ensures r == [] <==> forall i :: 0 <= i < |s| ==> IsWhitespace(s[i])
    ensures r != [] ==> !IsWhitespace(r[0]) && !IsWhitespace(r[|r| - 1])
  {
    TrimBothEmpty(s);
    TrimEnd(TrimStart(s))
  }

  /** `!code.trim()`: the code is empty after trimming, that is, it holds
      no character other than white space. */
  predicate IsBlank(code: string): (blank: bool)
    ensures blank <==> forall i :: 0 <= i < |code| ==> IsWhitespace(code[i])
  {
    Trim(code) == ""
  }

  /** Trimming keeps a code with no surrounding white space as it is. */
  lemma TrimKeepsClean(code: string)
    requires code != [] && !IsWhitespace(code[0]) && !IsWhitespace(code[|code| - 1])
    ensures Trim(code) == code
  {
  }

  /** The empty code and a code of spaces are both blank. */
  lemma EmptyAndSpacesAreBlank()
    ensures IsBlank("") && IsBlank("   ")
  {
  }
}
