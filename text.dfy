/**
 * The string primitive the forms rely on: JavaScript's `String.prototype.trim`,
 * which removes white space and line terminators from both ends of a string.
 */
module Text {

  /** The WhiteSpace and LineTerminator code points of ECMAScript, which `trim` removes. */
  predicate IsWhitespace(c: char) {
    c == ' ' || c == '\t' || c == '\n' || c == '\r' || c == '\U{000B}' || c == '\U{000C}'
    || c == '\U{00A0}' || c == '\U{1680}' || ('\U{2000}' <= c <= '\U{200A}')
    || c == '\U{2028}' || c == '\U{2029}' || c == '\U{202F}' || c == '\U{205F}'
    || c == '\U{3000}' || c == '\U{FEFF}'
  }

  predicate AllWhitespace(s: string) {
    forall i :: 0 <= i < |s| ==> IsWhitespace(s[i])
  }

  /** `s` with its leading white space removed. */
  function TrimStart(s: string): (r: string)
    ensures |r| <= |s| && r == s[|s| - |r|..]
    ensures AllWhitespace(s[..|s| - |r|])
    ensures r == [] || !IsWhitespace(r[0])
    decreases |s|
  {
    if s != [] && IsWhitespace(s[0]) then TrimStart(s[1..]) else s
  }

  /** `s` with its trailing white space removed. */
  function TrimEnd(s: string): (r: string)
    ensures |r| <= |s| && r == s[..|r|]
    ensures AllWhitespace(s[|r|..])
    ensures r == [] || !IsWhitespace(r[|r| - 1])
    decreases |s|
  {
    if s != [] && IsWhitespace(s[|s| - 1]) then
      var p := s[..|s| - 1];
      var r := TrimEnd(p);
      assert s[|r|..] == p[|r|..] + [s[|s| - 1]];
      r
    else s
  }

  /**
   * `s.trim()`: the infix of `s` left after dropping white space at both ends;
   * what is dropped is white space, and what is left neither starts nor ends with it.
   */
  function Trim(s: string): (r: string)
    ensures |r| <= |s|
    ensures exists a, b :: 0 <= a <= b <= |s| && r == s[a..b] && AllWhitespace(s[..a]) && AllWhitespace(s[b..])
    ensures r == [] || (!IsWhitespace(r[0]) && !IsWhitespace(r[|r| - 1]))
  {
    var t := TrimStart(s);
    var r := TrimEnd(t);
    var a := |s| - |t|;
    TrimEndInfix(s, t, r, a);
    r
  }

  /** What `TrimEnd` keeps of the suffix `t == s[a..]` is the infix `s[a..a + |r|]`, followed by white space only. */
  lemma TrimEndInfix(s: string, t: string, r: string, a: int)
    requires 0 <= a <= |s| && t == s[a..] && |r| <= |t| && r == t[..|r|] && AllWhitespace(t[|r|..])
    ensures a + |r| <= |s| && r == s[a..a + |r|] && AllWhitespace(s[a + |r|..])
  {
    assert s[a + |r|..] == t[|r|..];
  }

  /** `s.trim().length > 0`, the test every form in the client applies to its fields. */
  predicate IsFilled(s: string) {
    |Trim(s)| > 0
  }

  /** The empty string is not filled. */
  lemma EmptyNotFilled()
    ensures !IsFilled("")
  {
    assert TrimStart("") == "";
  }

  /** A string trims to the empty string exactly when it consists of white space only. */
  lemma TrimEmptyIff(s: string)
    ensures Trim(s) == [] <==> AllWhitespace(s)
  {
    var t := TrimStart(s);
    if Trim(s) == [] {
      // What `TrimEnd` dropped is all of `t`, and `t` cannot start with white space.
      assert AllWhitespace(t[0..]);
      assert t == [];
      assert s[..|s|] == s;
    }
    if AllWhitespace(s) {
      TrimStartAllWhitespace(s);
    }
  }

  /** White space only is trimmed away entirely at the start. */
  lemma {:induction false} TrimStartAllWhitespace(s: string)
    requires AllWhitespace(s)
    ensures TrimStart(s) == []
    decreases |s|
  {
    if s != [] {
      assert AllWhitespace(s[1..]) by {
        forall i | 0 <= i < |s[1..]| ensures IsWhitespace(s[1..][i]) {
          assert s[1..][i] == s[i + 1];
        }
      }
      TrimStartAllWhitespace(s[1..]);
    }
  }

  /** A field is filled exactly when it holds a character that is not white space. */
  lemma IsFilledIff(s: string)
    ensures IsFilled(s) <==> exists i :: 0 <= i < |s| && !IsWhitespace(s[i])
  {
    TrimEmptyIff(s);
  }

  /** Trimming twice is trimming once. */
  lemma TrimIdempotent(s: string)
    ensures Trim(Trim(s)) == Trim(s)
  {
    var r := Trim(s);
    if r != [] {
      assert TrimStart(r) == r;
      assert TrimEnd(r) == r;
    }
  }
}
