/** Text helpers with the semantics of the Python string operations the core uses:
    str.isspace, str.strip, and slicing a prefix (s[:n]). */
module Text {

  /** The characters Python's str.isspace accepts: ASCII whitespace, the information separators
      U+001C..U+001F, NEL, NBSP, the Unicode space separators, and the line/paragraph separators. */
  const SpaceChars: set<char> := {' ', '\t', '\n', '\r', '\U{0B}', '\U{0C}', '\U{1C}', '\U{1D}', '\U{1E}', '\U{1F}', '\U{85}', '\U{A0}', '\U{1680}', '\U{2000}', '\U{2001}', '\U{2002}', '\U{2003}', '\U{2004}', '\U{2005}', '\U{2006}', '\U{2007}', '\U{2008}', '\U{2009}', '\U{200A}', '\U{2028}', '\U{2029}', '\U{202F}', '\U{205F}', '\U{3000}'}

  predicate IsSpace(c: char) {
    c in SpaceChars
  }

  /** Every character of s is whitespace (so s.strip() == ""). */
  predicate IsBlank(s: string) {
    forall i :: 0 <= i < |s| ==> IsSpace(s[i])
  }

  /** s.lstrip(): the suffix of s that starts at its first non-whitespace character. */
  function TrimLeft(s: string): (r: string)
    ensures |r| <= |s| && r == s[|s| - |r|..]
    ensures IsBlank(s[..|s| - |r|])
    ensures r == [] || !IsSpace(r[0])
  {
    if s == [] then s
    else if IsSpace(s[0]) then
      var r := TrimLeft(s[1..]);
      assert s[1..][..|s[1..]| - |r|] == s[1..|s| - |r|];
      r
    else s
  }

  /** s.rstrip(): the prefix of s that ends at its last non-whitespace character. */
  function TrimRight(s: string): (r: string)
    ensures |r| <= |s| && r == s[..|r|]
    ensures IsBlank(s[|r|..])
    ensures r == [] || !IsSpace(r[|r| - 1])
  {
    if s == [] then s
    else if IsSpace(s[|s| - 1]) then
      var r := TrimRight(s[..|s| - 1]);
      assert s[..|s| - 1][|r|..] + [s[|s| - 1]] == s[|r|..];
      r
    else s
  }

  /** s.strip(). */
  function Strip(s: string): (r: string)
  {
    TrimRight(TrimLeft(s))
  }

  /** s.strip() is empty exactly when every character of s is whitespace. */
  lemma {:induction false} StripEmptyIffBlank(s: string)
    ensures Strip(s) == "" <==> IsBlank(s)
  {
    if Strip(s) == "" {
      StripEmptyIsBlank(s);
    } else {
      var l := TrimLeft(s);
      var k := |s| - |l|;
      assert l[0] == s[k];
    }
  }

  lemma {:induction false} StripEmptyIsBlank(s: string)
    requires Strip(s) == ""
    ensures IsBlank(s)
  {
    var l := TrimLeft(s);
    var k := |s| - |l|;
    assert IsBlank(l) by { assert l[0..] == l; }
    assert s == s[..k] + l;
    BlankConcat(s[..k], l);
  }

  lemma {:induction false} BlankConcat(a: string, b: string)
    requires IsBlank(a) && IsBlank(b)
    ensures IsBlank(a + b)
  {
    forall i | 0 <= i < |a + b| ensures IsSpace((a + b)[i]) {
      if i < |a| { assert (a + b)[i] == a[i]; } else { assert (a + b)[i] == b[i - |a|]; }
    }
  }

  /** A non-empty s.strip() starts and ends with a non-whitespace character and is the piece
      s[i..j] of s for some i <= j. */
  lemma {:induction false} StripIsTrimmedSlice(s: string)
    ensures Strip(s) != "" ==> !IsSpace(Strip(s)[0]) && !IsSpace(Strip(s)[|Strip(s)| - 1])
    ensures exists i, j :: 0 <= i <= j <= |s| && Strip(s) == s[i..j]
  {
    var l := TrimLeft(s);
    var r := TrimRight(l);
    var k := |s| - |l|;
    assert r == l[..|r|];
    if r != "" {
      assert r[0] == l[0];
    }
    assert r == s[k..k + |r|];
  }

  /** s[:n], Python's prefix slice, which clamps n to |s|. */
  function Prefix(s: string, n: nat): (r: string)
    ensures |r| == if |s| < n then |s| else n
    ensures r <= s
  {
    if |s| <= n then s else s[..n]
  }

  /** Concatenation is associative; stated once so that proofs over long concatenations need not
      rediscover it. */
  lemma ConcatAssoc<T>(a: seq<T>, b: seq<T>, c: seq<T>)
    ensures (a + b) + c == a + (b + c)
  {
  }
}
