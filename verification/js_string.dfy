/** The part of JavaScript's string semantics the header form relies on:
    `String.prototype.trim`, which removes leading and trailing white space
    and line terminators (sections 12.2 and 12.3 of ECMA-262). */
module JsString {

  /** The ECMAScript WhiteSpace and LineTerminator code points: tab, vertical
      tab, form feed, space, no-break space, byte order mark, the Unicode
      space separators, line feed, carriage return, line and paragraph
      separator. */
  predicate IsWhiteSpace(c: char) {
    || c == '\t' || c == '\U{000B}' || c == '\U{000C}' || c == ' '
    || c == '\U{00A0}' || c == '\U{FEFF}'
    || c == '\U{1680}' || ('\U{2000}' <= c <= '\U{200A}')
    || c == '\U{202F}' || c == '\U{205F}' || c == '\U{3000}'
    || c == '\n' || c == '\r' || c == '\U{2028}' || c == '\U{2029}'
  }

  predicate AllWhiteSpace(s: string) {
    forall i :: 0 <= i < |s| ==> IsWhiteSpace(s[i])
  }

  /** `t` is what trimming `s` must give: the middle slice of `s` obtained by
      cutting a white-space-only prefix and suffix, and which neither starts
      nor ends with white space. */
  ghost predicate IsTrimOf(t: string, s: string) {
    && (t == [] || (!IsWhiteSpace(t[0]) && !IsWhiteSpace(t[|t| - 1])))
    && exists i, j :: 0 <= i <= j <= |s| && t == s[i..j] && AllWhiteSpace(s[..i]) && AllWhiteSpace(s[j..])
  }

  /** Drops leading white space. */
  function TrimStart(s: string): (r: string)
    ensures |r| <= |s| && r == s[|s| - |r|..]
    ensures AllWhiteSpace(s[..|s| - |r|])
    ensures r == [] || !IsWhiteSpace(r[0])
  {
    if |s| > 0 && IsWhiteSpace(s[0]) then
      var r := TrimStart(s[1..]);
      assert s[..|s| - |r|] == [s[0]] + s[1..][..|s| - 1 - |r|];
      r
    else s
  }

  /** Drops trailing white space. */
  function TrimEnd(s: string): (r: string)
    ensures |r| <= |s| && r == s[..|r|]
    ensures AllWhiteSpace(s[|r|..])
    ensures r == [] || !IsWhiteSpace(r[|r| - 1])
  {
    if |s| > 0 && IsWhiteSpace(s[|s| - 1]) then
      var t := s[..|s| - 1];
      var r := TrimEnd(t);
      assert s[..|r|] == t[..|r|];
      assert s[|r|..] == t[|r|..] + [s[|s| - 1]];
      r
    else s
  }

  /** `String.prototype.trim`. The result is empty exactly when the input is
      white space only, which is what the form's emptiness test relies on. */
  function Trim(s: string): (r: string)
    ensures IsTrimOf(r, s)
    ensures r == [] <==> AllWhiteSpace(s)
  {
    var a := TrimStart(s);
    var r := TrimEnd(a);
    var i := |s| - |a|;
    assert s[i..i + |r|] == r;
    assert s[i + |r|..] == a[|r|..];
    assert r == [] ==> a == [] && s == s[..i];
    r
  }

  /** A white-space-only prefix, stated index by index. */
  lemma WhiteSpacePrefix(s: string, n: int)
    requires 0 <= n <= |s| && AllWhiteSpace(s[..n])
    ensures forall k :: 0 <= k < n ==> IsWhiteSpace(s[k])
  {
    forall k | 0 <= k < n ensures IsWhiteSpace(s[k]) {
      assert s[..n][k] == s[k];
    }
  }

  /** A white-space-only suffix, stated index by index. */
  lemma WhiteSpaceSuffix(s: string, n: int)
    requires 0 <= n <= |s| && AllWhiteSpace(s[n..])
    ensures forall k :: n <= k < |s| ==> IsWhiteSpace(s[k])
  {
    forall k | n <= k < |s| ensures IsWhiteSpace(s[k]) {
      assert s[n..][k - n] == s[k];
    }
  }

  /** Index `i` holds the first non-white-space character of `s`. */
  ghost predicate FirstNonWhiteSpace(s: string, i: int) {
    0 <= i < |s| && !IsWhiteSpace(s[i]) && forall k :: 0 <= k < i ==> IsWhiteSpace(s[k])
  }

  /** Index `j - 1` holds the last non-white-space character of `s`. */
  ghost predicate LastNonWhiteSpace(s: string, j: int) {
    0 < j <= |s| && !IsWhiteSpace(s[j - 1]) && forall k :: j <= k < |s| ==> IsWhiteSpace(s[k])
  }

  /** What one slice witnessing `IsTrimOf(t, s)` says about `s`: an empty trim
      means `s` is all white space, a non-empty one is cut exactly at the first
      and last non-white-space characters. */
  lemma TrimWitness(t: string, s: string, i: int, j: int)
    requires t == [] || (!IsWhiteSpace(t[0]) && !IsWhiteSpace(t[|t| - 1]))
    requires 0 <= i <= j <= |s| && t == s[i..j] && AllWhiteSpace(s[..i]) && AllWhiteSpace(s[j..])
    ensures t == [] ==> AllWhiteSpace(s)
    ensures t != [] ==> FirstNonWhiteSpace(s, i) && LastNonWhiteSpace(s, j)
  {
    WhiteSpacePrefix(s, i);
    WhiteSpaceSuffix(s, j);
    if t != [] {
      assert s[i] == t[0] && s[j - 1] == t[|t| - 1];
    }
  }

  /** There is only one trim of a string: `IsTrimOf` is a complete
      specification of `Trim`. */
  lemma TrimIsUnique(t: string, u: string, s: string)
    requires IsTrimOf(t, s) && IsTrimOf(u, s)
    ensures t == u
  {
    var i, j :| 0 <= i <= j <= |s| && t == s[i..j] && AllWhiteSpace(s[..i]) && AllWhiteSpace(s[j..]);
    var i', j' :| 0 <= i' <= j' <= |s| && u == s[i'..j'] && AllWhiteSpace(s[..i']) && AllWhiteSpace(s[j'..]);
    TrimWitness(t, s, i, j);
    TrimWitness(u, s, i', j');
    if t != [] && u != [] {
      assert i == i' && j == j';
    } else {
      assert t == [] && u == [];
    }
  }

  /** Trimming twice changes nothing. */
  lemma TrimIdempotent(s: string)
    ensures Trim(Trim(s)) == Trim(s)
  {
    var t := Trim(s);
    assert IsTrimOf(t, t) by {
      assert t == t[0..|t|] && t[..0] == [] && t[|t|..] == [];
    }
    TrimIsUnique(Trim(t), t, t);
  }
}
