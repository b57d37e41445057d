/** JavaScript string helpers used by the dashboard's input guards:
    `String.prototype.trim` and the "blank query" test `!s.trim()`. */
module Text {

  /** The characters `trim` strips: ECMAScript WhiteSpace (tab, vertical tab,
      form feed, no-break space, byte-order mark and every space separator)
      and LineTerminator (line feed, carriage return, U+2028, U+2029). */
  predicate IsSpace(c: char) {
    || c == '\U{9}' || c == '\U{A}' || c == '\U{B}' || c == '\U{C}' || c == '\U{D}'
    || c == '\U{20}' || c == '\U{A0}' || c == '\U{1680}'
    || ('\U{2000}' <= c <= '\U{200A}')
    || c == '\U{2028}' || c == '\U{2029}' || c == '\U{202F}' || c == '\U{205F}'
    || c == '\U{3000}' || c == '\U{FEFF}'
  }

  /** Every character is whitespace. */
  predicate AllSpace(s: string) {
    forall i :: 0 <= i < |s| ==> IsSpace(s[i])
  }

  /** How many whitespace characters `s` starts with. */
  function LeadingSpaces(s: string): (n: nat)
    ensures n <= |s| && AllSpace(s[..n])
    ensures n == |s| || !IsSpace(s[n])
  {
    if s != [] && IsSpace(s[0]) then
      var m := LeadingSpaces(s[1..]);
      assert s[..m + 1] == [s[0]] + s[1..][..m];
      m + 1
    else 0
  }

  /** Where the whitespace `s` ends with begins. */
  function TrailingStart(s: string): (n: nat)
    ensures n <= |s| && AllSpace(s[n..])
    ensures n == 0 || !IsSpace(s[n - 1])
  {
    if s != [] && IsSpace(s[|s| - 1]) then
      var m := TrailingStart(s[..|s| - 1]);
      assert s[m..] == s[..|s| - 1][m..] + [s[|s| - 1]];
      m
    else |s|
  }

  /** Drops leading whitespace: the result is the suffix of `s` that starts
      at its first non-space character. */
  function TrimStart(s: string): (r: string)
    ensures |r| <= |s| && r == s[|s| - |r|..]
    ensures r == [] || !IsSpace(r[0])
    ensures AllSpace(s[..|s| - |r|])
  {
    s[LeadingSpaces(s)..]
  }

  /** Drops trailing whitespace: the result is the prefix of `s` that ends
      at its last non-space character. */
  function TrimEnd(s: string): (r: string)
    ensures |r| <= |s| && r == s[..|r|]
    ensures r == [] || !IsSpace(r[|r| - 1])
    ensures AllSpace(s[|r|..])
  {
    s[..TrailingStart(s)]
  }

  /** The first piece of `s.split(sep)`: everything before the first `sep`. */
  function TakeUntil(s: string, sep: char): (r: string)
    ensures |r| <= |s| && r == s[..|r|]
    ensures sep !in r
    ensures |r| < |s| ==> s[|r|] == sep
  {
    if s == [] || s[0] == sep then []
    else [s[0]] + TakeUntil(s[1..], sep)
  }

  /** `s.trim()` */
  function Trim(s: string): (r: string)
    ensures |r| <= |s| && Trimmed(r)
  {
    TrimEnd(TrimStart(s))
  }

  predicate Trimmed(s: string) {
    s == [] || (!IsSpace(s[0]) && !IsSpace(s[|s| - 1]))
  }

  /** `!s.trim()`: the trimmed string is empty, i.e. falsy. */
  predicate IsBlank(s: string) {
    Trim(s) == []
  }

  /** The trimmed text is a contiguous slice of the input that neither starts
      nor ends with whitespace, and everything cut away is whitespace. */
  lemma TrimIsSlice(s: string)
    ensures var k := |s| - |TrimStart(s)|;
      && k + |Trim(s)| <= |s| && Trim(s) == s[k..k + |Trim(s)|]
      && AllSpace(s[..k]) && AllSpace(s[k + |Trim(s)|..])
  {
    var t := TrimStart(s);
    SuffixSpaces(s, |s| - |t|, t, TrimEnd(t));
  }

  /** Cutting the trailing whitespace of a suffix of `s` that starts with a
      non-space leaves a trimmed slice of `s` followed only by whitespace. */
  lemma SuffixSpaces(s: string, k: nat, t: string, r: string)
    requires k <= |s| && t == s[k..] && r == TrimEnd(t)
    requires t == [] || !IsSpace(t[0])
    ensures k + |r| <= |s| && r == s[k..k + |r|]
    ensures Trimmed(r)
    ensures AllSpace(s[k + |r|..])
  {
    assert r == t[..|r|];
    if r != [] {
      assert r[0] == t[0];
    }
    assert s[k + |r|..] == t[|r|..];
  }

  /** Trimming already-trimmed text changes nothing. */
  lemma TrimOfTrimmed(s: string)
    requires Trimmed(s)
    ensures Trim(s) == s
  {
    assert TrimStart(s) == s;
  }

  /** Leading whitespace before a non-space character is all that
      `TrimStart` drops. */
  lemma {:induction false} TrimStartPast(pad: string, t: string)
    requires AllSpace(pad) && (t == [] || !IsSpace(t[0]))
    ensures TrimStart(pad + t) == t
  {
    if pad != [] {
      assert (pad + t)[0] == pad[0] && (pad + t)[1..] == pad[1..] + t;
      TrimStartPast(pad[1..], t);
    } else {
      assert pad + t == t;
    }
  }

  /** Trailing whitespace after a non-space character is all that
      `TrimEnd` drops. */
  lemma {:induction false} TrimEndPast(t: string, pad: string)
    requires AllSpace(pad) && (t == [] || !IsSpace(t[|t| - 1]))
    ensures TrimEnd(t + pad) == t
  {
    if pad != [] {
      var s := t + pad;
      var shorter := pad[..|pad| - 1];
      assert s[|s| - 1] == pad[|pad| - 1];
      assert s[..|s| - 1] == t + shorter;
      TrimEndPast(t, shorter);
    } else {
      assert t + pad == t;
    }
  }

  /** Trimming whitespace-padded trimmed text gives that text back. */
  lemma TrimAroundTrimmed(pad: string, s: string, padEnd: string)
    requires AllSpace(pad) && AllSpace(padEnd) && Trimmed(s) && s != []
    ensures Trim(pad + s + padEnd) == s
  {
    assert pad + s + padEnd == pad + (s + padEnd);
    assert (s + padEnd)[0] == s[0];
    TrimStartPast(pad, s + padEnd);
    TrimEndPast(s, padEnd);
  }

  /** A query is blank exactly when every character of it is whitespace. */
  lemma BlankIffAllSpace(s: string)
    ensures IsBlank(s) <==> AllSpace(s)
  {
    TrimIsSlice(s);
    var k := |s| - |TrimStart(s)|;
    if IsBlank(s) {
      assert k == |s|;
      forall i | 0 <= i < |s| ensures IsSpace(s[i]) {
        assert s[i] == s[..k][i];
      }
    } else {
      assert !IsSpace(Trim(s)[0]) && Trim(s)[0] == s[k];
    }
  }
}
