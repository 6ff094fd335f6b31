/**
 * The JavaScript string built-ins the core relies on: `String.prototype.trim`
 * and `Array.prototype.join`. A `string` here is a sequence of Unicode scalar
 * values; JavaScript's strings are UTF-16 code units, and the two agree on text
 * within the Basic Multilingual Plane, where every whitespace character lies.
 */
module JsStrings {

  /** The code units `trim` removes: ECMAScript WhiteSpace and LineTerminator. */
  predicate IsWhitespace(c: char) {
    c == '\t' || c == '\n' || c == '\U{B}' || c == '\U{C}' || c == '\r' || c == ' '
    || c == '\U{A0}' || c == '\U{1680}' || ('\U{2000}' <= c <= '\U{200A}')
    || c == '\U{2028}' || c == '\U{2029}' || c == '\U{202F}' || c == '\U{205F}'
    || c == '\U{3000}' || c == '\U{FEFF}'
  }

  predicate AllWhitespace(s: string) {
    forall i :: 0 <= i < |s| ==> IsWhitespace(s[i])
  }

  lemma AllWhitespaceConcat(a: string, b: string)
    ensures AllWhitespace(a + b) <==> AllWhitespace(a) && AllWhitespace(b)
  {
    if AllWhitespace(a) && AllWhitespace(b) {
      forall i | 0 <= i < |a + b| ensures IsWhitespace((a + b)[i]) {
        if i < |a| { assert (a + b)[i] == a[i]; } else { assert (a + b)[i] == b[i - |a|]; }
      }
    }
    if AllWhitespace(a + b) {
      forall i | 0 <= i < |a| ensures IsWhitespace(a[i]) { assert (a + b)[i] == a[i]; }
      forall i | 0 <= i < |b| ensures IsWhitespace(b[i]) { assert (a + b)[|a| + i] == b[i]; }
    }
  }

  /** `s.trimStart()`: leading whitespace removed. */
  function TrimStart(s: string): string {
    if |s| > 0 && IsWhitespace(s[0]) then TrimStart(s[1..]) else s
  }

  /** `s.trimEnd()`: trailing whitespace removed. */
  function TrimEnd(s: string): string {
    if |s| > 0 && IsWhitespace(s[|s| - 1]) then TrimEnd(s[..|s| - 1]) else s
  }

  /** `s.trim()`: leading and trailing whitespace removed. */
  function Trim(s: string): string {
    TrimEnd(TrimStart(s))
  }

  /** `xs.join(sep)`. */
  function Join(xs: seq<string>, sep: string): string
    decreases |xs|
  {
    if |xs| == 0 then ""
    else if |xs| == 1 then xs[0]
    else Join(xs[..|xs| - 1], sep) + sep + xs[|xs| - 1]
  }

  lemma SliceOfSuffix<T>(s: seq<T>, i: nat, n: nat)
    requires i + n <= |s|
    ensures s[i..][..n] == s[i..i + n] && s[i..][n..] == s[i + n..]
  {
  }

  /** `trimStart` drops a whitespace prefix `s[..i]` and keeps `s[i..]`, which
      does not start with whitespace. */
  lemma {:induction false} TrimStartSlice(s: string) returns (i: nat)
    ensures i <= |s| && TrimStart(s) == s[i..] && AllWhitespace(s[..i])
    ensures i < |s| ==> !IsWhitespace(s[i])
    decreases |s|
  {
    if |s| > 0 && IsWhitespace(s[0]) {
      var k := TrimStartSlice(s[1..]);
      i := k + 1;
      assert s[1..][k..] == s[i..];
      assert s[..i] == [s[0]] + s[1..][..k];
      AllWhitespaceConcat([s[0]], s[1..][..k]);
      if i < |s| {
        assert s[i] == s[1..][k];
      }
    } else {
      i := 0;
      assert s[..0] == [];
    }
  }

  /** `trimEnd` drops a whitespace suffix `s[j..]` and keeps `s[..j]`, which
      does not end with whitespace. */
  lemma {:induction false} TrimEndSlice(s: string) returns (j: nat)
    ensures j <= |s| && TrimEnd(s) == s[..j] && AllWhitespace(s[j..])
    ensures 0 < j ==> !IsWhitespace(s[j - 1])
    decreases |s|
  {
    if |s| > 0 && IsWhitespace(s[|s| - 1]) {
      var p := s[..|s| - 1];
      j := TrimEndSlice(p);
      assert p[..j] == s[..j];
      assert s[j..] == p[j..] + [s[|s| - 1]];
      AllWhitespaceConcat(p[j..], [s[|s| - 1]]);
      if 0 < j {
        assert s[j - 1] == p[j - 1];
      }
    } else {
      j := |s|;
      assert s[..|s|] == s;
      assert s[|s|..] == [];
    }
  }

  /** Trimming yields a slice `s[i..j]` of the input whose cut-off ends are
      whitespace and whose own ends are not. */
  lemma TrimIsSlice(s: string) returns (i: nat, j: nat)
    ensures i <= j <= |s| && Trim(s) == s[i..j]
    ensures AllWhitespace(s[..i]) && AllWhitespace(s[j..])
    ensures i < j ==> !IsWhitespace(s[i]) && !IsWhitespace(s[j - 1])
  {
    i := TrimStartSlice(s);
    var t := s[i..];
    var k := TrimEndSlice(t);
    j := i + k;
    SliceOfSuffix(s, i, k);
    if i < j {
      assert s[j - 1] == t[k - 1];
    }
  }

  /** A string trims to the empty string exactly when it is all whitespace. */
  lemma TrimEmptyIffWhitespace(s: string)
    ensures Trim(s) == "" <==> AllWhitespace(s)
  {
    var i, j := TrimIsSlice(s);
    if AllWhitespace(s) {
      assert s == s[..i] + s[i..j] + s[j..];
      AllWhitespaceConcat(s[..i] + s[i..j], s[j..]);
      AllWhitespaceConcat(s[..i], s[i..j]);
    }
    if Trim(s) == "" {
      assert s == s[..i] + s[j..];
      AllWhitespaceConcat(s[..i], s[j..]);
    }
  }

  /** A string without whitespace at either end is its own trim. */
  lemma TrimmedFixed(t: string)
    requires t == [] || (!IsWhitespace(t[0]) && !IsWhitespace(t[|t| - 1]))
    ensures Trim(t) == t
  {
    assert TrimStart(t) == t;
  }

  /** A string starting with a non-whitespace character trims to a non-empty
      prefix of itself. */
  lemma TrimOfNonBlankStart(h: string)
    requires |h| > 0 && !IsWhitespace(h[0])
    ensures 0 < |Trim(h)| <= |h| && Trim(h) == h[..|Trim(h)|]
  {
    assert TrimStart(h) == h;
    var j := TrimEndSlice(h);
    assert !AllWhitespace(h[0..]) by {
      assert h[0..][0] == h[0];
    }
  }

  /** Trimming an already trimmed string changes nothing. */
  lemma TrimIdempotent(s: string)
    ensures Trim(Trim(s)) == Trim(s)
  {
    var i, j := TrimIsSlice(s);
    var t := Trim(s);
    if t != [] {
      assert t[0] == s[i] && t[|t| - 1] == s[j - 1];
    }
    TrimmedFixed(t);
  }

  /** With a non-empty separator, a join is empty exactly when there is nothing
      to join or a single empty element. */
  lemma {:induction false} JoinEmptyIff(xs: seq<string>, sep: string)
    requires sep != ""
    ensures Join(xs, sep) == "" <==> (|xs| == 0 || (|xs| == 1 && xs[0] == ""))
    decreases |xs|
  {
    if |xs| > 1 {
      assert |Join(xs, sep)| >= |sep|;
    }
  }

  /** With the empty separator, a join is empty exactly when every element is. */
  lemma {:induction false} ConcatEmptyIff(xs: seq<string>)
    ensures Join(xs, "") == "" <==> forall i :: 0 <= i < |xs| ==> xs[i] == ""
    decreases |xs|
  {
    if |xs| > 1 {
      ConcatEmptyIff(xs[..|xs| - 1]);
      var init := xs[..|xs| - 1];
      assert forall i :: 0 <= i < |xs| - 1 ==> xs[i] == init[i];
    }
  }
}
