/**
 * `String.prototype.trim` as the route uses it on every text field of a submitted form.
 * ECMAScript removes, from both ends, the characters of its WhiteSpace and LineTerminator
 * productions.
 */
module JsText {
  import opened Wrappers

  /** A string value read where it may be `undefined`: JavaScript counts it true when it is present and not empty. */
  predicate Truthy(v: Option<string>) {
    v.Some? && v.value != ""
  }

  /** `m[key]` as JavaScript reads it from a record of strings: `undefined` when the key is absent. */
  function Lookup(m: map<string, string>, key: string): (r: Option<string>)
    ensures r.Some? <==> key in m
    ensures r.Some? ==> r.value == m[key]
  {
    if key in m then Some(m[key]) else None
  }

  /** WhiteSpace (TAB, VT, FF, ZWNBSP and every space separator) and LineTerminator (LF, CR, LS, PS). */
  predicate IsJsWhitespace(c: char) {
    || c == '\t' || c == '\n' || c == '\U{000B}' || c == '\U{000C}' || c == '\r' || c == ' '
    || c == '\U{00A0}' || c == '\U{1680}' || ('\U{2000}' <= c <= '\U{200A}')
    || c == '\U{2028}' || c == '\U{2029}' || c == '\U{202F}' || c == '\U{205F}'
    || c == '\U{3000}' || c == '\U{FEFF}'
  }

  /** Every character of `s` is whitespace. */
  predicate AllWhitespace(s: string)
    decreases |s|
  {
    s == [] || (IsJsWhitespace(s[0]) && AllWhitespace(s[1..]))
  }

  /** A string that begins or ends with whitespace; `trim` never returns one. */
  predicate HasEdgeWhitespace(s: string) {
    |s| > 0 && (IsJsWhitespace(s[0]) || IsJsWhitespace(s[|s| - 1]))
  }

  /** Drops the whitespace at the front: what is left is a suffix, and only whitespace went. */
  function TrimStart(s: string): (r: string)
    ensures |r| <= |s| && r == s[|s| - |r|..]
    ensures AllWhitespace(s[..|s| - |r|])
    ensures r == [] || !IsJsWhitespace(r[0])
    decreases |s|
  {
    if |s| > 0 && IsJsWhitespace(s[0]) then
      var r := TrimStart(s[1..]);
      assert s[..|s| - |r|][1..] == s[1..][..|s| - 1 - |r|];
      r
    else
      assert s[..0] == [];
      s
  }

  /** Drops the whitespace at the back: what is left is a prefix, and only whitespace went. */
  function TrimEnd(s: string): (r: string)
    ensures |r| <= |s| && r == s[..|r|]
    ensures AllWhitespace(s[|r|..])
    ensures r == [] || !IsJsWhitespace(r[|r| - 1])
    decreases |s|
  {
    if |s| > 0 && IsJsWhitespace(s[|s| - 1]) then
      var r := TrimEnd(s[..|s| - 1]);
      assert s[|r|..] == s[..|s| - 1][|r|..] + [s[|s| - 1]];
      AllWhitespaceConcat(s[..|s| - 1][|r|..], [s[|s| - 1]]);
      r
    else
      assert s[|s|..] == [];
      s
  }

  /** `r` is what is left of `s` once the `a` characters in front and the rest behind `r` are dropped, all of them whitespace. */
  predicate IsMiddle(s: string, a: int, r: string) {
    0 <= a && a + |r| <= |s| && s[a..a + |r|] == r && AllWhitespace(s[..a]) && AllWhitespace(s[a + |r|..])
  }

  /** `trim`: the middle of `s` once the whitespace on both sides has gone. */
  function Trim(s: string): (r: string)
    ensures |r| <= |s|
    ensures !HasEdgeWhitespace(r)
    ensures IsMiddle(s, |s| - |TrimStart(s)|, r)
  {
    var front := TrimStart(s);
    var r := TrimEnd(front);
    SplitAround(s, |s| - |front|, front, r);
    NoEdgeWhitespace(front, r);
    r
  }

  /** `r` is a prefix of the suffix `front` of `s`; the pieces of `s` around `r` are all whitespace. */
  lemma SplitAround(s: string, a: nat, front: string, r: string)
    requires a <= |s| && front == s[a..] && AllWhitespace(s[..a])
    requires |r| <= |front| && r == front[..|r|] && AllWhitespace(front[|r|..])
    ensures IsMiddle(s, a, r)
  {
    assert s[a + |r|..] == front[|r|..];
  }

  /** A prefix of a string that does not start with whitespace, itself not ending with whitespace, has no edge whitespace. */
  lemma NoEdgeWhitespace(front: string, r: string)
    requires front == [] || !IsJsWhitespace(front[0])
    requires |r| <= |front| && r == front[..|r|]
    requires r == [] || !IsJsWhitespace(r[|r| - 1])
    ensures !HasEdgeWhitespace(r)
  {
    if r != [] { assert r[0] == front[0]; }
  }

  /** Two whitespace runs make one. */
  lemma {:induction false} AllWhitespaceConcat(x: string, y: string)
    requires AllWhitespace(x) && AllWhitespace(y)
    ensures AllWhitespace(x + y)
    decreases |x|
  {
    if x == [] {
      assert x + y == y;
    } else {
      assert (x + y)[0] == x[0];
      assert (x + y)[1..] == x[1..] + y;
      AllWhitespaceConcat(x[1..], y);
    }
  }

  /** Each character of a whitespace run is whitespace. */
  lemma {:induction false} AllWhitespaceAt(s: string, k: int)
    requires 0 <= k < |s|
    ensures AllWhitespace(s) ==> IsJsWhitespace(s[k])
    decreases k
  {
    if k > 0 {
      AllWhitespaceAt(s[1..], k - 1);
    }
  }

  /** A string with no whitespace at its ends is its own trim. */
  lemma TrimKeepsTrimmed(s: string)
    requires !HasEdgeWhitespace(s)
    ensures Trim(s) == s
  {
    assert TrimStart(s) == s;
    assert TrimEnd(s) == s;
  }

  /** Trimming twice is trimming once. */
  lemma TrimIdempotent(s: string)
    ensures Trim(Trim(s)) == Trim(s)
  {
    TrimKeepsTrimmed(Trim(s));
  }

  /** The trim of `s` is empty exactly when `s` holds nothing but whitespace. */
  lemma TrimEmptyIff(s: string)
    ensures Trim(s) == [] <==> AllWhitespace(s)
  {
    var r := Trim(s);
    var a := |s| - |TrimStart(s)|;
    assert IsMiddle(s, a, r);
    if r == [] {
      assert s == s[..a] + s[a..];
      AllWhitespaceConcat(s[..a], s[a..]);
    } else {
      assert s[a] == r[0];
      AllWhitespaceAt(s, a);
    }
  }
}
