/**
 * The JavaScript string operations the form endpoints rely on, over strings
 * of characters from the Basic Multilingual Plane outside the surrogate
 * range, where one character is one UTF-16 code unit (the unit `.length`
 * and `.slice` count): the whitespace class shared by the regular-expression
 * escape `\s` and `String.prototype.trim`, a global character-class
 * `.replace(..., "")`, `.slice(0, n)` and `.trim()`.
 */
module JsText {

  /** ECMAScript WhiteSpace plus LineTerminator: the set matched by `\s` and removed by `trim`. */
  predicate IsWhitespace(c: char) {
    var n := c as int;
    || n == 0x09 || n == 0x0A || n == 0x0B || n == 0x0C || n == 0x0D   // TAB LF VT FF CR
    || n == 0x20 || n == 0xA0 || n == 0x1680                           // SP NBSP OGHAM SPACE
    || (0x2000 <= n <= 0x200A)                                         // EN QUAD .. HAIR SPACE
    || n == 0x2028 || n == 0x2029                                      // LS PS
    || n == 0x202F || n == 0x205F || n == 0x3000 || n == 0xFEFF         // NNBSP MMSP IDSP BOM
  }

  predicate AllWhitespace(s: string) {
    forall i :: 0 <= i < |s| ==> IsWhitespace(s[i])
  }

  /** A string with no whitespace at either end (the empty string included). */
  predicate Trimmed(s: string) {
    s == [] || (!IsWhitespace(s[0]) && !IsWhitespace(s[|s| - 1]))
  }

  /**
   * `s.replace(/[class]/g, "")`: every character outside the class `keep`
   * rejects is kept, in order.
   */
  function Filter(keep: char -> bool, s: string): (r: string)
    ensures |r| <= |s|
    ensures forall i :: 0 <= i < |r| ==> keep(r[i])
  {
    if s == [] then []
    else (if keep(s[0]) then [s[0]] else []) + Filter(keep, s[1..])
  }

  /** A character survives the removal exactly when it occurs in the input and is kept. */
  lemma {:induction false} FilterMembership(keep: char -> bool, s: string, c: char)
    ensures c in Filter(keep, s) <==> c in s && keep(c)
  {
    if s != [] {
      FilterMembership(keep, s[1..], c);
      assert s == [s[0]] + s[1..];
    }
  }

  /** Removing characters that are all kept changes nothing. */
  lemma {:induction false} FilterKeepsAll(keep: char -> bool, s: string)
    requires forall i :: 0 <= i < |s| ==> keep(s[i])
    ensures Filter(keep, s) == s
  {
    if s != [] {
      FilterKeepsAll(keep, s[1..]);
      assert [s[0]] + s[1..] == s;
    }
  }

  /** Removing characters none of which is kept leaves nothing. */
  lemma {:induction false} FilterDropsAll(keep: char -> bool, s: string)
    requires forall i :: 0 <= i < |s| ==> !keep(s[i])
    ensures Filter(keep, s) == []
  {
    if s != [] {
      FilterDropsAll(keep, s[1..]);
    }
  }

  /** Filtering distributes over concatenation. */
  lemma {:induction false} FilterAppend(keep: char -> bool, a: string, b: string)
    ensures Filter(keep, a + b) == Filter(keep, a) + Filter(keep, b)
  {
    if a == [] {
      assert a + b == b;
    } else {
      assert (a + b)[1..] == a[1..] + b;
      FilterAppend(keep, a[1..], b);
    }
  }

  /** Removing a class that contains all whitespace gives the same result with or without a prior trim. */
  lemma FilterIgnoresTrim(keep: char -> bool, s: string)
    requires forall c :: IsWhitespace(c) ==> !keep(c)
    ensures Filter(keep, Trim(s)) == Filter(keep, s)
  {
    var a, b := TrimDecomposes(s);
    FilterAppend(keep, a, Trim(s) + b);
    FilterAppend(keep, Trim(s), b);
    FilterDropsAll(keep, a);
    FilterDropsAll(keep, b);
  }

  /** `s.slice(0, n)` for a non-negative `n`. */
  function Take(s: string, n: nat): (r: string)
    ensures |r| == if n <= |s| then n else |s|
    ensures r <= s
  {
    if n <= |s| then s[..n] else s
  }

  /** `trimStart`: drop the leading whitespace. */
  function TrimStart(s: string): (r: string)
    ensures |r| <= |s| && r == s[|s| - |r|..]
    ensures AllWhitespace(s[..|s| - |r|])
    ensures r == [] || !IsWhitespace(r[0])
  {
    if s != [] && IsWhitespace(s[0]) then
      var r := TrimStart(s[1..]);
      assert s[..|s| - |r|] == [s[0]] + s[1..][..|s| - 1 - |r|];
      r
    else s
  }

  /** `trimEnd`: drop the trailing whitespace. */
  function TrimEnd(s: string): (r: string)
    ensures |r| <= |s| && r == s[..|r|]
    ensures AllWhitespace(s[|r|..])
    ensures r == [] || !IsWhitespace(r[|r| - 1])
  {
    if s != [] && IsWhitespace(s[|s| - 1]) then
      var p := s[..|s| - 1];
      var r := TrimEnd(p);
      assert s[|r|..] == p[|r|..] + [s[|s| - 1]];
      r
    else s
  }

  /** `trim`: both ends; the result has no whitespace at either end and is no longer than `s`. */
  function Trim(s: string): (r: string)
    ensures |r| <= |s|
    ensures Trimmed(r)
    ensures forall c :: c in r ==> c in s
  {
    TrimEnd(TrimStart(s))
  }

  lemma {:induction false} TrimStartSkips(a: string, t: string)
    requires AllWhitespace(a)
    requires t == [] || !IsWhitespace(t[0])
    ensures TrimStart(a + t) == t
  {
    if a == [] {
      assert a + t == t;
    } else {
      assert (a + t)[1..] == a[1..] + t;
      TrimStartSkips(a[1..], t);
    }
  }

  lemma {:induction false} TrimEndSkips(t: string, b: string)
    requires AllWhitespace(b)
    requires t == [] || !IsWhitespace(t[|t| - 1])
    ensures TrimEnd(t + b) == t
  {
    if b == [] {
      assert t + b == t;
    } else {
      assert (t + b)[..|t + b| - 1] == t + b[..|b| - 1];
      TrimEndSkips(t, b[..|b| - 1]);
    }
  }

  /**
   * Trim is determined by its result: whatever whitespace surrounds a string
   * with no whitespace at its ends, trimming gives back exactly that string.
   */
  lemma TrimExact(a: string, t: string, b: string)
    requires AllWhitespace(a) && AllWhitespace(b) && Trimmed(t)
    ensures Trim(a + t + b) == t
  {
    if t == [] {
      assert a + t + b == (a + b) + [];
      TrimStartSkips(a + b, []);
    } else {
      assert a + t + b == a + (t + b);
      TrimStartSkips(a, t + b);
      TrimEndSkips(t, b);
    }
  }

  /** Every string is its trim surrounded by whitespace: `s == a + Trim(s) + b`. */
  lemma TrimDecomposes(s: string) returns (a: string, b: string)
    ensures s == a + (Trim(s) + b) && AllWhitespace(a) && AllWhitespace(b)
  {
    var u := TrimStart(s);
    var t := TrimEnd(u);
    a, b := s[..|s| - |u|], u[|t|..];
    SplitAt(u, |t|);
    SplitAt(s, |s| - |u|);
  }

  lemma SplitAt(s: string, k: nat)
    requires k <= |s|
    ensures s == s[..k] + s[k..]
  {
  }

  /** Trimming a trimmed string changes nothing. */
  lemma TrimTrimmed(s: string)
    requires Trimmed(s)
    ensures Trim(s) == s
  {
    TrimExact([], s, []);
    assert [] + s + [] == s;
  }

  /** Trimming keeps prefixes: the trim of a prefix is a prefix of the trim. */
  lemma {:induction false} TrimStartPrefix(p: string, q: string)
    requires p <= q
    ensures TrimStart(p) <= TrimStart(q)
  {
    if p != [] && IsWhitespace(p[0]) {
      assert q[0] == p[0];
      TrimStartPrefix(p[1..], q[1..]);
    }
  }

  lemma TrimEndPrefix(p: string, q: string)
    requires p <= q
    ensures TrimEnd(p) <= TrimEnd(q)
  {
    var k := |TrimEnd(p)|;
    if k > 0 {
      assert q[k - 1] == p[k - 1];
    }
  }

  lemma TrimPrefix(p: string, q: string)
    requires p <= q
    ensures Trim(p) <= Trim(q)
  {
    TrimStartPrefix(p, q);
    TrimEndPrefix(TrimStart(p), TrimStart(q));
  }
}
