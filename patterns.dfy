/**
 * The two regular expressions of the endpoints as hand-written recognisers,
 * each proved equal to a description of the strings its pattern matches:
 * the phone pattern `^\+?[1-9]\d{7,14}$` (index.js:51) and the contact email
 * pattern `^[^\s@]+@[^\s@]+\.[^\s@]+$` (index.js:113). Neither pattern has
 * the `g` or `y` flag, so `.test` keeps no state between calls.
 */
module Patterns {
  import opened JsText
  import opened JsValue

  predicate AllDigits(s: string) {
    forall i :: 0 <= i < |s| ==> IsAsciiDigit(s[i])
  }

  /** The phone number without its optional leading `+`. */
  function DigitPart(s: string): (d: string)
    ensures s == d || s == "+" + d
  {
    if |s| > 0 && s[0] == '+' then s[1..] else s
  }

  /**
   * The phone recogniser: after an optional `+`, 8 to 15 ASCII digits of
   * which the first is not `0`.
   */
  predicate IsE164(s: string) {
    var d := DigitPart(s);
    8 <= |d| <= 15 && AllDigits(d) && d[0] != '0'
  }

  /** `[1-9]\d{7,14}$` matched from position `p` of `s`. */
  predicate PhoneTailAt(s: string, p: nat) {
    && p < |s|
    && '1' <= s[p] <= '9'
    && 7 <= |s| - (p + 1) <= 14
    && AllDigits(s[p + 1..])
  }

  /** `^\+?[1-9]\d{7,14}$`: the optional `+` is either skipped or consumed. */
  predicate PhonePattern(s: string) {
    PhoneTailAt(s, 0) || (|s| > 0 && s[0] == '+' && PhoneTailAt(s, 1))
  }

  /** The recogniser accepts exactly the strings the phone pattern matches. */
  lemma E164MatchesPattern(s: string)
    ensures IsE164(s) <==> PhonePattern(s)
  {
    if IsE164(s) {
      var d := DigitPart(s);
      var p := |s| - |d|;
      assert d == s[p..];
      assert s[p + 1..] == d[1..];
      assert PhoneTailAt(s, p);
    }
    if PhoneTailAt(s, 0) {
      assert s[0] != '+';
      assert DigitPart(s) == s;
      assert s == [s[0]] + s[1..];
    }
    if |s| > 0 && s[0] == '+' && PhoneTailAt(s, 1) {
      assert DigitPart(s) == s[1..];
      assert s[1..] == [s[1]] + s[2..];
    }
  }

  /** `[^\s@]`. */
  predicate EmailChar(c: char) {
    !IsWhitespace(c) && c != '@'
  }

  /** `[^\s@]+`. */
  predicate EmailRun(w: string) {
    |w| > 0 && forall i :: 0 <= i < |w| ==> EmailChar(w[i])
  }

  /**
   * `^[^\s@]+@[^\s@]+\.[^\s@]+$`: an `@` at `i` and a `.` at `j` splitting
   * `s` into three non-empty runs of characters that are neither whitespace
   * nor `@`.
   */
  ghost predicate EmailPattern(s: string) {
    exists i, j | 0 < i && i + 1 < j && j + 1 < |s| ::
      && s[i] == '@' && s[j] == '.'
      && EmailRun(s[..i]) && EmailRun(s[i + 1..j]) && EmailRun(s[j + 1..])
  }

  /** Position of the first `c` in `s`, or `|s|` when there is none. */
  function IndexOf(s: string, c: char): (k: nat)
    ensures k <= |s|
    ensures k < |s| ==> s[k] == c
    ensures forall m :: 0 <= m < k ==> s[m] != c
  {
    if s == [] then 0
    else if s[0] == c then 0
    else 1 + IndexOf(s[1..], c)
  }

  /**
   * The email recogniser: no whitespace, exactly one `@`, a non-empty part
   * before it, and a `.` in the part after it that is neither that part's
   * first nor its last character.
   */
  predicate IsEmailShape(s: string) {
    var at := IndexOf(s, '@');
    && (forall k :: 0 <= k < |s| ==> !IsWhitespace(s[k]))
    && 0 < at < |s|
    && '@' !in s[at + 1..]
    && exists k :: at + 1 < k < |s| - 1 && s[k] == '.'
  }

  /** The recogniser accepts exactly the strings the email pattern matches. */
  lemma EmailShapeMatchesPattern(s: string)
    ensures IsEmailShape(s) <==> EmailPattern(s)
  {
    if IsEmailShape(s) {
      var at := IndexOf(s, '@');
      var j :| at + 1 < j < |s| - 1 && s[j] == '.';
      assert forall k :: at < k < |s| ==> s[k] != '@' by {
        forall k | at < k < |s| ensures s[k] != '@' {
          assert s[k] == s[at + 1..][k - at - 1];
        }
      }
      assert EmailRun(s[..at]);
      assert EmailRun(s[at + 1..j]);
      assert EmailRun(s[j + 1..]);
    }
    if EmailPattern(s) {
      var i, j :| 0 < i && i + 1 < j && j + 1 < |s|
        && s[i] == '@' && s[j] == '.'
        && EmailRun(s[..i]) && EmailRun(s[i + 1..j]) && EmailRun(s[j + 1..]);
      EmailPatternChars(s, i, j);
      assert IndexOf(s, '@') == i;
      assert '@' !in s[i + 1..];
    }
  }

  /** In a matched email, only position `i` holds `@` and no position holds whitespace. */
  lemma EmailPatternChars(s: string, i: nat, j: nat)
    requires 0 < i && i + 1 < j && j + 1 < |s|
    requires s[i] == '@' && s[j] == '.'
    requires EmailRun(s[..i]) && EmailRun(s[i + 1..j]) && EmailRun(s[j + 1..])
    ensures forall k :: 0 <= k < |s| ==> !IsWhitespace(s[k])
    ensures forall k :: 0 <= k < |s| && k != i ==> s[k] != '@'
  {
    forall k | 0 <= k < |s| && k != i && k != j
      ensures EmailChar(s[k])
    {
      if k < i {
        assert s[k] == s[..i][k];
      } else if k < j {
        assert s[k] == s[i + 1..j][k - i - 1];
      } else {
        assert s[k] == s[j + 1..][k - j - 1];
      }
    }
  }
}
