/**
 * The two field cleaners shared by the endpoints (index.js:50 and
 * index.js:52): `safe`, which bounds and tidies a free-text field, and
 * `normalizePhone`, which strips the punctuation people type into phone
 * numbers.
 */
module Fields {
  import opened JsText
  import opened JsValue

  predicate NotCarriageReturn(c: char) {
    c != '\r'
  }

  /** Characters kept by `.replace(/[()\s-]/g, "")`. */
  predicate NotPhoneSeparator(c: char) {
    c != '(' && c != ')' && c != '-' && !IsWhitespace(c)
  }

  /**
   * `safe(v, max)`: `String(v ?? "")`, every carriage return removed, cut to
   * the first `max` characters, then trimmed. The result fits the limit,
   * holds no carriage return, has no whitespace at either end, and an absent
   * or null field gives the empty string.
   */
  function Safe(v: Value, max: nat): (r: string)
    ensures |r| <= max
    ensures '\r' !in r
    ensures Trimmed(r)
    ensures v.Undefined? || v.Null? ==> r == []
  {
    Trim(Take(Filter(NotCarriageReturn, ToJsString(Nullish(v, Str("")))), max))
  }

  /** A string that is already clean and short enough passes through `safe` unchanged. */
  lemma SafeKeepsClean(s: string, max: nat)
    requires '\r' !in s && |s| <= max && Trimmed(s)
    ensures Safe(Str(s), max) == s
  {
    assert ToJsString(Nullish(Str(s), Str(""))) == s;
    FilterKeepsAll(NotCarriageReturn, s);
    assert Take(s, max) == s;
    TrimTrimmed(s);
  }

  /** `safe` is idempotent for a fixed limit. */
  lemma SafeIdempotent(v: Value, max: nat)
    ensures Safe(Str(Safe(v, max)), max) == Safe(v, max)
  {
    SafeKeepsClean(Safe(v, max), max);
  }

  /**
   * A wider limit only extends the result: `safe(v, m)` is a prefix of
   * `safe(v, n)` when `m <= n` (so a subject's 80-character make is a prefix
   * of the body's 120-character one).
   */
  lemma SafeWiderLimitExtends(v: Value, m: nat, n: nat)
    requires m <= n
    ensures Safe(v, m) <= Safe(v, n)
  {
    var t := Filter(NotCarriageReturn, ToJsString(Nullish(v, Str(""))));
    assert Take(t, m) <= Take(t, n);
    TrimPrefix(Take(t, m), Take(t, n));
  }

  /**
   * `normalizePhone(v)`: `String(v || "")`, trimmed, with every `(`, `)`,
   * `-` and whitespace character removed. No such character remains, every
   * other character of the text survives (the trim is redundant), and a falsy
   * value gives "".
   */
  function NormalizePhone(v: Value): (r: string)
    ensures forall i :: 0 <= i < |r| ==> NotPhoneSeparator(r[i])
    ensures r == Filter(NotPhoneSeparator, ToJsString(OrElse(v, Str(""))))
    ensures !Truthy(v) ==> r == []
  {
    var s := ToJsString(OrElse(v, Str("")));
    FilterIgnoresTrim(NotPhoneSeparator, s);
    Filter(NotPhoneSeparator, Trim(s))
  }

  /** A string field is normalised by removing the separators from its own text. */
  lemma NormalizePhoneOfText(s: string)
    ensures NormalizePhone(Str(s)) == Filter(NotPhoneSeparator, s)
  {
    if s == [] {
      assert NormalizePhone(Str(s)) == [];
      assert Filter(NotPhoneSeparator, s) == [];
    } else {
      assert OrElse(Str(s), Str("")) == Str(s);
    }
  }

  /** Any value other than `undefined` and `null` is cleaned as the string `String` prints for it. */
  lemma SafePrints(v: Value, max: nat)
    requires !v.Undefined? && !v.Null?
    ensures Safe(v, max) == Safe(Str(ToJsString(v)), max)
  {
  }

  /**
   * `safe` and `normalizePhone` default differently: `false` and `0` are
   * printed by the first (which falls back only on `undefined` and `null`)
   * and dropped by the second (which falls back on every falsy value).
   */
  lemma DefaultsDiffer(v: Value, max: nat)
    requires v == Num(0) || v == Bool(false)
    requires max >= 5
    ensures NormalizePhone(v) == []
    ensures Safe(v, max) == ToJsString(v) != []
  {
    PrintedDefault(v);
    SafePrints(v, max);
    SafeKeepsClean(ToJsString(v), max);
  }

  /** `0` and `false` print as `"0"` and `"false"`: short, clean, non-empty. */
  lemma PrintedDefault(v: Value)
    requires v == Num(0) || v == Bool(false)
    ensures var s := ToJsString(v); 0 < |s| <= 5 && '\r' !in s && Trimmed(s)
  {
    var s := ToJsString(v);
    assert s == "0" || s == "false";
  }
}
