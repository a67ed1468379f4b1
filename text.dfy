/** The string operations the dashboard relies on: decimal rendering of a
    count inside a template literal (`h${n}`), `parseInt` of a decimal id,
    `toLowerCase` and `includes` for search boxes, `trim()` emptiness for
    form guards and `.length` for the password rule. */
module Text {
  import opened Seqs

  predicate IsDigit(c: char) {
    '0' <= c <= '9'
  }

  /** A non-empty string of decimal digits: what `parseInt` reads whole. */
  predicate IsDecimal(s: string) {
    |s| > 0 && forall i :: 0 <= i < |s| ==> IsDigit(s[i])
  }

  function DigitChar(d: nat): (c: char)
    requires d < 10
    ensures IsDigit(c) && c as int - '0' as int == d
  {
    ('0' as int + d) as char
  }

  /** `${n}` for a natural number: its shortest decimal form. */
  function NatToString(n: nat): (s: string)
    ensures IsDecimal(s)
    ensures |s| == 1 <==> n < 10
    decreases n
  {
    if n < 10 then [DigitChar(n)] else NatToString(n / 10) + [DigitChar(n % 10)]
  }

  /** `parseInt(s)` for a string of decimal digits. */
  function ParseNat(s: string): nat
    requires forall i :: 0 <= i < |s| ==> IsDigit(s[i])
    decreases |s|
  {
    if s == [] then 0 else ParseNat(s[..|s| - 1]) * 10 + DigitValue(s[|s| - 1])
  }

  function DigitValue(c: char): (d: nat)
    requires IsDigit(c)
    ensures d < 10
  {
    c as int - '0' as int
  }

  /** Reading back what `NatToString` wrote gives the number again. */
  lemma {:induction false} ParseNatToString(n: nat)
    ensures ParseNat(NatToString(n)) == n
    decreases n
  {
    var s := NatToString(n);
    if n >= 10 {
      ParseNatToString(n / 10);
      assert s[..|s| - 1] == NatToString(n / 10);
    }
  }

  /** Distinct counts render as distinct strings, so `prefix${n}` ids made
      from distinct counts are distinct. */
  lemma NatToStringInjective(a: nat, b: nat)
    ensures NatToString(a) == NatToString(b) <==> a == b
  {
    if NatToString(a) == NatToString(b) {
      ParseNatToString(a);
      ParseNatToString(b);
    }
  }

  /** One `prefix${n}` id equals another only when the prefixes and the
      numbers agree (the digits never reach into the prefix). */
  lemma PrefixedInjective(prefix: string, a: nat, b: nat)
    requires forall i :: 0 <= i < |prefix| ==> !IsDigit(prefix[i])
    ensures prefix + NatToString(a) == prefix + NatToString(b) <==> a == b
  {
    var x, y := prefix + NatToString(a), prefix + NatToString(b);
    if x == y {
      assert x[|prefix|..] == NatToString(a);
      assert y[|prefix|..] == NatToString(b);
      NatToStringInjective(a, b);
    }
  }

  /** `String.prototype.toLowerCase` on the ASCII letters. */
  function LowerChar(c: char): char {
    if 'A' <= c <= 'Z' then (c as int + 32) as char else c
  }

  function ToLower(s: string): (r: string)
    ensures |r| == |s|
    ensures forall i :: 0 <= i < |s| ==> r[i] == LowerChar(s[i])
  {
    seq(|s|, i requires 0 <= i < |s| => LowerChar(s[i]))
  }

  /** Lower-casing twice is lower-casing once. */
  lemma ToLowerIdempotent(s: string)
    ensures ToLower(ToLower(s)) == ToLower(s)
  {
    assert forall i :: 0 <= i < |s| ==> LowerChar(LowerChar(s[i])) == LowerChar(s[i]);
  }

  /** `s.includes(q)`: `q` occurs in `s` at some position. */
  predicate Includes(s: string, q: string)
    decreases |s|
  {
    q <= s || (s != [] && Includes(s[1..], q))
  }

  /** Every string includes the empty string, so an empty search keeps all. */
  lemma IncludesEmpty(s: string)
    ensures Includes(s, [])
  {
  }

  /** `q` sits in `s` starting at offset `k`. */
  predicate OccursAt(s: string, q: string, k: int) {
    0 <= k && k + |q| <= |s| && s[k..k + |q|] == q
  }

  /** `includes` finds exactly the occurrences at some offset. */
  lemma IncludesAt(s: string, q: string)
    ensures Includes(s, q) <==> exists k :: OccursAt(s, q, k)
  {
    if Includes(s, q) {
      var k := IncludesWitness(s, q);
    }
    if exists k :: OccursAt(s, q, k) {
      var k :| OccursAt(s, q, k);
      OccursIncludes(s, q, k);
    }
  }

  /** Where `includes` found the query. */
  lemma {:induction false} IncludesWitness(s: string, q: string) returns (k: nat)
    requires Includes(s, q)
    ensures OccursAt(s, q, k)
    decreases |s|
  {
    if q <= s {
      k := 0;
      assert s[0..|q|] == q;
    } else {
      var k' := IncludesWitness(s[1..], q);
      k := k' + 1;
      assert s[k..k + |q|] == s[1..][k'..k' + |q|];
    }
  }

  /** An occurrence at any offset is found by `includes`. */
  lemma {:induction false} OccursIncludes(s: string, q: string, k: int)
    requires OccursAt(s, q, k)
    ensures Includes(s, q)
    decreases k
  {
    if k == 0 {
      assert s[..|q|] == q;
    } else {
      assert s[1..][k - 1..k - 1 + |q|] == s[k..k + |q|];
      OccursIncludes(s[1..], q, k - 1);
    }
  }

  /** The characters `String.prototype.trim` removes: ECMAScript WhiteSpace
      (tab, vertical tab, form feed, space, no-break space, byte order mark
      and the Unicode space separators) and LineTerminator. */
  predicate IsJsWhitespace(c: char) {
    c == '\t' || c == '\n' || c == '\U{000B}' || c == '\U{000C}' || c == '\r' || c == ' '
    || c == '\U{00A0}' || c == '\U{1680}' || ('\U{2000}' <= c <= '\U{200A}')
    || c == '\U{2028}' || c == '\U{2029}' || c == '\U{202F}' || c == '\U{205F}'
    || c == '\U{3000}' || c == '\U{FEFF}'
  }

  /** `!s.trim()`: nothing but whitespace is left after trimming. */
  predicate IsBlank(s: string) {
    forall i :: 0 <= i < |s| ==> IsJsWhitespace(s[i])
  }

  /** A character beyond the Basic Multilingual Plane, which UTF-16 writes
      as a surrogate pair. */
  predicate IsAstral(c: char) {
    c as int > 0xFFFF
  }

  /** `s.length` in JavaScript counts UTF-16 code units: one per character
      plus one more for each character beyond the Basic Multilingual Plane. */
  function Utf16Length(s: string): (n: nat)
    ensures n == |s| + Count(s, IsAstral)
    ensures |s| <= n <= 2 * |s|
    decreases |s|
  {
    if s == [] then 0 else (if s[0] as int > 0xFFFF then 2 else 1) + Utf16Length(s[1..])
  }
}
