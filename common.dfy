/**
 * Shared value types and the few string primitives the dashboard's JavaScript
 * relies on: template-literal formatting of non-negative integers
 * (`${n}`, `n.toString()`), `String.prototype.startsWith` and
 * `String.prototype.toLowerCase` restricted to the Latin and Cyrillic letters
 * the application's strings are made of.
 */
module Common {

  datatype Option<+T> = None | Some(value: T) {
    function GetOr(default: T): T {
      match this
      case Some(v) => v
      case None => default
    }
  }

  function Max(a: int, b: int): int { if a >= b then a else b }
  function Min(a: int, b: int): int { if a <= b then a else b }
  function MaxR(a: real, b: real): real { if a >= b then a else b }
  function MinR(a: real, b: real): real { if a <= b then a else b }

  /** A value drawn by `Math.random()`: a real in the half-open unit interval. */
  predicate IsUnit(u: real) { 0.0 <= u < 1.0 }

  /** `Math.floor(Math.random() * n)`: a uniformly chosen index below `n` (0 when `n` is 0). */
  function RandomIndex(u: real, n: nat): (i: nat)
    requires IsUnit(u)
    ensures n > 0 ==> i < n
    ensures n == 0 ==> i == 0
  {
    assert 0.0 <= u * n as real <= n as real;
    (u * n as real).Floor
  }

  /** `getRandomItem`: the element at `Math.floor(u * items.length)`, absent for an empty array. */
  function GetRandomItem<T>(items: seq<T>, u: real): (r: Option<T>)
    requires IsUnit(u)
    ensures r.Some? <==> |items| > 0
    ensures r.Some? ==> r.value in items
  {
    var i := RandomIndex(u, |items|);
    if i < |items| then Some(items[i]) else None
  }

  // ---------------------------------------------------------------------------
  // Decimal formatting of a non-negative integer (`${n}` in a template literal)
  // ---------------------------------------------------------------------------

  predicate IsDigit(c: char) { '0' <= c <= '9' }

  function DigitChar(d: nat): (c: char)
    requires d < 10
  {
    ('0' as int + d) as char
  }

  /** The decimal representation of `n`, most significant digit first, without leading zeros. */
  function NatToString(n: nat): (s: string)
    ensures |s| >= 1
    ensures (|s| == 1) == (n < 10)
    ensures forall i :: 0 <= i < |s| ==> IsDigit(s[i])
    decreases n
  {
    if n < 10 then [DigitChar(n)] else NatToString(n / 10) + [DigitChar(n % 10)]
  }

  /** Distinct numbers print differently, so identifiers built from them are distinct. */
  lemma {:induction false} NatToStringInjective(a: nat, b: nat)
    requires NatToString(a) == NatToString(b)
    ensures a == b
    decreases a
  {
    var sa, sb := NatToString(a), NatToString(b);
    if a < 10 && b < 10 {
      assert sa[0] == DigitChar(a) && sb[0] == DigitChar(b);
    } else if a >= 10 && b >= 10 {
      var pa, pb := NatToString(a / 10), NatToString(b / 10);
      assert sa == pa + [DigitChar(a % 10)];
      assert sb == pb + [DigitChar(b % 10)];
      assert |pa| == |pb|;
      assert DigitChar(a % 10) == sa[|sa| - 1] == sb[|sb| - 1] == DigitChar(b % 10);
      assert pa == sa[..|pa|] == sb[..|pb|] == pb;
      NatToStringInjective(a / 10, b / 10);
    }
  }

  /** A fixed prefix followed by a printed number identifies the number. */
  lemma PrefixedNumberInjective(prefix: string, a: nat, b: nat)
    requires prefix + NatToString(a) == prefix + NatToString(b)
    ensures a == b
  {
    var sa, sb := prefix + NatToString(a), prefix + NatToString(b);
    assert NatToString(a) == sa[|prefix|..] == sb[|prefix|..] == NatToString(b);
    NatToStringInjective(a, b);
  }

  // ---------------------------------------------------------------------------
  // String.prototype.startsWith
  // ---------------------------------------------------------------------------

  predicate StartsWith(s: string, prefix: string) {
    |prefix| <= |s| && s[..|prefix|] == prefix
  }

  // ---------------------------------------------------------------------------
  // String.prototype.toLowerCase on Latin and Cyrillic letters
  // ---------------------------------------------------------------------------

  /**
   * Lower-case mapping of one character: 'A'..'Z', the basic Cyrillic capitals
   * U+0410..U+042F ('А'..'Я') and the Cyrillic capitals with diacritics
   * U+0400..U+040F ('Ѐ'..'Џ', among them 'Ё') map to their small letters; every
   * other character is left as it is.
   */
  function LowerChar(c: char): (r: char)
    ensures IsDigit(c) ==> r == c
  {
    if 'A' <= c <= 'Z' then (c as int + 0x20) as char
    else if 'А' <= c <= 'Я' then (c as int + 0x20) as char
    else if 'Ѐ' <= c <= 'Џ' then (c as int + 0x50) as char
    else c
  }

  /** A lower-case character is not changed again. */
  lemma LowerCharIdempotent(c: char)
    ensures LowerChar(LowerChar(c)) == LowerChar(c)
  {
  }

  function Lower(s: string): (r: string)
  {
    seq(|s|, i requires 0 <= i < |s| => LowerChar(s[i]))
  }

  /** `s.toLowerCase().toLowerCase() == s.toLowerCase()`. */
  lemma LowerIdempotent(s: string)
    ensures Lower(Lower(s)) == Lower(s)
  {
    forall i | 0 <= i < |s|
      ensures Lower(Lower(s))[i] == Lower(s)[i]
    {
      LowerCharIdempotent(s[i]);
    }
  }
}
