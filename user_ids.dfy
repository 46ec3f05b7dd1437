/**
 * User identifiers of the identity registry: a category prefix ("cu" or
 * "fr") followed by the allocated number in decimal, left-padded with '0'
 * to at least six characters, and the classification of an id by its prefix.
 */
module UserIds {
  import opened Wrappers

  /** The two account categories. */
  datatype Category = Customer | Franchise

  /** Width the numeric part of an id is padded to. */
  const IdDigits: nat := 6

  /** The id prefix that encodes a category. */
  function Prefix(c: Category): (p: string)
    ensures |p| == 2
  {
    match c
    case Customer => "cu"
    case Franchise => "fr"
  }

  /** String.prototype.startsWith. */
  predicate StartsWith(s: string, p: string)
  {
    |p| <= |s| && s[..|p|] == p
  }

  // ---------------------------------------------------------------------
  // Decimal digits

  predicate IsDigit(c: char)
  {
    '0' <= c <= '9'
  }

  predicate AllDigits(s: string)
  {
    forall i :: 0 <= i < |s| ==> IsDigit(s[i])
  }

  function DigitChar(d: nat): (c: char)
    requires d < 10
    ensures IsDigit(c)
  {
    (48 + d) as char
  }

  function DigitValue(c: char): (d: nat)
    requires IsDigit(c)
    ensures d < 10 && DigitChar(d) == c
  {
    (c as int) - 48
  }

  function Pow10(k: nat): (p: nat)
    ensures p >= 1
  {
    if k == 0 then 1 else 10 * Pow10(k - 1)
  }

  /** String(n) for a non-negative integer: decimal, no sign, no padding. */
  function DecimalString(n: nat): (s: string)
    ensures |s| >= 1 && AllDigits(s)
  {
    if n < 10 then [DigitChar(n)] else DecimalString(n / 10) + [DigitChar(n % 10)]
  }

  /** The value of a string of decimal digits (leading zeros allowed). */
  function ParseDecimal(s: string): nat
    requires AllDigits(s)
  {
    if s == [] then 0 else 10 * ParseDecimal(s[..|s| - 1]) + DigitValue(s[|s| - 1])
  }

  /** k copies of c. */
  function Repeat(c: char, k: nat): (r: string)
    ensures |r| == k
    ensures forall i :: 0 <= i < k ==> r[i] == c
  {
    if k == 0 then [] else Repeat(c, k - 1) + [c]
  }

  /** String.prototype.padStart with a one-character filler. */
  function PadStart(s: string, width: nat, fill: char): (r: string)
    ensures |r| == if |s| < width then width else |s|
    ensures r[|r| - |s|..] == s
    ensures forall i :: 0 <= i < |r| - |s| ==> r[i] == fill
  {
    if |s| >= width then s else Repeat(fill, width - |s|) + s
  }

  /** `${category}${String(n).padStart(6, '0')}` (userService.generateNextUserId). */
  function FormatUserId(prefix: string, n: nat): (id: string)
    ensures StartsWith(id, prefix)
    ensures |id| >= |prefix| + IdDigits
    ensures AllDigits(id[|prefix|..])
  {
    var digits := PadStart(DecimalString(n), IdDigits, '0');
    assert (prefix + digits)[|prefix|..] == digits;
    prefix + digits
  }

  /** The decimal rendering reads back as the number it renders. */
  lemma {:induction false} ParseDecimalString(n: nat)
    ensures ParseDecimal(DecimalString(n)) == n
  {
    var s := DecimalString(n);
    if n < 10 {
      assert s[..|s| - 1] == [];
    } else {
      assert s[..|s| - 1] == DecimalString(n / 10);
      ParseDecimalString(n / 10);
    }
  }

  /** Leading zeros do not change the value of a digit string. */
  lemma {:induction false} ParseLeadingZeros(k: nat, s: string)
    requires AllDigits(s)
    ensures AllDigits(Repeat('0', k) + s)
    ensures ParseDecimal(Repeat('0', k) + s) == ParseDecimal(s)
  {
    var z := Repeat('0', k) + s;
    if s == [] {
      assert z == Repeat('0', k);
      ZerosParseToZero(k);
    } else {
      assert z[..|z| - 1] == Repeat('0', k) + s[..|s| - 1];
      ParseLeadingZeros(k, s[..|s| - 1]);
    }
  }

  lemma {:induction false} ZerosParseToZero(k: nat)
    ensures AllDigits(Repeat('0', k)) && ParseDecimal(Repeat('0', k)) == 0
  {
    if k > 0 {
      assert Repeat('0', k)[..k - 1] == Repeat('0', k - 1);
      ZerosParseToZero(k - 1);
    }
  }

  /** A number below 10^k needs at most k digits; one at or above 10^k needs more than k. */
  lemma {:induction false} DecimalStringLength(n: nat, k: nat)
    ensures 1 <= k && n < Pow10(k) ==> |DecimalString(n)| <= k
    ensures n >= Pow10(k) ==> |DecimalString(n)| > k
  {
    if n >= 10 {
      DecimalStringLength(n / 10, if k == 0 then 0 else k - 1);
    }
  }

  /**
   * The numeric part of a formatted id is all digits and decodes back to the
   * allocated number; it is exactly six characters long when (and only when)
   * the number is below 1000000.
   */
  lemma UserIdSuffix(prefix: string, n: nat)
    ensures var suffix := FormatUserId(prefix, n)[|prefix|..];
      && ParseDecimal(suffix) == n
      && (|suffix| == IdDigits <==> n < 1000000)
  {
    var digits := DecimalString(n);
    var suffix := FormatUserId(prefix, n)[|prefix|..];
    assert suffix == PadStart(digits, IdDigits, '0');
    ParseDecimalString(n);
    if |digits| < IdDigits {
      assert suffix == Repeat('0', IdDigits - |digits|) + digits;
      ParseLeadingZeros(IdDigits - |digits|, digits);
    }
    assert Pow10(6) == 1000000;
    DecimalStringLength(n, 6);
  }

  /**
   * Ids allocated under the two category prefixes never coincide, and within
   * one prefix distinct numbers give distinct ids.
   */
  lemma FormatUserIdInjective(p: Category, q: Category, n: nat, m: nat)
    requires FormatUserId(Prefix(p), n) == FormatUserId(Prefix(q), m)
    ensures p == q && n == m
  {
    var id := FormatUserId(Prefix(p), n);
    assert id[..2] == Prefix(p) && id[..2] == Prefix(q);
    UserIdSuffix(Prefix(p), n);
    UserIdSuffix(Prefix(q), m);
  }

  // ---------------------------------------------------------------------
  // Category detection

  /**
   * userService.detectCategory. A missing id (null or undefined) is
   * represented by the empty string, which the source treats alike.
   */
  function DetectCategory(userId: string): (c: Option<Category>)
    ensures c == Some(Customer) <==> StartsWith(userId, "cu")
    ensures c == Some(Franchise) <==> StartsWith(userId, "fr")
    // follows from the two above; it is the form callers reason with
    ensures c.Some? ==> StartsWith(userId, Prefix(c.value))
  {
    if userId == "" then None
    else if StartsWith(userId, "cu") then Some(Customer)
    else if StartsWith(userId, "fr") then Some(Franchise)
    else None
  }

  /** The category depends on the first two characters only. */
  lemma DetectCategoryByPrefix(a: string, b: string)
    requires |a| >= 2 && |b| >= 2 && a[..2] == b[..2]
    ensures DetectCategory(a) == DetectCategory(b)
  {
  }

  /** An id shorter than a prefix has no category. */
  lemma DetectCategoryShort(a: string)
    requires |a| < 2
    ensures DetectCategory(a) == None
  {
  }

  /** An id formatted under a category's prefix is classified as that category. */
  lemma DetectFormattedId(c: Category, n: nat)
    ensures DetectCategory(FormatUserId(Prefix(c), n)) == Some(c)
  {
    var id := FormatUserId(Prefix(c), n);
    assert id[..2] == Prefix(c);
  }
}
