/** Printing and parsing of numbers: zero-padded fields in base 10 and 16, and plain decimals. */
module Text {
  import opened Prelude

  /** The two bases in use. */
  datatype Radix = DEC | HEX {
    function Size(): nat { if DEC? then 10 else 16 }

    function Times(n: nat): nat { if DEC? then 10 * n else 16 * n }

    function Quotient(n: nat): nat { if DEC? then n / 10 else n / 16 }

    function Remainder(n: nat): (d: nat)
      ensures d < Size()
    {
      if DEC? then n % 10 else n % 16
    }
  }

  function Pow(r: Radix, k: nat): nat {
    if k == 0 then 1 else r.Times(Pow(r, k - 1))
  }

  function DigitChar(d: nat): char
    requires d < 16
  {
    if d < 10 then '0' + d as char else 'a' + (d - 10) as char
  }

  /** The value of a digit in either case, if `c` is a digit of the base. */
  function DigitValue(c: char, r: Radix): (v: Option<nat>)
    ensures v.Some? ==> v.value < r.Size()
  {
    if '0' <= c <= '9' then Some((c - '0') as nat)
    else if r.HEX? && 'a' <= c <= 'f' then Some((c - 'a') as nat + 10)
    else if r.HEX? && 'A' <= c <= 'F' then Some((c - 'A') as nat + 10)
    else None
  }

  lemma DigitRoundTrip(d: nat, r: Radix)
    requires d < r.Size()
    ensures DigitValue(DigitChar(d), r) == Some(d)
  {
  }

  /** `width` digits, most significant first, zero-padded. */
  function Padded(n: nat, width: nat, r: Radix): (s: string)
    ensures |s| == width
  {
    if width == 0 then "" else Padded(r.Quotient(n), width - 1, r) + [DigitChar(r.Remainder(n))]
  }

  function ParseDigits(s: string, r: Radix): Option<nat> {
    if s == "" then Some(0)
    else
      var high := ParseDigits(s[..|s| - 1], r);
      var low := DigitValue(s[|s| - 1], r);
      if high.Some? && low.Some? then Some(r.Times(high.value) + low.value) else None
  }

  lemma {:induction false} PaddedRoundTrip(n: nat, width: nat, r: Radix)
    requires n < Pow(r, width)
    ensures ParseDigits(Padded(n, width, r), r) == Some(n)
  {
    if width > 0 {
      PaddedRoundTrip(r.Quotient(n), width - 1, r);
      DigitRoundTrip(r.Remainder(n), r);
      var s := Padded(n, width, r);
      assert s[..|s| - 1] == Padded(r.Quotient(n), width - 1, r);
    }
  }

  /** A padded field is made of digits only. */
  lemma {:induction false} PaddedIsAllDigits(n: nat, width: nat, r: Radix)
    ensures forall i | 0 <= i < width :: DigitValue(Padded(n, width, r)[i], r).Some?
  {
    if width > 0 {
      PaddedIsAllDigits(r.Quotient(n), width - 1, r);
      DigitRoundTrip(r.Remainder(n), r);
    }
  }

  /** A non-negative decimal number, without padding. */
  function Decimal(n: nat): (s: string)
    ensures s != ""
  {
    (if n < 10 then "" else Decimal(n / 10)) + [DigitChar(n % 10)]
  }

  predicate StartsWithDigit(s: string) {
    s != "" && DigitValue(s[0], DEC).Some?
  }

  /** How many leading characters are decimal digits. */
  function DigitPrefix(s: string): (k: nat)
    ensures k <= |s|
  {
    if StartsWithDigit(s) then 1 + DigitPrefix(s[1..]) else 0
  }

  lemma {:induction false} DecimalRoundTrip(n: nat)
    ensures ParseDigits(Decimal(n), DEC) == Some(n)
    ensures forall i | 0 <= i < |Decimal(n)| :: DigitValue(Decimal(n)[i], DEC).Some?
  {
    DigitRoundTrip(n % 10, DEC);
    var s := Decimal(n);
    if n < 10 {
      assert s[..|s| - 1] == "";
    } else {
      DecimalRoundTrip(n / 10);
      assert s[..|s| - 1] == Decimal(n / 10);
      assert n == 10 * (n / 10) + n % 10;
    }
  }

  lemma {:induction false} DigitPrefixOf(s: string, rest: string)
    requires forall i | 0 <= i < |s| :: DigitValue(s[i], DEC).Some?
    requires !StartsWithDigit(rest)
    ensures DigitPrefix(s + rest) == |s|
  {
    if s == "" {
      assert s + rest == rest;
    } else {
      assert (s + rest)[1..] == s[1..] + rest;
      DigitPrefixOf(s[1..], rest);
    }
  }

  /** `prefix` is removed from the front of `s`, if it is there. */
  function Expect(prefix: string, s: string): Option<string> {
    if prefix <= s then Some(s[|prefix|..]) else None
  }

  lemma ExpectPrefix(prefix: string, rest: string)
    ensures Expect(prefix, prefix + rest) == Some(rest)
  {
  }
}
