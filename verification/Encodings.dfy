/**
 * What the texts of `Cursor` and `Fingerprint` look like, character by character, apart from
 * the functions that print and read them: positional digits, the URL-safe alphabet of section 5
 * of RFC 4648, and the escapes of section 7 of RFC 8259.
 */
module Encodings {
  import opened Text
  import opened Cursor
  import opened Fingerprint

  // -------------------------------------------------------------------- digits

  const DIGITS := "0123456789abcdef"

  lemma DigitsAreLowerCase(d: nat)
    requires d < 16
    ensures DigitChar(d) == DIGITS[d]
  {
  }

  lemma ProductIsMonotone(k: nat, a: nat, b: nat)
    requires a <= b
    ensures k * a <= k * b
  {
    assert k * b == k * a + k * (b - a);
  }

  lemma QuotientIsUnique(n: nat, d: nat, q: nat, m: nat)
    requires m < d && n == d * q + m
    ensures n / d == q
  {
    var p := n / d;
    assert n == d * p + n % d;
    if p < q {
      ProductIsMonotone(d, p + 1, q);
    } else if q < p {
      ProductIsMonotone(d, q + 1, p);
    }
  }

  lemma {:induction false} PowIsPositive(r: Radix, k: nat)
    ensures Pow(r, k) > 0
  {
    if k > 0 {
      PowIsPositive(r, k - 1);
    }
  }

  lemma TenfoldQuotient(n: nat, b: nat)
    requires b > 0
    ensures n / 10 / b == n / (10 * b)
  {
    var q, m := n / 10 / b, n / 10 % b;
    assert n / 10 == b * q + m && (10 * b) * q == 10 * (b * q);
    QuotientIsUnique(n, 10 * b, q, 10 * m + n % 10);
  }

  lemma SixteenfoldQuotient(n: nat, b: nat)
    requires b > 0
    ensures n / 16 / b == n / (16 * b)
  {
    var q, m := n / 16 / b, n / 16 % b;
    assert n / 16 == b * q + m && (16 * b) * q == 16 * (b * q);
    QuotientIsUnique(n, 16 * b, q, 16 * m + n % 16);
  }

  /** Dividing by the base and then by a power of it is dividing by the next power. */
  lemma PowersDivide(n: nat, r: Radix, k: nat)
    requires k > 0
    ensures Pow(r, k) > 0 && Pow(r, k - 1) > 0 && r.Quotient(n) / Pow(r, k - 1) == n / Pow(r, k)
  {
    PowIsPositive(r, k - 1);
    if r.DEC? {
      TenfoldQuotient(n, Pow(r, k - 1));
    } else {
      SixteenfoldQuotient(n, Pow(r, k - 1));
    }
  }

  /** The k-th character from the right is the lower-case digit of weight base to the k. */
  lemma {:induction false} PaddedIsPositional(n: nat, width: nat, r: Radix, k: nat)
    requires k < width
    ensures Pow(r, k) > 0 && Padded(n, width, r)[width - 1 - k] == "0123456789abcdef"[n / Pow(r, k) % r.Size()]
  {
    if k == 0 {
      assert n / Pow(r, 0) == n;
      DigitsAreLowerCase(n % r.Size());
    } else {
      PaddedIsPositional(r.Quotient(n), width - 1, r, k - 1);
      PowersDivide(n, r, k);
    }
  }

  // -------------------------------------------------------------------- base64

  const UPPER := "ABCDEFGHIJKLMNOPQRSTUVWXYZ"
  const LOWER := "abcdefghijklmnopqrstuvwxyz"
  const ALPHABET := UPPER + LOWER + "0123456789-_"

  lemma SextetsAreUrlSafe(v: nat)
    requires v < 64
    ensures |UPPER| == |LOWER| == 26 && |ALPHABET| == 64 && SextetChar(v) == ALPHABET[v]
  {
    assert v < 26 ==> ALPHABET[v] == UPPER[v];
    assert 26 <= v < 52 ==> ALPHABET[v] == LOWER[v - 26];
    assert 52 <= v ==> ALPHABET[v] == "0123456789-_"[v - 52];
  }

  /** The byte at position k, and zero bits after the end. */
  function ByteAt(b: seq<Byte>, k: nat): Byte {
    if k < |b| then b[k] else 0
  }

  /** The 24 bits of group g, most significant first. */
  function Bits(b: seq<Byte>, g: nat): nat {
    65536 * ByteAt(b, 3 * g) + 256 * ByteAt(b, 3 * g + 1) + ByteAt(b, 3 * g + 2)
  }

  /** Six of 24 bits, most significant first. */
  function Sextet(bits: nat, j: nat): (v: nat)
    ensures v < 64
  {
    if j == 0 then bits / 262144 % 64 else if j == 1 then bits / 4096 % 64 else if j == 2 then bits / 64 % 64
    else bits % 64
  }

  lemma FourSextets(bits: nat, s: nat, t: nat, u: nat, v: nat)
    requires s < 64 && t < 64 && u < 64 && v < 64 && bits == 262144 * s + 4096 * t + 64 * u + v
    ensures Sextet(bits, 0) == s && Sextet(bits, 1) == t && Sextet(bits, 2) == u && Sextet(bits, 3) == v
  {
    assert bits / 64 == 4096 * s + 64 * t + u;
    assert bits / 4096 == 64 * s + t;
    assert bits / 262144 == s;
  }

  lemma SextetsOfThreeBytes(x: Byte, y: Byte, z: Byte)
    ensures var bits := 65536 * x + 256 * y + z;
            Sextet(bits, 0) == x / 4 && Sextet(bits, 1) == x % 4 * 16 + y / 16
            && Sextet(bits, 2) == y % 16 * 4 + z / 64 && Sextet(bits, 3) == z % 64
  {
    assert x == 4 * (x / 4) + x % 4 && y == 16 * (y / 16) + y % 16 && z == 64 * (z / 64) + z % 64;
    FourSextets(65536 * x + 256 * y + z, x / 4, x % 4 * 16 + y / 16, y % 16 * 4 + z / 64, z % 64);
  }

  /** What the first four characters are, in sextets of the bytes before them. */
  ghost predicate StartsWithGroup(b: seq<Byte>)
    requires b != []
  {
    var x, y, z := ByteAt(b, 0), ByteAt(b, 1), ByteAt(b, 2);
    var s := Encode64(b);
    |s| >= 4 && s[0] == SextetChar(x / 4) && s[1] == SextetChar(x % 4 * 16 + y / 16)
    && s[2] == (if |b| < 2 then '=' else SextetChar(y % 16 * 4 + z / 64))
    && s[3] == if |b| < 3 then '=' else SextetChar(z % 64)
  }

  lemma EncodedGroup(b: seq<Byte>)
    requires b != []
    ensures StartsWithGroup(b)
  {
  }

  lemma FirstGroup(b: seq<Byte>, j: nat)
    requires b != [] && j < 4
    ensures |Encode64(b)| >= 4
    ensures Encode64(b)[j] == if j > |b| then '=' else ALPHABET[Sextet(Bits(b, 0), j)]
  {
    EncodedGroup(b);
    SextetsOfThreeBytes(ByteAt(b, 0), ByteAt(b, 1), ByteAt(b, 2));
    SextetsAreUrlSafe(Sextet(Bits(b, 0), j));
  }

  /** Groups do not see one another: dropping three bytes drops four characters. */
  lemma {:induction false} GroupsAreIndependent(b: seq<Byte>, g: nat)
    requires 3 * g <= |b|
    ensures 4 * g <= |Encode64(b)| && Encode64(b)[4 * g..] == Encode64(b[3 * g..])
  {
    if g > 0 {
      GroupsAreIndependent(b[3..], g - 1);
      assert b[3..][3 * (g - 1)..] == b[3 * g..];
      assert Encode64(b)[4..] == Encode64(b[3..]) by {
        assert |b| == 3 ==> b[3..] == [];
      }
      assert Encode64(b)[4..][4 * (g - 1)..] == Encode64(b)[4 * g..];
    }
  }

  /**
   * Three bytes become four characters of the URL-safe alphabet, six bits each and most
   * significant first; a last group of one or two bytes is padded to four characters.
   */
  lemma Base64IsPositional(b: seq<Byte>, g: nat, j: nat)
    requires 3 * g < |b| && j < 4
    ensures 4 * g + j < |Encode64(b)|
            && Encode64(b)[4 * g + j] == if 3 * g + j > |b| then '=' else ALPHABET[Sextet(Bits(b, g), j)]
  {
    var rest := b[3 * g..];
    GroupsAreIndependent(b, g);
    FirstGroup(rest, j);
    assert Bits(rest, 0) == Bits(b, g);
    assert Encode64(b)[4 * g..][j] == Encode64(b)[4 * g + j];
  }

  // -------------------------------------------------------------------- the texts

  /** What a cursor carries: the timestamp, a bar, and 32 hexadecimal digits. */
  lemma CursorText(created: Created, id: Uuid)
    ensures var text := IsoFormat(created.moment) + "|" + Padded(id, 32, HEX);
            var bytes := Decode64(EncodeCursor(created, id));
            bytes.Some? && |bytes.value| == |text|
            && forall i | 0 <= i < |text| :: bytes.value[i] == text[i] as int
  {
    RawCursorIsAscii(created.moment, id);
    Base64RoundTrip(AsciiEncode(RawCursor(created.moment, id)));
  }

  lemma Hex4IsPrintable(n: nat)
    ensures forall i | 0 <= i < 4 :: ' ' <= Hex4(n)[i] <= '~'
  {
    PaddedIsAllDigits(n, 4, HEX);
  }

  /** A printed character is printable ASCII; only the seven short escapes take two characters. */
  lemma EscapesAreShort(c: char)
    ensures forall i | 0 <= i < |Escape(c)| :: ' ' <= Escape(c)[i] <= '~'
    ensures |Escape(c)| == if c in {'"', '\\', '\n', '\r', '\t', 8 as char, 12 as char} then 2
                           else if ' ' <= c <= '~' then 1 else if c as int < 0x10000 then 6 else 12
  {
    if |Escape(c)| == 6 {
      Hex4IsPrintable(c as int);
    } else if |Escape(c)| == 12 {
      Hex4IsPrintable(0xD800 + (c as int - 0x10000) / 0x400);
      Hex4IsPrintable(0xDC00 + (c as int - 0x10000) % 0x400);
    }
  }

  /** The four fields in key order, without spaces, epsilon with four decimals in quotes. */
  lemma CanonicalLayout(p: Payload)
    ensures Canonical(p)
            == "{\"attacks\":[" + (Items(p.attacks) + ("]" + (",\"epsilon\":\"" + (
               (Decimal(p.epsilon / 10000) + ("." + Padded(p.epsilon % 10000, 4, DEC)))
               + ("\",\"max_iterations\":" + (PrintInt(p.maxIterations) + (",\"model_name\":" + (
               Quote(p.modelName) + "}"))))))))
  {
  }
}
