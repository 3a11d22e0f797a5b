/**
 * The keyset cursor of src/service/jobs.py: `<ISO timestamp>|<32 hex digits>` in URL-safe
 * base64 (section 5 of RFC 4648), and its decoder.
 */
module Cursor {
  import opened Prelude
  import opened Text

  // -------------------------------------------------------------- timestamps

  datatype DateTime = DateTime(
    year: nat, month: nat, day: nat, hour: nat, minute: nat, second: nat, microsecond: nat)

  predicate IsLeap(year: nat) {
    year % 4 == 0 && (year % 100 != 0 || year % 400 == 0)
  }

  function DaysIn(year: nat, month: nat): nat {
    if month == 2 then (if IsLeap(year) then 29 else 28)
    else if month in {4, 6, 9, 11} then 30
    else 31
  }

  predicate IsMoment(t: DateTime) {
    1 <= t.year <= 9999 && 1 <= t.month <= 12 && 1 <= t.day <= DaysIn(t.year, t.month)
    && t.hour < 24 && t.minute < 60 && t.second < 60 && t.microsecond < 1000000
  }

  /** A UTC instant. */
  type Moment = t: DateTime | IsMoment(t) witness DateTime(1, 1, 1, 0, 0, 0, 0)

  /** `created_at` as the driver returns it: SQLite drops the offset, PostgreSQL keeps it. */
  datatype Created = Naive(moment: Moment) | Aware(moment: Moment)

  const UUID_LIMIT: nat := 0x1_0000_0000_0000_0000_0000_0000_0000_0000

  type Uuid = n: nat | n < UUID_LIMIT

  function IsoDate(t: Moment): string {
    Padded(t.year, 4, DEC) + "-" + Padded(t.month, 2, DEC) + "-" + Padded(t.day, 2, DEC) + "T"
  }

  function IsoTime(t: Moment): string {
    Padded(t.hour, 2, DEC) + ":" + Padded(t.minute, 2, DEC) + ":" + Padded(t.second, 2, DEC)
  }

  function IsoFraction(t: Moment): string {
    (if t.microsecond == 0 then "" else "." + Padded(t.microsecond, 6, DEC)) + "+00:00"
  }

  /** datetime.isoformat() of a UTC value: microseconds only when there are any. */
  function IsoFormat(t: Moment): string {
    IsoDate(t) + IsoTime(t) + IsoFraction(t)
  }

  /** datetime.fromisoformat() on the two layouts isoformat() prints for a UTC value. */
  function FromIsoFormat(s: string): Option<Moment> {
    if |s| !in {25, 32} || s[|s| - 6..] != "+00:00" then None
    else if s[4] != '-' || s[7] != '-' || s[10] != 'T' || s[13] != ':' || s[16] != ':' then None
    else if |s| == 32 && s[19] != '.' then None
    else
      var year, month, day := ParseDigits(s[..4], DEC), ParseDigits(s[5..7], DEC), ParseDigits(s[8..10], DEC);
      var hour, minute, second := ParseDigits(s[11..13], DEC), ParseDigits(s[14..16], DEC), ParseDigits(s[17..19], DEC);
      var micro := if |s| == 32 then ParseDigits(s[20..26], DEC) else Some(0);
      if year.None? || month.None? || day.None? || hour.None? || minute.None? || second.None? || micro.None? then None
      else
        var t := DateTime(year.value, month.value, day.value, hour.value, minute.value, second.value, micro.value);
        if IsMoment(t) then Some(t) else None
  }

  lemma PowersInUse()
    ensures Pow(DEC, 2) == 100 && Pow(DEC, 4) == 10000 && Pow(DEC, 6) == 1000000 && Pow(HEX, 32) == UUID_LIMIT
  {
    assert Pow(HEX, 8) == 0x1_0000_0000;
    assert Pow(HEX, 16) == 0x1_0000_0000_0000_0000;
    assert Pow(HEX, 24) == 0x1_0000_0000_0000_0000_0000_0000;
  }

  /** Every field can be read back from its columns. */
  lemma IsoColumns(t: Moment)
    ensures var s := IsoFormat(t);
            |s| == (if t.microsecond == 0 then 25 else 32) && s[|s| - 6..] == "+00:00"
            && s[..4] == Padded(t.year, 4, DEC) && s[5..7] == Padded(t.month, 2, DEC)
                && s[8..10] == Padded(t.day, 2, DEC)
            && s[11..13] == Padded(t.hour, 2, DEC) && s[14..16] == Padded(t.minute, 2, DEC)
            && s[17..19] == Padded(t.second, 2, DEC)
            && s[4] == s[7] == '-' && s[10] == 'T' && s[13] == s[16] == ':'
            && (t.microsecond != 0 ==> s[19] == '.' && s[20..26] == Padded(t.microsecond, 6, DEC))
  {
  }

  /** The columns of `s` hold the fields of `t`. */
  ghost predicate Spells(s: string, t: Moment) {
    |s| == (if t.microsecond == 0 then 25 else 32) && s[|s| - 6..] == "+00:00"
    && s[4] == s[7] == '-' && s[10] == 'T' && s[13] == s[16] == ':' && (t.microsecond != 0 ==> s[19] == '.')
    && ParseDigits(s[..4], DEC) == Some(t.year) && ParseDigits(s[5..7], DEC) == Some(t.month)
    && ParseDigits(s[8..10], DEC) == Some(t.day) && ParseDigits(s[11..13], DEC) == Some(t.hour)
    && ParseDigits(s[14..16], DEC) == Some(t.minute) && ParseDigits(s[17..19], DEC) == Some(t.second)
    && (t.microsecond != 0 ==> ParseDigits(s[20..26], DEC) == Some(t.microsecond))
  }

  lemma FieldsDecide(s: string, t: Moment)
    requires Spells(s, t)
    ensures FromIsoFormat(s) == Some(t)
  {
  }

  lemma IsoRoundTrip(t: Moment)
    ensures FromIsoFormat(IsoFormat(t)) == Some(t)
  {
    PowersInUse();
    IsoColumns(t);
    PaddedRoundTrip(t.year, 4, DEC);
    PaddedRoundTrip(t.month, 2, DEC);
    PaddedRoundTrip(t.day, 2, DEC);
    PaddedRoundTrip(t.hour, 2, DEC);
    PaddedRoundTrip(t.minute, 2, DEC);
    PaddedRoundTrip(t.second, 2, DEC);
    PaddedRoundTrip(t.microsecond, 6, DEC);
    FieldsDecide(IsoFormat(t), t);
  }

  // ------------------------------------------------------------------ base64

  function SextetChar(v: nat): char
    requires v < 64
  {
    if v < 26 then 'A' + v as char
    else if v < 52 then 'a' + (v - 26) as char
    else if v < 62 then '0' + (v - 52) as char
    else if v == 62 then '-' else '_'
  }

  /** Both alphabets decode: the URL-safe characters are translated to `+` and `/` first. */
  function SextetValue(c: char): (v: Option<nat>)
    ensures v.Some? ==> v.value < 64
  {
    if 'A' <= c <= 'Z' then Some((c - 'A') as nat)
    else if 'a' <= c <= 'z' then Some((c - 'a') as nat + 26)
    else if '0' <= c <= '9' then Some((c - '0') as nat + 52)
    else if c == '-' || c == '+' then Some(62)
    else if c == '_' || c == '/' then Some(63)
    else None
  }

  lemma SextetRoundTrip(v: nat)
    requires v < 64
    ensures SextetValue(SextetChar(v)) == Some(v) && SextetChar(v) != '='
  {
  }

  type Byte = n: nat | n < 256

  /** urlsafe_b64encode, with padding. */
  function Encode64(b: seq<Byte>): string {
    if |b| == 0 then ""
    else if |b| == 1 then [SextetChar(b[0] / 4), SextetChar(b[0] % 4 * 16)] + "=="
    else if |b| == 2 then
      [SextetChar(b[0] / 4), SextetChar(b[0] % 4 * 16 + b[1] / 16), SextetChar(b[1] % 16 * 4)] + "="
    else
      [SextetChar(b[0] / 4), SextetChar(b[0] % 4 * 16 + b[1] / 16),
       SextetChar(b[1] % 16 * 4 + b[2] / 64), SextetChar(b[2] % 64)] + Encode64(b[3..])
  }

  function Emit(b: Byte, rest: Option<seq<Byte>>): Option<seq<Byte>> {
    if rest.None? then None else Some([b] + rest.value)
  }

  /**
   * binascii.a2b_base64 in its default, lenient mode, one character at a time: `quad` is the
   * position in the current group of four, `left` the bits not yet written, `pads` the run of
   * `=` just seen.  Characters outside the alphabet are skipped.
   */
  function Decode64From(s: string, quad: nat, left: nat, pads: nat): Option<seq<Byte>>
    requires quad < 4 && left < (if quad == 1 then 64 else if quad == 2 then 16 else if quad == 3 then 4 else 1)
  {
    if s == "" then (if quad == 0 then Some([]) else None)
    else if s[0] == '=' then
      if quad >= 2 && quad + pads + 1 >= 4 then Some([])
      else Decode64From(s[1..], quad, left, if quad >= 2 then pads + 1 else pads)
    else match SextetValue(s[0])
      case None => Decode64From(s[1..], quad, left, pads)
      case Some(v) =>
        if quad == 0 then Decode64From(s[1..], 1, v, 0)
        else if quad == 1 then Emit(left * 4 + v / 16, Decode64From(s[1..], 2, v % 16, 0))
        else if quad == 2 then Emit(left * 16 + v / 4, Decode64From(s[1..], 3, v % 4, 0))
        else Emit(left * 64 + v, Decode64From(s[1..], 0, 0, 0))
  }

  function Decode64(s: string): Option<seq<Byte>> {
    Decode64From(s, 0, 0, 0)
  }

  /** One data character moves the decoder on by six bits. */
  lemma DecodeSextet(v: nat, rest: string, quad: nat, left: nat, pads: nat)
    requires v < 64 && quad < 4
    requires left < (if quad == 1 then 64 else if quad == 2 then 16 else if quad == 3 then 4 else 1)
    ensures Decode64From([SextetChar(v)] + rest, quad, left, pads) ==
      if quad == 0 then Decode64From(rest, 1, v, 0)
      else if quad == 1 then Emit(left * 4 + v / 16, Decode64From(rest, 2, v % 16, 0))
      else if quad == 2 then Emit(left * 16 + v / 4, Decode64From(rest, 3, v % 4, 0))
      else Emit(left * 64 + v, Decode64From(rest, 0, 0, 0))
  {
    SextetRoundTrip(v);
    assert ([SextetChar(v)] + rest)[1..] == rest;
  }

  /** The first two characters of a group give its first byte and leave the high half of the second. */
  lemma TwoSextets(x: Byte, y: Byte, rest: string)
    ensures Decode64([SextetChar(x / 4), SextetChar(x % 4 * 16 + y / 16)] + rest)
            == Emit(x, Decode64From(rest, 2, y / 16, 0))
  {
    var second := [SextetChar(x % 4 * 16 + y / 16)] + rest;
    assert [SextetChar(x / 4), SextetChar(x % 4 * 16 + y / 16)] + rest == [SextetChar(x / 4)] + second;
    DecodeSextet(x / 4, second, 0, 0, 0);
    DecodeSextet(x % 4 * 16 + y / 16, rest, 1, x / 4, 0);
    assert x / 4 * 4 + (x % 4 * 16 + y / 16) / 16 == x;
    assert (x % 4 * 16 + y / 16) % 16 == y / 16;
  }

  lemma OneByteGroup(x: Byte)
    ensures Decode64(Encode64([x])) == Some([x])
  {
    TwoSextets(x, 0, "==");
    assert Encode64([x]) == [SextetChar(x / 4), SextetChar(x % 4 * 16 + 0 / 16)] + "==";
    assert "=="[1..] == "=";
    assert Decode64From("=", 2, 0, 1) == Some([]);
    assert [x] + [] == [x];
  }

  /** The third character completes the second byte and leaves the top of the third. */
  lemma ThirdSextet(y: Byte, z: Byte, rest: string)
    ensures Decode64From([SextetChar(y % 16 * 4 + z / 64)] + rest, 2, y / 16, 0)
            == Emit(y, Decode64From(rest, 3, z / 64, 0))
  {
    DecodeSextet(y % 16 * 4 + z / 64, rest, 2, y / 16, 0);
    assert y / 16 * 16 + (y % 16 * 4 + z / 64) / 4 == y;
    assert (y % 16 * 4 + z / 64) % 4 == z / 64;
  }

  lemma TwoByteGroup(x: Byte, y: Byte)
    ensures Decode64(Encode64([x, y])) == Some([x, y])
  {
    var last := [SextetChar(y % 16 * 4)] + "=";
    TwoSextets(x, y, last);
    assert Encode64([x, y]) == [SextetChar(x / 4), SextetChar(x % 4 * 16 + y / 16)] + last;
    ThirdSextet(y, 0, "=");
    assert [x] + ([y] + []) == [x, y];
  }

  lemma FullGroup(x: Byte, y: Byte, z: Byte, rest: string)
    ensures Decode64(
              [SextetChar(x / 4), SextetChar(x % 4 * 16 + y / 16), SextetChar(y % 16 * 4 + z / 64),
                  SextetChar(z % 64)] + rest)
            == Emit(x, Emit(y, Emit(z, Decode64(rest))))
  {
    var last := [SextetChar(z % 64)] + rest;
    var second := [SextetChar(y % 16 * 4 + z / 64)] + last;
    TwoSextets(x, y, second);
    assert [SextetChar(x / 4), SextetChar(x % 4 * 16 + y / 16), SextetChar(y % 16 * 4 + z / 64),
        SextetChar(z % 64)] + rest
           == [SextetChar(x / 4), SextetChar(x % 4 * 16 + y / 16)] + second;
    ThirdSextet(y, z, last);
    DecodeSextet(z % 64, rest, 3, z / 64, 0);
  }

  lemma {:induction false} Base64RoundTrip(b: seq<Byte>)
    ensures Decode64(Encode64(b)) == Some(b)
  {
    if |b| == 1 {
      OneByteGroup(b[0]);
      assert b == [b[0]];
    } else if |b| == 2 {
      TwoByteGroup(b[0], b[1]);
      assert b == [b[0], b[1]];
    } else if |b| >= 3 {
      FullGroup(b[0], b[1], b[2], Encode64(b[3..]));
      Base64RoundTrip(b[3..]);
      assert b == [b[0]] + ([b[1]] + ([b[2]] + b[3..]));
    }
  }

  // ------------------------------------------------------------------ cursor

  function AsciiEncode(s: string): seq<Byte>
    requires forall i | 0 <= i < |s| :: s[i] < 128 as char
  {
    seq(|s|, i requires 0 <= i < |s| => s[i] as int)
  }

  /** bytes.decode() where every byte is ASCII. */
  function AsciiDecode(b: seq<Byte>): Option<string> {
    if exists i | 0 <= i < |b| :: b[i] >= 128 then None
    else Some(seq(|b|, i requires 0 <= i < |b| && b[i] < 128 => b[i] as char))
  }

  function RawCursor(t: Moment, id: Uuid): string {
    IsoFormat(t) + "|" + Padded(id, 32, HEX)
  }

  ghost predicate Plain(s: string) {
    forall i | 0 <= i < |s| :: s[i] < 128 as char && s[i] != '|'
  }

  lemma PaddedIsPlain(n: nat, width: nat, r: Radix)
    ensures Plain(Padded(n, width, r))
  {
    PaddedIsAllDigits(n, width, r);
  }

  lemma ConcatIsPlain(a: string, b: string)
    requires Plain(a) && Plain(b)
    ensures Plain(a + b)
  {
  }

  lemma DateIsPlain(t: Moment)
    ensures Plain(IsoDate(t))
  {
    PaddedIsPlain(t.year, 4, DEC);
    PaddedIsPlain(t.month, 2, DEC);
    PaddedIsPlain(t.day, 2, DEC);
  }

  lemma TimeIsPlain(t: Moment)
    ensures Plain(IsoTime(t))
  {
    PaddedIsPlain(t.hour, 2, DEC);
    PaddedIsPlain(t.minute, 2, DEC);
    PaddedIsPlain(t.second, 2, DEC);
  }

  lemma FractionIsPlain(t: Moment)
    ensures Plain(IsoFraction(t))
  {
    PaddedIsPlain(t.microsecond, 6, DEC);
  }

  lemma IsoFormatIsPlain(t: Moment)
    ensures Plain(IsoFormat(t))
  {
    DateIsPlain(t);
    TimeIsPlain(t);
    FractionIsPlain(t);
    ConcatIsPlain(IsoDate(t), IsoTime(t));
    ConcatIsPlain(IsoDate(t) + IsoTime(t), IsoFraction(t));
  }

  /** Everything a cursor is made of is ASCII, and the separator occurs once. */
  lemma RawCursorIsAscii(t: Moment, id: Uuid)
    ensures forall i | 0 <= i < |RawCursor(t, id)| :: RawCursor(t, id)[i] < 128 as char
    ensures Plain(IsoFormat(t))
  {
    IsoFormatIsPlain(t);
    PaddedIsPlain(id, 32, HEX);
  }

  function EncodeCursor(created: Created, id: Uuid): string {
    RawCursorIsAscii(created.moment, id);
    Encode64(AsciiEncode(RawCursor(created.moment, id)))
  }

  /** str.split(c, 1) */
  function SplitOnce(s: string, c: char): Option<(string, string)> {
    if s == "" then None
    else if s[0] == c then Some(("", s[1..]))
    else
      var r := SplitOnce(s[1..], c);
      if r.None? then None else Some(([s[0]] + r.value.0, r.value.1))
  }

  function ParseUuid(s: string): Option<Uuid> {
    var n := ParseDigits(s, HEX);
    if |s| == 32 && n.Some? && n.value < UUID_LIMIT then Some(n.value) else None
  }

  /** `None` stands for the InvalidRequestError every malformed cursor is turned into. */
  function DecodeCursor(cursor: string): Option<(Moment, Uuid)> {
    var b := Decode64(cursor);
    if b.None? then None else
    var raw := AsciiDecode(b.value);
    if raw.None? then None else
    var parts := SplitOnce(raw.value, '|');
    if parts.None? then None else
    var t, id := FromIsoFormat(parts.value.0), ParseUuid(parts.value.1);
    if t.None? || id.None? then None else Some((t.value, id.value))
  }

  lemma {:induction false} SplitAtFirst(a: string, b: string, c: char)
    requires forall i | 0 <= i < |a| :: a[i] != c
    ensures SplitOnce(a + [c] + b, c) == Some((a, b))
  {
    var s := a + [c] + b;
    if a == "" {
      assert s[1..] == b;
    } else {
      SplitAtFirst(a[1..], b, c);
      assert s[1..] == a[1..] + [c] + b;
      assert a == [a[0]] + a[1..];
    }
  }

  lemma UuidRoundTrip(id: Uuid)
    ensures ParseUuid(Padded(id, 32, HEX)) == Some(id)
  {
    PowersInUse();
    PaddedRoundTrip(id, 32, HEX);
  }

  /** The cursor of a row decodes to that row's sort key, whichever database produced the timestamp. */
  lemma CursorRoundTrip(created: Created, id: Uuid)
    ensures DecodeCursor(EncodeCursor(created, id)) == Some((created.moment, id))
  {
    var t := created.moment;
    var raw := RawCursor(t, id);
    RawCursorIsAscii(t, id);
    var b := AsciiEncode(raw);
    Base64RoundTrip(b);
    assert AsciiDecode(b).value == raw;
    assert raw == IsoFormat(t) + ['|'] + Padded(id, 32, HEX);
    SplitAtFirst(IsoFormat(t), Padded(id, 32, HEX), '|');
    IsoRoundTrip(t);
    UuidRoundTrip(id);
  }

  /** Different sort keys never share a cursor; a naive and an aware reading of the same instant do. */
  lemma CursorIsInjective(a: Created, i: Uuid, b: Created, j: Uuid)
    ensures EncodeCursor(a, i) == EncodeCursor(b, j) <==> a.moment == b.moment && i == j
  {
    CursorRoundTrip(a, i);
    CursorRoundTrip(b, j);
  }
}
