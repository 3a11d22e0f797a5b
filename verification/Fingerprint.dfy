/**
 * The canonical text of a submission (src/service/jobs.py, `request_fingerprint`) and a
 * reader for it.  json.dumps runs with its default ensure_ascii, sorted keys and no spaces;
 * strings are escaped as in section 7 of RFC 8259.  SHA-256 is taken to be collision-free,
 * so the text itself serves as the fingerprint.
 */
module Fingerprint {
  import opened Prelude
  import opened Text

  /** A submission: epsilon is a whole number of 1/10000ths, as `f"{epsilon:.4f}"` prints it. */
  datatype Payload = Payload(modelName: string, attacks: seq<string>, epsilon: nat, maxIterations: int)

  // ----------------------------------------------------------- escaped strings

  function Hex4(n: nat): string {
    Padded(n, 4, HEX)
  }

  /** One character as json.dumps prints it inside a string. */
  function Escape(c: char): (s: string)
    ensures s != ""
  {
    if c == '"' then "\\\""
    else if c == '\\' then "\\\\"
    else if c == '\n' then "\\n"
    else if c == '\r' then "\\r"
    else if c == '\t' then "\\t"
    else if c as int == 8 then "\\b"
    else if c as int == 12 then "\\f"
    else if ' ' <= c <= '~' then [c]
    else if c as int < 0x10000 then "\\u" + Hex4(c as int)
    else
      var v := c as int - 0x10000;
      "\\u" + Hex4(0xD800 + v / 0x400) + "\\u" + Hex4(0xDC00 + v % 0x400)
  }

  function EscapeAll(s: string): string {
    if s == "" then "" else Escape(s[0]) + EscapeAll(s[1..])
  }

  function Quote(s: string): string {
    "\"" + EscapeAll(s) + "\""
  }

  /** The scalar value behind `\uXXXX`, or behind a surrogate pair of them; `s` starts after the `\u`. */
  function ReadUnicode(s: string): (r: Option<(char, string)>)
    ensures r.Some? ==> |r.value.1| < |s|
  {
    if |s| < 4 then None
    else match ParseDigits(s[..4], HEX)
      case None => None
      case Some(n) =>
        if n < 0xD800 || 0xE000 <= n < 0x10000 then Some((n as char, s[4..]))
        else if 0xD800 <= n < 0xDC00 && |s| >= 10 && s[4..6] == "\\u" then
          match ParseDigits(s[6..10], HEX) {
            case None => None
            case Some(low) =>
              if 0xDC00 <= low < 0xE000 then
                Some(((0x10000 + (n - 0xD800) * 0x400 + (low - 0xDC00)) as char, s[10..]))
              else None
          }
        else None
  }

  /** The first character of a string body and what follows it. */
  function ReadChar(s: string): (r: Option<(char, string)>)
    requires s != ""
    ensures r.Some? ==> |r.value.1| < |s|
  {
    if s[0] != '\\' then Some((s[0], s[1..]))
    else if |s| == 1 then None
    else if s[1] == 'u' then ReadUnicode(s[2..])
    else if s[1] == '"' || s[1] == '\\' then Some((s[1], s[2..]))
    else if s[1] == 'n' then Some(('\n', s[2..]))
    else if s[1] == 'r' then Some(('\r', s[2..]))
    else if s[1] == 't' then Some(('\t', s[2..]))
    else if s[1] == 'b' then Some((8 as char, s[2..]))
    else if s[1] == 'f' then Some((12 as char, s[2..]))
    else None
  }

  /** A string body up to and including its closing quote. */
  function ReadBody(s: string): (r: Option<(string, string)>)
    ensures r.Some? ==> |r.value.1| < |s|
    decreases |s|
  {
    if s == "" then None
    else if s[0] == '"' then Some(("", s[1..]))
    else
      var c := ReadChar(s);
      if c.None? then None else
      var rest := ReadBody(c.value.1);
      if rest.None? then None else Some(([c.value.0] + rest.value.0, rest.value.1))
  }

  lemma Hex4RoundTrip(n: nat, rest: string)
    requires n < 0x10000
    ensures (Hex4(n) + rest)[..4] == Hex4(n) && ParseDigits(Hex4(n), HEX) == Some(n)
    ensures (Hex4(n) + rest)[4..] == rest
  {
    assert Pow(HEX, 4) == 0x10000;
    PaddedRoundTrip(n, 4, HEX);
  }

  lemma ReadUnicodeBmp(c: char, rest: string)
    requires c as int < 0x10000
    ensures ReadUnicode(Hex4(c as int) + rest) == Some((c, rest))
  {
    Hex4RoundTrip(c as int, rest);
  }

  lemma ReadUnicodePair(c: char, rest: string)
    requires c as int >= 0x10000
    ensures var v := c as int - 0x10000;
            ReadUnicode(Hex4(0xD800 + v / 0x400) + ("\\u" + (Hex4(0xDC00 + v % 0x400) + rest))) == Some((c, rest))
  {
    var v := c as int - 0x10000;
    var high, low := 0xD800 + v / 0x400, 0xDC00 + v % 0x400;
    var tail := "\\u" + (Hex4(low) + rest);
    Hex4RoundTrip(high, tail);
    Hex4RoundTrip(low, rest);
    var s := Hex4(high) + tail;
    assert s[4..6] == "\\u" && s[6..10] == Hex4(low) && s[10..] == rest;
  }

  lemma ReadEscapedBmp(c: char, rest: string)
    requires |Escape(c)| == 6
    ensures ReadChar(Escape(c) + rest) == Some((c, rest))
  {
    var s := Escape(c) + rest;
    assert s[2..] == Hex4(c as int) + rest;
    ReadUnicodeBmp(c, rest);
  }

  lemma ReadEscapedPair(c: char, rest: string)
    requires |Escape(c)| == 12
    ensures ReadChar(Escape(c) + rest) == Some((c, rest))
  {
    var s, v := Escape(c) + rest, c as int - 0x10000;
    assert s[2..] == Hex4(0xD800 + v / 0x400) + ("\\u" + (Hex4(0xDC00 + v % 0x400) + rest));
    ReadUnicodePair(c, rest);
  }

  /** Escapes are self-delimiting: the reader gets back exactly the character and what followed. */
  lemma ReadEscaped(c: char, rest: string)
    ensures ReadChar(Escape(c) + rest) == Some((c, rest)) && Escape(c)[0] != '"'
  {
    var s := Escape(c) + rest;
    if |Escape(c)| == 6 {
      ReadEscapedBmp(c, rest);
    } else if |Escape(c)| == 12 {
      ReadEscapedPair(c, rest);
    } else {
      assert s[|Escape(c)|..] == rest;
    }
  }

  /** A body that starts with something that reads as `c` reads as `c` and the rest. */
  lemma ReadBodyStep(e: string, c: char, tail: string, v: string, rest: string)
    requires e != "" && e[0] != '"' && ReadChar(e + tail) == Some((c, tail)) && ReadBody(tail) == Some((v, rest))
    ensures ReadBody(e + tail) == Some(([c] + v, rest))
  {
  }

  lemma Regroup(a: string, b: string, c: string)
    ensures (a + b) + c == a + (b + c)
  {
  }

  lemma {:induction false} ReadQuoted(v: string, rest: string)
    ensures ReadBody(EscapeAll(v) + ("\"" + rest)) == Some((v, rest))
  {
    var end := "\"" + rest;
    if v == "" {
      assert EscapeAll(v) + end == end && end[1..] == rest;
    } else {
      var tail := EscapeAll(v[1..]) + end;
      ReadQuoted(v[1..], rest);
      ReadEscaped(v[0], tail);
      ReadBodyStep(Escape(v[0]), v[0], tail, v[1..], rest);
      Regroup(Escape(v[0]), EscapeAll(v[1..]), end);
      assert v == [v[0]] + v[1..];
    }
  }

  function ReadString(s: string): (r: Option<(string, string)>)
    ensures r.Some? ==> |r.value.1| < |s|
  {
    if s != "" && s[0] == '"' then ReadBody(s[1..]) else None
  }

  lemma ReadStringRoundTrip(v: string, rest: string)
    ensures ReadString(Quote(v) + rest) == Some((v, rest))
  {
    var s := Quote(v) + rest;
    assert s[1..] == EscapeAll(v) + ("\"" + rest);
    ReadQuoted(v, rest);
  }

  // -------------------------------------------------------------------- lists

  function Items(vs: seq<string>): string {
    if vs == [] then ""
    else if |vs| == 1 then Quote(vs[0])
    else Quote(vs[0]) + ("," + Items(vs[1..]))
  }

  /** One or more comma-separated strings up to and including the closing bracket. */
  function ReadItems(s: string): (r: Option<(seq<string>, string)>)
    decreases |s|
  {
    var first := ReadString(s);
    if first.None? then None else
    var rest := first.value.1;
    if rest == "" then None
    else if rest[0] == ']' then Some(([first.value.0], rest[1..]))
    else if rest[0] == ',' then
      var more := ReadItems(rest[1..]);
      if more.None? then None else Some(([first.value.0] + more.value.0, more.value.1))
    else None
  }

  function ReadList(s: string): Option<(seq<string>, string)> {
    if s != "" && s[0] == ']' then Some(([], s[1..])) else ReadItems(s)
  }

  lemma ReadLastItem(v: string, rest: string)
    ensures ReadItems(Quote(v) + ("]" + rest)) == Some(([v], rest))
  {
    ReadStringRoundTrip(v, "]" + rest);
    assert ("]" + rest)[1..] == rest;
  }

  lemma ReadNextItem(v: string, vs: seq<string>, more: string, rest: string)
    requires ReadItems(more) == Some((vs, rest))
    ensures ReadItems(Quote(v) + ("," + more)) == Some(([v] + vs, rest))
  {
    ReadStringRoundTrip(v, "," + more);
    assert ("," + more)[1..] == more;
  }

  lemma Reassociate(a: string, b: string, c: string, d: string)
    ensures (a + (b + c)) + d == a + (b + (c + d))
  {
  }

  lemma {:induction false} ReadItemsRoundTrip(vs: seq<string>, rest: string)
    requires vs != []
    ensures ReadItems(Items(vs) + ("]" + rest)) == Some((vs, rest))
  {
    if |vs| == 1 {
      ReadLastItem(vs[0], rest);
      assert vs == [vs[0]];
    } else {
      var more := Items(vs[1..]) + ("]" + rest);
      ReadItemsRoundTrip(vs[1..], rest);
      ReadNextItem(vs[0], vs[1..], more, rest);
      Reassociate(Quote(vs[0]), ",", Items(vs[1..]), "]" + rest);
      assert vs == [vs[0]] + vs[1..];
    }
  }

  lemma ReadListRoundTrip(vs: seq<string>, rest: string)
    ensures ReadList(Items(vs) + ("]" + rest)) == Some((vs, rest))
  {
    var s := Items(vs) + ("]" + rest);
    if vs == [] {
      assert s[1..] == rest;
    } else {
      ReadItemsRoundTrip(vs, rest);
      assert s[0] == Quote(vs[0])[0] == '"';
    }
  }

  // ------------------------------------------------------------------ numbers

  function PrintInt(n: int): string {
    if n < 0 then "-" + Decimal(-n) else Decimal(n)
  }

  function ReadNat(s: string): Option<(nat, string)> {
    var k := DigitPrefix(s);
    var n := ParseDigits(s[..k], DEC);
    if k == 0 || n.None? then None else Some((n.value, s[k..]))
  }

  function ReadInt(s: string): Option<(int, string)> {
    if s != "" && s[0] == '-' then
      var r := ReadNat(s[1..]);
      if r.None? then None else Some((-(r.value.0 as int), r.value.1))
    else
      var r := ReadNat(s);
      if r.None? then None else Some((r.value.0, r.value.1))
  }

  lemma ReadNatRoundTrip(n: nat, rest: string)
    requires !StartsWithDigit(rest)
    ensures ReadNat(Decimal(n) + rest) == Some((n, rest)) && Decimal(n)[0] != '-'
  {
    DecimalRoundTrip(n);
    DigitPrefixOf(Decimal(n), rest);
    var s := Decimal(n) + rest;
    assert s[..|Decimal(n)|] == Decimal(n) && s[|Decimal(n)|..] == rest;
    assert DigitValue(Decimal(n)[0], DEC).Some?;
  }

  lemma ReadSigned(t: string, m: nat, rest: string)
    requires ReadNat(t) == Some((m, rest)) && t != "" && t[0] != '-'
    ensures ReadInt(t) == Some((m as int, rest))
    ensures ReadInt("-" + t) == Some((-(m as int), rest))
  {
    assert ("-" + t)[1..] == t;
  }

  lemma ReadIntRoundTrip(n: int, rest: string)
    requires !StartsWithDigit(rest)
    ensures ReadInt(PrintInt(n) + rest) == Some((n, rest))
  {
    var m: nat := if n < 0 then -n else n;
    ReadNatRoundTrip(m, rest);
    ReadSigned(Decimal(m) + rest, m, rest);
    assert ("-" + Decimal(m)) + rest == "-" + (Decimal(m) + rest);
  }

  /** `f"{epsilon:.4f}"` */
  function PrintEpsilon(e: nat): string {
    Decimal(e / 10000) + ("." + Padded(e % 10000, 4, DEC))
  }

  function ReadEpsilon(s: string): Option<(nat, string)> {
    var whole := ReadNat(s);
    if whole.None? then None else
    var t := whole.value.1;
    if |t| < 5 || t[0] != '.' then None else
    var part := ParseDigits(t[1..5], DEC);
    if part.None? then None else Some((whole.value.0 * 10000 + part.value, t[5..]))
  }

  lemma ReadEpsilonRoundTrip(e: nat, rest: string)
    ensures ReadEpsilon(PrintEpsilon(e) + rest) == Some((e, rest))
  {
    var part := Padded(e % 10000, 4, DEC);
    var t := "." + (part + rest);
    assert PrintEpsilon(e) + rest == Decimal(e / 10000) + t;
    ReadNatRoundTrip(e / 10000, t);
    assert t[1..5] == part && t[5..] == rest;
    assert Pow(DEC, 4) == 10000;
    PaddedRoundTrip(e % 10000, 4, DEC);
  }

  // ------------------------------------------------------------- the whole text

  const ATTACKS_FIELD := "{\"attacks\":["
  const EPSILON_FIELD := ",\"epsilon\":\""
  const ITERATIONS_FIELD := "\",\"max_iterations\":"
  const MODEL_FIELD := ",\"model_name\":"

  /** json.dumps(..., sort_keys=True, separators=(",", ":")) of the four fields. */
  function Canonical(p: Payload): string {
    ATTACKS_FIELD + (Items(p.attacks) + ("]" +
    (EPSILON_FIELD + (PrintEpsilon(p.epsilon) +
    (ITERATIONS_FIELD + (PrintInt(p.maxIterations) +
    (MODEL_FIELD + (Quote(p.modelName) + "}"))))))))
  }

  function Read(text: string): Option<Payload> {
    var a := Expect(ATTACKS_FIELD, text);
    if a.None? then None else
    var attacks := ReadList(a.value);
    if attacks.None? then None else
    var b := Expect(EPSILON_FIELD, attacks.value.1);
    if b.None? then None else
    var epsilon := ReadEpsilon(b.value);
    if epsilon.None? then None else
    var c := Expect(ITERATIONS_FIELD, epsilon.value.1);
    if c.None? then None else
    var iterations := ReadInt(c.value);
    if iterations.None? then None else
    var d := Expect(MODEL_FIELD, iterations.value.1);
    if d.None? then None else
    var model := ReadString(d.value);
    if model.None? || model.value.1 != "}" then None
    else Some(Payload(model.value.0, attacks.value.0, epsilon.value.0, iterations.value.0))
  }

  /** The canonical text can be read back: nothing about the submission is lost in it. */
  lemma CanonicalRoundTrip(p: Payload)
    ensures Read(Canonical(p)) == Some(p)
  {
    var model := Quote(p.modelName) + "}";
    var d := MODEL_FIELD + model;
    var iterations := PrintInt(p.maxIterations) + d;
    var c := ITERATIONS_FIELD + iterations;
    var epsilon := PrintEpsilon(p.epsilon) + c;
    var b := EPSILON_FIELD + epsilon;
    var attacks := Items(p.attacks) + ("]" + b);
    ExpectPrefix(ATTACKS_FIELD, attacks);
    ReadListRoundTrip(p.attacks, b);
    ExpectPrefix(EPSILON_FIELD, epsilon);
    ReadEpsilonRoundTrip(p.epsilon, c);
    ExpectPrefix(ITERATIONS_FIELD, iterations);
    ReadIntRoundTrip(p.maxIterations, d);
    ExpectPrefix(MODEL_FIELD, model);
    ReadStringRoundTrip(p.modelName, "}");
  }

  /** Two submissions share a fingerprint exactly when they agree in all four fields. */
  lemma FingerprintIsInjective(p: Payload, q: Payload)
    ensures Canonical(p) == Canonical(q) <==> p == q
  {
    CanonicalRoundTrip(p);
    CanonicalRoundTrip(q);
  }
}
