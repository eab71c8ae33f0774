/**
 * `LessonMetadata.model_dump_json()` and `LessonMetadata.model_validate_json()`
 * on the compact layout pydantic writes: the five fields in declaration
 * order, no whitespace, strings escaped as JSON requires (quote, backslash
 * and control characters; everything else verbatim).  The decoder reads
 * exactly that layout, so a dumped record is read back unchanged.
 */
module MetadataJson {
  import opened Wrappers
  import opened Text
  import opened Models

  // ----- string literals -----

  function HexDigit(d: nat): (c: char)
    requires d < 16
    ensures IsHex(c) && HexValue(c) == d
  {
    if d < 10 then DigitChar(d) else ('a' as int + d - 10) as char
  }

  predicate IsHex(c: char) {
    IsDigit(c) || 'a' <= c <= 'f' || 'A' <= c <= 'F'
  }

  function HexValue(c: char): (v: nat)
    requires IsHex(c)
    ensures v < 16
  {
    if IsDigit(c) then c as int - '0' as int
    else if 'a' <= c <= 'f' then c as int - 'a' as int + 10
    else c as int - 'A' as int + 10
  }

  /** The JSON spelling of one character inside a string literal. */
  function EscapeChar(c: char): (e: string)
    ensures |e| >= 1 && e[0] != '"'
  {
    if c == '"' then "\\\""
    else if c == '\\' then "\\\\"
    else if c == '\n' then "\\n"
    else if c == '\r' then "\\r"
    else if c == '\t' then "\\t"
    else if c == '\U{8}' then "\\b"
    else if c == '\U{C}' then "\\f"
    else if c < ' ' then "\\u00" + [HexDigit(c as int / 16), HexDigit(c as int % 16)]
    else [c]
  }

  function EscapeBody(s: string): string {
    if s == [] then [] else EscapeChar(s[0]) + EscapeBody(s[1..])
  }

  /** A JSON string literal. */
  function Quote(s: string): string {
    "\"" + EscapeBody(s) + "\""
  }

  /** Reads one character of a string literal's body (an escape or a plain character). */
  function ParseUnit(s: string): (r: Option<(char, string)>)
    requires s != [] && s[0] != '"'
    ensures r.Some? ==> |r.value.1| < |s|
  {
    if s[0] == '\\' then
      if |s| < 2 then None
      else if s[1] == '"' then Some(('"', s[2..]))
      else if s[1] == '\\' then Some(('\\', s[2..]))
      else if s[1] == '/' then Some(('/', s[2..]))
      else if s[1] == 'n' then Some(('\n', s[2..]))
      else if s[1] == 'r' then Some(('\r', s[2..]))
      else if s[1] == 't' then Some(('\t', s[2..]))
      else if s[1] == 'b' then Some(('\U{8}', s[2..]))
      else if s[1] == 'f' then Some(('\U{C}', s[2..]))
      else if s[1] == 'u' && |s| >= 6 && IsHex(s[2]) && IsHex(s[3]) && IsHex(s[4]) && IsHex(s[5]) then
        var v := Hex4(s[2], s[3], s[4], s[5]);
        if 0xD800 <= v < 0xE000 then None else Some((v as char, s[6..]))
      else None
    else if s[0] < ' ' then None
    else Some((s[0], s[1..]))
  }

  function Hex4(a: char, b: char, c: char, d: char): (v: nat)
    requires IsHex(a) && IsHex(b) && IsHex(c) && IsHex(d)
    ensures v < 0x10000
  {
    var ab := HexValue(a) * 16 + HexValue(b);
    assert ab < 256;
    var abc := ab * 16 + HexValue(c);
    assert abc < 4096;
    abc * 16 + HexValue(d)
  }

  /** Reads the body of a string literal up to and including its closing quote. */
  function ParseStringBody(s: string): (r: Option<(string, string)>)
    ensures r.Some? ==> |r.value.1| < |s|
    decreases |s|
  {
    if s == [] then None
    else if s[0] == '"' then Some(([], s[1..]))
    else
      var u :- ParseUnit(s);
      var b :- ParseStringBody(u.1);
      Some(([u.0] + b.0, b.1))
  }

  function ParseString(s: string): (r: Option<(string, string)>)
    ensures r.Some? ==> |r.value.1| < |s|
  {
    if s != [] && s[0] == '"' then ParseStringBody(s[1..]) else None
  }

  lemma ParseEscapedChar(c: char, t: string)
    ensures ParseUnit(EscapeChar(c) + t) == Some((c, t))
  {
    var s := EscapeChar(c) + t;
    if c < ' ' && c != '\n' && c != '\r' && c != '\t' && c != '\U{8}' && c != '\U{C}' {
      var hi, lo := c as int / 16, c as int % 16;
      assert s[2..6] == ['0', '0', HexDigit(hi), HexDigit(lo)];
      assert Hex4(s[2], s[3], s[4], s[5]) == c as int;
      assert s[6..] == t;
    } else {
      assert s[|EscapeChar(c)|..] == t;
    }
  }

  lemma {:induction false} ParseEscapedBody(x: string, t: string)
    ensures ParseStringBody(EscapeBody(x) + "\"" + t) == Some((x, t))
  {
    if x != [] {
      var e := EscapeChar(x[0]);
      var rest := EscapeBody(x[1..]) + "\"" + t;
      assert EscapeBody(x) + "\"" + t == e + rest;
      ParseEscapedChar(x[0], rest);
      ParseEscapedBody(x[1..], t);
      assert [x[0]] + x[1..] == x;
    } else {
      assert EscapeBody(x) + "\"" + t == "\"" + t;
    }
  }

  /** A quoted string is read back as itself, leaving what follows it. */
  lemma QuoteRoundTrip(x: string, t: string)
    ensures ParseString(Quote(x) + t) == Some((x, t))
  {
    assert (Quote(x) + t)[1..] == EscapeBody(x) + "\"" + t;
    ParseEscapedBody(x, t);
  }

  // ----- lists of strings -----

  function EncodeItems(xs: seq<string>): string {
    if |xs| == 0 then [] else if |xs| == 1 then Quote(xs[0]) else Quote(xs[0]) + "," + EncodeItems(xs[1..])
  }

  /** A JSON array of strings, items separated by `,`. */
  function EncodeList(xs: seq<string>): string {
    "[" + EncodeItems(xs) + "]"
  }

  function ParseItems(s: string): (r: Option<(seq<string>, string)>)
    ensures r.Some? ==> |r.value.1| < |s|
    decreases |s|
  {
    var p :- ParseString(s);
    if p.1 != [] && p.1[0] == ',' then
      var q :- ParseItems(p.1[1..]);
      Some(([p.0] + q.0, q.1))
    else if p.1 != [] && p.1[0] == ']' then Some(([p.0], p.1[1..]))
    else None
  }

  function ParseList(s: string): (r: Option<(seq<string>, string)>)
    ensures r.Some? ==> |r.value.1| < |s|
  {
    if |s| >= 2 && s[0] == '[' && s[1] == ']' then Some(([], s[2..]))
    else if s != [] && s[0] == '[' then ParseItems(s[1..])
    else None
  }

  lemma {:induction false} ParseEncodedItems(xs: seq<string>, t: string)
    requires xs != []
    ensures ParseItems(EncodeItems(xs) + "]" + t) == Some((xs, t))
  {
    if |xs| == 1 {
      assert EncodeItems(xs) + "]" + t == Quote(xs[0]) + ("]" + t);
      ParseLastItem(xs[0], t);
      assert [xs[0]] == xs;
    } else {
      var rest := EncodeItems(xs[1..]) + "]" + t;
      assert EncodeItems(xs) + "]" + t == Quote(xs[0]) + ("," + rest);
      ParseEncodedItems(xs[1..], t);
      ParseNextItem(xs[0], rest, xs[1..], t);
      assert [xs[0]] + xs[1..] == xs;
    }
  }

  /** The last item of an array is read up to its closing bracket. */
  lemma ParseLastItem(x: string, t: string)
    ensures ParseItems(Quote(x) + ("]" + t)) == Some(([x], t))
  {
    QuoteRoundTrip(x, "]" + t);
    assert ("]" + t)[0] == ']' && ("]" + t)[1..] == t;
  }

  /** An item followed by a comma is read, then the items after it. */
  lemma ParseNextItem(x: string, rest: string, ys: seq<string>, t: string)
    requires ParseItems(rest) == Some((ys, t))
    ensures ParseItems(Quote(x) + ("," + rest)) == Some(([x] + ys, t))
  {
    QuoteRoundTrip(x, "," + rest);
    assert ("," + rest)[1..] == rest;
  }

  /** An encoded list is read back as itself. */
  lemma ListRoundTrip(xs: seq<string>, t: string)
    ensures ParseList(EncodeList(xs) + t) == Some((xs, t))
  {
    var s := EncodeList(xs) + t;
    if xs == [] {
      assert s == "[]" + t;
      assert s[2..] == t;
    } else {
      assert s[1..] == EncodeItems(xs) + "]" + t;
      assert EncodeItems(xs) == Quote(xs[0]) + EncodeItems(xs)[|Quote(xs[0])|..];
      assert s[1] == '"';
      ParseEncodedItems(xs, t);
    }
  }

  // ----- integers -----

  /** `str(n)` for any integer. */
  function EncodeInt(n: int): (s: string)
    ensures |s| >= 1 && (s[0] == '-' || IsDigit(s[0]))
  {
    if n < 0 then "-" + NatToDecimal(-n) else NatToDecimal(n)
  }

  /** An optional minus sign followed by at least one decimal digit. */
  function ParseInt(s: string): (r: Option<(int, string)>)
    ensures r.Some? ==> |r.value.1| < |s|
  {
    if s != [] && s[0] == '-' then
      var d := LeadingDigits(s[1..]);
      if d == [] then None else Some((-(DecimalValue(d) as int), s[1 + |d|..]))
    else
      var d := LeadingDigits(s);
      if d == [] then None else Some((DecimalValue(d), s[|d|..]))
  }

  /** An integer is read back as itself when no digit follows it. */
  lemma IntRoundTrip(n: int, t: string)
    requires t == [] || !IsDigit(t[0])
    ensures ParseInt(EncodeInt(n) + t) == Some((n, t))
  {
    if n < 0 {
      NegativeRoundTrip(-n, t);
    } else {
      NaturalRoundTrip(n, t);
    }
  }

  lemma NaturalRoundTrip(n: nat, t: string)
    requires t == [] || !IsDigit(t[0])
    ensures ParseInt(NatToDecimal(n) + t) == Some((n, t))
  {
    var d := NatToDecimal(n);
    var s := d + t;
    assert s[0] == d[0];
    LeadingDigitsOfConcat(d, t);
    DecimalRoundTrip(n);
    assert s[|d|..] == t;
  }

  lemma NegativeRoundTrip(m: nat, t: string)
    requires m > 0
    requires t == [] || !IsDigit(t[0])
    ensures ParseInt("-" + NatToDecimal(m) + t) == Some((-(m as int), t))
  {
    var d := NatToDecimal(m);
    var s := "-" + d + t;
    assert s[1..] == d + t;
    LeadingDigitsOfConcat(d, t);
    DecimalRoundTrip(m);
    assert s[1 + |d|..] == t;
  }

  // ----- the record -----

  /** Strips a literal prefix. */
  function Expect(lit: string, s: string): (r: Option<string>)
    ensures r.Some? ==> s == lit + r.value
  {
    if lit <= s then Some(s[|lit|..]) else None
  }

  lemma ExpectConcat(lit: string, t: string)
    ensures Expect(lit, lit + t) == Some(t)
  {
    assert (lit + t)[..|lit|] == lit;
    assert (lit + t)[|lit|..] == t;
  }

  /** `metadata.model_dump_json()` */
  function Encode(m: LessonMetadata): string {
    "{\"number\":" + (EncodeInt(m.number)
    + (",\"title\":" + (Quote(m.title)
    + (",\"filename\":" + (Quote(m.filename)
    + (",\"prerequisites\":" + (EncodeList(m.prerequisites)
    + (",\"narrative\":" + (Quote(m.narrative)
    + "}")))))))))
  }

  /** `LessonMetadata.model_validate_json(s)`; `None` stands for the `ValidationError` it raises. */
  function Decode(s: string): Option<LessonMetadata> {
    var s1 :- Expect("{\"number\":", s);
    var n :- ParseInt(s1);
    var s2 :- Expect(",\"title\":", n.1);
    var title :- ParseString(s2);
    var s3 :- Expect(",\"filename\":", title.1);
    var filename :- ParseString(s3);
    var s4 :- Expect(",\"prerequisites\":", filename.1);
    var prerequisites :- ParseList(s4);
    var s5 :- Expect(",\"narrative\":", prerequisites.1);
    var narrative :- ParseString(s5);
    if narrative.1 == "}" then Some(LessonMetadata(n.0, title.0, filename.0, prerequisites.0, narrative.0)) else None
  }

  /** Dumping a record and validating the dump gives back an equal record. */
  lemma RoundTrip(m: LessonMetadata)
    ensures Decode(Encode(m)) == Some(m)
  {
    var nr := Quote(m.narrative) + "}";
    var l5 := ",\"narrative\":" + nr;
    var ps := EncodeList(m.prerequisites) + l5;
    var l4 := ",\"prerequisites\":" + ps;
    var f := Quote(m.filename) + l4;
    var l3 := ",\"filename\":" + f;
    var t := Quote(m.title) + l3;
    var l2 := ",\"title\":" + t;
    var i := EncodeInt(m.number) + l2;
    assert Encode(m) == "{\"number\":" + i;
    ExpectConcat("{\"number\":", i);
    IntRoundTrip(m.number, l2);
    ExpectConcat(",\"title\":", t);
    QuoteRoundTrip(m.title, l3);
    ExpectConcat(",\"filename\":", f);
    QuoteRoundTrip(m.filename, l4);
    ExpectConcat(",\"prerequisites\":", ps);
    ListRoundTrip(m.prerequisites, l5);
    ExpectConcat(",\"narrative\":", nr);
    QuoteRoundTrip(m.narrative, "}");
  }
}
