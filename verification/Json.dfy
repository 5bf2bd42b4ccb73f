/**
 The indented JSON encoder the state file is written with
 (json.MarshalIndent with no prefix and an indent of two spaces), as bytes,
 and a size function proved to be the number of bytes it writes. String
 escapes are those of section 7 of RFC 8259 in the form Go chooses: the
 short escapes where they exist, \u00xx for other controls and for the
 HTML-sensitive characters, and \u2028 and \u2029.
 */
module Json {
  import opened Text

  type Byte = b: int | 0 <= b < 256

  datatype Value =
    | Number(n: int)
    | Str(s: string)
    | Arr(items: seq<Value>)
    | Obj(fields: seq<Field>)

  datatype Field = Field(name: string, value: Value)

  // ----- bytes -----

  function HexDigit(d: int): Byte
    requires 0 <= d < 16
  {
    if d < 10 then 0x30 + d else 0x57 + d
  }

  predicate ShortEscape(p: int) {
    p == 0x22 || p == 0x5C || p == 0x08 || p == 0x0C || p == 0x0A || p == 0x0D || p == 0x09
  }

  predicate LongEscape(p: int) {
    (p < 0x20 && !ShortEscape(p)) || p == 0x3C || p == 0x3E || p == 0x26 || p == 0x2028 || p == 0x2029
  }

  function ShortEscapeByte(p: int): Byte {
    if p == 0x08 then 0x62 else if p == 0x0C then 0x66 else if p == 0x0A then 0x6E
    else if p == 0x0D then 0x72 else if p == 0x09 then 0x74 else if p == 0x22 then 0x22 else 0x5C
  }

  function RenderUtf8(c: char): (bs: seq<Byte>)
    ensures |bs| == Utf8Len(c)
  {
    var p := c as int;
    if p < 0x80 then [p]
    else if p < 0x800 then [0xC0 + p / 64, 0x80 + p % 64]
    else if p < 0x10000 then [0xE0 + p / 4096, 0x80 + p / 64 % 64, 0x80 + p % 64]
    else [0xF0 + p / 262144, 0x80 + p / 4096 % 64, 0x80 + p / 64 % 64, 0x80 + p % 64]
  }

  function RenderChar(c: char): seq<Byte> {
    var p := c as int;
    if ShortEscape(p) then [0x5C, ShortEscapeByte(p)]
    else if LongEscape(p) then
      [0x5C, 0x75, HexDigit(p / 4096 % 16), HexDigit(p / 256 % 16), HexDigit(p / 16 % 16), HexDigit(p % 16)]
    else RenderUtf8(c)
  }

  function RenderText(s: string): seq<Byte> {
    if s == "" then [] else RenderChar(s[0]) + RenderText(s[1..])
  }

  function RenderString(s: string): seq<Byte> {
    [0x22] + RenderText(s) + [0x22]
  }

  function RenderDigits(n: nat): seq<Byte> {
    if n < 10 then [0x30 + n] else RenderDigits(n / 10) + [0x30 + n % 10]
  }

  function RenderNumber(n: int): seq<Byte> {
    if n < 0 then [0x2D] + RenderDigits(-n) else RenderDigits(n)
  }

  function Spaces(n: nat): (bs: seq<Byte>)
    ensures |bs| == n
  {
    seq(n, _ => 0x20)
  }

  /** The bytes of v as a value at the given nesting depth. */
  function Render(v: Value, depth: nat): seq<Byte>
    decreases v, 1
  {
    match v
    case Number(n) => RenderNumber(n)
    case Str(s) => RenderString(s)
    case Arr(items) =>
      if items == [] then [0x5B, 0x5D]
      else RenderItems(items, depth, 0x5B) + [0x0A] + Spaces(2 * depth) + [0x5D]
    case Obj(fields) =>
      if fields == [] then [0x7B, 0x7D]
      else RenderFields(fields, depth, 0x7B) + [0x0A] + Spaces(2 * depth) + [0x7D]
  }

  /** Each element on its own line, led by the opening bracket or a comma. */
  function RenderItems(items: seq<Value>, depth: nat, lead: Byte): seq<Byte>
    decreases items, 0
  {
    if items == [] then []
    else [lead, 0x0A] + Spaces(2 * (depth + 1)) + Render(items[0], depth + 1) + RenderItems(items[1..], depth, 0x2C)
  }

  function RenderFields(fields: seq<Field>, depth: nat, lead: Byte): seq<Byte>
    decreases fields, 0
  {
    if fields == [] then []
    else
      [lead, 0x0A] + Spaces(2 * (depth + 1)) + RenderString(fields[0].name) + [0x3A, 0x20]
      + Render(fields[0].value, depth + 1) + RenderFields(fields[1..], depth, 0x2C)
  }

  // ----- sizes -----

  function EscapedLen(c: char): (n: nat)
    ensures 1 <= n <= 6
  {
    var p := c as int;
    if ShortEscape(p) then 2 else if LongEscape(p) then 6 else Utf8Len(c)
  }

  function Sum(ns: seq<nat>): nat {
    if ns == [] then 0 else ns[0] + Sum(ns[1..])
  }

  function EscapedSize(s: string): nat {
    Sum(seq(|s|, i requires 0 <= i < |s| => EscapedLen(s[i])))
  }

  lemma EscapedSizeStep(s: string)
    ensures s == "" ==> EscapedSize(s) == 0
    ensures s != "" ==> EscapedSize(s) == EscapedLen(s[0]) + EscapedSize(s[1..])
  {
    if s != "" {
      var t := s[1..];
      var ns := seq(|s|, i requires 0 <= i < |s| => EscapedLen(s[i]));
      assert ns[1..] == seq(|t|, i requires 0 <= i < |t| => EscapedLen(t[i]));
    }
  }

  function QuotedSize(s: string): nat {
    2 + EscapedSize(s)
  }

  function DigitCount(n: nat): nat {
    if n < 10 then 1 else DigitCount(n / 10) + 1
  }

  function NumberSize(n: int): nat {
    if n < 0 then 1 + DigitCount(-n) else DigitCount(n)
  }

  function Size(v: Value, depth: nat): nat
    decreases v, 1
  {
    match v
    case Number(n) => NumberSize(n)
    case Str(s) => QuotedSize(s)
    case Arr(items) => if items == [] then 2 else ItemsSize(items, depth) + 2 * depth + 2
    case Obj(fields) => if fields == [] then 2 else FieldsSize(fields, depth) + 2 * depth + 2
  }

  function ItemSize(v: Value, depth: nat): nat
    decreases v, 2
  {
    2 + 2 * (depth + 1) + Size(v, depth + 1)
  }

  function ItemsSize(items: seq<Value>, depth: nat): nat
    decreases items, 3
  {
    if items == [] then 0 else ItemSize(items[0], depth) + ItemsSize(items[1..], depth)
  }

  function FieldSize(f: Field, depth: nat): nat
    decreases f, 2
  {
    2 + 2 * (depth + 1) + QuotedSize(f.name) + 2 + Size(f.value, depth + 1)
  }

  function FieldsSize(fields: seq<Field>, depth: nat): nat
    decreases fields, 3
  {
    if fields == [] then 0 else FieldSize(fields[0], depth) + FieldsSize(fields[1..], depth)
  }

  // ----- Size counts what Render writes -----

  lemma {:induction false} RenderTextSize(s: string)
    ensures |RenderText(s)| == EscapedSize(s)
  {
    EscapedSizeStep(s);
    if s != "" {
      RenderTextSize(s[1..]);
    }
  }

  lemma {:induction false} RenderDigitsSize(n: nat)
    ensures |RenderDigits(n)| == DigitCount(n)
  {
    if n >= 10 {
      RenderDigitsSize(n / 10);
    }
  }

  lemma RenderNumberSize(n: int)
    ensures |RenderNumber(n)| == NumberSize(n)
  {
    RenderDigitsSize(if n < 0 then -n else n);
  }

  lemma {:induction false} RenderSize(v: Value, depth: nat)
    ensures |Render(v, depth)| == Size(v, depth)
    decreases v, 1
  {
    match v
    case Number(n) => RenderNumberSize(n);
    case Str(s) => RenderTextSize(s);
    case Arr(items) => RenderItemsSize(items, depth, 0x5B);
    case Obj(fields) => RenderFieldsSize(fields, depth, 0x7B);
  }

  lemma {:induction false} RenderItemsSize(items: seq<Value>, depth: nat, lead: Byte)
    ensures |RenderItems(items, depth, lead)| == ItemsSize(items, depth)
    decreases items, 0
  {
    if items != [] {
      RenderSize(items[0], depth + 1);
      RenderItemsSize(items[1..], depth, 0x2C);
    }
  }

  lemma {:induction false} RenderFieldsSize(fields: seq<Field>, depth: nat, lead: Byte)
    ensures |RenderFields(fields, depth, lead)| == FieldsSize(fields, depth)
    decreases fields, 0
  {
    if fields != [] {
      RenderTextSize(fields[0].name);
      RenderSize(fields[0].value, depth + 1);
      RenderFieldsSize(fields[1..], depth, 0x2C);
    }
  }

  // ----- arithmetic of sizes -----

  lemma {:induction false} FieldsSizeConcat(a: seq<Field>, b: seq<Field>, depth: nat)
    ensures FieldsSize(a + b, depth) == FieldsSize(a, depth) + FieldsSize(b, depth)
  {
    if a == [] {
      assert a + b == b;
    } else {
      assert (a + b)[1..] == a[1..] + b;
      FieldsSizeConcat(a[1..], b, depth);
    }
  }

  /** An escape never costs more than six bytes for each byte of text. */
  lemma {:induction false} EscapedAtMostSixfold(s: string)
    ensures ByteLen(s) <= EscapedSize(s) <= 6 * ByteLen(s)
  {
    EscapedSizeStep(s);
    if s != "" {
      EscapedAtMostSixfold(s[1..]);
    }
  }

  function Pow10(k: nat): (p: nat)
    ensures p >= 1
  {
    if k == 0 then 1 else 10 * Pow10(k - 1)
  }

  lemma {:induction false} DigitCountBound(n: nat, k: nat)
    requires 1 <= k && n < Pow10(k)
    ensures 1 <= DigitCount(n) <= k
  {
    if n >= 10 {
      assert Pow10(1) == 10;
      DigitCountBound(n / 10, k - 1);
    }
  }
}
