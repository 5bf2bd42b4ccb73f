/**
 A reader of JSON, written from RFC 8259 and not from the encoder, and the
 proof that it recovers every value from what the encoder writes. Escaped
 surrogate pairs, which the encoder never writes, are not read.
 */
module JsonReader {
  import opened Text
  import opened Json

  type Bytes = seq<Byte>

  datatype Read<+T> = Read(value: T, rest: Bytes)

  // ----- characters -----

  predicate IsScalar(p: int) {
    0 <= p < 0xD800 || 0xE000 <= p < 0x110000
  }

  predicate IsContinuation(b: Byte) {
    0x80 <= b < 0xC0
  }

  /** One character of UTF-8. */
  function ReadUtf8(s: Bytes): (r: Option<Read<char>>)
    requires s != []
    ensures r.Some? ==> |r.value.rest| < |s|
  {
    if s[0] < 0x80 then Some(Read(s[0] as char, s[1..]))
    else if 0xC0 <= s[0] < 0xE0 && Continues(s, 2) then Scalar(Join(s[0] - 0xC0, s[1]), s, 2)
    else if 0xE0 <= s[0] < 0xF0 && Continues(s, 3) then Scalar(Join(Join(s[0] - 0xE0, s[1]), s[2]), s, 3)
    else if 0xF0 <= s[0] < 0xF8 && Continues(s, 4) then
      Scalar(Join(Join(Join(s[0] - 0xF0, s[1]), s[2]), s[3]), s, 4)
    else None
  }

  predicate Continues(s: Bytes, n: nat) {
    n <= |s| && forall i | 1 <= i < n :: IsContinuation(s[i])
  }

  /** Six more bits. */
  function Join(high: int, b: Byte): int {
    high * 64 + (b - 0x80)
  }

  function Scalar(p: int, s: Bytes, n: nat): (r: Option<Read<char>>)
    requires 0 < n <= |s|
    ensures r.Some? ==> |r.value.rest| < |s|
  {
    if IsScalar(p) then Some(Read(p as char, s[n..])) else None
  }

  /** The value of a hexadecimal digit in either case, or -1. */
  function HexValue(b: Byte): (v: int)
    ensures -1 <= v < 16
  {
    if 0x30 <= b <= 0x39 then b - 0x30
    else if 0x41 <= b <= 0x46 then b - 0x37
    else if 0x61 <= b <= 0x66 then b - 0x57
    else -1
  }

  /** What a backslash introduces, by section 7. */
  function ReadEscape(s: Bytes): (r: Option<Read<char>>)
    ensures r.Some? ==> |r.value.rest| < |s|
  {
    if s == [] then None
    else
      match s[0]
      case 0x22 => Some(Read('"', s[1..]))
      case 0x5C => Some(Read('\\', s[1..]))
      case 0x2F => Some(Read('/', s[1..]))
      case 0x62 => Some(Read('\U{0008}', s[1..]))
      case 0x66 => Some(Read('\U{000C}', s[1..]))
      case 0x6E => Some(Read('\n', s[1..]))
      case 0x72 => Some(Read('\r', s[1..]))
      case 0x74 => Some(Read('\t', s[1..]))
      case 0x75 => ReadHex4(s)
      case _ => None
  }

  function ReadHex4(s: Bytes): (r: Option<Read<char>>)
    requires s != []
    ensures r.Some? ==> |r.value.rest| < |s|
  {
    if |s| < 5 then None
    else
      var a, b, c, d := HexValue(s[1]), HexValue(s[2]), HexValue(s[3]), HexValue(s[4]);
      if a < 0 || b < 0 || c < 0 || d < 0 then None else Scalar(a * 4096 + b * 256 + c * 16 + d, s, 5)
  }

  /** A character of a string: escaped, or standing for itself when it is no control character. */
  function ReadChar(s: Bytes): (r: Option<Read<char>>)
    requires s != []
    ensures r.Some? ==> |r.value.rest| < |s|
  {
    if s[0] == 0x5C then ReadEscape(s[1..]) else if s[0] < 0x20 then None else ReadUtf8(s)
  }

  /** The text up to the closing quote, which is dropped. */
  function ReadText(s: Bytes): (r: Option<Read<string>>)
    ensures r.Some? ==> |r.value.rest| < |s|
    decreases |s|
  {
    if s == [] then None
    else if s[0] == 0x22 then Some(Read("", s[1..]))
    else
      match ReadChar(s)
      case None => None
      case Some(one) =>
        match ReadText(one.rest)
        case None => None
        case Some(more) => Some(Read([one.value] + more.value, more.rest))
  }

  function ReadString(s: Bytes): (r: Option<Read<string>>)
    ensures r.Some? ==> |r.value.rest| < |s|
  {
    if s == [] || s[0] != 0x22 then None else ReadText(s[1..])
  }

  // ----- what the encoder writes for a character -----

  lemma SixBits(p: nat)
    ensures p == p / 64 * 64 + p % 64
    ensures p / 64 == p / 4096 * 64 + p / 64 % 64
    ensures p / 4096 == p / 262144 * 64 + p / 4096 % 64
  {
  }

  lemma OneOrTwoBytes(c: char, rest: Bytes)
    requires c as int < 0x800
    ensures ReadUtf8(RenderUtf8(c) + rest) == Some(Read(c, rest))
  {
    assert (RenderUtf8(c) + rest)[|RenderUtf8(c)|..] == rest;
  }

  lemma ThreeBytes(c: char, rest: Bytes)
    requires 0x800 <= c as int < 0x10000
    ensures ReadUtf8(RenderUtf8(c) + rest) == Some(Read(c, rest))
  {
    SixBits(c as int);
    assert (RenderUtf8(c) + rest)[3..] == rest;
  }

  lemma FourBytes(c: char, rest: Bytes)
    requires 0x10000 <= c as int
    ensures ReadUtf8(RenderUtf8(c) + rest) == Some(Read(c, rest))
  {
    SixBits(c as int);
    assert (RenderUtf8(c) + rest)[4..] == rest;
  }

  lemma Utf8ReadsBack(c: char, rest: Bytes)
    ensures ReadUtf8(RenderUtf8(c) + rest) == Some(Read(c, rest))
  {
    hide ReadUtf8, RenderUtf8;
    if c as int < 0x800 {
      OneOrTwoBytes(c, rest);
    } else if c as int < 0x10000 {
      ThreeBytes(c, rest);
    } else {
      FourBytes(c, rest);
    }
  }

  lemma HexReadsBack(d: int)
    requires 0 <= d < 16
    ensures HexValue(HexDigit(d)) == d
  {
  }

  lemma ShortReadsBack(c: char, rest: Bytes)
    requires ShortEscape(c as int)
    ensures RenderChar(c)[0] == 0x5C && ReadEscape(RenderChar(c)[1..] + rest) == Some(Read(c, rest))
  {
    var s := RenderChar(c)[1..] + rest;
    assert s[1..] == rest;
  }

  lemma FourBits(p: nat)
    requires p < 65536
    ensures p / 4096 % 16 * 4096 + p / 256 % 16 * 256 + p / 16 % 16 * 16 + p % 16 == p
  {
    assert p / 4096 % 16 == p / 4096;
    assert p / 256 == p / 4096 * 16 + p / 256 % 16;
    assert p / 16 == p / 256 * 16 + p / 16 % 16;
  }

  lemma LongReadsBack(c: char, rest: Bytes)
    requires LongEscape(c as int) && !ShortEscape(c as int)
    ensures RenderChar(c)[0] == 0x5C && ReadEscape(RenderChar(c)[1..] + rest) == Some(Read(c, rest))
  {
    var p := c as int;
    HexReadsBack(p / 4096 % 16);
    HexReadsBack(p / 256 % 16);
    HexReadsBack(p / 16 % 16);
    HexReadsBack(p % 16);
    var s := RenderChar(c)[1..] + rest;
    assert s[5..] == rest;
    FourBits(p);
    hide HexValue, HexDigit;
  }

  /** Each character is read back, and never taken for the closing quote. */
  lemma CharReadsBack(c: char, rest: Bytes)
    ensures RenderChar(c)[0] != 0x22 && ReadChar(RenderChar(c) + rest) == Some(Read(c, rest))
  {
    var s := RenderChar(c) + rest;
    if ShortEscape(c as int) {
      ShortReadsBack(c, rest);
      assert s[1..] == RenderChar(c)[1..] + rest;
    } else if LongEscape(c as int) {
      LongReadsBack(c, rest);
      assert s[1..] == RenderChar(c)[1..] + rest;
    } else {
      Utf8ReadsBack(c, rest);
    }
  }

  lemma {:induction false} TextReadsBack(s: string, rest: Bytes)
    ensures ReadText(RenderText(s) + [0x22] + rest) == Some(Read(s, rest))
  {
    var all := RenderText(s) + [0x22] + rest;
    if s == "" {
      assert all[1..] == rest;
    } else {
      var more := RenderText(s[1..]) + [0x22] + rest;
      assert all == RenderChar(s[0]) + more;
      CharReadsBack(s[0], more);
      TextReadsBack(s[1..], rest);
      hide RenderChar, ReadChar, RenderText;
      assert [s[0]] + s[1..] == s;
    }
  }

  /** A string is recovered from what is written for it, and the reader stops at its closing quote. */
  lemma StringReadsBack(s: string, rest: Bytes)
    ensures ReadString(RenderString(s) + rest) == Some(Read(s, rest))
  {
    TextReadsBack(s, rest);
    hide ReadText, RenderText;
    assert (RenderString(s) + rest)[1..] == RenderText(s) + [0x22] + rest;
  }

  // ----- which bytes a string is written in -----

  /** A byte that needs no escape and that no markup gives a meaning. */
  predicate Harmless(b: Byte) {
    b >= 0x20 && b != 0x3C && b != 0x3E && b != 0x26
  }

  /** The bytes of U+2028 or U+2029 start at i. */
  predicate SeparatorAt(bs: Bytes, i: nat) {
    i + 2 < |bs| && bs[i] == 0xE2 && bs[i + 1] == 0x80 && (bs[i + 2] == 0xA8 || bs[i + 2] == 0xA9)
  }

  /** A lead byte E2 stands only at the start of a character of three bytes, which is not a separator. */
  predicate LeadsItsChar(bs: Bytes) {
    forall i | 0 <= i < |bs| && bs[i] == 0xE2 :: i == 0 && |bs| == 3 && !SeparatorAt(bs, 0)
  }

  lemma EscapeIsHarmless(c: char)
    requires ShortEscape(c as int) || LongEscape(c as int)
    ensures var bs := RenderChar(c); (forall i | 0 <= i < |bs| :: Harmless(bs[i]) && bs[i] < 0x80)
  {
  }

  lemma Utf8IsHarmless(c: char)
    requires !ShortEscape(c as int) && !LongEscape(c as int)
    ensures var bs := RenderUtf8(c); (forall i | 0 <= i < |bs| :: Harmless(bs[i])) && LeadsItsChar(bs)
  {
    SixBits(c as int);
  }

  lemma CharIsHarmless(c: char)
    ensures var bs := RenderChar(c); (forall i | 0 <= i < |bs| :: Harmless(bs[i])) && LeadsItsChar(bs)
  {
    if ShortEscape(c as int) || LongEscape(c as int) {
      EscapeIsHarmless(c);
    } else {
      Utf8IsHarmless(c);
    }
  }

  /** No control bytes, no '<', '>' or '&', and neither of the two separators. */
  predicate AllHarmless(bs: Bytes) {
    (forall i | 0 <= i < |bs| :: Harmless(bs[i])) && (forall i | 0 <= i < |bs| :: !SeparatorAt(bs, i))
  }

  lemma HarmlessBefore(head: Bytes, tail: Bytes)
    requires AllHarmless(tail) && LeadsItsChar(head) && forall i | 0 <= i < |head| :: Harmless(head[i])
    ensures AllHarmless(head + tail)
  {
    hide Harmless;
    var bs := head + tail;
    forall i | 0 <= i < |bs|
      ensures !SeparatorAt(bs, i)
    {
      if i >= |head| {
        assert SeparatorAt(tail, i - |head|) == SeparatorAt(bs, i);
      } else if head[i] == 0xE2 {
        assert SeparatorAt(head, 0) == SeparatorAt(bs, 0);
      }
    }
  }

  /** Between its quotes a string is written in harmless bytes only. */
  lemma {:induction false} TextIsHarmless(s: string)
    ensures AllHarmless(RenderText(s))
  {
    if s != "" {
      CharIsHarmless(s[0]);
      TextIsHarmless(s[1..]);
      HarmlessBefore(RenderChar(s[0]), RenderText(s[1..]));
    }
  }

  /** How a character is written: seven of them in the short form, and all that need none without an escape. */
  lemma CharForm(c: char)
    ensures c == '"' ==> RenderChar(c) == [0x5C, 0x22]
    ensures c == '\\' ==> RenderChar(c) == [0x5C, 0x5C]
    ensures c == '\U{0008}' ==> RenderChar(c) == [0x5C, 0x62]
    ensures c == '\U{000C}' ==> RenderChar(c) == [0x5C, 0x66]
    ensures c == '\n' ==> RenderChar(c) == [0x5C, 0x6E]
    ensures c == '\r' ==> RenderChar(c) == [0x5C, 0x72]
    ensures c == '\t' ==> RenderChar(c) == [0x5C, 0x74]
    ensures c != '"' && c != '\\' && AllHarmless(RenderUtf8(c)) ==> RenderChar(c) == RenderUtf8(c)
  {
    if c != '"' && c != '\\' && AllHarmless(RenderUtf8(c)) {
      if ShortEscape(c as int) || LongEscape(c as int) {
        EscapedIsHarmful(c);
      }
    }
  }

  /** Whatever is escaped, the quote and the backslash apart, would have put a harmful byte into the string. */
  lemma EscapedIsHarmful(c: char)
    requires c != '"' && c != '\\' && (ShortEscape(c as int) || LongEscape(c as int))
    ensures !AllHarmless(RenderUtf8(c))
  {
    var bs := RenderUtf8(c);
    if c as int < 0x80 {
      assert !Harmless(bs[0]);
    } else {
      assert SeparatorAt(bs, 0);
    }
  }

  // ----- values -----

  predicate IsSpace(b: Byte) {
    b == 0x20 || b == 0x09 || b == 0x0A || b == 0x0D
  }

  predicate IsDigit(b: Byte) {
    0x30 <= b <= 0x39
  }

  function SkipSpace(s: Bytes): (t: Bytes)
    ensures |t| <= |s|
  {
    if s != [] && IsSpace(s[0]) then SkipSpace(s[1..]) else s
  }

  /** The digits at the start of s, read on from the number before them. */
  function ReadDigits(n: nat, s: Bytes): (r: Read<int>)
    ensures |r.rest| <= |s|
    decreases |s|
  {
    if s != [] && IsDigit(s[0]) then ReadDigits(10 * n + (s[0] - 0x30), s[1..]) else Read(n, s)
  }

  /** An integer; fractions and exponents, which the file has none of, are not read. */
  function ReadNumber(s: Bytes): (r: Option<Read<int>>)
    ensures r.Some? ==> |r.value.rest| < |s|
  {
    if s == [] then None
    else if s[0] == 0x2D then
      (if |s| < 2 || !IsDigit(s[1]) then None else var d := ReadDigits(0, s[1..]); Some(Read(-d.value, d.rest)))
    else if IsDigit(s[0]) then
      var d := ReadDigits(s[0] - 0x30, s[1..]);
      Some(Read(d.value, d.rest))
    else None
  }

  function ReadValue(s: Bytes): (r: Option<Read<Value>>)
    ensures r.Some? ==> |r.value.rest| < |s|
    decreases |s|, 0
  {
    var t := SkipSpace(s);
    if t == [] then None
    else if t[0] == 0x22 then
      (match ReadString(t)
       case None => None
       case Some(text) => Some(Read(Str(text.value), text.rest)))
    else if t[0] == 0x5B then
      var u := SkipSpace(t[1..]);
      if u != [] && u[0] == 0x5D then Some(Read(Arr([]), u[1..]))
      else
        (match ReadItems(t[1..])
         case None => None
         case Some(items) => Some(Read(Arr(items.value), items.rest)))
    else if t[0] == 0x7B then
      var u := SkipSpace(t[1..]);
      if u != [] && u[0] == 0x7D then Some(Read(Obj([]), u[1..]))
      else
        (match ReadFields(t[1..])
         case None => None
         case Some(fields) => Some(Read(Obj(fields.value), fields.rest)))
    else
      (match ReadNumber(t)
       case None => None
       case Some(n) => Some(Read(Number(n.value), n.rest)))
  }

  /** The values of an array up to its closing bracket. */
  function ReadItems(s: Bytes): (r: Option<Read<seq<Value>>>)
    ensures r.Some? ==> |r.value.rest| < |s|
    decreases |s|, 1
  {
    match ReadValue(s)
    case None => None
    case Some(v) =>
      var u := SkipSpace(v.rest);
      if u != [] && u[0] == 0x5D then Some(Read([v.value], u[1..]))
      else if u == [] || u[0] != 0x2C then None
      else
        match ReadItems(u[1..])
        case None => None
        case Some(more) => Some(Read([v.value] + more.value, more.rest))
  }

  /** The members of an object up to its closing brace. */
  function ReadFields(s: Bytes): (r: Option<Read<seq<Field>>>)
    ensures r.Some? ==> |r.value.rest| < |s|
    decreases |s|, 1
  {
    match ReadField(s)
    case None => None
    case Some(f) =>
      var u := SkipSpace(f.rest);
      if u != [] && u[0] == 0x7D then Some(Read([f.value], u[1..]))
      else if u == [] || u[0] != 0x2C then None
      else
        match ReadFields(u[1..])
        case None => None
        case Some(more) => Some(Read([f.value] + more.value, more.rest))
  }

  function ReadField(s: Bytes): (r: Option<Read<Field>>)
    ensures r.Some? ==> |r.value.rest| < |s|
    decreases |s|, 0
  {
    match ReadString(SkipSpace(s))
    case None => None
    case Some(name) =>
      var u := SkipSpace(name.rest);
      if u == [] || u[0] != 0x3A then None
      else
        match ReadValue(u[1..])
        case None => None
        case Some(v) => Some(Read(Field(name.value, v.value), v.rest))
  }

  // ----- what the encoder writes for a value -----

  /** No digit follows that would go on with a number. */
  predicate Ends(rest: Bytes) {
    rest == [] || !IsDigit(rest[0])
  }

  predicate AllSpace(s: Bytes) {
    forall i | 0 <= i < |s| :: IsSpace(s[i])
  }

  lemma {:induction false} SkipsSpace(space: Bytes, s: Bytes)
    requires AllSpace(space) && s != [] && !IsSpace(s[0])
    ensures SkipSpace(space + s) == s
  {
    if space == [] {
      assert space + s == s;
    } else {
      assert (space + s)[1..] == space[1..] + s;
      SkipsSpace(space[1..], s);
    }
  }

  lemma {:induction false} DigitsReadOn(m: nat, n: nat, rest: Bytes)
    ensures ReadDigits(m, RenderDigits(n) + rest) == ReadDigits(m * Pow10(DigitCount(n)) + n, rest)
    decreases n
  {
    if n < 10 {
      assert Pow10(1) == 10;
      assert (RenderDigits(n) + rest)[1..] == rest;
    } else {
      var d: Byte := 0x30 + n % 10;
      assert RenderDigits(n) + rest == RenderDigits(n / 10) + ([d] + rest);
      DigitsReadOn(m, n / 10, [d] + rest);
      assert ([d] + rest)[1..] == rest;
      var p := Pow10(DigitCount(n / 10));
      assert Pow10(DigitCount(n)) == 10 * p;
      assert 10 * (m * p + n / 10) + n % 10 == m * (10 * p) + n;
    }
  }

  lemma {:induction false} StartsWithDigit(n: nat)
    ensures RenderDigits(n) != [] && IsDigit(RenderDigits(n)[0])
  {
    if n >= 10 {
      StartsWithDigit(n / 10);
    }
  }

  lemma DigitsReadBack(n: nat, rest: Bytes)
    requires Ends(rest)
    ensures var s := RenderDigits(n) + rest;
            s != [] && IsDigit(s[0]) && ReadDigits(s[0] - 0x30, s[1..]) == Read(n, rest)
  {
    hide RenderDigits, ReadDigits;
    StartsWithDigit(n);
    DigitsReadOn(0, n, rest);
    hide DigitCount, Pow10;
    assert 0 * Pow10(DigitCount(n)) == 0;
    DigitsBounds(n, RenderDigits(n) + rest, rest);
  }

  /** How reading digits starts and stops. */
  lemma DigitsBounds(n: nat, s: Bytes, rest: Bytes)
    requires s != [] && IsDigit(s[0]) && Ends(rest)
    ensures ReadDigits(0, s) == ReadDigits(s[0] - 0x30, s[1..]) && ReadDigits(n, rest) == Read(n, rest)
  {
  }

  lemma NumberReadsBack(n: int, rest: Bytes)
    requires Ends(rest)
    ensures ReadNumber(RenderNumber(n) + rest) == Some(Read(n, rest))
  {
    var m := if n < 0 then -n else n;
    DigitsReadBack(m, rest);
    var s := RenderDigits(m) + rest;
    if n < 0 {
      assert (RenderNumber(n) + rest)[1..] == s;
      assert ReadDigits(0, s) == ReadDigits(s[0] - 0x30, s[1..]);
    }
    hide RenderDigits, ReadDigits;
  }

  /** The first byte of a value: it tells what kind of value it is, and is neither a space nor a closing bracket. */
  predicate Opens(b: Byte) {
    b == 0x2D || IsDigit(b) || b == 0x22 || b == 0x5B || b == 0x7B
  }

  lemma StartsValue(v: Value, depth: nat)
    ensures Render(v, depth) != [] && Opens(Render(v, depth)[0])
    ensures v.Number? <==> Render(v, depth)[0] == 0x2D || IsDigit(Render(v, depth)[0])
    ensures v.Str? <==> Render(v, depth)[0] == 0x22
    ensures v.Arr? <==> Render(v, depth)[0] == 0x5B
    ensures v.Obj? <==> Render(v, depth)[0] == 0x7B
  {
    match v
    case Number(n) => StartsWithDigit(if n < 0 then -n else n);
    case _ =>
  }

  /** A closing bracket on its own line. */
  function CloseLine(depth: nat, bracket: Byte): Bytes {
    [0x0A] + Spaces(2 * depth) + [bracket]
  }

  /** What stands before an element: a new line at its depth. */
  function NewLine(depth: nat): (s: Bytes)
    ensures AllSpace(s)
  {
    [0x0A] + Spaces(2 * (depth + 1))
  }

  lemma CloseSkips(depth: nat, bracket: Byte, rest: Bytes)
    requires !IsSpace(bracket)
    ensures SkipSpace(CloseLine(depth, bracket) + rest) == [bracket] + rest
    ensures Ends(CloseLine(depth, bracket) + rest)
  {
    var space := [0x0A] + Spaces(2 * depth);
    assert CloseLine(depth, bracket) + rest == space + ([bracket] + rest);
    SkipsSpace(space, [bracket] + rest);
  }

  /** The elements after the opening bracket, as they are written. */
  function ItemsBody(items: seq<Value>, depth: nat): Bytes
    requires items != []
  {
    NewLine(depth) + Render(items[0], depth + 1) + RenderItems(items[1..], depth, 0x2C)
  }

  lemma ItemsAre(items: seq<Value>, depth: nat, lead: Byte)
    requires items != []
    ensures RenderItems(items, depth, lead) == [lead] + ItemsBody(items, depth)
  {
  }

  /** Every value is recovered from what is written for it, at any depth, and the reader stops where it ends. */
  lemma {:induction false} ValueReadsBack(v: Value, depth: nat, space: Bytes, rest: Bytes)
    requires AllSpace(space) && Ends(rest)
    ensures ReadValue(space + Render(v, depth) + rest) == Some(Read(v, rest))
    decreases v, 1
  {
    StartsValue(v, depth);
    var t := Render(v, depth) + rest;
    assert space + Render(v, depth) + rest == space + t;
    SkipsSpace(space, t);
    match v
    case Number(n) => NumberReadsBack(n, rest);
    case Str(s) => StringReadsBack(s, rest);
    case Arr(items) => ArrayReadsBack(items, depth, rest);
    case Obj(fields) => ObjectReadsBack(fields, depth, rest);
  }

  lemma ReadsArray(body: Bytes, items: seq<Value>, rest: Bytes)
    requires SkipSpace(body) != [] && SkipSpace(body)[0] != 0x5D && ReadItems(body) == Some(Read(items, rest))
    ensures ReadValue([0x5B] + body) == Some(Read(Arr(items), rest))
  {
    hide ReadItems;
    assert ([0x5B] + body)[1..] == body;
  }

  lemma ReadsNoItems(rest: Bytes)
    ensures ReadValue([0x5B, 0x5D] + rest) == Some(Read(Arr([]), rest))
    ensures ReadValue([0x7B, 0x7D] + rest) == Some(Read(Obj([]), rest))
  {
    assert ([0x5B, 0x5D] + rest)[1..] == [0x5D] + rest && ([0x5D] + rest)[1..] == rest;
    assert ([0x7B, 0x7D] + rest)[1..] == [0x7D] + rest && ([0x7D] + rest)[1..] == rest;
  }

  lemma ReadsLastItem(body: Bytes, v: Value, more: Bytes, rest: Bytes)
    requires ReadValue(body) == Some(Read(v, more)) && SkipSpace(more) == [0x5D] + rest
    ensures ReadItems(body) == Some(Read([v], rest))
  {
    hide ReadValue;
    assert ([0x5D] + rest)[1..] == rest;
  }

  lemma ReadsItem(body: Bytes, v: Value, next: Bytes, later: seq<Value>, rest: Bytes)
    requires ReadValue(body) == Some(Read(v, [0x2C] + next)) && ReadItems(next) == Some(Read(later, rest))
    ensures ReadItems(body) == Some(Read([v] + later, rest))
  {
    hide ReadValue;
    assert ([0x2C] + next)[1..] == next && SkipSpace([0x2C] + next) == [0x2C] + next;
  }

  /** What follows the first element. */
  function AfterItem(items: seq<Value>, depth: nat, rest: Bytes): Bytes
    requires items != []
  {
    RenderItems(items[1..], depth, 0x2C) + (CloseLine(depth, 0x5D) + rest)
  }

  lemma ItemsSplit(items: seq<Value>, depth: nat, rest: Bytes)
    requires items != []
    ensures ItemsBody(items, depth) + (CloseLine(depth, 0x5D) + rest)
            == NewLine(depth) + Render(items[0], depth + 1) + AfterItem(items, depth, rest)
    ensures items[1..] == [] ==> AfterItem(items, depth, rest) == CloseLine(depth, 0x5D) + rest
    ensures items[1..] != [] ==>
              AfterItem(items, depth, rest) == [0x2C] + (ItemsBody(items[1..], depth) + (CloseLine(depth, 0x5D) + rest))
  {
    hide Render, NewLine, CloseLine;
    if items[1..] != [] {
      ItemsAre(items[1..], depth, 0x2C);
      hide RenderItems;
    }
  }

  lemma ArraySplit(items: seq<Value>, depth: nat, rest: Bytes)
    requires items != []
    ensures Render(Arr(items), depth) + rest == [0x5B] + (ItemsBody(items, depth) + (CloseLine(depth, 0x5D) + rest))
  {
    ItemsAre(items, depth, 0x5B);
    hide ItemsBody, RenderItems;
  }

  lemma {:induction false} ArrayReadsBack(items: seq<Value>, depth: nat, rest: Bytes)
    requires Ends(rest)
    ensures ReadValue(Render(Arr(items), depth) + rest) == Some(Read(Arr(items), rest))
    decreases items, 2
  {
    if items == [] {
      hide ReadValue;
      ReadsNoItems(rest);
    } else {
      hide ReadValue, ReadItems, Render, ItemsBody, CloseLine, NewLine, SkipSpace, AfterItem;
      ArraySplit(items, depth, rest);
      ItemsSplit(items, depth, rest);
      ItemsReadBack(items, depth, rest);
      BodyOpens(items[0], depth, AfterItem(items, depth, rest));
      ReadsArray(ItemsBody(items, depth) + (CloseLine(depth, 0x5D) + rest), items, rest);
    }
  }

  /** An element is not taken for the closing bracket. */
  lemma BodyOpens(v: Value, depth: nat, rest: Bytes)
    ensures var u := SkipSpace(NewLine(depth) + Render(v, depth + 1) + rest);
            u != [] && u[0] != 0x5D && u[0] != 0x7D
  {
    StartsValue(v, depth + 1);
    hide Render;
    assert NewLine(depth) + Render(v, depth + 1) + rest == NewLine(depth) + (Render(v, depth + 1) + rest);
    SkipsSpace(NewLine(depth), Render(v, depth + 1) + rest);
  }

  lemma {:induction false} ItemsReadBack(items: seq<Value>, depth: nat, rest: Bytes)
    requires items != []
    ensures ReadItems(ItemsBody(items, depth) + (CloseLine(depth, 0x5D) + rest)) == Some(Read(items, rest))
    decreases items, 1
  {
    var later, body := items[1..], ItemsBody(items, depth) + (CloseLine(depth, 0x5D) + rest);
    var more := AfterItem(items, depth, rest);
    assert items == [items[0]] + later;
    ItemsSplit(items, depth, rest);
    CloseSkips(depth, 0x5D, rest);
    hide ReadValue, ReadItems, Render, NewLine, SkipSpace, CloseLine, ItemsBody, AfterItem;
    ValueReadsBack(items[0], depth + 1, NewLine(depth), more);
    if later == [] {
      assert items == [items[0]];
      ReadsLastItem(body, items[0], more, rest);
    } else {
      ItemsReadBack(later, depth, rest);
      ReadsItem(body, items[0], ItemsBody(later, depth) + (CloseLine(depth, 0x5D) + rest), later, rest);
    }
  }

  /** A member after its opening brace or comma, as it is written. */
  function FieldBody(f: Field, depth: nat): Bytes {
    NewLine(depth) + RenderString(f.name) + [0x3A, 0x20] + Render(f.value, depth + 1)
  }

  function FieldsBody(fields: seq<Field>, depth: nat): Bytes
    requires fields != []
  {
    FieldBody(fields[0], depth) + RenderFields(fields[1..], depth, 0x2C)
  }

  lemma FieldsAre(fields: seq<Field>, depth: nat, lead: Byte)
    requires fields != []
    ensures RenderFields(fields, depth, lead) == [lead] + FieldsBody(fields, depth)
  {
  }

  lemma ReadsObject(body: Bytes, fields: seq<Field>, rest: Bytes)
    requires SkipSpace(body) != [] && SkipSpace(body)[0] != 0x7D && ReadFields(body) == Some(Read(fields, rest))
    ensures ReadValue([0x7B] + body) == Some(Read(Obj(fields), rest))
  {
    hide ReadFields;
    assert ([0x7B] + body)[1..] == body;
  }

  lemma ReadsLastField(body: Bytes, f: Field, more: Bytes, rest: Bytes)
    requires ReadField(body) == Some(Read(f, more)) && SkipSpace(more) == [0x7D] + rest
    ensures ReadFields(body) == Some(Read([f], rest))
  {
    hide ReadField;
    assert ([0x7D] + rest)[1..] == rest;
  }

  lemma ReadsField(body: Bytes, f: Field, next: Bytes, later: seq<Field>, rest: Bytes)
    requires ReadField(body) == Some(Read(f, [0x2C] + next)) && ReadFields(next) == Some(Read(later, rest))
    ensures ReadFields(body) == Some(Read([f] + later, rest))
  {
    hide ReadField;
    assert ([0x2C] + next)[1..] == next && SkipSpace([0x2C] + next) == [0x2C] + next;
  }

  /** What follows the first member. */
  function AfterField(fields: seq<Field>, depth: nat, rest: Bytes): Bytes
    requires fields != []
  {
    RenderFields(fields[1..], depth, 0x2C) + (CloseLine(depth, 0x7D) + rest)
  }

  lemma FieldsSplit(fields: seq<Field>, depth: nat, rest: Bytes)
    requires fields != []
    ensures FieldsBody(fields, depth) + (CloseLine(depth, 0x7D) + rest)
            == FieldBody(fields[0], depth) + AfterField(fields, depth, rest)
    ensures fields[1..] == [] ==> AfterField(fields, depth, rest) == CloseLine(depth, 0x7D) + rest
    ensures fields[1..] != [] ==>
              AfterField(fields, depth, rest)
              == [0x2C] + (FieldsBody(fields[1..], depth) + (CloseLine(depth, 0x7D) + rest))
  {
    hide FieldBody, CloseLine;
    if fields[1..] != [] {
      FieldsAre(fields[1..], depth, 0x2C);
      hide RenderFields;
    }
  }

  lemma ObjectSplit(fields: seq<Field>, depth: nat, rest: Bytes)
    requires fields != []
    ensures Render(Obj(fields), depth) + rest == [0x7B] + (FieldsBody(fields, depth) + (CloseLine(depth, 0x7D) + rest))
  {
    FieldsAre(fields, depth, 0x7B);
    hide FieldsBody, RenderFields;
  }

  lemma {:induction false} ObjectReadsBack(fields: seq<Field>, depth: nat, rest: Bytes)
    requires Ends(rest)
    ensures ReadValue(Render(Obj(fields), depth) + rest) == Some(Read(Obj(fields), rest))
    decreases fields, 3
  {
    if fields == [] {
      hide ReadValue;
      ReadsNoItems(rest);
    } else {
      hide ReadValue, ReadFields, Render, FieldsBody, FieldBody, CloseLine, SkipSpace, AfterField;
      ObjectSplit(fields, depth, rest);
      FieldsSplit(fields, depth, rest);
      FieldsReadBack(fields, depth, rest);
      NameOpens(fields[0], depth, AfterField(fields, depth, rest));
      ReadsObject(FieldsBody(fields, depth) + (CloseLine(depth, 0x7D) + rest), fields, rest);
    }
  }

  /** A member's name comes next, and is not taken for the closing brace. */
  lemma NameOpens(f: Field, depth: nat, rest: Bytes)
    ensures var after := [0x3A, 0x20] + Render(f.value, depth + 1) + rest;
            SkipSpace(FieldBody(f, depth) + rest) == RenderString(f.name) + after
    ensures SkipSpace(FieldBody(f, depth) + rest)[0] == 0x22
  {
    var after := [0x3A, 0x20] + Render(f.value, depth + 1) + rest;
    hide Render, RenderText;
    assert FieldBody(f, depth) + rest == NewLine(depth) + (RenderString(f.name) + after);
    SkipsSpace(NewLine(depth), RenderString(f.name) + after);
  }

  lemma {:induction false} FieldReadsBack(f: Field, depth: nat, rest: Bytes)
    requires Ends(rest)
    ensures ReadField(FieldBody(f, depth) + rest) == Some(Read(f, rest))
    decreases f, 2
  {
    hide ReadValue, ReadString, Render, RenderString, FieldBody, SkipSpace, ReadField;
    var value := [0x20] + Render(f.value, depth + 1) + rest;
    NameOpens(f, depth, rest);
    Regroup(Render(f.value, depth + 1), rest);
    StringReadsBack(f.name, [0x3A] + value);
    ValueReadsBack(f.value, depth + 1, [0x20], rest);
    ReadsNamed(FieldBody(f, depth) + rest, f, value, rest);
  }

  lemma Regroup(v: Bytes, rest: Bytes)
    ensures [0x3A, 0x20] + v + rest == [0x3A] + ([0x20] + v + rest)
  {
  }

  lemma ReadsNamed(body: Bytes, f: Field, value: Bytes, rest: Bytes)
    requires ReadString(SkipSpace(body)) == Some(Read(f.name, [0x3A] + value))
    requires ReadValue(value) == Some(Read(f.value, rest))
    ensures ReadField(body) == Some(Read(f, rest))
  {
    hide ReadValue, ReadString;
    assert ([0x3A] + value)[1..] == value && SkipSpace([0x3A] + value) == [0x3A] + value;
  }

  lemma {:induction false} FieldsReadBack(fields: seq<Field>, depth: nat, rest: Bytes)
    requires fields != []
    ensures ReadFields(FieldsBody(fields, depth) + (CloseLine(depth, 0x7D) + rest)) == Some(Read(fields, rest))
    decreases fields, 2
  {
    var later, body := fields[1..], FieldsBody(fields, depth) + (CloseLine(depth, 0x7D) + rest);
    var more := AfterField(fields, depth, rest);
    assert fields == [fields[0]] + later;
    FieldsSplit(fields, depth, rest);
    CloseSkips(depth, 0x7D, rest);
    hide ReadField, ReadFields, SkipSpace, CloseLine, FieldsBody, FieldBody, AfterField;
    FieldReadsBack(fields[0], depth, more);
    if later == [] {
      assert fields == [fields[0]];
      ReadsLastField(body, fields[0], more, rest);
    } else {
      FieldsReadBack(later, depth, rest);
      ReadsField(body, fields[0], FieldsBody(later, depth) + (CloseLine(depth, 0x7D) + rest), later, rest);
    }
  }
}
