/** Go strings and their quotation: UTF-8, `strconv.Quote` (the verb `%q`) and the reader of quoted
    strings. A Go string is any sequence of bytes; a byte is written here as a character below 256.
    Which code points print as themselves is a parameter: Go's `strconv.IsPrint` in the original, never
    true of a line break. */
module GoQuote {
  import opened Prelude

  type Printable = int -> bool

  /** Every character is a byte. */
  predicate Octets(s: string) {
    forall i :: 0 <= i < |s| ==> s[i] as int < 256
  }

  // ---- UTF-8 -------------------------------------------------------------------------------------

  predicate ValidRune(r: int) {
    0 <= r < 0xD800 || 0xE000 <= r < 0x11_0000
  }

  function Tail(b: int): (c: char)
    ensures 0x80 <= c as int < 0xC0
  {
    (0x80 + b % 64) as char
  }

  function Encode(r: int): (s: string)
    requires ValidRune(r)
    ensures 1 <= |s| <= 4 && Octets(s)
    ensures r >= 0x80 ==> forall i :: 0 <= i < |s| ==> s[i] as int >= 0x80
  {
    if r < 0x80 then [r as char]
    else if r < 0x800 then [(0xC0 + r / 64) as char, Tail(r)]
    else if r < 0x1_0000 then [(0xE0 + r / 4096) as char, Tail(r / 64), Tail(r)]
    else [(0xF0 + r / 262144) as char, Tail(r / 4096), Tail(r / 64), Tail(r)]
  }

  /** The low bits of the `k`-th byte, if it continues a code point. */
  function Low(s: string, k: nat): Option<int> {
    if k < |s| && 0x80 <= s[k] as int < 0xC0 then Some(s[k] as int - 0x80) else None
  }

  /** `utf8.DecodeRuneInString`: the first code point and its width, or `None` for an invalid byte. */
  function Decode(s: string): (d: Option<(int, nat)>)
    requires s != ""
    ensures d.Some? ==> ValidRune(d.value.0) && 0 < d.value.1 <= |s|
  {
    var b := s[0] as int;
    if b < 0x80 then Some((b, 1))
    else match (Low(s, 1), Low(s, 2), Low(s, 3))
      case (Some(x), _, _) =>
        if 0xC2 <= b < 0xE0 then Some(((b - 0xC0) * 64 + x, 2))
        else if 0xE0 <= b < 0xF0 && Low(s, 2).Some? then
          var r := (b - 0xE0) * 4096 + x * 64 + Low(s, 2).value;
          if r >= 0x800 && ValidRune(r) then Some((r, 3)) else None
        else if 0xF0 <= b < 0xF5 && Low(s, 2).Some? && Low(s, 3).Some? then
          var r := (b - 0xF0) * 262144 + x * 4096 + Low(s, 2).value * 64 + Low(s, 3).value;
          if r >= 0x1_0000 && ValidRune(r) then Some((r, 4)) else None
        else None
      case _ => None
  }

  lemma Digits64(a: int, x: int)
    requires 0 <= x < 64
    ensures (a * 64 + x) / 64 == a && (a * 64 + x) % 64 == x
  {
  }

  lemma Digits3(a: int, x: int, y: int)
    requires 0 <= x < 64 && 0 <= y < 64
    ensures var r := a * 4096 + x * 64 + y; r % 64 == y && r / 64 == a * 64 + x && r / 4096 == a
  {
    Digits64(a * 64 + x, y);
    Digits64(a, x);
  }

  lemma Digits4(a: int, x: int, y: int, z: int)
    requires 0 <= x < 64 && 0 <= y < 64 && 0 <= z < 64
    ensures var r := a * 262144 + x * 4096 + y * 64 + z;
            r % 64 == z && r / 64 == a * 4096 + x * 64 + y && r / 4096 == a * 64 + x && r / 262144 == a
  {
    Digits64(a * 4096 + x * 64 + y, z);
    Digits3(a, x, y);
  }

  /** Encoding the number that lead byte `b` and continuation bytes make up gives those bytes back. */
  lemma Encode2(b: int, x: int)
    requires 0xC2 <= b < 0xE0 && 0 <= x < 64
    ensures Encode((b - 0xC0) * 64 + x) == [b as char, (0x80 + x) as char]
  {
    Digits64(b - 0xC0, x);
  }

  lemma Encode3(b: int, x: int, y: int)
    requires 0xE0 <= b < 0xF0 && 0 <= x < 64 && 0 <= y < 64
    requires var r := (b - 0xE0) * 4096 + x * 64 + y; r >= 0x800 && ValidRune(r)
    ensures Encode((b - 0xE0) * 4096 + x * 64 + y) == [b as char, (0x80 + x) as char, (0x80 + y) as char]
  {
    Digits3(b - 0xE0, x, y);
    Digits64(b - 0xE0, x);
  }

  lemma Encode4(b: int, x: int, y: int, z: int)
    requires 0xF0 <= b < 0xF5 && 0 <= x < 64 && 0 <= y < 64 && 0 <= z < 64
    requires var r := (b - 0xF0) * 262144 + x * 4096 + y * 64 + z; r >= 0x1_0000 && ValidRune(r)
    ensures Encode((b - 0xF0) * 262144 + x * 4096 + y * 64 + z)
            == [b as char, (0x80 + x) as char, (0x80 + y) as char, (0x80 + z) as char]
  {
    Digits4(b - 0xF0, x, y, z);
    Digits3(b - 0xF0, x, y);
    Digits64(b - 0xF0, x);
  }

  /** What is decoded is what would be encoded: nothing overlong, no surrogate. */
  lemma EncodeDecoded(s: string)
    requires s != "" && Decode(s).Some?
    ensures Encode(Decode(s).value.0) == s[..Decode(s).value.1]
  {
    var b, w := s[0] as int, Decode(s).value.1;
    if w == 1 {
    } else if w == 2 {
      Encode2(b, Low(s, 1).value);
      assert s[..2] == [s[0], s[1]];
    } else if w == 3 {
      Encode3(b, Low(s, 1).value, Low(s, 2).value);
      assert s[..3] == [s[0], s[1], s[2]];
    } else {
      Encode4(b, Low(s, 1).value, Low(s, 2).value, Low(s, 3).value);
      assert s[..4] == [s[0], s[1], s[2], s[3]];
    }
  }

  lemma Regroup3(r: int)
    requires r >= 0
    ensures r / 4096 * 4096 + r / 64 % 64 * 64 + r % 64 == r
  {
    assert r / 4096 == r / 64 / 64;
  }

  lemma Regroup4(r: int)
    requires r >= 0
    ensures r / 262144 * 262144 + r / 4096 % 64 * 4096 + r / 64 % 64 * 64 + r % 64 == r
  {
    assert r / 4096 == r / 64 / 64 && r / 262144 == r / 64 / 64 / 64;
    Regroup3(r);
  }

  /** And every encoding decodes, whatever follows it. */
  lemma DecodeEncoded(r: int, rest: string)
    requires ValidRune(r)
    ensures Decode(Encode(r) + rest) == Some((r, |Encode(r)|))
  {
    var s, e := Encode(r) + rest, Encode(r);
    assert s[0] == e[0] && (|e| > 1 ==> s[1] == e[1]) && (|e| > 2 ==> s[2] == e[2]) && (|e| > 3 ==> s[3] == e[3]);
    if |e| == 2 {
      assert Low(s, 1) == Some(r % 64);
    } else if |e| == 3 {
      assert Low(s, 1) == Some(r / 64 % 64) && Low(s, 2) == Some(r % 64);
      Regroup3(r);
    } else if |e| == 4 {
      assert Low(s, 1) == Some(r / 4096 % 64) && Low(s, 2) == Some(r / 64 % 64) && Low(s, 3) == Some(r % 64);
      Regroup4(r);
    }
  }

  // ---- Go's quoted strings ---------------------------------------------------------------------

  function Pow16(w: nat): (p: int)
    ensures p > 0
  {
    if w == 0 then 1 else 16 * Pow16(w - 1)
  }

  function HexDigit(d: int): (c: char)
    requires 0 <= d < 16
    ensures c !in "\n\""
  {
    if d < 10 then (48 + d) as char else (87 + d) as char
  }

  function HexValue(c: char): Option<int> {
    if '0' <= c <= '9' then Some(c as int - 48)
    else if 'a' <= c <= 'f' then Some(c as int - 87)
    else if 'A' <= c <= 'F' then Some(c as int - 55)
    else None
  }

  function Hex(n: nat, w: nat): (s: string)
    ensures |s| == w && '\n' !in s
  {
    if w == 0 then "" else Hex(n / 16, w - 1) + [HexDigit(n % 16)]
  }

  function ReadHex(s: string): Option<nat> {
    if s == "" then Some(0)
    else match (ReadHex(s[..|s| - 1]), HexValue(s[|s| - 1]))
      case (Some(n), Some(d)) => Some(16 * n + d)
      case _ => None
  }

  lemma {:induction false} ReadHexHex(n: nat, w: nat)
    requires n < Pow16(w)
    ensures ReadHex(Hex(n, w)) == Some(n)
  {
    if w > 0 {
      ReadHexHex(n / 16, w - 1);
      assert Hex(n, w)[..w - 1] == Hex(n / 16, w - 1);
    }
  }

  /** The letter after the backslash of a short escape. */
  function ShortEscape(r: int): Option<char> {
    match r
    case 7 => Some('a')
    case 8 => Some('b')
    case 12 => Some('f')
    case 10 => Some('n')
    case 13 => Some('r')
    case 9 => Some('t')
    case 11 => Some('v')
    case _ => None
  }

  function QuoteRune(isPrint: Printable, r: int): (s: string)
    requires ValidRune(r)
    ensures |s| > 0
  {
    if r == '"' as int || r == '\\' as int then ['\\', r as char]
    else if isPrint(r) then Encode(r)
    else match ShortEscape(r)
      case Some(letter) => ['\\', letter]
      case None =>
        if r < 32 || r == 127 then "\\x" + Hex(r, 2)
        else if r < 0x1_0000 then "\\u" + Hex(r, 4)
        else "\\U" + Hex(r, 8)
  }

  /** How many bytes are quoted at once. */
  function Width(s: string): (w: nat)
    requires s != ""
    ensures 0 < w <= |s|
  {
    if Decode(s).Some? then Decode(s).value.1 else 1
  }

  /** The quotation of the first code point, or of the first byte when it is invalid. */
  function QuoteFirst(isPrint: Printable, s: string): (q: string)
    requires s != ""
    ensures |q| > 0
  {
    if Decode(s).Some? then QuoteRune(isPrint, Decode(s).value.0) else "\\x" + Hex(s[0] as int, 2)
  }

  function QuoteBody(isPrint: Printable, value: string): string
    decreases |value|
  {
    if value == "" then "" else QuoteFirst(isPrint, value) + QuoteBody(isPrint, value[Width(value)..])
  }

  /** `%q`. */
  function Quote(isPrint: Printable, value: string): string {
    "\"" + QuoteBody(isPrint, value) + "\""
  }

  function ReadShort(letter: char): Option<char> {
    if letter == 'a' then Some(7 as char)
    else if letter == 'b' then Some(8 as char)
    else if letter == 'f' then Some(12 as char)
    else if letter == 'n' then Some('\n')
    else if letter == 'r' then Some('\r')
    else if letter == 't' then Some('\t')
    else if letter == 'v' then Some(11 as char)
    else if letter == '"' || letter == '\\' then Some(letter)
    else None
  }

  function HexWidth(letter: char): nat {
    if letter == 'x' then 2 else if letter == 'u' then 4 else if letter == 'U' then 8 else 0
  }

  /** The bytes an escape at the start of `s` stands for and the length of the escape. */
  function ReadEscape(s: string): (r: Option<(string, nat)>)
    ensures r.Some? ==> 0 < r.value.1 <= |s|
  {
    if |s| < 2 || s[0] != '\\' then None
    else
      var w := HexWidth(s[1]);
      if w == 0 then
        match ReadShort(s[1]) { case None => None case Some(c) => Some(([c], 2)) }
      else if |s| < 2 + w then None
      else match ReadHex(s[2..2 + w])
        case None => None
        case Some(n) =>
          if s[1] == 'x' then (if n < 256 then Some(([n as char], 2 + w)) else None)
          else if ValidRune(n) then Some((Encode(n), 2 + w)) else None
  }

  function UnquoteBody(s: string): Option<string>
    decreases |s|
  {
    if s == "" then Some("")
    else if s[0] == '\n' || s[0] == '"' then None
    else if s[0] != '\\' then
      match UnquoteBody(s[1..]) { case None => None case Some(rest) => Some([s[0]] + rest) }
    else match ReadEscape(s)
      case None => None
      case Some((text, n)) => match UnquoteBody(s[n..]) { case None => None case Some(rest) => Some(text + rest) }
  }

  predicate Plain(c: char) {
    c != '\n' && c != '"' && c != '\\'
  }

  lemma {:induction false} PlainCopied(q: string, rest: string)
    requires forall i :: 0 <= i < |q| ==> Plain(q[i])
    requires UnquoteBody(rest).Some?
    ensures UnquoteBody(q + rest) == Some(q + UnquoteBody(rest).value)
  {
    if q == "" {
      assert q + rest == rest;
      assert q + UnquoteBody(rest).value == UnquoteBody(rest).value;
    } else {
      assert (q + rest)[1..] == q[1..] + rest;
      PlainCopied(q[1..], rest);
      assert [q[0]] + (q[1..] + UnquoteBody(rest).value) == q + UnquoteBody(rest).value;
    }
  }

  lemma HexEscape(letter: char, n: nat, rest: string)
    requires HexWidth(letter) > 0 && n < Pow16(HexWidth(letter))
    requires if letter == 'x' then n < 256 else ValidRune(n)
    ensures var q := ['\\', letter] + Hex(n, HexWidth(letter));
            ReadEscape(q + rest) == Some((if letter == 'x' then [n as char] else Encode(n), |q|))
  {
    var w := HexWidth(letter);
    var s := ['\\', letter] + Hex(n, w) + rest;
    assert s[2..2 + w] == Hex(n, w);
    ReadHexHex(n, w);
  }

  /** A code point that does not print as itself is quoted by an escape that stands for it. */
  lemma RuneEscape(isPrint: Printable, r: int, rest: string)
    requires ValidRune(r) && !isPrint('\n' as int)
    requires !isPrint(r) || r == '"' as int || r == '\\' as int
    ensures ReadEscape(QuoteRune(isPrint, r) + rest) == Some((Encode(r), |QuoteRune(isPrint, r)|))
    ensures '\n' !in QuoteRune(isPrint, r)
  {
    if r != '"' as int && r != '\\' as int && ShortEscape(r) == None {
      assert Pow16(2) == 256 && Pow16(4) == 0x1_0000 && Pow16(8) == 0x1_0000_0000;
      HexEscape(if r < 32 || r == 127 then 'x' else if r < 0x1_0000 then 'u' else 'U', r, rest);
    }
  }

  /** Reading a quotation gives back what was quoted first. */
  lemma FirstRead(isPrint: Printable, s: string, rest: string)
    requires !isPrint('\n' as int) && s != "" && Octets(s) && UnquoteBody(rest).Some?
    ensures UnquoteBody(QuoteFirst(isPrint, s) + rest) == Some(s[..Width(s)] + UnquoteBody(rest).value)
    ensures '\n' !in QuoteFirst(isPrint, s)
  {
    var q := QuoteFirst(isPrint, s);
    if Decode(s).None? {
      assert Pow16(2) == 256;
      HexEscape('x', s[0] as int, rest);
      assert (q + rest)[|q|..] == rest;
      assert s[..1] == [s[0]];
    } else {
      var r := Decode(s).value.0;
      EncodeDecoded(s);
      if isPrint(r) && r != '"' as int && r != '\\' as int {
        assert forall i :: 0 <= i < |q| ==> Plain(q[i]);
        PlainCopied(q, rest);
      } else {
        RuneEscape(isPrint, r, rest);
        assert (q + rest)[|q|..] == rest;
      }
    }
  }

  /** Reading a quoted value gives the value back, byte by byte, valid UTF-8 or not. */
  lemma {:induction false} UnquoteQuote(isPrint: Printable, value: string)
    requires !isPrint('\n' as int) && Octets(value)
    ensures UnquoteBody(QuoteBody(isPrint, value)) == Some(value)
    ensures '\n' !in QuoteBody(isPrint, value)
    decreases |value|
  {
    if value != "" {
      var w := Width(value);
      UnquoteQuote(isPrint, value[w..]);
      FirstRead(isPrint, value, QuoteBody(isPrint, value[w..]));
      assert value[..w] + value[w..] == value;
    }
  }

  /** Go's escapes, letter by letter. */
  lemma EscapesAre(isPrint: Printable)
    ensures QuoteRune(isPrint, '"' as int) == "\\\"" && QuoteRune(isPrint, '\\' as int) == "\\\\"
    ensures !isPrint(7) ==> QuoteRune(isPrint, 7) == "\\a"
    ensures !isPrint(8) ==> QuoteRune(isPrint, 8) == "\\b"
    ensures !isPrint(9) ==> QuoteRune(isPrint, 9) == "\\t"
    ensures !isPrint(10) ==> QuoteRune(isPrint, 10) == "\\n"
    ensures !isPrint(11) ==> QuoteRune(isPrint, 11) == "\\v"
    ensures !isPrint(12) ==> QuoteRune(isPrint, 12) == "\\f"
    ensures !isPrint(13) ==> QuoteRune(isPrint, 13) == "\\r"
  {
  }

  /** And by hexadecimal digits in lower case, the leading one first. */
  lemma HexEscapes(isPrint: Printable, r: int)
    requires ValidRune(r) && r > 13 && !isPrint(r) && r != '"' as int && r != '\\' as int
    ensures r < 32 || r == 127 ==> QuoteRune(isPrint, r) == "\\x" + Hex(r, 2)
    ensures 32 <= r < 0x1_0000 && r != 127 ==> QuoteRune(isPrint, r) == "\\u" + Hex(r, 4)
    ensures 0x1_0000 <= r ==> QuoteRune(isPrint, r) == "\\U" + Hex(r, 8)
  {
  }

  lemma HexDigits(n: nat, w: nat)
    requires w > 0
    ensures Hex(n, w)[..w - 1] == Hex(n / 16, w - 1)
    ensures Hex(n, w)[w - 1] == "0123456789abcdef"[n % 16]
  {
  }
}
