/** `json_escape` and `json_attach_lldb` (examples/rust/debug_with_dbg.rs),
    together with a decoder for JSON string literals following section 7 of
    RFC 8259, against which the escaper is proved to round-trip. */
module JsonString {
  import opened Wrappers

  /** `char::is_control`: the general category Cc, that is U+0000..U+001F
      and U+007F..U+009F. */
  predicate IsControl(c: char)
  {
    c as int < 0x20 || 0x7F <= c as int <= 0x9F
  }

  /** One lower-case hexadecimal digit, as `format!` writes it. */
  function HexDigit(d: nat): (c: char)
    requires d < 16
    ensures !IsControl(c)
  {
    if d < 10 then ('0' as int + d) as char else ('a' as int + d - 10) as char
  }

  /** The zero-padded four-digit hex format: four lower-case hexadecimal digits, most significant first. */
  function Hex4(n: nat): (h: string)
    requires n < 0x10000
    ensures |h| == 4
    ensures forall i :: 0 <= i < |h| ==> !IsControl(h[i])
  {
    var n1 := n / 16;
    var n2 := n1 / 16;
    [HexDigit(n2 / 16), HexDigit(n2 % 16), HexDigit(n1 % 16), HexDigit(n % 16)]
  }

  /** The escaped form of one character, as the `match` in `json_escape`
      writes it. */
  function EscapeChar(c: char): (e: string)
    ensures e != []
    ensures forall i :: 0 <= i < |e| ==> !IsControl(e[i])
  {
    if c == '"' then "\\\""
    else if c == '\\' then "\\\\"
    else if c == '\n' then "\\n"
    else if c == '\r' then "\\r"
    else if c == '\t' then "\\t"
    else if IsControl(c) then "\\u" + Hex4(c as int)
    else [c]
  }

  /** The escaped form of a whole string: the characters escaped one by
      one, in order. It holds no control character, so in particular no
      line break. */
  function Escape(s: string): (r: string)
    ensures |r| >= |s|
    ensures forall i :: 0 <= i < |r| ==> !IsControl(r[i])
  {
    if s == [] then [] else EscapeChar(s[0]) + Escape(s[1..])
  }

  /** Escaping distributes over concatenation. */
  lemma {:induction false} EscapeConcat(a: string, b: string)
    ensures Escape(a + b) == Escape(a) + Escape(b)
  {
    if a == [] {
      assert a + b == b;
    } else {
      assert (a + b)[1..] == a[1..] + b;
      EscapeConcat(a[1..], b);
    }
  }

  /** `json_escape`: builds the escaped string in a mutable buffer, one
      input character at a time. */
  method JsonEscape(input: string) returns (out: string)
    ensures out == Escape(input)
  {
    out := [];
    for i := 0 to |input|
      invariant out == Escape(input[..i])
    {
      var ch := input[i];
      var piece: string;
      if ch == '"' {
        piece := "\\\"";
      } else if ch == '\\' {
        piece := "\\\\";
      } else if ch == '\n' {
        piece := "\\n";
      } else if ch == '\r' {
        piece := "\\r";
      } else if ch == '\t' {
        piece := "\\t";
      } else if IsControl(ch) {
        piece := "\\u" + Hex4(ch as int);
      } else {
        piece := [ch];
      }
      EscapeSnoc(input[..i], ch);
      assert input[..i + 1] == input[..i] + [ch];
      out := out + piece;
    }
    assert input[..|input|] == input;
  }

  lemma EscapeSnoc(a: string, c: char)
    ensures Escape(a + [c]) == Escape(a) + EscapeChar(c)
  {
    EscapeConcat(a, [c]);
    assert Escape([c]) == EscapeChar(c) + Escape([]);
  }

  // ---------------------------------------------------------------------
  // Decoding, following section 7 of RFC 8259.
  // ---------------------------------------------------------------------

  /** The value of one hexadecimal digit, either case. */
  function HexValue(c: char): (v: Option<nat>)
    ensures v.Some? ==> v.value < 16
  {
    if '0' <= c <= '9' then Some(c as int - '0' as int)
    else if 'a' <= c <= 'f' then Some(c as int - 'a' as int + 10)
    else if 'A' <= c <= 'F' then Some(c as int - 'A' as int + 10)
    else None
  }

  /** The value of the four hexadecimal digits after `\u`. */
  function HexValue4(h: string): (v: Option<nat>)
    requires |h| == 4
    ensures v.Some? ==> v.value < 0x10000
  {
    match (HexValue(h[0]), HexValue(h[1]), HexValue(h[2]), HexValue(h[3]))
    case (Some(a), Some(b), Some(c), Some(d)) => Some(((a * 16 + b) * 16 + c) * 16 + d)
    case _ => None
  }

  lemma HexDigitValue(d: nat)
    requires d < 16
    ensures HexValue(HexDigit(d)) == Some(d)
  {
  }

  /** Reading back four digits written by `Hex4` gives the number. */
  lemma Hex4RoundTrip(n: nat)
    requires n < 0x10000
    ensures HexValue4(Hex4(n)) == Some(n)
  {
    var n1 := n / 16;
    var n2 := n1 / 16;
    HexDigitValue(n2 / 16);
    HexDigitValue(n2 % 16);
    HexDigitValue(n1 % 16);
    HexDigitValue(n % 16);
  }

  /** The character that follows a backslash in a two-character escape,
      and what it stands for. */
  function ShortEscape(c: char): Option<char>
  {
    match c
    case '"' => Some('"')
    case '\\' => Some('\\')
    case '/' => Some('/')
    case 'b' => Some(8 as char)
    case 'f' => Some(12 as char)
    case 'n' => Some('\n')
    case 'r' => Some('\r')
    case 't' => Some('\t')
    case _ => None
  }

  /** Puts a decoded character in front of the rest of a decoded body. */
  function Cons(c: char, rest: Option<(string, string)>): Option<(string, string)>
  {
    match rest
    case None => None
    case Some((v, r)) => Some(([c] + v, r))
  }

  /** Decodes the body of a JSON string literal, the text after its
      opening quote. On success it gives the string the literal denotes
      and the text after the closing quote. A raw quote closes the
      literal; a raw character below U+0020 and an unknown or truncated
      escape are errors; `\uXXXX` denotes a character, and a high
      surrogate must be followed by an escaped low surrogate. */
  function ParseStringBody(t: string): Option<(string, string)>
    decreases |t|
  {
    if t == [] then None
    else if t[0] == '"' then Some(([], t[1..]))
    else if t[0] == '\\' then
      if |t| < 2 then None
      else if t[1] == 'u' then
        if |t| < 6 then None
        else match HexValue4(t[2..6])
          case None => None
          case Some(v) =>
            if 0xD800 <= v < 0xDC00 then
              if |t| < 12 || t[6] != '\\' || t[7] != 'u' then None
              else match HexValue4(t[8..12])
                case None => None
                case Some(lo) =>
                  if 0xDC00 <= lo < 0xE000 then
                    Cons(((v - 0xD800) * 0x400 + (lo - 0xDC00) + 0x10000) as char, ParseStringBody(t[12..]))
                  else None
            else if 0xDC00 <= v < 0xE000 then None
            else Cons(v as char, ParseStringBody(t[6..]))
      else match ShortEscape(t[1])
        case None => None
        case Some(c) => Cons(c, ParseStringBody(t[2..]))
    else if t[0] as int < 0x20 then None
    else Cons(t[0], ParseStringBody(t[1..]))
  }

  /** Decoding the escape of one character gives back that character,
      and decoding carries on right after the escape. */
  lemma ParseEscapedChar(c: char, t: string)
    ensures ParseStringBody(EscapeChar(c) + t) == Cons(c, ParseStringBody(t))
  {
    var e := EscapeChar(c);
    if |e| == 2 {
      assert (e + t)[2..] == t;
    } else if |e| == 6 {
      assert (e + t)[2..6] == Hex4(c as int);
      assert (e + t)[6..] == t;
      Hex4RoundTrip(c as int);
    } else {
      assert (e + t)[1..] == t;
    }
  }

  /** Round trip: the decoder reads an escaped string back exactly, and
      stops at the quote that closes it. */
  lemma {:induction false} EscapeRoundTrip(s: string, rest: string)
    ensures ParseStringBody(Escape(s) + "\"" + rest) == Some((s, rest))
  {
    if s == [] {
      assert Escape(s) + "\"" + rest == ['"'] + rest;
    } else {
      var tail := Escape(s[1..]) + "\"" + rest;
      assert Escape(s) + "\"" + rest == EscapeChar(s[0]) + tail;
      ParseEscapedChar(s[0], tail);
      EscapeRoundTrip(s[1..], rest);
      assert [s[0]] + s[1..] == s;
    }
  }

  /** The fixed text of the attach request up to the opening quote of its
      `args` value. */
  const AttachPrefix: string := "{\"cmd\":\"attach-lldb\",\"args\":\""

  /** `json_attach_lldb`: the attach request for a target binary. It is a
      single line, and its `args` string decodes back to the path. */
  function JsonAttachLldb(path: string): (line: string)
    ensures |line| > |AttachPrefix| && line[..|AttachPrefix|] == AttachPrefix
    ensures ParseStringBody(line[|AttachPrefix|..]) == Some((path, "}"))
    ensures '\n' !in line
  {
    var e := Escape(path);
    var line := AttachPrefix + e + "\"}";
    assert line[|AttachPrefix|..] == e + "\"" + "}";
    EscapeRoundTrip(path, "}");
    assert IsControl('\n');
    assert forall i :: 0 <= i < |e| ==> e[i] != '\n';
    AttachPrefixOneLine();
    line
  }

  /** The fixed prefix holds no line feed. */
  lemma AttachPrefixOneLine()
    ensures '\n' !in AttachPrefix && '\n' !in "\"}"
  {
  }
}
