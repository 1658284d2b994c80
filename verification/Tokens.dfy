/** Token texts: the escaping of string values, and reading them back. */
module Tokens {
  import opened Wrappers

  /** A C++ string: every character is one byte. */
  predicate IsBytes(s: string) {
    forall i :: 0 <= i < |s| ==> s[i] as int < 256
  }

  type Bytes = s: string | IsBytes(s)

  predicate IsPrintable(s: string) {
    forall i :: 0 <= i < |s| ==> 32 <= s[i] as int < 127
  }

  function HexDigit(d: nat): (c: char)
    requires d < 16
    ensures HexValue(c) == Some(d)
    ensures 32 <= c as int < 127
  {
    if d < 10 then '0' + d as char else 'a' + (d - 10) as char
  }

  function HexValue(c: char): Option<nat> {
    if '0' <= c <= '9' then Some((c - '0') as nat)
    else if 'a' <= c <= 'f' then Some((c - 'a') as nat + 10)
    else None
  }

  /** A byte as KToken::escape writes it. As the source's char is signed, the bytes from 128 up fail
      its test for printable characters and are written in hexadecimal. */
  function EscapedChar(c: char): string
    requires c as int < 256
  {
    match c
    case '"' => "\\\""
    case '\\' => "\\\\"
    case '\n' => "\\n"
    case '\t' => "\\t"
    case '\r' => "\\r"
    case _ =>
      if 32 <= c as int < 127 then [c]
      else ['\\', 'x', HexDigit(c as int / 16), HexDigit(c as int % 16)]
  }

  function Escaped(s: Bytes): string
  {
    if s == "" then "" else EscapedChar(s[0]) + Escaped(s[1..])
  }

  /** KToken::escape. */
  method Escape(s: Bytes) returns (res: string)
    ensures res == Escaped(s)
  {
    res := "";
    for i := 0 to |s|
      invariant res + Escaped(s[i..]) == Escaped(s)
    {
      ghost var rest := Escaped(s[i + 1..]);
      assert s[i..][1..] == s[i + 1..];
      assert res + (EscapedChar(s[i]) + rest) == (res + EscapedChar(s[i])) + rest;
      res := res + EscapedChar(s[i]);
    }
    assert s[|s|..] == "";
  }

  datatype ReadChar = BadChar | Char(c: char, rest: string)
  datatype ReadText = BadText | Text(text: string, rest: string)

  /** Reads one possibly escaped character. */
  function UnescapeChar(s: string): (r: ReadChar)
    requires s != ""
    ensures r.Char? ==> |r.rest| < |s|
  {
    if s[0] != '\\' then Char(s[0], s[1..])
    else if |s| < 2 then BadChar
    else if s[1] == '"' || s[1] == '\\' then Char(s[1], s[2..])
    else if s[1] == 'n' then Char('\n', s[2..])
    else if s[1] == 't' then Char('\t', s[2..])
    else if s[1] == 'r' then Char('\r', s[2..])
    else if s[1] == 'x' && |s| >= 4 && HexValue(s[2]).Some? && HexValue(s[3]).Some? then
      Char((HexValue(s[2]).value * 16 + HexValue(s[3]).value) as char, s[4..])
    else BadChar
  }

  /** Reads up to the first bare quote, which it drops. */
  function ReadQuoted(s: string): (r: ReadText)
    ensures r.Text? ==> |r.rest| < |s|
    decreases |s|
  {
    if s == "" then BadText
    else if s[0] == '"' then Text("", s[1..])
    else
      match UnescapeChar(s)
      case BadChar => BadText
      case Char(c, rest) =>
        match ReadQuoted(rest)
        case BadText => BadText
        case Text(text, after) => Text([c] + text, after)
  }

  lemma UnescapeEscapedChar(c: char, tail: string)
    requires c as int < 256
    ensures EscapedChar(c) != "" && EscapedChar(c)[0] != '"' && IsPrintable(EscapedChar(c))
    ensures UnescapeChar(EscapedChar(c) + tail) == Char(c, tail)
  {
    var s := EscapedChar(c) + tail;
    assert s[|EscapedChar(c)|..] == tail;
    if |EscapedChar(c)| == 4 {
      assert HexValue(s[2]) == Some(c as int / 16) && HexValue(s[3]) == Some(c as int % 16);
    }
  }

  /** Only the characters that need it are escaped, and in hexadecimal only if they have no letter. */
  lemma EscapeIsShort(c: char)
    requires c as int < 256
    ensures |EscapedChar(c)| == if c in {'"', '\\', '\n', '\t', '\r'} then 2 else if 32 <= c as int < 127 then 1 else 4
  {
  }

  /** Undoing one escape: the first bare quote is the one that closes the text, and what stands
      before it reads back as the text that was escaped, whatever its bytes. */
  lemma {:induction false} ReadQuotedEscaped(s: Bytes, rest: string)
    ensures ReadQuoted(Escaped(s) + ("\"" + rest)) == Text(s, rest)
  {
    if s == "" {
      assert Escaped(s) + ("\"" + rest) == "\"" + rest;
    } else {
      var tail := Escaped(s[1..]) + ("\"" + rest);
      ReadQuotedEscaped(s[1..], rest);
      assert Escaped(s) + ("\"" + rest) == EscapedChar(s[0]) + tail;
      UnescapeEscapedChar(s[0], tail);
      assert [s[0]] + s[1..] == s;
    }
  }

  lemma {:induction false} EscapedIsPrintable(s: Bytes)
    ensures IsPrintable(Escaped(s))
  {
    if s != "" {
      UnescapeEscapedChar(s[0], "");
      EscapedIsPrintable(s[1..]);
    }
  }

  // ----- Tokens -----

  /** toKString of a string: the value a string token carries. */
  function StringValue(kore: bool, s: Bytes): Bytes {
    EscapedIsPrintable(s);
    if kore then Escaped(s) else "\"" + Escaped(s) + "\""
  }

  /** toKString of a bool. */
  function BoolValue(b: bool): Bytes {
    if b then "true" else "false"
  }

  /** Gets the string back from the value of a string token. */
  function StringOfValue(kore: bool, value: string): ReadText {
    if kore then ReadQuoted(value + "\"")
    else if value != "" && value[0] == '"' then ReadQuoted(value[1..])
    else BadText
  }

  lemma StringOfStringValue(kore: bool, s: Bytes)
    ensures StringOfValue(kore, StringValue(kore, s)) == Text(s, "")
  {
    var e := Escaped(s);
    ReadQuotedEscaped(s, "");
    assert "\"" + "" == "\"";
    assert ("\"" + e + "\"")[1..] == e + "\"";
  }

  /** A string is escaped twice on its way out, once into the value of its token and once when the
      token is printed; undoing both gives it back, and the printed text is printable ASCII. */
  lemma StringSurvivesPrinting(kore: bool, s: Bytes, rest: string)
    ensures var printed := Escaped(StringValue(kore, s));
            && IsPrintable(printed)
            && ReadQuoted(printed + ("\"" + rest)) == Text(StringValue(kore, s), rest)
            && StringOfValue(kore, StringValue(kore, s)) == Text(s, "")
  {
    var value := StringValue(kore, s);
    EscapedIsPrintable(value);
    ReadQuotedEscaped(value, rest);
    StringOfStringValue(kore, s);
  }
}
