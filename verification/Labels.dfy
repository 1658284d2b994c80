/** KORE labels: special characters are spelled out between apostrophes, and one pair of
    apostrophes covers a whole run of special characters. */
module Labels {
  import opened Sequences
  import opened Wrappers

  // ----- The reader's table -----

  /** The characters that are spelled out: printable ASCII but for letters, digits and the hyphen. */
  predicate IsSymbol(c: char) {
    || (32 <= c as int <= 47 && c != '-')
    || 58 <= c as int <= 64
    || 91 <= c as int <= 96
    || 123 <= c as int <= 126
  }

  /** The character that a code of four letters stands for. */
  function CharOfCode(c0: char, c1: char, c2: char, c3: char): Option<char> {
    match c0
    case 'A' => if c1 == 'p' && c2 == 'o' && c3 == 's' then Some('\'') else None
    case 'B' =>
      if c1 == 'a' && c2 == 'n' && c3 == 'g' then Some('!')
      else if c1 == 'a' && c2 == 's' && c3 == 'h' then Some('\\')
      else if c1 == 'Q' && c2 == 'u' && c3 == 'o' then Some('`')
      else None
    case 'C' => if c1 == 'o' && c2 == 'm' && c3 == 'm' then Some(',') else if c1 == 'o' && c2 == 'l' && c3 == 'n' then Some(':') else None
    case 'D' => if c1 == 'o' && c2 == 'l' && c3 == 'r' then Some('$') else None
    case 'E' => if c1 == 'q' && c2 == 'l' && c3 == 's' then Some('=') else None
    case 'H' => if c1 == 'a' && c2 == 's' && c3 == 'h' then Some('#') else None
    case 'L' =>
      if c1 == 'P' && c2 == 'a' && c3 == 'r' then Some('(')
      else if c1 == 'S' && c2 == 'q' && c3 == 'B' then Some('[')
      else if c1 == 'B' && c2 == 'r' && c3 == 'a' then Some('{')
      else None
    case 'P' =>
      if c1 == 'e' && c2 == 'r' && c3 == 'c' then Some('%')
      else if c1 == 'l' && c2 == 'u' && c3 == 's' then Some('+')
      else if c1 == 'i' && c2 == 'p' && c3 == 'e' then Some('|')
      else None
    case 'Q' => if c1 == 'u' && c2 == 'o' && c3 == 't' then Some('"') else if c1 == 'u' && c2 == 'e' && c3 == 's' then Some('?') else None
    case 'R' =>
      if c1 == 'P' && c2 == 'a' && c3 == 'r' then Some(')')
      else if c1 == 'S' && c2 == 'q' && c3 == 'B' then Some(']')
      else if c1 == 'B' && c2 == 'r' && c3 == 'a' then Some('}')
      else None
    case 'S' =>
      if c1 == 'p' && c2 == 'c' && c3 == 'e' then Some(' ')
      else if c1 == 't' && c2 == 'a' && c3 == 'r' then Some('*')
      else if c1 == 't' && c2 == 'o' && c3 == 'p' then Some('.')
      else if c1 == 'l' && c2 == 's' && c3 == 'h' then Some('/')
      else if c1 == 'C' && c2 == 'l' && c3 == 'n' then Some(';')
      else None
    case 'T' => if c1 == 'i' && c2 == 'l' && c3 == 'd' then Some('~') else None
    case 'U' => if c1 == 'n' && c2 == 'd' && c3 == 's' then Some('_') else None
    case 'X' => if c1 == 'o' && c2 == 'r' && c3 == '-' then Some('^') else None
    case '-' =>
      if c1 == 'L' && c2 == 'T' && c3 == '-' then Some('<')
      else if c1 == 'G' && c2 == 'T' && c3 == '-' then Some('>')
      else if c1 == 'A' && c2 == 'T' && c3 == '-' then Some('@')
      else None
    case _ => None
  }

  // ----- Escaping -----

  datatype Spelling =
    | Itself
    | Three(c0: char, c1: char, c2: char)
    | Four(c0: char, c1: char, c2: char, c3: char)

  /** How a character is spelled between apostrophes; Itself for the characters that are not special. */
  function Spell(c: char): (r: Spelling)
    ensures r.Itself? <==> !IsSymbol(c)
    ensures r.Three? ==> c == '&' && [r.c0, r.c1, r.c2] == "And"
    ensures r.Four? ==> CharOfCode(r.c0, r.c1, r.c2, r.c3) == Some(c)
    ensures !r.Itself? ==> r.c0 != '\'' && r.c1 != '\'' && r.c2 != '\'' && (r.Four? ==> r.c3 != '\'')
    ensures !r.Itself? ==> r.c0 != '{' && r.c1 != '{' && r.c2 != '{' && (r.Four? ==> r.c3 != '{')
  {
    match c
    case ' ' => Four('S', 'p', 'c', 'e')
    case '!' => Four('B', 'a', 'n', 'g')
    case '"' => Four('Q', 'u', 'o', 't')
    case '#' => Four('H', 'a', 's', 'h')
    case '$' => Four('D', 'o', 'l', 'r')
    case '%' => Four('P', 'e', 'r', 'c')
    case '&' => Three('A', 'n', 'd')
    case '\'' => Four('A', 'p', 'o', 's')
    case '(' => Four('L', 'P', 'a', 'r')
    case ')' => Four('R', 'P', 'a', 'r')
    case '*' => Four('S', 't', 'a', 'r')
    case '+' => Four('P', 'l', 'u', 's')
    case ',' => Four('C', 'o', 'm', 'm')
    case '.' => Four('S', 't', 'o', 'p')
    case '/' => Four('S', 'l', 's', 'h')
    case ':' => Four('C', 'o', 'l', 'n')
    case ';' => Four('S', 'C', 'l', 'n')
    case '<' => Four('-', 'L', 'T', '-')
    case '=' => Four('E', 'q', 'l', 's')
    case '>' => Four('-', 'G', 'T', '-')
    case '?' => Four('Q', 'u', 'e', 's')
    case '@' => Four('-', 'A', 'T', '-')
    case '[' => Four('L', 'S', 'q', 'B')
    case '\\' => Four('B', 'a', 's', 'h')
    case ']' => Four('R', 'S', 'q', 'B')
    case '^' => Four('X', 'o', 'r', '-')
    case '_' => Four('U', 'n', 'd', 's')
    case '`' => Four('B', 'Q', 'u', 'o')
    case '{' => Four('L', 'B', 'r', 'a')
    case '|' => Four('P', 'i', 'p', 'e')
    case '}' => Four('R', 'B', 'r', 'a')
    case '~' => Four('T', 'i', 'l', 'd')
    case _ => Itself
  }

  predicate Special(c: char) {
    !Spell(c).Itself?
  }

  /** What a character leaves in the escaped text, apart from apostrophes. */
  function Piece(c: char): (p: string)
    ensures 1 <= |p| <= 4
    ensures Special(c) <==> IsSymbol(c)
    ensures if !Special(c) then p == [c]
            else if |p| == 3 then p == "And" && c == '&'
            else |p| == 4 && CharOfCode(p[0], p[1], p[2], p[3]) == Some(c)
    ensures forall i :: 0 <= i < |p| ==> p[i] != '\'' && p[i] != '{'
  {
    match Spell(c)
    case Itself => [c]
    case Three(a, b, d) => [a, b, d]
    case Four(a, b, d, e) => [a, b, d, e]
  }

  /** The apostrophe that opens or closes a run of codes when the next character is, or is not,
      special and the text so far is, or is not, inside apostrophes. */
  function Turn(special: bool, inside: bool): string {
    if special != inside then "'" else ""
  }

  /** The escaped text of a label, when what comes before it is, or is not, inside apostrophes. */
  function Escaped(text: string, inside: bool): string {
    if text == "" then Turn(false, inside)
    else
      var special := Special(text[0]);
      Turn(special, inside) + (Piece(text[0]) + Escaped(text[1..], special))
  }

  /** Reads an escaped label back, by whole codes; None when the text is not one. */
  function Unescaped(s: string, inside: bool): Option<string>
    decreases |s|
  {
    if s == "" then (if inside then None else Some(""))
    else if s[0] == '\'' then Unescaped(s[1..], !inside)
    else if !inside then (if IsSymbol(s[0]) then None else Before(s[0], Unescaped(s[1..], inside)))
    else if "And" <= s then Before('&', Unescaped(s[3..], inside))
    else if |s| >= 4 && CharOfCode(s[0], s[1], s[2], s[3]).Some? then
      Before(CharOfCode(s[0], s[1], s[2], s[3]).value, Unescaped(s[4..], inside))
    else None
  }

  function Before(c: char, rest: Option<string>): Option<string> {
    match rest
    case None => None
    case Some(text) => Some([c] + text)
  }

  /** escapeKLabel: a second special character in a row takes back the closing apostrophe. */
  method EscapeKLabel(text: string) returns (res: string)
    ensures res == Escaped(text, false)
  {
    res := "";
    ghost var inside := false;
    for i := 0 to |text|
      invariant inside <==> |res| > 0 && res[|res| - 1] == '\''
      invariant Escaped(text, false) == Kept(res, inside) + Escaped(text[i..], inside)
    {
      var special, piece := Special(text[i]), Piece(text[i]);
      ghost var before, rest := res, Escaped(text[i + 1..], special);
      assert Escaped(text[i..], inside) == Turn(special, inside) + (piece + rest) by {
        assert text[i..][1..] == text[i + 1..];
      }
      if special {
        if |res| > 0 && res[|res| - 1] == '\'' {
          res := res[..|res| - 1];
        } else {
          res := res + "'";
        }
        res := res + (piece + "'");
      } else {
        res := res + piece;
      }
      KeptGrows(before, inside, special, piece, rest, res);
      inside := special;
    }
    KeptIsAll(res, inside);
    assert text[|text|..] == "";
  }

  lemma KeptIsAll(res: string, inside: bool)
    requires inside ==> |res| > 0 && res[|res| - 1] == '\''
    ensures Kept(res, inside) + Turn(false, inside) == res
  {
  }

  /** The output of EscapeKLabel less the apostrophe that the next character may take back. */
  ghost function Kept(res: string, inside: bool): string
    requires inside ==> |res| > 0
  {
    if inside then res[..|res| - 1] else res
  }

  lemma KeptGrows(before: string, inside: bool, special: bool, piece: string, rest: string, res: string)
    requires inside <==> |before| > 0 && before[|before| - 1] == '\''
    requires |piece| > 0 && piece[|piece| - 1] != '\''
    requires res == if !special then before + piece
                    else if inside then before[..|before| - 1] + (piece + "'")
                    else before + "'" + (piece + "'")
    ensures special <==> |res| > 0 && res[|res| - 1] == '\''
    ensures Kept(before, inside) + (Turn(special, inside) + (piece + rest)) == Kept(res, special) + rest
  {
    var kept, turn := Kept(before, inside), Turn(special, inside);
    Assoc4(kept, turn, piece, rest);
    if special && inside {
      assert res[..|res| - 1] == kept + piece;
      assert kept + turn == kept;
    } else if special {
      assert res[..|res| - 1] == before + "'" + piece;
    } else if inside {
      assert kept + turn == before;
    } else {
      assert kept + turn == kept;
    }
  }

  /** Escaping loses nothing: the codes between apostrophes, three letters for And and four for
      the rest, can be told apart. */
  lemma {:induction false} UnescapeEscaped(text: string, inside: bool)
    ensures Unescaped(Escaped(text, inside), inside) == Some(text)
  {
    hide Spell, CharOfCode, IsSymbol;
    if text != "" {
      var c, rest := text[0], text[1..];
      var special := Special(c);
      UnescapeEscaped(rest, special);
      UnescapePiece(c, Escaped(rest, special));
      if special != inside {
        assert Escaped(text, inside)[1..] == Piece(c) + Escaped(rest, special);
      } else {
        assert Escaped(text, inside) == Piece(c) + Escaped(rest, special);
      }
      assert [c] + rest == text;
    }
  }

  lemma UnescapePiece(c: char, tail: string)
    requires Unescaped(tail, Special(c)).Some?
    ensures Unescaped(Piece(c) + tail, Special(c)) == Some([c] + Unescaped(tail, Special(c)).value)
  {
    var p := Piece(c);
    assert (p + tail)[|p|..] == tail;
    if |p| == 4 {
      assert p[0] == 'A' ==> p[1] == 'p';
      assert (p + tail)[0] == p[0] && (p + tail)[1] == p[1];
    }
  }

  function Apostrophes(s: string): nat {
    if s == "" then 0 else (if s[0] == '\'' then 1 else 0) + Apostrophes(s[1..])
  }

  lemma {:induction false} ApostrophesConcat(a: string, b: string)
    ensures Apostrophes(a + b) == Apostrophes(a) + Apostrophes(b)
  {
    if a == "" {
      assert a + b == b;
    } else {
      assert (a + b)[1..] == a[1..] + b;
      ApostrophesConcat(a[1..], b);
    }
  }

  lemma {:induction false} NoApostrophes(s: string)
    requires forall i :: 0 <= i < |s| ==> s[i] != '\''
    ensures Apostrophes(s) == 0
  {
    if s != "" {
      NoApostrophes(s[1..]);
    }
  }

  predicate NoneAdjacent(s: string) {
    forall i :: 0 < i < |s| ==> s[i - 1] != '\'' || s[i] != '\''
  }

  lemma ApostrophesStep(special: bool, inside: bool, piece: string, rest: string)
    requires forall i :: 0 <= i < |piece| ==> piece[i] != '\''
    requires Apostrophes(rest) % 2 == if special then 1 else 0
    ensures Apostrophes(Turn(special, inside) + (piece + rest)) % 2 == if inside then 1 else 0
  {
    NoApostrophes(piece);
    ApostrophesConcat(piece, rest);
    ApostrophesConcat(Turn(special, inside), piece + rest);
    assert special != inside ==> Turn(special, inside)[1..] == "";
  }

  /** The opening and closing apostrophes pair up. */
  lemma {:induction false} ApostrophesPairUp(text: string, inside: bool)
    ensures Apostrophes(Escaped(text, inside)) % 2 == if inside then 1 else 0
  {
    if text == "" {
      assert inside ==> Escaped(text, inside)[1..] == "";
    } else {
      var special := Special(text[0]);
      ApostrophesPairUp(text[1..], special);
      ApostrophesStep(special, inside, Piece(text[0]), Escaped(text[1..], special));
    }
  }

  /** No apostrophe stands next to another, the brace that ends a KORE symbol never occurs, the text
      starts with an apostrophe exactly if `turns`, and ends in one exactly if `closed`. */
  predicate Shaped(e: string, turns: bool, closed: bool) {
    && e != ""
    && NoneAdjacent(e)
    && '{' !in e
    && (e[0] == '\'' <==> turns)
    && (e[|e| - 1] == '\'' <==> closed)
  }

  lemma ShapedStep(turns: bool, piece: string, rest: string, restTurns: bool, closed: bool)
    requires |piece| > 0 && forall i :: 0 <= i < |piece| ==> piece[i] != '\'' && piece[i] != '{'
    requires if rest == "" then !closed else Shaped(rest, restTurns, closed)
    ensures Shaped((if turns then "'" else "") + (piece + rest), turns, closed)
  {
    var e := (if turns then "'" else "") + (piece + rest);
    assert rest == "" ==> e[|e| - 1] == piece[|piece| - 1];
  }

  /** A run of special characters shares one pair of apostrophes, and the text ends in one exactly
      when the last character of the label is special. */
  lemma {:induction false} EscapedIsShaped(text: string, inside: bool)
    requires text != ""
    ensures Shaped(Escaped(text, inside), Special(text[0]) != inside, Special(text[|text| - 1]))
  {
    var special, rest := Special(text[0]), text[1..];
    if rest != "" {
      EscapedIsShaped(rest, special);
      ShapedStep(special != inside, Piece(text[0]), Escaped(rest, special), Special(rest[0]) != special, Special(rest[|rest| - 1]));
    } else {
      ShapedStep(special != inside, Piece(text[0]), Turn(false, special), true, special);
    }
  }
}
