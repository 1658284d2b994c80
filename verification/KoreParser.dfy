/** A parser for KORE output that recovers every term, up to what its text cannot tell apart. */
module KoreParser {
  import opened Wrappers
  import opened Sorts
  import opened Terms
  import opened Tokens
  import opened Printer
  import opened Kore
  import Labels

  /** What the text of a term determines: labels, children, and the sort and text of tokens. An
      application printed at sort K is the same text as the sequence holding it alone. */
  datatype Shape =
    | Symbol(klabel: string, args: seq<Shape>)
    | Token(sort: Sort, value: string)
    | Items(items: seq<Shape>)

  ghost function ShapeOf(parent: Sort, t: Term): Shape
    requires WellFormed(t)
    decreases t, |t.kids| + 1
  {
    match t.node
    case KApply(klabel, sort, _) =>
      var it := Symbol(klabel, ArgShapes(t, 0));
      if parent == K && sort != K then Items([it]) else it
    case KToken(sort, value) => Token(sort, value)
    case KSequence(_) => Items(ItemShapes(t, 0))
  }

  ghost function ArgShapes(t: Term, i: nat): seq<Shape>
    requires WellFormed(t) && t.node.KApply? && i <= |t.kids|
    decreases t, |t.kids| - i
  {
    if i == |t.kids| then [] else [ShapeOf(t.node.sig[i], t.kids[i])] + ArgShapes(t, i + 1)
  }

  ghost function ItemShapes(t: Term, i: nat): seq<Shape>
    requires WellFormed(t) && i <= |t.kids|
    decreases t, |t.kids| - i
  {
    if i == |t.kids| then [] else [ShapeOf(KITEM, t.kids[i])] + ItemShapes(t, i + 1)
  }

  /** How to read the names of sorts and labels back. */
  datatype Reader = Reader(sortOf: string -> Option<Sort>, labelOf: string -> Option<string>)

  /** The reader recovers every name the style spells, and no name holds a brace. */
  ghost predicate Legible(style: Style, reader: Reader) {
    && (forall sort :: reader.sortOf(style.sortName(sort)) == Some(sort) && '{' !in style.sortName(sort))
    && (forall klabel :: reader.labelOf(style.koreLabel(klabel)) == Some(klabel) && '{' !in style.koreLabel(klabel))
  }

  datatype Parsed<T> = Stuck | Took(it: T, rest: string)

  /** Takes a fixed text off the front. */
  function Skip(text: string, s: string): (r: Option<string>)
    ensures r.Some? ==> |r.value| + |text| == |s|
  {
    if text <= s then Some(s[|text|..]) else None
  }

  lemma SkipText(text: string, rest: string)
    ensures Skip(text, text + rest) == Some(rest)
  {
    assert (text + rest)[|text|..] == rest;
  }

  /** Takes a name off the front, up to the brace that ends it. */
  function Name(s: string): (r: Parsed<string>)
    ensures r.Took? ==> |r.rest| <= |s|
  {
    if s == "" then Stuck
    else if s[0] == '{' then Took("", s)
    else
      match Name(s[1..])
      case Stuck => Stuck
      case Took(name, rest) => Took([s[0]] + name, rest)
  }

  lemma {:induction false} NameThenBrace(name: string, rest: string)
    requires '{' !in name && rest != "" && rest[0] == '{'
    ensures Name(name + rest) == Took(name, rest)
  {
    if name == "" {
      assert name + rest == rest;
    } else {
      assert (name + rest)[1..] == name[1..] + rest;
      NameThenBrace(name[1..], rest);
      assert [name[0]] + name[1..] == name;
    }
  }

  function ReadSort(reader: Reader, s: string): (r: Parsed<Sort>)
    ensures r.Took? ==> |r.rest| < |s|
  {
    match Skip("Sort", s)
    case None => Stuck
    case Some(s1) =>
      match Name(s1)
      case Stuck => Stuck
      case Took(name, s2) =>
        match (reader.sortOf(name), Skip("{}", s2))
        case (Some(sort), Some(rest)) => Took(sort, rest)
        case _ => Stuck
  }

  function ReadSymbol(reader: Reader, s: string): (r: Parsed<string>)
    ensures r.Took? ==> |r.rest| < |s|
  {
    match Skip("Lbl", s)
    case None => Stuck
    case Some(s1) =>
      match Name(s1)
      case Stuck => Stuck
      case Took(name, s2) =>
        match (reader.labelOf(name), Skip("{}(", s2))
        case (Some(klabel), Some(rest)) => Took(klabel, rest)
        case _ => Stuck
  }

  function ReadInj(reader: Reader, s: string): (r: Parsed<(Sort, Sort)>)
    ensures r.Took? ==> |r.rest| < |s|
  {
    match Skip("inj{", s)
    case None => Stuck
    case Some(s1) =>
      match ReadSort(reader, s1)
      case Stuck => Stuck
      case Took(from, s2) =>
        match Skip(", ", s2)
        case None => Stuck
        case Some(s3) =>
          match ReadSort(reader, s3)
          case Stuck => Stuck
          case Took(to, s4) =>
            match Skip("}(", s4)
            case None => Stuck
            case Some(rest) => Took((from, to), rest)
  }

  function ReadDv(reader: Reader, s: string): (r: Parsed<Shape>)
    ensures r.Took? ==> |r.rest| < |s|
  {
    match Skip("\\dv{", s)
    case None => Stuck
    case Some(s1) =>
      match ReadSort(reader, s1)
      case Stuck => Stuck
      case Took(sort, s2) =>
        match Skip("}(\"", s2)
        case None => Stuck
        case Some(s3) =>
          match ReadQuoted(s3)
          case BadText => Stuck
          case Text(value, s4) =>
            match Skip(")", s4)
            case None => Stuck
            case Some(rest) => Took(Token(sort, value), rest)
  }

  /** A parser for the KORE text of terms. Injections leave no trace, and pairs gather into the
      sequence they build. */
  function Parse(reader: Reader, s: string): (r: Parsed<Shape>)
    ensures r.Took? ==> |r.rest| < |s|
    decreases |s|, 0
  {
    if s == "" then Stuck
    else if s[0] == 'L' then
      match ReadSymbol(reader, s)
      case Stuck => Stuck
      case Took(klabel, s1) =>
        match ParseArgs(reader, s1, true)
        case Stuck => Stuck
        case Took(args, rest) => Took(Symbol(klabel, args), rest)
    else if s[0] == 'i' then
      match ReadInj(reader, s)
      case Stuck => Stuck
      case Took(_, s1) =>
        match Parse(reader, s1)
        case Stuck => Stuck
        case Took(shape, s2) =>
          match Skip(")", s2)
          case None => Stuck
          case Some(rest) => Took(shape, rest)
    else if s[0] == 'k' then
      match Skip("kseq{}(", s)
      case None => Stuck
      case Some(s1) => ParsePair(reader, s1)
    else if s[0] == 'd' then
      match Skip("dotk{}()", s)
      case None => Stuck
      case Some(rest) => Took(Items([]), rest)
    else ReadDv(reader, s)
  }

  function ParsePair(reader: Reader, s: string): (r: Parsed<Shape>)
    ensures r.Took? ==> |r.rest| < |s|
    decreases |s|, 1
  {
    match Parse(reader, s)
    case Stuck => Stuck
    case Took(head, s1) =>
      match Skip(", ", s1)
      case None => Stuck
      case Some(s2) =>
        match Parse(reader, s2)
        case Took(Items(items), s3) =>
          (match Skip(")", s3)
           case None => Stuck
           case Some(rest) => Took(Items([head] + items), rest))
        case _ => Stuck
  }

  /** The arguments of a symbol up to the closing parenthesis; all but the first follow a comma. */
  function ParseArgs(reader: Reader, s: string, first: bool): (r: Parsed<seq<Shape>>)
    ensures r.Took? ==> |r.rest| < |s|
    decreases |s|, 1
  {
    if s == "" then Stuck
    else if s[0] == ')' then Took([], s[1..])
    else if !first && s[0] != ',' then Stuck
    else
      match Parse(reader, if first then s else s[1..])
      case Stuck => Stuck
      case Took(arg, s1) =>
        match ParseArgs(reader, s1, false)
        case Stuck => Stuck
        case Took(args, rest) => Took([arg] + args, rest)
  }

  // ----- The parser undoes the printer -----

  lemma ReadSortThen(style: Style, reader: Reader, sort: Sort, rest: string)
    requires Legible(style, reader)
    ensures ReadSort(reader, SortThen(style, sort, rest)) == Took(sort, rest)
  {
    var name := style.sortName(sort);
    SkipText("Sort", name + ("{}" + rest));
    NameThenBrace(name, "{}" + rest);
    SkipText("{}", rest);
  }

  lemma ReadSymbolThen(style: Style, reader: Reader, klabel: string, rest: string)
    requires Legible(style, reader)
    ensures ReadSymbol(reader, SymbolThen(style, klabel, rest)) == Took(klabel, rest)
  {
    var name := style.koreLabel(klabel);
    SkipText("Lbl", name + ("{}(" + rest));
    NameThenBrace(name, "{}(" + rest);
    SkipText("{}(", rest);
  }

  lemma ReadInjThen(style: Style, reader: Reader, from: Sort, to: Sort, rest: string)
    requires Legible(style, reader)
    ensures ReadInj(reader, InjThen(style, from, to, rest)) == Took((from, to), rest)
  {
    var after := SortThen(style, to, "}(" + rest);
    SkipText("inj{", SortThen(style, from, ", " + after));
    ReadSortThen(style, reader, from, ", " + after);
    SkipText(", ", after);
    ReadSortThen(style, reader, to, "}(" + rest);
    SkipText("}(", rest);
  }

  lemma ReadDvThen(style: Style, reader: Reader, sort: Sort, value: Bytes, rest: string)
    requires Legible(style, reader)
    ensures ReadDv(reader, DvThen(style, sort, value, rest)) == Took(Token(sort, value), rest)
  {
    var quoted := Escaped(value) + ("\"" + (")" + rest));
    SkipText("\\dv{", SortThen(style, sort, "}(\"" + quoted));
    ReadSortThen(style, reader, sort, "}(\"" + quoted);
    SkipText("}(\"", quoted);
    ReadQuotedEscaped(value, ")" + rest);
    SkipText(")", rest);
  }

  /** The first character tells the forms of a pattern apart. */
  lemma FirstChar(style: Style, p: Pattern, rest: string)
    requires p.App? ==> p.node.KApply?
    ensures var s := TextThen(style, p, rest);
            s != "" && s[0] == match p
                               case App(_, _) => 'L'
                               case Inj(_, _, _) => 'i'
                               case Pair(_, _) => 'k'
                               case Dotk => 'd'
                               case Dv(_, _) => '\\'
  {
  }

  lemma ParseInj(style: Style, reader: Reader, from: Sort, to: Sort, arg: Pattern, shape: Shape, rest: string)
    requires Legible(style, reader)
    requires Parse(reader, TextThen(style, arg, ")" + rest)) == Took(shape, ")" + rest)
    ensures Parse(reader, TextThen(style, Inj(from, to, arg), rest)) == Took(shape, rest)
  {
    var text := TextThen(style, arg, ")" + rest);
    FirstChar(style, Inj(from, to, arg), rest);
    ReadInjThen(style, reader, from, to, text);
    ParseInjText(reader, InjThen(style, from, to, text), text, from, to, shape, rest);
  }

  lemma ParseInjText(reader: Reader, s: string, text: string, from: Sort, to: Sort, shape: Shape, rest: string)
    requires s != "" && s[0] == 'i' && ReadInj(reader, s) == Took((from, to), text)
    requires Parse(reader, text) == Took(shape, ")" + rest)
    ensures Parse(reader, s) == Took(shape, rest)
  {
    SkipText(")", rest);
  }

  lemma ParseDotk(style: Style, reader: Reader, rest: string)
    ensures Parse(reader, TextThen(style, Dotk, rest)) == Took(Items([]), rest)
  {
    FirstChar(style, Dotk, rest);
    SkipText("dotk{}()", rest);
  }

  lemma ParsePairText(reader: Reader, head: string, tail: string, first: Shape, items: seq<Shape>, rest: string)
    requires Parse(reader, head) == Took(first, ", " + tail)
    requires Parse(reader, tail) == Took(Items(items), ")" + rest)
    ensures Parse(reader, "kseq{}(" + head) == Took(Items([first] + items), rest)
  {
    SkipText("kseq{}(", head);
    SkipText(", ", tail);
    SkipText(")", rest);
    assert ("kseq{}(" + head)[0] == 'k';
  }

  lemma ParseArgText(reader: Reader, text: string, after: string, arg: Shape, args: seq<Shape>, rest: string, first: bool)
    requires text != "" && text[0] != ')'
    requires Parse(reader, text) == Took(arg, after)
    requires ParseArgs(reader, after, false) == Took(args, rest)
    ensures ParseArgs(reader, (if first then "" else ",") + text, first) == Took([arg] + args, rest)
  {
    assert ("," + text)[1..] == text;
    assert "" + text == text;
  }

  /** An application reads back the same through whatever coerces it, but for the sequence that
      holds it where K is asked for. */
  lemma ParseCoerced(style: Style, reader: Reader, base: Pattern, shape: Shape, sort: Sort, parent: Sort, rest: string)
    requires Legible(style, reader)
    requires forall more :: Parse(reader, TextThen(style, base, more)) == Took(shape, more)
    ensures Parse(reader, TextThen(style, Coerced(base, sort, parent), rest))
         == Took(if parent == K && sort != K then Items([shape]) else shape, rest)
  {
    if sort == parent {
    } else if parent != K {
      ParseInj(style, reader, sort, parent, base, shape, rest);
    } else {
      ParseItem(style, reader, base, shape, sort, rest);
    }
  }

  /** The application alone in a sequence, coerced to an item if it is none. */
  lemma ParseItem(style: Style, reader: Reader, base: Pattern, shape: Shape, sort: Sort, rest: string)
    requires Legible(style, reader) && sort != K
    requires forall more :: Parse(reader, TextThen(style, base, more)) == Took(shape, more)
    ensures Parse(reader, TextThen(style, Coerced(base, sort, K), rest)) == Took(Items([shape]), rest)
  {
    var close := TextThen(style, Dotk, ")" + rest);
    if sort != KITEM {
      ParseInj(style, reader, sort, KITEM, base, shape, ", " + close);
      ParseAlone(style, reader, Inj(sort, KITEM, base), shape, rest);
    } else {
      ParseAlone(style, reader, base, shape, rest);
    }
  }

  lemma ParseAlone(style: Style, reader: Reader, head: Pattern, shape: Shape, rest: string)
    requires var after := ", " + TextThen(style, Dotk, ")" + rest);
             Parse(reader, TextThen(style, head, after)) == Took(shape, after)
    ensures Parse(reader, TextThen(style, Pair(head, Dotk), rest)) == Took(Items([shape]), rest)
  {
    var close := TextThen(style, Dotk, ")" + rest);
    ParseDotk(style, reader, ")" + rest);
    ParsePairText(reader, TextThen(style, head, ", " + close), close, shape, [], rest);
    assert [shape] + [] == [shape];
  }

  lemma {:induction false} ParseTerm(style: Style, reader: Reader, parent: Sort, t: Term, rest: string)
    requires Legible(style, reader) && WellFormed(t)
    ensures Parse(reader, TextThen(style, ToPattern(parent, t), rest)) == Took(ShapeOf(parent, t), rest)
    decreases t, |t.kids| + 1
  {
    match t.node
    case KApply(klabel, sort, _) =>
      var base := App(t.node, ArgPatterns(t, 0));
      forall more ensures Parse(reader, TextThen(style, base, more)) == Took(Symbol(klabel, ArgShapes(t, 0)), more) {
        FirstChar(style, base, more);
        ReadSymbolThen(style, reader, klabel, ArgsThen(style, base.args, 0, ")" + more));
        ParseTermArgs(style, reader, t, 0, more);
      }
      ParseCoerced(style, reader, base, Symbol(klabel, ArgShapes(t, 0)), sort, parent, rest);
    case KToken(sort, value) =>
      FirstChar(style, Dv(sort, value), rest);
      ReadDvThen(style, reader, sort, value, rest);
    case KSequence(_) => ParseTermItems(style, reader, t, 0, rest);
  }

  lemma {:induction false} ParseTermArgs(style: Style, reader: Reader, t: Term, i: nat, rest: string)
    requires Legible(style, reader) && WellFormed(t) && t.node.KApply? && i <= |t.kids|
    ensures ParseArgs(reader, ArgsThen(style, ArgPatterns(t, 0), i, ")" + rest), i == 0) == Took(ArgShapes(t, i), rest)
    decreases t, |t.kids| - i
  {
    if i < |t.kids| {
      var after := ArgsThen(style, ArgPatterns(t, 0), i + 1, ")" + rest);
      ParseTerm(style, reader, t.node.sig[i], t.kids[i], after);
      ParseTermArgs(style, reader, t, i + 1, rest);
      ParseArgStep(style, reader, t, i, after, rest);
    }
  }

  lemma ParseArgStep(style: Style, reader: Reader, t: Term, i: nat, after: string, rest: string)
    requires Legible(style, reader) && WellFormed(t) && t.node.KApply? && i < |t.kids|
    requires after == ArgsThen(style, ArgPatterns(t, 0), i + 1, ")" + rest)
    requires var sort, kid := t.node.sig[i], t.kids[i];
             Parse(reader, TextThen(style, ToPattern(sort, kid), after)) == Took(ShapeOf(sort, kid), after)
    requires ParseArgs(reader, after, false) == Took(ArgShapes(t, i + 1), rest)
    ensures ParseArgs(reader, ArgsThen(style, ArgPatterns(t, 0), i, ")" + rest), i == 0) == Took(ArgShapes(t, i), rest)
  {
    var pattern := ToPattern(t.node.sig[i], t.kids[i]);
    ArgPatternsAt(t, 0, i);
    FirstChar(style, pattern, after);
    ParseArgText(reader, TextThen(style, pattern, after), after, ShapeOf(t.node.sig[i], t.kids[i]), ArgShapes(t, i + 1),
                 rest, i == 0);
  }

  lemma {:induction false} ParseTermItems(style: Style, reader: Reader, t: Term, i: nat, rest: string)
    requires Legible(style, reader) && WellFormed(t) && i <= |t.kids|
    ensures Parse(reader, TextThen(style, ItemPatterns(t, i), rest)) == Took(Items(ItemShapes(t, i)), rest)
    decreases t, |t.kids| - i
  {
    if i == |t.kids| {
      ParseDotk(style, reader, rest);
    } else {
      var head, tail := ToPattern(KITEM, t.kids[i]), ItemPatterns(t, i + 1);
      var close := TextThen(style, tail, ")" + rest);
      ParseTermItems(style, reader, t, i + 1, ")" + rest);
      ParseTerm(style, reader, KITEM, t.kids[i], ", " + close);
      ParsePairText(reader, TextThen(style, head, ", " + close), close, ShapeOf(KITEM, t.kids[i]), ItemShapes(t, i + 1), rest);
    }
  }

  function UnescapedLabel(name: string): Option<string> {
    Labels.Unescaped(name, false)
  }

  /** The reader for the front end's own spelling. */
  function FrontEndReader(): Reader {
    Reader(SortOf, UnescapedLabel)
  }

  lemma FrontEndIsLegible()
    ensures Legible(FrontEnd(true), FrontEndReader())
  {
    forall sort ensures SortOf(SortName(sort)) == Some(sort) && '{' !in SortName(sort) {
    }
    forall klabel ensures UnescapedLabel(EscapedLabel(klabel)) == Some(klabel) && '{' !in EscapedLabel(klabel) {
      Labels.UnescapeEscaped(klabel, false);
      if klabel != "" {
        Labels.EscapedIsShaped(klabel, false);
      }
    }
  }

  /** KORE output round-trips: whatever follows it, the text printed for a term reads back as the
      shape of that term. */
  lemma PrintedTermsParse(parent: Sort, t: Term, rest: string)
    requires WellFormed(t)
    ensures Parse(FrontEndReader(), Render(FrontEnd(true), parent, t) + rest) == Took(ShapeOf(parent, t), rest)
  {
    FrontEndIsLegible();
    RenderIsPattern(FrontEnd(true), parent, t, rest);
    ParseTerm(FrontEnd(true), FrontEndReader(), parent, t, rest);
  }
}
