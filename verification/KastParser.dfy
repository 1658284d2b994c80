/** Reading KAST text back. Where KORE writes pairs and injections, KAST only joins items by arrows, so
    that a sequence in a sequence reads as one, and an item as the sequence that holds it. */
module KastParser {
  import opened Wrappers
  import opened Sequences
  import opened Sorts
  import opened Terms
  import opened Tokens
  import opened Printer
  import opened KoreParser

  // ----- What can be read back -----

  /** An application, each of its arguments items joined by arrows, or a token. */
  datatype Item = Application(klabel: string, args: seq<Joined>) | Constant(sort: Sort, value: string)
  datatype Joined = Joined(items: seq<Item>)

  /** The items that a term stands for, with sequences made flat. */
  ghost function ItemsOf(t: Term): seq<Item>
    requires WellFormed(t)
    decreases t, |t.kids| + 1
  {
    match t.node
    case KApply(klabel, _, _) => [Application(klabel, ArgItems(t, 0))]
    case KToken(sort, value) => [Constant(sort, value)]
    case KSequence(_) => FlatItems(t, 0)
  }

  ghost function ArgItems(t: Term, i: nat): seq<Joined>
    requires WellFormed(t) && i <= |t.kids|
    decreases t, |t.kids| - i
  {
    if i == |t.kids| then [] else [Joined(ItemsOf(t.kids[i]))] + ArgItems(t, i + 1)
  }

  ghost function FlatItems(t: Term, i: nat): seq<Item>
    requires WellFormed(t) && i <= |t.kids|
    decreases t, |t.kids| - i
  {
    if i == |t.kids| then [] else ItemsOf(t.kids[i]) + FlatItems(t, i + 1)
  }

  /** Labels are written as they are between back quotes, so a label may not hold one. */
  ghost predicate HasPlainLabels(t: Term)
    decreases t
  {
    (t.node.KApply? ==> '`' !in t.node.klabel) && forall i :: 0 <= i < |t.kids| ==> HasPlainLabels(t.kids[i])
  }

  // ----- The parser -----

  /** Takes a text off the front, up to a mark that it drops. */
  function UpTo(mark: char, s: string): (r: Parsed<string>)
    ensures r.Took? ==> |r.rest| < |s| && mark !in r.it
  {
    if s == "" then Stuck
    else if s[0] == mark then Took("", s[1..])
    else
      match UpTo(mark, s[1..])
      case Stuck => Stuck
      case Took(text, rest) => Took([s[0]] + text, rest)
  }

  function ReadToken(sortOf: string -> Option<Sort>, s: string): (r: Parsed<Item>)
    ensures r.Took? ==> |r.rest| < |s| && r.it.Constant?
  {
    match Skip("#token(\"", s)
    case None => Stuck
    case Some(s1) =>
      match ReadQuoted(s1)
      case BadText => Stuck
      case Text(value, s2) =>
        match Skip(", \"", s2)
        case None => Stuck
        case Some(s3) =>
          match UpTo('"', s3)
          case Stuck => Stuck
          case Took(name, s4) =>
            match (sortOf(name), Skip(")", s4))
            case (Some(sort), Some(rest)) => Took(Constant(sort, value), rest)
            case _ => Stuck
  }

  /** One application, one token or the empty sequence. */
  function ParseUnit(sortOf: string -> Option<Sort>, s: string): (r: Parsed<seq<Item>>)
    ensures r.Took? ==> |r.rest| < |s|
    decreases |s|, 0
  {
    if s == "" then Stuck
    else if s[0] == '.' then
      match Skip(".K", s)
      case None => Stuck
      case Some(rest) => Took([], rest)
    else if s[0] == '`' then
      match UpTo('`', s[1..])
      case Stuck => Stuck
      case Took(klabel, s1) =>
        match Skip("(", s1)
        case None => Stuck
        case Some(s2) =>
          match ParseArguments(sortOf, s2)
          case Stuck => Stuck
          case Took(args, rest) => Took([Application(klabel, args)], rest)
    else
      match ReadToken(sortOf, s)
      case Stuck => Stuck
      case Took(item, rest) => Took([item], rest)
  }

  /** Items joined by arrows. */
  function ParseKast(sortOf: string -> Option<Sort>, s: string): (r: Parsed<seq<Item>>)
    ensures r.Took? ==> |r.rest| < |s|
    decreases |s|, 1
  {
    match ParseUnit(sortOf, s)
    case Stuck => Stuck
    case Took(items, s1) =>
      match Skip("~>", s1)
      case None => Took(items, s1)
      case Some(s2) =>
        match ParseKast(sortOf, s2)
        case Stuck => Stuck
        case Took(more, rest) => Took(items + more, rest)
  }

  function ParseArguments(sortOf: string -> Option<Sort>, s: string): (r: Parsed<seq<Joined>>)
    ensures r.Took? ==> |r.rest| < |s|
    decreases |s|, 3
  {
    match ParseArgumentList(sortOf, s)
    case Took(args, rest) => Took(args, rest)
    case Stuck =>
      match Skip(".KList)", s)
      case None => Stuck
      case Some(rest) => Took([], rest)
  }

  function ParseArgumentList(sortOf: string -> Option<Sort>, s: string): (r: Parsed<seq<Joined>>)
    ensures r.Took? ==> |r.rest| < |s|
    decreases |s|, 2
  {
    match ParseKast(sortOf, s)
    case Stuck => Stuck
    case Took(arg, s1) =>
      if s1 == "" then Stuck
      else if s1[0] == ')' then Took([Joined(arg)], s1[1..])
      else if s1[0] == ',' then
        match ParseArgumentList(sortOf, s1[1..])
        case Stuck => Stuck
        case Took(args, rest) => Took([Joined(arg)] + args, rest)
      else Stuck
  }

  // ----- Printed text is read back -----

  ghost predicate KastLegible(style: Style, sortOf: string -> Option<Sort>) {
    !style.kore && forall sort :: sortOf(style.sortName(sort)) == Some(sort) && '"' !in style.sortName(sort)
  }

  /** What reading goes on to give after some items. */
  ghost function Onward(sortOf: string -> Option<Sort>, items: seq<Item>, rest: string): Parsed<seq<Item>> {
    match Skip("~>", rest)
    case None => Took(items, rest)
    case Some(s) =>
      match ParseKast(sortOf, s)
      case Stuck => Stuck
      case Took(more, after) => Took(items + more, after)
  }

  lemma {:induction false} UpToMark(mark: char, text: string, rest: string)
    requires mark !in text
    ensures UpTo(mark, text + ([mark] + rest)) == Took(text, rest)
  {
    var s := text + ([mark] + rest);
    if text == "" {
      assert s[1..] == rest;
    } else {
      assert s[1..] == text[1..] + ([mark] + rest);
      UpToMark(mark, text[1..], rest);
      assert [text[0]] + text[1..] == text;
    }
  }

  lemma TokenIsRead(style: Style, sortOf: string -> Option<Sort>, sort: Sort, value: Bytes, rest: string)
    requires KastLegible(style, sortOf)
    ensures ParseUnit(sortOf, TokenText(style, sort, value) + rest) == Took([Constant(sort, value)], rest)
  {
    hide UpTo, Escaped;
    var name := style.sortName(sort);
    var s4 := ")" + rest;
    var s3 := name + (['"'] + s4);
    var s1 := Escaped(value) + ("\"" + (", \"" + s3));
    TokenUnfolds(Escaped(value), name, rest);
    SkipText("#token(\"", s1);
    ReadQuotedEscaped(value, ", \"" + s3);
    SkipText(", \"", s3);
    UpToMark('"', name, s4);
    SkipText(")", rest);
    assert ("#token(\"" + s1)[0] == '#';
  }

  lemma TokenUnfolds(value: string, name: string, rest: string)
    ensures "#token(\"" + value + "\", \"" + name + "\")" + rest
         == "#token(\"" + (value + ("\"" + (", \"" + (name + (['"'] + (")" + rest))))))
  {
    assert "\", \"" == "\"" + ", \"" && "\")" == ['"'] + ")";
  }

  lemma NoArrow(s: string)
    requires s != "" && s[0] != '~'
    ensures Skip("~>", s) == None
  {
    assert "~>"[0] == '~';
  }

  lemma ItemsThen(sortOf: string -> Option<Sort>, s: string, items: seq<Item>, rest: string)
    requires ParseUnit(sortOf, s) == Took(items, rest)
    ensures ParseKast(sortOf, s) == Onward(sortOf, items, rest)
  {
  }

  /** What follows some items goes on in the same way after more of them. */
  lemma OnwardAfter(sortOf: string -> Option<Sort>, a: seq<Item>, b: seq<Item>, text: string, rest: string)
    requires ParseKast(sortOf, text) == Onward(sortOf, b, rest)
    ensures Onward(sortOf, a, "~>" + text) == Onward(sortOf, a + b, rest)
  {
    SkipText("~>", text);
    match Skip("~>", rest)
    case None =>
    case Some(s) =>
      match ParseKast(sortOf, s)
      case Stuck =>
      case Took(more, _) => Assoc(a, b, more);
  }

  /** The text of a term is read as its items, and then reading goes on with what follows. */
  lemma {:induction false} TermIsRead(style: Style, sortOf: string -> Option<Sort>, parent: Sort, t: Term, rest: string)
    requires KastLegible(style, sortOf) && WellFormed(t) && HasPlainLabels(t)
    ensures ParseKast(sortOf, Render(style, parent, t) + rest) == Onward(sortOf, ItemsOf(t), rest)
    decreases t, |t.kids| + 2
  {
    match t.node
    case KApply(_, _, _) =>
      ApplicationIsRead(style, sortOf, parent, t, rest);
      ItemsThen(sortOf, Render(style, parent, t) + rest, ItemsOf(t), rest);
    case KToken(sort, value) =>
      TokenIsRead(style, sortOf, sort, value, rest);
      ItemsThen(sortOf, Render(style, parent, t) + rest, ItemsOf(t), rest);
    case KSequence(_) =>
      if t.kids == [] {
        SkipText(".K", rest);
        assert (".K" + rest)[0] == '.';
        ItemsThen(sortOf, ".K" + rest, [], rest);
      } else {
        JoinedIsRead(style, sortOf, t, 0, rest);
      }
  }

  lemma {:induction false} JoinedIsRead(style: Style, sortOf: string -> Option<Sort>, t: Term, i: nat, rest: string)
    requires KastLegible(style, sortOf) && WellFormed(t) && HasPlainLabels(t) && i < |t.kids|
    ensures ParseKast(sortOf, JoinedFrom(style, t, i) + rest) == Onward(sortOf, FlatItems(t, i), rest)
    decreases t, |t.kids| - i
  {
    hide ParseKast, ParseUnit, Render, Skip, Onward;
    var text, items := Render(style, KITEM, t.kids[i]), ItemsOf(t.kids[i]);
    if i + 1 == |t.kids| {
      assert text + "" + "" + rest == text + rest;
      assert items + [] == items;
      TermIsRead(style, sortOf, KITEM, t.kids[i], rest);
    } else {
      var later := JoinedFrom(style, t, i + 1);
      Assoc4(text, "~>", later, rest);
      JoinedIsRead(style, sortOf, t, i + 1, rest);
      TermIsRead(style, sortOf, KITEM, t.kids[i], "~>" + (later + rest));
      OnwardAfter(sortOf, items, FlatItems(t, i + 1), later + rest, rest);
    }
  }

  lemma ApplicationUnfolds(style: Style, parent: Sort, t: Term, rest: string)
    requires !style.kore && WellFormed(t) && t.node.KApply?
    ensures Render(style, parent, t) + rest
         == "`" + (t.node.klabel + ("`" + ("(" + ((if t.kids == [] then ".KList" else ArgsFrom(style, t, 0)) + (")" + rest)))))
  {
    hide Render;
    var klabel, args := t.node.klabel, ArgsFrom(style, t, 0);
    var list := if t.kids == [] then ".KList" else "";
    ApplicationText(style, parent, t);
    Regroup(klabel, list, args, rest);
    assert t.kids == [] ==> ".KList" + args == ".KList";
    assert "" + args == args;
  }

  lemma ApplicationText(style: Style, parent: Sort, t: Term)
    requires !style.kore && WellFormed(t) && t.node.KApply?
    ensures Render(style, parent, t)
         == "" + ("`" + t.node.klabel + "`" + "(" + (if t.kids == [] then ".KList" else "")) + ArgsFrom(style, t, 0) + (")" + "")
  {
  }

  lemma Regroup(klabel: string, list: string, args: string, rest: string)
    ensures "" + ("`" + klabel + "`" + "(" + list) + args + (")" + "") + rest
         == "`" + (klabel + ("`" + ("(" + ((list + args) + (")" + rest)))))
  {
  }

  lemma {:induction false} ApplicationIsRead(style: Style, sortOf: string -> Option<Sort>, parent: Sort, t: Term, rest: string)
    requires KastLegible(style, sortOf) && WellFormed(t) && HasPlainLabels(t) && t.node.KApply?
    ensures ParseUnit(sortOf, Render(style, parent, t) + rest) == Took(ItemsOf(t), rest)
    decreases t, |t.kids| + 1
  {
    ApplicationUnfolds(style, parent, t, rest);
    if t.kids == [] {
      NoArgumentsAreRead(sortOf, rest);
      UnitIsRead(sortOf, t.node.klabel, ".KList" + (")" + rest), [], rest);
    } else {
      ArgumentsAreRead(style, sortOf, t, 0, rest);
      FirstArgs(style, t);
      UnitIsRead(sortOf, t.node.klabel, ArgsFrom(style, t, 0) + (")" + rest), ArgItems(t, 0), rest);
    }
  }

  lemma FirstArgs(style: Style, t: Term)
    requires WellFormed(t) && t.node.KApply? && t.kids != []
    ensures ArgsFrom(style, t, 0) == ArgsAt(style, t, 0)
  {
    hide Render;
    assert "" + Render(style, t.node.sig[0], t.kids[0]) == Render(style, t.node.sig[0], t.kids[0]);
  }

  lemma NoArgumentsAreRead(sortOf: string -> Option<Sort>, rest: string)
    ensures ParseArguments(sortOf, ".KList" + (")" + rest)) == Took([], rest)
  {
    var s := ".KList" + (")" + rest);
    assert s == ".KList)" + rest && s == ".K" + ("List)" + rest);
    SkipText(".KList)", rest);
    SkipText(".K", "List)" + rest);
    NoArrow("List)" + rest);
    assert ParseUnit(sortOf, s) == Took([], "List)" + rest);
    assert ParseKast(sortOf, s) == Took([], "List)" + rest);
    assert ParseArgumentList(sortOf, s) == Stuck;
  }

  lemma UnitIsRead(sortOf: string -> Option<Sort>, klabel: string, text: string, args: seq<Joined>, rest: string)
    requires '`' !in klabel && ParseArguments(sortOf, text) == Took(args, rest)
    ensures ParseUnit(sortOf, "`" + (klabel + ("`" + ("(" + text)))) == Took([Application(klabel, args)], rest)
  {
    hide ParseArguments, UpTo;
    var s := "`" + (klabel + ("`" + ("(" + text)));
    assert s[0] == '`' && s[1..] == klabel + (['`'] + ("(" + text));
    UpToMark('`', klabel, "(" + text);
    SkipText("(", text);
  }

  /** The arguments from the i-th on, up to the parenthesis that ends them. */
  lemma {:induction false} ArgumentsAreRead(style: Style, sortOf: string -> Option<Sort>, t: Term, i: nat, rest: string)
    requires KastLegible(style, sortOf) && WellFormed(t) && HasPlainLabels(t) && t.node.KApply? && i < |t.kids|
    ensures ParseArgumentList(sortOf, ArgsAt(style, t, i) + (")" + rest)) == Took(ArgItems(t, i), rest)
    decreases t, |t.kids| - i
  {
    hide ParseUnit, Render;
    var sort, kid := t.node.sig[i], t.kids[i];
    if i + 1 == |t.kids| {
      TermIsRead(style, sortOf, sort, kid, ")" + rest);
      assert ArgsFrom(style, t, i + 1) == "";
      assert Render(style, sort, kid) + "" + (")" + rest) == Render(style, sort, kid) + (")" + rest);
      assert ArgItems(t, i) == [Joined(ItemsOf(kid))];
      assert (")" + rest)[1..] == rest;
      NoArrow(")" + rest);
    } else {
      var later := ArgsAt(style, t, i + 1) + (")" + rest);
      ArgumentsAreRead(style, sortOf, t, i + 1, rest);
      TermIsRead(style, sortOf, sort, kid, "," + later);
      assert ("," + later)[1..] == later;
      NoArrow("," + later);
      ArgsAtStep(style, t, i, rest);
    }
  }

  /** The arguments from the i-th on, without a comma before them. */
  ghost function ArgsAt(style: Style, t: Term, i: nat): string
    requires WellFormed(t) && t.node.KApply? && i < |t.kids|
  {
    Render(style, t.node.sig[i], t.kids[i]) + ArgsFrom(style, t, i + 1)
  }

  lemma ArgsAtStep(style: Style, t: Term, i: nat, rest: string)
    requires WellFormed(t) && t.node.KApply? && i + 1 < |t.kids|
    ensures ArgsAt(style, t, i) + (")" + rest)
         == Render(style, t.node.sig[i], t.kids[i]) + ("," + (ArgsAt(style, t, i + 1) + (")" + rest)))
  {
    hide Render;
    var text, next := Render(style, t.node.sig[i], t.kids[i]), Render(style, t.node.sig[i + 1], t.kids[i + 1]);
    var later := ArgsFrom(style, t, i + 2);
    assert ArgsFrom(style, t, i + 1) == "," + next + later;
    Commas(text, next, later, ")" + rest);
  }

  lemma Commas(text: string, next: string, later: string, rest: string)
    ensures text + ("," + next + later) + rest == text + ("," + (next + later + rest))
  {
  }

  // ----- Only labels without back quotes are read -----

  ghost predicate PlainItem(item: Item)
    decreases item
  {
    item.Application? ==> '`' !in item.klabel && forall i :: 0 <= i < |item.args| ==> PlainJoined(item.args[i])
  }

  ghost predicate PlainJoined(joined: Joined)
    decreases joined
  {
    PlainItems(joined.items)
  }

  ghost predicate PlainItems(items: seq<Item>)
    decreases items
  {
    forall i :: 0 <= i < |items| ==> PlainItem(items[i])
  }

  ghost predicate AllPlain(args: seq<Joined>) {
    forall i :: 0 <= i < |args| ==> PlainJoined(args[i])
  }

  lemma {:induction false} ReadIsPlain(sortOf: string -> Option<Sort>, s: string)
    ensures ParseUnit(sortOf, s).Took? ==> PlainItems(ParseUnit(sortOf, s).it)
    decreases |s|, 0
  {
    if s != "" && s[0] == '`' && UpTo('`', s[1..]).Took? {
      var s1 := UpTo('`', s[1..]).rest;
      if Skip("(", s1).Some? {
        ListIsPlain(sortOf, Skip("(", s1).value);
      }
    }
  }

  lemma {:induction false} KastIsPlain(sortOf: string -> Option<Sort>, s: string)
    ensures ParseKast(sortOf, s).Took? ==> PlainItems(ParseKast(sortOf, s).it)
    decreases |s|, 1
  {
    hide ParseUnit, PlainItem;
    ReadIsPlain(sortOf, s);
    if ParseUnit(sortOf, s).Took? && Skip("~>", ParseUnit(sortOf, s).rest).Some? {
      KastIsPlain(sortOf, Skip("~>", ParseUnit(sortOf, s).rest).value);
    }
  }

  lemma {:induction false} ListIsPlain(sortOf: string -> Option<Sort>, s: string)
    ensures ParseArgumentList(sortOf, s).Took? ==> AllPlain(ParseArgumentList(sortOf, s).it)
    ensures ParseArguments(sortOf, s).Took? ==> AllPlain(ParseArguments(sortOf, s).it)
    decreases |s|, 2
  {
    hide ParseUnit, ParseKast, PlainItems;
    KastIsPlain(sortOf, s);
    match ParseKast(sortOf, s)
    case Stuck =>
    case Took(_, s1) =>
      if s1 != "" {
        ListIsPlain(sortOf, s1[1..]);
      }
  }

  lemma {:induction false} PlainItemsPlainTerm(t: Term)
    requires WellFormed(t) && PlainItems(ItemsOf(t))
    ensures HasPlainLabels(t)
    decreases t, |t.kids| + 1
  {
    match t.node
    case KApply(_, _, _) =>
      assert PlainItem(ItemsOf(t)[0]);
      PlainArgsPlainKids(t, 0);
    case KToken(_, _) =>
    case KSequence(_) => PlainFlatPlainKids(t, 0);
  }

  lemma {:induction false} PlainArgsPlainKids(t: Term, i: nat)
    requires WellFormed(t) && i <= |t.kids| && AllPlain(ArgItems(t, i))
    ensures forall j :: i <= j < |t.kids| ==> HasPlainLabels(t.kids[j])
    decreases t, |t.kids| - i
  {
    if i < |t.kids| {
      var args := ArgItems(t, i);
      assert args[0] == Joined(ItemsOf(t.kids[i])) && args[1..] == ArgItems(t, i + 1);
      PlainItemsPlainTerm(t.kids[i]);
      PlainArgsPlainKids(t, i + 1);
    }
  }

  lemma {:induction false} PlainFlatPlainKids(t: Term, i: nat)
    requires WellFormed(t) && i <= |t.kids| && PlainItems(FlatItems(t, i))
    ensures forall j :: i <= j < |t.kids| ==> HasPlainLabels(t.kids[j])
    decreases t, |t.kids| - i
  {
    if i < |t.kids| {
      var a, b := ItemsOf(t.kids[i]), FlatItems(t, i + 1);
      PlainBoth(a, b);
      PlainItemsPlainTerm(t.kids[i]);
      PlainFlatPlainKids(t, i + 1);
    }
  }

  lemma PlainBoth(a: seq<Item>, b: seq<Item>)
    requires PlainItems(a + b)
    ensures PlainItems(a) && PlainItems(b)
  {
    forall i | 0 <= i < |a| ensures PlainItem(a[i]) {
      assert (a + b)[i] == a[i];
    }
    forall i | 0 <= i < |b| ensures PlainItem(b[i]) {
      assert (a + b)[|a| + i] == b[i];
    }
  }

  // ----- The round trip -----

  lemma FrontEndIsKastLegible()
    ensures KastLegible(FrontEnd(false), SortOf)
  {
    forall sort ensures SortOf(SortName(sort)) == Some(sort) && '"' !in SortName(sort) {
      NamesHaveNoQuote(sort);
    }
  }

  /** KAST output round-trips: unless an arrow follows it, the text printed for a term reads back as the
      items of that term, if and only if no label of the term holds a back quote. */
  lemma PrintedTermsParse(parent: Sort, t: Term, rest: string)
    requires WellFormed(t) && !("~>" <= rest)
    ensures ParseKast(SortOf, Render(FrontEnd(false), parent, t) + rest) == Took(ItemsOf(t), rest) <==> HasPlainLabels(t)
  {
    hide ParseUnit, Render, SortOf, SortName;
    var s := Render(FrontEnd(false), parent, t) + rest;
    FrontEndIsKastLegible();
    if HasPlainLabels(t) {
      TermIsRead(FrontEnd(false), SortOf, parent, t, rest);
    }
    if ParseKast(SortOf, s) == Took(ItemsOf(t), rest) {
      KastIsPlain(SortOf, s);
      PlainItemsPlainTerm(t);
    }
  }
  /** A label with a back quote is such a term. */
  lemma BackQuoteIsNotRead(parent: Sort, rest: string)
    requires !("~>" <= rest)
    ensures var t := Term(KApply("operator`_CPP-SYNTAX", OPID, []), []);
            WellFormed(t) && ParseKast(SortOf, Render(FrontEnd(false), parent, t) + rest) != Took(ItemsOf(t), rest)
  {
    var t := Term(KApply("operator`_CPP-SYNTAX", OPID, []), []);
    hide ParseKast, Render, SortOf, SortName, ItemsOf;
    assert t.node.klabel[8] == '`';
    PrintedTermsParse(parent, t, rest);
  }
}
