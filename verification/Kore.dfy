/** KORE output: it is well sorted, and it can be parsed back. */
module Kore {
  import opened Sequences
  import opened Wrappers
  import opened Sorts
  import opened Terms
  import opened Tokens
  import opened Printer

  // ----- KORE patterns -----

  datatype Pattern =
    | App(node: Node, args: seq<Pattern>)
    | Inj(from: Sort, to: Sort, arg: Pattern)
    | Pair(head: Pattern, tail: Pattern)
    | Dotk
    | Dv(sort: Sort, value: Bytes)

  /** The pattern of an application of one sort where another is asked for. */
  function Coerced(base: Pattern, sort: Sort, parent: Sort): Pattern {
    if sort == parent then base
    else if parent != K then Inj(sort, parent, base)
    else Pair(if sort != KITEM then Inj(sort, KITEM, base) else base, Dotk)
  }

  ghost function ToPattern(parent: Sort, t: Term): Pattern
    requires WellFormed(t)
    decreases t, |t.kids| + 1
  {
    match t.node
    case KApply(_, sort, _) => Coerced(App(t.node, ArgPatterns(t, 0)), sort, parent)
    case KToken(sort, value) => Dv(sort, value)
    case KSequence(_) => ItemPatterns(t, 0)
  }

  ghost function ArgPatterns(t: Term, i: nat): (ps: seq<Pattern>)
    requires WellFormed(t) && t.node.KApply? && i <= |t.kids|
    ensures |ps| == |t.kids| - i
    decreases t, |t.kids| - i
  {
    if i == |t.kids| then [] else [ToPattern(t.node.sig[i], t.kids[i])] + ArgPatterns(t, i + 1)
  }

  ghost function ItemPatterns(t: Term, i: nat): Pattern
    requires WellFormed(t) && i <= |t.kids|
    decreases t, |t.kids| - i
  {
    if i == |t.kids| then Dotk else Pair(ToPattern(KITEM, t.kids[i]), ItemPatterns(t, i + 1))
  }

  // ----- Sorting -----

  /** The sort of a pattern, if it has one: a symbol takes arguments of the sorts it declares, an
      injection goes from one sort to another, and the sequences of sort K are built from items. */
  ghost function PatternSort(p: Pattern): Option<Sort> {
    match p
    case App(node, args) =>
      if node.KApply? && |args| == |node.sig| && (forall i :: 0 <= i < |args| ==> PatternSort(args[i]) == Some(node.sig[i]))
      then Some(node.sort) else None
    case Inj(from, to, arg) => if from != to && to != K && PatternSort(arg) == Some(from) then Some(to) else None
    case Pair(head, tail) => if PatternSort(head) == Some(KITEM) && PatternSort(tail) == Some(K) then Some(K) else None
    case Dotk => Some(K)
    case Dv(sort, _) => Some(sort)
  }

  lemma ArgPatternsAt(t: Term, i: nat, j: nat)
    requires WellFormed(t) && t.node.KApply? && i + j < |t.kids|
    ensures ArgPatterns(t, i)[j] == ToPattern(t.node.sig[i + j], t.kids[i + j])
    decreases j
  {
    if j > 0 {
      ArgPatternsAt(t, i + 1, j - 1);
    }
  }

  /** What is printed for a term has the sort its parent asked for, exactly when every token below
      is asked for at its own sort and every sequence at K. */
  lemma {:induction false} PrintedSort(parent: Sort, t: Term)
    requires WellFormed(t)
    ensures PatternSort(ToPattern(parent, t)) == Some(parent) <==> Fits(true, parent, t)
    decreases t, |t.kids| + 1
  {
    if t.node.KApply? {
      var args := ArgPatterns(t, 0);
      forall i | 0 <= i < |t.kids|
        ensures PatternSort(args[i]) == Some(t.node.sig[i]) <==> Fits(true, t.node.sig[i], t.kids[i])
      {
        ArgPatternsAt(t, 0, i);
        PrintedSort(t.node.sig[i], t.kids[i]);
      }
      var base := App(t.node, args);
      assert PatternSort(base) == Some(t.node.sort) <==> Fits(true, parent, t);
      CoercedSort(base, t.node.sort, parent);
    } else if t.node.KSequence? {
      ItemsSort(t, 0);
      SequenceFits(parent, t);
    }
  }

  lemma SequenceFits(parent: Sort, t: Term)
    requires WellFormed(t) && t.node.KSequence?
    ensures Fits(true, parent, t) <==> parent == K && ItemsFitFrom(t, 0)
  {
    assert forall i :: 0 <= i < |t.kids| ==> SlotSort(t.node, i) == KITEM;
  }

  lemma CoercedSort(base: Pattern, sort: Sort, parent: Sort)
    requires PatternSort(base) == Some(sort) || PatternSort(base) == None
    ensures PatternSort(Coerced(base, sort, parent)) ==
            if PatternSort(base) == Some(sort) then Some(parent) else None
  {
    if sort != parent && parent == K {
      assert PatternSort(Inj(sort, KITEM, base)) ==
             if sort != KITEM && PatternSort(base) == Some(sort) then Some(KITEM) else None;
    }
  }

  ghost predicate ItemsFitFrom(t: Term, i: nat)
    requires WellFormed(t)
  {
    forall j :: i <= j < |t.kids| ==> Fits(true, KITEM, t.kids[j])
  }

  lemma ItemsFitStep(t: Term, i: nat)
    requires WellFormed(t) && i < |t.kids|
    ensures ItemsFitFrom(t, i) <==> Fits(true, KITEM, t.kids[i]) && ItemsFitFrom(t, i + 1)
  {
  }

  lemma {:induction false} ItemsSort(t: Term, i: nat)
    requires WellFormed(t) && i <= |t.kids|
    ensures PatternSort(ItemPatterns(t, i)) == (if ItemsFitFrom(t, i) then Some(K) else None)
    decreases t, |t.kids| - i
  {
    if i < |t.kids| {
      PrintedSort(KITEM, t.kids[i]);
      ItemsSort(t, i + 1);
      ItemsFitStep(t, i);
    }
  }

  // ----- The text of a pattern, with what follows it -----

  function SortThen(style: Style, sort: Sort, rest: string): string {
    "Sort" + (style.sortName(sort) + ("{}" + rest))
  }

  function SymbolThen(style: Style, klabel: string, rest: string): string {
    "Lbl" + (style.koreLabel(klabel) + ("{}(" + rest))
  }

  function InjThen(style: Style, from: Sort, to: Sort, rest: string): string {
    "inj{" + SortThen(style, from, ", " + SortThen(style, to, "}(" + rest))
  }

  function DvThen(style: Style, sort: Sort, value: Bytes, rest: string): string {
    "\\dv{" + SortThen(style, sort, "}(\"" + (Escaped(value) + ("\"" + (")" + rest))))
  }

  ghost function TextThen(style: Style, p: Pattern, rest: string): string
    decreases p, 0
  {
    match p
    case App(node, args) =>
      if node.KApply? then SymbolThen(style, node.klabel, ArgsThen(style, args, 0, ")" + rest)) else rest
    case Inj(from, to, arg) => InjThen(style, from, to, TextThen(style, arg, ")" + rest))
    case Pair(head, tail) => "kseq{}(" + TextThen(style, head, ", " + TextThen(style, tail, ")" + rest))
    case Dotk => "dotk{}()" + rest
    case Dv(sort, value) => DvThen(style, sort, value, rest)
  }

  ghost function ArgsThen(style: Style, args: seq<Pattern>, i: nat, rest: string): string
    requires i <= |args|
    decreases args, |args| - i
  {
    if i == |args| then rest
    else (if i > 0 then "," else "") + TextThen(style, args[i], ArgsThen(style, args, i + 1, rest))
  }

  // ----- The printer prints patterns -----

  lemma SortTextThen(style: Style, sort: Sort, rest: string)
    requires style.kore
    ensures SortText(style, sort) + rest == SortThen(style, sort, rest)
  {
    Assoc4("Sort", style.sortName(sort), "{}", rest);
  }

  lemma InjectionThen(style: Style, from: Sort, to: Sort, rest: string)
    requires style.kore
    ensures Injection(style, from, to) + rest == InjThen(style, from, to, rest)
  {
    Assoc6("inj{", SortText(style, from), ", ", SortText(style, to), "}(", rest);
    SortTextThen(style, to, "}(" + rest);
    SortTextThen(style, from, ", " + SortThen(style, to, "}(" + rest));
  }

  lemma TokenTextThen(style: Style, sort: Sort, value: Bytes, rest: string)
    requires style.kore
    ensures TokenText(style, sort, value) + rest == DvThen(style, sort, value, rest)
  {
    var close := "\"" + (")" + rest);
    assert "\")" + rest == close;
    Assoc6("\\dv{", SortText(style, sort), "}(\"", Escaped(value), "\")", rest);
    SortTextThen(style, sort, "}(\"" + (Escaped(value) + close));
  }

  lemma SymbolTextThen(style: Style, node: Node, rest: string)
    requires style.kore && node.KApply?
    ensures SymbolText(style, node) + rest == SymbolThen(style, node.klabel, rest)
  {
    var name := style.koreLabel(node.klabel);
    assert SymbolText(style, node) == "Lbl" + name + "{}" + "(";
    Assoc6("Lbl", name, "{}", "(", "", rest);
    assert "" + rest == rest;
    assert "Lbl" + name + "{}" + "(" + "" == "Lbl" + name + "{}" + "(";
    assert "{}" + ("(" + rest) == "{}(" + rest;
  }

  lemma ClosingTails(rest: string)
    ensures ", dotk{}())" + rest == ", " + ("dotk{}()" + (")" + rest))
    ensures "), dotk{}())" + rest == ")" + (", " + ("dotk{}()" + (")" + rest)))
  {
    assert ", dotk{}())" == ", " + "dotk{}()" + ")";
    Assoc4(", ", "dotk{}()", ")", rest);
    assert "), dotk{}())" == ")" + ", dotk{}())";
    Assoc(")", ", dotk{}())", rest);
  }

  /** The text of a coerced application, when the text of the application itself is known. */
  lemma CoercedText(style: Style, base: Pattern, text: string, sort: Sort, parent: Sort, rest: string)
    requires style.kore
    requires forall more :: text + (")" + more) == TextThen(style, base, more)
    ensures Opening(style, sort, parent) + text + (")" + Closing(style, sort, parent)) + rest
         == TextThen(style, Coerced(base, sort, parent), rest)
  {
    var opening, closing := Opening(style, sort, parent), Closing(style, sort, parent);
    Assoc4(opening, text, ")" + closing, rest);
    Assoc(")", closing, rest);
    assert text + (")" + (closing + rest)) == TextThen(style, base, closing + rest);
    OpenedText(style, base, sort, parent, rest);
  }

  lemma OpenedText(style: Style, base: Pattern, sort: Sort, parent: Sort, rest: string)
    requires style.kore
    ensures Opening(style, sort, parent) + TextThen(style, base, Closing(style, sort, parent) + rest)
         == TextThen(style, Coerced(base, sort, parent), rest)
  {
    if sort == parent {
      UncoercedText(style, base, sort, rest);
    } else if parent != K {
      InjectedText(style, base, sort, parent, rest);
    } else if sort != KITEM {
      InjectedPairText(style, base, sort, rest);
    } else {
      PairText(style, base, rest);
    }
  }

  lemma UncoercedText(style: Style, base: Pattern, sort: Sort, rest: string)
    ensures Opening(style, sort, sort) + TextThen(style, base, Closing(style, sort, sort) + rest)
         == TextThen(style, Coerced(base, sort, sort), rest)
  {
    PrependNothing(rest);
    PrependNothing(TextThen(style, base, rest));
  }

  lemma InjectedText(style: Style, base: Pattern, sort: Sort, parent: Sort, rest: string)
    requires style.kore && sort != parent && parent != K
    ensures Opening(style, sort, parent) + TextThen(style, base, Closing(style, sort, parent) + rest)
         == TextThen(style, Coerced(base, sort, parent), rest)
  {
    InjectionThen(style, sort, parent, TextThen(style, base, ")" + rest));
  }

  lemma PairText(style: Style, base: Pattern, rest: string)
    ensures "kseq{}(" + TextThen(style, base, ", dotk{}())" + rest) == TextThen(style, Pair(base, Dotk), rest)
  {
    ClosingTails(rest);
    assert TextThen(style, Dotk, ")" + rest) == "dotk{}()" + (")" + rest);
  }

  lemma InjectedPairText(style: Style, base: Pattern, sort: Sort, rest: string)
    requires style.kore
    ensures "kseq{}(" + Injection(style, sort, KITEM) + TextThen(style, base, "), dotk{}())" + rest)
         == TextThen(style, Pair(Inj(sort, KITEM, base), Dotk), rest)
  {
    var inner := TextThen(style, base, "), dotk{}())" + rest);
    Assoc("kseq{}(", Injection(style, sort, KITEM), inner);
    InjectionThen(style, sort, KITEM, inner);
    ClosingTails(rest);
    PairText(style, Inj(sort, KITEM, base), rest);
  }

  lemma PrependNothing(a: string)
    ensures "" + a == a
  {
  }

  /** In KORE mode the printer prints exactly the pattern of the term. */
  lemma {:induction false} RenderIsPattern(style: Style, parent: Sort, t: Term, rest: string)
    requires style.kore && WellFormed(t)
    ensures Render(style, parent, t) + rest == TextThen(style, ToPattern(parent, t), rest)
    decreases t, |t.kids| + 1
  {
    match t.node
    case KApply(_, sort, _) =>
      var base := App(t.node, ArgPatterns(t, 0));
      var symbol, args := SymbolText(style, t.node), ArgsFrom(style, t, 0);
      forall more ensures symbol + args + (")" + more) == TextThen(style, base, more) {
        Assoc(symbol, args, ")" + more);
        SymbolTextThen(style, t.node, args + (")" + more));
        ArgsArePatterns(style, t, 0, ")" + more);
      }
      CoercedText(style, base, symbol + args, sort, parent, rest);
      Assoc(Opening(style, sort, parent), symbol, args);
    case KToken(sort, value) => TokenTextThen(style, sort, value, rest);
    case KSequence(_) => ItemsArePatterns(style, t, 0, rest);
  }

  lemma {:induction false} ArgsArePatterns(style: Style, t: Term, i: nat, rest: string)
    requires style.kore && WellFormed(t) && t.node.KApply? && i <= |t.kids|
    ensures ArgsFrom(style, t, i) + rest == ArgsThen(style, ArgPatterns(t, 0), i, rest)
    decreases t, |t.kids| - i
  {
    var ps := ArgPatterns(t, 0);
    if i == |t.kids| {
      assert "" + rest == rest;
    } else {
      var sep := if i > 0 then "," else "";
      var text, after := Render(style, t.node.sig[i], t.kids[i]), ArgsFrom(style, t, i + 1);
      Assoc4(sep, text, after, rest);
      ArgsArePatterns(style, t, i + 1, rest);
      RenderIsPattern(style, t.node.sig[i], t.kids[i], ArgsThen(style, ps, i + 1, rest));
      ArgPatternsAt(t, 0, i);
    }
  }

  lemma {:induction false} ItemsArePatterns(style: Style, t: Term, i: nat, rest: string)
    requires style.kore && WellFormed(t) && i <= |t.kids|
    ensures ItemsFrom(style, t, i) + rest == TextThen(style, ItemPatterns(t, i), rest)
    decreases t, |t.kids| - i
  {
    if i < |t.kids| {
      var text, after := Render(style, KITEM, t.kids[i]), ItemsFrom(style, t, i + 1);
      Assoc6("kseq{}(", text, ", ", after, ")", rest);
      ItemsArePatterns(style, t, i + 1, ")" + rest);
      RenderIsPattern(style, KITEM, t.kids[i], ", " + TextThen(style, ItemPatterns(t, i + 1), ")" + rest));
    }
  }
}
