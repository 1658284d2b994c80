/** Printing terms, and the printer that finds them in the node vector as it goes. */
module Printer {
  import opened Sequences
  import opened Sorts
  import opened Terms
  import opened Tokens
  import Labels

  // ----- The text of a term, by recursion on the term -----

  /** Which of the two output languages, and how it spells the names of sorts and labels. Nothing
      about the printer depends on the spelling. */
  datatype Style = Style(kore: bool, sortName: Sort -> string, koreLabel: string -> string)

  function EscapedLabel(klabel: string): string {
    Labels.Escaped(klabel, false)
  }

  /** The spelling the front end uses. */
  function FrontEnd(kore: bool): Style {
    Style(kore, SortName, EscapedLabel)
  }

  function SortText(style: Style, sort: Sort): string {
    if style.kore then "Sort" + style.sortName(sort) + "{}" else style.sortName(sort)
  }

  /** makeKLabel. */
  function LabelText(style: Style, klabel: string): string {
    if style.kore then "Lbl" + style.koreLabel(klabel) + "{}" else "`" + klabel + "`"
  }

  function Injection(style: Style, from: Sort, to: Sort): string {
    "inj{" + SortText(style, from) + ", " + SortText(style, to) + "}("
  }

  /** What stands before an application of one sort where another is asked for. */
  function Opening(style: Style, sort: Sort, parent: Sort): string {
    if !style.kore || sort == parent then ""
    else if parent != K then Injection(style, sort, parent)
    else if sort != KITEM then "kseq{}(" + Injection(style, sort, KITEM)
    else "kseq{}("
  }

  /** What stands after it. */
  function Closing(style: Style, sort: Sort, parent: Sort): string {
    if !style.kore || sort == parent then ""
    else if parent != K then ")"
    else if sort != KITEM then "), dotk{}())"
    else ", dotk{}())"
  }

  function TokenText(style: Style, sort: Sort, value: Bytes): string {
    if style.kore then "\\dv{" + SortText(style, sort) + "}(\"" + Escaped(value) + "\")"
    else "#token(\"" + Escaped(value) + "\", \"" + SortText(style, sort) + "\")"
  }

  /** The symbol of an application and the start of its argument list. */
  function SymbolText(style: Style, node: Node): string
    requires node.KApply?
  {
    LabelText(style, node.klabel) + "(" + if !style.kore && node.sig == [] then ".KList" else ""
  }

  /** The text of a term where its parent asks for a sort. */
  ghost function Render(style: Style, parent: Sort, t: Term): string
    requires WellFormed(t)
    decreases t, |t.kids| + 1
  {
    match t.node
    case KApply(klabel, sort, sig) =>
      Opening(style, sort, parent)
      + SymbolText(style, t.node)
      + ArgsFrom(style, t, 0)
      + (")" + Closing(style, sort, parent))
    case KToken(sort, value) => TokenText(style, sort, value)
    case KSequence(_) => if style.kore then ItemsFrom(style, t, 0) else JoinedFrom(style, t, 0)
  }

  /** The arguments of an application from the i-th on, each but the first after a comma. */
  ghost function ArgsFrom(style: Style, t: Term, i: nat): string
    requires WellFormed(t) && t.node.KApply? && i <= |t.kids|
    decreases t, |t.kids| - i
  {
    if i == |t.kids| then ""
    else (if i > 0 then "," else "") + Render(style, t.node.sig[i], t.kids[i]) + ArgsFrom(style, t, i + 1)
  }

  /** The items of a sequence from the i-th on, as nested KORE pairs. */
  ghost function ItemsFrom(style: Style, t: Term, i: nat): string
    requires WellFormed(t) && i <= |t.kids|
    decreases t, |t.kids| - i
  {
    if i == |t.kids| then "dotk{}()"
    else "kseq{}(" + Render(style, KITEM, t.kids[i]) + ", " + ItemsFrom(style, t, i + 1) + ")"
  }

  /** The items of a sequence from the i-th on, with an arrow between them. */
  ghost function JoinedFrom(style: Style, t: Term, i: nat): string
    requires WellFormed(t) && i <= |t.kids|
    decreases t, |t.kids| - i
  {
    if i == |t.kids| then (if i == 0 then ".K" else "")
    else Render(style, KITEM, t.kids[i]) + (if i + 1 < |t.kids| then "~>" else "") + JoinedFrom(style, t, i + 1)
  }

  // ----- The printer -----

  ghost function Parens(n: nat): string {
    if n == 0 then "" else ")" + Parens(n - 1)
  }

  /** The n terms from the cursor on are the children of a node from the i-th on. */
  ghost predicate KidsFrom(v: seq<Node>, cursor: nat, n: nat, all: KidsReading, i: nat)
    requires cursor <= |v|
    decreases n
  {
    if n == 0 then all.GotKids? && all.next == cursor && |all.terms| == i
    else
      match Read(v, cursor)
      case NeedsMore => all.KidsNeedMore?
      case Got(t, next) => (all.GotKids? ==> i < |all.terms| && all.terms[i] == t) && KidsFrom(v, next, n - 1, all, i + 1)
  }

  lemma {:induction false} KidsAreRead(v: seq<Node>, cursor: nat, n: nat, all: KidsReading, i: nat)
    requires cursor <= |v|
    requires var left := ReadKids(v, cursor, n);
             (all.GotKids? <==> left.GotKids?)
             && (all.GotKids? ==> all.next == left.next && i <= |all.terms| && all.terms[i..] == left.terms)
    ensures KidsFrom(v, cursor, n, all, i)
    decreases n
  {
    if n > 0 && Read(v, cursor).Got? {
      if all.GotKids? {
        assert all.terms[i] == all.terms[i..][0] && all.terms[i + 1..] == all.terms[i..][1..];
      }
      KidsAreRead(v, Read(v, cursor).next, n - 1, all, i + 1);
    }
  }

  /** What reading a node is made of: the node and the reading of its children. */
  lemma NodeReading(v: seq<Node>, idx: nat) returns (all: KidsReading, t: Term)
    requires idx < |v|
    ensures KidsFrom(v, idx + 1, Arity(v[idx]), all, 0)
    ensures all.GotKids? <==> Read(v, idx).Got?
    ensures all.GotKids? ==> Read(v, idx) == Got(t, all.next) && t == Term(v[idx], all.terms)
    ensures all.GotKids? ==> |t.kids| == Arity(v[idx])
  {
    all := ReadKids(v, idx + 1, Arity(v[idx]));
    t := Term(v[idx], if all.GotKids? then all.terms else []);
    KidsAreRead(v, idx + 1, Arity(v[idx]), all, 0);
  }

  lemma RegroupItem(a: string, b: string, c: string, d: string, e: string, f: string, g: string)
    ensures a + (b + c + d + e + f) + g == a + b + c + d + e + (f + g)
  {
  }

  /** The node vector and the output stream. */
  class Kast {
    const style: Style
    var nodes: seq<Node>
    var out: string

    constructor (style: Style)
      ensures this.style == style && nodes == [] && out == ""
    {
      this.style := style;
      nodes := [];
      out := "";
    }

    /** Kast::add. */
    method Add(node: Node)
      modifies this`nodes
      ensures nodes == old(nodes) + [node]
    {
      nodes := nodes + [node];
    }

    /** Kast::print(parentSort, idx): prints the term whose word starts at idx and returns its last
        index. The result is not ok when the walk asks for a node past the end of the vector, which
        it does exactly when no word starts at idx. */
    method Print(parent: Sort, idx: nat) returns (ok: bool, last: nat)
      requires idx <= |nodes|
      modifies this`out
      ensures ok <==> Read(nodes, idx).Got?
      ensures ok ==> last + 1 == Read(nodes, idx).next
      ensures ok ==> WellFormed(Read(nodes, idx).term)
                     && out == old(out) + Render(style, parent, Read(nodes, idx).term)
      decreases |nodes| - idx, 1, 0
    {
      last := idx;
      if idx == |nodes| {
        return false, last;
      }
      if Read(nodes, idx).Got? {
        ReadIsSound(nodes, idx);
      }
      match nodes[idx]
      case KApply(_, _, _) => ok, last := PrintApply(parent, idx);
      case KToken(sort, value) =>
        out := out + TokenText(style, sort, value);
        ok := true;
      case KSequence(_) => ok, last := PrintSequence(idx);
    }

    /** KApply::print. */
    method PrintApply(parent: Sort, idx: nat) returns (ok: bool, last: nat)
      requires idx < |nodes| && nodes[idx].KApply?
      requires Read(nodes, idx).Got? ==> WellFormed(Read(nodes, idx).term)
      modifies this`out
      ensures ok <==> Read(nodes, idx).Got?
      ensures ok ==> last + 1 == Read(nodes, idx).next
      ensures ok ==> out == old(out) + Render(style, parent, Read(nodes, idx).term)
      decreases |nodes| - idx, 0, 1
    {
      var node := nodes[idx];
      out := out + Opening(style, node.sort, parent);
      out := out + SymbolText(style, node);
      ghost var start := out;
      ok, last := PrintArgs(idx);
      if ok {
        out := out + (")" + Closing(style, node.sort, parent));
        ApplyText(style, parent, Read(nodes, idx).term, old(out), start, out);
      }
    }

    /** The callback that prints the next child: the i-th of all children, with n still to come. */
    method PrintChild(sort: Sort, idx: nat, ghost all: KidsReading, ghost i: nat, ghost n: nat)
      returns (ok: bool, last: nat)
      requires idx < |nodes| && n > 0
      requires KidsFrom(nodes, idx + 1, n, all, i)
      modifies this`out
      ensures !ok ==> all.KidsNeedMore?
      ensures ok ==> idx < last < |nodes| && KidsFrom(nodes, last + 1, n - 1, all, i + 1)
      ensures ok && all.GotKids? ==>
                && i < |all.terms|
                && WellFormed(all.terms[i])
                && out == old(out) + Render(style, sort, all.terms[i])
      decreases |nodes| - idx - 1, 2, 0
    {
      ok, last := Print(sort, idx + 1);
    }

    /** The loop of KApply::print over the signature. */
    method PrintArgs(idx: nat) returns (ok: bool, last: nat)
      requires idx < |nodes| && nodes[idx].KApply?
      requires Read(nodes, idx).Got? ==> WellFormed(Read(nodes, idx).term)
      modifies this`out
      ensures ok <==> Read(nodes, idx).Got?
      ensures ok ==> last + 1 == Read(nodes, idx).next
      ensures ok ==> out == old(out) + ArgsFrom(style, Read(nodes, idx).term, 0)
      decreases |nodes| - idx, 0, 0
    {
      var sig := nodes[idx].sig;
      ghost var all, t := NodeReading(nodes, idx);
      assert all.GotKids? ==> WellFormed(t);
      ghost var goal := if all.GotKids? then out + ArgsFrom(style, t, 0) else "";
      last := idx;
      for i := 0 to |sig|
        invariant idx <= last < |nodes|
        invariant KidsFrom(nodes, last + 1, |sig| - i, all, i)
        invariant all.GotKids? ==> goal == out + ArgsFrom(style, t, i)
      {
        ok, last := PrintArg(sig[i], last, all, t, i, |sig| - i);
        if !ok {
          return;
        }
      }
      ok := true;
      AppendNothing(out);
    }

    /** One argument, after a comma unless it is the first: the i-th of all, with n still to come. */
    method PrintArg(sort: Sort, idx: nat, ghost all: KidsReading, ghost t: Term, i: nat, n: nat) returns (ok: bool, last: nat)
      requires idx < |nodes| && n > 0
      requires KidsFrom(nodes, idx + 1, n, all, i)
      requires all.GotKids? ==> t.kids == all.terms && WellFormed(t) && t.node.KApply?
      requires all.GotKids? && i < |t.kids| ==> sort == t.node.sig[i]
      modifies this`out
      ensures !ok ==> all.KidsNeedMore?
      ensures ok ==> idx < last < |nodes| && KidsFrom(nodes, last + 1, n - 1, all, i + 1)
      ensures ok && all.GotKids? ==>
                i < |t.kids| && old(out) + ArgsFrom(style, t, i) == out + ArgsFrom(style, t, i + 1)
      decreases |nodes| - idx - 1, 3, 0
    {
      if i > 0 {
        out := out + ",";
      }
      ghost var comma := out;
      ok, last := PrintChild(sort, idx, all, i, n);
      if ok && all.GotKids? {
        ArgsStep(style, t, i, old(out), comma, out);
      }
    }

    /** KSequence::print. */
    method PrintSequence(idx: nat) returns (ok: bool, last: nat)
      requires idx < |nodes| && nodes[idx].KSequence?
      requires Read(nodes, idx).Got? ==> WellFormed(Read(nodes, idx).term)
      modifies this`out
      ensures ok <==> Read(nodes, idx).Got?
      ensures ok ==> last + 1 == Read(nodes, idx).next
      ensures ok ==> var t := Read(nodes, idx).term;
                     out == old(out) + if style.kore then ItemsFrom(style, t, 0) else JoinedFrom(style, t, 0)
      decreases |nodes| - idx, 0, 2
    {
      if style.kore {
        ok, last := PrintItems(idx);
      } else {
        ok, last := PrintJoined(idx);
      }
    }

    /** The KORE half of KSequence::print. */
    method PrintItems(idx: nat) returns (ok: bool, last: nat)
      requires style.kore && idx < |nodes| && nodes[idx].KSequence?
      requires Read(nodes, idx).Got? ==> WellFormed(Read(nodes, idx).term)
      modifies this`out
      ensures ok <==> Read(nodes, idx).Got?
      ensures ok ==> last + 1 == Read(nodes, idx).next
      ensures ok ==> out == old(out) + ItemsFrom(style, Read(nodes, idx).term, 0)
      decreases |nodes| - idx, 0, 0
    {
      var size := nodes[idx].size;
      ghost var all, t := NodeReading(nodes, idx);
      assert all.GotKids? ==> WellFormed(t);
      ghost var goal := if all.GotKids? then out + ItemsFrom(style, t, 0) else "";
      last := idx;
      AppendNothing(goal);
      for i := 0 to size
        invariant idx <= last < |nodes|
        invariant KidsFrom(nodes, last + 1, size - i, all, i)
        invariant all.GotKids? ==> goal == out + ItemsFrom(style, t, i) + Parens(i)
      {
        ok, last := PrintItem(last, all, t, i, size - i);
        if !ok {
          return;
        }
      }
      FinishItems(size, t, goal);
      ok := true;
    }

    /** The end of a sequence, after its last item. */
    method FinishItems(size: nat, ghost t: Term, ghost goal: string)
      requires WellFormed(t) && size == |t.kids|
      requires goal == out + ItemsFrom(style, t, size) + Parens(size)
      modifies this`out
      ensures out == goal
    {
      out := out + "dotk{}()";
      CloseParens(size, goal);
    }

    /** One item of a sequence: the i-th of all, with n still to come. */
    method PrintItem(idx: nat, ghost all: KidsReading, ghost t: Term, ghost i: nat, n: nat) returns (ok: bool, last: nat)
      requires idx < |nodes| && n > 0
      requires KidsFrom(nodes, idx + 1, n, all, i)
      requires all.GotKids? ==> t.kids == all.terms && WellFormed(t)
      modifies this`out
      ensures !ok ==> all.KidsNeedMore?
      ensures ok ==> idx < last < |nodes| && KidsFrom(nodes, last + 1, n - 1, all, i + 1)
      ensures ok && all.GotKids? ==>
                && i < |t.kids|
                && old(out) + ItemsFrom(style, t, i) + Parens(i) == out + ItemsFrom(style, t, i + 1) + Parens(i + 1)
      decreases |nodes| - idx - 1, 3, 0
    {
      out := out + "kseq{}(";
      ghost var start := out;
      ok, last := PrintChild(KITEM, idx, all, i, n);
      if ok {
        ghost var item := out;
        out := out + ", ";
        if all.GotKids? {
          ItemsStep(style, t, i, old(out), start, item, out);
        }
      }
    }

    /** The last loop of KSequence::print. */
    method CloseParens(size: nat, ghost goal: string)
      requires goal == out + Parens(size)
      modifies this`out
      ensures out == goal
    {
      for i := 0 to size
        invariant goal == out + Parens(size - i)
      {
        Assoc(out, ")", Parens(size - i - 1));
        out := out + ")";
      }
      AppendNothing(out);
    }

    /** The KAST half of KSequence::print. */
    method PrintJoined(idx: nat) returns (ok: bool, last: nat)
      requires !style.kore && idx < |nodes| && nodes[idx].KSequence?
      requires Read(nodes, idx).Got? ==> WellFormed(Read(nodes, idx).term)
      modifies this`out
      ensures ok <==> Read(nodes, idx).Got?
      ensures ok ==> last + 1 == Read(nodes, idx).next
      ensures ok ==> out == old(out) + JoinedFrom(style, Read(nodes, idx).term, 0)
      decreases |nodes| - idx, 0, 1
    {
      if nodes[idx].size == 0 {
        out := out + ".K";
        return true, idx;
      }
      ok, last := PrintJoinedItems(idx);
    }

    method PrintJoinedItems(idx: nat) returns (ok: bool, last: nat)
      requires idx < |nodes| && nodes[idx].KSequence? && nodes[idx].size > 0
      requires Read(nodes, idx).Got? ==> WellFormed(Read(nodes, idx).term)
      modifies this`out
      ensures ok <==> Read(nodes, idx).Got?
      ensures ok ==> last + 1 == Read(nodes, idx).next
      ensures ok ==> out == old(out) + JoinedFrom(style, Read(nodes, idx).term, 0)
      decreases |nodes| - idx, 0, 0
    {
      var size := nodes[idx].size;
      ghost var all, t := NodeReading(nodes, idx);
      assert all.GotKids? ==> WellFormed(t);
      ghost var goal := if all.GotKids? then out + JoinedFrom(style, t, 0) else "";
      last := idx;
      for i := 0 to size
        invariant idx <= last < |nodes|
        invariant KidsFrom(nodes, last + 1, size - i, all, i)
        invariant all.GotKids? ==> goal == out + JoinedFrom(style, t, i)
      {
        ok, last := PrintJoinedItem(last, all, t, i, size - i);
        if !ok {
          return;
        }
      }
      AppendNothing(out);
      ok := true;
    }

    /** One item of a sequence, and the arrow to the next one: the i-th of all, with n still to come. */
    method PrintJoinedItem(idx: nat, ghost all: KidsReading, ghost t: Term, ghost i: nat, n: nat)
      returns (ok: bool, last: nat)
      requires idx < |nodes| && n > 0
      requires KidsFrom(nodes, idx + 1, n, all, i)
      requires all.GotKids? ==> t.kids == all.terms && WellFormed(t) && |t.kids| == i + n
      modifies this`out
      ensures !ok ==> all.KidsNeedMore?
      ensures ok ==> idx < last < |nodes| && KidsFrom(nodes, last + 1, n - 1, all, i + 1)
      ensures ok && all.GotKids? ==>
                i < |t.kids| && old(out) + JoinedFrom(style, t, i) == out + JoinedFrom(style, t, i + 1)
      decreases |nodes| - idx - 1, 3, 0
    {
      ok, last := PrintChild(KITEM, idx, all, i, n);
      if ok {
        ghost var item := out;
        if n != 1 {
          out := out + "~>";
        }
        if all.GotKids? {
          JoinedStep(style, t, i, old(out), item, out);
        }
      }
    }
  }

  lemma AppendNothing(a: string)
    ensures a + "" == a
  {
  }

  lemma ArgsStep(style: Style, t: Term, i: nat, before: string, comma: string, after: string)
    requires WellFormed(t) && t.node.KApply? && i < |t.kids|
    requires comma == if i > 0 then before + "," else before
    requires after == comma + Render(style, t.node.sig[i], t.kids[i])
    ensures before + ArgsFrom(style, t, i) == after + ArgsFrom(style, t, i + 1)
  {
    var sep := if i > 0 then "," else "";
    assert comma == before + sep;
    Prepend(before, sep, Render(style, t.node.sig[i], t.kids[i]), ArgsFrom(style, t, i + 1), "");
  }

  lemma ApplyText(style: Style, parent: Sort, t: Term, before: string, start: string, after: string)
    requires WellFormed(t) && t.node.KApply?
    requires start == before + Opening(style, t.node.sort, parent) + SymbolText(style, t.node)
    requires after == start + ArgsFrom(style, t, 0) + (")" + Closing(style, t.node.sort, parent))
    ensures after == before + Render(style, parent, t)
  {
    Prepend(before, Opening(style, t.node.sort, parent), SymbolText(style, t.node), ArgsFrom(style, t, 0),
             ")" + Closing(style, t.node.sort, parent));
  }

  lemma ItemsStep(style: Style, t: Term, i: nat, before: string, start: string, item: string, after: string)
    requires WellFormed(t) && i < |t.kids|
    requires start == before + "kseq{}(" && item == start + Render(style, KITEM, t.kids[i]) && after == item + ", "
    ensures before + ItemsFrom(style, t, i) + Parens(i) == after + ItemsFrom(style, t, i + 1) + Parens(i + 1)
  {
    var text, rest := Render(style, KITEM, t.kids[i]), ItemsFrom(style, t, i + 1);
    RegroupItem(before, "kseq{}(", text, ", ", rest, ")", Parens(i));
  }

  lemma JoinedStep(style: Style, t: Term, i: nat, before: string, item: string, after: string)
    requires WellFormed(t) && i < |t.kids|
    requires item == before + Render(style, KITEM, t.kids[i])
    requires after == if i + 1 < |t.kids| then item + "~>" else item
    ensures before + JoinedFrom(style, t, i) == after + JoinedFrom(style, t, i + 1)
  {
    var arrow := if i + 1 < |t.kids| then "~>" else "";
    assert after == item + arrow;
    Prepend(before, Render(style, KITEM, t.kids[i]), arrow, JoinedFrom(style, t, i + 1), "");
  }
}
