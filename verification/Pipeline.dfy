/** The front end as a whole, and the one place where its node counts depend on its input. */
module Pipeline {
  import opened Sequences
  import opened Wrappers
  import opened Sorts
  import opened Terms
  import opened Ast
  import opened Trees
  import opened Fitting
  import opened Fitness
  import opened Translation
  import opened Printer
  import opened Kore
  import opened KoreParser
  import V = Visitor
  import KastParser
  import TermReader
  import Reading
  import Kept
  import Whole

  // ----- How a function is closed -----

  lemma {:induction false} DeficitsConcat(a: seq<Term>, b: seq<Term>)
    ensures Deficits(a + b) == Deficits(a) + Deficits(b)
  {
    hide TypeTerm, KindTerm, StmtTerm, DeclTerm, TypeOk, KindOk, StmtOk, DeclKindOk;
    if a == [] {
      assert a + b == b;
    } else {
      assert (a + b)[0] == a[0] && (a + b)[1..] == a[1..] + b;
      DeficitsConcat(a[1..], b);
    }
  }

  lemma DeficitsSingle(t: Term)
    ensures Deficits([t]) == Deficit(t)
  {
    hide TypeTerm, KindTerm, StmtTerm, DeclTerm, TypeOk, KindOk, StmtOk, DeclKindOk;
    assert [t][1..] == [];
  }

  lemma {:induction false} DeficitUnderLayers(layers: seq<Layer>, t: Term)
    requires LayersFit(false, layers)
    ensures Deficit(Wrap(layers, t)) == Deficit(t)
    decreases layers
  {
    hide TypeTerm, KindTerm, StmtTerm, DeclTerm, TypeOk, KindOk, StmtOk, DeclKindOk;
    if layers != [] {
      var first, inner := layers[0], Wrap(layers[1..], t);
      LayersFitSplit(false, layers);
      DeficitUnderLayers(layers[1..], t);
      forall i | 0 <= i < |first.before| ensures WellFormed(first.before[i]) {
        FitIsWellFormed(false, first.node.sig[i], first.before[i]);
      }
      AllWellFormedHaveNoDeficit(first.before);
      DeficitsConcat(first.before, [inner]);
      DeficitsSingle(inner);
    }
  }

  lemma FittingKidsHaveNoDeficit(sig: seq<Sort>, kids: seq<Term>)
    requires AllFit(false, sig, kids)
    ensures Deficits(kids) == 0
  {
    hide TypeTerm, KindTerm, StmtTerm, DeclTerm, TypeOk, KindOk, StmtOk, DeclKindOk;
    forall i | 0 <= i < |kids| ensures WellFormed(kids[i]) {
      FitIsWellFormed(false, sig[i], kids[i]);
    }
    AllWellFormedHaveNoDeficit(kids);
  }

  lemma ClosingHasNoDeficit(u: Unit, f: FunctionDecl)
    requires f.isDefinition ==> MaybeStmtOk(false, f.body)
    ensures |ClosingTerms(u, f)| == Closings(f) && Deficits(ClosingTerms(u, f)) == 0
  {
    hide StmtTerm, StmtOk;
    var closing := ClosingTerms(u, f);
    if f.isDefinition && f.body.Some? {
      StmtFits(false, STMT, u, f.body.value);
      FitIsWellFormed(false, STMT, StmtTerm(u, f.body.value));
    }
    assert forall i :: 0 <= i < |closing| ==> WellFormed(closing[i]);
    AllWellFormedHaveNoDeficit(closing);
  }

  lemma EndDeficit(u: Unit, f: FunctionDecl)
    requires FunctionPartsOk(false, f)
    ensures |EndTerms(u, f)| - Deficits(EndTerms(u, f)) == Closings(f)
  {
    hide TypeTerm, KindTerm, StmtTerm, DeclTerm, TypeOk, KindOk, StmtOk, DeclKindOk;
    ClosingHasNoDeficit(u, f);
    if f.isDefinition && f.role.Constructor? {
      var inits, closing := ListOf(CountWritten(f.role.inits), InitTerms(u, f.role.inits)), ClosingTerms(u, f);
      InitsFit(false, u, f.role.inits);
      FitList(false, LIST, CountWritten(f.role.inits), InitTerms(u, f.role.inits));
      FitIsWellFormed(false, LIST, inits);
      WellFormedHasNoDeficit(inits);
      DeficitsConcat([inits], closing);
      DeficitsSingle(inits);
      DeficitsSingle(EndTerms(u, f)[0]);
    }
  }

  /** The nodes of a function ask for as many children as they have, but for one closing statement
      that the definition form has room for. */
  lemma FunctionDeficit(u: Unit, f: FunctionDecl)
    requires FunctionPartsOk(false, f)
    ensures Deficit(FunctionTerm(u, f)) == (if IsDefinitionForm(f) then 1 else 0) - Closings(f)
  {
    hide TypeTerm, KindTerm, StmtTerm, DeclTerm, TypeOk, KindOk, StmtOk, DeclKindOk;
    var head, end := HeadTerms(u, f), EndTerms(u, f);
    FunctionLayersFit(false, u, f);
    DeficitUnderLayers(FunctionLayers(u, f), Term(FunctionNode(f), head + end));
    HeadFits(false, u, f);
    FittingKidsHaveNoDeficit([NNS, CID, CID, ATYPE, LIST], head);
    EndDeficit(u, f);
    DeficitsConcat(head, end);
  }

  /** Whatever the wrappers around it, a function whose parts are in order leaves the word of exactly
      one term if and only if the statements that close it number one in the definition form and
      none in the declaration form. */
  lemma FunctionIsOneTerm(u: Unit, f: FunctionDecl)
    requires FunctionPartsOk(false, f)
    ensures IsOneTerm(Word(FunctionTerm(u, f))) <==> Closed(f)
  {
    hide TypeTerm, KindTerm, StmtTerm, DeclTerm, TypeOk, KindOk, StmtOk, DeclKindOk;
    var t := FunctionTerm(u, f);
    FunctionDeficit(u, f);
    if Closed(f) {
      FunctionFits(false, DECL, u, f);
      FitIsWellFormed(false, DECL, t);
    } else if IsOneTerm(Word(t)) {
      OneTermHasNoDeficit(t);
    }
  }

  /** A constructor that is declared as defaulted, and for which a body has been made. */
  function DefaultedWithBody(): FunctionDecl {
    var class_ := QualType(false, false, false, TagType(Ident(Some("C"), 0)));
    var this_ := QualType(false, false, false, Pointer(class_));
    var void := QualType(false, false, false, Builtin("Void"));
    FunctionDecl(None, NoStorage, false, false, true, true, false, Unqualified, TypeName(class_), "C",
                 InstanceMethod(NoRef, false, this_, false, false), Constructor(false, []),
                 QualType(false, false, false, Prototype(void, [], NoSpec, false)), [], Some(Compound([])))
  }

  lemma TagIsOk(q: QualType)
    requires q.ty.TagType? && q.ty.tagName.Ident?
    ensures QualOk(false, q)
  {
    assert NameOk(false, q.ty.tagName);
  }

  lemma PrototypeIsOk(q: QualType)
    requires q.ty.Prototype? && q.ty.ret.ty.Builtin? && q.ty.params == [] && q.ty.exceptions.NoSpec?
    ensures QualOk(false, q)
  {
    assert QualOk(false, q.ty.ret) && QualsOk(false, q.ty.params) && ExceptionsOk(false, q.ty.exceptions);
  }

  lemma DefaultedWithBodyHasItsParts()
    ensures FunctionPartsOk(false, DefaultedWithBody())
  {
    var f := DefaultedWithBody();
    TagIsOk(f.name.ty);
    assert NameOk(false, f.name);
    assert QualOk(false, f.method_.thisType);
    PrototypeIsOk(f.ty);
    assert StmtOk(false, f.body.value);
  }

  /** It is closed twice, so the nodes after it are read as if they belonged to its surroundings. */
  lemma DefaultedWithBodyIsNotOneTerm(u: Unit)
    ensures !IsOneTerm(Word(FunctionTerm(u, DefaultedWithBody())))
  {
    hide TypeTerm, KindTerm, StmtTerm, DeclTerm, TypeOk, KindOk, StmtOk, DeclKindOk;
    DefaultedWithBodyHasItsParts();
    FunctionIsOneTerm(u, DefaultedWithBody());
  }

  // ----- From a syntax tree to text -----

  /** The term of a declaration. An excluded one has none, which an empty sequence stands for. */
  ghost function TermOf(u: Unit, d: Decl): Term {
    if Excluded(d) then Term(KSequence(0), []) else DeclTerms(u, d)[0]
  }

  lemma TermOfIsWellFormed(u: Unit, d: Decl)
    requires !Excluded(d)
    ensures WellFormed(TermOf(u, d)) <==> DeclOk(false, d)
  {
    hide TypeTerm, KindTerm, StmtTerm, DeclTerm, TypeOk, KindOk, StmtOk, DeclKindOk;
    DeclFits(false, K, u, d);
    UnsortedFitIsWellFormed(K, TermOf(u, d));
  }

  /** In KORE, what is printed for a whole tree is well sorted at K exactly when the tree has no
      default argument where an item is asked for. */
  lemma TextIsSorted(u: Unit, d: Decl)
    requires !Excluded(d) && DeclOk(false, d)
    ensures WellFormed(TermOf(u, d))
    ensures PatternSort(ToPattern(K, TermOf(u, d))) == Some(K) <==> DeclOk(true, d)
  {
    hide TypeTerm, KindTerm, StmtTerm, DeclTerm, TypeOk, KindOk, StmtOk, DeclKindOk;
    TermOfIsWellFormed(u, d);
    PrintedSort(K, TermOf(u, d));
    DeclFits(true, K, u, d);
  }

  /** A call that leaves out an argument which has a default. */
  predicate UsesDefault(e: Expr) {
    e.Expr? && e.kind.Call? && DefaultArg in e.kind.args
  }

  /** The text of a variable initialized by such a call is ill sorted. */
  lemma DefaultArgumentIsIllSorted(u: Unit, d: Decl)
    requires !Excluded(d) && DeclOk(false, d) && d.kind.Var? && d.kind.v.init.Some? && UsesDefault(d.kind.v.init.value)
    ensures WellFormed(TermOf(u, d)) && PatternSort(ToPattern(K, TermOf(u, d))) != Some(K)
  {
    hide TypeTerm, KindTerm, StmtTerm, DeclTerm, TypeOk, KindOk, StmtOk, DeclKindOk;
    TextIsSorted(u, d);
    DefaultIsNotOk(d.kind.v);
  }

  lemma DefaultIsNotOk(v: VarDecl)
    requires v.init.Some? && UsesDefault(v.init.value)
    ensures !DeclKindOk(true, Var(v))
  {
    DefaultIsNotListed(v.init.value.kind.args);
    assert !KindOk(true, v.init.value.kind);
    assert !ExprOk(true, v.init.value);
    assert !MaybeExprOk(true, v.init);
  }

  lemma DefaultIsNotListed(es: seq<Expr>)
    requires DefaultArg in es
    ensures !ExprsOk(true, es)
  {
    var i :| 0 <= i < |es| && es[i] == DefaultArg;
    assert !ExprOk(true, es[i]);
  }

  /** The nodes that a declaration leaves in the vector. */
  ghost function Vector(u: Unit, d: Decl): seq<Node> {
    Words(DeclTerms(u, d))
  }

  lemma VectorOfPresent(u: Unit, d: Decl)
    requires !Excluded(d)
    ensures Vector(u, d) == Word(TermOf(u, d))
  {
    hide TypeTerm, KindTerm, StmtTerm, DeclTerm, TypeOk, KindOk, StmtOk, DeclKindOk;
    WordsSingle(TermOf(u, d));
  }

  /** The walk of the vector takes all of it, as this term. */
  ghost predicate IsAllOf(v: seq<Node>, t: Term) {
    Read(v, 0) == Got(t, |v|)
  }

  /** The walk of the vector takes all of it, as the very term of the tree, if and only if the counts
      of the visitor come out right for the tree. */
  lemma VectorIsItsTerm(u: Unit, d: Decl)
    requires !Excluded(d)
    ensures IsAllOf(Vector(u, d), TermOf(u, d)) <==> DeclOk(false, d)
  {
    hide TypeTerm, KindTerm, StmtTerm, DeclTerm, TypeOk, KindOk, StmtOk, DeclKindOk;
    var v, t := Vector(u, d), TermOf(u, d);
    VectorOfPresent(u, d);
    TermOfIsWellFormed(u, d);
    if DeclOk(false, d) {
      assert StandsAt(v, 0, Word(t)) by {
        assert v[0..|Word(t)|] == Word(t);
      }
      ReadIsComplete(v, 0, t);
    }
    if Read(v, 0) == Got(t, |v|) {
      ReadIsSound(v, 0);
    }
  }

  /** Read by its labels and positions, the term of a tree gives back all of the tree that it keeps. */
  lemma TreeIsRead(u: Unit, d: Decl)
    requires !Excluded(d) && DeclOk(false, d)
    ensures TermReader.ReadTerm(u, TermOf(u, d)) == TermReader.ADecl(Kept.KeptDecl(d))
  {
    hide TermReader.ReadTerm, Kept.KeptDecl, DeclTerm, DeclKindOk;
    Reading.DeclIsRead(u, d);
  }

  /** A tree without any part that the front end drops is given back as it is. */
  lemma WholeTreeIsRead(u: Unit, d: Decl)
    requires Whole.WholeDecl(d) && DeclOk(false, d)
    ensures TermReader.ReadTerm(u, TermOf(u, d)) == TermReader.ADecl(d)
  {
    hide TermReader.ReadTerm, DeclTerms, DeclOk;
    assert !Excluded(d) && Kept.KeptDecl(d) == d by {
      Whole.DeclStays(d);
    }
    TreeIsRead(u, d);
  }

  /** Trees that have the same term differ in nothing but what the front end drops. */
  lemma SameTermSameTree(u: Unit, d: Decl, e: Decl)
    requires !Excluded(d) && DeclOk(false, d) && !Excluded(e) && DeclOk(false, e)
    requires TermOf(u, d) == TermOf(u, e)
    ensures Kept.KeptDecl(d) == Kept.KeptDecl(e)
  {
    hide TermReader.ReadTerm, Kept.KeptDecl, DeclTerms, DeclOk;
    TreeIsRead(u, d);
    TreeIsRead(u, e);
  }

  // ----- Faults can cancel -----

  /** A child too many comes after the word of the rest. */
  lemma Spills(node: Node, kids: seq<Term>, x: Term)
    ensures Word(Term(node, kids + [x])) == Word(Term(node, kids)) + Word(x)
  {
    hide TypeTerm, KindTerm, StmtTerm, DeclTerm, TypeOk, KindOk, StmtOk, DeclKindOk;
    WordsConcat(kids, [x]);
    WordsSingle(x);
    Assoc([node], Words(kids), Word(x));
  }

  lemma SpillsThrough(node: Node, kids: seq<Term>, t: Term, rest: Term, x: Term)
    requires Word(t) == Word(rest) + Word(x)
    ensures Word(Term(node, kids + [t])) == Word(Term(node, kids + [rest])) + Word(x)
  {
    hide TypeTerm, KindTerm, StmtTerm, DeclTerm, TypeOk, KindOk, StmtOk, DeclKindOk;
    Spills(node, kids, t);
    Spills(node, kids, rest);
    Assoc(Word(Term(node, kids)), Word(rest), Word(x));
  }

  lemma {:induction false} SpillsThroughLayers(layers: seq<Layer>, t: Term, rest: Term, x: Term)
    requires Word(t) == Word(rest) + Word(x)
    ensures Word(Wrap(layers, t)) == Word(Wrap(layers, rest)) + Word(x)
    decreases layers
  {
    hide TypeTerm, KindTerm, StmtTerm, DeclTerm, TypeOk, KindOk, StmtOk, DeclKindOk;
    if layers != [] {
      SpillsThroughLayers(layers[1..], t, rest, x);
      SpillsThrough(layers[0].node, layers[0].before, Wrap(layers[1..], t), Wrap(layers[1..], rest), x);
    }
  }

  /** The end of a defaulted constructor with a body, and of the same without the mark. */
  lemma EndOfDefaulted(u: Unit, f: FunctionDecl) returns (node: Node, before: seq<Term>)
    requires ClosedTwice(f)
    ensures EndTerms(u, f) == [Term(node, before + [Leaf("Defaulted", STMT)])]
    ensures EndTerms(u, f.(isDefaulted := false)) == [Term(node, before)]
  {
    hide TypeTerm, KindTerm, StmtTerm, DeclTerm, TypeOk, KindOk, StmtOk, DeclKindOk;
    var list, body := ListOf(CountWritten(f.role.inits), InitTerms(u, f.role.inits)), StmtTerm(u, f.body.value);
    node, before := KApply("Constructor", STMT, [LIST, STMT]), [list, body];
    assert [list] + ([body] + [Leaf("Defaulted", STMT)]) == before + [Leaf("Defaulted", STMT)];
    assert [list] + ([body] + []) == before;
  }

  lemma UnmarkedIsTheSame(u: Unit, f: FunctionDecl)
    requires f.isDefinition
    ensures var g := f.(isDefaulted := false);
            HeadTerms(u, f) == HeadTerms(u, g) && FunctionLayers(u, f) == FunctionLayers(u, g) && FunctionNode(f) == FunctionNode(g)
  {
    hide TypeTerm, KindTerm, StmtTerm, DeclTerm, TypeOk, KindOk, StmtOk, DeclKindOk;
    assert MethodLayers(u, f) == MethodLayers(u, f.(isDefaulted := false));
  }

  /** Such a constructor leaves the nodes of the one that is not defaulted, and then the mark. */
  lemma MarkSpills(u: Unit, f: FunctionDecl)
    requires ClosedTwice(f)
    ensures Word(FunctionTerm(u, f)) == Word(FunctionTerm(u, f.(isDefaulted := false))) + Word(Leaf("Defaulted", STMT))
  {
    hide TypeTerm, KindTerm, StmtTerm, DeclTerm, TypeOk, KindOk, StmtOk, DeclKindOk;
    var g, mark := f.(isDefaulted := false), Leaf("Defaulted", STMT);
    var node, before := EndOfDefaulted(u, f);
    UnmarkedIsTheSame(u, f);
    Spills(node, before, mark);
    SpillsThrough(FunctionNode(f), HeadTerms(u, f), Term(node, before + [mark]), Term(node, before), mark);
    SpillsThroughLayers(FunctionLayers(u, f), Term(FunctionNode(f), HeadTerms(u, f) + EndTerms(u, f)),
                        Term(FunctionNode(g), HeadTerms(u, g) + EndTerms(u, g)), mark);
  }

  function At(k: DeclKind): Decl {
    Decl(false, false, UnknownLoc, k)
  }

  function LocLayer(u: Unit): Layer {
    LayerOf("DeclLoc", DECL, [CABSLOC, DECL], [LocTerm(u, UnknownLoc)])
  }

  lemma LocLayerFits(u: Unit)
    ensures LayerFits(false, LocLayer(u))
  {
    LocFits(false, CABSLOC, u, UnknownLoc);
  }

  lemma WrapOne(layer: Layer, t: Term)
    ensures Wrap([layer], t) == Term(layer.node, layer.before + [t])
  {
    hide TypeTerm, KindTerm, StmtTerm, DeclTerm, TypeOk, KindOk, StmtOk, DeclKindOk;
    assert [layer][1..] == [];
  }

  lemma MarkSpillsFromDecl(u: Unit, f: FunctionDecl)
    requires ClosedTwice(f)
    ensures Word(TermOf(u, At(Function(f))))
         == Word(TermOf(u, At(Function(f.(isDefaulted := false))))) + Word(Leaf("Defaulted", STMT))
  {
    var g := f.(isDefaulted := false);
    MarkSpills(u, f);
    SpillsThroughLayers([LocLayer(u)], FunctionTerm(u, f), FunctionTerm(u, g), Leaf("Defaulted", STMT));
    assert DeclTerm(u, Function(f)) == FunctionTerm(u, f) && DeclTerm(u, Function(g)) == FunctionTerm(u, g);
  }

  lemma WordsOf2(a: Term, b: Term)
    ensures Words([a, b]) == Word(a) + Word(b)
  {
    hide TypeTerm, KindTerm, StmtTerm, DeclTerm, TypeOk, KindOk, StmtOk, DeclKindOk;
    WordsConcat([a], [b]);
    WordsSingle(a);
    WordsSingle(b);
    assert [a] + [b] == [a, b];
  }

  lemma PartsIgnoreMark(f: FunctionDecl)
    requires FunctionPartsOk(false, f)
    ensures FunctionPartsOk(false, f.(isDefaulted := false))
  {
  }

  lemma UnmarkedIsWellFormed(u: Unit, f: FunctionDecl)
    requires f.isDefinition && f.body.Some? && !f.isDeleted && FunctionPartsOk(false, f)
    ensures WellFormed(TermOf(u, At(Function(f.(isDefaulted := false)))))
  {
    hide TypeTerm, KindTerm, StmtTerm, DeclTerm, TypeOk, KindOk, StmtOk;
    PartsIgnoreMark(f);
    assert FunctionOk(false, f.(isDefaulted := false));
    TermOfIsWellFormed(u, At(Function(f.(isDefaulted := false))));
  }

  /** A definition that gets no statement to close it, such as an alias of another function. */
  predicate LacksBody(f: FunctionDecl) {
    f.isDefinition && f.body.None? && !f.isDefaulted && !f.isDeleted && !f.role.Constructor?
  }

  /** A constructor that gets two: a body, and the mark that it is defaulted. */
  predicate ClosedTwice(f: FunctionDecl) {
    f.isDefinition && f.role.Constructor? && f.body.Some? && f.isDefaulted && !f.isDeleted
  }

  /** A function that is another name for one that is defined elsewhere. */
  function Alias(): FunctionDecl {
    var void := QualType(false, false, false, Builtin("Void"));
    FunctionDecl(None, NoStorage, false, false, true, false, false, Unqualified, Ident(Some("f"), 0), "f",
                 NotMethod, Ordinary, QualType(false, false, false, Prototype(void, [], NoSpec, false)), [], None)
  }

  lemma AliasHasItsParts()
    ensures LacksBody(Alias()) && FunctionPartsOk(false, Alias())
  {
    PrototypeIsOk(Alias().ty);
  }

  lemma LackingTerm(u: Unit, f: FunctionDecl)
    requires LacksBody(f)
    ensures FunctionTerm(u, f) == Wrap(FunctionLayers(u, f), Term(FunctionNode(f), HeadTerms(u, f)))
  {
    hide TypeTerm, KindTerm, StmtTerm, DeclTerm, TypeOk, KindOk, StmtOk, DeclKindOk;
    assert EndTerms(u, f) == [];
    assert HeadTerms(u, f) + [] == HeadTerms(u, f);
  }

  lemma {:induction false} FilledFits(u: Unit, f: FunctionDecl, x: Term)
    requires LacksBody(f) && AllFit(false, [NNS, CID, CID, ATYPE, LIST], HeadTerms(u, f)) && WellFormed(x)
    ensures WellFormed(Term(FunctionNode(f), HeadTerms(u, f) + [x]))
  {
    hide HeadTerms;
    UnsortedFitIsWellFormed(ASTMT, x);
    FitDefinition(false, DECL, HeadTerms(u, f), [x]);
    UnsortedFitIsWellFormed(DECL, Term(FunctionNode(f), HeadTerms(u, f) + [x]));
  }

  /** Such a definition takes whatever term comes next for its body. */
  lemma TakesNext(u: Unit, f: FunctionDecl, x: Term) returns (t: Term)
    requires LacksBody(f) && FunctionPartsOk(false, f) && WellFormed(x)
    ensures t.node.KApply? && WellFormed(t) && Word(t) == Word(FunctionTerm(u, f)) + Word(x)
  {
    hide TypeTerm, KindTerm, StmtTerm, DeclTerm, TypeOk, KindOk, StmtOk, DeclKindOk;
    var node, head, layers := FunctionNode(f), HeadTerms(u, f), FunctionLayers(u, f);
    var filled := Term(node, head + [x]);
    t := Wrap(layers, filled);
    LackingTerm(u, f);
    Spills(node, head, x);
    SpillsThroughLayers(layers, filled, Term(node, head), x);
    FunctionLayersFit(false, u, f);
    HeadFits(false, u, f);
    FilledFits(u, f, x);
    UnsortedFitIsWellFormed(DECL, filled);
    FitWrapped(false, DECL, layers, filled);
    FitIsWellFormed(false, DECL, t);
  }

  lemma DeclTakesNext(u: Unit, f: FunctionDecl, x: Term) returns (t: Term)
    requires LacksBody(f) && FunctionPartsOk(false, f) && WellFormed(x)
    ensures WellFormed(t) && Word(t) == Word(TermOf(u, At(Function(f)))) + Word(x)
  {
    hide TypeTerm, KindTerm, StmtTerm, TypeOk, KindOk, StmtOk, DeclKindOk;
    var inner := TakesNext(u, f, x);
    t := Wrap([LocLayer(u)], inner);
    SpillsThroughLayers([LocLayer(u)], inner, FunctionTerm(u, f), x);
    LocLayerFits(u);
    UnsortedFitIsWellFormed(DECL, inner);
    FitWrapped(false, DECL, [LocLayer(u)], inner);
    FitIsWellFormed(false, DECL, t);
    assert DeclTerm(u, Function(f)) == FunctionTerm(u, f);
  }

  /** Side by side, the first takes the second for its body, and the mark of the second is left over
      as the second item: two terms, as many as were counted. */
  lemma TwoItems(u: Unit, f: FunctionDecl, c: FunctionDecl) returns (a: Term, b: Term)
    requires LacksBody(f) && FunctionPartsOk(false, f) && ClosedTwice(c) && FunctionPartsOk(false, c)
    ensures WellFormed(a) && WellFormed(b)
    ensures Words([TermOf(u, At(Function(f))), TermOf(u, At(Function(c)))]) == Words([a, b])
  {
    hide TypeTerm, KindTerm, StmtTerm, DeclTerm, TypeOk, KindOk, StmtOk, DeclKindOk;
    var unmarked := TermOf(u, At(Function(c.(isDefaulted := false))));
    b := Leaf("Defaulted", STMT);
    MarkSpillsFromDecl(u, c);
    UnmarkedIsWellFormed(u, c);
    a := DeclTakesNext(u, f, unmarked);
    WordsOf2(TermOf(u, At(Function(f))), TermOf(u, At(Function(c))));
    WordsOf2(a, b);
    Assoc(Word(TermOf(u, At(Function(f)))), Word(unmarked), Word(b));
  }

  function UnitLayer(u: Unit): Layer {
    LayerOf("TranslationUnit", DECL, [STRING, LIST], [StringToken(u, u.inFile)])
  }

  lemma UnitLayersFit(u: Unit)
    ensures LayersFit(false, [LocLayer(u), UnitLayer(u)])
  {
    LocLayerFits(u);
    TokensFit(false, u, true, 0, u.inFile);
  }

  lemma TwoDeclTerms(u: Unit, a: Decl, b: Decl)
    requires !Excluded(a) && !Excluded(b)
    ensures AllDeclTerms(u, [a, b]) == [TermOf(u, a), TermOf(u, b)] && CountIncluded([a, b]) == 2
  {
    hide TypeTerm, KindTerm, StmtTerm, DeclTerm, TypeOk, KindOk, StmtOk, DeclKindOk;
    assert [a, b][1..] == [b] && [b][1..] == [];
    assert AllDeclTerms(u, [b]) == [TermOf(u, b)] + [];
    assert CountIncluded([b]) == 1;
  }

  lemma UnitTerm(u: Unit, a: Decl, b: Decl)
    requires !Excluded(a) && !Excluded(b)
    ensures DeclTerm(u, TranslationUnit([a, b])) == Wrap([UnitLayer(u)], ListOf(2, [TermOf(u, a), TermOf(u, b)]))
  {
    TwoDeclTerms(u, a, b);
    var file, list := StringToken(u, u.inFile), ListOf(2, [TermOf(u, a), TermOf(u, b)]);
    assert ContextTerm(u, [a, b]) == list;
    WrapOne(UnitLayer(u), list);
    assert [file] + [list] == [file, list];
  }

  lemma TermOfUnit(u: Unit, a: Decl, b: Decl)
    requires !Excluded(a) && !Excluded(b)
    ensures TermOf(u, At(TranslationUnit([a, b])))
         == Wrap([LocLayer(u), UnitLayer(u)], ListOf(2, [TermOf(u, a), TermOf(u, b)]))
  {
    var list := ListOf(2, [TermOf(u, a), TermOf(u, b)]);
    UnitTerm(u, a, b);
    WrapOne(LocLayer(u), Wrap([UnitLayer(u)], list));
    WrapTwo(LocLayer(u), UnitLayer(u), list);
  }

  lemma WrapTwo(outer: Layer, inner: Layer, t: Term)
    ensures Wrap([outer, inner], t) == Term(outer.node, outer.before + [Wrap([inner], t)])
  {
    hide TypeTerm, KindTerm, StmtTerm, DeclTerm, TypeOk, KindOk, StmtOk, DeclKindOk;
    assert [outer, inner][1..] == [inner];
  }

  lemma {:induction false} SameUnderLayers(layers: seq<Layer>, t: Term, other: Term)
    requires Word(t) == Word(other)
    ensures Word(Wrap(layers, t)) == Word(Wrap(layers, other))
    decreases layers
  {
    hide TypeTerm, KindTerm, StmtTerm, DeclTerm, TypeOk, KindOk, StmtOk, DeclKindOk;
    if layers != [] {
      SameUnderLayers(layers[1..], t, other);
      Spills(layers[0].node, layers[0].before, Wrap(layers[1..], t));
      Spills(layers[0].node, layers[0].before, Wrap(layers[1..], other));
    }
  }

  lemma SameList(size: nat, xs: seq<Term>, ys: seq<Term>)
    requires Words(xs) == Words(ys)
    ensures Word(ListOf(size, xs)) == Word(ListOf(size, ys))
  {
    hide TypeTerm, KindTerm, StmtTerm, DeclTerm, TypeOk, KindOk, StmtOk, DeclKindOk;
    WordsSingle(Term(KSequence(size), xs));
    WordsSingle(Term(KSequence(size), ys));
  }

  lemma ListOfTwo(layers: seq<Layer>, a: Term, b: Term)
    requires LayersFit(false, layers) && WellFormed(a) && WellFormed(b)
    ensures WellFormed(Wrap(layers, ListOf(2, [a, b])))
  {
    hide TypeTerm, KindTerm, StmtTerm, DeclTerm, TypeOk, KindOk, StmtOk, DeclKindOk;
    UnsortedFitIsWellFormed(KITEM, a);
    UnsortedFitIsWellFormed(KITEM, b);
    FitList(false, LIST, 2, [a, b]);
    FitWrapped(false, LIST, layers, ListOf(2, [a, b]));
    FitIsWellFormed(false, LIST, Wrap(layers, ListOf(2, [a, b])));
  }

  lemma LackingIsNotOk(f: FunctionDecl, d: Decl)
    requires LacksBody(f)
    ensures !DeclOk(false, At(TranslationUnit([At(Function(f)), d])))
  {
    var ds := [At(Function(f)), d];
    assert !FunctionOk(false, f);
    assert !DeclKindOk(false, Function(f));
    assert !DeclOk(false, ds[0]) && !Excluded(ds[0]);
    assert !ContextOk(false, ds);
  }

  /** A definition without a body, followed by a defaulted constructor for which a body has been made:
      the two faults cancel. The vector of the translation unit is the word of one term, though not of
      the term of the tree, so that a vector which is one term does not show that the counts came out
      right. */
  lemma FaultsCancel(u: Unit, f: FunctionDecl, c: FunctionDecl)
    requires LacksBody(f) && FunctionPartsOk(false, f) && ClosedTwice(c) && FunctionPartsOk(false, c)
    ensures var d := At(TranslationUnit([At(Function(f)), At(Function(c))]));
            !DeclOk(false, d) && IsOneTerm(Word(TermOf(u, d)))
  {
    hide TypeTerm, KindTerm, StmtTerm, DeclTerm, TypeOk, KindOk, StmtOk, DeclKindOk;
    var x, y := TermOf(u, At(Function(f))), TermOf(u, At(Function(c)));
    var layers := [LocLayer(u), UnitLayer(u)];
    LackingIsNotOk(f, At(Function(c)));
    var a, b := TwoItems(u, f, c);
    TermOfUnit(u, At(Function(f)), At(Function(c)));
    SameList(2, [x, y], [a, b]);
    SameUnderLayers(layers, ListOf(2, [x, y]), ListOf(2, [a, b]));
    UnitLayersFit(u);
    ListOfTwo(layers, a, b);
  }

  // ----- The front end -----

  /** What a vector is printed as: the text of the term at its front, if there is one. The text reads back
      to the term, up to how KORE and KAST write it; in KAST if and only if no label has a back quote. */
  ghost predicate Prints(kore: bool, v: seq<Node>, ok: bool, last: nat, text: string) {
    match Read(v, 0)
    case NeedsMore => !ok
    case Got(t, next) =>
      && ok && last + 1 == next && WellFormed(t) && text == Render(FrontEnd(kore), K, t) + "\n"
      && (if kore then Parse(FrontEndReader(), text) == Took(ShapeOf(K, t), "\n")
          else KastParser.ParseKast(SortOf, text) == Took(KastParser.ItemsOf(t), "\n") <==> KastParser.HasPlainLabels(t))
  }

  /** Kast::print, and the end of the line. */
  method PrintVector(kast: Kast, kore: bool) returns (ok: bool, last: nat, text: string)
    requires kast.style == FrontEnd(kore) && kast.out == ""
    modifies kast`out
    ensures Prints(kore, kast.nodes, ok, last, text)
  {
    ok, last := kast.Print(K, 0);
    text := kast.out + "\n";
    if ok {
      ghost var t := Read(kast.nodes, 0).term;
      assert "" + Render(FrontEnd(kore), K, t) == Render(FrontEnd(kore), K, t);
      if kore {
        PrintedTermsParse(K, t, "\n");
      } else {
        KastParser.PrintedTermsParse(K, t, "\n");
      }
    }
  }

  /** The front end: the visitor fills the vector, and the printer reads a term back from it and prints
      its text, which parses back to that term. The whole vector is printed, as the term of the tree,
      exactly when the counts of the visitor come out right for the tree; and from that term, labels and
      positions alone give back the tree, but for what the front end drops. */
  method Translate(u: Unit, d: Decl) returns (ok: bool, last: nat, text: string)
    ensures Prints(u.kore, Vector(u, d), ok, last, text)
    ensures Excluded(d) ==> !ok
    ensures !Excluded(d) ==> (DeclOk(false, d) <==> IsAllOf(Vector(u, d), TermOf(u, d)))
    ensures !Excluded(d) && DeclOk(false, d) ==>
              TermReader.ReadTerm(u, TermOf(u, d)) == TermReader.ADecl(Kept.KeptDecl(d))
  {
    hide TermReader.ReadTerm, Kept.KeptDecl, DeclTerms, DeclOk, Prints;
    var kast := new Kast(FrontEnd(u.kore));
    var visitor := new V.GetKastVisitor(kast, u);
    visitor.TraverseDecl(d);
    assert kast.nodes == Vector(u, d) by {
      assert [] + Vector(u, d) == Vector(u, d);
    }
    ok, last, text := PrintVector(kast, u.kore);
    if Excluded(d) {
      NothingIsPrinted(u, d, ok, last, text);
    } else {
      VectorIsItsTerm(u, d);
      if DeclOk(false, d) {
        TreeIsRead(u, d);
      }
    }
  }

  lemma NothingIsPrinted(u: Unit, d: Decl, ok: bool, last: nat, text: string)
    requires Excluded(d) && Prints(u.kore, Vector(u, d), ok, last, text)
    ensures !ok
  {
    hide DeclTerm, Render, Parse, KastParser.ParseKast;
  }
}
