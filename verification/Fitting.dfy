/** Fitting terms together: when a term built from others fits, in terms of its parts. */
module Fitting {
  import opened Sorts
  import opened Terms
  import opened Trees
  import opened Wrappers
  import opened Tokens
  import opened Ast

  ghost predicate AllFit(sorted: bool, sig: seq<Sort>, kids: seq<Term>) {
    |sig| == |kids| && forall i :: 0 <= i < |kids| ==> Fits(sorted, sig[i], kids[i])
  }

  ghost predicate ItemsFit(sorted: bool, items: seq<Term>) {
    forall i :: 0 <= i < |items| ==> Fits(sorted, KITEM, items[i])
  }

  /** An application fits anywhere as soon as its arguments fit. */
  lemma FitApply(sorted: bool, slot: Sort, klabel: string, sort: Sort, sig: seq<Sort>, kids: seq<Term>)
    ensures Fits(sorted, slot, Apply(klabel, sort, sig, kids)) <==> AllFit(sorted, sig, kids)
  {
    var node := KApply(klabel, sort, sig);
    assert forall i :: 0 <= i < |sig| ==> SlotSort(node, i) == sig[i];
  }

  lemma SlotIsFree(sorted: bool, slot: Sort, other: Sort, t: Term)
    requires t.node.KApply?
    ensures Fits(sorted, slot, t) <==> Fits(sorted, other, t)
  {
  }

  lemma Fit1(sorted: bool, slot: Sort, klabel: string, sort: Sort, s0: Sort, k0: Term)
    ensures Fits(sorted, slot, Apply(klabel, sort, [s0], [k0])) <==> Fits(sorted, s0, k0)
  {
    FitApply(sorted, slot, klabel, sort, [s0], [k0]);
    assert [k0][0] == k0 && [s0][0] == s0;
  }

  lemma AllFitSnoc(sorted: bool, sig: seq<Sort>, kids: seq<Term>, s: Sort, k: Term)
    requires |sig| == |kids|
    ensures AllFit(sorted, sig + [s], kids + [k]) <==> AllFit(sorted, sig, kids) && Fits(sorted, s, k)
  {
    var ss, ks := sig + [s], kids + [k];
    if AllFit(sorted, ss, ks) {
      assert ss[|sig|] == s && ks[|kids|] == k;
      forall i | 0 <= i < |kids| ensures Fits(sorted, sig[i], kids[i]) {
        assert ss[i] == sig[i] && ks[i] == kids[i];
      }
    }
  }

  lemma AllFit2(sorted: bool, s0: Sort, s1: Sort, k0: Term, k1: Term)
    ensures AllFit(sorted, [s0, s1], [k0, k1]) <==> Fits(sorted, s0, k0) && Fits(sorted, s1, k1)
  {
    AllFitSnoc(sorted, [s0], [k0], s1, k1);
    assert [s0] + [s1] == [s0, s1] && [k0] + [k1] == [k0, k1];
    AllFitSnoc(sorted, [], [], s0, k0);
    assert [] + [s0] == [s0] && [] + [k0] == [k0];
  }

  lemma AllFit3(sorted: bool, s0: Sort, s1: Sort, s2: Sort, k0: Term, k1: Term, k2: Term)
    ensures AllFit(sorted, [s0, s1, s2], [k0, k1, k2]) <==>
            Fits(sorted, s0, k0) && Fits(sorted, s1, k1) && Fits(sorted, s2, k2)
  {
    AllFitSnoc(sorted, [s0, s1], [k0, k1], s2, k2);
    assert [s0, s1] + [s2] == [s0, s1, s2] && [k0, k1] + [k2] == [k0, k1, k2];
    AllFit2(sorted, s0, s1, k0, k1);
  }

  lemma AllFit4(sorted: bool, s0: Sort, s1: Sort, s2: Sort, s3: Sort, k0: Term, k1: Term, k2: Term, k3: Term)
    ensures AllFit(sorted, [s0, s1, s2, s3], [k0, k1, k2, k3]) <==>
            Fits(sorted, s0, k0) && Fits(sorted, s1, k1) && Fits(sorted, s2, k2) && Fits(sorted, s3, k3)
  {
    AllFitSnoc(sorted, [s0, s1, s2], [k0, k1, k2], s3, k3);
    assert [s0, s1, s2] + [s3] == [s0, s1, s2, s3] && [k0, k1, k2] + [k3] == [k0, k1, k2, k3];
    AllFit3(sorted, s0, s1, s2, k0, k1, k2);
  }

  lemma AllFit5(sorted: bool, s0: Sort, s1: Sort, s2: Sort, s3: Sort, s4: Sort,
                k0: Term, k1: Term, k2: Term, k3: Term, k4: Term)
    ensures AllFit(sorted, [s0, s1, s2, s3, s4], [k0, k1, k2, k3, k4]) <==>
            Fits(sorted, s0, k0) && Fits(sorted, s1, k1) && Fits(sorted, s2, k2) && Fits(sorted, s3, k3) && Fits(sorted, s4, k4)
  {
    AllFitSnoc(sorted, [s0, s1, s2, s3], [k0, k1, k2, k3], s4, k4);
    assert [s0, s1, s2, s3] + [s4] == [s0, s1, s2, s3, s4] && [k0, k1, k2, k3] + [k4] == [k0, k1, k2, k3, k4];
    AllFit4(sorted, s0, s1, s2, s3, k0, k1, k2, k3);
  }

  lemma Fit2(sorted: bool, slot: Sort, klabel: string, sort: Sort, s0: Sort, s1: Sort, k0: Term, k1: Term)
    ensures Fits(sorted, slot, Apply(klabel, sort, [s0, s1], [k0, k1])) <==> Fits(sorted, s0, k0) && Fits(sorted, s1, k1)
  {
    FitApply(sorted, slot, klabel, sort, [s0, s1], [k0, k1]);
    AllFit2(sorted, s0, s1, k0, k1);
  }

  lemma Fit3(sorted: bool, slot: Sort, klabel: string, sort: Sort, s0: Sort, s1: Sort, s2: Sort, k0: Term, k1: Term, k2: Term)
    ensures Fits(sorted, slot, Apply(klabel, sort, [s0, s1, s2], [k0, k1, k2])) <==>
            Fits(sorted, s0, k0) && Fits(sorted, s1, k1) && Fits(sorted, s2, k2)
  {
    FitApply(sorted, slot, klabel, sort, [s0, s1, s2], [k0, k1, k2]);
    AllFit3(sorted, s0, s1, s2, k0, k1, k2);
  }

  lemma Fit4(sorted: bool, slot: Sort, klabel: string, sort: Sort, s0: Sort, s1: Sort, s2: Sort, s3: Sort,
             k0: Term, k1: Term, k2: Term, k3: Term)
    ensures Fits(sorted, slot, Apply(klabel, sort, [s0, s1, s2, s3], [k0, k1, k2, k3])) <==>
            Fits(sorted, s0, k0) && Fits(sorted, s1, k1) && Fits(sorted, s2, k2) && Fits(sorted, s3, k3)
  {
    FitApply(sorted, slot, klabel, sort, [s0, s1, s2, s3], [k0, k1, k2, k3]);
    AllFit4(sorted, s0, s1, s2, s3, k0, k1, k2, k3);
  }

  lemma Fit5(sorted: bool, slot: Sort, klabel: string, sort: Sort, s0: Sort, s1: Sort, s2: Sort, s3: Sort, s4: Sort,
             k0: Term, k1: Term, k2: Term, k3: Term, k4: Term)
    ensures Fits(sorted, slot, Apply(klabel, sort, [s0, s1, s2, s3, s4], [k0, k1, k2, k3, k4])) <==>
            Fits(sorted, s0, k0) && Fits(sorted, s1, k1) && Fits(sorted, s2, k2) && Fits(sorted, s3, k3) && Fits(sorted, s4, k4)
  {
    FitApply(sorted, slot, klabel, sort, [s0, s1, s2, s3, s4], [k0, k1, k2, k3, k4]);
    AllFit5(sorted, s0, s1, s2, s3, s4, k0, k1, k2, k3, k4);
  }

  lemma Fit6(sorted: bool, slot: Sort, klabel: string, sort: Sort,
             s0: Sort, s1: Sort, s2: Sort, s3: Sort, s4: Sort, s5: Sort,
             k0: Term, k1: Term, k2: Term, k3: Term, k4: Term, k5: Term)
    ensures Fits(sorted, slot, Apply(klabel, sort, [s0, s1, s2, s3, s4, s5], [k0, k1, k2, k3, k4, k5])) <==>
            && Fits(sorted, s0, k0) && Fits(sorted, s1, k1) && Fits(sorted, s2, k2)
            && Fits(sorted, s3, k3) && Fits(sorted, s4, k4) && Fits(sorted, s5, k5)
  {
    FitApply(sorted, slot, klabel, sort, [s0, s1, s2, s3, s4, s5], [k0, k1, k2, k3, k4, k5]);
    AllFitSnoc(sorted, [s0, s1, s2, s3, s4], [k0, k1, k2, k3, k4], s5, k5);
    assert [s0, s1, s2, s3, s4] + [s5] == [s0, s1, s2, s3, s4, s5];
    assert [k0, k1, k2, k3, k4] + [k5] == [k0, k1, k2, k3, k4, k5];
    AllFit5(sorted, s0, s1, s2, s3, s4, k0, k1, k2, k3, k4);
  }

  /** A list fits when it holds as many items as it announces, and they fit. */
  lemma FitList(sorted: bool, slot: Sort, size: nat, items: seq<Term>)
    ensures Fits(sorted, slot, ListOf(size, items)) <==> size == |items| && ItemsFit(sorted, items)
  {
    var inner := Term(KSequence(size), items);
    Fit1(sorted, slot, "kSeqToList", LIST, K, inner);
    assert forall i :: 0 <= i < size ==> SlotSort(inner.node, i) == KITEM;
  }

  lemma FitStrictList(sorted: bool, slot: Sort, size: nat, items: seq<Term>)
    ensures Fits(sorted, slot, StrictListOf(size, items)) <==> size == |items| && ItemsFit(sorted, items)
  {
    FitList(sorted, LIST, size, items);
    Fit1(sorted, slot, "list", STRICTLIST, LIST, ListOf(size, items));
  }

  lemma ItemsFitConcat(sorted: bool, a: seq<Term>, b: seq<Term>)
    ensures ItemsFit(sorted, a + b) <==> ItemsFit(sorted, a) && ItemsFit(sorted, b)
  {
    if ItemsFit(sorted, a + b) {
      forall i | 0 <= i < |a| ensures Fits(sorted, KITEM, a[i]) {
        assert (a + b)[i] == a[i];
      }
      forall i | 0 <= i < |b| ensures Fits(sorted, KITEM, b[i]) {
        assert (a + b)[|a| + i] == b[i];
      }
    }
  }

  /** A node whose first child may be missing. */
  lemma FitAfter1(sorted: bool, slot: Sort, klabel: string, sort: Sort, s0: Sort, s1: Sort, kids: seq<Term>, k1: Term)
    ensures Fits(sorted, slot, Apply(klabel, sort, [s0, s1], kids + [k1])) <==>
            |kids| == 1 && Fits(sorted, s0, kids[0]) && Fits(sorted, s1, k1)
  {
    FitApply(sorted, slot, klabel, sort, [s0, s1], kids + [k1]);
    if |kids| == 1 {
      assert kids + [k1] == [kids[0], k1];
      AllFit2(sorted, s0, s1, kids[0], k1);
    }
  }

  lemma FitAfter2(sorted: bool, slot: Sort, klabel: string, sort: Sort, s0: Sort, s1: Sort, s2: Sort,
                  kids: seq<Term>, k1: Term, k2: Term)
    ensures Fits(sorted, slot, Apply(klabel, sort, [s0, s1, s2], kids + [k1, k2])) <==>
            |kids| == 1 && Fits(sorted, s0, kids[0]) && Fits(sorted, s1, k1) && Fits(sorted, s2, k2)
  {
    FitApply(sorted, slot, klabel, sort, [s0, s1, s2], kids + [k1, k2]);
    if |kids| == 1 {
      assert kids + [k1, k2] == [kids[0], k1, k2];
      AllFit3(sorted, s0, s1, s2, kids[0], k1, k2);
    }
  }

  /** A node whose last child may be missing, or one too many. */
  lemma FitBefore1(sorted: bool, slot: Sort, klabel: string, sort: Sort, s0: Sort, s1: Sort, k0: Term, kids: seq<Term>)
    ensures Fits(sorted, slot, Apply(klabel, sort, [s0, s1], [k0] + kids)) <==>
            |kids| == 1 && Fits(sorted, s0, k0) && Fits(sorted, s1, kids[0])
  {
    FitApply(sorted, slot, klabel, sort, [s0, s1], [k0] + kids);
    if |kids| == 1 {
      assert [k0] + kids == [k0, kids[0]];
      AllFit2(sorted, s0, s1, k0, kids[0]);
    }
  }

  lemma FitLastOptional(sorted: bool, slot: Sort, klabel: string, sort: Sort, s0: Sort, s1: Sort, s2: Sort, s3: Sort,
                        k0: Term, k1: Term, k2: Term, kids: seq<Term>)
    ensures Fits(sorted, slot, Apply(klabel, sort, [s0, s1, s2, s3], [k0, k1, k2] + kids)) <==>
            |kids| == 1 && Fits(sorted, s0, k0) && Fits(sorted, s1, k1) && Fits(sorted, s2, k2) && Fits(sorted, s3, kids[0])
  {
    FitApply(sorted, slot, klabel, sort, [s0, s1, s2, s3], [k0, k1, k2] + kids);
    if |kids| == 1 {
      assert [k0, k1, k2] + kids == [k0, k1, k2, kids[0]];
      AllFit4(sorted, s0, s1, s2, s3, k0, k1, k2, kids[0]);
    }
  }

  lemma FitTwoOptional(sorted: bool, slot: Sort, klabel: string, sort: Sort, s0: Sort, s1: Sort, s2: Sort,
                       a: seq<Term>, b: seq<Term>, k: Term)
    requires |a| <= 1 && |b| <= 1
    ensures Fits(sorted, slot, Apply(klabel, sort, [s0, s1, s2], a + b + [k])) <==>
            |a| == 1 && |b| == 1 && Fits(sorted, s0, a[0]) && Fits(sorted, s1, b[0]) && Fits(sorted, s2, k)
  {
    FitApply(sorted, slot, klabel, sort, [s0, s1, s2], a + b + [k]);
    if |a| == 1 && |b| == 1 {
      assert a + b + [k] == [a[0], b[0], k];
      AllFit3(sorted, s0, s1, s2, a[0], b[0], k);
    }
  }

  // ----- Layers -----

  ghost predicate LayerFits(sorted: bool, layer: Layer) {
    && layer.node.KApply?
    && |layer.node.sig| == |layer.before| + 1
    && forall i :: 0 <= i < |layer.before| ==> Fits(sorted, layer.node.sig[i], layer.before[i])
  }

  ghost predicate LayersFit(sorted: bool, layers: seq<Layer>) {
    forall i :: 0 <= i < |layers| ==> LayerFits(sorted, layers[i])
  }

  /** A wrapped application fits when the layers fit and the application does. */
  lemma {:induction false} FitWrap(sorted: bool, slot: Sort, layers: seq<Layer>, t: Term)
    requires t.node.KApply? && forall i :: 0 <= i < |layers| ==> layers[i].node.KApply?
    ensures Wrap(layers, t).node.KApply?
    ensures Fits(sorted, slot, Wrap(layers, t)) <==> LayersFit(sorted, layers) && Fits(sorted, slot, t)
    decreases layers
  {
    if layers != [] {
      var first, inner := layers[0], Wrap(layers[1..], t);
      FitWrap(sorted, slot, layers[1..], t);
      if |first.node.sig| == |first.before| + 1 {
        var n := |first.before|;
        var sig := first.node.sig;
        assert sig[..n] + [sig[n]] == sig;
        FitApply(sorted, slot, first.node.klabel, first.node.sort, sig, first.before + [inner]);
        AllFitSnoc(sorted, sig[..n], first.before, sig[n], inner);
        SlotIsFree(sorted, slot, sig[n], inner);
      }
      LayersFitSplit(sorted, layers);
    }
  }

  lemma LayersFitSplit(sorted: bool, layers: seq<Layer>)
    requires layers != []
    ensures LayersFit(sorted, layers) <==> LayerFits(sorted, layers[0]) && LayersFit(sorted, layers[1..])
  {
    if LayersFit(sorted, layers) {
      assert forall i :: 0 <= i < |layers[1..]| ==> layers[1..][i] == layers[i + 1];
    } else if LayerFits(sorted, layers[0]) && LayersFit(sorted, layers[1..]) {
      forall i | 0 <= i < |layers| ensures LayerFits(sorted, layers[i]) {
        if i > 0 {
          assert layers[1..][i - 1] == layers[i];
        }
      }
    }
  }

  lemma LayersFitConcat(sorted: bool, a: seq<Layer>, b: seq<Layer>)
    ensures LayersFit(sorted, a + b) <==> LayersFit(sorted, a) && LayersFit(sorted, b)
  {
    if LayersFit(sorted, a + b) {
      forall i | 0 <= i < |a| ensures LayerFits(sorted, a[i]) {
        assert (a + b)[i] == a[i];
      }
      forall i | 0 <= i < |b| ensures LayerFits(sorted, b[i]) {
        assert (a + b)[|a| + i] == b[i];
      }
    }
  }

  lemma FitWrapped(sorted: bool, slot: Sort, layers: seq<Layer>, t: Term)
    requires LayersFit(sorted, layers) && t.node.KApply?
    ensures Wrap(layers, t).node.KApply?
    ensures Fits(sorted, slot, Wrap(layers, t)) <==> Fits(sorted, slot, t)
  {
    assert forall i :: 0 <= i < |layers| ==> LayerFits(sorted, layers[i]) && layers[i].node.KApply?;
    FitWrap(sorted, slot, layers, t);
  }

  lemma LeafFits(sorted: bool, slot: Sort, klabel: string, sort: Sort)
    ensures Fits(sorted, slot, Leaf(klabel, sort))
  {
    FitApply(sorted, slot, klabel, sort, [], []);
  }

  lemma SpecifierFits(sorted: bool, klabel: string, sort: Sort)
    ensures LayerFits(sorted, SpecifierLayer(klabel, sort))
  {
    LeafFits(sorted, SPECIFIER, klabel, sort);
  }

  lemma StorageLayersFit(sorted: bool, storage: StorageClass)
    ensures LayersFit(sorted, StorageLayers(storage))
  {
    SpecifierFits(sorted, "Extern", STORAGECLASSSPECIFIER);
    SpecifierFits(sorted, "Static", STORAGECLASSSPECIFIER);
    SpecifierFits(sorted, "Register", STORAGECLASSSPECIFIER);
    SpecifierFits(sorted, "Auto", AUTOSPECIFIER);
  }

  lemma WhenFits(sorted: bool, b: bool, layer: Layer)
    requires LayerFits(sorted, layer)
    ensures LayersFit(sorted, When(b, layer))
  {
  }

  lemma QualifierLayersFit(sorted: bool, q: QualType)
    ensures LayersFit(sorted, QualifierLayers(q))
  {
    var layer := (name: string) => LayerOf("Qualifier", ATYPE, [QUALIFIER, ATYPE], [Leaf(name, QUALIFIER)]);
    forall name: string ensures LayerFits(sorted, layer(name)) {
      LeafFits(sorted, QUALIFIER, name, QUALIFIER);
    }
    var a, b, c := When(q.isConst, layer("Const")), When(q.isVolatile, layer("Volatile")), When(q.isRestrict, layer("Restrict"));
    LayersFitConcat(sorted, a, b);
    LayersFitConcat(sorted, a + b, c);
  }

  lemma TokensFit(sorted: bool, u: Unit, b: bool, n: nat, s: Bytes)
    ensures Fits(sorted, BOOL, BoolToken(b)) && Fits(sorted, INT, IntToken(n)) && Fits(sorted, STRING, StringToken(u, s))
  {
  }

  lemma UnaryTermFits(sorted: bool, slot: Sort, spelling: string, operand: Term)
    ensures UnaryTerm(spelling, operand).node.KApply?
    ensures Fits(sorted, slot, UnaryTerm(spelling, operand)) <==> Fits(sorted, EXPR, operand)
  {
    LeafFits(sorted, OPID, "operator" + spelling + "_CPP-SYNTAX", OPID);
    Fit2(sorted, slot, "UnaryOperator", EXPR, OPID, EXPR, OperatorLeaf(spelling), operand);
  }

  lemma OperatorTermFits(sorted: bool, slot: Sort, form: OperatorForm, left: Term, right: Term)
    requires !form.Thrown?
    ensures OperatorTerm(form, left, right).node.KApply?
    ensures Fits(sorted, slot, OperatorTerm(form, left, right)) <==>
            Fits(sorted, EXPR, left) && (form.BinaryForm? ==> Fits(sorted, INIT, right))
  {
    match form
    case BinaryForm(s) =>
      LeafFits(sorted, OPID, "operator" + s + "_CPP-SYNTAX", OPID);
      Fit3(sorted, slot, "BinaryOperator", EXPR, OPID, EXPR, INIT, OperatorLeaf(s), left, right);
    case UnaryForm(s) => UnaryTermFits(sorted, slot, s, left);
  }

  lemma PrototypeTermFits(sorted: bool, slot: Sort, u: Unit, ret: Term, params: seq<Term>, exceptions: Term, variadic: bool)
    ensures var t := Apply("FunctionPrototype", ATYPE, [ATYPE, STRICTLIST, EXCEPTIONSPEC, BOOL],
                           [ret, StrictListOf(|params|, params), exceptions, BoolToken(variadic)]);
            Fits(sorted, slot, t) <==> Fits(sorted, ATYPE, ret) && ItemsFit(sorted, params) && Fits(sorted, EXCEPTIONSPEC, exceptions)
  {
    FitStrictList(sorted, STRICTLIST, |params|, params);
    TokensFit(sorted, u, variadic, 0, "");
    Fit4(sorted, slot, "FunctionPrototype", ATYPE, ATYPE, STRICTLIST, EXCEPTIONSPEC, BOOL, ret, StrictListOf(|params|, params),
         exceptions, BoolToken(variadic));
  }

  lemma FieldTermFits(sorted: bool, slot: Sort, isMutable: bool, klabel: string, sort: Sort, scope: Term, name: Term, ty: Term, last: Term)
    ensures var t := Wrap(When(isMutable, SpecifierLayer("Mutable", STORAGECLASSSPECIFIER)),
                          Apply(klabel, DECLARATOR, [NNS, CID, ATYPE, sort], [scope, name, ty, last]));
            t.node.KApply? && (Fits(sorted, slot, t) <==>
              Fits(sorted, NNS, scope) && Fits(sorted, CID, name) && Fits(sorted, ATYPE, ty) && Fits(sorted, sort, last))
  {
    SpecifierFits(sorted, "Mutable", STORAGECLASSSPECIFIER);
    Fit4(sorted, slot, klabel, DECLARATOR, NNS, CID, ATYPE, sort, scope, name, ty, last);
    FitWrapped(sorted, slot, When(isMutable, SpecifierLayer("Mutable", STORAGECLASSSPECIFIER)),
               Apply(klabel, DECLARATOR, [NNS, CID, ATYPE, sort], [scope, name, ty, last]));
  }

  lemma UnitTermFits(sorted: bool, slot: Sort, u: Unit, decls: Term)
    ensures Fits(sorted, slot, Apply("TranslationUnit", DECL, [STRING, LIST], [StringToken(u, u.inFile), decls]))
            <==> Fits(sorted, LIST, decls)
  {
    TokensFit(sorted, u, true, 0, u.inFile);
    Fit2(sorted, slot, "TranslationUnit", DECL, STRING, LIST, StringToken(u, u.inFile), decls);
  }

  lemma LocFits(sorted: bool, slot: Sort, u: Unit, loc: Loc)
    ensures Fits(sorted, slot, LocTerm(u, loc))
  {
    match loc
    case UnknownLoc => LeafFits(sorted, slot, "UnknownCabsLoc_COMMON-SYNTAX", CABSLOC);
    case Loc(file, absolute, line, column, system) =>
      TokensFit(sorted, u, system, line, file);
      TokensFit(sorted, u, system, column, absolute);
      Fit5(sorted, slot, "CabsLoc", CABSLOC, STRING, STRING, INT, INT, BOOL,
           StringToken(u, file), StringToken(u, absolute), IntToken(line), IntToken(column), BoolToken(system));
  }

  lemma IdFits(sorted: bool, slot: Sort, u: Unit, id: Option<Bytes>, decl: nat)
    ensures Fits(sorted, slot, IdTerm(u, id, decl))
  {
    match id
    case Some(name) => IdentifierFits(sorted, slot, u, name);
    case None =>
      LeafFits(sorted, slot, "#NoName_COMMON-SYNTAX", NONAME);
      TokensFit(sorted, u, true, decl, u.inFile);
      Fit2(sorted, slot, "unnamed", UNNAMEDCID, INT, STRING, IntToken(decl), StringToken(u, u.inFile));
  }

  lemma IdentifierFits(sorted: bool, slot: Sort, u: Unit, id: Bytes)
    ensures Fits(sorted, slot, IdentifierTerm(u, id))
  {
    TokensFit(sorted, u, true, 0, id);
    Fit1(sorted, slot, "Identifier", CID, STRING, StringToken(u, id));
  }

  lemma TagFits(sorted: bool, slot: Sort, tag: TagKind)
    ensures Fits(sorted, slot, TagTerm(tag))
  {
    LeafFits(sorted, slot, "Struct", CLASSKEY);
    LeafFits(sorted, slot, "Union", CLASSKEY);
    LeafFits(sorted, slot, "Class", CLASSKEY);
    LeafFits(sorted, slot, "Enum", TAG);
  }

  lemma VarLayersFit(sorted: bool, v: VarDecl)
    ensures LayersFit(sorted, VarLayers(v))
  {
    var a, b := StorageLayers(v.storage), When(v.threadLocal, SpecifierLayer("ThreadLocal", STORAGECLASSSPECIFIER));
    var c, d := When(v.isConstexpr, SpecifierLayer("Constexpr", SPECIFIER)), When(v.alignment != 0, AlignasLayer(v.alignment / 8));
    StorageLayersFit(sorted, v.storage);
    SpecifierFits(sorted, "ThreadLocal", STORAGECLASSSPECIFIER);
    SpecifierFits(sorted, "Constexpr", SPECIFIER);
    Fit1(sorted, SPECIFIER, "Alignas", SPECIFIER, INT, IntToken(v.alignment / 8));
    WhenFits(sorted, v.threadLocal, SpecifierLayer("ThreadLocal", STORAGECLASSSPECIFIER));
    WhenFits(sorted, v.isConstexpr, SpecifierLayer("Constexpr", SPECIFIER));
    WhenFits(sorted, v.alignment != 0, AlignasLayer(v.alignment / 8));
    AllLayersFit(sorted, a, b, c, d);
  }

  lemma AllLayersFit(sorted: bool, a: seq<Layer>, b: seq<Layer>, c: seq<Layer>, d: seq<Layer>)
    requires LayersFit(sorted, a) && LayersFit(sorted, b) && LayersFit(sorted, c) && LayersFit(sorted, d)
    ensures LayersFit(sorted, a + b + c + d)
  {
    LayersFitConcat(sorted, a, b);
    LayersFitConcat(sorted, a + b, c);
    LayersFitConcat(sorted, a + b + c, d);
  }

  lemma RefLayersFit(sorted: bool, ref: RefQualifier)
    ensures LayersFit(sorted, RefLayers(ref))
  {
    LeafFits(sorted, REFQUALIFIER, "RefLValue", REFQUALIFIER);
    LeafFits(sorted, REFQUALIFIER, "RefRValue", REFQUALIFIER);
  }

  lemma ValueParamTermFits(sorted: bool, slot: Sort, u: Unit, pack: bool, scope: Term, name: Term, ty: Term, init: Term)
    ensures Fits(sorted, slot, Apply("ValueTemplateParam", TEMPLATEPARAMETER, [BOOL, NNS, CID, ATYPE, AEXPR],
                                     [BoolToken(pack), scope, name, ty, init]))
            <==> Fits(sorted, NNS, scope) && Fits(sorted, CID, name) && Fits(sorted, ATYPE, ty) && Fits(sorted, AEXPR, init)
  {
    TokensFit(sorted, u, pack, 0, "");
    Fit5(sorted, slot, "ValueTemplateParam", TEMPLATEPARAMETER, BOOL, NNS, CID, ATYPE, AEXPR, BoolToken(pack), scope, name, ty, init);
  }

  lemma ConstructorCallTermFits(sorted: bool, slot: Sort, u: Unit, zeroInit: bool, ty: Term, args: Term)
    ensures Fits(sorted, slot, Apply("ConstructorCall", INIT, [BOOL, ATYPE, LIST], [BoolToken(zeroInit), ty, args]))
            <==> Fits(sorted, ATYPE, ty) && Fits(sorted, LIST, args)
  {
    TokensFit(sorted, u, zeroInit, 0, "");
    Fit3(sorted, slot, "ConstructorCall", INIT, BOOL, ATYPE, LIST, BoolToken(zeroInit), ty, args);
  }

  lemma NewTermFits(sorted: bool, slot: Sort, u: Unit, global: bool, ty: Term, count: Term, init: Term, placement: Term)
    ensures Fits(sorted, slot, Apply("NewExpr", EXPR, [BOOL, ATYPE, AEXPR, INIT, LIST],
                                     [BoolToken(global), ty, count, init, placement]))
            <==> Fits(sorted, ATYPE, ty) && Fits(sorted, AEXPR, count) && Fits(sorted, INIT, init) && Fits(sorted, LIST, placement)
  {
    TokensFit(sorted, u, global, 0, "");
    Fit5(sorted, slot, "NewExpr", EXPR, BOOL, ATYPE, AEXPR, INIT, LIST, BoolToken(global), ty, count, init, placement);
  }

  lemma VarTermFits(sorted: bool, slot: Sort, u: Unit, v: VarDecl, scope: Term, name: Term, ty: Term, init: Term)
    ensures var t := Wrap(VarLayers(v), Apply("VarDecl", DECLARATOR, [NNS, CID, CID, ATYPE, INIT, BOOL],
                                              [scope, name, IdentifierTerm(u, v.mangled), ty, init, BoolToken(v.direct)]));
            t.node.KApply? && (Fits(sorted, slot, t) <==>
              Fits(sorted, NNS, scope) && Fits(sorted, CID, name) && Fits(sorted, ATYPE, ty) && Fits(sorted, INIT, init))
  {
    var id, direct := IdentifierTerm(u, v.mangled), BoolToken(v.direct);
    IdentifierFits(sorted, CID, u, v.mangled);
    TokensFit(sorted, u, v.direct, 0, "");
    Fit6(sorted, slot, "VarDecl", DECLARATOR, NNS, CID, CID, ATYPE, INIT, BOOL, scope, name, id, ty, init, direct);
    VarLayersFit(sorted, v);
    FitWrapped(sorted, slot, VarLayers(v), Apply("VarDecl", DECLARATOR, [NNS, CID, CID, ATYPE, INIT, BOOL],
                                                 [scope, name, id, ty, init, direct]));
  }

  // ----- Layers around declarations -----

  ghost predicate AllApply(layers: seq<Layer>) {
    forall i :: 0 <= i < |layers| ==> layers[i].node.KApply?
  }

  lemma OneLayerFits(sorted: bool, klabel: string, sort: Sort, s0: Sort, s1: Sort, k0: Term)
    ensures LayersFit(sorted, [LayerOf(klabel, sort, [s0, s1], [k0])]) <==> Fits(sorted, s0, k0)
  {
    var layer := LayerOf(klabel, sort, [s0, s1], [k0]);
    assert layer.before[0] == k0;
    assert LayersFit(sorted, [layer]) <==> LayerFits(sorted, [layer][0]);
  }

  lemma FitUnder1(sorted: bool, slot: Sort, klabel: string, sort: Sort, s0: Sort, s1: Sort, k0: Term, t: Term)
    requires t.node.KApply?
    ensures var w := Wrap([LayerOf(klabel, sort, [s0, s1], [k0])], t);
            w.node.KApply? && (Fits(sorted, slot, w) <==> Fits(sorted, s0, k0) && Fits(sorted, slot, t))
  {
    OneLayerFits(sorted, klabel, sort, s0, s1, k0);
    FitWrap(sorted, slot, [LayerOf(klabel, sort, [s0, s1], [k0])], t);
  }

  lemma FitUnder2(sorted: bool, slot: Sort, klabel: string, sort: Sort, s0: Sort, s1: Sort, s2: Sort, k0: Term, k1: Term, t: Term)
    requires t.node.KApply?
    ensures var w := Wrap([LayerOf(klabel, sort, [s0, s1, s2], [k0, k1])], t);
            w.node.KApply? && (Fits(sorted, slot, w) <==> Fits(sorted, s0, k0) && Fits(sorted, s1, k1) && Fits(sorted, slot, t))
  {
    TwoInLayerFit(sorted, klabel, sort, s0, s1, s2, k0, k1);
    FitWrap(sorted, slot, [LayerOf(klabel, sort, [s0, s1, s2], [k0, k1])], t);
  }

  lemma TwoInLayerFit(sorted: bool, klabel: string, sort: Sort, s0: Sort, s1: Sort, s2: Sort, k0: Term, k1: Term)
    ensures LayersFit(sorted, [LayerOf(klabel, sort, [s0, s1, s2], [k0, k1])]) <==> Fits(sorted, s0, k0) && Fits(sorted, s1, k1)
  {
    var layer := LayerOf(klabel, sort, [s0, s1, s2], [k0, k1]);
    AllFit2(sorted, s0, s1, k0, k1);
    assert [s0, s1] == layer.node.sig[..2];
    assert LayerFits(sorted, layer) <==> AllFit(sorted, layer.node.sig[..2], layer.before);
    assert LayersFit(sorted, [layer]) <==> LayerFits(sorted, [layer][0]);
  }

  lemma DeclSpecifiersFit(sorted: bool, a: seq<Layer>, f: FunctionDecl)
    requires AllApply(a)
    ensures var all := a + StorageLayers(f.storage) + When(f.isInline, SpecifierLayer("Inline", FUNCTIONSPECIFIER))
                       + When(f.isConstexpr, SpecifierLayer("Constexpr", SPECIFIER));
            AllApply(all) && (LayersFit(sorted, all) <==> LayersFit(sorted, a))
  {
    var b := StorageLayers(f.storage);
    var c := When(f.isInline, SpecifierLayer("Inline", FUNCTIONSPECIFIER));
    var d := When(f.isConstexpr, SpecifierLayer("Constexpr", SPECIFIER));
    StorageLayersFit(sorted, f.storage);
    SpecifierFits(sorted, "Inline", FUNCTIONSPECIFIER);
    SpecifierFits(sorted, "Constexpr", SPECIFIER);
    LayersFitConcat(sorted, a, b);
    LayersFitConcat(sorted, a + b, c);
    LayersFitConcat(sorted, a + b + c, d);
    assert forall i :: 0 <= i < |b| ==> LayerFits(sorted, b[i]);
  }

  lemma ThisLayerFits(sorted: bool, u: Unit, userProvided: bool, isConstructor: bool, thisType: Term)
    ensures LayersFit(sorted, [LayerOf("MethodPrototype", ATYPE, [BOOL, BOOL, ATYPE, ATYPE],
                                       [BoolToken(userProvided), BoolToken(isConstructor), thisType])])
            <==> Fits(sorted, ATYPE, thisType)
  {
    var layer := LayerOf("MethodPrototype", ATYPE, [BOOL, BOOL, ATYPE, ATYPE],
                         [BoolToken(userProvided), BoolToken(isConstructor), thisType]);
    TokensFit(sorted, u, userProvided, 0, "");
    TokensFit(sorted, u, isConstructor, 0, "");
    AllFit3(sorted, BOOL, BOOL, ATYPE, BoolToken(userProvided), BoolToken(isConstructor), thisType);
    assert [BOOL, BOOL, ATYPE] == layer.node.sig[..3];
    assert LayerFits(sorted, layer) <==> AllFit(sorted, layer.node.sig[..3], layer.before);
    assert LayersFit(sorted, [layer]) <==> LayerFits(sorted, [layer][0]);
  }

  lemma MethodLayersAround(sorted: bool, ref: RefQualifier, layer: Layer, isVirtual: bool, isPure: bool, isExplicit: bool)
    requires layer.node.KApply?
    ensures var all := RefLayers(ref) + [layer] + When(isVirtual, LayerOf("Virtual", ATYPE, [ATYPE], []))
                       + When(isPure, LayerOf("Pure", ATYPE, [ATYPE], [])) + When(isExplicit, LayerOf("Explicit", ATYPE, [ATYPE], []));
            AllApply(all) && (LayersFit(sorted, all) <==> LayersFit(sorted, [layer]))
  {
    var virtual, pure, explicit :=
      LayerOf("Virtual", ATYPE, [ATYPE], []), LayerOf("Pure", ATYPE, [ATYPE], []), LayerOf("Explicit", ATYPE, [ATYPE], []);
    RefLayersFit(sorted, ref);
    WhenFits(sorted, isVirtual, virtual);
    WhenFits(sorted, isPure, pure);
    WhenFits(sorted, isExplicit, explicit);
    AroundFits(sorted, RefLayers(ref), [layer], When(isVirtual, virtual), When(isPure, pure), When(isExplicit, explicit));
  }

  lemma FitIsApply(sorted: bool, layers: seq<Layer>)
    requires LayersFit(sorted, layers)
    ensures AllApply(layers)
  {
  }

  /** Layers that fit do not matter to whether the layers among them do. */
  lemma AroundFits(sorted: bool, a: seq<Layer>, b: seq<Layer>, c: seq<Layer>, d: seq<Layer>, e: seq<Layer>)
    requires LayersFit(sorted, a) && LayersFit(sorted, c) && LayersFit(sorted, d) && LayersFit(sorted, e) && AllApply(b)
    ensures AllApply(a + b + c + d + e) && (LayersFit(sorted, a + b + c + d + e) <==> LayersFit(sorted, b))
  {
    FitIsApply(sorted, a);
    FitIsApply(sorted, c);
    FitIsApply(sorted, d);
    FitIsApply(sorted, e);
    LayersFitConcat(sorted, a, b);
    LayersFitConcat(sorted, a + b, c);
    LayersFitConcat(sorted, a + b + c, d);
    LayersFitConcat(sorted, a + b + c + d, e);
  }

  lemma FitDefinition(sorted: bool, slot: Sort, head: seq<Term>, end: seq<Term>)
    requires |head| == 5
    ensures Fits(sorted, slot, Apply("FunctionDefinition", DECLARATOR, [NNS, CID, CID, ATYPE, LIST, ASTMT], head + end)) <==>
            AllFit(sorted, [NNS, CID, CID, ATYPE, LIST], head) && |end| == 1 && Fits(sorted, ASTMT, end[0])
  {
    FitApply(sorted, slot, "FunctionDefinition", DECLARATOR, [NNS, CID, CID, ATYPE, LIST, ASTMT], head + end);
    if |end| == 1 {
      assert head + end == head + [end[0]];
      assert [NNS, CID, CID, ATYPE, LIST, ASTMT] == [NNS, CID, CID, ATYPE, LIST] + [ASTMT];
      AllFitSnoc(sorted, [NNS, CID, CID, ATYPE, LIST], head, ASTMT, end[0]);
    }
  }
}
