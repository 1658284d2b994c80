/** The term of a syntax tree fits exactly when the tree meets the condition of Fitness. */
module Translation {
  import opened Wrappers
  import opened Sorts
  import opened Terms
  import opened Ast
  import opened Trees
  import opened Fitting
  import opened Fitness

  // ----- Types and names -----

  lemma {:induction false} QualFits(sorted: bool, slot: Sort, u: Unit, q: QualType)
    ensures QualTerm(u, q).node.KApply?
    ensures Fits(sorted, slot, QualTerm(u, q)) <==> QualOk(sorted, q)
    decreases q, 0
  {
    hide TypeTerm, KindTerm, StmtTerm, DeclTerm, TypeOk, KindOk, StmtOk, DeclKindOk;
    TypeFits(sorted, slot, u, q.ty);
    QualifierLayersFit(sorted, q);
    FitWrapped(sorted, slot, QualifierLayers(q), TypeTerm(u, q.ty));
  }

  lemma {:induction false} QualsFit(sorted: bool, u: Unit, qs: seq<QualType>)
    ensures ItemsFit(sorted, QualTerms(u, qs)) <==> QualsOk(sorted, qs)
    decreases qs, 0
  {
    hide TypeTerm, KindTerm, StmtTerm, DeclTerm, TypeOk, KindOk, StmtOk, DeclKindOk;
    var ts := QualTerms(u, qs);
    forall i | 0 <= i < |qs| ensures Fits(sorted, KITEM, ts[i]) <==> QualOk(sorted, qs[i]) {
      QualFits(sorted, KITEM, u, qs[i]);
    }
  }

  lemma {:induction false} TypeFits(sorted: bool, slot: Sort, u: Unit, t: Type)
    ensures TypeTerm(u, t).node.KApply?
    ensures Fits(sorted, slot, TypeTerm(u, t)) <==> TypeOk(sorted, t)
    decreases t, 1
  {
    hide KindTerm, StmtTerm, DeclTerm, KindOk, StmtOk, DeclKindOk;
    match t
    case Substituted(replacement) => QualFits(sorted, slot, u, replacement);
    case Auto(Some(deduced), _) => QualFits(sorted, slot, u, deduced);
    case Prototype(_, _, _, _) => PrototypeFits(sorted, slot, u, t);
    case Pointer(_) => ArrayFits(sorted, slot, u, t);
    case ConstantArray(_, _) => ArrayFits(sorted, slot, u, t);
    case SizedArray(_, _) => ArrayFits(sorted, slot, u, t);
    case IncompleteArray(_) => ArrayFits(sorted, slot, u, t);
    case TagType(_) => NamedTypeFits(sorted, slot, u, t);
    case SpecializedType(_, _) => NamedTypeFits(sorted, slot, u, t);
    case _ => SimpleTypeFits(sorted, slot, u, t);
  }

  lemma {:induction false} ArrayFits(sorted: bool, slot: Sort, u: Unit, t: Type)
    requires t.Pointer? || t.ConstantArray? || t.SizedArray? || t.IncompleteArray?
    ensures TypeTerm(u, t).node.KApply?
    ensures Fits(sorted, slot, TypeTerm(u, t)) <==> TypeOk(sorted, t)
    decreases t, 0
  {
    hide KindTerm, StmtTerm, DeclTerm, KindOk, StmtOk, DeclKindOk;
    match t
    case Pointer(pointee) =>
      QualFits(sorted, ATYPE, u, pointee);
      Fit1(sorted, slot, "PointerType", ATYPE, ATYPE, QualTerm(u, pointee));
    case ConstantArray(element, size) =>
      QualFits(sorted, ATYPE, u, element);
      TokensFit(sorted, u, true, size, "");
      Fit2(sorted, slot, "ArrayType", ATYPE, ATYPE, INT, QualTerm(u, element), Trees.IntToken(size));
    case SizedArray(element, sizeExpr) =>
      QualFits(sorted, ATYPE, u, element);
      ExprFits(sorted, AEXPR, u, sizeExpr);
      Fit2(sorted, slot, "ArrayTypeAExpr", ATYPE, ATYPE, AEXPR, QualTerm(u, element), ExprTerm(u, sizeExpr));
    case IncompleteArray(element) =>
      QualFits(sorted, ATYPE, u, element);
      LeafFits(sorted, AEXPR, "NoExpression", AEXPR);
      Fit2(sorted, slot, "ArrayTypeAExpr", ATYPE, ATYPE, AEXPR, QualTerm(u, element), NoExpression());
  }

  lemma {:induction false} NamedTypeFits(sorted: bool, slot: Sort, u: Unit, t: Type)
    requires t.TagType? || t.SpecializedType?
    ensures TypeTerm(u, t).node.KApply?
    ensures Fits(sorted, slot, TypeTerm(u, t)) <==> TypeOk(sorted, t)
    decreases t, 0
  {
    hide KindTerm, StmtTerm, DeclTerm, KindOk, StmtOk, DeclKindOk;
    if t.TagType? {
      LeafFits(sorted, NNS, "NoNNS", NNS);
      NameFits(sorted, CID, u, t.tagName);
      Fit2(sorted, slot, "Name", NAME, NNS, CID, Leaf("NoNNS", NNS), NameTerm(u, t.tagName));
    } else {
      NameFits(sorted, CID, u, t.template);
      ArgListFits(sorted, LIST, u, t.args);
      Fit2(sorted, slot, "TemplateSpecializationType", ATYPE, CID, LIST, NameTerm(u, t.template), ListOf(|t.args|, ArgTerms(u, t.args)));
    }
  }

  lemma {:induction false} SimpleTypeFits(sorted: bool, slot: Sort, u: Unit, t: Type)
    requires t.Builtin? || t.ParamType? || (t.Auto? && t.deduced.None?)
    ensures TypeTerm(u, t).node.KApply?
    ensures Fits(sorted, slot, TypeTerm(u, t)) <==> TypeOk(sorted, t)
    decreases t, 0
  {
    hide KindTerm, StmtTerm, DeclTerm, KindOk, StmtOk, DeclKindOk;
    match t
    case Builtin(specifier) =>
      LeafFits(sorted, TYPESPECIFIER, specifier, TYPESPECIFIER);
      Fit1(sorted, slot, "BuiltinType", ATYPE, TYPESPECIFIER, Leaf(specifier, TYPESPECIFIER));
    case ParamType(id) =>
      IdFits(sorted, CID, u, id, 0);
      Fit1(sorted, slot, "TemplateParameterType", ATYPE, CID, IdTerm(u, id, 0));
    case Auto(_, isDecltype) =>
      TokensFit(sorted, u, isDecltype, 0, "");
      Fit1(sorted, slot, "AutoType", ATYPE, BOOL, BoolToken(isDecltype));
  }

  lemma {:induction false} PrototypeFits(sorted: bool, slot: Sort, u: Unit, t: Type)
    requires t.Prototype?
    ensures TypeTerm(u, t).node.KApply?
    ensures Fits(sorted, slot, TypeTerm(u, t)) <==> TypeOk(sorted, t)
    decreases t, 0
  {
    hide KindTerm, StmtTerm, DeclTerm, KindOk, StmtOk, DeclKindOk;
    QualFits(sorted, ATYPE, u, t.ret);
    QualsFit(sorted, u, t.params);
    ExceptionsFit(sorted, EXCEPTIONSPEC, u, t.exceptions);
    PrototypeTermFits(sorted, slot, u, QualTerm(u, t.ret), QualTerms(u, t.params), ExceptionsTerm(u, t.exceptions), t.variadic);
  }

  lemma {:induction false} ExceptionsFit(sorted: bool, slot: Sort, u: Unit, spec: ExceptionSpec)
    ensures Fits(sorted, slot, ExceptionsTerm(u, spec)) <==> ExceptionsOk(sorted, spec)
    decreases spec, 0
  {
    hide TypeTerm, KindTerm, StmtTerm, DeclTerm, TypeOk, KindOk, StmtOk, DeclKindOk;
    match spec
    case NoSpec => LeafFits(sorted, slot, "NoExceptionSpec", EXCEPTIONSPEC);
    case BasicNoexcept =>
      LeafFits(sorted, AEXPR, "NoExpression", AEXPR);
      Fit1(sorted, slot, "NoexceptSpec", EXCEPTIONSPEC, AEXPR, NoExpression());
    case ComputedNoexcept(cond) =>
      ExprFits(sorted, AEXPR, u, cond);
      Fit1(sorted, slot, "NoexceptSpec", EXCEPTIONSPEC, AEXPR, ExprTerm(u, cond));
    case DynamicNone =>
      FitStrictList(sorted, STRICTLIST, 0, []);
      Fit1(sorted, slot, "ThrowSpec", EXCEPTIONSPEC, STRICTLIST, StrictListOf(0, []));
    case Dynamic(thrown) =>
      QualsFit(sorted, u, thrown);
      FitStrictList(sorted, STRICTLIST, |thrown|, QualTerms(u, thrown));
      Fit1(sorted, slot, "ThrowSpec", EXCEPTIONSPEC, STRICTLIST, StrictListOf(|thrown|, QualTerms(u, thrown)));
  }

  lemma {:induction false} NameFits(sorted: bool, slot: Sort, u: Unit, name: DeclName)
    ensures Fits(sorted, slot, NameTerm(u, name)) <==> NameOk(sorted, name)
    decreases name, 0
  {
    hide TypeTerm, KindTerm, StmtTerm, DeclTerm, TypeOk, KindOk, StmtOk, DeclKindOk;
    match name
    case Ident(id, decl) => IdFits(sorted, slot, u, id, decl);
    case TypeName(ty) =>
      QualFits(sorted, ATYPE, u, ty);
      Fit1(sorted, slot, "TypeId", TYPEID, ATYPE, QualTerm(u, ty));
    case DestructorName(ty) =>
      QualFits(sorted, ATYPE, u, ty);
      Fit1(sorted, slot, "DestructorTypeId", DESTRUCTORID, ATYPE, QualTerm(u, ty));
    case OperatorName(spelling) => LeafFits(sorted, slot, "operator" + spelling + "_CPP-SYNTAX", OPID);
  }

  lemma {:induction false} NestedFits(sorted: bool, slot: Sort, u: Unit, scope: Nested)
    ensures Fits(sorted, slot, NestedTerm(u, scope)) <==> NestedOk(sorted, scope)
    decreases scope, 0
  {
    hide TypeTerm, KindTerm, StmtTerm, DeclTerm, TypeOk, KindOk, StmtOk, DeclKindOk;
    match scope
    case Unqualified => LeafFits(sorted, slot, "NoNNS", NNS);
    case Nested(prefix, spec) =>
      if prefix.Unqualified? {
        NestedSpecFits(sorted, slot, u, spec);
      } else {
        NestedFits(sorted, NNS, u, prefix);
        NestedSpecFits(sorted, NNSSPECIFIER, u, spec);
        Fit2(sorted, slot, "NestedName", NNS, NNS, NNSSPECIFIER, NestedTerm(u, prefix), NestedSpecTerm(u, spec));
      }
  }

  lemma {:induction false} NestedSpecFits(sorted: bool, slot: Sort, u: Unit, spec: NestedSpec)
    ensures Fits(sorted, slot, NestedSpecTerm(u, spec)) <==> NestedSpecOk(sorted, spec)
    decreases spec, 0
  {
    hide TypeTerm, KindTerm, StmtTerm, DeclTerm, TypeOk, KindOk, StmtOk, DeclKindOk;
    match spec
    case NameSpec(name) =>
      NameFits(sorted, CID, u, name);
      Fit1(sorted, slot, "NNS", NNSSPECIFIER, CID, NameTerm(u, name));
    case TypeSpec(ty) =>
      QualFits(sorted, CID, u, ty);
      Fit1(sorted, slot, "NNS", NNSSPECIFIER, CID, QualTerm(u, ty));
    case TemplateTypeSpec(ty) =>
      QualFits(sorted, CID, u, ty);
      Fit1(sorted, slot, "TemplateNNS", NNSSPECIFIER, CID, QualTerm(u, ty));
    case GlobalSpec => LeafFits(sorted, slot, "GlobalNamespace", NAMESPACE);
  }

  lemma {:induction false} ArgFits(sorted: bool, slot: Sort, u: Unit, arg: TemplateArg)
    ensures Fits(sorted, slot, ArgTerm(u, arg)) <==> ArgOk(sorted, arg)
    decreases arg, 0
  {
    hide TypeTerm, KindTerm, StmtTerm, DeclTerm, TypeOk, KindOk, StmtOk, DeclKindOk;
    match arg
    case TypeArg(ty) =>
      QualFits(sorted, ATYPE, u, ty);
      Fit1(sorted, slot, "TypeArg", TEMPLATEARGUMENT, ATYPE, QualTerm(u, ty));
    case NameArg(name) =>
      NameFits(sorted, CID, u, name);
      Fit1(sorted, slot, "TemplateArg", TEMPLATEARGUMENT, CID, NameTerm(u, name));
    case ExprArg(expr) =>
      ExprFits(sorted, EXPR, u, expr);
      Fit1(sorted, slot, "ExprArg", TEMPLATEARGUMENT, EXPR, ExprTerm(u, expr));
    case IntegralArg(value, ty) =>
      IntegerFits(sorted, EXPR, u, value, ty);
      Fit1(sorted, slot, "ExprArg", TEMPLATEARGUMENT, EXPR, IntegerTerm(u, value, ty));
    case PackArg(args) =>
      ArgListFits(sorted, LIST, u, args);
      Fit1(sorted, slot, "PackArg", TEMPLATEARGUMENT, LIST, ListOf(|args|, ArgTerms(u, args)));
  }

  lemma {:induction false} IntegerFits(sorted: bool, slot: Sort, u: Unit, value: nat, ty: QualType)
    ensures Fits(sorted, slot, IntegerTerm(u, value, ty)) <==> QualOk(sorted, ty)
    decreases ty, 1
  {
    hide TypeTerm, KindTerm, StmtTerm, DeclTerm, TypeOk, KindOk, StmtOk, DeclKindOk;
    TokensFit(sorted, u, true, value, "");
    QualFits(sorted, ATYPE, u, ty);
    Fit2(sorted, slot, "IntegerLiteral", EXPR, INT, ATYPE, Trees.IntToken(value), QualTerm(u, ty));
  }

  lemma {:induction false} ArgListFits(sorted: bool, slot: Sort, u: Unit, args: seq<TemplateArg>)
    ensures Fits(sorted, slot, ListOf(|args|, ArgTerms(u, args))) <==> ArgsOk(sorted, args)
    decreases args, 0
  {
    hide TypeTerm, KindTerm, StmtTerm, DeclTerm, TypeOk, KindOk, StmtOk, DeclKindOk;
    var ts := ArgTerms(u, args);
    forall i | 0 <= i < |args| ensures Fits(sorted, KITEM, ts[i]) <==> ArgOk(sorted, args[i]) {
      ArgFits(sorted, KITEM, u, args[i]);
    }
    FitList(sorted, slot, |args|, ts);
  }

  // ----- Expressions -----

  lemma {:induction false} ExprFits(sorted: bool, slot: Sort, u: Unit, e: Expr)
    requires slot != K
    ensures Fits(sorted, slot, ExprTerm(u, e)) <==> ExprOk(sorted, e)
    decreases e, 0
  {
    hide TypeTerm, KindTerm, StmtTerm, DeclTerm, TypeOk, KindOk, StmtOk, DeclKindOk;
    match e
    case DefaultArg =>
    case Expr(loc, kind) =>
      KindFits(sorted, slot, u, kind);
      LocFits(sorted, CABSLOC, u, loc);
      FitWrapped(sorted, slot, [LayerOf("ExprLoc", EXPRLOC, [CABSLOC, KITEM], [LocTerm(u, loc)])], KindTerm(u, kind));
  }

  lemma {:induction false} ExprListFits(sorted: bool, u: Unit, es: seq<Expr>)
    ensures ItemsFit(sorted, ExprTerms(u, es)) <==> ExprsOk(sorted, es)
    ensures Fits(sorted, LIST, ListOf(|es|, ExprTerms(u, es))) <==> ExprsOk(sorted, es)
    decreases es, 0
  {
    hide TypeTerm, KindTerm, StmtTerm, DeclTerm, TypeOk, KindOk, StmtOk, DeclKindOk;
    var ts := ExprTerms(u, es);
    forall i | 0 <= i < |es| ensures Fits(sorted, KITEM, ts[i]) <==> ExprOk(sorted, es[i]) {
      ExprFits(sorted, KITEM, u, es[i]);
    }
    FitList(sorted, LIST, |es|, ts);
  }

  lemma {:induction false} ExprOrFits(sorted: bool, slot: Sort, u: Unit, e: Option<Expr>, klabel: string, sort: Sort)
    requires slot != K
    ensures Fits(sorted, slot, ExprOr(u, e, Leaf(klabel, sort))) <==> MaybeExprOk(sorted, e)
    decreases e, 0
  {
    hide TypeTerm, KindTerm, StmtTerm, DeclTerm, TypeOk, KindOk, StmtOk, DeclKindOk;
    match e
    case Some(x) => ExprFits(sorted, slot, u, x);
    case None => LeafFits(sorted, slot, klabel, sort);
  }

  lemma {:induction false} KindFits(sorted: bool, slot: Sort, u: Unit, e: ExprKind)
    ensures KindTerm(u, e).node.KApply?
    ensures Fits(sorted, slot, KindTerm(u, e)) <==> KindOk(sorted, e)
    decreases e, 1
  {
    hide TypeTerm, StmtTerm, DeclTerm, TypeOk, StmtOk, DeclKindOk;
    if e.Lookup? || e.Member? {
      LookupFits(sorted, slot, u, e);
    } else if e.Call? {
      CallFits(sorted, slot, u, e);
    } else if e.OneOperand? || e.TwoOperands? {
      OperatorFits(sorted, slot, u, e);
    } else if e.Construction? {
      ConstructionFits(sorted, slot, u, e);
    } else if e.ConstructorCall? {
      ConstructorCallFits(sorted, slot, u, e);
    } else if e.New? {
      NewFits(sorted, slot, u, e);
    } else if e.Lambda? {
      LambdaFits(sorted, slot, u, e);
    } else if e.IntegerLit? || e.InitList? {
      LiteralFits(sorted, slot, u, e);
    } else {
      ConstantFits(sorted, slot, u, e);
    }
  }

  lemma {:induction false} LiteralFits(sorted: bool, slot: Sort, u: Unit, e: ExprKind)
    requires e.IntegerLit? || e.InitList?
    ensures KindTerm(u, e).node.KApply?
    ensures Fits(sorted, slot, KindTerm(u, e)) <==> KindOk(sorted, e)
    decreases e, 0
  {
    hide TypeTerm, StmtTerm, DeclTerm, TypeOk, StmtOk, DeclKindOk;
    if e.IntegerLit? {
      IntegerFits(sorted, slot, u, e.value, e.ty);
    } else {
      ExprListFits(sorted, u, e.inits);
      Fit1(sorted, slot, "BraceInit", BRACEINIT, LIST, ListOf(|e.inits|, ExprTerms(u, e.inits)));
    }
  }

  lemma {:induction false} ConstantFits(sorted: bool, slot: Sort, u: Unit, e: ExprKind)
    requires e.BoolLit? || e.NullPtrLit? || e.StringLit? || e.This? || e.OverloadedCall?
    ensures KindTerm(u, e).node.KApply?
    ensures Fits(sorted, slot, KindTerm(u, e)) <==> KindOk(sorted, e)
    decreases e, 0
  {
    hide TypeTerm, StmtTerm, DeclTerm, TypeOk, StmtOk, DeclKindOk;
    match e
    case BoolLit(b) =>
      TokensFit(sorted, u, b, 0, "");
      Fit1(sorted, slot, "BoolLiteral", EXPR, BOOL, BoolToken(b));
    case NullPtrLit => LeafFits(sorted, slot, "NullPointerLiteral", EXPR);
    case StringLit(charKind, bytes) =>
      LeafFits(sorted, CHARKIND, charKind, CHARKIND);
      TokensFit(sorted, u, true, 0, bytes);
      Fit2(sorted, slot, "StringLiteral", EXPR, CHARKIND, STRING, Leaf(charKind, CHARKIND), StringToken(u, bytes));
    case This => LeafFits(sorted, slot, "This", THIS);
    case OverloadedCall => LeafFits(sorted, slot, "OverloadedCall", EXPR);
  }

  lemma {:induction false} LookupFits(sorted: bool, slot: Sort, u: Unit, e: ExprKind)
    requires e.Lookup? || e.Member?
    ensures KindTerm(u, e).node.KApply?
    ensures Fits(sorted, slot, KindTerm(u, e)) <==> KindOk(sorted, e)
    decreases e, 0
  {
    hide TypeTerm, StmtTerm, DeclTerm, TypeOk, StmtOk, DeclKindOk;
    var name := Apply("Name", NAME, [NNS, CID], [NestedTerm(u, e.scope), NameTerm(u, e.name)]);
    NestedFits(sorted, NNS, u, e.scope);
    NameFits(sorted, CID, u, e.name);
    Fit2(sorted, slot, "Name", NAME, NNS, CID, NestedTerm(u, e.scope), NameTerm(u, e.name));
    if e.Member? {
      SlotIsFree(sorted, slot, NAME, name);
      TokensFit(sorted, u, e.arrow, 0, "");
      TokensFit(sorted, u, e.templated, 0, "");
      ExprFits(sorted, EXPR, u, e.base);
      Fit4(sorted, slot, "MemberExpr", EXPR, BOOL, BOOL, NAME, EXPR, BoolToken(e.arrow), BoolToken(e.templated), name, ExprTerm(u, e.base));
    }
  }

  lemma {:induction false} CallFits(sorted: bool, slot: Sort, u: Unit, e: ExprKind)
    requires e.Call?
    ensures KindTerm(u, e).node.KApply?
    ensures Fits(sorted, slot, KindTerm(u, e)) <==> KindOk(sorted, e)
    decreases e, 0
  {
    hide TypeTerm, StmtTerm, DeclTerm, TypeOk, StmtOk, DeclKindOk;
    var n, args := |e.args|, ExprTerms(u, e.args);
    ExprFits(sorted, EXPR, u, e.callee);
    ExprListFits(sorted, u, e.args);
    FitStrictList(sorted, STRICTLIST, n, args);
    LeafFits(sorted, LIST, ".List", LIST);
    Fit1(sorted, STRICTLISTRESULT, "krlist", STRICTLISTRESULT, LIST, Leaf(".List", LIST));
    Fit3(sorted, slot, "CallExpr", RESOLVEDEXPR, EXPR, STRICTLIST, STRICTLISTRESULT, ExprTerm(u, e.callee),
         StrictListOf(n, args), Apply("krlist", STRICTLISTRESULT, [LIST], [Leaf(".List", LIST)]));
  }

  lemma {:induction false} OperatorFits(sorted: bool, slot: Sort, u: Unit, e: ExprKind)
    requires e.OneOperand? || e.TwoOperands?
    ensures KindTerm(u, e).node.KApply?
    ensures Fits(sorted, slot, KindTerm(u, e)) <==> KindOk(sorted, e)
    decreases e, 0
  {
    hide TypeTerm, StmtTerm, DeclTerm, TypeOk, StmtOk, DeclKindOk;
    match e
    case OneOperand(op, operand) =>
      ExprFits(sorted, EXPR, u, operand);
      UnaryTermFits(sorted, slot, FormOf(op, 1).spelling, ExprTerm(u, operand));
    case TwoOperands(op, left, right) =>
      ExprFits(sorted, EXPR, u, left);
      ExprFits(sorted, INIT, u, right);
      OperatorTermFits(sorted, slot, FormOf(op, 2), ExprTerm(u, left), ExprTerm(u, right));
  }

  lemma {:induction false} ConstructionFits(sorted: bool, slot: Sort, u: Unit, e: ExprKind)
    requires e.Construction?
    ensures KindTerm(u, e).node.KApply?
    ensures Fits(sorted, slot, KindTerm(u, e)) <==> KindOk(sorted, e)
    decreases e, 0
  {
    hide TypeTerm, StmtTerm, DeclTerm, TypeOk, StmtOk, DeclKindOk;
    QualFits(sorted, ATYPE, u, e.ty);
    ExprListFits(sorted, u, e.args);
    Fit2(sorted, slot, ConstructionLabel(e.form), EXPR, ATYPE, LIST, QualTerm(u, e.ty), ListOf(|e.args|, ExprTerms(u, e.args)));
  }

  lemma {:induction false} ConstructorCallFits(sorted: bool, slot: Sort, u: Unit, e: ExprKind)
    requires e.ConstructorCall?
    ensures KindTerm(u, e).node.KApply?
    ensures Fits(sorted, slot, KindTerm(u, e)) <==> KindOk(sorted, e)
    decreases e, 0
  {
    hide TypeTerm, StmtTerm, DeclTerm, TypeOk, StmtOk, DeclKindOk;
    QualFits(sorted, ATYPE, u, e.ty);
    ExprListFits(sorted, u, e.args);
    ConstructorCallTermFits(sorted, slot, u, e.zeroInit, QualTerm(u, e.ty), ListOf(|e.args|, ExprTerms(u, e.args)));
  }

  lemma {:induction false} NewFits(sorted: bool, slot: Sort, u: Unit, e: ExprKind)
    requires e.New?
    ensures KindTerm(u, e).node.KApply?
    ensures Fits(sorted, slot, KindTerm(u, e)) <==> KindOk(sorted, e)
    decreases e, 0
  {
    hide TypeTerm, StmtTerm, DeclTerm, TypeOk, StmtOk, DeclKindOk;
    QualFits(sorted, ATYPE, u, e.ty);
    ExprOrFits(sorted, AEXPR, u, e.count, "NoExpression", AEXPR);
    ExprOrFits(sorted, INIT, u, e.init, "NoInit", INIT);
    ExprListFits(sorted, u, e.placement);
    NewTermFits(sorted, slot, u, e.global, QualTerm(u, e.ty), ExprOr(u, e.count, NoExpression()), ExprOr(u, e.init, NoInit()),
                ListOf(|e.placement|, ExprTerms(u, e.placement)));
  }

  lemma {:induction false} LambdaFits(sorted: bool, slot: Sort, u: Unit, e: ExprKind)
    requires e.Lambda?
    ensures KindTerm(u, e).node.KApply?
    ensures Fits(sorted, slot, KindTerm(u, e)) <==> KindOk(sorted, e)
    decreases e, 0
  {
    hide TypeTerm, StmtTerm, DeclTerm, TypeOk, StmtOk, DeclKindOk;
    LeafFits(sorted, CAPTUREDEFAULT, e.capDefault, CAPTUREDEFAULT);
    CapturesFit(sorted, u, e.captures);
    FitList(sorted, LIST, CountExplicit(e.captures, e.explicitEnd), CaptureTerms(u, e.captures));
    QualFits(sorted, ATYPE, u, e.ty);
    StmtFits(sorted, ASTMT, u, e.body);
    Fit4(sorted, slot, "Lambda", EXPR, CAPTUREDEFAULT, LIST, ATYPE, ASTMT, Leaf(e.capDefault, CAPTUREDEFAULT),
         ListOf(CountExplicit(e.captures, e.explicitEnd), CaptureTerms(u, e.captures)), QualTerm(u, e.ty), StmtTerm(u, e.body));
  }

  lemma {:induction false} CapturesFit(sorted: bool, u: Unit, captures: seq<Capture>)
    ensures |CaptureTerms(u, captures)| == CountExplicit(captures, |captures|)
    ensures ItemsFit(sorted, CaptureTerms(u, captures)) <==> CapturesOk(sorted, captures)
    decreases captures, 0
  {
    hide TypeTerm, KindTerm, StmtTerm, DeclTerm, TypeOk, KindOk, StmtOk, DeclKindOk;
    if captures != [] {
      var first, rest := captures[0], captures[1..];
      CapturesFit(sorted, u, rest);
      var here := if first.isExplicit then [CaptureTerm(u, first)] else [];
      ItemsFitConcat(sorted, here, CaptureTerms(u, rest));
      if first.isExplicit {
        CaptureFits(sorted, KITEM, u, first);
        assert ItemsFit(sorted, here) <==> Fits(sorted, KITEM, here[0]);
      }
      assert CapturesOk(sorted, captures) <==> (first.isExplicit ==> CaptureOk(sorted, first)) && CapturesOk(sorted, rest) by {
        CapturesOkSplit(sorted, captures);
      }
    }
  }

  lemma CapturesOkSplit(sorted: bool, captures: seq<Capture>)
    requires captures != []
    ensures CapturesOk(sorted, captures) <==>
            (captures[0].isExplicit ==> CaptureOk(sorted, captures[0])) && CapturesOk(sorted, captures[1..])
  {
    hide TypeTerm, KindTerm, StmtTerm, DeclTerm, TypeOk, KindOk, StmtOk, DeclKindOk;
    assert forall i :: 0 <= i < |captures[1..]| ==> captures[1..][i] == captures[i + 1];
    assert forall i :: 1 <= i < |captures| ==> captures[i] == captures[1..][i - 1];
  }

  lemma {:induction false} CaptureFits(sorted: bool, slot: Sort, u: Unit, c: Capture)
    ensures Fits(sorted, slot, CaptureTerm(u, c)) <==> CaptureOk(sorted, c)
    decreases c, 0
  {
    hide TypeTerm, KindTerm, StmtTerm, DeclTerm, TypeOk, KindOk, StmtOk, DeclKindOk;
    TokensFit(sorted, u, c.pack, 0, "");
    CapturedFits(sorted, CAPTUREKIND, u, c.what);
    FitAfter1(sorted, slot, "LambdaCapture", CAPTURE, CAPTUREKIND, BOOL, CapturedTerms(u, c.what), BoolToken(c.pack));
  }

  lemma {:induction false} CapturedFits(sorted: bool, slot: Sort, u: Unit, what: Captured)
    ensures |CapturedTerms(u, what)| == 1 && Fits(sorted, slot, CapturedTerms(u, what)[0]) <==> CapturedOk(sorted, what)
    decreases what, 0
  {
    hide TypeTerm, KindTerm, StmtTerm, DeclTerm, TypeOk, KindOk, StmtOk, DeclKindOk;
    match what
    case CaptureThis => LeafFits(sorted, slot, "This", THIS);
    case CaptureRef(variable) =>
      DeclFits(sorted, DECL, u, variable);
      FitApply(sorted, slot, "RefCapture", CAPTUREKIND, [DECL], DeclTerms(u, variable));
    case CaptureCopy(variable) => DeclFits(sorted, slot, u, variable);
  }

  // ----- Statements -----

  lemma {:induction false} StmtListFits(sorted: bool, u: Unit, ss: seq<Stmt>)
    ensures Fits(sorted, LIST, ListOf(|ss|, StmtTerms(u, ss))) <==> StmtsOk(sorted, ss)
    decreases ss, 0
  {
    hide TypeTerm, KindTerm, StmtTerm, DeclTerm, TypeOk, KindOk, StmtOk, DeclKindOk;
    var ts := StmtTerms(u, ss);
    forall i | 0 <= i < |ss| ensures Fits(sorted, KITEM, ts[i]) <==> StmtOk(sorted, ss[i]) {
      StmtFits(sorted, KITEM, u, ss[i]);
    }
    FitList(sorted, LIST, |ss|, ts);
  }

  lemma {:induction false} StmtOrFits(sorted: bool, slot: Sort, u: Unit, s: Option<Stmt>)
    requires slot != K
    ensures Fits(sorted, slot, StmtOr(u, s)) <==> MaybeStmtOk(sorted, s)
    decreases s, 0
  {
    hide TypeTerm, KindTerm, StmtTerm, DeclTerm, TypeOk, KindOk, StmtOk, DeclKindOk;
    match s
    case Some(x) => StmtFits(sorted, slot, u, x);
    case None => LeafFits(sorted, slot, "NoStatement", ASTMT);
  }

  lemma {:induction false} CondFits(sorted: bool, slot: Sort, u: Unit, cond: Cond)
    requires slot != K
    ensures |CondTerms(u, cond)| == 1 && Fits(sorted, slot, CondTerms(u, cond)[0]) <==> CondOk(sorted, cond)
    decreases cond, 0
  {
    hide TypeTerm, KindTerm, StmtTerm, DeclTerm, TypeOk, KindOk, StmtOk, DeclKindOk;
    match cond
    case CondVar(variable) => DeclFits(sorted, slot, u, variable);
    case CondExpr(expr) => ExprFits(sorted, slot, u, expr);
  }

  lemma {:induction false} StmtFits(sorted: bool, slot: Sort, u: Unit, s: Stmt)
    requires slot != K
    ensures Fits(sorted, slot, StmtTerm(u, s)) <==> StmtOk(sorted, s)
    decreases s, 1
  {
    hide TypeTerm, KindTerm, DeclTerm, TypeOk, KindOk, DeclKindOk;
    match s
    case Break => LeafFits(sorted, slot, "TBreakStmt", STMT);
    case Continue => LeafFits(sorted, slot, "ContinueStmt", STMT);
    case Null => LeafFits(sorted, slot, "NullStmt", STMT);
    case ExprStmt(expr) => ExprFits(sorted, slot, u, expr);
    case If(cond, thn, els) => IfFits(sorted, slot, u, s);
    case For(_, _, _, _) => ForFits(sorted, slot, u, s);
    case While(_, _) => HeadedFits(sorted, slot, u, s);
    case Switch(_, _) => HeadedFits(sorted, slot, u, s);
    case Catch(_, _) => HeadedFits(sorted, slot, u, s);
    case _ => BlockFits(sorted, slot, u, s);
  }

  lemma {:induction false} HeadedFits(sorted: bool, slot: Sort, u: Unit, s: Stmt)
    requires s.While? || s.Switch? || s.Catch?
    ensures Fits(sorted, slot, StmtTerm(u, s)) <==> StmtOk(sorted, s)
    decreases s, 0
  {
    hide TypeTerm, KindTerm, DeclTerm, TypeOk, KindOk, DeclKindOk;
    match s
    case While(cond, loop) =>
      CondFits(sorted, EXPR, u, cond);
      StmtFits(sorted, ASTMT, u, loop);
      FitAfter1(sorted, slot, "WhileAStmt", ASTMT, EXPR, ASTMT, CondTerms(u, cond), StmtTerm(u, loop));
    case Switch(cond, cases) =>
      CondFits(sorted, DECL, u, cond);
      StmtFits(sorted, ASTMT, u, cases);
      FitAfter1(sorted, slot, "SwitchAStmt", ASTMT, DECL, ASTMT, CondTerms(u, cond), StmtTerm(u, cases));
    case Catch(exception, block) =>
      CatchFits(sorted, CATCHDECL, u, exception);
      StmtFits(sorted, ASTMT, u, block);
      FitAfter1(sorted, slot, "CatchAStmt", ASTMT, CATCHDECL, ASTMT, CatchTerms(u, exception), StmtTerm(u, block));
  }

  lemma {:induction false} BlockFits(sorted: bool, slot: Sort, u: Unit, s: Stmt)
    requires s.Compound? || s.Case? || s.Try?
    ensures Fits(sorted, slot, StmtTerm(u, s)) <==> StmtOk(sorted, s)
    decreases s, 0
  {
    hide TypeTerm, KindTerm, DeclTerm, TypeOk, KindOk, DeclKindOk;
    match s
    case Compound(body) =>
      StmtListFits(sorted, u, body);
      Fit1(sorted, slot, "CompoundAStmt", ASTMT, LIST, ListOf(|body|, StmtTerms(u, body)));
    case Case(value, sub) =>
      ExprFits(sorted, EXPR, u, value);
      StmtFits(sorted, ASTMT, u, sub);
      Fit2(sorted, slot, "CaseAStmt", ASTMT, EXPR, ASTMT, ExprTerm(u, value), StmtTerm(u, sub));
    case Try(block, handlers) =>
      StmtFits(sorted, ASTMT, u, block);
      StmtListFits(sorted, u, handlers);
      Fit2(sorted, slot, "TryAStmt", ASTMT, ASTMT, LIST, StmtTerm(u, block), ListOf(|handlers|, StmtTerms(u, handlers)));
  }

  lemma {:induction false} IfFits(sorted: bool, slot: Sort, u: Unit, s: Stmt)
    requires s.If?
    ensures Fits(sorted, slot, StmtTerm(u, s)) <==> StmtOk(sorted, s)
    decreases s, 0
  {
    hide TypeTerm, KindTerm, DeclTerm, TypeOk, KindOk, DeclKindOk;
    var cond := CondTerms(u, s.cond);
    CondFits(sorted, DECL, u, s.cond);
    StmtFits(sorted, ASTMT, u, s.thn);
    StmtOrFits(sorted, ASTMT, u, s.els);
    FitAfter2(sorted, slot, "IfAStmt", ASTMT, DECL, ASTMT, ASTMT, cond, StmtTerm(u, s.thn), StmtOr(u, s.els));
  }

  lemma {:induction false} ForFits(sorted: bool, slot: Sort, u: Unit, s: Stmt)
    requires s.For?
    ensures Fits(sorted, slot, StmtTerm(u, s)) <==> StmtOk(sorted, s)
    decreases s, 0
  {
    hide TypeTerm, KindTerm, DeclTerm, TypeOk, KindOk, DeclKindOk;
    StmtOrFits(sorted, ASTMT, u, s.init);
    ExprOrFits(sorted, AEXPR, u, s.test, "NoExpression", AEXPR);
    ExprOrFits(sorted, AEXPR, u, s.inc, "NoExpression", AEXPR);
    StmtFits(sorted, ASTMT, u, s.loop);
    Fit4(sorted, slot, "ForAStmt", ASTMT, ASTMT, AEXPR, AEXPR, ASTMT, StmtOr(u, s.init), ExprOr(u, s.test, NoExpression()),
         ExprOr(u, s.inc, NoExpression()), StmtTerm(u, s.loop));
  }

  lemma {:induction false} CatchFits(sorted: bool, slot: Sort, u: Unit, exception: Option<Decl>)
    ensures |CatchTerms(u, exception)| == 1 && Fits(sorted, slot, CatchTerms(u, exception)[0]) <==> CatchOk(sorted, exception)
    decreases exception, 0
  {
    hide TypeTerm, KindTerm, StmtTerm, DeclTerm, TypeOk, KindOk, StmtOk, DeclKindOk;
    match exception
    case Some(d) => DeclFits(sorted, slot, u, d);
    case None => LeafFits(sorted, slot, "Ellipsis", CATCHDECL);
  }

  // ----- Declarations -----

  lemma {:induction false} DeclFits(sorted: bool, slot: Sort, u: Unit, d: Decl)
    ensures |DeclTerms(u, d)| == if Excluded(d) then 0 else 1
    ensures !Excluded(d) ==> (Fits(sorted, slot, DeclTerms(u, d)[0]) <==> DeclOk(sorted, d))
    decreases d, 0
  {
    hide TypeTerm, KindTerm, StmtTerm, DeclTerm, TypeOk, KindOk, StmtOk, DeclKindOk;
    if !Excluded(d) {
      DeclKindFits(sorted, slot, u, d.kind);
      LocFits(sorted, CABSLOC, u, d.loc);
      FitWrapped(sorted, slot, [LayerOf("DeclLoc", DECL, [CABSLOC, DECL], [LocTerm(u, d.loc)])], DeclTerm(u, d.kind));
    }
  }

  lemma {:induction false} DeclsFit(sorted: bool, u: Unit, ds: seq<Decl>)
    ensures |AllDeclTerms(u, ds)| == CountIncluded(ds)
    ensures ItemsFit(sorted, AllDeclTerms(u, ds)) <==> ContextOk(sorted, ds)
    decreases ds, 0
  {
    hide TypeTerm, KindTerm, StmtTerm, DeclTerm, TypeOk, KindOk, StmtOk, DeclKindOk;
    if ds != [] {
      var first, rest := ds[0], ds[1..];
      DeclsFit(sorted, u, rest);
      DeclFits(sorted, KITEM, u, first);
      var here := DeclTerms(u, first);
      ItemsFitConcat(sorted, here, AllDeclTerms(u, rest));
      assert ItemsFit(sorted, here) <==> Excluded(first) || DeclOk(sorted, first);
      ContextOkSplit(sorted, ds);
    }
  }

  lemma ContextOkSplit(sorted: bool, ds: seq<Decl>)
    requires ds != []
    ensures ContextOk(sorted, ds) <==> (Excluded(ds[0]) || DeclOk(sorted, ds[0])) && ContextOk(sorted, ds[1..])
  {
    hide TypeTerm, KindTerm, StmtTerm, DeclTerm, TypeOk, KindOk, StmtOk, DeclKindOk;
    assert forall i :: 0 <= i < |ds[1..]| ==> ds[1..][i] == ds[i + 1];
    assert forall i :: 1 <= i < |ds| ==> ds[i] == ds[1..][i - 1];
  }

  /** Counting a list in full is right exactly when nothing in it is excluded. */
  lemma {:induction false} FullCount(ds: seq<Decl>)
    ensures CountIncluded(ds) <= |ds|
    ensures CountIncluded(ds) == |ds| <==> forall i :: 0 <= i < |ds| ==> !Excluded(ds[i])
  {
    if ds != [] {
      FullCount(ds[1..]);
      if CountIncluded(ds) == |ds| {
        forall i | 0 <= i < |ds| ensures !Excluded(ds[i]) {
          assert i > 0 ==> ds[i] == ds[1..][i - 1];
        }
      } else if !Excluded(ds[0]) {
        var j :| 0 <= j < |ds[1..]| && Excluded(ds[1..][j]);
        assert ds[j + 1] == ds[1..][j];
      }
    }
  }

  lemma {:induction false} DeclListFits(sorted: bool, slot: Sort, u: Unit, ds: seq<Decl>)
    ensures Fits(sorted, slot, ListOf(|ds|, AllDeclTerms(u, ds))) <==> AllPresentOk(sorted, ds)
    decreases ds, 1
  {
    hide TypeTerm, KindTerm, StmtTerm, DeclTerm, TypeOk, KindOk, StmtOk, DeclKindOk;
    DeclsFit(sorted, u, ds);
    FullCount(ds);
    FitList(sorted, slot, |ds|, AllDeclTerms(u, ds));
  }

  lemma {:induction false} ContextFits(sorted: bool, slot: Sort, u: Unit, ds: seq<Decl>)
    ensures Fits(sorted, slot, ContextTerm(u, ds)) <==> ContextOk(sorted, ds)
    decreases ds, 1
  {
    hide TypeTerm, KindTerm, StmtTerm, DeclTerm, TypeOk, KindOk, StmtOk, DeclKindOk;
    DeclsFit(sorted, u, ds);
    FitList(sorted, slot, CountIncluded(ds), AllDeclTerms(u, ds));
  }

  lemma {:induction false} ParamListFits(sorted: bool, u: Unit, params: ParamList)
    ensures |ParamListTerms(u, params)| == 1 && Fits(sorted, LIST, ParamListTerms(u, params)[0]) <==> ParamsOk(sorted, params)
    decreases params, 0
  {
    hide TypeTerm, KindTerm, StmtTerm, DeclTerm, TypeOk, KindOk, StmtOk, DeclKindOk;
    if params.Params? {
      DeclListFits(sorted, LIST, u, params.decls);
    }
  }

  lemma {:induction false} QualOrFits(sorted: bool, slot: Sort, u: Unit, q: Option<QualType>)
    ensures Fits(sorted, slot, QualOr(u, q)) <==> MaybeQualOk(sorted, q)
    decreases q, 0
  {
    hide TypeTerm, KindTerm, StmtTerm, DeclTerm, TypeOk, KindOk, StmtOk, DeclKindOk;
    match q
    case Some(ty) => QualFits(sorted, slot, u, ty);
    case None => LeafFits(sorted, slot, "NoType", ATYPERESULT);
  }

  lemma {:induction false} DeclKindFits(sorted: bool, slot: Sort, u: Unit, k: DeclKind)
    ensures DeclTerm(u, k).node.KApply?
    ensures Fits(sorted, slot, DeclTerm(u, k)) <==> DeclKindOk(sorted, k)
    decreases k, 2
  {
    hide TypeTerm, KindTerm, StmtTerm, TypeOk, KindOk, StmtOk;
    if k.Function? || k.Var? || k.Record? {
      MainDeclFits(sorted, slot, u, k);
    } else if IsTemplate(k) {
      TemplateFits(sorted, slot, u, k);
    } else {
      MemberDeclFits(sorted, slot, u, k);
    }
  }

  lemma {:induction false} MainDeclFits(sorted: bool, slot: Sort, u: Unit, k: DeclKind)
    requires k.Function? || k.Var? || k.Record?
    ensures DeclTerm(u, k).node.KApply?
    ensures Fits(sorted, slot, DeclTerm(u, k)) <==> DeclKindOk(sorted, k)
    decreases k, 1
  {
    hide TypeTerm, KindTerm, StmtTerm, TypeOk, KindOk, StmtOk;
    match k
    case Function(f) => FunctionFits(sorted, slot, u, f);
    case Var(v) => VarFits(sorted, slot, u, v);
    case Record(r) => RecordFits(sorted, slot, u, r);
  }

  lemma {:induction false} MemberDeclFits(sorted: bool, slot: Sort, u: Unit, k: DeclKind)
    requires k.Field? || k.EnumDef? || k.OpaqueEnum? || k.EnumConstant? || k.AccessSpec? || k.TranslationUnit?
    ensures DeclTerm(u, k).node.KApply?
    ensures Fits(sorted, slot, DeclTerm(u, k)) <==> DeclKindOk(sorted, k)
    decreases k, 1
  {
    hide TypeTerm, KindTerm, StmtTerm, TypeOk, KindOk, StmtOk;
    match k
    case Field(_, _, _, _, _, _) => FieldFits(sorted, slot, u, k);
    case EnumDef(_, _, _, _, _, _) => EnumFits(sorted, slot, u, k);
    case OpaqueEnum(_, _, _) => OpaqueEnumFits(sorted, slot, u, k);
    case EnumConstant(_, _) => EnumConstantFits(sorted, slot, u, k);
    case AccessSpec(_) => AccessSpecFits(sorted, slot, u, k);
    case TranslationUnit(_) => TranslationUnitFits(sorted, slot, u, k);
  }

  lemma {:induction false} OpaqueEnumFits(sorted: bool, slot: Sort, u: Unit, k: DeclKind)
    requires k.OpaqueEnum?
    ensures DeclTerm(u, k).node.KApply?
    ensures Fits(sorted, slot, DeclTerm(u, k)) <==> DeclKindOk(sorted, k)
    decreases k, 0
  {
    hide TypeTerm, KindTerm, StmtTerm, TypeOk, KindOk, StmtOk;
    NameFits(sorted, CID, u, k.name);
    TokensFit(sorted, u, k.scoped, 0, "");
    QualFits(sorted, ATYPE, u, k.ty);
    Fit3(sorted, slot, "OpaqueEnumDeclaration", DECL, CID, BOOL, ATYPE, NameTerm(u, k.name), BoolToken(k.scoped), QualTerm(u, k.ty));
  }

  lemma {:induction false} EnumConstantFits(sorted: bool, slot: Sort, u: Unit, k: DeclKind)
    requires k.EnumConstant?
    ensures DeclTerm(u, k).node.KApply?
    ensures Fits(sorted, slot, DeclTerm(u, k)) <==> DeclKindOk(sorted, k)
    decreases k, 0
  {
    hide TypeTerm, KindTerm, StmtTerm, TypeOk, KindOk, StmtOk;
    NameFits(sorted, CID, u, k.name);
    ExprOrFits(sorted, AEXPR, u, k.init, "NoExpression", AEXPR);
    Fit2(sorted, slot, "Enumerator", ENUMERATOR, CID, AEXPR, NameTerm(u, k.name), ExprOr(u, k.init, NoExpression()));
  }

  lemma {:induction false} AccessSpecFits(sorted: bool, slot: Sort, u: Unit, k: DeclKind)
    requires k.AccessSpec?
    ensures DeclTerm(u, k).node.KApply?
    ensures Fits(sorted, slot, DeclTerm(u, k)) <==> DeclKindOk(sorted, k)
    decreases k, 0
  {
    hide TypeTerm, KindTerm, StmtTerm, TypeOk, KindOk, StmtOk;
    LeafFits(sorted, ACCESSSPECIFIER, k.access, ACCESSSPECIFIER);
    Fit1(sorted, slot, "AccessSpec", DECL, ACCESSSPECIFIER, Leaf(k.access, ACCESSSPECIFIER));
  }

  lemma {:induction false} TranslationUnitFits(sorted: bool, slot: Sort, u: Unit, k: DeclKind)
    requires k.TranslationUnit?
    ensures DeclTerm(u, k).node.KApply?
    ensures Fits(sorted, slot, DeclTerm(u, k)) <==> DeclKindOk(sorted, k)
    decreases k, 0
  {
    hide TypeTerm, KindTerm, StmtTerm, TypeOk, KindOk, StmtOk;
    ContextFits(sorted, LIST, u, k.decls);
    UnitTermFits(sorted, slot, u, ContextTerm(u, k.decls));
  }

  lemma {:induction false} FieldFits(sorted: bool, slot: Sort, u: Unit, k: DeclKind)
    requires k.Field?
    ensures DeclTerm(u, k).node.KApply?
    ensures Fits(sorted, slot, DeclTerm(u, k)) <==> DeclKindOk(sorted, k)
    decreases k, 0
  {
    hide TypeTerm, KindTerm, StmtTerm, TypeOk, KindOk, StmtOk;
    NestedFits(sorted, NNS, u, k.scope);
    NameFits(sorted, CID, u, k.name);
    QualFits(sorted, ATYPE, u, k.ty);
    if k.width.Some? {
      ExprFits(sorted, EXPR, u, k.width.value);
      FieldTermFits(sorted, slot, k.isMutable, "BitFieldDecl", EXPR, NestedTerm(u, k.scope), NameTerm(u, k.name),
                    QualTerm(u, k.ty), ExprTerm(u, k.width.value));
    } else {
      ExprOrFits(sorted, INIT, u, k.init, "NoInit", INIT);
      FieldTermFits(sorted, slot, k.isMutable, "FieldDecl", INIT, NestedTerm(u, k.scope), NameTerm(u, k.name),
                    QualTerm(u, k.ty), ExprOr(u, k.init, NoInit()));
    }
  }

  lemma {:induction false} EnumFits(sorted: bool, slot: Sort, u: Unit, k: DeclKind)
    requires k.EnumDef?
    ensures DeclTerm(u, k).node.KApply?
    ensures Fits(sorted, slot, DeclTerm(u, k)) <==> DeclKindOk(sorted, k)
    decreases k, 0
  {
    hide TypeTerm, KindTerm, StmtTerm, TypeOk, KindOk, StmtOk;
    NameFits(sorted, CID, u, k.name);
    TokensFit(sorted, u, k.scoped, 0, "");
    TokensFit(sorted, u, k.isFixed, 0, "");
    NestedFits(sorted, NNS, u, k.scope);
    QualFits(sorted, ATYPE, u, k.ty);
    ContextFits(sorted, LIST, u, k.decls);
    Fit6(sorted, slot, "EnumDef", DECL, CID, NNS, BOOL, BOOL, ATYPE, LIST, NameTerm(u, k.name), NestedTerm(u, k.scope),
         BoolToken(k.scoped), BoolToken(k.isFixed), QualTerm(u, k.ty), ContextTerm(u, k.decls));
  }

  lemma {:induction false} VarFits(sorted: bool, slot: Sort, u: Unit, v: VarDecl)
    ensures VarTerm(u, v).node.KApply?
    ensures Fits(sorted, slot, VarTerm(u, v)) <==> VarOk(sorted, v)
    decreases v, 0
  {
    hide TypeTerm, KindTerm, StmtTerm, DeclTerm, TypeOk, KindOk, StmtOk, DeclKindOk;
    NestedFits(sorted, NNS, u, v.scope);
    NameFits(sorted, CID, u, v.name);
    QualFits(sorted, ATYPE, u, v.ty);
    ExprOrFits(sorted, INIT, u, v.init, "NoInit", INIT);
    VarTermFits(sorted, slot, u, v, NestedTerm(u, v.scope), NameTerm(u, v.name), QualTerm(u, v.ty), ExprOr(u, v.init, NoInit()));
  }

  lemma {:induction false} BaseListFits(sorted: bool, slot: Sort, u: Unit, bs: seq<Base>)
    ensures Fits(sorted, slot, ListOf(|bs|, BaseTerms(u, bs))) <==> BasesOk(sorted, bs)
    decreases bs, 0
  {
    hide TypeTerm, KindTerm, StmtTerm, DeclTerm, TypeOk, KindOk, StmtOk, DeclKindOk;
    var ts := BaseTerms(u, bs);
    forall i | 0 <= i < |bs| ensures Fits(sorted, KITEM, ts[i]) <==> BaseOk(sorted, bs[i]) {
      BaseFits(sorted, KITEM, u, bs[i]);
    }
    FitList(sorted, slot, |bs|, ts);
  }

  lemma {:induction false} BaseFits(sorted: bool, slot: Sort, u: Unit, b: Base)
    ensures Fits(sorted, slot, BaseTerm(u, b)) <==> BaseOk(sorted, b)
    decreases b, 0
  {
    hide TypeTerm, KindTerm, StmtTerm, DeclTerm, TypeOk, KindOk, StmtOk, DeclKindOk;
    TokensFit(sorted, u, b.isVirtual, 0, "");
    TokensFit(sorted, u, b.pack, 0, "");
    LeafFits(sorted, ACCESSSPECIFIER, b.access, ACCESSSPECIFIER);
    QualFits(sorted, ATYPE, u, b.ty);
    Fit4(sorted, slot, "BaseClass", BASESPECIFIER, BOOL, BOOL, ACCESSSPECIFIER, ATYPE, BoolToken(b.isVirtual),
         BoolToken(b.pack), Leaf(b.access, ACCESSSPECIFIER), QualTerm(u, b.ty));
  }

  lemma {:induction false} RecordFits(sorted: bool, slot: Sort, u: Unit, r: RecordDecl)
    ensures RecordTerm(u, r).node.KApply?
    ensures Fits(sorted, slot, RecordTerm(u, r)) <==> RecordOk(sorted, r)
    decreases r, 1
  {
    hide TypeTerm, KindTerm, StmtTerm, DeclTerm, TypeOk, KindOk, StmtOk, DeclKindOk;
    if r.complete {
      ClassDefFits(sorted, slot, u, r);
    } else {
      ClassDeclFits(sorted, slot, u, r);
    }
  }

  lemma {:induction false} ClassDefFits(sorted: bool, slot: Sort, u: Unit, r: RecordDecl)
    requires r.complete
    ensures RecordTerm(u, r).node.KApply?
    ensures Fits(sorted, slot, RecordTerm(u, r)) <==> RecordOk(sorted, r)
    decreases r, 0
  {
    hide TypeTerm, KindTerm, StmtTerm, DeclTerm, TypeOk, KindOk, StmtOk, DeclKindOk;
    TagFits(sorted, TAG, r.tag);
    NameFits(sorted, CID, u, r.name);
    NestedFits(sorted, NNS, u, r.scope);
    BaseListFits(sorted, LIST, u, r.bases);
    ContextFits(sorted, LIST, u, r.decls);
    TokensFit(sorted, u, r.anonymous, 0, "");
    Fit6(sorted, slot, "ClassDef", DECL, TAG, CID, NNS, LIST, LIST, BOOL, TagTerm(r.tag), NameTerm(u, r.name),
         NestedTerm(u, r.scope), ListOf(|r.bases|, BaseTerms(u, r.bases)), ContextTerm(u, r.decls), BoolToken(r.anonymous));
  }

  lemma {:induction false} ClassDeclFits(sorted: bool, slot: Sort, u: Unit, r: RecordDecl)
    requires !r.complete
    ensures RecordTerm(u, r).node.KApply?
    ensures Fits(sorted, slot, RecordTerm(u, r)) <==> RecordOk(sorted, r)
    decreases r, 0
  {
    hide TypeTerm, KindTerm, StmtTerm, DeclTerm, TypeOk, KindOk, StmtOk, DeclKindOk;
    TagFits(sorted, TAG, r.tag);
    NameFits(sorted, CID, u, r.name);
    NestedFits(sorted, NNS, u, r.scope);
    Fit3(sorted, ATYPE, "ElaboratedTypeSpecifier", ATYPE, TAG, CID, NNS, TagTerm(r.tag), NameTerm(u, r.name), NestedTerm(u, r.scope));
    Fit1(sorted, slot, "TypeDecl", DECL, ATYPE, Apply("ElaboratedTypeSpecifier", ATYPE, [TAG, CID, NNS],
         [TagTerm(r.tag), NameTerm(u, r.name), NestedTerm(u, r.scope)]));
  }

  // ----- Templates -----

  lemma {:induction false} InstancesFit(sorted: bool, u: Unit, xs: seq<Instance>)
    ensures |InstanceTerms(u, xs)| <= CountInstances(xs)
    ensures |InstanceTerms(u, xs)| == CountInstances(xs) && ItemsFit(sorted, InstanceTerms(u, xs)) <==> InstancesOk(sorted, xs)
    decreases xs, 0
  {
    hide TypeTerm, KindTerm, StmtTerm, DeclTerm, TypeOk, KindOk, StmtOk, DeclKindOk;
    if xs != [] {
      InstancesFit(sorted, u, xs[1..]);
      InstanceFits(sorted, u, xs[0]);
      ItemsFitConcat(sorted, OneInstanceTerms(u, xs[0]), InstanceTerms(u, xs[1..]));
      InstancesOkSplit(sorted, xs);
    }
  }

  lemma InstancesOkSplit(sorted: bool, xs: seq<Instance>)
    requires xs != []
    ensures InstancesOk(sorted, xs) <==> InstanceOk(sorted, xs[0]) && InstancesOk(sorted, xs[1..])
  {
    hide TypeTerm, KindTerm, StmtTerm, DeclTerm, TypeOk, KindOk, StmtOk, DeclKindOk;
    assert forall i :: 0 <= i < |xs[1..]| ==> xs[1..][i] == xs[i + 1];
    assert forall i :: 1 <= i < |xs| ==> xs[i] == xs[1..][i - 1];
  }

  lemma {:induction false} InstanceFits(sorted: bool, u: Unit, x: Instance)
    ensures var here, count := OneInstanceTerms(u, x), if IsInstantiation(x.kind) then 1 else 0;
            |here| <= count && (|here| == count && ItemsFit(sorted, here) <==> InstanceOk(sorted, x))
    decreases x, 0
  {
    hide TypeTerm, KindTerm, StmtTerm, DeclTerm, TypeOk, KindOk, StmtOk, DeclKindOk;
    if IsInstantiation(x.kind) {
      DeclFits(sorted, KITEM, u, x.decl);
    }
  }

  lemma {:induction false} TemplateFits(sorted: bool, slot: Sort, u: Unit, k: DeclKind)
    requires IsTemplate(k)
    ensures TemplateTerm(u, k).node.KApply?
    ensures Fits(sorted, slot, TemplateTerm(u, k)) <==> DeclKindOk(sorted, k)
    decreases k, 0, 1
  {
    hide TypeTerm, KindTerm, StmtTerm, DeclTerm, TypeOk, KindOk, StmtOk;
    match k
    case Template(_, _, _) => TemplateDeclFits(sorted, slot, u, k);
    case TypeParam(_, _, _, _) => TypeParamFits(sorted, slot, u, k);
    case ValueParam(_, _, _, _, _) => ValueParamFits(sorted, slot, u, k);
    case TemplateParam(_, _, _, _) => TemplateParamFits(sorted, slot, u, k);
    case ClassSpecialization(_, _, _) => SpecializationFits(sorted, slot, u, k);
    case PartialSpecialization(_, _, _) => PartialSpecializationFits(sorted, slot, u, k);
  }

  lemma {:induction false} TypeParamFits(sorted: bool, slot: Sort, u: Unit, k: DeclKind)
    requires k.TypeParam?
    ensures TemplateTerm(u, k).node.KApply?
    ensures Fits(sorted, slot, TemplateTerm(u, k)) <==> DeclKindOk(sorted, k)
    decreases k, 0, 0
  {
    hide TypeTerm, KindTerm, StmtTerm, DeclTerm, TypeOk, KindOk, StmtOk;
    TokensFit(sorted, u, k.isTypename, 0, "");
    TokensFit(sorted, u, k.pack, 0, "");
    QualOrFits(sorted, ATYPE, u, k.declared);
    QualOrFits(sorted, ATYPE, u, k.default);
    Fit4(sorted, slot, "TypeTemplateParam", TEMPLATEPARAMETER, BOOL, BOOL, ATYPE, ATYPE, BoolToken(k.isTypename), BoolToken(k.pack),
         QualOr(u, k.declared), QualOr(u, k.default));
  }

  lemma {:induction false} ValueParamFits(sorted: bool, slot: Sort, u: Unit, k: DeclKind)
    requires k.ValueParam?
    ensures TemplateTerm(u, k).node.KApply?
    ensures Fits(sorted, slot, TemplateTerm(u, k)) <==> DeclKindOk(sorted, k)
    decreases k, 0, 0
  {
    hide TypeTerm, KindTerm, StmtTerm, DeclTerm, TypeOk, KindOk, StmtOk;
    NestedFits(sorted, NNS, u, k.scope);
    NameFits(sorted, CID, u, k.name);
    QualFits(sorted, ATYPE, u, k.ty);
    ExprOrFits(sorted, AEXPR, u, k.init, "NoExpression", AEXPR);
    ValueParamTermFits(sorted, slot, u, k.pack, NestedTerm(u, k.scope), NameTerm(u, k.name), QualTerm(u, k.ty),
                       ExprOr(u, k.init, NoExpression()));
  }

  lemma {:induction false} TemplateDeclFits(sorted: bool, slot: Sort, u: Unit, k: DeclKind)
    requires k.Template?
    ensures TemplateTerm(u, k).node.KApply?
    ensures Fits(sorted, slot, TemplateTerm(u, k)) <==> DeclKindOk(sorted, k)
    decreases k, 0, 0
  {
    hide TypeTerm, KindTerm, StmtTerm, DeclTerm, TypeOk, KindOk, StmtOk;
    var decl, params := DeclTerms(u, k.templated), ParamListTerms(u, k.params);
    var instances := ListOf(CountInstances(k.instances), InstanceTerms(u, k.instances));
    DeclFits(sorted, DECL, u, k.templated);
    ParamListFits(sorted, u, k.params);
    InstancesFit(sorted, u, k.instances);
    FitList(sorted, LIST, CountInstances(k.instances), InstanceTerms(u, k.instances));
    FitTwoOptional(sorted, slot, "TemplateWithInstantiations", DECL, DECL, LIST, LIST, decl, params, instances);
  }

  lemma {:induction false} TemplateParamFits(sorted: bool, slot: Sort, u: Unit, k: DeclKind)
    requires k.TemplateParam?
    ensures TemplateTerm(u, k).node.KApply?
    ensures Fits(sorted, slot, TemplateTerm(u, k)) <==> DeclKindOk(sorted, k)
    decreases k, 0, 0
  {
    hide TypeTerm, KindTerm, StmtTerm, DeclTerm, TypeOk, KindOk, StmtOk;
    var params := ParamListTerms(u, k.params);
    var arg := if k.arg.Some? then ArgTerm(u, k.arg.value) else NoType();
    TokensFit(sorted, u, k.pack, 0, "");
    NameFits(sorted, CID, u, k.name);
    if k.arg.Some? {
      ArgFits(sorted, ATYPE, u, k.arg.value);
    } else {
      LeafFits(sorted, ATYPE, "NoType", ATYPERESULT);
    }
    ParamListFits(sorted, u, k.params);
    FitLastOptional(sorted, slot, "TemplateTemplateParam", TEMPLATEPARAMETER, BOOL, CID, ATYPE, LIST,
                    BoolToken(k.pack), NameTerm(u, k.name), arg, params);
  }

  lemma {:induction false} SpecializationFits(sorted: bool, slot: Sort, u: Unit, k: DeclKind)
    requires k.ClassSpecialization?
    ensures TemplateTerm(u, k).node.KApply?
    ensures Fits(sorted, slot, TemplateTerm(u, k)) <==> DeclKindOk(sorted, k)
    decreases k, 0, 0
  {
    hide TypeTerm, KindTerm, StmtTerm, DeclTerm, TypeOk, KindOk, StmtOk;
    RecordFits(sorted, slot, u, k.r);
    QualOrFits(sorted, ATYPE, u, k.declared);
    FitUnder1(sorted, slot, SpecializationLabel(k.specKind), DECL, ATYPE, DECL, QualOr(u, k.declared), RecordTerm(u, k.r));
  }

  lemma {:induction false} PartialSpecializationFits(sorted: bool, slot: Sort, u: Unit, k: DeclKind)
    requires k.PartialSpecialization?
    ensures TemplateTerm(u, k).node.KApply?
    ensures Fits(sorted, slot, TemplateTerm(u, k)) <==> DeclKindOk(sorted, k)
    decreases k, 0, 0
  {
    hide TypeTerm, KindTerm, StmtTerm, DeclTerm, TypeOk, KindOk, StmtOk;
    RecordFits(sorted, slot, u, k.r);
    DeclListFits(sorted, LIST, u, k.paramDecls);
    ArgListFits(sorted, LIST, u, k.args);
    FitUnder2(sorted, slot, "PartialSpecialization", DECL, LIST, LIST, DECL,
              ListOf(|k.paramDecls|, AllDeclTerms(u, k.paramDecls)), ListOf(|k.args|, ArgTerms(u, k.args)), RecordTerm(u, k.r));
  }

  // ----- Functions -----

  lemma {:induction false} FunctionLayersFit(sorted: bool, u: Unit, f: FunctionDecl)
    ensures AllApply(FunctionLayers(u, f))
    ensures LayersFit(sorted, FunctionLayers(u, f)) <==> (f.specialization.Some? ==> SpecializationOk(sorted, f.specialization.value))
    decreases f, 0, 1
  {
    hide TypeTerm, KindTerm, StmtTerm, DeclTerm, TypeOk, KindOk, StmtOk, DeclKindOk;
    SpecializationLayersFit(sorted, u, f);
    DeclSpecifiersFit(sorted, SpecializationLayers(u, f), f);
  }

  lemma {:induction false} SpecializationLayersFit(sorted: bool, u: Unit, f: FunctionDecl)
    ensures AllApply(SpecializationLayers(u, f))
    ensures LayersFit(sorted, SpecializationLayers(u, f)) <==> (f.specialization.Some? ==> SpecializationOk(sorted, f.specialization.value))
    decreases f, 0, 0
  {
    hide TypeTerm, KindTerm, StmtTerm, DeclTerm, TypeOk, KindOk, StmtOk, DeclKindOk;
    if f.specialization.Some? && IsWrapped(f.specialization.value) {
      var s := f.specialization.value;
      SpecializedNameFits(sorted, ATYPE, u, s);
      OneLayerFits(sorted, SpecializationLabel(s.kind), DECL, ATYPE, DECL, SpecializationTerm(u, s));
    }
  }

  lemma {:induction false} SpecializedNameFits(sorted: bool, slot: Sort, u: Unit, s: FunctionSpecialization)
    requires IsWrapped(s)
    ensures Fits(sorted, slot, SpecializationTerm(u, s)) <==> SpecializationOk(sorted, s)
    decreases s, 0
  {
    hide TypeTerm, KindTerm, StmtTerm, DeclTerm, TypeOk, KindOk, StmtOk, DeclKindOk;
    NameFits(sorted, CID, u, s.template);
    match s.args
    case Args(args) =>
      ArgListFits(sorted, LIST, u, args);
      Fit2(sorted, slot, "TemplateSpecializationType", ATYPE, CID, LIST, NameTerm(u, s.template), ListOf(|args|, ArgTerms(u, args)));
    case NoArgs => Fit1(sorted, slot, "TemplateSpecializationType2", ATYPE, CID, NameTerm(u, s.template));
  }

  lemma {:induction false} MethodLayersFit(sorted: bool, u: Unit, f: FunctionDecl)
    ensures AllApply(MethodLayers(u, f))
    ensures LayersFit(sorted, MethodLayers(u, f)) <==> MethodOk(sorted, f.method_)
    decreases f, 0
  {
    hide TypeTerm, KindTerm, StmtTerm, DeclTerm, TypeOk, KindOk, StmtOk, DeclKindOk;
    match f.method_
    case NotMethod =>
    case StaticMethod =>
    case InstanceMethod(ref, userProvided, thisType, isVirtual, isPure) =>
      QualFits(sorted, ATYPE, u, thisType);
      ThisLayerFits(sorted, u, userProvided, f.role.Constructor?, QualTerm(u, thisType));
      MethodLayersAround(sorted, ref, PrototypeLayer(u, f), isVirtual, isPure, IsExplicit(f.role));
  }

  lemma {:induction false} HeadFits(sorted: bool, u: Unit, f: FunctionDecl)
    ensures AllFit(sorted, [NNS, CID, CID, ATYPE, LIST], HeadTerms(u, f)) <==>
            && NestedOk(sorted, f.scope) && NameOk(sorted, f.name) && QualOk(sorted, f.ty)
            && MethodOk(sorted, f.method_) && AllPresentOk(sorted, f.params)
    decreases f, 1
  {
    hide TypeTerm, KindTerm, StmtTerm, DeclTerm, TypeOk, KindOk, StmtOk, DeclKindOk;
    NestedFits(sorted, NNS, u, f.scope);
    NameFits(sorted, CID, u, f.name);
    IdentifierFits(sorted, CID, u, f.mangled);
    QualFits(sorted, ATYPE, u, f.ty);
    MethodLayersFit(sorted, u, f);
    FitWrap(sorted, ATYPE, MethodLayers(u, f), QualTerm(u, f.ty));
    DeclListFits(sorted, LIST, u, f.params);
    AllFit5(sorted, NNS, CID, CID, ATYPE, LIST, NestedTerm(u, f.scope), NameTerm(u, f.name), IdentifierTerm(u, f.mangled),
            Wrap(MethodLayers(u, f), QualTerm(u, f.ty)), ListOf(|f.params|, AllDeclTerms(u, f.params)));
  }

  lemma {:induction false} InitsFit(sorted: bool, u: Unit, xs: seq<CtorInit>)
    ensures |InitTerms(u, xs)| == CountWritten(xs)
    ensures ItemsFit(sorted, InitTerms(u, xs)) <==> InitsOk(sorted, xs)
    decreases xs, 0
  {
    hide TypeTerm, KindTerm, StmtTerm, DeclTerm, TypeOk, KindOk, StmtOk, DeclKindOk;
    if xs != [] {
      InitsFit(sorted, u, xs[1..]);
      var here := if xs[0].written then [InitTerm(u, xs[0])] else [];
      ItemsFitConcat(sorted, here, InitTerms(u, xs[1..]));
      if xs[0].written {
        InitFits(sorted, KITEM, u, xs[0]);
        assert ItemsFit(sorted, here) <==> Fits(sorted, KITEM, here[0]);
      }
      InitsOkSplit(sorted, xs);
    }
  }

  lemma InitsOkSplit(sorted: bool, xs: seq<CtorInit>)
    requires xs != []
    ensures InitsOk(sorted, xs) <==> (xs[0].written ==> InitOk(sorted, xs[0])) && InitsOk(sorted, xs[1..])
  {
    hide TypeTerm, KindTerm, StmtTerm, DeclTerm, TypeOk, KindOk, StmtOk, DeclKindOk;
    assert forall i :: 0 <= i < |xs[1..]| ==> xs[1..][i] == xs[i + 1];
    assert forall i :: 1 <= i < |xs| ==> xs[i] == xs[1..][i - 1];
  }

  lemma {:induction false} BaseInitFits(sorted: bool, slot: Sort, u: Unit, init: CtorInit)
    requires init.BaseInit?
    ensures Fits(sorted, slot, InitTerm(u, init)) <==> InitOk(sorted, init)
    decreases init, 0
  {
    hide TypeTerm, KindTerm, StmtTerm, DeclTerm, TypeOk, KindOk, StmtOk, DeclKindOk;
    QualFits(sorted, ATYPE, u, init.ty);
    TokensFit(sorted, u, init.isVirtual, 0, "");
    TokensFit(sorted, u, init.pack, 0, "");
    ExprFits(sorted, INIT, u, init.init);
    Fit4(sorted, slot, "ConstructorBase", CTORINIT, ATYPE, BOOL, BOOL, INIT, QualTerm(u, init.ty), BoolToken(init.isVirtual),
         BoolToken(init.pack), ExprTerm(u, init.init));
  }

  lemma {:induction false} InitFits(sorted: bool, slot: Sort, u: Unit, init: CtorInit)
    ensures Fits(sorted, slot, InitTerm(u, init)) <==> InitOk(sorted, init)
    decreases init, 1
  {
    hide TypeTerm, KindTerm, StmtTerm, DeclTerm, TypeOk, KindOk, StmtOk, DeclKindOk;
    match init
    case BaseInit(_, _, _, _, _) => BaseInitFits(sorted, slot, u, init);
    case MemberInit(_, name, e) =>
      NameFits(sorted, CID, u, name);
      ExprFits(sorted, INIT, u, e);
      Fit2(sorted, slot, "ConstructorMember", CTORINIT, CID, INIT, NameTerm(u, name), ExprTerm(u, e));
    case DelegatingInit(_, e) =>
      ExprFits(sorted, INIT, u, e);
      Fit1(sorted, slot, "ConstructorDelegating", CTORINIT, INIT, ExprTerm(u, e));
  }

  lemma {:induction false} ClosingFits(sorted: bool, slot: Sort, u: Unit, f: FunctionDecl)
    requires slot != K
    ensures |ClosingTerms(u, f)| == Closings(f)
    ensures Closings(f) == 1 ==> (Fits(sorted, slot, ClosingTerms(u, f)[0]) <==> (f.isDefinition ==> MaybeStmtOk(sorted, f.body)))
    decreases f, 0
  {
    hide TypeTerm, KindTerm, StmtTerm, DeclTerm, TypeOk, KindOk, StmtOk, DeclKindOk;
    LeafFits(sorted, slot, "Defaulted", STMT);
    LeafFits(sorted, slot, "Deleted", STMT);
    if f.body.Some? {
      StmtFits(sorted, slot, u, f.body.value);
    }
  }

  /** The children past the head are one statement that fits, exactly when the function is closed by
      one statement and the initializers and the body fit. */
  lemma {:induction false} EndFits(sorted: bool, u: Unit, f: FunctionDecl)
    requires IsDefinitionForm(f)
    ensures |EndTerms(u, f)| == 1 && Fits(sorted, ASTMT, EndTerms(u, f)[0]) <==>
            && Closed(f) && RoleOk(sorted, f.isDefinition, f.role) && (f.isDefinition ==> MaybeStmtOk(sorted, f.body))
    decreases f, 1
  {
    hide TypeTerm, KindTerm, StmtTerm, DeclTerm, TypeOk, KindOk, StmtOk, DeclKindOk;
    if f.isDefinition && f.role.Constructor? {
      var inits, closing := ListOf(CountWritten(f.role.inits), InitTerms(u, f.role.inits)), ClosingTerms(u, f);
      ClosingFits(sorted, STMT, u, f);
      InitsFit(sorted, u, f.role.inits);
      FitList(sorted, LIST, CountWritten(f.role.inits), InitTerms(u, f.role.inits));
      FitBefore1(sorted, ASTMT, "Constructor", STMT, LIST, STMT, inits, closing);
    } else {
      ClosingFits(sorted, ASTMT, u, f);
    }
  }

  lemma {:induction false} FunctionFits(sorted: bool, slot: Sort, u: Unit, f: FunctionDecl)
    ensures FunctionTerm(u, f).node.KApply?
    ensures Fits(sorted, slot, FunctionTerm(u, f)) <==> FunctionOk(sorted, f)
    decreases f, 3
  {
    hide TypeTerm, KindTerm, StmtTerm, DeclTerm, TypeOk, KindOk, StmtOk, DeclKindOk;
    var core := Term(FunctionNode(f), HeadTerms(u, f) + EndTerms(u, f));
    FunctionLayersFit(sorted, u, f);
    FitWrap(sorted, slot, FunctionLayers(u, f), core);
    HeadFits(sorted, u, f);
    FunctionCoreFits(sorted, slot, u, f);
  }

  lemma {:induction false} FunctionCoreFits(sorted: bool, slot: Sort, u: Unit, f: FunctionDecl)
    ensures Fits(sorted, slot, Term(FunctionNode(f), HeadTerms(u, f) + EndTerms(u, f))) <==>
            && AllFit(sorted, [NNS, CID, CID, ATYPE, LIST], HeadTerms(u, f))
            && Closed(f) && RoleOk(sorted, f.isDefinition, f.role) && (f.isDefinition ==> MaybeStmtOk(sorted, f.body))
    decreases f, 2
  {
    hide TypeTerm, KindTerm, StmtTerm, DeclTerm, TypeOk, KindOk, StmtOk, DeclKindOk;
    var head, end := HeadTerms(u, f), EndTerms(u, f);
    if IsDefinitionForm(f) {
      EndFits(sorted, u, f);
      FitDefinition(sorted, slot, head, end);
    } else {
      ClosingFits(sorted, ASTMT, u, f);
      FitApply(sorted, slot, "FunctionDecl", DECLARATOR, [NNS, CID, CID, ATYPE, LIST], head + end);
      if end == [] {
        assert head + end == head;
      }
    }
  }
}
