/** The visitor: it walks a syntax tree and appends nodes to the vector as it goes. Every method is
    proved to append exactly the preorder word of the term of its tree. */
module Visitor {
  import opened Wrappers
  import opened Sorts
  import opened Terms
  import opened Tokens
  import opened Decimal
  import opened Printer
  import opened Ast
  import opened Trees
  import opened Growth

  class GetKastVisitor {
    const kast: Kast
    const u: Unit

    constructor (kast: Kast, u: Unit)
      ensures this.kast == kast && this.u == u
    {
      this.kast := kast;
      this.u := u;
    }

    // ----- Building blocks -----

    method Add(klabel: string, sort: Sort, sig: seq<Sort>)
      modifies kast`nodes
      ensures kast.nodes == old(kast.nodes) + [KApply(klabel, sort, sig)]
    {
      kast.Add(KApply(klabel, sort, sig));
    }

    method AddLeaf(klabel: string, sort: Sort)
      modifies kast`nodes
      ensures kast.nodes == old(kast.nodes) + Word(Leaf(klabel, sort))
    {
      Add(klabel, sort, []);
      Grow0(old(kast.nodes), KApply(klabel, sort, []));
    }

    method VisitBool(b: bool)
      modifies kast`nodes
      ensures kast.nodes == old(kast.nodes) + Word(BoolToken(b))
    {
      kast.Add(KToken(BOOL, BoolValue(b)));
      Grow0(old(kast.nodes), KToken(BOOL, BoolValue(b)));
    }

    method VisitUnsigned(n: nat)
      modifies kast`nodes
      ensures kast.nodes == old(kast.nodes) + Word(IntToken(n))
    {
      kast.Add(KToken(INT, Numeral(n)));
      Grow0(old(kast.nodes), KToken(INT, Numeral(n)));
    }

    method VisitString(s: Bytes)
      modifies kast`nodes
      ensures kast.nodes == old(kast.nodes) + Word(StringToken(u, s))
    {
      kast.Add(KToken(STRING, StringValue(u.kore, s)));
      Grow0(old(kast.nodes), KToken(STRING, StringValue(u.kore, s)));
    }

    /** KSeqList: announces a list of n items; the items are still to come. */
    method KSeqList(n: nat)
      modifies kast`nodes
      ensures kast.nodes == old(kast.nodes) + [TO_LIST] + [KSequence(n)]
    {
      Add("kSeqToList", LIST, [K]);
      kast.Add(KSequence(n));
    }

    /** List: the same, marked strict. */
    method StrictList(n: nat)
      modifies kast`nodes
      ensures kast.nodes == old(kast.nodes) + [KApply("list", STRICTLIST, [LIST])] + [TO_LIST] + [KSequence(n)]
    {
      Add("list", STRICTLIST, [LIST]);
      KSeqList(n);
    }

    /** CabsLoc. */
    method CabsLoc(loc: Loc)
      modifies kast`nodes
      ensures kast.nodes == old(kast.nodes) + Word(LocTerm(u, loc))
    {
      hide TypeTerm, KindTerm, StmtTerm, DeclTerm;
      match loc
      case UnknownLoc => AddLeaf("UnknownCabsLoc_COMMON-SYNTAX", CABSLOC);
      case Loc(file, absolute, line, column, system) =>
        Add("CabsLoc", CABSLOC, [STRING, STRING, INT, INT, BOOL]);
        VisitString(file);
        VisitString(absolute);
        VisitUnsigned(line);
        VisitUnsigned(column);
        VisitBool(system);
        Grow5(old(kast.nodes), LocTerm(u, loc).node, StringToken(u, file), StringToken(u, absolute), IntToken(line),
              IntToken(column), BoolToken(system));
    }

    /** Identifier. */
    method Identifier(id: Bytes)
      modifies kast`nodes
      ensures kast.nodes == old(kast.nodes) + Word(IdentifierTerm(u, id))
    {
      hide TypeTerm, KindTerm, StmtTerm, DeclTerm;
      Add("Identifier", CID, [STRING]);
      VisitString(id);
      Grow1(old(kast.nodes), KApply("Identifier", CID, [STRING]), StringToken(u, id));
    }

    /** TraverseIdentifierInfo. */
    method TraverseIdentifierInfo(id: Option<Bytes>, decl: nat)
      modifies kast`nodes
      ensures kast.nodes == old(kast.nodes) + Word(IdTerm(u, id, decl))
    {
      hide TypeTerm, KindTerm, StmtTerm, DeclTerm;
      match id
      case Some(name) => Identifier(name);
      case None =>
        if decl == 0 {
          AddLeaf("#NoName_COMMON-SYNTAX", NONAME);
        } else {
          Add("unnamed", UNNAMEDCID, [INT, STRING]);
          VisitUnsigned(decl);
          VisitString(u.inFile);
          Grow2(old(kast.nodes), KApply("unnamed", UNNAMEDCID, [INT, STRING]), IntToken(decl), StringToken(u, u.inFile));
        }
    }

    /** VisitTagKind. */
    method VisitTagKind(tag: TagKind)
      modifies kast`nodes
      ensures kast.nodes == old(kast.nodes) + Word(TagTerm(tag))
    {
      hide TypeTerm, KindTerm, StmtTerm, DeclTerm;
      match tag
      case StructTag => AddLeaf("Struct", CLASSKEY);
      case UnionTag => AddLeaf("Union", CLASSKEY);
      case ClassTag => AddLeaf("Class", CLASSKEY);
      case EnumTag => AddLeaf("Enum", TAG);
    }

    /** Specifier: the declaration it applies to is still to come. */
    method Specifier(klabel: string, sort: Sort)
      modifies kast`nodes
      ensures kast.nodes == old(kast.nodes) + LayersWord([SpecifierLayer(klabel, sort)])
    {
      Add("Specifier", DECL, [SPECIFIER, DECL]);
      AddLeaf(klabel, sort);
      OneLayer(old(kast.nodes), SpecifierLayer(klabel, sort));
      WordsSingle(Leaf(klabel, sort));
    }

    /** StorageClass. */
    method StorageClass(storage: StorageClass)
      modifies kast`nodes
      ensures kast.nodes == old(kast.nodes) + LayersWord(StorageLayers(storage))
    {
      match storage
      case NoStorage => NoLayers(kast.nodes);
      case Extern => Specifier("Extern", STORAGECLASSSPECIFIER);
      case Static => Specifier("Static", STORAGECLASSSPECIFIER);
      case Register => Specifier("Register", STORAGECLASSSPECIFIER);
      case AutoStorage => Specifier("Auto", AUTOSPECIFIER);
    }

    method SpecifierIf(b: bool, klabel: string, sort: Sort)
      modifies kast`nodes
      ensures kast.nodes == old(kast.nodes) + LayersWord(When(b, SpecifierLayer(klabel, sort)))
    {
      if b {
        Specifier(klabel, sort);
      } else {
        NoLayers(kast.nodes);
      }
    }

    // ----- Types and names -----

    method QualifierIf(b: bool, name: string)
      modifies kast`nodes
      ensures kast.nodes == old(kast.nodes) + LayersWord(When(b, LayerOf("Qualifier", ATYPE, [QUALIFIER, ATYPE], [Leaf(name, QUALIFIER)])))
    {
      if b {
        Add("Qualifier", ATYPE, [QUALIFIER, ATYPE]);
        AddLeaf(name, QUALIFIER);
        OneLayer(old(kast.nodes), LayerOf("Qualifier", ATYPE, [QUALIFIER, ATYPE], [Leaf(name, QUALIFIER)]));
        WordsSingle(Leaf(name, QUALIFIER));
      } else {
        NoLayers(kast.nodes);
      }
    }

    /** Qualifiers. */
    method Qualifiers(q: QualType)
      modifies kast`nodes
      ensures kast.nodes == old(kast.nodes) + LayersWord(QualifierLayers(q))
    {
      ghost var v := kast.nodes;
      QualifierIf(q.isConst, "Const");
      QualifierIf(q.isVolatile, "Volatile");
      QualifierIf(q.isRestrict, "Restrict");
      ghost var layer := (name: string) => LayerOf("Qualifier", ATYPE, [QUALIFIER, ATYPE], [Leaf(name, QUALIFIER)]);
      LayersConcat(v, When(q.isConst, layer("Const")), When(q.isVolatile, layer("Volatile")));
      LayersConcat(v, When(q.isConst, layer("Const")) + When(q.isVolatile, layer("Volatile")), When(q.isRestrict, layer("Restrict")));
    }

    /** TraverseType. */
    method TraverseType(q: QualType)
      modifies kast`nodes
      ensures kast.nodes == old(kast.nodes) + Word(QualTerm(u, q))
      decreases q, 0
    {
      hide TypeTerm, KindTerm, StmtTerm, DeclTerm;
      Qualifiers(q);
      TraverseUnqualified(q.ty);
      GrowWrap(old(kast.nodes), QualifierLayers(q), TypeTerm(u, q.ty));
    }

    method TraverseTypes(xs: seq<QualType>)
      modifies kast`nodes
      ensures kast.nodes == old(kast.nodes) + Words(QualTerms(u, xs))
      decreases xs, 0
    {
      hide TypeTerm, KindTerm, StmtTerm, DeclTerm;
      ghost var v, ts := kast.nodes, QualTerms(u, xs);
      KidsStart(v, ts);
      for i := 0 to |xs|
        invariant kast.nodes == v + Words(ts[..i])
      {
        TraverseType(xs[i]);
        KidsStep(v, ts, i);
      }
    }

    /** A list of known length: its announcement and its items. */
    method StrictTypeList(xs: seq<QualType>)
      modifies kast`nodes
      ensures kast.nodes == old(kast.nodes) + Word(StrictListOf(|xs|, QualTerms(u, xs)))
      decreases xs, 1
    {
      hide TypeTerm, KindTerm, StmtTerm, DeclTerm;
      ghost var v := kast.nodes;
      StrictList(|xs|);
      TraverseTypes(xs);
      GrowList(v + [KApply("list", STRICTLIST, [LIST])], |xs|, QualTerms(u, xs));
      Grow1(v, KApply("list", STRICTLIST, [LIST]), ListOf(|xs|, QualTerms(u, xs)));
    }

    /** The traversals of types other than their qualifiers. */
    method TraverseUnqualified(t: Type)
      modifies kast`nodes
      ensures kast.nodes == old(kast.nodes) + Word(TypeTerm(u, t))
      decreases t, 1
    {
      hide KindTerm, StmtTerm, DeclTerm;
      match t
      case Builtin(specifier) =>
        Add("BuiltinType", ATYPE, [TYPESPECIFIER]);
        AddLeaf(specifier, TYPESPECIFIER);
        Grow1(old(kast.nodes), TypeTerm(u, t).node, Leaf(specifier, TYPESPECIFIER));
      case Pointer(_) => TraverseArray(t);
      case ConstantArray(_, _) => TraverseArray(t);
      case SizedArray(_, _) => TraverseArray(t);
      case IncompleteArray(_) => TraverseArray(t);
      case Prototype(_, _, _, _) => TraversePrototype(t);
      case TagType(_) => TraverseNamedType(t);
      case ParamType(_) => TraverseNamedType(t);
      case SpecializedType(_, _) => TraverseNamedType(t);
      case Substituted(replacement) => TraverseType(replacement);
      case Auto(Some(deduced), _) => TraverseType(deduced);
      case Auto(None, isDecltype) =>
        Add("AutoType", ATYPE, [BOOL]);
        VisitBool(isDecltype);
        Grow1(old(kast.nodes), TypeTerm(u, t).node, BoolToken(isDecltype));
    }

    /** VisitPointerType and TraverseArrayHelper. */
    method TraverseArray(t: Type)
      requires t.Pointer? || t.ConstantArray? || t.SizedArray? || t.IncompleteArray?
      modifies kast`nodes
      ensures kast.nodes == old(kast.nodes) + Word(TypeTerm(u, t))
      decreases t, 0
    {
      hide KindTerm, StmtTerm, DeclTerm;
      match t
      case Pointer(pointee) =>
        Add("PointerType", ATYPE, [ATYPE]);
        TraverseType(pointee);
        Grow1(old(kast.nodes), TypeTerm(u, t).node, QualTerm(u, pointee));
      case ConstantArray(element, size) =>
        Add("ArrayType", ATYPE, [ATYPE, INT]);
        TraverseType(element);
        VisitUnsigned(size);
        Grow2(old(kast.nodes), TypeTerm(u, t).node, QualTerm(u, element), IntToken(size));
      case SizedArray(element, sizeExpr) =>
        Add("ArrayTypeAExpr", ATYPE, [ATYPE, AEXPR]);
        TraverseType(element);
        TraverseExpr(sizeExpr);
        Grow2(old(kast.nodes), TypeTerm(u, t).node, QualTerm(u, element), ExprTerm(u, sizeExpr));
      case IncompleteArray(element) =>
        Add("ArrayTypeAExpr", ATYPE, [ATYPE, AEXPR]);
        TraverseType(element);
        AddLeaf("NoExpression", AEXPR);
        Grow2(old(kast.nodes), TypeTerm(u, t).node, QualTerm(u, element), NoExpression());
    }

    /** The types that are written by a name. */
    method TraverseNamedType(t: Type)
      requires t.TagType? || t.ParamType? || t.SpecializedType?
      modifies kast`nodes
      ensures kast.nodes == old(kast.nodes) + Word(TypeTerm(u, t))
      decreases t, 0
    {
      hide KindTerm, StmtTerm, DeclTerm;
      match t
      case TagType(name) =>
        Add("Name", NAME, [NNS, CID]);
        AddLeaf("NoNNS", NNS);
        TraverseDeclarationName(name);
        Grow2(old(kast.nodes), TypeTerm(u, t).node, Leaf("NoNNS", NNS), NameTerm(u, name));
      case ParamType(id) =>
        Add("TemplateParameterType", ATYPE, [CID]);
        TraverseIdentifierInfo(id, 0);
        Grow1(old(kast.nodes), TypeTerm(u, t).node, IdTerm(u, id, 0));
      case SpecializedType(template, args) =>
        Add("TemplateSpecializationType", ATYPE, [CID, LIST]);
        TraverseDeclarationName(template);
        ArgumentList(args);
        Grow2(old(kast.nodes), TypeTerm(u, t).node, NameTerm(u, template), ListOf(|args|, ArgTerms(u, args)));
    }

    /** TraverseFunctionProtoType. */
    method TraversePrototype(t: Type)
      requires t.Prototype?
      modifies kast`nodes
      ensures kast.nodes == old(kast.nodes) + Word(TypeTerm(u, t))
      decreases t, 0
    {
      hide KindTerm, StmtTerm, DeclTerm;
      Add("FunctionPrototype", ATYPE, [ATYPE, STRICTLIST, EXCEPTIONSPEC, BOOL]);
      TraverseType(t.ret);
      StrictTypeList(t.params);
      TraverseExceptions(t.exceptions);
      VisitBool(t.variadic);
      Grow4(old(kast.nodes), TypeTerm(u, t).node, QualTerm(u, t.ret), StrictListOf(|t.params|, QualTerms(u, t.params)),
            ExceptionsTerm(u, t.exceptions), BoolToken(t.variadic));
    }

    method TraverseExceptions(spec: ExceptionSpec)
      modifies kast`nodes
      ensures kast.nodes == old(kast.nodes) + Word(ExceptionsTerm(u, spec))
      decreases spec, 0
    {
      hide TypeTerm, KindTerm, StmtTerm, DeclTerm;
      match spec
      case NoSpec => AddLeaf("NoExceptionSpec", EXCEPTIONSPEC);
      case BasicNoexcept =>
        Add("NoexceptSpec", EXCEPTIONSPEC, [AEXPR]);
        AddLeaf("NoExpression", AEXPR);
        Grow1(old(kast.nodes), ExceptionsTerm(u, spec).node, NoExpression());
      case ComputedNoexcept(cond) =>
        Add("NoexceptSpec", EXCEPTIONSPEC, [AEXPR]);
        TraverseExpr(cond);
        Grow1(old(kast.nodes), ExceptionsTerm(u, spec).node, ExprTerm(u, cond));
      case DynamicNone =>
        Add("ThrowSpec", EXCEPTIONSPEC, [STRICTLIST]);
        ghost var v := kast.nodes;
        StrictList(0);
        assert kast.nodes + Words([]) == kast.nodes;
        GrowList(v + [KApply("list", STRICTLIST, [LIST])], 0, []);
        Grow1(v, KApply("list", STRICTLIST, [LIST]), ListOf(0, []));
        Grow1(old(kast.nodes), ExceptionsTerm(u, spec).node, StrictListOf(0, []));
      case Dynamic(thrown) =>
        Add("ThrowSpec", EXCEPTIONSPEC, [STRICTLIST]);
        StrictTypeList(thrown);
        Grow1(old(kast.nodes), ExceptionsTerm(u, spec).node, StrictListOf(|thrown|, QualTerms(u, thrown)));
    }

    /** TraverseDeclarationName. */
    method TraverseDeclarationName(name: DeclName)
      modifies kast`nodes
      ensures kast.nodes == old(kast.nodes) + Word(NameTerm(u, name))
      decreases name, 0
    {
      hide TypeTerm, KindTerm, StmtTerm, DeclTerm;
      match name
      case Ident(id, decl) => TraverseIdentifierInfo(id, decl);
      case TypeName(ty) =>
        Add("TypeId", TYPEID, [ATYPE]);
        TraverseType(ty);
        Grow1(old(kast.nodes), NameTerm(u, name).node, QualTerm(u, ty));
      case DestructorName(ty) =>
        Add("DestructorTypeId", DESTRUCTORID, [ATYPE]);
        TraverseType(ty);
        Grow1(old(kast.nodes), NameTerm(u, name).node, QualTerm(u, ty));
      case OperatorName(spelling) => AddLeaf("operator" + spelling + "_CPP-SYNTAX", OPID);
    }

    /** TraverseNestedNameSpecifier. */
    method TraverseNested(scope: Nested)
      modifies kast`nodes
      ensures kast.nodes == old(kast.nodes) + Word(NestedTerm(u, scope))
      decreases scope, 0
    {
      hide TypeTerm, KindTerm, StmtTerm, DeclTerm;
      match scope
      case Unqualified => AddLeaf("NoNNS", NNS);
      case Nested(prefix, spec) =>
        if prefix.Nested? {
          Add("NestedName", NNS, [NNS, NNSSPECIFIER]);
          TraverseNested(prefix);
        }
        TraverseNestedSpec(spec);
        if prefix.Nested? {
          Grow2(old(kast.nodes), NestedTerm(u, scope).node, NestedTerm(u, prefix), NestedSpecTerm(u, spec));
        }
    }

    method TraverseNestedSpec(spec: NestedSpec)
      modifies kast`nodes
      ensures kast.nodes == old(kast.nodes) + Word(NestedSpecTerm(u, spec))
      decreases spec, 0
    {
      hide TypeTerm, KindTerm, StmtTerm, DeclTerm;
      match spec
      case NameSpec(name) =>
        Add("NNS", NNSSPECIFIER, [CID]);
        TraverseDeclarationName(name);
        Grow1(old(kast.nodes), NestedSpecTerm(u, spec).node, NameTerm(u, name));
      case TypeSpec(ty) =>
        Add("NNS", NNSSPECIFIER, [CID]);
        TraverseType(ty);
        Grow1(old(kast.nodes), NestedSpecTerm(u, spec).node, QualTerm(u, ty));
      case TemplateTypeSpec(ty) =>
        Add("TemplateNNS", NNSSPECIFIER, [CID]);
        TraverseType(ty);
        Grow1(old(kast.nodes), NestedSpecTerm(u, spec).node, QualTerm(u, ty));
      case GlobalSpec => AddLeaf("GlobalNamespace", NAMESPACE);
    }

    /** TraverseTemplateArgument. */
    method TraverseTemplateArgument(arg: TemplateArg)
      modifies kast`nodes
      ensures kast.nodes == old(kast.nodes) + Word(ArgTerm(u, arg))
      decreases arg, 0
    {
      hide TypeTerm, KindTerm, StmtTerm, DeclTerm;
      match arg
      case TypeArg(ty) =>
        Add("TypeArg", TEMPLATEARGUMENT, [ATYPE]);
        TraverseType(ty);
        Grow1(old(kast.nodes), ArgTerm(u, arg).node, QualTerm(u, ty));
      case NameArg(name) =>
        Add("TemplateArg", TEMPLATEARGUMENT, [CID]);
        TraverseDeclarationName(name);
        Grow1(old(kast.nodes), ArgTerm(u, arg).node, NameTerm(u, name));
      case ExprArg(expr) =>
        Add("ExprArg", TEMPLATEARGUMENT, [EXPR]);
        TraverseExpr(expr);
        Grow1(old(kast.nodes), ArgTerm(u, arg).node, ExprTerm(u, expr));
      case IntegralArg(value, ty) =>
        Add("ExprArg", TEMPLATEARGUMENT, [EXPR]);
        IntegerLiteral(value, ty);
        Grow1(old(kast.nodes), ArgTerm(u, arg).node, IntegerTerm(u, value, ty));
      case PackArg(args) =>
        Add("PackArg", TEMPLATEARGUMENT, [LIST]);
        ArgumentList(args);
        Grow1(old(kast.nodes), ArgTerm(u, arg).node, ListOf(|args|, ArgTerms(u, args)));
    }

    method IntegerLiteral(value: nat, ty: QualType)
      modifies kast`nodes
      ensures kast.nodes == old(kast.nodes) + Word(IntegerTerm(u, value, ty))
      decreases ty, 1
    {
      hide TypeTerm, KindTerm, StmtTerm, DeclTerm;
      Add("IntegerLiteral", EXPR, [INT, ATYPE]);
      VisitUnsigned(value);
      TraverseType(ty);
      Grow2(old(kast.nodes), IntegerTerm(u, value, ty).node, IntToken(value), QualTerm(u, ty));
    }

    method ArgumentList(xs: seq<TemplateArg>)
      modifies kast`nodes
      ensures kast.nodes == old(kast.nodes) + Word(ListOf(|xs|, ArgTerms(u, xs)))
      decreases xs, 0
    {
      hide TypeTerm, KindTerm, StmtTerm, DeclTerm;
      ghost var v, ts := kast.nodes, ArgTerms(u, xs);
      KSeqList(|xs|);
      ghost var w := kast.nodes;
      KidsStart(w, ts);
      for i := 0 to |xs|
        invariant kast.nodes == w + Words(ts[..i])
      {
        TraverseTemplateArgument(xs[i]);
        KidsStep(w, ts, i);
      }
      GrowList(v, |xs|, ts);
    }

    // ----- Expressions -----

    /** TraverseStmt on an expression: all but default arguments get a location. */
    method TraverseExpr(e: Expr)
      modifies kast`nodes
      ensures kast.nodes == old(kast.nodes) + Word(ExprTerm(u, e))
      decreases e, 0
    {
      hide TypeTerm, KindTerm, StmtTerm, DeclTerm;
      match e
      case DefaultArg =>
        kast.Add(KSequence(0));
        Grow0(old(kast.nodes), KSequence(0));
      case Expr(loc, kind) =>
        ghost var layer := LayerOf("ExprLoc", EXPRLOC, [CABSLOC, KITEM], [LocTerm(u, loc)]);
        Add("ExprLoc", EXPRLOC, [CABSLOC, KITEM]);
        CabsLoc(loc);
        OneLayer(old(kast.nodes), layer);
        WordsSingle(LocTerm(u, loc));
        TraverseKind(kind);
        GrowWrap(old(kast.nodes), [layer], KindTerm(u, kind));
    }

    method ExprList(xs: seq<Expr>)
      modifies kast`nodes
      ensures kast.nodes == old(kast.nodes) + Word(ListOf(|xs|, ExprTerms(u, xs)))
      decreases xs, 0
    {
      hide TypeTerm, KindTerm, StmtTerm, DeclTerm;
      ghost var v, ts := kast.nodes, ExprTerms(u, xs);
      KSeqList(|xs|);
      ghost var w := kast.nodes;
      KidsStart(w, ts);
      for i := 0 to |xs|
        invariant kast.nodes == w + Words(ts[..i])
      {
        TraverseExpr(xs[i]);
        KidsStep(w, ts, i);
      }
      GrowList(v, |xs|, ts);
    }

    method ExprOrLeaf(e: Option<Expr>, klabel: string, sort: Sort)
      modifies kast`nodes
      ensures kast.nodes == old(kast.nodes) + Word(ExprOr(u, e, Leaf(klabel, sort)))
      decreases e, 0
    {
      match e
      case Some(x) => TraverseExpr(x);
      case None => AddLeaf(klabel, sort);
    }

    method TraverseLookup(e: ExprKind)
      requires e.Lookup? || e.Member?
      modifies kast`nodes
      ensures kast.nodes == old(kast.nodes) + Word(Apply("Name", NAME, [NNS, CID], [NestedTerm(u, e.scope), NameTerm(u, e.name)]))
      decreases e, 0, 0
    {
      hide TypeTerm, KindTerm, StmtTerm, DeclTerm;
      Add("Name", NAME, [NNS, CID]);
      TraverseNested(e.scope);
      TraverseDeclarationName(e.name);
      Grow2(old(kast.nodes), KApply("Name", NAME, [NNS, CID]), NestedTerm(u, e.scope), NameTerm(u, e.name));
    }

    /** The traversals of expressions other than calls and the like. */
    method TraverseKind(e: ExprKind)
      modifies kast`nodes
      ensures kast.nodes == old(kast.nodes) + Word(KindTerm(u, e))
      decreases e, 1
    {
      hide TypeTerm, StmtTerm, DeclTerm;
      match e
      case IntegerLit(value, ty) => IntegerLiteral(value, ty);
      case BoolLit(b) =>
        Add("BoolLiteral", EXPR, [BOOL]);
        VisitBool(b);
        Grow1(old(kast.nodes), KindTerm(u, e).node, BoolToken(b));
      case NullPtrLit => AddLeaf("NullPointerLiteral", EXPR);
      case StringLit(charKind, bytes) =>
        Add("StringLiteral", EXPR, [CHARKIND, STRING]);
        AddLeaf(charKind, CHARKIND);
        VisitString(bytes);
        Grow2(old(kast.nodes), KindTerm(u, e).node, Leaf(charKind, CHARKIND), StringToken(u, bytes));
      case This => AddLeaf("This", THIS);
      case Lookup(_, _) => TraverseLookup(e);
      case Member(_, _, _, _, _) => TraverseMember(e);
      case Call(_, _) => TraverseCall(e);
      case OverloadedCall => AddLeaf("OverloadedCall", EXPR);
      case OneOperand(_, _) => TraverseOperatorCall(e);
      case TwoOperands(_, _, _) => TraverseOperatorCall(e);
      case Construction(_, _, _) => TraverseConstruct(e);
      case ConstructorCall(_, _, _) => TraverseConstructorCall(e);
      case New(_, _, _, _, _) => TraverseNew(e);
      case Lambda(_, _, _, _, _) => TraverseLambda(e);
      case InitList(inits) =>
        Add("BraceInit", BRACEINIT, [LIST]);
        ExprList(inits);
        Grow1(old(kast.nodes), KindTerm(u, e).node, ListOf(|inits|, ExprTerms(u, inits)));
    }

    /** TraverseMemberHelper with an explicit base. */
    method TraverseMember(e: ExprKind)
      requires e.Member?
      modifies kast`nodes
      ensures kast.nodes == old(kast.nodes) + Word(KindTerm(u, e))
      decreases e, 0, 1
    {
      hide TypeTerm, StmtTerm, DeclTerm;
      Add("MemberExpr", EXPR, [BOOL, BOOL, NAME, EXPR]);
      VisitBool(e.arrow);
      VisitBool(e.templated);
      TraverseLookup(e);
      TraverseExpr(e.base);
      Grow4(old(kast.nodes), KindTerm(u, e).node, BoolToken(e.arrow), BoolToken(e.templated),
            Apply("Name", NAME, [NNS, CID], [NestedTerm(u, e.scope), NameTerm(u, e.name)]), ExprTerm(u, e.base));
    }

    /** TraverseCallExpr: the callee, then the announced arguments, then an empty result list. */
    method TraverseCall(e: ExprKind)
      requires e.Call?
      modifies kast`nodes
      ensures kast.nodes == old(kast.nodes) + Word(KindTerm(u, e))
      decreases e, 0
    {
      hide TypeTerm, StmtTerm, DeclTerm;
      ghost var v := kast.nodes;
      Add("CallExpr", RESOLVEDEXPR, [EXPR, STRICTLIST, STRICTLISTRESULT]);
      TraverseExpr(e.callee);
      StrictExprList(e.args);
      KrList();
      Grow3(v, KindTerm(u, e).node, ExprTerm(u, e.callee), StrictListOf(|e.args|, ExprTerms(u, e.args)),
            Apply("krlist", STRICTLISTRESULT, [LIST], [Leaf(".List", LIST)]));
    }

    method KrList()
      modifies kast`nodes
      ensures kast.nodes == old(kast.nodes) + Word(Apply("krlist", STRICTLISTRESULT, [LIST], [Leaf(".List", LIST)]))
    {
      Add("krlist", STRICTLISTRESULT, [LIST]);
      AddLeaf(".List", LIST);
      Grow1(old(kast.nodes), KApply("krlist", STRICTLISTRESULT, [LIST]), Leaf(".List", LIST));
    }

    method StrictExprList(xs: seq<Expr>)
      modifies kast`nodes
      ensures kast.nodes == old(kast.nodes) + Word(StrictListOf(|xs|, ExprTerms(u, xs)))
      decreases xs, 1
    {
      hide TypeTerm, KindTerm, StmtTerm, DeclTerm;
      Add("list", STRICTLIST, [LIST]);
      ExprList(xs);
      Grow1(old(kast.nodes), KApply("list", STRICTLIST, [LIST]), ListOf(|xs|, ExprTerms(u, xs)));
    }

    /** TraverseCXXOperatorCallExpr: the form depends on the operator and the number of arguments. */
    method TraverseOperatorCall(e: ExprKind)
      requires e.OneOperand? || e.TwoOperands?
      modifies kast`nodes
      ensures kast.nodes == old(kast.nodes) + Word(KindTerm(u, e))
      decreases e, 0, 1
    {
      hide TypeTerm, StmtTerm, DeclTerm;
      var op := if e.OneOperand? then e.one else e.two;
      var numArgs := if e.OneOperand? then 1 else 2;
      var first := if e.OneOperand? then e.operand else e.left;
      match op
      case EitherOp(s) =>
        if numArgs == 2 {
          BinaryOperator(s, e);
        } else {
          UnaryOperator(s, first);
        }
      case IncrementOp => UnaryOperator(if numArgs == 2 then "_++" else "++_", first);
      case DecrementOp => UnaryOperator(if numArgs == 2 then "_--" else "--_", first);
      case BinaryOp(s) => BinaryOperator(s, e);
      case UnaryOp(s) => UnaryOperator(s, first);
    }

    method UnaryOperator(s: string, x: Expr)
      modifies kast`nodes
      ensures kast.nodes == old(kast.nodes) + Word(UnaryTerm(s, ExprTerm(u, x)))
      decreases x, 2
    {
      hide TypeTerm, KindTerm, StmtTerm, DeclTerm;
      Add("UnaryOperator", EXPR, [OPID, EXPR]);
      AddLeaf("operator" + s + "_CPP-SYNTAX", OPID);
      TraverseExpr(x);
      Grow2(old(kast.nodes), KApply("UnaryOperator", EXPR, [OPID, EXPR]), OperatorLeaf(s), ExprTerm(u, x));
    }

    method BinaryOperator(s: string, e: ExprKind)
      requires e.TwoOperands?
      modifies kast`nodes
      ensures kast.nodes == old(kast.nodes) + Word(OperatorTerm(BinaryForm(s), ExprTerm(u, e.left), ExprTerm(u, e.right)))
      decreases e, 0, 0
    {
      hide TypeTerm, KindTerm, StmtTerm, DeclTerm;
      Add("BinaryOperator", EXPR, [OPID, EXPR, INIT]);
      AddLeaf("operator" + s + "_CPP-SYNTAX", OPID);
      TraverseExpr(e.left);
      TraverseExpr(e.right);
      Grow3(old(kast.nodes), KApply("BinaryOperator", EXPR, [OPID, EXPR, INIT]), OperatorLeaf(s),
            ExprTerm(u, e.left), ExprTerm(u, e.right));
    }

    /** The construction traversals, which share TraverseCXXConstructHelper. */
    method TraverseConstruct(e: ExprKind)
      requires e.Construction?
      modifies kast`nodes
      ensures kast.nodes == old(kast.nodes) + Word(KindTerm(u, e))
      decreases e, 0
    {
      hide TypeTerm, StmtTerm, DeclTerm;
      Add(ConstructionLabel(e.form), EXPR, [ATYPE, LIST]);
      TraverseType(e.ty);
      ExprList(e.args);
      Grow2(old(kast.nodes), KindTerm(u, e).node, QualTerm(u, e.ty), ListOf(|e.args|, ExprTerms(u, e.args)));
    }

    /** TraverseCXXConstructExpr. */
    method TraverseConstructorCall(e: ExprKind)
      requires e.ConstructorCall?
      modifies kast`nodes
      ensures kast.nodes == old(kast.nodes) + Word(KindTerm(u, e))
      decreases e, 0
    {
      hide TypeTerm, StmtTerm, DeclTerm;
      Add("ConstructorCall", INIT, [BOOL, ATYPE, LIST]);
      VisitBool(e.zeroInit);
      TraverseType(e.ty);
      ExprList(e.args);
      Grow3(old(kast.nodes), KindTerm(u, e).node, BoolToken(e.zeroInit), QualTerm(u, e.ty), ListOf(|e.args|, ExprTerms(u, e.args)));
    }

    /** TraverseCXXNewExpr. */
    method TraverseNew(e: ExprKind)
      requires e.New?
      modifies kast`nodes
      ensures kast.nodes == old(kast.nodes) + Word(KindTerm(u, e))
      decreases e, 0
    {
      hide TypeTerm, StmtTerm, DeclTerm;
      Add("NewExpr", EXPR, [BOOL, ATYPE, AEXPR, INIT, LIST]);
      VisitBool(e.global);
      TraverseType(e.ty);
      ExprOrLeaf(e.count, "NoExpression", AEXPR);
      ExprOrLeaf(e.init, "NoInit", INIT);
      ExprList(e.placement);
      Grow5(old(kast.nodes), KindTerm(u, e).node, BoolToken(e.global), QualTerm(u, e.ty), ExprOr(u, e.count, NoExpression()),
            ExprOr(u, e.init, NoInit()), ListOf(|e.placement|, ExprTerms(u, e.placement)));
    }

    /** TraverseLambdaExpr: it counts the explicit captures of one range and emits those of another. */
    method TraverseLambda(e: ExprKind)
      requires e.Lambda?
      modifies kast`nodes
      ensures kast.nodes == old(kast.nodes) + Word(KindTerm(u, e))
      decreases e, 0
    {
      hide TypeTerm, StmtTerm, DeclTerm;
      ghost var v := kast.nodes;
      Add("Lambda", EXPR, [CAPTUREDEFAULT, LIST, ATYPE, ASTMT]);
      AddLeaf(e.capDefault, CAPTUREDEFAULT);
      CaptureList(e.captures, e.explicitEnd);
      TraverseType(e.ty);
      TraverseStmt(e.body);
      Grow4(v, KindTerm(u, e).node, Leaf(e.capDefault, CAPTUREDEFAULT),
            ListOf(CountExplicit(e.captures, e.explicitEnd), CaptureTerms(u, e.captures)), QualTerm(u, e.ty), StmtTerm(u, e.body));
    }

    /** The counting loop of TraverseLambdaExpr. */
    method CountCaptures(captures: seq<Capture>, explicitEnd: nat) returns (count: nat)
      ensures count == CountExplicit(captures, explicitEnd)
    {
      count := 0;
      var i := 0;
      while i < explicitEnd && i < |captures|
        invariant i <= explicitEnd && i <= |captures|
        invariant count + CountExplicit(captures[i..], explicitEnd - i) == CountExplicit(captures, explicitEnd)
      {
        if captures[i].isExplicit {
          count := count + 1;
        }
        assert captures[i..][1..] == captures[i + 1..];
        i := i + 1;
      }
    }

    method CaptureList(xs: seq<Capture>, explicitEnd: nat)
      modifies kast`nodes
      ensures kast.nodes == old(kast.nodes) + Word(ListOf(CountExplicit(xs, explicitEnd), CaptureTerms(u, xs)))
      decreases xs, 0
    {
      hide TypeTerm, KindTerm, StmtTerm, DeclTerm;
      ghost var v := kast.nodes;
      var count := CountCaptures(xs, explicitEnd);
      KSeqList(count);
      ghost var w := kast.nodes;
      for i := 0 to |xs|
        invariant kast.nodes + Words(CaptureTerms(u, xs[i..])) == w + Words(CaptureTerms(u, xs))
      {
        ghost var here, before := if xs[i].isExplicit then [CaptureTerm(u, xs[i])] else [], kast.nodes;
        assert xs[i..][1..] == xs[i + 1..];
        if xs[i].isExplicit {
          TraverseCapture(xs[i]);
          Kids1(before, CaptureTerm(u, xs[i]));
        } else {
          assert kast.nodes + Words(here) == kast.nodes;
        }
        KidsConcat(before, here, CaptureTerms(u, xs[i + 1..]));
      }
      assert kast.nodes + Words(CaptureTerms(u, xs[|xs|..])) == kast.nodes;
      GrowList(v, count, CaptureTerms(u, xs));
    }

    /** TraverseLambdaCapture. */
    method TraverseCapture(c: Capture)
      modifies kast`nodes
      ensures kast.nodes == old(kast.nodes) + Word(CaptureTerm(u, c))
      decreases c, 0
    {
      hide TypeTerm, KindTerm, StmtTerm, DeclTerm;
      ghost var v := kast.nodes;
      Add("LambdaCapture", CAPTURE, [CAPTUREKIND, BOOL]);
      TraverseCaptured(c.what);
      VisitBool(c.pack);
      GrowAfter1(v, KApply("LambdaCapture", CAPTURE, [CAPTUREKIND, BOOL]), CapturedTerms(u, c.what), BoolToken(c.pack));
    }

    method TraverseCaptured(what: Captured)
      modifies kast`nodes
      ensures kast.nodes == old(kast.nodes) + Words(CapturedTerms(u, what))
      decreases what, 0
    {
      hide TypeTerm, KindTerm, StmtTerm, DeclTerm;
      ghost var v := kast.nodes;
      match what
      case CaptureThis =>
        AddLeaf("This", THIS);
        Kids1(v, Leaf("This", THIS));
      case CaptureRef(variable) =>
        Add("RefCapture", CAPTUREKIND, [DECL]);
        TraverseDecl(variable);
        Grow(v, KApply("RefCapture", CAPTUREKIND, [DECL]), DeclTerms(u, variable));
        Kids1(v, Apply("RefCapture", CAPTUREKIND, [DECL], DeclTerms(u, variable)));
      case CaptureCopy(variable) => TraverseDecl(variable);
    }

    // ----- Statements -----

    method StmtList(xs: seq<Stmt>)
      modifies kast`nodes
      ensures kast.nodes == old(kast.nodes) + Word(ListOf(|xs|, StmtTerms(u, xs)))
      decreases xs, 0
    {
      hide TypeTerm, KindTerm, StmtTerm, DeclTerm;
      ghost var v, ts := kast.nodes, StmtTerms(u, xs);
      KSeqList(|xs|);
      ghost var w := kast.nodes;
      KidsStart(w, ts);
      for i := 0 to |xs|
        invariant kast.nodes == w + Words(ts[..i])
      {
        TraverseStmt(xs[i]);
        KidsStep(w, ts, i);
      }
      GrowList(v, |xs|, ts);
    }

    method TraverseCond(cond: Cond)
      modifies kast`nodes
      ensures kast.nodes == old(kast.nodes) + Words(CondTerms(u, cond))
      decreases cond, 0
    {
      hide TypeTerm, KindTerm, StmtTerm, DeclTerm;
      match cond
      case CondVar(variable) => TraverseDecl(variable);
      case CondExpr(expr) =>
        TraverseExpr(expr);
        Kids1(old(kast.nodes), ExprTerm(u, expr));
    }

    method StmtOrNone(s: Option<Stmt>)
      modifies kast`nodes
      ensures kast.nodes == old(kast.nodes) + Word(StmtOr(u, s))
      decreases s, 0
    {
      match s
      case Some(x) => TraverseStmt(x);
      case None => AddLeaf("NoStatement", ASTMT);
    }

    /** The statement traversals. */
    method TraverseStmt(s: Stmt)
      modifies kast`nodes
      ensures kast.nodes == old(kast.nodes) + Word(StmtTerm(u, s))
      decreases s, 1
    {
      hide TypeTerm, KindTerm, DeclTerm;
      ghost var v := kast.nodes;
      match s
      case Break => AddLeaf("TBreakStmt", STMT);
      case Continue => AddLeaf("ContinueStmt", STMT);
      case Null => AddLeaf("NullStmt", STMT);
      case ExprStmt(expr) => TraverseExpr(expr);
      case Compound(body) =>
        Add("CompoundAStmt", ASTMT, [LIST]);
        StmtList(body);
        Grow1(v, StmtTerm(u, s).node, ListOf(|body|, StmtTerms(u, body)));
      case If(_, _, _) => TraverseIf(s);
      case For(_, _, _, _) => TraverseFor(s);
      case While(cond, loop) =>
        Add("WhileAStmt", ASTMT, [EXPR, ASTMT]);
        TraverseCond(cond);
        TraverseStmt(loop);
        GrowAfter1(v, StmtTerm(u, s).node, CondTerms(u, cond), StmtTerm(u, loop));
      case Switch(cond, cases) =>
        Add("SwitchAStmt", ASTMT, [DECL, ASTMT]);
        TraverseCond(cond);
        TraverseStmt(cases);
        GrowAfter1(v, StmtTerm(u, s).node, CondTerms(u, cond), StmtTerm(u, cases));
      case Case(value, sub) =>
        Add("CaseAStmt", ASTMT, [EXPR, ASTMT]);
        TraverseExpr(value);
        TraverseStmt(sub);
        Grow2(v, StmtTerm(u, s).node, ExprTerm(u, value), StmtTerm(u, sub));
      case Try(block, handlers) =>
        Add("TryAStmt", ASTMT, [ASTMT, LIST]);
        TraverseStmt(block);
        StmtList(handlers);
        Grow2(v, StmtTerm(u, s).node, StmtTerm(u, block), ListOf(|handlers|, StmtTerms(u, handlers)));
      case Catch(exception, block) =>
        Add("CatchAStmt", ASTMT, [CATCHDECL, ASTMT]);
        TraverseException(exception);
        TraverseStmt(block);
        GrowAfter1(v, StmtTerm(u, s).node, CatchTerms(u, exception), StmtTerm(u, block));
    }

    method TraverseIf(s: Stmt)
      requires s.If?
      modifies kast`nodes
      ensures kast.nodes == old(kast.nodes) + Word(StmtTerm(u, s))
      decreases s, 0
    {
      hide TypeTerm, KindTerm, DeclTerm;
      Add("IfAStmt", ASTMT, [DECL, ASTMT, ASTMT]);
      TraverseCond(s.cond);
      TraverseStmt(s.thn);
      StmtOrNone(s.els);
      GrowAfter2(old(kast.nodes), StmtTerm(u, s).node, CondTerms(u, s.cond), StmtTerm(u, s.thn), StmtOr(u, s.els));
    }

    method TraverseFor(s: Stmt)
      requires s.For?
      modifies kast`nodes
      ensures kast.nodes == old(kast.nodes) + Word(StmtTerm(u, s))
      decreases s, 0
    {
      hide TypeTerm, KindTerm, DeclTerm;
      Add("ForAStmt", ASTMT, [ASTMT, AEXPR, AEXPR, ASTMT]);
      StmtOrNone(s.init);
      ExprOrLeaf(s.test, "NoExpression", AEXPR);
      ExprOrLeaf(s.inc, "NoExpression", AEXPR);
      TraverseStmt(s.loop);
      Grow4(old(kast.nodes), StmtTerm(u, s).node, StmtOr(u, s.init), ExprOr(u, s.test, NoExpression()),
            ExprOr(u, s.inc, NoExpression()), StmtTerm(u, s.loop));
    }

    method TraverseException(exception: Option<Decl>)
      modifies kast`nodes
      ensures kast.nodes == old(kast.nodes) + Words(CatchTerms(u, exception))
      decreases exception, 0
    {
      hide TypeTerm, KindTerm, StmtTerm, DeclTerm;
      match exception
      case Some(d) => TraverseDecl(d);
      case None =>
        AddLeaf("Ellipsis", CATCHDECL);
        Kids1(old(kast.nodes), Leaf("Ellipsis", CATCHDECL));
    }

    // ----- Declarations -----

    /** TraverseDecl: nothing for an excluded declaration. */
    method TraverseDecl(d: Decl)
      modifies kast`nodes
      ensures kast.nodes == old(kast.nodes) + Words(DeclTerms(u, d))
      decreases d, 0
    {
      hide TypeTerm, KindTerm, StmtTerm, DeclTerm;
      ghost var v := kast.nodes;
      if Excluded(d) {
        assert v + Words([]) == v;
        return;
      }
      ghost var layer := LayerOf("DeclLoc", DECL, [CABSLOC, DECL], [LocTerm(u, d.loc)]);
      Add("DeclLoc", DECL, [CABSLOC, DECL]);
      CabsLoc(d.loc);
      OneLayer(v, layer);
      WordsSingle(LocTerm(u, d.loc));
      TraverseDeclKind(d.kind);
      GrowWrap(v, [layer], DeclTerm(u, d.kind));
      Kids1(v, Wrap([layer], DeclTerm(u, d.kind)));
    }

    method TraverseDecls(xs: seq<Decl>)
      modifies kast`nodes
      ensures kast.nodes == old(kast.nodes) + Words(AllDeclTerms(u, xs))
      decreases xs, 0
    {
      hide TypeTerm, KindTerm, StmtTerm, DeclTerm;
      ghost var v := kast.nodes;
      for i := 0 to |xs|
        invariant kast.nodes + Words(AllDeclTerms(u, xs[i..])) == v + Words(AllDeclTerms(u, xs))
      {
        assert xs[i..][1..] == xs[i + 1..];
        KidsConcat(kast.nodes, DeclTerms(u, xs[i]), AllDeclTerms(u, xs[i + 1..]));
        TraverseDecl(xs[i]);
      }
      assert kast.nodes + Words(AllDeclTerms(u, xs[|xs|..])) == kast.nodes;
    }

    /** A list of declarations under its full length, excluded or not. */
    method DeclList(xs: seq<Decl>)
      modifies kast`nodes
      ensures kast.nodes == old(kast.nodes) + Word(ListOf(|xs|, AllDeclTerms(u, xs)))
      decreases xs, 1
    {
      hide TypeTerm, KindTerm, StmtTerm, DeclTerm;
      ghost var v := kast.nodes;
      KSeqList(|xs|);
      TraverseDecls(xs);
      GrowList(v, |xs|, AllDeclTerms(u, xs));
    }

    /** The counting loop of DeclContext. */
    method CountDecls(xs: seq<Decl>) returns (count: nat)
      ensures count == CountIncluded(xs)
    {
      count := 0;
      for i := 0 to |xs|
        invariant count + CountIncluded(xs[i..]) == CountIncluded(xs)
      {
        assert xs[i..][1..] == xs[i + 1..];
        if !Excluded(xs[i]) {
          count := count + 1;
        }
      }
    }

    /** DeclContext and TraverseDeclContextNode. */
    method DeclContext(xs: seq<Decl>)
      modifies kast`nodes
      ensures kast.nodes == old(kast.nodes) + Word(ContextTerm(u, xs))
      decreases xs, 1
    {
      hide TypeTerm, KindTerm, StmtTerm, DeclTerm;
      ghost var v := kast.nodes;
      var count := CountDecls(xs);
      KSeqList(count);
      TraverseDecls(xs);
      GrowList(v, count, AllDeclTerms(u, xs));
    }

    method ParameterList(params: ParamList)
      modifies kast`nodes
      ensures kast.nodes == old(kast.nodes) + Words(ParamListTerms(u, params))
      decreases params, 0
    {
      hide TypeTerm, KindTerm, StmtTerm, DeclTerm;
      match params
      case NoParams => assert kast.nodes + Words([]) == kast.nodes;
      case Params(ds) =>
        DeclList(ds);
        Kids1(old(kast.nodes), ListOf(|ds|, AllDeclTerms(u, ds)));
    }

    method TypeOrNone(q: Option<QualType>)
      modifies kast`nodes
      ensures kast.nodes == old(kast.nodes) + Word(QualOr(u, q))
      decreases q, 0
    {
      match q
      case Some(ty) => TraverseType(ty);
      case None => AddLeaf("NoType", ATYPERESULT);
    }

    /** The counting loop of TraverseTemplateInstantiations. */
    method CountInstantiations(xs: seq<Instance>) returns (count: nat)
      ensures count == CountInstances(xs)
    {
      count := 0;
      for i := 0 to |xs|
        invariant count + CountInstances(xs[i..]) == CountInstances(xs)
      {
        assert xs[i..][1..] == xs[i + 1..];
        if IsInstantiation(xs[i].kind) {
          count := count + 1;
        }
      }
    }

    /** TraverseTemplateInstantiations. */
    method TraverseInstantiations(xs: seq<Instance>)
      modifies kast`nodes
      ensures kast.nodes == old(kast.nodes) + Word(ListOf(CountInstances(xs), InstanceTerms(u, xs)))
      decreases xs, 0
    {
      hide TypeTerm, KindTerm, StmtTerm, DeclTerm;
      ghost var v := kast.nodes;
      var count := CountInstantiations(xs);
      KSeqList(count);
      ghost var w := kast.nodes;
      for i := 0 to |xs|
        invariant kast.nodes + Words(InstanceTerms(u, xs[i..])) == w + Words(InstanceTerms(u, xs))
      {
        ghost var here, before := OneInstanceTerms(u, xs[i]), kast.nodes;
        assert xs[i..][1..] == xs[i + 1..];
        if IsInstantiation(xs[i].kind) {
          TraverseInstance(xs[i]);
        } else {
          assert kast.nodes + Words(here) == kast.nodes;
        }
        KidsConcat(before, here, InstanceTerms(u, xs[i + 1..]));
      }
      assert kast.nodes + Words(InstanceTerms(u, xs[|xs|..])) == kast.nodes;
      GrowList(v, count, InstanceTerms(u, xs));
    }

    method TraverseInstance(instance: Instance)
      requires IsInstantiation(instance.kind)
      modifies kast`nodes
      ensures kast.nodes == old(kast.nodes) + Words(OneInstanceTerms(u, instance))
      decreases instance, 0
    {
      hide TypeTerm, KindTerm, StmtTerm, DeclTerm;
      TraverseDecl(instance.decl);
    }

    /** The declaration traversals other than those of templates. */
    method TraverseDeclKind(k: DeclKind)
      modifies kast`nodes
      ensures kast.nodes == old(kast.nodes) + Word(DeclTerm(u, k))
      decreases k, 1
    {
      hide TypeTerm, KindTerm, StmtTerm;
      match k
      case Function(f) => TraverseFunction(f);
      case Var(v) => TraverseVar(v);
      case Field(_, _, _, _, _, _) => TraverseField(k);
      case Record(r) => TraverseRecord(r);
      case OpaqueEnum(_, _, _) => TraverseEnum(k);
      case EnumDef(_, _, _, _, _, _) => TraverseEnum(k);
      case EnumConstant(_, _) => VisitEnumConstant(k);
      case AccessSpec(_) => VisitAccessSpec(k);
      case TranslationUnit(_) => VisitTranslationUnit(k);
      case _ => TraverseTemplate(k);
    }

    /** VisitEnumConstantDecl. */
    method VisitEnumConstant(k: DeclKind)
      requires k.EnumConstant?
      modifies kast`nodes
      ensures kast.nodes == old(kast.nodes) + Word(DeclTerm(u, k))
      decreases k, 0
    {
      hide TypeTerm, KindTerm, StmtTerm;
      Add("Enumerator", ENUMERATOR, [CID, AEXPR]);
      TraverseDeclarationName(k.name);
      ExprOrLeaf(k.init, "NoExpression", AEXPR);
      Grow2(old(kast.nodes), DeclTerm(u, k).node, NameTerm(u, k.name), ExprOr(u, k.init, NoExpression()));
    }

    /** VisitAccessSpecDecl. */
    method VisitAccessSpec(k: DeclKind)
      requires k.AccessSpec?
      modifies kast`nodes
      ensures kast.nodes == old(kast.nodes) + Word(DeclTerm(u, k))
    {
      hide TypeTerm, KindTerm, StmtTerm;
      Add("AccessSpec", DECL, [ACCESSSPECIFIER]);
      AddLeaf(k.access, ACCESSSPECIFIER);
      Grow1(old(kast.nodes), DeclTerm(u, k).node, Leaf(k.access, ACCESSSPECIFIER));
    }

    /** VisitTranslationUnitDecl. */
    method VisitTranslationUnit(k: DeclKind)
      requires k.TranslationUnit?
      modifies kast`nodes
      ensures kast.nodes == old(kast.nodes) + Word(DeclTerm(u, k))
      decreases k, 0
    {
      hide TypeTerm, KindTerm, StmtTerm;
      Add("TranslationUnit", DECL, [STRING, LIST]);
      VisitString(u.inFile);
      DeclContext(k.decls);
      Grow2(old(kast.nodes), DeclTerm(u, k).node, StringToken(u, u.inFile), ContextTerm(u, k.decls));
    }

    /** TraverseFieldDecl. */
    method TraverseField(k: DeclKind)
      requires k.Field?
      modifies kast`nodes
      ensures kast.nodes == old(kast.nodes) + Word(DeclTerm(u, k))
      decreases k, 0
    {
      hide TypeTerm, KindTerm, StmtTerm;
      ghost var v, layers := kast.nodes, When(k.isMutable, SpecifierLayer("Mutable", STORAGECLASSSPECIFIER));
      SpecifierIf(k.isMutable, "Mutable", STORAGECLASSSPECIFIER);
      ghost var w := kast.nodes;
      if k.width.Some? {
        Add("BitFieldDecl", DECLARATOR, [NNS, CID, ATYPE, EXPR]);
      } else {
        Add("FieldDecl", DECLARATOR, [NNS, CID, ATYPE, INIT]);
      }
      TraverseNested(k.scope);
      TraverseDeclarationName(k.name);
      TraverseType(k.ty);
      if k.width.Some? {
        TraverseExpr(k.width.value);
      } else {
        ExprOrLeaf(k.init, "NoInit", INIT);
      }
      ghost var last := if k.width.Some? then ExprTerm(u, k.width.value) else ExprOr(u, k.init, NoInit());
      ghost var node := if k.width.Some? then KApply("BitFieldDecl", DECLARATOR, [NNS, CID, ATYPE, EXPR])
                        else KApply("FieldDecl", DECLARATOR, [NNS, CID, ATYPE, INIT]);
      Grow4(w, node, NestedTerm(u, k.scope), NameTerm(u, k.name), QualTerm(u, k.ty), last);
      GrowWrap(v, layers, Term(node, [NestedTerm(u, k.scope), NameTerm(u, k.name), QualTerm(u, k.ty), last]));
    }

    /** TraverseEnumDecl. */
    method TraverseEnum(k: DeclKind)
      requires k.OpaqueEnum? || k.EnumDef?
      modifies kast`nodes
      ensures kast.nodes == old(kast.nodes) + Word(DeclTerm(u, k))
      decreases k, 0
    {
      hide TypeTerm, KindTerm, StmtTerm;
      if k.OpaqueEnum? {
        Add("OpaqueEnumDeclaration", DECL, [CID, BOOL, ATYPE]);
        TraverseDeclarationName(k.name);
        VisitBool(k.scoped);
        TraverseType(k.ty);
        Grow3(old(kast.nodes), DeclTerm(u, k).node, NameTerm(u, k.name), BoolToken(k.scoped), QualTerm(u, k.ty));
      } else {
        Add("EnumDef", DECL, [CID, NNS, BOOL, BOOL, ATYPE, LIST]);
        TraverseDeclarationName(k.name);
        TraverseNested(k.scope);
        VisitBool(k.scoped);
        VisitBool(k.isFixed);
        TraverseType(k.ty);
        DeclContext(k.decls);
        Grow6(old(kast.nodes), DeclTerm(u, k).node, NameTerm(u, k.name), NestedTerm(u, k.scope), BoolToken(k.scoped),
              BoolToken(k.isFixed), QualTerm(u, k.ty), ContextTerm(u, k.decls));
      }
    }

    /** TraverseVarHelper. */
    method TraverseVar(d: VarDecl)
      modifies kast`nodes
      ensures kast.nodes == old(kast.nodes) + Word(VarTerm(u, d))
      decreases d, 0
    {
      hide TypeTerm, KindTerm, StmtTerm, DeclTerm;
      ghost var v := kast.nodes;
      VarSpecifiers(d);
      ghost var w := kast.nodes;
      Add("VarDecl", DECLARATOR, [NNS, CID, CID, ATYPE, INIT, BOOL]);
      TraverseNested(d.scope);
      TraverseDeclarationName(d.name);
      Identifier(d.mangled);
      TraverseType(d.ty);
      ExprOrLeaf(d.init, "NoInit", INIT);
      VisitBool(d.direct);
      ghost var node := KApply("VarDecl", DECLARATOR, [NNS, CID, CID, ATYPE, INIT, BOOL]);
      Grow6(w, node, NestedTerm(u, d.scope), NameTerm(u, d.name), IdentifierTerm(u, d.mangled), QualTerm(u, d.ty),
            ExprOr(u, d.init, NoInit()), BoolToken(d.direct));
      GrowWrap(v, VarLayers(d), Term(node, [NestedTerm(u, d.scope), NameTerm(u, d.name), IdentifierTerm(u, d.mangled),
                                            QualTerm(u, d.ty), ExprOr(u, d.init, NoInit()), BoolToken(d.direct)]));
    }

    method VarSpecifiers(d: VarDecl)
      modifies kast`nodes
      ensures kast.nodes == old(kast.nodes) + LayersWord(VarLayers(d))
    {
      ghost var v := kast.nodes;
      ghost var a := StorageLayers(d.storage);
      ghost var b := When(d.threadLocal, SpecifierLayer("ThreadLocal", STORAGECLASSSPECIFIER));
      ghost var c := When(d.isConstexpr, SpecifierLayer("Constexpr", SPECIFIER));
      ghost var e := When(d.alignment != 0, AlignasLayer(d.alignment / 8));
      StorageClass(d.storage);
      SpecifierIf(d.threadLocal, "ThreadLocal", STORAGECLASSSPECIFIER);
      SpecifierIf(d.isConstexpr, "Constexpr", SPECIFIER);
      if d.alignment != 0 {
        AlignasSpecifier(d.alignment / 8);
      } else {
        NoLayers(kast.nodes);
      }
      LayersConcat(v, a, b);
      LayersConcat(v, a + b, c);
      LayersConcat(v, a + b + c, e);
    }

    method AlignasSpecifier(n: nat)
      modifies kast`nodes
      ensures kast.nodes == old(kast.nodes) + LayersWord([AlignasLayer(n)])
    {
      ghost var v, term := kast.nodes, Apply("Alignas", SPECIFIER, [INT], [IntToken(n)]);
      Add("Specifier", DECL, [SPECIFIER, DECL]);
      ghost var w := kast.nodes;
      Add("Alignas", SPECIFIER, [INT]);
      VisitUnsigned(n);
      Grow1(w, KApply("Alignas", SPECIFIER, [INT]), IntToken(n));
      OneLayer(v, AlignasLayer(n));
      WordsSingle(term);
    }

    method BaseList(xs: seq<Base>)
      modifies kast`nodes
      ensures kast.nodes == old(kast.nodes) + Word(ListOf(|xs|, BaseTerms(u, xs)))
      decreases xs, 0
    {
      hide TypeTerm, KindTerm, StmtTerm, DeclTerm;
      ghost var v, ts := kast.nodes, BaseTerms(u, xs);
      KSeqList(|xs|);
      ghost var w := kast.nodes;
      KidsStart(w, ts);
      for i := 0 to |xs|
        invariant kast.nodes == w + Words(ts[..i])
      {
        TraverseBase(xs[i]);
        KidsStep(w, ts, i);
      }
      GrowList(v, |xs|, ts);
    }

    method TraverseBase(b: Base)
      modifies kast`nodes
      ensures kast.nodes == old(kast.nodes) + Word(BaseTerm(u, b))
      decreases b, 0
    {
      hide TypeTerm, KindTerm, StmtTerm, DeclTerm;
      Add("BaseClass", BASESPECIFIER, [BOOL, BOOL, ACCESSSPECIFIER, ATYPE]);
      VisitBool(b.isVirtual);
      VisitBool(b.pack);
      AddLeaf(b.access, ACCESSSPECIFIER);
      TraverseType(b.ty);
      Grow4(old(kast.nodes), BaseTerm(u, b).node, BoolToken(b.isVirtual), BoolToken(b.pack), Leaf(b.access, ACCESSSPECIFIER),
            QualTerm(u, b.ty));
    }

    /** TraverseCXXRecordHelper. */
    method TraverseRecord(r: RecordDecl)
      modifies kast`nodes
      ensures kast.nodes == old(kast.nodes) + Word(RecordTerm(u, r))
      decreases r, 0
    {
      hide TypeTerm, KindTerm, StmtTerm, DeclTerm;
      ghost var v := kast.nodes;
      if r.complete {
        Add("ClassDef", DECL, [TAG, CID, NNS, LIST, LIST, BOOL]);
      } else {
        Add("TypeDecl", DECL, [ATYPE]);
        Add("ElaboratedTypeSpecifier", ATYPE, [TAG, CID, NNS]);
      }
      VisitTagKind(r.tag);
      TraverseDeclarationName(r.name);
      TraverseNested(r.scope);
      if r.complete {
        BaseList(r.bases);
        DeclContext(r.decls);
        VisitBool(r.anonymous);
        Grow6(v, RecordTerm(u, r).node, TagTerm(r.tag), NameTerm(u, r.name), NestedTerm(u, r.scope),
              ListOf(|r.bases|, BaseTerms(u, r.bases)), ContextTerm(u, r.decls), BoolToken(r.anonymous));
      } else {
        ghost var node := KApply("ElaboratedTypeSpecifier", ATYPE, [TAG, CID, NNS]);
        Grow3(v + [RecordTerm(u, r).node], node, TagTerm(r.tag), NameTerm(u, r.name), NestedTerm(u, r.scope));
        Grow1(v, RecordTerm(u, r).node, Term(node, [TagTerm(r.tag), NameTerm(u, r.name), NestedTerm(u, r.scope)]));
      }
    }

    // ----- Templates -----

    /** The traversals of templates, their parameters and their specializations. */
    method TraverseTemplate(k: DeclKind)
      requires IsTemplate(k)
      modifies kast`nodes
      ensures kast.nodes == old(kast.nodes) + Word(TemplateTerm(u, k))
      decreases k, 0, 1
    {
      hide TypeTerm, KindTerm, StmtTerm, DeclTerm;
      ghost var v := kast.nodes;
      match k
      case Template(templated, params, instances) =>
        Add("TemplateWithInstantiations", DECL, [DECL, LIST, LIST]);
        ghost var w := kast.nodes;
        TraverseDecl(templated);
        ParameterList(params);
        KidsConcat(w, DeclTerms(u, templated), ParamListTerms(u, params));
        TraverseInstantiations(instances);
        GrowAfter1(v, TemplateTerm(u, k).node, DeclTerms(u, templated) + ParamListTerms(u, params),
                   ListOf(CountInstances(instances), InstanceTerms(u, instances)));
      case TypeParam(isTypename, pack, declared, default) =>
        Add("TypeTemplateParam", TEMPLATEPARAMETER, [BOOL, BOOL, ATYPE, ATYPE]);
        VisitBool(isTypename);
        VisitBool(pack);
        TypeOrNone(declared);
        TypeOrNone(default);
        Grow4(v, TemplateTerm(u, k).node, BoolToken(isTypename), BoolToken(pack), QualOr(u, declared), QualOr(u, default));
      case ValueParam(pack, scope, name, ty, init) =>
        Add("ValueTemplateParam", TEMPLATEPARAMETER, [BOOL, NNS, CID, ATYPE, AEXPR]);
        VisitBool(pack);
        TraverseNested(scope);
        TraverseDeclarationName(name);
        TraverseType(ty);
        ExprOrLeaf(init, "NoExpression", AEXPR);
        Grow5(v, TemplateTerm(u, k).node, BoolToken(pack), NestedTerm(u, scope), NameTerm(u, name), QualTerm(u, ty),
              ExprOr(u, init, NoExpression()));
      case TemplateParam(_, _, _, _) => TraverseTemplateParam(k);
      case ClassSpecialization(_, _, _) => TraverseSpecialization(k);
      case PartialSpecialization(_, _, _) => TraverseSpecialization(k);
    }

    /** TraverseTemplateTemplateParmDecl. */
    method TraverseTemplateParam(k: DeclKind)
      requires k.TemplateParam?
      modifies kast`nodes
      ensures kast.nodes == old(kast.nodes) + Word(TemplateTerm(u, k))
      decreases k, 0, 0
    {
      hide TypeTerm, KindTerm, StmtTerm, DeclTerm;
      ghost var v := kast.nodes;
      Add("TemplateTemplateParam", TEMPLATEPARAMETER, [BOOL, CID, ATYPE, LIST]);
      ghost var w := kast.nodes;
      VisitBool(k.pack);
      TraverseDeclarationName(k.name);
      if k.arg.Some? {
        TraverseTemplateArgument(k.arg.value);
      } else {
        AddLeaf("NoType", ATYPERESULT);
      }
      ghost var arg := if k.arg.Some? then ArgTerm(u, k.arg.value) else NoType();
      Kids3(w, BoolToken(k.pack), NameTerm(u, k.name), arg);
      ParameterList(k.params);
      KidsConcat(w, [BoolToken(k.pack), NameTerm(u, k.name), arg], ParamListTerms(u, k.params));
      Grow(v, TemplateTerm(u, k).node, [BoolToken(k.pack), NameTerm(u, k.name), arg] + ParamListTerms(u, k.params));
    }

    /** TraverseClassTemplateSpecializationDecl and its partial form. */
    method TraverseSpecialization(k: DeclKind)
      requires k.ClassSpecialization? || k.PartialSpecialization?
      modifies kast`nodes
      ensures kast.nodes == old(kast.nodes) + Word(TemplateTerm(u, k))
      decreases k, 0, 0
    {
      hide TypeTerm, KindTerm, StmtTerm, DeclTerm;
      ghost var v := kast.nodes;
      ghost var layer: Layer;
      if k.ClassSpecialization? {
        layer := LayerOf(SpecializationLabel(k.specKind), DECL, [ATYPE, DECL], [QualOr(u, k.declared)]);
        Add(SpecializationLabel(k.specKind), DECL, [ATYPE, DECL]);
        ghost var w := kast.nodes;
        TypeOrNone(k.declared);
        Kids1(w, QualOr(u, k.declared));
      } else {
        layer := LayerOf("PartialSpecialization", DECL, [LIST, LIST, DECL],
                         [ListOf(|k.paramDecls|, AllDeclTerms(u, k.paramDecls)), ListOf(|k.args|, ArgTerms(u, k.args))]);
        Add("PartialSpecialization", DECL, [LIST, LIST, DECL]);
        ghost var w := kast.nodes;
        DeclList(k.paramDecls);
        ArgumentList(k.args);
        Kids2(w, ListOf(|k.paramDecls|, AllDeclTerms(u, k.paramDecls)), ListOf(|k.args|, ArgTerms(u, k.args)));
      }
      OneLayer(v, layer);
      TraverseRecord(k.r);
      GrowWrap(v, [layer], RecordTerm(u, k.r));
    }

    // ----- Functions -----

    /** TraverseFunctionHelper. */
    method TraverseFunction(f: FunctionDecl)
      modifies kast`nodes
      ensures kast.nodes == old(kast.nodes) + Word(FunctionTerm(u, f))
      decreases f, 2
    {
      hide TypeTerm, KindTerm, StmtTerm, DeclTerm;
      ghost var v := kast.nodes;
      FunctionSpecifiers(f);
      ghost var w := kast.nodes;
      if f.isDefinition || f.isDefaulted {
        Add("FunctionDefinition", DECLARATOR, [NNS, CID, CID, ATYPE, LIST, ASTMT]);
      } else {
        Add("FunctionDecl", DECLARATOR, [NNS, CID, CID, ATYPE, LIST]);
      }
      ghost var x := kast.nodes;
      FunctionHead(f);
      FunctionEnd(f);
      KidsConcat(x, HeadTerms(u, f), EndTerms(u, f));
      Grow(w, FunctionNode(f), HeadTerms(u, f) + EndTerms(u, f));
      GrowWrap(v, FunctionLayers(u, f), Term(FunctionNode(f), HeadTerms(u, f) + EndTerms(u, f)));
    }

    method FunctionSpecifiers(f: FunctionDecl)
      modifies kast`nodes
      ensures kast.nodes == old(kast.nodes) + LayersWord(FunctionLayers(u, f))
      decreases f, 1
    {
      ghost var v := kast.nodes;
      ghost var a := SpecializationLayers(u, f);
      ghost var b := StorageLayers(f.storage);
      ghost var c := When(f.isInline, SpecifierLayer("Inline", FUNCTIONSPECIFIER));
      ghost var d := When(f.isConstexpr, SpecifierLayer("Constexpr", SPECIFIER));
      SpecializationWrapper(f);
      StorageClass(f.storage);
      SpecifierIf(f.isInline, "Inline", FUNCTIONSPECIFIER);
      SpecifierIf(f.isConstexpr, "Constexpr", SPECIFIER);
      LayersConcat(v, a, b);
      LayersConcat(v, a + b, c);
      LayersConcat(v, a + b + c, d);
    }

    /** The wrapper of an explicit specialization or instantiation. */
    method SpecializationWrapper(f: FunctionDecl)
      modifies kast`nodes
      ensures kast.nodes == old(kast.nodes) + LayersWord(SpecializationLayers(u, f))
      decreases f, 0
    {
      ghost var v := kast.nodes;
      if f.specialization.Some? && IsWrapped(f.specialization.value) {
        var s := f.specialization.value;
        Add(SpecializationLabel(s.kind), DECL, [ATYPE, DECL]);
        ghost var w := kast.nodes;
        SpecializedName(s);
        Kids1(w, SpecializationTerm(u, s));
        OneLayer(v, LayerOf(SpecializationLabel(s.kind), DECL, [ATYPE, DECL], [SpecializationTerm(u, s)]));
      } else {
        NoLayers(v);
      }
    }

    method SpecializedName(s: FunctionSpecialization)
      modifies kast`nodes
      ensures kast.nodes == old(kast.nodes) + Word(SpecializationTerm(u, s))
      decreases s, 0
    {
      hide TypeTerm, KindTerm, StmtTerm, DeclTerm;
      match s.args
      case Args(args) =>
        Add("TemplateSpecializationType", ATYPE, [CID, LIST]);
        TraverseDeclarationName(s.template);
        ArgumentList(args);
        Grow2(old(kast.nodes), SpecializationTerm(u, s).node, NameTerm(u, s.template), ListOf(|args|, ArgTerms(u, args)));
      case NoArgs =>
        Add("TemplateSpecializationType2", ATYPE, [CID]);
        TraverseDeclarationName(s.template);
        Grow1(old(kast.nodes), SpecializationTerm(u, s).node, NameTerm(u, s.template));
    }

    /** The qualifier, name, mangled name, type and parameters. */
    method FunctionHead(f: FunctionDecl)
      modifies kast`nodes
      ensures kast.nodes == old(kast.nodes) + Words(HeadTerms(u, f))
      decreases f, 1
    {
      hide TypeTerm, KindTerm, StmtTerm, DeclTerm;
      ghost var v := kast.nodes;
      TraverseNested(f.scope);
      TraverseDeclarationName(f.name);
      Identifier(f.mangled);
      ghost var w := kast.nodes;
      MethodWrappers(f);
      TraverseType(f.ty);
      GrowWrap(w, MethodLayers(u, f), QualTerm(u, f.ty));
      DeclList(f.params);
      Kids5(v, NestedTerm(u, f.scope), NameTerm(u, f.name), IdentifierTerm(u, f.mangled),
            Wrap(MethodLayers(u, f), QualTerm(u, f.ty)), ListOf(|f.params|, AllDeclTerms(u, f.params)));
    }

    method TypeWrapperIf(b: bool, klabel: string)
      modifies kast`nodes
      ensures kast.nodes == old(kast.nodes) + LayersWord(When(b, LayerOf(klabel, ATYPE, [ATYPE], [])))
    {
      ghost var v := kast.nodes;
      if b {
        Add(klabel, ATYPE, [ATYPE]);
        OneLayer(v, LayerOf(klabel, ATYPE, [ATYPE], []));
        assert kast.nodes + Words([]) == kast.nodes;
      } else {
        NoLayers(v);
      }
    }

    method RefWrapper(ref: RefQualifier)
      modifies kast`nodes
      ensures kast.nodes == old(kast.nodes) + LayersWord(RefLayers(ref))
    {
      ghost var v := kast.nodes;
      match ref
      case NoRef => NoLayers(v);
      case LValueRef =>
        Add("RefQualifier", ATYPE, [REFQUALIFIER, ATYPE]);
        AddLeaf("RefLValue", REFQUALIFIER);
        WordsSingle(Leaf("RefLValue", REFQUALIFIER));
        OneLayer(v, RefLayers(ref)[0]);
      case RValueRef =>
        Add("RefQualifier", ATYPE, [REFQUALIFIER, ATYPE]);
        AddLeaf("RefRValue", REFQUALIFIER);
        WordsSingle(Leaf("RefRValue", REFQUALIFIER));
        OneLayer(v, RefLayers(ref)[0]);
    }

    /** What a method puts around its type. */
    method MethodWrappers(f: FunctionDecl)
      modifies kast`nodes
      ensures kast.nodes == old(kast.nodes) + LayersWord(MethodLayers(u, f))
      decreases f, 0, 1
    {
      ghost var v := kast.nodes;
      match f.method_
      case NotMethod => NoLayers(v);
      case StaticMethod =>
        TypeWrapperIf(true, "StaticMethodPrototype");
      case InstanceMethod(ref, userProvided, thisType, isVirtual, isPure) =>
        ghost var a := RefLayers(ref);
        ghost var b := [PrototypeLayer(u, f)];
        ghost var c := When(isVirtual, LayerOf("Virtual", ATYPE, [ATYPE], []));
        ghost var d := When(isPure, LayerOf("Pure", ATYPE, [ATYPE], []));
        ghost var e := When(IsExplicit(f.role), LayerOf("Explicit", ATYPE, [ATYPE], []));
        RefWrapper(ref);
        MethodPrototype(f);
        TypeWrapperIf(isVirtual, "Virtual");
        TypeWrapperIf(isPure, "Pure");
        TypeWrapperIf(IsExplicit(f.role), "Explicit");
        LayersConcat(v, a, b);
        LayersConcat(v, a + b, c);
        LayersConcat(v, a + b + c, d);
        LayersConcat(v, a + b + c + d, e);
    }

    method MethodPrototype(f: FunctionDecl)
      requires f.method_.InstanceMethod?
      modifies kast`nodes
      ensures kast.nodes == old(kast.nodes) + LayersWord([PrototypeLayer(u, f)])
      decreases f, 0, 0
    {
      ghost var v := kast.nodes;
      Add("MethodPrototype", ATYPE, [BOOL, BOOL, ATYPE, ATYPE]);
      ghost var w := kast.nodes;
      VisitBool(f.method_.userProvided);
      VisitBool(f.role.Constructor?);
      TraverseType(f.method_.thisType);
      Kids3(w, BoolToken(f.method_.userProvided), BoolToken(f.role.Constructor?), QualTerm(u, f.method_.thisType));
      OneLayer(v, PrototypeLayer(u, f));
    }

    /** The statements that close a function, inside the initializers of a constructor. */
    method FunctionEnd(f: FunctionDecl)
      modifies kast`nodes
      ensures kast.nodes == old(kast.nodes) + Words(EndTerms(u, f))
      decreases f, 1
    {
      hide TypeTerm, KindTerm, StmtTerm, DeclTerm;
      ghost var v := kast.nodes;
      if f.isDefinition && f.role.Constructor? {
        ghost var node := KApply("Constructor", STMT, [LIST, STMT]);
        Add("Constructor", STMT, [LIST, STMT]);
        ghost var w, inits := kast.nodes, ListOf(CountWritten(f.role.inits), InitTerms(u, f.role.inits));
        InitializerList(f.role.inits);
        Kids1(w, inits);
        Closing(f);
        KidsConcat(w, [inits], ClosingTerms(u, f));
        Grow(v, node, [inits] + ClosingTerms(u, f));
        Kids1(v, Term(node, [inits] + ClosingTerms(u, f)));
      } else {
        Closing(f);
      }
    }

    method Closing(f: FunctionDecl)
      modifies kast`nodes
      ensures kast.nodes == old(kast.nodes) + Words(ClosingTerms(u, f))
      decreases f, 0
    {
      hide TypeTerm, KindTerm, StmtTerm, DeclTerm;
      ghost var v := kast.nodes;
      ghost var body := if f.isDefinition && f.body.Some? then [StmtTerm(u, f.body.value)] else [];
      ghost var mark := if f.isDefaulted then [Leaf("Defaulted", STMT)]
                        else if f.isDeleted then [Leaf("Deleted", STMT)]
                        else [];
      if f.isDefinition && f.body.Some? {
        TraverseStmt(f.body.value);
        Kids1(v, StmtTerm(u, f.body.value));
      } else {
        assert v + Words([]) == v;
      }
      ghost var w := kast.nodes;
      if f.isDefaulted {
        AddLeaf("Defaulted", STMT);
        Kids1(w, Leaf("Defaulted", STMT));
      } else if f.isDeleted {
        AddLeaf("Deleted", STMT);
        Kids1(w, Leaf("Deleted", STMT));
      } else {
        assert w + Words([]) == w;
      }
      KidsConcat(v, body, mark);
    }

    /** The counting loop over written initializers. */
    method CountInitializers(xs: seq<CtorInit>) returns (count: nat)
      ensures count == CountWritten(xs)
    {
      count := 0;
      for i := 0 to |xs|
        invariant count + CountWritten(xs[i..]) == CountWritten(xs)
      {
        assert xs[i..][1..] == xs[i + 1..];
        if xs[i].written {
          count := count + 1;
        }
      }
    }

    method InitializerList(xs: seq<CtorInit>)
      modifies kast`nodes
      ensures kast.nodes == old(kast.nodes) + Word(ListOf(CountWritten(xs), InitTerms(u, xs)))
      decreases xs, 0
    {
      hide TypeTerm, KindTerm, StmtTerm, DeclTerm;
      ghost var v := kast.nodes;
      var count := CountInitializers(xs);
      KSeqList(count);
      ghost var w := kast.nodes;
      for i := 0 to |xs|
        invariant kast.nodes + Words(InitTerms(u, xs[i..])) == w + Words(InitTerms(u, xs))
      {
        ghost var here, before := if xs[i].written then [InitTerm(u, xs[i])] else [], kast.nodes;
        assert xs[i..][1..] == xs[i + 1..];
        if xs[i].written {
          TraverseInitializer(xs[i]);
          Kids1(before, InitTerm(u, xs[i]));
        } else {
          assert kast.nodes + Words(here) == kast.nodes;
        }
        KidsConcat(before, here, InitTerms(u, xs[i + 1..]));
      }
      assert kast.nodes + Words(InitTerms(u, xs[|xs|..])) == kast.nodes;
      GrowList(v, count, InitTerms(u, xs));
    }

    /** TraverseConstructorInitializer. */
    method TraverseInitializer(init: CtorInit)
      modifies kast`nodes
      ensures kast.nodes == old(kast.nodes) + Word(InitTerm(u, init))
      decreases init, 0
    {
      hide TypeTerm, KindTerm, StmtTerm, DeclTerm;
      match init
      case BaseInit(_, ty, isVirtual, pack, e) =>
        Add("ConstructorBase", CTORINIT, [ATYPE, BOOL, BOOL, INIT]);
        TraverseType(ty);
        VisitBool(isVirtual);
        VisitBool(pack);
        TraverseExpr(e);
        Grow4(old(kast.nodes), InitTerm(u, init).node, QualTerm(u, ty), BoolToken(isVirtual), BoolToken(pack), ExprTerm(u, e));
      case MemberInit(_, name, e) =>
        Add("ConstructorMember", CTORINIT, [CID, INIT]);
        TraverseDeclarationName(name);
        TraverseExpr(e);
        Grow2(old(kast.nodes), InitTerm(u, init).node, NameTerm(u, name), ExprTerm(u, e));
      case DelegatingInit(_, e) =>
        Add("ConstructorDelegating", CTORINIT, [INIT]);
        TraverseExpr(e);
        Grow1(old(kast.nodes), InitTerm(u, init).node, ExprTerm(u, e));
    }
  }
}
