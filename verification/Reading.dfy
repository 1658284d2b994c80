/** The term of a syntax tree reads back as what it keeps of the tree. Each proof hides the definitions
    that it has no need of. */
module Reading {
  import opened Wrappers
  import opened Sorts
  import opened Terms
  import opened Tokens
  import opened Decimal
  import opened Ast
  import opened Trees
  import opened Fitness
  import opened Kept
  import opened TermReader
  import opened TermNodes
  import T = Translation

  // ----- Tokens and marks -----

  lemma TokenIsRead(u: Unit, sort: Sort, value: Bytes)
    ensures ReadTerm(u, Term(KToken(sort, value), [])) == AToken(sort, value)
  {
    hide BuildApply;
  }

  lemma BoolIsRead(u: Unit, b: bool)
    ensures AsBool(ReadTerm(u, BoolToken(b))) == Some(b)
  {
    hide ReadTerm;
    TokenIsRead(u, BOOL, BoolValue(b));
  }

  lemma IntIsRead(u: Unit, n: nat)
    ensures AsInt(ReadTerm(u, IntToken(n))) == Some(n)
  {
    hide ReadTerm;
    TokenIsRead(u, INT, Numeral(n));
    ValueOfNumeral(n);
  }

  lemma StringIsRead(u: Unit, s: Bytes)
    ensures AsString(u, ReadTerm(u, StringToken(u, s))) == Some(s)
  {
    hide ReadTerm, StringOfValue, StringValue;
    TokenIsRead(u, STRING, StringValue(u.kore, s));
    StringOfStringValue(u.kore, s);
  }

  lemma LocIsRead(u: Unit, loc: Loc)
    ensures AsLoc(ReadTerm(u, LocTerm(u, loc))) == Some(loc)
  {
    hide ReadTerm, AsString, StringToken, IntToken, BoolToken;
    match loc
    case UnknownLoc =>
      ReadNone(u);
      LocNode(u, KApply("UnknownCabsLoc_COMMON-SYNTAX", CABSLOC, []), []);
    case Loc(file, absolute, line, column, system) =>
      var a, b, c := StringToken(u, file), StringToken(u, absolute), IntToken(line);
      var d, e := IntToken(column), BoolToken(system);
      StringIsRead(u, file);
      StringIsRead(u, absolute);
      IntIsRead(u, line);
      IntIsRead(u, column);
      BoolIsRead(u, system);
      Read5(u, a, b, c, d, e);
      LocNode(u, KApply("CabsLoc", CABSLOC, [STRING, STRING, INT, INT, BOOL]), [a, b, c, d, e]);
  }

  lemma TagIsRead(u: Unit, tag: TagKind)
    ensures AsTag(ReadTerm(u, TagTerm(tag))) == Some(tag)
  {
    hide ReadTerm;
    match tag
    case StructTag => MarkIsRead(u, "Struct", CLASSKEY);
    case UnionTag => MarkIsRead(u, "Union", CLASSKEY);
    case ClassTag => MarkIsRead(u, "Class", CLASSKEY);
    case EnumTag => MarkIsRead(u, "Enum", TAG);
  }

  lemma OperatorIsRead(u: Unit, spelling: string)
    ensures AsOperator(ReadTerm(u, OperatorLeaf(spelling))) == Some(spelling)
    ensures AsName(ReadTerm(u, OperatorLeaf(spelling))) == Some(OperatorName(spelling))
  {
    hide ReadTerm;
    var klabel := "operator" + spelling + "_CPP-SYNTAX";
    MarkIsRead(u, klabel, OPID);
    assert klabel[..8] == "operator" && klabel[8..|klabel| - 11] == spelling && klabel[|klabel| - 11..] == "_CPP-SYNTAX";
  }

  lemma NoInitIsRead(u: Unit)
    ensures ReadTerm(u, NoInit()) == AMark("NoInit", INIT)
  {
    hide ReadTerm;
    ReadNone(u);
    OperationNode(u, KApply("NoInit", INIT, []), []);
  }

  // ----- Lists -----

  function ListOfAll(ts: seq<Term>): Term {
    ListOf(|ts|, ts)
  }

  function StrictListOfAll(ts: seq<Term>): Term {
    StrictListOf(|ts|, ts)
  }

  lemma ListIsRead<T>(u: Unit, f: Part -> Option<T>, ts: seq<Term>)
    ensures Listed(f, ReadTerm(u, ListOfAll(ts))) == All(f, ReadTerms(u, ts))
    ensures StrictlyListed(f, ReadTerm(u, StrictListOfAll(ts))) == All(f, ReadTerms(u, ts))
  {
    hide ReadTerm, ReadTerms;
    SequenceIsRead(u, ts);
    var s, l := Term(KSequence(|ts|), ts), ListOf(|ts|, ts);
    Read1(u, s);
    ListNode(u, KApply("kSeqToList", LIST, [K]), [s]);
    Read1(u, l);
    ListNode(u, KApply("list", STRICTLIST, [LIST]), [l]);
  }

  // ----- Layers -----

  lemma {:induction false} WrapConcat(a: seq<Layer>, b: seq<Layer>, t: Term)
    ensures Wrap(a + b, t) == Wrap(a, Wrap(b, t))
    decreases a
  {
    if a == [] {
      assert a + b == b;
    } else {
      assert (a + b)[0] == a[0] && (a + b)[1..] == a[1..] + b;
      WrapConcat(a[1..], b, t);
    }
  }

  lemma WrapWhen(b: bool, layer: Layer, t: Term)
    ensures Wrap(When(b, layer), t) == if b then Term(layer.node, layer.before + [t]) else t
  {
    assert [layer][1..] == [];
  }

  // ----- Types and names -----

  function QualifierLayer(name: string): Layer {
    LayerOf("Qualifier", ATYPE, [QUALIFIER, ATYPE], [Leaf(name, QUALIFIER)])
  }

  lemma QualifierIsRead(u: Unit, name: string, t: Term, q: QualType)
    requires AsQual(ReadTerm(u, t)) == Some(q)
    ensures ReadTerm(u, Wrap(When(true, QualifierLayer(name)), t))
         == OrUnreadable(BuildQualified(AMark(name, QUALIFIER), q))
  {
    hide ReadTerm, BuildQualified;
    var mark := Leaf(name, QUALIFIER);
    MarkIsRead(u, name, QUALIFIER);
    WrapWhen(true, QualifierLayer(name), t);
    assert [mark] + [t] == [mark, t];
    Read2(u, mark, t);
    TypeNode(u, KApply("Qualifier", ATYPE, [QUALIFIER, ATYPE]), [mark, t]);
  }

  lemma ConstIsRead(u: Unit, b: bool, t: Term, q: QualType)
    requires AsQual(ReadTerm(u, t)) == Some(q)
    ensures AsQual(ReadTerm(u, Wrap(When(b, QualifierLayer("Const")), t))) == Some(if b then UnderConst(q) else q)
  {
    hide ReadTerm;
    if b {
      QualifierIsRead(u, "Const", t, q);
    }
  }

  lemma VolatileIsRead(u: Unit, b: bool, t: Term, q: QualType)
    requires AsQual(ReadTerm(u, t)) == Some(q)
    ensures AsQual(ReadTerm(u, Wrap(When(b, QualifierLayer("Volatile")), t))) == Some(if b then UnderVolatile(q) else q)
  {
    hide ReadTerm;
    if b {
      QualifierIsRead(u, "Volatile", t, q);
    }
  }

  lemma RestrictIsRead(u: Unit, b: bool, t: Term, q: QualType)
    requires AsQual(ReadTerm(u, t)) == Some(q)
    ensures AsQual(ReadTerm(u, Wrap(When(b, QualifierLayer("Restrict")), t))) == Some(if b then UnderRestrict(q) else q)
  {
    hide ReadTerm;
    if b {
      QualifierIsRead(u, "Restrict", t, q);
    }
  }

  lemma {:induction false} QualIsRead(u: Unit, q: QualType)
    requires QualOk(false, q)
    ensures AsQual(ReadTerm(u, QualTerm(u, q))) == Some(KeptQual(q))
    decreases q, 0
  {
    hide ReadTerm, TypeTerm, KeptType, TypeOk, Wrap, When, UnderConst, UnderVolatile, UnderRestrict;
    TypeIsRead(u, q.ty);
    var t := TypeTerm(u, q.ty);
    var c, v := When(q.isConst, QualifierLayer("Const")), When(q.isVolatile, QualifierLayer("Volatile"));
    var r := When(q.isRestrict, QualifierLayer("Restrict"));
    RestrictIsRead(u, q.isRestrict, t, KeptType(q.ty));
    var restricted := if q.isRestrict then UnderRestrict(KeptType(q.ty)) else KeptType(q.ty);
    VolatileIsRead(u, q.isVolatile, Wrap(r, t), restricted);
    ConstIsRead(u, q.isConst, Wrap(v, Wrap(r, t)), if q.isVolatile then UnderVolatile(restricted) else restricted);
    assert QualifierLayers(q) == (c + v) + r;
    WrapConcat(c + v, r, t);
    WrapConcat(c, v, Wrap(r, t));
  }

  lemma {:induction false} QualsAreRead(u: Unit, qs: seq<QualType>)
    requires QualsOk(false, qs)
    ensures All(AsQual, ReadTerms(u, QualTerms(u, qs))) == Some(KeptQuals(qs))
    decreases qs, 1
  {
    hide ReadTerm, QualTerm, KeptQual, QualOk;
    forall i | 0 <= i < |qs| ensures AsQual(ReadTerms(u, QualTerms(u, qs))[i]) == Some(KeptQuals(qs)[i]) {
      QualIsRead(u, qs[i]);
    }
    AllOf(AsQual, ReadTerms(u, QualTerms(u, qs)), KeptQuals(qs));
  }

  lemma {:induction false} MaybeQualIsRead(u: Unit, q: Option<QualType>)
    requires MaybeQualOk(false, q)
    ensures Maybe(AsQual, ReadTerm(u, QualOr(u, q)), "NoType", ATYPERESULT) == Some(KeptMaybeQual(q))
    decreases q, 0
  {
    hide ReadTerm, QualTerm, KeptQual, QualOk;
    match q
    case Some(ty) => QualIsRead(u, ty);
    case None => MarkIsRead(u, "NoType", ATYPERESULT);
  }

  lemma {:induction false} TypeIsRead(u: Unit, t: Type)
    requires TypeOk(false, t)
    ensures AsQual(ReadTerm(u, TypeTerm(u, t))) == Some(KeptType(t))
    decreases t, 1
  {
    hide ReadTerm, QualTerm, KeptQual, QualOk, NameTerm, KeptName, NameOk, KeptExpr, ExprTerm, ExprOk, KeptArgs,
      ArgTerms, ArgsOk, KeptQuals, QualTerms, QualsOk, KeptExceptions, ExceptionsTerm, ExceptionsOk, BuildType;
    match t
    case Builtin(_) => BuiltinIsRead(u, t);
    case Pointer(_) => PointerIsRead(u, t);
    case ConstantArray(_, _) => ArrayIsRead(u, t);
    case SizedArray(_, _) => SizedArrayIsRead(u, t);
    case IncompleteArray(_) => IncompleteArrayIsRead(u, t);
    case Prototype(_, _, _, _) => PrototypeIsRead(u, t);
    case TagType(_) => TagTypeIsRead(u, t);
    case ParamType(_) => ParamTypeIsRead(u, t);
    case SpecializedType(_, _) => SpecializedTypeIsRead(u, t);
    case Substituted(replacement) => QualIsRead(u, replacement);
    case Auto(Some(deduced), _) => QualIsRead(u, deduced);
    case Auto(None, isDecltype) => AutoIsRead(u, isDecltype);
  }

  lemma BuiltinIsRead(u: Unit, t: Type)
    requires t.Builtin?
    ensures AsQual(ReadTerm(u, TypeTerm(u, t))) == Some(KeptType(t))
    decreases t, 0
  {
    hide ReadTerm, QualTerm, KeptQual, NameTerm, KeptName, ExprTerm, KeptExpr, ArgTerm, KeptArg;
    var a := Leaf(t.specifier, TYPESPECIFIER);
    MarkIsRead(u, t.specifier, TYPESPECIFIER);
    Read1(u, a);
    TypeNode(u, KApply("BuiltinType", ATYPE, [TYPESPECIFIER]), [a]);
  }

  lemma {:induction false} PointerIsRead(u: Unit, t: Type)
    requires t.Pointer? && TypeOk(false, t)
    ensures AsQual(ReadTerm(u, TypeTerm(u, t))) == Some(KeptType(t))
    decreases t, 0
  {
    hide ReadTerm, QualTerm, KeptQual, QualOk, NameTerm, KeptName, NameOk, ExprTerm, KeptExpr, ExprOk, ArgTerm,
      KeptArg, ArgOk;
    var a := QualTerm(u, t.pointee);
    QualIsRead(u, t.pointee);
    Read1(u, a);
    TypeNode(u, KApply("PointerType", ATYPE, [ATYPE]), [a]);
  }

  lemma {:induction false} ArrayIsRead(u: Unit, t: Type)
    requires t.ConstantArray? && TypeOk(false, t)
    ensures AsQual(ReadTerm(u, TypeTerm(u, t))) == Some(KeptType(t))
    decreases t, 0
  {
    hide ReadTerm, QualTerm, KeptQual, QualOk, NameTerm, KeptName, NameOk, ExprTerm, KeptExpr, ExprOk, ArgTerm,
      KeptArg, ArgOk, IntToken, AsInt;
    var a, b := QualTerm(u, t.element), IntToken(t.size);
    QualIsRead(u, t.element);
    IntIsRead(u, t.size);
    Read2(u, a, b);
    TypeNode(u, KApply("ArrayType", ATYPE, [ATYPE, INT]), [a, b]);
  }

  lemma {:induction false} SizedArrayIsRead(u: Unit, t: Type)
    requires t.SizedArray? && TypeOk(false, t)
    ensures AsQual(ReadTerm(u, TypeTerm(u, t))) == Some(KeptType(t))
    decreases t, 0
  {
    hide ReadTerm, QualTerm, KeptQual, QualOk, NameTerm, KeptName, NameOk, ExprTerm, KeptExpr, ExprOk, ArgTerm,
      KeptArg, ArgOk;
    var a, b := QualTerm(u, t.element), ExprTerm(u, t.sizeExpr);
    QualIsRead(u, t.element);
    ExprIsRead(u, t.sizeExpr);
    Read2(u, a, b);
    TypeNode(u, KApply("ArrayTypeAExpr", ATYPE, [ATYPE, AEXPR]), [a, b]);
  }

  lemma {:induction false} IncompleteArrayIsRead(u: Unit, t: Type)
    requires t.IncompleteArray? && TypeOk(false, t)
    ensures AsQual(ReadTerm(u, TypeTerm(u, t))) == Some(KeptType(t))
    decreases t, 0
  {
    hide ReadTerm, QualTerm, KeptQual, QualOk, NameTerm, KeptName, NameOk, ExprTerm, KeptExpr, ExprOk, ArgTerm,
      KeptArg, ArgOk;
    var a, b := QualTerm(u, t.element), NoExpression();
    QualIsRead(u, t.element);
    MarkIsRead(u, "NoExpression", AEXPR);
    Read2(u, a, b);
    TypeNode(u, KApply("ArrayTypeAExpr", ATYPE, [ATYPE, AEXPR]), [a, b]);
  }

  lemma {:induction false} PrototypeIsRead(u: Unit, t: Type)
    requires t.Prototype? && TypeOk(false, t)
    ensures AsQual(ReadTerm(u, TypeTerm(u, t))) == Some(KeptType(t))
    decreases t, 0
  {
    hide ReadTerm, ReadTerms, QualTerm, KeptQual, QualOk, NameTerm, KeptName, NameOk, ExprTerm, KeptExpr, ExprOk,
      ArgTerm, KeptArg, ArgOk, QualTerms, KeptQuals, QualsOk, ExceptionsTerm, KeptExceptions, ExceptionsOk, BoolToken,
      AsBool, All, StrictListOf, StrictlyListed;
    var a, b := QualTerm(u, t.ret), StrictListOf(|t.params|, QualTerms(u, t.params));
    var c, d := ExceptionsTerm(u, t.exceptions), BoolToken(t.variadic);
    QualIsRead(u, t.ret);
    QualsAreRead(u, t.params);
    ListIsRead(u, AsQual, QualTerms(u, t.params));
    ExceptionsAreRead(u, t.exceptions);
    BoolIsRead(u, t.variadic);
    Read4(u, a, b, c, d);
    TypeNode(u, KApply("FunctionPrototype", ATYPE, [ATYPE, STRICTLIST, EXCEPTIONSPEC, BOOL]), [a, b, c, d]);
  }

  lemma {:induction false} TagTypeIsRead(u: Unit, t: Type)
    requires t.TagType? && TypeOk(false, t)
    ensures AsQual(ReadTerm(u, TypeTerm(u, t))) == Some(KeptType(t))
    decreases t, 0
  {
    hide ReadTerm, QualTerm, KeptQual, QualOk, NameTerm, KeptName, NameOk, ExprTerm, KeptExpr, ExprOk, ArgTerm,
      KeptArg, ArgOk, AsString, AsName;
    var a, b := Leaf("NoNNS", NNS), NameTerm(u, t.tagName);
    NoScopeIsRead(u);
    NameIsRead(u, t.tagName);
    QualifiedNameIsRead(u, a, b, Unqualified, KeptName(t.tagName));
  }

  lemma NoScopeIsRead(u: Unit)
    ensures ReadTerm(u, Leaf("NoNNS", NNS)) == AScope(Unqualified)
  {
    hide ReadTerm;
    ReadNone(u);
    ScopeNode(u, KApply("NoNNS", NNS, []), []);
  }

  lemma ParamTypeIsRead(u: Unit, t: Type)
    requires t.ParamType?
    ensures AsQual(ReadTerm(u, TypeTerm(u, t))) == Some(KeptType(t))
    decreases t, 0
  {
    hide ReadTerm, QualTerm, KeptQual, NameTerm, ExprTerm, KeptExpr, ArgTerm, KeptArg, IdTerm;
    var a := IdTerm(u, t.id, 0);
    IdIsRead(u, t.id, 0);
    Read1(u, a);
    TypeNode(u, KApply("TemplateParameterType", ATYPE, [CID]), [a]);
  }

  lemma {:induction false} SpecializedTypeIsRead(u: Unit, t: Type)
    requires t.SpecializedType? && TypeOk(false, t)
    ensures AsQual(ReadTerm(u, TypeTerm(u, t))) == Some(KeptType(t))
    decreases t, 0
  {
    hide ReadTerm, QualTerm, KeptQual, QualOk, NameTerm, KeptName, NameOk, ExprTerm, KeptExpr, ExprOk, ListOf,
      ArgTerms, KeptArgs, ArgsOk, AsName, Listed;
    ArgListIsRead(u, t.args);
    SpecializedIsRead(u, t.template, t.args);
  }

  /** The type that a template with arguments is written as. */
  lemma {:induction false} SpecializedIsRead(u: Unit, template: DeclName, args: seq<TemplateArg>)
    requires NameOk(false, template)
    requires Listed(AsArg, ReadTerm(u, ListOfAll(ArgTerms(u, args)))) == Some(KeptArgs(args))
    ensures ReadTerm(u, Apply("TemplateSpecializationType", ATYPE, [CID, LIST],
                              [NameTerm(u, template), ListOfAll(ArgTerms(u, args))]))
         == AQual(QualType(false, false, false, SpecializedType(KeptName(template), KeptArgs(args))))
    decreases template, 1
  {
    hide ReadTerm, NameTerm, KeptName, NameOk, ListOfAll, ArgTerms, KeptArgs, AsName, Listed;
    var a, b := NameTerm(u, template), ListOfAll(ArgTerms(u, args));
    NameIsRead(u, template);
    Read2(u, a, b);
    TypeNode(u, KApply("TemplateSpecializationType", ATYPE, [CID, LIST]), [a, b]);
  }

  lemma AutoIsRead(u: Unit, isDecltype: bool)
    ensures AsQual(ReadTerm(u, TypeTerm(u, Auto(None, isDecltype)))) == Some(KeptType(Auto(None, isDecltype)))
  {
    hide ReadTerm, QualTerm, KeptQual, NameTerm, KeptName, ExprTerm, KeptExpr, ArgTerm, KeptArg, BoolToken, AsBool;
    var a := BoolToken(isDecltype);
    BoolIsRead(u, isDecltype);
    Read1(u, a);
    TypeNode(u, KApply("AutoType", ATYPE, [BOOL]), [a]);
  }

  lemma {:induction false} ExceptionsAreRead(u: Unit, spec: ExceptionSpec)
    requires ExceptionsOk(false, spec)
    ensures AsExceptions(ReadTerm(u, ExceptionsTerm(u, spec))) == Some(KeptExceptions(spec))
    decreases spec, 1
  {
    hide ReadTerm, QualTerms, KeptQuals, QualsOk, ExprTerm, KeptExpr, ExprOk;
    match spec
    case NoSpec =>
      ReadNone(u);
      ExceptionsNode(u, KApply("NoExceptionSpec", EXCEPTIONSPEC, []), []);
    case BasicNoexcept =>
      MarkIsRead(u, "NoExpression", AEXPR);
      NoexceptIsRead(u, NoExpression(), None);
    case ComputedNoexcept(cond) =>
      ExprIsRead(u, cond);
      NoexceptIsRead(u, ExprTerm(u, cond), Some(KeptExpr(cond)));
    case DynamicNone => ThrowIsRead(u, [], []);
    case Dynamic(thrown) =>
      QualsAreRead(u, thrown);
      ThrowIsRead(u, QualTerms(u, thrown), KeptQuals(thrown));
  }

  lemma NoexceptIsRead(u: Unit, t: Term, cond: Option<Expr>)
    requires Maybe(AsExpr, ReadTerm(u, t), "NoExpression", AEXPR) == Some(cond)
    ensures AsExceptions(ReadTerm(u, Apply("NoexceptSpec", EXCEPTIONSPEC, [AEXPR], [t])))
         == Some(match cond case Some(e) => ComputedNoexcept(e) case None => BasicNoexcept)
  {
    hide ReadTerm;
    Read1(u, t);
    ExceptionsNode(u, KApply("NoexceptSpec", EXCEPTIONSPEC, [AEXPR]), [t]);
  }

  lemma ThrowIsRead(u: Unit, ts: seq<Term>, thrown: seq<QualType>)
    requires All(AsQual, ReadTerms(u, ts)) == Some(thrown)
    ensures AsExceptions(ReadTerm(u, Apply("ThrowSpec", EXCEPTIONSPEC, [STRICTLIST], [StrictListOfAll(ts)])))
         == Some(if thrown == [] then DynamicNone else Dynamic(thrown))
  {
    hide ReadTerm, StrictListOfAll, StrictlyListed, All;
    var a := StrictListOfAll(ts);
    ListIsRead(u, AsQual, ts);
    Read1(u, a);
    ExceptionsNode(u, KApply("ThrowSpec", EXCEPTIONSPEC, [STRICTLIST]), [a]);
  }

  lemma IdentifierIsRead(u: Unit, id: Bytes)
    ensures ReadTerm(u, IdentifierTerm(u, id)) == AName(Ident(Some(id), 0))
  {
    hide ReadTerm, AsString, StringToken;
    var a := StringToken(u, id);
    StringIsRead(u, id);
    Read1(u, a);
    NameNode(u, KApply("Identifier", CID, [STRING]), [a]);
  }

  lemma IdIsRead(u: Unit, id: Option<Bytes>, decl: nat)
    ensures ReadTerm(u, IdTerm(u, id, decl)) == AName(Ident(id, if id.Some? then 0 else decl))
  {
    hide ReadTerm, AsString, StringToken, IdentifierTerm, IntToken, AsInt;
    match id
    case Some(name) => IdentifierIsRead(u, name);
    case None =>
      if decl == 0 {
        ReadNone(u);
        NameNode(u, KApply("#NoName_COMMON-SYNTAX", NONAME, []), []);
      } else {
        var a, b := IntToken(decl), StringToken(u, u.inFile);
        IntIsRead(u, decl);
        StringIsRead(u, u.inFile);
        Read2(u, a, b);
        NameNode(u, KApply("unnamed", UNNAMEDCID, [INT, STRING]), [a, b]);
      }
  }

  lemma {:induction false} NameIsRead(u: Unit, name: DeclName)
    requires NameOk(false, name)
    ensures AsName(ReadTerm(u, NameTerm(u, name))) == Some(KeptName(name))
    decreases name, 0
  {
    hide ReadTerm, QualTerm, KeptQual, QualOk, IdTerm, AsOperator, AsString;
    match name
    case Ident(id, decl) => IdIsRead(u, id, decl);
    case TypeName(ty) =>
      QualIsRead(u, ty);
      Read1(u, QualTerm(u, ty));
      NameNode(u, KApply("TypeId", TYPEID, [ATYPE]), [QualTerm(u, ty)]);
    case DestructorName(ty) =>
      QualIsRead(u, ty);
      Read1(u, QualTerm(u, ty));
      NameNode(u, KApply("DestructorTypeId", DESTRUCTORID, [ATYPE]), [QualTerm(u, ty)]);
    case OperatorName(spelling) => OperatorIsRead(u, spelling);
  }

  lemma {:induction false} ScopeIsRead(u: Unit, scope: Nested)
    requires NestedOk(false, scope)
    ensures AsScope(ReadTerm(u, NestedTerm(u, scope))) == Some(KeptScope(scope))
    decreases scope, 0
  {
    hide ReadTerm, NestedSpecTerm, KeptSpec, NestedSpecOk;
    match scope
    case Unqualified => NoScopeIsRead(u);
    case Nested(prefix, spec) =>
      ScopeSpecIsRead(u, spec);
      if prefix.Nested? {
        var a, b := NestedTerm(u, prefix), NestedSpecTerm(u, spec);
        ScopeIsRead(u, prefix);
        Read2(u, a, b);
        ScopeNode(u, KApply("NestedName", NNS, [NNS, NNSSPECIFIER]), [a, b]);
      }
  }

  lemma {:induction false} ScopeSpecIsRead(u: Unit, spec: NestedSpec)
    requires NestedSpecOk(false, spec)
    ensures ReadTerm(u, NestedSpecTerm(u, spec)) == AScopeSpec(KeptSpec(spec))
    decreases spec, 0
  {
    hide ReadTerm, QualTerm, KeptQual, QualOk, NameTerm, KeptName, NameOk, OperatorOf;
    match spec
    case NameSpec(name) =>
      NameIsRead(u, name);
      Read1(u, NameTerm(u, name));
      ScopeNode(u, KApply("NNS", NNSSPECIFIER, [CID]), [NameTerm(u, name)]);
    case TypeSpec(ty) =>
      QualIsRead(u, ty);
      Read1(u, QualTerm(u, ty));
      ScopeNode(u, KApply("NNS", NNSSPECIFIER, [CID]), [QualTerm(u, ty)]);
    case TemplateTypeSpec(ty) =>
      QualIsRead(u, ty);
      Read1(u, QualTerm(u, ty));
      ScopeNode(u, KApply("TemplateNNS", NNSSPECIFIER, [CID]), [QualTerm(u, ty)]);
    case GlobalSpec =>
      ReadNone(u);
      ScopeNode(u, KApply("GlobalNamespace", NAMESPACE, []), []);
  }

  lemma {:induction false} ArgIsRead(u: Unit, arg: TemplateArg)
    requires ArgOk(false, arg)
    ensures AsArg(ReadTerm(u, ArgTerm(u, arg))) == Some(KeptArg(arg))
    decreases arg, 0
  {
    hide ReadTerm, QualTerm, KeptQual, QualOk, NameTerm, KeptName, NameOk, ExprTerm, KeptExpr, ExprOk, ArgTerms,
      KeptArgs, ArgsOk, AsName, ListOf, Listed, IntegerTerm;
    match arg
    case TypeArg(ty) =>
      QualIsRead(u, ty);
      Read1(u, QualTerm(u, ty));
      ArgNode(u, KApply("TypeArg", TEMPLATEARGUMENT, [ATYPE]), [QualTerm(u, ty)]);
    case NameArg(name) =>
      NameIsRead(u, name);
      Read1(u, NameTerm(u, name));
      ArgNode(u, KApply("TemplateArg", TEMPLATEARGUMENT, [CID]), [NameTerm(u, name)]);
    case ExprArg(e) =>
      ExprIsRead(u, e);
      Read1(u, ExprTerm(u, e));
      ArgNode(u, KApply("ExprArg", TEMPLATEARGUMENT, [EXPR]), [ExprTerm(u, e)]);
    case IntegralArg(value, ty) =>
      IntegerIsRead(u, value, ty);
      Read1(u, IntegerTerm(u, value, ty));
      ArgNode(u, KApply("ExprArg", TEMPLATEARGUMENT, [EXPR]), [IntegerTerm(u, value, ty)]);
    case PackArg(args) =>
      ArgListIsRead(u, args);
      Read1(u, ListOf(|args|, ArgTerms(u, args)));
      ArgNode(u, KApply("PackArg", TEMPLATEARGUMENT, [LIST]), [ListOf(|args|, ArgTerms(u, args))]);
  }

  lemma {:induction false} IntegerIsRead(u: Unit, value: nat, ty: QualType)
    requires QualOk(false, ty)
    ensures ReadTerm(u, IntegerTerm(u, value, ty)) == AKind(IntegerLit(value, KeptQual(ty)))
    decreases ty, 1
  {
    hide ReadTerm, QualTerm, KeptQual, QualOk, IntToken, AsInt, BuildOperation;
    var a, b := IntToken(value), QualTerm(u, ty);
    IntIsRead(u, value);
    QualIsRead(u, ty);
    Read2(u, a, b);
    KindNode(u, KApply("IntegerLiteral", EXPR, [INT, ATYPE]), [a, b]);
  }

  lemma {:induction false} ArgListIsRead(u: Unit, args: seq<TemplateArg>)
    requires ArgsOk(false, args)
    ensures Listed(AsArg, ReadTerm(u, ListOfAll(ArgTerms(u, args)))) == Some(KeptArgs(args))
    decreases args, 1
  {
    hide ReadTerm, ArgTerm, KeptArg, ArgOk, ListOf, Listed;
    forall i | 0 <= i < |args| ensures AsArg(ReadTerms(u, ArgTerms(u, args))[i]) == Some(KeptArgs(args)[i]) {
      ArgIsRead(u, args[i]);
    }
    AllOf(AsArg, ReadTerms(u, ArgTerms(u, args)), KeptArgs(args));
    ListIsRead(u, AsArg, ArgTerms(u, args));
  }

  lemma {:induction false} MaybeArgIsRead(u: Unit, arg: Option<TemplateArg>)
    requires match arg case Some(a) => ArgOk(false, a) case None => true
    ensures Maybe(AsArg, ReadTerm(u, match arg case Some(a) => ArgTerm(u, a) case None => NoType()), "NoType", ATYPERESULT)
         == Some(KeptMaybeArg(arg))
    decreases arg, 0
  {
    hide ReadTerm, ArgTerm, KeptArg, ArgOk;
    match arg
    case Some(a) => ArgIsRead(u, a);
    case None => MarkIsRead(u, "NoType", ATYPERESULT);
  }

  // ----- Expressions -----

  lemma WrapOne(layer: Layer, t: Term)
    ensures Wrap([layer], t) == Term(layer.node, layer.before + [t])
  {
    assert [layer][1..] == [];
  }

  lemma {:induction false} ExprIsRead(u: Unit, e: Expr)
    requires ExprOk(false, e)
    ensures AsExpr(ReadTerm(u, ExprTerm(u, e))) == Some(KeptExpr(e))
    decreases e, 0
  {
    hide ReadTerm, KindTerm, KeptKind, KindOk, LocTerm, Wrap;
    match e
    case DefaultArg =>
      ReadNone(u);
      SequenceIsRead(u, []);
    case Expr(loc, kind) =>
      var a, b := LocTerm(u, loc), KindTerm(u, kind);
      LocIsRead(u, loc);
      KindIsRead(u, kind);
      WrapOne(LayerOf("ExprLoc", EXPRLOC, [CABSLOC, KITEM], [a]), b);
      assert [a] + [b] == [a, b];
      Read2(u, a, b);
      ExprNode(u, KApply("ExprLoc", EXPRLOC, [CABSLOC, KITEM]), [a, b]);
  }

  lemma {:induction false} ExprsAreRead(u: Unit, es: seq<Expr>)
    requires ExprsOk(false, es)
    ensures Listed(AsExpr, ReadTerm(u, ListOfAll(ExprTerms(u, es)))) == Some(KeptExprs(es))
    ensures StrictlyListed(AsExpr, ReadTerm(u, StrictListOfAll(ExprTerms(u, es)))) == Some(KeptExprs(es))
    decreases es, 1
  {
    hide ReadTerm, ExprTerm, KeptExpr, ExprOk, ListOfAll, StrictListOfAll, Listed, StrictlyListed;
    forall i | 0 <= i < |es| ensures AsExpr(ReadTerms(u, ExprTerms(u, es))[i]) == Some(KeptExprs(es)[i]) {
      ExprIsRead(u, es[i]);
    }
    AllOf(AsExpr, ReadTerms(u, ExprTerms(u, es)), KeptExprs(es));
    ListIsRead(u, AsExpr, ExprTerms(u, es));
  }

  lemma {:induction false} MaybeExprIsRead(u: Unit, e: Option<Expr>)
    requires MaybeExprOk(false, e)
    ensures Maybe(AsExpr, ReadTerm(u, ExprOr(u, e, NoExpression())), "NoExpression", AEXPR) == Some(KeptMaybeExpr(e))
    ensures Maybe(AsExpr, ReadTerm(u, ExprOr(u, e, NoInit())), "NoInit", INIT) == Some(KeptMaybeExpr(e))
    decreases e, 0
  {
    hide ReadTerm, ExprTerm, KeptExpr, ExprOk;
    match e
    case Some(x) => ExprIsRead(u, x);
    case None =>
      MarkIsRead(u, "NoExpression", AEXPR);
      NoInitIsRead(u);
  }

  lemma {:induction false} KindIsRead(u: Unit, e: ExprKind)
    requires KindOk(false, e)
    ensures AsKind(ReadTerm(u, KindTerm(u, e))) == Some(KeptKind(e))
    decreases e, 1
  {
    hide ReadTerm, KindTerm, KeptKind;
    match e
    case IntegerLit(_, _) => IntegerLitIsRead(u, e);
    case BoolLit(b) => BoolLitIsRead(u, b);
    case StringLit(charKind, bytes) => StringLitIsRead(u, charKind, bytes);
    case NullPtrLit => BareKindIsRead(u, e);
    case This => BareKindIsRead(u, e);
    case OverloadedCall => BareKindIsRead(u, e);
    case Lookup(_, _) => LookupIsRead(u, e);
    case Member(_, _, _, _, _) => MemberIsRead(u, e);
    case Call(_, _) => CallIsRead(u, e);
    case OneOperand(_, _) => OneOperandIsRead(u, e);
    case TwoOperands(_, _, _) => TwoOperandsAreRead(u, e);
    case Construction(_, _, _) => ConstructionIsRead(u, e);
    case ConstructorCall(_, _, _) => ConstructorCallIsRead(u, e);
    case New(_, _, _, _, _) => NewIsRead(u, e);
    case Lambda(_, _, _, _, _) => LambdaIsRead(u, e);
    case InitList(_) => InitListIsRead(u, e);
  }

  lemma {:induction false} IntegerLitIsRead(u: Unit, e: ExprKind)
    requires e.IntegerLit? && KindOk(false, e)
    ensures AsKind(ReadTerm(u, KindTerm(u, e))) == Some(KeptKind(e))
    decreases e, 0
  {
    hide ReadTerm, IntegerTerm, QualTerm, KeptQual, QualOk, NameTerm, KeptName, NameOk, NestedTerm, KeptScope,
      NestedOk, ExprTerm, KeptExpr, ExprOk, StmtTerm, KeptStmt, StmtOk, CaptureTerm, KeptCapture, CaptureOk;
    IntegerIsRead(u, e.value, e.ty);
  }

  lemma BoolLitIsRead(u: Unit, b: bool)
    ensures AsKind(ReadTerm(u, KindTerm(u, BoolLit(b)))) == Some(KeptKind(BoolLit(b)))
  {
    hide ReadTerm, BuildOperation, BoolToken, AsBool, QualTerm, KeptQual, QualOk, NameTerm, KeptName, NameOk,
      NestedTerm, KeptScope, NestedOk, ExprTerm, KeptExpr, ExprOk, StmtTerm, KeptStmt, StmtOk, CaptureTerm,
      KeptCapture, CaptureOk;
    BoolIsRead(u, b);
    Read1(u, BoolToken(b));
    KindNode(u, KApply("BoolLiteral", EXPR, [BOOL]), [BoolToken(b)]);
  }

  lemma StringLitIsRead(u: Unit, charKind: string, bytes: Bytes)
    ensures AsKind(ReadTerm(u, KindTerm(u, StringLit(charKind, bytes)))) == Some(KeptKind(StringLit(charKind, bytes)))
  {
    hide ReadTerm, BuildOperation, StringToken, AsString, QualTerm, KeptQual, QualOk, NameTerm, KeptName, NameOk,
      NestedTerm, KeptScope, NestedOk, ExprTerm, KeptExpr, ExprOk, StmtTerm, KeptStmt, StmtOk, CaptureTerm,
      KeptCapture, CaptureOk;
    var a, b := Leaf(charKind, CHARKIND), StringToken(u, bytes);
    MarkIsRead(u, charKind, CHARKIND);
    StringIsRead(u, bytes);
    Read2(u, a, b);
    KindNode(u, KApply("StringLiteral", EXPR, [CHARKIND, STRING]), [a, b]);
  }

  lemma BareKindIsRead(u: Unit, e: ExprKind)
    requires e.NullPtrLit? || e.This? || e.OverloadedCall?
    ensures AsKind(ReadTerm(u, KindTerm(u, e))) == Some(KeptKind(e))
  {
    hide ReadTerm, QualTerm, KeptQual, QualOk, NameTerm, KeptName, NameOk, NestedTerm, KeptScope, NestedOk, ExprTerm,
      KeptExpr, ExprOk, StmtTerm, KeptStmt, StmtOk, CaptureTerm, KeptCapture, CaptureOk;
    ReadNone(u);
    match e
    case NullPtrLit => KindNode(u, KApply("NullPointerLiteral", EXPR, []), []);
    case This => ThisIsRead(u);
    case OverloadedCall => KindNode(u, KApply("OverloadedCall", EXPR, []), []);
  }

  lemma ThisIsRead(u: Unit)
    ensures ReadTerm(u, Leaf("This", THIS)) == AKind(This)
  {
    hide ReadTerm;
    ReadNone(u);
    OperationNode(u, KApply("This", THIS, []), []);
  }

  lemma QualifiedNameIsRead(u: Unit, a: Term, b: Term, scope: Nested, name: DeclName)
    requires AsScope(ReadTerm(u, a)) == Some(scope) && AsName(ReadTerm(u, b)) == Some(name)
    ensures ReadTerm(u, Apply("Name", NAME, [NNS, CID], [a, b])) == AQualifiedName(scope, name)
  {
    hide ReadTerm, AsScope, AsName, AsString;
    Read2(u, a, b);
    NameNode(u, KApply("Name", NAME, [NNS, CID]), [a, b]);
  }

  lemma {:induction false} LookupIsRead(u: Unit, e: ExprKind)
    requires e.Lookup? && KindOk(false, e)
    ensures AsKind(ReadTerm(u, KindTerm(u, e))) == Some(KeptKind(e))
    decreases e, 0
  {
    hide ReadTerm, QualTerm, KeptQual, QualOk, NameTerm, KeptName, NameOk, NestedTerm, KeptScope, NestedOk, ExprTerm,
      KeptExpr, ExprOk, StmtTerm, KeptStmt, StmtOk, CaptureTerm, KeptCapture, CaptureOk;
    ScopeIsRead(u, e.scope);
    NameIsRead(u, e.name);
    QualifiedNameIsRead(u, NestedTerm(u, e.scope), NameTerm(u, e.name), KeptScope(e.scope), KeptName(e.name));
  }

  lemma {:induction false} MemberIsRead(u: Unit, e: ExprKind)
    requires e.Member? && KindOk(false, e)
    ensures AsKind(ReadTerm(u, KindTerm(u, e))) == Some(KeptKind(e))
    decreases e, 0
  {
    hide ReadTerm, BuildOperation, BoolToken, AsBool, AsString, QualTerm, KeptQual, QualOk, NameTerm, KeptName,
      NameOk, NestedTerm, KeptScope, NestedOk, ExprTerm, KeptExpr, ExprOk, StmtTerm, KeptStmt, StmtOk, CaptureTerm,
      KeptCapture, CaptureOk;
    var a, b := BoolToken(e.arrow), BoolToken(e.templated);
    var c, d := Apply("Name", NAME, [NNS, CID], [NestedTerm(u, e.scope), NameTerm(u, e.name)]), ExprTerm(u, e.base);
    BoolIsRead(u, e.arrow);
    BoolIsRead(u, e.templated);
    ScopeIsRead(u, e.scope);
    NameIsRead(u, e.name);
    QualifiedNameIsRead(u, NestedTerm(u, e.scope), NameTerm(u, e.name), KeptScope(e.scope), KeptName(e.name));
    ExprIsRead(u, e.base);
    Read4(u, a, b, c, d);
    KindNode(u, KApply("MemberExpr", EXPR, [BOOL, BOOL, NAME, EXPR]), [a, b, c, d]);
  }

  lemma EmptyResultIsRead(u: Unit)
    ensures ReadTerm(u, Apply("krlist", STRICTLISTRESULT, [LIST], [Leaf(".List", LIST)])) == AnEmptyResult
  {
    hide ReadTerm;
    ReadNone(u);
    ListNode(u, KApply(".List", LIST, []), []);
    Read1(u, Leaf(".List", LIST));
    ListNode(u, KApply("krlist", STRICTLISTRESULT, [LIST]), [Leaf(".List", LIST)]);
  }

  lemma {:induction false} CallIsRead(u: Unit, e: ExprKind)
    requires e.Call? && KindOk(false, e)
    ensures AsKind(ReadTerm(u, KindTerm(u, e))) == Some(KeptKind(e))
    decreases e, 0
  {
    hide ReadTerm, StrictListOf, StrictlyListed, ExprTerms, KeptExprs, ExprsOk, QualTerm, KeptQual, QualOk, NameTerm,
      KeptName, NameOk, NestedTerm, KeptScope, NestedOk, ExprTerm, KeptExpr, ExprOk, StmtTerm, KeptStmt, StmtOk,
      CaptureTerm, KeptCapture, CaptureOk;
    var a, b := ExprTerm(u, e.callee), StrictListOf(|e.args|, ExprTerms(u, e.args));
    var c := Apply("krlist", STRICTLISTRESULT, [LIST], [Leaf(".List", LIST)]);
    ExprIsRead(u, e.callee);
    ExprsAreRead(u, e.args);
    EmptyResultIsRead(u);
    Read3(u, a, b, c);
    OperationNode(u, KApply("CallExpr", RESOLVEDEXPR, [EXPR, STRICTLIST, STRICTLISTRESULT]), [a, b, c]);
  }

  lemma UnaryIsRead(u: Unit, spelling: string, operand: Term, e: Expr)
    requires AsExpr(ReadTerm(u, operand)) == Some(e)
    ensures ReadTerm(u, UnaryTerm(spelling, operand)) == AKind(OneOperand(UnaryOp(spelling), e))
  {
    hide ReadTerm, BuildOperation, OperatorLeaf, AsOperator, AsString;
    var a := OperatorLeaf(spelling);
    OperatorIsRead(u, spelling);
    Read2(u, a, operand);
    KindNode(u, KApply("UnaryOperator", EXPR, [OPID, EXPR]), [a, operand]);
  }

  lemma {:induction false} OneOperandIsRead(u: Unit, e: ExprKind)
    requires e.OneOperand? && KindOk(false, e)
    ensures AsKind(ReadTerm(u, KindTerm(u, e))) == Some(KeptKind(e))
    decreases e, 0
  {
    hide ReadTerm, UnaryTerm, QualTerm, KeptQual, QualOk, NameTerm, KeptName, NameOk, NestedTerm, KeptScope, NestedOk,
      ExprTerm, KeptExpr, ExprOk, StmtTerm, KeptStmt, StmtOk, CaptureTerm, KeptCapture, CaptureOk;
    ExprIsRead(u, e.operand);
    UnaryIsRead(u, Prefix(e.one), ExprTerm(u, e.operand), KeptExpr(e.operand));
  }

  lemma BinaryIsRead(u: Unit, spelling: string, left: Term, right: Term, l: Expr, r: Expr)
    requires AsExpr(ReadTerm(u, left)) == Some(l) && AsExpr(ReadTerm(u, right)) == Some(r)
    ensures ReadTerm(u, Apply("BinaryOperator", EXPR, [OPID, EXPR, INIT], [OperatorLeaf(spelling), left, right]))
         == AKind(TwoOperands(BinaryOp(spelling), l, r))
  {
    hide ReadTerm, BuildOperation, OperatorLeaf, AsOperator, AsString;
    var a := OperatorLeaf(spelling);
    OperatorIsRead(u, spelling);
    Read3(u, a, left, right);
    KindNode(u, KApply("BinaryOperator", EXPR, [OPID, EXPR, INIT]), [a, left, right]);
  }

  lemma {:induction false} TwoOperandsAreRead(u: Unit, e: ExprKind)
    requires e.TwoOperands? && KindOk(false, e)
    ensures AsKind(ReadTerm(u, KindTerm(u, e))) == Some(KeptKind(e))
    decreases e, 0
  {
    hide ReadTerm, UnaryTerm, OperatorLeaf, QualTerm, KeptQual, QualOk, NameTerm, KeptName, NameOk, NestedTerm,
      KeptScope, NestedOk, ExprTerm, KeptExpr, ExprOk, StmtTerm, KeptStmt, StmtOk, CaptureTerm, KeptCapture,
      CaptureOk;
    ExprIsRead(u, e.left);
    if e.two.IncrementOp? {
      UnaryIsRead(u, "_++", ExprTerm(u, e.left), KeptExpr(e.left));
    } else if e.two.DecrementOp? {
      UnaryIsRead(u, "_--", ExprTerm(u, e.left), KeptExpr(e.left));
    } else {
      ExprIsRead(u, e.right);
      BinaryIsRead(u, Infix(e.two), ExprTerm(u, e.left), ExprTerm(u, e.right), KeptExpr(e.left), KeptExpr(e.right));
    }
  }

  lemma {:induction false} ConstructionIsRead(u: Unit, e: ExprKind)
    requires e.Construction? && KindOk(false, e)
    ensures AsKind(ReadTerm(u, KindTerm(u, e))) == Some(KeptKind(e))
    decreases e, 0
  {
    hide ReadTerm, BuildKind, BuildOperation, BuildConstruction, ListOf, Listed, ExprTerms, KeptExprs, ExprsOk,
      QualTerm, KeptQual, QualOk, NameTerm, KeptName, NameOk, NestedTerm, KeptScope, NestedOk, ExprTerm, KeptExpr,
      ExprOk, StmtTerm, KeptStmt, StmtOk, CaptureTerm, KeptCapture, CaptureOk;
    var a, b := QualTerm(u, e.ty), ListOf(|e.args|, ExprTerms(u, e.args));
    QualIsRead(u, e.ty);
    ExprsAreRead(u, e.args);
    Read2(u, a, b);
    KindNode(u, KApply(ConstructionLabel(e.form), EXPR, [ATYPE, LIST]), [a, b]);
    ConstructionIsBuilt(u, e.form, ReadTerm(u, a), ReadTerm(u, b), KeptQual(e.ty), KeptExprs(e.args));
  }

  lemma ConstructionIsBuilt(u: Unit, form: ConstructionForm, a: Part, b: Part, ty: QualType, args: seq<Expr>)
    requires AsQual(a) == Some(ty) && Listed(AsExpr, b) == Some(args)
    ensures BuildKind(u, KApply(ConstructionLabel(form), EXPR, [ATYPE, LIST]), [a, b])
         == Some(AKind(Construction(form, ty, args)))
  {
    hide Listed, AsString, AsInt, AsBool, AsOperator;
  }

  lemma {:induction false} ConstructorCallIsRead(u: Unit, e: ExprKind)
    requires e.ConstructorCall? && KindOk(false, e)
    ensures AsKind(ReadTerm(u, KindTerm(u, e))) == Some(KeptKind(e))
    decreases e, 0
  {
    hide ReadTerm, ListOf, Listed, ExprTerms, KeptExprs, ExprsOk, BoolToken, AsBool, QualTerm, KeptQual, QualOk,
      NameTerm, KeptName, NameOk, NestedTerm, KeptScope, NestedOk, ExprTerm, KeptExpr, ExprOk, StmtTerm, KeptStmt,
      StmtOk, CaptureTerm, KeptCapture, CaptureOk;
    var a, b, c := BoolToken(e.zeroInit), QualTerm(u, e.ty), ListOf(|e.args|, ExprTerms(u, e.args));
    BoolIsRead(u, e.zeroInit);
    QualIsRead(u, e.ty);
    ExprsAreRead(u, e.args);
    Read3(u, a, b, c);
    OperationNode(u, KApply("ConstructorCall", INIT, [BOOL, ATYPE, LIST]), [a, b, c]);
  }

  lemma {:induction false} NewIsRead(u: Unit, e: ExprKind)
    requires e.New? && KindOk(false, e)
    ensures AsKind(ReadTerm(u, KindTerm(u, e))) == Some(KeptKind(e))
    decreases e, 0
  {
    hide ReadTerm, BuildKind, BuildOperation, ListOf, Listed, ExprTerms, KeptExprs, ExprsOk, BoolToken, AsBool,
      ExprOr, KeptMaybeExpr, MaybeExprOk, Maybe, NoExpression, NoInit, QualTerm, KeptQual, QualOk, NameTerm, KeptName,
      NameOk, NestedTerm, KeptScope, NestedOk, ExprTerm, KeptExpr, ExprOk, StmtTerm, KeptStmt, StmtOk, CaptureTerm,
      KeptCapture, CaptureOk;
    var a, b, c := BoolToken(e.global), QualTerm(u, e.ty), ExprOr(u, e.count, NoExpression());
    var d, f := ExprOr(u, e.init, NoInit()), ListOf(|e.placement|, ExprTerms(u, e.placement));
    BoolIsRead(u, e.global);
    QualIsRead(u, e.ty);
    MaybeExprIsRead(u, e.count);
    MaybeExprIsRead(u, e.init);
    ExprsAreRead(u, e.placement);
    Read5(u, a, b, c, d, f);
    KindNode(u, KApply("NewExpr", EXPR, [BOOL, ATYPE, AEXPR, INIT, LIST]), [a, b, c, d, f]);
    NewIsBuilt(u, ReadTerm(u, a), ReadTerm(u, b), ReadTerm(u, c), ReadTerm(u, d), ReadTerm(u, f), KeptKind(e));
  }

  lemma NewIsBuilt(u: Unit, a: Part, b: Part, c: Part, d: Part, f: Part, e: ExprKind)
    requires e.New? && AsBool(a) == Some(e.global) && AsQual(b) == Some(e.ty)
    requires Maybe(AsExpr, c, "NoExpression", AEXPR) == Some(e.count) && Maybe(AsExpr, d, "NoInit", INIT) == Some(e.init)
    requires Listed(AsExpr, f) == Some(e.placement)
    ensures BuildKind(u, KApply("NewExpr", EXPR, [BOOL, ATYPE, AEXPR, INIT, LIST]), [a, b, c, d, f]) == Some(AKind(e))
  {
    hide Listed, Maybe, AsString, AsInt, AsBool, AsOperator;
  }

  lemma {:induction false} LambdaIsRead(u: Unit, e: ExprKind)
    requires e.Lambda? && KindOk(false, e)
    ensures AsKind(ReadTerm(u, KindTerm(u, e))) == Some(KeptKind(e))
    decreases e, 0
  {
    hide ReadTerm, BuildKind, BuildOperation, ListOf, Listed, CaptureTerms, KeptCaptures, CapturesOk, CountExplicit,
      QualTerm, KeptQual, QualOk, NameTerm, KeptName, NameOk, NestedTerm, KeptScope, NestedOk, ExprTerm, KeptExpr,
      ExprOk, StmtTerm, KeptStmt, StmtOk, CaptureTerm, KeptCapture, CaptureOk;
    var a := Leaf(e.capDefault, CAPTUREDEFAULT);
    var b := ListOf(CountExplicit(e.captures, e.explicitEnd), CaptureTerms(u, e.captures));
    var c, d := QualTerm(u, e.ty), StmtTerm(u, e.body);
    MarkIsRead(u, e.capDefault, CAPTUREDEFAULT);
    T.CapturesFit(false, u, e.captures);
    CapturesAreRead(u, e.captures);
    QualIsRead(u, e.ty);
    StmtIsRead(u, e.body);
    Read4(u, a, b, c, d);
    KindNode(u, KApply("Lambda", EXPR, [CAPTUREDEFAULT, LIST, ATYPE, ASTMT]), [a, b, c, d]);
    LambdaIsBuilt(u, ReadTerm(u, a), ReadTerm(u, b), ReadTerm(u, c), ReadTerm(u, d), KeptKind(e));
  }

  lemma LambdaIsBuilt(u: Unit, a: Part, b: Part, c: Part, d: Part, e: ExprKind)
    requires e.Lambda? && a == AMark(e.capDefault, CAPTUREDEFAULT) && Listed(AsCapture, b) == Some(e.captures)
    requires AsQual(c) == Some(e.ty) && AsStmt(d) == Some(e.body) && e.explicitEnd == |e.captures|
    ensures BuildKind(u, KApply("Lambda", EXPR, [CAPTUREDEFAULT, LIST, ATYPE, ASTMT]), [a, b, c, d]) == Some(AKind(e))
  {
    hide Listed, Maybe, AsString, AsInt, AsBool, AsOperator, AsStmt;
  }

  lemma {:induction false} InitListIsRead(u: Unit, e: ExprKind)
    requires e.InitList? && KindOk(false, e)
    ensures AsKind(ReadTerm(u, KindTerm(u, e))) == Some(KeptKind(e))
    decreases e, 0
  {
    hide ReadTerm, ListOf, Listed, ExprTerms, KeptExprs, ExprsOk, QualTerm, KeptQual, QualOk, NameTerm, KeptName,
      NameOk, NestedTerm, KeptScope, NestedOk, ExprTerm, KeptExpr, ExprOk, StmtTerm, KeptStmt, StmtOk, CaptureTerm,
      KeptCapture, CaptureOk;
    var a := ListOf(|e.inits|, ExprTerms(u, e.inits));
    ExprsAreRead(u, e.inits);
    Read1(u, a);
    OperationNode(u, KApply("BraceInit", BRACEINIT, [LIST]), [a]);
  }

  lemma {:induction false} CapturesAreRead(u: Unit, captures: seq<Capture>)
    requires CapturesOk(false, captures)
    ensures Listed(AsCapture, ReadTerm(u, ListOfAll(CaptureTerms(u, captures)))) == Some(KeptCaptures(captures))
    decreases captures, 2
  {
    hide ReadTerm, ReadTerms, CaptureTerms, KeptCaptures, CapturesOk, ListOfAll, Listed;
    AllCapturesAreRead(u, captures);
    ListIsRead(u, AsCapture, CaptureTerms(u, captures));
  }

  lemma {:induction false} AllCapturesAreRead(u: Unit, captures: seq<Capture>)
    requires CapturesOk(false, captures)
    ensures All(AsCapture, ReadTerms(u, CaptureTerms(u, captures))) == Some(KeptCaptures(captures))
    decreases captures, 1
  {
    hide ReadTerm, ReadTerms, CaptureTerm, KeptCapture, CaptureOk;
    if captures == [] {
      ReadNone(u);
    } else {
      var first, rest := captures[0], captures[1..];
      assert CapturesOk(false, rest);
      AllCapturesAreRead(u, rest);
      if first.isExplicit {
        CaptureIsRead(u, first);
        ReadFirst(u, CaptureTerm(u, first), CaptureTerms(u, rest));
        AllWithFirst(AsCapture, ReadTerm(u, CaptureTerm(u, first)), ReadTerms(u, CaptureTerms(u, rest)),
                     KeptCapture(first), KeptCaptures(rest));
      } else {
        assert [] + CaptureTerms(u, rest) == CaptureTerms(u, rest);
        assert [] + KeptCaptures(rest) == KeptCaptures(rest);
      }
    }
  }

  lemma {:induction false} CaptureIsRead(u: Unit, c: Capture)
    requires c.isExplicit && CaptureOk(false, c)
    ensures AsCapture(ReadTerm(u, CaptureTerm(u, c))) == Some(KeptCapture(c))
    decreases c, 0
  {
    hide ReadTerm, CapturedTerms, KeptCaptured, CapturedOk, BoolToken, AsBool, AsCaptured;
    var a, b := Only(CapturedTerms(u, c.what)), BoolToken(c.pack);
    CapturedIsRead(u, c.what);
    BoolIsRead(u, c.pack);
    assert CapturedTerms(u, c.what) + [b] == [a, b];
    Read2(u, a, b);
    CaptureNode(u, KApply("LambdaCapture", CAPTURE, [CAPTUREKIND, BOOL]), [a, b]);
  }

  lemma {:induction false} CapturedIsRead(u: Unit, what: Captured)
    requires CapturedOk(false, what)
    ensures |CapturedTerms(u, what)| == 1
    ensures AsCaptured(ReadTerm(u, Only(CapturedTerms(u, what)))) == Some(KeptCaptured(what))
    decreases what, 0
  {
    hide ReadTerm, DeclTerms, KeptDecl, PresentOk;
    match what
    case CaptureThis => ThisIsRead(u);
    case CaptureRef(variable) =>
      var a := Only(DeclTerms(u, variable));
      DeclIsRead(u, variable);
      assert DeclTerms(u, variable) == [a];
      Read1(u, a);
      CaptureNode(u, KApply("RefCapture", CAPTUREKIND, [DECL]), [a]);
    case CaptureCopy(variable) => DeclIsRead(u, variable);
  }

  function Only(ts: seq<Term>): Term {
    if |ts| == 1 then ts[0] else Term(KSequence(0), [])
  }

  // ----- Statements -----

  lemma {:induction false} StmtListIsRead(u: Unit, ss: seq<Stmt>)
    requires StmtsOk(false, ss)
    ensures Listed(AsStmt, ReadTerm(u, ListOfAll(StmtTerms(u, ss)))) == Some(KeptStmts(ss))
    decreases ss, 1
  {
    hide ReadTerm, StmtTerm, KeptStmt, StmtOk, ListOfAll, Listed;
    forall i | 0 <= i < |ss| ensures AsStmt(ReadTerms(u, StmtTerms(u, ss))[i]) == Some(KeptStmts(ss)[i]) {
      StmtIsRead(u, ss[i]);
    }
    AllOf(AsStmt, ReadTerms(u, StmtTerms(u, ss)), KeptStmts(ss));
    ListIsRead(u, AsStmt, StmtTerms(u, ss));
  }

  lemma {:induction false} MaybeStmtIsRead(u: Unit, s: Option<Stmt>)
    requires MaybeStmtOk(false, s)
    ensures Maybe(AsStmt, ReadTerm(u, StmtOr(u, s)), "NoStatement", ASTMT) == Some(KeptMaybeStmt(s))
    decreases s, 0
  {
    hide ReadTerm, StmtTerm, KeptStmt, StmtOk, BuildStmt;
    match s
    case Some(x) => StmtIsRead(u, x);
    case None => NoStatementIsRead(u);
  }

  lemma NoStatementIsRead(u: Unit)
    ensures ReadTerm(u, NoStatement()) == AMark("NoStatement", ASTMT)
  {
    hide ReadTerm;
    ReadNone(u);
    StmtNode(u, KApply("NoStatement", ASTMT, []), []);
  }

  lemma {:induction false} CondIsRead(u: Unit, cond: Cond)
    requires CondOk(false, cond)
    ensures |CondTerms(u, cond)| == 1 && AsCond(ReadTerm(u, Only(CondTerms(u, cond)))) == Some(KeptCond(cond))
    decreases cond, 0
  {
    hide ReadTerm, DeclTerms, KeptDecl, PresentOk, ExprTerm, KeptExpr, ExprOk;
    match cond
    case CondVar(variable) => DeclIsRead(u, variable);
    case CondExpr(expr) => ExprIsRead(u, expr);
  }

  lemma {:induction false} ExceptionIsRead(u: Unit, exception: Option<Decl>)
    requires CatchOk(false, exception)
    ensures |CatchTerms(u, exception)| == 1
    ensures Maybe(AsDecl, ReadTerm(u, Only(CatchTerms(u, exception))), "Ellipsis", CATCHDECL)
         == Some(KeptMaybeDecl(exception))
    decreases exception, 0
  {
    hide ReadTerm, DeclTerms, KeptDecl, PresentOk;
    match exception
    case Some(d) => DeclIsRead(u, d);
    case None => MarkIsRead(u, "Ellipsis", CATCHDECL);
  }

  lemma {:induction false} StmtIsRead(u: Unit, s: Stmt)
    requires StmtOk(false, s)
    ensures AsStmt(ReadTerm(u, StmtTerm(u, s))) == Some(KeptStmt(s))
    decreases s, 1
  {
    hide ReadTerm, BuildEnd, ExprTerm, KeptExpr, ExprOk, DeclTerms, KeptDecl, PresentOk, CondTerms, KeptCond, CondOk,
      StmtTerms, KeptStmts, StmtsOk, StmtOr, KeptMaybeStmt, MaybeStmtOk, CatchTerms, KeptMaybeDecl, CatchOk;
    match s
    case Break => BareStmtIsRead(u, s);
    case Continue => BareStmtIsRead(u, s);
    case Null => BareStmtIsRead(u, s);
    case ExprStmt(expr) => ExprIsRead(u, expr);
    case Compound(_) => CompoundIsRead(u, s);
    case If(_, _, _) => IfIsRead(u, s);
    case For(_, _, _, _) => ForIsRead(u, s);
    case While(_, _) => WhileIsRead(u, s);
    case Switch(_, _) => SwitchIsRead(u, s);
    case Case(_, _) => CaseIsRead(u, s);
    case Try(_, _) => TryIsRead(u, s);
    case Catch(_, _) => CatchIsRead(u, s);
  }

  lemma BareStmtIsRead(u: Unit, s: Stmt)
    requires s.Break? || s.Continue? || s.Null?
    ensures AsStmt(ReadTerm(u, StmtTerm(u, s))) == Some(KeptStmt(s))
    decreases s, 0
  {
    hide ReadTerm, Listed, ExprTerm, KeptExpr, ExprOk, DeclTerms, KeptDecl, PresentOk, CondTerms, KeptCond, CondOk,
      StmtTerms, KeptStmts, StmtsOk, StmtOr, KeptMaybeStmt, MaybeStmtOk, CatchTerms, KeptMaybeDecl, CatchOk;
    ReadNone(u);
    match s
    case Break => EndNode(u, KApply("TBreakStmt", STMT, []), []);
    case Continue => EndNode(u, KApply("ContinueStmt", STMT, []), []);
    case Null => EndNode(u, KApply("NullStmt", STMT, []), []);
  }

  lemma {:induction false} CompoundIsRead(u: Unit, s: Stmt)
    requires s.Compound? && StmtOk(false, s)
    ensures AsStmt(ReadTerm(u, StmtTerm(u, s))) == Some(KeptStmt(s))
    decreases s, 0
  {
    hide ReadTerm, ListOf, Listed, ExprTerm, KeptExpr, ExprOk, DeclTerms, KeptDecl, PresentOk, CondTerms, KeptCond,
      CondOk, StmtTerms, KeptStmts, StmtsOk, StmtOr, KeptMaybeStmt, MaybeStmtOk, CatchTerms, KeptMaybeDecl, CatchOk;
    var a := ListOf(|s.body|, StmtTerms(u, s.body));
    StmtListIsRead(u, s.body);
    Read1(u, a);
    StmtNode(u, KApply("CompoundAStmt", ASTMT, [LIST]), [a]);
  }

  lemma {:induction false} IfIsRead(u: Unit, s: Stmt)
    requires s.If? && StmtOk(false, s)
    ensures AsStmt(ReadTerm(u, StmtTerm(u, s))) == Some(KeptStmt(s))
    decreases s, 0
  {
    hide ReadTerm, ExprTerm, KeptExpr, ExprOk, DeclTerms, KeptDecl, PresentOk, CondTerms, KeptCond, CondOk, StmtTerms,
      KeptStmts, StmtsOk, StmtOr, KeptMaybeStmt, MaybeStmtOk, CatchTerms, KeptMaybeDecl, CatchOk;
    var a, b, c := Only(CondTerms(u, s.cond)), StmtTerm(u, s.thn), StmtOr(u, s.els);
    CondIsRead(u, s.cond);
    StmtIsRead(u, s.thn);
    MaybeStmtIsRead(u, s.els);
    assert CondTerms(u, s.cond) + [b, c] == [a, b, c];
    Read3(u, a, b, c);
    StmtNode(u, KApply("IfAStmt", ASTMT, [DECL, ASTMT, ASTMT]), [a, b, c]);
  }

  lemma {:induction false} ForIsRead(u: Unit, s: Stmt)
    requires s.For? && StmtOk(false, s)
    ensures AsStmt(ReadTerm(u, StmtTerm(u, s))) == Some(KeptStmt(s))
    decreases s, 0
  {
    hide ReadTerm, ExprOr, KeptMaybeExpr, MaybeExprOk, ExprTerm, KeptExpr, ExprOk, DeclTerms, KeptDecl, PresentOk,
      CondTerms, KeptCond, CondOk, StmtTerms, KeptStmts, StmtsOk, StmtOr, KeptMaybeStmt, MaybeStmtOk, CatchTerms,
      KeptMaybeDecl, CatchOk;
    var a, b := StmtOr(u, s.init), ExprOr(u, s.test, NoExpression());
    var c, d := ExprOr(u, s.inc, NoExpression()), StmtTerm(u, s.loop);
    MaybeStmtIsRead(u, s.init);
    MaybeExprIsRead(u, s.test);
    MaybeExprIsRead(u, s.inc);
    StmtIsRead(u, s.loop);
    Read4(u, a, b, c, d);
    StmtNode(u, KApply("ForAStmt", ASTMT, [ASTMT, AEXPR, AEXPR, ASTMT]), [a, b, c, d]);
  }

  lemma {:induction false} WhileIsRead(u: Unit, s: Stmt)
    requires s.While? && StmtOk(false, s)
    ensures AsStmt(ReadTerm(u, StmtTerm(u, s))) == Some(KeptStmt(s))
    decreases s, 0
  {
    hide ReadTerm, ExprTerm, KeptExpr, ExprOk, DeclTerms, KeptDecl, PresentOk, CondTerms, KeptCond, CondOk, StmtTerms,
      KeptStmts, StmtsOk, StmtOr, KeptMaybeStmt, MaybeStmtOk, CatchTerms, KeptMaybeDecl, CatchOk;
    var a, b := Only(CondTerms(u, s.cond)), StmtTerm(u, s.loop);
    CondIsRead(u, s.cond);
    StmtIsRead(u, s.loop);
    assert CondTerms(u, s.cond) + [b] == [a, b];
    Read2(u, a, b);
    StmtNode(u, KApply("WhileAStmt", ASTMT, [EXPR, ASTMT]), [a, b]);
  }

  lemma {:induction false} SwitchIsRead(u: Unit, s: Stmt)
    requires s.Switch? && StmtOk(false, s)
    ensures AsStmt(ReadTerm(u, StmtTerm(u, s))) == Some(KeptStmt(s))
    decreases s, 0
  {
    hide ReadTerm, ExprTerm, KeptExpr, ExprOk, DeclTerms, KeptDecl, PresentOk, CondTerms, KeptCond, CondOk, StmtTerms,
      KeptStmts, StmtsOk, StmtOr, KeptMaybeStmt, MaybeStmtOk, CatchTerms, KeptMaybeDecl, CatchOk;
    var a, b := Only(CondTerms(u, s.cond)), StmtTerm(u, s.cases);
    CondIsRead(u, s.cond);
    StmtIsRead(u, s.cases);
    assert CondTerms(u, s.cond) + [b] == [a, b];
    Read2(u, a, b);
    StmtNode(u, KApply("SwitchAStmt", ASTMT, [DECL, ASTMT]), [a, b]);
  }

  lemma {:induction false} CaseIsRead(u: Unit, s: Stmt)
    requires s.Case? && StmtOk(false, s)
    ensures AsStmt(ReadTerm(u, StmtTerm(u, s))) == Some(KeptStmt(s))
    decreases s, 0
  {
    hide ReadTerm, ExprTerm, KeptExpr, ExprOk, DeclTerms, KeptDecl, PresentOk, CondTerms, KeptCond, CondOk, StmtTerms,
      KeptStmts, StmtsOk, StmtOr, KeptMaybeStmt, MaybeStmtOk, CatchTerms, KeptMaybeDecl, CatchOk;
    var a, b := ExprTerm(u, s.value), StmtTerm(u, s.sub);
    ExprIsRead(u, s.value);
    StmtIsRead(u, s.sub);
    Read2(u, a, b);
    StmtNode(u, KApply("CaseAStmt", ASTMT, [EXPR, ASTMT]), [a, b]);
  }

  lemma {:induction false} TryIsRead(u: Unit, s: Stmt)
    requires s.Try? && StmtOk(false, s)
    ensures AsStmt(ReadTerm(u, StmtTerm(u, s))) == Some(KeptStmt(s))
    decreases s, 0
  {
    hide ReadTerm, ListOf, Listed, ExprTerm, KeptExpr, ExprOk, DeclTerms, KeptDecl, PresentOk, CondTerms, KeptCond,
      CondOk, StmtTerms, KeptStmts, StmtsOk, StmtOr, KeptMaybeStmt, MaybeStmtOk, CatchTerms, KeptMaybeDecl, CatchOk;
    var a, b := StmtTerm(u, s.block), ListOf(|s.handlers|, StmtTerms(u, s.handlers));
    StmtIsRead(u, s.block);
    StmtListIsRead(u, s.handlers);
    Read2(u, a, b);
    StmtNode(u, KApply("TryAStmt", ASTMT, [ASTMT, LIST]), [a, b]);
  }

  lemma {:induction false} CatchIsRead(u: Unit, s: Stmt)
    requires s.Catch? && StmtOk(false, s)
    ensures AsStmt(ReadTerm(u, StmtTerm(u, s))) == Some(KeptStmt(s))
    decreases s, 0
  {
    hide ReadTerm, ExprTerm, KeptExpr, ExprOk, DeclTerms, KeptDecl, PresentOk, CondTerms, KeptCond, CondOk, StmtTerms,
      KeptStmts, StmtsOk, StmtOr, KeptMaybeStmt, MaybeStmtOk, CatchTerms, KeptMaybeDecl, CatchOk;
    var a, b := Only(CatchTerms(u, s.exception)), StmtTerm(u, s.block);
    ExceptionIsRead(u, s.exception);
    StmtIsRead(u, s.block);
    assert CatchTerms(u, s.exception) + [b] == [a, b];
    Read2(u, a, b);
    StmtNode(u, KApply("CatchAStmt", ASTMT, [CATCHDECL, ASTMT]), [a, b]);
  }

  // ----- Declarations -----

  lemma {:induction false} DeclIsRead(u: Unit, d: Decl)
    requires PresentOk(false, d)
    ensures |DeclTerms(u, d)| == 1 && AsDecl(ReadTerm(u, Only(DeclTerms(u, d)))) == Some(KeptDecl(d))
    decreases d, 0
  {
    hide ReadTerm, DeclTerm, KeptDeclKind, DeclKindOk, LocTerm, Wrap;
    var a, b := LocTerm(u, d.loc), DeclTerm(u, d.kind);
    LocIsRead(u, d.loc);
    DeclKindIsRead(u, d.kind);
    WrapOne(LayerOf("DeclLoc", DECL, [CABSLOC, DECL], [a]), b);
    assert [a] + [b] == [a, b];
    LocatedIsRead(u, a, b, d.loc, KeptDeclKind(d.kind));
  }

  lemma LocatedIsRead(u: Unit, a: Term, b: Term, loc: Loc, k: DeclKind)
    requires AsLoc(ReadTerm(u, a)) == Some(loc) && ReadTerm(u, b) == ADeclKind(k)
    ensures ReadTerm(u, Apply("DeclLoc", DECL, [CABSLOC, DECL], [a, b])) == ADecl(Decl(false, false, loc, k))
  {
    hide ReadTerm, AsString, Specified, Listed, BuildTemplate;
    Read2(u, a, b);
    DeclNode(u, KApply("DeclLoc", DECL, [CABSLOC, DECL]), [a, b]);
  }

  lemma {:induction false} DeclsAreRead(u: Unit, ds: seq<Decl>)
    requires ContextOk(false, ds)
    ensures All(AsDecl, ReadTerms(u, AllDeclTerms(u, ds))) == Some(KeptDecls(ds))
    decreases ds, 1
  {
    hide ReadTerm, ReadTerms, DeclTerms, KeptDecl, DeclOk;
    if ds == [] {
      ReadNone(u);
    } else {
      var first, rest := ds[0], ds[1..];
      assert ContextOk(false, rest);
      DeclsAreRead(u, rest);
      if Excluded(first) {
        ExcludedLeavesNothing(u, first);
        assert [] + AllDeclTerms(u, rest) == AllDeclTerms(u, rest);
        assert [] + KeptDecls(rest) == KeptDecls(rest);
      } else {
        var t := Only(DeclTerms(u, first));
        assert PresentOk(false, first);
        DeclIsRead(u, first);
        assert DeclTerms(u, first) == [t];
        ReadFirst(u, t, AllDeclTerms(u, rest));
        AllWithFirst(AsDecl, ReadTerm(u, t), ReadTerms(u, AllDeclTerms(u, rest)), KeptDecl(first), KeptDecls(rest));
      }
    }
  }

  lemma ExcludedLeavesNothing(u: Unit, d: Decl)
    requires Excluded(d)
    ensures DeclTerms(u, d) == []
  {
  }

  lemma {:induction false} ContextIsRead(u: Unit, ds: seq<Decl>)
    requires ContextOk(false, ds)
    ensures Listed(AsDecl, ReadTerm(u, ContextTerm(u, ds))) == Some(KeptDecls(ds))
    decreases ds, 2
  {
    hide ReadTerm, ReadTerms, AllDeclTerms, KeptDecls, ContextOk, ListOf, Listed;
    DeclsAreRead(u, ds);
    T.DeclsFit(false, u, ds);
    ListIsRead(u, AsDecl, AllDeclTerms(u, ds));
  }

  lemma {:induction false} ParamDeclsAreRead(u: Unit, ds: seq<Decl>)
    requires AllPresentOk(false, ds)
    ensures Listed(AsDecl, ReadTerm(u, ParamsTerm(u, ds))) == Some(KeptDecls(ds))
    decreases ds, 2
  {
    hide ReadTerm, ReadTerms, AllDeclTerms, KeptDecls, DeclOk, ListOf, Listed;
    assert ContextOk(false, ds);
    DeclsAreRead(u, ds);
    T.DeclsFit(false, u, ds);
    T.FullCount(ds);
    ListIsRead(u, AsDecl, AllDeclTerms(u, ds));
  }

  /** A list of declarations under its full length. */
  ghost function ParamsTerm(u: Unit, ds: seq<Decl>): Term {
    ListOf(|ds|, AllDeclTerms(u, ds))
  }

  lemma {:induction false} DeclKindIsRead(u: Unit, k: DeclKind)
    requires DeclKindOk(false, k)
    ensures ReadTerm(u, DeclTerm(u, k)) == ADeclKind(KeptDeclKind(k))
    decreases k, 3
  {
    hide ReadTerm, DeclTerm, KeptDeclKind, FunctionOk, VarOk, RecordOk, TemplateTerm;
    match k
    case Function(f) =>
      FunctionIsRead(u, f);
      FunctionKind(u, f);
    case Var(v) =>
      VarIsRead(u, v);
      VarKind(u, v);
    case Field(_, _, _, _, _, _) => FieldIsRead(u, k);
    case Record(r) =>
      RecordIsRead(u, r);
      RecordKind(u, r);
    case OpaqueEnum(_, _, _) => OpaqueEnumIsRead(u, k);
    case EnumDef(_, _, _, _, _, _) => EnumDefIsRead(u, k);
    case EnumConstant(_, _) => EnumConstantIsRead(u, k);
    case AccessSpec(access) => AccessSpecIsRead(u, access);
    case TranslationUnit(_) => TranslationUnitIsRead(u, k);
    case Template(_, _, _) => TemplateIsRead(u, k);
    case TypeParam(_, _, _, _) => TypeParamIsRead(u, k);
    case ValueParam(_, _, _, _, _) => ValueParamIsRead(u, k);
    case TemplateParam(_, _, _, _) => TemplateParamIsRead(u, k);
    case ClassSpecialization(_, _, _) => ClassSpecializationIsRead(u, k);
    case PartialSpecialization(_, _, _) => PartialSpecializationIsRead(u, k);
  }

  lemma FunctionKind(u: Unit, f: FunctionDecl)
    ensures DeclTerm(u, Function(f)) == FunctionTerm(u, f) && KeptDeclKind(Function(f)) == Function(KeptFunction(f))
  {
    hide QualTerm, KeptQual, QualOk, NameTerm, KeptName, NameOk, NestedTerm, KeptScope, NestedOk, ExprTerm, KeptExpr,
      ExprOk, ExprOr, KeptMaybeExpr, MaybeExprOk, ContextTerm, KeptDecls, ContextOk, FunctionTerm, KeptFunction,
      VarTerm, KeptVar, RecordTerm, KeptRecord, TemplateTerm;
  }

  lemma VarKind(u: Unit, v: VarDecl)
    ensures DeclTerm(u, Var(v)) == VarTerm(u, v) && KeptDeclKind(Var(v)) == Var(KeptVar(v))
  {
    hide QualTerm, KeptQual, QualOk, NameTerm, KeptName, NameOk, NestedTerm, KeptScope, NestedOk, ExprTerm, KeptExpr,
      ExprOk, ExprOr, KeptMaybeExpr, MaybeExprOk, ContextTerm, KeptDecls, ContextOk, FunctionTerm, KeptFunction,
      VarTerm, KeptVar, RecordTerm, KeptRecord, TemplateTerm;
  }

  lemma RecordKind(u: Unit, r: RecordDecl)
    ensures DeclTerm(u, Record(r)) == RecordTerm(u, r) && KeptDeclKind(Record(r)) == Record(KeptRecord(r))
  {
    hide QualTerm, KeptQual, QualOk, NameTerm, KeptName, NameOk, NestedTerm, KeptScope, NestedOk, ExprTerm, KeptExpr,
      ExprOk, ExprOr, KeptMaybeExpr, MaybeExprOk, ContextTerm, KeptDecls, ContextOk, FunctionTerm, KeptFunction,
      VarTerm, KeptVar, RecordTerm, KeptRecord, TemplateTerm;
  }

  lemma {:induction false} FieldIsRead(u: Unit, k: DeclKind)
    requires k.Field? && DeclKindOk(false, k)
    ensures ReadTerm(u, DeclTerm(u, k)) == ADeclKind(KeptDeclKind(k))
    decreases k, 0
  {
    hide ReadTerm, BuildFunction, Wrap, SpecifierLayer, When, AsName, AsScope, BuildDeclarator, QualTerm, KeptQual,
      QualOk, NameTerm, KeptName, NameOk, NestedTerm, KeptScope, NestedOk, ExprTerm, KeptExpr, ExprOk, ExprOr,
      MaybeExprOk, ContextTerm, KeptDecls, ContextOk, FunctionTerm, KeptFunction, VarTerm, KeptVar, RecordTerm,
      KeptRecord, TemplateTerm;
    var a, b, c := NestedTerm(u, k.scope), NameTerm(u, k.name), QualTerm(u, k.ty);
    ScopeIsRead(u, k.scope);
    NameIsRead(u, k.name);
    QualIsRead(u, k.ty);
    var plain := Field(false, KeptMaybeExpr(k.width), KeptScope(k.scope), KeptName(k.name), KeptQual(k.ty),
                       if k.width.Some? then None else KeptMaybeExpr(k.init));
    match k.width
    case Some(width) =>
      ExprIsRead(u, width);
      BitFieldIsRead(u, a, b, c, ExprTerm(u, width), plain);
      MutableIsRead(u, k.isMutable,
                    Apply("BitFieldDecl", DECLARATOR, [NNS, CID, ATYPE, EXPR], [a, b, c, ExprTerm(u, width)]), plain);
    case None =>
      MaybeExprIsRead(u, k.init);
      PlainFieldIsRead(u, a, b, c, ExprOr(u, k.init, NoInit()), plain);
      MutableIsRead(u, k.isMutable,
                    Apply("FieldDecl", DECLARATOR, [NNS, CID, ATYPE, INIT], [a, b, c, ExprOr(u, k.init, NoInit())]),
                    plain);
  }

  lemma PlainFieldIsRead(u: Unit, a: Term, b: Term, c: Term, d: Term, k: DeclKind)
    requires k.Field? && !k.isMutable && k.width.None?
    requires AsScope(ReadTerm(u, a)) == Some(k.scope)
    requires AsName(ReadTerm(u, b)) == Some(k.name) && AsQual(ReadTerm(u, c)) == Some(k.ty)
    requires Maybe(AsExpr, ReadTerm(u, d), "NoInit", INIT) == Some(k.init)
    ensures ReadTerm(u, Apply("FieldDecl", DECLARATOR, [NNS, CID, ATYPE, INIT], [a, b, c, d])) == ADeclKind(k)
  {
    hide ReadTerm, BuildFunction, AsName, AsScope, AsQual, Maybe, AsEnd;
    Read4(u, a, b, c, d);
    DeclaratorNode(u, KApply("FieldDecl", DECLARATOR, [NNS, CID, ATYPE, INIT]), [a, b, c, d]);
  }

  lemma BitFieldIsRead(u: Unit, a: Term, b: Term, c: Term, d: Term, k: DeclKind)
    requires k.Field? && !k.isMutable && k.init.None?
    requires AsScope(ReadTerm(u, a)) == Some(k.scope)
    requires AsName(ReadTerm(u, b)) == Some(k.name) && AsQual(ReadTerm(u, c)) == Some(k.ty)
    requires AsExpr(ReadTerm(u, d)) == k.width && k.width.Some?
    ensures ReadTerm(u, Apply("BitFieldDecl", DECLARATOR, [NNS, CID, ATYPE, EXPR], [a, b, c, d])) == ADeclKind(k)
  {
    hide ReadTerm, BuildFunction, AsName, AsScope, AsQual, AsExpr, AsEnd;
    Read4(u, a, b, c, d);
    DeclaratorNode(u, KApply("BitFieldDecl", DECLARATOR, [NNS, CID, ATYPE, EXPR]), [a, b, c, d]);
  }

  // ----- Specifiers -----

  lemma SpecifiedIsRead(u: Unit, a: Term, b: Term, s: Specifier, inner: DeclKind, k: DeclKind)
    requires ReadTerm(u, a) == ASpecifier(s) && ReadTerm(u, b) == ADeclKind(inner) && Specified(s, inner) == Some(k)
    ensures ReadTerm(u, Apply("Specifier", DECL, [SPECIFIER, DECL], [a, b])) == ADeclKind(k)
  {
    hide ReadTerm, AsString, Specified, Listed, BuildTemplate;
    Read2(u, a, b);
    DeclNode(u, KApply("Specifier", DECL, [SPECIFIER, DECL]), [a, b]);
  }

  /** A specifier that is there or not. */
  lemma MaybeSpecifiedIsRead(u: Unit, there: bool, a: Term, t: Term, s: Specifier, inner: DeclKind, k: DeclKind)
    requires ReadTerm(u, t) == ADeclKind(inner)
    requires if there then ReadTerm(u, a) == ASpecifier(s) && Specified(s, inner) == Some(k) else k == inner
    ensures ReadTerm(u, Wrap(When(there, LayerOf("Specifier", DECL, [SPECIFIER, DECL], [a])), t)) == ADeclKind(k)
  {
    hide ReadTerm, Specified;
    WrapWhen(there, LayerOf("Specifier", DECL, [SPECIFIER, DECL], [a]), t);
    if there {
      assert [a] + [t] == [a, t];
      SpecifiedIsRead(u, a, t, s, inner, k);
    }
  }

  lemma MutableIsRead(u: Unit, isMutable: bool, t: Term, k: DeclKind)
    requires k.Field? && !k.isMutable && ReadTerm(u, t) == ADeclKind(k)
    ensures ReadTerm(u, Wrap(When(isMutable, SpecifierLayer("Mutable", STORAGECLASSSPECIFIER)), t))
         == ADeclKind(k.(isMutable := isMutable))
  {
    hide ReadTerm;
    ReadNone(u);
    SpecifierNode(u, KApply("Mutable", STORAGECLASSSPECIFIER, []), []);
    MaybeSpecifiedIsRead(u, isMutable, Leaf("Mutable", STORAGECLASSSPECIFIER), t, MutableSpecifier, k,
                         k.(isMutable := isMutable));
  }

  /** The functions and variables, which have a storage class and may be constexpr. */
  function WithStorage(k: DeclKind, storage: StorageClass): DeclKind {
    match k
    case Function(f) => Function(f.(storage := storage))
    case Var(v) => Var(v.(storage := storage))
    case _ => k
  }

  function WithConstexpr(k: DeclKind, isConstexpr: bool): DeclKind {
    match k
    case Function(f) => Function(f.(isConstexpr := isConstexpr))
    case Var(v) => Var(v.(isConstexpr := isConstexpr))
    case _ => k
  }

  predicate IsBare(k: DeclKind) {
    match k
    case Function(f) => f.specialization.None? && f.storage.NoStorage?
    case Var(v) => v.storage.NoStorage?
    case _ => false
  }

  /** Nor is it constexpr, or what comes before that. */
  predicate IsPlain(k: DeclKind) {
    match k
    case Function(f) => !f.isConstexpr && !f.isInline
    case Var(v) => !v.isConstexpr && !v.threadLocal
    case _ => false
  }

  lemma StorageIsRead(u: Unit, storage: StorageClass, t: Term, k: DeclKind)
    requires IsBare(k) && ReadTerm(u, t) == ADeclKind(k)
    ensures ReadTerm(u, Wrap(StorageLayers(storage), t)) == ADeclKind(WithStorage(k, storage))
  {
    hide ReadTerm;
    ReadNone(u);
    match storage
    case NoStorage =>
    case Extern =>
      SpecifierNode(u, KApply("Extern", STORAGECLASSSPECIFIER, []), []);
      MaybeSpecifiedIsRead(u, true, Leaf("Extern", STORAGECLASSSPECIFIER), t, StorageSpecifier(Extern), k,
                           WithStorage(k, storage));
    case Static =>
      SpecifierNode(u, KApply("Static", STORAGECLASSSPECIFIER, []), []);
      MaybeSpecifiedIsRead(u, true, Leaf("Static", STORAGECLASSSPECIFIER), t, StorageSpecifier(Static), k,
                           WithStorage(k, storage));
    case Register =>
      SpecifierNode(u, KApply("Register", STORAGECLASSSPECIFIER, []), []);
      MaybeSpecifiedIsRead(u, true, Leaf("Register", STORAGECLASSSPECIFIER), t, StorageSpecifier(Register), k,
                           WithStorage(k, storage));
    case AutoStorage =>
      SpecifierNode(u, KApply("Auto", AUTOSPECIFIER, []), []);
      MaybeSpecifiedIsRead(u, true, Leaf("Auto", AUTOSPECIFIER), t, StorageSpecifier(AutoStorage), k,
                           WithStorage(k, storage));
  }

  lemma ConstexprIsRead(u: Unit, isConstexpr: bool, t: Term, k: DeclKind)
    requires IsBare(k) && ReadTerm(u, t) == ADeclKind(k)
    requires IsPlain(k)
    ensures ReadTerm(u, Wrap(When(isConstexpr, SpecifierLayer("Constexpr", SPECIFIER)), t))
         == ADeclKind(WithConstexpr(k, isConstexpr))
  {
    hide ReadTerm;
    ReadNone(u);
    SpecifierNode(u, KApply("Constexpr", SPECIFIER, []), []);
    MaybeSpecifiedIsRead(u, isConstexpr, Leaf("Constexpr", SPECIFIER), t, ConstexprSpecifier, k,
                         WithConstexpr(k, isConstexpr));
  }

  lemma InlineIsRead(u: Unit, isInline: bool, t: Term, f: FunctionDecl)
    requires IsBare(Function(f)) && !f.isInline && ReadTerm(u, t) == ADeclKind(Function(f))
    ensures ReadTerm(u, Wrap(When(isInline, SpecifierLayer("Inline", FUNCTIONSPECIFIER)), t))
         == ADeclKind(Function(f.(isInline := isInline)))
  {
    hide ReadTerm;
    ReadNone(u);
    SpecifierNode(u, KApply("Inline", FUNCTIONSPECIFIER, []), []);
    MaybeSpecifiedIsRead(u, isInline, Leaf("Inline", FUNCTIONSPECIFIER), t, InlineSpecifier, Function(f),
                         Function(f.(isInline := isInline)));
  }

  lemma ThreadLocalIsRead(u: Unit, threadLocal: bool, t: Term, v: VarDecl)
    requires IsBare(Var(v)) && !v.threadLocal && ReadTerm(u, t) == ADeclKind(Var(v))
    ensures ReadTerm(u, Wrap(When(threadLocal, SpecifierLayer("ThreadLocal", STORAGECLASSSPECIFIER)), t))
         == ADeclKind(Var(v.(threadLocal := threadLocal)))
  {
    hide ReadTerm;
    ReadNone(u);
    SpecifierNode(u, KApply("ThreadLocal", STORAGECLASSSPECIFIER, []), []);
    MaybeSpecifiedIsRead(u, threadLocal, Leaf("ThreadLocal", STORAGECLASSSPECIFIER), t, ThreadLocalSpecifier, Var(v),
                         Var(v.(threadLocal := threadLocal)));
  }

  lemma AlignasIsRead(u: Unit, bits: nat, t: Term, v: VarDecl)
    requires IsBare(Var(v)) && !v.threadLocal && !v.isConstexpr && v.alignment == 0 && ReadTerm(u, t) == ADeclKind(Var(v))
    ensures ReadTerm(u, Wrap(When(bits != 0, AlignasLayer(bits / 8)), t))
         == ADeclKind(Var(v.(alignment := KeptAlignment(bits))))
  {
    hide ReadTerm, IntToken, AsInt, KeptAlignment, BuildSpecifier;
    var n := bits / 8;
    var a := Apply("Alignas", SPECIFIER, [INT], [IntToken(n)]);
    NumberedIsRead(u, n);
    AlignmentInBytes(bits);
    MaybeSpecifiedIsRead(u, bits != 0, a, t, AlignasSpecifier(n), Var(v), Var(v.(alignment := KeptAlignment(bits))));
  }

  lemma NumberedIsRead(u: Unit, n: nat)
    ensures ReadTerm(u, Apply("Alignas", SPECIFIER, [INT], [IntToken(n)])) == ASpecifier(AlignasSpecifier(n))
  {
    hide ReadTerm, IntToken, AsInt;
    IntIsRead(u, n);
    Read1(u, IntToken(n));
    SpecifierNode(u, KApply("Alignas", SPECIFIER, [INT]), [IntToken(n)]);
  }

  lemma AlignmentInBytes(bits: nat)
    ensures KeptAlignment(bits) == if bits == 0 then 0 else if bits / 8 == 0 then 1 else 8 * (bits / 8)
  {
  }

  // ----- Variables and records -----

  function WithoutSpecifiers(v: VarDecl): VarDecl {
    v.(storage := NoStorage, threadLocal := false, isConstexpr := false, alignment := 0)
  }

  ghost function BareVarTerm(u: Unit, v: VarDecl): Term {
    Apply("VarDecl", DECLARATOR, [NNS, CID, CID, ATYPE, INIT, BOOL],
          [NestedTerm(u, v.scope), NameTerm(u, v.name), IdentifierTerm(u, v.mangled), QualTerm(u, v.ty),
           ExprOr(u, v.init, NoInit()), BoolToken(v.direct)])
  }

  lemma {:induction false} BareVarIsRead(u: Unit, v: VarDecl)
    requires VarOk(false, v)
    ensures ReadTerm(u, BareVarTerm(u, v)) == ADeclKind(Var(WithoutSpecifiers(KeptVar(v))))
    decreases v, 0
  {
    hide ReadTerm, BuildFunction, AsEnd, AsName, AsScope, Maybe, IdentifierTerm, BoolToken, AsBool, QualTerm,
      KeptQual, QualOk, NameTerm, KeptName, NameOk, NestedTerm, KeptScope, NestedOk, ExprTerm, KeptExpr, ExprOk,
      ExprOr, KeptMaybeExpr, MaybeExprOk, ContextTerm, KeptDecls, ContextOk, FunctionTerm, KeptFunction, RecordTerm,
      KeptRecord;
    var a, b, c := NestedTerm(u, v.scope), NameTerm(u, v.name), IdentifierTerm(u, v.mangled);
    var d, e, f := QualTerm(u, v.ty), ExprOr(u, v.init, NoInit()), BoolToken(v.direct);
    ScopeIsRead(u, v.scope);
    NameIsRead(u, v.name);
    IdentifierIsRead(u, v.mangled);
    QualIsRead(u, v.ty);
    MaybeExprIsRead(u, v.init);
    BoolIsRead(u, v.direct);
    Read6(u, a, b, c, d, e, f);
    DeclaratorNode(u, KApply("VarDecl", DECLARATOR, [NNS, CID, CID, ATYPE, INIT, BOOL]), [a, b, c, d, e, f]);
  }

  lemma {:induction false} VarIsRead(u: Unit, v: VarDecl)
    requires VarOk(false, v)
    ensures ReadTerm(u, VarTerm(u, v)) == ADeclKind(Var(KeptVar(v)))
    decreases v, 1
  {
    hide ReadTerm, BareVarTerm, VarOk, Wrap, When, StorageLayers, AlignasLayer, SpecifierLayer, KeptAlignment,
      QualTerm, KeptQual, QualOk, NameTerm, KeptName, NameOk, NestedTerm, KeptScope, NestedOk, ExprTerm, KeptExpr,
      ExprOk, ExprOr, KeptMaybeExpr, MaybeExprOk, ContextTerm, KeptDecls, ContextOk, FunctionTerm, KeptFunction,
      RecordTerm, KeptRecord;
    var t, w := BareVarTerm(u, v), WithoutSpecifiers(KeptVar(v));
    BareVarIsRead(u, v);
    VarIsWrapped(u, v, t, w, KeptVar(v));
    BareVar(u, v);
  }

  lemma BareVar(u: Unit, v: VarDecl)
    ensures VarTerm(u, v) == Wrap(VarLayers(v), BareVarTerm(u, v))
  {
    hide Wrap, VarLayers, IdentifierTerm, BoolToken, NestedTerm, NameTerm, QualTerm, ExprOr;
  }

  lemma VarIsWrapped(u: Unit, v: VarDecl, t: Term, w: VarDecl, whole: VarDecl)
    requires ReadTerm(u, t) == ADeclKind(Var(w))
    requires w == WithoutSpecifiers(whole)
    requires whole.storage == v.storage && whole.threadLocal == v.threadLocal && whole.isConstexpr == v.isConstexpr
    requires whole.alignment == KeptAlignment(v.alignment)
    ensures ReadTerm(u, Wrap(VarLayers(v), t)) == ADeclKind(Var(whole))
  {
    hide ReadTerm, Wrap, When, StorageLayers, AlignasLayer, SpecifierLayer, KeptAlignment;
    var storage := StorageLayers(v.storage);
    var thread := When(v.threadLocal, SpecifierLayer("ThreadLocal", STORAGECLASSSPECIFIER));
    var const_ := When(v.isConstexpr, SpecifierLayer("Constexpr", SPECIFIER));
    var align := When(v.alignment != 0, AlignasLayer(v.alignment / 8));
    AlignasIsRead(u, v.alignment, t, w);
    var t1, w1 := Wrap(align, t), w.(alignment := KeptAlignment(v.alignment));
    ConstexprIsRead(u, v.isConstexpr, t1, Var(w1));
    var t2, w2 := Wrap(const_, t1), w1.(isConstexpr := v.isConstexpr);
    ThreadLocalIsRead(u, v.threadLocal, t2, w2);
    var t3, w3 := Wrap(thread, t2), w2.(threadLocal := v.threadLocal);
    StorageIsRead(u, v.storage, t3, Var(w3));
    WrapConcat(storage + thread + const_, align, t);
    WrapConcat(storage + thread, const_, t1);
    WrapConcat(storage, thread, t2);
  }

  lemma {:induction false} BaseIsRead(u: Unit, b: Base)
    requires BaseOk(false, b)
    ensures AsBase(ReadTerm(u, BaseTerm(u, b))) == Some(KeptBase(b))
    decreases b, 0
  {
    hide ReadTerm, QualTerm, KeptQual, QualOk, BoolToken, AsBool;
    var c, d, e, f := BoolToken(b.isVirtual), BoolToken(b.pack), Leaf(b.access, ACCESSSPECIFIER), QualTerm(u, b.ty);
    BoolIsRead(u, b.isVirtual);
    BoolIsRead(u, b.pack);
    MarkIsRead(u, b.access, ACCESSSPECIFIER);
    QualIsRead(u, b.ty);
    Read4(u, c, d, e, f);
    BaseNode(u, KApply("BaseClass", BASESPECIFIER, [BOOL, BOOL, ACCESSSPECIFIER, ATYPE]), [c, d, e, f]);
  }

  lemma {:induction false} BasesAreRead(u: Unit, bs: seq<Base>)
    requires BasesOk(false, bs)
    ensures Listed(AsBase, ReadTerm(u, ListOfAll(BaseTerms(u, bs)))) == Some(KeptBases(bs))
    decreases bs, 1
  {
    hide ReadTerm, BaseTerm, KeptBase, BaseOk, ListOfAll, Listed;
    forall i | 0 <= i < |bs| ensures AsBase(ReadTerms(u, BaseTerms(u, bs))[i]) == Some(KeptBases(bs)[i]) {
      BaseIsRead(u, bs[i]);
    }
    AllOf(AsBase, ReadTerms(u, BaseTerms(u, bs)), KeptBases(bs));
    ListIsRead(u, AsBase, BaseTerms(u, bs));
  }

  lemma {:induction false} RecordIsRead(u: Unit, r: RecordDecl)
    requires RecordOk(false, r)
    ensures ReadTerm(u, RecordTerm(u, r)) == ADeclKind(Record(KeptRecord(r)))
    decreases r, 0
  {
    hide ReadTerm, AsName, AsScope, TagTerm, AsTag, BoolToken, AsBool, ListOf, Listed, BaseTerms, KeptBases, BasesOk,
      QualTerm, KeptQual, QualOk, NameTerm, KeptName, NameOk, NestedTerm, KeptScope, NestedOk, ExprTerm, KeptExpr,
      ExprOk, ExprOr, KeptMaybeExpr, MaybeExprOk, ContextTerm, KeptDecls, ContextOk, FunctionTerm, KeptFunction,
      VarTerm, KeptVar;
    var a, b, c := TagTerm(r.tag), NameTerm(u, r.name), NestedTerm(u, r.scope);
    TagIsRead(u, r.tag);
    NameIsRead(u, r.name);
    ScopeIsRead(u, r.scope);
    if r.complete {
      BasesAreRead(u, r.bases);
      ContextIsRead(u, r.decls);
      BoolIsRead(u, r.anonymous);
      ClassIsRead(u, a, b, c, ListOf(|r.bases|, BaseTerms(u, r.bases)), ContextTerm(u, r.decls),
                  BoolToken(r.anonymous), KeptRecord(r));
    } else {
      TypeDeclIsRead(u, a, b, c, KeptRecord(r));
    }
  }

  lemma ClassIsRead(u: Unit, a: Term, b: Term, c: Term, d: Term, e: Term, f: Term, r: RecordDecl)
    requires r.complete && AsTag(ReadTerm(u, a)) == Some(r.tag)
    requires AsName(ReadTerm(u, b)) == Some(r.name) && AsScope(ReadTerm(u, c)) == Some(r.scope)
    requires Listed(AsBase, ReadTerm(u, d)) == Some(r.bases) && Listed(AsDecl, ReadTerm(u, e)) == Some(r.decls)
    requires AsBool(ReadTerm(u, f)) == Some(r.anonymous)
    ensures ReadTerm(u, Apply("ClassDef", DECL, [TAG, CID, NNS, LIST, LIST, BOOL], [a, b, c, d, e, f]))
         == ADeclKind(Record(r))
  {
    hide ReadTerm, AsName, AsScope, AsTag, AsBool, Listed, AsString, Specified, BuildTemplate;
    Read6(u, a, b, c, d, e, f);
    DeclNode(u, KApply("ClassDef", DECL, [TAG, CID, NNS, LIST, LIST, BOOL]), [a, b, c, d, e, f]);
  }

  lemma TypeDeclIsRead(u: Unit, a: Term, b: Term, c: Term, r: RecordDecl)
    requires !r.complete && r.bases == [] && r.decls == [] && !r.anonymous
    requires AsTag(ReadTerm(u, a)) == Some(r.tag)
    requires AsName(ReadTerm(u, b)) == Some(r.name) && AsScope(ReadTerm(u, c)) == Some(r.scope)
    ensures ReadTerm(u, Apply("TypeDecl", DECL, [ATYPE],
                              [Apply("ElaboratedTypeSpecifier", ATYPE, [TAG, CID, NNS], [a, b, c])]))
         == ADeclKind(Record(r))
  {
    hide ReadTerm, AsString, Specified, BuildTemplate, Listed;
    var t := Apply("ElaboratedTypeSpecifier", ATYPE, [TAG, CID, NNS], [a, b, c]);
    ElaboratedIsRead(u, a, b, c, r.tag, r.name, r.scope);
    Read1(u, t);
    DeclNode(u, KApply("TypeDecl", DECL, [ATYPE]), [t]);
  }

  lemma ElaboratedIsRead(u: Unit, a: Term, b: Term, c: Term, tag: TagKind, name: DeclName, scope: Nested)
    requires AsTag(ReadTerm(u, a)) == Some(tag)
    requires AsName(ReadTerm(u, b)) == Some(name) && AsScope(ReadTerm(u, c)) == Some(scope)
    ensures ReadTerm(u, Apply("ElaboratedTypeSpecifier", ATYPE, [TAG, CID, NNS], [a, b, c]))
         == AnElaborated(tag, name, scope)
  {
    hide ReadTerm, AsName, AsScope, AsTag, AsQual, AsBool, AsInt, Listed, StrictlyListed, Maybe;
    Read3(u, a, b, c);
    TypeNode(u, KApply("ElaboratedTypeSpecifier", ATYPE, [TAG, CID, NNS]), [a, b, c]);
  }

  // ----- Enumerations and contexts -----

  lemma {:induction false} OpaqueEnumIsRead(u: Unit, k: DeclKind)
    requires k.OpaqueEnum? && DeclKindOk(false, k)
    ensures ReadTerm(u, DeclTerm(u, k)) == ADeclKind(KeptDeclKind(k))
    decreases k, 0
  {
    hide ReadTerm, AsName, BoolToken, AsBool, BuildDecl, QualTerm, KeptQual, QualOk, NameTerm, KeptName, NameOk,
      NestedTerm, KeptScope, NestedOk, ExprTerm, KeptExpr, ExprOk, ExprOr, KeptMaybeExpr, MaybeExprOk, ContextTerm,
      KeptDecls, ContextOk, FunctionTerm, KeptFunction, VarTerm, KeptVar, RecordTerm, KeptRecord, TemplateTerm;
    var a, b, c := NameTerm(u, k.name), BoolToken(k.scoped), QualTerm(u, k.ty);
    NameIsRead(u, k.name);
    BoolIsRead(u, k.scoped);
    QualIsRead(u, k.ty);
    Read3(u, a, b, c);
    DeclNode(u, KApply("OpaqueEnumDeclaration", DECL, [CID, BOOL, ATYPE]), [a, b, c]);
    OpaqueEnumIsBuilt(u, ReadTerm(u, a), ReadTerm(u, b), ReadTerm(u, c), KeptDeclKind(k));
  }

  lemma OpaqueEnumIsBuilt(u: Unit, a: Part, b: Part, c: Part, k: DeclKind)
    requires k.OpaqueEnum? && AsName(a) == Some(k.name) && AsBool(b) == Some(k.scoped) && AsQual(c) == Some(k.ty)
    ensures BuildDecl(u, KApply("OpaqueEnumDeclaration", DECL, [CID, BOOL, ATYPE]), [a, b, c]) == Some(ADeclKind(k))
  {
    hide AsName, AsBool, AsQual, AsString, AsScope, AsTag, Listed, Maybe, Specified, BuildSpecialized;
  }

  lemma {:induction false} EnumDefIsRead(u: Unit, k: DeclKind)
    requires k.EnumDef? && DeclKindOk(false, k)
    ensures ReadTerm(u, DeclTerm(u, k)) == ADeclKind(KeptDeclKind(k))
    decreases k, 0
  {
    hide ReadTerm, AsName, AsScope, BoolToken, AsBool, Listed, BuildDecl, QualTerm, KeptQual, QualOk, NameTerm,
      KeptName, NameOk, NestedTerm, KeptScope, NestedOk, ExprTerm, KeptExpr, ExprOk, ExprOr, KeptMaybeExpr,
      MaybeExprOk, ContextTerm, KeptDecls, ContextOk, FunctionTerm, KeptFunction, VarTerm, KeptVar, RecordTerm,
      KeptRecord, TemplateTerm;
    var a, b, c := NameTerm(u, k.name), NestedTerm(u, k.scope), BoolToken(k.scoped);
    var d, e, f := BoolToken(k.isFixed), QualTerm(u, k.ty), ContextTerm(u, k.decls);
    NameIsRead(u, k.name);
    ScopeIsRead(u, k.scope);
    BoolIsRead(u, k.scoped);
    BoolIsRead(u, k.isFixed);
    QualIsRead(u, k.ty);
    ContextIsRead(u, k.decls);
    Read6(u, a, b, c, d, e, f);
    DeclNode(u, KApply("EnumDef", DECL, [CID, NNS, BOOL, BOOL, ATYPE, LIST]), [a, b, c, d, e, f]);
    EnumDefIsBuilt(u, ReadTerm(u, a), ReadTerm(u, b), ReadTerm(u, c), ReadTerm(u, d), ReadTerm(u, e), ReadTerm(u, f),
                   KeptDeclKind(k));
  }

  lemma EnumDefIsBuilt(u: Unit, a: Part, b: Part, c: Part, d: Part, e: Part, f: Part, k: DeclKind)
    requires k.EnumDef? && AsName(a) == Some(k.name) && AsScope(b) == Some(k.scope) && AsBool(c) == Some(k.scoped)
    requires AsBool(d) == Some(k.isFixed) && AsQual(e) == Some(k.ty) && Listed(AsDecl, f) == Some(k.decls)
    ensures BuildDecl(u, KApply("EnumDef", DECL, [CID, NNS, BOOL, BOOL, ATYPE, LIST]), [a, b, c, d, e, f])
         == Some(ADeclKind(k))
  {
    hide AsName, AsBool, AsQual, AsString, AsScope, AsTag, Listed, Maybe, Specified, BuildSpecialized;
  }

  lemma {:induction false} EnumConstantIsRead(u: Unit, k: DeclKind)
    requires k.EnumConstant? && DeclKindOk(false, k)
    ensures ReadTerm(u, DeclTerm(u, k)) == ADeclKind(KeptDeclKind(k))
    decreases k, 0
  {
    hide ReadTerm, AsName, Maybe, Listed, QualTerm, KeptQual, QualOk, NameTerm, KeptName, NameOk, NestedTerm,
      KeptScope, NestedOk, ExprTerm, KeptExpr, ExprOk, ExprOr, KeptMaybeExpr, MaybeExprOk, ContextTerm, KeptDecls,
      ContextOk, FunctionTerm, KeptFunction, VarTerm, KeptVar, RecordTerm, KeptRecord, TemplateTerm;
    var a, b := NameTerm(u, k.name), ExprOr(u, k.init, NoExpression());
    NameIsRead(u, k.name);
    MaybeExprIsRead(u, k.init);
    Read2(u, a, b);
    EnumNode(u, KApply("Enumerator", ENUMERATOR, [CID, AEXPR]), [a, b]);
  }

  lemma AccessSpecIsRead(u: Unit, access: string)
    ensures ReadTerm(u, DeclTerm(u, AccessSpec(access))) == ADeclKind(KeptDeclKind(AccessSpec(access)))
  {
    hide ReadTerm, AsString, AsTag, AsName, AsScope, AsBool, Listed, Specified, BuildTemplate, QualTerm, KeptQual,
      QualOk, NameTerm, KeptName, NameOk, NestedTerm, KeptScope, NestedOk, ExprTerm, KeptExpr, ExprOk, ExprOr,
      KeptMaybeExpr, MaybeExprOk, ContextTerm, KeptDecls, ContextOk, FunctionTerm, KeptFunction, VarTerm, KeptVar,
      RecordTerm, KeptRecord, TemplateTerm;
    var a := Leaf(access, ACCESSSPECIFIER);
    MarkIsRead(u, access, ACCESSSPECIFIER);
    Read1(u, a);
    DeclNode(u, KApply("AccessSpec", DECL, [ACCESSSPECIFIER]), [a]);
  }

  lemma {:induction false} TranslationUnitIsRead(u: Unit, k: DeclKind)
    requires k.TranslationUnit? && DeclKindOk(false, k)
    ensures ReadTerm(u, DeclTerm(u, k)) == ADeclKind(KeptDeclKind(k))
    decreases k, 0
  {
    hide ReadTerm, StringToken, AsString, AsTag, AsName, AsScope, AsBool, Listed, Specified, BuildTemplate, QualTerm,
      KeptQual, QualOk, NameTerm, KeptName, NameOk, NestedTerm, KeptScope, NestedOk, ExprTerm, KeptExpr, ExprOk,
      ExprOr, KeptMaybeExpr, MaybeExprOk, ContextTerm, KeptDecls, ContextOk, FunctionTerm, KeptFunction, VarTerm,
      KeptVar, RecordTerm, KeptRecord, TemplateTerm;
    var a, b := StringToken(u, u.inFile), ContextTerm(u, k.decls);
    StringIsRead(u, u.inFile);
    ContextIsRead(u, k.decls);
    Read2(u, a, b);
    DeclNode(u, KApply("TranslationUnit", DECL, [STRING, LIST]), [a, b]);
  }

  // ----- Templates -----

  lemma {:induction false} ParamsAreRead(u: Unit, params: ParamList)
    requires ParamsOk(false, params)
    ensures |ParamListTerms(u, params)| == 1
    ensures params.Params?
    ensures OptionalParams(Listed(AsDecl, ReadTerm(u, Only(ParamListTerms(u, params))))) == Some(KeptParams(params))
    decreases params, 0
  {
    hide ReadTerm, AllDeclTerms, KeptDecls, AllPresentOk, ListOf, Listed;
    ParamDeclsAreRead(u, params.decls);
  }

  function OptionalParams(ds: Option<seq<Decl>>): Option<ParamList> {
    match ds
    case Some(x) => Some(Params(x))
    case None => None
  }

  lemma {:induction false} InstanceIsRead(u: Unit, x: Instance)
    requires IsInstantiation(x.kind) && InstanceOk(false, x)
    ensures |OneInstanceTerms(u, x)| == 1
    ensures AsInstance(ReadTerm(u, Only(OneInstanceTerms(u, x)))) == Some(KeptInstance(x))
    decreases x, 0
  {
    hide ReadTerm, DeclTerms, KeptDecl, PresentOk;
    DeclIsRead(u, x.decl);
  }

  lemma {:induction false} AllInstancesAreRead(u: Unit, xs: seq<Instance>)
    requires InstancesOk(false, xs)
    ensures All(AsInstance, ReadTerms(u, InstanceTerms(u, xs))) == Some(KeptInstances(xs))
    decreases xs, 1
  {
    hide ReadTerm, ReadTerms, DeclTerms, KeptDecl, PresentOk;
    if xs == [] {
      ReadNone(u);
    } else {
      var first, rest := xs[0], xs[1..];
      assert InstanceOk(false, first);
      assert InstancesOk(false, rest);
      AllInstancesAreRead(u, rest);
      if IsInstantiation(first.kind) {
        var t := Only(OneInstanceTerms(u, first));
        InstanceIsRead(u, first);
        assert OneInstanceTerms(u, first) == [t];
        ReadFirst(u, t, InstanceTerms(u, rest));
        AllWithFirst(AsInstance, ReadTerm(u, t), ReadTerms(u, InstanceTerms(u, rest)), KeptInstance(first),
                     KeptInstances(rest));
      } else {
        assert [] + InstanceTerms(u, rest) == InstanceTerms(u, rest);
        assert [] + KeptInstances(rest) == KeptInstances(rest);
      }
    }
  }

  ghost function InstancesTerm(u: Unit, xs: seq<Instance>): Term {
    ListOf(CountInstances(xs), InstanceTerms(u, xs))
  }

  lemma {:induction false} InstancesAreRead(u: Unit, xs: seq<Instance>)
    requires InstancesOk(false, xs)
    ensures Listed(AsInstance, ReadTerm(u, InstancesTerm(u, xs))) == Some(KeptInstances(xs))
    decreases xs, 2
  {
    hide ReadTerm, ReadTerms, InstanceTerms, KeptInstances, InstancesOk, ListOf, Listed, CountInstances;
    AllInstancesAreRead(u, xs);
    T.InstancesFit(false, u, xs);
    ListIsRead(u, AsInstance, InstanceTerms(u, xs));
  }

  lemma TemplateIsItsTerm(u: Unit, k: DeclKind)
    requires IsTemplate(k)
    ensures DeclTerm(u, k) == TemplateTerm(u, k)
  {
    hide QualTerm, KeptQual, QualOk, NameTerm, KeptName, NameOk, NestedTerm, KeptScope, NestedOk, ExprTerm, KeptExpr,
      ExprOk, ExprOr, KeptMaybeExpr, MaybeExprOk, ContextTerm, KeptDecls, ContextOk, FunctionTerm, KeptFunction,
      VarTerm, KeptVar, RecordTerm, KeptRecord, TemplateTerm;
  }

  lemma {:induction false} TemplateIsRead(u: Unit, k: DeclKind)
    requires k.Template? && DeclKindOk(false, k)
    ensures ReadTerm(u, DeclTerm(u, k)) == ADeclKind(KeptDeclKind(k))
    decreases k, 2
  {
    hide ReadTerm, Listed, BuildDecl, DeclTerm, InstanceTerms, InstancesOk, KeptInstances, ListOf, CountInstances,
      ParamListTerms, KeptParams, ParamsOk, DeclTerms, KeptDecl, PresentOk, OptionalParams, QualTerm, KeptQual,
      QualOk, NameTerm, KeptName, NameOk, NestedTerm, KeptScope, NestedOk, ExprTerm, KeptExpr, ExprOk, ExprOr,
      KeptMaybeExpr, MaybeExprOk, ContextTerm, KeptDecls, ContextOk, FunctionTerm, KeptFunction, VarTerm, KeptVar,
      RecordTerm, KeptRecord;
    var a, b, c := Only(DeclTerms(u, k.templated)), Only(ParamListTerms(u, k.params)), InstancesTerm(u, k.instances);
    DeclIsRead(u, k.templated);
    ParamsAreRead(u, k.params);
    InstancesAreRead(u, k.instances);
    TemplateIsItsTerm(u, k);
    assert DeclTerms(u, k.templated) + ParamListTerms(u, k.params) + [c] == [a, b, c];
    Read3(u, a, b, c);
    DeclNode(u, KApply("TemplateWithInstantiations", DECL, [DECL, LIST, LIST]), [a, b, c]);
    TemplateIsBuilt(u, ReadTerm(u, a), ReadTerm(u, b), ReadTerm(u, c), KeptDeclKind(k));
  }

  lemma TemplateIsBuilt(u: Unit, a: Part, b: Part, c: Part, k: DeclKind)
    requires k.Template? && AsDecl(a) == Some(k.templated) && OptionalParams(Listed(AsDecl, b)) == Some(k.params)
    requires Listed(AsInstance, c) == Some(k.instances)
    ensures BuildDecl(u, KApply("TemplateWithInstantiations", DECL, [DECL, LIST, LIST]), [a, b, c]) == Some(ADeclKind(k))
  {
    hide AsName, AsBool, AsQual, AsString, AsScope, AsTag, Listed, Specified, BuildSpecialized, BuildEnum;
  }

  lemma {:induction false} TypeParamIsRead(u: Unit, k: DeclKind)
    requires k.TypeParam? && DeclKindOk(false, k)
    ensures ReadTerm(u, DeclTerm(u, k)) == ADeclKind(KeptDeclKind(k))
    decreases k, 2
  {
    hide ReadTerm, DeclTerm, BoolToken, AsBool, Maybe, AsScope, AsName, Listed, QualTerm, KeptQual, QualOk, NameTerm,
      KeptName, NameOk, NestedTerm, KeptScope, NestedOk, ExprTerm, KeptExpr, ExprOk, ExprOr, KeptMaybeExpr,
      MaybeExprOk, ContextTerm, KeptDecls, ContextOk, FunctionTerm, KeptFunction, VarTerm, KeptVar, RecordTerm,
      KeptRecord;
    var a, b, c, d := BoolToken(k.isTypename), BoolToken(k.pack), QualOr(u, k.declared), QualOr(u, k.default);
    BoolIsRead(u, k.isTypename);
    BoolIsRead(u, k.pack);
    MaybeQualIsRead(u, k.declared);
    MaybeQualIsRead(u, k.default);
    TemplateIsItsTerm(u, k);
    Read4(u, a, b, c, d);
    ParamNode(u, KApply("TypeTemplateParam", TEMPLATEPARAMETER, [BOOL, BOOL, ATYPE, ATYPE]), [a, b, c, d]);
  }

  lemma {:induction false} ValueParamIsRead(u: Unit, k: DeclKind)
    requires k.ValueParam? && DeclKindOk(false, k)
    ensures ReadTerm(u, DeclTerm(u, k)) == ADeclKind(KeptDeclKind(k))
    decreases k, 2
  {
    hide ReadTerm, DeclTerm, BoolToken, AsBool, Maybe, AsScope, AsName, Listed, QualTerm, KeptQual, QualOk, NameTerm,
      KeptName, NameOk, NestedTerm, KeptScope, NestedOk, ExprTerm, KeptExpr, ExprOk, ExprOr, KeptMaybeExpr,
      MaybeExprOk, ContextTerm, KeptDecls, ContextOk, FunctionTerm, KeptFunction, VarTerm, KeptVar, RecordTerm,
      KeptRecord;
    var a, b, c := BoolToken(k.pack), NestedTerm(u, k.scope), NameTerm(u, k.name);
    var d, e := QualTerm(u, k.ty), ExprOr(u, k.init, NoExpression());
    BoolIsRead(u, k.pack);
    ScopeIsRead(u, k.scope);
    NameIsRead(u, k.name);
    QualIsRead(u, k.ty);
    MaybeExprIsRead(u, k.init);
    TemplateIsItsTerm(u, k);
    Read5(u, a, b, c, d, e);
    ParamNode(u, KApply("ValueTemplateParam", TEMPLATEPARAMETER, [BOOL, NNS, CID, ATYPE, AEXPR]), [a, b, c, d, e]);
  }

  lemma {:induction false} TemplateParamIsRead(u: Unit, k: DeclKind)
    requires k.TemplateParam? && DeclKindOk(false, k)
    ensures ReadTerm(u, DeclTerm(u, k)) == ADeclKind(KeptDeclKind(k))
    decreases k, 2
  {
    hide ReadTerm, DeclTerm, BoolToken, AsBool, Maybe, AsScope, AsName, Listed, KeptMaybeArg, ArgTerm, ArgOk,
      ParamListTerms, KeptParams, ParamsOk, QualTerm, KeptQual, QualOk, NameTerm, KeptName, NameOk, NestedTerm,
      KeptScope, NestedOk, ExprTerm, KeptExpr, ExprOk, ExprOr, KeptMaybeExpr, MaybeExprOk, ContextTerm, KeptDecls,
      ContextOk, FunctionTerm, KeptFunction, VarTerm, KeptVar, RecordTerm, KeptRecord;
    var a, b := BoolToken(k.pack), NameTerm(u, k.name);
    var c := match k.arg case Some(arg) => ArgTerm(u, arg) case None => NoType();
    var d := Only(ParamListTerms(u, k.params));
    BoolIsRead(u, k.pack);
    NameIsRead(u, k.name);
    MaybeArgIsRead(u, k.arg);
    ParamsAreRead(u, k.params);
    TemplateIsItsTerm(u, k);
    assert [a, b, c] + ParamListTerms(u, k.params) == [a, b, c, d];
    Read4(u, a, b, c, d);
    ParamNode(u, KApply("TemplateTemplateParam", TEMPLATEPARAMETER, [BOOL, CID, ATYPE, LIST]), [a, b, c, d]);
  }

  lemma {:induction false} ClassSpecializationIsRead(u: Unit, k: DeclKind)
    requires k.ClassSpecialization? && DeclKindOk(false, k)
    ensures ReadTerm(u, DeclTerm(u, k)) == ADeclKind(KeptDeclKind(k))
    decreases k, 2
  {
    hide ReadTerm, DeclTerm, Maybe, QualOr, KeptMaybeQual, MaybeQualOk, RecordOk, Wrap, BuildDecl, BuildSpecialized,
      QualTerm, KeptQual, QualOk, NameTerm, KeptName, NameOk, NestedTerm, KeptScope, NestedOk, ExprTerm, KeptExpr,
      ExprOk, ExprOr, KeptMaybeExpr, MaybeExprOk, ContextTerm, KeptDecls, ContextOk, FunctionTerm, KeptFunction,
      VarTerm, KeptVar, RecordTerm, KeptRecord;
    var a, b := QualOr(u, k.declared), RecordTerm(u, k.r);
    MaybeQualIsRead(u, k.declared);
    RecordIsRead(u, k.r);
    TemplateIsItsTerm(u, k);
    WrapOne(LayerOf(SpecializationLabel(k.specKind), DECL, [ATYPE, DECL], [a]), b);
    assert [a] + [b] == [a, b];
    SpecializedDeclIsRead(u, k.specKind, a, b);
    RecordIsSpecialized(KeptSpecKind(k.specKind), ReadTerm(u, a), ReadTerm(u, b), KeptMaybeQual(k.declared),
                        KeptRecord(k.r));
  }

  lemma RecordIsSpecialized(kind: DeclaredKind, a: Part, b: Part, declared: Option<QualType>, r: RecordDecl)
    requires Maybe(AsQual, a, "NoType", ATYPERESULT) == Some(declared) && b == ADeclKind(Record(r))
    ensures BuildSpecialized(kind, a, b) == Some(ADeclKind(ClassSpecialization(kind, declared, r)))
  {
    hide Maybe;
  }

  lemma SpecializedDeclIsRead(u: Unit, kind: DeclaredKind, a: Term, b: Term)
    ensures ReadTerm(u, Apply(SpecializationLabel(kind), DECL, [ATYPE, DECL], [a, b]))
         == OrUnreadable(BuildSpecialized(KeptSpecKind(kind), ReadTerm(u, a), ReadTerm(u, b)))
  {
    hide ReadTerm, BuildSpecialized, AsName, AsBool, AsQual, AsString, AsScope, AsTag, Listed, Specified, BuildEnum;
    Read2(u, a, b);
    DeclNode(u, KApply(SpecializationLabel(kind), DECL, [ATYPE, DECL]), [a, b]);
  }

  lemma {:induction false} PartialSpecializationIsRead(u: Unit, k: DeclKind)
    requires k.PartialSpecialization? && DeclKindOk(false, k)
    ensures ReadTerm(u, DeclTerm(u, k)) == ADeclKind(KeptDeclKind(k))
    decreases k, 2
  {
    hide ReadTerm, DeclTerm, Wrap, BuildDecl, Listed, ListOf, ArgTerms, KeptArgs, ArgsOk, AllDeclTerms, AllPresentOk,
      RecordOk, QualTerm, KeptQual, QualOk, NameTerm, KeptName, NameOk, NestedTerm, KeptScope, NestedOk, ExprTerm,
      KeptExpr, ExprOk, ExprOr, KeptMaybeExpr, MaybeExprOk, ContextTerm, KeptDecls, ContextOk, FunctionTerm,
      KeptFunction, VarTerm, KeptVar, RecordTerm, KeptRecord;
    var a, b, c := ParamsTerm(u, k.paramDecls), ListOf(|k.args|, ArgTerms(u, k.args)), RecordTerm(u, k.r);
    ParamDeclsAreRead(u, k.paramDecls);
    ArgListIsRead(u, k.args);
    RecordIsRead(u, k.r);
    TemplateIsItsTerm(u, k);
    WrapOne(LayerOf("PartialSpecialization", DECL, [LIST, LIST, DECL], [a, b]), c);
    assert [a, b] + [c] == [a, b, c];
    Read3(u, a, b, c);
    DeclNode(u, KApply("PartialSpecialization", DECL, [LIST, LIST, DECL]), [a, b, c]);
    PartialIsBuilt(u, ReadTerm(u, a), ReadTerm(u, b), ReadTerm(u, c), KeptDeclKind(k));
  }

  lemma PartialIsBuilt(u: Unit, a: Part, b: Part, c: Part, k: DeclKind)
    requires k.PartialSpecialization? && Listed(AsDecl, a) == Some(k.paramDecls) && Listed(AsArg, b) == Some(k.args)
    requires c == ADeclKind(Record(k.r))
    ensures BuildDecl(u, KApply("PartialSpecialization", DECL, [LIST, LIST, DECL]), [a, b, c]) == Some(ADeclKind(k))
  {
    hide AsName, AsBool, AsQual, AsString, AsScope, AsTag, Listed, Specified, BuildSpecialized, BuildEnum;
  }


  // ----- Functions -----

  lemma {:induction false} InitIsRead(u: Unit, init: CtorInit)
    requires init.written && InitOk(false, init)
    ensures AsInit(ReadTerm(u, InitTerm(u, init))) == Some(KeptInit(init))
    decreases init, 0
  {
    hide ReadTerm, QualTerm, KeptQual, QualOk, NameTerm, KeptName, NameOk, ExprTerm, KeptExpr, ExprOk, BoolToken,
      AsBool, AsName;
    match init
    case BaseInit(_, ty, isVirtual, pack, e) =>
      var a, b, c, d := QualTerm(u, ty), BoolToken(isVirtual), BoolToken(pack), ExprTerm(u, e);
      QualIsRead(u, ty);
      BoolIsRead(u, isVirtual);
      BoolIsRead(u, pack);
      ExprIsRead(u, e);
      Read4(u, a, b, c, d);
      InitNode(u, KApply("ConstructorBase", CTORINIT, [ATYPE, BOOL, BOOL, INIT]), [a, b, c, d]);
    case MemberInit(_, name, e) =>
      NameIsRead(u, name);
      ExprIsRead(u, e);
      Read2(u, NameTerm(u, name), ExprTerm(u, e));
      InitNode(u, KApply("ConstructorMember", CTORINIT, [CID, INIT]), [NameTerm(u, name), ExprTerm(u, e)]);
    case DelegatingInit(_, e) =>
      ExprIsRead(u, e);
      Read1(u, ExprTerm(u, e));
      InitNode(u, KApply("ConstructorDelegating", CTORINIT, [INIT]), [ExprTerm(u, e)]);
  }

  lemma {:induction false} AllInitsAreRead(u: Unit, inits: seq<CtorInit>)
    requires InitsOk(false, inits)
    ensures All(AsInit, ReadTerms(u, InitTerms(u, inits))) == Some(KeptInits(inits))
    decreases inits, 1
  {
    hide ReadTerm, ReadTerms, InitTerm, KeptInit, InitOk;
    if inits == [] {
      ReadNone(u);
    } else {
      var first, rest := inits[0], inits[1..];
      assert InitsOk(false, rest);
      AllInitsAreRead(u, rest);
      if first.written {
        InitIsRead(u, first);
        ReadFirst(u, InitTerm(u, first), InitTerms(u, rest));
        AllWithFirst(AsInit, ReadTerm(u, InitTerm(u, first)), ReadTerms(u, InitTerms(u, rest)), KeptInit(first),
                     KeptInits(rest));
      } else {
        assert [] + InitTerms(u, rest) == InitTerms(u, rest);
        assert [] + KeptInits(rest) == KeptInits(rest);
      }
    }
  }

  lemma {:induction false} InitsAreRead(u: Unit, inits: seq<CtorInit>)
    requires InitsOk(false, inits)
    ensures Listed(AsInit, ReadTerm(u, ListOf(CountWritten(inits), InitTerms(u, inits)))) == Some(KeptInits(inits))
    decreases inits, 2
  {
    hide ReadTerm, ReadTerms, InitTerms, KeptInits, InitsOk, ListOf, Listed, CountWritten;
    AllInitsAreRead(u, inits);
    T.InitsFit(false, u, inits);
    ListIsRead(u, AsInit, InitTerms(u, inits));
  }

  /** What the end of a function in the definition form keeps. */
  ghost function KeptEnd(f: FunctionDecl): End {
    End(f.isDefinition && (f.role.Constructor? || !f.isDefaulted), f.isDefaulted, f.isDeleted && !f.isDefaulted,
        if f.isDefinition && f.role.Constructor? then Some(KeptInits(f.role.inits)) else None,
        if f.isDefinition then KeptMaybeStmt(f.body) else None)
  }

  /** What closes a function, whether or not it is a constructor. */
  ghost function KeptClosing(f: FunctionDecl): End {
    End(!f.isDefaulted, f.isDefaulted, f.isDeleted && !f.isDefaulted, None,
        if f.isDefinition then KeptMaybeStmt(f.body) else None)
  }

  lemma MarkedClosingIsRead(u: Unit)
    ensures ReadTerm(u, Leaf("Defaulted", STMT)) == AnEnd(End(false, true, false, None, None))
    ensures ReadTerm(u, Leaf("Deleted", STMT)) == AnEnd(End(true, false, true, None, None))
  {
    hide ReadTerm, Listed, AsEnd;
    ReadNone(u);
    EndNode(u, KApply("Defaulted", STMT, []), []);
    EndNode(u, KApply("Deleted", STMT, []), []);
  }

  lemma {:induction false} ClosingIsRead(u: Unit, f: FunctionDecl)
    requires FunctionPartsOk(false, f) && Closed(f) && IsDefinitionForm(f)
    ensures |ClosingTerms(u, f)| == 1 && AsEnd(ReadTerm(u, Only(ClosingTerms(u, f)))) == Some(KeptClosing(f))
    decreases f, 0
  {
    hide ReadTerm, StmtTerm, KeptStmt, StmtOk, QualTerm, KeptQual, QualOk, NameTerm, KeptName, NameOk, NestedTerm,
      KeptScope, NestedOk, AllDeclTerms, KeptDecls, AllPresentOk, InitTerm, KeptInit, InitOk;
    MarkedClosingIsRead(u);
    if f.isDefinition && f.body.Some? {
      StmtIsRead(u, f.body.value);
      StmtIsNoEnd(u, f.body.value);
    }
  }

  /** The term of a statement is not taken for a mark. */
  lemma StmtIsNoEnd(u: Unit, s: Stmt)
    requires AsStmt(ReadTerm(u, StmtTerm(u, s))).Some?
    ensures !ReadTerm(u, StmtTerm(u, s)).AnEnd?
  {
    hide ReadTerm, StmtTerm;
  }

  lemma {:induction false} EndIsRead(u: Unit, f: FunctionDecl)
    requires FunctionPartsOk(false, f) && Closed(f) && IsDefinitionForm(f)
    ensures |EndTerms(u, f)| == 1 && AsEnd(ReadTerm(u, Only(EndTerms(u, f)))) == Some(KeptEnd(f))
    decreases f, 1
  {
    hide ReadTerm, ClosingTerms, AsEnd, ListOf, Listed, CountWritten, KeptInits, InitTerms, InitsOk, KeptMaybeStmt,
      StmtOk, QualTerm, KeptQual, QualOk, NameTerm, KeptName, NameOk, NestedTerm, KeptScope, NestedOk, AllDeclTerms,
      KeptDecls, AllPresentOk, InitTerm, KeptInit, InitOk;
    ClosingIsRead(u, f);
    if f.isDefinition && f.role.Constructor? {
      var a, b := ListOf(CountWritten(f.role.inits), InitTerms(u, f.role.inits)), Only(ClosingTerms(u, f));
      InitsAreRead(u, f.role.inits);
      assert [a] + ClosingTerms(u, f) == [a, b];
      ConstructorIsRead(u, a, b, KeptInits(f.role.inits), KeptClosing(f));
    }
  }

  lemma ConstructorIsRead(u: Unit, a: Term, b: Term, inits: seq<CtorInit>, end: End)
    requires Listed(AsInit, ReadTerm(u, a)) == Some(inits) && AsEnd(ReadTerm(u, b)) == Some(end) && end.inits.None?
    ensures AsEnd(ReadTerm(u, Apply("Constructor", STMT, [LIST, STMT], [a, b])))
         == Some(end.(isDefinition := true, inits := Some(inits)))
  {
    hide ReadTerm, Listed;
    Read2(u, a, b);
    EndNode(u, KApply("Constructor", STMT, [LIST, STMT]), [a, b]);
  }

  /** What the type of a function keeps of the function. */
  ghost function KeptSignature(f: FunctionDecl): Signature {
    var isInstance := f.method_.InstanceMethod?;
    Signature(KeptMethod(f.method_), isInstance && f.role.Constructor?, isInstance && IsExplicit(f.role), KeptQual(f.ty))
  }

  lemma WrapperIsRead(u: Unit, klabel: string, t: Term)
    ensures ReadTerm(u, Wrap(When(true, LayerOf(klabel, ATYPE, [ATYPE], [])), t))
         == OrUnreadable(BuildType(KApply(klabel, ATYPE, [ATYPE]), [ReadTerm(u, t)]))
  {
    hide ReadTerm, BuildType;
    WrapWhen(true, LayerOf(klabel, ATYPE, [ATYPE], []), t);
    assert [] + [t] == [t];
    Read1(u, t);
    TypeNode(u, KApply(klabel, ATYPE, [ATYPE]), [t]);
  }

  lemma ExplicitIsRead(u: Unit, b: bool, t: Term, ty: QualType)
    requires AsQual(ReadTerm(u, t)) == Some(ty)
    ensures AsMarks(ReadTerm(u, Wrap(When(b, LayerOf("Explicit", ATYPE, [ATYPE], [])), t)))
         == Some(Marks(false, false, b, ty))
  {
    hide ReadTerm, BuildQualified, AsInt, AsName, AsScope, AsTag, AsExceptions, StrictlyListed, Listed, Maybe;
    WrapperIsRead(u, "Explicit", t);
  }

  lemma PureIsRead(u: Unit, b: bool, t: Term, marks: Marks)
    requires AsMarks(ReadTerm(u, t)) == Some(marks) && !marks.isPure && !marks.isVirtual
    ensures AsMarks(ReadTerm(u, Wrap(When(b, LayerOf("Pure", ATYPE, [ATYPE], [])), t))) == Some(marks.(isPure := b))
  {
    hide ReadTerm, BuildQualified, AsInt, AsName, AsScope, AsTag, AsExceptions, StrictlyListed, Listed, Maybe;
    WrapperIsRead(u, "Pure", t);
  }

  lemma VirtualIsRead(u: Unit, b: bool, t: Term, marks: Marks)
    requires AsMarks(ReadTerm(u, t)) == Some(marks) && !marks.isVirtual
    ensures AsMarks(ReadTerm(u, Wrap(When(b, LayerOf("Virtual", ATYPE, [ATYPE], [])), t))) == Some(marks.(isVirtual := b))
  {
    hide ReadTerm, BuildQualified, AsInt, AsName, AsScope, AsTag, AsExceptions, StrictlyListed, Listed, Maybe;
    WrapperIsRead(u, "Virtual", t);
  }

  lemma MarksAreRead(u: Unit, isVirtual: bool, isPure: bool, isExplicit: bool, t: Term, ty: QualType)
    requires AsQual(ReadTerm(u, t)) == Some(ty)
    ensures AsMarks(ReadTerm(u, Wrap(MarkLayers(isVirtual, isPure, isExplicit), t)))
         == Some(Marks(isVirtual, isPure, isExplicit, ty))
  {
    hide ReadTerm, Wrap, When, AsMarks;
    var v := When(isVirtual, LayerOf("Virtual", ATYPE, [ATYPE], []));
    var p := When(isPure, LayerOf("Pure", ATYPE, [ATYPE], []));
    var e := When(isExplicit, LayerOf("Explicit", ATYPE, [ATYPE], []));
    ExplicitIsRead(u, isExplicit, t, ty);
    PureIsRead(u, isPure, Wrap(e, t), Marks(false, false, isExplicit, ty));
    VirtualIsRead(u, isVirtual, Wrap(p, Wrap(e, t)), Marks(false, isPure, isExplicit, ty));
    WrapConcat(v + p, e, t);
    WrapConcat(v, p, Wrap(e, t));
  }

  function MarkLayers(isVirtual: bool, isPure: bool, isExplicit: bool): seq<Layer> {
    When(isVirtual, LayerOf("Virtual", ATYPE, [ATYPE], [])) + When(isPure, LayerOf("Pure", ATYPE, [ATYPE], []))
    + When(isExplicit, LayerOf("Explicit", ATYPE, [ATYPE], []))
  }

  lemma InstancePrototypeIsRead(u: Unit, a: Term, b: Term, c: Term, d: Term, s: Signature)
    requires s.info.InstanceMethod? && s.info.ref.NoRef?
    requires AsBool(ReadTerm(u, a)) == Some(s.info.userProvided) && AsBool(ReadTerm(u, b)) == Some(s.isConstructor)
    requires AsQual(ReadTerm(u, c)) == Some(s.info.thisType)
    requires AsMarks(ReadTerm(u, d)) == Some(Marks(s.info.isVirtual, s.info.isPure, s.isExplicit, s.ty))
    ensures ReadTerm(u, Apply("MethodPrototype", ATYPE, [BOOL, BOOL, ATYPE, ATYPE], [a, b, c, d])) == ASignature(s)
  {
    hide ReadTerm, AsMarks, AsQual, BuildQualified, AsInt, AsName, AsScope, AsTag, AsExceptions, StrictlyListed,
      Listed, Maybe;
    Read4(u, a, b, c, d);
    TypeNode(u, KApply("MethodPrototype", ATYPE, [BOOL, BOOL, ATYPE, ATYPE]), [a, b, c, d]);
  }

  lemma RefIsRead(u: Unit, ref: RefQualifier, t: Term, s: Signature)
    requires s.info.InstanceMethod? && s.info.ref.NoRef? && ReadTerm(u, t) == ASignature(s)
    ensures ReadTerm(u, Wrap(RefLayers(ref), t)) == ASignature(s.(info := s.info.(ref := ref)))
  {
    hide ReadTerm, BuildType;
    match ref
    case NoRef =>
    case LValueRef =>
      RefNodeIsRead(u, "RefLValue", t);
      RefIsBuilt("RefLValue", ASignature(s), ref);
    case RValueRef =>
      RefNodeIsRead(u, "RefRValue", t);
      RefIsBuilt("RefRValue", ASignature(s), ref);
  }

  lemma RefIsBuilt(klabel: string, r: Part, ref: RefQualifier)
    requires AsRef(AMark(klabel, REFQUALIFIER)) == Some(ref)
    ensures BuildType(KApply("RefQualifier", ATYPE, [REFQUALIFIER, ATYPE]), [AMark(klabel, REFQUALIFIER), r])
         == BuildRef(ref, r)
  {
    hide AsRef, BuildRef, AsMarks, AsQual, BuildQualified, AsInt, AsName, AsScope, AsTag, AsExceptions,
      StrictlyListed, Listed, Maybe;
  }

  lemma RefNodeIsRead(u: Unit, klabel: string, t: Term)
    ensures ReadTerm(u, Wrap([LayerOf("RefQualifier", ATYPE, [REFQUALIFIER, ATYPE], [Leaf(klabel, REFQUALIFIER)])], t))
         == OrUnreadable(BuildType(KApply("RefQualifier", ATYPE, [REFQUALIFIER, ATYPE]),
                                   [AMark(klabel, REFQUALIFIER), ReadTerm(u, t)]))
  {
    hide ReadTerm, BuildType;
    var a := Leaf(klabel, REFQUALIFIER);
    MarkIsRead(u, klabel, REFQUALIFIER);
    WrapOne(LayerOf("RefQualifier", ATYPE, [REFQUALIFIER, ATYPE], [a]), t);
    assert [a] + [t] == [a, t];
    Read2(u, a, t);
    TypeNode(u, KApply("RefQualifier", ATYPE, [REFQUALIFIER, ATYPE]), [a, t]);
  }

  lemma {:induction false} InstanceMethodIsRead(u: Unit, f: FunctionDecl)
    requires f.method_.InstanceMethod? && FunctionPartsOk(false, f)
    ensures AsSignature(ReadTerm(u, Wrap(MethodLayers(u, f), QualTerm(u, f.ty)))) == Some(KeptSignature(f))
    decreases f, 0
  {
    hide ReadTerm, Wrap, When, BoolToken, AsBool, AsMarks, RefLayers, MarkLayers, StmtOk, QualTerm, KeptQual, QualOk,
      NameTerm, KeptName, NameOk, NestedTerm, KeptScope, NestedOk, AllDeclTerms, KeptDecls, AllPresentOk, InitTerm,
      KeptInit, InitOk;
    var m, t := f.method_, QualTerm(u, f.ty);
    QualIsRead(u, f.ty);
    MarksAreRead(u, m.isVirtual, m.isPure, IsExplicit(f.role), t, KeptQual(f.ty));
    var a, b := BoolToken(m.userProvided), BoolToken(f.role.Constructor?);
    var c, d := QualTerm(u, m.thisType), Wrap(MarkLayers(m.isVirtual, m.isPure, IsExplicit(f.role)), t);
    BoolIsRead(u, m.userProvided);
    BoolIsRead(u, f.role.Constructor?);
    QualIsRead(u, m.thisType);
    var s := KeptSignature(f).(info := KeptMethod(m).(ref := NoRef));
    InstancePrototypeIsRead(u, a, b, c, d, s);
    RefIsRead(u, m.ref, Apply("MethodPrototype", ATYPE, [BOOL, BOOL, ATYPE, ATYPE], [a, b, c, d]), s);
    InstanceLayers(u, f, t);
  }

  lemma InstanceLayers(u: Unit, f: FunctionDecl, t: Term)
    requires f.method_.InstanceMethod?
    ensures Wrap(MethodLayers(u, f), t)
         == Wrap(RefLayers(f.method_.ref),
                 Apply("MethodPrototype", ATYPE, [BOOL, BOOL, ATYPE, ATYPE],
                       [BoolToken(f.method_.userProvided), BoolToken(f.role.Constructor?), QualTerm(u, f.method_.thisType),
                        Wrap(MarkLayers(f.method_.isVirtual, f.method_.isPure, IsExplicit(f.role)), t)]))
  {
    hide Wrap, When, BoolToken, RefLayers, QualTerm, IsExplicit;
    var m := f.method_;
    var p, marks := PrototypeLayer(u, f), MarkLayers(m.isVirtual, m.isPure, IsExplicit(f.role));
    assert MethodLayers(u, f) == RefLayers(m.ref) + ([p] + marks);
    WrapConcat(RefLayers(m.ref), [p] + marks, t);
    WrapConcat([p], marks, t);
    WrapOne(p, Wrap(marks, t));
    assert p.before + [Wrap(marks, t)]
        == [BoolToken(m.userProvided), BoolToken(f.role.Constructor?), QualTerm(u, m.thisType), Wrap(marks, t)];
  }

  lemma {:induction false} SignatureIsRead(u: Unit, f: FunctionDecl)
    requires FunctionPartsOk(false, f)
    ensures AsSignature(ReadTerm(u, Wrap(MethodLayers(u, f), QualTerm(u, f.ty)))) == Some(KeptSignature(f))
    decreases f, 1
  {
    hide ReadTerm, StmtOk, AsMarks, PrototypeLayer, BuildQualified, AsInt, AsName, AsScope, AsTag, AsExceptions,
      StrictlyListed, Listed, Maybe, QualTerm, KeptQual, QualOk, NameTerm, KeptName, NameOk, NestedTerm, KeptScope,
      NestedOk, AllDeclTerms, KeptDecls, AllPresentOk, InitTerm, KeptInit, InitOk;
    QualIsRead(u, f.ty);
    match f.method_
    case NotMethod =>
    case StaticMethod =>
      WrapperIsRead(u, "StaticMethodPrototype", QualTerm(u, f.ty));
    case InstanceMethod(_, _, _, _, _) => InstanceMethodIsRead(u, f);
  }

  /** A function without what is wrapped around it. */
  function Unwrapped(f: FunctionDecl): FunctionDecl {
    f.(specialization := None, storage := NoStorage, isInline := false, isConstexpr := false)
  }

  ghost function UnwrappedTerm(u: Unit, f: FunctionDecl): Term {
    Term(FunctionNode(f), HeadTerms(u, f) + EndTerms(u, f))
  }

  lemma {:induction false} UnwrappedIsRead(u: Unit, f: FunctionDecl)
    requires FunctionOk(false, f)
    ensures ReadTerm(u, UnwrappedTerm(u, f)) == ADeclKind(Function(Unwrapped(KeptFunction(f))))
    decreases f, 2
  {
    hide ReadTerm, EndTerms, MethodLayers, Wrap, IdentifierTerm, AsSignature, Listed, ListOf, AsName, AsScope, AsEnd,
      BuildFunction, KeptEnd, KeptSignature, KeptFunction, StmtOk, Closed, QualTerm, KeptQual, QualOk, NameTerm,
      KeptName, NameOk, NestedTerm, KeptScope, NestedOk, AllDeclTerms, KeptDecls, AllPresentOk, InitTerm, KeptInit,
      InitOk;
    var a, b, c := NestedTerm(u, f.scope), NameTerm(u, f.name), IdentifierTerm(u, f.mangled);
    var d, e := Wrap(MethodLayers(u, f), QualTerm(u, f.ty)), ParamsTerm(u, f.params);
    ScopeIsRead(u, f.scope);
    NameIsRead(u, f.name);
    IdentifierIsRead(u, f.mangled);
    SignatureIsRead(u, f);
    ParamDeclsAreRead(u, f.params);
    assert HeadTerms(u, f) == [a, b, c, d, e];
    if IsDefinitionForm(f) {
      var g := Only(EndTerms(u, f));
      EndIsRead(u, f);
      assert HeadTerms(u, f) + EndTerms(u, f) == [a, b, c, d, e, g];
      DefinitionIsRead(u, [a, b, c, d, e, g], KeptEnd(f));
    } else {
      NothingAtTheEnd(u, f);
      assert HeadTerms(u, f) + EndTerms(u, f) == [a, b, c, d, e];
      DeclarationIsRead(u, [a, b, c, d, e]);
    }
    Read5(u, a, b, c, d, e);
    FunctionIsBuilt(ReadTerms(u, HeadTerms(u, f) + EndTerms(u, f)), f);
  }

  lemma NothingAtTheEnd(u: Unit, f: FunctionDecl)
    requires Closed(f) && !IsDefinitionForm(f)
    ensures EndTerms(u, f) == [] && KeptEnd(f) == End(false, false, false, None, None)
  {
    hide StmtTerm, KeptMaybeStmt, KeptInits, InitTerms;
  }

  lemma DefinitionIsRead(u: Unit, ts: seq<Term>, end: End)
    requires |ts| == 6 && AsEnd(ReadTerm(u, ts[5])) == Some(end)
    ensures ReadTerm(u, Apply("FunctionDefinition", DECLARATOR, [NNS, CID, CID, ATYPE, LIST, ASTMT], ts))
         == OrUnreadable(BuildFunction(ReadTerms(u, ts), end))
  {
    hide ReadTerm, BuildFunction, AsEnd, AsName, AsScope, AsQual, AsBool, Maybe;
    DeclaratorNode(u, KApply("FunctionDefinition", DECLARATOR, [NNS, CID, CID, ATYPE, LIST, ASTMT]), ts);
  }

  lemma DeclarationIsRead(u: Unit, ts: seq<Term>)
    requires |ts| == 5
    ensures ReadTerm(u, Apply("FunctionDecl", DECLARATOR, [NNS, CID, CID, ATYPE, LIST], ts))
         == OrUnreadable(BuildFunction(ReadTerms(u, ts), End(false, false, false, None, None)))
  {
    hide ReadTerm, BuildFunction, AsEnd, AsName, AsScope, AsQual, AsBool, Maybe;
    DeclaratorNode(u, KApply("FunctionDecl", DECLARATOR, [NNS, CID, CID, ATYPE, LIST]), ts);
  }

  lemma FunctionIsBuilt(rs: seq<Part>, f: FunctionDecl)
    requires |rs| >= 5 && AsScope(rs[0]) == Some(KeptScope(f.scope)) && AsName(rs[1]) == Some(KeptName(f.name))
    requires AsIdentifier(rs[2]) == Some(f.mangled) && AsSignature(rs[3]) == Some(KeptSignature(f))
    requires Listed(AsDecl, rs[4]) == Some(KeptDecls(f.params))
    ensures BuildFunction(rs, KeptEnd(f)) == Some(ADeclKind(Function(Unwrapped(KeptFunction(f)))))
  {
    hide AsScope, AsName, AsIdentifier, AsSignature, Listed, KeptScope, KeptName, KeptDecls, KeptQual, KeptInits,
      KeptMaybeStmt, KeptMaybeSpecialization;
  }

  lemma {:induction false} SpecializationIsRead(u: Unit, s: FunctionSpecialization)
    requires IsWrapped(s) && SpecializationOk(false, s)
    ensures AsSpecialization(s.kind, ReadTerm(u, SpecializationTerm(u, s))) == Some(KeptSpecialization(s))
    decreases s, 0
  {
    hide ReadTerm, NameTerm, KeptName, NameOk, AsName, ListOf, ArgTerms, KeptArgs, ArgsOk, Listed, BuildQualified,
      AsInt, AsScope, AsTag, AsExceptions, StrictlyListed, Maybe;
    NameIsRead(u, s.template);
    match s.args
    case Args(args) =>
      ArgListIsRead(u, args);
      SpecializedIsRead(u, s.template, args);
    case NoArgs =>
      Read1(u, NameTerm(u, s.template));
      TypeNode(u, KApply("TemplateSpecializationType2", ATYPE, [CID]), [NameTerm(u, s.template)]);
  }

  function WithSpecialization(f: FunctionDecl, s: Option<FunctionSpecialization>): FunctionDecl {
    f.(specialization := s)
  }

  lemma {:induction false} SpecializationLayersAreRead(u: Unit, f: FunctionDecl, t: Term, g: FunctionDecl)
    requires match f.specialization case Some(s) => SpecializationOk(false, s) case None => true
    requires ReadTerm(u, t) == ADeclKind(Function(g)) && g.specialization.None?
    ensures ReadTerm(u, Wrap(SpecializationLayers(u, f), t))
         == ADeclKind(Function(WithSpecialization(g, KeptMaybeSpecialization(f.specialization))))
    decreases f, 0
  {
    hide ReadTerm, SpecializationTerm, KeptSpecialization, SpecializationOk, AsSpecialization;
    match f.specialization
    case None =>
    case Some(s) =>
      if IsWrapped(s) {
        var a := SpecializationTerm(u, s);
        SpecializationIsRead(u, s);
        WrapOne(LayerOf(SpecializationLabel(s.kind), DECL, [ATYPE, DECL], [a]), t);
        assert [a] + [t] == [a, t];
        SpecializedDeclIsRead(u, s.kind, a, t);
      }
  }

  lemma FunctionIsWrapped(u: Unit, f: FunctionDecl, t: Term, g: FunctionDecl)
    requires ReadTerm(u, t) == ADeclKind(Function(g)) && g == Unwrapped(g)
    ensures ReadTerm(u, Wrap(StorageLayers(f.storage) + When(f.isInline, SpecifierLayer("Inline", FUNCTIONSPECIFIER))
                             + When(f.isConstexpr, SpecifierLayer("Constexpr", SPECIFIER)), t))
         == ADeclKind(Function(g.(storage := f.storage, isInline := f.isInline, isConstexpr := f.isConstexpr)))
  {
    hide ReadTerm, Wrap, When, StorageLayers, SpecifierLayer;
    var storage, inline := StorageLayers(f.storage), When(f.isInline, SpecifierLayer("Inline", FUNCTIONSPECIFIER));
    var const_ := When(f.isConstexpr, SpecifierLayer("Constexpr", SPECIFIER));
    ConstexprIsRead(u, f.isConstexpr, t, Function(g));
    var t1, g1 := Wrap(const_, t), g.(isConstexpr := f.isConstexpr);
    InlineIsRead(u, f.isInline, t1, g1);
    var t2, g2 := Wrap(inline, t1), g1.(isInline := f.isInline);
    StorageIsRead(u, f.storage, t2, Function(g2));
    WrapConcat(storage + inline, const_, t);
    WrapConcat(storage, inline, t1);
  }

  lemma {:induction false} FunctionIsRead(u: Unit, f: FunctionDecl)
    requires FunctionOk(false, f)
    ensures ReadTerm(u, FunctionTerm(u, f)) == ADeclKind(Function(KeptFunction(f)))
    decreases f, 3
  {
    hide ReadTerm, Wrap, When, StorageLayers, SpecifierLayer, SpecializationLayers, HeadTerms, EndTerms,
      SpecializationOk, KeptSpecialization, Closed, StmtOk, FunctionNode, KeptMethod, KeptRole, KeptMaybeStmt,
      KeptMaybeSpecialization, QualTerm, KeptQual, QualOk, NameTerm, KeptName, NameOk, NestedTerm, KeptScope,
      NestedOk, AllDeclTerms, KeptDecls, AllPresentOk, InitTerm, KeptInit, InitOk;
    var t, g := UnwrappedTerm(u, f), Unwrapped(KeptFunction(f));
    UnwrappedIsRead(u, f);
    FunctionIsWrapped(u, f, t, g);
    var rest := StorageLayers(f.storage) + When(f.isInline, SpecifierLayer("Inline", FUNCTIONSPECIFIER))
                + When(f.isConstexpr, SpecifierLayer("Constexpr", SPECIFIER));
    var h := g.(storage := f.storage, isInline := f.isInline, isConstexpr := f.isConstexpr);
    SpecializationLayersAreRead(u, f, Wrap(rest, t), h);
    assert FunctionLayers(u, f) == SpecializationLayers(u, f) + rest;
    WrapConcat(SpecializationLayers(u, f), rest, t);
  }
}
