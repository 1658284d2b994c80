/** The term each syntax tree stands for. A term is given as a tree here, with no arity constraint;
    the visitor appends its preorder word to the node vector. */
module Trees {
  import opened Wrappers
  import opened Sorts
  import opened Terms
  import opened Tokens
  import opened Decimal
  import opened Ast

  // ----- Building blocks -----

  function Apply(klabel: string, sort: Sort, sig: seq<Sort>, kids: seq<Term>): Term {
    Term(KApply(klabel, sort, sig), kids)
  }

  function Leaf(klabel: string, sort: Sort): Term {
    Apply(klabel, sort, [], [])
  }

  function BoolToken(b: bool): Term {
    Term(KToken(BOOL, BoolValue(b)), [])
  }

  function IntToken(n: nat): Term {
    Term(KToken(INT, Numeral(n)), [])
  }

  function StringToken(u: Unit, s: Bytes): Term {
    Term(KToken(STRING, StringValue(u.kore, s)), [])
  }

  /** A list that announces a size and holds some terms. */
  function ListOf(size: nat, items: seq<Term>): Term {
    Apply("kSeqToList", LIST, [K], [Term(KSequence(size), items)])
  }

  function StrictListOf(size: nat, items: seq<Term>): Term {
    Apply("list", STRICTLIST, [LIST], [ListOf(size, items)])
  }

  function NoInit(): Term {
    Leaf("NoInit", INIT)
  }

  function NoExpression(): Term {
    Leaf("NoExpression", AEXPR)
  }

  function NoStatement(): Term {
    Leaf("NoStatement", ASTMT)
  }

  function NoType(): Term {
    Leaf("NoType", ATYPERESULT)
  }

  /** A node with all of its children but the last, which is still to come. */
  datatype Layer = Layer(node: Node, before: seq<Term>)

  function LayerOf(klabel: string, sort: Sort, sig: seq<Sort>, before: seq<Term>): Layer {
    Layer(KApply(klabel, sort, sig), before)
  }

  function Wrap(layers: seq<Layer>, t: Term): Term {
    if layers == [] then t else Term(layers[0].node, layers[0].before + [Wrap(layers[1..], t)])
  }

  function When(b: bool, layer: Layer): seq<Layer> {
    if b then [layer] else []
  }

  function SpecifierLayer(klabel: string, sort: Sort): Layer {
    LayerOf("Specifier", DECL, [SPECIFIER, DECL], [Leaf(klabel, sort)])
  }

  function StorageLayers(storage: StorageClass): seq<Layer> {
    match storage
    case NoStorage => []
    case Extern => [SpecifierLayer("Extern", STORAGECLASSSPECIFIER)]
    case Static => [SpecifierLayer("Static", STORAGECLASSSPECIFIER)]
    case Register => [SpecifierLayer("Register", STORAGECLASSSPECIFIER)]
    case AutoStorage => [SpecifierLayer("Auto", AUTOSPECIFIER)]
  }

  function LocTerm(u: Unit, loc: Loc): Term {
    match loc
    case UnknownLoc => Leaf("UnknownCabsLoc_COMMON-SYNTAX", CABSLOC)
    case Loc(file, absolute, line, column, system) =>
      Apply("CabsLoc", CABSLOC, [STRING, STRING, INT, INT, BOOL],
            [StringToken(u, file), StringToken(u, absolute), IntToken(line), IntToken(column), BoolToken(system)])
  }

  function IdentifierTerm(u: Unit, id: Bytes): Term {
    Apply("Identifier", CID, [STRING], [StringToken(u, id)])
  }

  function IdTerm(u: Unit, id: Option<Bytes>, decl: nat): Term {
    match id
    case Some(name) => IdentifierTerm(u, name)
    case None =>
      if decl == 0 then Leaf("#NoName_COMMON-SYNTAX", NONAME)
      else Apply("unnamed", UNNAMEDCID, [INT, STRING], [IntToken(decl), StringToken(u, u.inFile)])
  }

  function TagTerm(tag: TagKind): Term {
    match tag
    case StructTag => Leaf("Struct", CLASSKEY)
    case UnionTag => Leaf("Union", CLASSKEY)
    case ClassTag => Leaf("Class", CLASSKEY)
    case EnumTag => Leaf("Enum", TAG)
  }

  // ----- Types and names -----

  function QualifierLayers(q: QualType): seq<Layer> {
    var layer := (name: string) => LayerOf("Qualifier", ATYPE, [QUALIFIER, ATYPE], [Leaf(name, QUALIFIER)]);
    When(q.isConst, layer("Const")) + When(q.isVolatile, layer("Volatile")) + When(q.isRestrict, layer("Restrict"))
  }

  ghost function QualTerm(u: Unit, q: QualType): Term
    decreases q, 0
  {
    Wrap(QualifierLayers(q), TypeTerm(u, q.ty))
  }

  ghost function QualTerms(u: Unit, qs: seq<QualType>): (ts: seq<Term>)
    ensures |ts| == |qs|
    decreases qs, 0
  {
    seq(|qs|, i requires 0 <= i < |qs| => QualTerm(u, qs[i]))
  }

  ghost function TypeTerm(u: Unit, t: Type): Term
    decreases t, 0
  {
    match t
    case Builtin(specifier) => Apply("BuiltinType", ATYPE, [TYPESPECIFIER], [Leaf(specifier, TYPESPECIFIER)])
    case Pointer(pointee) => Apply("PointerType", ATYPE, [ATYPE], [QualTerm(u, pointee)])
    case ConstantArray(element, size) =>
      Apply("ArrayType", ATYPE, [ATYPE, INT], [QualTerm(u, element), IntToken(size)])
    case SizedArray(element, sizeExpr) =>
      Apply("ArrayTypeAExpr", ATYPE, [ATYPE, AEXPR], [QualTerm(u, element), ExprTerm(u, sizeExpr)])
    case IncompleteArray(element) =>
      Apply("ArrayTypeAExpr", ATYPE, [ATYPE, AEXPR], [QualTerm(u, element), NoExpression()])
    case Prototype(ret, params, exceptions, variadic) =>
      Apply("FunctionPrototype", ATYPE, [ATYPE, STRICTLIST, EXCEPTIONSPEC, BOOL],
            [QualTerm(u, ret), StrictListOf(|params|, QualTerms(u, params)), ExceptionsTerm(u, exceptions), BoolToken(variadic)])
    case TagType(name) => Apply("Name", NAME, [NNS, CID], [Leaf("NoNNS", NNS), NameTerm(u, name)])
    case ParamType(id) => Apply("TemplateParameterType", ATYPE, [CID], [IdTerm(u, id, 0)])
    case SpecializedType(template, args) =>
      Apply("TemplateSpecializationType", ATYPE, [CID, LIST], [NameTerm(u, template), ListOf(|args|, ArgTerms(u, args))])
    case Substituted(replacement) => QualTerm(u, replacement)
    case Auto(Some(deduced), _) => QualTerm(u, deduced)
    case Auto(None, isDecltype) => Apply("AutoType", ATYPE, [BOOL], [BoolToken(isDecltype)])
  }

  ghost function ExceptionsTerm(u: Unit, spec: ExceptionSpec): Term
    decreases spec, 0
  {
    match spec
    case NoSpec => Leaf("NoExceptionSpec", EXCEPTIONSPEC)
    case BasicNoexcept => Apply("NoexceptSpec", EXCEPTIONSPEC, [AEXPR], [NoExpression()])
    case ComputedNoexcept(cond) => Apply("NoexceptSpec", EXCEPTIONSPEC, [AEXPR], [ExprTerm(u, cond)])
    case DynamicNone => Apply("ThrowSpec", EXCEPTIONSPEC, [STRICTLIST], [StrictListOf(0, [])])
    case Dynamic(thrown) =>
      Apply("ThrowSpec", EXCEPTIONSPEC, [STRICTLIST], [StrictListOf(|thrown|, QualTerms(u, thrown))])
  }

  ghost function NameTerm(u: Unit, name: DeclName): Term
    decreases name, 0
  {
    match name
    case Ident(id, decl) => IdTerm(u, id, decl)
    case TypeName(ty) => Apply("TypeId", TYPEID, [ATYPE], [QualTerm(u, ty)])
    case DestructorName(ty) => Apply("DestructorTypeId", DESTRUCTORID, [ATYPE], [QualTerm(u, ty)])
    case OperatorName(spelling) => Leaf("operator" + spelling + "_CPP-SYNTAX", OPID)
  }

  ghost function NestedTerm(u: Unit, scope: Nested): Term
    decreases scope, 0
  {
    match scope
    case Unqualified => Leaf("NoNNS", NNS)
    case Nested(Unqualified, spec) => NestedSpecTerm(u, spec)
    case Nested(prefix, spec) =>
      Apply("NestedName", NNS, [NNS, NNSSPECIFIER], [NestedTerm(u, prefix), NestedSpecTerm(u, spec)])
  }

  ghost function NestedSpecTerm(u: Unit, spec: NestedSpec): Term
    decreases spec, 0
  {
    match spec
    case NameSpec(name) => Apply("NNS", NNSSPECIFIER, [CID], [NameTerm(u, name)])
    case TypeSpec(ty) => Apply("NNS", NNSSPECIFIER, [CID], [QualTerm(u, ty)])
    case TemplateTypeSpec(ty) => Apply("TemplateNNS", NNSSPECIFIER, [CID], [QualTerm(u, ty)])
    case GlobalSpec => Leaf("GlobalNamespace", NAMESPACE)
  }

  ghost function ArgTerm(u: Unit, arg: TemplateArg): Term
    decreases arg, 0
  {
    match arg
    case TypeArg(ty) => Apply("TypeArg", TEMPLATEARGUMENT, [ATYPE], [QualTerm(u, ty)])
    case NameArg(name) => Apply("TemplateArg", TEMPLATEARGUMENT, [CID], [NameTerm(u, name)])
    case ExprArg(expr) => Apply("ExprArg", TEMPLATEARGUMENT, [EXPR], [ExprTerm(u, expr)])
    case IntegralArg(value, ty) =>
      Apply("ExprArg", TEMPLATEARGUMENT, [EXPR], [IntegerTerm(u, value, ty)])
    case PackArg(args) => Apply("PackArg", TEMPLATEARGUMENT, [LIST], [ListOf(|args|, ArgTerms(u, args))])
  }

  ghost function IntegerTerm(u: Unit, value: nat, ty: QualType): Term
    decreases ty, 1
  {
    Apply("IntegerLiteral", EXPR, [INT, ATYPE], [IntToken(value), QualTerm(u, ty)])
  }

  ghost function ArgTerms(u: Unit, args: seq<TemplateArg>): (ts: seq<Term>)
    ensures |ts| == |args|
    decreases args, 0
  {
    seq(|args|, i requires 0 <= i < |args| => ArgTerm(u, args[i]))
  }

  // ----- Expressions -----

  ghost function ExprTerm(u: Unit, e: Expr): Term
    decreases e, 0
  {
    match e
    case DefaultArg => Term(KSequence(0), [])
    case Expr(loc, kind) => Wrap([LayerOf("ExprLoc", EXPRLOC, [CABSLOC, KITEM], [LocTerm(u, loc)])], KindTerm(u, kind))
  }

  ghost function ExprTerms(u: Unit, es: seq<Expr>): (ts: seq<Term>)
    ensures |ts| == |es|
    decreases es, 0
  {
    seq(|es|, i requires 0 <= i < |es| => ExprTerm(u, es[i]))
  }

  ghost function ExprOr(u: Unit, e: Option<Expr>, other: Term): Term
    decreases e, 0
  {
    match e
    case Some(x) => ExprTerm(u, x)
    case None => other
  }

  function OperatorLeaf(spelling: string): Term {
    Leaf("operator" + spelling + "_CPP-SYNTAX", OPID)
  }

  function UnaryTerm(spelling: string, operand: Term): Term {
    Apply("UnaryOperator", EXPR, [OPID, EXPR], [OperatorLeaf(spelling), operand])
  }

  /** An operator with two arguments: a unary form leaves out the second. */
  function OperatorTerm(form: OperatorForm, left: Term, right: Term): Term
    requires !form.Thrown?
  {
    match form
    case BinaryForm(s) => Apply("BinaryOperator", EXPR, [OPID, EXPR, INIT], [OperatorLeaf(s), left, right])
    case UnaryForm(s) => UnaryTerm(s, left)
  }

  ghost function KindTerm(u: Unit, e: ExprKind): Term
    decreases e, 0
  {
    match e
    case IntegerLit(value, ty) => IntegerTerm(u, value, ty)
    case BoolLit(b) => Apply("BoolLiteral", EXPR, [BOOL], [BoolToken(b)])
    case NullPtrLit => Leaf("NullPointerLiteral", EXPR)
    case StringLit(charKind, bytes) =>
      Apply("StringLiteral", EXPR, [CHARKIND, STRING], [Leaf(charKind, CHARKIND), StringToken(u, bytes)])
    case This => Leaf("This", THIS)
    case Lookup(scope, name) => Apply("Name", NAME, [NNS, CID], [NestedTerm(u, scope), NameTerm(u, name)])
    case Member(arrow, templated, scope, name, base) =>
      Apply("MemberExpr", EXPR, [BOOL, BOOL, NAME, EXPR],
            [BoolToken(arrow), BoolToken(templated),
             Apply("Name", NAME, [NNS, CID], [NestedTerm(u, scope), NameTerm(u, name)]),
             ExprTerm(u, base)])
    case Call(callee, args) =>
      Apply("CallExpr", RESOLVEDEXPR, [EXPR, STRICTLIST, STRICTLISTRESULT],
            [ExprTerm(u, callee), StrictListOf(|args|, ExprTerms(u, args)),
             Apply("krlist", STRICTLISTRESULT, [LIST], [Leaf(".List", LIST)])])
    case OverloadedCall => Leaf("OverloadedCall", EXPR)
    case OneOperand(op, operand) => UnaryTerm(FormOf(op, 1).spelling, ExprTerm(u, operand))
    case TwoOperands(op, left, right) => OperatorTerm(FormOf(op, 2), ExprTerm(u, left), ExprTerm(u, right))
    case Construction(form, ty, args) =>
      Apply(ConstructionLabel(form), EXPR, [ATYPE, LIST], [QualTerm(u, ty), ListOf(|args|, ExprTerms(u, args))])
    case ConstructorCall(zeroInit, ty, args) =>
      Apply("ConstructorCall", INIT, [BOOL, ATYPE, LIST],
            [BoolToken(zeroInit), QualTerm(u, ty), ListOf(|args|, ExprTerms(u, args))])
    case New(global, ty, count, init, placement) =>
      Apply("NewExpr", EXPR, [BOOL, ATYPE, AEXPR, INIT, LIST],
            [BoolToken(global), QualTerm(u, ty), ExprOr(u, count, NoExpression()), ExprOr(u, init, NoInit()),
             ListOf(|placement|, ExprTerms(u, placement))])
    case Lambda(capDefault, captures, explicitEnd, ty, body) =>
      Apply("Lambda", EXPR, [CAPTUREDEFAULT, LIST, ATYPE, ASTMT],
            [Leaf(capDefault, CAPTUREDEFAULT), ListOf(CountExplicit(captures, explicitEnd), CaptureTerms(u, captures)),
             QualTerm(u, ty), StmtTerm(u, body)])
    case InitList(inits) => Apply("BraceInit", BRACEINIT, [LIST], [ListOf(|inits|, ExprTerms(u, inits))])
  }

  function ConstructionLabel(form: ConstructionForm): string {
    match form
    case UnresolvedConstruct => "UnresolvedConstructorCall"
    case FunctionalCast => "FunctionalCast"
    case TemporaryObject => "TemporaryObjectExpr"
  }

  /** The explicit captures among the first n. */
  function CountExplicit(captures: seq<Capture>, n: nat): nat {
    if n == 0 || captures == [] then 0
    else (if captures[0].isExplicit then 1 else 0) + CountExplicit(captures[1..], n - 1)
  }

  ghost function CaptureTerm(u: Unit, c: Capture): Term
    decreases c, 0
  {
    Apply("LambdaCapture", CAPTURE, [CAPTUREKIND, BOOL], CapturedTerms(u, c.what) + [BoolToken(c.pack)])
  }

  ghost function CapturedTerms(u: Unit, what: Captured): seq<Term>
    decreases what, 0
  {
    match what
    case CaptureThis => [Leaf("This", THIS)]
    case CaptureRef(variable) => [Apply("RefCapture", CAPTUREKIND, [DECL], DeclTerms(u, variable))]
    case CaptureCopy(variable) => DeclTerms(u, variable)
  }

  ghost function CaptureTerms(u: Unit, captures: seq<Capture>): seq<Term>
    decreases captures, 0
  {
    if captures == [] then []
    else (if captures[0].isExplicit then [CaptureTerm(u, captures[0])] else []) + CaptureTerms(u, captures[1..])
  }

  // ----- Statements -----

  ghost function StmtTerms(u: Unit, ss: seq<Stmt>): (ts: seq<Term>)
    ensures |ts| == |ss|
    decreases ss, 0
  {
    seq(|ss|, i requires 0 <= i < |ss| => StmtTerm(u, ss[i]))
  }

  ghost function StmtOr(u: Unit, s: Option<Stmt>): Term
    decreases s, 0
  {
    match s
    case Some(x) => StmtTerm(u, x)
    case None => NoStatement()
  }

  ghost function CondTerms(u: Unit, cond: Cond): seq<Term>
    decreases cond, 0
  {
    match cond
    case CondVar(variable) => DeclTerms(u, variable)
    case CondExpr(expr) => [ExprTerm(u, expr)]
  }

  ghost function StmtTerm(u: Unit, s: Stmt): Term
    decreases s, 0
  {
    match s
    case Break => Leaf("TBreakStmt", STMT)
    case Continue => Leaf("ContinueStmt", STMT)
    case Null => Leaf("NullStmt", STMT)
    case ExprStmt(expr) => ExprTerm(u, expr)
    case Compound(body) => Apply("CompoundAStmt", ASTMT, [LIST], [ListOf(|body|, StmtTerms(u, body))])
    case If(cond, thn, els) =>
      Apply("IfAStmt", ASTMT, [DECL, ASTMT, ASTMT], CondTerms(u, cond) + [StmtTerm(u, thn), StmtOr(u, els)])
    case For(init, test, inc, loop) =>
      Apply("ForAStmt", ASTMT, [ASTMT, AEXPR, AEXPR, ASTMT],
            [StmtOr(u, init), ExprOr(u, test, NoExpression()), ExprOr(u, inc, NoExpression()), StmtTerm(u, loop)])
    case While(cond, loop) => Apply("WhileAStmt", ASTMT, [EXPR, ASTMT], CondTerms(u, cond) + [StmtTerm(u, loop)])
    case Switch(cond, cases) => Apply("SwitchAStmt", ASTMT, [DECL, ASTMT], CondTerms(u, cond) + [StmtTerm(u, cases)])
    case Case(value, sub) => Apply("CaseAStmt", ASTMT, [EXPR, ASTMT], [ExprTerm(u, value), StmtTerm(u, sub)])
    case Try(block, handlers) =>
      Apply("TryAStmt", ASTMT, [ASTMT, LIST], [StmtTerm(u, block), ListOf(|handlers|, StmtTerms(u, handlers))])
    case Catch(exception, block) =>
      Apply("CatchAStmt", ASTMT, [CATCHDECL, ASTMT], CatchTerms(u, exception) + [StmtTerm(u, block)])
  }

  ghost function CatchTerms(u: Unit, exception: Option<Decl>): seq<Term>
    decreases exception, 0
  {
    match exception
    case Some(d) => DeclTerms(u, d)
    case None => [Leaf("Ellipsis", CATCHDECL)]
  }

  // ----- Declarations -----

  /** A declaration that is excluded leaves nothing. */
  ghost function DeclTerms(u: Unit, d: Decl): seq<Term>
    decreases d, 0
  {
    if Excluded(d) then []
    else [Wrap([LayerOf("DeclLoc", DECL, [CABSLOC, DECL], [LocTerm(u, d.loc)])], DeclTerm(u, d.kind))]
  }

  ghost function AllDeclTerms(u: Unit, ds: seq<Decl>): seq<Term>
    decreases ds, 0
  {
    if ds == [] then [] else DeclTerms(u, ds[0]) + AllDeclTerms(u, ds[1..])
  }

  function CountIncluded(ds: seq<Decl>): nat {
    if ds == [] then 0 else (if Excluded(ds[0]) then 0 else 1) + CountIncluded(ds[1..])
  }

  /** The declarations of a context, under the count of those that are not excluded. */
  ghost function ContextTerm(u: Unit, ds: seq<Decl>): Term
    decreases ds, 1
  {
    ListOf(CountIncluded(ds), AllDeclTerms(u, ds))
  }

  /** A parameter list, if there is one, under its full length. */
  ghost function ParamListTerms(u: Unit, params: ParamList): seq<Term>
    decreases params, 0
  {
    match params
    case NoParams => []
    case Params(ds) => [ListOf(|ds|, AllDeclTerms(u, ds))]
  }

  ghost function QualOr(u: Unit, q: Option<QualType>): Term
    decreases q, 0
  {
    match q
    case Some(ty) => QualTerm(u, ty)
    case None => NoType()
  }

  ghost function InstanceTerms(u: Unit, instances: seq<Instance>): seq<Term>
    decreases instances, 0
  {
    if instances == [] then []
    else OneInstanceTerms(u, instances[0]) + InstanceTerms(u, instances[1..])
  }

  ghost function OneInstanceTerms(u: Unit, instance: Instance): seq<Term>
    decreases instance, 0
  {
    if IsInstantiation(instance.kind) then DeclTerms(u, instance.decl) else []
  }

  function CountInstances(instances: seq<Instance>): nat {
    if instances == [] then 0
    else (if IsInstantiation(instances[0].kind) then 1 else 0) + CountInstances(instances[1..])
  }

  function SpecializationLabel(kind: DeclaredKind): string {
    match kind
    case ExplicitSpecialization => "TemplateSpecialization"
    case InstantiationDeclaration => "TemplateInstantiationDeclaration"
    case ImplicitInstantiation => "TemplateInstantiationDefinition"
    case InstantiationDefinition => "TemplateInstantiationDefinition"
  }

  ghost function DeclTerm(u: Unit, k: DeclKind): Term
    decreases k, 1
  {
    match k
    case Function(f) => FunctionTerm(u, f)
    case Var(v) => VarTerm(u, v)
    case Field(isMutable, width, scope, name, ty, init) =>
      Wrap(When(isMutable, SpecifierLayer("Mutable", STORAGECLASSSPECIFIER)),
           if width.Some? then
             Apply("BitFieldDecl", DECLARATOR, [NNS, CID, ATYPE, EXPR],
                   [NestedTerm(u, scope), NameTerm(u, name), QualTerm(u, ty), ExprTerm(u, width.value)])
           else
             Apply("FieldDecl", DECLARATOR, [NNS, CID, ATYPE, INIT],
                   [NestedTerm(u, scope), NameTerm(u, name), QualTerm(u, ty), ExprOr(u, init, NoInit())]))
    case Record(r) => RecordTerm(u, r)
    case OpaqueEnum(name, scoped, ty) =>
      Apply("OpaqueEnumDeclaration", DECL, [CID, BOOL, ATYPE], [NameTerm(u, name), BoolToken(scoped), QualTerm(u, ty)])
    case EnumDef(name, scope, scoped, isFixed, ty, decls) =>
      Apply("EnumDef", DECL, [CID, NNS, BOOL, BOOL, ATYPE, LIST],
            [NameTerm(u, name), NestedTerm(u, scope), BoolToken(scoped), BoolToken(isFixed), QualTerm(u, ty),
             ContextTerm(u, decls)])
    case EnumConstant(name, init) =>
      Apply("Enumerator", ENUMERATOR, [CID, AEXPR], [NameTerm(u, name), ExprOr(u, init, NoExpression())])
    case AccessSpec(access) => Apply("AccessSpec", DECL, [ACCESSSPECIFIER], [Leaf(access, ACCESSSPECIFIER)])
    case TranslationUnit(decls) =>
      Apply("TranslationUnit", DECL, [STRING, LIST], [StringToken(u, u.inFile), ContextTerm(u, decls)])
    case _ => TemplateTerm(u, k)
  }

  predicate IsTemplate(k: DeclKind) {
    k.Template? || k.TypeParam? || k.ValueParam? || k.TemplateParam? || k.ClassSpecialization? || k.PartialSpecialization?
  }

  /** The kinds of declaration that have to do with templates. */
  ghost function TemplateTerm(u: Unit, k: DeclKind): Term
    requires IsTemplate(k)
    decreases k, 0
  {
    match k
    case Template(templated, params, instances) =>
      Apply("TemplateWithInstantiations", DECL, [DECL, LIST, LIST],
            DeclTerms(u, templated) + ParamListTerms(u, params)
            + [ListOf(CountInstances(instances), InstanceTerms(u, instances))])
    case TypeParam(isTypename, pack, declared, default) =>
      Apply("TypeTemplateParam", TEMPLATEPARAMETER, [BOOL, BOOL, ATYPE, ATYPE],
            [BoolToken(isTypename), BoolToken(pack), QualOr(u, declared), QualOr(u, default)])
    case ValueParam(pack, scope, name, ty, init) =>
      Apply("ValueTemplateParam", TEMPLATEPARAMETER, [BOOL, NNS, CID, ATYPE, AEXPR],
            [BoolToken(pack), NestedTerm(u, scope), NameTerm(u, name), QualTerm(u, ty), ExprOr(u, init, NoExpression())])
    case TemplateParam(pack, name, arg, params) =>
      Apply("TemplateTemplateParam", TEMPLATEPARAMETER, [BOOL, CID, ATYPE, LIST],
            [BoolToken(pack), NameTerm(u, name), if arg.Some? then ArgTerm(u, arg.value) else NoType()]
            + ParamListTerms(u, params))
    case ClassSpecialization(specKind, declared, r) =>
      Wrap([LayerOf(SpecializationLabel(specKind), DECL, [ATYPE, DECL], [QualOr(u, declared)])], RecordTerm(u, r))
    case PartialSpecialization(paramDecls, args, r) =>
      Wrap([LayerOf("PartialSpecialization", DECL, [LIST, LIST, DECL],
                    [ListOf(|paramDecls|, AllDeclTerms(u, paramDecls)), ListOf(|args|, ArgTerms(u, args))])],
           RecordTerm(u, r))
  }

  function AlignasLayer(n: nat): Layer {
    LayerOf("Specifier", DECL, [SPECIFIER, DECL], [Apply("Alignas", SPECIFIER, [INT], [IntToken(n)])])
  }

  function VarLayers(v: VarDecl): seq<Layer> {
    StorageLayers(v.storage)
    + When(v.threadLocal, SpecifierLayer("ThreadLocal", STORAGECLASSSPECIFIER))
    + When(v.isConstexpr, SpecifierLayer("Constexpr", SPECIFIER))
    + When(v.alignment != 0, AlignasLayer(v.alignment / 8))
  }

  ghost function VarTerm(u: Unit, v: VarDecl): Term
    decreases v, 0
  {
    Wrap(VarLayers(v),
         Apply("VarDecl", DECLARATOR, [NNS, CID, CID, ATYPE, INIT, BOOL],
               [NestedTerm(u, v.scope), NameTerm(u, v.name), IdentifierTerm(u, v.mangled), QualTerm(u, v.ty),
                ExprOr(u, v.init, NoInit()), BoolToken(v.direct)]))
  }

  ghost function BaseTerm(u: Unit, b: Base): Term
    decreases b, 0
  {
    Apply("BaseClass", BASESPECIFIER, [BOOL, BOOL, ACCESSSPECIFIER, ATYPE],
          [BoolToken(b.isVirtual), BoolToken(b.pack), Leaf(b.access, ACCESSSPECIFIER), QualTerm(u, b.ty)])
  }

  ghost function BaseTerms(u: Unit, bs: seq<Base>): (ts: seq<Term>)
    ensures |ts| == |bs|
    decreases bs, 0
  {
    seq(|bs|, i requires 0 <= i < |bs| => BaseTerm(u, bs[i]))
  }

  ghost function RecordTerm(u: Unit, r: RecordDecl): Term
    decreases r, 0
  {
    if r.complete then
      Apply("ClassDef", DECL, [TAG, CID, NNS, LIST, LIST, BOOL],
            [TagTerm(r.tag), NameTerm(u, r.name), NestedTerm(u, r.scope), ListOf(|r.bases|, BaseTerms(u, r.bases)),
             ContextTerm(u, r.decls), BoolToken(r.anonymous)])
    else
      Apply("TypeDecl", DECL, [ATYPE],
            [Apply("ElaboratedTypeSpecifier", ATYPE, [TAG, CID, NNS],
                   [TagTerm(r.tag), NameTerm(u, r.name), NestedTerm(u, r.scope)])])
  }

  // ----- Functions -----

  predicate IsWrapped(s: FunctionSpecialization) {
    s.kind.ExplicitSpecialization? || s.kind.InstantiationDeclaration? || s.kind.InstantiationDefinition?
  }

  ghost function SpecializationTerm(u: Unit, s: FunctionSpecialization): Term
    decreases s, 0
  {
    match s.args
    case Args(args) =>
      Apply("TemplateSpecializationType", ATYPE, [CID, LIST], [NameTerm(u, s.template), ListOf(|args|, ArgTerms(u, args))])
    case NoArgs => Apply("TemplateSpecializationType2", ATYPE, [CID], [NameTerm(u, s.template)])
  }

  ghost function SpecializationLayers(u: Unit, f: FunctionDecl): seq<Layer>
    decreases f, 0
  {
    match f.specialization
    case Some(s) =>
      if IsWrapped(s) then [LayerOf(SpecializationLabel(s.kind), DECL, [ATYPE, DECL], [SpecializationTerm(u, s)])] else []
    case None => []
  }

  ghost function FunctionLayers(u: Unit, f: FunctionDecl): seq<Layer>
    decreases f, 1
  {
    SpecializationLayers(u, f)
    + StorageLayers(f.storage)
    + When(f.isInline, SpecifierLayer("Inline", FUNCTIONSPECIFIER))
    + When(f.isConstexpr, SpecifierLayer("Constexpr", SPECIFIER))
  }

  function RefLayers(ref: RefQualifier): seq<Layer> {
    match ref
    case NoRef => []
    case LValueRef => [LayerOf("RefQualifier", ATYPE, [REFQUALIFIER, ATYPE], [Leaf("RefLValue", REFQUALIFIER)])]
    case RValueRef => [LayerOf("RefQualifier", ATYPE, [REFQUALIFIER, ATYPE], [Leaf("RefRValue", REFQUALIFIER)])]
  }

  predicate IsExplicit(role: FunctionRole) {
    match role
    case Ordinary => false
    case Conversion(isExplicit) => isExplicit
    case Constructor(isExplicit, _) => isExplicit
  }

  ghost function PrototypeLayer(u: Unit, f: FunctionDecl): Layer
    requires f.method_.InstanceMethod?
    decreases f, 0
  {
    LayerOf("MethodPrototype", ATYPE, [BOOL, BOOL, ATYPE, ATYPE],
            [BoolToken(f.method_.userProvided), BoolToken(f.role.Constructor?), QualTerm(u, f.method_.thisType)])
  }

  ghost function MethodLayers(u: Unit, f: FunctionDecl): seq<Layer>
    decreases f, 1
  {
    match f.method_
    case NotMethod => []
    case StaticMethod => [LayerOf("StaticMethodPrototype", ATYPE, [ATYPE], [])]
    case InstanceMethod(ref, _, _, isVirtual, isPure) =>
      RefLayers(ref)
      + [PrototypeLayer(u, f)]
      + When(isVirtual, LayerOf("Virtual", ATYPE, [ATYPE], []))
      + When(isPure, LayerOf("Pure", ATYPE, [ATYPE], []))
      + When(IsExplicit(f.role), LayerOf("Explicit", ATYPE, [ATYPE], []))
  }

  /** The definition form has a slot for a closing statement, the declaration form has none. */
  predicate IsDefinitionForm(f: FunctionDecl) {
    f.isDefinition || f.isDefaulted
  }

  function FunctionNode(f: FunctionDecl): Node {
    if IsDefinitionForm(f) then KApply("FunctionDefinition", DECLARATOR, [NNS, CID, CID, ATYPE, LIST, ASTMT])
    else KApply("FunctionDecl", DECLARATOR, [NNS, CID, CID, ATYPE, LIST])
  }

  ghost function InitTerm(u: Unit, init: CtorInit): Term
    decreases init, 0
  {
    match init
    case BaseInit(_, ty, isVirtual, pack, e) =>
      Apply("ConstructorBase", CTORINIT, [ATYPE, BOOL, BOOL, INIT],
            [QualTerm(u, ty), BoolToken(isVirtual), BoolToken(pack), ExprTerm(u, e)])
    case MemberInit(_, name, e) => Apply("ConstructorMember", CTORINIT, [CID, INIT], [NameTerm(u, name), ExprTerm(u, e)])
    case DelegatingInit(_, e) => Apply("ConstructorDelegating", CTORINIT, [INIT], [ExprTerm(u, e)])
  }

  ghost function InitTerms(u: Unit, inits: seq<CtorInit>): seq<Term>
    decreases inits, 0
  {
    if inits == [] then []
    else (if inits[0].written then [InitTerm(u, inits[0])] else []) + InitTerms(u, inits[1..])
  }

  function CountWritten(inits: seq<CtorInit>): nat {
    if inits == [] then 0 else (if inits[0].written then 1 else 0) + CountWritten(inits[1..])
  }

  /** The statements that close a function: its body, and a mark when it is defaulted or deleted. */
  ghost function ClosingTerms(u: Unit, f: FunctionDecl): seq<Term>
    decreases f, 0
  {
    (if f.isDefinition && f.body.Some? then [StmtTerm(u, f.body.value)] else [])
    + (if f.isDefaulted then [Leaf("Defaulted", STMT)]
       else if f.isDeleted then [Leaf("Deleted", STMT)]
       else [])
  }

  ghost function EndTerms(u: Unit, f: FunctionDecl): seq<Term>
    decreases f, 1
  {
    if f.isDefinition && f.role.Constructor? then
      [Apply("Constructor", STMT, [LIST, STMT],
             [ListOf(CountWritten(f.role.inits), InitTerms(u, f.role.inits))] + ClosingTerms(u, f))]
    else ClosingTerms(u, f)
  }

  /** The five children both forms have. */
  ghost function HeadTerms(u: Unit, f: FunctionDecl): seq<Term>
    decreases f, 2
  {
    [NestedTerm(u, f.scope), NameTerm(u, f.name), IdentifierTerm(u, f.mangled),
     Wrap(MethodLayers(u, f), QualTerm(u, f.ty)), ListOf(|f.params|, AllDeclTerms(u, f.params))]
  }

  ghost function FunctionTerm(u: Unit, f: FunctionDecl): Term
    decreases f, 3
  {
    Wrap(FunctionLayers(u, f), Term(FunctionNode(f), HeadTerms(u, f) + EndTerms(u, f)))
  }
}
