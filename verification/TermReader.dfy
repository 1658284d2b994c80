/** Reading a syntax tree back from a term, from the leaves up: what a term reads as is told by its node
    and by what its children read as, each in its position. */
module TermReader {
  import opened Wrappers
  import opened Sorts
  import opened Terms
  import opened Tokens
  import opened Decimal
  import opened Ast

  /** What a term can read as. */
  datatype Part =
    | Unreadable
    | AToken(sort: Sort, value: Bytes)
    | AMark(klabel: string, sort: Sort)
    | ASequence(items: seq<Part>)
    | AList(items: seq<Part>)
    | AStrictList(items: seq<Part>)
    | AnEmptyResult
    | ALoc(loc: Loc)
    | AQual(qual: QualType)
    | AName(name: DeclName)
    | AQualifiedName(scope: Nested, name: DeclName)
    | AScope(scope: Nested)
    | AScopeSpec(scopeSpec: NestedSpec)
    | AnExceptionSpec(exceptions: ExceptionSpec)
    | AnArg(arg: TemplateArg)
    | AnExpr(expr: Expr)
    | AKind(kind: ExprKind)
    | ACapture(capture: Capture)
    | ARefCapture(variable: Decl)
    | AStmt(stmt: Stmt)
    | ADecl(decl: Decl)
    | ADeclKind(declKind: DeclKind)
    | ABase(base: Base)
    | AnInit(init: CtorInit)
    | ASpecifier(specifier: Specifier)
    | AnElaborated(tag: TagKind, name: DeclName, scope: Nested)
    | ATemplateName(name: DeclName)
    | AnEnd(end: End)
    | SomeMarks(marks: Marks)
    | ASignature(signature: Signature)

  datatype Specifier =
    | StorageSpecifier(storage: StorageClass)
    | ThreadLocalSpecifier
    | InlineSpecifier
    | ConstexprSpecifier
    | AlignasSpecifier(n: nat)
    | MutableSpecifier

  /** How a function ends: the initializers, if it is a constructor's definition, and the body. */
  datatype End = End(isDefinition: bool, isDefaulted: bool, isDeleted: bool, inits: Option<seq<CtorInit>>, body: Option<Stmt>)

  /** The marks on the type of a method, which come in this order. */
  datatype Marks = Marks(isVirtual: bool, isPure: bool, isExplicit: bool, ty: QualType)

  /** What the type of a method tells besides the type. */
  datatype Signature = Signature(info: MethodInfo, isConstructor: bool, isExplicit: bool, ty: QualType)

  function ReadTerm(u: Unit, t: Term): Part
    decreases t, 0
  {
    if |t.kids| == Arity(t.node) then Build(u, t.node, ReadTerms(u, t.kids)) else Unreadable
  }

  function ReadTerms(u: Unit, ts: seq<Term>): (rs: seq<Part>)
    ensures |rs| == |ts|
    decreases ts, 0
  {
    seq(|ts|, i requires 0 <= i < |ts| => ReadTerm(u, ts[i]))
  }

  /** What a node reads as above its children. */
  function Build(u: Unit, node: Node, rs: seq<Part>): Part
    requires |rs| == Arity(node)
  {
    match node
    case KToken(sort, value) => AToken(sort, value)
    case KSequence(_) => ASequence(rs)
    case KApply(_, _, _) =>
      match BuildApply(u, node, rs)
      case Some(r) => r
      case None => Unreadable
  }

  /** The sort of a node tells among which labels it is. */
  function BuildApply(u: Unit, node: Node, rs: seq<Part>): Option<Part>
    requires node.KApply? && |rs| == Arity(node)
  {
    match node.sort
    case CABSLOC => BuildLoc(u, node, rs)
    case LIST => BuildList(node, rs)
    case STRICTLIST => BuildList(node, rs)
    case STRICTLISTRESULT => BuildList(node, rs)
    case ATYPE => BuildType(node, rs)
    case NAME => BuildName(u, node, rs)
    case CID => BuildName(u, node, rs)
    case NONAME => BuildName(u, node, rs)
    case UNNAMEDCID => BuildName(u, node, rs)
    case TYPEID => BuildName(u, node, rs)
    case DESTRUCTORID => BuildName(u, node, rs)
    case NNS => BuildScope(node, rs)
    case NNSSPECIFIER => BuildScope(node, rs)
    case NAMESPACE => BuildScope(node, rs)
    case EXCEPTIONSPEC => BuildExceptions(node, rs)
    case TEMPLATEARGUMENT => BuildArg(node, rs)
    case EXPRLOC => BuildExpr(node, rs)
    case EXPR => BuildKind(u, node, rs)
    case THIS => BuildOperation(node, rs)
    case RESOLVEDEXPR => BuildOperation(node, rs)
    case INIT => BuildOperation(node, rs)
    case BRACEINIT => BuildOperation(node, rs)
    case CAPTURE => BuildCapture(node, rs)
    case CAPTUREKIND => BuildCapture(node, rs)
    case STMT => BuildEnd(node, rs)
    case ASTMT => BuildStmt(node, rs)
    case DECL => BuildDecl(u, node, rs)
    case DECLARATOR => BuildDeclarator(u, node, rs)
    case ENUMERATOR => BuildEnum(node, rs)
    case TEMPLATEPARAMETER => BuildParam(node, rs)
    case BASESPECIFIER => BuildBase(node, rs)
    case CTORINIT => BuildInit(node, rs)
    case SPECIFIER => BuildSpecifier(node, rs)
    case STORAGECLASSSPECIFIER => BuildSpecifier(node, rs)
    case AUTOSPECIFIER => BuildSpecifier(node, rs)
    case FUNCTIONSPECIFIER => BuildSpecifier(node, rs)
    case _ => if node.sig == [] then Some(AMark(node.klabel, node.sort)) else None
  }

  // ----- Building blocks -----

  /** The list of what the items stand for, if each of them stands for something. */
  function All<T>(f: Part -> Option<T>, rs: seq<Part>): Option<seq<T>> {
    if rs == [] then Some([])
    else
      var x :- f(rs[0]);
      var xs :- All(f, rs[1..]);
      Some([x] + xs)
  }

  function Listed<T>(f: Part -> Option<T>, r: Part): Option<seq<T>> {
    if r.AList? then All(f, r.items) else None
  }

  function StrictlyListed<T>(f: Part -> Option<T>, r: Part): Option<seq<T>> {
    if r.AStrictList? then All(f, r.items) else None
  }

  /** A part that may be missing, and the mark that it is. */
  function Maybe<T>(f: Part -> Option<T>, r: Part, klabel: string, sort: Sort): Option<Option<T>> {
    if r == AMark(klabel, sort) then Some(None)
    else
      var x :- f(r);
      Some(Some(x))
  }

  function AsMark(r: Part, sort: Sort): Option<string> {
    if r.AMark? && r.sort == sort then Some(r.klabel) else None
  }

  function AsBool(r: Part): Option<bool> {
    if r == AToken(BOOL, "true") then Some(true) else if r == AToken(BOOL, "false") then Some(false) else None
  }

  function AsInt(r: Part): Option<nat> {
    if r.AToken? && r.sort == INT && AllDigits(r.value) then Some(ValueAfter(r.value, 0)) else None
  }

  function AsString(u: Unit, r: Part): Option<Bytes> {
    if r.AToken? && r.sort == STRING then
      match StringOfValue(u.kore, r.value)
      case Text(s, rest) => if rest == "" && IsBytes(s) then Some(s) else None
      case BadText => None
    else None
  }

  function AsLoc(r: Part): Option<Loc> {
    if r.ALoc? then Some(r.loc) else None
  }

  function AsTag(r: Part): Option<TagKind> {
    if r == AMark("Struct", CLASSKEY) then Some(StructTag)
    else if r == AMark("Union", CLASSKEY) then Some(UnionTag)
    else if r == AMark("Class", CLASSKEY) then Some(ClassTag)
    else if r == AMark("Enum", TAG) then Some(EnumTag)
    else None
  }

  /** A name in no scope can also stand for the type it names. */
  function AsQual(r: Part): Option<QualType> {
    match r
    case AQual(q) => Some(q)
    case AQualifiedName(Unqualified, name) => Some(QualType(false, false, false, TagType(name)))
    case _ => None
  }

  function AsName(r: Part): Option<DeclName> {
    if r.AName? then Some(r.name) else if r.AMark? then OperatorOf(r) else None
  }

  function OperatorOf(r: Part): Option<DeclName> {
    var spelling :- AsOperator(r);
    Some(OperatorName(spelling))
  }

  /** The spelling of an operator, which its label holds in the middle. */
  function AsOperator(r: Part): Option<string> {
    var klabel :- AsMark(r, OPID);
    if |klabel| >= 19 && klabel[..8] == "operator" && klabel[|klabel| - 11..] == "_CPP-SYNTAX" then
      Some(klabel[8..|klabel| - 11])
    else None
  }

  function AsIdentifier(r: Part): Option<Bytes> {
    if r.AName? && r.name.Ident? then r.name.id else None
  }

  function AsScope(r: Part): Option<Nested> {
    match r
    case AScope(scope) => Some(scope)
    case AScopeSpec(s) => Some(Nested(Unqualified, s))
    case _ => None
  }

  function AsScopeSpec(r: Part): Option<NestedSpec> {
    if r.AScopeSpec? then Some(r.scopeSpec) else None
  }

  function AsExceptions(r: Part): Option<ExceptionSpec> {
    if r.AnExceptionSpec? then Some(r.exceptions) else None
  }

  function AsArg(r: Part): Option<TemplateArg> {
    if r.AnArg? then Some(r.arg) else None
  }

  /** A default argument leaves an empty sequence. */
  function AsExpr(r: Part): Option<Expr> {
    match r
    case AnExpr(e) => Some(e)
    case ASequence(items) => if items == [] then Some(DefaultArg) else None
    case _ => None
  }

  function AsKind(r: Part): Option<ExprKind> {
    match r
    case AKind(k) => Some(k)
    case AQualifiedName(scope, name) => Some(Lookup(scope, name))
    case _ => None
  }

  function AsCapture(r: Part): Option<Capture> {
    if r.ACapture? then Some(r.capture) else None
  }

  function AsStmt(r: Part): Option<Stmt> {
    if r.AStmt? then Some(r.stmt)
    else
      var e :- AsExpr(r);
      Some(ExprStmt(e))
  }

  /** A condition declares a variable or is an expression. */
  function AsCond(r: Part): Option<Cond> {
    if r.ADecl? then Some(CondVar(r.decl))
    else
      var e :- AsExpr(r);
      Some(CondExpr(e))
  }

  function AsDecl(r: Part): Option<Decl> {
    if r.ADecl? then Some(r.decl) else None
  }

  function AsDeclKind(r: Part): Option<DeclKind> {
    if r.ADeclKind? then Some(r.declKind) else None
  }

  function AsRecord(r: Part): Option<RecordDecl> {
    if r.ADeclKind? && r.declKind.Record? then Some(r.declKind.r) else None
  }

  function AsBase(r: Part): Option<Base> {
    if r.ABase? then Some(r.base) else None
  }

  function AsInit(r: Part): Option<CtorInit> {
    if r.AnInit? then Some(r.init) else None
  }

  function AsInstance(r: Part): Option<Instance> {
    if r.ADecl? then Some(Instance(ImplicitInstantiation, r.decl)) else None
  }

  function BuildLoc(u: Unit, node: Node, rs: seq<Part>): Option<Part>
    requires |rs| == Arity(node)
  {
    if node == KApply("UnknownCabsLoc_COMMON-SYNTAX", CABSLOC, []) then Some(ALoc(UnknownLoc))
    else if node == KApply("CabsLoc", CABSLOC, [STRING, STRING, INT, INT, BOOL]) then
      var file :- AsString(u, rs[0]);
      var absolute :- AsString(u, rs[1]);
      var line :- AsInt(rs[2]);
      var column :- AsInt(rs[3]);
      var system :- AsBool(rs[4]);
      Some(ALoc(Loc(file, absolute, line, column, system)))
    else None
  }

  function BuildList(node: Node, rs: seq<Part>): Option<Part>
    requires |rs| == Arity(node)
  {
    if node == KApply("kSeqToList", LIST, [K]) && rs[0].ASequence? then Some(AList(rs[0].items))
    else if node == KApply("list", STRICTLIST, [LIST]) && rs[0].AList? then Some(AStrictList(rs[0].items))
    else if node == KApply(".List", LIST, []) then Some(AMark(".List", LIST))
    else if node == KApply("krlist", STRICTLISTRESULT, [LIST]) && rs[0] == AMark(".List", LIST) then Some(AnEmptyResult)
    else None
  }

  // ----- Types and names -----

  function BuildType(node: Node, rs: seq<Part>): Option<Part>
    requires |rs| == Arity(node)
  {
    if node == KApply("Qualifier", ATYPE, [QUALIFIER, ATYPE]) then
      var q :- AsQual(rs[1]);
      BuildQualified(rs[0], q)
    else if node == KApply("BuiltinType", ATYPE, [TYPESPECIFIER]) then
      var specifier :- AsMark(rs[0], TYPESPECIFIER);
      Some(APlain(Builtin(specifier)))
    else if node == KApply("PointerType", ATYPE, [ATYPE]) then
      var pointee :- AsQual(rs[0]);
      Some(APlain(Pointer(pointee)))
    else if node == KApply("ArrayType", ATYPE, [ATYPE, INT]) then
      var element :- AsQual(rs[0]);
      var size :- AsInt(rs[1]);
      Some(APlain(ConstantArray(element, size)))
    else if node == KApply("ArrayTypeAExpr", ATYPE, [ATYPE, AEXPR]) then
      var element :- AsQual(rs[0]);
      var size :- Maybe(AsExpr, rs[1], "NoExpression", AEXPR);
      Some(APlain(if size.Some? then SizedArray(element, size.value) else IncompleteArray(element)))
    else if node == KApply("FunctionPrototype", ATYPE, [ATYPE, STRICTLIST, EXCEPTIONSPEC, BOOL]) then
      var ret :- AsQual(rs[0]);
      var params :- StrictlyListed(AsQual, rs[1]);
      var exceptions :- AsExceptions(rs[2]);
      var variadic :- AsBool(rs[3]);
      Some(APlain(Prototype(ret, params, exceptions, variadic)))
    else if node == KApply("TemplateParameterType", ATYPE, [CID]) then
      var name :- AsName(rs[0]);
      if name.Ident? then Some(APlain(ParamType(name.id))) else None
    else if node == KApply("TemplateSpecializationType", ATYPE, [CID, LIST]) then
      var template :- AsName(rs[0]);
      var args :- Listed(AsArg, rs[1]);
      Some(APlain(SpecializedType(template, args)))
    else if node == KApply("AutoType", ATYPE, [BOOL]) then
      var isDecltype :- AsBool(rs[0]);
      Some(APlain(Auto(None, isDecltype)))
    else BuildSignature(node, rs)
  }

  function APlain(ty: Type): Part {
    AQual(QualType(false, false, false, ty))
  }

  function BuildQualified(r: Part, q: QualType): Option<Part> {
    if r == AMark("Const", QUALIFIER) then Some(AQual(UnderConst(q)))
    else if r == AMark("Volatile", QUALIFIER) then Some(AQual(UnderVolatile(q)))
    else if r == AMark("Restrict", QUALIFIER) then Some(AQual(UnderRestrict(q)))
    else None
  }

  function BuildExceptions(node: Node, rs: seq<Part>): Option<Part>
    requires |rs| == Arity(node)
  {
    if node == KApply("NoExceptionSpec", EXCEPTIONSPEC, []) then Some(AnExceptionSpec(NoSpec))
    else if node == KApply("NoexceptSpec", EXCEPTIONSPEC, [AEXPR]) then
      var cond :- Maybe(AsExpr, rs[0], "NoExpression", AEXPR);
      Some(AnExceptionSpec(if cond.Some? then ComputedNoexcept(cond.value) else BasicNoexcept))
    else if node == KApply("ThrowSpec", EXCEPTIONSPEC, [STRICTLIST]) then
      var thrown :- StrictlyListed(AsQual, rs[0]);
      Some(AnExceptionSpec(if thrown == [] then DynamicNone else Dynamic(thrown)))
    else None
  }

  /** A name that is missing is that of a declaration in the input file, if it has a number. */
  function BuildName(u: Unit, node: Node, rs: seq<Part>): Option<Part>
    requires |rs| == Arity(node)
  {
    if node == KApply("Name", NAME, [NNS, CID]) then
      var scope :- AsScope(rs[0]);
      var name :- AsName(rs[1]);
      Some(AQualifiedName(scope, name))
    else if node == KApply("Identifier", CID, [STRING]) then
      var id :- AsString(u, rs[0]);
      Some(AName(Ident(Some(id), 0)))
    else if node == KApply("#NoName_COMMON-SYNTAX", NONAME, []) then Some(AName(Ident(None, 0)))
    else if node == KApply("unnamed", UNNAMEDCID, [INT, STRING]) && AsString(u, rs[1]) == Some(u.inFile) then
      var decl :- AsInt(rs[0]);
      if decl != 0 then Some(AName(Ident(None, decl))) else None
    else if node == KApply("TypeId", TYPEID, [ATYPE]) then
      var ty :- AsQual(rs[0]);
      Some(AName(TypeName(ty)))
    else if node == KApply("DestructorTypeId", DESTRUCTORID, [ATYPE]) then
      var ty :- AsQual(rs[0]);
      Some(AName(DestructorName(ty)))
    else None
  }

  function BuildScope(node: Node, rs: seq<Part>): Option<Part>
    requires |rs| == Arity(node)
  {
    if node == KApply("NoNNS", NNS, []) then Some(AScope(Unqualified))
    else if node == KApply("NestedName", NNS, [NNS, NNSSPECIFIER]) then
      var prefix :- AsScope(rs[0]);
      var spec :- AsScopeSpec(rs[1]);
      Some(AScope(Nested(prefix, spec)))
    else if node == KApply("NNS", NNSSPECIFIER, [CID]) then
      match AsName(rs[0])
      case Some(name) => Some(AScopeSpec(NameSpec(name)))
      case None =>
        var ty :- AsQual(rs[0]);
        Some(AScopeSpec(TypeSpec(ty)))
    else if node == KApply("TemplateNNS", NNSSPECIFIER, [CID]) then
      var ty :- AsQual(rs[0]);
      Some(AScopeSpec(TemplateTypeSpec(ty)))
    else if node == KApply("GlobalNamespace", NAMESPACE, []) then Some(AScopeSpec(GlobalSpec))
    else None
  }

  function BuildArg(node: Node, rs: seq<Part>): Option<Part>
    requires |rs| == Arity(node)
  {
    if node == KApply("TypeArg", TEMPLATEARGUMENT, [ATYPE]) then
      var ty :- AsQual(rs[0]);
      Some(AnArg(TypeArg(ty)))
    else if node == KApply("TemplateArg", TEMPLATEARGUMENT, [CID]) then
      var name :- AsName(rs[0]);
      Some(AnArg(NameArg(name)))
    else if node == KApply("ExprArg", TEMPLATEARGUMENT, [EXPR]) then
      match rs[0]
      case AKind(IntegerLit(value, ty)) => Some(AnArg(IntegralArg(value, ty)))
      case _ =>
        var e :- AsExpr(rs[0]);
        Some(AnArg(ExprArg(e)))
    else if node == KApply("PackArg", TEMPLATEARGUMENT, [LIST]) then
      var args :- Listed(AsArg, rs[0]);
      Some(AnArg(PackArg(args)))
    else None
  }

  // ----- Expressions -----

  function BuildExpr(node: Node, rs: seq<Part>): Option<Part>
    requires |rs| == Arity(node)
  {
    if node == KApply("ExprLoc", EXPRLOC, [CABSLOC, KITEM]) then
      var loc :- AsLoc(rs[0]);
      var kind :- AsKind(rs[1]);
      Some(AnExpr(Expr(loc, kind)))
    else None
  }

  function BuildKind(u: Unit, node: Node, rs: seq<Part>): Option<Part>
    requires |rs| == Arity(node)
  {
    if node == KApply("IntegerLiteral", EXPR, [INT, ATYPE]) then
      var value :- AsInt(rs[0]);
      var ty :- AsQual(rs[1]);
      Some(AKind(IntegerLit(value, ty)))
    else if node == KApply("BoolLiteral", EXPR, [BOOL]) then
      var b :- AsBool(rs[0]);
      Some(AKind(BoolLit(b)))
    else if node == KApply("NullPointerLiteral", EXPR, []) then Some(AKind(NullPtrLit))
    else if node == KApply("StringLiteral", EXPR, [CHARKIND, STRING]) then
      var charKind :- AsMark(rs[0], CHARKIND);
      var bytes :- AsString(u, rs[1]);
      Some(AKind(StringLit(charKind, bytes)))
    else if node == KApply("MemberExpr", EXPR, [BOOL, BOOL, NAME, EXPR]) && rs[2].AQualifiedName? then
      var arrow :- AsBool(rs[0]);
      var templated :- AsBool(rs[1]);
      var base :- AsExpr(rs[3]);
      Some(AKind(Member(arrow, templated, rs[2].scope, rs[2].name, base)))
    else if node == KApply("OverloadedCall", EXPR, []) then Some(AKind(OverloadedCall))
    else if node == KApply("UnaryOperator", EXPR, [OPID, EXPR]) then
      var spelling :- AsOperator(rs[0]);
      var operand :- AsExpr(rs[1]);
      Some(AKind(OneOperand(UnaryOp(spelling), operand)))
    else if node == KApply("BinaryOperator", EXPR, [OPID, EXPR, INIT]) then
      var spelling :- AsOperator(rs[0]);
      var left :- AsExpr(rs[1]);
      var right :- AsExpr(rs[2]);
      Some(AKind(TwoOperands(BinaryOp(spelling), left, right)))
    else BuildOperation(node, rs)
  }

  function BuildOperation(node: Node, rs: seq<Part>): Option<Part>
    requires |rs| == Arity(node)
  {
    if node == KApply("This", THIS, []) then Some(AKind(This))
    else if node == KApply("NoInit", INIT, []) then Some(AMark("NoInit", INIT))
    else if node == KApply("CallExpr", RESOLVEDEXPR, [EXPR, STRICTLIST, STRICTLISTRESULT]) && rs[2].AnEmptyResult? then
      var callee :- AsExpr(rs[0]);
      var args :- StrictlyListed(AsExpr, rs[1]);
      Some(AKind(Call(callee, args)))
    else if node == KApply("UnresolvedConstructorCall", EXPR, [ATYPE, LIST]) then
      BuildConstruction(UnresolvedConstruct, rs[0], rs[1])
    else if node == KApply("FunctionalCast", EXPR, [ATYPE, LIST]) then BuildConstruction(FunctionalCast, rs[0], rs[1])
    else if node == KApply("TemporaryObjectExpr", EXPR, [ATYPE, LIST]) then
      BuildConstruction(TemporaryObject, rs[0], rs[1])
    else if node == KApply("ConstructorCall", INIT, [BOOL, ATYPE, LIST]) then
      var zeroInit :- AsBool(rs[0]);
      var ty :- AsQual(rs[1]);
      var args :- Listed(AsExpr, rs[2]);
      Some(AKind(ConstructorCall(zeroInit, ty, args)))
    else if node == KApply("NewExpr", EXPR, [BOOL, ATYPE, AEXPR, INIT, LIST]) then
      var global :- AsBool(rs[0]);
      var ty :- AsQual(rs[1]);
      var count :- Maybe(AsExpr, rs[2], "NoExpression", AEXPR);
      var init :- Maybe(AsExpr, rs[3], "NoInit", INIT);
      var placement :- Listed(AsExpr, rs[4]);
      Some(AKind(New(global, ty, count, init, placement)))
    else if node == KApply("Lambda", EXPR, [CAPTUREDEFAULT, LIST, ATYPE, ASTMT]) then
      var capDefault :- AsMark(rs[0], CAPTUREDEFAULT);
      var captures :- Listed(AsCapture, rs[1]);
      var ty :- AsQual(rs[2]);
      var body :- AsStmt(rs[3]);
      Some(AKind(Lambda(capDefault, captures, |captures|, ty, body)))
    else if node == KApply("BraceInit", BRACEINIT, [LIST]) then
      var inits :- Listed(AsExpr, rs[0]);
      Some(AKind(InitList(inits)))
    else None
  }

  function BuildConstruction(form: ConstructionForm, ty: Part, args: Part): Option<Part> {
    var q :- AsQual(ty);
    var es :- Listed(AsExpr, args);
    Some(AKind(Construction(form, q, es)))
  }

  function BuildCapture(node: Node, rs: seq<Part>): Option<Part>
    requires |rs| == Arity(node)
  {
    if node == KApply("LambdaCapture", CAPTURE, [CAPTUREKIND, BOOL]) then
      var what :- AsCaptured(rs[0]);
      var pack :- AsBool(rs[1]);
      Some(ACapture(Capture(true, what, pack)))
    else if node == KApply("RefCapture", CAPTUREKIND, [DECL]) then
      var variable :- AsDecl(rs[0]);
      Some(ARefCapture(variable))
    else None
  }

  function AsCaptured(r: Part): Option<Captured> {
    match r
    case AKind(This) => Some(CaptureThis)
    case ARefCapture(variable) => Some(CaptureRef(variable))
    case ADecl(variable) => Some(CaptureCopy(variable))
    case _ => None
  }

  // ----- Statements -----

  function BuildStmt(node: Node, rs: seq<Part>): Option<Part>
    requires |rs| == Arity(node)
  {
    if node == KApply("NoStatement", ASTMT, []) then Some(AMark("NoStatement", ASTMT))
    else if node == KApply("CompoundAStmt", ASTMT, [LIST]) then
      var body :- Listed(AsStmt, rs[0]);
      Some(AStmt(Compound(body)))
    else if node == KApply("IfAStmt", ASTMT, [DECL, ASTMT, ASTMT]) then
      var cond :- AsCond(rs[0]);
      var thn :- AsStmt(rs[1]);
      var els :- Maybe(AsStmt, rs[2], "NoStatement", ASTMT);
      Some(AStmt(If(cond, thn, els)))
    else if node == KApply("ForAStmt", ASTMT, [ASTMT, AEXPR, AEXPR, ASTMT]) then
      var init :- Maybe(AsStmt, rs[0], "NoStatement", ASTMT);
      var test :- Maybe(AsExpr, rs[1], "NoExpression", AEXPR);
      var inc :- Maybe(AsExpr, rs[2], "NoExpression", AEXPR);
      var loop :- AsStmt(rs[3]);
      Some(AStmt(For(init, test, inc, loop)))
    else if node == KApply("WhileAStmt", ASTMT, [EXPR, ASTMT]) then
      var cond :- AsCond(rs[0]);
      var loop :- AsStmt(rs[1]);
      Some(AStmt(While(cond, loop)))
    else if node == KApply("SwitchAStmt", ASTMT, [DECL, ASTMT]) then
      var cond :- AsCond(rs[0]);
      var cases :- AsStmt(rs[1]);
      Some(AStmt(Switch(cond, cases)))
    else if node == KApply("CaseAStmt", ASTMT, [EXPR, ASTMT]) then
      var value :- AsExpr(rs[0]);
      var sub :- AsStmt(rs[1]);
      Some(AStmt(Case(value, sub)))
    else if node == KApply("TryAStmt", ASTMT, [ASTMT, LIST]) then
      var block :- AsStmt(rs[0]);
      var handlers :- Listed(AsStmt, rs[1]);
      Some(AStmt(Try(block, handlers)))
    else if node == KApply("CatchAStmt", ASTMT, [CATCHDECL, ASTMT]) then
      var exception :- Maybe(AsDecl, rs[0], "Ellipsis", CATCHDECL);
      var block :- AsStmt(rs[1]);
      Some(AStmt(Catch(exception, block)))
    else None
  }

  /** The statements without parts, and what closes a function that has no body. */
  function BuildEnd(node: Node, rs: seq<Part>): Option<Part>
    requires |rs| == Arity(node)
  {
    if node == KApply("TBreakStmt", STMT, []) then Some(AStmt(Break))
    else if node == KApply("ContinueStmt", STMT, []) then Some(AStmt(Continue))
    else if node == KApply("NullStmt", STMT, []) then Some(AStmt(Null))
    else if node == KApply("Defaulted", STMT, []) then Some(AnEnd(End(false, true, false, None, None)))
    else if node == KApply("Deleted", STMT, []) then Some(AnEnd(End(true, false, true, None, None)))
    else if node == KApply("Constructor", STMT, [LIST, STMT]) then
      var inits :- Listed(AsInit, rs[0]);
      var end :- AsEnd(rs[1]);
      if end.inits.None? then Some(AnEnd(end.(isDefinition := true, inits := Some(inits)))) else None
    else None
  }

  function AsEnd(r: Part): Option<End> {
    if r.AnEnd? then Some(r.end)
    else
      var body :- AsStmt(r);
      Some(End(true, false, false, None, Some(body)))
  }

  function BuildInit(node: Node, rs: seq<Part>): Option<Part>
    requires |rs| == Arity(node)
  {
    if node == KApply("ConstructorBase", CTORINIT, [ATYPE, BOOL, BOOL, INIT]) then
      var ty :- AsQual(rs[0]);
      var isVirtual :- AsBool(rs[1]);
      var pack :- AsBool(rs[2]);
      var init :- AsExpr(rs[3]);
      Some(AnInit(BaseInit(true, ty, isVirtual, pack, init)))
    else if node == KApply("ConstructorMember", CTORINIT, [CID, INIT]) then
      var name :- AsName(rs[0]);
      var init :- AsExpr(rs[1]);
      Some(AnInit(MemberInit(true, name, init)))
    else if node == KApply("ConstructorDelegating", CTORINIT, [INIT]) then
      var init :- AsExpr(rs[0]);
      Some(AnInit(DelegatingInit(true, init)))
    else None
  }

  // ----- Declarations -----

  function BuildDecl(u: Unit, node: Node, rs: seq<Part>): Option<Part>
    requires |rs| == Arity(node)
  {
    if node == KApply("DeclLoc", DECL, [CABSLOC, DECL]) then
      var loc :- AsLoc(rs[0]);
      var kind :- AsDeclKind(rs[1]);
      Some(ADecl(Decl(false, false, loc, kind)))
    else if node == KApply("Specifier", DECL, [SPECIFIER, DECL]) && rs[0].ASpecifier? then
      var inner :- AsDeclKind(rs[1]);
      var k :- Specified(rs[0].specifier, inner);
      Some(ADeclKind(k))
    else if node == KApply("TranslationUnit", DECL, [STRING, LIST]) && AsString(u, rs[0]) == Some(u.inFile) then
      var decls :- Listed(AsDecl, rs[1]);
      Some(ADeclKind(TranslationUnit(decls)))
    else if node == KApply("ClassDef", DECL, [TAG, CID, NNS, LIST, LIST, BOOL]) then
      var tag :- AsTag(rs[0]);
      var name :- AsName(rs[1]);
      var scope :- AsScope(rs[2]);
      var bases :- Listed(AsBase, rs[3]);
      var decls :- Listed(AsDecl, rs[4]);
      var anonymous :- AsBool(rs[5]);
      Some(ADeclKind(Record(RecordDecl(true, tag, name, scope, bases, decls, anonymous))))
    else if node == KApply("TypeDecl", DECL, [ATYPE]) && rs[0].AnElaborated? then
      Some(ADeclKind(Record(RecordDecl(false, rs[0].tag, rs[0].name, rs[0].scope, [], [], false))))
    else if node == KApply("AccessSpec", DECL, [ACCESSSPECIFIER]) then
      var access :- AsMark(rs[0], ACCESSSPECIFIER);
      Some(ADeclKind(AccessSpec(access)))
    else BuildTemplate(node, rs)
  }

  function BuildBase(node: Node, rs: seq<Part>): Option<Part>
    requires |rs| == Arity(node)
  {
    if node == KApply("BaseClass", BASESPECIFIER, [BOOL, BOOL, ACCESSSPECIFIER, ATYPE]) then
      var isVirtual :- AsBool(rs[0]);
      var pack :- AsBool(rs[1]);
      var access :- AsMark(rs[2], ACCESSSPECIFIER);
      var ty :- AsQual(rs[3]);
      Some(ABase(Base(isVirtual, pack, access, ty)))
    else None
  }

  function BuildEnum(node: Node, rs: seq<Part>): Option<Part>
    requires |rs| == Arity(node)
  {
    if node == KApply("Enumerator", ENUMERATOR, [CID, AEXPR]) then
      var name :- AsName(rs[0]);
      var init :- Maybe(AsExpr, rs[1], "NoExpression", AEXPR);
      Some(ADeclKind(EnumConstant(name, init)))
    else if node == KApply("OpaqueEnumDeclaration", DECL, [CID, BOOL, ATYPE]) then
      var name :- AsName(rs[0]);
      var scoped :- AsBool(rs[1]);
      var ty :- AsQual(rs[2]);
      Some(ADeclKind(OpaqueEnum(name, scoped, ty)))
    else if node == KApply("EnumDef", DECL, [CID, NNS, BOOL, BOOL, ATYPE, LIST]) then
      var name :- AsName(rs[0]);
      var scope :- AsScope(rs[1]);
      var scoped :- AsBool(rs[2]);
      var isFixed :- AsBool(rs[3]);
      var ty :- AsQual(rs[4]);
      var decls :- Listed(AsDecl, rs[5]);
      Some(ADeclKind(EnumDef(name, scope, scoped, isFixed, ty, decls)))
    else None
  }

  function BuildParam(node: Node, rs: seq<Part>): Option<Part>
    requires |rs| == Arity(node)
  {
    if node == KApply("TypeTemplateParam", TEMPLATEPARAMETER, [BOOL, BOOL, ATYPE, ATYPE]) then
      var isTypename :- AsBool(rs[0]);
      var pack :- AsBool(rs[1]);
      var declared :- Maybe(AsQual, rs[2], "NoType", ATYPERESULT);
      var default :- Maybe(AsQual, rs[3], "NoType", ATYPERESULT);
      Some(ADeclKind(TypeParam(isTypename, pack, declared, default)))
    else if node == KApply("ValueTemplateParam", TEMPLATEPARAMETER, [BOOL, NNS, CID, ATYPE, AEXPR]) then
      var pack :- AsBool(rs[0]);
      var scope :- AsScope(rs[1]);
      var name :- AsName(rs[2]);
      var ty :- AsQual(rs[3]);
      var init :- Maybe(AsExpr, rs[4], "NoExpression", AEXPR);
      Some(ADeclKind(ValueParam(pack, scope, name, ty, init)))
    else if node == KApply("TemplateTemplateParam", TEMPLATEPARAMETER, [BOOL, CID, ATYPE, LIST]) then
      var pack :- AsBool(rs[0]);
      var name :- AsName(rs[1]);
      var arg :- Maybe(AsArg, rs[2], "NoType", ATYPERESULT);
      var params :- Listed(AsDecl, rs[3]);
      Some(ADeclKind(TemplateParam(pack, name, arg, Params(params))))
    else None
  }

  function BuildTemplate(node: Node, rs: seq<Part>): Option<Part>
    requires |rs| == Arity(node)
  {
    if node == KApply("TemplateWithInstantiations", DECL, [DECL, LIST, LIST]) then
      var templated :- AsDecl(rs[0]);
      var params :- Listed(AsDecl, rs[1]);
      var instances :- Listed(AsInstance, rs[2]);
      Some(ADeclKind(Template(templated, Params(params), instances)))
    else if node == KApply("PartialSpecialization", DECL, [LIST, LIST, DECL]) then
      var params :- Listed(AsDecl, rs[0]);
      var args :- Listed(AsArg, rs[1]);
      var r :- AsRecord(rs[2]);
      Some(ADeclKind(PartialSpecialization(params, args, r)))
    else if node == KApply("TemplateSpecialization", DECL, [ATYPE, DECL]) then
      BuildSpecialized(ExplicitSpecialization, rs[0], rs[1])
    else if node == KApply("TemplateInstantiationDeclaration", DECL, [ATYPE, DECL]) then
      BuildSpecialized(InstantiationDeclaration, rs[0], rs[1])
    else if node == KApply("TemplateInstantiationDefinition", DECL, [ATYPE, DECL]) then
      BuildSpecialized(InstantiationDefinition, rs[0], rs[1])
    else BuildEnum(node, rs)
  }

  /** A function or a record that is specialized. */
  function BuildSpecialized(kind: DeclaredKind, what: Part, inner: Part): Option<Part> {
    var k :- AsDeclKind(inner);
    match k
    case Function(f) =>
      var s :- AsSpecialization(kind, what);
      if f.specialization.None? then Some(ADeclKind(Function(f.(specialization := Some(s))))) else None
    case Record(r) =>
      var declared :- Maybe(AsQual, what, "NoType", ATYPERESULT);
      Some(ADeclKind(ClassSpecialization(kind, declared, r)))
    case _ => None
  }

  function AsSpecialization(kind: SpecializationKind, r: Part): Option<FunctionSpecialization> {
    match r
    case AQual(QualType(false, false, false, SpecializedType(template, args))) =>
      Some(FunctionSpecialization(kind, template, Args(args)))
    case ATemplateName(template) => Some(FunctionSpecialization(kind, template, NoArgs))
    case _ => None
  }

  // ----- Specifiers -----

  function BuildSpecifier(node: Node, rs: seq<Part>): Option<Part>
    requires |rs| == Arity(node)
  {
    if node == KApply("Extern", STORAGECLASSSPECIFIER, []) then Some(ASpecifier(StorageSpecifier(Extern)))
    else if node == KApply("Static", STORAGECLASSSPECIFIER, []) then Some(ASpecifier(StorageSpecifier(Static)))
    else if node == KApply("Register", STORAGECLASSSPECIFIER, []) then Some(ASpecifier(StorageSpecifier(Register)))
    else if node == KApply("Auto", AUTOSPECIFIER, []) then Some(ASpecifier(StorageSpecifier(AutoStorage)))
    else if node == KApply("ThreadLocal", STORAGECLASSSPECIFIER, []) then Some(ASpecifier(ThreadLocalSpecifier))
    else if node == KApply("Mutable", STORAGECLASSSPECIFIER, []) then Some(ASpecifier(MutableSpecifier))
    else if node == KApply("Inline", FUNCTIONSPECIFIER, []) then Some(ASpecifier(InlineSpecifier))
    else if node == KApply("Constexpr", SPECIFIER, []) then Some(ASpecifier(ConstexprSpecifier))
    else if node == KApply("Alignas", SPECIFIER, [INT]) then
      var n :- AsInt(rs[0]);
      Some(ASpecifier(AlignasSpecifier(n)))
    else None
  }

  /** A declaration with one more specifier in front, where the order of specifiers allows it. */
  function Specified(s: Specifier, k: DeclKind): Option<DeclKind> {
    match k
    case Function(f) =>
      var g :- SpecifiedFunction(s, f);
      Some(Function(g))
    case Var(v) =>
      var w :- SpecifiedVar(s, v);
      Some(Var(w))
    case Field(false, width, scope, name, ty, init) =>
      if s.MutableSpecifier? then Some(Field(true, width, scope, name, ty, init)) else None
    case _ => None
  }

  /** The storage class, then inline, then constexpr. */
  function SpecifiedFunction(s: Specifier, f: FunctionDecl): Option<FunctionDecl> {
    if f.specialization.Some? || f.storage != NoStorage then None
    else
      match s
      case StorageSpecifier(storage) => Some(f.(storage := storage))
      case InlineSpecifier => if f.isInline then None else Some(f.(isInline := true))
      case ConstexprSpecifier => if f.isInline || f.isConstexpr then None else Some(f.(isConstexpr := true))
      case _ => None
  }

  /** The storage class, then thread_local, then constexpr, then the alignment, in bytes. */
  function SpecifiedVar(s: Specifier, v: VarDecl): Option<VarDecl> {
    if v.storage != NoStorage then None
    else
      match s
      case StorageSpecifier(storage) => Some(v.(storage := storage))
      case ThreadLocalSpecifier => if v.threadLocal then None else Some(v.(threadLocal := true))
      case ConstexprSpecifier => if v.threadLocal || v.isConstexpr then None else Some(v.(isConstexpr := true))
      case AlignasSpecifier(n) =>
        if v.threadLocal || v.isConstexpr || v.alignment != 0 then None
        else Some(v.(alignment := if n == 0 then 1 else 8 * n))
      case _ => None
  }

  // ----- Functions, variables and fields -----

  function BuildDeclarator(u: Unit, node: Node, rs: seq<Part>): Option<Part>
    requires |rs| == Arity(node)
  {
    if node == KApply("FunctionDefinition", DECLARATOR, [NNS, CID, CID, ATYPE, LIST, ASTMT]) then
      var end :- AsEnd(rs[5]);
      BuildFunction(rs, end)
    else if node == KApply("FunctionDecl", DECLARATOR, [NNS, CID, CID, ATYPE, LIST]) then
      BuildFunction(rs, End(false, false, false, None, None))
    else if node == KApply("VarDecl", DECLARATOR, [NNS, CID, CID, ATYPE, INIT, BOOL]) then
      var scope :- AsScope(rs[0]);
      var name :- AsName(rs[1]);
      var mangled :- AsIdentifier(rs[2]);
      var ty :- AsQual(rs[3]);
      var init :- Maybe(AsExpr, rs[4], "NoInit", INIT);
      var direct :- AsBool(rs[5]);
      Some(ADeclKind(Var(VarDecl(NoStorage, false, false, 0, scope, name, mangled, ty, init, direct))))
    else if node == KApply("FieldDecl", DECLARATOR, [NNS, CID, ATYPE, INIT]) then
      var scope :- AsScope(rs[0]);
      var name :- AsName(rs[1]);
      var ty :- AsQual(rs[2]);
      var init :- Maybe(AsExpr, rs[3], "NoInit", INIT);
      Some(ADeclKind(Field(false, None, scope, name, ty, init)))
    else if node == KApply("BitFieldDecl", DECLARATOR, [NNS, CID, ATYPE, EXPR]) then
      var scope :- AsScope(rs[0]);
      var name :- AsName(rs[1]);
      var ty :- AsQual(rs[2]);
      var width :- AsExpr(rs[3]);
      Some(ADeclKind(Field(false, Some(width), scope, name, ty, None)))
    else None
  }

  function BuildFunction(rs: seq<Part>, end: End): Option<Part>
    requires |rs| >= 5
  {
    var scope :- AsScope(rs[0]);
    var name :- AsName(rs[1]);
    var mangled :- AsIdentifier(rs[2]);
    var s :- AsSignature(rs[3]);
    var params :- Listed(AsDecl, rs[4]);
    Some(ADeclKind(Function(FunctionDecl(None, NoStorage, false, false, end.isDefinition, end.isDefaulted, end.isDeleted,
                                         scope, name, mangled, s.info, RoleOf(s, end), s.ty, params, end.body))))
  }

  /** A constructor is known by its initializers or by its type. */
  function RoleOf(s: Signature, end: End): FunctionRole {
    match end.inits
    case Some(inits) => Constructor(s.isExplicit, inits)
    case None =>
      if s.isConstructor then Constructor(s.isExplicit, [])
      else if s.isExplicit then Conversion(true)
      else Ordinary
  }

  /** What wraps the types of methods and of declared records. */
  function BuildSignature(node: Node, rs: seq<Part>): Option<Part>
    requires |rs| == Arity(node)
  {
    if node == KApply("Explicit", ATYPE, [ATYPE]) then
      var ty :- AsQual(rs[0]);
      Some(SomeMarks(Marks(false, false, true, ty)))
    else if node == KApply("Pure", ATYPE, [ATYPE]) then
      var marks :- AsMarks(rs[0]);
      if marks.isPure || marks.isVirtual then None else Some(SomeMarks(marks.(isPure := true)))
    else if node == KApply("Virtual", ATYPE, [ATYPE]) then
      var marks :- AsMarks(rs[0]);
      if marks.isVirtual then None else Some(SomeMarks(marks.(isVirtual := true)))
    else if node == KApply("MethodPrototype", ATYPE, [BOOL, BOOL, ATYPE, ATYPE]) then
      var userProvided :- AsBool(rs[0]);
      var isConstructor :- AsBool(rs[1]);
      var thisType :- AsQual(rs[2]);
      var marks :- AsMarks(rs[3]);
      Some(ASignature(Signature(InstanceMethod(NoRef, userProvided, thisType, marks.isVirtual, marks.isPure),
                                isConstructor, marks.isExplicit, marks.ty)))
    else if node == KApply("RefQualifier", ATYPE, [REFQUALIFIER, ATYPE]) then
      var ref :- AsRef(rs[0]);
      BuildRef(ref, rs[1])
    else if node == KApply("StaticMethodPrototype", ATYPE, [ATYPE]) then
      var ty :- AsQual(rs[0]);
      Some(ASignature(Signature(StaticMethod, false, false, ty)))
    else if node == KApply("TemplateSpecializationType2", ATYPE, [CID]) then
      var template :- AsName(rs[0]);
      Some(ATemplateName(template))
    else if node == KApply("ElaboratedTypeSpecifier", ATYPE, [TAG, CID, NNS]) then
      var tag :- AsTag(rs[0]);
      var name :- AsName(rs[1]);
      var scope :- AsScope(rs[2]);
      Some(AnElaborated(tag, name, scope))
    else None
  }

  function BuildRef(ref: RefQualifier, r: Part): Option<Part> {
    match r
    case ASignature(Signature(InstanceMethod(NoRef, userProvided, thisType, isVirtual, isPure), isConstructor, isExplicit, ty)) =>
      Some(ASignature(Signature(InstanceMethod(ref, userProvided, thisType, isVirtual, isPure), isConstructor, isExplicit, ty)))
    case _ => None
  }

  function AsRef(r: Part): Option<RefQualifier> {
    if r == AMark("RefLValue", REFQUALIFIER) then Some(LValueRef)
    else if r == AMark("RefRValue", REFQUALIFIER) then Some(RValueRef)
    else None
  }

  function AsMarks(r: Part): Option<Marks> {
    if r.SomeMarks? then Some(r.marks)
    else
      var ty :- AsQual(r);
      Some(Marks(false, false, false, ty))
  }

  function AsSignature(r: Part): Option<Signature> {
    if r.ASignature? then Some(r.signature)
    else
      var ty :- AsQual(r);
      Some(Signature(NotMethod, false, false, ty))
  }
}
