/** The C++ syntax trees the front end walks. A tree records what the front end asks of clang; the
    fields are independent, so it can also describe combinations that clang may never build. */
module Ast {
  import opened Wrappers
  import opened Tokens

  /** What every tree is translated under: the output language and the name of the input file. */
  datatype Unit = Unit(kore: bool, inFile: Bytes)

  datatype Loc = UnknownLoc | Loc(file: Bytes, absolute: Bytes, line: nat, column: nat, system: bool)

  // ----- Types and names -----

  datatype QualType = QualType(isConst: bool, isVolatile: bool, isRestrict: bool, ty: Type)

  /** A type with one more qualifier in front. Qualifiers are written in the order of the fields, so one
      that comes out of order, or twice, begins a type around the type. */
  function UnderConst(q: QualType): QualType {
    if q.isConst then QualType(true, false, false, Substituted(q)) else q.(isConst := true)
  }

  function UnderVolatile(q: QualType): QualType {
    if q.isConst || q.isVolatile then QualType(false, true, false, Substituted(q)) else q.(isVolatile := true)
  }

  function UnderRestrict(q: QualType): QualType {
    if q.isConst || q.isVolatile || q.isRestrict then QualType(false, false, true, Substituted(q))
    else q.(isRestrict := true)
  }

  datatype Type =
    | Builtin(specifier: string)
    | Pointer(pointee: QualType)
    | ConstantArray(element: QualType, size: nat)
    | SizedArray(element: QualType, sizeExpr: Expr)
    | IncompleteArray(element: QualType)
    | Prototype(ret: QualType, params: seq<QualType>, exceptions: ExceptionSpec, variadic: bool)
    | TagType(tagName: DeclName)
    | ParamType(id: Option<Bytes>)
    | SpecializedType(template: DeclName, args: seq<TemplateArg>)
    | Substituted(replacement: QualType)
    | Auto(deduced: Option<QualType>, isDecltype: bool)

  datatype ExceptionSpec =
    | NoSpec
    | BasicNoexcept
    | ComputedNoexcept(cond: Expr)
    | DynamicNone
    | Dynamic(thrown: seq<QualType>)

  /** An identifier may be missing; it then stands for a declaration, or for nothing if decl is 0. */
  datatype DeclName =
    | Ident(id: Option<Bytes>, decl: nat)
    | TypeName(ty: QualType)
    | DestructorName(ty: QualType)
    | OperatorName(spelling: string)

  datatype Nested = Unqualified | Nested(prefix: Nested, spec: NestedSpec)

  datatype NestedSpec =
    | NameSpec(name: DeclName)
    | TypeSpec(ty: QualType)
    | TemplateTypeSpec(ty: QualType)
    | GlobalSpec

  datatype TemplateArg =
    | TypeArg(ty: QualType)
    | NameArg(name: DeclName)
    | ExprArg(expr: Expr)
    | IntegralArg(value: nat, ty: QualType)
    | PackArg(args: seq<TemplateArg>)

  // ----- Expressions -----

  datatype Expr = DefaultArg | Expr(loc: Loc, kind: ExprKind)

  datatype ExprKind =
    | IntegerLit(value: nat, ty: QualType)
    | BoolLit(b: bool)
    | NullPtrLit
    | StringLit(charKind: string, bytes: Bytes)
    | This
    | Lookup(scope: Nested, name: DeclName)
    | Member(arrow: bool, templated: bool, scope: Nested, name: DeclName, base: Expr)
    | Call(callee: Expr, args: seq<Expr>)
    | OverloadedCall
    | OneOperand(one: OneOperator, operand: Expr)
    | TwoOperands(two: TwoOperator, left: Expr, right: Expr)
    | Construction(form: ConstructionForm, ty: QualType, args: seq<Expr>)
    | ConstructorCall(zeroInit: bool, ty: QualType, args: seq<Expr>)
    | New(global: bool, ty: QualType, count: Option<Expr>, init: Option<Expr>, placement: seq<Expr>)
    | Lambda(capDefault: string, captures: seq<Capture>, explicitEnd: nat, ty: QualType, body: Stmt)
    | InitList(inits: seq<Expr>)

  datatype ConstructionForm = UnresolvedConstruct | FunctionalCast | TemporaryObject

  /** The overloaded operators other than the call, in the groups that the front end treats alike. The
      spelling is clang's. */
  datatype Operator =
    | EitherOp(spelling: string)
    | IncrementOp
    | DecrementOp
    | BinaryOp(spelling: string)
    | UnaryOp(spelling: string)
    | OtherOp

  datatype OperatorForm = UnaryForm(spelling: string) | BinaryForm(spelling: string) | Thrown

  /** How an operator with n arguments is written. The second argument of an increment or a decrement
      only marks the postfix form. */
  function FormOf(op: Operator, n: nat): OperatorForm {
    match op
    case EitherOp(s) => if n == 2 then BinaryForm(s) else if n == 1 then UnaryForm(s) else Thrown
    case IncrementOp => if n == 2 then UnaryForm("_++") else if n == 1 then UnaryForm("++_") else Thrown
    case DecrementOp => if n == 2 then UnaryForm("_--") else if n == 1 then UnaryForm("--_") else Thrown
    case BinaryOp(s) => if n == 2 then BinaryForm(s) else Thrown
    case UnaryOp(s) => if n == 1 then UnaryForm(s) else Thrown
    case OtherOp => Thrown
  }

  /** The operators that the front end takes with one argument, and with two; it throws at any other. */
  type OneOperator = op: Operator | !FormOf(op, 1).Thrown? witness IncrementOp
  type TwoOperator = op: Operator | !FormOf(op, 2).Thrown? witness IncrementOp

  datatype Capture = Capture(isExplicit: bool, what: Captured, pack: bool)
  datatype Captured = CaptureThis | CaptureRef(variable: Decl) | CaptureCopy(variable: Decl)

  // ----- Statements -----

  datatype Stmt =
    | Break
    | Continue
    | Null
    | ExprStmt(expr: Expr)
    | Compound(body: seq<Stmt>)
    | If(cond: Cond, thn: Stmt, els: Option<Stmt>)
    | For(init: Option<Stmt>, test: Option<Expr>, inc: Option<Expr>, loop: Stmt)
    | While(cond: Cond, loop: Stmt)
    | Switch(cond: Cond, cases: Stmt)
    | Case(value: Expr, sub: Stmt)
    | Try(block: Stmt, handlers: seq<Stmt>)
    | Catch(exception: Option<Decl>, block: Stmt)

  datatype Cond = CondVar(variable: Decl) | CondExpr(expr: Expr)

  // ----- Declarations -----

  datatype Decl = Decl(implicit: bool, outsideFunction: bool, loc: Loc, kind: DeclKind)

  datatype DeclKind =
    | Function(f: FunctionDecl)
    | Var(v: VarDecl)
    | Field(isMutable: bool, width: Option<Expr>, scope: Nested, name: DeclName, ty: QualType, init: Option<Expr>)
    | Record(r: RecordDecl)
    | OpaqueEnum(name: DeclName, scoped: bool, ty: QualType)
    | EnumDef(name: DeclName, scope: Nested, scoped: bool, isFixed: bool, ty: QualType, decls: seq<Decl>)
    | EnumConstant(name: DeclName, init: Option<Expr>)
    | AccessSpec(access: string)
    | Template(templated: Decl, params: ParamList, instances: seq<Instance>)
    | TypeParam(isTypename: bool, pack: bool, declared: Option<QualType>, default: Option<QualType>)
    | ValueParam(pack: bool, scope: Nested, name: DeclName, ty: QualType, init: Option<Expr>)
    | TemplateParam(pack: bool, name: DeclName, arg: Option<TemplateArg>, params: ParamList)
    | ClassSpecialization(specKind: DeclaredKind, declared: Option<QualType>, r: RecordDecl)
    | PartialSpecialization(paramDecls: seq<Decl>, args: seq<TemplateArg>, r: RecordDecl)
    | TranslationUnit(decls: seq<Decl>)

  datatype SpecializationKind =
    | Undeclared
    | ImplicitInstantiation
    | ExplicitSpecialization
    | InstantiationDeclaration
    | InstantiationDefinition

  /** The kinds that a class specialization may have; the front end throws at the other. */
  type DeclaredKind = k: SpecializationKind | !k.Undeclared? witness ImplicitInstantiation

  /** A list that clang may not have at all. */
  datatype ParamList = NoParams | Params(decls: seq<Decl>)
  datatype ArgList = NoArgs | Args(args: seq<TemplateArg>)

  datatype Instance = Instance(kind: SpecializationKind, decl: Decl)

  datatype StorageClass = NoStorage | Extern | Static | Register | AutoStorage

  datatype VarDecl = VarDecl(
    storage: StorageClass, threadLocal: bool, isConstexpr: bool, alignment: nat,
    scope: Nested, name: DeclName, mangled: Bytes, ty: QualType, init: Option<Expr>, direct: bool)

  datatype Base = Base(isVirtual: bool, pack: bool, access: string, ty: QualType)

  datatype RecordDecl = RecordDecl(
    complete: bool, tag: TagKind, name: DeclName, scope: Nested, bases: seq<Base>, decls: seq<Decl>, anonymous: bool)

  datatype TagKind = StructTag | UnionTag | ClassTag | EnumTag

  datatype FunctionDecl = FunctionDecl(
    specialization: Option<FunctionSpecialization>,
    storage: StorageClass, isInline: bool, isConstexpr: bool,
    isDefinition: bool, isDefaulted: bool, isDeleted: bool,
    scope: Nested, name: DeclName, mangled: Bytes,
    method_: MethodInfo, role: FunctionRole, ty: QualType, params: seq<Decl>, body: Option<Stmt>)

  datatype FunctionSpecialization =
    FunctionSpecialization(kind: SpecializationKind, template: DeclName, args: ArgList)

  datatype MethodInfo =
    | NotMethod
    | StaticMethod
    | InstanceMethod(ref: RefQualifier, userProvided: bool, thisType: QualType, isVirtual: bool, isPure: bool)

  datatype RefQualifier = NoRef | LValueRef | RValueRef

  datatype FunctionRole =
    | Ordinary
    | Conversion(isExplicit: bool)
    | Constructor(isExplicit: bool, inits: seq<CtorInit>)

  datatype CtorInit =
    | BaseInit(written: bool, ty: QualType, isVirtual: bool, pack: bool, init: Expr)
    | MemberInit(written: bool, name: DeclName, init: Expr)
    | DelegatingInit(written: bool, init: Expr)

  /** excludedDecl. */
  predicate Excluded(d: Decl) {
    d.implicit && d.outsideFunction
  }

  predicate IsInstantiation(kind: SpecializationKind) {
    kind.ImplicitInstantiation? || kind.InstantiationDeclaration? || kind.InstantiationDefinition?
  }
}
