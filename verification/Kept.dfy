/** What the terms of the front end keep of a syntax tree. The tree is the same but for what the front
    end leaves out of the term, which is given a fixed form here. */
module Kept {
  import opened Wrappers
  import opened Ast

  // ----- Types and names -----

  /** A type that another stands for is written as that other. */
  function KeptQual(q: QualType): QualType
    decreases q, 0
  {
    var inner := KeptType(q.ty);
    var restricted := if q.isRestrict then UnderRestrict(inner) else inner;
    var volatile := if q.isVolatile then UnderVolatile(restricted) else restricted;
    if q.isConst then UnderConst(volatile) else volatile
  }

  function KeptQuals(qs: seq<QualType>): (r: seq<QualType>)
    ensures |r| == |qs|
    decreases qs, 0
  {
    seq(|qs|, i requires 0 <= i < |qs| => KeptQual(qs[i]))
  }

  function KeptMaybeQual(q: Option<QualType>): Option<QualType>
    decreases q, 0
  {
    match q
    case Some(ty) => Some(KeptQual(ty))
    case None => None
  }

  function Plain(ty: Type): QualType {
    QualType(false, false, false, ty)
  }

  function KeptType(t: Type): QualType
    decreases t, 0
  {
    match t
    case Builtin(_) => Plain(t)
    case Pointer(pointee) => Plain(Pointer(KeptQual(pointee)))
    case ConstantArray(element, size) => Plain(ConstantArray(KeptQual(element), size))
    case SizedArray(element, sizeExpr) => Plain(SizedArray(KeptQual(element), KeptExpr(sizeExpr)))
    case IncompleteArray(element) => Plain(IncompleteArray(KeptQual(element)))
    case Prototype(ret, params, exceptions, variadic) =>
      Plain(Prototype(KeptQual(ret), KeptQuals(params), KeptExceptions(exceptions), variadic))
    case TagType(name) => Plain(TagType(KeptName(name)))
    case ParamType(_) => Plain(t)
    case SpecializedType(template, args) => Plain(SpecializedType(KeptName(template), KeptArgs(args)))
    case Substituted(replacement) => KeptQual(replacement)
    case Auto(Some(deduced), _) => KeptQual(deduced)
    case Auto(None, _) => Plain(t)
  }

  function KeptExceptions(spec: ExceptionSpec): ExceptionSpec
    decreases spec, 0
  {
    match spec
    case ComputedNoexcept(cond) => ComputedNoexcept(KeptExpr(cond))
    case Dynamic(thrown) => if thrown == [] then DynamicNone else Dynamic(KeptQuals(thrown))
    case _ => spec
  }

  /** What a name stands for is written only if the name is missing. */
  function KeptName(name: DeclName): DeclName
    decreases name, 0
  {
    match name
    case Ident(Some(id), _) => Ident(Some(id), 0)
    case Ident(None, decl) => Ident(None, decl)
    case TypeName(ty) => TypeName(KeptQual(ty))
    case DestructorName(ty) => DestructorName(KeptQual(ty))
    case OperatorName(spelling) => OperatorName(spelling)
  }

  function KeptScope(scope: Nested): Nested
    decreases scope, 0
  {
    match scope
    case Unqualified => Unqualified
    case Nested(prefix, spec) => Nested(KeptScope(prefix), KeptSpec(spec))
  }

  function KeptSpec(spec: NestedSpec): NestedSpec
    decreases spec, 0
  {
    match spec
    case NameSpec(name) => NameSpec(KeptName(name))
    case TypeSpec(ty) => TypeSpec(KeptQual(ty))
    case TemplateTypeSpec(ty) => TemplateTypeSpec(KeptQual(ty))
    case GlobalSpec => GlobalSpec
  }

  function KeptArg(arg: TemplateArg): TemplateArg
    decreases arg, 0
  {
    match arg
    case TypeArg(ty) => TypeArg(KeptQual(ty))
    case NameArg(name) => NameArg(KeptName(name))
    case ExprArg(expr) => ExprArg(KeptExpr(expr))
    case IntegralArg(value, ty) => IntegralArg(value, KeptQual(ty))
    case PackArg(args) => PackArg(KeptArgs(args))
  }

  function KeptArgs(args: seq<TemplateArg>): (r: seq<TemplateArg>)
    ensures |r| == |args|
    decreases args, 0
  {
    seq(|args|, i requires 0 <= i < |args| => KeptArg(args[i]))
  }

  function KeptMaybeArg(arg: Option<TemplateArg>): Option<TemplateArg>
    decreases arg, 0
  {
    match arg
    case Some(a) => Some(KeptArg(a))
    case None => None
  }

  // ----- Expressions -----

  function KeptExpr(e: Expr): Expr
    decreases e, 0
  {
    match e
    case DefaultArg => DefaultArg
    case Expr(loc, kind) => Expr(loc, KeptKind(kind))
  }

  function KeptExprs(es: seq<Expr>): (r: seq<Expr>)
    ensures |r| == |es|
    decreases es, 0
  {
    seq(|es|, i requires 0 <= i < |es| => KeptExpr(es[i]))
  }

  function KeptMaybeExpr(e: Option<Expr>): Option<Expr>
    decreases e, 0
  {
    match e
    case Some(x) => Some(KeptExpr(x))
    case None => None
  }

  function KeptKind(e: ExprKind): ExprKind
    decreases e, 0
  {
    match e
    case IntegerLit(value, ty) => IntegerLit(value, KeptQual(ty))
    case BoolLit(_) => e
    case NullPtrLit => e
    case StringLit(_, _) => e
    case This => e
    case Lookup(scope, name) => Lookup(KeptScope(scope), KeptName(name))
    case Member(arrow, templated, scope, name, base) =>
      Member(arrow, templated, KeptScope(scope), KeptName(name), KeptExpr(base))
    case Call(callee, args) => Call(KeptExpr(callee), KeptExprs(args))
    case OverloadedCall => e
    case OneOperand(op, operand) => OneOperand(UnaryOp(Prefix(op)), KeptExpr(operand))
    case TwoOperands(op, left, right) =>
      if op.IncrementOp? then OneOperand(UnaryOp("_++"), KeptExpr(left))
      else if op.DecrementOp? then OneOperand(UnaryOp("_--"), KeptExpr(left))
      else TwoOperands(BinaryOp(Infix(op)), KeptExpr(left), KeptExpr(right))
    case Construction(form, ty, args) => Construction(form, KeptQual(ty), KeptExprs(args))
    case ConstructorCall(zeroInit, ty, args) => ConstructorCall(zeroInit, KeptQual(ty), KeptExprs(args))
    case New(global, ty, count, init, placement) =>
      New(global, KeptQual(ty), KeptMaybeExpr(count), KeptMaybeExpr(init), KeptExprs(placement))
    case Lambda(capDefault, captures, _, ty, body) =>
      var kept := KeptCaptures(captures);
      Lambda(capDefault, kept, |kept|, KeptQual(ty), KeptStmt(body))
    case InitList(inits) => InitList(KeptExprs(inits))
  }

  /** An operator before its operand. */
  function Prefix(op: OneOperator): string {
    match op
    case EitherOp(spelling) => spelling
    case UnaryOp(spelling) => spelling
    case IncrementOp => "++_"
    case DecrementOp => "--_"
  }

  /** An operator between its operands. */
  function Infix(op: TwoOperator): string
    requires !op.IncrementOp? && !op.DecrementOp?
  {
    match op
    case EitherOp(spelling) => spelling
    case BinaryOp(spelling) => spelling
  }

  /** Only the explicit captures are written. */
  function KeptCaptures(captures: seq<Capture>): seq<Capture>
    decreases captures, 0
  {
    if captures == [] then []
    else (if captures[0].isExplicit then [KeptCapture(captures[0])] else []) + KeptCaptures(captures[1..])
  }

  function KeptCapture(c: Capture): Capture
    decreases c, 0
  {
    Capture(true, KeptCaptured(c.what), c.pack)
  }

  function KeptCaptured(what: Captured): Captured
    decreases what, 0
  {
    match what
    case CaptureThis => CaptureThis
    case CaptureRef(variable) => CaptureRef(KeptDecl(variable))
    case CaptureCopy(variable) => CaptureCopy(KeptDecl(variable))
  }

  // ----- Statements -----

  function KeptStmts(ss: seq<Stmt>): (r: seq<Stmt>)
    ensures |r| == |ss|
    decreases ss, 0
  {
    seq(|ss|, i requires 0 <= i < |ss| => KeptStmt(ss[i]))
  }

  function KeptMaybeStmt(s: Option<Stmt>): Option<Stmt>
    decreases s, 0
  {
    match s
    case Some(x) => Some(KeptStmt(x))
    case None => None
  }

  function KeptCond(cond: Cond): Cond
    decreases cond, 0
  {
    match cond
    case CondVar(variable) => CondVar(KeptDecl(variable))
    case CondExpr(expr) => CondExpr(KeptExpr(expr))
  }

  function KeptStmt(s: Stmt): Stmt
    decreases s, 0
  {
    match s
    case Break => Break
    case Continue => Continue
    case Null => Null
    case ExprStmt(expr) => ExprStmt(KeptExpr(expr))
    case Compound(body) => Compound(KeptStmts(body))
    case If(cond, thn, els) => If(KeptCond(cond), KeptStmt(thn), KeptMaybeStmt(els))
    case For(init, test, inc, loop) =>
      For(KeptMaybeStmt(init), KeptMaybeExpr(test), KeptMaybeExpr(inc), KeptStmt(loop))
    case While(cond, loop) => While(KeptCond(cond), KeptStmt(loop))
    case Switch(cond, cases) => Switch(KeptCond(cond), KeptStmt(cases))
    case Case(value, sub) => Case(KeptExpr(value), KeptStmt(sub))
    case Try(block, handlers) => Try(KeptStmt(block), KeptStmts(handlers))
    case Catch(exception, block) => Catch(KeptMaybeDecl(exception), KeptStmt(block))
  }

  function KeptMaybeDecl(d: Option<Decl>): Option<Decl>
    decreases d, 0
  {
    match d
    case Some(x) => Some(KeptDecl(x))
    case None => None
  }

  // ----- Declarations -----

  /** What excludes a declaration is not written. */
  function KeptDecl(d: Decl): Decl
    decreases d, 0
  {
    Decl(false, false, d.loc, KeptDeclKind(d.kind))
  }

  /** Nor is a declaration that is excluded. */
  function KeptDecls(ds: seq<Decl>): seq<Decl>
    decreases ds, 0
  {
    if ds == [] then []
    else (if ds[0].implicit && ds[0].outsideFunction then [] else [KeptDecl(ds[0])]) + KeptDecls(ds[1..])
  }

  function KeptParams(params: ParamList): ParamList
    decreases params, 0
  {
    match params
    case NoParams => NoParams
    case Params(ds) => Params(KeptDecls(ds))
  }

  /** Instances are written if they are instantiations, of whatever kind. */
  function KeptInstances(instances: seq<Instance>): seq<Instance>
    decreases instances, 0
  {
    if instances == [] then []
    else
      (if instances[0].kind.Undeclared? || instances[0].kind.ExplicitSpecialization? then [] else [KeptInstance(instances[0])])
      + KeptInstances(instances[1..])
  }

  function KeptInstance(instance: Instance): Instance
    decreases instance, 0
  {
    Instance(ImplicitInstantiation, KeptDecl(instance.decl))
  }

  function KeptDeclKind(k: DeclKind): DeclKind
    decreases k, 0
  {
    match k
    case Function(f) => Function(KeptFunction(f))
    case Var(v) => Var(KeptVar(v))
    case Field(isMutable, width, scope, name, ty, init) =>
      Field(isMutable, KeptMaybeExpr(width), KeptScope(scope), KeptName(name), KeptQual(ty),
            if width.Some? then None else KeptMaybeExpr(init))
    case Record(r) => Record(KeptRecord(r))
    case OpaqueEnum(name, scoped, ty) => OpaqueEnum(KeptName(name), scoped, KeptQual(ty))
    case EnumDef(name, scope, scoped, isFixed, ty, decls) =>
      EnumDef(KeptName(name), KeptScope(scope), scoped, isFixed, KeptQual(ty), KeptDecls(decls))
    case EnumConstant(name, init) => EnumConstant(KeptName(name), KeptMaybeExpr(init))
    case AccessSpec(_) => k
    case Template(templated, params, instances) =>
      Template(KeptDecl(templated), KeptParams(params), KeptInstances(instances))
    case TypeParam(isTypename, pack, declared, default) =>
      TypeParam(isTypename, pack, KeptMaybeQual(declared), KeptMaybeQual(default))
    case ValueParam(pack, scope, name, ty, init) =>
      ValueParam(pack, KeptScope(scope), KeptName(name), KeptQual(ty), KeptMaybeExpr(init))
    case TemplateParam(pack, name, arg, params) =>
      TemplateParam(pack, KeptName(name), KeptMaybeArg(arg), KeptParams(params))
    case ClassSpecialization(specKind, declared, r) =>
      ClassSpecialization(KeptSpecKind(specKind), KeptMaybeQual(declared), KeptRecord(r))
    case PartialSpecialization(paramDecls, args, r) =>
      PartialSpecialization(KeptDecls(paramDecls), KeptArgs(args), KeptRecord(r))
    case TranslationUnit(decls) => TranslationUnit(KeptDecls(decls))
  }

  /** An implicit instantiation is written as an explicit one. */
  function KeptSpecKind(kind: DeclaredKind): DeclaredKind {
    if kind.ImplicitInstantiation? then InstantiationDefinition else kind
  }

  /** An alignment is written in bytes, rounded down. */
  function KeptAlignment(bits: nat): nat {
    if bits == 0 then 0 else if bits < 8 then 1 else bits - bits % 8
  }

  function KeptVar(v: VarDecl): VarDecl
    decreases v, 0
  {
    VarDecl(v.storage, v.threadLocal, v.isConstexpr, KeptAlignment(v.alignment), KeptScope(v.scope), KeptName(v.name),
            v.mangled, KeptQual(v.ty), KeptMaybeExpr(v.init), v.direct)
  }

  function KeptBases(bs: seq<Base>): (r: seq<Base>)
    ensures |r| == |bs|
    decreases bs, 0
  {
    seq(|bs|, i requires 0 <= i < |bs| => KeptBase(bs[i]))
  }

  function KeptBase(b: Base): Base
    decreases b, 0
  {
    Base(b.isVirtual, b.pack, b.access, KeptQual(b.ty))
  }

  /** Only a complete record is written with its members. */
  function KeptRecord(r: RecordDecl): RecordDecl
    decreases r, 0
  {
    RecordDecl(r.complete, r.tag, KeptName(r.name), KeptScope(r.scope),
               if r.complete then KeptBases(r.bases) else [], if r.complete then KeptDecls(r.decls) else [],
               r.complete && r.anonymous)
  }

  // ----- Functions -----

  /** A defaulted function is written as a definition only if it is a constructor, a deleted function
      that is defaulted as a defaulted one, and a body only for a definition. */
  function KeptFunction(f: FunctionDecl): FunctionDecl
    decreases f, 0
  {
    FunctionDecl(KeptMaybeSpecialization(f.specialization), f.storage, f.isInline, f.isConstexpr,
                 f.isDefinition && (f.role.Constructor? || !f.isDefaulted), f.isDefaulted, f.isDeleted && !f.isDefaulted,
                 KeptScope(f.scope), KeptName(f.name), f.mangled, KeptMethod(f.method_),
                 KeptRole(f.isDefinition, f.method_.InstanceMethod?, f.role), KeptQual(f.ty), KeptDecls(f.params),
                 if f.isDefinition then KeptMaybeStmt(f.body) else None)
  }

  function KeptMaybeSpecialization(s: Option<FunctionSpecialization>): Option<FunctionSpecialization>
    decreases s, 0
  {
    match s
    case Some(x) => if x.kind.Undeclared? || x.kind.ImplicitInstantiation? then None else Some(KeptSpecialization(x))
    case None => None
  }

  function KeptSpecialization(s: FunctionSpecialization): FunctionSpecialization
    decreases s, 0
  {
    FunctionSpecialization(s.kind, KeptName(s.template), KeptArgList(s.args))
  }

  function KeptArgList(args: ArgList): ArgList
    decreases args, 0
  {
    match args
    case NoArgs => NoArgs
    case Args(as_) => Args(KeptArgs(as_))
  }

  function KeptMethod(m: MethodInfo): MethodInfo
    decreases m, 0
  {
    match m
    case InstanceMethod(ref, userProvided, thisType, isVirtual, isPure) =>
      InstanceMethod(ref, userProvided, KeptQual(thisType), isVirtual, isPure)
    case _ => m
  }

  /** Whether a function is explicit is written only for a method of an instance, and that it is a
      constructor also for a definition, with the initializers. */
  function KeptRole(isDefinition: bool, isInstance: bool, role: FunctionRole): FunctionRole
    decreases role, 0
  {
    match role
    case Constructor(isExplicit, inits) =>
      if isDefinition then Constructor(isInstance && isExplicit, KeptInits(inits))
      else if isInstance then Constructor(isExplicit, [])
      else Ordinary
    case Conversion(isExplicit) => if isInstance && isExplicit then role else Ordinary
    case Ordinary => Ordinary
  }

  /** Only the initializers of the source text are written. */
  function KeptInits(inits: seq<CtorInit>): seq<CtorInit>
    decreases inits, 0
  {
    if inits == [] then [] else (if inits[0].written then [KeptInit(inits[0])] else []) + KeptInits(inits[1..])
  }

  function KeptInit(init: CtorInit): CtorInit
    decreases init, 0
  {
    match init
    case BaseInit(written, ty, isVirtual, pack, e) => BaseInit(written, KeptQual(ty), isVirtual, pack, KeptExpr(e))
    case MemberInit(written, name, e) => MemberInit(written, KeptName(name), KeptExpr(e))
    case DelegatingInit(written, e) => DelegatingInit(written, KeptExpr(e))
  }
}
