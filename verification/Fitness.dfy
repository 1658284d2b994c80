/** Which syntax trees the visitor turns into well-formed words, and which into well-sorted ones. */
module Fitness {
  import opened Wrappers
  import opened Ast
  import opened Trees

  // ----- The condition on syntax trees -----

  /** Each of the predicates below says of a kind of tree that its term has matching arities and, if
      `sorted`, that tokens and sequences stand only where they are asked for. What can go wrong is
      listed at the leaves: a default argument, a counted declaration that is excluded, a missing
      parameter list, explicit captures beyond the counted range, and a function that is not closed
      by exactly the statements its form has room for. */
  ghost predicate QualOk(sorted: bool, q: QualType)
    decreases q, 0
  {
    TypeOk(sorted, q.ty)
  }

  ghost predicate QualsOk(sorted: bool, qs: seq<QualType>)
    decreases qs, 0
  {
    forall i :: 0 <= i < |qs| ==> QualOk(sorted, qs[i])
  }

  ghost predicate TypeOk(sorted: bool, t: Type)
    decreases t, 0
  {
    match t
    case Builtin(_) => true
    case Pointer(pointee) => QualOk(sorted, pointee)
    case ConstantArray(element, _) => QualOk(sorted, element)
    case SizedArray(element, sizeExpr) => QualOk(sorted, element) && ExprOk(sorted, sizeExpr)
    case IncompleteArray(element) => QualOk(sorted, element)
    case Prototype(ret, params, exceptions, _) =>
      QualOk(sorted, ret) && QualsOk(sorted, params) && ExceptionsOk(sorted, exceptions)
    case TagType(name) => NameOk(sorted, name)
    case ParamType(_) => true
    case SpecializedType(template, args) => NameOk(sorted, template) && ArgsOk(sorted, args)
    case Substituted(replacement) => QualOk(sorted, replacement)
    case Auto(Some(deduced), _) => QualOk(sorted, deduced)
    case Auto(None, _) => true
  }

  ghost predicate ExceptionsOk(sorted: bool, spec: ExceptionSpec)
    decreases spec, 0
  {
    match spec
    case ComputedNoexcept(cond) => ExprOk(sorted, cond)
    case Dynamic(thrown) => QualsOk(sorted, thrown)
    case _ => true
  }

  ghost predicate NameOk(sorted: bool, name: DeclName)
    decreases name, 0
  {
    match name
    case TypeName(ty) => QualOk(sorted, ty)
    case DestructorName(ty) => QualOk(sorted, ty)
    case _ => true
  }

  ghost predicate NestedOk(sorted: bool, scope: Nested)
    decreases scope, 0
  {
    match scope
    case Unqualified => true
    case Nested(prefix, spec) => NestedOk(sorted, prefix) && NestedSpecOk(sorted, spec)
  }

  ghost predicate NestedSpecOk(sorted: bool, spec: NestedSpec)
    decreases spec, 0
  {
    match spec
    case NameSpec(name) => NameOk(sorted, name)
    case TypeSpec(ty) => QualOk(sorted, ty)
    case TemplateTypeSpec(ty) => QualOk(sorted, ty)
    case GlobalSpec => true
  }

  ghost predicate ArgOk(sorted: bool, arg: TemplateArg)
    decreases arg, 0
  {
    match arg
    case TypeArg(ty) => QualOk(sorted, ty)
    case NameArg(name) => NameOk(sorted, name)
    case ExprArg(expr) => ExprOk(sorted, expr)
    case IntegralArg(_, ty) => QualOk(sorted, ty)
    case PackArg(args) => ArgsOk(sorted, args)
  }

  ghost predicate ArgsOk(sorted: bool, args: seq<TemplateArg>)
    decreases args, 0
  {
    forall i :: 0 <= i < |args| ==> ArgOk(sorted, args[i])
  }

  ghost predicate ExprOk(sorted: bool, e: Expr)
    decreases e, 0
  {
    match e
    case DefaultArg => !sorted
    case Expr(_, kind) => KindOk(sorted, kind)
  }

  ghost predicate ExprsOk(sorted: bool, es: seq<Expr>)
    decreases es, 0
  {
    forall i :: 0 <= i < |es| ==> ExprOk(sorted, es[i])
  }

  ghost predicate MaybeExprOk(sorted: bool, e: Option<Expr>)
    decreases e, 0
  {
    match e
    case Some(x) => ExprOk(sorted, x)
    case None => true
  }

  ghost predicate KindOk(sorted: bool, e: ExprKind)
    decreases e, 0
  {
    match e
    case IntegerLit(_, ty) => QualOk(sorted, ty)
    case BoolLit(_) => true
    case NullPtrLit => true
    case StringLit(_, _) => true
    case This => true
    case Lookup(scope, name) => NestedOk(sorted, scope) && NameOk(sorted, name)
    case Member(_, _, scope, name, base) => NestedOk(sorted, scope) && NameOk(sorted, name) && ExprOk(sorted, base)
    case Call(callee, args) => ExprOk(sorted, callee) && ExprsOk(sorted, args)
    case OverloadedCall => true
    case OneOperand(_, operand) => ExprOk(sorted, operand)
    case TwoOperands(op, left, right) => ExprOk(sorted, left) && (FormOf(op, 2).BinaryForm? ==> ExprOk(sorted, right))
    case Construction(_, ty, args) => QualOk(sorted, ty) && ExprsOk(sorted, args)
    case ConstructorCall(_, ty, args) => QualOk(sorted, ty) && ExprsOk(sorted, args)
    case New(_, ty, count, init, placement) =>
      QualOk(sorted, ty) && MaybeExprOk(sorted, count) && MaybeExprOk(sorted, init) && ExprsOk(sorted, placement)
    case Lambda(_, captures, explicitEnd, ty, body) =>
      && CountExplicit(captures, explicitEnd) == CountExplicit(captures, |captures|)
      && CapturesOk(sorted, captures)
      && QualOk(sorted, ty)
      && StmtOk(sorted, body)
    case InitList(inits) => ExprsOk(sorted, inits)
  }

  ghost predicate CapturesOk(sorted: bool, captures: seq<Capture>)
    decreases captures, 0
  {
    forall i :: 0 <= i < |captures| && captures[i].isExplicit ==> CaptureOk(sorted, captures[i])
  }

  ghost predicate CaptureOk(sorted: bool, c: Capture)
    decreases c, 0
  {
    CapturedOk(sorted, c.what)
  }

  ghost predicate CapturedOk(sorted: bool, what: Captured)
    decreases what, 0
  {
    match what
    case CaptureThis => true
    case CaptureRef(variable) => PresentOk(sorted, variable)
    case CaptureCopy(variable) => PresentOk(sorted, variable)
  }

  ghost predicate StmtsOk(sorted: bool, ss: seq<Stmt>)
    decreases ss, 0
  {
    forall i :: 0 <= i < |ss| ==> StmtOk(sorted, ss[i])
  }

  ghost predicate MaybeStmtOk(sorted: bool, s: Option<Stmt>)
    decreases s, 0
  {
    match s
    case Some(x) => StmtOk(sorted, x)
    case None => true
  }

  ghost predicate CondOk(sorted: bool, cond: Cond)
    decreases cond, 0
  {
    match cond
    case CondVar(variable) => PresentOk(sorted, variable)
    case CondExpr(expr) => ExprOk(sorted, expr)
  }

  ghost predicate StmtOk(sorted: bool, s: Stmt)
    decreases s, 0
  {
    match s
    case Break => true
    case Continue => true
    case Null => true
    case ExprStmt(expr) => ExprOk(sorted, expr)
    case Compound(body) => StmtsOk(sorted, body)
    case If(cond, thn, els) => CondOk(sorted, cond) && StmtOk(sorted, thn) && MaybeStmtOk(sorted, els)
    case For(init, test, inc, loop) =>
      MaybeStmtOk(sorted, init) && MaybeExprOk(sorted, test) && MaybeExprOk(sorted, inc) && StmtOk(sorted, loop)
    case While(cond, loop) => CondOk(sorted, cond) && StmtOk(sorted, loop)
    case Switch(cond, cases) => CondOk(sorted, cond) && StmtOk(sorted, cases)
    case Case(value, sub) => ExprOk(sorted, value) && StmtOk(sorted, sub)
    case Try(block, handlers) => StmtOk(sorted, block) && StmtsOk(sorted, handlers)
    case Catch(exception, block) => CatchOk(sorted, exception) && StmtOk(sorted, block)
  }

  ghost predicate CatchOk(sorted: bool, exception: Option<Decl>)
    decreases exception, 0
  {
    match exception
    case Some(d) => PresentOk(sorted, d)
    case None => true
  }

  /** A declaration that a node counts on. */
  ghost predicate PresentOk(sorted: bool, d: Decl)
    decreases d, 1
  {
    !Excluded(d) && DeclOk(sorted, d)
  }

  ghost predicate AllPresentOk(sorted: bool, ds: seq<Decl>)
    decreases ds, 0
  {
    forall i :: 0 <= i < |ds| ==> PresentOk(sorted, ds[i])
  }

  /** A declaration of a context, which is not counted if it is excluded. */
  ghost predicate DeclOk(sorted: bool, d: Decl)
    decreases d, 0
  {
    DeclKindOk(sorted, d.kind)
  }

  ghost predicate ContextOk(sorted: bool, ds: seq<Decl>)
    decreases ds, 0
  {
    forall i :: 0 <= i < |ds| && !Excluded(ds[i]) ==> DeclOk(sorted, ds[i])
  }

  ghost predicate ParamsOk(sorted: bool, params: ParamList)
    decreases params, 0
  {
    match params
    case NoParams => false
    case Params(ds) => AllPresentOk(sorted, ds)
  }

  ghost predicate MaybeQualOk(sorted: bool, q: Option<QualType>)
    decreases q, 0
  {
    match q
    case Some(ty) => QualOk(sorted, ty)
    case None => true
  }

  ghost predicate InstancesOk(sorted: bool, instances: seq<Instance>)
    decreases instances, 0
  {
    forall i :: 0 <= i < |instances| ==> InstanceOk(sorted, instances[i])
  }

  ghost predicate InstanceOk(sorted: bool, instance: Instance)
    decreases instance, 0
  {
    IsInstantiation(instance.kind) ==> PresentOk(sorted, instance.decl)
  }

  ghost predicate DeclKindOk(sorted: bool, k: DeclKind)
    decreases k, 0
  {
    match k
    case Function(f) => FunctionOk(sorted, f)
    case Var(v) => VarOk(sorted, v)
    case Field(_, width, scope, name, ty, init) =>
      && NestedOk(sorted, scope) && NameOk(sorted, name) && QualOk(sorted, ty)
      && (if width.Some? then ExprOk(sorted, width.value) else MaybeExprOk(sorted, init))
    case Record(r) => RecordOk(sorted, r)
    case OpaqueEnum(name, _, ty) => NameOk(sorted, name) && QualOk(sorted, ty)
    case EnumDef(name, scope, _, _, ty, decls) =>
      NameOk(sorted, name) && NestedOk(sorted, scope) && QualOk(sorted, ty) && ContextOk(sorted, decls)
    case EnumConstant(name, init) => NameOk(sorted, name) && MaybeExprOk(sorted, init)
    case AccessSpec(_) => true
    case Template(templated, params, instances) =>
      PresentOk(sorted, templated) && ParamsOk(sorted, params) && InstancesOk(sorted, instances)
    case TypeParam(_, _, declared, default) => MaybeQualOk(sorted, declared) && MaybeQualOk(sorted, default)
    case ValueParam(_, scope, name, ty, init) =>
      NestedOk(sorted, scope) && NameOk(sorted, name) && QualOk(sorted, ty) && MaybeExprOk(sorted, init)
    case TemplateParam(_, name, arg, params) =>
      && NameOk(sorted, name)
      && (arg.Some? ==> ArgOk(sorted, arg.value))
      && ParamsOk(sorted, params)
    case ClassSpecialization(_, declared, r) => MaybeQualOk(sorted, declared) && RecordOk(sorted, r)
    case PartialSpecialization(paramDecls, args, r) =>
      AllPresentOk(sorted, paramDecls) && ArgsOk(sorted, args) && RecordOk(sorted, r)
    case TranslationUnit(decls) => ContextOk(sorted, decls)
  }

  ghost predicate VarOk(sorted: bool, v: VarDecl)
    decreases v, 0
  {
    NestedOk(sorted, v.scope) && NameOk(sorted, v.name) && QualOk(sorted, v.ty) && MaybeExprOk(sorted, v.init)
  }

  ghost predicate RecordOk(sorted: bool, r: RecordDecl)
    decreases r, 0
  {
    && NameOk(sorted, r.name)
    && NestedOk(sorted, r.scope)
    && (r.complete ==> BasesOk(sorted, r.bases) && ContextOk(sorted, r.decls))
  }

  ghost predicate BasesOk(sorted: bool, bs: seq<Base>)
    decreases bs, 0
  {
    forall i :: 0 <= i < |bs| ==> BaseOk(sorted, bs[i])
  }

  ghost predicate BaseOk(sorted: bool, b: Base)
    decreases b, 0
  {
    QualOk(sorted, b.ty)
  }

  /** The statements that close a function: a body that the definition has, and a mark if the
      function is defaulted or deleted. */
  function Closings(f: FunctionDecl): nat {
    (if f.isDefinition && f.body.Some? then 1 else 0) + (if f.isDefaulted || f.isDeleted then 1 else 0)
  }

  /** The definition form has room for one closing statement, the declaration form for none. */
  predicate Closed(f: FunctionDecl) {
    Closings(f) == if IsDefinitionForm(f) then 1 else 0
  }

  ghost predicate FunctionOk(sorted: bool, f: FunctionDecl)
    decreases f, 1
  {
    FunctionPartsOk(sorted, f) && Closed(f)
  }

  /** Everything in a function but how it is closed. */
  ghost predicate FunctionPartsOk(sorted: bool, f: FunctionDecl)
    decreases f, 0
  {
    && (f.specialization.Some? ==> SpecializationOk(sorted, f.specialization.value))
    && NestedOk(sorted, f.scope) && NameOk(sorted, f.name) && QualOk(sorted, f.ty)
    && MethodOk(sorted, f.method_)
    && AllPresentOk(sorted, f.params)
    && RoleOk(sorted, f.isDefinition, f.role)
    && (f.isDefinition ==> MaybeStmtOk(sorted, f.body))
  }

  ghost predicate SpecializationOk(sorted: bool, s: FunctionSpecialization)
    decreases s, 0
  {
    IsWrapped(s) ==> NameOk(sorted, s.template) && (s.args.Args? ==> ArgListOk(sorted, s.args))
  }

  ghost predicate ArgListOk(sorted: bool, args: ArgList)
    requires args.Args?
    decreases args, 0
  {
    ArgsOk(sorted, args.args)
  }

  ghost predicate MethodOk(sorted: bool, m: MethodInfo)
    decreases m, 0
  {
    m.InstanceMethod? ==> QualOk(sorted, m.thisType)
  }

  ghost predicate RoleOk(sorted: bool, isDefinition: bool, role: FunctionRole)
    decreases role, 0
  {
    isDefinition && role.Constructor? ==> InitsOk(sorted, role.inits)
  }

  ghost predicate InitsOk(sorted: bool, inits: seq<CtorInit>)
    decreases inits, 0
  {
    forall i :: 0 <= i < |inits| && inits[i].written ==> InitOk(sorted, inits[i])
  }

  ghost predicate InitOk(sorted: bool, init: CtorInit)
    decreases init, 0
  {
    match init
    case BaseInit(_, ty, _, _, e) => QualOk(sorted, ty) && ExprOk(sorted, e)
    case MemberInit(_, name, e) => NameOk(sorted, name) && ExprOk(sorted, e)
    case DelegatingInit(_, e) => ExprOk(sorted, e)
  }
}
