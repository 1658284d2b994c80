/** The syntax trees that lose nothing: those without any of the parts that the front end leaves out of
    their terms. */
module Whole {
  import opened Wrappers
  import opened Ast
  import opened Kept

  // ----- What is left out -----

  /** Each of the predicates below says of a kind of tree that it has no such part. */
  ghost predicate WholeQual(q: QualType)
    decreases q, 0
  {
    WholeType(q.ty)
  }

  ghost predicate WholeQuals(qs: seq<QualType>)
    decreases qs, 0
  {
    forall i :: 0 <= i < |qs| ==> WholeQual(qs[i])
  }

  ghost predicate WholeMaybeQual(q: Option<QualType>)
    decreases q, 0
  {
    match q
    case Some(ty) => WholeQual(ty)
    case None => true
  }

  ghost predicate WholeType(t: Type)
    decreases t, 0
  {
    match t
    case Builtin(_) => true
    case Pointer(pointee) => WholeQual(pointee)
    case ConstantArray(element, _) => WholeQual(element)
    case SizedArray(element, sizeExpr) => WholeQual(element) && WholeExpr(sizeExpr)
    case IncompleteArray(element) => WholeQual(element)
    case Prototype(ret, params, exceptions, _) => WholeQual(ret) && WholeQuals(params) && WholeExceptions(exceptions)
    case TagType(name) => WholeName(name)
    case ParamType(_) => true
    case SpecializedType(template, args) => WholeName(template) && WholeArgs(args)
    case Substituted(_) => false
    case Auto(deduced, _) => deduced.None?
  }

  ghost predicate WholeExceptions(spec: ExceptionSpec)
    decreases spec, 0
  {
    match spec
    case ComputedNoexcept(cond) => WholeExpr(cond)
    case Dynamic(thrown) => thrown != [] && WholeQuals(thrown)
    case _ => true
  }

  ghost predicate WholeName(name: DeclName)
    decreases name, 0
  {
    match name
    case Ident(id, decl) => id.Some? ==> decl == 0
    case TypeName(ty) => WholeQual(ty)
    case DestructorName(ty) => WholeQual(ty)
    case OperatorName(_) => true
  }

  ghost predicate WholeScope(scope: Nested)
    decreases scope, 0
  {
    match scope
    case Unqualified => true
    case Nested(prefix, spec) => WholeScope(prefix) && WholeSpec(spec)
  }

  ghost predicate WholeSpec(spec: NestedSpec)
    decreases spec, 0
  {
    match spec
    case NameSpec(name) => WholeName(name)
    case TypeSpec(ty) => WholeQual(ty)
    case TemplateTypeSpec(ty) => WholeQual(ty)
    case GlobalSpec => true
  }

  ghost predicate WholeArg(arg: TemplateArg)
    decreases arg, 0
  {
    match arg
    case TypeArg(ty) => WholeQual(ty)
    case NameArg(name) => WholeName(name)
    case ExprArg(expr) => WholeExpr(expr)
    case IntegralArg(_, ty) => WholeQual(ty)
    case PackArg(args) => WholeArgs(args)
  }

  ghost predicate WholeArgs(args: seq<TemplateArg>)
    decreases args, 0
  {
    forall i :: 0 <= i < |args| ==> WholeArg(args[i])
  }

  ghost predicate WholeMaybeArg(arg: Option<TemplateArg>)
    decreases arg, 0
  {
    match arg
    case Some(a) => WholeArg(a)
    case None => true
  }

  ghost predicate WholeExpr(e: Expr)
    decreases e, 0
  {
    match e
    case DefaultArg => true
    case Expr(_, kind) => WholeKind(kind)
  }

  ghost predicate WholeExprs(es: seq<Expr>)
    decreases es, 0
  {
    forall i :: 0 <= i < |es| ==> WholeExpr(es[i])
  }

  ghost predicate WholeMaybeExpr(e: Option<Expr>)
    decreases e, 0
  {
    match e
    case Some(x) => WholeExpr(x)
    case None => true
  }

  /** Operators are told apart only by their spelling and by the number of operands that are written. */
  ghost predicate WholeKind(e: ExprKind)
    decreases e, 0
  {
    match e
    case IntegerLit(_, ty) => WholeQual(ty)
    case BoolLit(_) => true
    case NullPtrLit => true
    case StringLit(_, _) => true
    case This => true
    case Lookup(scope, name) => WholeScope(scope) && WholeName(name)
    case Member(_, _, scope, name, base) => WholeScope(scope) && WholeName(name) && WholeExpr(base)
    case Call(callee, args) => WholeExpr(callee) && WholeExprs(args)
    case OverloadedCall => true
    case OneOperand(op, operand) => op.UnaryOp? && WholeExpr(operand)
    case TwoOperands(op, left, right) => op.BinaryOp? && WholeExpr(left) && WholeExpr(right)
    case Construction(_, ty, args) => WholeQual(ty) && WholeExprs(args)
    case ConstructorCall(_, ty, args) => WholeQual(ty) && WholeExprs(args)
    case New(_, ty, count, init, placement) =>
      WholeQual(ty) && WholeMaybeExpr(count) && WholeMaybeExpr(init) && WholeExprs(placement)
    case Lambda(_, captures, explicitEnd, ty, body) =>
      explicitEnd == |captures| && WholeCaptures(captures) && WholeQual(ty) && WholeStmt(body)
    case InitList(inits) => WholeExprs(inits)
  }

  ghost predicate WholeCaptures(captures: seq<Capture>)
    decreases captures, 0
  {
    forall i :: 0 <= i < |captures| ==> WholeCapture(captures[i])
  }

  ghost predicate WholeCapture(c: Capture)
    decreases c, 0
  {
    c.isExplicit && WholeCaptured(c.what)
  }

  ghost predicate WholeCaptured(what: Captured)
    decreases what, 0
  {
    match what
    case CaptureThis => true
    case CaptureRef(variable) => WholeDecl(variable)
    case CaptureCopy(variable) => WholeDecl(variable)
  }

  ghost predicate WholeStmts(ss: seq<Stmt>)
    decreases ss, 0
  {
    forall i :: 0 <= i < |ss| ==> WholeStmt(ss[i])
  }

  ghost predicate WholeMaybeStmt(s: Option<Stmt>)
    decreases s, 0
  {
    match s
    case Some(x) => WholeStmt(x)
    case None => true
  }

  ghost predicate WholeCond(cond: Cond)
    decreases cond, 0
  {
    match cond
    case CondVar(variable) => WholeDecl(variable)
    case CondExpr(expr) => WholeExpr(expr)
  }

  ghost predicate WholeStmt(s: Stmt)
    decreases s, 0
  {
    match s
    case Break => true
    case Continue => true
    case Null => true
    case ExprStmt(expr) => WholeExpr(expr)
    case Compound(body) => WholeStmts(body)
    case If(cond, thn, els) => WholeCond(cond) && WholeStmt(thn) && WholeMaybeStmt(els)
    case For(init, test, inc, loop) =>
      WholeMaybeStmt(init) && WholeMaybeExpr(test) && WholeMaybeExpr(inc) && WholeStmt(loop)
    case While(cond, loop) => WholeCond(cond) && WholeStmt(loop)
    case Switch(cond, cases) => WholeCond(cond) && WholeStmt(cases)
    case Case(value, sub) => WholeExpr(value) && WholeStmt(sub)
    case Try(block, handlers) => WholeStmt(block) && WholeStmts(handlers)
    case Catch(exception, block) => WholeMaybeDecl(exception) && WholeStmt(block)
  }

  ghost predicate WholeMaybeDecl(d: Option<Decl>)
    decreases d, 0
  {
    match d
    case Some(x) => WholeDecl(x)
    case None => true
  }

  ghost predicate WholeDecl(d: Decl)
    decreases d, 0
  {
    !d.implicit && !d.outsideFunction && WholeDeclKind(d.kind)
  }

  ghost predicate WholeDecls(ds: seq<Decl>)
    decreases ds, 0
  {
    forall i :: 0 <= i < |ds| ==> WholeDecl(ds[i])
  }

  ghost predicate WholeParams(params: ParamList)
    decreases params, 0
  {
    match params
    case NoParams => true
    case Params(ds) => WholeDecls(ds)
  }

  ghost predicate WholeInstances(instances: seq<Instance>)
    decreases instances, 0
  {
    forall i :: 0 <= i < |instances| ==> WholeInstance(instances[i])
  }

  ghost predicate WholeInstance(instance: Instance)
    decreases instance, 0
  {
    instance.kind.ImplicitInstantiation? && WholeDecl(instance.decl)
  }

  ghost predicate WholeDeclKind(k: DeclKind)
    decreases k, 0
  {
    match k
    case Function(f) => WholeFunction(f)
    case Var(v) => WholeVar(v)
    case Field(_, width, scope, name, ty, init) =>
      && WholeMaybeExpr(width) && WholeScope(scope) && WholeName(name) && WholeQual(ty) && WholeMaybeExpr(init)
      && (width.Some? ==> init.None?)
    case Record(r) => WholeRecord(r)
    case OpaqueEnum(name, _, ty) => WholeName(name) && WholeQual(ty)
    case EnumDef(name, scope, _, _, ty, decls) => WholeName(name) && WholeScope(scope) && WholeQual(ty) && WholeDecls(decls)
    case EnumConstant(name, init) => WholeName(name) && WholeMaybeExpr(init)
    case AccessSpec(_) => true
    case Template(templated, params, instances) => WholeDecl(templated) && WholeParams(params) && WholeInstances(instances)
    case TypeParam(_, _, declared, default) => WholeMaybeQual(declared) && WholeMaybeQual(default)
    case ValueParam(_, scope, name, ty, init) => WholeScope(scope) && WholeName(name) && WholeQual(ty) && WholeMaybeExpr(init)
    case TemplateParam(_, name, arg, params) => WholeName(name) && WholeMaybeArg(arg) && WholeParams(params)
    case ClassSpecialization(specKind, declared, r) =>
      !specKind.ImplicitInstantiation? && WholeMaybeQual(declared) && WholeRecord(r)
    case PartialSpecialization(paramDecls, args, r) => WholeDecls(paramDecls) && WholeArgs(args) && WholeRecord(r)
    case TranslationUnit(decls) => WholeDecls(decls)
  }

  ghost predicate WholeVar(v: VarDecl)
    decreases v, 0
  {
    v.alignment % 8 == 0 && WholeScope(v.scope) && WholeName(v.name) && WholeQual(v.ty) && WholeMaybeExpr(v.init)
  }

  ghost predicate WholeBases(bs: seq<Base>)
    decreases bs, 0
  {
    forall i :: 0 <= i < |bs| ==> WholeBase(bs[i])
  }

  ghost predicate WholeBase(b: Base)
    decreases b, 0
  {
    WholeQual(b.ty)
  }

  ghost predicate WholeRecord(r: RecordDecl)
    decreases r, 0
  {
    && WholeName(r.name) && WholeScope(r.scope) && WholeBases(r.bases) && WholeDecls(r.decls)
    && (r.complete || (r.bases == [] && r.decls == [] && !r.anonymous))
  }

  ghost predicate WholeFunction(f: FunctionDecl)
    decreases f, 0
  {
    && WholeMaybeSpecialization(f.specialization)
    && WholeScope(f.scope) && WholeName(f.name) && WholeMethod(f.method_)
    && WholeRole(f.isDefinition, f.method_.InstanceMethod?, f.role)
    && WholeQual(f.ty) && WholeDecls(f.params) && WholeMaybeStmt(f.body)
    && (f.isDefaulted ==> !f.isDeleted && (f.isDefinition ==> f.role.Constructor?))
    && (f.body.Some? ==> f.isDefinition)
  }

  ghost predicate WholeMaybeSpecialization(s: Option<FunctionSpecialization>)
    decreases s, 0
  {
    match s
    case Some(x) => WholeSpecialization(x)
    case None => true
  }

  ghost predicate WholeSpecialization(s: FunctionSpecialization)
    decreases s, 0
  {
    !s.kind.Undeclared? && !s.kind.ImplicitInstantiation? && WholeName(s.template) && WholeArgList(s.args)
  }

  ghost predicate WholeArgList(args: ArgList)
    decreases args, 0
  {
    match args
    case NoArgs => true
    case Args(as_) => WholeArgs(as_)
  }

  ghost predicate WholeMethod(m: MethodInfo)
    decreases m, 0
  {
    match m
    case InstanceMethod(_, _, thisType, _, _) => WholeQual(thisType)
    case _ => true
  }

  ghost predicate WholeRole(isDefinition: bool, isInstance: bool, role: FunctionRole)
    decreases role, 0
  {
    match role
    case Ordinary => true
    case Conversion(isExplicit) => isInstance && isExplicit
    case Constructor(isExplicit, inits) =>
      && WholeInits(inits)
      && (isExplicit ==> isInstance)
      && (isDefinition || (isInstance && inits == []))
  }

  ghost predicate WholeInits(inits: seq<CtorInit>)
    decreases inits, 0
  {
    forall i :: 0 <= i < |inits| ==> WholeInit(inits[i])
  }

  ghost predicate WholeInit(init: CtorInit)
    decreases init, 0
  {
    match init
    case BaseInit(written, ty, _, _, e) => written && WholeQual(ty) && WholeExpr(e)
    case MemberInit(written, name, e) => written && WholeName(name) && WholeExpr(e)
    case DelegatingInit(written, e) => written && WholeExpr(e)
  }

  // ----- A whole tree is kept as it is -----

  lemma {:induction false} QualStays(q: QualType)
    requires WholeQual(q)
    ensures KeptQual(q) == q
    decreases q, 0
  {
    PlainTypeStays(q.ty);
  }

  lemma {:induction false} QualsStay(qs: seq<QualType>)
    requires WholeQuals(qs)
    ensures KeptQuals(qs) == qs
    decreases qs, 0
  {
    forall i | 0 <= i < |qs| ensures KeptQuals(qs)[i] == qs[i] {
      QualStays(qs[i]);
    }
  }

  lemma {:induction false} MaybeQualStays(q: Option<QualType>)
    requires WholeMaybeQual(q)
    ensures KeptMaybeQual(q) == q
    decreases q, 0
  {
    if q.Some? {
      QualStays(q.value);
    }
  }

  lemma {:induction false} PlainTypeStays(t: Type)
    requires WholeType(t)
    ensures KeptType(t) == Plain(t)
    decreases t, 0
  {
    match t
    case Pointer(pointee) => QualStays(pointee);
    case ConstantArray(element, _) => QualStays(element);
    case SizedArray(element, sizeExpr) =>
      QualStays(element);
      ExprStays(sizeExpr);
    case IncompleteArray(element) => QualStays(element);
    case Prototype(ret, params, exceptions, _) =>
      QualStays(ret);
      QualsStay(params);
      ExceptionsStay(exceptions);
    case TagType(name) => NameStays(name);
    case SpecializedType(template, args) =>
      NameStays(template);
      ArgsStay(args);
    case _ =>
  }

  lemma {:induction false} ExceptionsStay(spec: ExceptionSpec)
    requires WholeExceptions(spec)
    ensures KeptExceptions(spec) == spec
    decreases spec, 0
  {
    match spec
    case ComputedNoexcept(cond) => ExprStays(cond);
    case Dynamic(thrown) => QualsStay(thrown);
    case _ =>
  }

  lemma {:induction false} NameStays(name: DeclName)
    requires WholeName(name)
    ensures KeptName(name) == name
    decreases name, 0
  {
    match name
    case TypeName(ty) => QualStays(ty);
    case DestructorName(ty) => QualStays(ty);
    case _ =>
  }

  lemma {:induction false} ScopeStays(scope: Nested)
    requires WholeScope(scope)
    ensures KeptScope(scope) == scope
    decreases scope, 0
  {
    if scope.Nested? {
      ScopeStays(scope.prefix);
      SpecStays(scope.spec);
    }
  }

  lemma {:induction false} SpecStays(spec: NestedSpec)
    requires WholeSpec(spec)
    ensures KeptSpec(spec) == spec
    decreases spec, 0
  {
    match spec
    case NameSpec(name) => NameStays(name);
    case TypeSpec(ty) => QualStays(ty);
    case TemplateTypeSpec(ty) => QualStays(ty);
    case GlobalSpec =>
  }

  lemma {:induction false} ArgStays(arg: TemplateArg)
    requires WholeArg(arg)
    ensures KeptArg(arg) == arg
    decreases arg, 0
  {
    match arg
    case TypeArg(ty) => QualStays(ty);
    case NameArg(name) => NameStays(name);
    case ExprArg(expr) => ExprStays(expr);
    case IntegralArg(_, ty) => QualStays(ty);
    case PackArg(args) => ArgsStay(args);
  }

  lemma {:induction false} ArgsStay(args: seq<TemplateArg>)
    requires WholeArgs(args)
    ensures KeptArgs(args) == args
    decreases args, 0
  {
    forall i | 0 <= i < |args| ensures KeptArgs(args)[i] == args[i] {
      ArgStays(args[i]);
    }
  }

  lemma {:induction false} MaybeArgStays(arg: Option<TemplateArg>)
    requires WholeMaybeArg(arg)
    ensures KeptMaybeArg(arg) == arg
    decreases arg, 0
  {
    if arg.Some? {
      ArgStays(arg.value);
    }
  }

  lemma {:induction false} ExprStays(e: Expr)
    requires WholeExpr(e)
    ensures KeptExpr(e) == e
    decreases e, 0
  {
    if e.Expr? {
      KindStays(e.kind);
    }
  }

  lemma {:induction false} ExprsStay(es: seq<Expr>)
    requires WholeExprs(es)
    ensures KeptExprs(es) == es
    decreases es, 0
  {
    forall i | 0 <= i < |es| ensures KeptExprs(es)[i] == es[i] {
      ExprStays(es[i]);
    }
  }

  lemma {:induction false} MaybeExprStays(e: Option<Expr>)
    requires WholeMaybeExpr(e)
    ensures KeptMaybeExpr(e) == e
    decreases e, 0
  {
    if e.Some? {
      ExprStays(e.value);
    }
  }

  lemma {:induction false} KindStays(e: ExprKind)
    requires WholeKind(e)
    ensures KeptKind(e) == e
    decreases e, 0
  {
    match e
    case IntegerLit(_, ty) => QualStays(ty);
    case Lookup(scope, name) =>
      ScopeStays(scope);
      NameStays(name);
    case Member(_, _, scope, name, base) =>
      ScopeStays(scope);
      NameStays(name);
      ExprStays(base);
    case Call(callee, args) =>
      ExprStays(callee);
      ExprsStay(args);
    case OneOperand(_, operand) => ExprStays(operand);
    case TwoOperands(_, left, right) =>
      ExprStays(left);
      ExprStays(right);
    case Construction(_, ty, args) =>
      QualStays(ty);
      ExprsStay(args);
    case ConstructorCall(_, ty, args) =>
      QualStays(ty);
      ExprsStay(args);
    case New(_, ty, count, init, placement) =>
      QualStays(ty);
      MaybeExprStays(count);
      MaybeExprStays(init);
      ExprsStay(placement);
    case Lambda(_, captures, _, ty, body) =>
      CapturesStay(captures);
      QualStays(ty);
      StmtStays(body);
    case InitList(inits) => ExprsStay(inits);
    case _ =>
  }

  lemma {:induction false} CapturesStay(captures: seq<Capture>)
    requires WholeCaptures(captures)
    ensures KeptCaptures(captures) == captures
    decreases captures, 0
  {
    if captures != [] {
      CaptureStays(captures[0]);
      CapturesStay(captures[1..]);
      assert captures == [captures[0]] + captures[1..];
    }
  }

  lemma {:induction false} CaptureStays(c: Capture)
    requires WholeCapture(c)
    ensures KeptCapture(c) == c
    decreases c, 0
  {
    CapturedStays(c.what);
  }

  lemma {:induction false} CapturedStays(what: Captured)
    requires WholeCaptured(what)
    ensures KeptCaptured(what) == what
    decreases what, 0
  {
    match what
    case CaptureThis =>
    case CaptureRef(variable) => DeclStays(variable);
    case CaptureCopy(variable) => DeclStays(variable);
  }

  lemma {:induction false} StmtsStay(ss: seq<Stmt>)
    requires WholeStmts(ss)
    ensures KeptStmts(ss) == ss
    decreases ss, 0
  {
    forall i | 0 <= i < |ss| ensures KeptStmts(ss)[i] == ss[i] {
      StmtStays(ss[i]);
    }
  }

  lemma {:induction false} MaybeStmtStays(s: Option<Stmt>)
    requires WholeMaybeStmt(s)
    ensures KeptMaybeStmt(s) == s
    decreases s, 0
  {
    if s.Some? {
      StmtStays(s.value);
    }
  }

  lemma {:induction false} CondStays(cond: Cond)
    requires WholeCond(cond)
    ensures KeptCond(cond) == cond
    decreases cond, 0
  {
    match cond
    case CondVar(variable) => DeclStays(variable);
    case CondExpr(expr) => ExprStays(expr);
  }

  lemma {:induction false} StmtStays(s: Stmt)
    requires WholeStmt(s)
    ensures KeptStmt(s) == s
    decreases s, 0
  {
    match s
    case ExprStmt(expr) => ExprStays(expr);
    case Compound(body) => StmtsStay(body);
    case If(cond, thn, els) =>
      CondStays(cond);
      StmtStays(thn);
      MaybeStmtStays(els);
    case For(init, test, inc, loop) =>
      MaybeStmtStays(init);
      MaybeExprStays(test);
      MaybeExprStays(inc);
      StmtStays(loop);
    case While(cond, loop) =>
      CondStays(cond);
      StmtStays(loop);
    case Switch(cond, cases) =>
      CondStays(cond);
      StmtStays(cases);
    case Case(value, sub) =>
      ExprStays(value);
      StmtStays(sub);
    case Try(block, handlers) =>
      StmtStays(block);
      StmtsStay(handlers);
    case Catch(exception, block) =>
      MaybeDeclStays(exception);
      StmtStays(block);
    case _ =>
  }

  lemma {:induction false} MaybeDeclStays(d: Option<Decl>)
    requires WholeMaybeDecl(d)
    ensures KeptMaybeDecl(d) == d
    decreases d, 0
  {
    if d.Some? {
      DeclStays(d.value);
    }
  }

  lemma {:induction false} DeclStays(d: Decl)
    requires WholeDecl(d)
    ensures KeptDecl(d) == d
    decreases d, 0
  {
    DeclKindStays(d.kind);
  }

  lemma {:induction false} DeclsStay(ds: seq<Decl>)
    requires WholeDecls(ds)
    ensures KeptDecls(ds) == ds
    decreases ds, 0
  {
    if ds != [] {
      DeclStays(ds[0]);
      DeclsStay(ds[1..]);
      assert ds == [ds[0]] + ds[1..];
    }
  }

  lemma {:induction false} ParamsStay(params: ParamList)
    requires WholeParams(params)
    ensures KeptParams(params) == params
    decreases params, 0
  {
    if params.Params? {
      DeclsStay(params.decls);
    }
  }

  lemma {:induction false} InstancesStay(instances: seq<Instance>)
    requires WholeInstances(instances)
    ensures KeptInstances(instances) == instances
    decreases instances, 0
  {
    if instances != [] {
      InstanceStays(instances[0]);
      InstancesStay(instances[1..]);
      assert instances == [instances[0]] + instances[1..];
    }
  }

  lemma {:induction false} InstanceStays(instance: Instance)
    requires WholeInstance(instance)
    ensures KeptInstance(instance) == instance
    decreases instance, 0
  {
    DeclStays(instance.decl);
  }

  lemma {:induction false} DeclKindStays(k: DeclKind)
    requires WholeDeclKind(k)
    ensures KeptDeclKind(k) == k
    decreases k, 1
  {
    match k
    case Function(f) => FunctionStays(f);
    case Var(v) => VarStays(v);
    case Field(_, width, scope, name, ty, init) =>
      MaybeExprStays(width);
      ScopeStays(scope);
      NameStays(name);
      QualStays(ty);
      MaybeExprStays(init);
    case Record(r) => RecordStays(r);
    case OpaqueEnum(name, _, ty) =>
      NameStays(name);
      QualStays(ty);
    case EnumDef(name, scope, _, _, ty, decls) =>
      NameStays(name);
      ScopeStays(scope);
      QualStays(ty);
      DeclsStay(decls);
    case EnumConstant(name, init) =>
      NameStays(name);
      MaybeExprStays(init);
    case AccessSpec(_) =>
    case TranslationUnit(decls) => DeclsStay(decls);
    case _ => TemplateStays(k);
  }

  lemma {:induction false} TemplateStays(k: DeclKind)
    requires WholeDeclKind(k)
    requires k.Template? || k.TypeParam? || k.ValueParam? || k.TemplateParam? || k.ClassSpecialization? || k.PartialSpecialization?
    ensures KeptDeclKind(k) == k
    decreases k, 0
  {
    match k
    case Template(templated, params, instances) =>
      DeclStays(templated);
      ParamsStay(params);
      InstancesStay(instances);
    case TypeParam(_, _, declared, default) =>
      MaybeQualStays(declared);
      MaybeQualStays(default);
    case ValueParam(_, scope, name, ty, init) =>
      ScopeStays(scope);
      NameStays(name);
      QualStays(ty);
      MaybeExprStays(init);
    case TemplateParam(_, name, arg, params) =>
      NameStays(name);
      MaybeArgStays(arg);
      ParamsStay(params);
    case ClassSpecialization(_, declared, r) =>
      MaybeQualStays(declared);
      RecordStays(r);
    case PartialSpecialization(paramDecls, args, r) =>
      DeclsStay(paramDecls);
      ArgsStay(args);
      RecordStays(r);
  }

  lemma {:induction false} VarStays(v: VarDecl)
    requires WholeVar(v)
    ensures KeptVar(v) == v
    decreases v, 0
  {
    ScopeStays(v.scope);
    NameStays(v.name);
    QualStays(v.ty);
    MaybeExprStays(v.init);
  }

  lemma {:induction false} BasesStay(bs: seq<Base>)
    requires WholeBases(bs)
    ensures KeptBases(bs) == bs
    decreases bs, 0
  {
    forall i | 0 <= i < |bs| ensures KeptBases(bs)[i] == bs[i] {
      BaseStays(bs[i]);
    }
  }

  lemma {:induction false} BaseStays(b: Base)
    requires WholeBase(b)
    ensures KeptBase(b) == b
    decreases b, 0
  {
    QualStays(b.ty);
  }

  lemma {:induction false} RecordStays(r: RecordDecl)
    requires WholeRecord(r)
    ensures KeptRecord(r) == r
    decreases r, 0
  {
    NameStays(r.name);
    ScopeStays(r.scope);
    BasesStay(r.bases);
    DeclsStay(r.decls);
  }

  lemma {:induction false} FunctionStays(f: FunctionDecl)
    requires WholeFunction(f)
    ensures KeptFunction(f) == f
    decreases f, 0
  {
    MaybeSpecializationStays(f.specialization);
    ScopeStays(f.scope);
    NameStays(f.name);
    MethodStays(f.method_);
    RoleStays(f.isDefinition, f.method_.InstanceMethod?, f.role);
    QualStays(f.ty);
    DeclsStay(f.params);
    MaybeStmtStays(f.body);
  }

  lemma {:induction false} MaybeSpecializationStays(s: Option<FunctionSpecialization>)
    requires WholeMaybeSpecialization(s)
    ensures KeptMaybeSpecialization(s) == s
    decreases s, 0
  {
    if s.Some? {
      SpecializationStays(s.value);
    }
  }

  lemma {:induction false} SpecializationStays(s: FunctionSpecialization)
    requires WholeSpecialization(s)
    ensures KeptSpecialization(s) == s
    decreases s, 0
  {
    NameStays(s.template);
    ArgListStays(s.args);
  }

  lemma {:induction false} ArgListStays(args: ArgList)
    requires WholeArgList(args)
    ensures KeptArgList(args) == args
    decreases args, 0
  {
    if args.Args? {
      ArgsStay(args.args);
    }
  }

  lemma {:induction false} MethodStays(m: MethodInfo)
    requires WholeMethod(m)
    ensures KeptMethod(m) == m
    decreases m, 0
  {
    if m.InstanceMethod? {
      QualStays(m.thisType);
    }
  }

  lemma {:induction false} RoleStays(isDefinition: bool, isInstance: bool, role: FunctionRole)
    requires WholeRole(isDefinition, isInstance, role)
    ensures KeptRole(isDefinition, isInstance, role) == role
    decreases role, 0
  {
    if role.Constructor? {
      InitsStay(role.inits);
    }
  }

  lemma {:induction false} InitsStay(inits: seq<CtorInit>)
    requires WholeInits(inits)
    ensures KeptInits(inits) == inits
    decreases inits, 0
  {
    if inits != [] {
      InitStays(inits[0]);
      InitsStay(inits[1..]);
      assert inits == [inits[0]] + inits[1..];
    }
  }

  lemma {:induction false} InitStays(init: CtorInit)
    requires WholeInit(init)
    ensures KeptInit(init) == init
    decreases init, 0
  {
    match init
    case BaseInit(_, ty, _, _, e) =>
      QualStays(ty);
      ExprStays(e);
    case MemberInit(_, name, e) =>
      NameStays(name);
      ExprStays(e);
    case DelegatingInit(_, e) => ExprStays(e);
  }
}
