/** How the reader of terms reads each sort of node, and lists of terms. */
module TermNodes {
  import opened Wrappers
  import opened Sorts
  import opened Terms
  import opened Tokens
  import opened Ast
  import opened TermReader

  // ----- Nodes -----

  function OrUnreadable(r: Option<Part>): Part {
    match r
    case Some(x) => x
    case None => Unreadable
  }

  /** The sort of a node tells how it is read. */
  lemma LocNode(u: Unit, node: Node, kids: seq<Term>)
    requires node.KApply? && node.sort.CABSLOC? && |kids| == Arity(node)
    ensures ReadTerm(u, Term(node, kids)) == OrUnreadable(BuildLoc(u, node, ReadTerms(u, kids)))
  {
    hide BuildLoc, BuildList, BuildType, BuildName, BuildScope, BuildExceptions, BuildArg, BuildExpr, BuildKind,
      BuildOperation, BuildCapture, BuildEnd, BuildStmt, BuildDecl, BuildDeclarator, BuildEnum, BuildParam, BuildBase,
      BuildInit, BuildSpecifier;
  }

  lemma ListNode(u: Unit, node: Node, kids: seq<Term>)
    requires node.KApply?
    requires (node.sort.LIST? || node.sort.STRICTLIST? || node.sort.STRICTLISTRESULT?) && |kids| == Arity(node)
    ensures ReadTerm(u, Term(node, kids)) == OrUnreadable(BuildList(node, ReadTerms(u, kids)))
  {
    hide BuildLoc, BuildList, BuildType, BuildName, BuildScope, BuildExceptions, BuildArg, BuildExpr, BuildKind,
      BuildOperation, BuildCapture, BuildEnd, BuildStmt, BuildDecl, BuildDeclarator, BuildEnum, BuildParam, BuildBase,
      BuildInit, BuildSpecifier;
  }

  lemma TypeNode(u: Unit, node: Node, kids: seq<Term>)
    requires node.KApply? && node.sort.ATYPE? && |kids| == Arity(node)
    ensures ReadTerm(u, Term(node, kids)) == OrUnreadable(BuildType(node, ReadTerms(u, kids)))
  {
    hide BuildLoc, BuildList, BuildType, BuildName, BuildScope, BuildExceptions, BuildArg, BuildExpr, BuildKind,
      BuildOperation, BuildCapture, BuildEnd, BuildStmt, BuildDecl, BuildDeclarator, BuildEnum, BuildParam, BuildBase,
      BuildInit, BuildSpecifier;
  }

  lemma NameNode(u: Unit, node: Node, kids: seq<Term>)
    requires node.KApply? && |kids| == Arity(node)
    requires || node.sort.NAME? || node.sort.CID? || node.sort.NONAME? || node.sort.UNNAMEDCID? || node.sort.TYPEID?
             || node.sort.DESTRUCTORID?
    ensures ReadTerm(u, Term(node, kids)) == OrUnreadable(BuildName(u, node, ReadTerms(u, kids)))
  {
    hide BuildLoc, BuildList, BuildType, BuildName, BuildScope, BuildExceptions, BuildArg, BuildExpr, BuildKind,
      BuildOperation, BuildCapture, BuildEnd, BuildStmt, BuildDecl, BuildDeclarator, BuildEnum, BuildParam, BuildBase,
      BuildInit, BuildSpecifier;
  }

  lemma ScopeNode(u: Unit, node: Node, kids: seq<Term>)
    requires node.KApply? && (node.sort.NNS? || node.sort.NNSSPECIFIER? || node.sort.NAMESPACE?) && |kids| == Arity(node)
    ensures ReadTerm(u, Term(node, kids)) == OrUnreadable(BuildScope(node, ReadTerms(u, kids)))
  {
    hide BuildLoc, BuildList, BuildType, BuildName, BuildScope, BuildExceptions, BuildArg, BuildExpr, BuildKind,
      BuildOperation, BuildCapture, BuildEnd, BuildStmt, BuildDecl, BuildDeclarator, BuildEnum, BuildParam, BuildBase,
      BuildInit, BuildSpecifier;
  }

  lemma ExceptionsNode(u: Unit, node: Node, kids: seq<Term>)
    requires node.KApply? && node.sort.EXCEPTIONSPEC? && |kids| == Arity(node)
    ensures ReadTerm(u, Term(node, kids)) == OrUnreadable(BuildExceptions(node, ReadTerms(u, kids)))
  {
    hide BuildLoc, BuildList, BuildType, BuildName, BuildScope, BuildExceptions, BuildArg, BuildExpr, BuildKind,
      BuildOperation, BuildCapture, BuildEnd, BuildStmt, BuildDecl, BuildDeclarator, BuildEnum, BuildParam, BuildBase,
      BuildInit, BuildSpecifier;
  }

  lemma ArgNode(u: Unit, node: Node, kids: seq<Term>)
    requires node.KApply? && node.sort.TEMPLATEARGUMENT? && |kids| == Arity(node)
    ensures ReadTerm(u, Term(node, kids)) == OrUnreadable(BuildArg(node, ReadTerms(u, kids)))
  {
    hide BuildLoc, BuildList, BuildType, BuildName, BuildScope, BuildExceptions, BuildArg, BuildExpr, BuildKind,
      BuildOperation, BuildCapture, BuildEnd, BuildStmt, BuildDecl, BuildDeclarator, BuildEnum, BuildParam, BuildBase,
      BuildInit, BuildSpecifier;
  }

  lemma ExprNode(u: Unit, node: Node, kids: seq<Term>)
    requires node.KApply? && node.sort.EXPRLOC? && |kids| == Arity(node)
    ensures ReadTerm(u, Term(node, kids)) == OrUnreadable(BuildExpr(node, ReadTerms(u, kids)))
  {
    hide BuildLoc, BuildList, BuildType, BuildName, BuildScope, BuildExceptions, BuildArg, BuildExpr, BuildKind,
      BuildOperation, BuildCapture, BuildEnd, BuildStmt, BuildDecl, BuildDeclarator, BuildEnum, BuildParam, BuildBase,
      BuildInit, BuildSpecifier;
  }

  lemma KindNode(u: Unit, node: Node, kids: seq<Term>)
    requires node.KApply? && node.sort.EXPR? && |kids| == Arity(node)
    ensures ReadTerm(u, Term(node, kids)) == OrUnreadable(BuildKind(u, node, ReadTerms(u, kids)))
  {
    hide BuildLoc, BuildList, BuildType, BuildName, BuildScope, BuildExceptions, BuildArg, BuildExpr, BuildKind,
      BuildOperation, BuildCapture, BuildEnd, BuildStmt, BuildDecl, BuildDeclarator, BuildEnum, BuildParam, BuildBase,
      BuildInit, BuildSpecifier;
  }

  lemma OperationNode(u: Unit, node: Node, kids: seq<Term>)
    requires node.KApply?
    requires (node.sort.THIS? || node.sort.RESOLVEDEXPR? || node.sort.INIT? || node.sort.BRACEINIT?) && |kids| == Arity(node)
    ensures ReadTerm(u, Term(node, kids)) == OrUnreadable(BuildOperation(node, ReadTerms(u, kids)))
  {
    hide BuildLoc, BuildList, BuildType, BuildName, BuildScope, BuildExceptions, BuildArg, BuildExpr, BuildKind,
      BuildOperation, BuildCapture, BuildEnd, BuildStmt, BuildDecl, BuildDeclarator, BuildEnum, BuildParam, BuildBase,
      BuildInit, BuildSpecifier;
  }

  lemma CaptureNode(u: Unit, node: Node, kids: seq<Term>)
    requires node.KApply? && (node.sort.CAPTURE? || node.sort.CAPTUREKIND?) && |kids| == Arity(node)
    ensures ReadTerm(u, Term(node, kids)) == OrUnreadable(BuildCapture(node, ReadTerms(u, kids)))
  {
    hide BuildLoc, BuildList, BuildType, BuildName, BuildScope, BuildExceptions, BuildArg, BuildExpr, BuildKind,
      BuildOperation, BuildCapture, BuildEnd, BuildStmt, BuildDecl, BuildDeclarator, BuildEnum, BuildParam, BuildBase,
      BuildInit, BuildSpecifier;
  }

  lemma EndNode(u: Unit, node: Node, kids: seq<Term>)
    requires node.KApply? && node.sort.STMT? && |kids| == Arity(node)
    ensures ReadTerm(u, Term(node, kids)) == OrUnreadable(BuildEnd(node, ReadTerms(u, kids)))
  {
    hide BuildLoc, BuildList, BuildType, BuildName, BuildScope, BuildExceptions, BuildArg, BuildExpr, BuildKind,
      BuildOperation, BuildCapture, BuildEnd, BuildStmt, BuildDecl, BuildDeclarator, BuildEnum, BuildParam, BuildBase,
      BuildInit, BuildSpecifier;
  }

  lemma StmtNode(u: Unit, node: Node, kids: seq<Term>)
    requires node.KApply? && node.sort.ASTMT? && |kids| == Arity(node)
    ensures ReadTerm(u, Term(node, kids)) == OrUnreadable(BuildStmt(node, ReadTerms(u, kids)))
  {
    hide BuildLoc, BuildList, BuildType, BuildName, BuildScope, BuildExceptions, BuildArg, BuildExpr, BuildKind,
      BuildOperation, BuildCapture, BuildEnd, BuildStmt, BuildDecl, BuildDeclarator, BuildEnum, BuildParam, BuildBase,
      BuildInit, BuildSpecifier;
  }

  lemma DeclNode(u: Unit, node: Node, kids: seq<Term>)
    requires node.KApply? && node.sort.DECL? && |kids| == Arity(node)
    ensures ReadTerm(u, Term(node, kids)) == OrUnreadable(BuildDecl(u, node, ReadTerms(u, kids)))
  {
    hide BuildLoc, BuildList, BuildType, BuildName, BuildScope, BuildExceptions, BuildArg, BuildExpr, BuildKind,
      BuildOperation, BuildCapture, BuildEnd, BuildStmt, BuildDecl, BuildDeclarator, BuildEnum, BuildParam, BuildBase,
      BuildInit, BuildSpecifier;
  }

  lemma DeclaratorNode(u: Unit, node: Node, kids: seq<Term>)
    requires node.KApply? && node.sort.DECLARATOR? && |kids| == Arity(node)
    ensures ReadTerm(u, Term(node, kids)) == OrUnreadable(BuildDeclarator(u, node, ReadTerms(u, kids)))
  {
    hide BuildLoc, BuildList, BuildType, BuildName, BuildScope, BuildExceptions, BuildArg, BuildExpr, BuildKind,
      BuildOperation, BuildCapture, BuildEnd, BuildStmt, BuildDecl, BuildDeclarator, BuildEnum, BuildParam, BuildBase,
      BuildInit, BuildSpecifier;
  }

  lemma EnumNode(u: Unit, node: Node, kids: seq<Term>)
    requires node.KApply? && node.sort.ENUMERATOR? && |kids| == Arity(node)
    ensures ReadTerm(u, Term(node, kids)) == OrUnreadable(BuildEnum(node, ReadTerms(u, kids)))
  {
    hide BuildLoc, BuildList, BuildType, BuildName, BuildScope, BuildExceptions, BuildArg, BuildExpr, BuildKind,
      BuildOperation, BuildCapture, BuildEnd, BuildStmt, BuildDecl, BuildDeclarator, BuildEnum, BuildParam, BuildBase,
      BuildInit, BuildSpecifier;
  }

  lemma ParamNode(u: Unit, node: Node, kids: seq<Term>)
    requires node.KApply? && node.sort.TEMPLATEPARAMETER? && |kids| == Arity(node)
    ensures ReadTerm(u, Term(node, kids)) == OrUnreadable(BuildParam(node, ReadTerms(u, kids)))
  {
    hide BuildLoc, BuildList, BuildType, BuildName, BuildScope, BuildExceptions, BuildArg, BuildExpr, BuildKind,
      BuildOperation, BuildCapture, BuildEnd, BuildStmt, BuildDecl, BuildDeclarator, BuildEnum, BuildParam, BuildBase,
      BuildInit, BuildSpecifier;
  }

  lemma BaseNode(u: Unit, node: Node, kids: seq<Term>)
    requires node.KApply? && node.sort.BASESPECIFIER? && |kids| == Arity(node)
    ensures ReadTerm(u, Term(node, kids)) == OrUnreadable(BuildBase(node, ReadTerms(u, kids)))
  {
    hide BuildLoc, BuildList, BuildType, BuildName, BuildScope, BuildExceptions, BuildArg, BuildExpr, BuildKind,
      BuildOperation, BuildCapture, BuildEnd, BuildStmt, BuildDecl, BuildDeclarator, BuildEnum, BuildParam, BuildBase,
      BuildInit, BuildSpecifier;
  }

  lemma InitNode(u: Unit, node: Node, kids: seq<Term>)
    requires node.KApply? && node.sort.CTORINIT? && |kids| == Arity(node)
    ensures ReadTerm(u, Term(node, kids)) == OrUnreadable(BuildInit(node, ReadTerms(u, kids)))
  {
    hide BuildLoc, BuildList, BuildType, BuildName, BuildScope, BuildExceptions, BuildArg, BuildExpr, BuildKind,
      BuildOperation, BuildCapture, BuildEnd, BuildStmt, BuildDecl, BuildDeclarator, BuildEnum, BuildParam, BuildBase,
      BuildInit, BuildSpecifier;
  }

  lemma SpecifierNode(u: Unit, node: Node, kids: seq<Term>)
    requires node.KApply? && |kids| == Arity(node)
    requires || node.sort.SPECIFIER? || node.sort.STORAGECLASSSPECIFIER? || node.sort.AUTOSPECIFIER?
             || node.sort.FUNCTIONSPECIFIER?
    ensures ReadTerm(u, Term(node, kids)) == OrUnreadable(BuildSpecifier(node, ReadTerms(u, kids)))
  {
    hide BuildLoc, BuildList, BuildType, BuildName, BuildScope, BuildExceptions, BuildArg, BuildExpr, BuildKind,
      BuildOperation, BuildCapture, BuildEnd, BuildStmt, BuildDecl, BuildDeclarator, BuildEnum, BuildParam, BuildBase,
      BuildInit, BuildSpecifier;
  }

  /** The sorts of the nodes that only mark something. */
  predicate IsMarkSort(sort: Sort) {
    || sort.QUALIFIER? || sort.TYPESPECIFIER? || sort.CHARKIND? || sort.CAPTUREDEFAULT? || sort.ACCESSSPECIFIER?
    || sort.OPID? || sort.CLASSKEY? || sort.TAG? || sort.AEXPR? || sort.ATYPERESULT? || sort.CATCHDECL? || sort.REFQUALIFIER?
  }

  lemma MarkIsRead(u: Unit, klabel: string, sort: Sort)
    requires IsMarkSort(sort)
    ensures ReadTerm(u, Term(KApply(klabel, sort, []), [])) == AMark(klabel, sort)
  {
    hide BuildLoc, BuildList, BuildType, BuildName, BuildScope, BuildExceptions, BuildArg, BuildExpr, BuildKind,
      BuildOperation, BuildCapture, BuildEnd, BuildStmt, BuildDecl, BuildDeclarator, BuildEnum, BuildParam, BuildBase,
      BuildInit, BuildSpecifier;
  }

  lemma ReadNone(u: Unit)
    ensures ReadTerms(u, []) == []
  {
  }

  lemma Read1(u: Unit, a: Term)
    ensures ReadTerms(u, [a]) == [ReadTerm(u, a)]
  {
    hide ReadTerm;
  }

  lemma Read2(u: Unit, a: Term, b: Term)
    ensures ReadTerms(u, [a, b]) == [ReadTerm(u, a), ReadTerm(u, b)]
  {
    hide ReadTerm;
  }

  lemma Read3(u: Unit, a: Term, b: Term, c: Term)
    ensures ReadTerms(u, [a, b, c]) == [ReadTerm(u, a), ReadTerm(u, b), ReadTerm(u, c)]
  {
    hide ReadTerm;
  }

  lemma Read4(u: Unit, a: Term, b: Term, c: Term, d: Term)
    ensures ReadTerms(u, [a, b, c, d]) == [ReadTerm(u, a), ReadTerm(u, b), ReadTerm(u, c), ReadTerm(u, d)]
  {
    hide ReadTerm;
  }

  lemma Read5(u: Unit, a: Term, b: Term, c: Term, d: Term, e: Term)
    ensures ReadTerms(u, [a, b, c, d, e])
         == [ReadTerm(u, a), ReadTerm(u, b), ReadTerm(u, c), ReadTerm(u, d), ReadTerm(u, e)]
  {
    hide ReadTerm;
  }

  lemma Read6(u: Unit, a: Term, b: Term, c: Term, d: Term, e: Term, f: Term)
    ensures ReadTerms(u, [a, b, c, d, e, f])
         == [ReadTerm(u, a), ReadTerm(u, b), ReadTerm(u, c), ReadTerm(u, d), ReadTerm(u, e), ReadTerm(u, f)]
  {
    hide ReadTerm;
  }

  // ----- Lists -----

  lemma {:induction false} AllOf<T>(f: Part -> Option<T>, rs: seq<Part>, xs: seq<T>)
    requires |rs| == |xs| && forall i :: 0 <= i < |rs| ==> f(rs[i]) == Some(xs[i])
    ensures All(f, rs) == Some(xs)
  {
    if rs != [] {
      AllOf(f, rs[1..], xs[1..]);
      assert xs == [xs[0]] + xs[1..];
    }
  }

  lemma AllWithFirst<T>(f: Part -> Option<T>, r: Part, rs: seq<Part>, x: T, xs: seq<T>)
    requires f(r) == Some(x) && All(f, rs) == Some(xs)
    ensures All(f, [r] + rs) == Some([x] + xs)
  {
    assert ([r] + rs)[1..] == rs;
  }

  lemma SequenceIsRead(u: Unit, ts: seq<Term>)
    ensures ReadTerm(u, Term(KSequence(|ts|), ts)) == ASequence(ReadTerms(u, ts))
  {
    hide BuildApply;
  }

  lemma ReadFirst(u: Unit, t: Term, ts: seq<Term>)
    ensures ReadTerms(u, [t] + ts) == [ReadTerm(u, t)] + ReadTerms(u, ts)
  {
    hide ReadTerm;
  }
}
