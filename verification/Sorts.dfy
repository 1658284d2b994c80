/** The sorts of the K terms the C++ front end builds, and the names it prints for them. */
module Sorts {
  import opened Wrappers

  datatype Sort =
    | ACCESSSPECIFIER | AEXPR | ASTMT | ATYPE | ATYPERESULT
    | AUTOSPECIFIER | BASESPECIFIER | BOOL | BRACEINIT | CABSLOC
    | CAPTURE | CAPTUREDEFAULT | CAPTUREKIND | CATCHDECL | CHARKIND
    | CID | CLASSKEY | CTORINIT | DECL | DECLARATOR
    | DESTRUCTORID | ENUMERATOR | EXCEPTIONSPEC | EXPR | EXPRESSIONLIST
    | EXPRLOC | FLOAT | FUNCTIONSPECIFIER | INIT | INT
    | K | KITEM | LIST | NAME | NAMESPACE
    | NNS | NNSSPECIFIER | NONAME | OPID | QUALIFIER
    | REFQUALIFIER | RESOLVEDEXPR | SPECIFIER | STMT | STORAGECLASSSPECIFIER
    | STRICTLIST | STRICTLISTRESULT | STRING | TAG | TEMPLATEARGUMENT
    | TEMPLATEPARAMETER | THIS | TYPEID | TYPESPECIFIER | UNNAMEDCID

  function CharAt(name: string, i: nat): char {
    if i < |name| then name[i] else ' '
  }

  /** The one sort that can have a name with this length and these first three characters. */
  function Candidate(length: nat, c0: char, c1: char, c2: char): Sort {
    match length
    case 1 => K
    case 3 =>
      if c0 == 'C' then CID
      else if c0 == 'I' then INT
      else if c0 == 'N' then NNS
      else TAG
    case 4 =>
      if c0 == 'B' then BOOL
      else if c0 == 'D' then DECL
      else if c0 == 'E' then EXPR
      else if c0 == 'I' then INIT
      else if c0 == 'L' then LIST
      else if c0 == 'N' then NAME
      else if c0 == 'O' then OPID
      else if c0 == 'S' then STMT
      else THIS
    case 5 =>
      if c0 == 'A' && c1 == 'E' then AEXPR
      else if c0 == 'A' && c1 == 'S' then ASTMT
      else if c0 == 'A' && c1 == 'T' then ATYPE
      else if c0 == 'F' then FLOAT
      else KITEM
    case 6 =>
      if c0 == 'N' then NONAME
      else if c0 == 'S' then STRING
      else TYPEID
    case 7 =>
      if c0 == 'C' && c2 == 'b' then CABSLOC
      else if c0 == 'C' && c2 == 'p' then CAPTURE
      else EXPRLOC
    case 8 =>
      if c0 == 'C' && c1 == 'h' then CHARKIND
      else if c0 == 'C' && c1 == 'l' then CLASSKEY
      else CTORINIT
    case 9 =>
      if c0 == 'B' then BRACEINIT
      else if c0 == 'C' then CATCHDECL
      else if c0 == 'Q' then QUALIFIER
      else SPECIFIER
    case 10 =>
      if c0 == 'D' then DECLARATOR
      else if c0 == 'E' then ENUMERATOR
      else if c0 == 'N' then NAMESPACE
      else if c0 == 'S' then STRICTLIST
      else UNNAMEDCID
    case 11 =>
      if c0 == 'A' then ATYPERESULT
      else CAPTUREKIND
    case 12 =>
      if c0 == 'D' then DESTRUCTORID
      else if c0 == 'N' then NNSSPECIFIER
      else if c0 == 'R' && c2 == 'f' then REFQUALIFIER
      else RESOLVEDEXPR
    case 13 =>
      if c0 == 'A' then AUTOSPECIFIER
      else if c0 == 'B' then BASESPECIFIER
      else if c0 == 'E' then EXCEPTIONSPEC
      else TYPESPECIFIER
    case 14 =>
      if c0 == 'C' then CAPTUREDEFAULT
      else EXPRESSIONLIST
    case 15 => ACCESSSPECIFIER
    case 16 =>
      if c0 == 'S' then STRICTLISTRESULT
      else TEMPLATEARGUMENT
    case 17 =>
      if c0 == 'F' then FUNCTIONSPECIFIER
      else TEMPLATEPARAMETER
    case 21 => STORAGECLASSSPECIFIER
    case _ => K
  }

  predicate FromAToC(sort: Sort) {
    match sort
    case ACCESSSPECIFIER | AEXPR | ASTMT | ATYPE | ATYPERESULT |
         AUTOSPECIFIER | BASESPECIFIER | BOOL | BRACEINIT | CABSLOC |
         CAPTURE | CAPTUREDEFAULT | CAPTUREKIND | CATCHDECL | CHARKIND |
         CID | CLASSKEY | CTORINIT => true
    case _ => false
  }

  predicate FromDToN(sort: Sort) {
    match sort
    case DECL | DECLARATOR | DESTRUCTORID | ENUMERATOR | EXCEPTIONSPEC |
         EXPR | EXPRESSIONLIST | EXPRLOC | FLOAT | FUNCTIONSPECIFIER |
         INIT | INT | K | KITEM | LIST |
         NAME | NAMESPACE | NNS | NNSSPECIFIER => true
    case _ => false
  }

  function NameFromAToC(sort: Sort): (name: string)
    requires FromAToC(sort)
    ensures '{' !in name
    ensures Candidate(|name|, CharAt(name, 0), CharAt(name, 1), CharAt(name, 2)) == sort
  {
    match sort
    case ACCESSSPECIFIER => "AccessSpecifier"
    case AEXPR => "AExpr"
    case ASTMT => "AStmt"
    case ATYPE => "AType"
    case ATYPERESULT => "ATypeResult"
    case AUTOSPECIFIER => "AutoSpecifier"
    case BASESPECIFIER => "BaseSpecifier"
    case BOOL => "Bool"
    case BRACEINIT => "BraceInit"
    case CABSLOC => "CabsLoc"
    case CAPTURE => "Capture"
    case CAPTUREDEFAULT => "CaptureDefault"
    case CAPTUREKIND => "CaptureKind"
    case CATCHDECL => "CatchDecl"
    case CHARKIND => "CharKind"
    case CID => "CId"
    case CLASSKEY => "ClassKey"
    case CTORINIT => "CtorInit"
  }

  function NameFromDToN(sort: Sort): (name: string)
    requires FromDToN(sort)
    ensures '{' !in name
    ensures Candidate(|name|, CharAt(name, 0), CharAt(name, 1), CharAt(name, 2)) == sort
  {
    match sort
    case DECL => "Decl"
    case DECLARATOR => "Declarator"
    case DESTRUCTORID => "DestructorId"
    case ENUMERATOR => "Enumerator"
    case EXCEPTIONSPEC => "ExceptionSpec"
    case EXPR => "Expr"
    case EXPRESSIONLIST => "ExpressionList"
    case EXPRLOC => "ExprLoc"
    case FLOAT => "Float"
    case FUNCTIONSPECIFIER => "FunctionSpecifier"
    case INIT => "Init"
    case INT => "Int"
    case K => "K"
    case KITEM => "KItem"
    case LIST => "List"
    case NAME => "Name"
    case NAMESPACE => "Namespeace"
    case NNS => "NNS"
    case NNSSPECIFIER => "NNSSpecifier"
  }

  function NameFromNToU(sort: Sort): (name: string)
    requires !FromAToC(sort) && !FromDToN(sort)
    ensures '{' !in name
    ensures Candidate(|name|, CharAt(name, 0), CharAt(name, 1), CharAt(name, 2)) == sort
  {
    match sort
    case NONAME => "NoName"
    case OPID => "OpId"
    case QUALIFIER => "Qualifier"
    case REFQUALIFIER => "RefQualifier"
    case RESOLVEDEXPR => "ResolvedExpr"
    case SPECIFIER => "Specifier"
    case STMT => "Stmt"
    case STORAGECLASSSPECIFIER => "StorageClassSpecifier"
    case STRICTLIST => "StrictList"
    case STRICTLISTRESULT => "StrictListResult"
    case STRING => "String"
    case TAG => "Tag"
    case TEMPLATEARGUMENT => "TemplateArgument"
    case TEMPLATEPARAMETER => "TemplateParameter"
    case THIS => "This"
    case TYPEID => "TypeId"
    case TYPESPECIFIER => "TypeSpecifier"
    case UNNAMEDCID => "UnnamedCId"
  }

  /** The printed name of a sort. The spelling of NAMESPACE is the front end's own.
      No name holds the brace that ends it in Kore, and no two sorts share a name. */
  function SortName(sort: Sort): (name: string)
    ensures '{' !in name
    ensures Candidate(|name|, CharAt(name, 0), CharAt(name, 1), CharAt(name, 2)) == sort
  {
    if FromAToC(sort) then NameFromAToC(sort)
    else if FromDToN(sort) then NameFromDToN(sort)
    else NameFromNToU(sort)
  }

  lemma NoQuoteFromAToC(sort: Sort)
    requires FromAToC(sort)
    ensures '"' !in NameFromAToC(sort)
  {
  }

  lemma NoQuoteFromDToN(sort: Sort)
    requires FromDToN(sort)
    ensures '"' !in NameFromDToN(sort)
  {
  }

  lemma NoQuoteFromNToU(sort: Sort)
    requires !FromAToC(sort) && !FromDToN(sort)
    ensures '"' !in NameFromNToU(sort)
  {
  }

  /** Nor the quote that ends it in KAST. */
  lemma NamesHaveNoQuote(sort: Sort)
    ensures '"' !in SortName(sort)
  {
    hide NameFromAToC, NameFromDToN, NameFromNToU;
    if FromAToC(sort) {
      NoQuoteFromAToC(sort);
    } else if FromDToN(sort) {
      NoQuoteFromDToN(sort);
    } else {
      NoQuoteFromNToU(sort);
    }
  }

  // ----- Reading -----

  function KnownFromAToC(sort: Sort): string
    requires FromAToC(sort)
  {
    match sort
    case ACCESSSPECIFIER => "AccessSpecifier"
    case AEXPR => "AExpr"
    case ASTMT => "AStmt"
    case ATYPE => "AType"
    case ATYPERESULT => "ATypeResult"
    case AUTOSPECIFIER => "AutoSpecifier"
    case BASESPECIFIER => "BaseSpecifier"
    case BOOL => "Bool"
    case BRACEINIT => "BraceInit"
    case CABSLOC => "CabsLoc"
    case CAPTURE => "Capture"
    case CAPTUREDEFAULT => "CaptureDefault"
    case CAPTUREKIND => "CaptureKind"
    case CATCHDECL => "CatchDecl"
    case CHARKIND => "CharKind"
    case CID => "CId"
    case CLASSKEY => "ClassKey"
    case CTORINIT => "CtorInit"
  }

  function KnownFromDToN(sort: Sort): string
    requires FromDToN(sort)
  {
    match sort
    case DECL => "Decl"
    case DECLARATOR => "Declarator"
    case DESTRUCTORID => "DestructorId"
    case ENUMERATOR => "Enumerator"
    case EXCEPTIONSPEC => "ExceptionSpec"
    case EXPR => "Expr"
    case EXPRESSIONLIST => "ExpressionList"
    case EXPRLOC => "ExprLoc"
    case FLOAT => "Float"
    case FUNCTIONSPECIFIER => "FunctionSpecifier"
    case INIT => "Init"
    case INT => "Int"
    case K => "K"
    case KITEM => "KItem"
    case LIST => "List"
    case NAME => "Name"
    case NAMESPACE => "Namespeace"
    case NNS => "NNS"
    case NNSSPECIFIER => "NNSSpecifier"
  }

  function KnownFromNToU(sort: Sort): string
    requires !FromAToC(sort) && !FromDToN(sort)
  {
    match sort
    case NONAME => "NoName"
    case OPID => "OpId"
    case QUALIFIER => "Qualifier"
    case REFQUALIFIER => "RefQualifier"
    case RESOLVEDEXPR => "ResolvedExpr"
    case SPECIFIER => "Specifier"
    case STMT => "Stmt"
    case STORAGECLASSSPECIFIER => "StorageClassSpecifier"
    case STRICTLIST => "StrictList"
    case STRICTLISTRESULT => "StrictListResult"
    case STRING => "String"
    case TAG => "Tag"
    case TEMPLATEARGUMENT => "TemplateArgument"
    case TEMPLATEPARAMETER => "TemplateParameter"
    case THIS => "This"
    case TYPEID => "TypeId"
    case TYPESPECIFIER => "TypeSpecifier"
    case UNNAMEDCID => "UnnamedCId"
  }

  /** The names that the reader knows. */
  function KnownName(sort: Sort): string {
    if FromAToC(sort) then KnownFromAToC(sort)
    else if FromDToN(sort) then KnownFromDToN(sort)
    else KnownFromNToU(sort)
  }

  /** They are the ones that are printed. */
  lemma KnownNamesArePrinted(sort: Sort)
    ensures KnownName(sort) == SortName(sort)
  {
  }

  /** Recovers a sort from its printed name. */
  function SortOf(name: string): (r: Option<Sort>)
    ensures r.Some? ==> SortName(r.value) == name
    ensures r.None? ==> forall sort :: SortName(sort) != name
  {
    var sort := Candidate(|name|, CharAt(name, 0), CharAt(name, 1), CharAt(name, 2));
    KnownNamesArePrinted(sort);
    if KnownName(sort) == name then Some(sort) else None
  }
}
