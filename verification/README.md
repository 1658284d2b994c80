# Formal model of the native parts of a C semantics toolchain

The toolchain runs C and C++ programs through an executable semantics. This project models the
parts of it that are written in C and C++, and proves what they are for.

| part | files |
|---|---|
| The C++ front end: a visitor that walks a syntax tree and appends nodes to one flat vector, and a printer that rebuilds the term from that vector by arity alone and prints it as KAST or KORE | `Sorts`, `Labels`, `Tokens`, `Terms`, `Printer`, `Kore`, `KoreParser`, `KastParser`, `Decimal`, `Ast`, `Trees`, `Growth`, `Visitor`, `Fitting`, `Fitness`, `Translation`, `Kept`, `Whole`, `TermReader`, `TermNodes`, `Reading`, `Pipeline` |
| The string functions of the limited C library, and `atoi` | `CStrings`, `CCompare`, `StrTok`, `CCopy`, `Atoi` |
| The server for native calls | `Wire`, `NativeServer` |
| The tool that lists call sites with ABI-erased types | `CallCodes`, `CallSites`, `CharOption` |
| Double-word shifts of any width, from a regression program | `Bits`, `Shifts` |
| Optional results, and concatenation | `Wrappers`, `Sequences` |

Each part has the same plan. What the code does is a method in the code's own form (a class where it
updates fields or a stream, a loop where it loops), proved to compute a specification function. What
the code promises is proved about that function: that it is undone by an independent reader, that an
invariant holds over a whole run, or that it means what the C standard or ordinary arithmetic says.

The main results, part by part:

- *Front end.* The visitor's nodes are the preorder word of the tree's term
  (`Visitor.GetKastVisitor.TraverseDecl`); the printer's walk of any vector takes exactly one term
  (`Terms.ReadEndsAtFirstFall`) and prints its rendering (`Printer.Kast.Print`); the term is well
  formed, and is what the walk of the whole vector gives back, exactly when the counts of the visitor
  come out right, which `Fitness` states of the tree alone (`Pipeline.VectorIsItsTerm`, and
  `Pipeline.FunctionIsOneTerm` for functions); the KORE text
  is well sorted exactly when, besides, no default argument fills an item slot
  (`Pipeline.TextIsSorted`). The text parses back to the term, in both output languages
  (`KoreParser.PrintedTermsParse`, `KastParser.PrintedTermsParse`), and the term reads back to the tree:
  `TermReader` goes by nodes and the positions of their children alone and knows nothing of how `Trees`
  builds terms, `Kept` says what the front end drops, and `Reading.DeclIsRead` says that nothing else is
  lost and nothing is out of place. `Pipeline.Translate` puts all of this together.
- *Strings.* A run of `strtok_r` calls of any length, with delimiters that may change from call to
  call, returns the runs without delimiters in order (`StrTok.Calls`, `StrTok.TakenIsSearched`,
  `StrTok.TokensAreTheMaximalRuns`); the comparisons share one total order.
- *Server.* Any session has the meaning of its requests, and both directions of the stream decode in
  one way (`NativeServer.Server.Run`, `Wire.SessionRead`, `Wire.RepliesRead`).
- *Call sites.* The output decodes to the erased calls (`CallSites.OutputIsDecodable`), and the char
  option keeps lines apart exactly when its code cannot be read as other codes
  (`CharOption.CharOptionIsExact`).
- *Shifts.* Both shifts are arithmetic modulo the width, and the overflow flag is exact
  (`Shifts.NumRShift`, `Shifts.NumLShift`).

Six properties one might expect are false of the code, and the model says exactly when they hold.
A constructor that is defaulted and has been given a body is closed twice, so its nodes are not one
term (`Pipeline.DefaultedWithBodyIsNotOneTerm`, `Pipeline.FunctionIsOneTerm`). A vector that is the word
of one term need not be that of its tree, since two faults can cancel (`Pipeline.FaultsCancel`,
`Pipeline.VectorIsItsTerm`). The KORE text of a call that uses a default argument is ill sorted
(`Pipeline.DefaultArgumentIsIllSorted`, `Pipeline.TextIsSorted`). KAST text does not read back if a label
has a back quote, since labels are not escaped there (`KastParser.BackQuoteIsNotRead`,
`KastParser.PrintedTermsParse`). `strchr`, and `strrchr` through it, compares its result with the
unconverted int, so an argument outside the range of char is never found (`CStrings.StrChrCanMiss`,
`CStrings.StrChrConforms`). Some values of the char option make different types print alike
(`CharOption.SpelledLikeComplexFloat`, `CharOption.CharOptionIsExact`).

What the front end drops from a tree, so that no reader of its output can tell, is listed by `Kept` part
by part: substituted and deduced types, what a name that is given stands for, the marker operand of a
postfix step and the kind of operator beyond its spelling, captures and initializers that are not written,
excluded declarations, the initializer of a bit field, the members of an incomplete record, the kinds of
instances, bits of an alignment below a byte, and what a function's form makes redundant.

Where code and comments differ the code is followed. The comment at `clang-tools/ClangKast/ClangKast.h`
line 67 says the vector is in breadth-first order; it is in depth-first preorder. One sort is spelled
"Namespeace" in the output, and here.

## Assumptions

- Inside a syntax tree, fields are independent, so the model also covers combinations that clang may
  never build. Where a visitor method returns false and leaves the children to clang (pointer types,
  compound statements, catch, enum constants, the translation unit), clang is taken to visit them in
  order.
- Characters are bytes, and char is signed, as on the platform of the library. Pointers are indices
  into one memory; ints outside the range of the source's types do not occur except where the
  contract speaks of overflow. `strlen` has no body in the library and is modelled by its contract;
  `malloc` succeeds.
- Ghost parameters (the deciding byte of a comparison, the length of a digit run, the requests that a
  stream encodes) name facts about the input; they do not restrict it further than the contract says.
- Loops that the source writes twice with one test changed are one method here: `CStrings.Scan` for
  `strspn` and `strcspn`, `CCopy.CopyUntilNull` for `strncpy` and `strncat`.
- The server's platform receives and sends exactly the bytes asked for, numbers travel in the
  little-endian order of x86, and the code outside the server is an arbitrary function of its own state
  and the memory that does not touch the server's tables and does not change the size of the memory.
- The types that call sites write as pointers are never looked into, so what they point to is not
  part of a type here. Counts of fields and items are natural numbers.

## Model

| member | source | states |
|---|---|---|
| `Labels.EscapeKLabel` | clang-tools/ClangKast/ClangKast.cc:132-182 | the loop that pushes and pops apostrophes computes the escaped form in which a run of special characters shares one pair of apostrophes |
| `Labels.UnescapeEscaped` | clang-tools/ClangKast/ClangKast.cc:132-182 | escaping a label is undone by reading the codes between the apostrophes, for every label |
| `Labels.ApostrophesPairUp` | clang-tools/ClangKast/ClangKast.cc:171-176 | the escaped label has an even number of apostrophes |
| `Labels.EscapedIsShaped` | clang-tools/ClangKast/ClangKast.cc:171-176 | no two apostrophes are adjacent, the label ends in one exactly when its last character is special, and it never holds the brace that ends a KORE symbol |
| `Tokens.Escape` | clang-tools/ClangKast/ClangKast.cc:272-292 | the loop computes the escaped form, byte by byte |
| `Tokens.ReadQuotedEscaped` | clang-tools/ClangKast/ClangKast.cc:272-292 | reading up to the next bare quote gives back every byte string, whatever follows the quote |
| `Tokens.EscapedIsPrintable` | clang-tools/ClangKast/ClangKast.cc:272-292 | the escaped text is printable ASCII |
| `Tokens.StringOfStringValue` | clang-tools/ClangKast/ClangKast.cc:225-227 | the value of a string token gives back the string, in both output modes |
| `Tokens.StringSurvivesPrinting` | clang-tools/ClangKast/ClangKast.cc:225-292 | a string escaped twice, into its token and when the token is printed, is recovered by undoing both; the text is printable |
| `Sorts.SortName` | clang-tools/ClangKast/ClangKast.cc:54-115 | the printed sort names have no character that would end them early and are told apart by the reader |
| `Sorts.SortOf` | clang-tools/ClangKast/ClangKast.cc:54-115 | a name read back is the name of the sort returned, for every string |
| `Terms.ReadIsSound` | clang-tools/ClangKast/ClangKast.cc:335-341 | what the printer's walk takes from the vector is the preorder word of a well-formed term |
| `Terms.ReadIsComplete` | clang-tools/ClangKast/ClangKast.cc:335-341 | where the word of a well-formed term stands in the vector, the walk takes exactly that term |
| `Terms.WordsArePrefixFree` | clang-tools/ClangKast/ClangKast.cc:335-341 | no term's word begins another term's word |
| `Terms.ReadEndsAtFirstFall` | clang-tools/ClangKast/ClangKast.cc:335-341 | the walk from i ends at j exactly when the running sum of arity minus one first reaches -1 at j; when there is no such j the walk needs a node past the end |
| `Terms.ReadIgnoresWhatFollows` | clang-tools/ClangKast/ClangKast.cc:335-341 | the walk does not depend on the nodes after its end |
| `Terms.TotalOfWord` | clang-tools/ClangKast/ClangKast.cc:335-341 | the sum of arity minus one over a word is the deficit of its term minus one |
| `Terms.OneTermHasNoDeficit` | clang-tools/ClangKast/ClangKast.cc:335-341 | a word that is read as one whole term comes from a term without deficit |
| `Terms.UnsortedFitIsWellFormed` | clang-tools/ClangKast/ClangKast.cc:186-310 | a term whose nodes have as many children as they ask for is well formed, and the other way round |
| `Printer.Kast.Print` | clang-tools/ClangKast/ClangKast.cc:335-341 | from any index of any vector: succeeds exactly when the walk finds a term, returns its last index, and appends the recursive rendering of that term |
| `Printer.Kast.PrintApply` | clang-tools/ClangKast/ClangKast.cc:186-221 | an application prints its coercions, symbol, arguments and closing parentheses as the rendering asks |
| `Printer.Kast.PrintArgs` | clang-tools/ClangKast/ClangKast.cc:203-208 | the loop over the signature prints each child at the sort of its slot, with commas between them |
| `Printer.Kast.PrintItems` | clang-tools/ClangKast/ClangKast.cc:298-309 | the KORE half prints nested pairs and closes as many as it opened |
| `Printer.Kast.PrintJoined` | clang-tools/ClangKast/ClangKast.cc:311-321 | the KAST half joins the items with arrows, and prints .K for none |
| `Printer.Kast.CloseParens` | clang-tools/ClangKast/ClangKast.cc:307-309 | the last loop prints one parenthesis per item |
| `Kore.RenderIsPattern` | clang-tools/ClangKast/ClangKast.cc:186-310 | the KORE text is that of a typed pattern with its injections and pairs made explicit |
| `Kore.PrintedSort` | clang-tools/ClangKast/ClangKast.cc:186-310 | a printed term has the sort its parent asked for exactly when every token below is asked for at its own sort and every sequence at K |
| `KoreParser.ParseTerm` | clang-tools/ClangKast/ClangKast.cc:124-310 | the parser of KORE text reads the text of every well-formed term back, whatever follows it, for every spelling of sorts and labels that can be read |
| `KoreParser.FrontEndIsLegible` | clang-tools/ClangKast/ClangKast.cc:54-182 | the front end's own spelling of sorts and labels can be read |
| `KastParser.TermIsRead` | clang-tools/ClangKast/ClangKast.cc:186-323 | the parser of KAST text reads the text of every well-formed term whose labels have no back quote: tokens with value then sort, labels in back quotes, .KList, .K, and items joined by arrows, sequences in sequences made flat |
| `KastParser.PrintedTermsParse` | clang-tools/ClangKast/ClangKast.cc:186-323 | with the front end's spelling of sorts, the text printed in KAST reads back as the items of the term if and only if no label has a back quote |
| `KastParser.BackQuoteIsNotRead` | clang-tools/ClangKast/ClangKast.cc:124-130 | a label with a back quote in it does not read back |
| `KoreParser.PrintedTermsParse` | clang-tools/ClangKast/ClangKast.cc:124-310 | the text printed in KORE reads back as labels, children and token values, up to an application at K being the one-element sequence that holds it |
| `Visitor.GetKastVisitor.CabsLoc` | clang-tools/ClangKast/GetKastVisitor.h:2239-2255 | appends exactly the preorder word of the location |
| `Visitor.GetKastVisitor.Identifier` | clang-tools/ClangKast/GetKastVisitor.h:2310-2313 | appends exactly the preorder word of the identifier |
| `Visitor.GetKastVisitor.TraverseIdentifierInfo` | clang-tools/ClangKast/GetKastVisitor.h:262-279 | appends exactly the preorder word of the identifier, of the unnamed identifier, or of no name |
| `Visitor.GetKastVisitor.TraverseDeclarationName` | clang-tools/ClangKast/GetKastVisitor.h:285-322 | appends exactly the preorder word of the declared name, by its kind |
| `Visitor.GetKastVisitor.TraverseNested` | clang-tools/ClangKast/GetKastVisitor.h:218-256 | appends exactly the preorder word of the qualifier, each prefix before the specifier it qualifies |
| `Visitor.GetKastVisitor.TraverseTemplateArgument` | clang-tools/ClangKast/GetKastVisitor.h:735-761 | appends exactly the preorder word of the argument, with packs nested to any depth |
| `Visitor.GetKastVisitor.ArgumentList` | clang-tools/ClangKast/GetKastVisitor.h:778-784 | appends exactly the preorder word of the list whose size node agrees with its items |
| `Visitor.GetKastVisitor.TraverseType` | clang-tools/ClangKast/GetKastVisitor.h:1252-1255 | appends exactly the preorder word of the type, under one layer per qualifier |
| `Visitor.GetKastVisitor.TraverseUnqualified` | clang-tools/ClangKast/GetKastVisitor.h:938-1223 | appends exactly the preorder word of the type without its qualifiers, for the types of the model |
| `Visitor.GetKastVisitor.TraverseArray` | clang-tools/ClangKast/GetKastVisitor.h:1059-1106 | appends exactly the preorder word of the pointer or array type, with the size, the size expression or a placeholder |
| `Visitor.GetKastVisitor.TraverseNamedType` | clang-tools/ClangKast/GetKastVisitor.h:1151-1201 | appends exactly the preorder word of the tag, parameter or specialized type |
| `Visitor.GetKastVisitor.TraversePrototype` | clang-tools/ClangKast/GetKastVisitor.h:938-977 | appends exactly the preorder word of the prototype, with its parameters counted |
| `Visitor.GetKastVisitor.TraverseExceptions` | clang-tools/ClangKast/GetKastVisitor.h:948-973 | appends exactly the preorder word of the exception specification |
| `Visitor.GetKastVisitor.StorageClass` | clang-tools/ClangKast/GetKastVisitor.h:2275-2295 | appends the layer of the storage class, or nothing |
| `Visitor.GetKastVisitor.Qualifiers` | clang-tools/ClangKast/GetKastVisitor.h:2315-2324 | appends one layer per qualifier, in order |
| `Visitor.GetKastVisitor.TraverseExpr` | clang-tools/ClangKast/GetKastVisitor.h:59-70 | appends exactly the preorder word of the expression under its location; a default argument gets none |
| `Visitor.GetKastVisitor.TraverseKind` | clang-tools/ClangKast/GetKastVisitor.h:1407-2180 | appends exactly the preorder word of the expression, for the kinds of the model |
| `Visitor.GetKastVisitor.TraverseMember` | clang-tools/ClangKast/GetKastVisitor.h:1407-1422 | appends exactly the preorder word of the member access |
| `Visitor.GetKastVisitor.TraverseCall` | clang-tools/ClangKast/GetKastVisitor.h:1445-1463 | appends exactly the preorder word of the call, with its arguments counted |
| `Visitor.GetKastVisitor.TraverseOperatorCall` | clang-tools/ClangKast/GetKastVisitor.h:1608-1714 | appends exactly the preorder word of the operator applied to its operands, in the form that the operator and the number of arguments ask for; the second argument of a postfix step is left out |
| `Visitor.GetKastVisitor.TraverseConstruct` | clang-tools/ClangKast/GetKastVisitor.h:1741-1768 | appends exactly the preorder word of the construction with its argument list |
| `Visitor.GetKastVisitor.TraverseConstructorCall` | clang-tools/ClangKast/GetKastVisitor.h:1770-1774 | appends exactly the preorder word of the constructor call with its flag and argument list |
| `Visitor.GetKastVisitor.TraverseNew` | clang-tools/ClangKast/GetKastVisitor.h:1829-1848 | appends exactly the preorder word of the new expression, with a placeholder for each part that is missing |
| `Visitor.GetKastVisitor.TraverseLambda` | clang-tools/ClangKast/GetKastVisitor.h:1891-1925 | appends exactly the preorder word of the lambda with its captures, prototype and body |
| `Visitor.GetKastVisitor.CaptureList` | clang-tools/ClangKast/GetKastVisitor.h:1904-1918 | appends exactly the preorder word of a list whose size is the explicit captures of the first range, and whose items are the explicit captures of the whole range, as the two loops of the source have it |
| `Visitor.GetKastVisitor.TraverseCapture` | clang-tools/ClangKast/GetKastVisitor.h:1870-1889 | appends exactly the preorder word of the capture |
| `Visitor.GetKastVisitor.TraverseStmt` | clang-tools/ClangKast/GetKastVisitor.h:1291-1405 | appends exactly the preorder word of the statement, for the kinds of the model |
| `Visitor.GetKastVisitor.TraverseIf` | clang-tools/ClangKast/GetKastVisitor.h:1346-1360 | appends exactly the preorder word of the if statement, on a variable or an expression, with a placeholder for a missing else |
| `Visitor.GetKastVisitor.TraverseFor` | clang-tools/ClangKast/GetKastVisitor.h:1309-1328 | appends exactly the preorder word of the for loop, with a placeholder for each part that is missing |
| `Visitor.GetKastVisitor.TraverseDecl` | clang-tools/ClangKast/GetKastVisitor.h:73-96 | appends exactly the preorder word of the declaration under its location, or nothing if it is excluded |
| `Visitor.GetKastVisitor.CountDecls` | clang-tools/ClangKast/GetKastVisitor.h:2261-2267 | counts the declarations that are not excluded |
| `Visitor.GetKastVisitor.DeclContext` | clang-tools/ClangKast/GetKastVisitor.h:2261-2267 | appends exactly the preorder word of the list of the declarations that are not excluded |
| `Visitor.GetKastVisitor.TraverseDeclKind` | clang-tools/ClangKast/GetKastVisitor.h:160-936 | appends exactly the preorder word of the declaration, for the kinds of the model |
| `Visitor.GetKastVisitor.VisitTranslationUnit` | clang-tools/ClangKast/GetKastVisitor.h:160-165 | appends exactly the preorder word of the translation unit, with its declarations counted |
| `Visitor.GetKastVisitor.VisitEnumConstant` | clang-tools/ClangKast/GetKastVisitor.h:857-864 | appends exactly the preorder word of the enumerator, with a placeholder for a missing value |
| `Visitor.GetKastVisitor.VisitAccessSpec` | clang-tools/ClangKast/GetKastVisitor.h:909-913 | appends exactly the preorder word of the access specifier |
| `Visitor.GetKastVisitor.TraverseField` | clang-tools/ClangKast/GetKastVisitor.h:531-551 | appends exactly the preorder word of the field, or of the bit field |
| `Visitor.GetKastVisitor.TraverseEnum` | clang-tools/ClangKast/GetKastVisitor.h:836-855 | appends exactly the preorder word of the enumeration, opaque or defined |
| `Visitor.GetKastVisitor.TraverseVar` | clang-tools/ClangKast/GetKastVisitor.h:501-525 | appends exactly the preorder word of the variable, under its specifiers |
| `Visitor.GetKastVisitor.VarSpecifiers` | clang-tools/ClangKast/GetKastVisitor.h:501-513 | appends the layers of the variable's specifiers |
| `Visitor.GetKastVisitor.TraverseRecord` | clang-tools/ClangKast/GetKastVisitor.h:805-829 | appends exactly the preorder word of the class, with its bases and members, or of its declaration |
| `Visitor.GetKastVisitor.TraverseTemplate` | clang-tools/ClangKast/GetKastVisitor.h:582-685 | appends exactly the preorder word of the template with its parameters and the instances that are emitted with it |
| `Visitor.GetKastVisitor.CountInstantiations` | clang-tools/ClangKast/GetKastVisitor.h:600-685 | counts the instances that the emitting loop will visit |
| `Visitor.GetKastVisitor.TraverseTemplateParam` | clang-tools/ClangKast/GetKastVisitor.h:687-733 | appends exactly the preorder word of the template parameter |
| `Visitor.GetKastVisitor.TraverseSpecialization` | clang-tools/ClangKast/GetKastVisitor.h:866-907 | appends exactly the preorder word of the specialization of a class template |
| `Visitor.GetKastVisitor.TraverseFunction` | clang-tools/ClangKast/GetKastVisitor.h:344-479 | appends exactly the preorder word of the function: layers of specifiers, head, and what closes it, counted as the source counts it |
| `Visitor.GetKastVisitor.FunctionSpecifiers` | clang-tools/ClangKast/GetKastVisitor.h:345-393 | appends the layers of template, storage, inline and constexpr |
| `Visitor.GetKastVisitor.SpecializationWrapper` | clang-tools/ClangKast/GetKastVisitor.h:345-385 | appends the layer of a specialization or an instantiation, or nothing |
| `Visitor.GetKastVisitor.FunctionHead` | clang-tools/ClangKast/GetKastVisitor.h:401-455 | appends exactly the preorder word of the qualifier, names, type and parameters of the function |
| `Visitor.GetKastVisitor.MethodWrappers` | clang-tools/ClangKast/GetKastVisitor.h:407-446 | appends the layers of ref-qualifier, this type, virtual, pure and explicit, in order |
| `Visitor.GetKastVisitor.FunctionEnd` | clang-tools/ClangKast/GetKastVisitor.h:457-477 | appends exactly the preorder word of the initializers of a constructor and of what closes the function |
| `Visitor.GetKastVisitor.Closing` | clang-tools/ClangKast/GetKastVisitor.h:471-477 | appends exactly the preorder word of the body, the defaulted and the deleted mark, each if present |
| `Visitor.GetKastVisitor.CountInitializers` | clang-tools/ClangKast/GetKastVisitor.h:460-463 | counts the initializers that are written |
| `Visitor.GetKastVisitor.InitializerList` | clang-tools/ClangKast/GetKastVisitor.h:460-469 | appends exactly the preorder word of the list of the written initializers |
| `Visitor.GetKastVisitor.TraverseInitializer` | clang-tools/ClangKast/GetKastVisitor.h:324-342 | appends exactly the preorder word of the initializer of a base, a member or a delegation |
| `Translation.TypeFits` | clang-tools/ClangKast/GetKastVisitor.h:938-1223 | the term of a type has the children and, if sorts are asked for, the sorts its slot needs exactly when its parts do |
| `Translation.ExprFits` | clang-tools/ClangKast/GetKastVisitor.h:59-70 | the same for expressions, whose only failure is a default argument in an item slot |
| `Translation.StmtFits` | clang-tools/ClangKast/GetKastVisitor.h:1257-1405 | the same for statements |
| `Translation.FunctionFits` | clang-tools/ClangKast/GetKastVisitor.h:344-479 | the same for functions, and the function is closed as its form asks |
| `Translation.DeclKindFits` | clang-tools/ClangKast/GetKastVisitor.h:160-936 | the same for declarations |
| `Translation.DeclFits` | clang-tools/ClangKast/GetKastVisitor.h:73-96 | the same for a declaration under its location |
| `Reading.QualIsRead` | clang-tools/ClangKast/GetKastVisitor.h:1252-1255 | read by labels and positions, the term of a qualified type gives back the qualifiers and the type; a type that another stands for reads as that other |
| `Reading.TypeIsRead` | clang-tools/ClangKast/GetKastVisitor.h:938-1223 | the same for types, down to their parameters, sizes and exception specifications |
| `Reading.NameIsRead` | clang-tools/ClangKast/GetKastVisitor.h:285-322 | the same for names; what a name stands for is given back only if the name is missing |
| `Reading.ScopeIsRead` | clang-tools/ClangKast/GetKastVisitor.h:218-256 | the same for qualifiers, outermost first |
| `Reading.ArgIsRead` | clang-tools/ClangKast/GetKastVisitor.h:735-761 | the same for template arguments |
| `Reading.ExprIsRead` | clang-tools/ClangKast/GetKastVisitor.h:59-70 | the same for expressions under their locations, and for default arguments |
| `Reading.KindIsRead` | clang-tools/ClangKast/GetKastVisitor.h:1407-2180 | the same for expressions; a postfix step is told from a prefix one, and loses its second operand |
| `Reading.LambdaIsRead` | clang-tools/ClangKast/GetKastVisitor.h:1891-1925 | the same for lambdas, which lose the captures that are not explicit |
| `Reading.StmtIsRead` | clang-tools/ClangKast/GetKastVisitor.h:1257-1405 | the same for statements |
| `Reading.IfIsRead` | clang-tools/ClangKast/GetKastVisitor.h:1346-1360 | the branch for true is the second child of an if, and the branch for false the third |
| `Reading.ForIsRead` | clang-tools/ClangKast/GetKastVisitor.h:1309-1328 | the children of a for are its start, test, step and body, in this order, each with its own placeholder |
| `Reading.VarIsRead` | clang-tools/ClangKast/GetKastVisitor.h:501-525 | the same for variables, name before mangled name, with the specifiers in order; an alignment is given back in whole bytes |
| `Reading.RecordIsRead` | clang-tools/ClangKast/GetKastVisitor.h:805-829 | the same for records; one that is not complete loses its members |
| `Reading.SignatureIsRead` | clang-tools/ClangKast/GetKastVisitor.h:407-446 | the type of a function tells whether it is a method, static, virtual, pure, explicit or a constructor, and its ref-qualifier and this type |
| `Reading.EndIsRead` | clang-tools/ClangKast/GetKastVisitor.h:457-477 | the end of a function in the definition form tells the initializers that are written, and whether it has a body, is defaulted or is deleted |
| `Reading.FunctionIsRead` | clang-tools/ClangKast/GetKastVisitor.h:344-479 | the same for functions with all that is wrapped around them |
| `Reading.DeclKindIsRead` | clang-tools/ClangKast/GetKastVisitor.h:160-936 | the same for declarations |
| `Reading.DeclIsRead` | clang-tools/ClangKast/GetKastVisitor.h:73-96 | the same for a declaration under its location |
| `Whole.DeclStays` | clang-tools/ClangKast/GetKastVisitor.h:73-936 | a tree without any of the parts that the front end drops is kept as it is, so nothing else is lost |
| `Pipeline.TreeIsRead` | clang-tools/ClangKast/GetKastVisitor.h:73-96 | for every tree that meets the condition, labels and positions alone give back from its term all of the tree that the term keeps |
| `Pipeline.WholeTreeIsRead` | clang-tools/ClangKast/GetKastVisitor.h:73-96 | and the very tree, if it has none of the parts that the front end drops |
| `Pipeline.SameTermSameTree` | clang-tools/ClangKast/GetKastVisitor.h:73-96 | two trees with the same term differ only in what the front end drops |
| `Pipeline.FunctionDeficit` | clang-tools/ClangKast/GetKastVisitor.h:344-479 | the nodes of a function ask for as many children as follow, but for the room of one closing statement in the definition form less the statements that close it |
| `Pipeline.FunctionIsOneTerm` | clang-tools/ClangKast/GetKastVisitor.h:344-479 | for every combination of wrappers, the function's nodes are one term if and only if exactly one of body, defaulted and deleted closes the definition form and none the declaration form |
| `Pipeline.DefaultedWithBodyIsNotOneTerm` | clang-tools/ClangKast/GetKastVisitor.h:471-477 | a defaulted constructor that has been given a body is a counterexample |
| `Pipeline.TermOfIsWellFormed` | clang-tools/ClangKast/GetKastVisitor.h:73-96 | the term of a whole tree is well formed exactly when every function in it is closed as its form asks, no counted declaration is excluded, no template parameter list is missing, and no explicit capture lies beyond the counted range |
| `Pipeline.VectorIsItsTerm` | clang-tools/ClangKast/ClangKast.cc:335-341 | the walk of the vector of a tree takes all of it, as the very term of the tree, if and only if the tree meets that condition |
| `Pipeline.FaultsCancel` | clang-tools/ClangKast/GetKastVisitor.h:395-477 | the vector being one term is weaker: a definition without a body, followed by a defaulted constructor that has been given one, leaves a translation unit whose nodes are one term, though not that of the tree |
| `Pipeline.TextIsSorted` | clang-tools/ClangKast/ClangKast.cc:186-310 | in KORE the text of a tree with a well-formed term is well sorted at K exactly when the tree has no default argument in an item slot |
| `Pipeline.DefaultArgumentIsIllSorted` | clang-tools/ClangKast/GetKastVisitor.h:2177-2180 | the text of a variable initialized by a call that uses a default argument is ill sorted |
| `Pipeline.Translate` | clang-tools/ClangKast/ClangKast.cc:333-351 | for every tree: printing succeeds exactly when the walk of the vector finds a term, and prints the rendering of that term, which parses back to it, in KORE always and in KAST exactly when no label has a back quote; the walk takes the whole vector as the term of the tree if and only if the tree meets the condition, and that term then reads back as the tree less what the front end drops; an excluded tree prints nothing |
| `CStrings.StrChr` | profiles/x86-gcc-limited-libc/src/string.c:110-117 | the first position of a char, the terminator included, or null; null for any int that is not a char value |
| `CStrings.StrChrConforms` | profiles/x86-gcc-limited-libc/src/string.c:110-117 | the result is the one ISO C asks for exactly when the argument is a char value or the converted char does not occur |
| `CStrings.StrChrCanMiss` | profiles/x86-gcc-limited-libc/src/string.c:114-116 | an int outside the range of char misses a char that is there |
| `CStrings.StrSpn` | profiles/x86-gcc-limited-libc/src/string.c:51-57 | how far the first string runs inside the set of the second |
| `CStrings.StrCSpn` | profiles/x86-gcc-limited-libc/src/string.c:33-39 | how far the first string runs outside the set of the second |
| `CStrings.StrPBrk` | profiles/x86-gcc-limited-libc/src/string.c:42-48 | the first char that is in the set, or null if there is none |
| `CStrings.SpanIsUnique` | profiles/x86-gcc-limited-libc/src/string.c:33-57 | there is only one such length |
| `CStrings.StrRChr` | profiles/x86-gcc-limited-libc/src/string.c:140-153 | the last position of a char value, the terminator included, or null exactly if it does not occur, through the contract of strchr; null for any int that is not a char value |
| `CStrings.StrRChrConforms` | profiles/x86-gcc-limited-libc/src/string.c:140-153 | the result is the one ISO C asks for exactly when the argument is a char value or the converted char does not occur |
| `CCompare.CompareIsTotal` | profiles/x86-gcc-limited-libc/src/string.c:94-99 | the byte order is antisymmetric and says equal only of equal strings |
| `CCompare.CompareIsTransitive` | profiles/x86-gcc-limited-libc/src/string.c:94-99 | the byte order is transitive |
| `CCompare.VerdictIsOrder` | profiles/x86-gcc-limited-libc/src/string.c:94-137 | the result at the deciding byte is the order of the two texts cut off at the bound |
| `CCompare.SomethingDecides` | profiles/x86-gcc-limited-libc/src/string.c:94-137 | two strings always have a deciding byte |
| `CCompare.StrCmp` | profiles/x86-gcc-limited-libc/src/string.c:94-99 | the order of the two strings, with nothing read after the deciding byte |
| `CCompare.StrNCmp` | profiles/x86-gcc-limited-libc/src/string.c:120-137 | the order of the strings cut off at n, with nothing read after the deciding byte |
| `CCompare.MemCmp` | profiles/x86-gcc-limited-libc/src/string.c:170-181 | the same order on two blocks of equal length |
| `CCompare.StrStr` | profiles/x86-gcc-limited-libc/src/string.c:60-70 | the first position where the whole needle occurs, and null exactly when there is none, through the contracts of strchr and strncmp |
| `StrTok.StrTokR` | profiles/x86-gcc-limited-libc/src/string.c:73-86 | one call does what the step of the specification does to memory, saved pointer and result |
| `StrTok.Tokenizer.StrTok` | profiles/x86-gcc-limited-libc/src/string.c:89-92 | the same with the pointer saved in the object |
| `StrTok.TokensAreTheMaximalRuns` | profiles/x86-gcc-limited-libc/src/string.c:73-86 | the tokens are exactly the maximal runs without a delimiter |
| `StrTok.TokensAreInOrder` | profiles/x86-gcc-limited-libc/src/string.c:73-86 | the tokens are disjoint and in order |
| `StrTok.StepTakesFirst` | profiles/x86-gcc-limited-libc/src/string.c:73-86 | a call takes the first token under its delimiters, overwrites only the byte that ends it, leaves a shorter string with the tokens of the later calls, and with no token left changes nothing |
| `StrTok.TokenTextsStay` | profiles/x86-gcc-limited-libc/src/string.c:73-86 | a token that was returned stays a string of its own through all later calls |
| `StrTok.DelimitersStay` | profiles/x86-gcc-limited-libc/src/string.c:73-86 | the delimiter string is not changed by the run |
| `StrTok.RunningSteps` | profiles/x86-gcc-limited-libc/src/string.c:73-86 | a call keeps the invariant of a run, with delimiters that may change from call to call, and returns null for ever once one call has found no token |
| `StrTok.TakenIsSearched` | profiles/x86-gcc-limited-libc/src/string.c:73-86 | each token of a run is the next run without a delimiter of its own call, and the call that finds none has only delimiters before it, as section 7.24.5.8 of ISO C11 describes |
| `StrTok.TakenWithTheSame` | profiles/x86-gcc-limited-libc/src/string.c:73-86 | with the same delimiters in every call, the tokens are the maximal runs, as many as there are calls |
| `StrTok.Calls` | profiles/x86-gcc-limited-libc/src/string.c:73-86 | over any number of calls, each with delimiters of its own, the results are the tokens of the original string in order and then null, and memory is the original with the end of each returned token cut |
| `CCopy.MemCpy` | profiles/x86-gcc-limited-libc/src/string.c:159-167 | the block is copied and nothing else changes, for arrays or blocks that do not overlap |
| `CCopy.MemMove` | profiles/x86-gcc-limited-libc/src/string.c:101-107 | the block as it was before the call is copied, for every overlap, with both inner copies disjoint |
| `CCopy.StrNCpy` | profiles/x86-gcc-limited-libc/src/string.c:6-17 | exactly n bytes are written: the prefix, then zeros |
| `CCopy.StrNCat` | profiles/x86-gcc-limited-libc/src/string.c:195-211 | at most n chars and one terminator are written after the first string, and nothing else |
| `Atoi.Atoi` | profiles/x86-gcc-limited-libc/src/stdlib.c:3-8 | the value of the leading digits; no step overflows exactly when it is at most INT_MAX - 48 |
| `Atoi.ValueIsPlaceSum` | profiles/x86-gcc-limited-libc/src/stdlib.c:3-8 | the value of the digits is the sum of each digit times ten to its place from the right |
| `Atoi.NumeralIsReadBack` | profiles/x86-gcc-limited-libc/src/stdlib.c:3-8 | the bytes of the decimal numeral of a number have that number as their value |
| `Atoi.DigitsOf` | profiles/x86-gcc-limited-libc/src/stdlib.c:3-8 | every number is the value of some digits, so the 48 ints above the bound are all out of reach |
| `Shifts.NumPositive` | tests/unit-pass/20040703-1.c:16-26 | the sign bit of a trimmed number is clear exactly when the number is in the lower half of its width |
| `Shifts.NumTrim` | tests/unit-pass/20040703-1.c:28-45 | the remainder by 2 to the width, for every width |
| `Shifts.ExtendSign` | tests/unit-pass/20040703-1.c:63-67 | the extended parts stand for the number as a signed or unsigned integer |
| `Shifts.BitsDown` | tests/unit-pass/20040703-1.c:76-80 | the two parts shifted down hold the quotient, rounded down |
| `Shifts.ShiftParts` | tests/unit-pass/20040703-1.c:69-80 | the word step and the bit step together divide by 2 to the count, rounding down |
| `Shifts.NumRShift` | tests/unit-pass/20040703-1.c:48-86 | floor division of the signed or unsigned value by 2 to the count, modulo 2 to the width, for widths 1 to 64 and every count |
| `Shifts.BitsUp` | tests/unit-pass/20040703-1.c:110-114 | the two parts shifted up hold the product up to whole double words |
| `Shifts.PartsUp` | tests/unit-pass/20040703-1.c:101-114 | the word step and the bit step together multiply by 2 to the count up to whole double words |
| `Shifts.BackIffKept` | tests/unit-pass/20040703-1.c:121-122 | shifting a truncated product back gives the multiplicand exactly when nothing was truncated |
| `Shifts.OverflowIsLoss` | tests/unit-pass/20040703-1.c:117-123 | comparing the shifted-back result with the original detects exactly the products that do not fit |
| `Shifts.NumLShift` | tests/unit-pass/20040703-1.c:90-127 | multiplication by 2 to the count modulo 2 to the width; the overflow flag of a signed number is set exactly when the true product does not fit, and otherwise the result is that product |
| `CallSites.CallSitesVisitor.TraverseType` | clang-tools/CallSites/CallSites.cc:69-211 | appends the code of the type, or what is printed before it throws |
| `CallSites.CallSitesVisitor.ProcessRecord` | clang-tools/CallSites/CallSites.cc:189-206 | appends the tag, the number of fields counted by the first loop, and the codes of the fields |
| `CallSites.CallSitesVisitor.VisitCallExpr` | clang-tools/CallSites/CallSites.cc:228-251 | appends the codes of the return type and the arguments, the number of parameters and the kind |
| `CallSites.CallSitesVisitor.HandleTranslationUnit` | clang-tools/CallSites/CallSites.cc:273-275 | appends the lines of all the visits, in order, up to the first that throws |
| `CallSites.TypeTextIsCode` | clang-tools/CallSites/CallSites.cc:69-206 | a type prints without throwing exactly when it is supported, and then prints the code of its erased type, with char as the option says |
| `CallSites.VisitTextIsLine` | clang-tools/CallSites/CallSites.cc:228-251 | a call prints without throwing exactly when its types are supported, and then prints the line of the erased call |
| `CallSites.CallReads` | clang-tools/CallSites/CallSites.cc:228-251 | the line of a call reads back as its erased types, the number of parameters of its prototype and whether it is variadic; without a prototype, as its number of arguments and not variadic |
| `CallSites.SameLineIffSameCall` | clang-tools/CallSites/CallSites.cc:228-251 | two calls print the same line exactly when they are equal after erasure |
| `CallSites.OutputIsDecodable` | clang-tools/CallSites/CallSites.cc:228-260 | the output of a whole run reads back, in one pass, as the erased calls and the external names in order |
| `CharOption.TypeTextIsMarks` | clang-tools/CallSites/CallSites.cc:69-206 | a supported type is printed as the text of its marks, whatever the char option |
| `CharOption.MarksAreUnique` | clang-tools/CallSites/CallSites.cc:99-187 | when the code of plain char cannot be read as other codes, a text is written with one sequence of marks only |
| `CharOption.Collision` | clang-tools/CallSites/CallSites.cc:99-206 | when it can, there are two lists of types, equally long, that print alike and differ after erasure |
| `CharOption.CharOptionIsExact` | clang-tools/CallSites/CallSites.cc:69-251 | for every value of the char option: types, and lines about calls, print alike exactly when they are equal after erasure, if and only if the option names a scalar type or its code cannot be read as the codes of other types |
| `CharOption.ReadableWord` | clang-tools/CallSites/CallSites.cc:107-109 | an option of one word can be so read exactly when the word, after its leading letters c, is a, a scalar name or a tag with a number |
| `CharOption.SpelledLikeComplexFloat` | clang-tools/CallSites/CallSites.cc:107-109 | char spelled cf is unsafe: it looks like a complex float |
| `CallCodes.TypeRead` | clang-tools/CallSites/CallSites.cc:69-206 | every type code reads back, whatever follows it, at every depth |
| `CallCodes.CodesArePrefixFree` | clang-tools/CallSites/CallSites.cc:69-206 | no type code begins another one |
| `CallCodes.ReadTypeIsSound` | clang-tools/CallSites/CallSites.cc:69-206 | only type codes are read as types |
| `CallCodes.LinesAreUniquelyDecodable` | clang-tools/CallSites/CallSites.cc:228-251 | reading a text gives a line and a rest if and only if the text is the code of that line followed by that rest |
| `NativeServer.Server.WriteDirty` | native-server/server.c:14-21 | puts the start of the buffer in place and stores exactly at the places that differ; its length is at most 8192 |
| `NativeServer.Server.RecvDirty` | native-server/server.c:46-56 | for every length the chunked path leaves the memory a direct receive would, reads the same bytes, and stores exactly at the places that differ |
| `NativeServer.Server.RecvRegion` | native-server/server.c:40-59 | receives one region, by either path, and records its address and size |
| `NativeServer.Server.RecvRegions` | native-server/server.c:39-60 | receives all the regions in order |
| `NativeServer.Server.CallAndReply` | native-server/server.c:61-69 | calls the trampoline, then sends the contents of the recorded regions as the call left them, in order |
| `NativeServer.Server.InvokeCall` | native-server/server.c:23-70 | a call with at most 8192 regions has its meaning and reply; with more it is an error that changes nothing |
| `NativeServer.Server.GetSymbols` | native-server/server.c:72-88 | sends the whole table |
| `NativeServer.Server.AllocMemory` | native-server/server.c:90-98 | allocates and sends the address |
| `NativeServer.Server.ReadMemory` | native-server/server.c:100-108 | sends the bytes asked for |
| `NativeServer.Server.Command` | native-server/server.c:114-138 | one turn of the loop does what its command means, or reports the error, and moves the cursor over exactly that command |
| `NativeServer.Server.Run` | native-server/server.c:110-145 | for every sequence of requests laid end to end and every way to end it: each invoke calls its trampoline with its function and its return buffer on a memory in which each of its regions holds its last-written data and nothing else has changed, and is answered with the contents of the regions after the call; a read is answered with the bytes at its address, an allocation with its address; the cursor is on an opcode before each, all of the output is flushed, and nothing after the last command is read |
| `NativeServer.LoadedHolds` | native-server/server.c:39-60 | after the regions of a call are received, each byte that they cover has the value that the last region covering it carries, and every other byte is as it was |
| `NativeServer.SessionIsMeant` | native-server/server.c:110-145 | what the requests mean one after the other is the relation between states, memories seen and replies that names each field of a request where it is used |
| `NativeServer.RequestsReachThePlatform` | native-server/server.c:61-98 | a platform that records how it is called has recorded the invoke and allocation requests, field by field and in order |
| `NativeServer.DifferingIsExact` | native-server/server.c:14-21 | the places stored to are all those that differ and no other, once and in order |
| `NativeServer.DifferingInTwo` | native-server/server.c:49-56 | a block put in two parts stores at the same places and leaves the same memory as at once |
| `NativeServer.CareDoesNotShow` | native-server/server.c:46-59 | the dirty flag of a region makes no difference to the memory |
| `Wire.NumberOfLittle` | native-server/server.c:27-33 | a number that fits its width is received as it was sent |
| `Wire.LittleAt` | native-server/server.c:27-33 | byte i of a number sent is its digit of weight 256 to the i |
| `Wire.TurnRead` | native-server/server.c:114-138 | each command reads back field by field, whatever follows it |
| `Wire.SessionRead` | native-server/server.c:110-145 | a session reads back as its requests and its ending, whatever follows it |
| `Wire.RepliesRead` | native-server/server.c:62-107 | a client that knows its requests reads the replies back |
| `Wire.SessionIsUnique` | native-server/server.c:110-145 | a byte stream is at most one session: its requests, its ending and what is left over |

## Left out

- The K definitions of the semantics themselves: they are not code in the modelled languages.
- Clang's traversal, mangling and source manager: other code; names and locations are given.
- Visitor.GetKastVisitor.TraverseUnqualified: typedef, reference, elaborated, decltype and member pointer types and the like, which would add easy cases of the same shape.
- Visitor.GetKastVisitor.TraverseKind: casts, subscripts, sizeof, throw, delete and the like, for the same reason.
- Visitor.GetKastVisitor.TraverseStmt: declaration, return, goto, label, do and default statements, for the same reason.
- Visitor.GetKastVisitor.TraverseDeclKind: typedef, linkage, namespace, friend and using declarations, for the same reason.
- Trees that the front end throws at (an operator with a number of arguments it does not take, a class specialization of undeclared kind, unknown enumerators): the types of `Ast` leave them out.
- Numbers and floating-point values of literals: formatting by library code; integer literals are decimal numerals.
- KastParser.TermIsRead: the arrows of KAST flatten a sequence directly inside a sequence, and injections are not written, so the text gives back flat items and no sorts of applications.
- NativeServer.Server.Run: the stream is taken to hold each command whole; a stream that ends inside a command is the platform's business.
- NativeServer.Server.SendMessage: pipes, opening and closing of files, and their errors.
- Atoi.Atoi: signs and leading blanks are not handled by the source, and so not here.
- CCopy.MemMove: the buffer is always allocated; failure of `malloc` is not handled by the source.
- Shifts.NumRShift: widths outside 1 to 64, for which the source shifts by an undefined count or has no room for the number.
- `memchr`, `strcat`, byte swapping, `math.c`, the header files and the other regression programs: small, floating point, or without an algorithm.
