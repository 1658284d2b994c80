/** The tool that lists the calls of a program, with the types at each call after ABI erasure. */
module CallSites {
  import opened Sequences
  import opened Wrappers
  import opened Decimal
  import opened CallCodes

  datatype BuiltinKind =
    | KVoid | KBool | KCharS | KCharU | KSChar | KUChar | KShort | KUShort | KInt | KUInt
    | KLong | KULong | KLongLong | KULongLong | KFloat | KDouble | KLongDouble | KOther

  /** Types written as pointers; what they point to, hold or return is never visited. */
  datatype PointerKind =
    ConstantArray | IncompleteArray | VariableArray | FunctionNoProto | FunctionProto | PlainPointer | Decayed

  datatype RecordKind = IsStruct | IsUnion | IsOther

  datatype CType =
    | BuiltinType(kind: BuiltinKind)
    | PointerType(form: PointerKind)
    | ComplexType(element: CType)
    | AtomicType(value: CType)
    | EnumType(promotion: CType)
    | ElaboratedType(desugared: CType)
    | TypedefType(desugared: CType)
    | RecordType(record: RecordKind, fields: seq<CType>)
    | OtherType

  datatype Prototype = NoPrototype | WithPrototype(params: nat, variadic: bool)

  /** What the traversal of a program meets: calls and references to declared names. */
  datatype Visit =
    | CallExpr(ret: CType, args: seq<CType>, prototype: Prototype)
    | DeclRefExpr(name: string, external: bool)

  // ----- What is printed, up to the point where an unsupported type throws -----

  datatype Printed = Printed(text: string, ok: bool)

  function Then(p: Printed, q: Printed): Printed {
    if p.ok then Printed(p.text + q.text, q.ok) else p
  }

  function Put(s: string): Printed {
    Printed(s, true)
  }

  const THROWN := Printed("", false)

  function BuiltinText(kind: BuiltinKind, charType: string): Printed {
    match kind
    case KVoid => Put("v_")
    case KSChar => Put("sc_")
    case KCharS => Put(charType + "_")
    case KCharU => Put(charType + "_")
    case KBool => Put("b_")
    case KUChar => Put("uc_")
    case KUShort => Put("us_")
    case KUInt => Put("ui_")
    case KULong => Put("ul_")
    case KULongLong => Put("ull_")
    case KShort => Put("ss_")
    case KInt => Put("si_")
    case KLong => Put("sl_")
    case KLongLong => Put("ll_")
    case KFloat => Put("f_")
    case KDouble => Put("d_")
    case KLongDouble => Put("ld_")
    case KOther => THROWN
  }

  function TypeText(t: CType, charType: string): Printed {
    match t
    case BuiltinType(kind) => BuiltinText(kind, charType)
    case PointerType(_) => Put("p_")
    case ComplexType(e) => Then(Put("c"), TypeText(e, charType))
    case AtomicType(v) => Then(Put("a_"), TypeText(v, charType))
    case EnumType(p) => TypeText(p, charType)
    case ElaboratedType(d) => TypeText(d, charType)
    case TypedefType(d) => TypeText(d, charType)
    case RecordType(record, fields) =>
      if record.IsOther? then THROWN
      else Then(Put((if record.IsStruct? then "s" else "u") + Numeral(|fields|) + "_"), TypesText(fields, charType))
    case OtherType => THROWN
  }

  function TypesText(ts: seq<CType>, charType: string): Printed {
    if ts == [] then Put("") else Then(TypeText(ts[0], charType), TypesText(ts[1..], charType))
  }

  function EndText(args: seq<CType>, prototype: Prototype): string {
    match prototype
    case WithPrototype(params, variadic) => Numeral(params) + "_" + (if variadic then "v\n" else "f\n")
    case NoPrototype => Numeral(|args|) + "_f\n"
  }

  function VisitText(v: Visit, charType: string): Printed {
    match v
    case CallExpr(ret, args, prototype) =>
      Then(Then(TypeText(ret, charType), TypesText(args, charType)), Put(EndText(args, prototype)))
    case DeclRefExpr(name, external) => Put(if external then "\t" + name + "\n" else "")
  }

  function OutputText(vs: seq<Visit>, charType: string): Printed {
    if vs == [] then Put("") else Then(VisitText(vs[0], charType), OutputText(vs[1..], charType))
  }

  // ----- The visitor -----

  lemma ThenAssoc(p: Printed, q: Printed, r: Printed)
    ensures Then(Then(p, q), r) == Then(p, Then(q, r))
  {
    Assoc(p.text, q.text, r.text);
  }

  lemma {:induction false} TypesTextSnoc(ts: seq<CType>, k: nat, charType: string)
    requires k < |ts|
    ensures TypesText(ts[..k + 1], charType) == Then(TypesText(ts[..k], charType), TypeText(ts[k], charType))
  {
    if k > 0 {
      assert ts[..k + 1][1..] == ts[1..][..k] && ts[..k][1..] == ts[1..][..k - 1];
      TypesTextSnoc(ts[1..], k - 1, charType);
      ThenAssoc(TypeText(ts[0], charType), TypesText(ts[1..][..k - 1], charType), TypeText(ts[k], charType));
    }
  }

  /** Once a type has thrown, the later ones are not reached. */
  lemma {:induction false} TypesTextThrows(ts: seq<CType>, k: nat, charType: string)
    requires k <= |ts| && !TypesText(ts[..k], charType).ok
    ensures TypesText(ts, charType) == TypesText(ts[..k], charType)
  {
    assert ts[..k][1..] == ts[1..][..k - 1];
    if TypeText(ts[0], charType).ok {
      TypesTextThrows(ts[1..], k - 1, charType);
    }
  }

  lemma {:induction false} OutputTextSnoc(vs: seq<Visit>, k: nat, charType: string)
    requires k < |vs|
    ensures OutputText(vs[..k + 1], charType) == Then(OutputText(vs[..k], charType), VisitText(vs[k], charType))
  {
    if k > 0 {
      assert vs[..k + 1][1..] == vs[1..][..k] && vs[..k][1..] == vs[1..][..k - 1];
      OutputTextSnoc(vs[1..], k - 1, charType);
      ThenAssoc(VisitText(vs[0], charType), OutputText(vs[1..][..k - 1], charType), VisitText(vs[k], charType));
    }
  }

  lemma {:induction false} OutputTextThrows(vs: seq<Visit>, k: nat, charType: string)
    requires k <= |vs| && !OutputText(vs[..k], charType).ok
    ensures OutputText(vs, charType) == OutputText(vs[..k], charType)
  {
    assert vs[..k][1..] == vs[1..][..k - 1];
    if VisitText(vs[0], charType).ok {
      OutputTextThrows(vs[1..], k - 1, charType);
    }
  }

  /** Each method appends to the output stream; the result is false when the visitor throws. */
  class CallSitesVisitor {
    const charType: string
    var out: string

    constructor (charType: string)
      ensures this.charType == charType && out == ""
    {
      this.charType := charType;
      out := "";
    }

    method VisitBuiltinType(kind: BuiltinKind) returns (ok: bool)
      modifies this
      ensures out == old(out) + BuiltinText(kind, charType).text && ok == BuiltinText(kind, charType).ok
    {
      ok := true;
      match kind
      case KVoid => out := out + "v_";
      case KSChar => out := out + "sc_";
      case KCharS => out := out + (charType + "_");
      case KCharU => out := out + (charType + "_");
      case KBool => out := out + "b_";
      case KUChar => out := out + "uc_";
      case KUShort => out := out + "us_";
      case KUInt => out := out + "ui_";
      case KULong => out := out + "ul_";
      case KULongLong => out := out + "ull_";
      case KShort => out := out + "ss_";
      case KInt => out := out + "si_";
      case KLong => out := out + "sl_";
      case KLongLong => out := out + "ll_";
      case KFloat => out := out + "f_";
      case KDouble => out := out + "d_";
      case KLongDouble => out := out + "ld_";
      case KOther => ok := false;
    }

    method TraverseType(t: CType) returns (ok: bool)
      modifies this
      ensures out == old(out) + TypeText(t, charType).text && ok == TypeText(t, charType).ok
      decreases t, 0
    {
      match t
      case BuiltinType(kind) =>
        ok := VisitBuiltinType(kind);
      case PointerType(_) =>
        out := out + "p_";
        ok := true;
      case ComplexType(e) =>
        out := out + "c";
        ok := TraverseType(e);
      case AtomicType(v) =>
        out := out + "a_";
        ok := TraverseType(v);
      case EnumType(p) =>
        ok := TraverseType(p);
      case ElaboratedType(d) =>
        ok := TraverseType(d);
      case TypedefType(d) =>
        ok := TraverseType(d);
      case RecordType(record, fields) =>
        ok := ProcessRecord(record, fields);
      case OtherType =>
        ok := false;
    }

    method ProcessRecord(record: RecordKind, fields: seq<CType>) returns (ok: bool)
      modifies this
      ensures out == old(out) + TypeText(RecordType(record, fields), charType).text
      ensures ok == TypeText(RecordType(record, fields), charType).ok
      decreases fields
    {
      if record.IsStruct? {
        out := out + "s";
      } else if record.IsUnion? {
        out := out + "u";
      } else {
        return false;
      }
      var nfields := 0;
      for i := 0 to |fields|
        invariant nfields == i
      {
        nfields := nfields + 1;
      }
      out := out + Numeral(nfields) + "_";
      ok := TraverseTypes(fields);
    }

    /** The fields of a record or the arguments of a call, one after the other. */
    method TraverseTypes(ts: seq<CType>) returns (ok: bool)
      modifies this
      ensures out == old(out) + TypesText(ts, charType).text && ok == TypesText(ts, charType).ok
      decreases ts, 0
    {
      for i := 0 to |ts|
        invariant TypesText(ts[..i], charType) == Put(TypesText(ts[..i], charType).text)
        invariant out == old(out) + TypesText(ts[..i], charType).text
      {
        TypesTextSnoc(ts, i, charType);
        Assoc(old(out), TypesText(ts[..i], charType).text, TypeText(ts[i], charType).text);
        ok := TraverseType(ts[i]);
        if !ok {
          TypesTextThrows(ts, i + 1, charType);
          return;
        }
      }
      assert ts[..|ts|] == ts;
      ok := true;
    }
  
    method VisitCallExpr(ret: CType, args: seq<CType>, prototype: Prototype) returns (ok: bool)
      modifies this
      ensures out == old(out) + VisitText(CallExpr(ret, args, prototype), charType).text
      ensures ok == VisitText(CallExpr(ret, args, prototype), charType).ok
    {
      ok := TraverseType(ret);
      if !ok {
        return;
      }
      ok := TraverseTypes(args);
      if !ok {
        Assoc(old(out), TypeText(ret, charType).text, TypesText(args, charType).text);
        return;
      }
      ghost var types := TypeText(ret, charType).text + TypesText(args, charType).text;
      Assoc(old(out), TypeText(ret, charType).text, TypesText(args, charType).text);
      Assoc(old(out), types, EndText(args, prototype));
      match prototype
      case WithPrototype(params, variadic) =>
        out := out + (Numeral(params) + "_" + (if variadic then "v\n" else "f\n"));
      case NoPrototype =>
        out := out + (Numeral(|args|) + "_f\n");
    }

    method VisitDeclRefExpr(name: string, external: bool)
      modifies this
      ensures out == old(out) + VisitText(DeclRefExpr(name, external), charType).text
    {
      if external {
        out := out + "\t" + name + "\n";
      }
    }

    method VisitExpr(v: Visit) returns (ok: bool)
      modifies this
      ensures out == old(out) + VisitText(v, charType).text && ok == VisitText(v, charType).ok
    {
      match v
      case CallExpr(ret, args, prototype) =>
        ok := VisitCallExpr(ret, args, prototype);
      case DeclRefExpr(name, external) =>
        VisitDeclRefExpr(name, external);
        ok := true;
    }

    /** The whole program: every call and reference, in the order the traversal meets them. */
    method HandleTranslationUnit(visits: seq<Visit>) returns (ok: bool)
      modifies this
      ensures out == old(out) + OutputText(visits, charType).text && ok == OutputText(visits, charType).ok
    {
      for i := 0 to |visits|
        invariant OutputText(visits[..i], charType).ok
        invariant out == old(out) + OutputText(visits[..i], charType).text
      {
        OutputTextSnoc(visits, i, charType);
        Assoc(old(out), OutputText(visits[..i], charType).text, VisitText(visits[i], charType).text);
        ok := VisitExpr(visits[i]);
        if !ok {
          OutputTextThrows(visits, i + 1, charType);
          return;
        }
      }
      assert visits[..|visits|] == visits;
      ok := true;
    }
  }

  // ----- What the text says: types after ABI erasure -----

  /** The types that have a code. */
  predicate Supported(t: CType) {
    match t
    case BuiltinType(kind) => !kind.KOther?
    case PointerType(_) => true
    case ComplexType(e) => Supported(e)
    case AtomicType(v) => Supported(v)
    case EnumType(p) => Supported(p)
    case ElaboratedType(d) => Supported(d)
    case TypedefType(d) => Supported(d)
    case RecordType(record, fields) => !record.IsOther? && forall i :: 0 <= i < |fields| ==> Supported(fields[i])
    case OtherType => false
  }

  ghost predicate AllSupported(ts: seq<CType>) {
    forall i :: 0 <= i < |ts| ==> Supported(ts[i])
  }

  /** Plain char is one of the other two character types, as the option says. */
  function BuiltinScalar(kind: BuiltinKind, plain: Scalar): Scalar
    requires !kind.KOther?
  {
    match kind
    case KVoid => Void
    case KBool => Bool
    case KCharS => plain
    case KCharU => plain
    case KSChar => SChar
    case KUChar => UChar
    case KShort => Short
    case KUShort => UShort
    case KInt => Int
    case KUInt => UInt
    case KLong => Long
    case KULong => ULong
    case KLongLong => LongLong
    case KULongLong => ULongLong
    case KFloat => Float
    case KDouble => Double
    case KLongDouble => LongDouble
  }

  /** Enumerations become their promoted type, names for types disappear, and pointers are all alike. */
  function Erase(t: CType, plain: Scalar): Abi
    requires Supported(t)
  {
    match t
    case BuiltinType(kind) => ScalarType(BuiltinScalar(kind, plain))
    case PointerType(_) => ScalarType(Pointer)
    case ComplexType(e) => ComplexOf(Erase(e, plain))
    case AtomicType(v) => AtomicOf(Erase(v, plain))
    case EnumType(p) => Erase(p, plain)
    case ElaboratedType(d) => Erase(d, plain)
    case TypedefType(d) => Erase(d, plain)
    case RecordType(record, fields) =>
      Aggregate(if record.IsStruct? then Struct else Union,
                seq(|fields|, i requires 0 <= i < |fields| => Erase(fields[i], plain)))
  }

  ghost function EraseAll(ts: seq<CType>, plain: Scalar): (r: seq<Abi>)
    requires AllSupported(ts)
    ensures |r| == |ts| && forall i :: 0 <= i < |ts| ==> r[i] == Erase(ts[i], plain)
  {
    seq(|ts|, i requires 0 <= i < |ts| => Erase(ts[i], plain))
  }

  lemma BuiltinTextIsCode(kind: BuiltinKind, plain: Scalar)
    ensures BuiltinText(kind, Name(plain)).ok <==> !kind.KOther?
    ensures !kind.KOther? ==> BuiltinText(kind, Name(plain)).text == Name(BuiltinScalar(kind, plain)) + "_"
  {
  }

  /** A type is printed without throwing exactly when it is supported, and then its code is printed. */
  lemma {:induction false} TypeTextIsCode(t: CType, plain: Scalar)
    ensures TypeText(t, Name(plain)).ok <==> Supported(t)
    ensures Supported(t) ==> TypeText(t, Name(plain)).text == Code(Erase(t, plain))
    decreases t, 0
  {
    match t
    case BuiltinType(kind) => BuiltinTextIsCode(kind, plain);
    case PointerType(_) =>
    case ComplexType(e) => TypeTextIsCode(e, plain);
    case AtomicType(v) => TypeTextIsCode(v, plain);
    case EnumType(p) => TypeTextIsCode(p, plain);
    case ElaboratedType(d) => TypeTextIsCode(d, plain);
    case TypedefType(d) => TypeTextIsCode(d, plain);
    case RecordType(record, fields) =>
      TypesTextIsCodes(fields, plain);
      if AllSupported(fields) && !record.IsOther? {
        assert Erase(t, plain).fields == EraseAll(fields, plain);
      }
    case OtherType =>
  }

  lemma {:induction false} TypesTextIsCodes(ts: seq<CType>, plain: Scalar)
    ensures TypesText(ts, Name(plain)).ok <==> AllSupported(ts)
    ensures AllSupported(ts) ==> TypesText(ts, Name(plain)).text == Codes(EraseAll(ts, plain))
    decreases ts, 0
  {
    if ts != [] {
      TypeTextIsCode(ts[0], plain);
      TypesTextIsCodes(ts[1..], plain);
      FirstAndRest(ts);
      if AllSupported(ts) {
        assert EraseAll(ts, plain)[1..] == EraseAll(ts[1..], plain);
      }
    }
  }

  lemma FirstAndRest(ts: seq<CType>)
    requires ts != []
    ensures AllSupported(ts) <==> Supported(ts[0]) && AllSupported(ts[1..])
  {
    assert ts == [ts[0]] + ts[1..];
  }

  predicate IsPlainChar(kind: BuiltinKind) {
    kind.KCharS? || kind.KCharU?
  }

  /** Builtin types other than plain char keep apart from each other, and from pointers. */
  lemma KindsStayApart(j: BuiltinKind, k: BuiltinKind, plain: Scalar)
    requires !j.KOther? && !k.KOther? && !IsPlainChar(j) && !IsPlainChar(k)
    ensures BuiltinScalar(j, plain) == BuiltinScalar(k, plain) <==> j == k
    ensures BuiltinScalar(j, plain) != Pointer
  {
  }

  // ----- Lines and whole outputs -----

  ghost predicate SupportedVisit(v: Visit) {
    v.CallExpr? ==> Supported(v.ret) && AllSupported(v.args)
  }

  /** What a line about a call says. */
  ghost function LineOf(v: Visit, plain: Scalar): Line
    requires v.CallExpr? && SupportedVisit(v)
  {
    Line(Erase(v.ret, plain), EraseAll(v.args, plain),
         if v.prototype.NoPrototype? then |v.args| else v.prototype.params,
         v.prototype.WithPrototype? && v.prototype.variadic)
  }

  lemma TailOfLine(v: Visit, plain: Scalar)
    requires v.CallExpr? && SupportedVisit(v)
    ensures EndText(v.args, v.prototype) == TailCode(LineOf(v, plain).params, LineOf(v, plain).variadic)
  {
    Assoc(Numeral(LineOf(v, plain).params), "_", "f\n");
    assert "_" + "f\n" == "_f\n";
  }

  lemma VisitTextIsLine(v: Visit, plain: Scalar)
    requires v.CallExpr?
    ensures VisitText(v, Name(plain)).ok <==> SupportedVisit(v)
    ensures SupportedVisit(v) ==> VisitText(v, Name(plain)).text == LineCode(LineOf(v, plain))
  {
    TypeTextIsCode(v.ret, plain);
    TypesTextIsCodes(v.args, plain);
    if SupportedVisit(v) {
      TailOfLine(v, plain);
    }
  }

  /** Two calls print the same line exactly when they are the same call after erasure. */
  lemma SameLineIffSameCall(v: Visit, w: Visit, plain: Scalar)
    requires v.CallExpr? && w.CallExpr? && SupportedVisit(v) && SupportedVisit(w)
    ensures VisitText(v, Name(plain)).text == VisitText(w, Name(plain)).text <==> LineOf(v, plain) == LineOf(w, plain)
  {
    VisitTextIsLine(v, plain);
    VisitTextIsLine(w, plain);
    LineRead(LineOf(v, plain), "");
    LineRead(LineOf(w, plain), "");
    assert LineCode(LineOf(v, plain)) + "" == LineCode(LineOf(v, plain));
    assert LineCode(LineOf(w, plain)) + "" == LineCode(LineOf(w, plain));
  }

  /** A call with a prototype reads back with the number of parameters and the kind of the prototype; a
      call without one with as many parameters as arguments, and not variadic. */
  lemma CallReads(ret: CType, args: seq<CType>, prototype: Prototype, plain: Scalar)
    requires Supported(ret) && AllSupported(args)
    ensures var s := VisitText(CallExpr(ret, args, prototype), Name(plain)).text;
            match prototype
            case WithPrototype(params, variadic) =>
              ReadLine(s) == Some((Line(Erase(ret, plain), EraseAll(args, plain), params, variadic), ""))
            case NoPrototype =>
              ReadLine(s) == Some((Line(Erase(ret, plain), EraseAll(args, plain), |args|, false), ""))
  {
    var v := CallExpr(ret, args, prototype);
    VisitTextIsLine(v, plain);
    LineRead(LineOf(v, plain), "");
    assert LineCode(LineOf(v, plain)) + "" == LineCode(LineOf(v, plain));
  }

  datatype Entry = CallEntry(line: Line) | NameEntry(name: string)

  /** What the output says about a run. */
  ghost function Entries(vs: seq<Visit>, plain: Scalar): seq<Entry>
    requires forall i :: 0 <= i < |vs| ==> SupportedVisit(vs[i])
  {
    if vs == [] then [] else EntryOf(vs[0], plain) + Entries(vs[1..], plain)
  }

  ghost function EntryOf(v: Visit, plain: Scalar): seq<Entry>
    requires SupportedVisit(v)
  {
    match v
    case CallExpr(_, _, _) => [CallEntry(LineOf(v, plain))]
    case DeclRefExpr(name, external) => if external then [NameEntry(name)] else []
  }

  /** The text before the end of the line and the text after it. */
  function FirstLine(s: string): (r: Option<(string, string)>)
    ensures r.Some? ==> |r.value.1| < |s|
  {
    if s == "" then None
    else if s[0] == '\n' then Some(("", s[1..]))
    else match FirstLine(s[1..])
      case None => None
      case Some((line, rest)) => Some(([s[0]] + line, rest))
  }

  /** A tab starts a name; anything else is a call. */
  function ReadOutput(s: string): Option<seq<Entry>>
    decreases |s|
  {
    if s == "" then Some([])
    else if s[0] == '\t' then
      match FirstLine(s[1..])
      case None => None
      case Some((name, rest)) =>
        match ReadOutput(rest)
        case None => None
        case Some(es) => Some([NameEntry(name)] + es)
    else
      match ReadLine(s)
      case None => None
      case Some((l, rest)) =>
        match ReadOutput(rest)
        case None => None
        case Some(es) => Some([CallEntry(l)] + es)
  }

  lemma {:induction false} FirstLineRead(line: string, rest: string)
    requires '\n' !in line
    ensures FirstLine(line + "\n" + rest) == Some((line, rest))
  {
    var s := line + "\n" + rest;
    if line == "" {
      assert s[1..] == rest;
    } else {
      assert s[1..] == line[1..] + "\n" + rest;
      FirstLineRead(line[1..], rest);
      assert [line[0]] + line[1..] == line;
    }
  }

  lemma CodeHasNoTab(t: Abi)
    ensures Code(t) != "" && Code(t)[0] != '\t'
  {
    match t
    case ScalarType(k) =>
    case ComplexOf(_) =>
    case AtomicOf(_) =>
    case Aggregate(_, _) =>
  }

  lemma NameThenOutput(name: string, rest: string)
    requires '\n' !in name
    ensures ReadOutput("\t" + name + "\n" + rest)
         == match ReadOutput(rest) case None => None case Some(es) => Some([NameEntry(name)] + es)
  {
    var s := "\t" + name + "\n" + rest;
    assert s[1..] == name + "\n" + rest;
    FirstLineRead(name, rest);
  }

  lemma LineThenOutput(l: Line, rest: string)
    ensures ReadOutput(LineCode(l) + rest)
         == match ReadOutput(rest) case None => None case Some(es) => Some([CallEntry(l)] + es)
  {
    LineRead(l, rest);
    CodeHasNoTab(l.ret);
    assert (LineCode(l) + rest)[0] == Code(l.ret)[0];
  }

  /**
   * The output of a whole run over supported types is read back, in one pass from left
   * to right, as the calls after erasure and the external names, in order.
   */
  lemma {:induction false} OutputIsDecodable(vs: seq<Visit>, plain: Scalar)
    requires forall i :: 0 <= i < |vs| ==> SupportedVisit(vs[i])
    requires forall i :: 0 <= i < |vs| && vs[i].DeclRefExpr? ==> '\n' !in vs[i].name
    ensures OutputText(vs, Name(plain)).ok
    ensures ReadOutput(OutputText(vs, Name(plain)).text) == Some(Entries(vs, plain))
  {
    if vs != [] {
      OutputIsDecodable(vs[1..], plain);
      var rest := OutputText(vs[1..], Name(plain)).text;
      match vs[0]
      case CallExpr(_, _, _) =>
        VisitTextIsLine(vs[0], plain);
        LineThenOutput(LineOf(vs[0], plain), rest);
      case DeclRefExpr(name, external) =>
        if external {
          NameThenOutput(name, rest);
          assert "\t" + name + "\n" + rest == VisitText(vs[0], Name(plain)).text + rest;
        } else {
          assert "" + rest == rest;
          assert [] + Entries(vs[1..], plain) == Entries(vs[1..], plain);
        }
    }
  }
}
