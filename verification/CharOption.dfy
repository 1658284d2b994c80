/** Which spellings of plain char leave the call sites readable. */
module CharOption {
  import opened Sequences
  import opened Wrappers
  import opened Decimal
  import opened CallCodes
  import opened CallSites

  // ----- The marks a type is written with -----

  /** One step of writing a type: a mark is followed by as many types as it asks for. */
  datatype Mark = Complex | Atomic | Leaf(scalar: Scalar) | Record(tag: Tag, count: nat) | Plain

  function Arity(m: Mark): nat {
    match m
    case Complex => 1
    case Atomic => 1
    case Leaf(_) => 0
    case Record(_, n) => n
    case Plain => 0
  }

  function MarkText(m: Mark, charType: string): (s: string)
    ensures s != ""
  {
    match m
    case Complex => "c"
    case Atomic => "a_"
    case Leaf(k) => Name(k) + "_"
    case Record(tag, n) => TagName(tag) + Numeral(n) + "_"
    case Plain => charType + "_"
  }

  function Text(ms: seq<Mark>, charType: string): string {
    if ms == [] then "" else MarkText(ms[0], charType) + Text(ms[1..], charType)
  }

  ghost function Marks(t: CType): seq<Mark>
    requires Supported(t)
    decreases t, 0
  {
    match t
    case BuiltinType(kind) => if kind.KCharS? || kind.KCharU? then [Plain] else [Leaf(BuiltinScalar(kind, Void))]
    case PointerType(_) => [Leaf(Pointer)]
    case ComplexType(e) => [Complex] + Marks(e)
    case AtomicType(v) => [Atomic] + Marks(v)
    case EnumType(p) => Marks(p)
    case ElaboratedType(d) => Marks(d)
    case TypedefType(d) => Marks(d)
    case RecordType(record, fields) =>
      [Record(if record.IsStruct? then Struct else Union, |fields|)] + AllMarks(fields)
  }

  ghost function AllMarks(ts: seq<CType>): seq<Mark>
    requires AllSupported(ts)
    decreases ts, 0
  {
    if ts == [] then [] else Marks(ts[0]) + AllMarks(ts[1..])
  }

  lemma {:induction false} TextConcat(a: seq<Mark>, b: seq<Mark>, charType: string)
    ensures Text(a + b, charType) == Text(a, charType) + Text(b, charType)
  {
    if a == [] {
      assert a + b == b;
    } else {
      assert (a + b)[0] == a[0] && (a + b)[1..] == a[1..] + b;
      TextConcat(a[1..], b, charType);
      Assoc(MarkText(a[0], charType), Text(a[1..], charType), Text(b, charType));
    }
  }

  lemma TextOne(m: Mark, charType: string)
    ensures Text([m], charType) == MarkText(m, charType)
  {
    assert [m][1..] == [];
  }

  /** What is printed for a type is the text of its marks, whatever the option. */
  lemma {:induction false} TypeTextIsMarks(t: CType, charType: string)
    requires Supported(t)
    ensures TypeText(t, charType) == Put(Text(Marks(t), charType))
    decreases t, 0
  {
    match t
    case BuiltinType(kind) => BuiltinTextIsMark(kind, charType);
    case PointerType(_) => TextOne(Leaf(Pointer), charType);
    case ComplexType(e) =>
      TypeTextIsMarks(e, charType);
      Headed(Complex, Marks(e), charType);
    case AtomicType(v) =>
      TypeTextIsMarks(v, charType);
      Headed(Atomic, Marks(v), charType);
    case EnumType(p) => TypeTextIsMarks(p, charType);
    case ElaboratedType(d) => TypeTextIsMarks(d, charType);
    case TypedefType(d) => TypeTextIsMarks(d, charType);
    case RecordType(record, fields) =>
      TypesTextIsMarks(fields, charType);
      Headed(Record(if record.IsStruct? then Struct else Union, |fields|), AllMarks(fields), charType);
  }

  lemma Headed(m: Mark, ms: seq<Mark>, charType: string)
    ensures Text([m] + ms, charType) == MarkText(m, charType) + Text(ms, charType)
  {
    TextOne(m, charType);
    TextConcat([m], ms, charType);
  }

  lemma BuiltinTextIsMark(kind: BuiltinKind, charType: string)
    requires !kind.KOther?
    ensures BuiltinText(kind, charType) == Put(Text(Marks(BuiltinType(kind)), charType))
  {
    TextOne(Plain, charType);
    TextOne(Leaf(BuiltinScalar(kind, Void)), charType);
    BuiltinTextIsCode(kind, Void);
  }

  lemma {:induction false} TypesTextIsMarks(ts: seq<CType>, charType: string)
    requires AllSupported(ts)
    ensures TypesText(ts, charType) == Put(Text(AllMarks(ts), charType))
    decreases ts, 0
  {
    if ts != [] {
      TypeTextIsMarks(ts[0], charType);
      TypesTextIsMarks(ts[1..], charType);
      TextConcat(Marks(ts[0]), AllMarks(ts[1..]), charType);
    }
  }

  // ----- Reading marks other than plain char -----

  function MarkNamed(w: string): Option<Mark> {
    if w == "a" then Some(Atomic)
    else if ScalarNamed(w).Some? then Some(Leaf(ScalarNamed(w).value))
    else if TagNamed(w).Some? && Number(w[1..]).Some? then Some(Record(TagNamed(w).value, Number(w[1..]).value))
    else None
  }

  function ReadMark(s: string): (r: Option<(Mark, string)>)
    ensures r.Some? ==> |r.value.1| < |s|
  {
    if s == "" then None
    else if s[0] == 'c' then Some((Complex, s[1..]))
    else match Word(s)
      case None => None
      case Some((w, rest)) =>
        match MarkNamed(w)
        case None => None
        case Some(m) => Some((m, rest))
  }

  lemma MarkRead(m: Mark, rest: string, charType: string)
    requires m != Plain
    ensures ReadMark(MarkText(m, charType) + rest) == Some((m, rest))
  {
    match m
    case Complex => assert ("c" + rest)[1..] == rest;
    case Atomic =>
      assert "a_" + rest == "a" + "_" + rest;
      WordRead("a", rest);
    case Leaf(k) =>
      NamesAreApart(k);
      WordRead(Name(k), rest);
    case Record(tag, n) =>
      var w := TagName(tag) + Numeral(n);
      CountedIsNoName(tag, n);
      NumberRead(n);
      assert w[1..] == Numeral(n);
      WordRead(w, rest);
  }

  lemma ReadMarkIsSound(s: string, charType: string)
    requires ReadMark(s).Some?
    ensures ReadMark(s).value.0 != Plain
    ensures s == MarkText(ReadMark(s).value.0, charType) + ReadMark(s).value.1
  {
    if s[0] != 'c' {
      var (w, rest) := Word(s).value;
      assert w == "a" ==> w + "_" == "a_";
      assert w != "" ==> w == w[..1] + w[1..];
    }
  }

  /** What is left of a text when no further mark can be read from it. */
  function Left(s: string): string
    decreases |s|
  {
    match ReadMark(s)
    case None => s
    case Some((_, rest)) => Left(rest)
  }

  /** The marks read before that. */
  function Taken(s: string): seq<Mark>
    decreases |s|
  {
    match ReadMark(s)
    case None => []
    case Some((m, rest)) => [m] + Taken(rest)
  }

  lemma {:induction false} TakenThenLeft(s: string, charType: string)
    ensures s == Text(Taken(s), charType) + Left(s) && Plain !in Taken(s)
    decreases |s|
  {
    if ReadMark(s).Some? {
      var (m, rest) := ReadMark(s).value;
      ReadMarkIsSound(s, charType);
      TakenThenLeft(rest, charType);
      Headed(m, Taken(rest), charType);
      Assoc(MarkText(m, charType), Text(Taken(rest), charType), Left(rest));
    }
  }

  // ----- The condition -----

  /** The code of plain char reads as marks of other types. */
  predicate Readable(charType: string) {
    Left(charType + "_") == ""
  }

  /** The option names a scalar type, or its code cannot be read as anything else. */
  predicate SafeOption(charType: string) {
    ScalarNamed(charType).Some? || !Readable(charType)
  }

  /** The types that plain char may stand for: the one the option names, or any if it names none. */
  ghost predicate Meant(plain: Scalar, charType: string) {
    ScalarNamed(charType).Some? ==> charType == Name(plain)
  }

  /** Equal after erasure, with plain char a type of its own unless the option names another. */
  ghost predicate SameType(t: CType, u: CType, charType: string)
    requires Supported(t) && Supported(u)
  {
    forall plain :: Meant(plain, charType) ==> Erase(t, plain) == Erase(u, plain)
  }

  ghost predicate SameCall(v: Visit, w: Visit, charType: string)
    requires v.CallExpr? && SupportedVisit(v) && w.CallExpr? && SupportedVisit(w)
  {
    forall plain :: Meant(plain, charType) ==> LineOf(v, plain) == LineOf(w, plain)
  }

  /** Types print alike exactly when they are equal after erasure. */
  ghost predicate TypesAreApart(charType: string) {
    forall t, u :: Supported(t) && Supported(u) ==>
      (TypeText(t, charType) == TypeText(u, charType) <==> SameType(t, u, charType))
  }

  /** Calls print the same line exactly when they are equal after erasure. */
  ghost predicate LinesAreApart(charType: string) {
    forall v: Visit, w: Visit :: v.CallExpr? && SupportedVisit(v) && w.CallExpr? && SupportedVisit(w) ==>
      (VisitText(v, charType) == VisitText(w, charType) <==> SameCall(v, w, charType))
  }

  // ----- An unreadable spelling is found where it stands -----

  ghost predicate Closed(x: string) {
    x != "" ==> x[|x| - 1] == '_'
  }

  lemma {:induction false} WordExtends(x: string, s: string)
    requires x != "" && Closed(x)
    ensures Word(x).Some? && Closed(Word(x).value.1)
    ensures Word(x + s) == Some((Word(x).value.0, Word(x).value.1 + s))
  {
    assert (x + s)[1..] == x[1..] + s;
    if x[0] != '_' {
      WordExtends(x[1..], s);
    }
  }

  /** Reading stops at the same place whatever follows a closed text. */
  lemma {:induction false} LeftStops(x: string, s: string)
    requires Closed(x) && Left(x) != ""
    ensures Left(x + s) == Left(x) + s
    decreases |x|
  {
    assert (x + s)[0] == x[0] && (x + s)[1..] == x[1..] + s;
    WordExtends(x, s);
    if ReadMark(x).Some? {
      LeftStops(ReadMark(x).value.1, s);
    }
  }

  lemma LeftSkips(m: Mark, s: string, charType: string)
    requires m != Plain
    ensures Left(MarkText(m, charType) + s) == Left(s)
  {
    MarkRead(m, s, charType);
  }

  /** The marks after the first plain char. */
  function AfterPlain(ms: seq<Mark>): Option<seq<Mark>> {
    if ms == [] then None else if ms[0] == Plain then Some(ms[1..]) else AfterPlain(ms[1..])
  }

  /** The text of marks is left from the first plain char on, and before it nothing is lost. */
  lemma {:induction false} LeftOfText(ms: seq<Mark>, charType: string)
    requires !Readable(charType)
    ensures AfterPlain(ms).None? ==> Left(Text(ms, charType)) == ""
    ensures AfterPlain(ms).Some? ==> var later := Text(AfterPlain(ms).value, charType);
              && Left(Text(ms, charType)) == Left(charType + "_") + later
              && |Text(ms, charType)| >= |charType + "_"| + |later|
              && (ms[0] != Plain ==> |Text(ms, charType)| > |charType + "_"| + |later|)
  {
    if ms != [] {
      var rest := Text(ms[1..], charType);
      if ms[0] == Plain {
        LeftStops(charType + "_", rest);
      } else {
        LeftSkips(ms[0], rest, charType);
        LeftOfText(ms[1..], charType);
      }
    }
  }

  lemma Cancel(a: string, x: string, y: string)
    requires a + x == a + y
    ensures x == y
  {
    assert x == (a + x)[|a|..] && y == (a + y)[|a|..];
  }

  lemma MarksAreApart(p: Mark, q: Mark, x: string, y: string, charType: string)
    requires p != Plain && q != Plain && MarkText(p, charType) + x == MarkText(q, charType) + y
    ensures p == q && x == y
  {
    MarkRead(p, x, charType);
    MarkRead(q, y, charType);
  }

  lemma PlainIsApart(a: seq<Mark>, b: seq<Mark>, charType: string)
    requires !Readable(charType) && a != [] && b != [] && a[0] == Plain && b[0] != Plain
    ensures Text(a, charType) != Text(b, charType)
  {
    LeftOfText(a, charType);
    LeftOfText(b, charType);
  }

  /** With an unreadable spelling, a text is written with one sequence of marks only. */
  lemma {:induction false} MarksAreUnique(a: seq<Mark>, b: seq<Mark>, charType: string)
    requires !Readable(charType) && Text(a, charType) == Text(b, charType)
    ensures a == b
  {
    if a != [] && b != [] {
      var x, y := Text(a[1..], charType), Text(b[1..], charType);
      if a[0] == Plain && b[0] == Plain {
        Cancel(charType + "_", x, y);
      } else if a[0] == Plain {
        PlainIsApart(a, b, charType);
      } else if b[0] == Plain {
        PlainIsApart(b, a, charType);
      } else {
        MarksAreApart(a[0], b[0], x, y, charType);
      }
      MarksAreUnique(a[1..], b[1..], charType);
      assert a == [a[0]] + a[1..] && b == [b[0]] + b[1..];
    }
  }

  // ----- A safe option keeps types and lines apart -----

  /** Types with the same marks are equal after erasure, whatever plain char stands for. */
  lemma SameMarksSameType(t: CType, u: CType, plain: Scalar)
    requires Supported(t) && Supported(u) && Text(Marks(t), Name(plain)) == Text(Marks(u), Name(plain))
    ensures Erase(t, plain) == Erase(u, plain)
  {
    TypeTextIsMarks(t, Name(plain));
    TypeTextIsMarks(u, Name(plain));
    TypeTextIsCode(t, plain);
    TypeTextIsCode(u, plain);
    CodesArePrefixFree(Erase(t, plain), Erase(u, plain), "", "");
  }

  lemma SafeTypes(t: CType, u: CType, charType: string)
    requires SafeOption(charType) && Supported(t) && Supported(u) && TypeText(t, charType) == TypeText(u, charType)
    ensures SameType(t, u, charType)
  {
    TypeTextIsMarks(t, charType);
    TypeTextIsMarks(u, charType);
    forall plain | Meant(plain, charType) ensures Erase(t, plain) == Erase(u, plain) {
      if ScalarNamed(charType).None? {
        MarksAreUnique(Marks(t), Marks(u), charType);
      }
      SameMarksSameType(t, u, plain);
    }
  }

  ghost function CallMarks(v: Visit): seq<Mark>
    requires v.CallExpr? && SupportedVisit(v)
  {
    Marks(v.ret) + AllMarks(v.args)
  }

  function Tail(v: Visit): string
    requires v.CallExpr?
  {
    EndText(v.args, v.prototype)
  }

  lemma VisitTextIsMarks(v: Visit, charType: string)
    requires v.CallExpr? && SupportedVisit(v)
    ensures VisitText(v, charType) == Put(Text(CallMarks(v), charType) + Tail(v))
  {
    TypeTextIsMarks(v.ret, charType);
    TypesTextIsMarks(v.args, charType);
    TextConcat(Marks(v.ret), AllMarks(v.args), charType);
  }

  // A line ends in a number between underscores, so it is known where its types end.

  lemma {:induction false} TypeTextIsClosed(t: CType, charType: string)
    requires Supported(t)
    ensures TypeText(t, charType).text != "" && Closed(TypeText(t, charType).text) && TypeText(t, charType).ok
    decreases t, 0
  {
    match t
    case BuiltinType(kind) => BuiltinTextIsCode(kind, Void);
    case PointerType(_) =>
    case ComplexType(e) => TypeTextIsClosed(e, charType);
    case AtomicType(v) => TypeTextIsClosed(v, charType);
    case EnumType(p) => TypeTextIsClosed(p, charType);
    case ElaboratedType(d) => TypeTextIsClosed(d, charType);
    case TypedefType(d) => TypeTextIsClosed(d, charType);
    case RecordType(record, fields) => TypesTextIsClosed(fields, charType);
  }

  lemma {:induction false} TypesTextIsClosed(ts: seq<CType>, charType: string)
    requires AllSupported(ts)
    ensures Closed(TypesText(ts, charType).text) && TypesText(ts, charType).ok
    decreases ts, 0
  {
    if ts != [] {
      TypeTextIsClosed(ts[0], charType);
      TypesTextIsClosed(ts[1..], charType);
    }
  }

  lemma LastWord(x: string, w: string, y: string, w': string)
    requires x != "" && Closed(x) && y != "" && Closed(y) && '_' !in w && '_' !in w'
    requires x + w == y + w'
    ensures x == y && w == w'
  {
    var s := x + w;
    assert s[|x| - 1] == '_' && s[|y| - 1] == '_';
    assert forall i :: |x| <= i < |s| ==> s[i] == w[i - |x|];
    assert forall i :: |y| <= i < |s| ==> s[i] == w'[i - |y|];
    assert x == s[..|x|] && y == s[..|y|] && w == s[|x|..] && w' == s[|y|..];
  }

  lemma SplitLast(a: string, x: string, b: string, y: string)
    requires |x| == |y| && a + x == b + y
    ensures a == b && x == y
  {
    assert a == (a + x)[..|a|] && x == (a + x)[|a|..];
    assert b == (b + y)[..|b|] && y == (b + y)[|b|..];
  }

  lemma TailsAreApart(x: string, n: nat, e: bool, y: string, n': nat, e': bool)
    requires x != "" && Closed(x) && y != "" && Closed(y)
    requires x + TailCode(n, e) == y + TailCode(n', e')
    ensures x == y && n == n' && e == e'
  {
    var end, end' := if e then "v\n" else "f\n", if e' then "v\n" else "f\n";
    Assoc(x, Numeral(n) + "_", end);
    Assoc(y, Numeral(n') + "_", end');
    SplitLast(x + (Numeral(n) + "_"), end, y + (Numeral(n') + "_"), end');
    assert end[0] == end'[0];
    Assoc(x, Numeral(n), "_");
    Assoc(y, Numeral(n'), "_");
    SplitLast(x + Numeral(n), "_", y + Numeral(n'), "_");
    NumberRead(n);
    NumberRead(n');
    LastWord(x, Numeral(n), y, Numeral(n'));
  }

  lemma CallTextIsClosed(v: Visit, charType: string)
    requires v.CallExpr? && SupportedVisit(v)
    ensures Text(CallMarks(v), charType) != "" && Closed(Text(CallMarks(v), charType))
  {
    TypeTextIsMarks(v.ret, charType);
    TypesTextIsMarks(v.args, charType);
    TextConcat(Marks(v.ret), AllMarks(v.args), charType);
    TypeTextIsClosed(v.ret, charType);
    TypesTextIsClosed(v.args, charType);
  }

  lemma SafeCalls(v: Visit, w: Visit, charType: string)
    requires SafeOption(charType) && v.CallExpr? && SupportedVisit(v) && w.CallExpr? && SupportedVisit(w)
    requires VisitText(v, charType) == VisitText(w, charType)
    ensures SameCall(v, w, charType)
  {
    forall plain | Meant(plain, charType) ensures LineOf(v, plain) == LineOf(w, plain) {
      if ScalarNamed(charType).None? {
        VisitTextIsMarks(v, charType);
        VisitTextIsMarks(w, charType);
        CallTextIsClosed(v, charType);
        CallTextIsClosed(w, charType);
        var l, l' := LineOf(v, plain), LineOf(w, plain);
        TailOfLine(v, plain);
        TailOfLine(w, plain);
        TailsAreApart(Text(CallMarks(v), charType), l.params, l.variadic, Text(CallMarks(w), charType), l'.params, l'.variadic);
        MarksAreUnique(CallMarks(v), CallMarks(w), charType);
        VisitTextIsMarks(v, Name(plain));
        VisitTextIsMarks(w, Name(plain));
      }
      SameLineIffSameCall(v, w, plain);
    }
  }

  // ----- Under any option, what is equal after erasure prints alike -----

  function Meaning(m: Mark, plain: Scalar): Mark {
    if m == Plain then Leaf(plain) else m
  }

  /** Two readings of plain char are enough to tell marks apart. */
  lemma {:induction false} MarksAreDetermined(a: seq<Mark>, b: seq<Mark>)
    requires Text(a, Name(SChar)) == Text(b, Name(SChar)) && Text(a, Name(UChar)) == Text(b, Name(UChar))
    ensures a == b
  {
    if a != [] && b != [] {
      HeadsMeanTheSame(a, b, SChar);
      HeadsMeanTheSame(a, b, UChar);
      MarksAreDetermined(a[1..], b[1..]);
      assert a == [a[0]] + a[1..] && b == [b[0]] + b[1..];
    }
  }

  lemma HeadsMeanTheSame(a: seq<Mark>, b: seq<Mark>, plain: Scalar)
    requires a != [] && b != [] && Text(a, Name(plain)) == Text(b, Name(plain))
    ensures Meaning(a[0], plain) == Meaning(b[0], plain) && Text(a[1..], Name(plain)) == Text(b[1..], Name(plain))
  {
    var c := Name(plain);
    MarksAreApart(Meaning(a[0], plain), Meaning(b[0], plain), Text(a[1..], c), Text(b[1..], c), c);
  }

  lemma SameErasureSameText(t: CType, u: CType, plain: Scalar)
    requires Supported(t) && Supported(u) && Erase(t, plain) == Erase(u, plain)
    ensures TypeText(t, Name(plain)) == TypeText(u, Name(plain))
    ensures Text(Marks(t), Name(plain)) == Text(Marks(u), Name(plain))
  {
    TypeTextIsCode(t, plain);
    TypeTextIsCode(u, plain);
    TypeTextIsMarks(t, Name(plain));
    TypeTextIsMarks(u, Name(plain));
  }

  lemma SameTypesPrintAlike(t: CType, u: CType, charType: string)
    requires Supported(t) && Supported(u) && SameType(t, u, charType)
    ensures TypeText(t, charType) == TypeText(u, charType)
  {
    match ScalarNamed(charType)
    case Some(plain) =>
      assert Meant(plain, charType);
      SameErasureSameText(t, u, plain);
    case None =>
      assert Meant(SChar, charType) && Meant(UChar, charType);
      SameErasureSameText(t, u, SChar);
      SameErasureSameText(t, u, UChar);
      MarksAreDetermined(Marks(t), Marks(u));
      TypeTextIsMarks(t, charType);
      TypeTextIsMarks(u, charType);
  }

  lemma SameLineSameText(v: Visit, w: Visit, plain: Scalar)
    requires v.CallExpr? && SupportedVisit(v) && w.CallExpr? && SupportedVisit(w) && LineOf(v, plain) == LineOf(w, plain)
    ensures VisitText(v, Name(plain)) == VisitText(w, Name(plain)) && Tail(v) == Tail(w)
    ensures Text(CallMarks(v), Name(plain)) == Text(CallMarks(w), Name(plain))
  {
    VisitTextIsLine(v, plain);
    VisitTextIsLine(w, plain);
    TailOfLine(v, plain);
    TailOfLine(w, plain);
    VisitTextIsMarks(v, Name(plain));
    VisitTextIsMarks(w, Name(plain));
    SplitLast(Text(CallMarks(v), Name(plain)), Tail(v), Text(CallMarks(w), Name(plain)), Tail(w));
  }

  lemma SameCallsPrintAlike(v: Visit, w: Visit, charType: string)
    requires v.CallExpr? && SupportedVisit(v) && w.CallExpr? && SupportedVisit(w) && SameCall(v, w, charType)
    ensures VisitText(v, charType) == VisitText(w, charType)
  {
    match ScalarNamed(charType)
    case Some(plain) =>
      assert Meant(plain, charType);
      SameLineSameText(v, w, plain);
    case None =>
      assert Meant(SChar, charType) && Meant(UChar, charType);
      SameLineSameText(v, w, SChar);
      SameLineSameText(v, w, UChar);
      MarksAreDetermined(CallMarks(v), CallMarks(w));
      VisitTextIsMarks(v, charType);
      VisitTextIsMarks(w, charType);
  }

  // ----- A readable spelling that names no scalar makes types collide -----

  lemma {:induction false} AllMarksConcat(ts: seq<CType>, us: seq<CType>)
    requires AllSupported(ts) && AllSupported(us)
    ensures AllSupported(ts + us) && AllMarks(ts + us) == AllMarks(ts) + AllMarks(us)
    decreases ts
  {
    if ts == [] {
      assert ts + us == us;
    } else {
      assert (ts + us)[0] == ts[0] && (ts + us)[1..] == ts[1..] + us;
      AllMarksConcat(ts[1..], us);
      Assoc(Marks(ts[0]), AllMarks(ts[1..]), AllMarks(us));
    }
  }

  /** The number of types that a sequence of marks makes up. */
  function Balance(ms: seq<Mark>): int {
    if ms == [] then 0 else 1 - Arity(ms[0]) + Balance(ms[1..])
  }

  lemma {:induction false} BalanceConcat(a: seq<Mark>, b: seq<Mark>)
    ensures Balance(a + b) == Balance(a) + Balance(b)
  {
    if a == [] {
      assert a + b == b;
    } else {
      assert (a + b)[0] == a[0] && (a + b)[1..] == a[1..] + b;
      BalanceConcat(a[1..], b);
    }
  }

  lemma {:induction false} BalanceOfType(t: CType)
    requires Supported(t)
    ensures Balance(Marks(t)) == 1
    decreases t, 0
  {
    match t
    case BuiltinType(kind) =>
    case PointerType(_) =>
    case ComplexType(e) =>
      BalanceOfType(e);
      BalanceConcat([Complex], Marks(e));
    case AtomicType(v) =>
      BalanceOfType(v);
      BalanceConcat([Atomic], Marks(v));
    case EnumType(p) => BalanceOfType(p);
    case ElaboratedType(d) => BalanceOfType(d);
    case TypedefType(d) => BalanceOfType(d);
    case RecordType(record, fields) =>
      BalanceOfTypes(fields);
      BalanceConcat([Record(if record.IsStruct? then Struct else Union, |fields|)], AllMarks(fields));
  }

  lemma {:induction false} BalanceOfTypes(ts: seq<CType>)
    requires AllSupported(ts)
    ensures Balance(AllMarks(ts)) == |ts|
    decreases ts, 0
  {
    if ts != [] {
      BalanceOfType(ts[0]);
      BalanceOfTypes(ts[1..]);
      BalanceConcat(Marks(ts[0]), AllMarks(ts[1..]));
    }
  }

  function TypeOf(k: Scalar): CType {
    match k
    case Void => BuiltinType(KVoid)
    case Bool => BuiltinType(KBool)
    case SChar => BuiltinType(KSChar)
    case UChar => BuiltinType(KUChar)
    case Short => BuiltinType(KShort)
    case UShort => BuiltinType(KUShort)
    case Int => BuiltinType(KInt)
    case UInt => BuiltinType(KUInt)
    case Long => BuiltinType(KLong)
    case ULong => BuiltinType(KULong)
    case LongLong => BuiltinType(KLongLong)
    case ULongLong => BuiltinType(KULongLong)
    case Float => BuiltinType(KFloat)
    case Double => BuiltinType(KDouble)
    case LongDouble => BuiltinType(KLongDouble)
    case Pointer => PointerType(PlainPointer)
  }

  /** The type that a mark makes with the types after it. */
  function Made(m: Mark, ts: seq<CType>): CType
    requires |ts| == Arity(m)
  {
    match m
    case Complex => ComplexType(ts[0])
    case Atomic => AtomicType(ts[0])
    case Leaf(k) => TypeOf(k)
    case Record(tag, _) => RecordType(if tag == Struct then IsStruct else IsUnion, ts)
    case Plain => BuiltinType(KCharS)
  }

  lemma MadeIsMarked(m: Mark, ts: seq<CType>)
    requires |ts| == Arity(m) && AllSupported(ts)
    ensures Supported(Made(m, ts)) && Marks(Made(m, ts)) == [m] + AllMarks(ts)
  {
    if m.Complex? || m.Atomic? {
      assert ts == [ts[0]];
      assert AllMarks(ts) == Marks(ts[0]) + [];
    }
  }

  ghost function Ints(n: nat): seq<Mark> {
    seq(n, _ => Leaf(Int))
  }

  lemma {:induction false} IntTypes(n: nat) returns (ts: seq<CType>)
    ensures AllSupported(ts) && |ts| == n && AllMarks(ts) == Ints(n)
  {
    ts := [];
    if n > 0 {
      var us := IntTypes(n - 1);
      ts := [TypeOf(Int)] + us;
      assert ts[0] == TypeOf(Int) && ts[1..] == us;
      assert AllMarks(ts) == [Leaf(Int)] + Ints(n - 1);
    }
  }

  /** Followed by enough ints, any marks make up types. */
  lemma {:induction false} Padded(ms: seq<Mark>, atLeast: nat) returns (n: nat, ts: seq<CType>)
    ensures AllSupported(ts) && AllMarks(ts) == ms + Ints(n) && |ts| >= atLeast
  {
    if ms == [] {
      n := atLeast;
      ts := IntTypes(n);
    } else {
      var us;
      n, us := Padded(ms[1..], Arity(ms[0]) + atLeast);
      ts := OneMade(ms[0], us);
      Assoc([ms[0]], ms[1..], Ints(n));
      assert ms == [ms[0]] + ms[1..];
    }
  }

  /** The first of some types are put under a mark. */
  lemma OneMade(m: Mark, us: seq<CType>) returns (ts: seq<CType>)
    requires AllSupported(us) && Arity(m) <= |us|
    ensures AllSupported(ts) && AllMarks(ts) == [m] + AllMarks(us) && |ts| == |us| - Arity(m) + 1
  {
    var first, others := us[..Arity(m)], us[Arity(m)..];
    assert us == first + others;
    AllMarksConcat(first, others);
    MadeIsMarked(m, first);
    ts := [Made(m, first)] + others;
    assert ts[0] == Made(m, first) && ts[1..] == others;
    Assoc([m], AllMarks(first), AllMarks(others));
  }

  /** The same with as many ints as one likes, from some number on. */
  lemma PaddedTo(ms: seq<Mark>, n: nat, ts: seq<CType>, more: nat) returns (us: seq<CType>)
    requires AllSupported(ts) && AllMarks(ts) == ms + Ints(n)
    ensures AllSupported(us) && AllMarks(us) == ms + Ints(n + more)
  {
    var ints := IntTypes(more);
    us := ts + ints;
    AllMarksConcat(ts, ints);
    Assoc(ms, Ints(n), Ints(more));
    assert Ints(n) + Ints(more) == Ints(n + more);
  }

  /** Types told apart by nothing but where plain char stands among the marks that its spelling reads as. */
  lemma Collision(charType: string) returns (ts: seq<CType>, us: seq<CType>)
    requires Readable(charType)
    ensures AllSupported(ts) && AllSupported(us) && |ts| == |us|
    ensures TypesText(ts, charType) == TypesText(us, charType)
    ensures EraseAll(ts, SChar) != EraseAll(us, SChar) || EraseAll(ts, UChar) != EraseAll(us, UChar)
  {
    var read := Taken(charType + "_");
    TakenThenLeft(charType + "_", charType);
    assert charType + "_" == Text(read, charType) + "";
    var a, b := [Plain] + read, read + [Plain];
    var n, m;
    n, ts := Padded(a, 0);
    m, us := Padded(b, 0);
    ts := PaddedTo(a, n, ts, m);
    us := PaddedTo(b, m, us, n);
    var pad := Ints(n + m);
    SameNumber(read, pad, ts, us);
    SameText(read, pad, charType, ts, us);
    NotSame(read, pad, ts, us);
  }

  lemma SameNumber(read: seq<Mark>, pad: seq<Mark>, ts: seq<CType>, us: seq<CType>)
    requires AllSupported(ts) && AllSupported(us)
    requires AllMarks(ts) == [Plain] + read + pad && AllMarks(us) == read + [Plain] + pad
    ensures |ts| == |us|
  {
    BalanceOfTypes(ts);
    BalanceOfTypes(us);
    BalanceConcat([Plain] + read, pad);
    BalanceConcat([Plain], read);
    BalanceConcat(read + [Plain], pad);
    BalanceConcat(read, [Plain]);
  }

  lemma SameText(read: seq<Mark>, pad: seq<Mark>, charType: string, ts: seq<CType>, us: seq<CType>)
    requires AllSupported(ts) && AllSupported(us) && Text(read, charType) == charType + "_"
    requires AllMarks(ts) == [Plain] + read + pad && AllMarks(us) == read + [Plain] + pad
    ensures TypesText(ts, charType) == TypesText(us, charType)
  {
    TypesTextIsMarks(ts, charType);
    TypesTextIsMarks(us, charType);
    TextOne(Plain, charType);
    TextConcat([Plain] + read, pad, charType);
    TextConcat([Plain], read, charType);
    TextConcat(read + [Plain], pad, charType);
    TextConcat(read, [Plain], charType);
  }

  /** If plain char were this scalar, the first mark read would be that scalar. */
  lemma FirstMark(read: seq<Mark>, pad: seq<Mark>, ts: seq<CType>, us: seq<CType>, plain: Scalar)
    requires AllSupported(ts) && AllSupported(us) && read != [] && read[0] != Plain
    requires AllMarks(ts) == [Plain] + read + pad && AllMarks(us) == read + [Plain] + pad
    requires EraseAll(ts, plain) == EraseAll(us, plain)
    ensures read[0] == Leaf(plain)
  {
    var c := Name(plain);
    TypesTextIsCodes(ts, plain);
    TypesTextIsCodes(us, plain);
    TypesTextIsMarks(ts, c);
    TypesTextIsMarks(us, c);
    var a, b := AllMarks(ts), AllMarks(us);
    assert a[0] == Plain && b[0] == read[0];
    assert MarkText(Plain, c) == MarkText(Leaf(plain), c);
    MarksAreApart(Leaf(plain), read[0], Text(a[1..], c), Text(b[1..], c), c);
  }

  lemma NotSame(read: seq<Mark>, pad: seq<Mark>, ts: seq<CType>, us: seq<CType>)
    requires AllSupported(ts) && AllSupported(us) && read != [] && read[0] != Plain
    requires AllMarks(ts) == [Plain] + read + pad && AllMarks(us) == read + [Plain] + pad
    ensures EraseAll(ts, SChar) != EraseAll(us, SChar) || EraseAll(ts, UChar) != EraseAll(us, UChar)
  {
    if EraseAll(ts, SChar) == EraseAll(us, SChar) {
      FirstMark(read, pad, ts, us, SChar);
      if EraseAll(ts, UChar) == EraseAll(us, UChar) {
        FirstMark(read, pad, ts, us, UChar);
      }
    }
  }

  // ----- The exact condition -----

  lemma UnsafeTypes(charType: string) returns (t: CType, u: CType)
    requires !SafeOption(charType)
    ensures Supported(t) && Supported(u) && TypeText(t, charType) == TypeText(u, charType) && !SameType(t, u, charType)
  {
    var ts, us := Collision(charType);
    t, u := RecordType(IsStruct, ts), RecordType(IsStruct, us);
    assert Supported(t) && Supported(u);
    var plain := if EraseAll(ts, SChar) != EraseAll(us, SChar) then SChar else UChar;
    assert Erase(t, plain).fields == EraseAll(ts, plain) && Erase(u, plain).fields == EraseAll(us, plain);
    assert Meant(plain, charType) && Erase(t, plain) != Erase(u, plain);
  }

  lemma UnsafeCalls(charType: string) returns (v: Visit, w: Visit)
    requires !SafeOption(charType)
    ensures v.CallExpr? && SupportedVisit(v) && w.CallExpr? && SupportedVisit(w)
    ensures VisitText(v, charType) == VisitText(w, charType) && !SameCall(v, w, charType)
  {
    var ts, us := Collision(charType);
    v := CallExpr(TypeOf(Void), ts, WithPrototype(0, true));
    w := CallExpr(TypeOf(Void), us, WithPrototype(0, true));
    var plain := if EraseAll(ts, SChar) != EraseAll(us, SChar) then SChar else UChar;
    assert LineOf(v, plain).args != LineOf(w, plain).args && Meant(plain, charType);
  }

  /**
   * Types, and lines about calls, that print alike are equal after erasure if and only if
   * the option names a scalar type or its code cannot be read as the codes of other types.
   */
  lemma CharOptionIsExact(charType: string)
    ensures TypesAreApart(charType) <==> SafeOption(charType)
    ensures LinesAreApart(charType) <==> SafeOption(charType)
  {
    if SafeOption(charType) {
      forall t, u | Supported(t) && Supported(u)
        ensures TypeText(t, charType) == TypeText(u, charType) <==> SameType(t, u, charType)
      {
        if TypeText(t, charType) == TypeText(u, charType) {
          SafeTypes(t, u, charType);
        }
        if SameType(t, u, charType) {
          SameTypesPrintAlike(t, u, charType);
        }
      }
      forall v: Visit, w: Visit | v.CallExpr? && SupportedVisit(v) && w.CallExpr? && SupportedVisit(w)
        ensures VisitText(v, charType) == VisitText(w, charType) <==> SameCall(v, w, charType)
      {
        if VisitText(v, charType) == VisitText(w, charType) {
          SafeCalls(v, w, charType);
        }
        if SameCall(v, w, charType) {
          SameCallsPrintAlike(v, w, charType);
        }
      }
    } else {
      var t, u := UnsafeTypes(charType);
      var v, w := UnsafeCalls(charType);
    }
  }

  // ----- Spellings of one word -----

  function Complexes(k: nat): string {
    if k == 0 then "" else "c" + Complexes(k - 1)
  }

  /** One word, after its leading letters c, is readable exactly when it is a, a scalar type, or a tag with a number. */
  lemma {:induction false} ReadableWord(k: nat, w: string)
    requires '_' !in w && (w != "" ==> w[0] != 'c')
    ensures Readable(Complexes(k) + w) <==> MarkNamed(w).Some?
  {
    var s := Complexes(k) + w + "_";
    if k == 0 {
      assert Complexes(k) + w == w;
      assert w + "_" == w + "_" + "";
      WordRead(w, "");
      assert Left("") == "";
    } else {
      assert s[1..] == Complexes(k - 1) + w + "_";
      ReadableWord(k - 1, w);
    }
  }

  /** For instance, char spelled "cf" looks like a complex float. */
  lemma SpelledLikeComplexFloat()
    ensures !SafeOption("cf")
    ensures TypeText(BuiltinType(KCharS), "cf") == TypeText(ComplexType(BuiltinType(KFloat)), "cf")
  {
    assert "cf" + "_" == "c" + "f_";
    assert Complexes(1) == "c";
    ReadableWord(1, "f");
    assert "c" + "f" == "cf";
  }
}
