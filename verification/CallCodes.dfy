/** The textual codes of types at call sites, and the one way to read them back. */
module CallCodes {
  import opened Sequences
  import opened Wrappers
  import opened Decimal

  /** What a calling convention distinguishes: everything that decays or is a pointer is one kind. */
  datatype Scalar =
    | Void | Bool | SChar | UChar | Short | UShort | Int | UInt | Long | ULong | LongLong | ULongLong
    | Float | Double | LongDouble | Pointer

  datatype Tag = Struct | Union

  datatype Abi =
    | ScalarType(scalar: Scalar)
    | ComplexOf(element: Abi)
    | AtomicOf(value: Abi)
    | Aggregate(tag: Tag, fields: seq<Abi>)

  /** One line about a call. */
  datatype Line = Line(ret: Abi, args: seq<Abi>, params: nat, variadic: bool)

  // ----- Writing -----

  function Name(k: Scalar): string {
    match k
    case Void => "v"
    case Bool => "b"
    case SChar => "sc"
    case UChar => "uc"
    case Short => "ss"
    case UShort => "us"
    case Int => "si"
    case UInt => "ui"
    case Long => "sl"
    case ULong => "ul"
    case LongLong => "ll"
    case ULongLong => "ull"
    case Float => "f"
    case Double => "d"
    case LongDouble => "ld"
    case Pointer => "p"
  }

  function TagName(tag: Tag): string {
    if tag == Struct then "s" else "u"
  }

  function Code(t: Abi): string {
    match t
    case ScalarType(k) => Name(k) + "_"
    case ComplexOf(e) => "c" + Code(e)
    case AtomicOf(v) => "a_" + Code(v)
    case Aggregate(tag, fields) => TagName(tag) + Numeral(|fields|) + "_" + Codes(fields)
  }

  function Codes(ts: seq<Abi>): string {
    if ts == [] then "" else Code(ts[0]) + Codes(ts[1..])
  }

  function TailCode(params: nat, variadic: bool): string {
    Numeral(params) + "_" + (if variadic then "v\n" else "f\n")
  }

  function LineCode(l: Line): string {
    Code(l.ret) + Codes(l.args) + TailCode(l.params, l.variadic)
  }

  // ----- Reading -----

  /** The text before the first underscore and the text after it. */
  function Word(s: string): (r: Option<(string, string)>)
    ensures r.Some? ==> s == r.value.0 + "_" + r.value.1
  {
    if s == "" then None
    else if s[0] == '_' then Some(("", s[1..]))
    else match Word(s[1..])
      case None => None
      case Some((w, rest)) => Some(([s[0]] + w, rest))
  }

  function ScalarNamed(w: string): (r: Option<Scalar>)
    ensures r.Some? ==> w == Name(r.value)
  {
    if w == "v" then Some(Void)
    else if w == "b" then Some(Bool)
    else if w == "sc" then Some(SChar)
    else if w == "uc" then Some(UChar)
    else if w == "ss" then Some(Short)
    else if w == "us" then Some(UShort)
    else if w == "si" then Some(Int)
    else if w == "ui" then Some(UInt)
    else if w == "sl" then Some(Long)
    else if w == "ul" then Some(ULong)
    else if w == "ll" then Some(LongLong)
    else if w == "ull" then Some(ULongLong)
    else if w == "f" then Some(Float)
    else if w == "d" then Some(Double)
    else if w == "ld" then Some(LongDouble)
    else if w == "p" then Some(Pointer)
    else None
  }

  /** A number, written the one way a number is written. */
  function Number(w: string): (r: Option<nat>)
    ensures r.Some? ==> w == Numeral(r.value)
  {
    if AllDigits(w) && Numeral(ValueAfter(w, 0)) == w then Some(ValueAfter(w, 0)) else None
  }

  function TagNamed(w: string): (r: Option<Tag>)
    ensures r.Some? ==> w != "" && w[..1] == TagName(r.value)
  {
    if w == "" then None
    else if w[0] == 's' then Some(Struct)
    else if w[0] == 'u' then Some(Union)
    else None
  }

  function ReadType(s: string): (r: Option<(Abi, string)>)
    ensures r.Some? ==> |r.value.1| < |s|
    decreases |s|, 0
  {
    if s == "" then None
    else if s[0] == 'c' then
      match ReadType(s[1..])
      case None => None
      case Some((e, rest)) => Some((ComplexOf(e), rest))
    else match Word(s)
      case None => None
      case Some((w, rest)) =>
        if w == "a" then
          match ReadType(rest)
          case None => None
          case Some((v, rest')) => Some((AtomicOf(v), rest'))
        else if ScalarNamed(w).Some? then
          Some((ScalarType(ScalarNamed(w).value), rest))
        else if TagNamed(w).Some? && Number(w[1..]).Some? then
          match ReadTypes(Number(w[1..]).value, rest)
          case None => None
          case Some((fields, rest')) => Some((Aggregate(TagNamed(w).value, fields), rest'))
        else None
  }

  function ReadTypes(n: nat, s: string): (r: Option<(seq<Abi>, string)>)
    ensures r.Some? ==> |r.value.1| <= |s| && |r.value.0| == n
    decreases |s|, 1
  {
    if n == 0 then Some(([], s))
    else match ReadType(s)
      case None => None
      case Some((t, rest)) =>
        match ReadTypes(n - 1, rest)
        case None => None
        case Some((ts, rest')) => Some(([t] + ts, rest'))
  }

  /** Types up to the first digit, which starts the number of parameters. */
  function ReadArgs(s: string): (r: Option<(seq<Abi>, string)>)
    ensures r.Some? ==> |r.value.1| <= |s|
    decreases |s|
  {
    if s != "" && IsDigit(s[0]) then Some(([], s))
    else match ReadType(s)
      case None => None
      case Some((t, rest)) =>
        match ReadArgs(rest)
        case None => None
        case Some((ts, rest')) => Some(([t] + ts, rest'))
  }

  function ReadEnd(s: string): (r: Option<(bool, string)>)
    ensures r.Some? ==> s == (if r.value.0 then "v\n" else "f\n") + r.value.1
  {
    if |s| < 2 || s[1] != '\n' then None
    else if s[0] == 'v' then Some((true, s[2..]))
    else if s[0] == 'f' then Some((false, s[2..]))
    else None
  }

  function ReadTail(s: string): (r: Option<((nat, bool), string)>)
    ensures r.Some? ==> |r.value.1| < |s|
  {
    match Word(s)
    case None => None
    case Some((w, s')) =>
      if Number(w).None? then None
      else match ReadEnd(s')
        case None => None
        case Some((variadic, rest)) => Some(((Number(w).value, variadic), rest))
  }

  function ReadLine(s: string): (r: Option<(Line, string)>)
    ensures r.Some? ==> |r.value.1| < |s|
  {
    match ReadType(s)
    case None => None
    case Some((ret, s1)) =>
      match ReadArgs(s1)
      case None => None
      case Some((args, s2)) =>
        match ReadTail(s2)
        case None => None
        case Some((tail, rest)) => Some((Line(ret, args, tail.0, tail.1), rest))
  }

  // ----- Every code is read back, whatever follows it -----

  lemma {:induction false} WordRead(w: string, rest: string)
    requires '_' !in w
    ensures Word(w + "_" + rest) == Some((w, rest))
  {
    var s := w + "_" + rest;
    if w == "" {
      assert s[1..] == rest;
    } else {
      assert s[1..] == w[1..] + "_" + rest;
      WordRead(w[1..], rest);
      assert [w[0]] + w[1..] == w;
    }
  }

  lemma NumberRead(n: nat)
    ensures Number(Numeral(n)) == Some(n) && '_' !in Numeral(n)
  {
    ValueOfNumeral(n);
  }

  /** The names are told apart, and from the other words. */
  lemma NamesAreApart(k: Scalar)
    ensures ScalarNamed(Name(k)) == Some(k)
    ensures '_' !in Name(k) && Name(k) != "" && Name(k)[0] != 'c' && Name(k) != "a"
    ensures IsDigit(Name(k)[0]) == false
  {
  }

  /** A word that holds a digit is not a name. */
  lemma CountedIsNoName(tag: Tag, n: nat)
    ensures ScalarNamed(TagName(tag) + Numeral(n)).None?
    ensures TagNamed(TagName(tag) + Numeral(n)) == Some(tag)
    ensures TagName(tag) + Numeral(n) != "a"
  {
    var w := TagName(tag) + Numeral(n);
    assert IsDigit(w[1]);
  }

  lemma CodeStarts(t: Abi)
    ensures Code(t) != "" && !IsDigit(Code(t)[0])
  {
    match t
    case ScalarType(k) => NamesAreApart(k);
    case ComplexOf(_) =>
    case AtomicOf(_) =>
    case Aggregate(_, _) =>
  }

  lemma {:induction false} TypeRead(t: Abi, rest: string)
    ensures ReadType(Code(t) + rest) == Some((t, rest))
  {
    match t
    case ScalarType(k) =>
      ScalarRead(k, rest);
    case ComplexOf(e) =>
      TypeRead(e, rest);
      ComplexRead(e, rest);
    case AtomicOf(v) =>
      TypeRead(v, rest);
      AtomicRead(v, rest);
    case Aggregate(tag, fields) =>
      TypesRead(fields, rest);
      AggregateRead(tag, fields, rest);
  }

  lemma ScalarRead(k: Scalar, rest: string)
    ensures ReadType(Name(k) + "_" + rest) == Some((ScalarType(k), rest))
  {
    NamesAreApart(k);
    WordRead(Name(k), rest);
  }

  lemma ComplexRead(e: Abi, rest: string)
    requires ReadType(Code(e) + rest) == Some((e, rest))
    ensures ReadType(Code(ComplexOf(e)) + rest) == Some((ComplexOf(e), rest))
  {
    Assoc("c", Code(e), rest);
    assert ("c" + (Code(e) + rest))[1..] == Code(e) + rest;
  }

  lemma AtomicRead(v: Abi, rest: string)
    requires ReadType(Code(v) + rest) == Some((v, rest))
    ensures ReadType(Code(AtomicOf(v)) + rest) == Some((AtomicOf(v), rest))
  {
    assert "a_" == "a" + "_";
    Assoc("a_", Code(v), rest);
    WordRead("a", Code(v) + rest);
  }

  lemma AggregateRead(tag: Tag, fields: seq<Abi>, rest: string)
    requires ReadTypes(|fields|, Codes(fields) + rest) == Some((fields, rest))
    ensures ReadType(Code(Aggregate(tag, fields)) + rest) == Some((Aggregate(tag, fields), rest))
  {
    var w := TagName(tag) + Numeral(|fields|);
    CountedIsNoName(tag, |fields|);
    NumberRead(|fields|);
    assert w[1..] == Numeral(|fields|);
    WordRead(w, Codes(fields) + rest);
    Assoc(w + "_", Codes(fields), rest);
  }

  lemma {:induction false} TypesRead(ts: seq<Abi>, rest: string)
    ensures ReadTypes(|ts|, Codes(ts) + rest) == Some((ts, rest))
  {
    if ts == [] {
      assert Codes(ts) + rest == rest;
    } else {
      assert Codes(ts) + rest == Code(ts[0]) + (Codes(ts[1..]) + rest);
      TypeRead(ts[0], Codes(ts[1..]) + rest);
      TypesRead(ts[1..], rest);
      assert [ts[0]] + ts[1..] == ts;
    }
  }

  lemma {:induction false} ArgsRead(ts: seq<Abi>, rest: string)
    requires rest != "" && IsDigit(rest[0])
    ensures ReadArgs(Codes(ts) + rest) == Some((ts, rest))
  {
    if ts == [] {
      assert Codes(ts) + rest == rest;
    } else {
      CodeStarts(ts[0]);
      assert Codes(ts) + rest == Code(ts[0]) + (Codes(ts[1..]) + rest);
      TypeRead(ts[0], Codes(ts[1..]) + rest);
      ArgsRead(ts[1..], rest);
      assert [ts[0]] + ts[1..] == ts;
    }
  }

  lemma TailRead(params: nat, variadic: bool, rest: string)
    ensures ReadTail(TailCode(params, variadic) + rest) == Some(((params, variadic), rest))
    ensures IsDigit(TailCode(params, variadic)[0])
  {
    var end := if variadic then "v\n" else "f\n";
    NumberRead(params);
    Assoc(Numeral(params) + "_", end, rest);
    WordRead(Numeral(params), end + rest);
    assert (end + rest)[2..] == rest;
  }

  lemma LineRead(l: Line, rest: string)
    ensures ReadLine(LineCode(l) + rest) == Some((l, rest))
  {
    var tail := TailCode(l.params, l.variadic);
    Assoc(Code(l.ret), Codes(l.args), tail);
    Assoc(Code(l.ret), Codes(l.args) + tail, rest);
    Assoc(Codes(l.args), tail, rest);
    TypeRead(l.ret, Codes(l.args) + (tail + rest));
    TailRead(l.params, l.variadic, rest);
    ArgsRead(l.args, tail + rest);
  }

  // ----- Nothing else is read -----

  lemma {:induction false} ReadTypeIsSound(s: string)
    requires ReadType(s).Some?
    ensures s == Code(ReadType(s).value.0) + ReadType(s).value.1
    decreases |s|, 0
  {
    if s[0] == 'c' {
      ReadTypeIsSound(s[1..]);
    } else {
      var (w, rest) := Word(s).value;
      if w == "a" {
        ReadTypeIsSound(rest);
      } else if ScalarNamed(w).None? {
        var n := Number(w[1..]).value;
        ReadTypesIsSound(n, rest);
        assert w == w[..1] + w[1..];
      }
    }
  }

  lemma {:induction false} ReadTypesIsSound(n: nat, s: string)
    requires ReadTypes(n, s).Some?
    ensures s == Codes(ReadTypes(n, s).value.0) + ReadTypes(n, s).value.1
    decreases |s|, 1
  {
    if n > 0 {
      var (t, rest) := ReadType(s).value;
      ReadTypeIsSound(s);
      ReadTypesIsSound(n - 1, rest);
      var (ts, rest') := ReadTypes(n - 1, rest).value;
      assert ([t] + ts)[1..] == ts;
    }
  }

  lemma {:induction false} ReadArgsIsSound(s: string)
    requires ReadArgs(s).Some?
    ensures s == Codes(ReadArgs(s).value.0) + ReadArgs(s).value.1
    decreases |s|
  {
    if !(s != "" && IsDigit(s[0])) {
      var (t, rest) := ReadType(s).value;
      ReadTypeIsSound(s);
      ReadArgsIsSound(rest);
      var (ts, rest') := ReadArgs(rest).value;
      assert ([t] + ts)[1..] == ts;
    }
  }

  /** Reading succeeds exactly on the codes of lines, and returns the line written. */
  lemma LinesAreUniquelyDecodable(s: string, l: Line, rest: string)
    ensures ReadLine(s) == Some((l, rest)) <==> s == LineCode(l) + rest
  {
    if s == LineCode(l) + rest {
      LineRead(l, rest);
    }
    if ReadLine(s) == Some((l, rest)) {
      ReadLineIsSound(s);
    }
  }

  lemma ReadTailIsSound(s: string)
    requires ReadTail(s).Some?
    ensures var ((params, variadic), rest) := ReadTail(s).value; s == TailCode(params, variadic) + rest
  {
    var (w, s') := Word(s).value;
    var (variadic, rest) := ReadEnd(s').value;
    Assoc(w + "_", if variadic then "v\n" else "f\n", rest);
  }

  lemma ReadLineIsSound(s: string)
    requires ReadLine(s).Some?
    ensures s == LineCode(ReadLine(s).value.0) + ReadLine(s).value.1
  {
    var (l, rest) := ReadLine(s).value;
    var (ret, s1) := ReadType(s).value;
    var (args, s2) := ReadArgs(s1).value;
    ReadTypeIsSound(s);
    ReadArgsIsSound(s1);
    ReadTailIsSound(s2);
    var tail := TailCode(l.params, l.variadic);
    Assoc(Codes(args), tail, rest);
    Assoc(Code(ret), Codes(args) + tail, rest);
    Assoc(Code(ret), Codes(args), tail);
  }

  /** No code of a type begins another one, at any depth of nesting. */
  lemma CodesArePrefixFree(t: Abi, u: Abi, x: string, y: string)
    requires Code(t) + x == Code(u) + y
    ensures t == u && x == y
  {
    TypeRead(t, x);
    TypeRead(u, y);
  }
}
