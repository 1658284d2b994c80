/** C strings in one flat memory, and the functions of string.h that search them. A pointer is an
    index into the memory; the null pointer is None. */
module CStrings {
  import opened Wrappers

  type byte = b: int | 0 <= b < 256

  /** The value of a byte read as a char, which is signed on the platform of the library. */
  function AsChar(b: byte): int {
    if b < 128 then b else b - 256
  }

  /** Conversion of an int to char, as the byte that is stored. */
  function ToByte(c: int): byte {
    c % 256
  }

  predicate IsCharValue(c: int) {
    -128 <= c < 128
  }

  /** A string starts at p: there is a null byte at p or after it. */
  ghost predicate Terminated(m: seq<byte>, p: nat) {
    exists k :: p <= k < |m| && m[k] == 0
  }

  /** strlen. */
  ghost function Len(m: seq<byte>, p: nat): (n: nat)
    requires Terminated(m, p)
    ensures p + n < |m| && m[p + n] == 0
    ensures forall k :: p <= k < p + n ==> m[k] != 0
    decreases |m| - p
  {
    if m[p] == 0 then 0 else 1 + Len(m, p + 1)
  }

  ghost function Text(m: seq<byte>, p: nat): seq<byte>
    requires Terminated(m, p)
  {
    m[p..p + Len(m, p)]
  }

  lemma LenIs(m: seq<byte>, p: nat, n: nat)
    requires p + n < |m| && m[p + n] == 0
    requires forall k :: p <= k < p + n ==> m[k] != 0
    ensures Terminated(m, p) && Len(m, p) == n
  {
  }

  lemma LenAfter(m: seq<byte>, p: nat, i: nat)
    requires Terminated(m, p) && i <= Len(m, p)
    ensures Terminated(m, p + i) && Len(m, p + i) == Len(m, p) - i
  {
    LenIs(m, p + i, Len(m, p) - i);
  }

  /** The characters of a string, as a set. */
  ghost function CharSet(m: seq<byte>, p: nat): set<byte>
    requires Terminated(m, p)
  {
    set b | b in Text(m, p)
  }

  /** r is the first position of a byte in a string, its terminator included; None if it has none. */
  ghost predicate IsFirst(m: seq<byte>, p: nat, b: byte, r: Option<nat>)
    requires Terminated(m, p)
  {
    match r
    case Some(k) => p <= k <= p + Len(m, p) && m[k] == b && forall j :: p <= j < k ==> m[j] != b
    case None => forall j :: p <= j <= p + Len(m, p) ==> m[j] != b
  }

  /** strchr: the loop compares chars, the test after it compares with the int it was given. */
  method StrChr(mem: array<byte>, s: nat, c: int) returns (r: Option<nat>)
    requires Terminated(mem[..], s)
    ensures IsCharValue(c) ==> IsFirst(mem[..], s, ToByte(c), r)
    ensures !IsCharValue(c) ==> r == None
  {
    ghost var m := mem[..];
    var p := s;
    while mem[p] != 0 && mem[p] != ToByte(c)
      invariant s <= p <= s + Len(m, s) && m == mem[..]
      invariant forall j :: s <= j < p ==> m[j] != ToByte(c)
      decreases s + Len(m, s) - p
    {
      p := p + 1;
    }
    if AsChar(mem[p]) == c {
      r := Some(p);
    } else {
      r := None;
    }
  }

  /** ISO C converts the argument to char. The result is the one it asks for exactly when the
      argument is the value of a char, or the char it converts to does not occur. */
  lemma StrChrConforms(m: seq<byte>, s: nat, c: int, r: Option<nat>)
    requires Terminated(m, s)
    requires if IsCharValue(c) then IsFirst(m, s, ToByte(c), r) else r == None
    ensures IsFirst(m, s, ToByte(c), r) <==> IsCharValue(c) || forall j :: s <= j <= s + Len(m, s) ==> m[j] != ToByte(c)
  {
  }

  /** The string "A", searched for an int that converts to 'A' but is not a char. */
  lemma StrChrCanMiss()
    ensures var m: seq<byte> := [65, 0]; Terminated(m, 0) && ToByte(65 + 256) == 65 && !IsFirst(m, 0, 65, None)
  {
    var m: seq<byte> := [65, 0];
    assert m[1] == 0;
    assert m[0] == 65;
  }

  /** How far the string at p runs inside, or outside, a set. */
  ghost predicate IsSpan(m: seq<byte>, p: nat, chars: set<byte>, inside: bool, n: nat)
    requires Terminated(m, p)
  {
    && n <= Len(m, p)
    && (forall k :: p <= k < p + n ==> (m[k] in chars) == inside)
    && (n < Len(m, p) ==> (m[p + n] in chars) != inside)
  }

  lemma SpanIsUnique(m: seq<byte>, p: nat, chars: set<byte>, inside: bool, a: nat, b: nat)
    requires Terminated(m, p) && IsSpan(m, p, chars, inside, a) && IsSpan(m, p, chars, inside, b)
    ensures a == b
  {
  }

  /** Whether a nonzero char of one string is in another, as strspn and its like ask strchr. */
  method InSet(mem: array<byte>, set_: nat, p: nat) returns (found: bool)
    requires Terminated(mem[..], set_)
    requires p < mem.Length && mem[p] != 0
    ensures found <==> mem[p] in CharSet(mem[..], set_)
  {
    var r := StrChr(mem, set_, AsChar(mem[p]));
    assert ToByte(AsChar(mem[p])) == mem[p];
    found := r.Some?;
  }

  /** strspn. */
  method StrSpn(mem: array<byte>, s1: nat, s2: nat) returns (n: nat)
    requires Terminated(mem[..], s1) && Terminated(mem[..], s2)
    ensures IsSpan(mem[..], s1, CharSet(mem[..], s2), true, n)
  {
    n := Scan(mem, s1, s2, true);
  }

  /** strcspn. */
  method StrCSpn(mem: array<byte>, s1: nat, s2: nat) returns (n: nat)
    requires Terminated(mem[..], s1) && Terminated(mem[..], s2)
    ensures IsSpan(mem[..], s1, CharSet(mem[..], s2), false, n)
  {
    n := Scan(mem, s1, s2, false);
  }

  /** The loop that strspn and strcspn share, but for the test. */
  method Scan(mem: array<byte>, s1: nat, s2: nat, inside: bool) returns (n: nat)
    requires Terminated(mem[..], s1) && Terminated(mem[..], s2)
    ensures IsSpan(mem[..], s1, CharSet(mem[..], s2), inside, n)
  {
    ghost var m := mem[..];
    n := 0;
    while mem[s1 + n] != 0
      invariant n <= Len(m, s1) && m == mem[..]
      invariant forall k :: s1 <= k < s1 + n ==> (m[k] in CharSet(m, s2)) == inside
      decreases Len(m, s1) - n
    {
      var found := InSet(mem, s2, s1 + n);
      if found != inside {
        return;
      }
      n := n + 1;
    }
  }

  /** strpbrk. */
  method StrPBrk(mem: array<byte>, s1: nat, s2: nat) returns (r: Option<nat>)
    requires Terminated(mem[..], s1) && Terminated(mem[..], s2)
    ensures r.Some? ==> s1 <= r.value && IsSpan(mem[..], s1, CharSet(mem[..], s2), false, r.value - s1)
                        && mem[..][r.value] in CharSet(mem[..], s2)
    ensures r.None? ==> IsSpan(mem[..], s1, CharSet(mem[..], s2), false, Len(mem[..], s1))
  {
    var n := Scan(mem, s1, s2, false);
    if mem[s1 + n] != 0 {
      r := Some(s1 + n);
    } else {
      r := None;
    }
  }

  /** r is the last position of a byte from s up to but not including end; None if there is none. */
  ghost predicate IsLast(m: seq<byte>, s: nat, end: nat, b: byte, r: Option<nat>)
    requires end <= |m|
  {
    match r
    case Some(k) => s <= k < end && m[k] == b && forall j :: k < j < end ==> m[j] != b
    case None => forall j :: s <= j < end ==> m[j] != b
  }

  lemma NextIsLast(m: seq<byte>, s: nat, p: nat, b: byte, r: Option<nat>, next: nat)
    requires s <= p && Terminated(m, p) && IsLast(m, s, p, b, r) && IsFirst(m, p, b, Some(next)) && b != 0
    ensures next < p + Len(m, p) && IsLast(m, s, next + 1, b, Some(next))
    ensures Terminated(m, next + 1) && next + 1 + Len(m, next + 1) == p + Len(m, p)
  {
    LenAfter(m, p, next + 1 - p);
  }

  /** strrchr: the last position of a char, found as the first one after each match in turn. */
  method StrRChr(mem: array<byte>, s: nat, c: int) returns (r: Option<nat>)
    requires Terminated(mem[..], s)
    ensures IsCharValue(c) ==> IsLast(mem[..], s, s + Len(mem[..], s) + 1, ToByte(c), r)
    ensures !IsCharValue(c) ==> r == None
  {
    if c == 0 {
      r := StrChr(mem, s, c);
      return;
    }
    ghost var m, b := mem[..], ToByte(c);
    r := None;
    var p := s;
    var next := StrChr(mem, p, c);
    while next.Some?
      invariant s <= p && Terminated(m, p) && p + Len(m, p) == s + Len(m, s)
      invariant if IsCharValue(c) then IsFirst(m, p, b, next) && IsLast(m, s, p, b, r) else next == None && r == None
      decreases Len(m, p), if next.Some? then 1 else 0
    {
      NextIsLast(m, s, p, b, r, next.value);
      r := next;
      p := next.value + 1;
      next := StrChr(mem, p, c);
    }
  }

  /** As with strchr, the result is the one ISO C asks for exactly when the argument is a char, or the
      char it converts to does not occur. */
  lemma StrRChrConforms(m: seq<byte>, s: nat, c: int, r: Option<nat>)
    requires Terminated(m, s)
    requires if IsCharValue(c) then IsLast(m, s, s + Len(m, s) + 1, ToByte(c), r) else r == None
    ensures IsLast(m, s, s + Len(m, s) + 1, ToByte(c), r) <==>
            IsCharValue(c) || forall j :: s <= j <= s + Len(m, s) ==> m[j] != ToByte(c)
  {
  }
}
