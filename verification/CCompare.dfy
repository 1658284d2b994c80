/** The comparison functions of string.h, which agree on one order, and strstr, which rests on them. */
module CCompare {
  import opened Wrappers
  import opened CStrings

  // ----- The order -----

  /** Lexicographic order on sequences of unsigned bytes, as -1, 0 or 1. */
  function Compare(a: seq<byte>, b: seq<byte>): int {
    if a == [] then (if b == [] then 0 else -1)
    else if b == [] then 1
    else if a[0] < b[0] then -1
    else if a[0] > b[0] then 1
    else Compare(a[1..], b[1..])
  }

  lemma {:induction false} CompareIsTotal(a: seq<byte>, b: seq<byte>)
    ensures Compare(a, b) == -Compare(b, a)
    ensures Compare(a, b) == 0 <==> a == b
  {
    if a != [] && b != [] {
      CompareIsTotal(a[1..], b[1..]);
      if a[0] == b[0] && a[1..] == b[1..] {
        assert a == [a[0]] + a[1..] && b == [b[0]] + b[1..];
      }
    }
  }

  lemma {:induction false} CompareIsTransitive(a: seq<byte>, b: seq<byte>, c: seq<byte>)
    requires Compare(a, b) <= 0 && Compare(b, c) <= 0
    ensures Compare(a, c) <= 0
    ensures Compare(a, c) == 0 ==> Compare(a, b) == 0 && Compare(b, c) == 0
  {
    if a != [] && b != [] && c != [] {
      if a[0] == b[0] == c[0] {
        CompareIsTransitive(a[1..], b[1..], c[1..]);
      }
    }
  }

  function Sign(x: int, y: int): int {
    if x < y then -1 else if x > y then 1 else 0
  }

  /** The element of a sequence, or what ends it: lower than any byte of a string. */
  function At(s: seq<byte>, d: nat): int {
    if d < |s| then s[d] else -1
  }

  /** Where two sequences first differ decides how they compare. */
  lemma {:induction false} CompareAt(a: seq<byte>, b: seq<byte>, d: nat)
    requires d <= |a| && d <= |b| && forall k :: 0 <= k < d ==> a[k] == b[k]
    requires At(a, d) != At(b, d) || (d == |a| == |b|)
    ensures Compare(a, b) == Sign(At(a, d), At(b, d))
    decreases d
  {
    if d > 0 {
      forall k | 0 <= k < d - 1 ensures a[1..][k] == b[1..][k] {
        assert a[1..][k] == a[k + 1] && b[1..][k] == b[k + 1];
      }
      CompareAt(a[1..], b[1..], d - 1);
    }
  }

  // ----- The byte that decides -----

  /** The k-th byte from p on. */
  function Byte(m: seq<byte>, p: nat, k: nat): byte
    requires p + k < |m|
  {
    m[p + k]
  }

  /** The strings agree on their first d bytes and do not end there. */
  ghost predicate Agree(m: seq<byte>, p: nat, q: nat, d: nat)
    requires p + d <= |m| && q + d <= |m|
  {
    forall k :: 0 <= k < d ==> Byte(m, p, k) == Byte(m, q, k) != 0
  }

  lemma AgreeAt(m: seq<byte>, p: nat, q: nat, d: nat, i: nat)
    requires p + d <= |m| && q + d <= |m| && Agree(m, p, q, d)
    ensures i < d ==> m[p + i] == m[q + i] != 0
  {
    if i < d {
      assert Byte(m, p, i) == Byte(m, q, i) != 0;
    }
  }

  /** The strings agree before d, without ending, and d decides: the bytes there differ or both end,
      or the bound is reached. Nothing after d has to be readable. */
  ghost predicate Decides(m: seq<byte>, p: nat, q: nat, bound: nat, d: nat) {
    && d <= bound && p + d <= |m| && q + d <= |m|
    && Agree(m, p, q, d)
    && (d < bound ==> p + d < |m| && q + d < |m| && (m[p + d] != m[q + d] || m[p + d] == 0))
  }

  /** The result at the deciding position. */
  ghost function Verdict(m: seq<byte>, p: nat, q: nat, bound: nat, d: nat): int
    requires Decides(m, p, q, bound, d)
  {
    if d == bound then 0 else Sign(m[p + d], m[q + d])
  }

  function Take(s: seq<byte>, n: nat): seq<byte> {
    if |s| <= n then s else s[..n]
  }

  /** On strings the verdict is the order of the texts, cut off at the bound. */
  lemma VerdictIsOrder(m: seq<byte>, p: nat, q: nat, bound: nat, d: nat)
    requires Decides(m, p, q, bound, d) && Terminated(m, p) && Terminated(m, q)
    ensures Verdict(m, p, q, bound, d) == Compare(Take(Text(m, p), bound), Take(Text(m, q), bound))
  {
    var a, b := Take(Text(m, p), bound), Take(Text(m, q), bound);
    EndsNoEarlier(m, p, q, d);
    TakenAt(m, p, bound, d);
    TakenAt(m, q, bound, d);
    forall k | 0 <= k < d ensures a[k] == b[k] {
      assert Byte(m, p, k) == Byte(m, q, k);
    }
    CompareAt(a, b, d);
  }

  /** The taken part of a string reaches d, and holds there what the memory does. */
  lemma TakenAt(m: seq<byte>, p: nat, bound: nat, d: nat)
    requires Terminated(m, p) && d <= bound && d <= Len(m, p)
    ensures var a := Take(Text(m, p), bound);
      d <= |a| && (forall k :: 0 <= k < d ==> a[k] == Byte(m, p, k))
      && (d == |a| ==> d == bound || m[p + d] == 0)
      && (d < |a| ==> d < bound && a[d] == m[p + d] != 0)
  {
  }

  lemma EndsNoEarlier(m: seq<byte>, p: nat, q: nat, d: nat)
    requires Terminated(m, p) && Terminated(m, q) && p + d <= |m| && q + d <= |m| && Agree(m, p, q, d)
    ensures d <= Len(m, p) && d <= Len(m, q)
  {
    AgreeAt(m, p, q, d, Len(m, p));
    AgreeAt(m, p, q, d, Len(m, q));
  }

  lemma SomethingDecides(m: seq<byte>, p: nat, q: nat, bound: nat) returns (d: nat)
    requires Terminated(m, p) && Terminated(m, q)
    ensures Decides(m, p, q, bound, d)
  {
    d := 0;
    while d < bound && m[p + d] == m[q + d] && m[p + d] != 0
      invariant d <= bound && d <= Len(m, p) && d <= Len(m, q)
      invariant Agree(m, p, q, d)
    {
      assert d != Len(m, p) && d != Len(m, q);
      d := d + 1;
    }
  }

  // ----- The functions -----

  /** strcmp. Any bound past the deciding byte describes it. */
  method StrCmp(mem: array<byte>, s1: nat, s2: nat, ghost bound: nat, ghost d: nat) returns (r: int)
    requires Decides(mem[..], s1, s2, bound, d) && d < bound
    ensures r == Verdict(mem[..], s1, s2, bound, d)
    ensures Terminated(mem[..], s1) && Terminated(mem[..], s2) ==> r == Compare(Text(mem[..], s1), Text(mem[..], s2))
  {
    ghost var m := mem[..];
    var i := 0;
    while mem[s1 + i] == mem[s2 + i]
      invariant i <= d && m == mem[..]
      decreases d - i
    {
      AgreeAt(m, s1, s2, d, i);
      if mem[s1 + i] == 0 {
        break;
      }
      i := i + 1;
    }
    AgreeAt(m, s1, s2, d, i);
    assert i == d;
    r := if mem[s1 + i] == mem[s2 + i] then 0 else if mem[s1 + i] < mem[s2 + i] then -1 else 1;
    if Terminated(m, s1) && Terminated(m, s2) {
      var big := Len(m, s1) + Len(m, s2) + bound;
      assert Decides(m, s1, s2, big, d);
      VerdictIsOrder(m, s1, s2, big, d);
    }
  }

  /** strncmp: never reads past the byte that decides. */
  method StrNCmp(mem: array<byte>, s1: nat, s2: nat, bound: nat, ghost d: nat) returns (r: int)
    requires Decides(mem[..], s1, s2, bound, d)
    ensures r == Verdict(mem[..], s1, s2, bound, d)
    ensures Terminated(mem[..], s1) && Terminated(mem[..], s2) ==>
              r == Compare(Take(Text(mem[..], s1), bound), Take(Text(mem[..], s2), bound))
  {
    ghost var m := mem[..];
    if Terminated(m, s1) && Terminated(m, s2) {
      VerdictIsOrder(m, s1, s2, bound, d);
    }
    if bound == 0 {
      return 0;
    }
    var n, i := bound, 0;
    while n > 0 && mem[s1 + i] == mem[s2 + i]
      invariant i + n == bound && n > 0 && i <= d && m == mem[..]
      decreases n
    {
      n := n - 1;
      AgreeAt(m, s1, s2, d, i);
      if n == 0 || mem[s1 + i] == 0 {
        return 0;
      }
      i := i + 1;
    }
    AgreeAt(m, s1, s2, d, i);
    assert i == d;
    r := if mem[s1 + i] < mem[s2 + i] then -1 else if mem[s1 + i] > mem[s2 + i] then 1 else 0;
  }

  /** The first d bytes of two blocks are the same. */
  ghost predicate Same(m: seq<byte>, p: nat, q: nat, d: nat)
    requires p + d <= |m| && q + d <= |m|
  {
    forall k :: 0 <= k < d ==> Byte(m, p, k) == Byte(m, q, k)
  }

  lemma SameAt(m: seq<byte>, p: nat, q: nat, d: nat, i: nat)
    requires p + d <= |m| && q + d <= |m| && Same(m, p, q, d)
    ensures i < d ==> m[p + i] == m[q + i]
  {
    if i < d {
      assert Byte(m, p, i) == Byte(m, q, i);
    }
  }

  lemma BlocksCompare(m: seq<byte>, p: nat, q: nat, n: nat, d: nat)
    requires d <= n && p + n <= |m| && q + n <= |m| && Same(m, p, q, d) && (d < n ==> m[p + d] != m[q + d])
    ensures Compare(m[p..p + n], m[q..q + n]) == if d == n then 0 else Sign(m[p + d], m[q + d])
  {
    var a, b := m[p..p + n], m[q..q + n];
    forall k | 0 <= k < d ensures a[k] == b[k] {
      SameAt(m, p, q, d, k);
    }
    CompareAt(a, b, d);
  }

  /** memcmp: the same order on blocks, and no byte is read past the first that differs, at d. */
  method MemCmp(mem: array<byte>, s1: nat, s2: nat, n: nat, ghost d: nat) returns (r: int)
    requires d <= n && s1 + d <= mem.Length && s2 + d <= mem.Length && Same(mem[..], s1, s2, d)
    requires d < n ==> s1 + d < mem.Length && s2 + d < mem.Length && mem[s1 + d] != mem[s2 + d]
    ensures r == if d == n then 0 else Sign(mem[s1 + d], mem[s2 + d])
    ensures s1 + n <= mem.Length && s2 + n <= mem.Length ==> r == Compare(mem[..][s1..s1 + n], mem[..][s2..s2 + n])
  {
    ghost var m := mem[..];
    if s1 + n <= mem.Length && s2 + n <= mem.Length {
      BlocksCompare(m, s1, s2, n, d);
    }
    var left, i := n, 0;
    while left != 0
      invariant i + left == n && i <= d && m == mem[..]
      decreases left
    {
      left := left - 1;
      SameAt(m, s1, s2, d, i);
      if mem[s1 + i] != mem[s2 + i] {
        r := if mem[s1 + i] < mem[s2 + i] then -1 else 1;
        return;
      }
      i := i + 1;
    }
    r := 0;
  }

  // ----- strstr -----

  /** The needle occurs at k in the string at h. */
  ghost predicate OccursAt(m: seq<byte>, h: nat, needle: nat, k: nat)
    requires Terminated(m, h) && Terminated(m, needle)
  {
    h <= k && k + Len(m, needle) <= h + Len(m, h) && m[k..k + Len(m, needle)] == Text(m, needle)
  }

  lemma OccursIffEqual(m: seq<byte>, h: nat, needle: nat, k: nat)
    requires Terminated(m, h) && Terminated(m, needle) && h <= k <= h + Len(m, h)
    ensures Terminated(m, k)
    ensures OccursAt(m, h, needle, k) <==> Compare(Take(Text(m, k), Len(m, needle)), Take(Text(m, needle), Len(m, needle))) == 0
  {
    var n := Len(m, needle);
    LenAfter(m, h, k - h);
    CompareIsTotal(Take(Text(m, k), n), Text(m, needle));
    if k + n <= h + Len(m, h) {
      assert Take(Text(m, k), n) == m[k..k + n];
    }
  }

  /** The first char of an occurrence is that of the needle. */
  lemma OccurrenceStarts(m: seq<byte>, h: nat, needle: nat, k: nat)
    requires Terminated(m, h) && Terminated(m, needle) && m[needle] != 0 && OccursAt(m, h, needle, k)
    ensures k < h + Len(m, h) && m[k] == m[needle]
  {
    assert m[k..k + Len(m, needle)][0] == Text(m, needle)[0];
  }

  method StrLen(mem: array<byte>, s: nat) returns (n: nat)
    requires Terminated(mem[..], s)
    ensures n == Len(mem[..], s)
  {
    n := 0;
    while mem[s + n] != 0
      invariant n <= Len(mem[..], s)
      decreases Len(mem[..], s) - n
    {
      n := n + 1;
    }
  }

  /** No occurrence of the needle starts before p. */
  ghost predicate NoneBefore(m: seq<byte>, h: nat, needle: nat, p: nat)
    requires Terminated(m, h) && Terminated(m, needle)
  {
    forall k: nat :: OccursAt(m, h, needle, k) ==> p <= k
  }

  lemma NoneBeforeNext(m: seq<byte>, h: nat, needle: nat, p: nat)
    requires Terminated(m, h) && Terminated(m, needle) && NoneBefore(m, h, needle, p) && !OccursAt(m, h, needle, p)
    ensures NoneBefore(m, h, needle, p + 1)
  {
  }

  /** Looking on from p for the first char of the needle misses no occurrence. */
  lemma NextCandidate(m: seq<byte>, h: nat, needle: nat, p: nat, r: Option<nat>)
    requires Terminated(m, h) && Terminated(m, needle) && m[needle] != 0
    requires h <= p && Terminated(m, p) && p + Len(m, p) == h + Len(m, h)
    requires NoneBefore(m, h, needle, p) && IsFirst(m, p, m[needle], r)
    ensures r.Some? ==> NoneBefore(m, h, needle, r.value)
    ensures r.None? ==> forall k: nat :: !OccursAt(m, h, needle, k)
  {
    forall k: nat | OccursAt(m, h, needle, k) ensures r.Some? && r.value <= k {
      OccurrenceStarts(m, h, needle, k);
    }
  }

  /** The test in the loop of strstr. */
  method Matches(mem: array<byte>, ghost haystack: nat, at: nat, needle: nat, n: nat) returns (found: bool)
    requires Terminated(mem[..], haystack) && Terminated(mem[..], needle) && n == Len(mem[..], needle)
    requires haystack <= at <= haystack + Len(mem[..], haystack)
    ensures found <==> OccursAt(mem[..], haystack, needle, at)
  {
    OccursIffEqual(mem[..], haystack, needle, at);
    ghost var d := SomethingDecides(mem[..], at, needle, n);
    var order := StrNCmp(mem, at, needle, n, d);
    found := order == 0;
  }

  /** The state of the loop of strstr: r is where the needle can first occur, from p on. */
  ghost predicate Searching(m: seq<byte>, h: nat, needle: nat, p: nat, r: Option<nat>)
    requires Terminated(m, h) && Terminated(m, needle)
  {
    && h <= p && Terminated(m, p) && p + Len(m, p) == h + Len(m, h)
    && IsFirst(m, p, m[needle], r)
    && NoneBefore(m, h, needle, p)
  }

  lemma SearchOn(m: seq<byte>, h: nat, needle: nat, p: nat, at: nat)
    requires Terminated(m, h) && Terminated(m, needle) && m[needle] != 0
    requires Searching(m, h, needle, p, Some(at)) && !OccursAt(m, h, needle, at)
    ensures Terminated(m, at + 1) && at + 1 + Len(m, at + 1) == h + Len(m, h) && Len(m, at + 1) < Len(m, p)
    ensures NoneBefore(m, h, needle, at + 1)
  {
    NextCandidate(m, h, needle, p, Some(at));
    NoneBeforeNext(m, h, needle, at);
    LenAfter(m, p, at + 1 - p);
  }

  /** strstr: the first place where the whole needle occurs, and null exactly when there is none. */
  method StrStr(mem: array<byte>, haystack: nat, needle: nat) returns (r: Option<nat>)
    requires Terminated(mem[..], haystack) && Terminated(mem[..], needle)
    ensures r.Some? ==> OccursAt(mem[..], haystack, needle, r.value) && NoneBefore(mem[..], haystack, needle, r.value)
    ensures r.None? ==> forall k: nat :: !OccursAt(mem[..], haystack, needle, k)
  {
    if mem[needle] == 0 {
      return Some(haystack);
    }
    r := StrStrFrom(mem, haystack, needle);
  }

  /** The loop of strstr, for a needle that is not empty. */
  method StrStrFrom(mem: array<byte>, haystack: nat, needle: nat) returns (r: Option<nat>)
    requires Terminated(mem[..], haystack) && Terminated(mem[..], needle) && mem[..][needle] != 0
    ensures r.Some? ==> OccursAt(mem[..], haystack, needle, r.value) && NoneBefore(mem[..], haystack, needle, r.value)
    ensures r.None? ==> forall k: nat :: !OccursAt(mem[..], haystack, needle, k)
  {
    var n := StrLen(mem, needle);
    var c := AsChar(mem[needle]);
    var p: nat := haystack;
    r := StrChr(mem, p, c);
    while r.Some?
      invariant Searching(mem[..], haystack, needle, p, r)
      decreases Len(mem[..], p), if r.Some? then 1 else 0
    {
      var found := Matches(mem, haystack, r.value, needle, n);
      if found {
        NextCandidate(mem[..], haystack, needle, p, r);
        return;
      }
      SearchOn(mem[..], haystack, needle, p, r.value);
      p := r.value + 1;
      r := StrChr(mem, p, c);
    }
    NextCandidate(mem[..], haystack, needle, p, r);
  }
}
