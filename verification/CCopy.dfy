/** The copying functions of string.h, which write in place. */
module CCopy {
  import opened CStrings

  /** The memory with a block put at d, and nothing else changed. */
  function Put(m: seq<byte>, d: nat, block: seq<byte>): (r: seq<byte>)
    requires d + |block| <= |m|
    ensures |r| == |m|
  {
    m[..d] + block + m[d + |block|..]
  }

  predicate Disjoint(a: nat, n: nat, b: nat, k: nat) {
    a + n <= b || b + k <= a
  }

  lemma PutOne(m: seq<byte>, d: nat, block: seq<byte>, b: byte)
    requires d + |block| < |m|
    ensures Put(m, d, block)[d + |block| := b] == Put(m, d, block + [b])
  {
  }

  lemma PutLast(m: seq<byte>, d: nat, block: seq<byte>, b: byte)
    requires d + |block| < |m|
    ensures Put(m, d, block + [b])[d + |block| := b] == Put(m, d, block + [b])
  {
  }

  lemma PutNothing(m: seq<byte>, d: nat)
    requires d <= |m|
    ensures Put(m, d, []) == m
  {
  }

  lemma PutElsewhere(m: seq<byte>, d: nat, block: seq<byte>, k: nat)
    requires d + |block| <= |m| && k < |m| && (k < d || d + |block| <= k)
    ensures Put(m, d, block)[k] == m[k]
  {
  }

  /** The block lies at d, byte by byte. */
  lemma PutInside(m: seq<byte>, d: nat, block: seq<byte>, k: nat)
    requires d + |block| <= |m| && k < |block|
    ensures Put(m, d, block)[d + k] == block[k]
  {
  }

  /** memcpy, between two arrays or two blocks of one that do not overlap. */
  method MemCpy(dst: array<byte>, d: nat, src: array<byte>, s: nat, count: nat)
    requires d + count <= dst.Length && s + count <= src.Length
    requires dst != src || Disjoint(d, count, s, count)
    modifies dst
    ensures dst[..] == Put(old(dst[..]), d, old(src[..])[s..s + count])
  {
    ghost var m, from := dst[..], src[..];
    PutNothing(m, d);
    for i := 0 to count
      invariant dst[..] == Put(m, d, from[s..s + i])
      invariant dst != src ==> src[..] == from
    {
      assert src[s + i] == from[s + i] by {
        if dst == src {
          PutElsewhere(m, d, from[s..s + i], s + i);
          assert dst[..][s + i] == from[s + i];
        } else {
          assert src[..][s + i] == from[s + i];
        }
      }
      PutOne(m, d, from[s..s + i], from[s + i]);
      dst[d + i] := src[s + i];
      assert from[s..s + i] + [from[s + i]] == from[s..s + i + 1];
    }
  }

  /** memmove: a copy through a block of its own, so the result is that of a snapshot for every
      overlap, and neither inner copy overlaps. */
  method MemMove(mem: array<byte>, s1: nat, s2: nat, n: nat)
    requires s1 + n <= mem.Length && s2 + n <= mem.Length
    modifies mem
    ensures mem[..] == Put(old(mem[..]), s1, old(mem[..])[s2..s2 + n])
  {
    ghost var m := mem[..];
    var tmp := new byte[n];
    MemCpy(tmp, 0, mem, s2, n);
    assert tmp[..] == m[s2..s2 + n];
    MemCpy(mem, s1, tmp, 0, n);
    assert tmp[..][0..n] == m[s2..s2 + n];
  }

  function Zeros(n: nat): (z: seq<byte>)
    ensures |z| == n && forall i :: 0 <= i < n ==> z[i] == 0
  {
    if n == 0 then [] else Zeros(n - 1) + [0]
  }

  /** The first `len` bytes at s are not null, and then the string ends or the bound is reached. */
  ghost predicate IsPrefix(m: seq<byte>, s: nat, bound: nat, len: nat) {
    && len <= bound && s + len <= |m|
    && 0 !in m[s..s + len]
    && (len < bound ==> s + len < |m| && m[s + len] == 0)
  }

  lemma PrefixAt(m: seq<byte>, s: nat, bound: nat, len: nat, i: nat)
    requires IsPrefix(m, s, bound, len) && i < bound && i <= len
    ensures s + i < |m| && (m[s + i] == 0 <==> i == len)
  {
    if i < len {
      assert m[s..s + len][i] == m[s + i];
      assert m[s..s + len][i] in m[s..s + len];
    }
  }

  /** Copies the i-th byte, after the ones before it, and tells what it was. */
  method CopyByte(mem: array<byte>, dest: nat, src: nat, i: nat, ghost m: seq<byte>) returns (c: byte)
    requires src + i < |m| && dest + i < |m| && Disjoint(dest, i, src + i, 1)
    requires mem[..] == Put(m, dest, m[src..src + i])
    modifies mem
    ensures mem[..] == Put(m, dest, m[src..src + i + 1]) && c == m[src + i]
  {
    PutElsewhere(m, dest, m[src..src + i], src + i);
    c := mem[src + i];
    assert c == mem[..][src + i];
    PutOne(m, dest, m[src..src + i], c);
    mem[dest + i] := c;
    assert m[src..src + i] + [c] == m[src..src + i + 1];
  }

  /** The copying loop of strncpy and strncat: byte by byte until a null byte has been copied or the
      bound is reached. */
  method CopyUntilNull(mem: array<byte>, dest: nat, src: nat, bound: nat, ghost len: nat) returns (i: nat, n: nat)
    requires IsPrefix(mem[..], src, bound, len) && dest + (if len < bound then len + 1 else len) <= mem.Length
    requires Disjoint(dest, if len < bound then len + 1 else len, src, if len < bound then len + 1 else len)
    modifies mem
    ensures i == len && n == bound - len
    ensures mem[..] == Put(old(mem[..]), dest, old(mem[..])[src..src + if len < bound then len + 1 else len])
  {
    ghost var m := mem[..];
    PutNothing(m, dest);
    n, i := bound, 0;
    while n != 0
      invariant i + n == bound && i <= len
      invariant mem[..] == Put(m, dest, m[src..src + i])
      decreases n
    {
      PrefixAt(m, src, bound, len, i);
      var c := CopyByte(mem, dest, src, i, m);
      if c == 0 {
        return;
      }
      n := n - 1;
      i := i + 1;
    }
  }

  /** strncpy: exactly n bytes are written, the prefix of the source and then null bytes. */
  method StrNCpy(mem: array<byte>, dest: nat, src: nat, bound: nat, ghost len: nat)
    requires IsPrefix(mem[..], src, bound, len)
    requires dest + bound <= mem.Length && Disjoint(dest, bound, src, if len < bound then len + 1 else len)
    modifies mem
    ensures mem[..] == Put(old(mem[..]), dest, old(mem[..])[src..src + len] + Zeros(bound - len))
  {
    ghost var m := mem[..];
    var i, n := CopyUntilNull(mem, dest, src, bound, len);
    if n == 0 {
      assert m[src..src + len] + Zeros(0) == m[src..src + len];
    } else {
      assert m[src..src + len + 1] == m[src..src + len] + [0];
      FillZeros(mem, dest, i + 1, n - 1, m, m[src..src + len]);
    }
  }

  /** The second loop of strncpy. */
  method FillZeros(mem: array<byte>, dest: nat, start: nat, n: nat, ghost m: seq<byte>, ghost prefix: seq<byte>)
    requires start == |prefix| + 1 && dest + start + n <= |m|
    requires mem[..] == Put(m, dest, prefix + [0])
    modifies mem
    ensures mem[..] == Put(m, dest, prefix + Zeros(n + 1))
  {
    assert Zeros(1) == [0];
    for k := 0 to n
      invariant mem[..] == Put(m, dest, prefix + Zeros(k + 1))
    {
      PutOne(m, dest, prefix + Zeros(k + 1), 0);
      mem[dest + start + k] := 0;
      assert prefix + Zeros(k + 1) + [0] == prefix + Zeros(k + 2);
    }
  }

  /** strncat: at most n characters of the second string and one terminator, at the end of the first. */
  method StrNCat(mem: array<byte>, s1: nat, s2: nat, bound: nat, ghost len: nat)
    requires Terminated(mem[..], s1) && IsPrefix(mem[..], s2, bound, len)
    requires s1 + Len(mem[..], s1) + len < mem.Length
    requires Disjoint(s1 + Len(mem[..], s1), len + 1, s2, if len < bound then len + 1 else len)
    modifies mem
    ensures mem[..] == Put(old(mem[..]), s1 + old(Len(mem[..], s1)), old(mem[..])[s2..s2 + len] + [0])
  {
    ghost var m := mem[..];
    var end := s1;
    while mem[end] != 0
      invariant s1 <= end <= s1 + Len(m, s1) && mem[..] == m
      decreases s1 + Len(m, s1) - end
    {
      end := end + 1;
    }
    var i, n := CopyUntilNull(mem, end, s2, bound, len);
    ghost var copied := mem[..];
    mem[end + i] := 0;
    assert mem[..] == copied[end + len := 0];
    TerminatorFits(m, end, s2, bound, len);
  }

  lemma TerminatorFits(m: seq<byte>, end: nat, s2: nat, bound: nat, len: nat)
    requires IsPrefix(m, s2, bound, len) && end + len < |m|
    ensures Put(m, end, m[s2..s2 + if len < bound then len + 1 else len])[end + len := 0] == Put(m, end, m[s2..s2 + len] + [0])
  {
    if len < bound {
      assert m[s2..s2 + len + 1] == m[s2..s2 + len] + [0];
      PutLast(m, end, m[s2..s2 + len], 0);
    } else {
      PutOne(m, end, m[s2..s2 + len], 0);
    }
  }
}
