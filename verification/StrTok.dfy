/** strtok_r and strtok: one string is cut into tokens over a run of calls. */
module StrTok {
  import opened Wrappers
  import opened CStrings

  // ----- One call -----

  /** The end of the string at p, or beyond. */
  ghost predicate Bounded(m: seq<byte>, p: nat, hi: nat) {
    p <= hi < |m| && m[hi] == 0
  }

  /** The first position from p on that is not inside, or not outside, a set, or that ends the string. */
  ghost function Skip(m: seq<byte>, p: nat, hi: nat, delims: set<byte>, inside: bool): (a: nat)
    requires Bounded(m, p, hi)
    ensures p <= a <= hi && (m[a] == 0 || (m[a] in delims) != inside)
    decreases hi - p
  {
    if m[p] == 0 || (m[p] in delims) != inside then p else Skip(m, p + 1, hi, delims, inside)
  }

  lemma {:induction false} SkipIsSpan(m: seq<byte>, p: nat, delims: set<byte>, inside: bool, n: nat)
    requires Terminated(m, p) && IsSpan(m, p, delims, inside, n)
    ensures Bounded(m, p, p + Len(m, p)) && Skip(m, p, p + Len(m, p), delims, inside) == p + n
    decreases n
  {
    if n > 0 {
      LenAfter(m, p, 1);
      assert m[p] != 0 && (m[p] in delims) == inside;
      SkipIsSpan(m, p + 1, delims, inside, n - 1);
    }
  }

  lemma {:induction false} SkipPasses(m: seq<byte>, p: nat, hi: nat, delims: set<byte>, inside: bool)
    requires Bounded(m, p, hi)
    ensures forall k :: p <= k < Skip(m, p, hi, delims, inside) ==> m[k] != 0 && (m[k] in delims) == inside
    decreases hi - p
  {
    if m[p] != 0 && (m[p] in delims) == inside {
      SkipPasses(m, p + 1, hi, delims, inside);
    }
  }

  /** What a call leaves: the memory, the token it returns and the saved pointer. */
  datatype Call = Call(mem: seq<byte>, token: Option<nat>, saved: nat)

  /** What one call does, from p, in a string that ends by hi, when the literal "" is at `empty`. */
  ghost function Step(m: seq<byte>, p: nat, hi: nat, delims: set<byte>, empty: nat): Call
    requires Bounded(m, p, hi)
  {
    var a := Skip(m, p, hi, delims, true);
    if m[a] == 0 then Call(m, None, empty)
    else
      var b := Skip(m, a, hi, delims, false);
      if m[b] == 0 then Call(m, Some(a), b) else Call(m[b := 0], Some(a), b + 1)
  }

  method FindStart(mem: array<byte>, p: nat, delimiters: nat, ghost hi: nat, ghost delims: set<byte>) returns (a: nat)
    requires Terminated(mem[..], p) && hi == p + Len(mem[..], p)
    requires Terminated(mem[..], delimiters) && delims == CharSet(mem[..], delimiters)
    ensures Bounded(mem[..], p, hi) && a == Skip(mem[..], p, hi, delims, true)
    ensures Terminated(mem[..], a) && a + Len(mem[..], a) == hi
  {
    var n := StrSpn(mem, p, delimiters);
    SkipIsSpan(mem[..], p, delims, true, n);
    LenAfter(mem[..], p, n);
    a := p + n;
  }

  method FindEnd(mem: array<byte>, a: nat, delimiters: nat, ghost hi: nat, ghost delims: set<byte>) returns (b: nat)
    requires Terminated(mem[..], a) && hi == a + Len(mem[..], a)
    requires Terminated(mem[..], delimiters) && delims == CharSet(mem[..], delimiters)
    ensures Bounded(mem[..], a, hi) && b == Skip(mem[..], a, hi, delims, false)
  {
    var n := StrCSpn(mem, a, delimiters);
    SkipIsSpan(mem[..], a, delims, false, n);
    b := a + n;
  }

  /** Ends the token before `end`, and gives the place to go on from. */
  method EndToken(mem: array<byte>, end: nat) returns (next: nat)
    requires end < mem.Length
    modifies mem
    ensures mem[..] == old(mem[..])[end := 0]
    ensures next == if old(mem[end]) == 0 then end else end + 1
  {
    next := end;
    if mem[end] != 0 {
      mem[end] := 0;
      next := end + 1;
    }
  }

  /** strtok_r. The saved pointer is passed in and out; hi is where the string it works on ends, and
      delims holds the delimiters. */
  method StrTokR(mem: array<byte>, s: Option<nat>, delimiters: nat, saved: nat, empty: nat, ghost hi: nat, ghost delims: set<byte>)
    returns (r: Option<nat>, saved': nat)
    requires var p := if s.Some? then s.value else saved; Terminated(mem[..], p) && hi == p + Len(mem[..], p)
    requires Terminated(mem[..], delimiters) && delims == CharSet(mem[..], delimiters)
    modifies mem
    ensures var p := if s.Some? then s.value else saved;
            && Bounded(old(mem[..]), p, hi)
            && Call(mem[..], r, saved') == Step(old(mem[..]), p, hi, delims, empty)
  {
    ghost var m := mem[..];
    var begin := FindStart(mem, if s.Some? then s.value else saved, delimiters, hi, delims);
    if mem[begin] == 0 {
      return None, empty;
    }
    var end := FindEnd(mem, begin, delimiters, hi, delims);
    var next := EndToken(mem, end);
    assert m[end] == 0 ==> m[end := 0] == m;
    return Some(begin), next;
  }

  /** strtok keeps the saved pointer between calls. */
  class Tokenizer {
    var saved: nat

    constructor (empty: nat)
      ensures saved == empty
    {
      saved := empty;
    }

    method StrTok(mem: array<byte>, s: Option<nat>, delimiters: nat, empty: nat, ghost hi: nat, ghost delims: set<byte>)
      returns (r: Option<nat>)
      requires var p := if s.Some? then s.value else saved; Terminated(mem[..], p) && hi == p + Len(mem[..], p)
      requires Terminated(mem[..], delimiters) && delims == CharSet(mem[..], delimiters)
      modifies mem, this
      ensures var p := if s.Some? then s.value else old(saved);
              && Bounded(old(mem[..]), p, hi)
              && Call(mem[..], r, saved) == Step(old(mem[..]), p, hi, delims, empty)
    {
      r, saved := StrTokR(mem, s, delimiters, saved, empty, hi, delims);
    }
  }

  // ----- The tokens of a string -----

  datatype Range = Range(start: nat, end: nat)

  /** The tokens of the string at p, in order. */
  ghost function Tokens(m: seq<byte>, p: nat, hi: nat, delims: set<byte>): seq<Range>
    requires Bounded(m, p, hi)
    decreases hi - p
  {
    var a := Skip(m, p, hi, delims, true);
    if m[a] == 0 then []
    else
      var b := Skip(m, a, hi, delims, false);
      if m[b] == 0 then [Range(a, b)] else [Range(a, b)] + Tokens(m, b + 1, hi, delims)
  }

  /** A nonempty run without a delimiter, in the string from p to hi, that cannot be made longer. */
  ghost predicate IsMaximalRun(m: seq<byte>, p: nat, hi: nat, delims: set<byte>, r: Range)
    requires Bounded(m, p, hi)
  {
    && p <= r.start < r.end <= hi
    && (forall k :: r.start <= k < r.end ==> m[k] !in delims)
    && (r.start > p ==> m[r.start - 1] in delims)
    && (r.end < hi ==> m[r.end] in delims)
  }

  lemma RunsSplit(m: seq<byte>, p: nat, hi: nat, delims: set<byte>, a: nat, b: nat, r: Range)
    requires Bounded(m, p, hi) && p <= a < b < hi
    requires forall k :: p <= k < a ==> m[k] in delims
    requires forall k :: a <= k < b ==> m[k] !in delims
    requires m[b] in delims
    ensures IsMaximalRun(m, p, hi, delims, r) <==> r == Range(a, b) || IsMaximalRun(m, b + 1, hi, delims, r)
  {
    if IsMaximalRun(m, p, hi, delims, r) && r.start <= b {
      assert m[r.start] !in delims;
      assert r.start == a;
    }
  }

  lemma LastRun(m: seq<byte>, p: nat, hi: nat, delims: set<byte>, a: nat, r: Range)
    requires Bounded(m, p, hi) && p <= a <= hi
    requires forall k :: p <= k < a ==> m[k] in delims
    requires forall k :: a <= k < hi ==> m[k] !in delims
    ensures IsMaximalRun(m, p, hi, delims, r) <==> r == Range(a, hi) && a < hi
  {
    if IsMaximalRun(m, p, hi, delims, r) {
      assert m[r.start] !in delims;
      assert r.start == a;
    }
  }

  /** The tokens are exactly the maximal runs. */
  lemma {:induction false} TokensAreTheMaximalRuns(m: seq<byte>, p: nat, hi: nat, delims: set<byte>, r: Range)
    requires Bounded(m, p, hi) && forall k :: p <= k < hi ==> m[k] != 0
    ensures r in Tokens(m, p, hi, delims) <==> IsMaximalRun(m, p, hi, delims, r)
    decreases hi - p
  {
    var a := Skip(m, p, hi, delims, true);
    SkipPasses(m, p, hi, delims, true);
    if a == hi {
      LastRun(m, p, hi, delims, a, r);
    } else {
      var b := Skip(m, a, hi, delims, false);
      SkipPasses(m, a, hi, delims, false);
      if b == hi {
        LastRun(m, p, hi, delims, a, r);
      } else {
        TokensAreTheMaximalRuns(m, b + 1, hi, delims, r);
        RunsSplit(m, p, hi, delims, a, b, r);
        TokensUnfold(m, p, hi, delims, a, b, r);
      }
    }
  }

  lemma TokensUnfold(m: seq<byte>, p: nat, hi: nat, delims: set<byte>, a: nat, b: nat, r: Range)
    requires Bounded(m, p, hi) && a == Skip(m, p, hi, delims, true) < hi && b == Skip(m, a, hi, delims, false) < hi
    requires m[a] != 0 && m[b] != 0
    ensures r in Tokens(m, p, hi, delims) <==> r == Range(a, b) || r in Tokens(m, b + 1, hi, delims)
  {
    var rest := Tokens(m, b + 1, hi, delims);
    assert r in [Range(a, b)] + rest <==> r == Range(a, b) || r in rest;
  }

  /** The ranges lie between lo and hi, each past the byte that ends the one before. */
  ghost predicate InOrder(lo: nat, hi: nat, ts: seq<Range>) {
    && (forall i :: 0 <= i < |ts| ==> lo <= ts[i].start < ts[i].end <= hi)
    && (forall i, j :: 0 <= i < j < |ts| ==> ts[i].end < ts[j].start)
  }

  lemma InOrderCons(lo: nat, a: nat, b: nat, hi: nat, rest: seq<Range>)
    requires lo <= a < b <= hi && InOrder(b + 1, hi, rest)
    ensures InOrder(lo, hi, [Range(a, b)] + rest)
  {
  }

  /** They come in order, each after the delimiter that ends the one before. */
  lemma {:induction false} TokensAreInOrder(m: seq<byte>, p: nat, hi: nat, delims: set<byte>)
    requires Bounded(m, p, hi)
    ensures InOrder(p, hi, Tokens(m, p, hi, delims))
    decreases hi - p
  {
    var a := Skip(m, p, hi, delims, true);
    if m[a] != 0 {
      var b := Skip(m, a, hi, delims, false);
      if m[b] != 0 {
        TokensAreInOrder(m, b + 1, hi, delims);
        InOrderCons(p, a, b, hi, Tokens(m, b + 1, hi, delims));
      }
    }
  }

  // ----- A run of calls -----

  function Min(a: nat, b: nat): nat {
    if a <= b then a else b
  }

  /** The string at p ends at hi. */
  ghost predicate EndsAt(m: seq<byte>, p: nat, hi: nat) {
    Bounded(m, p, hi) && forall k :: p <= k < hi ==> m[k] != 0
  }

  ghost predicate SameFrom(m: seq<byte>, w: seq<byte>, p: nat) {
    |w| == |m| && forall k :: p <= k < |m| ==> w[k] == m[k]
  }

  lemma {:induction false} SkipFrame(m: seq<byte>, w: seq<byte>, p: nat, hi: nat, delims: set<byte>, inside: bool)
    requires Bounded(m, p, hi) && SameFrom(m, w, p)
    ensures Bounded(w, p, hi) && Skip(w, p, hi, delims, inside) == Skip(m, p, hi, delims, inside)
    decreases hi - p
  {
    if p < hi {
      SkipFrame(m, w, p + 1, hi, delims, inside);
    }
  }

  /** Where the search goes on after a token that ends at b. */
  function Past(b: nat, hi: nat): nat {
    if b < hi then b + 1 else b
  }

  /** The tokens of a run of calls, each with delimiters of its own; the run ends early when a call
      finds no token. */
  ghost function Taken(m: seq<byte>, p: nat, hi: nat, ds: seq<set<byte>>): (ts: seq<Range>)
    requires EndsAt(m, p, hi)
    ensures |ts| <= |ds|
    decreases |ds|
  {
    if ds == [] then []
    else
      var a := Skip(m, p, hi, ds[0], true);
      if a == hi then []
      else
        var b := Skip(m, a, hi, ds[0], false);
        [Range(a, b)] + Taken(m, Past(b, hi), hi, ds[1..])
  }

  /** The first run without a delimiter from a place on: delimiters come before it, and one ends it
      unless the string does. */
  ghost predicate IsNextRun(m: seq<byte>, from: nat, hi: nat, delims: set<byte>, r: Range)
    requires hi < |m|
  {
    && from <= r.start < r.end <= hi
    && (forall k :: from <= k < r.start ==> m[k] in delims)
    && (forall k :: r.start <= k < r.end ==> m[k] !in delims)
    && (r.end < hi ==> m[r.end] in delims)
  }

  /** From a place on, each call takes the next run under its own delimiters, and the first call that
      finds none has only delimiters before it. */
  ghost predicate Searched(m: seq<byte>, from: nat, hi: nat, ds: seq<set<byte>>, ts: seq<Range>)
    requires hi < |m|
    decreases |ts|
  {
    if ts == [] then ds != [] ==> forall k :: from <= k < hi ==> m[k] in ds[0]
    else
      && ds != []
      && IsNextRun(m, from, hi, ds[0], ts[0])
      && Searched(m, Past(ts[0].end, hi), hi, ds[1..], ts[1..])
  }

  lemma {:induction false} TakenIsSearched(m: seq<byte>, p: nat, hi: nat, ds: seq<set<byte>>)
    requires EndsAt(m, p, hi)
    ensures Searched(m, p, hi, ds, Taken(m, p, hi, ds))
    decreases |ds|
  {
    if ds != [] {
      var a := Skip(m, p, hi, ds[0], true);
      SkipPasses(m, p, hi, ds[0], true);
      if a < hi {
        var b := Skip(m, a, hi, ds[0], false);
        SkipPasses(m, a, hi, ds[0], false);
        var rest := Taken(m, Past(b, hi), hi, ds[1..]);
        TakenIsSearched(m, Past(b, hi), hi, ds[1..]);
        assert ([Range(a, b)] + rest)[1..] == rest;
      }
    }
  }

  lemma {:induction false} TakenIsInOrder(m: seq<byte>, p: nat, hi: nat, ds: seq<set<byte>>)
    requires EndsAt(m, p, hi)
    ensures InOrder(p, hi, Taken(m, p, hi, ds))
    ensures p == hi ==> Taken(m, p, hi, ds) == []
    decreases |ds|
  {
    if ds != [] {
      var a := Skip(m, p, hi, ds[0], true);
      if a < hi {
        var b := Skip(m, a, hi, ds[0], false);
        TakenIsInOrder(m, Past(b, hi), hi, ds[1..]);
        InOrderCons(p, a, b, hi, Taken(m, Past(b, hi), hi, ds[1..]));
      }
    }
  }

  /** With the same delimiters in every call, the tokens taken are those of the string, as many as
      there are calls. */
  lemma {:induction false} TakenWithTheSame(m: seq<byte>, p: nat, hi: nat, delims: set<byte>, ds: seq<set<byte>>)
    requires EndsAt(m, p, hi) && forall i :: 0 <= i < |ds| ==> ds[i] == delims
    ensures var ts := Tokens(m, p, hi, delims); Taken(m, p, hi, ds) == ts[..Min(|ds|, |ts|)]
    decreases |ds|
  {
    if ds != [] {
      var a := Skip(m, p, hi, delims, true);
      if a < hi {
        var b := Skip(m, a, hi, delims, false);
        TakenWithTheSame(m, Past(b, hi), hi, delims, ds[1..]);
        if b == hi {
          TakenIsInOrder(m, hi, hi, ds[1..]);
        }
      }
    }
  }

  /** The tokens depend only on the string from p on. */
  lemma {:induction false} TakenFrame(m: seq<byte>, w: seq<byte>, p: nat, hi: nat, ds: seq<set<byte>>)
    requires EndsAt(m, p, hi) && SameFrom(m, w, p)
    ensures EndsAt(w, p, hi) && Taken(w, p, hi, ds) == Taken(m, p, hi, ds)
    decreases |ds|
  {
    if ds != [] {
      var a := Skip(m, p, hi, ds[0], true);
      SkipFrame(m, w, p, hi, ds[0], true);
      if a < hi {
        SkipFrame(m, w, a, hi, ds[0], false);
        TakenFrame(m, w, Past(Skip(m, a, hi, ds[0], false), hi), hi, ds[1..]);
      }
    }
  }

  /** One call takes the first token off the string, cuts the string after it, and leaves the rest of
      the tokens for the calls to come; the string left is shorter. With no token left it changes
      nothing and leaves the empty string, which never has one. */
  lemma StepTakesFirst(m: seq<byte>, p: nat, hi: nat, ds: seq<set<byte>>, empty: nat)
    requires EndsAt(m, p, hi) && empty < |m| && m[empty] == 0 && ds != []
    ensures var call, ts := Step(m, p, hi, ds[0], empty), Taken(m, p, hi, ds);
            if ts == [] then
              call == Call(m, None, empty) && EndsAt(m, empty, empty) && Taken(m, empty, empty, ds[1..]) == []
            else
              && call.token == Some(ts[0].start)
              && ts[0].end < |m| && call.mem == m[ts[0].end := 0]
              && p < call.saved && EndsAt(call.mem, call.saved, hi)
              && Taken(call.mem, call.saved, hi, ds[1..]) == ts[1..]
  {
    var a := Skip(m, p, hi, ds[0], true);
    if a == hi {
      TakenIsInOrder(m, empty, empty, ds[1..]);
    } else {
      var b := Skip(m, a, hi, ds[0], false);
      TakenUnfolds(m, p, hi, ds, a, b);
      StepUnfolds(m, p, hi, ds[0], empty, a, b);
      CutKeepsTheRest(m, b, hi, ds[1..]);
    }
  }

  lemma StepUnfolds(m: seq<byte>, p: nat, hi: nat, delims: set<byte>, empty: nat, a: nat, b: nat)
    requires EndsAt(m, p, hi)
    requires a == Skip(m, p, hi, delims, true) < hi && b == Skip(m, a, hi, delims, false)
    ensures Step(m, p, hi, delims, empty) == Call(m[b := 0], Some(a), Past(b, hi))
  {
    if b == hi {
      assert m[b := 0] == m;
    }
  }

  lemma TakenUnfolds(m: seq<byte>, p: nat, hi: nat, ds: seq<set<byte>>, a: nat, b: nat)
    requires EndsAt(m, p, hi) && ds != []
    requires a == Skip(m, p, hi, ds[0], true) < hi && b == Skip(m, a, hi, ds[0], false)
    ensures a < b && EndsAt(m, Past(b, hi), hi)
    ensures var ts := Taken(m, p, hi, ds);
            ts != [] && ts[0] == Range(a, b) && ts[1..] == Taken(m, Past(b, hi), hi, ds[1..])
  {
    var rest := Taken(m, Past(b, hi), hi, ds[1..]);
    assert ([Range(a, b)] + rest)[1..] == rest;
  }

  lemma CutKeepsTheRest(m: seq<byte>, b: nat, hi: nat, ds: seq<set<byte>>)
    requires b <= hi && EndsAt(m, Past(b, hi), hi)
    ensures var w := m[b := 0]; EndsAt(w, Past(b, hi), hi) && Taken(w, Past(b, hi), hi, ds) == Taken(m, Past(b, hi), hi, ds)
  {
    if b == hi {
      assert m[b := 0] == m;
    } else {
      TakenFrame(m, m[b := 0], b + 1, hi, ds);
    }
  }

  /** The memory with a null byte at the end of each of the ranges. */
  ghost function Cut(m: seq<byte>, ts: seq<Range>): (r: seq<byte>)
    requires forall i :: 0 <= i < |ts| ==> ts[i].end < |m|
    ensures |r| == |m|
  {
    if ts == [] then m else Cut(m, ts[..|ts| - 1])[ts[|ts| - 1].end := 0]
  }

  lemma {:induction false} CutAt(m: seq<byte>, ts: seq<Range>, k: nat)
    requires k < |m| && forall i :: 0 <= i < |ts| ==> ts[i].end < |m|
    ensures Cut(m, ts)[k] == m[k] || Cut(m, ts)[k] == 0
    ensures (forall i :: 0 <= i < |ts| ==> ts[i].end != k) ==> Cut(m, ts)[k] == m[k]
    ensures (exists i :: 0 <= i < |ts| && ts[i].end == k) ==> Cut(m, ts)[k] == 0
  {
    if ts != [] {
      var rest := ts[..|ts| - 1];
      CutAt(m, rest, k);
      assert forall i :: 0 <= i < |rest| ==> rest[i] == ts[i];
    }
  }

  /** Every token that was returned stays a string of its own, whatever was cut since. */
  lemma TokenTextsStay(m: seq<byte>, p: nat, hi: nat, ts: seq<Range>, n: nat, i: nat)
    requires EndsAt(m, p, hi) && InOrder(p, hi, ts) && i < n <= |ts|
    ensures var w := Cut(m, ts[..n]);
            Terminated(w, ts[i].start) && Text(w, ts[i].start) == m[ts[i].start..ts[i].end]
  {
    var cuts, t := ts[..n], ts[i];
    InOrderPrefix(p, hi, ts, n);
    var w := Cut(m, cuts);
    InsideStays(m, p, hi, cuts, i);
    CutAt(m, cuts, t.end);
    LenIs(w, t.start, t.end - t.start);
  }

  lemma InOrderPrefix(p: nat, hi: nat, ts: seq<Range>, n: nat)
    requires InOrder(p, hi, ts) && n <= |ts|
    ensures InOrder(p, hi, ts[..n])
  {
  }

  lemma InsideStays(m: seq<byte>, p: nat, hi: nat, ts: seq<Range>, i: nat)
    requires hi < |m| && InOrder(p, hi, ts) && i < |ts|
    ensures Cut(m, ts)[ts[i].start..ts[i].end] == m[ts[i].start..ts[i].end]
    ensures forall k :: ts[i].start <= k < ts[i].end ==> Cut(m, ts)[k] == m[k]
  {
    forall k | ts[i].start <= k < ts[i].end ensures Cut(m, ts)[k] == m[k] {
      InsideIsNotCut(m, p, hi, ts, i, k);
    }
  }

  lemma InsideEndsNowhere(p: nat, hi: nat, ts: seq<Range>, i: nat, k: nat)
    requires InOrder(p, hi, ts) && i < |ts| && ts[i].start <= k < ts[i].end
    ensures forall j :: 0 <= j < |ts| ==> ts[j].end != k
  {
  }

  lemma InsideIsNotCut(m: seq<byte>, p: nat, hi: nat, ts: seq<Range>, i: nat, k: nat)
    requires hi < |m| && InOrder(p, hi, ts) && i < |ts| && ts[i].start <= k < ts[i].end
    ensures Cut(m, ts)[k] == m[k]
  {
    InsideEndsNowhere(p, hi, ts, i, k);
    CutAt(m, ts, k);
  }

  /** Bytes outside the string are not touched, so a delimiter string kept apart from it stays. */
  lemma DelimitersStay(m: seq<byte>, p: nat, hi: nat, ts: seq<Range>, delimiters: nat)
    requires Bounded(m, p, hi) && InOrder(p, hi, ts)
    requires Terminated(m, delimiters) && (delimiters + Len(m, delimiters) < p || hi < delimiters)
    ensures var w := Cut(m, ts); Terminated(w, delimiters) && CharSet(w, delimiters) == CharSet(m, delimiters)
  {
    var w, n := Cut(m, ts), Len(m, delimiters);
    forall k | delimiters <= k <= delimiters + n ensures w[k] == m[k] {
      CutAt(m, ts, k);
    }
    LenIs(w, delimiters, n);
    assert Text(w, delimiters) == Text(m, delimiters);
  }

  /** The state of a run after i calls: the string with the tokens so far cut off, and the rest still
      to come. */
  ghost predicate Running(m: seq<byte>, p: nat, hi: nat, ds: seq<set<byte>>, i: nat, now: seq<byte>, saved: nat, end: nat)
    requires EndsAt(m, p, hi) && i <= |ds|
  {
    var ts := Taken(m, p, hi, ds);
    var n := Min(i, |ts|);
    && InOrder(p, hi, ts)
    && now == Cut(m, ts[..n])
    && EndsAt(now, saved, end)
    && Taken(now, saved, end, ds[i..]) == ts[n..]
  }

  lemma RunningStarts(m: seq<byte>, p: nat, hi: nat, ds: seq<set<byte>>)
    requires EndsAt(m, p, hi)
    ensures Running(m, p, hi, ds, 0, m, p, hi)
  {
    TakenIsInOrder(m, p, hi, ds);
    var ts := Taken(m, p, hi, ds);
    assert ts[..0] == [] && ts[0..] == ts && ds[0..] == ds;
  }

  lemma RunningSteps(m: seq<byte>, p: nat, hi: nat, ds: seq<set<byte>>, i: nat, now: seq<byte>, saved: nat, end: nat, empty: nat)
    requires EndsAt(m, p, hi) && empty < |m| && m[empty] == 0 && i < |ds|
    requires Running(m, p, hi, ds, i, now, saved, end)
    ensures now[empty] == 0
    ensures var ts, call := Taken(m, p, hi, ds), Step(now, saved, end, ds[i], empty);
            && call.token == ResultOf(ts, i)
            && Running(m, p, hi, ds, i + 1, call.mem, call.saved, if i < |ts| then end else empty)
  {
    var ts := Taken(m, p, hi, ds);
    CutAt(m, ts[..Min(i, |ts|)], empty);
    assert ds[i..][0] == ds[i] && ds[i..][1..] == ds[i + 1..];
    StepTakesFirst(now, saved, end, ds[i..], empty);
    if i < |ts| {
      assert ts[i..][0] == ts[i] && ts[i..][1..] == ts[i + 1..];
      CutOneMore(m, p, hi, ts, i);
    } else {
      assert ts[|ts|..] == [];
    }
  }

  lemma CutOneMore(m: seq<byte>, p: nat, hi: nat, ts: seq<Range>, n: nat)
    requires hi < |m| && InOrder(p, hi, ts) && n < |ts|
    ensures ts[n].end < |m| && Cut(m, ts[..n + 1]) == Cut(m, ts[..n])[ts[n].end := 0]
  {
    assert ts[..n + 1][..n] == ts[..n];
  }

  /** A string of delimiters that lies apart from the string that is cut. */
  ghost predicate IsApart(m: seq<byte>, p: nat, hi: nat, delimiters: nat, delims: set<byte>) {
    Terminated(m, delimiters) && delims == CharSet(m, delimiters)
    && (delimiters + Len(m, delimiters) < p || hi < delimiters)
  }

  /** Every call finds its string, and its delimiters as they were at first. */
  lemma CallIsReady(m: seq<byte>, p: nat, hi: nat, ds: seq<set<byte>>, i: nat, now: seq<byte>, saved: nat, end: nat, delimiters: nat)
    requires EndsAt(m, p, hi) && i < |ds| && Running(m, p, hi, ds, i, now, saved, end)
    requires IsApart(m, p, hi, delimiters, ds[i])
    ensures Terminated(now, saved) && end == saved + Len(now, saved)
    ensures Terminated(now, delimiters) && CharSet(now, delimiters) == ds[i]
  {
    var ts := Taken(m, p, hi, ds);
    InOrderPrefix(p, hi, ts, Min(i, |ts|));
    DelimitersStay(m, p, hi, ts[..Min(i, |ts|)], delimiters);
    EndIsLength(now, saved, end);
  }

  lemma EndIsLength(m: seq<byte>, p: nat, hi: nat)
    requires EndsAt(m, p, hi)
    ensures Terminated(m, p) && hi == p + Len(m, p)
  {
    LenIs(m, p, hi - p);
  }

  function ResultOf(ts: seq<Range>, i: nat): Option<nat> {
    if i < |ts| then Some(ts[i].start) else None
  }

  /** The i-th call returns the i-th token, and null once there are none left. */
  predicate AreResults(ts: seq<Range>, results: seq<Option<nat>>) {
    forall i :: 0 <= i < |results| ==> results[i] == ResultOf(ts, i)
  }

  lemma AreResultsSnoc(ts: seq<Range>, results: seq<Option<nat>>, r: Option<nat>)
    requires AreResults(ts, results) && r == ResultOf(ts, |results|)
    ensures AreResults(ts, results + [r])
  {
  }

  /** One call in the middle of a run. */
  method NextCall(mem: array<byte>, s: Option<nat>, delimiters: nat, saved: nat, empty: nat,
                  ghost m: seq<byte>, ghost p: nat, ghost hi: nat, ghost ds: seq<set<byte>>, ghost i: nat, ghost end: nat)
    returns (r: Option<nat>, saved': nat, ghost end': nat)
    requires EndsAt(m, p, hi) && empty < |m| && m[empty] == 0
    requires i < |ds| && IsApart(m, p, hi, delimiters, ds[i])
    requires s.Some? ==> s.value == saved
    requires Running(m, p, hi, ds, i, mem[..], saved, end)
    modifies mem
    ensures r == ResultOf(Taken(m, p, hi, ds), i)
    ensures Running(m, p, hi, ds, i + 1, mem[..], saved', end')
  {
    RunningSteps(m, p, hi, ds, i, mem[..], saved, end, empty);
    CallIsReady(m, p, hi, ds, i, mem[..], saved, end, delimiters);
    r, saved' := StrTokR(mem, s, delimiters, saved, empty, end, ds[i]);
    end' := if i < |Taken(m, p, hi, ds)| then end else empty;
  }

  /** What a run of calls leaves: the results, and the memory. */
  ghost predicate Outcome(m: seq<byte>, p: nat, hi: nat, ds: seq<set<byte>>, results: seq<Option<nat>>, now: seq<byte>)
    requires EndsAt(m, p, hi)
  {
    var ts := Taken(m, p, hi, ds);
    && InOrder(p, hi, ts) && Searched(m, p, hi, ds, ts)
    && |results| == |ds| && AreResults(ts, results)
    && now == Cut(m, ts)
  }

  lemma RunEnds(m: seq<byte>, p: nat, hi: nat, ds: seq<set<byte>>, results: seq<Option<nat>>, now: seq<byte>, saved: nat, end: nat)
    requires EndsAt(m, p, hi) && Running(m, p, hi, ds, |ds|, now, saved, end)
    requires |results| == |ds| && AreResults(Taken(m, p, hi, ds), results)
    ensures Outcome(m, p, hi, ds, results, now)
  {
    var ts := Taken(m, p, hi, ds);
    TakenIsSearched(m, p, hi, ds);
    assert ts[..|ts|] == ts;
  }

  /** A run of calls of strtok_r: the first on the string, the others on a null pointer, each with
      delimiters of its own. The tokens come back in order, one a call, then null for ever; each is the
      next run under the delimiters of its call; and the memory is cut after each token returned, and
      nowhere else. */
  method Calls(mem: array<byte>, s: nat, delimiters: seq<nat>, empty: nat, ghost hi: nat, ghost ds: seq<set<byte>>)
    returns (results: seq<Option<nat>>)
    requires EndsAt(mem[..], s, hi) && empty < mem.Length && mem[empty] == 0 && |ds| == |delimiters|
    requires forall i :: 0 <= i < |ds| ==> IsApart(mem[..], s, hi, delimiters[i], ds[i])
    modifies mem
    ensures Outcome(old(mem[..]), s, hi, ds, results, mem[..])
  {
    ghost var m, ts := mem[..], Taken(mem[..], s, hi, ds);
    RunningStarts(m, s, hi, ds);
    results := [];
    var saved: nat := s;
    ghost var end: nat := hi;
    for i := 0 to |delimiters|
      invariant |results| == i
      invariant i == 0 ==> saved == s
      invariant AreResults(ts, results)
      invariant Running(m, s, hi, ds, i, mem[..], saved, end)
    {
      var r;
      r, saved, end := NextCall(mem, if i == 0 then Some(s) else None, delimiters[i], saved, empty, m, s, hi, ds, i, end);
      AreResultsSnoc(ts, results, r);
      results := results + [r];
    }
    RunEnds(m, s, hi, ds, results, mem[..], saved, end);
  }
}
