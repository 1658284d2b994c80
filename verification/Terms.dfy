/** The flat node vector of the front end and the terms it stands for.

    A term is stored as its depth-first preorder word: a node is followed by the words of its
    children, and only the arity of each node says where a child ends. */
module Terms {
  import opened Sorts
  import opened Tokens

  datatype Node =
    | KApply(klabel: string, sort: Sort, sig: seq<Sort>)
    | KToken(tokenSort: Sort, value: Bytes)
    | KSequence(size: nat)

  function Arity(node: Node): nat {
    match node
    case KApply(_, _, sig) => |sig|
    case KToken(_, _) => 0
    case KSequence(size) => size
  }

  /** The sort a node asks of its i-th child. */
  function SlotSort(node: Node, i: nat): Sort
    requires i < Arity(node)
  {
    if node.KApply? then node.sig[i] else KITEM
  }

  /** A node over any list of children; it is well formed when the list has the node's arity. */
  datatype Term = Term(node: Node, kids: seq<Term>)

  ghost predicate WellFormed(t: Term) {
    && |t.kids| == Arity(t.node)
    && forall i :: 0 <= i < |t.kids| ==> WellFormed(t.kids[i])
  }

  ghost predicate AllWellFormed(ts: seq<Term>) {
    forall i :: 0 <= i < |ts| ==> WellFormed(ts[i])
  }

  /** The term can stand where a sort is asked for. Any term with matching arities can when `sorted`
      is false; when it is true, a token must be asked for at its own sort and a sequence at K, while
      an application can stand anywhere since it can be injected. */
  ghost predicate Fits(sorted: bool, slot: Sort, t: Term)
    decreases t
  {
    && |t.kids| == Arity(t.node)
    && (sorted && t.node.KToken? ==> slot == t.node.tokenSort)
    && (sorted && t.node.KSequence? ==> slot == K)
    && forall i :: 0 <= i < |t.kids| ==> Fits(sorted, SlotSort(t.node, i), t.kids[i])
  }

  lemma {:induction false} UnsortedFitIsWellFormed(slot: Sort, t: Term)
    ensures Fits(false, slot, t) <==> WellFormed(t)
    decreases t
  {
    if |t.kids| == Arity(t.node) {
      forall i | 0 <= i < |t.kids|
        ensures Fits(false, SlotSort(t.node, i), t.kids[i]) <==> WellFormed(t.kids[i])
      {
        UnsortedFitIsWellFormed(SlotSort(t.node, i), t.kids[i]);
      }
    }
  }

  lemma {:induction false} FitIsWellFormed(sorted: bool, slot: Sort, t: Term)
    requires Fits(sorted, slot, t)
    ensures WellFormed(t)
    decreases t
  {
    forall i | 0 <= i < |t.kids| ensures WellFormed(t.kids[i]) {
      FitIsWellFormed(sorted, SlotSort(t.node, i), t.kids[i]);
    }
  }

  ghost function Word(t: Term): (w: seq<Node>)
    ensures |w| >= 1 && w[0] == t.node
    decreases t, 1
  {
    [t.node] + Words(t.kids)
  }

  ghost function Words(ts: seq<Term>): seq<Node>
    decreases ts, 0
  {
    if ts == [] then [] else Word(ts[0]) + Words(ts[1..])
  }

  lemma {:induction false} WordsConcat(xs: seq<Term>, ys: seq<Term>)
    ensures Words(xs + ys) == Words(xs) + Words(ys)
  {
    if xs == [] {
      assert xs + ys == ys;
    } else {
      assert (xs + ys)[0] == xs[0] && (xs + ys)[1..] == xs[1..] + ys;
      WordsConcat(xs[1..], ys);
    }
  }

  lemma WordsSingle(t: Term)
    ensures Words([t]) == Word(t)
  {
    assert [t][1..] == [];
  }

  lemma WordsSnoc(ts: seq<Term>, i: nat)
    requires i < |ts|
    ensures Words(ts[..i + 1]) == Words(ts[..i]) + Word(ts[i])
  {
    assert ts[..i + 1] == ts[..i] + [ts[i]];
    WordsConcat(ts[..i], [ts[i]]);
    WordsSingle(ts[i]);
  }

  // ----- Reading a term back from the vector -----

  datatype Reading = NeedsMore | Got(term: Term, next: nat)
  datatype KidsReading = KidsNeedMore | GotKids(terms: seq<Term>, next: nat)

  /** The term whose word starts at index i, and the index after it. NeedsMore says that the walk
      runs past the end of the vector. */
  ghost function Read(v: seq<Node>, i: nat): (r: Reading)
    requires i <= |v|
    ensures r.Got? ==> i < r.next <= |v|
    decreases |v| - i, 0, 0
  {
    if i == |v| then NeedsMore
    else
      match ReadKids(v, i + 1, Arity(v[i]))
      case KidsNeedMore => NeedsMore
      case GotKids(ts, next) => Got(Term(v[i], ts), next)
  }

  /** The n consecutive terms from index i on. */
  ghost function ReadKids(v: seq<Node>, i: nat, n: nat): (r: KidsReading)
    requires i <= |v|
    ensures r.GotKids? ==> i <= r.next <= |v| && |r.terms| == n
    decreases |v| - i, 1, n
  {
    if n == 0 then GotKids([], i)
    else
      match Read(v, i)
      case NeedsMore => KidsNeedMore
      case Got(t, j) =>
        match ReadKids(v, j, n - 1)
        case KidsNeedMore => KidsNeedMore
        case GotKids(ts, next) => GotKids([t] + ts, next)
  }

  lemma {:induction false} ReadIsSound(v: seq<Node>, i: nat)
    requires i <= |v| && Read(v, i).Got?
    ensures WellFormed(Read(v, i).term)
    ensures Word(Read(v, i).term) == v[i..Read(v, i).next]
    decreases |v| - i, 0, 0
  {
    ReadKidsIsSound(v, i + 1, Arity(v[i]));
    assert v[i..Read(v, i).next] == [v[i]] + v[i + 1..Read(v, i).next];
  }

  lemma {:induction false} ReadKidsIsSound(v: seq<Node>, i: nat, n: nat)
    requires i <= |v| && ReadKids(v, i, n).GotKids?
    ensures AllWellFormed(ReadKids(v, i, n).terms)
    ensures Words(ReadKids(v, i, n).terms) == v[i..ReadKids(v, i, n).next]
    decreases |v| - i, 1, n
  {
    if n > 0 {
      var head := Read(v, i);
      var tail := ReadKids(v, head.next, n - 1);
      ReadIsSound(v, i);
      ReadKidsIsSound(v, head.next, n - 1);
      assert ReadKids(v, i, n).terms[1..] == tail.terms;
      assert v[i..tail.next] == v[i..head.next] + v[head.next..tail.next];
    }
  }

  /** The word w stands in v at index i. */
  ghost predicate StandsAt(v: seq<Node>, i: nat, w: seq<Node>) {
    i + |w| <= |v| && v[i..i + |w|] == w
  }

  lemma StandsAtSplit(v: seq<Node>, i: nat, a: seq<Node>, b: seq<Node>)
    requires StandsAt(v, i, a + b)
    ensures StandsAt(v, i, a) && StandsAt(v, i + |a|, b)
  {
    assert v[i..i + |a|] == (a + b)[..|a|];
    assert v[i + |a|..i + |a + b|] == (a + b)[|a|..];
  }

  lemma {:induction false} ReadIsComplete(v: seq<Node>, i: nat, t: Term)
    requires WellFormed(t) && StandsAt(v, i, Word(t))
    ensures Read(v, i) == Got(t, i + |Word(t)|)
    decreases t, 1
  {
    StandsAtSplit(v, i, [t.node], Words(t.kids));
    assert v[i] == v[i..i + 1][0];
    ReadKidsIsComplete(v, i + 1, t.kids);
  }

  lemma {:induction false} ReadKidsIsComplete(v: seq<Node>, i: nat, ts: seq<Term>)
    requires AllWellFormed(ts) && i <= |v| && StandsAt(v, i, Words(ts))
    ensures ReadKids(v, i, |ts|) == GotKids(ts, i + |Words(ts)|)
    decreases ts, 0
  {
    if ts != [] {
      StandsAtSplit(v, i, Word(ts[0]), Words(ts[1..]));
      ReadIsComplete(v, i, ts[0]);
      ReadKidsIsComplete(v, i + |Word(ts[0])|, ts[1..]);
      assert [ts[0]] + ts[1..] == ts;
    }
  }

  /** A word followed by anything determines its term: no word is a proper prefix of another. */
  lemma WordsArePrefixFree(t: Term, u: Term, afterT: seq<Node>, afterU: seq<Node>)
    requires WellFormed(t) && WellFormed(u)
    requires Word(t) + afterT == Word(u) + afterU
    ensures t == u && afterT == afterU
  {
    var v := Word(t) + afterT;
    assert v[0..|Word(t)|] == Word(t);
    assert v[0..|Word(u)|] == Word(u);
    ReadIsComplete(v, 0, t);
    ReadIsComplete(v, 0, u);
    assert afterT == v[|Word(t)|..];
    assert afterU == v[|Word(u)|..];
  }

  // ----- Where a term ends, by counting alone -----

  /** The running sum of arity minus one over v[i..j]. */
  ghost function Weight(v: seq<Node>, i: nat, j: nat): int
    requires i <= j <= |v|
    decreases j - i
  {
    if i == j then 0 else Arity(v[i]) - 1 + Weight(v, i + 1, j)
  }

  /** From i on, j is the first index at which the running sum has fallen by n. */
  ghost predicate FirstFall(v: seq<Node>, i: nat, n: nat, j: nat) {
    && i <= j <= |v|
    && Weight(v, i, j) + n == 0
    && forall k :: i <= k < j ==> Weight(v, i, k) + n > 0
  }

  /** Reading a + b children is reading a of them and then b more. */
  lemma {:induction false} ReadKidsSplit(v: seq<Node>, i: nat, a: nat, b: nat)
    requires i <= |v|
    ensures ReadKids(v, i, a + b).GotKids? <==>
              ReadKids(v, i, a).GotKids? && ReadKids(v, ReadKids(v, i, a).next, b).GotKids?
    ensures ReadKids(v, i, a + b).GotKids? ==>
              ReadKids(v, i, a + b).next == ReadKids(v, ReadKids(v, i, a).next, b).next
    decreases a
  {
    if a > 0 && Read(v, i).Got? {
      ReadKidsSplit(v, Read(v, i).next, a - 1, b);
    }
  }

  lemma {:induction false} KidsEndAtFirstFall(v: seq<Node>, i: nat, n: nat, j: nat)
    requires i <= |v|
    ensures ReadKids(v, i, n).GotKids? && ReadKids(v, i, n).next == j <==> FirstFall(v, i, n, j)
    decreases |v| - i, n
  {
    if n == 0 {
      assert Weight(v, i, i) == 0;
      assert FirstFall(v, i, 0, i);
    } else if i < |v| {
      var a := Arity(v[i]);
      ReadKidsSplit(v, i + 1, a, n - 1);
      KidsEndAtFirstFall(v, i + 1, a + n - 1, j);
      FallShifts(v, i, n, j);
    }
  }

  /** Stepping over one node turns a fall by n into a fall by n plus that node's arity minus one. */
  lemma FallShifts(v: seq<Node>, i: nat, n: nat, j: nat)
    requires i < |v| && n > 0
    ensures FirstFall(v, i, n, j) <==> FirstFall(v, i + 1, Arity(v[i]) + n - 1, j)
  {
    if i == j {
      assert Weight(v, i, j) == 0;
    } else if i < j <= |v| {
      var m, next := Arity(v[i]) + n - 1, i + 1;
      assert forall k :: i + 1 <= k <= j ==> Weight(v, i, k) == Arity(v[i]) - 1 + Weight(v, i + 1, k);
      assert Weight(v, i, i) == 0;
      if FirstFall(v, i, n, j) {
        forall k | next <= k < j ensures Weight(v, next, k) + m > 0 {
          assert Weight(v, i, k) + n > 0;
        }
      }
      if FirstFall(v, i + 1, m, j) {
        forall k | i <= k < j ensures Weight(v, i, k) + n > 0 {
          if k > i {
            assert Weight(v, next, k) + m > 0;
          }
        }
      }
    }
  }

  /** A reading from i ends at j exactly when j is the first index at which the running sum of
      arity minus one reaches minus one, so it depends on arities alone. */
  lemma ReadEndsAtFirstFall(v: seq<Node>, i: nat, j: nat)
    requires i <= |v|
    ensures Read(v, i).Got? && Read(v, i).next == j <==> FirstFall(v, i, 1, j)
  {
    KidsEndAtFirstFall(v, i, 1, j);
    if Read(v, i).Got? {
      assert ReadKids(v, Read(v, i).next, 0) == GotKids([], Read(v, i).next);
    }
  }

  /** What follows a term in the vector does not change how it is read. */
  lemma ReadIgnoresWhatFollows(v: seq<Node>, i: nat, rest: seq<Node>)
    requires i <= |v| && Read(v, i).Got?
    ensures Read(v[..Read(v, i).next] + rest, i) == Read(v, i)
  {
    var t, j := Read(v, i).term, Read(v, i).next;
    ReadIsSound(v, i);
    var w := v[..j] + rest;
    assert w[i..j] == v[i..j];
    ReadIsComplete(w, i, t);
  }

  // ----- Words of terms whose arities need not match -----

  /** How many more children the nodes of t ask for than they have, in all. */
  ghost function Deficit(t: Term): int
    decreases t, 1
  {
    Arity(t.node) - |t.kids| + Deficits(t.kids)
  }

  ghost function Deficits(ts: seq<Term>): int
    decreases ts, 0
  {
    if ts == [] then 0 else Deficit(ts[0]) + Deficits(ts[1..])
  }

  lemma {:induction false} WellFormedHasNoDeficit(t: Term)
    requires WellFormed(t)
    ensures Deficit(t) == 0
    decreases t, 1
  {
    AllWellFormedHaveNoDeficit(t.kids);
  }

  lemma {:induction false} AllWellFormedHaveNoDeficit(ts: seq<Term>)
    requires AllWellFormed(ts)
    ensures Deficits(ts) == 0
    decreases ts, 0
  {
    if ts != [] {
      WellFormedHasNoDeficit(ts[0]);
      AllWellFormedHaveNoDeficit(ts[1..]);
    }
  }

  ghost function Total(w: seq<Node>): int {
    if w == [] then 0 else Arity(w[0]) - 1 + Total(w[1..])
  }

  lemma {:induction false} TotalConcat(a: seq<Node>, b: seq<Node>)
    ensures Total(a + b) == Total(a) + Total(b)
  {
    if a == [] {
      assert a + b == b;
    } else {
      assert (a + b)[1..] == a[1..] + b;
      TotalConcat(a[1..], b);
    }
  }

  lemma {:induction false} TotalOfWord(t: Term)
    ensures Total(Word(t)) == Deficit(t) - 1
    decreases t, 1
  {
    TotalOfWords(t.kids);
    assert Word(t)[1..] == Words(t.kids);
  }

  lemma {:induction false} TotalOfWords(ts: seq<Term>)
    ensures Total(Words(ts)) == Deficits(ts) - |ts|
    decreases ts, 0
  {
    if ts != [] {
      TotalOfWord(ts[0]);
      TotalOfWords(ts[1..]);
      TotalConcat(Word(ts[0]), Words(ts[1..]));
    }
  }

  /** The nodes are the preorder word of a term, and then of exactly one (WordsArePrefixFree). */
  ghost predicate IsOneTerm(w: seq<Node>) {
    exists t :: WellFormed(t) && Word(t) == w
  }

  lemma OneTermHasNoDeficit(t: Term)
    requires IsOneTerm(Word(t))
    ensures Deficit(t) == 0
  {
    var u :| WellFormed(u) && Word(u) == Word(t);
    TotalOfWord(t);
    TotalOfWord(u);
    WellFormedHasNoDeficit(u);
  }
}
