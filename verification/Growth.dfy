/** How the node vector grows: appending a node and then the words of its children appends the word
    of the whole term. */
module Growth {
  import opened Sequences
  import opened Sorts
  import opened Terms
  import opened Trees

  lemma Grow(v: seq<Node>, node: Node, kids: seq<Term>)
    ensures v + [node] + Words(kids) == v + Word(Term(node, kids))
  {
    Assoc(v, [node], Words(kids));
  }

  /** One more child. */
  lemma More(v: seq<Node>, kids: seq<Term>, t: Term)
    ensures v + Words(kids) + Word(t) == v + Words(kids + [t])
  {
    WordsConcat(kids, [t]);
    WordsSingle(t);
    Assoc(v, Words(kids), Word(t));
  }

  lemma Grow0(v: seq<Node>, node: Node)
    ensures v + [node] == v + Word(Term(node, []))
  {
    assert [node] + [] == [node];
  }

  lemma Kids1(v: seq<Node>, a: Term)
    ensures v + Word(a) == v + Words([a])
  {
    WordsSingle(a);
  }

  lemma Kids2(v: seq<Node>, a: Term, b: Term)
    ensures v + Word(a) + Word(b) == v + Words([a, b])
  {
    Kids1(v, a);
    More(v, [a], b);
    assert [a] + [b] == [a, b];
  }

  lemma Kids3(v: seq<Node>, a: Term, b: Term, c: Term)
    ensures v + Word(a) + Word(b) + Word(c) == v + Words([a, b, c])
  {
    Kids2(v, a, b);
    More(v, [a, b], c);
    assert [a, b] + [c] == [a, b, c];
  }

  lemma Kids4(v: seq<Node>, a: Term, b: Term, c: Term, d: Term)
    ensures v + Word(a) + Word(b) + Word(c) + Word(d) == v + Words([a, b, c, d])
  {
    Kids3(v, a, b, c);
    More(v, [a, b, c], d);
    assert [a, b, c] + [d] == [a, b, c, d];
  }

  lemma Kids5(v: seq<Node>, a: Term, b: Term, c: Term, d: Term, e: Term)
    ensures v + Word(a) + Word(b) + Word(c) + Word(d) + Word(e) == v + Words([a, b, c, d, e])
  {
    Kids4(v, a, b, c, d);
    More(v, [a, b, c, d], e);
    assert [a, b, c, d] + [e] == [a, b, c, d, e];
  }

  lemma Kids6(v: seq<Node>, a: Term, b: Term, c: Term, d: Term, e: Term, f: Term)
    ensures v + Word(a) + Word(b) + Word(c) + Word(d) + Word(e) + Word(f) == v + Words([a, b, c, d, e, f])
  {
    Kids5(v, a, b, c, d, e);
    More(v, [a, b, c, d, e], f);
    assert [a, b, c, d, e] + [f] == [a, b, c, d, e, f];
  }

  lemma Grow1(v: seq<Node>, node: Node, a: Term)
    ensures v + [node] + Word(a) == v + Word(Term(node, [a]))
  {
    Kids1(v + [node], a);
    Grow(v, node, [a]);
  }

  lemma Grow2(v: seq<Node>, node: Node, a: Term, b: Term)
    ensures v + [node] + Word(a) + Word(b) == v + Word(Term(node, [a, b]))
  {
    Kids2(v + [node], a, b);
    Grow(v, node, [a, b]);
  }

  lemma Grow3(v: seq<Node>, node: Node, a: Term, b: Term, c: Term)
    ensures v + [node] + Word(a) + Word(b) + Word(c) == v + Word(Term(node, [a, b, c]))
  {
    Kids3(v + [node], a, b, c);
    Grow(v, node, [a, b, c]);
  }

  lemma Grow4(v: seq<Node>, node: Node, a: Term, b: Term, c: Term, d: Term)
    ensures v + [node] + Word(a) + Word(b) + Word(c) + Word(d) == v + Word(Term(node, [a, b, c, d]))
  {
    Kids4(v + [node], a, b, c, d);
    Grow(v, node, [a, b, c, d]);
  }

  lemma Grow5(v: seq<Node>, node: Node, a: Term, b: Term, c: Term, d: Term, e: Term)
    ensures v + [node] + Word(a) + Word(b) + Word(c) + Word(d) + Word(e) == v + Word(Term(node, [a, b, c, d, e]))
  {
    Kids5(v + [node], a, b, c, d, e);
    Grow(v, node, [a, b, c, d, e]);
  }

  lemma Grow6(v: seq<Node>, node: Node, a: Term, b: Term, c: Term, d: Term, e: Term, f: Term)
    ensures v + [node] + Word(a) + Word(b) + Word(c) + Word(d) + Word(e) + Word(f)
         == v + Word(Term(node, [a, b, c, d, e, f]))
  {
    Kids6(v + [node], a, b, c, d, e, f);
    Grow(v, node, [a, b, c, d, e, f]);
  }

  const TO_LIST := KApply("kSeqToList", LIST, [K])

  lemma GrowList(v: seq<Node>, size: nat, items: seq<Term>)
    ensures v + [TO_LIST] + [KSequence(size)] + Words(items) == v + Word(ListOf(size, items))
  {
    Grow(v + [TO_LIST], KSequence(size), items);
    Grow1(v, TO_LIST, Term(KSequence(size), items));
  }

  /** Children that came as a list, and some more after them. */
  lemma GrowAfter1(v: seq<Node>, node: Node, kids: seq<Term>, a: Term)
    ensures v + [node] + Words(kids) + Word(a) == v + Word(Term(node, kids + [a]))
  {
    More(v + [node], kids, a);
    Grow(v, node, kids + [a]);
  }

  lemma GrowAfter2(v: seq<Node>, node: Node, kids: seq<Term>, a: Term, b: Term)
    ensures v + [node] + Words(kids) + Word(a) + Word(b) == v + Word(Term(node, kids + [a, b]))
  {
    More(v + [node], kids, a);
    GrowAfter1(v, node, kids + [a], b);
    assert kids + [a] + [b] == kids + [a, b];
  }

  /** Two lists of children one after the other. */
  lemma KidsConcat(v: seq<Node>, xs: seq<Term>, ys: seq<Term>)
    ensures v + Words(xs) + Words(ys) == v + Words(xs + ys)
  {
    WordsConcat(xs, ys);
    Assoc(v, Words(xs), Words(ys));
  }

  lemma KidsStep(v: seq<Node>, xs: seq<Term>, i: nat)
    requires i < |xs|
    ensures v + Words(xs[..i]) + Word(xs[i]) == v + Words(xs[..i + 1])
  {
    WordsSnoc(xs, i);
    Assoc(v, Words(xs[..i]), Word(xs[i]));
  }

  lemma KidsStart(v: seq<Node>, xs: seq<Term>)
    ensures v + Words(xs[..0]) == v
    ensures v + Words(xs[..|xs|]) == v + Words(xs)
  {
    assert xs[..0] == [] && xs[..|xs|] == xs;
  }

  // ----- Layers -----

  /** The nodes a layer leaves before its last child. */
  ghost function LayerWord(layer: Layer): seq<Node> {
    [layer.node] + Words(layer.before)
  }

  ghost function LayersWord(layers: seq<Layer>): seq<Node> {
    if layers == [] then [] else LayerWord(layers[0]) + LayersWord(layers[1..])
  }

  lemma {:induction false} LayersConcat(v: seq<Node>, a: seq<Layer>, b: seq<Layer>)
    ensures v + LayersWord(a) + LayersWord(b) == v + LayersWord(a + b)
    decreases a
  {
    if a == [] {
      assert a + b == b;
      assert v + LayersWord(a) == v;
    } else {
      assert (a + b)[0] == a[0] && (a + b)[1..] == a[1..] + b;
      Assoc(v, LayerWord(a[0]), LayersWord(a[1..]));
      Assoc(v, LayerWord(a[0]), LayersWord(a[1..] + b));
      LayersConcat(v + LayerWord(a[0]), a[1..], b);
    }
  }

  lemma OneLayer(v: seq<Node>, layer: Layer)
    ensures v + LayersWord([layer]) == v + [layer.node] + Words(layer.before)
  {
    assert [layer][1..] == [];
    assert LayersWord([layer]) == LayerWord(layer);
    Assoc(v, [layer.node], Words(layer.before));
  }

  lemma NoLayers(v: seq<Node>)
    ensures v + LayersWord([]) == v
  {
  }

  /** The word of a wrapped term is what its layers leave, then the word of the term inside. */
  lemma {:induction false} GrowWrap(v: seq<Node>, layers: seq<Layer>, t: Term)
    ensures v + LayersWord(layers) + Word(t) == v + Word(Wrap(layers, t))
    decreases layers
  {
    if layers == [] {
      NoLayers(v);
    } else {
      var first, inner := layers[0], Wrap(layers[1..], t);
      Assoc(v, LayerWord(first), LayersWord(layers[1..]));
      GrowWrap(v + LayerWord(first), layers[1..], t);
      Assoc(v, [first.node], Words(first.before));
      GrowAfter1(v, first.node, first.before, inner);
    }
  }
}
