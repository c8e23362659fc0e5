/** Turning every mapping key into a string before the master is written out: a new tree is
    built, the master itself is left alone. */
module Normalizer {
  import opened Trees
  import opened AnyOrder
  import opened GoHeap

  method ValidateStringKeysFromString(m: StringMap, ghost h: Heap) returns (r: StringMap, ghost h': Heap)
    requires Closed(h) && StringOk(m, h)
    ensures Extends(h, h') && Closed(h') && StringOk(r, h') && fresh(r)
    ensures MayNormalizeDoc(m.tree, r.tree)
    decreases SMap(m.tree), 1
  {
    r := new StringMap();
    h' := NormalizeFields(r, m, h);
  }

  method NormalizeFields(r: StringMap, m: StringMap, ghost h: Heap) returns (ghost h': Heap)
    requires Working(r, h) && StringOk(m, h) && m != r && r.tree == map[]
    modifies r
    ensures Extends(h, h') && Working(r, h') && MayNormalizeDoc(m.tree, r.tree)
    decreases SMap(m.tree), 0
  {
    h' := h;
    ghost var t := m.tree;
    var todo := m.fields.Keys;
    NormalizedPartEnds(t, map[]);
    while todo != {}
      modifies r
      invariant todo <= t.Keys && Extends(h, h') && Working(r, h')
      invariant NormalizedPart(t, t.Keys - todo, r.tree)
      decreases todo
    {
      var key :| key in todo;
      assert SMap(t).fields[key] < SMap(t);
      h' := NormalizeField(r, m, key, todo, h, h');
      todo := todo - {key};
    }
    assert t.Keys - todo == t.Keys;
    NormalizedPartEnds(t, r.tree);
  }

  /** One round of the loop. */
  method NormalizeField(r: StringMap, m: StringMap, key: string, ghost todo: set<string>, ghost h0: Heap, ghost h: Heap)
    returns (ghost h': Heap)
    requires Working(r, h) && StringOk(m, h0) && Within(h0, h) && m != r && key in todo && todo <= m.tree.Keys
    requires NormalizedPart(m.tree, m.tree.Keys - todo, r.tree)
    modifies r
    ensures Extends(h, h') && Working(r, h')
    ensures NormalizedPart(m.tree, m.tree.Keys - (todo - {key}), r.tree)
    decreases m.tree[key], 5
  {
    ghost var v;
    ghost var before := r.tree;
    h', v := StoreNormalized(r, key, m.fields[key], h);
    NormalizedPartStep(m.tree, m.tree.Keys - todo, before, key, v);
    assert m.tree.Keys - (todo - {key}) == (m.tree.Keys - todo) + {key};
  }

  /** `r` is what can have been made of the keys in `done`. */
  ghost predicate NormalizedPart(t: Fields, done: set<string>, r: Fields) {
    r.Keys == t.Keys * done && forall s :: s in r ==> MayNormalize(t[s], r[s])
  }

  lemma NormalizedPartStep(t: Fields, done: set<string>, r: Fields, key: string, v: Value)
    requires NormalizedPart(t, done, r) && key in t && MayNormalize(t[key], v)
    ensures NormalizedPart(t, done + {key}, r[key := v])
  {
  }

  lemma NormalizedPartEnds(t: Fields, r: Fields)
    ensures NormalizedPart(t, t.Keys - t.Keys, map[])
    ensures NormalizedPart(t, t.Keys, r) ==> MayNormalizeDoc(t, r)
  {
  }

  method ValidateStringKeysFromInterface(m: IfaceMap, ghost h: Heap) returns (r: StringMap, ghost h': Heap)
    requires Closed(h) && m in h.ifaces
    ensures Extends(h, h') && Closed(h') && StringOk(r, h') && fresh(r)
    ensures MayNormalize(IMap(m.tree), SMap(r.tree))
    decreases IMap(m.tree), 0
  {
    h' := h;
    r := new StringMap();
    assert IfaceOk(m, h);
    ghost var e := m.tree;
    var entries := m.entries;
    var todo := entries.Keys;
    while todo != {}
      modifies r
      invariant todo <= e.Keys && Extends(h, h') && Working(r, h')
      invariant PartlyNormalized(e, e.Keys - todo, r.tree)
      decreases todo
    {
      var key :| key in todo;
      h' := NormalizeNext(r, m, key, todo, h');
      todo := todo - {key};
    }
    assert e.Keys - todo == e.Keys;
    AllNormalized(e, r.tree);
  }

  /** One round of the loop. */
  method NormalizeNext(r: StringMap, m: IfaceMap, key: Key, ghost todo: set<Key>, ghost h: Heap)
    returns (ghost h': Heap)
    requires Working(r, h) && m in h.ifaces && key in todo && todo <= m.tree.Keys
    requires PartlyNormalized(m.tree, m.tree.Keys - todo, r.tree)
    modifies r
    ensures Extends(h, h') && Working(r, h')
    ensures PartlyNormalized(m.tree, m.tree.Keys - (todo - {key}), r.tree)
    decreases m.tree[key], 5
  {
    ghost var e, before := m.tree, r.tree;
    assert IfaceOk(m, h);
    ghost var v;
    h', v := StoreNormalized(r, key.text, m.entries[key], h);
    PartlyNormalizedStep(e, e.Keys - todo, before, key, v);
    assert e.Keys - (todo - {key}) == (e.Keys - todo) + {key};
  }

  /** Each entry made so far comes from one of the keys in `done` that print as it is named. */
  ghost predicate PartlyNormalized(e: map<Key, Value>, done: set<Key>, r: Fields) {
    && r.Keys == (set k | k in done && k in e :: k.text)
    && forall s :: s in r ==> exists k :: k in e && k.text == s && MayNormalize(e[k], r[s])
  }

  lemma PartlyNormalizedStep(e: map<Key, Value>, done: set<Key>, r: Fields, key: Key, v: Value)
    requires PartlyNormalized(e, done, r) && key in e && MayNormalize(e[key], v)
    ensures PartlyNormalized(e, done + {key}, r[key.text := v])
  {
  }

  lemma AllNormalized(e: map<Key, Value>, r: Fields)
    requires PartlyNormalized(e, e.Keys, r)
    ensures MayNormalize(IMap(e), SMap(r))
  {
    assert (set k | k in e.Keys && k in e :: k.text) == Texts(e);
  }

  /** One round of either loop. */
  method StoreNormalized(r: StringMap, key: string, c: Cell, ghost h: Heap) returns (ghost h': Heap, ghost v: Value)
    requires Working(r, h) && In(c, h)
    modifies r
    ensures Extends(h, h') && Working(r, h')
    ensures r.tree == old(r.tree)[key := v] && MayNormalize(old(TreeOf(c)), v)
    decreases TreeOf(c), 4
  {
    var d;
    d, h' := NormalizeCell(c, h);
    StillOk(h, h');
    v := TreeOf(d);
    r.Set(key, d, h');
  }

  /** The type switch on one value of a mapping. */
  method NormalizeCell(c: Cell, ghost h: Heap) returns (d: Cell, ghost h': Heap)
    requires Closed(h) && In(c, h)
    ensures Extends(h, h') && Closed(h') && In(d, h')
    ensures MayNormalize(TreeOf(c), TreeOf(d))
    decreases TreeOf(c), 3
  {
    if c.SliceRef? {
      var s;
      s, h' := NormalizeElements(c.slice, h);
      d := SliceRef(s);
    } else if c.Atom? {
      d, h' := c, h;
    } else {
      d, h' := NormalizeMapping(c, h);
    }
  }

  method NormalizeMapping(c: Cell, ghost h: Heap) returns (d: Cell, ghost h': Heap)
    requires Closed(h) && In(c, h) && IsMapping(TreeOf(c))
    ensures Extends(h, h') && Closed(h') && In(d, h')
    ensures MayNormalize(TreeOf(c), TreeOf(d))
    decreases TreeOf(c), 2
  {
    var r;
    if c.IfaceRef? {
      r, h' := ValidateStringKeysFromInterface(c.iface, h);
    } else {
      assert StringOk(c.str, h);
      r, h' := ValidateStringKeysFromString(c.str, h);
    }
    ghost var g := h';
    h' := g.(strs := g.strs + {r});
    AddString(g, r, h');
    d := StringRef(r);
  }

  /** Mappings that are direct elements are rebuilt, everything else is shared as it is. */
  method NormalizeElements(s: Slice, ghost h: Heap) returns (r: Slice, ghost h': Heap)
    requires Closed(h) && s in h.slices
    ensures Extends(h, h') && Closed(h') && r in h'.slices
    ensures MayNormalize(Seq(s.tree), Seq(r.tree))
    decreases Seq(s.tree), 1
  {
    assert SliceOk(s, h);
    var arry: seq<Cell> := [];
    ghost var trees: seq<Value> := [];
    h' := h;
    for i := 0 to |s.elems|
      invariant |arry| == |trees| == i
      invariant Extends(h, h') && Closed(h')
      invariant forall j :: 0 <= j < i ==>
        In(arry[j], h') && TreeOf(arry[j]) == trees[j] && MayNormalizeElem(s.tree[j], trees[j])
    {
      var elem := s.elems[i];
      assert In(elem, h') && TreeOf(elem) == s.tree[i];
      if elem.IfaceRef? || elem.StringRef? {
        elem, h' := NormalizeMapping(elem, h');
      }
      arry := arry + [elem];
      trees := trees + [TreeOf(elem)];
    }
    ghost var g := h';
    r := new Slice(arry, trees);
    h' := g.(slices := g.slices + {r});
    AddSlice(g, r, h');
  }
}
