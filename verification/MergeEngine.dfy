/** The operator's merge over shared, mutable maps.  Each method lists the one map it writes to. */
module MergeEngine {
  import opened Trees
  import opened AnyOrder
  import opened GoHeap

  /** `r` is a rendering of the keys in `done`. */
  ghost predicate RenderingSoFar(e: map<Key, Value>, done: set<Key>, r: Fields) {
    Rendering(map k | k in e && k in done :: e[k], r)
  }

  lemma RenderingSteps(e: map<Key, Value>, done: set<Key>, key: Key, r: Fields)
    requires key in e && RenderingSoFar(e, done, r)
    ensures RenderingSoFar(e, done + {key}, r[key.text := e[key]])
  {
  }

  lemma RenderingEnds(e: map<Key, Value>)
    ensures RenderingSoFar(e, {}, map[])
    ensures forall r {:trigger RenderingSoFar(e, e.Keys, r)} :: RenderingSoFar(e, e.Keys, r) <==> Rendering(e, r)
  {
    assert (map k | k in e && k in e.Keys :: e[k]) == e;
  }

  method ConvertInterfaceKeysToString(m: IfaceMap, ghost h: Heap) returns (r: StringMap)
    requires IfaceOk(m, h)
    ensures fresh(r) && StringOk(r, h)
    ensures Rendering(m.tree, r.tree)
  {
    ghost var e, acc := m.tree, map[];
    RenderingEnds(e);
    r := new StringMap();
    var entries := m.entries;
    var todo := entries.Keys;
    while todo != {}
      modifies r
      invariant todo <= entries.Keys && StringOk(r, h) && r !in h.strs
      invariant r.tree == acc && RenderingSoFar(e, e.Keys - todo, acc)
      decreases todo
    {
      var key :| key in todo;
      RenderingSteps(e, e.Keys - todo, key, acc);
      assert e.Keys - (todo - {key}) == (e.Keys - todo) + {key};
      r.Set(key.text, entries[key], h);
      acc := acc[key.text := e[key]];
      todo := todo - {key};
    }
    assert e.Keys - todo == e.Keys;
  }

  /** `t` is what the merge can have made of `t1` once the keys in `done` have been visited. */
  ghost predicate Partial(t1: Fields, t2: Fields, done: set<string>, t: Fields) {
    && t.Keys == t1.Keys + (t2.Keys * done)
    && forall s :: s in t ==>
         if s in t2 && s in done then MayMerge(Lookup(t1, s), t2[s], t[s]) else t[s] == t1[s]
  }

  lemma PartialStep(t1: Fields, t2: Fields, done: set<string>, t: Fields, key: string, v: Value)
    requires Partial(t1, t2, done, t) && key in t2 && key !in done && MayMerge(Lookup(t, key), t2[key], v)
    ensures Partial(t1, t2, done + {key}, t[key := v])
  {
  }

  lemma PartialEnds(t1: Fields, t2: Fields, t: Fields)
    ensures Partial(t1, t2, t2.Keys - t2.Keys, t1)
    ensures Partial(t1, t2, t2.Keys, t) ==> MayMergeDocs(t1, t2, t)
  {
  }

  /** Writes to `m1` only: neither `m2` nor any map or slice that either of them refers to is
      modified, whatever the iteration order. */
  method MergeMapsRecursive(m1: StringMap, m2: StringMap, ghost h: Heap, ghost bound: Value)
    returns (r: StringMap, ghost h': Heap)
    requires Working(m1, h) && StringOk(m2, h) && m1 != m2
    requires forall s :: s in m2.tree ==> m2.tree[s] < bound
    modifies m1
    ensures r == m1
    ensures Extends(h, h') && Working(m1, h')
    ensures MayMergeDocs(old(m1.tree), m2.tree, m1.tree)
    decreases bound, 0
  {
    r, h' := m1, h;
    ghost var t1, t2 := m1.tree, m2.tree;
    var fields := m2.fields;
    var todo := fields.Keys;
    PartialEnds(t1, t2, t1);
    while todo != {}
      modifies m1
      invariant todo <= t2.Keys && Extends(h, h') && Working(m1, h') && CellsOk(fields, t2, h')
      invariant Partial(t1, t2, t2.Keys - todo, m1.tree)
      decreases todo
    {
      var key :| key in todo;
      h' := MergeNext(m1, fields, key, t1, t2, todo, h');
      todo := todo - {key};
    }
    assert t2.Keys - todo == t2.Keys;
    PartialEnds(t1, t2, m1.tree);
  }

  /** One round of the loop. */
  method MergeNext(m1: StringMap, fields: map<string, Cell>, key: string, ghost t1: Fields, ghost t2: Fields,
                   ghost todo: set<string>, ghost h: Heap)
    returns (ghost h': Heap)
    requires Working(m1, h) && CellsOk(fields, t2, h) && key in todo && todo <= t2.Keys
    requires Partial(t1, t2, t2.Keys - todo, m1.tree)
    modifies m1
    ensures Extends(h, h') && Working(m1, h') && CellsOk(fields, t2, h')
    ensures Partial(t1, t2, t2.Keys - (todo - {key}), m1.tree)
    decreases t2[key], 4
  {
    ghost var t := m1.tree;
    ghost var v;
    h', v := MergeKey(m1, key, fields[key], h);
    PartialStep(t1, t2, t2.Keys - todo, t, key, v);
    assert t2.Keys - (todo - {key}) == (t2.Keys - todo) + {key};
    CellsStillOk(fields, t2, h, h');
  }

  /** The value `value` arrives at `key`. */
  method MergeKey(m1: StringMap, key: string, value: Cell, ghost h: Heap) returns (ghost h': Heap, ghost v: Value)
    requires Working(m1, h) && In(value, h)
    modifies m1
    ensures Extends(h, h') && Working(m1, h')
    ensures m1.tree == old(m1.tree)[key := v] && MayMerge(Lookup(old(m1.tree), key), old(TreeOf(value)), v)
    decreases TreeOf(value), 3
  {
    var current := if key in m1.fields then m1.fields[key] else Atom(Null);
    assert In(current, h) && TreeOf(current) == Lookup(m1.tree, key);
    var result;
    result, h' := Combine(current, value, h);
    StillOk(h, h');
    v := TreeOf(result);
    m1.Set(key, result, h');
  }

  /** What the key holds afterwards. */
  method Combine(current: Cell, value: Cell, ghost h: Heap) returns (result: Cell, ghost h': Heap)
    requires Closed(h) && In(current, h) && In(value, h)
    ensures Extends(h, h') && Closed(h') && In(result, h')
    ensures MayMerge(TreeOf(current), TreeOf(value), TreeOf(result))
    decreases TreeOf(value), 2
  {
    result, h' := value, h;
    if !DeepEqual(current, value, h) {
      if value.IfaceRef? && current.IfaceRef? {
        var merged;
        merged, h' := MergeInterfaceMaps(current.iface, value.iface, h);
        result := StringRef(merged);
      } else if value.SliceRef? && current.SliceRef? {
        assert SliceOk(value.slice, h) && SliceOk(current.slice, h);
        var joined := JoinSlices(value.slice, current.slice, h);
        h' := h.(slices := h.slices + {joined});
        AddSlice(h, joined, h');
        result := SliceRef(joined);
      }
    }
  }

  /** A new slice: the elements of the newer one, then those of the older one. */
  method JoinSlices(newer: Slice, older: Slice, ghost h: Heap) returns (r: Slice)
    requires SliceOk(newer, h) && SliceOk(older, h)
    ensures fresh(r) && SliceOk(r, h) && r.tree == newer.tree + older.tree
  {
    var all: seq<Cell> := [];
    for i := 0 to |newer.elems|
      invariant all == newer.elems[..i]
    {
      all := all + [newer.elems[i]];
    }
    for i := 0 to |older.elems|
      invariant all == newer.elems + older.elems[..i]
    {
      all := all + [older.elems[i]];
    }
    r := new Slice(all, newer.tree + older.tree);
  }

  /** The recursive case: both mappings are copied under string keys and the copies merged. */
  method MergeInterfaceMaps(m1: IfaceMap, m2: IfaceMap, ghost h: Heap)
    returns (r: StringMap, ghost h': Heap)
    requires Closed(h) && m1 in h.ifaces && m2 in h.ifaces && m1.tree != m2.tree
    ensures Extends(h, h') && Closed(h') && r in h'.strs && fresh(r)
    ensures MayMerge(IMap(m1.tree), IMap(m2.tree), SMap(r.tree))
    decreases IMap(m2.tree), 1
  {
    ghost var e1, e2 := m1.tree, m2.tree;
    var c1, c2 := ConvertBoth(m1, m2, h);
    ghost var t1, t2 := c1.tree, c2.tree;
    RenderingIsSmaller(e2, t2);
    ghost var g;
    r, g := MergeMapsRecursive(c1, c2, h, IMap(e2));
    h' := g.(strs := g.strs + {r});
    AddString(g, r, h');
    MergedRenderings(e1, e2, t1, t2, r.tree);
  }

  method ConvertBoth(m1: IfaceMap, m2: IfaceMap, ghost h: Heap) returns (c1: StringMap, c2: StringMap)
    requires Closed(h) && m1 in h.ifaces && m2 in h.ifaces
    ensures fresh(c1) && fresh(c2) && c1 != c2 && Working(c1, h) && StringOk(c2, h)
    ensures Rendering(m1.tree, c1.tree) && Rendering(m2.tree, c2.tree)
  {
    assert IfaceOk(m1, h) && IfaceOk(m2, h);
    c1 := ConvertInterfaceKeysToString(m1, h);
    c2 := ConvertInterfaceKeysToString(m2, h);
  }
}
