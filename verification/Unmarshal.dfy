/** The objects that parsing a document allocates: a new one for every mapping and sequence. */
module Unmarshal {
  import opened Trees
  import opened GoHeap

  method BuildDocument(doc: Fields, ghost h: Heap, ghost bound: Value) returns (m: StringMap, ghost h': Heap)
    requires Closed(h) && forall s :: s in doc ==> doc[s] < bound
    ensures Extends(h, h') && Closed(h') && fresh(m) && m !in h'.strs && StringOk(m, h')
    ensures m.tree == doc
    decreases bound, 0
  {
    h' := h;
    m := new StringMap();
    var todo := doc.Keys;
    while todo != {}
      modifies m
      invariant todo <= doc.Keys
      invariant Extends(h, h') && Closed(h') && m !in h'.strs && StringOk(m, h')
      invariant m.tree == map s | s in doc && s in doc.Keys - todo :: doc[s]
      decreases todo
    {
      var key :| key in todo;
      h' := BuildEntry(m, key, doc[key], h');
      todo := todo - {key};
    }
  }

  method BuildEntry(m: StringMap, key: string, v: Value, ghost h: Heap) returns (ghost h': Heap)
    requires Closed(h) && m !in h.strs && StringOk(m, h)
    modifies m
    ensures Extends(h, h') && Closed(h') && m !in h'.strs && StringOk(m, h')
    ensures m.tree == old(m.tree)[key := v]
    decreases v, 2
  {
    var c;
    c, h' := BuildCell(v, h);
    StillOk(h, h');
    m.Set(key, c, h');
  }

  method BuildCell(v: Value, ghost h: Heap) returns (c: Cell, ghost h': Heap)
    requires Closed(h)
    ensures Extends(h, h') && Closed(h') && In(c, h') && TreeOf(c) == v
    decreases v, 1
  {
    match v
    case Seq(es) =>
      var s;
      s, h' := BuildSlice(es, h);
      c := SliceRef(s);
    case IMap(e) =>
      var m;
      m, h' := BuildMapping(e, h, v);
      c := IfaceRef(m);
    case SMap(f) =>
      var m;
      ghost var g;
      m, g := BuildDocument(f, h, v);
      h' := g.(strs := g.strs + {m});
      AddString(g, m, h');
      c := StringRef(m);
    case _ =>
      c, h' := Atom(v), h;
  }

  method BuildSlice(es: seq<Value>, ghost h: Heap) returns (s: Slice, ghost h': Heap)
    requires Closed(h)
    ensures Extends(h, h') && Closed(h') && s in h'.slices && s.tree == es
    decreases Seq(es), 0
  {
    var cells: seq<Cell> := [];
    h' := h;
    for i := 0 to |es|
      invariant |cells| == i && Extends(h, h') && Closed(h')
      invariant forall j :: 0 <= j < i ==> In(cells[j], h') && TreeOf(cells[j]) == es[j]
    {
      var c;
      c, h' := BuildCell(es[i], h');
      cells := cells + [c];
    }
    ghost var g := h';
    s := new Slice(cells, es);
    h' := g.(slices := g.slices + {s});
    AddSlice(g, s, h');
  }

  method BuildMapping(e: map<Key, Value>, ghost h: Heap, ghost bound: Value) returns (m: IfaceMap, ghost h': Heap)
    requires Closed(h) && bound == IMap(e)
    ensures Extends(h, h') && Closed(h') && m in h'.ifaces && m.tree == e
    decreases bound, 0
  {
    var cells: map<Key, Cell> := map[];
    h' := h;
    var todo := e.Keys;
    while todo != {}
      invariant todo <= e.Keys && Extends(h, h') && Closed(h')
      invariant cells.Keys == e.Keys - todo
      invariant forall k :: k in cells ==> In(cells[k], h') && TreeOf(cells[k]) == e[k]
      decreases todo
    {
      var key :| key in todo;
      var c;
      c, h' := BuildCell(e[key], h');
      cells := cells[key := c];
      todo := todo - {key};
    }
    ghost var g := h';
    m := new IfaceMap(cells, e);
    h' := g.(ifaces := g.ifaces + {m});
    AddIface(g, m, h');
  }
}
