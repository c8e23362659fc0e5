/** The merge engine as it runs: maps and slices are objects that are shared and updated in
    place, and Go's `range` visits a map in any order.

    Every object carries the tree it stands for as a ghost field; a `Heap` is a set of objects
    that is closed under reference and whose ghost trees are right.  A method that lists only
    one map in its `modifies` clause writes to that map alone. */
module GoHeap {
  import opened Trees
  import opened Printing

  datatype Cell =
    | Atom(v: Value)
    | SliceRef(slice: Slice)
    | IfaceRef(iface: IfaceMap)
    | StringRef(str: StringMap)

  class Slice {
    const elems: seq<Cell>
    ghost const tree: seq<Value>

    constructor (elems: seq<Cell>, ghost tree: seq<Value>)
      ensures this.elems == elems && this.tree == tree
    {
      this.elems, this.tree := elems, tree;
    }
  }

  class IfaceMap {
    var entries: map<Key, Cell>
    ghost var tree: map<Key, Value>

    constructor (entries: map<Key, Cell>, ghost tree: map<Key, Value>)
      ensures this.entries == entries && this.tree == tree
    {
      this.entries, this.tree := entries, tree;
    }
  }

  class StringMap {
    var fields: map<string, Cell>
    ghost var tree: Fields

    constructor ()
      ensures fields == map[] && tree == map[]
    {
      fields, tree := map[], map[];
    }

    method Set(key: string, c: Cell, ghost h: Heap)
      requires StringOk(this, h) && In(c, h) && this !in h.strs
      modifies this
      ensures StringOk(this, h)
      ensures fields == old(fields)[key := c]
      ensures tree == old(tree)[key := old(TreeOf(c))]
    {
      tree := tree[key := TreeOf(c)];
      fields := fields[key := c];
    }
  }

  datatype Heap = Heap(slices: set<Slice>, ifaces: set<IfaceMap>, strs: set<StringMap>)

  ghost predicate IsAtom(v: Value) {
    v.Null? || v.Scalar?
  }

  ghost function TreeOf(c: Cell): Value
    reads match c case IfaceRef(m) => {m as object} case StringRef(m) => {m as object} case _ => {}
  {
    match c
    case Atom(v) => v
    case SliceRef(s) => Seq(s.tree)
    case IfaceRef(m) => IMap(m.tree)
    case StringRef(m) => SMap(m.tree)
  }

  ghost predicate In(c: Cell, h: Heap) {
    match c
    case Atom(v) => IsAtom(v)
    case SliceRef(s) => s in h.slices
    case IfaceRef(m) => m in h.ifaces
    case StringRef(m) => m in h.strs
  }

  ghost predicate SliceOk(s: Slice, h: Heap)
    reads h.ifaces, h.strs
  {
    |s.elems| == |s.tree| && forall i :: 0 <= i < |s.elems| ==> In(s.elems[i], h) && TreeOf(s.elems[i]) == s.tree[i]
  }

  ghost predicate IfaceOk(m: IfaceMap, h: Heap)
    reads m, h.ifaces, h.strs
  {
    m.entries.Keys == m.tree.Keys &&
    forall k :: k in m.entries ==> In(m.entries[k], h) && TreeOf(m.entries[k]) == m.tree[k]
  }

  ghost predicate StringOk(m: StringMap, h: Heap)
    reads m, h.ifaces, h.strs
  {
    m.fields.Keys == m.tree.Keys && forall s :: s in m.fields ==> In(m.fields[s], h) && TreeOf(m.fields[s]) == m.tree[s]
  }

  ghost predicate Closed(h: Heap)
    reads h.ifaces, h.strs
  {
    && (forall s {:trigger SliceOk(s, h)} :: s in h.slices ==> SliceOk(s, h))
    && (forall m {:trigger IfaceOk(m, h)} :: m in h.ifaces ==> IfaceOk(m, h))
    && (forall m {:trigger StringOk(m, h)} :: m in h.strs ==> StringOk(m, h))
  }

  /** `m` is right in `h`, and nothing in `h` refers to it. */
  ghost predicate Working(m: StringMap, h: Heap)
    reads m, h.ifaces, h.strs
  {
    Closed(h) && StringOk(m, h) && m !in h.strs
  }

  /** `g` is `h` with newly allocated objects added. */
  twostate predicate Extends(h: Heap, new g: Heap) {
    && h.slices <= g.slices && fresh(g.slices - h.slices)
    && h.ifaces <= g.ifaces && fresh(g.ifaces - h.ifaces)
    && h.strs <= g.strs && fresh(g.strs - h.strs)
  }

  ghost predicate Within(h: Heap, g: Heap) {
    h.slices <= g.slices && h.ifaces <= g.ifaces && h.strs <= g.strs
  }

  lemma StillOk(h: Heap, g: Heap)
    requires Within(h, g)
    ensures forall s {:trigger SliceOk(s, g)} :: SliceOk(s, h) ==> SliceOk(s, g)
    ensures forall m {:trigger IfaceOk(m, g)} :: IfaceOk(m, h) ==> IfaceOk(m, g)
    ensures forall m {:trigger StringOk(m, g)} :: StringOk(m, h) ==> StringOk(m, g)
  {
  }

  lemma AddSlice(h: Heap, s: Slice, g: Heap)
    requires Closed(h) && SliceOk(s, h) && g == h.(slices := h.slices + {s})
    ensures Closed(g) && Within(h, g)
    ensures forall m {:trigger StringOk(m, g)} :: StringOk(m, h) ==> StringOk(m, g)
  {
    StillOk(h, g);
  }

  lemma AddIface(h: Heap, m: IfaceMap, g: Heap)
    requires Closed(h) && IfaceOk(m, h) && g == h.(ifaces := h.ifaces + {m})
    ensures Closed(g) && Within(h, g)
  {
    StillOk(h, g);
  }

  lemma AddString(h: Heap, m: StringMap, g: Heap)
    requires Closed(h) && StringOk(m, h) && g == h.(strs := h.strs + {m})
    ensures Closed(g) && Within(h, g)
    ensures forall n {:trigger StringOk(n, g)} :: StringOk(n, h) ==> StringOk(n, g)
  {
    StillOk(h, g);
  }

  /** `fields` holds, by name, cells that stand for the trees of `t`. */
  ghost predicate CellsOk(fields: map<string, Cell>, t: Fields, h: Heap)
    reads h.ifaces, h.strs
  {
    fields.Keys == t.Keys && forall s :: s in fields ==> In(fields[s], h) && TreeOf(fields[s]) == t[s]
  }

  lemma CellsStillOk(fields: map<string, Cell>, t: Fields, h: Heap, g: Heap)
    requires CellsOk(fields, t, h) && Within(h, g)
    ensures CellsOk(fields, t, g)
  {
  }

  // ----- reflect.DeepEqual

  /** Structural equality, which is equality of the trees; the map kinds never compare equal. */
  predicate DeepEqual(a: Cell, b: Cell, ghost h: Heap)
    requires Closed(h) && In(a, h) && In(b, h)
    reads h.ifaces, h.strs
    ensures DeepEqual(a, b, h) <==> TreeOf(a) == TreeOf(b)
    decreases TreeOf(a)
  {
    match (a, b)
    case (Atom(v), Atom(w)) => v == w
    case (SliceRef(s), SliceRef(t)) =>
      assert SliceOk(s, h) && SliceOk(t, h);
      var same := |s.elems| == |t.elems| && forall i | 0 <= i < |s.elems| :: DeepEqual(s.elems[i], t.elems[i], h);
      assert same ==> s.tree == t.tree;
      same
    case (IfaceRef(m), IfaceRef(n)) =>
      assert IfaceOk(m, h) && IfaceOk(n, h);
      var same := m.entries.Keys == n.entries.Keys
                  && forall k | k in m.entries :: DeepEqual(m.entries[k], n.entries[k], h);
      assert same ==> m.tree == n.tree;
      same
    case (StringRef(m), StringRef(n)) =>
      assert StringOk(m, h) && StringOk(n, h);
      var same := m.fields.Keys == n.fields.Keys && forall s | s in m.fields :: DeepEqual(m.fields[s], n.fields[s], h);
      assert same ==> m.tree == n.tree;
      same
    case _ => false
  }

  // ----- json.Marshal

  /** Whether the object can be printed as JSON, which depends on its tree alone. */
  predicate Marshals(c: Cell, ghost h: Heap)
    requires Closed(h) && In(c, h)
    reads h.ifaces, h.strs
    ensures Marshals(c, h) <==> !Refused(TreeOf(c))
    decreases TreeOf(c)
  {
    match c
    case Atom(v) => !IsInfinite(v)
    case SliceRef(s) =>
      assert SliceOk(s, h);
      forall i | 0 <= i < |s.elems| :: Marshals(s.elems[i], h)
    case IfaceRef(_) => false
    case StringRef(m) =>
      assert StringOk(m, h);
      forall s | s in m.fields :: Marshals(m.fields[s], h)
  }
}
