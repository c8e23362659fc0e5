/** Configuration trees as the operator holds them in memory, and the pure meaning of its merge.

    A parsed document reaches the operator with two kinds of mapping: the parser builds
    interface-keyed mappings (`IMap`), while the top level of a document and every mapping that
    has already been merged are string-keyed (`SMap`).  The merge looks at that tag, so the
    model keeps it. */
module Trees {

  datatype KeyKind = StringKey | IntKey | FloatKey | BoolKey | NullKey | TimeKey

  /** A mapping key: its dynamic type and the text it prints as. */
  datatype Key = Key(kind: KeyKind, text: string)

  datatype ScalarKind = Text | Int | Float | Bool | Time

  datatype Value =
    | Null
    | Scalar(kind: ScalarKind, text: string)
    | Seq(elems: seq<Value>)
    | IMap(entries: map<Key, Value>)
    | SMap(fields: map<string, Value>)

  type Fields = map<string, Value>

  predicate IsMapping(v: Value) {
    v.IMap? || v.SMap?
  }

  /** Indexing a Go map: the zero value when the key is absent. */
  function Lookup(m: Fields, s: string): Value {
    if s in m then m[s] else Null
  }

  // ----- keys and their printed form

  ghost function Texts(e: map<Key, Value>): set<string> {
    set k | k in e :: k.text
  }

  /** The value stored under some key that prints as `s`. */
  ghost function Get(e: map<Key, Value>, s: string): (v: Value)
    requires s in Texts(e)
    ensures exists k :: k in e && k.text == s && e[k] == v
    ensures v < IMap(e)
  {
    var k :| k in e && k.text == s;
    assert IMap(e).entries == e;
    e[k]
  }

  ghost function ConvertKeys(e: map<Key, Value>): Fields {
    map s | s in Texts(e) :: Get(e, s)
  }

  /** No two keys of `K` print alike. */
  ghost predicate Unambiguous(K: iset<Key>) {
    forall k, k' :: k in K && k' in K && k.text == k'.text ==> k == k'
  }

  /** Every mapping key anywhere in `v` belongs to `K`. */
  ghost predicate KeysIn(v: Value, K: iset<Key>) {
    match v
    case Seq(es) => forall i :: 0 <= i < |es| ==> KeysIn(es[i], K)
    case IMap(e) => forall k :: k in e ==> k in K && KeysIn(e[k], K)
    case SMap(m) => forall s :: s in m ==> KeysIn(m[s], K)
    case _ => true
  }

  ghost predicate FieldsKeysIn(m: Fields, K: iset<Key>) {
    forall s :: s in m ==> KeysIn(m[s], K)
  }

  lemma ConvertedSmaller(e: map<Key, Value>)
    ensures forall s :: s in ConvertKeys(e) ==> ConvertKeys(e)[s] < IMap(e)
  {
  }

  lemma GetByKey(e: map<Key, Value>, k: Key, K: iset<Key>)
    requires k in e && KeysIn(IMap(e), K) && Unambiguous(K)
    ensures k.text in Texts(e) && Get(e, k.text) == e[k]
  {
  }

  lemma ConvertedIn(e: map<Key, Value>, K: iset<Key>)
    requires KeysIn(IMap(e), K)
    ensures FieldsKeysIn(ConvertKeys(e), K)
  {
  }

  // ----- tags

  /** As the parser leaves it: no string-keyed mapping inside. */
  ghost predicate Fresh(v: Value) {
    match v
    case Seq(es) => forall i :: 0 <= i < |es| ==> Fresh(es[i])
    case IMap(e) => forall k :: k in e ==> Fresh(e[k])
    case SMap(_) => false
    case _ => true
  }

  /** A parsed document: string-keyed at the top only. */
  ghost predicate FreshDoc(m: Fields) {
    forall s :: s in m ==> Fresh(m[s])
  }

  /** String-keyed mappings are closed upwards: none below an interface-keyed mapping or in a
      sequence. */
  ghost predicate Shaped(v: Value) {
    match v
    case SMap(m) => forall s :: s in m ==> Shaped(m[s])
    case _ => Fresh(v)
  }

  ghost predicate ShapedDoc(m: Fields) {
    forall s :: s in m ==> Shaped(m[s])
  }

  lemma FreshIsShaped(m: Fields)
    requires FreshDoc(m)
    ensures ShapedDoc(m)
  {
  }

  lemma ConvertedFresh(e: map<Key, Value>)
    requires Fresh(IMap(e))
    ensures FreshDoc(ConvertKeys(e))
  {
  }

  // ----- the operator's merge

  /** What one key holds after `newer` arrives at a key that holds `older` (`Null` when absent). */
  ghost function MergeValue(older: Value, newer: Value): Value
    decreases newer
  {
    if older == newer then newer
    else match newer
      case IMap(e2) =>
        if older.IMap? then
          SMap(map s | s in Texts(older.entries) + Texts(e2) ::
            if s !in Texts(e2) then Get(older.entries, s)
            else MergeValue(if s in Texts(older.entries) then Get(older.entries, s) else Null, Get(e2, s)))
        else newer
      case Seq(n) => if older.Seq? then Seq(n + older.elems) else newer
      case _ => newer
  }

  ghost function Merge(m1: Fields, m2: Fields): Fields {
    map s | s in m1.Keys + m2.Keys :: if s in m2 then MergeValue(Lookup(m1, s), m2[s]) else m1[s]
  }

  /** Two unequal interface-keyed mappings are merged after their keys have been converted. */
  lemma MergeTwoMappings(e1: map<Key, Value>, e2: map<Key, Value>)
    requires e1 != e2
    ensures MergeValue(IMap(e1), IMap(e2)) == SMap(Merge(ConvertKeys(e1), ConvertKeys(e2)))
  {
    assert ConvertKeys(e1).Keys == Texts(e1) && ConvertKeys(e2).Keys == Texts(e2);
    assert MergeValue(IMap(e1), IMap(e2)).fields == Merge(ConvertKeys(e1), ConvertKeys(e2));
  }

  lemma NormalizeMapping(e: map<Key, Value>)
    ensures Normalize(IMap(e)) == SMap(NormalizeDoc(ConvertKeys(e)))
  {
    assert Normalize(IMap(e)).fields == NormalizeDoc(ConvertKeys(e));
  }

  lemma MergeIntoEmpty(m: Fields)
    ensures Merge(map[], m) == m
  {
  }

  // ----- key normalisation

  /** Turns every interface-keyed mapping into a string-keyed one, except below a sequence that
      is itself an element of a sequence. */
  ghost function Normalize(v: Value): Value {
    match v
    case SMap(m) => SMap(map s | s in m :: Normalize(m[s]))
    case IMap(e) => SMap(map s | s in Texts(e) :: Normalize(Get(e, s)))
    case Seq(es) => Seq(seq(|es|, i requires 0 <= i < |es| => if IsMapping(es[i]) then Normalize(es[i]) else es[i]))
    case _ => v
  }

  ghost function NormalizeElem(v: Value): Value {
    if IsMapping(v) then Normalize(v) else v
  }

  ghost function NormalizeDoc(m: Fields): Fields {
    map s | s in m :: Normalize(m[s])
  }

  /** No interface-keyed mapping except below a sequence directly inside a sequence. */
  ghost predicate Normal(v: Value) {
    match v
    case IMap(_) => false
    case SMap(m) => forall s :: s in m ==> Normal(m[s])
    case Seq(es) => forall i :: 0 <= i < |es| && !es[i].Seq? ==> Normal(es[i])
    case _ => true
  }

  lemma {:induction false} NormalizeNormal(v: Value)
    ensures Normal(Normalize(v))
  {
    match v
    case SMap(m) =>
      forall s | s in m ensures Normal(Normalize(m[s])) { NormalizeNormal(m[s]); }
    case IMap(e) =>
      forall s | s in Texts(e) ensures Normal(Normalize(Get(e, s))) { NormalizeNormal(Get(e, s)); }
    case Seq(es) =>
      forall i | 0 <= i < |es| && !es[i].Seq? ensures Normal(NormalizeElem(es[i])) { NormalizeNormal(es[i]); }
    case _ =>
  }

  /** Normal trees are exactly the ones normalisation leaves alone. */
  lemma {:induction false} NormalIffFixed(v: Value)
    ensures Normal(v) <==> Normalize(v) == v
  {
    NormalizeNormal(v);
    if Normal(v) {
      match v
      case SMap(m) =>
        forall s | s in m ensures Normalize(m[s]) == m[s] { NormalIffFixed(m[s]); }
      case Seq(es) =>
        forall i | 0 <= i < |es| ensures NormalizeElem(es[i]) == es[i] {
          if !es[i].Seq? { NormalIffFixed(es[i]); }
        }
        assert Normalize(v).elems == es;
      case _ =>
    }
  }

  lemma NormalizeIdempotent(v: Value)
    ensures Normalize(Normalize(v)) == Normalize(v)
  {
    NormalizeNormal(v);
    NormalIffFixed(Normalize(v));
  }

  /** On parsed trees whose keys print unambiguously, normalisation identifies nothing: the
      equality test made before normalising is the one that would be made after it. */
  lemma {:induction false} NormalizeInjective(v: Value, w: Value, K: iset<Key>)
    requires Fresh(v) && Fresh(w) && KeysIn(v, K) && KeysIn(w, K) && Unambiguous(K)
    ensures Normalize(v) == Normalize(w) <==> v == w
    decreases v
  {
    if Normalize(v) == Normalize(w) {
      match v
      case IMap(e) =>
        assert w.IMap?;
        MappingsInjective(e, w.entries, K);
      case Seq(es) =>
        assert w.Seq? && |Normalize(v).elems| == |es| && |Normalize(w).elems| == |w.elems|;
        forall i | 0 <= i < |es| ensures es[i] == w.elems[i] {
          assert Normalize(v).elems[i] == NormalizeElem(es[i]) == NormalizeElem(w.elems[i]);
          if IsMapping(es[i]) || IsMapping(w.elems[i]) {
            NormalizeInjective(es[i], w.elems[i], K);
          }
        }
      case _ =>
    }
  }

  lemma {:induction false} MappingsInjective(e: map<Key, Value>, f: map<Key, Value>, K: iset<Key>)
    requires Fresh(IMap(e)) && Fresh(IMap(f)) && KeysIn(IMap(e), K) && KeysIn(IMap(f), K) && Unambiguous(K)
    requires Normalize(IMap(e)) == Normalize(IMap(f))
    ensures e == f
    decreases IMap(e), 0
  {
    assert Normalize(IMap(e)).fields.Keys == Texts(e);
    assert Normalize(IMap(f)).fields.Keys == Texts(f);
    forall k | k in e ensures k in f && e[k] == f[k] {
      GetByKey(e, k, K);
      var k' :| k' in f && k'.text == k.text;
      GetByKey(f, k', K);
      assert Normalize(IMap(e)).fields[k.text] == Normalize(e[k]);
      assert Normalize(IMap(f)).fields[k.text] == Normalize(f[k]);
      NormalizeInjective(e[k], f[k], K);
    }
    forall k | k in f ensures k in e {
      assert k.text in Texts(e);
      var k' :| k' in e && k'.text == k.text;
    }
  }
}
