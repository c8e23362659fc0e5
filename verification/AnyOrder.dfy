/** What the operator's merge and key normalisation can yield when Go visits maps in any order:
    where several keys of a mapping print alike, any of their values may be the one that is kept.
    `Trees` gives the one outcome there is when no two keys print alike. */
module AnyOrder {
  import opened Trees

  // ----- copying a mapping under printed keys

  /** `r` is what copying `e` under printed keys can give. */
  ghost predicate Rendering(e: map<Key, Value>, r: Fields) {
    r.Keys == Texts(e) && forall s :: s in r ==> exists k :: k in e && k.text == s && e[k] == r[s]
  }

  lemma RenderingIsConvertKeys(e: map<Key, Value>, r: Fields, K: iset<Key>)
    requires Rendering(e, r) && KeysIn(IMap(e), K) && Unambiguous(K)
    ensures r == ConvertKeys(e)
  {
  }

  lemma RenderingIsSmaller(e: map<Key, Value>, r: Fields)
    requires Rendering(e, r)
    ensures forall s :: s in r ==> r[s] < IMap(e)
  {
  }

  /** Keys that print alike hold equal values. */
  ghost predicate AlikeAgree(e: map<Key, Value>) {
    forall k, k' :: k in e && k' in e && k.text == k'.text ==> e[k] == e[k']
  }

  lemma EitherIsRendered(e: map<Key, Value>, k: Key)
    requires k in e
    ensures Rendering(e, ConvertKeys(e)[k.text := e[k]])
  {
  }

  lemma RenderingsEqual(e: map<Key, Value>, r: Fields, r': Fields)
    requires AlikeAgree(e) && Rendering(e, r) && Rendering(e, r')
    ensures r == r'
  {
  }

  /** The copy does not depend on the iteration order exactly when keys that print alike hold
      equal values. */
  lemma RenderingIsUniqueIff(e: map<Key, Value>)
    ensures (forall r, r' :: Rendering(e, r) && Rendering(e, r') ==> r == r') <==> AlikeAgree(e)
  {
    if AlikeAgree(e) {
      forall r, r' | Rendering(e, r) && Rendering(e, r') ensures r == r' {
        RenderingsEqual(e, r, r');
      }
    } else {
      var k, k' :| k in e && k' in e && k.text == k'.text && e[k] != e[k'];
      EitherIsRendered(e, k);
      EitherIsRendered(e, k');
      var (r, r') := (ConvertKeys(e)[k.text := e[k]], ConvertKeys(e)[k.text := e[k']]);
      assert r[k.text] != r'[k.text];
    }
  }

  // ----- the merge

  /** `r` is what a key can hold after `newer` arrives at a key that holds `older`. */
  ghost predicate MayMerge(older: Value, newer: Value, r: Value)
    decreases newer, 1
  {
    if older == newer then r == newer
    else match newer
      case IMap(e2) =>
        if older.IMap? then
          && r.SMap? && r.fields.Keys == Texts(older.entries) + Texts(e2)
          && forall s :: s in r.fields ==> MayMergeAt(older.entries, newer, s, r.fields[s])
        else r == newer
      case Seq(n) => r == if older.Seq? then Seq(n + older.elems) else newer
      case _ => r == newer
  }

  /** The same for the entries under one printed key of two mappings. */
  ghost predicate MayMergeAt(e1: map<Key, Value>, newer: Value, s: string, r: Value)
    requires newer.IMap?
    decreases newer, 0
  {
    var e2 := newer.entries;
    if s !in Texts(e2) then Holds(e1, s, r)
    else exists k2 :: k2 in e2 && k2.text == s && e2[k2] < newer && MayMergeInto(e1, s, e2[k2], r)
  }

  ghost predicate MayMergeInto(e1: map<Key, Value>, s: string, newer: Value, r: Value)
    decreases newer, 2
  {
    if s in Texts(e1) then exists k1 :: k1 in e1 && k1.text == s && MayMerge(e1[k1], newer, r)
    else MayMerge(Null, newer, r)
  }

  ghost predicate Holds(e: map<Key, Value>, s: string, r: Value) {
    exists k :: k in e && k.text == s && e[k] == r
  }

  ghost predicate MayMergeDocs(m: Fields, doc: Fields, r: Fields) {
    && r.Keys == m.Keys + doc.Keys
    && forall s :: s in r ==> if s in doc then MayMerge(Lookup(m, s), doc[s], r[s]) else r[s] == m[s]
  }

  /** Merging the copies is one of the merges of the mappings. */
  lemma MergedRenderings(e1: map<Key, Value>, e2: map<Key, Value>, c1: Fields, c2: Fields, r: Fields)
    requires e1 != e2 && Rendering(e1, c1) && Rendering(e2, c2) && MayMergeDocs(c1, c2, r)
    ensures MayMerge(IMap(e1), IMap(e2), SMap(r))
  {
    forall s | s in r ensures MayMergeAt(e1, IMap(e2), s, r[s]) {
      if s in c2 {
        var k2 :| k2 in e2 && k2.text == s && e2[k2] == c2[s];
        assert IMap(e2).entries[k2] == e2[k2];
        if s in c1 {
          var k1 :| k1 in e1 && k1.text == s && e1[k1] == c1[s];
        }
        assert MayMergeInto(e1, s, e2[k2], r[s]);
      }
    }
  }

  /** On keys that print unambiguously the merge has one outcome. */
  lemma {:induction false} MergeIsDetermined(older: Value, newer: Value, r: Value, K: iset<Key>)
    requires MayMerge(older, newer, r) && KeysIn(older, K) && KeysIn(newer, K) && Unambiguous(K)
    ensures r == MergeValue(older, newer)
    decreases newer
  {
    if older != newer && newer.IMap? && older.IMap? {
      var (e1, e2) := (older.entries, newer.entries);
      forall s | s in r.fields ensures r.fields[s] == MergeValue(older, newer).fields[s] {
        assert MayMergeAt(e1, newer, s, r.fields[s]);
        if s in Texts(e2) {
          var k2 :| k2 in e2 && k2.text == s && e2[k2] < newer && MayMergeInto(e1, s, e2[k2], r.fields[s]);
          GetByKey(e2, k2, K);
          if s in Texts(e1) {
            var k1 :| k1 in e1 && k1.text == s && MayMerge(e1[k1], e2[k2], r.fields[s]);
            GetByKey(e1, k1, K);
            MergeIsDetermined(e1[k1], e2[k2], r.fields[s], K);
          } else {
            MergeIsDetermined(Null, e2[k2], r.fields[s], K);
          }
        } else {
          var k1 :| k1 in e1 && k1.text == s && e1[k1] == r.fields[s];
          GetByKey(e1, k1, K);
        }
      }
      assert r.fields == MergeValue(older, newer).fields;
    }
  }

  /** The merge of `Trees` is one of the outcomes, for any keys. */
  lemma {:induction false} MergeIsPossible(older: Value, newer: Value)
    ensures MayMerge(older, newer, MergeValue(older, newer))
    decreases newer
  {
    if older != newer && newer.IMap? && older.IMap? {
      var (e1, e2) := (older.entries, newer.entries);
      var r := MergeValue(older, newer);
      forall s | s in r.fields ensures MayMergeAt(e1, newer, s, r.fields[s]) {
        if s in Texts(e2) {
          var k2 :| k2 in e2 && k2.text == s && e2[k2] == Get(e2, s);
          if s in Texts(e1) {
            var k1 :| k1 in e1 && k1.text == s && e1[k1] == Get(e1, s);
            MergeIsPossible(e1[k1], e2[k2]);
          } else {
            MergeIsPossible(Null, e2[k2]);
          }
          assert MayMergeInto(e1, s, e2[k2], r.fields[s]);
        }
      }
    }
  }

  lemma DocsMergeIsDetermined(m: Fields, doc: Fields, r: Fields, K: iset<Key>)
    requires MayMergeDocs(m, doc, r) && FieldsKeysIn(m, K) && FieldsKeysIn(doc, K) && Unambiguous(K)
    ensures r == Merge(m, doc)
  {
    forall s | s in r ensures r[s] == Merge(m, doc)[s] {
      if s in doc { MergeIsDetermined(Lookup(m, s), doc[s], r[s], K); }
    }
  }

  // ----- key normalisation

  ghost predicate MayNormalize(v: Value, r: Value)
    decreases v, 0
  {
    match v
    case SMap(m) => r.SMap? && r.fields.Keys == m.Keys && forall s :: s in m ==> MayNormalize(m[s], r.fields[s])
    case IMap(e) =>
      && r.SMap? && r.fields.Keys == Texts(e)
      && forall s :: s in r.fields ==> exists k :: k in e && k.text == s && MayNormalize(e[k], r.fields[s])
    case Seq(es) =>
      r.Seq? && |r.elems| == |es| && forall i :: 0 <= i < |es| ==> MayNormalizeElem(es[i], r.elems[i])
    case _ => r == v
  }

  ghost predicate MayNormalizeElem(v: Value, r: Value)
    decreases v, 1
  {
    if IsMapping(v) then MayNormalize(v, r) else r == v
  }

  ghost predicate MayNormalizeDoc(m: Fields, r: Fields) {
    r.Keys == m.Keys && forall s :: s in m ==> MayNormalize(m[s], r[s])
  }

  /** On keys that print unambiguously normalisation has one outcome. */
  lemma {:induction false} NormalizeIsDetermined(v: Value, r: Value, K: iset<Key>)
    requires MayNormalize(v, r) && KeysIn(v, K) && Unambiguous(K)
    ensures r == Normalize(v)
    decreases v
  {
    match v
    case SMap(m) =>
      forall s | s in m ensures r.fields[s] == Normalize(m[s]) { NormalizeIsDetermined(m[s], r.fields[s], K); }
      assert r.fields == Normalize(v).fields;
    case IMap(e) =>
      forall s | s in r.fields ensures r.fields[s] == Normalize(Get(e, s)) {
        var k :| k in e && k.text == s && MayNormalize(e[k], r.fields[s]);
        GetByKey(e, k, K);
        NormalizeIsDetermined(e[k], r.fields[s], K);
      }
      assert r.fields == Normalize(v).fields;
    case Seq(es) =>
      forall i | 0 <= i < |es| ensures r.elems[i] == NormalizeElem(es[i]) {
        assert MayNormalizeElem(es[i], r.elems[i]);
        if IsMapping(es[i]) { NormalizeIsDetermined(es[i], r.elems[i], K); }
      }
      assert r.elems == Normalize(v).elems;
    case _ =>
  }

  /** Whatever the order, no interface-keyed mapping is left except below a sequence directly
      inside a sequence. */
  lemma {:induction false} AnyNormalizedIsNormal(v: Value, r: Value)
    requires MayNormalize(v, r)
    ensures Normal(r)
    decreases v
  {
    match v
    case SMap(m) =>
      forall s | s in m ensures Normal(r.fields[s]) { AnyNormalizedIsNormal(m[s], r.fields[s]); }
    case IMap(e) =>
      forall s | s in r.fields ensures Normal(r.fields[s]) {
        var k :| k in e && k.text == s && MayNormalize(e[k], r.fields[s]);
        AnyNormalizedIsNormal(e[k], r.fields[s]);
      }
    case Seq(es) =>
      forall i | 0 <= i < |es| && !r.elems[i].Seq? ensures Normal(r.elems[i]) {
        assert MayNormalizeElem(es[i], r.elems[i]);
        if IsMapping(es[i]) { AnyNormalizedIsNormal(es[i], r.elems[i]); }
      }
    case _ =>
  }

  /** The normalisation of `Trees` is one of the outcomes, for any keys. */
  lemma {:induction false} NormalizeIsPossible(v: Value)
    ensures MayNormalize(v, Normalize(v))
    decreases v
  {
    match v
    case SMap(m) =>
      forall s | s in m ensures MayNormalize(m[s], Normalize(m[s])) { NormalizeIsPossible(m[s]); }
    case IMap(e) =>
      forall s | s in Texts(e) ensures exists k :: k in e && k.text == s && MayNormalize(e[k], Normalize(Get(e, s))) {
        var k :| k in e && k.text == s && e[k] == Get(e, s);
        NormalizeIsPossible(e[k]);
      }
    case Seq(es) =>
      forall i | 0 <= i < |es| ensures MayNormalizeElem(es[i], NormalizeElem(es[i])) {
        if IsMapping(es[i]) { NormalizeIsPossible(es[i]); }
      }
    case _ =>
  }

  lemma DocNormalizeIsDetermined(m: Fields, r: Fields, K: iset<Key>)
    requires MayNormalizeDoc(m, r) && FieldsKeysIn(m, K) && Unambiguous(K)
    ensures r == NormalizeDoc(m)
  {
    forall s | s in m ensures r[s] == Normalize(m[s]) {
      NormalizeIsDetermined(m[s], r[s], K);
    }
  }
}
