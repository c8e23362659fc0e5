/** What the two printers make of a normalised configuration: the one of the custom resource prints
    any, the one of the webhook goes through JSON, which knows no interface-keyed mappings and no
    infinite numbers. */
module Printing {
  import opened Trees
  import opened AnyOrder

  predicate IsInfinite(v: Value) {
    v.Scalar? && v.kind == Float && v.text in {"+Inf", "-Inf"}
  }

  /** JSON does not take it. */
  predicate Refused(v: Value) {
    match v
    case IMap(_) => true
    case SMap(m) => exists s | s in m :: Refused(m[s])
    case Seq(es) => exists i | 0 <= i < |es| :: Refused(es[i])
    case _ => IsInfinite(v)
  }

  predicate RefusedDoc(m: Fields) {
    exists s | s in m :: Refused(m[s])
  }

  ghost predicate HasMapping(v: Value) {
    match v
    case Seq(es) => exists i | 0 <= i < |es| :: HasMapping(es[i])
    case _ => IsMapping(v)
  }

  ghost predicate HasInfinity(v: Value) {
    match v
    case IMap(e) => exists k | k in e :: HasInfinity(e[k])
    case SMap(m) => exists s | s in m :: HasInfinity(m[s])
    case Seq(es) => exists i | 0 <= i < |es| :: HasInfinity(es[i])
    case _ => IsInfinite(v)
  }

  /** Somewhere in `v` a sequence that is directly inside a sequence contains a mapping. */
  ghost predicate HidesMapping(v: Value) {
    match v
    case IMap(e) => exists k | k in e :: HidesMapping(e[k])
    case SMap(m) => exists s | s in m :: HidesMapping(m[s])
    case Seq(es) => exists i | 0 <= i < |es| :: if es[i].Seq? then HasMapping(es[i]) else HidesMapping(es[i])
    case _ => false
  }

  /** Below the normalised part nothing has been converted. */
  lemma {:induction false} FreshRefused(v: Value)
    requires Fresh(v)
    ensures HasMapping(v) || HasInfinity(v) <==> Refused(v)
  {
    match v
    case Seq(es) =>
      forall i | 0 <= i < |es| ensures HasMapping(es[i]) || HasInfinity(es[i]) <==> Refused(es[i]) {
        FreshRefused(es[i]);
      }
    case _ =>
  }

  /** A normalised tree is refused exactly if the tree has an infinite number or a mapping inside
      directly nested sequences. */
  lemma {:induction false} RefusedIff(v: Value, K: iset<Key>)
    requires Shaped(v) && KeysIn(v, K) && Unambiguous(K)
    ensures Refused(Normalize(v)) <==> HidesMapping(v) || HasInfinity(v)
    decreases v
  {
    match v
    case SMap(m) =>
      var r := Normalize(v).fields;
      forall s | s in m ensures Refused(r[s]) <==> HidesMapping(m[s]) || HasInfinity(m[s]) {
        RefusedIff(m[s], K);
      }
    case IMap(e) => MappingRefusedIff(e, K);
    case Seq(es) => SequenceRefusedIff(es, K);
    case _ =>
  }

  lemma {:induction false} MappingRefusedIff(e: map<Key, Value>, K: iset<Key>)
    requires Fresh(IMap(e)) && KeysIn(IMap(e), K) && Unambiguous(K)
    ensures Refused(Normalize(IMap(e))) <==> HidesMapping(IMap(e)) || HasInfinity(IMap(e))
    decreases IMap(e), 0
  {
    var r := Normalize(IMap(e)).fields;
    forall k | k in e ensures k.text in r && r[k.text] == Normalize(e[k])
      ensures Refused(r[k.text]) <==> HidesMapping(e[k]) || HasInfinity(e[k])
    {
      GetByKey(e, k, K);
      FreshIsShapedValue(e[k]);
      RefusedIff(e[k], K);
    }
    forall s | s in r ensures exists k :: k in e && k.text == s {
    }
  }

  lemma {:induction false} SequenceRefusedIff(es: seq<Value>, K: iset<Key>)
    requires Fresh(Seq(es)) && KeysIn(Seq(es), K) && Unambiguous(K)
    ensures Refused(Normalize(Seq(es))) <==> HidesMapping(Seq(es)) || HasInfinity(Seq(es))
    decreases Seq(es), 0
  {
    var r := Normalize(Seq(es)).elems;
    forall i | 0 <= i < |es|
      ensures Refused(r[i]) <==> (if es[i].Seq? then HasMapping(es[i]) else HidesMapping(es[i])) || HasInfinity(es[i])
    {
      FreshIsShapedValue(es[i]);
      if IsMapping(es[i]) {
        RefusedIff(es[i], K);
      } else {
        FreshRefused(es[i]);
      }
    }
  }

  lemma FreshIsShapedValue(v: Value)
    requires Fresh(v)
    ensures Shaped(v)
  {
  }

  ghost predicate Offends(m: Fields) {
    exists s | s in m :: HidesMapping(m[s]) || HasInfinity(m[s])
  }

  lemma DocRefusedIff(m: Fields, K: iset<Key>)
    requires ShapedDoc(m) && FieldsKeysIn(m, K) && Unambiguous(K)
    ensures RefusedDoc(NormalizeDoc(m)) <==> Offends(m)
  {
    forall s | s in m ensures Refused(NormalizeDoc(m)[s]) <==> HidesMapping(m[s]) || HasInfinity(m[s]) {
      RefusedIff(m[s], K);
    }
  }

  /** One that does is `a: [[{b: 1}]]`. */
  function NestedMapping(): Fields {
    map["a" := Seq([Seq([IMap(map[Key(StringKey, "b") := Scalar(Int, "1")])])])]
  }

  lemma NestedMappingOffends()
    ensures Offends(NestedMapping()) && FreshDoc(NestedMapping())
  {
    var inner := IMap(map[Key(StringKey, "b") := Scalar(Int, "1")]);
    assert HasMapping(inner) && [inner][0] == inner;
    assert HasMapping(Seq([inner]));
    assert [Seq([inner])][0].Seq? && HidesMapping(Seq([Seq([inner])]));
    assert NestedMapping()["a"] == Seq([Seq([inner])]);
  }

  /** An infinite number is another. */
  lemma InfinityOffends()
    ensures Offends(map["a" := Scalar(Float, "+Inf")]) && Offends(map["a" := Seq([Scalar(Float, "-Inf")])])
    ensures !Offends(map["a" := Scalar(Float, "1.5")]) && !Offends(map["a" := Scalar(Text, "+Inf")])
  {
    assert [Scalar(Float, "-Inf")][0].text == "-Inf";
    assert "1.5"[0] != "+Inf"[0] && "1.5"[0] != "-Inf"[0];
    var m := map["a" := Seq([Scalar(Float, "-Inf")])];
    assert HasInfinity(m["a"]);
    assert HasInfinity(map["a" := Scalar(Float, "+Inf")]["a"]);
  }
}
