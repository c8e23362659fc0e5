/** The plain merge: recursive, on normalised trees, without tags, and with unequal sequences joined
    newer first as the operator does.  The proof that the operator's tag-dependent merge of two
    parsed documents computes it. */
module PlainMerge {
  import opened Trees
  import opened Wrappers

  ghost function PlainValue(older: Value, newer: Value): Value
    decreases newer
  {
    if older == newer then newer
    else match newer
      case SMap(n) =>
        if older.SMap? then
          SMap(map s | s in older.fields.Keys + n.Keys ::
            if s !in n then older.fields[s]
            else if s !in older.fields then n[s]
            else PlainValue(older.fields[s], n[s]))
        else newer
      case Seq(n) => if older.Seq? then Seq(n + older.elems) else newer
      case _ => newer
  }

  ghost function Plain(older: Fields, newer: Fields): Fields {
    map s | s in older.Keys + newer.Keys ::
      if s !in newer then older[s] else if s !in older then newer[s] else PlainValue(older[s], newer[s])
  }

  // ----- what the plain merge leaves at every path

  ghost function At(v: Value, path: seq<string>): Option<Value> {
    if path == [] then Some(v)
    else if v.SMap? && path[0] in v.fields then At(v.fields[path[0]], path[1..])
    else None
  }

  /** `v` holds something other than a mapping strictly above `path`. */
  ghost predicate Blocks(v: Value, path: seq<string>) {
    path != [] && (!v.SMap? || (path[0] in v.fields && Blocks(v.fields[path[0]], path[1..])))
  }

  /** Where only one side has something the other does not shadow, it is kept; where both have
      something, the newer wins except that mappings recurse and unequal sequences are joined. */
  ghost function Overlay(older: Option<Value>, newer: Option<Value>, blocked: bool): Option<Value> {
    match (older, newer)
    case (_, None) => if blocked then None else older
    case (None, Some(_)) => newer
    case (Some(o), Some(n)) => Some(PlainValue(o, n))
  }

  lemma {:induction false} PlainMergeAtPath(older: Value, newer: Value, path: seq<string>)
    ensures At(PlainValue(older, newer), path)
         == Overlay(At(older, path), At(newer, path), Blocks(newer, path))
    decreases |path|
  {
    if path == [] {
    } else if older == newer {
      PlainSelf(older, path);
    } else if newer.SMap? && older.SMap? {
      var (s, rest) := (path[0], path[1..]);
      if s in older.fields && s in newer.fields {
        PlainMergeAtPath(older.fields[s], newer.fields[s], rest);
      }
    }
  }

  lemma PlainSelf(v: Value, path: seq<string>)
    ensures At(v, path) == Overlay(At(v, path), At(v, path), Blocks(v, path))
  {
  }

  /** The last source to set a value decides it, and no entry of an
      array is lost. */
  lemma LastScalarWinsAndNoEntryIsLost(older: Value, newer: Value, path: seq<string>)
    requires At(newer, path).Some?
    ensures var o, n, r := At(older, path), At(newer, path).value, At(PlainValue(older, newer), path);
      && (!IsMapping(n) && !n.Seq? ==> r == Some(n))
      && (n.Seq? && o.Some? && o.value.Seq? && o.value != n ==>
            r.Some? && r.value.Seq? && multiset(r.value.elems) == multiset(n.elems) + multiset(o.value.elems))
  {
    PlainMergeAtPath(older, newer, path);
  }

  // ----- when the newer value stands alone

  /** The merge of `older` and `newer` takes something from `older` at this path: an entry that
      `newer` neither has nor shadows, or the entries of another sequence. */
  ghost predicate LostAt(older: Value, newer: Value, path: seq<string>) {
    At(older, path).Some? &&
    if At(newer, path).None? then !Blocks(newer, path)
    else
      var (o, n) := (At(older, path).value, At(newer, path).value);
      o.Seq? && n.Seq? && o.elems != [] && o != n
  }

  lemma {:induction false} NothingIsLost(older: Value, newer: Value, path: seq<string>)
    requires PlainValue(older, newer) == newer
    ensures !LostAt(older, newer, path)
    decreases |path|
  {
    if older == newer {
      PlainSelf(older, path);
    } else if path != [] && older.SMap? && newer.SMap? && path[0] in older.fields {
      assert path[0] in PlainValue(older, newer).fields;
      NothingIsLost(older.fields[path[0]], newer.fields[path[0]], path[1..]);
    }
  }

  lemma {:induction false} SomethingIsLost(older: Value, newer: Value) returns (path: seq<string>)
    requires PlainValue(older, newer) != newer
    ensures LostAt(older, newer, path)
    decreases newer
  {
    if newer.Seq? {
      path := [];
    } else {
      var merged := PlainValue(older, newer).fields;
      assert merged != newer.fields;
      if s :| s in older.fields && s !in newer.fields {
        path := [s];
        assert At(older.fields[s], []) == Some(older.fields[s]);
      } else {
        assert merged.Keys == newer.fields.Keys;
        var s :| s in merged && merged[s] != newer.fields[s];
        var rest := SomethingIsLost(older.fields[s], newer.fields[s]);
        path := [s] + rest;
        assert path[1..] == rest;
      }
    }
  }

  /** The newer value stands alone after the merge exactly if nothing of the older one is lost at
      any path. */
  lemma NewerStandsAloneIff(older: Value, newer: Value)
    ensures PlainValue(older, newer) == newer <==> forall path :: !LostAt(older, newer, path)
  {
    if PlainValue(older, newer) == newer {
      forall path ensures !LostAt(older, newer, path) { NothingIsLost(older, newer, path); }
    } else {
      var path := SomethingIsLost(older, newer);
    }
  }

  // ----- the operator's merge refines it

  lemma {:induction false} MergeValueRefines(older: Value, newer: Value, K: iset<Key>)
    requires Fresh(older) && Fresh(newer) && KeysIn(older, K) && KeysIn(newer, K) && Unambiguous(K)
    ensures Normalize(MergeValue(older, newer)) == PlainValue(Normalize(older), Normalize(newer))
    decreases newer, 2
  {
    NormalizeInjective(older, newer, K);
    if older != newer {
      match newer
      case IMap(e2) =>
        if older.IMap? { MappingsRefine(older.entries, e2, K); }
      case Seq(n) =>
        if older.Seq? {
          var joined := Normalize(Seq(n + older.elems)).elems;
          assert joined == Normalize(newer).elems + Normalize(older).elems;
        }
      case _ =>
    }
  }

  lemma {:induction false} MappingsRefine(e1: map<Key, Value>, e2: map<Key, Value>, K: iset<Key>)
    requires Fresh(IMap(e1)) && Fresh(IMap(e2)) && KeysIn(IMap(e1), K) && KeysIn(IMap(e2), K) && Unambiguous(K)
    requires e1 != e2
    ensures Normalize(MergeValue(IMap(e1), IMap(e2))) == PlainValue(Normalize(IMap(e1)), Normalize(IMap(e2)))
    decreases IMap(e2), 1
  {
    var c1, c2 := ConvertKeys(e1), ConvertKeys(e2);
    NormalizeInjective(IMap(e1), IMap(e2), K);
    ConvertedFresh(e1); ConvertedFresh(e2);
    ConvertedIn(e1, K); ConvertedIn(e2, K);
    ConvertedSmaller(e2);
    DocsRefine(c1, c2, K, IMap(e2));
    calc {
      Normalize(MergeValue(IMap(e1), IMap(e2)));
      { MergeTwoMappings(e1, e2); }
      SMap(NormalizeDoc(Merge(c1, c2)));
      SMap(Plain(NormalizeDoc(c1), NormalizeDoc(c2)));
      { NormalizeMapping(e1); NormalizeMapping(e2); PlainMappings(NormalizeDoc(c1), NormalizeDoc(c2)); }
      PlainValue(Normalize(IMap(e1)), Normalize(IMap(e2)));
    }
  }

  lemma PlainMappings(a: Fields, b: Fields)
    requires a != b
    ensures PlainValue(SMap(a), SMap(b)) == SMap(Plain(a, b))
  {
  }

  lemma {:induction false} DocsRefine(first: Fields, second: Fields, K: iset<Key>, bound: Value)
    requires FreshDoc(first) && FreshDoc(second)
    requires FieldsKeysIn(first, K) && FieldsKeysIn(second, K) && Unambiguous(K)
    requires forall s :: s in second ==> second[s] < bound
    ensures NormalizeDoc(Merge(first, second)) == Plain(NormalizeDoc(first), NormalizeDoc(second))
    decreases bound, 0
  {
    forall s | s in first && s in second
      ensures Normalize(MergeValue(first[s], second[s])) == PlainValue(Normalize(first[s]), Normalize(second[s]))
    {
      MergeValueRefines(first[s], second[s], K);
    }
  }

  /** Two parsed documents merged in turn into an empty master and then normalised give the
      plain recursive merge of the two normalised documents. */
  lemma MergeRefinesPlain(first: Fields, second: Fields, K: iset<Key>)
    requires FreshDoc(first) && FreshDoc(second)
    requires FieldsKeysIn(first, K) && FieldsKeysIn(second, K) && Unambiguous(K)
    ensures NormalizeDoc(Merge(Merge(map[], first), second)) == Plain(NormalizeDoc(first), NormalizeDoc(second))
  {
    MergeIntoEmpty(first);
    DocsRefine(first, second, K, SMap(second));
  }

  /** Unambiguous printing is needed: with the keys 1 and "1" the merge joins two sequences that
      normalise to the same one. */
  lemma AmbiguousKeysBreakRefinement()
    ensures
      var v := Seq([IMap(map[Key(IntKey, "1") := Null])]);
      var w := Seq([IMap(map[Key(StringKey, "1") := Null])]);
      && Normalize(v) == Normalize(w)
      && Normalize(MergeValue(v, w)) != PlainValue(Normalize(v), Normalize(w))
  {
    var k, k' := Key(IntKey, "1"), Key(StringKey, "1");
    var e, e' := map[k := Null], map[k' := Null];
    assert k in e && k !in e';
    var v, w := Seq([IMap(e)]), Seq([IMap(e')]);
    assert Texts(e) == {"1"} && Texts(e') == {"1"};
    assert Normalize(IMap(e)) == Normalize(IMap(e'));
    assert Normalize(v).elems == Normalize(w).elems;
    assert v.elems[0] != w.elems[0];
    assert |Normalize(MergeValue(v, w)).elems| == 2;
  }
}
