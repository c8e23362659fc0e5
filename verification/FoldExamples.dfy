/** Lists of sources whose merge is not what the user documentation shows, or not the plain merge. */
module FoldExamples {
  import opened Trees
  import opened PlainMerge
  import opened SourceFold
  import opened ListOrder

  function OneField(key: string, v: Value): Fields {
    map[key := v]
  }

  lemma AllFresh(x: Fields, y: Fields, z: Fields)
    requires FreshDoc(x) && FreshDoc(y) && FreshDoc(z)
    ensures FreshDocs([x, y, z])
  {
  }

  function Servers(path: string): Fields {
    OneField("resource_servers", Seq([Scalar(Text, path)]))
  }

  function ThreeLists(): seq<Fields> {
    [Servers("/app2"), Servers("/app3"), Servers("/app")]
  }

  lemma ListsOfThree()
    ensures var (key, s) := ("resource_servers", ThreeLists());
      && FreshDocs(s) && ListAt(s, key, 2)
      && EntriesAt(s, key, 0) == [Scalar(Text, "/app2")] && EntriesAt(s, key, 1) == [Scalar(Text, "/app3")]
      && EntriesAt(s, key, 2) == [Scalar(Text, "/app")]
  {
    var s := ThreeLists();
    forall path ensures FreshDoc(Servers(path)) { assert Fresh(Seq([Scalar(Text, path)])); }
    AllFresh(s[0], s[1], s[2]);
  }

  lemma OrdersOfThree(s: seq<Fields>, key: string, x: Value, y: Value, z: Value)
    requires |s| == 3 && EntriesAt(s, key, 0) == [x] && EntriesAt(s, key, 1) == [y] && EntriesAt(s, key, 2) == [z]
    ensures NewestFirst(s, key, 0, 3) == [z, y, x] && NewestFirst(s, key, 0, 2) == [y, x]
    ensures NewestFirst(s, key, 0, 1) == [x]
    ensures Lists(s, key, 0, 2) == [[x], [y]] && Forwards([[x], [y]]) == [x, y]
  {
    assert NewestFirst(s, key, 0, 0) == [];
    assert NewestFirst(s, key, 0, 1) == [x];
    assert NewestFirst(s, key, 0, 2) == [y, x];
    assert [[x], [y]][..1] == [[x]] && [[x]][..0] == [];
    assert Forwards([[x]]) == [x];
  }

  /** The documented example: the entries come out as last, second, first, and not as last, first,
      second. */
  lemma DocumentedOrderDiffers()
    ensures var (x, y, z) := (Scalar(Text, "/app2"), Scalar(Text, "/app3"), Scalar(Text, "/app"));
      && Holds(ThreeLists(), "resource_servers", Seq([z, y, x]))
      && !Holds(ThreeLists(), "resource_servers", Seq([z, x, y]))
  {
    var (key, s) := ("resource_servers", ThreeLists());
    var (x, y, z) := (Scalar(Text, "/app2"), Scalar(Text, "/app3"), Scalar(Text, "/app"));
    ListsOfThree();
    OrdersOfThree(s, key, x, y, z);
    assert "/app2"[4] != "/app3"[4];
    assert [x][0] != [y][0] && |[y, x]| != |[z]|;
    SequencesJoinNewestFirst(s, key, 0);
    assert [[x], [y]][0] != [] && [[x], [y]][1] != [];
    DocumentedOrderIff(s, key, 0);
    assert [z] + [x, y] == [z, x, y];
  }

  function Nested(field: string): Value {
    IMap(map[Key(StringKey, field) := Null])
  }

  lemma NestedText(field: string)
    ensures Texts(Nested(field).entries) == {field} && Fresh(Nested(field))
  {
    var k := Key(StringKey, field);
    assert k in Nested(field).entries;
    assert k.text in Texts(Nested(field).entries);
  }

  function ThreeDocs(): seq<Fields> {
    [OneField("k", Nested("a")), OneField("k", Nested("b")), OneField("k", Nested("c"))]
  }

  lemma ThreeRuns()
    ensures FreshDocs(ThreeDocs()) && Run(ThreeDocs(), "k", 1) == Parsed(0) && Run(ThreeDocs(), "k", 2) == Merged(0, 1)
  {
    var s := ThreeDocs();
    NestedText("a"); NestedText("b"); NestedText("c");
    AllFresh(s[0], s[1], s[2]);
    assert MapsAt(s, 0, "k") && MapsAt(s, 1, "k");
    assert Run(s, "k", 0) == Absent;
    RunOnMapping(s, "k", 0);
    assert Nested("a").entries.Keys == {Key(StringKey, "a")} && Nested("b").entries.Keys == {Key(StringKey, "b")};
    assert Differs(s, "k", 1);
    RunOnMapping(s, "k", 1);
  }

  lemma HeldHasFirst()
    ensures FreshDocs(ThreeDocs()) && ThirdMapping(ThreeDocs(), "k", 2)
    ensures var held := Lookup(MergeAll(ThreeDocs()[..2]), "k"); held.SMap? && "a" in held.fields
  {
    var s := ThreeDocs();
    ThreeRuns();
    NestedText("a");
    FoldLaw(s, "k", 2);
    assert MergeValue(Nested("a"), Nested("b")).fields.Keys == Texts(Nested("a").entries) + Texts(Nested("b").entries);
  }

  lemma FirstTwoLoseNothing()
    ensures FreshDocs(ThreeDocs()) && NoneLoses(ThreeDocs(), 2)
  {
    var s := ThreeDocs();
    ThreeRuns();
    forall i, key | 0 <= i < 2 ensures !ThirdMapping(s, key, i) {
      if key != "k" { assert key !in s[i]; }
    }
    forall i | 0 <= i < 2 ensures LosesNothing(s, i) {
    }
  }

  /** Three documents with one field each below the same key: only the last field is left. */
  lemma ThirdMappingExample()
    ensures var s := ThreeDocs();
      FreshDocs(s) && Loses(s, "k", 2) && NormalizeDoc(MergeAll(s)) != PlainAll(s)
  {
    var s := ThreeDocs();
    var K := iset{Key(StringKey, "a"), Key(StringKey, "b"), Key(StringKey, "c")};
    HeldHasFirst();
    NestedText("c");
    var held := Lookup(MergeAll(s[..2]), "k");
    DroppedField(held, Nested("c"), "a");
    assert LostAt(Normalize(held), Normalize(s[2]["k"]), ["a"]) by {
      assert "a" in Normalize(held).fields;
      assert At(Normalize(held).fields["a"], []).Some?;
      assert "a" !in Normalize(Nested("c")).fields;
    }
    assert Loses(s, "k", 2);
    FirstTwoLoseNothing();
    KeysOfThree(K);
    FoldIsPlainIff(s, K);
  }

  lemma KeysOfThree(K: iset<Key>)
    requires K == iset{Key(StringKey, "a"), Key(StringKey, "b"), Key(StringKey, "c")}
    ensures Unambiguous(K) && AllKeysIn(ThreeDocs(), K)
  {
    var s := ThreeDocs();
    assert KeysIn(Nested("a"), K) && KeysIn(Nested("b"), K) && KeysIn(Nested("c"), K);
    forall i | 0 <= i < |s| ensures FieldsKeysIn(s[i], K) {
    }
  }
}
