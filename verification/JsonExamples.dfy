/** The examples of RFC 6902 for the two operations that are modelled. */
module JsonExamples {
  import opened Wrappers
  import opened Text
  import opened Json

  lemma Indices()
    ensures Index("0") == Some(0) && Index("1") == Some(1) && Index("12") == Some(12)
    ensures Index("01") == None && Index("-") == None && Index("") == None && Index("a") == None
  {
    assert "1"[..0] == "" && "0"[..0] == "" && "12"[..1] == "1" && "-"[..0] == "" && "a"[..0] == "";
    assert DigitsValue("1") == Some(1);
  }

  /** Appendices A.1 and A.5: adding and replacing an object member. */
  lemma ObjectMembers()
    ensures Apply(JObject(map["foo" := JString("bar")]), Add, ["baz"], JString("qux"))
         == Some(JObject(map["foo" := JString("bar"), "baz" := JString("qux")]))
    ensures Apply(JObject(map["baz" := JString("qux"), "foo" := JString("bar")]), Replace, ["baz"], JString("boo"))
         == Some(JObject(map["baz" := JString("boo"), "foo" := JString("bar")]))
  {
    assert map["baz" := JString("qux"), "foo" := JString("bar")]["baz" := JString("boo")]
        == map["baz" := JString("boo"), "foo" := JString("bar")];
  }

  function FooList(items: seq<Json>): Json {
    JObject(map["foo" := JArray(items)])
  }

  /** Appendices A.2 and A.16: adding an array element, before the one at its index or at the end. */
  lemma ArrayElements()
    ensures Apply(FooList([JString("bar"), JString("baz")]), Add, ["foo", "1"], JString("qux"))
         == Some(FooList([JString("bar"), JString("qux"), JString("baz")]))
    ensures Apply(FooList([JString("bar")]), Add, ["foo", "-"], JArray([JString("abc"), JString("def")]))
         == Some(FooList([JString("bar"), JArray([JString("abc"), JString("def")])]))
  {
    Indices();
    var items := [JString("bar"), JString("baz")];
    assert ["foo", "1"][1..] == ["1"] && ["foo", "-"][1..] == ["-"];
    assert items[..1] + [JString("qux")] + items[1..] == [JString("bar"), JString("qux"), JString("baz")];
    assert ApplyHere(JArray(items), Add, "1", JString("qux"))
        == Some(JArray([JString("bar"), JString("qux"), JString("baz")]));
    assert FooList(items).members["foo" := JArray([JString("bar"), JString("qux"), JString("baz")])]
        == FooList([JString("bar"), JString("qux"), JString("baz")]).members;
    var longer := [JString("bar"), JArray([JString("abc"), JString("def")])];
    assert [JString("bar")] + [JArray([JString("abc"), JString("def")])] == longer;
    assert FooList([JString("bar")]).members["foo" := JArray(longer)] == FooList(longer).members;
  }

  /** Replacing below an array element. */
  lemma BelowAnElement()
    ensures Apply(FooList([JNull, JObject(map["a" := JNull])]), Replace, ["foo", "1", "a"], JNumber(1))
         == Some(FooList([JNull, JObject(map["a" := JNumber(1)])]))
  {
    Indices();
    var items := [JNull, JObject(map["a" := JNull])];
    assert ["foo", "1", "a"][1..] == ["1", "a"] && ["1", "a"][1..] == ["a"];
    assert map["a" := JNull]["a" := JNumber(1)] == map["a" := JNumber(1)];
    assert Apply(items[1], Replace, ["a"], JNumber(1)) == Some(JObject(map["a" := JNumber(1)]));
    var after := [JNull, JObject(map["a" := JNumber(1)])];
    assert items[1 := JObject(map["a" := JNumber(1)])] == after;
    assert Apply(JArray(items), Replace, ["1", "a"], JNumber(1)) == Some(JArray(after));
    assert FooList(items).members["foo" := JArray(after)] == FooList(after).members;
  }

  /** Appendix A.12 and section 4.3: the parent has to be there, and what is replaced too. */
  lemma MissingTargets()
    ensures Apply(JObject(map["foo" := JString("bar")]), Add, ["baz", "bat"], JString("qux")) == None
    ensures Apply(JObject(map["foo" := JString("bar")]), Replace, ["baz"], JString("qux")) == None
    ensures Apply(FooList([JString("bar")]), Replace, ["foo", "1"], JNull) == None
    ensures Apply(FooList([JString("bar")]), Add, ["foo", "2"], JNull) == None
    ensures Apply(FooList([JString("bar")]), Replace, ["foo", "-"], JNull) == None
  {
    Indices();
    assert "2"[..0] == "" && Index("2") == Some(2);
    assert ["foo", "1"][1..] == ["1"] && ["foo", "2"][1..] == ["2"] && ["foo", "-"][1..] == ["-"];
  }
}
