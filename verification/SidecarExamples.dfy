/** A sidecar as a user may create it, and three updates of it that go wrong. */
module SidecarExamples {
  import opened Wrappers
  import opened Text
  import opened Json
  import opened Sources
  import opened Patching
  import opened ConfigElements
  import opened Admission
  import opened SidecarLedger
  import opened SidecarSafety
  import A = Annotations

  const TYPE_KEY := A.CONF + "a.type"
  const ORDER_KEY := A.CONF + "a.order"

  /** One configuration source, a service port, and what the operator recorded. */
  function Annots(order: string, port: string, names: A.Annots): A.Annots {
    (map[TYPE_KEY := CONFIGMAP, ORDER_KEY := order, A.IMAGE := "iag:1", A.PORT := port]) + names
  }

  const RECORDED: A.Annots := map[A.SERVICE := "svc-1", A.CONFIGMAP := "cm-1"]

  lemma ConfigKeys()
    ensures TYPE_KEY != ORDER_KEY && A.HasPrefix(TYPE_KEY, A.CONF) && A.HasPrefix(ORDER_KEY, A.CONF)
    ensures A.HasPrefix(TYPE_KEY, A.PREFIX) && A.HasPrefix(ORDER_KEY, A.PREFIX)
    ensures !A.HasPrefix(ORDER_KEY, A.ENV) && !A.HasPrefix(TYPE_KEY, A.ENV)
  {
    assert TYPE_KEY[|A.CONF| + 2] == 't' && ORDER_KEY[|A.CONF| + 2] == 'o';
    assert TYPE_KEY == A.PREFIX + "configuration.a.type" && ORDER_KEY == A.PREFIX + "configuration.a.order";
    A.Apart("env.", "configuration.a.type", 0);
    A.Apart("env.", "configuration.a.order", 0);
  }

  lemma OtherKeys()
    ensures forall k :: k in {A.IMAGE, A.PORT, A.SERVICE, A.CONFIGMAP} ==> !A.HasPrefix(k, A.CONF)
    ensures A.IMAGE != A.PORT && {A.IMAGE, A.PORT} !! {A.SERVICE, A.CONFIGMAP}
  {
    A.OperatorKeys();
    A.ImageKey();
    A.PortKey();
  }

  lemma KeysApart()
    ensures TYPE_KEY != ORDER_KEY && A.HasPrefix(TYPE_KEY, A.CONF) && A.HasPrefix(ORDER_KEY, A.CONF)
    ensures A.HasPrefix(TYPE_KEY, A.PREFIX) && A.HasPrefix(ORDER_KEY, A.PREFIX)
    ensures !A.HasPrefix(ORDER_KEY, A.ENV) && !A.HasPrefix(TYPE_KEY, A.ENV)
    ensures {TYPE_KEY, ORDER_KEY} !! {A.IMAGE, A.PORT, A.SERVICE, A.CONFIGMAP}
    ensures A.IMAGE != A.PORT && {A.IMAGE, A.PORT} !! {A.SERVICE, A.CONFIGMAP}
  {
    ConfigKeys();
    OtherKeys();
  }

  lemma SplitKeys()
    ensures Split("a.type") == ["a", "type"] && Split("a.order") == ["a", "order"]
  {
    JoinTwo("a", "type");
    JoinTwo("a", "order");
    assert Tokens(["a", "type"]) && Tokens(["a", "order"]);
    SplitOfJoin(["a", "type"]);
    SplitOfJoin(["a", "order"]);
  }

  lemma OneSource(c: Config, order: string)
    requires c == map[["a", "type"] := CONFIGMAP, ["a", "order"] := order] && Atoi(order).Some?
    ensures Accepts(c)
  {
    var (t, o) := (["a", "type"], ["a", "order"]);
    assert t[0] == o[0] == "a" && t[1] != o[1];
    assert t in c && c[t] == CONFIGMAP && o in c && c[o] == order;
    assert Ids(c) == {"a"};
  }

  /** Two annotation keys that name the type and the order of a source "a". */
  ghost predicate NamesSource(typeKey: string, orderKey: string) {
    && typeKey != orderKey && A.HasPrefix(typeKey, A.CONF) && A.HasPrefix(orderKey, A.CONF)
    && Split(typeKey[|A.CONF|..]) == ["a", "type"] && Split(orderKey[|A.CONF|..]) == ["a", "order"]
  }

  lemma ExampleNames()
    ensures NamesSource(TYPE_KEY, ORDER_KEY)
  {
    SplitKeys();
    assert TYPE_KEY[|A.CONF|..] == "a.type" && ORDER_KEY[|A.CONF|..] == "a.order";
  }

  lemma ReadTwo(typeKey: string, orderKey: string, order: string)
    requires NamesSource(typeKey, orderKey)
    ensures ConfigOf(map[typeKey := CONFIGMAP][orderKey := order])
              == map[["a", "type"] := CONFIGMAP, ["a", "order"] := order]
  {
    var none: A.Annots := map[];
    var one := none[typeKey := CONFIGMAP];
    assert ConfigOf(none) == map[] && one == map[typeKey := CONFIGMAP];
    ConfigStep(none, typeKey, CONFIGMAP);
    ConfigStep(one, orderKey, order);
  }

  lemma OrdersAreNumbers()
    ensures Atoi("1") == Some(1) && Atoi("2") == Some(2)
  {
    assert Itoa(1) == "1" && Itoa(2) == "2";
    AtoiOfItoa(1);
    AtoiOfItoa(2);
  }

  /** Annotations with an image and this one source are valid, whatever else they hold. */
  lemma OneSourceIsValid(a: A.Annots, typeKey: string, orderKey: string, order: string)
    requires NamesSource(typeKey, orderKey) && Atoi(order).Some? && Indexed(a, A.IMAGE) != ""
    requires typeKey in a && a[typeKey] == CONFIGMAP && orderKey in a && a[orderKey] == order
    requires forall k :: k in a && A.HasPrefix(k, A.CONF) ==> k == typeKey || k == orderKey
    ensures ValidAnnots(a)
  {
    AcceptedTwo(typeKey, orderKey, order);
    Restricted(a, map[typeKey := CONFIGMAP][orderKey := order]);
  }

  lemma AcceptedTwo(typeKey: string, orderKey: string, order: string)
    requires NamesSource(typeKey, orderKey) && Atoi(order).Some?
    ensures Accepts(ConfigOf(map[typeKey := CONFIGMAP][orderKey := order]))
  {
    ReadTwo(typeKey, orderKey, order);
    OneSource(ConfigOf(map[typeKey := CONFIGMAP][orderKey := order]), order);
  }

  /** What the example annotations hold. */
  lemma AnnotsAt(order: string, port: string, names: A.Annots)
    requires names == map[] || names == RECORDED
    ensures var a := Annots(order, port, names);
      && Indexed(a, A.IMAGE) == "iag:1" && Indexed(a, A.PORT) == port
      && a.Keys == {TYPE_KEY, ORDER_KEY, A.IMAGE, A.PORT} + names.Keys
      && TYPE_KEY in a && a[TYPE_KEY] == CONFIGMAP && ORDER_KEY in a && a[ORDER_KEY] == order
      && Indexed(a, A.SERVICE) == Indexed(names, A.SERVICE) && Indexed(a, A.CONFIGMAP) == Indexed(names, A.CONFIGMAP)
  {
    KeysApart();
  }

  lemma OnlyTwoConfigKeys(order: string, port: string, names: A.Annots)
    requires names == map[] || names == RECORDED
    ensures forall k :: k in Annots(order, port, names) && A.HasPrefix(k, A.CONF) ==> k == TYPE_KEY || k == ORDER_KEY
  {
    A.OperatorKeys();
    A.ImageKey();
    A.PortKey();
  }

  lemma ValidExample(order: string, port: string, names: A.Annots)
    requires names == map[] || names == RECORDED
    requires order == "1" || order == "2"
    ensures ValidAnnots(Annots(order, port, names))
  {
    AnnotsAt(order, port, names);
    OnlyTwoConfigKeys(order, port, names);
    ExampleNames();
    OrdersAreNumbers();
    OneSourceIsValid(Annots(order, port, names), TYPE_KEY, ORDER_KEY, order);
  }

  lemma Restricted(a: A.Annots, b: A.Annots)
    requires forall k :: k in b ==> k in a && a[k] == b[k]
    requires forall k :: k in a && A.HasPrefix(k, A.CONF) ==> k in b
    ensures ConfigOf(a) == ConfigOf(b)
  {
    forall k | A.HasPrefix(k, A.CONF) ensures (k in a <==> k in b) && Indexed(a, k) == Indexed(b, k) {
    }
    SameConfig(a, b);
  }

  // ----- the sidecar

  const KEY := Key(Pod, "app")

  function Doc(a: A.Annots, volumes: seq<Json>): Json {
    JObject(map["metadata" := JObject(Meta(a)), "spec" := JObject(Spec(volumes))])
  }

  function Meta(a: A.Annots): map<string, Json> {
    map["annotations" := AnnotsJson(a)]
  }

  /** The application's own container and some volumes. */
  function Spec(volumes: seq<Json>): map<string, Json> {
    map["volumes" := JArray(volumes), "containers" := JArray([JObject(map["name" := JString("main")])])]
  }

  lemma DecodeDoc(a: A.Annots, volumes: seq<Json>)
    ensures Decode(Pod, Doc(a, volumes)) == Some(View(Some(a), Meta(a), Spec(volumes)))
  {
    var doc := Doc(a, volumes);
    var none: map<string, Json> := map[];
    assert Meta(a) == none["annotations" := AnnotsJson(a)];
    DecodedAgain(none, a);
    assert doc.members["metadata"] == JObject(Meta(a)) && doc.members["spec"] == JObject(Spec(volumes));
    assert Base(Pod) + ["spec"] == ["spec"] && ["metadata"][1..] == [] && ["spec"][1..] == [];
    assert Member(doc, ["metadata"]) == Some(JObject(Meta(a)));
    assert Member(doc, ["spec"]) == Some(JObject(Spec(volumes)));
    assert Spec(volumes)["volumes"] == JArray(volumes) && Spec(volumes)["containers"].JArray?;
  }

  const EMPTY := Store(false, map[], map[], map[])

  function Creation(): Request {
    Create(KEY, true, Doc(Annots("1", "30443", map[]), []), Outcomes(Some("svc-1"), Some("cm-1"), Ok("x"), [], true))
  }

  ghost function Created(): Store {
    Admit(EMPTY, Creation()).0
  }

  lemma CreationEffects(a: A.Annots)
    requires Indexed(a, A.PORT) != ""
    ensures CreateEffects(EMPTY, a, Creation().o)
         == (Store(false, map["svc-1" := Owner.Sidecar], map["cm-1" := ConfigMap(Owner.Sidecar, "x")], map[]),
           Some(Names("svc-1", "cm-1")))
  {
  }

  lemma RecordedInAnnots(order: string, port: string)
    ensures Annotated(Annots(order, port, map[]), map[A.SERVICE := "svc-1", A.CONFIGMAP := "cm-1"])
              == Annots(order, port, RECORDED)
  {
  }

  /** What is stored: the document with the volume, the container and both names. */
  function StoredDoc(): Json {
    var a := Annots("1", "30443", map[]);
    DecodeDoc(a, []);
    CreatedDoc(KEY, Doc(a, []), View(Some(a), Meta(a), Spec([])), Names("svc-1", "cm-1"), [])
  }

  /** The creation is admitted; the store is accounted for. */
  lemma CreationIsAdmitted()
    ensures Admit(EMPTY, Creation()).1 && Accounted(Created()) && KEY in Created().objects && !Created().system
    ensures Created().objects[KEY] == Stored(StoredDoc(), true)
    ensures StoredAnnots(KEY, Created().objects[KEY]) == Annots("1", "30443", RECORDED)
    ensures Created().services == map["svc-1" := Owner.Sidecar]
            && Created().configMaps == map["cm-1" := ConfigMap(Owner.Sidecar, "x")]
  {
    var (a, r) := (Annots("1", "30443", map[]), Creation());
    var v := View(Some(a), Meta(a), Spec([]));
    DecodeDoc(a, []);
    AnnotsAt("1", "30443", map[]);
    ValidExample("1", "30443", map[]);
    A.ImageKey();
    assert A.IMAGE in a && HasSidecarKey(a);
    CreationEffects(a);
    CreatedAnnots(KEY, r.doc, v, Names("svc-1", "cm-1"), []);
    RecordedInAnnots("1", "30443");
    UntouchedIsAccounted(EMPTY);
    CreateIsAccounted(EMPTY, r);
  }

  lemma SameBut(order: string, port: string)
    ensures var (before, after) := (Annots("1", "30443", RECORDED), Annots(order, port, RECORDED));
      before.Keys == after.Keys && forall k :: k in before && before[k] != after[k] ==> k == ORDER_KEY || k == A.PORT
  {
    AnnotsAt("1", "30443", RECORDED);
    AnnotsAt(order, port, RECORDED);
  }

  lemma ChangedExample(port: string)
    requires port != ""
    ensures var changed := ChangedKeys(Pod, Annots("1", "30443", RECORDED), Annots("2", port, RECORDED));
      changed == {ORDER_KEY} + if port == "30443" then {} else {A.PORT}
  {
    var (before, after) := (Annots("1", "30443", RECORDED), Annots("2", port, RECORDED));
    SameBut("2", port);
    NothingEmpty();
    KeysApart();
    AnnotsAt("1", "30443", RECORDED);
    AnnotsAt("2", port, RECORDED);
    A.PortKey();
    assert "1"[0] != "2"[0];
  }

  lemma NothingEmpty()
    ensures var before := Annots("1", "30443", RECORDED); forall k :: k in before ==> before[k] != ""
  {
    AnnotsAt("1", "30443", RECORDED);
    assert CONFIGMAP[0] == 'c' && "iag:1"[0] == 'i' && "30443"[0] == '3' && "1"[0] == '1' && "svc-1"[0] == 's'
           && "cm-1"[0] == 'c';
  }

  lemma FlagsExample(port: string)
    requires port != ""
    ensures FlagsFor(ChangedKeys(Pod, Annots("1", "30443", RECORDED), Annots("2", port, RECORDED)))
              == Flags(false, true, port != "30443")
  {
    ChangedExample(port);
    FlagsOfKeys(port != "30443");
  }

  lemma FlagsOfKeys(withPort: bool)
    ensures FlagsFor({ORDER_KEY} + if withPort then {A.PORT} else {}) == Flags(false, true, withPort)
  {
    KeysApart();
    A.PortKey();
    var changed := {ORDER_KEY} + if withPort then {A.PORT} else {};
    assert ORDER_KEY in changed && (withPort ==> A.PORT in changed);
  }

  /** The stored sidecar, and an update of its order and perhaps its port. */
  ghost predicate UpdateOf(s: Store, key: Key, doc: Json, v: View, f: Flags) {
    && !s.system && key in s.objects && Decode(key.kind, doc) == Some(v)
    && var (before, a) := (StoredAnnots(key, s.objects[key]), AnnotsIn(v));
    && NamesIn(a) == NamesIn(before) == Names("svc-1", "cm-1")
    && UpdateRequired(key.kind, before, a) && ValidAnnots(a) && FlagsFor(ChangedKeys(key.kind, before, a)) == f
  }

  lemma StoredView()
    ensures var w := Decode(Pod, StoredDoc());
      && w.Some? && SidecarVolume(w.value) == Some("cm-1") && AnnotsIn(w.value) == Annots("1", "30443", RECORDED)
  {
    var a := Annots("1", "30443", map[]);
    var v := View(Some(a), Meta(a), Spec([]));
    DecodeDoc(a, []);
    CreatedAnnots(KEY, Doc(a, []), v, Names("svc-1", "cm-1"), []);
    RecordedInAnnots("1", "30443");
    AnnotsAt("1", "30443", RECORDED);
    assert ListIn(Spec([]), "volumes") == Some([]);
    CreateAgreesIff(KEY, Doc(a, []), v, Names("svc-1", "cm-1"), []);
  }

  /** The stored document with other annotations and nothing else changed. */
  ghost function Edited(a: A.Annots): Json {
    StoredView();
    var v := Decode(Pod, StoredDoc()).value;
    Rewritten(Pod, StoredDoc(), v, v.spec, Some(a))
  }

  lemma EditedView(a: A.Annots)
    ensures var w := Decode(Pod, Edited(a));
      w.Some? && SidecarVolume(w.value) == Some("cm-1") && AnnotsIn(w.value) == a
  {
    StoredView();
    var v := Decode(Pod, StoredDoc()).value;
    DecodeRewritten(Pod, StoredDoc(), v, v.spec, Some(a));
  }

  lemma ExampleUpdate(port: string)
    requires port != ""
    ensures var (doc, a) := (Edited(Annots("2", port, RECORDED)), Annots("2", port, RECORDED));
      var w := Decode(Pod, doc);
      && w.Some? && SidecarVolume(w.value) == Some("cm-1") && AnnotsIn(w.value) == a && Indexed(a, A.PORT) == port
      && UpdateOf(Created(), KEY, doc, w.value, Flags(false, true, port != "30443"))
  {
    CreationIsAdmitted();
    EditedView(Annots("2", port, RECORDED));
    ExampleAnnots(port);
  }

  lemma ExampleAnnots(port: string)
    requires port != ""
    ensures var (before, a) := (Annots("1", "30443", RECORDED), Annots("2", port, RECORDED));
      && NamesIn(a) == NamesIn(before) == Names("svc-1", "cm-1") && Indexed(a, A.PORT) == port
      && UpdateRequired(Pod, before, a) && ValidAnnots(a)
      && FlagsFor(ChangedKeys(Pod, before, a)) == Flags(false, true, port != "30443")
  {
    AnnotsAt("1", "30443", RECORDED);
    AnnotsAt("2", port, RECORDED);
    ValidExample("2", port, RECORDED);
    FlagsExample(port);
    ImageIsGuarded(Pod, Annots("1", "30443", RECORDED), Annots("2", port, RECORDED));
  }

  // ----- three updates of it

  /** Port and order change; the new service is made, the merge fails. */
  ghost function LosingUpdate(): Request {
    Update(KEY, Edited(Annots("2", "30444", RECORDED)), Outcomes(Some("svc-2"), None, Error, [], true))
  }

  /** It is rejected, but the service the object names is gone and another one has come. */
  lemma UpdateLosesItsService()
    ensures Fair(Created(), LosingUpdate()) && UpdateLosesService(Created(), LosingUpdate())
    ensures var (s, ok) := Admit(Created(), LosingUpdate());
      !ok && !Accounted(s) && s.objects == Created().objects && s.services == map["svc-2" := Owner.Sidecar]
  {
    CreationIsAdmitted();
    assert "30444"[4] != "30443"[4];
    ExampleUpdate("30444");
    LosesIt(Created(), LosingUpdate(), Decode(Pod, LosingUpdate().doc).value);
  }

  lemma LosesIt(s: Store, r: Request, v: View)
    requires r.Update? && UpdateOf(s, r.key, r.doc, v, Flags(false, true, true)) && Indexed(AnnotsIn(v), A.PORT) != ""
    requires Accounted(s) && s.services == map["svc-1" := Owner.Sidecar]
    requires r.o.service == Some("svc-2") && r.o.merged.Error? && r.o.read
    ensures Fair(s, r) && UpdateLosesService(s, r)
    ensures var (s', ok) := Admit(s, r);
      !ok && !Accounted(s') && s'.objects == s.objects && s'.services == map["svc-2" := Owner.Sidecar]
  {
    ServiceExchanged(s, AnnotsIn(v), r.o);
    UpdateIsAccounted(s, r);
  }

  lemma ServiceExchanged(s: Store, a: A.Annots, o: Outcomes)
    requires s.services == map["svc-1" := Owner.Sidecar] && Indexed(a, A.PORT) != "" && Indexed(a, A.SERVICE) == "svc-1"
    requires o.service == Some("svc-2") && o.merged.Error?
    ensures UpdateEffects(s, a, Flags(false, true, true), o) == (s.(services := map["svc-2" := Owner.Sidecar]), None)
    ensures LostByUpdate(s, a, Flags(false, true, true), o)
  {
    assert "svc-1"[4] != "svc-2"[4];
    assert s.services["svc-2" := Owner.Sidecar] - {"svc-1"} == map["svc-2" := Owner.Sidecar];
  }

  /** Only the order changes: a new config map is made and recorded, and the old one deleted. */
  ghost function ConfigUpdate(): Request {
    Update(KEY, Edited(Annots("2", "30443", RECORDED)), Outcomes(None, Some("cm-2"), Ok("y"), [], true))
  }

  /** What an object mounts and what it records. */
  ghost predicate MountsAndRecords(s: Store, key: Key, mounted: string, recorded: string) {
    && key in s.objects
    && var v := Decode(key.kind, s.objects[key].doc);
    v.Some? && SidecarVolume(v.value) == Some(mounted) && Indexed(AnnotsIn(v.value), A.CONFIGMAP) == recorded
  }

  /** It is admitted, but the object still mounts the config map that is gone. */
  lemma ConfigUpdateUnmounts()
    ensures Fair(Created(), ConfigUpdate())
    ensures var (s, ok) := Admit(Created(), ConfigUpdate());
      ok && s.configMaps.Keys == {"cm-2"} && MountsAndRecords(s, KEY, "cm-1", "cm-2")
  {
    CreationIsAdmitted();
    ExampleUpdate("30443");
    var v := Decode(Pod, ConfigUpdate().doc).value;
    Unmounts(Created(), ConfigUpdate(), v);
    MountedElsewhere(Created(), ConfigUpdate(), v);
  }

  lemma MountedElsewhere(s: Store, r: Request, v: View)
    requires r.Update? && r.key in s.objects && Decode(r.key.kind, r.doc) == Some(v) && SidecarVolume(v) == Some("cm-1")
    requires Admit(s, r) == (Persist(s.(configMaps := map["cm-2" := ConfigMap(Owner.Sidecar, "y")]), r.key,
      UpdatedDoc(r.key, r.doc, v, Flags(false, true, false), Names("", "cm-2"), r.o.env), s.objects[r.key].named), true)
    ensures Admit(s, r).0.configMaps.Keys == {"cm-2"} && MountsAndRecords(Admit(s, r).0, r.key, "cm-1", "cm-2")
  {
    var s1 := s.(configMaps := map["cm-2" := ConfigMap(Owner.Sidecar, "y")]);
    StillMounted(s1, r.key, r.doc, v, Names("", "cm-2"), s.objects[r.key].named, r.o.env);
  }

  lemma Unmounts(s: Store, r: Request, v: View)
    requires r.Update? && UpdateOf(s, r.key, r.doc, v, Flags(false, true, false))
    requires s.configMaps == map["cm-1" := ConfigMap(Owner.Sidecar, "x")]
    requires r.o.configMap == Some("cm-2") && r.o.merged == Ok("y") && r.o.read
    ensures Fair(s, r)
    ensures Admit(s, r) == (Persist(s.(configMaps := map["cm-2" := ConfigMap(Owner.Sidecar, "y")]), r.key,
      UpdatedDoc(r.key, r.doc, v, Flags(false, true, false), Names("", "cm-2"), r.o.env), s.objects[r.key].named), true)
  {
    ConfigMapExchanged(s, AnnotsIn(v), r.o);
    AdmittedAs(s, r, v, Flags(false, true, false), Names("", "cm-2"));
  }

  lemma StillMounted(s: Store, key: Key, doc: Json, v: View, n: Names, named: bool, env: seq<EnvVar>)
    requires Decode(key.kind, doc) == Some(v) && SidecarVolume(v) == Some("cm-1") && n.configMap == "cm-2"
    ensures MountsAndRecords(Persist(s, key, UpdatedDoc(key, doc, v, Flags(false, true, false), n, env), named),
                              key, "cm-1", "cm-2")
  {
    UpdatedReferences(key, doc, v, Flags(false, true, false), n, env);
  }

  lemma AdmittedAs(s: Store, r: Request, v: View, f: Flags, n: Names)
    requires r.Update? && UpdateOf(s, r.key, r.doc, v, f) && r.o.read
             && UpdateEffects(s, AnnotsIn(v), f, r.o).1 == Some(n)
    ensures Fair(s, r)
    ensures Admit(s, r) == (Persist(UpdateEffects(s, AnnotsIn(v), f, r.o).0, r.key,
                                    UpdatedDoc(r.key, r.doc, v, f, n, r.o.env),
      s.objects[r.key].named), true)
  {
  }

  lemma MountsOne(cmName: string)
    ensures VolumeIn(Spec([Volume(cmName)])) == Some(cmName)
  {
    VolumeRefers(cmName);
    FirstIs([Volume(cmName)], VOLUME_NAME, 0);
    assert ListIn(Spec([Volume(cmName)]), "volumes") == Some([Volume(cmName)]);
  }

  lemma ConfigMapExchanged(s: Store, a: A.Annots, o: Outcomes)
    requires s.configMaps == map["cm-1" := ConfigMap(Owner.Sidecar, "x")] && Indexed(a, A.CONFIGMAP) == "cm-1"
    requires o.configMap == Some("cm-2") && o.merged == Ok("y")
    ensures UpdateEffects(s, a, Flags(false, true, false), o)
         == (s.(configMaps := map["cm-2" := ConfigMap(Owner.Sidecar, "y")]), Some(Names("", "cm-2")))
  {
    assert "cm-1"[3] != "cm-2"[3];
    var (x, y) := (ConfigMap(Owner.Sidecar, "x"), ConfigMap(Owner.Sidecar, "y"));
    assert s.configMaps["cm-2" := y] - {"cm-1"} == map["cm-2" := y];
  }

  /** An object that brings a volume of the sidecar's name goes on mounting what that refers to. */
  lemma ForeignVolumeStays()
    ensures var a := Annots("1", "30443", map[]);
      var (doc, v) := (Doc(a, [Volume("mine")]), View(Some(a), Meta(a), Spec([Volume("mine")])));
      && Decode(Pod, doc) == Some(v) && ValidAnnots(a)
      && var after := Decode(Pod, CreatedDoc(KEY, doc, v, Names("svc-1", "cm-1"), []));
      after.Some? && !Agrees(after.value)
  {
    var a := Annots("1", "30443", map[]);
    DecodeDoc(a, [Volume("mine")]);
    ValidExample("1", "30443", map[]);
    MountsOne("mine");
    assert "mine"[0] != "cm-1"[0];
    CreateAgreesIff(KEY, Doc(a, [Volume("mine")]), View(Some(a), Meta(a), Spec([Volume("mine")])),
      Names("svc-1", "cm-1"), []);
  }

  /** Everything but the recorded names is taken away, while the stored object cannot be read. */
  ghost function UncheckedUpdate(): Request {
    Update(KEY, Edited(RECORDED), Outcomes(None, None, Error, [], false))
  }

  /** It is admitted, and leaves a sidecar without an image. */
  lemma UncheckedUpdateLosesImage()
    ensures Fair(Created(), UncheckedUpdate()) && Unchecked(UncheckedUpdate(), KEY)
    ensures ValidSidecar(Created(), KEY) && Admit(Created(), UncheckedUpdate()).1
            && !ValidSidecar(Admit(Created(), UncheckedUpdate()).0, KEY)
  {
    CreationIsAdmitted();
    EditedView(RECORDED);
    AnnotsAt("1", "30443", RECORDED);
    ValidExample("1", "30443", RECORDED);
    NoImage();
    LosesImage(Created(), UncheckedUpdate(), Decode(Pod, UncheckedUpdate().doc).value);
  }

  lemma NoImage()
    ensures Indexed(RECORDED, A.IMAGE) == ""
  {
    A.ImageKey();
  }

  lemma LosesImage(s: Store, r: Request, v: View)
    requires r.Update? && ValidSidecar(s, r.key) && Decode(r.key.kind, r.doc) == Some(v) && !r.o.read
    requires Indexed(AnnotsIn(v), A.IMAGE) == ""
             && NamesIn(AnnotsIn(v)) == NamesIn(StoredAnnots(r.key, s.objects[r.key]))
    ensures Fair(s, r) && Unchecked(r, r.key) && Admit(s, r).1 && !ValidSidecar(Admit(s, r).0, r.key)
  {
    StepStaysValid(s, r, r.key);
  }
}
