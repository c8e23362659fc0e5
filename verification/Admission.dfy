/** What admission of one object means: which services and config maps are created and deleted,
    and what the admitted object looks like.  The store is one namespace of the cluster. */
module Admission {
  import opened Wrappers
  import opened Json
  import opened Patching
  import opened ConfigElements
  import A = Annotations

  // ----- objects

  datatype Kind = Pod | Deployment

  datatype Key = Key(kind: Kind, name: string)

  function Base(kind: Kind): seq<string> {
    if kind.Pod? then [] else ["spec", "template"]
  }

  function AppName(key: Key): string {
    key.name + (if key.kind.Pod? then "-pod" else "") + "-ibm-application-gateway-sidecar-pod"
  }

  /** The parts of an object that the webhook decodes; `None` annotations are a nil map. */
  datatype View = View(annots: Option<A.Annots>, meta: map<string, Json>, spec: map<string, Json>)

  function DecodeAnnots(meta: map<string, Json>): Option<Option<A.Annots>> {
    if "annotations" !in meta || meta["annotations"].JNull? then Some(None)
    else if meta["annotations"].JObject? && forall k | k in meta["annotations"].members ::
           meta["annotations"].members[k].JString?
    then Some(Some(map k | k in meta["annotations"].members :: meta["annotations"].members[k].s))
    else None
  }

  function Decode(kind: Kind, doc: Json): Option<View> {
    var (meta, spec) := (Member(doc, ["metadata"]), Member(doc, Base(kind) + ["spec"]));
    if meta.None? || !meta.value.JObject? || spec.None? || !spec.value.JObject? then None
    else
      var (m, s) := (meta.value.members, spec.value.members);
      if DecodeAnnots(m).None? || ListIn(s, "volumes").None? || ListIn(s, "containers").None? then None
      else Some(View(DecodeAnnots(m).value, m, s))
  }

  function AnnotsIn(v: View): A.Annots {
    if v.annots.Some? then v.annots.value else map[]
  }

  /** The document with its pod specification, and possibly its annotations, exchanged. */
  function Rewritten(kind: Kind, doc: Json, v: View, spec: map<string, Json>, annots: Option<A.Annots>): Json
    requires Decode(kind, doc) == Some(v)
  {
    var doc1 := WithMember(doc, Base(kind) + ["spec"], JObject(spec));
    if annots.None? then doc1
    else
      OtherMember(doc, Base(kind) + ["spec"], JObject(spec), ["metadata"]);
      WithMember(doc1, ["metadata"], JObject(v.meta["annotations" := AnnotsJson(annots.value)]))
  }

  lemma OtherMember(doc: Json, path: seq<string>, x: Json, other: seq<string>)
    requires Member(doc, path).Some? && path != [] && other != [] && path[0] != other[0]
    ensures Member(WithMember(doc, path, x), other) == Member(doc, other)
  {
  }

  lemma DecodedAgain(meta: map<string, Json>, annots: A.Annots)
    ensures DecodeAnnots(meta["annotations" := AnnotsJson(annots)]) == Some(Some(annots))
  {
    var m := AnnotsJson(annots).members;
    assert (map k | k in m :: m[k].s) == annots;
  }

  lemma DecodeRewritten(kind: Kind, doc: Json, v: View, spec: map<string, Json>, annots: Option<A.Annots>)
    requires Decode(kind, doc) == Some(v) && ListIn(spec, "volumes").Some? && ListIn(spec, "containers").Some?
    ensures var w := Decode(kind, Rewritten(kind, doc, v, spec, annots));
      w.Some? && w.value.spec == spec && w.value.annots == if annots.Some? then annots else v.annots
  {
    var path := Base(kind) + ["spec"];
    var doc1 := WithMember(doc, path, JObject(spec));
    MemberOfWithMember(doc, path, JObject(spec), []);
    assert path + [] == path;
    OtherMember(doc, path, JObject(spec), ["metadata"]);
    if annots.Some? {
      var meta := v.meta["annotations" := AnnotsJson(annots.value)];
      DecodedAgain(v.meta, annots.value);
      MemberOfWithMember(doc1, ["metadata"], JObject(meta), []);
      assert ["metadata"] + [] == ["metadata"];
      OtherMember(doc1, ["metadata"], JObject(meta), path);
    }
  }

  // ----- the store

  datatype Owner = Sidecar | Other

  datatype ConfigMap = ConfigMap(owner: Owner, data: string)

  /** `named` is false for an object whose name the API server generates after admission. */
  datatype Stored = Stored(doc: Json, named: bool)

  /** `system` says that the namespace is one of those the webhook ignores. */
  datatype Store = Store(
    system: bool,
    services: map<string, Owner>,
    configMaps: map<string, ConfigMap>,
    objects: map<Key, Stored>)

  /** What the cluster answers during one request: the names it generates (`None` is an API
      error), how the merge of the configuration ends, the order in which the environment
      annotations are visited, and whether the stored object can be read. */
  datatype Outcomes = Outcomes(
    service: Option<string>, configMap: Option<string>, merged: Result<string>, env: seq<EnvVar>, read: bool)

  /** Creating an object under a generated name fails if the API does, or if the name is taken. */
  function AddService(s: Store, given: Option<string>): Option<Store> {
    if given.None? || given.value == "" || given.value in s.services then None
    else Some(s.(services := s.services[given.value := Sidecar]))
  }

  function AddConfigMap(s: Store, given: Option<string>, data: string): Option<Store> {
    if given.None? || given.value == "" || given.value in s.configMaps then None
    else Some(s.(configMaps := s.configMaps[given.value := ConfigMap(Sidecar, data)]))
  }

  /** An empty name finds nothing. */
  function RemoveService(s: Store, name: string): Store {
    if name == "" then s else s.(services := s.services - {name})
  }

  function RemoveConfigMap(s: Store, name: string): Store {
    if name == "" then s else s.(configMaps := s.configMaps - {name})
  }

  // ----- whether to mutate

  predicate HasSidecarKey(a: A.Annots) {
    exists k | k in a :: A.HasPrefix(k, A.PREFIX)
  }

  predicate Important(k: string) {
    A.HasPrefix(k, A.ENV) || A.HasPrefix(k, A.CONF) || A.HasPrefix(k, A.PORT) || A.HasPrefix(k, A.IMAGE)
  }

  /** Pods do not support changes of the environment. */
  predicate Compared(kind: Kind, k: string) {
    A.HasPrefix(k, A.PREFIX) && !(kind.Pod? && A.HasPrefix(k, A.ENV))
  }

  function ChangedKeys(kind: Kind, before: A.Annots, after: A.Annots): set<string> {
    (set k | k in before && Compared(kind, k) && before[k] != Indexed(after, k)) +
    (set k | k in after && Compared(kind, k) && Indexed(before, k) == "")
  }

  predicate UpdateRequired(kind: Kind, before: A.Annots, after: A.Annots) {
    HasSidecarKey(after) || exists k | k in ChangedKeys(kind, before, after) :: Important(k)
  }

  datatype Flags = Flags(container: bool, config: bool, service: bool)

  function FlagsFor(changes: set<string>): Flags {
    Flags(
      exists k | k in changes :: !A.HasPrefix(k, A.CONF) && !A.HasPrefix(k, A.PORT)
                              && (A.HasPrefix(k, A.IMAGE) || A.HasPrefix(k, A.ENV)),
      exists k | k in changes :: A.HasPrefix(k, A.CONF),
      exists k | k in changes :: !A.HasPrefix(k, A.CONF) && A.HasPrefix(k, A.PORT))
  }

  ghost predicate ValidAnnots(a: A.Annots) {
    Indexed(a, A.IMAGE) != "" && Accepts(ConfigOf(a))
  }

  // ----- what create, update and delete do to the store

  datatype Names = Names(service: string, configMap: string)

  /** A failing create removes the service it made, unless it panics. */
  function CreateEffects(s: Store, a: A.Annots, o: Outcomes): (r: (Store, Option<Names>))
    ensures r.0.objects == s.objects && r.0.system == s.system
  {
    var port := Indexed(a, A.PORT) != "";
    var s1 := if port then AddService(s, o.service) else Some(s);
    if s1.None? then (s, None)
    else
      var sName := if port then o.service.value else "";
      var s2 := if !o.merged.Ok? then None else AddConfigMap(s1.value, o.configMap, o.merged.value);
      if o.merged.Panic? then (s1.value, None)
      else if s2.None? then (RemoveService(s1.value, sName), None)
      else (s2.value, Some(Names(sName, o.configMap.value)))
  }

  function ServiceEffects(s: Store, a: A.Annots, o: Outcomes): (r: (Store, Option<string>))
    ensures r.0.objects == s.objects && r.0.system == s.system
  {
    var port := Indexed(a, A.PORT) != "";
    var s1 := if port then AddService(s, o.service) else Some(s);
    if s1.None? then (s, None)
    else (RemoveService(s1.value, Indexed(a, A.SERVICE)), Some(if port then o.service.value else ""))
  }

  function ConfigEffects(s: Store, a: A.Annots, o: Outcomes): (r: (Store, Option<string>))
    ensures r.0.objects == s.objects && r.0.system == s.system
  {
    var s1 := if !o.merged.Ok? then None else AddConfigMap(s, o.configMap, o.merged.value);
    if s1.None? then (s, None)
    else (RemoveConfigMap(s1.value, Indexed(a, A.CONFIGMAP)), Some(o.configMap.value))
  }

  function UpdateEffects(s: Store, a: A.Annots, f: Flags, o: Outcomes): (r: (Store, Option<Names>))
    ensures r.0.objects == s.objects && r.0.system == s.system
  {
    var (s1, sName) := if f.service then ServiceEffects(s, a, o) else (s, Some(""));
    if sName.None? then (s1, None)
    else
      var (s2, cmName) := if f.config then ConfigEffects(s1, a, o) else (s1, Some(Indexed(a, A.CONFIGMAP)));
      (s2, if cmName.None? then None else Some(Names(sName.value, cmName.value)))
  }

  function CreatedDoc(key: Key, doc: Json, v: View, n: Names, env: seq<EnvVar>): Json
    requires Decode(key.kind, doc) == Some(v)
  {
    var spec := SpecAfter(v.spec, Volume(n.configMap), SidecarContainer(AppName(key), AnnotsIn(v), env), false, true);
    Rewritten(key.kind, doc, v, spec,
      Some(Annotated(AnnotsIn(v), map[A.SERVICE := n.service, A.CONFIGMAP := n.configMap])))
  }

  function NameChanges(f: Flags, n: Names): A.Annots {
    (if f.service then map[A.SERVICE := n.service] else map[])
      + (if f.config then map[A.CONFIGMAP := n.configMap] else map[])
  }

  function UpdatedAnnots(a: A.Annots, f: Flags, n: Names): A.Annots {
    Annotated(a, NameChanges(f, n))
  }

  function UpdatedDoc(key: Key, doc: Json, v: View, f: Flags, n: Names, env: seq<EnvVar>): Json
    requires Decode(key.kind, doc) == Some(v)
  {
    var spec := if f.container
      then SpecAfter(v.spec, Volume(n.configMap), SidecarContainer(AppName(key), AnnotsIn(v), env), true, f.config)
      else v.spec;
    Rewritten(key.kind, doc, v, spec, if f.service || f.config then Some(UpdatedAnnots(AnnotsIn(v), f, n)) else None)
  }

  // ----- requests

  datatype Request =
    | Create(key: Key, named: bool, doc: Json, o: Outcomes)
    | Update(key: Key, doc: Json, o: Outcomes)
    | Delete(key: Key)

  function Persist(s: Store, key: Key, doc: Json, named: bool): Store {
    s.(objects := s.objects[key := Stored(doc, named)])
  }

  /** The namespace is unchanged except perhaps for one object. */
  ghost predicate OnlyTouches(s: Store, s': Store, key: Key) {
    s'.system == s.system && s'.objects - {key} == s.objects - {key}
  }

  ghost function CreateView(s: Store, key: Key, named: bool, doc: Json, v: View, o: Outcomes): (r: (Store, bool))
    requires Decode(key.kind, doc) == Some(v)
    ensures OnlyTouches(s, r.0, key)
  {
    if !named || s.system || !HasSidecarKey(AnnotsIn(v)) then (Persist(s, key, doc, named), true)
    else if !ValidAnnots(AnnotsIn(v)) then (s, false)
    else
      var (s1, n) := CreateEffects(s, AnnotsIn(v), o);
      if n.None? then (s1, false)
      else (Persist(s1, key, CreatedDoc(key, doc, v, n.value, o.env), named), true)
  }

  /** A mutation whose annotations are valid. */
  ghost function MutatedView(s: Store, key: Key, doc: Json, v: View, f: Flags, o: Outcomes): (r: (Store, bool))
    requires Decode(key.kind, doc) == Some(v) && key in s.objects
    ensures OnlyTouches(s, r.0, key) && (!r.1 ==> r.0.objects == s.objects)
  {
    var (s1, n) := UpdateEffects(s, AnnotsIn(v), f, o);
    if n.None? then (s1, false)
    else (Persist(s1, key, UpdatedDoc(key, doc, v, f, n.value, o.env), s.objects[key].named), true)
  }

  /** An update whose stored object cannot be read is admitted as it is. */
  ghost function UpdateView(s: Store, key: Key, doc: Json, v: View, o: Outcomes): (r: (Store, bool))
    requires Decode(key.kind, doc) == Some(v) && key in s.objects
    ensures OnlyTouches(s, r.0, key) && (!r.1 ==> r.0.objects == s.objects)
  {
    var (before, named) := (StoredAnnots(key, s.objects[key]), s.objects[key].named);
    if s.system || !o.read || !UpdateRequired(key.kind, before, AnnotsIn(v)) then (Persist(s, key, doc, named), true)
    else if !ValidAnnots(AnnotsIn(v)) then (s, false)
    else MutatedView(s, key, doc, v, FlagsFor(ChangedKeys(key.kind, before, AnnotsIn(v))), o)
  }

  function DeleteObject(s: Store, key: Key): Store
    requires key in s.objects
  {
    var a := StoredAnnots(key, s.objects[key]);
    var s1 := if s.system || !HasSidecarKey(a) then s
              else RemoveConfigMap(RemoveService(s, Indexed(a, A.SERVICE)), Indexed(a, A.CONFIGMAP));
    s1.(objects := s1.objects - {key})
  }

  /** Admission of a request and, if it is admitted, its effect on the stored objects. */
  ghost function Admit(s: Store, r: Request): (Store, bool) {
    match r
    case Create(key, named, doc, o) =>
      var view := Decode(key.kind, doc);
      if view.None? then (s, false) else CreateView(s, key, named, doc, view.value, o)
    case Update(key, doc, o) =>
      var view := Decode(key.kind, doc);
      if view.None? || key !in s.objects then (s, false) else UpdateView(s, key, doc, view.value, o)
    case Delete(key) =>
      if key !in s.objects then (s, false) else (DeleteObject(s, key), true)
  }

  function StoredAnnots(key: Key, st: Stored): A.Annots {
    var v := Decode(key.kind, st.doc);
    if v.None? then map[] else AnnotsIn(v.value)
  }
}
