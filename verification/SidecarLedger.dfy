/** Whole runs of the webhook: every sidecar service and config map belongs to exactly one live
    object, and an object that is a sidecar stays a valid one. */
module SidecarLedger {
  import opened Wrappers
  import opened Json
  import opened Patching
  import opened Admission
  import A = Annotations

  // ----- who owns what

  function NamesIn(a: A.Annots): Names {
    Names(Indexed(a, A.SERVICE), Indexed(a, A.CONFIGMAP))
  }

  function Owned(s: Store): map<Key, Names> {
    map k | k in s.objects :: NamesIn(StoredAnnots(k, s.objects[k]))
  }

  function SidecarServices(s: Store): set<string> {
    set n | n in s.services && s.services[n].Sidecar?
  }

  function SidecarConfigMaps(s: Store): set<string> {
    set n | n in s.configMaps && s.configMaps[n].owner.Sidecar?
  }

  /** `names` are all live and all different, and cover everything that is live; "" is no name. */
  ghost predicate Balanced(live: set<string>, names: map<Key, string>) {
    && "" !in live
    && (forall k :: k in names && names[k] != "" ==> names[k] in live)
    && (forall k, j :: k in names && j in names && k != j && names[k] != "" ==> names[k] != names[j])
    && (forall n :: n in live ==> exists k :: k in names && names[k] == n)
  }

  lemma Acquire(live: set<string>, names: map<Key, string>, k: Key, n: string)
    requires Balanced(live, names) && (k in names ==> names[k] == "") && n !in live && n != ""
    ensures Balanced(live + {n}, names[k := n])
  {
    var after := names[k := n];
    forall m | m in live + {n} ensures exists j :: j in after && after[j] == m {
      if m in live {
        var j :| j in names && names[j] == m;
        assert after[j] == m;
      } else {
        assert after[k] == n;
      }
    }
  }

  lemma Release(live: set<string>, names: map<Key, string>, k: Key)
    requires Balanced(live, names) && k in names
    ensures Balanced(live - {names[k]}, names[k := ""])
    ensures Balanced(live - {names[k]}, names - {k})
  {
    var (after, without) := (names[k := ""], names - {k});
    forall m | m in live - {names[k]}
      ensures exists j :: j in after && after[j] == m
      ensures exists j :: j in without && without[j] == m
    {
      var j :| j in names && names[j] == m;
      assert j in without && after[j] == m && without[j] == m;
    }
  }

  lemma Ignore(live: set<string>, names: map<Key, string>, k: Key)
    requires Balanced(live, names) && k !in names
    ensures Balanced(live, names[k := ""])
  {
    var after := names[k := ""];
    forall m | m in live ensures exists j :: j in after && after[j] == m {
      var j :| j in names && names[j] == m;
      assert after[j] == m;
    }
  }

  function Services(owned: map<Key, Names>): map<Key, string> {
    map k | k in owned :: owned[k].service
  }

  function ConfigMaps(owned: map<Key, Names>): map<Key, string> {
    map k | k in owned :: owned[k].configMap
  }

  ghost predicate AllDecode(s: Store) {
    forall k :: k in s.objects ==> Decode(k.kind, s.objects[k].doc).Some?
  }

  /** Every stored object decodes, and its two operator annotations name live sidecar resources of
      its own; no other sidecar resource exists; an ignored namespace has none at all. */
  ghost predicate Accounted(s: Store) {
    && AllDecode(s) && (s.system ==> forall k :: k in Owned(s) ==> Owned(s)[k] == Names("", ""))
    && Balanced(SidecarServices(s), Services(Owned(s)))
    && Balanced(SidecarConfigMaps(s), ConfigMaps(Owned(s)))
  }

  /** An object that was created as a sidecar is one that the webhook would accept, and has a
      config map. */
  ghost predicate CompleteObject(system: bool, key: Key, st: Stored) {
    var a := StoredAnnots(key, st);
    st.named && !system && HasSidecarKey(a) ==> ValidAnnots(a) && Indexed(a, A.CONFIGMAP) != ""
  }

  ghost predicate Complete(s: Store) {
    forall k :: k in s.objects ==> CompleteObject(s.system, k, s.objects[k])
  }

  /** What the users of the cluster are assumed to do: they leave the operator's two annotations
      alone (on a create that the webhook mutates even that is not needed), and a name is created
      once.  The API server only persists what it can store, and lists the environment somehow. */
  ghost predicate Fair(s: Store, r: Request) {
    match r
    case Create(key, named, doc, o) =>
      && key !in s.objects
      && (forall v :: Decode(key.kind, doc) == Some(v) ==>
            (!named || s.system || !HasSidecarKey(AnnotsIn(v)) ==> NamesIn(AnnotsIn(v)) == Names("", "")))
    case Update(key, doc, o) =>
      key in s.objects ==>
        forall v :: Decode(key.kind, doc) == Some(v) ==>
          NamesIn(AnnotsIn(v)) == NamesIn(StoredAnnots(key, s.objects[key]))
    case Delete(key) => true
  }

  // ----- the annotations of admitted objects

  lemma AnnotatedNames(a: A.Annots, n: Names)
    requires n.configMap != ""
    ensures NamesIn(Annotated(a, map[A.SERVICE := n.service, A.CONFIGMAP := n.configMap])) == n
  {
  }

  lemma UpdatedNames(a: A.Annots, f: Flags, n: Names)
    requires f.config ==> n.configMap != ""
    ensures NamesIn(UpdatedAnnots(a, f, n)) ==
      Names(if f.service then n.service else Indexed(a, A.SERVICE),
            if f.config then n.configMap else Indexed(a, A.CONFIGMAP))
  {
  }

  lemma SpecAfterDecodes(spec: map<string, Json>, volume: Json, container: Json, update: bool, configChanged: bool)
    requires ListIn(spec, "volumes").Some? && ListIn(spec, "containers").Some?
    ensures var after := SpecAfter(spec, volume, container, update, configChanged);
      ListIn(after, "volumes").Some? && ListIn(after, "containers").Some?
  {
  }

  lemma CreatedAnnots(key: Key, doc: Json, v: View, n: Names, env: seq<EnvVar>)
    requires Decode(key.kind, doc) == Some(v)
    ensures var w := Decode(key.kind, CreatedDoc(key, doc, v, n, env));
      w.Some? && AnnotsIn(w.value) == Annotated(AnnotsIn(v), map[A.SERVICE := n.service, A.CONFIGMAP := n.configMap])
  {
    var (volume, container) := (Volume(n.configMap), SidecarContainer(AppName(key), AnnotsIn(v), env));
    SpecAfterDecodes(v.spec, volume, container, false, true);
    DecodeRewritten(key.kind, doc, v, SpecAfter(v.spec, volume, container, false, true),
      Some(Annotated(AnnotsIn(v), map[A.SERVICE := n.service, A.CONFIGMAP := n.configMap])));
  }

  lemma UpdatedDocAnnots(key: Key, doc: Json, v: View, f: Flags, n: Names, env: seq<EnvVar>)
    requires Decode(key.kind, doc) == Some(v)
    ensures var w := Decode(key.kind, UpdatedDoc(key, doc, v, f, n, env));
      w.Some? && AnnotsIn(w.value) == if f.service || f.config then UpdatedAnnots(AnnotsIn(v), f, n) else AnnotsIn(v)
  {
    var (volume, container) := (Volume(n.configMap), SidecarContainer(AppName(key), AnnotsIn(v), env));
    SpecAfterDecodes(v.spec, volume, container, true, f.config);
    var spec := if f.container then SpecAfter(v.spec, volume, container, true, f.config) else v.spec;
    DecodeRewritten(key.kind, doc, v, spec,
      if f.service || f.config then Some(UpdatedAnnots(AnnotsIn(v), f, n)) else None);
  }

  // ----- one request

  lemma NoKeyNoNames(a: A.Annots)
    requires !HasSidecarKey(a)
    ensures NamesIn(a) == Names("", "")
  {
  }

  lemma PersistedNames(s: Store, key: Key, doc: Json, named: bool, a: A.Annots)
    requires Decode(key.kind, doc).Some? && a == AnnotsIn(Decode(key.kind, doc).value)
    ensures Owned(Persist(s, key, doc, named)) == Owned(s)[key := NamesIn(a)]
    ensures AllDecode(s) ==> AllDecode(Persist(s, key, doc, named))
  {
  }

  lemma SplitNames(owned: map<Key, Names>, key: Key, n: Names)
    ensures Services(owned[key := n]) == Services(owned)[key := n.service]
    ensures ConfigMaps(owned[key := n]) == ConfigMaps(owned)[key := n.configMap]
    ensures Services(owned - {key}) == Services(owned) - {key}
    ensures ConfigMaps(owned - {key}) == ConfigMaps(owned) - {key}
  {
  }

  lemma Persisted(s: Store, key: Key, doc: Json, named: bool, a: A.Annots)
    requires Decode(key.kind, doc).Some? && a == AnnotsIn(Decode(key.kind, doc).value)
    requires AllDecode(s)
    requires s.system ==> NamesIn(a) == Names("", "") && forall k :: k in Owned(s) ==> Owned(s)[k] == Names("", "")
    requires Balanced(SidecarServices(s), Services(Owned(s))[key := Indexed(a, A.SERVICE)])
    requires Balanced(SidecarConfigMaps(s), ConfigMaps(Owned(s))[key := Indexed(a, A.CONFIGMAP)])
    ensures Accounted(Persist(s, key, doc, named))
  {
    PersistedNames(s, key, doc, named, a);
    SplitNames(Owned(s), key, NamesIn(a));
  }

  lemma ServiceSets(s: Store, given: Option<string>, name: string)
    ensures AddService(s, given).Some? ==>
      given.value !in SidecarServices(s) && SidecarServices(AddService(s, given).value)
        == SidecarServices(s) + {given.value}
    ensures "" !in SidecarServices(s) ==> SidecarServices(RemoveService(s, name)) == SidecarServices(s) - {name}
  {
  }

  lemma ConfigMapSets(s: Store, given: Option<string>, data: string, name: string)
    ensures AddConfigMap(s, given, data).Some? ==>
      given.value !in SidecarConfigMaps(s) && SidecarConfigMaps(AddConfigMap(s, given, data).value)
        == SidecarConfigMaps(s) + {given.value}
    ensures "" !in SidecarConfigMaps(s) ==> SidecarConfigMaps(RemoveConfigMap(s, name)) == SidecarConfigMaps(s) - {name}
  {
  }

  /** The update of the service hands the object a new one and takes its old one away. */
  lemma ServiceHandedOver(s: Store, names: map<Key, string>, key: Key, a: A.Annots, o: Outcomes)
    requires Balanced(SidecarServices(s), names) && key in names && Indexed(a, A.SERVICE) == names[key]
    ensures var (s1, n) := ServiceEffects(s, a, o);
      && s1 == s.(services := s1.services)
      && (n.None? ==> s1 == s)
      && (n.Some? ==> Balanced(SidecarServices(s1), names[key := n.value]))
  {
    var (live, mine) := (SidecarServices(s), Indexed(a, A.SERVICE));
    var (s1, n) := ServiceEffects(s, a, o);
    if n.Some? {
      Release(live, names, key);
      if Indexed(a, A.PORT) != "" {
        ServiceSets(s, o.service, "");
        ServiceSets(AddService(s, o.service).value, None, mine);
        Acquire(live - {mine}, names[key := ""], key, n.value);
        assert (live + {n.value}) - {mine} == (live - {mine}) + {n.value};
        assert names[key := ""][key := n.value] == names[key := n.value];
      } else {
        ServiceSets(s, None, mine);
      }
    }
  }

  lemma ConfigHandedOver(s: Store, names: map<Key, string>, key: Key, a: A.Annots, o: Outcomes)
    requires Balanced(SidecarConfigMaps(s), names) && key in names && Indexed(a, A.CONFIGMAP) == names[key]
    ensures var (s1, n) := ConfigEffects(s, a, o);
      && s1 == s.(configMaps := s1.configMaps)
      && (n.None? ==> s1 == s)
      && (n.Some? ==> n.value != "" && Balanced(SidecarConfigMaps(s1), names[key := n.value]))
  {
    var (live, mine) := (SidecarConfigMaps(s), Indexed(a, A.CONFIGMAP));
    var (s1, n) := ConfigEffects(s, a, o);
    if n.Some? {
      Release(live, names, key);
      ConfigMapSets(s, o.configMap, o.merged.value, "");
      ConfigMapSets(AddConfigMap(s, o.configMap, o.merged.value).value, None, "", mine);
      Acquire(live - {mine}, names[key := ""], key, n.value);
      assert (live + {n.value}) - {mine} == (live - {mine}) + {n.value};
      assert names[key := ""][key := n.value] == names[key := n.value];
    }
  }

  /** A create whose merge panics after its service step. */
  predicate LeavesService(s: Store, a: A.Annots, o: Outcomes) {
    Indexed(a, A.PORT) != "" && AddService(s, o.service).Some? && o.merged.Panic?
  }

  /** Any other create that fails undoes what it did; one that succeeds takes one or two new
      names. */
  lemma CreateTakesNames(s: Store, services: map<Key, string>, configMaps: map<Key, string>, a: A.Annots, key: Key,
      o: Outcomes)
    requires Balanced(SidecarServices(s), services) && Balanced(SidecarConfigMaps(s), configMaps)
    requires key !in services && key !in configMaps
    ensures var (s1, n) := CreateEffects(s, a, o);
      && s1 == s.(services := s1.services, configMaps := s1.configMaps)
      && (n.None? ==> s1 == if LeavesService(s, a, o) then AddService(s, o.service).value else s)
      && (n.Some? ==>
            && n.value.configMap != ""
            && Balanced(SidecarServices(s1), services[key := n.value.service])
            && Balanced(SidecarConfigMaps(s1), configMaps[key := n.value.configMap]))
  {
    var (s1, n) := CreateEffects(s, a, o);
    var port := Indexed(a, A.PORT) != "";
    if n.None? {
      if port && AddService(s, o.service).Some? && !o.merged.Panic? {
        var added := AddService(s, o.service).value;
        assert added.services - {o.service.value} == s.services;
      }
    } else {
      var s0 := if port then AddService(s, o.service).value else s;
      ConfigMapSets(s0, o.configMap, o.merged.value, "");
      assert SidecarConfigMaps(s0) == SidecarConfigMaps(s) && SidecarServices(s1) == SidecarServices(s0);
      Acquire(SidecarConfigMaps(s), configMaps, key, n.value.configMap);
      if port {
        ServiceSets(s, o.service, "");
        Acquire(SidecarServices(s), services, key, n.value.service);
      } else {
        Ignore(SidecarServices(s), services, key);
      }
    }
  }

  /** Nobody names the service that is left. */
  lemma ServiceLeft(s: Store, names: map<Key, string>, given: Option<string>)
    requires Balanced(SidecarServices(s), names) && AddService(s, given).Some?
    ensures !Balanced(SidecarServices(AddService(s, given).value), names)
  {
    ServiceSets(s, given, "");
    assert given.value in SidecarServices(AddService(s, given).value);
  }

  ghost predicate CreateLosesService(s: Store, r: Request)
    requires r.Create?
  {
    && Decode(r.key.kind, r.doc).Some? && r.named && !s.system
    && var a := AnnotsIn(Decode(r.key.kind, r.doc).value);
    && HasSidecarKey(a) && ValidAnnots(a) && LeavesService(s, a, r.o)
  }

  /** A create that is left alone. */
  lemma PlainCreateIsAccounted(s: Store, key: Key, named: bool, doc: Json, v: View)
    requires Decode(key.kind, doc) == Some(v) && Accounted(s) && key !in s.objects
    requires NamesIn(AnnotsIn(v)) == Names("", "")
    ensures Accounted(Persist(s, key, doc, named))
  {
    Ignore(SidecarServices(s), Services(Owned(s)), key);
    Ignore(SidecarConfigMaps(s), ConfigMaps(Owned(s)), key);
    Persisted(s, key, doc, named, AnnotsIn(v));
  }

  /** A create with valid annotations. */
  lemma MutatedCreateIsAccounted(s: Store, key: Key, doc: Json, v: View, o: Outcomes)
    requires Decode(key.kind, doc) == Some(v) && Accounted(s) && key !in s.objects && !s.system
    ensures var (s1, n) := CreateEffects(s, AnnotsIn(v), o);
      && (n.Some? ==> Accounted(Persist(s1, key, CreatedDoc(key, doc, v, n.value, o.env), true))
                      && !LeavesService(s, AnnotsIn(v), o))
      && (n.None? ==> (Accounted(s1) <==> !LeavesService(s, AnnotsIn(v), o)))
  {
    var (a, services, configMaps) := (AnnotsIn(v), Services(Owned(s)), ConfigMaps(Owned(s)));
    CreateTakesNames(s, services, configMaps, a, key, o);
    var (s1, n) := CreateEffects(s, a, o);
    assert Owned(s1) == Owned(s);
    if n.Some? {
      CreatedAnnots(key, doc, v, n.value, o.env);
      AnnotatedNames(a, n.value);
      var changes := map[A.SERVICE := n.value.service, A.CONFIGMAP := n.value.configMap];
      Persisted(s1, key, CreatedDoc(key, doc, v, n.value, o.env), true, Annotated(a, changes));
    } else if LeavesService(s, a, o) {
      ServiceLeft(s, services, o.service);
    }
  }

  /** A create, accepted or rejected, keeps the account exactly when it does not panic after its
      service step: that leaves a service nobody names. */
  lemma CreateIsAccounted(s: Store, r: Request)
    requires r.Create? && Accounted(s) && Fair(s, r)
    ensures Accounted(Admit(s, r).0) <==> !CreateLosesService(s, r)
  {
    var view := Decode(r.key.kind, r.doc);
    if view.Some? {
      if !r.named || s.system || !HasSidecarKey(AnnotsIn(view.value)) {
        PlainCreateIsAccounted(s, r.key, r.named, r.doc, view.value);
      } else {
        MutatedCreateIsAccounted(s, r.key, r.doc, view.value, r.o);
      }
    }
  }

  lemma RemovedObject(s: Store, key: Key)
    ensures Owned(s.(objects := s.objects - {key})) == Owned(s) - {key}
    ensures AllDecode(s) ==> AllDecode(s.(objects := s.objects - {key}))
  {
  }

  /** The store without the resources of some names. */
  function Undone(s: Store, n: Names): Store {
    RemoveConfigMap(RemoveService(s, n.service), n.configMap)
  }

  lemma UndoneSets(s: Store, n: Names)
    requires "" !in SidecarServices(s) && "" !in SidecarConfigMaps(s)
    ensures SidecarServices(Undone(s, n)) == SidecarServices(s) - {n.service}
    ensures SidecarConfigMaps(Undone(s, n)) == SidecarConfigMaps(s) - {n.configMap}
    ensures Undone(s, n).objects == s.objects && Undone(s, n).system == s.system
  {
    ServiceSets(s, None, n.service);
    ConfigMapSets(RemoveService(s, n.service), None, "", n.configMap);
  }

  lemma DeleteUndoes(s: Store, key: Key)
    requires key in s.objects && (s.system ==> NamesIn(StoredAnnots(key, s.objects[key])) == Names("", ""))
    ensures DeleteObject(s, key) == Undone(s, NamesIn(StoredAnnots(key, s.objects[key]))).(objects := s.objects - {key})
  {
    if !HasSidecarKey(StoredAnnots(key, s.objects[key])) { NoKeyNoNames(StoredAnnots(key, s.objects[key])); }
  }

  lemma DeleteIsAccounted(s: Store, r: Request)
    requires r.Delete? && Accounted(s)
    ensures Accounted(Admit(s, r).0)
  {
    if r.key in s.objects {
      var n := NamesIn(StoredAnnots(r.key, s.objects[r.key]));
      assert Owned(s)[r.key] == n;
      DeleteUndoes(s, r.key);
      UndoneIsAccounted(s, r.key, n);
    }
  }

  lemma UndoneIsAccounted(s: Store, key: Key, n: Names)
    requires Accounted(s) && key in s.objects && Owned(s)[key] == n
    ensures Accounted(Undone(s, n).(objects := s.objects - {key}))
  {
    var (owned, without) := (Owned(s), s.(objects := s.objects - {key}));
    Release(SidecarServices(s), Services(owned), key);
    Release(SidecarConfigMaps(s), ConfigMaps(owned), key);
    SplitNames(owned, key, n);
    UndoneSets(without, n);
    RemovedObject(s, key);
    assert Owned(Undone(without, n)) == Owned(without);
    assert Undone(s, n).(objects := s.objects - {key}) == Undone(without, n);
  }

  // ----- the update, and the one step that loses track

  /** The update is rejected although its service step has already run, and that step had
      something to create or to delete. */
  ghost predicate UpdateLosesService(s: Store, r: Request)
    requires r.Update?
  {
    && r.key in s.objects && Decode(r.key.kind, r.doc).Some? && !s.system && r.o.read
    && var (a, before) := (AnnotsIn(Decode(r.key.kind, r.doc).value), StoredAnnots(r.key, s.objects[r.key]));
    && UpdateRequired(r.key.kind, before, a) && ValidAnnots(a)
    && LostByUpdate(s, a, FlagsFor(ChangedKeys(r.key.kind, before, a)), r.o)
  }

  predicate LostByUpdate(s: Store, a: A.Annots, f: Flags, o: Outcomes) {
    && f.service && ServiceEffects(s, a, o).1.Some? && (Indexed(a, A.PORT) != "" || Indexed(a, A.SERVICE) != "")
    && f.config && ConfigEffects(ServiceEffects(s, a, o).0, a, o).1.None?
  }

  ghost predicate LosesService(s: Store, r: Request) {
    (r.Create? && CreateLosesService(s, r)) || (r.Update? && UpdateLosesService(s, r))
  }

  lemma UpdateTakesNames(s: Store, services: map<Key, string>, configMaps: map<Key, string>, a: A.Annots, f: Flags,
      key: Key, o: Outcomes)
    requires Balanced(SidecarServices(s), services) && Balanced(SidecarConfigMaps(s), configMaps)
    requires key in services && services[key] == Indexed(a, A.SERVICE) && key in configMaps
             && configMaps[key] == Indexed(a, A.CONFIGMAP)
    ensures var (s1, n) := UpdateEffects(s, a, f, o);
      && s1 == s.(services := s1.services, configMaps := s1.configMaps)
      && (n.None? && !(f.service && ServiceEffects(s, a, o).1.Some?) ==> s1 == s)
      && (n.None? ==> s1 == if f.service then ServiceEffects(s, a, o).0 else s)
      && (n.Some? ==>
            && (f.config ==> n.value.configMap != "")
            && Balanced(SidecarServices(s1),
                 services[key := if f.service then n.value.service else Indexed(a, A.SERVICE)])
            && Balanced(SidecarConfigMaps(s1),
                 configMaps[key := if f.config then n.value.configMap else Indexed(a, A.CONFIGMAP)]))
  {
    assert services[key := services[key]] == services && configMaps[key := configMaps[key]] == configMaps;
    if f.service { ServiceHandedOver(s, services, key, a, o); }
    var s1 := if f.service then ServiceEffects(s, a, o).0 else s;
    assert SidecarConfigMaps(s1) == SidecarConfigMaps(s);
    if f.config { ConfigHandedOver(s1, configMaps, key, a, o); }
    var s2 := if f.config then ConfigEffects(s1, a, o).0 else s1;
    assert SidecarServices(s2) == SidecarServices(s1);
  }

  /** A new service nobody names, or a name whose service is gone. */
  lemma ServiceLost(s: Store, names: map<Key, string>, key: Key, a: A.Annots, o: Outcomes)
    requires Balanced(SidecarServices(s), names) && key in names && Indexed(a, A.SERVICE) == names[key]
    requires ServiceEffects(s, a, o).1.Some? && (Indexed(a, A.PORT) != "" || Indexed(a, A.SERVICE) != "")
    ensures !Balanced(SidecarServices(ServiceEffects(s, a, o).0), names)
  {
    var (live, mine) := (SidecarServices(s), Indexed(a, A.SERVICE));
    var s1 := ServiceEffects(s, a, o).0;
    ServiceSets(s, o.service, mine);
    if Indexed(a, A.PORT) != "" {
      ServiceSets(AddService(s, o.service).value, None, mine);
      assert o.service.value in SidecarServices(s1);
    } else {
      assert mine !in SidecarServices(s1);
    }
  }

  lemma AdmittedUpdate(s: Store, key: Key, doc: Json, v: View, f: Flags, o: Outcomes, n: Names)
    requires Accounted(s) && key in s.objects && !s.system && Decode(key.kind, doc) == Some(v)
    requires NamesIn(AnnotsIn(v)) == Owned(s)[key] && UpdateEffects(s, AnnotsIn(v), f, o).1 == Some(n)
    ensures Accounted(Persist(UpdateEffects(s, AnnotsIn(v), f, o).0, key, UpdatedDoc(key, doc, v, f, n, o.env),
              s.objects[key].named))
  {
    var (a, s1) := (AnnotsIn(v), UpdateEffects(s, AnnotsIn(v), f, o).0);
    UpdateTakesNames(s, Services(Owned(s)), ConfigMaps(Owned(s)), a, f, key, o);
    UpdatedDocAnnots(key, doc, v, f, n, o.env);
    UpdatedNames(a, f, n);
    Persisted(s1, key, UpdatedDoc(key, doc, v, f, n, o.env), s.objects[key].named,
      if f.service || f.config then UpdatedAnnots(a, f, n) else a);
  }

  lemma RejectedUpdate(s: Store, key: Key, a: A.Annots, f: Flags, o: Outcomes)
    requires Accounted(s) && key in s.objects && NamesIn(a) == Owned(s)[key] && UpdateEffects(s, a, f, o).1.None?
    ensures Accounted(UpdateEffects(s, a, f, o).0) <==>
      !(f.service && ServiceEffects(s, a, o).1.Some? && (Indexed(a, A.PORT) != "" || Indexed(a, A.SERVICE) != ""))
  {
    UpdateTakesNames(s, Services(Owned(s)), ConfigMaps(Owned(s)), a, f, key, o);
    if f.service && ServiceEffects(s, a, o).1.Some? {
      if Indexed(a, A.PORT) != "" || Indexed(a, A.SERVICE) != "" {
        ServiceLost(s, Services(Owned(s)), key, a, o);
      } else {
        assert ServiceEffects(s, a, o).0 == s;
      }
    }
  }

  lemma MutatedUpdate(s: Store, key: Key, doc: Json, v: View, f: Flags, o: Outcomes)
    requires Accounted(s) && key in s.objects && !s.system && Decode(key.kind, doc) == Some(v)
    requires NamesIn(AnnotsIn(v)) == Owned(s)[key]
    ensures var (s1, n) := UpdateEffects(s, AnnotsIn(v), f, o);
      var after := if n.None? then s1 else Persist(s1, key, UpdatedDoc(key, doc, v, f, n.value, o.env),
        s.objects[key].named);
      Accounted(after) <==> !LostByUpdate(s, AnnotsIn(v), f, o)
  {
    var n := UpdateEffects(s, AnnotsIn(v), f, o).1;
    if n.Some? {
      AdmittedUpdate(s, key, doc, v, f, o, n.value);
    } else {
      RejectedUpdate(s, key, AnnotsIn(v), f, o);
    }
  }

  /** An update keeps the account exactly when it is not one that is rejected after its service
      step: that one leaves a service nobody names, or a name without its service. */
  lemma UpdateIsAccounted(s: Store, r: Request)
    requires r.Update? && Accounted(s) && Fair(s, r)
    ensures Accounted(Admit(s, r).0) <==> !UpdateLosesService(s, r)
  {
    var view := Decode(r.key.kind, r.doc);
    if view.Some? && r.key in s.objects {
      var (v, a, before) := (view.value, AnnotsIn(view.value), StoredAnnots(r.key, s.objects[r.key]));
      assert Owned(s)[r.key] == NamesIn(before) == NamesIn(a);
      if s.system || !r.o.read || !UpdateRequired(r.key.kind, before, a) {
        UnmutatedUpdate(s, r.key, r.doc, a);
      } else if ValidAnnots(a) {
        MutatedUpdate(s, r.key, r.doc, v, FlagsFor(ChangedKeys(r.key.kind, before, a)), r.o);
      }
    }
  }

  lemma SameNames(owned: map<Key, Names>, key: Key, n: Names)
    requires key in owned && owned[key] == n
    ensures Services(owned)[key := n.service] == Services(owned)
            && ConfigMaps(owned)[key := n.configMap] == ConfigMaps(owned)
  {
  }

  lemma UnmutatedUpdate(s: Store, key: Key, doc: Json, a: A.Annots)
    requires Accounted(s) && key in s.objects && Decode(key.kind, doc).Some?
             && a == AnnotsIn(Decode(key.kind, doc).value)
    requires NamesIn(a) == Owned(s)[key]
    ensures Accounted(Persist(s, key, doc, s.objects[key].named))
  {
    SameNames(Owned(s), key, NamesIn(a));
    Persisted(s, key, doc, s.objects[key].named, a);
  }

  // ----- whole runs

  ghost function Run(s: Store, requests: seq<Request>): Store
    decreases |requests|
  {
    if requests == [] then s else Run(Admit(s, requests[0]).0, requests[1..])
  }

  /** Every request of the run is fair. */
  ghost predicate FairRun(s: Store, requests: seq<Request>)
    decreases |requests|
  {
    requests == [] || (Fair(s, requests[0]) && FairRun(Admit(s, requests[0]).0, requests[1..]))
  }

  /** No request of the run loses a service. */
  ghost predicate NeverLoses(s: Store, requests: seq<Request>)
    decreases |requests|
  {
    requests == [] || (!LosesService(s, requests[0]) && NeverLoses(Admit(s, requests[0]).0, requests[1..]))
  }

  ghost predicate AlwaysAccounted(s: Store, requests: seq<Request>)
    decreases |requests|
  {
    Accounted(s) && (requests == [] || AlwaysAccounted(Admit(s, requests[0]).0, requests[1..]))
  }

  lemma StepIsAccountedIff(s: Store, r: Request)
    requires Accounted(s) && Fair(s, r)
    ensures Accounted(Admit(s, r).0) <==> !LosesService(s, r)
  {
    match r
    case Create(_, _, _, _) => CreateIsAccounted(s, r);
    case Update(_, _, _) => UpdateIsAccounted(s, r);
    case Delete(_) => DeleteIsAccounted(s, r);
  }

  /** Over any fair run the account is kept all the time exactly if no request loses a service. */
  lemma {:induction false} RunIsAccountedIff(s: Store, requests: seq<Request>)
    requires Accounted(s) && FairRun(s, requests)
    ensures AlwaysAccounted(s, requests) <==> NeverLoses(s, requests)
    ensures NeverLoses(s, requests) ==> Accounted(Run(s, requests))
    decreases |requests|
  {
    if requests != [] {
      StepIsAccountedIff(s, requests[0]);
      if !LosesService(s, requests[0]) { RunIsAccountedIff(Admit(s, requests[0]).0, requests[1..]); }
    }
  }

  /** When every object has been deleted, nothing of the sidecars is left. */
  lemma NothingLeftBehind(s: Store)
    requires Accounted(s) && s.objects == map[]
    ensures SidecarServices(s) == {} && SidecarConfigMaps(s) == {}
  {
  }
}
