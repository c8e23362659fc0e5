/** The webhook at work: requests change the services and config maps of one namespace, and the
    API server applies the answered patch before it stores the object. */
module Webhook {
  import opened Wrappers
  import opened Json
  import opened Sources
  import opened Patching
  import opened ConfigElements
  import opened ConfigOrder
  import opened Admission
  import P = ConfigParser
  import A = Annotations

  // ----- the patches turn the object into what admission says

  function CreatePatches(key: Key, v: View, n: Names, env: seq<EnvVar>): seq<Patch>
    requires ListIn(v.spec, "volumes").Some? && ListIn(v.spec, "containers").Some?
  {
    ContainerPatches(Base(key.kind), ListIn(v.spec, "volumes").value, ListIn(v.spec, "containers").value,
      Volume(n.configMap), SidecarContainer(AppName(key), AnnotsIn(v), env), false, true)
    + [AnnotationPatch(v, map[A.SERVICE := n.service, A.CONFIGMAP := n.configMap])]
  }

  function AnnotationPatch(v: View, changes: A.Annots): Patch {
    Patch(if v.annots.Some? then Replace else Add, ANNOTATIONS, AnnotsJson(Annotated(AnnotsIn(v), changes)))
  }

  function UpdatePatches(key: Key, v: View, f: Flags, n: Names, env: seq<EnvVar>): seq<Patch>
    requires ListIn(v.spec, "volumes").Some? && ListIn(v.spec, "containers").Some?
  {
    (if f.container
     then ContainerPatches(Base(key.kind), ListIn(v.spec, "volumes").value, ListIn(v.spec, "containers").value,
            Volume(n.configMap), SidecarContainer(AppName(key), AnnotsIn(v), env), true, f.config)
     else [])
    + (if f.service || f.config then [AnnotationPatch(v, NameChanges(f, n))] else [])
  }

  /** Operations on the pod specification, then one on the annotations. */
  lemma SpecThenAnnotations(kind: Kind, doc: Json, v: View, ops: seq<Patch>, spec: map<string, Json>, changes: A.Annots)
    requires Decode(kind, doc) == Some(v)
    requires ApplyAll(doc, ops) == Some(WithMember(doc, Base(kind) + ["spec"], JObject(spec)))
    ensures ApplyAll(doc, ops + [AnnotationPatch(v, changes)])
         == Some(Rewritten(kind, doc, v, spec, Some(Annotated(AnnotsIn(v), changes))))
  {
    var path := Base(kind) + ["spec"];
    var (doc1, p) := (WithMember(doc, path, JObject(spec)), AnnotationPatch(v, changes));
    OtherMember(doc, path, JObject(spec), ["metadata"]);
    AnnotationPatchApplies(doc1, v.meta, p.op, Annotated(AnnotsIn(v), changes));
    ApplyAllConcat(doc, ops, [p]);
    OnePatch(doc1, p);
  }

  /** The answer to a create, applied in order, succeeds and yields the sidecar object. */
  lemma CreatePatchesApply(key: Key, doc: Json, v: View, n: Names, env: seq<EnvVar>)
    requires Decode(key.kind, doc) == Some(v)
    ensures ApplyAll(doc, CreatePatches(key, v, n, env)) == Some(CreatedDoc(key, doc, v, n, env))
  {
    var (volume, container) := (Volume(n.configMap), SidecarContainer(AppName(key), AnnotsIn(v), env));
    PatchesApply(doc, Base(key.kind), v.spec, volume, container, false, true);
    SpecThenAnnotations(key.kind, doc, v,
      ContainerPatches(Base(key.kind), ListIn(v.spec, "volumes").value, ListIn(v.spec, "containers").value, volume,
        container, false, true),
      SpecAfter(v.spec, volume, container, false, true), map[A.SERVICE := n.service, A.CONFIGMAP := n.configMap]);
  }

  lemma UpdatePatchesApply(key: Key, doc: Json, v: View, f: Flags, n: Names, env: seq<EnvVar>)
    requires Decode(key.kind, doc) == Some(v)
    ensures ApplyAll(doc, UpdatePatches(key, v, f, n, env)) == Some(UpdatedDoc(key, doc, v, f, n, env))
  {
    var (volume, container) := (Volume(n.configMap), SidecarContainer(AppName(key), AnnotsIn(v), env));
    var ops: seq<Patch> := [];
    var spec := v.spec;
    if f.container {
      PatchesApply(doc, Base(key.kind), v.spec, volume, container, true, f.config);
      ops := ContainerPatches(Base(key.kind), ListIn(v.spec, "volumes").value, ListIn(v.spec, "containers").value,
        volume, container, true, f.config);
      spec := SpecAfter(v.spec, volume, container, true, f.config);
    } else {
      WithSameMember(doc, Base(key.kind) + ["spec"]);
    }
    if f.service || f.config {
      SpecThenAnnotations(key.kind, doc, v, ops, spec, NameChanges(f, n));
    } else {
      assert ops + [] == ops;
    }
  }

  // ----- whether to mutate

  method AnySidecarKey(annots: A.Annots) returns (required: bool)
    ensures required <==> HasSidecarKey(annots)
  {
    required := false;
    var todo := annots.Keys;
    while todo != {}
      invariant todo <= annots.Keys
      invariant required <==> exists k :: k in annots.Keys - todo && A.HasPrefix(k, A.PREFIX)
      decreases todo
    {
      var key :| key in todo;
      if A.HasPrefix(key, A.PREFIX) { required := true; }
      todo := todo - {key};
    }
  }

  /** Adds one changed key to the report. */
  method Report(changes: seq<string>, required: bool, key: string) returns (changes': seq<string>, required': bool)
    ensures changes' == changes + [key] && (required' <==> required || Important(key))
  {
    changes' := changes + [key];
    required' := required || A.HasPrefix(key, A.ENV) || A.HasPrefix(key, A.CONF) || A.HasPrefix(key, A.PORT)
                 || A.HasPrefix(key, A.IMAGE);
  }

  /** The report holds the keys of `keys`, and they alone can have made a mutation required. */
  ghost predicate Reported(changes: seq<string>, keys: set<string>, already: bool, required: bool) {
    && (forall k :: k in keys <==> k in changes)
    && (required <==> already || exists k :: k in keys && Important(k))
  }

  lemma OneReported(changes: seq<string>, keys: set<string>, already: bool, required: bool, key: string)
    requires Reported(changes, keys, already, required)
    ensures Reported(changes + [key], keys + {key}, already, required || Important(key))
  {
  }

  ghost function ChangedBefore(kind: Kind, before: A.Annots, after: A.Annots): set<string> {
    set k | k in before && Compared(kind, k) && before[k] != Indexed(after, k)
  }

  ghost function ChangedAfter(kind: Kind, before: A.Annots, after: A.Annots): set<string> {
    set k | k in after && Compared(kind, k) && Indexed(before, k) == ""
  }

  method ChangesFrom(kind: Kind, before: A.Annots, after: A.Annots, already: bool)
    returns (changes: seq<string>, required: bool)
    ensures Reported(changes, ChangedBefore(kind, before, after), already, required)
  {
    changes, required := [], already;
    var todo := before.Keys;
    ghost var all := ChangedBefore(kind, before, after);
    while todo != {}
      invariant todo <= before.Keys && Reported(changes, all - todo, already, required)
      decreases todo
    {
      var key :| key in todo;
      if A.HasPrefix(key, A.PREFIX) && before[key] != Indexed(after, key) && !(kind.Pod? && A.HasPrefix(key, A.ENV)) {
        OneReported(changes, all - todo, already, required, key);
        assert all - (todo - {key}) == (all - todo) + {key};
        changes, required := Report(changes, required, key);
      } else {
        assert all - (todo - {key}) == all - todo;
      }
      todo := todo - {key};
    }
    assert all - {} == all;
  }

  method ChangesTo(kind: Kind, before: A.Annots, after: A.Annots, soFar: seq<string>, already: bool)
    returns (changes: seq<string>, required: bool)
    ensures exists added ::
      changes == soFar + added && Reported(added, ChangedAfter(kind, before, after), already, required)
  {
    ghost var added: seq<string> := [];
    changes, required := soFar, already;
    var todo := after.Keys;
    ghost var all := ChangedAfter(kind, before, after);
    while todo != {}
      invariant todo <= after.Keys && changes == soFar + added && Reported(added, all - todo, already, required)
      decreases todo
    {
      var key :| key in todo;
      if A.HasPrefix(key, A.PREFIX) && !(kind.Pod? && A.HasPrefix(key, A.ENV)) && Indexed(before, key) == "" {
        OneReported(added, all - todo, already, required, key);
        assert all - (todo - {key}) == (all - todo) + {key};
        changes, required := Report(changes, required, key);
        added := added + [key];
      } else {
        assert all - (todo - {key}) == all - todo;
      }
      todo := todo - {key};
    }
    assert all - {} == all;
  }

  /** The keys reported are exactly the changed ones, in some order and possibly twice. */
  method CompareAnnotations(kind: Kind, before: A.Annots, after: A.Annots)
    returns (required: bool, changes: seq<string>)
    ensures required <==> UpdateRequired(kind, before, after)
    ensures Members(changes) == ChangedKeys(kind, before, after)
  {
    var mentioned := AnySidecarKey(after);
    ghost var already := mentioned;
    changes, required := ChangesFrom(kind, before, after, mentioned);
    ghost var (first, mid) := (changes, required);
    changes, required := ChangesTo(kind, before, after, changes, required);
    ghost var added :| changes == first + added && Reported(added, ChangedAfter(kind, before, after), mid, required);
    assert ChangedKeys(kind, before, after) == ChangedBefore(kind, before, after) + ChangedAfter(kind, before, after);
  }

  function Members(keys: seq<string>): set<string> {
    set k | k in keys
  }

  /** The three switches of an update, from the reported keys. */
  method FlagsOf(changes: seq<string>) returns (f: Flags)
    ensures f == FlagsFor(Members(changes))
  {
    f := Flags(false, false, false);
    for i := 0 to |changes|
      invariant f == FlagsFor(Members(changes[..i]))
    {
      var annot := changes[i];
      FlagsStep(Members(changes[..i]), annot);
      assert Members(changes[..i + 1]) == Members(changes[..i]) + {annot};
      if A.HasPrefix(annot, A.CONF) {
        f := f.(config := true);
      } else if A.HasPrefix(annot, A.PORT) {
        f := f.(service := true);
      } else if A.HasPrefix(annot, A.IMAGE) || A.HasPrefix(annot, A.ENV) {
        f := f.(container := true);
      }
    }
    assert changes[..|changes|] == changes;
  }

  lemma FlagsStep(keys: set<string>, k: string)
    ensures var (f, one) := (FlagsFor(keys), FlagsFor({k}));
      FlagsFor(keys + {k}) == Flags(f.container || one.container, f.config || one.config, f.service || one.service)
  {
  }

  /** The patch of an update: the container if it is affected, then the annotations that changed. */
  method UpdatePatch(key: Key, v: View, f: Flags, n: Names) returns (ops: seq<Patch>, ghost env: seq<EnvVar>)
    requires ListIn(v.spec, "volumes").Some? && ListIn(v.spec, "containers").Some?
    requires Indexed(AnnotsIn(v), A.IMAGE) != ""
    ensures ops == UpdatePatches(key, v, f, n, env) && (f.container ==> ListsEnv(AnnotsIn(v), env))
  {
    ops, env := [], [];
    if f.container {
      var listed;
      listed, env := AddIAGContainer(ListIn(v.spec, "volumes").value, AnnotsIn(v), ListIn(v.spec, "containers").value,
        Base(key.kind), n.configMap, AppName(key), true, f.config);
      ops := listed.value;
    }
    if f.service || f.config {
      var changed, p := AddAnnotations(v.annots, NameChanges(f, n));
      ops := ops + [p];
    }
  }

  // ----- the webhook and the API server

  /** What the cluster answers during one request: the names it generates for a service and for a
      config map (`None` is an API error), how the merge of a list of sources ends, and whether the
      stored object can be read. */
  datatype Answers = Answers(
    service: Option<string>, configMap: Option<string>, merge: seq<Source> -> Result<string>, read: bool)

  /** Outcomes that these answers can have: the merge gets some parse of the annotations, sorted. */
  ghost predicate Possible(ans: Answers, a: A.Annots, o: Outcomes) {
    && o.service == ans.service && o.configMap == ans.configMap && o.read == ans.read
    && (ValidAnnots(a) ==> exists es :: IsParse(ConfigOf(a), es) && o.merged == ans.merge(SortByOrder(es)))
  }

  function NoOutcomes(ans: Answers): Outcomes {
    Outcomes(ans.service, ans.configMap, Error, [], ans.read)
  }

  /** If the webhook gets as far as making resources, the request's outcomes are possible ones. */
  ghost predicate Matching(ans: Answers, s: Store, r: Request)
    requires !r.Delete?
  {
    forall v ::
      Decode(r.key.kind, r.doc) == Some(v) && !s.system && ValidAnnots(AnnotsIn(v))
      && CallsForSidecar(s, r, AnnotsIn(v))
      ==> Possible(ans, AnnotsIn(v), r.o)
  }

  predicate CallsForSidecar(s: Store, r: Request, a: A.Annots) {
    match r
    case Create(_, named, _, _) => named && HasSidecarKey(a)
    case Update(key, _, o) =>
      key in s.objects && o.read && UpdateRequired(key.kind, StoredAnnots(key, s.objects[key]), a)
    case Delete(_) => false
  }

  class Cluster {
    const system: bool
    var services: map<string, Owner>
    var configMaps: map<string, ConfigMap>
    var objects: map<Key, Stored>

    ghost function Snapshot(): Store
      reads this
    {
      Store(system, services, configMaps, objects)
    }

    constructor (system: bool)
      ensures Snapshot() == Store(system, map[], map[], map[])
    {
      this.system, services, configMaps, objects := system, map[], map[], map[];
    }

    method AddIAGService(given: Option<string>) returns (name: Option<string>)
      modifies this`services
      ensures match AddService(old(Snapshot()), given)
        case None => name.None? && Snapshot() == old(Snapshot())
        case Some(s) => name == given && Snapshot() == s
    {
      if given.None? || given.value == "" || given.value in services { return None; }
      services := services[given.value := Owner.Sidecar];
      name := given;
    }

    method DeleteService(name: string)
      modifies this`services
      ensures Snapshot() == RemoveService(old(Snapshot()), name)
    {
      if name != "" && name in services {
        services := services - {name};
      } else {
        assert name != "" ==> services - {name} == services;
      }
    }

    method DeleteConfigMap(name: string)
      modifies this`configMaps
      ensures Snapshot() == RemoveConfigMap(old(Snapshot()), name)
    {
      if name != "" && name in configMaps {
        configMaps := configMaps - {name};
      } else {
        assert name != "" ==> configMaps - {name} == configMaps;
      }
    }

    /** Sorts the sources, merges them into a new config map, and deletes the old one. */
    method CreateIAGConfig(elements: seq<Source>, cmName: string, ans: Answers) returns (name: Result<string>)
      modifies this`configMaps
      ensures var merged := ans.merge(SortByOrder(elements));
        var added := if merged.Ok? then AddConfigMap(old(Snapshot()), ans.configMap, merged.value) else None;
        && name == (if merged.Panic? then Panic else if added.None? then Error else Ok(ans.configMap.value))
        && Snapshot() == if added.None? then old(Snapshot()) else RemoveConfigMap(added.value, cmName)
    {
      var merged := ans.merge(SortByOrder(elements));
      if merged.Error? { return Error; }
      if merged.Panic? { return Panic; }
      var given := ans.configMap;
      if given.None? || given.value == "" || given.value in configMaps { return Error; }
      configMaps := configMaps[given.value := ConfigMap(Owner.Sidecar, merged.value)];
      DeleteConfigMap(cmName);
      name := Ok(given.value);
    }

    ghost predicate ComparedAndRequired(key: Key, annots: A.Annots, read: bool)
      reads this
    {
      key in objects && read && UpdateRequired(key.kind, StoredAnnots(key, objects[key]), annots)
    }

    /** Ignored namespaces and objects that cannot be read are left alone. */
    method MutationRequired(key: Key, annots: A.Annots, isUpdate: bool, read: bool)
      returns (required: bool, changes: seq<string>)
      ensures required == (!system && if isUpdate then ComparedAndRequired(key, annots, read)
                                      else HasSidecarKey(annots))
      ensures required && isUpdate ==>
        Members(changes) == ChangedKeys(key.kind, StoredAnnots(key, objects[key]), annots)
    {
      if system { return false, []; }
      if isUpdate {
        if key !in objects || !read { return false, []; }
        required, changes := CompareAnnotations(key.kind, StoredAnnots(key, objects[key]), annots);
      } else {
        required := AnySidecarKey(annots);
        changes := [];
      }
    }

    /** The image and the configuration are checked before anything is changed. */
    method ValidateAnnotations(annots: A.Annots) returns (elements: Option<seq<Source>>)
      ensures elements.Some? <==> ValidAnnots(annots)
      ensures elements.Some? ==> IsParse(ConfigOf(annots), elements.value)
    {
      if Indexed(annots, A.IMAGE) == "" { return None; }
      elements := P.GetConfigElements(annots);
    }

    method CreateObjects(key: Key, v: View, ans: Answers) returns (patch: Option<seq<Patch>>, ghost o: Outcomes)
      requires ListIn(v.spec, "volumes").Some? && ListIn(v.spec, "containers").Some?
      modifies this`services, this`configMaps
      ensures !ValidAnnots(AnnotsIn(v)) ==> patch.None? && Snapshot() == old(Snapshot())
      ensures ValidAnnots(AnnotsIn(v)) ==>
        var (s, n) := CreateEffects(old(Snapshot()), AnnotsIn(v), o);
        && Snapshot() == s && Possible(ans, AnnotsIn(v), o)
        && patch == (if n.None? then None else Some(CreatePatches(key, v, n.value, o.env)))
        && (n.Some? ==> ListsEnv(AnnotsIn(v), o.env))
    {
      var annots := AnnotsIn(v);
      patch, o := None, NoOutcomes(ans);
      var elements := ValidateAnnotations(annots);
      if elements.None? { return; }
      o := o.(merged := ans.merge(SortByOrder(elements.value)));
      var sName := "";
      if Indexed(annots, A.PORT) != "" {
        var made := AddIAGService(ans.service);
        if made.None? { return; }
        sName := made.value;
      }
      var cmName := CreateIAGConfig(elements.value, "", ans);
      if cmName.Panic? { return; }
      if cmName.Error? {
        DeleteService(sName);
        return;
      }
      var ops, listed := AddIAGContainer(ListIn(v.spec, "volumes").value, annots, ListIn(v.spec, "containers").value,
        Base(key.kind), cmName.value, AppName(key), false, true);
      var annots', p := AddAnnotations(v.annots, map[A.SERVICE := sName, A.CONFIGMAP := cmName.value]);
      o := o.(env := listed);
      patch := Some(ops.value + [p]);
    }

    /** A new service if a port is given, and in any case the old one is deleted. */
    method UpdateIAGService(annots: A.Annots, ans: Answers) returns (name: Option<string>)
      modifies this`services
      ensures forall o: Outcomes :: o.service == ans.service ==>
        (Snapshot(), name) == ServiceEffects(old(Snapshot()), annots, o)
    {
      name := Some("");
      if Indexed(annots, A.PORT) != "" {
        name := AddIAGService(ans.service);
        if name.None? { return; }
      }
      DeleteService(Indexed(annots, A.SERVICE));
    }

    /** The steps of an update that change the cluster: the service first, then the config map. */
    method UpdateResources(annots: A.Annots, f: Flags, elements: seq<Source>, ans: Answers, ghost o: Outcomes)
      returns (n: Option<Names>)
      requires o.service == ans.service && o.configMap == ans.configMap && o.merged == ans.merge(SortByOrder(elements))
      modifies this`services, this`configMaps
      ensures (Snapshot(), n) == UpdateEffects(old(Snapshot()), annots, f, o)
    {
      n := None;
      var sName, cmName := Some(""), Some(Indexed(annots, A.CONFIGMAP));
      if f.service {
        sName := UpdateIAGService(annots, ans);
        if sName.None? { return; }
      }
      if f.config {
        var made := CreateIAGConfig(elements, cmName.value, ans);
        if !made.Ok? { return; }
        cmName := Some(made.value);
      }
      n := Some(Names(sName.value, cmName.value));
    }

    method UpdateParts(key: Key, v: View, f: Flags, elements: seq<Source>, ans: Answers)
      returns (patch: Option<seq<Patch>>, ghost o: Outcomes)
      requires ListIn(v.spec, "volumes").Some? && ListIn(v.spec, "containers").Some?
               && Indexed(AnnotsIn(v), A.IMAGE) != ""
      modifies this`services, this`configMaps
      ensures o == NoOutcomes(ans).(merged := ans.merge(SortByOrder(elements)), env := o.env)
      ensures
        var (s, n) := UpdateEffects(old(Snapshot()), AnnotsIn(v), f, o);
        && Snapshot() == s
        && patch == (if n.None? then None else Some(UpdatePatches(key, v, f, n.value, o.env)))
        && (n.Some? && f.container ==> ListsEnv(AnnotsIn(v), o.env))
    {
      o := NoOutcomes(ans).(merged := ans.merge(SortByOrder(elements)));
      var n := UpdateResources(AnnotsIn(v), f, elements, ans, o);
      patch := None;
      if n.Some? {
        var ops;
        ghost var env;
        ops, env := UpdatePatch(key, v, f, n.value);
        o := o.(env := env);
        patch := Some(ops);
      }
    }

    method UpdateObjects(key: Key, v: View, changes: seq<string>, ans: Answers)
      returns (patch: Option<seq<Patch>>, ghost o: Outcomes)
      requires ListIn(v.spec, "volumes").Some? && ListIn(v.spec, "containers").Some?
      modifies this`services, this`configMaps
      ensures !ValidAnnots(AnnotsIn(v)) ==> patch.None? && Snapshot() == old(Snapshot())
      ensures ValidAnnots(AnnotsIn(v)) ==>
        var f := FlagsFor(Members(changes));
        var (s, n) := UpdateEffects(old(Snapshot()), AnnotsIn(v), f, o);
        && Snapshot() == s && Possible(ans, AnnotsIn(v), o)
        && patch == (if n.None? then None else Some(UpdatePatches(key, v, f, n.value, o.env)))
        && (n.Some? && f.container ==> ListsEnv(AnnotsIn(v), o.env))
      ensures o.read == ans.read
    {
      patch, o := None, NoOutcomes(ans);
      var elements := ValidateAnnotations(AnnotsIn(v));
      if elements.None? { return; }
      var f := FlagsOf(changes);
      patch, o := UpdateParts(key, v, f, elements.value, ans);
    }

    /** Deletes what the object's annotations name. */
    method MutateDeleteCommon(annots: A.Annots)
      modifies this`services, this`configMaps
      ensures Snapshot() == RemoveConfigMap(RemoveService(old(Snapshot()), Indexed(annots, A.SERVICE)),
                Indexed(annots, A.CONFIGMAP))
    {
      DeleteService(Indexed(annots, A.SERVICE));
      DeleteConfigMap(Indexed(annots, A.CONFIGMAP));
    }

    // ----- one request each, from the webhook's answer to the stored object

    /** The API server applies the answered patch and stores the result. */
    method ApplyAndStore(key: Key, doc: Json, named: bool, patch: seq<Patch>) returns (stored: bool)
      modifies this`objects
      ensures match ApplyAll(doc, patch)
        case None => !stored && Snapshot() == old(Snapshot())
        case Some(d) => stored && Snapshot() == Persist(old(Snapshot()), key, d, named)
    {
      var patched := ApplyAll(doc, patch);
      stored := patched.Some?;
      if stored { objects := objects[key := Stored(patched.value, named)]; }
    }

    method ServeCreate(key: Key, doc: Json, named: bool, ans: Answers) returns (stored: bool, ghost o: Outcomes)
      modifies this
      ensures (Snapshot(), stored) == Admit(old(Snapshot()), Create(key, named, doc, o))
      ensures Matching(ans, old(Snapshot()), Create(key, named, doc, o))
    {
      stored, o := false, NoOutcomes(ans);
      var view := Decode(key.kind, doc);
      if view.None? { return; }
      var required, _ := MutationRequired(key, AnnotsIn(view.value), false, ans.read);
      if !named || !required {
        stored := ApplyAndStore(key, doc, named, []);
        return;
      }
      var patch;
      patch, o := CreateObjects(key, view.value, ans);
      if patch.Some? {
        ghost var n := CreateEffects(old(Snapshot()), AnnotsIn(view.value), o).1.value;
        CreatePatchesApply(key, doc, view.value, n, o.env);
        stored := ApplyAndStore(key, doc, named, patch.value);
      }
    }

    /** The webhook's answer to an update: `None` is a rejection. */
    method MutateUpdate(key: Key, v: View, ans: Answers)
      returns (patch: Option<seq<Patch>>, ghost f: Flags, ghost o: Outcomes)
      requires ListIn(v.spec, "volumes").Some? && ListIn(v.spec, "containers").Some? && key in objects
      modifies this`services, this`configMaps
      ensures f == FlagsFor(ChangedKeys(key.kind, StoredAnnots(key, objects[key]), AnnotsIn(v)))
      ensures o.read == ans.read
      ensures
        var (a, before) := (AnnotsIn(v), StoredAnnots(key, objects[key]));
        if system || !ans.read || !UpdateRequired(key.kind, before, a)
        then patch == Some([]) && Snapshot() == old(Snapshot())
        else if !ValidAnnots(a) then patch == None && Snapshot() == old(Snapshot())
        else
          var (s, n) := UpdateEffects(old(Snapshot()), a, f, o);
          && Snapshot() == s && Possible(ans, a, o)
          && patch == (if n.None? then None else Some(UpdatePatches(key, v, f, n.value, o.env)))
          && (n.Some? && f.container ==> ListsEnv(a, o.env))
    {
      o := NoOutcomes(ans);
      f := FlagsFor(ChangedKeys(key.kind, StoredAnnots(key, objects[key]), AnnotsIn(v)));
      var required, changes := MutationRequired(key, AnnotsIn(v), true, ans.read);
      if !required { return Some([]), f, o; }
      patch, o := UpdateObjects(key, v, changes, ans);
    }

    method ServeUpdate(key: Key, doc: Json, ans: Answers) returns (stored: bool, ghost o: Outcomes)
      modifies this
      ensures (Snapshot(), stored) == Admit(old(Snapshot()), Update(key, doc, o))
      ensures Matching(ans, old(Snapshot()), Update(key, doc, o)) && o.read == ans.read
    {
      stored, o := false, NoOutcomes(ans);
      var view := Decode(key.kind, doc);
      if view.None? || key !in objects { return; }
      ghost var s := Snapshot();
      var named := objects[key].named;
      var patch;
      ghost var f;
      patch, f, o := MutateUpdate(key, view.value, ans);
      if patch.None? { return; }
      ghost var n := UpdateEffects(s, AnnotsIn(view.value), f, o).1;
      if n.Some? { UpdatePatchesApply(key, doc, view.value, f, n.value, o.env); }
      stored := ApplyAndStore(key, doc, named, patch.value);
    }

    method ServeDelete(key: Key) returns (deleted: bool)
      modifies this
      ensures (Snapshot(), deleted) == Admit(old(Snapshot()), Delete(key))
    {
      deleted := key in objects;
      if !deleted { return; }
      var annots := StoredAnnots(key, objects[key]);
      var required, _ := MutationRequired(key, annots, false, true);
      if required { MutateDeleteCommon(annots); }
      objects := objects - {key};
    }
  }
}
