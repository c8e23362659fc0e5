/** Once an object is a sidecar it stays a valid one, and when its volume still refers to the
    config map its annotation names. */
module SidecarSafety {
  import opened Wrappers
  import opened Text
  import opened Json
  import opened Patching
  import opened ConfigElements
  import opened Admission
  import opened SidecarLedger
  import A = Annotations

  // ----- the operator's own annotations do not affect validity

  lemma SameConfig(a: A.Annots, b: A.Annots)
    requires forall k :: A.HasPrefix(k, A.CONF) ==> (k in a <==> k in b) && Indexed(a, k) == Indexed(b, k)
    ensures ConfigOf(a) == ConfigOf(b)
  {
  }

  lemma StillValid(a: A.Annots, changes: A.Annots)
    requires changes.Keys <= {A.SERVICE, A.CONFIGMAP}
    ensures ValidAnnots(Annotated(a, changes)) <==> ValidAnnots(a)
  {
    A.OperatorKeys();
    A.ImageKey();
    forall k | A.HasPrefix(k, A.CONF) ensures k !in changes {
    }
    StillConfigured(a, changes);
  }

  lemma StillConfigured(a: A.Annots, changes: A.Annots)
    requires A.IMAGE !in changes && forall k :: A.HasPrefix(k, A.CONF) ==> k !in changes
    ensures var b := Annotated(a, changes); ConfigOf(b) == ConfigOf(a) && Indexed(b, A.IMAGE) == Indexed(a, A.IMAGE)
  {
    SameConfig(a, Annotated(a, changes));
  }

  // ----- an update of a sidecar

  /** Taking the image away is itself a change that calls for validation. */
  lemma ImageIsGuarded(kind: Kind, before: A.Annots, after: A.Annots)
    requires Indexed(before, A.IMAGE) != ""
    ensures UpdateRequired(kind, before, after)
  {
    A.ImageKey();
    if Indexed(after, A.IMAGE) != "" {
      assert A.IMAGE in after;
    } else {
      assert A.IMAGE in ChangedKeys(kind, before, after) && Important(A.IMAGE);
    }
  }

  lemma SomeConfigKey(a: A.Annots) returns (k: string)
    requires Accepts(ConfigOf(a))
    ensures k in a && A.HasPrefix(k, A.CONF)
  {
    var id :| id in Ids(ConfigOf(a));
    var t :| t in ConfigOf(a) && t != [] && t[0] == id;
    k := A.CONF + Join(t);
  }

  lemma ConfigKeyIsCompared(kind: Kind, k: string)
    requires A.HasPrefix(k, A.CONF)
    ensures Compared(kind, k)
  {
    var rest := "configuration." + k[|A.CONF|..];
    assert k == A.PREFIX + rest;
    A.Apart("env.", rest, 0);
  }

  /** Annotations added to an object without any are all reported, in a pod as well. */
  lemma NewConfigIsReported(kind: Kind, before: A.Annots, after: A.Annots)
    requires !HasSidecarKey(before) && Accepts(ConfigOf(after))
    ensures FlagsFor(ChangedKeys(kind, before, after)).config
  {
    var k := SomeConfigKey(after);
    ConfigKeyIsCompared(kind, k);
    assert k !in before;
    assert k in ChangedKeys(kind, before, after);
  }

  /** An object with an image is only admitted with an image and an acceptable configuration,
      whatever the users do to its other annotations, exactly if the stored object can be read or
      the incoming annotations happen to be valid: otherwise they are not looked at. */
  lemma UpdateOfSidecarIsValidIff(s: Store, r: Request)
    requires r.Update? && !s.system && r.key in s.objects
             && Indexed(StoredAnnots(r.key, s.objects[r.key]), A.IMAGE) != ""
    ensures var (s', ok) := Admit(s, r);
      ok ==>
        && r.key in s'.objects && Decode(r.key.kind, r.doc).Some?
        && var incoming := AnnotsIn(Decode(r.key.kind, r.doc).value);
        (ValidAnnots(StoredAnnots(r.key, s'.objects[r.key])) <==> r.o.read || ValidAnnots(incoming))
  {
    var view := Decode(r.key.kind, r.doc);
    if view.Some? {
      var (v, a, before) := (view.value, AnnotsIn(view.value), StoredAnnots(r.key, s.objects[r.key]));
      ImageIsGuarded(r.key.kind, before, a);
      if ValidAnnots(a) {
        var f := FlagsFor(ChangedKeys(r.key.kind, before, a));
        var (s1, n) := UpdateEffects(s, a, f, r.o);
        if n.Some? { UpdatedIsValid(r.key, r.doc, v, f, n.value, r.o.env); }
      }
    }
  }

  lemma UpdatedIsValid(key: Key, doc: Json, v: View, f: Flags, n: Names, env: seq<EnvVar>)
    requires Decode(key.kind, doc) == Some(v) && ValidAnnots(AnnotsIn(v))
    ensures ValidAnnots(StoredAnnots(key, Stored(UpdatedDoc(key, doc, v, f, n, env), true)))
  {
    UpdatedDocAnnots(key, doc, v, f, n, env);
    NamesOnly(f, n);
    StillValid(AnnotsIn(v), NameChanges(f, n));
  }

  lemma NamesOnly(f: Flags, n: Names)
    ensures NameChanges(f, n).Keys <= {A.SERVICE, A.CONFIGMAP}
  {
  }

  ghost predicate ValidSidecar(s: Store, key: Key) {
    !s.system && key in s.objects && ValidAnnots(StoredAnnots(key, s.objects[key]))
  }

  ghost predicate AlwaysValid(s: Store, requests: seq<Request>, key: Key)
    decreases |requests|
  {
    ValidSidecar(s, key) && (requests == [] || AlwaysValid(Admit(s, requests[0]).0, requests[1..], key))
  }

  /** An update of this object that brings invalid annotations while the stored object cannot be
      read. */
  ghost predicate Unchecked(r: Request, key: Key) {
    && r.Update? && r.key == key && !r.o.read
    && Decode(key.kind, r.doc).Some? && !ValidAnnots(AnnotsIn(Decode(key.kind, r.doc).value))
  }

  lemma FirstOfRun(s: Store, requests: seq<Request>, key: Key)
    requires requests != []
    ensures AlwaysValid(s, requests, key) <==>
      ValidSidecar(s, key) && AlwaysValid(Admit(s, requests[0]).0, requests[1..], key)
    ensures AlwaysValid(s, requests, key) ==> ValidSidecar(Admit(s, requests[0]).0, key)
    ensures (forall r :: r in requests ==> !Unchecked(r, key)) <==>
      !Unchecked(requests[0], key) && forall r :: r in requests[1..] ==> !Unchecked(r, key)
  {
    assert requests == [requests[0]] + requests[1..];
  }

  /** Over any run in which it is neither deleted nor created anew, a valid sidecar stays one all the
      time exactly if no update of it goes unchecked. */
  lemma {:induction false} StaysValidIff(s: Store, requests: seq<Request>, key: Key)
    requires ValidSidecar(s, key)
    requires forall r :: r in requests ==> r.Update? || r.key != key
    ensures AlwaysValid(s, requests, key) <==> forall r :: r in requests ==> !Unchecked(r, key)
    decreases |requests|
  {
    if requests != [] {
      FirstOfRun(s, requests, key);
      StepStaysValid(s, requests[0], key);
      if !Unchecked(requests[0], key) { StaysValidIff(Admit(s, requests[0]).0, requests[1..], key); }
    }
  }

  lemma StepStaysValid(s: Store, r: Request, key: Key)
    requires ValidSidecar(s, key) && (r.Update? || r.key != key)
    ensures ValidSidecar(Admit(s, r).0, key) <==> !Unchecked(r, key)
  {
    OthersAreLeftAlone(s, r);
    if r.key == key {
      UpdateOfSidecarIsValidIff(s, r);
    } else {
      StillThere(s.objects, Admit(s, r).0.objects, r.key, key);
    }
  }

  lemma StillThere(before: map<Key, Stored>, after: map<Key, Stored>, changed: Key, key: Key)
    requires after - {changed} == before - {changed} && key != changed && key in before
    ensures key in after && after[key] == before[key]
  {
    assert key in before - {changed};
  }

  /** A request stores or removes no object but its own. */
  lemma OthersAreLeftAlone(s: Store, r: Request)
    ensures OnlyTouches(s, Admit(s, r).0, r.key)
    ensures r.Update? && !Admit(s, r).1 ==> Admit(s, r).0.objects == s.objects
  {
  }

  // ----- every created sidecar is complete

  lemma CreatedIsComplete(key: Key, doc: Json, v: View, n: Names, env: seq<EnvVar>, system: bool)
    requires Decode(key.kind, doc) == Some(v) && n.configMap != ""
    ensures ValidAnnots(AnnotsIn(v)) ==> CompleteObject(system, key, Stored(CreatedDoc(key, doc, v, n, env), true))
  {
    var a := AnnotsIn(v);
    CreatedAnnots(key, doc, v, n, env);
    AnnotatedNames(a, n);
    StillValid(a, map[A.SERVICE := n.service, A.CONFIGMAP := n.configMap]);
  }

  lemma StoredComplete(s: Store, s1: Store, key: Key, doc: Json, named: bool)
    requires Complete(s) && s1.objects == s.objects && s1.system == s.system
    requires CompleteObject(s.system, key, Stored(doc, named))
    ensures Complete(Persist(s1, key, doc, named))
  {
  }

  lemma CreateIsComplete(s: Store, r: Request)
    requires r.Create? && Complete(s)
    ensures Complete(Admit(s, r).0)
  {
    var view := Decode(r.key.kind, r.doc);
    if view.Some? { CreateViewIsComplete(s, r.key, r.named, r.doc, view.value, r.o); }
  }

  lemma CreateViewIsComplete(s: Store, key: Key, named: bool, doc: Json, v: View, o: Outcomes)
    requires Decode(key.kind, doc) == Some(v) && Complete(s)
    ensures Complete(CreateView(s, key, named, doc, v, o).0)
  {
    if !named || s.system || !HasSidecarKey(AnnotsIn(v)) {
      StoredComplete(s, s, key, doc, named);
    } else if ValidAnnots(AnnotsIn(v)) {
      var (s1, n) := CreateEffects(s, AnnotsIn(v), o);
      if n.Some? {
        CreatedIsComplete(key, doc, v, n.value, o.env, s.system);
        StoredComplete(s, s1, key, CreatedDoc(key, doc, v, n.value, o.env), named);
      }
    }
  }

  lemma UpdatedIsComplete(key: Key, doc: Json, v: View, f: Flags, n: Names, before: A.Annots, env: seq<EnvVar>,
      named: bool)
    requires Decode(key.kind, doc) == Some(v) && NamesIn(AnnotsIn(v)) == NamesIn(before)
    requires named && HasSidecarKey(before) ==> Indexed(before, A.CONFIGMAP) != ""
    requires (!HasSidecarKey(before) ==> f.config) && (f.config ==> n.configMap != "")
    ensures ValidAnnots(AnnotsIn(v)) ==> CompleteObject(false, key, Stored(UpdatedDoc(key, doc, v, f, n, env), named))
  {
    if ValidAnnots(AnnotsIn(v)) { UpdatedIsValid(key, doc, v, f, n, env); }
    UpdatedDocAnnots(key, doc, v, f, n, env);
    UpdatedNames(AnnotsIn(v), f, n);
  }

  lemma UpdateViewIsComplete(s: Store, key: Key, doc: Json, v: View, o: Outcomes)
    requires Decode(key.kind, doc) == Some(v) && key in s.objects && Complete(s)
    requires NamesIn(AnnotsIn(v)) == NamesIn(StoredAnnots(key, s.objects[key]))
    requires !s.system && !o.read ==> CompleteObject(false, key, Stored(doc, s.objects[key].named))
    ensures Complete(UpdateView(s, key, doc, v, o).0)
  {
    var (a, before, named) := (AnnotsIn(v), StoredAnnots(key, s.objects[key]), s.objects[key].named);
    assert CompleteObject(s.system, key, s.objects[key]);
    if s.system || !o.read || !UpdateRequired(key.kind, before, a) {
      StoredComplete(s, s, key, doc, named);
    } else if ValidAnnots(a) {
      var f := FlagsFor(ChangedKeys(key.kind, before, a));
      if !HasSidecarKey(before) { NewConfigIsReported(key.kind, before, a); }
      MutatedIsComplete(s, key, doc, v, f, o);
    }
  }

  lemma MutatedIsComplete(s: Store, key: Key, doc: Json, v: View, f: Flags, o: Outcomes)
    requires Decode(key.kind, doc) == Some(v) && key in s.objects
    ensures var (before, named) := (StoredAnnots(key, s.objects[key]), s.objects[key].named);
      var (s1, n) := UpdateEffects(s, AnnotsIn(v), f, o);
      Complete(s) && !s.system && ValidAnnots(AnnotsIn(v)) && NamesIn(AnnotsIn(v)) == NamesIn(before)
      && (!HasSidecarKey(before) ==> f.config) && n.Some?
      ==> Complete(Persist(s1, key, UpdatedDoc(key, doc, v, f, n.value, o.env), named))
  {
    var (before, named) := (StoredAnnots(key, s.objects[key]), s.objects[key].named);
    var (s1, n) := UpdateEffects(s, AnnotsIn(v), f, o);
    if Complete(s) && !s.system && ValidAnnots(AnnotsIn(v)) && NamesIn(AnnotsIn(v)) == NamesIn(before)
       && (!HasSidecarKey(before) ==> f.config) && n.Some? {
      assert CompleteObject(s.system, key, s.objects[key]);
      UpdatedIsComplete(key, doc, v, f, n.value, before, o.env, named);
      StoredComplete(s, s1, key, UpdatedDoc(key, doc, v, f, n.value, o.env), named);
    }
  }

  /** An update that leaves an invalid sidecar, or one without a config map, while the stored object
      cannot be read. */
  ghost predicate BreaksSidecar(s: Store, r: Request) {
    && r.Update? && r.key in s.objects && Decode(r.key.kind, r.doc).Some? && !s.system && !r.o.read
    && !CompleteObject(false, r.key, Stored(r.doc, s.objects[r.key].named))
  }

  lemma UpdateIsComplete(s: Store, r: Request)
    requires r.Update? && Complete(s) && Fair(s, r)
    ensures Complete(Admit(s, r).0) <==> !BreaksSidecar(s, r)
  {
    var view := Decode(r.key.kind, r.doc);
    if BreaksSidecar(s, r) {
      var s' := Admit(s, r).0;
      assert s'.objects[r.key] == Stored(r.doc, s.objects[r.key].named);
      assert !CompleteObject(s'.system, r.key, s'.objects[r.key]);
    } else if view.Some? && r.key in s.objects {
      UpdateViewIsComplete(s, r.key, r.doc, view.value, r.o);
    }
  }

  ghost predicate AlwaysComplete(s: Store, requests: seq<Request>)
    decreases |requests|
  {
    Complete(s) && (requests == [] || AlwaysComplete(Admit(s, requests[0]).0, requests[1..]))
  }

  ghost predicate NeverBreaks(s: Store, requests: seq<Request>)
    decreases |requests|
  {
    requests == [] || (!BreaksSidecar(s, requests[0]) && NeverBreaks(Admit(s, requests[0]).0, requests[1..]))
  }

  /** Over any fair run all named sidecars are valid and record a config map all the time exactly if
      no update breaks one. */
  lemma {:induction false} RunIsCompleteIff(s: Store, requests: seq<Request>)
    requires Complete(s) && FairRun(s, requests)
    ensures AlwaysComplete(s, requests) <==> NeverBreaks(s, requests)
    decreases |requests|
  {
    if requests != [] {
      var r := requests[0];
      if r.Create? { CreateIsComplete(s, r); }
      if r.Update? { UpdateIsComplete(s, r); }
      if !BreaksSidecar(s, r) { RunIsCompleteIff(Admit(s, r).0, requests[1..]); }
    }
  }

  lemma {:induction false} CompleteAtTheEnd(s: Store, requests: seq<Request>)
    requires AlwaysComplete(s, requests)
    ensures Complete(Run(s, requests))
    decreases |requests|
  {
    if requests != [] { CompleteAtTheEnd(Admit(s, requests[0]).0, requests[1..]); }
  }

  /** A namespace without objects and without resources of sidecars. */
  ghost predicate Untouched(s: Store) {
    && s.objects == map[]
    && (forall n :: n in s.services ==> s.services[n].Other?)
    && (forall n :: n in s.configMaps ==> s.configMaps[n].owner.Other?)
  }

  /** The object has a live config map, and a live service if it names one, that no other object
      names. */
  ghost predicate OwnsItsResources(s: Store, key: Key)
    requires key in s.objects
  {
    var n := NamesIn(StoredAnnots(key, s.objects[key]));
    && n.configMap in SidecarConfigMaps(s) && (n.service != "" ==> n.service in SidecarServices(s))
    && forall k :: k in s.objects && k != key ==>
         var m := NamesIn(StoredAnnots(k, s.objects[k]));
         m.configMap != n.configMap && (n.service != "" ==> m.service != n.service)
  }

  lemma CompleteOwns(s: Store, key: Key)
    requires Accounted(s) && Complete(s) && key in s.objects
    requires !s.system && s.objects[key].named && HasSidecarKey(StoredAnnots(key, s.objects[key]))
    ensures ValidAnnots(StoredAnnots(key, s.objects[key])) && OwnsItsResources(s, key)
  {
    assert CompleteObject(s.system, key, s.objects[key]);
    var owned := Owned(s);
    var (services, configMaps) := (Services(owned), ConfigMaps(owned));
    assert configMaps[key] in SidecarConfigMaps(s) && (services[key] != "" ==> services[key] in SidecarServices(s));
    forall k | k in s.objects && k != key
      ensures configMaps[k] != configMaps[key] && (services[key] != "" ==> services[k] != services[key])
    {
    }
  }

  /** From an untouched namespace, after any fair run in which no request loses a service or breaks a
      sidecar: every named sidecar is valid and has a live config map, and a live service if it names
      one, of its own, and no other resource of a sidecar exists. */
  lemma EverySidecarOwnsItsResources(s: Store, requests: seq<Request>)
    requires Untouched(s) && FairRun(s, requests) && NeverLoses(s, requests) && NeverBreaks(s, requests)
    ensures var s' := Run(s, requests);
      && Accounted(s')
      && forall key ::
           && key in s'.objects && !s'.system && s'.objects[key].named
           && HasSidecarKey(StoredAnnots(key, s'.objects[key])) ==>
             ValidAnnots(StoredAnnots(key, s'.objects[key])) && OwnsItsResources(s', key)
  {
    UntouchedIsAccounted(s);
    RunIsAccountedIff(s, requests);
    RunIsCompleteIff(s, requests);
    CompleteAtTheEnd(s, requests);
    var s' := Run(s, requests);
    forall key | key in s'.objects && !s'.system && s'.objects[key].named
                 && HasSidecarKey(StoredAnnots(key, s'.objects[key]))
      ensures ValidAnnots(StoredAnnots(key, s'.objects[key])) && OwnsItsResources(s', key)
    {
      CompleteOwns(s', key);
    }
  }

  lemma UntouchedIsAccounted(s: Store)
    requires Untouched(s)
    ensures Accounted(s) && Complete(s)
  {
    assert SidecarServices(s) == {} && SidecarConfigMaps(s) == {};
  }

  // ----- the volume and the annotation

  /** The config map of the volume that the webhook would find. */
  function VolumeIn(spec: map<string, Json>): Option<string> {
    var volumes := ListIn(spec, "volumes");
    if volumes.None? then None
    else
      var i := FirstNamed(volumes.value, VOLUME_NAME);
      if i.None? then None else Some(ConfigMapOf(volumes.value[i.value]))
  }

  function SidecarVolume(v: View): Option<string> {
    VolumeIn(v.spec)
  }

  function ConfigMapOf(volume: Json): string {
    match Member(volume, ["configMap", "name"])
    case Some(JString(name)) => name
    case _ => ""
  }

  predicate Agrees(v: View) {
    SidecarVolume(v) == Some(Indexed(AnnotsIn(v), A.CONFIGMAP))
  }

  lemma VolumeRefers(cmName: string)
    ensures NameOf(Volume(cmName)) == VOLUME_NAME && ConfigMapOf(Volume(cmName)) == cmName
  {
    var m := Volume(cmName).members;
    assert m["configMap"].members["name"] == JString(cmName);
    assert ["configMap", "name"][1..] == ["name"];
    assert Member(m["configMap"], ["name"]) == Some(JString(cmName));
  }

  /** An admitted create mounts the config map that it records, exactly if the object did not bring
      a volume of the sidecar's name that refers to something else: the new one is appended. */
  lemma CreateAgreesIff(key: Key, doc: Json, v: View, n: Names, env: seq<EnvVar>)
    requires Decode(key.kind, doc) == Some(v) && n.configMap != ""
    ensures var after := Decode(key.kind, CreatedDoc(key, doc, v, n, env));
      after.Some? && (Agrees(after.value) <==> SidecarVolume(v) == None || SidecarVolume(v) == Some(n.configMap))
  {
    var (volume, container) := (Volume(n.configMap), SidecarContainer(AppName(key), AnnotsIn(v), env));
    var spec := SpecAfter(v.spec, volume, container, false, true);
    SpecAfterDecodes(v.spec, volume, container, false, true);
    DecodeRewritten(key.kind, doc, v, spec,
      Some(Annotated(AnnotsIn(v), map[A.SERVICE := n.service, A.CONFIGMAP := n.configMap])));
    AnnotatedNames(AnnotsIn(v), n);
    PutFirst(ListIn(v.spec, "volumes").value, volume, false);
    VolumeRefers(n.configMap);
    assert ListIn(spec, "volumes") == Some(Put(ListIn(v.spec, "volumes").value, volume, false));
  }

  /** Which config map is mounted after an admitted update, and which is recorded. */
  lemma UpdatedReferences(key: Key, doc: Json, v: View, f: Flags, n: Names, env: seq<EnvVar>)
    requires Decode(key.kind, doc) == Some(v) && (f.config ==> n.configMap != "")
    ensures var after := Decode(key.kind, UpdatedDoc(key, doc, v, f, n, env));
      && after.Some?
      && SidecarVolume(after.value) == (if f.container && f.config then Some(n.configMap) else SidecarVolume(v))
      && Indexed(AnnotsIn(after.value), A.CONFIGMAP)
           == if f.config then n.configMap else Indexed(AnnotsIn(v), A.CONFIGMAP)
  {
    var (volume, container) := (Volume(n.configMap), SidecarContainer(AppName(key), AnnotsIn(v), env));
    var spec := if f.container then SpecAfter(v.spec, volume, container, true, f.config) else v.spec;
    SpecAfterDecodes(v.spec, volume, container, true, f.config);
    DecodeRewritten(key.kind, doc, v, spec,
      if f.service || f.config then Some(UpdatedAnnots(AnnotsIn(v), f, n)) else None);
    UpdatedNames(AnnotsIn(v), f, n);
    VolumeAfter(v.spec, n.configMap, container, f.config);
  }

  lemma VolumeAfter(spec: map<string, Json>, cmName: string, container: Json, configChanged: bool)
    requires ListIn(spec, "volumes").Some? && ListIn(spec, "containers").Some?
    ensures VolumeIn(SpecAfter(spec, Volume(cmName), container, true, configChanged))
      == if configChanged then Some(cmName) else VolumeIn(spec)
  {
    PutFirst(ListIn(spec, "volumes").value, Volume(cmName), true);
    VolumeRefers(cmName);
    assert ListIn(SpecAfter(spec, Volume(cmName), container, true, configChanged), "volumes") ==
      if configChanged then Some(Put(ListIn(spec, "volumes").value, Volume(cmName), true)) else ListIn(spec, "volumes");
  }

  lemma NewNameDiffers(s: Store, a: A.Annots, f: Flags, o: Outcomes)
    requires Indexed(a, A.CONFIGMAP) in s.configMaps && UpdateEffects(s, a, f, o).1.Some? && f.config
    ensures UpdateEffects(s, a, f, o).1.value.configMap !in {"", Indexed(a, A.CONFIGMAP)}
  {
  }

  /** An admitted update preserves the agreement exactly when the configuration did not change, or
      the image or environment changed with it: an update of the configuration alone records a
      new config map without mounting it, and deletes the one that is mounted. */
  lemma UpdateAgreesIff(s: Store, key: Key, doc: Json, v: View, f: Flags, o: Outcomes)
    requires Decode(key.kind, doc) == Some(v) && Agrees(v)
    requires Indexed(AnnotsIn(v), A.CONFIGMAP) in s.configMaps
    requires UpdateEffects(s, AnnotsIn(v), f, o).1.Some?
    ensures var n := UpdateEffects(s, AnnotsIn(v), f, o).1.value;
      var after := Decode(key.kind, UpdatedDoc(key, doc, v, f, n, o.env));
      after.Some? && (Agrees(after.value) <==> !f.config || f.container)
  {
    if f.config { NewNameDiffers(s, AnnotsIn(v), f, o); }
    UpdatedReferences(key, doc, v, f, UpdateEffects(s, AnnotsIn(v), f, o).1.value, o.env);
  }
}
