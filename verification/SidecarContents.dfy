/** What an admitted sidecar runs and mounts, and how changes of its annotations reach it. */
module SidecarContents {
  import opened Wrappers
  import opened Text
  import opened Json
  import opened Patching
  import opened ConfigElements
  import opened Admission
  import opened SidecarLedger
  import opened SidecarSafety
  import A = Annotations

  // ----- the container

  /** `s` is the lower-case word `w`, in any case. */
  predicate SpellsInAnyCase(s: string, w: string) {
    |s| == |w| && forall i :: 0 <= i < |s| ==> s[i] == w[i] || ('A' <= s[i] <= 'Z' && s[i] as int + 32 == w[i] as int)
  }

  lemma LowerSpells(s: string, w: string)
    requires forall i :: 0 <= i < |w| ==> 'a' <= w[i] <= 'z'
    ensures Lower(s) == w <==> SpellsInAnyCase(s, w)
  {
    if Lower(s) == w {
      forall i | 0 <= i < |s|
        ensures s[i] == w[i] || ('A' <= s[i] <= 'Z' && s[i] as int + 32 == w[i] as int)
      {
        assert Lower(s)[i] == w[i];
      }
    }
    if SpellsInAnyCase(s, w) {
      forall i | 0 <= i < |s| ensures Lower(s)[i] == w[i] {
      }
      assert Lower(s) == w;
    }
  }

  lemma PolicyName()
    ensures A.PREFIX + "deployment.imagePullPolicy"
         == "ibm-application-gateway.security.ibm.com/deployment.imagePullPolicy"
  {
  }

  /** The pull policy is what the annotation says, in any case; anything else is "IfNotPresent". */
  lemma PullPolicyLaw(annots: A.Annots)
    ensures var p := Indexed(annots, "ibm-application-gateway.security.ibm.com/deployment.imagePullPolicy");
      && (PullPolicy(annots) == "Never" <==> SpellsInAnyCase(p, "never"))
      && (PullPolicy(annots) == "Always" <==> SpellsInAnyCase(p, "always"))
      && (PullPolicy(annots) == "IfNotPresent" <==> !SpellsInAnyCase(p, "never") && !SpellsInAnyCase(p, "always"))
  {
    PolicyName();
    PolicyFor(annots, Indexed(annots, A.PREFIX + "deployment.imagePullPolicy"));
  }

  lemma PolicyFor(annots: A.Annots, p: string)
    requires p == Indexed(annots, A.PREFIX + "deployment.imagePullPolicy")
    ensures PullPolicy(annots) == "Never" <==> SpellsInAnyCase(p, "never")
    ensures PullPolicy(annots) == "Always" <==> SpellsInAnyCase(p, "always")
    ensures PullPolicy(annots) == "IfNotPresent" <==> !SpellsInAnyCase(p, "never") && !SpellsInAnyCase(p, "always")
  {
    LowerSpells(p, "never");
    LowerSpells(p, "always");
    assert |"Never"| == 5 && |"Always"| == 6 && |"IfNotPresent"| == 12;
  }

  /** The container `c` runs what the annotations ask for, with the variables of `env`. */
  ghost predicate RunsGateway(c: Json, app: string, annots: A.Annots, env: seq<EnvVar>) {
    && Member(c, ["name"]) == Some(JString(app))
    && Member(c, ["image"]) == Some(JString(Indexed(annots, A.IMAGE)))
    && Member(c, ["imagePullPolicy"]) == Some(JString(PullPolicy(annots)))
    && Member(c, ["ports"]) == Some(JArray([JObject(map["containerPort" := JNumber(80)])]))
    && MountsVolume(Member(c, ["volumeMounts"]))
    && HasVariables(Member(c, ["env"]), env)
  }

  /** The one mount is that of the volume that the webhook adds. */
  ghost predicate MountsVolume(mounts: Option<Json>) {
    && mounts.Some? && mounts.value.JArray? && |mounts.value.items| == 1
    && (forall cmName :: Member(mounts.value.items[0], ["name"]) == Member(Volume(cmName), ["name"]))
    && Member(mounts.value.items[0], ["mountPath"]) == Some(JString("/var/iag/config"))
  }

  ghost predicate HasVariables(listed: Option<Json>, env: seq<EnvVar>) {
    && listed.Some? && listed.value.JArray? && |listed.value.items| == |env|
    && forall i :: 0 <= i < |env| ==>
         && Member(listed.value.items[i], ["name"]) == Some(JString(env[i].name))
         && Member(listed.value.items[i], ["value"]) == Some(JString(env[i].value))
  }

  lemma MemberIs(m: map<string, Json>, field: string)
    ensures Member(JObject(m), [field]) == if field in m then Some(m[field]) else None
  {
    assert [field][1..] == [];
  }

  lemma VariablesListed(env: seq<EnvVar>)
    ensures HasVariables(Some(EnvJson(env)), env)
  {
    forall i | 0 <= i < |env|
      ensures Member(EnvJson(env).items[i], ["name"]) == Some(JString(env[i].name))
      ensures Member(EnvJson(env).items[i], ["value"]) == Some(JString(env[i].value))
    {
      MemberIs(EnvJson(env).items[i].members, "name");
      MemberIs(EnvJson(env).items[i].members, "value");
    }
  }

  lemma VolumeMounted(app: string, image: string, policy: string, env: seq<EnvVar>)
    ensures MountsVolume(Member(Container(app, image, policy, env), ["volumeMounts"]))
  {
    var c := Container(app, image, policy, env);
    MemberIs(c.members, "volumeMounts");
    var mount := c.members["volumeMounts"].items[0];
    MemberIs(mount.members, "name");
    MemberIs(mount.members, "mountPath");
    forall cmName ensures Member(Volume(cmName), ["name"]) == Some(JString(VOLUME_NAME)) {
      MemberIs(Volume(cmName).members, "name");
    }
  }

  lemma ContainerLaw(app: string, annots: A.Annots, env: seq<EnvVar>)
    ensures RunsGateway(SidecarContainer(app, annots, env), app, annots, env)
  {
    var c := SidecarContainer(app, annots, env);
    MemberIs(c.members, "name");
    MemberIs(c.members, "image");
    MemberIs(c.members, "imagePullPolicy");
    MemberIs(c.members, "ports");
    MemberIs(c.members, "env");
    VariablesListed(env);
    VolumeMounted(app, Indexed(annots, A.IMAGE), PullPolicy(annots), env);
  }

  /** Where the webhook finds the pod specification. */
  lemma Places()
    ensures Base(Pod) + ["spec"] == ["spec"] && Base(Deployment) + ["spec"] == ["spec", "template", "spec"]
  {
  }

  lemma AppNames(name: string)
    ensures AppName(Key(Deployment, name)) == name + "-ibm-application-gateway-sidecar-pod"
    ensures AppName(Key(Pod, name)) == name + "-pod-ibm-application-gateway-sidecar-pod"
  {
    var rest := "-ibm-application-gateway-sidecar-pod";
    assert "-pod" + rest == "-pod-ibm-application-gateway-sidecar-pod";
    assert name + ("-pod" + rest) == (name + "-pod") + rest;
    assert name + "" == name;
  }

  /** The documented annotations. */
  lemma DocumentedNames()
    ensures A.IMAGE == "ibm-application-gateway.security.ibm.com/deployment.image"
    ensures A.PORT == "ibm-application-gateway.security.ibm.com/service.port"
    ensures A.CONF == "ibm-application-gateway.security.ibm.com/configuration."
    ensures A.ENV == "ibm-application-gateway.security.ibm.com/env."
  {
  }

  /** The annotations that the operator writes, and the volume. */
  lemma OperatorNames()
    ensures A.SERVICE == "ibm-application-gateway.security.ibm.com/serviceName"
    ensures A.CONFIGMAP == "ibm-application-gateway.security.ibm.com/configMapName"
    ensures VOLUME_NAME == "ibm-application-gateway-config"
  {
  }

  // ----- what is decoded, and what is left alone

  /** An annotation is read where it stands in the object. */
  lemma AnnotationIsRead(kind: Kind, doc: Json, v: View, k: string)
    requires Decode(kind, doc) == Some(v)
    ensures Member(doc, ["metadata", "annotations", k])
         == if k in AnnotsIn(v) then Some(JString(AnnotsIn(v)[k])) else None
  {
    MemberIs(doc.members, "metadata");
    assert ["metadata", "annotations", k][1..] == ["annotations", k] && ["annotations", k][1..] == [k];
    assert Member(doc, ["metadata", "annotations", k]) == Member(JObject(v.meta), ["annotations", k]);
    if "annotations" in v.meta {
      assert Member(JObject(v.meta), ["annotations", k]) == Member(v.meta["annotations"], [k]);
      if v.meta["annotations"].JObject? { MemberIs(v.meta["annotations"].members, k); }
    }
  }

  /** Absent and null lists and annotations are empty; anything else of the wrong kind is rejected. */
  lemma WhatDecodes(meta: map<string, Json>, spec: map<string, Json>)
    ensures var doc := JObject(map["metadata" := JObject(meta), "spec" := JObject(spec)]);
      (Decode(Pod, doc).Some? <==>
         && ("volumes" in spec ==> spec["volumes"].JNull? || spec["volumes"].JArray?)
         && ("containers" in spec ==> spec["containers"].JNull? || spec["containers"].JArray?)
         && ("annotations" in meta ==>
               || meta["annotations"].JNull?
               || (meta["annotations"].JObject?
                   && forall k :: k in meta["annotations"].members ==> meta["annotations"].members[k].JString?)))
  {
    var doc := JObject(map["metadata" := JObject(meta), "spec" := JObject(spec)]);
    MemberIs(doc.members, "metadata");
    MemberIs(doc.members, "spec");
    assert Base(Pod) + ["spec"] == ["spec"];
  }

  /** Objects without a name of their own, in ignored namespaces, or without any annotation of a
      sidecar are stored as they are, and nothing is made for them. */
  lemma CreateLeftAlone(s: Store, r: Request, v: View)
    requires r.Create? && Decode(r.key.kind, r.doc) == Some(v)
    requires !r.named || s.system || forall k :: k in AnnotsIn(v) ==> !A.HasPrefix(k, A.PREFIX)
    ensures Admit(s, r) == (s.(objects := s.objects[r.key := Stored(r.doc, r.named)]), true)
  {
  }

  /** So are updates in ignored namespaces, of objects that cannot be read, and those that leave no
      annotation of a sidecar and report none that calls for an update. */
  lemma UpdateLeftAlone(s: Store, r: Request, v: View)
    requires r.Update? && r.key in s.objects && Decode(r.key.kind, r.doc) == Some(v)
    requires || s.system || !r.o.read
             || (&& (forall k :: k in AnnotsIn(v) ==> !A.HasPrefix(k, A.PREFIX))
                 && (forall k :: k in StoredAnnots(r.key, s.objects[r.key]) && CallsForUpdate(r.key.kind, k) ==>
                       StoredAnnots(r.key, s.objects[r.key])[k] == ""))
    ensures Admit(s, r) == (s.(objects := s.objects[r.key := Stored(r.doc, s.objects[r.key].named)]), true)
  {
    var before := StoredAnnots(r.key, s.objects[r.key]);
    if !HasSidecarKey(AnnotsIn(v)) { LastAnnotationsGo(r.key.kind, before, AnnotsIn(v)); }
  }

  /** A delete takes the object away, and in a namespace that is not ignored the service and the
      config map that its annotations name. */
  lemma DeleteLaw(s: Store, r: Request)
    requires r.Delete? && r.key in s.objects
    ensures var (a, s') := (StoredAnnots(r.key, s.objects[r.key]), Admit(s, r).0);
      && s'.objects == s.objects - {r.key}
      && (s.system ==> s'.services == s.services && s'.configMaps == s.configMaps)
      && (!s.system ==>
            && (forall k :: k in s'.services <==> k in s.services && !(k != "" && A.SERVICE in a && a[A.SERVICE] == k))
            && (forall k :: k in s'.configMaps <==>
                  k in s.configMaps && !(k != "" && A.CONFIGMAP in a && a[A.CONFIGMAP] == k)))
  {
    A.OperatorKeys();
  }

  /** A sidecar that is created has an image, and sources that the parser accepts. */
  lemma CreatedIsConfigured(s: Store, r: Request, v: View)
    requires r.Create? && Decode(r.key.kind, r.doc) == Some(v)
    requires r.named && !s.system && HasSidecarKey(AnnotsIn(v)) && Admit(s, r).1
    ensures A.IMAGE in AnnotsIn(v) && AnnotsIn(v)[A.IMAGE] != ""
    ensures Accepts(ConfigOf(AnnotsIn(v)))
  {
  }

  /** So does one that an update leaves, if the webhook looks at it. */
  lemma UpdatedIsConfigured(s: Store, r: Request, v: View, f: Flags)
    requires MutatedBy(s, r, v, f) && Admit(s, r).1
    ensures A.IMAGE in AnnotsIn(v) && AnnotsIn(v)[A.IMAGE] != ""
    ensures Accepts(ConfigOf(AnnotsIn(v)))
  {
  }

  // ----- an admitted create

  /** The lists of an admitted object. */
  ghost function ListOf(key: Key, doc: Json, field: string): seq<Json>
    requires Decode(key.kind, doc).Some? && ListIn(Decode(key.kind, doc).value.spec, field).Some?
  {
    ListIn(Decode(key.kind, doc).value.spec, field).value
  }

  /** After an admitted create the object has its own containers and volumes, and behind them the
      gateway that its annotations ask for and the volume of the new config map. */
  lemma CreatedRunsGateway(s: Store, r: Request, v: View)
    requires r.Create? && Decode(r.key.kind, r.doc) == Some(v)
    requires r.named && !s.system && HasSidecarKey(AnnotsIn(v)) && Admit(s, r).1
    ensures r.key in Admit(s, r).0.objects
    ensures var w := Decode(r.key.kind, Admit(s, r).0.objects[r.key].doc);
      && w.Some? && ListIn(w.value.spec, "containers").Some? && ListIn(w.value.spec, "volumes").Some?
      && (exists c :: RunsGateway(c, AppName(r.key), AnnotsIn(v), r.o.env)
           && ListIn(w.value.spec, "containers").value == ListIn(v.spec, "containers").value + [c])
      && ListIn(w.value.spec, "volumes").value
           == ListIn(v.spec, "volumes").value + [Volume(Indexed(AnnotsIn(w.value), A.CONFIGMAP))]
      && (forall field :: field !in {"containers", "volumes"} ==>
            (field in w.value.spec <==> field in v.spec) && (field in v.spec ==> w.value.spec[field] == v.spec[field]))
  {
    var n := CreateEffects(s, AnnotsIn(v), r.o).1.value;
    var (volume, c) := (Volume(n.configMap), SidecarContainer(AppName(r.key), AnnotsIn(v), r.o.env));
    ContainerLaw(AppName(r.key), AnnotsIn(v), r.o.env);
    CreatedAnnots(r.key, r.doc, v, n, r.o.env);
    AnnotatedNames(AnnotsIn(v), n);
    SpecAfterDecodes(v.spec, volume, c, false, true);
    DecodeRewritten(r.key.kind, r.doc, v, SpecAfter(v.spec, volume, c, false, true),
      Some(Annotated(AnnotsIn(v), map[A.SERVICE := n.service, A.CONFIGMAP := n.configMap])));
    AppendedToBoth(v.spec, volume, c);
  }

  lemma AppendedToBoth(spec: map<string, Json>, volume: Json, c: Json)
    requires ListIn(spec, "volumes").Some? && ListIn(spec, "containers").Some?
    ensures var after := SpecAfter(spec, volume, c, false, true);
      && ListIn(after, "containers") == Some(ListIn(spec, "containers").value + [c])
      && ListIn(after, "volumes") == Some(ListIn(spec, "volumes").value + [volume])
      && forall field :: field !in {"containers", "volumes"} ==>
           (field in after <==> field in spec) && (field in spec ==> after[field] == spec[field])
  {
  }

  // ----- what an update reports

  /** A key is reported exactly if it is one of the sidecar's, and no environment key of a pod, and
      its value differs or is empty before and after. */
  lemma ReportedIff(kind: Kind, before: A.Annots, after: A.Annots, k: string)
    ensures k in ChangedKeys(kind, before, after) <==>
      && "ibm-application-gateway.security.ibm.com/" <= k
      && !(kind == Pod && "ibm-application-gateway.security.ibm.com/env." <= k)
      && (Indexed(before, k) != Indexed(after, k) || (k in after && after[k] == "" && Indexed(before, k) == ""))
  {
    assert A.ENV == "ibm-application-gateway.security.ibm.com/env.";
  }

  /** A changed variable is reported for a deployment and not for a pod. */
  lemma EnvironmentIsReported(before: A.Annots, after: A.Annots, k: string)
    requires A.HasPrefix(k, A.ENV) && Indexed(before, k) != Indexed(after, k)
    ensures k in ChangedKeys(Deployment, before, after) && k !in ChangedKeys(Pod, before, after)
  {
    assert A.PREFIX <= A.ENV;
    assert k[..|A.PREFIX|] == k[..|A.ENV|][..|A.PREFIX|];
  }

  lemma PrefixesApart(k: string)
    ensures !(A.HasPrefix(k, A.CONF) && A.HasPrefix(k, A.PORT)) && !(A.HasPrefix(k, A.CONF) && A.HasPrefix(k, A.IMAGE))
    ensures !(A.HasPrefix(k, A.CONF) && A.HasPrefix(k, A.ENV)) && !(A.HasPrefix(k, A.PORT) && A.HasPrefix(k, A.IMAGE))
    ensures !(A.HasPrefix(k, A.PORT) && A.HasPrefix(k, A.ENV)) && !(A.HasPrefix(k, A.IMAGE) && A.HasPrefix(k, A.ENV))
  {
    var i := |A.PREFIX|;
    assert A.CONF[i] == 'c' && A.PORT[i] == 's' && A.IMAGE[i] == 'd' && A.ENV[i] == 'e';
  }

  /** What one reported key calls for. */
  lemma OneKeyFlags(k: string)
    ensures A.HasPrefix(k, A.CONF) ==> FlagsFor({k}) == Flags(false, true, false)
    ensures A.HasPrefix(k, A.PORT) ==> FlagsFor({k}) == Flags(false, false, true)
    ensures A.HasPrefix(k, A.IMAGE) || A.HasPrefix(k, A.ENV) ==> FlagsFor({k}) == Flags(true, false, false)
    ensures !Important(k) ==> FlagsFor({k}) == Flags(false, false, false)
  {
    PrefixesApart(k);
    assert k in {k};
  }

  /** Several keys call for what each of them does. */
  lemma FlagsAreJoined(a: set<string>, b: set<string>)
    ensures var (f, g, h) := (FlagsFor(a), FlagsFor(b), FlagsFor(a + b));
      h == Flags(f.container || g.container, f.config || g.config, f.service || g.service)
  {
    assert forall k :: k in a ==> k in a + b;
    assert forall k :: k in b ==> k in a + b;
  }

  /** When the last annotation of a sidecar goes, a mutation, which then fails for want of an image,
      is called for exactly if one with the image, the port, a source or a variable had a value;
      for a pod the variables do not count. */
  lemma LastAnnotationsGo(kind: Kind, before: A.Annots, after: A.Annots)
    requires !HasSidecarKey(after)
    ensures UpdateRequired(kind, before, after) <==>
      exists k :: k in before && before[k] != "" && CallsForUpdate(kind, k)
    ensures !ValidAnnots(after)
  {
    A.ImageKey();
    forall k | CallsForUpdate(kind, k) ensures Compared(kind, k) && Important(k) && k !in after {
      HasItsPrefix(k);
    }
  }

  ghost predicate CallsForUpdate(kind: Kind, k: string) {
    || A.HasPrefix(k, A.CONF) || A.HasPrefix(k, A.PORT) || A.HasPrefix(k, A.IMAGE)
    || (kind == Deployment && A.HasPrefix(k, A.ENV))
  }

  lemma HasItsPrefix(k: string)
    requires Important(k)
    ensures A.HasPrefix(k, A.PREFIX)
  {
    forall p | p in {A.CONF, A.PORT, A.IMAGE, A.ENV} && A.HasPrefix(k, p) ensures A.HasPrefix(k, A.PREFIX) {
      assert A.PREFIX <= p;
      assert k[..|A.PREFIX|] == k[..|p|][..|A.PREFIX|];
    }
  }

  // ----- an admitted update

  /** An update of a stored object that the webhook looks at, with its switches. */
  ghost predicate MutatedBy(s: Store, r: Request, v: View, f: Flags) {
    && r.Update? && r.key in s.objects && !s.system && r.o.read && Decode(r.key.kind, r.doc) == Some(v)
    && var before := StoredAnnots(r.key, s.objects[r.key]);
    && UpdateRequired(r.key.kind, before, AnnotsIn(v)) && f == FlagsFor(ChangedKeys(r.key.kind, before, AnnotsIn(v)))
  }

  /** The gateway is the first container of its name. */
  ghost predicate GatewayIsUpdated(before: seq<Json>, after: seq<Json>, app: string, annots: A.Annots,
                                   env: seq<EnvVar>) {
    var found := FirstNamed(before, app);
    exists c :: RunsGateway(c, app, annots, env)
      && after == if found.Some? then before[found.value := c] else before + [c]
  }

  lemma ContainerIsPut(spec: map<string, Json>, volume: Json, app: string, annots: A.Annots, env: seq<EnvVar>,
                       both: bool)
    requires ListIn(spec, "volumes").Some? && ListIn(spec, "containers").Some?
    ensures var after := SpecAfter(spec, volume, SidecarContainer(app, annots, env), true, both);
      && ListIn(after, "containers").Some?
      && GatewayIsUpdated(ListIn(spec, "containers").value, ListIn(after, "containers").value, app, annots, env)
  {
    var c := SidecarContainer(app, annots, env);
    ContainerLaw(app, annots, env);
    assert NameOf(c) == app;
    var after := SpecAfter(spec, volume, c, true, both);
    assert ListIn(after, "containers") == Some(Put(ListIn(spec, "containers").value, c, true));
  }

  /** After an admitted update with a changed image or environment the gateway runs what the
      annotations ask for; after any other the specification is the one that was sent. */
  lemma UpdatedRunsGateway(s: Store, r: Request, v: View, f: Flags)
    requires MutatedBy(s, r, v, f) && Admit(s, r).1
    ensures r.key in Admit(s, r).0.objects
    ensures var w := Decode(r.key.kind, Admit(s, r).0.objects[r.key].doc);
      && w.Some? && ListIn(w.value.spec, "containers").Some?
      && (f.container ==> GatewayIsUpdated(ListIn(v.spec, "containers").value, ListIn(w.value.spec, "containers").value,
                                           AppName(r.key), AnnotsIn(v), r.o.env))
      && (!f.container ==> w.value.spec == v.spec)
  {
    var n := UpdateEffects(s, AnnotsIn(v), f, r.o).1.value;
    StoredSpec(r.key, r.doc, v, f, n, r.o.env);
  }

  lemma StoredSpec(key: Key, doc: Json, v: View, f: Flags, n: Names, env: seq<EnvVar>)
    requires Decode(key.kind, doc) == Some(v)
    ensures var w := Decode(key.kind, UpdatedDoc(key, doc, v, f, n, env));
      && w.Some? && ListIn(w.value.spec, "containers").Some?
      && (f.container ==> GatewayIsUpdated(ListIn(v.spec, "containers").value, ListIn(w.value.spec, "containers").value,
                                           AppName(key), AnnotsIn(v), env))
      && (!f.container ==> w.value.spec == v.spec)
  {
    var (volume, c) := (Volume(n.configMap), SidecarContainer(AppName(key), AnnotsIn(v), env));
    var annots := if f.service || f.config then Some(UpdatedAnnots(AnnotsIn(v), f, n)) else None;
    if f.container {
      SpecAfterDecodes(v.spec, volume, c, true, f.config);
      DecodeRewritten(key.kind, doc, v, SpecAfter(v.spec, volume, c, true, f.config), annots);
      ContainerIsPut(v.spec, volume, AppName(key), AnnotsIn(v), env, f.config);
    } else {
      DecodeRewritten(key.kind, doc, v, v.spec, annots);
    }
  }

  /** Only variables differ, at least one does, and no other annotation of the sidecar is empty: an
      empty one counts as changed by every update. */
  ghost predicate OnlyVariablesDiffer(before: A.Annots, after: A.Annots) {
    && (forall k :: !A.HasPrefix(k, A.ENV) ==> (k in before <==> k in after) && Indexed(before, k) == Indexed(after, k))
    && (exists k :: A.HasPrefix(k, A.ENV) && Indexed(before, k) != Indexed(after, k))
    && (forall k :: k in after && (A.HasPrefix(k, A.CONF) || A.HasPrefix(k, A.PORT) || A.HasPrefix(k, A.IMAGE)) ==>
          after[k] != "")
  }

  lemma VariablesFlags(kind: Kind, before: A.Annots, after: A.Annots)
    requires OnlyVariablesDiffer(before, after)
    ensures FlagsFor(ChangedKeys(kind, before, after)) == Flags(kind == Deployment, false, false)
  {
    var changed := ChangedKeys(kind, before, after);
    forall k | k in changed
      ensures !A.HasPrefix(k, A.CONF) && !A.HasPrefix(k, A.PORT) && !A.HasPrefix(k, A.IMAGE)
      ensures kind == Pod ==> !A.HasPrefix(k, A.ENV)
    {
      ReportedIff(kind, before, after, k);
      PrefixesApart(k);
    }
    var k :| A.HasPrefix(k, A.ENV) && Indexed(before, k) != Indexed(after, k);
    EnvironmentIsReported(before, after, k);
  }

  /** A variable of the gateway for every environment annotation, and for nothing else. */
  lemma VariablesAreThose(annots: A.Annots, env: seq<EnvVar>, name: string, value: string)
    requires ListsEnv(annots, env)
    ensures EnvVar(name, value) in env <==>
      var k := "ibm-application-gateway.security.ibm.com/env." + name; k in annots && annots[k] == value
  {
    var k := A.ENV + name;
    assert k == "ibm-application-gateway.security.ibm.com/env." + name;
    if k in annots && annots[k] == value {
      assert A.HasPrefix(k, A.ENV);
      var e :| e in env && A.ENV + e.name == k;
      assert (A.ENV + e.name)[|A.ENV|..] == e.name && k[|A.ENV|..] == name;
    }
  }

  /** An admitted update of a deployment that changes only variables gives them to the gateway, and
      touches no service and no config map. */
  lemma DeploymentGetsVariables(s: Store, r: Request, v: View, f: Flags)
    requires MutatedBy(s, r, v, f) && Admit(s, r).1 && r.key.kind == Deployment
    requires OnlyVariablesDiffer(StoredAnnots(r.key, s.objects[r.key]), AnnotsIn(v)) && ListsEnv(AnnotsIn(v), r.o.env)
    ensures var s' := Admit(s, r).0;
      && s'.services == s.services && s'.configMaps == s.configMaps && r.key in s'.objects
      && var w := Decode(Deployment, s'.objects[r.key].doc);
      && w.Some? && ListIn(w.value.spec, "containers").Some?
      && GatewayIsUpdated(ListIn(v.spec, "containers").value, ListIn(w.value.spec, "containers").value,
                          AppName(r.key), AnnotsIn(v), r.o.env)
  {
    VariablesFlags(Deployment, StoredAnnots(r.key, s.objects[r.key]), AnnotsIn(v));
    UpdatedRunsGateway(s, r, v, f);
    NoResources(s, r, v, f);
  }

  lemma NoResources(s: Store, r: Request, v: View, f: Flags)
    requires MutatedBy(s, r, v, f) && !f.config && !f.service
    ensures Admit(s, r).0.services == s.services && Admit(s, r).0.configMaps == s.configMaps
  {
  }

  /** The same update of a pod is stored as it was sent. */
  lemma PodKeepsVariables(s: Store, r: Request, v: View, f: Flags)
    requires MutatedBy(s, r, v, f) && Admit(s, r).1 && r.key.kind == Pod
    requires OnlyVariablesDiffer(StoredAnnots(r.key, s.objects[r.key]), AnnotsIn(v))
    ensures Admit(s, r).0 == s.(objects := s.objects[r.key := Stored(r.doc, s.objects[r.key].named)])
  {
    VariablesFlags(Pod, StoredAnnots(r.key, s.objects[r.key]), AnnotsIn(v));
    WithSameMember(r.doc, Base(Pod) + ["spec"]);
    NothingRewritten(r.key, r.doc, v, f, UpdateEffects(s, AnnotsIn(v), f, r.o).1.value, r.o.env);
  }

  lemma NothingRewritten(key: Key, doc: Json, v: View, f: Flags, n: Names, env: seq<EnvVar>)
    requires Decode(key.kind, doc) == Some(v) && f == Flags(false, false, false)
    ensures UpdatedDoc(key, doc, v, f, n, env) == doc
  {
    WithSameMember(doc, Base(key.kind) + ["spec"]);
  }

  // ----- the annotations that are written

  /** Every annotation that is given is written, or taken away if it is given empty; the others stay. */
  lemma AnnotatedAt(current: A.Annots, changes: A.Annots, k: string)
    ensures var after := Annotated(current, changes);
      && (k in changes && changes[k] != "" ==> k in after && after[k] == changes[k])
      && (k in changes && changes[k] == "" ==> k !in after)
      && (k !in changes ==> (k in after <==> k in current) && (k in current ==> after[k] == current[k]))
  {
  }
}
