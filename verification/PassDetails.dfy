/** What a pass of the reconcile loop writes in detail, and what it leaves as it was. */
module PassDetails {
  import opened Wrappers
  import opened Patching
  import opened Reconciling

  /** The loop keeps all annotations and labels of the deployment that it does not write. */
  lemma PassKeepsAnnotations(s: State, spec: Spec, a: Answers)
    requires Sound(s) && s.deployment.Some?
    ensures var s' := Pass(s, spec, a).0;
      && s'.deployment.Some?
      && var (d, d') := (s.deployment.value, s'.deployment.value);
      && KeptBut(d.labels, d'.labels, {VERSION_LABEL, LANG_LABEL})
      && (d.annots.Some? <==> d'.annots.Some?)
      && (d.annots.Some? ==> KeptBut(d.annots.value, d'.annots.value, {CAUSE}))
  {
  }

  /** It keeps the other config maps, and the other keys of the labelled one. */
  lemma PassKeepsConfigMaps(s: State, spec: Spec, a: Answers, k: string)
    requires Sound(s) && k in s.configMaps
    ensures var s' := Pass(s, spec, a).0;
      && k in s'.configMaps && KeptBut(s.configMaps[k].data, s'.configMaps[k].data, {MASTER_KEY})
      && (k != LabelOf(s) ==> s'.configMaps[k] == s.configMaps[k])
  {
    PartKeeps(s, if a.readDeployment then LabelOf(s) else "", a, k);
  }

  lemma PartKeeps(s: State, cmLabel: string, a: Answers, k: string)
    requires k in s.configMaps
    ensures var s' := ConfigMapPart(s, cmLabel, a).0;
      && k in s'.configMaps && KeptBut(s.configMaps[k].data, s'.configMaps[k].data, {MASTER_KEY})
      && (k != cmLabel ==> s'.configMaps[k] == s.configMaps[k])
  {
  }

  /** A config map whose data change gets a version that was never given out before. */
  lemma NewDataNewVersion(s: State, spec: Spec, a: Answers, k: string)
    requires Sound(s) && Dated(s) && k in s.configMaps
    ensures var s' := Pass(s, spec, a).0;
      k in s'.configMaps && s'.configMaps[k].data != s.configMaps[k].data ==>
        && (forall j :: j in s.configMaps ==> s'.configMaps[k].version != s.configMaps[j].version)
        && (s.deployment.Some? ==> Indexed(s.deployment.value.labels, VERSION_LABEL) != s'.configMaps[k].version)
  {
  }

  /** Nothing but the keys in `written` differs. */
  predicate KeptBut(before: Labels, after: Labels, written: set<string>) {
    && (forall k :: k in before && k !in written ==> k in after && after[k] == before[k])
    && (forall k :: k in after && k !in written ==> k in before)
  }

  /** A pass that is not done leaves the deployment alone; one that is done has written it. */
  lemma OnlyDoneWrites(s: State, spec: Spec, a: Answers)
    requires Sound(s)
    ensures var (s', outcome) := Pass(s, spec, a);
      && (outcome != Done ==> s'.deployment == s.deployment)
      && (outcome == Done ==> s'.deployment.Some? && s'.clock > s.clock)
  {
  }

  /** A pass that has to change the number of replicas changes nothing else of the deployment. */
  lemma ReplicasGoFirst(s: State, spec: Spec, a: Answers)
    requires Sound(s) && s.deployment.Some? && s.deployment.value.replicas != spec.replicas
    ensures var (s', outcome) := Pass(s, spec, a);
      outcome == Done ==> s'.deployment == Some(s.deployment.value.(replicas := spec.replicas))
  {
  }

  /** The deployment that a pass makes. */
  lemma MadeDeployment(s: State, spec: Spec, a: Answers)
    requires Sound(s) && s.deployment.None? && Pass(s, spec, a).1 == Done
    ensures var s' := Pass(s, spec, a).0;
      && s'.deployment.Some?
      && var d := s'.deployment.value;
      && d.replicas == spec.replicas && d.serviceAccount == spec.serviceAccount && d.annots == None
      && d.containers == [Container(spec.image, [EnvVar("LANG", spec.lang)])]
      && d.labels.Keys == {"app", "version", VERSION_LABEL, LANG_LABEL, CM_LABEL}
      && d.labels["app"] == spec.name && d.labels["version"] == "v0.1" && d.labels[LANG_LABEL] == spec.lang
      && d.labels[CM_LABEL] == d.volume && d.volume in s'.configMaps
      && d.labels[VERSION_LABEL] == s'.configMaps[d.volume].version
      && a.merged.Ok? && a.name == Some(d.volume)
      && s'.configMaps[d.volume].data == map["config.yaml" := a.merged.value]
  {
    LabelsApart();
  }

  lemma LabelsApart()
    ensures |{VERSION_LABEL, LANG_LABEL, CM_LABEL, "app", "version"}| == 5
  {
    var i := |"ibm-application-gateway.operator.security.ibm.com/"|;
    assert CM_LABEL[i + 6] == 'M' && VERSION_LABEL[i + 6] == 'V' && LANG_LABEL[i] == 'l';
    assert CM_LABEL[i] == 'c' && VERSION_LABEL[i] == 'c' && |"app"| == 3 && |"version"| == 7;
  }

  // ----- the recorded cause

  /** What is compared, in order: how a difference is told if it is the first one, and if not. */
  datatype Difference = Difference(differs: bool, first: string, more: string)

  function Differences(d: Deployment, spec: Spec, version: string): seq<Difference>
    requires d.containers != []
  {
    var lang := Indexed(d.labels, LANG_LABEL);
    [Difference(Indexed(d.labels, VERSION_LABEL) != version, "Configuration change", ""),
     Difference(lang != spec.lang, "Language changed from " + lang + " to " + spec.lang, ", language change"),
     Difference(d.serviceAccount != spec.serviceAccount,
       "Service account changed from " + d.serviceAccount + " to " + spec.serviceAccount, ", service account change"),
     Difference(d.containers[0].image != spec.image,
       "Image changed from " + d.containers[0].image + " to " + spec.image, ", image change")]
  }

  function Told(ds: seq<Difference>): string {
    if ds == [] then ""
    else if !ds[0].differs then Told(ds[1..])
    else ds[0].first + More(ds[1..])
  }

  function More(ds: seq<Difference>): string {
    if ds == [] then "" else (if ds[0].differs then ds[0].more else "") + More(ds[1..])
  }

  /** The same, gathered from front to back. */
  function Gathered(soFar: string, ds: seq<Difference>): string
    decreases |ds|
  {
    if ds == [] then soFar
    else Gathered(if !ds[0].differs then soFar else if soFar == "" then ds[0].first else soFar + ds[0].more, ds[1..])
  }

  lemma {:induction false} GatheredOnto(soFar: string, ds: seq<Difference>)
    requires soFar != ""
    ensures Gathered(soFar, ds) == soFar + More(ds)
    decreases |ds|
  {
    if ds != [] {
      var more := if ds[0].differs then ds[0].more else "";
      GatheredOnto(soFar + more, ds[1..]);
      assert (soFar + more) + More(ds[1..]) == soFar + (more + More(ds[1..]));
      assert soFar + "" == soFar;
    } else {
      assert soFar + "" == soFar;
    }
  }

  lemma {:induction false} GatheredIsTold(ds: seq<Difference>)
    requires forall i :: 0 <= i < |ds| ==> ds[i].first != ""
    ensures Gathered("", ds) == Told(ds)
    decreases |ds|
  {
    if ds != [] {
      if ds[0].differs { GatheredOnto(ds[0].first, ds[1..]); } else { GatheredIsTold(ds[1..]); }
    }
  }

  lemma FourGathered(v: Difference, l: Difference, sa: Difference, i: Difference)
    ensures Gathered("", [v, l, sa, i]) ==
      var c0 := if v.differs then v.first else "";
      var c1 := if !l.differs then c0 else if c0 == "" then l.first else c0 + l.more;
      var c2 := if !sa.differs then c1 else if c1 == "" then sa.first else c1 + sa.more;
      if !i.differs then c2 else if c2 == "" then i.first else c2 + i.more
  {
    assert [v, l, sa, i][1..] == [l, sa, i] && [l, sa, i][1..] == [sa, i] && [sa, i][1..] == [i] && [i][1..] == [];
    var c0 := if v.differs then v.first else "";
    var c1 := if !l.differs then c0 else if c0 == "" then l.first else c0 + l.more;
    var c2 := if !sa.differs then c1 else if c1 == "" then sa.first else c1 + sa.more;
    var c3 := if !i.differs then c2 else if c2 == "" then i.first else c2 + i.more;
    assert Gathered("", [v, l, sa, i]) == Gathered(c0, [l, sa, i]) == Gathered(c1, [sa, i]);
    assert Gathered(c1, [sa, i]) == Gathered(c2, [i]) == Gathered(c3, []);
  }

  /** The cause tells the first difference in full and names the others behind it. */
  lemma CauseLaw(d: Deployment, spec: Spec, version: string)
    requires d.containers != []
    ensures ChangeCause(d, spec, version) == Told(Differences(d, spec, version))
  {
    var ds := Differences(d, spec, version);
    assert ds == [ds[0], ds[1], ds[2], ds[3]];
    FourGathered(ds[0], ds[1], ds[2], ds[3]);
    GatheredIsTold(ds);
  }

  /** A change of the template records its cause, and sets what is compared and the environment. */
  lemma TemplateIsWritten(s: State, spec: Spec, a: Answers)
    requires Sound(s) && s.deployment.Some? && s.deployment.value.replicas == spec.replicas
    requires Pass(s, spec, a).1 == Done
    ensures var (d, s') := (s.deployment.value, Pass(s, spec, a).0);
      && s'.deployment.Some? && s'.deployment.value.annots.Some?
      && var d' := s'.deployment.value;
      && VERSION_LABEL in d'.labels && CAUSE in d'.annots.value
      && d'.annots.value[CAUSE] == Told(Differences(d, spec, d'.labels[VERSION_LABEL]))
      && (exists k :: k in s'.configMaps && s'.configMaps[k].version == d'.labels[VERSION_LABEL])
      && Indexed(d'.labels, LANG_LABEL) == spec.lang && d'.serviceAccount == spec.serviceAccount
      && d'.containers[0] == Container(spec.image, [EnvVar("LANG", spec.lang)])
      && d'.containers[1..] == d.containers[1..] && d'.replicas == d.replicas
  {
    var (d, d') := (s.deployment.value, Pass(s, spec, a).0.deployment.value);
    LabelsApart();
    var (s1, part) := ConfigMapPart(s, if a.readDeployment then LabelOf(s) else "", a);
    PartIsThere(s, if a.readDeployment then LabelOf(s) else "", a);
    CauseLaw(d, spec, part.current.version);
  }

  lemma PartIsThere(s: State, cmLabel: string, a: Answers)
    ensures var (s1, part) := ConfigMapPart(s, cmLabel, a);
      part.InUse? ==>
        && part.current.name in s1.configMaps && s1.configMaps[part.current.name].version == part.current.version
        && a.merged.Ok? && Indexed(s1.configMaps[part.current.name].data, MASTER_KEY) == a.merged.value
  {
  }

  // ----- agreement and failures

  /** What agreement means. */
  lemma AgreementLaw(s: State, spec: Spec, data: string)
    requires Sound(s)
    ensures Agrees(s, spec, data) <==>
      && s.deployment.Some?
      && var d := s.deployment.value;
      && CM_LABEL in d.labels && d.labels[CM_LABEL] != "" && d.labels[CM_LABEL] in s.configMaps
      && var cm := s.configMaps[d.labels[CM_LABEL]];
      && Indexed(cm.data, "config.yaml") == data && Indexed(d.labels, VERSION_LABEL) == cm.version
      && Indexed(d.labels, LANG_LABEL) == spec.lang && d.serviceAccount == spec.serviceAccount
      && d.replicas == spec.replicas && d.containers[0].image == spec.image
  {
  }

  /** A pass whose merge fails, or that cannot write, changes nothing of what it did not get to. */
  lemma FailuresLaw(s: State, spec: Spec, a: Answers)
    requires Sound(s)
    ensures a.merged.Error? ==> Pass(s, spec, a) == (s, Failed)
    ensures a.merged.Panic? ==> Pass(s, spec, a) == (s, Panicked)
    ensures a.merged.Ok? && LabelOf(s) == "" && (a.name.None? || a.name.value in s.configMaps) ==>
      Pass(s, spec, a) == (s, Failed)
    ensures a.merged.Ok? && a.readDeployment && a.readConfigMap && LabelOf(s) != "" && LabelOf(s) in s.configMaps
            && s.configMaps[LabelOf(s)].data != map[]
            && Indexed(s.configMaps[LabelOf(s)].data, "config.yaml") != a.merged.value && !a.writeConfigMap ==>
      Pass(s, spec, a) == (s, Failed)
    ensures !a.writeDeployment ==> Pass(s, spec, a).1 != Done && Pass(s, spec, a).0.deployment == s.deployment
    ensures !a.writeDeployment && s.deployment.None? && a.readDeployment ==> Pass(s, spec, a).1 in {Failed, Panicked}
  {
  }

  /** A deployment that has to be written and cannot be is reported as a failure. */
  lemma FailedWrite(s: State, spec: Spec, a: Answers)
    requires Sound(s) && s.deployment.Some? && a.readDeployment && !a.writeDeployment
    requires var part := ConfigMapPart(s, LabelOf(s), a).1;
      && part.InUse?
      && var d := s.deployment.value;
      || d.replicas != spec.replicas
      || (d.annots.Some?
          && (|| Indexed(d.labels, VERSION_LABEL) != part.current.version || Indexed(d.labels, LANG_LABEL) != spec.lang
              || d.serviceAccount != spec.serviceAccount || d.containers[0].image != spec.image))
    ensures Pass(s, spec, a).1 == Failed
  {
  }

  /** A deployment that cannot be read costs a config map and is tried again. */
  lemma UnreadDeployment(s: State, spec: Spec, a: Answers)
    requires Sound(s) && !a.readDeployment && a.merged.Ok? && Creatable(s, a)
    ensures var (s', outcome) := Pass(s, spec, a);
      && outcome == Requeue && s'.deployment == s.deployment
      && s'.configMaps.Keys == s.configMaps.Keys + {a.name.value}
      && s'.configMaps[a.name.value].data == map["config.yaml" := a.merged.value]
  {
  }
}
