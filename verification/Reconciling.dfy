/** The reconcile loop of the custom resource: what one pass does to the deployment and to its
    config map, and that passes settle. */
module Reconciling {
  import opened Wrappers
  import opened Text
  import opened Patching

  const CM_LABEL := "ibm-application-gateway.operator.security.ibm.com/configMap"
  const VERSION_LABEL := "ibm-application-gateway.operator.security.ibm.com/configVersion"
  const LANG_LABEL := "ibm-application-gateway.operator.security.ibm.com/lang"
  const MASTER_KEY := "config.yaml"
  const CAUSE := "kubernetes.io/change-cause"

  type Labels = map<string, string>

  // ----- what the cluster holds

  /** The parts of the custom resource that the loop compares. */
  datatype Spec = Spec(name: string, replicas: int, lang: string, serviceAccount: string, image: string)

  datatype Container = Container(image: string, env: seq<EnvVar>)

  /** `None` annotations are a nil map; `volume` is the config map that is mounted.  A deployment
      has at least one container. */
  datatype Deployment = Deployment(
    replicas: int,
    annots: Option<Labels>,
    labels: Labels,
    serviceAccount: string,
    containers: seq<Container>,
    volume: string)

  /** Empty data is a nil map: that is what the API server stores it as. */
  datatype ConfigMap = ConfigMap(data: Labels, version: string)

  /** `clock` counts the writes: the API server takes resource versions from it. */
  datatype State = State(deployment: Option<Deployment>, configMaps: map<string, ConfigMap>, clock: nat)

  /** How the cluster answers during one pass: the merged configuration or how the merge ends
      instead, the name it generates for a new config map, and which calls succeed. */
  datatype Answers = Answers(
    merged: Result<string>,
    name: Option<string>,
    readDeployment: bool,
    readConfigMap: bool,
    writeConfigMap: bool,
    writeDeployment: bool)

  /** `Failed` records the error in the status and does not ask for another pass; `Panicked` is an
      assignment into a nil map. */
  datatype Outcome = Done | Requeue | Failed | Panicked

  function LangEnv(lang: string): seq<EnvVar> {
    [EnvVar("LANG", lang)]
  }

  // ----- the config map part of a pass

  datatype Current = Current(name: string, version: string)

  /** The config map in use, or how the pass ends without one. */
  datatype Part = InUse(current: Current) | Ends(outcome: Outcome)

  function CreateConfigMap(s: State, data: string, a: Answers): (State, Part) {
    if !Creatable(s, a) then (s, Ends(Failed))
    else
      var v := Decimal(s.clock + 1);
      (s.(configMaps := s.configMaps[a.name.value := ConfigMap(map[MASTER_KEY := data], v)], clock := s.clock + 1),
       InUse(Current(a.name.value, v)))
  }

  predicate Creatable(s: State, a: Answers) {
    a.name.Some? && a.name.value != "" && a.name.value !in s.configMaps
  }

  /** `cmLabel` names the config map in use; "" when there is no deployment yet, or it has no label.
      One that cannot be read, for whatever reason, is taken for one that is not there. */
  function ConfigMapPart(s: State, cmLabel: string, a: Answers): (State, Part) {
    if a.merged.Error? then (s, Ends(Failed))
    else if a.merged.Panic? then (s, Ends(Panicked))
    else if cmLabel == "" || !a.readConfigMap || cmLabel !in s.configMaps then CreateConfigMap(s, a.merged.value, a)
    else
      var cm := s.configMaps[cmLabel];
      if Indexed(cm.data, MASTER_KEY) == a.merged.value then (s, InUse(Current(cmLabel, cm.version)))
      else if cm.data == map[] then (s, Ends(Panicked))
      else if !a.writeConfigMap then (s, Ends(Failed))
      else
        var v := Decimal(s.clock + 1);
        (s.(configMaps := s.configMaps[cmLabel := ConfigMap(cm.data[MASTER_KEY := a.merged.value], v)],
          clock := s.clock + 1),
         InUse(Current(cmLabel, v)))
  }

  // ----- the deployment part

  function NewDeployment(spec: Spec, c: Current): Deployment {
    Deployment(spec.replicas, None,
      map["app" := spec.name, "version" := "v0.1", VERSION_LABEL := c.version, LANG_LABEL := spec.lang,
        CM_LABEL := c.name],
      spec.serviceAccount, [Container(spec.image, LangEnv(spec.lang))], c.name)
  }

  /** What is compared once the replicas are right; the environment is not. */
  predicate Outdated(d: Deployment, spec: Spec, version: string)
    requires d.containers != []
  {
    || Indexed(d.labels, VERSION_LABEL) != version
    || Indexed(d.labels, LANG_LABEL) != spec.lang
    || d.serviceAccount != spec.serviceAccount
    || d.containers[0].image != spec.image
  }

  function Refreshed(d: Deployment, spec: Spec, version: string, cause: string): Deployment
    requires d.containers != [] && d.annots.Some?
  {
    d.(labels := d.labels[VERSION_LABEL := version][LANG_LABEL := spec.lang],
       serviceAccount := spec.serviceAccount,
       containers := d.containers[0 := Container(spec.image, LangEnv(spec.lang))],
       annots := Some(d.annots.value[CAUSE := cause]))
  }

  function ChangeCause(d: Deployment, spec: Spec, version: string): string
    requires d.containers != []
  {
    var c0 := if Indexed(d.labels, VERSION_LABEL) != version then "Configuration change" else "";
    var c1 := if Indexed(d.labels, LANG_LABEL) == spec.lang then c0
              else if c0 == "" then "Language changed from " + Indexed(d.labels, LANG_LABEL) + " to " + spec.lang
              else c0 + ", language change";
    var c2 := if d.serviceAccount == spec.serviceAccount then c1
              else if c1 == "" then "Service account changed from " + d.serviceAccount + " to " + spec.serviceAccount
              else c1 + ", service account change";
    if d.containers[0].image == spec.image then c2
    else if c2 == "" then "Image changed from " + d.containers[0].image + " to " + spec.image
    else c2 + ", image change"
  }

  ghost predicate Sound(s: State) {
    s.deployment.Some? ==> s.deployment.value.containers != []
  }

  function Written(s: State, d: Deployment): State {
    s.(deployment := Some(d), clock := s.clock + 1)
  }

  function DeploymentPart(s: State, spec: Spec, c: Current, ok: bool): (r: (State, Outcome))
    requires Sound(s)
    ensures Sound(r.0)
  {
    match s.deployment
    case None => if ok then (Written(s, NewDeployment(spec, c)), Done) else (s, Failed)
    case Some(d) =>
      if d.replicas != spec.replicas then
        if ok then (Written(s, d.(replicas := spec.replicas)), Done) else (s, Failed)
      else if !Outdated(d, spec, c.version) then (s, Requeue)
      else if d.annots.None? then (s, Panicked)
      else if ok then (Written(s, Refreshed(d, spec, c.version, ChangeCause(d, spec, c.version))), Done)
      else (s, Failed)
  }

  function LabelOf(s: State): string {
    if s.deployment.None? then "" else Indexed(s.deployment.value.labels, CM_LABEL)
  }

  /** One pass.  A deployment that cannot be read is taken for one without a label. */
  function Pass(s: State, spec: Spec, a: Answers): (r: (State, Outcome))
    requires Sound(s)
    ensures Sound(r.0)
  {
    var (s1, c) := ConfigMapPart(s, if a.readDeployment then LabelOf(s) else "", a);
    if c.Ends? then (s1, c.outcome)
    else if !a.readDeployment then (s1, Requeue)
    else DeploymentPart(s1, spec, c.current, a.writeDeployment)
  }

  // ----- the loop's code

  class Reconciler {
    var deployment: Option<Deployment>
    var configMaps: map<string, ConfigMap>
    var clock: nat

    ghost function Snapshot(): State
      reads this
    {
      State(deployment, configMaps, clock)
    }

    constructor ()
      ensures Snapshot() == State(None, map[], 0)
    {
      deployment, configMaps, clock := None, map[], 0;
    }

    method CreateNewConfigMap(cmLabel: string, a: Answers) returns (c: Part)
      modifies this`configMaps, this`clock
      ensures (Snapshot(), c) == ConfigMapPart(old(Snapshot()), cmLabel, a)
    {
      if a.merged.Error? { return Ends(Failed); }
      if a.merged.Panic? { return Ends(Panicked); }
      var newData := a.merged.value;
      if cmLabel == "" || !a.readConfigMap || cmLabel !in configMaps {
        if a.name.None? || a.name.value == "" || a.name.value in configMaps { return Ends(Failed); }
        clock := clock + 1;
        configMaps := configMaps[a.name.value := ConfigMap(map[MASTER_KEY := newData], Decimal(clock))];
        return InUse(Current(a.name.value, Decimal(clock)));
      }
      var foundMap := configMaps[cmLabel];
      if Indexed(foundMap.data, MASTER_KEY) != newData {
        if foundMap.data == map[] { return Ends(Panicked); }
        if !a.writeConfigMap { return Ends(Failed); }
        foundMap := foundMap.(data := foundMap.data[MASTER_KEY := newData]);
        clock := clock + 1;
        foundMap := foundMap.(version := Decimal(clock));
        configMaps := configMaps[cmLabel := foundMap];
      }
      c := InUse(Current(cmLabel, foundMap.version));
    }

    method Update(dply: Deployment, ok: bool) returns (outcome: Outcome)
      modifies this`deployment, this`clock
      ensures (Snapshot(), outcome) == if ok then (Written(old(Snapshot()), dply), Done) else (old(Snapshot()), Failed)
    {
      if !ok { return Failed; }
      deployment, clock := Some(dply), clock + 1;
      outcome := Done;
    }

    /** Brings the template up to date, and says why. */
    method UpdateTemplate(d: Deployment, spec: Spec, version: string, ok: bool) returns (outcome: Outcome)
      requires d.containers != []
      modifies this`deployment, this`clock
      ensures (Snapshot(), outcome) ==
        if !Outdated(d, spec, version) then (old(Snapshot()), Requeue)
        else if d.annots.None? then (old(Snapshot()), Panicked)
        else if ok then (Written(old(Snapshot()), Refreshed(d, spec, version, ChangeCause(d, spec, version))), Done)
        else (old(Snapshot()), Failed)
    {
      var updateReq, changeCause := false, "";
      if Indexed(d.labels, VERSION_LABEL) != version {
        updateReq, changeCause := true, "Configuration change";
      }
      if Indexed(d.labels, LANG_LABEL) != spec.lang {
        updateReq := true;
        changeCause := if changeCause == ""
                       then "Language changed from " + Indexed(d.labels, LANG_LABEL) + " to " + spec.lang
                       else changeCause + ", language change";
      }
      if d.serviceAccount != spec.serviceAccount {
        updateReq := true;
        changeCause := if changeCause == ""
                       then "Service account changed from " + d.serviceAccount + " to " + spec.serviceAccount
                       else changeCause + ", service account change";
      }
      if d.containers[0].image != spec.image {
        updateReq := true;
        changeCause := if changeCause == "" then "Image changed from " + d.containers[0].image + " to " + spec.image
                       else changeCause + ", image change";
      }
      if !updateReq { return Requeue; }
      var dply := d.(labels := d.labels[VERSION_LABEL := version]);
      dply := dply.(labels := dply.labels[LANG_LABEL := spec.lang]);
      dply := dply.(serviceAccount := spec.serviceAccount);
      dply := dply.(containers := dply.containers[0 := dply.containers[0].(image := spec.image)]);
      dply := dply.(containers := dply.containers[0 := dply.containers[0].(env := LangEnv(spec.lang))]);
      if dply.annots.None? { return Panicked; }
      dply := dply.(annots := Some(dply.annots.value[CAUSE := changeCause]));
      assert dply.containers == Refreshed(d, spec, version, changeCause).containers;
      outcome := Update(dply, ok);
    }

    method Reconcile(spec: Spec, a: Answers) returns (outcome: Outcome)
      requires Sound(Snapshot())
      modifies this
      ensures (Snapshot(), outcome) == Pass(old(Snapshot()), spec, a)
    {
      var cmLabel := "";
      if a.readDeployment && deployment.Some? { cmLabel := Indexed(deployment.value.labels, CM_LABEL); }
      var c := CreateNewConfigMap(cmLabel, a);
      if c.Ends? { return c.outcome; }
      if !a.readDeployment { return Requeue; }
      if deployment.None? {
        outcome := Update(NewDeployment(spec, c.current), a.writeDeployment);
      } else if spec.replicas != deployment.value.replicas {
        outcome := Update(deployment.value.(replicas := spec.replicas), a.writeDeployment);
      } else {
        outcome := UpdateTemplate(deployment.value, spec, c.current.version, a.writeDeployment);
      }
    }
  }

  // ----- settling

  /** Deployment and config map agree with the custom resource and its merged sources. */
  ghost predicate Agrees(s: State, spec: Spec, data: string)
    requires Sound(s)
  {
    s.deployment.Some? &&
    var (d, cmLabel) := (s.deployment.value, LabelOf(s));
    && cmLabel != "" && cmLabel in s.configMaps && Indexed(s.configMaps[cmLabel].data, MASTER_KEY) == data
    && d.replicas == spec.replicas && !Outdated(d, spec, s.configMaps[cmLabel].version)
  }

  /** Every call succeeds, and a generated name is new. */
  predicate Clean(s: State, data: string, a: Answers) {
    && a.merged == Ok(data) && a.readDeployment && a.readConfigMap && a.writeConfigMap && a.writeDeployment
    && a.name.Some? && a.name.value != "" && a.name.value !in s.configMaps
  }

  /** The API server has given out no version later than its clock. */
  ghost predicate Dated(s: State) {
    forall n :: n > s.clock ==>
      && (forall k :: k in s.configMaps ==> s.configMaps[k].version != Decimal(n))
      && (s.deployment.Some? ==> Indexed(s.deployment.value.labels, VERSION_LABEL) != Decimal(n))
  }

  /** The config map or the template is behind. */
  ghost predicate Stale(s: State, spec: Spec, data: string)
    requires Sound(s) && s.deployment.Some?
  {
    var current := LabelOf(s);
    !(current in s.configMaps && Indexed(s.configMaps[current].data, MASTER_KEY) == data
      && !Outdated(s.deployment.value, spec, s.configMaps[current].version))
  }

  /** What it takes to settle: no deployment yet; or one whose labelled config map exists and is
      not emptied, and whose annotations, if the template has to change, are not nil. */
  ghost predicate CanSettle(s: State, spec: Spec, data: string)
    requires Sound(s)
  {
    s.deployment.Some? ==>
      && LabelOf(s) != "" && LabelOf(s) in s.configMaps
      && (s.configMaps[LabelOf(s)].data != map[] || data == "")
      && (s.deployment.value.annots.Some? || !Stale(s, spec, data))
  }

  /** How many clean passes are still needed. */
  ghost function Mismatch(s: State, spec: Spec, data: string): (n: nat)
    requires Sound(s)
    ensures n <= 2
    ensures CanSettle(s, spec, data) ==> (n == 0 <==> Agrees(s, spec, data))
  {
    if s.deployment.None? then 1
    else (if s.deployment.value.replicas != spec.replicas then 1 else 0) + (if Stale(s, spec, data) then 1 else 0)
  }

  // ----- one pass

  /** The deployment never changes its config map, neither the label nor the volume, and a new one
      mounts the config map of its label. */
  lemma PassKeeps(s: State, spec: Spec, a: Answers)
    requires Sound(s)
    ensures var s' := Pass(s, spec, a).0;
      && (s.deployment.Some? ==>
            && s'.deployment.Some? && LabelOf(s') == LabelOf(s)
            && s'.deployment.value.volume == s.deployment.value.volume
            && s'.deployment.value.containers[1..] == s.deployment.value.containers[1..])
      && (s.deployment.None? && s'.deployment.Some? ==> s'.deployment.value.volume == LabelOf(s'))
  {
  }

  lemma LaterDiffers(m: nat, n: nat)
    requires m != n
    ensures Decimal(m) != Decimal(n)
  {
    DecimalValue(m);
    DecimalValue(n);
  }

  lemma PassIsDated(s: State, spec: Spec, a: Answers)
    requires Sound(s) && Dated(s)
    ensures Dated(Pass(s, spec, a).0)
  {
    var current := if a.readDeployment then LabelOf(s) else "";
    var (s1, c) := ConfigMapPart(s, current, a);
    ConfigMapPartIsDated(s, current, a);
    if c.InUse? && a.readDeployment { DeploymentPartIsDated(s1, spec, c.current, a.writeDeployment); }
  }

  lemma ConfigMapPartIsDated(s: State, current: string, a: Answers)
    requires Dated(s)
    ensures var (s1, c) := ConfigMapPart(s, current, a);
      Dated(s1) && (c.InUse? ==> forall n :: n > s1.clock ==> c.current.version != Decimal(n))
  {
    var (s1, c) := ConfigMapPart(s, current, a);
    forall n | n > s1.clock
      ensures forall k :: k in s1.configMaps ==> s1.configMaps[k].version != Decimal(n)
      ensures c.InUse? ==> c.current.version != Decimal(n)
    {
      if s1.clock != s.clock { LaterDiffers(s.clock + 1, n); }
    }
  }

  lemma DeploymentPartIsDated(s: State, spec: Spec, c: Current, ok: bool)
    requires Sound(s) && Dated(s) && forall n :: n > s.clock ==> c.version != Decimal(n)
    ensures Dated(DeploymentPart(s, spec, c, ok).0)
  {
  }

  /** Sources that do not change: the merge yields `data`, unless it fails. */
  predicate Serves(a: Answers, data: string) {
    !a.merged.Ok? || a.merged == Ok(data)
  }

  /** The labelled config map cannot be read, and the pass gets as far as writing the version of the
      one made in its place into the template. */
  ghost predicate Stray(s: State, spec: Spec, a: Answers)
    requires Sound(s)
  {
    && s.deployment.Some? && a.readDeployment && LabelOf(s) != "" && !a.readConfigMap
    && a.merged.Ok? && Creatable(s, a)
    && s.deployment.value.replicas == spec.replicas && s.deployment.value.annots.Some? && a.writeDeployment
  }

  /** What is written is never empty. */
  lemma PassFills(s: State, spec: Spec, a: Answers)
    requires Sound(s)
    ensures forall k :: k in Pass(s, spec, a).0.configMaps ==>
      (k in s.configMaps && Pass(s, spec, a).0.configMaps[k] == s.configMaps[k])
      || MASTER_KEY in Pass(s, spec, a).0.configMaps[k].data
  {
  }

  lemma CanStillSettle(s: State, spec: Spec, data: string, a: Answers)
    requires Sound(s) && Dated(s) && CanSettle(s, spec, data) && Serves(a, data)
    ensures CanSettle(Pass(s, spec, a).0, spec, data)
  {
    PassFills(s, spec, a);
  }

  /** A pass undoes what has been settled exactly if it is a stray one; whether the cluster can
      settle is not affected by any failure. */
  lemma PassHurtsIff(s: State, spec: Spec, data: string, a: Answers)
    requires Sound(s) && Dated(s) && CanSettle(s, spec, data) && Serves(a, data)
    ensures var s' := Pass(s, spec, a).0;
      && CanSettle(s', spec, data)
      && (Mismatch(s', spec, data) > Mismatch(s, spec, data) <==> Agrees(s, spec, data) && Stray(s, spec, a))
      && (Stray(s, spec, a) ==> Mismatch(s', spec, data) == 1)
  {
    CanStillSettle(s, spec, data, a);
  }

  /** A clean pass over a state that can settle brings it closer, or leaves it alone if it has. */
  lemma CleanPassSettles(s: State, spec: Spec, data: string, a: Answers)
    requires Sound(s) && Dated(s) && CanSettle(s, spec, data) && Clean(s, data, a)
    ensures var (s', outcome) := Pass(s, spec, a);
      && (Agrees(s, spec, data) ==> s' == s && outcome == Requeue)
      && (!Agrees(s, spec, data) ==> s' != s && outcome == Done && Mismatch(s', spec, data) < Mismatch(s, spec, data))
  {
  }

  /** A state that cannot settle stays one, unless the API server happens to generate the missing
      name. */
  lemma StuckStays(s: State, spec: Spec, data: string, a: Answers)
    requires Sound(s) && Dated(s) && !CanSettle(s, spec, data) && Serves(a, data) && a.name != Some(LabelOf(s))
    ensures !CanSettle(Pass(s, spec, a).0, spec, data) && LabelOf(Pass(s, spec, a).0) == LabelOf(s)
  {
  }

  /** A deployment fresh from the loop has no annotations: until somebody adds one, any change of
      the template ends in a panic. */
  lemma NewDeploymentIsStuck(s: State, spec: Spec, data: string, a: Answers, spec': Spec, data': string, b: Answers)
    requires Sound(s) && Dated(s) && s.deployment.None? && Clean(s, data, a) && spec'.replicas == spec.replicas
    requires var s' := Pass(s, spec, a).0; Stale(s', spec', data') && Clean(s', data', b)
    ensures var s' := Pass(s, spec, a).0;
      Agrees(s', spec, data) && !CanSettle(s', spec', data') && Pass(s', spec', b).1 == Panicked
  {
    PassIsDated(s, spec, a);
  }

  // ----- runs

  ghost function Passes(s: State, spec: Spec, answers: seq<Answers>): (r: State)
    requires Sound(s)
    ensures Sound(r)
    decreases |answers|
  {
    if answers == [] then s else Passes(Pass(s, spec, answers[0]).0, spec, answers[1..])
  }

  /** How many passes of a run are clean, and how many change anything. */
  ghost function CleanCount(s: State, spec: Spec, data: string, answers: seq<Answers>): nat
    requires Sound(s)
    decreases |answers|
  {
    if answers == [] then 0
    else (if Clean(s, data, answers[0]) then 1 else 0)
           + CleanCount(Pass(s, spec, answers[0]).0, spec, data, answers[1..])
  }

  ghost function ChangeCount(s: State, spec: Spec, answers: seq<Answers>): nat
    requires Sound(s)
    decreases |answers|
  {
    if answers == [] then 0
    else (if Pass(s, spec, answers[0]).0 != s then 1 else 0)
           + ChangeCount(Pass(s, spec, answers[0]).0, spec, answers[1..])
  }

  ghost predicate Steady(answers: seq<Answers>, data: string) {
    forall a :: a in answers ==> Serves(a, data)
  }

  ghost function StrayCount(s: State, spec: Spec, answers: seq<Answers>): nat
    requires Sound(s)
    decreases |answers|
  {
    if answers == [] then 0
    else (if Stray(s, spec, answers[0]) then 1 else 0) + StrayCount(Pass(s, spec, answers[0]).0, spec, answers[1..])
  }

  /** Without stray passes, clean ones use the mismatch up. */
  lemma {:induction false} RunSettles(s: State, spec: Spec, data: string, answers: seq<Answers>)
    requires Sound(s) && Dated(s) && CanSettle(s, spec, data) && Steady(answers, data)
    ensures var end := Passes(s, spec, answers);
      && Dated(end) && CanSettle(end, spec, data)
      && (StrayCount(s, spec, answers) == 0 ==>
            Mismatch(end, spec, data) == 0
            || Mismatch(end, spec, data) + CleanCount(s, spec, data, answers) <= Mismatch(s, spec, data))
    decreases |answers|
  {
    if answers != [] {
      var (a, s') := (answers[0], Pass(s, spec, answers[0]).0);
      PassIsDated(s, spec, a);
      PassHurtsIff(s, spec, data, a);
      if Clean(s, data, a) { CleanPassSettles(s, spec, data, a); }
      RunSettles(s', spec, data, answers[1..]);
    }
  }

  lemma {:induction false} RunStuck(s: State, spec: Spec, data: string, answers: seq<Answers>)
    requires Sound(s) && Dated(s) && !CanSettle(s, spec, data) && Steady(answers, data)
    requires forall a :: a in answers ==> a.name != Some(LabelOf(s))
    ensures var end := Passes(s, spec, answers);
      Dated(end) && !CanSettle(end, spec, data) && LabelOf(end) == LabelOf(s)
    decreases |answers|
  {
    if answers != [] {
      PassIsDated(s, spec, answers[0]);
      StuckStays(s, spec, data, answers[0]);
      RunStuck(Pass(s, spec, answers[0]).0, spec, data, answers[1..]);
    }
  }

  lemma {:induction false} PassesConcat(s: State, spec: Spec, before: seq<Answers>, after: seq<Answers>)
    requires Sound(s)
    ensures Passes(s, spec, before + after) == Passes(Passes(s, spec, before), spec, after)
    decreases |before|
  {
    if before == [] {
      assert before + after == after;
    } else {
      assert (before + after)[0] == before[0] && (before + after)[1..] == before[1..] + after;
      PassesConcat(Pass(s, spec, before[0]).0, spec, before[1..], after);
    }
  }

  /** With the custom resource and the merged sources fixed, two clean passes after the last stray
      one settle the cluster, whatever else fails before, between and after them, exactly if it can
      settle at all. */
  lemma SettlesIff(s: State, spec: Spec, data: string, before: seq<Answers>, after: seq<Answers>)
    requires Sound(s) && Dated(s) && Steady(before, data) && Steady(after, data)
    requires var mid := Passes(s, spec, before);
      StrayCount(mid, spec, after) == 0 && CleanCount(mid, spec, data, after) >= 2
    requires forall a :: a in before || a in after ==> a.name != Some(LabelOf(s))
    ensures Agrees(Passes(s, spec, before + after), spec, data) <==> CanSettle(s, spec, data)
  {
    PassesConcat(s, spec, before, after);
    var mid := Passes(s, spec, before);
    if CanSettle(s, spec, data) {
      RunSettles(s, spec, data, before);
      RunSettles(mid, spec, data, after);
    } else {
      RunStuck(s, spec, data, before);
      RunStuck(mid, spec, data, after);
    }
  }

  /** When nothing fails at most two passes change the cluster, and once it agrees none does. */
  lemma {:induction false} AtMostTwoChanges(s: State, spec: Spec, data: string, answers: seq<Answers>)
    requires Sound(s) && Dated(s) && CanSettle(s, spec, data) && CleanCount(s, spec, data, answers) == |answers|
    ensures ChangeCount(s, spec, answers) <= Mismatch(s, spec, data) <= 2
    ensures Agrees(s, spec, data) ==> Passes(s, spec, answers) == s
    decreases |answers|
  {
    if answers != [] {
      CleanAtMostAll(Pass(s, spec, answers[0]).0, spec, data, answers[1..]);
      PassIsDated(s, spec, answers[0]);
      PassHurtsIff(s, spec, data, answers[0]);
      CleanPassSettles(s, spec, data, answers[0]);
      AtMostTwoChanges(Pass(s, spec, answers[0]).0, spec, data, answers[1..]);
    }
  }

  lemma {:induction false} CleanAtMostAll(s: State, spec: Spec, data: string, answers: seq<Answers>)
    requires Sound(s)
    ensures CleanCount(s, spec, data, answers) <= |answers|
    decreases |answers|
  {
    if answers != [] { CleanAtMostAll(Pass(s, spec, answers[0]).0, spec, data, answers[1..]); }
  }

  // ----- the environment

  predicate EnvRight(s: State, spec: Spec)
    requires Sound(s)
  {
    s.deployment.Some? && s.deployment.value.containers[0].env == LangEnv(spec.lang)
  }

  ghost predicate EnvWillBeRight(s: State, spec: Spec, data: string)
    requires Sound(s)
  {
    s.deployment.None? || EnvRight(s, spec) || Stale(s, spec, data)
  }

  lemma PassKeepsEnv(s: State, spec: Spec, data: string, a: Answers)
    requires Sound(s) && Dated(s) && CanSettle(s, spec, data) && Serves(a, data)
    ensures EnvWillBeRight(Pass(s, spec, a).0, spec, data) <==> EnvWillBeRight(s, spec, data) || Stray(s, spec, a)
  {
    PassIsDated(s, spec, a);
  }

  /** The environment is written only together with the rest of the template: after settling it
      holds the language exactly if the deployment was new, had it already, was behind in something
      that is compared, or was rewritten by a stray pass. */
  lemma {:induction false} EnvIsRightIff(s: State, spec: Spec, data: string, answers: seq<Answers>)
    requires Sound(s) && Dated(s) && CanSettle(s, spec, data) && Steady(answers, data)
    requires Agrees(Passes(s, spec, answers), spec, data)
    ensures EnvRight(Passes(s, spec, answers), spec)
       <==> EnvWillBeRight(s, spec, data) || StrayCount(s, spec, answers) > 0
    decreases |answers|
  {
    if answers != [] {
      PassIsDated(s, spec, answers[0]);
      PassHurtsIff(s, spec, data, answers[0]);
      PassKeepsEnv(s, spec, data, answers[0]);
      EnvIsRightIff(Pass(s, spec, answers[0]).0, spec, data, answers[1..]);
    }
  }

  // ----- config maps that are left behind

  /** The pass makes a new config map: there is no labelled one, or it could not be read. */
  ghost predicate MakesConfigMap(s: State, a: Answers) {
    && a.merged.Ok? && Creatable(s, a)
    && (!a.readDeployment || LabelOf(s) == "" || !a.readConfigMap || LabelOf(s) !in s.configMaps)
  }

  ghost function MadeCount(s: State, spec: Spec, answers: seq<Answers>): nat
    requires Sound(s)
    decreases |answers|
  {
    if answers == [] then 0
    else (if MakesConfigMap(s, answers[0]) then 1 else 0) + MadeCount(Pass(s, spec, answers[0]).0, spec, answers[1..])
  }

  /** Nothing is ever deleted: over any run the config maps grow by one for every pass that found no
      labelled config map or could not read it or the deployment. */
  lemma {:induction false} ConfigMapsGrow(s: State, spec: Spec, answers: seq<Answers>)
    requires Sound(s)
    ensures |Passes(s, spec, answers).configMaps| == |s.configMaps| + MadeCount(s, spec, answers)
    decreases |answers|
  {
    if answers != [] {
      PassGrows(s, spec, answers[0]);
      ConfigMapsGrow(Pass(s, spec, answers[0]).0, spec, answers[1..]);
    }
  }

  lemma PassGrows(s: State, spec: Spec, a: Answers)
    requires Sound(s)
    ensures |Pass(s, spec, a).0.configMaps| == |s.configMaps| + if MakesConfigMap(s, a) then 1 else 0
  {
    PassKeys(s, spec, a);
    MoreKeys(s.configMaps, Pass(s, spec, a).0.configMaps, if MakesConfigMap(s, a) then {a.name.value} else {});
  }

  lemma PassKeys(s: State, spec: Spec, a: Answers)
    requires Sound(s)
    ensures Pass(s, spec, a).0.configMaps.Keys
              == s.configMaps.Keys + if MakesConfigMap(s, a) then {a.name.value} else {}
  {
    PartKeys(s, a);
  }

  lemma PartKeys(s: State, a: Answers)
    ensures ConfigMapPart(s, if a.readDeployment then LabelOf(s) else "", a).0.configMaps.Keys
         == s.configMaps.Keys + if MakesConfigMap(s, a) then {a.name.value} else {}
  {
  }

  lemma MoreKeys(before: map<string, ConfigMap>, after: map<string, ConfigMap>, extra: set<string>)
    requires after.Keys == before.Keys + extra && extra !! before.Keys
    ensures |after| == |before| + |extra|
  {
    assert |after.Keys| == |before.Keys| + |extra|;
  }

  ghost predicate LabelLost(s: State) {
    s.deployment.Some? && LabelOf(s) !in s.configMaps
  }

  /** Without the labelled config map every clean pass makes one more. */
  lemma {:induction false} LostLabelLeaks(s: State, spec: Spec, data: string, answers: seq<Answers>)
    requires Sound(s) && LabelLost(s) && forall a :: a in answers ==> a.name != Some(LabelOf(s))
    ensures LabelLost(Passes(s, spec, answers))
    ensures MadeCount(s, spec, answers) >= CleanCount(s, spec, data, answers)
    ensures |Passes(s, spec, answers).configMaps| >= |s.configMaps| + CleanCount(s, spec, data, answers)
    decreases |answers|
  {
    ConfigMapsGrow(s, spec, answers);
    if answers != [] {
      LabelStaysLost(s, spec, answers[0]);
      LostLabelLeaks(Pass(s, spec, answers[0]).0, spec, data, answers[1..]);
    }
  }

  lemma LabelStaysLost(s: State, spec: Spec, a: Answers)
    requires Sound(s) && LabelLost(s) && a.name != Some(LabelOf(s))
    ensures var s' := Pass(s, spec, a).0; LabelLost(s') && LabelOf(s') == LabelOf(s)
  {
  }

  // ----- concrete clusters

  function ExampleDeployment(version: string, env: string): Deployment {
    Deployment(1, Some(map[]), map[CM_LABEL := "gw-1", VERSION_LABEL := version, LANG_LABEL := "en"],
      "sa", [Container("iag:1", LangEnv(env))], "gw-1")
  }

  const EXAMPLE_SPEC := Spec("gw", 1, "en", "sa", "iag:1")

  function ExampleState(env: string): State {
    State(Some(ExampleDeployment("7", env)), map["gw-1" := ConfigMap(map[MASTER_KEY := "x"], "7")], 7)
  }

  function ExampleAnswers(name: string, read: bool): Answers {
    Answers(Ok("x"), Some(name), true, read, true, true)
  }

  /** One failed read of the config map undoes a settled cluster and leaves a config map behind. */
  lemma FailedReadUnsettles()
    ensures var (s, a) := (ExampleState("en"), ExampleAnswers("gw-2", false));
      var s' := Pass(s, EXAMPLE_SPEC, a).0;
      && Agrees(s, EXAMPLE_SPEC, "x") && CanSettle(s, EXAMPLE_SPEC, "x") && Stray(s, EXAMPLE_SPEC, a)
      && !Agrees(s', EXAMPLE_SPEC, "x") && s'.configMaps.Keys == {"gw-1", "gw-2"}
      && Indexed(s'.deployment.value.labels, VERSION_LABEL) == s'.configMaps["gw-2"].version
      && s'.deployment.value.volume == "gw-1"
  {
    assert Decimal(8) == "8" && Decimal(9) == "9";
    assert MASTER_KEY in ExampleState("en").configMaps["gw-1"].data;
  }

  /** A deployment whose environment was edited stays as it is once everything that is compared
      agrees. */
  lemma WrongLanguageStays(name: string)
    requires name !in {"", "gw-1"}
    ensures var (s, a) := (ExampleState("de"), ExampleAnswers(name, true));
      && Agrees(s, EXAMPLE_SPEC, "x") && !EnvRight(s, EXAMPLE_SPEC) && Clean(s, "x", a)
      && Pass(s, EXAMPLE_SPEC, a) == (s, Requeue)
  {
    assert LangEnv("de")[0].value != LangEnv("en")[0].value;
  }
}
