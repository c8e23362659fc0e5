/** The JSON patches the webhook answers with, and what applying them does to the object. */
module Patching {
  import opened Wrappers
  import opened Text
  import opened Json
  import A = Annotations

  const VOLUME_NAME := "ibm-application-gateway-config"

  datatype EnvVar = EnvVar(name: string, value: string)

  function NameOf(item: Json): string {
    if item.JObject? && "name" in item.members && item.members["name"].JString? then item.members["name"].s else ""
  }

  function Volume(cmName: string): Json {
    JObject(map["name" := JString(VOLUME_NAME), "configMap" := JObject(map["name" := JString(cmName)])])
  }

  function EnvJson(env: seq<EnvVar>): Json {
    JArray(seq(|env|, i requires 0 <= i < |env| =>
      JObject(map["name" := JString(env[i].name), "value" := JString(env[i].value)])))
  }

  function Container(app: string, image: string, policy: string, env: seq<EnvVar>): Json {
    JObject(map[
      "name" := JString(app),
      "image" := JString(image),
      "imagePullPolicy" := JString(policy),
      "ports" := JArray([JObject(map["containerPort" := JNumber(80)])]),
      "volumeMounts" := JArray([
        JObject(map["name" := JString(VOLUME_NAME), "mountPath" := JString("/var/iag/config")])]),
      "env" := EnvJson(env)])
  }

  function Lower(s: string): string {
    seq(|s|, i requires 0 <= i < |s| => if 'A' <= s[i] <= 'Z' then (s[i] - 'A') + 'a' else s[i])
  }

  function PullPolicy(annots: A.Annots): string {
    var p := Lower(Indexed(annots, A.PREFIX + "deployment.imagePullPolicy"));
    if p == "never" then "Never" else if p == "always" then "Always" else "IfNotPresent"
  }

  function SidecarContainer(app: string, annots: A.Annots, env: seq<EnvVar>): Json {
    Container(app, Indexed(annots, A.IMAGE), PullPolicy(annots), env)
  }

  /** `env` lists every environment annotation once, in some order. */
  ghost predicate ListsEnv(annots: A.Annots, env: seq<EnvVar>) {
    && (forall i, j :: 0 <= i < j < |env| ==> env[i].name != env[j].name)
    && (forall e :: e in env ==> A.ENV + e.name in annots && annots[A.ENV + e.name] == e.value)
    && (forall k :: k in annots && A.HasPrefix(k, A.ENV) ==> exists e :: e in env && A.ENV + e.name == k)
  }

  // ----- what should happen to a list

  /** The first item with a given name. */
  function FirstNamed(items: seq<Json>, name: string): (r: Option<nat>)
    ensures r.None? ==> forall i :: 0 <= i < |items| ==> NameOf(items[i]) != name
    ensures r.Some? ==> r.value < |items| && NameOf(items[r.value]) == name
    ensures r.Some? ==> forall i :: 0 <= i < r.value ==> NameOf(items[i]) != name
    decreases |items|
  {
    if items == [] then None
    else if NameOf(items[0]) == name then Some(0)
    else
      var r := FirstNamed(items[1..], name);
      assert forall i :: 0 < i < |items| ==> items[i] == items[1..][i - 1];
      if r.None? then None else Some(r.value + 1)
  }

  /** On update the first item of that name is exchanged in place; otherwise the item goes last. */
  function Put(items: seq<Json>, item: Json, update: bool): seq<Json> {
    var found := FirstNamed(items, NameOf(item));
    if update && found.Some? then items[found.value := item] else items + [item]
  }

  lemma FirstIs(items: seq<Json>, name: string, at: nat)
    requires at < |items| && NameOf(items[at]) == name && forall j :: 0 <= j < at ==> NameOf(items[j]) != name
    ensures FirstNamed(items, name) == Some(at)
  {
    var r := FirstNamed(items, name);
    assert r.Some? && !(r.value < at) && !(at < r.value);
  }

  /** A replaced item is found; an appended one only if there was none of its name before. */
  lemma PutFirst(items: seq<Json>, item: Json, update: bool)
    ensures var (after, found) := (Put(items, item, update), FirstNamed(items, NameOf(item)));
      FirstNamed(after, NameOf(item)) == Some(if found.Some? then found.value else |items|)
      && after[if found.Some? then found.value else |items|]
         == if update || found.None? then item else items[found.value]
  {
    var (after, found) := (Put(items, item, update), FirstNamed(items, NameOf(item)));
    FirstIs(after, NameOf(item), if found.Some? then found.value else |items|);
  }

  /** Of two updates with items of one name only the second is seen. */
  lemma PutTwice(items: seq<Json>, first: Json, second: Json)
    requires NameOf(first) == NameOf(second)
    ensures Put(Put(items, first, true), second, true) == Put(items, second, true)
    ensures Put(items, first, true) == Put(items, second, true) <==> first == second
  {
    PutFirst(items, first, true);
    PutFirst(items, second, true);
  }

  // ----- the operations that make it happen

  function ListPatch(base: seq<string>, field: string, items: seq<Json>, item: Json, update: bool): Patch {
    var found := FirstNamed(items, NameOf(item));
    if update && found.Some? then Patch(Replace, base + ["spec", field, Decimal(found.value)], item)
    else if items == [] then Patch(Add, base + ["spec", field], JArray([item]))
    else Patch(Add, base + ["spec", field, "-"], item)
  }

  /** A list member as it is decoded: absent and null are the empty list, anything else that is
      not an array fails to decode. */
  function ListIn(spec: map<string, Json>, field: string): Option<seq<Json>> {
    if field !in spec || spec[field].JNull? then Some([])
    else if spec[field].JArray? then Some(spec[field].items)
    else None
  }

  lemma ListPatchApplies(doc: Json, base: seq<string>, spec: map<string, Json>, field: string, item: Json, update: bool)
    requires Member(doc, base + ["spec"]) == Some(JObject(spec)) && ListIn(spec, field).Some?
    ensures var items := ListIn(spec, field).value;
      var p := ListPatch(base, field, items, item, update);
      Apply(doc, p.op, p.path, p.value)
        == Some(WithMember(doc, base + ["spec"], JObject(spec[field := JArray(Put(items, item, update))])))
  {
    var items := ListIn(spec, field).value;
    var p := ListPatch(base, field, items, item, update);
    var found := FirstNamed(items, NameOf(item));
    var rest := if update && found.Some? then [field, Decimal(found.value)]
                else if items == [] then [field] else [field, "-"];
    assert p.path == (base + ["spec"]) + rest;
    ApplyBelow(doc, base + ["spec"], p.op, rest, p.value);
    if update && found.Some? {
      DecimalIsIndex(found.value);
      assert rest[1..] == [Decimal(found.value)];
    } else if items == [] {
      assert [] + [item] == [item];
    } else {
      assert rest[1..] == ["-"];
    }
  }

  function SpecAfter(spec: map<string, Json>, volume: Json, container: Json,
      update: bool, configChanged: bool): map<string, Json>
    requires ListIn(spec, "volumes").Some? && ListIn(spec, "containers").Some?
  {
    var withVolume := if !update || configChanged
      then spec["volumes" := JArray(Put(ListIn(spec, "volumes").value, volume, update))] else spec;
    withVolume["containers" := JArray(Put(ListIn(spec, "containers").value, container, update))]
  }

  function ContainerPatches(base: seq<string>, volumes: seq<Json>, containers: seq<Json>,
                            volume: Json, container: Json, update: bool, configChanged: bool): seq<Patch> {
    (if !update || configChanged then [ListPatch(base, "volumes", volumes, volume, update)] else []) +
    [ListPatch(base, "containers", containers, container, update)]
  }

  /** The emitted operations all succeed, in sequence, on any object whose pod specification
      decodes; they change the two lists as `Put` says and nothing else. */
  lemma PatchesApply(doc: Json, base: seq<string>, spec: map<string, Json>, volume: Json, container: Json,
      update: bool, configChanged: bool)
    requires Member(doc, base + ["spec"]) == Some(JObject(spec))
    requires ListIn(spec, "volumes").Some? && ListIn(spec, "containers").Some?
    ensures ApplyAll(doc, ContainerPatches(base, ListIn(spec, "volumes").value, ListIn(spec, "containers").value,
                                           volume, container, update, configChanged))
         == Some(WithMember(doc, base + ["spec"], JObject(SpecAfter(spec, volume, container, update, configChanged))))
  {
    var (volumes, containers) := (ListIn(spec, "volumes").value, ListIn(spec, "containers").value);
    var vp := ListPatch(base, "volumes", volumes, volume, update);
    var cp := ListPatch(base, "containers", containers, container, update);
    var path := base + ["spec"];
    if !update || configChanged {
      var spec1 := spec["volumes" := JArray(Put(volumes, volume, update))];
      var doc1 := WithMember(doc, path, JObject(spec1));
      ListPatchApplies(doc, base, spec, "volumes", volume, update);
      WithMemberTwice(doc, path, JObject(spec1), JObject(SpecAfter(spec, volume, container, update, configChanged)));
      MemberOfWithMember(doc, path, JObject(spec1), []);
      assert path + [] == path;
      assert ListIn(spec1, "containers") == Some(containers);
      ListPatchApplies(doc1, base, spec1, "containers", container, update);
      TwoPatches(doc, vp, cp);
      assert [vp] + [cp] == [vp, cp];
    } else {
      ListPatchApplies(doc, base, spec, "containers", container, update);
      OnePatch(doc, cp);
      assert [] + [cp] == [cp];
    }
  }

  lemma OnePatch(doc: Json, p: Patch)
    ensures ApplyAll(doc, [p]) == Apply(doc, p.op, p.path, p.value)
  {
  }

  lemma TwoPatches(doc: Json, p: Patch, q: Patch)
    ensures ApplyAll(doc, [p, q]) == match Apply(doc, p.op, p.path, p.value)
      case None => None
      case Some(d) => Apply(d, q.op, q.path, q.value)
  {
    assert [p, q][1..] == [q];
    if Apply(doc, p.op, p.path, p.value).Some? { OnePatch(Apply(doc, p.op, p.path, p.value).value, q); }
  }

  /** A later update of the same lists replaces what an earlier one put there. */
  lemma UpdatedAgain(spec: map<string, Json>, volume: Json, first: Json, second: Json, configChanged: bool)
    requires ListIn(spec, "volumes").Some? && ListIn(spec, "containers").Some? && NameOf(first) == NameOf(second)
    ensures var once := SpecAfter(spec, volume, first, true, configChanged);
      && ListIn(once, "volumes").Some? && ListIn(once, "containers").Some?
      && SpecAfter(once, volume, second, true, configChanged) == SpecAfter(spec, volume, second, true, configChanged)
      && (SpecAfter(spec, volume, second, true, configChanged) == once <==> first == second)
  {
    var (volumes, containers) := (ListIn(spec, "volumes").value, ListIn(spec, "containers").value);
    PutTwice(volumes, volume, volume);
    PutTwice(containers, first, second);
    Overwritten(spec, JArray(Put(volumes, volume, true)), JArray(Put(containers, first, true)),
      JArray(Put(containers, second, true)), configChanged);
  }

  lemma Overwritten(spec: map<string, Json>, v: Json, c: Json, c': Json, both: bool)
    ensures var once := (if both then spec["volumes" := v] else spec)["containers" := c];
      var again := (if both then spec["volumes" := v] else spec)["containers" := c'];
      && (if both then once["volumes" := v] else once)["containers" := c'] == again
      && (again == once <==> c == c')
      && ("volumes" in once <==> both || "volumes" in spec)
      && ("volumes" in once ==> once["volumes"] == if both then v else spec["volumes"])
  {
    var once := (if both then spec["volumes" := v] else spec)["containers" := c];
    var again := (if both then spec["volumes" := v] else spec)["containers" := c'];
    assert once["containers"] == c && again["containers"] == c';
  }

  lemma ContainerEnv(app: string, annots: A.Annots, env: seq<EnvVar>, env': seq<EnvVar>)
    ensures var (c, c') := (SidecarContainer(app, annots, env), SidecarContainer(app, annots, env'));
      && NameOf(c) == NameOf(c') == app
      && c' == JObject(c.members["env" := EnvJson(env')])
      && (c == c' <==> env == env')
  {
    var (c, c') := (SidecarContainer(app, annots, env), SidecarContainer(app, annots, env'));
    assert c.members["env"] == EnvJson(env) && c'.members["env"] == EnvJson(env');
    if EnvJson(env) == EnvJson(env') {
      assert |EnvJson(env).items| == |env| && |EnvJson(env').items| == |env'|;
      forall i | 0 <= i < |env| ensures env[i] == env'[i] { SameEnv(env, env', i); }
    }
  }

  lemma SameEnv(env: seq<EnvVar>, env': seq<EnvVar>, i: nat)
    requires i < |env| == |env'| && EnvJson(env).items[i] == EnvJson(env').items[i]
    ensures env[i] == env'[i]
  {
    var (m, m') := (EnvJson(env).items[i].members, EnvJson(env').items[i].members);
    assert m["name"] == m'["name"] && m["value"] == m'["value"];
  }

  lemma {:induction false} CountedOnce<T(!new)>(xs: seq<T>, x: T)
    requires forall i, j :: 0 <= i < j < |xs| ==> xs[i] != xs[j]
    ensures multiset(xs)[x] == if x in xs then 1 else 0
    decreases |xs|
  {
    if xs != [] {
      assert xs == [xs[0]] + xs[1..];
      CountedOnce(xs[1..], x);
    }
  }

  /** Two visits of the environment annotations differ at most in the order. */
  lemma ListingsPermute(annots: A.Annots, env: seq<EnvVar>, env': seq<EnvVar>)
    requires ListsEnv(annots, env) && ListsEnv(annots, env')
    ensures multiset(env) == multiset(env')
  {
    forall e ensures multiset(env)[e] == multiset(env')[e] {
      CountedOnce(env, e);
      CountedOnce(env', e);
      if e in env { ListedInBoth(annots, env, env', e); }
      if e in env' { ListedInBoth(annots, env', env, e); }
    }
  }

  lemma ListedInBoth(annots: A.Annots, env: seq<EnvVar>, env': seq<EnvVar>, e: EnvVar)
    requires ListsEnv(annots, env) && ListsEnv(annots, env') && e in env
    ensures e in env'
  {
    assert A.HasPrefix(A.ENV + e.name, A.ENV);
    var e' :| e' in env' && A.ENV + e'.name == A.ENV + e.name;
    assert (A.ENV + e'.name)[|A.ENV|..] == e'.name && (A.ENV + e.name)[|A.ENV|..] == e.name;
  }

  /** Running an update again on its own result changes nothing exactly if the environment
      annotations are visited in the same order; otherwise the second run reorders the environment
      of the container and changes nothing else. */
  lemma UpdateIsIdempotentIff(spec: map<string, Json>, volume: Json, app: string, annots: A.Annots,
                              env: seq<EnvVar>, env': seq<EnvVar>, configChanged: bool)
    requires ListIn(spec, "volumes").Some? && ListIn(spec, "containers").Some?
    requires ListsEnv(annots, env) && ListsEnv(annots, env')
    ensures var (c, c') := (SidecarContainer(app, annots, env), SidecarContainer(app, annots, env'));
      var once := SpecAfter(spec, volume, c, true, configChanged);
      && ListIn(once, "volumes").Some? && ListIn(once, "containers").Some?
      && var twice := SpecAfter(once, volume, c', true, configChanged);
      && (twice == once <==> env == env')
      && twice == SpecAfter(spec, volume, c', true, configChanged)
      && c' == JObject(c.members["env" := EnvJson(env')]) && multiset(env) == multiset(env')
  {
    ContainerEnv(app, annots, env, env');
    ListingsPermute(annots, env, env');
    UpdatedAgain(spec, volume, SidecarContainer(app, annots, env), SidecarContainer(app, annots, env'), configChanged);
  }

  /** With at most one environment annotation there is only one order. */
  lemma OneOrder(annots: A.Annots, env: seq<EnvVar>, env': seq<EnvVar>)
    requires ListsEnv(annots, env) && ListsEnv(annots, env')
    requires forall j, k :: j in annots && k in annots && A.HasPrefix(j, A.ENV) && A.HasPrefix(k, A.ENV) ==> j == k
    ensures env == env' && |env| <= 1
  {
    ListingsPermute(annots, env, env');
    if |env| > 1 {
      KeyOfEnv(annots, env, 0);
      KeyOfEnv(annots, env, 1);
    }
    assert |multiset(env)| == |env| && |multiset(env')| == |env'|;
    if |env| == 1 { assert env'[0] in multiset(env'); }
  }

  lemma KeyOfEnv(annots: A.Annots, env: seq<EnvVar>, i: nat)
    requires ListsEnv(annots, env) && i < |env|
    ensures var k := A.ENV + env[i].name; k in annots && A.HasPrefix(k, A.ENV) && k[|A.ENV|..] == env[i].name
  {
    assert env[i] in env;
  }

  /** With two of them both orders occur. */
  lemma TwoOrders(x: EnvVar, y: EnvVar)
    requires x.name != y.name
    ensures var annots := map[A.ENV + x.name := x.value, A.ENV + y.name := y.value];
      ListsEnv(annots, [x, y]) && ListsEnv(annots, [y, x]) && [x, y] != [y, x]
  {
    assert (A.ENV + x.name)[|A.ENV|..] == x.name && (A.ENV + y.name)[|A.ENV|..] == y.name;
    assert x in [x, y] && y in [x, y] && x in [y, x] && y in [y, x];
    assert [x, y][0] != [y, x][0];
  }

  // ----- the webhook's code

  method IndexOf(items: seq<Json>, name: string) returns (realIndex: int)
    ensures match FirstNamed(items, name)
      case None => realIndex == -1
      case Some(i) => realIndex == i
  {
    realIndex := -1;
    for index := 0 to |items|
      invariant realIndex == -1 && forall i :: 0 <= i < index ==> NameOf(items[i]) != name
    {
      if NameOf(items[index]) == name {
        realIndex := index;
        break;
      }
    }
  }

  /** One list's part of the patch. */
  method PatchList(base: seq<string>, field: string, items: seq<Json>, item: Json, update: bool) returns (p: Patch)
    ensures p == ListPatch(base, field, items, item, update)
  {
    if update {
      var realIndex := IndexOf(items, NameOf(item));
      if realIndex > -1 {
        return Patch(Replace, base + ["spec", field, Decimal(realIndex)], item);
      }
    }
    if |items| == 0 {
      p := Patch(Add, base + ["spec", field], JArray([item]));
    } else {
      p := Patch(Add, base + ["spec", field, "-"], item);
    }
  }

  /** Collects the environment annotations in whatever order the map yields them. */
  method EnvFrom(annots: A.Annots) returns (env: seq<EnvVar>)
    ensures ListsEnv(annots, env)
  {
    env := [];
    var todo := annots.Keys;
    while todo != {}
      invariant todo <= annots.Keys
      invariant forall i, j :: 0 <= i < j < |env| ==> env[i].name != env[j].name
      invariant forall e :: e in env ==> A.ENV + e.name in annots.Keys - todo && annots[A.ENV + e.name] == e.value
      invariant forall k :: k in annots.Keys - todo && A.HasPrefix(k, A.ENV) ==>
        exists e :: e in env && A.ENV + e.name == k
      decreases todo
    {
      var key :| key in todo;
      if A.HasPrefix(key, A.ENV) {
        var added := EnvVar(key[|A.ENV|..], annots[key]);
        assert A.ENV + added.name == key;
        assert forall e :: e in env ==> A.ENV + e.name != key;
        ghost var before := env;
        env := env + [added];
        assert forall e :: e in before ==> e in env;
        assert added in env;
      }
      todo := todo - {key};
    }
  }

  method AddIAGContainer(volumes: seq<Json>, annots: A.Annots, containers: seq<Json>, base: seq<string>, cmName: string,
                         app: string, update: bool, configChanged: bool)
    returns (patch: Option<seq<Patch>>, ghost env: seq<EnvVar>)
    ensures patch.None? <==> Indexed(annots, A.IMAGE) == ""
    ensures patch.Some? ==> ListsEnv(annots, env)
    ensures patch.Some? ==>
      patch.value == ContainerPatches(base, volumes, containers, Volume(cmName), SidecarContainer(app, annots, env),
        update, configChanged)
  {
    env := [];
    if Indexed(annots, A.IMAGE) == "" { return None, env; }
    var ops: seq<Patch> := [];
    if !update || configChanged {
      var vp := PatchList(base, "volumes", volumes, Volume(cmName), update);
      ops := ops + [vp];
    }
    var envList := EnvFrom(annots);
    var cp := PatchList(base, "containers", containers, SidecarContainer(app, annots, envList), update);
    ops := ops + [cp];
    return Some(ops), envList;
  }

  // ----- the annotations

  /** Empty new values delete a key. */
  function Annotated(current: A.Annots, changes: A.Annots): A.Annots {
    map k | k in current.Keys + changes.Keys && !(k in changes && changes[k] == "") ::
      if k in changes then changes[k] else current[k]
  }

  function AnnotsJson(a: A.Annots): Json {
    JObject(map k | k in a :: JString(a[k]))
  }

  const ANNOTATIONS := ["metadata", "annotations"]

  /** A nil annotation map is added, any other is replaced. */
  method AddAnnotations(current: Option<A.Annots>, changes: A.Annots) returns (annots: A.Annots, patch: Patch)
    ensures annots == Annotated(if current.Some? then current.value else map[], changes)
    ensures patch == Patch(if current.Some? then Replace else Add, ANNOTATIONS, AnnotsJson(annots))
  {
    annots := if current.Some? then current.value else map[];
    ghost var before := annots;
    var todo := changes.Keys;
    while todo != {}
      invariant todo <= changes.Keys
      invariant annots == Annotated(before, map k | k in changes.Keys - todo :: changes[k])
      decreases todo
    {
      var key :| key in todo;
      AnnotatedStep(before, changes, changes.Keys - todo, key);
      assert changes.Keys - (todo - {key}) == (changes.Keys - todo) + {key};
      if changes[key] == "" {
        annots := annots - {key};
      } else {
        annots := annots[key := changes[key]];
      }
      todo := todo - {key};
    }
    assert (map k | k in changes.Keys - todo :: changes[k]) == changes;
    patch := Patch(if current.Some? then Replace else Add, ANNOTATIONS, AnnotsJson(annots));
  }

  lemma AnnotatedStep(current: A.Annots, changes: A.Annots, done: set<string>, key: string)
    requires done <= changes.Keys && key in changes
    ensures
      var before := Annotated(current, map k | k in done :: changes[k]);
      Annotated(current, map k | k in done + {key} :: changes[k])
        == if changes[key] == "" then before - {key} else before[key := changes[key]]
  {
  }

  /** The annotation patch succeeds and changes the annotations alone. */
  lemma AnnotationPatchApplies(doc: Json, meta: map<string, Json>, op: Op, annots: A.Annots)
    requires Member(doc, ["metadata"]) == Some(JObject(meta)) && (op.Replace? ==> "annotations" in meta)
    ensures Apply(doc, op, ANNOTATIONS, AnnotsJson(annots))
         == Some(WithMember(doc, ["metadata"], JObject(meta["annotations" := AnnotsJson(annots)])))
  {
  }
}
