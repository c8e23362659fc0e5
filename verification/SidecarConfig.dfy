/** What the config map of a sidecar holds: the merge of the sources that its annotations describe. */
module SidecarConfig {
  import opened Wrappers
  import T = Trees
  import opened Sources
  import opened ConfigElements
  import opened ConfigOrder
  import opened Drivers
  import opened ConfigTexts
  import opened Admission
  import opened SidecarLedger
  import opened Webhook
  import R = Registration
  import A = Annotations

  /** The sources' surroundings during one request, and how a configuration is printed. */
  datatype Surroundings = Surroundings(w: World, secrets: Secrets, r: R.Replies, p: Printer)

  /** The merge the webhook calls is the sidecar's driver. */
  ghost predicate MergesSources(ans: Answers, u: Surroundings) {
    forall es :: MayBuildText(Driver.Sidecar, u.w, es, u.secrets, u.r, u.p, ans.merge(es))
  }

  /** The config map that the object records holds the normalised merge of the sources that its
      annotations `a` describe, sorted by their order. */
  ghost predicate RecordsMerge(s: Store, key: Key, a: A.Annots, u: Surroundings)
    requires key in s.objects
  {
    var name := Indexed(StoredAnnots(key, s.objects[key]), A.CONFIGMAP);
    name in s.configMaps && exists es :: IsParse(ConfigOf(a), es) && HoldsMerge(s.configMaps[name], SortByOrder(es), u)
  }

  ghost predicate HoldsMerge(cm: ConfigMap, sorted: seq<Source>, u: Surroundings) {
    MayBuildText(Driver.Sidecar, u.w, sorted, u.secrets, u.r, u.p, Ok(cm.data))
  }

  /** Where the keys of the documents print apart, that is one text. */
  lemma HeldTextIsDetermined(cm: ConfigMap, sorted: seq<Source>, u: Surroundings, K: iset<T.Key>)
    requires HoldsMerge(cm, sorted, u) && T.Unambiguous(K) && Parses(u.w, K)
    ensures Ok(cm.data) == TextOf(Driver.Sidecar, u.w, sorted, u.secrets, u.r, u.p)
  {
    TextIsDetermined(Driver.Sidecar, u.w, sorted, u.secrets, u.r, u.p, Ok(cm.data), K);
  }

  lemma ParseIsMerged(a: A.Annots, o: Outcomes, ans: Answers, u: Surroundings) returns (es: seq<Source>)
    requires Possible(ans, a, o) && ValidAnnots(a) && MergesSources(ans, u) && o.merged.Ok?
    ensures IsParse(ConfigOf(a), es) && HoldsMerge(ConfigMap(Owner.Sidecar, o.merged.value), SortByOrder(es), u)
  {
    es :| IsParse(ConfigOf(a), es) && o.merged == ans.merge(SortByOrder(es));
  }

  lemma CreateRecordsMerge(s: Store, r: Request, v: View, ans: Answers, u: Surroundings)
    requires r.Create? && r.named && !s.system && Decode(r.key.kind, r.doc) == Some(v) && HasSidecarKey(AnnotsIn(v))
    requires Possible(ans, AnnotsIn(v), r.o) && MergesSources(ans, u) && Admit(s, r).1
    ensures r.key in Admit(s, r).0.objects && RecordsMerge(Admit(s, r).0, r.key, AnnotsIn(v), u)
  {
    var a := AnnotsIn(v);
    var (s1, n) := CreateEffects(s, a, r.o);
    var es := ParseIsMerged(a, r.o, ans, u);
    CreatedAnnots(r.key, r.doc, v, n.value, r.o.env);
    AnnotatedNames(a, n.value);
    assert s1.configMaps[n.value.configMap] == ConfigMap(Owner.Sidecar, r.o.merged.value);
    assert HoldsMerge(Admit(s, r).0.configMaps[n.value.configMap], SortByOrder(es), u);
  }

  /** An admitted update that reports a changed configuration records the new merge. */
  lemma UpdateRecordsMerge(s: Store, r: Request, v: View, ans: Answers, u: Surroundings)
    requires r.Update? && r.key in s.objects && !s.system && Decode(r.key.kind, r.doc) == Some(v) && r.o.read
    requires UpdateRequired(r.key.kind, StoredAnnots(r.key, s.objects[r.key]), AnnotsIn(v))
    requires FlagsFor(ChangedKeys(r.key.kind, StoredAnnots(r.key, s.objects[r.key]), AnnotsIn(v))).config
    requires Possible(ans, AnnotsIn(v), r.o) && MergesSources(ans, u) && Admit(s, r).1
    requires Some(Indexed(AnnotsIn(v), A.CONFIGMAP)) != r.o.configMap
    ensures r.key in Admit(s, r).0.objects && RecordsMerge(Admit(s, r).0, r.key, AnnotsIn(v), u)
  {
    var a := AnnotsIn(v);
    var f := FlagsFor(ChangedKeys(r.key.kind, StoredAnnots(r.key, s.objects[r.key]), a));
    var (s1, n) := UpdateEffects(s, a, f, r.o);
    UpdateStoresMerge(s, a, f, r.o);
    var es := ParseIsMerged(a, r.o, ans, u);
    UpdatedDocAnnots(r.key, r.doc, v, f, n.value, r.o.env);
    UpdatedNames(a, f, n.value);
    assert HoldsMerge(Admit(s, r).0.configMaps[n.value.configMap], SortByOrder(es), u);
  }

  lemma UpdateStoresMerge(s: Store, a: A.Annots, f: Flags, o: Outcomes)
    requires f.config && UpdateEffects(s, a, f, o).1.Some? && Some(Indexed(a, A.CONFIGMAP)) != o.configMap
    ensures var (s1, n) := UpdateEffects(s, a, f, o);
      && o.merged.Ok? && n.value.configMap != "" && n.value.configMap in s1.configMaps
      && s1.configMaps[n.value.configMap] == ConfigMap(Owner.Sidecar, o.merged.value)
  {
  }
}
