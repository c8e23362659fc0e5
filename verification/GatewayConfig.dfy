/** The reconcile loop and the merge engine together: what the loop settles on is the merge of the
    sources that the custom resource lists. */
module GatewayConfig {
  import opened Wrappers
  import T = Trees
  import opened Sources
  import opened Drivers
  import opened ConfigTexts
  import opened Reconciling
  import R = Registration

  /** During the pass the sources are merged as they are, with some state of the secrets and some
      replies of the OIDC provider, or a read of one of them fails. */
  ghost predicate MergesSources(a: Answers, w: World, srcs: seq<Source>, p: Printer) {
    a.merged.Error? || exists secrets, r :: MayBuildText(CustomResource, w, srcs, secrets, r, p, a.merged)
  }

  ghost predicate AllMerge(answers: seq<Answers>, w: World, srcs: seq<Source>, p: Printer) {
    forall a :: a in answers ==> MergesSources(a, w, srcs, p)
  }

  /** `data` is the text that a successful merge yields. */
  ghost predicate IsText(w: World, srcs: seq<Source>, p: Printer, data: string) {
    exists secrets, r :: TextOf(CustomResource, w, srcs, secrets, r, p) == Ok(data)
  }

  /** Sources that do not change yield one text, although clients are registered, secrets filled in
      and cleared, and merges fail meanwhile. */
  lemma OneText(a: Answers, w: World, srcs: seq<Source>, p: Printer, data: string, K: iset<T.Key>)
    requires T.Unambiguous(K) && Parses(w, K) && IsText(w, srcs, p, data) && MergesSources(a, w, srcs, p)
    ensures Serves(a, data)
  {
    if a.merged.Ok? {
      var secrets, r :| MayBuildText(CustomResource, w, srcs, secrets, r, p, a.merged);
      var secrets', r' :| TextOf(CustomResource, w, srcs, secrets', r', p) == Ok(data);
      TextIsDetermined(CustomResource, w, srcs, secrets, r, p, a.merged, K);
      ConfigIgnoresSecrets(CustomResource, w, srcs, secrets, r, secrets', r');
    }
  }

  /** With the custom resource and its sources fixed, two clean passes after the last stray one leave
      the normalised merge of the sources in the labelled config map, and the deployment in agreement
      with it, exactly if the cluster can settle at all. */
  lemma GatewaySettlesIff(s: State, spec: Spec, w: World, srcs: seq<Source>, p: Printer, data: string,
                          before: seq<Answers>, after: seq<Answers>, K: iset<T.Key>)
    requires T.Unambiguous(K) && Parses(w, K) && IsText(w, srcs, p, data)
    requires AllMerge(before, w, srcs, p) && AllMerge(after, w, srcs, p)
    requires Sound(s) && Dated(s)
    requires var mid := Passes(s, spec, before);
      StrayCount(mid, spec, after) == 0 && CleanCount(mid, spec, data, after) >= 2
    requires forall a :: a in before || a in after ==> a.name != Some(LabelOf(s))
    ensures var end := Passes(s, spec, before + after);
      && (Agrees(end, spec, data) <==> CanSettle(s, spec, data))
      && (CanSettle(s, spec, data) ==>
            && LabelOf(end) in end.configMaps
            && HoldsMerge(end.configMaps[LabelOf(end)], w, srcs, p))
  {
    forall a | a in before || a in after ensures Serves(a, data) { OneText(a, w, srcs, p, data, K); }
    SettlesIff(s, spec, data, before, after);
  }

  /** The config map holds the text of the normalised merge of the sources. */
  ghost predicate HoldsMerge(cm: ConfigMap, w: World, srcs: seq<Source>, p: Printer) {
    exists secrets, r :: TextOf(CustomResource, w, srcs, secrets, r, p) == Ok(Indexed(cm.data, MASTER_KEY))
  }
}
