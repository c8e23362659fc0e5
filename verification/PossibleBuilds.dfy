/** What the two drivers can build when Go visits maps in any order, and that there is exactly one
    outcome, the one of `Drivers`, when the keys of the parsed documents print apart. */
module PossibleBuilds {
  import opened Wrappers
  import opened Trees
  import opened AnyOrder
  import opened SourceFold
  import opened OidcOverlay
  import opened Sources
  import opened Drivers
  import R = Registration

  ghost predicate MayMergeAll(docs: seq<Fields>, m: Fields)
    decreases |docs|, 1
  {
    if docs == [] then m == map[] else exists before :: MayMergeLast(docs, before, m)
  }

  ghost predicate MayMergeLast(docs: seq<Fields>, before: Fields, m: Fields)
    requires docs != []
    decreases |docs|, 0
  {
    MayMergeAll(docs[..|docs| - 1], before) && MayMergeDocs(before, docs[|docs| - 1], m)
  }

  lemma MergedOneMore(docs: seq<Fields>, before: Fields, doc: Fields, m: Fields)
    requires MayMergeAll(docs, before) && MayMergeDocs(before, doc, m)
    ensures MayMergeAll(docs + [doc], m)
  {
    assert (docs + [doc])[..|docs + [doc]| - 1] == docs;
    assert MayMergeLast(docs + [doc], before, m);
  }

  // ----- the OIDC step

  ghost predicate HasOidc(id: Fields) {
    Lookup(id, "oidc").IMap?
  }

  /** The identity rewritten in place, with both mappings copied under printed keys. */
  ghost predicate MayUpdateOidc(entries: map<Key, Value>, c: Client, r: Fields) {
    exists id :: Rendering(entries, id) && HasOidc(id) && MayWriteSettings(id, c, r)
  }

  ghost predicate MayWriteSettings(id: Fields, c: Client, r: Fields)
    requires HasOidc(id)
  {
    exists oidc :: Rendering(id["oidc"].entries, oidc) && r == id["oidc" := SMap(oidc + c.Settings())]
  }

  /** No interface-keyed OIDC mapping comes to light, so the snippet is merged instead. */
  ghost predicate MayFindNoOidc(identity: Value) {
    identity.IMap? ==> exists id :: Rendering(identity.entries, id) && !HasOidc(id)
  }

  ghost predicate MayOverlay(w: World, master: Fields, c: Client, result: Result<Fields>) {
    var identity := Lookup(master, "identity");
    || (identity.IMap? &&
        exists r :: MayUpdateOidc(identity.entries, c, r) && result == Ok(master["identity" := SMap(r)]))
    || (MayFindNoOidc(identity) && w.yaml(c.Snippet()) == None && result == Error)
    || (MayFindNoOidc(identity) && w.yaml(c.Snippet()).Some? && result.Ok?
        && MayMergeDocs(master, w.yaml(c.Snippet()).value, result.value))
  }

  ghost predicate MayAddOidc(w: World, src: Source, master: Fields, secrets: Secrets, r: R.Replies, b: Built) {
    if src.secret == "" || src.secret !in secrets then b == Built(Error, secrets, [])
    else
      var o := R.Register(w.parses, src, secrets[src.secret], r);
      b.calls == o.calls &&
      match o.result
      case Error => b.config == Error && b.secrets == secrets
      case Panic => b.config == Panic && b.secrets == secrets
      case Ok(data) =>
        b.secrets == secrets[src.secret := data]
        && MayOverlay(w, master, Client(src.discoveryEndpoint, src.secret), b.config)
  }

  // ----- the drivers

  ghost predicate MayBuild(d: Driver, w: World, srcs: seq<Source>, secrets: Secrets, r: R.Replies, b: Built) {
    match Loaded(d, w, srcs)
    case Error => b == Built(Error, secrets, [])
    case Panic => b == Built(Panic, secrets, [])
    case Ok(docs) => exists m :: MayMergeAll(docs, m) && MayFinish(w, Oidcs(srcs), m, secrets, r, b)
  }

  ghost predicate MayFinish(w: World, oidcs: seq<Source>, m: Fields, secrets: Secrets, r: R.Replies, b: Built) {
    if oidcs == [] then b == Built(Ok(m), secrets, [])
    else MayAddOidc(w, oidcs[|oidcs| - 1], m, secrets, r, b)
  }

  // ----- one outcome

  lemma {:induction false} MergeAllIsDetermined(docs: seq<Fields>, m: Fields, K: iset<Key>)
    requires MayMergeAll(docs, m) && Unambiguous(K)
    requires forall i :: 0 <= i < |docs| ==> FieldsKeysIn(docs[i], K)
    ensures m == MergeAll(docs) && FieldsKeysIn(m, K)
    decreases |docs|
  {
    if docs != [] {
      var n := |docs| - 1;
      var before :| MayMergeLast(docs, before, m);
      MergeAllIsDetermined(docs[..n], before, K);
      DocsMergeIsDetermined(before, docs[n], m, K);
      MergeKeysIn(before, docs[n], K);
    }
  }

  lemma IdentityIsDetermined(entries: map<Key, Value>, c: Client, K: iset<Key>)
    requires KeysIn(IMap(entries), K) && Unambiguous(K)
    ensures MayFindNoOidc(IMap(entries)) ==> !DirectUpdate(IMap(entries))
    ensures forall r :: MayUpdateOidc(entries, c, r) ==>
      DirectUpdate(IMap(entries))
      && r == ConvertKeys(entries)["oidc" := SMap(ConvertKeys(Get(entries, "oidc").entries) + c.Settings())]
  {
    ConvertedOidc(entries);
    ConvertedIn(entries, K);
    forall id | Rendering(entries, id) ensures id == ConvertKeys(entries) {
      RenderingIsConvertKeys(entries, id, K);
    }
    forall r | MayUpdateOidc(entries, c, r)
      ensures DirectUpdate(IMap(entries))
      ensures r == ConvertKeys(entries)["oidc" := SMap(ConvertKeys(Get(entries, "oidc").entries) + c.Settings())]
    {
      var id: Fields :| Rendering(entries, id) && HasOidc(id) && MayWriteSettings(id, c, r);
      var oidc :| Rendering(id["oidc"].entries, oidc) && r == id["oidc" := SMap(oidc + c.Settings())];
      RenderingIsConvertKeys(id["oidc"].entries, oidc, K);
    }
  }

  lemma OverlayIsDetermined(w: World, master: Fields, c: Client, result: Result<Fields>, K: iset<Key>)
    requires MayOverlay(w, master, c, result) && FieldsKeysIn(master, K) && Unambiguous(K) && Parses(w, K)
    ensures result ==
      if DirectUpdate(Lookup(master, "identity")) then Ok(Overlaid(master, c, map[]))
      else match w.yaml(c.Snippet())
        case None => Error
        case Some(snippet) => Ok(Overlaid(master, c, snippet))
  {
    var identity := Lookup(master, "identity");
    if identity.IMap? { IdentityIsDetermined(identity.entries, c, K); }
    if result.Ok? && w.yaml(c.Snippet()).Some? && MayMergeDocs(master, w.yaml(c.Snippet()).value, result.value) {
      DocsMergeIsDetermined(master, w.yaml(c.Snippet()).value, result.value, K);
    }
  }

  /** When the keys of the parsed documents print apart there is one outcome for every list of
      sources, whatever the iteration orders. */
  lemma BuildIsDetermined(d: Driver, w: World, srcs: seq<Source>, secrets: Secrets, r: R.Replies, b: Built,
      K: iset<Key>)
    requires MayBuild(d, w, srcs, secrets, r, b) && Unambiguous(K) && Parses(w, K)
    ensures b == MasterOf(d, w, srcs, secrets, r)
  {
    var docs, oidcs := Loaded(d, w, srcs), Oidcs(srcs);
    if docs.Ok? {
      var m :| MayMergeAll(docs.value, m) && MayFinish(w, oidcs, m, secrets, r, b);
      DocsAreFresh(d, w, srcs, K);
      MergeAllIsDetermined(docs.value, m, K);
      if oidcs != [] { AddOidcIsDetermined(w, oidcs[|oidcs| - 1], m, secrets, r, b, K); }
    }
  }

  lemma AddOidcIsDetermined(w: World, src: Source, m: Fields, secrets: Secrets, r: R.Replies, b: Built, K: iset<Key>)
    requires MayAddOidc(w, src, m, secrets, r, b) && FieldsKeysIn(m, K) && Unambiguous(K) && Parses(w, K)
    ensures b == WithOidc(w, src, m, secrets, r)
  {
    if src.secret != "" && src.secret in secrets && R.Register(w.parses, src, secrets[src.secret], r).result.Ok? {
      OverlayIsDetermined(w, m, Client(src.discoveryEndpoint, src.secret), b.config, K);
    }
  }

  lemma OverlaidKeysIn(master: Fields, c: Client, snippet: Fields, K: iset<Key>)
    requires FieldsKeysIn(master, K) && FieldsKeysIn(snippet, K)
    ensures FieldsKeysIn(Overlaid(master, c, snippet), K)
  {
    var identity := Lookup(master, "identity");
    if DirectUpdate(identity) {
      ConvertedIn(identity.entries, K);
      ConvertedIn(Get(identity.entries, "oidc").entries, K);
      var oidc := ConvertKeys(Get(identity.entries, "oidc").entries) + c.Settings();
      assert KeysIn(SMap(oidc), K);
      assert KeysIn(SMap(ConvertKeys(identity.entries)["oidc" := SMap(oidc)]), K);
    } else {
      MergeKeysIn(master, snippet, K);
    }
  }

  lemma WithOidcKeysIn(w: World, src: Source, m: Fields, secrets: Secrets, r: R.Replies, K: iset<Key>)
    requires Parses(w, K) && FieldsKeysIn(m, K)
    ensures var b := WithOidc(w, src, m, secrets, r); b.config.Ok? ==> FieldsKeysIn(b.config.value, K)
  {
    var c := Client(src.discoveryEndpoint, src.secret);
    OverlaidKeysIn(m, c, map[], K);
    if w.yaml(c.Snippet()).Some? { OverlaidKeysIn(m, c, w.yaml(c.Snippet()).value, K); }
  }

  lemma MasterKeysIn(d: Driver, w: World, srcs: seq<Source>, secrets: Secrets, r: R.Replies, K: iset<Key>)
    requires Parses(w, K)
    ensures var b := MasterOf(d, w, srcs, secrets, r); b.config.Ok? ==> FieldsKeysIn(b.config.value, K)
  {
    var docs, oidcs := Loaded(d, w, srcs), Oidcs(srcs);
    if docs.Ok? {
      DocsAreFresh(d, w, srcs, K);
      AllKeysIn(docs.value, K);
      if oidcs != [] { WithOidcKeysIn(w, oidcs[|oidcs| - 1], MergeAll(docs.value), secrets, r, K); }
    }
  }

  lemma WithOidcIsShaped(w: World, src: Source, docs: seq<Fields>, secrets: Secrets, r: R.Replies, K: iset<Key>)
    requires Parses(w, K) && FreshDocs(docs)
    ensures var b := WithOidc(w, src, MergeAll(docs), secrets, r); b.config.Ok? ==> ShapedDoc(b.config.value)
  {
    var c := Client(src.discoveryEndpoint, src.secret);
    ReachableMasterIsShaped(docs, c, map[]);
    if w.yaml(c.Snippet()).Some? { ReachableMasterIsShaped(docs, c, w.yaml(c.Snippet()).value); }
  }

  lemma BuiltIsShaped(d: Driver, w: World, srcs: seq<Source>, secrets: Secrets, r: R.Replies, K: iset<Key>)
    requires Parses(w, K)
    ensures var b := MasterOf(d, w, srcs, secrets, r); b.config.Ok? ==> ShapedDoc(b.config.value)
  {
    var docs, oidcs := Loaded(d, w, srcs), Oidcs(srcs);
    if docs.Ok? {
      DocsAreFresh(d, w, srcs, K);
      if oidcs == [] {
        MasterIsShaped(docs.value);
      } else {
        WithOidcIsShaped(w, oidcs[|oidcs| - 1], docs.value, secrets, r, K);
      }
    }
  }

  lemma {:induction false} AllKeysIn(docs: seq<Fields>, K: iset<Key>)
    requires forall i :: 0 <= i < |docs| ==> FieldsKeysIn(docs[i], K)
    ensures FieldsKeysIn(MergeAll(docs), K)
    decreases |docs|
  {
    if docs != [] {
      var n := |docs| - 1;
      AllKeysIn(docs[..n], K);
      MergeKeysIn(MergeAll(docs[..n]), docs[n], K);
    }
  }
}
