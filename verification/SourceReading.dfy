/** Which texts the drivers read and send: what each kind of source adds to the configuration. */
module SourceReading {
  import opened Trees
  import opened Wrappers
  import opened SourceFold
  import opened OidcOverlay
  import opened Sources
  import opened Drivers
  import R = Registration

  /** The parser's answer to a text. */
  ghost predicate Reads(w: World, text: string, end: Result<Fields>) {
    match end
    case Ok(doc) => w.yaml(text) == Some(doc)
    case Error => w.yaml(text) == None
    case Panic => false
  }

  // ----- one source

  /** A config map source is the text under its data key. */
  lemma ConfigMapIsRead(d: Driver, w: World, src: Source, text: string, secrets: Secrets, r: R.Replies)
    requires src.kind == CONFIGMAP && src.name != "" && src.dataKey != "" && src.name in w.configMaps
    requires src.dataKey in w.configMaps[src.name] && w.configMaps[src.name][src.dataKey] == text
    ensures Reads(w, text, Load(d, w, src))
    ensures MasterOf(d, w, [src], secrets, r) == Built(Load(d, w, src), secrets, [])
  {
    OneSourceBuilds(d, w, src, secrets, r);
  }

  /** A data key that is not there is read as the empty text, a config map that is not there is an
      error. */
  lemma MissingConfigMap(d: Driver, w: World, src: Source)
    requires src.kind == CONFIGMAP && src.name != "" && src.dataKey != ""
    ensures src.name !in w.configMaps ==> Load(d, w, src) == Error
    ensures src.name in w.configMaps && src.dataKey !in w.configMaps[src.name] ==> Reads(w, "", Load(d, w, src))
  {
  }

  /** A literal source is its value, for the custom resource; the webhook has none. */
  lemma LiteralIsRead(w: World, src: Source, secrets: Secrets, r: R.Replies)
    requires src.kind == LITERAL
    ensures Reads(w, src.value, Load(CustomResource, w, src))
    ensures MasterOf(CustomResource, w, [src], secrets, r) == Built(Load(CustomResource, w, src), secrets, [])
    ensures MasterOf(Sidecar, w, [src], secrets, r) == Built(Ok(map[]), secrets, [])
  {
    OneSourceBuilds(CustomResource, w, src, secrets, r);
    NothingAdded(Sidecar, w, src, secrets, r);
  }

  /** A source of a kind that is not known is passed over without a word. */
  lemma UnknownKindIsIgnored(d: Driver, w: World, src: Source, secrets: Secrets, r: R.Replies)
    requires src.kind !in {LITERAL, CONFIGMAP, WEB, OIDC}
    ensures MasterOf(d, w, [src], secrets, r) == Built(Ok(map[]), secrets, [])
  {
    NothingAdded(d, w, src, secrets, r);
  }

  lemma NothingAdded(d: Driver, w: World, src: Source, secrets: Secrets, r: R.Replies)
    requires !Mergeable(d, src) && src.kind != OIDC
    ensures MasterOf(d, w, [src], secrets, r) == Built(Ok(map[]), secrets, [])
  {
    assert [src][..0] == [] && Oidcs([src]) == [] + [];
    assert Docs(d, w, [src]) == Both(Ok([]), Ok([]));
  }

  /** What a header is sent as: its value, or what its secret holds under its secret key. */
  ghost predicate SentAs(w: World, h: Header, sent: (string, string)) {
    && h.name != "" && h.value != "" && sent.0 == h.name
    && (|| (h.kind == "literal" && sent.1 == h.value)
        || (h.kind == "secret" && h.value in w.headerSecrets && h.secretKey in w.headerSecrets[h.value]
            && w.headerSecrets[h.value][h.secretKey] == sent.1 != ""))
  }

  lemma {:induction false} HeadersAreSent(w: World, url: string, headers: seq<Header>, sent: seq<(string, string)>)
    requires w.parses(url) && |sent| == |headers|
    requires forall i :: 0 <= i < |headers| ==> SentAs(w, headers[i], sent[i])
    ensures HeadersFor(w, url, headers) == Ok(sent)
    decreases |headers|
  {
    if headers != [] {
      var n := |headers| - 1;
      HeadersAreSent(w, url, headers[..n], sent[..n]);
      assert SentAs(w, headers[n], sent[n]);
      assert sent == sent[..n] + [sent[n]];
    }
  }

  /** A web source is the text that is answered to its URL and to its headers, in their order. */
  lemma WebIsRead(d: Driver, w: World, src: Source, sent: seq<(string, string)>, text: string, secrets: Secrets,
                  r: R.Replies)
    requires src.kind == WEB && src.url != "" && w.parses(src.url) && |sent| == |src.headers|
    requires forall i :: 0 <= i < |sent| ==> SentAs(w, src.headers[i], sent[i])
    requires w.web(src.url, sent) == Some(text)
    ensures Reads(w, text, Load(d, w, src))
    ensures MasterOf(d, w, [src], secrets, r) == Built(Load(d, w, src), secrets, [])
  {
    HeadersAreSent(w, src.url, src.headers, sent);
    OneSourceBuilds(d, w, src, secrets, r);
  }

  /** A header without a name or a value, of another kind, or whose secret is not there. */
  ghost predicate Unsendable(w: World, h: Header) {
    forall sent :: !SentAs(w, h, sent)
  }

  lemma UnsendableIff(w: World, h: Header)
    ensures Unsendable(w, h) <==> !Enterable(w, h)
  {
    if Enterable(w, h) {
      assert SentAs(w, h, (h.name, HeaderValue(w, h).value));
    }
  }

  lemma {:induction false} NoneUnsendable(w: World, url: string, headers: seq<Header>)
    requires HeadersFor(w, url, headers).Ok?
    ensures forall i :: 0 <= i < |headers| ==> !Unsendable(w, headers[i])
    decreases |headers|
  {
    if headers != [] {
      var n := |headers| - 1;
      NoneUnsendable(w, url, headers[..n]);
      UnsendableIff(w, headers[n]);
      assert forall i :: 0 <= i < n ==> headers[..n][i] == headers[i];
    }
  }

  /** One such header keeps a web source from being read. */
  lemma UnsendableHeaderFails(d: Driver, w: World, src: Source, i: nat)
    requires src.kind == WEB && i < |src.headers| && Unsendable(w, src.headers[i])
    ensures !Load(d, w, src).Ok? && (w.parses(src.url) ==> Load(d, w, src) == Error)
  {
    if HeadersFor(w, src.url, src.headers).Ok? { NoneUnsendable(w, src.url, src.headers); }
    FetchPanicsIff(w, src.url, src.headers);
  }

  // ----- lists

  /** The documents are merged in the order of the list. */
  lemma {:induction false} DocsInOrder(d: Driver, w: World, srcs: seq<Source>, docs: seq<Fields>)
    requires |docs| == |srcs|
    requires forall i :: 0 <= i < |srcs| ==> Mergeable(d, srcs[i]) && Load(d, w, srcs[i]) == Ok(docs[i])
    ensures Docs(d, w, srcs) == Ok(docs) && Oidcs(srcs) == []
    decreases |srcs|
  {
    if srcs != [] {
      var n := |srcs| - 1;
      DocsInOrder(d, w, srcs[..n], docs[..n]);
      assert docs == docs[..n] + [docs[n]];
    }
  }

  lemma MergedInOrder(d: Driver, w: World, srcs: seq<Source>, docs: seq<Fields>, secrets: Secrets, r: R.Replies)
    requires |docs| == |srcs|
    requires forall i :: 0 <= i < |srcs| ==> Mergeable(d, srcs[i]) && Load(d, w, srcs[i]) == Ok(docs[i])
    ensures MasterOf(d, w, srcs, secrets, r) == Built(Ok(MergeAll(docs)), secrets, [])
  {
    DocsInOrder(d, w, srcs, docs);
  }

  // ----- the OIDC source

  /** `identity` names the client of the source: its discovery endpoint, and where the deployed
      gateway finds id and secret. */
  ghost predicate NamesClient(identity: Value, x: Source) {
    && Child(identity, "oidc").Some?
    && var oidc := Child(identity, "oidc").value;
    && Child(oidc, "discovery_endpoint") == Some(Scalar(Text, x.discoveryEndpoint))
    && Child(oidc, "client_id") == Some(Scalar(Text, "secret:" + x.secret + "/client_id"))
    && Child(oidc, "client_secret") == Some(Scalar(Text, "secret:" + x.secret + "/client_secret"))
  }

  lemma OverlayNamesClient(m: Fields, x: Source)
    ensures var c := Client(x.discoveryEndpoint, x.secret);
      NamesClient(Lookup(Overlaid(m, c, c.SnippetTree()), "identity"), x)
  {
    var c := Client(x.discoveryEndpoint, x.secret);
    SettingsLaw(c);
    forall field | field in c.Settings()
      ensures var after := Lookup(Overlaid(m, c, c.SnippetTree()), "identity");
        Child(after, "oidc").Some? && Child(Child(after, "oidc").value, field) == Some(c.Settings()[field])
    {
      OidcFieldsLaw(m, c, field);
    }
  }

  lemma BuiltByOverlay(w: World, x: Source, m: Fields, secrets: Secrets, r: R.Replies)
    requires var c := Client(x.discoveryEndpoint, x.secret); w.yaml(c.Snippet()) == Some(c.SnippetTree())
    ensures var (b, c) := (WithOidc(w, x, m, secrets, r), Client(x.discoveryEndpoint, x.secret));
      b.config.Ok? ==> b.config.value == Overlaid(m, c, c.SnippetTree())
  {
    OverlaidAlike(m, Client(x.discoveryEndpoint, x.secret));
  }

  lemma OverlaidAlike(m: Fields, c: Client)
    ensures DirectUpdate(Lookup(m, "identity")) ==> Overlaid(m, c, map[]) == Overlaid(m, c, c.SnippetTree())
  {
  }

  /** A list with one OIDC source writes its client. */
  lemma ClientIsWritten(d: Driver, w: World, srcs: seq<Source>, x: Source, secrets: Secrets, r: R.Replies)
    requires Oidcs(srcs) == [x] && SnippetIsRead(w, srcs) && MasterOf(d, w, srcs, secrets, r).config.Ok?
    ensures NamesClient(Lookup(MasterOf(d, w, srcs, secrets, r).config.value, "identity"), x)
  {
    BuiltByOverlay(w, x, MergeAll(Loaded(d, w, srcs).value), secrets, r);
    OverlayNamesClient(MergeAll(Loaded(d, w, srcs).value), x);
  }

  /** The secret of the source, and no other, holds a client: the one it held, or the one that the
      provider has just handed out. */
  ghost predicate Filled(secrets: Secrets, after: Secrets, x: Source, r: R.Replies) {
    && x.secret in secrets && after.Keys == secrets.Keys
    && (forall s :: s in secrets && s != x.secret ==> after[s] == secrets[s])
    && R.Registered(after[x.secret])
    && (R.Registered(secrets[x.secret]) ==> after == secrets)
    && (!R.Registered(secrets[x.secret]) ==>
          && r.client.Some?
          && Indexed(after[x.secret], "client_id") == r.client.value.id
          && Indexed(after[x.secret], "client_secret") == r.client.value.secret)
  }

  lemma OneIsFilled(w: World, x: Source, m: Fields, secrets: Secrets, r: R.Replies)
    ensures var b := WithOidc(w, x, m, secrets, r); b.config.Ok? ==> Filled(secrets, b.secrets, x, r)
  {
    if x.secret in secrets {
      var data := secrets[x.secret];
      R.RegisteredIsLeftAlone(w.parses, x, data, r);
      R.ClientIsRecorded(w.parses, x, data, r);
      if R.Registered(data) { assert secrets[x.secret := data] == secrets; }
    }
  }

  /** A client that has been registered stays recorded even if the merge fails after that. */
  lemma RecordedThoughMergeFails(w: World, x: Source, m: Fields, secrets: Secrets, r: R.Replies)
    requires x.secret != "" && x.secret in secrets
    requires R.Register(w.parses, x, secrets[x.secret], r).result.Ok?
    ensures var (b, o) := (WithOidc(w, x, m, secrets, r), R.Register(w.parses, x, secrets[x.secret], r));
      b.secrets == secrets[x.secret := o.result.value] && b.calls == o.calls
  {
  }

  lemma SecretIsFilled(d: Driver, w: World, srcs: seq<Source>, x: Source, secrets: Secrets, r: R.Replies)
    requires Oidcs(srcs) == [x] && MasterOf(d, w, srcs, secrets, r).config.Ok?
    ensures Filled(secrets, MasterOf(d, w, srcs, secrets, r).secrets, x, r)
  {
    OneIsFilled(w, x, MergeAll(Loaded(d, w, srcs).value), secrets, r);
  }

  lemma SnippetStart()
    ensures "identity:\n" + "  oidc:\n" + "    discovery_endpoint: " + "e" + "\n"
         == "identity:\n  oidc:\n    discovery_endpoint: e\n"
  {
    assert "identity:\n" + "  oidc:\n" == "identity:\n  oidc:\n";
    assert "identity:\n  oidc:\n" + "    discovery_endpoint: " == "identity:\n  oidc:\n    discovery_endpoint: ";
  }

  lemma SnippetMiddle()
    ensures "    client_id: " + Client("e", "s").ClientId() + "\n" == "    client_id: secret:s/client_id\n"
  {
    assert "secret:" + "s" + "/client_id" == "secret:s/client_id";
  }

  lemma SnippetEnd()
    ensures "    client_secret: " + Client("e", "s").ClientSecret() == "    client_secret: secret:s/client_secret"
  {
    assert "secret:" + "s" + "/client_secret" == "secret:s/client_secret";
  }

  /** The text that is parsed when the client cannot be written into the tree directly. */
  lemma SnippetText()
    ensures Client("e", "s").Snippet() ==
      "identity:\n  oidc:\n    discovery_endpoint: e\n" + "    client_id: secret:s/client_id\n" +
      "    client_secret: secret:s/client_secret"
  {
    SnippetStart();
    SnippetMiddle();
    SnippetEnd();
    var (start, c) := ("identity:\n  oidc:\n    discovery_endpoint: e\n", Client("e", "s"));
    Regrouped(start, "    client_id: ", c.ClientId(), "\n", "    client_secret: ", c.ClientSecret());
  }

  lemma Regrouped(a: string, b: string, c: string, d: string, e: string, f: string)
    ensures a + b + c + d + e + f == a + (b + c + d) + (e + f)
  {
  }

  /** The webhook's driver uses the last OIDC source. */
  lemma LastOidcCounts(w: World, a: seq<Source>, x: Source, secrets: Secrets, r: R.Replies)
    requires x.kind == OIDC && Oidcs(a) != []
    ensures MasterOf(Sidecar, w, a + [x], secrets, r)
         == match Docs(Sidecar, w, a)
            case Error => Built(Error, secrets, [])
            case Panic => Built(Panic, secrets, [])
            case Ok(docs) => WithOidc(w, x, MergeAll(docs), secrets, r)
  {
    DocsIgnoreOidc(Sidecar, w, a, x);
  }
}
