/** Writing a registered OIDC client into the master configuration. */
module OidcOverlay {
  import opened Trees
  import opened Wrappers
  import opened SourceFold

  datatype Client = Client(endpoint: string, secret: string) {
    function ClientId(): string { "secret:" + secret + "/client_id" }

    function ClientSecret(): string { "secret:" + secret + "/client_secret" }

    /** The YAML text that is parsed when the client cannot be written into the tree directly. */
    function Snippet(): string {
      "identity:\n" +
      "  oidc:\n" +
      "    discovery_endpoint: " + endpoint + "\n" +
      "    client_id: " + ClientId() + "\n" +
      "    client_secret: " + ClientSecret()
    }

    function Settings(): Fields {
      map["discovery_endpoint" := Scalar(Text, endpoint),
          "client_id" := Scalar(Text, ClientId()),
          "client_secret" := Scalar(Text, ClientSecret())]
    }

    function SettingsMapping(): map<Key, Value> {
      map[Str("discovery_endpoint") := Scalar(Text, endpoint),
          Str("client_id") := Scalar(Text, ClientId()),
          Str("client_secret") := Scalar(Text, ClientSecret())]
    }

    /** The tree of `Snippet` when the three values are plain scalars of YAML. */
    function SnippetTree(): Fields {
      map["identity" := IMap(map[Str("oidc") := IMap(SettingsMapping())])]
    }
  }

  /** What the settings say: the discovery endpoint, and where the deployed gateway finds id and
      secret. */
  lemma SettingsLaw(c: Client)
    ensures c.Settings().Keys == {"discovery_endpoint", "client_id", "client_secret"}
    ensures c.Settings()["discovery_endpoint"] == Scalar(Text, c.endpoint)
    ensures c.Settings()["client_id"] == Scalar(Text, "secret:" + c.secret + "/client_id")
    ensures c.Settings()["client_secret"] == Scalar(Text, "secret:" + c.secret + "/client_secret")
  {
  }

  function Str(s: string): Key { Key(StringKey, s) }

  /** The identity mapping as it is when nothing has been merged into it yet, with an OIDC
      mapping inside. */
  ghost predicate DirectUpdate(identity: Value) {
    identity.IMap? && "oidc" in Texts(identity.entries) && Get(identity.entries, "oidc").IMap?
  }

  ghost function Overlaid(master: Fields, c: Client, snippet: Fields): Fields {
    var identity := Lookup(master, "identity");
    if DirectUpdate(identity) then
      var oidc := ConvertKeys(Get(identity.entries, "oidc").entries) + c.Settings();
      master["identity" := SMap(ConvertKeys(identity.entries)["oidc" := SMap(oidc)])]
    else
      Merge(master, snippet)
  }

  /** The entry of a mapping under the printed key `s`, whichever kind of mapping it is. */
  ghost function Child(v: Value, s: string): Option<Value> {
    if v.IMap? && s in Texts(v.entries) then Some(Get(v.entries, s))
    else if v.SMap? && s in v.fields then Some(v.fields[s])
    else None
  }

  lemma ConvertedOidc(e: map<Key, Value>)
    ensures DirectUpdate(IMap(e)) <==> "oidc" in ConvertKeys(e) && ConvertKeys(e)["oidc"].IMap?
    ensures "oidc" in ConvertKeys(e) ==> ConvertKeys(e)["oidc"] == Get(e, "oidc")
  {
  }

  /** Writing the three settings one after the other. */
  lemma SettingsWritten(base: Fields, c: Client)
    ensures base["discovery_endpoint" := Scalar(Text, c.endpoint)]
                ["client_id" := Scalar(Text, c.ClientId())]
                ["client_secret" := Scalar(Text, c.ClientSecret())] == base + c.Settings()
  {
  }

  lemma ChildOfConverted(e: map<Key, Value>, s: string)
    ensures Child(SMap(ConvertKeys(e)), s) == Child(IMap(e), s)
  {
  }

  lemma SettingsTexts(c: Client)
    ensures Texts(c.SettingsMapping()) == {"discovery_endpoint", "client_id", "client_secret"} == c.Settings().Keys
    ensures ConvertKeys(c.SettingsMapping()) == c.Settings()
  {
  }

  lemma SnippetTexts(c: Client)
    ensures var e := map[Str("oidc") := IMap(c.SettingsMapping())];
      Texts(e) == {"oidc"} && ConvertKeys(e) == map["oidc" := IMap(c.SettingsMapping())]
  {
  }

  /** The identity the overlay leaves, and everything else untouched. */
  lemma OverlayTouchesOnlyIdentity(master: Fields, c: Client, key: string)
    requires key != "identity"
    ensures var r := Overlaid(master, c, c.SnippetTree());
      (key in r <==> key in master) && (key in r ==> r[key] == master[key])
  {
  }

  /** What the overlay leaves at identity, in each of its three cases. */
  lemma OverlaidIdentity(master: Fields, c: Client)
    ensures var before, after := Lookup(master, "identity"), Lookup(Overlaid(master, c, c.SnippetTree()), "identity");
      && (DirectUpdate(before) ==>
            var oidc := ConvertKeys(Get(before.entries, "oidc").entries) + c.Settings();
            after == SMap(ConvertKeys(before.entries)["oidc" := SMap(oidc)]))
      && (before.IMap? && !DirectUpdate(before) ==>
            after == SMap(ConvertKeys(before.entries)["oidc" := IMap(c.SettingsMapping())]))
      && (!before.IMap? ==> after == IMap(map[Str("oidc") := IMap(c.SettingsMapping())]))
  {
    var before := Lookup(master, "identity");
    if !DirectUpdate(before) {
      SnippetTexts(c);
      var e2 := map[Str("oidc") := IMap(c.SettingsMapping())];
      if before.IMap? {
        assert before.entries != e2;
        MergeTwoMappings(before.entries, e2);
        var merged := Merge(ConvertKeys(before.entries), ConvertKeys(e2));
        assert merged == ConvertKeys(before.entries)["oidc" := IMap(c.SettingsMapping())];
      }
    }
  }

  /** From any master: the overlay leaves the three client settings under identity.oidc, and any
      other OIDC field survives exactly when identity and its oidc entry are both mappings that
      have not been merged yet. */
  lemma OidcFieldsLaw(master: Fields, c: Client, field: string)
    ensures
      var before, after := Lookup(master, "identity"), Lookup(Overlaid(master, c, c.SnippetTree()), "identity");
      && Child(after, "oidc").Some?
      && Child(Child(after, "oidc").value, field)
           == (if field in c.Settings() then Some(c.Settings()[field])
               else if DirectUpdate(before) then Child(Child(before, "oidc").value, field)
               else None)
  {
    var before := Lookup(master, "identity");
    OverlaidIdentity(master, c);
    SettingsTexts(c);
    ChildOfConverted(c.SettingsMapping(), field);
    if DirectUpdate(before) {
      ChildOfConverted(Get(before.entries, "oidc").entries, field);
    } else if !before.IMap? {
      SnippetTexts(c);
      ChildOfConverted(map[Str("oidc") := IMap(c.SettingsMapping())], "oidc");
    }
  }

  /** A sibling provider survives exactly when identity is a mapping that has not been merged
      yet; an identity that has already been merged is replaced whole. */
  lemma SiblingProvidersLaw(master: Fields, c: Client, provider: string)
    requires provider != "oidc"
    ensures
      var before, after := Lookup(master, "identity"), Lookup(Overlaid(master, c, c.SnippetTree()), "identity");
      Child(after, provider) == if before.IMap? then Child(before, provider) else None
  {
  }

  /** Contrary to the user documentation, a provider of another kind is not removed when the
      identity comes from a single source. */
  lemma OtherProviderSurvives(master: Fields, c: Client, provider: string)
    requires "identity" in master && master["identity"].IMap?
    requires provider != "oidc" && provider in Texts(master["identity"].entries)
    ensures Child(Lookup(Overlaid(master, c, c.SnippetTree()), "identity"), provider)
         == Some(Get(master["identity"].entries, provider))
  {
    SiblingProvidersLaw(master, c, provider);
  }

  // ----- the overlay keeps the shape of the master

  lemma OverlayKeepsShape(master: Fields, c: Client, snippet: Fields)
    requires ShapedDoc(master) && FreshDoc(snippet)
    ensures ShapedDoc(Overlaid(master, c, snippet))
  {
    var identity := Lookup(master, "identity");
    if DirectUpdate(identity) {
      assert Shaped(identity);
      ConvertedFresh(identity.entries);
      FreshIsShaped(ConvertKeys(identity.entries));
      var e := Get(identity.entries, "oidc").entries;
      assert Fresh(ConvertKeys(identity.entries)["oidc"]);
      ConvertedFresh(e);
      FreshIsShaped(ConvertKeys(e));
      assert ShapedDoc(ConvertKeys(e) + c.Settings());
    } else {
      MergeKeepsShape(master, snippet);
    }
  }

  /** No string-keyed mapping ever sits below an interface-keyed one or inside a sequence, in any
      master: any number of sources, with or without the final OIDC step. */
  lemma ReachableMasterIsShaped(sources: seq<Fields>, c: Client, snippet: Fields)
    requires FreshDocs(sources) && FreshDoc(snippet)
    ensures ShapedDoc(MergeAll(sources))
    ensures ShapedDoc(Overlaid(MergeAll(sources), c, snippet))
  {
    MasterIsShaped(sources);
    OverlayKeepsShape(MergeAll(sources), c, snippet);
  }
}
