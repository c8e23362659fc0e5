/** The operator's two drivers, merging source after source into one mutable master map. */
module Operator {
  import opened Trees
  import opened AnyOrder
  import opened Wrappers
  import opened OidcOverlay
  import opened Sources
  import opened Drivers
  import opened PossibleBuilds
  import opened Printing
  import opened GoHeap
  import R = Registration
  import M = MergeEngine
  import N = Normalizer
  import U = Unmarshal

  class Builder {
    const w: World
    var secrets: Secrets
    const oidc: R.OidcClient

    constructor (w: World, secrets: Secrets, oidc: R.OidcClient)
      ensures this.w == w && this.secrets == secrets && this.oidc == oidc
    {
      this.w, this.secrets, this.oidc := w, secrets, oidc;
    }

    method HandleYamlDataMerge(text: string, master: StringMap, ghost h: Heap) returns (ok: bool, ghost h': Heap)
      requires Working(master, h)
      modifies master
      ensures Extends(h, h') && Working(master, h')
      ensures ok <==> w.yaml(text).Some?
      ensures if ok then MayMergeDocs(old(master.tree), w.yaml(text).value, master.tree)
              else master.tree == old(master.tree)
    {
      var parsed := w.yaml(text);
      if parsed.None? { return false, h; }
      var current;
      ghost var g;
      current, g := U.BuildDocument(parsed.value, h, SMap(parsed.value));
      StillOk(h, g);
      var merged;
      merged, h' := M.MergeMapsRecursive(master, current, g, SMap(parsed.value));
      ok := true;
    }

    /** Gets the text of a web source.  The request is nil if the URL does not parse: the first use
        of it panics. */
    method FetchWeb(url: string, headers: seq<Header>) returns (text: Result<string>)
      ensures text == Fetch(w, url, headers)
    {
      var sent: seq<(string, string)> := [];
      for i := 0 to |headers|
        invariant HeadersFor(w, url, headers[..i]) == Ok(sent)
      {
        var h := headers[i];
        assert headers[..i + 1][..i] == headers[..i];
        var value := AddHeader(h, url);
        if !value.Ok? {
          HeaderEnds(w, url, headers, i + 1);
          return if value.Panic? then Panic else Error;
        }
        sent := sent + [(h.name, value.value)];
      }
      assert headers[..|headers|] == headers;
      if !w.parses(url) { return Panic; }
      var body := w.web(url, sent);
      text := if body.None? then Error else Ok(body.value);
    }

    /** The value that is entered into the request. */
    method AddHeader(h: Header, url: string) returns (value: Result<string>)
      ensures value ==
        if !Enterable(w, h) then Error
        else if !w.parses(url) then Panic
        else Ok(HeaderValue(w, h).value)
    {
      if h.name == "" { return Error; }
      if h.value == "" { return Error; }
      var hdrValue := h.value;
      if h.kind == "secret" {
        if h.value !in w.headerSecrets { return Error; }
        hdrValue := Indexed(w.headerSecrets[h.value], h.secretKey);
        if hdrValue == "" { return Error; }
      } else if h.kind != "literal" {
        return Error;
      }
      value := if w.parses(url) then Ok(hdrValue) else Panic;
    }

    /** Merges one source of a kind that is merged in list order. */
    method HandleSource(d: Driver, src: Source, master: StringMap, ghost h: Heap)
      returns (end: Result<StringMap>, ghost h': Heap)
      requires Mergeable(d, src) && Working(master, h)
      modifies master
      ensures Extends(h, h') && Working(master, h')
      ensures match Load(d, w, src)
        case Error => end == Error
        case Panic => end == Panic
        case Ok(doc) => end == Ok(master) && MayMergeDocs(old(master.tree), doc, master.tree)
    {
      end, h' := Error, h;
      var text := "";
      if src.kind == LITERAL {
        text := src.value;
      } else if src.kind == CONFIGMAP {
        if d.CustomResource? && (src.name == "" || src.dataKey == "") { return; }
        if src.name !in w.configMaps { return; }
        text := DataOf(w, src);
      } else {
        if src.url == "" { return; }
        var body := FetchWeb(src.url, src.headers);
        if body.Panic? { return Panic, h'; }
        if body.Error? { return; }
        text := body.value;
      }
      var ok;
      ok, h' := HandleYamlDataMerge(text, master, h);
      if ok { end := Ok(master); }
    }

    /** Registers the client if necessary and writes it into the master. */
    method HandleOidcEntryMerge(src: Source, r: R.Replies, master: StringMap, ghost h: Heap)
      returns (end: Result<StringMap>, ghost b: Built, ghost h': Heap)
      requires Working(master, h)
      modifies this, oidc, master
      ensures Extends(h, h') && Working(master, h')
      ensures MayAddOidc(w, src, old(master.tree), old(secrets), r, b)
      ensures secrets == b.secrets && oidc.calls == old(oidc.calls) + b.calls && Renders(end, b.config)
      ensures end.Ok? ==> end.value == master
    {
      h' := h;
      end, b := Error, Built(Error, secrets, []);
      if src.secret == "" || src.secret !in secrets { return; }
      ghost var o := R.Register(w.parses, src, secrets[src.secret], r);
      var registered := EnsureRegistered(src, r);
      if registered.Error? { return Error, Built(Error, secrets, o.calls), h'; }
      if registered.Panic? { return Panic, Built(Panic, secrets, o.calls), h'; }
      var ok;
      ok, h' := AddIdentity(Client(src.discoveryEndpoint, src.secret), master, h);
      end := if ok then Ok(master) else Error;
      b := Built(if ok then Ok(master.tree) else Error, secrets, o.calls);
    }

    method EnsureRegistered(src: Source, r: R.Replies) returns (result: Result<R.SecretData>)
      requires src.secret in secrets
      modifies this, oidc
      ensures var o := R.Register(w.parses, src, old(secrets)[src.secret], r);
        && result == o.result && oidc.calls == old(oidc.calls) + o.calls
        && secrets == if o.result.Ok? then old(secrets)[src.secret := o.result.value] else old(secrets)
    {
      result := oidc.HandleOidcRegistration(w.parses, src, secrets[src.secret], r);
      if result.Ok? { secrets := secrets[src.secret := result.value]; }
    }

    /** In place where the identity is an interface-keyed map with such an OIDC entry; otherwise the
        snippet is merged. */
    method AddIdentity(c: Client, master: StringMap, ghost h: Heap) returns (ok: bool, ghost h': Heap)
      requires Working(master, h)
      modifies master
      ensures Extends(h, h') && Working(master, h')
      ensures MayOverlay(w, old(master.tree), c, if ok then Ok(master.tree) else Error)
    {
      var updated;
      updated, h' := UpdateOidcInPlace(c, master, h);
      ok := true;
      if !updated {
        ok, h' := HandleYamlDataMerge(c.Snippet(), master, h');
      }
    }

    /** Writes the settings into an OIDC identity that comes from a single source. */
    method UpdateOidcInPlace(c: Client, master: StringMap, ghost h: Heap) returns (updated: bool, ghost h': Heap)
      requires Working(master, h)
      modifies master
      ensures Extends(h, h') && Working(master, h')
      ensures var identity := Lookup(old(master.tree), "identity");
        if updated then
          identity.IMap? &&
          exists r :: MayUpdateOidc(identity.entries, c, r) && master.tree == old(master.tree)["identity" := SMap(r)]
        else MayFindNoOidc(identity) && master.tree == old(master.tree)
    {
      updated, h' := false, h;
      var identity := MappingAt(master, "identity", h);
      if identity.Some? {
        ghost var before := master.tree;
        var r;
        updated, r, h' := UpdatedIdentity(c, identity.value, h);
        StillOk(h, h');
        if updated {
          master.Set("identity", StringRef(r), h');
          assert master.tree == before["identity" := SMap(r.tree)];
        }
      }
    }

    /** A copy of the identity mapping whose OIDC entry holds the settings. */
    method UpdatedIdentity(c: Client, identity: IfaceMap, ghost h: Heap)
      returns (updated: bool, r: StringMap, ghost h': Heap)
      requires Closed(h) && identity in h.ifaces
      ensures Extends(h, h') && Closed(h')
      ensures if updated then r in h'.strs && MayUpdateOidc(identity.tree, c, r.tree)
              else MayFindNoOidc(IMap(identity.tree))
    {
      updated, h' := false, h;
      assert IfaceOk(identity, h);
      r := M.ConvertInterfaceKeysToString(identity, h);
      ghost var id := r.tree;
      var oidcMap := MappingAt(r, "oidc", h);
      if oidcMap.Some? {
        h' := ReplaceOidc(c, r, oidcMap.value, h);
        updated := true;
      }
    }

    /** The type assertion to an interface-keyed map. */
    method MappingAt(r: StringMap, key: string, ghost h: Heap) returns (m: Option<IfaceMap>)
      requires StringOk(r, h)
      ensures m.Some? <==> Lookup(r.tree, key).IMap?
      ensures m.Some? ==> m.value in h.ifaces && IMap(m.value.tree) == r.tree[key]
    {
      if key in r.fields && r.fields[key].IfaceRef? { return Some(r.fields[key].iface); }
      m := None;
    }

    method ReplaceOidc(c: Client, r: StringMap, oidcMap: IfaceMap, ghost h: Heap) returns (ghost h': Heap)
      requires Working(r, h) && oidcMap in h.ifaces && Lookup(r.tree, "oidc") == IMap(oidcMap.tree)
      modifies r
      ensures Within(h, h') && fresh(h'.slices - h.slices) && fresh(h'.ifaces - h.ifaces)
              && fresh(h'.strs - h.strs - {r})
      ensures Closed(h') && r in h'.strs
      ensures MayWriteSettings(old(r.tree), c, r.tree)
    {
      var masterOidc := UpdatedOidc(c, oidcMap, h);
      ghost var g := h.(strs := h.strs + {masterOidc});
      AddString(h, masterOidc, g);
      r.Set("oidc", StringRef(masterOidc), g);
      h' := g.(strs := g.strs + {r});
      AddString(g, r, h');
    }

    method UpdatedOidc(c: Client, oidcMap: IfaceMap, ghost h: Heap) returns (r: StringMap)
      requires Closed(h) && oidcMap in h.ifaces
      ensures fresh(r) && r !in h.strs && StringOk(r, h)
      ensures exists oidc :: Rendering(oidcMap.tree, oidc) && r.tree == oidc + c.Settings()
    {
      assert IfaceOk(oidcMap, h);
      r := M.ConvertInterfaceKeysToString(oidcMap, h);
      ghost var base := r.tree;
      r.Set("discovery_endpoint", Atom(Scalar(Text, c.endpoint)), h);
      r.Set("client_id", Atom(Scalar(Text, c.ClientId())), h);
      r.Set("client_secret", Atom(Scalar(Text, c.ClientSecret())), h);
      SettingsWritten(base, c);
    }

    /** One round of either driver's loop over its list: OIDC sources are passed over for now. */
    method MergeNext(d: Driver, srcs: seq<Source>, i: nat, master: StringMap, ghost docs: seq<Fields>, ghost h: Heap)
      returns (end: Result<StringMap>, ghost docs': seq<Fields>, ghost h': Heap)
      requires i < |srcs| && Working(master, h) && (d.CustomResource? ==> |Oidcs(srcs[..i])| <= 1)
      requires Docs(d, w, srcs[..i]) == Ok(docs) && MayMergeAll(docs, master.tree)
      modifies master
      ensures Extends(h, h') && Working(master, h')
      ensures end.Ok? ==> Docs(d, w, srcs[..i + 1]) == Ok(docs') && MayMergeAll(docs', master.tree)
      ensures !end.Ok? ==> Loaded(d, w, srcs) == if end.Panic? then Panic else Error
      ensures Oidcs(srcs[..i + 1]) == Oidcs(srcs[..i]) + if srcs[i].kind == OIDC then [srcs[i]] else []
    {
      OneMore(d, w, srcs, i);
      end, docs', h' := Ok(master), docs, h;
      ghost var before := master.tree;
      if Mergeable(d, srcs[i]) {
        end, h' := HandleSource(d, srcs[i], master, h);
        if end.Ok? {
          docs' := docs + [Load(d, w, srcs[i]).value];
          MergedOneMore(docs, before, Load(d, w, srcs[i]).value, master.tree);
        } else {
          FailureEnds(d, w, srcs, i);
        }
      } else {
        assert docs + [] == docs;
      }
    }

    /** The custom resource's driver. */
    method GetMergedConfig(entries: seq<Source>, r: R.Replies) returns (config: Result<StringMap>, ghost b: Built)
      modifies this, oidc
      ensures MayBuild(CustomResource, w, entries, old(secrets), r, b)
      ensures secrets == b.secrets && oidc.calls == old(oidc.calls) + b.calls
      ensures Writes(CustomResource, config, b.config)
    {
      var master := new StringMap();
      ghost var h, docs := Heap({}, {}, {}), [];
      var oidcRegs: seq<Source> := [];
      for i := 0 to |entries|
        modifies master
        invariant Working(master, h) && fresh(h.slices) && fresh(h.ifaces) && fresh(h.strs)
        invariant Docs(CustomResource, w, entries[..i]) == Ok(docs) && MayMergeAll(docs, master.tree)
        invariant oidcRegs == Oidcs(entries[..i]) && |oidcRegs| <= 1
      {
        var end;
        end, docs, h := MergeNext(CustomResource, entries, i, master, docs, h);
        if !end.Ok? { return end, Built(if end.Panic? then Panic else Error, secrets, []); }
        if entries[i].kind == OIDC {
          oidcRegs := oidcRegs + [entries[i]];
          if |oidcRegs| > 1 {
            SecondEnds(w, entries, i);
            return Error, Built(Error, secrets, []);
          }
        }
      }
      assert entries[..|entries|] == entries;
      config, b := Finish(CustomResource, |oidcRegs| == 1, if |oidcRegs| == 1 then oidcRegs[0] else NO_SOURCE,
                          Oidcs(entries), r, master, h);
    }

    /** The sidecar webhook's driver, on sources already sorted by their order. */
    method MergeIAGConfig(elements: seq<Source>, r: R.Replies) returns (config: Result<StringMap>, ghost b: Built)
      modifies this, oidc
      ensures MayBuild(Sidecar, w, elements, old(secrets), r, b)
      ensures secrets == b.secrets && oidc.calls == old(oidc.calls) + b.calls
      ensures Writes(Sidecar, config, b.config)
    {
      var master := new StringMap();
      ghost var h, docs := Heap({}, {}, {}), [];
      var foundOidcElem, oidcReg := false, NO_SOURCE;
      for i := 0 to |elements|
        modifies master
        invariant Working(master, h) && fresh(h.slices) && fresh(h.ifaces) && fresh(h.strs)
        invariant Docs(Sidecar, w, elements[..i]) == Ok(docs) && MayMergeAll(docs, master.tree)
        invariant LastOidc(Oidcs(elements[..i]), foundOidcElem, oidcReg)
      {
        var end;
        end, docs, h := MergeNext(Sidecar, elements, i, master, docs, h);
        if !end.Ok? { return end, Built(if end.Panic? then Panic else Error, secrets, []); }
        if elements[i].kind == OIDC {
          foundOidcElem, oidcReg := true, elements[i];
        }
      }
      assert elements[..|elements|] == elements;
      config, b := Finish(Sidecar, foundOidcElem, oidcReg, Oidcs(elements), r, master, h);
    }

    /** The OIDC source comes last; then the normalised copy is made that is written out, which the
        webhook's printer may refuse. */
    method Finish(d: Driver, found: bool, src: Source, ghost oidcs: seq<Source>, r: R.Replies, master: StringMap,
                  ghost h: Heap)
      returns (config: Result<StringMap>, ghost b: Built)
      requires Working(master, h) && LastOidc(oidcs, found, src)
      modifies this, oidc, master
      ensures MayFinish(w, oidcs, old(master.tree), old(secrets), r, b)
      ensures secrets == b.secrets && oidc.calls == old(oidc.calls) + b.calls && Writes(d, config, b.config)
    {
      ghost var g := h;
      b := Built(Ok(master.tree), secrets, []);
      if found {
        config, b, g := HandleOidcEntryMerge(src, r, master, h);
        if !config.Ok? { return; }
      }
      config := Write(d, master, g);
    }

    /** Marshalling the normalised copy, by the YAML printer or through JSON. */
    method Write(d: Driver, master: StringMap, ghost h: Heap) returns (config: Result<StringMap>)
      requires Working(master, h)
      ensures Writes(d, config, Ok(master.tree))
    {
      var out;
      ghost var g;
      out, g := N.ValidateStringKeysFromString(master, h);
      ghost var g' := g.(strs := g.strs + {out});
      AddString(g, out, g');
      if d.Sidecar? && !Marshals(StringRef(out), g') {
        return Error;
      }
      config := Ok(out);
    }
  }

  /** The call ended as `t` did, and its map stands for that tree. */
  ghost predicate Renders(end: Result<StringMap>, t: Result<Fields>)
    reads if end.Ok? then {end.value} else {}
  {
    match end
    case Ok(m) => t == Ok(m.tree)
    case Error => t == Error
    case Panic => t == Panic
  }

  /** The same, with a normalised copy of that tree, unless the webhook's printer refuses it. */
  ghost predicate Writes(d: Driver, end: Result<StringMap>, t: Result<Fields>)
    reads if end.Ok? then {end.value} else {}
  {
    match end
    case Ok(m) => t.Ok? && MayNormalizeDoc(t.value, m.tree) && (d.Sidecar? ==> !RefusedDoc(m.tree))
    case Error => t == Error || (d.Sidecar? && t.Ok? && MayBeRefused(t.value))
    case Panic => t == Panic
  }

  ghost predicate MayBeRefused(m: Fields) {
    exists n :: MayNormalizeDoc(m, n) && RefusedDoc(n)
  }

  ghost predicate LastOidc(oidcs: seq<Source>, found: bool, src: Source) {
    (found <==> oidcs != []) && (found ==> src == oidcs[|oidcs| - 1])
  }

  lemma {:induction false} HeaderEnds(w: World, url: string, headers: seq<Header>, i: nat)
    requires i <= |headers| && !HeadersFor(w, url, headers[..i]).Ok?
    ensures HeadersFor(w, url, headers) == HeadersFor(w, url, headers[..i])
    decreases |headers|
  {
    if i < |headers| {
      assert headers[..|headers| - 1][..i] == headers[..i];
      HeaderEnds(w, url, headers[..|headers| - 1], i);
    } else {
      assert headers[..i] == headers;
    }
  }

  /** The webhook cannot print the configuration: it has an infinite number or a mapping inside
      directly nested sequences. */
  ghost predicate Unprintable(d: Driver, m: Fields) {
    d.Sidecar? && Offends(m)
  }

  /** When the keys of the parsed documents print apart, either driver writes out the one normalised
      configuration of `Drivers`, unless it cannot be printed. */
  lemma WrittenConfigIsDetermined(d: Driver, w: World, srcs: seq<Source>, secrets: Secrets, r: R.Replies,
                                  b: Built, config: Result<StringMap>, K: iset<Key>)
    requires MayBuild(d, w, srcs, secrets, r, b) && Writes(d, config, b.config)
    requires Unambiguous(K) && Parses(w, K)
    ensures var m := MasterOf(d, w, srcs, secrets, r);
      && b == m && (config.Panic? <==> m.config.Panic?)
      && (config.Ok? <==> m.config.Ok? && !Unprintable(d, m.config.value))
      && (config.Ok? ==> config.value.tree == NormalizeDoc(m.config.value))
  {
    BuildIsDetermined(d, w, srcs, secrets, r, b, K);
    if b.config.Ok? {
      MasterKeysIn(d, w, srcs, secrets, r, K);
      BuiltIsShaped(d, w, srcs, secrets, r, K);
      DocRefusedIff(b.config.value, K);
      forall n | MayNormalizeDoc(b.config.value, n) ensures n == NormalizeDoc(b.config.value) {
        DocNormalizeIsDetermined(b.config.value, n, K);
      }
    }
  }

  /** A config map with the document `a: [[{b: 1}]]` is written out for a custom resource and rejected by the
      webhook. */
  lemma NestedMappingIsRejected(w: World, src: Source, secrets: Secrets, r: R.Replies, cr: Built, sidecar: Built,
                                crConfig: Result<StringMap>, sidecarConfig: Result<StringMap>, K: iset<Key>)
    requires Unambiguous(K) && Parses(w, K)
    requires src.kind == CONFIGMAP && src.name != "" && src.dataKey != "" && src.name in w.configMaps
    requires w.yaml(DataOf(w, src)) == Some(NestedMapping())
    requires MayBuild(CustomResource, w, [src], secrets, r, cr) && Writes(CustomResource, crConfig, cr.config)
    requires MayBuild(Sidecar, w, [src], secrets, r, sidecar) && Writes(Sidecar, sidecarConfig, sidecar.config)
    ensures crConfig.Ok? && sidecarConfig.Error?
  {
    WrittenConfigIsDetermined(CustomResource, w, [src], secrets, r, cr, crConfig, K);
    WrittenConfigIsDetermined(Sidecar, w, [src], secrets, r, sidecar, sidecarConfig, K);
    OneSourceBuilds(CustomResource, w, src, secrets, r);
    OneSourceBuilds(Sidecar, w, src, secrets, r);
    NestedMappingOffends();
  }

  const NO_SOURCE := Source("", "", "", "", "", [], 0, "", "", [])
}
