/** Building the master configuration from a list of sources: once for the custom resource,
    once for the sidecar webhook. */
module Drivers {
  import opened Trees
  import opened Wrappers
  import opened SourceFold
  import opened OidcOverlay
  import opened Sources
  import R = Registration

  /** What the drivers read: config maps and secrets by name, the YAML parser (`None` is a parse
      error), which URLs Go accepts, and the text that a web server answers to a URL and headers
      (`None` covers every failure of a request that can be made). */
  datatype World = World(
    configMaps: map<string, map<string, string>>,
    headerSecrets: map<string, map<string, string>>,
    yaml: string -> Option<Fields>,
    parses: R.UrlParser,
    web: (string, seq<(string, string)>) -> Option<string>)

  /** The parser builds interface-keyed mappings below the top level, with keys of `K`. */
  ghost predicate Parses(w: World, K: iset<Key>) {
    forall t :: w.yaml(t).Some? ==> FreshDoc(w.yaml(t).value) && FieldsKeysIn(w.yaml(t).value, K)
  }

  datatype Driver = CustomResource | Sidecar

  predicate Mergeable(d: Driver, src: Source) {
    src.kind == CONFIGMAP || src.kind == WEB || (d.CustomResource? && src.kind == LITERAL)
  }

  function DataOf(w: World, src: Source): string
    requires src.name in w.configMaps
  {
    var data := w.configMaps[src.name];
    if src.dataKey in data then data[src.dataKey] else ""
  }

  /** What a header of a web source is sent with; `None` if its kind is unknown, or its secret or
      the key in it is not there. */
  function HeaderValue(w: World, h: Header): Option<string> {
    if h.kind == "literal" then Some(h.value)
    else if h.kind == "secret" && h.value in w.headerSecrets && Indexed(w.headerSecrets[h.value], h.secretKey) != ""
    then Some(w.headerSecrets[h.value][h.secretKey])
    else None
  }

  predicate Enterable(w: World, h: Header) {
    h.name != "" && h.value != "" && HeaderValue(w, h).Some?
  }

  /** The headers are entered one by one, into a request that is nil if the URL does not parse. */
  function HeadersFor(w: World, url: string, headers: seq<Header>): Result<seq<(string, string)>> {
    if headers == [] then Ok([])
    else
      var h := headers[|headers| - 1];
      match HeadersFor(w, url, headers[..|headers| - 1])
      case Error => Error
      case Panic => Panic
      case Ok(sent) =>
        if !Enterable(w, h) then Error
        else if !w.parses(url) then Panic
        else Ok(sent + [(h.name, HeaderValue(w, h).value)])
  }

  function Fetch(w: World, url: string, headers: seq<Header>): Result<string> {
    match HeadersFor(w, url, headers)
    case Error => Error
    case Panic => Panic
    case Ok(sent) =>
      if !w.parses(url) then Panic
      else match w.web(url, sent)
        case None => Error
        case Some(text) => Ok(text)
  }

  function Parsed(w: World, text: string): Result<Fields> {
    match w.yaml(text)
    case None => Error
    case Some(doc) => Ok(doc)
  }

  /** The document behind one source; only the custom resource insists on a name and a data key. */
  function Load(d: Driver, w: World, src: Source): Result<Fields>
    requires Mergeable(d, src)
  {
    if src.kind == LITERAL then Parsed(w, src.value)
    else if src.kind == CONFIGMAP then
      if d.CustomResource? && (src.name == "" || src.dataKey == "") then Error
      else if src.name !in w.configMaps then Error
      else Parsed(w, DataOf(w, src))
    else if src.url == "" then Error
    else match Fetch(w, src.url, src.headers)
      case Error => Error
      case Panic => Panic
      case Ok(text) => Parsed(w, text)
  }

  /** The documents a source adds: one, or none if it is not of a kind that is merged in list order. */
  function Added(d: Driver, w: World, src: Source): Result<seq<Fields>> {
    if !Mergeable(d, src) then Ok([])
    else match Load(d, w, src)
      case Error => Error
      case Panic => Panic
      case Ok(doc) => Ok([doc])
  }

  function Both(x: Result<seq<Fields>>, y: Result<seq<Fields>>): Result<seq<Fields>> {
    if !x.Ok? then x else if !y.Ok? then y else Ok(x.value + y.value)
  }

  /** The documents of all sources that are merged in list order, or how the first one that cannot
      be loaded ends the merge. */
  function Docs(d: Driver, w: World, srcs: seq<Source>): Result<seq<Fields>> {
    if srcs == [] then Ok([])
    else Both(Docs(d, w, srcs[..|srcs| - 1]), Added(d, w, srcs[|srcs| - 1]))
  }

  function Oidcs(srcs: seq<Source>): seq<Source> {
    if srcs == [] then []
    else
      var last := srcs[|srcs| - 1];
      Oidcs(srcs[..|srcs| - 1]) + if last.kind == OIDC then [last] else []
  }

  /** The sources before a second OIDC source. */
  function UpToSecondOidc(srcs: seq<Source>): seq<Source>
    decreases |srcs|
  {
    if |Oidcs(srcs)| <= 1 then srcs else UpToSecondOidc(srcs[..|srcs| - 1])
  }

  /** The documents that are merged: a custom resource stops at a second OIDC source. */
  function Loaded(d: Driver, w: World, srcs: seq<Source>): Result<seq<Fields>> {
    if d.CustomResource? && |Oidcs(srcs)| > 1
    then (if Docs(d, w, UpToSecondOidc(srcs)).Panic? then Panic else Error)
    else Docs(d, w, srcs)
  }

  type Secrets = map<string, R.SecretData>

  /** The configuration or how its merge ended instead, the secrets afterwards, and the requests sent
      to the OIDC provider. */
  datatype Built = Built(config: Result<Fields>, secrets: Secrets, calls: seq<R.Call>)

  ghost function WithOidc(w: World, src: Source, master: Fields, secrets: Secrets, r: R.Replies): Built {
    if src.secret == "" || src.secret !in secrets then Built(Error, secrets, [])
    else
      var o := R.Register(w.parses, src, secrets[src.secret], r);
      if o.result.Error? then Built(Error, secrets, o.calls)
      else if o.result.Panic? then Built(Panic, secrets, o.calls)
      else
        var secrets' := secrets[src.secret := o.result.value];
        var c := Client(src.discoveryEndpoint, src.secret);
        if DirectUpdate(Lookup(master, "identity")) then Built(Ok(Overlaid(master, c, map[])), secrets', o.calls)
        else match w.yaml(c.Snippet())
          case None => Built(Error, secrets', o.calls)
          case Some(snippet) => Built(Ok(Overlaid(master, c, snippet)), secrets', o.calls)
  }

  ghost function MasterOf(d: Driver, w: World, srcs: seq<Source>, secrets: Secrets, r: R.Replies): Built {
    var oidcs := Oidcs(srcs);
    match Loaded(d, w, srcs)
    case Error => Built(Error, secrets, [])
    case Panic => Built(Panic, secrets, [])
    case Ok(docs) =>
      if oidcs == [] then Built(Ok(MergeAll(docs)), secrets, [])
      else WithOidc(w, oidcs[|oidcs| - 1], MergeAll(docs), secrets, r)
  }

  // ----- URLs that do not parse

  lemma {:induction false} HeadersPanicIff(w: World, url: string, headers: seq<Header>)
    ensures HeadersFor(w, url, headers).Panic? <==> !w.parses(url) && headers != [] && Enterable(w, headers[0])
    ensures HeadersFor(w, url, headers).Ok? && !w.parses(url) ==> headers == []
    decreases |headers|
  {
    if headers != [] { HeadersPanicIff(w, url, headers[..|headers| - 1]); }
  }

  /** Fetching a web source panics exactly if its URL does not parse, unless there are headers and
      the first of them is reported as an error before the request is touched. */
  lemma FetchPanicsIff(w: World, url: string, headers: seq<Header>)
    ensures Fetch(w, url, headers).Panic? <==> !w.parses(url) && (headers == [] || Enterable(w, headers[0]))
  {
    HeadersPanicIff(w, url, headers);
  }

  /** Such a source ends either driver in a panic. */
  lemma BadWebUrlPanics(d: Driver, w: World, src: Source, secrets: Secrets, r: R.Replies)
    requires src.kind == WEB && src.url == "https://op/config.yaml\n" && src.headers == [] && !w.parses(src.url)
    ensures MasterOf(d, w, [src], secrets, r) == Built(Panic, secrets, [])
  {
    FetchPanicsIff(w, src.url, src.headers);
    OneSourceBuilds(d, w, src, secrets, r);
  }

  // ----- properties of both drivers

  lemma {:induction false} DocsAreFresh(d: Driver, w: World, srcs: seq<Source>, K: iset<Key>)
    requires Parses(w, K) && Docs(d, w, srcs).Ok?
    ensures FreshDocs(Docs(d, w, srcs).value)
    ensures AllKeysIn(Docs(d, w, srcs).value, K)
    decreases |srcs|
  {
    if srcs != [] { DocsAreFresh(d, w, srcs[..|srcs| - 1], K); }
  }

  /** Without an OIDC source, and if no document before the last one loses anything, what is written
      out is the plain merge of all documents exactly if the last one does not either. */
  lemma BuiltConfigIsPlainIff(d: Driver, w: World, srcs: seq<Source>, K: iset<Key>, secrets: Secrets, r: R.Replies)
    requires Parses(w, K) && Unambiguous(K) && Loaded(d, w, srcs).Ok? && Loaded(d, w, srcs) != Ok([])
             && Oidcs(srcs) == []
    requires var docs := Loaded(d, w, srcs).value;
      FreshDocs(docs) ==> NoneLoses(docs, |docs| - 1)
    ensures var (b, docs) := (MasterOf(d, w, srcs, secrets, r), Loaded(d, w, srcs).value);
      && b.config.Ok? && FreshDocs(docs)
      && (NormalizeDoc(b.config.value) == PlainAll(docs) <==> LosesNothing(docs, |docs| - 1))
  {
    DocsAreFresh(d, w, srcs, K);
    FoldIsPlainIff(Loaded(d, w, srcs).value, K);
  }

  lemma FoldIsPlainWithoutLoss(docs: seq<Fields>, K: iset<Key>)
    requires FreshDocs(docs) && Unambiguous(K) && AllKeysIn(docs, K) && NoneLoses(docs, |docs|)
    ensures NormalizeDoc(MergeAll(docs)) == PlainAll(docs)
  {
    PlainThroughoutIff(docs, K, |docs|);
    assert MergedPlainly(docs, |docs|);
    assert docs[..|docs|] == docs;
  }

  /** The values of the last OIDC source are plain scalars, so that its snippet is read as what it
      spells out. */
  ghost predicate SnippetIsRead(w: World, srcs: seq<Source>) {
    Oidcs(srcs) != [] ==>
      var src := Oidcs(srcs)[|Oidcs(srcs)| - 1];
      var c := Client(src.discoveryEndpoint, src.secret);
      w.yaml(c.Snippet()) == Some(c.SnippetTree())
  }

  /** The OIDC step leaves every other key of the master as the merge of the documents left it. */
  lemma OnlyIdentityDiffers(d: Driver, w: World, srcs: seq<Source>, secrets: Secrets, r: R.Replies, key: string)
    requires Loaded(d, w, srcs).Ok? && SnippetIsRead(w, srcs)
    ensures var (b, merged) := (MasterOf(d, w, srcs, secrets, r), MergeAll(Loaded(d, w, srcs).value));
      b.config.Ok? && (key != "identity" || Oidcs(srcs) == []) ==>
        (key in b.config.value <==> key in merged) && (key in merged ==> b.config.value[key] == merged[key])
  {
    if Oidcs(srcs) != [] && key != "identity" {
      var src := Oidcs(srcs)[|Oidcs(srcs)| - 1];
      OverlayTouchesOnlyIdentity(MergeAll(Loaded(d, w, srcs).value), Client(src.discoveryEndpoint, src.secret), key);
    }
  }

  /** With or without an OIDC source, if no document loses anything every key but the identity is
      written out as in the plain merge of all documents. */
  lemma BuiltConfigIsPlain(d: Driver, w: World, srcs: seq<Source>, K: iset<Key>, secrets: Secrets, r: R.Replies,
      key: string)
    requires Parses(w, K) && Unambiguous(K) && Loaded(d, w, srcs).Ok? && SnippetIsRead(w, srcs)
    requires var docs := Loaded(d, w, srcs).value; FreshDocs(docs) ==> NoneLoses(docs, |docs|)
    ensures var (b, plain) := (MasterOf(d, w, srcs, secrets, r), PlainAll(Loaded(d, w, srcs).value));
      b.config.Ok? && (key != "identity" || Oidcs(srcs) == []) ==>
        var written := NormalizeDoc(b.config.value);
        (key in written <==> key in plain) && (key in written ==> written[key] == plain[key])
  {
    var docs := Loaded(d, w, srcs).value;
    DocsAreFresh(d, w, srcs, K);
    FoldIsPlainWithoutLoss(docs, K);
    OnlyIdentityDiffers(d, w, srcs, secrets, r, key);
    assert key in MergeAll(docs) ==> PlainAll(docs)[key] == Normalize(MergeAll(docs)[key]);
  }

  /** Nothing is asked of the OIDC provider, and no secret changes, unless every other source has
      been loaded and merged. */
  lemma NoRegistrationBeforeMerge(d: Driver, w: World, srcs: seq<Source>, secrets: Secrets, r: R.Replies)
    ensures var b := MasterOf(d, w, srcs, secrets, r);
      b.calls != [] || b.secrets != secrets ==> Loaded(d, w, srcs).Ok? && Oidcs(srcs) != []
  {
  }

  /** A custom resource with a second OIDC source always fails, before any request or change of a
      secret: in a panic exactly if a web source before it has a URL that makes it panic. */
  lemma SecondOidcFails(w: World, srcs: seq<Source>, i: nat, j: nat, secrets: Secrets, r: R.Replies)
    requires i < j < |srcs| && srcs[i].kind == OIDC && srcs[j].kind == OIDC
    ensures var b := MasterOf(CustomResource, w, srcs, secrets, r);
      && !b.config.Ok? && b == Built(b.config, secrets, [])
      && (b.config.Panic? <==> Docs(CustomResource, w, UpToSecondOidc(srcs)).Panic?)
  {
    OidcCount(srcs, i, j);
  }

  lemma {:induction false} OidcCount(srcs: seq<Source>, i: nat, j: nat)
    requires i <= j < |srcs| && srcs[i].kind == OIDC && srcs[j].kind == OIDC
    ensures |Oidcs(srcs)| >= if i < j then 2 else 1
    decreases |srcs|
  {
    var n := |srcs| - 1;
    if j < n {
      OidcCount(srcs[..n], i, j);
    } else if i < j {
      OidcCount(srcs[..n], i, i);
    }
  }

  lemma BothAssociates(x: Result<seq<Fields>>, y: Result<seq<Fields>>, z: Result<seq<Fields>>)
    ensures Both(x, Both(y, z)) == Both(Both(x, y), z)
    ensures Both(x, Ok([])) == x
  {
    if x.Ok? && y.Ok? && z.Ok? { assert x.value + (y.value + z.value) == (x.value + y.value) + z.value; }
    if x.Ok? { assert x.value + [] == x.value; }
  }

  lemma {:induction false} DocsConcat(d: Driver, w: World, a: seq<Source>, b: seq<Source>)
    ensures Docs(d, w, a + b) == Both(Docs(d, w, a), Docs(d, w, b))
    decreases |b|
  {
    if b == [] {
      assert a + b == a;
      BothAssociates(Docs(d, w, a), Ok([]), Ok([]));
    } else {
      var n := |b| - 1;
      assert (a + b)[..|a + b| - 1] == a + b[..n];
      assert (a + b)[|a + b| - 1] == b[n];
      DocsConcat(d, w, a, b[..n]);
      BothAssociates(Docs(d, w, a), Docs(d, w, b[..n]), Added(d, w, b[n]));
    }
  }

  lemma {:induction false} OidcsConcat(a: seq<Source>, b: seq<Source>)
    ensures Oidcs(a + b) == Oidcs(a) + Oidcs(b)
    decreases |b|
  {
    if b == [] {
      assert a + b == a;
    } else {
      var n := |b| - 1;
      assert (a + b)[..|a + b| - 1] == a + b[..n];
      assert (a + b)[|a + b| - 1] == b[n];
      OidcsConcat(a, b[..n]);
      var (x, y, z) := (Oidcs(a), Oidcs(b[..n]), if b[n].kind == OIDC then [b[n]] else []);
      assert x + (y + z) == (x + y) + z;
    }
  }

  /** The first `i + 1` sources, seen from the first `i`. */
  lemma OneMore(d: Driver, w: World, srcs: seq<Source>, i: nat)
    requires i < |srcs|
    ensures Oidcs(srcs[..i + 1]) == Oidcs(srcs[..i]) + if srcs[i].kind == OIDC then [srcs[i]] else []
    ensures Docs(d, w, srcs[..i + 1]) == Both(Docs(d, w, srcs[..i]), Added(d, w, srcs[i]))
  {
    assert srcs[..i + 1][..i] == srcs[..i];
  }

  /** The first source that cannot be loaded decides. */
  lemma PrefixDecides(d: Driver, w: World, srcs: seq<Source>, i: nat)
    requires i <= |srcs|
    ensures !Docs(d, w, srcs[..i]).Ok? ==> Docs(d, w, srcs) == Docs(d, w, srcs[..i])
  {
    assert srcs[..i] + srcs[i..] == srcs;
    DocsConcat(d, w, srcs[..i], srcs[i..]);
  }

  lemma OidcsGrow(srcs: seq<Source>, i: nat)
    requires i <= |srcs|
    ensures |Oidcs(srcs[..i])| <= |Oidcs(srcs)|
  {
    assert srcs[..i] + srcs[i..] == srcs;
    OidcsConcat(srcs[..i], srcs[i..]);
  }

  lemma {:induction false} UpToSecondHolds(srcs: seq<Source>, i: nat)
    requires i <= |srcs| && |Oidcs(srcs[..i])| <= 1
    ensures i <= |UpToSecondOidc(srcs)| && UpToSecondOidc(srcs)[..i] == srcs[..i]
    decreases |srcs|
  {
    if |Oidcs(srcs)| > 1 {
      var n := |srcs| - 1;
      assert srcs[..|srcs|] == srcs;
      assert srcs[..n][..i] == srcs[..i];
      UpToSecondHolds(srcs[..n], i);
    }
  }

  lemma {:induction false} SecondIsCut(srcs: seq<Source>, i: nat)
    requires i < |srcs| && |Oidcs(srcs[..i])| <= 1 < |Oidcs(srcs[..i + 1])|
    ensures UpToSecondOidc(srcs) == srcs[..i] && |Oidcs(srcs)| > 1
    decreases |srcs|
  {
    var n := |srcs| - 1;
    OidcsGrow(srcs, i + 1);
    if i < n {
      assert srcs[..n][..i] == srcs[..i] && srcs[..n][..i + 1] == srcs[..i + 1];
      SecondIsCut(srcs[..n], i);
    }
  }

  /** A driver's loop stops at the first source that cannot be loaded. */
  lemma FailureEnds(d: Driver, w: World, srcs: seq<Source>, i: nat)
    requires i < |srcs| && !Docs(d, w, srcs[..i + 1]).Ok?
    requires d.CustomResource? ==> |Oidcs(srcs[..i + 1])| <= 1
    ensures Loaded(d, w, srcs) == Docs(d, w, srcs[..i + 1])
  {
    if d.CustomResource? && |Oidcs(srcs)| > 1 {
      UpToSecondHolds(srcs, i + 1);
      PrefixDecides(d, w, UpToSecondOidc(srcs), i + 1);
    } else {
      PrefixDecides(d, w, srcs, i + 1);
    }
  }

  /** That of the custom resource stops at a second OIDC source. */
  lemma SecondEnds(w: World, srcs: seq<Source>, i: nat)
    requires i < |srcs| && |Oidcs(srcs[..i])| <= 1 < |Oidcs(srcs[..i + 1])| && Docs(CustomResource, w, srcs[..i]).Ok?
    ensures Loaded(CustomResource, w, srcs) == Error
  {
    SecondIsCut(srcs, i);
  }

  lemma DocsIgnoreOidc(d: Driver, w: World, a: seq<Source>, x: Source)
    requires x.kind == OIDC
    ensures Docs(d, w, a + [x]) == Docs(d, w, a)
    ensures Oidcs(a + [x]) == Oidcs(a) + [x]
  {
    BothAssociates(Docs(d, w, a), Ok([]), Ok([]));
  }

  /** The OIDC source is handled last wherever it is listed. */
  lemma OidcPositionIsIrrelevant(d: Driver, w: World, a: seq<Source>, b: seq<Source>, x: Source, secrets: Secrets,
      r: R.Replies)
    requires x.kind == OIDC && Oidcs(a + b) == []
    ensures MasterOf(d, w, (a + [x]) + b, secrets, r) == MasterOf(d, w, (a + b) + [x], secrets, r)
  {
    DocsIgnoreOidc(d, w, a, x);
    DocsIgnoreOidc(d, w, a + b, x);
    assert Docs(d, w, (a + [x]) + b) == Docs(d, w, (a + b) + [x]) by {
      DocsConcat(d, w, a + [x], b);
      DocsConcat(d, w, a, b);
    }
    assert Oidcs((a + [x]) + b) == Oidcs((a + b) + [x]) by {
      OidcsConcat(a + [x], b);
      OidcsConcat(a, b);
      assert Oidcs(a) == [] && Oidcs(b) == [];
    }
  }

  /** A list the webhook can hold: no literals, only known kinds. */
  predicate SidecarList(srcs: seq<Source>) {
    forall s | s in srcs :: s.kind == CONFIGMAP || s.kind == WEB || s.kind == OIDC
  }

  predicate NamesDataKeys(srcs: seq<Source>) {
    forall s | s in srcs :: s.kind == CONFIGMAP ==> s.dataKey != ""
  }

  predicate NamesItsKey(src: Source) {
    src.kind == CONFIGMAP ==> src.dataKey != ""
  }

  /** The sources before the first config map source without a data key. */
  function UpToUnnamedKey(srcs: seq<Source>): seq<Source> {
    if srcs == [] || !NamesItsKey(srcs[0]) then [] else [srcs[0]] + UpToUnnamedKey(srcs[1..])
  }

  lemma {:induction false} UnnamedKeySplits(srcs: seq<Source>)
    ensures var named := UpToUnnamedKey(srcs);
      && |named| <= |srcs| && srcs == named + srcs[|named|..] && NamesDataKeys(named)
      && (|named| < |srcs| ==> !NamesItsKey(srcs[|named|]))
      && (|named| == |srcs| <==> NamesDataKeys(srcs))
  {
    if srcs != [] {
      assert srcs == [srcs[0]] + srcs[1..];
      OneMoreKey(srcs);
      if NamesItsKey(srcs[0]) {
        UnnamedKeySplits(srcs[1..]);
        OneMoreKey(UpToUnnamedKey(srcs));
      }
    }
  }

  lemma OneMoreKey(srcs: seq<Source>)
    requires srcs != []
    ensures NamesDataKeys(srcs) <==> NamesItsKey(srcs[0]) && NamesDataKeys(srcs[1..])
  {
    assert srcs == [srcs[0]] + srcs[1..];
  }

  lemma {:induction false} NamedDocsAgree(w: World, srcs: seq<Source>)
    requires SidecarList(srcs) && NamesDataKeys(srcs) && "" !in w.configMaps
    ensures Docs(CustomResource, w, srcs) == Docs(Sidecar, w, srcs)
  {
    if srcs != [] { NamedDocsAgree(w, srcs[..|srcs| - 1]); }
  }

  lemma StopsAtUnnamed(w: World, named: seq<Source>, src: Source, rest: seq<Source>)
    requires !NamesItsKey(src)
    ensures Docs(CustomResource, w, (named + [src]) + rest) == Both(Docs(CustomResource, w, named), Error)
  {
    DocsConcat(CustomResource, w, named + [src], rest);
    assert (named + [src])[..|named|] == named;
    assert Added(CustomResource, w, src) == Error;
  }

  lemma UnnamedDocs(w: World, srcs: seq<Source>)
    requires SidecarList(srcs) && "" !in w.configMaps && !NamesDataKeys(srcs)
    ensures Docs(CustomResource, w, srcs) == Both(Docs(CustomResource, w, UpToUnnamedKey(srcs)), Error)
  {
    var named := UpToUnnamedKey(srcs);
    UnnamedKeySplits(srcs);
    SplitAt(srcs, |named|);
    StopsAtUnnamed(w, named, srcs[|named|], srcs[|named| + 1..]);
  }

  lemma SplitAt(srcs: seq<Source>, i: nat)
    requires i < |srcs|
    ensures srcs == (srcs[..i] + [srcs[i]]) + srcs[i + 1..]
  {
  }

  lemma NamedPrefix(srcs: seq<Source>)
    requires SidecarList(srcs)
    ensures SidecarList(UpToUnnamedKey(srcs)) && NamesDataKeys(UpToUnnamedKey(srcs))
  {
    UnnamedKeySplits(srcs);
    assert forall x :: x in UpToUnnamedKey(srcs) ==> x in srcs;
  }

  /** A custom resource stops with an error at a missing data key, unless it has stopped before. */
  lemma DocsAgree(w: World, srcs: seq<Source>)
    requires SidecarList(srcs) && "" !in w.configMaps
    ensures Docs(CustomResource, w, srcs)
         == if NamesDataKeys(srcs) then Docs(Sidecar, w, srcs)
            else Both(Docs(Sidecar, w, UpToUnnamedKey(srcs)), Error)
  {
    if NamesDataKeys(srcs) {
      NamedDocsAgree(w, srcs);
    } else {
      UnnamedDocs(w, srcs);
      NamedPrefix(srcs);
      NamedDocsAgree(w, UpToUnnamedKey(srcs));
    }
  }

  /** On the same list, with at most one OIDC source, the two drivers build the same master exactly
      if every config map source names its data key, or a panic comes before the first that does
      not, or the webhook fails with an error as well.  Otherwise the custom resource reports an
      error for a missing data key that the webhook reads as an empty document. */
  lemma DriversAgreeIff(w: World, srcs: seq<Source>, secrets: Secrets, r: R.Replies)
    requires SidecarList(srcs) && "" !in w.configMaps && |Oidcs(srcs)| <= 1
    ensures
      var cr, sidecar := MasterOf(CustomResource, w, srcs, secrets, r), MasterOf(Sidecar, w, srcs, secrets, r);
      && (cr == sidecar <==>
            || NamesDataKeys(srcs) || Docs(Sidecar, w, UpToUnnamedKey(srcs)).Panic?
            || sidecar == Built(Error, secrets, []))
      && (cr != sidecar ==> cr == Built(Error, secrets, []))
  {
    DocsAgree(w, srcs);
    UnnamedKeySplits(srcs);
    var named := UpToUnnamedKey(srcs);
    DocsConcat(Sidecar, w, named, srcs[|named|..]);
  }

  lemma OneSourceBuilds(d: Driver, w: World, src: Source, secrets: Secrets, r: R.Replies)
    requires Mergeable(d, src)
    ensures MasterOf(d, w, [src], secrets, r) == Built(Load(d, w, src), secrets, [])
  {
    assert [src][..0] == [] && Oidcs([src]) == [] + [];
    assert Docs(d, w, [src]) == Both(Ok([]), Added(d, w, src));
    if Load(d, w, src).Ok? {
      var doc := Load(d, w, src).value;
      assert [doc][..0] == [];
      assert Docs(d, w, [src]) == Ok([] + [doc]);
      assert [] + [doc] == [doc];
      MergeIntoEmpty(doc);
      assert MergeAll([doc]) == Merge(MergeAll([]), doc);
    }
  }

  /** Such a list: one config map source without a data key. */
  lemma MissingKeyDiffers(w: World, src: Source, secrets: Secrets, r: R.Replies)
    requires src.kind == CONFIGMAP && src.name != "" && src.dataKey == ""
    requires src.name in w.configMaps && "" !in w.configMaps[src.name] && w.yaml("") == Some(map[])
    ensures MasterOf(Sidecar, w, [src], secrets, r) == Built(Ok(map[]), secrets, [])
    ensures MasterOf(CustomResource, w, [src], secrets, r) == Built(Error, secrets, [])
  {
    OneSourceBuilds(Sidecar, w, src, secrets, r);
    OneSourceBuilds(CustomResource, w, src, secrets, r);
  }
}
