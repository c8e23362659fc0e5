/** The webhook's parser of configuration annotations, which visits the annotation map and its
    own sets of names in whatever order the language yields them. */
module ConfigParser {
  import opened Wrappers
  import opened Text
  import opened Sources
  import opened ConfigElements
  import A = Annotations

  /** The names gathered in one pass over the annotations. */
  class Index {
    var cfg: map<string, string>
    var names: set<string>
    var hdrNames: set<string>
    var pdNames: set<string>
    var pdValues: map<string, seq<string>>
    /** For every POST data name, the annotations behind `pdValues`, in the order met. */
    ghost var pdKeys: map<string, seq<seq<string>>>

    /** The index is right for the configuration `c`. */
    ghost predicate For(c: Config)
      reads this
    {
      CfgFor(cfg, c) && names == Ids(c) && hdrNames == HeaderIds(c) && pdNames == PostIds(c)
      && ValuesFor(pdValues, pdKeys, c)
    }

    constructor ()
      ensures For(map[])
    {
      cfg, names, hdrNames, pdNames, pdValues, pdKeys := map[], {}, {}, {}, map[], map[];
    }

    /** Takes in one configuration annotation. */
    method Record(realKey: string, value: string, ghost c: Config)
      requires For(c) && Split(realKey) !in c
      modifies this
      ensures For(c[Split(realKey) := value])
    {
      var configParts := Split(realKey);
      SplitGivesTokens(realKey);
      CfgStep(cfg, c, configParts, value);
      cfg := cfg[realKey := value];
      RecordValue(configParts, realKey, value, c);
      RecordNames(configParts, realKey, value, c);
    }

    method RecordNames(configParts: seq<string>, realKey: string, value: string, ghost c: Config)
      requires Tokens(configParts) && Join(configParts) == realKey
      requires names == Ids(c) && hdrNames == HeaderIds(c) && pdNames == PostIds(c)
      modifies this`names, this`hdrNames, this`pdNames
      ensures var c' := c[configParts := value];
        names == Ids(c') && hdrNames == HeaderIds(c') && pdNames == PostIds(c')
    {
      NewName(configParts);
      NamesStep(c, configParts, value);
      names := names + {configParts[0]};
      var rest := realKey[|configParts[0]|..];
      if ".header." <= rest {
        hdrNames := hdrNames + {Split(rest[8..])[0]};
      }
      if ".postData." <= rest {
        pdNames := pdNames + {Split(rest[10..])[0]};
      }
    }

    method RecordValue(configParts: seq<string>, realKey: string, value: string, ghost c: Config)
      requires Tokens(configParts) && Join(configParts) == realKey && configParts !in c
      requires ValuesFor(pdValues, pdKeys, c)
      modifies this`pdValues, this`pdKeys
      ensures ValuesFor(pdValues, pdKeys, c[configParts := value])
    {
      NewName(configParts);
      var rest := realKey[|configParts[0]|..];
      if ".postData." <= rest {
        var postDataKey := rest[10..];
        var pid := Split(postDataKey)[0];
        ValueName(configParts);
        if ".values" <= postDataKey[|pid|..] {
          ValuesStep(pdValues, pdKeys, c, configParts, value);
          pdKeys := pdKeys[pid := (if pid in pdKeys then pdKeys[pid] else []) + [configParts]];
          pdValues := pdValues[pid := (if pid in pdValues then pdValues[pid] else []) + [value]];
          return;
        }
      }
      NoValueStep(pdValues, pdKeys, c, configParts, value);
    }
  }

  ghost predicate CfgFor(cfg: map<string, string>, c: Config) {
    && (forall t :: t in c ==> Tokens(t) && Join(t) in cfg && cfg[Join(t)] == c[t])
    && (forall t :: Tokens(t) && Join(t) in cfg ==> t in c)
  }

  ghost predicate ValuesFor(values: map<string, seq<string>>, keys: map<string, seq<seq<string>>>, c: Config) {
    && values.Keys == keys.Keys
    && (forall p :: p !in values ==> ValueKeys(c, p) == {})
    && (forall p :: p in values ==>
          Enumerates(keys[p], ValueKeys(c, p)) && ValuesListed(c, keys[p], values[p]) && values[p] != [])
  }

  lemma CfgStep(cfg: map<string, string>, c: Config, t: seq<string>, value: string)
    requires CfgFor(cfg, c) && Tokens(t)
    ensures CfgFor(cfg[Join(t) := value], c[t := value])
  {
    forall u | Tokens(u) && Join(u) == Join(t) ensures u == t {
      JoinInjective(t, u);
    }
  }

  lemma NamesStep(c: Config, t: seq<string>, value: string)
    requires Tokens(t)
    ensures var c' := c[t := value];
      && Ids(c') == Ids(c) + {t[0]}
      && HeaderIds(c') == HeaderIds(c) + (if |t| >= 3 && t[1] == "header" then {t[2]} else {})
      && PostIds(c') == PostIds(c) + (if |t| >= 3 && t[1] == "postData" then {t[2]} else {})
  {
  }

  lemma NoValueStep(values: map<string, seq<string>>, keys: map<string, seq<seq<string>>>, c: Config, t: seq<string>,
      value: string)
    requires ValuesFor(values, keys, c) && t !in c
    requires !(|t| >= 4 && t[1] == "postData" && "values" <= t[3])
    ensures ValuesFor(values, keys, c[t := value])
  {
    var c' := c[t := value];
    forall p ensures ValueKeys(c', p) == ValueKeys(c, p) {
    }
    forall p | p in values ensures ValuesListed(c', keys[p], values[p]) {
      StillListed(c, t, value, keys[p], values[p], ValueKeys(c, p));
    }
  }

  lemma StillListed(c: Config, t: seq<string>, value: string, ts: seq<seq<string>>, vs: seq<string>,
      s: set<seq<string>>)
    requires t !in c && Enumerates(ts, s) && ValuesListed(c, ts, vs) && forall u :: u in s ==> u in c
    ensures ValuesListed(c[t := value], ts, vs)
  {
  }

  lemma ValuesStep(values: map<string, seq<string>>, keys: map<string, seq<seq<string>>>, c: Config, t: seq<string>,
      value: string)
    requires ValuesFor(values, keys, c) && t !in c
    requires |t| >= 4 && t[1] == "postData" && "values" <= t[3]
    ensures
      var p := t[2];
      ValuesFor(values[p := (if p in values then values[p] else []) + [value]],
                keys[p := (if p in keys then keys[p] else []) + [t]], c[t := value])
  {
    var (c', p) := (c[t := value], t[2]);
    var (ts, vs) := (if p in keys then keys[p] else [], if p in values then values[p] else []);
    assert ValueKeys(c', p) == ValueKeys(c, p) + {t};
    forall q | q != p ensures ValueKeys(c', q) == ValueKeys(c, q) {
    }
    forall q | q in values ensures ValuesListed(c', keys[q], values[q]) {
      StillListed(c, t, value, keys[q], values[q], ValueKeys(c, q));
    }
    assert t !in ValueKeys(c, p);
    assert Enumerates(ts + [t], ValueKeys(c, p) + {t}) by {
      assert Enumerates(ts, ValueKeys(c, p));
      assert t !in ts;
      forall x ensures x in ValueKeys(c, p) + {t} <==> x in ts + [t] {
      }
    }
    assert ValuesListed(c', ts + [t], vs + [value]);
  }

  lemma NewName(t: seq<string>)
    requires Tokens(t)
    ensures var rest := Join(t)[|t[0]|..];
      && (".header." <= rest <==> |t| >= 3 && t[1] == "header")
      && (".header." <= rest ==> Split(rest[8..])[0] == t[2])
      && (".postData." <= rest <==> |t| >= 3 && t[1] == "postData")
      && (".postData." <= rest ==> rest[10..] == Join(t[2..]) && Split(rest[10..])[0] == t[2])
  {
    assert ".header." == "." + "header" + "." && ".postData." == "." + "postData" + ".";
    NameAfter(t, "header", ".header.");
    NameAfter(t, "postData", ".postData.");
  }

  /** What follows the first token of a joined name, if the second one is `w`. */
  lemma NameAfter(t: seq<string>, w: string, dotted: string)
    requires Tokens(t) && DotFree(w) && dotted == "." + w + "."
    ensures var rest := Join(t)[|t[0]|..];
      && (dotted <= rest <==> |t| >= 3 && t[1] == w)
      && (dotted <= rest ==> rest[|dotted|..] == Join(t[2..]) && Split(rest[|dotted|..])[0] == t[2])
  {
    var rest := Join(t)[|t[0]|..];
    if |t| > 1 {
      assert rest == "." + Join(t[1..]);
      AfterDot(rest, t[1..], w);
      if |t| > 2 {
        assert t[1..][1..] == t[2..];
        SplitOfJoin(t[2..]);
      }
    } else {
      assert rest == "";
    }
  }

  lemma AfterDot(rest: string, u: seq<string>, w: string)
    requires Tokens(u) && DotFree(w) && rest == "." + Join(u)
    ensures "." + w + "." <= rest <==> |u| > 1 && u[0] == w
    ensures "." + w + "." <= rest ==> rest[|w| + 2..] == Join(u[1..])
  {
    JoinHasFirst(u, w);
    Prefixed(".", w + ".", Join(u));
    assert "." + (w + ".") == "." + w + ".";
    assert rest[1..] == Join(u);
    if "." + w + "." <= rest { assert rest[|w| + 2..] == rest[1..][|w| + 1..]; }
  }

  lemma Prefixed(head: string, p: string, s: string)
    ensures head + p <= head + s <==> p <= s
  {
    assert (head + p)[|head|..] == p && (head + s)[|head|..] == s;
    if head + p <= head + s { assert (head + s)[..|head + p|] == head + p; assert s[..|p|] == p; }
    if p <= s { assert head + s == (head + p) + s[|p|..]; }
  }

  /** Whether an annotation lists a POST data value. */
  lemma ValueName(t: seq<string>)
    requires Tokens(t) && |t| >= 3
    ensures ".values" <= Join(t[2..])[|t[2]|..] <==> |t| >= 4 && "values" <= t[3]
  {
    var u := t[2..];
    if |t| >= 4 {
      assert u[1..] == t[3..];
      var rest := Join(u)[|u[0]|..];
      assert rest == "." + Join(t[3..]);
      JoinHasPrefix(t[3..], "values");
      assert rest[1..] == Join(t[3..]);
      assert ".values"[1..] == "values";
      assert "values" <= Join(t[3..]) <==> ".values" <= rest by {
        assert ".values" == "." + "values";
      }
    } else {
      assert Join(u) == t[2];
    }
  }

  // ----- looking up what was gathered

  lemma LookTwo(cfg: map<string, string>, c: Config, id: string, w: string)
    requires CfgFor(cfg, c) && DotFree(id) && DotFree(w)
    ensures Indexed(cfg, id + ("." + w)) == Indexed(c, [id, w])
  {
    JoinTwo(id, w);
    assert id + ("." + w) == id + "." + w;
    assert Tokens([id, w]);
  }

  lemma LookFour(cfg: map<string, string>, c: Config, id: string, group: string, sub: string, w: string)
    requires CfgFor(cfg, c) && DotFree(id) && DotFree(group) && DotFree(sub) && DotFree(w)
    ensures Indexed(cfg, id + ("." + group + ".") + sub + ("." + w)) == Indexed(c, [id, group, sub, w])
  {
    JoinFour(id, group, sub, w);
    assert id + ("." + group + ".") + sub + ("." + w) == id + "." + group + "." + sub + "." + w;
    assert Tokens([id, group, sub, w]);
  }

  lemma NamesAreDotFree(c: Config, cfg: map<string, string>)
    requires CfgFor(cfg, c)
    ensures forall x :: x in Ids(c) || x in HeaderIds(c) || x in PostIds(c) ==> DotFree(x)
  {
  }

  lemma OneMoreListed<T(!new)>(xs: seq<T>, all: set<T>, todo: set<T>, x: T)
    requires Enumerates(xs, all - todo) && x in todo && x in all
    ensures Enumerates(xs + [x], all - (todo - {x}))
  {
  }

  // ----- the parser

  method ParseHeaders(cfg: map<string, string>, hdrNames: set<string>, name: string, ghost c: Config)
    returns (headers: Option<seq<Header>>)
    requires CfgFor(cfg, c) && hdrNames == HeaderIds(c) && DotFree(name)
    ensures headers.Some? <==>
      forall h :: h in HeaderIds(c) ==> Indexed(c, [name, "header", h, "type"]) in {"", "secret", "literal"}
    ensures headers.Some? ==> HeadersOf(c, name, headers.value)
  {
    NamesAreDotFree(c, cfg);
    var list: seq<Header> := [];
    ghost var hs: seq<string> := [];
    var todo := hdrNames;
    while todo != {}
      invariant todo <= hdrNames
      invariant forall h :: h in hdrNames - todo ==>
        Indexed(c, [name, "header", h, "type"]) in {"", "secret", "literal"}
      invariant Enumerates(hs, HeadersNamed(c, name) - todo) && HeadersListed(c, name, hs, list)
      decreases todo
    {
      var h :| h in todo;
      var header := ReadHeader(cfg, name, h, c);
      if header.kind != "" && header.kind != "secret" && header.kind != "literal" { return None; }
      if header.kind != "" {
        OneMoreListed(hs, HeadersNamed(c, name), todo, h);
        list := list + [header];
        hs := hs + [h];
      } else {
        assert HeadersNamed(c, name) - (todo - {h}) == HeadersNamed(c, name) - todo;
      }
      todo := todo - {h};
    }
    assert HeadersNamed(c, name) - todo == HeadersNamed(c, name);
    headers := Some(list);
  }

  method ReadHeader(cfg: map<string, string>, name: string, h: string, ghost c: Config) returns (header: Header)
    requires CfgFor(cfg, c) && DotFree(name) && DotFree(h)
    ensures header == HeaderAt(c, name, h)
  {
    var n := HeaderField(cfg, name, h, "name", ".name", c);
    var k := HeaderField(cfg, name, h, "type", ".type", c);
    var v := HeaderField(cfg, name, h, "value", ".value", c);
    var s := HeaderField(cfg, name, h, "secretKey", ".secretKey", c);
    header := Header(n, k, v, s);
  }

  method HeaderField(cfg: map<string, string>, name: string, h: string, ghost w: string, dotted: string,
                     ghost c: Config)
    returns (v: string)
    requires CfgFor(cfg, c) && DotFree(name) && DotFree(h) && DotFree(w) && dotted == "." + w
    ensures v == Indexed(c, [name, "header", h, w])
  {
    LookHeader(cfg, c, name, h, w, dotted);
    v := Indexed(cfg, name + ".header." + h + dotted);
  }

  lemma LookHeader(cfg: map<string, string>, c: Config, id: string, h: string, w: string, dotted: string)
    requires CfgFor(cfg, c) && DotFree(id) && DotFree(h) && DotFree(w) && dotted == "." + w
    ensures Indexed(cfg, id + ".header." + h + dotted) == Indexed(c, [id, "header", h, w])
  {
    LookFour(cfg, c, id, "header", h, w);
    assert ".header." == "." + "header" + ".";
  }

  method ParsePosts(cfg: map<string, string>, pdNames: set<string>, pdValues: map<string, seq<string>>,
                    ghost pdKeys: map<string, seq<seq<string>>>, name: string, ghost c: Config)
    returns (posts: seq<PostData>)
    requires CfgFor(cfg, c) && pdNames == PostIds(c) && ValuesFor(pdValues, pdKeys, c) && DotFree(name)
    ensures PostsOf(c, name, posts)
  {
    NamesAreDotFree(c, cfg);
    posts := [];
    ghost var ps: seq<string> := [];
    var todo := pdNames;
    while todo != {}
      invariant todo <= pdNames
      invariant Enumerates(ps, PostsNamed(c, name) - todo) && PostsListed(c, name, ps, posts)
      decreases todo
    {
      var pid :| pid in todo;
      var post := ReadPost(cfg, pdValues, pdKeys, name, pid, c);
      if post.name != "" {
        OneMoreListed(ps, PostsNamed(c, name), todo, pid);
        posts := posts + [post];
        ps := ps + [pid];
      } else {
        assert PostsNamed(c, name) - (todo - {pid}) == PostsNamed(c, name) - todo;
      }
      todo := todo - {pid};
    }
    assert PostsNamed(c, name) - todo == PostsNamed(c, name);
  }

  method ReadPost(cfg: map<string, string>, pdValues: map<string, seq<string>>,
                  ghost pdKeys: map<string, seq<seq<string>>>,
                  name: string, pid: string, ghost c: Config) returns (post: PostData)
    requires CfgFor(cfg, c) && ValuesFor(pdValues, pdKeys, c) && DotFree(name) && DotFree(pid)
    ensures PostAt(c, name, pid, post)
  {
    var n := PostField(cfg, name, pid, "name", ".name", c);
    var v := PostField(cfg, name, pid, "value", ".value", c);
    post := PostData(n, v, None);
    if v == "" && pid in pdValues {
      ValuesFound(pdValues, pdKeys, c, pid);
      post := post.(values := Some(pdValues[pid]));
    }
  }

  lemma ValuesFound(values: map<string, seq<string>>, keys: map<string, seq<seq<string>>>, c: Config, pid: string)
    requires ValuesFor(values, keys, c) && pid in values
    ensures ValuesOf(c, pid, Some(values[pid]))
  {
  }

  method PostField(cfg: map<string, string>, name: string, pid: string, ghost w: string, dotted: string,
                     ghost c: Config)
    returns (v: string)
    requires CfgFor(cfg, c) && DotFree(name) && DotFree(pid) && DotFree(w) && dotted == "." + w
    ensures v == Indexed(c, [name, "postData", pid, w])
  {
    LookFour(cfg, c, name, "postData", pid, w);
    assert ".postData." == "." + "postData" + ".";
    v := Indexed(cfg, name + ".postData." + pid + dotted);
  }

  method OwnField(cfg: map<string, string>, name: string, ghost w: string, dotted: string,
                     ghost c: Config)
    returns (v: string)
    requires CfgFor(cfg, c) && DotFree(name) && DotFree(w) && dotted == "." + w
    ensures v == Indexed(c, [name, w])
  {
    LookTwo(cfg, c, name, w);
    v := Indexed(cfg, name + dotted);
  }

  ghost predicate Head(c: Config, name: string, kind: string, order: int) {
    Indexed(c, [name, "type"]) == kind && Atoi(Indexed(c, [name, "order"])) == Some(order)
  }

  method ParseConfigMap(idx: Index, name: string, order: int, ghost c: Config) returns (e: Source)
    requires idx.For(c) && DotFree(name) && Head(c, name, CONFIGMAP, order)
    ensures ElementOf(c, name, e) && ValidId(c, name)
  {
    var mapName := OwnField(idx.cfg, name, "name", ".name", c);
    var dataKey := OwnField(idx.cfg, name, "dataKey", ".dataKey", c);
    e := Source(CONFIGMAP, mapName, dataKey, "", "", [], order, "", "", []);
  }

  method ParseOidc(idx: Index, name: string, order: int, ghost c: Config) returns (e: Source)
    requires idx.For(c) && DotFree(name) && Head(c, name, OIDC, order)
    ensures ElementOf(c, name, e) && ValidId(c, name)
  {
    var endpoint := OwnField(idx.cfg, name, "discoveryEndpoint", ".discoveryEndpoint", c);
    var secret := OwnField(idx.cfg, name, "secret", ".secret", c);
    var posts := ParsePosts(idx.cfg, idx.pdNames, idx.pdValues, idx.pdKeys, name, c);
    e := Source(OIDC, "", "", "", "", [], order, endpoint, secret, posts);
  }

  method ParseWeb(idx: Index, name: string, order: int, ghost c: Config) returns (e: Option<Source>)
    requires idx.For(c) && DotFree(name) && Head(c, name, WEB, order)
    ensures e.Some? <==> ValidId(c, name)
    ensures e.Some? ==> ElementOf(c, name, e.value)
  {
    var url := OwnField(idx.cfg, name, "url", ".url", c);
    var headers := ParseHeaders(idx.cfg, idx.hdrNames, name, c);
    if headers.None? { return None; }
    e := Some(Source(WEB, "", "", "", url, headers.value, order, "", "", []));
  }

  method ParseElement(idx: Index, name: string, ghost c: Config) returns (e: Option<Source>)
    requires idx.For(c) && name in Ids(c)
    ensures e.Some? <==> ValidId(c, name)
    ensures e.Some? ==> ElementOf(c, name, e.value)
  {
    NamesAreDotFree(c, idx.cfg);
    var kind := OwnField(idx.cfg, name, "type", ".type", c);
    var orderVal := OwnField(idx.cfg, name, "order", ".order", c);
    var order := Atoi(orderVal);
    if order.None? { return None; }
    if kind == CONFIGMAP {
      var elem := ParseConfigMap(idx, name, order.value, c);
      e := Some(elem);
    } else if kind == OIDC {
      var elem := ParseOidc(idx, name, order.value, c);
      e := Some(elem);
    } else if kind == WEB {
      e := ParseWeb(idx, name, order.value, c);
    } else {
      e := None;
    }
  }

  method RecordAnnotation(idx: Index, key: string, value: string, ghost done: A.Annots)
    requires idx.For(ConfigOf(done)) && key !in done
    modifies idx
    ensures idx.For(ConfigOf(done[key := value]))
  {
    ConfigStep(done, key, value);
    if A.HasPrefix(key, A.CONF) {
      idx.Record(key[|A.CONF|..], value, ConfigOf(done));
    }
  }

  /** The one pass over the annotation map. */
  method BuildIndex(annots: A.Annots) returns (idx: Index)
    ensures fresh(idx) && idx.For(ConfigOf(annots))
  {
    idx := new Index();
    ghost var done: A.Annots := map[];
    assert ConfigOf(done) == map[];
    var todo := annots.Keys;
    while todo != {}
      modifies idx
      invariant todo <= annots.Keys && done.Keys == annots.Keys - todo
      invariant forall k :: k in done ==> done[k] == annots[k]
      invariant idx.For(ConfigOf(done))
      decreases todo
    {
      var key :| key in todo;
      RecordAnnotation(idx, key, annots[key], done);
      done := done[key := annots[key]];
      todo := todo - {key};
    }
    assert done.Keys == annots.Keys;
    assert done == annots;
  }

  /** The sources named in `done` are valid, and at most one of them is an OIDC source. */
  ghost predicate AcceptedSoFar(c: Config, done: set<string>, found: bool, oidcId: string) {
    && (forall id :: id in done ==> ValidId(c, id))
    && (found ==> oidcId in done && Indexed(c, [oidcId, "type"]) == OIDC)
    && (forall id :: id in done && Indexed(c, [id, "type"]) == OIDC ==> found && id == oidcId)
  }

  lemma OneMoreAccepted(c: Config, done: set<string>, found: bool, oidcId: string, name: string)
    requires AcceptedSoFar(c, done, found, oidcId) && ValidId(c, name) && name !in done
    ensures var isOidc := Indexed(c, [name, "type"]) == OIDC;
      && (!isOidc ==> AcceptedSoFar(c, done + {name}, found, oidcId))
      && (isOidc && !found ==> AcceptedSoFar(c, done + {name}, true, name))
      && (isOidc && found && name in Ids(c) && oidcId in Ids(c) ==> !Accepts(c))
  {
  }

  lemma AllAccepted(c: Config, found: bool, oidcId: string)
    requires AcceptedSoFar(c, Ids(c), found, oidcId)
    ensures Accepts(c) <==> Ids(c) != {}
  {
  }

  /** `ids` and `es` list the sources that are not named in `todo`. */
  ghost predicate Gathered(c: Config, todo: set<string>, ids: seq<string>, es: seq<Source>) {
    Enumerates(ids, Ids(c) - todo) && ElementsListed(c, ids, es)
  }

  lemma OneMoreGathered(c: Config, todo: set<string>, ids: seq<string>, es: seq<Source>, name: string, e: Source)
    requires Gathered(c, todo, ids, es) && name in todo && name in Ids(c) && ElementOf(c, name, e)
    ensures Gathered(c, todo - {name}, ids + [name], es + [e])
    ensures Ids(c) - (todo - {name}) == (Ids(c) - todo) + {name}
  {
    OneMoreListed(ids, Ids(c), todo, name);
  }

  lemma AllGathered(c: Config, ids: seq<string>, es: seq<Source>)
    requires Gathered(c, {}, ids, es)
    ensures Ids(c) - {} == Ids(c)
    ensures IsParse(c, es) && (es == [] <==> Ids(c) == {})
  {
    assert Ids(c) - {} == Ids(c);
    if es != [] { assert ids[0] in Ids(c); }
  }

  /** Whether the annotations are accepted, and which sources they yield up to order, does not
      depend on any iteration order. */
  method GetConfigElements(annots: A.Annots) returns (elements: Option<seq<Source>>)
    ensures elements.Some? <==> Accepts(ConfigOf(annots))
    ensures elements.Some? ==> IsParse(ConfigOf(annots), elements.value)
  {
    ghost var c := ConfigOf(annots);
    var idx := BuildIndex(annots);
    var es: seq<Source> := [];
    ghost var ids: seq<string> := [];
    var oidcExists := false;
    ghost var oidcId := "";
    var todo := idx.names;
    while todo != {}
      modifies {}
      invariant todo <= Ids(c) && Gathered(c, todo, ids, es)
      invariant AcceptedSoFar(c, Ids(c) - todo, oidcExists, oidcId)
      decreases todo
    {
      var name :| name in todo;
      var elem := ParseElement(idx, name, c);
      if elem.None? { return None; }
      OneMoreAccepted(c, Ids(c) - todo, oidcExists, oidcId, name);
      OneMoreGathered(c, todo, ids, es, name, elem.value);
      if elem.value.kind == OIDC {
        if oidcExists { return None; }
        oidcExists, oidcId := true, name;
      }
      es := es + [elem.value];
      ids := ids + [name];
      todo := todo - {name};
    }
    AllGathered(c, ids, es);
    AllAccepted(c, oidcExists, oidcId);
    if |es| < 1 { return None; }
    elements := Some(es);
  }
}
