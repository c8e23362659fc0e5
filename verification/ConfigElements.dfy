/** What the configuration annotations of an object mean, independently of the order in which
    the annotation map is visited. */
module ConfigElements {
  import opened Wrappers
  import opened Text
  import opened Sources
  import A = Annotations

  /** The configuration annotations: their names split at the dots. */
  type Config = map<seq<string>, string>

  ghost function ConfigOf(annots: A.Annots): (c: Config)
    ensures forall t :: t in c ==> Tokens(t) && A.CONF + Join(t) in annots && c[t] == annots[A.CONF + Join(t)]
  {
    var keys := set k | k in annots && A.HasPrefix(k, A.CONF) :: Split(k[|A.CONF|..]);
    assert forall t :: t in keys ==> Tokens(t) && A.CONF + Join(t) in annots by {
      forall k | k in annots && A.HasPrefix(k, A.CONF)
        ensures Tokens(Split(k[|A.CONF|..])) && A.CONF + Join(Split(k[|A.CONF|..])) in annots
      {
        SplitGivesTokens(k[|A.CONF|..]);
        assert A.CONF + k[|A.CONF|..] == k;
      }
    }
    map t | t in keys :: annots[A.CONF + Join(t)]
  }

  lemma InConfig(annots: A.Annots, t: seq<string>)
    requires Tokens(t)
    ensures t in ConfigOf(annots) <==> A.CONF + Join(t) in annots
  {
    var k := A.CONF + Join(t);
    if k in annots {
      SplitOfJoin(t);
      assert A.HasPrefix(k, A.CONF) && k[|A.CONF|..] == Join(t);
    }
  }

  ghost function Ids(c: Config): set<string> {
    set t | t in c && t != [] :: t[0]
  }

  ghost function HeaderIds(c: Config): set<string> {
    set t | t in c && |t| >= 3 && t[1] == "header" :: t[2]
  }

  ghost function PostIds(c: Config): set<string> {
    set t | t in c && |t| >= 3 && t[1] == "postData" :: t[2]
  }

  /** The annotations that list values for the POST data `pid`, under whichever source. */
  ghost function ValueKeys(c: Config, pid: string): set<seq<string>> {
    set t | t in c && |t| >= 4 && t[1] == "postData" && t[2] == pid && "values" <= t[3]
  }

  // ----- acceptance

  ghost predicate ValidId(c: Config, id: string) {
    var kind := Indexed(c, [id, "type"]);
    && Atoi(Indexed(c, [id, "order"])).Some?
    && (kind == CONFIGMAP || kind == WEB || kind == OIDC)
    && (kind == WEB ==>
          forall h :: h in HeaderIds(c) ==> Indexed(c, [id, "header", h, "type"]) in {"", "secret", "literal"})
  }

  ghost predicate Accepts(c: Config) {
    && Ids(c) != {}
    && (forall id :: id in Ids(c) ==> ValidId(c, id))
    && (forall i, j :: i in Ids(c) && j in Ids(c) && Indexed(c, [i, "type"]) == OIDC && Indexed(c, [j, "type"]) == OIDC
                       ==> i == j)
  }

  // ----- the elements

  /** `xs` lists the members of `s`, each once. */
  ghost predicate Enumerates<T(!new)>(xs: seq<T>, s: set<T>) {
    (forall i, j :: 0 <= i < j < |xs| ==> xs[i] != xs[j]) && (forall x :: x in s <==> x in xs)
  }

  function HeaderAt(c: Config, id: string, h: string): Header {
    Header(Indexed(c, [id, "header", h, "name"]), Indexed(c, [id, "header", h, "type"]),
           Indexed(c, [id, "header", h, "value"]), Indexed(c, [id, "header", h, "secretKey"]))
  }

  ghost function HeadersNamed(c: Config, id: string): set<string> {
    set h | h in HeaderIds(c) && Indexed(c, [id, "header", h, "type"]) != ""
  }

  ghost predicate HeadersListed(c: Config, id: string, hs: seq<string>, headers: seq<Header>) {
    |headers| == |hs| && forall i :: 0 <= i < |hs| ==> headers[i] == HeaderAt(c, id, hs[i])
  }

  ghost predicate HeadersOf(c: Config, id: string, headers: seq<Header>) {
    exists hs :: Enumerates(hs, HeadersNamed(c, id)) && HeadersListed(c, id, hs, headers)
  }

  ghost predicate ValuesListed(c: Config, ts: seq<seq<string>>, vs: seq<string>) {
    |vs| == |ts| && forall i :: 0 <= i < |ts| ==> vs[i] == Indexed(c, ts[i])
  }

  /** The values of one POST data entry, in any order; none at all if there is a single value. */
  ghost predicate ValuesOf(c: Config, pid: string, values: Option<seq<string>>) {
    match values
    case None => ValueKeys(c, pid) == {}
    case Some(vs) => vs != [] && exists ts :: Enumerates(ts, ValueKeys(c, pid)) && ValuesListed(c, ts, vs)
  }

  ghost predicate PostAt(c: Config, id: string, pid: string, p: PostData) {
    && p.name == Indexed(c, [id, "postData", pid, "name"])
    && p.value == Indexed(c, [id, "postData", pid, "value"])
    && (if p.value != "" then p.values == None else ValuesOf(c, pid, p.values))
  }

  ghost function PostsNamed(c: Config, id: string): set<string> {
    set p | p in PostIds(c) && Indexed(c, [id, "postData", p, "name"]) != ""
  }

  ghost predicate PostsListed(c: Config, id: string, ps: seq<string>, posts: seq<PostData>) {
    |posts| == |ps| && forall i :: 0 <= i < |ps| ==> PostAt(c, id, ps[i], posts[i])
  }

  ghost predicate PostsOf(c: Config, id: string, posts: seq<PostData>) {
    exists ps :: Enumerates(ps, PostsNamed(c, id)) && PostsListed(c, id, ps, posts)
  }

  /** `e` is the source that the annotations describe under `id`. */
  ghost predicate ElementOf(c: Config, id: string, e: Source) {
    && e.kind == Indexed(c, [id, "type"]) && Atoi(Indexed(c, [id, "order"])) == Some(e.order)
    && e.value == ""
    && (if e.kind == CONFIGMAP then e.name == Indexed(c, [id, "name"]) && e.dataKey == Indexed(c, [id, "dataKey"])
        else e.name == "" && e.dataKey == "")
    && (if e.kind == WEB then e.url == Indexed(c, [id, "url"]) && HeadersOf(c, id, e.headers)
        else e.url == "" && e.headers == [])
    && (if e.kind == OIDC
        then e.discoveryEndpoint == Indexed(c, [id, "discoveryEndpoint"]) && e.secret == Indexed(c, [id, "secret"])
             && PostsOf(c, id, e.postData)
        else e.discoveryEndpoint == "" && e.secret == "" && e.postData == [])
  }

  ghost predicate ElementsListed(c: Config, ids: seq<string>, es: seq<Source>) {
    |es| == |ids| && forall i :: 0 <= i < |ids| ==> ElementOf(c, ids[i], es[i])
  }

  /** `es` is the list of all configured sources, in some order. */
  ghost predicate IsParse(c: Config, es: seq<Source>) {
    exists ids :: Enumerates(ids, Ids(c)) && ElementsListed(c, ids, es)
  }

  // ----- adding one annotation

  /** The annotation that is read as `u`, before and after. */
  lemma EntryStep(annots: A.Annots, key: string, value: string, u: seq<string>)
    requires key !in annots && Tokens(u)
    ensures
      var (c, c') := (ConfigOf(annots), ConfigOf(annots[key := value]));
      if A.CONF + Join(u) == key then u !in c && u in c' && c'[u] == value
      else (u in c' <==> u in c) && (u in c ==> c'[u] == c[u])
  {
    InConfig(annots[key := value], u);
    InConfig(annots, u);
  }

  lemma ReadsKey(key: string, u: seq<string>)
    requires A.HasPrefix(key, A.CONF) && Tokens(u)
    ensures Tokens(Split(key[|A.CONF|..])) && (A.CONF + Join(u) == key <==> u == Split(key[|A.CONF|..]))
  {
    var t := Split(key[|A.CONF|..]);
    SplitGivesTokens(key[|A.CONF|..]);
    assert A.CONF + Join(t) == key;
    if A.CONF + Join(u) == key {
      assert Join(u) == key[|A.CONF|..];
      JoinInjective(t, u);
    }
  }

  lemma ConfigStep(annots: A.Annots, key: string, value: string)
    requires key !in annots
    ensures
      var c, c' := ConfigOf(annots), ConfigOf(annots[key := value]);
      if A.HasPrefix(key, A.CONF) then
        var t := Split(key[|A.CONF|..]);
        Tokens(t) && t !in c && c' == c[t := value]
      else c' == c
  {
    if A.HasPrefix(key, A.CONF) { ConfigKeyStep(annots, key, value); } else { OtherKeyStep(annots, key, value); }
  }

  lemma ConfigKeyStep(annots: A.Annots, key: string, value: string)
    requires key !in annots && A.HasPrefix(key, A.CONF)
    ensures
      var (c, c', t) := (ConfigOf(annots), ConfigOf(annots[key := value]), Split(key[|A.CONF|..]));
      Tokens(t) && t !in c && c' == c[t := value]
  {
    var (c, c', t) := (ConfigOf(annots), ConfigOf(annots[key := value]), Split(key[|A.CONF|..]));
    SplitGivesTokens(key[|A.CONF|..]);
    ReadsKey(key, t);
    EntryStep(annots, key, value, t);
    forall u | u in c' || u in c ensures u in c' && c'[u] == c[t := value][u] && (u in c || u == t) {
      ReadsKey(key, u);
      EntryStep(annots, key, value, u);
    }
  }

  lemma OtherKeyStep(annots: A.Annots, key: string, value: string)
    requires key !in annots && !A.HasPrefix(key, A.CONF)
    ensures ConfigOf(annots[key := value]) == ConfigOf(annots)
  {
    var (c, c') := (ConfigOf(annots), ConfigOf(annots[key := value]));
    forall u | u in c' || u in c ensures u in c' && u in c && c'[u] == c[u] {
      assert A.HasPrefix(A.CONF + Join(u), A.CONF);
      EntryStep(annots, key, value, u);
    }
  }
}
