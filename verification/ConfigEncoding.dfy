/** Writing sources as annotations under the documented names, and reading them back. */
module ConfigEncoding {
  import opened Wrappers
  import opened Text
  import opened Sources
  import opened ConfigElements
  import opened ConfigOrder
  import A = Annotations

  /** A source with the ids chosen for it, its headers, its POST data, and their values. */
  datatype Entry = Entry(id: string, src: Source, hids: seq<string>, pids: seq<string>, vids: seq<seq<string>>)

  predicate Distinct(ids: seq<string>) {
    && (forall i | 0 <= i < |ids| :: DotFree(ids[i]))
    && (forall i, j | 0 <= i < j < |ids| :: ids[i] != ids[j])
  }

  predicate WellFormedPost(p: PostData, vids: seq<string>) {
    && p.name != "" && Distinct(vids)
    && (if p.value != "" then p.values == None && vids == []
        else if p.values.Some? then p.values.value != [] && |vids| == |p.values.value|
        else vids == [])
  }

  predicate WellFormed(n: Entry) {
    var s := n.src;
    && DotFree(n.id) && INT64_MIN <= s.order <= INT64_MAX && s.value == ""
    && Distinct(n.hids) && |n.hids| == |s.headers|
    && (forall i | 0 <= i < |s.headers| :: s.headers[i].kind == "secret" || s.headers[i].kind == "literal")
    && Distinct(n.pids) && |n.pids| == |s.postData| == |n.vids|
    && (forall i | 0 <= i < |s.postData| :: WellFormedPost(s.postData[i], n.vids[i]))
    && (s.kind == CONFIGMAP || s.kind == WEB || s.kind == OIDC)
    && (s.kind != CONFIGMAP ==> s.name == "" && s.dataKey == "")
    && (s.kind != WEB ==> s.url == "" && s.headers == [])
    && (s.kind != OIDC ==> s.discoveryEndpoint == "" && s.secret == "" && s.postData == [])
  }

  predicate WellFormedList(ns: seq<Entry>) {
    && ns != [] && (forall i | 0 <= i < |ns| :: WellFormed(ns[i]))
    && (forall i, j | 0 <= i < j < |ns| :: ns[i].id != ns[j].id)
    && (forall i, j | 0 <= i < j < |ns| :: !(ns[i].src.kind == OIDC && ns[j].src.kind == OIDC))
  }

  // ----- the documented names

  const OWN := {"type", "order", "name", "dataKey", "url", "discoveryEndpoint", "secret"}
  const HEADER := {"name", "type", "value", "secretKey"}

  /** The names that can occur for one source. */
  function Names(n: Entry): set<seq<string>>
    requires |n.pids| == |n.vids|
  {
    (set w | w in OWN :: [n.id, w]) +
    (set h, w | h in n.hids && w in HEADER :: [n.id, "header", h, w]) +
    (set p, w | p in n.pids && w in {"name", "value"} :: [n.id, "postData", p, w]) +
    (set i, v | 0 <= i < |n.pids| && v in n.vids[i] :: [n.id, "postData", n.pids[i], "values", v])
  }

  ghost function OwnField(s: Source, w: string): Option<string> {
    if w == "type" then Some(s.kind)
    else if w == "order" then Some(Itoa(s.order))
    else if w == "name" && s.kind == CONFIGMAP then Some(s.name)
    else if w == "dataKey" && s.kind == CONFIGMAP then Some(s.dataKey)
    else if w == "url" && s.kind == WEB then Some(s.url)
    else if w == "discoveryEndpoint" && s.kind == OIDC then Some(s.discoveryEndpoint)
    else if w == "secret" && s.kind == OIDC then Some(s.secret)
    else None
  }

  ghost function HeaderField(h: Header, w: string): Option<string> {
    if w == "name" then Some(h.name)
    else if w == "type" then Some(h.kind)
    else if w == "value" then Some(h.value)
    else if w == "secretKey" then Some(h.secretKey)
    else None
  }

  ghost function PostField(p: PostData, w: string): Option<string> {
    if w == "name" then Some(p.name)
    else if w == "value" && p.value != "" then Some(p.value)
    else None
  }

  /** What is written for the source under the name `t`, if anything. */
  ghost function Written(n: Entry, t: seq<string>): Option<string>
    requires WellFormed(n)
  {
    if |t| < 2 || t[0] != n.id then None
    else if |t| == 2 then OwnField(n.src, t[1])
    else if |t| == 4 && t[1] == "header" && t[2] in n.hids then HeaderField(n.src.headers[IndexIn(n.hids, t[2])], t[3])
    else if |t| == 4 && t[1] == "postData" && t[2] in n.pids then PostField(n.src.postData[IndexIn(n.pids, t[2])], t[3])
    else if |t| == 5 && t[1] == "postData" && t[2] in n.pids && t[3] == "values" then
      var i := IndexIn(n.pids, t[2]);
      if n.src.postData[i].values.Some? && t[4] in n.vids[i]
      then Some(n.src.postData[i].values.value[IndexIn(n.vids[i], t[4])])
      else None
    else None
  }

  ghost function EntryConfig(n: Entry): Config
    requires WellFormed(n)
  {
    map t | t in Names(n) && Written(n, t).Some? :: Written(n, t).value
  }

  lemma EntryHolds(n: Entry, t: seq<string>)
    requires WellFormed(n)
    ensures t in EntryConfig(n) <==> Written(n, t).Some?
  {
    if Written(n, t).Some? {
      if |t| == 2 {
        assert t == [n.id, t[1]];
      } else if |t| == 4 {
        assert t == [n.id, t[1], t[2], t[3]];
      } else {
        var i := IndexIn(n.pids, t[2]);
        assert t == [n.id, "postData", n.pids[i], "values", t[4]];
      }
    }
  }

  ghost function Encoded(ns: seq<Entry>): Config
    requires forall i :: 0 <= i < |ns| ==> WellFormed(ns[i])
  {
    if ns == [] then map[]
    else Encoded(ns[..|ns| - 1]) + EntryConfig(ns[|ns| - 1])
  }

  lemma {:induction false} EncodedFrom(ns: seq<Entry>, t: seq<string>)
    requires forall i :: 0 <= i < |ns| ==> WellFormed(ns[i])
    ensures t in Encoded(ns) ==> exists i :: 0 <= i < |ns| && Written(ns[i], t).Some?
    decreases |ns|
  {
    if ns != [] && t in Encoded(ns) {
      var n := |ns| - 1;
      EntryHolds(ns[n], t);
      if t in Encoded(ns[..n]) {
        EncodedFrom(ns[..n], t);
        var i :| 0 <= i < n && Written(ns[..n][i], t).Some?;
        assert ns[..n][i] == ns[i];
      }
    }
  }

  lemma {:induction false} EncodedAt(ns: seq<Entry>, i: nat, t: seq<string>)
    requires forall j :: 0 <= j < |ns| ==> WellFormed(ns[j])
    requires forall j, k :: 0 <= j < k < |ns| ==> ns[j].id != ns[k].id
    requires i < |ns| && t != [] && t[0] == ns[i].id
    ensures t in Encoded(ns) <==> Written(ns[i], t).Some?
    ensures t in Encoded(ns) ==> Encoded(ns)[t] == Written(ns[i], t).value
    decreases |ns|
  {
    var n := |ns| - 1;
    EntryHolds(ns[n], t);
    if i < n {
      EncodedAt(ns[..n], i, t);
    } else if t in Encoded(ns[..n]) {
      EncodedFrom(ns[..n], t);
    }
  }

  // ----- reading the names back

  lemma WrittenTokens(n: Entry, t: seq<string>)
    requires WellFormed(n) && Written(n, t).Some?
    ensures Tokens(t)
  {
    forall i | 0 <= i < |t| ensures DotFree(t[i]) {
    }
  }

  lemma EncodedTokens(ns: seq<Entry>)
    requires forall i :: 0 <= i < |ns| ==> WellFormed(ns[i])
    ensures forall t :: t in Encoded(ns) ==> Tokens(t)
  {
    forall t | t in Encoded(ns) ensures Tokens(t) {
      EncodedFrom(ns, t);
      var i :| 0 <= i < |ns| && Written(ns[i], t).Some?;
      WrittenTokens(ns[i], t);
    }
  }

  ghost function IdList(ns: seq<Entry>): seq<string> {
    seq(|ns|, i requires 0 <= i < |ns| => ns[i].id)
  }

  ghost function SourceList(ns: seq<Entry>): seq<Source> {
    seq(|ns|, i requires 0 <= i < |ns| => ns[i].src)
  }

  /** Under the id of `n`, `c` holds exactly what is written for `n`. */
  ghost predicate Holds(c: Config, n: Entry)
    requires WellFormed(n)
  {
    forall t {:trigger Written(n, t)} :: t != [] && t[0] == n.id ==> Look'(c, t) == Written(n, t)
  }

  ghost function Look'(c: Config, t: seq<string>): Option<string> {
    if t in c then Some(c[t]) else None
  }

  lemma EncodedHolds(ns: seq<Entry>, i: nat)
    requires WellFormedList(ns) && i < |ns|
    ensures Holds(Encoded(ns), ns[i])
  {
    forall t | t != [] && t[0] == ns[i].id ensures Look'(Encoded(ns), t) == Written(ns[i], t) {
      EncodedAt(ns, i, t);
    }
  }

  function OrEmpty(v: Option<string>): string {
    if v.Some? then v.value else ""
  }

  lemma LookWritten(c: Config, n: Entry, t: seq<string>)
    requires WellFormed(n) && Holds(c, n) && t != [] && t[0] == n.id
    ensures Indexed(c, t) == OrEmpty(Written(n, t)) && (t in c <==> Written(n, t).Some?)
  {
  }

  lemma IndexOfDistinct(ids: seq<string>, k: nat)
    requires Distinct(ids) && k < |ids|
    ensures IndexIn(ids, ids[k]) == k
  {
  }

  lemma HeaderWritten(c: Config, n: Entry, k: nat)
    requires WellFormed(n) && Holds(c, n) && k < |n.hids|
    ensures HeaderAt(c, n.id, n.hids[k]) == n.src.headers[k]
    ensures n.hids[k] in HeaderIds(c)
  {
    var h := n.hids[k];
    IndexOfDistinct(n.hids, k);
    LookWritten(c, n, [n.id, "header", h, "name"]);
    LookWritten(c, n, [n.id, "header", h, "type"]);
    LookWritten(c, n, [n.id, "header", h, "value"]);
    LookWritten(c, n, [n.id, "header", h, "secretKey"]);
    assert [n.id, "header", h, "type"] in c;
  }

  lemma NoOtherHeader(c: Config, n: Entry, h: string)
    requires WellFormed(n) && Holds(c, n) && h !in n.hids
    ensures Indexed(c, [n.id, "header", h, "type"]) == ""
  {
    LookWritten(c, n, [n.id, "header", h, "type"]);
  }

  lemma HeadersEncoded(c: Config, n: Entry)
    requires WellFormed(n) && Holds(c, n)
    ensures HeadersOf(c, n.id, n.src.headers)
    ensures forall h :: h in HeaderIds(c) ==> Indexed(c, [n.id, "header", h, "type"]) in {"", "secret", "literal"}
  {
    forall h ensures h in HeadersNamed(c, n.id) <==> h in n.hids
             ensures Indexed(c, [n.id, "header", h, "type"]) in {"", "secret", "literal"}
    {
      if h in n.hids {
        HeaderWritten(c, n, IndexIn(n.hids, h));
      } else {
        NoOtherHeader(c, n, h);
      }
    }
    assert Enumerates(n.hids, HeadersNamed(c, n.id));
    forall k | 0 <= k < |n.hids| ensures HeaderAt(c, n.id, n.hids[k]) == n.src.headers[k] {
      HeaderWritten(c, n, k);
    }
    assert HeadersListed(c, n.id, n.hids, n.src.headers);
  }

  /** No other source has POST data under the same annotations. */
  ghost predicate OnlyPosts(c: Config, n: Entry) {
    forall t :: t in c && |t| > 1 && t[1] == "postData" ==> t[0] == n.id
  }

  lemma ValueKeyWritten(c: Config, n: Entry, k: nat, t: seq<string>)
    requires WellFormed(n) && Holds(c, n) && OnlyPosts(c, n) && k < |n.pids| && t in ValueKeys(c, n.pids[k])
    ensures n.src.postData[k].values.Some? && |t| == 5 && t[4] in n.vids[k]
            && t == [n.id, "postData", n.pids[k], "values", t[4]]
  {
    IndexOfDistinct(n.pids, k);
    LookWritten(c, n, t);
    assert |"values"| > |"value"| > |"name"|;
  }

  lemma ValueWritten(c: Config, n: Entry, k: nat, j: nat)
    requires WellFormed(n) && Holds(c, n) && k < |n.pids| && n.src.postData[k].values.Some? && j < |n.vids[k]|
    requires |n.vids[k]| == |n.src.postData[k].values.value| && Distinct(n.vids[k])
    ensures var t := [n.id, "postData", n.pids[k], "values", n.vids[k][j]];
      t in ValueKeys(c, n.pids[k]) && Indexed(c, t) == n.src.postData[k].values.value[j]
  {
    IndexOfDistinct(n.pids, k);
    IndexOfDistinct(n.vids[k], j);
    LookWritten(c, n, [n.id, "postData", n.pids[k], "values", n.vids[k][j]]);
  }

  lemma ValuesEncoded(c: Config, n: Entry, k: nat)
    requires WellFormed(n) && Holds(c, n) && OnlyPosts(c, n) && k < |n.pids| && n.src.postData[k].value == ""
    ensures ValuesOf(c, n.pids[k], n.src.postData[k].values)
  {
    var (pid, vids, p) := (n.pids[k], n.vids[k], n.src.postData[k]);
    assert WellFormedPost(p, vids);
    if p.values.None? {
      forall t | t in ValueKeys(c, pid) ensures false {
        ValueKeyWritten(c, n, k, t);
      }
    } else {
      var ts: seq<seq<string>> := seq(|vids|, j requires 0 <= j < |vids| => [n.id, "postData", pid, "values", vids[j]]);
      forall j | 0 <= j < |ts| ensures ts[j] in ValueKeys(c, pid) && Indexed(c, ts[j]) == p.values.value[j]
                                              && ts[j][4] == vids[j] {
        ValueWritten(c, n, k, j);
      }
      forall t | t in ValueKeys(c, pid) ensures t in ts {
        ValueKeyWritten(c, n, k, t);
        assert ts[IndexIn(vids, t[4])] == t;
      }
      assert Enumerates(ts, ValueKeys(c, pid));
      assert ValuesListed(c, ts, p.values.value);
    }
  }

  lemma PostWritten(c: Config, n: Entry, k: nat)
    requires WellFormed(n) && Holds(c, n) && OnlyPosts(c, n) && k < |n.pids|
    ensures PostAt(c, n.id, n.pids[k], n.src.postData[k]) && n.src.postData[k].name != ""
    ensures n.pids[k] in PostIds(c)
  {
    var p := n.pids[k];
    IndexOfDistinct(n.pids, k);
    assert WellFormedPost(n.src.postData[k], n.vids[k]);
    LookWritten(c, n, [n.id, "postData", p, "name"]);
    LookWritten(c, n, [n.id, "postData", p, "value"]);
    assert [n.id, "postData", p, "name"] in c;
    if n.src.postData[k].value == "" { ValuesEncoded(c, n, k); }
  }

  lemma NoOtherPost(c: Config, n: Entry, p: string)
    requires WellFormed(n) && Holds(c, n) && p !in n.pids
    ensures Indexed(c, [n.id, "postData", p, "name"]) == ""
  {
    LookWritten(c, n, [n.id, "postData", p, "name"]);
  }

  lemma PostsEncoded(c: Config, n: Entry)
    requires WellFormed(n) && Holds(c, n) && OnlyPosts(c, n)
    ensures PostsOf(c, n.id, n.src.postData)
  {
    forall p ensures p in PostsNamed(c, n.id) <==> p in n.pids {
      if p in n.pids {
        PostWritten(c, n, IndexIn(n.pids, p));
      } else {
        NoOtherPost(c, n, p);
      }
    }
    assert Enumerates(n.pids, PostsNamed(c, n.id));
    forall k | 0 <= k < |n.pids| ensures PostAt(c, n.id, n.pids[k], n.src.postData[k]) {
      PostWritten(c, n, k);
    }
    assert PostsListed(c, n.id, n.pids, n.src.postData);
  }

  lemma OwnFieldsWritten(c: Config, n: Entry)
    requires WellFormed(n) && Holds(c, n)
    ensures Indexed(c, [n.id, "type"]) == n.src.kind && Atoi(Indexed(c, [n.id, "order"])) == Some(n.src.order)
    ensures n.src.kind == CONFIGMAP ==>
      Indexed(c, [n.id, "name"]) == n.src.name && Indexed(c, [n.id, "dataKey"]) == n.src.dataKey
    ensures n.src.kind == WEB ==> Indexed(c, [n.id, "url"]) == n.src.url
    ensures n.src.kind == OIDC ==>
      Indexed(c, [n.id, "discoveryEndpoint"]) == n.src.discoveryEndpoint && Indexed(c, [n.id, "secret"]) == n.src.secret
  {
    forall w | w in OWN ensures Indexed(c, [n.id, w]) == OrEmpty(OwnField(n.src, w)) {
      LookWritten(c, n, [n.id, w]);
    }
    AtoiOfItoa(n.src.order);
  }

  lemma EntryEncoded(c: Config, n: Entry)
    requires WellFormed(n) && Holds(c, n) && (n.src.kind == OIDC ==> OnlyPosts(c, n))
    ensures ElementOf(c, n.id, n.src) && ValidId(c, n.id)
  {
    OwnFieldsWritten(c, n);
    HeadersEncoded(c, n);
    if n.src.kind == OIDC { PostsEncoded(c, n); }
  }

  // ----- the whole list

  lemma PostsAreOidc(n: Entry, t: seq<string>)
    requires WellFormed(n) && Written(n, t).Some? && |t| > 1 && t[1] == "postData"
    ensures n.src.kind == OIDC && t[0] == n.id
  {
  }

  lemma OneSourceHasPosts(ns: seq<Entry>, i: nat)
    requires WellFormedList(ns) && i < |ns| && ns[i].src.kind == OIDC
    ensures OnlyPosts(Encoded(ns), ns[i])
  {
    forall t | t in Encoded(ns) && |t| > 1 && t[1] == "postData" ensures t[0] == ns[i].id {
      EncodedFrom(ns, t);
      var j :| 0 <= j < |ns| && Written(ns[j], t).Some?;
      PostsAreOidc(ns[j], t);
      assert j == i;
    }
  }

  lemma EveryEntryEncoded(ns: seq<Entry>, i: nat)
    requires WellFormedList(ns) && i < |ns|
    ensures ElementOf(Encoded(ns), ns[i].id, ns[i].src) && ValidId(Encoded(ns), ns[i].id)
    ensures ns[i].id in Ids(Encoded(ns)) && Indexed(Encoded(ns), [ns[i].id, "type"]) == ns[i].src.kind
  {
    EncodedHolds(ns, i);
    if ns[i].src.kind == OIDC { OneSourceHasPosts(ns, i); }
    EntryEncoded(Encoded(ns), ns[i]);
    LookWritten(Encoded(ns), ns[i], [ns[i].id, "type"]);
    assert [ns[i].id, "type"] in Encoded(ns);
  }

  lemma IdsEncoded(ns: seq<Entry>)
    requires WellFormedList(ns)
    ensures Enumerates(IdList(ns), Ids(Encoded(ns)))
  {
    var c := Encoded(ns);
    forall i | 0 <= i < |ns| ensures ns[i].id in Ids(c) {
      EveryEntryEncoded(ns, i);
    }
    forall id | id in Ids(c) ensures id in IdList(ns) {
      var t :| t in c && t != [] && t[0] == id;
      EncodedFrom(ns, t);
      var i :| 0 <= i < |ns| && Written(ns[i], t).Some?;
      assert IdList(ns)[i] == id;
    }
  }

  /** Reading the annotations that spell out a well-formed list of sources succeeds, and yields
      that list up to the order of the sources, headers, POST data and values, whatever the
      order in which the annotations and names are visited. */
  lemma ParserInvertsEncoding(ns: seq<Entry>, p: seq<Source>)
    requires WellFormedList(ns)
    ensures
      (EncodedTokens(ns);
       var c := ConfigOf(AnnotsOf(Encoded(ns)));
       Accepts(c) && (IsParse(c, p) ==> exists perm :: Matches(p, SourceList(ns), perm)))
  {
    EncodedTokens(ns);
    var c := Encoded(ns);
    ReadBack(c);
    IdsEncoded(ns);
    var (ids, srcs) := (IdList(ns), SourceList(ns));
    forall i | 0 <= i < |ns| ensures ElementOf(c, ids[i], srcs[i]) && ValidId(c, ids[i]) {
      EveryEntryEncoded(ns, i);
    }
    assert ElementsListed(c, ids, srcs);
    assert IsParse(c, srcs);
    EncodedAccepted(ns);
    if IsParse(c, p) { ParsesMatch(c, p, srcs); }
  }

  lemma EncodedAccepted(ns: seq<Entry>)
    requires WellFormedList(ns)
    ensures Accepts(Encoded(ns))
  {
    var (c, ids) := (Encoded(ns), IdList(ns));
    IdsEncoded(ns);
    assert ids[0] in ids;
    forall id | id in Ids(c) ensures ValidId(c, id) {
      var i :| 0 <= i < |ids| && ids[i] == id;
      EveryEntryEncoded(ns, i);
    }
    forall x, y | x in Ids(c) && y in Ids(c) && Indexed(c, [x, "type"]) == OIDC && Indexed(c, [y, "type"]) == OIDC
      ensures x == y
    {
      var i :| 0 <= i < |ids| && ids[i] == x;
      var j :| 0 <= j < |ids| && ids[j] == y;
      EveryEntryEncoded(ns, i);
      EveryEntryEncoded(ns, j);
    }
  }

  /** The annotations with these names. */
  ghost function AnnotsOf(c: Config): A.Annots
    requires forall t :: t in c ==> Tokens(t)
  {
    map k | k in KeysOf(c) :: Indexed(c, Split(k[|A.CONF|..]))
  }

  ghost function KeysOf(c: Config): (keys: set<string>)
    requires forall t :: t in c ==> Tokens(t)
    ensures forall k :: k in keys ==> A.HasPrefix(k, A.CONF)
  {
    set t | t in c && t != [] :: A.CONF + Join(t)
  }

  lemma KeyOf(c: Config, t: seq<string>)
    requires (forall u :: u in c ==> Tokens(u)) && Tokens(t)
    ensures A.CONF + Join(t) in KeysOf(c) <==> t in c
    ensures t in c ==> AnnotsOf(c)[A.CONF + Join(t)] == c[t]
  {
    var k := A.CONF + Join(t);
    assert k[|A.CONF|..] == Join(t);
    SplitOfJoin(t);
    if k in KeysOf(c) {
      var u :| u in c && u != [] && A.CONF + Join(u) == k;
      assert Join(u) == k[|A.CONF|..];
      JoinInjective(t, u);
    }
  }

  lemma ReadAt(c: Config, annots: A.Annots, t: seq<string>)
    requires (forall u :: u in c ==> Tokens(u)) && annots == AnnotsOf(c) && Tokens(t)
    ensures t in ConfigOf(annots) <==> t in c
    ensures t in c ==> ConfigOf(annots)[t] == c[t]
  {
    InConfig(annots, t);
    KeyOf(c, t);
    assert annots.Keys == KeysOf(c);
  }

  ghost predicate SameAt(c: Config, d: Config, t: seq<string>) {
    (t in c <==> t in d) && (t in c ==> c[t] == d[t])
  }

  lemma SameEverywhere(c: Config, d: Config)
    requires forall t :: t in c || t in d ==> SameAt(c, d, t)
    ensures c == d
  {
  }

  lemma ReadBack(c: Config)
    requires forall t :: t in c ==> Tokens(t)
    ensures ConfigOf(AnnotsOf(c)) == c
  {
    var annots := AnnotsOf(c);
    var read := ConfigOf(annots);
    forall t | t in c || t in read ensures SameAt(c, read, t) {
      ReadAt(c, annots, t);
    }
    SameEverywhere(c, read);
  }
}
