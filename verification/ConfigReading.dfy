/** Which annotation each part of a source is read from. */
module ConfigReading {
  import opened Wrappers
  import opened Text
  import opened Sources
  import opened ConfigElements
  import A = Annotations

  const OWN_WORDS := {"type", "order", "name", "dataKey", "url", "discoveryEndpoint", "secret"}

  /** The annotation of a source under one word. */
  function Own(annots: A.Annots, id: string, w: string): string {
    Indexed(annots, A.CONF + id + "." + w)
  }

  /** The annotation of a header or a POST data entry of a source. */
  function Inner(annots: A.Annots, id: string, kind: string, sub: string, w: string): string {
    Indexed(annots, A.CONF + id + "." + kind + "." + sub + "." + w)
  }

  lemma OwnIsRead(annots: A.Annots, id: string, w: string)
    requires DotFree(id) && DotFree(w)
    ensures Indexed(ConfigOf(annots), [id, w]) == Own(annots, id, w)
  {
    JoinTwo(id, w);
    assert A.CONF + (id + "." + w) == A.CONF + id + "." + w;
    InConfig(annots, [id, w]);
  }

  lemma InnerName(id: string, kind: string, sub: string, w: string)
    requires DotFree(id) && DotFree(kind) && DotFree(sub) && DotFree(w)
    ensures Tokens([id, kind, sub, w])
    ensures A.CONF + Join([id, kind, sub, w]) == A.CONF + id + "." + kind + "." + sub + "." + w
  {
    JoinFour(id, kind, sub, w);
    assert A.CONF + (id + "." + kind + "." + sub + "." + w) == A.CONF + id + "." + kind + "." + sub + "." + w;
  }

  lemma InnerIsRead(annots: A.Annots, id: string, kind: string, sub: string, w: string)
    requires DotFree(id) && DotFree(kind) && DotFree(sub) && DotFree(w)
    ensures Indexed(ConfigOf(annots), [id, kind, sub, w]) == Inner(annots, id, kind, sub, w)
  {
    InnerName(id, kind, sub, w);
    InConfig(annots, [id, kind, sub, w]);
  }

  lemma IdIsDotFree(annots: A.Annots, id: string)
    requires id in Ids(ConfigOf(annots))
    ensures DotFree(id)
  {
  }

  /** What the fields of a source of each kind are. */
  ghost predicate FieldsAre(e: Source, own: string -> string) {
    && e.kind == own("type") && Atoi(own("order")) == Some(e.order)
    && (e.kind == "configmap" ==> e.name == own("name") && e.dataKey == own("dataKey"))
    && (e.kind == "web" ==> e.url == own("url"))
    && (e.kind == "oidc_registration" ==> e.discoveryEndpoint == own("discoveryEndpoint") && e.secret == own("secret"))
  }

  lemma ElementFields(c: Config, id: string, e: Source)
    requires ElementOf(c, id, e)
    ensures FieldsAre(e, w => Indexed(c, [id, w]))
  {
  }

  lemma FieldWords()
    ensures forall w :: w in OWN_WORDS ==> DotFree(w)
  {
  }

  lemma FieldsRead(e: Source, f: string -> string, g: string -> string)
    requires FieldsAre(e, f)
    requires forall w :: w in OWN_WORDS ==> f(w) == g(w)
    ensures FieldsAre(e, g)
  {
  }

  /** Each field of a source is the annotation of its name. */
  lemma SourceIsRead(annots: A.Annots, id: string, e: Source)
    requires id in Ids(ConfigOf(annots)) && ElementOf(ConfigOf(annots), id, e)
    ensures FieldsAre(e, w => Own(annots, id, w))
  {
    var (c, f, g) := (ConfigOf(annots), w => Indexed(ConfigOf(annots), [id, w]), w => Own(annots, id, w));
    IdIsDotFree(annots, id);
    ElementFields(c, id, e);
    FieldWords();
    forall w | w in OWN_WORDS ensures f(w) == g(w) {
      OwnIsRead(annots, id, w);
    }
    FieldsRead(e, f, g);
  }

  /** The header that is read under `h`. */
  function HeaderRead(annots: A.Annots, id: string, h: string): Header {
    Header(Inner(annots, id, "header", h, "name"), Inner(annots, id, "header", h, "type"),
           Inner(annots, id, "header", h, "value"), Inner(annots, id, "header", h, "secretKey"))
  }

  lemma HeaderIsRead(annots: A.Annots, id: string, h: string)
    requires DotFree(id) && DotFree(h)
    ensures HeaderAt(ConfigOf(annots), id, h) == HeaderRead(annots, id, h)
  {
    InnerIsRead(annots, id, "header", h, "name");
    InnerIsRead(annots, id, "header", h, "type");
    InnerIsRead(annots, id, "header", h, "value");
    InnerIsRead(annots, id, "header", h, "secretKey");
  }

  /** The headers of a web source are those that have a type under its name. */
  lemma HeadersAreRead(annots: A.Annots, id: string, e: Source, header: Header)
    requires id in Ids(ConfigOf(annots)) && ElementOf(ConfigOf(annots), id, e) && e.kind == "web"
    ensures header in e.headers <==>
      exists h :: DotFree(h) && header == HeaderRead(annots, id, h) && header.kind != ""
  {
    var c := ConfigOf(annots);
    IdIsDotFree(annots, id);
    var hs :| Enumerates(hs, HeadersNamed(c, id)) && HeadersListed(c, id, hs, e.headers);
    if header in e.headers {
      var i :| 0 <= i < |hs| && e.headers[i] == header;
      assert hs[i] in HeadersNamed(c, id);
      HeaderIsRead(annots, id, hs[i]);
    }
    forall h | DotFree(h) && header == HeaderRead(annots, id, h) && header.kind != "" ensures header in e.headers {
      HeaderIsNamed(annots, id, h);
      HeaderIsRead(annots, id, h);
      var i :| 0 <= i < |hs| && hs[i] == h;
      assert e.headers[i] == header;
    }
  }

  lemma HeaderIsNamed(annots: A.Annots, id: string, h: string)
    requires DotFree(id) && DotFree(h) && Inner(annots, id, "header", h, "type") != ""
    ensures h in HeadersNamed(ConfigOf(annots), id)
  {
    var t := [id, "header", h, "type"];
    InnerIsRead(annots, id, "header", h, "type");
    assert t in ConfigOf(annots) && |t| >= 3 && t[1] == "header" && t[2] == h;
  }

  /** The POST data entry `p` is the one under `pid`. */
  ghost predicate PostRead(annots: A.Annots, id: string, pid: string, p: PostData) {
    && p.name == Inner(annots, id, "postData", pid, "name") != ""
    && p.value == Inner(annots, id, "postData", pid, "value")
    && (if p.value != "" then p.values == None else ValuesOf(ConfigOf(annots), pid, p.values))
  }

  lemma PostIsRead(annots: A.Annots, id: string, pid: string, p: PostData)
    requires DotFree(id) && DotFree(pid)
    requires Indexed(ConfigOf(annots), [id, "postData", pid, "name"]) != "" && PostAt(ConfigOf(annots), id, pid, p)
    ensures PostRead(annots, id, pid, p)
  {
    InnerIsRead(annots, id, "postData", pid, "name");
    InnerIsRead(annots, id, "postData", pid, "value");
  }

  lemma PostIsListed(c: Config, id: string, e: Source, p: PostData) returns (pid: string)
    requires ElementOf(c, id, e) && e.kind == OIDC && p in e.postData
    ensures pid in PostsNamed(c, id) && PostAt(c, id, pid, p)
  {
    var ps :| Enumerates(ps, PostsNamed(c, id)) && PostsListed(c, id, ps, e.postData);
    var i :| 0 <= i < |ps| && e.postData[i] == p;
    pid := ps[i];
  }

  lemma PostIdIsDotFree(annots: A.Annots, pid: string)
    requires pid in PostIds(ConfigOf(annots))
    ensures DotFree(pid)
  {
  }

  /** Every POST data entry of an OIDC source has the name and the value of some entry. */
  lemma PostsAreRead(annots: A.Annots, id: string, e: Source, p: PostData)
    requires id in Ids(ConfigOf(annots)) && ElementOf(ConfigOf(annots), id, e) && e.kind == "oidc_registration"
    requires p in e.postData
    ensures exists pid :: DotFree(pid) && PostRead(annots, id, pid, p)
  {
    IdIsDotFree(annots, id);
    var pid := PostIsListed(ConfigOf(annots), id, e, p);
    PostIdIsDotFree(annots, pid);
    PostIsRead(annots, id, pid, p);
  }

  /** The values of a POST data entry are gathered over all sources, whichever of them lists them. */
  lemma ValuesOfAnySource(c: Config, pid: string, values: Option<seq<string>>, t: seq<string>)
    requires ValuesOf(c, pid, values) && t in c && |t| >= 4 && t[1] == "postData" && t[2] == pid && "values" <= t[3]
    ensures values.Some? && c[t] in values.value
  {
    assert t in ValueKeys(c, pid);
    var ts :| Enumerates(ts, ValueKeys(c, pid)) && ValuesListed(c, ts, values.value);
    var i :| 0 <= i < |ts| && ts[i] == t;
    assert values.value[i] == c[t];
  }
}
