/** What the annotation parser refuses, and what the lists it accepts are like. */
module ConfigRefusals {
  import opened Wrappers
  import opened Text
  import opened Sources
  import opened ConfigElements
  import opened Drivers
  import A = Annotations

  // ----- accepted lists

  lemma ElementIsOfItsKind(c: Config, id: string, e: Source)
    requires ValidId(c, id) && ElementOf(c, id, e)
    ensures e.kind == CONFIGMAP || e.kind == WEB || e.kind == OIDC
  {
  }

  lemma {:induction false} AtMostOneOidc(c: Config, ids: seq<string>, es: seq<Source>)
    requires ElementsListed(c, ids, es)
    requires forall i, j :: 0 <= i < j < |ids| ==>
      !(Indexed(c, [ids[i], "type"]) == OIDC && Indexed(c, [ids[j], "type"]) == OIDC)
    ensures |Oidcs(es)| <= 1
    ensures (forall i :: 0 <= i < |ids| ==> Indexed(c, [ids[i], "type"]) != OIDC) ==> Oidcs(es) == []
    decreases |es|
  {
    if es != [] {
      var n := |es| - 1;
      assert ElementOf(c, ids[n], es[n]);
      AtMostOneOidc(c, ids[..n], es[..n]);
    }
  }

  lemma KnownKinds(c: Config, ids: seq<string>, es: seq<Source>, i: nat)
    requires Accepts(c) && Enumerates(ids, Ids(c)) && ElementsListed(c, ids, es) && i < |es|
    ensures es[i].kind == CONFIGMAP || es[i].kind == WEB || es[i].kind == OIDC
  {
    assert ids[i] in Ids(c);
    ElementIsOfItsKind(c, ids[i], es[i]);
  }

  lemma OneOidcListed(c: Config, ids: seq<string>, es: seq<Source>)
    requires Accepts(c) && Enumerates(ids, Ids(c)) && ElementsListed(c, ids, es)
    ensures |Oidcs(es)| <= 1
  {
    forall i, j | 0 <= i < j < |ids|
      ensures !(Indexed(c, [ids[i], "type"]) == OIDC && Indexed(c, [ids[j], "type"]) == OIDC)
    {
      assert ids[i] in Ids(c) && ids[j] in Ids(c) && ids[i] != ids[j];
    }
    AtMostOneOidc(c, ids, es);
  }

  /** A list that the parser yields holds config map, web and OIDC sources only, at least one source
      and at most one OIDC source: what the webhook's driver needs. */
  lemma AcceptedAreSidecarLists(c: Config, es: seq<Source>)
    requires Accepts(c) && IsParse(c, es)
    ensures SidecarList(es) && es != [] && |Oidcs(es)| <= 1
  {
    var ids :| Enumerates(ids, Ids(c)) && ElementsListed(c, ids, es);
    forall i | 0 <= i < |es| ensures es[i].kind == CONFIGMAP || es[i].kind == WEB || es[i].kind == OIDC {
      KnownKinds(c, ids, es, i);
    }
    OneOidcListed(c, ids, es);
    NotEmpty(ids, Ids(c));
  }

  lemma NotEmpty(ids: seq<string>, all: set<string>)
    requires Enumerates(ids, all) && all != {}
    ensures ids != []
  {
    var id :| id in all;
    assert id in ids;
  }

  // ----- refused annotations

  lemma ReadAs(annots: A.Annots, key: string, t: seq<string>)
    requires Tokens(t) && key == A.CONF + Join(t) && key in annots
    ensures t in ConfigOf(annots) && ConfigOf(annots)[t] == annots[key]
  {
    InConfig(annots, t);
  }

  lemma IdIsThere(annots: A.Annots, id: string, w: string)
    requires DotFree(id) && DotFree(w) && A.CONF + id + "." + w in annots
    ensures id in Ids(ConfigOf(annots))
    ensures Indexed(ConfigOf(annots), [id, w]) == annots[A.CONF + id + "." + w]
  {
    JoinTwo(id, w);
    assert A.CONF + id + "." + w == A.CONF + (id + "." + w);
    ReadAs(annots, A.CONF + id + "." + w, [id, w]);
    assert [id, w] != [] && [id, w][0] == id;
  }

  /** A source of a type that is not known. */
  lemma UnknownTypeIsRefused(annots: A.Annots, id: string)
    requires DotFree(id) && A.CONF + id + ".type" in annots
    requires annots[A.CONF + id + ".type"] !in {"configmap", "web", "oidc_registration"}
    ensures !Accepts(ConfigOf(annots))
  {
    assert A.CONF + id + ".type" == A.CONF + id + "." + "type";
    IdIsThere(annots, id, "type");
  }

  /** A source without a type. */
  lemma MissingTypeIsRefused(annots: A.Annots, id: string, w: string)
    requires DotFree(id) && DotFree(w) && A.CONF + id + "." + w in annots && A.CONF + id + ".type" !in annots
    ensures !Accepts(ConfigOf(annots))
  {
    IdIsThere(annots, id, w);
    JoinTwo(id, "type");
    assert A.CONF + (id + "." + "type") == A.CONF + id + ".type";
    assert [id, "type"] !in ConfigOf(annots);
  }

  /** A source whose order is no number. */
  lemma BadOrderIsRefused(annots: A.Annots, id: string)
    requires DotFree(id) && A.CONF + id + ".order" in annots && Atoi(annots[A.CONF + id + ".order"]).None?
    ensures !Accepts(ConfigOf(annots))
  {
    assert A.CONF + id + ".order" == A.CONF + id + "." + "order";
    IdIsThere(annots, id, "order");
  }

  /** A web source with a header of a type that is not known. */
  lemma UnknownHeaderTypeIsRefused(annots: A.Annots, id: string, h: string)
    requires DotFree(id) && DotFree(h) && A.CONF + id + ".type" in annots && annots[A.CONF + id + ".type"] == "web"
    requires A.CONF + id + ".header." + h + ".type" in annots
    requires annots[A.CONF + id + ".header." + h + ".type"] !in {"", "secret", "literal"}
    ensures !Accepts(ConfigOf(annots))
  {
    assert A.CONF + id + ".type" == A.CONF + id + "." + "type";
    IdIsThere(annots, id, "type");
    HeaderIsThere(annots, id, h);
  }

  lemma HeaderIsThere(annots: A.Annots, id: string, h: string)
    requires DotFree(id) && DotFree(h) && A.CONF + id + ".header." + h + ".type" in annots
    ensures h in HeaderIds(ConfigOf(annots))
    ensures Indexed(ConfigOf(annots), [id, "header", h, "type"]) == annots[A.CONF + id + ".header." + h + ".type"]
  {
    var (t, key) := ([id, "header", h, "type"], A.CONF + id + ".header." + h + ".type");
    HeaderName(id, h);
    ReadAs(annots, key, t);
    assert |t| == 4 && t[1] == "header" && t[2] == h;
  }

  lemma HeaderName(id: string, h: string)
    requires DotFree(id) && DotFree(h)
    ensures Tokens([id, "header", h, "type"])
    ensures A.CONF + id + ".header." + h + ".type" == A.CONF + Join([id, "header", h, "type"])
  {
    JoinFour(id, "header", h, "type");
    assert "." + "header" + "." == ".header." && "." + "type" == ".type";
    var c := A.CONF;
    assert c + (id + "." + "header" + "." + h + "." + "type") == c + id + ("." + "header" + ".") + h + ("." + "type");
  }

  /** A second OIDC source. */
  lemma SecondOidcIsRefused(annots: A.Annots, id: string, other: string)
    requires DotFree(id) && DotFree(other) && id != other
    requires A.CONF + id + ".type" in annots && annots[A.CONF + id + ".type"] == "oidc_registration"
    requires A.CONF + other + ".type" in annots && annots[A.CONF + other + ".type"] == "oidc_registration"
    ensures !Accepts(ConfigOf(annots))
  {
    assert A.CONF + id + ".type" == A.CONF + id + "." + "type";
    assert A.CONF + other + ".type" == A.CONF + other + "." + "type";
    IdIsThere(annots, id, "type");
    IdIsThere(annots, other, "type");
  }

  /** No source at all. */
  lemma NoSourceIsRefused(annots: A.Annots)
    requires forall k :: k in annots ==> !A.HasPrefix(k, A.CONF)
    ensures !Accepts(ConfigOf(annots))
  {
  }

  // ----- which orders are numbers

  predicate AllDigits(s: string) {
    forall c :: c in s ==> '0' <= c <= '9'
  }

  lemma {:induction false} DigitsIff(s: string)
    ensures DigitsValue(s).Some? <==> AllDigits(s)
  {
    if s != "" {
      var (front, c) := (s[..|s| - 1], s[|s| - 1]);
      assert s == front + [c];
      DigitsIff(front);
      OneMoreDigit(front, c);
    }
  }

  lemma OneMoreDigit(front: string, c: char)
    ensures AllDigits(front + [c]) <==> AllDigits(front) && '0' <= c <= '9'
  {
    assert c in front + [c];
    assert forall d :: d in front ==> d in front + [c];
  }

  /** An order is at least one digit, perhaps after a sign, and fits into 64 bits. */
  lemma AtoiIff(s: string)
    ensures var digits := if s != "" && s[0] in {'+', '-'} then s[1..] else s;
      && (Atoi(s).Some? <==>
            && digits != "" && AllDigits(digits) && DigitsValue(digits).Some?
            && DigitsValue(digits).value <= 0x7fff_ffff_ffff_ffff + if s[0] == '-' then 1 else 0)
      && (Atoi(s).Some? ==>
            var n: int := DigitsValue(digits).value; Atoi(s).value == if s[0] == '-' then -n else n)
  {
    DigitsIff(if s != "" && s[0] in {'+', '-'} then s[1..] else s);
  }

  lemma AtoiExamples()
    ensures Atoi("12") == Some(12) && Atoi("-7") == Some(-7) && Atoi("+7") == Some(7) && Atoi("007") == Some(7)
    ensures Atoi("") == None && Atoi("1.5") == None && Atoi("--1") == None && Atoi("-") == None
  {
    assert "12"[..1] == "1" && "1"[..0] == "" && DigitsValue("1") == Some(1);
    assert "7"[..0] == "" && "-7"[1..] == "7" && "+7"[1..] == "7";
    assert "007"[..2] == "00" && "00"[..1] == "0" && "0"[..0] == "";
    assert DigitsValue("0") == Some(0) && DigitsValue("00") == Some(0);
    AtoiIff("1.5");
    AtoiIff("--1");
    AtoiIff("-");
    assert "--1"[1..][0] == '-' && "1.5"[1] == '.';
  }
}
