/** Two visits of the same annotations yield the same sources up to order, and sorting them by
    their order value gives one sequence if the order values differ. */
module ConfigOrder {
  import opened Wrappers
  import opened Text
  import opened Sources
  import opened ConfigElements

  function Map<T, U>(f: T -> U, xs: seq<T>): seq<U> {
    seq(|xs|, i requires 0 <= i < |xs| => f(xs[i]))
  }

  function Without<T>(xs: seq<T>, j: nat): seq<T>
    requires j < |xs|
  {
    xs[..j] + xs[j + 1..]
  }

  lemma WithoutEnumerates<T(!new)>(xs: seq<T>, j: nat, s: set<T>)
    requires j < |xs| && Enumerates(xs, s)
    ensures Enumerates(Without(xs, j), s - {xs[j]})
  {
  }

  lemma WithoutImage<U>(us: seq<U>, j: nat)
    requires j < |us|
    ensures multiset(us) == multiset{us[j]} + multiset(Without(us, j))
  {
    assert us == us[..j] + ([us[j]] + us[j + 1..]);
  }

  /** Two listings of one set, with an image of every member beside it: the images are the same
      multiset. */
  lemma {:induction false} ListingsAgree<T(!new), U>(xs: seq<T>, us: seq<U>, ys: seq<T>, ws: seq<U>, s: set<T>)
    requires Enumerates(xs, s) && Enumerates(ys, s) && |us| == |xs| && |ws| == |ys|
    requires forall i, j :: 0 <= i < |xs| && 0 <= j < |ys| && xs[i] == ys[j] ==> us[i] == ws[j]
    ensures |xs| == |ys| && multiset(us) == multiset(ws)
    decreases |xs|
  {
    if xs == [] {
      ListedNotEmpty(xs, s);
      ListedNotEmpty(ys, s);
    } else {
      assert xs[0] in s;
      var j :| 0 <= j < |ys| && ys[j] == xs[0];
      WithoutEnumerates(xs, 0, s);
      WithoutEnumerates(ys, j, s);
      ListingsAgree(Without(xs, 0), Without(us, 0), Without(ys, j), Without(ws, j), s - {xs[0]});
      WithoutImage(us, 0);
      WithoutImage(ws, j);
    }
  }

  lemma ListedNotEmpty<T(!new)>(xs: seq<T>, s: set<T>)
    requires Enumerates(xs, s)
    ensures xs == [] <==> s == {}
  {
    assert xs != [] ==> xs[0] in s;
    assert xs == [] ==> forall x :: x !in s;
  }

  // ----- equality of sources up to the order of their parts

  datatype PostView = PostView(name: string, value: string, values: Option<multiset<string>>)

  function View(p: PostData): PostView {
    PostView(p.name, p.value, if p.values.None? then None else Some(multiset(p.values.value)))
  }

  ghost predicate SameSource(e: Source, f: Source) {
    && e.(headers := [], postData := []) == f.(headers := [], postData := [])
    && multiset(e.headers) == multiset(f.headers)
    && multiset(Map(View, e.postData)) == multiset(Map(View, f.postData))
  }

  lemma SameValues(c: Config, pid: string, v: Option<seq<string>>, w: Option<seq<string>>)
    requires ValuesOf(c, pid, v) && ValuesOf(c, pid, w)
    ensures v.Some? <==> w.Some?
    ensures v.Some? ==> multiset(v.value) == multiset(w.value)
  {
    if v.Some? {
      var ts :| Enumerates(ts, ValueKeys(c, pid)) && ValuesListed(c, ts, v.value);
      ListedNotEmpty(ts, ValueKeys(c, pid));
      if w.Some? {
        var us :| Enumerates(us, ValueKeys(c, pid)) && ValuesListed(c, us, w.value);
        ListingsAgree(ts, v.value, us, w.value, ValueKeys(c, pid));
      }
    } else if w.Some? {
      var us :| Enumerates(us, ValueKeys(c, pid)) && ValuesListed(c, us, w.value);
      ListedNotEmpty(us, ValueKeys(c, pid));
    }
  }

  lemma SameView(c: Config, id: string, pid: string, p: PostData, q: PostData)
    requires PostAt(c, id, pid, p) && PostAt(c, id, pid, q)
    ensures View(p) == View(q)
  {
    if p.value == "" { SameValues(c, pid, p.values, q.values); }
  }

  lemma SamePosts(c: Config, id: string, posts: seq<PostData>, posts': seq<PostData>)
    requires PostsOf(c, id, posts) && PostsOf(c, id, posts')
    ensures multiset(Map(View, posts)) == multiset(Map(View, posts'))
  {
    var s := PostsNamed(c, id);
    var ps :| Enumerates(ps, s) && PostsListed(c, id, ps, posts);
    var qs :| Enumerates(qs, s) && PostsListed(c, id, qs, posts');
    forall i, j | 0 <= i < |ps| && 0 <= j < |qs| && ps[i] == qs[j]
      ensures Map(View, posts)[i] == Map(View, posts')[j]
    {
      SameView(c, id, ps[i], posts[i], posts'[j]);
    }
    ListingsAgree(ps, Map(View, posts), qs, Map(View, posts'), s);
  }

  ghost function IndexIn<T>(xs: seq<T>, x: T): (i: nat)
    requires x in xs
    ensures i < |xs| && xs[i] == x
  {
    var i :| 0 <= i < |xs| && xs[i] == x;
    i
  }

  lemma SameHeaders(c: Config, id: string, headers: seq<Header>, headers': seq<Header>)
    requires HeadersOf(c, id, headers) && HeadersOf(c, id, headers')
    ensures multiset(headers) == multiset(headers')
  {
    var hs :| Enumerates(hs, HeadersNamed(c, id)) && HeadersListed(c, id, hs, headers);
    var gs :| Enumerates(gs, HeadersNamed(c, id)) && HeadersListed(c, id, gs, headers');
    ListingsAgree(hs, headers, gs, headers', HeadersNamed(c, id));
  }

  /** The annotations under one id describe one source, up to the order of its parts. */
  lemma ElementIsUnique(c: Config, id: string, e: Source, f: Source)
    requires ElementOf(c, id, e) && ElementOf(c, id, f)
    ensures SameSource(e, f)
  {
    if e.kind == WEB { SameHeaders(c, id, e.headers, f.headers); }
    if e.kind == OIDC { SamePosts(c, id, e.postData, f.postData); }
  }

  // ----- lists of sources

  /** `perm` pairs the members of the two lists, and each pair is the same source. */
  ghost predicate Matches(p: seq<Source>, q: seq<Source>, perm: seq<nat>) {
    && |p| == |q| == |perm|
    && (forall i, j :: 0 <= i < j < |perm| ==> perm[i] != perm[j])
    && (forall i :: 0 <= i < |perm| ==> perm[i] < |q| && SameSource(p[i], q[perm[i]]))
  }

  /** Whatever the iteration orders, two parses of the same annotations are permutations of each
      other. */
  lemma ParsesMatch(c: Config, p: seq<Source>, q: seq<Source>)
    requires IsParse(c, p) && IsParse(c, q)
    ensures exists perm :: Matches(p, q, perm)
  {
    var ids :| Enumerates(ids, Ids(c)) && ElementsListed(c, ids, p);
    var jds :| Enumerates(jds, Ids(c)) && ElementsListed(c, jds, q);
    var perm := Pairing(ids, jds, Ids(c));
    forall i | 0 <= i < |perm| ensures SameSource(p[i], q[perm[i]]) {
      ElementIsUnique(c, ids[i], p[i], q[perm[i]]);
    }
    assert Matches(p, q, perm);
  }

  /** Where each member of one listing stands in another. */
  lemma Pairing<T(!new)>(xs: seq<T>, ys: seq<T>, s: set<T>) returns (perm: seq<nat>)
    requires Enumerates(xs, s) && Enumerates(ys, s)
    ensures |perm| == |xs| == |ys|
    ensures forall i, j :: 0 <= i < j < |perm| ==> perm[i] != perm[j]
    ensures forall i :: 0 <= i < |perm| ==> perm[i] < |ys| && ys[perm[i]] == xs[i]
  {
    ListingsAgree(xs, xs, ys, ys, s);
    assert forall i :: 0 <= i < |xs| ==> xs[i] in s;
    perm := seq(|xs|, i requires 0 <= i < |xs| => IndexIn(ys, xs[i]));
  }

  // ----- sorting by order value

  function Insert(e: Source, sorted: seq<Source>): seq<Source> {
    if sorted == [] || e.order < sorted[0].order then [e] + sorted
    else [sorted[0]] + Insert(e, sorted[1..])
  }

  /** sort.SliceStable on the order values: equal ones keep their places. */
  function SortByOrder(es: seq<Source>): seq<Source> {
    if es == [] then [] else Insert(es[|es| - 1], SortByOrder(es[..|es| - 1]))
  }

  ghost predicate Increasing(es: seq<Source>) {
    forall i, j :: 0 <= i < j < |es| ==> es[i].order < es[j].order
  }

  ghost predicate DistinctOrders(es: seq<Source>) {
    forall i, j :: 0 <= i < j < |es| ==> es[i].order != es[j].order
  }

  lemma {:induction false} InsertKeeps(e: Source, sorted: seq<Source>)
    ensures |Insert(e, sorted)| == |sorted| + 1
    ensures forall x :: x in Insert(e, sorted) <==> x == e || x in sorted
    ensures Increasing(sorted) && (forall x :: x in sorted ==> x.order != e.order) ==> Increasing(Insert(e, sorted))
    decreases |sorted|
  {
    if sorted != [] && sorted[0].order <= e.order {
      InsertKeeps(e, sorted[1..]);
      assert sorted == [sorted[0]] + sorted[1..];
      var rest := Insert(e, sorted[1..]);
      if Increasing(sorted) && forall x :: x in sorted ==> x.order != e.order {
        assert forall x :: x in rest ==> sorted[0].order < x.order;
        assert forall i :: 0 <= i < |rest| ==> rest[i] in rest;
      }
    }
  }

  lemma {:induction false} SortKeeps(es: seq<Source>)
    ensures |SortByOrder(es)| == |es|
    ensures forall x :: x in SortByOrder(es) <==> x in es
    ensures DistinctOrders(es) ==> Increasing(SortByOrder(es))
    decreases |es|
  {
    if es != [] {
      var n := |es| - 1;
      SortKeeps(es[..n]);
      InsertKeeps(es[n], SortByOrder(es[..n]));
      assert es == es[..n] + [es[n]];
      if DistinctOrders(es) {
        forall x | x in es[..n] ensures x.order != es[n].order {
          var i :| 0 <= i < n && es[i] == x;
        }
      }
    }
  }

  ghost predicate Ordered(es: seq<Source>) {
    forall i, j :: 0 <= i < j < |es| ==> es[i].order <= es[j].order
  }

  /** The members with a given order value, in their order of appearance. */
  ghost function OfOrder(es: seq<Source>, v: int): seq<Source> {
    if es == [] then [] else (if es[0].order == v then [es[0]] else []) + OfOrder(es[1..], v)
  }

  lemma {:induction false} OfOrderAppend(es: seq<Source>, e: Source, v: int)
    ensures OfOrder(es + [e], v) == OfOrder(es, v) + if e.order == v then [e] else []
    decreases |es|
  {
    if es == [] {
      assert [e][1..] == [];
    } else {
      assert (es + [e])[1..] == es[1..] + [e];
      OfOrderAppend(es[1..], e, v);
    }
  }

  lemma {:induction false} NoneOfOrder(es: seq<Source>, v: int)
    requires forall i :: 0 <= i < |es| ==> es[i].order != v
    ensures OfOrder(es, v) == []
    decreases |es|
  {
    if es != [] { NoneOfOrder(es[1..], v); }
  }

  lemma {:induction false} InsertIsOrdered(e: Source, sorted: seq<Source>)
    requires Ordered(sorted)
    ensures Ordered(Insert(e, sorted))
    decreases |sorted|
  {
    if sorted != [] && sorted[0].order <= e.order {
      InsertIsOrdered(e, sorted[1..]);
      InsertKeeps(e, sorted[1..]);
      var rest := Insert(e, sorted[1..]);
      forall i | 0 <= i < |rest| ensures sorted[0].order <= rest[i].order {
        assert rest[i] in rest;
      }
    }
  }

  lemma {:induction false} InsertIsStable(e: Source, sorted: seq<Source>, v: int)
    requires Ordered(sorted)
    ensures OfOrder(Insert(e, sorted), v) == OfOrder(sorted, v) + if e.order == v then [e] else []
    decreases |sorted|
  {
    if sorted == [] || e.order < sorted[0].order {
      assert ([e] + sorted)[1..] == sorted;
      if e.order == v { NoneOfOrder(sorted, v); }
    } else {
      InsertIsStable(e, sorted[1..], v);
      assert ([sorted[0]] + Insert(e, sorted[1..]))[1..] == Insert(e, sorted[1..]);
    }
  }

  /** The sort is stable: the result is ordered, and sources of the same order value appear in it
      as they did before. */
  lemma {:induction false} SortIsStable(es: seq<Source>, v: int)
    ensures Ordered(SortByOrder(es)) && OfOrder(SortByOrder(es), v) == OfOrder(es, v)
    decreases |es|
  {
    if es != [] {
      var n := |es| - 1;
      SortIsStable(es[..n], v);
      InsertIsOrdered(es[n], SortByOrder(es[..n]));
      InsertIsStable(es[n], SortByOrder(es[..n]), v);
      OfOrderAppend(es[..n], es[n], v);
      assert es == es[..n] + [es[n]];
    }
  }

  ghost function Orders(es: seq<Source>): set<int> {
    set e | e in es :: e.order
  }

  lemma {:induction false} IncreasingIsDetermined(p: seq<Source>, q: seq<Source>)
    requires Increasing(p) && Increasing(q) && Orders(p) == Orders(q)
    ensures |p| == |q| && forall i :: 0 <= i < |p| ==> p[i].order == q[i].order
    decreases |p|
  {
    if p == [] {
      assert q == [] || q[0].order in Orders(q);
    } else {
      assert p[0].order in Orders(p);
      assert q != [];
      assert q[0].order in Orders(q);
      assert p[0].order == q[0].order;
      TailOrders(p);
      TailOrders(q);
      IncreasingIsDetermined(p[1..], q[1..]);
    }
  }

  lemma TailOrders(p: seq<Source>)
    requires Increasing(p) && p != []
    ensures Increasing(p[1..]) && Orders(p[1..]) == Orders(p) - {p[0].order}
  {
  }

  /** The order values of the configured sources differ. */
  ghost predicate OrdersDiffer(c: Config) {
    forall i, j :: i in Ids(c) && j in Ids(c) && i != j ==>
      Atoi(Indexed(c, [i, "order"])) != Atoi(Indexed(c, [j, "order"]))
  }

  ghost function OrderValues(c: Config): set<int> {
    set id | id in Ids(c) && Atoi(Indexed(c, [id, "order"])).Some? :: Atoi(Indexed(c, [id, "order"])).value
  }

  lemma SortedParse(c: Config, p: seq<Source>)
    requires IsParse(c, p) && OrdersDiffer(c)
    ensures var s := SortByOrder(p);
      Increasing(s) && Orders(s) == OrderValues(c) && forall i :: 0 <= i < |s| ==> s[i] in p
  {
    OrdersOfParse(c, p);
    SortKeeps(p);
    assert forall i :: 0 <= i < |SortByOrder(p)| ==> SortByOrder(p)[i] in SortByOrder(p);
  }

  /** With distinct order values the sorted sequence handed to the merge is the same for every
      iteration order, each source up to the order of its headers and POST data. */
  lemma MergeOrderIsUnique(c: Config, p: seq<Source>, q: seq<Source>)
    requires IsParse(c, p) && IsParse(c, q) && OrdersDiffer(c)
    ensures var (s, t) := (SortByOrder(p), SortByOrder(q));
      |s| == |t| && Increasing(s) && forall i :: 0 <= i < |s| ==> SameSource(s[i], t[i])
  {
    SortedParse(c, p);
    SortedParse(c, q);
    var (s, t) := (SortByOrder(p), SortByOrder(q));
    IncreasingIsDetermined(s, t);
    forall i | 0 <= i < |s| ensures SameSource(s[i], t[i]) {
      SameOrderSameSource(c, p, q, s[i], t[i]);
    }
  }

  lemma SameOrderSameSource(c: Config, p: seq<Source>, q: seq<Source>, e: Source, f: Source)
    requires IsParse(c, p) && IsParse(c, q) && OrdersDiffer(c)
    requires e in p && f in q && e.order == f.order
    ensures SameSource(e, f)
  {
    var (x, y) := (IdOf(c, p, e), IdOf(c, q, f));
    assert x == y;
    ElementIsUnique(c, x, e, f);
  }

  ghost function IdOf(c: Config, p: seq<Source>, e: Source): (id: string)
    requires IsParse(c, p) && e in p
    ensures id in Ids(c) && ElementOf(c, id, e)
  {
    var ids :| Enumerates(ids, Ids(c)) && ElementsListed(c, ids, p);
    assert ids[IndexIn(p, e)] in ids;
    ids[IndexIn(p, e)]
  }

  lemma OrdersOfParse(c: Config, p: seq<Source>)
    requires IsParse(c, p) && OrdersDiffer(c)
    ensures DistinctOrders(p)
    ensures Orders(p) == OrderValues(c)
  {
  }
}
