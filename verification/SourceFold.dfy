/** Merging any number of configuration sources into the master, one after the other. */
module SourceFold {
  import opened Trees
  import opened Wrappers
  import opened PlainMerge
  import opened ListOrder

  ghost function MergeAll(sources: seq<Fields>): Fields {
    if sources == [] then map[]
    else Merge(MergeAll(sources[..|sources| - 1]), sources[|sources| - 1])
  }

  ghost predicate Holds(sources: seq<Fields>, key: string, v: Value) {
    key in MergeAll(sources) && MergeAll(sources)[key] == v
  }

  ghost predicate FreshDocs(sources: seq<Fields>) {
    forall i :: 0 <= i < |sources| ==> FreshDoc(sources[i])
  }

  ghost predicate MapsAt(sources: seq<Fields>, i: nat, key: string) {
    i < |sources| && key in sources[i] && sources[i][key].IMap?
  }

  // ----- the hidden machine behind one top-level key

  /** What a key of the master is made of: nothing, a scalar, a joined sequence, the mapping of
      source `i` as parsed, or the mappings of sources `i` and `j` merged. */
  datatype KeyState =
    | Absent
    | Single(v: Value)
    | List(elems: seq<Value>)
    | Parsed(i: nat)
    | Merged(i: nat, j: nat)

  ghost predicate ValidState(sources: seq<Fields>, key: string, st: KeyState) {
    match st
    case Single(v) => v.Null? || v.Scalar?
    case List(es) => Fresh(Seq(es))
    case Parsed(i) => MapsAt(sources, i, key)
    case Merged(i, j) => i < j && MapsAt(sources, i, key) && MapsAt(sources, j, key)
                         && sources[i][key] != sources[j][key]
    case Absent => true
  }

  ghost function Denote(sources: seq<Fields>, key: string, st: KeyState): Option<Value>
    requires ValidState(sources, key, st)
  {
    match st
    case Absent => None
    case Single(v) => Some(v)
    case List(es) => Some(Seq(es))
    case Parsed(i) => Some(sources[i][key])
    case Merged(i, j) => Some(MergeValue(sources[i][key], sources[j][key]))
  }

  ghost function Step(sources: seq<Fields>, key: string, st: KeyState, n: nat): KeyState
    requires n < |sources| && ValidState(sources, key, st)
  {
    if key !in sources[n] then st
    else match sources[n][key]
      case IMap(_) =>
        if st.Parsed? && sources[st.i][key] != sources[n][key] then Merged(st.i, n) else Parsed(n)
      case Seq(es) =>
        if st.List? && st.elems != es then List(es + st.elems) else List(es)
      case v => Single(v)
  }

  /** The state of `key` after the first `n` sources. */
  ghost function Run(sources: seq<Fields>, key: string, n: nat): (st: KeyState)
    requires n <= |sources| && FreshDocs(sources)
    ensures ValidState(sources, key, st)
    ensures st.Parsed? ==> st.i < n
    ensures st.Merged? ==> st.j < n
  {
    if n == 0 then Absent
    else
      assert FreshDoc(sources[n - 1]);
      Step(sources, key, Run(sources, key, n - 1), n - 1)
  }

  ghost function OrNull(held: Option<Value>): Value {
    if held.Some? then held.value else Null
  }

  lemma StepLaw(sources: seq<Fields>, key: string, st: KeyState, n: nat)
    requires n < |sources| && FreshDoc(sources[n]) && ValidState(sources, key, st) && (st.Parsed? ==> st.i < n)
    ensures ValidState(sources, key, Step(sources, key, st, n))
    ensures Denote(sources, key, Step(sources, key, st, n))
         == if key in sources[n] then Some(MergeValue(OrNull(Denote(sources, key, st)), sources[n][key]))
            else Denote(sources, key, st)
  {
  }

  /** Over any number of sources, every key of the master holds exactly what its machine says. */
  lemma {:induction false} FoldLaw(sources: seq<Fields>, key: string, n: nat)
    requires n <= |sources| && FreshDocs(sources)
    ensures var master, held := MergeAll(sources[..n]), Denote(sources, key, Run(sources, key, n));
      (key in master <==> held.Some?) && Lookup(master, key) == OrNull(held)
  {
    if n > 0 {
      FoldLaw(sources, key, n - 1);
      assert FreshDoc(sources[n - 1]);
      StepLaw(sources, key, Run(sources, key, n - 1), n - 1);
      assert sources[..n][..n - 1] == sources[..n - 1];
      assert MergeAll(sources[..n]) == Merge(MergeAll(sources[..n - 1]), sources[n - 1]);
    }
  }

  lemma WholeFoldLaw(sources: seq<Fields>, key: string, st: KeyState)
    requires FreshDocs(sources) && st == Run(sources, key, |sources|)
    ensures match Denote(sources, key, st)
      case None => key !in MergeAll(sources)
      case Some(v) => Holds(sources, key, v)
  {
    FoldLaw(sources, key, |sources|);
    assert sources[..|sources|] == sources;
  }

  lemma MergedIsTagged(sources: seq<Fields>, key: string, st: KeyState)
    requires ValidState(sources, key, st)
    ensures st.Merged? ==> Denote(sources, key, st).value.SMap?
  {
  }

  lemma OneMapping(sources: seq<Fields>, key: string, i: nat)
    requires FreshDocs(sources) && Run(sources, key, |sources|) == Parsed(i)
    ensures MapsAt(sources, i, key) && Holds(sources, key, sources[i][key])
  {
    WholeFoldLaw(sources, key, Parsed(i));
  }

  lemma TwoMappings(sources: seq<Fields>, key: string, i: nat, j: nat)
    requires FreshDocs(sources) && Run(sources, key, |sources|) == Merged(i, j)
    ensures i < j && MapsAt(sources, i, key) && MapsAt(sources, j, key)
    ensures Holds(sources, key, MergeValue(sources[i][key], sources[j][key]))
  {
    WholeFoldLaw(sources, key, Merged(i, j));
  }

  /** However many sources map a key, its mapping in the master comes from at most two of them. */
  lemma AtMostTwoSources(sources: seq<Fields>, key: string)
    requires FreshDocs(sources)
    requires key in MergeAll(sources) && IsMapping(MergeAll(sources)[key])
    ensures exists i, j :: 0 <= i <= j < |sources| && MapsAt(sources, i, key) && MapsAt(sources, j, key)
              && Holds(sources, key, MergeValue(sources[i][key], sources[j][key]))
  {
    WholeFoldLaw(sources, key, Run(sources, key, |sources|));
    match Run(sources, key, |sources|)
    case Parsed(i) => assert Holds(sources, key, MergeValue(sources[i][key], sources[i][key]));
    case Merged(i, j) => assert Holds(sources, key, MergeValue(sources[i][key], sources[j][key]));
  }

  // ----- a run of sequences

  ghost predicate ListAt(sources: seq<Fields>, key: string, i: nat) {
    i < |sources| && key in sources[i] && sources[i][key].Seq?
  }

  ghost function EntriesAt(sources: seq<Fields>, key: string, i: nat): seq<Value> {
    if ListAt(sources, key, i) then sources[i][key].elems else []
  }

  /** The entries of sources `from..n`, the newest source first. */
  ghost function NewestFirst(sources: seq<Fields>, key: string, from: nat, n: nat): seq<Value>
    decreases n
  {
    if n <= from then [] else EntriesAt(sources, key, n - 1) + NewestFirst(sources, key, from, n - 1)
  }

  ghost predicate SomeList(sources: seq<Fields>, key: string, from: nat, n: nat) {
    exists i: nat :: from <= i < n && ListAt(sources, key, i)
  }

  /** Source `i` does not set the key, or holds a sequence that is not the one gathered so far. */
  ghost predicate AddsEntries(sources: seq<Fields>, key: string, from: nat, i: nat) {
    i < |sources| && key in sources[i] ==>
      && ListAt(sources, key, i)
      && (SomeList(sources, key, from, i) ==> NewestFirst(sources, key, from, i) != EntriesAt(sources, key, i))
  }

  /** Sources from here on start afresh: there is none before, or the one before is no sequence. */
  ghost predicate StartsAfresh(sources: seq<Fields>, key: string, from: nat) {
    from == 0 || (from <= |sources| && key in sources[from - 1] && !ListAt(sources, key, from - 1))
  }

  lemma OneMoreList(sources: seq<Fields>, key: string, from: nat, n: nat)
    requires from <= n
    ensures SomeList(sources, key, from, n + 1) <==> SomeList(sources, key, from, n) || ListAt(sources, key, n)
    ensures NewestFirst(sources, key, from, n + 1) == EntriesAt(sources, key, n) + NewestFirst(sources, key, from, n)
  {
  }

  /** The entries of each of the sources `from..n`, in list order. */
  ghost function Lists(sources: seq<Fields>, key: string, from: nat, n: nat): seq<seq<Value>>
    requires from <= n
  {
    seq(n - from, i requires 0 <= i < n - from => EntriesAt(sources, key, from + i))
  }

  lemma {:induction false} NewestIsBackwards(sources: seq<Fields>, key: string, from: nat, n: nat)
    requires from <= n
    ensures NewestFirst(sources, key, from, n) == Backwards(Lists(sources, key, from, n))
    decreases n
  {
    if from < n {
      NewestIsBackwards(sources, key, from, n - 1);
      var xss := Lists(sources, key, from, n);
      assert xss[..|xss| - 1] == Lists(sources, key, from, n - 1) && xss[|xss| - 1] == EntriesAt(sources, key, n - 1);
    }
  }

  lemma NoListNoEntries(sources: seq<Fields>, key: string, from: nat, n: nat)
    requires !SomeList(sources, key, from, n)
    ensures NewestFirst(sources, key, from, n) == []
  {
    if from <= n {
      NewestIsBackwards(sources, key, from, n);
      var xss := Lists(sources, key, from, n);
      forall i | 0 <= i < |xss| ensures xss[i] == [] {
        var j: nat := from + i;
        assert from <= j < n && !ListAt(sources, key, j);
        assert xss[i] == EntriesAt(sources, key, j) == [];
      }
      NothingToJoin(xss);
    }
  }

  lemma RunOnList(sources: seq<Fields>, key: string, n: nat)
    requires n < |sources| && FreshDocs(sources)
    ensures var (st, es) := (Run(sources, key, n), EntriesAt(sources, key, n));
      Run(sources, key, n + 1) ==
        if key !in sources[n] then st
        else if !ListAt(sources, key, n) then Step(sources, key, st, n)
        else if st.List? && st.elems != es then List(es + st.elems) else List(es)
    ensures key in sources[n] && !ListAt(sources, key, n) ==> !Run(sources, key, n + 1).List?
  {
  }

  /** The machine has gathered the sequences since `from`, if there was any. */
  ghost predicate Gathers(sources: seq<Fields>, key: string, from: nat, n: nat)
    requires n <= |sources| && FreshDocs(sources)
  {
    var st := Run(sources, key, n);
    if SomeList(sources, key, from, n) then st == List(NewestFirst(sources, key, from, n)) else !st.List?
  }

  lemma GathersNone(sources: seq<Fields>, key: string, from: nat)
    requires from <= |sources| && FreshDocs(sources) && StartsAfresh(sources, key, from)
    ensures Gathers(sources, key, from, from)
  {
    if from > 0 { RunOnList(sources, key, from - 1); }
  }

  lemma {:induction false} RunOfLists(sources: seq<Fields>, key: string, from: nat, n: nat)
    requires from <= n <= |sources| && FreshDocs(sources) && StartsAfresh(sources, key, from)
    requires forall i: nat :: from <= i < n ==> AddsEntries(sources, key, from, i)
    ensures Gathers(sources, key, from, n)
    decreases n
  {
    if from == n {
      GathersNone(sources, key, from);
    } else {
      RunOfLists(sources, key, from, n - 1);
      OneMoreOfLists(sources, key, from, n - 1);
    }
  }

  lemma OneMoreOfLists(sources: seq<Fields>, key: string, from: nat, n: nat)
    requires from <= n < |sources| && FreshDocs(sources) && AddsEntries(sources, key, from, n)
    requires Gathers(sources, key, from, n)
    ensures Gathers(sources, key, from, n + 1)
  {
    RunOnList(sources, key, n);
    OneMoreList(sources, key, from, n);
    var (es, gathered) := (EntriesAt(sources, key, n), NewestFirst(sources, key, from, n));
    if !SomeList(sources, key, from, n) {
      NoListNoEntries(sources, key, from, n);
      assert es + [] == es;
    }
    assert [] + gathered == gathered;
  }

  /** Sequences are joined newest first, back to the last source that set the key to something
      else; sources that do not set it are passed over. */
  lemma SequencesJoinNewestFirst(sources: seq<Fields>, key: string, from: nat)
    requires from <= |sources| && FreshDocs(sources) && StartsAfresh(sources, key, from)
    requires forall i: nat :: from <= i < |sources| ==> AddsEntries(sources, key, from, i)
    requires SomeList(sources, key, from, |sources|)
    ensures Holds(sources, key, Seq(NewestFirst(sources, key, from, |sources|)))
  {
    RunOfLists(sources, key, from, |sources|);
    WholeFoldLaw(sources, key, List(NewestFirst(sources, key, from, |sources|)));
  }

  // ----- the order the user documentation shows

  lemma LastIsFirst(sources: seq<Fields>, key: string, from: nat, last: nat)
    requires from <= last
    ensures NewestFirst(sources, key, from, last + 1)
         == EntriesAt(sources, key, last) + Backwards(Lists(sources, key, from, last))
  {
    OneMoreList(sources, key, from, last);
    NewestIsBackwards(sources, key, from, last);
  }

  /** The user documentation shows the entries of the last source first and those of the others in
      list order.  Where the sources before the last one start with different entries, that is what
      the key holds exactly if at most one of them lists any. */
  lemma DocumentedOrderIff(sources: seq<Fields>, key: string, from: nat)
    requires from < |sources| && FreshDocs(sources) && StartsAfresh(sources, key, from)
    requires forall i: nat :: from <= i < |sources| ==> AddsEntries(sources, key, from, i)
    requires ListAt(sources, key, |sources| - 1) && StartApart(Lists(sources, key, from, |sources| - 1))
    ensures var (last, earlier) := (|sources| - 1, Lists(sources, key, from, |sources| - 1));
      Holds(sources, key, Seq(EntriesAt(sources, key, last) + Forwards(earlier))) <==> AtMostOneFilled(earlier)
  {
    var (last, earlier) := (|sources| - 1, Lists(sources, key, from, |sources| - 1));
    SequencesJoinNewestFirst(sources, key, from);
    LastIsFirst(sources, key, from, last);
    OrdersAgreeIff(earlier);
    OnlyOneHeld(sources, key, EntriesAt(sources, key, last), Backwards(earlier), Forwards(earlier));
  }

  lemma OnlyOneHeld(sources: seq<Fields>, key: string, es: seq<Value>, held: seq<Value>, other: seq<Value>)
    requires Holds(sources, key, Seq(es + held))
    ensures Holds(sources, key, Seq(es + other)) <==> held == other
  {
    assert (es + held)[|es|..] == held && (es + other)[|es|..] == other;
  }

  // ----- a run of mappings

  /** Sources `i - 1` and `i` both map `key`, differently. */
  ghost predicate Differs(sources: seq<Fields>, key: string, i: nat) {
    0 < i && MapsAt(sources, i - 1, key) && MapsAt(sources, i, key) && sources[i - 1][key] != sources[i][key]
  }

  /** Sources `from..` all map `key`, no two neighbours alike. */
  ghost predicate Alternating(sources: seq<Fields>, key: string, from: nat) {
    MapsAt(sources, from, key) && forall i :: from < i < |sources| ==> Differs(sources, key, i)
  }

  lemma RunOnMapping(sources: seq<Fields>, key: string, n: nat)
    requires FreshDocs(sources) && MapsAt(sources, n, key)
    ensures var st := Run(sources, key, n);
      && (!st.Parsed? ==> Run(sources, key, n + 1) == Parsed(n))
      && (st.Parsed? && st.i == n - 1 && Differs(sources, key, n) ==> Run(sources, key, n + 1) == Merged(n - 1, n))
  {
  }

  lemma {:induction false} AlternatingState(sources: seq<Fields>, key: string, from: nat, n: nat)
    requires FreshDocs(sources) && from < n <= |sources|
    requires Alternating(sources, key, from) && !Run(sources, key, from).Parsed?
    ensures Run(sources, key, n) == if (n - from) % 2 == 1 then Parsed(n - 1) else Merged(n - 2, n - 1)
    decreases n
  {
    if n == from + 1 {
      RunOnMapping(sources, key, from);
    } else {
      AlternatingState(sources, key, from, n - 1);
      assert Differs(sources, key, n - 1);
      RunOnMapping(sources, key, n - 1);
    }
  }

  /** The key holds the last mapping alone, or the merge of the last two. */
  ghost predicate EndsWith(sources: seq<Fields>, key: string, odd: bool)
    requires sources != []
  {
    var last := |sources| - 1;
    && MapsAt(sources, last, key)
    && (odd ==> Holds(sources, key, sources[last][key]))
    && (!odd ==>
          && last > 0 && MapsAt(sources, last - 1, key)
          && Holds(sources, key, MergeValue(sources[last - 1][key], sources[last][key])))
  }

  lemma EndState(sources: seq<Fields>, key: string, odd: bool)
    requires FreshDocs(sources) && |sources| > if odd then 0 else 1
    requires Run(sources, key, |sources|) == if odd then Parsed(|sources| - 1) else Merged(|sources| - 2, |sources| - 1)
    ensures EndsWith(sources, key, odd)
  {
    if odd {
      OneMapping(sources, key, |sources| - 1);
    } else {
      TwoMappings(sources, key, |sources| - 2, |sources| - 1);
    }
  }

  /** After k successive mappings with unequal neighbours the master holds the last one alone
      (k odd) or the merge of the last two (k even): the earlier ones are gone. */
  lemma SuccessiveMappings(sources: seq<Fields>, key: string, from: nat)
    requires FreshDocs(sources) && from < |sources|
    requires Alternating(sources, key, from) && !Run(sources, key, from).Parsed?
    ensures EndsWith(sources, key, (|sources| - from) % 2 == 1)
  {
    AlternatingState(sources, key, from, |sources|);
    EndState(sources, key, (|sources| - from) % 2 == 1);
  }

  // ----- when the fold is the plain merge of all sources

  ghost function PlainAll(sources: seq<Fields>): Fields {
    if sources == [] then map[]
    else Plain(PlainAll(sources[..|sources| - 1]), NormalizeDoc(sources[|sources| - 1]))
  }

  /** Source `n` maps a key whose mapping has already been merged once. */
  ghost predicate ThirdMapping(sources: seq<Fields>, key: string, n: nat)
    requires n < |sources| && FreshDocs(sources)
  {
    Run(sources, key, n).Merged? && MapsAt(sources, n, key)
  }

  /** Source `i` maps a key that is already merged, and what is held there has something that the
      plain merge would keep. */
  ghost predicate Loses(sources: seq<Fields>, key: string, i: nat)
    requires i < |sources| && FreshDocs(sources)
  {
    ThirdMapping(sources, key, i) &&
    exists path :: LostAt(Normalize(Lookup(MergeAll(sources[..i]), key)), Normalize(sources[i][key]), path)
  }

  ghost predicate LosesNothing(sources: seq<Fields>, i: nat)
    requires i < |sources| && FreshDocs(sources)
  {
    forall key :: !Loses(sources, key, i)
  }

  /** Merging the first `n` sources gives their plain merge. */
  ghost predicate MergedPlainly(sources: seq<Fields>, n: nat)
    requires n <= |sources|
  {
    NormalizeDoc(MergeAll(sources[..n])) == PlainAll(sources[..n])
  }

  ghost predicate AllKeysIn(sources: seq<Fields>, K: iset<Key>) {
    forall i :: 0 <= i < |sources| ==> FieldsKeysIn(sources[i], K)
  }

  ghost predicate PlainAt(m: Fields, doc: Fields, key: string)
    requires key in m && key in doc
  {
    Normalize(MergeValue(m[key], doc[key])) == PlainValue(Normalize(m[key]), Normalize(doc[key]))
  }

  lemma PlainPointwise(m: Fields, doc: Fields)
    ensures NormalizeDoc(Merge(m, doc)) == Plain(NormalizeDoc(m), NormalizeDoc(doc))
       <==> forall key :: key in m && key in doc ==> PlainAt(m, doc, key)
  {
    var (merged, plain) := (NormalizeDoc(Merge(m, doc)), Plain(NormalizeDoc(m), NormalizeDoc(doc)));
    if merged == plain {
      forall key | key in m && key in doc ensures PlainAt(m, doc, key) {
        assert merged[key] == plain[key];
      }
    }
  }

  lemma PlainAtIff(sources: seq<Fields>, K: iset<Key>, n: nat, key: string)
    requires n < |sources| && FreshDocs(sources) && Unambiguous(K) && AllKeysIn(sources, K)
    requires key in MergeAll(sources[..n]) && key in sources[n]
    ensures PlainAt(MergeAll(sources[..n]), sources[n], key) <==> !Loses(sources, key, n)
  {
    var v, w := MergeAll(sources[..n])[key], sources[n][key];
    if ThirdMapping(sources, key, n) {
      HeldIsMerged(sources, key, n);
      NewerStandsAloneIff(Normalize(v), Normalize(w));
      assert PlainAt(MergeAll(sources[..n]), sources[n], key) <==>
        PlainValue(Normalize(v), Normalize(w)) == Normalize(w);
      assert Lookup(MergeAll(sources[..n]), key) == v;
    } else {
      StepIsPlain(sources, K, n, key);
    }
  }

  /** A list merged to its plain merge still is after one more source exactly if that source loses
      nothing at any key. */
  lemma StepIsPlainIff(sources: seq<Fields>, K: iset<Key>, n: nat)
    requires n < |sources| && FreshDocs(sources) && Unambiguous(K) && AllKeysIn(sources, K)
    requires MergedPlainly(sources, n)
    ensures MergedPlainly(sources, n + 1) <==> LosesNothing(sources, n)
  {
    var before, doc := MergeAll(sources[..n]), sources[n];
    assert sources[..n + 1][..n] == sources[..n] && sources[..n + 1][n] == doc;
    PlainPointwise(before, doc);
    forall key | key in before && key in doc ensures PlainAt(before, doc, key) <==> !Loses(sources, key, n) {
      PlainAtIff(sources, K, n, key);
    }
    forall key | Loses(sources, key, n) ensures key in before && key in doc {
      HeldIsMerged(sources, key, n);
    }
  }

  ghost predicate PlainThroughout(sources: seq<Fields>, n: nat)
    requires n <= |sources|
  {
    forall m :: 0 <= m <= n ==> MergedPlainly(sources, m)
  }

  ghost predicate NoneLoses(sources: seq<Fields>, n: nat)
    requires n <= |sources| && FreshDocs(sources)
  {
    forall i :: 0 <= i < n ==> LosesNothing(sources, i)
  }

  lemma OneMoreOfBoth(sources: seq<Fields>, n: nat)
    requires n < |sources| && FreshDocs(sources)
    ensures PlainThroughout(sources, n + 1) <==> PlainThroughout(sources, n) && MergedPlainly(sources, n + 1)
    ensures NoneLoses(sources, n + 1) <==> NoneLoses(sources, n) && LosesNothing(sources, n)
    ensures PlainThroughout(sources, n) ==> MergedPlainly(sources, n)
  {
  }

  lemma OneMoreIsPlain(sources: seq<Fields>, K: iset<Key>, n: nat)
    requires n < |sources| && FreshDocs(sources) && Unambiguous(K) && AllKeysIn(sources, K)
    requires PlainThroughout(sources, n) <==> NoneLoses(sources, n)
    ensures PlainThroughout(sources, n + 1) <==> NoneLoses(sources, n + 1)
  {
    OneMoreOfBoth(sources, n);
    if NoneLoses(sources, n) { StepIsPlainIff(sources, K, n); }
  }

  /** Any list of sources is merged to its plain merge, up to each of its members, exactly if none of
      them loses anything. */
  lemma {:induction false} PlainThroughoutIff(sources: seq<Fields>, K: iset<Key>, n: nat)
    requires n <= |sources| && FreshDocs(sources) && Unambiguous(K) && AllKeysIn(sources, K)
    ensures PlainThroughout(sources, n) <==> NoneLoses(sources, n)
  {
    if n == 0 {
      EmptyIsPlain(sources);
    } else {
      PlainThroughoutIff(sources, K, n - 1);
      OneMoreIsPlain(sources, K, n - 1);
    }
  }

  lemma EmptyIsPlain(sources: seq<Fields>)
    requires FreshDocs(sources)
    ensures PlainThroughout(sources, 0) && NoneLoses(sources, 0)
  {
    assert sources[..0] == [];
  }

  /** When no earlier source loses anything, the whole list is merged to its plain merge exactly if
      the last one does not either. */
  lemma FoldIsPlainIff(sources: seq<Fields>, K: iset<Key>)
    requires sources != [] && FreshDocs(sources) && Unambiguous(K) && AllKeysIn(sources, K)
    requires NoneLoses(sources, |sources| - 1)
    ensures NormalizeDoc(MergeAll(sources)) == PlainAll(sources) <==> LosesNothing(sources, |sources| - 1)
  {
    var n := |sources| - 1;
    PlainThroughoutIff(sources, K, n);
    OneMoreOfBoth(sources, n);
    StepIsPlainIff(sources, K, n);
    assert sources[..|sources|] == sources;
  }

  lemma StepIsPlain(sources: seq<Fields>, K: iset<Key>, n: nat, key: string)
    requires n < |sources| && FreshDocs(sources) && Unambiguous(K) && AllKeysIn(sources, K)
    requires key in MergeAll(sources[..n]) && key in sources[n] && !ThirdMapping(sources, key, n)
    ensures var v, w := MergeAll(sources[..n])[key], sources[n][key];
      Normalize(MergeValue(v, w)) == PlainValue(Normalize(v), Normalize(w))
  {
    var v, w := MergeAll(sources[..n])[key], sources[n][key];
    FoldLaw(sources, key, n);
    assert FreshDoc(sources[n]) && FieldsKeysIn(sources[n], K);
    if !Run(sources, key, n).Merged? {
      HeldIsFresh(sources, K, key, n);
      MergeValueRefines(v, w, K);
    }
  }

  lemma {:induction false} HeldIsFresh(sources: seq<Fields>, K: iset<Key>, key: string, n: nat)
    requires n <= |sources| && FreshDocs(sources) && AllKeysIn(sources, K)
    ensures var st := Run(sources, key, n);
      !st.Merged? && !st.Absent? ==> Fresh(Denote(sources, key, st).value) && KeysIn(Denote(sources, key, st).value, K)
  {
    if n > 0 {
      HeldIsFresh(sources, K, key, n - 1);
      assert FreshDoc(sources[n - 1]) && FieldsKeysIn(sources[n - 1], K);
    }
    var st := Run(sources, key, n);
    if st.Parsed? {
      assert FreshDoc(sources[st.i]) && FieldsKeysIn(sources[st.i], K);
    }
  }

  /** The plain merge of `w` into `v` keeps the field that `w` alone does not have. */
  ghost predicate Drops(v: Value, w: Value, field: string)
    requires v.SMap? && field in v.fields
  {
    && At(Normalize(w), [field]) == None
    && At(PlainValue(Normalize(v), Normalize(w)), [field]) == Some(Normalize(v.fields[field]))
  }

  /** Otherwise the mapping held so far is dropped whole: the newest one stands alone, although
      the plain merge keeps every earlier field that it does not mention. */
  lemma ThirdMappingDropsTheRest(sources: seq<Fields>, key: string, field: string)
    requires FreshDocs(sources) && |sources| > 0
    requires ThirdMapping(sources, key, |sources| - 1)
    ensures var before, w := MergeAll(sources[..|sources| - 1]), sources[|sources| - 1][key];
      && key in before && before[key].SMap?
      && Holds(sources, key, w)
      && (field in before[key].fields && field !in Texts(w.entries) ==> Drops(before[key], w, field))
  {
    var n := |sources| - 1;
    var before, w := MergeAll(sources[..n]), sources[n][key];
    HeldIsMerged(sources, key, n);
    MergeOneMoreKey(before, sources[n], key);
    if field in before[key].fields && field !in Texts(w.entries) { DroppedField(before[key], w, field); }
  }

  lemma HeldIsMerged(sources: seq<Fields>, key: string, n: nat)
    requires n < |sources| && FreshDocs(sources) && ThirdMapping(sources, key, n)
    ensures var before := MergeAll(sources[..n]);
      key in before && before[key].SMap? && MergeValue(before[key], sources[n][key]) == sources[n][key]
  {
    FoldLaw(sources, key, n);
    MergedIsTagged(sources, key, Run(sources, key, n));
  }

  lemma MergeOneMoreKey(m: Fields, doc: Fields, key: string)
    requires key in m && key in doc
    ensures key in Merge(m, doc) && Merge(m, doc)[key] == MergeValue(m[key], doc[key])
  {
  }

  lemma DroppedField(v: Value, w: Value, field: string)
    requires v.SMap? && w.IMap? && field in v.fields && field !in Texts(w.entries)
    ensures Drops(v, w, field)
  {
  }

  // ----- the shape of every reachable master

  lemma MergeKeepsShape(m: Fields, doc: Fields)
    requires ShapedDoc(m) && FreshDoc(doc)
    ensures ShapedDoc(Merge(m, doc))
  {
    forall s | s in Merge(m, doc) ensures Shaped(Merge(m, doc)[s]) {
      if s in doc { MergeValueShaped(Lookup(m, s), doc[s]); } else { assert Shaped(m[s]); }
    }
  }

  lemma {:induction false} MergeValueShaped(older: Value, newer: Value)
    requires Shaped(older) && Fresh(newer)
    ensures Shaped(MergeValue(older, newer))
    decreases newer
  {
    if older != newer && newer.IMap? && older.IMap? {
      var (e1, e2) := (older.entries, newer.entries);
      var merged := MergeValue(older, newer);
      ConvertedFresh(e1); ConvertedFresh(e2);
      FreshIsShaped(ConvertKeys(e1));
      forall s | s in merged.fields ensures Shaped(merged.fields[s]) {
        if s in Texts(e2) {
          assert ConvertKeys(e2)[s] == Get(e2, s);
          MergeValueShaped(Lookup(ConvertKeys(e1), s), Get(e2, s));
        } else {
          assert ConvertKeys(e1)[s] == Get(e1, s);
        }
      }
    }
  }

  lemma {:induction false} MergeValueKeysIn(older: Value, newer: Value, K: iset<Key>)
    requires KeysIn(older, K) && KeysIn(newer, K)
    ensures KeysIn(MergeValue(older, newer), K)
    decreases newer
  {
    if older != newer && newer.IMap? && older.IMap? {
      var (e1, e2) := (older.entries, newer.entries);
      var merged := MergeValue(older, newer);
      ConvertedIn(e1, K); ConvertedIn(e2, K);
      forall s | s in merged.fields ensures KeysIn(merged.fields[s], K) {
        if s in Texts(e2) {
          assert ConvertKeys(e2)[s] == Get(e2, s);
          MergeValueKeysIn(Lookup(ConvertKeys(e1), s), Get(e2, s), K);
        } else {
          assert ConvertKeys(e1)[s] == Get(e1, s);
        }
      }
    }
  }

  lemma MergeKeysIn(m: Fields, doc: Fields, K: iset<Key>)
    requires FieldsKeysIn(m, K) && FieldsKeysIn(doc, K)
    ensures FieldsKeysIn(Merge(m, doc), K)
  {
    forall s | s in Merge(m, doc) ensures KeysIn(Merge(m, doc)[s], K) {
      if s in doc { MergeValueKeysIn(Lookup(m, s), doc[s], K); } else { assert KeysIn(m[s], K); }
    }
  }

  lemma {:induction false} MasterIsShaped(sources: seq<Fields>)
    requires FreshDocs(sources)
    ensures ShapedDoc(MergeAll(sources))
  {
    if sources != [] {
      var n := |sources| - 1;
      assert FreshDoc(sources[n]);
      MasterIsShaped(sources[..n]);
      MergeKeepsShape(MergeAll(sources[..n]), sources[n]);
    }
  }
}
