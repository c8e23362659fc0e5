/** The text of a configuration: a driver's merge, normalised and printed. */
module ConfigTexts {
  import opened Wrappers
  import opened Trees
  import opened AnyOrder
  import opened Printing
  import opened Sources
  import opened Drivers
  import opened PossibleBuilds
  import opened GoHeap
  import R = Registration
  import O = Operator

  type Printer = Fields -> string

  /** What printing the merged configuration can end in, for any keys and any iteration order. */
  ghost predicate MayPrint(d: Driver, c: Result<Fields>, p: Printer, text: Result<string>) {
    match c
    case Error => text == Error
    case Panic => text == Panic
    case Ok(m) => exists n :: MayNormalizeDoc(m, n) && text == PrintNormal(d, n, p)
  }

  function PrintNormal(d: Driver, n: Fields, p: Printer): Result<string> {
    if d.Sidecar? && RefusedDoc(n) then Error else Ok(p(n))
  }

  ghost predicate MayBuildText(d: Driver, w: World, srcs: seq<Source>, secrets: Secrets, r: R.Replies, p: Printer,
                               text: Result<string>) {
    exists b :: MayBuild(d, w, srcs, secrets, r, b) && MayPrint(d, b.config, p, text)
  }

  /** What the operator's drivers leave is one of these texts. */
  lemma WrittenMayBePrinted(d: Driver, end: Result<StringMap>, t: Result<Fields>, p: Printer)
    requires O.Writes(d, end, t)
    ensures MayPrint(d, t, p, match end case Ok(m) => Ok(p(m.tree)) case Error => Error case Panic => Panic)
  {
    if end.Ok? {
      assert MayNormalizeDoc(t.value, end.value.tree);
    } else if end.Error? && t.Ok? {
      var n :| MayNormalizeDoc(t.value, n) && RefusedDoc(n);
      assert PrintNormal(d, n, p) == Error;
    }
  }

  /** The text there is when the keys of the documents print apart. */
  ghost function TextOf(d: Driver, w: World, srcs: seq<Source>, secrets: Secrets, r: R.Replies, p: Printer)
    : Result<string>
  {
    match MasterOf(d, w, srcs, secrets, r).config
    case Error => Error
    case Panic => Panic
    case Ok(m) => if O.Unprintable(d, m) then Error else Ok(p(NormalizeDoc(m)))
  }

  lemma TextIsDetermined(d: Driver, w: World, srcs: seq<Source>, secrets: Secrets, r: R.Replies, p: Printer,
                         text: Result<string>, K: iset<Key>)
    requires MayBuildText(d, w, srcs, secrets, r, p, text) && Unambiguous(K) && Parses(w, K)
    ensures text == TextOf(d, w, srcs, secrets, r, p)
  {
    var b :| MayBuild(d, w, srcs, secrets, r, b) && MayPrint(d, b.config, p, text);
    BuildIsDetermined(d, w, srcs, secrets, r, b, K);
    if b.config.Ok? {
      MasterKeysIn(d, w, srcs, secrets, r, K);
      BuiltIsShaped(d, w, srcs, secrets, r, K);
      DocRefusedIff(b.config.value, K);
      var n :| MayNormalizeDoc(b.config.value, n) && text == PrintNormal(d, n, p);
      DocNormalizeIsDetermined(b.config.value, n, K);
    }
  }

  /** The configuration names the registered client but does not hold it: whatever the secrets and
      the replies of the provider, a merge that succeeds yields the same one. */
  lemma ConfigIgnoresSecrets(d: Driver, w: World, srcs: seq<Source>, secrets: Secrets, r: R.Replies,
                             secrets': Secrets, r': R.Replies)
    ensures var c, c' := MasterOf(d, w, srcs, secrets, r).config, MasterOf(d, w, srcs, secrets', r').config;
      c.Ok? && c'.Ok? ==> c == c'
  {
  }
}
