/** Decimal numbers and dot-separated names. */
module Text {
  import opened Wrappers

  // ----- decimal numbers

  function Digit(n: nat): char
    requires n < 10
  {
    '0' + n as char
  }

  function Decimal(n: nat): string {
    if n < 10 then [Digit(n)] else Decimal(n / 10) + [Digit(n % 10)]
  }

  predicate IsDigit(c: char) {
    '0' <= c <= '9'
  }

  function DigitsValue(s: string): Option<nat> {
    if s == [] then Some(0)
    else
      var c := s[|s| - 1];
      match DigitsValue(s[..|s| - 1])
      case None => None
      case Some(n) => if IsDigit(c) then Some(10 * n + (c - '0') as nat) else None
  }

  lemma {:induction false} DecimalValue(n: nat)
    ensures DigitsValue(Decimal(n)) == Some(n)
    ensures Decimal(n) != [] && (Decimal(n)[0] == '0' ==> n == 0)
  {
    if n < 10 {
      assert [Digit(n)][..0] == [];
    } else {
      DecimalValue(n / 10);
      var d := Decimal(n / 10);
      assert Decimal(n)[..|Decimal(n)| - 1] == d;
    }
  }

  const INT64_MIN := -0x8000_0000_0000_0000
  const INT64_MAX := 0x7fff_ffff_ffff_ffff

  /** strconv.Atoi: an optional sign and at least one digit, within 64 bits. */
  function Atoi(s: string): Option<int> {
    var signed := s != [] && (s[0] == '-' || s[0] == '+');
    var digits := if signed then s[1..] else s;
    if digits == [] then None
    else match DigitsValue(digits)
      case None => None
      case Some(n) =>
        var v: int := if signed && s[0] == '-' then 0 - n else n;
        if INT64_MIN <= v <= INT64_MAX then Some(v) else None
  }

  function Itoa(v: int): string {
    if v < 0 then "-" + Decimal(-v) else Decimal(v)
  }

  lemma {:induction false} DecimalIsDigits(n: nat)
    ensures Decimal(n) != [] && IsDigit(Decimal(n)[0])
  {
    if n >= 10 { DecimalIsDigits(n / 10); }
  }

  lemma AtoiOfItoa(v: int)
    requires INT64_MIN <= v <= INT64_MAX
    ensures Atoi(Itoa(v)) == Some(v)
  {
    var n := if v < 0 then -v else v;
    DecimalValue(n);
    DecimalIsDigits(n);
    if v < 0 { assert Itoa(v)[1..] == Decimal(n); }
  }

  // ----- dot-separated names

  predicate DotFree(s: string) {
    '.' !in s
  }

  /** strings.Split(s, "."). */
  function Split(s: string): (t: seq<string>)
    ensures t != []
    decreases |s|
  {
    if s == [] then [""]
    else
      var rest := Split(s[1..]);
      if s[0] == '.' then [""] + rest else [[s[0]] + rest[0]] + rest[1..]
  }

  function Join(t: seq<string>): string
    requires t != []
  {
    if |t| == 1 then t[0] else t[0] + "." + Join(t[1..])
  }

  predicate Tokens(t: seq<string>) {
    t != [] && forall i | 0 <= i < |t| :: DotFree(t[i])
  }

  lemma {:induction false} SplitGivesTokens(s: string)
    ensures Tokens(Split(s)) && Join(Split(s)) == s
    decreases |s|
  {
    if s != [] {
      SplitGivesTokens(s[1..]);
      var rest := Split(s[1..]);
      if s[0] == '.' {
        assert ([""] + rest)[1..] == rest;
        assert s == "." + s[1..];
      } else {
        var t := [[s[0]] + rest[0]] + rest[1..];
        assert t[1..] == rest[1..];
        assert s == [s[0]] + s[1..];
        if |rest| > 1 {
          assert [s[0]] + (rest[0] + "." + Join(rest[1..])) == ([s[0]] + rest[0]) + "." + Join(rest[1..]);
        }
      }
    }
  }

  lemma {:induction false} SplitOfJoin(t: seq<string>)
    requires Tokens(t)
    ensures Split(Join(t)) == t
    decreases |t|, |t[0]|
  {
    var s := Join(t);
    if t[0] == [] {
      if |t| > 1 {
        SplitOfJoin(t[1..]);
        assert s == "." + Join(t[1..]);
        assert s[1..] == Join(t[1..]);
      }
    } else {
      var u := [t[0][1..]] + t[1..];
      assert u[1..] == t[1..];
      assert s[1..] == Join(u) && s[0] == t[0][0];
      SplitOfJoin(u);
      assert t[0] == [t[0][0]] + t[0][1..];
      assert t == [t[0]] + t[1..];
    }
  }

  lemma JoinInjective(t: seq<string>, u: seq<string>)
    requires Tokens(t) && Tokens(u) && Join(t) == Join(u)
    ensures t == u
  {
    SplitOfJoin(t);
    SplitOfJoin(u);
  }

  /** A joined name starts with the token `w` and a dot exactly when `w` is its first token and
      not its last. */
  lemma JoinHasFirst(t: seq<string>, w: string)
    requires Tokens(t) && DotFree(w)
    ensures w + "." <= Join(t) <==> |t| > 1 && t[0] == w
    ensures w + "." <= Join(t) ==> Join(t)[|w| + 1..] == Join(t[1..])
  {
    var s := Join(t);
    if |t| > 1 {
      assert s == t[0] + "." + Join(t[1..]);
      assert s[|t[0]|] == '.';
      assert forall i :: 0 <= i < |t[0]| ==> s[i] == t[0][i];
      if w + "." <= s {
        assert forall i :: 0 <= i < |w| ==> s[i] == w[i];
        assert s[|w|] == (w + ".")[|w|] == '.';
        assert |w| == |t[0]|;
        assert w == t[0];
      }
    } else {
      assert (w + ".")[|w|] == '.';
      assert |w| < |s| ==> s[|w|] in t[0];
    }
  }

  /** A dot-free word is a prefix of a joined name exactly when it is one of its first token. */
  lemma JoinHasPrefix(t: seq<string>, w: string)
    requires Tokens(t) && DotFree(w)
    ensures w <= Join(t) <==> w <= t[0]
  {
    var s := Join(t);
    if |t| > 1 {
      assert s == t[0] + "." + Join(t[1..]);
      assert s[|t[0]|] == '.' && s[..|t[0]|] == t[0];
      assert |t[0]| < |w| ==> w[|t[0]|] in w;
    }
  }

  lemma JoinTwo(a: string, b: string)
    ensures Join([a, b]) == a + "." + b
  {
  }

  lemma JoinFour(a: string, b: string, c: string, d: string)
    ensures Join([a, b, c, d]) == a + "." + b + "." + c + "." + d
  {
    assert [a, b, c, d][1..] == [b, c, d];
    assert [b, c, d][1..] == [c, d];
    JoinTwo(c, d);
    assert a + "." + (b + "." + (c + "." + d)) == a + "." + b + "." + c + "." + d;
  }
}
