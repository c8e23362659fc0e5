/** Joining lists in list order or backwards. */
module ListOrder {
  function Forwards<T>(xss: seq<seq<T>>): seq<T> {
    if xss == [] then [] else Forwards(xss[..|xss| - 1]) + xss[|xss| - 1]
  }

  function Backwards<T>(xss: seq<seq<T>>): seq<T> {
    if xss == [] then [] else xss[|xss| - 1] + Backwards(xss[..|xss| - 1])
  }

  /** No two of the lists start with the same element. */
  ghost predicate StartApart<T>(xss: seq<seq<T>>) {
    forall i, j :: 0 <= i < j < |xss| && xss[i] != [] && xss[j] != [] ==> xss[i][0] != xss[j][0]
  }

  ghost predicate AtMostOneFilled<T>(xss: seq<seq<T>>) {
    forall i, j :: 0 <= i < j < |xss| ==> xss[i] == [] || xss[j] == []
  }

  ghost predicate AllEmpty<T>(xss: seq<seq<T>>) {
    forall i :: 0 <= i < |xss| ==> xss[i] == []
  }

  lemma {:induction false} NothingToJoin<T>(xss: seq<seq<T>>)
    requires AllEmpty(xss)
    ensures Forwards(xss) == Backwards(xss) == []
  {
    if xss != [] { NothingToJoin(xss[..|xss| - 1]); }
  }

  lemma FrontOfFew<T>(xss: seq<seq<T>>)
    requires xss != [] && AtMostOneFilled(xss)
    ensures AtMostOneFilled(xss[..|xss| - 1]) && (xss[|xss| - 1] != [] ==> AllEmpty(xss[..|xss| - 1]))
  {
  }

  lemma {:induction false} OneToJoin<T>(xss: seq<seq<T>>)
    requires AtMostOneFilled(xss)
    ensures Forwards(xss) == Backwards(xss)
  {
    if xss != [] {
      var (front, last) := (xss[..|xss| - 1], xss[|xss| - 1]);
      FrontOfFew(xss);
      if last != [] {
        NothingToJoin(front);
        assert Forwards(xss) == [] + last == last + [] == Backwards(xss);
      } else {
        OneToJoin(front);
        assert Forwards(xss) == Forwards(front) + [] == [] + Backwards(front) == Backwards(xss);
      }
    }
  }

  /** The first list that is not empty, and what the lists joined in order start with. */
  lemma {:induction false} FirstFilled<T>(xss: seq<seq<T>>) returns (i: nat)
    requires !AllEmpty(xss)
    ensures i < |xss| && xss[i] != [] && forall k :: 0 <= k < i ==> xss[k] == []
    ensures Forwards(xss) != [] && Forwards(xss)[0] == xss[i][0]
  {
    var n := |xss| - 1;
    if AllEmpty(xss[..n]) {
      NothingToJoin(xss[..n]);
      i := n;
      assert forall k :: 0 <= k < n ==> xss[k] == xss[..n][k];
    } else {
      i := FirstFilled(xss[..n]);
      assert forall k :: 0 <= k < n ==> xss[k] == xss[..n][k];
    }
  }

  /** The last one, and what they start with when joined backwards. */
  lemma {:induction false} LastFilled<T>(xss: seq<seq<T>>) returns (j: nat)
    requires !AllEmpty(xss)
    ensures j < |xss| && xss[j] != [] && forall k :: j < k < |xss| ==> xss[k] == []
    ensures Backwards(xss) != [] && Backwards(xss)[0] == xss[j][0]
  {
    var n := |xss| - 1;
    if xss[n] != [] {
      j := n;
    } else {
      j := LastFilled(xss[..n]);
      assert forall k :: j < k < n ==> xss[k] == xss[..n][k];
    }
  }

  /** The two orders agree exactly if there is nothing to reorder. */
  lemma OrdersAgreeIff<T>(xss: seq<seq<T>>)
    requires StartApart(xss)
    ensures Forwards(xss) == Backwards(xss) <==> AtMostOneFilled(xss)
  {
    if AtMostOneFilled(xss) {
      OneToJoin(xss);
    } else {
      var i, j :| 0 <= i < j < |xss| && xss[i] != [] && xss[j] != [];
      var first := FirstFilled(xss);
      var last := LastFilled(xss);
      assert first <= i && j <= last;
    }
  }
}
