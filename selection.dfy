/** Selection of the next question: the ids of the bank a user has not been
    shown yet, and how that list evolves as questions are shown. */
module Selection {

  /** Every entry of `shown` is an id of a bank with `n` questions. */
  predicate AllInRange(shown: seq<int>, n: int) {
    forall i :: 0 <= i < |shown| ==> 1 <= shown[i] <= n
  }

  predicate Distinct(s: seq<int>) {
    forall i, j :: 0 <= i < j < |s| ==> s[i] != s[j]
  }

  /** The ids 1..n that do not occur in `shown`, in the order of the
      handler's list comprehension over `range(1, n + 1)`. */
  function Unseen(n: nat, shown: seq<int>): (r: seq<int>)
    ensures forall x {:trigger x in r} :: x in r <==> 1 <= x <= n && x !in shown
  {
    if n == 0 then [] else Unseen(n - 1, shown) + (if n in shown then [] else [n])
  }

  /** The unseen list is strictly ascending, so it holds no id twice. */
  lemma {:induction false} UnseenAscending(n: nat, shown: seq<int>)
    ensures forall i, j :: 0 <= i < j < |Unseen(n, shown)| ==> Unseen(n, shown)[i] < Unseen(n, shown)[j]
  {
    if n > 0 {
      UnseenAscending(n - 1, shown);
      var earlier := Unseen(n - 1, shown);
      forall k | 0 <= k < |earlier| ensures earlier[k] < n {
        assert earlier[k] in earlier;
      }
    }
  }

  /** Nothing is left unseen exactly when every id 1..n has been shown. */
  lemma UnseenEmpty(n: nat, shown: seq<int>)
    ensures Unseen(n, shown) == [] <==> forall x :: 1 <= x <= n ==> x in shown
  {
    if Unseen(n, shown) == [] {
      forall x | 1 <= x <= n ensures x in shown {
        assert x !in Unseen(n, shown);
      }
    } else {
      assert Unseen(n, shown)[0] in Unseen(n, shown);
    }
  }

  /** With nothing shown, every one of the n ids is unseen. */
  lemma {:induction false} UnseenOfNothing(n: nat)
    ensures |Unseen(n, [])| == n
  {
    if n > 0 {
      UnseenOfNothing(n - 1);
    }
  }

  /** Showing an id again, or an id outside 1..n, leaves the unseen list as it
      was: a retry does not use up a question. */
  lemma {:induction false} UnseenIgnores(n: nat, shown: seq<int>, x: int)
    requires x in shown || x < 1 || x > n
    ensures Unseen(n, shown + [x]) == Unseen(n, shown)
  {
    if n > 0 {
      UnseenIgnores(n - 1, shown, x);
      assert (n in shown + [x]) == (n in shown);
    }
  }

  /** Showing an unseen id removes exactly that one id from the unseen list. */
  lemma {:induction false} UnseenAfterFresh(n: nat, shown: seq<int>, x: int)
    requires 1 <= x <= n && x !in shown
    ensures |Unseen(n, shown + [x])| == |Unseen(n, shown)| - 1
  {
    if x == n {
      UnseenIgnores(n - 1, shown, x);
    } else {
      UnseenAfterFresh(n - 1, shown, x);
      assert (n in shown + [x]) == (n in shown);
    }
  }

  /** A history of k distinct valid ids leaves exactly n - k unseen; in
      particular it can hold at most n ids. */
  lemma {:induction false} UnseenCount(n: nat, shown: seq<int>)
    requires Distinct(shown) && AllInRange(shown, n)
    ensures |shown| <= n && |Unseen(n, shown)| == n - |shown|
  {
    if shown == [] {
      UnseenOfNothing(n);
    } else {
      var init, x := shown[..|shown| - 1], shown[|shown| - 1];
      assert shown == init + [x];
      UnseenCount(n, init);
      UnseenAfterFresh(n, init, x);
    }
  }

  /** After n distinct questions of an n-question bank every id has been
      shown, so nothing is left to choose. */
  lemma ExhaustedAfterEveryId(n: nat, shown: seq<int>)
    requires Distinct(shown) && AllInRange(shown, n) && |shown| == n
    ensures Unseen(n, shown) == []
    ensures forall x :: 1 <= x <= n ==> x in shown
  {
    UnseenCount(n, shown);
    UnseenEmpty(n, shown);
  }
}
