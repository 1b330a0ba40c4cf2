/**
 * The order in which a batch's workers finish, and a sequence taken in
 * that order: `Pick(xs, order)` is what collecting `xs` in completion order
 * yields, and it holds the same elements as `xs` whenever `order` lists
 * every index once.
 */
module CompletionOrder {
  /** `0, 1, ..., n - 1`. */
  function Indices(n: nat): (r: seq<nat>)
    ensures |r| == n && forall i :: 0 <= i < n ==> r[i] == i
  {
    if n == 0 then [] else Indices(n - 1) + [n - 1]
  }

  /** A completion order of `n` workers: every index below `n`, each exactly once. */
  predicate IsCompletionOrder(order: seq<nat>, n: nat)
  {
    (forall i :: 0 <= i < |order| ==> order[i] < n) && multiset(order) == multiset(Indices(n))
  }

  /** `xs` taken in the order `order` gives. */
  function Pick<T>(xs: seq<T>, order: seq<nat>): (r: seq<T>)
    requires forall i :: 0 <= i < |order| ==> order[i] < |xs|
    ensures |r| == |order| && forall i :: 0 <= i < |order| ==> r[i] == xs[order[i]]
  {
    if order == [] then [] else Pick(xs, order[..|order| - 1]) + [xs[order[|order| - 1]]]
  }

  /** A sequence taken in the order of a concatenation is the two parts taken one after the other. */
  lemma {:induction false} PickConcat<T>(xs: seq<T>, a: seq<nat>, b: seq<nat>)
    requires forall i :: 0 <= i < |a| ==> a[i] < |xs|
    requires forall i :: 0 <= i < |b| ==> b[i] < |xs|
    ensures Pick(xs, a + b) == Pick(xs, a) + Pick(xs, b)
  {
    assert forall i :: 0 <= i < |a| + |b| ==> (a + b)[i] == if i < |a| then a[i] else b[i - |a|];
  }

  /** Taking `xs` in two orders that hold the same indices gives the same multiset of elements. */
  lemma {:induction false} PickRespectsMultiset<T>(xs: seq<T>, o1: seq<nat>, o2: seq<nat>)
    requires forall i :: 0 <= i < |o1| ==> o1[i] < |xs|
    requires forall i :: 0 <= i < |o2| ==> o2[i] < |xs|
    requires multiset(o1) == multiset(o2)
    ensures multiset(Pick(xs, o1)) == multiset(Pick(xs, o2))
    decreases |o1|
  {
    if o1 != [] {
      var last := o1[|o1| - 1];
      var front := o1[..|o1| - 1];
      assert multiset(Pick(xs, o1)) == multiset(Pick(xs, front)) + multiset{xs[last]} by {
        assert o1[..|o1| - 1] == front;
      }
      assert multiset(front) == multiset(o1) - multiset{last} by {
        assert o1 == front + [last];
      }
      var j :| 0 <= j < |o2| && o2[j] == last by {
        assert last in multiset(o2);
      }
      PickWithout(xs, o2, j);
      RemoveAt(o2, j, |xs|);
      PickRespectsMultiset(xs, front, o2[..j] + o2[j + 1..]);
    }
  }

  /** Taking the elements in an order with the `j`-th index removed leaves out one copy of the element it names. */
  lemma PickWithout<T>(xs: seq<T>, o: seq<nat>, j: nat)
    requires j < |o| && forall i :: 0 <= i < |o| ==> o[i] < |xs|
    ensures var r := o[..j] + o[j + 1..];
      (forall i :: 0 <= i < |r| ==> r[i] < |xs|) && multiset(Pick(xs, o)) == multiset(Pick(xs, r)) + multiset{xs[o[j]]}
  {
    RemoveAt(o, j, |xs|);
    var left: seq<nat>, right: seq<nat> := o[..j], o[j + 1..];
    PickConcat(xs, left, right);
    PickConcat(xs, left + [o[j]], right);
    PickConcat(xs, left, [o[j]]);
  }

  /** Removing the `j`-th index keeps the others in range and takes one copy out of the multiset. */
  lemma RemoveAt(o: seq<nat>, j: nat, n: nat)
    requires j < |o| && forall i :: 0 <= i < |o| ==> o[i] < n
    ensures o == o[..j] + [o[j]] + o[j + 1..]
    ensures var r := o[..j] + o[j + 1..];
      (forall i :: 0 <= i < |r| ==> r[i] < n) && multiset(r) == multiset(o) - multiset{o[j]}
  {
    var left, right := o[..j], o[j + 1..];
    assert o == left + [o[j]] + right;
    var r := left + right;
    forall i | 0 <= i < |r|
      ensures r[i] < n
    {
      if i < j {
        assert r[i] == o[i];
      } else {
        assert r[i] == o[i + 1];
      }
    }
    assert multiset(o) == multiset(left) + multiset{o[j]} + multiset(right);
  }

  /** Taking `xs` in its own index order gives `xs` back. */
  lemma PickIndices<T>(xs: seq<T>)
    ensures Pick(xs, Indices(|xs|)) == xs
  {
  }

}
