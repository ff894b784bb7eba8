/**
  * A listener `Set` as the player's services keep it: listeners in insertion
  * order, each at most once.
  */
module Listeners {
  import opened Types

  /** A listener, by identity. */
  type ListenerId = nat

  /** `set.add(l)`: appended when new, otherwise the set is unchanged. */
  function Added(listeners: seq<ListenerId>, l: ListenerId): (r: seq<ListenerId>)
    ensures l in r
    ensures forall x :: x in r <==> x in listeners || x == l
    ensures l in listeners ==> r == listeners
    ensures Distinct(listeners) ==> Distinct(r)
  {
    if l in listeners then listeners else listeners + [l]
  }

  /** `set.delete(l)`: the others stay, in order. */
  function Unlisted(listeners: seq<ListenerId>, l: ListenerId): (r: seq<ListenerId>)
    ensures forall x :: x in r <==> x in listeners && x != l
    ensures l !in listeners ==> r == listeners
    ensures |r| <= |listeners|
    decreases |listeners|
  {
    if listeners == [] then []
    else (if listeners[0] == l then [] else [listeners[0]]) + Unlisted(listeners[1..], l)
  }

  /** Deleting keeps the set free of repeats, and deleting twice is deleting once. */
  lemma {:induction false} UnlistedDistinct(listeners: seq<ListenerId>, l: ListenerId)
    requires Distinct(listeners)
    ensures Distinct(Unlisted(listeners, l))
    ensures Unlisted(Unlisted(listeners, l), l) == Unlisted(listeners, l)
    decreases |listeners|
  {
    if listeners != [] {
      UnlistedDistinct(listeners[1..], l);
      var rest := Unlisted(listeners[1..], l);
      assert listeners[0] !in listeners[1..];
      assert listeners[0] !in rest;
    }
  }

  /** Deleting a listener just added to a set that did not hold it gives the set back. */
  lemma {:induction false} UnlistedAdded(listeners: seq<ListenerId>, l: ListenerId)
    requires l !in listeners
    ensures Unlisted(Added(listeners, l), l) == listeners
    decreases |listeners|
  {
    if listeners == [] {
      assert Added(listeners, l) == [l];
    } else {
      UnlistedAdded(listeners[1..], l);
      assert Added(listeners, l)[1..] == Added(listeners[1..], l);
      assert Added(listeners, l) == [listeners[0]] + Added(listeners[1..], l);
    }
  }
}
