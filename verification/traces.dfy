/** Traces of events keyed by who they belong to, and the word one key contributes. */
module Traces {

  /** The events of key `k`, in order. */
  function Word<K(==), E>(h: seq<(K, E)>, k: K): seq<E> {
    if h == [] then [] else
      var last := h[|h| - 1];
      Word(h[..|h| - 1], k) + (if last.0 == k then [last.1] else [])
  }

  lemma WordAppend<K, E>(h: seq<(K, E)>, key: K, e: E, k: K)
    ensures Word(h + [(key, e)], k) == Word(h, k) + (if key == k then [e] else [])
  {
    assert (h + [(key, e)])[..|h|] == h;
  }

  lemma {:induction false} WordPrefix<K, E>(h: seq<(K, E)>, n: nat, k: K)
    requires n <= |h|
    ensures Word(h[..n], k) <= Word(h, k)
  {
    if n == |h| {
      assert h[..n] == h;
    } else {
      assert h[..|h| - 1][..n] == h[..n];
      WordPrefix(h[..|h| - 1], n, k);
    }
  }

  /** The word before an event, followed by the event, is a prefix of the whole word. */
  lemma {:induction false} WordAt<K, E>(h: seq<(K, E)>, p: nat)
    requires p < |h|
    ensures Word(h[..p], h[p].0) + [h[p].1] <= Word(h, h[p].0)
  {
    var front := h[..|h| - 1];
    if p < |front| {
      assert front[..p] == h[..p] && front[p] == h[p];
      WordAt(front, p);
    } else {
      assert front == h[..p];
    }
  }

  lemma {:induction false} WordHas<K, E>(h: seq<(K, E)>, p: nat)
    requires p < |h|
    ensures h[p].1 in Word(h, h[p].0)
  {
    WordAt(h, p);
    var w := Word(h[..p], h[p].0);
    assert Word(h, h[p].0)[|w|] == h[p].1;
  }

  lemma {:induction false} WordOnlyOf<K, E>(h: seq<(K, E)>, k: K, e: E)
    requires e in Word(h, k)
    ensures (k, e) in h
  {
    var last := h[|h| - 1];
    if e in Word(h[..|h| - 1], k) {
      WordOnlyOf(h[..|h| - 1], k, e);
    } else {
      assert last == (k, e);
    }
  }
}
