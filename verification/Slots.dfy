// Lists with gaps, as the stream assemblers index their blocks and calls.
module Slots {
  import opened Basics

  /** The entry at an index; past the end there is none. */
  function At<T>(slots: seq<Option<T>>, i: nat): Option<T> {
    if i < |slots| then slots[i] else None
  }

  /** Padded so that the index exists; no entry changes. */
  function Extended<T>(slots: seq<Option<T>>, i: nat): (r: seq<Option<T>>)
    ensures |r| >= |slots| && i < |r| && forall k: nat :: At(r, k) == At(slots, k)
    decreases i - |slots|
  {
    if i < |slots| then slots else Extended(slots + [None], i)
  }

  /** The indexes that have an entry, in increasing order. */
  function Filled<T>(slots: seq<Option<T>>): (r: seq<nat>)
    ensures forall k :: 0 <= k < |r| ==> r[k] < |slots| && slots[r[k]].Some?
    ensures forall k, l :: 0 <= k < l < |r| ==> r[k] < r[l]
    ensures forall i :: 0 <= i < |slots| && slots[i].Some? ==> i in r
  {
    if slots == [] then []
    else
      var last := |slots| - 1;
      Filled(slots[..last]) + if slots[last].Some? then [last] else []
  }
}
