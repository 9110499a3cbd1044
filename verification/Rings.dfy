/** Sequences stored round a circular buffer, shared by queues and stream buffers. */
module Rings {
  /** The slot that lies k slots after the start of the store, k up to two laps. */
  function Slot(k: nat, length: nat): (r: nat)
    requires 0 < length && k <= 2 * length
    ensures r < length
  {
    if k == 2 * length then 0 else if k >= length then k - length else k
  }

  /** The n elements from slot start onwards, round the store. */
  function Round<T>(store: seq<T>, start: nat, n: nat): (s: seq<T>)
    requires start < |store| && n <= |store|
    ensures |s| == n && forall i {:trigger s[i]} :: 0 <= i < n ==> s[i] == store[Slot(start + i, |store|)]
  {
    seq(n, i requires 0 <= i < n => store[Slot(start + i, |store|)])
  }

  function Before(k: nat, length: nat): nat
    requires k < length
  {
    if k == 0 then length - 1 else k - 1
  }

  /** An element written after the last one is at the back; the rest are untouched. */
  lemma WrittenAtBack<T>(store: seq<T>, start: nat, n: nat, x: T)
    requires start < |store| && n < |store|
    ensures Round(store[Slot(start + n, |store|) := x], start, n + 1) == Round(store, start, n) + [x]
  {
  }

  /** An element written before the first one is at the front. */
  lemma WrittenAtFront<T>(store: seq<T>, start: nat, n: nat, x: T)
    requires start < |store| && n < |store|
    ensures Round(store[Before(start, |store|) := x], Before(start, |store|), n + 1) == [x] + Round(store, start, n)
  {
    var r := Round(store[Before(start, |store|) := x], Before(start, |store|), n + 1);
    forall i | 0 < i <= n ensures r[i] == Round(store, start, n)[i - 1] {
      assert Slot(Before(start, |store|) + i, |store|) == Slot(start + (i - 1), |store|);
    }
  }

  /** Starting k elements later drops the first k. */
  lemma StartedLater<T>(store: seq<T>, start: nat, n: nat, k: nat)
    requires start < |store| && k <= n <= |store|
    ensures Round(store, Slot(start + k, |store|), n - k) == Round(store, start, n)[k..]
  {
    var r := Round(store, Slot(start + k, |store|), n - k);
    forall i | 0 <= i < n - k ensures r[i] == Round(store, start, n)[k..][i] {
      assert Slot(Slot(start + k, |store|) + i, |store|) == Slot(start + (k + i), |store|);
    }
  }

  function Spliced<T>(store: seq<T>, at: nat, d: seq<T>): (s: seq<T>)
    requires at + |d| <= |store|
    ensures |s| == |store|
    ensures forall j {:trigger s[j]} :: 0 <= j < |s| ==> s[j] == if at <= j < at + |d| then d[j - at] else store[j]
  {
    store[..at] + d + store[at + |d|..]
  }

  /** The part of n elements from slot `at` that lies before the end of the store. */
  function FirstPart(at: nat, n: nat, length: nat): (f: nat)
    requires at < length
    ensures f <= n && at + f <= length
  {
    if length - at < n then length - at else n
  }

  /** Elements written after the last one in two pieces are at the back; the rest are untouched. */
  lemma WrittenInTwo<T>(store: seq<T>, start: nat, n: nat, d: seq<T>)
    requires start < |store| && n + |d| <= |store| && n < |store|
    ensures var at := Slot(start + n, |store|);
      var f := FirstPart(at, |d|, |store|);
      Round(Spliced(Spliced(store, at, d[..f]), 0, d[f..]), start, n + |d|) == Round(store, start, n) + d
  {
    var at := Slot(start + n, |store|);
    var f := FirstPart(at, |d|, |store|);
    var s := Spliced(Spliced(store, at, d[..f]), 0, d[f..]);
    forall j | 0 <= j < |s| ensures s[j] == if j < |d| - f then d[f + j] else if at <= j < at + f then d[j - at] else store[j] {
    }
    forall i | 0 <= i < n + |d| ensures Round(s, start, n + |d|)[i] == (Round(store, start, n) + d)[i] {
    }
  }

  /** The first c elements, taken in two pieces. */
  lemma ReadInTwo<T>(store: seq<T>, start: nat, n: nat, c: nat)
    requires start < |store| && c <= n <= |store|
    ensures var f := FirstPart(start, c, |store|);
      store[start..start + f] + store[..c - f] == Round(store, start, n)[..c]
  {
  }
}
