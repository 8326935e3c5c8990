/** The logger's fallback FIFO: records are appended at the tail and, on the
    buffering path, the oldest are dropped until at most `Capacity` remain. */
module Backup {

  const Capacity: nat := 5000

  /** The `while (Count > MAX) TryDequeue` loop: drop from the head until the
      queue fits. What survives is the newest `Capacity` entries, in order. */
  function KeepNewest<T>(q: seq<T>): (t: seq<T>)
    ensures |t| == if |q| <= Capacity then |q| else Capacity
    ensures t == q[|q| - |t|..]
    decreases |q|
  {
    if |q| <= Capacity then q else KeepNewest(q[1..])
  }

  /** One buffered append: enqueue at the tail, then trim. */
  function Append<T>(q: seq<T>, x: T): (t: seq<T>)
    ensures |t| <= Capacity
    ensures |q| < Capacity ==> t == q + [x]
    ensures |q| >= Capacity ==> t == (q + [x])[|q| + 1 - Capacity..]
    ensures 0 < |t| && t[|t| - 1] == x
  {
    KeepNewest(q + [x])
  }

  /** The first append to an empty buffer leaves just that entry. */
  lemma AppendToEmpty<T>(q: seq<T>, x: T)
    requires q == []
    ensures Append(q, x) == [x]
  {
    assert q + [x] == [x];
  }

  /** Buffered appends of `xs`, oldest first: nothing appended leaves the queue
      as it was; otherwise the queue fits and ends with the last entry. */
  function AppendAll<T>(q: seq<T>, xs: seq<T>): (r: seq<T>)
    ensures xs == [] ==> r == q
    ensures xs != [] ==> |r| <= Capacity && 0 < |r| && r[|r| - 1] == xs[|xs| - 1]
    decreases |xs|
  {
    if xs == [] then q
    else
      var rest := xs[1..];
      assert rest != [] ==> rest[|rest| - 1] == xs[|xs| - 1];
      AppendAll(Append(q, xs[0]), rest)
  }

  /** A suffix of a suffix is a suffix. */
  lemma SuffixOfSuffix<T>(b: seq<T>, a: seq<T>, m: nat)
    requires |a| <= |b| && a == b[|b| - |a|..]
    requires m <= |a|
    ensures a[|a| - m..] == b[|b| - m..]
  {
  }

  /** Trimming before appending loses nothing that trimming after it would keep. */
  lemma {:induction false} TrimThenAppendMany<T>(q: seq<T>, xs: seq<T>)
    ensures KeepNewest(KeepNewest(q) + xs) == KeepNewest(q + xs)
  {
    var a := KeepNewest(q) + xs;
    var b := q + xs;
    assert a == b[|b| - |a|..];
    var t := KeepNewest(a);
    var u := KeepNewest(b);
    assert |t| == |u|;
    SuffixOfSuffix(b, a, |t|);
  }

  /** Any run of buffered appends leaves exactly the newest `Capacity` entries
      of everything ever appended, oldest first. */
  lemma {:induction false} AppendAllKeepsNewest<T>(q: seq<T>, xs: seq<T>)
    requires |q| <= Capacity
    ensures AppendAll(q, xs) == KeepNewest(q + xs)
    decreases |xs|
  {
    if xs == [] {
      assert q + xs == q;
    } else {
      var q1 := q + [xs[0]];
      calc {
        AppendAll(q, xs);
        AppendAll(KeepNewest(q1), xs[1..]);
        { AppendAllKeepsNewest(KeepNewest(q1), xs[1..]); }
        KeepNewest(KeepNewest(q1) + xs[1..]);
        { TrimThenAppendMany(q1, xs[1..]); }
        KeepNewest(q1 + xs[1..]);
        { assert q1 + xs[1..] == q + xs; }
        KeepNewest(q + xs);
      }
    }
  }

  /** Buffering more than `Capacity` records into an empty queue keeps the
      newest `Capacity` of them, in order; everything older is gone. */
  lemma OverflowDropsOldest<T>(xs: seq<T>)
    requires |xs| > Capacity
    ensures |AppendAll([], xs)| == Capacity
    ensures AppendAll([], xs) == xs[|xs| - Capacity..]
  {
    AppendAllKeepsNewest([], xs);
    assert [] + xs == xs;
    KeepNewestOfLong(xs);
  }

  lemma KeepNewestOfLong<T>(q: seq<T>)
    requires |q| > Capacity
    ensures KeepNewest(q) == q[|q| - Capacity..]
  {
    var t := KeepNewest(q);
    assert |t| == Capacity;
  }
}
