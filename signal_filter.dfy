/**
 * The signal conditioner of src/Logger.cpp: each port keeps a circular window
 * of the last FILTER_SAMPLES raw voltages and currents, and the filtered value
 * is the median of a window, found by selection-sorting a scratch copy.
 */
module SignalFilter {
  import opened Config

  ghost predicate Sorted(s: seq<real>) {
    forall i, j :: 0 <= i < j < |s| ==> s[i] <= s[j]
  }

  /** Inserts `x` into an ascending sequence (reference sort, step). */
  function Insert(x: real, t: seq<real>): (r: seq<real>)
    ensures |r| == |t| + 1
    ensures multiset(r) == multiset(t) + multiset{x}
  {
    if t == [] || x <= t[0] then [x] + t
    else
      assert t == [t[0]] + t[1..];
      [t[0]] + Insert(x, t[1..])
  }

  lemma {:induction false} InsertSorted(x: real, t: seq<real>)
    requires Sorted(t)
    ensures Sorted(Insert(x, t))
  {
    if t != [] && x > t[0] {
      var rest := Insert(x, t[1..]);
      InsertSorted(x, t[1..]);
      forall k | 0 <= k < |rest|
        ensures t[0] <= rest[k]
      {
        assert rest[k] in multiset(rest);
        if rest[k] != x {
          assert rest[k] in multiset(t[1..]);
          var j :| 0 <= j < |t[1..]| && t[1..][j] == rest[k];
          assert t[1..][j] == t[j + 1];
        }
      }
    }
  }

  /** The reference sort: an ascending permutation of `s`. */
  function SortedCopy(s: seq<real>): (r: seq<real>)
    ensures |r| == |s|
    ensures multiset(r) == multiset(s)
    ensures Sorted(r)
  {
    if s == [] then []
    else
      assert s == [s[0]] + s[1..];
      InsertSorted(s[0], SortedCopy(s[1..]));
      Insert(s[0], SortedCopy(s[1..]))
  }

  /** `t` holds the samples of `s` in ascending order. */
  ghost predicate IsSortedVersion(t: seq<real>, s: seq<real>) {
    |t| == |s| && multiset(t) == multiset(s) && Sorted(t)
  }

  /**
   * The median of a non-empty window: the middle element of its ascending
   * rearrangement (which exists, as SortedCopy shows, and is unique, as
   * SortedUnique shows).
   */
  ghost function Median(s: seq<real>): (m: real)
    requires |s| > 0
    ensures m in s
  {
    assert IsSortedVersion(SortedCopy(s), s);
    var t :| IsSortedVersion(t, s);
    assert t[|s| / 2] in multiset(s);
    t[|s| / 2]
  }

  /** The head of an ascending sequence is at most each of its elements. */
  lemma SortedHeadIsLeast(a: seq<real>, x: real)
    requires Sorted(a) && x in multiset(a)
    ensures a[0] <= x
  {
    var j :| 0 <= j < |a| && a[j] == x;
    assert j == 0 || a[0] <= a[j];
  }

  lemma SortedTail(a: seq<real>)
    requires Sorted(a) && a != []
    ensures Sorted(a[1..])
  {
    forall i, j | 0 <= i < j < |a| - 1 ensures a[1..][i] <= a[1..][j] {
      assert a[1..][i] == a[i + 1] && a[1..][j] == a[j + 1];
    }
  }

  /** Two ascending sequences with the same elements are equal. */
  lemma {:induction false} SortedUnique(a: seq<real>, b: seq<real>)
    requires Sorted(a) && Sorted(b)
    requires multiset(a) == multiset(b)
    ensures a == b
  {
    assert |a| == |multiset(a)| == |multiset(b)| == |b|;
    if a != [] {
      assert a[0] in multiset(b) && b[0] in multiset(a);
      SortedHeadIsLeast(a, b[0]);
      SortedHeadIsLeast(b, a[0]);
      var h := a[0];
      assert h == b[0];
      assert a == [a[0]] + a[1..];
      assert b == [b[0]] + b[1..];
      calc {
        multiset(a[1..]);
        multiset(a) - multiset{h};
        multiset(b) - multiset{h};
        multiset(b[1..]);
      }
      SortedTail(a);
      SortedTail(b);
      SortedUnique(a[1..], b[1..]);
    }
  }

  /** Any ascending rearrangement of a window has the median in its middle slot. */
  lemma MedianIsMiddle(s: seq<real>, t: seq<real>)
    requires |s| > 0 && IsSortedVersion(t, s)
    ensures Median(s) == t[|s| / 2]
  {
    forall u | IsSortedVersion(u, s) ensures u == t {
      SortedUnique(u, t);
    }
  }

  /** The median depends only on the multiset of samples, not on their order. */
  lemma MedianOfPermutation(a: seq<real>, b: seq<real>)
    requires |a| > 0
    requires multiset(a) == multiset(b)
    ensures |b| == |a| && Median(a) == Median(b)
  {
    assert |a| == |multiset(a)| == |multiset(b)| == |b|;
    MedianIsMiddle(a, SortedCopy(a));
    MedianIsMiddle(b, SortedCopy(a));
  }

  /** Number of samples at most `x`. */
  function CountAtMost(s: seq<real>, x: real): nat {
    if s == [] then 0 else (if s[0] <= x then 1 else 0) + CountAtMost(s[1..], x)
  }

  /** Number of samples at least `x`. */
  function CountAtLeast(s: seq<real>, x: real): nat {
    if s == [] then 0 else (if s[0] >= x then 1 else 0) + CountAtLeast(s[1..], x)
  }

  lemma {:induction false} CountsOfInsert(y: real, t: seq<real>, x: real)
    ensures CountAtMost(Insert(y, t), x) == CountAtMost(t, x) + (if y <= x then 1 else 0)
    ensures CountAtLeast(Insert(y, t), x) == CountAtLeast(t, x) + (if y >= x then 1 else 0)
  {
    if t == [] || y <= t[0] {
      assert ([y] + t)[1..] == t;
    } else {
      CountsOfInsert(y, t[1..], x);
      assert ([t[0]] + Insert(y, t[1..]))[1..] == Insert(y, t[1..]);
    }
  }

  lemma {:induction false} CountsOfSortedCopy(s: seq<real>, x: real)
    ensures CountAtMost(SortedCopy(s), x) == CountAtMost(s, x)
    ensures CountAtLeast(SortedCopy(s), x) == CountAtLeast(s, x)
  {
    if s != [] {
      CountsOfSortedCopy(s[1..], x);
      CountsOfInsert(s[0], SortedCopy(s[1..]), x);
    }
  }

  lemma {:induction false} CountAtMostPrefix(t: seq<real>, x: real, n: nat)
    requires n <= |t|
    requires forall i :: 0 <= i < n ==> t[i] <= x
    ensures CountAtMost(t, x) >= n
  {
    if t != [] {
      CountAtMostPrefix(t[1..], x, if n == 0 then 0 else n - 1);
    }
  }

  lemma {:induction false} CountAtLeastSuffix(t: seq<real>, x: real, n: nat)
    requires n <= |t|
    requires forall i :: |t| - n <= i < |t| ==> t[i] >= x
    ensures CountAtLeast(t, x) >= n
  {
    if t != [] {
      CountAtLeastSuffix(t[1..], x, if n == |t| then n - 1 else n);
    }
  }

  /**
   * The median is a true median: at least half of the window (rounded up)
   * lies at or below it, and at least half lies at or above it.
   */
  lemma MedianSplitsWindow(s: seq<real>)
    requires |s| > 0
    ensures CountAtMost(s, Median(s)) >= |s| / 2 + 1
    ensures CountAtLeast(s, Median(s)) >= |s| - |s| / 2
  {
    var t := SortedCopy(s);
    var h := |s| / 2;
    var m := t[h];
    MedianIsMiddle(s, t);
    assert forall i :: 0 <= i < h + 1 ==> t[i] <= m by {
      forall i | 0 <= i < h + 1 ensures t[i] <= m {
        assert i == h || t[i] <= t[h];
      }
    }
    assert forall i :: |t| - (|s| - h) <= i < |t| ==> t[i] >= m by {
      forall i | |t| - (|s| - h) <= i < |t| ensures t[i] >= m {
        assert i == h || t[h] <= t[i];
      }
    }
    CountAtMostPrefix(t, m, h + 1);
    CountAtLeastSuffix(t, m, |s| - h);
    CountsOfSortedCopy(s, m);
  }

  /**
   * The inner loop of the selection sort: the first position of a minimum of
   * `a[from..n]` (a later equal value does not replace it, as the comparison
   * is strict).
   */
  method MinIndexFrom(a: array<real>, from: int, n: int) returns (minIdx: int)
    requires 0 <= from < n <= a.Length
    ensures from <= minIdx < n
    ensures forall t :: from <= t < n ==> a[minIdx] <= a[t]
    ensures forall t :: from <= t < minIdx ==> a[minIdx] < a[t]
  {
    minIdx := from;
    var j := from + 1;
    while j < n
      invariant from < j <= n
      invariant from <= minIdx < j
      invariant forall t :: from <= t < j ==> a[minIdx] <= a[t]
      invariant forall t :: from <= t < minIdx ==> a[minIdx] < a[t]
    {
      if a[j] < a[minIdx] {
        minIdx := j;
      }
      j := j + 1;
    }
  }

  /**
   * The state the selection sort keeps after `i` passes over `s[..n]`: the
   * first `i` slots are ascending and none exceeds a slot after them.
   */
  ghost predicate SortedPrefix(s: seq<real>, i: int, n: int)
    requires 0 <= i <= n <= |s|
  {
    (forall x, y :: 0 <= x < y < i ==> s[x] <= s[y]) &&
    (forall x, y :: 0 <= x < i <= y < n ==> s[x] <= s[y])
  }

  /** One pass: swapping the least remaining slot into place extends the prefix. */
  lemma SwapExtendsPrefix(before: seq<real>, after: seq<real>, i: int, m: int, n: int)
    requires 0 <= i <= m < n <= |before|
    requires SortedPrefix(before, i, n)
    requires forall t :: i <= t < n ==> before[m] <= before[t]
    requires after == before[i := before[m]][m := before[i]]
    ensures SortedPrefix(after, i + 1, n)
    ensures multiset(after[..n]) == multiset(before[..n])
    ensures after[n..] == before[n..]
  {
    assert after[..n] == before[..n][i := before[m]][m := before[i]];
  }

  /** Selection sort of the first `n` slots of `a`, in place. */
  method SelectionSort(a: array<real>, n: int)
    requires 0 < n <= a.Length
    modifies a
    ensures Sorted(a[..n])
    ensures multiset(a[..n]) == old(multiset(a[..n]))
    ensures a[n..] == old(a[n..])
  {
    var i := 0;
    while i < n - 1
      invariant 0 <= i <= n - 1
      invariant SortedPrefix(a[..], i, n)
      invariant multiset(a[..n]) == old(multiset(a[..n]))
      invariant a[n..] == old(a[n..])
    {
      var minIdx := MinIndexFrom(a, i, n);
      ghost var before := a[..];
      if minIdx != i {
        var temp := a[i];
        a[i] := a[minIdx];
        a[minIdx] := temp;
      }
      assert a[..] == before[i := before[minIdx]][minIdx := before[i]];
      SwapExtendsPrefix(before, a[..], i, minIdx, n);
      assert a[..n] == a[..][..n] && before[..n] == before[..][..n];
      i := i + 1;
    }
    assert SortedPrefix(a[..], n - 1, n);
    assert a[..n] == a[..][..n];
  }

  /**
   * medianFilter: copies the first `size` samples into a scratch array,
   * selection-sorts the copy and returns its middle element. The input is
   * passed by value and is therefore left unchanged.
   */
  method MedianFilter(buffer: seq<real>, size: int) returns (m: real)
    requires 0 < size <= FILTER_SAMPLES && size <= |buffer|
    ensures m == Median(buffer[..size])
    ensures size == |buffer| ==> m == Median(buffer)
  {
    var sorted := new real[FILTER_SAMPLES];
    var k := 0;
    while k < size
      invariant 0 <= k <= size
      invariant forall t :: 0 <= t < k ==> sorted[t] == buffer[t]
    {
      sorted[k] := buffer[k];
      k := k + 1;
    }
    assert sorted[..size] == buffer[..size];
    SelectionSort(sorted, size);
    MedianIsMiddle(buffer[..size], sorted[..size]);
    m := sorted[size / 2];
    assert size == |buffer| ==> buffer[..size] == buffer;
  }

  /** One port's window: the voltage and current slots and the write index. */
  datatype Channel = Channel(volts: seq<real>, amps: seq<real>, index: int) {
    ghost predicate Valid() {
      |volts| == FILTER_SAMPLES && |amps| == FILTER_SAMPLES && 0 <= index < FILTER_SAMPLES
    }

    /**
     * Buffer insertion: writes the sample at the write index, changes no other
     * slot, and advances the index modulo FILTER_SAMPLES.
     */
    function Push(v: real, c: real): (r: Channel)
      requires Valid()
      ensures r.Valid()
      ensures r.volts[index] == v && r.amps[index] == c
      ensures forall k :: 0 <= k < FILTER_SAMPLES && k != index ==>
                r.volts[k] == volts[k] && r.amps[k] == amps[k]
      ensures r.index == (index + 1) % FILTER_SAMPLES
    {
      Channel(volts[index := v], amps[index := c], (index + 1) % FILTER_SAMPLES)
    }
  }

  /** The window as the logger's constructor leaves it: all zero. */
  function EmptyChannel(): (ch: Channel)
    ensures ch.Valid() && ch.index == 0
    ensures forall k :: 0 <= k < FILTER_SAMPLES ==> ch.volts[k] == 0.0 && ch.amps[k] == 0.0
  {
    Channel(seq(FILTER_SAMPLES, _ => 0.0), seq(FILTER_SAMPLES, _ => 0.0), 0)
  }

  /** Pushes a run of samples, oldest first. */
  function PushAll(ch: Channel, vs: seq<real>, cs: seq<real>): (r: Channel)
    requires ch.Valid() && |vs| == |cs|
    ensures r.Valid()
    decreases |vs|
  {
    if vs == [] then ch
    else PushAll(ch, vs[..|vs| - 1], cs[..|cs| - 1]).Push(vs[|vs| - 1], cs[|cs| - 1])
  }

  /**
   * The slot that receives the k-th push of a run started at write index
   * `start`, for runs no longer than the window: `(start + k) % FILTER_SAMPLES`.
   */
  function SlotOf(start: int, k: int): int {
    if start + k < FILTER_SAMPLES then start + k else start + k - FILTER_SAMPLES
  }

  /** Advancing the write index wraps from the last slot to the first. */
  lemma NextSlot(i: int)
    requires 0 <= i < FILTER_SAMPLES
    ensures (i + 1) % FILTER_SAMPLES == if i + 1 == FILTER_SAMPLES then 0 else i + 1
  {
  }

  /** After a run of at most FILTER_SAMPLES pushes the write index is start + |vs|. */
  lemma {:induction false} PushAllIndex(ch: Channel, vs: seq<real>, cs: seq<real>)
    requires ch.Valid() && |vs| == |cs| <= FILTER_SAMPLES
    ensures PushAll(ch, vs, cs).index == SlotOf(ch.index, |vs|)
  {
    if vs != [] {
      var n := |vs| - 1;
      PushAllIndex(ch, vs[..n], cs[..n]);
      NextSlot(PushAll(ch, vs[..n], cs[..n]).index);
    }
  }

  /** After a run of at most FILTER_SAMPLES pushes, sample k sits in slot start + k. */
  lemma {:induction false} PushAllSlot(ch: Channel, vs: seq<real>, cs: seq<real>, k: int)
    requires ch.Valid() && |vs| == |cs| <= FILTER_SAMPLES && 0 <= k < |vs|
    ensures PushAll(ch, vs, cs).volts[SlotOf(ch.index, k)] == vs[k]
    ensures PushAll(ch, vs, cs).amps[SlotOf(ch.index, k)] == cs[k]
  {
    var n := |vs| - 1;
    var prev := PushAll(ch, vs[..n], cs[..n]);
    PushAllIndex(ch, vs[..n], cs[..n]);
    if k < n {
      PushAllSlot(ch, vs[..n], cs[..n], k);
      assert vs[..n][k] == vs[k] && cs[..n][k] == cs[k];
    }
  }

  /** A window holding sample k in slot start + k holds a permutation of the samples. */
  lemma {:induction false} RotatedWindow(w: seq<real>, src: seq<real>, start: int)
    requires |w| == |src| == FILTER_SAMPLES && 0 <= start < FILTER_SAMPLES
    requires forall k :: 0 <= k < FILTER_SAMPLES ==> w[SlotOf(start, k)] == src[k]
    ensures multiset(w) == multiset(src)
  {
    var cut := FILTER_SAMPLES - start;
    var rot := src[cut..] + src[..cut];
    forall j | 0 <= j < FILTER_SAMPLES
      ensures w[j] == rot[j]
    {
      if j >= start {
        assert w[SlotOf(start, j - start)] == src[j - start];
        assert rot[j] == src[..cut][j - start];
      } else {
        assert w[SlotOf(start, j + cut)] == src[j + cut];
        assert rot[j] == src[cut..][j];
      }
    }
    assert w == rot;
    assert src == src[..cut] + src[cut..];
  }

  /**
   * However the window was filled before, after FILTER_SAMPLES consecutive
   * pushes it holds exactly those samples, so its median is their median.
   */
  lemma FullWindowMedian(ch: Channel, vs: seq<real>, cs: seq<real>)
    requires ch.Valid() && |vs| == |cs| == FILTER_SAMPLES
    ensures Median(PushAll(ch, vs, cs).volts) == Median(vs)
    ensures Median(PushAll(ch, vs, cs).amps) == Median(cs)
  {
    var r := PushAll(ch, vs, cs);
    forall k | 0 <= k < FILTER_SAMPLES
      ensures r.volts[SlotOf(ch.index, k)] == vs[k] && r.amps[SlotOf(ch.index, k)] == cs[k]
    {
      PushAllSlot(ch, vs, cs, k);
    }
    RotatedWindow(r.volts, vs, ch.index);
    RotatedWindow(r.amps, cs, ch.index);
    MedianOfPermutation(vs, r.volts);
    MedianOfPermutation(cs, r.amps);
  }
}
