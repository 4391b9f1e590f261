/**
 Operation-size histograms: a map from an operation size to the number of
 calls seen with that size. The report uses two computations over one, the sum
 of its counts and the greatest of its (size, count) entries; neither depends
 on the order in which the map is visited.
 */
module Histogram {

  type Hist = map<nat, nat>

  /** The count recorded for `size`, zero when it has no bucket. */
  function Count(h: Hist, size: nat): nat {
    if size in h then h[size] else 0
  }

  /**
   One more call of size `size`: the bucket is created at zero when missing
   and then raised by one.
   */
  function Bump(h: Hist, size: nat): (r: Hist)
    ensures r.Keys == h.Keys + {size}
    ensures r[size] == Count(h, size) + 1
    ensures forall k :: k in h && k != size ==> r[k] == h[k]
  {
    h[size := Count(h, size) + 1]
  }

  /** Every bucket that exists holds at least one call. */
  predicate Positive(h: Hist) {
    forall k :: k in h ==> h[k] >= 1
  }

  lemma {:induction false} MaxExists(s: set<nat>)
    requires s != {}
    ensures exists k :: k in s && forall j :: j in s ==> j <= k
  {
    var x :| x in s;
    if s != {x} {
      MaxExists(s - {x});
      var k :| k in s - {x} && forall j :: j in s - {x} ==> j <= k;
      var m := if x > k then x else k;
      forall j | j in s
        ensures j <= m
      {
        if j != x {
          assert j in s - {x};
        }
      }
    } else {
      assert forall j :: j in s ==> j <= x;
    }
  }

  /** The largest size recorded. */
  function MaxKey(h: Hist): (k: nat)
    requires h != map[]
    ensures k in h
    ensures forall j :: j in h ==> j <= k
  {
    assert h.Keys != {} by {
      var x :| x in h;
      assert x in h.Keys;
    }
    MaxExists(h.Keys);
    var k :| k in h && forall j :: j in h ==> j <= k;
    k
  }

  /** The number of calls recorded, `values().sum()`: no less than any one count. */
  function SumValues(h: Hist): (r: nat)
    ensures h == map[] ==> r == 0
    ensures forall j :: j in h ==> h[j] <= r
    decreases |h|
  {
    if h == map[] then 0
    else
      var k := MaxKey(h);
      assert |h - {k}| < |h| by { assert (h - {k}).Keys == h.Keys - {k}; }
      var rest := SumValues(h - {k});
      assert forall j :: j in h && j != k ==> j in h - {k} && (h - {k})[j] == h[j];
      h[k] + rest
  }

  lemma RemoveSize(h: Hist, k: nat)
    requires k in h
    ensures |h - {k}| == |h| - 1
  {
    assert (h - {k}).Keys == h.Keys - {k};
  }

  /** Any bucket may be taken out first: the sum does not depend on the order. */
  lemma {:induction false} SumRemove(h: Hist, k: nat)
    requires k in h
    ensures SumValues(h) == h[k] + SumValues(h - {k})
    decreases |h|
  {
    var j := MaxKey(h);
    if j != k {
      RemoveSize(h, j);
      RemoveSize(h, k);
      SumRemove(h - {j}, k);
      SumRemove(h - {k}, j);
      assert h - {j} - {k} == h - {k} - {j};
    }
  }

  /** One more call adds exactly one to the number of calls. */
  lemma SumBump(h: Hist, size: nat)
    ensures SumValues(Bump(h, size)) == SumValues(h) + 1
  {
    var r := Bump(h, size);
    SumRemove(r, size);
    assert r - {size} == h - {size};
    if size in h {
      SumRemove(h, size);
    } else {
      assert h - {size} == h;
    }
  }

  /** With positive buckets, the number of calls bounds the number of distinct sizes. */
  lemma {:induction false} SumAtLeastSize(h: Hist)
    requires Positive(h)
    ensures SumValues(h) >= |h|
    decreases |h|
  {
    if h != map[] {
      var k := MaxKey(h);
      RemoveSize(h, k);
      SumAtLeastSize(h - {k});
    }
  }

  /** With positive buckets, the histogram is empty exactly when no call was recorded. */
  lemma EmptyIffSumZero(h: Hist)
    requires Positive(h)
    ensures h == map[] <==> SumValues(h) == 0
  {
    if h != map[] {
      var k := MaxKey(h);
      SumRemove(h, k);
    }
  }

  /** Rust's tuple order on `(size, count)`: by size, then by count. */
  predicate LexLe(a: (nat, nat), b: (nat, nat)) {
    a.0 < b.0 || (a.0 == b.0 && a.1 <= b.1)
  }

  /** The greatest `(size, count)` entry, `iter().max()`. */
  function MaxEntry(h: Hist): (e: (nat, nat))
    requires h != map[]
    ensures e.0 in h && e.1 == h[e.0]
    ensures forall k :: k in h ==> LexLe((k, h[k]), e)
  {
    var k := MaxKey(h);
    (k, h[k])
  }

  /** The greatest entry is the only entry that no other entry exceeds. */
  lemma MaxEntryUnique(h: Hist, e: (nat, nat))
    requires e.0 in h && e.1 == h[e.0]
    requires forall k :: k in h ==> LexLe((k, h[k]), e)
    ensures e == MaxEntry(h)
  {
    var m := MaxEntry(h);
    assert LexLe((m.0, h[m.0]), e);
    assert LexLe((e.0, h[e.0]), m);
  }

  /**
   So the size the report shows is the largest size seen, whatever its count:
   sizes are distinct keys and the count only breaks ties that cannot occur.
   */
  lemma MaxEntryIsLargestSize(h: Hist)
    requires h != map[]
    ensures forall k :: k in h ==> k <= MaxEntry(h).0
    ensures MaxEntry(h).0 == MaxKey(h)
  {
  }

  /** Not the most frequent size: {64 -> 10, 4096 -> 1} shows 4096. */
  lemma MaxEntryNotMostFrequent()
    ensures var h := map[64 := 10, 4096 := 1]; 64 in h && MaxEntry(h) == (4096, 1)
  {
    var h := map[64 := 10, 4096 := 1];
    assert 64 in h;
    var e := MaxEntry(h);
    assert LexLe((4096, h[4096]), e);
  }

  /** A histogram with one size holds all its calls in that bucket. */
  lemma SumSingle(size: nat, n: nat)
    ensures SumValues(map[size := n]) == n
  {
    var h := map[size := n];
    SumRemove(h, size);
    assert h - {size} == map[];
  }
}
