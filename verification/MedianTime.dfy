/** Median-time-past: the median timestamp of the last eleven ancestors. */
module MedianTime {
  import opened Ledger

  const MTP_WINDOW: nat := 11

  // ---------------------------------------------------------------- sorting and counting

  function Insert(x: nat, s: seq<nat>): seq<nat> {
    if s == [] || x <= s[0] then [x] + s else [s[0]] + Insert(x, s[1..])
  }

  function Sort(w: seq<nat>): seq<nat> {
    if w == [] then [] else Insert(w[0], Sort(w[1..]))
  }

  ghost predicate Ascending(s: seq<nat>) {
    forall i, j :: 0 <= i <= j < |s| ==> s[i] <= s[j]
  }

  /** How many entries are at least `m`. */
  ghost function CountGE(w: seq<nat>, m: nat): (c: nat)
    ensures c <= |w|
  {
    if w == [] then 0 else (if w[0] >= m then 1 else 0) + CountGE(w[1..], m)
  }

  lemma {:induction false} InsertHolds(x: nat, s: seq<nat>, y: nat)
    ensures |Insert(x, s)| == |s| + 1
    ensures y in Insert(x, s) <==> y == x || y in s
    decreases |s|
  {
    if s != [] && x > s[0] {
      InsertHolds(x, s[1..], y);
    }
  }

  lemma {:induction false} InsertCounts(x: nat, s: seq<nat>, m: nat)
    ensures CountGE(Insert(x, s), m) == CountGE([x], m) + CountGE(s, m)
    decreases |s|
  {
    if s == [] || x <= s[0] {
      CountConcat([x], s, m);
    } else {
      InsertCounts(x, s[1..], m);
      assert Insert(x, s)[1..] == Insert(x, s[1..]);
    }
  }

  lemma {:induction false} PrependAscends(x: nat, t: seq<nat>)
    requires Ascending(t) && forall y :: y in t ==> x <= y
    ensures Ascending([x] + t)
  {
    forall j | 0 <= j < |t| ensures x <= t[j] {
      assert t[j] in t;
    }
  }

  lemma {:induction false} InsertSorts(x: nat, s: seq<nat>)
    requires Ascending(s)
    ensures Ascending(Insert(x, s))
    decreases |s|
  {
    if s == [] || x <= s[0] {
      PrependAscends(x, s);
    } else {
      InsertSorts(x, s[1..]);
      forall y | y in Insert(x, s[1..]) ensures s[0] <= y {
        InsertHolds(x, s[1..], y);
      }
      PrependAscends(s[0], Insert(x, s[1..]));
    }
  }

  lemma {:induction false} SortSorts(w: seq<nat>, m: nat)
    ensures |Sort(w)| == |w| && Ascending(Sort(w))
    ensures CountGE(Sort(w), m) == CountGE(w, m)
    decreases |w|
  {
    if w != [] {
      SortSorts(w[1..], m);
      InsertSorts(w[0], Sort(w[1..]));
      InsertCounts(w[0], Sort(w[1..]), m);
      InsertHolds(w[0], Sort(w[1..]), w[0]);
    }
  }

  lemma {:induction false} AllCount(w: seq<nat>, m: nat)
    requires forall i :: 0 <= i < |w| ==> w[i] >= m
    ensures CountGE(w, m) == |w|
    decreases |w|
  {
    if w != [] {
      AllCount(w[1..], m);
    }
  }

  lemma {:induction false} CountConcat(a: seq<nat>, b: seq<nat>, m: nat)
    ensures CountGE(a + b, m) == CountGE(a, m) + CountGE(b, m)
    decreases |a|
  {
    if a == [] {
      assert a + b == b;
    } else {
      assert (a + b)[1..] == a[1..] + b;
      CountConcat(a[1..], b, m);
    }
  }

  /** The entry at index `k` of an ascending sequence is at least `m` exactly when at most `k` entries are below `m`. */
  lemma {:induction false} RankByCount(s: seq<nat>, k: nat, m: nat)
    requires Ascending(s) && k < |s|
    ensures s[k] >= m <==> CountGE(s, m) >= |s| - k
    decreases |s|
  {
    if s[0] >= m {
      AllCount(s, m);
    } else if k > 0 {
      RankByCount(s[1..], k - 1, m);
    }
  }

  function Median(w: seq<nat>): (m: nat)
    requires w != []
  {
    SortSorts(w, 0);
    Sort(w)[|w| / 2]
  }

  /** The median is at least `m` exactly when more than half the entries are. */
  lemma {:induction false} MedianByCount(w: seq<nat>, m: nat)
    requires w != []
    ensures Median(w) >= m <==> CountGE(w, m) >= |w| - |w| / 2
  {
    SortSorts(w, m);
    RankByCount(Sort(w), |w| / 2, m);
  }

  // ---------------------------------------------------------------- median-time-past of a lineage

  function Timestamps(p: seq<Block>): (w: seq<nat>)
    ensures |w| == |p|
    ensures forall i :: 0 <= i < |p| ==> w[i] == p[i].timestamp
  {
    seq(|p|, i requires 0 <= i < |p| => p[i].timestamp)
  }

  /** Median timestamp of the last eleven blocks of `p`. */
  function MedianTimePast(p: seq<Block>): nat
    requires |p| >= MTP_WINDOW
  {
    Median(Timestamps(p[|p| - MTP_WINDOW..]))
  }

  /** The timestamps of the last `n` blocks of `p`, latest block first: the order the lineage walk meets them. */
  function Backwards(p: seq<Block>, n: nat): (w: seq<nat>)
    requires n <= |p|
    ensures |w| == n
  {
    if n == 0 then [] else Backwards(p, n - 1) + [p[|p| - n].timestamp]
  }

  lemma {:induction false} BackwardsCount(p: seq<Block>, n: nat, m: nat)
    requires n <= |p|
    ensures CountGE(Backwards(p, n), m) == CountGE(Timestamps(p[|p| - n..]), m)
  {
    if n > 0 {
      BackwardsCount(p, n - 1, m);
      var t := p[|p| - n].timestamp;
      CountConcat(Backwards(p, n - 1), [t], m);
      CountConcat([t], Timestamps(p[|p| - n + 1..]), m);
      assert Timestamps(p[|p| - n..]) == [t] + Timestamps(p[|p| - n + 1..]);
    }
  }

  /** The median does not depend on the order in which the lineage is walked. */
  lemma {:induction false} BackwardsMedian(p: seq<Block>)
    requires |p| >= MTP_WINDOW
    ensures Median(Backwards(p, MTP_WINDOW)) == MedianTimePast(p)
  {
    var v, w := Backwards(p, MTP_WINDOW), Timestamps(p[|p| - MTP_WINDOW..]);
    BackwardsCount(p, MTP_WINDOW, Median(v));
    BackwardsCount(p, MTP_WINDOW, Median(w));
    MedianByCount(v, Median(v));
    MedianByCount(w, Median(v));
    MedianByCount(v, Median(w));
    MedianByCount(w, Median(w));
  }

  ghost predicate LaterThanMedian(p: seq<Block>, i: int)
    requires MTP_WINDOW <= i < |p|
  {
    p[i].timestamp > MedianTimePast(p[..i])
  }

  /** Every block from height 11 on is later than the median-time-past of its own ancestors. */
  ghost predicate TimeOk(p: seq<Block>) {
    forall i {:trigger LaterThanMedian(p, i)} :: MTP_WINDOW <= i < |p| ==> LaterThanMedian(p, i)
  }

  lemma {:induction false} WindowSlides(p: seq<Block>, i: nat)
    requires MTP_WINDOW <= i < |p|
    ensures var w := Timestamps(p[..i][i - MTP_WINDOW..]);
            Timestamps(p[..i + 1][i + 1 - MTP_WINDOW..]) == w[1..] + [p[i].timestamp]
  {
    var w := Timestamps(p[..i][i - MTP_WINDOW..]);
    var v := Timestamps(p[..i + 1][i + 1 - MTP_WINDOW..]);
    assert forall k :: 0 <= k < MTP_WINDOW ==> w[k] == p[i - MTP_WINDOW + k].timestamp;
    assert forall k :: 0 <= k < MTP_WINDOW ==> v[k] == p[i + 1 - MTP_WINDOW + k].timestamp;
  }

  /** Dropping one entry and adding one above the median does not lower it. */
  lemma {:induction false} MedianSlides(w: seq<nat>, x: nat)
    requires w != [] && x >= Median(w)
    ensures Median(w[1..] + [x]) >= Median(w)
  {
    var m := Median(w);
    MedianByCount(w, m);
    assert w == [w[0]] + w[1..];
    CountConcat([w[0]], w[1..], m);
    CountConcat(w[1..], [x], m);
    MedianByCount(w[1..] + [x], m);
  }

  /** One block later the median-time-past is no earlier. */
  lemma {:induction false} MedianStep(p: seq<Block>, i: nat)
    requires TimeOk(p) && MTP_WINDOW <= i < |p|
    ensures MedianTimePast(p[..i + 1]) >= MedianTimePast(p[..i])
  {
    assert LaterThanMedian(p, i);
    WindowSlides(p, i);
    MedianSlides(Timestamps(p[..i][i - MTP_WINDOW..]), p[i].timestamp);
  }

  /** Median-time-past never decreases along a lineage. */
  lemma {:induction false} MedianMonotone(p: seq<Block>, i: nat, j: nat)
    requires TimeOk(p) && MTP_WINDOW <= i <= j <= |p|
    ensures MedianTimePast(p[..i]) <= MedianTimePast(p[..j])
    decreases j
  {
    if i < j {
      MedianMonotone(p, i, j - 1);
      MedianStep(p, j - 1);
    }
  }

  /** A block's timestamp exceeds the median-time-past enforced on every one of its ancestors. */
  lemma {:induction false} LaterThanEveryAncestorMedian(p: seq<Block>, i: nat, j: nat)
    requires TimeOk(p) && MTP_WINDOW <= i <= j < |p|
    ensures p[j].timestamp > MedianTimePast(p[..i])
  {
    assert LaterThanMedian(p, j);
    MedianMonotone(p, i, j);
  }

  /** Over any six consecutive blocks the median-time-past strictly increases. */
  lemma {:induction false} MedianStrictOverSix(p: seq<Block>, i: nat)
    requires TimeOk(p) && MTP_WINDOW <= i && i + 6 <= |p|
    ensures MedianTimePast(p[..i]) < MedianTimePast(p[..i + 6])
  {
    var m := MedianTimePast(p[..i]);
    var w := Timestamps(p[..i + 6][i + 6 - MTP_WINDOW..]);
    forall k | 0 <= k < 6 ensures w[5..][k] >= m + 1 {
      LaterThanEveryAncestorMedian(p, i, i + k);
    }
    AllCount(w[5..], m + 1);
    assert w == w[..5] + w[5..];
    CountConcat(w[..5], w[5..], m + 1);
    MedianByCount(w, m + 1);
  }
}
