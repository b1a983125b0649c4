/** What the node holds in memory and on disk for a given chain. */
module ChainImage {
  import opened Ledger
  import opened Lineage
  import opened ForkChoice
  import opened ChainModel

  datatype ChainTip = ChainTip(hash: Hash, height: nat, timestamp: nat)

  datatype ChainStats = ChainStats(height: nat, tipHash: Hash, totalBlocks: nat, totalTransactions: nat,
                                   totalSupply: nat, totalBurned: nat, totalDifficulty: nat)

  datatype ChainStateData = ChainStateData(tipHash: Hash, height: nat, totalDifficulty: nat, totalSupply: nat,
                                           totalBurned: nat, lastCheckpoint: nat)

  /** The persistent store: every block ever stored, the active height index and the chain-state record. */
  datatype Database = Database(blocks: map<Hash, Block>, heights: map<nat, Hash>, state: Option<ChainStateData>)

  /** The blocks of `m` held in memory. */
  ghost function Cached(m: map<Hash, Block>, cached: set<Hash>): map<Hash, Block> {
    m - (m.Keys - cached)
  }

  ghost function TipOf(b: Block): ChainTip {
    ChainTip(b.hash, b.height, b.timestamp)
  }

  /** The running totals of a chain `p` whose genesis block is credited `base` units of work. */
  ghost function StatsOf(r: Rules, p: seq<Block>, base: nat): ChainStats
    requires p != []
  {
    ChainStats(|p| - 1, p[|p| - 1].hash, |p|, SumTxs(p), SumReward(r, |p|), SumBurn(r, p), base + SumWork(p))
  }

  /** The database of a node on the chain of `s`, with `total` as the recorded work: burned fees are kept in 64 bits.
      The recorded work is only a record; loading recomputes it. */
  ghost function DatabaseOf(r: Rules, s: State, total: nat): Database
    requires Rooted(r, s)
  {
    var p := Path(r, s);
    Database(s.store, IndexMap(p, Heights(0, |p|)), Some(RecordOf(r, p, total, s.lastCheckpoint)))
  }

  ghost function RecordOf(r: Rules, p: seq<Block>, total: nat, lastCheckpoint: nat): ChainStateData
    requires p != []
  {
    ChainStateData(p[|p| - 1].hash, |p| - 1, total, SumReward(r, |p|), SumBurn(r, p) % (U64_MAX + 1), lastCheckpoint)
  }

  ghost predicate Persists(r: Rules, s: State, db: Database)
    requires Rooted(r, s)
  {
    db.state.Some? && db == DatabaseOf(r, s, db.state.value.totalDifficulty)
  }

  /** The heights indexed once the chain has switched to `c` above `fp`. */
  ghost function Kept(s: State, c: seq<Block>, fp: nat): set<nat> {
    UpTo(s.indexed, fp) + Heights(fp + 1, |c|)
  }

  /** `c` is a linked chain of blocks by height that goes on above `fp`. */
  ghost predicate CandidateShape(c: seq<Block>, fp: nat) {
    && fp + 1 < |c|
    && (forall h :: 0 <= h < |c| ==> c[h].height == h)
    && (forall j {:trigger LinkAt(c, j)} :: 0 < j < |c| ==> LinkAt(c, j))
  }

  // ---------------------------------------------------------------- work counted from the top

  function Cap(w: nat): nat {
    if w <= U128_MAX then w else U128_MAX
  }

  /** Work of the blocks of `c` above index `k`. */
  ghost function WorkAbove(c: seq<Block>, k: nat): nat
    requires k < |c|
  {
    if SumWork(c[..k + 1]) <= SumWork(c) then SumWork(c) - SumWork(c[..k + 1]) else 0
  }

  lemma {:induction false} WorkAboveTop(q: seq<Block>, b: Block)
    requires q != []
    ensures WorkAbove(q + [b], |q| - 1) == Work(b)
  {
    var c := q + [b];
    assert c[..|q|] == q && c[..|c| - 1] == q;
  }

  /** Counting one block lower adds its work; at genesis only the base unit is left to add. */
  lemma {:induction false} WorkAboveStep(c: seq<Block>, k: nat)
    requires k < |c| - 1
    ensures k > 0 ==> WorkAbove(c, k - 1) == WorkAbove(c, k) + Work(c[k])
    ensures k == 0 ==> SatAdd(Cap(WorkAbove(c, k)), 1, U128_MAX) == ForkWork(c)
  {
    WorkGrows(c, k + 1);
    assert c[..k + 1][..k] == c[..k];
  }

  // ---------------------------------------------------------------- facts about height entries

  /** A block on top of a chain adds its height entry. */
  lemma {:induction false} IndexMapAppend(p: seq<Block>, keep: set<nat>, b: Block)
    requires |p| in keep
    ensures IndexMap(p + [b], keep) == IndexMap(p, keep)[|p| := b.hash]
  {
    hide IndexMap;
    IndexMapIs(p, keep);
    IndexMapIs(p + [b], keep);
  }

  lemma {:induction false} IndexMapGrow(p: seq<Block>, keep: set<nat>, b: Block)
    requires b.height == |p|
    ensures IndexMap(p + [b], keep + {b.height}) == IndexMap(p, keep)[b.height := b.hash]
  {
    hide IndexMap;
    IndexMapIs(p, keep);
    IndexMapIs(p + [b], keep + {b.height});
  }

  lemma {:induction false} StatsAppend(r: Rules, p: seq<Block>, base: nat, b: Block)
    requires p != [] && b.height == |p|
    ensures var t := StatsOf(r, p, base);
            StatsOf(r, p + [b], base) ==
            ChainStats(b.height, b.hash, t.totalBlocks + 1, t.totalTransactions + |b.txs|,
                       t.totalSupply + r.reward(b.height), t.totalBurned + BlockFeeBurn(r, b),
                       t.totalDifficulty + Work(b))
  {
    SumsAppend(r, p, b);
  }

  lemma {:induction false} OverlayUpdate(rest: map<nat, Hash>, m: map<nat, Hash>, h: nat, x: Hash)
    ensures (rest + m)[h := x] == rest + m[h := x]
  {
  }

  /** Dropping the last block of a chain drops its height entry. */
  lemma {:induction false} IndexMapDropLast(p: seq<Block>, keep: set<nat>)
    requires p != []
    ensures IndexMap(p, keep) - {|p| - 1} == IndexMap(p[..|p| - 1], keep)
  {
    hide IndexMap;
    IndexMapIs(p, keep);
    IndexMapIs(p[..|p| - 1], keep);
  }

  function CountTxs(ds: seq<Disconnected>): nat {
    if ds == [] then 0 else CountTxs(ds[..|ds| - 1]) + |ds[|ds| - 1].txs|
  }

  /** The disconnected blocks carry the transactions missing from the shortened chain. */
  lemma {:induction false} DescendingTxs(p: seq<Block>, fp: nat)
    requires fp < |p|
    ensures SumTxs(p) == SumTxs(p[..fp + 1]) + CountTxs(Descending(p, fp))
    decreases |p| - fp
  {
    if fp + 1 < |p| {
      DescendingTxs(p, fp + 1);
      assert p[..fp + 2][..fp + 1] == p[..fp + 1];
      var ds := Descending(p, fp);
      assert ds[..|ds| - 1] == Descending(p, fp + 1);
    } else {
      assert p[..fp + 1] == p;
    }
  }

  lemma {:induction false} DescendingSize(p: seq<Block>, fp: nat)
    ensures |Descending(p, fp)| == if fp < |p| then |p| - 1 - fp else 0
  {
    if fp < |p| {
      DescendingAt(p, fp);
    }
  }

  lemma {:induction false} DescendingAt(p: seq<Block>, fp: nat)
    requires fp < |p|
    ensures |Descending(p, fp)| == |p| - 1 - fp
    ensures forall i :: 0 <= i < |p| - 1 - fp ==>
      Descending(p, fp)[i] == Disconnected(|p| - 1 - i, p[|p| - 1 - i].hash, p[|p| - 1 - i].txs)
    decreases |p| - fp
  {
    if fp + 1 < |p| {
      DescendingAt(p, fp + 1);
    }
  }

  // ---------------------------------------------------------------- the height index during a reorganisation

  /** The in-memory height index: the chain's entries at the heights kept, and the strays over them. */
  ghost function HeightIndex(p: seq<Block>, indexed: set<nat>, stale: map<nat, Hash>): map<nat, Hash>
  {
    IndexMap(p, indexed) + stale
  }

  ghost predicate AboveAll(stale: map<nat, Hash>, n: nat)
  {
    forall h :: h in stale ==> h >= n
  }

  /** Dropping the last block of a chain drops its height entry. */
  lemma {:induction false} HeightIndexDrop(u: seq<Block>, keep: set<nat>, stale: map<nat, Hash>)
    requires u != [] && AboveAll(stale, |u|)
    ensures HeightIndex(u, keep, stale) - {|u| - 1} == HeightIndex(u[..|u| - 1], keep, stale)
    ensures |u| - 1 in keep ==> |u| - 1 in HeightIndex(u, keep, stale) &&
                                HeightIndex(u, keep, stale)[|u| - 1] == u[|u| - 1].hash
  {
    hide IndexMap;
    IndexMapAt(u, keep, |u| - 1);
    IndexMapDropLast(u, keep);
  }

  /** The index once the active blocks above `fp` are disconnected and the candidate's up to `j` are connected. */
  ghost function MidIndex(s: State, p: seq<Block>, c: seq<Block>, fp: nat, j: nat): map<nat, Hash>
    requires fp < j <= |c|
  {
    HeightIndex(Trunk(p, fp), s.indexed, s.stale) + IndexMap(c, Heights(fp + 1, j))
  }

  lemma {:induction false} MidIndexFirst(s: State, p: seq<Block>, c: seq<Block>, fp: nat)
    requires fp < |c|
    ensures MidIndex(s, p, c, fp, fp + 1) == HeightIndex(Trunk(p, fp), s.indexed, s.stale)
  {
    hide IndexMap;
    NothingIndexed(c, fp + 1, fp + 1);
  }

  lemma {:induction false} MidIndexNext(s: State, p: seq<Block>, c: seq<Block>, fp: nat, j: nat)
    requires fp < j < |c|
    ensures MidIndex(s, p, c, fp, j + 1) == MidIndex(s, p, c, fp, j)[j := c[j].hash]
  {
    OverlayStep(HeightIndex(Trunk(p, fp), s.indexed, s.stale), c, fp + 1, j);
  }

  /** Up to the fork point the index does not change. */
  lemma {:induction false} MidIndexBelow(s: State, p: seq<Block>, c: seq<Block>, fp: nat, j: nat, h: nat)
    requires fp < j <= |c| && h <= fp
    ensures AgreeAt(MidIndex(s, p, c, fp, j), HeightIndex(p, s.indexed, s.stale), h)
  {
    hide IndexMap;
    IndexMapAt(Trunk(p, fp), s.indexed, h);
    IndexMapAt(p, s.indexed, h);
    IndexMapAt(c, Heights(fp + 1, j), h);
  }

  /** Above it the index names the candidate's block exactly at the heights connected so far, if no stray entry does. */
  lemma {:induction false} MidIndexAbove(s: State, p: seq<Block>, c: seq<Block>, fp: nat, j: nat, h: nat)
    requires fp < j <= |c| && fp < h < |c| && !StrayNames(s.stale, c, h)
    ensures var index := MidIndex(s, p, c, fp, j); h in index && index[h] == c[h].hash <==> h < j
  {
    hide IndexMap;
    IndexMapAt(Trunk(p, fp), s.indexed, h);
    IndexMapAt(c, Heights(fp + 1, j), h);
  }

  /** If the fork point is on the active chain, the index after the switch is that of the candidate, and the stray
      entries up to its height are gone. */
  lemma {:induction false} SwitchedMemory(s: State, p: seq<Block>, c: seq<Block>, fp: nat)
    requires fp + 1 < |c| && SharesUpTo(p, c, fp) && AboveAll(s.stale, |p|)
    ensures MidIndex(s, p, c, fp, |c|) == HeightIndex(c, Kept(s, c, fp), s.stale - Heights(fp + 1, |c|))
  {
    hide IndexMap;
    var a, b := MidIndex(s, p, c, fp, |c|), HeightIndex(c, Kept(s, c, fp), s.stale - Heights(fp + 1, |c|));
    forall h: nat ensures AgreeAt(a, b, h) {
      IndexMapAt(Trunk(p, fp), s.indexed, h);
      IndexMapAt(c, Heights(fp + 1, |c|), h);
      IndexMapAt(c, Kept(s, c, fp), h);
      assert h <= fp ==> p[h] == p[..fp + 1][h] == c[..fp + 1][h] == c[h];
    }
    SameIndex(a, b);
  }

  /** Two indexes that agree at every height are equal. */
  lemma {:induction false} SameIndex(a: map<nat, Hash>, b: map<nat, Hash>)
    requires forall h: nat {:trigger AgreeAt(a, b, h)} :: AgreeAt(a, b, h)
    ensures a == b
  {
    forall h: nat ensures h in a <==> h in b {
      assert AgreeAt(a, b, h);
    }
    forall h | h in a ensures a[h] == b[h] {
      assert AgreeAt(a, b, h);
    }
  }

  ghost predicate AgreeAt(a: map<nat, Hash>, b: map<nat, Hash>, h: nat) {
    (h in a <==> h in b) && (h in a && h in b ==> a[h] == b[h])
  }

  /** The stray entries once everything above `fp` and up to `top` is cleared. */
  ghost function StraysAfter(s: State, c: seq<Block>, fp: nat, j: nat, top: nat): map<nat, Hash> {
    (s.stale - Heights(fp + 1, top + 1)) + IndexMap(c, Heights(if fp <= top then top + 1 else fp + 1, j))
  }

  /** Clearing the entries fp+1..top of the partly connected candidate and putting the old chain's back gives the old
      index, plus the strays and connected blocks that were not cleared. */
  lemma {:induction false} RestoredIndex(s: State, p: seq<Block>, c: seq<Block>, fp: nat, j: nat, top: nat)
    requires fp < j <= |c| && |p| <= top + 1 && AboveAll(s.stale, |p|)
    requires (forall h :: h in s.indexed ==> h < |p|) && (forall h :: fp < h < |p| ==> h in s.indexed)
    ensures (MidIndex(s, p, c, fp, j) - Heights(fp + 1, top + 1)) + IndexMap(p, Heights(fp + 1, |p|))
            == HeightIndex(p, s.indexed, StraysAfter(s, c, fp, j, top))
  {
    hide IndexMap, Heights;
    var a := (MidIndex(s, p, c, fp, j) - Heights(fp + 1, top + 1)) + IndexMap(p, Heights(fp + 1, |p|));
    var b := HeightIndex(p, s.indexed, StraysAfter(s, c, fp, j, top));
    forall h: nat ensures AgreeAt(a, b, h) {
      IndexMapAt(Trunk(p, fp), s.indexed, h);
      IndexMapAt(c, Heights(fp + 1, j), h);
      IndexMapAt(p, Heights(fp + 1, |p|), h);
      IndexMapAt(p, s.indexed, h);
      IndexMapAt(c, Heights(if fp <= top then top + 1 else fp + 1, j), h);
    }
    SameIndex(a, b);
  }

  lemma {:induction false} LeftoverIs(r: Rules, s: State, p: seq<Block>, c: seq<Block>, fp: nat, bad: nat, top: nat)
    requires fp < bad < |c| && p != [] && AboveAll(s.stale, |p|)
    requires if bad == |c| - 1 && ReplayValid(r, s, p, c, fp, bad)
             then top == if |p| > |c| then |p| - 1 else |c| - 1
             else top == |p| - 1
    ensures StraysAfter(s, c, fp, bad, top) == Leftover(r, s, p, c, fp, bad)
  {
    hide IndexMap;
    var lo := if fp <= top then top + 1 else fp + 1;
    IndexMapIs(c, Heights(lo, bad));
  }

  lemma {:induction false} NothingIndexed(p: seq<Block>, lo: nat, hi: nat)
    requires |p| <= lo || hi <= lo
    ensures IndexMap(p, Heights(lo, hi)) == map[]
    ensures forall m: map<nat, Hash> :: m + IndexMap(p, Heights(lo, hi)) == m
  {
    hide IndexMap;
    IndexMapIs(p, Heights(lo, hi));
  }

  // ---------------------------------------------------------------- committing a reorganisation

  lemma {:induction false} RewardAppend(r: Rules, n: nat)
    ensures SumReward(r, n + 1) == SumReward(r, n) + r.reward(n)
  {
  }

  lemma {:induction false} SumTxsConcat(p: seq<Block>, q: seq<Block>)
    ensures SumTxs(p + q) == SumTxs(p) + SumTxs(q)
    decreases |q|
  {
    if q == [] {
      assert p + q == p;
    } else {
      var n := |q| - 1;
      SumTxsConcat(p, q[..n]);
      assert (p + q)[..|p + q| - 1] == p + q[..n];
    }
  }

  /** The block and transaction counters after subtracting what was disconnected and adding what was connected. */
  lemma {:induction false} CountersSettle(p: seq<Block>, c: seq<Block>, fp: nat)
    requires fp + 1 < |c|
    ensures var gone, fork, u := Descending(p, fp), c[fp + 1..|c| - 1], Joined(p, c, fp, |c|);
            && |p| >= |gone| && |p| - |gone| + |fork| + 1 == |u|
            && SumTxs(p) >= CountTxs(gone)
            && SumTxs(p) - CountTxs(gone) + SumTxs(fork) + |c[|c| - 1].txs| == SumTxs(u)
  {
    hide SumTxs, CountTxs, Descending;
    var fork, n := c[fp + 1..|c| - 1], |c| - 1;
    TrunkCounters(p, fp);
    assert Joined(p, c, fp, n) == Trunk(p, fp) + fork;
    SumTxsConcat(Trunk(p, fp), fork);
    JoinedNext(p, c, fp, n);
    SumTxsConcat(Joined(p, c, fp, n), [c[n]]);
    SumTxsOne(c[n]);
  }

  lemma {:induction false} SumTxsOne(b: Block)
    ensures SumTxs([b]) == |b.txs|
  {
  }

  lemma {:induction false} TrunkCounters(p: seq<Block>, fp: nat)
    ensures var gone := Descending(p, fp);
            |Trunk(p, fp)| + |gone| == |p| && SumTxs(Trunk(p, fp)) + CountTxs(gone) == SumTxs(p)
  {
    if fp < |p| {
      DescendingAt(p, fp);
      DescendingTxs(p, fp);
      assert fp + 1 == |p| ==> p[..fp + 1] == p;
    }
  }

  lemma {:induction false} OverlayStep(m: map<nat, Hash>, c: seq<Block>, lo: nat, k: nat)
    requires lo <= k < |c|
    ensures (m + IndexMap(c, Heights(lo, k)))[k := c[k].hash] == m + IndexMap(c, Heights(lo, k + 1))
  {
    hide IndexMap;
    IndexMapIs(c, Heights(lo, k));
    IndexMapIs(c, Heights(lo, k + 1));
  }

  /** The persistent index after a switch: the fork's entries over the old ones, and none above the new tip. */
  ghost function SplicedHeights(p: seq<Block>, c: seq<Block>, fp: nat): map<nat, Hash> {
    (IndexMap(p, Heights(0, |p|)) + IndexMap(c, Heights(fp + 1, |c|))) - Heights(|c|, |p|)
  }

  /** If the fork point is on the active chain, that is the new chain's index. */
  lemma {:induction false} SwitchedIndex(p: seq<Block>, c: seq<Block>, fp: nat)
    requires SharesUpTo(p, c, fp)
    ensures SplicedHeights(p, c, fp) == IndexMap(c, Heights(0, |c|))
  {
    hide IndexMap;
    var a, b := SplicedHeights(p, c, fp), IndexMap(c, Heights(0, |c|));
    forall h: nat ensures AgreeAt(a, b, h) {
      IndexMapAt(p, Heights(0, |p|), h);
      IndexMapAt(c, Heights(fp + 1, |c|), h);
      IndexMapAt(c, Heights(0, |c|), h);
      assert h <= fp ==> p[h] == p[..fp + 1][h] == c[..fp + 1][h] == c[h];
    }
    SameIndex(a, b);
  }

  // ---------------------------------------------------------------- the block cache

  lemma {:induction false} StoredCached(m: map<Hash, Block>, cached: set<Hash>, b: Block)
    ensures Cached(m[b.hash := b], cached + {b.hash}) == Cached(m, cached)[b.hash := b]
  {
  }

  lemma {:induction false} CachedSize(m: map<Hash, Block>, cached: set<Hash>)
    requires cached <= m.Keys
    ensures |Cached(m, cached)| == |cached|
  {
    assert Cached(m, cached).Keys == cached;
  }

  /** At the heights of the chain the index holds the chain's entries, whatever strays are above. */
  lemma {:induction false} IndexedBelow(p: seq<Block>, indexed: set<nat>, stale: map<nat, Hash>, h: nat)
    requires h < |p| && AboveAll(stale, |p|)
    ensures h in HeightIndex(p, indexed, stale) <==> h in indexed
    ensures h in indexed ==> HeightIndex(p, indexed, stale)[h] == p[h].hash
  {
    hide IndexMap;
    IndexMapIs(p, indexed);
  }

  lemma {:induction false} EvictOne(m: map<Hash, Block>, p: seq<Block>, cached: set<Hash>, indexed: set<nat>,
                                    stale: map<nat, Hash>, h: nat)
    requires h < |p| && h in indexed && AboveAll(stale, |p|)
    ensures Cached(m, cached) - {p[h].hash} == Cached(m, cached - {p[h].hash})
    ensures HeightIndex(p, indexed, stale) - {h} == HeightIndex(p, indexed - {h}, stale)
  {
    hide IndexMap;
    IndexMapIs(p, indexed);
    IndexMapIs(p, indexed - {h});
  }

  lemma {:induction false} OverlayGrow(p: seq<Block>, keep: set<nat>, b: Block, stale: map<nat, Hash>)
    requires b.height == |p|
    ensures HeightIndex(p, keep, stale)[b.height := b.hash]
            == HeightIndex(p + [b], keep + {b.height}, stale - {b.height})
  {
    hide IndexMap;
    IndexMapGrow(p, keep, b);
  }

  // ---------------------------------------------------------------- the fresh node

  /** A node that has just created its genesis block. */
  function GenesisState(r: Rules): State {
    State(map[r.genesis.hash := r.genesis], r.genesis.hash, {r.genesis.hash}, {0}, map[], 0, 0)
  }

  lemma {:induction false} GenesisTotals(r: Rules)
    requires Sound(r)
    ensures StatsOf(r, [r.genesis], 0) == ChainStats(0, r.genesis.hash, 1, |r.genesis.txs|, r.reward(0), 0, 0)
    ensures Replay([r.genesis]) == Connect(EMPTY_UTXO, 0, r.genesis.txs)
  {
    hide Connect;
    assert [] + [r.genesis] == [r.genesis];
    SumsAppend(r, [], r.genesis);
    RewardAppend(r, 0);
  }

  lemma {:induction false} GenesisRooted(r: Rules)
    requires Sound(r)
    ensures Rooted(r, GenesisState(r)) && Path(r, GenesisState(r)) == [r.genesis]
  {
    assert [] + [r.genesis] == [r.genesis];
  }

  lemma {:induction false} GenesisIndex(r: Rules)
    ensures IndexMap([r.genesis], {0}) == map[0 := r.genesis.hash]
    ensures IndexMap([r.genesis], Heights(0, 1)) == map[0 := r.genesis.hash]
    ensures Cached(map[r.genesis.hash := r.genesis], {r.genesis.hash}) == map[r.genesis.hash := r.genesis]
  {
    hide IndexMap;
    IndexMapIs([r.genesis], {0});
    IndexMapIs([r.genesis], Heights(0, 1));
  }

  /** A fresh node is well formed. */
  lemma {:induction false} GenesisWellFormed(r: Rules)
    requires Sound(r)
    ensures WellFormed(r, GenesisState(r))
  {
    var s, p := GenesisState(r), [r.genesis];
    GenesisTotals(r);
    GenesisRooted(r);
    assert FreshAt(p, 0);
    forall h | h in s.store ensures LineageTimeOk(r.genesis, s.store, h) {
      assert h == r.genesis.hash;
    }
    assert CachedAt(p, s.cached, s.indexed, 0);
  }

  // ---------------------------------------------------------------- height entries, one at a time

  /** Drop the entries lo..hi-1. */
  method DropHeights(index: map<nat, Hash>, lo: nat, hi: nat) returns (rest: map<nat, Hash>)
    ensures rest == index - Heights(lo, hi)
  {
    rest := index;
    var h := lo;
    while h < hi
      invariant lo <= h && (h <= hi || h == lo) && rest == index - Heights(lo, h)
    {
      HeightsGrow(lo, h);
      rest := rest - {h};
      h := h + 1;
    }
  }

  /** Set the entries of the fork blocks `fork`, which are blocks lo.. of `c`. */
  method SetHeights(index: map<nat, Hash>, fork: seq<Block>, ghost c: seq<Block>, ghost lo: nat)
    returns (heights: map<nat, Hash>)
    requires lo + |fork| <= |c| && fork == c[lo..lo + |fork|]
    requires forall h :: 0 <= h < |c| ==> c[h].height == h
    ensures heights == index + IndexMap(c, Heights(lo, lo + |fork|))
  {
    hide IndexMap;
    heights := index;
    NothingIndexed(c, lo, lo);
    for i := 0 to |fork|
      invariant heights == index + IndexMap(c, Heights(lo, lo + i))
    {
      assert fork[i] == c[lo + i];
      OverlayStep(index, c, lo, lo + i);
      heights := heights[fork[i].height := fork[i].hash];
    }
  }
}
