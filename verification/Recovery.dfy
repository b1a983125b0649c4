/** Restarting from the database, and rolling the chain back. */
module Recovery {
  import opened Ledger
  import opened Lineage
  import opened ForkChoice
  import opened MedianTime
  import opened ChainModel
  import opened ChainInvariant
  import opened ChainImage
  import opened Receipt
  import opened Node

  datatype Outcome = Fresh | Loaded | DatabaseError

  /** The database holds the tree `m` with active chain `p`. The recorded totals and checkpoint may be anything. */
  ghost predicate HoldsChain(r: Rules, db: Database, m: map<Hash, Block>, p: seq<Block>) {
    && StoreOk(r.genesis, m) && IsLineage(r.genesis, m, p)
    && db.blocks == m && db.heights == IndexMap(p, Heights(0, |p|))
    && db.state.Some? && db.state.value.tipHash == p[|p| - 1].hash && db.state.value.height == |p| - 1
  }

  /** And the recorded supply and burn are those of the chain, the burn modulo 2^64. */
  ghost predicate Intact(r: Rules, db: Database, m: map<Hash, Block>, p: seq<Block>) {
    && HoldsChain(r, db, m, p)
    && db.state.value.totalSupply == SumReward(r, |p|)
    && db.state.value.totalBurned == SumBurn(r, p) % (U64_MAX + 1)
  }

  /** The lowest height a restart brings back into memory. */
  function CacheStart(tipHeight: nat): nat {
    if tipHeight <= CACHE_DEPTH then 0 else tipHeight - CACHE_DEPTH
  }

  ghost function HashesFrom(p: seq<Block>, lo: nat): (hs: set<Hash>)
    ensures forall x :: x in hs <==> exists h :: lo <= h < |p| && p[h].hash == x
  {
    set h | lo <= h < |p| :: p[h].hash
  }

  /** The chain a restart represents: same tree and tip, the last 200 heights in memory, genesis credited one unit. */
  ghost function Recovered(m: map<Hash, Block>, p: seq<Block>, lastCheckpoint: nat): State
    requires p != []
  {
    var lo := CacheStart(|p| - 1);
    State(m, p[|p| - 1].hash, HashesFrom(p, lo), Heights(lo, |p|), map[], 1, lastCheckpoint)
  }

  lemma {:induction false} RecoveredPath(r: Rules, m: map<Hash, Block>, p: seq<Block>, last: nat)
    requires StoreOk(r.genesis, m) && IsLineage(r.genesis, m, p)
    ensures Rooted(r, Recovered(m, p, last)) && Path(r, Recovered(m, p, last)) == p
  {
    LineageUnique(r.genesis, m, p);
  }

  lemma {:induction false} RecoveredCacheOk(g: Block, m: map<Hash, Block>, p: seq<Block>)
    requires IsLineage(g, m, p)
    ensures var lo := CacheStart(|p| - 1); CacheOk(p, HashesFrom(p, lo), Heights(lo, |p|))
  {
    var lo := CacheStart(|p| - 1);
    LineageHashesDistinct(g, m, p);
    forall h | 0 <= h < |p| ensures CachedAt(p, HashesFrom(p, lo), Heights(lo, |p|), h) {
    }
  }

  /** Exactly the last 201 heights of the chain come back into memory, and no stray entry. */
  lemma {:induction false} RecoveredHolds(m: map<Hash, Block>, p: seq<Block>, last: nat, h: nat)
    requires p != [] && h < |p|
    ensures h in Recovered(m, p, last).indexed <==> h + 200 >= |p| - 1
    ensures h + 200 >= |p| - 1 ==> p[h].hash in Recovered(m, p, last).cached
    ensures Recovered(m, p, last).stale == map[]
  {
  }

  /** A restart on the active chain of `s`, or on any part of it that reaches up to the recorded checkpoint, keeps the
      invariant and has no stray entries. */
  lemma {:induction false} RecoveredWellFormed(r: Rules, s: State, n: nat)
    requires Sane(r, s) && s.lastCheckpoint < n <= Height(s) + 1
    ensures WellFormed(r, Recovered(s.store, Path(r, s)[..n], s.lastCheckpoint))
    ensures Path(r, Recovered(s.store, Path(r, s)[..n], s.lastCheckpoint)) == Path(r, s)[..n]
  {
    hide TreeTimeOk, CacheOk, Ancestry, SumWork, FreshPath, Replay, HashesFrom;
    var p := Path(r, s);
    PrefixIsLineage(r.genesis, s.store, p, n);
    RecoveredPath(r, s.store, p[..n], s.lastCheckpoint);
    RecoveredCacheOk(r.genesis, s.store, p[..n]);
    FreshPathPrefix(p, n);
    FloorMonotone(s.lastCheckpoint, n - 1);
    assert p[..|p|] == p;
    if n < |p| {
      WorkGrows(p, n);
    }
    CachedAreStored(r.genesis, s.store, p[..n]);
  }

  lemma {:induction false} CachedAreStored(g: Block, m: map<Hash, Block>, p: seq<Block>)
    requires IsLineage(g, m, p)
    ensures HashesFrom(p, CacheStart(|p| - 1)) <= m.Keys
  {
  }

  // ---------------------------------------------------------------- loading

  function BlockAt(db: Database, height: nat): Option<Block> {
    if height in db.heights && db.heights[height] in db.blocks then Some(db.blocks[db.heights[height]]) else None
  }

  lemma {:induction false} HeldAtHeight(r: Rules, db: Database, m: map<Hash, Block>, p: seq<Block>, h: nat)
    requires HoldsChain(r, db, m, p) && h < |p|
    ensures BlockAt(db, h) == Some(p[h]) && p[h].height == h && (h > 0 ==> p[h].prev == p[h - 1].hash)
  {
    hide IndexMap;
    IndexMapIs(p, Heights(0, |p|));
    assert h > 0 ==> LinkAt(p, h);
  }

  /** The work total from scratch: one unit for genesis plus the work of every block above it. */
  method RecomputeTotalDifficulty(db: Database, height: nat, r: Rules, ghost m: map<Hash, Block>, ghost p: seq<Block>)
    returns (total: Option<nat>)
    ensures HoldsChain(r, db, m, p) && height == |p| - 1 ==> total == Some(Cap(1 + SumWork(p)))
  {
    hide IndexMap, SumReward, SumBurn, SumTxs, Replay, Work, IsLineage, StoreOk;
    ghost var known := HoldsChain(r, db, m, p) && height == |p| - 1;
    var sum := 1;
    if known {
      assert p[..1] == [p[0]] && p[..|p|] == p;
    }
    for h := 1 to height + 1
      invariant known ==> sum == Cap(1 + SumWork(p[..h]))
    {
      if known {
        HeldAtHeight(r, db, m, p, h);
        TakeNext(p, h);
        SumsAppend(r, p[..h], p[h]);
      }
      var found := BlockAt(db, h);
      if found.None? {
        return None;
      }
      sum := SatAdd(sum, Work(found.value), U128_MAX);
    }
    total := Some(sum);
  }

  // ---------------------------------------------------------------- what a load rebuilds from any database

  /** Hash of the highest block stored below height `n`, zero if there is none. */
  function LastHash(db: Database, n: nat): Hash {
    if n == 0 then 0
    else
      match BlockAt(db, n - 1)
      case Some(b) => b.hash
      case None => LastHash(db, n - 1)
  }

  /** The block stored at height `h` does not name the highest one stored below as its parent. */
  predicate BreaksAt(db: Database, h: nat) {
    h > 0 && BlockAt(db, h).Some? && BlockAt(db, h).value.prev != LastHash(db, h)
  }

  /** The first such height from `h` up to `top`, or `top + 1`. */
  function FirstBreak(db: Database, h: nat, top: nat): (k: nat)
    requires h <= top + 1
    ensures h <= k <= top + 1 && (k <= top ==> BreaksAt(db, k))
    ensures forall i {:trigger BreaksAt(db, i)} :: h <= i < k ==> !BreaksAt(db, i)
    decreases top + 1 - h
  {
    if h == top + 1 || BreaksAt(db, h) then h else FirstBreak(db, h + 1, top)
  }

  /** What is in memory after a replay: the UTXO set, the height index, the cached blocks and the two counters. */
  datatype Memory = Memory(utxos: Utxo, index: map<nat, Hash>, blocks: map<Hash, Block>, count: nat, txs: nat)

  /** Replaying the blocks stored below height `n`, passing over heights without one; from `lo` up they are kept. */
  function Rebuild(db: Database, n: nat, lo: nat): Memory {
    if n == 0 then Memory(EMPTY_UTXO, map[], map[], 0, 0)
    else
      var w, h := Rebuild(db, n - 1, lo), n - 1;
      match BlockAt(db, h)
      case None => w
      case Some(b) =>
        Memory(Connect(w.utxos, h, b.txs), if h >= lo then w.index[h := b.hash] else w.index,
               if h >= lo then w.blocks[b.hash := b] else w.blocks, w.count + 1, w.txs + |b.txs|)
  }

  /** What a replay of the chain `p` up to height `h` holds, kept in memory from height `lo` up. */
  ghost function MemoryOf(m: map<Hash, Block>, p: seq<Block>, h: nat, lo: nat): Memory
    requires h <= |p|
  {
    Memory(Replay(p[..h]), IndexMap(p[..h], Heights(lo, |p|)), Cached(m, HashesFrom(p[..h], lo)), h, SumTxs(p[..h]))
  }

  ghost predicate Replayed(chain: Blockchain, w: Memory)
    reads chain`utxos, chain`heightToHash, chain`blocks
  {
    chain.utxos == w.utxos && chain.heightToHash == w.index && chain.blocks == w.blocks
  }

  lemma {:induction false} CacheNext(m: map<Hash, Block>, p: seq<Block>, h: nat, lo: nat)
    requires h < |p| && p[h].hash in m && m[p[h].hash] == p[h]
    ensures h >= lo ==> Cached(m, HashesFrom(p[..h + 1], lo)) == Cached(m, HashesFrom(p[..h], lo))[p[h].hash := p[h]]
    ensures h < lo ==> Cached(m, HashesFrom(p[..h + 1], lo)) == Cached(m, HashesFrom(p[..h], lo))
  {
    assert h >= lo ==> HashesFrom(p[..h + 1], lo) == HashesFrom(p[..h], lo) + {p[h].hash};
    assert h < lo ==> HashesFrom(p[..h + 1], lo) == HashesFrom(p[..h], lo);
  }

  lemma {:induction false} IndexNext(p: seq<Block>, h: nat, lo: nat)
    requires h < |p|
    ensures IndexMap(p[..h + 1], Heights(lo, |p|)) ==
            if h >= lo then IndexMap(p[..h], Heights(lo, |p|))[h := p[h].hash] else IndexMap(p[..h], Heights(lo, |p|))
  {
    hide IndexMap;
    IndexMapIs(p[..h + 1], Heights(lo, |p|));
    IndexMapIs(p[..h], Heights(lo, |p|));
  }

  /** The database holds the chain `p` at heights 0 to |p| - 1. */
  ghost predicate StoredUpTo(r: Rules, db: Database, m: map<Hash, Block>, p: seq<Block>) {
    && p != [] && IsLineage(r.genesis, m, p)
    && forall h: nat {:trigger BlockAt(db, h)} :: h < |p| ==> BlockAt(db, h) == Some(p[h])
  }

  lemma {:induction false} HeldIsStored(r: Rules, db: Database, m: map<Hash, Block>, p: seq<Block>)
    requires HoldsChain(r, db, m, p)
    ensures StoredUpTo(r, db, m, p)
  {
    forall h: nat | h < |p| ensures BlockAt(db, h) == Some(p[h]) {
      HeldAtHeight(r, db, m, p, h);
    }
  }

  lemma {:induction false} LinkedAt(r: Rules, db: Database, m: map<Hash, Block>, p: seq<Block>, h: nat)
    requires StoredUpTo(r, db, m, p) && h < |p|
    ensures BlockAt(db, h) == Some(p[h]) && p[h].height == h && p[h].hash in m && m[p[h].hash] == p[h]
    ensures h > 0 ==> p[h].prev == p[h - 1].hash
  {
    assert h > 0 ==> LinkAt(p, h);
  }

  /** As far as a stored chain goes, the replay is the replay of the chain and no link breaks. */
  lemma {:induction false} RebuildsChain(r: Rules, db: Database, m: map<Hash, Block>, p: seq<Block>, n: nat, lo: nat)
    requires StoredUpTo(r, db, m, p) && n <= |p|
    ensures Rebuild(db, n, lo) == MemoryOf(m, p, n, lo)
    ensures n > 0 ==> LastHash(db, n) == p[n - 1].hash
    ensures n < |p| ==> !BreaksAt(db, n)
    decreases n
  {
    hide Replay, IndexMap, Cached, HashesFrom, Connect, SumTxs, IsLineage;
    if n < |p| {
      LinkedAt(r, db, m, p, n);
    }
    if n == 0 {
      NothingReplayed(m, p, lo);
    } else {
      var h := n - 1;
      RebuildsChain(r, db, m, p, h, lo);
      LinkedAt(r, db, m, p, h);
      TakeNext(p, h);
      SumsAppend(r, p[..h], p[h]);
      CacheNext(m, p, h, lo);
      IndexNext(p, h, lo);
    }
  }

  /** No block is stored at the heights lo..hi-1. */
  predicate Gap(db: Database, lo: nat, hi: nat) {
    forall h: nat {:trigger BlockAt(db, h)} :: lo <= h < hi ==> BlockAt(db, h).None?
  }

  /** Nothing is rebuilt over a gap, and no link breaks in it. */
  lemma {:induction false} GapIsPassedOver(db: Database, a: nat, n: nat, lo: nat)
    requires a <= n && Gap(db, a, n)
    ensures Rebuild(db, n, lo) == Rebuild(db, a, lo) && LastHash(db, n) == LastHash(db, a)
    ensures forall h {:trigger BreaksAt(db, h)} :: a <= h < n ==> !BreaksAt(db, h)
    decreases n
  {
    if a < n {
      GapIsPassedOver(db, a, n - 1, lo);
      assert BlockAt(db, n - 1).None?;
    }
  }

  /** A stored chain, then a gap, possibly none, then a block that does not name the chain's last block as its parent:
      the replay stops there, with exactly the chain replayed. */
  lemma {:induction false} StopsAtBreak(r: Rules, db: Database, m: map<Hash, Block>, p: seq<Block>, k: nat, top: nat,
                                        lo: nat)
    requires StoredUpTo(r, db, m, p) && |p| <= k <= top && Gap(db, |p|, k)
    requires BlockAt(db, k).Some? && BlockAt(db, k).value.prev != p[|p| - 1].hash
    ensures FirstBreak(db, 0, top) == k && LastHash(db, k) == p[|p| - 1].hash
    ensures Rebuild(db, k, lo) == MemoryOf(m, p, |p|, lo)
  {
    hide Rebuild, MemoryOf, LastHash, IsLineage;
    RebuildsChain(r, db, m, p, |p|, lo);
    GapIsPassedOver(db, |p|, k, lo);
    assert BreaksAt(db, k);
    forall i: nat | i < k ensures !BreaksAt(db, i) {
      if i < |p| {
        RebuildsChain(r, db, m, p, i, lo);
      }
    }
  }

  /** A stored chain up to the recorded height is replayed whole. */
  lemma {:induction false} NeverBreaks(r: Rules, db: Database, m: map<Hash, Block>, p: seq<Block>, lo: nat)
    requires StoredUpTo(r, db, m, p)
    ensures FirstBreak(db, 0, |p| - 1) == |p| && Rebuild(db, |p|, lo) == MemoryOf(m, p, |p|, lo)
  {
    hide Rebuild, MemoryOf, LastHash, IsLineage, BreaksAt;
    RebuildsChain(r, db, m, p, |p|, lo);
    forall i: nat | i < |p| ensures !BreaksAt(db, i) {
      RebuildsChain(r, db, m, p, i, lo);
    }
  }

  lemma {:induction false} NothingReplayed(m: map<Hash, Block>, p: seq<Block>, lo: nat)
    ensures p[..0] == [] && Replay(p[..0]) == EMPTY_UTXO && IndexMap(p[..0], Heights(lo, |p|)) == map[]
    ensures Cached(m, HashesFrom(p[..0], lo)) == map[] && SumTxs(p[..0]) == 0
  {
    assert HashesFrom(p[..0], lo) == {};
  }

  /** Replay one stored block. */
  method ReplayBlock(chain: Blockchain, height: nat, block: Block, cacheStart: nat)
    modifies chain`utxos, chain`heightToHash, chain`blocks
    ensures chain.utxos == Connect(old(chain.utxos), height, block.txs)
    ensures chain.heightToHash ==
            if height >= cacheStart then old(chain.heightToHash)[height := block.hash] else old(chain.heightToHash)
    ensures chain.blocks ==
            if height >= cacheStart then old(chain.blocks)[block.hash := block] else old(chain.blocks)
  {
    chain.utxos := Connect(chain.utxos, height, block.txs);
    if height >= cacheStart {
      chain.heightToHash := chain.heightToHash[height := block.hash];
      chain.blocks := chain.blocks[block.hash := block];
    }
  }

  /** Cut a chain whose stored links break at `height` back to the block below. */
  method Truncate(chain: Blockchain, height: nat, tipHeight: nat, goodHash: Hash)
    requires 0 < height <= tipHeight && chain.db.state.Some?
    modifies chain`tip, chain`stats, chain`db
    ensures chain.tip == old(chain.tip).(height := height - 1, hash := goodHash)
    ensures chain.stats == old(chain.stats).(height := height - 1, tipHash := goodHash)
    ensures chain.db.blocks == old(chain.db).blocks
    ensures chain.db.heights == old(chain.db).heights - Heights(height, tipHeight + 1)
    ensures chain.db.state == Some(old(chain.db).state.value.(
              tipHash := goodHash, height := height - 1, totalDifficulty := chain.stats.totalDifficulty,
              totalSupply := chain.stats.totalSupply, totalBurned := chain.stats.totalBurned % (U64_MAX + 1)))
  {
    chain.stats := chain.stats.(height := height - 1, tipHash := goodHash);
    chain.tip := chain.tip.(height := height - 1, hash := goodHash);
    var heights := chain.db.heights;
    for h := height to tipHeight + 1
      invariant heights == chain.db.heights - Heights(height, h)
      invariant chain.db == old(chain.db) && chain.tip == old(chain.tip).(height := height - 1, hash := goodHash)
      invariant chain.stats == old(chain.stats).(height := height - 1, tipHash := goodHash)
    {
      HeightsGrow(height, h);
      heights := heights - {h};
    }
    var record := chain.db.state.value;
    chain.db := chain.db.(
      heights := heights,
      state := Some(record.(tipHash := goodHash, height := height - 1, totalDifficulty := chain.stats.totalDifficulty,
                            totalSupply := chain.stats.totalSupply,
                            totalBurned := chain.stats.totalBurned % (U64_MAX + 1))));
  }

  /** The database after a replay that stopped at height `k`: the entries from there up to `top` are gone, and the
      record names the last good hash at the height below, with the totals as they were. */
  ghost predicate CutAt(was: Database, now: Database, k: nat, top: nat, stats: ChainStats)
    requires k > 0 && was.state.Some?
  {
    now == Database(was.blocks, was.heights - Heights(k, top + 1),
                    Some(was.state.value.(tipHash := LastHash(was, k), height := k - 1,
                                          totalDifficulty := stats.totalDifficulty, totalSupply := stats.totalSupply,
                                          totalBurned := stats.totalBurned % (U64_MAX + 1))))
  }

  /** Replay whatever is stored from genesis up to the recorded height, keeping the last 200 heights in memory and
      passing over heights without a block. At the first block that does not link to the one before, cut the node and
      the database back. */
  method RebuildUtxoSet(chain: Blockchain, tipHeight: nat)
    requires chain.db.state.Some? && chain.blocks == map[] && chain.heightToHash == map[]
    modifies chain`utxos, chain`heightToHash, chain`blocks, chain`tip, chain`stats, chain`db
    ensures var was := old(chain.db);
            var k := FirstBreak(was, 0, tipHeight);
            var w := Rebuild(was, k, CacheStart(tipHeight));
            && Replayed(chain, w)
            && if k > tipHeight then
                 && chain.db == was && chain.tip == old(chain.tip)
                 && chain.stats == old(chain.stats).(totalBlocks := w.count, totalTransactions := w.txs)
               else
                 && k > 0 && CutAt(was, chain.db, k, tipHeight, chain.stats)
                 && chain.tip == old(chain.tip).(height := k - 1, hash := LastHash(was, k))
                 && chain.stats == old(chain.stats).(height := k - 1, tipHash := LastHash(was, k),
                                                     totalBlocks := w.count, totalTransactions := w.txs)
  {
    hide Connect;
    ghost var db := chain.db;
    chain.utxos := EMPTY_UTXO;
    var cacheStart := CacheStart(tipHeight);
    var prev: Hash := 0;
    var blocksApplied: nat, txsApplied: nat, height: nat := 0, 0, 0;
    while height <= tipHeight
      invariant height <= tipHeight + 1 && FirstBreak(db, 0, tipHeight) == FirstBreak(db, height, tipHeight)
      invariant prev == LastHash(db, height)
      invariant var w := Rebuild(db, height, cacheStart);
                Replayed(chain, w) && blocksApplied == w.count && txsApplied == w.txs
      invariant chain.db == db && chain.tip == old(chain.tip) && chain.stats == old(chain.stats)
      decreases tipHeight + 1 - height
    {
      var found := BlockAt(chain.db, height);
      if found.Some? {
        if height > 0 && found.value.prev != prev {
          Truncate(chain, height, tipHeight, prev);
          break;
        }
        prev := found.value.hash;
        ReplayBlock(chain, height, found.value, cacheStart);
        blocksApplied := blocksApplied + 1;
        txsApplied := txsApplied + |found.value.txs|;
      }
      height := height + 1;
    }
    chain.stats := chain.stats.(totalBlocks := blocksApplied, totalTransactions := txsApplied);
  }

  /** Start a node from its database. A database that holds a chain restores it: the work total is recomputed whatever
      was recorded, the supply and burn totals are the recorded ones. Any other loads as far as its links go, and is cut
      there. */
  method LoadFromDatabase(chain: Blockchain, ghost m: map<Hash, Block>, ghost p: seq<Block>) returns (outcome: Outcome)
    requires chain.blocks == map[] && chain.heightToHash == map[]
    modifies chain
    ensures outcome == LoadOutcome(chain.rules, old(chain.db))
    ensures !outcome.Loaded? ==> unchanged(chain)
    ensures outcome.Loaded? ==>
              var was := old(chain.db);
              var top := was.state.value.height;
              var k := FirstBreak(was, 0, top);
              && Replayed(chain, Rebuild(was, k, CacheStart(top)))
              && if k > top then
                   && chain.db == was && chain.tip.height == top && chain.tip.hash == was.state.value.tipHash
                 else
                   && k > 0 && CutAt(was, chain.db, k, top, chain.stats)
                   && chain.tip.height == k - 1 && chain.tip.hash == LastHash(was, k)
    ensures HoldsChain(chain.rules, old(chain.db), m, p) && 1 + SumWork(p) <= U128_MAX ==>
              && outcome == Loaded && chain.db == old(chain.db)
              && Replayed(chain, MemoryOf(m, p, |p|, CacheStart(|p| - 1)))
              && chain.tip == TipOf(p[|p| - 1])
              && chain.stats == StatsOf(chain.rules, p, 1).(totalSupply := old(chain.db).state.value.totalSupply,
                                                            totalBurned := old(chain.db).state.value.totalBurned)
  {
    hide Replay, IndexMap, Cached, HashesFrom, SumTxs, SumWork, SumBurn, SumReward, IsLineage, StoreOk, Rebuild,
         FirstBreak, LastHash;
    ghost var known := HoldsChain(chain.rules, chain.db, m, p) && 1 + SumWork(p) <= U128_MAX;
    if known {
      HeldAtHeight(chain.rules, chain.db, m, p, 0);
      HeldAtHeight(chain.rules, chain.db, m, p, |p| - 1);
      GenesisFirst(chain.rules, chain.db, m, p);
      HeldIsStored(chain.rules, chain.db, m, p);
      NeverBreaks(chain.rules, chain.db, m, p, CacheStart(|p| - 1));
      assert p[..|p|] == p;
    }
    if chain.db.state.None? {
      return if chain.db.blocks == map[] && chain.db.heights == map[] then Fresh else DatabaseError;
    }
    var state := chain.db.state.value;
    if 0 !in chain.db.heights || chain.db.heights[0] != chain.rules.genesis.hash {
      return DatabaseError;
    }
    if state.tipHash !in chain.db.blocks || chain.db.blocks[state.tipHash].height != state.height {
      return DatabaseError;
    }
    var tipBlock := chain.db.blocks[state.tipHash];
    chain.tip := ChainTip(state.tipHash, state.height, tipBlock.timestamp);
    chain.stats := chain.stats.(height := state.height, totalSupply := state.totalSupply,
                                totalBurned := state.totalBurned, tipHash := state.tipHash,
                                totalDifficulty := state.totalDifficulty);
    var recomputed := RecomputeTotalDifficulty(chain.db, state.height, chain.rules, m, p);
    if recomputed.Some? {
      chain.stats := chain.stats.(totalDifficulty := recomputed.value);
    }
    RebuildUtxoSet(chain, state.height);
    outcome := Loaded;
  }

  /** How loading ends: a fresh start needs an empty database, and a chain-state record needs this network's genesis
      entry and the tip block it names, at the recorded height. */
  function LoadOutcome(r: Rules, db: Database): Outcome {
    if db.state.None? then (if db.blocks == map[] && db.heights == map[] then Fresh else DatabaseError)
    else
      var t := db.state.value;
      if 0 in db.heights && db.heights[0] == r.genesis.hash && t.tipHash in db.blocks &&
         db.blocks[t.tipHash].height == t.height
      then Loaded else DatabaseError
  }

  /** Every database that holds a chain of this network loads, one that holds a chain of another is refused, and so is
      one whose record is missing beside stored blocks or names a tip that is not stored or not at that height. */
  lemma {:induction false} LoadsOwnChains(r: Rules, db: Database, other: Rules, m: map<Hash, Block>, p: seq<Block>)
    requires other.genesis == r.genesis || other.genesis.hash != r.genesis.hash
    ensures HoldsChain(other, db, m, p) ==>
              LoadOutcome(r, db) == if other.genesis == r.genesis then Loaded else DatabaseError
    ensures db.state.None? && db.blocks != map[] ==> LoadOutcome(r, db) == DatabaseError
    ensures LoadOutcome(r, db) == Loaded ==>
              && db.state.Some?
              && var t := db.state.value; t.tipHash in db.blocks && db.blocks[t.tipHash].height == t.height
    ensures LoadOutcome(r, db) == Fresh <==> db == Database(map[], map[], None)
  {
    if HoldsChain(other, db, m, p) {
      GenesisFirst(other, db, m, p);
    }
  }

  lemma {:induction false} GenesisFirst(r: Rules, db: Database, m: map<Hash, Block>, p: seq<Block>)
    requires HoldsChain(r, db, m, p)
    ensures 0 in db.heights && db.heights[0] == r.genesis.hash
    ensures p[|p| - 1].hash in db.blocks && db.blocks[p[|p| - 1].hash] == p[|p| - 1] && p[|p| - 1].height == |p| - 1
  {
    hide IndexMap;
    IndexMapIs(p, Heights(0, |p|));
  }

  lemma {:induction false} LiveIsIntact(r: Rules, s: State, total: nat)
    requires Sane(r, s)
    ensures Intact(r, DatabaseOf(r, s, total), s.store, Path(r, s)) && 1 + SumWork(Path(r, s)) <= U128_MAX
  {
  }

  /** The recorded supply and burn are those of the chain, and the burn total fits its 64 bits. */
  ghost predicate TotalsRecorded(r: Rules, db: Database, p: seq<Block>)
    requires db.state.Some?
  {
    db.state.value.totalSupply == SumReward(r, |p|) && db.state.value.totalBurned == SumBurn(r, p) <= U64_MAX
  }

  /** What a load of a stored chain holds is the recovered chain exactly when supply and burn were recorded right. */
  lemma {:induction false} ReplayedCoherent(chain: Blockchain, m: map<Hash, Block>, p: seq<Block>, last: nat)
    requires HoldsChain(chain.rules, chain.db, m, p) && chain.db.state.value.lastCheckpoint == last
    requires chain.s == Recovered(m, p, last) && chain.tip == TipOf(p[|p| - 1])
    requires Replayed(chain, MemoryOf(m, p, |p|, CacheStart(|p| - 1)))
    requires chain.stats == StatsOf(chain.rules, p, 1).(totalSupply := chain.db.state.value.totalSupply,
                                                        totalBurned := chain.db.state.value.totalBurned)
    ensures chain.Coherent() <==> TotalsRecorded(chain.rules, chain.db, p)
  {
    hide Replay, IndexMap, Cached, HashesFrom, SumTxs, SumWork, SumBurn, SumReward;
    RecoveredPath(chain.rules, m, p, last);
    assert p[..|p|] == p;
    assert chain.heightToHash + map[] == chain.heightToHash;
  }

  /** A node started from a database that holds the chain `p`. It represents the chain exactly when the recorded supply
      and burn are right and the burn fits 64 bits, whatever work total was recorded. */
  method Reload(r: Rules, db: Database, ghost m: map<Hash, Block>, ghost p: seq<Block>) returns (chain: Blockchain)
    requires HoldsChain(r, db, m, p) && 1 + SumWork(p) <= U128_MAX
    ensures fresh(chain) && chain.rules == r && chain.db == db
    ensures chain.tip == TipOf(p[|p| - 1]) && chain.utxos == Replay(p)
    ensures chain.stats == StatsOf(r, p, 1).(totalSupply := db.state.value.totalSupply,
                                             totalBurned := db.state.value.totalBurned)
    ensures chain.s == Recovered(m, p, db.state.value.lastCheckpoint)
    ensures chain.Coherent() <==> TotalsRecorded(r, db, p)
  {
    hide Replay, IndexMap, Cached, HashesFrom, SumTxs, SumWork, SumBurn, SumReward, IsLineage, StoreOk, Rebuild,
         FirstBreak, LastHash, TotalsRecorded;
    chain := new Blockchain.Open(r, db);
    assert p[..|p|] == p;
    var outcome := LoadFromDatabase(chain, m, p);
    chain.s := Recovered(m, p, db.state.value.lastCheckpoint);
    ReplayedCoherent(chain, m, p, db.state.value.lastCheckpoint);
  }

  /** A restart comes back on the live node's chain: same tip, UTXO set and database. Its totals are the live ones
      exactly when the live node credits genesis one unit of work and its burn total fits 64 bits; it represents the
      chain, now with genesis credited, exactly when the burn total fits. */
  method Restart(live: Blockchain) returns (chain: Blockchain)
    requires live.Coherent() && Sane(live.rules, live.s)
    ensures fresh(chain) && chain.rules == live.rules
    ensures chain.tip == live.tip && chain.utxos == live.utxos && chain.db == live.db
    ensures chain.stats == live.stats.(totalDifficulty := live.stats.totalDifficulty - live.s.base + 1,
                                       totalBurned := live.stats.totalBurned % (U64_MAX + 1))
    ensures chain.stats == live.stats <==> live.s.base == 1 && live.stats.totalBurned <= U64_MAX
    ensures chain.s == Recovered(live.s.store, Path(live.rules, live.s), live.s.lastCheckpoint)
    ensures chain.Coherent() <==> live.stats.totalBurned <= U64_MAX
    ensures WellFormed(chain.rules, chain.s) && Path(chain.rules, chain.s) == Path(live.rules, live.s)
  {
    hide Replay, IndexMap, Cached, HashesFrom, SumTxs, SumWork, SumBurn, SumReward, FreshPath, TreeTimeOk, CacheOk,
         HoldsChain, HeightIndex;
    ghost var p := Path(live.rules, live.s);
    LiveIsIntact(live.rules, live.s, live.db.state.value.totalDifficulty);
    chain := Reload(live.rules, live.db, live.s.store, p);
    assert p[..|p|] == p;
    RecoveredWellFormed(live.rules, live.s, |p|);
  }

  // ---------------------------------------------------------------- rolling back

  /** What disconnecting leaves of the UTXO set and the emission totals. */
  datatype Books = Books(utxos: Utxo, supply: nat, burned: nat)

  /** The books after disconnecting, highest first, the blocks of `p` above `h` whose heights are in `keep`; blocks not
      in memory are passed over. */
  ghost function Unwind(r: Rules, p: seq<Block>, keep: set<nat>, h: nat): (b: Books)
    requires h < |p|
    ensures b.supply >= SumReward(r, h + 1) && b.burned >= SumBurn(r, p[..h + 1])
    decreases |p| - h
  {
    if h + 1 == |p| then
      assert p[..h + 1] == p;
      Books(Replay(p), SumReward(r, |p|), SumBurn(r, p))
    else
      var b := Unwind(r, p, keep, h + 1);
      assert p[..h + 2][..h + 1] == p[..h + 1];
      if h + 1 in keep
      then Books(Disconnect(b.utxos, p[h + 1].txs), b.supply - r.reward(h + 1), b.burned - BlockFeeBurn(r, p[h + 1]))
      else b
  }

  /** With every disconnected block in memory, the books are those of the shortened chain. */
  lemma {:induction false} UnwindAll(r: Rules, p: seq<Block>, keep: set<nat>, h: nat)
    requires h < |p| && FreshPath(p) && forall k :: h < k < |p| ==> k in keep
    ensures Unwind(r, p, keep, h) == Books(Replay(p[..h + 1]), SumReward(r, h + 1), SumBurn(r, p[..h + 1]))
    decreases |p| - h
  {
    if h + 1 == |p| {
      assert p[..h + 1] == p;
    } else {
      UnwindAll(r, p, keep, h + 1);
      SumsDrop(r, p, h + 1);
    }
  }

  /** The transactions handed back to the mempool. */
  ghost function Returned(p: seq<Block>, keep: set<nat>, h: nat): seq<Tx>
    requires h < |p|
    decreases |p| - h
  {
    if h + 1 == |p| then []
    else Returned(p, keep, h + 1) + (if h + 1 in keep then NonCoinbase(p[h + 1].txs) else [])
  }

  /** A rollback hands back the transactions of the disconnected blocks that were in memory, coinbases aside. */
  lemma {:induction false} RollbackReturns(p: seq<Block>, keep: set<nat>, h: nat, t: Tx)
    requires h < |p|
    ensures t in Returned(p, keep, h) <==> !t.coinbase && exists k :: h < k < |p| && k in keep && t in p[k].txs
    decreases |p| - h
  {
    hide NonCoinbase;
    if h + 1 < |p| {
      RollbackReturns(p, keep, h + 1, t);
      NonCoinbaseHolds(p[h + 1].txs, t);
    }
  }

  /** Everything a rollback may have to disconnect is in memory if the target is at most 58 below the finality floor. */
  lemma {:induction false} RollbackReach(r: Rules, s: State, target: nat)
    requires Sane(r, s) && target + CACHE_SLACK + 1 >= Floor(Height(s))
    ensures forall k :: target < k <= Height(s) ==> k in s.indexed
  {
    forall k | target < k <= Height(s) ensures k in s.indexed {
      assert MustIndex(Path(r, s), k);
    }
  }

  /** The books the node currently holds. */
  ghost function BooksOf(chain: Blockchain): Books
    reads chain`utxos, chain`stats
  {
    Books(chain.utxos, chain.stats.totalSupply, chain.stats.totalBurned)
  }

  /** The active blocks in memory are exactly those of `p` at the heights `keep`. */
  ghost predicate HeldAt(chain: Blockchain, p: seq<Block>, keep: set<nat>, h: int)
    requires 0 <= h < |p|
    reads chain`blocks, chain`heightToHash
  {
    if h in keep then
      h in chain.heightToHash && chain.heightToHash[h] == p[h].hash && p[h].hash in chain.blocks &&
      chain.blocks[p[h].hash] == p[h] && p[h].height == h
    else h !in chain.heightToHash
  }

  lemma {:induction false} IndexHeld(chain: Blockchain, p: seq<Block>, keep: set<nat>, stale: map<nat, Hash>, h: nat)
    requires h < |p| && AboveAll(stale, |p|) && chain.Resident(p, keep)
    requires chain.heightToHash == HeightIndex(p[..h + 1], keep, stale)
    ensures HeldAt(chain, p, keep, h)
    ensures HeightIndex(p[..h + 1], keep, stale) - {h} == HeightIndex(p[..h], keep, stale)
  {
    hide IndexMap;
    IndexMapIs(p[..h + 1], keep);
    assert h in keep ==> chain.ResidentAt(p, h);
    IndexMapDropLast(p[..h + 1], keep);
    PrefixOfTake(p, h);
  }

  /** Disconnect the active blocks above `target`, highest first, passing over those not in memory. */
  method DisconnectAbove(chain: Blockchain, target: nat, ghost p: seq<Block>, ghost keep: set<nat>,
                         ghost stale: map<nat, Hash>)
    returns (orphaned: seq<Tx>)
    requires target < |p| && chain.tip.height == |p| - 1 && chain.Resident(p, keep)
    requires AboveAll(stale, |p|) && chain.heightToHash == HeightIndex(p, keep, stale)
    requires BooksOf(chain) == Books(Replay(p), SumReward(chain.rules, |p|), SumBurn(chain.rules, p))
    modifies chain`heightToHash, chain`utxos, chain`stats
    ensures chain.heightToHash == HeightIndex(p[..target + 1], keep, stale)
    ensures BooksOf(chain) == Unwind(chain.rules, p, keep, target)
    ensures chain.stats == old(chain.stats).(totalSupply := chain.stats.totalSupply,
                                             totalBurned := chain.stats.totalBurned)
    ensures orphaned == Returned(p, keep, target)
  {
    hide Replay, HeightIndex, AboveAll, SumReward, SumBurn, Disconnect, NonCoinbase;
    orphaned := [];
    var h := chain.tip.height;
    assert p[..h + 1] == p;
    while h > target
      invariant target <= h < |p| && chain.heightToHash == HeightIndex(p[..h + 1], keep, stale)
      invariant BooksOf(chain) == Unwind(chain.rules, p, keep, h)
      invariant chain.stats == old(chain.stats).(totalSupply := chain.stats.totalSupply,
                                                 totalBurned := chain.stats.totalBurned)
      invariant orphaned == Returned(p, keep, h)
    {
      IndexHeld(chain, p, keep, stale, h);
      UnwindStep(chain.rules, p, keep, h - 1);
      if h in chain.heightToHash && chain.heightToHash[h] in chain.blocks {
        var block := chain.blocks[chain.heightToHash[h]];
        chain.utxos := Disconnect(chain.utxos, block.txs);
        orphaned := orphaned + NonCoinbase(block.txs);
        chain.stats := chain.stats.(totalSupply := chain.stats.totalSupply - chain.rules.reward(h),
                                    totalBurned := chain.stats.totalBurned - BlockFeeBurn(chain.rules, block));
      }
      chain.heightToHash := chain.heightToHash - {h};
      h := h - 1;
    }
  }

  /** A held block's emission and burn are still in the books when it is disconnected. */
  lemma {:induction false} UnwindStep(r: Rules, p: seq<Block>, keep: set<nat>, h: nat)
    requires h + 1 < |p|
    ensures Unwind(r, p, keep, h + 1).supply >= r.reward(h + 1)
    ensures Unwind(r, p, keep, h + 1).burned >= BlockFeeBurn(r, p[h + 1])
  {
    assert p[..h + 2][..h + 1] == p[..h + 1];
  }

  /** Drop the persistent height entries above `target`. */
  method RemoveHeightsAbove(heights: map<nat, Hash>, target: nat, top: nat, ghost p: seq<Block>)
    returns (rest: map<nat, Hash>)
    requires target <= top == |p| - 1 && heights == IndexMap(p, Heights(0, |p|))
    ensures rest == IndexMap(p[..target + 1], Heights(0, target + 1))
  {
    hide IndexMap;
    IndexMapIs(p, Heights(0, |p|));
    IndexMapIs(p[..target + 1], Heights(0, target + 1));
    rest := DropHeights(heights, target + 1, top + 1);
  }

  /** Roll the active chain back to `target`; below the recorded checkpoint that is an error, at or above the tip
      nothing happens. The index, tip, UTXO set and emission totals move; the work total and the block and transaction
      counters stay as they were. */
  method RollbackToHeight(chain: Blockchain, target: nat) returns (orphaned: Option<seq<Tx>>)
    requires chain.Coherent() && Sane(chain.rules, chain.s)
    modifies chain`heightToHash, chain`utxos, chain`stats, chain`tip, chain`db
    ensures orphaned == None <==> target < Height(chain.s) && target < chain.s.lastCheckpoint
    ensures target >= Height(chain.s) ==> orphaned == Some([])
    ensures var rolls := chain.s.lastCheckpoint <= target < Height(chain.s);
            && (!rolls ==> unchanged(chain))
            && (rolls ==>
                 var p, keep := Path(chain.rules, chain.s), chain.s.indexed;
                 && orphaned == Some(Returned(p, keep, target))
                 && chain.heightToHash == HeightIndex(p[..target + 1], keep, chain.s.stale)
                 && chain.tip == TipOf(p[target])
                 && BooksOf(chain) == Unwind(chain.rules, p, keep, target)
                 && chain.stats == old(chain.stats).(height := target, tipHash := p[target].hash,
                                                     totalSupply := chain.stats.totalSupply,
                                                     totalBurned := chain.stats.totalBurned)
                 && chain.db == Database(chain.s.store, IndexMap(p[..target + 1], Heights(0, target + 1)),
                                         Some(ChainStateData(p[target].hash, target, chain.stats.totalDifficulty,
                                                             chain.stats.totalSupply,
                                                             chain.stats.totalBurned % (U64_MAX + 1),
                                                             chain.s.lastCheckpoint))))
  {
    hide Replay, IndexMap, HeightIndex, AboveAll, Cached, SumReward, SumBurn, SumWork, SumTxs, Returned, Unwind,
         FreshPath, TreeTimeOk;
    ghost var p, keep := Path(chain.rules, chain.s), chain.s.indexed;
    chain.CoherentTip();
    if target >= chain.tip.height {
      return Some([]);
    }
    if target < chain.db.state.value.lastCheckpoint {
      return None;
    }
    chain.CoherentResident(p);
    chain.CoherentSeesBlocks();
    ghost var stale := chain.s.stale;
    assert p[..|p|] == p;
    TargetFound(p, keep, stale, |p|, target);
    TargetFound(p, keep, stale, target + 1, target);
    assert chain.GetBlockHash(target) == Some(p[target].hash) && chain.GetBlock(p[target].hash) == Some(p[target]);
    var top := chain.tip.height;
    var txs := DisconnectAbove(chain, target, p, keep, stale);
    var hash := if target in chain.heightToHash then chain.heightToHash[target] else chain.db.heights[target];
    var block := if hash in chain.blocks then chain.blocks[hash] else chain.db.blocks[hash];
    chain.tip := ChainTip(hash, target, block.timestamp);
    chain.stats := chain.stats.(height := target, tipHash := hash);
    var heights := RemoveHeightsAbove(chain.db.heights, target, top, p);
    chain.db := chain.db.(
      heights := heights,
      state := Some(ChainStateData(hash, target, chain.stats.totalDifficulty, chain.stats.totalSupply,
                                   chain.stats.totalBurned % (U64_MAX + 1), chain.db.state.value.lastCheckpoint)));
    return Some(txs);
  }

  /** The target's entry is found the same way however many blocks above it are still connected. */
  lemma {:induction false} TargetFound(p: seq<Block>, keep: set<nat>, stale: map<nat, Hash>, n: nat, target: nat)
    requires target < n <= |p| && AboveAll(stale, |p|)
    ensures target in HeightIndex(p[..n], keep, stale) <==> target in keep
    ensures target in keep ==> HeightIndex(p[..n], keep, stale)[target] == p[target].hash
    ensures target in IndexMap(p, Heights(0, |p|)) && IndexMap(p, Heights(0, |p|))[target] == p[target].hash
  {
    hide IndexMap;
    IndexMapIs(p[..n], keep);
    IndexMapIs(p, Heights(0, |p|));
  }

  /** What a rollback leaves behind. The recorded work total is too high by the work of the disconnected blocks, so the
      rolled-back node does not represent the shortened chain; but if every disconnected block was in memory, its
      database is intact for that chain, and so a restart comes back exactly on it, work total included. */
  lemma {:induction false} RollbackNeedsRestart(r: Rules, s: State, target: nat, totalDifficulty: nat)
    requires Sane(r, s) && s.lastCheckpoint <= target < Height(s) && totalDifficulty == TotalWork(r, s)
    requires forall k :: target < k <= Height(s) ==> k in s.indexed
    ensures var p := Path(r, s);
            var left := Unwind(r, p, s.indexed, target);
            && totalDifficulty > s.base + SumWork(p[..target + 1])
            && left == Books(Replay(p[..target + 1]), SumReward(r, target + 1), SumBurn(r, p[..target + 1]))
            && Intact(r, Database(s.store, IndexMap(p[..target + 1], Heights(0, target + 1)),
                                  Some(ChainStateData(p[target].hash, target, totalDifficulty, left.supply,
                                                      left.burned % (U64_MAX + 1), s.lastCheckpoint))),
                      s.store, p[..target + 1])
  {
    var p := Path(r, s);
    WorkGrows(p, target + 1);
    UnwindAll(r, p, s.indexed, target);
    PrefixIsLineage(r.genesis, s.store, p, target + 1);
  }

  /** Rewards of the blocks of `p` above `h` that are not in memory. */
  ghost function SkippedReward(r: Rules, p: seq<Block>, keep: set<nat>, h: nat): nat
    requires h < |p|
    decreases |p| - h
  {
    if h + 1 == |p| then 0 else SkippedReward(r, p, keep, h + 1) + if h + 1 in keep then 0 else r.reward(h + 1)
  }

  /** What they burned. */
  ghost function SkippedBurn(r: Rules, p: seq<Block>, keep: set<nat>, h: nat): nat
    requires h < |p|
    decreases |p| - h
  {
    if h + 1 == |p| then 0 else SkippedBurn(r, p, keep, h + 1) + if h + 1 in keep then 0 else BlockFeeBurn(r, p[h + 1])
  }

  /** A rollback takes back what the blocks in memory paid and burned, and leaves the rest in the books. */
  lemma {:induction false} UnwindSkips(r: Rules, p: seq<Block>, keep: set<nat>, h: nat)
    requires h < |p|
    ensures Unwind(r, p, keep, h).supply == SumReward(r, h + 1) + SkippedReward(r, p, keep, h)
    ensures Unwind(r, p, keep, h).burned == SumBurn(r, p[..h + 1]) + SkippedBurn(r, p, keep, h)
    decreases |p| - h
  {
    if h + 1 == |p| {
      assert p[..h + 1] == p;
    } else {
      UnwindSkips(r, p, keep, h + 1);
      assert p[..h + 2][..h + 1] == p[..h + 1];
    }
  }

  lemma {:induction false} NothingSkipped(r: Rules, p: seq<Block>, keep: set<nat>, h: nat)
    requires h < |p| && forall k :: h < k < |p| ==> k in keep
    ensures SkippedReward(r, p, keep, h) == 0 && SkippedBurn(r, p, keep, h) == 0
    decreases |p| - h
  {
    if h + 1 < |p| {
      NothingSkipped(r, p, keep, h + 1);
    }
  }

  lemma {:induction false} WrapsToItself(x: nat, y: nat)
    ensures (x + y) % (U64_MAX + 1) == x <==> x <= U64_MAX && y % (U64_MAX + 1) == 0
  {
  }

  /** A rolled-back node's database holds the shortened chain, whatever was in memory. */
  lemma {:induction false} RolledBackHolds(r: Rules, s: State, target: nat, record: ChainStateData)
    requires Sane(r, s) && target < Height(s)
    requires record.tipHash == Path(r, s)[target].hash && record.height == target
    ensures var p := Path(r, s)[..target + 1];
            && HoldsChain(r, Database(s.store, IndexMap(p, Heights(0, target + 1)), Some(record)), s.store, p)
            && 1 + SumWork(p) <= U128_MAX
  {
    var p := Path(r, s);
    WorkGrows(p, target + 1);
    PrefixIsLineage(r.genesis, s.store, p, target + 1);
  }

  /** Rolling back and then restarting gives a node on the shortened chain, its UTXO set and work total included. It
      represents that chain exactly when the blocks above the target that were not in memory paid no reward, burned
      nothing modulo 2^64, and the burn total fits 64 bits; so if all of them were in memory, exactly when it fits. */
  method RollbackAndRestart(chain: Blockchain, target: nat) returns (loaded: Blockchain)
    requires chain.Coherent() && Sane(chain.rules, chain.s) && chain.s.lastCheckpoint <= target < Height(chain.s)
    modifies chain`heightToHash, chain`utxos, chain`stats, chain`tip, chain`db
    ensures fresh(loaded) && loaded.rules == chain.rules
    ensures var r, path, keep := chain.rules, Path(chain.rules, chain.s), chain.s.indexed;
            var p := path[..target + 1];
            var supply := SumReward(r, target + 1) + SkippedReward(r, path, keep, target);
            var burned := SumBurn(r, p) + SkippedBurn(r, path, keep, target);
            && loaded.tip == TipOf(p[target]) && loaded.utxos == Replay(p)
            && loaded.stats == StatsOf(r, p, 1).(totalSupply := supply, totalBurned := burned % (U64_MAX + 1))
            && loaded.s == Recovered(chain.s.store, p, chain.s.lastCheckpoint)
            && WellFormed(loaded.rules, loaded.s) && Path(loaded.rules, loaded.s) == p
            && (loaded.Coherent() <==>
                  && SkippedReward(r, path, keep, target) == 0
                  && SkippedBurn(r, path, keep, target) % (U64_MAX + 1) == 0 && SumBurn(r, p) <= U64_MAX)
            && ((forall k :: target < k <= Height(chain.s) ==> k in keep) ==>
                  (loaded.Coherent() <==> SumBurn(r, p) <= U64_MAX))
  {
    hide Replay, IndexMap, HeightIndex, Cached, SumReward, SumBurn, SumWork, SumTxs, Returned, Unwind, FreshPath,
         TreeTimeOk, CacheOk, HoldsChain, HashesFrom, SkippedReward, SkippedBurn;
    ghost var r, p, keep := chain.rules, Path(chain.rules, chain.s), chain.s.indexed;
    var orphaned := RollbackToHeight(chain, target);
    UnwindSkips(r, p, keep, target);
    RolledBackHolds(r, chain.s, target, chain.db.state.value);
    loaded := Reload(chain.rules, chain.db, chain.s.store, p[..target + 1]);
    RecoveredWellFormed(r, chain.s, target + 1);
    WrapsToItself(SumBurn(r, p[..target + 1]), SkippedBurn(r, p, keep, target));
    if forall k :: target < k <= Height(chain.s) ==> k in keep {
      NothingSkipped(r, p, keep, target);
    }
  }

  // ---------------------------------------------------------------- restarting after a graft

  /** The stored heights of a grafted node: the old chain, a gap up to the fork point, and the fork above it. */
  lemma {:induction false} GraftedStore(r: Rules, db: Database, st: State, b: Block, q: seq<Block>)
    requires Sane(r, st) && Attaches(st.store, b) && q == Ancestry(r.genesis, st.store, b.prev)
    requires db.blocks == st.store[b.hash := b]
    requires db.heights == SplicedHeights(Path(r, st), q + [b], ForkPoint(r, st, q)) && ForkPoint(r, st, q) > Height(st)
    ensures var p, fp := Path(r, st), ForkPoint(r, st, q);
            && StoredUpTo(r, db, st.store, p) && Gap(db, |p|, fp + 1) && 0 in db.heights
            && db.heights[0] == r.genesis.hash && fp + 1 <= b.height
            && BlockAt(db, fp + 1).Some? && BlockAt(db, fp + 1).value.prev != p[|p| - 1].hash
  {
    hide IndexMap, Named, Ancestry, FreshPath, TreeTimeOk, CacheOk, SumWork, Heights;
    var p, c, fp := Path(r, st), q + [b], ForkPoint(r, st, q);
    forall h: nat | h <= b.height
      ensures h < |p| ==> BlockAt(db, h) == Some(p[h])
      ensures |p| <= h <= fp ==> BlockAt(db, h).None?
      ensures h > fp ==> BlockAt(db, h) == Some(c[h])
    {
      IndexMapAt(p, Heights(0, |p|), h);
      IndexMapAt(c, Heights(fp + 1, |c|), h);
    }
    assert fp + 1 < |q| ==> LinkAt(q, fp + 1);
    assert BlockAt(db, fp + 1).value.prev == q[fp].hash;
  }

  /** A restart does not mend a graft. The first load replays the old chain, meets the gap and then the fork, and cuts
      the database to the fork point's height but the old tip's hash; the next load finds that record and block
      disagree, and is refused. */
  method RestartGrafted(live: Blockchain, ghost st: State, ghost b: Block, ghost q: seq<Block>)
    returns (chain: Blockchain, again: Outcome)
    requires Sane(live.rules, st) && Attaches(st.store, b) && q == Ancestry(live.rules.genesis, st.store, b.prev)
    requires ForkPoint(live.rules, st, q) > Height(st) && live.Grafted(st, b, q)
    ensures fresh(chain) && chain.rules == live.rules && LoadOutcome(live.rules, live.db) == Loaded
    ensures chain.utxos == Replay(Path(live.rules, st))
    ensures chain.tip.hash == st.tip && chain.tip.height == ForkPoint(live.rules, st, q)
    ensures chain.db.blocks == live.db.blocks && again == LoadOutcome(chain.rules, chain.db) == DatabaseError
  {
    hide IndexMap, Named, Ancestry, FreshPath, TreeTimeOk, CacheOk, SumWork, Heights, SplicedHeights, Joined, Replay,
         Rebuild, FirstBreak, LastHash, Cached, HashesFrom, SumBurn, SumSupply, SumTxs, MidIndex;
    ghost var p, fp := Path(live.rules, st), ForkPoint(live.rules, st, q);
    GraftedStore(live.rules, live.db, st, b, q);
    StopsAtBreak(live.rules, live.db, st.store, p, fp + 1, b.height, CacheStart(b.height));
    assert p[..|p|] == p;
    chain := new Blockchain.Open(live.rules, live.db);
    var outcome := LoadFromDatabase(chain, st.store, p);
    var next := new Blockchain.Open(chain.rules, chain.db);
    again := LoadFromDatabase(next, st.store, p);
  }
}
