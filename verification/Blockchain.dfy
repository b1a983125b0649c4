/** The node's chain state, updated in place, step by step. */
module Node {
  import opened Ledger
  import opened Lineage
  import opened ForkChoice
  import opened MedianTime
  import opened ChainModel
  import opened ChainInvariant
  import opened ChainImage
  import opened Windows

  class Blockchain {
    const rules: Rules
    /** Blocks by hash, held in memory. */
    var blocks: map<Hash, Block>
    /** Active height to hash, held in memory. */
    var heightToHash: map<nat, Hash>
    var tip: ChainTip
    var stats: ChainStats
    var utxos: Utxo
    var db: Database
    /** The chain this object represents. */
    ghost var s: State

    /** The object holds exactly what the chain of `t` dictates. */
    ghost predicate Represents(t: State)
      reads this
    {
      && Rooted(rules, t)
      && blocks == Cached(t.store, t.cached)
      && heightToHash == HeightIndex(Path(rules, t), t.indexed, t.stale)
      && tip == TipOf(t.store[t.tip])
      && stats == StatsOf(rules, Path(rules, t), t.base)
      && utxos == Replay(Path(rules, t))
      && Persists(rules, t, db)
    }

    ghost predicate Coherent()
      reads this
    {
      Represents(s)
    }

    /** A fresh node: only the genesis block. The in-memory work total starts at zero, the persisted one at one. */
    constructor InitGenesis(r: Rules)
      requires Sound(r)
      ensures rules == r && Coherent() && s == GenesisState(r)
    {
      GenesisIndex(r);
      GenesisRooted(r);
      GenesisTotals(r);
      rules := r;
      var g := r.genesis;
      blocks := map[g.hash := g];
      heightToHash := map[0 := g.hash];
      tip := ChainTip(g.hash, 0, g.timestamp);
      stats := ChainStats(0, g.hash, 1, |g.txs|, r.reward(0), 0, 0);
      utxos := Connect(EMPTY_UTXO, 0, g.txs);
      db := Database(map[g.hash := g], map[0 := g.hash], Some(ChainStateData(g.hash, 0, 1, r.reward(0), 0, 0)));
      s := GenesisState(r);
    }

    /** A node over an existing database, nothing loaded yet. */
    constructor Open(r: Rules, database: Database)
      ensures rules == r && db == database && blocks == map[] && heightToHash == map[]
    {
      rules := r;
      db := database;
      blocks := map[];
      heightToHash := map[];
    }

    // -------------------------------------------------------------- lookups

    /** A block by hash: memory first, then the database. */
    function GetBlock(h: Hash): Option<Block>
      reads this`blocks, this`db
    {
      if h in blocks then Some(blocks[h]) else if h in db.blocks then Some(db.blocks[h]) else None
    }

    /** The active hash at a height: memory first, then the database. */
    function GetBlockHash(height: nat): Option<Hash>
      reads this`heightToHash, this`db
    {
      if height in heightToHash then Some(heightToHash[height])
      else if height in db.heights then Some(db.heights[height]) else None
    }

    /** Lookups by hash answer from the block tree `m`. */
    ghost predicate SeesBlocks(m: map<Hash, Block>)
      reads this`blocks, this`db
    {
      && (forall h {:trigger GetBlock(h)} :: GetBlock(h) == if h in m then Some(m[h]) else None)
      && StoreOk(rules.genesis, m)
    }

    /** Lookups by height answer from the chain `p` and the stray entries above it. */
    ghost predicate SeesChain(m: map<Hash, Block>, p: seq<Block>, stale: map<nat, Hash>)
      reads this`heightToHash, this`db
    {
      && (forall k: nat {:trigger GetBlockHash(k)} ::
            GetBlockHash(k) == if k in stale then Some(stale[k]) else if k < |p| then Some(p[k].hash) else None)
      && IsLineage(rules.genesis, m, p) && AboveAll(stale, |p|)
    }

    lemma {:induction false} CoherentSeesBlocks()
      requires Coherent()
      ensures SeesBlocks(s.store)
    {
    }

    lemma {:induction false} CoherentSees()
      requires Coherent() && Sane(rules, s)
      ensures SeesBlocks(s.store) && SeesChain(s.store, Path(rules, s), s.stale)
    {
      hide IndexMap, Replay, StatsOf, RecordOf, FreshPath, TreeTimeOk, Ancestry, SumWork;
      var p := Path(rules, s);
      forall k: nat ensures GetBlockHash(k) ==
          if k in s.stale then Some(s.stale[k]) else if k < |p| then Some(p[k].hash) else None {
        IndexMapAt(p, s.indexed, k);
        IndexMapAt(p, Heights(0, |p|), k);
      }
    }

    lemma {:induction false} CoherentTip()
      requires Coherent()
      ensures tip.hash == s.tip && tip.height == Height(s) && stats.totalDifficulty == TotalWork(rules, s)
    {
    }

    // -------------------------------------------------------------- walks

    /** The node can walk the lineage `q` of block `prev`. */
    ghost predicate SeesAncestors(m: map<Hash, Block>, q: seq<Block>, prev: Hash)
      reads this`blocks, this`db
    {
      SeesBlocks(m) && IsLineage(rules.genesis, m, q) && prev == q[|q| - 1].hash
    }

    /** The height of the highest ancestor of `b` that the height index names. `None` means the store is corrupt: the
        walk met a missing block or a cycle. It ends on every store. */
    method FindForkPoint(b: Block, ghost m: map<Hash, Block>, ghost p: seq<Block>, ghost stale: map<nat, Hash>,
                         ghost q: seq<Block>)
      returns (fp: Option<nat>)
      ensures SeesAncestors(m, q, b.prev) && SeesChain(m, p, stale) ==> fp == Some(Named(stale, p, q, |q| - 1))
    {
      var current := b.prev;
      var visited: set<Hash> := {};
      ghost var known := SeesAncestors(m, q, b.prev) && SeesChain(m, p, stale);
      ghost var k := |q| - 1;
      while true
        invariant known ==> 0 <= k < |q| && current == q[k].hash
        invariant known ==> Named(stale, p, q, |q| - 1) == Named(stale, p, q, k)
        invariant known ==> forall x :: x in visited ==> x in m && m[x].height > k
        invariant visited <= blocks.Keys + db.blocks.Keys
        decreases blocks.Keys + db.blocks.Keys - visited
      {
        if known {
          NamedStep(rules.genesis, m, stale, p, q, k);
        }
        if current in visited {
          return None;
        }
        var found := GetBlock(current);
        if found.None? {
          return None;
        }
        visited := visited + {current};
        var height := found.value.height;
        if GetBlockHash(height) == Some(current) {
          return Some(height);
        }
        if height == 0 {
          return Some(0);
        }
        current := found.value.prev;
        k := k - 1;
      }
    }

    /** The blocks strictly between the fork point and `b`, in ascending order. */
    method CollectForkChain(b: Block, fp: nat, ghost m: map<Hash, Block>, ghost q: seq<Block>)
      returns (fork: seq<Block>)
      ensures SeesAncestors(m, q, b.prev) && fp < |q| ==> fork == q[fp + 1..]
    {
      fork := [];
      var current := b.prev;
      var visited: set<Hash> := {};
      var walking := true;
      ghost var known := SeesAncestors(m, q, b.prev) && fp < |q|;
      ghost var k := |q| - 1;
      while walking
        invariant known ==> fp <= k < |q| && current == q[k].hash && fork == q[k + 1..] && (!walking ==> k == fp)
        invariant known ==> forall x :: x in visited && walking ==> x in m && m[x].height > k
        invariant visited <= blocks.Keys + db.blocks.Keys
        decreases blocks.Keys + db.blocks.Keys - visited, walking
      {
        if known {
          assert k > 0 ==> LinkAt(q, k);
        }
        var found := GetBlock(current);
        if current in visited || found.None? || found.value.height <= fp {
          walking := false;
        } else {
          visited := visited + {current};
          current := found.value.prev;
          fork := [found.value] + fork;
          k := k - 1;
        }
      }
    }

    /** Cumulative work of the chain ending in `b`, walking back to genesis in saturating arithmetic. */
    method ForkCumulativeWork(b: Block, ghost m: map<Hash, Block>, ghost q: seq<Block>) returns (total: nat)
      ensures SeesAncestors(m, q, b.prev) && b.height == |q| ==> total == ForkWork(q + [b])
    {
      total := Work(b);
      var current := b.prev;
      var maxSteps := b.height + 100;
      var steps := 0;
      var walking := true;
      ghost var known := SeesAncestors(m, q, b.prev) && b.height == |q|;
      ghost var k := |q| - 1;
      if known {
        WorkAboveTop(q, b);
      }
      while walking
        invariant known ==> 0 <= k < |q| && steps <= |q| - k
        invariant known && walking ==>
          current == q[k].hash && total == Cap(WorkAbove(q + [b], k)) && steps == |q| - 1 - k
        invariant known && !walking ==> total == ForkWork(q + [b])
        decreases walking, maxSteps + 1 - steps
      {
        if known {
          assert k > 0 ==> LinkAt(q, k);
          WorkAboveStep(q + [b], k);
        }
        steps := steps + 1;
        var found := GetBlock(current);
        if steps > maxSteps || found.None? {
          walking := false;
        } else if found.value.height == 0 {
          total := SatAdd(total, 1, U128_MAX);
          walking := false;
        } else {
          total := SatAdd(total, Work(found.value), U128_MAX);
          current := found.value.prev;
          k := k - 1;
        }
      }
    }

    /** Median-time-past of the lineage ending in `prev`, if it has eleven blocks. */
    method MedianTimePastOfLineage(prev: Hash, ghost m: map<Hash, Block>, ghost q: seq<Block>)
      returns (mtp: Option<nat>)
      ensures SeesAncestors(m, q, prev) && |q| >= MTP_WINDOW ==> mtp == Some(MedianTimePast(q))
    {
      var timestamps: seq<nat> := [];
      var cursor := prev;
      ghost var known := SeesAncestors(m, q, prev) && |q| >= MTP_WINDOW;
      for n := 0 to MTP_WINDOW
        invariant known ==> timestamps == Backwards(q, n) && (n < |q| ==> cursor == q[|q| - 1 - n].hash)
      {
        if known && n + 1 < |q| {
          assert LinkAt(q, |q| - 1 - n);
        }
        var found := GetBlock(cursor);
        if found.None? {
          break;
        }
        timestamps := timestamps + [found.value.timestamp];
        cursor := found.value.prev;
      }
      if known {
        BackwardsMedian(q);
      }
      mtp := if |timestamps| >= MTP_WINDOW then Some(Median(timestamps)) else None;
    }

    // -------------------------------------------------------------- difficulty history on receipt

    /** The block of `p` at height `h` is in memory. */
    ghost predicate ResidentAt(p: seq<Block>, h: int)
      requires 0 <= h < |p|
      reads this`blocks
    {
      p[h].height == h && p[h].hash in blocks && blocks[p[h].hash] == p[h]
    }

    ghost predicate Resident(p: seq<Block>, keep: set<nat>)
      reads this`blocks
    {
      forall h {:trigger ResidentAt(p, h)} :: 0 <= h < |p| && h in keep ==> ResidentAt(p, h)
    }

    /** What the in-memory height index shows of height `h`. */
    function EntryAt(h: nat): seq<DifficultyBlock>
      reads this`blocks, this`heightToHash
    {
      if h in heightToHash && heightToHash[h] in blocks
      then [AsDifficultyBlock(blocks[heightToHash[h]]).(height := h)] else []
    }

    ghost predicate Shows(st: State, p: seq<Block>, upTo: nat)
      reads this`blocks, this`heightToHash
    {
      forall h: nat {:trigger EntryAt(h)} :: h <= upTo ==> EntryAt(h) == Shown(st, p, h)
    }

    lemma {:induction false} CoherentShows(upTo: nat)
      requires Coherent() && Sane(rules, s)
      ensures Shows(s, Path(rules, s), upTo)
    {
      hide IndexMap, Replay, StatsOf, DatabaseOf, Ancestry, FreshPath, TreeTimeOk, SumWork;
      var p := Path(rules, s);
      forall h: nat | h <= upTo ensures EntryAt(h) == Shown(s, p, h) {
        IndexMapAt(p, s.indexed, h);
        assert h < |p| ==> CachedAt(p, s.cached, s.indexed, h);
      }
    }

    /** The history for a block extending the active chain `p`. */
    method GetDifficultyBlocks(upTo: nat, ghost st: State, ghost p: seq<Block>) returns (w: seq<DifficultyBlock>)
      requires 0 < upTo <= |p| && Shows(st, p, upTo)
      ensures w == Window(st, p, p, WindowStart(upTo), upTo, upTo - 1)
    {
      w := [];
      var h := WindowStart(upTo);
      while h < upTo
        invariant WindowStart(upTo) <= h <= upTo && w == Window(st, p, p, WindowStart(upTo), h, upTo - 1)
      {
        w := w + EntryAt(h);
        h := h + 1;
      }
    }

    /** Block `k` of `q` is in memory exactly when it is in `cached`, and then the height index names it exactly when
        `k` is the fork point. */
    ghost predicate WalkAt(q: seq<Block>, cached: set<Hash>, fp: nat, k: int)
      requires 0 <= k < |q|
      reads this`blocks, this`heightToHash
    {
      && (q[k].hash in blocks <==> q[k].hash in cached)
      && (q[k].hash in blocks ==>
            && blocks[q[k].hash] == q[k] && q[k].height == k
            && (k in heightToHash && heightToHash[k] == q[k].hash <==> k == fp))
      && (k > 0 ==> LinkAt(q, k))
    }

    ghost predicate Walkable(q: seq<Block>, cached: set<Hash>, fp: nat)
      reads this`blocks, this`heightToHash
    {
      fp < |q| && forall k {:trigger WalkAt(q, cached, fp, k)} :: fp <= k < |q| ==> WalkAt(q, cached, fp, k)
    }

    lemma {:induction false} CoherentWalkable(p: seq<Block>, q: seq<Block>)
      requires Coherent() && Sane(rules, s) && p == Path(rules, s) && IsLineage(rules.genesis, s.store, q)
      ensures Walkable(q, s.cached, ForkPoint(rules, s, q))
    {
      hide IndexMap, Replay, StatsOf, DatabaseOf, Ancestry, FreshPath, TreeTimeOk, SumWork, Named;
      var fp := ForkPoint(rules, s, q);
      forall k | fp <= k < |q| ensures WalkAt(q, s.cached, fp, k) {
        IndexMapAt(p, s.indexed, k);
        assert k < |p| ==> CachedAt(p, s.cached, s.indexed, k);
        assert k > 0 ==> LinkAt(q, k);
      }
    }

    /** Walk the fork ending in `prev` back to the active chain, in memory only. An uncached block ends the walk with
        fork point 0. */
    method WalkFork(prev: Hash, ghost q: seq<Block>, ghost cached: set<Hash>, ghost fp: nat)
      returns (forkPoint: nat, chain: seq<DifficultyBlock>)
      requires Walkable(q, cached, fp) && prev == q[|q| - 1].hash
      ensures match WalkStop(q, cached, fp, |q|)
              case None => forkPoint == fp && chain == Ancestors(q, fp + 1, |q|)
              case Some(stop) => forkPoint == 0 && chain == Ancestors(q, stop + 1, |q|)
    {
      forkPoint, chain := 0, [];
      var cursor := prev;
      ghost var k := |q| - 1;
      while cursor in blocks
        invariant fp <= k < |q| && chain == Ancestors(q, k + 1, |q|) && cursor == q[k].hash && forkPoint == 0
        invariant WalkStop(q, cached, fp, |q|) == WalkStop(q, cached, fp, k + 1)
        decreases k
      {
        assert WalkAt(q, cached, fp, k);
        var blk := blocks[cursor];
        if blk.height in heightToHash && heightToHash[blk.height] == cursor {
          forkPoint := blk.height;
          return;
        }
        AncestorsDown(q, k);
        chain := [AsDifficultyBlock(blk)] + chain;
        if blk.height == 0 {
          return;
        }
        cursor := blk.prev;
        k := k - 1;
      }
      assert WalkAt(q, cached, fp, k);
    }

    /** The entry for one height of a fork block's history: an active block up to the fork point, a fork block above. */
    function HistoryAt(h: nat, forkPoint: nat, chain: seq<DifficultyBlock>): seq<DifficultyBlock>
      reads this`blocks, this`heightToHash
    {
      if h <= forkPoint then EntryAt(h)
      else if h - forkPoint - 1 < |chain| then [chain[h - forkPoint - 1]] else []
    }

    lemma {:induction false} HistoryAtIs(st: State, p: seq<Block>, q: seq<Block>, h: nat, forkPoint: nat,
                                         chain: seq<DifficultyBlock>, stop: Option<nat>)
      requires h < |q| && p != [] && p[0] == q[0] && Shows(st, p, forkPoint) && HistoryShape(q, forkPoint, chain, stop)
      ensures stop.None? ==>
        HistoryAt(h, forkPoint, chain) == if h > forkPoint then [AsDifficultyBlock(q[h])] else Shown(st, p, h)
      ensures stop.Some? ==>
        HistoryAt(h, forkPoint, chain) ==
          if h == 0 then (if 0 in st.indexed then [AsDifficultyBlock(q[0])] else [])
          else if stop.value + h < |q| then [AsDifficultyBlock(q[stop.value + h])] else []
    {
      assert h <= forkPoint ==> EntryAt(h) == Shown(st, p, h);
    }

    /** What the fork walk hands over. */
    ghost predicate HistoryShape(q: seq<Block>, forkPoint: nat, chain: seq<DifficultyBlock>, stop: Option<nat>) {
      match stop
      case None => forkPoint < |q| && chain == Ancestors(q, forkPoint + 1, |q|)
      case Some(x) => x < |q| && forkPoint == 0 && chain == Ancestors(q, x + 1, |q|)
    }

    /** Lay out the history of a fork block from the walk's result. */
    method ForkHistory(height: nat, forkPoint: nat, chain: seq<DifficultyBlock>,
                       ghost st: State, ghost p: seq<Block>, ghost q: seq<Block>, ghost stop: Option<nat>)
      returns (w: seq<DifficultyBlock>)
      requires height == |q| && p != [] && |q| > 0 && p[0] == q[0]
      requires Shows(st, p, forkPoint) && HistoryShape(q, forkPoint, chain, stop)
      ensures stop.None? ==> w == Window(st, p, q, WindowStart(height), height, forkPoint)
      ensures stop.Some? ==> w == LostWindow(q, WindowStart(height), height, stop.value, 0 in st.indexed)
    {
      w := [];
      var h := WindowStart(height);
      while h < height
        invariant WindowStart(height) <= h <= height
        invariant stop.None? ==> w == Window(st, p, q, WindowStart(height), h, forkPoint)
        invariant stop.Some? ==> w == LostWindow(q, WindowStart(height), h, stop.value, 0 in st.indexed)
      {
        HistoryAtIs(st, p, q, h, forkPoint, chain, stop);
        w := w + HistoryAt(h, forkPoint, chain);
        h := h + 1;
      }
    }

    lemma {:induction false} CoherentResident(p: seq<Block>)
      requires Coherent() && Sane(rules, s) && p == Path(rules, s)
      ensures Resident(p, s.indexed) && AboveAll(s.stale, |p|)
    {
      forall h | 0 <= h < |p| && h in s.indexed ensures ResidentAt(p, h) {
        assert CachedAt(p, s.cached, s.indexed, h);
      }
    }

    method ForkReceiptHistory(b: Block, ghost q: seq<Block>) returns (w: seq<DifficultyBlock>)
      requires Coherent() && Sane(rules, s) && b.prev != s.tip
      requires IsLineage(rules.genesis, s.store, q) && b.prev == q[|q| - 1].hash && b.height == |q|
      ensures w == ReceiptWindow(rules, s, q)
    {
      hide IndexMap, HeightIndex, Cached, Replay, StatsOf, DatabaseOf, Ancestry, FreshPath, TreeTimeOk, CacheOk,
           SumWork, Named, Walkable;
      ghost var p := Path(rules, s);
      ghost var fp := ForkPoint(rules, s, q);
      ghost var stop := WalkStop(q, s.cached, fp, |q|);
      CoherentWalkable(p, q);
      var forkPoint, chain := WalkFork(b.prev, q, s.cached, fp);
      CoherentShows(forkPoint);
      w := ForkHistory(b.height, forkPoint, chain, s, p, q, stop);
    }

    /** The history a received block's target is checked against. */
    method ReceiptHistory(b: Block, ghost q: seq<Block>) returns (w: seq<DifficultyBlock>)
      requires Coherent() && Sane(rules, s)
      requires IsLineage(rules.genesis, s.store, q) && b.prev == q[|q| - 1].hash && b.height == |q|
      ensures w == ReceiptWindow(rules, s, q)
    {
      CoherentTip();
      if b.prev == tip.hash {
        LineageUnique(rules.genesis, s.store, q);
        CoherentShows(|q|);
        w := GetDifficultyBlocks(b.height, s, q);
      } else {
        w := ForkReceiptHistory(b, q);
      }
    }

    // -------------------------------------------------------------- receiving a block

    /** Whether the block is later than the median-time-past of its own lineage. */
    method CheckTimestamp(b: Block, ghost q: seq<Block>) returns (ok: bool)
      requires Coherent()
      requires IsLineage(rules.genesis, s.store, q) && b.prev == q[|q| - 1].hash && b.height == |q|
      ensures ok == TimestampOk(q, b)
    {
      ok := true;
      if b.height >= MTP_WINDOW {
        CoherentSeesBlocks();
        var mtp := MedianTimePastOfLineage(b.prev, s.store, q);
        ok := mtp.None? || b.timestamp > mtp.value;
      }
    }

    method CheckRules(b: Block, parent: Block, ghost q: seq<Block>) returns (verdict: Option<Status>)
      requires Sound(rules) && Coherent() && Sane(rules, s)
      requires Attaches(s.store, b) && q == Ancestry(rules.genesis, s.store, b.prev) && parent == s.store[b.prev]
      ensures verdict == ScreenRules(rules, s, b, q)
    {
      var last := if db.state.Some? then db.state.value.lastCheckpoint else 0;
      var validation := rules.validate(b, Some(parent), utxos, if last > 0 then Some(last) else None);
      if validation.Error? {
        return Some(Failed);
      }
      if validation.Invalid? {
        return Some(Rejected);
      }
      var timely := CheckTimestamp(b, q);
      if !timely {
        return Some(Rejected);
      }
      var w := ReceiptHistory(b, q);
      if |w| >= 2 && b.target != rules.targetFor(w, b.height) {
        return Some(Rejected);
      }
      return None;
    }

    /** The receipt checks, in order; returns the status of the first that fails. */
    method ScreenBlock(b: Block) returns (verdict: Option<Status>)
      requires Sound(rules) && Coherent() && Sane(rules, s)
      ensures verdict == Screen(rules, s, b)
    {
      CoherentSeesBlocks();
      if b.hash in blocks || b.hash in db.blocks {
        return Some(AlreadyKnown);
      }
      assert GetBlock(b.hash).None?;
      var parent := GetBlock(b.prev);
      if parent.None? && b.height > 0 {
        return Some(Orphan);
      }
      var expected := if b.height == 0 then 0 else parent.value.height + 1;
      if b.height != expected {
        return Some(Rejected);
      }
      if b.height in rules.checkpoints && rules.checkpoints[b.height] != b.hash {
        return Some(Rejected);
      }
      verdict := CheckRules(b, parent.value, Ancestry(rules.genesis, s.store, b.prev));
    }

    /** Keep a received block, in memory and in the database. */
    method StoreBlock(b: Block)
      requires Coherent() && Attaches(s.store, b)
      modifies this`blocks, this`db, this`s
      ensures Coherent() && s == Stored(old(s), b) && db.state == old(db).state
    {
      StoredPath(rules, s, b);
      StoredCached(s.store, s.cached, b);
      blocks := blocks[b.hash := b];
      db := db.(blocks := db.blocks[b.hash := b]);
      s := Stored(s, b);
    }

    // -------------------------------------------------------------- extending the active chain

    /** Trim the block cache: lowest heights first, sparing genesis and the last 200 heights. */
    method EvictBlockCache()
      requires Rooted(rules, s) && s.cached <= s.store.Keys && tip.height == Height(s)
      requires AboveAll(s.stale, Height(s) + 1)
      requires blocks == Cached(s.store, s.cached) && heightToHash == HeightIndex(Path(rules, s), s.indexed, s.stale)
      modifies this`blocks, this`heightToHash, this`s
      ensures s == Evict(rules, old(s)) && s == old(s).(cached := s.cached, indexed := s.indexed)
      ensures blocks == Cached(s.store, s.cached) && heightToHash == HeightIndex(Path(rules, s), s.indexed, s.stale)
    {
      hide HeightIndex, AboveAll, Cached, Ancestry, StoreOk, IsLineage;
      CachedSize(s.store, s.cached);
      if |blocks| <= MAX_BLOCK_CACHE {
        return;
      }
      ghost var st, p := s, Path(rules, s);
      ghost var cached, indexed := s.cached, s.indexed;
      var toEvict := |blocks| - MAX_BLOCK_CACHE;
      var evicted := 0;
      var h := 0;
      while h <= tip.height && evicted < toEvict
        invariant h <= |p| && evicted <= toEvict && s == st
        invariant blocks == Cached(st.store, cached) && heightToHash == HeightIndex(p, indexed, st.stale)
        invariant EvictFrom(p, st.cached, st.indexed, 0, toEvict) == EvictFrom(p, cached, indexed, h, toEvict - evicted)
      {
        IndexedBelow(p, indexed, st.stale, h);
        if h in heightToHash && h != 0 && h + CACHE_DEPTH < tip.height {
          EvictOne(st.store, p, cached, indexed, st.stale, h);
          blocks := blocks - {heightToHash[h]};
          heightToHash := heightToHash - {h};
          cached, indexed := cached - {p[h].hash}, indexed - {h};
          evicted := evicted + 1;
        }
        h := h + 1;
      }
      assert EvictFrom(p, st.cached, st.indexed, 0, toEvict) == (cached, indexed);
      s := s.(cached := cached, indexed := indexed);
    }

    /** Make `b` the new tip, in memory; a stray entry at its height is overwritten. */
    method GrowTip(b: Block, ghost p: seq<Block>, ghost keep: set<nat>, ghost base: nat, ghost stale: map<nat, Hash>)
      requires p != [] && b.height == |p| && heightToHash == HeightIndex(p, keep, stale)
      requires stats == StatsOf(rules, p, base) && utxos == Replay(p)
      modifies this`heightToHash, this`tip, this`stats, this`utxos
      ensures heightToHash == HeightIndex(p + [b], keep + {b.height}, stale - {b.height}) && tip == TipOf(b)
      ensures stats == StatsOf(rules, p + [b], base) && utxos == Replay(p + [b])
    {
      hide SumWork, SumBurn, SumTxs, Replay, IndexMap, Connect, SumReward;
      SumsAppend(rules, p, b);
      StatsAppend(rules, p, base, b);
      OverlayGrow(p, keep, b, stale);
      heightToHash := heightToHash[b.height := b.hash];
      tip := ChainTip(b.hash, b.height, b.timestamp);
      stats := ChainStats(b.height, b.hash, stats.totalBlocks + 1, stats.totalTransactions + |b.txs|,
                          stats.totalSupply + rules.reward(b.height), stats.totalBurned + BlockFeeBurn(rules, b),
                          stats.totalDifficulty + Work(b));
      utxos := Connect(utxos, b.height, b.txs);
    }

    /** Write the new tip's height entry and the chain-state record; a multiple of the checkpoint interval is recorded
        as the last checkpoint. */
    method PersistTip(b: Block)
      requires db.state.Some?
      modifies this`db
      ensures db.blocks == old(db).blocks && db.heights == old(db).heights[b.height := b.hash]
      ensures db.state == Some(ChainStateData(b.hash, b.height, stats.totalDifficulty, stats.totalSupply,
                                              stats.totalBurned % (U64_MAX + 1),
                                              if b.height > 0 && b.height % CHECKPOINT_INTERVAL == 0 then b.height
                                              else old(db).state.value.lastCheckpoint))
    {
      db := db.(heights := db.heights[b.height := b.hash]);
      var last := 0;
      if b.height > 0 && b.height % CHECKPOINT_INTERVAL == 0 {
        last := b.height;
      }
      if last == 0 {
        last := db.state.value.lastCheckpoint;
      }
      db := db.(state := Some(ChainStateData(b.hash, b.height, stats.totalDifficulty, stats.totalSupply,
                                             stats.totalBurned % (U64_MAX + 1), last)));
    }

    /** The record and index of the grown chain differ from the old ones by the new tip. */
    lemma {:induction false} GrownDatabase(st: State, b: Block, t: State, before: nat, total: nat)
      requires Rooted(rules, st) && Attaches(st.store, b) && b.prev == st.tip
      requires t == Grown(st, b).(cached := t.cached, indexed := t.indexed)
      ensures Rooted(rules, Stored(st, b)) && DatabaseOf(rules, Stored(st, b), before).state.Some?
      ensures Rooted(rules, t) && Path(rules, t) == Path(rules, st) + [b]
      ensures var u := DatabaseOf(rules, Stored(st, b), before); DatabaseOf(rules, t, total) == Database(
        u.blocks, u.heights[b.height := b.hash],
        Some(ChainStateData(b.hash, b.height, total, SumReward(rules, b.height + 1),
                            SumBurn(rules, Path(rules, st) + [b]) % (U64_MAX + 1),
                            if b.height % CHECKPOINT_INTERVAL == 0 then b.height else u.state.value.lastCheckpoint)))
    {
      hide IndexMap, SumBurn, Ancestry, IsLineage, StoreOk, Evict;
      var p := Path(rules, st);
      StoredPath(rules, st, b);
      GrownPath(rules, st, b);
      assert Path(rules, t) == Path(rules, Grown(st, b));
      IndexMapGrow(p, Heights(0, |p|), b);
      HeightsGrow(0, |p|);
    }

    /** The recorded work is the running total. */
    ghost predicate RecordsTotal()
      reads this`db, this`stats
    {
      db.state.Some? && db.state.value.totalDifficulty == stats.totalDifficulty
    }

    /** Extend the active chain by the stored block `b`. */
    method Extend(b: Block, ghost st: State)
      requires Sane(rules, st) && Attaches(st.store, b) && b.prev == st.tip
      requires Coherent() && s == Stored(st, b)
      modifies this`blocks, this`heightToHash, this`tip, this`stats, this`utxos, this`db, this`s
      ensures Coherent() && s == Extended(rules, st, b) && RecordsTotal()
    {
      hide SumWork, SumBurn, SumTxs, Replay, IndexMap, HeightIndex, Cached, Connect, SumReward, Evict, Ancestry,
           FreshPath, TreeTimeOk, CacheOk, IsLineage, DatabaseOf;
      StoredPath(rules, st, b);
      GrownPath(rules, st, b);
      ghost var before := db.state.value.totalDifficulty;
      GrowTip(b, Path(rules, st), st.indexed, st.base, st.stale);
      s := Grown(st, b);
      EvictBlockCache();
      GrownDatabase(st, b, s, before, stats.totalDifficulty);
      PersistTip(b);
    }

    // -------------------------------------------------------------- reorganisation: what is in memory

    /** The UTXO set and the emission totals are those of the blocks `u`. */
    ghost predicate LedgerOf(u: seq<Block>)
      reads this`utxos, this`stats
    {
      && utxos == Replay(u)
      && stats.totalSupply == SumSupply(rules, u) && stats.totalBurned == SumBurn(rules, u)
    }

    /** So is the height index, with the strays of `st`. */
    ghost predicate OnChain(u: seq<Block>, st: State)
      reads this`heightToHash, this`utxos, this`stats
    {
      heightToHash == HeightIndex(u, st.indexed, st.stale) && LedgerOf(u)
    }

    /** The active chain `p` is disconnected down to `fp`, and the candidate `c` is connected from there up to `j`. */
    ghost predicate Midway(p: seq<Block>, c: seq<Block>, st: State, fp: nat, j: nat)
      requires fp < j <= |c|
      reads this`heightToHash, this`utxos, this`stats
    {
      heightToHash == MidIndex(st, p, c, fp, j) && LedgerOf(Joined(p, c, fp, j))
    }

    /** No total but the emission ones has changed. */
    twostate predicate OnlyEmission()
      reads this`stats
    {
      stats == old(stats).(totalSupply := stats.totalSupply, totalBurned := stats.totalBurned)
    }

    /** Of the candidate chain `c` below its last block, exactly the blocks in `cached` are in memory. */
    ghost predicate HoldsCandidate(c: seq<Block>, cached: set<Hash>)
      reads this`blocks
    {
      forall h {:trigger Held(c, cached, h)} :: 0 <= h < |c| - 1 ==> Held(c, cached, h)
    }

    ghost predicate Held(c: seq<Block>, cached: set<Hash>, h: int)
      requires 0 <= h < |c|
      reads this`blocks
    {
      (c[h].hash in blocks <==> c[h].hash in cached) && (c[h].hash in blocks ==> blocks[c[h].hash] == c[h])
    }

    /** Of the blocks the stray entries of `st` name, exactly those cached are in memory. */
    ghost predicate HoldsStrays(st: State)
      reads this`blocks
    {
      forall h: nat {:trigger HeldStray(st, h)} :: h in st.stale ==> HeldStray(st, h)
    }

    ghost predicate HeldStray(st: State, h: nat)
      requires h in st.stale
      reads this`blocks
    {
      var x := st.stale[h];
      (x in blocks <==> x in st.cached && x in st.store) && (x in blocks && x in st.store ==> blocks[x] == st.store[x])
    }

    /** The node holds in memory what it needs to replay the candidate `c` above `fp`. */
    ghost predicate Replayable(p: seq<Block>, c: seq<Block>, st: State, fp: nat)
      reads this`blocks
    {
      && CandidateShape(c, fp) && HoldsCandidate(c, st.cached)
      && Resident(p, st.indexed) && HoldsStrays(st) && AboveAll(st.stale, |p|)
    }

    /** Whatever part of the candidate is connected, the index shows the same up to the fork point. */
    lemma {:induction false} MidwayShows(p: seq<Block>, c: seq<Block>, st: State, fp: nat, j: nat)
      requires Replayable(p, c, st, fp) && fp < j <= |c| && heightToHash == MidIndex(st, p, c, fp, j)
      ensures Shows(st, p, fp)
    {
      hide IndexMap, MidIndex, HoldsCandidate, CandidateShape;
      forall h: nat | h <= fp ensures EntryAt(h) == Shown(st, p, h) {
        MidIndexBelow(st, p, c, fp, j, h);
        IndexMapAt(p, st.indexed, h);
        assert h < |p| && h in st.indexed ==> ResidentAt(p, h);
        assert h in st.stale ==> HeldStray(st, h);
      }
    }

    // -------------------------------------------------------------- reorganisation: disconnecting

    /** Take the last of the blocks `u` out of the UTXO set and the emission totals. */
    method TakeOff(b: Block, ghost u: seq<Block>)
      requires u != [] && u[|u| - 1] == b && FreshPath(u) && LedgerOf(u)
      modifies this`utxos, this`stats
      ensures LedgerOf(u[..|u| - 1]) && OnlyEmission()
    {
      assert u[..|u|] == u;
      SumsDrop(rules, u, |u| - 1);
      utxos := Disconnect(utxos, b.txs);
      stats := stats.(totalSupply := stats.totalSupply - rules.reward(b.height),
                      totalBurned := stats.totalBurned - BlockFeeBurn(rules, b));
    }

    /** Disconnect the block at the top height of the remaining chain `u`. */
    method DisconnectTop(h: nat, ghost u: seq<Block>, ghost st: State) returns (gone: seq<Disconnected>)
      requires h == |u| - 1 && FreshPath(u) && OnChain(u, st) && u[h].height == h && AboveAll(st.stale, |u|)
      requires h in st.indexed && u[h].hash in blocks && blocks[u[h].hash] == u[h]
      modifies this`heightToHash, this`utxos, this`stats
      ensures OnChain(u[..h], st) && OnlyEmission()
      ensures gone == [Disconnected(h, u[h].hash, u[h].txs)]
    {
      hide HeightIndex, AboveAll;
      gone := [];
      HeightIndexDrop(u, st.indexed, st.stale);
      if h in heightToHash {
        var oh := heightToHash[h];
        var txs := [];
        if oh in blocks {
          txs := blocks[oh].txs;
          TakeOff(blocks[oh], u);
        }
        gone := [Disconnected(h, oh, txs)];
      }
      heightToHash := heightToHash - {h};
    }

    /** Disconnect the active blocks above the fork point, highest first; none if it is above the tip. */
    method DisconnectTo(fp: nat, ghost p: seq<Block>, ghost st: State) returns (gone: seq<Disconnected>)
      requires p != [] && tip.height == |p| - 1 && FreshPath(p) && OnChain(p, st) && AboveAll(st.stale, |p|)
      requires (forall h :: fp < h < |p| ==> h in st.indexed) && Resident(p, st.indexed)
      modifies this`heightToHash, this`utxos, this`stats
      ensures OnChain(Trunk(p, fp), st)
      ensures OnlyEmission()
      ensures gone == Descending(p, fp)
    {
      hide OnChain, FreshPath;
      gone := [];
      var h := tip.height;
      ghost var u := p;
      assert p[..h + 1] == p;
      while h > fp
        invariant h < |p| && (h < fp ==> h == |p| - 1) && u == p[..h + 1] && OnChain(u, st)
        invariant OnlyEmission()
        invariant gone == Descending(p, h)
      {
        FreshPathPrefix(p, h + 1);
        PrefixOfTake(p, h);
        assert ResidentAt(p, h);
        assert AboveAll(st.stale, |u|);
        var top := DisconnectTop(h, u, st);
        gone := gone + top;
        u := p[..h];
        h := h - 1;
      }
      assert u == Trunk(p, fp);
    }

    // -------------------------------------------------------------- reorganisation: connecting

    /** The difficulty history of block `j` of the candidate chain: what the index shows up to the fork point, fork
        blocks above it. */
    method ReplayHistory(fork: seq<Block>, known: nat, fp: nat, j: nat, ghost p: seq<Block>, ghost c: seq<Block>,
                         ghost st: State)
      returns (w: seq<DifficultyBlock>)
      requires CandidateShape(c, fp) && Shows(st, p, fp)
      requires fp < j < |c| && fork == c[fp + 1..|c| - 1] && j - fp - 1 <= known <= |fork|
      ensures w == Window(st, p, c, WindowStart(j), j, fp)
    {
      w := [];
      var h := WindowStart(j);
      while h < j
        invariant WindowStart(j) <= h <= j
        invariant w == Window(st, p, c, WindowStart(j), h, fp)
      {
        if h <= fp {
          w := w + EntryAt(h);
        } else {
          var offset := h - fp - 1;
          if offset < known {
            w := w + [AsDifficultyBlock(fork[offset])];
          }
        }
        h := h + 1;
      }
    }

    /** Connect one validated block of the candidate. */
    method ConnectTop(b: Block, ghost p: seq<Block>, ghost c: seq<Block>, ghost st: State, ghost fp: nat)
      requires fp < b.height < |c| && c[b.height] == b && Midway(p, c, st, fp, b.height)
      modifies this`heightToHash, this`utxos, this`stats
      ensures Midway(p, c, st, fp, b.height + 1) && OnlyEmission()
    {
      hide MidIndex, Joined, Connect;
      JoinedNext(p, c, fp, b.height);
      SumsAppend(rules, Joined(p, c, fp, b.height), b);
      MidIndexNext(st, p, c, fp, b.height);
      heightToHash := heightToHash[b.height := b.hash];
      utxos := Connect(utxos, b.height, b.txs);
      stats := stats.(totalSupply := stats.totalSupply + rules.reward(b.height),
                      totalBurned := stats.totalBurned + BlockFeeBurn(rules, b));
    }

    /** Validate block `j` of the candidate chain against the blocks connected before it. */
    method ReplayVerdict(fb: Block, ghost p: seq<Block>, ghost c: seq<Block>, ghost st: State, ghost fp: nat,
                         ghost j: nat)
      returns (ok: bool)
      requires fp < j < |c| && fb == c[j] && LinkAt(c, j) && HoldsCandidate(c, st.cached)
      requires utxos == Replay(Joined(p, c, fp, j))
      ensures ok == ReplayValid(rules, st, p, c, fp, j)
    {
      assert Held(c, st.cached, j - 1);
      var parent := if fb.prev in blocks then Some(blocks[fb.prev]) else None;
      ok := rules.validate(fb, parent, utxos, None).Valid?;
    }

    /** Re-check the difficulty target of block `j` of the candidate chain. */
    method ReplayTarget(fb: Block, fork: seq<Block>, known: nat, fp: nat, ghost p: seq<Block>, ghost c: seq<Block>,
                        ghost st: State)
      returns (ok: bool)
      requires Replayable(p, c, st, fp) && fp < fb.height < |c| && c[fb.height] == fb
      requires fork == c[fp + 1..|c| - 1] && fb.height - fp - 1 <= known <= |fork|
      requires heightToHash == MidIndex(st, p, c, fp, fb.height)
      ensures ok == ReplayTargetOk(rules, st, p, c, fp, fb.height)
    {
      hide MidIndex, Window, Shows;
      ok := true;
      if fb.height >= 1 {
        MidwayShows(p, c, st, fp, fb.height);
        var w := ReplayHistory(fork, known, fp, fb.height, p, c, st);
        ok := |w| < 2 || fb.target == rules.targetFor(w, fb.height);
      }
    }

    /** Validate the next fork block and, if it passes, connect it. */
    method ReplayNext(fb: Block, fork: seq<Block>, fp: nat, ghost p: seq<Block>, ghost c: seq<Block>, ghost st: State)
      returns (ok: bool)
      requires Replayable(p, c, st, fp) && fp < fb.height < |c| - 1 && c[fb.height] == fb
      requires fork == c[fp + 1..|c| - 1] && Midway(p, c, st, fp, fb.height)
      modifies this`heightToHash, this`utxos, this`stats
      ensures ok == Replays(rules, st, p, c, fp, fb.height)
      ensures Midway(p, c, st, fp, if ok then fb.height + 1 else fb.height) && OnlyEmission()
    {
      hide MidIndex, Joined, Replay, ReplayValid, ReplayTargetOk, HoldsCandidate, HoldsStrays, Resident;
      assert LinkAt(c, fb.height);
      ok := ReplayVerdict(fb, p, c, st, fp, fb.height);
      if ok {
        ok := ReplayTarget(fb, fork, fb.height - fp - 1, fp, p, c, st);
        if ok {
          ConnectTop(fb, p, c, st, fp);
        }
      }
    }

    /** Connect the fork blocks in ascending order until one fails; returns the height reached. */
    method ConnectFork(fork: seq<Block>, fp: nat, ghost p: seq<Block>, ghost c: seq<Block>, ghost st: State)
      returns (j: nat)
      requires Replayable(p, c, st, fp) && fork == c[fp + 1..|c| - 1] && Midway(p, c, st, fp, fp + 1)
      modifies this`heightToHash, this`utxos, this`stats
      ensures fp < j < |c| && Midway(p, c, st, fp, j) && OnlyEmission()
      ensures ReplaysUpTo(rules, st, p, c, fp, j) && (j < |c| - 1 ==> !Replays(rules, st, p, c, fp, j))
    {
      hide Midway, Replays, HoldsCandidate, HoldsStrays, Resident;
      j := fp + 1;
      var ok := true;
      while j < fp + 1 + |fork| && ok
        invariant fp < j < |c| && Midway(p, c, st, fp, j) && OnlyEmission()
        invariant ReplaysUpTo(rules, st, p, c, fp, j) && (!ok ==> !Replays(rules, st, p, c, fp, j))
        decreases |c| - j, ok
      {
        var fb := fork[j - fp - 1];
        assert fb == c[j];
        ok := ReplayNext(fb, fork, fp, p, c, st);
        if ok {
          ReplaysOneMore(rules, st, p, c, fp, j);
          j := j + 1;
        }
      }
    }

    // -------------------------------------------------------------- reorganisation: rolling back

    /** No stray entry names a block of the candidate between the fork point and its last block. */
    ghost predicate NoneNamed(c: seq<Block>, st: State, fp: nat)
    {
      forall h {:trigger StrayNames(st.stale, c, h)} :: fp < h < |c| - 1 ==> !StrayNames(st.stale, c, h)
    }

    /** Roll back the connected fork blocks, highest first. With `guarded`, only fork blocks the height index still
        names are undone, which skips those that were never connected. */
    method UndoFork(fork: seq<Block>, guarded: bool, fp: nat, ghost p: seq<Block>, ghost c: seq<Block>, ghost st: State,
                    ghost j: nat)
      requires CandidateShape(c, fp) && fp < j < |c| && fork == c[fp + 1..|c| - 1] && (guarded || j == |c| - 1)
      requires NoneNamed(c, st, fp) && Midway(p, c, st, fp, j) && FreshPath(Joined(p, c, fp, j))
      modifies this`utxos, this`stats
      ensures LedgerOf(Trunk(p, fp)) && OnlyEmission()
    {
      hide MidIndex, Joined, Replay, SumBurn, SumSupply, FreshPath, LedgerOf;
      var m := fp + 1 + |fork|;
      while m > fp + 1
        invariant fp < m < |c| && LedgerOf(Joined(p, c, fp, if m < j then m else j)) && OnlyEmission()
      {
        m := m - 1;
        var fb := fork[m - fp - 1];
        assert fb == c[m];
        MidIndexAbove(st, p, c, fp, j, m);
        if !guarded || (fb.height in heightToHash && heightToHash[fb.height] == fb.hash) {
          JoinedNext(p, c, fp, m);
          JoinedFresh(p, c, fp, m + 1, j);
          TakeOff(fb, Joined(p, c, fp, m + 1));
          assert (Joined(p, c, fp, m) + [fb])[..|Joined(p, c, fp, m)|] == Joined(p, c, fp, m);
        }
      }
      JoinedFirst(p, c, fp);
    }

    /** Drop the height entries lo..hi. */
    method RemoveHeights(lo: nat, hi: nat)
      modifies this`heightToHash
      ensures heightToHash == old(heightToHash) - Heights(lo, hi + 1)
    {
      heightToHash := DropHeights(heightToHash, lo, hi + 1);
    }

    /** Put one disconnected block back on top of the chain `u`. */
    method PutBack(d: Disconnected, ghost b: Block, ghost u: seq<Block>, ghost keep: set<nat>,
                   ghost rest: map<nat, Hash>)
      requires d == Disconnected(|u|, b.hash, b.txs) && b.height == |u| && |u| in keep
      requires d.hash in blocks && blocks[d.hash] == b
      requires utxos == Replay(u) && heightToHash == rest + IndexMap(u, keep)
      modifies this`heightToHash, this`utxos
      ensures utxos == Replay(u + [b]) && heightToHash == rest + IndexMap(u + [b], keep)
    {
      hide IndexMap, Replay;
      SumsAppend(rules, u, b);
      IndexMapAppend(u, keep, b);
      OverlayUpdate(rest, IndexMap(u, keep), |u|, b.hash);
      heightToHash := heightToHash[d.height := d.hash];
      if d.hash in blocks {
        utxos := Connect(utxos, d.height, blocks[d.hash].txs);
      }
    }

    /** Put the disconnected blocks back, lowest first. */
    method Reapply(gone: seq<Disconnected>, fp: nat, ghost p: seq<Block>)
      requires p != [] && gone == Descending(p, fp) && utxos == Replay(Trunk(p, fp))
      requires Resident(p, Heights(fp + 1, |p|))
      modifies this`heightToHash, this`utxos
      ensures utxos == Replay(p) && heightToHash == old(heightToHash) + IndexMap(p, Heights(fp + 1, |p|))
    {
      hide IndexMap, Replay, Descending, Connect;
      ghost var rest := heightToHash;
      ghost var keep := Heights(fp + 1, |p|);
      ghost var u := Trunk(p, fp);
      var h := fp + 1;
      NothingIndexed(u, fp + 1, |p|);
      DescendingSize(p, fp);
      while h < fp + 1 + |gone|
        invariant fp < h && h <= fp + 1 + |gone| && u == Trunk(p, h - 1)
        invariant utxos == Replay(u) && heightToHash == rest + IndexMap(u, keep)
      {
        DescendingAt(p, fp);
        var d := gone[fp + |gone| - h];
        assert d == Disconnected(h, p[h].hash, p[h].txs) && ResidentAt(p, h) && u == p[..h];
        PutBack(d, p[h], u, keep, rest);
        TakeNext(p, h);
        assert h + 1 == |p| ==> p[..h + 1] == p;
        u := u + [p[h]];
        h := h + 1;
      }
      assert u == p;
    }

    /** Undo the fork and put the disconnected blocks back, with the tip and totals as they were. The height entries
        above `clearTo` that connecting the fork created stay behind. */
    method RollBack(fork: seq<Block>, guarded: bool, clearTo: nat, gone: seq<Disconnected>, fp: nat,
                    preTip: ChainTip, preStats: ChainStats,
                    ghost p: seq<Block>, ghost c: seq<Block>, ghost st: State, ghost j: nat)
      requires Replayable(p, c, st, fp) && NoneNamed(c, st, fp) && p != []
      requires fp < j < |c| && fork == c[fp + 1..|c| - 1] && (guarded || j == |c| - 1)
      requires Midway(p, c, st, fp, j) && FreshPath(Joined(p, c, fp, j))
      requires gone == Descending(p, fp) && clearTo >= |p| - 1
      requires (forall h :: h in st.indexed ==> h < |p|) && (forall h :: fp < h < |p| ==> h in st.indexed)
      modifies this`heightToHash, this`utxos, this`tip, this`stats
      ensures tip == preTip && stats == preStats && utxos == Replay(p)
      ensures heightToHash == HeightIndex(p, st.indexed, StraysAfter(st, c, fp, j, clearTo))
    {
      hide IndexMap, HeightIndex, MidIndex, StraysAfter, Joined, Replay, Descending, SumBurn, SumSupply, FreshPath,
           NoneNamed, HoldsCandidate, HoldsStrays, Resident, CandidateShape, AboveAll, Heights, Trunk;
      UndoFork(fork, guarded, fp, p, c, st, j);
      RemoveHeights(fp + 1, clearTo);
      assert Resident(p, Heights(fp + 1, |p|)) by {
        ResidentMore(p, st.indexed, Heights(fp + 1, |p|));
      }
      Reapply(gone, fp, p);
      RestoredIndex(st, p, c, fp, j, clearTo);
      tip := preTip;
      stats := preStats;
    }

    lemma {:induction false} ResidentMore(p: seq<Block>, keep: set<nat>, more: set<nat>)
      requires Resident(p, keep) && forall h :: h in more && h < |p| ==> h in keep
      ensures Resident(p, more)
    {
      forall h | 0 <= h < |p| && h in more ensures ResidentAt(p, h) {
        assert h in keep;
      }
    }

    // -------------------------------------------------------------- reorganisation: committing

    /** The memory of a node that has joined the candidate `c` above `fp` to what is left of `p`. */
    ghost predicate Spliced(p: seq<Block>, c: seq<Block>, st: State, fp: nat, work: nat)
      requires fp + 1 < |c|
      reads this`heightToHash, this`tip, this`stats, this`utxos
    {
      var u := Joined(p, c, fp, |c|);
      && heightToHash == MidIndex(st, p, c, fp, |c|) && tip == TipOf(c[|c| - 1]) && utxos == Replay(u)
      && stats == ChainStats(|c| - 1, c[|c| - 1].hash, |u|, SumTxs(u), SumSupply(rules, u), SumBurn(rules, u), work)
    }

    /** Make `b` the tip of the connected candidate chain and settle the totals. */
    method Adopt(b: Block, fork: seq<Block>, forkWork: nat, gone: seq<Disconnected>, fp: nat,
                 ghost p: seq<Block>, ghost c: seq<Block>, ghost st: State)
      requires CandidateShape(c, fp) && c[|c| - 1] == b && fork == c[fp + 1..|c| - 1] && gone == Descending(p, fp)
      requires Midway(p, c, st, fp, |c| - 1)
      requires stats.totalBlocks == |p| && stats.totalTransactions == SumTxs(p)
      modifies this`heightToHash, this`tip, this`stats, this`utxos
      ensures Spliced(p, c, st, fp, forkWork)
    {
      hide MidIndex, Joined, Replay, Descending, SumBurn, SumWork, SumTxs, SumSupply, Connect, CountTxs;
      ghost var u := Joined(p, c, fp, |c| - 1);
      JoinedNext(p, c, fp, |c| - 1);
      SumsAppend(rules, u, b);
      MidIndexNext(st, p, c, fp, |c| - 1);
      CountersSettle(p, c, fp);
      utxos := Connect(utxos, b.height, b.txs);
      tip := ChainTip(b.hash, b.height, b.timestamp);
      var reconnectedBlocks := |fork| + 1;
      var reconnectedTxs := SumTxs(fork) + |b.txs|;
      stats := ChainStats(
        b.height, b.hash,
        if stats.totalBlocks >= |gone| then stats.totalBlocks - |gone| + reconnectedBlocks else reconnectedBlocks,
        if stats.totalTransactions >= CountTxs(gone) then stats.totalTransactions - CountTxs(gone) + reconnectedTxs
        else reconnectedTxs,
        stats.totalSupply + rules.reward(b.height), stats.totalBurned + BlockFeeBurn(rules, b), forkWork);
      heightToHash := heightToHash[b.height := b.hash];
    }

    /** The persistent height index after the switch: the fork's entries set, higher old ones removed. */
    method SwitchHeights(index: map<nat, Hash>, b: Block, fork: seq<Block>, preHeight: nat,
                         ghost p: seq<Block>, ghost c: seq<Block>, ghost fp: nat)
      returns (heights: map<nat, Hash>)
      requires fp + 1 < |c| && c[|c| - 1] == b && fork == c[fp + 1..|c| - 1]
      requires preHeight == |p| - 1 && index == IndexMap(p, Heights(0, |p|))
      requires forall h :: 0 <= h < |c| ==> c[h].height == h
      ensures heights == SplicedHeights(p, c, fp)
    {
      hide IndexMap;
      heights := SetHeights(index, fork, c, fp + 1);
      OverlayStep(index, c, fp + 1, |c| - 1);
      heights := heights[b.height := b.hash];
      var top := if preHeight >= b.height then preHeight + 1 else b.height + 1;
      heights := DropHeights(heights, b.height + 1, top);
      assert Heights(|c|, top) == Heights(|c|, |p|);
    }

    /** Commit the switch to the database in one batch: the height index and the chain-state record, which keeps its
        last checkpoint. */
    method PersistReorg(b: Block, fork: seq<Block>, forkWork: nat, preHeight: nat,
                        ghost p: seq<Block>, ghost c: seq<Block>, ghost fp: nat)
      requires fp + 1 < |c| && c[|c| - 1] == b && fork == c[fp + 1..|c| - 1]
      requires preHeight == |p| - 1 && db.heights == IndexMap(p, Heights(0, |p|)) && db.state.Some?
      requires forall h :: 0 <= h < |c| ==> c[h].height == h
      modifies this`db
      ensures db.blocks == old(db).blocks && db.heights == SplicedHeights(p, c, fp)
      ensures db.state == Some(ChainStateData(b.hash, b.height, forkWork, stats.totalSupply,
                                              stats.totalBurned % (U64_MAX + 1), old(db).state.value.lastCheckpoint))
    {
      var heights := SwitchHeights(db.heights, b, fork, preHeight, p, c, fp);
      db := db.(heights := heights,
                state := Some(ChainStateData(b.hash, b.height, forkWork, stats.totalSupply,
                                             stats.totalBurned % (U64_MAX + 1), db.state.value.lastCheckpoint)));
    }

    // -------------------------------------------------------------- reorganisation

    /** The node is on chain `p`, and the candidate chain `c` goes on above `fp`, no lower than the finality floor. */
    ghost predicate ReorgReady(p: seq<Block>, c: seq<Block>, st: State, fp: nat)
      reads this`blocks, this`heightToHash, this`tip, this`stats, this`utxos
    {
      && p != [] && OnChain(p, st) && FreshPath(p) && tip.height == |p| - 1
      && stats.totalBlocks == |p| && stats.totalTransactions == SumTxs(p)
      && Replayable(p, c, st, fp) && NoneNamed(c, st, fp)
      && (forall h :: h in st.indexed ==> h < |p|) && (forall h :: fp < h < |p| ==> h in st.indexed)
    }

    /** Switch the in-memory chain from `p` to `c`, validating every fork block and then `b` itself; on failure restore
        it. */
    method TryReorg(b: Block, forkWork: nat, fp: nat, ghost m: map<Hash, Block>, ghost p: seq<Block>,
                    ghost c: seq<Block>, ghost st: State)
      returns (ok: bool, fork: seq<Block>, gone: seq<Disconnected>)
      requires Sound(rules) && ReorgReady(p, c, st, fp) && c[|c| - 1] == b
      requires SeesAncestors(m, c[..|c| - 1], b.prev)
      modifies this`heightToHash, this`tip, this`stats, this`utxos
      ensures fork == c[fp + 1..|c| - 1] && gone == Descending(p, fp)
      ensures ok <==> FirstBad(rules, st, p, c, fp, fp + 1) == |c|
      ensures ok ==> Spliced(p, c, st, fp, forkWork)
      ensures !ok ==> tip == old(tip) && stats == old(stats) && utxos == old(utxos)
      ensures !ok ==> heightToHash == HeightIndex(p, st.indexed,
                                                  Leftover(rules, st, p, c, fp, FirstBad(rules, st, p, c, fp, fp + 1)))
    {
      hide IndexMap, Replay, Descending, SumBurn, SumSupply, SumWork, SumTxs, FirstBad, IsLineage, Window,
           StraysAfter, Leftover, ReplayValid, ReplayTargetOk, HoldsCandidate, HoldsStrays, Resident, FreshPath,
           SeesBlocks, MidIndex, HeightIndex, Joined, NoneNamed, Spliced;
      var preTip, preStats := tip, stats;
      gone := DisconnectTo(fp, p, st);
      MidIndexFirst(st, p, c, fp);
      JoinedFirst(p, c, fp);
      fork := CollectForkChain(b, fp, m, c[..|c| - 1]);
      var j := ConnectFork(fork, fp, p, c, st);
      ReplayedIsFresh(rules, st, p, c, fp, j);
      ok := j == fp + 1 + |fork|;
      if ok {
        assert LinkAt(c, j);
        ok := ReplayVerdict(b, p, c, st, fp, j);
      }
      if !ok {
        FirstBadIs(rules, st, p, c, fp, fp + 1, j);
        var top := if tip.height > preTip.height then tip.height else preTip.height;
        LeftoverIs(rules, st, p, c, fp, j, top);
        RollBack(fork, true, top, gone, fp, preTip, preStats, p, c, st, j);
      } else {
        ok := ReplayTarget(b, fork, |fork|, fp, p, c, st);
        if !ok {
          FirstBadIs(rules, st, p, c, fp, fp + 1, j);
          var top := if preTip.height > b.height then preTip.height else b.height;
          LeftoverIs(rules, st, p, c, fp, j, top);
          RollBack(fork, false, top, gone, fp, preTip, preStats, p, c, st, j);
        } else {
          ReplaysOneMore(rules, st, p, c, fp, j);
          FirstBadIs(rules, st, p, c, fp, fp + 1, j + 1);
          Adopt(b, fork, forkWork, gone, fp, p, c, st);
        }
      }
    }

    lemma {:induction false} CandidateHeld(b: Block, st: State, c: seq<Block>)
      requires Rooted(rules, st) && st.cached <= st.store.Keys && Attaches(st.store, b)
      requires c == Ancestry(rules.genesis, st.store, b.prev) + [b]
      requires blocks == Cached(Stored(st, b).store, Stored(st, b).cached)
      ensures HoldsCandidate(c, st.cached)
    {
      forall h | 0 <= h < |c| - 1 ensures Held(c, st.cached, h) {
      }
    }

    lemma {:induction false} ActiveHeld(b: Block, st: State, p: seq<Block>, fp: nat)
      requires Sane(rules, st) && Attaches(st.store, b) && p == Path(rules, st) && !BelowFloor(st, fp)
      requires blocks == Cached(Stored(st, b).store, Stored(st, b).cached)
      ensures forall h :: fp < h < |p| ==> h in st.indexed
      ensures Resident(p, st.indexed) && HoldsStrays(st) && AboveAll(st.stale, |p|)
    {
      hide FreshPath, TreeTimeOk, SumWork, Ancestry;
      forall h | fp < h < |p| ensures h in st.indexed {
        assert MustIndex(p, h);
      }
      forall h | 0 <= h < |p| && h in st.indexed ensures ResidentAt(p, h) {
        assert CachedAt(p, st.cached, st.indexed, h);
      }
      forall h: nat | h in st.stale ensures HeldStray(st, h) {
      }
    }

    lemma {:induction false} CandidateShaped(b: Block, st: State, c: seq<Block>, fp: nat)
      requires Rooted(rules, st) && Attaches(st.store, b)
      requires c == Ancestry(rules.genesis, st.store, b.prev) + [b] && fp + 1 < |c|
      ensures CandidateShape(c, fp)
    {
      var q := c[..|c| - 1];
      assert q == Ancestry(rules.genesis, st.store, b.prev);
      forall i | 0 < i < |c| ensures LinkAt(c, i) {
        assert i < |q| ==> LinkAt(q, i);
      }
    }

    lemma {:induction false} NothingNamedAbove(st: State, b: Block, q: seq<Block>)
      requires Rooted(rules, st) && IsLineage(rules.genesis, st.store, q)
      ensures NoneNamed(q + [b], st, ForkPoint(rules, st, q))
    {
      hide Named;
      forall h | ForkPoint(rules, st, q) < h < |q| ensures !StrayNames(st.stale, q + [b], h) {
        assert !StrayNames(st.stale, q, h);
      }
    }

    lemma {:induction false} CoherentReorgReady(b: Block, st: State, q: seq<Block>, fp: nat)
      requires Sane(rules, st) && Attaches(st.store, b) && q == Ancestry(rules.genesis, st.store, b.prev)
      requires fp == ForkPoint(rules, st, q) && !BelowFloor(st, fp)
      requires Coherent() && s == Stored(st, b)
      ensures ReorgReady(Path(rules, st), q + [b], st, fp)
    {
      hide IndexMap, HeightIndex, Cached, Replay, SumBurn, SumWork, SumTxs, SumReward, SumSupply, Ancestry, Named,
           FreshPath, TreeTimeOk, BelowFloor, DatabaseOf, HoldsCandidate, HoldsStrays, Resident, NoneNamed, AboveAll;
      ForkShape(rules, st, b, q);
      StoredPath(rules, st, b);
      SupplyByHeight(rules, Path(rules, st));
      CandidateHeld(b, st, q + [b]);
      ActiveHeld(b, st, Path(rules, st), fp);
      CandidateShaped(b, st, q + [b], fp);
      NothingNamedAbove(st, b, q);
    }

    /** The database after the switch. */
    ghost predicate SplicedDatabase(p: seq<Block>, c: seq<Block>, st: State, fp: nat, work: nat)
      requires fp + 1 < |c|
      reads this`db
    {
      var u, b := Joined(p, c, fp, |c|), c[|c| - 1];
      db == Database(st.store[b.hash := b], SplicedHeights(p, c, fp),
                     Some(ChainStateData(b.hash, |c| - 1, work, SumSupply(rules, u),
                                         SumBurn(rules, u) % (U64_MAX + 1), st.lastCheckpoint)))
    }

    /** If the fork point is on the active chain, the object represents the switched chain. */
    lemma {:induction false} SwitchedCoherent(b: Block, st: State, c: seq<Block>, fp: nat)
      requires Rooted(rules, st) && Attaches(st.store, b) && AboveAll(st.stale, |Path(rules, st)|)
      requires c == Ancestry(rules.genesis, st.store, b.prev) + [b]
      requires fp + 1 < |c| && SharesUpTo(Path(rules, st), c, fp) && |c| == b.height + 1
      requires s == Reorganised(st, b, fp) && blocks == Cached(s.store, s.cached)
      requires Spliced(Path(rules, st), c, st, fp, 1 + SumWork(c))
      requires SplicedDatabase(Path(rules, st), c, st, fp, 1 + SumWork(c))
      ensures Coherent() && RecordsTotal()
    {
      hide IndexMap, HeightIndex, MidIndex, Joined, Cached, Replay, SumBurn, SumWork, SumTxs, SumReward, SumSupply,
           UpTo, Heights, AboveAll, SharesUpTo, SplicedHeights, Ancestry, StoreOk, IsLineage;
      var p := Path(rules, st);
      ReorganisedPath(rules, st, b, fp);
      JoinedIs(p, c, fp, |c|);
      assert c[..|c|] == c;
      CandidateSupply(b, st, c);
      SwitchedMemory(st, p, c, fp);
      SwitchedIndex(p, c, fp);
    }

    lemma {:induction false} CandidateSupply(b: Block, st: State, c: seq<Block>)
      requires Rooted(rules, st) && Attaches(st.store, b) && c == Ancestry(rules.genesis, st.store, b.prev) + [b]
      ensures c != [] && c[|c| - 1] == b && SumSupply(rules, c) == SumReward(rules, |c|)
    {
      SupplyByHeight(rules, c);
    }

    /** A rolled-back attempt leaves the stored block and the surviving height entries. */
    lemma {:induction false} RestoredCoherent(b: Block, st: State, left: map<nat, Hash>)
      requires Rooted(rules, st) && Attaches(st.store, b) && s == Stored(st, b).(stale := left) && HoldsStored(b, st)
      requires heightToHash == HeightIndex(Path(rules, st), st.indexed, left)
      ensures Coherent()
    {
      hide IndexMap, HeightIndex, Replay, StatsOf, Cached, SumBurn, SumReward;
      StoredPath(rules, st, b);
      assert Path(rules, s) == Path(rules, Stored(st, b));
    }

    /** All but the height index of a node on the chain of `st` that has stored `b`. */
    ghost predicate HoldsStored(b: Block, st: State)
      requires Rooted(rules, st)
      reads this
    {
      && blocks == Cached(Stored(st, b).store, Stored(st, b).cached) && tip == TipOf(st.store[st.tip])
      && stats == StatsOf(rules, Path(rules, st), st.base) && utxos == Replay(Path(rules, st))
      && StoredDatabase(b, st)
    }

    /** Its database. */
    ghost predicate StoredDatabase(b: Block, st: State)
      requires Rooted(rules, st)
      reads this`db
    {
      && db.state.Some? && db.blocks == st.store[b.hash := b]
      && db.heights == IndexMap(Path(rules, st), Heights(0, Height(st) + 1))
      && db.state.value == RecordOf(rules, Path(rules, st), db.state.value.totalDifficulty, st.lastCheckpoint)
    }

    lemma {:induction false} CoherentHolds(b: Block, st: State)
      requires Rooted(rules, st) && Attaches(st.store, b) && Represents(Stored(st, b))
      ensures HoldsStored(b, st)
    {
      hide IndexMap, HeightIndex, Replay, StatsOf, Cached, SumBurn, SumReward;
      StoredPath(rules, st, b);
    }

    /** The node has joined the fork ending in `b` to its active chain at a block that is not on it. */
    ghost predicate Grafted(st: State, b: Block, q: seq<Block>)
      requires Rooted(rules, st) && IsLineage(rules.genesis, st.store, q)
      reads this
    {
      var p, c, fp := Path(rules, st), q + [b], ForkPoint(rules, st, q);
      && Spliced(p, c, st, fp, 1 + SumWork(c)) && SplicedDatabase(p, c, st, fp, 1 + SumWork(c))
      && blocks == Cached(Stored(st, b).store, Stored(st, b).cached)
    }

    /** Commit the switch once it is made in memory. */
    method CommitSwitch(b: Block, fork: seq<Block>, forkWork: nat, preHeight: nat, ghost fp: nat, ghost st: State,
                        ghost q: seq<Block>)
      requires Rooted(rules, st) && StraysAbove(st) && Attaches(st.store, b)
      requires q == Ancestry(rules.genesis, st.store, b.prev) && fp == ForkPoint(rules, st, q)
      requires forkWork == 1 + SumWork(q + [b]) && fork == (q + [b])[fp + 1..|q|] && preHeight == Height(st)
      requires Spliced(Path(rules, st), q + [b], st, fp, forkWork) && StoredDatabase(b, st)
      requires blocks == Cached(Stored(st, b).store, Stored(st, b).cached)
      modifies this`db, this`s
      ensures RecordsTotal()
      ensures if fp <= Height(st) then Coherent() && s == Reorganised(st, b, fp) else Grafted(st, b, q)
    {
      hide IndexMap, HeightIndex, MidIndex, Joined, Cached, Replay, SumBurn, SumWork, SumTxs, SumReward, SumSupply,
           UpTo, Named, Meet, Ancestry, SplicedHeights, Represents, StoreOk;
      ghost var p, c := Path(rules, st), q + [b];
      ForkShape(rules, st, b, q);
      PersistReorg(b, fork, forkWork, preHeight, p, c, fp);
      if fp <= Height(st) {
        s := Reorganised(st, b, fp);
        SwitchedCoherent(b, st, c, fp);
      }
    }

    /** Attempt the switch to the fork ending in the stored block `b`. */
    method Reorganise(b: Block, forkWork: nat, fp: nat, ghost st: State, ghost q: seq<Block>) returns (status: Status)
      requires Sound(rules) && Sane(rules, st) && Attaches(st.store, b) && WorkFits(rules, st, b)
      requires q == Ancestry(rules.genesis, st.store, b.prev) && TimestampOk(q, b) && forkWork == ForkWork(q + [b])
      requires fp == ForkPoint(rules, st, q) && !BelowFloor(st, fp)
      requires Coherent() && s == Stored(st, b)
      modifies this`heightToHash, this`tip, this`stats, this`utxos, this`db, this`s
      ensures var p, c := Path(rules, st), q + [b];
              var bad := FirstBad(rules, st, p, c, fp, fp + 1);
              if bad < |c| then
                && Coherent() && s == Stored(st, b).(stale := Leftover(rules, st, p, c, fp, bad))
                && status == Rejected && db == old(db)
              else
                && status == AcceptedReorg(OrphanedTxs(Descending(p, fp))) && RecordsTotal()
                && if fp <= Height(st) then Coherent() && s == Reorganised(st, b, fp) else Grafted(st, b, q)
    {
      hide IndexMap, HeightIndex, MidIndex, Joined, Cached, Replay, SumBurn, SumWork, SumTxs, SumReward, SumSupply,
           UpTo, FirstBad, Leftover, Descending, Named, Meet, FreshPath, TreeTimeOk, CacheOk, Floor, OrphanedTxs,
           ReorgReady, StoreOk, Ancestry, SplicedHeights, BelowFloor, Represents, TimestampOk, Spliced,
           StoredDatabase, StraysAbove, SeesBlocks, SeesChain, Grafted, RecordsTotal;
      ghost var p, c := Path(rules, st), q + [b];
      StoredPath(rules, st, b);
      ForkShape(rules, st, b, q);
      CoherentReorgReady(b, st, q, fp);
      StoredSees(b, st, q);
      CoherentHolds(b, st);
      assert c[..|c| - 1] == q;
      var preHeight := tip.height;
      var ok, fork, gone := TryReorg(b, forkWork, fp, s.store, p, c, st);
      if ok {
        CommitSwitch(b, fork, forkWork, preHeight, fp, st, q);
        status := AcceptedReorg(OrphanedTxs(gone));
      } else {
        status := Rejected;
        s := s.(stale := Leftover(rules, st, p, c, fp, FirstBad(rules, st, p, c, fp, fp + 1)));
        RestoredCoherent(b, st, s.stale);
      }
    }

    lemma {:induction false} StoredSees(b: Block, st: State, q: seq<Block>)
      requires Sane(rules, st) && Attaches(st.store, b) && q == Ancestry(rules.genesis, st.store, b.prev)
      requires TimestampOk(q, b)
      requires Coherent() && s == Stored(st, b)
      ensures SeesAncestors(s.store, q, b.prev) && SeesChain(s.store, Path(rules, st), st.stale) && b.height == |q|
    {
      StoredSane(rules, st, b);
      CoherentSees();
      AttachKeepsTree(rules.genesis, st.store, b);
      AncestrySubmap(rules.genesis, st.store, s.store, b.prev);
    }

    // -------------------------------------------------------------- adding a block

    /** Fork choice, depth rule and finality floor, in order: why the fork ending in `b` does not get to reorganise the
        chain, and otherwise the fork point. */
    method ChooseFork(b: Block, ghost st: State, ghost q: seq<Block>)
      returns (refused: Option<Status>, fp: nat, forkWork: nat)
      requires Sane(rules, st) && Attaches(st.store, b)
      requires q == Ancestry(rules.genesis, st.store, b.prev) && TimestampOk(q, b)
      requires Coherent() && s == Stored(st, b)
      ensures var c, found := q + [b], ForkPoint(rules, st, q);
              && found < b.height && forkWork == ForkWork(c) && (refused.None? ==> fp == found)
              && refused ==
                 if !Preferred(rules, st, b, c) then Some(AcceptedFork)
                 else if !DepthOk(rules, st, b, c, found) then Some(ReorgTooDeep)
                 else if BelowFloor(st, found) then Some(Rejected) else None
    {
      hide IndexMap, SumWork, FreshPath, TreeTimeOk, CacheOk, IsLineage, Ancestry, Named, Acceptable, StraysAbove,
           SeesBlocks, SeesChain, SharesUpTo, Represents, TimestampOk;
      StoredPath(rules, st, b);
      ForkShape(rules, st, b, q);
      StoredSees(b, st, q);
      CoherentTip();
      fp := 0;
      forkWork := ForkCumulativeWork(b, s.store, q);
      var takeFork := forkWork > stats.totalDifficulty || (forkWork == stats.totalDifficulty && b.hash < tip.hash);
      if !takeFork {
        return Some(AcceptedFork), fp, forkWork;
      }
      var found := FindForkPoint(b, s.store, Path(rules, st), st.stale, q);
      fp := found.value;
      var depth := b.height - fp;
      if !Acceptable(depth, forkWork, stats.totalDifficulty, tip.height, rules.maxDepth) {
        return Some(ReorgTooDeep), fp, forkWork;
      }
      var floor := tip.height - tip.height % CHECKPOINT_INTERVAL;
      if floor > 0 && fp < floor {
        return Some(Rejected), fp, forkWork;
      }
      return None, fp, forkWork;
    }

    /** Decide what a stored fork block does to the active chain. */
    method AddFork(b: Block, ghost st: State, ghost q: seq<Block>) returns (status: Status)
      requires Sound(rules) && Sane(rules, st) && Attaches(st.store, b) && WorkFits(rules, st, b)
      requires q == Ancestry(rules.genesis, st.store, b.prev) && TimestampOk(q, b)
      requires Coherent() && s == Stored(st, b)
      modifies this`heightToHash, this`tip, this`stats, this`utxos, this`db, this`s
      ensures if GraftsOnto(rules, st, b, q) then Grafted(st, b, q) && status == AcceptedReorg([])
              else Coherent() && (s, status) == DeliverFork(rules, st, b, q)
      ensures !status.Accepted? && if status.AcceptedReorg? then RecordsTotal() else db == old(db)
    {
      hide IndexMap, SumWork, FirstBad, Leftover, Descending, FreshPath, TreeTimeOk, CacheOk, OrphanedTxs, IsLineage,
           Ancestry, Named, StraysAbove, Reorganised, RecordsTotal, Grafted, Represents, WorkFits, TimestampOk,
           Preferred, DepthOk;
      var refused, fp, forkWork := ChooseFork(b, st, q);
      if refused.Some? {
        return refused.value;
      }
      NothingAbove(Path(rules, st), fp);
      status := Reorganise(b, forkWork, fp, st, q);
    }

    /** Nothing is disconnected for a fork point above the tip. */
    lemma {:induction false} NothingAbove(p: seq<Block>, fp: nat)
      ensures fp >= |p| ==> Descending(p, fp) == [] && OrphanedTxs(Descending(p, fp)) == []
    {
    }

    /** What survives a graft: every stored block, a tip that wins the fork choice against the old one, and the whole
        old chain, at its heights, in memory and in the database. */
    lemma {:induction false} GraftKeeps(st: State, b: Block, q: seq<Block>, h: nat)
      requires Sane(rules, st) && Attaches(st.store, b) && q == Ancestry(rules.genesis, st.store, b.prev)
      requires GraftsOnto(rules, st, b, q) && WorkFits(rules, st, b) && Grafted(st, b, q)
      ensures db.blocks == st.store[b.hash := b] && tip.hash == b.hash && tip.height > Height(st)
      ensures Beats(stats.totalDifficulty, tip.hash, TotalWork(rules, st), st.tip)
      ensures h <= Height(st) ==>
                && GetBlockHash(h) == Some(Path(rules, st)[h].hash)
                && h in db.heights && db.heights[h] == Path(rules, st)[h].hash
                && (h in heightToHash <==> h in st.indexed)
    {
      hide IndexMap, Replay, Ancestry, Named, SumWork, SumBurn, SumSupply, SumReward, SumTxs, Joined, FreshPath,
           TreeTimeOk, FirstBad, Acceptable, Heights, MidIndex, IsLineage;
      var p, c, fp := Path(rules, st), q + [b], ForkPoint(rules, st, q);
      ForkShape(rules, st, b, q);
      if h <= Height(st) {
        MidIndexBelow(st, p, c, fp, |c|, h);
        IndexMapAt(p, st.indexed, h);
        IndexMapAt(p, Heights(0, |p|), h);
        IndexMapAt(c, Heights(fp + 1, |c|), h);
      }
    }

    /** A grafted node holds no chain: its stored index has the new tip's height but not the fork point's. */
    lemma {:induction false} GraftedRepresentsNothing(st: State, b: Block, q: seq<Block>, t: State)
      requires Rooted(rules, st) && Attaches(st.store, b) && q == Ancestry(rules.genesis, st.store, b.prev)
      requires ForkPoint(rules, st, q) > Height(st) && Grafted(st, b, q)
      ensures !Represents(t)
    {
      hide IndexMap, Replay, Ancestry, Named, SumWork, SumBurn, SumSupply, SumReward, MidIndex, Joined, Heights;
      var p, c, fp := Path(rules, st), q + [b], ForkPoint(rules, st, q);
      IndexMapAt(p, Heights(0, |p|), fp);
      IndexMapAt(c, Heights(fp + 1, |c|), fp);
      assert fp !in db.heights;
      if Rooted(rules, t) {
        IndexMapAt(Path(rules, t), Heights(0, |Path(rules, t)|), fp);
      }
    }

    lemma {:induction false} GraftedAbove(st: State, b: Block)
      requires Sound(rules) && Rooted(rules, st) && Grafts(rules, st, b)
      ensures Attaches(st.store, b) && ForkPoint(rules, st, Ancestry(rules.genesis, st.store, b.prev)) > Height(st)
    {
    }

    /** Deliver one block to the node. Exactly unless the block is grafted, the object represents a chain again, the one
        specified; if it is, the object holds exactly the two chains joined. */
    method AddBlock(b: Block) returns (status: Status)
      requires Sound(rules) && Coherent() && Sane(rules, s) && WorkFits(rules, s, b)
      modifies this
      ensures !Grafts(rules, old(s), b) ==>
                Coherent() && Sane(rules, s) && (s, status) == Deliver(rules, old(s), b)
      ensures Grafts(rules, old(s), b) ==>
                && Grafted(old(s), b, Ancestry(rules.genesis, old(s).store, b.prev)) && status == AcceptedReorg([])
      ensures (exists t :: Represents(t)) <==> !Grafts(rules, old(s), b)
      ensures if status.Accepted? || status.AcceptedReorg? then RecordsTotal()
              else db.state == old(db).state
    {
      hide IndexMap, Cached, Replay, SumBurn, SumWork, SumTxs, SumReward, FreshPath, TreeTimeOk, CacheOk, IsLineage,
           StoreOk, Ancestry, DeliverFork, Extended, GraftsOnto, Grafted, Represents;
      ghost var st := s;
      CoherentTip();
      var verdict := ScreenBlock(b);
      if verdict.Some? {
        return verdict.value;
      }
      var isMainChain := b.prev == tip.hash;
      StoreBlock(b);
      if isMainChain {
        Extend(b, st);
        status := Accepted;
      } else {
        status := AddFork(b, st, Ancestry(rules.genesis, st.store, b.prev));
      }
      if !Grafts(rules, st, b) {
        DeliverSane(rules, st, b);
      } else {
        forall t ensures !Represents(t) {
          GraftedAbove(st, b);
          GraftedRepresentsNothing(st, b, Ancestry(rules.genesis, st.store, b.prev), t);
        }
      }
    }
  }
}
