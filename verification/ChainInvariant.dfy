/** Delivering a block keeps the chain well formed. */
module ChainInvariant {
  import opened Ledger
  import opened Lineage
  import opened ForkChoice
  import opened MedianTime
  import opened ChainModel

  /** The block's own lineage does not overflow the 128-bit work accumulator. */
  ghost predicate WorkFits(r: Rules, s: State, b: Block)
    requires StoreOk(r.genesis, s.store)
  {
    Attaches(s.store, b) ==> 1 + SumWork(Ancestry(r.genesis, s.store, b.prev) + [b]) <= U128_MAX
  }

  /** Ancestor paths that were there before `b` was stored are the same afterwards. */
  lemma {:induction false} StoredPath(r: Rules, s: State, b: Block)
    requires Rooted(r, s) && Attaches(s.store, b)
    ensures Rooted(r, Stored(s, b)) && Path(r, Stored(s, b)) == Path(r, s)
  {
    AttachKeepsTree(r.genesis, s.store, b);
    AncestrySubmap(r.genesis, s.store, Stored(s, b).store, s.tip);
  }

  lemma {:induction false} PrefixOfPrefix(p: seq<Block>, q: seq<Block>, m: nat, n: nat)
    requires m <= n <= |p| && n <= |q| && p[..n] == q[..n]
    ensures p[..m] == q[..m]
  {
    assert p[..m] == p[..n][..m];
    assert q[..m] == q[..n][..m];
  }

  lemma {:induction false} TimeOkAppend(q: seq<Block>, b: Block)
    requires TimeOk(q) && (|q| >= MTP_WINDOW ==> b.timestamp > MedianTimePast(q))
    ensures TimeOk(q + [b])
  {
    var c := q + [b];
    forall i | MTP_WINDOW <= i < |c| ensures LaterThanMedian(c, i) {
      if i < |q| {
        assert LaterThanMedian(q, i) && c[..i] == q[..i];
      } else {
        assert c[..i] == q;
      }
    }
  }

  lemma {:induction false} AttachTimeOk(g: Block, m: map<Hash, Block>, b: Block)
    requires StoreOk(g, m) && TreeTimeOk(g, m) && Attaches(m, b)
    requires TimestampOk(Ancestry(g, m, b.prev), b)
    ensures StoreOk(g, m[b.hash := b]) && TreeTimeOk(g, m[b.hash := b])
  {
    var w := m[b.hash := b];
    AttachKeepsTree(g, m, b);
    assert LineageTimeOk(g, m, b.prev);
    TimeOkAppend(Ancestry(g, m, b.prev), b);
    forall h | h in w ensures LineageTimeOk(g, w, h) {
      if h != b.hash {
        assert LineageTimeOk(g, m, h);
        AncestrySubmap(g, m, w, h);
      }
    }
  }

  /** Storing a side-chain block keeps the chain invariant. */
  lemma {:induction false} StoredSane(r: Rules, s: State, b: Block)
    requires Sane(r, s) && Attaches(s.store, b)
    requires TimestampOk(Ancestry(r.genesis, s.store, b.prev), b)
    ensures Sane(r, Stored(s, b)) && Path(r, Stored(s, b)) == Path(r, s)
  {
    StoredPath(r, s, b);
    AttachTimeOk(r.genesis, s.store, b);
    CacheIgnores(Path(r, s), s.cached, s.indexed, b.hash);
  }

  /** Caching a block that is not on the chain does not disturb the cache invariant. */
  lemma {:induction false} CacheIgnores(p: seq<Block>, cached: set<Hash>, indexed: set<nat>, x: Hash)
    requires CacheOk(p, cached, indexed)
    requires forall h :: 0 <= h < |p| ==> p[h].hash != x
    ensures CacheOk(p, cached + {x}, indexed)
  {
    forall h | 0 <= h < |p| ensures CachedAt(p, cached + {x}, indexed, h) {
      assert CachedAt(p, cached, indexed, h);
    }
  }

  // ---------------------------------------------------------------- eviction

  /** What trimming does: only evictable heights lose their entries, and each loses both of them. */
  lemma {:induction false} EvictFromKeeps(p: seq<Block>, cached: set<Hash>, indexed: set<nat>, h: nat, n: nat)
    requires h <= |p|
    requires forall i, j :: 0 <= i < j < |p| ==> p[i].hash != p[j].hash
    requires forall i {:trigger CachedAt(p, cached, indexed, i)} :: 0 <= i < |p| ==> CachedAt(p, cached, indexed, i)
    ensures var (c, x) := EvictFrom(p, cached, indexed, h, n);
            && c <= cached && x <= indexed
            && (forall i {:trigger CachedAt(p, c, x, i)} :: 0 <= i < |p| ==> CachedAt(p, c, x, i))
            && (forall i :: i in indexed && i !in x ==> Evictable(|p| - 1, i, indexed))
    decreases |p| - h
  {
    if h == |p| || n == 0 {
    } else if Evictable(|p| - 1, h, indexed) {
      forall i | 0 <= i < |p| ensures CachedAt(p, cached - {p[h].hash}, indexed - {h}, i) {
        assert CachedAt(p, cached, indexed, i);
      }
      EvictFromKeeps(p, cached - {p[h].hash}, indexed - {h}, h + 1, n - 1);
    } else {
      EvictFromKeeps(p, cached, indexed, h + 1, n);
    }
  }

  lemma {:induction false} LineageHashesDistinct(g: Block, m: map<Hash, Block>, p: seq<Block>)
    requires IsLineage(g, m, p)
    ensures forall i, j :: 0 <= i < j < |p| ==> p[i].hash != p[j].hash
  {
    forall i, j | 0 <= i < j < |p| ensures p[i].hash != p[j].hash {
      assert p[i].height == i && p[j].height == j;
    }
  }

  lemma {:induction false} EvictSane(r: Rules, s: State)
    requires Sane(r, s)
    ensures Sane(r, Evict(r, s))
    ensures Evict(r, s) == s.(cached := Evict(r, s).cached, indexed := Evict(r, s).indexed)
  {
    if |s.cached| > MAX_BLOCK_CACHE {
      var p := Path(r, s);
      LineageHashesDistinct(r.genesis, s.store, p);
      EvictFromKeeps(p, s.cached, s.indexed, 0, |s.cached| - MAX_BLOCK_CACHE);
      var t := Evict(r, s);
      assert Path(r, t) == p;
      assert CacheOk(p, t.cached, t.indexed);
    }
  }

  // ---------------------------------------------------------------- extending

  lemma {:induction false} GrownPath(r: Rules, s: State, b: Block)
    requires Rooted(r, s) && Attaches(s.store, b) && b.prev == s.tip
    ensures Rooted(r, Grown(s, b)) && Path(r, Grown(s, b)) == Path(r, s) + [b]
  {
    AttachKeepsTree(r.genesis, s.store, b);
  }

  lemma {:induction false} GrownSane(r: Rules, s: State, b: Block)
    requires Sane(r, s) && Attaches(s.store, b) && b.prev == s.tip && WorkFits(r, s, b)
    requires Fresh(Replay(Path(r, s)), b.txs)
    requires TimestampOk(Ancestry(r.genesis, s.store, b.prev), b)
    ensures Sane(r, Grown(s, b)) && Path(r, Grown(s, b)) == Path(r, s) + [b]
    ensures s.stale == map[] ==> WellFormed(r, Grown(s, b))
  {
    var t := Grown(s, b);
    GrownPath(r, s, b);
    AttachTimeOk(r.genesis, s.store, b);
    FreshPathAppend(Path(r, s), b);
    FloorMonotone(Height(s), Height(t));
    CacheIgnores(Path(r, s), s.cached, s.indexed, b.hash);
    CacheGrows(Path(r, s), t.cached, s.indexed, b);
  }

  lemma {:induction false} CacheGrows(p: seq<Block>, cached: set<Hash>, indexed: set<nat>, b: Block)
    requires |p| > 0 && CacheOk(p, cached, indexed) && b.hash in cached
    ensures CacheOk(p + [b], cached, indexed + {|p|})
  {
    FloorMonotone(|p| - 1, |p|);
    var c := p + [b];
    var x := indexed + {|p|};
    forall h | 0 <= h < |c| ensures CachedAt(c, cached, x, h) {
      if h < |p| {
        assert CachedAt(p, cached, indexed, h);
      }
    }
    forall h | MustIndex(c, h) ensures h in x {
      if h < |p| {
        assert MustIndex(p, h);
      }
    }
  }

  lemma {:induction false} ExtendedSane(r: Rules, s: State, b: Block)
    requires Sane(r, s) && Attaches(s.store, b) && b.prev == s.tip && WorkFits(r, s, b)
    requires Fresh(Replay(Path(r, s)), b.txs)
    requires TimestampOk(Ancestry(r.genesis, s.store, b.prev), b)
    ensures Sane(r, Extended(r, s, b)) && Path(r, Extended(r, s, b)) == Path(r, s) + [b]
    ensures Extended(r, s, b).stale == s.stale - {b.height}
  {
    GrownSane(r, s, b);
    EvictSane(r, Grown(s, b));
  }

  // ---------------------------------------------------------------- reorganising

  /** The fork point found is the highest common ancestor exactly when no stray entry names an ancestor of the block,
      and it is above the tip otherwise. */
  lemma {:induction false} ForkPointIs(r: Rules, s: State, q: seq<Block>)
    requires Rooted(r, s) && IsLineage(r.genesis, s.store, q) && StraysAbove(s)
    ensures ForkPoint(r, s, q) == Meet(Path(r, s), q, |q| - 1) <==> NoStrayOn(s.stale, q)
    ensures ForkPoint(r, s, q) <= Height(s) <==> NoStrayOn(s.stale, q)
  {
    hide Ancestry, StoreOk;
    var p := Path(r, s);
    var f, m := ForkPoint(r, s, q), Meet(p, q, |q| - 1);
    if NoStrayOn(s.stale, q) {
      assert !StrayNames(s.stale, q, f);
    } else {
      var h :| 0 <= h < |q| && StrayNames(s.stale, q, h);
    }
  }

  /** What a fork's candidate chain looks like next to the active one. */
  lemma {:induction false} ForkShape(r: Rules, s: State, b: Block, q: seq<Block>)
    requires Rooted(r, s) && Attaches(s.store, b) && q == Ancestry(r.genesis, s.store, b.prev)
    requires StraysAbove(s)
    ensures var p, fp := Path(r, s), ForkPoint(r, s, q);
            && |q| == b.height && fp < b.height
            && (fp <= Height(s) ==> fp == Meet(p, q, |q| - 1) && SharesUpTo(p, q, fp) && SharesUpTo(p, q + [b], fp))
  {
    var p := Path(r, s);
    var fp := ForkPoint(r, s, q);
    ForkPointIs(r, s, q);
    if fp <= Height(s) {
      AgreeBelow(r.genesis, s.store, p, q, fp);
      assert (q + [b])[..fp + 1] == q[..fp + 1];
    }
  }

  lemma {:induction false} CandidateHashes(r: Rules, s: State, b: Block, p: seq<Block>, c: seq<Block>)
    requires Rooted(r, s) && Attaches(s.store, b) && p == Path(r, s)
    requires c == Ancestry(r.genesis, s.store, b.prev) + [b]
    ensures forall h :: 0 <= h < |p| ==> p[h].hash != b.hash
    ensures |c| == b.height + 1 && c[b.height] == b && forall h :: 0 <= h < |c| ==> c[h].height == h
  {
  }

  lemma {:induction false} ReorganisedPath(r: Rules, s: State, b: Block, fp: nat)
    requires Rooted(r, s) && Attaches(s.store, b)
    ensures Rooted(r, Reorganised(s, b, fp))
    ensures Path(r, Reorganised(s, b, fp)) == Ancestry(r.genesis, s.store, b.prev) + [b]
  {
    AttachKeepsTree(r.genesis, s.store, b);
  }

  /** Blocks connected one by one after validation leave a fresh path. */
  lemma {:induction false} ReplayedIsFresh(r: Rules, s: State, p: seq<Block>, c: seq<Block>, fp: nat, n: nat)
    requires Sound(r) && fp < n <= |c|
    requires FreshPath(p) && ReplaysUpTo(r, s, p, c, fp, n)
    ensures FreshPath(Joined(p, c, fp, n))
    decreases n
  {
    hide Joined, Fresh, Replay, FreshPath;
    JoinedFirst(p, c, fp);
    if fp + 1 < n {
      ReplayedIsFresh(r, s, p, c, fp, n - 1);
      assert Replays(r, s, p, c, fp, n - 1);
      var parent := if c[n - 2].hash in s.cached then Some(c[n - 2]) else None;
      assert ValidIsFresh(r, c[n - 1], parent, Replay(Joined(p, c, fp, n - 1)), None);
      FreshPathAppend(Joined(p, c, fp, n - 1), c[n - 1]);
      JoinedNext(p, c, fp, n - 1);
    } else if fp + 1 < |p| {
      FreshPathPrefix(p, fp + 1);
    }
  }

  lemma {:induction false} JoinedFresh(p: seq<Block>, c: seq<Block>, fp: nat, m: nat, j: nat)
    requires fp < m <= j <= |c| && FreshPath(Joined(p, c, fp, j))
    ensures FreshPath(Joined(p, c, fp, m))
  {
    FreshPathPrefix(Joined(p, c, fp, j), |Joined(p, c, fp, m)|);
    assert Joined(p, c, fp, j)[..|Joined(p, c, fp, m)|] == Joined(p, c, fp, m);
  }

  /** A block above genesis validates on replay only with its parent in memory. */
  lemma {:induction false} ReplayNeedsParent(r: Rules, s: State, p: seq<Block>, c: seq<Block>, fp: nat, j: nat)
    requires Sound(r) && fp < j < |c| && c[j].height > 0 && ReplayValid(r, s, p, c, fp, j)
    ensures c[j - 1].hash in s.cached
  {
    assert NeedsParent(r, c[j], Replay(Joined(p, c, fp, j)), None);
  }

  /** Switching to a chain that shares the blocks up to `fp` and whose blocks above `fp` are all cached. */
  lemma {:induction false} CacheSwitches(p: seq<Block>, cached: set<Hash>, indexed: set<nat>, c: seq<Block>, fp: nat)
    requires CacheOk(p, cached, indexed) && fp + 1 < |c| && SharesUpTo(p, c, fp)
    requires Floor(|p| - 1) <= fp
    requires forall h :: fp < h < |c| ==> c[h].hash in cached
    ensures CacheOk(c, cached, UpTo(indexed, fp) + Heights(fp + 1, |c|))
  {
    var x := UpTo(indexed, fp) + Heights(fp + 1, |c|);
    FloorMonotone(|p| - 1, |c| - 1);
    assert forall h :: 0 <= h <= fp ==> p[h] == p[..fp + 1][h] == c[..fp + 1][h] == c[h];
    forall h | 0 <= h < |c| ensures CachedAt(c, cached, x, h) {
      if h <= fp {
        assert CachedAt(p, cached, indexed, h);
      }
    }
    forall h | MustIndex(c, h) ensures h in x {
      if h <= fp {
        assert MustIndex(p, h);
      }
    }
  }

  /** The fork blocks of a reorganisation that replays cleanly are all in memory. */
  lemma {:induction false} ReplayedAreCached(r: Rules, s: State, p: seq<Block>, c: seq<Block>, fp: nat)
    requires Sound(r) && fp + 1 < |c|
    requires forall h :: 0 <= h < |c| ==> c[h].height == h
    requires ReplaysUpTo(r, s, p, c, fp, |c|)
    ensures forall h :: fp < h < |c| - 1 ==> c[h].hash in s.cached
  {
    forall h | fp < h < |c| - 1 ensures c[h].hash in s.cached {
      assert Replays(r, s, p, c, fp, h + 1);
      ReplayNeedsParent(r, s, p, c, fp, h + 1);
    }
  }

  lemma {:induction false} ReorganisedFresh(r: Rules, s: State, p: seq<Block>, c: seq<Block>, fp: nat)
    requires Sound(r) && SharesUpTo(p, c, fp) && ReplaysUpTo(r, s, p, c, fp, |c|) && FreshPath(p)
    ensures FreshPath(c)
  {
    ReplayedIsFresh(r, s, p, c, fp, |c|);
    JoinedIs(p, c, fp, |c|);
    assert c[..|c|] == c;
  }

  lemma {:induction false} ReorganisedCacheOk(r: Rules, s: State, p: seq<Block>, b: Block, c: seq<Block>, fp: nat)
    requires Sound(r) && CacheOk(p, s.cached, s.indexed) && ReplaysUpTo(r, s, p, c, fp, |c|)
    requires fp < b.height && |c| == b.height + 1 && c[b.height] == b && SharesUpTo(p, c, fp)
    requires Floor(|p| - 1) <= fp
    requires forall h :: 0 <= h < |c| ==> c[h].height == h
    requires forall h :: 0 <= h < |p| ==> p[h].hash != b.hash
    ensures CacheOk(c, Reorganised(s, b, fp).cached, Reorganised(s, b, fp).indexed)
  {
    ReplayedAreCached(r, s, p, c, fp);
    CacheIgnores(p, s.cached, s.indexed, b.hash);
    CacheSwitches(p, s.cached + {b.hash}, s.indexed, c, fp);
  }

  lemma {:induction false} ReorganisedSane(r: Rules, s: State, b: Block, q: seq<Block>, fp: nat)
    requires Sound(r) && Sane(r, s) && Attaches(s.store, b) && WorkFits(r, s, b)
    requires q == Ancestry(r.genesis, s.store, b.prev) && TimestampOk(q, b)
    requires fp == ForkPoint(r, s, q) <= Height(s) && !BelowFloor(s, fp)
    requires ReplaysUpTo(r, s, Path(r, s), q + [b], fp, |q| + 1)
    ensures Sane(r, Reorganised(s, b, fp))
    ensures Path(r, Reorganised(s, b, fp)) == q + [b]
  {
    hide Ancestry, SumWork, FreshPath, CacheOk, ReplaysUpTo, Meet, Named, Replay, Heights, StraysAbove, Floor,
         TreeTimeOk, TimestampOk;
    var c := q + [b];
    var p := Path(r, s);
    ReorganisedPath(r, s, b, fp);
    AttachTimeOk(r.genesis, s.store, b);
    ForkShape(r, s, b, q);
    CandidateHashes(r, s, b, p, c);
    ReorganisedFresh(r, s, p, c, fp);
    ReorganisedCacheOk(r, s, p, b, c, fp);
    FloorMonotone(Height(s), b.height);
    CheckpointStays(s, fp, b.height);
    StraysCut(s, b, fp);
  }

  /** The recorded checkpoint is not above a fork point that is not below the floor. */
  lemma {:induction false} CheckpointStays(s: State, fp: nat, height: nat)
    requires s.tip in s.store && s.lastCheckpoint == Floor(s.lastCheckpoint) <= Height(s)
    requires !BelowFloor(s, fp) && fp < height
    ensures s.lastCheckpoint <= height
  {
    FloorMonotone(s.lastCheckpoint, Height(s));
  }

  lemma {:induction false} StraysCut(s: State, b: Block, fp: nat)
    requires s.tip in s.store && StraysAbove(s) && Attaches(s.store, b) && fp <= Height(s)
    ensures StraysAbove(Reorganised(s, b, fp))
  {
    hide Heights;
  }

  // ---------------------------------------------------------------- any block

  /** The block switched the active chain to its own lineage, having won the fork choice within the depth and floor
      rules, and every block above the fork point validated. */
  ghost predicate Switched(r: Rules, s: State, b: Block, q: seq<Block>, t: State)
    requires Rooted(r, s) && Attaches(s.store, b) && q == Ancestry(r.genesis, s.store, b.prev)
  {
    var fp := ForkPoint(r, s, q);
    && fp == Meet(Path(r, s), q, |q| - 1) && t == Reorganised(s, b, fp)
    && Preferred(r, s, b, q + [b]) && DepthOk(r, s, b, q + [b], fp) && !BelowFloor(s, fp)
    && ReplaysUpTo(r, s, Path(r, s), q + [b], fp, |q| + 1)
  }

  /** A fork block that is not grafted either switches the chain or is only stored. */
  lemma {:induction false} ForkOutcome(r: Rules, s: State, b: Block, q: seq<Block>)
    requires Receivable(r, s, b) && q == Ancestry(r.genesis, s.store, b.prev) && !GraftsOnto(r, s, b, q)
    ensures var (t, status) := DeliverFork(r, s, b, q);
            if status.AcceptedReorg? then Switched(r, s, b, q, t)
            else t == Stored(s, b).(stale := t.stale) && StraysAbove(t)
  {
    hide IndexMap, Acceptable, FreshPath, TreeTimeOk, CacheOk, SumWork, Leftover, Ancestry, Descending, OrphanedTxs,
         ReplayValid, ReplayTargetOk, Named, Meet;
    var p, fp := Path(r, s), ForkPoint(r, s, q);
    ForkShape(r, s, b, q);
    var bad := FirstBad(r, s, p, q + [b], fp, fp + 1);
    if bad < |q| + 1 {
      LeftoverAbove(r, s, p, q + [b], fp, bad);
    }
  }

  lemma {:induction false} LeftoverAbove(r: Rules, s: State, p: seq<Block>, c: seq<Block>, fp: nat, bad: nat)
    requires fp < bad < |c| && s.tip in s.store && |p| == Height(s) + 1 && StraysAbove(s)
    requires forall h :: 0 <= h < |c| - 1 ==> c[h].hash in s.store
    ensures StraysAbove(s.(stale := Leftover(r, s, p, c, fp, bad)))
  {
    hide IndexMap;
    IndexMapIs(c, Heights(if fp < |p| then |p| else fp + 1, bad));
  }

  lemma {:induction false} ForkSane(r: Rules, s: State, b: Block, q: seq<Block>)
    requires Sound(r) && Receivable(r, s, b) && WorkFits(r, s, b)
    requires q == Ancestry(r.genesis, s.store, b.prev) && TimestampOk(q, b) && !GraftsOnto(r, s, b, q)
    ensures Sane(r, DeliverFork(r, s, b, q).0)
  {
    hide FreshPath, TreeTimeOk, CacheOk, Ancestry, SumWork, Meet, Named, DeliverFork, Preferred, DepthOk, ReplaysUpTo;
    ForkOutcome(r, s, b, q);
    var (t, status) := DeliverFork(r, s, b, q);
    if status.AcceptedReorg? {
      ReorganisedSane(r, s, b, q, ForkPoint(r, s, q));
    } else {
      StoredSane(r, s, b);
      StraySane(r, Stored(s, b), t.stale);
    }
  }

  lemma {:induction false} StraySane(r: Rules, s: State, stale: map<nat, Hash>)
    requires Sane(r, s) && StraysAbove(s.(stale := stale))
    ensures Sane(r, s.(stale := stale))
  {
    assert Path(r, s.(stale := stale)) == Path(r, s);
  }

  /** Delivering any block that is not grafted keeps the chain invariant. */
  lemma {:induction false} DeliverSane(r: Rules, s: State, b: Block)
    requires Sound(r) && Sane(r, s) && !Grafts(r, s, b) && WorkFits(r, s, b)
    ensures Sane(r, Deliver(r, s, b).0)
  {
    hide FreshPath, TreeTimeOk, CacheOk, Ancestry, SumWork, DeliverFork, Extended, GraftsOnto;
    if Screen(r, s, b).None? {
      if b.prev == s.tip {
        ExtendedSane(r, s, b);
      } else {
        ForkSane(r, s, b, Ancestry(r.genesis, s.store, b.prev));
      }
    }
  }

  /** A block none of whose ancestors a stray entry names is not grafted, nor is one on top of the tip. */
  lemma {:induction false} HonestIsNotGrafted(r: Rules, s: State, b: Block)
    requires Sound(r) && Sane(r, s) && Attaches(s.store, b)
    requires b.prev == s.tip || NoStrayOn(s.stale, Ancestry(r.genesis, s.store, b.prev))
    ensures !Grafts(r, s, b)
  {
    if b.prev != s.tip {
      ForkPointIs(r, s, Ancestry(r.genesis, s.store, b.prev));
    }
  }
}
