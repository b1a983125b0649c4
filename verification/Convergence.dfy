/** Arrival order does not matter: on an always-valid tree of height at most 100 every parent-first order of delivery
    ends at the same tip, the best block delivered. */
module Convergence {
  import opened Ledger
  import opened Lineage
  import opened ForkChoice
  import opened ChainModel
  import opened ChainInvariant
  import opened ChainRuns
  import opened Windows

  const MAX_HEIGHT: nat := 100

  /** A tree of blocks, genesis included, that could be delivered. */
  ghost predicate Universe(r: Rules, w: map<Hash, Block>) {
    && StoreOk(r.genesis, w) && r.maxDepth >= MAX_HEIGHT
    && forall h {:trigger Eligible(r, w, h)} :: h in w ==> Eligible(r, w, h)
  }

  /** Cumulative work of the lineage ending in `h`. */
  ghost function WorkTo(r: Rules, w: map<Hash, Block>, h: Hash): nat
    requires StoreOk(r.genesis, w) && h in w
  {
    1 + SumWork(Ancestry(r.genesis, w, h))
  }

  /** A block passes every check that does not look at the UTXO set, and never fails the one that does. */
  ghost predicate Eligible(r: Rules, w: map<Hash, Block>, h: Hash)
    requires StoreOk(r.genesis, w) && h in w
  {
    && w[h].height <= MAX_HEIGHT && WorkTo(r, w, h) <= U128_MAX
    && (w[h].height > 0 ==>
          && (w[h].height in r.checkpoints ==> r.checkpoints[w[h].height] == h)
          && ParentOk(w, h)
          && var q := Ancestry(r.genesis, w, w[h].prev);
          && TimestampOk(q, w[h])
          && TargetOk(r, Ancestors(q, 0, |q|), w[h])
          && forall t, cp {:trigger ValidOn(r, w, h, t, cp)} :: t in w ==> ValidOn(r, w, h, t, cp))
  }

  /** Unless the chain up to `t` already contains the block, the block is valid against it. */
  ghost predicate ValidOn(r: Rules, w: map<Hash, Block>, h: Hash, t: Hash, cp: Option<nat>)
    requires StoreOk(r.genesis, w) && h in w && t in w && w[h].height > 0
  {
    assert ParentOk(w, h);
    var p := Ancestry(r.genesis, w, t);
    w[h] !in p ==> r.validate(w[h], Some(w[w[h].prev]), Replay(p), cp).Valid?
  }

  /** `h` is the best block of the stored ones. */
  ghost predicate Best(r: Rules, w: map<Hash, Block>, store: map<Hash, Block>, h: Hash)
    requires StoreOk(r.genesis, w) && Submap(store, w) && h in store
  {
    forall x {:trigger Beaten(r, w, x, h)} :: x in store && x != h ==> Beaten(r, w, x, h)
  }

  ghost predicate Beaten(r: Rules, w: map<Hash, Block>, x: Hash, h: Hash)
    requires StoreOk(r.genesis, w) && x in w && h in w
  {
    WorkTo(r, w, h) > WorkTo(r, w, x) || (WorkTo(r, w, h) == WorkTo(r, w, x) && h < x)
  }

  /** One more block, and whichever of it and the best one wins is the best. */
  lemma {:induction false} BestOfMore(r: Rules, w: map<Hash, Block>, store: map<Hash, Block>, h: Hash, b: Block)
    requires StoreOk(r.genesis, w) && Submap(store, w) && h in store && Best(r, w, store, h)
    requires b.hash !in store && b.hash in w && w[b.hash] == b
    ensures Submap(store[b.hash := b], w)
    ensures Beaten(r, w, b.hash, h) ==> Best(r, w, store[b.hash := b], h)
    ensures Beaten(r, w, h, b.hash) ==> Best(r, w, store[b.hash := b], b.hash)
  {
    forall x | x in store && x != h ensures Beaten(r, w, h, b.hash) ==> Beaten(r, w, x, b.hash) {
      assert Beaten(r, w, x, h);
    }
  }

  /** The state of a node that holds part of the tree, all of it in memory. */
  ghost predicate Remembers(r: Rules, w: map<Hash, Block>, s: State) {
    && StoreOk(r.genesis, w) && WellFormed(r, s) && Submap(s.store, w)
    && s.cached == s.store.Keys && s.indexed == Heights(0, Height(s) + 1)
  }

  /** It also credits genesis and follows its best block. */
  ghost predicate Following(r: Rules, w: map<Hash, Block>, s: State) {
    Remembers(r, w, s) && s.base == 1 && Best(r, w, s.store, s.tip)
  }

  lemma {:induction false} BestUnique(r: Rules, w: map<Hash, Block>, store: map<Hash, Block>, x: Hash, y: Hash)
    requires StoreOk(r.genesis, w) && Submap(store, w) && x in store && y in store
    requires Best(r, w, store, x) && Best(r, w, store, y)
    ensures x == y
  {
    assert x != y ==> Beaten(r, w, x, y) && Beaten(r, w, y, x);
  }

  /** The active chain, seen in the whole tree. */
  lemma {:induction false} PathInUniverse(r: Rules, w: map<Hash, Block>, s: State, h: Hash)
    requires StoreOk(r.genesis, w) && StoreOk(r.genesis, s.store) && Submap(s.store, w) && h in s.store
    ensures Ancestry(r.genesis, s.store, h) == Ancestry(r.genesis, w, h)
  {
    AncestrySubmap(r.genesis, s.store, w, h);
  }

  lemma {:induction false} NothingToEvict(p: seq<Block>, cached: set<Hash>, indexed: set<nat>, h: nat, n: nat)
    requires h <= |p| <= CACHE_DEPTH
    ensures EvictFrom(p, cached, indexed, h, n) == (cached, indexed)
    decreases |p| - h
  {
    if h < |p| && n > 0 {
      NothingToEvict(p, cached, indexed, h + 1, n);
    }
  }

  /** A block of the tree whose parent is stored passes every receipt check. */
  lemma {:induction false} PassesReceipt(r: Rules, w: map<Hash, Block>, s: State, b: Block)
    requires Sound(r) && Universe(r, w) && Remembers(r, w, s)
    requires b.hash in w && w[b.hash] == b && b.hash !in s.store && b.prev in s.store && b.height > 0
    ensures Screen(r, s, b).None? && Attaches(s.store, b) && WorkFits(r, s, b)
  {
    assert Eligible(r, w, b.hash) && ParentOk(w, b.hash);
    var q := Ancestry(r.genesis, s.store, b.prev);
    PathInUniverse(r, w, s, b.prev);
    PathInUniverse(r, w, s, s.tip);
    assert Ancestry(r.genesis, w, b.hash) == q + [b];
    assert ValidOn(r, w, b.hash, s.tip, CheckpointHint(s));
    assert b !in Path(r, s);
    ReceiptWindowInMemory(r, s, q);
  }

  lemma {:induction false} ReceiptWindowInMemory(r: Rules, s: State, q: seq<Block>)
    requires Rooted(r, s) && IsLineage(r.genesis, s.store, q) && |q| <= MAX_HEIGHT
    requires s.cached == s.store.Keys && s.indexed == Heights(0, Height(s) + 1) && s.stale == map[]
    ensures ReceiptWindow(r, s, q) == Ancestors(q, 0, |q|)
  {
    if q[|q| - 1].hash == s.tip {
      LineageUnique(r.genesis, s.store, q);
      WindowIsPick(s, q, q, 0, |q|, |q| - 1);
      PickAll(q, 0, |q|, s.indexed, |q| - 1);
    } else {
      ForkReceiptWindow(r, s, q);
    }
  }

  /** The whole candidate chain replays cleanly. */
  lemma {:induction false} ReplaysCleanly(r: Rules, w: map<Hash, Block>, s: State, b: Block, q: seq<Block>, fp: nat)
    requires Sound(r) && Universe(r, w) && Remembers(r, w, s)
    requires b.hash in w && w[b.hash] == b && Attaches(s.store, b)
    requires q == Ancestry(r.genesis, s.store, b.prev) && fp == ForkPoint(r, s, q)
    ensures FirstBad(r, s, Path(r, s), q + [b], fp, fp + 1) == |q + [b]|
  {
    var c := q + [b];
    PathInUniverse(r, w, s, b.prev);
    assert Ancestry(r.genesis, w, b.hash) == c;
    ForkShape(r, s, b, q);
    ForkPointIs(r, s, q);
    forall j | fp < j < |c| ensures Replays(r, s, Path(r, s), c, fp, j) {
      ReplaysAt(r, w, s, Path(r, s), c, fp, j);
    }
    FirstBadIs(r, s, Path(r, s), c, fp, fp + 1, |c|);
  }

  lemma {:induction false} ReplaysAt(r: Rules, w: map<Hash, Block>, s: State, p: seq<Block>, c: seq<Block>, fp: nat,
                                     j: nat)
    requires Universe(r, w) && fp < j < |c| && IsLineage(r.genesis, w, c) && SharesUpTo(p, c, fp)
    requires s.tip in s.store && s.cached == s.store.Keys && s.indexed == Heights(0, Height(s) + 1) && fp <= Height(s)
    requires c[j - 1].hash in s.store
    ensures Replays(r, s, p, c, fp, j)
  {
    hide SumWork, Replay, Ancestry, Pick, Window, Joined, TimestampOk;
    JoinedIs(p, c, fp, j);
    WindowIsPick(s, p, c, WindowStart(j), j, fp);
    assert Eligible(r, w, c[j].hash) && LinkAt(c, j);
    LineagePrefix(r.genesis, w, c, j);
    assert ValidOn(r, w, c[j].hash, c[j - 1].hash, None);
    assert forall i :: 0 <= i < j ==> c[..j][i].height == i;
    PickAll(c, 0, j, s.indexed, fp);
    assert Ancestors(c, 0, j) == Ancestors(c[..j], 0, j);
  }

  // ---------------------------------------------------------------- one delivery

  lemma {:induction false} DeliveredExtends(r: Rules, s: State, b: Block)
    requires Sound(r) && WellFormed(r, s) && Screen(r, s, b).None? && b.prev == s.tip && b.height <= MAX_HEIGHT
    ensures Deliver(r, s, b).0 == Grown(s, b)
  {
    var g := Grown(s, b);
    GrownPath(r, s, b);
    if |g.cached| > MAX_BLOCK_CACHE {
      NothingToEvict(Path(r, g), g.cached, g.indexed, 0, |g.cached| - MAX_BLOCK_CACHE);
    }
  }

  lemma {:induction false} FollowsGrown(r: Rules, w: map<Hash, Block>, s: State, b: Block)
    requires Universe(r, w) && Following(r, w, s) && b.hash in w && w[b.hash] == b
    requires Attaches(s.store, b) && b.prev == s.tip && WellFormed(r, Grown(s, b))
    ensures Following(r, w, Grown(s, b))
  {
    var g := Grown(s, b);
    GrownPath(r, s, b);
    PathInUniverse(r, w, g, b.hash);
    PathInUniverse(r, w, s, s.tip);
    assert Path(r, g)[..|Path(r, s)|] == Path(r, s);
    WorkGrows(Path(r, g), |Path(r, s)|);
    assert Beaten(r, w, s.tip, b.hash);
    BestOfMore(r, w, s.store, s.tip, b);
    assert Height(g) == b.height == Height(s) + 1;
    HeightsGrow(0, b.height);
  }

  /** Up to height 100 neither the depth rule nor the finality floor turns away a fork that wins. */
  lemma {:induction false} NeverTurnedAway(r: Rules, s: State, b: Block, c: seq<Block>, fp: nat)
    requires Rooted(r, s) && r.maxDepth >= MAX_HEIGHT && fp <= b.height
    requires b.height <= MAX_HEIGHT && Height(s) <= MAX_HEIGHT && Preferred(r, s, b, c)
    ensures DepthOk(r, s, b, c, fp) && !BelowFloor(s, fp)
  {
  }

  /** A fork block that does not win is stored, one that wins becomes the tip. */
  lemma {:induction false} DeliveredForks(r: Rules, w: map<Hash, Block>, s: State, b: Block, q: seq<Block>)
    requires Sound(r) && Universe(r, w) && Remembers(r, w, s) && b.hash in w && w[b.hash] == b
    requires Attaches(s.store, b) && b.prev != s.tip && q == Ancestry(r.genesis, s.store, b.prev)
    requires b.height <= MAX_HEIGHT && Height(s) <= MAX_HEIGHT
    ensures !GraftsOnto(r, s, b, q)
    ensures var fp := ForkPoint(r, s, q);
            DeliverFork(r, s, b, q).0 == if Preferred(r, s, b, q + [b]) then Reorganised(s, b, fp) else Stored(s, b)
  {
    var c := q + [b];
    var fp := ForkPoint(r, s, q);
    ForkPointIs(r, s, q);
    if Preferred(r, s, b, c) {
      ForkShape(r, s, b, q);
      NeverTurnedAway(r, s, b, c, fp);
      ReplaysCleanly(r, w, s, b, q, fp);
    }
  }

  lemma {:induction false} FollowsStored(r: Rules, w: map<Hash, Block>, s: State, b: Block, c: seq<Block>)
    requires Following(r, w, s) && b.hash in w && w[b.hash] == b && Attaches(s.store, b)
    requires WellFormed(r, Stored(s, b)) && c == Ancestry(r.genesis, w, b.hash) && 1 + SumWork(c) <= U128_MAX
    requires !Preferred(r, s, b, c)
    ensures Following(r, w, Stored(s, b))
  {
    PathInUniverse(r, w, s, s.tip);
    assert Beaten(r, w, b.hash, s.tip);
    BestOfMore(r, w, s.store, s.tip, b);
  }

  lemma {:induction false} FollowsSwitched(r: Rules, w: map<Hash, Block>, s: State, b: Block, c: seq<Block>, fp: nat)
    requires Following(r, w, s) && b.hash in w && w[b.hash] == b && Attaches(s.store, b)
    requires WellFormed(r, Reorganised(s, b, fp)) && c == Ancestry(r.genesis, w, b.hash) && 1 + SumWork(c) <= U128_MAX
    requires Preferred(r, s, b, c) && fp <= Height(s)
    ensures Following(r, w, Reorganised(s, b, fp))
  {
    hide FreshPath, TreeTimeOk, SumWork;
    var t := Reorganised(s, b, fp);
    PathInUniverse(r, w, s, s.tip);
    assert Beaten(r, w, s.tip, b.hash);
    BestOfMore(r, w, s.store, s.tip, b);
    assert t.indexed == Heights(0, b.height + 1);
  }

  lemma {:induction false} FollowFork(r: Rules, w: map<Hash, Block>, s: State, b: Block, q: seq<Block>)
    requires Sound(r) && Universe(r, w) && Following(r, w, s) && b.hash in w && w[b.hash] == b
    requires Attaches(s.store, b) && b.prev != s.tip && q == Ancestry(r.genesis, s.store, b.prev)
    requires WorkFits(r, s, b) && TimestampOk(q, b) && b.height <= MAX_HEIGHT && Height(s) <= MAX_HEIGHT
    ensures !GraftsOnto(r, s, b, q)
    ensures var t := DeliverFork(r, s, b, q).0;
            t.stale == map[] && Following(r, w, t) && t.store == s.store[b.hash := b]
  {
    PathInUniverse(r, w, s, b.prev);
    assert Ancestry(r.genesis, w, b.hash) == q + [b];
    DeliveredForks(r, w, s, b, q);
    ForkSane(r, s, b, q);
    if Preferred(r, s, b, q + [b]) {
      ForkPointIs(r, s, q);
      FollowsSwitched(r, w, s, b, q + [b], ForkPoint(r, s, q));
    } else {
      FollowsStored(r, w, s, b, q + [b]);
    }
  }

  lemma {:induction false} FollowStep(r: Rules, w: map<Hash, Block>, s: State, b: Block)
    requires Sound(r) && Universe(r, w) && Following(r, w, s)
    requires b.hash in w && w[b.hash] == b && (b.hash in s.store || b.prev in s.store)
    ensures Deliverable(r, s, b) && Following(r, w, Deliver(r, s, b).0)
    ensures Deliver(r, s, b).0.store == s.store[b.hash := b]
  {
    if b.hash in s.store {
      assert s.store[b.hash := b] == s.store;
    } else {
      PassesReceipt(r, w, s, b);
      assert Eligible(r, w, b.hash) && Eligible(r, w, s.tip);
      if b.prev == s.tip {
        DeliveredExtends(r, s, b);
        GrownSane(r, s, b);
        FollowsGrown(r, w, s, b);
      } else {
        FollowFork(r, w, s, b, Ancestry(r.genesis, s.store, b.prev));
      }
    }
  }

  // ---------------------------------------------------------------- beyond height 100

  /** A fork block that wins the fork choice but is turned away: too deep, too light for its depth, below the finality
      floor, or with a block that fails on replay. */
  ghost predicate Refused(r: Rules, s: State, b: Block, q: seq<Block>)
    requires Rooted(r, s) && Attaches(s.store, b) && q == Ancestry(r.genesis, s.store, b.prev)
  {
    var fp := ForkPoint(r, s, q);
    && b.prev != s.tip && Preferred(r, s, b, q + [b])
    && (!DepthOk(r, s, b, q + [b], fp) || BelowFloor(s, fp) ||
        FirstBad(r, s, Path(r, s), q + [b], fp, fp + 1) <= |q|)
  }

  /** The tip after delivering a block that passed the receipt checks. */
  lemma {:induction false} DeliveredTip(r: Rules, s: State, b: Block, q: seq<Block>)
    requires Sound(r) && Sane(r, s) && Deliverable(r, s, b) && Screen(r, s, b).None?
    requires q == Ancestry(r.genesis, s.store, b.prev)
    ensures Next(r, s, b).store == s.store[b.hash := b]
    ensures Next(r, s, b).tip == b.hash <==>
              (b.prev == s.tip || (Preferred(r, s, b, q + [b]) && !Refused(r, s, b, q)))
    ensures Next(r, s, b).tip == b.hash || Next(r, s, b).tip == s.tip
  {
    hide Ancestry, SumWork, FirstBad, Meet, Acceptable, Leftover, FreshPath, TreeTimeOk, CacheOk, ScreenRules, Floor,
         EvictFrom, IndexMap;
    StepKeepsStore(r, s, b);
    StepPath(r, s, b);
  }

  /** At any height: if the tip is the best stored block, it is the best again after the next block exactly when that
      block is not refused. */
  lemma {:induction false} BestUnlessRefused(r: Rules, w: map<Hash, Block>, s: State, b: Block, q: seq<Block>)
    requires Sound(r) && StoreOk(r.genesis, w) && Sane(r, s) && Submap(s.store, w) && s.base == 1
    requires Best(r, w, s.store, s.tip) && b.hash in w && w[b.hash] == b
    requires Deliverable(r, s, b) && Screen(r, s, b).None? && q == Ancestry(r.genesis, s.store, b.prev)
    ensures var t := Next(r, s, b);
            && Submap(t.store, w) && t.tip in t.store
            && (Best(r, w, t.store, t.tip) <==> !Refused(r, s, b, q))
  {
    hide Refused, FreshPath, TreeTimeOk, CacheOk, ScreenRules, Deliver, Meet, FirstBad;
    DeliveredTip(r, s, b, q);
    PathInUniverse(r, w, s, s.tip);
    PathInUniverse(r, w, s, b.prev);
    ForkOrder(r, w, s, b, q);
    BestOfMore(r, w, s.store, s.tip, b);
    var t := Next(r, s, b);
    if t.tip == s.tip && Beaten(r, w, s.tip, b.hash) {
      NotBest(r, w, t.store, s.tip, b.hash);
    }
    RefusedWins(r, s, b, q);
  }

  lemma {:induction false} NotBest(r: Rules, w: map<Hash, Block>, store: map<Hash, Block>, h: Hash, x: Hash)
    requires StoreOk(r.genesis, w) && Submap(store, w) && h in store && x in store && x != h && !Beaten(r, w, x, h)
    ensures !Best(r, w, store, h)
  {
  }

  lemma {:induction false} RefusedWins(r: Rules, s: State, b: Block, q: seq<Block>)
    requires Rooted(r, s) && Attaches(s.store, b) && q == Ancestry(r.genesis, s.store, b.prev)
    ensures Refused(r, s, b, q) ==> b.prev != s.tip && Preferred(r, s, b, q + [b])
  {
  }

  /** Fork choice orders the new block and the tip, and a block on top of the tip comes first. */
  lemma {:induction false} ForkOrder(r: Rules, w: map<Hash, Block>, s: State, b: Block, q: seq<Block>)
    requires StoreOk(r.genesis, w) && Rooted(r, s) && Submap(s.store, w) && s.base == 1 && WorkFits(r, s, b)
    requires Attaches(s.store, b) && q == Ancestry(r.genesis, s.store, b.prev) && b.hash in w && w[b.hash] == b
    ensures s.tip in w && (Beaten(r, w, s.tip, b.hash) <==> !Beaten(r, w, b.hash, s.tip))
    ensures Preferred(r, s, b, q + [b]) <==> Beaten(r, w, s.tip, b.hash)
    ensures b.prev == s.tip ==> Beaten(r, w, s.tip, b.hash)
  {
    PathInUniverse(r, w, s, s.tip);
    PathInUniverse(r, w, s, b.prev);
    assert ParentOk(w, b.hash);
    assert Ancestry(r.genesis, w, b.hash) == q + [b];
    if b.prev == s.tip {
      assert (q + [b])[..|q|] == q;
      WorkGrows(q + [b], |q|);
    }
  }

  // ---------------------------------------------------------------- whole runs

  /** Blocks of the tree, each known already or delivered after its parent. */
  ghost predicate ParentFirst(w: map<Hash, Block>, store: map<Hash, Block>, bs: seq<Block>)
    decreases |bs|
  {
    bs != [] ==>
      && bs[0].hash in w && w[bs[0].hash] == bs[0]
      && (bs[0].hash in store || bs[0].prev in store)
      && ParentFirst(w, store[bs[0].hash := bs[0]], bs[1..])
  }

  ghost function AddAll(store: map<Hash, Block>, bs: seq<Block>): map<Hash, Block>
    decreases |bs|
  {
    if bs == [] then store else AddAll(store[bs[0].hash := bs[0]], bs[1..])
  }

  lemma {:induction false} FollowRun(r: Rules, w: map<Hash, Block>, s: State, bs: seq<Block>)
    requires Sound(r) && Universe(r, w) && Following(r, w, s) && ParentFirst(w, s.store, bs)
    ensures DeliverableRun(r, s, bs) && Following(r, w, Run(r, s, bs))
    ensures Run(r, s, bs).store == AddAll(s.store, bs)
    decreases |bs|
  {
    if bs != [] {
      FollowStep(r, w, s, bs[0]);
      FollowRun(r, w, Next(r, s, bs[0]), bs[1..]);
    }
  }

  lemma {:induction false} AddAllKeys(w: map<Hash, Block>, store: map<Hash, Block>, bs: seq<Block>, h: Hash)
    requires Submap(store, w) && forall b :: b in bs ==> b.hash in w && w[b.hash] == b
    ensures Submap(AddAll(store, bs), w)
    ensures h in AddAll(store, bs) <==> h in store || exists b :: b in bs && b.hash == h
    decreases |bs|
  {
    if bs != [] {
      AddAllKeys(w, store[bs[0].hash := bs[0]], bs[1..], h);
      assert forall b :: b in bs <==> b == bs[0] || b in bs[1..];
    }
  }

  lemma {:induction false} ParentFirstInTree(w: map<Hash, Block>, store: map<Hash, Block>, bs: seq<Block>)
    requires ParentFirst(w, store, bs)
    ensures forall b :: b in bs ==> b.hash in w && w[b.hash] == b
    decreases |bs|
  {
    if bs != [] {
      ParentFirstInTree(w, store[bs[0].hash := bs[0]], bs[1..]);
      assert forall b :: b in bs <==> b == bs[0] || b in bs[1..];
    }
  }

  /** The same blocks added in any order give the same store. */
  lemma {:induction false} AddAllAnyOrder(w: map<Hash, Block>, store: map<Hash, Block>, xs: seq<Block>, ys: seq<Block>)
    requires Submap(store, w) && ParentFirst(w, store, xs) && ParentFirst(w, store, ys)
    requires forall b :: b in xs <==> b in ys
    ensures AddAll(store, xs) == AddAll(store, ys)
  {
    ParentFirstInTree(w, store, xs);
    ParentFirstInTree(w, store, ys);
    var a, b := AddAll(store, xs), AddAll(store, ys);
    forall h ensures h in a <==> h in b {
      AddAllKeys(w, store, xs, h);
      AddAllKeys(w, store, ys, h);
    }
    AddAllKeys(w, store, xs, 0);
    AddAllKeys(w, store, ys, 0);
    assert a.Keys == b.Keys;
  }

  /** Convergence: two nodes that start alike and are delivered the same blocks, each in a parent-first order of its
      own and with any repetitions, end on the same chain, and its tip is the best of all blocks delivered. */
  lemma {:induction false} Converge(r: Rules, w: map<Hash, Block>, s: State, xs: seq<Block>, ys: seq<Block>)
    requires Sound(r) && Universe(r, w) && Following(r, w, s)
    requires ParentFirst(w, s.store, xs) && ParentFirst(w, s.store, ys)
    requires forall b :: b in xs <==> b in ys
    ensures DeliverableRun(r, s, xs) && DeliverableRun(r, s, ys)
    ensures var x, y := Run(r, s, xs), Run(r, s, ys);
            && x.tip == y.tip && Path(r, x) == Path(r, y)
            && Submap(x.store, w) && Best(r, w, x.store, x.tip)
            && (forall b :: b in xs ==> b.hash in x.store)
  {
    FollowRun(r, w, s, xs);
    FollowRun(r, w, s, ys);
    AddAllAnyOrder(w, s.store, xs, ys);
    var x, y := Run(r, s, xs), Run(r, s, ys);
    BestUnique(r, w, x.store, x.tip, y.tip);
    ParentFirstInTree(w, s.store, xs);
    forall b | b in xs ensures b.hash in x.store {
      AddAllKeys(w, s.store, xs, b.hash);
    }
  }
}
