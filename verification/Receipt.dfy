/** What an accepted block has passed: the exact meaning of each receipt verdict, the difficulty target a block must
    carry, what a reorganisation checks, what it costs and which transactions it returns, and which blocks leave the
    cache. */
module Receipt {
  import opened Ledger
  import opened Lineage
  import opened ForkChoice
  import opened MedianTime
  import opened ChainModel
  import opened ChainInvariant
  import opened ChainRuns
  import opened Windows

  // ---------------------------------------------------------------- difficulty targets

  /** The last 144 blocks of `q`, or all of them, oldest first. */
  ghost function Recent(q: seq<Block>): seq<DifficultyBlock> {
    var n := if |q| < 144 then |q| else 144;
    seq(n, i requires 0 <= i < n =>
      var x := q[|q| - n + i]; DifficultyBlock(x.height, x.timestamp, x.target))
  }

  /** A child of the last block of `q` carries the target its own recent ancestors demand. */
  ghost predicate OnTarget(r: Rules, q: seq<Block>, b: Block) {
    b.height >= 2 ==> b.target == r.targetFor(Recent(q), b.height)
  }

  lemma {:induction false} RecentIs(q: seq<Block>)
    ensures Ancestors(q, WindowStart(|q|), |q|) == Recent(q)
  {
  }

  /** The node holds in memory what the difficulty check of a child of `q`'s last block needs: the window's active
      heights are indexed and the fork is cached down to where it leaves the active chain. */
  ghost predicate SeesWindow(r: Rules, s: State, q: seq<Block>)
    requires Rooted(r, s) && IsLineage(r.genesis, s.store, q)
  {
    if q[|q| - 1].hash == s.tip then forall h :: |q| - 144 <= h < |q| && 0 <= h ==> h in s.indexed
    else
      && NoStrayOn(s.stale, q)
      && var fp := Meet(Path(r, s), q, |q| - 1);
      && (forall i :: fp <= i < |q| ==> q[i].hash in s.cached)
      && (forall h :: |q| - 144 <= h <= fp && 0 <= h ==> h in s.indexed)
  }

  lemma {:induction false} ReceiptWindowIs(r: Rules, s: State, q: seq<Block>)
    requires Rooted(r, s) && IsLineage(r.genesis, s.store, q) && SeesWindow(r, s, q)
    ensures ReceiptWindow(r, s, q) == Recent(q)
  {
    hide ReceiptWindow, Ancestors, Recent, Meet, NoStrayOn;
    RecentIs(q);
    if q[|q| - 1].hash == s.tip {
      LineageUnique(r.genesis, s.store, q);
      MainWindow(r, s, q);
    } else {
      ForkReceiptWindow(r, s, q);
    }
  }

  // ---------------------------------------------------------------- receipt verdicts

  /** No hardcoded checkpoint names another block at this height. */
  predicate PinAllows(r: Rules, b: Block) {
    b.height in r.checkpoints ==> r.checkpoints[b.height] == b.hash
  }

  /** Fewer than six of the last eleven ancestors carry the block's timestamp or a later one. */
  ghost predicate LateEnough(q: seq<Block>, b: Block)
    requires |q| == b.height
  {
    b.height >= 11 ==> CountGE(Timestamps(q[|q| - 11..]), b.timestamp) < 6
  }

  lemma {:induction false} LateEnoughIs(q: seq<Block>, b: Block)
    requires |q| == b.height
    ensures TimestampOk(q, b) <==> LateEnough(q, b)
  {
    if b.height >= 11 {
      MedianByCount(Timestamps(q[|q| - 11..]), b.timestamp);
    }
  }

  /** The verdict of the block validator: against the parent, the unspent outputs of the active chain and the last
      checkpoint passed, if any. */
  ghost function Validation(r: Rules, s: State, b: Block): Verdict
    requires Rooted(r, s) && Attaches(s.store, b)
  {
    r.validate(b, Some(s.store[b.prev]), Replay(Path(r, s)),
               if s.lastCheckpoint == 0 then None else Some(s.lastCheckpoint))
  }

  /** Which failure each refusal stands for; whatever else fails is a plain rejection. */
  lemma {:induction false} RefusalMeans(r: Rules, s: State, b: Block)
    requires Sound(r) && Rooted(r, s)
    ensures Screen(r, s, b) == Some(AlreadyKnown) <==> b.hash in s.store
    ensures Screen(r, s, b) == Some(Orphan) <==> b.hash !in s.store && b.height > 0 && b.prev !in s.store
    ensures Screen(r, s, b) == Some(Failed) <==>
              Attaches(s.store, b) && PinAllows(r, b) && Validation(r, s, b).Error?
    ensures Screen(r, s, b) in {None, Some(AlreadyKnown), Some(Orphan), Some(Failed), Some(Rejected)}
  {
    hide ReceiptWindow, Replay, MedianTimePast, Ancestry;
  }

  /** A block passes if and only if it attaches to the tree at the pinned height, is valid, is later than the median of
      its last eleven ancestors and carries the target its last 144 ancestors demand. */
  lemma {:induction false} AcceptedIff(r: Rules, s: State, b: Block)
    requires Sound(r) && Rooted(r, s)
    requires Attaches(s.store, b) ==> SeesWindow(r, s, Ancestry(r.genesis, s.store, b.prev))
    ensures Screen(r, s, b).None? <==>
              && Attaches(s.store, b) && PinAllows(r, b) && Validation(r, s, b).Valid?
              && var q := Ancestry(r.genesis, s.store, b.prev); LateEnough(q, b) && OnTarget(r, q, b)
  {
    hide ReceiptWindow, Replay, MedianTimePast, SeesWindow, LateEnough, Recent, Ancestry;
    if Attaches(s.store, b) {
      var q := Ancestry(r.genesis, s.store, b.prev);
      ReceiptWindowIs(r, s, q);
      LateEnoughIs(q, b);
      RecentLength(q);
    }
  }

  lemma {:induction false} RecentLength(q: seq<Block>)
    ensures |Recent(q)| >= 2 <==> |q| >= 2
  {
  }

  // ---------------------------------------------------------------- targets over whole runs

  /** Every stored block carries the target its own recent ancestors demand. */
  ghost predicate TreeOnTarget(r: Rules, m: map<Hash, Block>)
    requires StoreOk(r.genesis, m)
  {
    forall h {:trigger LineageOnTarget(r, m, h)} :: h in m ==> LineageOnTarget(r, m, h)
  }

  ghost predicate LineageOnTarget(r: Rules, m: map<Hash, Block>, h: Hash)
    requires StoreOk(r.genesis, m) && h in m
  {
    OnTarget(r, Ancestry(r.genesis, m, h)[..m[h].height], m[h])
  }

  /** Whenever a block of the run is accepted, the node sees the window it is checked against. */
  ghost predicate SeesWindows(r: Rules, s: State, bs: seq<Block>)
    requires Sound(r) && Sane(r, s) && DeliverableRun(r, s, bs)
    decreases |bs|
  {
    bs != [] ==>
      && (Screen(r, s, bs[0]).None? ==> SeesWindow(r, s, Ancestry(r.genesis, s.store, bs[0].prev)))
      && SeesWindows(r, Next(r, s, bs[0]), bs[1..])
  }

  lemma {:induction false} StepOnTarget(r: Rules, s: State, b: Block)
    requires Sound(r) && Rooted(r, s) && Screen(r, s, b).None? && TreeOnTarget(r, s.store)
    requires SeesWindow(r, s, Ancestry(r.genesis, s.store, b.prev))
    ensures StoreOk(r.genesis, s.store[b.hash := b]) && TreeOnTarget(r, s.store[b.hash := b])
  {
    hide Screen, SeesWindow, OnTarget, Ancestry, LateEnough;
    var m, w := s.store, s.store[b.hash := b];
    AttachKeepsTree(r.genesis, m, b);
    AcceptedIff(r, s, b);
    var q := Ancestry(r.genesis, m, b.prev);
    forall h | h in w ensures LineageOnTarget(r, w, h) {
      if h == b.hash {
        assert (q + [b])[..b.height] == q;
      } else {
        assert LineageOnTarget(r, m, h);
        AncestrySubmap(r.genesis, m, w, h);
      }
    }
  }

  /** No run stores a block, on any branch, whose target is not the one its own ancestors demand. */
  lemma {:induction false} RunKeepsTargets(r: Rules, s: State, bs: seq<Block>)
    requires Sound(r) && Sane(r, s) && DeliverableRun(r, s, bs) && SeesWindows(r, s, bs) && TreeOnTarget(r, s.store)
    ensures TreeOnTarget(r, Run(r, s, bs).store)
    decreases |bs|
  {
    hide Screen, SeesWindow, TreeOnTarget, Ancestry;
    if bs != [] {
      StepKeepsStore(r, s, bs[0]);
      if Screen(r, s, bs[0]).None? {
        StepOnTarget(r, s, bs[0]);
      }
      RunKeepsTargets(r, Next(r, s, bs[0]), bs[1..]);
    }
  }

  // ---------------------------------------------------------------- reorganisations

  /** Block `j` of chain `c` is valid against its own parent and the unspent outputs of its own ancestors, and carries
      the target they demand if the heights of the window up to `fp` are indexed. */
  ghost predicate Checked(r: Rules, indexed: set<nat>, c: seq<Block>, fp: nat, j: int)
    requires 0 < j < |c|
  {
    && r.validate(c[j], Some(c[j - 1]), Replay(c[..j]), None).Valid?
    && ((forall h :: j - 144 <= h <= fp && 0 <= h ==> h in indexed) ==> OnTarget(r, c[..j], c[j]))
  }

  lemma {:induction false} ReplayedOnTarget(r: Rules, s: State, p: seq<Block>, c: seq<Block>, fp: nat, j: nat)
    requires fp < j < |c| && SharesUpTo(p, c, fp) && c[j].height == j && ReplayTargetOk(r, s, p, c, fp, j)
    requires forall h :: j - 144 <= h <= fp && 0 <= h ==> h in s.indexed
    ensures OnTarget(r, c[..j], c[j])
  {
    hide Window, Recent, Ancestors;
    ReplayWindow(s, p, c, fp, j);
    AncestorsOfPrefix(c[..j], c, WindowStart(j));
    RecentIs(c[..j]);
    RecentLength(c[..j]);
  }

  lemma {:induction false} ReplayedValid(r: Rules, s: State, p: seq<Block>, c: seq<Block>, fp: nat, j: nat)
    requires Sound(r) && fp < j < |c| && SharesUpTo(p, c, fp) && c[j].height == j && ReplayValid(r, s, p, c, fp, j)
    ensures r.validate(c[j], Some(c[j - 1]), Replay(c[..j]), None).Valid?
  {
    hide Sound, Replay;
    JoinedIs(p, c, fp, j);
    ReplayNeedsParent(r, s, p, c, fp, j);
  }

  /** Every block a reorganisation connects has been checked in full, the triggering block included. */
  lemma {:induction false} ReorgChecks(r: Rules, s: State, b: Block)
    requires Sound(r) && Sane(r, s) && Deliverable(r, s, b)
    ensures Deliver(r, s, b).1.AcceptedReorg? ==>
              && Attaches(s.store, b)
              && var q := Ancestry(r.genesis, s.store, b.prev);
              && Path(r, Next(r, s, b)) == q + [b]
              && var fp := Meet(Path(r, s), q, |q| - 1);
              forall j :: fp < j < |q| + 1 ==> Checked(r, s.indexed, q + [b], fp, j)
  {
    hide Deliver, FreshPath, TreeTimeOk, CacheOk, Ancestry, Meet, Switched, Checked, Sound, Grafts, WorkFits, SumWork;
    StepPath(r, s, b);
    if Deliver(r, s, b).1.AcceptedReorg? {
      SwitchChecks(r, s, b, Ancestry(r.genesis, s.store, b.prev), Next(r, s, b));
    }
  }

  lemma {:induction false} SwitchChecks(r: Rules, s: State, b: Block, q: seq<Block>, t: State)
    requires Sound(r) && Rooted(r, s) && StraysAbove(s) && Attaches(s.store, b)
    requires q == Ancestry(r.genesis, s.store, b.prev) && Switched(r, s, b, q, t)
    ensures var fp := Meet(Path(r, s), q, |q| - 1);
            forall j :: fp < j < |q| + 1 ==> Checked(r, s.indexed, q + [b], fp, j)
  {
    hide Ancestry, Replay, Meet, Preferred, DepthOk, BelowFloor, ReplayValid, ReplayTargetOk, Reorganised, OnTarget,
         Sound;
    var p, c, fp := Path(r, s), q + [b], Meet(Path(r, s), q, |q| - 1);
    ForkShape(r, s, b, q);
    forall j | fp < j < |c| ensures Checked(r, s.indexed, c, fp, j) {
      assert Replays(r, s, p, c, fp, j) && c[j].height == j;
      ReplayedValid(r, s, p, c, fp, j);
      if forall h :: j - 144 <= h <= fp && 0 <= h ==> h in s.indexed {
        ReplayedOnTarget(r, s, p, c, fp, j);
      }
    }
  }

  /** The cost of depth: on a chain of height 1000 or more, a fork that leaves it more than 10 blocks below its own tip
      is switched to only with more than 2^k times the work accounted for the chain, where its depth is at least
      10 + 20k. So a fork of depth 30 needs more than double the work, on every state a run can reach. */
  lemma {:induction false} ReorgCosts(r: Rules, s: State, b: Block, k: nat)
    requires Sound(r) && Sane(r, s) && Deliverable(r, s, b) && k <= 40
    ensures Deliver(r, s, b).1.AcceptedReorg? && Height(s) >= 1000 ==>
              && Attaches(s.store, b)
              && var q := Ancestry(r.genesis, s.store, b.prev);
              var depth := b.height - Meet(Path(r, s), q, |q| - 1);
              var work, ours := 1 + SumWork(q + [b]), s.base + SumWork(Path(r, s));
              && Path(r, Next(r, s, b)) == q + [b]
              && (depth > 10 && depth >= 10 + 20 * k ==> work > ours * Pow2(k))
              && (depth >= 30 ==> work > 2 * ours)
  {
    hide Deliver, FreshPath, TreeTimeOk, CacheOk, Ancestry, Meet, Preferred, BelowFloor, Acceptable,
         ReplaysUpTo, Reorganised, Sound, Grafts, SumWork;
    StepPath(r, s, b);
    if Deliver(r, s, b).1.AcceptedReorg? && Height(s) >= 1000 {
      var q := Ancestry(r.genesis, s.store, b.prev);
      SwitchCosts(r, s, b, q, Next(r, s, b), k);
      SwitchCosts(r, s, b, q, Next(r, s, b), 1);
    }
  }

  lemma {:induction false} SwitchCosts(r: Rules, s: State, b: Block, q: seq<Block>, t: State, k: nat)
    requires Rooted(r, s) && Attaches(s.store, b) && q == Ancestry(r.genesis, s.store, b.prev)
    requires Switched(r, s, b, q, t) && 1 + SumWork(q + [b]) <= U128_MAX && Height(s) >= 1000 && k <= 40
    ensures var depth := b.height - Meet(Path(r, s), q, |q| - 1);
            depth > 10 && depth >= 10 + 20 * k ==>
              1 + SumWork(q + [b]) > (s.base + SumWork(Path(r, s))) * Pow2(k)
  {
    hide Ancestry, Meet, Preferred, BelowFloor, Acceptable, ReplaysUpTo, Reorganised, SumWork, Pow2, StoreOk;
    var d, f, w := b.height - Meet(Path(r, s), q, |q| - 1), ForkWork(q + [b]), TotalWork(r, s);
    AcceptedHasWork(d, f, w, Height(s), r.maxDepth);
    if d > 10 && d >= 10 + 20 * k {
      CostCurve(d, f, w, Height(s), r.maxDepth, k);
    }
  }

  /** What becomes of a fork block that passed receipt: it is kept aside unless its chain has more work than is
      accounted for the active one, or as much and the smaller hash; it is too deep if the cost curve turns it away;
      and it is switched to if and only if it also leaves the active chain no lower than the last multiple of 144 and
      replays. */
  lemma {:induction false} ForkVerdict(r: Rules, s: State, b: Block, q: seq<Block>)
    requires Sound(r) && Sane(r, s) && Deliverable(r, s, b) && Screen(r, s, b).None? && b.prev != s.tip
    requires q == Ancestry(r.genesis, s.store, b.prev)
    ensures ForkPoint(r, s, q) < b.height
    ensures var status, fp := Deliver(r, s, b).1, ForkPoint(r, s, q);
            var work, ours := 1 + SumWork(q + [b]), s.base + SumWork(Path(r, s));
            var wins := work > ours || (work == ours && b.hash < s.tip);
            var deep := !Acceptable(b.height - fp, work, ours, Height(s), r.maxDepth);
            && (status == AcceptedFork <==> !wins)
            && (status == ReorgTooDeep <==> wins && deep)
            && (status.AcceptedReorg? <==> wins && !deep && fp >= Height(s) / 144 * 144
                                           && ReplaysUpTo(r, s, Path(r, s), q + [b], fp, |q| + 1))
            && (status in {AcceptedFork, ReorgTooDeep, Rejected} || status.AcceptedReorg?)
  {
    hide FreshPath, TreeTimeOk, CacheOk, Ancestry, SumWork, Meet, Named, Replays, Reorganised, Leftover, Acceptable,
         OrphanedTxs, Descending, ScreenRules, IsLineage, StoreOk;
    ForkShape(r, s, b, q);
    var p, c, fp := Path(r, s), q + [b], ForkPoint(r, s, q);
    FloorIs(Height(s));
    if ReplaysUpTo(r, s, p, c, fp, |c|) {
      FirstBadIs(r, s, p, c, fp, fp + 1, |c|);
    }
  }

  lemma {:induction false} FloorIs(h: nat)
    ensures Floor(h) == h / 144 * 144
  {
  }

  // ---------------------------------------------------------------- transactions returned to the mempool

  /** How often `t` occurs in the blocks of `p` above height `fp`. */
  ghost function Occurrences(p: seq<Block>, fp: nat, t: Tx): nat
    decreases |p| - fp
  {
    if |p| <= fp + 1 then 0 else Occurrences(p, fp + 1, t) + multiset(p[fp + 1].txs)[t]
  }

  lemma {:induction false} NonCoinbaseCount(txs: seq<Tx>, t: Tx)
    ensures multiset(NonCoinbase(txs))[t] == if t.coinbase then 0 else multiset(txs)[t]
  {
    if txs != [] {
      NonCoinbaseCount(txs[1..], t);
      assert txs == [txs[0]] + txs[1..];
    }
  }

  lemma {:induction false} NonCoinbaseHolds(txs: seq<Tx>, t: Tx)
    ensures t in NonCoinbase(txs) <==> !t.coinbase && t in txs
  {
    NonCoinbaseCount(txs, t);
  }

  lemma {:induction false} OrphanedAppend(ds: seq<Disconnected>, d: Disconnected)
    ensures OrphanedTxs(ds + [d]) == OrphanedTxs(ds) + NonCoinbase(d.txs)
    decreases |ds|
  {
    hide NonCoinbase;
    if ds == [] {
      assert [d][1..] == [] && ds + [d] == [d];
      assert OrphanedTxs([d]) == NonCoinbase(d.txs) + OrphanedTxs([]);
    } else {
      OrphanedAppend(ds[1..], d);
      assert (ds + [d])[1..] == ds[1..] + [d] && (ds + [d])[0] == ds[0];
      Regroup(NonCoinbase(ds[0].txs), OrphanedTxs(ds[1..]), NonCoinbase(d.txs));
    }
  }

  lemma {:induction false} Regroup(a: seq<Tx>, b: seq<Tx>, c: seq<Tx>)
    ensures a + (b + c) == a + b + c
  {
  }

  lemma {:induction false} OrphanedCount(p: seq<Block>, fp: nat, t: Tx)
    ensures multiset(OrphanedTxs(Descending(p, fp)))[t] == if t.coinbase then 0 else Occurrences(p, fp, t)
    decreases |p| - fp
  {
    if |p| > fp + 1 {
      OrphanedCount(p, fp + 1, t);
      OrphanedAppend(Descending(p, fp + 1), Disconnected(fp + 1, p[fp + 1].hash, p[fp + 1].txs));
      NonCoinbaseCount(p[fp + 1].txs, t);
    }
  }

  lemma {:induction false} OccursAbove(p: seq<Block>, fp: nat, t: Tx)
    ensures Occurrences(p, fp, t) > 0 <==> exists i :: fp < i < |p| && t in p[i].txs
    decreases |p| - fp
  {
    if |p| > fp + 1 {
      OccursAbove(p, fp + 1, t);
    }
  }

  lemma {:induction false} ReorgStatus(r: Rules, s: State, b: Block)
    requires Sound(r) && Sane(r, s) && Deliverable(r, s, b)
    ensures Deliver(r, s, b).1.AcceptedReorg? ==>
              && Attaches(s.store, b)
              && var q := Ancestry(r.genesis, s.store, b.prev);
              Deliver(r, s, b).1 == AcceptedReorg(OrphanedTxs(Descending(Path(r, s), Meet(Path(r, s), q, |q| - 1))))
  {
    hide FreshPath, TreeTimeOk, CacheOk, Ancestry, Meet, Preferred, BelowFloor, DepthOk, FirstBad, ReplaysUpTo,
         Reorganised, Sound, SumWork, Descending, OrphanedTxs, GraftsOnto, Leftover, WorkFits;
    StepPath(r, s, b);
  }

  /** A reorganisation returns exactly the transactions of the blocks it disconnects, coinbases aside, each as often as
      it occurred. */
  lemma {:induction false} ReorgReturns(r: Rules, s: State, b: Block, t: Tx)
    requires Sound(r) && Sane(r, s) && Deliverable(r, s, b)
    ensures Deliver(r, s, b).1.AcceptedReorg? ==>
              && Attaches(s.store, b)
              && var q := Ancestry(r.genesis, s.store, b.prev);
              var p, fp := Path(r, s), Meet(Path(r, s), q, |q| - 1);
              var returned := Deliver(r, s, b).1.orphaned;
              && multiset(returned)[t] == (if t.coinbase then 0 else Occurrences(p, fp, t))
              && (t in returned <==> !t.coinbase && exists i :: fp < i < |p| && t in p[i].txs)
  {
    hide Deliver, Ancestry, Meet, Descending, OrphanedTxs, Grafts, WorkFits, Sound, FreshPath, TreeTimeOk, CacheOk,
         SumWork;
    ReorgStatus(r, s, b);
    if Deliver(r, s, b).1.AcceptedReorg? {
      var q := Ancestry(r.genesis, s.store, b.prev);
      var p, fp := Path(r, s), Meet(Path(r, s), q, |q| - 1);
      OrphanedCount(p, fp, t);
      OccursAbove(p, fp, t);
    }
  }

  // ---------------------------------------------------------------- double spends

  /** No key image is spent by two blocks of the active chain, on any state a run can reach. */
  lemma {:induction false} NoDoubleSpend(r: Rules, s: State, i: nat, j: nat, k: KeyImage)
    requires Sane(r, s) && i <= Height(s) && j <= Height(s)
    requires SpentIn(Path(r, s)[i], k) && SpentIn(Path(r, s)[j], k)
    ensures i == j
  {
    hide SpentIn, FreshPath;
    if i < j {
      SpentOnce(Path(r, s), i, j, k);
    } else if j < i {
      SpentOnce(Path(r, s), j, i, k);
    }
  }

  // ---------------------------------------------------------------- checkpoints passed

  lemma {:induction false} StepCheckpoint(r: Rules, s: State, b: Block)
    requires Sound(r) && Sane(r, s) && Deliverable(r, s, b)
    ensures Next(r, s, b).lastCheckpoint ==
            if Deliver(r, s, b).1.Accepted? && b.height % CHECKPOINT_INTERVAL == 0 then b.height else s.lastCheckpoint
  {
    hide FreshPath, TreeTimeOk, CacheOk, SumWork, Ancestry, EvictFrom, ScreenRules, FirstBad, Preferred, DepthOk,
         Leftover, WorkFits, Floor, Meet, Named, IsLineage, StoreOk;
  }

  lemma {:induction false} FloorNext(h: nat)
    ensures Floor(h + 1) == if (h + 1) % CHECKPOINT_INTERVAL == 0 then h + 1 else Floor(h)
  {
  }

  /** The checkpoint handed to the validator never goes back, and is the last checkpoint boundary of the active chain as
      long as the chain grows block by block. */
  lemma {:induction false} CheckpointFollows(r: Rules, s: State, b: Block)
    requires Sound(r) && Sane(r, s) && Deliverable(r, s, b)
    ensures s.lastCheckpoint <= Next(r, s, b).lastCheckpoint <= Height(Next(r, s, b))
    ensures Deliver(r, s, b).1.Accepted? && s.lastCheckpoint == Floor(Height(s)) ==>
              Next(r, s, b).lastCheckpoint == Floor(Height(Next(r, s, b)))
  {
    hide FreshPath, TreeTimeOk, CacheOk, SumWork, Ancestry, Deliver, Switched, Floor, Grafts, WorkFits, Sound;
    StepPath(r, s, b);
    StepCheckpoint(r, s, b);
    if Deliver(r, s, b).1.Accepted? {
      FloorNext(Height(s));
      assert |Path(r, Next(r, s, b))| == |Path(r, s)| + 1;
    }
  }

  // ---------------------------------------------------------------- the block cache

  /** `c` and `x` are left of `cached` and `indexed` once the lowest evictable heights at or above `h` are gone, `n` of
      them or as many as there are, and one cached block for each. */
  ghost predicate Trimmed(top: int, cached: set<Hash>, indexed: set<nat>, c: set<Hash>, x: set<nat>, h: nat, n: nat) {
    && x <= indexed && |indexed - x| <= n && |c| + |indexed - x| == |cached|
    && (forall i :: i in indexed - x ==> h <= i && Evictable(top, i, indexed))
    && (forall i, j :: h <= i < j && Evictable(top, i, indexed) && j in indexed - x ==> i !in x)
    && (|indexed - x| < n ==> forall i :: h <= i && Evictable(top, i, indexed) ==> i !in x)
  }

  lemma {:induction false} TrimmedTakes(top: int, cached: set<Hash>, indexed: set<nat>, c: set<Hash>, x: set<nat>,
                                        h: nat, n: nat, b: Hash)
    requires Evictable(top, h, indexed) && b in cached && n > 0
    requires Trimmed(top, cached - {b}, indexed - {h}, c, x, h + 1, n - 1)
    ensures Trimmed(top, cached, indexed, c, x, h, n)
  {
    var w := indexed - {h};
    assert indexed - x == (w - x) + {h};
    forall i | h < i && Evictable(top, i, indexed) ensures Evictable(top, i, w) {
    }
  }

  lemma {:induction false} TrimmedSkips(top: int, cached: set<Hash>, indexed: set<nat>, c: set<Hash>, x: set<nat>,
                                        h: nat, n: nat)
    requires !Evictable(top, h, indexed) && Trimmed(top, cached, indexed, c, x, h + 1, n)
    ensures Trimmed(top, cached, indexed, c, x, h, n)
  {
  }

  lemma {:induction false} TrimmedNothing(top: int, cached: set<Hash>, indexed: set<nat>, h: nat, n: nat)
    requires n == 0 || forall i :: i in indexed ==> i < h
    ensures Trimmed(top, cached, indexed, cached, indexed, h, n)
  {
    assert indexed - indexed == {};
  }

  /** Every active block is cached exactly when its height is indexed. */
  ghost predicate Paired(p: seq<Block>, cached: set<Hash>, indexed: set<nat>) {
    forall i {:trigger CachedAt(p, cached, indexed, i)} :: 0 <= i < |p| ==> CachedAt(p, cached, indexed, i)
  }

  lemma {:induction false} PairedDrop(p: seq<Block>, cached: set<Hash>, indexed: set<nat>, h: nat)
    requires h < |p| && forall i, j :: 0 <= i < j < |p| ==> p[i].hash != p[j].hash
    requires Paired(p, cached, indexed)
    ensures Paired(p, cached - {p[h].hash}, indexed - {h}) && (h in indexed ==> p[h].hash in cached)
  {
    assert CachedAt(p, cached, indexed, h);
    forall i | 0 <= i < |p| ensures CachedAt(p, cached - {p[h].hash}, indexed - {h}, i) {
      assert CachedAt(p, cached, indexed, i);
    }
  }

  lemma {:induction false} EvictsLowest(p: seq<Block>, cached: set<Hash>, indexed: set<nat>, h: nat, n: nat)
    requires h <= |p| && forall i, j :: 0 <= i < j < |p| ==> p[i].hash != p[j].hash
    requires Paired(p, cached, indexed) && forall i :: i in indexed ==> i < |p|
    ensures var (c, x) := EvictFrom(p, cached, indexed, h, n); Trimmed(|p| - 1, cached, indexed, c, x, h, n)
    decreases |p| - h
  {
    hide Trimmed, Paired;
    var (c, x) := EvictFrom(p, cached, indexed, h, n);
    if h == |p| || n == 0 {
      TrimmedNothing(|p| - 1, cached, indexed, h, n);
    } else if Evictable(|p| - 1, h, indexed) {
      PairedDrop(p, cached, indexed, h);
      EvictsLowest(p, cached - {p[h].hash}, indexed - {h}, h + 1, n - 1);
      TrimmedTakes(|p| - 1, cached, indexed, c, x, h, n, p[h].hash);
    } else {
      EvictsLowest(p, cached, indexed, h + 1, n);
      TrimmedSkips(|p| - 1, cached, indexed, c, x, h, n);
    }
  }

  /** The cache bound: trimming removes the lowest cached heights between genesis and the last 200, in order, until 500
      blocks are left or none of those is left. */
  lemma {:induction false} EvictTrims(r: Rules, s: State)
    requires Sane(r, s)
    ensures var t := Evict(r, s); var gone := s.indexed - t.indexed;
            && |t.cached| + |gone| == |s.cached| && (|s.cached| <= 500 ==> t == s)
            && (gone != {} ==> |t.cached| >= 500)
            && (forall i :: i in gone ==> 0 < i && i + 200 < Height(s))
            && (forall i, j :: 0 < i < j && i in s.indexed && j in gone ==> i in gone)
            && (|t.cached| > 500 ==> forall i :: i in t.indexed ==> i == 0 || i + 200 >= Height(s))
  {
    hide FreshPath, TreeTimeOk, SumWork, Ancestry, EvictFrom;
    if |s.cached| <= 500 {
      assert s.indexed - s.indexed == {};
    } else {
      LineageHashesDistinct(r.genesis, s.store, Path(r, s));
      EvictsLowest(Path(r, s), s.cached, s.indexed, 0, |s.cached| - 500);
    }
  }
}
