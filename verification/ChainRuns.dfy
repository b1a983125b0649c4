/** What holds over every run of delivered blocks: fork-choice progress and finality. */
module ChainRuns {
  import opened Ledger
  import opened Lineage
  import opened ForkChoice
  import opened ChainModel
  import opened ChainInvariant

  /** Work of the active chain counted from genesis. */
  ghost function ChainWork(r: Rules, s: State): nat
    requires Rooted(r, s)
  {
    1 + SumWork(Path(r, s))
  }

  /** The active chain of `t` has more work than that of `s`, or as much and the smaller tip hash. */
  ghost predicate Ahead(r: Rules, t: State, s: State)
    requires Rooted(r, t) && Rooted(r, s)
  {
    ChainWork(r, t) > ChainWork(r, s) || (ChainWork(r, t) == ChainWork(r, s) && t.tip < s.tip)
  }

  /** Delivering `b` does not overflow the work accumulator, and `b` is not grafted on an entry a failed reorganisation
      has left above the tip. */
  ghost predicate Deliverable(r: Rules, s: State, b: Block)
    requires Sound(r) && Rooted(r, s)
  {
    WorkFits(r, s, b) && !Grafts(r, s, b)
  }

  ghost function Next(r: Rules, s: State, b: Block): (t: State)
    requires Sound(r) && Sane(r, s) && Deliverable(r, s, b)
    ensures Sane(r, t)
  {
    DeliverSane(r, s, b);
    Deliver(r, s, b).0
  }

  ghost predicate DeliverableRun(r: Rules, s: State, bs: seq<Block>)
    requires Sound(r) && Sane(r, s)
    decreases |bs|
  {
    bs != [] ==> Deliverable(r, s, bs[0]) && DeliverableRun(r, Next(r, s, bs[0]), bs[1..])
  }

  /** The state after delivering a sequence of blocks. */
  ghost function Run(r: Rules, s: State, bs: seq<Block>): (t: State)
    requires Sound(r) && Sane(r, s) && DeliverableRun(r, s, bs)
    ensures Sane(r, t)
    decreases |bs|
  {
    if bs == [] then s else Run(r, Next(r, s, bs[0]), bs[1..])
  }

  lemma {:induction false} RunFirst(r: Rules, s: State, b: Block, bs: seq<Block>)
    requires Sound(r) && Sane(r, s) && Deliverable(r, s, b) && DeliverableRun(r, Next(r, s, b), bs)
    ensures DeliverableRun(r, s, [b] + bs) && Run(r, s, [b] + bs) == Run(r, Next(r, s, b), bs)
  {
    hide Sound, Sane, Deliverable, Next;
    assert ([b] + bs)[1..] == bs;
  }

  lemma {:induction false} RunOfTwo(r: Rules, s: State, x: Block, y: Block)
    requires Sound(r) && Sane(r, s) && Deliverable(r, s, x) && Deliverable(r, Next(r, s, x), y)
    ensures DeliverableRun(r, s, [x, y]) && Run(r, s, [x, y]) == Next(r, Next(r, s, x), y)
  {
    hide Sound, Sane, Deliverable, Next;
    var t := Next(r, s, x);
    var u := Next(r, t, y);
    assert DeliverableRun(r, u, []) && Run(r, u, []) == u;
    assert [y][1..] == [] && DeliverableRun(r, t, [y]) && Run(r, t, [y]) == u;
    assert [x, y][1..] == [y];
  }

  // ---------------------------------------------------------------- one step

  /** How one delivered block can change the active chain: not at all, by one block, or to the block's own lineage. */
  lemma {:induction false} StepPath(r: Rules, s: State, b: Block)
    requires Sound(r) && Sane(r, s) && Deliverable(r, s, b)
    ensures var t := Next(r, s, b); var status := Deliver(r, s, b).1;
            if status.Accepted? then
              && Attaches(s.store, b) && b.prev == s.tip && t.tip == b.hash && t.base == s.base
              && Path(r, t) == Path(r, s) + [b]
            else if status.AcceptedReorg? then
              && Attaches(s.store, b) && t.tip == b.hash && t.base == 1
              && var q := Ancestry(r.genesis, s.store, b.prev);
              && Switched(r, s, b, q, t) && Path(r, t) == q + [b]
            else
              && t.tip == s.tip && t.base == s.base && t.indexed == s.indexed && s.cached <= t.cached
              && Path(r, t) == Path(r, s)
  {
    hide FreshPath, TreeTimeOk, CacheOk, SumWork, Ancestry, StoreOk, Evict, FirstBad, Leftover, Meet, Named,
         GraftsOnto, Acceptable, OrphanedTxs, Replay, WorkFits;
    if Screen(r, s, b).None? {
      if b.prev == s.tip {
        ExtendedSane(r, s, b);
        GrownSane(r, s, b);
        EvictSane(r, Grown(s, b));
      } else {
        var q := Ancestry(r.genesis, s.store, b.prev);
        ForkOutcome(r, s, b, q);
        if Deliver(r, s, b).1.AcceptedReorg? {
          ReorganisedPath(r, s, b, ForkPoint(r, s, q));
        } else {
          StoredPath(r, s, b);
        }
      }
    }
  }

  /** Every change of tip is a strict gain in the fork-choice order. */
  lemma {:induction false} TipOnlyImproves(r: Rules, s: State, b: Block)
    requires Sound(r) && Sane(r, s) && Deliverable(r, s, b) && s.base == 1
    ensures Next(r, s, b).base == 1
    ensures Next(r, s, b).tip == s.tip || Ahead(r, Next(r, s, b), s)
  {
    hide Ancestry, Acceptable, FreshPath, TreeTimeOk, CacheOk, IsLineage, FirstBad, ReplaysUpTo, Deliver;
    StepPath(r, s, b);
    var t := Next(r, s, b);
    if Deliver(r, s, b).1.Accepted? {
      assert Path(r, t)[..|Path(r, s)|] == Path(r, s);
      WorkGrows(Path(r, t), |Path(r, s)|);
    }
  }

  lemma {:induction false} HeldAboveFloor(r: Rules, s: State, fp: nat)
    requires Sane(r, s) && !BelowFloor(s, fp) && fp <= Height(s)
    ensures Floor(Height(s)) <= fp && Height(s) - fp <= 143
    ensures forall h :: fp < h <= Height(s) ==> h in s.indexed && Path(r, s)[h].hash in s.cached
  {
    var p := Path(r, s);
    forall h | fp < h <= Height(s) ensures h in s.indexed && p[h].hash in s.cached {
      assert MustIndex(p, h) && CachedAt(p, s.cached, s.indexed, h);
    }
  }

  /** Each reorganisation disconnects at most 143 blocks, all of them in memory. */
  lemma {:induction false} ReorgIsShallow(r: Rules, s: State, b: Block)
    requires Sound(r) && Sane(r, s) && Deliverable(r, s, b)
    ensures Deliver(r, s, b).1.AcceptedReorg? ==>
              && Attaches(s.store, b)
              && var q := Ancestry(r.genesis, s.store, b.prev);
              var fp := Meet(Path(r, s), q, |q| - 1);
              && Floor(Height(s)) <= fp && Height(s) - fp <= 143
              && forall h :: fp < h <= Height(s) ==> h in s.indexed && Path(r, s)[h].hash in s.cached
  {
    hide Deliver, SumWork, FreshPath, TreeTimeOk, CacheOk, ReplaysUpTo, Acceptable, Ancestry, Floor, Grafts, WorkFits;
    StepPath(r, s, b);
    if Deliver(r, s, b).1.AcceptedReorg? {
      var q := Ancestry(r.genesis, s.store, b.prev);
      HeldAboveFloor(r, s, Meet(Path(r, s), q, |q| - 1));
    }
  }

  /** The floor of `t` is no lower than that of `s`, and they have the same blocks up to the floor of `s`. */
  ghost predicate KeepsFinal(r: Rules, s: State, t: State)
    requires Rooted(r, s) && Rooted(r, t)
  {
    var f := Floor(Height(s));
    f <= Floor(Height(t)) && f <= Height(t) && Path(r, t)[..f + 1] == Path(r, s)[..f + 1]
  }

  lemma {:induction false} KeepsFinalTransitive(r: Rules, s: State, t: State, u: State)
    requires Rooted(r, s) && Rooted(r, t) && Rooted(r, u) && KeepsFinal(r, s, t) && KeepsFinal(r, t, u)
    ensures KeepsFinal(r, s, u)
  {
    PrefixOfPrefix(Path(r, u), Path(r, t), Floor(Height(s)) + 1, Floor(Height(t)) + 1);
  }

  lemma {:induction false} SwitchKeepsFinal(r: Rules, s: State, b: Block, q: seq<Block>, t: State)
    requires Rooted(r, s) && Attaches(s.store, b) && q == Ancestry(r.genesis, s.store, b.prev)
    requires Switched(r, s, b, q, t) && Rooted(r, t) && Path(r, t) == q + [b]
    requires StraysAbove(s)
    ensures KeepsFinal(r, s, t)
  {
    hide SumWork, Ancestry, Acceptable, Beats, FirstBad, ReplaysUpTo, IsLineage;
    ForkShape(r, s, b, q);
    var fp := Meet(Path(r, s), q, |q| - 1);
    PrefixOfPrefix(q + [b], Path(r, s), Floor(Height(s)) + 1, fp + 1);
    FloorMonotone(Height(s), Height(t));
  }

  /** The finality floor does not drop, and the blocks up to it stay where they are. */
  lemma {:induction false} StepKeepsFinal(r: Rules, s: State, b: Block)
    requires Sound(r) && Sane(r, s) && Deliverable(r, s, b)
    ensures KeepsFinal(r, s, Next(r, s, b))
  {
    hide SumWork, Acceptable, Beats, FirstBad, ReplaysUpTo, FreshPath, TreeTimeOk, CacheOk, Deliver, Switched;
    StepPath(r, s, b);
    var t := Next(r, s, b);
    if Deliver(r, s, b).1.AcceptedReorg? {
      SwitchKeepsFinal(r, s, b, Ancestry(r.genesis, s.store, b.prev), t);
    } else {
      FloorMonotone(Height(s), Height(t));
    }
  }

  // ---------------------------------------------------------------- whole runs

  /** Over any run the tip stays or ends strictly ahead in the fork-choice order. */
  lemma {:induction false} RunOnlyImproves(r: Rules, s: State, bs: seq<Block>)
    requires Sound(r) && Sane(r, s) && DeliverableRun(r, s, bs) && s.base == 1
    ensures Run(r, s, bs).base == 1
    ensures (Run(r, s, bs).tip == s.tip && ChainWork(r, Run(r, s, bs)) == ChainWork(r, s)) || Ahead(r, Run(r, s, bs), s)
    decreases |bs|
  {
    hide Sound, FreshPath, TreeTimeOk, CacheOk, SumWork, Ancestry, Deliver, Switched, Deliverable;
    if bs != [] {
      TipOnlyImproves(r, s, bs[0]);
      StepPath(r, s, bs[0]);
      RunOnlyImproves(r, Next(r, s, bs[0]), bs[1..]);
    }
  }

  /** A run ends on the tip it started from or on a block that was not stored then. */
  lemma {:induction false} RunTip(r: Rules, s: State, bs: seq<Block>)
    requires Sound(r) && Sane(r, s) && DeliverableRun(r, s, bs)
    ensures Run(r, s, bs).tip == s.tip || Run(r, s, bs).tip !in s.store
    decreases |bs|
  {
    hide FreshPath, TreeTimeOk, CacheOk, SumWork, Ancestry, Deliver, Switched, Sound;
    if bs != [] {
      StepPath(r, s, bs[0]);
      StepKeepsStore(r, s, bs[0]);
      RunTip(r, Next(r, s, bs[0]), bs[1..]);
    }
  }

  /** No run returns to a tip it has left. */
  lemma {:induction false} NoReturn(r: Rules, s: State, xs: seq<Block>, ys: seq<Block>)
    requires Sound(r) && Sane(r, s)
    requires DeliverableRun(r, s, xs) && DeliverableRun(r, Run(r, s, xs), ys)
    requires Run(r, s, xs).tip != s.tip
    ensures Run(r, Run(r, s, xs), ys).tip != s.tip
  {
    RunKeepsStore(r, s, xs);
    RunTip(r, Run(r, s, xs), ys);
  }

  lemma {:induction false} StoreGrows(m: map<Hash, Block>, b: Block)
    ensures Submap(m, m) && (b.hash !in m ==> Submap(m, m[b.hash := b]))
  {
  }

  lemma {:induction false} StepKeepsStore(r: Rules, s: State, b: Block)
    requires Sound(r) && Sane(r, s) && Deliverable(r, s, b)
    ensures Next(r, s, b).store == if Screen(r, s, b).None? then s.store[b.hash := b] else s.store
    ensures Submap(s.store, Next(r, s, b).store)
  {
    hide FreshPath, TreeTimeOk, CacheOk, SumWork, Ancestry, IsLineage, DeliverFork, ScreenRules, EvictFrom, WorkFits,
         ReplaysUpTo, Preferred, DepthOk, Heights, UpTo, Meet, Replay, Submap;
    StoreGrows(s.store, b);
    if Screen(r, s, b).None? {
      if b.prev == s.tip {
        assert Extended(r, s, b).store == Grown(s, b).store;
      } else {
        ForkOutcome(r, s, b, Ancestry(r.genesis, s.store, b.prev));
      }
    }
  }

  lemma {:induction false} RunKeepsStore(r: Rules, s: State, bs: seq<Block>)
    requires Sound(r) && Sane(r, s) && DeliverableRun(r, s, bs)
    ensures Submap(s.store, Run(r, s, bs).store)
    decreases |bs|
  {
    if bs != [] {
      StepKeepsStore(r, s, bs[0]);
      RunKeepsStore(r, Next(r, s, bs[0]), bs[1..]);
    }
  }

  /** Finality: over any run the floor never drops and no active block at or below it is ever replaced. */
  lemma {:induction false} RunKeepsFinal(r: Rules, s: State, bs: seq<Block>)
    requires Sound(r) && Sane(r, s) && DeliverableRun(r, s, bs)
    ensures KeepsFinal(r, s, Run(r, s, bs))
    decreases |bs|
  {
    if bs != [] {
      var m := Next(r, s, bs[0]);
      StepKeepsFinal(r, s, bs[0]);
      RunKeepsFinal(r, m, bs[1..]);
      KeepsFinalTransitive(r, s, m, Run(r, s, bs));
    }
  }

  // ---------------------------------------------------------------- pinned blocks

  /** Every stored block at a pinned height is the pinned one. */
  ghost predicate Pinned(r: Rules, m: map<Hash, Block>) {
    forall h :: h in m && m[h].height in r.checkpoints ==> r.checkpoints[m[h].height] == h
  }

  /** No run stores a block that contradicts the hardcoded checkpoints, on any branch. */
  lemma {:induction false} RunKeepsPinned(r: Rules, s: State, bs: seq<Block>)
    requires Sound(r) && Sane(r, s) && DeliverableRun(r, s, bs) && Pinned(r, s.store)
    ensures Pinned(r, Run(r, s, bs).store)
    decreases |bs|
  {
    if bs != [] {
      StepKeepsStore(r, s, bs[0]);
      if Screen(r, s, bs[0]).None? {
        StepPins(r, s, bs[0]);
      }
      RunKeepsPinned(r, Next(r, s, bs[0]), bs[1..]);
    }
  }

  lemma {:induction false} StepPins(r: Rules, s: State, b: Block)
    requires Sound(r) && Rooted(r, s) && Screen(r, s, b).None? && Pinned(r, s.store)
    ensures Pinned(r, s.store[b.hash := b])
  {
  }
}
